/**
 * The profile-update validator: a pre-update-profile hook that checks the HTTP
 * method, the API key and the action type, rejects an unknown department, and
 * mails a security alert listing the sensitive claims being changed.
 */
module ProfileUpdate {
  import opened Wrappers
  import opened Webhook

  const ValidDepartments: seq<string> := ["Engineering", "HR", "Sales", "Finance"]
  const PreUpdateProfile: string := "PRE_UPDATE_PROFILE"

  const DepartmentClaim: string := "http://wso2.org/claims/department"
  const EmailClaim: string := "http://wso2.org/claims/emailaddress"
  const MobileClaim: string := "http://wso2.org/claims/mobile"

  const UnknownUser: string := "Unknown User"
  const AlertFrom: string := "\"Security Alert\" <security-notifications@wso2.com>"
  const AlertTo: string := "security-team@wso2.com"
  const AlertSubject: string := "Sensitive Attribute Update Request"

  /** One entry `{uri, value}` of `event.request.claims`. */
  datatype Claim = Claim(uri: Option<string>, value: Option<string>)

  /** The parts of the request the handler reads. `apiKey` is the `api-key` header;
      `claims` is `[]` when the payload has none; `userId` is `event.user.id`. */
  datatype ProfileRequest = ProfileRequest(
    httpMethod: string,
    apiKey: Option<string>,
    actionType: Option<string>,
    claims: seq<Claim>,
    userId: Option<string>)

  /** The alert that `sendMail` is asked to deliver. */
  datatype Mail = Mail(from: string, to: string, subject: string, text: string)

  /** How `sendMail` settles. */
  datatype Delivery = Delivered | DeliveryFailed

  // ---------------------------------------------------------------------------
  // getClaimValue
  // ---------------------------------------------------------------------------

  /** `claims.find(c => c.uri === uri)`, then its value or null. */
  function GetClaimValue(claims: seq<Claim>, uri: string): Option<string> {
    if claims == [] then None
    else if claims[0].uri == Some(uri) then claims[0].value
    else GetClaimValue(claims[1..], uri)
  }

  /** Claim `i` is the first one with the given uri. */
  ghost predicate FirstClaimAt(claims: seq<Claim>, uri: string, i: int) {
    0 <= i < |claims| && claims[i].uri == Some(uri) &&
    forall j :: 0 <= j < i ==> claims[j].uri != Some(uri)
  }

  /** The value of the first claim with the uri; null when no claim has it. */
  lemma {:induction false} GetClaimValueSpec(claims: seq<Claim>, uri: string)
    ensures forall i :: FirstClaimAt(claims, uri, i) ==> GetClaimValue(claims, uri) == claims[i].value
    ensures (forall j :: 0 <= j < |claims| ==> claims[j].uri != Some(uri)) ==>
              GetClaimValue(claims, uri) == None
    ensures GetClaimValue(claims, uri).Some? ==>
              exists i :: FirstClaimAt(claims, uri, i) && GetClaimValue(claims, uri) == claims[i].value
  {
    if claims != [] && claims[0].uri != Some(uri) {
      var tl := claims[1..];
      GetClaimValueSpec(tl, uri);
      forall i | FirstClaimAt(claims, uri, i) ensures FirstClaimAt(tl, uri, i - 1) {
        assert i != 0;
      }
      if GetClaimValue(claims, uri).Some? {
        var k :| FirstClaimAt(tl, uri, k) && GetClaimValue(tl, uri) == tl[k].value;
        assert FirstClaimAt(claims, uri, k + 1);
      }
    } else if claims != [] {
      assert FirstClaimAt(claims, uri, 0);
      forall i | 0 < i < |claims| ensures !FirstClaimAt(claims, uri, i) {
        assert claims[0].uri == Some(uri);
      }
    }
  }

  // ---------------------------------------------------------------------------
  // The list of changes
  // ---------------------------------------------------------------------------

  /** A sensitive claim being updated, with the name the alert uses for it. */
  datatype Field = Field(name: string, value: Option<string>)

  /** The alert line of one field: none unless its value is truthy. */
  function LineOf(f: Field): seq<string> {
    if Truthy(f.value) then [f.name + ": " + f.value.value] else []
  }

  /** The alert lines of the truthy fields, in the order of the fields. */
  function Changes(fields: seq<Field>): seq<string> {
    if fields == [] then [] else LineOf(fields[0]) + Changes(fields[1..])
  }

  /** The sensitive claims in the order the alert lists them. */
  function SensitiveFields(department: Option<string>, email: Option<string>,
                           phone: Option<string>): seq<Field> {
    [Field("Department", department), Field("Email", email), Field("Phone", phone)]
  }

  /** The lines of two runs of fields are the lines of each, in the same order. */
  lemma {:induction false} ChangesAppend(fs: seq<Field>, gs: seq<Field>)
    ensures Changes(fs + gs) == Changes(fs) + Changes(gs)
  {
    if fs != [] {
      assert (fs + gs)[0] == fs[0];
      assert (fs + gs)[1..] == fs[1..] + gs;
      ChangesAppend(fs[1..], gs);
      calc {
        Changes(fs + gs);
        LineOf(fs[0]) + Changes(fs[1..] + gs);
        LineOf(fs[0]) + (Changes(fs[1..]) + Changes(gs));
      }
    } else {
      assert fs + gs == gs;
    }
  }

  /** There is one line per truthy field, so the list is empty exactly when no field
      is truthy. */
  lemma {:induction false} ChangesEmptyIff(fs: seq<Field>)
    ensures Changes(fs) == [] <==> forall i :: 0 <= i < |fs| ==> !Truthy(fs[i].value)
  {
    if fs != [] {
      ChangesEmptyIff(fs[1..]);
      if forall i :: 0 <= i < |fs[1..]| ==> !Truthy(fs[1..][i].value) {
        forall i | 0 < i < |fs| ensures !Truthy(fs[i].value) {
          assert fs[i] == fs[1..][i - 1];
        }
      }
    }
  }

  /** Lines 66-69: push one line per truthy claim, Department, then Email, then Phone. */
  method CollectChanges(department: Option<string>, email: Option<string>, phone: Option<string>)
    returns (changes: seq<string>)
    ensures changes == Changes(SensitiveFields(department, email, phone))
  {
    changes := [];
    if Truthy(department) {
      changes := changes + ["Department: " + department.value];
    }
    if Truthy(email) {
      changes := changes + ["Email: " + email.value];
    }
    if Truthy(phone) {
      changes := changes + ["Phone: " + phone.value];
    }
    assert "Department" + ": " == "Department: " && "Email" + ": " == "Email: " &&
           "Phone" + ": " == "Phone: ";
    SensitiveChanges(department, email, phone);
  }

  /** The three sensitive claims contribute their lines one after the other. */
  lemma SensitiveChanges(department: Option<string>, email: Option<string>, phone: Option<string>)
    ensures Changes(SensitiveFields(department, email, phone)) ==
              LineOf(Field("Department", department)) + LineOf(Field("Email", email)) +
              LineOf(Field("Phone", phone))
  {
    var fs := SensitiveFields(department, email, phone);
    forall f: Field ensures Changes([f]) == LineOf(f) {
      assert [f][1..] == [];
    }
    assert fs == [fs[0]] + [fs[1]] + [fs[2]];
    ChangesAppend([fs[0]] + [fs[1]], [fs[2]]);
    ChangesAppend([fs[0]], [fs[1]]);
  }

  /** The alert is sent exactly when one of the three claims is truthy. */
  lemma SensitiveChangesEmptyIff(department: Option<string>, email: Option<string>,
                                 phone: Option<string>)
    ensures Changes(SensitiveFields(department, email, phone)) == [] <==>
              !Truthy(department) && !Truthy(email) && !Truthy(phone)
  {
    var fs := SensitiveFields(department, email, phone);
    ChangesEmptyIff(fs);
    assert fs[0].value == department && fs[1].value == email && fs[2].value == phone;
  }

  /** Only the truthy claims are listed, always Department before Email before Phone. */
  lemma SensitiveChangesOrder(department: Option<string>, email: Option<string>,
                              phone: Option<string>)
    ensures Changes(SensitiveFields(department, email, phone)) ==
              (if Truthy(department) then ["Department: " + department.value] else []) +
              (if Truthy(email) then ["Email: " + email.value] else []) +
              (if Truthy(phone) then ["Phone: " + phone.value] else [])
  {
    assert "Department" + ": " == "Department: " && "Email" + ": " == "Email: " &&
           "Phone" + ": " == "Phone: ";
    SensitiveChanges(department, email, phone);
  }

  /** `changes.join("\n")`. */
  function JoinLines(lines: seq<string>): string {
    if lines == [] then ""
    else if |lines| == 1 then lines[0]
    else lines[0] + "\n" + JoinLines(lines[1..])
  }

  /** Appending a line adds one newline and that line to the joined text. */
  lemma {:induction false} JoinLinesSnoc(lines: seq<string>, line: string)
    requires lines != []
    ensures JoinLines(lines + [line]) == JoinLines(lines) + "\n" + line
  {
    if |lines| == 1 {
      assert (lines + [line])[1..] == [line];
    } else {
      assert (lines + [line])[0] == lines[0];
      assert (lines + [line])[1..] == lines[1..] + [line];
      JoinLinesSnoc(lines[1..], line);
    }
  }

  /** The user named in the alert: `event.user.id || "Unknown User"`. */
  function UserLabel(userId: Option<string>): string {
    if Truthy(userId) then userId.value else UnknownUser
  }

  function SecurityAlert(user: string, changes: seq<string>): Mail {
    Mail(AlertFrom, AlertTo, AlertSubject,
         "User " + user + " is attempting to update:\n\n" + JoinLines(changes))
  }

  /** The alert names the user, or "Unknown User" when the id is missing or empty,
      and lists the changes one per line. */
  lemma SecurityAlertText(user: string, first: string, second: string)
    ensures UserLabel(None) == "Unknown User" && UserLabel(Some("")) == "Unknown User"
    ensures user != "" ==> UserLabel(Some(user)) == user
    ensures JoinLines([]) == "" && JoinLines([first]) == first
    ensures JoinLines([first, second]) == first + "\n" + second
  {
    assert [first, second][1..] == [second];
  }

  // ---------------------------------------------------------------------------
  // The gate chain
  // ---------------------------------------------------------------------------

  /** A present, non-empty key equal to the configured one. `configured` is
      `process.env.API_KEY`, None when unset (then no key is accepted). */
  predicate KeyAccepted(given: Option<string>, configured: Option<string>) {
    Truthy(given) && configured == given
  }

  /** A department that is present and not one of the known ones. */
  predicate DepartmentRejected(department: Option<string>) {
    Truthy(department) && department.value !in ValidDepartments
  }

  function DepartmentOf(req: ProfileRequest): Option<string> {
    GetClaimValue(req.claims, DepartmentClaim)
  }

  function RequestedChanges(req: ProfileRequest): seq<string> {
    Changes(SensitiveFields(DepartmentOf(req),
                            GetClaimValue(req.claims, EmailClaim),
                            GetClaimValue(req.claims, MobileClaim)))
  }

  /** POST with an accepted key. */
  predicate Authorized(req: ProfileRequest, configuredKey: Option<string>) {
    req.httpMethod == "POST" && KeyAccepted(req.apiKey, configuredKey)
  }

  /** Passes every gate before the department check. */
  predicate ActionAccepted(req: ProfileRequest, configuredKey: Option<string>) {
    Authorized(req, configuredKey) && req.actionType == Some(PreUpdateProfile)
  }

  /** Passes every gate. */
  predicate Admitted(req: ProfileRequest, configuredKey: Option<string>) {
    ActionAccepted(req, configuredKey) && !DepartmentRejected(DepartmentOf(req))
  }

  const Unauthorized: Response :=
    FailedResponse(401, "unauthorized", "Invalid or missing API key.")
  const InvalidActionType: Response :=
    FailedResponse(200, "invalid_input", "Invalid actionType provided.")
  const InvalidDepartment: Response :=
    FailedResponse(200, "invalid_department_input", "Provided user department value is invalid.")
  const EmailError: Response :=
    FailedResponse(200, "email_error", "Failed to notify security team about sensitive data update.")

  /** The handler. `configuredKey` is the deployment's API key; `delivery` is how the
      alert would be delivered; `mail` is the alert the handler sends, None when it
      sends none. Each gate answers only when all earlier gates passed. */
  method ValidateProfileUpdate(req: ProfileRequest, configuredKey: Option<string>, delivery: Delivery)
    returns (resp: Response, mail: Option<Mail>)
    ensures req.httpMethod != "POST" ==> resp == MethodNotAllowed
    ensures req.httpMethod == "POST" && !KeyAccepted(req.apiKey, configuredKey) ==>
              resp == Unauthorized
    ensures Authorized(req, configuredKey) && req.actionType != Some(PreUpdateProfile) ==>
              resp == InvalidActionType
    ensures ActionAccepted(req, configuredKey) && DepartmentRejected(DepartmentOf(req)) ==>
              resp == InvalidDepartment
    ensures mail.Some? <==> Admitted(req, configuredKey) && RequestedChanges(req) != []
    ensures mail.Some? ==> mail.value == SecurityAlert(UserLabel(req.userId), RequestedChanges(req))
    ensures Admitted(req, configuredKey) ==>
              resp == if RequestedChanges(req) != [] && delivery == DeliveryFailed
                      then EmailError else SuccessResponse(200)
  {
    mail := None;
    if req.httpMethod != "POST" {
      return MethodNotAllowed, None;
    }
    if !Truthy(req.apiKey) || Some(req.apiKey.value) != configuredKey {
      return Unauthorized, None;
    }
    if req.actionType != Some(PreUpdateProfile) {
      return InvalidActionType, None;
    }
    var department := GetClaimValue(req.claims, DepartmentClaim);
    var email := GetClaimValue(req.claims, EmailClaim);
    var phone := GetClaimValue(req.claims, MobileClaim);
    if Truthy(department) && department.value !in ValidDepartments {
      return InvalidDepartment, None;
    }
    var changes := CollectChanges(department, email, phone);
    if |changes| > 0 {
      mail := Some(SecurityAlert(UserLabel(req.userId), changes));
      if delivery == DeliveryFailed {
        return EmailError, mail;
      }
    }
    resp := SuccessResponse(200);
  }
}
