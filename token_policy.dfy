/**
 * The risk-based token decision: a pre-issue-access-token hook that extracts the
 * client IP, denies blocked countries, and grades the IP's abuse-confidence score
 * into deny, plain allow, or allow with a shortened token expiry.
 *
 * The handler has one suspension point, the reputation call. It is modelled as two
 * functions: `Screen` (everything before the call), which either answers at once or
 * asks for the reputation of an IP, and `Decide` (everything after it).
 */
module TokenPolicy {
  import opened Wrappers
  import opened Webhook

  const BlockedCountries: seq<string> := ["KP", "IR", "RU", "SY", "CN"]
  const UnknownCountry: string := "UNKNOWN"

  const HighRiskAbove: int := 75
  const LowRiskBelow: int := 25

  const ExpiryWorkingHours: nat := 900
  const ExpiryNonWorkingHours: nat := 300
  const ExpiresInPath: string := "/accessToken/claims/expires_in"

  const AccessDenied: string := "access_denied"
  const NoIpMessage: string := "Unable to determine client IP."
  const HighRiskMessage: string := "Access token issuance is blocked due to high IP risk."
  const ReputationErrorMessage: string := "Error checking IP reputation."
  const BlockedRegionPrefix: string := "Access token issuance is blocked from your region ("
  const BlockedRegionSuffix: string := ")."

  /** What `getUTCHours()` returns. */
  type UtcHour = h: int | 0 <= h < 24

  // ---------------------------------------------------------------------------
  // Client-IP extraction (getClientIp)
  // ---------------------------------------------------------------------------

  /** The outcome of `headers.find(h => h.name.toLowerCase() === "x-client-source-ip")`:
      the callback throws on an entry without a name. */
  datatype Scan = Hit(entry: Header) | Miss | Threw

  function FindClientIpHeader(hs: seq<Header>): Scan {
    if hs == [] then Miss
    else if hs[0].name.None? then Threw
    else if IsClientIpHeaderName(hs[0].name.value) then Hit(hs[0])
    else FindClientIpHeader(hs[1..])
  }

  /** Every entry before position `i` has a name, and it is not the client-IP header. */
  ghost predicate OthersBefore(hs: seq<Header>, i: int) {
    forall j :: 0 <= j < i && j < |hs| ==> hs[j].name.Some? && !IsClientIpHeaderName(hs[j].name.value)
  }

  /** Entry `i` is the first client-IP header and no nameless entry precedes it. */
  ghost predicate FirstMatchAt(hs: seq<Header>, i: int) {
    0 <= i < |hs| && OthersBefore(hs, i) &&
    hs[i].name.Some? && IsClientIpHeaderName(hs[i].name.value)
  }

  /** Entry `i` has no name and every entry before it is some other named header. */
  ghost predicate NamelessAt(hs: seq<Header>, i: int) {
    0 <= i < |hs| && OthersBefore(hs, i) && hs[i].name.None?
  }

  /** The scan stops at the first entry that either lacks a name (and throws) or
      is the client-IP header (and hits); it misses only when neither occurs. */
  lemma {:induction false} FindClientIpHeaderSpec(hs: seq<Header>)
    ensures forall i :: FirstMatchAt(hs, i) ==> FindClientIpHeader(hs) == Hit(hs[i])
    ensures forall i :: NamelessAt(hs, i) ==> FindClientIpHeader(hs) == Threw
    ensures FindClientIpHeader(hs).Hit? ==>
              exists i :: FirstMatchAt(hs, i) && FindClientIpHeader(hs).entry == hs[i]
    ensures FindClientIpHeader(hs).Threw? ==> exists i :: NamelessAt(hs, i)
    ensures FindClientIpHeader(hs).Miss? <==> OthersBefore(hs, |hs|)
  {
    if hs != [] && hs[0].name.Some? && !IsClientIpHeaderName(hs[0].name.value) {
      var tl := hs[1..];
      FindClientIpHeaderSpec(tl);
      forall i | FirstMatchAt(hs, i) ensures FirstMatchAt(tl, i - 1) {
        assert i != 0;
        forall j | 0 <= j < i - 1 ensures tl[j] == hs[j + 1] { }
      }
      forall i | NamelessAt(hs, i) ensures NamelessAt(tl, i - 1) {
        assert i != 0;
        forall j | 0 <= j < i - 1 ensures tl[j] == hs[j + 1] { }
      }
      if FindClientIpHeader(hs).Hit? {
        var k :| FirstMatchAt(tl, k) && FindClientIpHeader(tl).entry == tl[k];
        assert FirstMatchAt(hs, k + 1);
      }
      if FindClientIpHeader(hs).Threw? {
        var k :| NamelessAt(tl, k);
        assert NamelessAt(hs, k + 1);
      }
      assert OthersBefore(hs, |hs|) <==> OthersBefore(tl, |tl|) by {
        if OthersBefore(tl, |tl|) {
          forall j | 0 <= j < |hs| ensures hs[j].name.Some? && !IsClientIpHeaderName(hs[j].name.value) {
            if j > 0 { assert hs[j] == tl[j - 1]; }
          }
        }
        if OthersBefore(hs, |hs|) {
          forall j | 0 <= j < |tl| ensures tl[j].name.Some? && !IsClientIpHeaderName(tl[j].name.value) {
            assert tl[j] == hs[j + 1];
          }
        }
      }
    } else if hs != [] {
      assert FirstMatchAt(hs, 0) || NamelessAt(hs, 0);
      forall i | 0 < i <= |hs| ensures !OthersBefore(hs, i) {
        assert !(hs[0].name.Some? && !IsClientIpHeaderName(hs[0].name.value));
      }
      assert !OthersBefore(hs, |hs|);
    }
  }

  /** Once the scan has stopped, entries appended after the list are never looked at. */
  lemma {:induction false} FindClientIpHeaderStops(hs: seq<Header>, rest: seq<Header>)
    requires !FindClientIpHeader(hs).Miss?
    ensures FindClientIpHeader(hs + rest) == FindClientIpHeader(hs)
  {
    assert hs != [];
    assert (hs + rest)[0] == hs[0];
    if hs[0].name.Some? && !IsClientIpHeaderName(hs[0].name.value) {
      assert (hs + rest)[1..] == hs[1..] + rest;
      FindClientIpHeaderStops(hs[1..], rest);
    }
  }

  /** getClientIp: `additionalHeaders` None stands for a payload without a list
      (`|| []` finds nothing) and for one whose value is not a list (`find` throws);
      both give null. */
  function GetClientIp(additionalHeaders: Option<seq<Header>>): Option<string> {
    match additionalHeaders
    case None => None
    case Some(hs) =>
      match FindClientIpHeader(hs)
      case Hit(h) => FirstTruthyValue(h)
      case Miss => None
      case Threw => None
  }

  /** The IP is the truthy first value of the first client-IP header; a nameless entry
      before it, or no such header, gives null. */
  lemma GetClientIpSpec(hs: seq<Header>)
    ensures forall i :: FirstMatchAt(hs, i) ==> GetClientIp(Some(hs)) == FirstTruthyValue(hs[i])
    ensures forall i :: NamelessAt(hs, i) ==> GetClientIp(Some(hs)) == None
    ensures GetClientIp(Some(hs)).Some? <==>
              exists i :: FirstMatchAt(hs, i) && FirstTruthyValue(hs[i]).Some?
    ensures GetClientIp(Some(hs)).Some? ==> GetClientIp(Some(hs)).value != ""
    ensures GetClientIp(None) == None
  {
    FindClientIpHeaderSpec(hs);
  }

  /** Later matching headers are not consulted, even when the first one has no
      usable value. */
  lemma GetClientIpIgnoresLaterHeaders(hs: seq<Header>, rest: seq<Header>, i: int)
    requires FirstMatchAt(hs, i)
    ensures GetClientIp(Some(hs + rest)) == GetClientIp(Some(hs)) == FirstTruthyValue(hs[i])
  {
    FindClientIpHeaderSpec(hs);
    FindClientIpHeaderStops(hs, rest);
  }

  // ---------------------------------------------------------------------------
  // Country lookup, working hours, expiry
  // ---------------------------------------------------------------------------

  /** lookupCountry: `geoCountry` stands for `geoip.lookup(ip)?.country`, None on a
      miss; a missing or empty code becomes "UNKNOWN". */
  function LookupCountry(geoCountry: string -> Option<string>, ip: string): (c: string)
    ensures c != ""
    ensures c == UnknownCountry || geoCountry(ip) == Some(c)
    ensures !Truthy(geoCountry(ip)) ==> c == UnknownCountry
    ensures Truthy(geoCountry(ip)) ==> c == geoCountry(ip).value
  {
    match geoCountry(ip)
    case None => UnknownCountry
    case Some(code) => if code == "" then UnknownCountry else code
  }

  /** A geo miss is not blocked: geo ambiguity fails open. */
  lemma UnknownCountryNotBlocked()
    ensures UnknownCountry !in BlockedCountries
  {
  }

  /** isWorkingHours: 9 AM to 5 PM UTC. */
  predicate IsWorkingHours(hour: UtcHour) {
    9 <= hour < 17
  }

  /** The number a string of decimal digits denotes. */
  function DigitsValue(s: string): nat
    requires forall k :: 0 <= k < |s| ==> '0' <= s[k] <= '9'
  {
    if s == [] then 0
    else DigitsValue(s[..|s| - 1]) * 10 + (s[|s| - 1] as int - '0' as int)
  }

  /** `Number.prototype.toString()` on a natural number: its decimal digits. */
  function DecimalString(n: nat): (s: string)
    ensures |s| > 0
    ensures forall k :: 0 <= k < |s| ==> '0' <= s[k] <= '9'
    ensures DigitsValue(s) == n
    ensures s[0] == '0' ==> n == 0
  {
    var digit := ['0' + (n % 10) as char];
    if n < 10 then digit else DecimalString(n / 10) + digit
  }

  /** The replacement value of the grey-zone expiry claim at a given hour. */
  function ExpiryValue(hour: UtcHour): string {
    DecimalString(if IsWorkingHours(hour) then ExpiryWorkingHours else ExpiryNonWorkingHours)
  }

  /** The expiry is "900" exactly in working hours and "300" otherwise. */
  lemma ExpiryValueSpec(hour: UtcHour)
    ensures ExpiryValue(hour) == "900" <==> 9 <= hour < 17
    ensures ExpiryValue(hour) == "300" <==> !(9 <= hour < 17)
  {
    assert DecimalString(900) == "900" by {
      assert DecimalString(9) == "9";
      assert DecimalString(90) == "90";
    }
    assert DecimalString(300) == "300" by {
      assert DecimalString(3) == "3";
      assert DecimalString(30) == "30";
    }
  }

  // ---------------------------------------------------------------------------
  // Reputation
  // ---------------------------------------------------------------------------

  /** How the AbuseIPDB request ends: a request error, a body `JSON.parse` rejects,
      or a parsed body whose `data.abuseConfidenceScore` may be missing. */
  datatype ReputationReply = TransportError | Unparsable | Parsed(abuseConfidenceScore: Option<int>)

  /** The settled promise of callAbuseIPDB. */
  datatype Reputation = Score(score: int) | LookupFailure

  /** callAbuseIPDB: rejects on a request error or an unparsable body; a parsed body
      without the score resolves to 0. */
  function AbuseScore(reply: ReputationReply): (r: Reputation)
    ensures r.LookupFailure? <==> !reply.Parsed?
    ensures reply == Parsed(None) ==> r == Score(0)
    ensures reply.Parsed? && reply.abuseConfidenceScore.Some? ==>
              r == Score(reply.abuseConfidenceScore.value)
  {
    match reply
    case TransportError => LookupFailure
    case Unparsable => LookupFailure
    case Parsed(score) =>
      match score
      case None => Score(0)
      case Some(s) => Score(s)
  }

  // ---------------------------------------------------------------------------
  // Responses and the decision chain
  // ---------------------------------------------------------------------------

  /** denyResponse: every denial of this hook uses "access_denied". */
  function DenyResponse(description: string): Response {
    FailedResponse(200, AccessDenied, description)
  }

  /** allowResponse. */
  function AllowResponse(): Response {
    SuccessResponse(200)
  }

  /** The grey-zone answer: allow, replacing the token's `expires_in` claim. */
  function ShortenedExpiryResponse(hour: UtcHour): Response {
    Response(200, Json(Success, None, None,
                       Some([Operation("replace", ExpiresInPath, ExpiryValue(hour))])))
  }

  function BlockedRegionMessage(country: string): string {
    BlockedRegionPrefix + country + BlockedRegionSuffix
  }

  /** Where the handler is when the reputation call would be made. */
  datatype Step = Respond(response: Response) | AwaitReputation(ip: string)

  /** Lines 85-99: no IP denies; a blocked country denies; otherwise the reputation
      of the IP is needed. */
  function Screen(additionalHeaders: Option<seq<Header>>,
                  geoCountry: string -> Option<string>): (s: Step)
    ensures s.Respond? ==>
              s.response.status == 200 && s.response.body.Json? &&
              s.response.body.actionStatus == Failed &&
              s.response.body.failureReason == Some(AccessDenied)
    ensures s.AwaitReputation? ==> GetClientIp(additionalHeaders) == Some(s.ip)
  {
    match GetClientIp(additionalHeaders)
    case None => Respond(DenyResponse(NoIpMessage))
    case Some(ip) =>
      var country := LookupCountry(geoCountry, ip);
      if country in BlockedCountries then Respond(DenyResponse(BlockedRegionMessage(country)))
      else AwaitReputation(ip)
  }

  /** Lines 101-131: grade the settled reputation. */
  function Decide(reputation: Reputation, hour: UtcHour): (r: Response)
    ensures r.status == 200 && r.body.Json? && WellShaped(r)
    ensures r.body.actionStatus == Failed <==>
              reputation.LookupFailure? || reputation.score > HighRiskAbove
    ensures r.body.operations.Some? <==>
              reputation.Score? && LowRiskBelow <= reputation.score <= HighRiskAbove
  {
    match reputation
    case LookupFailure => DenyResponse(ReputationErrorMessage)
    case Score(s) =>
      if s > HighRiskAbove then DenyResponse(HighRiskMessage)
      else if s < LowRiskBelow then AllowResponse()
      else ShortenedExpiryResponse(hour)
  }

  /** The whole hook. `abuseIpDb` is what the reputation request for an IP ends with,
      `hour` the UTC hour read after it. */
  function HandleTokenRequest(additionalHeaders: Option<seq<Header>>,
                              geoCountry: string -> Option<string>,
                              abuseIpDb: string -> ReputationReply,
                              hour: UtcHour): Response
  {
    match Screen(additionalHeaders, geoCountry)
    case Respond(r) => r
    case AwaitReputation(ip) => Decide(AbuseScore(abuseIpDb(ip)), hour)
  }

  // ---------------------------------------------------------------------------
  // Properties
  // ---------------------------------------------------------------------------

  /** Without an IP the hook denies before any lookup, whatever the reputation. */
  lemma NoClientIpDenies(additionalHeaders: Option<seq<Header>>,
                         geoCountry: string -> Option<string>,
                         abuseIpDb: string -> ReputationReply, hour: UtcHour)
    requires GetClientIp(additionalHeaders).None?
    ensures Screen(additionalHeaders, geoCountry) == Respond(DenyResponse(NoIpMessage))
    ensures HandleTokenRequest(additionalHeaders, geoCountry, abuseIpDb, hour)
              == FailedResponse(200, "access_denied", "Unable to determine client IP.")
  {
  }

  /** A nameless entry before the client-IP header makes extraction fail, so the hook
      denies. */
  lemma NamelessEntryDenies(hs: seq<Header>, i: int,
                            geoCountry: string -> Option<string>,
                            abuseIpDb: string -> ReputationReply, hour: UtcHour)
    requires NamelessAt(hs, i)
    ensures HandleTokenRequest(Some(hs), geoCountry, abuseIpDb, hour) == DenyResponse(NoIpMessage)
  {
    GetClientIpSpec(hs);
  }

  /** A country on the block list is denied, with the country in the description, and
      the reputation is never asked for. */
  lemma BlockedCountryDenies(additionalHeaders: Option<seq<Header>>,
                             geoCountry: string -> Option<string>,
                             abuseIpDb: string -> ReputationReply, hour: UtcHour)
    requires GetClientIp(additionalHeaders).Some?
    requires LookupCountry(geoCountry, GetClientIp(additionalHeaders).value) in BlockedCountries
    ensures Screen(additionalHeaders, geoCountry).Respond?
    ensures var country := LookupCountry(geoCountry, GetClientIp(additionalHeaders).value);
            var r := HandleTokenRequest(additionalHeaders, geoCountry, abuseIpDb, hour);
            r.body.Json? && r.body.actionStatus == Failed &&
            r.body.failureReason == Some(AccessDenied) &&
            r.body.failureDescription.Some? &&
            var d := r.body.failureDescription.value;
            |BlockedRegionPrefix| + |country| <= |d| &&
            d[|BlockedRegionPrefix|..|BlockedRegionPrefix| + |country|] == country
  {
  }

  /** The reputation is asked for exactly when there is an IP whose country is not
      blocked; a geo miss therefore goes on to the reputation check. */
  lemma ReputationNeededIff(additionalHeaders: Option<seq<Header>>,
                            geoCountry: string -> Option<string>)
    ensures Screen(additionalHeaders, geoCountry).AwaitReputation? <==>
              GetClientIp(additionalHeaders).Some? &&
              LookupCountry(geoCountry, GetClientIp(additionalHeaders).value) !in BlockedCountries
    ensures Screen(additionalHeaders, geoCountry).AwaitReputation? ==>
              GetClientIp(additionalHeaders) == Some(Screen(additionalHeaders, geoCountry).ip)
    ensures GetClientIp(additionalHeaders).Some? &&
            geoCountry(GetClientIp(additionalHeaders).value).None? ==>
              Screen(additionalHeaders, geoCountry) == AwaitReputation(GetClientIp(additionalHeaders).value)
  {
  }

  /** A failed reputation lookup denies, whatever the country was. */
  lemma ReputationFailureDenies(reply: ReputationReply, hour: UtcHour)
    requires !reply.Parsed?
    ensures Decide(AbuseScore(reply), hour)
              == FailedResponse(200, "access_denied", "Error checking IP reputation.")
  {
  }

  /** A parsed body without a score counts as score 0 and is allowed. */
  lemma MissingScoreAllows(hour: UtcHour)
    ensures Decide(AbuseScore(Parsed(None)), hour) == Response(200, Json(Success, None, None, None))
  {
  }

  /** The three score bands; 25 and 75 both lie in the grey zone. */
  lemma ScoreBands(s: int, hour: UtcHour)
    ensures s > 75 ==>
              Decide(Score(s), hour) == FailedResponse(200, "access_denied", HighRiskMessage)
    ensures s < 25 ==> Decide(Score(s), hour) == Response(200, Json(Success, None, None, None))
    ensures 25 <= s <= 75 ==>
              Decide(Score(s), hour).body.Json? &&
              Decide(Score(s), hour).body.actionStatus == Success &&
              Decide(Score(s), hour).body.operations.Some? &&
              |Decide(Score(s), hour).body.operations.value| == 1
  {
  }

  /** In the grey zone the only operation replaces `expires_in` with "900" in working
      hours and with "300" otherwise. */
  lemma GreyZoneOperation(s: int, hour: UtcHour)
    requires 25 <= s <= 75
    ensures var r := Decide(Score(s), hour);
            r.body.Json? && r.body.operations.Some? && |r.body.operations.value| == 1 &&
            var op := r.body.operations.value[0];
            op.op == "replace" && op.path == "/accessToken/claims/expires_in" &&
            (op.value == "900" <==> 9 <= hour < 17) &&
            (op.value == "300" <==> !(9 <= hour < 17))
  {
    ExpiryValueSpec(hour);
  }

  /** Every answer of the hook is sent with status 200 in one of the three JSON shapes,
      and every denial uses "access_denied". */
  lemma HandleTokenRequestShape(additionalHeaders: Option<seq<Header>>,
                                geoCountry: string -> Option<string>,
                                abuseIpDb: string -> ReputationReply, hour: UtcHour)
    ensures var r := HandleTokenRequest(additionalHeaders, geoCountry, abuseIpDb, hour);
            r.status == 200 && r.body.Json? && WellShaped(r) &&
            (r.body.actionStatus == Failed ==> r.body.failureReason == Some(AccessDenied))
  {
  }

  /** Worked examples: score 10 allows plainly; score 50 at 10:00 UTC shortens the
      expiry to 900 seconds and at 22:00 UTC to 300 seconds; the boundary scores. */
  lemma DecisionExamples()
    ensures Decide(Score(10), 10) == Response(200, Json(Success, None, None, None))
    ensures Decide(Score(50), 10) ==
              Response(200, Json(Success, None, None,
                                 Some([Operation("replace", "/accessToken/claims/expires_in", "900")])))
    ensures Decide(Score(50), 22) ==
              Response(200, Json(Success, None, None,
                                 Some([Operation("replace", "/accessToken/claims/expires_in", "300")])))
    ensures Decide(Score(75), 10).body.operations.Some?
    ensures Decide(Score(25), 10).body.operations.Some?
    ensures Decide(Score(76), 10) == DenyResponse(HighRiskMessage)
    ensures Decide(Score(24), 10) == AllowResponse()
  {
    ExpiryValueSpec(10);
    ExpiryValueSpec(22);
  }
}
