/**
 * What the three handlers share: the entries of `event.request.additionalHeaders`,
 * the header name they look for, JavaScript truthiness of strings, and the
 * action-response bodies they send back.
 */
module Webhook {
  import opened Wrappers

  /** One entry `{name, value: [string, ...]}` of `additionalHeaders`.
      `name` is None when the entry has no name; `values` (the `value` field)
      is None when the entry has no value list. */
  datatype Header = Header(name: Option<string>, values: Option<seq<string>>)

  /** The header both IP extractors look for, compared after lower-casing. */
  const ClientIpHeader: string := "x-client-source-ip"

  /** `toLowerCase` on one character; only `A`-`Z` change. */
  function LowerChar(c: char): char {
    if 'A' <= c <= 'Z' then (c as int + 32) as char else c
  }

  /** `s.toLowerCase()`. */
  function Lower(s: string): string {
    seq(|s|, i requires 0 <= i < |s| => LowerChar(s[i]))
  }

  /** `name.toLowerCase() === "x-client-source-ip"`. */
  predicate IsClientIpHeaderName(name: string) {
    Lower(name) == ClientIpHeader
  }

  /** The header name matches whatever the case of its letters. */
  lemma ClientIpHeaderNameIgnoresCase()
    ensures IsClientIpHeaderName("X-Client-Source-IP")
    ensures IsClientIpHeaderName("x-client-source-ip")
    ensures !IsClientIpHeaderName("x-client-ip")
  {
  }

  /** JavaScript truthiness of a value that is a string or absent. */
  predicate Truthy(v: Option<string>) {
    v.Some? && v.value != ""
  }

  /** `entry?.value?.[0]`, kept only when it is truthy. */
  function FirstTruthyValue(h: Header): (r: Option<string>)
    ensures Truthy(r) == r.Some?
    ensures r.Some? <==> h.values.Some? && |h.values.value| > 0 && h.values.value[0] != ""
    ensures r.Some? ==> r.value == h.values.value[0]
  {
    match h.values
    case None => None
    case Some(vs) => if |vs| > 0 && vs[0] != "" then Some(vs[0]) else None
  }

  // ---------------------------------------------------------------------------
  // Responses
  // ---------------------------------------------------------------------------

  datatype ActionStatus = Success | Failed

  /** One entry of `operations`: `{op, path, value}`. */
  datatype Operation = Operation(op: string, path: string, value: string)

  /** A JSON action response (`res.json`) or a plain-text one (`res.send`).
      Absent JSON fields are None. */
  datatype Body =
    | Json(actionStatus: ActionStatus, failureReason: Option<string>,
           failureDescription: Option<string>, operations: Option<seq<Operation>>)
    | Text(text: string)

  /** The HTTP status (200 unless the handler sets another) and the body. */
  datatype Response = Response(status: int, body: Body)

  /** `{actionStatus: "FAILED", failureReason, failureDescription}`. */
  function FailedResponse(status: int, reason: string, description: string): Response {
    Response(status, Json(Failed, Some(reason), Some(description), None))
  }

  /** `{actionStatus: "SUCCESS"}`. */
  function SuccessResponse(status: int): Response {
    Response(status, Json(Success, None, None, None))
  }

  /** `res.status(405).send('Method Not Allowed')`. */
  const MethodNotAllowed: Response := Response(405, Text("Method Not Allowed"))

  /** The caller-facing shapes: FAILED carries a reason and a description and no
      operations; SUCCESS carries neither, and at most one operation. */
  predicate WellShaped(r: Response) {
    match r.body
    case Text(_) => true
    case Json(status, reason, description, operations) =>
      match status
      case Failed => reason.Some? && description.Some? && operations.None?
      case Success => reason.None? && description.None? &&
                      (operations.Some? ==> |operations.value| == 1)
  }
}
