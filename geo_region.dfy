/**
 * The geo-region check: a pre-issue hook that takes the client IP from the
 * `x-client-source-ip` header (a fixed placeholder address when there is none),
 * refuses when the IP stays unresolved, and refuses the countries of its list.
 *
 * The list is called `allowedCountries` in the handler, but membership in it DENIES;
 * the model keeps that behaviour.
 */
module GeoRegion {
  import opened Wrappers
  import opened Webhook

  /** The placeholder `clientIp` starts from; meeting it later means "unresolved". */
  const UnresolvedIp: string := "101.2.176.0"

  /** `allowedCountries`: country names whose requests are refused. */
  const ListedCountries: seq<string> := ["United States"]

  const RegionBlockedPrefix: string := "Access token issuance is blocked from your region: "

  const IpNotResolved: Response :=
    FailedResponse(200, "ip_not_resolved", "Unable to determine the IP.")

  /** `additionalHeaders` is None when the payload's value is not an array. */
  datatype GeoRequest = GeoRequest(httpMethod: string, additionalHeaders: Option<seq<Header>>)

  // ---------------------------------------------------------------------------
  // Client-IP extraction
  // ---------------------------------------------------------------------------

  /** `header.name?.toLowerCase() === 'x-client-source-ip'`: a nameless entry does not match. */
  predicate NamesClientIp(h: Header) {
    h.name.Some? && IsClientIpHeaderName(h.name.value)
  }

  /** `additionalHeaders.find(...)` with that callback, which never throws. */
  function FindClientIpEntry(hs: seq<Header>): Option<Header> {
    if hs == [] then None
    else if NamesClientIp(hs[0]) then Some(hs[0])
    else FindClientIpEntry(hs[1..])
  }

  /** Entry `i` is the first one named as the client-IP header. */
  ghost predicate FirstEntryAt(hs: seq<Header>, i: int) {
    0 <= i < |hs| && NamesClientIp(hs[i]) && forall j :: 0 <= j < i ==> !NamesClientIp(hs[j])
  }

  /** The search returns the first entry named as the client-IP header, skipping
      nameless entries, and finds nothing when no entry is so named. */
  lemma {:induction false} FindClientIpEntrySpec(hs: seq<Header>)
    ensures forall i :: FirstEntryAt(hs, i) ==> FindClientIpEntry(hs) == Some(hs[i])
    ensures FindClientIpEntry(hs).None? <==> forall j :: 0 <= j < |hs| ==> !NamesClientIp(hs[j])
    ensures FindClientIpEntry(hs).Some? ==>
              exists i :: FirstEntryAt(hs, i) && FindClientIpEntry(hs) == Some(hs[i])
  {
    if hs != [] && !NamesClientIp(hs[0]) {
      var tl := hs[1..];
      FindClientIpEntrySpec(tl);
      forall i | FirstEntryAt(hs, i) ensures FirstEntryAt(tl, i - 1) {
        assert i != 0;
      }
      if FindClientIpEntry(hs).Some? {
        var k :| FirstEntryAt(tl, k) && FindClientIpEntry(tl) == Some(tl[k]);
        assert FirstEntryAt(hs, k + 1);
      }
      if forall j :: 0 <= j < |tl| ==> !NamesClientIp(tl[j]) {
        forall j | 0 < j < |hs| ensures !NamesClientIp(hs[j]) {
          assert hs[j] == tl[j - 1];
        }
      }
    } else if hs != [] {
      assert FirstEntryAt(hs, 0);
      forall i | 0 < i < |hs| ensures !FirstEntryAt(hs, i) {
        assert NamesClientIp(hs[0]);
      }
    }
  }

  /** The truthy first value of the first client-IP entry, if any. */
  function HeaderIp(additionalHeaders: Option<seq<Header>>): Option<string> {
    match additionalHeaders
    case None => None
    case Some(hs) =>
      match FindClientIpEntry(hs)
      case None => None
      case Some(entry) => FirstTruthyValue(entry)
  }

  /** The header IP is the truthy first value of the first entry named as the client-IP
      header; without such an entry, or without a list, there is none. */
  lemma HeaderIpSpec(hs: seq<Header>)
    ensures HeaderIp(None).None?
    ensures forall i :: FirstEntryAt(hs, i) ==> HeaderIp(Some(hs)) == FirstTruthyValue(hs[i])
    ensures (forall j :: 0 <= j < |hs| ==> !NamesClientIp(hs[j])) ==> HeaderIp(Some(hs)).None?
    ensures HeaderIp(Some(hs)).Some? <==>
              exists i :: FirstEntryAt(hs, i) && FirstTruthyValue(hs[i]).Some?
  {
    FindClientIpEntrySpec(hs);
  }

  /** Lines 10-19: start from the placeholder and replace it with the header's value
      when that value is truthy. */
  method ResolveClientIp(additionalHeaders: Option<seq<Header>>) returns (clientIp: string)
    ensures clientIp == UnresolvedIp || HeaderIp(additionalHeaders) == Some(clientIp)
    ensures HeaderIp(additionalHeaders).Some? ==> clientIp == HeaderIp(additionalHeaders).value
    ensures clientIp != ""
  {
    clientIp := UnresolvedIp;
    if additionalHeaders.Some? {
      var entry := FindClientIpEntry(additionalHeaders.value);
      if entry.Some? {
        var first := FirstTruthyValue(entry.value);
        if first.Some? {
          clientIp := first.value;
        }
      }
    }
  }

  /** No usable header IP, or the header carries the placeholder itself. */
  predicate Unresolved(additionalHeaders: Option<seq<Header>>) {
    HeaderIp(additionalHeaders).None? || HeaderIp(additionalHeaders) == Some(UnresolvedIp)
  }

  // ---------------------------------------------------------------------------
  // The handler
  // ---------------------------------------------------------------------------

  /** Lines 29-40: refuse a listed country name, accept anything else, including a
      lookup that finds no country. */
  function RegionDecision(countryName: Option<string>): (r: Response)
    ensures r.status == 200 && r.body.Json?
    ensures r.body.actionStatus == Failed <==> countryName.Some? && countryName.value in ListedCountries
    ensures r.body.actionStatus == Failed ==>
              r == FailedResponse(200, "geo_request", RegionBlockedPrefix + countryName.value)
    ensures r.body.actionStatus == Success ==> r == SuccessResponse(200)
  {
    if countryName.Some? && countryName.value in ListedCountries then
      FailedResponse(200, "geo_request", RegionBlockedPrefix + countryName.value)
    else SuccessResponse(200)
  }

  /** The handler. `geoName` stands for `geoip.lookup(ip)?.name`, None on a miss. */
  method ValidateGeoRegion(req: GeoRequest, geoName: string -> Option<string>) returns (resp: Response)
    ensures req.httpMethod != "POST" ==> resp == MethodNotAllowed
    ensures req.httpMethod == "POST" && Unresolved(req.additionalHeaders) ==> resp == IpNotResolved
    ensures req.httpMethod == "POST" && !Unresolved(req.additionalHeaders) ==>
              resp == RegionDecision(geoName(HeaderIp(req.additionalHeaders).value))
  {
    if req.httpMethod != "POST" {
      return MethodNotAllowed;
    }
    var clientIp := ResolveClientIp(req.additionalHeaders);
    if clientIp == UnresolvedIp {
      return IpNotResolved;
    }
    resp := RegionDecision(geoName(clientIp));
  }

  /** The placeholder counts as unresolved even when a header supplies it, and a list
      that is missing or not an array leaves the IP unresolved. */
  lemma PlaceholderIsUnresolved(rest: seq<Header>, name: string)
    requires IsClientIpHeaderName(name)
    ensures Unresolved(Some([Header(Some(name), Some([UnresolvedIp]))] + rest))
    ensures Unresolved(None)
  {
  }

  /** A nameless entry before the header is skipped rather than stopping the search. */
  lemma NamelessEntrySkipped(values: Option<seq<string>>, hs: seq<Header>)
    ensures HeaderIp(Some([Header(None, values)] + hs)) == HeaderIp(Some(hs))
  {
  }
}
