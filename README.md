# Identity-provider action hooks, modelled in Dafny

The repository has three synchronous webhook handlers that an identity provider calls
mid-flow. Each reads a JSON payload, runs a short chain of early-return checks and
answers with an action response: `{actionStatus: "SUCCESS"}`, a SUCCESS with
`operations`, or `{actionStatus: "FAILED", failureReason, failureDescription}`.

- `api/validate-token-policy.js` is a risk-based token decision. It takes the client IP
  from the `x-client-source-ip` header and denies requests from a fixed list of
  countries. It then grades the IP's AbuseIPDB score: above 75 it denies, below 25 it
  allows, and in between it allows but shortens the token's `expires_in` claim. The
  new expiry is 900 s during 09:00–17:00 UTC and 300 s otherwise.
- `api/validate-user-profile-update.js` is a profile-update validator. It checks the
  HTTP method, the API key, the action type and the department claim, in that order.
  It then mails a security alert listing the sensitive claims being changed.
- `api/validate-geo-region.js` is a geo-region check. The client IP starts as a fixed
  placeholder address. If it is still the placeholder after reading the headers, the
  request is refused. Otherwise the request is refused when the country name is on the
  handler's list.

Files:

- `wrappers.dfy`: `Option`, for values that may be `undefined`/`null`.
- `webhook.dfy`: the shared types. It holds the header entries, the header name and
  its lower-case comparison, string truthiness, and the response datatype
  `Response(status, Json(actionStatus, failureReason?, failureDescription?, operations?) | Text(..))`.
- `token_policy.dfy`: pure functions and lemmas. The handler's one `await` splits it in
  two. `Screen` is the part before the reputation call: it either answers or returns
  `AwaitReputation(ip)`. `Decide` is the part after the call. `HandleTokenRequest`
  runs both. This split lets the model say that, on some paths, the reputation call is
  never made.
- `profile_update.dfy`: `GetClaimValue` is a function. `CollectChanges` is a method
  that builds the list of changes push by push. `ValidateProfileUpdate` is a method
  holding the gate chain.
- `geo_region.dfy`: `ResolveClientIp` is a method: the IP starts at the placeholder and
  is reassigned only when a header supplies a value. `ValidateGeoRegion` is a method
  holding the handler.

Inputs the handlers get from outside become parameters:

- The `geoip-country` lookups become `geoCountry` and `geoName`, each of type
  `string -> Option<string>`.
- The settled AbuseIPDB request becomes `abuseIpDb: string -> ReputationReply`.
  `ReputationReply` is a transport error, an unparsable body, or a parsed body whose
  score may be missing.
- The UTC hour becomes `hour`.
- `process.env.API_KEY` becomes `configuredKey`. It is None when the variable is unset,
  and then no key is accepted.
- The outcome of `sendMail` becomes `delivery`.

Behaviour of the source worth knowing, which the model keeps:

- Every denial of the token hook uses `failureReason: "access_denied"`
  (api/validate-token-policy.js:72), including the one for a missing IP.
- The token hook never checks the HTTP status of the AbuseIPDB reply
  (api/validate-token-policy.js:42-53). So an error reply whose JSON body has no
  `data.abuseConfidenceScore` is read as score 0 and allowed (line 48). In the model
  this is the `Parsed(None)` case.
- The geo-region list is named `allowedCountries` (api/validate-geo-region.js:9), but
  its members are denied (lines 32-38).

## Model

| member | source | states |
|---|---|---|
| Webhook.FirstTruthyValue | api/validate-token-policy.js:19 | an IP is taken from a header entry only when the entry has a value list whose first element is a non-empty string; the result is that element |
| Webhook.IsClientIpHeaderName | api/validate-token-policy.js:18 | the lower-cased name comparison; ClientIpHeaderNameIgnoresCase states examples of it |
| Webhook.ClientIpHeaderNameIgnoresCase | api/validate-token-policy.js:18 | the header name is compared after lower-casing, so `X-Client-Source-IP` matches and `x-client-ip` does not |
| TokenPolicy.FindClientIpHeader | api/validate-token-policy.js:18 | the `find` over the header list; its properties are stated by FindClientIpHeaderSpec and FindClientIpHeaderStops |
| TokenPolicy.FindClientIpHeaderSpec | api/validate-token-policy.js:18 | the header search returns the first entry named `x-client-source-ip`; it throws when a nameless entry comes first; it misses only when every entry has another name |
| TokenPolicy.FindClientIpHeaderStops | api/validate-token-policy.js:18 | once the search has hit or thrown, entries after that point never change its outcome |
| TokenPolicy.GetClientIp | api/validate-token-policy.js:15-24 | getClientIp; its properties are stated by GetClientIpSpec and GetClientIpIgnoresLaterHeaders |
| TokenPolicy.GetClientIpSpec | api/validate-token-policy.js:15-24 | the IP is the first value of the first matching header; a missing or empty value gives null, and so does a nameless entry before the match (the caught exception), or no match; an IP, when present, is non-empty; a list that is missing or not an array gives null |
| TokenPolicy.GetClientIpIgnoresLaterHeaders | api/validate-token-policy.js:17-19 | headers after the first match are not consulted, even when that match has no usable value |
| TokenPolicy.LookupCountry | api/validate-token-policy.js:26-29 | the country is the lookup's non-empty code, or "UNKNOWN" when the lookup misses or gives no code |
| TokenPolicy.UnknownCountryNotBlocked | api/validate-token-policy.js:8 | "UNKNOWN" is not on the block list, so a geo miss fails open |
| TokenPolicy.DecimalString | api/validate-token-policy.js:124 | `toString` of the expiry gives a non-empty string of decimal digits that denotes the number, with no leading zero unless the number is 0 |
| TokenPolicy.IsWorkingHours | api/validate-token-policy.js:64-67 | isWorkingHours with the hour as input; ExpiryValueSpec states what it decides |
| TokenPolicy.ExpiryValue | api/validate-token-policy.js:115 | the expiry chosen by the working-hours test, as a string; ExpiryValueSpec states it is "900" exactly in working hours and "300" otherwise |
| TokenPolicy.ExpiryValueSpec | api/validate-token-policy.js:12-13 | the expiry value is "900" exactly when 9 <= hour < 17 UTC, and "300" exactly otherwise |
| TokenPolicy.AbuseScore | api/validate-token-policy.js:46-51 | the reputation call fails exactly on a request error or an unparsable body; a parsed body without the score yields 0; otherwise it yields the score |
| TokenPolicy.DenyResponse | api/validate-token-policy.js:69-75 | denyResponse; HandleTokenRequestShape states that every denial has this shape with access_denied |
| TokenPolicy.AllowResponse | api/validate-token-policy.js:77-79 | allowResponse; ScoreBands and MissingScoreAllows state that it is exactly `{actionStatus: "SUCCESS"}` |
| TokenPolicy.ShortenedExpiryResponse | api/validate-token-policy.js:118-127 | the grey-zone response; GreyZoneOperation states its single operation |
| TokenPolicy.BlockedRegionMessage | api/validate-token-policy.js:98 | the blocked-region description; BlockedCountryDenies states that it contains the country code |
| TokenPolicy.Screen | api/validate-token-policy.js:85-99 | before the reputation call, every answer is a 200 FAILED access_denied; when it goes on to the call, it does so for the extracted IP |
| TokenPolicy.Decide | api/validate-token-policy.js:101-131 | after the call, the answer is a well-shaped 200 JSON; it is FAILED exactly on a lookup failure or a score above 75; it carries operations exactly for a score from 25 to 75 |
| TokenPolicy.HandleTokenRequest | api/validate-token-policy.js:82-132 | the exported handler as `Screen` then `Decide`; its precedence, bands and shapes are stated by NoClientIpDenies, BlockedCountryDenies, ReputationNeededIff, ReputationFailureDenies, ScoreBands and HandleTokenRequestShape |
| TokenPolicy.NoClientIpDenies | api/validate-token-policy.js:85-89 | with no IP, the hook answers FAILED / access_denied / "Unable to determine client IP." before any lookup, whatever the reputation |
| TokenPolicy.NamelessEntryDenies | api/validate-token-policy.js:18-23 | a nameless header entry before the client-IP header makes the hook deny for lack of an IP |
| TokenPolicy.BlockedCountryDenies | api/validate-token-policy.js:96-99 | a blocked country is denied with access_denied and a description that contains the country code; the hook answers without asking for the reputation |
| TokenPolicy.ReputationNeededIff | api/validate-token-policy.js:93-102 | the reputation is asked for, for the extracted IP, exactly when there is an IP and its country is not blocked; a geo miss always goes on to the reputation check |
| TokenPolicy.ReputationFailureDenies | api/validate-token-policy.js:128-131 | a request error or an unparsable reply denies with "Error checking IP reputation." |
| TokenPolicy.MissingScoreAllows | api/validate-token-policy.js:48 | a parsed reply without the score is read as score 0 and answered with exactly `{actionStatus: "SUCCESS"}` |
| TokenPolicy.ScoreBands | api/validate-token-policy.js:105-127 | a score above 75 denies for high IP risk; a score below 25 answers exactly `{actionStatus: "SUCCESS"}`; from 25 to 75 inclusive, the answer is SUCCESS with exactly one operation |
| TokenPolicy.GreyZoneOperation | api/validate-token-policy.js:115-127 | in the grey zone the single operation is `replace` on `/accessToken/claims/expires_in`; its value is "900" exactly in working hours and "300" exactly outside them |
| TokenPolicy.HandleTokenRequestShape | api/validate-token-policy.js:69-79 | every answer of the hook has status 200 and one of the three JSON shapes, and every denial carries access_denied |
| TokenPolicy.DecisionExamples | api/validate-token-policy.js:105-127 | score 10 allows plainly; score 50 gives "900" at 10:00 UTC and "300" at 22:00 UTC; 75 and 25 lie in the grey zone; 76 denies; 24 allows plainly |
| ProfileUpdate.GetClaimValue | api/validate-user-profile-update.js:19-22 | getClaimValue; its properties are stated by GetClaimValueSpec |
| ProfileUpdate.GetClaimValueSpec | api/validate-user-profile-update.js:19-22 | the claim value is that of the first claim with the uri, and null when no claim has the uri |
| ProfileUpdate.LineOf | api/validate-user-profile-update.js:67-69 | one claim's alert line, present only when the claim is truthy; SensitiveChangesOrder states the lines exactly |
| ProfileUpdate.Changes | api/validate-user-profile-update.js:66-69 | the list of changes over an ordered run of fields; ChangesAppend, ChangesEmptyIff and SensitiveChangesOrder state its properties |
| ProfileUpdate.ChangesAppend | api/validate-user-profile-update.js:66-69 | the list of changes keeps the order of the fields it is built from |
| ProfileUpdate.ChangesEmptyIff | api/validate-user-profile-update.js:66-71 | the list of changes is empty exactly when no field is truthy |
| ProfileUpdate.CollectChanges | api/validate-user-profile-update.js:66-69 | the pushes build exactly the lines of the truthy claims, in the order Department, Email, Phone |
| ProfileUpdate.SensitiveChanges | api/validate-user-profile-update.js:67-69 | the department, email and phone claims each add their own line, one after the other |
| ProfileUpdate.SensitiveChangesEmptyIff | api/validate-user-profile-update.js:71 | an alert is due exactly when one of the three claims is truthy |
| ProfileUpdate.SensitiveChangesOrder | api/validate-user-profile-update.js:66-69 | for all three claims: the list is "Department: d", then "Email: e", then "Phone: p", each present exactly when that claim is truthy |
| ProfileUpdate.UserLabel | api/validate-user-profile-update.js:50 | the user named in the alert; SecurityAlertText states that a missing or empty id becomes "Unknown User" |
| ProfileUpdate.JoinLines | api/validate-user-profile-update.js:77 | `changes.join("\n")`; SecurityAlertText states its results on zero, one and two lines, and JoinLinesSnoc on any number |
| ProfileUpdate.JoinLinesSnoc | api/validate-user-profile-update.js:77 | for any non-empty list of lines, appending a line adds exactly one newline and that line to the joined text |
| ProfileUpdate.SecurityAlertText | api/validate-user-profile-update.js:50-77 | a missing or empty user id becomes "Unknown User", a present one is kept; zero, one and two changes join to "", the line itself, and the two lines around one newline |
| ProfileUpdate.SecurityAlert | api/validate-user-profile-update.js:73-78 | the alert message with its fixed sender, recipient and subject; ValidateProfileUpdate states when it is sent and with which changes |
| ProfileUpdate.KeyAccepted | api/validate-user-profile-update.js:30-31 | the key check; ValidateProfileUpdate states that a missing, empty or different key gets 401 |
| ProfileUpdate.DepartmentRejected | api/validate-user-profile-update.js:57 | the department check; ValidateProfileUpdate states that only a present department outside the known four is refused |
| ProfileUpdate.ValidateProfileUpdate | api/validate-user-profile-update.js:24-90 | a non-POST request gets 405 first; next, a missing or wrong API key gets 401 unauthorized; next, a wrong actionType gets invalid_input; next, a present department that is not a known one gets invalid_department_input; an alert naming the user and the changes is sent exactly when every gate passed and the list of changes is non-empty; a failed send gives email_error; otherwise the answer is 200 SUCCESS, also when nothing changed |
| GeoRegion.FindClientIpEntry | api/validate-geo-region.js:13-15 | the `find` over the header list; its properties are stated by FindClientIpEntrySpec and NamelessEntrySkipped |
| GeoRegion.FindClientIpEntrySpec | api/validate-geo-region.js:13-15 | the search returns the first entry named `x-client-source-ip` (case-insensitively); nameless entries are skipped, and it finds nothing when no entry is so named |
| GeoRegion.HeaderIp | api/validate-geo-region.js:12-18 | the IP a header supplies, if any; its properties are stated by HeaderIpSpec |
| GeoRegion.HeaderIpSpec | api/validate-geo-region.js:12-18 | the header supplies an IP only when the list is an array and the first matching entry's first value is truthy; that value is the IP |
| GeoRegion.ResolveClientIp | api/validate-geo-region.js:10-19 | the IP is the header's value when it supplies one, and otherwise stays the placeholder '101.2.176.0' |
| GeoRegion.RegionDecision | api/validate-geo-region.js:29-40 | the answer is FAILED exactly when the country name is on the list, with geo_request and the name in the description; any other name, or none, gives exactly `{actionStatus: 'SUCCESS'}` |
| GeoRegion.ValidateGeoRegion | api/validate-geo-region.js:3-41 | a non-POST request gets 405 first; an IP that stays the placeholder, or is set to it, gets ip_not_resolved; otherwise the country name of the IP decides |
| GeoRegion.Unresolved | api/validate-geo-region.js:21 | the placeholder test; PlaceholderIsUnresolved and ValidateGeoRegion state its cases |
| GeoRegion.PlaceholderIsUnresolved | api/validate-geo-region.js:21-27 | a header that supplies the placeholder address, or a missing or non-array header list, leaves the IP unresolved |
| GeoRegion.NamelessEntrySkipped | api/validate-geo-region.js:14 | a nameless entry before the client-IP header does not change the IP found |

## Left out

- The HTTPS request to AbuseIPDB is left out: the URL and headers, the `data`/`end`
  events, `JSON.parse`, and the IP placed in the URL without encoding
  (api/validate-token-policy.js:31-62). The model receives how the request ended.
- The `geoip-country` database is a foreign library. Its lookups are parameters.
- `nodemailer` (the transport and `sendMail`) is network I/O. The model builds the
  alert message and receives the delivery outcome.
- `dotenv` and the `process.env` reads are configuration. They become parameters.
- The clock (`new Date().getUTCHours()`) becomes the `hour` parameter.
- Logging, the marshalling of `res.json`/`res.status`/`res.send`, and `module.exports`
  are left out. The response is a datatype instead.
- The `app.listen` call at the end of the token file refers to an undefined `app`. It
  is server plumbing and not part of this model.
- Async/await is left out. Each handler has one suspension point. The token hook's
  suspension point is modelled as the split between `Screen` and `Decide`.
- Lower-casing changes only `A`–`Z`. The only non-ASCII characters whose lower case
  contains ASCII letters are U+0130, which lower-cases to `i` plus a combining dot, and
  U+212A, which lower-cases to `k`. Neither can turn a name into `x-client-source-ip`.
- Payload values of unexpected JSON types are not modelled. Entries, names, values, keys
  and claims are objects, strings and lists as the payload format describes. The
  source's behaviour on other types varies by handler:
  - A header or claim entry that is `null` makes the token hook's `find` throw, and it
    denies for lack of an IP. In the other two handlers the exception is not caught.
  - A non-string header name makes `toLowerCase` fail. The token hook catches that; the
    geo hook does not.
  - A header `value` that is a string rather than a list makes `value[0]` its first
    character (api/validate-token-policy.js:19, api/validate-geo-region.js:16-17). Both
    hooks then go on with a one-character IP.
  - A non-string claim value, for example a number, is tested for truthiness and
    membership and written into the alert as it prints
    (api/validate-user-profile-update.js:57-69).
  - A score that is not an integer is not modelled. For example, a non-numeric string
    fails both `> 75` and `< 25` (api/validate-token-policy.js:105, 110) and lands in
    the grey zone.
  - A claims value that is not a list, or a request without a body, is not modelled.
- The request to AbuseIPDB has no timeout, and errors on the response stream are not
  handled (api/validate-token-policy.js:41-61). A request that never settles leaves the
  hook without an answer. The model assumes every request ends in a `ReputationReply`.
- The `userId` default `"Unknown User"` is modelled only as part of the alert text.
