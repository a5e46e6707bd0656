# ZebiHR break-timing extension, modelled in Dafny

The extension has two parts. A background script watches the requests the ZebiHR web app
sends. It keeps the request URL and its `Authorization` header value in a two-key store
(`apiUrl`, `apiHeaders`). A popup reads those two values. From the URL it takes the employee
id, then requests the day's break time and work hours from `api.zebihr.com`. It shows the
break hours, the total work hours and the net work hours, which is work minus break clamped
at zero. It also shows a comment line.

The model has six modules:

- `Wrappers`: the `Option` type. It stands for JavaScript's `undefined` and for "no match".
- `Text`: the string operations the code relies on, on `seq<char>`. These are `split` on one
  character, `Number` and `String` on decimal digit runs, `includes` and ASCII `toLowerCase`.
- `WorkTime`: `subtractTimes` with its inner `timeToSeconds` and `formatTime`, and
  `getFunnyWorkHourComment`.
- `Popup`: the employee-id pattern `employee/(\d+)/`, the two request URLs, and the component
  state. The state is the class `App`, whose fields are `breakHours`, `workHours`, `authHeader`,
  `apiUrl` and `isLoading`. Its methods are the mount effect, `fetchWorkHours`, the refresh
  click, the two response handlers and the `finally`.
- `Background`: the case-insensitive header lookup and the store. The store is the class
  `LocalStore`, and its `OnBeforeSendHeaders` writes it in place. This module also holds the
  completed-request filter, the runtime-message forwarding and the toolbar click. Every message
  the script would send is a result value.
- `Extension`: the two parts together. A header captured by the background script is the one
  the popup later sends, and the popup's own requests pass the background script's filter.

`fetchWorkHours` is asynchronous, so the model splits it into steps:

- `FetchWorkHours` sets loading, extracts the id and returns the two requests it would issue.
- `OnBreakTimeData` and `OnWorkHoursData` are the two `.then` callbacks. Each response body is
  an input value.
- `OnSettled` is the `finally`.

Times are modelled as strings of three `:`-separated runs of decimal digits, on which
JavaScript's `Number` gives the decimal value of each run. `Number` accepts more than that
(an empty segment, surrounding spaces, a sign, `0x`, an exponent, a fraction); those
spellings lie outside the model, see "## Left out".

## Model

| member | source | states |
|---|---|---|
| WorkTime.SubtractTimes | src/App.tsx:86-110 | The result is a well-formed time. It denotes exactly max(0, seconds(time1) - seconds(time2)), which is never more than seconds(time1). |
| WorkTime.TimeToSeconds | src/App.tsx:87-90 | `timeToSeconds`, also at src/App.tsx:116-119. The time is split on `:` and the segments are weighted 3600, 60 and 1. Its meaning is fixed by FormatTimeRoundTrip and CanonicalIff. |
| WorkTime.PadStart2 | src/App.tsx:105 | `padStart(2, "0")`: a string of two or more characters is unchanged, and a shorter one gets `0`s in front up to length two. ParsePadStart2 proves that a padded digit run denotes the same number. |
| WorkTime.Field | src/App.tsx:105 | `String(unit).padStart(2, "0")`. Its properties are in FieldValue. |
| WorkTime.FormatTime | src/App.tsx:101-106 | `formatTime`: whole hours, then the minutes and seconds of the remainder, each field padded and joined by `:`. Its properties are in FormatTimeFields and FormatTimeRoundTrip. |
| WorkTime.FormatTimeFields | src/App.tsx:101-106 | `formatTime(n)` has three `:`-separated fields of at least two digits each. The hours field is n / 3600 and unbounded. Minutes and seconds are below 60. The three fields recompose n. |
| WorkTime.RecomposeUnits | src/App.tsx:102-104 | The hours, minutes and seconds `formatTime` computes recompose n, and minutes and seconds are below 60. |
| WorkTime.FormatTimeRoundTrip | src/App.tsx:87-90 | For every n >= 0, `timeToSeconds(formatTime(n)) == n`. |
| WorkTime.FieldValue | src/App.tsx:105 | `String(unit).padStart(2, "0")` is a run of at least two digits with no `:`, and it denotes the unit. |
| WorkTime.JoinThree | src/App.tsx:88-89 | Three digit runs joined by `:` split back into the same three runs. The joined time's seconds are h * 3600 + m * 60 + s. |
| WorkTime.CanonicalIff | src/App.tsx:86-110 | A well-formed time is canonical exactly when `formatTime(timeToSeconds(t)) == t`. Canonical means minutes and seconds below 60 and every field spelled as `formatTime` spells it. Both directions are proved. |
| WorkTime.FormatTimeIsCanonical | src/App.tsx:101-106 | Every output of `formatTime` is canonical. |
| WorkTime.SubtractZeroBreak | src/App.tsx:93-99 | Subtracting "00:00:00" from a canonical time gives that time back. |
| WorkTime.LongBreakClampsToZero | src/App.tsx:96-99 | When the break is at least as long as the worked time, the result is "00:00:00". |
| WorkTime.FormatUnits | src/App.tsx:101-105 | For m, s < 60, `formatTime(h * 3600 + m * 60 + s)` is the padded h, m and s joined by `:`. |
| WorkTime.NormalisesMinutes | src/App.tsx:86-110 | A non-canonical input is normalised: `subtractTimes("00:90:00", "00:00:00") == "01:30:00"`. |
| WorkTime.ExampleHalfHourBreak | src/App.tsx:86-110 | `subtractTimes("09:00:00", "00:30:00") == "08:30:00"`. |
| WorkTime.ExampleOneHourBreak | src/App.tsx:86-110 | `subtractTimes("10:00:00", "01:00:00") == "09:00:00"`. |
| WorkTime.CommentFor | src/App.tsx:124-165 | The comment is non-empty exactly when workSeconds < maxSeconds. When non-empty it is the picked element of the fixed pool of 34 comments. |
| WorkTime.FunnyWorkHourComment | src/App.tsx:112-166 | The comment is non-empty exactly when seconds(workHours) < seconds(subtractTimes(workHours, breakHours)), and then it is the picked pool entry. |
| WorkTime.CommentNeverShown | src/App.tsx:113-124 | For well-formed slots the net never exceeds the worked time, so the comment is always "". |
| Popup.DigitRunLength | src/App.tsx:15 | The greedy `\d+` run from index j covers only digits and stops at a non-digit or at the end. |
| Popup.MatchesAt | src/App.tsx:15 | The pattern `employee/(\d+)/` matches at index i: `employee/`, a greedy non-empty digit run, then `/`. Its properties are in CaptureAt, LeftmostMatch and EmployeeIdAt. |
| Popup.CaptureAt | src/App.tsx:15-21 | At a match, the capture group is a non-empty digit run d, and `employee/` + d + `/` stands at the match index. |
| Popup.LeftmostMatch | src/App.tsx:15 | The result is the first index at or after `from` where the pattern matches. No match means no index matches. |
| Popup.EmployeeId | src/App.tsx:15-21 | None exactly when the pattern matches nowhere. Otherwise the result is the non-empty digit capture of the leftmost match: no index before it matches. |
| Popup.BaseUrl | src/App.tsx:23 | `baseUrl`: `https://api.zebihr.com/customer/238/employee/` followed by the id. EmployeeIdOfBaseUrl proves that the id is recovered from it. |
| Popup.WorkHoursUrl | src/App.tsx:38 | `workHoursUrl`: the base URL plus `/today-work-hrs`. WorkHoursUrlNamesEmployee proves that it names its employee. |
| Popup.BreakTimeQuery | src/App.tsx:30-35 | The `URLSearchParams` string, in insertion order: `employeeId`, `startDate`, `endDate`, and `isEmployee=true`. |
| Popup.BreakTimeUrl | src/App.tsx:37 | `breakTimeUrl`: the base URL, `/break-time?` and the query. BreakTimeUrlNamesEmployee proves that it names its employee. |
| Popup.RequestsFor | src/App.tsx:13-38 | No request exactly when the URL is undefined or has no match. Otherwise both request URLs name the extracted employee, and the requests carry the header unchanged. |
| Popup.EmployeeIdAt | src/App.tsx:15-21 | When `employee/<id>/` stands at i and nothing matches before i, the extracted id is `id`. |
| Popup.EmployeeIdOfBaseUrl | src/App.tsx:21-23 | From the base URL of a digit id followed by `/` and anything, extraction recovers that id. |
| Popup.WorkHoursUrlNamesEmployee | src/App.tsx:23-38 | The work-hours URL `https://api.zebihr.com/customer/238/employee/<id>/today-work-hrs` yields its own id back. |
| Popup.BreakTimeUrlNamesEmployee | src/App.tsx:23-37 | The break-time URL with its query yields its own id back. |
| Popup.FirstOccurrenceWins | src/App.tsx:15 | With two occurrences of `employee/<digits>/`, the leftmost one's digits are taken. |
| Popup.NonDigitOccurrenceSkipped | src/App.tsx:15 | An occurrence whose digit run is not followed by `/` is skipped in favour of a later one. |
| Popup.EmptyIdIsNoMatch | src/App.tsx:15-19 | `employee//` with no digits is no match, so the fetch aborts. |
| Popup.SlotAfter | src/App.tsx:45-52 | A slot takes the response's field only when the field is truthy (present and non-empty). Otherwise it keeps its old value. |
| Popup.SlotText | src/App.tsx:182-190 | The line shows "Loading" while loading, otherwise the slot, or "No hours available" for an empty slot. |
| Popup.App.constructor | src/App.tsx:6-10 | The initial state: empty slots, empty header and URL, not loading. |
| Popup.App.FetchWorkHours | src/App.tsx:13-38 | Loading is set. If the URL is undefined or has no `employee/<digits>/`, no request is sent and loading stays set. Otherwise the break-time and work-hours requests for the extracted id are sent with the header. The requests sent are exactly `RequestsFor` of the URL, the header and the day's bounds. |
| Popup.App.OnMount | src/App.tsx:65-72 | The stored `apiHeaders` and `apiUrl` become the header and URL, with absent keys as undefined. Then a fetch runs with them. |
| Popup.App.Refresh | src/App.tsx:173 | While loading, a click sends nothing and changes no state. Otherwise it fetches with the stored URL and header. |
| Popup.App.OnBreakTimeData | src/App.tsx:43-46 | `breakHours` changes only when `data[0].breakHrs` is truthy, and then to that value. |
| Popup.App.OnWorkHoursData | src/App.tsx:50-53 | `workHours` changes only when `data.workHrs` is truthy, and then to that value. |
| Popup.App.OnSettled | src/App.tsx:55-60 | Loading is cleared whether the requests succeeded or failed. |
| Popup.App.BreakHoursText | src/App.tsx:182 | "Loading" while loading, otherwise `breakHours`, or "No hours available" when it is empty. |
| Popup.App.WorkHoursText | src/App.tsx:190 | "Loading" while loading, otherwise `workHours`, or "No hours available" when it is empty. |
| Popup.App.NetWorkHoursText | src/App.tsx:198 | While loading the line shows "Loading". Otherwise, when a slot is still empty, it shows "NaN:NaN:NaN". With two well-formed slots it shows a well-formed time, never "No hours available", whose seconds are the clamped difference of the slots. |
| Popup.App.CommentText | src/App.tsx:203 | The comment line is "Loading" exactly while loading. Otherwise, for slots that are empty or well formed, it is empty. |
| Background.IsAuthorization | src/background.ts:48 | The `find` predicate: the lower-cased header name equals `authorization`. AuthorizationCaseInsensitive gives both directions. |
| Background.AuthorizationCaseInsensitive | src/background.ts:48 | A header name matches exactly when it spells `authorization` with each letter in either ASCII case. |
| Background.MixedCaseMatches | src/background.ts:48 | A header named "Authorization" matches. |
| Background.UpperCaseMatches | src/background.ts:48 | A header named "AUTHORIZATION" matches. |
| Background.PrefixedNameIsNoMatch | src/background.ts:48 | A header named "X-Authorization" does not match: the whole name is compared, not a substring. |
| Background.FindAuthorization | src/background.ts:48 | None exactly when no header matches. Otherwise the result is a matching header, and no header before it matches (the first in list order). |
| Background.CapturedHeader | src/background.ts:48 | An absent header list finds nothing. A present one is searched. |
| Background.StoreCapture | src/background.ts:52-55 | `apiUrl` and `apiHeaders` take the URL and the header value. The keys are the old keys plus these two, and every other key keeps its value. |
| Background.LatestCaptureWins | src/background.ts:52-55 | A second capture overwrites everything a first one stored. |
| Background.LocalStore.constructor | src/background.ts:52-55 | The extension's storage starts empty, so a popup mounted before any capture finds neither key. |
| Background.LocalStore.OnBeforeSendHeaders | src/background.ts:44-68 | Without a matching header the store is unchanged and nothing is sent. With one, the store takes the request URL and the header value unchanged, and `AUTH_HEADER` with that value goes to tab 456. |
| Background.OnRequestCompleted | src/background.ts:2-20 | A message is produced exactly when the URL contains `api.zebihr.com`. It is `API_REQUEST_COMPLETED` with that URL, to tab 123. |
| Background.ForwardAsWritten | src/background.ts:23-33 | As written: a message is forwarded exactly when its type is `API_REQUEST_COMPLETED` and it has a `data` object. The payload carries `message.data.url`. |
| Background.OnRuntimeMessage | src/background.ts:25-31 | Corrected: exactly the messages of type `API_REQUEST_COMPLETED` are forwarded, with their top-level `url`. |
| Background.ContentMessagesLost | src/content.ts:10-17 | The content script's messages are never forwarded as written. The corrected listener forwards each with its URL. |
| Background.OnActionClicked | src/background.ts:36-42 | A tab without an id gets nothing. Otherwise `content.js` is injected into that tab. |
| Extension.BaseUrlIsApiRequest | src/background.ts:4 | Every URL built on the popup's base URL (src/App.tsx:23) contains `api.zebihr.com` and passes the completed-request filter. |
| Extension.PopupRequestsAreApiRequests | src/background.ts:4 | Both request URLs the popup builds (src/App.tsx:37-38) pass the `api.zebihr.com` filter. |
| Extension.CaptureUpperCaseHeader | src/background.ts:44-60 | A fresh store that sees a request with header `AUTHORIZATION: t` sends `AUTH_HEADER t` to tab 456 and then holds exactly `apiUrl` = the request URL and `apiHeaders` = t. |
| Extension.MountOnCapture | src/App.tsx:65-72 | A popup mounted on a store holding a base URL of employee e and a token sends both of e's requests with that token. |
| Extension.CaptureThenMount | src/background.ts:44-68 | A request for employee e with header `AUTHORIZATION: t`, captured into a fresh store, sends `AUTH_HEADER t` to tab 456. A popup mounted on that store (src/App.tsx:65-72) then sends both of e's requests with header value t. |
| Extension.MountOnEmptyStore | src/App.tsx:65-72 | With nothing captured, the mount sends no request and the popup stays loading. |
| Text.ParseNat | src/App.tsx:88 | `Number` on a run of decimal digits, read most significant digit first. ParseNatToString and ParseLeadingZero give its properties. |
| Text.NatToString | src/App.tsx:105 | `String(n)` for n >= 0 is a non-empty digit run, of at least two digits from 10 on. ParseNatToString proves that `Number` reads it back as n. |
| Text.Split | src/App.tsx:88 | `split(":")`: never an empty array. SplitJoin and JoinSplit relate it to Join. |
| Text.Join | src/App.tsx:105 | `join(":")`: the parts with the separator between neighbours. SplitJoin and JoinSplit relate it to Split. |
| Text.ParseNatToString | src/App.tsx:105 | `Number(String(n)) == n` for n >= 0. |
| Text.ParseLeadingZero | src/App.tsx:88 | A leading zero does not change what `Number` gives for a digit run. |
| Text.SplitJoin | src/App.tsx:88 | Splitting a join of separator-free parts gives the parts back. |
| Text.JoinSplit | src/App.tsx:88 | Joining what was split gives the string back. |
| Text.Includes | src/background.ts:4 | `s.includes(p)` holds exactly when p occurs in s at some index. |
| Text.ToLower | src/background.ts:48 | The result has the same length, and each character is the ASCII lower case of the one at its place. |

## Left out

- `src/content.ts` is not part of this model. It patches `window.fetch`, registers a
  `PerformanceObserver` and dumps `localStorage`, which is browser I/O. Only the shape of the
  message it sends is used, by `Background.ContentScriptMessage`, to show the finding below.
- The Chrome platform calls (`chrome.storage`, `chrome.webRequest`, `chrome.tabs.sendMessage`,
  `chrome.runtime.sendMessage`, `chrome.scripting.executeScript`) are not modelled. The store
  is a `map`, the stored values reach the popup as `OnMount`'s parameter, and messages and
  injections are return values. The listeners' URL patterns are not modelled either.
- `fetch`, `response.json()` and `Promise.all` are not modelled. Each response body is an input
  value of the handlers. How the two responses and the `finally` are ordered is up to the
  caller of the model's methods. They may be called in any order, for example `OnSettled`
  before `OnWorkHoursData`, as happens when the other request rejects first. The model allows
  such an order but proves nothing about the state it leaves.
- `Popup.App.FetchWorkHours`: returns the requests instead of issuing them. A URL that is
  `undefined` makes `url.match` throw. The model treats that like a failed match, since the
  observable effect is the same: loading stays set and nothing is sent. The thrown error itself
  is not modelled.
- `getTodayTimestamps` reads the local clock and timezone. Start and end of the day are integer
  parameters of the URL builder.
- `Math.random`: the comment picked is the `pick` parameter, which may be any index of the pool.
- `WorkTime.SubtractTimes` and `WorkTime.FunnyWorkHourComment` require well-formed times: exactly three non-empty runs of decimal digits. Other strings are
  outside the model, whatever the source makes of them. Some still give numbers in the source:
  `Number("")` is 0, so `"08::30"` counts as 8 hours and 30 seconds. `Number` also reads
  `" 7"`, `"+7"`, `"0x1A"`, `"1e1"` and `"7.0"` as numbers. Others give `NaN`: a time with fewer
  than three segments (a missing segment is `undefined`) or with non-numeric text.
- `Popup.App.NetWorkHoursText` and `Popup.App.CommentText` require, when not loading, that each
  slot is empty or well formed. The empty slot the popup starts with is modelled: `""` splits
  into one segment, so the source computes `NaN` seconds, shows `NaN:NaN:NaN` on the net line
  and picks no comment. Other malformed slot strings are outside the model.
- Integers are unbounded. The source uses IEEE doubles, which lose precision above 2^53
  seconds. That range is not modelled.
- `toLowerCase` is modelled on ASCII letters only. Other Unicode case mappings are left out.
- `URLSearchParams` encoding: every value in the query is digits, a minus sign or letters, which
  encoding leaves unchanged. General percent-encoding is not modelled.
- Response fields that are not strings, such as a number in `breakHrs`, are not modelled.
  Headers always carry a string value.
- React and MUI rendering and all `console` logging are left out, including the "wait" log of a
  refresh while loading.
- There is no end-of-day clock-out projection and no duration parse-error path in the code. The
  model follows the code: no projection, and no `MalformedInput` rejection, only the
  well-formedness precondition above.

## Findings

| source | as written | input that shows it | evidently intended | confidence | as-written member | corrected member |
|---|---|---|---|---|---|---|
| src/background.ts:26-30 | The forwarding listener reads `message.data.url`. The content script (src/content.ts:10-17) puts `url` at the top level and sends no `data`, so the read throws and nothing is forwarded. | `{ type: "API_REQUEST_COMPLETED", url: "https://api.zebihr.com/x" }` | Forward `{ type: "API_REQUEST_COMPLETED", url: message.url }` | not executed | Background.ForwardAsWritten, Background.ContentMessagesLost | Background.OnRuntimeMessage |
