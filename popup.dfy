/**
 * The popup component: the employee id taken from the captured URL, the two request URLs
 * built from it, and the component state (`breakHours`, `workHours`, `authHeader`, `apiUrl`,
 * `isLoading`) that mounting, the refresh click and the two responses update.
 */
module Popup {
  import opened Wrappers
  import opened Text
  import opened WorkTime

  // ---------------------------------------------------------------------------
  // Employee id: `url.match(/employee\/(\d+)\//)`

  const Marker := "employee/"

  /** The number of consecutive decimal digits of `s` from index `j` on. */
  function DigitRunLength(s: string, j: nat): (k: nat)
    ensures j + k <= |s| || (j >= |s| && k == 0)
    ensures forall i :: j <= i < j + k ==> IsDigit(s[i])
    ensures j + k < |s| ==> !IsDigit(s[j + k])
    decreases |s| - j
  {
    if j < |s| && IsDigit(s[j]) then 1 + DigitRunLength(s, j + 1) else 0
  }

  /**
   * The pattern matches at index `i`: `employee/`, then at least one digit, and right after the
   * longest digit run a `/` (backtracking into the run cannot help, a shorter run is followed
   * by a digit).
   */
  predicate MatchesAt(s: string, i: nat) {
    OccursAt(s, Marker, i) &&
    var k := DigitRunLength(s, i + |Marker|);
    k > 0 && i + |Marker| + k < |s| && s[i + |Marker| + k] == '/'
  }

  /** The capture group `(\d+)` of a match at `i`. */
  function CaptureAt(s: string, i: nat): (id: string)
    requires MatchesAt(s, i)
    ensures IsDigits(id) && OccursAt(s, Marker + id + "/", i)
  {
    var start := i + |Marker|;
    var id := s[start..start + DigitRunLength(s, start)];
    assert s[i..i + |Marker + id + "/"|] == s[i..start] + id + "/";
    id
  }

  /** The leftmost index at or after `from` where the pattern matches. */
  function LeftmostMatch(s: string, from: nat): (r: Option<nat>)
    ensures r.Some? ==> from <= r.value && MatchesAt(s, r.value)
    ensures r.Some? ==> forall j :: from <= j < r.value ==> !MatchesAt(s, j)
    ensures r.None? ==> forall j :: from <= j ==> !MatchesAt(s, j)
    decreases |s| - from
  {
    if from + |Marker| > |s| then None
    else if MatchesAt(s, from) then Some(from)
    else LeftmostMatch(s, from + 1)
  }

  /**
   * `empIDMatch[1]`, or None when `url.match` finds nothing: the digits of the leftmost
   * `employee/<digits>/` in the URL.
   */
  function EmployeeId(url: string): (r: Option<string>)
    ensures r.None? <==> forall j :: !MatchesAt(url, j)
    ensures r.Some? ==> IsDigits(r.value) && exists i :: MatchesAt(url, i) && r.value == CaptureAt(url, i)
    ensures r.Some? ==>
      exists i: nat :: MatchesAt(url, i) && (forall j: nat :: j < i ==> !MatchesAt(url, j)) && r.value == CaptureAt(url, i)
  {
    match LeftmostMatch(url, 0)
    case None => None
    case Some(i) =>
      assert forall j: nat :: j < i ==> !MatchesAt(url, j);
      Some(CaptureAt(url, i))
  }

  // ---------------------------------------------------------------------------
  // The request URLs

  const ApiHost := "https://api.zebihr.com/customer/238/"

  /** `baseUrl`. */
  function BaseUrl(empId: string): string {
    ApiHost + Marker + empId
  }

  /** `workHoursUrl`. */
  function WorkHoursUrl(empId: string): string {
    BaseUrl(empId) + "/today-work-hrs"
  }

  /** `String(n)` / `n.toString()` for an integer, signed. */
  function IntToString(n: int): string {
    if n < 0 then "-" + NatToString(-n) else NatToString(n)
  }

  /**
   * The `URLSearchParams` string: every value is made of digits, a minus sign or letters,
   * none of which form encoding changes.
   */
  function BreakTimeQuery(empId: string, startOfDay: int, endOfDay: int): string {
    "employeeId=" + empId + "&startDate=" + IntToString(startOfDay) +
    "&endDate=" + IntToString(endOfDay) + "&isEmployee=true"
  }

  /** `breakTimeUrl`. */
  function BreakTimeUrl(empId: string, startOfDay: int, endOfDay: int): string {
    BaseUrl(empId) + "/break-time?" + BreakTimeQuery(empId, startOfDay, endOfDay)
  }

  /**
   * Where `piece` stands in `s` and no `e` of it is followed by an `m`, the pattern cannot
   * start at any index of `piece`.
   */
  lemma NoMarkerIn(s: string, lo: nat, piece: string)
    requires lo + |piece| <= |s| && s[lo..lo + |piece|] == piece
    requires forall k :: 0 <= k < |piece| && piece[k] == 'e' ==> k + 1 < |piece| && piece[k + 1] != 'm'
    ensures forall j :: lo <= j < lo + |piece| ==> !MatchesAt(s, j)
  {
    forall j | lo <= j < lo + |piece| ensures !OccursAt(s, Marker, j) {
      if j + |Marker| <= |s| {
        assert s[j..j + |Marker|][0] == s[j] == piece[j - lo];
        if piece[j - lo] == 'e' {
          assert s[j..j + |Marker|][1] == s[j + 1] == piece[j - lo + 1];
        }
      }
    }
  }

  /** A run of digits that is followed by a non-digit is the run `DigitRunLength` measures. */
  lemma {:induction false} DigitRunOf(s: string, j: nat, run: string)
    requires IsDigits(run) && j + |run| < |s| && s[j..j + |run|] == run && !IsDigit(s[j + |run|])
    ensures DigitRunLength(s, j) == |run|
    decreases |run|
  {
    assert s[j] == run[0];
    if |run| > 1 {
      assert s[j + 1..j + |run|] == run[1..];
      DigitRunOf(s, j + 1, run[1..]);
    }
  }

  /** The three pieces of `employee/<id>/` standing at `i`. */
  lemma OccurrencePieces(s: string, i: nat, id: string)
    requires OccursAt(s, Marker + id + "/", i)
    ensures OccursAt(s, Marker, i)
    ensures s[i + |Marker|..i + |Marker| + |id|] == id
    ensures s[i + |Marker| + |id|] == '/'
  {
    var at := i + |Marker|;
    var w := Marker + id + "/";
    assert forall k :: 0 <= k < |w| ==> s[i + k] == s[i..i + |w|][k] == w[k];
    assert s[i..at] == Marker by {
      assert forall k :: 0 <= k < |Marker| ==> s[i..at][k] == s[i + k] == w[k] == Marker[k];
    }
    assert s[at..at + |id|] == id by {
      assert forall k :: 0 <= k < |id| ==> s[at..at + |id|][k] == s[i + (|Marker| + k)] == w[|Marker| + k] == id[k];
    }
    assert s[at + |id|] == s[i + (|Marker| + |id|)] == w[|Marker| + |id|] == '/';
  }

  /** `employee/<id>/` standing at `i` with no match before it: the extracted id is `id`. */
  lemma EmployeeIdAt(s: string, i: nat, id: string)
    requires IsDigits(id) && OccursAt(s, Marker + id + "/", i)
    requires forall j :: 0 <= j < i ==> !MatchesAt(s, j)
    ensures MatchesAt(s, i) && EmployeeId(s) == Some(id)
  {
    OccurrencePieces(s, i, id);
    DigitRunOf(s, i + |Marker|, id);
    assert MatchesAt(s, i);
    var r := LeftmostMatch(s, 0);
    assert r.Some?;
    assert r.value == i;
    assert CaptureAt(s, i) == id;
  }

  /** Letters of `ApiHost`: no `e` in it is followed by an `m`. */
  lemma HostLetters()
    ensures forall k :: 0 <= k < |ApiHost| && ApiHost[k] == 'e' ==> k + 1 < |ApiHost| && ApiHost[k + 1] != 'm'
  {
  }

  /**
   * The employee id is recovered from any URL that starts with the base URL of a digit id
   * followed by `/`: both request URLs the popup builds are of this form.
   */
  lemma EmployeeIdOfBaseUrl(empId: string, rest: string)
    requires IsDigits(empId)
    requires |rest| > 0 && rest[0] == '/'
    ensures EmployeeId(BaseUrl(empId) + rest) == Some(empId)
  {
    var s := BaseUrl(empId) + rest;
    var w := Marker + empId + "/";
    var at := |ApiHost|;
    assert rest == "/" + rest[1..];
    assert s == ApiHost + w + rest[1..];
    assert s[..at] == ApiHost;
    assert s[at..at + |w|] == w;
    HostLetters();
    NoMarkerIn(s, 0, ApiHost);
    EmployeeIdAt(s, at, empId);
  }

  /** The work-hours URL names the employee it was built for. */
  lemma WorkHoursUrlNamesEmployee(empId: string)
    requires IsDigits(empId)
    ensures EmployeeId(WorkHoursUrl(empId)) == Some(empId)
  {
    EmployeeIdOfBaseUrl(empId, "/today-work-hrs");
  }

  /** The break-time URL names the employee it was built for. */
  lemma BreakTimeUrlNamesEmployee(empId: string, startOfDay: int, endOfDay: int)
    requires IsDigits(empId)
    ensures EmployeeId(BreakTimeUrl(empId, startOfDay, endOfDay)) == Some(empId)
  {
    var base, query := BaseUrl(empId), BreakTimeQuery(empId, startOfDay, endOfDay);
    var rest := "/break-time?" + query;
    assert rest[0] == '/';
    EmployeeIdOfBaseUrl(empId, rest);
    assert base + "/break-time?" + query == base + rest;
  }

  /** The web app's own host, used in the examples below. */
  const PortalHost := "https://app.zebihr.com/"

  /** Letters of `PortalHost`: no `e` in it is followed by an `m`. */
  lemma PortalHostLetters()
    ensures forall k :: 0 <= k < |PortalHost| && PortalHost[k] == 'e' ==> k + 1 < |PortalHost| && PortalHost[k + 1] != 'm'
  {
  }

  /** The leftmost occurrence wins. */
  lemma FirstOccurrenceWins()
    ensures EmployeeId(PortalHost + "employee/12/" + "employee/34/") == Some("12")
  {
    var s := PortalHost + (Marker + "12" + "/") + "employee/34/";
    assert s == PortalHost + "employee/12/" + "employee/34/";
    assert s[..|PortalHost|] == PortalHost;
    assert s[|PortalHost|..|PortalHost| + 12] == Marker + "12" + "/";
    PortalHostLetters();
    NoMarkerIn(s, 0, PortalHost);
    EmployeeIdAt(s, |PortalHost|, "12");
  }

  /** No match starts inside `employee/1a/`: its digit run ends at a letter, not at `/`. */
  lemma NoMatchInUnterminatedRun(s: string, n: nat)
    requires n + 12 <= |s| && s[n..n + 12] == "employee/1a/"
    ensures forall j :: n <= j < n + 12 ==> !MatchesAt(s, j)
  {
    var w := "employee/1a/";
    assert forall k :: 0 <= k < 12 ==> s[n + k] == s[n..n + 12][k] == w[k];
    assert s[n + 9] == '1' && s[n + 10] == 'a';
    assert s[n + 9..n + 10] == [s[n + 9]] == "1";
    DigitRunOf(s, n + 9, "1");
    assert !MatchesAt(s, n);
    var tail := "mployee/1a/";
    assert s[n + 1..n + 12] == tail by {
      assert forall k :: 0 <= k < |tail| ==> s[n + 1..n + 12][k] == tail[k];
    }
    NoMarkerIn(s, n + 1, tail);
  }

  /** An occurrence whose digit run is not followed by `/` is skipped. */
  lemma NonDigitOccurrenceSkipped()
    ensures EmployeeId(PortalHost + "employee/1a/" + "employee/34/") == Some("34")
  {
    var n := |PortalHost|;
    var s := PortalHost + "employee/1a/" + (Marker + "34" + "/");
    assert s == PortalHost + "employee/1a/" + "employee/34/";
    assert s[..n] == PortalHost;
    PortalHostLetters();
    NoMarkerIn(s, 0, PortalHost);
    assert s[n..n + 12] == "employee/1a/";
    NoMatchInUnterminatedRun(s, n);
    assert s[n + 12..n + 24] == Marker + "34" + "/";
    EmployeeIdAt(s, n + 12, "34");
  }

  /** No match starts inside a trailing `employee//profile`: the digit run there is empty. */
  lemma NoMatchInEmptyRun(s: string, n: nat)
    requires n + 17 == |s| && s[n..] == "employee//profile"
    ensures forall j :: n <= j ==> !MatchesAt(s, j)
  {
    assert s[n + 9] == s[n..][9] == '/';
    assert !MatchesAt(s, n);
    assert s[n + 1..n + 16] == s[n..][1..16] == "mployee//profil";
    NoMarkerIn(s, n + 1, "mployee//profil");
  }

  /** `employee/` followed directly by `/` is no match at all. */
  lemma EmptyIdIsNoMatch()
    ensures EmployeeId(PortalHost + "employee//profile") == None
  {
    var n := |PortalHost|;
    var s := PortalHost + "employee//profile";
    assert s[..n] == PortalHost;
    PortalHostLetters();
    NoMarkerIn(s, 0, PortalHost);
    assert s[n..] == "employee//profile";
    NoMatchInEmptyRun(s, n);
  }

  // ---------------------------------------------------------------------------
  // Component state

  /** What one refresh sends: the two GET requests, with the `Authorization` header value. */
  datatype Requests = Requests(breakTimeUrl: string, workHoursUrl: string, authorization: Option<string>)

  /** One element of the break-time response array; only its `breakHrs` field is read. */
  datatype BreakEntry = BreakEntry(breakHrs: Option<string>)

  /** The work-hours response object; only its `workHrs` field is read. */
  datatype WorkHoursBody = WorkHoursBody(workHrs: Option<string>)

  /** A string field is truthy in JavaScript when it is present and not empty. */
  predicate Truthy(field: Option<string>) {
    field.Some? && field.value != ""
  }

  /** The result slot after a response: the response's field when truthy, else the old slot. */
  function SlotAfter(oldSlot: string, field: Option<string>): (r: string)
    ensures Truthy(field) ==> r == field.value
    ensures !Truthy(field) ==> r == oldSlot
  {
    if Truthy(field) then field.value else oldSlot
  }

  const NoHours := "No hours available"

  /** A slot as the popup shows it: `isLoading ? "Loading" : slot || 'No hours available'`. */
  function SlotText(isLoading: bool, slot: string): (r: string)
    ensures isLoading ==> r == "Loading"
    ensures !isLoading && slot != "" ==> r == slot
    ensures !isLoading && slot == "" ==> r == NoHours
  {
    if isLoading then "Loading" else if slot != "" then slot else NoHours
  }

  /** The requests a fetch for this URL issues, or None when it aborts before any request. */
  function RequestsFor(url: Option<string>, header: Option<string>, startOfDay: int, endOfDay: int): (r: Option<Requests>)
    ensures r.None? <==> url.None? || EmployeeId(url.value).None?
    ensures r.Some? ==>
      var empId := EmployeeId(url.value).value;
      IsDigits(empId) && EmployeeId(r.value.workHoursUrl) == Some(empId) &&
      EmployeeId(r.value.breakTimeUrl) == Some(empId) && r.value.authorization == header
  {
    if url.None? then None
    else match EmployeeId(url.value)
      case None => None
      case Some(empId) =>
        WorkHoursUrlNamesEmployee(empId);
        BreakTimeUrlNamesEmployee(empId, startOfDay, endOfDay);
        Some(Requests(BreakTimeUrl(empId, startOfDay, endOfDay), WorkHoursUrl(empId), header))
  }

  /**
   * The slot values the display lines are modelled on: still empty (the initial value, kept when
   * no response carried a truthy field) or a well-formed time.
   */
  predicate SlotModelled(slot: string) {
    slot == "" || WellFormedTime(slot)
  }

  /** What `formatTime(NaN)` writes: `String(NaN)` is `NaN`, already three characters long. */
  const NaNTime := "NaN:NaN:NaN"

  class App {
    var breakHours: string
    var workHours: string
    var authHeader: Option<string>
    var apiUrl: Option<string>
    var isLoading: bool

    /** The `useState` initial values; `None` stands for JavaScript's `undefined`. */
    constructor ()
      ensures breakHours == "" && workHours == "" && authHeader == Some("") && apiUrl == Some("")
      ensures !isLoading
    {
      breakHours, workHours := "", "";
      authHeader, apiUrl := Some(""), Some("");
      isLoading := false;
    }

    /**
     * `fetchWorkHours` up to the point where the requests leave: loading is set first; when the
     * URL is missing (`undefined.match` throws) or has no `employee/<digits>/`, nothing else
     * happens and loading stays set; otherwise the two requests are returned. The result slots
     * are left to the response handlers below.
     */
    method FetchWorkHours(url: Option<string>, header: Option<string>, startOfDay: int, endOfDay: int)
      returns (sent: Option<Requests>)
      modifies this`isLoading
      ensures isLoading
      ensures sent.None? <==> url.None? || EmployeeId(url.value).None?
      ensures sent == RequestsFor(url, header, startOfDay, endOfDay)
    {
      isLoading := true;
      if url.None? {
        return None;
      }
      var empIdMatch := EmployeeId(url.value);
      if empIdMatch.None? {
        return None;
      }
      var empId := empIdMatch.value;
      sent := Some(Requests(BreakTimeUrl(empId, startOfDay, endOfDay), WorkHoursUrl(empId), header));
    }

    /**
     * The mount effect: the two stored values (absent keys read as `undefined`) become
     * `authHeader` and `apiUrl`, then a fetch runs with them.
     */
    method OnMount(stored: map<string, string>, startOfDay: int, endOfDay: int) returns (sent: Option<Requests>)
      modifies this`authHeader, this`apiUrl, this`isLoading
      ensures apiUrl == (if "apiUrl" in stored then Some(stored["apiUrl"]) else None)
      ensures authHeader == (if "apiHeaders" in stored then Some(stored["apiHeaders"]) else None)
      ensures isLoading
      ensures sent == RequestsFor(apiUrl, authHeader, startOfDay, endOfDay)
    {
      authHeader := if "apiHeaders" in stored then Some(stored["apiHeaders"]) else None;
      apiUrl := if "apiUrl" in stored then Some(stored["apiUrl"]) else None;
      sent := FetchWorkHours(apiUrl, authHeader, startOfDay, endOfDay);
    }

    /** The refresh icon: a fetch with the stored URL and header, ignored while loading. */
    method Refresh(startOfDay: int, endOfDay: int) returns (sent: Option<Requests>)
      modifies this`isLoading
      ensures old(isLoading) ==> sent.None? && isLoading
      ensures !old(isLoading) ==> isLoading && sent == RequestsFor(apiUrl, authHeader, startOfDay, endOfDay)
    {
      if !isLoading {
        sent := FetchWorkHours(apiUrl, authHeader, startOfDay, endOfDay);
      } else {
        sent := None;
      }
    }

    /** The break-time `.then`: `breakHours` takes `data[0].breakHrs` only when that is truthy. */
    method OnBreakTimeData(data: seq<BreakEntry>)
      modifies this`breakHours
      ensures breakHours == SlotAfter(old(breakHours), if |data| > 0 then data[0].breakHrs else None)
    {
      if |data| > 0 && Truthy(data[0].breakHrs) {
        breakHours := data[0].breakHrs.value;
      }
    }

    /** The work-hours `.then`: `workHours` takes `data.workHrs` only when that is truthy. */
    method OnWorkHoursData(data: Option<WorkHoursBody>)
      modifies this`workHours
      ensures workHours == SlotAfter(old(workHours), if data.Some? then data.value.workHrs else None)
    {
      if data.Some? && Truthy(data.value.workHrs) {
        workHours := data.value.workHrs.value;
      }
    }

    /** The `finally` of the two requests: loading ends whether they succeeded or failed. */
    method OnSettled()
      modifies this`isLoading
      ensures !isLoading
    {
      isLoading := false;
    }

    /** The "Break Hours" line. */
    function BreakHoursText(): (r: string)
      reads this
      ensures isLoading ==> r == "Loading"
      ensures !isLoading ==> r == (if breakHours != "" then breakHours else NoHours)
    {
      SlotText(isLoading, breakHours)
    }

    /** The "Total Work Hours" line. */
    function WorkHoursText(): (r: string)
      reads this
      ensures isLoading ==> r == "Loading"
      ensures !isLoading ==> r == (if workHours != "" then workHours else NoHours)
    {
      SlotText(isLoading, workHours)
    }

    /**
     * The "Net Work Hours" line: `subtractTimes` is only evaluated when not loading. An empty
     * slot has fewer than three segments, so its seconds are `NaN`; `NaN` is not below zero,
     * escapes the clamp, and `formatTime` spells each field as `NaN`.
     */
    function NetWorkHoursText(): (r: string)
      reads this
      requires isLoading || (SlotModelled(workHours) && SlotModelled(breakHours))
      ensures isLoading ==> r == "Loading"
      ensures !isLoading && (workHours == "" || breakHours == "") ==> r == NaNTime
      ensures !isLoading && workHours != "" && breakHours != "" ==> WellFormedTime(r) && r != NoHours
      ensures !isLoading && workHours != "" && breakHours != "" ==>
                TimeToSeconds(r) == if TimeToSeconds(workHours) >= TimeToSeconds(breakHours)
                                    then TimeToSeconds(workHours) - TimeToSeconds(breakHours) else 0
    {
      if isLoading then "Loading"
      else if workHours == "" || breakHours == "" then NaNTime
      else SlotText(false, SubtractTimes(workHours, breakHours))
    }

    /**
     * The comment line: `getFunnyWorkHourComment` is only evaluated when not loading. With an
     * empty slot one side of its comparison is `NaN`, and a comparison with `NaN` is false.
     */
    function CommentText(pick: nat): (r: string)
      reads this
      requires isLoading || (SlotModelled(workHours) && SlotModelled(breakHours))
      requires pick < |FunnyComments|
      ensures isLoading <==> r == "Loading"
      ensures !isLoading ==> r == ""
    {
      if isLoading then "Loading"
      else if workHours == "" || breakHours == "" then ""
      else FunnyWorkHourComment(workHours, breakHours, pick)
    }
  }
}
