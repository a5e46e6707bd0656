/**
 * The background script and the popup together: the popup's own requests pass the
 * completed-request filter, and a header captured by the background script is what the popup
 * sends once it mounts.
 */
module Extension {
  import opened Wrappers
  import opened Text
  import opened Popup
  import opened Background

  /** Any URL built on the base URL contains `api.zebihr.com`, right after `https://`. */
  lemma BaseUrlIsApiRequest(empId: string, suffix: string)
    ensures OnRequestCompleted(BaseUrl(empId) + suffix).Some?
  {
    var url := BaseUrl(empId) + suffix;
    assert url == ApiHost + (Marker + empId + suffix);
    assert forall k :: 0 <= k < |ApiDomain| ==> url[8..22][k] == ApiHost[8 + k] == ApiDomain[k];
    assert OccursAt(url, ApiDomain, 8);
  }

  /** Both request URLs the popup builds pass the completed-request filter. */
  lemma PopupRequestsAreApiRequests(empId: string, startOfDay: int, endOfDay: int)
    ensures OnRequestCompleted(WorkHoursUrl(empId)).Some?
    ensures OnRequestCompleted(BreakTimeUrl(empId, startOfDay, endOfDay)).Some?
  {
    BaseUrlIsApiRequest(empId, "/today-work-hrs");
    var query := BreakTimeQuery(empId, startOfDay, endOfDay);
    BaseUrlIsApiRequest(empId, "/break-time?" + query);
    assert BreakTimeUrl(empId, startOfDay, endOfDay) == BaseUrl(empId) + ("/break-time?" + query);
  }

  /**
   * A request for employee `empId` carrying the header `AUTHORIZATION: token`, seen by a fresh
   * store: the token goes to the waiting tab and the store holds exactly the URL and the token.
   */
  method CaptureUpperCaseHeader(empId: string, rest: string, token: string)
    returns (notice: Option<Delivery>, stored: map<string, string>)
    ensures notice == Some(Delivery(AuthTab, AuthHeader(token)))
    ensures stored == map["apiUrl" := BaseUrl(empId) + rest, "apiHeaders" := token]
  {
    var store := new LocalStore();
    var details := RequestDetails(BaseUrl(empId) + rest, Some([HttpHeader("AUTHORIZATION", token)]));
    UpperCaseMatches(token);
    assert CapturedHeader(details) == Some(HttpHeader("AUTHORIZATION", token));
    notice := store.OnBeforeSendHeaders(details);
    stored := store.items;
  }

  /** A popup mounted on a store holding a request URL of employee `empId` and a token. */
  method MountOnCapture(stored: map<string, string>, empId: string, rest: string, token: string,
                        startOfDay: int, endOfDay: int)
    returns (sent: Option<Requests>)
    requires IsDigits(empId)
    requires |rest| > 0 && rest[0] == '/'
    requires "apiUrl" in stored && stored["apiUrl"] == BaseUrl(empId) + rest
    requires "apiHeaders" in stored && stored["apiHeaders"] == token
    ensures sent == Some(Requests(BreakTimeUrl(empId, startOfDay, endOfDay), WorkHoursUrl(empId), Some(token)))
  {
    var app := new App();
    EmployeeIdOfBaseUrl(empId, rest);
    sent := app.OnMount(stored, startOfDay, endOfDay);
  }

  /**
   * The capture and the popup together: the header value the background script captured is the
   * one the popup sends with both requests for the employee named in the captured URL.
   */
  method CaptureThenMount(empId: string, rest: string, token: string, startOfDay: int, endOfDay: int)
    returns (notice: Option<Delivery>, sent: Option<Requests>)
    requires IsDigits(empId)
    requires |rest| > 0 && rest[0] == '/'
    ensures notice == Some(Delivery(AuthTab, AuthHeader(token)))
    ensures sent == Some(Requests(BreakTimeUrl(empId, startOfDay, endOfDay), WorkHoursUrl(empId), Some(token)))
  {
    var stored;
    notice, stored := CaptureUpperCaseHeader(empId, rest, token);
    sent := MountOnCapture(stored, empId, rest, token, startOfDay, endOfDay);
  }

  /** A popup mounted before anything was captured sends nothing and stays loading. */
  method MountOnEmptyStore(startOfDay: int, endOfDay: int) returns (sent: Option<Requests>, loading: bool)
    ensures sent.None? && loading
  {
    var store := new LocalStore();
    var app := new App();
    sent := app.OnMount(store.items, startOfDay, endOfDay);
    loading := app.isLoading;
  }
}
