/**
 * The extension's background script: the authorization-header capture that fills the two-key
 * store (`apiUrl`, `apiHeaders`), the completed-request filter, the forwarding of runtime
 * messages and the toolbar click. Messages are results rather than calls into the browser.
 */
module Background {
  import opened Wrappers
  import opened Text

  /** One entry of `details.requestHeaders`. */
  datatype HttpHeader = HttpHeader(name: string, value: string)

  /** What a request listener is told about a request. */
  datatype RequestDetails = RequestDetails(url: string, requestHeaders: Option<seq<HttpHeader>>)

  /** The messages sent to a tab with `chrome.tabs.sendMessage`. */
  datatype TabMessage =
    | ApiRequestCompleted(url: string)      // { type: 'API_REQUEST_COMPLETED', url }
    | AuthHeader(authorization: string)     // { type: "AUTH_HEADER", authorization }

  /** A message addressed to a tab id. */
  datatype Delivery = Delivery(tabId: int, message: TabMessage)

  /** A runtime message: its `type`, a top-level `url`, and an optional `data` object with a `url`. */
  datatype RuntimeMessage = RuntimeMessage(msgType: string, url: Option<string>, data: Option<MessageData>)

  datatype MessageData = MessageData(url: Option<string>)

  /** `chrome.scripting.executeScript({ target: { tabId }, files })`. */
  datatype ScriptInjection = ScriptInjection(tabId: int, files: seq<string>)

  const AuthorizationName := "authorization"
  const ApiDomain := "api.zebihr.com"
  const ApiRequestCompletedType := "API_REQUEST_COMPLETED"
  const ContentTab := 123
  const AuthTab := 456

  // ---------------------------------------------------------------------------
  // The header lookup

  /** `header.name.toLowerCase() === "authorization"`. */
  predicate IsAuthorization(h: HttpHeader) {
    ToLower(h.name) == AuthorizationName
  }

  /** The upper-case partner of a lower-case ASCII letter. */
  function UpperChar(c: char): char {
    if 'a' <= c <= 'z' then (c as int - 'a' as int + 'A' as int) as char else c
  }

  /** The name matches exactly when it spells `authorization` in any mix of ASCII case. */
  lemma AuthorizationCaseInsensitive(name: string, value: string)
    ensures IsAuthorization(HttpHeader(name, value)) <==>
      |name| == |AuthorizationName| &&
      forall i :: 0 <= i < |name| ==> name[i] == AuthorizationName[i] || name[i] == UpperChar(AuthorizationName[i])
  {
    assert forall i :: 0 <= i < |AuthorizationName| ==> 'a' <= AuthorizationName[i] <= 'z';
    var lower := ToLower(name);
    if |name| == |AuthorizationName| && forall i :: 0 <= i < |name| ==> LowerChar(name[i]) == AuthorizationName[i] {
      assert lower == AuthorizationName;
    }
  }

  /** `Authorization`, as browsers usually send it, matches. */
  lemma MixedCaseMatches(value: string)
    ensures IsAuthorization(HttpHeader("Authorization", value))
  {
    var mixed := "Authorization";
    assert forall i :: 0 <= i < |mixed| ==> LowerChar(mixed[i]) == AuthorizationName[i];
    assert ToLower(mixed) == AuthorizationName;
  }

  /** Each letter of `AUTHORIZATION` lower-cases to the letter of `authorization` at its place. */
  lemma UpperCaseLetters()
    ensures forall i :: 0 <= i < 13 ==> LowerChar("AUTHORIZATION"[i]) == "authorization"[i]
  {
  }

  /** `AUTHORIZATION` matches too. */
  lemma UpperCaseMatches(value: string)
    ensures IsAuthorization(HttpHeader("AUTHORIZATION", value))
  {
    UpperCaseLetters();
    assert ToLower("AUTHORIZATION") == AuthorizationName;
  }

  /** A longer name that merely contains `Authorization` does not match. */
  lemma PrefixedNameIsNoMatch(value: string)
    ensures !IsAuthorization(HttpHeader("X-Authorization", value))
  {
    assert |ToLower("X-Authorization")| == 15;
  }

  /**
   * `requestHeaders.find(...)`: the first header, in list order, whose lower-cased name is
   * `authorization`; None when there is none.
   */
  function FindAuthorization(headers: seq<HttpHeader>): (r: Option<HttpHeader>)
    ensures r.None? <==> forall i :: 0 <= i < |headers| ==> !IsAuthorization(headers[i])
    ensures r.Some? ==> IsAuthorization(r.value)
    ensures r.Some? ==>
              exists i :: 0 <= i < |headers| && headers[i] == r.value &&
                          forall j :: 0 <= j < i ==> !IsAuthorization(headers[j])
  {
    if headers == [] then None
    else if IsAuthorization(headers[0]) then Some(headers[0])
    else
      var r := FindAuthorization(headers[1..]);
      assert forall i :: 0 < i < |headers| ==> headers[i] == headers[1..][i - 1];
      if r.Some? then
        var i :| 0 <= i < |headers| - 1 && headers[1..][i] == r.value &&
          forall j :: 0 <= j < i ==> !IsAuthorization(headers[1..][j]);
        assert headers[i + 1] == r.value;
        r
      else r
  }

  /** `details.requestHeaders?.find(...)`: an absent list finds nothing. */
  function CapturedHeader(details: RequestDetails): (r: Option<HttpHeader>)
    ensures details.requestHeaders.None? ==> r.None?
    ensures details.requestHeaders.Some? ==> r == FindAuthorization(details.requestHeaders.value)
  {
    if details.requestHeaders.None? then None else FindAuthorization(details.requestHeaders.value)
  }

  // ---------------------------------------------------------------------------
  // The store

  /**
   * `chrome.storage.local.set({ apiUrl, apiHeaders })`: both keys are overwritten and every other
   * key keeps its value.
   */
  function StoreCapture(items: map<string, string>, url: string, authorization: string): (r: map<string, string>)
    ensures "apiUrl" in r && r["apiUrl"] == url
    ensures "apiHeaders" in r && r["apiHeaders"] == authorization
    ensures r.Keys == items.Keys + {"apiUrl", "apiHeaders"}
    ensures forall k :: k in items && k != "apiUrl" && k != "apiHeaders" ==> r[k] == items[k]
  {
    items["apiUrl" := url]["apiHeaders" := authorization]
  }

  /** Latest write wins: a second capture overwrites everything the first one stored. */
  lemma LatestCaptureWins(items: map<string, string>, url1: string, auth1: string, url2: string, auth2: string)
    ensures StoreCapture(StoreCapture(items, url1, auth1), url2, auth2) == StoreCapture(items, url2, auth2)
  {
    var twice := StoreCapture(StoreCapture(items, url1, auth1), url2, auth2);
    var once := StoreCapture(items, url2, auth2);
    assert twice.Keys == once.Keys;
    assert forall k :: k in twice ==> twice[k] == once[k];
  }

  /** The extension's local storage, written by the header listener. */
  class LocalStore {
    var items: map<string, string>

    constructor ()
      ensures items == map[]
    {
      items := map[];
    }

    /**
     * The `onBeforeSendHeaders` listener: when an authorization header is found, the store takes
     * the request URL and the header value unchanged and an `AUTH_HEADER` message goes to tab 456;
     * otherwise the store is unchanged and nothing is sent.
     */
    method OnBeforeSendHeaders(details: RequestDetails) returns (sent: Option<Delivery>)
      modifies this
      ensures CapturedHeader(details).None? ==> items == old(items) && sent.None?
      ensures CapturedHeader(details).Some? ==>
        var authHeader := CapturedHeader(details).value;
        items == StoreCapture(old(items), details.url, authHeader.value) &&
        sent == Some(Delivery(AuthTab, AuthHeader(authHeader.value)))
    {
      var authHeader := CapturedHeader(details);
      if authHeader.Some? {
        items := items["apiUrl" := details.url]["apiHeaders" := authHeader.value.value];
        sent := Some(Delivery(AuthTab, AuthHeader(authHeader.value.value)));
      } else {
        sent := None;
      }
    }
  }

  // ---------------------------------------------------------------------------
  // Filters

  /**
   * The `onCompleted` listener: only a URL containing `api.zebihr.com` produces the
   * completed-request message to tab 123, and the message carries that URL.
   */
  function OnRequestCompleted(url: string): (r: Option<Delivery>)
    ensures r.Some? <==> exists i: nat :: OccursAt(url, ApiDomain, i)
    ensures r.Some? ==> r.value == Delivery(ContentTab, ApiRequestCompleted(url))
  {
    if Includes(url, ApiDomain) then Some(Delivery(ContentTab, ApiRequestCompleted(url))) else None
  }

  /**
   * The runtime-message listener AS WRITTEN: a message of type `API_REQUEST_COMPLETED` is
   * forwarded with `message.data.url`; when `data` is missing, reading `message.data.url`
   * throws and nothing is forwarded.
   */
  function ForwardAsWritten(m: RuntimeMessage): (r: Option<RuntimeMessage>)
    ensures r.Some? <==> m.msgType == ApiRequestCompletedType && m.data.Some?
    ensures r.Some? ==> r.value == RuntimeMessage(ApiRequestCompletedType, m.data.value.url, None)
  {
    if m.msgType == ApiRequestCompletedType then
      if m.data.None? then None
      else Some(RuntimeMessage(ApiRequestCompletedType, m.data.value.url, None))
    else None
  }

  /**
   * The runtime-message listener with the URL read from where senders put it: exactly the
   * messages of type `API_REQUEST_COMPLETED` are forwarded, with their own `url`.
   */
  function OnRuntimeMessage(m: RuntimeMessage): (r: Option<RuntimeMessage>)
    ensures r.Some? <==> m.msgType == ApiRequestCompletedType
    ensures r.Some? ==> r.value == RuntimeMessage(ApiRequestCompletedType, m.url, None)
  {
    if m.msgType == ApiRequestCompletedType then Some(RuntimeMessage(ApiRequestCompletedType, m.url, None)) else None
  }

  /** The message the content script sends after each fetch: type and URL at the top level. */
  function ContentScriptMessage(url: string): RuntimeMessage {
    RuntimeMessage(ApiRequestCompletedType, Some(url), None)
  }

  /**
   * The content script's messages are never forwarded by the listener as written, while the
   * corrected listener forwards each with its URL.
   */
  lemma ContentMessagesLost(url: string)
    ensures ForwardAsWritten(ContentScriptMessage(url)) == None
    ensures OnRuntimeMessage(ContentScriptMessage(url)) == Some(RuntimeMessage(ApiRequestCompletedType, Some(url), None))
  {
  }

  /** The toolbar click: a tab without an id gets nothing; otherwise `content.js` is injected into it. */
  function OnActionClicked(tabId: Option<int>): (r: Option<ScriptInjection>)
    ensures r.None? <==> tabId.None?
    ensures r.Some? ==> r.value == ScriptInjection(tabId.value, ["content.js"])
  {
    if tabId.None? then None else Some(ScriptInjection(tabId.value, ["content.js"]))
  }
}
