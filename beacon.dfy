/** Delivery of a hit: the `sendBeacon` polyfill picks the first transport
    the environment offers (the beacon API, then `XMLHttpRequest`, then
    `fetch`) and turns a thrown exception into `false`. The browser's
    transports are not modelled; what they do and whether they throw are
    inputs. */
module Beacon {
  import opened Base
  import Text

  /** The body of a request: `XMLHttpRequestBodyInit | null | undefined`. */
  datatype Body = StringBody(text: string) | BlobBody(mimeType: string) | OtherBody | NoBody

  /** JavaScript truthiness of a body: only the empty string and a missing
      body are falsy. */
  predicate TruthyBody(b: Body) {
    match b
    case StringBody(s) => s != ""
    case BlobBody(_) => true
    case OtherBody => true
    case NoBody => false
  }

  /** A call that returns a boolean, or one that throws. */
  datatype Outcome = Returned(value: bool) | Threw

  /** The event types whose hits are sent synchronously. */
  const SyncEvents: set<string> := {"unload", "beforeunload", "pagehide"}

  /** `syncEvents.has((eventType || '').toLowerCase())`. */
  function IsSyncEvent(eventType: Option<string>): (r: bool)
    ensures r <==> eventType.Some? && Text.ToLower(eventType.value) in SyncEvents
    ensures eventType.None? ==> !r
  {
    Text.ToLower(eventType.GetOr("")) in SyncEvents
  }

  /** Lower-casing twice is lower-casing once. */
  lemma ToLowerIdempotent(s: string)
    ensures Text.ToLower(Text.ToLower(s)) == Text.ToLower(s)
  {
  }

  /** The sync rule ignores letter case. */
  lemma IsSyncEventIgnoresCase(s: string)
    ensures IsSyncEvent(Some(s)) == IsSyncEvent(Some(Text.ToLower(s)))
  {
    ToLowerIdempotent(s);
  }

  /** Event types that agree up to letter case get the same mode. */
  lemma IsSyncEventSameLetters(s: string, t: string)
    requires Text.ToLower(s) == Text.ToLower(t)
    ensures IsSyncEvent(Some(s)) == IsSyncEvent(Some(t))
  {
  }

  /** The unload-class events are synchronous in any letter case; a click,
      and a call with no event at all, are not. */
  lemma SyncEventCases()
    ensures IsSyncEvent(Some("unload")) && IsSyncEvent(Some("BeforeUnload")) && IsSyncEvent(Some("pagehide"))
    ensures !IsSyncEvent(Some("click")) && !IsSyncEvent(None)
  {
    assert Text.ToLower("unload") == "unload";
    assert Text.ToLower("BeforeUnload") == "beforeunload";
    assert Text.ToLower("pagehide") == "pagehide";
    assert Text.ToLower("click") == "click";
  }

  /** The `Content-Type` header for a body: plain UTF-8 text for a string,
      the Blob's own type for a typed Blob, none otherwise. */
  function ContentType(data: Body): (r: Option<string>)
    ensures data.StringBody? ==> r == Some("text/plain;charset=UTF-8")
    ensures data.BlobBody? && data.mimeType != "" ==> r == Some(data.mimeType)
    ensures r.Some? <==> data.StringBody? || (data.BlobBody? && data.mimeType != "")
  {
    match data
    case StringBody(_) => Some("text/plain;charset=UTF-8")
    case BlobBody(t) => if t != "" then Some(t) else None
    case _ => None
  }

  /** The headers `sendBeaconXHR` sets, in order. */
  function XhrHeaders(data: Body): (r: seq<(string, string)>)
    ensures |r| >= 1 && r[0] == ("Accept", "*/*")
    ensures |r| == 2 <==> ContentType(data).Some?
    ensures |r| == 2 ==> r[1] == ("Content-Type", ContentType(data).value)
    ensures |r| <= 2
  {
    var ct := ContentType(data);
    [("Accept", "*/*")] + (if ct.Some? then [("Content-Type", ct.value)] else [])
  }

  /** An `XMLHttpRequest` as the polyfill configures it. */
  class XhrRequest {
    var isOpen: bool
    var httpMethod: string
    var url: string
    var async: bool
    var withCredentials: bool
    var headers: seq<(string, string)>
    var responseType: string
    var sent: Option<Body>

    constructor ()
      ensures !isOpen && !withCredentials && headers == [] && responseType == "" && sent == None
    {
      isOpen := false;
      httpMethod := "";
      url := "";
      async := true;
      withCredentials := false;
      headers := [];
      responseType := "";
      sent := None;
    }

    method Open(verb: string, url: string, async: bool)
      modifies this
      ensures isOpen && this.httpMethod == verb && this.url == url && this.async == async
      ensures withCredentials == old(withCredentials) && headers == old(headers)
      ensures responseType == old(responseType) && sent == old(sent)
    {
      isOpen := true;
      this.httpMethod := verb;
      this.url := url;
      this.async := async;
    }

    method SetRequestHeader(name: string, value: string)
      modifies this
      ensures headers == old(headers) + [(name, value)]
      ensures isOpen == old(isOpen) && httpMethod == old(httpMethod) && url == old(url) && async == old(async)
      ensures withCredentials == old(withCredentials) && responseType == old(responseType) && sent == old(sent)
    {
      headers := headers + [(name, value)];
    }
  }

  /** Setting `responseType` on a synchronous request whose global object
      is a Window throws an `InvalidAccessError`, as the XMLHttpRequest
      Standard defines that setter. The polyfill sets it for a string body. */
  predicate ResponseTypeThrows(windowScope: bool, eventType: Option<string>, data: Body) {
    windowScope && IsSyncEvent(eventType) && data.StringBody?
  }

  /** `sendBeaconXHR(url, data)` called with a `this` whose
      `event.type` is `eventType` (`None`: no `this`, no event or no type),
      in a Window when `windowScope` holds. `open` throwing (an invalid URL)
      and the `responseType` assignment throwing are not caught; `send`
      throwing is, and gives `false`. */
  method SendBeaconXHR(eventType: Option<string>, url: string, data: Body, windowScope: bool, openThrows: bool, sendThrows: bool)
    returns (outcome: Outcome, xhr: XhrRequest)
    ensures fresh(xhr)
    ensures outcome == if openThrows || ResponseTypeThrows(windowScope, eventType, data) then Threw else Returned(!sendThrows)
    ensures !openThrows ==> xhr.isOpen && xhr.httpMethod == "POST" && xhr.url == url
    ensures !openThrows ==> (xhr.async <==> !IsSyncEvent(eventType))
    ensures !openThrows ==> xhr.withCredentials && xhr.headers == XhrHeaders(data)
    ensures !openThrows ==> (xhr.responseType == "text" <==> data.StringBody? && !ResponseTypeThrows(windowScope, eventType, data))
    ensures xhr.sent.Some? <==> outcome == Returned(true)
    ensures xhr.sent.Some? ==> xhr.sent == Some(data)
  {
    var sync := IsSyncEvent(eventType);
    xhr := new XhrRequest();
    if openThrows {
      return Threw, xhr;
    }
    xhr.Open("POST", url, !sync);
    xhr.withCredentials := true;
    xhr.SetRequestHeader("Accept", "*/*");
    match data {
      case StringBody(_) =>
        xhr.SetRequestHeader("Content-Type", "text/plain;charset=UTF-8");
        if windowScope && sync {
          return Threw, xhr;
        }
        xhr.responseType := "text";
      case BlobBody(t) =>
        if t != "" {
          xhr.SetRequestHeader("Content-Type", t);
        }
      case _ =>
    }
    if sendThrows {
      return Returned(false), xhr;
    }
    xhr.sent := Some(data);
    outcome := Returned(true);
  }

  /** The request `sendBeaconFetch` makes. */
  datatype FetchRequest = FetchRequest(url: string, httpMethod: string, body: Body, credentials: string, mode: string, keepalive: bool)

  /** `sendBeaconFetch(url, data)`: the request is dispatched and `true`
      returned unless `fetch` throws before returning its promise; a
      rejected promise is swallowed and does not change the answer. */
  function SendBeaconFetch(url: string, data: Body, fetchThrows: bool): (r: (bool, FetchRequest))
    ensures r.0 <==> !fetchThrows
    ensures r.1.httpMethod == "POST" && r.1.url == url && r.1.body == data
    ensures r.1.credentials == "include" && r.1.mode == "cors" && r.1.keepalive
  {
    (!fetchThrows, FetchRequest(url, "POST", data, "include", "cors", true))
  }

  /** Which transports the environment has: `navigator.sendBeacon` is a
      function, `XMLHttpRequest` is defined, `fetch` is defined. */
  datatype Capabilities = Capabilities(beaconApi: bool, xhr: bool, fetch: bool)

  datatype Tier = BeaconTier | XhrTier | FetchTier | NoTier

  /** The first available transport, in the order beacon, XHR, fetch. */
  function SelectTier(c: Capabilities): (t: Tier)
    ensures t == BeaconTier <==> c.beaconApi
    ensures t == XhrTier <==> !c.beaconApi && c.xhr
    ensures t == FetchTier <==> !c.beaconApi && !c.xhr && c.fetch
    ensures t == NoTier <==> !c.beaconApi && !c.xhr && !c.fetch
  {
    if c.beaconApi then BeaconTier
    else if c.xhr then XhrTier
    else if c.fetch then FetchTier
    else NoTier
  }

  /** How each transport behaves: what the beacon API answers, whether the
      XHR's `open` or `send` throws, whether `fetch` throws, and whether the
      global object is a Window rather than a worker. */
  datatype Transport = Transport(beaconResult: Outcome, openThrows: bool, sendThrows: bool, fetchThrows: bool, windowScope: bool)

  /** What `sendBeacon` handed to the transport it chose: the body is passed
      only when it is truthy, and `synchronous` is the XHR's mode. */
  datatype Dispatch = Dispatch(tier: Tier, body: Body, synchronous: bool)

  /** `sendBeacon(url, data)` as evidently intended: the XHR tier passes on
      the type of the event being handled, so a hit sent while the page
      unloads goes out synchronously. In a Window such a request with a
      string body throws when its `responseType` is set. */
  method SendBeaconForEvent(caps: Capabilities, url: string, data: Body, env: Transport, eventType: Option<string>)
    returns (outcome: Outcome, sent: Dispatch)
    ensures sent.tier == SelectTier(caps)
    ensures sent.body == if TruthyBody(data) then data else NoBody
    ensures sent.tier == BeaconTier ==> outcome == env.beaconResult
    ensures sent.tier == XhrTier ==>
              outcome == (if env.openThrows || ResponseTypeThrows(env.windowScope, eventType, sent.body) then Threw
                          else Returned(!env.sendThrows))
    ensures sent.tier == FetchTier ==> outcome == Returned(!env.fetchThrows)
    ensures sent.tier == NoTier ==> outcome == Returned(false)
    ensures sent.synchronous <==> sent.tier == XhrTier && !env.openThrows && IsSyncEvent(eventType)
  {
    var body := if TruthyBody(data) then data else NoBody;
    if caps.beaconApi {
      return env.beaconResult, Dispatch(BeaconTier, body, false);
    }
    if caps.xhr {
      var xhr;
      outcome, xhr := SendBeaconXHR(eventType, url, body, env.windowScope, env.openThrows, env.sendThrows);
      return outcome, Dispatch(XhrTier, body, !env.openThrows && !xhr.async);
    }
    if caps.fetch {
      var r := SendBeaconFetch(url, body, env.fetchThrows);
      return Returned(r.0), Dispatch(FetchTier, body, false);
    }
    outcome, sent := Returned(false), Dispatch(NoTier, body, false);
  }

  /** `sendBeacon(url, data)` as written. The XHR tier calls `sendBeaconXHR`
      as a plain function; module code is strict, so its `this` is
      `undefined`, `this?.event?.type` is `undefined`, and the XHR it opens
      is never synchronous, even while the page unloads. */
  method SendBeacon(caps: Capabilities, url: string, data: Body, env: Transport) returns (outcome: Outcome, sent: Dispatch)
    ensures sent.tier == SelectTier(caps)
    ensures sent.body == if TruthyBody(data) then data else NoBody
    ensures sent.tier == BeaconTier ==> outcome == env.beaconResult
    ensures sent.tier == XhrTier ==> outcome == (if env.openThrows then Threw else Returned(!env.sendThrows))
    ensures sent.tier == FetchTier ==> outcome == Returned(!env.fetchThrows)
    ensures sent.tier == NoTier ==> outcome == Returned(false)
    ensures !sent.synchronous
  {
    outcome, sent := SendBeaconForEvent(caps, url, data, env, None);
  }
}
