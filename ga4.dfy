/** The GA4 collector: `track` builds a Measurement Protocol hit from the
    document, the visitor's identity and the event, hands it to the beacon
    API and binds the page listeners once; the listeners add the engagement
    time at unload and a single scroll event at 90 percent. */
module Ga4 {
  import opened Base
  import Text
  import Storage
  import Values
  import Utility
  import Args

  const AnalyticsEndpoint := "https://www.google-analytics.com/g/collect"

  /** The query names that mark a page of search results, in priority order. */
  const SearchTerms: seq<string> := ["q", "s", "search", "query", "keyword"]

  const PageView := "page_view"
  const ScrollEventName := "scroll"
  const ViewSearchResults := "view_search_results"
  const UserEngagement := "user_engagement"

  // The query parameter names of the hit.
  const ProtocolVersionKey := "v"
  const TrackingIdKey := "tid"
  const PageIdKey := "_p"
  const LanguageKey := "ul"
  const ClientIdKey := "cid"
  const FirstVisitKey := "_fv"
  const HitCountKey := "_s"
  const SessionIdKey := "sid"
  const SessionCountKey := "sct"
  const SessionEngagementKey := "seg"
  const SessionStartKey := "_ss"
  const DebugKey := "_dbg"
  const ReferrerKey := "dr"
  const LocationKey := "dl"
  const TitleKey := "dt"
  const EventNameKey := "en"
  const SearchTermKey := "ep.search_term"
  const PercentScrolledKey := "epn.percent_scrolled"
  const ScreenResolutionKey := "sr"
  const EngagementTimeKey := "_et"

  /** `{ type, event, debug }`; `eventType` is `None` when the key is absent. */
  datatype Props = Props(eventType: Option<string>, event: Option<Values.EventParams>, debug: bool)

  /** `{ type: 'page_view', ...props }`. */
  function WithDefaults(props: Option<Props>): (r: Props)
    ensures props.None? ==> r == Props(Some(PageView), None, false)
    ensures props.Some? ==> r.event == props.value.event && r.debug == props.value.debug
    ensures r.eventType == if props.Some? && props.value.eventType.Some? then props.value.eventType else Some(PageView)
  {
    if props.None? then Props(Some(PageView), None, false)
    else Props(if props.value.eventType.Some? then props.value.eventType else Some(PageView), props.value.event, props.value.debug)
  }

  /** A string starts with `c` then `x` exactly when its first character
      is `c` and `x` starts the rest. */
  lemma ConsPrefix(c: char, x: string, s: string)
    ensures [c] + x <= s <==> |s| >= 1 && s[0] == c && x <= s[1..]
  {
    if |s| >= 1 && s[0] == c && x <= s[1..] {
      assert s[..|x| + 1] == [c] + s[1..][..|x|];
    }
  }

  /** A separator character followed by `term=` occurs in the search
      string exactly when the pattern's text does. */
  lemma SeparatedTerm(search: string, term: string, c: char)
    ensures Text.Contains(search, [c] + (term + "=")) <==>
            exists i :: 0 <= i < |search| && search[i] == c && term + "=" <= search[i + 1..]
  {
    var w := [c] + (term + "=");
    Text.ContainsAt(search, w);
    if Text.Contains(search, w) {
      var j :| 0 <= j <= |search| && w <= search[j..];
      ConsPrefix(c, term + "=", search[j..]);
      assert search[j..][1..] == search[j + 1..];
    }
    if exists i :: 0 <= i < |search| && search[i] == c && term + "=" <= search[i + 1..] {
      var i :| 0 <= i < |search| && search[i] == c && term + "=" <= search[i + 1..];
      ConsPrefix(c, term + "=", search[i..]);
      assert search[i..][1..] == search[i + 1..];
    }
  }

  /** `new RegExp('[\?|&]term=').test(search)`: some character among `?`,
      `|` and `&` is followed by `term=`. */
  function HasSearchTerm(search: string, term: string): (r: bool)
    ensures r <==> Text.Contains(search, "?" + term + "=") || Text.Contains(search, "|" + term + "=")
                   || Text.Contains(search, "&" + term + "=")
  {
    SeparatedTerm(search, term, '?');
    SeparatedTerm(search, term, '|');
    SeparatedTerm(search, term, '&');
    assert "?" + term + "=" == ['?'] + (term + "=");
    assert "|" + term + "=" == ['|'] + (term + "=");
    assert "&" + term + "=" == ['&'] + (term + "=");
    exists i :: 0 <= i < |search| && search[i] in {'?', '|', '&'} && term + "=" <= search[i + 1..]
  }

  /** `searchTerms.some(...)`: the page is a search-results page. */
  function IsSearchResults(search: string): (r: bool)
    ensures r <==> exists t :: t in SearchTerms && (Text.Contains(search, "?" + t + "=") || Text.Contains(search, "|" + t + "=")
                                                   || Text.Contains(search, "&" + t + "="))
  {
    exists t :: t in SearchTerms && HasSearchTerm(search, t)
  }

  /** `searchParams.get(name)`: the first value given for the name. The
      same lookup reads a property of an object kept as ordered pairs. */
  function FirstValue<V(==)>(query: seq<(string, V)>, name: string): (r: Option<V>)
    ensures r.Some? <==> exists i :: 0 <= i < |query| && query[i].0 == name
    ensures r.Some? ==> (name, r.value) in query
    decreases |query|
  {
    if query == [] then None
    else if query[0].0 == name then Some(query[0].1)
    else FirstValue(query[1..], name)
  }

  /** `terms.find((term) => searchParams.get(term))`: the first term with a
      non-empty value. */
  function FindTerm(terms: seq<string>, query: seq<(string, string)>): (r: Option<string>)
    ensures r.Some? <==> exists i :: 0 <= i < |terms| && Truthy(FirstValue(query, terms[i]))
    ensures r.Some? ==> exists i :: 0 <= i < |terms| && terms[i] == r.value && Truthy(FirstValue(query, terms[i]))
                                   && forall j :: 0 <= j < i ==> !Truthy(FirstValue(query, terms[j]))
    decreases |terms|
  {
    if terms == [] then None
    else if Truthy(FirstValue(query, terms[0])) then Some(terms[0])
    else
      var r := FindTerm(terms[1..], query);
      assert forall i :: 1 <= i < |terms| ==> terms[i] == terms[1..][i - 1];
      if r.Some? then
        var k :| 0 <= k < |terms[1..]| && terms[1..][k] == r.value && Truthy(FirstValue(query, terms[1..][k]))
          && forall j :: 0 <= j < k ==> !Truthy(FirstValue(query, terms[1..][j]));
        assert terms[k + 1] == r.value;
        assert forall j :: 0 <= j < k + 1 ==> !Truthy(FirstValue(query, terms[j])) by {
          forall j | 0 <= j < k + 1 ensures !Truthy(FirstValue(query, terms[j])) {
            if j > 0 { assert terms[j] == terms[1..][j - 1]; }
          }
        }
        r
      else
        r
  }

  /** `getEventMeta({ type, event })`: the event name (search results
      override the type), the search term, then the event's own parameters. */
  function EventMeta(eventType: Option<string>, event: Option<Values.EventParams>,
                     search: string, query: seq<(string, string)>): (r: seq<Entry>)
    ensures |r| >= 2
    ensures r[0].0 == EventNameKey && r[1].0 == SearchTermKey
    ensures r[0].1 == if IsSearchResults(search) then Some(ViewSearchResults) else eventType
    ensures r[1].1 == FindTerm(SearchTerms, query)
    ensures r[2..] == if event.Some? then Values.GetEventParams(event.value) else []
  {
    var eventName := if IsSearchResults(search) then Some(ViewSearchResults) else eventType;
    [(EventNameKey, eventName), (SearchTermKey, FindTerm(SearchTerms, query))]
      + (if event.Some? then Values.GetEventParams(event.value) else [])
  }

  /** What a hit reads from the environment besides storage: the document,
      its parsed query, `navigator.language`, the screen, the random numbers
      behind the page, client and session ids, the global configuration,
      and whether `navigator.sendBeacon` throws (it is missing, or rejects
      the configured endpoint's URL). */
  datatype Env = Env(page: Values.Page, query: seq<(string, string)>, language: Option<string>,
                     screen: Option<(int, int)>, pageRaw: nat, clientRaw: nat, sessionRaw: nat,
                     globalId: Option<string>, endpoint: Option<string>, beaconThrows: bool)

  /** `(navigator.language || '').toLowerCase() || void 0`. */
  function Language(language: Option<string>): (r: Option<string>)
    ensures r.Some? <==> Truthy(language)
    ensures r.Some? ==> r.value == Text.ToLower(language.value)
  {
    if Truthy(language) then Some(Text.ToLower(language.value)) else None
  }

  /** `${screen.width}x${screen.height}`, with `undefined` for a missing screen. */
  function ScreenResolution(screen: Option<(int, int)>): (r: string)
    ensures screen.None? ==> r == "undefinedxundefined"
    ensures screen.Some? ==>
              var w := Text.IntToString(screen.value.0);
              var h := Text.IntToString(screen.value.1);
              |r| == |w| + 1 + |h| && r[..|w|] == w && r[|w|] == 'x' && r[|w| + 1..] == h
  {
    if screen.Some? then Text.IntToString(screen.value.0) + "x" + Text.IntToString(screen.value.1)
    else "undefinedxundefined"
  }

  function Flag(b: bool): Option<string> {
    if b then Some("1") else None
  }

  /** The identity a hit carries and the storage after reading it. */
  datatype Identity = Identity(state: Values.SessionState, clientId: string, sessionId: string,
                               local: map<string, string>, session: map<string, string>)

  /** The storage reads and writes of one hit, in the order `getQueryParams`
      makes them: the session state first, then the client id, then the
      session id. */
  function IdentityStep(local: map<string, string>, session: map<string, string>, firstEvent: bool,
                        clientGen: string, sessionGen: string): (r: Identity)
    ensures r.state == Values.SessionStateOf(local, session, firstEvent)
    ensures r.local == Values.GetOrCreate(local, Values.ClientKey, clientGen).storage
    ensures r.clientId == Values.GetOrCreate(local, Values.ClientKey, clientGen).id
    ensures var s1 := Values.SessionAfter(session, firstEvent, r.state);
            r.session == Values.GetOrCreate(s1, Values.SessionKey, sessionGen).storage
            && r.sessionId == Values.GetOrCreate(s1, Values.SessionKey, sessionGen).id
  {
    var st := Values.SessionStateOf(local, session, firstEvent);
    var s1 := Values.SessionAfter(session, firstEvent, st);
    var c := Values.GetOrCreate(local, Values.ClientKey, clientGen);
    var s := Values.GetOrCreate(s1, Values.SessionKey, sessionGen);
    Identity(st, c.id, s.id, c.storage, s.storage)
  }

  /** A later hit of the same page load reports what the first reported: the
      same ids and count, no first visit, no session start, and writes
      nothing. */
  lemma SecondHitSameSession(local: map<string, string>, session: map<string, string>,
                             c1: string, s1: string, c2: string, s2: string)
    requires c1 != "" && s1 != ""
    ensures var first := IdentityStep(local, session, true, c1, s1);
            var second := IdentityStep(first.local, first.session, false, c2, s2);
            second.clientId == first.clientId && second.sessionId == first.sessionId
            && second.state.sessionCount == first.state.sessionCount
            && !second.state.firstVisit && !second.state.sessionStart
            && second.local == first.local && second.session == first.session
  {
    var first := IdentityStep(local, session, true, c1, s1);
    var mid := Values.SessionAfter(session, true, first.state);
    Values.GetOrCreateTwice(local, Values.ClientKey, c1, c2);
    Values.GetOrCreateTwice(mid, Values.SessionKey, s1, s2);
    assert Storage.Lookup(first.session, Values.CounterKey) == Some(first.state.sessionCount) by {
      assert Values.SessionKey != Values.CounterKey;
    }
  }

  /** The first hit on fresh storage reports a first visit, a session start
      and a count of 1, and stores the generated ids. */
  lemma FirstHitOnFreshStorage(c: string, s: string)
    requires c != "" && s != ""
    ensures var first := IdentityStep(map[], map[], true, c, s);
            first.state == Values.SessionState(true, true, "1") && first.clientId == c && first.sessionId == s
            && first.local == map[Values.ClientKey := c]
            && first.session == map[Values.CounterKey := "1", Values.SessionKey := s]
  {
    Values.SessionStateFromEmpty();
  }

  /** Each hit of a page load after the first one: the count it reports. */
  function PageLoadCounts(local: map<string, string>, session: map<string, string>, firstEvent: bool,
                          gens: seq<(string, string)>): seq<string>
    decreases |gens|
  {
    if gens == [] then []
    else
      var step := IdentityStep(local, session, firstEvent, gens[0].0, gens[0].1);
      [step.state.sessionCount] + PageLoadCounts(step.local, step.session, false, gens[1..])
  }

  /** Every hit of a page load reports the count the first one wrote: the
      stored count plus one, or 1. The counter moves once per page load. */
  lemma {:induction false} CountOncePerPageLoad(local: map<string, string>, session: map<string, string>,
                                                gens: seq<(string, string)>)
    requires forall i :: 0 <= i < |gens| ==> gens[i].0 != "" && gens[i].1 != ""
    ensures var counts := PageLoadCounts(local, session, true, gens);
            |counts| == |gens| && forall i :: 0 <= i < |counts| ==>
              counts[i] == Values.NextCount(Storage.Lookup(session, Values.CounterKey))
  {
    if gens != [] {
      var first := IdentityStep(local, session, true, gens[0].0, gens[0].1);
      LaterHitsKeepCount(first.local, first.session, gens[1..], first.state.sessionCount);
    }
  }

  /** After the first hit, each further hit reports the stored count. */
  lemma {:induction false} LaterHitsKeepCount(local: map<string, string>, session: map<string, string>,
                                              gens: seq<(string, string)>, count: string)
    requires count != "" && Storage.Lookup(session, Values.CounterKey) == Some(count)
    requires forall i :: 0 <= i < |gens| ==> gens[i].0 != "" && gens[i].1 != ""
    ensures var counts := PageLoadCounts(local, session, false, gens);
            |counts| == |gens| && forall i :: 0 <= i < |counts| ==> counts[i] == count
    decreases |gens|
  {
    if gens != [] {
      var step := IdentityStep(local, session, false, gens[0].0, gens[0].1);
      assert Storage.Lookup(step.session, Values.CounterKey) == Some(count) by {
        assert Values.SessionKey != Values.CounterKey;
      }
      LaterHitsKeepCount(step.local, step.session, gens[1..], count);
    }
  }

  /** The entries of `getQueryParams` before the event meta, in order. */
  function BaseEntries(trackingId: string, debug: bool, doc: Values.DocumentInfo, ident: Identity,
                       pageId: string, language: Option<string>, screen: Option<(int, int)>): (r: seq<Entry>)
    ensures |r| == 16
  {
    [(ProtocolVersionKey, Some("2")),
     (TrackingIdKey, Some(trackingId)),
     (PageIdKey, Some(pageId)),
     (LanguageKey, Language(language)),
     (ClientIdKey, Some(ident.clientId)),
     (FirstVisitKey, Flag(ident.state.firstVisit)),
     (HitCountKey, Some("1")),
     (SessionIdKey, Some(ident.sessionId)),
     (SessionCountKey, Some(ident.state.sessionCount)),
     (SessionEngagementKey, Some("1")),
     (SessionStartKey, Flag(ident.state.sessionStart)),
     (DebugKey, Flag(debug)),
     (ReferrerKey, Some(doc.referrer)),
     (LocationKey, Some(doc.location)),
     (TitleKey, Some(doc.title)),
     (ScreenResolutionKey, Some(ScreenResolution(screen)))]
  }

  /** `getQueryParams(trackingId, props)`: the base entries then the event
      meta, keeping the entries whose value is truthy. */
  function QueryPayload(trackingId: string, props: Props, env: Env, ident: Identity): (r: seq<(string, string)>)
    ensures forall i :: 0 <= i < |r| ==> r[i].1 != ""
    ensures |r| <= 16 + |EventMeta(props.eventType, props.event, env.page.location.search, env.query)|
  {
    KeepTruthy(BaseEntries(trackingId, props.debug, Values.GetDocument(env.page), ident,
                           Utility.GetRandomId(env.pageRaw, Utility.MaxIdLength), env.language, env.screen)
               + EventMeta(props.eventType, props.event, env.page.location.search, env.query))
  }

  /** An entry is sent exactly when it is among the base entries or the
      event meta with a non-empty value. */
  lemma QueryPayloadMembership(trackingId: string, props: Props, env: Env, ident: Identity, k: string, v: string)
    ensures (k, v) in QueryPayload(trackingId, props, env, ident) <==>
      (v != "" &&
       ((k, Some(v)) in BaseEntries(trackingId, props.debug, Values.GetDocument(env.page), ident,
                                    Utility.GetRandomId(env.pageRaw, Utility.MaxIdLength), env.language, env.screen)
        || (k, Some(v)) in EventMeta(props.eventType, props.event, env.page.location.search, env.query)))
  {
    var base := BaseEntries(trackingId, props.debug, Values.GetDocument(env.page), ident,
                            Utility.GetRandomId(env.pageRaw, Utility.MaxIdLength), env.language, env.screen);
    var meta := EventMeta(props.eventType, props.event, env.page.location.search, env.query);
    KeepTruthyMembership(base + meta, k, v);
  }

  /** The kept base entries come first, the protocol version and tracking id
      leading, and the kept event meta follows them. */
  lemma QueryPayloadOrder(trackingId: string, props: Props, env: Env, ident: Identity)
    requires trackingId != ""
    ensures var base := BaseEntries(trackingId, props.debug, Values.GetDocument(env.page), ident,
                                    Utility.GetRandomId(env.pageRaw, Utility.MaxIdLength), env.language, env.screen);
            var meta := EventMeta(props.eventType, props.event, env.page.location.search, env.query);
            var r := QueryPayload(trackingId, props, env, ident);
            r == KeepTruthy(base) + KeepTruthy(meta)
            && |r| >= 2 && r[0] == (ProtocolVersionKey, "2") && r[1] == (TrackingIdKey, trackingId)
  {
    var base := BaseEntries(trackingId, props.debug, Values.GetDocument(env.page), ident,
                            Utility.GetRandomId(env.pageRaw, Utility.MaxIdLength), env.language, env.screen);
    var meta := EventMeta(props.eventType, props.event, env.page.location.search, env.query);
    KeepTruthyAppend(base, meta);
    KeepTruthyLeading(base);
  }

  /** A hit handed to the beacon API: the endpoint and the query entries. */
  datatype Hit = Hit(endpoint: string, query: seq<(string, string)>)

  /** The endpoint: the configured one if set and non-empty, else the default. */
  function Endpoint(env: Env): (r: string)
    ensures r == if Truthy(env.endpoint) then env.endpoint.value else AnalyticsEndpoint
    ensures r != ""
  {
    OrElse(env.endpoint, Some(AnalyticsEndpoint)).GetOr(AnalyticsEndpoint)
  }

  /** The page listeners `bindEvents` attaches. */
  datatype Listener = VisibilityListener | ScrollListener | ClickListener | BeforeUnloadListener

  const AllListeners: set<Listener> := {VisibilityListener, ScrollListener, ClickListener, BeforeUnloadListener}

  /** The extent of one engagement interval: up to its hidden time, or up
      to `now` while it is open (`[visible, hidden = Date.now()]`). */
  function Span(entry: seq<int>, now: int): (r: int)
    requires |entry| >= 1
    ensures |entry| >= 2 ==> r == entry[1] - entry[0]
    ensures |entry| == 1 ==> r == now - entry[0]
    ensures r >= 0 <==> entry[0] <= (if |entry| >= 2 then entry[1] else now)
  {
    (if |entry| >= 2 then entry[1] else now) - entry[0]
  }

  predicate NonEmptyEntries(times: seq<seq<int>>) {
    forall i :: 0 <= i < |times| ==> |times[i]| >= 1
  }

  /** The `reduce` in `onUnloadEvent`: the sum of all spans, in milliseconds. */
  function ActiveTime(times: seq<seq<int>>, now: int): (r: int)
    requires NonEmptyEntries(times)
    ensures times == [] ==> r == 0
    ensures (forall i :: 0 <= i < |times| ==> Span(times[i], now) >= 0) ==> r >= 0
    decreases |times|
  {
    if times == [] then 0 else ActiveTime(times[..|times| - 1], now) + Span(times[|times| - 1], now)
  }

  /** `onVisibilityChange`: hiding appends the time to the last interval,
      showing opens a new one. */
  function VisibilityStep(times: seq<seq<int>>, visible: bool, now: int): (r: seq<seq<int>>)
    requires times != []
    ensures NonEmptyEntries(times) ==> NonEmptyEntries(r)
    ensures visible ==> r == times + [[now]]
    ensures !visible ==> (|r| == |times| && r[..|r| - 1] == times[..|times| - 1]
                          && r[|r| - 1] == times[|times| - 1] + [now])
  {
    var last := |times| - 1;
    if !visible then times[last := times[last] + [now]] else times + [[now]]
  }

  /** The intervals alternate: every interval but the last is closed, and
      the last is closed exactly when the page is hidden. */
  predicate Alternating(times: seq<seq<int>>, hidden: bool) {
    times != []
    && (forall i :: 0 <= i < |times| - 1 ==> |times[i]| == 2)
    && |times[|times| - 1]| == (if hidden then 2 else 1)
  }

  /** A visibility change that flips the state keeps the intervals alternating. */
  lemma AlternationKept(times: seq<seq<int>>, hidden: bool, now: int)
    requires Alternating(times, hidden)
    ensures Alternating(VisibilityStep(times, hidden, now), !hidden)
  {
  }

  /** A second hide without a show in between adds a third time to the last
      interval; the unload sum still uses the first one. */
  lemma DoubleHideKeepsFirst(times: seq<seq<int>>, now: int, later: int, unload: int)
    requires Alternating(times, false)
    ensures var twice := VisibilityStep(VisibilityStep(times, false, now), false, later);
            NonEmptyEntries(times) && NonEmptyEntries(twice)
            && ActiveTime(twice, unload) == ActiveTime(VisibilityStep(times, false, now), unload)
  {
    var once := VisibilityStep(times, false, now);
    var twice := VisibilityStep(once, false, later);
    assert twice[..|twice| - 1] == once[..|once| - 1];
  }

  /** Adding the spans of intervals followed by one more. */
  lemma ActiveTimeAppend(times: seq<seq<int>>, entry: seq<int>, now: int)
    requires NonEmptyEntries(times) && |entry| >= 1
    ensures NonEmptyEntries(times + [entry])
    ensures ActiveTime(times + [entry], now) == ActiveTime(times, now) + Span(entry, now)
  {
    assert (times + [entry])[..|times|] == times;
  }

  /** While the page is hidden the engagement total does not move. */
  lemma {:induction false} HiddenTimeFrozen(times: seq<seq<int>>, now1: int, now2: int)
    requires Alternating(times, true)
    ensures ActiveTime(times, now1) == ActiveTime(times, now2)
  {
    ClosedSpansFixed(times, now1, now2);
  }

  /** Closed intervals do not depend on `now`. */
  lemma {:induction false} ClosedSpansFixed(times: seq<seq<int>>, now1: int, now2: int)
    requires forall i :: 0 <= i < |times| ==> |times[i]| == 2
    ensures NonEmptyEntries(times)
    ensures ActiveTime(times, now1) == ActiveTime(times, now2)
    decreases |times|
  {
    if times != [] {
      ClosedSpansFixed(times[..|times| - 1], now1, now2);
    }
  }

  /** While the page is visible the total grows with the clock. */
  lemma VisibleTimeGrows(times: seq<seq<int>>, now: int, d: int)
    requires Alternating(times, false)
    ensures NonEmptyEntries(times)
    ensures ActiveTime(times, now + d) == ActiveTime(times, now) + d
  {
    var init := times[..|times| - 1];
    assert forall i :: 0 <= i < |init| ==> |init[i]| == 2;
    ClosedSpansFixed(init, now, now + d);
  }

  /** The scroll callback's test `percentage < 90` fails, so it goes on. A
      track with no length gives NaN or Infinity, which fails the test too. */
  function PastThreshold(v: Utility.ScrollView): (r: bool)
    ensures Utility.DocumentHeight(v.heights) == v.innerHeight ==> r
    ensures var scrollTop := if v.pageYOffset != 0.0 then v.pageYOffset else v.bodyScrollTop;
            var trackLength := Utility.DocumentHeight(v.heights) - v.innerHeight;
            trackLength != 0 ==> (r <==> Utility.AbsReal(scrollTop / trackLength as real) * 100.0 >= 90.0)
  {
    var percentage := Utility.GetScrollPercentage(v.heights, v.pageYOffset, v.bodyScrollTop, v.innerHeight);
    percentage.None? || percentage.value >= 90
  }

  /** `track` over the collector's module state. */
  class Tracker {
    const store: Values.IdentityStore
    /** The debounced scroll callback; its pending call carries the tracking id. */
    const scrollTimer: Utility.Debouncer<string>
    var trackCalled: bool
    var eventsBound: bool
    /** The tracking id the handlers were bound with. */
    var boundId: Option<string>
    var listeners: set<Listener>
    var engagementTimes: seq<seq<int>>
    /** The hits handed to the beacon API, in order. */
    var sent: seq<Hit>
    ghost var scrollHits: nat

    ghost predicate Valid()
      reads this, scrollTimer
    {
      engagementTimes != [] && NonEmptyEntries(engagementTimes)
      && (!eventsBound ==> listeners == {} && boundId.None?)
      && (eventsBound ==> Truthy(boundId) && (listeners == AllListeners || listeners == AllListeners - {ScrollListener}))
      && (scrollTimer.pending.Some? ==> ScrollListener in listeners && Truthy(scrollTimer.pending))
      && scrollHits <= 1
      && (scrollHits == 1 <==> eventsBound && ScrollListener !in listeners)
    }

    /** The module loads: nothing tracked, nothing bound, and one open
        engagement interval from the load time. */
    constructor (store: Values.IdentityStore, loadTime: int)
      ensures Valid() && fresh(scrollTimer)
      ensures this.store == store && !trackCalled && !eventsBound && listeners == {}
      ensures engagementTimes == [[loadTime]] && sent == [] && scrollHits == 0
    {
      this.store := store;
      scrollTimer := new Utility.Debouncer<string>();
      trackCalled := false;
      eventsBound := false;
      boundId := None;
      listeners := {};
      engagementTimes := [[loadTime]];
      sent := [];
      scrollHits := 0;
    }

    /** `bindEvents(trackingId)`: attach the listeners on the first call only. */
    method BindEvents(trackingId: string)
      requires Valid() && trackingId != ""
      modifies this
      ensures Valid() && eventsBound
      ensures old(eventsBound) ==> listeners == old(listeners) && boundId == old(boundId)
      ensures !old(eventsBound) ==> listeners == AllListeners && boundId == Some(trackingId)
      ensures trackCalled == old(trackCalled) && engagementTimes == old(engagementTimes)
      ensures sent == old(sent) && scrollHits == old(scrollHits)
    {
      if eventsBound {
        return;
      }
      eventsBound := true;
      boundId := Some(trackingId);
      listeners := AllListeners;
    }

    /** `track(...args)`. Without a truthy tracking id nothing happens (an
        error is logged). Otherwise the hit is built, with the session
        counter moved only if no hit was tracked before, handed to the beacon
        API, and the listeners are bound. */
    method Track(args: seq<Args.Arg<Props>>, env: Env) returns (hit: Option<Hit>)
      requires Valid()
      modifies this, store
      ensures Valid()
      ensures var id := Args.TrackingId(args, env.globalId);
              !Truthy(id) ==> (hit.None? && sent == old(sent) && trackCalled == old(trackCalled)
                               && eventsBound == old(eventsBound) && listeners == old(listeners) && boundId == old(boundId)
                               && store.local == old(store.local) && store.session == old(store.session))
      ensures var id := Args.TrackingId(args, env.globalId);
              var ident := IdentityStep(old(store.local), old(store.session), !old(trackCalled),
                                        Utility.GetRandomId(env.clientRaw, Utility.MaxIdLength),
                                        Utility.GetRandomId(env.sessionRaw, Utility.MaxIdLength));
              Truthy(id) ==>
                store.local == ident.local && store.session == ident.session
                && (env.beaconThrows ==>
                      hit.None? && sent == old(sent) && trackCalled == old(trackCalled)
                      && eventsBound == old(eventsBound) && listeners == old(listeners) && boundId == old(boundId))
      ensures var id := Args.TrackingId(args, env.globalId);
              var ident := IdentityStep(old(store.local), old(store.session), !old(trackCalled),
                                        Utility.GetRandomId(env.clientRaw, Utility.MaxIdLength),
                                        Utility.GetRandomId(env.sessionRaw, Utility.MaxIdLength));
              Truthy(id) && !env.beaconThrows ==>
                hit == Some(Hit(Endpoint(env), QueryPayload(id.value, WithDefaults(Args.Props(args)), env, ident)))
                && sent == old(sent) + [hit.value]
                && trackCalled && eventsBound
                && (old(eventsBound) ==> listeners == old(listeners) && boundId == old(boundId))
                && (!old(eventsBound) ==> listeners == AllListeners && boundId == id)
      ensures engagementTimes == old(engagementTimes) && scrollHits == old(scrollHits)
    {
      var trackingId := Args.TrackingId(args, env.globalId);
      var props := WithDefaults(Args.Props(args));
      if !Truthy(trackingId) {
        return None;
      }
      var ident := Identify(!trackCalled, env);
      if env.beaconThrows {
        return None;
      }
      var queryParams := QueryPayload(trackingId.value, props, env, ident);
      hit := Some(Hit(Endpoint(env), queryParams));
      Deliver(hit.value);
      BindEvents(trackingId.value);
    }

    /** The storage side of `getQueryParams`: the session state, then the
        client id, then the session id. */
    method Identify(firstEvent: bool, env: Env) returns (ident: Identity)
      modifies store
      ensures ident == IdentityStep(old(store.local), old(store.session), firstEvent,
                                    Utility.GetRandomId(env.clientRaw, Utility.MaxIdLength),
                                    Utility.GetRandomId(env.sessionRaw, Utility.MaxIdLength))
      ensures store.local == ident.local && store.session == ident.session
    {
      var state := store.GetSessionState(firstEvent);
      var clientId := store.GetClientId(Values.ClientKey, Utility.GetRandomId(env.clientRaw, Utility.MaxIdLength));
      var sessionId := store.GetSessionId(Values.SessionKey, Utility.GetRandomId(env.sessionRaw, Utility.MaxIdLength));
      ident := Identity(state, clientId, sessionId, store.local, store.session);
    }

    /** `navigator.sendBeacon(url, queryParams)`, then `trackCalled = true`. */
    method Deliver(hit: Hit)
      requires Valid()
      modifies this
      ensures Valid() && sent == old(sent) + [hit] && trackCalled
      ensures eventsBound == old(eventsBound) && boundId == old(boundId)
      ensures listeners == old(listeners) && engagementTimes == old(engagementTimes) && scrollHits == old(scrollHits)
    {
      sent := sent + [hit];
      trackCalled := true;
    }

    /** The `visibilitychange` listener, once bound. */
    method OnVisibilityChange(visible: bool, now: int)
      requires Valid()
      modifies this
      ensures Valid()
      ensures engagementTimes == if VisibilityListener in old(listeners) then VisibilityStep(old(engagementTimes), visible, now)
                                 else old(engagementTimes)
      ensures sent == old(sent) && listeners == old(listeners) && eventsBound == old(eventsBound)
      ensures trackCalled == old(trackCalled) && boundId == old(boundId) && scrollHits == old(scrollHits)
    {
      if VisibilityListener !in listeners {
        return;
      }
      var timeIndex := |engagementTimes| - 1;
      if !visible {
        engagementTimes := engagementTimes[timeIndex := engagementTimes[timeIndex] + [now]];
        return;
      }
      engagementTimes := engagementTimes + [[now]];
    }

    /** The `beforeunload` listener: a `user_engagement` hit carrying the
        engagement total as a string. A throwing beacon leaves the storage
        writes behind and sends nothing. */
    method OnUnloadEvent(now: int, env: Env) returns (hit: Option<Hit>)
      requires Valid()
      modifies this, store
      ensures Valid()
      ensures BeforeUnloadListener !in old(listeners) ==>
        hit.None? && sent == old(sent) && trackCalled == old(trackCalled)
        && store.local == old(store.local) && store.session == old(store.session)
      ensures BeforeUnloadListener in old(listeners) ==>
        var timeActive := Text.IntToString(ActiveTime(old(engagementTimes), now));
        var props := Props(Some(UserEngagement), Some(Values.FromArray([(EngagementTimeKey, Values.PStr(timeActive))])), false);
        var ident := IdentityStep(old(store.local), old(store.session), !old(trackCalled),
                                  Utility.GetRandomId(env.clientRaw, Utility.MaxIdLength),
                                  Utility.GetRandomId(env.sessionRaw, Utility.MaxIdLength));
        store.local == ident.local && store.session == ident.session
        && (env.beaconThrows ==> hit.None? && sent == old(sent) && trackCalled == old(trackCalled))
        && (!env.beaconThrows ==>
              hit == Some(Hit(Endpoint(env), QueryPayload(old(boundId).value, props, env, ident)))
              && sent == old(sent) + [hit.value] && trackCalled)
      ensures listeners == old(listeners) && boundId == old(boundId) && eventsBound == old(eventsBound)
      ensures engagementTimes == old(engagementTimes) && scrollHits == old(scrollHits)
    {
      if BeforeUnloadListener !in listeners {
        return None;
      }
      var timeActive := Text.IntToString(ActiveTime(engagementTimes, now));
      var props := Props(Some(UserEngagement), Some(Values.FromArray([(EngagementTimeKey, Values.PStr(timeActive))])), false);
      var args := [Args.StringArg(boundId.value), Args.ObjectArg(props)];
      assert Args.TrackingId(args, env.globalId) == boundId;
      assert WithDefaults(Args.Props(args)) == props;
      hit := Track(args, env);
    }

    /** The `scroll` listener: (re)start the debounce timer for the bound id. */
    method OnScroll()
      requires Valid()
      modifies scrollTimer
      ensures Valid()
      ensures scrollTimer.pending == if ScrollListener in listeners then boundId else old(scrollTimer.pending)
    {
      if ScrollListener in listeners {
        scrollTimer.Invoke(boundId.value);
      }
    }

    /** The debounce delay runs out. The pending callback, if any, reads the
        scroll percentage; at 90 or more it sends one `scroll` hit with
        `percent_scrolled` 90 and detaches the scroll listener. A throwing
        beacon stops the callback after the storage writes, before the
        listener is removed. */
    method OnScrollTimerElapsed(view: Utility.ScrollView, env: Env) returns (hit: Option<Hit>)
      requires Valid()
      modifies this, store, scrollTimer
      ensures Valid()
      ensures scrollTimer.pending == None
      ensures hit.Some? <==> old(scrollTimer.pending).Some? && PastThreshold(view) && !env.beaconThrows
      ensures hit.Some? ==> (listeners == old(listeners) - {ScrollListener} && ScrollListener in old(listeners)
                             && scrollHits == old(scrollHits) + 1 && sent == old(sent) + [hit.value])
      ensures hit.None? ==> sent == old(sent) && listeners == old(listeners) && scrollHits == old(scrollHits)
                            && trackCalled == old(trackCalled)
      ensures old(scrollTimer.pending).None? || !PastThreshold(view) ==>
                store.local == old(store.local) && store.session == old(store.session)
      ensures hit.Some? ==>
        var props := Props(Some(ScrollEventName), Some(Values.FromArray([(PercentScrolledKey, Values.PNum(90))])), false);
        var ident := IdentityStep(old(store.local), old(store.session), !old(trackCalled),
                                  Utility.GetRandomId(env.clientRaw, Utility.MaxIdLength),
                                  Utility.GetRandomId(env.sessionRaw, Utility.MaxIdLength));
        hit.value == Hit(Endpoint(env), QueryPayload(old(scrollTimer.pending).value, props, env, ident))
        && trackCalled
      ensures old(scrollTimer.pending).Some? && PastThreshold(view) ==>
        var ident := IdentityStep(old(store.local), old(store.session), !old(trackCalled),
                                  Utility.GetRandomId(env.clientRaw, Utility.MaxIdLength),
                                  Utility.GetRandomId(env.sessionRaw, Utility.MaxIdLength));
        store.local == ident.local && store.session == ident.session
      ensures boundId == old(boundId) && eventsBound == old(eventsBound) && engagementTimes == old(engagementTimes)
    {
      var fired := scrollTimer.Elapsed();
      if fired.None? || !PastThreshold(view) {
        return None;
      }
      var props := Props(Some(ScrollEventName), Some(Values.FromArray([(PercentScrolledKey, Values.PNum(90))])), false);
      var args := [Args.StringArg(fired.value), Args.ObjectArg(props)];
      assert Args.TrackingId(args, env.globalId) == Some(fired.value);
      assert WithDefaults(Args.Props(args)) == props;
      hit := Track(args, env);
      if env.beaconThrows {
        return;
      }
      DetachScroll();
    }

    /** `document.removeEventListener('scroll', onScrollEvent)` after the
        scroll hit. */
    method DetachScroll()
      requires Valid() && eventsBound && ScrollListener in listeners && scrollTimer.pending.None?
      modifies this
      ensures Valid() && listeners == old(listeners) - {ScrollListener} && scrollHits == old(scrollHits) + 1
      ensures sent == old(sent) && trackCalled == old(trackCalled) && eventsBound == old(eventsBound)
      ensures boundId == old(boundId) && engagementTimes == old(engagementTimes)
    {
      listeners := listeners - {ScrollListener};
      scrollHits := scrollHits + 1;
    }
  }

  /** A scroll listener that was detached stays detached: neither scrolling
      nor the timer sends another scroll hit. */
  method ScrollSentOnce(t: Tracker, view: Utility.ScrollView, env: Env) returns (hit: Option<Hit>)
    requires t.Valid() && t.scrollHits == 1
    modifies t, t.store, t.scrollTimer
    ensures t.Valid() && hit.None? && t.sent == old(t.sent)
  {
    t.OnScroll();
    hit := t.OnScrollTimerElapsed(view, env);
  }
}
