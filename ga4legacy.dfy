/** The earlier, single-file GA4 collector: a fixed tracking id, its own
    storage keys, a payload built as one object literal from spread parts
    (later keys override earlier ones in place), only `undefined` values
    removed, and a session counter that moves on every hit. */
module Ga4Legacy {
  import opened Base
  import Text
  import Storage
  import Values
  import Utility
  import Ga4

  const ClientKey := "_gacid"
  const SessionKey := "_gasid"
  const CounterKey := "_gasct"
  /** The session-storage key of the page id (`getSessionId('_gapid')`). */
  const PageKey := "_gapid"
  const TrackingId := "G-HWD0EHM8LC"
  const DebugActive := false
  const ExceptionType := "exception"

  // Names only this variant sends.
  const ErrorKey := "exd"
  const ColourDepthKey := "sd"
  const ViewPortKey := "vp"

  /** A JavaScript object as the spreads build it: its properties in
      creation order. */
  type Obj = seq<(string, Values.ParamValue)>

  predicate DistinctKeys(obj: Obj) {
    forall i, j :: 0 <= i < j < |obj| ==> obj[i].0 != obj[j].0
  }

  /** Every property is the one its name reads: no name is shadowed by an
      earlier property of the same name. */
  predicate Canonical(obj: Obj) {
    forall i :: 0 <= i < |obj| ==> Ga4.FirstValue(obj, obj[i].0) == Some(obj[i].1)
  }

  /** `obj[k] = v`: an existing property keeps its place, a new one goes last. */
  function Assign(obj: Obj, k: string, v: Values.ParamValue): (r: Obj)
    ensures Ga4.FirstValue(r, k) == Some(v)
    ensures forall j :: j != k ==> Ga4.FirstValue(r, j) == Ga4.FirstValue(obj, j)
    ensures Ga4.FirstValue(obj, k).None? ==> r == obj + [(k, v)]
    ensures |obj| <= |r| <= |obj| + 1
    ensures Ga4.FirstValue(obj, k).Some? ==> |r| == |obj|
    decreases |obj|
  {
    if obj == [] then [(k, v)]
    else if obj[0].0 == k then [(k, v)] + obj[1..]
    else [obj[0]] + Assign(obj[1..], k, v)
  }

  /** Assigning keeps every existing property in its place. */
  lemma {:induction false} AssignInPlace(obj: Obj, k: string, v: Values.ParamValue)
    ensures var r := Assign(obj, k, v);
            forall i :: 0 <= i < |obj| ==> r[i].0 == obj[i].0
    decreases |obj|
  {
    if obj != [] && obj[0].0 != k {
      var rest := Assign(obj[1..], k, v);
      AssignInPlace(obj[1..], k, v);
      assert forall i :: 0 < i < |obj| ==> obj[i] == obj[1..][i - 1] && Assign(obj, k, v)[i] == rest[i - 1];
    }
  }

  /** Assigning adds no name other than the assigned one. */
  lemma AssignKeys(obj: Obj, k: string, v: Values.ParamValue)
    ensures forall i :: 0 <= i < |Assign(obj, k, v)| ==>
              Assign(obj, k, v)[i].0 == k || exists m :: 0 <= m < |obj| && obj[m].0 == Assign(obj, k, v)[i].0
  {
    var r := Assign(obj, k, v);
    AssignInPlace(obj, k, v);
    forall i | 0 <= i < |r| ensures r[i].0 == k || exists m :: 0 <= m < |obj| && obj[m].0 == r[i].0 {
      if i < |obj| {
        assert obj[i].0 == r[i].0;
      } else {
        assert r == obj + [(k, v)];
      }
    }
  }

  /** Assigning past a first property of another name keeps that name unique. */
  lemma AssignPastHead(obj: Obj, k: string, v: Values.ParamValue)
    requires DistinctKeys(obj) && obj != [] && obj[0].0 != k
    requires DistinctKeys(Assign(obj[1..], k, v))
    ensures DistinctKeys(Assign(obj, k, v))
  {
    var rest := Assign(obj[1..], k, v);
    AssignKeys(obj[1..], k, v);
    forall i | 0 <= i < |rest| ensures rest[i].0 != obj[0].0 {
      if rest[i].0 != k {
        var m :| 0 <= m < |obj[1..]| && obj[1..][m].0 == rest[i].0;
        assert obj[m + 1].0 == rest[i].0;
      }
    }
    DistinctCons(obj[0], rest);
  }

  /** Assigning keeps names distinct. */
  lemma {:induction false} AssignDistinct(obj: Obj, k: string, v: Values.ParamValue)
    requires DistinctKeys(obj)
    ensures DistinctKeys(Assign(obj, k, v))
    decreases |obj|
  {
    var r := Assign(obj, k, v);
    if obj != [] && obj[0].0 != k {
      DistinctTail(obj);
      AssignDistinct(obj[1..], k, v);
      AssignPastHead(obj, k, v);
    } else if obj != [] {
      assert r == [(k, v)] + obj[1..];
      forall a, b | 0 <= a < b < |r| ensures r[a].0 != r[b].0 {
        assert r[a].0 == obj[a].0 && r[b] == obj[b];
      }
    }
  }

  /** Dropping the first property keeps the names distinct. */
  lemma DistinctTail(obj: Obj)
    requires DistinctKeys(obj) && obj != []
    ensures DistinctKeys(obj[1..])
  {
    forall a, b | 0 <= a < b < |obj[1..]| ensures obj[1..][a].0 != obj[1..][b].0 {
      assert obj[1..][a] == obj[a + 1] && obj[1..][b] == obj[b + 1];
    }
  }

  /** A property whose name the rest lacks can lead it. */
  lemma DistinctCons(p: (string, Values.ParamValue), rest: Obj)
    requires DistinctKeys(rest) && forall i :: 0 <= i < |rest| ==> rest[i].0 != p.0
    ensures DistinctKeys([p] + rest)
  {
    var r := [p] + rest;
    forall a, b | 0 <= a < b < |r| ensures r[a].0 != r[b].0 {
      assert r[b] == rest[b - 1];
      if a > 0 {
        assert r[a] == rest[a - 1];
      }
    }
  }

  /** A distinct-named object is canonical. */
  lemma DistinctIsCanonical(obj: Obj)
    requires DistinctKeys(obj)
    ensures Canonical(obj)
  {
    forall j | 0 <= j < |obj| ensures Ga4.FirstValue(obj, obj[j].0) == Some(obj[j].1) {
      FirstIsOnly(obj, j);
    }
  }

  /** In an object with distinct names, the property at any position is the
      one `Ga4.FirstValue` finds. */
  lemma {:induction false} FirstIsOnly(obj: Obj, j: nat)
    requires DistinctKeys(obj) && j < |obj|
    ensures Ga4.FirstValue(obj, obj[j].0) == Some(obj[j].1)
    decreases j
  {
    if j > 0 {
      assert obj[0].0 != obj[j].0;
      assert obj[1..][j - 1] == obj[j];
      assert DistinctKeys(obj[1..]) by {
        forall a, b | 0 <= a < b < |obj[1..]| ensures obj[1..][a].0 != obj[1..][b].0 {
          assert obj[1..][a] == obj[a + 1] && obj[1..][b] == obj[b + 1];
        }
      }
      FirstIsOnly(obj[1..], j - 1);
    }
  }

  /** The value the last entry for `k` gives, if any. */
  function LastOf(entries: Obj, k: string): (r: Option<Values.ParamValue>)
    ensures r.Some? <==> exists i :: 0 <= i < |entries| && entries[i].0 == k
    decreases |entries|
  {
    if entries == [] then None
    else
      var rest := LastOf(entries[1..], k);
      assert forall i :: 1 <= i < |entries| ==> entries[i] == entries[1..][i - 1];
      if rest.Some? then rest else if entries[0].0 == k then Some(entries[0].1) else None
  }

  /** `{ ...obj, ...entries }`: the entries assigned one after the other. */
  function Spread(obj: Obj, entries: Obj): (r: Obj)
    ensures |obj| <= |r| <= |obj| + |entries|
    decreases |entries|
  {
    if entries == [] then obj
    else Spread(Assign(obj, entries[0].0, entries[0].1), entries[1..])
  }

  /** After a spread a name reads the value of its last entry, or what the
      object had when the entries do not name it. */
  lemma {:induction false} SpreadGet(obj: Obj, entries: Obj, k: string)
    ensures Ga4.FirstValue(Spread(obj, entries), k) == if LastOf(entries, k).Some? then LastOf(entries, k) else Ga4.FirstValue(obj, k)
    decreases |entries|
  {
    if entries != [] {
      SpreadGet(Assign(obj, entries[0].0, entries[0].1), entries[1..], k);
    }
  }

  /** A spread keeps every property already there in its place. */
  lemma {:induction false} SpreadInPlace(obj: Obj, entries: Obj)
    ensures var r := Spread(obj, entries);
            forall i :: 0 <= i < |obj| ==> r[i].0 == obj[i].0
    decreases |entries|
  {
    if entries != [] {
      AssignInPlace(obj, entries[0].0, entries[0].1);
      SpreadInPlace(Assign(obj, entries[0].0, entries[0].1), entries[1..]);
    }
  }

  /** Spreading two runs of entries is spreading one after the other. */
  lemma {:induction false} SpreadConcat(obj: Obj, a: Obj, b: Obj)
    ensures Spread(obj, a + b) == Spread(Spread(obj, a), b)
    decreases |a|
  {
    if a == [] {
      assert a + b == b;
    } else {
      assert (a + b)[0] == a[0] && (a + b)[1..] == a[1..] + b;
      SpreadConcat(Assign(obj, a[0].0, a[0].1), a[1..], b);
    }
  }

  /** A spread keeps names distinct. */
  lemma {:induction false} SpreadDistinct(obj: Obj, entries: Obj)
    requires DistinctKeys(obj)
    ensures DistinctKeys(Spread(obj, entries))
    decreases |entries|
  {
    if entries != [] {
      AssignDistinct(obj, entries[0].0, entries[0].1);
      SpreadDistinct(Assign(obj, entries[0].0, entries[0].1), entries[1..]);
    }
  }

  /** The `delete payload[key]` loop: only properties whose value is
      `undefined` go; empty strings, zero and `null` stay. */
  function StripUndefined(obj: Obj): (r: Obj)
    ensures |r| <= |obj|
    decreases |obj|
  {
    if obj == [] then []
    else (if obj[0].1.PUndefined? then [] else [obj[0]]) + StripUndefined(obj[1..])
  }

  /** Dropping properties keeps the remaining names distinct. */
  lemma {:induction false} StripUndefinedDistinct(obj: Obj)
    requires DistinctKeys(obj)
    ensures DistinctKeys(StripUndefined(obj))
    decreases |obj|
  {
    if obj != [] {
      DistinctTail(obj);
      StripUndefinedDistinct(obj[1..]);
      var rest := StripUndefined(obj[1..]);
      if !obj[0].1.PUndefined? {
        forall i | 0 <= i < |rest| ensures rest[i].0 != obj[0].0 {
          assert rest[i] in rest;
          StripUndefinedMembership(obj[1..], rest[i]);
          var m :| 0 <= m < |obj[1..]| && obj[1..][m] == rest[i];
          assert obj[m + 1] == rest[i];
        }
        DistinctCons(obj[0], rest);
        assert StripUndefined(obj) == [obj[0]] + rest;
      } else {
        assert StripUndefined(obj) == rest;
      }
    }
  }

  /** A property survives exactly when its value is not `undefined`. */
  lemma {:induction false} StripUndefinedMembership(obj: Obj, e: (string, Values.ParamValue))
    ensures e in StripUndefined(obj) <==> e in obj && !e.1.PUndefined?
    decreases |obj|
  {
    if obj != [] {
      StripUndefinedMembership(obj[1..], e);
      assert obj == [obj[0]] + obj[1..];
    }
  }

  /** `new URLSearchParams(payload)`: every value as its string. */
  function Render(obj: Obj): (r: seq<(string, string)>)
    ensures |r| == |obj| && forall i :: 0 <= i < |obj| ==> r[i] == (obj[i].0, Values.TemplateString(obj[i].1))
  {
    seq(|obj|, i requires 0 <= i < |obj| => (obj[i].0, Values.TemplateString(obj[i].1)))
  }

  function StringOr(v: Option<string>): Values.ParamValue {
    if v.Some? then Values.PStr(v.value) else Values.PUndefined
  }

  /** `{ type = 'page_view', event, debug = debugActive, error }`; the error
      is its message. */
  datatype Props = Props(eventType: Option<string>, event: Option<Obj>, debug: Option<bool>, errorMessage: Option<string>)

  datatype Settled = Settled(eventType: string, event: Option<Obj>, debug: bool, errorMessage: Option<string>)

  function WithDefaults(props: Option<Props>): (r: Settled)
    ensures props.None? ==> r == Settled(Ga4.PageView, None, DebugActive, None)
    ensures props.Some? ==> r.eventType == props.value.eventType.GetOr(Ga4.PageView)
                            && r.debug == props.value.debug.GetOr(DebugActive)
                            && r.event == props.value.event && r.errorMessage == props.value.errorMessage
  {
    if props.None? then Settled(Ga4.PageView, None, DebugActive, None)
    else Settled(props.value.eventType.GetOr(Ga4.PageView), props.value.event,
                 props.value.debug.GetOr(DebugActive), props.value.errorMessage)
  }

  /** `getEventMeta({ type, event })`: the event name and the search term,
      then the event's own properties spread over them. */
  function EventMeta(eventType: string, event: Option<Obj>, search: string, query: seq<(string, string)>): (r: Obj)
    ensures var name := if Ga4.IsSearchResults(search) then Ga4.ViewSearchResults else eventType;
            var own := LastOf(event.GetOr([]), Ga4.EventNameKey);
            Ga4.FirstValue(r, Ga4.EventNameKey) == if own.Some? then own else Some(Values.PStr(name))
    ensures var own := LastOf(event.GetOr([]), Ga4.SearchTermKey);
            Ga4.FirstValue(r, Ga4.SearchTermKey) == if own.Some? then own else Some(StringOr(Ga4.FindTerm(Ga4.SearchTerms, query)))
  {
    var eventId := if Ga4.IsSearchResults(search) then Ga4.ViewSearchResults else eventType;
    var named: Obj := [(Ga4.EventNameKey, Values.PStr(eventId)), (Ga4.SearchTermKey, StringOr(Ga4.FindTerm(Ga4.SearchTerms, query)))];
    SpreadGet(named, event.GetOr([]), Ga4.EventNameKey);
    SpreadGet(named, event.GetOr([]), Ga4.SearchTermKey);
    Spread(named, event.GetOr([]))
  }

  /** `getDocumentMeta()`: the referrer only when it does not contain the
      page's host, the location as origin, path and search. */
  function DocumentMeta(page: Values.Page): (r: Obj)
    ensures |r| == 3 && r[0].0 == Ga4.ReferrerKey && r[1].0 == Ga4.LocationKey && r[2].0 == Ga4.TitleKey
    ensures r[0].1.PUndefined? <==> exists i :: 0 <= i <= |page.referrer| && page.location.host <= page.referrer[i..]
    ensures !r[0].1.PUndefined? ==> r[0].1 == Values.PStr(page.referrer)
    ensures r[1].1 == Values.PStr(page.location.origin + page.location.pathname + page.location.search)
    ensures r[2].1 == Values.PStr(page.title)
  {
    Text.ContainsAt(page.referrer, page.location.host);
    var referrer := if Text.Contains(page.referrer, page.location.host) then Values.PUndefined else Values.PStr(page.referrer);
    [(Ga4.ReferrerKey, referrer),
     (Ga4.LocationKey, Values.PStr(page.location.origin + page.location.pathname + page.location.search)),
     (Ga4.TitleKey, Values.PStr(page.title))]
  }

  /** What `getDeviceMeta` reads: `screen.colorDepth`, the screen's width
      and height and the visual viewport's size, already floored. The
      unguarded `screen.colorDepth` throws on a page without a `screen`, so
      every device here has one and `(self.screen || {})` is the screen. */
  datatype Device = Device(colourDepth: int, screen: (int, int), viewport: Option<(int, int)>)

  /** `getDeviceMeta()`: colour depth as `N-bit` when non-zero, the screen
      size as `WxH` always, the viewport size when there is a visual
      viewport. */
  function DeviceMeta(d: Device): (r: Obj)
    ensures |r| == 3 && r[0].0 == ColourDepthKey && r[1].0 == Ga4.ScreenResolutionKey && r[2].0 == ViewPortKey
    ensures r[0].1.PUndefined? <==> d.colourDepth == 0
    ensures r[1].1 == Values.PStr(Text.IntToString(d.screen.0) + "x" + Text.IntToString(d.screen.1))
    ensures r[2].1.PUndefined? <==> d.viewport.None?
    ensures d.viewport.Some? ==>
              r[2].1 == Values.PStr(Text.IntToString(d.viewport.value.0) + "x" + Text.IntToString(d.viewport.value.1))
  {
    [(ColourDepthKey, if d.colourDepth != 0 then Values.PStr(Text.IntToString(d.colourDepth) + "-bit") else Values.PUndefined),
     (Ga4.ScreenResolutionKey, Values.PStr(Ga4.ScreenResolution(Some(d.screen)))),
     (ViewPortKey, if d.viewport.Some? then Values.PStr(Text.IntToString(d.viewport.value.0) + "x" + Text.IntToString(d.viewport.value.1))
                   else Values.PUndefined)]
  }

  /** `${Math.floor(Math.random() * 1000000000) + 1}` for the random draw
      `Math.floor(Math.random() * 1000000000)`. */
  function SessionDraw(draw: nat): (r: string)
    ensures r != ""
    ensures Text.ParseCount(r) == Some(draw % 1000000000 + 1)
  {
    Text.ParseCountOfNatToString(draw % 1000000000 + 1);
    Text.NatToString(draw % 1000000000 + 1)
  }

  /** The ids and the count of one hit and the storage after it. */
  datatype Identity = Identity(pageId: string, clientId: string, sessionId: string, sessionCount: string,
                               local: map<string, string>, session: map<string, string>)

  /** The storage reads and writes of one hit, in the order of the payload
      literal: page id, client id, session id, then the session count. */
  function IdentityStep(local: map<string, string>, session: map<string, string>,
                        pageGen: string, clientGen: string, sessionGen: string): (r: Identity)
    ensures r.clientId == Values.GetOrCreate(local, ClientKey, clientGen).id
    ensures r.local == Values.GetOrCreate(local, ClientKey, clientGen).storage
    ensures r.pageId == Values.GetOrCreate(session, PageKey, pageGen).id
    ensures r.sessionCount == Values.NextCount(Storage.Lookup(session, CounterKey))
    ensures Storage.Lookup(r.session, CounterKey) == Some(r.sessionCount)
  {
    var p := Values.GetOrCreate(session, PageKey, pageGen);
    var c := Values.GetOrCreate(local, ClientKey, clientGen);
    var s := Values.GetOrCreate(p.storage, SessionKey, sessionGen);
    var n := Values.NextCount(Storage.Lookup(s.storage, CounterKey));
    Identity(p.id, c.id, s.id, n, c.storage, s.storage[CounterKey := n])
  }

  /** The payload literal before the spreads. */
  function BaseObj(ident: Identity, firstVisit: bool, sessionStart: bool, debug: bool,
                   errorMessage: Option<string>, language: Option<string>): (r: Obj)
    ensures |r| == 13 && DistinctKeys(r)
  {
    [(Ga4.ProtocolVersionKey, Values.PStr("2")),
     (Ga4.TrackingIdKey, Values.PStr(TrackingId)),
     (Ga4.PageIdKey, Values.PStr(ident.pageId)),
     (Ga4.LanguageKey, StringOr(Ga4.Language(language))),
     (Ga4.ClientIdKey, Values.PStr(ident.clientId)),
     (Ga4.FirstVisitKey, StringOr(Ga4.Flag(firstVisit))),
     (Ga4.HitCountKey, Values.PStr("1")),
     (Ga4.SessionIdKey, Values.PStr(ident.sessionId)),
     (Ga4.SessionCountKey, Values.PStr(ident.sessionCount)),
     (Ga4.SessionEngagementKey, Values.PStr("1")),
     (Ga4.SessionStartKey, StringOr(Ga4.Flag(sessionStart))),
     (Ga4.DebugKey, StringOr(Ga4.Flag(debug))),
     (ErrorKey, if Truthy(errorMessage) then Values.PStr(errorMessage.value) else Values.PUndefined)]
  }

  /** What a hit reads besides storage: the document, its parsed query,
      `navigator.language`, the device, and the random values behind the
      page, client and session ids (`Math.random().toString(36)` for the
      client id is given as its string), and whether `navigator.sendBeacon`
      throws (it is missing, or rejects the URL). */
  datatype Env = Env(page: Values.Page, query: seq<(string, string)>, language: Option<string>, device: Device,
                     pageDraw: nat, clientGen: string, sessionDraw: nat, beaconThrows: bool)

  function StepFor(local: map<string, string>, session: map<string, string>, env: Env): Identity {
    IdentityStep(local, session, SessionDraw(env.pageDraw), env.clientGen, SessionDraw(env.sessionDraw))
  }

  /** The payload object: base, event meta, document meta and device meta. */
  function Payload(p: Settled, env: Env, ident: Identity, firstVisit: bool, sessionStart: bool): (r: Obj)
    ensures DistinctKeys(r)
    ensures var base := BaseObj(ident, firstVisit, sessionStart, p.debug, p.errorMessage, env.language);
            13 <= |r| <= 13 + |EventMeta(p.eventType, p.event, env.page.location.search, env.query)| + 6
            && forall i :: 0 <= i < 13 ==> r[i].0 == base[i].0
  {
    SpreadDistinct(BaseObj(ident, firstVisit, sessionStart, p.debug, p.errorMessage, env.language),
                   EventMeta(p.eventType, p.event, env.page.location.search, env.query) + DocumentMeta(env.page) + DeviceMeta(env.device));
    SpreadInPlace(BaseObj(ident, firstVisit, sessionStart, p.debug, p.errorMessage, env.language),
                  EventMeta(p.eventType, p.event, env.page.location.search, env.query) + DocumentMeta(env.page) + DeviceMeta(env.device));
    Spread(BaseObj(ident, firstVisit, sessionStart, p.debug, p.errorMessage, env.language),
           EventMeta(p.eventType, p.event, env.page.location.search, env.query) + DocumentMeta(env.page) + DeviceMeta(env.device))
  }

  /** `getQueryParams(props)`: the payload without its `undefined` values,
      as strings. */
  function QueryParams(p: Settled, env: Env, ident: Identity, firstVisit: bool, sessionStart: bool): (r: seq<(string, string)>)
    ensures |r| <= |Payload(p, env, ident, firstVisit, sessionStart)|
    ensures forall i, j :: 0 <= i < j < |r| ==> r[i].0 != r[j].0
  {
    StripUndefinedDistinct(Payload(p, env, ident, firstVisit, sessionStart));
    Render(StripUndefined(Payload(p, env, ident, firstVisit, sessionStart)))
  }

  /** Of an object with distinct names, a property is sent, as its string,
      exactly when it exists and is not `undefined`. */
  lemma SendDefined(payload: Obj, k: string)
    requires DistinctKeys(payload)
    ensures var query := Render(StripUndefined(payload));
            (Ga4.FirstValue(payload, k).Some? && !Ga4.FirstValue(payload, k).value.PUndefined? ==>
               (k, Values.TemplateString(Ga4.FirstValue(payload, k).value)) in query)
            && ((Ga4.FirstValue(payload, k).None? || Ga4.FirstValue(payload, k).value.PUndefined?) ==>
               forall i :: 0 <= i < |query| ==> query[i].0 != k)
  {
    DistinctIsCanonical(payload);
    var kept := StripUndefined(payload);
    var query := Render(kept);
    if Ga4.FirstValue(payload, k).Some? && !Ga4.FirstValue(payload, k).value.PUndefined? {
      var e := (k, Ga4.FirstValue(payload, k).value);
      StripUndefinedMembership(payload, e);
      assert e in kept;
      var i :| 0 <= i < |kept| && kept[i] == e;
      assert query[i] == (k, Values.TemplateString(e.1));
    }
    forall i | 0 <= i < |query| ensures Ga4.FirstValue(payload, query[i].0) == Some(kept[i].1) && !kept[i].1.PUndefined? {
      assert kept[i] in kept;
      StripUndefinedMembership(payload, kept[i]);
      var j :| 0 <= j < |payload| && payload[j] == kept[i];
    }
  }

  /** The payload's names are distinct, so each is sent at most once and
      exactly when its value is not `undefined`. */
  lemma QueryParamsSendDefined(p: Settled, env: Env, ident: Identity, firstVisit: bool, sessionStart: bool, k: string)
    ensures var payload := Payload(p, env, ident, firstVisit, sessionStart);
            var query := QueryParams(p, env, ident, firstVisit, sessionStart);
            (Ga4.FirstValue(payload, k).Some? && !Ga4.FirstValue(payload, k).value.PUndefined? ==>
               (k, Values.TemplateString(Ga4.FirstValue(payload, k).value)) in query)
            && ((Ga4.FirstValue(payload, k).None? || Ga4.FirstValue(payload, k).value.PUndefined?) ==>
               forall i :: 0 <= i < |query| ==> query[i].0 != k)
  {
    var base := BaseObj(ident, firstVisit, sessionStart, p.debug, p.errorMessage, env.language);
    var meta := EventMeta(p.eventType, p.event, env.page.location.search, env.query);
    var doc := DocumentMeta(env.page);
    SpreadDistinct(base, meta + doc + DeviceMeta(env.device));
    var payload := Spread(base, meta + doc + DeviceMeta(env.device));
    assert payload == Payload(p, env, ident, firstVisit, sessionStart);
    assert Render(StripUndefined(payload)) == QueryParams(p, env, ident, firstVisit, sessionStart);
    SendDefined(payload, k);
  }

  /** A property the event defines overrides the event name, whatever the
      search rule chose. */
  lemma UserFieldsOverride(eventType: string, event: Obj, search: string, query: seq<(string, string)>, name: Values.ParamValue)
    requires LastOf(event, Ga4.EventNameKey) == Some(name)
    ensures Ga4.FirstValue(EventMeta(eventType, Some(event), search, query), Ga4.EventNameKey) == Some(name)
  {
  }

  /** The device meta sets only its three names. */
  lemma DeviceMetaNames(d: Device, k: string)
    requires k != ColourDepthKey && k != Ga4.ScreenResolutionKey && k != ViewPortKey
    ensures LastOf(DeviceMeta(d), k).None?
  {
    var r := DeviceMeta(d);
    assert forall j :: 0 <= j < |r| ==> r[j].0 != k;
  }

  /** A name the first of two spreads sets and the second leaves alone
      reads the first's last value. */
  lemma SpreadTwiceGet(before: Obj, first: Obj, second: Obj, k: string)
    requires LastOf(first, k).Some? && LastOf(second, k).None?
    ensures Ga4.FirstValue(Spread(Spread(before, first), second), k) == LastOf(first, k)
  {
    SpreadGet(before, first, k);
    SpreadGet(Spread(before, first), second, k);
  }

  /** The document meta is spread after the event, and the device meta
      names no document property: referrer, location and title always come
      from the document. */
  lemma DocumentMetaWins(before: Obj, page: Values.Page, device: Device)
    ensures var doc := DocumentMeta(page);
            var payload := Spread(Spread(before, doc), DeviceMeta(device));
            forall i :: 0 <= i < 3 ==> Ga4.FirstValue(payload, doc[i].0) == Some(doc[i].1)
  {
    var doc := DocumentMeta(page);
    var dev := DeviceMeta(device);
    assert doc[1..][1..] == [doc[2]];
    assert [doc[2]][1..] == [];
    assert LastOf([doc[2]], Ga4.TitleKey) == Some(doc[2].1);
    assert LastOf(doc[1..], Ga4.LocationKey) == Some(doc[1].1);
    assert LastOf(doc, Ga4.ReferrerKey) == Some(doc[0].1);
    forall i | 0 <= i < 3 ensures Ga4.FirstValue(Spread(Spread(before, doc), dev), doc[i].0) == Some(doc[i].1) {
      DeviceMetaNames(device, doc[i].0);
      SpreadTwiceGet(before, doc, dev, doc[i].0);
    }
  }

  /** Falsy values other than `undefined` are sent: an empty title is sent
      as an empty `dt`. */
  lemma EmptyTitleIsSent(p: Settled, env: Env, ident: Identity, firstVisit: bool, sessionStart: bool)
    requires env.page.title == ""
    ensures (Ga4.TitleKey, "") in QueryParams(p, env, ident, firstVisit, sessionStart)
  {
    var before := Spread(BaseObj(ident, firstVisit, sessionStart, p.debug, p.errorMessage, env.language),
                         EventMeta(p.eventType, p.event, env.page.location.search, env.query));
    var base := BaseObj(ident, firstVisit, sessionStart, p.debug, p.errorMessage, env.language);
    var meta := EventMeta(p.eventType, p.event, env.page.location.search, env.query);
    SpreadConcat(base, meta + DocumentMeta(env.page), DeviceMeta(env.device));
    SpreadConcat(base, meta, DocumentMeta(env.page));
    DocumentMetaWins(before, env.page, env.device);
    assert DocumentMeta(env.page)[2] == (Ga4.TitleKey, Values.PStr(""));
    QueryParamsSendDefined(p, env, ident, firstVisit, sessionStart, Ga4.TitleKey);
  }

  /** The counts a run of hits reports, one per hit. */
  function HitCounts(local: map<string, string>, session: map<string, string>, envs: seq<Env>): seq<string>
    decreases |envs|
  {
    if envs == [] then []
    else
      var step := StepFor(local, session, envs[0]);
      [step.sessionCount] + HitCounts(step.local, step.session, envs[1..])
  }

  /** The counter moves on every hit: from a stored count `c` (or none, for
      `c` = 0), the hits report `c + 1`, `c + 2`, ... */
  lemma {:induction false} CountGrowsPerHit(local: map<string, string>, session: map<string, string>, envs: seq<Env>, c: nat)
    requires Storage.Lookup(session, CounterKey) == if c == 0 then None else Some(Text.NatToString(c))
    ensures var counts := HitCounts(local, session, envs);
            |counts| == |envs| && forall i :: 0 <= i < |envs| ==> counts[i] == Text.NatToString(c + i + 1)
    decreases |envs|
  {
    if envs != [] {
      var step := StepFor(local, session, envs[0]);
      StepCounts(local, session, envs[0], c);
      CountGrowsPerHit(step.local, step.session, envs[1..], c + 1);
      var rest := HitCounts(step.local, step.session, envs[1..]);
      HitCountsUnfold(local, session, envs);
      CountsShift(step.sessionCount, rest, c);
    }
  }

  /** Prepending the count `c + 1` to the counts from `c + 2` on gives the
      counts from `c + 1` on. */
  lemma CountsShift(first: string, rest: seq<string>, c: nat)
    requires first == Text.NatToString(c + 1)
    requires forall i :: 0 <= i < |rest| ==> rest[i] == Text.NatToString(c + 1 + i + 1)
    ensures forall i :: 0 <= i < |rest| + 1 ==> ([first] + rest)[i] == Text.NatToString(c + i + 1)
  {
    forall i | 0 < i < |rest| + 1 ensures ([first] + rest)[i] == Text.NatToString(c + i + 1) {
      assert ([first] + rest)[i] == rest[i - 1];
      assert c + 1 + (i - 1) + 1 == c + i + 1;
    }
  }

  /** One step of `HitCounts`. */
  lemma HitCountsUnfold(local: map<string, string>, session: map<string, string>, envs: seq<Env>)
    requires envs != []
    ensures var step := StepFor(local, session, envs[0]);
            HitCounts(local, session, envs) == [step.sessionCount] + HitCounts(step.local, step.session, envs[1..])
  {
  }

  /** One hit from a stored count `c` (none for 0) reports and stores `c + 1`. */
  lemma StepCounts(local: map<string, string>, session: map<string, string>, env: Env, c: nat)
    requires Storage.Lookup(session, CounterKey) == if c == 0 then None else Some(Text.NatToString(c))
    ensures StepFor(local, session, env).sessionCount == Text.NatToString(c + 1)
    ensures Storage.Lookup(StepFor(local, session, env).session, CounterKey) == Some(Text.NatToString(c + 1))
  {
    if c == 0 {
      assert Text.NatToString(1) == "1";
    } else {
      Values.NextCountCounts(c);
    }
  }

  /** The two collectors on the same stored count `c`: the current one
      reports `c + 1` on both hits of a page load, this one `c + 1` and then
      `c + 2`. */
  lemma CountersCompared(local: map<string, string>, session: map<string, string>, c: nat,
                         gens: seq<(string, string)>, envs: seq<Env>)
    requires c > 0
    requires Storage.Lookup(session, Values.CounterKey) == Some(Text.NatToString(c))
    requires Storage.Lookup(session, CounterKey) == Some(Text.NatToString(c))
    requires |gens| == 2 && |envs| == 2
    requires forall i :: 0 <= i < |gens| ==> gens[i].0 != "" && gens[i].1 != ""
    ensures Ga4.PageLoadCounts(local, session, true, gens) == [Text.NatToString(c + 1), Text.NatToString(c + 1)]
    ensures HitCounts(local, session, envs) == [Text.NatToString(c + 1), Text.NatToString(c + 2)]
  {
    Ga4.CountOncePerPageLoad(local, session, gens);
    Values.NextCountCounts(c);
    CountGrowsPerHit(local, session, envs, c);
  }

  /** The test `percentage < 90` fails, so the callback goes on. With no
      track length the division gives NaN (at the top) or an infinity, and
      only minus infinity stops the callback. */
  function ScrollReached(v: Utility.ScrollView): (r: bool)
    ensures var scrollTop := if v.pageYOffset != 0.0 then v.pageYOffset else v.bodyScrollTop;
            var trackLength := Utility.DocumentHeight(v.heights) - v.innerHeight;
            trackLength != 0 ==> (r <==> scrollTop / trackLength as real * 100.0 >= 90.0)
  {
    var scrollTop := if v.pageYOffset != 0.0 then v.pageYOffset else v.bodyScrollTop;
    var trackLength := Utility.DocumentHeight(v.heights) - v.innerHeight;
    if trackLength == 0 then scrollTop >= 0.0
    else (scrollTop / trackLength as real * 100.0).Floor >= 90
  }

  /** A page that cannot scroll passes the threshold at the top. */
  lemma NoTrackLengthPasses(v: Utility.ScrollView)
    requires Utility.DocumentHeight(v.heights) == v.innerHeight
    requires v.pageYOffset == 0.0 && v.bodyScrollTop == 0.0
    ensures ScrollReached(v)
  {
  }

  /** The collector's module state: the dev-build flag, the first-visit and
      session-start flags read once at load, the debounced scroll listener. */
  class LegacyTracker {
    const store: Values.IdentityStore
    const devBuild: bool
    const firstVisit: bool
    const sessionStart: bool
    const scrollTimer: Utility.Debouncer<()>
    var scrollBound: bool
    /** The hits handed to the beacon API, in order. */
    var sent: seq<Ga4.Hit>
    /** The times the scroll callback passed its threshold. */
    ghost var scrollPassed: nat

    ghost predicate Valid()
      reads this, scrollTimer
    {
      (scrollTimer.pending.Some? ==> scrollBound)
      && scrollPassed <= 1 && (scrollPassed == 1 <==> !scrollBound)
    }

    /** The module loads: the flags are read from storage and the scroll
        listener is attached. */
    constructor (store: Values.IdentityStore, devBuild: bool)
      ensures Valid() && fresh(scrollTimer)
      ensures this.store == store && this.devBuild == devBuild
      ensures firstVisit <==> Storage.Lookup(store.local, ClientKey).None?
      ensures sessionStart <==> Storage.Lookup(store.session, SessionKey).None?
      ensures scrollBound && sent == [] && scrollPassed == 0
    {
      this.store := store;
      this.devBuild := devBuild;
      firstVisit := Storage.Lookup(store.local, ClientKey).None?;
      sessionStart := Storage.Lookup(store.session, SessionKey).None?;
      scrollTimer := new Utility.Debouncer<()>();
      scrollBound := true;
      sent := [];
      scrollPassed := 0;
    }

    /** `track(props)`. In a dev build without `debug` nothing happens.
        Otherwise the hit is built, moving the session counter, and handed
        to the beacon API; a throwing beacon sends nothing, but the counter
        has already moved. */
    method Track(props: Option<Props>, env: Env) returns (hit: Option<Ga4.Hit>)
      requires Valid()
      modifies this, store
      ensures Valid()
      ensures var p := WithDefaults(props);
              devBuild && !p.debug ==> (hit.None? && sent == old(sent)
                                        && store.local == old(store.local) && store.session == old(store.session))
      ensures var p := WithDefaults(props);
              var ident := StepFor(old(store.local), old(store.session), env);
              !(devBuild && !p.debug) ==>
                store.local == ident.local && store.session == ident.session
                && (env.beaconThrows ==> hit.None? && sent == old(sent))
                && (!env.beaconThrows ==>
                      hit == Some(Ga4.Hit(Ga4.AnalyticsEndpoint, QueryParams(p, env, ident, firstVisit, sessionStart)))
                      && sent == old(sent) + [hit.value])
      ensures scrollBound == old(scrollBound) && scrollPassed == old(scrollPassed)
    {
      var p := WithDefaults(props);
      if devBuild && !p.debug {
        return None;
      }
      var ident := Identify(env);
      if env.beaconThrows {
        return None;
      }
      hit := Some(Ga4.Hit(Ga4.AnalyticsEndpoint, QueryParams(p, env, ident, firstVisit, sessionStart)));
      Send(hit.value);
    }

    /** `navigator.sendBeacon(url)`: the hit joins the sent ones. */
    method Send(hit: Ga4.Hit)
      requires Valid()
      modifies this
      ensures Valid() && sent == old(sent) + [hit]
      ensures scrollBound == old(scrollBound) && scrollPassed == old(scrollPassed)
    {
      sent := sent + [hit];
    }

    /** The storage side of `getQueryParams`: page id, client id, session id
        and session count, in that order. */
    method Identify(env: Env) returns (ident: Identity)
      modifies store
      ensures ident == StepFor(old(store.local), old(store.session), env)
      ensures store.local == ident.local && store.session == ident.session
    {
      var pageId := store.GetSessionId(PageKey, SessionDraw(env.pageDraw));
      var clientId := store.GetClientId(ClientKey, env.clientGen);
      var sessionId := store.GetSessionId(SessionKey, SessionDraw(env.sessionDraw));
      var sessionCount := store.GetSessionCount(CounterKey);
      ident := Identity(pageId, clientId, sessionId, sessionCount, store.local, store.session);
    }

    /** `error(message, fatal)`: an `exception` hit carrying the message. */
    method Error(message: string, fatal: bool, env: Env) returns (hit: Option<Ga4.Hit>)
      requires Valid()
      modifies this, store
      ensures Valid()
      ensures devBuild ==> hit.None? && sent == old(sent)
                           && store.local == old(store.local) && store.session == old(store.session)
      ensures var p := Settled(ExceptionType, None, DebugActive, Some(message));
              var ident := StepFor(old(store.local), old(store.session), env);
              !devBuild ==>
                store.local == ident.local && store.session == ident.session
                && (env.beaconThrows ==> hit.None? && sent == old(sent))
                && (!env.beaconThrows ==>
                      hit == Some(Ga4.Hit(Ga4.AnalyticsEndpoint, QueryParams(p, env, ident, firstVisit, sessionStart)))
                      && sent == old(sent) + [hit.value])
      ensures scrollBound == old(scrollBound) && scrollPassed == old(scrollPassed)
    {
      hit := Track(Some(Props(Some(ExceptionType), None, None, Some(message))), env);
    }

    /** The `scroll` listener, while attached: (re)start the debounce timer. */
    method OnScroll()
      requires Valid()
      modifies scrollTimer
      ensures Valid()
      ensures scrollTimer.pending == if scrollBound then Some(()) else old(scrollTimer.pending)
    {
      if scrollBound {
        scrollTimer.Invoke(());
      }
    }

    /** The debounce delay runs out. The pending callback, if any, tests the
        threshold; past it, it tracks a `scroll` event with
        `percent_scrolled` 90 and detaches the listener (even when the dev
        build makes the track a no-op). A throwing beacon stops the callback
        before the listener is removed, so it stays attached. */
    method OnScrollTimerElapsed(view: Utility.ScrollView, env: Env) returns (hit: Option<Ga4.Hit>)
      requires Valid()
      modifies this, store, scrollTimer
      ensures Valid()
      ensures scrollTimer.pending == None
      ensures old(scrollTimer.pending).None? || !ScrollReached(view) ==>
        (hit.None? && sent == old(sent) && scrollBound == old(scrollBound) && scrollPassed == old(scrollPassed)
         && store.local == old(store.local) && store.session == old(store.session))
      ensures old(scrollTimer.pending).Some? && ScrollReached(view) ==>
        var p := Settled(Ga4.ScrollEventName, Some([(Ga4.PercentScrolledKey, Values.PNum(90))]), DebugActive, None);
        var ident := StepFor(old(store.local), old(store.session), env);
        old(scrollBound)
        && (devBuild ==> hit.None? && sent == old(sent) && !scrollBound && scrollPassed == 1
                         && store.local == old(store.local) && store.session == old(store.session))
        && (!devBuild ==> store.local == ident.local && store.session == ident.session)
        && (!devBuild && env.beaconThrows ==> hit.None? && sent == old(sent)
                                              && scrollBound && scrollPassed == old(scrollPassed))
        && (!devBuild && !env.beaconThrows ==>
              hit == Some(Ga4.Hit(Ga4.AnalyticsEndpoint, QueryParams(p, env, ident, firstVisit, sessionStart)))
              && sent == old(sent) + [hit.value] && !scrollBound && scrollPassed == 1)
    {
      var fired := scrollTimer.Elapsed();
      if fired.None? || !ScrollReached(view) {
        return None;
      }
      var props := Some(Props(Some(Ga4.ScrollEventName), Some([(Ga4.PercentScrolledKey, Values.PNum(90))]), None, None));
      assert WithDefaults(props) == Settled(Ga4.ScrollEventName, Some([(Ga4.PercentScrolledKey, Values.PNum(90))]), DebugActive, None);
      hit := Track(props, env);
      if !devBuild && env.beaconThrows {
        return;
      }
      DetachScroll();
    }

    /** `removeEventListener('scroll', ...)`: the callback will not run again. */
    method DetachScroll()
      requires Valid() && scrollBound && scrollTimer.pending == None
      modifies this
      ensures Valid() && !scrollBound && scrollPassed == old(scrollPassed) + 1 && sent == old(sent)
    {
      scrollBound := false;
      scrollPassed := scrollPassed + 1;
    }
  }

  /** Once the scroll callback has passed its threshold, further scrolling
      and timers send nothing. */
  method ScrollOnce(t: LegacyTracker, view: Utility.ScrollView, env: Env) returns (hit: Option<Ga4.Hit>)
    requires t.Valid() && t.scrollPassed == 1
    modifies t, t.store, t.scrollTimer
    ensures t.Valid() && hit.None? && t.sent == old(t.sent)
  {
    t.OnScroll();
    hit := t.OnScrollTimerElapsed(view, env);
  }
}
