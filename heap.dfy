/** The Heap collector: `track` sends a page view (or an event) as query
    entries, and the click listener, bound once, sends a `click` event whose
    parameter names carry a per-click counter and whose hierarchy string
    fingerprints the clicked element's ancestors. */
module Heap {
  import opened Base
  import Text
  import Values
  import Utility
  import Args

  const AnalyticsEndpoint := "https://heapanalytics.com/h"
  const TextLimit := 64
  const BlockedTags: seq<string> := ["html", "body"]
  const ViewType := "view"
  const ClickType := "click"

  // The query parameter names.
  const AppIdKey := "a"
  const TargetClassKey := "c"
  const DomainKey := "d"
  const PathKey := "h"
  const TargetTagKey := "n"
  const ReferrerKey := "r"
  const TitleKey := "t"
  const TargetTextKey := "x"
  const HierarchyKey := "y"
  const TimeStampKey := "ts"
  const VersionKey := "tv"
  const UserIdKey := "u"
  const SessionIdKey := "s"
  const SentTimeKey := "st"
  const ViewIdKey := "v"
  const PreviousPageKey := "pr"
  /** The name every flattened page entry is sent under. */
  const PageParamKey := "pp"

  /** One attribute of an element. */
  datatype Attr = Attr(name: string, value: string)

  /** The parts of a DOM element the collector reads. `tagName` is `None`
      for a node that has none; `parentTagName` is the parent element's
      tag, `None` without a parent element. */
  datatype Element = Element(tagName: Option<string>, parentTagName: Option<string>, className: string,
                             attributes: Option<seq<Attr>>, textContent: Option<string>, href: Option<string>)

  /** `getTagName(element)`: the tag, or the parent's, lower-cased. `None`:
      neither exists and `toLowerCase` is called on `undefined`, which throws. */
  function GetTagName(e: Element): (r: Option<string>)
    ensures Truthy(e.tagName) ==> r == Some(Text.ToLower(e.tagName.value))
    ensures !Truthy(e.tagName) ==> r == if e.parentTagName.Some? then Some(Text.ToLower(e.parentTagName.value)) else None
  {
    if Truthy(e.tagName) then Some(Text.ToLower(e.tagName.value))
    else if e.parentTagName.Some? then Some(Text.ToLower(e.parentTagName.value))
    else None
  }

  /** The class names written as `.name;` one after the other. */
  function ClassSegments(parts: seq<string>): string
    decreases |parts|
  {
    if parts == [] then "" else "." + parts[0] + ";" + ClassSegments(parts[1..])
  }

  /** `getClassList(className)`: an empty class name unchanged, otherwise
      `.` then the space-separated names joined by `;.` then `;`. */
  function GetClassList(className: string): (r: string)
    ensures className == "" ==> r == ""
  {
    if className == "" then className else "." + Text.Join(Text.Split(className, ' '), ";.") + ";"
  }

  /** Joining with `;.` between a leading `.` and a closing `;` writes each
      name as `.name;`. */
  lemma {:induction false} JoinIsSegments(parts: seq<string>)
    requires parts != []
    ensures "." + Text.Join(parts, ";.") + ";" == ClassSegments(parts)
    decreases |parts|
  {
    if |parts| == 1 {
      assert ClassSegments(parts[1..]) == "";
    } else {
      JoinIsSegments(parts[1..]);
      calc {
        "." + Text.Join(parts, ";.") + ";";
        "." + (parts[0] + ";." + Text.Join(parts[1..], ";.")) + ";";
        "." + parts[0] + ";" + ("." + Text.Join(parts[1..], ";.") + ";");
        "." + parts[0] + ";" + ClassSegments(parts[1..]);
      }
    }
  }

  /** The class list of a non-empty class name is one `.name;` per
      space-separated name, and holds no space. */
  lemma ClassListSegments(className: string)
    requires className != ""
    ensures GetClassList(className) == ClassSegments(Text.Split(className, ' '))
    ensures ' ' !in GetClassList(className)
  {
    var parts := Text.Split(className, ' ');
    JoinIsSegments(parts);
    Text.SplitPartsExcludeSeparator(className, ' ');
    SegmentsExclude(parts, ' ');
  }

  lemma {:induction false} SegmentsExclude(parts: seq<string>, c: char)
    requires c != '.' && c != ';'
    requires forall i :: 0 <= i < |parts| ==> c !in parts[i]
    ensures c !in ClassSegments(parts)
    decreases |parts|
  {
    if parts != [] {
      SegmentsExclude(parts[1..], c);
    }
  }

  /** The value the attribute reduce leaves under `name`: the last one given. */
  function LastValue(attrs: seq<Attr>, name: string): (r: Option<string>)
    ensures r.Some? ==> Attr(name, r.value) in attrs
    decreases |attrs|
  {
    if attrs == [] then None
    else if attrs[|attrs| - 1].name == name then Some(attrs[|attrs| - 1].value)
    else LastValue(attrs[..|attrs| - 1], name)
  }

  /** An attribute named `name` exists exactly when the reduce leaves a value,
      and that value is the one given by the last attribute of that name. */
  lemma {:induction false} LastValueIsLast(attrs: seq<Attr>, name: string)
    ensures LastValue(attrs, name).Some? <==> exists i :: 0 <= i < |attrs| && attrs[i].name == name
    ensures LastValue(attrs, name).Some? ==>
      exists i :: 0 <= i < |attrs| && attrs[i] == Attr(name, LastValue(attrs, name).value)
                  && forall j :: i < j < |attrs| ==> attrs[j].name != name
    decreases |attrs|
  {
    if attrs != [] && attrs[|attrs| - 1].name != name {
      var init := attrs[..|attrs| - 1];
      LastValueIsLast(init, name);
      assert forall i :: 0 <= i < |init| ==> init[i] == attrs[i];
    }
  }

  /** `[href=...];` for a truthy `href`, nothing otherwise. */
  function HrefSegment(href: Option<string>): string {
    if Truthy(href) then "[href=" + href.value + "];" else ""
  }

  /** `getAttributeValue(attributes)`: only the (last) `href` attribute counts. */
  function GetAttributeValue(attributes: Option<seq<Attr>>): (r: string)
    ensures r == HrefSegment(LastValue(attributes.GetOr([]), "href"))
    ensures r == "" <==> !Truthy(LastValue(attributes.GetOr([]), "href"))
  {
    HrefSegment(LastValue(attributes.GetOr([]), "href"))
  }

  /** Attributes other than `href` do not change the attribute segment. */
  lemma OtherAttributesIgnored(attrs: seq<Attr>, extra: Attr)
    requires extra.name != "href"
    ensures GetAttributeValue(Some(attrs + [extra])) == GetAttributeValue(Some(attrs))
  {
    assert (attrs + [extra])[..|attrs|] == attrs;
  }

  /** A node that appears in the hierarchy: it has a tag, and the tag is not
      `html` or `body`. */
  predicate Kept(e: Element) {
    Truthy(e.tagName) && Text.ToLower(e.tagName.value) !in BlockedTags
  }

  /** The filter drops exactly the nodes without a tag and the `html` and
      `body` nodes, whatever the case of their tag. */
  lemma KeptTags(e: Element)
    ensures Kept(e) <==> Truthy(e.tagName) && Text.ToLower(e.tagName.value) != "html" && Text.ToLower(e.tagName.value) != "body"
    ensures Kept(e) ==> GetTagName(e) == Some(Text.ToLower(e.tagName.value))
  {
  }

  /** One node's segment: `@tag;` then its class list and attribute value, then `|`. */
  function Segment(e: Element): (r: string)
    requires Truthy(e.tagName)
    ensures "@" + Text.ToLower(e.tagName.value) + ";" <= r
    ensures |r| >= 3 && r[|r| - 1] == '|'
  {
    "@" + Text.ToLower(e.tagName.value) + ";" + GetClassList(e.className) + GetAttributeValue(e.attributes) + "|"
  }

  /** No node of the run passes the filter. */
  predicate NoneKept(nodes: seq<Element>)
    decreases |nodes|
  {
    nodes == [] || (!Kept(nodes[0]) && NoneKept(nodes[1..]))
  }

  /** `NoneKept` is the filter leaving nothing: every node is dropped. */
  lemma {:induction false} NoneKeptAll(nodes: seq<Element>)
    ensures NoneKept(nodes) <==> forall i :: 0 <= i < |nodes| ==> !Kept(nodes[i])
    decreases |nodes|
  {
    if nodes != [] {
      NoneKeptAll(nodes[1..]);
      assert forall i :: 0 < i < |nodes| ==> nodes[i] == nodes[1..][i - 1];
    }
  }

  /** The filter and the reduce of `getElementHierachy`: the segments of the
      kept nodes, in the order given. */
  function Hierarchy(nodes: seq<Element>): (r: string)
    ensures r == "" <==> NoneKept(nodes)
    decreases |nodes|
  {
    if nodes == [] then ""
    else (if Kept(nodes[0]) then Segment(nodes[0]) else "") + Hierarchy(nodes[1..])
  }

  /** The hierarchy of two runs of nodes is the first's followed by the second's. */
  lemma {:induction false} HierarchyAppend(a: seq<Element>, b: seq<Element>)
    ensures Hierarchy(a + b) == Hierarchy(a) + Hierarchy(b)
    decreases |a|
  {
    if a == [] {
      assert a + b == b;
    } else {
      var head := if Kept(a[0]) then Segment(a[0]) else "";
      calc {
        Hierarchy(a + b);
        == { assert (a + b)[0] == a[0]; assert (a + b)[1..] == a[1..] + b; }
        head + Hierarchy(a[1..] + b);
        == { HierarchyAppend(a[1..], b); }
        head + (Hierarchy(a[1..]) + Hierarchy(b));
        ==
        (head + Hierarchy(a[1..])) + Hierarchy(b);
      }
    }
  }

  /** Nodes that are dropped by the filter leave no trace. */
  lemma DroppedNodeIgnored(a: seq<Element>, e: Element, b: seq<Element>)
    requires !Kept(e)
    ensures Hierarchy(a + [e] + b) == Hierarchy(a + b)
  {
    assert ([e] + b)[0] == e && ([e] + b)[1..] == b;
    assert Hierarchy([e] + b) == Hierarchy(b);
    assert a + [e] + b == a + ([e] + b);
    HierarchyAppend(a, [e] + b);
    HierarchyAppend(a, b);
  }

  function Reverse<T>(s: seq<T>): (r: seq<T>)
    ensures |r| == |s| && forall i :: 0 <= i < |s| ==> r[i] == s[|s| - 1 - i]
  {
    seq(|s|, i requires 0 <= i < |s| => s[|s| - 1 - i])
  }

  /** `getElementHierachy(path)` for an event path listed from the target up
      to the root: the path is reversed in place, so the hierarchy reads
      from the root down to the target. */
  method GetElementHierarchy(path: array<Element>) returns (r: string)
    modifies path
    ensures path[..] == Reverse(old(path[..]))
    ensures r == Hierarchy(Reverse(old(path[..])))
  {
    var original := path[..];
    forall i | 0 <= i < path.Length {
      path[i] := original[path.Length - 1 - i];
    }
    r := Hierarchy(path[..]);
  }

  /** A target inside an element: the hierarchy lists the outer element first. */
  lemma RootFirst(target: Element, parent: Element)
    requires Kept(target) && Kept(parent)
    ensures Hierarchy(Reverse([target, parent])) == Segment(parent) + Segment(target)
  {
    assert Reverse([target, parent]) == [parent, target];
    assert [parent, target][1..] == [target];
    assert [target][1..] == [];
    assert Hierarchy([target]) == Segment(target) + "";
  }

  /** `(element.textContent || '').substring(0, textLimit)`. */
  function ClippedText(text: Option<string>): (r: string)
    ensures |r| <= TextLimit
    ensures r <= text.GetOr("")
    ensures |text.GetOr("")| <= TextLimit ==> r == text.GetOr("")
  {
    var s := text.GetOr("");
    if |s| <= TextLimit then s else s[..TextLimit]
  }

  /** `getElementData(element)`: six entries in a fixed order, or `None`
      when the element's tag cannot be read (the call throws). */
  function GetElementData(e: Element, now: int): (r: Option<seq<Entry>>)
    ensures r.Some? <==> GetTagName(e).Some?
    ensures r.Some? ==> |r.value| == 6
    ensures r.Some? ==> r.value[0] == (TitleKey, Some(ClickType)) && r.value[1] == (TargetTagKey, GetTagName(e))
    ensures r.Some? ==> r.value[2] == (TargetTextKey, Some(ClippedText(e.textContent)))
    ensures r.Some? ==> r.value[3] == (TargetClassKey, Some(e.className)) && r.value[4] == (PathKey, e.href)
    ensures r.Some? ==> r.value[5] == (TimeStampKey, Some(Text.IntToString(now - 500)))
  {
    var tag := GetTagName(e);
    if tag.None? then None
    else Some([(TitleKey, Some(ClickType)), (TargetTagKey, tag), (TargetTextKey, Some(ClippedText(e.textContent))),
               (TargetClassKey, Some(e.className)), (PathKey, e.href), (TimeStampKey, Some(Text.IntToString(now - 500)))])
  }

  /** The page entries `getPageData` starts from. */
  function PagePairs(doc: Values.DocumentInfo, now: int): (r: seq<(string, string)>)
    ensures |r| == 7
  {
    [(DomainKey, doc.hostname), (TitleKey, doc.title), (PathKey, doc.pathname), (ReferrerKey, doc.referrer),
     (PreviousPageKey, doc.referrer), (TimeStampKey, Text.IntToString(now)), ("z", "2")]
  }

  /** Each pair `[k, v]` becomes `[pp, k], [pp, v]`. */
  function Flatten(pairs: seq<(string, string)>): (r: seq<(string, string)>)
    ensures |r| == 2 * |pairs|
    ensures forall i :: 0 <= i < |pairs| ==> r[2 * i] == (PageParamKey, pairs[i].0) && r[2 * i + 1] == (PageParamKey, pairs[i].1)
    decreases |pairs|
  {
    if pairs == [] then []
    else
      var rest := Flatten(pairs[1..]);
      assert forall i :: 1 <= i < |pairs| ==> pairs[i] == pairs[1..][i - 1];
      [(PageParamKey, pairs[0].0), (PageParamKey, pairs[0].1)] + rest
  }

  /** `getPageData(isEvent)`: the page pairs, flattened for an event. */
  function GetPageData(isEvent: bool, doc: Values.DocumentInfo, now: int): (r: seq<(string, string)>)
    ensures !isEvent ==> r == PagePairs(doc, now)
    ensures isEvent ==> r == Flatten(PagePairs(doc, now)) && |r| == 14
  {
    if isEvent then Flatten(PagePairs(doc, now)) else PagePairs(doc, now)
  }

  /** Every flattened entry is sent under the page parameter name. */
  lemma FlattenKeys(pairs: seq<(string, string)>)
    ensures forall i :: 0 <= i < |Flatten(pairs)| ==> Flatten(pairs)[i].0 == PageParamKey
  {
    var r := Flatten(pairs);
    forall i | 0 <= i < |r| ensures r[i].0 == PageParamKey {
      if i % 2 == 0 {
        assert r[2 * (i / 2)] == (PageParamKey, pairs[i / 2].0);
      } else {
        assert r[2 * (i / 2) + 1] == (PageParamKey, pairs[i / 2].1);
      }
    }
  }

  function AsEntries(pairs: seq<(string, string)>): (r: seq<Entry>)
    ensures |r| == |pairs| && forall i :: 0 <= i < |pairs| ==> r[i] == (pairs[i].0, Some(pairs[i].1))
  {
    seq(|pairs|, i requires 0 <= i < |pairs| => (pairs[i].0, Some(pairs[i].1)))
  }

  /** What a hit reads besides storage: the document, the random numbers
      behind the client, session and view ids, the clock and the configured id. */
  datatype Env = Env(page: Values.Page, clientRaw: nat, sessionRaw: nat, viewRaw: nat, now: int, globalId: Option<string>)

  /** The storage reads and writes of one hit: the client id, then the session id. */
  datatype Identity = Identity(clientId: string, sessionId: string, local: map<string, string>, session: map<string, string>)

  function IdentityStep(local: map<string, string>, session: map<string, string>, clientGen: string, sessionGen: string): (r: Identity)
    ensures r.clientId == Values.GetOrCreate(local, Values.ClientKey, clientGen).id
    ensures r.local == Values.GetOrCreate(local, Values.ClientKey, clientGen).storage
    ensures r.sessionId == Values.GetOrCreate(session, Values.SessionKey, sessionGen).id
    ensures r.session == Values.GetOrCreate(session, Values.SessionKey, sessionGen).storage
  {
    var c := Values.GetOrCreate(local, Values.ClientKey, clientGen);
    var s := Values.GetOrCreate(session, Values.SessionKey, sessionGen);
    Identity(c.id, s.id, c.storage, s.storage)
  }

  /** The entries of `getQueryParams` before the page data. */
  function BaseEntries(trackingId: string, ident: Identity, viewId: string, now: int): (r: seq<Entry>)
    ensures |r| == 8
  {
    [(AppIdKey, Some(trackingId)), (VersionKey, Some("4.0")), (UserIdKey, Some(ident.clientId)),
     (SessionIdKey, Some(ident.sessionId)), (ViewIdKey, Some(viewId)), (SentTimeKey, Some(Text.IntToString(now))),
     ("b", Some("web")), ("sp", Some("r"))]
  }

  /** The array `getQueryParams` builds before the deletes: base entries,
      page data and the event's entries. */
  function RawPayload(trackingId: string, event: Option<seq<Entry>>, env: Env, ident: Identity): (r: seq<Entry>)
    ensures |r| == 8 + (if event.Some? then 14 else 7) + |event.GetOr([])|
    ensures r[0] == (AppIdKey, Some(trackingId))
    ensures r[|r| - |event.GetOr([])|..] == event.GetOr([])
    ensures if event.Some? then r[8 + 7] == (PageParamKey, Some(env.page.referrer))
            else r[8 + 3] == (ReferrerKey, Some(env.page.referrer))
  {
    var doc := Values.GetDocument(env.page);
    var page := GetPageData(event.Some?, doc, env.now);
    assert PagePairs(doc, env.now)[3] == (ReferrerKey, env.page.referrer);
    assert event.Some? ==> page[2 * 3 + 1] == (PageParamKey, env.page.referrer);
    BaseEntries(trackingId, ident, Utility.GetRandomId(env.viewRaw, Utility.MaxIdLength), env.now)
    + AsEntries(page)
    + event.GetOr([])
  }

  /** `getQueryParams(trackingId, { event })` as evidently intended: the
      entries whose value is falsy are dropped. */
  function QueryPayload(trackingId: string, event: Option<seq<Entry>>, env: Env, ident: Identity): (r: seq<(string, string)>)
    ensures forall i :: 0 <= i < |r| ==> r[i].1 != ""
    ensures |r| <= |RawPayload(trackingId, event, env, ident)|
  {
    KeepTruthy(RawPayload(trackingId, event, env, ident))
  }

  /** An entry is sent exactly when the array holds it with a non-empty value. */
  lemma QueryPayloadDropsFalsy(trackingId: string, event: Option<seq<Entry>>, env: Env, ident: Identity, k: string, v: string)
    ensures (k, v) in QueryPayload(trackingId, event, env, ident)
            <==> v != "" && (k, Some(v)) in RawPayload(trackingId, event, env, ident)
  {
    KeepTruthyMembership(RawPayload(trackingId, event, env, ident), k, v);
  }

  /** The entries keep their order: base entries, then page data, then the
      event, each without its falsy values. */
  lemma QueryPayloadOrder(trackingId: string, event: Option<seq<Entry>>, env: Env, ident: Identity)
    ensures var base := BaseEntries(trackingId, ident, Utility.GetRandomId(env.viewRaw, Utility.MaxIdLength), env.now);
            var page := AsEntries(GetPageData(event.Some?, Values.GetDocument(env.page), env.now));
            QueryPayload(trackingId, event, env, ident) == KeepTruthy(base) + KeepTruthy(page) + KeepTruthy(event.GetOr([]))
  {
    var base := BaseEntries(trackingId, ident, Utility.GetRandomId(env.viewRaw, Utility.MaxIdLength), env.now);
    var page := AsEntries(GetPageData(event.Some?, Values.GetDocument(env.page), env.now));
    KeepTruthyAppend(base + page, event.GetOr([]));
    KeepTruthyAppend(base, page);
  }

  /** `getQueryParams` as written. `delete payload[index]` leaves a hole,
      the hole iterates as `undefined`, and `new URLSearchParams` throws a
      TypeError when it converts `undefined` to a name-value pair. `None`
      is that throw; without a falsy value the array is passed whole. */
  function QueryPayloadAsWritten(trackingId: string, event: Option<seq<Entry>>, env: Env, ident: Identity): (r: Option<seq<(string, string)>>)
    ensures var raw := RawPayload(trackingId, event, env, ident);
            r.Some? <==> forall i :: 0 <= i < |raw| ==> Truthy(raw[i].1)
  {
    var raw := RawPayload(trackingId, event, env, ident);
    if forall i :: 0 <= i < |raw| ==> Truthy(raw[i].1) then
      Some(seq(|raw|, i requires 0 <= i < |raw| => (raw[i].0, raw[i].1.GetOr(""))))
    else None
  }

  /** Where the code as written does not throw, it sends what the intended
      filter sends. */
  lemma AsWrittenAgreesWithoutHoles(trackingId: string, event: Option<seq<Entry>>, env: Env, ident: Identity)
    ensures var w := QueryPayloadAsWritten(trackingId, event, env, ident);
            w.Some? ==> w.value == QueryPayload(trackingId, event, env, ident)
  {
    var raw := RawPayload(trackingId, event, env, ident);
    if forall i :: 0 <= i < |raw| ==> Truthy(raw[i].1) {
      KeepTruthyAll(raw);
    }
  }

  /** A visit with no referrer (a typed address, a bookmark) leaves the
      referrer entries empty, so as written its hit throws and is never sent. */
  lemma EmptyReferrerThrows(trackingId: string, event: Option<seq<Entry>>, env: Env, ident: Identity)
    requires env.page.referrer == ""
    ensures QueryPayloadAsWritten(trackingId, event, env, ident).None?
  {
    var raw := RawPayload(trackingId, event, env, ident);
    assert !Truthy(raw[if event.Some? then 8 + 7 else 8 + 3].1);
  }

  /** `param + eventCounter` on every name. */
  function Suffixed(entries: seq<Entry>, counter: nat): (r: seq<Entry>)
    ensures |r| == |entries|
    ensures forall i :: 0 <= i < |entries| ==> r[i] == (entries[i].0 + Text.NatToString(counter), entries[i].1)
  {
    seq(|entries|, i requires 0 <= i < |entries| => (entries[i].0 + Text.NatToString(counter), entries[i].1))
  }

  /** Two clicks with different counters never send a parameter under the same name. */
  lemma SuffixesDistinguishClicks(key: string, m: nat, n: nat)
    requires m != n
    ensures key + Text.NatToString(m) != key + Text.NatToString(n)
  {
    if key + Text.NatToString(m) == key + Text.NatToString(n) {
      assert Text.NatToString(m) == (key + Text.NatToString(m))[|key|..];
      assert Text.NatToString(n) == (key + Text.NatToString(n))[|key|..];
      Text.DigitsValueOfNatToString(m);
      Text.DigitsValueOfNatToString(n);
    }
  }

  /** `{ type, event }`; `Some` where the key is present. */
  datatype Props = Props(eventType: Option<string>, event: Option<seq<Entry>>)

  /** `{ type: 'view', ...props }`. */
  function WithDefaults(props: Option<Props>): (r: Props)
    ensures r.event == if props.Some? then props.value.event else None
    ensures r.eventType == if props.Some? && props.value.eventType.Some? then props.value.eventType else Some(ViewType)
  {
    if props.None? then Props(Some(ViewType), None)
    else Props(if props.value.eventType.Some? then props.value.eventType else Some(ViewType), props.value.event)
  }

  /** A request sent with `window.fetch`: the endpoint and the query entries. */
  datatype Hit = Hit(endpoint: string, query: seq<(string, string)>)

  class Tracker {
    const store: Values.IdentityStore
    var eventsBound: bool
    /** The tracking id the click handler was bound with. */
    var boundId: Option<string>
    var eventCounter: nat
    /** The requests sent, in order. */
    var sent: seq<Hit>

    ghost predicate Valid()
      reads this
    {
      (eventsBound <==> boundId.Some?) && (eventsBound ==> Truthy(boundId))
    }

    constructor (store: Values.IdentityStore)
      ensures Valid() && this.store == store && !eventsBound && eventCounter == 0 && sent == []
    {
      this.store := store;
      eventsBound := false;
      boundId := None;
      eventCounter := 0;
      sent := [];
    }

    /** `bindEvents(trackingId)`: the click listener is attached once. */
    method BindEvents(trackingId: string)
      requires Valid() && trackingId != ""
      modifies this
      ensures Valid() && eventsBound
      ensures boundId == if old(eventsBound) then old(boundId) else Some(trackingId)
      ensures eventCounter == old(eventCounter) && sent == old(sent)
    {
      if eventsBound {
        return;
      }
      eventsBound := true;
      boundId := Some(trackingId);
    }

    /** `track(...args)`: without a truthy tracking id nothing is sent (an
        error is logged); otherwise one request goes out and the click
        listener is bound. The event type takes part in nothing sent. The
        payload is the intended `QueryPayload`; see `QueryPayloadAsWritten`
        for the hits the code as written fails to send. */
    method Track(args: seq<Args.Arg<Props>>, env: Env) returns (hit: Option<Hit>)
      requires Valid()
      modifies this, store
      ensures Valid()
      ensures var id := Args.TrackingId(args, env.globalId);
              !Truthy(id) ==> (hit.None? && sent == old(sent) && eventsBound == old(eventsBound)
                               && boundId == old(boundId)
                               && store.local == old(store.local) && store.session == old(store.session))
      ensures var id := Args.TrackingId(args, env.globalId);
              var ident := IdentityStep(old(store.local), old(store.session),
                                        Utility.GetRandomId(env.clientRaw, Utility.MaxIdLength),
                                        Utility.GetRandomId(env.sessionRaw, Utility.MaxIdLength));
              Truthy(id) ==>
                (hit == Some(Hit(AnalyticsEndpoint, QueryPayload(id.value, WithDefaults(Args.Props(args)).event, env, ident)))
                 && sent == old(sent) + [hit.value]
                 && store.local == ident.local && store.session == ident.session
                 && eventsBound && boundId == (if old(eventsBound) then old(boundId) else id))
      ensures eventCounter == old(eventCounter)
    {
      var trackingId := Args.TrackingId(args, env.globalId);
      var props := WithDefaults(Args.Props(args));
      if !Truthy(trackingId) {
        return None;
      }
      var clientId := store.GetClientId(Values.ClientKey, Utility.GetRandomId(env.clientRaw, Utility.MaxIdLength));
      var sessionId := store.GetSessionId(Values.SessionKey, Utility.GetRandomId(env.sessionRaw, Utility.MaxIdLength));
      var ident := Identity(clientId, sessionId, store.local, store.session);
      var queryParams := QueryPayload(trackingId.value, props.event, env, ident);
      hit := Some(Hit(AnalyticsEndpoint, queryParams));
      Send(hit.value);
      BindEvents(trackingId.value);
    }

    /** `window.fetch(url, { mode: 'no-cors' })`: the request joins the sent ones. */
    method Send(hit: Hit)
      requires Valid()
      modifies this
      ensures Valid() && sent == old(sent) + [hit]
      ensures eventsBound == old(eventsBound) && boundId == old(boundId) && eventCounter == old(eventCounter)
    {
      sent := sent + [hit];
    }

    /** The click listener, once bound: the target's data and the path's
        hierarchy, every name suffixed with the click counter, sent as a
        `click` event; then the counter moves on. A target whose tag cannot
        be read makes the handler throw before anything is sent. As in
        `Track`, the payload is the intended one. */
    method OnClickEvent(target: Element, path: array<Element>, env: Env) returns (hit: Option<Hit>)
      requires Valid()
      modifies this, store, path
      ensures Valid()
      ensures !old(eventsBound) || GetTagName(target).None? ==>
        (hit.None? && sent == old(sent) && eventCounter == old(eventCounter)
         && store.local == old(store.local) && store.session == old(store.session) && path[..] == old(path[..]))
      ensures old(eventsBound) && GetTagName(target).Some? ==>
        var data := GetElementData(target, env.now).value + [(HierarchyKey, Some(Hierarchy(Reverse(old(path[..])))))];
        var ident := IdentityStep(old(store.local), old(store.session),
                                  Utility.GetRandomId(env.clientRaw, Utility.MaxIdLength),
                                  Utility.GetRandomId(env.sessionRaw, Utility.MaxIdLength));
        hit == Some(Hit(AnalyticsEndpoint, QueryPayload(old(boundId).value, Some(Suffixed(data, old(eventCounter))), env, ident)))
        && sent == old(sent) + [hit.value]
        && eventCounter == old(eventCounter) + 1
        && path[..] == Reverse(old(path[..]))
        && store.local == ident.local && store.session == ident.session
      ensures eventsBound == old(eventsBound) && boundId == old(boundId)
    {
      if !eventsBound {
        return None;
      }
      var eventData := GetElementData(target, env.now);
      if eventData.None? {
        return None;
      }
      var hierarchy := GetElementHierarchy(path);
      var data := eventData.value + [(HierarchyKey, Some(hierarchy))];
      var props := Props(Some(ClickType), Some(Suffixed(data, eventCounter)));
      var args := [Args.StringArg(boundId.value), Args.ObjectArg(props)];
      assert Args.TrackingId(args, env.globalId) == boundId;
      assert WithDefaults(Args.Props(args)).event == props.event;
      hit := Track(args, env);
      eventCounter := eventCounter + 1;
    }
  }
}
