/** Identity and session state shared by the GA4 and Heap collectors: the
    get-or-create client and session ids, the session counter, the derived
    session state, the normalisation of event parameters and the document
    record. Persistent (`localStorage`) and session (`sessionStorage`)
    storage are two string maps owned by one `IdentityStore`. */
module Values {
  import opened Base
  import Text
  import Storage

  const ClientKey := "clientId"
  const SessionKey := "sessionId"
  const CounterKey := "sessionCount"

  /** The result of a get-or-create: the id returned and the storage afterwards. */
  datatype Created = Created(id: string, storage: map<string, string>)

  /** `getClientId`/`getSessionId`: a truthy stored value is returned and
      nothing is written; otherwise the generated id is stored and returned. */
  function GetOrCreate(m: map<string, string>, key: string, generated: string): (r: Created)
    ensures key in r.storage && r.storage[key] == r.id
    ensures forall k :: k != key ==> (k in r.storage <==> k in m) && (k in m ==> r.storage[k] == m[k])
    ensures Storage.Lookup(m, key).Some? ==> r == Created(Storage.Lookup(m, key).value, m)
    ensures Storage.Lookup(m, key).None? ==> r.id == generated
  {
    var stored := Storage.Lookup(m, key);
    if stored.Some? then Created(stored.value, m) else Created(generated, m[key := generated])
  }

  /** A second get-or-create returns the id of the first and writes nothing,
      whatever it generates, provided the first id was not empty. */
  lemma GetOrCreateTwice(m: map<string, string>, key: string, first: string, second: string)
    requires first != ""
    ensures var c1 := GetOrCreate(m, key, first);
            GetOrCreate(c1.storage, key, second) == c1
  {
    var c1 := GetOrCreate(m, key, first);
    assert c1.id != "";
  }

  /** `${+storedValue + 1}`: one more than the stored number; a stored value
      that is not a number gives `NaN`. */
  function Increment(stored: string): (r: string)
    ensures Text.ParseCount(stored).Some? ==> r == Text.NatToString(Text.ParseCount(stored).value + 1)
    ensures Text.ParseCount(stored).None? ==> r == "NaN"
  {
    var n := Text.ParseCount(stored);
    if n.Some? then Text.NatToString(n.value + 1) else "NaN"
  }

  /** The value `getSessionCount` writes for what it read: `'1'` when nothing
      is stored, else the stored number plus one. */
  function NextCount(stored: Option<string>): (r: string)
    ensures r != ""
    ensures stored.None? ==> r == "1"
    ensures stored.Some? ==> r == Increment(stored.value)
  {
    if stored.Some? then Increment(stored.value) else "1"
  }

  /** The counter read back after a write is one more than before. */
  lemma NextCountCounts(n: nat)
    ensures NextCount(Some(Text.NatToString(n))) == Text.NatToString(n + 1)
    ensures Text.ParseCount(NextCount(Some(Text.NatToString(n)))) == Some(n + 1)
  {
    Text.ParseCountOfNatToString(n);
    Text.ParseCountOfNatToString(n + 1);
  }

  /** `{ firstVisit, sessionStart, sessionCount }`; a flag is `true` where the
      source has `'1'` and `false` where it has `undefined`. */
  datatype SessionState = SessionState(firstVisit: bool, sessionStart: bool, sessionCount: string)

  /** What `getSessionState(firstEvent)` returns for the storage it starts from. */
  function SessionStateOf(local: map<string, string>, session: map<string, string>, firstEvent: bool): (st: SessionState)
    ensures st.firstVisit <==> Storage.Lookup(local, ClientKey).None?
    ensures st.sessionStart <==> Storage.Lookup(session, SessionKey).None?
    ensures firstEvent ==> st.sessionCount == NextCount(Storage.Lookup(session, CounterKey))
    ensures !firstEvent ==> st.sessionCount == Storage.Lookup(session, CounterKey).GetOr("1")
  {
    var stored := Storage.Lookup(session, CounterKey);
    SessionState(
      Storage.Lookup(local, ClientKey).None?,
      Storage.Lookup(session, SessionKey).None?,
      if firstEvent then NextCount(stored) else stored.GetOr("1"))
  }

  /** The session storage after `getSessionState(firstEvent)`: only a first
      event writes, and it writes the counter alone. */
  function SessionAfter(session: map<string, string>, firstEvent: bool, st: SessionState): (r: map<string, string>)
    ensures !firstEvent ==> r == session
    ensures firstEvent ==> CounterKey in r && r[CounterKey] == st.sessionCount
    ensures forall k :: k != CounterKey ==> Storage.Lookup(r, k) == Storage.Lookup(session, k)
  {
    if firstEvent then session[CounterKey := st.sessionCount] else session
  }

  /** From empty storage a first event reports a first visit, a session start
      and a count of `'1'`; a later event of the same load reports the same
      count and writes nothing. */
  lemma SessionStateFromEmpty()
    ensures SessionStateOf(map[], map[], true) == SessionState(true, true, "1")
    ensures var s1 := SessionAfter(map[], true, SessionState(true, true, "1"));
            s1 == map[CounterKey := "1"] && SessionStateOf(map[], s1, false).sessionCount == "1"
  {
    assert Storage.Lookup(map[CounterKey := "1"], CounterKey) == Some("1");
  }

  /** The count a first event reports is the one every later event of the
      page load reports: the increment happens once. */
  lemma SessionCountStable(local: map<string, string>, session: map<string, string>)
    ensures var st1 := SessionStateOf(local, session, true);
            var s1 := SessionAfter(session, true, st1);
            SessionStateOf(local, s1, false).sessionCount == st1.sessionCount
            && SessionAfter(s1, false, SessionStateOf(local, s1, false)) == s1
  {
    var st1 := SessionStateOf(local, session, true);
    assert Storage.Lookup(session[CounterKey := st1.sessionCount], CounterKey) == Some(st1.sessionCount);
  }

  /** The browser's two storage areas as the identity functions use them. */
  class IdentityStore {
    var local: map<string, string>
    var session: map<string, string>

    constructor (local: map<string, string>, session: map<string, string>)
      ensures this.local == local && this.session == session
    {
      this.local := local;
      this.session := session;
    }

    /** `getClientId(key)`, with the `getRandomId()` it draws passed in. */
    method GetClientId(key: string, generated: string) returns (id: string)
      modifies this
      ensures Created(id, local) == GetOrCreate(old(local), key, generated)
      ensures session == old(session)
    {
      var storedValue := Storage.Lookup(local, key);
      if storedValue.None? {
        local := local[key := generated];
        return generated;
      }
      id := storedValue.value;
    }

    /** `getSessionId(key)`: the same against session storage. */
    method GetSessionId(key: string, generated: string) returns (id: string)
      modifies this
      ensures Created(id, session) == GetOrCreate(old(session), key, generated)
      ensures local == old(local)
    {
      var storedValue := Storage.Lookup(session, key);
      if storedValue.None? {
        session := session[key := generated];
        return generated;
      }
      id := storedValue.value;
    }

    /** `getSessionCount(key)`: writes `'1'` or the stored number plus one and
        returns what it wrote. */
    method GetSessionCount(key: string) returns (count: string)
      modifies this
      ensures count == NextCount(Storage.Lookup(old(session), key))
      ensures session == old(session)[key := count]
      ensures local == old(local)
    {
      var sessionCount := "1";
      var storedValue := Storage.Lookup(session, key);
      if storedValue.Some? {
        sessionCount := Increment(storedValue.value);
      }
      session := session[key := sessionCount];
      count := sessionCount;
    }

    /** `getSessionState(firstEvent)`: flags read before any write, and the
        counter incremented only for a first event. */
    method GetSessionState(firstEvent: bool) returns (st: SessionState)
      modifies this
      ensures st == SessionStateOf(old(local), old(session), firstEvent)
      ensures session == SessionAfter(old(session), firstEvent, st)
      ensures local == old(local)
    {
      var firstVisit := Storage.Lookup(local, ClientKey).None?;
      var sessionStart := Storage.Lookup(session, SessionKey).None?;
      var sessionCount := Storage.Lookup(session, CounterKey).GetOr("1");
      if firstEvent {
        sessionCount := GetSessionCount(CounterKey);
      }
      st := SessionState(firstVisit, sessionStart, sessionCount);
    }
  }

  /** The accepted parameter values: string, number (integers in this model),
      `undefined` and `null`. */
  datatype ParamValue = PStr(s: string) | PNum(n: int) | PUndefined | PNull

  /** Event parameters given either as an object (its entries in key order)
      or as an array of `[name, value]` pairs. */
  datatype EventParams = FromRecord(entries: seq<(string, ParamValue)>) | FromArray(items: seq<(string, ParamValue)>)

  /** `${value}`. */
  function TemplateString(v: ParamValue): string {
    match v
    case PStr(s) => s
    case PNum(n) => Text.IntToString(n)
    case PUndefined => "undefined"
    case PNull => "null"
  }

  /** `value?.toString()`: `undefined` for `null` and `undefined`. */
  function OptionalString(v: ParamValue): Option<string> {
    match v
    case PStr(s) => Some(s)
    case PNum(n) => Some(Text.IntToString(n))
    case PUndefined => None
    case PNull => None
  }

  /** `getEventParams`: one entry per parameter, in order; object values are
      always stringified, array values keep `null`/`undefined` as missing. */
  function GetEventParams(event: EventParams): (r: seq<Entry>)
    ensures event.FromRecord? ==> |r| == |event.entries|
    ensures event.FromRecord? ==> forall i :: 0 <= i < |r| ==>
      (r[i].0 == event.entries[i].0 && r[i].1 == Some(TemplateString(event.entries[i].1)))
    ensures event.FromArray? ==> |r| == |event.items|
    ensures event.FromArray? ==> forall i :: 0 <= i < |r| ==>
      (r[i].0 == event.items[i].0 && (r[i].1.None? <==> event.items[i].1.PUndefined? || event.items[i].1.PNull?)
       && (r[i].1.Some? ==> r[i].1.value == TemplateString(event.items[i].1)))
  {
    match event
    case FromRecord(entries) =>
      seq(|entries|, i requires 0 <= i < |entries| => (entries[i].0, Some(TemplateString(entries[i].1))))
    case FromArray(items) =>
      seq(|items|, i requires 0 <= i < |items| => (items[i].0, OptionalString(items[i].1)))
  }

  /** `document.location` and the parts of it the trackers read. */
  datatype Location = Location(hostname: string, host: string, origin: string, pathname: string, search: string)

  /** The document as the trackers see it. */
  datatype Page = Page(location: Location, title: string, referrer: string)

  /** `getDocument()`'s record. */
  datatype DocumentInfo = DocumentInfo(location: string, hostname: string, pathname: string, referrer: string, title: string)

  /** `getDocument()`: the page location is origin, path and search joined. */
  function GetDocument(p: Page): (r: DocumentInfo)
    ensures r.location == p.location.origin + p.location.pathname + p.location.search
    ensures r.hostname == p.location.hostname && r.pathname == p.location.pathname
    ensures r.referrer == p.referrer && r.title == p.title
  {
    DocumentInfo(p.location.origin + p.location.pathname + p.location.search,
                 p.location.hostname, p.location.pathname, p.referrer, p.title)
  }

  /** The reported location reads as the origin, then the reported path, then
      the query string, so each part can be cut back out of it. */
  lemma DocumentLocationParts(p: Page)
    ensures var d := GetDocument(p);
            var o := |p.location.origin|;
            |d.location| == o + |d.pathname| + |p.location.search|
            && d.location[..o] == p.location.origin
            && d.location[o..o + |d.pathname|] == d.pathname
            && d.location[o + |d.pathname|..] == p.location.search
  {
    var d := GetDocument(p);
    var o := |p.location.origin|;
    assert d.location == (p.location.origin + p.location.pathname) + p.location.search;
    assert d.location[..o + |d.pathname|] == p.location.origin + p.location.pathname;
  }
}
