/** The storage layer: `MemoryStorage`, an in-memory key/value table behind
    the browser's `Storage` interface, the probe that tells whether a real
    storage object works, and the factory that falls back to a fresh
    `MemoryStorage` when it does not. */
module Storage {
  import opened Base

  /** The key the support probe writes, reads back and removes. */
  const TestKey := "___storage_test___"

  /** `#map.get(name) || null`: a missing key and a key holding the empty
      string both read as `null`. */
  function Lookup(m: map<string, string>, name: string): (r: Option<string>)
    ensures r.Some? <==> name in m && m[name] != ""
    ensures r.Some? ==> r.value == m[name]
  {
    if name in m && m[name] != "" then Some(m[name]) else None
  }

  /** The keys of a JavaScript `Map` in iteration order: no key twice, and
      exactly the stored keys. */
  ghost predicate OrderOf(order: seq<string>, keys: set<string>) {
    Distinct(order) && forall k :: k in keys <==> k in order
  }

  ghost predicate Distinct(s: seq<string>) {
    forall i, j :: 0 <= i < j < |s| ==> s[i] != s[j]
  }

  /** `order` without `name` (a `Map.delete` keeps the order of the rest). */
  function Without(order: seq<string>, name: string): (r: seq<string>)
    ensures forall k :: k in r <==> k in order && k != name
    decreases |order|
  {
    if order == [] then []
    else if order[0] == name then Without(order[1..], name)
    else [order[0]] + Without(order[1..], name)
  }

  /** Deleting a key keeps the key list free of repeats. */
  lemma {:induction false} WithoutDistinct(order: seq<string>, name: string)
    requires Distinct(order)
    ensures Distinct(Without(order, name))
    decreases |order|
  {
    if order != [] {
      assert Distinct(order[1..]) by {
        forall i, j | 0 <= i < j < |order[1..]| ensures order[1..][i] != order[1..][j] {
          assert order[i + 1] != order[j + 1];
        }
      }
      WithoutDistinct(order[1..], name);
      if order[0] != name {
        assert order[0] !in order[1..] by {
          forall j | 0 <= j < |order[1..]| ensures order[1..][j] != order[0] {
            assert order[0] != order[j + 1];
          }
        }
      }
    }
  }

  /** The index-th key in iteration order, which is what `Storage.key(index)` is for. */
  function NthKey(order: seq<string>, index: int): (r: Option<string>)
    ensures r.Some? <==> 0 <= index < |order|
    ensures r.Some? ==> r.value == order[index]
  {
    if 0 <= index < |order| then Some(order[index]) else None
  }

  /** A repeat-free key list is as long as the set of keys it lists. */
  lemma {:induction false} OrderLength(order: seq<string>, keys: set<string>)
    requires OrderOf(order, keys)
    ensures |keys| == |order|
    decreases |order|
  {
    if order != [] {
      var k := order[0];
      var rest := keys - {k};
      assert OrderOf(order[1..], rest) by {
        forall j | 0 < j < |order| ensures order[j] != k {
          assert order[0] != order[j];
        }
        forall x ensures x in rest <==> x in order[1..] {
          if x in order && x != k {
            var j :| 0 <= j < |order| && order[j] == x;
            assert j != 0;
            assert order[1..][j - 1] == x;
          }
        }
      }
      OrderLength(order[1..], rest);
    } else {
      assert keys == {};
    }
  }

  /** Setting a value is read back unless it is the empty string. */
  lemma SetThenGet(m: map<string, string>, name: string, value: string)
    ensures Lookup(m[name := value], name) == if value == "" then None else Some(value)
  {
  }

  /** Setting or removing one key leaves every other key as it was. */
  lemma UpdateFrame(m: map<string, string>, name: string, value: string, other: string)
    requires other != name
    ensures Lookup(m[name := value], other) == Lookup(m, other)
    ensures Lookup(m - {name}, other) == Lookup(m, other)
  {
  }

  /** The number of entries: re-setting a key keeps it, a new key adds one,
      removing a present key takes one away. */
  lemma SizeAfterUpdate(m: map<string, string>, name: string, value: string)
    ensures |m[name := value]| == if name in m then |m| else |m| + 1
    ensures |m - {name}| == if name in m then |m| - 1 else |m|
  {
    if name in m {
      assert (m - {name}).Keys == m.Keys - {name};
      assert |m.Keys - {name}| == |m.Keys| - 1;
    } else {
      assert m - {name} == m;
    }
  }

  class MemoryStorage {
    /** `#map`: the stored entries. */
    var entries: map<string, string>
    /** The keys of `#map` in insertion order. */
    var order: seq<string>

    ghost predicate Valid()
      reads this
    {
      OrderOf(order, entries.Keys)
    }

    /** `new MemoryStorage()` starts empty (its constructor calls `clear`). */
    constructor ()
      ensures Valid() && entries == map[] && order == []
    {
      entries := map[];
      order := [];
    }

    method Clear()
      modifies this
      ensures Valid() && entries == map[] && order == []
    {
      entries := map[];
      order := [];
    }

    /** `key(index)` as written: it indexes the iterator returned by
        `values()`, which has no numbered properties, so every index gives `null`. */
    method Key(index: int) returns (r: Option<string>)
      ensures r == None
    {
      r := None;
    }

    /** `key(index)` as the `Storage` interface defines it: the index-th key. */
    method KeyAt(index: int) returns (r: Option<string>)
      requires Valid()
      ensures r.Some? <==> 0 <= index < |entries|
      ensures r.Some? ==> r.value in entries && r == NthKey(order, index)
    {
      OrderLength(order, entries.Keys);
      r := NthKey(order, index);
    }

    method GetItem(name: string) returns (r: Option<string>)
      ensures r == Lookup(entries, name)
    {
      r := if name in entries && entries[name] != "" then Some(entries[name]) else None;
    }

    method SetItem(name: string, value: string)
      requires Valid()
      modifies this
      ensures Valid()
      ensures entries == old(entries)[name := value]
      ensures order == if name in old(entries) then old(order) else old(order) + [name]
    {
      if name !in entries {
        order := order + [name];
      }
      entries := entries[name := value];
    }

    method RemoveItem(name: string)
      requires Valid()
      modifies this
      ensures Valid()
      ensures entries == old(entries) - {name}
      ensures order == Without(old(order), name)
    {
      WithoutDistinct(order, name);
      order := Without(order, name);
      entries := entries - {name};
    }

    /** `length`: the number of distinct stored keys. */
    method Length() returns (n: nat)
      requires Valid()
      ensures n == |entries| && n == |order|
    {
      OrderLength(order, entries.Keys);
      n := |order|;
    }
  }

  /** What the index-th key request gives after one `setItem('foo', 'bar')`
      on a fresh instance: `null` as written, `'foo'` as intended. */
  method KeyAfterOneSet() returns (asWritten: Option<string>, intended: Option<string>)
    ensures asWritten == None
    ensures intended == Some("foo")
  {
    var m := new MemoryStorage();
    m.SetItem("foo", "bar");
    asWritten := m.Key(0);
    intended := m.KeyAt(0);
  }

  /** A storage object the browser provides (`localStorage` or
      `sessionStorage`), seen through the `Storage` interface: its entries,
      whether each of the probe's three calls throws (quota exceeded, storage
      disabled), and `answer`, a fixed value its `getItem` gives instead of
      the stored entry when it does not keep what it is given. */
  class HostStorage {
    var items: map<string, string>
    const setThrows: bool
    const getThrows: bool
    const removeThrows: bool
    const answer: Option<Option<string>>

    constructor (items: map<string, string>, setThrows: bool, getThrows: bool, removeThrows: bool,
                 answer: Option<Option<string>>)
      ensures this.items == items && this.answer == answer
      ensures this.setThrows == setThrows && this.getThrows == getThrows && this.removeThrows == removeThrows
    {
      this.items := items;
      this.setThrows := setThrows;
      this.getThrows := getThrows;
      this.removeThrows := removeThrows;
      this.answer := answer;
    }

    /** What a non-throwing `getItem(name)` gives when the entries are `m`. */
    function Answer(m: map<string, string>, name: string): Option<string> {
      if answer.Some? then answer.value
      else if name in m then Some(m[name]) else None
    }

    /** The probe's verdict on this object: no call throws and the test key
        is read back. */
    predicate ProbePasses() {
      !setThrows && !getThrows && !removeThrows && (answer.None? || answer == Some(Some(TestKey)))
    }

    method SetItem(name: string, value: string) returns (threw: bool)
      modifies this
      ensures threw == setThrows
      ensures items == if threw then old(items) else old(items)[name := value]
    {
      threw := setThrows;
      if !threw {
        items := items[name := value];
      }
    }

    method GetItem(name: string) returns (threw: bool, value: Option<string>)
      ensures threw == getThrows
      ensures !threw ==> value == Answer(items, name)
    {
      threw := getThrows;
      value := Answer(items, name);
    }

    method RemoveItem(name: string) returns (threw: bool)
      modifies this
      ensures threw == removeThrows
      ensures items == if threw then old(items) else old(items) - {name}
    {
      threw := removeThrows;
      if !threw {
        items := items - {name};
      }
    }
  }

  /** The round trip the probe makes passes exactly when the object passes
      the probe, whatever it held before. */
  lemma ProbeRoundTrip(h: HostStorage, m: map<string, string>)
    ensures h.ProbePasses() <==>
      !h.setThrows && !h.getThrows && !h.removeThrows && h.Answer(m[TestKey := TestKey], TestKey) == Some(TestKey)
  {
  }

  /** `isStorageClassSupported`: write the test key, read it back, remove it,
      and report whether the value read back was the test key; any call that
      throws makes the answer `false`, and the calls after it do not happen. */
  method IsStorageClassSupported(s: HostStorage) returns (ok: bool)
    modifies s
    ensures ok <==> !s.setThrows && !s.getThrows && !s.removeThrows
                    && s.Answer(old(s.items)[TestKey := TestKey], TestKey) == Some(TestKey)
    ensures !s.setThrows && !s.getThrows && !s.removeThrows ==> s.items == old(s.items) - {TestKey}
    ensures s.setThrows ==> s.items == old(s.items)
    ensures !s.setThrows && (s.getThrows || s.removeThrows) ==> s.items == old(s.items)[TestKey := TestKey]
  {
    var threw := s.SetItem(TestKey, TestKey);
    if threw {
      return false;
    }
    var testValue;
    threw, testValue := s.GetItem(TestKey);
    if threw {
      return false;
    }
    threw := s.RemoveItem(TestKey);
    if threw {
      return false;
    }
    ok := testValue == Some(TestKey);
  }

  datatype StorageClassName = LocalStorage | SessionStorage

  /** The two global storage slots; `None` is a slot whose `typeof` is `'undefined'`. */
  datatype Globals = Globals(localStorage: Option<HostStorage>, sessionStorage: Option<HostStorage>)

  function Slot(g: Globals, name: StorageClassName): Option<HostStorage> {
    match name
    case LocalStorage => g.localStorage
    case SessionStorage => g.sessionStorage
  }

  /** `hasStorage(name)`: the named global is defined. */
  predicate HasStorage(g: Globals, name: StorageClassName) {
    Slot(g, name).Some?
  }

  function SlotObjects(g: Globals, name: StorageClassName): set<HostStorage> {
    if HasStorage(g, name) then {Slot(g, name).value} else {}
  }

  /** The storage object the factory hands out. */
  datatype Chosen = UseGlobal(host: HostStorage) | UseFallback(memory: MemoryStorage)

  /** `safeStorageFactory(name, MemoryStorage)`: the global itself when it is
      defined and passes the probe, otherwise a fresh, empty `MemoryStorage`. */
  method SafeStorageFactory(g: Globals, name: StorageClassName) returns (r: Chosen)
    modifies SlotObjects(g, name)
    ensures !HasStorage(g, name) ==> r.UseFallback?
    ensures HasStorage(g, name) ==>
      var h := Slot(g, name).value;
      (r == UseGlobal(h)) <==> h.ProbePasses()
    ensures r.UseGlobal? ==> Slot(g, name) == Some(r.host)
    ensures r.UseFallback? ==> fresh(r.memory) && r.memory.Valid() && r.memory.entries == map[]
  {
    if !HasStorage(g, name) {
      var m := new MemoryStorage();
      return UseFallback(m);
    }
    var host := Slot(g, name).value;
    ProbeRoundTrip(host, host.items);
    var supported := IsStorageClassSupported(host);
    if !supported {
      var m := new MemoryStorage();
      return UseFallback(m);
    }
    r := UseGlobal(host);
  }
}
