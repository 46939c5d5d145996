/** Small value types shared by every module: an optional value (JavaScript's
    `undefined`/`null` versus a present value) and JavaScript's truthiness of
    an optional string. */
module Base {

  datatype Option<+T> = None | Some(value: T) {
    function GetOr(default: T): T {
      match this
      case Some(v) => v
      case None => default
    }
  }

  /** A JavaScript string-or-undefined is truthy iff it is present and not empty. */
  predicate Truthy(s: Option<string>) {
    s.Some? && s.value != ""
  }

  /** `a || b` over string-or-undefined values. */
  function OrElse(a: Option<string>, b: Option<string>): (r: Option<string>)
    ensures Truthy(a) ==> r == a
    ensures !Truthy(a) ==> r == b
  {
    if Truthy(a) then a else b
  }

  /** A query entry whose value may be missing, as the trackers build them. */
  type Entry = (string, Option<string>)

  /** `payload.filter(([, value]) => value)`: keep the entries whose value is truthy. */
  function KeepTruthy(payload: seq<Entry>): (r: seq<(string, string)>)
    ensures |r| <= |payload|
    ensures forall i :: 0 <= i < |r| ==> r[i].1 != ""
    decreases |payload|
  {
    if payload == [] then []
    else if Truthy(payload[0].1) then [(payload[0].0, payload[0].1.value)] + KeepTruthy(payload[1..])
    else KeepTruthy(payload[1..])
  }

  /** Filtering a concatenation filters each part: entries keep their relative order. */
  lemma {:induction false} KeepTruthyAppend(a: seq<Entry>, b: seq<Entry>)
    ensures KeepTruthy(a + b) == KeepTruthy(a) + KeepTruthy(b)
    decreases |a|
  {
    if a == [] {
      assert a + b == b;
    } else {
      assert (a + b)[1..] == a[1..] + b;
      KeepTruthyAppend(a[1..], b);
    }
  }

  /** Two leading entries with truthy values lead the filtered sequence. */
  lemma KeepTruthyLeading(s: seq<Entry>)
    requires |s| >= 2 && Truthy(s[0].1) && Truthy(s[1].1)
    ensures var r := KeepTruthy(s);
            |r| >= 2 && r[0] == (s[0].0, s[0].1.value) && r[1] == (s[1].0, s[1].1.value)
  {
    assert s[1..][1..] == s[2..];
  }

  /** With no falsy value the filter keeps every entry, in place. */
  lemma {:induction false} KeepTruthyAll(s: seq<Entry>)
    requires forall i :: 0 <= i < |s| ==> Truthy(s[i].1)
    ensures |KeepTruthy(s)| == |s|
    ensures forall i :: 0 <= i < |s| ==> KeepTruthy(s)[i] == (s[i].0, s[i].1.GetOr(""))
  {
    if s != [] {
      KeepTruthyAll(s[1..]);
      assert forall i :: 1 <= i < |s| ==> s[i] == s[1..][i - 1];
    }
  }

  /** An entry survives the filter exactly when its value is truthy. */
  lemma {:induction false} KeepTruthyMembership(payload: seq<Entry>, k: string, v: string)
    ensures (k, v) in KeepTruthy(payload) <==> v != "" && (k, Some(v)) in payload
    decreases |payload|
  {
    if payload != [] {
      KeepTruthyMembership(payload[1..], k, v);
      assert payload == [payload[0]] + payload[1..];
    }
  }
}
