/** The shared helper algorithms: fixed-width random and hash ids, the
    32-bit string hash, the nearest matching ancestor, the external-link
    test, the document height and scroll percentage, and `debounce` as a
    one-slot timer. */
module Utility {
  import opened Base
  import Text

  /** The longest id `getRandomId` produces. */
  const MaxIdLength := 16

  /** `digits.padStart(width, '0').substring(-1, width)`: exactly `width`
      characters, zero-filled on the left or cut to the leading ones. */
  function FixedWidth(digits: string, width: int): (r: string)
    ensures width <= 0 ==> r == ""
    ensures width >= 0 ==> |r| == width
    ensures Text.AllDigits(digits) ==> Text.AllDigits(r)
    ensures 0 <= |digits| <= width ==> r == Text.Repeat('0', width - |digits|) + digits
    ensures 0 <= width <= |digits| ==> r == digits[..width]
  {
    Text.PrefixUpTo(Text.PadStart(digits, width, '0'), width)
  }

  /** Leading zeros do not change the value of a digit string. */
  lemma {:induction false} LeadingZerosValue(k: nat, s: string)
    requires Text.AllDigits(s)
    ensures Text.AllDigits(Text.Repeat('0', k) + s)
    ensures Text.DigitsValue(Text.Repeat('0', k) + s) == Text.DigitsValue(s)
    decreases |s|, k
  {
    var z := Text.Repeat('0', k);
    if s == [] {
      assert z + s == z;
      if k > 0 {
        assert z[..|z| - 1] == Text.Repeat('0', k - 1) + [];
        LeadingZerosValue(k - 1, []);
      }
    } else {
      var t := z + s;
      assert t[..|t| - 1] == z + s[..|s| - 1];
      assert t[|t| - 1] == s[|s| - 1];
      LeadingZerosValue(k, s[..|s| - 1]);
    }
  }

  /** `getRandomId(length)` for the number `Math.floor(Math.random() * 1e16)`
      passed in as `raw`. */
  function GetRandomId(raw: nat, length: int): (r: string)
    ensures |r| == if length <= 0 then 0 else if length > MaxIdLength then MaxIdLength else length
    ensures Text.AllDigits(r)
  {
    FixedWidth(Text.NatToString(raw), if length > MaxIdLength then MaxIdLength else length)
  }

  /** A short number is left-padded with zeros and so reads back as itself; a
      long one keeps its leading digits. */
  lemma GetRandomIdDigits(raw: nat, length: int)
    ensures var width := if length > MaxIdLength then MaxIdLength else length;
            var digits := Text.NatToString(raw);
            (0 <= |digits| <= width ==> GetRandomId(raw, length) == Text.Repeat('0', width - |digits|) + digits
                                        && Text.DigitsValue(GetRandomId(raw, length)) == raw)
            && (0 <= width <= |digits| ==> GetRandomId(raw, length) == digits[..width])
  {
    var width := if length > MaxIdLength then MaxIdLength else length;
    var digits := Text.NatToString(raw);
    if 0 <= |digits| <= width {
      LeadingZerosValue(width - |digits|, digits);
      Text.DigitsValueOfNatToString(raw);
    }
  }

  const TwoTo31 := 0x8000_0000
  const TwoTo32 := 0x1_0000_0000

  predicate IsInt32(x: int) {
    -TwoTo31 <= x < TwoTo31
  }

  /** The ECMAScript ToInt32 conversion: the 32-bit two's-complement value
      congruent to `x`. */
  function ToInt32(x: int): (r: int)
    ensures IsInt32(r)
    ensures (x - r) % TwoTo32 == 0
  {
    (x + TwoTo31) % TwoTo32 - TwoTo31
  }

  /** Numbers congruent modulo 2^32 convert to the same 32-bit value. */
  lemma ToInt32Congruent(a: int, b: int)
    requires (a - b) % TwoTo32 == 0
    ensures ToInt32(a) == ToInt32(b)
  {
    var k := (a - b) / TwoTo32;
    assert a == b + k * TwoTo32;
    assert (b + k * TwoTo32 + TwoTo31) % TwoTo32 == (b + TwoTo31) % TwoTo32;
  }

  /** One step of the hash loop as written: `(hash << 5) - hash + code`, then
      `hash & hash`. The shift works on 32 bits, the subtraction and addition
      on exact numbers, and the `&` converts back to 32 bits. */
  function HashStep(h: int, code: int): int {
    ToInt32(ToInt32(h * 32) - h + code)
  }

  /** Each step is the multiply-by-31 rule `h := ToInt32(31 * h + code)`. */
  lemma HashStepIsTimes31(h: int, code: int)
    ensures HashStep(h, code) == ToInt32(31 * h + code)
  {
    var s := ToInt32(h * 32);
    assert (h * 32 - s) % TwoTo32 == 0;
    assert (s - h + code) - (31 * h + code) == -(h * 32 - s);
    ToInt32Congruent(s - h + code, 31 * h + code);
  }

  /** A UTF-16 code unit, what `charCodeAt` returns. */
  type CodeUnit = c: int | 0 <= c < 0x1_0000

  /** The hash of a string's code units, starting from 0. */
  function Hash(units: seq<CodeUnit>): (h: int)
    ensures IsInt32(h)
    decreases |units|
  {
    if units == [] then 0 else HashStep(Hash(units[..|units| - 1]), units[|units| - 1])
  }

  /** The hash state after one more character follows the multiply-by-31 rule. */
  lemma HashAppend(units: seq<CodeUnit>, c: CodeUnit)
    ensures Hash(units + [c]) == ToInt32(31 * Hash(units) + c)
  {
    assert (units + [c])[..|units|] == units;
    HashStepIsTimes31(Hash(units), c);
  }

  function Abs(x: int): nat {
    if x < 0 then -x else x
  }

  /** `getHashId(value, length)`, for the value given as its UTF-16 code units. */
  method GetHashId(units: seq<CodeUnit>, length: int) returns (id: string)
    ensures id == FixedWidth(Text.NatToString(Abs(Hash(units))), length)
  {
    var hash := 0;
    for index := 0 to |units|
      invariant hash == Hash(units[..index])
    {
      assert units[..index + 1][..index] == units[..index];
      hash := ToInt32(ToInt32(hash * 32) - hash + units[index]);
    }
    assert units[..|units|] == units;
    hash := Abs(hash);
    id := FixedWidth(Text.NatToString(hash), length);
  }

  /** A number below 10^k has at most k digits. */
  lemma {:induction false} NatToStringLength(n: nat, k: nat)
    requires n < Power10(k) && k >= 1
    ensures |Text.NatToString(n)| <= k
    decreases k
  {
    if n >= 10 {
      assert k != 1;
      assert n / 10 < Power10(k - 1);
      NatToStringLength(n / 10, k - 1);
    }
  }

  function Power10(k: nat): nat {
    if k == 0 then 1 else 10 * Power10(k - 1)
  }

  /** A hash id of at least ten characters is the magnitude of the hash,
      zero-padded: the magnitude never needs more than ten digits. */
  lemma HashIdValue(units: seq<CodeUnit>, length: int)
    requires length >= 10
    ensures var id := FixedWidth(Text.NatToString(Abs(Hash(units))), length);
            |id| == length && Text.AllDigits(id) && Text.DigitsValue(id) == Abs(Hash(units))
  {
    var n := Abs(Hash(units));
    assert Power10(10) == 10_000_000_000;
    NatToStringLength(n, 10);
    var digits := Text.NatToString(n);
    LeadingZerosValue(length - |digits|, digits);
    Text.DigitsValueOfNatToString(n);
  }

  /** `isTargetElement(element, selector)` over the chain of the element and
      its ancestors up to the root element, with `matches` deciding the
      selector. The result is the index of the node returned. */
  method IsTargetElement<E>(chain: seq<E>, matches: E -> bool) returns (r: Option<nat>)
    ensures r.Some? ==> r.value < |chain| && matches(chain[r.value])
    ensures r.Some? ==> forall j :: 0 <= j < r.value ==> !matches(chain[j])
    ensures r.None? ==> forall j :: 0 <= j < |chain| ==> !matches(chain[j])
  {
    var target := 0;
    while target < |chain|
      invariant target <= |chain|
      invariant forall j :: 0 <= j < target ==> !matches(chain[j])
    {
      if matches(chain[target]) {
        return Some(target);
      }
      target := target + 1;
    }
    r := None;
  }

  /** The parts of `new URL(urlValue)` the helper reads. */
  datatype ParsedUrl = ParsedUrl(hostname: string, pathname: string)

  datatype UrlData = UrlData(isExternal: bool, hostname: Option<string>, pathname: Option<string>)

  /** The helper returns its record, or the `new URL` constructor throws on
      a URL it cannot parse. */
  datatype UrlOutcome = UrlOk(data: UrlData) | UrlThrows

  /** `getUrlData(urlValue)` as written: the link's hostname is compared with
      `window.location.host`, which carries the port when there is one.
      `parsed` is what `new URL(urlValue)` gives (`None`: it throws). */
  function GetUrlDataAsWritten(urlValue: Option<string>, parsed: Option<ParsedUrl>, pageHost: string): (r: UrlOutcome)
    ensures !Truthy(urlValue) ==> r == UrlOk(UrlData(false, None, None))
    ensures Truthy(urlValue) && parsed.None? ==> r.UrlThrows?
    ensures Truthy(urlValue) && parsed.Some? ==>
      (r.UrlOk? && r.data.hostname == Some(parsed.value.hostname) && r.data.pathname == Some(parsed.value.pathname)
       && (r.data.isExternal <==> parsed.value.hostname != "" && parsed.value.hostname != pageHost))
  {
    if !Truthy(urlValue) then UrlOk(UrlData(false, None, None))
    else if parsed.None? then UrlThrows
    else
      var hostname := parsed.value.hostname;
      UrlOk(UrlData(hostname != "" && hostname != pageHost, Some(hostname), Some(parsed.value.pathname)))
  }

  /** A link to the page's own host on a page served with a port is reported
      as external. */
  lemma SameSiteLinkWithPortIsExternal()
    ensures GetUrlDataAsWritten(Some("http://localhost:8080/about"), Some(ParsedUrl("localhost", "/about")), "localhost:8080")
            == UrlOk(UrlData(true, Some("localhost"), Some("/about")))
  {
  }

  /** `getUrlData(urlValue)` comparing hostname with hostname: a link is
      external exactly when it names a host other than the page's. */
  function GetUrlData(urlValue: Option<string>, parsed: Option<ParsedUrl>, pageHostname: string): (r: UrlOutcome)
    ensures !Truthy(urlValue) ==> r == UrlOk(UrlData(false, None, None))
    ensures Truthy(urlValue) && parsed.None? ==> r.UrlThrows?
    ensures Truthy(urlValue) && parsed.Some? ==>
      (r.UrlOk? && r.data.hostname == Some(parsed.value.hostname) && r.data.pathname == Some(parsed.value.pathname))
    ensures r.UrlOk? ==> (r.data.isExternal <==> r.data.hostname.Some? && r.data.hostname.value != "" && r.data.hostname.value != pageHostname)
  {
    if !Truthy(urlValue) then UrlOk(UrlData(false, None, None))
    else if parsed.None? then UrlThrows
    else
      var hostname := parsed.value.hostname;
      UrlOk(UrlData(hostname != "" && hostname != pageHostname, Some(hostname), Some(parsed.value.pathname)))
  }

  /** The same link on the same page is internal once hostnames are compared. */
  lemma SameSiteLinkWithPortIsInternal()
    ensures GetUrlData(Some("http://localhost:8080/about"), Some(ParsedUrl("localhost", "/about")), "localhost")
            == UrlOk(UrlData(false, Some("localhost"), Some("/about")))
  {
  }

  /** The six heights `getScrollPercentage` compares. */
  datatype Heights = Heights(bodyScroll: int, documentScroll: int, bodyOffset: int,
                             documentOffset: int, bodyClient: int, documentClient: int)

  /** What the scroll callbacks read from the page: the six heights, both
      scroll offsets and `window.innerHeight`. */
  datatype ScrollView = ScrollView(heights: Heights, pageYOffset: real, bodyScrollTop: real, innerHeight: int)

  function Max(a: int, b: int): int {
    if a >= b then a else b
  }

  /** `Math.max` of the six heights: one of them, and no smaller than any. */
  function DocumentHeight(h: Heights): (r: int)
    ensures r >= h.bodyScroll && r >= h.documentScroll && r >= h.bodyOffset
    ensures r >= h.documentOffset && r >= h.bodyClient && r >= h.documentClient
    ensures r in {h.bodyScroll, h.documentScroll, h.bodyOffset, h.documentOffset, h.bodyClient, h.documentClient}
  {
    Max(Max(Max(h.bodyScroll, h.documentScroll), Max(h.bodyOffset, h.documentOffset)),
        Max(h.bodyClient, h.documentClient))
  }

  function AbsReal(x: real): real {
    if x < 0.0 then -x else x
  }

  /** `getScrollPercentage()` over exact numbers: the scrolled fraction of the
      track, as a floored, non-negative percentage; `None` when the track
      has no length (the division gives Infinity or NaN). The scroll offset
      is `window.pageYOffset`, or the body's when that is 0. */
  function GetScrollPercentage(h: Heights, pageYOffset: real, bodyScrollTop: real, innerHeight: int): (r: Option<int>)
    ensures r.Some? <==> DocumentHeight(h) != innerHeight
    ensures r.Some? ==> r.value >= 0
    ensures r.Some? ==>
      var scrollTop := if pageYOffset != 0.0 then pageYOffset else bodyScrollTop;
      var share := AbsReal(scrollTop / (DocumentHeight(h) - innerHeight) as real) * 100.0;
      r.value as real <= share < r.value as real + 1.0
  {
    var scrollTop := if pageYOffset != 0.0 then pageYOffset else bodyScrollTop;
    var trackLength := DocumentHeight(h) - innerHeight;
    if trackLength == 0 then None
    else Some((AbsReal(scrollTop / trackLength as real) * 100.0).Floor)
  }

  /** What the debounced function's timer sees: a call or the delay running out. */
  datatype DebounceEvent<A> = Call(args: A) | Elapse

  /** One event on the pending slot: a call replaces whatever is pending, the
      delay running out fires what is pending. Returns the new slot and what fired. */
  function DebounceStep<A>(pending: Option<A>, e: DebounceEvent<A>): (r: (Option<A>, Option<A>))
    ensures r.0.Some? <==> e.Call?
    ensures r.0.Some? ==> r.0.value == e.args
    ensures r.1.Some? ==> e.Elapse? && r.1 == pending
    ensures e.Elapse? ==> r.1 == pending
  {
    match e
    case Call(args) => (Some(args), None)
    case Elapse => (None, pending)
  }

  function Fired<A>(fired: Option<A>): seq<A> {
    if fired.Some? then [fired.value] else []
  }

  /** The callbacks a sequence of events runs, in order, and the slot after them. */
  function RunDebounce<A>(pending: Option<A>, events: seq<DebounceEvent<A>>): (r: (Option<A>, seq<A>))
    ensures events == [] ==> r == (pending, [])
    ensures |r.1| <= |events|
    ensures events != [] && events[|events| - 1].Elapse? ==> r.0.None?
    ensures events != [] && events[|events| - 1].Call? ==> r.0 == Some(events[|events| - 1].args)
    decreases |events|
  {
    if events == [] then (pending, [])
    else
      var step := DebounceStep(pending, events[0]);
      var rest := RunDebounce(step.0, events[1..]);
      (rest.0, Fired(step.1) + rest.1)
  }

  function Calls<A>(args: seq<A>): (r: seq<DebounceEvent<A>>)
    ensures |r| == |args| && forall i :: 0 <= i < |args| ==> r[i] == Call(args[i])
  {
    seq(|args|, i requires 0 <= i < |args| => Call(args[i]))
  }

  /** A burst of calls leaves only the last one's arguments pending, and
      nothing runs until the delay runs out. */
  lemma {:induction false} BurstKeepsLast<A>(pending: Option<A>, args: seq<A>)
    requires args != []
    ensures RunDebounce(pending, Calls(args)) == (Some(args[|args| - 1]), [])
    decreases |args|
  {
    var events := Calls(args);
    assert events[0] == Call(args[0]);
    assert DebounceStep(pending, events[0]) == (Some(args[0]), None);
    assert Fired<A>(None) == [];
    if |args| > 1 {
      assert events[1..] == Calls(args[1..]);
      BurstKeepsLast(Some(args[0]), args[1..]);
      assert args[1..][|args[1..]| - 1] == args[|args| - 1];
      var rest := RunDebounce(Some(args[0]), events[1..]);
      assert rest == (Some(args[|args| - 1]), []);
      assert RunDebounce(pending, events) == (rest.0, Fired<A>(None) + rest.1);
      assert Fired<A>(None) + rest.1 == [];
    } else {
      assert events[1..] == [];
      var rest := RunDebounce(Some(args[0]), events[1..]);
      assert rest == (Some(args[0]), []);
      assert RunDebounce(pending, events) == (rest.0, Fired<A>(None) + rest.1);
      assert Fired<A>(None) + rest.1 == [];
    }
  }

  /** Running two event sequences one after the other. */
  lemma {:induction false} RunAppend<A>(pending: Option<A>, a: seq<DebounceEvent<A>>, b: seq<DebounceEvent<A>>)
    ensures var first := RunDebounce(pending, a);
            var second := RunDebounce(first.0, b);
            RunDebounce(pending, a + b) == (second.0, first.1 + second.1)
    decreases |a|
  {
    if a == [] {
      assert a + b == b;
      var second := RunDebounce(pending, b);
      assert [] + second.1 == second.1;
    } else {
      assert (a + b)[0] == a[0];
      assert (a + b)[1..] == a[1..] + b;
      var step := DebounceStep(pending, a[0]);
      RunAppend(step.0, a[1..], b);
      var restA := RunDebounce(step.0, a[1..]);
      var second := RunDebounce(restA.0, b);
      assert RunDebounce(pending, a) == (restA.0, Fired(step.1) + restA.1);
      assert RunDebounce(pending, a + b) == (second.0, Fired(step.1) + (restA.1 + second.1));
      assert Fired(step.1) + (restA.1 + second.1) == (Fired(step.1) + restA.1) + second.1;
    }
  }

  /** A burst of calls followed by the delay runs the callback once, with the
      last call's arguments, and leaves nothing pending. */
  lemma LastCallWins<A>(pending: Option<A>, args: seq<A>)
    requires args != []
    ensures RunDebounce(pending, Calls(args) + [Elapse]) == (None, [args[|args| - 1]])
  {
    RunAppend(pending, Calls(args), [Elapse]);
    BurstKeepsLast(pending, args);
    var tail: seq<DebounceEvent<A>> := [Elapse];
    assert tail[0] == Elapse && tail[1..] == [];
    var last := args[|args| - 1];
    var second := RunDebounce(Some(last), tail);
    assert second == (RunDebounce(None, tail[1..]).0, Fired(Some(last)) + RunDebounce(None, tail[1..]).1);
    assert RunDebounce<A>(None, []) == (None, []);
    assert Fired(Some(last)) + [] == [last];
    assert second == (None, [last]);
    assert [] + second.1 == [last];
  }

  /** How many times the delay runs out. */
  function Elapses<A>(events: seq<DebounceEvent<A>>): nat
    decreases |events|
  {
    if events == [] then 0 else (if events[0].Elapse? then 1 else 0) + Elapses(events[1..])
  }

  /** The callback never runs more often than the delay runs out. */
  lemma {:induction false} FiresAtMostOncePerElapse<A>(pending: Option<A>, events: seq<DebounceEvent<A>>)
    ensures |RunDebounce(pending, events).1| <= Elapses(events)
    decreases |events|
  {
    if events != [] {
      FiresAtMostOncePerElapse(DebounceStep(pending, events[0]).0, events[1..]);
    }
  }

  /** The timer behind a function returned by `debounce`: at most one call
      is pending, the one made last. */
  class Debouncer<A> {
    var pending: Option<A>

    constructor ()
      ensures pending == None
    {
      pending := None;
    }

    /** Calling the debounced function clears the pending timer and sets a new
        one for these arguments. */
    method Invoke(args: A)
      modifies this
      ensures (pending, None) == DebounceStep(old(pending), Call(args))
    {
      pending := Some(args);
    }

    /** The delay runs out: the pending call, if any, runs now. */
    method Elapsed() returns (fired: Option<A>)
      modifies this
      ensures (pending, fired) == DebounceStep(old(pending), Elapse)
    {
      fired := pending;
      pending := None;
    }
  }
}
