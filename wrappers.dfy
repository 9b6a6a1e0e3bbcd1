/** Optional values and error outcomes, for optional fields and error paths. */
module Wrappers {

  /** An optional value: `None` stands for a field that is `undefined`. */
  datatype Option<+T> = None | Some(value: T)

  /** A value or the error an operation throws instead. */
  datatype Result<+T, +E> = Success(value: T) | Failure(error: E)

  /** The outcome of a guard that either passes or throws. */
  datatype Outcome<+E> = Pass | Fail(error: E)

  /** JavaScript truthiness of an optional number: present and not zero. */
  predicate Truthy(x: Option<real>)
  {
    x.Some? && x.value != 0.0
  }

  predicate TruthyInt(x: Option<int>)
  {
    x.Some? && x.value != 0
  }
}

/** Counting and summing helpers shared by the scoring modules. */
module Tally {

  /** 1 for a set flag, 0 otherwise: what `if (flag) score++` adds. */
  function Ord(b: bool): nat
  {
    if b then 1 else 0
  }

  /** The number of set flags: `flags.filter(Boolean).length`. */
  function CountTrue(flags: seq<bool>): nat
  {
    if flags == [] then 0 else Ord(flags[0]) + CountTrue(flags[1..])
  }

  /** The count is at most the number of flags, zero iff none is set, full iff all are. */
  lemma {:induction false} CountTrueBounds(flags: seq<bool>)
    ensures CountTrue(flags) <= |flags|
    ensures CountTrue(flags) == 0 <==> forall i :: 0 <= i < |flags| ==> !flags[i]
    ensures CountTrue(flags) == |flags| <==> forall i :: 0 <= i < |flags| ==> flags[i]
  {
    if flags != [] {
      CountTrueBounds(flags[1..]);
      assert forall i :: 1 <= i < |flags| ==> flags[i] == flags[1..][i - 1];
    }
  }

  lemma CountTrue5(a: bool, b: bool, c: bool, d: bool, e: bool)
    ensures CountTrue([a, b, c, d, e]) == Ord(a) + Ord(b) + Ord(c) + Ord(d) + Ord(e)
  {
    assert CountTrue([e]) == Ord(e);
    assert CountTrue([d, e]) == Ord(d) + CountTrue([e]);
    assert CountTrue([c, d, e]) == Ord(c) + CountTrue([d, e]);
    assert CountTrue([b, c, d, e]) == Ord(b) + CountTrue([c, d, e]);
  }

  lemma CountTrue4(a: bool, b: bool, c: bool, d: bool)
    ensures CountTrue([a, b, c, d]) == Ord(a) + Ord(b) + Ord(c) + Ord(d)
  {
    assert CountTrue([d]) == Ord(d);
    assert CountTrue([c, d]) == Ord(c) + CountTrue([d]);
    assert CountTrue([b, c, d]) == Ord(b) + CountTrue([c, d]);
  }

  /** Counting splits over concatenation. */
  lemma {:induction false} CountTrueAppend(a: seq<bool>, b: seq<bool>)
    ensures CountTrue(a + b) == CountTrue(a) + CountTrue(b)
  {
    if a != [] {
      assert (a + b)[1..] == a[1..] + b;
      CountTrueAppend(a[1..], b);
    } else {
      assert a + b == b;
    }
  }

  lemma CountTrue9(a: bool, b: bool, c: bool, d: bool, e: bool, f: bool, g: bool, h: bool, i: bool)
    ensures CountTrue([a, b, c, d, e, f, g, h, i])
         == Ord(a) + Ord(b) + Ord(c) + Ord(d) + Ord(e) + Ord(f) + Ord(g) + Ord(h) + Ord(i)
  {
    CountTrue4(a, b, c, d);
    CountTrue5(e, f, g, h, i);
    CountTrueAppend([a, b, c, d], [e, f, g, h, i]);
    assert [a, b, c, d, e, f, g, h, i] == [a, b, c, d] + [e, f, g, h, i];
  }

  /** The points of a yes/no rule: all of them when it holds, none otherwise. */
  function Flag(holds: bool, points: nat): nat
  {
    if holds then points else 0
  }

  /** `scores.reduce((a, b) => a + b, 0)`. */
  function Sum(s: seq<int>): int
  {
    if s == [] then 0 else s[0] + Sum(s[1..])
  }

  /** A questionnaire whose every answer lies in [lo, hi] totals between |s|*lo and |s|*hi. */
  lemma {:induction false} SumBounds(s: seq<int>, lo: int, hi: int)
    requires forall i :: 0 <= i < |s| ==> lo <= s[i] <= hi
    ensures |s| * lo <= Sum(s) <= |s| * hi
  {
    if s != [] {
      SumBounds(s[1..], lo, hi);
      assert |s| * lo == lo + (|s| - 1) * lo;
      assert |s| * hi == hi + (|s| - 1) * hi;
    }
  }

  /** Raising one answer never lowers the total. */
  lemma {:induction false} SumMonotone(s: seq<int>, t: seq<int>)
    requires |s| == |t|
    requires forall i :: 0 <= i < |s| ==> s[i] <= t[i]
    ensures Sum(s) <= Sum(t)
  {
    if s != [] {
      SumMonotone(s[1..], t[1..]);
    }
  }

  /** `Math.min(raw, 100)`: the cap every disease scorer applies last. */
  function Cap(raw: int): (score: int)
    ensures score <= 100
    ensures score <= raw
    ensures score == raw || score == 100
  {
    if raw < 100 then raw else 100
  }

  /** `Math.min(x, 100)` on real-valued percentages. */
  function CapReal(x: real): (r: real)
    ensures r <= 100.0
    ensures r <= x
    ensures r == x || r == 100.0
  {
    if x < 100.0 then x else 100.0
  }
}
