/**
 The symbol tally shown on a die face (`DiceSide` in the application) and the
 field-by-field sum that folds many faces into one tally (`sumSides`).
 */
module Tallies {

  /** The eight symbols a face can carry, one per counter of a tally. */
  datatype Symbol = Success | Advantage | Failure | Threat | Triumph | Despair | Dark | Light

  /** Eight independent counters. They are plain integers, as the source's
      `number` fields are; non-negativity is a property proved below, not a type fact. */
  datatype Tally = Tally(
    success: int,
    advantage: int,
    failure: int,
    threat: int,
    triumph: int,
    despair: int,
    dark: int,
    light: int)

  /** The counter of `t` that records symbol `s`. */
  function Count(t: Tally, s: Symbol): int
  {
    match s
    case Success => t.success
    case Advantage => t.advantage
    case Failure => t.failure
    case Threat => t.threat
    case Triumph => t.triumph
    case Despair => t.despair
    case Dark => t.dark
    case Light => t.light
  }

  /** The all-zero tally: the blank face and the starting value of every sum. */
  const Blank: Tally := Tally(0, 0, 0, 0, 0, 0, 0, 0)

  predicate NonNegative(t: Tally)
  {
    forall s :: Count(t, s) >= 0
  }

  /** Two tallies that agree on every symbol are the same tally. */
  lemma Extensionality(a: Tally, b: Tally)
    requires forall s :: Count(a, s) == Count(b, s)
    ensures a == b
  {
    assert Count(a, Success) == Count(b, Success);
    assert Count(a, Advantage) == Count(b, Advantage);
    assert Count(a, Failure) == Count(b, Failure);
    assert Count(a, Threat) == Count(b, Threat);
    assert Count(a, Triumph) == Count(b, Triumph);
    assert Count(a, Despair) == Count(b, Despair);
    assert Count(a, Dark) == Count(b, Dark);
    assert Count(a, Light) == Count(b, Light);
  }

  /** The combining step of the fold: each counter of the result is the sum of
      the same counter of the two arguments, and no counter feeds another. */
  function Add(a: Tally, b: Tally): (r: Tally)
    ensures forall s :: Count(r, s) == Count(a, s) + Count(b, s)
  {
    Tally(
      a.success + b.success,
      a.advantage + b.advantage,
      a.failure + b.failure,
      a.threat + b.threat,
      a.triumph + b.triumph,
      a.despair + b.despair,
      a.dark + b.dark,
      a.light + b.light)
  }

  lemma AddCommutative(a: Tally, b: Tally)
    ensures Add(a, b) == Add(b, a)
  {
  }

  lemma AddAssociative(a: Tally, b: Tally, c: Tally)
    ensures Add(Add(a, b), c) == Add(a, Add(b, c))
  {
  }

  lemma BlankIsIdentity(a: Tally)
    ensures Add(Blank, a) == a && Add(a, Blank) == a
  {
  }

  /** Reference definition of one counter of a sum: the plain arithmetic sum of
      that counter over the elements, first element first. */
  function Total(xs: seq<Tally>, s: Symbol): int
  {
    if xs == [] then 0 else Count(xs[0], s) + Total(xs[1..], s)
  }

  lemma {:induction false} TotalAppend(xs: seq<Tally>, ys: seq<Tally>, s: Symbol)
    ensures Total(xs + ys, s) == Total(xs, s) + Total(ys, s)
  {
    if xs == [] {
      assert xs + ys == ys;
    } else {
      assert (xs + ys)[1..] == xs[1..] + ys;
      TotalAppend(xs[1..], ys, s);
    }
  }

  /** `sumSides`: a left fold of `Add` over the faces, starting from `Blank`,
      exactly as `Array.prototype.reduce` with an initial value visits them.
      Every counter of the result is that counter's total over the faces, so an
      empty sequence sums to `Blank`. */
  function SumSides(xs: seq<Tally>): (r: Tally)
    ensures forall s :: Count(r, s) == Total(xs, s)
    ensures xs == [] ==> r == Blank
  {
    if xs == [] then Blank
    else
      var init := xs[..|xs| - 1];
      var last := xs[|xs| - 1];
      assert xs == init + [last];
      assert forall s :: Total(xs, s) == Total(init, s) + Count(last, s) by {
        forall s ensures Total(xs, s) == Total(init, s) + Count(last, s) {
          TotalAppend(init, [last], s);
        }
      }
      Add(SumSides(init), last)
  }

  /** Summing splits over concatenation. */
  lemma {:induction false} SumConcat(xs: seq<Tally>, ys: seq<Tally>)
    ensures SumSides(xs + ys) == Add(SumSides(xs), SumSides(ys))
  {
    forall s ensures Total(xs + ys, s) == Total(xs, s) + Total(ys, s) {
      TotalAppend(xs, ys, s);
    }
    SameCounts(SumSides(xs + ys), SumSides(xs), SumSides(ys));
  }

  /** A tally whose every counter is the sum of two tallies' counters is
      their combination. */
  lemma SameCounts(l: Tally, a: Tally, b: Tally)
    requires forall s :: Count(l, s) == Count(a, s) + Count(b, s)
    ensures l == Add(a, b)
  {
    Extensionality(l, Add(a, b));
  }

  /** Taking one element out of the middle of a sequence takes its count out of the total. */
  lemma TotalRemove(ys: seq<Tally>, i: int, s: Symbol)
    requires 0 <= i < |ys|
    ensures Total(ys, s) == Count(ys[i], s) + Total(ys[..i] + ys[i + 1..], s)
  {
    assert ys == ys[..i] + ([ys[i]] + ys[i + 1..]);
    TotalAppend(ys[..i], [ys[i]] + ys[i + 1..], s);
    TotalAppend([ys[i]], ys[i + 1..], s);
    TotalAppend(ys[..i], ys[i + 1..], s);
  }

  /** Matching the first element of `xs` with an equal element of its
      permutation `ys` leaves two shorter sequences that are still
      permutations of each other. */
  lemma PermutationStep(xs: seq<Tally>, ys: seq<Tally>, i: int)
    requires multiset(xs) == multiset(ys) && xs != [] && 0 <= i < |ys| && ys[i] == xs[0]
    ensures multiset(xs[1..]) == multiset(ys[..i] + ys[i + 1..])
  {
    var rest := ys[..i] + ys[i + 1..];
    assert xs == [xs[0]] + xs[1..];
    assert ys == ys[..i] + [ys[i]] + ys[i + 1..];
    forall e ensures multiset(xs[1..])[e] == multiset(rest)[e] {
      assert multiset(xs)[e] == multiset([xs[0]])[e] + multiset(xs[1..])[e];
      assert multiset(ys)[e] == multiset(ys[..i])[e] + multiset([ys[i]])[e] + multiset(ys[i + 1..])[e];
    }
  }

  lemma {:induction false} TotalPermutation(xs: seq<Tally>, ys: seq<Tally>, s: Symbol)
    requires multiset(xs) == multiset(ys)
    ensures Total(xs, s) == Total(ys, s)
    decreases |xs|
  {
    if xs == [] {
      assert |ys| == |multiset(ys)| == 0;
    } else {
      assert xs[0] in multiset(ys);
      var i :| 0 <= i < |ys| && ys[i] == xs[0];
      PermutationStep(xs, ys, i);
      TotalPermutation(xs[1..], ys[..i] + ys[i + 1..], s);
      TotalRemove(ys, i, s);
    }
  }

  /** The sum does not depend on the order in which the faces were drawn. */
  lemma SumPermutation(xs: seq<Tally>, ys: seq<Tally>)
    requires multiset(xs) == multiset(ys)
    ensures SumSides(xs) == SumSides(ys)
  {
    forall s ensures Count(SumSides(xs), s) == Count(SumSides(ys), s) {
      TotalPermutation(xs, ys, s);
    }
    Extensionality(SumSides(xs), SumSides(ys));
  }

  lemma {:induction false} TotalNonNegative(xs: seq<Tally>, s: Symbol)
    requires forall i :: 0 <= i < |xs| ==> NonNegative(xs[i])
    ensures Total(xs, s) >= 0
  {
    if xs != [] {
      assert NonNegative(xs[0]);
      TotalNonNegative(xs[1..], s);
    }
  }

  /** A sum of faces with no negative counter has no negative counter. */
  lemma {:induction false} SumNonNegative(xs: seq<Tally>)
    requires forall i :: 0 <= i < |xs| ==> NonNegative(xs[i])
    ensures NonNegative(SumSides(xs))
  {
    forall s ensures Count(SumSides(xs), s) >= 0 {
      TotalNonNegative(xs, s);
    }
  }

  /** If no element shows more than `hi` of symbol `s`, the total shows at most
      `hi` per element. */
  lemma {:induction false} TotalAtMost(xs: seq<Tally>, s: Symbol, hi: int)
    requires forall i :: 0 <= i < |xs| ==> Count(xs[i], s) <= hi
    ensures Total(xs, s) <= |xs| * hi
  {
    if xs != [] {
      TotalAtMost(xs[1..], s, hi);
      assert |xs| * hi == hi + (|xs| - 1) * hi;
    }
  }
}
