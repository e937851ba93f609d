/** Comparison of release versions made of numeric segments only, as in the
    "Final releases" part of PEP 440: segments are compared left to right as
    numbers, and a shorter release counts as padded with zeros, so 1.3 and
    1.3.0 are the same version. */
module Versions {

  /** Segment `i` of `v`, zero past its end. */
  function Segment(v: seq<nat>, i: nat): nat
  {
    if i < |v| then v[i] else 0
  }

  /** `v` without its first segment. */
  function Rest(v: seq<nat>): seq<nat>
  {
    if v == [] then [] else v[1..]
  }

  /** -1, 0 or 1 as `a` is below, equal to or above `b`. */
  function Compare(a: seq<nat>, b: seq<nat>): (c: int)
    ensures -1 <= c <= 1
    decreases |a| + |b|
  {
    if a == [] && b == [] then 0
    else
      var x, y := Segment(a, 0), Segment(b, 0);
      if x < y then -1
      else if x > y then 1
      else Compare(Rest(a), Rest(b))
  }

  predicate AtLeast(v: seq<nat>, minimum: seq<nat>)
  {
    Compare(v, minimum) >= 0
  }

  function Max(x: nat, y: nat): nat
  {
    if x < y then y else x
  }

  lemma SegmentRest(v: seq<nat>, i: nat)
    ensures Segment(Rest(v), i) == Segment(v, i + 1)
  {
  }

  /** Two releases compare equal exactly when they agree on every segment
      once padded to the same length. */
  lemma {:induction false} CompareZeroIff(a: seq<nat>, b: seq<nat>)
    ensures Compare(a, b) == 0 <==> forall i :: 0 <= i < Max(|a|, |b|) ==> Segment(a, i) == Segment(b, i)
    decreases |a| + |b|
  {
    if a == [] && b == [] {
    } else if Segment(a, 0) != Segment(b, 0) {
      assert 0 < Max(|a|, |b|);
    } else {
      CompareZeroIff(Rest(a), Rest(b));
      assert Compare(a, b) == Compare(Rest(a), Rest(b));
      var n := Max(|a|, |b|);
      assert Max(|Rest(a)|, |Rest(b)|) == n - 1;
      if Compare(a, b) == 0 {
        forall i | 0 <= i < n ensures Segment(a, i) == Segment(b, i) {
          if i > 0 {
            SegmentRest(a, i - 1);
            SegmentRest(b, i - 1);
          }
        }
      } else {
        var j :| 0 <= j < n - 1 && Segment(Rest(a), j) != Segment(Rest(b), j);
        SegmentRest(a, j);
        SegmentRest(b, j);
        assert Segment(a, j + 1) != Segment(b, j + 1);
      }
    }
  }

  /** Appending a zero segment does not change the version. */
  lemma {:induction false} CompareTrailingZero(a: seq<nat>, b: seq<nat>)
    ensures Compare(a + [0], b) == Compare(a, b)
    decreases |a| + |b|
  {
    if a == [] {
      CompareZeroWith(b);
    } else {
      assert (a + [0])[0] == a[0];
      assert Rest(a + [0]) == Rest(a) + [0];
      CompareTrailingZero(Rest(a), Rest(b));
    }
  }

  lemma {:induction false} CompareZeroWith(b: seq<nat>)
    ensures Compare([0], b) == Compare([], b)
    decreases |b|
  {
    if b != [] && b[0] == 0 {
      CompareZeroWith(b[1..]);
      assert Compare([0], b) == Compare([], b[1..]);
      CompareEmptyRest(b);
    }
  }

  lemma CompareEmptyRest(b: seq<nat>)
    requires b != [] && b[0] == 0
    ensures Compare([], b) == Compare([], b[1..])
  {
  }

  /** Swapping the arguments reverses the comparison. */
  lemma {:induction false} CompareAntisymmetric(a: seq<nat>, b: seq<nat>)
    ensures Compare(b, a) == -Compare(a, b)
    decreases |a| + |b|
  {
    if !(a == [] && b == []) && Segment(a, 0) == Segment(b, 0) {
      CompareAntisymmetric(Rest(a), Rest(b));
    }
  }

  /** The order is transitive. */
  lemma {:induction false} CompareTransitive(a: seq<nat>, b: seq<nat>, c: seq<nat>)
    requires Compare(a, b) <= 0 && Compare(b, c) <= 0
    ensures Compare(a, c) <= 0
    decreases |a| + |b| + |c|
  {
    if a == [] && b == [] && c == [] {
    } else if Segment(a, 0) == Segment(b, 0) == Segment(c, 0) {
      assert Compare(a, b) == Compare(Rest(a), Rest(b)) by { CompareStep(a, b); }
      assert Compare(b, c) == Compare(Rest(b), Rest(c)) by { CompareStep(b, c); }
      CompareTransitive(Rest(a), Rest(b), Rest(c));
      CompareStep(a, c);
    } else {
      CompareHead(a, b);
      CompareHead(b, c);
      CompareHead(a, c);
    }
  }

  /** When the first segments agree the comparison moves on to the rest. */
  lemma CompareStep(a: seq<nat>, b: seq<nat>)
    requires Segment(a, 0) == Segment(b, 0)
    ensures Compare(a, b) == Compare(Rest(a), Rest(b))
  {
  }

  /** The first segment decides when it differs, and is never contradicted. */
  lemma CompareHead(a: seq<nat>, b: seq<nat>)
    ensures Compare(a, b) <= 0 ==> Segment(a, 0) <= Segment(b, 0)
    ensures Segment(a, 0) < Segment(b, 0) ==> Compare(a, b) == -1
  {
  }

  /** The two cases the gate is known for: 1.3.1 passes, 1.2.9 does not. */
  lemma GateExamples()
    ensures AtLeast([1, 3, 1], [1, 3, 1])
    ensures !AtLeast([1, 2, 9], [1, 3, 1])
    ensures AtLeast([1, 3, 1, 0], [1, 3, 1]) && AtLeast([1, 10], [1, 3, 1])
  {
    CompareZeroIff([1, 3, 1], [1, 3, 1]);
    CompareTrailingZero([1, 3, 1], [1, 3, 1]);
    assert [1, 3, 1] + [0] == [1, 3, 1, 0];
  }
}
