/** Sequence helpers shared by the text model, the views and the enrichment client. */
module Seqs {

  /**
   * The number of elements an `enumerate` loop over `n` elements visits
   * when it breaks as soon as `idx == cap`: a cap in 0..n-1 stops the loop
   * there, any other cap (a negative one included) never fires.
   */
  function Taken(cap: int, n: nat): (k: nat)
    ensures k <= n
    ensures 0 <= cap ==> k == if cap < n then cap else n
    ensures cap < 0 ==> k == n
  {
    if 0 <= cap < n then cap else n
  }

  /**
   * The parts joined by `sep`: the separator stands between consecutive
   * parts only. Defined on the last part, the way a loop appends.
   */
  function Intercalate<T>(sep: seq<T>, parts: seq<seq<T>>): seq<T>
    decreases |parts|
  {
    if |parts| == 0 then []
    else if |parts| == 1 then parts[0]
    else Intercalate(sep, parts[..|parts| - 1]) + sep + parts[|parts| - 1]
  }

  /** Every part of `parts` is a single element. */
  predicate Singletons<T>(parts: seq<seq<T>>)
  {
    forall j :: 0 <= j < |parts| ==> |parts[j]| == 1
  }

  /**
   * Singleton parts joined by a one-element separator alternate with it:
   * part j sits at 2j, the separator at every odd index, none at the end.
   */
  lemma {:induction false} IntercalateAlternates<T>(s: T, parts: seq<seq<T>>)
    requires Singletons(parts) && |parts| > 0
    ensures |Intercalate([s], parts)| == 2 * |parts| - 1
    ensures forall j :: 0 <= j < |parts| ==> Intercalate([s], parts)[2 * j] == parts[j][0]
    ensures forall j :: 0 <= j < |parts| - 1 ==> Intercalate([s], parts)[2 * j + 1] == s
    decreases |parts|
  {
    if |parts| > 1 {
      var init := parts[..|parts| - 1];
      IntercalateAlternates(s, init);
      assert Intercalate([s], parts) == Intercalate([s], init) + [s] + parts[|parts| - 1];
    }
  }

  /** Singleton parts joined by nothing are just their elements, in order. */
  lemma {:induction false} IntercalateFlat<T>(parts: seq<seq<T>>)
    requires Singletons(parts)
    ensures |Intercalate([], parts)| == |parts|
    ensures forall j :: 0 <= j < |parts| ==> Intercalate([], parts)[j] == parts[j][0]
    decreases |parts|
  {
    if |parts| > 1 {
      IntercalateFlat(parts[..|parts| - 1]);
    }
  }

  /** The join starts with the first part. */
  lemma {:induction false} IntercalateStartsWith<T>(sep: seq<T>, parts: seq<seq<T>>)
    requires |parts| > 0
    ensures parts[0] <= Intercalate(sep, parts)
    decreases |parts|
  {
    if |parts| > 1 {
      var init := parts[..|parts| - 1];
      IntercalateStartsWith(sep, init);
      assert init[0] == parts[0];
    }
  }

  /** Intercalating one more part appends the separator and that part. */
  lemma IntercalateSnoc<T>(sep: seq<T>, parts: seq<seq<T>>, p: seq<T>)
    ensures Intercalate(sep, parts + [p]) == if |parts| == 0 then p else Intercalate(sep, parts) + sep + p
  {
    assert (parts + [p])[..|parts|] == parts;
  }

  /** How many times `x` occurs in `s`. */
  function Count<T(==)>(s: seq<T>, x: T): nat
    decreases |s|
  {
    if |s| == 0 then 0 else Count(s[..|s| - 1], x) + (if s[|s| - 1] == x then 1 else 0)
  }

  lemma {:induction false} CountConcat<T>(a: seq<T>, b: seq<T>, x: T)
    ensures Count(a + b, x) == Count(a, x) + Count(b, x)
    decreases |b|
  {
    if |b| > 0 {
      assert (a + b)[..|a + b| - 1] == a + b[..|b| - 1];
      CountConcat(a, b[..|b| - 1], x);
    } else {
      assert a + b == a;
    }
  }

  /** Joining k parts, none of which contains `s`, with `[s]` puts exactly k - 1 copies of `s` in. */
  lemma {:induction false} IntercalateCount<T>(s: T, parts: seq<seq<T>>)
    requires |parts| > 0
    requires forall j :: 0 <= j < |parts| ==> Count(parts[j], s) == 0
    ensures Count(Intercalate([s], parts), s) == |parts| - 1
    decreases |parts|
  {
    if |parts| > 1 {
      var init := parts[..|parts| - 1];
      IntercalateCount(s, init);
      CountConcat(Intercalate([s], init), [s], s);
      CountConcat(Intercalate([s], init) + [s], parts[|parts| - 1], s);
      assert [s][..0] == [];
    }
  }
}
