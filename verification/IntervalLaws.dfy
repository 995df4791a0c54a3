/** What the interval sets mean over whole sequences of insertions: the vector is
    determined by its points, the order of insertions does not matter, and where
    the documentation promises too much. */
module IntervalLaws {
  import KeyCodec
  import opened IntervalSets

  /** The bytewise comparator is such an order. */
  lemma BytewiseIsTotal()
    ensures TotalOrder(KeyCodec.Less)
  {
    forall a: KeyCodec.Bytes
      ensures !KeyCodec.Less(a, a)
    {
      KeyCodec.LessIsIrreflexive(a);
    }
    forall a: KeyCodec.Bytes, b: KeyCodec.Bytes, c: KeyCodec.Bytes | KeyCodec.Less(a, b) && KeyCodec.Less(b, c)
      ensures KeyCodec.Less(a, c)
    {
      KeyCodec.LessIsTransitive(a, b, c);
    }
    forall a: KeyCodec.Bytes, b: KeyCodec.Bytes
      ensures KeyCodec.Less(a, b) || a == b || KeyCodec.Less(b, a)
    {
      KeyCodec.LessIsTotal(a, b);
    }
  }

  // ---- Canonicity -------------------------------------------------------------------

  ghost predicate SamePoints<K(!new)>(lt: (K, K) -> bool, v: seq<Interval<K>>, w: seq<Interval<K>>) {
    forall x :: In(lt, v, x) <==> In(lt, w, x)
  }

  lemma StartIsIn<K(!new)>(lt: (K, K) -> bool, v: seq<Interval<K>>, k: nat)
    requires TotalOrder(lt) && WellFormed(lt, v) && k < |v|
    ensures In(lt, v, v[k].start)
  {
    assert Covers(lt, v[k], v[k].start);
  }

  lemma EndIsOut<K(!new)>(lt: (K, K) -> bool, v: seq<Interval<K>>, k: nat)
    requires TotalOrder(lt) && WellFormed(lt, v) && k < |v| && v[k].end.At?
    ensures !In(lt, v, v[k].end.key)
  {
    forall j | 0 <= j < |v|
      ensures !Covers(lt, v[j], v[k].end.key)
    {
    }
  }

  /** No point lies before the first interval. */
  lemma NothingBefore<K(!new)>(lt: (K, K) -> bool, v: seq<Interval<K>>, x: K)
    requires TotalOrder(lt) && WellFormed(lt, v) && In(lt, v, x)
    ensures v != [] && !lt(x, v[0].start)
  {
    var k :| 0 <= k < |v| && Covers(lt, v[k], x);
  }

  /** The first interval of v cannot end later than the first of w. */
  lemma FirstEndsNoLater<K(!new)>(lt: (K, K) -> bool, v: seq<Interval<K>>, w: seq<Interval<K>>)
    requires TotalOrder(lt) && WellFormed(lt, v) && WellFormed(lt, w) && SamePoints(lt, v, w)
    requires v != [] && w != [] && v[0].start == w[0].start && w[0].end.At?
    ensures v[0].end.At? && !lt(w[0].end.key, v[0].end.key)
  {
    var e := w[0].end.key;
    EndIsOut(lt, w, 0);
    assert !In(lt, v, e);
    assert !Covers(lt, v[0], e);
  }

  lemma TailPoints<K(!new)>(lt: (K, K) -> bool, v: seq<Interval<K>>, x: K)
    requires TotalOrder(lt) && WellFormed(lt, v) && v != []
    ensures In(lt, v[1..], x) <==> In(lt, v, x) && !Covers(lt, v[0], x)
  {
    if In(lt, v[1..], x) {
      var k :| 0 <= k < |v[1..]| && Covers(lt, v[1..][k], x);
      assert v[1..][k] == v[k + 1];
    }
    if In(lt, v, x) && !Covers(lt, v[0], x) {
      var k :| 0 <= k < |v| && Covers(lt, v[k], x);
      assert v[1..][k - 1] == v[k];
    }
  }

  lemma TailIsWellFormed<K>(lt: (K, K) -> bool, v: seq<Interval<K>>)
    requires WellFormed(lt, v) && v != []
    ensures WellFormed(lt, v[1..])
  {
    var w := v[1..];
    forall j, k | 0 <= j < k < |w|
      ensures Before(lt, w[j], w[k])
    {
      assert w[j] == v[j + 1] && w[k] == v[k + 1] && Before(lt, v[j + 1], v[k + 1]);
    }
  }

  lemma FirstsAgree<K(!new)>(lt: (K, K) -> bool, v: seq<Interval<K>>, w: seq<Interval<K>>)
    requires TotalOrder(lt) && WellFormed(lt, v) && WellFormed(lt, w) && SamePoints(lt, v, w)
    requires v != [] && w != []
    ensures v[0] == w[0]
  {
    StartIsIn(lt, v, 0);
    StartIsIn(lt, w, 0);
    NothingBefore(lt, v, w[0].start);
    NothingBefore(lt, w, v[0].start);
    if w[0].end.At? {
      FirstEndsNoLater(lt, v, w);
    }
    if v[0].end.At? {
      FirstEndsNoLater(lt, w, v);
    }
  }

  /** The representation is canonical: well-formed vectors with the same points
      are equal. */
  lemma {:induction false} Canonical<K(!new)>(lt: (K, K) -> bool, v: seq<Interval<K>>, w: seq<Interval<K>>)
    requires TotalOrder(lt) && WellFormed(lt, v) && WellFormed(lt, w) && SamePoints(lt, v, w)
    ensures v == w
    decreases |v|
  {
    if v == [] || w == [] {
      if v != [] {
        StartIsIn(lt, v, 0);
      }
      if w != [] {
        StartIsIn(lt, w, 0);
      }
    } else {
      FirstsAgree(lt, v, w);
      forall x
        ensures In(lt, v[1..], x) <==> In(lt, w[1..], x)
      {
        TailPoints(lt, v, x);
        TailPoints(lt, w, x);
      }
      TailIsWellFormed(lt, v);
      TailIsWellFormed(lt, w);
      Canonical(lt, v[1..], w[1..]);
      assert v == [v[0]] + v[1..] && w == [w[0]] + w[1..];
    }
  }

  // ---- Sequences of insertions --------------------------------------------------------

  /** vs are the vectors of a set, initially empty, into which the intervals are
      inserted one after the other in merging mode. */
  ghost predicate Run<K(!new)>(lt: (K, K) -> bool, xs: seq<Interval<K>>, vs: seq<seq<Interval<K>>>) {
    && |vs| == |xs| + 1 && vs[0] == []
    && forall k :: 0 <= k < |xs| ==> Inserted(lt, false, vs[k], xs[k], vs[k + 1])
  }

  /** Building a set by successive calls of Insert is such a run. */
  method Build<K(==, !new)>(lt: (K, K) -> bool, xs: seq<Interval<K>>)
    returns (built: IntervalSet<K>, ghost vs: seq<seq<Interval<K>>>)
    requires TotalOrder(lt)
    ensures Run(lt, xs, vs) && built.intervals == vs[|xs|]
  {
    built := new IntervalSet(lt, false);
    vs := [[]];
    for n := 0 to |xs|
      invariant fresh(built) && built.Valid() && built.lt == lt && !built.prop
      invariant |vs| == n + 1 && vs[0] == [] && vs[n] == built.intervals
      invariant forall k :: 0 <= k < n ==> Inserted(lt, false, vs[k], xs[k], vs[k + 1])
    {
      var _ := built.Insert(xs[n]);
      vs := vs + [built.intervals];
    }
  }

  predicate AllBounded<K>(xs: seq<Interval<K>>) {
    forall k :: 0 <= k < |xs| ==> xs[k].end.At?
  }

  lemma {:induction false} RunPoints<K(!new)>(lt: (K, K) -> bool, xs: seq<Interval<K>>, vs: seq<seq<Interval<K>>>, n: nat)
    requires TotalOrder(lt) && Run(lt, xs, vs) && AllBounded(xs) && n <= |xs|
    ensures WellFormed(lt, vs[n]) && !Unbounded(vs[n])
    ensures forall x :: In(lt, vs[n], x) <==> In(lt, xs[..n], x)
  {
    if n > 0 {
      RunPoints(lt, xs, vs, n - 1);
      var i := xs[n - 1];
      assert Inserted(lt, false, vs[n - 1], i, vs[n]);
      forall x
        ensures In(lt, vs[n], x) <==> In(lt, xs[..n], x)
      {
        InAppend(lt, xs[..n - 1], i, x);
        assert xs[..n] == xs[..n - 1] + [i];
      }
    }
  }

  /** x lies at or above the start of some non-empty interval among xs[m..n]. */
  ghost predicate Above<K>(lt: (K, K) -> bool, xs: seq<Interval<K>>, m: int, n: int, x: K) {
    exists j :: 0 <= m <= j < n <= |xs| && NonEmpty(lt, xs[j]) && !lt(x, xs[j].start)
  }

  predicate NonEmpty<K>(lt: (K, K) -> bool, i: Interval<K>) {
    i.end.At? ==> lt(i.start, i.end.key)
  }

  lemma AboveNext<K(!new)>(lt: (K, K) -> bool, xs: seq<Interval<K>>, m: nat, n: nat, x: K)
    requires m <= n < |xs|
    ensures Above(lt, xs, m, n + 1, x) <==> Above(lt, xs, m, n, x) || (NonEmpty(lt, xs[n]) && !lt(x, xs[n].start))
  {
    if Above(lt, xs, m, n, x) {
      var j :| m <= j < n && NonEmpty(lt, xs[j]) && !lt(x, xs[j].start);
      assert Above(lt, xs, m, n + 1, x);
    }
  }

  /** The law for any run. Up to the first unbounded interval, at m, the set has the
      points of what was inserted; from then on each non-empty interval adds all
      points from its start on. */
  lemma {:induction false} AnyRunPoints<K(!new)>(lt: (K, K) -> bool, xs: seq<Interval<K>>,
                                                 vs: seq<seq<Interval<K>>>, m: nat, n: nat)
    requires TotalOrder(lt) && Run(lt, xs, vs) && m < n <= |xs| && AllBounded(xs[..m]) && xs[m].end.Inf?
    ensures WellFormed(lt, vs[n]) && Unbounded(vs[n])
    ensures forall x :: In(lt, vs[n], x) <==> In(lt, xs[..m], x) || Above(lt, xs, m, n, x)
  {
    var i := xs[n - 1];
    assert Inserted(lt, false, vs[n - 1], i, vs[n]);
    if n - 1 == m {
      PrefixRun(lt, xs, vs, m);
      RunPoints(lt, xs[..m], vs[..m + 1], m);
      assert xs[..m][..m] == xs[..m];
    } else {
      AnyRunPoints(lt, xs, vs, m, n - 1);
    }
    forall x
      ensures In(lt, vs[n], x) <==> In(lt, xs[..m], x) || Above(lt, xs, m, n, x)
    {
      AboveNext(lt, xs, m, n - 1, x);
      assert In(lt, vs[n - 1], x) <==> In(lt, xs[..m], x) || Above(lt, xs, m, n - 1, x);
    }
  }

  lemma PrefixRun<K(!new)>(lt: (K, K) -> bool, xs: seq<Interval<K>>, vs: seq<seq<Interval<K>>>, m: nat)
    requires Run(lt, xs, vs) && m <= |xs|
    ensures Run(lt, xs[..m], vs[..m + 1])
  {
  }

  lemma InAppend<K(!new)>(lt: (K, K) -> bool, xs: seq<Interval<K>>, i: Interval<K>, x: K)
    ensures In(lt, xs + [i], x) <==> In(lt, xs, x) || Covers(lt, i, x)
  {
    if In(lt, xs, x) {
      var k :| 0 <= k < |xs| && Covers(lt, xs[k], x);
      assert (xs + [i])[k] == xs[k];
    }
    if Covers(lt, i, x) {
      assert (xs + [i])[|xs|] == i;
    }
  }

  lemma SameElementsSamePoints<K(!new)>(lt: (K, K) -> bool, xs: seq<Interval<K>>, ys: seq<Interval<K>>, x: K)
    requires forall i :: i in xs ==> i in ys
    ensures In(lt, xs, x) ==> In(lt, ys, x)
  {
    if In(lt, xs, x) {
      var k :| 0 <= k < |xs| && Covers(lt, xs[k], x);
      assert xs[k] in ys;
    }
  }

  /** Order independence: inserting the same bounded intervals in any order, any
      number of times each, ends in the identical vector. */
  lemma OrderDoesNotMatter<K(!new)>(lt: (K, K) -> bool, xs: seq<Interval<K>>, vs: seq<seq<Interval<K>>>,
                                    ys: seq<Interval<K>>, ws: seq<seq<Interval<K>>>)
    requires TotalOrder(lt) && Run(lt, xs, vs) && Run(lt, ys, ws) && AllBounded(xs) && AllBounded(ys)
    requires forall i :: i in xs <==> i in ys
    ensures vs[|xs|] == ws[|ys|]
  {
    RunPoints(lt, xs, vs, |xs|);
    RunPoints(lt, ys, ws, |ys|);
    assert xs[..|xs|] == xs && ys[..|ys|] == ys;
    forall x
      ensures In(lt, xs, x) <==> In(lt, ys, x)
    {
      SameElementsSamePoints(lt, xs, ys, x);
      SameElementsSamePoints(lt, ys, xs, x);
    }
    Canonical(lt, vs[|xs|], ws[|ys|]);
  }

  // ---- When an insertion is a plain union ------------------------------------------------

  /** A point above i that an unbounded set leaves out: it lies in the gap before
      the last interval. */
  function GapPoint<K>(lt: (K, K) -> bool, v: seq<Interval<K>>, i: Interval<K>): K
    requires i.end.At?
  {
    if |v| >= 2 && v[|v| - 2].end.At? && lt(i.end.key, v[|v| - 2].end.key) then v[|v| - 2].end.key else i.end.key
  }

  lemma GapIsUncovered<K(!new)>(lt: (K, K) -> bool, v: seq<Interval<K>>, i: Interval<K>)
    requires TotalOrder(lt) && WellFormed(lt, v) && Unbounded(v)
    requires i.end.At? && lt(i.start, i.end.key) && lt(i.end.key, v[|v| - 1].start)
    ensures var y := GapPoint(lt, v, i); !In(lt, v, y) && !Covers(lt, i, y) && Covers(lt, Interval(i.start, Inf), y)
  {
    var y := GapPoint(lt, v, i);
    forall k | 0 <= k < |v|
      ensures !Covers(lt, v[k], y)
    {
      if k < |v| - 2 {
        assert Before(lt, v[k], v[|v| - 2]);
        assert lt(v[k].end.key, v[|v| - 2].start) && lt(v[|v| - 2].start, v[|v| - 2].end.key);
      }
    }
  }

  /** An accepted bounded interval adds exactly its own points unless the set has
      an unbounded interval that begins after the end of the new one; then the
      gap between the two is filled as well. */
  lemma PlainUnionIff<K(!new)>(lt: (K, K) -> bool, v: seq<Interval<K>>, i: Interval<K>, v': seq<Interval<K>>)
    requires TotalOrder(lt) && WellFormed(lt, v) && i.end.At? && lt(i.start, i.end.key)
    requires Gains(lt, v, v', Added(v, i))
    ensures Gains(lt, v, v', i) <==> !(Unbounded(v) && lt(i.end.key, v[|v| - 1].start))
  {
    if Unbounded(v) {
      var last := v[|v| - 1];
      if lt(i.end.key, last.start) {
        GapIsUncovered(lt, v, i);
        assert In(lt, v', GapPoint(lt, v, i));
      } else {
        forall x
          ensures Covers(lt, Added(v, i), x) ==> Covers(lt, i, x) || In(lt, v, x)
          ensures Covers(lt, i, x) ==> Covers(lt, Added(v, i), x)
        {
          if !lt(x, last.start) {
            assert Covers(lt, last, x);
          }
        }
      }
    }
  }

  // ---- Refusing intersections ---------------------------------------------------------------

  ghost predicate Intersects<K(!new)>(lt: (K, K) -> bool, v: seq<Interval<K>>, i: Interval<K>) {
    exists x :: In(lt, v, x) && Covers(lt, i, x)
  }

  /** Some interval starts inside i. */
  ghost predicate StartsInside<K>(lt: (K, K) -> bool, v: seq<Interval<K>>, i: Interval<K>) {
    exists k :: 0 <= k < |v| && Covers(lt, i, v[k].start)
  }

  /** With fail_on_intersect, a bounded interval is refused only for what starts
      before it: an interval is accepted although it intersects the set exactly when
      it is bounded, some interval starts inside it and none that starts earlier
      reaches it. */
  lemma AcceptsIntersectionIff<K(!new)>(lt: (K, K) -> bool, v: seq<Interval<K>>, i: Interval<K>)
    requires TotalOrder(lt) && WellFormed(lt, v) && (i.end.At? ==> lt(i.start, i.end.key))
    ensures Accepts(lt, true, v, i) && Intersects(lt, v, i)
            <==> i.end.At? && !Reached(lt, v, i) && StartsInside(lt, v, i)
  {
    if StartsInside(lt, v, i) {
      var k :| 0 <= k < |v| && Covers(lt, i, v[k].start);
      StartIsIn(lt, v, k);
    }
    if !Reached(lt, v, i) && Intersects(lt, v, i) {
      // then some interval starts inside i, and an unbounded i is refused
      var x :| In(lt, v, x) && Covers(lt, i, x);
      var k :| 0 <= k < |v| && Covers(lt, v[k], x);
      assert Covers(lt, i, v[k].start);
    }
  }

  /** Some interval ends exactly where i starts. */
  ghost predicate Touched<K>(v: seq<Interval<K>>, i: Interval<K>) {
    exists k :: 0 <= k < |v| && v[k].end == At(i.start)
  }

  /** And it is refused although it is disjoint from the set exactly when some
      interval ends where it starts and none starts inside it. */
  lemma RefusesDisjointIff<K(!new)>(lt: (K, K) -> bool, v: seq<Interval<K>>, i: Interval<K>)
    requires TotalOrder(lt) && WellFormed(lt, v) && (i.end.At? ==> lt(i.start, i.end.key))
    ensures !Accepts(lt, true, v, i) && !Intersects(lt, v, i) <==> Touched(v, i) && !StartsInside(lt, v, i)
  {
    assert Covers(lt, i, i.start);
    if !Accepts(lt, true, v, i) && !Intersects(lt, v, i) {
      forall j | 0 <= j < |v|
        ensures !Covers(lt, i, v[j].start)
      {
        StartIsIn(lt, v, j);
      }
      var k :| 0 <= k < |v| && lt(v[k].start, i.start) && (v[k].end.At? ==> !lt(v[k].end.key, i.start));
      assert !In(lt, v, i.start);
      assert !Covers(lt, v[k], i.start);
    }
    if Touched(v, i) && !StartsInside(lt, v, i) {
      var k :| 0 <= k < |v| && v[k].end == At(i.start);
      assert Reached(lt, v, i);
      EndIsOut(lt, v, k);
      forall j, x | 0 <= j < |v| && Covers(lt, v[j], x)
        ensures !Covers(lt, i, x)
      {
        assert !Covers(lt, v[j], i.start) && !Covers(lt, i, v[j].start);
      }
    }
  }

  /** For instance, [3, 6) is accepted into {[5, 8)}. */
  lemma IntersectionAcceptedExample()
    ensures var lt := (a: int, b: int) => a < b; var v := [Interval(5, At(8))]; var i := Interval(3, At(6));
            WellFormed(lt, v) && Accepts(lt, true, v, i) && Intersects(lt, v, i)
  {
    var lt := (a: int, b: int) => a < b;
    var v := [Interval(5, At(8))];
    assert Covers(lt, v[0], 5) && Covers(lt, Interval(3, At(6)), 5);
    assert In(lt, v, 5);
  }

  /** And [3, 4) is refused by {[1, 3)}. */
  lemma DisjointRefusedExample()
    ensures var lt := (a: int, b: int) => a < b; var v := [Interval(1, At(3))]; var i := Interval(3, At(4));
            WellFormed(lt, v) && !Accepts(lt, true, v, i) && !Intersects(lt, v, i)
  {
    var lt := (a: int, b: int) => a < b;
    var v := [Interval(1, At(3))];
    var i := Interval(3, At(4));
    assert v[0].end == At(i.start);
    RefusesDisjointIff(lt, v, i);
  }

  /** Inserting [1, 2) into {[5, infinity)} adds the point 3. */
  lemma GapFilledExample(v': seq<Interval<int>>)
    requires var lt := (a: int, b: int) => a < b;
             Inserted(lt, false, [Interval(5, Inf)], Interval(1, At(2)), v')
    ensures var lt := (a: int, b: int) => a < b;
            !In(lt, [Interval(5, Inf)], 3) && !Covers(lt, Interval(1, At(2)), 3) && In(lt, v', 3)
  {
    var lt := (a: int, b: int) => a < b;
    assert Covers(lt, Added([Interval(5, Inf)], Interval(1, At(2))), 3);
  }
}
