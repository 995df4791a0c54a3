/** The generic interval set, a std::set of intervals ordered by their starts,
    for bounded intervals, and its agreement with the vector of slices. */
module GenericIntervals {
  import opened IntervalSets
  import opened IntervalLaws

  class GenericSet<K(==, !new)> {
    const lt: (K, K) -> bool
    var intervals: seq<Interval<K>>

    ghost predicate Valid()
      reads this
    {
      TotalOrder(lt) && WellFormed(lt, intervals) && !Unbounded(intervals)
    }

    constructor (lt: (K, K) -> bool)
      requires TotalOrder(lt)
      ensures Valid() && intervals == [] && this.lt == lt
    {
      this.lt, intervals := lt, [];
    }

    /** Where the scan for intervals to merge begins. */
    method MergeStart(i: Interval<K>) returns (it: nat)
      requires Valid()
      ensures Begins(lt, intervals, i, it)
    {
      it := 0;
      while it != |intervals| && lt(intervals[it].start, i.start)
        invariant it <= |intervals|
        invariant forall k :: 0 <= k < it ==> lt(intervals[k].start, i.start)
      {
        it := it + 1;
      }
      if it != 0 {
        it := it - 1;
        if intervals[it].end.At? && lt(intervals[it].end.key, i.start) {
          it := it + 1;
        }
      }
    }

    /** The loop that merges and remembers what to erase. */
    method Collect(i: Interval<K>, it0: nat) returns (newStart: K, newEnd: K, toErase: seq<nat>, it: nat)
      requires Valid() && i.end.At? && lt(i.start, i.end.key) && Begins(lt, intervals, i, it0)
      ensures Absorbed(lt, intervals, i, it0, it, newStart, newEnd)
      ensures it < |intervals| ==> lt(newEnd, intervals[it].start)
      ensures |toErase| == it - it0 && forall k :: 0 <= k < |toErase| ==> toErase[k] == it0 + k
    {
      newStart, newEnd, it, toErase := i.start, i.end.key, it0, [];
      while it != |intervals| && !lt(newEnd, intervals[it].start)
        invariant Absorbed(lt, intervals, i, it0, it, newStart, newEnd)
        invariant |toErase| == it - it0 && forall k :: 0 <= k < |toErase| ==> toErase[k] == it0 + k
      {
        if intervals[it].end.At? && lt(intervals[it].end.key, newStart) {
          // never: the intervals from it0 on end at or after newStart
          assert false;
        }
        if lt(intervals[it].start, newStart) {
          newStart := intervals[it].start;
        }
        if lt(newEnd, intervals[it].end.key) {
          newEnd := intervals[it].end.key;
        }
        toErase := toErase + [it];
        it := it + 1;
      }
    }

    /** The deferred erasure. Iterators stay valid in a std::set; positions in a
        sequence do from the back. */
    method EraseAll(toErase: seq<nat>, ghost a: nat, ghost b: nat)
      requires a <= b <= |intervals| && |toErase| == b - a
      requires forall k :: 0 <= k < |toErase| ==> toErase[k] == a + k
      modifies this`intervals
      ensures intervals == old(intervals)[..a] + old(intervals)[b..]
    {
      var n := |toErase|;
      while n > 0
        invariant 0 <= n <= |toErase| && intervals == old(intervals)[..a + n] + old(intervals)[b..]
      {
        n := n - 1;
        var at := toErase[n];
        intervals := intervals[..at] + intervals[at + 1..];
      }
    }

    /** std::set::insert: at its place by start, unless that start is taken. */
    method InsertSorted(n: Interval<K>, ghost v: seq<Interval<K>>, ghost a: nat, ghost b: nat, ghost s: Interval<K>)
      requires TotalOrder(lt) && WellFormed(lt, v) && Merges(lt, v, a, b, s, n)
      requires intervals == v[..a] + v[b..]
      modifies this`intervals
      ensures intervals == Replace(v, a, b, n)
    {
      var pos := 0;
      while pos < |intervals| && lt(intervals[pos].start, n.start)
        invariant pos <= |intervals| && intervals == v[..a] + v[b..]
        invariant forall k :: 0 <= k < pos ==> lt(intervals[k].start, n.start)
      {
        pos := pos + 1;
      }
      PositionInGap(lt, v, a, b, s, n, pos);
      assert a < |intervals| ==> intervals[a] == v[b];
      if pos == |intervals| || lt(n.start, intervals[pos].start) {
        intervals := intervals[..pos] + [n] + intervals[pos..];
      } else {
        // never: no other interval has this start
        assert false;
      }
    }

    /** insertImpl for a bounded interval whose end is not before its start. */
    method Insert(i: Interval<K>)
      requires Valid() && i.end.At? && !lt(i.end.key, i.start)
      modifies this`intervals
      ensures Valid() && Inserted(lt, false, old(intervals), i, intervals)
      ensures i.end.key == i.start ==> intervals == old(intervals)
      ensures lt(i.start, i.end.key) ==> Gains(lt, old(intervals), intervals, Added(old(intervals), i))
    {
      if !lt(i.start, i.end.key) {
        return;
      }
      ghost var v := intervals;
      var it0 := MergeStart(i);
      var newStart, newEnd, toErase, it := Collect(i, it0);
      var n := Interval(newStart, At(newEnd));
      BoundedMerges(lt, v, i, it0, it, newStart, newEnd);
      EraseAll(toErase, it0, it);
      InsertSorted(n, v, it0, it, i);
      MergeIsWellFormed(lt, v, it0, it, i, n);
      MergeIsUnbounded(lt, v, it0, it, i, n);
      forall x
        ensures In(lt, intervals, x) <==> In(lt, v, x) || Covers(lt, i, x)
      {
        MergePoints(lt, v, it0, it, i, n, x);
      }
    }
  }

  /** Both implementations, fed the same bounded intervals, pass through the same
      vectors. */
  method BuildBoth<K(==, !new)>(lt: (K, K) -> bool, xs: seq<Interval<K>>)
    returns (slices: IntervalSet<K>, generic: GenericSet<K>, ghost vs: seq<seq<Interval<K>>>)
    requires TotalOrder(lt) && AllBounded(xs)
    requires forall k :: 0 <= k < |xs| ==> !lt(xs[k].end.key, xs[k].start)
    ensures Run(lt, xs, vs) && slices.intervals == generic.intervals == vs[|xs|]
    ensures forall ws, n :: Run(lt, xs, ws) && 0 <= n <= |xs| ==> ws[n] == vs[n]
  {
    slices, vs := Build(lt, xs);
    ghost var ws;
    generic, ws := BuildGeneric(lt, xs);
    RunsAgree(lt, xs, vs, ws, |xs|);
    forall us, n | Run(lt, xs, us) && 0 <= n <= |xs|
      ensures us[n] == vs[n]
    {
      RunsAgree(lt, xs, us, vs, n);
    }
  }

  method BuildGeneric<K(==, !new)>(lt: (K, K) -> bool, xs: seq<Interval<K>>)
    returns (built: GenericSet<K>, ghost vs: seq<seq<Interval<K>>>)
    requires TotalOrder(lt) && AllBounded(xs)
    requires forall k :: 0 <= k < |xs| ==> !lt(xs[k].end.key, xs[k].start)
    ensures Run(lt, xs, vs) && built.intervals == vs[|xs|]
  {
    built := new GenericSet(lt);
    vs := [[]];
    for n := 0 to |xs|
      invariant fresh(built) && built.Valid() && built.lt == lt
      invariant |vs| == n + 1 && vs[0] == [] && vs[n] == built.intervals
      invariant forall k :: 0 <= k < n ==> Inserted(lt, false, vs[k], xs[k], vs[k + 1])
    {
      built.Insert(xs[n]);
      vs := vs + [built.intervals];
    }
  }

  /** The contract of insertion leaves no choice of the resulting vector. */
  lemma InsertionIsDetermined<K(!new)>(lt: (K, K) -> bool, refuse: bool, v: seq<Interval<K>>, i: Interval<K>,
                                       v': seq<Interval<K>>, v'': seq<Interval<K>>)
    requires TotalOrder(lt) && Inserted(lt, refuse, v, i, v') && Inserted(lt, refuse, v, i, v'')
    ensures v' == v''
  {
    if Accepts(lt, refuse, v, i) {
      Canonical(lt, v', v'');
    }
  }

  /** Two runs over the same intervals pass through the same vectors. */
  lemma {:induction false} RunsAgree<K(!new)>(lt: (K, K) -> bool, xs: seq<Interval<K>>, vs: seq<seq<Interval<K>>>,
                                             ws: seq<seq<Interval<K>>>, n: nat)
    requires TotalOrder(lt) && Run(lt, xs, vs) && Run(lt, xs, ws) && n <= |xs|
    ensures vs[n] == ws[n]
  {
    if n > 0 {
      RunsAgree(lt, xs, vs, ws, n - 1);
      InsertionIsDetermined(lt, false, vs[n - 1], xs[n - 1], vs[n], ws[n]);
    }
  }
}
