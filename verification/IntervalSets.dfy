/** Sets of half-open intervals, kept as a sorted vector of disjoint intervals.
    The keys are of any type with a total order, as a Comparator supplies it:
    lt(a, b) says that Compare(a, b) is negative. */
module IntervalSets {

  datatype End<K> = Inf | At(key: K)

  datatype Interval<K> = Interval(start: K, end: End<K>)

  /** Compare is a total order and 0 only on equal keys. */
  ghost predicate TotalOrder<K(!new)>(lt: (K, K) -> bool) {
    && (forall a :: !lt(a, a))
    && (forall a, b, c :: lt(a, b) && lt(b, c) ==> lt(a, c))
    && (forall a, b :: lt(a, b) || a == b || lt(b, a))
  }

  // ---- Meaning --------------------------------------------------------------------

  predicate Covers<K>(lt: (K, K) -> bool, i: Interval<K>, x: K) {
    !lt(x, i.start) && (i.end.At? ==> lt(x, i.end.key))
  }

  /** x is a point of one of the intervals. */
  ghost predicate In<K>(lt: (K, K) -> bool, v: seq<Interval<K>>, x: K) {
    exists k :: 0 <= k < |v| && Covers(lt, v[k], x)
  }

  /** The representation: no interval is empty, and each ends strictly before the
      next begins, so that only the last may be unbounded. */
  ghost predicate WellFormed<K>(lt: (K, K) -> bool, v: seq<Interval<K>>) {
    && (forall k :: 0 <= k < |v| && v[k].end.At? ==> lt(v[k].start, v[k].end.key))
    && (forall j, k :: 0 <= j < k < |v| ==> Before(lt, v[j], v[k]))
  }

  /** a ends strictly before b starts. */
  predicate Before<K>(lt: (K, K) -> bool, a: Interval<K>, b: Interval<K>) {
    a.end.At? && lt(a.end.key, b.start)
  }

  /** The vector's last interval is unbounded. */
  predicate Unbounded<K>(v: seq<Interval<K>>) {
    v != [] && v[|v| - 1].end.Inf?
  }

  /** What an insertion adds: the interval itself, or everything from its start
      on if the set is already unbounded. */
  function Added<K>(v: seq<Interval<K>>, i: Interval<K>): Interval<K> {
    if Unbounded(v) then Interval(i.start, Inf) else i
  }

  /** v' has the points of v and those of s, and no others. */
  ghost predicate Gains<K(!new)>(lt: (K, K) -> bool, v: seq<Interval<K>>, v': seq<Interval<K>>, s: Interval<K>) {
    forall x :: In(lt, v', x) <==> In(lt, v, x) || Covers(lt, s, x)
  }

  // ---- Replacing a stretch of intervals by one -------------------------------------

  /** a lies within b. */
  predicate Within<K>(lt: (K, K) -> bool, a: Interval<K>, b: Interval<K>) {
    && !lt(a.start, b.start)
    && (b.end.At? ==> a.end.At? && !lt(b.end.key, a.end.key))
  }

  /** n is the union of s and v[a..b], and lies strictly between the others. */
  ghost predicate Merges<K>(lt: (K, K) -> bool, v: seq<Interval<K>>, a: nat, b: nat, s: Interval<K>, n: Interval<K>) {
    && a <= b <= |v|
    && (forall k :: 0 <= k < a ==> v[k].end.At? && lt(v[k].end.key, n.start))
    && (forall k :: b <= k < |v| ==> n.end.At? && lt(n.end.key, v[k].start))
    && (n.end.At? ==> lt(n.start, n.end.key))
    && Within(lt, s, n) && (forall k :: a <= k < b ==> Within(lt, v[k], n))
    && (n.start == s.start
        || (a < b && n.start == v[a].start && (v[a].end.At? ==> !lt(v[a].end.key, s.start))))
    && (n.end == s.end
        || (a < b && n.end == v[b - 1].end && s.end.At? && !lt(s.end.key, v[b - 1].start)))
  }

  function Replace<K>(v: seq<Interval<K>>, a: nat, b: nat, n: Interval<K>): (r: seq<Interval<K>>)
    requires a <= b <= |v|
    ensures |r| == a + 1 + |v| - b
    ensures forall k :: 0 <= k < a ==> r[k] == v[k]
    ensures r[a] == n
    ensures forall k :: a < k < |r| ==> r[k] == v[k - a - 1 + b]
  {
    v[..a] + [n] + v[b..]
  }

  lemma MergeIsWellFormed<K(!new)>(lt: (K, K) -> bool, v: seq<Interval<K>>, a: nat, b: nat, s: Interval<K>, n: Interval<K>)
    requires TotalOrder(lt) && WellFormed(lt, v) && Merges(lt, v, a, b, s, n)
    ensures WellFormed(lt, Replace(v, a, b, n))
  {
    var r := Replace(v, a, b, n);
    forall j, k | 0 <= j < k < |r|
      ensures Before(lt, r[j], r[k])
    {
      var j', k' := j - a - 1 + b, k - a - 1 + b;
      if k < a {
        assert r[j] == v[j] && r[k] == v[k];
      } else if j < a < k {
        assert r[j] == v[j] && r[k] == v[k'];
      } else if a < j {
        assert r[j] == v[j'] && r[k] == v[k'];
      } else if j == a {
        assert r[k] == v[k'] && b <= k';
      }
    }
  }

  /** n goes where the stretch was. */
  lemma PositionInGap<K(!new)>(lt: (K, K) -> bool, v: seq<Interval<K>>, a: nat, b: nat, s: Interval<K>, n: Interval<K>, pos: nat)
    requires TotalOrder(lt) && WellFormed(lt, v) && Merges(lt, v, a, b, s, n)
    requires var w := v[..a] + v[b..];
             && pos <= |w| && (forall k :: 0 <= k < pos ==> lt(w[k].start, n.start))
             && (pos < |w| ==> !lt(w[pos].start, n.start))
    ensures pos == a
  {
    var w := v[..a] + v[b..];
    forall k | 0 <= k < a
      ensures lt(w[k].start, n.start)
    {
      assert w[k] == v[k] && lt(v[k].start, v[k].end.key);
    }
    assert a < |w| ==> w[a] == v[b] && lt(n.start, v[b].start);
  }

  lemma MergeIsUnbounded<K(!new)>(lt: (K, K) -> bool, v: seq<Interval<K>>, a: nat, b: nat, s: Interval<K>, n: Interval<K>)
    requires WellFormed(lt, v) && Merges(lt, v, a, b, s, n) && (Unbounded(v) ==> s.end.Inf?)
    ensures Unbounded(Replace(v, a, b, n)) <==> s.end.Inf?
  {
  }

  lemma MergedPoint<K(!new)>(lt: (K, K) -> bool, v: seq<Interval<K>>, a: nat, b: nat, s: Interval<K>, n: Interval<K>, x: K)
    requires TotalOrder(lt) && WellFormed(lt, v) && Merges(lt, v, a, b, s, n)
    ensures Covers(lt, n, x) <==> Covers(lt, s, x) || exists k :: a <= k < b && Covers(lt, v[k], x)
  {
    if Covers(lt, n, x) && !Covers(lt, s, x) {
      if lt(x, s.start) {
        assert Covers(lt, v[a], x);
      } else {
        assert s.end.At? && !lt(x, s.end.key);
        assert Covers(lt, v[b - 1], x);
      }
    }
    if Covers(lt, s, x) {
      assert Within(lt, s, n);
    }
    forall k | a <= k < b && Covers(lt, v[k], x)
      ensures Covers(lt, n, x)
    {
      assert Within(lt, v[k], n);
    }
  }

  /** The points of the merged vector are the old ones and those of s. */
  lemma MergePoints<K(!new)>(lt: (K, K) -> bool, v: seq<Interval<K>>, a: nat, b: nat, s: Interval<K>, n: Interval<K>, x: K)
    requires TotalOrder(lt) && WellFormed(lt, v) && Merges(lt, v, a, b, s, n)
    ensures In(lt, Replace(v, a, b, n), x) <==> In(lt, v, x) || Covers(lt, s, x)
  {
    var r := Replace(v, a, b, n);
    MergedPoint(lt, v, a, b, s, n, x);
    if In(lt, r, x) {
      var k :| 0 <= k < |r| && Covers(lt, r[k], x);
      if k < a {
        assert Covers(lt, v[k], x);
      } else if k > a {
        assert Covers(lt, v[k - a - 1 + b], x);
      }
    }
    if Covers(lt, s, x) {
      assert Covers(lt, r[a], x);
    }
    if In(lt, v, x) {
      var k :| 0 <= k < |v| && Covers(lt, v[k], x);
      if k < a {
        assert Covers(lt, r[k], x);
      } else if k < b {
        assert Covers(lt, r[a], x);
      } else {
        assert Covers(lt, r[k - b + a + 1], x);
      }
    }
  }

  // ---- The merge loop ---------------------------------------------------------------

  /** Where merging i may begin: what lies before ends before i, and only the
      interval at it0 may start before i, if it reaches i. */
  ghost predicate Begins<K>(lt: (K, K) -> bool, v: seq<Interval<K>>, i: Interval<K>, it0: nat) {
    && it0 <= |v|
    && (forall k :: 0 <= k < it0 ==> v[k].end.At? && lt(v[k].end.key, i.start))
    && (it0 < |v| && lt(v[it0].start, i.start) && v[it0].end.At? ==> !lt(v[it0].end.key, i.start))
    && (forall k :: it0 < k < |v| ==> !lt(v[k].start, i.start))
  }

  function MergedStart<K>(lt: (K, K) -> bool, v: seq<Interval<K>>, i: Interval<K>, it0: nat, it: nat): K {
    if it0 < it <= |v| && lt(v[it0].start, i.start) then v[it0].start else i.start
  }

  /** What the loop has computed when it has merged i with v[it0..it]. */
  ghost predicate Absorbed<K>(lt: (K, K) -> bool, v: seq<Interval<K>>, i: Interval<K>, it0: nat, it: nat,
                              newStart: K, newEnd: K)
  {
    && i.end.At? && it0 <= it <= |v|
    && newStart == MergedStart(lt, v, i, it0, it)
    && (forall k :: it0 <= k < it ==> v[k].end.At? && !lt(i.end.key, v[k].start))
    && !lt(newEnd, i.end.key)
    && (newEnd == i.end.key || (it0 < it && newEnd == v[it - 1].end.key))
    && (it0 < it ==> !lt(newEnd, v[it - 1].end.key))
  }

  lemma UnboundedMerges<K(!new)>(lt: (K, K) -> bool, v: seq<Interval<K>>, i: Interval<K>, it0: nat, newStart: K)
    requires TotalOrder(lt) && WellFormed(lt, v) && Begins(lt, v, i, it0) && Unbounded(v)
    requires newStart == MergedStart(lt, v, i, it0, |v|)
    ensures Merges(lt, v, it0, |v|, Interval(i.start, Inf), Interval(newStart, Inf))
  {
  }

  lemma BoundedMerges<K(!new)>(lt: (K, K) -> bool, v: seq<Interval<K>>, i: Interval<K>, it0: nat, it: nat,
                               newStart: K, newEnd: K)
    requires TotalOrder(lt) && WellFormed(lt, v) && Begins(lt, v, i, it0)
    requires Absorbed(lt, v, i, it0, it, newStart, newEnd) && lt(i.start, i.end.key)
    requires it < |v| ==> lt(newEnd, v[it].start)
    ensures Merges(lt, v, it0, it, i, Interval(newStart, At(newEnd)))
    ensures newStart == MergedStart(lt, v, i, it0, |v|)
  {
  }

  // ---- The specialization for Slice ------------------------------------------------

  /** Some interval that starts before i reaches its start. */
  ghost predicate Reached<K>(lt: (K, K) -> bool, v: seq<Interval<K>>, i: Interval<K>) {
    exists k :: 0 <= k < |v| && lt(v[k].start, i.start) && (v[k].end.At? ==> !lt(v[k].end.key, i.start))
  }

  /** Some interval starts at or after the start of i. */
  ghost predicate Followed<K>(lt: (K, K) -> bool, v: seq<Interval<K>>, i: Interval<K>) {
    exists k :: 0 <= k < |v| && !lt(v[k].start, i.start)
  }

  /** When insert returns true: the interval is not empty and, if intersecting
      intervals are to be refused, none that starts earlier reaches it and, if it
      is unbounded, none starts later. */
  ghost predicate Accepts<K>(lt: (K, K) -> bool, refuse: bool, v: seq<Interval<K>>, i: Interval<K>) {
    && (i.end.At? ==> lt(i.start, i.end.key))
    && (refuse ==> !Reached(lt, v, i) && (i.end.Inf? ==> !Followed(lt, v, i)))
  }

  /** One insertion: a refused interval changes nothing; an accepted one adds its
      points, and all points above its start if the set was unbounded. */
  ghost predicate Inserted<K(!new)>(lt: (K, K) -> bool, refuse: bool, v: seq<Interval<K>>, i: Interval<K>, v': seq<Interval<K>>) {
    && WellFormed(lt, v')
    && if Accepts(lt, refuse, v, i)
       then Gains(lt, v, v', Added(v, i)) && (Unbounded(v') <==> Unbounded(v) || i.end.Inf?)
       else v' == v
  }

  class IntervalSet<K(==, !new)> {
    const lt: (K, K) -> bool
    const prop: bool
    var intervals: seq<Interval<K>>

    ghost predicate Valid()
      reads this
    {
      TotalOrder(lt) && WellFormed(lt, intervals)
    }

    constructor (lt: (K, K) -> bool, failOnIntersect: bool)
      requires TotalOrder(lt)
      ensures Valid() && intervals == [] && this.lt == lt && prop == failOnIntersect
    {
      this.lt, prop, intervals := lt, failOnIntersect, [];
    }

    /** The first interval that does not start before i. */
    method FindPosition(i: Interval<K>) returns (pos: nat)
      ensures pos <= |intervals|
      ensures forall k :: 0 <= k < pos ==> lt(intervals[k].start, i.start)
      ensures pos < |intervals| ==> !lt(intervals[pos].start, i.start)
    {
      pos := 0;
      while pos < |intervals|
        invariant pos <= |intervals|
        invariant forall k :: 0 <= k < pos ==> lt(intervals[k].start, i.start)
      {
        if !lt(intervals[pos].start, i.start) {
          return;
        }
        pos := pos + 1;
      }
    }

    /** Erases a stretch and inserts n at the position found for it. */
    method Splice(a: nat, b: nat, ghost s: Interval<K>, n: Interval<K>)
      requires Valid() && Merges(lt, intervals, a, b, s, n) && (Unbounded(intervals) ==> s.end.Inf?)
      modifies this`intervals
      ensures Valid() && Gains(lt, old(intervals), intervals, s)
      ensures Unbounded(intervals) <==> s.end.Inf?
    {
      MergeIsWellFormed(lt, intervals, a, b, s, n);
      MergeIsUnbounded(lt, intervals, a, b, s, n);
      ghost var v := intervals;
      if a != b {
        intervals := intervals[..a] + intervals[b..];
      }
      assert intervals == v[..a] + v[b..];
      var pos := FindPosition(n);
      PositionInGap(lt, v, a, b, s, n, pos);
      intervals := intervals[..pos] + [n] + intervals[pos..];
      assert intervals == Replace(v, a, b, n);
      forall x
        ensures In(lt, intervals, x) <==> In(lt, v, x) || Covers(lt, s, x)
      {
        MergePoints(lt, v, a, b, s, n, x);
      }
    }

    /** The place where merging with i begins: the position of i, or the interval
        before it if that one reaches i. */
    method MergeStart(i: Interval<K>) returns (it: nat, reached: bool)
      requires Valid()
      ensures it <= |intervals| && (reached <==> Reached(lt, intervals, i))
      ensures forall k :: 0 <= k < it ==> intervals[k].end.At? && lt(intervals[k].end.key, i.start)
      ensures reached ==> it < |intervals| && lt(intervals[it].start, i.start)
                          && (intervals[it].end.At? ==> !lt(intervals[it].end.key, i.start))
      ensures forall k :: it < k < |intervals| ==> !lt(intervals[k].start, i.start)
      ensures !reached && it < |intervals| ==> !lt(intervals[it].start, i.start)
    {
      it := FindPosition(i);
      reached := false;
      if it != 0 {
        var prev := it - 1;
        if intervals[prev].end.At? && lt(intervals[prev].end.key, i.start) {
          // no overlap with the previous interval
        } else {
          it, reached := prev, true;
        }
      }
    }

    /** Inserting an unbounded interval swallows everything from there on. */
    method InsertUnbounded(i: Interval<K>, it0: nat) returns (ok: bool)
      requires Valid() && i.end.Inf?
      requires Begins(lt, intervals, i, it0) && (prop && it0 < |intervals| ==> !lt(intervals[it0].start, i.start))
      modifies this`intervals
      ensures Valid()
      ensures ok <==> !(prop && it0 < |old(intervals)|)
      ensures !ok ==> intervals == old(intervals)
      ensures ok ==> Gains(lt, old(intervals), intervals, i) && Unbounded(intervals)
    {
      var newStart := i.start;
      var it := it0;
      while it != |intervals|
        invariant it0 <= it <= |intervals| && intervals == old(intervals)
        invariant newStart == MergedStart(lt, intervals, i, it0, it)
      {
        if lt(intervals[it].start, newStart) {
          if prop {
            return false;
          }
          newStart := intervals[it].start;
        }
        it := it + 1;
      }
      if it0 != |intervals| {
        if prop {
          return false;
        }
      }
      var n := Interval(newStart, Inf);
      assert Merges(lt, intervals, it0, |intervals|, i, n);
      Splice(it0, |intervals|, i, n);
      return true;
    }

    /** The merge loop. */
    method Absorb(i: Interval<K>, it0: nat) returns (newStart: K, newEnd: K, it: nat, inf: bool)
      requires Valid() && i.end.At? && lt(i.start, i.end.key) && Begins(lt, intervals, i, it0)
      ensures !inf ==> Absorbed(lt, intervals, i, it0, it, newStart, newEnd)
                       && (it < |intervals| ==> lt(newEnd, intervals[it].start))
      ensures inf ==> Unbounded(intervals) && it == |intervals| - 1 && it0 <= it
                      && newStart == MergedStart(lt, intervals, i, it0, |intervals|)
    {
      newStart, newEnd, it, inf := i.start, i.end.key, it0, false;
      while it != |intervals| && !lt(newEnd, intervals[it].start)
        invariant !inf && Absorbed(lt, intervals, i, it0, it, newStart, newEnd)
      {
        if intervals[it].end.At? && lt(intervals[it].end.key, newStart) {
          // never: the intervals from it0 on end at or after newStart
          assert false;
        }
        if lt(intervals[it].start, newStart) {
          newStart := intervals[it].start;
        }
        if intervals[it].end.At? {
          if lt(newEnd, intervals[it].end.key) {
            newEnd := intervals[it].end.key;
          }
        } else {
          inf := true;
          break;
        }
        it := it + 1;
      }
    }

    /** The scan for an unbounded interval after the merged ones. */
    method FindUnbounded(from: nat) returns (found: bool)
      requires Valid() && from <= |intervals|
      ensures found <==> from < |intervals| && Unbounded(intervals)
    {
      var it := from;
      while it != |intervals|
        invariant from <= it <= |intervals|
        invariant forall k :: from <= k < it ==> intervals[k].end.At?
      {
        if intervals[it].end.Inf? {
          return true;
        }
        it := it + 1;
      }
      return false;
    }

    /** Inserting a bounded interval merges it with the intervals it meets, and
        with everything to the end if the last interval is unbounded. */
    method InsertBounded(i: Interval<K>, it0: nat)
      requires Valid() && i.end.At? && lt(i.start, i.end.key) && Begins(lt, intervals, i, it0)
      modifies this`intervals
      ensures Valid() && Gains(lt, old(intervals), intervals, Added(old(intervals), i))
      ensures Unbounded(intervals) <==> Unbounded(old(intervals))
    {
      var newStart, newEnd, it, inf := Absorb(i, it0);
      var eraseEnd := if inf then |intervals| else it;
      if !inf {
        BoundedMerges(lt, intervals, i, it0, it, newStart, newEnd);
      }
      var found := FindUnbounded(it);
      if found {
        inf, eraseEnd := true, |intervals|;
      }
      if inf {
        UnboundedMerges(lt, intervals, i, it0, newStart);
      }
      Splice(it0, eraseEnd, Added(intervals, i), Interval(newStart, if inf then Inf else At(newEnd)));
    }

    /** insertImpl. It refuses an empty interval; in merging mode it accepts any
        other one; failing on intersections it accepts a bounded one if all
        intervals that start earlier end before it, and an unbounded one if all
        intervals do. */
    method Insert(i: Interval<K>) returns (ok: bool)
      requires Valid()
      modifies this`intervals
      ensures Valid()
      ensures i.end.At? && !lt(i.start, i.end.key) ==> !ok
      ensures !prop && (i.end.At? ==> lt(i.start, i.end.key)) ==> ok
      ensures prop && i.end.At? && lt(i.start, i.end.key) ==>
                var v := old(intervals);
                ok <==> forall k :: 0 <= k < |v| && lt(v[k].start, i.start) ==> v[k].end.At? && lt(v[k].end.key, i.start)
      ensures prop && i.end.Inf? ==>
                var v := old(intervals);
                ok <==> forall k :: 0 <= k < |v| ==> v[k].end.At? && lt(v[k].end.key, i.start)
      ensures !ok ==> intervals == old(intervals)
      ensures ok ==>
                && Gains(lt, old(intervals), intervals, if Unbounded(old(intervals)) then Interval(i.start, Inf) else i)
                && (Unbounded(intervals) <==> Unbounded(old(intervals)) || i.end.Inf?)
      ensures ok <==> Accepts(lt, prop, old(intervals), i)
      ensures Inserted(lt, prop, old(intervals), i, intervals)
    {
      if i.end.At? && !lt(i.start, i.end.key) {
        return false;
      }
      var it, reached := MergeStart(i);
      if reached && prop {
        return false;
      }
      if i.end.Inf? {
        assert it < |intervals| && !reached ==> Followed(lt, intervals, i);
        assert !reached ==> forall k :: it <= k < |intervals| ==> !lt(intervals[k].start, i.start);
        ok := InsertUnbounded(i, it);
      } else {
        InsertBounded(i, it);
        ok := true;
      }
    }
  }
}
