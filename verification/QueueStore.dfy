/** What a column family holds when it stores a queue, and what the recovering
    constructor makes of it. Keys appear here as the 64-bit numbers they encode;
    module StoredKeys justifies that view of the byte keys. */
module QueueStore {
  import opened KeyCodec

  const HALF: int := 0x8000_0000_0000_0000

  type Store = map<U64, Bytes>

  datatype Option<+T> = None | Some(value: T)

  // ---- 64-bit arithmetic --------------------------------------------------------

  /** Unsigned 64-bit addition: x + n modulo 2^64. */
  function Add64(x: int, n: int): (r: U64) {
    if 0 <= x + n < M then x + n
    else if M <= x + n < 2 * M then x + n - M
    else if -M <= x + n < 0 then x + n + M
    else (x + n) % M
  }

  /** The low 64 bits of x, read as a signed `long long`. */
  function Signed64(x: int): (r: int)
    ensures -HALF <= r < HALF
  {
    if -HALF <= x < HALF then x
    else if x % M < HALF then x % M
    else x % M - M
  }

  /** The additions wrap as unsigned 64-bit ones, the counts as signed ones. */
  lemma ArithmeticIsModular(x: int, n: int)
    ensures Add64(x, n) == (x + n) % M
    ensures (Signed64(x) - x) % M == 0
  {
  }

  lemma AddAdd(x: int, a: int, b: int)
    ensures Add64(Add64(x, a), b) == Add64(x, a + b)
  {
    ArithmeticIsModular(x, a);
    ArithmeticIsModular(x, a + b);
    ArithmeticIsModular(Add64(x, a), b);
    var z, q := x + a, (x + a) / M;
    assert z == M * q + z % M;
    WholeTurns(z % M + b, q);
  }

  lemma UndoNext(x: U64)
    ensures Add64(Add64(x, 1), -1) == x
  {
  }

  lemma WholeTurns(z: int, q: int)
    ensures (M * q + z) % M == z % M
  {
    var r := z / M;
    assert M * q + z == M * (q + r) + z % M;
  }

  lemma AddNext(x: U64, n: int)
    requires -M < n <= M
    ensures Add64(Add64(x, 1), n - 1) == Add64(x, n)
  {
  }

  /** How far after `head`, counting around the 64-bit circle, a number lies. */
  function Distance(head: U64, x: U64): (d: nat)
    ensures d < M
  {
    if head <= x then x - head else M + x - head
  }

  lemma DistanceIs(head: U64, n: int, x: U64)
    requires 0 <= n < M
    ensures Distance(head, x) == n <==> x == Add64(head, n)
  {
  }

  lemma DistanceNext(head: U64, x: U64)
    ensures Distance(Add64(head, 1), x) == if x == head then M - 1 else Distance(head, x) - 1
  {
  }

  // ---- The stored queue -----------------------------------------------------------

  /** The store holds exactly the messages `vals`, at consecutive keys from
      `head` on (modulo 2^64). */
  ghost predicate Holds(store: Store, head: U64, vals: seq<Bytes>)
  {
    && (forall k: U64 :: k in store <==> Distance(head, k) < |vals|)
    && (forall k: U64 :: k in store ==> store[k] == vals[Distance(head, k)])
  }

  lemma HoldsAt(store: Store, head: U64, vals: seq<Bytes>, n: nat)
    requires Holds(store, head, vals) && n < M
    ensures Add64(head, n) in store <==> n < |vals|
    ensures n < |vals| ==> store[Add64(head, n)] == vals[n]
  {
    DistanceIs(head, n, Add64(head, n));
  }

  /** Writing the key after the last one appends to the queue. */
  lemma HoldsPut(store: Store, head: U64, vals: seq<Bytes>, v: Bytes)
    requires Holds(store, head, vals) && |vals| < M
    ensures Holds(store[Add64(head, |vals|) := v], head, vals + [v])
  {
    forall k: U64
      ensures Distance(head, k) == |vals| <==> k == Add64(head, |vals|)
    {
      DistanceIs(head, |vals|, k);
    }
  }

  /** Removing the key at `head` drops the oldest message and moves the head on. */
  lemma HoldsRemove(store: Store, head: U64, vals: seq<Bytes>)
    requires Holds(store, head, vals) && 0 < |vals| < M
    ensures Holds(store - {head}, Add64(head, 1), vals[1..])
  {
    forall k: U64
      ensures Distance(Add64(head, 1), k) == if k == head then M - 1 else Distance(head, k) - 1
    {
      DistanceNext(head, k);
    }
  }

  // ---- Recovery --------------------------------------------------------------------

  /** The smallest stored key, or None if there is none. */
  ghost predicate FoundSmallest(store: Store, found: Option<U64>) {
    if found.Some? then found.value in store && forall k :: k in store ==> found.value <= k
    else store == map[]
  }

  /** The greatest stored key, or None if there is none. */
  ghost predicate FoundGreatest(store: Store, found: Option<U64>) {
    if found.Some? then found.value in store && forall k :: k in store ==> k <= found.value
    else store == map[]
  }

  datatype Indices = Indices(minKey: U64, maxKey: U64, count: int, isValid: bool)

  /** The body of the constructor once both key searches returned Ok. */
  function Recover(smallest: Option<U64>, greatest: Option<U64>): Indices
  {
    var minKey := if smallest.Some? then smallest.value else 0;
    var lastMax := if greatest.Some? then greatest.value else 0;
    var maxKey := if greatest.Some? then Add64(lastMax, 1) else 0;
    if lastMax >= minKey then
      var count := Signed64(maxKey - minKey);
      Indices(minKey, maxKey, count, count >= 0)
    else
      Indices(minKey, maxKey, 0, false)
  }

  /** The recovered indices describe exactly the queue `vals` from `head` on. */
  ghost predicate Exact(r: Indices, head: U64, vals: seq<Bytes>) {
    && r.isValid
    && r.count == |vals|
    && (vals != [] ==> r.minKey == head)
    && r.maxKey == Add64(r.minKey, |vals|)
  }

  /** Recovery of a range that does not run past the largest 64-bit key. The
      queue is accepted exactly when its size is a non-negative `long long`, and
      then size and indices are right, even if `maxKey` wraps to 0. */
  lemma RecoverContiguous(store: Store, head: U64, vals: seq<Bytes>,
                          smallest: Option<U64>, greatest: Option<U64>)
    requires Holds(store, head, vals) && 0 < |vals| < M && head + |vals| <= M
    requires FoundSmallest(store, smallest) && FoundGreatest(store, greatest)
    ensures var r := Recover(smallest, greatest);
            && r.minKey == head && r.maxKey == Add64(head, |vals|)
            && (r.isValid <==> |vals| < HALF)
            && (r.isValid ==> r.count == |vals|)
  {
    HoldsAt(store, head, vals, 0);
    HoldsAt(store, head, vals, |vals| - 1);
    assert smallest == Some(head) && greatest == Some(head + |vals| - 1);
  }

  /** A range that runs past the largest key looks empty: both ends of the key
      space are occupied, so the size is computed as 0. */
  lemma RecoverStraddling(store: Store, head: U64, vals: seq<Bytes>,
                          smallest: Option<U64>, greatest: Option<U64>)
    requires Holds(store, head, vals) && 0 < |vals| < M && head + |vals| > M
    requires FoundSmallest(store, smallest) && FoundGreatest(store, greatest)
    ensures Recover(smallest, greatest) == Indices(0, 0, 0, true)
  {
    HoldsAt(store, head, vals, M - head);
    HoldsAt(store, head, vals, M - 1 - head);
    assert smallest == Some(0) && greatest == Some(M - 1);
  }

  /** The constructor rebuilds the stored queue exactly when the queue is empty
      or its keys neither run past 2^64 - 1 nor number 2^63 or more. */
  lemma RecoverExactIff(store: Store, head: U64, vals: seq<Bytes>,
                        smallest: Option<U64>, greatest: Option<U64>)
    requires Holds(store, head, vals) && |vals| < M
    requires FoundSmallest(store, smallest) && FoundGreatest(store, greatest)
    ensures Exact(Recover(smallest, greatest), head, vals)
            <==> vals == [] || (head + |vals| <= M && |vals| < HALF)
  {
    if vals == [] {
      assert store == map[];
      assert smallest.None? && greatest.None?;
    } else if head + |vals| <= M {
      RecoverContiguous(store, head, vals, smallest, greatest);
    } else {
      RecoverStraddling(store, head, vals, smallest, greatest);
    }
  }

  /** The two searches as the constructor sees them: one that meets an iterator
      error looks like a search of an empty family. */
  function RecoverSeen(smallest: Option<U64>, greatest: Option<U64>, seesMin: bool, seesMax: bool): Indices {
    Recover(if seesMin then smallest else None, if seesMax then greatest else None)
  }

  /** With iterator errors, recovery is exact if and only if the queue is empty or
      the search for the greatest key succeeds, that for the smallest succeeds or
      is not needed because the queue begins at key 0, and the range is one that
      can be recovered at all. */
  lemma RecoverSeenExactIff(store: Store, head: U64, vals: seq<Bytes>,
                            smallest: Option<U64>, greatest: Option<U64>, seesMin: bool, seesMax: bool)
    requires Holds(store, head, vals) && |vals| < M
    requires FoundSmallest(store, smallest) && FoundGreatest(store, greatest)
    ensures Exact(RecoverSeen(smallest, greatest, seesMin, seesMax), head, vals)
            <==> vals == [] || (seesMax && (seesMin || head == 0) && head + |vals| <= M && |vals| < HALF)
  {
    RecoverExactIff(store, head, vals, smallest, greatest);
    if vals == [] {
      assert store == map[];
    } else {
      HoldsAt(store, head, vals, 0);
      if head + |vals| <= M {
        HoldsAt(store, head, vals, |vals| - 1);
        assert smallest == Some(head) && greatest == Some(head + |vals| - 1);
      }
    }
  }

  /** For instance, one message at key 5: with the search for the greatest key lost
      it is refused, with both lost it opens as a valid, empty queue, and with the
      search for the smallest lost it opens with six messages. */
  lemma LostSearchExamples(v: Bytes)
    ensures var store: Store := map[5 := v];
            && Holds(store, 5, [v]) && FoundSmallest(store, Some(5)) && FoundGreatest(store, Some(5))
            && !RecoverSeen(Some(5), Some(5), true, false).isValid
            && RecoverSeen(Some(5), Some(5), false, false) == Indices(0, 0, 0, true)
            && RecoverSeen(Some(5), Some(5), false, true) == Indices(0, 6, 6, true)
  {
    var store: Store := map[5 := v];
    forall k: U64
      ensures k in store <==> Distance(5, k) < 1
    {
      DistanceIs(5, 0, k);
    }
  }
}
