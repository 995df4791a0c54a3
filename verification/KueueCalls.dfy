/** The operations of a queue, their replies, and what they do to it. The queue
    object and the queue under threads are both measured by it. */
module KueueCalls {
  import opened KeyCodec
  import opened QueueStore

  /** What a waiting consumer came for: `take()`, `take(timeout)` or `readNext`.
      `timed` says that a positive timeout was given. */
  datatype Mode = PlainTake | TimedTake(timed: bool) | Reading(timed: bool)

  /** A result of `readNext`: the key and value it handed out, and the position
      of that message among all messages ever accepted. */
  datatype ReadRecord = ReadRecord(key: U64, value: Bytes, pos: nat)

  datatype Op = Put(v: Bytes) | Consume(mode: Mode) | Erase(r: ReadRecord) | Clear

  /** How a call ends. An erase returns true for Removed and for Unneeded, which
      says that another consumer removed the message first. */
  datatype Reply =
    | Accepted | Failed | Removed(v: Bytes) | Shown(key: U64, v: Bytes) | TimedOut
    | Unneeded | Refused | Cleared

  /** The fields of a queue and the messages it holds. */
  datatype Snapshot = Snapshot(
    minKey: U64, maxKey: U64, count: int, totalPuts: U64, totalTakes: U64, contents: seq<Bytes>)

  /** One message more. */
  function With(n: Snapshot, v: Bytes): Snapshot {
    n.(maxKey := Add64(n.maxKey, 1), count := Signed64(n.count + 1), totalPuts := Add64(n.totalPuts, 1),
       contents := n.contents + [v])
  }

  /** The first k messages gone. */
  function Without(n: Snapshot, k: nat): Snapshot
    requires k <= |n.contents|
  {
    n.(minKey := Add64(n.minKey, k), count := n.count - k, totalTakes := Add64(n.totalTakes, k),
       contents := n.contents[k..])
  }

  lemma WithoutMore(n: Snapshot, k: nat)
    requires k < |n.contents|
    ensures Without(Without(n, k), 1) == Without(n, k + 1)
  {
    AddAdd(n.totalTakes, k, 1);
    AddAdd(n.minKey, k, 1);
  }

  // What an undisturbed call that replies r does to a queue.

  predicate Puts(v: Bytes, r: Reply, n: Snapshot, n': Snapshot) {
    n' == if r == Accepted then With(n, v) else n
  }

  predicate Consumes(r: Reply, n: Snapshot, n': Snapshot) {
    if r.Removed? then n.contents != [] && r.v == n.contents[0] && n' == Without(n, 1)
    else
      && n' == n && (r.TimedOut? ==> n.contents == [])
      && (r.Shown? ==> n.contents != [] && r.v == n.contents[0] && r.key == n.minKey)
  }

  predicate Erases(key: U64, r: Reply, n: Snapshot, n': Snapshot) {
    && (r == Refused <==> key != n.minKey) && r != Unneeded
    && if r.Removed? then n.contents != [] && r.v == n.contents[0] && n' == Without(n, 1) else n' == n
  }

  predicate Clears(k: int, r: Reply, n: Snapshot, n': Snapshot) {
    0 <= k <= |n.contents| && n' == Without(n, k) && (r == Cleared ==> k == |n.contents|)
  }
}
