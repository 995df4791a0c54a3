/** What every step of every thread keeps: who holds the locks, how indices,
    count and store fit together between any two statements, and what became of
    the messages. */
module KueueInvariant {
  import opened KeyCodec
  import opened QueueStore
  import opened KueueCalls
  import opened KueueThreads

  // ---- Locks ------------------------------------------------------------------

  /** Exactly the threads inside a critical section hold its lock. */
  ghost predicate Locks(putLock: Option<nat>, takeLock: Option<nat>, pcs: seq<PC>) {
    && (putLock.Some? ==> putLock.value < |pcs|)
    && (takeLock.Some? ==> takeLock.value < |pcs|)
    && (forall t :: 0 <= t < |pcs| ==> (HoldsPutLock(pcs[t]) <==> putLock == Some(t)))
    && (forall t :: 0 <= t < |pcs| ==> (HoldsTakeLock(pcs[t]) <==> takeLock == Some(t)))
  }

  predicate InPut(pc: PC) {
    pc.PutBump? || pc.PutStore? || pc.PutCount? || pc.PutTally? || pc.PutUndo? || pc.PutRelease?
  }

  /** Where the put that holds putLock stands, or Idle if there is none. */
  function Producer(s: State): PC {
    if s.putLock.Some? && s.putLock.value < |s.pcs| && InPut(s.pcs[s.putLock.value])
    then s.pcs[s.putLock.value] else Idle
  }

  /** Where the thread that holds takeLock stands, or Idle if there is none. */
  function Consumer(s: State): PC {
    if s.takeLock.Some? && s.takeLock.value < |s.pcs| then s.pcs[s.takeLock.value] else Idle
  }

  /** A statement enters or leaves a critical section exactly where it locks or
      unlocks. */
  lemma SectionsFollowLocks(d: Data, pc: PC, ok: bool)
    requires !pc.Idle? && !pc.Waiting?
    ensures var next := NextPC(d, pc, ok);
            && (HoldsPutLock(next) <==> WantsPutLock(pc) || (HoldsPutLock(pc) && !UnlocksPut(pc)))
            && (HoldsTakeLock(next) <==> WantsTakeLock(pc) || (HoldsTakeLock(pc) && !UnlocksTake(pc)))
            && (UnlocksPut(pc) ==> HoldsPutLock(pc))
            && (UnlocksTake(pc) ==> HoldsTakeLock(pc))
  {
    PutSectionsFollowLocks(d, pc, ok);
    TakeSectionsFollowLocks(d, pc, ok);
  }

  lemma PutSectionsFollowLocks(d: Data, pc: PC, ok: bool)
    requires !pc.Idle? && !pc.Waiting?
    ensures HoldsPutLock(NextPC(d, pc, ok)) <==> WantsPutLock(pc) || (HoldsPutLock(pc) && !UnlocksPut(pc))
    ensures UnlocksPut(pc) ==> HoldsPutLock(pc)
  {
  }

  lemma TakeSectionsFollowLocks(d: Data, pc: PC, ok: bool)
    requires !pc.Idle? && !pc.Waiting?
    ensures HoldsTakeLock(NextPC(d, pc, ok)) <==> WantsTakeLock(pc) || (HoldsTakeLock(pc) && !UnlocksTake(pc))
    ensures UnlocksTake(pc) ==> HoldsTakeLock(pc)
  {
  }

  /** One thread enters or leaves sections and updates the locks accordingly. */
  lemma SwitchKeepsLocks(putLock: Option<nat>, takeLock: Option<nat>, pcs: seq<PC>, t: nat, next: PC,
                         putLock': Option<nat>, takeLock': Option<nat>)
    requires Locks(putLock, takeLock, pcs) && t < |pcs|
    requires putLock' == if HoldsPutLock(next) then Some(t) else if HoldsPutLock(pcs[t]) then None else putLock
    requires takeLock' == if HoldsTakeLock(next) then Some(t) else if HoldsTakeLock(pcs[t]) then None else takeLock
    requires HoldsPutLock(next) ==> HoldsPutLock(pcs[t]) || putLock.None?
    requires HoldsTakeLock(next) ==> HoldsTakeLock(pcs[t]) || takeLock.None?
    ensures Locks(putLock', takeLock', pcs[t := next])
  {
  }

  lemma NotifiedKeepsLocks(putLock: Option<nat>, takeLock: Option<nat>, pcs: seq<PC>, wakee: nat)
    requires Locks(putLock, takeLock, pcs)
    ensures Locks(putLock, takeLock, Notified(pcs, wakee))
  {
  }

  lemma StepKeepsLocks(s: State, t: nat, c: Choice)
    requires Locks(s.putLock, s.takeLock, s.pcs) && t < |s.pcs| && CanStep(s, t, c)
    ensures var s' := StepThread(s, t, c); Locks(s'.putLock, s'.takeLock, s'.pcs)
  {
    var pc := s.pcs[t];
    SectionsFollowLocks(s.d, pc, c.ok);
    NotifiedKeepsLocks(s.putLock, s.takeLock, s.pcs, c.wakee);
    var s' := StepThread(s, t, c);
    var pcs := if Notifies(pc) then Notified(s.pcs, c.wakee) else s.pcs;
    SwitchKeepsLocks(s.putLock, s.takeLock, pcs, t, NextPC(s.d, pc, c.ok), s'.putLock, s'.takeLock);
  }

  // ---- Indices, count and store ------------------------------------------------

  function One(b: bool): int {
    if b then 1 else 0
  }

  /** The producer has incremented maxKey but not (or not successfully) stored. */
  function Bumped(p: PC): int {
    One(p.PutStore? || p.PutUndo?)
  }

  /** The producer has stored its message but not yet counted it. */
  function Uncounted(p: PC): int {
    One(p.PutCount?)
  }

  /** The consumer has removed a message but not yet moved minKey. */
  function Unbumped(q: PC): int {
    One(q.RemoveBump? || q.ClearBump?)
  }

  /** The consumer has removed a message but not yet taken it off the count. */
  function Undone(q: PC): int {
    One(q.RemoveBump? || q.ClearBump? || q.RemoveCount? || q.ClearCount?)
  }

  /** The consumer has seen a positive count and still holds takeLock. */
  predicate Checked(q: PC) {
    q.TakeStore? || q.ReadStore? || q.EraseStore? || q.ClearStore?
  }

  /** The value a consumer has removed and is about to account for. */
  function InHand(q: PC): Option<Bytes> {
    match q
    case RemoveBump(v) => Some(v)
    case RemoveCount(v) => Some(v)
    case ClearBump(v) => Some(v)
    case ClearCount(v) => Some(v)
    case _ => None
  }

  /** Histories, store, indices and count fit together, up to the four
      corrections. */
  ghost predicate Shape(d: Data, bumped: int, uncounted: int, unbumped: int, undone: int) {
    && |d.removed| <= |d.log| && d.removed == d.log[..|d.removed|]
    && d.start <= |d.removed|
    && |Live(d)| + 1 < HALF && |d.log| - d.start < M
    && Holds(d.store, d.head, Live(d))
    && d.minKey == Add64(d.head, -unbumped)
    && d.maxKey == Add64(d.head, |Live(d)| + bumped)
    && d.count == |Live(d)| - uncounted + undone
    && uncounted <= |Live(d)|
  }

  /** What a thread in a section knows about the data. */
  ghost predicate Knows(d: Data, p: PC, q: PC) {
    && (Checked(q) ==> d.count >= 1)
    && (p.PutStore? ==> p.key == Add64(d.head, |Live(d)|))
    && (p.PutCount? ==> |d.log| > 0 && p.v == d.log[|d.log| - 1])
    && (q.EraseStore? ==> q.rec.key == d.head)
    && (InHand(q).Some? ==> |d.removed| > d.start && InHand(q).value == d.removed[|d.removed| - 1])
  }

  /** The two-lock index invariant, with the corrections that the single
      producer p and the single consumer q inside their sections call for. */
  ghost predicate Fits(d: Data, p: PC, q: PC) {
    Shape(d, Bumped(p), Uncounted(p), Unbumped(q), Undone(q)) && Knows(d, p, q)
  }

  // ---- Results of readNext ------------------------------------------------------

  /** A record handed out since the queue was opened: it names the message at
      its position, which had been counted, under the key it is stored at. */
  ghost predicate Genuine(d: Data, p: PC, r: ReadRecord) {
    && d.start <= r.pos <= |d.removed|
    && r.pos < |d.log| - Uncounted(p)
    && r.value == d.log[r.pos]
    && r.key == Add64(d.head, r.pos - |d.removed|)
  }

  ghost predicate Seen(d: Data, p: PC) {
    forall r :: r in d.seen ==> Genuine(d, p, r)
  }

  /** Every erase under way was started with such a record. */
  ghost predicate Erasing(d: Data, pcs: seq<PC>) {
    forall t :: 0 <= t < |pcs| && EraseRecord(pcs[t]).Some? ==> EraseRecord(pcs[t]).value in d.seen
  }

  // ---- Totals -------------------------------------------------------------------

  /** The two counters, corrected by the increments still to come. */
  ghost predicate Totals(d: Data, p: PC, q: PC) {
    && d.totalPuts == |d.log| - d.start - d.recovered - Uncounted(p) - One(p.PutTally?)
    && d.totalTakes == |d.removed| - d.start - Undone(q) - One(q.RemoveTally? || q.ClearTally?)
  }

  ghost predicate Sound(d: Data, p: PC, q: PC) {
    Fits(d, p, q) && Seen(d, p) && Totals(d, p, q)
  }

  ghost predicate Inv(s: State) {
    && Locks(s.putLock, s.takeLock, s.pcs)
    && Sound(s.d, Producer(s), Consumer(s))
    && Erasing(s.d, s.pcs)
  }

  // ---- What one statement does ------------------------------------------------------

  lemma BumpShape(d: Data, x: int, y: int)
    requires Shape(d, 0, 0, x, y)
    ensures Shape(d.(maxKey := Add64(d.maxKey, 1)), 1, 0, x, y) && d.maxKey == Add64(d.head, |Live(d)|)
  {
    AddAdd(d.head, |Live(d)|, 1);
  }

  lemma UndoShape(d: Data, x: int, y: int)
    requires Shape(d, 1, 0, x, y)
    ensures Shape(d.(maxKey := Add64(d.maxKey, -1)), 0, 0, x, y)
  {
    AddAdd(d.head, |Live(d)| + 1, -1);
  }

  lemma AppendShape(d: Data, v: Bytes, key: U64, x: int, y: int)
    requires Shape(d, 1, 0, x, y) && HasRoom(d) && key == Add64(d.head, |Live(d)|)
    ensures key !in d.store
    ensures Shape(Insertion(d, v, key), 0, 1, x, y)
    ensures Live(Insertion(d, v, key)) == Live(d) + [v]
  {
    HoldsAt(d.store, d.head, Live(d), |Live(d)|);
    HoldsPut(d.store, d.head, Live(d), v);
    assert (d.log + [v])[|d.removed|..] == Live(d) + [v];
  }

  lemma CountShape(d: Data, x: int, y: int)
    requires Shape(d, 0, 1, x, y) && 0 <= y <= 1
    ensures Shape(d.(count := Signed64(d.count + 1)), 0, 0, x, y)
    ensures Signed64(d.count + 1) == d.count + 1
  {
  }

  lemma HeadShape(d: Data, b: int, u: int)
    requires Shape(d, b, u, 0, 0) && d.count >= 1 && 0 <= u
    ensures |Live(d)| > u && d.minKey == d.head
    ensures d.head in d.store && d.store[d.head] == Live(d)[0] == d.log[|d.removed|]
  {
    HoldsAt(d.store, d.head, Live(d), 0);
  }

  lemma RemovedHistory(d: Data)
    requires |d.removed| < |d.log| && d.removed == d.log[..|d.removed|]
    requires d.head in d.store && d.store[d.head] == Live(d)[0]
    ensures var d' := Removal(d, d.head);
            && d'.removed == d.removed + [Live(d)[0]]
            && d'.removed == d'.log[..|d'.removed|]
            && Live(d') == Live(d)[1..]
  {
  }

  lemma RemoveShape(d: Data, b: int, u: int)
    requires Shape(d, b, u, 0, 0) && d.count >= 1 && 0 <= b <= 1 && 0 <= u
    ensures var d' := Removal(d, d.head);
            && Shape(d', b, u, 1, 1)
            && d'.removed == d.removed + [Live(d)[0]]
            && Add64(d'.head, |Live(d')|) == Add64(d.head, |Live(d)|)
  {
    HeadShape(d, b, u);
    RemovedHistory(d);
    HoldsRemove(d.store, d.head, Live(d));
    AddNext(d.head, 0);
    AddNext(d.head, |Live(d)|);
    AddNext(d.head, |Live(d)| + b);
  }

  lemma MinKeyShape(d: Data, b: int, u: int)
    requires Shape(d, b, u, 1, 1)
    ensures Shape(d.(minKey := Add64(d.minKey, 1)), b, u, 0, 1)
  {
    AddAdd(d.head, -1, 1);
  }

  lemma UncountShape(d: Data, b: int, u: int)
    requires Shape(d, b, u, 0, 1) && 0 <= u
    ensures Shape(d.(count := Signed64(d.count - 1)), b, u, 0, 0)
    ensures Signed64(d.count - 1) == d.count - 1
  {
  }

  // ---- The producer's statements -------------------------------------------------

  lemma PutBumpFits(d: Data, p: PC, q: PC, ok: bool)
    requires Fits(d, p, q) && p.PutBump?
    ensures Fits(Effect(d, p, ok), NextPC(d, p, ok), q)
  {
    BumpShape(d, Unbumped(q), Undone(q));
  }

  lemma PutStoreFits(d: Data, p: PC, q: PC, ok: bool)
    requires Fits(d, p, q) && p.PutStore? && ok && HasRoom(d)
    ensures Fits(Effect(d, p, ok), NextPC(d, p, ok), q)
  {
    assert p == PutStore(p.v, p.key);
    InsertionFits(d, p.v, p.key, q);
  }

  lemma InsertionFits(d: Data, v: Bytes, key: U64, q: PC)
    requires Fits(d, PutStore(v, key), q) && HasRoom(d)
    ensures Fits(Insertion(d, v, key), PutCount(v), q)
  {
    var p, p' := PutStore(v, key), PutCount(v);
    assert Bumped(p) == 1 && Uncounted(p) == 0 && Bumped(p') == 0 && Uncounted(p') == 1;
    AppendShape(d, v, key, Unbumped(q), Undone(q));
    InsertionKnows(d, v, key, q);
  }

  lemma InsertionKnows(d: Data, v: Bytes, key: U64, q: PC)
    requires Knows(d, PutStore(v, key), q)
    ensures Knows(Insertion(d, v, key), PutCount(v), q)
  {
  }

  lemma PutCountFits(d: Data, p: PC, q: PC, ok: bool)
    requires Fits(d, p, q) && p.PutCount?
    ensures Fits(Effect(d, p, ok), NextPC(d, p, ok), q)
  {
    CountShape(d, Unbumped(q), Undone(q));
  }

  lemma PutUndoFits(d: Data, p: PC, q: PC, ok: bool)
    requires Fits(d, p, q) && p.PutUndo?
    ensures Fits(Effect(d, p, ok), NextPC(d, p, ok), q)
  {
    UndoShape(d, Unbumped(q), Undone(q));
  }

  lemma PutRestFits(d: Data, p: PC, q: PC, ok: bool)
    requires Fits(d, p, q) && (p.PutTally? || p.PutRelease? || (p.PutStore? && !ok))
    ensures Fits(Effect(d, p, ok), NextPC(d, p, ok), q)
  {
  }

  lemma PutFits(d: Data, p: PC, q: PC, ok: bool)
    requires Fits(d, p, q) && InPut(p)
    requires p.PutStore? && ok ==> HasRoom(d)
    ensures Fits(Effect(d, p, ok), NextPC(d, p, ok), q)
  {
    if p.PutBump? {
      PutBumpFits(d, p, q, ok);
    } else if p.PutStore? && ok {
      PutStoreFits(d, p, q, ok);
    } else if p.PutCount? {
      PutCountFits(d, p, q, ok);
    } else if p.PutUndo? {
      PutUndoFits(d, p, q, ok);
    } else {
      PutRestFits(d, p, q, ok);
    }
  }

  // ---- The consumer's statements, those of take, readNext, erase and clear -----------

  /** The statement is a removal that returns Ok. */
  predicate Removes(q: PC, ok: bool) {
    ok && (q.TakeStore? || q.EraseStore? || q.ClearStore?)
  }

  lemma EffectOfRemoval(d: Data, q: PC)
    requires Removes(q, true) && d.minKey == d.head && (q.EraseStore? ==> q.rec.key == d.head)
    ensures Effect(d, q, true) == Removal(d, d.head)
    ensures var next := NextPC(d, q, true); InHand(next).Some? && Unbumped(next) == Undone(next) == 1
  {
  }

  /** An Ok removal always hits the oldest message, which has been counted. */
  lemma RemovesOldest(d: Data, p: PC, q: PC)
    requires Fits(d, p, q) && Removes(q, true)
    ensures Effect(d, q, true) == Removal(d, d.head)
    ensures d.head in d.store && Live(d) != [] && d.store[d.head] == Live(d)[0]
    ensures |Live(d)| > Uncounted(p)
  {
    assert Unbumped(q) == 0 && Undone(q) == 0;
    HeadShape(d, Bumped(p), Uncounted(p));
    EffectOfRemoval(d, q);
  }

  lemma RemovalFits(d: Data, p: PC, q: PC, ok: bool)
    requires Fits(d, p, q) && Removes(q, ok)
    ensures Fits(Effect(d, q, ok), p, NextPC(d, q, ok))
  {
    assert Unbumped(q) == 0 && Undone(q) == 0;
    RemovesOldest(d, p, q);
    EffectOfRemoval(d, q);
    RemoveShape(d, Bumped(p), Uncounted(p));
  }

  lemma RemoveBumpFits(d: Data, p: PC, q: PC, ok: bool)
    requires Fits(d, p, q) && (q.RemoveBump? || q.ClearBump?)
    ensures Fits(Effect(d, q, ok), p, NextPC(d, q, ok))
  {
    assert Unbumped(q) == 1 && Undone(q) == 1;
    var next := NextPC(d, q, ok);
    assert Unbumped(next) == 0 && Undone(next) == 1 && InHand(next) == InHand(q);
    MinKeyShape(d, Bumped(p), Uncounted(p));
  }

  lemma RemoveCountFits(d: Data, p: PC, q: PC, ok: bool)
    requires Fits(d, p, q) && (q.RemoveCount? || q.ClearCount?)
    ensures Fits(Effect(d, q, ok), p, NextPC(d, q, ok))
  {
    assert Unbumped(q) == 0 && Undone(q) == 1;
    var next := NextPC(d, q, ok);
    assert Unbumped(next) == 0 && Undone(next) == 0 && InHand(next).None? && !Checked(next);
    UncountShape(d, Bumped(p), Uncounted(p));
  }

  lemma TakeCheckFits(d: Data, p: PC, q: PC, ok: bool)
    requires Fits(d, p, q) && (q.TakeCheck? || q.ClearCheck?)
    ensures Fits(Effect(d, q, ok), p, NextPC(d, q, ok))
  {
    var next := NextPC(d, q, ok);
    assert Unbumped(q) == Undone(q) == Unbumped(next) == Undone(next) == 0;
    assert InHand(next).None? && !next.EraseStore? && (Checked(next) ==> d.count >= 1 || d.count < 0);
  }

  lemma EraseCheckFits(d: Data, p: PC, q: PC, ok: bool)
    requires Fits(d, p, q) && q.EraseCheck? && (q.rec.key == d.minKey ==> d.count >= 1)
    ensures Fits(Effect(d, q, ok), p, NextPC(d, q, ok))
  {
  }

  lemma ReadStoreFits(d: Data, p: PC, q: PC, ok: bool)
    requires Fits(d, p, q) && q.ReadStore?
    ensures Fits(Effect(d, q, ok), p, NextPC(d, q, ok))
  {
    var next := NextPC(d, q, ok);
    assert next.TakeRelease? && Unbumped(q) == Undone(q) == Unbumped(next) == Undone(next) == 0;
  }

  /** The consumer's remaining statements: failures, tallies, notifications and
      unlocking. */
  predicate Quiet(q: PC, ok: bool) {
    || ((q.TakeStore? || q.EraseStore? || q.ClearStore?) && !ok)
    || q.RemoveTally? || q.ClearTally? || q.RemoveNotify? || q.TakeRelease? || q.TakeBlock? || q.ClearReleaseTake?
    || q.SignalNotify? || q.SignalRelease?
  }

  lemma QuietStatements(d: Data, q: PC, ok: bool)
    requires Quiet(q, ok)
    ensures Effect(d, q, ok) == d.(totalTakes := Effect(d, q, ok).totalTakes)
    ensures var next := NextPC(d, q, ok);
            && Unbumped(q) == Undone(q) == Unbumped(next) == Undone(next) == 0
            && !Checked(next) && InHand(next).None?
  {
  }

  lemma QuietFits(d: Data, p: PC, q: PC, ok: bool)
    requires Fits(d, p, q) && Quiet(q, ok)
    ensures Fits(Effect(d, q, ok), p, NextPC(d, q, ok))
  {
    QuietStatements(d, q, ok);
  }

  lemma TakeFits(d: Data, p: PC, q: PC, ok: bool)
    requires Fits(d, p, q) && HoldsTakeLock(q)
    requires q.EraseCheck? && q.rec.key == d.minKey ==> d.count >= 1
    ensures Fits(Effect(d, q, ok), p, NextPC(d, q, ok))
  {
    if Removes(q, ok) {
      RemovalFits(d, p, q, ok);
    } else if q.RemoveBump? || q.ClearBump? {
      RemoveBumpFits(d, p, q, ok);
    } else if q.RemoveCount? || q.ClearCount? {
      RemoveCountFits(d, p, q, ok);
    } else if q.TakeCheck? || q.ClearCheck? {
      TakeCheckFits(d, p, q, ok);
    } else if q.EraseCheck? {
      EraseCheckFits(d, p, q, ok);
    } else if q.ReadStore? {
      ReadStoreFits(d, p, q, ok);
    } else {
      QuietFits(d, p, q, ok);
    }
  }

  // ---- What readNext handed out stays genuine ------------------------------------------

  /** A record names the oldest message exactly if its key is the head. */
  lemma GenuineAtHead(d: Data, p: PC, q: PC, r: ReadRecord)
    requires Fits(d, p, q) && Genuine(d, p, r)
    ensures r.key == d.head <==> r.pos == |d.removed|
  {
  }

  lemma GenuineAfterRemoval(d: Data, p: PC, r: ReadRecord)
    requires Genuine(d, p, r) && |d.removed| <= |d.log| < M + d.start
    ensures Genuine(Removal(d, d.head), p, r)
  {
    AddNext(d.head, r.pos - |d.removed|);
  }

  lemma SeenAfterRemoval(d: Data, p: PC)
    requires Seen(d, p) && |d.removed| <= |d.log| < M + d.start
    ensures Seen(Removal(d, d.head), p)
  {
    forall r | r in d.seen
      ensures Genuine(Removal(d, d.head), p, r)
    {
      GenuineAfterRemoval(d, p, r);
    }
  }

  lemma OneMoreSeen(d: Data, p: PC, r: ReadRecord)
    requires Seen(d, p) && Genuine(d, p, r)
    ensures Seen(d.(seen := d.seen + [r]), p)
  {
  }

  /** What readNext hands out is genuine. */
  lemma ReadIsGenuine(d: Data, p: PC, q: PC)
    requires Fits(d, p, q) && q.ReadStore?
    ensures Genuine(d, p, ReadRecord(d.minKey, Fetched(d, d.minKey), |d.removed|))
  {
    assert Unbumped(q) == Undone(q) == 0;
    HeadShape(d, Bumped(p), Uncounted(p));
  }

  lemma SeenAfterRead(d: Data, p: PC, q: PC)
    requires Fits(d, p, q) && Seen(d, p) && q.ReadStore?
    ensures Seen(Effect(d, q, true), p)
  {
    ReadIsGenuine(d, p, q);
    OneMoreSeen(d, p, ReadRecord(d.minKey, Fetched(d, d.minKey), |d.removed|));
  }

  lemma PutSeen(d: Data, p: PC, q: PC, ok: bool)
    requires Fits(d, p, q) && Seen(d, p) && InPut(p)
    ensures Seen(Effect(d, p, ok), NextPC(d, p, ok))
  {
  }

  lemma QuietSeen(d: Data, p: PC, q: PC, ok: bool)
    requires Seen(d, p) && HoldsTakeLock(q) && !Removes(q, ok) && !(q.ReadStore? && ok)
    ensures Seen(Effect(d, q, ok), p)
  {
    var d' := Effect(d, q, ok);
    assert d'.seen == d.seen && d'.log == d.log && d'.removed == d.removed;
    assert d'.start == d.start && d'.head == d.head;
  }

  lemma TakeSeen(d: Data, p: PC, q: PC, ok: bool)
    requires Fits(d, p, q) && Seen(d, p) && HoldsTakeLock(q)
    ensures Seen(Effect(d, q, ok), p)
  {
    if Removes(q, ok) {
      RemovesOldest(d, p, q);
      SeenAfterRemoval(d, p);
    } else if q.ReadStore? && ok {
      SeenAfterRead(d, p, q);
    } else {
      QuietSeen(d, p, q, ok);
    }
  }

  // ---- Totals -------------------------------------------------------------------------

  /** The histories are ordered and short enough for the 64-bit counters. */
  predicate Bounded(d: Data) {
    d.start <= |d.removed| <= |d.log| && |d.log| - d.start < M
  }

  lemma PutTotals(d: Data, p: PC, q: PC, ok: bool)
    requires Bounded(d) && 0 <= d.recovered && Totals(d, p, q) && InPut(p)
    ensures Totals(Effect(d, p, ok), NextPC(d, p, ok), q)
  {
  }

  lemma RemovalTotals(d: Data, p: PC, q: PC)
    requires Totals(d, p, q) && Removes(q, true) && d.head in d.store
    requires Effect(d, q, true) == Removal(d, d.head)
    ensures Totals(Effect(d, q, true), p, NextPC(d, q, true))
  {
  }

  lemma QuietTotals(d: Data, p: PC, q: PC, ok: bool)
    requires Bounded(d) && Totals(d, p, q) && HoldsTakeLock(q) && !Removes(q, ok)
    ensures Totals(Effect(d, q, ok), p, NextPC(d, q, ok))
  {
    if q.RemoveTally? || q.ClearTally? {
      TallyTotals(d, p, q, ok);
    } else {
      UntalliedTotals(d, q, ok);
    }
  }

  lemma TallyTotals(d: Data, p: PC, q: PC, ok: bool)
    requires Bounded(d) && Totals(d, p, q) && (q.RemoveTally? || q.ClearTally?)
    ensures Totals(Effect(d, q, ok), p, NextPC(d, q, ok))
  {
    var d', next := Effect(d, q, ok), NextPC(d, q, ok);
    assert d' == d.(totalTakes := Add64(d.totalTakes, 1));
    assert Undone(q) == Undone(next) == 0 && !next.RemoveTally? && !next.ClearTally?;
  }

  lemma UntalliedTotals(d: Data, q: PC, ok: bool)
    requires HoldsTakeLock(q) && !Removes(q, ok) && !q.RemoveTally? && !q.ClearTally?
    ensures var d', next := Effect(d, q, ok), NextPC(d, q, ok);
            && d'.log == d.log && d'.removed == d.removed && d'.start == d.start && d'.recovered == d.recovered
            && d'.totalPuts == d.totalPuts && d'.totalTakes == d.totalTakes
            && Undone(q) == Undone(next) + One(next.RemoveTally? || next.ClearTally?)
  {
  }

  lemma TakeTotals(d: Data, p: PC, q: PC, ok: bool)
    requires Fits(d, p, q) && Totals(d, p, q) && HoldsTakeLock(q)
    ensures Totals(Effect(d, q, ok), p, NextPC(d, q, ok))
  {
    if Removes(q, ok) {
      RemovesOldest(d, p, q);
      RemovalTotals(d, p, q);
    } else {
      QuietTotals(d, p, q, ok);
    }
  }

  // ---- Any statement of any thread ----------------------------------------------------

  /** Points that call for no correction and know nothing in particular. */
  predicate Neutral(pc: PC) {
    && Bumped(pc) == 0 && Uncounted(pc) == 0 && Unbumped(pc) == 0 && Undone(pc) == 0
    && !Checked(pc) && !pc.PutTally? && !pc.RemoveTally? && !pc.ClearTally?
  }

  lemma NeutralPoints(d: Data, p: PC, q: PC, p': PC, q': PC)
    requires Sound(d, p, q)
    requires p == p' || (Neutral(p) && Neutral(p'))
    requires q == q' || (Neutral(q) && Neutral(q'))
    ensures Sound(d, p', q')
  {
    NeutralCorrections(p, p');
    NeutralCorrections(q, q');
    NeutralKnows(d, p, q, p', q');
    SameSeen(d, p, p');
    SameTotals(d, p, q, p', q');
  }

  lemma SameSeen(d: Data, p: PC, p': PC)
    requires Seen(d, p) && Uncounted(p) == Uncounted(p')
    ensures Seen(d, p')
  {
  }

  lemma SameTotals(d: Data, p: PC, q: PC, p': PC, q': PC)
    requires Totals(d, p, q) && Uncounted(p) == Uncounted(p') && Undone(q) == Undone(q')
    requires p.PutTally? == p'.PutTally?
    requires (q.RemoveTally? || q.ClearTally?) == (q'.RemoveTally? || q'.ClearTally?)
    ensures Totals(d, p', q')
  {
  }

  lemma NeutralCorrections(p: PC, p': PC)
    requires p == p' || (Neutral(p) && Neutral(p'))
    ensures Bumped(p) == Bumped(p') && Uncounted(p) == Uncounted(p')
    ensures Unbumped(p) == Unbumped(p') && Undone(p) == Undone(p')
    ensures p.PutTally? == p'.PutTally?
    ensures (p.RemoveTally? || p.ClearTally?) == (p'.RemoveTally? || p'.ClearTally?)
  {
  }

  lemma NeutralKnows(d: Data, p: PC, q: PC, p': PC, q': PC)
    requires Knows(d, p, q)
    requires p == p' || (Neutral(p) && Neutral(p'))
    requires q == q' || (Neutral(q) && Neutral(q'))
    ensures Knows(d, p', q')
  {
    assert Neutral(p') ==> !p'.PutStore? && !p'.PutCount?;
    assert Neutral(q') ==> !Checked(q') && !q'.EraseStore? && InHand(q').None?;
  }

  lemma PutSound(d: Data, p: PC, q: PC, ok: bool)
    requires Sound(d, p, q) && InPut(p)
    requires p.PutStore? && ok ==> HasRoom(d)
    ensures Sound(Effect(d, p, ok), NextPC(d, p, ok), q)
  {
    PutFits(d, p, q, ok);
    PutSeen(d, p, q, ok);
    PutTotals(d, p, q, ok);
  }

  lemma TakeSound(d: Data, p: PC, q: PC, ok: bool)
    requires Sound(d, p, q) && HoldsTakeLock(q)
    requires q.EraseCheck? ==> q.rec in d.seen
    ensures Sound(Effect(d, q, ok), p, NextPC(d, q, ok))
  {
    if q.EraseCheck? {
      GenuineAtHead(d, p, q, q.rec);
    }
    TakeFits(d, p, q, ok);
    TakeSeen(d, p, q, ok);
    TakeTotals(d, p, q, ok);
  }

  /** Statements outside both critical sections leave the data alone, and the
      section they enter starts at a neutral point. */
  lemma Outside(d: Data, pc: PC, ok: bool)
    requires !pc.Idle? && !pc.Waiting? && !InPut(pc) && !HoldsTakeLock(pc)
    ensures Effect(d, pc, ok) == d
    ensures var next := NextPC(d, pc, ok);
            && (InPut(next) ==> WantsPutLock(pc) && Neutral(next))
            && (HoldsTakeLock(next) ==> WantsTakeLock(pc) && Neutral(next))
  {
  }

  /** A section is left at a neutral point. */
  lemma Leaving(d: Data, pc: PC, ok: bool)
    ensures InPut(pc) && !InPut(NextPC(d, pc, ok)) ==> Neutral(NextPC(d, pc, ok))
    ensures HoldsTakeLock(pc) && !HoldsTakeLock(NextPC(d, pc, ok)) ==> Neutral(NextPC(d, pc, ok))
    ensures InPut(pc) ==> HoldsPutLock(pc) && !HoldsTakeLock(pc) && !HoldsTakeLock(NextPC(d, pc, ok)) && !WantsTakeLock(pc)
    ensures HoldsTakeLock(pc) ==> !InPut(pc) && !InPut(NextPC(d, pc, ok))
  {
  }

  lemma ProducerAfter(s: State, t: nat, c: Choice)
    requires Locks(s.putLock, s.takeLock, s.pcs) && t < |s.pcs| && CanStep(s, t, c)
    ensures var pc, next := s.pcs[t], NextPC(s.d, s.pcs[t], c.ok);
            && (InPut(pc) ==> Producer(s) == pc)
            && (InPut(next) && !InPut(pc) ==> Producer(s) == Idle)
            && Producer(StepThread(s, t, c)) ==
               if InPut(next) then next else if InPut(pc) then Idle else Producer(s)
  {
    SectionsFollowLocks(s.d, s.pcs[t], c.ok);
    Leaving(s.d, s.pcs[t], c.ok);
    if !InPut(s.pcs[t]) && !HoldsTakeLock(s.pcs[t]) {
      Outside(s.d, s.pcs[t], c.ok);
    }
  }

  lemma ConsumerAfter(s: State, t: nat, c: Choice)
    requires Locks(s.putLock, s.takeLock, s.pcs) && t < |s.pcs| && CanStep(s, t, c)
    ensures var pc, next := s.pcs[t], NextPC(s.d, s.pcs[t], c.ok);
            && (HoldsTakeLock(pc) ==> Consumer(s) == pc)
            && (HoldsTakeLock(next) && !HoldsTakeLock(pc) ==> Consumer(s) == Idle)
            && Consumer(StepThread(s, t, c)) ==
               if HoldsTakeLock(next) then next else if HoldsTakeLock(pc) then Idle else Consumer(s)
  {
    SectionsFollowLocks(s.d, s.pcs[t], c.ok);
  }

  lemma PutStepSound(s: State, t: nat, c: Choice)
    requires Inv(s) && t < |s.pcs| && CanStep(s, t, c) && InPut(s.pcs[t])
    ensures var s' := StepThread(s, t, c); Sound(s'.d, Producer(s'), Consumer(s'))
  {
    var pc, s' := s.pcs[t], StepThread(s, t, c);
    ProducerAfter(s, t, c);
    ConsumerAfter(s, t, c);
    Leaving(s.d, pc, c.ok);
    PutSound(s.d, pc, Consumer(s), c.ok);
    NeutralPoints(s'.d, NextPC(s.d, pc, c.ok), Consumer(s), Producer(s'), Consumer(s'));
  }

  lemma ConsumerStepSound(s: State, t: nat, c: Choice)
    requires Inv(s) && t < |s.pcs| && CanStep(s, t, c) && HoldsTakeLock(s.pcs[t])
    ensures Sound(Effect(s.d, s.pcs[t], c.ok), Producer(s), NextPC(s.d, s.pcs[t], c.ok))
  {
    ConsumerAfter(s, t, c);
    assert EraseRecord(s.pcs[t]).Some? ==> EraseRecord(s.pcs[t]).value in s.d.seen;
    TakeSound(s.d, Producer(s), s.pcs[t], c.ok);
  }

  lemma TakeStepSound(s: State, t: nat, c: Choice)
    requires Inv(s) && t < |s.pcs| && CanStep(s, t, c) && HoldsTakeLock(s.pcs[t])
    ensures var s' := StepThread(s, t, c); Sound(s'.d, Producer(s'), Consumer(s'))
  {
    var pc, s' := s.pcs[t], StepThread(s, t, c);
    ConsumerStepSound(s, t, c);
    ProducerAfter(s, t, c);
    ConsumerAfter(s, t, c);
    Leaving(s.d, pc, c.ok);
    NeutralPoints(s'.d, Producer(s), NextPC(s.d, pc, c.ok), Producer(s'), Consumer(s'));
  }

  lemma OutsideStepSound(s: State, t: nat, c: Choice)
    requires Inv(s) && t < |s.pcs| && CanStep(s, t, c)
    requires !InPut(s.pcs[t]) && !HoldsTakeLock(s.pcs[t])
    ensures var s' := StepThread(s, t, c); Sound(s'.d, Producer(s'), Consumer(s'))
  {
    var s' := StepThread(s, t, c);
    ProducerAfter(s, t, c);
    ConsumerAfter(s, t, c);
    Outside(s.d, s.pcs[t], c.ok);
    NeutralPoints(s.d, Producer(s), Consumer(s), Producer(s'), Consumer(s'));
  }

  lemma StepKeepsSound(s: State, t: nat, c: Choice)
    requires Inv(s) && t < |s.pcs| && CanStep(s, t, c)
    ensures var s' := StepThread(s, t, c); Sound(s'.d, Producer(s'), Consumer(s'))
  {
    if InPut(s.pcs[t]) {
      PutStepSound(s, t, c);
    } else if HoldsTakeLock(s.pcs[t]) {
      TakeStepSound(s, t, c);
    } else {
      OutsideStepSound(s, t, c);
    }
  }

  lemma StepKeepsErasing(s: State, t: nat, c: Choice)
    requires Erasing(s.d, s.pcs) && t < |s.pcs| && CanStep(s, t, c)
    ensures var s' := StepThread(s, t, c); Erasing(s'.d, s'.pcs)
  {
    EraseRecordKept(s.d, s.pcs[t], c.ok);
  }

  lemma EraseRecordKept(d: Data, pc: PC, ok: bool)
    ensures var r := EraseRecord(NextPC(d, pc, ok)); r.Some? ==> r == EraseRecord(pc)
    ensures d.seen <= Effect(d, pc, ok).seen
  {
  }

  /** Reopening finds exactly the stored queue. */
  lemma RestartKeepsInv(s: State, a: Action)
    requires Inv(s) && a.Restart? && Enabled(s, a)
    ensures Inv(Apply(s, a))
  {
    RecoverExactIff(s.d.store, s.d.head, Live(s.d), a.smallest, a.greatest);
    var s' := Apply(s, a);
    assert Bumped(Idle) == Uncounted(Idle) == Unbumped(Idle) == Undone(Idle) == 0;
    assert Producer(s') == Consumer(s') == Idle;
    assert Live(s'.d) == Live(s.d);
    assert Holds(s'.d.store, s'.d.head, Live(s'.d));
  }

  lemma StepKeepsInv(s: State, t: nat, c: Choice)
    requires Inv(s) && t < |s.pcs| && CanStep(s, t, c)
    ensures Inv(StepThread(s, t, c))
  {
    StepKeepsLocks(s, t, c);
    StepKeepsSound(s, t, c);
    StepKeepsErasing(s, t, c);
  }

  /** A thread outside both sections that stays outside changes nothing. */
  lemma OutsiderKeepsInv(s: State, t: nat, next: PC)
    requires Inv(s) && t < |s.pcs|
    requires !HoldsPutLock(s.pcs[t]) && !HoldsTakeLock(s.pcs[t]) && !HoldsPutLock(next) && !HoldsTakeLock(next)
    requires EraseRecord(next).Some? ==> EraseRecord(next).value in s.d.seen
    ensures Inv(s.(pcs := s.pcs[t := next]))
  {
    var s' := s.(pcs := s.pcs[t := next]);
    SwitchKeepsLocks(s.putLock, s.takeLock, s.pcs, t, next, s.putLock, s.takeLock);
    assert Producer(s') == Producer(s) && Consumer(s') == Consumer(s);
  }

  /** Every action keeps the invariant. */
  lemma InvKept(s: State, a: Action)
    requires Inv(s) && Enabled(s, a)
    ensures Inv(Apply(s, a))
  {
    match a
    case Begin(t, op) => OutsiderKeepsInv(s, t, FirstPC(op));
    case Step(t, c) => StepKeepsInv(s, t, c);
    case WakeUp(t, expired) => OutsiderKeepsInv(s, t, Woken(s.pcs[t].mode, expired));
    case Restart(threads, smallest, greatest) => RestartKeepsInv(s, a);
  }

  /** The invariant holds in every state of every run. */
  lemma {:induction false} RunsKeepInv(s: State, run: seq<Action>)
    requires Inv(s) && ValidRun(s, run)
    ensures Inv(Final(s, run))
    decreases |run|
  {
    if run != [] {
      InvKept(s, run[0]);
      RunsKeepInv(Apply(s, run[0]), run[1..]);
    }
  }

  lemma InitHasInv(s: State)
    requires Init(s)
    ensures Inv(s)
  {
    assert Bumped(Idle) == Uncounted(Idle) == Unbumped(Idle) == Undone(Idle) == 0;
    assert Producer(s) == Consumer(s) == Idle;
  }

  lemma ReachableHasInv(s: State)
    requires Reachable(s)
    ensures Inv(s)
  {
    var s0, run :| Init(s0) && ValidRun(s0, run) && Final(s0, run) == s;
    InitHasInv(s0);
    RunsKeepInv(s0, run);
  }

  /** Producer and consumer never work on the same key at the same time: the one
      stores under an absent key, the other asks for a present one. */
  lemma KeysDiffer(s: State)
    requires Inv(s) && Producer(s).PutStore? && Checked(Consumer(s))
    ensures Producer(s).key !in s.d.store && s.d.minKey in s.d.store
  {
    var p, q := Producer(s), Consumer(s);
    assert Bumped(p) == 1 && Uncounted(p) == 0 && Unbumped(q) == 0 && Undone(q) == 0;
    HeadShape(s.d, 1, 0);
    HoldsAt(s.d.store, s.d.head, Live(s.d), |Live(s.d)|);
  }

  /** Reopening keeps the invariant if and only if the stored range ends within
      the 64-bit keys. */
  lemma ReopeningIff(s: State, threads: nat, smallest: Option<U64>, greatest: Option<U64>)
    requires Inv(s) && FoundSmallest(s.d.store, smallest) && FoundGreatest(s.d.store, greatest)
    ensures var s' := State(Reopened(s.d, smallest, greatest), None, None, seq(threads, _ => Idle));
            Inv(s') <==> s.d.head + |Live(s.d)| <= M
  {
    if s.d.head + |Live(s.d)| <= M {
      RestartKeepsInv(s, Restart(threads, smallest, greatest));
    } else {
      RecoverStraddling(s.d.store, s.d.head, Live(s.d), smallest, greatest);
      var d' := Reopened(s.d, smallest, greatest);
      assert d'.count == 0 && |Live(d')| > 0;
      assert Bumped(Idle) == Uncounted(Idle) == Unbumped(Idle) == Undone(Idle) == 0;
      assert !Shape(d', 0, 0, 0, 0);
    }
  }
}
