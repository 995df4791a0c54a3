/** Every operation comes to its end: each statement brings its thread nearer to it,
    and a thread that is alone can always execute the next one, until it returns or
    sleeps on an empty queue. */
module KueueProgress {
  import opened KeyCodec
  import opened QueueStore
  import opened KueueCalls
  import opened KueueThreads
  import opened KueueInvariant
  import opened KueueOperations
  import opened KueueWakeUp
  import opened KueueLevels

  /** A bound on the statements a thread at pc can still execute before it returns or
      sleeps; clear needs five for each message. */
  function Left(pc: PC, count: int): nat {
    var more := if count > 0 then 5 * count else 0;
    match pc
    case Idle => 0
    case PutWant(_) => 9
    case PutBump(_) => 8
    case PutStore(_, _) => 7
    case PutCount(_) => 6
    case PutTally(_) => 5
    case PutUndo => 5
    case PutRelease(_, _) => 4
    case SignalWant => 3
    case SignalNotify => 2
    case SignalRelease => 1
    case TakeWant(_) => 8
    case TakeCheck(_, _) => 7
    case TakeBlock(_) => 1
    case Waiting(_) => 0
    case Woken(_, _) => 8
    case TakeStore(_) => 6
    case ReadStore(_) => 6
    case RemoveBump(_) => 5
    case RemoveCount(_) => 4
    case RemoveTally(_, _) => 3
    case RemoveNotify(_, _) => 2
    case TakeRelease(_) => 1
    case EraseTest(_) => 9
    case EraseWant(_) => 8
    case EraseCheck(_) => 7
    case EraseStore(_) => 6
    case ClearWantPut => more + 5
    case ClearWantTake => more + 4
    case ClearCheck => more + 3
    case ClearStore => more + 2
    case ClearBump(_) => more + 1
    case ClearCount(_) => more
    case ClearTally => more + 4
    case ClearReleaseTake(_) => 2
    case ClearReleasePut(_) => 1
  }

  lemma StatementDescends(d: Data, pc: PC, ok: bool)
    requires !pc.Idle? && !pc.Waiting? && 0 <= d.count < HALF
    requires pc.ClearStore? || pc.ClearBump? || pc.ClearCount? ==> d.count >= 1
    ensures Left(NextPC(d, pc, ok), Effect(d, pc, ok).count) < Left(pc, d.count)
  {
  }

  /** A clear that is about to count a message out has counted it in. */
  lemma ClearHasCount(s: State, t: nat)
    requires Inv(s) && t < |s.pcs|
    ensures 0 <= s.d.count < HALF
    ensures s.pcs[t].ClearStore? || s.pcs[t].ClearBump? || s.pcs[t].ClearCount? ==> s.d.count >= 1
  {
    CountIsSmall(s);
    if HoldsTakeLock(s.pcs[t]) {
      assert Consumer(s) == s.pcs[t];
      CountCovers(s.d, Producer(s), s.pcs[t]);
    }
  }

  lemma CountCovers(d: Data, p: PC, q: PC)
    requires Fits(d, p, q)
    ensures q.ClearStore? || q.ClearBump? || q.ClearCount? ==> d.count >= 1
  {
    assert q.ClearBump? || q.ClearCount? ==> Undone(q) == 1;
  }

  /** No statement of any thread, in any run, is repeated for ever: each one brings
      its thread nearer to its return. */
  lemma StepDescends(s: State, t: nat, c: Choice)
    requires Inv(s) && t < |s.pcs| && CanStep(s, t, c)
    ensures var s' := StepThread(s, t, c); Left(s'.pcs[t], s'.d.count) < Left(s.pcs[t], s.d.count)
  {
    ClearHasCount(s, t);
    StatementDescends(s.d, s.pcs[t], c.ok);
  }

  /** An operation that runs alone and does not wait is over after that many. */
  lemma {:induction false} AloneIsShort(s: State, run: seq<Action>, t: nat)
    requires Inv(s) && ValidRun(s, run) && Alone(s, run, t)
    requires forall i :: 0 <= i < |run| ==> run[i].Step?
    ensures |run| <= Left(s.pcs[t], s.d.count)
    decreases |run|
  {
    if run != [] {
      var s1 := Apply(s, run[0]);
      assert ActsAlone(run[0], t) && Busy(s1, run[1..], t);
      StepDescends(s, t, run[0].c);
      InvKept(s, run[0]);
      AloneIsShort(s1, run[1..], t);
    }
  }

  /** A put that has not stored its message yet. */
  predicate NeedsRoom(pc: PC) {
    pc.PutWant? || pc.PutBump? || pc.PutStore?
  }

  /** The oldest key is there for a consumer that has found a message. */
  lemma KeyIsThere(s: State, t: nat)
    requires Inv(s) && t < |s.pcs| && Checked(s.pcs[t])
    ensures s.d.minKey in s.d.store
  {
    assert Consumer(s) == s.pcs[t] && Unbumped(s.pcs[t]) == 0 && Undone(s.pcs[t]) == 0;
    HeadShape(s.d, Bumped(Producer(s)), Uncounted(Producer(s)));
  }

  /** Until then it can go on, whatever the store answers. */
  lemma AloneGoesOn(s: State, t: nat, ok: bool) returns (c: Choice)
    requires Inv(s) && OthersOutside(s, t) && t < |s.pcs| && !s.pcs[t].Idle? && !s.pcs[t].Waiting?
    requires NeedsRoom(s.pcs[t]) ==> HasRoom(s.d)
    ensures CanStep(s, t, c) && c.ok == ok
  {
    LockOrder(s.pcs[t]);
    if Checked(s.pcs[t]) {
      KeyIsThere(s, t);
    }
    c := Choice(ok, 0);
    if SomeoneWaits(s.pcs) {
      var w :| 0 <= w < |s.pcs| && s.pcs[w].Waiting?;
      c := Choice(ok, w);
    }
  }
}
