/** Wake-ups and progress: when a message cannot sit in the queue while every
    consumer sleeps, exactly which steps break that, and why the two locks
    cannot deadlock. */
module KueueWakeUp {
  import opened KeyCodec
  import opened QueueStore
  import opened KueueCalls
  import opened KueueThreads
  import opened KueueInvariant

  // ---- No lost wake-up -------------------------------------------------------------

  /** A thread that is about to wake a sleeper, or is itself on its way to the
      message: a producer that saw 0 and has yet to signal, an unblocked
      consumer, a consumer inside its section before its own notification. */
  predicate Helps(pc: PC) {
    || (pc.PutTally? && pc.c == 0) || (pc.PutRelease? && pc.c == 0)
    || pc.SignalWant? || pc.SignalNotify?
    || pc.Woken? || pc.TakeCheck? || pc.TakeStore? || pc.ReadStore?
    || pc.RemoveBump? || pc.RemoveCount?
    || (pc.RemoveTally? && pc.c > 1) || (pc.RemoveNotify? && pc.c > 1)
  }

  /** A thread that sleeps, or has found the queue empty and is about to: until it
      waits, a notification does not reach it. */
  predicate Sleepy(pc: PC) {
    pc.Waiting? || pc.TakeBlock?
  }

  predicate SomeoneSleeps(pcs: seq<PC>) {
    exists t :: 0 <= t < |pcs| && Sleepy(pcs[t])
  }

  predicate SomeoneHelps(pcs: seq<PC>) {
    exists t :: 0 <= t < |pcs| && Helps(pcs[t])
  }

  /** If a message is counted and a consumer sleeps or is about to, help is under
      way. */
  predicate Awake(s: State) {
    s.d.count > 0 && SomeoneSleeps(s.pcs) ==> SomeoneHelps(s.pcs)
  }

  /** The steps that lose a wake-up: a take whose store call fails, or a
      readNext, leaves without notifying while it was the only help. */
  predicate Drops(s: State, t: nat, c: Choice)
    requires t < |s.pcs|
  {
    && (s.pcs[t].ReadStore? || (s.pcs[t].TakeStore? && !c.ok))
    && SomeoneSleeps(s.pcs)
    && (forall u :: 0 <= u < |s.pcs| && u != t ==> !Helps(s.pcs[u]))
  }

  /** A statement that stops helping has notified, has left the queue empty, or
      is one of the two that just leave. */
  lemma HelpEnds(d: Data, pc: PC, ok: bool)
    requires 0 <= d.count < HALF && Helps(pc) && !Helps(NextPC(d, pc, ok)) && !Notifies(pc)
    ensures pc.ReadStore? || (pc.TakeStore? && !ok) || Effect(d, pc, ok).count <= 0
  {
  }

  /** The count becomes positive only under a statement that then helps. */
  lemma HelpBegins(d: Data, pc: PC, ok: bool)
    requires 0 <= d.count < HALF && Effect(d, pc, ok).count > 0
    requires !Helps(pc) && !Helps(NextPC(d, pc, ok))
    ensures d.count > 0 && (Sleepy(NextPC(d, pc, ok)) ==> Sleepy(pc))
  {
  }

  /** While a thread holds takeLock, no other is between its test and its wait. */
  lemma NobodyElseBlocks(s: State, t: nat)
    requires Inv(s) && t < |s.pcs| && HoldsTakeLock(s.pcs[t])
    ensures forall u :: 0 <= u < |s.pcs| && u != t ==> !s.pcs[u].TakeBlock?
  {
    assert forall u :: 0 <= u < |s.pcs| && s.pcs[u].TakeBlock? ==> HoldsTakeLock(s.pcs[u]);
  }

  /** A notification reaches a sleeper if there is one. This is where the signal
      needs takeLock: without it, a consumer that has seen 0 and is not yet
      waiting would miss it. */
  lemma NotifyingKeepsAwake(s: State, t: nat, c: Choice)
    requires Inv(s) && t < |s.pcs| && CanStep(s, t, c) && Notifies(s.pcs[t])
    ensures Awake(StepThread(s, t, c))
  {
    var s' := StepThread(s, t, c);
    if SomeoneWaits(s.pcs) {
      assert Helps(s'.pcs[c.wakee]);
    } else {
      NobodyElseBlocks(s, t);
      assert !Sleepy(NextPC(s.d, s.pcs[t], c.ok));
      assert s'.pcs == s.pcs[t := NextPC(s.d, s.pcs[t], c.ok)];
      assert forall u :: 0 <= u < |s.pcs| ==> !s.pcs[u].Waiting?;
    }
  }

  /** What takeLock prevents: a signal given while a consumer stands between its
      test and its wait, and no one waits yet, is lost on that consumer. */
  lemma SignalWithoutLockIsLost(s: State, t: nat, c: Choice, u: nat)
    requires t < |s.pcs| && u < |s.pcs| && s.pcs[t].SignalNotify? && s.pcs[u].TakeBlock? && s.d.count > 0
    requires !SomeoneWaits(s.pcs) && forall v :: 0 <= v < |s.pcs| && v != t ==> !Helps(s.pcs[v])
    ensures !Awake(StepThread(s, t, c)) && !Inv(s)
  {
    var s' := StepThread(s, t, c);
    assert s'.pcs == s.pcs[t := SignalRelease] && Sleepy(s'.pcs[u]);
    if Inv(s) {
      NobodyElseBlocks(s, t);
    }
  }

  lemma OtherStepsKeepAwake(s: State, t: nat, c: Choice)
    requires t < |s.pcs| && CanStep(s, t, c) && !Notifies(s.pcs[t]) && 0 <= s.d.count < HALF
    requires Awake(s) && !Drops(s, t, c)
    ensures Awake(StepThread(s, t, c))
  {
    var s', pc, next := StepThread(s, t, c), s.pcs[t], NextPC(s.d, s.pcs[t], c.ok);
    if s'.d.count > 0 && SomeoneSleeps(s'.pcs) {
      if Helps(next) {
        assert Helps(s'.pcs[t]);
      } else if Helps(pc) {
        HelpEnds(s.d, pc, c.ok);
        var w :| 0 <= w < |s'.pcs| && Sleepy(s'.pcs[w]);
        assert Sleepy(s.pcs[w]);
        var u :| 0 <= u < |s.pcs| && u != t && Helps(s.pcs[u]);
        assert Helps(s'.pcs[u]);
      } else {
        HelpBegins(s.d, pc, c.ok);
        var w :| 0 <= w < |s'.pcs| && Sleepy(s'.pcs[w]);
        assert Sleepy(s.pcs[w]);
        var u :| 0 <= u < |s.pcs| && Helps(s.pcs[u]);
        assert Helps(s'.pcs[u]);
      }
    }
  }

  lemma DroppingLosesIt(s: State, t: nat, c: Choice)
    requires t < |s.pcs| && CanStep(s, t, c) && Drops(s, t, c) && s.d.count > 0
    ensures !Awake(StepThread(s, t, c))
  {
    var s', next := StepThread(s, t, c), NextPC(s.d, s.pcs[t], c.ok);
    var w :| 0 <= w < |s.pcs| && Sleepy(s.pcs[w]);
    assert Sleepy(s'.pcs[w]);
    assert next.TakeRelease? && s'.pcs == s.pcs[t := next];
  }

  lemma CountIsSmall(s: State)
    requires Inv(s)
    ensures 0 <= s.d.count < HALF
    ensures forall t :: 0 <= t < |s.pcs| && Checked(s.pcs[t]) ==> s.d.count > 0
  {
    assert forall t :: 0 <= t < |s.pcs| && Checked(s.pcs[t]) ==> HoldsTakeLock(s.pcs[t]);
  }

  /** Exactly the dropping steps lose a wake-up. */
  lemma StepAwakeIff(s: State, t: nat, c: Choice)
    requires Inv(s) && Awake(s) && t < |s.pcs| && CanStep(s, t, c)
    ensures Awake(StepThread(s, t, c)) <==> !Drops(s, t, c)
  {
    CountIsSmall(s);
    if Notifies(s.pcs[t]) {
      NotifyingKeepsAwake(s, t, c);
    } else if Drops(s, t, c) {
      DroppingLosesIt(s, t, c);
    } else {
      OtherStepsKeepAwake(s, t, c);
    }
  }

  lemma ActionKeepsAwake(s: State, a: Action)
    requires Inv(s) && Awake(s) && Enabled(s, a)
    requires a.Step? ==> !Drops(s, a.t, a.c)
    ensures Awake(Apply(s, a))
  {
    match a
    case Begin(t, op) =>
      var s' := Apply(s, a);
      if s'.d.count > 0 && SomeoneSleeps(s'.pcs) {
        var w :| 0 <= w < |s'.pcs| && Sleepy(s'.pcs[w]);
        assert Sleepy(s.pcs[w]);
        var u :| 0 <= u < |s.pcs| && Helps(s.pcs[u]);
        assert Helps(s'.pcs[u]);
      }
    case Step(t, c) => StepAwakeIff(s, t, c);
    case WakeUp(t, expired) => assert Helps(Apply(s, a).pcs[t]);
    case Restart(_, _, _) =>
  }

  /** No readNext is started and no take meets a failing store call. */
  ghost predicate Careful(s: State, run: seq<Action>)
    requires ValidRun(s, run)
    decreases |run|
  {
    run == [] ||
    (&& !(run[0].Begin? && run[0].op.Consume? && run[0].op.mode.Reading?)
     && (run[0].Step? && s.pcs[run[0].t].TakeStore? ==> run[0].c.ok)
     && Careful(Apply(s, run[0]), run[1..]))
  }

  /** No thread is executing readNext. */
  predicate NoReader(pcs: seq<PC>) {
    forall t :: 0 <= t < |pcs| ==> !IsReader(pcs[t])
  }

  predicate IsReader(pc: PC) {
    || pc.ReadStore?
    || ((pc.TakeWant? || pc.TakeCheck? || pc.TakeBlock? || pc.Waiting? || pc.Woken?) && pc.mode.Reading?)
  }

  lemma ReadersStartAsReaders(d: Data, pc: PC, ok: bool)
    requires IsReader(NextPC(d, pc, ok))
    ensures IsReader(pc)
  {
  }

  lemma NoReaderKept(s: State, a: Action)
    requires NoReader(s.pcs) && Enabled(s, a)
    requires !(a.Begin? && a.op.Consume? && a.op.mode.Reading?)
    ensures NoReader(Apply(s, a).pcs)
  {
    if a.Step? {
      if IsReader(NextPC(s.d, s.pcs[a.t], a.c.ok)) {
        ReadersStartAsReaders(s.d, s.pcs[a.t], a.c.ok);
      }
    }
  }

  /** No lost wake-up: in every state of every careful run of any number of
      threads, with spurious wake-ups, timeouts, clears and erases, a sleeping
      consumer and a counted message imply that help is under way. */
  lemma {:induction false} NoLostWakeUp(s: State, run: seq<Action>)
    requires Inv(s) && Awake(s) && NoReader(s.pcs) && ValidRun(s, run) && Careful(s, run)
    ensures Awake(Final(s, run))
    decreases |run|
  {
    if run != [] {
      ActionKeepsAwake(s, run[0]);
      InvKept(s, run[0]);
      NoReaderKept(s, run[0]);
      NoLostWakeUp(Apply(s, run[0]), run[1..]);
    }
  }

  /** In particular in every careful run from a queue just opened. */
  lemma NoLostWakeUpFromStart(s: State, run: seq<Action>)
    requires Init(s) && ValidRun(s, run) && Careful(s, run)
    ensures Awake(Final(s, run))
  {
    InitHasInv(s);
    InitIsAwake(s);
    NoLostWakeUp(s, run);
  }

  lemma InitIsAwake(s: State)
    requires Init(s)
    ensures Awake(s) && NoReader(s.pcs)
  {
    assert s.d.count == 0;
    assert forall t :: 0 <= t < |s.pcs| ==> !IsReader(s.pcs[t]);
  }

  /** So when only sleepers are left, the queue is empty. */
  lemma SleepersMeanEmpty(s: State)
    requires Inv(s) && Awake(s) && SomeoneWaits(s.pcs)
    requires forall t :: 0 <= t < |s.pcs| ==> s.pcs[t].Idle? || s.pcs[t].Waiting?
    ensures s.d.count == 0
  {
    CountIsSmall(s);
    assert forall t :: 0 <= t < |s.pcs| ==> !Helps(s.pcs[t]);
  }

  // ---- No deadlock -------------------------------------------------------------------

  /** A choice under which a thread that wants no lock can always go on: the
      store call fails, and a notification picks some waiter. */
  lemma FreeThreadSteps(s: State, t: nat) returns (c: Choice)
    requires t < |s.pcs| && !s.pcs[t].Idle? && !s.pcs[t].Waiting?
    requires WantsPutLock(s.pcs[t]) ==> s.putLock.None?
    requires WantsTakeLock(s.pcs[t]) ==> s.takeLock.None?
    ensures CanStep(s, t, c)
  {
    if SomeoneWaits(s.pcs) {
      var w :| 0 <= w < |s.pcs| && s.pcs[w].Waiting?;
      c := Choice(false, w);
    } else {
      c := Choice(false, 0);
    }
  }

  /** The holder of takeLock never waits for a lock, and the holder of putLock
      waits at most for takeLock. */
  lemma LockOrder(pc: PC)
    ensures HoldsTakeLock(pc) ==> !WantsPutLock(pc) && !WantsTakeLock(pc) && !pc.Idle? && !pc.Waiting?
    ensures HoldsPutLock(pc) ==> !WantsPutLock(pc) && !pc.Idle? && !pc.Waiting?
  {
  }

  /** Deadlock freedom: as long as some operation is unfinished and not asleep on
      the condition variable, some thread can execute its next statement. */
  lemma SomeThreadSteps(s: State, t: nat) returns (u: nat, c: Choice)
    requires Inv(s) && t < |s.pcs| && !s.pcs[t].Idle? && !s.pcs[t].Waiting?
    ensures u < |s.pcs| && CanStep(s, u, c)
  {
    u := t;
    if WantsPutLock(s.pcs[u]) && s.putLock.Some? {
      u := s.putLock.value;
      LockOrder(s.pcs[u]);
    }
    if WantsTakeLock(s.pcs[u]) && s.takeLock.Some? {
      u := s.takeLock.value;
      LockOrder(s.pcs[u]);
    }
    c := FreeThreadSteps(s, u);
  }
}
