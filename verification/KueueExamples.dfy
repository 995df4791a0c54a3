/** Runs that show what can go wrong: how a wake-up gets lost, and how an erase
    returns true without having removed anything. */
module KueueExamples {
  import opened KeyCodec
  import opened QueueStore
  import opened KueueCalls
  import opened KueueThreads
  import opened KueueInvariant
  import opened KueueHistory
  import opened KueueWakeUp

  // ---- Building runs -----------------------------------------------------------------

  lemma {:induction false} RunSnoc(s: State, run: seq<Action>, a: Action)
    requires ValidRun(s, run) && Enabled(Final(s, run), a)
    ensures ValidRun(s, run + [a]) && Final(s, run + [a]) == Apply(Final(s, run), a)
    decreases |run|
  {
    if run == [] {
      assert run + [a] == [a];
      assert ValidRun(Apply(s, a), [a][1..]);
    } else {
      RunSnoc(Apply(s, run[0]), run[1..], a);
      assert (run + [a])[1..] == run[1..] + [a];
    }
  }

  lemma ReachableStep(s: State, a: Action)
    requires Reachable(s) && Enabled(s, a)
    ensures Reachable(Apply(s, a))
  {
    var s0, run :| Init(s0) && ValidRun(s0, run) && Final(s0, run) == s;
    RunSnoc(s0, run, a);
  }

  /** Where one thread stands, with the data and the locks. */
  datatype Spot = Spot(pc: PC, d: Data, putLock: Option<nat>, takeLock: Option<nat>)

  /** s, except for what the spot says of thread t. */
  function At(s: State, t: nat, x: Spot): State
    requires t < |s.pcs|
  {
    State(x.d, x.putLock, x.takeLock, s.pcs[t := x.pc])
  }

  /** A statement that notifies no one leads thread t from x to y. */
  predicate Link(t: nat, x: Spot, y: Spot, ok: bool) {
    var pc := x.pc;
    && !pc.Idle? && !pc.Waiting? && !Notifies(pc)
    && (WantsPutLock(pc) ==> x.putLock.None?) && (WantsTakeLock(pc) ==> x.takeLock.None?)
    && (pc.PutStore? && ok ==> HasRoom(x.d))
    && ((pc.TakeStore? || pc.ReadStore?) && ok ==> x.d.minKey in x.d.store)
    && y.pc == NextPC(x.d, pc, ok) && y.d == Effect(x.d, pc, ok)
    && y.putLock == (if WantsPutLock(pc) then Some(t) else if UnlocksPut(pc) then None else x.putLock)
    && y.takeLock == (if WantsTakeLock(pc) then Some(t) else if UnlocksTake(pc) then None else x.takeLock)
  }

  lemma Goes(s: State, t: nat, x: Spot, y: Spot, ok: bool)
    requires t < |s.pcs| && Reachable(At(s, t, x)) && Link(t, x, y, ok)
    ensures Reachable(At(s, t, y))
  {
    var here := At(s, t, x);
    ReachableStep(here, Step(t, Choice(ok, 0)));
    assert here.pcs[t := y.pc] == s.pcs[t := y.pc];
    assert StepThread(here, t, Choice(ok, 0)) == At(s, t, y);
  }

  ghost predicate Linked(t: nat, xs: seq<Spot>, ok: bool) {
    forall i :: 0 <= i < |xs| - 1 ==> Link(t, xs[i], xs[i + 1], ok)
  }

  /** Thread t follows a path of such statements. */
  lemma {:induction false} Follows(s: State, t: nat, xs: seq<Spot>, ok: bool)
    requires t < |s.pcs| && xs != [] && Linked(t, xs, ok) && Reachable(At(s, t, xs[0]))
    ensures Reachable(At(s, t, xs[|xs| - 1]))
    decreases |xs|
  {
    if |xs| > 1 {
      Goes(s, t, xs[0], xs[1], ok);
      Follows(s, t, xs[1..], ok);
    }
  }

  lemma Starts(s: State, t: nat, op: Op)
    requires Reachable(s) && t < |s.pcs| && s.pcs[t].Idle? && (op.Erase? ==> op.r in s.d.seen)
    ensures Reachable(At(s, t, Spot(FirstPC(op), s.d, s.putLock, s.takeLock)))
  {
    ReachableStep(s, Begin(t, op));
    assert Apply(s, Begin(t, op)) == At(s, t, Spot(FirstPC(op), s.d, s.putLock, s.takeLock));
  }

  // ---- How a wake-up gets lost --------------------------------------------------------

  lemma SleepPath(d: Data, put: Option<nat>, t: nat, mode: Mode) returns (xs: seq<Spot>)
    requires d.count == 0
    ensures Linked(t, xs, true) && |xs| == 4
    ensures xs[0] == Spot(TakeWant(mode), d, put, None) && xs[3] == Spot(Waiting(mode), d, put, None)
  {
    xs := [Spot(TakeWant(mode), d, put, None), Spot(TakeCheck(mode, false), d, put, Some(t)),
           Spot(TakeBlock(mode), d, put, Some(t)), Spot(Waiting(mode), d, put, None)];
  }

  /** On an empty queue a consumer goes to sleep. */
  lemma FallsAsleep(s: State, t: nat, mode: Mode)
    requires Reachable(s) && t < |s.pcs| && s.pcs[t].Idle? && s.takeLock.None? && s.d.count == 0
    ensures Reachable(At(s, t, Spot(Waiting(mode), s.d, s.putLock, None)))
  {
    Starts(s, t, Consume(mode));
    var xs := SleepPath(s.d, s.putLock, t, mode);
    Follows(s, t, xs, true);
  }

  /** The data after a put of v has stored its message, and has accounted for it. */
  function Stored(d: Data, v: Bytes): Data {
    Insertion(d.(maxKey := Add64(d.maxKey, 1)), v, d.maxKey)
  }

  function PutDone(d: Data, v: Bytes): Data {
    Stored(d, v).(count := 1, totalPuts := Add64(d.totalPuts, 1))
  }

  lemma StorePath(d: Data, take: Option<nat>, t: nat, v: Bytes) returns (xs: seq<Spot>)
    requires HasRoom(d)
    ensures Linked(t, xs, true) && |xs| == 4
    ensures xs[0] == Spot(PutWant(v), d, None, take) && xs[3] == Spot(PutCount(v), Stored(d, v), Some(t), take)
  {
    var d1 := d.(maxKey := Add64(d.maxKey, 1));
    assert Live(d1) == Live(d);
    xs := [Spot(PutWant(v), d, None, take), Spot(PutBump(v), d, Some(t), take),
           Spot(PutStore(v, d.maxKey), d1, Some(t), take), Spot(PutCount(v), Stored(d, v), Some(t), take)];
  }

  lemma CountPath(d: Data, take: Option<nat>, t: nat, v: Bytes) returns (xs: seq<Spot>)
    requires d.count == 0
    ensures Linked(t, xs, true) && |xs| == 4
    ensures xs[0] == Spot(PutCount(v), d, Some(t), take)
    ensures xs[3] == Spot(SignalWant, d.(count := 1, totalPuts := Add64(d.totalPuts, 1)), None, take)
  {
    var d1 := d.(count := 1);
    var d2 := d1.(totalPuts := Add64(d.totalPuts, 1));
    xs := [Spot(PutCount(v), d, Some(t), take), Spot(PutTally(0), d1, Some(t), take),
           Spot(PutRelease(0, true), d2, Some(t), take), Spot(SignalWant, d2, None, take)];
  }

  /** A put into an empty queue, up to its signal. */
  lemma Puts(s: State, t: nat, v: Bytes)
    requires Reachable(s) && t < |s.pcs| && s.pcs[t].Idle? && s.putLock.None? && HasRoom(s.d) && s.d.count == 0
    ensures Reachable(At(s, t, Spot(SignalWant, PutDone(s.d, v), None, s.takeLock)))
  {
    Starts(s, t, Put(v));
    var xs := StorePath(s.d, s.takeLock, t, v);
    Follows(s, t, xs, true);
    var ys := CountPath(Stored(s.d, v), s.takeLock, t, v);
    Follows(s, t, ys, true);
  }

  /** The signal wakes thread w. */
  lemma Signals(s: State, t: nat, w: nat)
    requires Reachable(s) && t < |s.pcs| && w < |s.pcs| && s.pcs[t].SignalWant? && s.takeLock.None?
    requires s.pcs[w].Waiting?
    ensures var s' := s.(pcs := s.pcs[w := Woken(s.pcs[w].mode, false)]);
            Reachable(At(s', t, Spot(Idle, s.d, s.putLock, None)))
  {
    var s' := s.(pcs := s.pcs[w := Woken(s.pcs[w].mode, false)]);
    assert s == At(s, t, Spot(SignalWant, s.d, s.putLock, None));
    LocksForSignal(s, t);
    WakesOne(s, t, w);
    LeavesSignal(s', t);
  }

  lemma LocksForSignal(s: State, t: nat)
    requires t < |s.pcs| && Reachable(At(s, t, Spot(SignalWant, s.d, s.putLock, None)))
    ensures Reachable(At(s, t, Spot(SignalNotify, s.d, s.putLock, Some(t))))
  {
    Goes(s, t, Spot(SignalWant, s.d, s.putLock, None), Spot(SignalNotify, s.d, s.putLock, Some(t)), true);
  }

  lemma LeavesSignal(s: State, t: nat)
    requires t < |s.pcs| && Reachable(At(s, t, Spot(SignalRelease, s.d, s.putLock, Some(t))))
    ensures Reachable(At(s, t, Spot(Idle, s.d, s.putLock, None)))
  {
    Goes(s, t, Spot(SignalRelease, s.d, s.putLock, Some(t)), Spot(Idle, s.d, s.putLock, None), true);
  }

  lemma WakesOne(s: State, t: nat, w: nat)
    requires t < |s.pcs| && w < |s.pcs| && t != w && s.pcs[w].Waiting?
    requires Reachable(At(s, t, Spot(SignalNotify, s.d, s.putLock, Some(t))))
    ensures var s' := s.(pcs := s.pcs[w := Woken(s.pcs[w].mode, false)]);
            Reachable(At(s', t, Spot(SignalRelease, s.d, s.putLock, Some(t))))
  {
    var here := At(s, t, Spot(SignalNotify, s.d, s.putLock, Some(t)));
    var s' := s.(pcs := s.pcs[w := Woken(s.pcs[w].mode, false)]);
    assert here.pcs[w].Waiting?;
    ReachableStep(here, Step(t, Choice(true, w)));
    assert StepThread(here, t, Choice(true, w)) == At(s', t, Spot(SignalRelease, s.d, s.putLock, Some(t)));
  }

  /** A consumer at its store call finds the key it asks for. */
  lemma OldestIsThere(s: State, t: nat)
    requires Reachable(s) && t < |s.pcs| && Checked(s.pcs[t])
    ensures s.d.minKey in s.d.store
  {
    ReachableHasInv(s);
    assert HoldsTakeLock(s.pcs[t]) && Consumer(s) == s.pcs[t];
    assert Unbumped(s.pcs[t]) == 0 && Undone(s.pcs[t]) == 0;
    HeadShape(s.d, Bumped(Producer(s)), Uncounted(Producer(s)));
  }

  /** The store call a consumer makes. */
  function CallOf(mode: Mode): PC {
    if mode.Reading? then ReadStore(mode) else TakeStore(mode)
  }

  /** A woken consumer, or a new one, finds a message and goes on to its store
      call. */
  lemma ReachesCall(s: State, t: nat, mode: Mode, pc: PC)
    requires t < |s.pcs| && s.d.count > 0 && (pc == TakeWant(mode) || pc == Woken(mode, false))
    requires Reachable(At(s, t, Spot(pc, s.d, s.putLock, None)))
    ensures Reachable(At(s, t, Spot(CallOf(mode), s.d, s.putLock, Some(t))))
  {
    var put := s.putLock;
    var xs := [Spot(pc, s.d, put, None), Spot(TakeCheck(mode, false), s.d, put, Some(t)),
               Spot(CallOf(mode), s.d, put, Some(t))];
    Follows(s, t, xs, true);
  }

  /** It makes that call: a take that fails, or a readNext with either outcome. */
  lemma MakesCall(s: State, t: nat, mode: Mode, ok: bool)
    requires t < |s.pcs| && (ok ==> mode.Reading?)
    requires Reachable(At(s, t, Spot(CallOf(mode), s.d, s.putLock, Some(t))))
    ensures var here := CallOf(mode);
            Reachable(At(s, t, Spot(NextPC(s.d, here, ok), Effect(s.d, here, ok), s.putLock, Some(t))))
  {
    var here := CallOf(mode);
    OldestIsThere(At(s, t, Spot(here, s.d, s.putLock, Some(t))), t);
    Goes(s, t, Spot(here, s.d, s.putLock, Some(t)),
         Spot(NextPC(s.d, here, ok), Effect(s.d, here, ok), s.putLock, Some(t)), ok);
  }

  lemma JustOpened(n: nat) returns (s: State)
    ensures Reachable(s) && s.pcs == seq(n, _ => Idle) && s.putLock.None? && s.takeLock.None?
    ensures s.d.count == 0 && HasRoom(s.d) && s.d.removed == []
  {
    s := State(Data(map[], 0, 0, 0, 0, 0, 0, [], [], 0, 0, [], []), None, None, seq(n, _ => Idle));
    assert Init(s) && ValidRun(s, []) && Final(s, []) == s;
  }

  lemma TwoSleepers(mode: Mode) returns (s: State)
    ensures Reachable(s) && s.pcs == [Idle, Waiting(mode), Waiting(PlainTake)]
    ensures s.putLock.None? && s.takeLock.None? && s.d.count == 0 && HasRoom(s.d)
  {
    s := JustOpened(3);
    FallsAsleep(s, 1, mode);
    s := At(s, 1, Spot(Waiting(mode), s.d, None, None));
    FallsAsleep(s, 2, PlainTake);
    s := At(s, 2, Spot(Waiting(PlainTake), s.d, None, None));
  }

  /** A put wakes the first of two sleepers. */
  lemma OneWoken(mode: Mode, v: Bytes) returns (s: State)
    ensures Reachable(s) && s.pcs == [Idle, Woken(mode, false), Waiting(PlainTake)]
    ensures s.putLock.None? && s.takeLock.None? && s.d.count == 1
  {
    s := TwoSleepers(mode);
    Puts(s, 0, v);
    s := At(s, 0, Spot(SignalWant, PutDone(s.d, v), None, None));
    Signals(s, 0, 1);
    s := At(s.(pcs := s.pcs[1 := Woken(mode, false)]), 0, Spot(Idle, s.d, None, None));
  }

  /** Both kinds of dropping step happen: two consumers sleep, a put wakes the
      first, and that one is a readNext or a take whose store call fails. The
      second sleeps on although a message is there, and no thread is left that
      would wake it. */
  lemma WakeUpCanBeLost(mode: Mode, ok: bool, v: Bytes) returns (s: State)
    requires ok ==> mode.Reading?
    ensures Reachable(s) && |s.pcs| == 3 && s.pcs[2] == Waiting(PlainTake)
    ensures s.d.count == 1 && !Awake(s)
  {
    s := OneWoken(mode, v);
    assert s == At(s, 1, Spot(Woken(mode, false), s.d, None, None));
    ReachesCall(s, 1, mode, Woken(mode, false));
    MakesCall(s, 1, mode, ok);
    CallEnds(s.d, mode, ok);
    var here := CallOf(mode);
    s := At(s, 1, Spot(NextPC(s.d, here, ok), Effect(s.d, here, ok), None, Some(1)));
    assert Sleepy(s.pcs[2]) && s.pcs[0].Idle?;
  }

  lemma CallEnds(d: Data, mode: Mode, ok: bool)
    requires ok ==> mode.Reading?
    ensures NextPC(d, CallOf(mode), ok).TakeRelease? && Effect(d, CallOf(mode), ok).count == d.count
  {
  }

  // ---- How an erase finds nothing to do -------------------------------------------------

  /** A queue with one message. */
  lemma OneMessage(v: Bytes) returns (s: State)
    ensures Reachable(s) && |s.pcs| == 3 && s.pcs[1] == s.pcs[2] == Idle
    ensures s.putLock.None? && s.takeLock.None? && s.d.count == 1 && s.d.removed == []
  {
    s := JustOpened(3);
    Puts(s, 0, v);
    s := At(s, 0, Spot(SignalWant, PutDone(s.d, v), None, None));
  }

  /** What a readNext hands out. */
  function Record(d: Data): ReadRecord {
    ReadRecord(d.minKey, Fetched(d, d.minKey), |d.removed|)
  }

  /** A readNext on a queue with messages. */
  lemma Reads(s: State, t: nat)
    requires Reachable(s) && t < |s.pcs| && s.pcs[t].Idle? && s.takeLock.None? && s.d.count > 0
    ensures Reachable(At(s, t, Spot(Idle, s.d.(seen := s.d.seen + [Record(s.d)]), s.putLock, None)))
  {
    var mode, d := Reading(false), s.d.(seen := s.d.seen + [Record(s.d)]);
    Starts(s, t, Consume(mode));
    ReachesCall(s, t, mode, TakeWant(mode));
    MakesCall(s, t, mode, true);
    var reply := Shown(s.d.minKey, Fetched(s.d, s.d.minKey));
    Goes(s, t, Spot(TakeRelease(reply), d, s.putLock, Some(t)), Spot(Idle, d, s.putLock, None), true);
  }

  /** An erase up to its wait for the lock. */
  lemma Tests(s: State, t: nat, rec: ReadRecord)
    requires Reachable(s) && t < |s.pcs| && s.pcs[t].Idle? && rec in s.d.seen && rec.key == s.d.minKey
    ensures Reachable(At(s, t, Spot(EraseWant(rec), s.d, s.putLock, s.takeLock)))
  {
    Starts(s, t, Erase(rec));
    Goes(s, t, Spot(EraseTest(rec), s.d, s.putLock, s.takeLock), Spot(EraseWant(rec), s.d, s.putLock, s.takeLock), true);
  }

  /** It takes the lock and finds its message. */
  lemma FindsIt(s: State, t: nat, rec: ReadRecord)
    requires t < |s.pcs| && Reachable(At(s, t, Spot(EraseWant(rec), s.d, s.putLock, None)))
    requires rec.key == s.d.minKey
    ensures Reachable(At(s, t, Spot(EraseStore(rec), s.d, s.putLock, Some(t))))
  {
    var xs := [Spot(EraseWant(rec), s.d, s.putLock, None), Spot(EraseCheck(rec), s.d, s.putLock, Some(t)),
               Spot(EraseStore(rec), s.d, s.putLock, Some(t))];
    Follows(s, t, xs, true);
  }

  /** It removes it. */
  lemma RemovesIt(s: State, t: nat, rec: ReadRecord)
    requires t < |s.pcs| && Reachable(At(s, t, Spot(EraseWant(rec), s.d, s.putLock, None)))
    requires rec.key == s.d.minKey
    ensures var d := Removal(s.d, rec.key);
            && Reachable(At(s, t, Spot(RemoveBump(Fetched(s.d, rec.key)), d, s.putLock, Some(t))))
            && |d.removed| == |s.d.removed| + 1
  {
    FindsIt(s, t, rec);
    OldestIsThere(At(s, t, Spot(EraseStore(rec), s.d, s.putLock, Some(t))), t);
    Goes(s, t, Spot(EraseStore(rec), s.d, s.putLock, Some(t)),
         Spot(RemoveBump(Fetched(s.d, rec.key)), Removal(s.d, rec.key), s.putLock, Some(t)), true);
  }

  /** The data after the removal of a single message has been accounted for. */
  function RemovalDone(d: Data): Data {
    d.(minKey := Add64(d.minKey, 1), count := 0, totalTakes := Add64(d.totalTakes, 1))
  }

  lemma AccountPath(d: Data, put: Option<nat>, t: nat, v: Bytes) returns (xs: seq<Spot>)
    requires d.count == 1
    ensures Linked(t, xs, true) && |xs| == 4
    ensures xs[0] == Spot(RemoveBump(v), d, put, Some(t))
    ensures xs[3] == Spot(RemoveNotify(1, v), RemovalDone(d), put, Some(t))
  {
    var d1 := d.(minKey := Add64(d.minKey, 1));
    var d2 := d1.(count := 0);
    xs := [Spot(RemoveBump(v), d, put, Some(t)), Spot(RemoveCount(v), d1, put, Some(t)),
           Spot(RemoveTally(1, v), d2, put, Some(t)), Spot(RemoveNotify(1, v), RemovalDone(d), put, Some(t))];
  }

  lemma LeavePath(d: Data, put: Option<nat>, t: nat, v: Bytes) returns (xs: seq<Spot>)
    ensures Linked(t, xs, true) && |xs| == 3
    ensures xs[0] == Spot(RemoveNotify(1, v), d, put, Some(t)) && xs[2] == Spot(Idle, d, put, None)
  {
    xs := [Spot(RemoveNotify(1, v), d, put, Some(t)), Spot(TakeRelease(Removed(v)), d, put, Some(t)),
           Spot(Idle, d, put, None)];
  }

  /** Once the message is gone, the other erase is unneeded. */
  lemma ComesTooLate(s: State, t: nat, rec: ReadRecord)
    requires t < |s.pcs| && s.takeLock.None? && Reachable(s) && s.pcs[t] == EraseWant(rec)
    requires rec.pos < |s.d.removed|
    ensures Reachable(At(s, t, Spot(TakeRelease(Unneeded), s.d, s.putLock, Some(t))))
  {
    assert s == At(s, t, Spot(EraseWant(rec), s.d, s.putLock, None));
    Goes(s, t, Spot(EraseWant(rec), s.d, s.putLock, None), Spot(EraseCheck(rec), s.d, s.putLock, Some(t)), true);
    FindsNothing(At(s, t, Spot(EraseCheck(rec), s.d, s.putLock, Some(t))), t, rec);
    Goes(s, t, Spot(EraseCheck(rec), s.d, s.putLock, Some(t)), Spot(TakeRelease(Unneeded), s.d, s.putLock, Some(t)), true);
  }

  lemma FindsNothing(s: State, t: nat, rec: ReadRecord)
    requires t < |s.pcs| && Reachable(s) && s.pcs[t] == EraseCheck(rec) && rec.pos < |s.d.removed|
    ensures rec.key != s.d.minKey
  {
    ReachableHasInv(s);
    EraseIsExact(s, t, Choice(true, 0));
  }

  /** Two erases of the one message that was read, both past the first test. */
  lemma BothPass(v: Bytes) returns (s: State, rec: ReadRecord)
    ensures Reachable(s) && |s.pcs| == 3 && s.pcs[1] == s.pcs[2] == EraseWant(rec)
    ensures s.takeLock.None? && s.putLock.None? && s.d.count == 1 && s.d.removed == []
    ensures rec in s.d.seen && rec.key == s.d.minKey && rec.pos == 0
  {
    s := OneMessage(v);
    rec := Record(s.d);
    Reads(s, 1);
    s := At(s, 1, Spot(Idle, s.d.(seen := s.d.seen + [rec]), None, None));
    Tests(s, 1, rec);
    s := At(s, 1, Spot(EraseWant(rec), s.d, None, None));
    Tests(s, 2, rec);
    s := At(s, 2, Spot(EraseWant(rec), s.d, None, None));
  }

  /** Both pass the first test, one removes the message, and the other is about to
      return true although it removes nothing. */
  lemma EraseCanBeUnneeded(v: Bytes) returns (s: State, rec: ReadRecord)
    ensures Reachable(s) && |s.pcs| == 3 && s.pcs[1] == Idle && s.pcs[2] == TakeRelease(Unneeded)
    ensures rec in s.d.seen && rec.pos < |s.d.removed| == 1
  {
    s, rec := BothPass(v);
    assert s == At(s, 1, Spot(EraseWant(rec), s.d, None, None));
    RemovesIt(s, 1, rec);
    var d := Removal(s.d, rec.key);
    var xs := AccountPath(d, None, 1, Fetched(s.d, rec.key));
    Follows(s, 1, xs, true);
    var ys := LeavePath(RemovalDone(d), None, 1, Fetched(s.d, rec.key));
    Follows(s, 1, ys, true);
    s := At(s, 1, Spot(Idle, RemovalDone(d), None, None));
    ComesTooLate(s, 2, rec);
    s := At(s, 2, Spot(TakeRelease(Unneeded), s.d, None, Some(2)));
  }
}
