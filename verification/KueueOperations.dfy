/** Single operations within a run: which events of the abstract queue an
    operation causes between its call and its return, and what it returns. */
module KueueOperations {
  import opened KeyCodec
  import opened QueueStore
  import opened KueueCalls
  import opened KueueThreads
  import opened KueueInvariant
  import opened KueueHistory

  // ---- What an operation tells ------------------------------------------------------

  /** What a thread returns, if the statement at pc is its last. */
  function ReplyAt(d: Data, pc: PC): Option<Reply> {
    match pc
    case PutRelease(c, ok) => if c == 0 then None else Some(if ok then Accepted else Failed)
    case SignalRelease => Some(Accepted)
    case TakeRelease(r) => Some(r)
    case EraseTest(rec) => if rec.key == d.minKey then None else Some(Refused)
    case ClearReleasePut(r) => Some(r)
    case _ => None
  }

  predicate AllFoundEmpty(es: seq<Event>) {
    forall i :: 0 <= i < |es| ==> es[i].FoundEmpty?
  }

  predicate AllDequeue(es: seq<Event>) {
    forall i :: 0 <= i < |es| ==> es[i].Dequeue?
  }

  predicate DequeuesThen(es: seq<Event>, e: Event) {
    es != [] && AllDequeue(es[..|es| - 1]) && es[|es| - 1] == e
  }

  predicate EmptyThen(es: seq<Event>, e: Event) {
    es != [] && AllFoundEmpty(es[..|es| - 1]) && es[|es| - 1] == e
  }

  /** The events of a completed operation and its reply agree: an accepted put
      enqueued its value once; a take that returns a value dequeued exactly that
      value, after finding the queue empty any number of times; a timed-out one
      last found it empty; an erase removed the message that was read, or
      nothing; clear removed messages until it found the queue empty or a removal
      failed. A failed call did nothing. */
  predicate Told(op: Op, es: seq<Event>, r: Reply) {
    match op
    case Put(v) => (r == Accepted && es == [Enqueue(v)]) || (r == Failed && es == [])
    case Consume(mode) =>
      (match r
       case Removed(v) => !mode.Reading? && EmptyThen(es, Dequeue(v))
       case Shown(key, v) => mode.Reading? && EmptyThen(es, Peek(key, v))
       case TimedOut => CanExpire(mode) && EmptyThen(es, FoundEmpty)
       case Failed => AllFoundEmpty(es)
       case _ => false)
    case Erase(rec) =>
      if r.Removed? then r.v == rec.value && es == [Dequeue(r.v)]
      else es == [] && (r == Failed || r == Unneeded || r == Refused)
    case Clear =>
      if r == Cleared then DequeuesThen(es, FoundEmpty) else r == Failed && AllDequeue(es)
  }

  // ---- What it has told so far -------------------------------------------------------

  /** A put of v at pc has caused the events es. */
  predicate PutTold(v: Bytes, es: seq<Event>, pc: PC) {
    match pc
    case PutWant(w) => w == v && es == []
    case PutBump(w) => w == v && es == []
    case PutStore(w, _) => w == v && es == []
    case PutCount(w) => w == v && es == []
    case PutTally(_) => es == [Enqueue(v)]
    case PutUndo => es == []
    case PutRelease(c, ok) => es == (if ok then [Enqueue(v)] else []) && (c == 0 ==> ok)
    case SignalWant => es == [Enqueue(v)]
    case SignalNotify => es == [Enqueue(v)]
    case SignalRelease => es == [Enqueue(v)]
    case _ => false
  }

  predicate ConsumeTold(mode: Mode, es: seq<Event>, pc: PC) {
    match pc
    case TakeWant(m) => m == mode && AllFoundEmpty(es)
    case TakeCheck(m, expired) => m == mode && AllFoundEmpty(es) && (expired ==> CanExpire(mode))
    case TakeBlock(m) => m == mode && AllFoundEmpty(es)
    case Waiting(m) => m == mode && AllFoundEmpty(es)
    case Woken(m, expired) => m == mode && AllFoundEmpty(es) && (expired ==> CanExpire(mode))
    case TakeStore(m) => m == mode && !mode.Reading? && AllFoundEmpty(es)
    case ReadStore(m) => m == mode && mode.Reading? && AllFoundEmpty(es)
    case RemoveBump(_) => !mode.Reading? && AllFoundEmpty(es)
    case RemoveCount(_) => !mode.Reading? && AllFoundEmpty(es)
    case RemoveTally(_, v) => Told(Consume(mode), es, Removed(v))
    case RemoveNotify(_, v) => Told(Consume(mode), es, Removed(v))
    case TakeRelease(r) => Told(Consume(mode), es, r)
    case _ => false
  }

  predicate EraseTold(rec: ReadRecord, es: seq<Event>, pc: PC) {
    match pc
    case EraseTest(r) => r == rec && es == []
    case EraseWant(r) => r == rec && es == []
    case EraseCheck(r) => r == rec && es == []
    case EraseStore(r) => r == rec && es == []
    case RemoveBump(v) => v == rec.value && es == []
    case RemoveCount(v) => v == rec.value && es == []
    case RemoveTally(_, v) => Told(Erase(rec), es, Removed(v))
    case RemoveNotify(_, v) => Told(Erase(rec), es, Removed(v))
    case TakeRelease(r) => Told(Erase(rec), es, r)
    case _ => false
  }

  predicate ClearTold(es: seq<Event>, pc: PC) {
    match pc
    case ClearWantPut => AllDequeue(es)
    case ClearWantTake => AllDequeue(es)
    case ClearCheck => AllDequeue(es)
    case ClearStore => AllDequeue(es)
    case ClearBump(_) => AllDequeue(es)
    case ClearCount(_) => AllDequeue(es)
    case ClearTally => AllDequeue(es)
    case ClearReleaseTake(r) => Told(Clear, es, r)
    case ClearReleasePut(r) => Told(Clear, es, r)
    case _ => false
  }

  predicate ToldSoFar(op: Op, es: seq<Event>, pc: PC) {
    match op
    case Put(v) => PutTold(v, es, pc)
    case Consume(mode) => ConsumeTold(mode, es, pc)
    case Erase(rec) => EraseTold(rec, es, pc)
    case Clear => ClearTold(es, pc)
  }

  /** Whether a thread at pc can have caused the events es in the operation op. */
  datatype Verdict = Right | Wrong

  function SoFar(op: Op, es: seq<Event>, pc: PC): Verdict {
    if ToldSoFar(op, es, pc) then Right else Wrong
  }

  /** What an event adds to the story. */
  function Heard(e: Event): seq<Event> {
    if e == Silent then [] else [e]
  }

  /** The statement at pc leaves the story consistent, or ends it. */
  predicate GoesOn(op: Op, es: seq<Event>, d: Data, pc: PC, ok: bool) {
    var es' := es + Heard(EventAt(d, pc, ok));
    match ReplyAt(d, pc)
    case Some(r) => NextPC(d, pc, ok).Idle? && Told(op, es', r)
    case None => ToldSoFar(op, es', NextPC(d, pc, ok))
  }

  lemma PutGoesOn(v: Bytes, es: seq<Event>, d: Data, pc: PC, ok: bool)
    requires PutTold(v, es, pc)
    ensures GoesOn(Put(v), es, d, pc, ok)
  {
  }

  lemma OneMoreEmpty(es: seq<Event>, e: Event)
    requires AllFoundEmpty(es)
    ensures EmptyThen(es + [e], e) && (e.FoundEmpty? ==> AllFoundEmpty(es + [e]))
  {
    assert (es + [e])[..|es|] == es;
  }

  /** The part of a consuming call before its removal is counted, or its reply
      known. */
  lemma ConsumeLooks(mode: Mode, es: seq<Event>, d: Data, pc: PC, ok: bool)
    requires ConsumeTold(mode, es, pc) && !pc.Waiting?
    requires !pc.RemoveTally? && !pc.RemoveNotify? && !pc.TakeRelease?
    ensures GoesOn(Consume(mode), es, d, pc, ok)
  {
    OneMoreEmpty(es, EventAt(d, pc, ok));
    assert es + [] == es;
    assert ReplyAt(d, pc).None?;
  }

  lemma ConsumeGoesOn(mode: Mode, es: seq<Event>, d: Data, pc: PC, ok: bool)
    requires ConsumeTold(mode, es, pc) && !pc.Waiting?
    ensures GoesOn(Consume(mode), es, d, pc, ok)
  {
    if pc.RemoveTally? || pc.RemoveNotify? || pc.TakeRelease? {
      assert EventAt(d, pc, ok) == Silent && es + [] == es;
    } else {
      ConsumeLooks(mode, es, d, pc, ok);
    }
  }

  lemma EraseGoesOn(rec: ReadRecord, es: seq<Event>, d: Data, pc: PC, ok: bool)
    requires EraseTold(rec, es, pc)
    requires pc.EraseStore? && ok ==> Fetched(d, rec.key) == rec.value
    ensures GoesOn(Erase(rec), es, d, pc, ok)
  {
  }

  lemma OneMoreDequeue(es: seq<Event>, e: Event)
    requires AllDequeue(es)
    ensures DequeuesThen(es + [e], e) && (e.Dequeue? ==> AllDequeue(es + [e])) && es + [] == es
  {
    assert (es + [e])[..|es|] == es;
  }

  lemma ClearGoesOn(es: seq<Event>, d: Data, pc: PC, ok: bool)
    requires ClearTold(es, pc)
    ensures GoesOn(Clear, es, d, pc, ok)
  {
    if AllDequeue(es) {
      OneMoreDequeue(es, EventAt(d, pc, ok));
    }
  }

  /** An erase fetches the value that was read. */
  lemma EraseFetchesWhatWasRead(s: State, t: nat, c: Choice)
    requires Inv(s) && t < |s.pcs| && CanStep(s, t, c) && s.pcs[t].EraseStore?
    ensures Fetched(s.d, s.pcs[t].rec.key) == s.pcs[t].rec.value
  {
    var pc := s.pcs[t];
    ConsumerAfter(s, t, c);
    assert EraseRecord(pc) == Some(pc.rec) && Genuine(s.d, Producer(s), pc.rec);
    GenuineAtHead(s.d, Producer(s), pc, pc.rec);
    RemovesOldest(s.d, Producer(s), pc);
  }

  lemma StepGoesOn(s: State, t: nat, c: Choice, op: Op, es: seq<Event>)
    requires Inv(s) && t < |s.pcs| && CanStep(s, t, c) && ToldSoFar(op, es, s.pcs[t])
    ensures GoesOn(op, es, s.d, s.pcs[t], c.ok)
  {
    match op
    case Put(v) => PutGoesOn(v, es, s.d, s.pcs[t], c.ok);
    case Consume(mode) => ConsumeGoesOn(mode, es, s.d, s.pcs[t], c.ok);
    case Erase(rec) =>
      if s.pcs[t].EraseStore? {
        EraseFetchesWhatWasRead(s, t, c);
      }
      EraseGoesOn(rec, es, s.d, s.pcs[t], c.ok);
    case Clear => ClearGoesOn(es, s.d, s.pcs[t], c.ok);
  }

  // ---- Runs ----------------------------------------------------------------------------

  /** The event that an action causes if it is a statement of thread t. */
  ghost function EventBy(s: State, a: Action, t: nat): Event
    requires Enabled(s, a)
  {
    if a.Step? && a.t == t then EventAt(s.d, s.pcs[t], a.c.ok) else Silent
  }

  /** The events that the statements of thread t cause in a run. */
  ghost function EventsOf(s: State, run: seq<Action>, t: nat): seq<Event>
    requires ValidRun(s, run)
    decreases |run|
  {
    if run == [] then [] else Heard(EventBy(s, run[0], t)) + EventsOf(Apply(s, run[0]), run[1..], t)
  }

  /** Thread t is inside one operation during the whole run. */
  ghost predicate Busy(s: State, run: seq<Action>, t: nat)
    requires ValidRun(s, run)
    decreases |run|
  {
    && t < |s.pcs| && !s.pcs[t].Idle?
    && (run == [] || (!run[0].Restart? && Busy(Apply(s, run[0]), run[1..], t)))
  }

  /** What other threads do leaves the story of this one as it is. */
  lemma OthersTellNothing(s: State, a: Action, t: nat, op: Op, es: seq<Event>)
    requires Enabled(s, a) && !a.Restart? && t < |s.pcs| && !s.pcs[t].Idle?
    requires !(a.Step? && a.t == t) && SoFar(op, es, s.pcs[t]) == Right
    ensures t < |Apply(s, a).pcs| && SoFar(op, es, Apply(s, a).pcs[t]) == Right
  {
    var pc' := Apply(s, a).pcs[t];
    assert pc' == s.pcs[t] ||
           (s.pcs[t].Waiting? && pc'.Woken? && pc'.mode == s.pcs[t].mode && (pc'.expired ==> CanExpire(pc'.mode)));
  }

  lemma ActionTells(s: State, a: Action, t: nat, op: Op, es: seq<Event>)
    requires Inv(s) && Enabled(s, a) && !a.Restart? && t < |s.pcs| && !s.pcs[t].Idle?
    requires SoFar(op, es, s.pcs[t]) == Right
    requires t < |Apply(s, a).pcs| && !Apply(s, a).pcs[t].Idle?
    ensures SoFar(op, es + Heard(EventBy(s, a, t)), Apply(s, a).pcs[t]) == Right
  {
    if a.Step? && a.t == t {
      StepGoesOn(s, t, a.c, op, es);
      assert Apply(s, a).pcs[t] == NextPC(s.d, s.pcs[t], a.c.ok);
    } else {
      OthersTellNothing(s, a, t, op, es);
      assert es + [] == es;
    }
  }

  lemma Associate(a: seq<Event>, b: seq<Event>, c: seq<Event>)
    ensures a + (b + c) == (a + b) + c
  {
  }

  lemma {:induction false} BusyTells(s: State, run: seq<Action>, t: nat, op: Op, es: seq<Event>)
    requires Inv(s) && ValidRun(s, run) && Busy(s, run, t) && SoFar(op, es, s.pcs[t]) == Right
    ensures t < |Final(s, run).pcs|
    ensures SoFar(op, es + EventsOf(s, run, t), Final(s, run).pcs[t]) == Right
    decreases |run|
  {
    if run == [] {
      assert es + [] == es;
    } else {
      var s1 := Apply(s, run[0]);
      InvKept(s, run[0]);
      ActionTells(s, run[0], t, op, es);
      BusyTells(s1, run[1..], t, op, es + Heard(EventBy(s, run[0], t)));
      Associate(es, Heard(EventBy(s, run[0], t)), EventsOf(s1, run[1..], t));
    }
  }

  lemma FreshStory(op: Op)
    ensures SoFar(op, [], FirstPC(op)) == Right && !FirstPC(op).Idle?
  {
  }

  lemma LastStatementIsSilent(d: Data, pc: PC, ok: bool)
    requires NextPC(d, pc, ok).Idle? && !pc.Idle?
    ensures EventAt(d, pc, ok) == Silent && ReplyAt(d, pc).Some?
  {
  }

  // ---- Erasing what is gone -----------------------------------------------------------------

  /** While a consumer has removed a message and not yet moved minKey, everything
      that was read before is gone. */
  ghost predicate ReadsPast(d: Data, q: PC) {
    Unbumped(q) == 1 ==> forall r :: r in d.seen ==> r.pos < |d.removed|
  }

  lemma RemovalPasses(d: Data, p: PC, q: PC)
    requires Fits(d, p, q) && Seen(d, p) && Removes(q, true)
    ensures forall r :: r in Effect(d, q, true).seen ==> r.pos < |Effect(d, q, true).removed|
  {
    RemovesOldest(d, p, q);
    forall r | r in d.seen
      ensures r.pos <= |d.removed|
    {
      assert Genuine(d, p, r);
    }
  }

  /** minKey lags behind only after a removal, and others change neither. */
  lemma OnlyRemovalsLag(d: Data, pc: PC, ok: bool)
    requires !Removes(pc, ok)
    ensures HoldsTakeLock(pc) ==> Unbumped(NextPC(d, pc, ok)) == 0
    ensures Effect(d, pc, ok).removed == d.removed
    ensures !HoldsTakeLock(pc) ==> Effect(d, pc, ok).seen == d.seen && Unbumped(NextPC(d, pc, ok)) == 0
  {
  }

  lemma StepKeepsReadsPast(s: State, t: nat, c: Choice)
    requires Inv(s) && t < |s.pcs| && CanStep(s, t, c) && ReadsPast(s.d, Consumer(s))
    ensures ReadsPast(StepThread(s, t, c).d, Consumer(StepThread(s, t, c)))
  {
    var pc := s.pcs[t];
    ConsumerAfter(s, t, c);
    assert Unbumped(Idle) == 0;
    if Removes(pc, c.ok) {
      RemovalPasses(s.d, Producer(s), pc);
    } else {
      OnlyRemovalsLag(s.d, pc, c.ok);
    }
  }

  lemma ReadsPastKept(s: State, a: Action)
    requires Inv(s) && Enabled(s, a) && ReadsPast(s.d, Consumer(s))
    ensures ReadsPast(Apply(s, a).d, Consumer(Apply(s, a)))
  {
    match a
    case Begin(t, op) => assert Consumer(Apply(s, a)) == Consumer(s);
    case Step(t, c) => StepKeepsReadsPast(s, t, c);
    case WakeUp(t, expired) => assert Consumer(Apply(s, a)) == Consumer(s);
    case Restart(_, _, _) => assert Consumer(Apply(s, a)) == Idle && Unbumped(Idle) == 0;
  }

  lemma {:induction false} RunsKeepReadsPast(s: State, run: seq<Action>)
    requires Inv(s) && ValidRun(s, run) && ReadsPast(s.d, Consumer(s))
    ensures ReadsPast(Final(s, run).d, Consumer(Final(s, run)))
    decreases |run|
  {
    if run != [] {
      ReadsPastKept(s, run[0]);
      InvKept(s, run[0]);
      RunsKeepReadsPast(Apply(s, run[0]), run[1..]);
    }
  }

  /** The test an erase makes before locking fails if and only if its message is
      gone, one whose removal is still under way not counted. */
  lemma TestRefusesIffGone(s: State, r: ReadRecord)
    requires Inv(s) && ReadsPast(s.d, Consumer(s)) && r in s.d.seen
    ensures r.key != s.d.minKey <==> r.pos < |s.d.removed| - Unbumped(Consumer(s))
  {
    assert Genuine(s.d, Producer(s), r);
    InvIsShort(s);
    KeyAgainstMinKey(s.d.head, |s.d.removed| - r.pos, Unbumped(Consumer(s)));
  }

  lemma InvIsShort(s: State)
    requires Inv(s)
    ensures s.d.start <= |s.d.removed| < M + s.d.start && s.d.minKey == Add64(s.d.head, -Unbumped(Consumer(s)))
  {
  }

  lemma KeyAgainstMinKey(head: U64, back: int, lag: int)
    requires 0 <= back < M && 0 <= lag <= 1
    ensures Add64(head, -back) == Add64(head, -lag) <==> back == lag
  {
  }

  /** An erase that has replied Unneeded found its message gone. */
  ghost predicate Gone(rec: ReadRecord, d: Data, pc: PC) {
    pc.TakeRelease? ==> pc.r != Refused && (pc.r == Unneeded ==> rec.pos < |d.removed|)
  }

  lemma EraseStepKnows(s: State, t: nat, c: Choice, rec: ReadRecord, es: seq<Event>)
    requires Inv(s) && t < |s.pcs| && CanStep(s, t, c) && EraseTold(rec, es, s.pcs[t]) && Gone(rec, s.d, s.pcs[t])
    ensures Gone(rec, Effect(s.d, s.pcs[t], c.ok), NextPC(s.d, s.pcs[t], c.ok))
  {
    EraseIsExact(s, t, c);
  }

  lemma RemovedGrows(d: Data, pc: PC, ok: bool)
    ensures |d.removed| <= |Effect(d, pc, ok).removed|
  {
  }

  lemma OthersKeepGone(s: State, a: Action, t: nat, rec: ReadRecord)
    requires Enabled(s, a) && !a.Restart? && t < |s.pcs| && !(a.Step? && a.t == t) && Gone(rec, s.d, s.pcs[t])
    ensures t < |Apply(s, a).pcs| && (!s.pcs[t].Idle? ==> Gone(rec, Apply(s, a).d, Apply(s, a).pcs[t]))
  {
    if a.Step? {
      RemovedGrows(s.d, s.pcs[a.t], a.c.ok);
    }
    assert !s.pcs[t].Idle? ==> Apply(s, a).pcs[t] == s.pcs[t] || Apply(s, a).pcs[t].Woken?;
  }

  lemma {:induction false} BusyEraseKnows(s: State, run: seq<Action>, t: nat, rec: ReadRecord, es: seq<Event>)
    requires Inv(s) && ValidRun(s, run) && Busy(s, run, t)
    requires SoFar(Erase(rec), es, s.pcs[t]) == Right && Gone(rec, s.d, s.pcs[t])
    ensures t < |Final(s, run).pcs| && Gone(rec, Final(s, run).d, Final(s, run).pcs[t])
    decreases |run|
  {
    if run != [] {
      var a, s1 := run[0], Apply(s, run[0]);
      assert Busy(s1, run[1..], t) && t < |s1.pcs| && !s1.pcs[t].Idle?;
      InvKept(s, a);
      ActionTells(s, a, t, Erase(rec), es);
      if a.Step? && a.t == t {
        EraseStepKnows(s, t, a.c, rec, es);
        assert s1.pcs[t] == NextPC(s.d, s.pcs[t], a.c.ok);
      } else {
        OthersKeepGone(s, a, t, rec);
      }
      BusyEraseKnows(s1, run[1..], t, rec, es + Heard(EventBy(s, a, t)));
    }
  }

  /** Every completed erase, whatever the other threads do meanwhile: refused or
      unneeded, it came too late, for its message had been removed. */
  lemma LateErase(s: State, t: nat, rec: ReadRecord, run: seq<Action>, c: Choice)
    requires Inv(s) && ReadsPast(s.d, Consumer(s)) && Enabled(s, Begin(t, Erase(rec)))
    requires var s1 := Apply(s, Begin(t, Erase(rec))); ValidRun(s1, run) && Busy(s1, run, t)
    requires var s2 := Final(Apply(s, Begin(t, Erase(rec))), run);
             && t < |s2.pcs| && CanStep(s2, t, c) && NextPC(s2.d, s2.pcs[t], c.ok).Idle?
    ensures var s2 := Final(Apply(s, Begin(t, Erase(rec))), run);
            var r := ReplyAt(s2.d, s2.pcs[t]);
            r == Some(Refused) || r == Some(Unneeded) ==> rec.pos < |s2.d.removed|
  {
    var s1 := Apply(s, Begin(t, Erase(rec)));
    var s2 := Final(s1, run);
    InvKept(s, Begin(t, Erase(rec)));
    ReadsPastKept(s, Begin(t, Erase(rec)));
    RunsKeepInv(s1, run);
    RunsKeepReadsPast(s1, run);
    FreshStory(Erase(rec));
    BusyTells(s1, run, t, Erase(rec), []);
    BusyEraseKnows(s1, run, t, rec, []);
    LateReply(s2, t, rec, [] + EventsOf(s1, run, t));
  }

  lemma LateReply(s: State, t: nat, rec: ReadRecord, es: seq<Event>)
    requires Inv(s) && ReadsPast(s.d, Consumer(s)) && t < |s.pcs|
    requires EraseTold(rec, es, s.pcs[t]) && Gone(rec, s.d, s.pcs[t])
    ensures var r := ReplyAt(s.d, s.pcs[t]); r == Some(Refused) || r == Some(Unneeded) ==> rec.pos < |s.d.removed|
  {
    if s.pcs[t].EraseTest? {
      assert EraseRecord(s.pcs[t]) == Some(rec) && rec in s.d.seen;
      TestRefusesIffGone(s, rec);
    }
  }
}
