/** Every completed operation of every run gives the reply it deserves. */
module KueueAnswers {
  import opened KeyCodec
  import opened QueueStore
  import opened KueueCalls
  import opened KueueThreads
  import opened KueueInvariant
  import opened KueueHistory
  import opened KueueOperations
  import opened KueueWakeUp
  import opened KueueReplies

  /** Whether a thread at pc can have caused the events es and left the marks ms in
      the operation op. */
  ghost function Standing(op: Op, es: seq<Event>, ms: seq<Mark>, pc: PC): Verdict {
    if ToldSoFar(op, es, pc) && Marked(op, es, ms, pc) then Right else Wrong
  }

  /** Whether they deserve the reply r. */
  ghost function AtEnd(op: Op, es: seq<Event>, ms: seq<Mark>, r: Reply): Verdict {
    if Told(op, es, r) && Answered(op, es, ms, r) then Right else Wrong
  }

  ghost function After(op: Op, es: seq<Event>, ms: seq<Mark>, r: Option<Reply>, next: PC): Verdict {
    match r
    case None => Standing(op, es, ms, next)
    case Some(reply) => AtEnd(op, es, ms, reply)
  }

  /** The statement at pc keeps the marks right, or gives the reply they deserve. */
  ghost predicate MarksOn(op: Op, es: seq<Event>, ms: seq<Mark>, d: Data, pc: PC, ok: bool) {
    var es', ms' := es + Heard(EventAt(d, pc, ok)), ms + MarksAt(d, pc, ok);
    match ReplyAt(d, pc)
    case None => Marked(op, es', ms', NextPC(d, pc, ok))
    case Some(r) => Answered(op, es', ms', r)
  }

  lemma StatementMarks(op: Op, es: seq<Event>, ms: seq<Mark>, d: Data, pc: PC, ok: bool)
    requires ToldSoFar(op, es, pc) && Marked(op, es, ms, pc) && !pc.Waiting? && d.count >= 0
    ensures MarksOn(op, es, ms, d, pc, ok)
  {
    match op
    case Put(v) => PutMarksOn(v, es, ms, d, pc, ok);
    case Consume(mode) => ConsumeMarksOn(mode, es, ms, d, pc, ok);
    case Erase(rec) => EraseMarksOn(rec, es, ms, d, pc, ok);
    case Clear => ClearMarksOn(es, ms, d, pc, ok);
  }

  /** A statement of the thread itself. */
  lemma StepAnswers(s: State, t: nat, c: Choice, op: Op, es: seq<Event>, ms: seq<Mark>)
    requires Inv(s) && t < |s.pcs| && CanStep(s, t, c) && Standing(op, es, ms, s.pcs[t]) == Right
    ensures var d, pc := s.d, s.pcs[t];
            After(op, es + Heard(EventAt(d, pc, c.ok)), ms + MarksAt(d, pc, c.ok),
                  ReplyAt(d, pc), NextPC(d, pc, c.ok)) == Right
  {
    CountIsSmall(s);
    StatementMarks(op, es, ms, s.d, s.pcs[t], c.ok);
    StepGoesOn(s, t, c, op, es);
  }

  /** The end of a timeout leaves its mark; a notification wakes without one. */
  lemma ExpiryMarks(mode: Mode, ms: seq<Mark>, expired: bool)
    requires ConsumeMarked(mode, ms, Waiting(mode))
    ensures ConsumeMarked(mode, ms + if expired then [Expired] else [], Woken(mode, expired))
  {
    if expired {
      InVainNext(ms, Expired);
    } else {
      assert ms + [] == ms;
    }
  }

  lemma WakingAnswers(mode: Mode, expired: bool, op: Op, es: seq<Event>, ms: seq<Mark>)
    requires Standing(op, es, ms, Waiting(mode)) == Right && (expired ==> CanExpire(mode))
    ensures Standing(op, es, ms + if expired then [Expired] else [], Woken(mode, expired)) == Right
  {
    ExpiryMarks(mode, ms, expired);
  }

  /** What another action does to a busy thread: nothing, or it wakes it. */
  lemma OtherActions(s: State, a: Action, t: nat)
    requires Enabled(s, a) && !a.Restart? && t < |s.pcs| && !s.pcs[t].Idle? && !(a.Step? && a.t == t)
    requires t < |Apply(s, a).pcs|
    ensures EventBy(s, a, t) == Silent
    ensures var pc, pc' := s.pcs[t], Apply(s, a).pcs[t];
            || (pc' == pc && MarksBy(s, a, t) == [])
            || (pc.Waiting? && pc'.Woken? && pc' == Woken(pc.mode, pc'.expired)
                && (pc'.expired ==> CanExpire(pc.mode))
                && MarksBy(s, a, t) == if pc'.expired then [Expired] else [])
  {
  }

  lemma ActionAnswers(s: State, a: Action, t: nat, op: Op, es: seq<Event>, ms: seq<Mark>)
    requires Inv(s) && Enabled(s, a) && !a.Restart? && t < |s.pcs| && !s.pcs[t].Idle?
    requires Standing(op, es, ms, s.pcs[t]) == Right
    requires t < |Apply(s, a).pcs| && !Apply(s, a).pcs[t].Idle?
    ensures Standing(op, es + Heard(EventBy(s, a, t)), ms + MarksBy(s, a, t), Apply(s, a).pcs[t]) == Right
  {
    if a.Step? && a.t == t {
      StepAnswers(s, t, a.c, op, es, ms);
      assert Apply(s, a).pcs[t] == NextPC(s.d, s.pcs[t], a.c.ok);
      RepliesEnd(s.d, s.pcs[t], a.c.ok);
    } else {
      OtherActions(s, a, t);
      assert es + [] == es && ms + [] == ms;
      var pc, pc' := s.pcs[t], Apply(s, a).pcs[t];
      if pc' != pc {
        WakingAnswers(pc.mode, pc'.expired, op, es, ms);
      }
    }
  }

  /** A reply is given with the last statement. */
  lemma RepliesEnd(d: Data, pc: PC, ok: bool)
    requires !pc.Idle?
    ensures ReplyAt(d, pc).Some? <==> NextPC(d, pc, ok).Idle?
    ensures ReplyAt(d, pc).Some? ==> MarksAt(d, pc, ok) == [] && EventAt(d, pc, ok) == Silent
  {
  }

  lemma AssociateMarks(a: seq<Mark>, b: seq<Mark>, c: seq<Mark>)
    ensures a + (b + c) == (a + b) + c
  {
  }

  lemma {:induction false} BusyAnswers(s: State, run: seq<Action>, t: nat, op: Op, es: seq<Event>, ms: seq<Mark>)
    requires Inv(s) && ValidRun(s, run) && Busy(s, run, t) && Standing(op, es, ms, s.pcs[t]) == Right
    ensures t < |Final(s, run).pcs|
    ensures Standing(op, es + EventsOf(s, run, t), ms + MarksOf(s, run, t), Final(s, run).pcs[t]) == Right
    decreases |run|
  {
    if run == [] {
      assert es + [] == es && ms + [] == ms;
    } else {
      var a, s1 := run[0], Apply(s, run[0]);
      assert Busy(s1, run[1..], t) && t < |s1.pcs| && !s1.pcs[t].Idle?;
      InvKept(s, a);
      ActionAnswers(s, a, t, op, es, ms);
      BusyAnswers(s1, run[1..], t, op, es + Heard(EventBy(s, a, t)), ms + MarksBy(s, a, t));
      Associate(es, Heard(EventBy(s, a, t)), EventsOf(s1, run[1..], t));
      AssociateMarks(ms, MarksBy(s, a, t), MarksOf(s1, run[1..], t));
    }
  }

  lemma FreshAnswers(op: Op)
    ensures Standing(op, [], [], FirstPC(op)) == Right && !FirstPC(op).Idle?
  {
  }

  /** Thread t calls op in s, is busy with it during the run, and returns with the
      next statement. */
  ghost predicate Completes(s: State, t: nat, op: Op, run: seq<Action>, c: Choice) {
    && Inv(s) && Enabled(s, Begin(t, op))
    && var s1 := Apply(s, Begin(t, op));
       && ValidRun(s1, run) && Busy(s1, run, t)
       && var s2 := Final(s1, run);
          t < |s2.pcs| && CanStep(s2, t, c) && NextPC(s2.d, s2.pcs[t], c.ok).Idle?
  }

  lemma OperationEnds(s: State, t: nat, op: Op, run: seq<Action>, c: Choice)
    requires Completes(s, t, op, run, c)
    ensures var s1 := Apply(s, Begin(t, op));
            var s2 := Final(s1, run);
            var r := ReplyAt(s2.d, s2.pcs[t]);
            r.Some? && AtEnd(op, EventsOf(s1, run, t), MarksOf(s1, run, t), r.value) == Right
  {
    var s1 := Apply(s, Begin(t, op));
    var s2 := Final(s1, run);
    var es, ms := EventsOf(s1, run, t), MarksOf(s1, run, t);
    InvKept(s, Begin(t, op));
    FreshAnswers(op);
    BusyAnswers(s1, run, t, op, [], []);
    assert [] + es == es && [] + ms == ms && es + [] == es && ms + [] == ms;
    RunsKeepInv(s1, run);
    StepAnswers(s2, t, c, op, es, ms);
    RepliesEnd(s2.d, s2.pcs[t], c.ok);
  }

  /** Every completed operation, whatever the other threads do meanwhile: its reply
      is the one that its own tests, store calls and wake-ups since the call
      deserve, and its events are those the reply announces. */
  lemma OperationAnswers(s: State, t: nat, op: Op, run: seq<Action>, c: Choice)
    requires Completes(s, t, op, run, c)
    ensures var s1 := Apply(s, Begin(t, op));
            var s2 := Final(s1, run);
            var r := ReplyAt(s2.d, s2.pcs[t]);
            && r.Some?
            && Told(op, EventsOf(s1, run, t), r.value)
            && Answered(op, EventsOf(s1, run, t), MarksOf(s1, run, t), r.value)
  {
    OperationEnds(s, t, op, run, c);
  }

  // ---- In particular -----------------------------------------------------------------------------

  /** The replies follow from the store calls that thread t makes between call and
      return: a put makes one and fails if and only if it does; an erase makes at
      most one and fails if and only if it does; a take or readNext makes one unless
      it times out, and fails if and only if it does; clear fails if and only if one
      of its calls does, and that one is the last. */
  lemma CallsDecide(s: State, t: nat, op: Op, run: seq<Action>, c: Choice)
    requires Completes(s, t, op, run, c)
    ensures var s1 := Apply(s, Begin(t, op));
            var s2, calls := Final(s1, run), Calls(MarksOf(s1, run, t));
            var reply := ReplyAt(s2.d, s2.pcs[t]);
            && reply.Some?
            && var r := reply.value;
               match op
               case Put(_) => calls == [r == Accepted] && (r == Failed || r == Accepted)
               case Erase(_) => calls == if r == Failed then [false] else if r.Removed? then [true] else []
               case Consume(mode) =>
                 && calls == (if r == TimedOut then [] else [r != Failed])
                 && (r == TimedOut ==> mode == TimedTake(true) || mode == Reading(true))
               case Clear =>
                 && (r == Failed || r == Cleared)
                 && exists k :: calls == if r == Failed then Oks(k) + [false] else Oks(k)
  {
    OperationAnswers(s, t, op, run, c);
    var s1 := Apply(s, Begin(t, op));
    var s2, es, ms := Final(s1, run), EventsOf(s1, run, t), MarksOf(s1, run, t);
    var r := ReplyAt(s2.d, s2.pcs[t]).value;
    match op
    case Put(_) => PutCalls(ms, r);
    case Erase(_) => EraseCalls(ms, r);
    case Consume(mode) => ConsumeCalls(mode, ms, r);
    case Clear =>
      ClearCalls(es, ms, r);
      assert Calls(ms) == if r == Failed then Oks(|es|) + [false] else Oks(|es| - 1);
  }

  /** So a clear whose store calls are all Ok replies Cleared. */
  lemma ClearSucceeds(s: State, t: nat, run: seq<Action>, c: Choice)
    requires Completes(s, t, Clear, run, c)
    ensures var s1 := Apply(s, Begin(t, Clear));
            var s2 := Final(s1, run);
            (ReplyAt(s2.d, s2.pcs[t]) == Some(Failed) <==> false in Calls(MarksOf(s1, run, t)))
            && (ReplyAt(s2.d, s2.pcs[t]) == Some(Cleared) <==> false !in Calls(MarksOf(s1, run, t)))
  {
    CallsDecide(s, t, Clear, run, c);
  }

  /** Any waiting call can wake for no reason, and exactly one that was given a
      positive timeout can wake because it ended. */
  lemma ExpiryIffTimed(s: State, t: nat)
    requires t < |s.pcs| && s.pcs[t].Waiting?
    ensures Enabled(s, WakeUp(t, false))
    ensures Enabled(s, WakeUp(t, true)) <==> s.pcs[t].mode == TimedTake(true) || s.pcs[t].mode == Reading(true)
  {
  }

  /** It then takes the lock, tests the count and, if the queue is empty, replies
      TimedOut; if not, it goes on to its store call. */
  lemma TimeoutIsReported(s: State, t: nat, c: Choice)
    requires t < |s.pcs| && CanStep(s, t, c)
    ensures forall mode :: s.pcs[t] == Woken(mode, true) ==> StepThread(s, t, c).pcs[t] == TakeCheck(mode, true)
    ensures forall b :: s.pcs[t] == TakeCheck(TimedTake(b), true) ==>
              StepThread(s, t, c).pcs[t] == if s.d.count <= 0 then TakeRelease(TimedOut) else TakeStore(TimedTake(b))
    ensures forall b :: s.pcs[t] == TakeCheck(Reading(b), true) ==>
              StepThread(s, t, c).pcs[t] == if s.d.count <= 0 then TakeRelease(TimedOut) else ReadStore(Reading(b))
  {
  }
}
