/** The two views of the queue meet: whenever no thread is inside a critical
    section, the shared data are those of a valid queue object, and an operation
    that one thread executes alone changes them as the object's method does. */
module KueueLevels {
  import opened KeyCodec
  import opened QueueStore
  import opened KueueCalls
  import opened StoredKeys
  import opened KueueThreads
  import opened KueueInvariant
  import opened KueueHistory
  import opened KueueOperations
  import opened KueueReplies
  import opened KueueAnswers
  import opened StoreDiscipline
  import Kueue

  // ---- States ---------------------------------------------------------------------

  ghost predicate Quiescent(s: State) {
    Inv(s) && s.putLock.None? && s.takeLock.None?
  }

  /** What holds of the data when no thread is inside a section. */
  ghost predicate Calm(d: Data) {
    && Holds(d.store, d.head, Live(d)) && |Live(d)| < HALF
    && d.minKey == d.head && d.maxKey == Add64(d.head, |Live(d)|) && d.count == |Live(d)|
    && d.totalPuts == |d.log| - d.start - d.recovered && d.totalTakes == |d.removed| - d.start
    && |d.removed| <= |d.log|
  }

  lemma FitsIsCalm(d: Data)
    requires Fits(d, Idle, Idle) && Totals(d, Idle, Idle)
    ensures Calm(d) && Counted(d, Idle, Idle) == Live(d)
  {
    assert Bumped(Idle) == Uncounted(Idle) == Unbumped(Idle) == Undone(Idle) == 0;
  }

  lemma QuiescentIsCalm(s: State)
    requires Quiescent(s)
    ensures Calm(s.d) && Queue(s) == Live(s.d)
  {
    assert Producer(s) == Consumer(s) == Idle;
    FitsIsCalm(s.d);
  }

  /** Only one store holds a given queue. */
  lemma HoldsDeterminesStore(a: Store, b: Store, head: U64, vals: seq<Bytes>)
    requires Holds(a, head, vals) && Holds(b, head, vals)
    ensures a == b
  {
    assert forall k: U64 :: k in a <==> k in b;
    assert forall k: U64 :: k in a ==> a[k] == b[k];
  }

  /** The numeric store is the family of byte keys, decoded. */
  lemma CalmView(d: Data)
    requires Calm(d)
    ensures View(Kueue.Encoded(d.head, Live(d))) == d.store
  {
    Kueue.EncodedStores(d.head, Live(d));
    HoldsDeterminesStore(View(Kueue.Encoded(d.head, Live(d))), d.store, d.head, Live(d));
  }

  lemma CalmImage(d: Data)
    requires Calm(d)
    ensures Kueue.Image(Kueue.Encoded(d.head, Live(d)), d.minKey, d.maxKey, d.count, Live(d))
  {
  }

  /** The numeric store of the threads is the family of byte keys that the queue
      object describes, with its indices and its count. */
  lemma QuiescentIsValid(s: State)
    requires Quiescent(s)
    ensures var f := Kueue.Encoded(s.d.head, Live(s.d));
            && View(f) == s.d.store
            && Kueue.Image(f, s.d.minKey, s.d.maxKey, s.d.count, Live(s.d))
  {
    QuiescentIsCalm(s);
    CalmView(s.d);
    CalmImage(s.d);
  }

  /** The fields of the object. */
  function SnapOf(d: Data): Snapshot {
    Snapshot(d.minKey, d.maxKey, d.count, d.totalPuts, d.totalTakes, Live(d))
  }

  // ---- Messages counted out ----------------------------------------------------------

  /** The number of messages ever counted out. */
  function Out(d: Data, q: PC): int {
    |d.removed| - Undone(q)
  }

  lemma ConsumerMoves(d: Data, p: PC, q: PC, ok: bool)
    requires Fits(d, p, q) && HoldsTakeLock(q)
    ensures Out(Effect(d, q, ok), NextPC(d, q, ok)) == Out(d, q) + One(EventAt(d, q, ok).Dequeue?)
  {
    if Removes(q, ok) {
      RemovesOldest(d, p, q);
      EffectOfRemoval(d, q);
      assert Undone(q) == 0 && EventAt(d, q, ok) == Silent;
    } else if q.RemoveCount? || q.ClearCount? {
      assert Undone(q) == 1 && Undone(NextPC(d, q, ok)) == 0 && Effect(d, q, ok).removed == d.removed;
    } else if q.ReadStore? && ok {
      assert Undone(q) == 0 && Undone(NextPC(d, q, ok)) == 0 && Effect(d, q, ok).removed == d.removed;
    } else {
      QuietControl(d, q, ok);
    }
  }

  lemma ProducerMovesNothing(d: Data, pc: PC, ok: bool)
    requires !HoldsTakeLock(pc)
    ensures Effect(d, pc, ok).removed == d.removed && !EventAt(d, pc, ok).Dequeue?
  {
  }

  lemma StepMoves(s: State, t: nat, c: Choice)
    requires Inv(s) && t < |s.pcs| && CanStep(s, t, c)
    ensures var s' := StepThread(s, t, c);
            Out(s'.d, Consumer(s')) == Out(s.d, Consumer(s)) + One(EventAt(s.d, s.pcs[t], c.ok).Dequeue?)
  {
    var pc := s.pcs[t];
    var next := NextPC(s.d, pc, c.ok);
    ConsumerAfter(s, t, c);
    if HoldsTakeLock(pc) {
      ConsumerMoves(s.d, Producer(s), pc, c.ok);
      Leaving(s.d, pc, c.ok);
      assert !HoldsTakeLock(next) ==> Undone(next) == Undone(Idle) == 0;
    } else {
      ProducerMovesNothing(s.d, pc, c.ok);
      assert HoldsTakeLock(next) ==> Undone(next) == Undone(Idle) == 0;
    }
  }

  function Dequeues(es: seq<Event>): nat {
    if es == [] then 0 else One(es[0].Dequeue?) + Dequeues(es[1..])
  }

  lemma {:induction false} DequeuesAppend(es: seq<Event>, fs: seq<Event>)
    ensures Dequeues(es + fs) == Dequeues(es) + Dequeues(fs)
  {
    if es == [] {
      assert es + fs == fs;
    } else {
      DequeuesAppend(es[1..], fs);
      assert (es + fs)[1..] == es[1..] + fs;
    }
  }

  // ---- One thread alone -----------------------------------------------------------------

  predicate ActsAlone(a: Action, t: nat) {
    (a.Step? || a.WakeUp?) && a.t == t
  }

  /** Thread t is busy with one operation, and no other thread acts. */
  ghost predicate Alone(s: State, run: seq<Action>, t: nat)
    requires ValidRun(s, run)
  {
    Busy(s, run, t) && forall i :: 0 <= i < |run| ==> ActsAlone(run[i], t)
  }

  /** No thread but t is inside a section. */
  ghost predicate OthersOutside(s: State, t: nat) {
    forall u :: 0 <= u < |s.pcs| && u != t ==> !HoldsPutLock(s.pcs[u]) && !HoldsTakeLock(s.pcs[u])
  }

  lemma AloneStaysOutside(s: State, a: Action, t: nat)
    requires Enabled(s, a) && ActsAlone(a, t) && OthersOutside(s, t)
    ensures OthersOutside(Apply(s, a), t) && |Apply(s, a).pcs| == |s.pcs|
  {
  }

  /** Only the tallies and the messages matter; the rest of the past stays. */
  lemma SessionKept(s: State, a: Action)
    requires Enabled(s, a) && !a.Restart?
    ensures Apply(s, a).d.start == s.d.start && Apply(s, a).d.recovered == s.d.recovered
  {
  }

  lemma HeardIsLegal(q: seq<Bytes>, e: Event, next: seq<Bytes>, es: seq<Event>, q': seq<Bytes>)
    requires Allowed(q, e, next) && Legal(next, es, q')
    ensures Legal(q, Heard(e) + es, q')
  {
    if e == Silent {
      assert Heard(e) + es == es;
    } else {
      assert (Heard(e) + es)[1..] == es;
    }
  }

  /** From s to s', by the events es alone. */
  ghost predicate Moved(s: State, es: seq<Event>, s': State) {
    && Legal(Queue(s), es, Queue(s'))
    && Out(s'.d, Consumer(s')) == Out(s.d, Consumer(s)) + Dequeues(es)
    && s'.d.start == s.d.start && s'.d.recovered == s.d.recovered
  }

  lemma ActionMoved(s: State, a: Action, t: nat, es: seq<Event>, s': State)
    requires Inv(s) && Enabled(s, a) && ActsAlone(a, t) && Moved(Apply(s, a), es, s')
    ensures Moved(s, Heard(EventBy(s, a, t)) + es, s')
  {
    var e, s1 := EventBy(s, a, t), Apply(s, a);
    ActionLinearizes(s, a);
    HeardIsLegal(Queue(s), e, Queue(s1), es, Queue(s'));
    SessionKept(s, a);
    DequeuesAppend(Heard(e), es);
    assert Dequeues([]) == 0 && Heard(e)[|Heard(e)|..] == [];
    if a.Step? {
      StepMoves(s, t, a.c);
    } else {
      assert Consumer(s1) == Consumer(s);
    }
  }

  lemma {:induction false} AloneMoves(s: State, run: seq<Action>, t: nat)
    requires Inv(s) && ValidRun(s, run) && Alone(s, run, t) && OthersOutside(s, t)
    ensures Moved(s, EventsOf(s, run, t), Final(s, run))
    ensures OthersOutside(Final(s, run), t) && |Final(s, run).pcs| == |s.pcs|
    decreases |run|
  {
    if run != [] {
      var s1 := Apply(s, run[0]);
      InvKept(s, run[0]);
      AloneStaysOutside(s, run[0], t);
      AloneMoves(s1, run[1..], t);
      ActionMoved(s, run[0], t, EventsOf(s1, run[1..], t), Final(s, run));
    }
  }

  // ---- What the events mean -----------------------------------------------------------------

  lemma NothingHappened(q: seq<Bytes>, es: seq<Event>, q': seq<Bytes>)
    requires Legal(q, es, q') && es == []
    ensures q' == q && Dequeues(es) == 0
  {
  }

  lemma OneEvent(q: seq<Bytes>, e: Event, q': seq<Bytes>)
    requires Legal(q, [e], q')
    ensures Allowed(q, e, q') && Dequeues([e]) == One(e.Dequeue?)
  {
    var next :| Allowed(q, [e][0], next) && Legal(next, [e][1..], q');
    assert [e][1..] == [] && Dequeues([]) == 0;
  }

  lemma {:induction false} EmptiesChangeNothing(q: seq<Bytes>, es: seq<Event>, q': seq<Bytes>)
    requires Legal(q, es, q') && AllFoundEmpty(es)
    ensures q' == q && Dequeues(es) == 0
    decreases |es|
  {
    if es != [] {
      var next :| Allowed(q, es[0], next) && Legal(next, es[1..], q');
      EmptiesChangeNothing(next, es[1..], q');
    }
  }

  /** Events before the last that change nothing leave its meaning alone. */
  lemma {:induction false} LastEventCounts(q: seq<Bytes>, es: seq<Event>, e: Event, q': seq<Bytes>)
    requires Legal(q, es, q') && EmptyThen(es, e)
    ensures Allowed(q, e, q') && Dequeues(es) == One(e.Dequeue?)
    decreases |es|
  {
    if |es| == 1 {
      assert es == [e];
      OneEvent(q, e, q');
    } else {
      var next :| Allowed(q, es[0], next) && Legal(next, es[1..], q');
      assert es[0] == es[..|es| - 1][0];
      assert es[1..][..|es| - 2] == es[..|es| - 1][1..];
      LastEventCounts(next, es[1..], e, q');
    }
  }

  lemma {:induction false} DequeuesTakeAway(q: seq<Bytes>, es: seq<Event>, q': seq<Bytes>)
    requires Legal(q, es, q') && AllDequeue(es)
    ensures |es| <= |q| && q' == q[|es|..] && Dequeues(es) == |es|
    decreases |es|
  {
    if es != [] {
      var next :| Allowed(q, es[0], next) && Legal(next, es[1..], q');
      DequeuesTakeAway(next, es[1..], q');
    }
  }

  lemma {:induction false} DequeuesTakeAll(q: seq<Bytes>, es: seq<Event>, q': seq<Bytes>)
    requires Legal(q, es, q') && DequeuesThen(es, FoundEmpty)
    ensures q' == [] && Dequeues(es) == |q|
    decreases |es|
  {
    if |es| == 1 {
      assert es == [FoundEmpty];
      OneEvent(q, FoundEmpty, q');
    } else {
      var next :| Allowed(q, es[0], next) && Legal(next, es[1..], q');
      assert es[0] == es[..|es| - 1][0];
      assert es[1..][..|es| - 2] == es[..|es| - 1][1..];
      DequeuesTakeAll(next, es[1..], q');
    }
  }

  /** The messages before and after, by what was told. */
  ghost predicate Meant(op: Op, r: Reply, q: seq<Bytes>, q': seq<Bytes>, taken: int) {
    match op
    case Put(v) => taken == 0 && q' == if r == Accepted then q + [v] else q
    case Consume(mode) =>
      if r.Removed? then q != [] && r.v == q[0] && q' == q[1..] && taken == 1
      else q' == q && taken == 0 && (r.Shown? ==> q != [] && r.v == q[0]) && (r.TimedOut? ==> q == [])
    case Erase(rec) =>
      if r.Removed? then q != [] && r.v == rec.value == q[0] && q' == q[1..] && taken == 1
      else q' == q && taken == 0
    case Clear => 0 <= taken <= |q| && q' == q[taken..] && (r == Cleared ==> q' == [])
  }

  lemma ToldIsMeant(op: Op, es: seq<Event>, r: Reply, q: seq<Bytes>, q': seq<Bytes>)
    requires Told(op, es, r) && Legal(q, es, q')
    ensures Meant(op, r, q, q', Dequeues(es))
  {
    if es == [] {
      NothingHappened(q, es, q');
    }
    match op
    case Put(v) =>
      if r == Accepted {
        OneEvent(q, Enqueue(v), q');
      }
    case Consume(mode) =>
      match r {
        case Removed(v) => LastEventCounts(q, es, Dequeue(v), q');
        case Shown(key, v) => LastEventCounts(q, es, Peek(key, v), q');
        case TimedOut => LastEventCounts(q, es, FoundEmpty, q');
        case _ => EmptiesChangeNothing(q, es, q');
      }
    case Erase(rec) =>
      if r.Removed? {
        OneEvent(q, Dequeue(r.v), q');
      }
    case Clear =>
      if r == Cleared {
        DequeuesTakeAll(q, es, q');
      } else {
        DequeuesTakeAway(q, es, q');
      }
  }

  // ---- What a thread alone knows -------------------------------------------------------------

  /** While no one else acts, the smallest key is still the one the thread met. */
  predicate Knowing(op: Op, k: U64, d: Data, pc: PC) {
    match op
    case Put(_) => true
    case Consume(mode) => mode.Reading? ==> d.minKey == k && (pc.TakeRelease? && pc.r.Shown? ==> pc.r.key == k)
    case Erase(rec) =>
      && (EraseRecord(pc).Some? ==> d.minKey == k)
      && (!pc.EraseTest? ==> rec.key == k)
      && (pc.TakeRelease? ==> pc.r != Unneeded && pc.r != Refused)
    case Clear => true
  }

  lemma StepKnows(op: Op, es: seq<Event>, k: U64, d: Data, pc: PC, ok: bool)
    requires ToldSoFar(op, es, pc) && Knowing(op, k, d, pc) && !NextPC(d, pc, ok).Idle?
    ensures Knowing(op, k, Effect(d, pc, ok), NextPC(d, pc, ok))
  {
    match op
    case Put(_) =>
    case Consume(mode) =>
    case Erase(rec) =>
    case Clear =>
  }

  lemma {:induction false} AloneKnows(s: State, run: seq<Action>, t: nat, op: Op, es: seq<Event>, k: U64)
    requires Inv(s) && ValidRun(s, run) && Alone(s, run, t)
    requires SoFar(op, es, s.pcs[t]) == Right && Knowing(op, k, s.d, s.pcs[t])
    ensures t < |Final(s, run).pcs| && Knowing(op, k, Final(s, run).d, Final(s, run).pcs[t])
    decreases |run|
  {
    if run != [] {
      var a, s1 := run[0], Apply(s, run[0]);
      assert Busy(s1, run[1..], t) && t < |s1.pcs| && !s1.pcs[t].Idle?;
      assert Alone(s1, run[1..], t) && ActsAlone(a, t);
      InvKept(s, a);
      ActionTells(s, a, t, op, es);
      if a.Step? {
        StepKnows(op, es, k, s.d, s.pcs[t], a.c.ok);
      }
      AloneKnows(s1, run[1..], t, op, es + Heard(EventBy(s, a, t)), k);
    }
  }

  // ---- Operations -------------------------------------------------------------------------------

  /** The object before and after an operation that replies r, by the predicates
      that the contracts of KueueImpl's methods use. */
  ghost predicate Performs(op: Op, r: Reply, n: Snapshot, n': Snapshot) {
    match op
    case Put(v) => Puts(v, r, n, n')
    case Consume(mode) => Consumes(r, n, n')
    case Erase(rec) => Erases(rec.key, r, n, n') && (r.Removed? ==> r.v == rec.value)
    case Clear => Clears(|n.contents| - |n'.contents|, r, n, n')
  }

  /** From one calm state to another, k messages were removed. */
  ghost predicate Sequel(d: Data, d': Data, k: nat) {
    && Calm(d) && Calm(d') && d'.start == d.start && d'.recovered == d.recovered
    && |d'.removed| == |d.removed| + k && d'.head == Add64(d.head, k)
  }

  /** The numbers follow the messages. */
  lemma SnapFollows(d: Data, d': Data, k: nat)
    requires Sequel(d, d', k)
    ensures k <= |Live(d)| && Live(d') == Live(d)[k..] ==> SnapOf(d') == Without(SnapOf(d), k)
    ensures forall v :: k == 0 && Live(d') == Live(d) + [v] ==> SnapOf(d') == With(SnapOf(d), v)
  {
    AddAdd(d.head, |Live(d)|, 1);
    AddAdd(d.head, k, |Live(d)| - k);
  }

  lemma MeantIsPerformed(op: Op, r: Reply, d: Data, d': Data, k: nat)
    requires Sequel(d, d', k)
    requires Meant(op, r, Live(d), Live(d'), k)
    requires op.Consume? && r.Shown? ==> r.key == d.minKey
    requires op.Erase? ==> (r == Refused <==> op.r.key != d.minKey) && r != Unneeded
    ensures Performs(op, r, SnapOf(d), SnapOf(d'))
  {
    SnapFollows(d, d', k);
    assert Live(d)[0..] == Live(d) && Without(SnapOf(d), 0) == SnapOf(d);
  }

  /** Returning changes no data. */
  lemma ReturnIsQuiet(d: Data, pc: PC, ok: bool)
    requires NextPC(d, pc, ok).Idle?
    ensures Effect(d, pc, ok) == d && !Notifies(pc)
  {
  }

  lemma AllOutside(s: State, t: nat)
    requires Inv(s) && OthersOutside(s, t) && t < |s.pcs| && s.pcs[t].Idle?
    ensures Quiescent(s)
  {
  }

  /** The last statement: the thread is idle again, and so the queue quiescent. */
  lemma ReturnIsQuiescent(s: State, t: nat, c: Choice)
    requires Inv(s) && t < |s.pcs| && CanStep(s, t, c) && NextPC(s.d, s.pcs[t], c.ok).Idle? && OthersOutside(s, t)
    ensures var s' := StepThread(s, t, c);
            && Quiescent(s') && s'.d == s.d && Queue(s') == Queue(s)
            && Out(s.d, Consumer(s)) == |s.d.removed|
  {
    var s' := StepThread(s, t, c);
    ReturnIsQuiet(s.d, s.pcs[t], c.ok);
    LastStatementIsSilent(s.d, s.pcs[t], c.ok);
    InvKept(s, Step(t, c));
    AllOutside(s', t);
    StepLinearizes(s, t, c);
    StepMoves(s, t, c);
    assert Consumer(s') == Idle && Undone(Idle) == 0;
  }

  lemma BeginIsQuiet(s: State, t: nat, op: Op)
    requires Quiescent(s) && Enabled(s, Begin(t, op))
    ensures var s1 := Apply(s, Begin(t, op));
            && s1.d == s.d && Queue(s1) == Queue(s) && OthersOutside(s1, t)
            && Out(s1.d, Consumer(s1)) == |s.d.removed|
  {
    assert Undone(Idle) == 0;
  }

  /** The replies of an erase or a readNext that is alone fit the smallest key. */
  lemma AloneRepliesKey(op: Op, es: seq<Event>, k: U64, d: Data, pc: PC, ok: bool)
    requires ToldSoFar(op, es, pc) && Knowing(op, k, d, pc) && NextPC(d, pc, ok).Idle? && ReplyAt(d, pc).Some?
    ensures var r := ReplyAt(d, pc).value;
            && (op.Consume? && r.Shown? ==> r.key == k)
            && (op.Erase? ==> (r == Refused <==> op.r.key != k) && r != Unneeded)
  {
  }

  /** The data before and after an operation that one thread executes alone. */
  lemma AloneLeads(s: State, t: nat, op: Op, run: seq<Action>, c: Choice)
    requires Quiescent(s) && Completes(s, t, op, run, c) && Alone(Apply(s, Begin(t, op)), run, t)
    ensures var s1 := Apply(s, Begin(t, op));
            var s2, es := Final(s1, run), EventsOf(s1, run, t);
            && Quiescent(StepThread(s2, t, c)) && StepThread(s2, t, c).d == s2.d
            && Sequel(s.d, s2.d, Dequeues(es)) && Legal(Live(s.d), es, Live(s2.d))
  {
    var s1 := Apply(s, Begin(t, op));
    var s2 := Final(s1, run);
    InvKept(s, Begin(t, op));
    RunsKeepInv(s1, run);
    BeginIsQuiet(s, t, op);
    AloneMoves(s1, run, t);
    ReturnIsQuiescent(s2, t, c);
    RemovalsAreInOrder(s1, run);
    QuiescentIsCalm(s);
    QuiescentIsCalm(StepThread(s2, t, c));
  }

  /** k Ok calls, and a failing one if and only if the reply is Failed. */
  predicate ClearMade(calls: seq<bool>, k: int, r: Reply) {
    k >= 0 && calls == Oks(k) + if r == Failed then [false] else []
  }

  /** The number of messages a clear removes is that of its Ok store calls. */
  lemma ClearRemoves(es: seq<Event>, ms: seq<Mark>, r: Reply)
    requires Told(Clear, es, r) && ClearAnswered(es, ms, r)
    ensures ClearMade(Calls(ms), Dequeues(es), r)
  {
    ClearCalls(es, ms, r);
    if r == Cleared {
      DequeuesOf(es[..|es| - 1]);
      DequeuesAppend(es[..|es| - 1], [FoundEmpty]);
      assert es == es[..|es| - 1] + [FoundEmpty] && [FoundEmpty][1..] == [];
      assert Dequeues([FoundEmpty]) == 0;
      assert Oks(Dequeues(es)) + [] == Oks(Dequeues(es));
    } else {
      DequeuesOf(es);
    }
  }

  lemma {:induction false} DequeuesOf(es: seq<Event>)
    requires AllDequeue(es)
    ensures Dequeues(es) == |es|
  {
    if es != [] {
      DequeuesOf(es[1..]);
    }
  }

  lemma AnsweredIsPerformed(op: Op, es: seq<Event>, ms: seq<Mark>, r: Reply, d: Data, d': Data)
    requires Sequel(d, d', Dequeues(es)) && Legal(Live(d), es, Live(d'))
    requires AtEnd(op, es, ms, r) == Right
    requires op.Consume? && r.Shown? ==> r.key == d.minKey
    requires op.Erase? ==> (r == Refused <==> op.r.key != d.minKey) && r != Unneeded
    ensures Performs(op, r, SnapOf(d), SnapOf(d'))
    ensures op.Clear? ==> ClearMade(Calls(ms), |d'.removed| - |d.removed|, r)
  {
    ToldIsMeant(op, es, r, Live(d), Live(d'));
    MeantIsPerformed(op, r, d, d', Dequeues(es));
    if op.Clear? {
      ClearRemoves(es, ms, r);
    }
  }

  /** An operation that one thread executes alone, from one quiescent state to the
      next, does what the method of the queue object does. A clear removes a message
      for each of its Ok store calls, and stops at the first that is not. */
  lemma OperationAlone(s: State, t: nat, op: Op, run: seq<Action>, c: Choice)
    requires Quiescent(s) && Completes(s, t, op, run, c) && Alone(Apply(s, Begin(t, op)), run, t)
    ensures var s1 := Apply(s, Begin(t, op));
            var s2, ms := Final(s1, run), MarksOf(s1, run, t);
            var s3, r := StepThread(s2, t, c), ReplyAt(s2.d, s2.pcs[t]);
            && Quiescent(s3) && r.Some?
            && Performs(op, r.value, SnapOf(s.d), SnapOf(s3.d))
            && (op.Clear? ==> ClearMade(Calls(ms), |s3.d.removed| - |s.d.removed|, r.value))
  {
    var s1 := Apply(s, Begin(t, op));
    var s2 := Final(s1, run);
    var es, ms := EventsOf(s1, run, t), MarksOf(s1, run, t);
    OperationEnds(s, t, op, run, c);
    AloneLeads(s, t, op, run, c);
    OperationKnows(s, t, op, run, c);
    AnsweredIsPerformed(op, es, ms, ReplyAt(s2.d, s2.pcs[t]).value, s.d, s2.d);
  }

  lemma OperationKnows(s: State, t: nat, op: Op, run: seq<Action>, c: Choice)
    requires Completes(s, t, op, run, c) && Alone(Apply(s, Begin(t, op)), run, t)
    ensures var s2 := Final(Apply(s, Begin(t, op)), run);
            var reply := ReplyAt(s2.d, s2.pcs[t]);
            && reply.Some?
            && var r := reply.value;
               && (op.Consume? && r.Shown? ==> r.key == s.d.minKey)
               && (op.Erase? ==> (r == Refused <==> op.r.key != s.d.minKey) && r != Unneeded)
  {
    var s1 := Apply(s, Begin(t, op));
    var s2 := Final(s1, run);
    InvKept(s, Begin(t, op));
    RepliesEnd(s2.d, s2.pcs[t], c.ok);
    AloneReplies(s1, run, t, op, s.d.minKey, c);
  }

  lemma AloneReplies(s: State, run: seq<Action>, t: nat, op: Op, k: U64, c: Choice)
    requires Inv(s) && ValidRun(s, run) && Alone(s, run, t) && s.pcs[t] == FirstPC(op) && s.d.minKey == k
    requires var s2 := Final(s, run);
             && t < |s2.pcs| && NextPC(s2.d, s2.pcs[t], c.ok).Idle? && ReplyAt(s2.d, s2.pcs[t]).Some?
    ensures var s2 := Final(s, run);
            var r := ReplyAt(s2.d, s2.pcs[t]).value;
            && (op.Consume? && r.Shown? ==> r.key == k)
            && (op.Erase? ==> (r == Refused <==> op.r.key != k) && r != Unneeded)
  {
    var s2 := Final(s, run);
    FreshStory(op);
    BusyTells(s, run, t, op, []);
    AloneKnows(s, run, t, op, [], k);
    AloneRepliesKey(op, [] + EventsOf(s, run, t), k, s2.d, s2.pcs[t], c.ok);
  }
}
