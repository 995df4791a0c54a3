/** What the runs of the queue look like from outside: they linearize to an
    abstract FIFO queue, they keep count, and reading before erasing is safe. */
module KueueHistory {
  import opened KeyCodec
  import opened QueueStore
  import opened KueueCalls
  import opened KueueThreads
  import opened KueueInvariant

  // ---- Linearizability -----------------------------------------------------------

  /** The abstract queue: the messages that have been counted in and not yet
      counted out. A message enters it at fetch_add and leaves it at fetch_sub. */
  function Counted(d: Data, p: PC, q: PC): seq<Bytes> {
    Slice(d.log, |d.removed| - Undone(q), |d.log| - Uncounted(p))
  }

  function Slice(log: seq<Bytes>, lo: int, hi: int): seq<Bytes> {
    if 0 <= lo <= hi <= |log| then log[lo..hi] else []
  }

  function Queue(s: State): seq<Bytes> {
    Counted(s.d, Producer(s), Consumer(s))
  }

  /** What a step does to the abstract queue. FoundEmpty is reported when a
      consumer blocks or times out, and when clear finishes its loop. */
  datatype Event =
    | Enqueue(v: Bytes)
    | Dequeue(v: Bytes)
    | Peek(key: U64, v: Bytes)
    | FoundEmpty
    | Silent
    /** A stop: an unfinished removal may have taken its message, an unfinished
        put may have left its own. */
    | Stopped(taken: seq<Bytes>, left: seq<Bytes>)

  function EventAt(d: Data, pc: PC, ok: bool): Event {
    match pc
    case PutCount(v) => Enqueue(v)
    case RemoveCount(v) => Dequeue(v)
    case ClearCount(v) => Dequeue(v)
    case ReadStore(_) => if ok then Peek(d.minKey, Fetched(d, d.minKey)) else Silent
    case TakeCheck(mode, _) => if MustWait(mode, d.count) then FoundEmpty else Silent
    case ClearCheck => if d.count > 0 then Silent else FoundEmpty
    case _ => Silent
  }

  function StopEvent(p: PC, q: PC): Event {
    Stopped(if InHand(q).Some? then [InHand(q).value] else [], if p.PutCount? then [p.v] else [])
  }

  ghost function EventOf(s: State, a: Action): Event
    requires Enabled(s, a)
  {
    match a
    case Step(t, c) => EventAt(s.d, s.pcs[t], c.ok)
    case Restart(_, _, _) =>
      StopEvent(Producer(s), Consumer(s))
    case _ => Silent
  }

  /** The sequential specification. */
  predicate Allowed(q: seq<Bytes>, e: Event, q': seq<Bytes>) {
    match e
    case Enqueue(v) => q' == q + [v]
    case Dequeue(v) => q != [] && v == q[0] && q' == q[1..]
    case Peek(_, v) => q != [] && v == q[0] && q' == q
    case FoundEmpty => q == [] && q' == q
    case Silent => q' == q
    case Stopped(taken, left) => taken <= q && q' == q[|taken|..] + left
  }

  lemma CountIsLength(d: Data, p: PC, q: PC)
    requires Fits(d, p, q)
    ensures d.count == |Counted(d, p, q)|
  {
    assert Undone(q) == 1 <==> InHand(q).Some?;
  }

  /** The counted messages are a slice of the log, and what the two threads have
      in hand lies just outside the part of it they share. */
  ghost predicate Sliced(d: Data, p: PC, q: PC) {
    && Undone(q) == One(InHand(q).Some?) && Uncounted(p) == One(p.PutCount?)
    && Undone(q) <= |d.removed| <= |d.log| - Uncounted(p)
    && Counted(d, p, q) == d.log[|d.removed| - Undone(q)..|d.log| - Uncounted(p)]
    && (InHand(q).Some? ==> InHand(q).value == d.log[|d.removed| - 1])
    && (p.PutCount? ==> p.v == d.log[|d.log| - 1])
  }

  lemma CountedSlice(d: Data, p: PC, q: PC)
    requires Fits(d, p, q)
    ensures Sliced(d, p, q)
  {
    Corrections(p, q);
    var n := |d.removed|;
    assert Uncounted(p) <= |d.log| - n && Undone(q) <= n;
    if InHand(q).Some? {
      assert d.log[..n][n - 1] == d.log[n - 1];
    }
  }

  lemma Corrections(p: PC, q: PC)
    ensures Undone(q) == One(InHand(q).Some?) && Uncounted(p) == One(p.PutCount?)
  {
  }

  /** `size()` is the length of the abstract queue, between any two statements. */
  lemma SizeIsExact(s: State)
    requires Inv(s)
    ensures s.d.count == |Queue(s)|
  {
    CountIsLength(s.d, Producer(s), Consumer(s));
  }

  lemma PutCountLinearizes(d: Data, p: PC, q: PC, ok: bool)
    requires Sliced(d, p, q) && p.PutCount?
    ensures EventAt(d, p, ok) == Enqueue(p.v)
    ensures Counted(Effect(d, p, ok), NextPC(d, p, ok), q) == Counted(d, p, q) + [p.v]
  {
    var d', p' := Effect(d, p, ok), NextPC(d, p, ok);
    assert d'.log == d.log && d'.removed == d.removed && Uncounted(p) == 1 && Uncounted(p') == 0;
    SliceGrows(d.log, |d.removed| - Undone(q), |d.log| - 1);
  }

  lemma SliceGrows(log: seq<Bytes>, lo: nat, hi: nat)
    requires lo <= hi < |log|
    ensures Slice(log, lo, hi + 1) == Slice(log, lo, hi) + [log[hi]]
  {
  }

  lemma PutStoreLinearizes(d: Data, p: PC, q: PC)
    requires p.PutStore?
    ensures Counted(Effect(d, p, true), NextPC(d, p, true), q) == Counted(d, p, q)
  {
    var d', p' := Effect(d, p, true), NextPC(d, p, true);
    assert d'.log == d.log + [p.v] && d'.removed == d.removed;
    assert Uncounted(p) == 0 && Uncounted(p') == 1;
    SliceKept(d.log, p.v, |d.removed| - Undone(q));
  }

  lemma SliceKept(log: seq<Bytes>, v: Bytes, lo: int)
    ensures Slice(log + [v], lo, |log|) == Slice(log, lo, |log|)
  {
  }

  /** The producer's other statements. */
  lemma PutRest(d: Data, p: PC, ok: bool)
    requires InPut(p) && !p.PutCount? && !(p.PutStore? && ok)
    ensures EventAt(d, p, ok) == Silent && Uncounted(p) == Uncounted(NextPC(d, p, ok)) == 0
    ensures Effect(d, p, ok).log == d.log && Effect(d, p, ok).removed == d.removed
  {
  }

  lemma PutRestLinearizes(d: Data, p: PC, q: PC, ok: bool)
    requires InPut(p) && !p.PutCount? && !(p.PutStore? && ok)
    ensures EventAt(d, p, ok) == Silent
    ensures Counted(Effect(d, p, ok), NextPC(d, p, ok), q) == Counted(d, p, q)
  {
    PutRest(d, p, ok);
  }

  lemma PutLinearizes(d: Data, p: PC, q: PC, ok: bool)
    requires Fits(d, p, q) && InPut(p)
    ensures Allowed(Counted(d, p, q), EventAt(d, p, ok), Counted(Effect(d, p, ok), NextPC(d, p, ok), q))
  {
    if p.PutCount? {
      CountedSlice(d, p, q);
      PutCountLinearizes(d, p, q, ok);
    } else if p.PutStore? && ok {
      PutStoreLinearizes(d, p, q);
    } else {
      PutRestLinearizes(d, p, q, ok);
    }
  }

  lemma RemovalLinearizes(d: Data, p: PC, q: PC)
    requires Fits(d, p, q) && Removes(q, true)
    ensures Counted(Effect(d, q, true), p, NextPC(d, q, true)) == Counted(d, p, q)
    ensures EventAt(d, q, true) == Silent
  {
    RemovesOldest(d, p, q);
  }

  lemma UncountLinearizes(d: Data, p: PC, q: PC, ok: bool)
    requires Sliced(d, p, q) && (q.RemoveCount? || q.ClearCount?)
    ensures EventAt(d, q, ok) == Dequeue(q.v)
    ensures Allowed(Counted(d, p, q), EventAt(d, q, ok), Counted(Effect(d, q, ok), p, NextPC(d, q, ok)))
  {
    var d', q' := Effect(d, q, ok), NextPC(d, q, ok);
    assert d'.log == d.log && d'.removed == d.removed && Undone(q) == 1 && Undone(q') == 0;
    SliceShrinks(d.log, |d.removed| - 1, |d.log| - Uncounted(p));
  }

  lemma SliceShrinks(log: seq<Bytes>, lo: nat, hi: nat)
    requires lo < hi <= |log|
    ensures log[lo..hi][0] == log[lo] && log[lo..hi][1..] == log[lo + 1..hi]
  {
  }

  lemma PeekLinearizes(d: Data, p: PC, q: PC)
    requires Sliced(d, p, q) && q.ReadStore? && |d.removed| < |d.log| - Uncounted(p)
    requires d.minKey in d.store && d.store[d.minKey] == d.log[|d.removed|]
    ensures Allowed(Counted(d, p, q), EventAt(d, q, true), Counted(Effect(d, q, true), p, NextPC(d, q, true)))
  {
    var d', q' := Effect(d, q, true), NextPC(d, q, true);
    assert d'.log == d.log && d'.removed == d.removed && Undone(q) == Undone(q') == 0;
    assert EventAt(d, q, true) == Peek(d.minKey, d.store[d.minKey]);
  }

  lemma ReadLinearizes(d: Data, p: PC, q: PC)
    requires Fits(d, p, q) && q.ReadStore?
    ensures Allowed(Counted(d, p, q), EventAt(d, q, true), Counted(Effect(d, q, true), p, NextPC(d, q, true)))
  {
    assert Unbumped(q) == Undone(q) == 0;
    HeadShape(d, Bumped(p), Uncounted(p));
    CountedSlice(d, p, q);
    PeekLinearizes(d, p, q);
  }

  lemma QuietControl(d: Data, q: PC, ok: bool)
    requires HoldsTakeLock(q) && !Removes(q, ok) && !q.RemoveCount? && !q.ClearCount? && !(q.ReadStore? && ok)
    ensures Effect(d, q, ok).log == d.log && Effect(d, q, ok).removed == d.removed
    ensures Undone(NextPC(d, q, ok)) == Undone(q)
    ensures EventAt(d, q, ok) == Silent || (EventAt(d, q, ok) == FoundEmpty && d.count <= 0)
  {
    QuietEffect(d, q, ok);
    QuietEvent(d, q, ok);
  }

  lemma QuietEffect(d: Data, q: PC, ok: bool)
    requires HoldsTakeLock(q) && !Removes(q, ok)
    ensures Effect(d, q, ok).log == d.log && Effect(d, q, ok).removed == d.removed
  {
  }

  lemma QuietEvent(d: Data, q: PC, ok: bool)
    requires HoldsTakeLock(q) && !q.RemoveCount? && !q.ClearCount? && !(q.ReadStore? && ok)
    ensures EventAt(d, q, ok) == Silent || (EventAt(d, q, ok) == FoundEmpty && d.count <= 0)
  {
  }

  lemma QuietLinearizes(d: Data, p: PC, q: PC, ok: bool)
    requires |Counted(d, p, q)| == d.count
    requires HoldsTakeLock(q) && !Removes(q, ok) && !q.RemoveCount? && !q.ClearCount? && !(q.ReadStore? && ok)
    ensures Allowed(Counted(d, p, q), EventAt(d, q, ok), Counted(Effect(d, q, ok), p, NextPC(d, q, ok)))
  {
    QuietControl(d, q, ok);
  }

  lemma TakeLinearizes(d: Data, p: PC, q: PC, ok: bool)
    requires Fits(d, p, q) && HoldsTakeLock(q)
    ensures Allowed(Counted(d, p, q), EventAt(d, q, ok), Counted(Effect(d, q, ok), p, NextPC(d, q, ok)))
  {
    CountIsLength(d, p, q);
    if Removes(q, ok) {
      RemovalLinearizes(d, p, q);
    } else if q.RemoveCount? || q.ClearCount? {
      CountedSlice(d, p, q);
      UncountLinearizes(d, p, q, ok);
    } else if q.ReadStore? && ok {
      ReadLinearizes(d, p, q);
    } else {
      QuietLinearizes(d, p, q, ok);
    }
  }

  lemma NeutralCounted(d: Data, p: PC, q: PC, p': PC, q': PC)
    requires p == p' || (Neutral(p) && Neutral(p'))
    requires q == q' || (Neutral(q) && Neutral(q'))
    ensures Counted(d, p, q) == Counted(d, p', q')
  {
  }

  lemma PutStepLinearizes(s: State, t: nat, c: Choice)
    requires Inv(s) && t < |s.pcs| && CanStep(s, t, c) && InPut(s.pcs[t])
    ensures Allowed(Queue(s), EventAt(s.d, s.pcs[t], c.ok), Queue(StepThread(s, t, c)))
  {
    var s' := StepThread(s, t, c);
    ProducerAfter(s, t, c);
    ConsumerAfter(s, t, c);
    Leaving(s.d, s.pcs[t], c.ok);
    PutLinearizes(s.d, s.pcs[t], Consumer(s), c.ok);
    NeutralCounted(s'.d, NextPC(s.d, s.pcs[t], c.ok), Consumer(s), Producer(s'), Consumer(s'));
  }

  lemma TakeStepLinearizes(s: State, t: nat, c: Choice)
    requires Inv(s) && t < |s.pcs| && CanStep(s, t, c) && HoldsTakeLock(s.pcs[t])
    ensures Allowed(Queue(s), EventAt(s.d, s.pcs[t], c.ok), Queue(StepThread(s, t, c)))
  {
    var s' := StepThread(s, t, c);
    ProducerAfter(s, t, c);
    ConsumerAfter(s, t, c);
    Leaving(s.d, s.pcs[t], c.ok);
    TakeLinearizes(s.d, Producer(s), s.pcs[t], c.ok);
    NeutralCounted(s'.d, Producer(s), NextPC(s.d, s.pcs[t], c.ok), Producer(s'), Consumer(s'));
  }

  lemma OutsideStepLinearizes(s: State, t: nat, c: Choice)
    requires Inv(s) && t < |s.pcs| && CanStep(s, t, c) && !InPut(s.pcs[t]) && !HoldsTakeLock(s.pcs[t])
    ensures EventAt(s.d, s.pcs[t], c.ok) == Silent && Queue(StepThread(s, t, c)) == Queue(s)
  {
    var s' := StepThread(s, t, c);
    ProducerAfter(s, t, c);
    ConsumerAfter(s, t, c);
    Outside(s.d, s.pcs[t], c.ok);
    NeutralCounted(s.d, Producer(s), Consumer(s), Producer(s'), Consumer(s'));
  }

  lemma StepLinearizes(s: State, t: nat, c: Choice)
    requires Inv(s) && t < |s.pcs| && CanStep(s, t, c)
    ensures Allowed(Queue(s), EventAt(s.d, s.pcs[t], c.ok), Queue(StepThread(s, t, c)))
  {
    if InPut(s.pcs[t]) {
      PutStepLinearizes(s, t, c);
    } else if HoldsTakeLock(s.pcs[t]) {
      TakeStepLinearizes(s, t, c);
    } else {
      OutsideStepLinearizes(s, t, c);
    }
  }

  /** What a stop leaves in the store, against what had been counted. */
  lemma StopLinearizes(d: Data, p: PC, q: PC)
    requires Sliced(d, p, q)
    ensures Allowed(Counted(d, p, q), StopEvent(p, q), Live(d))
  {
    var n, hi := |d.removed|, |d.log| - Uncounted(p);
    SliceSplits(d.log, n, hi);
    if InHand(q).Some? {
      SliceShrinks(d.log, n - 1, hi);
    }
    assert d.log[hi..] == if p.PutCount? then [p.v] else [];
  }

  lemma CountedAtRest(d: Data)
    requires |d.removed| <= |d.log|
    ensures Counted(d, Idle, Idle) == Live(d)
  {
    assert Undone(Idle) == Uncounted(Idle) == 0;
  }

  lemma RestartLinearizes(s: State, a: Action)
    requires Inv(s) && a.Restart? && Enabled(s, a)
    ensures Allowed(Queue(s), EventOf(s, a), Queue(Apply(s, a)))
  {
    CountedSlice(s.d, Producer(s), Consumer(s));
    StopLinearizes(s.d, Producer(s), Consumer(s));
    var d' := Reopened(s.d, a.smallest, a.greatest);
    assert d'.log == s.d.log && d'.removed == s.d.removed;
    CountedAtRest(d');
    assert Producer(Apply(s, a)) == Consumer(Apply(s, a)) == Idle;
  }

  lemma SliceSplits(log: seq<Bytes>, lo: nat, hi: nat)
    requires lo <= hi <= |log|
    ensures log[lo..] == log[lo..hi] + log[hi..]
  {
  }

  lemma OutsiderKeepsQueue(s: State, t: nat, next: PC)
    requires Locks(s.putLock, s.takeLock, s.pcs) && t < |s.pcs|
    requires !HoldsPutLock(s.pcs[t]) && !HoldsTakeLock(s.pcs[t]) && !HoldsPutLock(next) && !HoldsTakeLock(next)
    ensures Queue(s.(pcs := s.pcs[t := next])) == Queue(s)
  {
    var s' := s.(pcs := s.pcs[t := next]);
    assert Producer(s') == Producer(s) && Consumer(s') == Consumer(s);
  }

  /** Every action of every thread is a step of the abstract queue. */
  lemma ActionLinearizes(s: State, a: Action)
    requires Inv(s) && Enabled(s, a)
    ensures Allowed(Queue(s), EventOf(s, a), Queue(Apply(s, a)))
  {
    match a
    case Begin(t, op) => OutsiderKeepsQueue(s, t, FirstPC(op));
    case Step(t, c) => StepLinearizes(s, t, c);
    case WakeUp(t, expired) => OutsiderKeepsQueue(s, t, Woken(s.pcs[t].mode, expired));
    case Restart(_, _, _) => RestartLinearizes(s, a);
  }

  ghost function Trace(s: State, run: seq<Action>): seq<Event>
    requires ValidRun(s, run)
    decreases |run|
  {
    if run == [] then [] else [EventOf(s, run[0])] + Trace(Apply(s, run[0]), run[1..])
  }

  /** The events lead the abstract queue from q to q'. */
  ghost predicate Legal(q: seq<Bytes>, events: seq<Event>, q': seq<Bytes>)
    decreases |events|
  {
    if events == [] then q == q'
    else exists next :: Allowed(q, events[0], next) && Legal(next, events[1..], q')
  }

  /** Every interleaving, restarts included, is a history of one FIFO queue. */
  lemma {:induction false} RunsLinearize(s: State, run: seq<Action>)
    requires Inv(s) && ValidRun(s, run)
    ensures Legal(Queue(s), Trace(s, run), Queue(Final(s, run)))
    decreases |run|
  {
    if run != [] {
      ActionLinearizes(s, run[0]);
      InvKept(s, run[0]);
      RunsLinearize(Apply(s, run[0]), run[1..]);
      assert Trace(s, run)[1..] == Trace(Apply(s, run[0]), run[1..]);
    }
  }

  /** What an event brings into the queue and what it takes out. */
  function Brings(e: Event): seq<Bytes> {
    match e
    case Enqueue(v) => [v]
    case Stopped(_, left) => left
    case _ => []
  }

  function Takes(e: Event): seq<Bytes> {
    match e
    case Dequeue(v) => [v]
    case Stopped(taken, _) => taken
    case _ => []
  }

  function Arrived(events: seq<Event>): seq<Bytes> {
    if events == [] then [] else Brings(events[0]) + Arrived(events[1..])
  }

  function Departed(events: seq<Event>): seq<Bytes> {
    if events == [] then [] else Takes(events[0]) + Departed(events[1..])
  }

  lemma AllowedIsFifo(q: seq<Bytes>, e: Event, q': seq<Bytes>)
    requires Allowed(q, e, q')
    ensures q + Brings(e) == Takes(e) + q'
  {
  }

  lemma Regroup(q: seq<Bytes>, b: seq<Bytes>, t: seq<Bytes>, next: seq<Bytes>,
                more: seq<Bytes>, gone: seq<Bytes>, q': seq<Bytes>)
    requires q + b == t + next && next + more == gone + q'
    ensures q + (b + more) == (t + gone) + q'
  {
    assert q + (b + more) == (q + b) + more == t + (next + more);
    assert t + (gone + q') == (t + gone) + q';
  }

  /** Nothing is lost, duplicated or reordered, stops included: what was in the
      queue followed by what arrived is what departed followed by what is left. */
  lemma {:induction false} LegalIsFifo(q: seq<Bytes>, events: seq<Event>, q': seq<Bytes>)
    requires Legal(q, events, q')
    ensures q + Arrived(events) == Departed(events) + q'
    decreases |events|
  {
    if events != [] {
      var next :| Allowed(q, events[0], next) && Legal(next, events[1..], q');
      AllowedIsFifo(q, events[0], next);
      LegalIsFifo(next, events[1..], q');
      Regroup(q, Brings(events[0]), Takes(events[0]), next, Arrived(events[1..]), Departed(events[1..]), q');
    }
  }

  /** The same for runs: whatever the threads do and wherever the process stops,
      messages leave in the order in which they came. */
  lemma RunsAreFifo(s: State, run: seq<Action>)
    requires Inv(s) && ValidRun(s, run)
    ensures Queue(s) + Arrived(Trace(s, run)) == Departed(Trace(s, run)) + Queue(Final(s, run))
  {
    RunsLinearize(s, run);
    LegalIsFifo(Queue(s), Trace(s, run), Queue(Final(s, run)));
  }

  lemma {:induction false} ArrivedWhat(events: seq<Event>, i: nat, v: Bytes)
    requires i < |events| && events[i] == Enqueue(v)
    ensures v in Arrived(events)
  {
    if i > 0 {
      ArrivedWhat(events[1..], i - 1, v);
    }
  }

  /** Durability: a message that a put has counted departs or is still there, after
      any number of stops. */
  lemma CountedIsKept(s: State, run: seq<Action>, i: nat, v: Bytes)
    requires Inv(s) && ValidRun(s, run) && i < |Trace(s, run)| && Trace(s, run)[i] == Enqueue(v)
    ensures v in Departed(Trace(s, run)) || v in Queue(Final(s, run))
  {
    RunsAreFifo(s, run);
    ArrivedWhat(Trace(s, run), i, v);
    assert v in Queue(s) + Arrived(Trace(s, run));
  }

  /** Across any number of stops and restarts, the values the store gave up are
      a prefix of the values it accepted, and it holds exactly the others. */
  lemma StoreIsFifo(s: State)
    requires Reachable(s)
    ensures s.d.removed <= s.d.log
    ensures Holds(s.d.store, s.d.head, s.d.log[|s.d.removed|..])
  {
    ReachableHasInv(s);
  }

  // ---- Conservation ---------------------------------------------------------------

  /** When no thread is inside a critical section, the size is what was
      recovered plus what was put minus what was taken. */
  lemma QuiescentTotals(s: State)
    requires Inv(s) && s.putLock.None? && s.takeLock.None?
    ensures s.d.count == s.d.recovered + s.d.totalPuts - s.d.totalTakes
    ensures s.d.minKey == s.d.head && s.d.maxKey == Add64(s.d.head, s.d.count)
  {
  }

  // ---- Reading, then erasing --------------------------------------------------------

  /** Two reads return the same key and value if no message was removed between
      them, and different keys otherwise. */
  lemma ReadsAgree(s: State, r: ReadRecord, r': ReadRecord)
    requires Inv(s) && r in s.d.seen && r' in s.d.seen
    ensures r.pos == r'.pos ==> r == r'
    ensures r.key == r'.key ==> r.pos == r'.pos
  {
    assert Genuine(s.d, Producer(s), r) && Genuine(s.d, Producer(s), r');
  }

  lemma {:induction false} RecordsStay(s: State, run: seq<Action>)
    requires ValidRun(s, run) && forall i :: 0 <= i < |run| ==> !run[i].Restart?
    ensures s.d.seen <= Final(s, run).d.seen
    decreases |run|
  {
    if run != [] {
      if run[0].Step? {
        EraseRecordKept(s.d, s.pcs[run[0].t], run[0].c.ok);
      }
      RecordsStay(Apply(s, run[0]), run[1..]);
    }
  }

  /** After an Ok readNext and whatever the threads do next: as long as the
      message has not been removed it is the oldest one, under the key that was
      read; once it has, it was removed exactly at its turn, and its key is no
      longer the smallest. */
  lemma ReadIsStable(s: State, run: seq<Action>, r: ReadRecord)
    requires Inv(s) && ValidRun(s, run) && r in s.d.seen
    requires forall i :: 0 <= i < |run| ==> !run[i].Restart?
    ensures var d := Final(s, run).d;
            && r in d.seen && r.pos <= |d.removed|
            && (|d.removed| == r.pos ==> d.head == r.key && Live(d) != [] && Live(d)[0] == r.value)
            && (|d.removed| > r.pos ==> d.head != r.key && d.removed[r.pos] == r.value)
  {
    RunsKeepInv(s, run);
    RecordsStay(s, run);
    var s' := Final(s, run);
    assert r in s'.d.seen;
    assert Genuine(s'.d, Producer(s'), r);
    GenuineAtHead(s'.d, Producer(s'), Consumer(s'), r);
    assert 0 <= Uncounted(Producer(s')) && s'.d.removed == s'.d.log[..|s'.d.removed|];
  }

  /** readNext hands out the oldest message, and always at the same position
      until that message is removed. */
  lemma ReadReturnsOldest(s: State, t: nat, c: Choice)
    requires Inv(s) && t < |s.pcs| && CanStep(s, t, c) && s.pcs[t].ReadStore? && c.ok
    ensures var s' := StepThread(s, t, c);
            && s'.d.seen == s.d.seen + [ReadRecord(s.d.head, Live(s.d)[0], |s.d.removed|)]
            && Queue(s) != [] && Queue(s)[0] == Live(s.d)[0]
  {
    ConsumerAfter(s, t, c);
    HeadShape(s.d, Bumped(Producer(s)), Uncounted(Producer(s)));
    SizeIsExact(s);
  }

  /** An erase that holds the lock is unneeded, and then changes nothing, if and
      only if its message is gone; one that removes something removes exactly the
      message that was read. */
  lemma EraseIsExact(s: State, t: nat, c: Choice)
    requires Inv(s) && t < |s.pcs| && CanStep(s, t, c)
    ensures s.pcs[t].EraseCheck? ==>
              && StepThread(s, t, c).d == s.d
              && (StepThread(s, t, c).pcs[t] == TakeRelease(Unneeded) <==> s.pcs[t].rec.pos < |s.d.removed|)
    ensures s.pcs[t].EraseStore? && c.ok ==>
              && s.pcs[t].rec.pos == |s.d.removed|
              && StepThread(s, t, c).d.removed == s.d.removed + [s.pcs[t].rec.value]
  {
    var pc := s.pcs[t];
    if EraseRecord(pc).Some? && HoldsTakeLock(pc) {
      ConsumerAfter(s, t, c);
      assert Genuine(s.d, Producer(s), EraseRecord(pc).value);
      GenuineAtHead(s.d, Producer(s), pc, EraseRecord(pc).value);
      if pc.EraseStore? && c.ok {
        RemovesOldest(s.d, Producer(s), pc);
      }
    }
  }
}
