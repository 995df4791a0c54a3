/** What a thread does and sees between the call of an operation and its return,
    and that its reply says exactly that. */
module KueueReplies {
  import opened KeyCodec
  import opened QueueStore
  import opened KueueCalls
  import opened KueueThreads
  import opened KueueInvariant
  import opened KueueHistory
  import opened KueueOperations
  import opened KueueWakeUp

  // ---- Marks ---------------------------------------------------------------------------

  /** What leaves a mark: a test of the count by take, readNext or clear; the end of
      the timeout; a store call; the count met by fetch_add or fetch_sub; a
      notification. */
  datatype Mark = Tested(size: int) | Expired | Called(ok: bool) | Met(size: int) | Signalled

  /** The marks of the statement at pc. */
  function MarksAt(d: Data, pc: PC, ok: bool): seq<Mark> {
    if pc.TakeCheck? || pc.ClearCheck? then [Tested(d.count)]
    else if pc.PutStore? || pc.TakeStore? || pc.ReadStore? || pc.EraseStore? || pc.ClearStore? then [Called(ok)]
    else if pc.PutCount? || pc.RemoveCount? then [Met(d.count)]
    else if Notifies(pc) then [Signalled]
    else []
  }

  ghost function MarksBy(s: State, a: Action, t: nat): seq<Mark>
    requires Enabled(s, a)
  {
    match a
    case Step(u, c) => if u == t then MarksAt(s.d, s.pcs[t], c.ok) else []
    case WakeUp(u, expired) => if u == t && expired then [Expired] else []
    case _ => []
  }

  /** The marks of thread t in a run. */
  ghost function MarksOf(s: State, run: seq<Action>, t: nat): seq<Mark>
    requires ValidRun(s, run)
    decreases |run|
  {
    if run == [] then [] else MarksBy(s, run[0], t) + MarksOf(Apply(s, run[0]), run[1..], t)
  }

  // ---- The reply that belongs to them ------------------------------------------------------

  function SignalIf(b: bool): seq<Mark> {
    if b then [Signalled] else []
  }

  /** An Ok store call, then the count, then a signal if there were other
      messages. */
  predicate RemovalMarks(ms: seq<Mark>) {
    |ms| >= 2 && ms[1].Met? && ms == [Called(true), ms[1]] + SignalIf(ms[1].size > 1)
  }

  /** Tests that found nothing, none of them after the end of the timeout. */
  predicate InVain(ms: seq<Mark>) {
    forall i :: 0 <= i < |ms| ==> VainAt(ms, i)
  }

  predicate VainAt(ms: seq<Mark>, i: int)
    requires 0 <= i < |ms|
  {
    ms[i].Expired? || (ms[i].Tested? && ms[i].size <= 0 && !(i > 0 && ms[i - 1].Expired?))
  }

  /** The marks before position n are tests in vain, and the n-th is a test that
      found a message. */
  predicate FoundAt(ms: seq<Mark>, n: int) {
    0 <= n < |ms| && InVain(ms[..n]) && ms[n].Tested? && ms[n].size > 0
  }

  /** What follows the tests of a take or readNext that found a message. */
  predicate ConsumedMarks(mode: Mode, ms: seq<Mark>, r: Reply) {
    match r
    case Removed(_) => !mode.Reading? && RemovalMarks(ms)
    case Shown(_, _) => mode.Reading? && ms == [Called(true)]
    case Failed => ms == [Called(false)]
    case _ => false
  }

  /** Rounds of clear: a message found, a store call that is Ok. */
  predicate Rounds(ms: seq<Mark>, k: nat) {
    && |ms| == 2 * k
    && forall i :: 0 <= i < |ms| ==> if i % 2 == 0 then ms[i].Tested? && ms[i].size > 0 else ms[i] == Called(true)
  }

  /** put: one store call; Accepted with the message counted, and a signal exactly if
      the count was 0, if the call was Ok; Failed if it was not. */
  predicate PutAnswered(ms: seq<Mark>, r: Reply) {
    || (r == Failed && ms == [Called(false)])
    || (r == Accepted && |ms| >= 2 && ms[1].Met? && ms == [Called(true), ms[1]] + SignalIf(ms[1].size == 0))
  }

  /** take, readNext: TimedOut exactly after a test in vain that follows the end of a
      timeout, which must have been given. */
  predicate TimedOutMarks(mode: Mode, ms: seq<Mark>) {
    && (mode == TimedTake(true) || mode == Reading(true))
    && |ms| >= 2 && InVain(ms[..|ms| - 1])
    && ms[|ms| - 2].Expired? && ms[|ms| - 1].Tested? && ms[|ms| - 1].size <= 0
  }

  /** Otherwise one store call after the first test that found a message, and the
      reply that call deserves. */
  ghost predicate ConsumeAnswered(mode: Mode, ms: seq<Mark>, r: Reply) {
    if r == TimedOut then TimedOutMarks(mode, ms)
    else exists n :: FoundAt(ms, n) && ConsumedMarks(mode, ms[n + 1..], r)
  }

  /** erase: no store call, or one and the reply it deserves. */
  predicate EraseAnswered(ms: seq<Mark>, r: Reply) {
    match r
    case Removed(_) => RemovalMarks(ms)
    case Failed => ms == [Called(false)]
    case _ => (r == Refused || r == Unneeded) && ms == []
  }

  /** clear: store calls as long as messages are found and the calls are Ok, each one
      an event; Cleared after a test that found none, Failed after a call that was
      not Ok. */
  predicate ClearAnswered(es: seq<Event>, ms: seq<Mark>, r: Reply) {
    if r == Cleared then
      |ms| > 0 && |es| > 0 && Rounds(ms[..|ms| - 1], |es| - 1) && ms[|ms| - 1].Tested? && ms[|ms| - 1].size <= 0
    else r == Failed && |ms| >= 1 && FoundInRound(ms[..|ms| - 1], |es|) && ms[|ms| - 1] == Called(false)
  }

  /** k rounds and a test that found a message. */
  predicate FoundInRound(ms: seq<Mark>, k: nat) {
    |ms| > 0 && Rounds(ms[..|ms| - 1], k) && ms[|ms| - 1].Tested? && ms[|ms| - 1].size > 0
  }

  /** The reply of an operation belongs to the marks it left and the events es it
      caused. */
  ghost predicate Answered(op: Op, es: seq<Event>, ms: seq<Mark>, r: Reply) {
    match op
    case Put(_) => PutAnswered(ms, r)
    case Consume(mode) => ConsumeAnswered(mode, ms, r)
    case Erase(_) => EraseAnswered(ms, r)
    case Clear => ClearAnswered(es, ms, r)
  }

  // ---- On the way -----------------------------------------------------------------------------

  predicate PutMarked(ms: seq<Mark>, pc: PC) {
    match pc
    case PutWant(_) => ms == []
    case PutBump(_) => ms == []
    case PutStore(_, _) => ms == []
    case PutCount(_) => ms == [Called(true)]
    case PutTally(c) => ms == [Called(true), Met(c)]
    case PutUndo => ms == [Called(false)]
    case PutRelease(c, ok) => ms == if ok then [Called(true), Met(c)] else [Called(false)]
    case SignalWant => ms == [Called(true), Met(0)]
    case SignalNotify => ms == [Called(true), Met(0)]
    case SignalRelease => ms == [Called(true), Met(0), Signalled]
    case _ => false
  }

  /** Of ms, the marks after the n-th belong to pc, a point after an Ok removal. */
  predicate RemovalMarked(ms: seq<Mark>, pc: PC) {
    match pc
    case RemoveBump(_) => ms == [Called(true)]
    case RemoveCount(_) => ms == [Called(true)]
    case RemoveTally(c, _) => ms == [Called(true), Met(c)]
    case RemoveNotify(c, _) => ms == [Called(true), Met(c)]
    case _ => false
  }

  predicate LastExpired(ms: seq<Mark>) {
    ms != [] && ms[|ms| - 1].Expired?
  }

  ghost predicate ConsumeMarked(mode: Mode, ms: seq<Mark>, pc: PC) {
    match pc
    case TakeWant(_) => ms == []
    case TakeCheck(_, expired) => InVain(ms) && (expired <==> LastExpired(ms))
    case TakeBlock(_) => InVain(ms) && !LastExpired(ms)
    case Waiting(_) => InVain(ms) && !LastExpired(ms)
    case Woken(_, expired) => InVain(ms) && (expired <==> LastExpired(ms))
    case TakeStore(_) => FoundAt(ms, |ms| - 1)
    case ReadStore(_) => FoundAt(ms, |ms| - 1)
    case TakeRelease(r) => ConsumeAnswered(mode, ms, r)
    case _ => exists n :: FoundAt(ms, n) && RemovalMarked(ms[n + 1..], pc)
  }

  predicate EraseMarked(ms: seq<Mark>, pc: PC) {
    match pc
    case EraseTest(_) => ms == []
    case EraseWant(_) => ms == []
    case EraseCheck(_) => ms == []
    case EraseStore(_) => ms == []
    case TakeRelease(r) => EraseAnswered(ms, r)
    case _ => RemovalMarked(ms, pc)
  }

  predicate ClearMarked(es: seq<Event>, ms: seq<Mark>, pc: PC) {
    match pc
    case ClearWantPut => ms == [] && es == []
    case ClearWantTake => ms == [] && es == []
    case ClearCheck => Rounds(ms, |es|)
    case ClearStore => FoundInRound(ms, |es|)
    case ClearBump(_) => Rounds(ms, |es| + 1)
    case ClearCount(_) => Rounds(ms, |es| + 1)
    case ClearTally => Rounds(ms, |es|)
    case ClearReleaseTake(r) => ClearAnswered(es, ms, r)
    case ClearReleasePut(r) => ClearAnswered(es, ms, r)
    case _ => false
  }

  ghost predicate Marked(op: Op, es: seq<Event>, ms: seq<Mark>, pc: PC) {
    match op
    case Put(_) => PutMarked(ms, pc)
    case Consume(mode) => ConsumeMarked(mode, ms, pc)
    case Erase(_) => EraseMarked(ms, pc)
    case Clear => ClearMarked(es, ms, pc)
  }

  // ---- put and erase ----

  lemma PutMarksOn(v: Bytes, es: seq<Event>, ms: seq<Mark>, d: Data, pc: PC, ok: bool)
    requires PutTold(v, es, pc) && PutMarked(ms, pc)
    ensures ReplyAt(d, pc).None? ==> PutMarked(ms + MarksAt(d, pc, ok), NextPC(d, pc, ok))
    ensures ReplyAt(d, pc).Some? ==> PutAnswered(ms + MarksAt(d, pc, ok), ReplyAt(d, pc).value)
  {
    assert ms + [] == ms;
    match pc
    case PutWant(_) =>
    case PutBump(_) =>
    case PutStore(_, _) =>
    case PutCount(_) =>
    case PutTally(_) =>
    case PutUndo =>
    case PutRelease(_, _) =>
    case SignalWant =>
    case SignalNotify =>
    case SignalRelease =>
  }

  /** The statements after an Ok removal. */
  lemma RemovalMarksOn(ms: seq<Mark>, d: Data, pc: PC, ok: bool)
    requires RemovalMarked(ms, pc)
    ensures ReplyAt(d, pc).None? && (NextPC(d, pc, ok).TakeRelease? <==> pc.RemoveNotify?)
    ensures pc.RemoveNotify? ==> NextPC(d, pc, ok).r.Removed? && RemovalMarks(ms + MarksAt(d, pc, ok))
    ensures !pc.RemoveNotify? ==> RemovalMarked(ms + MarksAt(d, pc, ok), NextPC(d, pc, ok))
  {
    assert ms + [] == ms;
    match pc
    case RemoveBump(_) =>
    case RemoveCount(_) =>
    case RemoveTally(_, _) =>
    case RemoveNotify(_, _) =>
  }

  lemma EraseMarksOn(rec: ReadRecord, es: seq<Event>, ms: seq<Mark>, d: Data, pc: PC, ok: bool)
    requires EraseTold(rec, es, pc) && EraseMarked(ms, pc)
    ensures ReplyAt(d, pc).None? ==> EraseMarked(ms + MarksAt(d, pc, ok), NextPC(d, pc, ok))
    ensures ReplyAt(d, pc).Some? ==> EraseAnswered(ms + MarksAt(d, pc, ok), ReplyAt(d, pc).value)
  {
    assert ms + [] == ms;
    if RemovalMarked(ms, pc) {
      RemovalMarksOn(ms, d, pc, ok);
    } else {
      assert pc.EraseTest? || pc.EraseWant? || pc.EraseCheck? || pc.EraseStore? || pc.TakeRelease?;
    }
  }

  // ---- take and readNext ----

  lemma InVainNext(ms: seq<Mark>, m: Mark)
    requires InVain(ms) && (m.Expired? || (m.Tested? && m.size <= 0 && !LastExpired(ms)))
    ensures InVain(ms + [m]) && (LastExpired(ms + [m]) <==> m.Expired?)
  {
    var ms' := ms + [m];
    forall i | 0 <= i < |ms'|
      ensures VainAt(ms', i)
    {
      if i < |ms| {
        assert VainAt(ms, i) && ms'[i] == ms[i];
      }
    }
  }

  lemma FoundNow(ms: seq<Mark>, m: Mark)
    requires InVain(ms) && m.Tested? && m.size > 0
    ensures FoundAt(ms + [m], |ms + [m]| - 1)
  {
    assert (ms + [m])[..|ms|] == ms;
  }

  lemma FoundBefore(ms: seq<Mark>, n: int, more: seq<Mark>)
    requires FoundAt(ms, n)
    ensures FoundAt(ms + more, n) && (ms + more)[n + 1..] == ms[n + 1..] + more
  {
    assert (ms + more)[..n] == ms[..n];
  }

  /** The marks a test leaves, by what it leads to. */
  lemma TestMarks(mode: Mode, ms: seq<Mark>, expired: bool, size: int)
    requires InVain(ms) && (expired <==> LastExpired(ms))
    ensures size > 0 ==> FoundAt(ms + [Tested(size)], |ms + [Tested(size)]| - 1)
    ensures size <= 0 && !expired ==> InVain(ms + [Tested(size)]) && !LastExpired(ms + [Tested(size)])
    ensures size <= 0 && expired && CanExpire(mode) ==> ConsumeAnswered(mode, ms + [Tested(size)], TimedOut)
  {
    var m := Tested(size);
    if size > 0 {
      FoundNow(ms, m);
    } else if expired {
      assert (ms + [m])[..|ms + [m]| - 1] == ms;
    } else {
      InVainNext(ms, m);
    }
  }

  lemma TestMarksOn(mode: Mode, ms: seq<Mark>, d: Data, pc: PC, ok: bool)
    requires pc.TakeCheck? && pc.mode == mode && (pc.expired ==> CanExpire(mode)) && d.count >= 0
    requires ConsumeMarked(mode, ms, pc)
    ensures ReplyAt(d, pc).None? && ConsumeMarked(mode, ms + MarksAt(d, pc, ok), NextPC(d, pc, ok))
  {
    TestMarks(mode, ms, pc.expired, d.count);
  }

  lemma FoundThen(mode: Mode, ms: seq<Mark>, n: int, r: Reply)
    requires FoundAt(ms, n) && ConsumedMarks(mode, ms[n + 1..], r)
    ensures ConsumeAnswered(mode, ms, r)
  {
  }

  lemma CallMarksOn(mode: Mode, ms: seq<Mark>, d: Data, pc: PC, ok: bool)
    requires (pc == TakeStore(mode) && !mode.Reading?) || (pc == ReadStore(mode) && mode.Reading?)
    requires ConsumeMarked(mode, ms, pc)
    ensures ReplyAt(d, pc).None? && ConsumeMarked(mode, ms + MarksAt(d, pc, ok), NextPC(d, pc, ok))
  {
    var n, ms', next := |ms| - 1, ms + [Called(ok)], NextPC(d, pc, ok);
    FoundBefore(ms, n, [Called(ok)]);
    assert ms'[n + 1..] == [Called(ok)];
    if next.TakeRelease? {
      FoundThen(mode, ms', n, next.r);
    }
  }

  lemma AfterMarksOn(mode: Mode, ms: seq<Mark>, d: Data, pc: PC, ok: bool)
    requires !mode.Reading? && ConsumeMarked(mode, ms, pc)
    requires pc.RemoveBump? || pc.RemoveCount? || pc.RemoveTally? || pc.RemoveNotify?
    ensures ReplyAt(d, pc).None? && ConsumeMarked(mode, ms + MarksAt(d, pc, ok), NextPC(d, pc, ok))
  {
    var n :| FoundAt(ms, n) && RemovalMarked(ms[n + 1..], pc);
    var ms', next := ms + MarksAt(d, pc, ok), NextPC(d, pc, ok);
    FoundBefore(ms, n, MarksAt(d, pc, ok));
    RemovalMarksOn(ms[n + 1..], d, pc, ok);
    if next.TakeRelease? {
      FoundThen(mode, ms', n, next.r);
    } else {
      assert FoundAt(ms', n) && RemovalMarked(ms'[n + 1..], next);
    }
  }

  lemma RestMarksOn(mode: Mode, ms: seq<Mark>, d: Data, pc: PC, ok: bool)
    requires ConsumeMarked(mode, ms, pc) && (pc.TakeWant? || pc.Woken? || pc.TakeBlock? || pc.TakeRelease?)
    ensures MarksAt(d, pc, ok) == [] && (ReplyAt(d, pc).Some? <==> pc.TakeRelease?)
    ensures pc.TakeRelease? ==> ReplyAt(d, pc).value == pc.r
    ensures !pc.TakeRelease? ==> ConsumeMarked(mode, ms, NextPC(d, pc, ok))
  {
  }

  lemma ConsumeMarksOn(mode: Mode, es: seq<Event>, ms: seq<Mark>, d: Data, pc: PC, ok: bool)
    requires ConsumeTold(mode, es, pc) && ConsumeMarked(mode, ms, pc) && !pc.Waiting? && d.count >= 0
    ensures ReplyAt(d, pc).None? ==> ConsumeMarked(mode, ms + MarksAt(d, pc, ok), NextPC(d, pc, ok))
    ensures ReplyAt(d, pc).Some? ==> ConsumeAnswered(mode, ms + MarksAt(d, pc, ok), ReplyAt(d, pc).value)
  {
    if pc.TakeCheck? {
      TestMarksOn(mode, ms, d, pc, ok);
    } else if pc.TakeStore? || pc.ReadStore? {
      CallMarksOn(mode, ms, d, pc, ok);
    } else if pc.RemoveBump? || pc.RemoveCount? || pc.RemoveTally? || pc.RemoveNotify? {
      AfterMarksOn(mode, ms, d, pc, ok);
    } else {
      RestMarksOn(mode, ms, d, pc, ok);
      assert ms + [] == ms;
    }
  }

  // ---- clear ----

  lemma RoundsMore(ms: seq<Mark>, k: nat)
    requires FoundInRound(ms, k)
    ensures Rounds(ms + [Called(true)], k + 1)
  {
    var ms' := ms + [Called(true)];
    forall i | 0 <= i < |ms'|
      ensures if i % 2 == 0 then ms'[i].Tested? && ms'[i].size > 0 else ms'[i] == Called(true)
    {
      if i < |ms| - 1 {
        assert ms'[i] == ms[..|ms| - 1][i];
      }
    }
  }

  /** The marks a test of clear leaves, and those of its store call. */
  lemma ClearTest(es: seq<Event>, ms: seq<Mark>, size: int)
    requires Rounds(ms, |es|)
    ensures size > 0 ==> FoundInRound(ms + [Tested(size)], |es|)
    ensures size <= 0 ==> ClearAnswered(es + [FoundEmpty], ms + [Tested(size)], Cleared)
  {
    assert (ms + [Tested(size)])[..|ms|] == ms;
  }

  lemma ClearCall(es: seq<Event>, ms: seq<Mark>, ok: bool)
    requires FoundInRound(ms, |es|)
    ensures if ok then Rounds(ms + [Called(ok)], |es| + 1) else ClearAnswered(es, ms + [Called(ok)], Failed)
  {
    assert (ms + [Called(ok)])[..|ms|] == ms;
    if ok {
      RoundsMore(ms, |es|);
    }
  }

  /** What the statements of clear do to its story. */
  ghost predicate ClearOn(es: seq<Event>, ms: seq<Mark>, d: Data, pc: PC, ok: bool) {
    var es', ms' := es + Heard(EventAt(d, pc, ok)), ms + MarksAt(d, pc, ok);
    match ReplyAt(d, pc)
    case None => ClearMarked(es', ms', NextPC(d, pc, ok))
    case Some(r) => ClearAnswered(es', ms', r)
  }

  lemma ClearTestOn(es: seq<Event>, ms: seq<Mark>, d: Data, ok: bool)
    requires Rounds(ms, |es|)
    ensures ClearOn(es, ms, d, ClearCheck, ok)
  {
    ClearTest(es, ms, d.count);
    assert es + [] == es;
  }

  lemma ClearCallOn(es: seq<Event>, ms: seq<Mark>, d: Data, ok: bool)
    requires FoundInRound(ms, |es|)
    ensures ClearOn(es, ms, d, ClearStore, ok)
  {
    ClearCall(es, ms, ok);
    assert es + [] == es;
  }

  lemma ClearCountOn(es: seq<Event>, ms: seq<Mark>, d: Data, v: Bytes, ok: bool)
    requires Rounds(ms, |es| + 1)
    ensures ClearOn(es, ms, d, ClearCount(v), ok)
  {
    assert ms + [] == ms && |es + [Dequeue(v)]| == |es| + 1;
  }

  lemma ClearRestOn(es: seq<Event>, ms: seq<Mark>, d: Data, pc: PC, ok: bool)
    requires ClearMarked(es, ms, pc) && !pc.ClearCheck? && !pc.ClearStore? && !pc.ClearCount?
    ensures ClearOn(es, ms, d, pc, ok)
  {
    assert MarksAt(d, pc, ok) == [] && EventAt(d, pc, ok) == Silent;
    assert ms + [] == ms && es + [] == es;
  }

  lemma ClearMarksOn(es: seq<Event>, ms: seq<Mark>, d: Data, pc: PC, ok: bool)
    requires ClearMarked(es, ms, pc)
    ensures ClearOn(es, ms, d, pc, ok)
  {
    match pc
    case ClearCheck => ClearTestOn(es, ms, d, ok);
    case ClearStore => ClearCallOn(es, ms, d, ok);
    case ClearCount(v) => ClearCountOn(es, ms, d, v, ok);
    case _ => ClearRestOn(es, ms, d, pc, ok);
  }

  // ---- In particular ------------------------------------------------------------------------------

  /** Whether the store calls were Ok, in order. */
  function Calls(ms: seq<Mark>): seq<bool> {
    if ms == [] then []
    else
      var before, m := Calls(ms[..|ms| - 1]), ms[|ms| - 1];
      if m.Called? then before + [m.ok] else before
  }

  lemma CallsNext(ms: seq<Mark>, m: Mark)
    ensures Calls(ms + [m]) == Calls(ms) + if m.Called? then [m.ok] else []
  {
    assert (ms + [m])[..|ms|] == ms;
  }

  lemma {:induction false} CallsAppend(ms: seq<Mark>, more: seq<Mark>)
    ensures Calls(ms + more) == Calls(ms) + Calls(more)
    decreases |more|
  {
    if more == [] {
      assert ms + more == ms;
    } else {
      var n := |more| - 1;
      CallsAppend(ms, more[..n]);
      CallsNext(ms + more[..n], more[n]);
      assert ms + more == (ms + more[..n]) + [more[n]];
    }
  }

  lemma {:induction false} NoCallsInVain(ms: seq<Mark>)
    requires InVain(ms)
    ensures Calls(ms) == []
  {
    if ms != [] {
      assert VainAt(ms, |ms| - 1);
      var before := ms[..|ms| - 1];
      forall i | 0 <= i < |before|
        ensures VainAt(before, i)
      {
        assert VainAt(ms, i);
      }
      NoCallsInVain(before);
    }
  }

  /** k Ok calls. */
  function Oks(k: nat): (r: seq<bool>)
    ensures |r| == k && forall i :: 0 <= i < k ==> r[i]
  {
    seq(k, _ => true)
  }

  lemma {:induction false} CallsOfRounds(ms: seq<Mark>, k: nat)
    requires Rounds(ms, k)
    ensures Calls(ms) == Oks(k)
  {
    if k > 0 {
      var before, test, call := ms[..|ms| - 2], ms[|ms| - 2], ms[|ms| - 1];
      assert test.Tested? && call == Called(true);
      CallsOfRounds(before, k - 1);
      CallsNext(before, test);
      CallsNext(before + [test], call);
      assert ms == (before + [test]) + [call];
    }
  }

  lemma CallsOfOne(ok: bool)
    ensures Calls([Called(ok)]) == [ok]
  {
    CallsNext([], Called(ok));
    assert [] + [Called(ok)] == [Called(ok)];
  }

  lemma CallsOfCounted(ok: bool, n: int, b: bool)
    ensures Calls([Called(ok), Met(n)] + SignalIf(b)) == [ok]
  {
    CallsOfOne(ok);
    CallsNext([Called(ok)], Met(n));
    assert [Called(ok)] + [Met(n)] == [Called(ok), Met(n)];
    CallsNext([Called(ok), Met(n)], Signalled);
    assert [Called(ok), Met(n)] + [] == [Called(ok), Met(n)];
  }

  // What the calls alone say about the reply.

  lemma RemovalCalls(ms: seq<Mark>)
    requires RemovalMarks(ms)
    ensures Calls(ms) == [true]
  {
    CallsOfCounted(true, ms[1].size, ms[1].size > 1);
  }

  /** put makes exactly one store call, and fails if and only if it does. */
  lemma PutCalls(ms: seq<Mark>, r: Reply)
    requires PutAnswered(ms, r)
    ensures Calls(ms) == [r == Accepted] && (r == Failed || r == Accepted)
  {
    CallsOfOne(false);
    if r == Accepted {
      CallsOfCounted(true, ms[1].size, ms[1].size == 0);
    }
  }

  /** erase makes at most one, and fails if and only if it does. */
  lemma EraseCalls(ms: seq<Mark>, r: Reply)
    requires EraseAnswered(ms, r)
    ensures Calls(ms) == if r == Failed then [false] else if r.Removed? then [true] else []
  {
    CallsOfOne(false);
    if r.Removed? {
      RemovalCalls(ms);
    }
  }

  lemma TimedOutCalls(mode: Mode, ms: seq<Mark>)
    requires TimedOutMarks(mode, ms)
    ensures Calls(ms) == []
  {
    var before := ms[..|ms| - 1];
    NoCallsInVain(before);
    CallsNext(before, ms[|ms| - 1]);
    assert ms == before + [ms[|ms| - 1]];
  }

  lemma CallsAfterTests(ms: seq<Mark>, n: int)
    requires FoundAt(ms, n)
    ensures Calls(ms) == Calls(ms[n + 1..])
  {
    NoCallsInVain(ms[..n]);
    CallsNext(ms[..n], ms[n]);
    CallsAppend(ms[..n] + [ms[n]], ms[n + 1..]);
    assert ms == (ms[..n] + [ms[n]]) + ms[n + 1..];
  }

  lemma ConsumedCalls(mode: Mode, ms: seq<Mark>, r: Reply)
    requires ConsumedMarks(mode, ms, r)
    ensures Calls(ms) == [r != Failed]
  {
    CallsOfOne(r != Failed);
    if r.Removed? {
      RemovalCalls(ms);
    }
  }

  /** take and readNext make one unless they time out, and fail if and only if it
      does. */
  lemma ConsumeCalls(mode: Mode, ms: seq<Mark>, r: Reply)
    requires ConsumeAnswered(mode, ms, r)
    ensures Calls(ms) == if r == TimedOut then [] else [r != Failed]
  {
    if r == TimedOut {
      TimedOutCalls(mode, ms);
    } else {
      var n :| FoundAt(ms, n) && ConsumedMarks(mode, ms[n + 1..], r);
      CallsAfterTests(ms, n);
      ConsumedCalls(mode, ms[n + 1..], r);
    }
  }

  /** clear makes one for each message it removes, and one more if and only if it
      fails: that one. */
  lemma ClearCalls(es: seq<Event>, ms: seq<Mark>, r: Reply)
    requires ClearAnswered(es, ms, r)
    ensures Calls(ms) == if r == Failed then Oks(|es|) + [false] else Oks(|es| - 1)
  {
    var before := ms[..|ms| - 1];
    CallsNext(before, ms[|ms| - 1]);
    assert ms == before + [ms[|ms| - 1]];
    if r == Cleared {
      CallsOfRounds(before, |es| - 1);
    } else {
      CallsOfRounds(before[..|before| - 1], |es|);
      CallsNext(before[..|before| - 1], before[|before| - 1]);
      assert before == before[..|before| - 1] + [before[|before| - 1]];
    }
  }
}
