/** The queue as any number of threads run it: one transition per lock
    operation, plain assignment, atomic access, store call or notification. */
module KueueThreads {
  import opened KeyCodec
  import opened QueueStore
  import opened KueueCalls

  // ---- Programs ---------------------------------------------------------------

  /** Where a thread stands: the statement it executes next. */
  datatype PC =
    | Idle
    // put
    | PutWant(v: Bytes)                 // about to lock putLock
    | PutBump(v: Bytes)                 // about to evaluate maxKey++
    | PutStore(v: Bytes, key: U64)      // about to call store->put
    | PutCount(v: Bytes)                // about to fetch_add
    | PutTally(c: int)                  // about to increment totalPuts_
    | PutUndo                           // about to decrement maxKey
    | PutRelease(c: int, ok: bool)      // about to unlock putLock
    // signalNotEmpty
    | SignalWant | SignalNotify | SignalRelease
    // take and readNext
    | TakeWant(mode: Mode)              // about to lock takeLock for the first time
    | TakeCheck(mode: Mode, expired: bool)
    | TakeBlock(mode: Mode)             // found the queue empty, about to wait
    | Waiting(mode: Mode)               // blocked on notEmpty, takeLock released
    | Woken(mode: Mode, expired: bool)  // unblocked, must lock takeLock again
    | TakeStore(mode: Mode)             // about to call singleRemoveIfPresent
    | ReadStore(mode: Mode)             // about to call get
    // the common end of take and erase, after an Ok removal
    | RemoveBump(v: Bytes) | RemoveCount(v: Bytes)
    | RemoveTally(c: int, v: Bytes) | RemoveNotify(c: int, v: Bytes)
    | TakeRelease(r: Reply)             // about to unlock takeLock and return
    // erase
    | EraseTest(rec: ReadRecord)          // the test made before locking
    | EraseWant(rec: ReadRecord) | EraseCheck(rec: ReadRecord) | EraseStore(rec: ReadRecord)
    // clear
    | ClearWantPut | ClearWantTake | ClearCheck | ClearStore
    | ClearBump(v: Bytes) | ClearCount(v: Bytes) | ClearTally
    | ClearReleaseTake(r: Reply) | ClearReleasePut(r: Reply)

  predicate HoldsPutLock(pc: PC) {
    || pc.PutBump? || pc.PutStore? || pc.PutCount? || pc.PutTally? || pc.PutUndo? || pc.PutRelease?
    || pc.ClearWantTake? || pc.ClearReleasePut? || HoldsBoth(pc)
  }

  predicate HoldsBoth(pc: PC) {
    || pc.ClearCheck? || pc.ClearStore? || pc.ClearBump? || pc.ClearCount? || pc.ClearTally?
    || pc.ClearReleaseTake?
  }

  predicate HoldsTakeLock(pc: PC) {
    || pc.SignalNotify? || pc.SignalRelease?
    || pc.TakeCheck? || pc.TakeBlock? || pc.TakeStore? || pc.ReadStore?
    || pc.RemoveBump? || pc.RemoveCount? || pc.RemoveTally? || pc.RemoveNotify? || pc.TakeRelease?
    || pc.EraseCheck? || pc.EraseStore?
    || HoldsBoth(pc)
  }

  predicate WantsPutLock(pc: PC) {
    pc.PutWant? || pc.ClearWantPut?
  }

  predicate WantsTakeLock(pc: PC) {
    pc.SignalWant? || pc.TakeWant? || pc.Woken? || pc.EraseWant? || pc.ClearWantTake?
  }

  /** The record an erase was started with. */
  function EraseRecord(pc: PC): Option<ReadRecord> {
    match pc
    case EraseTest(r) => Some(r)
    case EraseWant(r) => Some(r)
    case EraseCheck(r) => Some(r)
    case EraseStore(r) => Some(r)
    case _ => None
  }

  /** The wait condition: `count == 0` for the plain take, the negation of
      `count > 0` for the predicate forms. */
  predicate MustWait(mode: Mode, count: int) {
    if mode.PlainTake? then count == 0 else !(count > 0)
  }

  /** A positive timeout was given. */
  predicate CanExpire(mode: Mode) {
    !mode.PlainTake? && mode.timed
  }

  // ---- States -----------------------------------------------------------------

  /** A store operation that took effect. */
  datatype StoreOp = DidPut(key: U64) | DidRemove(key: U64)

  /** The shared data. The first six fields are the program's. The rest record
      the past, and no statement reads them: all messages the store ever
      accepted and all it ever gave up, in order; how many were gone and how
      many were left when the queue was last opened; the results of readNext
      since then; the key number of the oldest message; and every effective
      store operation. */
  datatype Data = Data(
    store: Store,
    minKey: U64,
    maxKey: U64,
    count: int,
    totalPuts: U64,
    totalTakes: U64,
    head: U64,
    log: seq<Bytes>,
    removed: seq<Bytes>,
    start: nat,
    recovered: nat,
    seen: seq<ReadRecord>,
    ops: seq<StoreOp>)

  datatype State = State(d: Data, putLock: Option<nat>, takeLock: Option<nat>, pcs: seq<PC>)

  /** The messages in the store. */
  function Live(d: Data): seq<Bytes> {
    if |d.removed| <= |d.log| then d.log[|d.removed|..] else []
  }

  /** A queue just opened on an empty column family, with any number of threads. */
  ghost predicate Init(s: State) {
    && s.d == Data(map[], 0, 0, 0, 0, 0, 0, [], [], 0, 0, [], [])
    && s.putLock == None && s.takeLock == None
    && (forall t :: 0 <= t < |s.pcs| ==> s.pcs[t].Idle?)
  }

  // ---- One statement ------------------------------------------------------------

  /** A put that returned Ok. */
  function Insertion(d: Data, v: Bytes, key: U64): Data {
    d.(store := d.store[key := v], log := d.log + [v], ops := d.ops + [DidPut(key)])
  }

  /** A removal that returned Ok. */
  function Removal(d: Data, key: U64): Data {
    if key in d.store
    then d.(store := d.store - {key}, head := Add64(d.head, 1),
            removed := d.removed + [d.store[key]], ops := d.ops + [DidRemove(key)])
    else d.(ops := d.ops + [DidRemove(key)])
  }

  function Fetched(d: Data, key: U64): Bytes {
    if key in d.store then d.store[key] else []
  }

  /** What the statement at pc does to the shared data; `ok` tells whether its
      store call, if it makes one, returns Ok. */
  function Effect(d: Data, pc: PC, ok: bool): Data {
    match pc
    case PutBump(v) => d.(maxKey := Add64(d.maxKey, 1))
    case PutStore(v, key) => if ok then Insertion(d, v, key) else d
    case PutCount(v) => d.(count := Signed64(d.count + 1))
    case PutTally(c) => d.(totalPuts := Add64(d.totalPuts, 1))
    case PutUndo => d.(maxKey := Add64(d.maxKey, -1))
    case TakeStore(_) => if ok then Removal(d, d.minKey) else d
    case ReadStore(_) =>
      if ok then d.(seen := d.seen + [ReadRecord(d.minKey, Fetched(d, d.minKey), |d.removed|)]) else d
    case RemoveBump(v) => d.(minKey := Add64(d.minKey, 1))
    case RemoveCount(v) => d.(count := Signed64(d.count - 1))
    case RemoveTally(_, _) => d.(totalTakes := Add64(d.totalTakes, 1))
    case EraseStore(r) => if ok then Removal(d, r.key) else d
    case ClearStore => if ok then Removal(d, d.minKey) else d
    case ClearBump(v) => d.(minKey := Add64(d.minKey, 1))
    case ClearCount(v) => d.(count := Signed64(d.count - 1))
    case ClearTally => d.(totalTakes := Add64(d.totalTakes, 1))
    case _ => d
  }

  /** The statement that follows the one at pc. */
  function NextPC(d: Data, pc: PC, ok: bool): PC {
    match pc
    case Idle => Idle
    case PutWant(v) => PutBump(v)
    case PutBump(v) => PutStore(v, d.maxKey)
    case PutStore(v, key) => if ok then PutCount(v) else PutUndo
    case PutCount(v) => PutTally(d.count)
    case PutTally(c) => PutRelease(c, true)
    case PutUndo => PutRelease(-1, false)
    case PutRelease(c, _) => if c == 0 then SignalWant else Idle
    case SignalWant => SignalNotify
    case SignalNotify => SignalRelease
    case SignalRelease => Idle
    case TakeWant(mode) => TakeCheck(mode, false)
    case Woken(mode, expired) => TakeCheck(mode, expired)
    case TakeCheck(mode, expired) =>
      if MustWait(mode, d.count) then (if expired then TakeRelease(TimedOut) else TakeBlock(mode))
      else if mode.Reading? then ReadStore(mode) else TakeStore(mode)
    case TakeBlock(mode) => Waiting(mode)
    case Waiting(mode) => Waiting(mode)
    case TakeStore(_) => if ok then RemoveBump(Fetched(d, d.minKey)) else TakeRelease(Failed)
    case ReadStore(_) => TakeRelease(if ok then Shown(d.minKey, Fetched(d, d.minKey)) else Failed)
    case RemoveBump(v) => RemoveCount(v)
    case RemoveCount(v) => RemoveTally(d.count, v)
    case RemoveTally(c, v) => RemoveNotify(c, v)
    case RemoveNotify(_, v) => TakeRelease(Removed(v))
    case TakeRelease(_) => Idle
    case EraseTest(r) => if r.key == d.minKey then EraseWant(r) else Idle
    case EraseWant(r) => EraseCheck(r)
    case EraseCheck(r) => if r.key == d.minKey then EraseStore(r) else TakeRelease(Unneeded)
    case EraseStore(r) => if ok then RemoveBump(Fetched(d, r.key)) else TakeRelease(Failed)
    case ClearWantPut => ClearWantTake
    case ClearWantTake => ClearCheck
    case ClearCheck => if d.count > 0 then ClearStore else ClearReleaseTake(Cleared)
    case ClearStore => if ok then ClearBump(Fetched(d, d.minKey)) else ClearReleaseTake(Failed)
    case ClearBump(v) => ClearCount(v)
    case ClearCount(v) => ClearTally
    case ClearTally => ClearCheck
    case ClearReleaseTake(r) => ClearReleasePut(r)
    case ClearReleasePut(_) => Idle
  }

  /** The statements that unlock putLock. */
  predicate UnlocksPut(pc: PC) {
    pc.PutRelease? || pc.ClearReleasePut?
  }

  /** The statements that unlock takeLock, among them the wait. */
  predicate UnlocksTake(pc: PC) {
    pc.SignalRelease? || pc.TakeRelease? || pc.ClearReleaseTake? || pc.TakeBlock?
  }

  /** The statements that call notify_one. */
  predicate Notifies(pc: PC) {
    pc.SignalNotify? || (pc.RemoveNotify? && pc.c > 1)
  }

  // ---- Transitions ------------------------------------------------------------

  /** How the environment resolves a step: whether a store call returns Ok, and
      which waiter a notification unblocks. */
  datatype Choice = Choice(ok: bool, wakee: nat)

  datatype Action =
    | Begin(t: nat, op: Op)
    | Step(t: nat, c: Choice)
    /** A spurious wake-up, or (expired) the end of a timeout. */
    | WakeUp(t: nat, expired: bool)
    /** The process stops between two statements; the queue is opened again. */
    | Restart(threads: nat, smallest: Option<U64>, greatest: Option<U64>)

  function FirstPC(op: Op): PC {
    match op
    case Put(v) => PutWant(v)
    case Consume(mode) => TakeWant(mode)
    case Erase(r) => EraseTest(r)
    case Clear => ClearWantPut
  }

  predicate SomeoneWaits(pcs: seq<PC>) {
    exists t :: 0 <= t < |pcs| && pcs[t].Waiting?
  }

  /** The sizes stay within the source's integers: fewer than 2^63 - 2 messages
      in the queue, fewer than 2^64 since it was opened. */
  predicate HasRoom(d: Data) {
    |Live(d)| + 2 < HALF && |d.log| + 1 - d.start < M
  }

  ghost predicate CanStep(s: State, t: nat, c: Choice)
    requires t < |s.pcs|
  {
    var pc := s.pcs[t];
    && !pc.Idle? && !pc.Waiting?
    && (WantsPutLock(pc) ==> s.putLock.None?)
    && (WantsTakeLock(pc) ==> s.takeLock.None?)
    && (pc.PutStore? && c.ok ==> HasRoom(s.d))
    // an absent key makes singleRemoveIfPresent and get report NotFound
    && ((pc.TakeStore? || pc.ReadStore?) && c.ok ==> s.d.minKey in s.d.store)
    // notify_one unblocks a waiter if there is one
    && (Notifies(pc) && SomeoneWaits(s.pcs) ==> c.wakee < |s.pcs| && s.pcs[c.wakee].Waiting?)
  }

  ghost predicate Enabled(s: State, a: Action) {
    match a
    case Begin(t, op) =>
      && t < |s.pcs| && s.pcs[t].Idle?
      // erase is given keys that readNext handed out since the queue was opened
      && (op.Erase? ==> op.r in s.d.seen)
    case Step(t, c) => t < |s.pcs| && CanStep(s, t, c)
    case WakeUp(t, expired) =>
      && t < |s.pcs| && s.pcs[t].Waiting?
      && (expired ==> CanExpire(s.pcs[t].mode))
    case Restart(threads, smallest, greatest) =>
      && FoundSmallest(s.d.store, smallest) && FoundGreatest(s.d.store, greatest)
      // QueueStore.RecoverExactIff tells what happens otherwise
      && s.d.head + |Live(s.d)| <= M
  }

  function Notified(pcs: seq<PC>, wakee: nat): (r: seq<PC>)
    ensures |r| == |pcs|
  {
    if wakee < |pcs| && pcs[wakee].Waiting?
    then pcs[wakee := Woken(pcs[wakee].mode, false)]
    else pcs
  }

  /** Thread t executes its next statement. */
  function StepThread(s: State, t: nat, c: Choice): State
    requires t < |s.pcs|
  {
    var pc := s.pcs[t];
    var next := NextPC(s.d, pc, c.ok);
    State(
      Effect(s.d, pc, c.ok),
      if WantsPutLock(pc) then Some(t) else if UnlocksPut(pc) then None else s.putLock,
      if WantsTakeLock(pc) then Some(t) else if UnlocksTake(pc) then None else s.takeLock,
      (if Notifies(pc) then Notified(s.pcs, c.wakee) else s.pcs)[t := next])
  }

  /** The queue as its constructor finds it. */
  function Reopened(d: Data, smallest: Option<U64>, greatest: Option<U64>): Data {
    var r := Recover(smallest, greatest);
    d.(minKey := r.minKey, maxKey := r.maxKey, count := r.count, totalPuts := 0, totalTakes := 0,
       head := r.minKey, start := |d.removed|, recovered := |Live(d)|, seen := [])
  }

  ghost function Apply(s: State, a: Action): State
    requires Enabled(s, a)
  {
    match a
    case Begin(t, op) => s.(pcs := s.pcs[t := FirstPC(op)])
    case Step(t, c) => StepThread(s, t, c)
    case WakeUp(t, expired) => s.(pcs := s.pcs[t := Woken(s.pcs[t].mode, expired)])
    case Restart(threads, smallest, greatest) =>
      State(Reopened(s.d, smallest, greatest), None, None, seq(threads, _ => Idle))
  }

  // ---- Runs -------------------------------------------------------------------

  ghost predicate ValidRun(s: State, run: seq<Action>)
    decreases |run|
  {
    run == [] || (Enabled(s, run[0]) && ValidRun(Apply(s, run[0]), run[1..]))
  }

  ghost function Final(s: State, run: seq<Action>): State
    requires ValidRun(s, run)
    decreases |run|
  {
    if run == [] then s else Final(Apply(s, run[0]), run[1..])
  }

  /** Some run of some number of threads leads from an empty queue to s. */
  ghost predicate Reachable(s: State) {
    exists s0, run :: Init(s0) && ValidRun(s0, run) && Final(s0, run) == s
  }
}
