/** The store operations of a whole run, across restarts and the reuse of keys,
    meet the condition under which SingleDelete is defined. */
module StoreDiscipline {
  import opened KeyCodec
  import opened QueueStore
  import opened KueueCalls
  import opened KueueThreads
  import opened KueueInvariant

  /** The keys present after the operations, starting from none. */
  function Present(ops: seq<StoreOp>): set<U64> {
    if ops == [] then {}
    else
      var before := Present(ops[..|ops| - 1]);
      match ops[|ops| - 1]
      case DidPut(k) => before + {k}
      case DidRemove(k) => before - {k}
  }

  /** Every put met an absent key, every removal a present one. */
  predicate Disciplined(ops: seq<StoreOp>) {
    ops == [] ||
    var before := ops[..|ops| - 1];
    && Disciplined(before)
    && match ops[|ops| - 1]
       case DidPut(k) => k !in Present(before)
       case DidRemove(k) => k in Present(before)
  }

  ghost predicate Tidy(d: Data) {
    Disciplined(d.ops) && Present(d.ops) == d.store.Keys
  }

  /** A put stores under a key that is absent. */
  lemma PutKeyIsFree(d: Data, p: PC, q: PC)
    requires Fits(d, p, q) && p.PutStore? && HasRoom(d)
    ensures p.key !in d.store
  {
    assert p == PutStore(p.v, p.key) && Bumped(p) == 1 && Uncounted(p) == 0;
    AppendShape(d, p.v, p.key, Unbumped(q), Undone(q));
  }

  lemma PutTidy(d: Data, v: Bytes, key: U64)
    requires Tidy(d) && key !in d.store
    ensures Tidy(Insertion(d, v, key))
  {
    var ops' := d.ops + [DidPut(key)];
    assert ops'[..|ops'| - 1] == d.ops;
  }

  lemma RemoveTidy(d: Data, key: U64)
    requires Tidy(d) && key in d.store
    ensures Tidy(Removal(d, key))
  {
    var ops' := d.ops + [DidRemove(key)];
    assert ops'[..|ops'| - 1] == d.ops;
  }

  lemma OtherTidy(d: Data, pc: PC, ok: bool)
    requires Tidy(d) && !(pc.PutStore? && ok) && !Removes(pc, ok)
    ensures Tidy(Effect(d, pc, ok))
  {
    var d' := Effect(d, pc, ok);
    assert d'.ops == d.ops && d'.store == d.store;
  }

  lemma TidyKept(s: State, a: Action)
    requires Inv(s) && Tidy(s.d) && Enabled(s, a)
    ensures Tidy(Apply(s, a).d)
  {
    if a.Step? {
      var pc := s.pcs[a.t];
      if pc.PutStore? && a.c.ok {
        ProducerAfter(s, a.t, a.c);
        PutKeyIsFree(s.d, pc, Consumer(s));
        PutTidy(s.d, pc.v, pc.key);
      } else if Removes(pc, a.c.ok) {
        ConsumerAfter(s, a.t, a.c);
        RemovesOldest(s.d, Producer(s), pc);
        RemoveTidy(s.d, s.d.head);
      } else {
        OtherTidy(s.d, pc, a.c.ok);
      }
    }
  }

  lemma {:induction false} RunsKeepTidy(s: State, run: seq<Action>)
    requires Inv(s) && Tidy(s.d) && ValidRun(s, run)
    ensures Tidy(Final(s, run).d)
    decreases |run|
  {
    if run != [] {
      TidyKept(s, run[0]);
      InvKept(s, run[0]);
      RunsKeepTidy(Apply(s, run[0]), run[1..]);
    }
  }

  // ---- SingleDelete's own words -----------------------------------------------------

  /** ops[i] is the last of the first n operations that concerns key k. */
  ghost predicate LastOn(ops: seq<StoreOp>, n: int, k: U64, i: int) {
    0 <= i < n <= |ops| && ops[i].key == k && forall j :: i < j < n ==> ops[j].key != k
  }

  /** The last operation on k among the first n is a put. */
  ghost predicate PutLast(ops: seq<StoreOp>, n: int, k: U64) {
    exists i :: LastOn(ops, n, k, i) && ops[i].DidPut?
  }

  lemma LastOnPrefix(ops: seq<StoreOp>, n: nat, k: U64, i: int)
    requires n <= |ops|
    ensures LastOn(ops, n, k, i) <==> LastOn(ops[..n], n, k, i)
  {
    assert forall j :: 0 <= j < n ==> ops[..n][j] == ops[j];
  }

  lemma PutLastOfPrefix(ops: seq<StoreOp>, n: nat, k: U64)
    requires n <= |ops|
    ensures PutLast(ops, n, k) <==> PutLast(ops[..n], n, k)
  {
    if PutLast(ops, n, k) {
      var i :| LastOn(ops, n, k, i) && ops[i].DidPut?;
      LastOnPrefix(ops, n, k, i);
    }
    if PutLast(ops[..n], n, k) {
      var i :| LastOn(ops[..n], n, k, i) && ops[..n][i].DidPut?;
      LastOnPrefix(ops, n, k, i);
    }
  }

  lemma PutLastNext(ops: seq<StoreOp>, n: nat, k: U64)
    requires n < |ops|
    ensures PutLast(ops, n + 1, k) <==> if ops[n].key == k then ops[n].DidPut? else PutLast(ops, n, k)
  {
    if ops[n].key == k {
      assert LastOn(ops, n + 1, k, n);
    } else {
      if PutLast(ops, n, k) {
        var i :| LastOn(ops, n, k, i) && ops[i].DidPut?;
        assert LastOn(ops, n + 1, k, i);
      }
      if PutLast(ops, n + 1, k) {
        var i :| LastOn(ops, n + 1, k, i) && ops[i].DidPut?;
        assert LastOn(ops, n, k, i);
      }
    }
  }

  lemma {:induction false} PresentMeansPutLast(ops: seq<StoreOp>, k: U64)
    ensures k in Present(ops) <==> PutLast(ops, |ops|, k)
  {
    if ops != [] {
      var n := |ops| - 1;
      PresentMeansPutLast(ops[..n], k);
      PutLastOfPrefix(ops, n, k);
      PutLastNext(ops, n, k);
    }
  }

  lemma {:induction false} DisciplinedPrefix(ops: seq<StoreOp>, n: nat)
    requires Disciplined(ops) && n <= |ops|
    ensures Disciplined(ops[..n])
    decreases |ops| - n
  {
    if n == |ops| {
      assert ops[..n] == ops;
    } else {
      DisciplinedPrefix(ops, n + 1);
      assert ops[..n + 1][..n] == ops[..n];
    }
  }

  lemma DisciplinedStep(ops: seq<StoreOp>, n: nat)
    requires Disciplined(ops) && n < |ops|
    ensures ops[n].DidRemove? <==> PutLast(ops, n, ops[n].key)
  {
    DisciplinedPrefix(ops, n + 1);
    assert ops[..n + 1][..n] == ops[..n];
    PresentMeansPutLast(ops[..n], ops[n].key);
    PutLastOfPrefix(ops, n, ops[n].key);
  }

  /** Exactly one Put for the key since the previous SingleDelete of that key
      (or since the beginning), and no other operation on it. */
  ghost predicate OnePutSince(ops: seq<StoreOp>, n: int, i: int)
    requires 0 <= n < |ops|
  {
    && LastOn(ops, n, ops[n].key, i) && ops[i].DidPut?
    && (forall j :: LastOn(ops, i, ops[n].key, j) ==> ops[j].DidRemove?)
  }

  /** Over a whole run from an empty family, every SingleDelete is preceded by
      exactly one Put of its key since the SingleDelete before it. */
  lemma SingleDeleteIsSafe(s: State, n: nat)
    requires Reachable(s) && n < |s.d.ops| && s.d.ops[n].DidRemove?
    ensures exists i :: OnePutSince(s.d.ops, n, i)
  {
    var s0, run :| Init(s0) && ValidRun(s0, run) && Final(s0, run) == s;
    InitHasInv(s0);
    RunsKeepTidy(s0, run);
    OnePutBefore(s.d.ops, n);
  }

  lemma OnePutBefore(ops: seq<StoreOp>, n: nat)
    requires Disciplined(ops) && n < |ops| && ops[n].DidRemove?
    ensures exists i :: OnePutSince(ops, n, i)
  {
    DisciplinedStep(ops, n);
    var i :| LastOn(ops, n, ops[n].key, i) && ops[i].DidPut?;
    DisciplinedStep(ops, i);
    assert !PutLast(ops, i, ops[n].key);
    assert OnePutSince(ops, n, i);
  }

  // ---- The order of removals ------------------------------------------------------------

  /** The keys of the removals, in order. */
  function RemovedKeys(ops: seq<StoreOp>): seq<U64> {
    if ops == [] then []
    else
      var before := RemovedKeys(ops[..|ops| - 1]);
      match ops[|ops| - 1]
      case DidPut(_) => before
      case DidRemove(k) => before + [k]
  }

  lemma OneMoreOp(ops: seq<StoreOp>, op: StoreOp)
    ensures RemovedKeys(ops + [op]) == RemovedKeys(ops) + if op.DidRemove? then [op.key] else []
  {
    assert (ops + [op])[..|ops|] == ops;
  }

  /** n consecutive keys. */
  function KeysFrom(head: U64, n: nat): (keys: seq<U64>)
    ensures |keys| == n && forall i :: 0 <= i < n ==> keys[i] == Add64(head, i)
  {
    seq(n, i => Add64(head, i))
  }

  lemma KeysFromNext(head: U64, n: nat)
    requires n < M
    ensures KeysFrom(head, n + 1) == [head] + KeysFrom(Add64(head, 1), n)
  {
    forall i | 0 <= i < n
      ensures KeysFrom(head, n + 1)[i + 1] == KeysFrom(Add64(head, 1), n)[i]
    {
      AddNext(head, i + 1);
    }
  }

  lemma OtherEffects(d: Data, pc: PC, ok: bool)
    requires !Removes(pc, ok)
    ensures var d' := Effect(d, pc, ok);
            && d'.removed == d.removed && d'.head == d.head && d'.start == d.start
            && (d'.ops == d.ops || exists k :: d'.ops == d.ops + [DidPut(k)])
  {
  }

  /** From d to d', the keys from the head on were removed, in increasing order,
      and no others. */
  ghost predicate RemovedInOrder(d: Data, d': Data) {
    var n := |d'.removed| - |d.removed|;
    && 0 <= n < M && d'.start == d.start
    && RemovedKeys(d'.ops) == RemovedKeys(d.ops) + KeysFrom(d.head, n)
    && d'.head == Add64(d.head, n)
  }

  lemma EffectRemoves(d: Data, pc: PC, ok: bool)
    requires Removes(pc, ok) ==> Effect(d, pc, ok) == Removal(d, d.head) && d.head in d.store
    ensures RemovedInOrder(d, Effect(d, pc, ok)) && |Effect(d, pc, ok).removed| <= |d.removed| + 1
  {
    var d' := Effect(d, pc, ok);
    if Removes(pc, ok) {
      OneMoreOp(d.ops, DidRemove(d.head));
      assert KeysFrom(d.head, 1) == [d.head];
    } else {
      OtherEffects(d, pc, ok);
      if d'.ops != d.ops {
        var k :| d'.ops == d.ops + [DidPut(k)];
        OneMoreOp(d.ops, DidPut(k));
      }
      assert KeysFrom(d.head, 0) == [];
    }
  }

  /** An action removes the message at the head, or nothing. */
  lemma ActionRemoves(s: State, a: Action)
    requires Inv(s) && Enabled(s, a) && !a.Restart?
    ensures RemovedInOrder(s.d, Apply(s, a).d) && |Apply(s, a).d.removed| <= |s.d.removed| + 1
  {
    if a.Step? {
      if Removes(s.pcs[a.t], a.c.ok) {
        ConsumerAfter(s, a.t, a.c);
        RemovesOldest(s.d, Producer(s), s.pcs[a.t]);
      }
      EffectRemoves(s.d, s.pcs[a.t], a.c.ok);
    } else {
      assert Apply(s, a).d == s.d && KeysFrom(s.d.head, 0) == [];
    }
  }

  lemma RemovedOneAfterTheOther(d: Data, d1: Data, d2: Data)
    requires RemovedInOrder(d, d1) && |d1.removed| <= |d.removed| + 1 && RemovedInOrder(d1, d2)
    requires Bounded(d) && Bounded(d2)
    ensures RemovedInOrder(d, d2)
  {
    var n := |d2.removed| - |d1.removed|;
    if |d1.removed| > |d.removed| {
      assert KeysFrom(d.head, 1) == [d.head];
      KeysFromNext(d.head, n);
      AddNext(d.head, n + 1);
    } else {
      assert KeysFrom(d.head, 0) == [];
    }
  }

  lemma InvIsBounded(s: State)
    requires Inv(s)
    ensures Bounded(s.d)
  {
  }

  /** Between two stops, the removals concern consecutive keys in increasing
      order, from the head on. */
  lemma {:induction false} RemovalsAreInOrder(s: State, run: seq<Action>)
    requires Inv(s) && ValidRun(s, run) && forall i :: 0 <= i < |run| ==> !run[i].Restart?
    ensures RemovedInOrder(s.d, Final(s, run).d)
    decreases |run|
  {
    if run == [] {
      assert KeysFrom(s.d.head, 0) == [];
    } else {
      var s1 := Apply(s, run[0]);
      ActionRemoves(s, run[0]);
      InvKept(s, run[0]);
      RemovalsAreInOrder(s1, run[1..]);
      RunsKeepInv(s1, run[1..]);
      InvIsBounded(s);
      InvIsBounded(Final(s, run));
      RemovedOneAfterTheOther(s.d, s1.d, Final(s, run).d);
    }
  }

  /** So no key is removed twice until the queue is opened again. */
  lemma EachKeyOnce(d: Data, d': Data, i: nat, j: nat)
    requires RemovedInOrder(d, d') && |RemovedKeys(d.ops)| <= i < j < |RemovedKeys(d'.ops)|
    ensures RemovedKeys(d'.ops)[i] != RemovedKeys(d'.ops)[j]
  {
    var before := |RemovedKeys(d.ops)|;
    DistanceIs(d.head, i - before, Add64(d.head, i - before));
    DistanceIs(d.head, j - before, Add64(d.head, j - before));
  }
}
