/** One thread's view of the queue: the store's operations and the methods of the
    queue as they run when no other thread interferes. What RocksDB answers is a
    parameter: `io` is the status code of the call. */
module Kueue {
  import opened KeyCodec
  import opened QueueStore
  import opened StoredKeys
  import opened KueueCalls

  const INVALID: int := -5
  const CLOSED: int := -1
  const OK: int := 0
  const NOT_FOUND: int := 1
  const INVALID_ARGUMENT: int := 4
  const TIMED_OUT: int := 9

  /** A buffer handed to the caller: null when the value is empty. */
  function Buffer(value: Bytes): (b: Option<Bytes>)
    ensures b == None <==> |value| == 0
    ensures b.Some? ==> b.value == value
  {
    if value == [] then None else Some(value)
  }

  /** What a search for an extreme key meets: the status code, and whether the
      iterator reaches an entry if there is one. The source does not ask the
      iterator for its own status, so an error there looks like an empty family. */
  datatype Lookup = Lookup(code: int, found: bool)

  /** What the search for the first key may return: null for an empty family, for an
      empty key and for an iterator error. */
  ghost predicate SeenFirst(f: Family, io: Lookup, key: Option<Bytes>) {
    if !io.found then key == None
    else if key.Some? then key.value != [] && IsSmallest(f, key.value)
    else f == map[] || IsSmallest(f, [])
  }

  /** And the search for the last key. */
  ghost predicate SeenLast(f: Family, io: Lookup, key: Option<Bytes>) {
    if !io.found then key == None
    else if key.Some? then key.value != [] && IsGreatest(f, key.value)
    else f == map[] || IsGreatest(f, [])
  }

  class StoreImpl {
    var open: bool
    var families: map<string, Family>

    /** A store over the families on disk, if it can be opened. */
    constructor (families: map<string, Family>, open: bool)
      ensures this.open == open && this.families == families
    {
      this.open, this.families := open, families;
    }

    /** The code every operation returns before RocksDB is asked. */
    predicate Refused(kind: string)
      reads this
    {
      kind !in families || !open
    }

    function Refusal(kind: string): (code: int)
      reads this
      ensures code != OK
      ensures Refused(kind) ==> (code == CLOSED <==> kind in families && !open)
      ensures Refused(kind) ==> (code == INVALID_ARGUMENT <==> kind !in families)
    {
      if kind !in families then INVALID_ARGUMENT else CLOSED
    }

    /** Everything but one family is as before. */
    twostate predicate OnlyFamily(kind: string)
      reads this
    {
      && open == old(open)
      && if kind in old(families) then kind in families && families == old(families)[kind := families[kind]]
         else families == old(families)
    }

    method Put(kind: string, key: Bytes, value: Bytes, io: int) returns (status: int)
      modifies this`families
      ensures status == if old(Refused(kind)) then Refusal(kind) else io
      ensures OnlyFamily(kind)
      ensures kind in families ==>
                families[kind] == if status == OK then old(families)[kind][key := value] else old(families)[kind]
    {
      if Refused(kind) {
        return Refusal(kind);
      }
      if io == OK {
        families := families[kind := families[kind][key := value]];
      }
      return io;
    }

    /** SingleDelete: it is not an error if the key is absent. */
    method SingleRemove(kind: string, key: Bytes, io: int) returns (status: int)
      modifies this`families
      ensures status == if old(Refused(kind)) then Refusal(kind) else io
      ensures OnlyFamily(kind)
      ensures kind in families ==>
                families[kind] == if status == OK then old(families)[kind] - {key} else old(families)[kind]
    {
      if Refused(kind) {
        return Refusal(kind);
      }
      if io == OK {
        families := families[kind := families[kind] - {key}];
      }
      return io;
    }

    method Get(kind: string, key: Bytes, io: int) returns (status: int, value: Option<Bytes>)
      ensures status == if Refused(kind) then Refusal(kind)
                        else if io == OK && key !in families[kind] then NOT_FOUND else io
      ensures value == if status == OK then Buffer(families[kind][key]) else None
    {
      if Refused(kind) {
        return Refusal(kind), None;
      }
      if io != OK {
        return io, None;
      }
      if key !in families[kind] {
        return NOT_FOUND, None;
      }
      return OK, Buffer(families[kind][key]);
    }

    /** A get and a SingleDelete under the store's monitor. The value that was
        read is returned even if the removal then fails. */
    method SingleRemoveIfPresent(kind: string, key: Bytes, ioGet: int, io: int)
      returns (status: int, value: Option<Bytes>)
      modifies this`families
      ensures status == if old(Refused(kind)) then Refusal(kind)
                        else if ioGet != OK then ioGet
                        else if key !in old(families)[kind] then NOT_FOUND else io
      ensures value == if !old(Refused(kind)) && ioGet == OK && key in old(families)[kind]
                       then Buffer(old(families)[kind][key]) else None
      ensures OnlyFamily(kind)
      ensures kind in families ==>
                families[kind] == if status == OK then old(families)[kind] - {key} else old(families)[kind]
    {
      status, value := Get(kind, key, ioGet);
      if status == OK {
        status := SingleRemove(kind, key, io);
      }
    }

    /** The first key in bytewise order. */
    method FindMinKey(kind: string, io: Lookup) returns (status: int, key: Option<Bytes>)
      ensures status == if Refused(kind) then Refusal(kind) else io.code
      ensures status == OK ==> SeenFirst(families[kind], io, key)
    {
      if Refused(kind) {
        return Refusal(kind), None;
      }
      if io.code != OK || !io.found || families[kind] == map[] {
        return io.code, None;
      }
      SmallestExists(families[kind]);
      var k :| k in families[kind] && forall j :: j in families[kind] ==> !Less(j, k);
      return io.code, Buffer(k);
    }

    /** The last key in bytewise order. */
    method FindMaxKey(kind: string, io: Lookup) returns (status: int, key: Option<Bytes>)
      ensures status == if Refused(kind) then Refusal(kind) else io.code
      ensures status == OK ==> SeenLast(families[kind], io, key)
    {
      if Refused(kind) {
        return Refusal(kind), None;
      }
      if io.code != OK || !io.found || families[kind] == map[] {
        return io.code, None;
      }
      GreatestExists(families[kind]);
      var k :| k in families[kind] && forall j :: j in families[kind] ==> !Less(k, j);
      return io.code, Buffer(k);
    }
  }

  lemma {:induction false} SmallestExists(f: Family)
    requires f != map[]
    ensures exists k :: IsSmallest(f, k)
    decreases |f|
  {
    var k :| k in f;
    var rest := f - {k};
    LessIsIrreflexive(k);
    assert f.Keys == rest.Keys + {k};
    if rest == map[] {
      assert IsSmallest(f, k);
    } else {
      SmallestExists(rest);
      var m :| IsSmallest(rest, m);
      forall j | j in f && j != k && Less(k, m)
        ensures !Less(j, k)
      {
        if Less(j, k) {
          LessIsTransitive(j, k, m);
        }
      }
      assert IsSmallest(f, if Less(k, m) then k else m);
    }
  }

  lemma {:induction false} GreatestExists(f: Family)
    requires f != map[]
    ensures exists k :: IsGreatest(f, k)
    decreases |f|
  {
    var k :| k in f;
    var rest := f - {k};
    LessIsIrreflexive(k);
    assert f.Keys == rest.Keys + {k};
    if rest == map[] {
      assert IsGreatest(f, k);
    } else {
      GreatestExists(rest);
      var m :| IsGreatest(rest, m);
      forall j | j in f && j != k && Less(m, k)
        ensures !Less(k, j)
      {
        if Less(k, j) {
          LessIsTransitive(m, k, j);
        }
      }
      assert IsGreatest(f, if Less(m, k) then k else m);
    }
  }

  // ---- The queue ------------------------------------------------------------------

  /** The family holds exactly the queue `vals` from key `head` on. */
  ghost predicate Stores(f: Family, head: U64, vals: seq<Bytes>) {
    WellKeyed(f) && Holds(View(f), head, vals) && |vals| < M
  }

  /** That family, written out. */
  ghost function Encoded(head: U64, vals: seq<Bytes>): Family {
    if vals == [] then map[]
    else
      var n := |vals| - 1;
      Encoded(head, vals[..n])[KeyOf(Add64(head, n)) := vals[n]]
  }

  lemma {:induction false} EncodedStores(head: U64, vals: seq<Bytes>)
    requires |vals| < M
    ensures Stores(Encoded(head, vals), head, vals)
  {
    if vals != [] {
      var n := |vals| - 1;
      EncodedStores(head, vals[..n]);
      ViewPut(Encoded(head, vals[..n]), Add64(head, n), vals[n]);
      HoldsPut(View(Encoded(head, vals[..n])), head, vals[..n], vals[n]);
      assert vals[..n] + [vals[n]] == vals;
    }
  }

  lemma StoredValue(f: Family, head: U64, vals: seq<Bytes>, k: Bytes)
    requires Stores(f, head, vals) && IsKey(k)
    ensures var i := Distance(head, GetU64BE(k));
            (k in f <==> i < |vals|) && (k in f ==> f[k] == vals[i])
  {
    KeyOfDecoded(k);
    var x := GetU64BE(k);
    assert x in View(f) <==> k in f;
  }

  /** Only one family stores a given queue. */
  lemma StoresIsEncoded(f: Family, head: U64, vals: seq<Bytes>)
    requires Stores(f, head, vals)
    ensures f == Encoded(head, vals)
  {
    EncodedStores(head, vals);
    var g := Encoded(head, vals);
    forall k: Bytes
      ensures k in f <==> k in g
      ensures k in f ==> f[k] == g[k]
    {
      if IsKey(k) {
        StoredValue(f, head, vals, k);
        StoredValue(g, head, vals, k);
      }
    }
  }

  /** The family holds `vals`, and the indices and the count describe it. */
  ghost predicate Image(f: Family, minKey: U64, maxKey: U64, count: int, vals: seq<Bytes>) {
    f == Encoded(minKey, vals) && count == |vals| < HALF && maxKey == Add64(minKey, |vals|)
  }

  /** Storing v under maxKey, then moving maxKey and the count, appends v as long as
      the count does not wrap. */
  lemma ImagePut(f: Family, minKey: U64, maxKey: U64, count: int, vals: seq<Bytes>, v: Bytes)
    requires Image(f, minKey, maxKey, count, vals)
    ensures f[KeyOf(maxKey) := v] == Encoded(minKey, vals + [v])
    ensures Image(f[KeyOf(maxKey) := v], minKey, Add64(maxKey, 1), Signed64(count + 1), vals + [v])
            <==> |vals| + 1 < HALF
  {
    AddAdd(minKey, |vals|, 1);
    EncodedPut(minKey, vals, v);
  }

  lemma EncodedPut(minKey: U64, vals: seq<Bytes>, v: Bytes)
    requires |vals| + 1 < M
    ensures Encoded(minKey, vals)[KeyOf(Add64(minKey, |vals|)) := v] == Encoded(minKey, vals + [v])
  {
    var f := Encoded(minKey, vals);
    EncodedStores(minKey, vals);
    ViewPut(f, Add64(minKey, |vals|), v);
    HoldsPut(View(f), minKey, vals, v);
    StoresIsEncoded(f[KeyOf(Add64(minKey, |vals|)) := v], minKey, vals + [v]);
  }

  lemma EncodedRemove(minKey: U64, vals: seq<Bytes>)
    requires 0 < |vals| < M
    ensures var f, key := Encoded(minKey, vals), KeyOf(minKey);
            key in f && f[key] == vals[0] && f - {key} == Encoded(Add64(minKey, 1), vals[1..])
  {
    var f := Encoded(minKey, vals);
    EncodedStores(minKey, vals);
    HoldsAt(View(f), minKey, vals, 0);
    ViewRemove(f, minKey);
    HoldsRemove(View(f), minKey, vals);
    StoresIsEncoded(f - {KeyOf(minKey)}, Add64(minKey, 1), vals[1..]);
  }

  /** The key minKey holds the first message; removing it, then moving minKey and
      the count, leaves the others. */
  lemma ImageRemove(f: Family, minKey: U64, maxKey: U64, count: int, vals: seq<Bytes>)
    requires Image(f, minKey, maxKey, count, vals) && vals != []
    ensures KeyOf(minKey) in f && f[KeyOf(minKey)] == vals[0]
    ensures Image(f - {KeyOf(minKey)}, Add64(minKey, 1), maxKey, Signed64(count - 1), vals[1..])
    ensures Signed64(count - 1) == count - 1
  {
    EncodedRemove(minKey, vals);
    AddNext(minKey, |vals|);
  }

  /** A stored queue is accepted and rebuilt, except that one of 2^63 messages or
      more is refused and one that runs past the largest key is accepted but
      looks empty. */
  ghost predicate Rebuilt(f: Family, head: U64, vals: seq<Bytes>, r: Indices) {
    if vals == [] || (head + |vals| <= M && |vals| < HALF)
    then r.isValid && Image(f, r.minKey, r.maxKey, r.count, vals) && r.minKey == if vals == [] then 0 else head
    else if head + |vals| <= M then !r.isValid
    else r == Indices(0, 0, 0, true)
  }

  lemma RecoveredIsRebuilt(f: Family, head: U64, vals: seq<Bytes>, smallest: Option<U64>, greatest: Option<U64>)
    requires Stores(f, head, vals)
    requires FoundSmallest(View(f), smallest) && FoundGreatest(View(f), greatest)
    ensures Rebuilt(f, head, vals, Recover(smallest, greatest))
  {
    StoresIsEncoded(f, head, vals);
    assert vals == [] ==> Encoded(0, vals) == f;
    RecoverExactIff(View(f), head, vals, smallest, greatest);
    if vals != [] && head + |vals| <= M {
      RecoverContiguous(View(f), head, vals, smallest, greatest);
    } else if vals != [] {
      RecoverStraddling(View(f), head, vals, smallest, greatest);
    }
  }

  /** What the constructor makes of any family when its searches return Ok: keys that
      are not eight bytes long count as none. */
  ghost predicate ReadBack(f: Family, min: Lookup, max: Lookup, r: Indices) {
    exists first, last ::
      SeenFirst(f, min, first) && SeenLast(f, max, last) && r == Recover(Decoded(first), Decoded(last))
  }

  lemma ReadBackIsRebuilt(f: Family, head: U64, vals: seq<Bytes>, min: Lookup, max: Lookup, r: Indices)
    requires Stores(f, head, vals) && ReadBack(f, min, max, r) && min.found && max.found
    ensures Rebuilt(f, head, vals, r)
  {
    var smallest, greatest := ReadBackIsNumeric(f, min, max, r);
    RecoveredIsRebuilt(f, head, vals, smallest, greatest);
  }

  /** An empty family has nothing to lose. */
  lemma ReadBackOfNothing(f: Family, head: U64, min: Lookup, max: Lookup, r: Indices)
    requires Stores(f, head, []) && ReadBack(f, min, max, r)
    ensures r.isValid && Image(f, r.minKey, r.maxKey, r.count, []) && r.minKey == 0
  {
    StoresIsEncoded(f, head, []);
    assert View(f) == map[];
    var _, _ := ReadBackIsNumeric(f, min, max, r);
  }

  /** For instance, two messages stored from the largest key on: the queue opens as
      valid and empty. */
  lemma StraddlingExample(a: Bytes, b: Bytes) returns (r: Indices)
    ensures var f := Encoded(M - 1, [a, b]);
            && Stores(f, M - 1, [a, b]) && ReadBack(f, Lookup(OK, true), Lookup(OK, true), r)
            && r == Indices(0, 0, 0, true)
  {
    r := StraddlingOpens(M - 1, [a, b]);
  }

  /** As does any queue that runs past the largest key. */
  lemma StraddlingOpens(head: U64, vals: seq<Bytes>) returns (r: Indices)
    requires |vals| < M < head + |vals|
    ensures var f := Encoded(head, vals);
            && Stores(f, head, vals) && ReadBack(f, Lookup(OK, true), Lookup(OK, true), r)
            && r == Indices(0, 0, 0, true)
  {
    var f, found := Encoded(head, vals), Lookup(OK, true);
    EncodedStores(head, vals);
    r := SomethingIsReadBack(f, found, found);
    ReadBackIsRebuilt(f, head, vals, found, found, r);
  }

  /** And a put onto any queue of 2^63 - 1 messages: the count becomes -2^63. */
  lemma PutOverflowExample(vals: seq<Bytes>, v: Bytes)
    requires |vals| == HALF - 1
    ensures var n := Snapshot(0, HALF - 1, HALF - 1, 0, 0, vals);
            && Image(Encoded(0, vals), n.minKey, n.maxKey, n.count, vals)
            && With(n, v).count == -HALF
            && !Image(Encoded(0, vals + [v]), 0, With(n, v).maxKey, With(n, v).count, vals + [v])
  {
  }

  /** Read back from a family of eight-byte keys, the indices are those of the
      numeric extremes, a search that met an iterator error counting as one of an
      empty family. */
  lemma ReadBackIsNumeric(f: Family, min: Lookup, max: Lookup, r: Indices)
    returns (smallest: Option<U64>, greatest: Option<U64>)
    requires WellKeyed(f) && ReadBack(f, min, max, r)
    ensures FoundSmallest(View(f), smallest) && FoundGreatest(View(f), greatest)
    ensures r == RecoverSeen(smallest, greatest, min.found, max.found)
  {
    var first, last :|
      SeenFirst(f, min, first) && SeenLast(f, max, last) && r == Recover(Decoded(first), Decoded(last));
    assert !IsKey([]);
    smallest, greatest := Extremes(f);
    if min.found {
      SmallestIsNumeric(f, first);
      smallest := Decoded(first);
    }
    if max.found {
      GreatestIsNumeric(f, last);
      greatest := Decoded(last);
    }
  }

  lemma SeenIsReadBack(f: Family, min: Lookup, max: Lookup, first: Option<Bytes>, last: Option<Bytes>)
    requires SeenFirst(f, min, first) && SeenLast(f, max, last)
    ensures ReadBack(f, min, max, Recover(Decoded(first), Decoded(last)))
  {
  }

  lemma SomethingIsReadBack(f: Family, min: Lookup, max: Lookup) returns (r: Indices)
    requires WellKeyed(f)
    ensures ReadBack(f, min, max, r)
  {
    var first: Option<Bytes>, last: Option<Bytes> := None, None;
    assert !IsKey([]);
    if f != map[] {
      SmallestExists(f);
      GreatestExists(f);
      var a :| IsSmallest(f, a);
      var b :| IsGreatest(f, b);
      first, last := if min.found then Some(a) else None, if max.found then Some(b) else None;
    }
    SeenIsReadBack(f, min, max, first, last);
    r := Recover(Decoded(first), Decoded(last));
  }

  lemma Extremes(f: Family) returns (smallest: Option<U64>, greatest: Option<U64>)
    requires WellKeyed(f)
    ensures FoundSmallest(View(f), smallest) && FoundGreatest(View(f), greatest)
  {
    if f == map[] {
      SmallestIsNumeric(f, None);
      GreatestIsNumeric(f, None);
      return None, None;
    }
    SmallestExists(f);
    GreatestExists(f);
    var a :| IsSmallest(f, a);
    var b :| IsGreatest(f, b);
    SmallestIsNumeric(f, Some(a));
    GreatestIsNumeric(f, Some(b));
    return Decoded(Some(a)), Decoded(Some(b));
  }

  // ---- The object ------------------------------------------------------------------

  /** What a consuming call reports: it would wait on the condition variable, or
      it returns a status and a buffer. */
  datatype Outcome = Blocks | Returns(status: int, value: Option<Bytes>)

  /** Valid describes a queue whose family holds exactly `contents`. */
  class KueueImpl {
    const store: StoreImpl
    const kind: string
    var minKey: U64
    var maxKey: U64
    var count: int
    var totalPuts: U64
    var totalTakes: U64
    var isValid: bool
    ghost var contents: seq<Bytes>

    ghost function Snap(): Snapshot
      reads this
    {
      Snapshot(minKey, maxKey, count, totalPuts, totalTakes, contents)
    }

    ghost predicate Valid()
      reads this, store
    {
      && isValid && kind in store.families
      && Image(store.families[kind], minKey, maxKey, count, contents)
    }

    /** The recovering constructor, over any family. `vals` is what the family is
        known to hold. */
    constructor (store: StoreImpl, id: string, ioKind: int, min: Lookup, max: Lookup, ghost vals: seq<Bytes>)
      modifies store`families
      ensures this.store == store && kind == id && totalPuts == 0 && totalTakes == 0 && contents == vals
      ensures store.families == if store.open && id !in old(store.families) && ioKind == OK
                                then old(store.families)[id := map[]] else old(store.families)
      ensures if store.open && (id in old(store.families) || ioKind == OK) && min.code == OK && max.code == OK
              then id in store.families
                   && ReadBack(store.families[id], min, max, Indices(minKey, maxKey, count, isValid))
              else !isValid
    {
      this.store, kind := store, id;
      minKey, maxKey, count, totalPuts, totalTakes, isValid := 0, 0, 0, 0, 0, false;
      contents := vals;
      new;
      if !store.open {
        return;
      }
      if id !in store.families {
        if ioKind != OK {
          return;
        }
        store.families := store.families[id := map[]];
      }
      Reload(min, max);
    }

    /** The part of the constructor that reads the stored keys. */
    method Reload(min: Lookup, max: Lookup)
      requires store.open && kind in store.families
      requires minKey == maxKey == count == 0 && !isValid
      modifies this`minKey, this`maxKey, this`count, this`isValid
      ensures if min.code == OK && max.code == OK
              then ReadBack(store.families[kind], min, max, Indices(minKey, maxKey, count, isValid))
              else !isValid
    {
      var status, smallest := store.FindMinKey(kind, min);
      if status == OK {
        var greatest;
        var least := ReadKey(smallest);
        if least.Some? {
          minKey := least.value;
        }
        status, greatest := store.FindMaxKey(kind, max);
        if status == OK {
          var most := ReadKey(greatest);
          Measure(least, most);
          SeenIsReadBack(store.families[kind], min, max, smallest, greatest);
        }
      }
    }

    /** Its last part: maxKey and the count. */
    method Measure(ghost least: Option<U64>, most: Option<U64>)
      requires minKey == (if least.Some? then least.value else 0) && maxKey == count == 0 && !isValid
      modifies this`maxKey, this`count, this`isValid
      ensures Indices(minKey, maxKey, count, isValid) == Recover(least, most)
    {
      var lastMax := maxKey;
      if most.Some? {
        lastMax := most.value;
        maxKey := Add64(lastMax, 1);
      }
      if lastMax >= minKey {
        count := Signed64(maxKey - minKey);
        isValid := count >= 0;
      }
    }

    /** The number of a key that a search returned, if it has eight bytes. */
    method ReadKey(found: Option<Bytes>) returns (key: Option<U64>)
      ensures key == Decoded(found)
    {
      key := None;
      if found.Some? && |found.value| == 8 {
        key := Some(GetU64BE(found.value));
      }
    }

    /** A put that returns Ok appends; another changes nothing. The queue stays
        consistent unless it already holds 2^63 - 1 messages: then the count
        wraps. */
    method Put(value: Bytes, io: int) returns (status: int)
      requires isValid ==> Valid()
      modifies this, store`families
      ensures isValid == old(isValid) && store.OnlyFamily(kind)
      ensures !isValid ==> status == INVALID && unchanged(this) && unchanged(store)
      ensures isValid ==> status == if store.open then io else CLOSED
      ensures isValid ==> Puts(value, if status == OK then Accepted else Failed, old(Snap()), Snap())
      ensures isValid ==> kind in store.families && store.families[kind] == Encoded(minKey, contents)
      ensures isValid ==> (Valid() <==> !(store.open && io == OK && |old(contents)| + 1 == HALF))
    {
      if !isValid {
        return INVALID;
      }
      var key := PutU64BE(maxKey);
      PutIsBigEndian(maxKey);
      maxKey := Add64(maxKey, 1);
      status := store.Put(kind, key, value, io);
      if status == OK {
        ImagePut(old(store.families)[kind], minKey, old(maxKey), count, contents, value);
        count := Signed64(count + 1);
        totalPuts := Add64(totalPuts, 1);
        contents := contents + [value];
        assert Snap() == With(old(Snap()), value);
      } else {
        UndoNext(old(maxKey));
        maxKey := Add64(maxKey, -1);
      }
    }

    /** The first message is gone, and nothing else has changed. */
    twostate predicate Advanced()
      reads this, store
      requires old(contents) != []
    {
      Valid() && Snap() == Without(old(Snap()), 1)
    }

    /** The common part of both takes once the count is positive. */
    method Remove(ioGet: int, io: int) returns (status: int, value: Option<Bytes>)
      requires Valid() && count > 0
      modifies this, store`families
      ensures store.OnlyFamily(kind)
      ensures status == if !store.open then CLOSED else if ioGet != OK then ioGet else io
      ensures status == OK ==> Advanced()
      ensures status != OK ==> Valid() && unchanged(this) && unchanged(store)
      ensures value == if store.open && ioGet == OK then Buffer(old(contents)[0]) else None
    {
      ImageRemove(store.families[kind], minKey, maxKey, count, contents);
      var key := PutU64BE(minKey);
      PutIsBigEndian(minKey);
      status, value := store.SingleRemoveIfPresent(kind, key, ioGet, io);
      if status == OK {
        minKey := Add64(minKey, 1);
        count := Signed64(count - 1);
        totalTakes := Add64(totalTakes, 1);
        contents := contents[1..];
      } else {
        assert store.families == old(store.families);
      }
    }

    /** `take()` waits while the count is 0; alone, it would wait for ever. */
    method Take(ioGet: int, io: int) returns (o: Outcome)
      requires isValid ==> Valid()
      modifies this, store`families
      ensures isValid == old(isValid) && store.OnlyFamily(kind)
      ensures !isValid ==> o == Returns(INVALID, None)
      ensures isValid ==> (o == Blocks <==> old(contents) == [])
      ensures !isValid || o == Blocks || o.status != OK ==> unchanged(this) && unchanged(store)
      ensures isValid && o.Returns? && o.status == OK ==> Valid()
      ensures isValid && o.Returns? ==>
                && Consumes(if o.status == OK then Removed(old(contents)[0]) else Failed, old(Snap()), Snap())
                && o.status == (if !store.open then CLOSED else if ioGet != OK then ioGet else io)
                && o.value == if store.open && ioGet == OK then Buffer(old(contents)[0]) else None
    {
      if !isValid {
        return Returns(INVALID, None);
      }
      if count == 0 {
        return Blocks;
      }
      var status, value := Remove(ioGet, io);
      return Returns(status, value);
    }

    /** `take(timeout)` waits for `count > 0`, for ever if the timeout is not
        positive. */
    method TimedTake(timeout: int, ioGet: int, io: int) returns (o: Outcome)
      requires isValid ==> Valid()
      modifies this, store`families
      ensures isValid == old(isValid) && store.OnlyFamily(kind)
      ensures !isValid ==> o == Returns(INVALID, None)
      ensures isValid && old(contents) == [] ==> o == if timeout > 0 then Returns(TIMED_OUT, None) else Blocks
      ensures isValid && old(contents) != [] ==> o.Returns?
      ensures !isValid || old(contents) == [] || o.status != OK ==> unchanged(this) && unchanged(store)
      ensures isValid && o.Returns? ==>
                Consumes(if old(contents) == [] then TimedOut
                         else if o.status == OK then Removed(old(contents)[0]) else Failed,
                         old(Snap()), Snap())
      ensures isValid && old(contents) != [] && o.status == OK ==> Valid()
      ensures isValid && old(contents) != [] ==>
                && o.status == (if !store.open then CLOSED else if ioGet != OK then ioGet else io)
                && o.value == if store.open && ioGet == OK then Buffer(old(contents)[0]) else None
    {
      if !isValid {
        return Returns(INVALID, None);
      }
      if !(count > 0) {
        return if timeout > 0 then Returns(TIMED_OUT, None) else Blocks;
      }
      var status, value := Remove(ioGet, io);
      return Returns(status, value);
    }

    /** readNext removes nothing and reports the key it read. */
    method ReadNext(timeout: int, io: int) returns (o: Outcome, key: U64)
      requires isValid ==> Valid()
      ensures !isValid ==> o == Returns(INVALID, None)
      ensures isValid && contents == [] ==> o == if timeout > 0 then Returns(TIMED_OUT, None) else Blocks
      ensures isValid && contents != [] ==> o.Returns? && o.status == if store.open then io else CLOSED
      ensures isValid && contents != [] ==> o.value == if o.status == OK then Buffer(contents[0]) else None
      ensures isValid && o.Returns? ==>
                Consumes(if contents == [] then TimedOut
                         else if o.status == OK then Shown(key, contents[0]) else Failed,
                         Snap(), Snap())
    {
      key := 0;
      if !isValid {
        return Returns(INVALID, None), key;
      }
      if !(count > 0) {
        return if timeout > 0 then Returns(TIMED_OUT, None) else Blocks, key;
      }
      ImageRemove(store.families[kind], minKey, maxKey, count, contents);
      var buffer := PutU64BE(minKey);
      PutIsBigEndian(minKey);
      var status, value := store.Get(kind, buffer, io);
      if status == OK {
        key := minKey;
      }
      return Returns(status, value), key;
    }

    /** The SingleDelete of minKey and what erase and clear do after it. Nothing
        here looks at the count: on an empty queue the removal of the absent key
        is Ok, and the count becomes -1. */
    method DropFirst(io: int) returns (status: int)
      requires Valid()
      modifies this, store`families
      ensures isValid && store.OnlyFamily(kind) && status == if store.open then io else CLOSED
      ensures status != OK ==> Valid() && unchanged(this) && unchanged(store)
      ensures status == OK && old(contents) != [] ==> Advanced()
      ensures status == OK && old(contents) == [] ==> count == -1 && !Valid()
    {
      if contents != [] {
        ImageRemove(store.families[kind], minKey, maxKey, count, contents);
      }
      var key := PutU64BE(minKey);
      PutIsBigEndian(minKey);
      ghost var family := store.families[kind];
      status := store.SingleRemove(kind, key, io);
      if status == OK {
        assert store.families[kind] == family - {key};
        minKey := Add64(minKey, 1);
        count := Signed64(count - 1);
        totalTakes := Add64(totalTakes, 1);
        if contents == [] {
          assert count == -1;
        } else {
          contents := contents[1..];
        }
      } else {
        assert store.families == old(store.families);
      }
    }

    /** erase compares the key with minKey but never looks at the count. On an
        empty queue the next key to be used passes the test: exactly this call
        breaks the queue. Callers avoid it by erasing keys readNext returned. */
    method Erase(key: U64, io: int) returns (ok: bool)
      requires isValid ==> Valid()
      modifies this, store`families
      ensures isValid == old(isValid) && store.OnlyFamily(kind)
      ensures ok <==> isValid && key == old(minKey) && store.open && io == OK
      ensures !ok ==> unchanged(this) && unchanged(store)
      ensures isValid && old(contents) != [] ==>
                Erases(key,
                       if key != old(minKey) then Refused
                       else if ok then Removed(old(contents)[0]) else Failed,
                       old(Snap()), Snap())
      ensures isValid ==>
                (Valid() <==> !(old(contents) == [] && key == old(minKey) && store.open && io == OK))
      ensures ok && old(contents) == [] ==> count == -1
    {
      if !isValid || key != minKey {
        return false;
      }
      var status := DropFirst(io);
      return status == OK;
    }

    /** clear removes messages until the queue is empty or a removal fails;
        `codes` are the codes of the removals, Ok beyond those given. If the k-th
        is the first that is not Ok, k messages go and its code is the status; if
        all are Ok, everything goes. A closed store refuses the first removal. An
        empty queue leaves the caller's status as it was. */
    method Clear(before: int, codes: seq<int>) returns (status: int)
      requires isValid ==> Valid()
      modifies this, store`families
      ensures isValid == old(isValid) && store.OnlyFamily(kind)
      ensures !isValid ==> status == INVALID && unchanged(this) && unchanged(store)
      ensures isValid ==>
                ClearsUntilFailure(store.open, codes, |old(contents)|, |old(contents)| - |contents|, before, status)
      ensures isValid ==>
                var n := |old(contents)|;
                var k := FirstFailure(store.open, codes, 0, n);
                Valid() && Clears(k, if k == n then Cleared else Failed, old(Snap()), Snap())
    {
      if !isValid {
        return INVALID;
      }
      status := before;
      ghost var first, n, stored := Snap(), |contents|, store.families;
      var i := 0;
      while count > 0
        invariant isValid && store.OnlyFamily(kind) && Valid() && i <= n
        invariant Snap() == Without(first, i) && count == n - i
        invariant RemovesOk(store.open, codes, i) && status == if i == 0 then before else OK
        decreases count
      {
        WithoutMore(first, i);
        ghost var families := store.families;
        status := DropOne(CodeAt(codes, i));
        UpdatedTwice(stored, families, store.families, kind);
        if status != OK {
          break;
        }
        OneMoreIsOk(store.open, codes, i);
        i := i + 1;
      }
      ClearIsOver(store.open, codes, first, i, before, status);
    }

    /** One round of clear. */
    method DropOne(io: int) returns (status: int)
      requires Valid() && count > 0
      modifies this, store`families
      ensures isValid && Valid() && store.OnlyFamily(kind) && status == if store.open then io else CLOSED
      ensures old(contents) != [] && Snap() == if status == OK then Without(old(Snap()), 1) else old(Snap())
    {
      status := DropFirst(io);
    }
  }

  /** For instance, erasing the next key of a new queue. */
  method EraseOnEmptyExample() returns (size: int)
    ensures size == -1
  {
    var store := new StoreImpl(map[], true);
    var found := Lookup(OK, true);
    var queue := new KueueImpl(store, "q", OK, found, found, []);
    EncodedStores(0, []);
    ReadBackOfNothing(store.families["q"], 0, found, found,
                      Indices(queue.minKey, queue.maxKey, queue.count, queue.isValid));
    var _ := queue.Erase(queue.minKey, OK);
    size := queue.count;
  }

  /** The i-th code, Ok beyond those given. */
  function CodeAt(codes: seq<int>, i: nat): int {
    if i < |codes| then codes[i] else OK
  }

  /** The first k removals are Ok. */
  predicate RemovesOk(open: bool, codes: seq<int>, k: nat) {
    (k > 0 ==> open) && forall j :: 0 <= j < k && j < |codes| ==> codes[j] == OK
  }

  lemma UpdatedTwice(a: map<string, Family>, b: map<string, Family>, c: map<string, Family>, k: string)
    requires k in b && k in c && b == a[k := b[k]] && c == b[k := c[k]]
    ensures c == a[k := c[k]]
  {
  }

  lemma OneMoreIsOk(open: bool, codes: seq<int>, k: nat)
    requires RemovesOk(open, codes, k) && open && CodeAt(codes, k) == OK
    ensures RemovesOk(open, codes, k + 1)
  {
  }

  /** n messages met with these codes: the first k removals were Ok, and the next
      one, if there was one, failed and gave the status. */
  predicate ClearsUntilFailure(open: bool, codes: seq<int>, n: nat, k: int, before: int, status: int) {
    && 0 <= k <= n && (n == 0 ==> status == before) && RemovesOk(open, codes, k)
    && (k == n > 0 ==> status == OK)
    && (k < n ==> if open then k < |codes| && status == codes[k] != OK else status == CLOSED)
  }

  /** The first store call from i on, below n, that fails, or n. */
  function FirstFailure(open: bool, codes: seq<int>, i: nat, n: nat): (r: nat)
    requires i <= n
    ensures i <= r <= n && (r < n && open ==> r < |codes|)
    decreases n - i
  {
    if i == n || !open || CodeAt(codes, i) != OK then i else FirstFailure(open, codes, i + 1, n)
  }

  /** On an open store the codes before it are Ok and its own is not; a closed
      store fails the first call. */
  lemma {:induction false} FirstFailureIsFirst(open: bool, codes: seq<int>, i: nat, n: nat)
    requires i <= n
    ensures var r := FirstFailure(open, codes, i, n);
            if open then (r < n ==> codes[r] != OK) && forall j :: i <= j < r && j < |codes| ==> codes[j] == OK
            else r == i
    decreases n - i
  {
    if i < n && open && CodeAt(codes, i) == OK {
      FirstFailureIsFirst(open, codes, i + 1, n);
    }
  }

  /** The number of messages that go is then determined. */
  lemma ClearIsOver(open: bool, codes: seq<int>, first: Snapshot, k: nat, before: int, status: int)
    requires ClearsUntilFailure(open, codes, |first.contents|, k, before, status)
    ensures var n, left := |first.contents|, Without(first, k);
            && k == FirstFailure(open, codes, 0, n) == n - |left.contents|
            && Clears(k, if k == n then Cleared else Failed, first, left)
  {
    FirstFailureIsFirst(open, codes, 0, |first.contents|);
  }
}
