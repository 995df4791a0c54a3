/** Column families with byte keys, and why they may be read as maps from
    64-bit numbers: every operation of the store on an encoded key is the same
    operation on the number, and the bytewise extremes are the numeric ones. */
module StoredKeys {
  import opened KeyCodec
  import opened QueueStore

  type Family = map<Bytes, Bytes>

  /** Only the queue writes its family, so every key has eight bytes. */
  ghost predicate WellKeyed(f: Family) {
    forall k :: k in f ==> IsKey(k)
  }

  predicate IsKey(k: Bytes) {
    |k| == 8
  }

  /** The family with its keys decoded. */
  ghost function View(f: Family): Store {
    map x: U64 | KeyOf(x) in f :: f[KeyOf(x)]
  }

  lemma ViewPut(f: Family, x: U64, v: Bytes)
    requires WellKeyed(f)
    ensures WellKeyed(f[KeyOf(x) := v])
    ensures View(f[KeyOf(x) := v]) == View(f)[x := v]
  {
    forall y: U64
      ensures KeyOf(x) == KeyOf(y) <==> x == y
    {
      KeyIsInjective(x, y);
    }
  }

  lemma ViewRemove(f: Family, x: U64)
    requires WellKeyed(f)
    ensures WellKeyed(f - {KeyOf(x)})
    ensures View(f - {KeyOf(x)}) == View(f) - {x}
  {
    forall y: U64
      ensures KeyOf(x) == KeyOf(y) <==> x == y
    {
      KeyIsInjective(x, y);
    }
  }

  // ---- The smallest and the greatest stored key ------------------------------------

  ghost predicate IsSmallest(f: Family, k: Bytes) {
    k in f && forall j :: j in f ==> !Less(j, k)
  }

  ghost predicate IsGreatest(f: Family, k: Bytes) {
    k in f && forall j :: j in f ==> !Less(k, j)
  }

  /** What the constructor reads off a key search: a key of another length
      counts as no key. */
  function Decoded(found: Option<Bytes>): Option<U64> {
    if found.Some? && |found.value| == 8 then Some(GetU64BE(found.value)) else None
  }

  /** The bytewise searches of the store find the numerically smallest key. */
  lemma SmallestIsNumeric(f: Family, found: Option<Bytes>)
    requires WellKeyed(f)
    requires if found.Some? then IsSmallest(f, found.value) else f == map[]
    ensures FoundSmallest(View(f), Decoded(found))
  {
    if found.Some? {
      var x := GetU64BE(found.value);
      KeyOfDecoded(found.value);
      forall y | y in View(f)
        ensures x <= y
      {
        OrderIsNumeric(y, x);
      }
    } else {
      assert View(f) == map[];
    }
  }

  lemma GreatestIsNumeric(f: Family, found: Option<Bytes>)
    requires WellKeyed(f)
    requires if found.Some? then IsGreatest(f, found.value) else f == map[]
    ensures FoundGreatest(View(f), Decoded(found))
  {
    if found.Some? {
      var x := GetU64BE(found.value);
      KeyOfDecoded(found.value);
      forall y | y in View(f)
        ensures y <= x
      {
        OrderIsNumeric(x, y);
      }
    } else {
      assert View(f) == map[];
    }
  }
}
