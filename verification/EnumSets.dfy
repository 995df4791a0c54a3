/** Sets of small enumerators, one bit each in an array of 64-bit words. */
module EnumSets {

  const W: int := 64

  // ---- 64-bit words ------------------------------------------------------------------

  function Pow2(n: nat): (r: nat)
    ensures r >= 1
  {
    if n == 0 then 1 else 2 * Pow2(n - 1)
  }

  /** w has at most n bits. */
  predicate Fitted(w: nat, n: nat) {
    if n == 0 then w == 0 else Fitted(w / 2, n - 1)
  }

  predicate IsWord(w: nat) {
    Fitted(w, 64)
  }

  /** w >> k */
  function Shr(w: nat, k: nat): nat {
    if k == 0 then w else Shr(w / 2, k - 1)
  }

  /** Bit k of w. */
  predicate Bit(w: nat, k: nat) {
    if k == 0 then w % 2 == 1 else Bit(w / 2, k - 1)
  }

  /** a | b */
  function Or(a: nat, b: nat): nat {
    if a == 0 then b else if b == 0 then a
    else (if a % 2 == 1 || b % 2 == 1 then 1 else 0) + 2 * Or(a / 2, b / 2)
  }

  /** a & b */
  function And(a: nat, b: nat): nat {
    if a == 0 || b == 0 then 0
    else (if a % 2 == 1 && b % 2 == 1 then 1 else 0) + 2 * And(a / 2, b / 2)
  }

  /** ~w, for an n-bit word */
  function Not(w: nat, n: nat): nat {
    if n == 0 then 0 else (1 - w % 2) + 2 * Not(w / 2, n - 1)
  }

  /** The number of zero bits below the lowest one. */
  function TrailingZeros(w: nat): nat
    requires w > 0
  {
    if w % 2 == 1 then 0 else 1 + TrailingZeros(w / 2)
  }

  /** The number of one bits. */
  function Ones(w: nat): nat {
    if w == 0 then 0 else w % 2 + Ones(w / 2)
  }

  lemma {:induction false} BitOfZero(k: nat)
    ensures !Bit(0, k)
  {
    if k > 0 {
      BitOfZero(k - 1);
    }
  }

  lemma {:induction false} BitOfOr(a: nat, b: nat, k: nat)
    ensures Bit(Or(a, b), k) <==> Bit(a, k) || Bit(b, k)
  {
    BitOfZero(k);
    if a != 0 && b != 0 && k > 0 {
      BitOfOr(a / 2, b / 2, k - 1);
      assert Or(a, b) / 2 == Or(a / 2, b / 2);
    }
  }

  lemma {:induction false} BitOfAnd(a: nat, b: nat, k: nat)
    ensures Bit(And(a, b), k) <==> Bit(a, k) && Bit(b, k)
  {
    BitOfZero(k);
    if a != 0 && b != 0 && k > 0 {
      BitOfAnd(a / 2, b / 2, k - 1);
      assert And(a, b) / 2 == And(a / 2, b / 2);
    }
  }

  lemma {:induction false} BitOfNot(w: nat, n: nat, k: nat)
    requires k < n
    ensures Bit(Not(w, n), k) <==> !Bit(w, k)
  {
    if k > 0 {
      BitOfNot(w / 2, n - 1, k - 1);
      assert Not(w, n) / 2 == Not(w / 2, n - 1);
    }
  }

  lemma {:induction false} BitOfPow2(n: nat, k: nat)
    ensures Bit(Pow2(n), k) <==> k == n
  {
    if n == 0 {
      if k > 0 {
        BitOfZero(k - 1);
      }
    } else if k > 0 {
      BitOfPow2(n - 1, k - 1);
      assert Pow2(n) / 2 == Pow2(n - 1);
    }
  }

  /** (1 << n) - 1 has exactly the lowest n bits. */
  lemma {:induction false} BitOfMask(n: nat, k: nat)
    ensures Bit(Pow2(n) - 1, k) <==> k < n
  {
    if n == 0 {
      BitOfZero(k);
    } else if k > 0 {
      BitOfMask(n - 1, k - 1);
      assert (Pow2(n) - 1) / 2 == Pow2(n - 1) - 1;
    }
  }

  lemma {:induction false} BitOfShr(w: nat, a: nat, k: nat)
    ensures Bit(Shr(w, a), k) <==> Bit(w, a + k)
  {
    if a > 0 {
      BitOfShr(w / 2, a - 1, k);
    }
  }

  lemma {:induction false} HighBits(w: nat, n: nat, k: nat)
    requires Fitted(w, n) && n <= k
    ensures !Bit(w, k)
  {
    if n == 0 {
      BitOfZero(k);
    } else {
      HighBits(w / 2, n - 1, k - 1);
    }
  }

  /** A word is determined by its bits. */
  lemma {:induction false} BitsDetermine(a: nat, b: nat, n: nat)
    requires Fitted(a, n) && Fitted(b, n)
    requires forall k :: 0 <= k < n ==> (Bit(a, k) <==> Bit(b, k))
    ensures a == b
  {
    if n > 0 {
      forall k | 0 <= k < n - 1
        ensures Bit(a / 2, k) <==> Bit(b / 2, k)
      {
        assert Bit(a, k + 1) <==> Bit(b, k + 1);
      }
      BitsDetermine(a / 2, b / 2, n - 1);
      assert Bit(a, 0) <==> Bit(b, 0);
    }
  }

  lemma {:induction false} WordOps(a: nat, b: nat, n: nat)
    requires Fitted(a, n) && Fitted(b, n)
    ensures Fitted(Or(a, b), n) && Fitted(And(a, b), n) && Fitted(Not(a, n), n)
  {
    if n > 0 {
      WordOps(a / 2, b / 2, n - 1);
    }
  }

  lemma {:induction false} PowersFit(m: nat, n: nat)
    ensures m < n ==> Fitted(Pow2(m), n)
    ensures m <= n ==> Fitted(Pow2(m) - 1, n)
  {
    if m > 0 && n > 0 {
      PowersFit(m - 1, n - 1);
    } else {
      ZeroFits(n);
      if n > 0 {
        ZeroFits(n - 1);
      }
    }
  }

  lemma {:induction false} ZeroFits(n: nat)
    ensures Fitted(0, n)
  {
    if n > 0 {
      ZeroFits(n - 1);
    }
  }

  lemma {:induction false} ShrFits(w: nat, k: nat, n: nat)
    requires Fitted(w, n)
    ensures Fitted(Shr(w, k), n)
  {
    if k > 0 {
      HalfFits(w, n);
      ShrFits(w / 2, k - 1, n);
    }
  }

  lemma {:induction false} HalfFits(w: nat, n: nat)
    requires Fitted(w, n)
    ensures Fitted(w / 2, n)
  {
    if n > 0 {
      HalfFits(w / 2, n - 1);
    }
  }

  lemma {:induction false} LowestBit(w: nat, n: nat)
    requires w > 0 && Fitted(w, n)
    ensures TrailingZeros(w) < n && Bit(w, TrailingZeros(w))
    ensures forall k :: 0 <= k < TrailingZeros(w) ==> !Bit(w, k)
  {
    if w % 2 == 0 {
      LowestBit(w / 2, n - 1);
      forall k | 0 <= k < TrailingZeros(w)
        ensures !Bit(w, k)
      {
        if k > 0 {
          assert !Bit(w / 2, k - 1);
        }
      }
    }
  }

  // ---- The set of a word array ---------------------------------------------------------

  predicate Has(words: seq<nat>, v: int) {
    0 <= v < W * |words| && Bit(words[v / W], v % W)
  }

  /** The elements below n. */
  ghost function Below(words: seq<nat>, n: nat): set<int> {
    set v | 0 <= v < n && Has(words, v)
  }

  /** Enough words for the values up to max, and no bit above max. */
  ghost predicate Fits(words: seq<nat>, max: nat) {
    && |words| == max / W + 1
    && (forall i :: 0 <= i < |words| ==> IsWord(words[i]))
    && (forall v :: max < v < W * |words| ==> !Has(words, v))
  }

  function OnesSum(words: seq<nat>, n: nat): nat
    requires n <= |words|
  {
    if n == 0 then 0 else OnesSum(words, n - 1) + Ones(words[n - 1])
  }

  /** The number of one bits below k. */
  function OnesBelow(w: nat, k: nat): nat {
    if k == 0 then 0 else OnesBelow(w, k - 1) + (if Bit(w, k - 1) then 1 else 0)
  }

  lemma {:induction false} OnesBelowShift(w: nat, k: nat)
    ensures OnesBelow(w, k + 1) == w % 2 + OnesBelow(w / 2, k)
  {
    if k > 0 {
      OnesBelowShift(w, k - 1);
    }
  }

  lemma {:induction false} OnesAreBelow(w: nat, n: nat)
    requires Fitted(w, n)
    ensures Ones(w) == OnesBelow(w, n)
  {
    if n > 0 {
      OnesAreBelow(w / 2, n - 1);
      OnesBelowShift(w, n - 1);
      if w == 0 {
        assert Ones(w / 2) == 0;
      }
    }
  }

  lemma BelowStep(words: seq<nat>, v: nat)
    ensures |Below(words, v + 1)| == |Below(words, v)| + if Has(words, v) then 1 else 0
  {
    assert Below(words, v + 1) == Below(words, v) + if Has(words, v) then {v} else {};
  }

  lemma WordIndex(i: nat, k: nat)
    requires k < W
    ensures (W * i + k) / W == i && (W * i + k) % W == k
  {
  }

  lemma {:induction false} BelowCardinality(words: seq<nat>, i: nat, k: nat)
    requires i < |words| && k <= W && forall j :: 0 <= j < |words| ==> IsWord(words[j])
    ensures |Below(words, W * i + k)| == OnesSum(words, i) + OnesBelow(words[i], k)
    decreases i, k
  {
    if k > 0 {
      BelowCardinality(words, i, k - 1);
      BelowStep(words, W * i + (k - 1));
      WordIndex(i, k - 1);
    } else if i > 0 {
      BelowCardinality(words, i - 1, W);
      OnesAreBelow(words[i - 1], W);
    } else {
      assert Below(words, 0) == {};
    }
  }

  /** No element lies from `from` to the end of its word. */
  lemma RestOfWordIsEmpty(words: seq<nat>, from: nat, v: nat)
    requires from / W < |words| && Shr(words[from / W], from % W) == 0
    requires from <= v < (from / W + 1) * W
    ensures !Has(words, v)
  {
    BitOfZero(v - from);
    BitOfShr(words[from / W], from % W, v - from);
    assert v / W == from / W && v % W == from % W + (v - from);
  }

  /** The lowest bit of the rest of a word is the next element. */
  lemma NextInWord(words: seq<nat>, from: nat)
    requires from / W < |words| && IsWord(words[from / W])
    requires Shr(words[from / W], from % W) != 0
    ensures var next := from + TrailingZeros(Shr(words[from / W], from % W));
            Has(words, next) && forall v :: from <= v < next ==> !Has(words, v)
  {
    var w, a := words[from / W], from % W;
    var rest := Shr(w, a);
    ShrFits(w, a, 64);
    LowestBit(rest, 64);
    var z := TrailingZeros(rest);
    BitOfShr(w, a, z);
    if a + z >= 64 {
      HighBits(w, 64, a + z);
    }
    assert (from + z) / W == from / W && (from + z) % W == a + z;
    forall v | from <= v < from + z
      ensures !Has(words, v)
    {
      BitOfShr(w, a, v - from);
      assert v / W == from / W && v % W == a + (v - from);
    }
  }

  /** w is ~0. */
  ghost predicate IsFull(w: nat) {
    IsWord(w) && forall k :: 0 <= k < W ==> Bit(w, k)
  }

  lemma NotOfZero(n: nat)
    ensures Fitted(Not(0, n), n) && forall k :: 0 <= k < n ==> Bit(Not(0, n), k)
  {
    ZeroFits(n);
    WordOps(0, 0, n);
    forall k | 0 <= k < n
      ensures Bit(Not(0, n), k)
    {
      BitOfNot(0, n, k);
      BitOfZero(k);
    }
  }

  /** The last word of the full set: the bits up to max. */
  function LastPiece(max: nat, full: nat): nat {
    if (max + 1) % W != 0 then Pow2((max + 1) % W) - 1 else full
  }

  lemma LastPieceBits(max: nat, full: nat, k: nat)
    requires k < W && IsFull(full)
    ensures IsWord(LastPiece(max, full)) && (Bit(LastPiece(max, full), k) <==> k <= max % W)
  {
    var rest := (max + 1) % W;
    if rest != 0 {
      PowersFit(rest, 64);
      BitOfMask(rest, k);
      assert rest == max % W + 1;
    } else {
      assert max % W == W - 1;
    }
  }

  lemma AllBits(words: seq<nat>, max: nat, full: nat)
    requires |words| == max / W + 1 && words[|words| - 1] == LastPiece(max, full)
    requires IsFull(full) && forall j :: 0 <= j < |words| - 1 ==> words[j] == full
    ensures Fits(words, max) && forall v :: Has(words, v) <==> 0 <= v <= max
  {
    LastPieceBits(max, full, 0);
    forall v | 0 <= v < W * |words|
      ensures Has(words, v) <==> v <= max
    {
      LastPieceBits(max, full, v % W);
      assert 0 <= v % W < W;
    }
  }

  ghost function Elements(s: seq<nat>): set<int> {
    set v: int | v in s
  }

  lemma {:induction false} DistinctElements(s: seq<nat>)
    requires forall j, k :: 0 <= j < k < |s| ==> s[j] < s[k]
    ensures |Elements(s)| == |s|
  {
    if s == [] {
      assert Elements(s) == {};
    } else {
      var n := |s| - 1;
      DistinctElements(s[..n]);
      assert s == s[..n] + [s[n]];
      assert Elements(s) == Elements(s[..n]) + {s[n]};
    }
  }

  /** operator== compares the words: that is equality of the sets. */
  lemma SameWordsIffSameMembers(a: seq<nat>, b: seq<nat>, max: nat)
    requires Fits(a, max) && Fits(b, max)
    ensures a == b <==> forall v :: Has(a, v) <==> Has(b, v)
  {
    if forall v :: Has(a, v) <==> Has(b, v) {
      forall i | 0 <= i < |a|
        ensures a[i] == b[i]
      {
        forall k | 0 <= k < 64
          ensures Bit(a[i], k) <==> Bit(b[i], k)
        {
          WordIndex(i, k);
          assert Has(a, W * i + k) <==> Has(b, W * i + k);
        }
        BitsDetermine(a[i], b[i], 64);
      }
    }
  }

  /** Changing one bit of one word changes the membership of one value. */
  lemma OneBitChanged(words: seq<nat>, max: nat, value: nat, w: nat, on: bool)
    requires Fits(words, max) && value <= max && IsWord(w)
    requires forall k :: 0 <= k < W ==> (Bit(w, k) <==> if k == value % W then on else Bit(words[value / W], k))
    ensures var words' := words[value / W := w];
            && Fits(words', max)
            && forall v :: Has(words', v) <==> if v == value then on else Has(words, v)
  {
    var words' := words[value / W := w];
    forall v | 0 <= v < W * |words|
      ensures Has(words', v) <==> if v == value then on else Has(words, v)
    {
      assert v / W == value / W && v % W == value % W ==> v == value;
    }
  }

  // ---- The class ------------------------------------------------------------------------

  class SmallEnumSet {
    const max: nat
    const state: array<nat>

    ghost predicate Valid()
      reads this, state
    {
      Fits(state[..], max)
    }

    /** The mathematical set. */
    ghost function Members(): set<int>
      reads this, state
    {
      set v | 0 <= v <= max && Has(state[..], v)
    }

    /** The empty set. */
    constructor (max: nat)
      ensures Valid() && this.max == max && fresh(state) && Members() == {}
    {
      this.max := max;
      state := new nat[max / W + 1](_ => 0);
      new;
      ZeroFits(64);
      forall v
        ensures !Has(state[..], v)
      {
        if 0 <= v {
          BitOfZero(v % W);
        }
      }
    }

    /** All values from 0 to max. */
    constructor All(max: nat)
      ensures Valid() && this.max == max && fresh(state)
      ensures forall v :: v in Members() <==> 0 <= v <= max
    {
      this.max := max;
      var pieces := max / W + 1;
      var bits: nat := W;
      var full := Not(0, bits);
      NotOfZero(bits);
      state := new nat[pieces](_ => 0);
      new;
      for i := 0 to pieces - 1
        invariant forall j :: 0 <= j < i ==> state[j] == full
      {
        state[i] := full;
      }
      state[pieces - 1] := LastPiece(max, full);
      AllBits(state[..], max, full);
    }

    method Contains(value: nat) returns (found: bool)
      requires Valid() && value <= max
      ensures found <==> value in Members()
    {
      var bit := And(state[value / W], Pow2(value % W));
      found := bit != 0;
      SingleBit(state[value / W], value % W);
    }

    /** Add returns true exactly if the set was modified. */
    method Add(value: nat) returns (modified: bool)
      requires Valid() && value <= max
      modifies state
      ensures Valid() && Members() == old(Members()) + {value}
      ensures modified <==> Members() != old(Members())
    {
      var i, mask := value / W, Pow2(value % W);
      ghost var words := state[..];
      var piece := state[i];
      SetBit(piece, value % W);
      OneBitChanged(words, max, value, Or(piece, mask), true);
      state[i] := Or(piece, mask);
      modified := piece != state[i];
      assert state[..] == words[i := state[i]];
      assert Has(words, value) <==> Bit(piece, value % W);
    }

    /** Remove returns true exactly if the set was modified. */
    method Remove(value: nat) returns (modified: bool)
      requires Valid() && value <= max
      modifies state
      ensures Valid() && Members() == old(Members()) - {value}
      ensures modified <==> Members() != old(Members())
    {
      var i, mask := value / W, Pow2(value % W);
      ghost var words := state[..];
      var piece := state[i];
      ClearBit(piece, value % W);
      OneBitChanged(words, max, value, And(piece, Not(mask, 64)), false);
      state[i] := And(piece, Not(mask, 64));
      modified := piece != state[i];
      assert state[..] == words[i := state[i]];
      assert Has(words, value) <==> Bit(piece, value % W);
    }

    /** The number of elements. */
    method Count() returns (n: nat)
      requires Valid()
      ensures n == |Members()|
    {
      n := 0;
      for i := 0 to state.Length
        invariant n == OnesSum(state[..], i)
      {
        n := n + Ones(state[i]);
      }
      var last := state.Length - 1;
      BelowCardinality(state[..], last, W);
      OnesAreBelow(state[..][last], W);
      assert Below(state[..], W * last + W) == Members();
    }

    /** The first element at or after pos, or max + 1. */
    method SkipUnset(from: nat) returns (pos: nat)
      requires Valid() && from <= max + 1
      ensures from <= pos <= max + 1
      ensures pos <= max ==> pos in Members()
      ensures forall v :: from <= v < pos ==> v !in Members()
    {
      pos := from;
      while pos <= max
        invariant from <= pos
        invariant forall v :: from <= v < pos ==> !Has(state[..], v)
        decreases max + 1 - pos
      {
        assert state[..][pos / W] == state[pos / W];
        var rest := Shr(state[pos / W], pos % W);
        if rest != 0 {
          NextInWord(state[..], pos);
          return pos + TrailingZeros(rest);
        }
        forall v | pos <= v < (pos / W + 1) * W
          ensures !Has(state[..], v)
        {
          RestOfWordIsEmpty(state[..], pos, v);
        }
        pos := (pos + W) / W * W;
      }
      return max + 1;
    }

    /** The iteration from begin() to end(): every element once, in ascending
        order, count() of them. */
    method Visit() returns (visited: seq<nat>)
      requires Valid()
      ensures forall j, k :: 0 <= j < k < |visited| ==> visited[j] < visited[k]
      ensures forall v: int :: v in Members() <==> v in visited
      ensures |visited| == |Members()|
    {
      visited := [];
      var pos := SkipUnset(0);
      while pos != max + 1
        invariant pos <= max + 1 && (pos <= max ==> pos in Members())
        invariant forall j, k :: 0 <= j < k < |visited| ==> visited[j] < visited[k]
        invariant forall k :: 0 <= k < |visited| ==> visited[k] < pos
        invariant forall v: int :: v in visited <==> v in Members() && v < pos
        decreases max + 1 - pos
      {
        visited := visited + [pos];
        if pos < max {
          pos := SkipUnset(pos + 1);
        } else {
          pos := max + 1;
        }
      }
      DistinctElements(visited);
      assert Elements(visited) == Members();
    }

    method Empty() returns (empty: bool)
      requires Valid()
      ensures empty <==> Members() == {}
    {
      for i := 0 to state.Length
        invariant forall j :: 0 <= j < i ==> state[j] == 0
      {
        if state[i] != 0 {
          assert state[..][i] == state[i] && IsWord(state[i]);
          LowestBit(state[i], 64);
          var v := W * i + TrailingZeros(state[i]);
          WordIndex(i, TrailingZeros(state[i]));
          assert Has(state[..], v);
          assert v in Members();
          return false;
        }
      }
      forall v | 0 <= v <= max
        ensures !Has(state[..], v)
      {
        BitOfZero(v % W);
      }
      return true;
    }
  }

  lemma SetBit(w: nat, k: nat)
    requires IsWord(w) && k < W
    ensures IsWord(Or(w, Pow2(k))) && (Or(w, Pow2(k)) == w <==> Bit(w, k))
    ensures forall j :: 0 <= j < W ==> (Bit(Or(w, Pow2(k)), j) <==> j == k || Bit(w, j))
  {
    PowersFit(k, 64);
    WordOps(w, Pow2(k), 64);
    forall j | 0 <= j < W
      ensures Bit(Or(w, Pow2(k)), j) <==> j == k || Bit(w, j)
    {
      BitOfOr(w, Pow2(k), j);
      BitOfPow2(k, j);
    }
    if Bit(w, k) {
      BitsDetermine(Or(w, Pow2(k)), w, 64);
    }
  }

  lemma ClearBit(w: nat, k: nat)
    requires IsWord(w) && k < W
    ensures var r := And(w, Not(Pow2(k), 64));
            && IsWord(r) && (r == w <==> !Bit(w, k))
            && forall j :: 0 <= j < W ==> (Bit(r, j) <==> j != k && Bit(w, j))
  {
    var mask := Not(Pow2(k), 64);
    PowersFit(k, 64);
    WordOps(Pow2(k), Pow2(k), 64);
    WordOps(w, mask, 64);
    forall j | 0 <= j < W
      ensures Bit(And(w, mask), j) <==> j != k && Bit(w, j)
    {
      BitOfAnd(w, mask, j);
      BitOfNot(Pow2(k), 64, j);
      BitOfPow2(k, j);
    }
    if !Bit(w, k) {
      BitsDetermine(And(w, mask), w, 64);
    }
  }

  /** Masking one bit leaves 0 exactly if the bit is 0. */
  lemma SingleBit(w: nat, k: nat)
    ensures And(w, Pow2(k)) != 0 <==> Bit(w, k)
  {
    BitOfAnd(w, Pow2(k), k);
    BitOfPow2(k, k);
    BitOfZero(k);
    if And(w, Pow2(k)) != 0 && !Bit(w, k) {
      AndNeedsCommonBit(w, Pow2(k));
      var j: nat :| Bit(w, j) && Bit(Pow2(k), j);
      BitOfPow2(k, j);
    }
  }

  lemma {:induction false} AndNeedsCommonBit(a: nat, b: nat)
    requires And(a, b) != 0
    ensures exists j: nat :: Bit(a, j) && Bit(b, j)
  {
    if a % 2 == 1 && b % 2 == 1 {
      assert Bit(a, 0) && Bit(b, 0);
    } else {
      AndNeedsCommonBit(a / 2, b / 2);
      var j: nat :| Bit(a / 2, j) && Bit(b / 2, j);
      assert Bit(a, j + 1) && Bit(b, j + 1);
    }
  }
}
