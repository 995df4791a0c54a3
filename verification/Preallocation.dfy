/** Preallocation of file space in whole blocks. Sizes are 64-bit unsigned. */
module Preallocation {
  import opened KeyCodec

  /** A call Allocate(offset, len). */
  datatype Range = Range(offset: U64, len: U64)

  /** A call PrepareWrite(offset, len). */
  datatype Write = Write(offset: U64, len: U64)

  predicate In(r: Range, x: int) {
    r.offset <= x < r.offset + r.len
  }

  /** Each range begins where the one before it ends, from 0 up to `end`, and
      none is empty. */
  predicate Tiles(rs: seq<Range>, end: nat) {
    if rs == [] then end == 0
    else
      var r := rs[|rs| - 1];
      r.len > 0 && r.offset + r.len == end && Tiles(rs[..|rs| - 1], r.offset)
  }

  lemma {:induction false} TilesStayBelow(rs: seq<Range>, end: nat, i: nat)
    requires Tiles(rs, end) && i < |rs|
    ensures rs[i].offset + rs[i].len <= end
  {
    if i < |rs| - 1 {
      TilesStayBelow(rs[..|rs| - 1], rs[|rs| - 1].offset, i);
    }
  }

  /** The ranges are pairwise disjoint. */
  lemma {:induction false} TilesAreDisjoint(rs: seq<Range>, end: nat, i: nat, j: nat, x: int)
    requires Tiles(rs, end) && i < j < |rs|
    ensures !(In(rs[i], x) && In(rs[j], x))
  {
    if j == |rs| - 1 {
      TilesStayBelow(rs[..j], rs[j].offset, i);
    } else {
      TilesAreDisjoint(rs[..|rs| - 1], rs[|rs| - 1].offset, i, j, x);
    }
  }

  /** Their union is [0, end). */
  lemma {:induction false} TilesCover(rs: seq<Range>, end: nat, x: int)
    requires Tiles(rs, end)
    ensures 0 <= x < end <==> exists i :: 0 <= i < |rs| && In(rs[i], x)
  {
    if rs != [] {
      var n := |rs| - 1;
      TilesCover(rs[..n], rs[n].offset, x);
      if 0 <= x < end {
        if x >= rs[n].offset {
          assert In(rs[n], x);
        } else {
          var i :| 0 <= i < n && In(rs[..n][i], x);
          assert In(rs[i], x);
        }
      } else if exists i :: 0 <= i < |rs| && In(rs[i], x) {
        var i :| 0 <= i < |rs| && In(rs[i], x);
        TilesStayBelow(rs, end, i);
      }
    }
  }

  /** The last block a write calls for, as the program computes it. */
  function LastBlock(size: U64, w: Write): (n: U64)
    requires size > 0
  {
    (w.offset + w.len + size - 1) % M / size
  }

  /** The sum does not overflow. */
  predicate Representable(size: U64, w: Write) {
    w.offset + w.len + size - 1 < M
  }

  /** The write ends within the first n blocks. */
  predicate Covered(size: U64, n: int, w: Write) {
    w.offset + w.len <= size * n
  }

  /** a * b in 64 bits */
  function Mul64(a: nat, b: nat): U64 {
    if a * b < M then a * b else a * b % M
  }

  lemma WholeBlocks(size: nat, total: nat)
    requires size > 0
    ensures var n := total / size; size * n <= total < size * n + size
  {
  }

  /** Without overflow that is the smallest number of blocks that covers the
      write; with it, too small a number. */
  lemma LastBlockIsLeast(size: U64, w: Write)
    requires size > 0
    ensures size * LastBlock(size, w) < M
    ensures Covered(size, LastBlock(size, w), w) <==> Representable(size, w)
    ensures !Covered(size, LastBlock(size, w) - 1, w)
  {
    WholeBlocks(size, (w.offset + w.len + size - 1) % M);
    var n: int := LastBlock(size, w);
    assert size * (n - 1) == size * n - size;
  }

  /** Coverage grows with the number of blocks. */
  lemma CoveredByMore(size: U64, a: int, b: int, w: Write)
    requires a <= b && Covered(size, a, w)
    ensures Covered(size, b, w)
  {
    assert size * a <= size * b;
  }

  /** For instance, with blocks of 2 bytes the sum for the last byte of the range
      overflows: no block is allocated for it. */
  lemma OverflowExample()
    ensures var w := Write(M - 1, 1); !Representable(2, w) && LastBlock(2, w) == 0 && !Covered(2, LastBlock(2, w), w)
  {
  }

  /** The blocks that a sequence of writes calls for. */
  function Blocks(size: U64, ws: seq<Write>): (n: U64)
    requires size > 0
  {
    if ws == [] then 0
    else
      var before, needed := Blocks(size, ws[..|ws| - 1]), LastBlock(size, ws[|ws| - 1]);
      if needed > before then needed else before
  }

  /** That is the greatest of them. */
  lemma {:induction false} BlocksIsGreatest(size: U64, ws: seq<Write>)
    requires size > 0
    ensures forall w :: w in ws ==> LastBlock(size, w) <= Blocks(size, ws)
    ensures Blocks(size, ws) == 0 || exists w :: w in ws && LastBlock(size, w) == Blocks(size, ws)
  {
    if ws != [] {
      var before := ws[..|ws| - 1];
      BlocksIsGreatest(size, before);
      assert ws == before + [ws[|ws| - 1]];
      assert ws[|ws| - 1] in ws;
    }
  }

  /** Neither the order nor the repetition of writes matters. */
  lemma SameWritesSameBlocks(size: U64, ws: seq<Write>, ws': seq<Write>)
    requires size > 0 && forall w :: w in ws <==> w in ws'
    ensures Blocks(size, ws) == Blocks(size, ws')
  {
    BlocksIsGreatest(size, ws);
    BlocksIsGreatest(size, ws');
  }

  class WritableFile {
    const preallocationBlockSize: U64
    var lastPreallocatedBlock: U64
    /** The calls to Allocate, in order. */
    var calls: seq<Range>

    /** The Allocate calls tile the file exactly up to the last block. */
    ghost predicate Valid()
      reads this
    {
      && preallocationBlockSize * lastPreallocatedBlock < M
      && Tiles(calls, preallocationBlockSize * lastPreallocatedBlock)
    }

    constructor (size: U64)
      ensures Valid() && preallocationBlockSize == size && lastPreallocatedBlock == 0 && calls == []
    {
      preallocationBlockSize := size;
      lastPreallocatedBlock := 0;
      calls := [];
    }

    /** The write is covered afterwards unless the sum overflows and it was not
        covered before; no block is allocated beyond those it needs. */
    method PrepareWrite(w: Write)
      requires Valid()
      modifies this
      ensures Valid()
      ensures preallocationBlockSize == 0 ==> unchanged(this)
      ensures preallocationBlockSize > 0 ==>
                var size, before := preallocationBlockSize, old(lastPreallocatedBlock);
                && lastPreallocatedBlock == (if LastBlock(size, w) > before then LastBlock(size, w) else before)
                && (Covered(size, lastPreallocatedBlock, w) <==> Representable(size, w) || Covered(size, before, w))
                && (lastPreallocatedBlock > before && Representable(size, w) ==>
                      !Covered(size, lastPreallocatedBlock - 1, w))
      ensures |old(calls)| <= |calls| && calls[..|old(calls)|] == old(calls)
    {
      if preallocationBlockSize == 0 {
        return;
      }
      var size := preallocationBlockSize;
      var newLast := LastBlock(size, w);
      LastBlockIsLeast(size, w);
      if newLast > lastPreallocatedBlock {
        var spanned := newLast - lastPreallocatedBlock;
        SpannedBlocks(size, lastPreallocatedBlock, newLast);
        ghost var before := calls;
        calls := calls + [Range(Mul64(size, lastPreallocatedBlock), Mul64(size, spanned))];
        assert calls[..|before|] == before;
        lastPreallocatedBlock := newLast;
      } else if Covered(size, newLast, w) {
        CoveredByMore(size, newLast, lastPreallocatedBlock, w);
      }
      if Covered(size, old(lastPreallocatedBlock), w) {
        CoveredByMore(size, old(lastPreallocatedBlock), lastPreallocatedBlock, w);
      }
    }

    /** Any sequence of calls on a new file. */
    method PrepareWrites(ws: seq<Write>)
      requires Valid() && preallocationBlockSize > 0 && lastPreallocatedBlock == 0
      modifies this
      ensures Valid() && lastPreallocatedBlock == Blocks(preallocationBlockSize, ws)
      ensures forall w :: w in ws && Representable(preallocationBlockSize, w) ==>
                Covered(preallocationBlockSize, lastPreallocatedBlock, w)
    {
      var size := preallocationBlockSize;
      for i := 0 to |ws|
        invariant Valid() && lastPreallocatedBlock == Blocks(size, ws[..i])
      {
        PrepareWrite(ws[i]);
        assert ws[..i + 1][..i] == ws[..i];
      }
      assert ws[..|ws|] == ws;
      BlocksIsGreatest(size, ws);
      forall w | w in ws && Representable(size, w)
        ensures Covered(size, lastPreallocatedBlock, w)
      {
        LastBlockIsLeast(size, w);
        CoveredByMore(size, LastBlock(size, w), lastPreallocatedBlock, w);
      }
    }
  }

  lemma SpannedBlocks(size: nat, a: nat, b: nat)
    requires 0 < size && a < b && size * b < M
    ensures 0 <= size * a < M && 0 < size * (b - a) < M && size * a + size * (b - a) == size * b
  {
    assert size * a + size * (b - a) == size * b;
    assert size * (b - a) > 0;
  }
}
