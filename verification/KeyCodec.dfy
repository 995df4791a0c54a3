/** The eight-byte key format of the queue: `putU64BE` and `getU64BE`, and the
    unsigned bytewise order in which the store sorts its keys. */
module KeyCodec {

  const M: int := 0x1_0000_0000_0000_0000

  type U64 = x: int | 0 <= x < M
  type Byte = x: int | 0 <= x < 256
  type Bytes = seq<Byte>

  /** 256 to the power n. */
  function Pow256(n: nat): (r: nat)
    ensures r >= 1
  {
    if n == 0 then 1 else 256 * Pow256(n - 1)
  }

  /** The memory image of an n-byte unsigned integer on a little-endian machine. */
  function LittleEndian(x: nat, n: nat): (s: Bytes)
    ensures |s| == n
  {
    if n == 0 then [] else [x % 256] + LittleEndian(x / 256, n - 1)
  }

  /** The unsigned integer whose little-endian memory image is s. */
  function FromLittleEndian(s: Bytes): (x: nat)
    ensures x < Pow256(|s|)
  {
    if s == [] then 0 else s[0] + 256 * FromLittleEndian(s[1..])
  }

  function Reverse(s: Bytes): (r: Bytes)
    ensures |r| == |s|
  {
    if s == [] then [] else Reverse(s[1..]) + [s[0]]
  }

  /** The n big-endian digits of x. */
  function BigEndian(x: nat, n: nat): (s: Bytes)
    ensures |s| == n
  {
    if n == 0 then [] else BigEndian(x / 256, n - 1) + [x % 256]
  }

  /** The key of a number. */
  function KeyOf(x: U64): (key: Bytes)
    ensures |key| == 8
  {
    BigEndian(x, 8)
  }

  lemma {:induction false} BigEndianIsReversed(x: nat, n: nat)
    ensures BigEndian(x, n) == Reverse(LittleEndian(x, n))
  {
    if n > 0 {
      BigEndianIsReversed(x / 256, n - 1);
      assert LittleEndian(x, n)[1..] == LittleEndian(x / 256, n - 1);
    }
  }

  lemma Pow256Eight()
    ensures Pow256(8) == M
  {
    assert Pow256(2) == 256 * 256;
    assert Pow256(4) == 256 * 256 * 256 * 256;
    assert Pow256(6) == 256 * 256 * Pow256(4);
    assert Pow256(8) == 256 * 256 * Pow256(6);
  }

  /** The machine's byte swap: the same bytes, read in the opposite order. */
  function ByteSwap(x: U64): (r: U64)
  {
    Pow256Eight();
    FromLittleEndian(Reverse(LittleEndian(x, 8)))
  }

  /** Copies the byte-swapped integer into an eight-byte buffer. */
  function PutU64BE(x: U64): (key: Bytes)
    ensures |key| == 8
  {
    LittleEndian(ByteSwap(x), 8)
  }

  /** Copies eight bytes into an integer and swaps it back. */
  function GetU64BE(key: Bytes): (x: U64)
    requires |key| == 8
  {
    Pow256Eight();
    ByteSwap(FromLittleEndian(key))
  }

  lemma {:induction false} LittleEndianThere(x: nat, n: nat)
    requires x < Pow256(n)
    ensures FromLittleEndian(LittleEndian(x, n)) == x
  {
    if n > 0 {
      LittleEndianThere(x / 256, n - 1);
      assert LittleEndian(x, n)[1..] == LittleEndian(x / 256, n - 1);
    }
  }

  lemma {:induction false} LittleEndianBack(s: Bytes)
    ensures LittleEndian(FromLittleEndian(s), |s|) == s
  {
    if s != [] {
      LittleEndianBack(s[1..]);
      assert FromLittleEndian(s) / 256 == FromLittleEndian(s[1..]);
    }
  }

  lemma {:induction false} ReverseAppend(s: Bytes, b: Byte)
    ensures Reverse(s + [b]) == [b] + Reverse(s)
  {
    if s == [] {
      assert s + [b] == [b];
    } else {
      ReverseAppend(s[1..], b);
      assert (s + [b])[1..] == s[1..] + [b];
    }
  }

  lemma {:induction false} ReverseTwice(s: Bytes)
    ensures Reverse(Reverse(s)) == s
  {
    if s != [] {
      ReverseAppend(Reverse(s[1..]), s[0]);
      ReverseTwice(s[1..]);
    }
  }

  /** The stored key is the big-endian digit string of the number. */
  lemma PutIsBigEndian(x: U64)
    ensures PutU64BE(x) == KeyOf(x)
  {
    LittleEndianBack(Reverse(LittleEndian(x, 8)));
    BigEndianIsReversed(x, 8);
  }

  /** Different numbers have different keys. */
  lemma KeyIsInjective(x: U64, y: U64)
    ensures KeyOf(x) == KeyOf(y) <==> x == y
  {
    PutIsBigEndian(x);
    PutIsBigEndian(y);
    DecodeEncode(x);
    DecodeEncode(y);
  }

  /** Every eight-byte string is the key of the number it decodes to. */
  lemma KeyOfDecoded(key: Bytes)
    requires |key| == 8
    ensures KeyOf(GetU64BE(key)) == key
  {
    PutIsBigEndian(GetU64BE(key));
    EncodeDecode(key);
  }

  lemma ByteSwapTwice(x: U64)
    ensures ByteSwap(ByteSwap(x)) == x
  {
    Pow256Eight();
    var s := LittleEndian(x, 8);
    LittleEndianBack(Reverse(s));
    ReverseTwice(s);
    LittleEndianThere(x, 8);
  }

  /** Decoding undoes encoding, for every 64-bit number. */
  lemma DecodeEncode(x: U64)
    ensures GetU64BE(PutU64BE(x)) == x
  {
    Pow256Eight();
    LittleEndianThere(ByteSwap(x), 8);
    ByteSwapTwice(x);
  }

  /** Encoding undoes decoding, for every eight-byte key. */
  lemma EncodeDecode(key: Bytes)
    requires |key| == 8
    ensures PutU64BE(GetU64BE(key)) == key
  {
    Pow256Eight();
    ByteSwapTwice(FromLittleEndian(key));
    LittleEndianBack(key);
  }

  /** Unsigned lexicographic order; a proper prefix comes first. */
  predicate Less(a: Bytes, b: Bytes)
  {
    b != [] && (a == [] || a[0] < b[0] || (a[0] == b[0] && Less(a[1..], b[1..])))
  }

  /** A key comes before its proper extensions. */
  lemma {:induction false} PrefixIsLess(a: Bytes, s: Bytes)
    requires s != []
    ensures Less(a, a + s) && !Less(a + s, a)
  {
    if a != [] {
      PrefixIsLess(a[1..], s);
      assert (a + s)[1..] == a[1..] + s;
    }
  }

  /** Otherwise the first byte in which two keys differ decides, whatever follows. */
  lemma {:induction false} FirstDifferenceDecides(a: Bytes, x: Byte, s: Bytes, y: Byte, t: Bytes)
    requires x != y
    ensures Less(a + [x] + s, a + [y] + t) <==> x < y
  {
    if a == [] {
      assert ([] + [x] + s)[0] == x && ([] + [y] + t)[0] == y;
    } else {
      FirstDifferenceDecides(a[1..], x, s, y, t);
      assert (a + [x] + s)[1..] == a[1..] + [x] + s && (a + [y] + t)[1..] == a[1..] + [y] + t;
    }
  }

  lemma {:induction false} LessIsTotal(a: Bytes, b: Bytes)
    ensures Less(a, b) || a == b || Less(b, a)
  {
    if a != [] && b != [] && a[0] == b[0] {
      LessIsTotal(a[1..], b[1..]);
      assert a == [a[0]] + a[1..] && b == [b[0]] + b[1..];
    }
  }

  lemma {:induction false} LessIsIrreflexive(a: Bytes)
    ensures !Less(a, a)
  {
    if a != [] {
      LessIsIrreflexive(a[1..]);
    }
  }

  lemma {:induction false} LessIsTransitive(a: Bytes, b: Bytes, c: Bytes)
    requires Less(a, b) && Less(b, c)
    ensures Less(a, c)
  {
    if a != [] && a[0] == b[0] == c[0] {
      LessIsTransitive(a[1..], b[1..], c[1..]);
    }
  }

  lemma {:induction false} LessAppend(a: Bytes, b: Bytes, x: Byte, y: Byte)
    requires |a| == |b|
    ensures Less(a + [x], b + [y]) <==> Less(a, b) || (a == b && x < y)
  {
    if a != [] {
      LessAppend(a[1..], b[1..], x, y);
      assert (a + [x])[1..] == a[1..] + [x] && (b + [y])[1..] == b[1..] + [y];
      assert a[0] == b[0] ==> (a == b <==> a[1..] == b[1..]) by {
        assert a == [a[0]] + a[1..] && b == [b[0]] + b[1..];
      }
    }
  }

  lemma {:induction false} DigitOrder(x: nat, y: nat, n: nat)
    requires x < Pow256(n) && y < Pow256(n)
    ensures x < y <==> Less(BigEndian(x, n), BigEndian(y, n))
    ensures x == y <==> BigEndian(x, n) == BigEndian(y, n)
  {
    if n > 0 {
      DigitOrder(x / 256, y / 256, n - 1);
      var a, b := BigEndian(x / 256, n - 1), BigEndian(y / 256, n - 1);
      LessAppend(a, b, x % 256, y % 256);
      if a + [x % 256] == b + [y % 256] {
        assert (a + [x % 256])[..n - 1] == a && (b + [y % 256])[..n - 1] == b;
        assert (a + [x % 256])[n - 1] == (b + [y % 256])[n - 1];
      }
    }
  }

  /** The store's bytewise order on encoded keys is the numeric order. */
  lemma OrderIsNumeric(x: U64, y: U64)
    ensures x < y <==> Less(KeyOf(x), KeyOf(y))
  {
    Pow256Eight();
    DigitOrder(x, y, 8);
  }
}
