/**
 Bytes, byte strings, the fixed-width integers that the wire formats use, and Option.
 */
module Bytes {

  datatype Option<+T> = None | Some(value: T)

  type Byte = x: int | 0 <= x < 256

  /** What one Read call hands over: Go's readers return at least one byte or an error. */
  type Chunk = c: seq<Byte> | 0 < |c| witness [0]

  const U16: int := 0x1_0000
  const U32: int := 0x1_0000_0000
  const U64: int := 0x1_0000_0000_0000_0000

  /** The bytes of an ASCII literal. */
  function Ascii(s: string): (r: seq<Byte>)
    ensures |r| == |s|
  {
    seq(|s|, i requires 0 <= i < |s| => s[i] as int % 256)
  }

  /** The decimal digits of a number, as fmt's %d prints them. */
  function Decimal(n: nat): (r: seq<Byte>)
    ensures 0 < |r| && forall d :: d in r ==> 48 <= d <= 57
  {
    if n < 10 then [48 + n] else Decimal(n / 10) + [48 + n % 10]
  }

  /** The code points that Unicode calls white space: what TrimSpace is for. */
  const SPACES: set<int> :=
    {9, 10, 11, 12, 13, 32, 0x85, 0xA0, 0x1680,
     0x2000, 0x2001, 0x2002, 0x2003, 0x2004, 0x2005, 0x2006, 0x2007, 0x2008, 0x2009, 0x200A,
     0x2028, 0x2029, 0x202F, 0x205F, 0x3000}

  /** UTF-8, section 3 of RFC 3629, of a code point of at most sixteen bits. */
  function Utf8(u: int): seq<Byte>
    requires 0 <= u < U16
  {
    if u < 0x80 then [u]
    else if u < 0x800 then [0xC0 + u / 64, 0x80 + u % 64]
    else [0xE0 + u / 4096, 0x80 + u / 64 % 64, 0x80 + u % 64]
  }

  function Zeros(n: nat): (r: seq<Byte>)
    ensures |r| == n && forall i :: 0 <= i < n ==> r[i] == 0
  {
    seq(n, _ => 0)
  }

  function Concat<T>(parts: seq<seq<T>>): seq<T> {
    if parts == [] then [] else parts[0] + Concat(parts[1..])
  }

  lemma {:induction false} ConcatSplit<T>(a: seq<seq<T>>, b: seq<seq<T>>)
    ensures Concat(a + b) == Concat(a) + Concat(b)
  {
    if a == [] {
      assert a + b == b;
    } else {
      assert (a + b)[1..] == a[1..] + b;
      ConcatSplit(a[1..], b);
    }
  }

  lemma ConcatSnoc<T>(a: seq<seq<T>>, x: seq<T>)
    ensures Concat(a + [x]) == Concat(a) + x
  {
    ConcatSplit(a, [x]);
    assert Concat([x]) == x;
  }

  // ---------- fixed-width integers ----------

  function Be16(v: int): seq<Byte>
    requires 0 <= v < U16
  {
    [v / 256, v % 256]
  }

  function Be32(v: int): seq<Byte>
    requires 0 <= v < U32
  {
    Be16(v / U16) + Be16(v % U16)
  }

  function GetBe16(b: seq<Byte>): (v: int)
    requires 2 <= |b|
    ensures 0 <= v < U16
  {
    (b[0] as int) * 256 + b[1] as int
  }

  function GetBe32(b: seq<Byte>): (v: int)
    requires 4 <= |b|
    ensures 0 <= v < U32
  {
    GetBe16(b) * U16 + GetBe16(b[2..])
  }

  function Le16(v: int): seq<Byte>
    requires 0 <= v < U16
  {
    [v % 256, v / 256]
  }

  function Le32(v: int): seq<Byte>
    requires 0 <= v < U32
  {
    Le16(v % U16) + Le16(v / U16)
  }

  function GetLe16(b: seq<Byte>): (v: int)
    requires 2 <= |b|
    ensures 0 <= v < U16
  {
    (b[0] as int) + (b[1] as int) * 256
  }

  function GetLe32(b: seq<Byte>): (v: int)
    requires 4 <= |b|
    ensures 0 <= v < U32
  {
    GetLe16(b) + GetLe16(b[2..]) * U16
  }

  /** int32(u): the two's complement reading of a 32-bit word. */
  function Signed(u: int): (v: int)
    requires 0 <= u < U32
    ensures -U32 / 2 <= v < U32 / 2
  {
    if u < U32 / 2 then u else u - U32
  }

  /** uint32(v) for an int32. */
  function Unsigned(v: int): (u: int)
    requires -U32 / 2 <= v < U32 / 2
    ensures 0 <= u < U32 && Signed(u) == v
  {
    if v < 0 then v + U32 else v
  }

  lemma Be16RoundTrip(v: int, tail: seq<Byte>)
    requires 0 <= v < U16
    ensures |Be16(v)| == 2 && GetBe16(Be16(v) + tail) == v
  {
  }

  lemma Be32RoundTrip(v: int, tail: seq<Byte>)
    requires 0 <= v < U32
    ensures |Be32(v)| == 4 && GetBe32(Be32(v) + tail) == v
  {
    var b := Be32(v) + tail;
    assert b == Be16(v / U16) + (Be16(v % U16) + tail);
    assert b[2..] == Be16(v % U16) + tail;
    Be16RoundTrip(v / U16, Be16(v % U16) + tail);
    Be16RoundTrip(v % U16, tail);
  }

  lemma Le32RoundTrip(v: int, tail: seq<Byte>)
    requires 0 <= v < U32
    ensures |Le32(v)| == 4 && GetLe32(Le32(v) + tail) == v
  {
    var b := Le32(v) + tail;
    assert b[0] == v % U16 % 256 && b[1] == v % U16 / 256;
    assert b[2..][0] == v / U16 % 256 && b[2..][1] == v / U16 / 256;
  }
}
