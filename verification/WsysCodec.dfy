/**
 The wsysmsg records of the draw service: sizes, the in-place encoder of
 replies, the bounded decoder of requests, and the framing on the connection.
 */
module WsysCodec {
  import opened Bytes

  const RERROR: Byte := 1
  const TRDMOUSE: Byte := 2
  const RRDMOUSE: Byte := 3
  const TMOVETO: Byte := 4
  const RMOVETO: Byte := 5
  const TBOUNCEMOUSE: Byte := 8
  const RBOUNCEMOUSE: Byte := 9
  const TRDKBD: Byte := 10
  const RRDKBD: Byte := 11
  const TINIT: Byte := 14
  const RINIT: Byte := 15
  const TRDDRAW: Byte := 20
  const RRDDRAW: Byte := 21
  const TTOP: Byte := 24

  type Int32 = v: int | -U32 / 2 <= v < U32 / 2
  type Word = v: int | 0 <= v < U32

  datatype M = M(
    t: Byte, tag: Byte,
    x: Int32, y: Int32, b: Int32, ms: Word,
    r: Int32,
    n: Word, d: seq<Byte>,
    ws: seq<Byte>, lbl: seq<Byte>)

  const BLANK: M := M(0, 0, 0, 0, 0, 0, 0, 0, [], [], [])

  // ---------- strings ----------

  /** The form pstr writes: a 16-bit length, which wraps, then all the bytes. */
  function PutStr(s: seq<Byte>): seq<Byte> { Be16(|s| % U16) + s }

  /** gstr: the string at offset o, cut off at the end of b, and the offset after it. */
  function GetStr(b: seq<Byte>, o: nat): (r: (nat, seq<Byte>))
    requires o <= |b|
    ensures o <= r.0 <= |b| && |r.1| <= r.0 - o
  {
    if |b| < o + 2 then (o, [])
    else
      var len := GetBe16(b[o..]);
      var from := o + 2;
      var n := if |b| < from + len then |b| - from else len;
      (from + n, b[from..from + n])
  }

  /** Reading back a string that pstr wrote works exactly for strings under 65536 bytes. */
  lemma StrRoundTrip(before: seq<Byte>, s: seq<Byte>, after: seq<Byte>)
    ensures GetStr(before + PutStr(s) + after, |before|) == (|before| + 2 + |s|, s) <==> |s| < U16
  {
    var b := before + PutStr(s) + after;
    var o := |before|;
    assert b[o..] == Be16(|s| % U16) + (s + after);
    Be16RoundTrip(|s| % U16, s + after);
    assert b[o + 2..] == s + after;
    if |s| < U16 {
      assert b[o + 2..o + 2 + |s|] == s;
    }
  }

  // ---------- replies ----------

  /** What the encoder relies on when it slices the pixel data. */
  predicate Whole(m: M) { m.t == RRDDRAW ==> m.n <= |m.d| }

  function Size(m: M): (n: nat) {
    if m.t == RRDMOUSE then 2 + 17
    else if m.t == RRDKBD then 2 + 2
    else if m.t == RRDDRAW then 2 + 4 + m.n
    else if m.t == RERROR then 2 + 2 + |m.lbl|
    else 2
  }

  function Payload(m: M): seq<Byte>
    requires Whole(m)
  {
    if m.t == RRDMOUSE then Be32(Unsigned(m.x)) + Be32(Unsigned(m.y)) + Be32(Unsigned(m.b)) + Be32(m.ms) + [0]
    else if m.t == RRDKBD then Be16(m.r % U16)
    else if m.t == RRDDRAW then Be32(m.n) + m.d[..m.n]
    else if m.t == RERROR then PutStr(m.lbl)
    else []
  }

  function Encode(m: M): seq<Byte>
    requires Whole(m)
  {
    [m.t, m.tag] + Payload(m)
  }

  lemma SizeIsLength(m: M)
    requires Whole(m)
    ensures |Encode(m)| == Size(m)
  {
  }

  /** s with the bytes at position at overwritten by p. */
  function Splice(s: seq<Byte>, at: nat, p: seq<Byte>): (r: seq<Byte>)
    requires at + |p| <= |s|
    ensures |r| == |s|
  {
    s[..at] + p + s[at + |p|..]
  }

  lemma SpliceNext(s: seq<Byte>, at: nat, p: seq<Byte>, q: seq<Byte>)
    requires at + |p| + |q| <= |s|
    ensures Splice(Splice(s, at, p), at + |p|, q) == Splice(s, at, p + q)
  {
    var r := Splice(s, at, p);
    assert r[..at + |p|] == s[..at] + p;
    assert r[at + |p| + |q|..] == s[at + |p| + |q|..];
  }

  method Copy(buf: array<Byte>, at: nat, p: seq<Byte>)
    requires at + |p| <= buf.Length
    modifies buf
    ensures buf[..] == Splice(old(buf[..]), at, p)
  {
    forall i | 0 <= i < |p| {
      buf[at + i] := p[i];
    }
  }

  method PStr(buf: array<Byte>, at: nat, s: seq<Byte>) returns (n: nat)
    requires at + 2 + |s| <= buf.Length
    modifies buf
    ensures n == 2 + |s| && buf[..] == Splice(old(buf[..]), at, PutStr(s))
  {
    ghost var was := buf[..];
    Copy(buf, at, Be16(|s| % U16));
    Copy(buf, at + 2, s);
    SpliceNext(was, at, Be16(|s| % U16), s);
    n := 2 + |s|;
  }

  /** wenc: writes m at position at, exactly Size(m) bytes, and touches nothing else. */
  method Wenc(m: M, buf: array<Byte>, at: nat) returns (n: nat)
    requires Whole(m) && at + Size(m) <= buf.Length
    modifies buf
    ensures n == Size(m) && buf[..] == Splice(old(buf[..]), at, Encode(m))
  {
    hide Splice, Be32, Be16;
    ghost var was := buf[..];
    SizeIsLength(m);
    ghost var done: seq<Byte> := [m.t, m.tag];
    Copy(buf, at, [m.t, m.tag]);
    n := 2;
    if m.t == RRDMOUSE {
      n, done := Put32(buf, at, n, Unsigned(m.x), was, done);
      n, done := Put32(buf, at, n, Unsigned(m.y), was, done);
      n, done := Put32(buf, at, n, Unsigned(m.b), was, done);
      n, done := Put32(buf, at, n, m.ms, was, done);
      Copy(buf, at + n, [0]);
      SpliceNext(was, at, done, [0]);
      done := done + [0];
      n := n + 1;
    } else if m.t == RRDKBD {
      Copy(buf, at + n, Be16(m.r % U16));
      SpliceNext(was, at, done, Be16(m.r % U16));
      done := done + Be16(m.r % U16);
      n := n + 2;
    } else if m.t == RRDDRAW {
      n, done := Put32(buf, at, n, m.n, was, done);
      Copy(buf, at + n, m.d[..m.n]);
      SpliceNext(was, at, done, m.d[..m.n]);
      done := done + m.d[..m.n];
      n := n + m.n;
    } else if m.t == RERROR {
      SpliceNext(was, at, done, PutStr(m.lbl));
      var k := PStr(buf, at + n, m.lbl);
      done := done + PutStr(m.lbl);
      n := n + k;
    }
    assert done == Encode(m);
  }

  /** One 32-bit field, n bytes into a record that starts at position at. */
  method Put32(buf: array<Byte>, at: nat, n: nat, v: Word, ghost was: seq<Byte>, ghost done: seq<Byte>)
    returns (n': nat, ghost done': seq<Byte>)
    requires |was| == buf.Length && |done| == n && at + n + 4 <= buf.Length
    requires buf[..] == Splice(was, at, done)
    modifies buf
    ensures done' == done + Be32(v) && |done'| == n' == n + 4 && buf[..] == Splice(was, at, done')
  {
    Copy(buf, at + n, Be32(v));
    SpliceNext(was, at, done, Be32(v));
    n', done' := n + 4, done + Be32(v);
  }

  // ---------- the reader at the other end ----------

  /** The fields that a reply of m's type carries; the keyboard rune travels modulo 2^16. */
  function Carried(m: M): M
    requires Whole(m)
  {
    var head := BLANK.(t := m.t, tag := m.tag);
    if m.t == RRDMOUSE then head.(x := m.x, y := m.y, b := m.b, ms := m.ms)
    else if m.t == RRDKBD then head.(r := m.r % U16)
    else if m.t == RRDDRAW then head.(n := m.n, d := m.d[..m.n])
    else if m.t == RERROR then head.(lbl := m.lbl)
    else head
  }

  /** A client's reading of one reply body. */
  function DecodeReply(b: seq<Byte>): Option<M> {
    if |b| < 2 then None
    else
      var head := BLANK.(t := b[0], tag := b[1]);
      var p := b[2..];
      if b[0] == RRDMOUSE then
        if |p| != 17 then None
        else Some(head.(x := Signed(GetBe32(p)), y := Signed(GetBe32(p[4..])), b := Signed(GetBe32(p[8..])),
                        ms := GetBe32(p[12..])))
      else if b[0] == RRDKBD then if |p| != 2 then None else Some(head.(r := GetBe16(p)))
      else if b[0] == RRDDRAW then
        if |p| < 4 || |p| != 4 + GetBe32(p) then None else Some(head.(n := GetBe32(p), d := p[4..]))
      else if b[0] == RERROR then
        if |p| < 2 || |p| != 2 + GetBe16(p) then None else Some(head.(lbl := p[2..]))
      else if p == [] then Some(head) else None
  }

  lemma MouseRoundTrip(m: M)
    requires m.t == RRDMOUSE
    ensures DecodeReply(Encode(m)) == Some(Carried(m))
  {
    hide Be32, GetBe32, Payload;
    var x, y, b := Unsigned(m.x), Unsigned(m.y), Unsigned(m.b);
    var t3 := Be32(m.ms) + [0];
    var t2 := Be32(b) + t3;
    var t1 := Be32(y) + t2;
    var p := Be32(x) + t1;
    Be32RoundTrip(x, t1);
    Be32RoundTrip(y, t2);
    Be32RoundTrip(b, t3);
    Be32RoundTrip(m.ms, [0]);
    assert p[4..] == t1 && t1[4..] == t2 && t2[4..] == t3;
    assert p[8..] == t1[4..] && p[12..] == t2[4..];
    MousePayload(m);
    assert Encode(m)[2..] == p;
  }

  lemma MousePayload(m: M)
    requires m.t == RRDMOUSE
    ensures Payload(m) == Be32(Unsigned(m.x)) + (Be32(Unsigned(m.y)) + (Be32(Unsigned(m.b)) + (Be32(m.ms) + [0])))
  {
    hide Be32;
  }

  /** A reply reads back as the fields it carries, exactly when its label (if it has one) is under 65536 bytes. */
  lemma ReplyRoundTrip(m: M)
    requires Whole(m)
    ensures DecodeReply(Encode(m)) == Some(Carried(m)) <==> (m.t == RERROR ==> |m.lbl| < U16)
  {
    var p := Encode(m)[2..];
    assert p == Payload(m);
    if m.t == RRDMOUSE {
      MouseRoundTrip(m);
    } else if m.t == RRDKBD {
      Be16RoundTrip(m.r % U16, []);
      assert p == Be16(m.r % U16) + [];
    } else if m.t == RRDDRAW {
      Be32RoundTrip(m.n, m.d[..m.n]);
      assert p[4..] == m.d[..m.n];
    } else if m.t == RERROR {
      Be16RoundTrip(|m.lbl| % U16, m.lbl);
      assert p[2..] == m.lbl;
    }
  }

  // ---------- framing ----------

  /** What goes on the connection: the 32-bit size, which wraps, then the record. */
  function Frame(m: M): seq<Byte>
    requires Whole(m)
  {
    Be32(Size(m) % U32) + Encode(m)
  }

  predicate Sendable(m: M) {
    Whole(m) && (m.t == RERROR ==> |m.lbl| < U16) && Size(m) < U32
  }

  type Reply = m: M | Whole(m) witness BLANK

  function Frames(ms: seq<Reply>): (fs: seq<seq<Byte>>)
    ensures |fs| == |ms|
  {
    if ms == [] then [] else [Frame(ms[0])] + Frames(ms[1..])
  }

  function CarriedAll(ms: seq<Reply>): (r: seq<M>)
    ensures |r| == |ms|
  {
    if ms == [] then [] else [Carried(ms[0])] + CarriedAll(ms[1..])
  }

  /** A client's reading of everything that arrives: length-prefixed records to the end. */
  function DecodeStream(s: seq<Byte>): Option<seq<M>>
    decreases |s|
  {
    if s == [] then Some([])
    else if |s| < 4 then None
    else
      var n := GetBe32(s);
      if |s| < 4 + n then None
      else
        match DecodeReply(s[4..4 + n])
        case None => None
        case Some(m) =>
          match DecodeStream(s[4 + n..])
          case None => None
          case Some(rest) => Some([m] + rest)
  }

  lemma FrameLayout(m: M, tail: seq<Byte>)
    requires Sendable(m)
    ensures var s, n := Frame(m) + tail, Size(m);
            |s| == 4 + n + |tail| && GetBe32(s) == n && s[4..4 + n] == Encode(m) && s[4 + n..] == tail
  {
    hide Encode, Be32, GetBe32;
    var s, n := Frame(m) + tail, Size(m);
    SizeIsLength(m);
    assert s == Be32(n) + (Encode(m) + tail);
    Be32RoundTrip(n, Encode(m) + tail);
  }

  /** The reply stream is uniquely decodable: reading the concatenated frames gives back every reply, in order. */
  lemma {:induction false} ReplyStreamRoundTrip(ms: seq<Reply>)
    requires forall i :: 0 <= i < |ms| ==> Sendable(ms[i])
    ensures DecodeStream(Concat(Frames(ms))) == Some(CarriedAll(ms))
  {
    hide Frame, Encode, DecodeReply, Carried;
    if ms != [] {
      var m := ms[0];
      var tail := Concat(Frames(ms[1..]));
      ReplyStreamRoundTrip(ms[1..]);
      ReplyRoundTrip(m);
      FrameLayout(m, tail);
      assert Concat(Frames(ms)) == Frame(m) + tail;
    }
  }

  // ---------- requests ----------

  /** wdec on a record that starts out as m: the bytes used, or -1, and the record. */
  function DecodeRequest(b: seq<Byte>, m: M): (r: (int, M))
    ensures r.0 == -1 <==> |b| < 2
    ensures 2 <= |b| ==> 2 <= r.0 <= |b| && r.1.t == b[0] && r.1.tag == b[1]
  {
    if |b| < 2 then (-1, m)
    else
      var head := m.(t := b[0], tag := b[1]);
      if b[0] == TINIT then
        var (o1, ws) := GetStr(b, 2);
        var (o2, lbl) := GetStr(b, o1);
        (o2 as int, head.(ws := ws, lbl := lbl))
      else if b[0] == TMOVETO && 10 <= |b| then
        (10, head.(x := Signed(GetBe32(b[2..])), y := Signed(GetBe32(b[6..]))))
      else if b[0] == TRDDRAW && 6 <= |b| then (6, head.(n := GetBe32(b[2..])))
      else (2, head)
  }

  /** A record that is filled in place. */
  class Cell {
    var m: M

    constructor ()
      ensures m == BLANK
    {
      m := BLANK;
    }
  }

  method Wdec(b: seq<Byte>, c: Cell) returns (n: int)
    modifies c
    ensures (n, c.m) == DecodeRequest(b, old(c.m))
  {
    if |b| < 2 {
      return -1;
    }
    c.m := c.m.(t := b[0], tag := b[1]);
    n := 2;
    if c.m.t == TINIT {
      var (o1, ws) := GetStr(b, n);
      c.m := c.m.(ws := ws);
      var (o2, lbl) := GetStr(b, o1);
      c.m := c.m.(lbl := lbl);
      n := o2;
      var _ := GetStr(b, n);
    } else if c.m.t == TMOVETO {
      if n + 8 <= |b| {
        c.m := c.m.(x := Signed(GetBe32(b[n..])));
        n := n + 4;
        c.m := c.m.(y := Signed(GetBe32(b[n..])));
        n := n + 4;
      }
    } else if c.m.t == TRDDRAW {
      if n + 4 <= |b| {
        c.m := c.m.(n := GetBe32(b[n..]));
        n := n + 4;
      }
    }
  }

  /** Decoding a Tinit inverts the pstr form of its two strings, whatever follows them. */
  lemma InitRoundTrip(tag: Byte, ws: seq<Byte>, lbl: seq<Byte>, after: seq<Byte>)
    requires |ws| < U16 && |lbl| < U16
    ensures var b := [TINIT, tag] + PutStr(ws) + PutStr(lbl) + after;
            DecodeRequest(b, BLANK).1 == BLANK.(t := TINIT, tag := tag, ws := ws, lbl := lbl)
  {
    var head: seq<Byte> := [TINIT, tag];
    var b := head + PutStr(ws) + PutStr(lbl) + after;
    StrRoundTrip(head, ws, PutStr(lbl) + after);
    assert b == head + PutStr(ws) + (PutStr(lbl) + after);
    StrRoundTrip(head + PutStr(ws), lbl, after);
  }

  /** Decoding a Tmoveto inverts the big-endian signed form of its coordinates. */
  lemma MoveRoundTrip(tag: Byte, x: Int32, y: Int32, after: seq<Byte>)
    ensures var b := [TMOVETO, tag] + Be32(Unsigned(x)) + Be32(Unsigned(y)) + after;
            DecodeRequest(b, BLANK) == (10, BLANK.(t := TMOVETO, tag := tag, x := x, y := y))
  {
    hide Be32, GetBe32;
    var b := [TMOVETO, tag] + Be32(Unsigned(x)) + Be32(Unsigned(y)) + after;
    Be32RoundTrip(Unsigned(x), Be32(Unsigned(y)) + after);
    Be32RoundTrip(Unsigned(y), after);
    assert b[2..] == Be32(Unsigned(x)) + (Be32(Unsigned(y)) + after);
    assert b[6..] == Be32(Unsigned(y)) + after;
  }

  /** A string that claims more bytes than the frame has is what is there of it, and ends with the frame. */
  lemma TruncatedStr(before: seq<Byte>, n: nat, part: seq<Byte>)
    requires |part| < n < U16
    ensures GetStr(before + Be16(n) + part, |before|) == (|before| + 2 + |part|, part)
  {
    var b := before + Be16(n) + part;
    var o := |before|;
    assert b[o..] == Be16(n) + part;
    Be16RoundTrip(n, part);
    assert b[o + 2..|b|] == part;
  }

  /** Where a frame has no room for a length the string is empty, and nothing is used. */
  lemma MissingStr(b: seq<Byte>, o: nat)
    requires o <= |b| < o + 2
    ensures GetStr(b, o) == (o, [])
  {
  }

  /** A Trddraw brings its count, and every request without fields, or too short for them, brings its type and tag only. */
  lemma OtherRequests(t: Byte, tag: Byte, n: Word, after: seq<Byte>)
    ensures DecodeRequest([TRDDRAW, tag] + Be32(n) + after, BLANK) == (6, BLANK.(t := TRDDRAW, tag := tag, n := n))
    ensures t != TINIT && (t == TMOVETO ==> |after| < 8) && (t == TRDDRAW ==> |after| < 4) ==>
              DecodeRequest([t, tag] + after, BLANK) == (2, BLANK.(t := t, tag := tag))
  {
    hide Be32, GetBe32;
    var b := [TRDDRAW, tag] + Be32(n) + after;
    Be32RoundTrip(n, after);
    assert b[2..] == Be32(n) + after;
  }
}
