/**
 The request loop of the draw service: read a frame, decode it, send one reply.
 */
module WsysServer {
  import opened Bytes
  import opened Wire
  import opened WsysCodec

  const BUF_MAX: nat := 256 * 1024 * 1024

  /** What the service does to the pointer device. */
  datatype Event = Move(x: Int32, y: Int32) | Buttons(b: Int32)

  /** The pixels a request gets to see: of the k-th request, when there is a framebuffer. */
  datatype Screen = NoScreen | Screen(at: nat -> seq<Byte>)

  function Pixels(screen: Screen, k: nat): seq<Byte> {
    if screen.NoScreen? then [] else screen.at(k)
  }

  /** The reply to one decoded request. */
  function ReplyTo(m: M, pixels: seq<Byte>): (r: Reply)
    ensures r.tag == m.tag
  {
    var head := BLANK.(tag := m.tag);
    if m.t == TINIT then head.(t := RINIT)
    else if m.t == TRDMOUSE then head.(t := RRDMOUSE)
    else if m.t == TRDKBD then head.(t := RRDKBD)
    else if m.t == TRDDRAW then head.(t := RRDDRAW, n := |pixels| % U32, d := pixels)
    else if m.t == TMOVETO then head.(t := RMOVETO)
    else if m.t == TBOUNCEMOUSE then head.(t := RBOUNCEMOUSE)
    else head.(t := RERROR, lbl := Ascii("unhandled ") + Decimal(m.t))
  }

  function EventsOf(m: M, hasPointer: bool): seq<Event> {
    if !hasPointer then []
    else if m.t == TMOVETO then [Move(m.x, m.y)]
    else if m.t == TBOUNCEMOUSE then [Buttons(m.b)]
    else []
  }

  /** The requests that the loop gets out of a connection; h holds the header bytes of the frame before. */
  function Requests(chunks: seq<Chunk>, h: seq<Byte>): seq<M>
    requires |h| == 4
    decreases |Concat(chunks)|
  {
    if chunks == [] then []
    else
      var (p, rest) := ReadOnce(chunks, 4);
      var h' := p + h[|p|..];
      var n := GetBe32(h');
      if n < 2 || BUF_MAX < n then []
      else
        match ReadAll(rest, n)
        case None => []
        case Some((body, rest')) =>
          ReadAllIsPrefix(rest, n);
          [DecodeRequest(body, BLANK).1] + Requests(rest', h')
  }

  lemma NoRequest(h: seq<Byte>)
    requires |h| == 4
    ensures Requests([], h) == []
  {
  }

  /** The first request of a connection that has bytes to come. */
  lemma NextRequest(chunks: seq<Chunk>, h: seq<Byte>)
    requires |h| == 4 && chunks != []
    ensures var (p, rest) := ReadOnce(chunks, 4);
            var h' := p + h[|p|..];
            var n := GetBe32(h');
            Requests(chunks, h) ==
              if n < 2 || BUF_MAX < n then []
              else
                match ReadAll(rest, n)
                case None => []
                case Some((body, rest')) => [DecodeRequest(body, BLANK).1] + Requests(rest', h')
  {
    hide ReadOnce, ReadAll, Concat, GetBe32, DecodeRequest;
  }

  /** The replies to the requests from number k on. */
  function Replies(ms: seq<M>, screen: Screen, k: nat): (rs: seq<Reply>)
    ensures |rs| == |ms| && forall i :: 0 <= i < |ms| ==> rs[i] == ReplyTo(ms[i], Pixels(screen, k + i))
    decreases |ms|
  {
    if ms == [] then [] else [ReplyTo(ms[0], Pixels(screen, k))] + Replies(ms[1..], screen, k + 1)
  }

  function Events(ms: seq<M>, hasPointer: bool): seq<Event> {
    if ms == [] then [] else EventsOf(ms[0], hasPointer) + Events(ms[1..], hasPointer)
  }

  /** What the loop writes for the requests from number k on, when that many more writes succeed. */
  function Written(ms: seq<M>, screen: Screen, k: nat, writable: nat): seq<seq<Byte>>
    decreases ms
  {
    if ms == [] || writable == 0 then []
    else [Frame(ReplyTo(ms[0], Pixels(screen, k)))] + Written(ms[1..], screen, k + 1, writable - 1)
  }

  // ---------- the program ----------

  method Fill(buf: array<Byte>, t: nat, p: seq<Byte>)
    requires t + |p| <= buf.Length
    modifies buf
    ensures buf[..t + |p|] == old(buf[..t]) + p
  {
    forall i | 0 <= i < |p| {
      buf[t + i] := p[i];
    }
  }

  /** for t := 0; t < n; { r := conn.Read(buf[t:n]); t += r } */
  method ReadBody(conn: Conn, buf: array<Byte>, n: nat) returns (ok: bool)
    requires n <= buf.Length
    modifies conn`chunks, buf
    ensures var r := ReadAll(old(conn.chunks), n);
            ok == r.Some? && (ok ==> buf[..n] == r.value.0 && conn.chunks == r.value.1)
  {
    hide ReadOnce, Concat;
    var t := 0;
    ghost var whole := ReadAll(conn.chunks, n);
    while t < n
      invariant 0 <= t <= n
      invariant var r := ReadAll(conn.chunks, n - t);
                r.Some? == whole.Some? &&
                (r.Some? ==> whole.value.0 == buf[..t] + r.value.0 && whole.value.1 == r.value.1)
    {
      var piece := conn.Read(n - t);
      if piece.None? {
        return false;
      }
      Fill(buf, t, piece.value);
      t := t + |piece.value|;
    }
    return true;
  }

  /** One reply: the size, then the record, in one write. */
  method SendReply(conn: Conn, r: Reply)
    modifies conn`sent, conn`writable
    ensures conn.sent == if 0 < old(conn.writable) then old(conn.sent) + [Frame(r)] else old(conn.sent)
    ensures conn.writable == if 0 < old(conn.writable) then old(conn.writable) - 1 else 0
  {
    hide Encode, Be32, Size, Splice;
    var rs := Size(r);
    SizeIsLength(r);
    Be32RoundTrip(rs % U32, []);
    var rb := new Byte[rs + 4];
    ghost var was := rb[..];
    Copy(rb, 0, Be32(rs % U32));
    SpliceNext(was, 0, Be32(rs % U32), Encode(r));
    var _ := Wenc(r, rb, 4);
    SpliceAll(was, Frame(r));
    var _ := conn.Write(rb[..]);
  }

  lemma SpliceAll(s: seq<Byte>, p: seq<Byte>)
    requires |p| == |s|
    ensures Splice(s, 0, p) == p
  {
  }

  /** One round of the loop: false when the connection is given up. */
  method HandleOne(conn: Conn, h: seq<Byte>, buf: array<Byte>, pixels: seq<Byte>, hasPointer: bool)
    returns (more: bool, h': seq<Byte>, events: seq<Event>)
    requires |h| == 4 && buf.Length == BUF_MAX
    modifies conn, buf
    ensures |h'| == 4
    ensures var todo := Requests(old(conn.chunks), h);
            if more then
              todo != [] && todo[1..] == Requests(conn.chunks, h') && events == EventsOf(todo[0], hasPointer) &&
              |conn.Stream()| < |old(conn.Stream())| &&
              (if 0 < old(conn.writable)
               then conn.sent == old(conn.sent) + [Frame(ReplyTo(todo[0], pixels))] && conn.writable == old(conn.writable) - 1
               else conn.sent == old(conn.sent) && conn.writable == 0)
            else todo == [] && events == [] && conn.sent == old(conn.sent) && conn.writable == old(conn.writable)
  {
    hide Requests, Frame, ReplyTo, DecodeRequest, ReadOnce, ReadAll, Concat, GetBe32;
    more, h', events := false, h, [];
    if conn.chunks == [] {
      NoRequest(h);
      return;
    }
    NextRequest(conn.chunks, h);
    var p := conn.Read(4);
    h' := p.value + h[|p.value|..];
    var n := GetBe32(h');
    if n < 2 || BUF_MAX < n {
      return;
    }
    ReadAllIsPrefix(conn.chunks, n);
    var ok := ReadBody(conn, buf, n);
    if !ok {
      return;
    }
    var c := new Cell();
    var _ := Wdec(buf[..n], c);
    events := EventsOf(c.m, hasPointer);
    SendReply(conn, ReplyTo(c.m, pixels));
    more := true;
  }

  method HandleDraw(conn: Conn, screen: Screen, hasPointer: bool) returns (events: seq<Event>)
    modifies conn
    ensures var ms := Requests(old(conn.chunks), [0, 0, 0, 0]);
            conn.sent == old(conn.sent) + Written(ms, screen, 0, old(conn.writable)) &&
            events == Events(ms, hasPointer)
  {
    hide Requests, Frame, ReplyTo, EventsOf, Concat;
    var h := [0, 0, 0, 0];
    var buf := new Byte[BUF_MAX];
    events := [];
    var k := 0;
    var more := true;
    ghost var all := Requests(conn.chunks, h);
    ghost var todo := all;
    while more
      invariant |h| == 4
      invariant if more then todo == Requests(conn.chunks, h) else todo == []
      invariant events + Events(todo, hasPointer) == Events(all, hasPointer)
      invariant conn.sent + Written(todo, screen, k, conn.writable)
             == old(conn.sent) + Written(all, screen, 0, old(conn.writable))
      decreases if more then |conn.Stream()| + 1 else 0
    {
      var es;
      more, h, es := HandleOne(conn, h, buf, Pixels(screen, k), hasPointer);
      if more {
        events := events + es;
        k := k + 1;
        todo := todo[1..];
      }
    }
  }
}
