/**
 What a whole session of the draw service amounts to: one reply per request, in
 order, that the client can read back.
 */
module WsysSession {
  import opened Bytes
  import opened Wire
  import opened WsysCodec
  import opened WsysServer

  // ---------- how the stream is cut ----------

  /** One piece of the stream ends at position p. */
  predicate Cut(chunks: seq<Chunk>, p: int) {
    chunks != [] && (p == |chunks[0]| || (|chunks[0]| < p && Cut(chunks[1..], p - |chunks[0]|)))
  }

  /** No piece ends inside the four bytes at position p. */
  ghost predicate WholeAt(chunks: seq<Chunk>, p: int) {
    forall q :: p < q < p + 4 ==> !Cut(chunks, q)
  }

  lemma ReadOnceCuts(chunks: seq<Chunk>, k: nat, p: int)
    requires 0 < k && chunks != [] && 0 < p
    ensures var (got, rest) := ReadOnce(chunks, k); Cut(rest, p) <==> Cut(chunks, |got| + p)
  {
    var c: seq<Byte> := chunks[0];
    if k < |c| {
      var rest: seq<Chunk> := [c[k..]] + chunks[1..];
      assert rest[1..] == chunks[1..];
    }
  }

  lemma {:induction false} ReadAllCuts(chunks: seq<Chunk>, k: nat, p: int)
    requires ReadAll(chunks, k).Some? && 0 < p
    ensures Cut(ReadAll(chunks, k).value.1, p) <==> Cut(chunks, k + p)
    decreases k
  {
    hide ReadOnce, Cut;
    if 0 < k {
      var (got, rest) := ReadOnce(chunks, k);
      ReadOnceCuts(chunks, k, p + k - |got|);
      ReadAllCuts(rest, k - |got|, p);
    }
  }

  // ---------- the client's side ----------

  /** A request body of a size the service takes. */
  type Body = b: seq<Byte> | 2 <= |b| <= 0x1000_0000 witness [0, 0]

  function Framed(b: Body): seq<Byte> { Be32(|b|) + b }

  function Stream(bodies: seq<Body>): seq<Byte> {
    if bodies == [] then [] else Framed(bodies[0]) + Stream(bodies[1..])
  }

  /** Every header arrives in one piece; bodies may be cut anywhere. Frames start at position p. */
  ghost predicate HeadersWhole(chunks: seq<Chunk>, bodies: seq<Body>, p: nat)
    decreases bodies
  {
    bodies == [] || (WholeAt(chunks, p) && HeadersWhole(chunks, bodies[1..], p + 4 + |bodies[0]|))
  }

  lemma {:induction false} HeadersShift(chunks: seq<Chunk>, rest: seq<Chunk>, k: nat, bodies: seq<Body>, p: nat)
    requires forall q: int :: 0 < q ==> (Cut(rest, q) <==> Cut(chunks, k + q))
    requires HeadersWhole(chunks, bodies, k + p)
    ensures HeadersWhole(rest, bodies, p)
    decreases bodies
  {
    hide Cut;
    if bodies != [] {
      HeadersShift(chunks, rest, k, bodies[1..], p + 4 + |bodies[0]|);
      forall q | p < q < p + 4 ensures !Cut(rest, q) {
        assert !Cut(chunks, k + q);
      }
    }
  }

  function Decoded(bodies: seq<Body>): (ms: seq<M>)
    ensures |ms| == |bodies| && forall i :: 0 <= i < |ms| ==> ms[i] == DecodeRequest(bodies[i], BLANK).1
  {
    if bodies == [] then [] else [DecodeRequest(bodies[0], BLANK).1] + Decoded(bodies[1..])
  }

  /** A header that is not cut is read whole, whatever the last header was. */
  lemma HeaderIsRead(chunks: seq<Chunk>, h: seq<Byte>, b: Body, tail: seq<Byte>)
    requires |h| == 4 && Concat(chunks) == Framed(b) + tail && WholeAt(chunks, 0)
    ensures chunks != []
    ensures var (p, rest) := ReadOnce(chunks, 4);
            |p| == 4 && p + h[|p|..] == Be32(|b|) && GetBe32(Be32(|b|)) == |b| && Concat(rest) == b + tail
  {
    hide Be32, GetBe32;
    assert chunks != [];
    assert !(0 < |chunks[0]| < 4) by {
      assert Cut(chunks, |chunks[0]|);
    }
    Be32RoundTrip(|b|, []);
    assert Be32(|b|) + [] == Be32(|b|);
    var (p, rest) := ReadOnce(chunks, 4);
    var s := Concat(chunks);
    assert s == p + Concat(rest) && s == Be32(|b|) + (b + tail);
    assert s[..4] == p && s[..4] == Be32(|b|);
    assert s[4..] == Concat(rest) && s[4..] == b + tail;
    assert p + h[4..] == p;
  }

  /**
   The loop gets out of the connection exactly the requests that the client
   framed, in order, for any cutting of the bodies.
   */
  lemma {:induction false} RequestsAreFramed(chunks: seq<Chunk>, h: seq<Byte>, bodies: seq<Body>)
    requires |h| == 4 && Concat(chunks) == Stream(bodies) && HeadersWhole(chunks, bodies, 0)
    ensures Requests(chunks, h) == Decoded(bodies)
    decreases bodies
  {
    hide Requests, ReadOnce, ReadAll, Cut, Framed, DecodeRequest, GetBe32, Be32;
    if bodies == [] {
      NothingToCome(chunks);
      NoRequest(h);
    } else {
      var b, tail := bodies[0], Stream(bodies[1..]);
      HeaderIsRead(chunks, h, b, tail);
      NextRequest(chunks, h);
      var (p, rest) := ReadOnce(chunks, 4);
      ReadAllIsPrefix(rest, |b|);
      var (body, rest') := ReadAll(rest, |b|).value;
      SamePrefix(body, Concat(rest'), b, tail);
      forall q: int | 0 < q ensures Cut(rest', q) <==> Cut(chunks, 4 + |b| + q) {
        ReadAllCuts(rest, |b|, q);
        ReadOnceCuts(chunks, 4, |b| + q);
      }
      HeadersShift(chunks, rest', 4 + |b|, bodies[1..], 0);
      RequestsAreFramed(rest', p + h[|p|..], bodies[1..]);
    }
  }

  lemma NothingToCome(chunks: seq<Chunk>)
    requires Concat(chunks) == []
    ensures chunks == []
  {
  }

  lemma SamePrefix(a: seq<Byte>, x: seq<Byte>, b: seq<Byte>, y: seq<Byte>)
    requires a + x == b + y && |a| == |b|
    ensures a == b && x == y
  {
    assert (a + x)[..|a|] == a && (b + y)[..|b|] == b;
    assert (a + x)[|a|..] == x && (b + y)[|b|..] == y;
  }

  // ---------- replies ----------

  predicate Handled(t: Byte) {
    t == TINIT || t == TRDMOUSE || t == TRDKBD || t == TRDDRAW || t == TMOVETO || t == TBOUNCEMOUSE
  }

  /** The decimal form of a byte has at most three digits. */
  lemma ShortLabel(t: Byte)
    ensures |Ascii("unhandled ") + Decimal(t)| <= 13
  {
    assert Decimal(t / 10 / 10) == [48 + t / 10 / 10];
    assert |Decimal(t / 10)| <= 2;
  }

  /** A reply answers the request it is sent for: same tag, type T+1, or Rerror for a type without a handler. */
  lemma ReplyAnswers(m: M, pixels: seq<Byte>)
    ensures var r := ReplyTo(m, pixels);
            r.tag == m.tag && r.t == (if Handled(m.t) then m.t + 1 else RERROR) &&
            (|pixels| < U32 - 6 ==> Sendable(r) && (r.t == RRDDRAW ==> Carried(r).d == pixels))
  {
    ShortLabel(m.t);
    assert pixels[..|pixels|] == pixels;
  }

  /**
   What the client should read for request b when the screen shows pixels: the
   request's tag, its type plus one, the pixels for a screen request, and nothing
   else set; for a type without a handler an error that names it.
   */
  function Answer(b: Body, pixels: seq<Byte>): M
    requires |pixels| < U32
  {
    var head := BLANK.(tag := b[1]);
    if b[0] == 20 then head.(t := 21, n := |pixels|, d := pixels)
    else if b[0] in {2, 4, 8, 10, 14} then head.(t := b[0] + 1)
    else head.(t := 1, lbl := Ascii("unhandled ") + Decimal(b[0]))
  }

  ghost predicate Answers(r: M, b: Body, pixels: seq<Byte>) { |pixels| < U32 && r == Answer(b, pixels) }

  lemma ReplyIsAnswer(b: Body, pixels: seq<Byte>)
    requires |pixels| < U32 - 6
    ensures var r := ReplyTo(DecodeRequest(b, BLANK).1, pixels); Sendable(r) && Answers(Carried(r), b, pixels)
  {
    ReplyAnswers(DecodeRequest(b, BLANK).1, pixels);
  }

  /**
   A session: for every list of well-sized requests whose headers arrive whole,
   the loop (HandleDraw) writes exactly one frame per request, and a client
   reading the frames gets one reply per request, in order, each the answer to
   that request and to the pixels of its moment.
   */
  lemma SessionIsAnswered(chunks: seq<Chunk>, screen: Screen, writable: nat, bodies: seq<Body>)
    requires Concat(chunks) == Stream(bodies) && HeadersWhole(chunks, bodies, 0) && |bodies| <= writable
    requires screen.Screen? ==> forall k :: |screen.at(k)| < U32 - 6
    ensures var written := Written(Requests(chunks, [0, 0, 0, 0]), screen, 0, writable);
            var answer := DecodeStream(Concat(written));
            |written| == |bodies| && answer.Some? && |answer.value| == |bodies| &&
            forall i :: 0 <= i < |bodies| ==> Answers(answer.value[i], bodies[i], Pixels(screen, i))
  {
    hide Requests, DecodeRequest, ReplyTo, Frame, Carried, DecodeStream, Cut, Answers, Sendable;
    RequestsAreFramed(chunks, [0, 0, 0, 0], bodies);
    var ms := Decoded(bodies);
    WrittenInFull(ms, screen, 0, writable);
    var rs := Replies(ms, screen, 0);
    forall i | 0 <= i < |rs| ensures Sendable(rs[i]) && Answers(Carried(rs[i]), bodies[i], Pixels(screen, i)) {
      assert rs[i] == ReplyTo(DecodeRequest(bodies[i], BLANK).1, Pixels(screen, 0 + i));
      ReplyIsAnswer(bodies[i], Pixels(screen, i));
    }
    ReplyStreamRoundTrip(rs);
    CarriedEach(rs);
  }

  lemma {:induction false} WrittenInFull(ms: seq<M>, screen: Screen, k: nat, writable: nat)
    requires |ms| <= writable
    ensures Written(ms, screen, k, writable) == Frames(Replies(ms, screen, k))
    decreases ms
  {
    hide Frame, ReplyTo;
    if ms != [] {
      WrittenInFull(ms[1..], screen, k + 1, writable - 1);
    }
  }

  lemma {:induction false} CarriedEach(rs: seq<Reply>)
    ensures forall i :: 0 <= i < |rs| ==> CarriedAll(rs)[i] == Carried(rs[i])
  {
    hide Carried;
    if rs != [] {
      CarriedEach(rs[1..]);
    }
  }

  // ---------- the pointer ----------

  /** The signed number that four bytes at position at spell, most significant first. */
  function SignedAt(b: seq<Byte>, at: nat): Int32
    requires at + 4 <= |b|
  {
    var u := 0x100_0000 * b[at] as int + 0x1_0000 * b[at + 1] as int + 0x100 * b[at + 2] as int + b[at + 3] as int;
    if u < 0x8000_0000 then u else u - 0x1_0000_0000
  }

  /** What one request does to the pointer: a move goes to its coordinates, or to the corner if it is too short for them. */
  function EventsFor(b: Body, hasPointer: bool): seq<Event> {
    if !hasPointer then []
    else if b[0] == 4 then [if 10 <= |b| then Move(SignedAt(b, 2), SignedAt(b, 6)) else Move(0, 0)]
    else if b[0] == 8 then [Buttons(0)]
    else []
  }

  function AllEventsFor(bodies: seq<Body>, hasPointer: bool): seq<Event> {
    if bodies == [] then [] else EventsFor(bodies[0], hasPointer) + AllEventsFor(bodies[1..], hasPointer)
  }

  lemma WordAt(b: seq<Byte>, at: nat)
    requires at + 4 <= |b|
    ensures Signed(GetBe32(b[at..])) == SignedAt(b, at)
  {
    var w := b[at..];
    assert w[0] == b[at] && w[1] == b[at + 1] && w[2] == b[at + 2] && w[3] == b[at + 3];
    assert w[2..][0] == w[2] && w[2..][1] == w[3];
  }

  lemma OneBodyEvents(b: Body, hasPointer: bool)
    ensures EventsOf(DecodeRequest(b, BLANK).1, hasPointer) == EventsFor(b, hasPointer)
  {
    if 10 <= |b| {
      WordAt(b, 2);
      WordAt(b, 6);
    }
    hide Signed, GetBe32, SignedAt;
  }

  lemma {:induction false} DecodedEvents(bodies: seq<Body>, hasPointer: bool)
    ensures Events(Decoded(bodies), hasPointer) == AllEventsFor(bodies, hasPointer)
  {
    hide DecodeRequest, EventsOf, EventsFor;
    if bodies != [] {
      OneBodyEvents(bodies[0], hasPointer);
      DecodedEvents(bodies[1..], hasPointer);
    }
  }

  /**
   For every list of requests of any types whose headers arrive whole: what the
   pointer is made to do is, in order, one move per Tmoveto, one release of all
   buttons per Tbouncemouse, and nothing for any other request or without a
   pointer device.
   */
  lemma PointerIsDriven(chunks: seq<Chunk>, bodies: seq<Body>, hasPointer: bool)
    requires Concat(chunks) == Stream(bodies) && HeadersWhole(chunks, bodies, 0)
    ensures Events(Requests(chunks, [0, 0, 0, 0]), hasPointer) == AllEventsFor(bodies, hasPointer)
  {
    hide Requests, Events, AllEventsFor;
    RequestsAreFramed(chunks, [0, 0, 0, 0], bodies);
    DecodedEvents(bodies, hasPointer);
  }

  datatype Motion = Motion(tag: Byte, x: Int32, y: Int32)

  function MoveBody(m: Motion): Body {
    [TMOVETO, m.tag] + Be32(Unsigned(m.x)) + Be32(Unsigned(m.y))
  }

  function MoveBodies(ms: seq<Motion>): seq<Body> {
    if ms == [] then [] else [MoveBody(ms[0])] + MoveBodies(ms[1..])
  }

  function Path(ms: seq<Motion>): seq<Event> {
    if ms == [] then [] else [Move(ms[0].x, ms[0].y)] + Path(ms[1..])
  }

  lemma {:induction false} MovesDecode(ms: seq<Motion>)
    ensures Events(Decoded(MoveBodies(ms)), true) == Path(ms)
  {
    hide DecodeRequest;
    if ms != [] {
      var m, bodies := ms[0], MoveBodies(ms);
      MoveRoundTrip(m.tag, m.x, m.y, []);
      assert MoveBody(m) + [] == MoveBody(m);
      assert bodies[1..] == MoveBodies(ms[1..]);
      MovesDecode(ms[1..]);
    }
  }

  /** A client that sends moves has the pointer follow them, coordinate by coordinate and in order. */
  lemma PointerFollows(chunks: seq<Chunk>, ms: seq<Motion>)
    requires Concat(chunks) == Stream(MoveBodies(ms)) && HeadersWhole(chunks, MoveBodies(ms), 0)
    ensures Events(Requests(chunks, [0, 0, 0, 0]), true) == Path(ms)
  {
    RequestsAreFramed(chunks, [0, 0, 0, 0], MoveBodies(ms));
    MovesDecode(ms);
  }

  // ---------- a header that is cut ----------

  /**
   What one Read of a header leads to, however it was cut: its bytes replace the
   first ones of the header before it, and the length that this spells decides.
   A request comes out if and only if that length is in range and so many bytes
   are still to come; those bytes are then decoded, framed by the client or not.
   */
  lemma HeaderDecides(chunks: seq<Chunk>, h: seq<Byte>)
    requires |h| == 4 && chunks != []
    ensures var (p, rest) := ReadOnce(chunks, 4);
            var n, left := GetBe32(p + h[|p|..]), Concat(rest);
            (Requests(chunks, h) == [] <==> n < 2 || 0x1000_0000 < n || |left| < n) &&
            (2 <= n <= 0x1000_0000 && n <= |left| ==> Requests(chunks, h)[0] == DecodeRequest(left[..n], BLANK).1)
  {
    hide Requests, ReadOnce, ReadAll, GetBe32, DecodeRequest, Concat;
    NextRequest(chunks, h);
    var (p, rest) := ReadOnce(chunks, 4);
    var n := GetBe32(p + h[|p|..]);
    if 2 <= n <= BUF_MAX {
      ReadAllIsPrefix(rest, n);
    }
  }

  /**
   The first header, cut after one to three bytes: the service drops the
   connection without a reply if and only if those bytes, followed by zeros, are
   no length in range or more than the bytes after them. A frame under 256 bytes
   is always dropped: the bytes are zeros then.
   */
  lemma CutHeaderDropsTheSession(chunks: seq<Chunk>)
    requires chunks != [] && |chunks[0]| < 4
    ensures var n := GetBe32(chunks[0] + [0, 0, 0, 0][|chunks[0]|..]);
            (Requests(chunks, [0, 0, 0, 0]) == [] <==> n < 2 || BUF_MAX < n || |Concat(chunks[1..])| < n) &&
            ((forall i :: 0 <= i < |chunks[0]| ==> chunks[0][i] == 0) ==> n == 0)
  {
    HeaderDecides(chunks, [0, 0, 0, 0]);
    assert ReadOnce(chunks, 4).0 == chunks[0];
    if forall i :: 0 <= i < |chunks[0]| ==> chunks[0][i] == 0 {
      assert chunks[0] + [0, 0, 0, 0][|chunks[0]|..] == [0, 0, 0, 0];
    }
  }

  /**
   A later header, cut after k bytes that are those of the header before: the
   length is still that of the frame before, and so many bytes, beginning with
   the rest of the header, are executed as a request that the client never made.
   Its type is a byte of the header.
   */
  lemma StaleHeaderMisreads(chunks: seq<Chunk>, was: nat, b: Body, tail: seq<Byte>, k: nat)
    requires 2 <= was <= BUF_MAX && 0 < k < 4 && Be32(|b|)[..k] == Be32(was)[..k]
    requires chunks != [] && chunks[0] == Be32(|b|)[..k] && Concat(chunks) == Framed(b) + tail
    requires was <= 4 - k + |b| + |tail|
    ensures var ms, left := Requests(chunks, Be32(was)), Be32(|b|)[k..] + b + tail;
            ms != [] && ms[0] == DecodeRequest(left[..was], BLANK).1 && ms[0].t == Be32(|b|)[k]
  {
    var head := Be32(|b|);
    Be32RoundTrip(was, []);
    assert Be32(was) + [] == Be32(was);
    hide Be32, GetBe32, Requests, DecodeRequest;
    HeaderDecides(chunks, Be32(was));
    assert head[..k] + Be32(was)[k..] == Be32(was);
    LeftOfHeader(chunks, head, b, tail, k);
    hide ReadOnce, Concat;
    assert (head[k..] + b + tail)[..was][0] == head[k];
  }

  /** The first piece ends after k bytes of the header: what is left begins with the rest of it. */
  lemma LeftOfHeader(chunks: seq<Chunk>, head: seq<Byte>, b: seq<Byte>, tail: seq<Byte>, k: nat)
    requires |head| == 4 && 0 < k < 4 && chunks != [] && chunks[0] == head[..k] && Concat(chunks) == head + b + tail
    ensures var (p, rest) := ReadOnce(chunks, 4); p == head[..k] && Concat(rest) == head[k..] + b + tail
  {
    assert head + b + tail == head[..k] + (head[k..] + b + tail);
    SamePrefix(head[..k], Concat(chunks[1..]), head[..k], head[k..] + b + tail);
  }

  /** Two requests, the second one's header cut: the first is answered, and then one that was never sent. */
  lemma SecondHeaderCut(chunks: seq<Chunk>, a: Body, b: Body, k: nat)
    requires 0 < k < 4 && Be32(|b|)[..k] == Be32(|a|)[..k] && |a| <= 4 - k + |b|
    requires chunks == [Framed(a), Be32(|b|)[..k], Be32(|b|)[k..] + b]
    ensures Concat(chunks) == Stream([a, b])
    ensures var ms := Requests(chunks, [0, 0, 0, 0]);
            2 <= |ms| && ms[0] == DecodeRequest(a, BLANK).1 && ms[1].t == Be32(|b|)[k]
  {
    var cut: seq<Chunk> := chunks[1..];
    var after: seq<Chunk> := chunks[2..];
    var rest: seq<Chunk> := [a] + cut;
    Be32RoundTrip(|a|, []);
    assert Be32(|a|) + [] == Be32(|a|);
    hide Be32, GetBe32, DecodeRequest, Requests;
    assert after[0] == Be32(|b|)[k..] + b && after[1..] == [] && Concat(after) == after[0];
    assert Concat(cut) == cut[0] + Concat(after) == Framed(b) == Framed(b) + [];
    StreamOfTwo(a, b);
    assert Concat(chunks) == Framed(a) + Concat(cut);
    FrameThenRest(chunks, a);
    NextRequest(chunks, [0, 0, 0, 0]);
    StaleHeaderMisreads(cut, |a|, b, [], k);
  }

  lemma StreamOfTwo(a: Body, b: Body)
    ensures Stream([a, b]) == Framed(a) + Framed(b)
  {
    hide Framed;
    assert [a, b][1..] == [b] && [b][1..] == [];
    assert Stream([b]) == Framed(b);
  }

  /** A frame that arrives in one piece is read as its header and its body. */
  lemma FrameThenRest(chunks: seq<Chunk>, a: Body)
    requires chunks != [] && chunks[0] == Framed(a)
    ensures var (p, rest) := ReadOnce(chunks, 4); p == Be32(|a|) && ReadAll(rest, |a|) == Some((a, chunks[1..]))
  {
    var rest: seq<Chunk> := [a] + chunks[1..];
    Be32RoundTrip(|a|, []);
    assert Framed(a)[..4] == Be32(|a|) && Framed(a)[4..] == a;
    hide Be32;
    ReadSplit(chunks, 4, Be32(|a|), a);
    ReadExact(a, chunks[1..]);
    hide ReadOnce, ReadAll;
    assert [a] + chunks[1..] == rest;
  }

  lemma ReadSplit(chunks: seq<Chunk>, k: nat, front: seq<Byte>, back: Chunk)
    requires chunks != [] && 0 < k == |front| && chunks[0] == front + back
    ensures ReadOnce(chunks, k) == (front, [back] + chunks[1..])
  {
    var c: seq<Byte> := chunks[0];
    assert c[..k] == front && c[k..] == back;
  }

  lemma ReadExact(c: Chunk, more: seq<Chunk>)
    ensures ReadAll([c] + more, |c|) == Some((c, more))
  {
    var chunks: seq<Chunk> := [c] + more;
    assert chunks[0] == c && chunks[1..] == more;
    assert ReadOnce(chunks, |c|) == (c, more);
    assert ReadAll(more, 0) == Some(([], more));
    assert c + [] == c;
  }

  /**
   A cut header need not show: the missing length byte of a 256-byte request is the zero that the header
   buffer holds already, and when the body is zeros too, the body read one byte late is the same.
   */
  lemma CutCanGoUnnoticed(chunks: seq<Chunk>, bodies: seq<Body>)
    requires bodies == [Zeros(256)] && chunks == [[0, 0, 1], Zeros(257)]
    ensures Concat(chunks) == Stream(bodies) && !HeadersWhole(chunks, bodies, 0)
    ensures Requests(chunks, [0, 0, 0, 0]) == Decoded(bodies)
  {
    hide DecodeRequest;
    assert Cut(chunks, 3);
    assert Zeros(257) == [0] + Zeros(256);
    var late: seq<Chunk> := [Zeros(257)];
    assert chunks[1..] == late;
    assert Stream(bodies) == Framed(bodies[0]);
    assert Concat(late) == Zeros(257);
    var last: seq<Chunk> := [[0]];
    assert ReadOnce(late, 256) == (Zeros(256), last) by {
      assert Zeros(257)[..256] == Zeros(256);
      assert Zeros(257)[256..] == [0];
      assert [Zeros(257)[256..]] + late[1..] == last;
    }
    assert ReadAll(late, 256) == Some((Zeros(256), last)) by {
      assert ReadAll(last, 0) == Some(([], last));
      assert Zeros(256) + [] == Zeros(256);
    }
    NextRequest(chunks, [0, 0, 0, 0]);
    NextRequest(last, [0, 0, 1, 0]);
  }

  /** Buttons of a Tbouncemouse never reach the device: the decoder does not read them. */
  lemma BouncesAreZero(b: seq<Byte>)
    requires 2 <= |b| && b[0] == TBOUNCEMOUSE
    ensures EventsOf(DecodeRequest(b, BLANK).1, true) == [Buttons(0)]
  {
  }
}
