/**
 The draw-command interpreter of o9draw: a write is a batch of records that
 update a table of images. What drawing does to pixels is left to a painter.
 */
module DrawTable {
  import opened Bytes

  type Word = v: int | 0 <= v < U32
  type Int32 = v: int | -U32 / 2 <= v < U32 / 2

  const ALLOC: Byte := 98       // 'b'
  const DRAW: Byte := 100       // 'd'
  const ALLOC_SIZE: nat := 60
  const DRAW_SIZE: nat := 45

  datatype Point = Point(x: int, y: int)

  datatype Rect = Rect(min: Point, max: Point)

  datatype Image<P> = Image(id: Word, bounds: Rect, pix: P)

  type Table<P> = map<Word, Image<P>>

  /** Fresh pixels, and the pixels of a destination after drawing a source over it, perhaps through a mask. */
  datatype Painter<!P> = Painter(
    blank: Rect -> P,
    over: (Image<P>, Rect, Image<P>, Point, Option<(Image<P>, Point)>) -> P)

  /** image.Rect: corners in any order. */
  function MakeRect(x0: int, y0: int, x1: int, y1: int): (r: Rect)
    ensures Ordered(r)
    ensures {r.min.x, r.max.x} == {x0, x1} && {r.min.y, r.max.y} == {y0, y1}
  {
    var (xa, xb) := if x1 < x0 then (x1, x0) else (x0, x1);
    var (ya, yb) := if y1 < y0 then (y1, y0) else (y0, y1);
    Rect(Point(xa, ya), Point(xb, yb))
  }

  predicate Ordered(r: Rect) { r.min.x <= r.max.x && r.min.y <= r.max.y }

  function GetInt(b: seq<Byte>, at: nat): Int32
    requires at + 4 <= |b|
  {
    Signed(GetLe32(b[at..]))
  }

  function ReadRect(b: seq<Byte>): Rect
    requires 16 <= |b|
  {
    MakeRect(GetInt(b, 0), GetInt(b, 4), GetInt(b, 8), GetInt(b, 12))
  }

  function ReadPoint(b: seq<Byte>): Point
    requires 8 <= |b|
  {
    Point(GetInt(b, 0), GetInt(b, 4))
  }

  // ---------- the effect of one command ----------

  function Allocate<P>(painter: Painter<P>, t: Table<P>, id: Word, r: Rect): Table<P> {
    t[id := Image(id, r, painter.blank(r))]
  }

  /** drawOp: nothing happens without a destination or a source; without a mask the source is drawn unmasked. */
  function DrawOp<P>(painter: Painter<P>, t: Table<P>, dst: Word, src: Word, mask: Word, r: Rect, p0: Point, p1: Point)
    : Table<P>
  {
    if dst !in t || src !in t then t
    else
      var m := if mask in t then Some((t[mask], p1)) else None;
      t[dst := t[dst].(pix := painter.over(t[dst], r, t[src], p0, m))]
  }

  /** A batch: records from the front, until the data ends, a record is short or its command is unknown. */
  function Interpret<P>(painter: Painter<P>, t: Table<P>, data: seq<Byte>): Table<P>
    decreases |data|
  {
    if data == [] then t
    else if data[0] == ALLOC then
      if |data| < ALLOC_SIZE then t
      else
        var t' := Allocate(painter, t, GetLe32(data[1..5]), ReadRect(data[15..31]));
        Interpret(painter, t', data[60..])
    else if data[0] == DRAW then
      if |data| < DRAW_SIZE then t
      else
        var t' := DrawOp(painter, t, GetLe32(data[1..5]), GetLe32(data[5..9]), GetLe32(data[9..13]),
                         ReadRect(data[13..29]), ReadPoint(data[29..37]), ReadPoint(data[37..45]));
        Interpret(painter, t', data[45..])
    else t
  }

  // ---------- the program ----------

  class DrawSrv<P> {
    const painter: Painter<P>
    const width: int
    const height: int
    var images: Table<P>

    constructor (painter: Painter<P>, width: int, height: int)
      ensures this.painter == painter && this.width == width && this.height == height
      ensures images.Keys == {0} && images[0] == Image(0, images[0].bounds, painter.blank(images[0].bounds))
      ensures 0 <= width && 0 <= height ==> images[0].bounds == Rect(Point(0, 0), Point(width, height))
      ensures Good(images)
    {
      this.painter, this.width, this.height := painter, width, height;
      var r := MakeRect(0, 0, width, height);
      images := map[0 := Image(0, r, painter.blank(r))];
    }

    /** DrawFile.Write, in one critical section. It reports the whole batch as written, however much it used. */
    method Write(batch: seq<Byte>) returns (n: Word)
      requires Good(images)
      modifies this`images
      ensures images == Interpret(painter, old(images), batch) && Good(images)
      ensures n == |batch| % U32
    {
      n := |batch| % U32;
      var data := batch;
      while 0 < |data|
        invariant Good(images)
        invariant Interpret(painter, images, data) == Interpret(painter, old(images), batch)
      {
        if data[0] == ALLOC {
          if |data| < ALLOC_SIZE {
            break;
          }
          var id := GetLe32(data[1..5]);
          var r := ReadRect(data[15..31]);
          images := images[id := Image(id, r, painter.blank(r))];
          data := data[60..];
        } else if data[0] == DRAW {
          if |data| < DRAW_SIZE {
            break;
          }
          var r := ReadRect(data[13..29]);
          var p0, p1 := ReadPoint(data[29..37]), ReadPoint(data[37..45]);
          images := DrawOp(painter, images, GetLe32(data[1..5]), GetLe32(data[5..9]), GetLe32(data[9..13]), r, p0, p1);
          data := data[45..];
        } else {
          data := [];
        }
      }
    }
  }

  /** The display image is there, every image is filed under its own id, and no rectangle is inside out. */
  ghost predicate Good<P>(t: Table<P>) {
    0 in t && forall k :: k in t ==> t[k].id == k && Ordered(t[k].bounds)
  }

  // ---------- records ----------

  type Bytes10 = s: seq<Byte> | |s| == 10 witness [0, 0, 0, 0, 0, 0, 0, 0, 0, 0]
  type Bytes29 = s: seq<Byte> | |s| == 29 witness seq(29, i => 0)

  datatype Corners = Corners(x0: Int32, y0: Int32, x1: Int32, y1: Int32)

  datatype Place = Place(x: Int32, y: Int32)

  /** The 'b' record carries ten bytes before and twenty-nine after its rectangle that the interpreter skips. */
  datatype Record =
    | Alloc(id: Word, before: Bytes10, corners: Corners, after: Bytes29)
    | Draw(dst: Word, src: Word, mask: Word, corners: Corners, p0: Place, p1: Place)

  function PutInt(v: Int32): (b: seq<Byte>)
    ensures |b| == 4
  {
    Le32RoundTrip(Unsigned(v), []);
    Le32(Unsigned(v))
  }

  function PutWord(v: Word): (b: seq<Byte>)
    ensures |b| == 4
  {
    Le32RoundTrip(v, []);
    Le32(v)
  }

  function PutCorners(c: Corners): (b: seq<Byte>)
    ensures |b| == 16
  {
    PutInt(c.x0) + PutInt(c.y0) + PutInt(c.x1) + PutInt(c.y1)
  }

  function PutPlace(p: Place): (b: seq<Byte>)
    ensures |b| == 8
  {
    PutInt(p.x) + PutInt(p.y)
  }

  function Encoded(rec: Record): (b: seq<Byte>)
    ensures |b| == if rec.Alloc? then ALLOC_SIZE else DRAW_SIZE
  {
    match rec
    case Alloc(id, before, c, after) => [ALLOC] + PutWord(id) + before + PutCorners(c) + after
    case Draw(dst, src, mask, c, p0, p1) =>
      [DRAW] + PutWord(dst) + PutWord(src) + PutWord(mask) + PutCorners(c) + PutPlace(p0) + PutPlace(p1)
  }

  /** What a record asks for. */
  function Meaning<P>(painter: Painter<P>, t: Table<P>, rec: Record): Table<P> {
    var r := MakeRect(rec.corners.x0, rec.corners.y0, rec.corners.x1, rec.corners.y1);
    match rec
    case Alloc(id, _, _, _) => Allocate(painter, t, id, r)
    case Draw(dst, src, mask, _, p0, p1) =>
      DrawOp(painter, t, dst, src, mask, r, Point(p0.x, p0.y), Point(p1.x, p1.y))
  }

  function Perform<P>(painter: Painter<P>, t: Table<P>, recs: seq<Record>): Table<P>
    decreases recs
  {
    if recs == [] then t else Perform(painter, Meaning(painter, t, recs[0]), recs[1..])
  }

  function Batch(recs: seq<Record>): seq<Byte> {
    if recs == [] then [] else Encoded(recs[0]) + Batch(recs[1..])
  }

  /** One write per record. */
  function OneByOne<P>(painter: Painter<P>, t: Table<P>, recs: seq<Record>): Table<P>
    decreases recs
  {
    if recs == [] then t else OneByOne(painter, Interpret(painter, t, Encoded(recs[0])), recs[1..])
  }

  lemma WordAt(v: Word, tail: seq<Byte>)
    ensures GetLe32(PutWord(v) + tail) == v
  {
    Le32RoundTrip(v, tail);
  }

  lemma IntAt(b: seq<Byte>, at: nat, v: Int32)
    requires at + 4 <= |b| && b[at..at + 4] == PutInt(v)
    ensures GetInt(b, at) == v
  {
    hide GetLe32, Le32;
    Le32RoundTrip(Unsigned(v), b[at + 4..]);
    assert b[at..] == Le32(Unsigned(v)) + b[at + 4..];
  }

  lemma CornersRoundTrip(c: Corners)
    ensures ReadRect(PutCorners(c)) == MakeRect(c.x0, c.y0, c.x1, c.y1)
  {
    hide GetInt, PutInt, MakeRect;
    var b := PutCorners(c);
    IntAt(b, 0, c.x0);
    IntAt(b, 4, c.y0);
    IntAt(b, 8, c.x1);
    IntAt(b, 12, c.y1);
  }

  lemma PlaceRoundTrip(p: Place)
    ensures ReadPoint(PutPlace(p)) == Point(p.x, p.y)
  {
    hide GetInt, PutInt;
    IntAt(PutPlace(p), 0, p.x);
    IntAt(PutPlace(p), 4, p.y);
  }

  lemma AllocLayout(id: Word, before: Bytes10, c: Corners, after: Bytes29, tail: seq<Byte>)
    ensures var d := Encoded(Alloc(id, before, c, after)) + tail;
            d[0] == ALLOC && d[1..5] == PutWord(id) && d[15..31] == PutCorners(c) && d[60..] == tail
  {
    hide PutWord, PutCorners;
  }

  lemma DrawWords(dst: Word, src: Word, mask: Word, c: Corners, p0: Place, p1: Place, tail: seq<Byte>)
    ensures var d := Encoded(Draw(dst, src, mask, c, p0, p1)) + tail;
            d[0] == DRAW && d[1..5] == PutWord(dst) && d[5..9] == PutWord(src) && d[9..13] == PutWord(mask)
  {
    hide PutWord, PutCorners, PutPlace;
  }

  lemma DrawPlaces(dst: Word, src: Word, mask: Word, c: Corners, p0: Place, p1: Place, tail: seq<Byte>)
    ensures var d := Encoded(Draw(dst, src, mask, c, p0, p1)) + tail;
            d[13..29] == PutCorners(c) && d[29..37] == PutPlace(p0) && d[37..45] == PutPlace(p1) && d[45..] == tail
  {
    hide PutWord, PutCorners, PutPlace;
  }

  lemma DrawLayout(dst: Word, src: Word, mask: Word, c: Corners, p0: Place, p1: Place, tail: seq<Byte>)
    ensures var d := Encoded(Draw(dst, src, mask, c, p0, p1)) + tail;
            d[0] == DRAW && d[1..5] == PutWord(dst) && d[5..9] == PutWord(src) && d[9..13] == PutWord(mask) &&
            d[13..29] == PutCorners(c) && d[29..37] == PutPlace(p0) && d[37..45] == PutPlace(p1) && d[45..] == tail
  {
    hide Encoded, PutWord, PutCorners, PutPlace;
    DrawWords(dst, src, mask, c, p0, p1, tail);
    DrawPlaces(dst, src, mask, c, p0, p1, tail);
  }

  lemma WordRoundTrip(v: Word)
    ensures GetLe32(PutWord(v)) == v
  {
    WordAt(v, []);
    assert PutWord(v) + [] == PutWord(v);
  }

  /** A record at the front of a batch is decoded to exactly what it asks for. */
  lemma InterpretRecord<P>(painter: Painter<P>, t: Table<P>, rec: Record, tail: seq<Byte>)
    ensures Interpret(painter, t, Encoded(rec) + tail) == Interpret(painter, Meaning(painter, t, rec), tail)
  {
    hide Encoded, GetLe32, ReadRect, ReadPoint, MakeRect, PutWord, PutCorners, PutPlace, DrawOp, Allocate;
    CornersRoundTrip(rec.corners);
    match rec
    case Alloc(id, before, c, after) =>
      AllocLayout(id, before, c, after, tail);
      WordRoundTrip(id);
    case Draw(dst, src, mask, c, p0, p1) =>
      DrawLayout(dst, src, mask, c, p0, p1, tail);
      WordRoundTrip(dst);
      WordRoundTrip(src);
      WordRoundTrip(mask);
      PlaceRoundTrip(p0);
      PlaceRoundTrip(p1);
  }

  lemma {:induction false} BatchThen<P>(painter: Painter<P>, t: Table<P>, recs: seq<Record>, tail: seq<Byte>)
    ensures Interpret(painter, t, Batch(recs) + tail) == Interpret(painter, Perform(painter, t, recs), tail)
    decreases recs
  {
    hide Interpret, Encoded, Meaning;
    if recs == [] {
      assert Batch(recs) + tail == tail;
    } else {
      assert Batch(recs) + tail == Encoded(recs[0]) + (Batch(recs[1..]) + tail);
      InterpretRecord(painter, t, recs[0], Batch(recs[1..]) + tail);
      BatchThen(painter, Meaning(painter, t, recs[0]), recs[1..], tail);
    }
  }

  /** One write of a whole batch, one write per record, and the fold of the record meanings agree. */
  lemma {:induction false} BatchSemantics<P>(painter: Painter<P>, t: Table<P>, recs: seq<Record>)
    ensures Interpret(painter, t, Batch(recs)) == Perform(painter, t, recs) == OneByOne(painter, t, recs)
    decreases recs
  {
    hide Encoded, Meaning;
    BatchThen(painter, t, recs, []);
    assert Batch(recs) + [] == Batch(recs);
    if recs != [] {
      InterpretRecord(painter, t, recs[0], []);
      assert Encoded(recs[0]) + [] == Encoded(recs[0]);
      BatchSemantics(painter, Meaning(painter, t, recs[0]), recs[1..]);
    }
  }

  // ---------- what the records do, field by field ----------

  function Low(a: int, b: int): int { if a <= b then a else b }

  function High(a: int, b: int): int { if a <= b then b else a }

  /** The rectangle with these corners, in whichever order they are given. */
  function Spanned(c: Corners): Rect {
    Rect(Point(Low(c.x0, c.x1), Low(c.y0, c.y1)), Point(High(c.x0, c.x1), High(c.y0, c.y1)))
  }

  lemma SpannedIsMade(c: Corners)
    ensures MakeRect(c.x0, c.y0, c.x1, c.y1) == Spanned(c)
  {
  }

  /** A 'b' record: afterwards its image is there, blank, with the bounds its corners span, and every other image is as it was. */
  lemma AllocMeaning<P>(painter: Painter<P>, t: Table<P>, id: Word, before: Bytes10, c: Corners, after: Bytes29)
    ensures var t' := Interpret(painter, t, Encoded(Alloc(id, before, c, after)));
            t'.Keys == t.Keys + {id} && (forall k :: k in t && k != id ==> t'[k] == t[k]) &&
            t'[id].id == id && t'[id].bounds == Spanned(c) && t'[id].pix == painter.blank(Spanned(c))
  {
    var rec := Alloc(id, before, c, after);
    SpannedIsMade(c);
    hide Encoded, MakeRect, Spanned;
    InterpretRecord(painter, t, rec, []);
    assert Encoded(rec) + [] == Encoded(rec);
  }

  /**
   A 'd' record: when both images are there, the source, from its point on, is
   drawn over the rectangle of the destination, through the mask from its own point
   on if there is such an image; bounds and every other image are as they were.
   With either missing nothing changes.
   */
  lemma DrawMeaning<P>(painter: Painter<P>, t: Table<P>, dst: Word, src: Word, mask: Word, c: Corners, p0: Place, p1: Place)
    ensures var t' := Interpret(painter, t, Encoded(Draw(dst, src, mask, c, p0, p1)));
            if dst in t && src in t then
              t'.Keys == t.Keys && (forall k :: k in t && k != dst ==> t'[k] == t[k]) &&
              t'[dst].id == t[dst].id && t'[dst].bounds == t[dst].bounds &&
              t'[dst].pix ==
                painter.over(t[dst], Spanned(c), t[src], Point(p0.x, p0.y),
                             if mask in t then Some((t[mask], Point(p1.x, p1.y))) else None)
            else t' == t
  {
    var rec := Draw(dst, src, mask, c, p0, p1);
    SpannedIsMade(c);
    hide Encoded, MakeRect, Spanned;
    InterpretRecord(painter, t, rec, []);
    assert Encoded(rec) + [] == Encoded(rec);
  }

  /** The two layouts, byte by byte: little-endian words at fixed places. */
  lemma RecordLayout(rec: Record)
    ensures var b := Encoded(rec);
            match rec
            case Alloc(id, _, c, _) =>
              |b| == 60 && b[0] == 98 && WordIn(b, 1) == id && CornersIn(b, 15) == c
            case Draw(dst, src, mask, c, p0, p1) =>
              |b| == 45 && b[0] == 100 && WordIn(b, 1) == dst && WordIn(b, 5) == src && WordIn(b, 9) == mask &&
              CornersIn(b, 13) == c && PlaceIn(b, 29) == p0 && PlaceIn(b, 37) == p1
  {
    match rec
    case Alloc(id, before, c, after) => AllocBytes(id, before, c, after);
    case Draw(dst, src, mask, c, p0, p1) => DrawBytes(dst, src, mask, c, p0, p1);
  }

  function WordIn(b: seq<Byte>, at: nat): int
    requires at + 4 <= |b|
  {
    b[at] as int + 0x100 * b[at + 1] as int + 0x1_0000 * b[at + 2] as int + 0x100_0000 * b[at + 3] as int
  }

  function IntIn(b: seq<Byte>, at: nat): Int32
    requires at + 4 <= |b|
  {
    if WordIn(b, at) < 0x8000_0000 then WordIn(b, at) else WordIn(b, at) - 0x1_0000_0000
  }

  function CornersIn(b: seq<Byte>, at: nat): Corners
    requires at + 16 <= |b|
  {
    Corners(IntIn(b, at), IntIn(b, at + 4), IntIn(b, at + 8), IntIn(b, at + 12))
  }

  function PlaceIn(b: seq<Byte>, at: nat): Place
    requires at + 8 <= |b|
  {
    Place(IntIn(b, at), IntIn(b, at + 4))
  }

  lemma WordPlaced(b: seq<Byte>, at: nat, v: Word)
    requires at + 4 <= |b| && b[at..at + 4] == PutWord(v)
    ensures WordIn(b, at) == v
  {
    WordRoundTrip(v);
    var w := b[at..at + 4];
    assert w[0] == b[at] && w[1] == b[at + 1] && w[2] == b[at + 2] && w[3] == b[at + 3];
    hide PutWord, Le32;
    assert w[2..][0] == w[2] && w[2..][1] == w[3];
  }

  lemma IntPlaced(b: seq<Byte>, at: nat, v: Int32)
    requires at + 4 <= |b| && b[at..at + 4] == PutInt(v)
    ensures IntIn(b, at) == v
  {
    WordPlaced(b, at, Unsigned(v));
  }

  lemma SliceIn(b: seq<Byte>, at: nat, n: nat, i: nat)
    requires at + n <= |b| && i + 4 <= n
    ensures b[at..at + n][i..i + 4] == b[at + i..at + i + 4]
  {
    var w := b[at..at + n];
    var l, r := w[i..i + 4], b[at + i..at + i + 4];
    forall k | 0 <= k < |l| ensures l[k] == r[k] {
      assert w[i + k] == b[at + i + k];
    }
  }

  lemma CornersPlaced(b: seq<Byte>, at: nat, c: Corners)
    requires at + 16 <= |b| && b[at..at + 16] == PutCorners(c)
    ensures CornersIn(b, at) == c
  {
    var w := b[at..at + 16];
    hide PutInt, IntIn;
    assert w[0..4] == PutInt(c.x0) && w[4..8] == PutInt(c.y0) && w[8..12] == PutInt(c.x1) && w[12..16] == PutInt(c.y1);
    SliceIn(b, at, 16, 0);
    SliceIn(b, at, 16, 4);
    SliceIn(b, at, 16, 8);
    SliceIn(b, at, 16, 12);
    IntPlaced(b, at, c.x0);
    IntPlaced(b, at + 4, c.y0);
    IntPlaced(b, at + 8, c.x1);
    IntPlaced(b, at + 12, c.y1);
  }

  lemma PlacePlaced(b: seq<Byte>, at: nat, p: Place)
    requires at + 8 <= |b| && b[at..at + 8] == PutPlace(p)
    ensures PlaceIn(b, at) == p
  {
    var w := b[at..at + 8];
    hide PutInt, IntIn;
    assert w[0..4] == PutInt(p.x) && w[4..8] == PutInt(p.y);
    SliceIn(b, at, 8, 0);
    SliceIn(b, at, 8, 4);
    IntPlaced(b, at, p.x);
    IntPlaced(b, at + 4, p.y);
  }

  lemma AllocBytes(id: Word, before: Bytes10, c: Corners, after: Bytes29)
    ensures var b := Encoded(Alloc(id, before, c, after));
            |b| == 60 && b[0] == 98 && WordIn(b, 1) == id && CornersIn(b, 15) == c
  {
    var b := Encoded(Alloc(id, before, c, after));
    AllocLayout(id, before, c, after, []);
    assert b + [] == b;
    hide Encoded, PutWord, PutCorners, WordIn, CornersIn;
    WordPlaced(b, 1, id);
    CornersPlaced(b, 15, c);
  }

  lemma DrawBytes(dst: Word, src: Word, mask: Word, c: Corners, p0: Place, p1: Place)
    ensures var b := Encoded(Draw(dst, src, mask, c, p0, p1));
            |b| == 45 && b[0] == 100 && WordIn(b, 1) == dst && WordIn(b, 5) == src && WordIn(b, 9) == mask &&
            CornersIn(b, 13) == c && PlaceIn(b, 29) == p0 && PlaceIn(b, 37) == p1
  {
    var b := Encoded(Draw(dst, src, mask, c, p0, p1));
    DrawLayout(dst, src, mask, c, p0, p1, []);
    assert b + [] == b;
    hide Encoded, PutWord, PutCorners, PutPlace, WordIn, CornersIn, PlaceIn;
    WordPlaced(b, 1, dst);
    WordPlaced(b, 5, src);
    WordPlaced(b, 9, mask);
    CornersPlaced(b, 13, c);
    PlacePlaced(b, 29, p0);
    PlacePlaced(b, 37, p1);
  }

  // ---------- arbitrary data ----------

  /** Bytes that end a batch: nothing left, a record cut short, or an unknown command. */
  predicate Inert(tail: seq<Byte>) {
    tail == [] || (tail[0] == ALLOC && |tail| < ALLOC_SIZE) || (tail[0] == DRAW && |tail| < DRAW_SIZE)
    || (tail[0] != ALLOC && tail[0] != DRAW)
  }

  function DecodeCorners(b: seq<Byte>): Corners
    requires |b| == 16
  {
    Corners(GetInt(b, 0), GetInt(b, 4), GetInt(b, 8), GetInt(b, 12))
  }

  function DecodePlace(b: seq<Byte>): Place
    requires |b| == 8
  {
    Place(GetInt(b, 0), GetInt(b, 4))
  }

  /** The record at the front of data that is not inert. */
  function FirstRecord(data: seq<Byte>): Record
    requires !Inert(data)
  {
    if data[0] == ALLOC then
      Alloc(GetLe32(data[1..5]), data[5..15], DecodeCorners(data[15..31]), data[31..60])
    else
      Draw(GetLe32(data[1..5]), GetLe32(data[5..9]), GetLe32(data[9..13]), DecodeCorners(data[13..29]),
           DecodePlace(data[29..37]), DecodePlace(data[37..45]))
  }

  lemma IntBack(b: seq<Byte>, at: nat)
    requires at + 4 <= |b|
    ensures PutInt(GetInt(b, at)) == b[at..at + 4]
  {
    WordBack(b[at..at + 4]);
    assert b[at..][..4] == b[at..at + 4];
    var u := GetLe32(b[at..]);
    assert u == GetLe32(b[at..at + 4]);
    assert Unsigned(Signed(u)) == u;
  }

  lemma WordBack(b: seq<Byte>)
    requires |b| == 4
    ensures Le32(GetLe32(b)) == b
  {
    var lo, hi := GetLe16(b), GetLe16(b[2..]);
    var v := GetLe32(b);
    assert v % U16 == lo && v / U16 == hi;
  }

  lemma CornersBack(b: seq<Byte>)
    requires |b| == 16
    ensures PutCorners(DecodeCorners(b)) == b
  {
    hide GetInt, PutInt;
    IntBack(b, 0);
    IntBack(b, 4);
    IntBack(b, 8);
    IntBack(b, 12);
  }

  lemma PlaceBack(b: seq<Byte>)
    requires |b| == 8
    ensures PutPlace(DecodePlace(b)) == b
  {
    hide GetInt, PutInt;
    IntBack(b, 0);
    IntBack(b, 4);
  }

  lemma AllocBack(data: seq<Byte>)
    requires ALLOC_SIZE <= |data| && data[0] == ALLOC
    ensures Encoded(FirstRecord(data)) == data[..ALLOC_SIZE]
  {
    hide GetLe32, PutInt, GetInt, Le32, DecodeCorners, DecodePlace, PutCorners, PutPlace;
    WordBack(data[1..5]);
    CornersBack(data[15..31]);
    assert data[..60] == data[0..1] + data[1..5] + data[5..15] + data[15..31] + data[31..60];
  }

  lemma DrawSlices(data: seq<Byte>)
    requires DRAW_SIZE <= |data|
    ensures data[..45] ==
              data[0..1] + data[1..5] + data[5..9] + data[9..13] + data[13..29] + data[29..37] + data[37..45]
  {
    assert data[..13] == data[0..1] + data[1..5] + data[5..9] + data[9..13];
    assert data[..45] == data[..13] + data[13..29] + data[29..37] + data[37..45];
  }

  lemma DrawBack(data: seq<Byte>)
    requires DRAW_SIZE <= |data| && data[0] == DRAW
    ensures Encoded(FirstRecord(data)) == data[..DRAW_SIZE]
  {
    hide GetLe32, PutInt, GetInt, Le32, DecodeCorners, DecodePlace, PutCorners, PutPlace;
    WordBack(data[1..5]);
    WordBack(data[5..9]);
    WordBack(data[9..13]);
    CornersBack(data[13..29]);
    PlaceBack(data[29..37]);
    PlaceBack(data[37..45]);
    assert data[0..1] == [DRAW];
    DrawSlices(data);
  }

  lemma FirstRecordBack(data: seq<Byte>)
    requires !Inert(data)
    ensures Encoded(FirstRecord(data)) <= data
  {
    hide Encoded, FirstRecord;
    if data[0] == ALLOC {
      AllocBack(data);
    } else {
      DrawBack(data);
    }
  }

  /**
   Every write, whatever its bytes, is a list of whole records followed by
   bytes without effect, and does what those records ask for.
   */
  lemma {:induction false} EveryWriteIsABatch(data: seq<Byte>) returns (recs: seq<Record>, tail: seq<Byte>)
    ensures data == Batch(recs) + tail && Inert(tail)
    decreases |data|
  {
    hide Encoded, FirstRecord;
    if Inert(data) {
      recs, tail := [], data;
    } else {
      var rec := FirstRecord(data);
      FirstRecordBack(data);
      var k := |Encoded(rec)|;
      var rest;
      rest, tail := EveryWriteIsABatch(data[k..]);
      recs := [rec] + rest;
      assert data == Encoded(rec) + data[k..];
    }
  }

  lemma WriteMeaning<P>(painter: Painter<P>, t: Table<P>, recs: seq<Record>, tail: seq<Byte>)
    requires Inert(tail)
    ensures Interpret(painter, t, Batch(recs) + tail) == Perform(painter, t, recs)
  {
    BatchThen(painter, t, recs, tail);
  }

  predicate Unknown(tail: seq<Byte>) { tail != [] && tail[0] != ALLOC && tail[0] != DRAW }

  predicate Short(tail: seq<Byte>) { tail != [] && Inert(tail) && !Unknown(tail) }

  /** How many bytes a record cut short lacks. */
  function Missing(tail: seq<Byte>): (n: nat)
    requires Short(tail)
    ensures 0 < n
  {
    (if tail[0] == ALLOC then ALLOC_SIZE else DRAW_SIZE) - |tail|
  }

  /**
   A batch that goes on after its inert tail. Between records more is
   interpreted by itself; after an unknown command it is lost; a record cut short
   is completed by the first bytes of more, or swallows all of them.
   */
  lemma WritesCompose<P>(painter: Painter<P>, t: Table<P>, recs: seq<Record>, tail: seq<Byte>, more: seq<Byte>)
    requires Inert(tail)
    ensures var first := Batch(recs) + tail;
            var t' := Interpret(painter, t, first);
            Interpret(painter, t, first + more) ==
              if tail == [] then Interpret(painter, t', more)
              else if Unknown(tail) || |more| < Missing(tail) then t'
              else Interpret(painter, Meaning(painter, t', FirstRecord(tail + more[..Missing(tail)])), more[Missing(tail)..])
  {
    hide Batch, Perform, Meaning, FirstRecord;
    assert Batch(recs) + tail + more == Batch(recs) + (tail + more);
    BatchThen(painter, t, recs, tail + more);
    BatchThen(painter, t, recs, tail);
    if tail == [] {
      assert tail + more == more;
    } else if Short(tail) && Missing(tail) <= |more| {
      CompletedRecord(painter, Perform(painter, t, recs), tail, more);
    }
  }

  lemma CompletedRecord<P>(painter: Painter<P>, t: Table<P>, tail: seq<Byte>, more: seq<Byte>)
    requires Short(tail) && Missing(tail) <= |more|
    ensures Interpret(painter, t, tail + more) ==
              Interpret(painter, Meaning(painter, t, FirstRecord(tail + more[..Missing(tail)])), more[Missing(tail)..])
  {
    hide Interpret, Encoded, Meaning;
    var n := Missing(tail);
    var whole := tail + more[..n];
    FirstRecordBack(whole);
    assert Encoded(FirstRecord(whole)) == whole;
    assert tail + more == whole + more[n..];
    InterpretRecord(painter, t, FirstRecord(whole), more[n..]);
  }

  /** A record that any table would notice. */
  function Noticeable<P>(t: Table<P>): Record {
    var c := if 0 in t && t[0].bounds == MakeRect(0, 0, 0, 0) then Corners(0, 0, 1, 1) else Corners(0, 0, 0, 0);
    Alloc(0, Zeros(10), c, Zeros(29))
  }

  lemma Noticed<P>(painter: Painter<P>, t: Table<P>, t': Table<P>)
    ensures Interpret(painter, t', Encoded(Noticeable(t))) != t
  {
    var rec := Noticeable(t);
    InterpretRecord(painter, t', rec, []);
    assert Encoded(rec) + [] == Encoded(rec);
    hide Encoded;
    var r := MakeRect(rec.corners.x0, rec.corners.y0, rec.corners.x1, rec.corners.y1);
    assert Interpret(painter, Meaning(painter, t', rec), []) == t'[0 := Image(0, r, painter.blank(r))];
    assert 0 in t ==> t[0].bounds != r;
  }

  /** After a tail some continuation is lost, or turned into something else. */
  lemma TailShows<P>(painter: Painter<P>, t: Table<P>, tail: seq<Byte>) returns (more: seq<Byte>)
    requires Inert(tail) && tail != []
    ensures Interpret(painter, t, more) != Interpret(painter, t, tail + more)
  {
    hide Encoded, Noticeable;
    var rec := Noticeable(t);
    Noticed(painter, t, t);
    if Unknown(tail) {
      more := Encoded(rec);
    } else {
      var n := Missing(tail);
      more := Zeros(n) + Encoded(rec);
      assert more[..n] == Zeros(n) && more[n..] == Encoded(rec);
      CompletedRecord(painter, t, tail, more);
      Noticed(painter, t, Meaning(painter, t, FirstRecord(tail + Zeros(n))));
      hide Meaning, FirstRecord;
      assert more[0] == 0;
    }
  }

  /**
   Where a write may be cut: two writes do what their concatenation does,
   whatever the second one is, if and only if the first ends between records.
   */
  lemma CutBetweenRecords<P>(painter: Painter<P>, t: Table<P>, recs: seq<Record>, tail: seq<Byte>)
    requires Inert(tail)
    ensures var first := Batch(recs) + tail;
            (forall more :: Interpret(painter, Interpret(painter, t, first), more) == Interpret(painter, t, first + more))
            <==> tail == []
  {
    hide Interpret, Batch, Perform;
    var first := Batch(recs) + tail;
    if tail == [] {
      forall more ensures Interpret(painter, Interpret(painter, t, first), more) == Interpret(painter, t, first + more) {
        WritesCompose(painter, t, recs, tail, more);
      }
    } else {
      WriteMeaning(painter, t, recs, tail);
      var more := TailShows(painter, Perform(painter, t, recs), tail);
      BatchThen(painter, t, recs, tail + more);
      assert first + more == Batch(recs) + (tail + more);
    }
  }

  // ---------- what every run keeps ----------

  lemma {:induction false} InterpretKeepsGood<P>(painter: Painter<P>, t: Table<P>, data: seq<Byte>)
    requires Good(t)
    ensures Good(Interpret(painter, t, data))
    ensures t.Keys <= Interpret(painter, t, data).Keys
  {
    var recs, tail := EveryWriteIsABatch(data);
    BatchThen(painter, t, recs, tail);
    PerformKeepsGood(painter, t, recs);
  }

  lemma {:induction false} PerformKeepsGood<P>(painter: Painter<P>, t: Table<P>, recs: seq<Record>)
    requires Good(t)
    ensures Good(Perform(painter, t, recs)) && t.Keys <= Perform(painter, t, recs).Keys
    decreases recs
  {
    if recs != [] {
      assert Good(Meaning(painter, t, recs[0]));
      PerformKeepsGood(painter, Meaning(painter, t, recs[0]), recs[1..]);
    }
  }
}
