/**
 The record factotum hands out when authentication is done: three strings and
 a secret, each behind a 16-bit little-endian length.
 */
module AuthInfo {
  import opened Bytes

  datatype AuthInfo = AuthInfo(cuid: seq<Byte>, suid: seq<Byte>, cap: seq<Byte>, secret: seq<Byte>)

  /** gstring and garray: a field and the bytes after it. A short field is empty, and only its length is skipped. */
  function GetField(buf: seq<Byte>): (r: (seq<Byte>, seq<Byte>))
    ensures exists k :: 0 <= k <= |buf| && r.0 == buf[k..]
    ensures |r.1| < U16
  {
    if |buf| < 2 then
      assert buf[0..] == buf;
      (buf, [])
    else
      var n := GetLe16(buf);
      var rest := buf[2..];
      if |rest| < n then (rest, [])
      else
        assert rest[n..] == buf[2 + n..];
        (rest[n..], rest[..n])
  }

  /** convM2AI. It has no failing case. */
  function ConvM2AI(buf: seq<Byte>): (ai: AuthInfo)
    ensures Encodable(ai)
  {
    var (b1, cuid) := GetField(buf);
    var (b2, suid) := GetField(b1);
    var (b3, cap) := GetField(b2);
    var (_, secret) := GetField(b3);
    AuthInfo(cuid, suid, cap, secret)
  }

  function PutField(s: seq<Byte>): seq<Byte>
    requires |s| < U16
  {
    Le16(|s|) + s
  }

  predicate Encodable(ai: AuthInfo) {
    |ai.cuid| < U16 && |ai.suid| < U16 && |ai.cap| < U16 && |ai.secret| < U16
  }

  function Encode(ai: AuthInfo): seq<Byte>
    requires Encodable(ai)
  {
    PutField(ai.cuid) + PutField(ai.suid) + PutField(ai.cap) + PutField(ai.secret)
  }

  lemma FieldRoundTrip(s: seq<Byte>, tail: seq<Byte>)
    requires |s| < U16
    ensures GetField(PutField(s) + tail) == (tail, s)
  {
    var b := PutField(s) + tail;
    assert b[0] == |s| % 256 && b[1] == |s| / 256;
    assert b[2..] == s + tail;
    assert (s + tail)[..|s|] == s && (s + tail)[|s|..] == tail;
  }

  /** Decoding recovers all four fields, whatever follows the record. */
  lemma AuthInfoRoundTrip(ai: AuthInfo, tail: seq<Byte>)
    requires Encodable(ai)
    ensures ConvM2AI(Encode(ai) + tail) == ai
  {
    var t3 := PutField(ai.secret) + tail;
    var t2 := PutField(ai.cap) + t3;
    var t1 := PutField(ai.suid) + t2;
    assert Encode(ai) + tail == PutField(ai.cuid) + t1;
    FieldRoundTrip(ai.cuid, t1);
    FieldRoundTrip(ai.suid, t2);
    FieldRoundTrip(ai.cap, t3);
    FieldRoundTrip(ai.secret, tail);
  }

  /** The decoder accepts anything; its answer is the record in the buffer exactly when the buffer starts with one. */
  lemma DecodedIsTheRecord(buf: seq<Byte>)
    ensures (exists ai :: Encodable(ai) && Encode(ai) <= buf) <==> Encode(ConvM2AI(buf)) <= buf
  {
    hide ConvM2AI, Encode;
    if ai :| Encodable(ai) && Encode(ai) <= buf {
      assert buf == Encode(ai) + buf[|Encode(ai)|..];
      AuthInfoRoundTrip(ai, buf[|Encode(ai)|..]);
    }
  }

  /** A truncated answer is not refused: it decodes to empty fields. */
  lemma TruncatedStillDecodes(buf: seq<Byte>)
    requires |buf| < 2
    ensures ConvM2AI(buf) == AuthInfo([], [], [], [])
  {
  }

  /**
   A field that claims more bytes than follow is decoded as empty, and only its
   length is skipped: what was meant as its contents is read as the next field.
   */
  lemma ShortFieldShifts(n: nat, part: seq<Byte>)
    requires |part| < n < U16
    ensures GetField(Le16(n) + part) == (part, [])
    ensures var (b2, suid) := GetField(part);
            var (b3, cap) := GetField(b2);
            ConvM2AI(Le16(n) + part) == AuthInfo([], suid, cap, GetField(b3).1)
  {
    var b := Le16(n) + part;
    assert b[0] == n % 256 && b[1] == n / 256 && b[2..] == part;
  }
}
