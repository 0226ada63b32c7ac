/**
 A network connection: the bytes still to come, in the pieces in which the
 network will hand them over, and the payloads written so far.
 */
module Wire {
  import opened Bytes

  /** One Read into a buffer of k bytes: the bytes it returns and what is left to come. */
  function ReadOnce(chunks: seq<Chunk>, k: nat): (r: (seq<Byte>, seq<Chunk>))
    requires 0 < k && chunks != []
    ensures 0 < |r.0| <= k
    ensures Concat(chunks) == r.0 + Concat(r.1)
  {
    var c: seq<Byte> := chunks[0];
    if |c| <= k then (c, chunks[1..])
    else
      var rest: seq<Chunk> := [c[k..]] + chunks[1..];
      assert rest[1..] == chunks[1..];
      assert c == c[..k] + c[k..];
      (c[..k], rest)
  }

  /** Reads until k bytes are in: None when the stream ends first. */
  function ReadAll(chunks: seq<Chunk>, k: nat): Option<(seq<Byte>, seq<Chunk>)>
    decreases k
  {
    if k == 0 then Some(([], chunks))
    else if chunks == [] then None
    else
      var (got, rest) := ReadOnce(chunks, k);
      match ReadAll(rest, k - |got|)
      case None => None
      case Some((more, rest')) => Some((got + more, rest'))
  }

  /** Reading k bytes depends on the stream alone, not on how it arrives in pieces. */
  lemma {:induction false} ReadAllIsPrefix(chunks: seq<Chunk>, k: nat)
    ensures ReadAll(chunks, k).Some? <==> k <= |Concat(chunks)|
    ensures ReadAll(chunks, k).Some? ==>
              var (got, rest) := ReadAll(chunks, k).value;
              |got| == k && Concat(chunks) == got + Concat(rest)
    decreases k
  {
    if 0 < k && chunks != [] {
      var (got, rest) := ReadOnce(chunks, k);
      ReadAllIsPrefix(rest, k - |got|);
    }
  }

  class Conn {
    var chunks: seq<Chunk>
    var sent: seq<seq<Byte>>
    var writable: nat           // how many more writes succeed before the connection fails

    constructor (chunks: seq<Chunk>, writable: nat)
      ensures this.chunks == chunks && this.sent == [] && this.writable == writable
    {
      this.chunks, this.sent, this.writable := chunks, [], writable;
    }

    /** Everything the peer will ever have sent from here on. */
    function Stream(): seq<Byte>
      reads this
    {
      Concat(chunks)
    }

    method Read(k: nat) returns (got: Option<seq<Byte>>)
      requires 0 < k
      modifies this`chunks
      ensures old(chunks) == [] ==> got == None && chunks == []
      ensures old(chunks) != [] ==> got == Some(ReadOnce(old(chunks), k).0) && chunks == ReadOnce(old(chunks), k).1
    {
      if chunks == [] {
        return None;
      }
      var c: seq<Byte> := chunks[0];
      if |c| <= k {
        got, chunks := Some(c), chunks[1..];
      } else {
        got, chunks := Some(c[..k]), [c[k..]] + chunks[1..];
      }
    }

    /** io.ReadFull(conn, buf[lo:hi]): fills the slice, or fails with the stream used up. */
    method ReadFull(buf: array<Byte>, lo: nat, hi: nat) returns (ok: bool)
      requires lo <= hi <= buf.Length
      modifies this`chunks, buf
      ensures ok <==> hi - lo <= |old(Stream())|
      ensures ok ==> old(Stream()) == buf[lo..hi] + Stream()
      ensures !ok ==> Stream() == []
      ensures buf[..lo] == old(buf[..lo])
    {
      var n := lo;
      while n < hi
        invariant lo <= n <= hi
        invariant old(Stream()) == buf[lo..n] + Stream()
        invariant buf[..lo] == old(buf[..lo])
      {
        ghost var had := buf[lo..n];
        var piece := Read(hi - n);
        if piece.None? {
          return false;
        }
        var p := piece.value;
        forall i | 0 <= i < |p| {
          buf[n + i] := p[i];
        }
        assert buf[lo..n + |p|] == had + p;
        n := n + |p|;
      }
      return true;
    }

    method Write(payload: seq<Byte>) returns (ok: bool)
      modifies this`sent, this`writable
      ensures ok == (0 < old(writable))
      ensures sent == if ok then old(sent) + [payload] else old(sent)
      ensures writable == if ok then old(writable) - 1 else 0
    {
      ok := 0 < writable;
      if ok {
        sent, writable := sent + [payload], writable - 1;
      }
    }
  }
}
