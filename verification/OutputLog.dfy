/**
 The multi-reader output log: an append-only byte log, one offset per open
 fid, a closed flag and a wake channel with room for one token. Both daemons
 keep one per agent.
 */
module OutputLog {
  import opened Bytes

  type Fid = nat

  const MAX_LEN: nat := U64 / 2 - 1        // bytes.Buffer panics beyond

  datatype Log = Log(data: seq<Byte>, closed: bool, token: bool, readers: map<Fid, nat>)

  const EMPTY: Log := Log([], false, false, map[])

  datatype ReadResult = Got(bytes: seq<Byte>) | Eof | Wait | OutOfRange

  /** The recorded offset; a missing map entry reads as zero. */
  function Offset(l: Log, fid: Fid): nat {
    if fid in l.readers then l.readers[fid] else 0
  }

  /** The unsigned difference, as the program computes it. */
  function Available(total: nat, offset: nat): nat { (total - offset) % U64 }

  /** The bytes a reader with this offset gets now, if any. */
  function Peek(l: Log, offset: nat, count: nat): ReadResult {
    var avail := Available(|l.data|, offset);
    if 0 < avail then
      var n := if avail < count then avail else count;
      if offset + n <= |l.data| then Got(l.data[offset..offset + n]) else OutOfRange
    else if l.closed then Eof
    else Wait
  }

  function Append(l: Log, d: seq<Byte>): Log { l.(data := l.data + d) }

  function Notify(l: Log): Log { l.(token := true) }

  function Record(l: Log, fid: Fid, offset: nat): Log { l.(readers := l.readers[fid := offset]) }

  function Forget(l: Log, fid: Fid): Log { l.(readers := l.readers - {fid}) }

  /** Every recorded offset lies within the log. */
  ghost predicate InRange(l: Log) {
    |l.data| <= MAX_LEN && forall fid :: fid in l.readers ==> l.readers[fid] <= |l.data|
  }

  /** Within the log the difference never wraps and no slice is out of range. */
  lemma PeekIsExact(l: Log, offset: nat, count: nat)
    requires offset <= |l.data| <= MAX_LEN
    ensures Available(|l.data|, offset) == |l.data| - offset
    ensures match Peek(l, offset, count)
            case Got(b) => offset < |l.data| && b <= l.data[offset..] &&
                           (|b| == count || offset + |b| == |l.data|) && |b| <= count
            case Eof => offset == |l.data| && l.closed
            case Wait => offset == |l.data| && !l.closed
            case OutOfRange => false
  {
    var n := if |l.data| - offset < count then |l.data| - offset else count;
    assert l.data[offset..][..n] == l.data[offset..offset + n];
  }

  /** A difference that wraps is what an offset past the end would bring. */
  lemma WrapsBeyondTheEnd(l: Log, offset: nat)
    requires |l.data| < offset <= MAX_LEN
    ensures U64 / 2 < Available(|l.data|, offset)
    ensures Peek(l, offset, 1) == OutOfRange
  {
    assert (|l.data| - offset) % U64 == |l.data| - offset + U64;
  }
}
