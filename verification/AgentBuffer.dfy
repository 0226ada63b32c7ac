/**
 agentBuf of l9term: each operation is one critical section under one mutex,
 and a writer tries to leave a wake token after it.
 */
module AgentBuffer {
  import opened Bytes
  import opened OutputLog

  /** One critical section of Read: the result, and the reader's new offset when it got bytes. */
  function Attempt(l: Log, fid: Fid, count: nat): (Log, ReadResult) {
    var r := Peek(l, Offset(l, fid), count);
    (if r.Got? then Record(l, fid, Offset(l, fid) + |r.bytes|) else l, r)
  }

  function OpenAtEnd(l: Log, fid: Fid): Log { Record(l, fid, |l.data|) }

  class AgentBuf {
    var buf: seq<Byte>
    var closed: bool
    var wake: bool                    // a channel of capacity one
    var readers: map<Fid, nat>

    constructor ()
      ensures Contents() == EMPTY
    {
      buf, closed, wake, readers := [], false, false, map[];
    }

    function Contents(): Log
      reads this
    {
      Log(buf, closed, wake, readers)
    }

    method Write(data: seq<Byte>)
      modifies this`buf, this`wake
      ensures Contents() == Notify(Append(old(Contents()), data))
    {
      buf := buf + data;
      wake := true;
    }

    method Close()
      modifies this`closed, this`wake
      ensures Contents() == Notify(old(Contents()).(closed := true))
    {
      closed := true;
      wake := true;
    }

    method OpenRead(fid: Fid)
      modifies this`readers
      ensures Contents() == OpenAtEnd(old(Contents()), fid)
    {
      readers := readers[fid := |buf|];
    }

    method CloseRead(fid: Fid)
      modifies this`readers
      ensures Contents() == Forget(old(Contents()), fid)
    {
      readers := readers - {fid};
    }

    /** One turn of Read's loop. Wait means that it goes on to wait for a token or the timer, and then comes back. */
    method TryRead(fid: Fid, count: nat) returns (r: ReadResult)
      requires InRange(Contents())
      modifies this`readers
      ensures (Contents(), r) == Attempt(old(Contents()), fid, count)
      ensures InRange(Contents()) && r != OutOfRange
    {
      var offset := if fid in readers then readers[fid] else 0;
      PeekIsExact(Contents(), offset, count);
      var total := |buf|;
      var avail := (total - offset) % U64;
      if 0 < avail {
        var n := count;
        if avail < n {
          n := avail;
        }
        r := Got(buf[offset..offset + n]);
        readers := readers[fid := offset + n];
        return;
      }
      if closed {
        return Eof;
      }
      return Wait;
    }
  }
}
