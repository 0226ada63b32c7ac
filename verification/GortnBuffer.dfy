/**
 The output side of a rcpud agent, operation by operation. Reads look up the
 offset under one lock and copy the bytes under another; here each operation
 runs undisturbed, and GortnAgent says what interleaving does to them.
 */
module GortnBuffer {
  import opened Bytes
  import opened OutputLog
  import opened AgentBuffer

  datatype Phase = Idle | Running | Stopped

  function OpenAtStart(l: Log, fid: Fid): Log { Record(l, fid, 0) }

  function Prefix(id: seq<Byte>): seq<Byte> { Ascii("[gortns ") + id + Ascii("] ") }

  function StoppedLine(id: seq<Byte>): seq<Byte> { Prefix(id) + Ascii("stopped\n") }

  /** The critical section with which the run loop ends the log. */
  function Finish(l: Log, id: seq<Byte>): Log {
    if l.closed then l else Append(l, StoppedLine(id)).(closed := true)
  }

  class Gortn {
    const id: seq<Byte>
    var state: Phase
    var status: seq<Byte>
    var outBuf: seq<Byte>
    var outWake: bool                 // a channel of capacity one
    var closed: bool
    var readers: map<Fid, nat>
    ghost var signals: nat            // how often its stop channel was offered a signal

    constructor (id: seq<Byte>)
      ensures this.id == id && Contents() == EMPTY && state == Idle && status == [] && signals == 0
    {
      this.id := id;
      state, status, outBuf, outWake, closed, readers := Idle, [], [], false, false, map[];
      signals := 0;
    }

    function Contents(): Log
      reads this
    {
      Log(outBuf, closed, outWake, readers)
    }

    method SetState(s: Phase, detail: seq<Byte>)
      modifies this`state, this`status
      ensures state == s && status == detail
    {
      state, status := s, detail;
    }

    method WriteOut(data: seq<Byte>)
      modifies this`outBuf, this`outWake
      ensures Contents() == Notify(Append(old(Contents()), data))
    {
      outBuf := outBuf + data;
      outWake := true;
    }

    method OpenReader(fid: Fid)
      modifies this`readers
      ensures Contents() == OpenAtStart(old(Contents()), fid)
    {
      readers := readers[fid := 0];
    }

    method CloseReader(fid: Fid)
      modifies this`readers
      ensures Contents() == Forget(old(Contents()), fid)
    {
      readers := readers - {fid};
    }

    /** One undisturbed turn of readOut's loop. Undisturbed, it is the atomic read of agentBuf. */
    method TryRead(fid: Fid, count: nat) returns (r: ReadResult)
      requires InRange(Contents())
      modifies this`readers
      ensures (Contents(), r) == Attempt(old(Contents()), fid, count)
      ensures InRange(Contents()) && r != OutOfRange
    {
      var offset := if fid in readers then readers[fid] else 0;     // under readersMu
      PeekIsExact(Contents(), offset, count);
      var bufLen := |outBuf|;                                       // under g.mu from here on
      var avail := (bufLen - offset) % U64;
      if 0 < avail {
        var n := count;
        if avail < n {
          n := avail;
        }
        var data := outBuf[offset..offset + n];
        readers := readers[fid := offset + n];                      // under both
        return Got(data);
      }
      if closed {
        return Eof;
      }
      return Wait;
    }

    /** A send that does not wait. Who receives it, if anybody, depends on who waits. */
    method StopAgent()
      modifies this`signals
      ensures signals == old(signals) + 1
    {
      signals := signals + 1;
    }

    /** The run loop has received the stop signal. */
    method StopRun()
      modifies this
      ensures Contents() == Notify(Finish(old(Contents()), id))
      ensures state == Stopped && closed && signals == old(signals)
    {
      state, status := Stopped, Ascii("stopped");
      if !closed {
        closed := true;
        outBuf := outBuf + StoppedLine(id);
      }
      outWake := true;
    }
  }
}
