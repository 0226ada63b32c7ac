/**
 What a rcpud agent does with its commands and its read requests, from the
 receipt of each to its end.
 */
module GortnRequests {
  import opened Bytes
  import opened OutputLog
  import opened GortnBuffer
  import opened GortnAgent
  import opened GortnReads
  import opened GortnStops
  import opened GortnRefinement

  // ---------- read requests ----------

  /** A read in flight asks for what its caller asked for, whatever anybody does in between. */
  lemma RequestKept(s: State, st: Step, t: Tid)
    requires Enabled(s, st) && t in s.readers && t in Apply(s, st).readers
    ensures Apply(s, st).readers[t].fid == s.readers[t].fid && Apply(s, st).readers[t].count == s.readers[t].count
  {
    if ByReader(st) {
      hide Payload, Peek, GortnAgent.Deliver, WriterEnabled, WriterApply;
    } else {
      hide Enabled, Apply, Payload;
      WritersLeaveReaders(s, st, t);
    }
  }

  lemma WritersLeaveReaders(s: State, st: Step, t: Tid)
    requires Enabled(s, st) && !ByReader(st) && t in Apply(s, st).readers
    ensures t in s.readers && Apply(s, st).readers[t] == s.readers[t]
  {
    hide Enabled, Apply, Payload;
    if Appends(st) {
      AppendStep(s, st);
    } else if Sends(st) {
      SendStep(s, st);
    } else if st.RunStop? {
      StopStep(s, st);
    } else {
      QuietStep(s, st);
    }
  }

  /** The last read that t started. */
  function Asked(steps: seq<Step>, t: Tid): Option<(Fid, nat)>
    decreases |steps|
  {
    if steps == [] then None
    else
      var st := steps[|steps| - 1];
      if st.StartRead? && st.tid == t then Some((st.fid, st.count)) else Asked(steps[..|steps| - 1], t)
  }

  ghost predicate AsAsked(s: State, done: seq<Step>) {
    forall t :: t in s.readers ==> Asked(done, t) == Some((s.readers[t].fid, s.readers[t].count))
  }

  lemma StartsReading(s: State, st: Step, t: Tid)
    requires Enabled(s, st) && t in Apply(s, st).readers
    ensures (st.StartRead? && st.tid == t) <==> t !in s.readers
    ensures t !in s.readers ==> Apply(s, st).readers[t].fid == st.fid && Apply(s, st).readers[t].count == st.count
  {
    if ByReader(st) {
      hide Payload, Peek, GortnAgent.Deliver, WriterEnabled, WriterApply;
    } else {
      hide Enabled, Apply, Payload;
      WritersLeaveReaders(s, st, t);
    }
  }

  lemma StepAsAsked(s: State, st: Step, done: seq<Step>)
    requires Enabled(s, st) && AsAsked(s, done)
    ensures AsAsked(Apply(s, st), done + [st])
  {
    hide Enabled, Apply;
    var s' := Apply(s, st);
    assert (done + [st])[..|done|] == done;
    forall t | t in s'.readers ensures Asked(done + [st], t) == Some((s'.readers[t].fid, s'.readers[t].count)) {
      StartsReading(s, st, t);
      if t in s.readers {
        RequestKept(s, st, t);
      }
    }
  }

  lemma {:induction false} RunAsAsked(s: State, steps: seq<Step>, done: seq<Step>)
    requires Runs(s, steps) && AsAsked(s, done)
    ensures AsAsked(After(s, steps), done + steps)
    decreases steps
  {
    hide Enabled, Apply, AsAsked;
    if steps == [] {
      assert done + [] == done;
    } else {
      StepAsAsked(s, steps[0], done);
      RunAsAsked(Apply(s, steps[0]), steps[1..], done + [steps[0]]);
      assert done + [steps[0]] + steps[1..] == done + steps;
    }
  }

  /** The goroutine whose read a step can end. */
  function Ends(st: Step): Option<Tid> {
    match st
    case RecordOffset(tid) => Some(tid)
    case Check(tid) => Some(tid)
    case _ => Interrupts(st)
  }

  lemma EventIsOf(s: State, st: Step, e: Event)
    requires Enabled(s, st) && EventOf(s, st) == [e] && (e.Returned? || e.Interrupted?)
    ensures Ends(st).Some? && Ends(st).value in s.readers
    ensures e.fid == s.readers[Ends(st).value].fid && e.count == s.readers[Ends(st).value].count
  {
    hide Enabled, Apply, Payload, Peek;
  }

  /**
   In every run, of any clients, what a read returns is reported for the fid
   and the count of its own request, and a read in flight is for those.
   */
  lemma ReadsAreAsAsked(id: seq<Byte>, steps: seq<Step>, st: Step, e: Event)
    requires Runs(Initial(id), steps) && Enabled(After(Initial(id), steps), st)
    requires EventOf(After(Initial(id), steps), st) == [e] && (e.Returned? || e.Interrupted?)
    ensures Ends(st).Some? && Asked(steps, Ends(st).value) == Some((e.fid, e.count))
    ensures forall t :: t in After(Initial(id), steps).readers ==>
              var pc := After(Initial(id), steps).readers[t]; Asked(steps, t) == Some((pc.fid, pc.count))
  {
    RunAsAsked(Initial(id), steps, []);
    assert [] + steps == steps;
    hide Enabled, Apply, Payload, Asked, Runs, After, EventOf, Ends;
    EventIsOf(After(Initial(id), steps), st, e);
  }

  lemma Woken(s: State, tid: Tid, wake: Step)
    requires |s.log.data| <= MAX_LEN && tid in s.readers && s.readers[tid].Parked?
    requires wake == Timeout(tid) || (wake == TakeToken(tid) && s.log.token)
    ensures Enabled(s, wake)
    ensures Apply(s, wake) ==
              s.(log := s.log.(token := s.log.token && wake.Timeout?),
                 readers := s.readers[tid := Fetching(s.readers[tid].fid, s.readers[tid].count)])
  {
    hide WriterEnabled, WriterApply;
  }

  lemma Fetched(s: State, tid: Tid)
    requires |s.log.data| <= MAX_LEN && tid in s.readers && s.readers[tid].Fetching?
    ensures Enabled(s, FetchOffset(tid))
    ensures var pc := s.readers[tid];
            Apply(s, FetchOffset(tid)) ==
              s.(readers := s.readers[tid := Checking(pc.fid, pc.count, Offset(s.log, pc.fid))])
  {
    hide WriterEnabled, WriterApply;
  }

  /** A look at the log that finds nothing. */
  lemma NothingFound(s: State, tid: Tid)
    requires |s.log.data| <= MAX_LEN && s.mu == None && tid in s.readers && s.readers[tid].Checking?
    requires s.readers[tid].offset == |s.log.data|
    ensures Enabled(s, Check(tid))
    ensures var pc := s.readers[tid];
            Apply(s, Check(tid)) ==
              s.(readers := if s.log.closed then s.readers - {tid} else s.readers[tid := Parked(pc.fid, pc.count)])
  {
    CheckFacts(s.log, s.readers[tid].offset, s.readers[tid].count);
    hide WriterEnabled, WriterApply, Peek;
  }

  lemma LookGets(s: State, tid: Tid) returns (steps: seq<Step>)
    requires |s.log.data| <= MAX_LEN && s.mu == None && tid in s.readers && s.readers[tid].Checking?
    requires s.readers[tid].offset < |s.log.data|
    ensures steps == [Check(tid), RecordOffset(tid)] && Runs(s, steps)
    ensures var pc, s' := s.readers[tid], After(s, steps);
            var left := |s.log.data| - pc.offset;
            var n := if pc.count < left then pc.count else left;
            s'.log.data == s.log.data && s'.mu == None && tid !in s'.readers && Offset(s'.log, pc.fid) == pc.offset + n &&
            s'.sessions == GortnAgent.Deliver(s.sessions, pc.fid, s.log.data[pc.offset..pc.offset + n])
  {
    hide Enabled, Apply, Runs, After, Peek, GortnAgent.Deliver;
    steps := FinishRead(s, tid);
  }

  lemma LookFindsNothing(s: State, tid: Tid) returns (steps: seq<Step>)
    requires |s.log.data| <= MAX_LEN && s.mu == None && tid in s.readers && s.readers[tid].Checking?
    requires s.readers[tid].offset == |s.log.data|
    ensures steps == [Check(tid)] && Runs(s, steps)
    ensures var pc, s' := s.readers[tid], After(s, steps);
            s'.log.data == s.log.data && s'.mu == None && s'.sessions == s.sessions &&
            if s.log.closed then tid !in s'.readers
            else tid in s'.readers && s'.readers[tid] == Parked(pc.fid, pc.count)
  {
    hide Enabled, Apply, Runs, After, Peek;
    NothingFound(s, tid);
    One(s, Check(tid));
    steps := [Check(tid)];
  }

  /** A woken reader looks its offset up again, for its own request. */
  lemma WakeAndFetch(s: State, tid: Tid, wake: Step, rest: seq<Step>) returns (steps: seq<Step>)
    requires |s.log.data| <= MAX_LEN && tid in s.readers && s.readers[tid].Parked?
    requires wake == Timeout(tid) || (wake == TakeToken(tid) && s.log.token)
    requires Runs(Looking(s, tid, wake), rest)
    ensures steps == [wake, FetchOffset(tid)] + rest && Runs(s, steps)
    ensures After(s, steps) == After(Looking(s, tid, wake), rest)
  {
    hide Enabled, Apply, Runs, After;
    Woken(s, tid, wake);
    var s1 := Apply(s, wake);
    Fetched(s1, tid);
    assert s1.readers[tid := Looking(s, tid, wake).readers[tid]] == Looking(s, tid, wake).readers;
    assert Apply(s1, FetchOffset(tid)) == Looking(s, tid, wake);
    steps := Prepend(s1, FetchOffset(tid), rest);
    steps := Prepend(s, wake, steps);
  }

  function Looking(s: State, tid: Tid, wake: Step): State
    requires tid in s.readers
  {
    var pc := s.readers[tid];
    s.(log := s.log.(token := s.log.token && wake.Timeout?),
       readers := s.readers[tid := Checking(pc.fid, pc.count, Offset(s.log, pc.fid))])
  }

  /**
   A woken reader that is left alone gets what is due for its own request, by
   the timer and by a token alike: the next min(count, available) bytes of the log.
   */
  lemma RetryDelivers(s: State, tid: Tid, wake: Step) returns (steps: seq<Step>)
    requires Inv(s) && s.mu == None && tid in s.readers && s.readers[tid].Parked?
    requires wake == Timeout(tid) || (wake == TakeToken(tid) && s.log.token)
    requires Offset(s.log, s.readers[tid].fid) < |s.log.data|
    ensures steps == [wake, FetchOffset(tid), Check(tid), RecordOffset(tid)] && Runs(s, steps)
    ensures var pc, s' := s.readers[tid], After(s, steps);
            var at := Offset(s.log, pc.fid);
            var n := if pc.count < |s.log.data| - at then pc.count else |s.log.data| - at;
            s'.log.data == s.log.data && s'.mu == None && tid !in s'.readers && Offset(s'.log, pc.fid) == at + n &&
            s'.sessions == GortnAgent.Deliver(s.sessions, pc.fid, s.log.data[at..at + n])
  {
    assert |s.log.data| <= MAX_LEN;
    hide Inv, Enabled, Apply, Runs, After, GortnAgent.Deliver;
    var look := LookGets(Looking(s, tid, wake), tid);
    steps := WakeAndFetch(s, tid, wake, look);
  }

  /** With nothing more to come it returns EOF if the log is closed, and otherwise parks as it was. */
  lemma RetryEnds(s: State, tid: Tid, wake: Step) returns (steps: seq<Step>)
    requires Inv(s) && s.mu == None && tid in s.readers && s.readers[tid].Parked?
    requires wake == Timeout(tid) || (wake == TakeToken(tid) && s.log.token)
    requires Offset(s.log, s.readers[tid].fid) == |s.log.data|
    ensures steps == [wake, FetchOffset(tid), Check(tid)] && Runs(s, steps)
    ensures var s' := After(s, steps);
            s'.log.data == s.log.data && s'.mu == None && s'.sessions == s.sessions &&
            if s.log.closed then tid !in s'.readers else tid in s'.readers && s'.readers[tid] == s.readers[tid]
  {
    assert |s.log.data| <= MAX_LEN;
    hide Inv, Enabled, Apply, Runs, After;
    var look := LookFindsNothing(Looking(s, tid, wake), tid);
    steps := WakeAndFetch(s, tid, wake, look);
  }

  // ---------- what is written ----------

  /** The line, or the piece of output, that a step is there to write; cmd is the last command received for exec. */
  function Line(id: seq<Byte>, cmd: seq<Byte>, st: Step): seq<Byte> {
    match st
    case Banner(thought) => Ascii("[gortns ") + id + Ascii("] ") + thought + [10]
    case CmdEcho(text) => text + [10]
    case CmdReport(text) => Ascii("[gortns ") + id + Ascii("] ") + text + [10]
    case Announce => Ascii("$ ") + cmd + [10]
    case RunStop => Ascii("[gortns ") + id + Ascii("] stopped") + [10]
    case Copy(_, chunk) => chunk
    case _ => []
  }

  function Lines(id: seq<Byte>, cmd: seq<Byte>, steps: seq<Step>): seq<Byte>
    decreases steps
  {
    if steps == [] then []
    else
      Line(id, cmd, steps[0]) + Lines(id, if steps[0].CmdExec? then steps[0].cmd else cmd, steps[1..])
  }

  lemma PayloadIsLine(s: State, cmd: seq<Byte>, st: Step)
    requires Enabled(s, st) && (s.run.Announcing? ==> s.run.cmd == cmd)
    ensures Payload(s, st) == Line(s.id, cmd, st)
  {
    assert Ascii("\n") == [10];
    if st.RunStop? {
      StoppedLineIs(s.id);
    }
  }

  lemma StoppedLineIs(id: seq<Byte>)
    ensures StoppedLine(id) == Ascii("[gortns ") + id + Ascii("] stopped") + [10]
  {
    assert Ascii("stopped\n") == Ascii("stopped") + [10];
    assert Ascii("] stopped") == Ascii("] ") + Ascii("stopped");
  }

  lemma QuietAnnounces(s: State, st: Step)
    requires Enabled(s, st) && Quiet(st)
    ensures var s' := Apply(s, st);
            if st.CmdExec? then s'.run.Announcing? && s'.run.cmd == st.cmd
            else s'.run.Announcing? ==> s'.run == s.run
  {
    hide Payload, ReaderEnabled, ReaderApply;
  }

  lemma NoLine(s: State, st: Step)
    requires !Appends(st) && !st.RunStop?
    ensures Payload(s, st) == []
  {
  }

  lemma StepWrites(s: State, cmd: seq<Byte>, st: Step)
    requires Inv(s) && Enabled(s, st) && (s.run.Announcing? ==> s.run.cmd == cmd)
    ensures var s' := Apply(s, st);
            s'.id == s.id && s'.log.data == s.log.data + Line(s.id, cmd, st) &&
            (s'.run.Announcing? ==> s'.run.cmd == if st.CmdExec? then st.cmd else cmd)
  {
    PayloadIsLine(s, cmd, st);
    assert s.log.data + [] == s.log.data;
    hide Enabled, Apply, Payload, Line, Sound, EndsWith, StoppedLine;
    if ByReader(st) {
      NoLine(s, st);
      ReaderStep(s, st);
    } else if Appends(st) {
      AppendStep(s, st);
    } else if Sends(st) {
      NoLine(s, st);
      SendStep(s, st);
    } else if st.RunStop? {
      StopWrites(s, st);
    } else {
      NoLine(s, st);
      QuietStep(s, st);
      QuietAnnounces(s, st);
    }
  }

  lemma StopWrites(s: State, st: Step)
    requires Inv(s) && Enabled(s, st) && st.RunStop?
    ensures Apply(s, st).log.data == s.log.data + Payload(s, st) && Apply(s, st).id == s.id && !Apply(s, st).run.Announcing?
  {
    hide Enabled, Apply, Sound, EndsWith;
    StopStep(s, st);
  }

  lemma {:induction false} RunWrites(s: State, cmd: seq<Byte>, steps: seq<Step>)
    requires Inv(s) && Runs(s, steps) && (s.run.Announcing? ==> s.run.cmd == cmd)
    ensures After(s, steps).log.data == s.log.data + Lines(s.id, cmd, steps)
    decreases steps
  {
    hide Inv, Enabled, Apply, Line;
    if steps == [] {
      assert s.log.data + [] == s.log.data;
    } else {
      var st := steps[0];
      StepKeepsInv(s, st);
      StepWrites(s, cmd, st);
      RunWrites(Apply(s, st), if st.CmdExec? then st.cmd else cmd, steps[1..]);
    }
  }

  /** The log of every run is exactly what its steps are there to write, in the order of the critical sections. */
  lemma LogIsWhatWasWritten(id: seq<Byte>, steps: seq<Step>)
    requires Runs(Initial(id), steps)
    ensures After(Initial(id), steps).log.data == Lines(id, [], steps)
  {
    InitialInv(id);
    RunWrites(Initial(id), [], steps);
    assert [] + Lines(id, [], steps) == Lines(id, [], steps);
  }
}
