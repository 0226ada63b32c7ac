/**
 A rcpud agent's run loop at work: start, the commands, and the stop signal,
 each from its receipt to its end.
 */
module GortnCommands {
  import opened Bytes
  import opened OutputLog
  import opened GortnBuffer
  import opened GortnAgent
  import opened GortnReads
  import opened GortnRequests

  /** The agent after its start: running, its banner logged, its loop at the select. */
  lemma StartRuns(id: seq<Byte>, thought: seq<Byte>) returns (steps: seq<Step>)
    requires |Ascii("[gortns ") + id + Ascii("] ") + thought + [10]| <= MAX_LEN
    ensures steps == [Start, Banner(thought), RunNotify] && Runs(Initial(id), steps)
    ensures var s := After(Initial(id), steps);
            s == Initial(id).(phase := Running, run := Selecting, log := s.log) &&
            s.log == Log(Ascii("[gortns ") + id + Ascii("] ") + thought + [10], false, true, map[]) && s.listed
  {
    var s0 := Initial(id);
    var s1 := Apply(s0, Start);
    PayloadIs(s1, Banner(thought));
    hide Prefix, Ascii, ReaderEnabled, ReaderApply;
    var s2 := Apply(s1, Banner(thought));
    One(s2, RunNotify);
    hide Runs, After, Payload;
    steps := Prepend(s1, Banner(thought), [RunNotify]);
    steps := Prepend(s0, Start, steps);
  }

  lemma PayloadIs(s: State, st: Step)
    ensures st.Banner? ==> Payload(s, st) == Ascii("[gortns ") + s.id + Ascii("] ") + st.thought + [10]
    ensures st.CmdEcho? ==> Payload(s, st) == st.text + [10]
    ensures st.CmdReport? ==> Payload(s, st) == Ascii("[gortns ") + s.id + Ascii("] ") + st.text + [10]
    ensures st.Announce? && s.run.Announcing? ==> Payload(s, st) == Ascii("$ ") + s.run.cmd + [10]
  {
    assert Ascii("\n") == [10];
  }

  /** A command that writes one line: it is logged, a token is left, and the loop is at its select again. */
  lemma LineRuns(s: State, st: Step, line: seq<Byte>) returns (steps: seq<Step>)
    requires s.run == Selecting && s.mu == None && |s.log.data| + |line| <= MAX_LEN
    requires (st.CmdEcho? && line == st.text + [10])
             || (st.CmdReport? && line == Ascii("[gortns ") + s.id + Ascii("] ") + st.text + [10])
    ensures steps == [st, RunNotify] && Runs(s, steps)
    ensures After(s, steps) == s.(log := Log(s.log.data + line, s.log.closed, true, s.log.readers))
  {
    PayloadIs(s, st);
    hide Prefix, Ascii, ReaderEnabled, ReaderApply;
    var s1 := Apply(s, st);
    One(s1, RunNotify);
    hide Runs, After, Payload;
    steps := Prepend(s, st, [RunNotify]);
  }

  // ---------- exec ----------

  datatype Output = Output(pipe: nat, chunk: seq<Byte>)

  function Copied(outs: seq<Output>): seq<Byte> {
    if outs == [] then [] else outs[0].chunk + Copied(outs[1..])
  }

  predicate BothCopying(s: State) { s.run == Executing && s.mu == None && s.copiers == map[1 := Copying, 2 := Copying] }

  lemma CopyWrites(s: State, who: nat, chunk: seq<Byte>)
    requires who in s.copiers && s.copiers[who] == Copying && s.mu == None && |s.log.data| + |chunk| <= MAX_LEN
    ensures Enabled(s, Copy(who, chunk))
    ensures Apply(s, Copy(who, chunk)) ==
              s.(log := s.log.(data := s.log.data + chunk), copiers := s.copiers[who := CopierNotifying])
  {
    hide ReaderEnabled, ReaderApply;
  }

  lemma CopyNotifies(s: State, who: nat)
    requires who in s.copiers && s.copiers[who] == CopierNotifying && |s.log.data| <= MAX_LEN
    ensures Enabled(s, CopierNotify(who))
    ensures Apply(s, CopierNotify(who)) == s.(log := s.log.(token := true), copiers := s.copiers[who := Copying])
  {
    hide ReaderEnabled, ReaderApply;
  }

  lemma CopyOne(s: State, o: Output) returns (s1: State, s2: State)
    requires BothCopying(s) && |s.log.data| + |o.chunk| <= MAX_LEN && (o.pipe == 1 || o.pipe == 2)
    ensures Enabled(s, Copy(o.pipe, o.chunk)) && s1 == Apply(s, Copy(o.pipe, o.chunk))
    ensures Enabled(s1, CopierNotify(o.pipe)) && s2 == Apply(s1, CopierNotify(o.pipe))
    ensures s2 == s.(log := s.log.(data := s.log.data + o.chunk, token := true))
  {
    hide Enabled, Apply;
    CopyWrites(s, o.pipe, o.chunk);
    s1 := Apply(s, Copy(o.pipe, o.chunk));
    CopyNotifies(s1, o.pipe);
    s2 := Apply(s1, CopierNotify(o.pipe));
    assert s2.copiers == s.copiers;
  }

  lemma {:induction false} CopiersRun(s: State, outs: seq<Output>) returns (steps: seq<Step>)
    requires BothCopying(s) && |s.log.data| + |Copied(outs)| <= MAX_LEN
    requires forall k :: 0 <= k < |outs| ==> outs[k].pipe == 1 || outs[k].pipe == 2
    ensures Runs(s, steps)
    ensures After(s, steps) ==
              s.(log := s.log.(data := s.log.data + Copied(outs), token := s.log.token || outs != []))
    decreases outs
  {
    hide Enabled, Apply;
    if outs == [] {
      steps := [];
      assert s.log.data + [] == s.log.data;
    } else {
      var o := outs[0];
      var s1, s2 := CopyOne(s, o);
      var rest := CopiersRun(s2, outs[1..]);
      assert s.log.data + o.chunk + Copied(outs[1..]) == s.log.data + Copied(outs);
      rest := Prepend(s1, CopierNotify(o.pipe), rest);
      steps := Prepend(s, Copy(o.pipe, o.chunk), rest);
    }
  }

  lemma EndOne(s: State, who: nat)
    requires who in s.copiers && s.copiers[who] == Copying && |s.log.data| <= MAX_LEN
    ensures Enabled(s, CopierEnd(who)) && Apply(s, CopierEnd(who)) == s.(copiers := s.copiers - {who})
  {
    hide ReaderEnabled, ReaderApply;
  }

  lemma JoinAll(s: State)
    requires s.run == Executing && s.mu == None && s.copiers == map[] && |s.log.data| <= MAX_LEN
    ensures Enabled(s, RunJoin) && Apply(s, RunJoin) == s.(phase := Idle, run := Selecting)
  {
    hide ReaderEnabled, ReaderApply;
  }

  lemma CopiersEnd(s: State) returns (steps: seq<Step>)
    requires BothCopying(s) && |s.log.data| <= MAX_LEN
    ensures Runs(s, steps) && After(s, steps) == s.(phase := Idle, run := Selecting, copiers := map[])
  {
    hide Runs, After, Enabled, Apply;
    EndOne(s, 1);
    var s1 := Apply(s, CopierEnd(1));
    EndOne(s1, 2);
    var s2 := Apply(s1, CopierEnd(2));
    assert s2.copiers == map[];
    JoinAll(s2);
    One(s2, RunJoin);
    steps := Prepend(s1, CopierEnd(2), [RunJoin]);
    steps := Prepend(s, CopierEnd(1), steps);
  }

  /** From the receipt of exec to the running command: its line is logged, and copiers and a stdin goroutine are there. */
  lemma ExecBegins(s: State, cmd: seq<Byte>, rest: seq<Step>) returns (steps: seq<Step>)
    requires s.run == Selecting && s.mu == None && s.copiers == map[] && |s.log.data| + (|cmd| + 3) <= MAX_LEN
    requires Runs(Begun(s, cmd), rest)
    ensures steps == [CmdExec(cmd, {1, 2}), Announce, RunNotify] + rest && Runs(s, steps)
    ensures After(s, steps) == After(Begun(s, cmd), rest)
  {
    hide ReaderEnabled, ReaderApply, Runs, After;
    var s1 := Apply(s, CmdExec(cmd, {1, 2}));
    PayloadIs(s1, Announce);
    var s2 := Apply(s1, Announce);
    var s3 := Apply(s2, RunNotify);
    assert s3.copiers == map[1 := Copying, 2 := Copying];
    assert s3 == Begun(s, cmd);
    hide Enabled, Apply, Payload, Begun;
    steps := Prepend(s2, RunNotify, rest);
    steps := Prepend(s1, Announce, steps);
    steps := Prepend(s, CmdExec(cmd, {1, 2}), steps);
  }

  function Begun(s: State, cmd: seq<Byte>): State {
    s.(phase := Running, run := Executing, copiers := map[1 := Copying, 2 := Copying], pumps := s.pumps + 1,
       log := Log(s.log.data + (Ascii("$ ") + cmd + [10]), s.log.closed, true, s.log.readers))
  }

  /**
   The command exec, carried out, whatever the shell command prints on its two
   pipes: the log gains the command line and then exactly that output, in the
   order in which it is copied; the agent is idle with its loop at the select,
   and one more stdin goroutine is left waiting.
   */
  lemma ExecRuns(s: State, cmd: seq<Byte>, outs: seq<Output>) returns (steps: seq<Step>)
    requires s.run == Selecting && s.mu == None && s.copiers == map[]
    requires forall k :: 0 <= k < |outs| ==> outs[k].pipe == 1 || outs[k].pipe == 2
    requires |s.log.data| + (|cmd| + 3) + |Copied(outs)| <= MAX_LEN
    ensures Runs(s, steps) && steps != [] && steps[0] == CmdExec(cmd, {1, 2})
    ensures After(s, steps) ==
              s.(phase := Idle, pumps := s.pumps + 1,
                 log := Log(s.log.data + (Ascii("$ ") + cmd + [10]) + Copied(outs), s.log.closed, true, s.log.readers))
  {
    hide Runs, After, Enabled, Apply;
    var s1 := Begun(s, cmd);
    var mid := CopiersRun(s1, outs);
    var s2 := After(s1, mid);
    var end := CopiersEnd(s2);
    RunsConcat(s1, mid, end);
    steps := ExecBegins(s, cmd, mid + end);
  }

  // ---------- the end ----------

  lemma SignalTaken(s: State)
    requires s.run == Selecting && s.listed && |s.log.data| <= MAX_LEN
    ensures Enabled(s, StopSignal(TheRun)) && Apply(s, StopSignal(TheRun)) == s.(run := StopTaken, listed := false)
  {
    hide ReaderEnabled, ReaderApply;
    assert Waiting(s, TheRun);
  }

  lemma LastLineWritten(s: State)
    requires s.run == StopTaken && s.mu == None && !s.log.closed && |s.log.data| + |StoppedLine(s.id)| <= MAX_LEN
    ensures Enabled(s, RunStop)
    ensures Apply(s, RunStop) ==
              s.(phase := Stopped, run := Notifying(ToRemove),
                 log := s.log.(data := s.log.data + StoppedLine(s.id), closed := true))
  {
    hide StoppedLine, ReaderEnabled, ReaderApply;
  }

  lemma LastTokenLeft(s: State)
    requires s.run == Notifying(ToRemove) && !s.listed && |s.log.data| <= MAX_LEN
    ensures Enabled(s, RunNotify) && Enabled(Apply(s, RunNotify), RunEnd)
    ensures Apply(Apply(s, RunNotify), RunEnd) == s.(run := Ended, log := s.log.(token := true))
  {
    hide ReaderEnabled, ReaderApply;
  }

  /** A Remove whose signal the run loop takes: stopped, closed with the stopped line, off the table, ended. */
  lemma StopRuns(s: State) returns (steps: seq<Step>)
    requires s.run == Selecting && s.mu == None && s.listed && !s.log.closed
    requires |s.log.data| + |StoppedLine(s.id)| <= MAX_LEN
    ensures steps == [StopSignal(TheRun), RunStop, RunNotify, RunEnd] && Runs(s, steps)
    ensures After(s, steps) ==
              s.(phase := Stopped, run := Ended, listed := false,
                 log := Log(s.log.data + (Ascii("[gortns ") + s.id + Ascii("] stopped") + [10]), true, true, s.log.readers))
  {
    StoppedLineIs(s.id);
    hide StoppedLine, Ascii, Enabled, Apply, Runs, After;
    SignalTaken(s);
    var s1 := Apply(s, StopSignal(TheRun));
    LastLineWritten(s1);
    var s2 := Apply(s1, RunStop);
    LastTokenLeft(s2);
    var s3 := Apply(s2, RunNotify);
    One(s3, RunEnd);
    steps := Prepend(s2, RunNotify, [RunEnd]);
    steps := Prepend(s1, RunStop, steps);
    steps := Prepend(s, StopSignal(TheRun), steps);
  }

  // ---------- stdin goroutines ----------

  /** A stdin goroutine that has got data writes it and waits again. */
  lemma PumpServes(s: State) returns (steps: seq<Step>)
    requires 0 < s.pumps && |s.log.data| <= MAX_LEN
    ensures steps == [PumpWrite, PumpWritten] && Runs(s, steps) && After(s, steps) == s
  {
    hide ReaderEnabled, ReaderApply;
    var s1 := Apply(s, PumpWrite);
    One(s1, PumpWritten);
    hide Runs, After, Payload;
    steps := Prepend(s, PumpWrite, [PumpWritten]);
  }

  /** The stdin goroutines, and the one that a command being begun is about to start. */
  function Pumps(s: State): nat {
    s.pumps + s.busyPumps + if s.run.Announcing? || (s.run.Notifying? && s.run.next.ToExec?) then 1 else 0
  }

  predicate StopsPump(st: Step) { (st.StopSend? || st.StopSignal? || st.RunRemove?) && st.to == ThePump }

  function Execs(steps: seq<Step>): nat {
    if steps == [] then 0 else (if steps[0].CmdExec? then 1 else 0) + Execs(steps[1..])
  }

  function PumpStops(steps: seq<Step>): nat {
    if steps == [] then 0 else (if StopsPump(steps[0]) then 1 else 0) + PumpStops(steps[1..])
  }

  lemma ReaderKeepsPumps(s: State, st: Step)
    requires Enabled(s, st) && ByReader(st)
    ensures Pumps(Apply(s, st)) == Pumps(s) && !st.CmdExec? && !StopsPump(st)
  {
    hide WriterEnabled, WriterApply, Payload, Peek;
  }

  lemma SendKeepsPumps(s: State, to: Receiver)
    requires to == Nobody || Waiting(s, to)
    ensures AfterStop(s, to).pumps == s.pumps - if to == ThePump then 1 else 0
    ensures AfterStop(s, to).busyPumps == s.busyPumps
    ensures AfterStop(s, to).run == if to == TheRun then StopTaken else s.run
    ensures to == TheRun ==> s.run == Selecting
  {
  }

  lemma StepKeepsPumps(s: State, st: Step)
    requires Enabled(s, st)
    ensures Pumps(Apply(s, st)) + (if StopsPump(st) then 1 else 0) == Pumps(s) + if st.CmdExec? then 1 else 0
  {
    if ByReader(st) {
      ReaderKeepsPumps(s, st);
    } else {
      hide ReaderEnabled, ReaderApply, Payload, Waiting;
      if st.StopSend? || st.StopSignal? || st.RunRemove? {
        assert st.to == Nobody || Waiting(s, st.to);
        SendKeepsPumps(s, st.to);
        hide AfterStop;
      }
    }
  }

  lemma {:induction false} RunKeepsPumps(s: State, steps: seq<Step>)
    requires Runs(s, steps)
    ensures Pumps(After(s, steps)) + PumpStops(steps) == Pumps(s) + Execs(steps)
    decreases steps
  {
    hide Enabled, Apply, Pumps;
    if steps != [] {
      StepKeepsPumps(s, steps[0]);
      RunKeepsPumps(Apply(s, steps[0]), steps[1..]);
    }
  }

  /**
   In every run there is one stdin goroutine for every exec so far, but for those that received a stop
   signal: the end of its command does not end it.
   */
  lemma PumpsOutliveCommands(id: seq<Byte>, steps: seq<Step>)
    requires Runs(Initial(id), steps)
    ensures Pumps(After(Initial(id), steps)) + PumpStops(steps) == Execs(steps)
  {
    RunKeepsPumps(Initial(id), steps);
  }
}
