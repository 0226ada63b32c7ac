/**
 What a tab does with its commands and its read requests, from the receipt of
 each to its end.
 */
module TabCommands {
  import opened Bytes
  import opened OutputLog
  import opened TabAgent

  // ---------- stop ----------

  lemma StepFinishes(s: State, st: Step)
    requires Enabled(s, st)
    ensures Finished(Apply(s, st)) <==> Finished(s) || st == CmdStop
    ensures Apply(s, st).log.closed <==> s.log.closed || st == RunClose
  {
    hide Payload, TabAgent.Deliver;
  }

  lemma {:induction false} RunFinishes(s: State, steps: seq<Step>)
    requires Runs(s, steps)
    ensures Finished(After(s, steps)) <==> Finished(s) || CmdStop in steps
    ensures After(s, steps).log.closed <==> s.log.closed || RunClose in steps
    decreases steps
  {
    hide Enabled, Apply, Finished;
    if steps != [] {
      assert steps == [steps[0]] + steps[1..];
      StepFinishes(s, steps[0]);
      RunFinishes(Apply(s, steps[0]), steps[1..]);
    }
  }

  /**
   Over every run: the run loop is on its way out if and only if it received
   stop, and then its own next step is always possible, until the log is closed.
   Nothing but that closes the log.
   */
  lemma StopClosesTheLog(id: seq<Byte>, steps: seq<Step>)
    requires Runs(Initial(id), steps)
    ensures var s := After(Initial(id), steps);
            (CmdStop in steps <==> Finished(s)) && (s.log.closed <==> RunClose in steps) &&
            (CmdStop in steps && !s.log.closed ==>
               (s.run == Notifying(ToClose) && Enabled(s, RunNotify) && Apply(s, RunNotify).run == Closing) ||
               (s.run == Closing && Enabled(s, RunClose) && Apply(s, RunClose).log == s.log.(closed := true))) &&
            (s.log.closed ==> CmdStop in steps)
  {
    RunFinishes(Initial(id), steps);
    InitialInv(id);
    RunKeepsInv(Initial(id), steps);
    hide Sound, EndsWith, StoppedLine;
  }

  /** The command stop, carried out: the log gains the stopped line and is closed, a token is left, and the loop has ended. */
  lemma StopRuns(s: State) returns (steps: seq<Step>)
    requires s.run == Selecting && |s.log.data| + |Line(s.id, CmdStop)| <= MAX_LEN
    ensures steps == [CmdStop, RunNotify, RunClose, RunNotify] && Runs(s, steps)
    ensures After(s, steps) ==
              s.(run := Ended, log := Log(s.log.data + (Ascii("[tab ") + s.id + Ascii("] stopped") + [10]), true, true, s.log.readers))
  {
    PayloadIsLine(s, CmdStop);
    var s1 := Apply(s, CmdStop);
    var s2 := Apply(s1, RunNotify);
    var s3 := Apply(s2, RunClose);
    hide Line, Payload, Runs, After;
    assert s3.log.data == s1.log.data;
    steps := One(s3, RunNotify);
    steps := Prepend(s2, RunClose, steps);
    steps := Prepend(s1, RunNotify, steps);
    steps := Prepend(s, CmdStop, steps);
  }

  /** After that a read that is at the end of the log returns EOF. */
  lemma ClosedReadIsEof(s: State, tid: Tid)
    requires Inv(s) && s.log.closed && Enabled(s, TryRead(tid)) && Offset(s.log, s.readers[tid].fid) == |s.log.data|
    ensures ReadReturns(s, tid) == Eof && tid !in Apply(s, TryRead(tid)).readers
  {
    PeekIsExact(s.log, |s.log.data|, s.readers[tid].count);
  }

  lemma One(s: State, st: Step) returns (steps: seq<Step>)
    requires Enabled(s, st)
    ensures steps == [st] && Runs(s, steps) && After(s, steps) == Apply(s, st)
  {
    hide Enabled, Apply;
    steps := [st];
    assert steps[1..] == [];
    assert Runs(Apply(s, st), []);
  }

  // ---------- the other commands ----------

  /** The banner, and a command that writes one line: the line is logged, a token is left, and the loop is at its select. */
  lemma LineRuns(s: State, st: Step) returns (steps: seq<Step>)
    requires (s.run == Starting && st.Banner?) || (s.run == Selecting && (st.CmdEcho? || st.CmdUnknown?))
    requires |s.log.data| + |Line(s.id, st)| <= MAX_LEN
    ensures steps == [st, RunNotify] && Runs(s, steps)
    ensures After(s, steps) ==
              s.(run := Selecting, log := Log(s.log.data + Line(s.id, st), s.log.closed, true, s.log.readers))
  {
    PayloadIsLine(s, st);
    var s1 := Apply(s, st);
    var s2 := Apply(s1, RunNotify);
    hide Line, Payload, Runs, After;
    steps := One(s1, RunNotify);
    steps := Prepend(s, st, steps);
  }

  /** What a command's two pipes deliver, in the order in which it is copied. */
  datatype Output = Output(pipe: nat, chunk: seq<Byte>)

  function Copied(outs: seq<Output>): seq<Byte> {
    if outs == [] then [] else outs[0].chunk + Copied(outs[1..])
  }

  predicate BothCopying(s: State) { s.run == Executing && s.copiers == map[1 := Copying, 2 := Copying] }

  lemma {:induction false} CopiersRun(s: State, outs: seq<Output>) returns (steps: seq<Step>)
    requires BothCopying(s) && |s.log.data| + |Copied(outs)| <= MAX_LEN
    requires forall k :: 0 <= k < |outs| ==> outs[k].pipe == 1 || outs[k].pipe == 2
    ensures Runs(s, steps)
    ensures After(s, steps) ==
              s.(log := s.log.(data := s.log.data + Copied(outs), token := s.log.token || outs != []))
    decreases outs
  {
    if outs == [] {
      steps := [];
      assert s.log.data + [] == s.log.data;
    } else {
      var o := outs[0];
      var s1, s2 := CopyOne(s, o);
      hide Enabled, Apply;
      var rest := CopiersRun(s2, outs[1..]);
      assert s.log.data + o.chunk + Copied(outs[1..]) == s.log.data + Copied(outs);
      rest := Prepend(s1, CopierNotify(o.pipe), rest);
      steps := Prepend(s, Copy(o.pipe, o.chunk), rest);
    }
  }

  lemma CopyOne(s: State, o: Output) returns (s1: State, s2: State)
    requires BothCopying(s) && |s.log.data| + |o.chunk| <= MAX_LEN && (o.pipe == 1 || o.pipe == 2)
    ensures Enabled(s, Copy(o.pipe, o.chunk)) && s1 == Apply(s, Copy(o.pipe, o.chunk))
    ensures Enabled(s1, CopierNotify(o.pipe)) && s2 == Apply(s1, CopierNotify(o.pipe))
    ensures s2 == s.(log := s.log.(data := s.log.data + o.chunk, token := true))
  {
    s1 := Apply(s, Copy(o.pipe, o.chunk));
    s2 := Apply(s1, CopierNotify(o.pipe));
    assert s2.copiers == s.copiers;
  }

  lemma CopiersEnd(s: State) returns (steps: seq<Step>)
    requires BothCopying(s) && |s.log.data| <= MAX_LEN
    ensures Runs(s, steps) && After(s, steps) == s.(run := Selecting, copiers := map[])
  {
    var s1 := Apply(s, CopierEnd(1));
    var s2 := Apply(s1, CopierEnd(2));
    assert s2.copiers == map[];
    hide Runs, After;
    steps := One(s2, RunJoin);
    steps := Prepend(s1, CopierEnd(2), steps);
    steps := Prepend(s, CopierEnd(1), steps);
  }

  /**
   The command exec, carried out, whatever the shell command prints on its two
   pipes: the log gains the command line and then exactly that output, in the
   order in which it is copied, and the loop is at its select again.
   */
  lemma ExecRuns(s: State, cmd: seq<Byte>, outs: seq<Output>) returns (steps: seq<Step>)
    requires s.run == Selecting && s.copiers == map[]
    requires forall k :: 0 <= k < |outs| ==> outs[k].pipe == 1 || outs[k].pipe == 2
    requires |s.log.data| + (|cmd| + 3) + |Copied(outs)| <= MAX_LEN
    ensures Runs(s, steps) && steps != [] && steps[0] == CmdExec(cmd, {1, 2})
    ensures After(s, steps) ==
              s.(log := Log(s.log.data + (Ascii("$ ") + cmd + [10]) + Copied(outs), s.log.closed, true, s.log.readers))
  {
    var st := CmdExec(cmd, {1, 2});
    PayloadIsLine(s, st);
    var s1 := Apply(s, st);
    var s2 := Apply(s1, RunNotify);
    assert s2.copiers == map[1 := Copying, 2 := Copying];
    hide Line, Payload, Runs, After, Enabled, Apply;
    var mid := CopiersRun(s2, outs);
    var s3 := After(s2, mid);
    var end := CopiersEnd(s3);
    RunsConcat(s2, mid, end);
    steps := Prepend(s1, RunNotify, mid + end);
    steps := Prepend(s, st, steps);
  }

  // ---------- read requests ----------

  /** A read in flight asks for what its caller asked for, whatever anybody does in between. */
  lemma RequestKept(s: State, st: Step, t: Tid)
    requires Enabled(s, st) && t in s.readers && t in Apply(s, st).readers
    ensures Apply(s, st).readers[t].fid == s.readers[t].fid && Apply(s, st).readers[t].count == s.readers[t].count
  {
    hide Payload, Peek, TabAgent.Deliver;
  }

  /** The last read that t started. */
  function Asked(steps: seq<Step>, t: Tid): Option<(Fid, nat)>
    decreases |steps|
  {
    if steps == [] then None
    else
      var st := steps[|steps| - 1];
      if st.StartRead? && st.tid == t then Some((st.fid, st.count)) else Asked(steps[..|steps| - 1], t)
  }

  ghost predicate AsAsked(s: State, done: seq<Step>) {
    forall t :: t in s.readers ==> Asked(done, t) == Some((s.readers[t].fid, s.readers[t].count))
  }

  lemma StepAsAsked(s: State, st: Step, done: seq<Step>)
    requires Enabled(s, st) && AsAsked(s, done)
    ensures AsAsked(Apply(s, st), done + [st])
  {
    var s' := Apply(s, st);
    assert (done + [st])[..|done|] == done;
    forall t | t in s'.readers ensures Asked(done + [st], t) == Some((s'.readers[t].fid, s'.readers[t].count)) {
      StartsReading(s, st, t);
      if t in s.readers {
        RequestKept(s, st, t);
      }
    }
  }

  lemma StartsReading(s: State, st: Step, t: Tid)
    requires Enabled(s, st) && t in Apply(s, st).readers
    ensures (st.StartRead? && st.tid == t) <==> t !in s.readers
    ensures t !in s.readers ==> Apply(s, st).readers[t].fid == st.fid && Apply(s, st).readers[t].count == st.count
  {
    hide Payload, Peek, TabAgent.Deliver;
  }

  lemma {:induction false} RunAsAsked(s: State, steps: seq<Step>, done: seq<Step>)
    requires Runs(s, steps) && AsAsked(s, done)
    ensures AsAsked(After(s, steps), done + steps)
    decreases steps
  {
    hide Enabled, Apply, AsAsked;
    if steps == [] {
      assert done + [] == done;
    } else {
      StepAsAsked(s, steps[0], done);
      RunAsAsked(Apply(s, steps[0]), steps[1..], done + [steps[0]]);
      assert done + [steps[0]] + steps[1..] == done + steps;
    }
  }

  /** In every run a read that is in flight, and so the one that returns, is for the fid and count of its own request. */
  lemma ReadsAreAsAsked(id: seq<Byte>, steps: seq<Step>, t: Tid)
    requires Runs(Initial(id), steps) && t in After(Initial(id), steps).readers
    ensures var pc := After(Initial(id), steps).readers[t]; Asked(steps, t) == Some((pc.fid, pc.count))
  {
    RunAsAsked(Initial(id), steps, []);
    assert [] + steps == steps;
  }
}
