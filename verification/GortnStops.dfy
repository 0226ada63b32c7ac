/**
 How a rcpud agent stops, and what a read that ends by the stop channel has
 been given. Signals are sent without waiting, to whoever happens to wait.
 */
module GortnStops {
  import opened Bytes
  import opened OutputLog
  import opened GortnBuffer
  import opened GortnAgent
  import opened GortnReads

  // ---------- which runs stop the agent ----------

  lemma StepDooms(s: State, st: Step)
    requires Enabled(s, st)
    ensures Doomed(Apply(s, st)) <==> Doomed(s) || st == StopSignal(TheRun)
  {
    if ByReader(st) {
      hide Enabled, Apply;
      ReaderStep(s, st);
    } else {
      hide Payload, Prefix, StoppedLine, ReaderEnabled, ReaderApply;
    }
  }

  lemma {:induction false} RunDooms(s: State, steps: seq<Step>)
    requires Runs(s, steps)
    ensures Doomed(After(s, steps)) <==> Doomed(s) || StopSignal(TheRun) in steps
    decreases steps
  {
    hide Enabled, Apply, Doomed;
    if steps != [] {
      assert steps == [steps[0]] + steps[1..];
      StepDooms(s, steps[0]);
      RunDooms(Apply(s, steps[0]), steps[1..]);
    }
  }

  /**
   Over every run: the agent is on its way to be stopped exactly when another
   caller of Remove got through to its run loop. However often the command stop
   is executed, and whoever receives what it sends, it never stops the agent.
   */
  lemma StoppedOnlyFromOutside(id: seq<Byte>, steps: seq<Step>)
    requires Runs(Initial(id), steps)
    ensures var s := After(Initial(id), steps);
            (StopSignal(TheRun) in steps <==> s.run == StopTaken || s.phase == Stopped) &&
            (StopSignal(TheRun) !in steps ==> s.phase != Stopped && !s.log.closed)
  {
    RunDooms(Initial(id), steps);
    InitialInv(id);
    RunKeepsInv(Initial(id), steps);
  }

  lemma {:induction false} NoRunRemoves(s: State, steps: seq<Step>)
    requires Inv(s) && Runs(s, steps)
    ensures forall to :: RunRemove(to) !in steps
    decreases steps
  {
    if steps != [] {
      var st := steps[0];
      assert !st.RunRemove? by {
        if st.RunRemove? {
          SendStep(s, st);
        }
      }
      hide Inv, Enabled, Apply;
      StepKeepsInv(s, st);
      NoRunRemoves(Apply(s, st), steps[1..]);
      assert steps == [st] + steps[1..];
    }
  }

  /**
   The deferred Remove never signals its own agent: whoever made the run loop
   end has delisted the agent in the section that sent the signal.
   */
  lemma DeferredRemoveFindsNothing(id: seq<Byte>, steps: seq<Step>)
    requires Runs(Initial(id), steps)
    ensures forall to :: RunRemove(to) !in steps
    ensures var s := After(Initial(id), steps); Doomed(s) ==> !s.listed
  {
    InitialInv(id);
    NoRunRemoves(Initial(id), steps);
    RunKeepsInv(Initial(id), steps);
  }

  /**
   The signal of a Remove is certain to reach the run loop of a listed agent
   exactly when that waits and neither a reader nor a stdin goroutine does.
   */
  lemma SignalMustArrive(s: State)
    requires Inv(s) && s.listed
    ensures (forall to :: Enabled(s, StopSignal(to)) ==> to == TheRun) <==>
              s.run == Selecting && s.pumps == 0 && forall t :: t in s.readers ==> !s.readers[t].Parked?
  {
    if forall to :: Enabled(s, StopSignal(to)) ==> to == TheRun {
      var to := SomeReceiver(s);
      assert Enabled(s, StopSignal(to));
      assert !Enabled(s, StopSignal(ThePump));
      forall t | t in s.readers ensures !s.readers[t].Parked? {
        assert !Enabled(s, StopSignal(TheReader(t)));
      }
    }
    if s.run == Selecting {
      assert Waiting(s, TheRun) && !Enabled(s, StopSignal(Nobody));
    }
  }

  lemma SomeReceiver(s: State) returns (to: Receiver)
    ensures CanReceive(s, to)
  {
    to := Nobody;
    if r: Receiver :| Waiting(s, r) {
      to := r;
    }
  }

  lemma DoomedStep(s: State, st: Step)
    requires Inv(s) && s.run == StopTaken && Enabled(s, st)
    ensures var s' := Apply(s, st);
            if st.RunStop? then s'.log.closed && s'.log.data == s.log.data + StoppedLine(s.id) && s'.phase == Stopped
            else s'.run == StopTaken && s'.log.data == s.log.data && s'.phase == s.phase && s'.id == s.id
  {
    if ByReader(st) {
      hide Enabled, Apply;
      ReaderStep(s, st);
    } else {
      hide Sound, Prefix, StoppedLine, EndsWith, ReaderEnabled, ReaderApply;
    }
  }

  /**
   Once the run loop has the signal nothing keeps the agent from stopping: in
   every continuation it is about to, with the log as it was, or it has stopped
   and the log has gained the stopped line and nothing else.
   */
  lemma {:induction false} SignalToTheRunStops(s: State, more: seq<Step>)
    requires Inv(s) && s.run == StopTaken && Runs(s, more)
    ensures var s' := After(s, more);
            if RunStop in more
            then s'.phase == Stopped && s'.log.closed && s'.log.data == s.log.data + StoppedLine(s.id)
            else s'.run == StopTaken && s'.log.data == s.log.data && s'.phase == s.phase
    decreases more
  {
    hide Enabled, Apply, Inv, StoppedLine;
    if more != [] {
      var st := more[0];
      assert more == [st] + more[1..];
      StepKeepsInv(s, st);
      DoomedStep(s, st);
      if st.RunStop? {
        StoppedIsFinal(Apply(s, st), more[1..]);
      } else {
        SignalToTheRunStops(Apply(s, st), more[1..]);
      }
    }
  }

  lemma DelistedStep(s: State, st: Step)
    requires Enabled(s, st) && !s.listed && !Doomed(s)
    ensures var s' := Apply(s, st); !s'.listed && !Doomed(s')
  {
    StepDooms(s, st);
    if Sends(st) {
      SendStep(s, st);
    } else if ByReader(st) {
      hide Enabled, Apply;
      ReaderStep(s, st);
    } else {
      hide Payload, Prefix, StoppedLine, ReaderEnabled, ReaderApply;
    }
  }

  lemma {:induction false} DelistedRunsForEver(s: State, more: seq<Step>)
    requires Inv(s) && !s.listed && !Doomed(s) && Runs(s, more)
    ensures !Doomed(After(s, more)) && Inv(After(s, more))
    decreases more
  {
    hide Enabled, Apply, Inv, Doomed;
    if more != [] {
      StepKeepsInv(s, more[0]);
      DelistedStep(s, more[0]);
      DelistedRunsForEver(Apply(s, more[0]), more[1..]);
    }
  }

  /**
   What one Remove achieves, for good: in every continuation the agent is stopped
   or about to be, if its run loop received the signal; and if a reader did, or a
   stdin goroutine, or nobody, the agent is off the table, runs for ever, and its
   log is never closed.
   */
  lemma WhatRemoveAchieves(id: seq<Byte>, steps: seq<Step>, to: Receiver, more: seq<Step>)
    requires Runs(Initial(id), steps) && Enabled(After(Initial(id), steps), StopSignal(to))
    requires Runs(Apply(After(Initial(id), steps), StopSignal(to)), more)
    ensures var s' := After(Apply(After(Initial(id), steps), StopSignal(to)), more);
            (to == TheRun <==> s'.run == StopTaken || s'.phase == Stopped) && (to != TheRun ==> !s'.log.closed)
  {
    var s, st := After(Initial(id), steps), StopSignal(to);
    InitialInv(id);
    RunKeepsInv(Initial(id), steps);
    var s1 := Apply(s, st);
    SendStep(s, st);
    StepDooms(s, st);
    StepKeepsInv(s, st);
    assert !Doomed(s) && !s1.listed;
    hide Enabled, Apply, Sound;
    RunKeepsInv(s1, more);
    RunDooms(s1, more);
    if to != TheRun {
      DelistedRunsForEver(s1, more);
    }
  }

  // ---------- the agent can always go on ----------

  /** Room in the buffer for the next line of the run loop, and for the stopped line. */
  predicate Room(s: State) {
    |s.log.data| + |StoppedLine(s.id)| <= MAX_LEN
    && (s.run.Announcing? ==> |s.log.data| + 3 + |s.run.cmd| <= MAX_LEN)
  }

  /** Whoever holds g.mu can give it back. */
  lemma LetGo(s: State) returns (steps: seq<Step>)
    requires Inv(s)
    ensures Runs(s, steps) && Inv(After(s, steps)) && After(s, steps).mu == None
    ensures var s' := After(s, steps);
            s' == s.(log := s'.log, mu := s'.mu, readers := s'.readers, sessions := s'.sessions) &&
            s'.log.data == s.log.data && s'.log.closed == s.log.closed
    ensures forall t :: t in s.readers && s.readers[t].Parked? ==>
              t in After(s, steps).readers && After(s, steps).readers[t] == s.readers[t]
  {
    steps := [];
    if s.mu.Some? {
      var st := RecordOffset(s.mu.value);
      assert Enabled(s, st);
      StepKeepsInv(s, st);
      ReaderStep(s, st);
      One(s, st);
      steps := [st];
    }
  }

  lemma SelectingGrows(s: State) returns (steps: seq<Step>)
    requires s.run == Selecting && s.mu == None && |s.log.data| < MAX_LEN
    ensures Runs(s, steps) && |s.log.data| < |After(s, steps).log.data|
  {
    One(s, CmdEcho([]));
    steps := [CmdEcho([])];
  }

  /** From a state whose next step leads to the select. */
  lemma ThenSelectingGrows(s: State, st: Step) returns (steps: seq<Step>)
    requires Enabled(s, st)
    requires var s' := Apply(s, st);
             s'.run == Selecting && s'.mu == None && s'.log.data == s.log.data && |s.log.data| < MAX_LEN
    ensures Runs(s, steps) && |s.log.data| < |After(s, steps).log.data|
  {
    hide Enabled, Apply;
    var rest := SelectingGrows(Apply(s, st));
    steps := Prepend(s, st, rest);
  }

  lemma ExecutingGrows(s: State) returns (steps: seq<Step>)
    requires s.run == Executing && s.mu == None && |s.log.data| < MAX_LEN
    ensures Runs(s, steps) && |s.log.data| < |After(s, steps).log.data|
  {
    if s.copiers == map[] {
      steps := ThenSelectingGrows(s, RunJoin);
    } else {
      var who :| who in s.copiers;
      if s.copiers[who] == Copying {
        One(s, Copy(who, [0]));
        steps := [Copy(who, [0])];
      } else {
        var s1 := Apply(s, CopierNotify(who));
        One(s1, Copy(who, [0]));
        steps := Prepend(s, CopierNotify(who), [Copy(who, [0])]);
      }
    }
  }

  lemma StoppingGrows(s: State) returns (steps: seq<Step>)
    requires s.run == Stopping && s.mu == None && |s.log.data| < MAX_LEN
    ensures Runs(s, steps) && |s.log.data| < |After(s, steps).log.data|
  {
    var to := SomeReceiver(s);
    steps := ThenSelectingGrows(s, StopSend(to));
  }

  lemma NotifyingGrows(s: State) returns (steps: seq<Step>)
    requires s.run.Notifying? && !s.run.next.ToRemove? && s.mu == None && |s.log.data| < MAX_LEN
    ensures Runs(s, steps) && |s.log.data| < |After(s, steps).log.data|
  {
    var s1 := Apply(s, RunNotify);
    if s.run.next.ToSelect? {
      steps := ThenSelectingGrows(s, RunNotify);
    } else {
      var rest := ExecutingGrows(s1);
      steps := Prepend(s, RunNotify, rest);
    }
  }

  lemma StartingGrows(s: State) returns (steps: seq<Step>)
    requires (s.run == Starting || s.run == Greeting) && s.mu == None && Room(s)
    ensures Runs(s, steps) && |s.log.data| < |After(s, steps).log.data|
  {
    var s1 := if s.run == Starting then Apply(s, Start) else s;
    assert |Payload(s1, Banner([]))| == |Prefix(s.id)| + 1;
    One(s1, Banner([]));
    steps := [Banner([])];
    if s.run == Starting {
      steps := Prepend(s, Start, steps);
    }
  }

  lemma OneLineGrows(s: State) returns (steps: seq<Step>)
    requires (s.run.Announcing? || s.run == StopTaken) && !s.log.closed && s.mu == None && Room(s)
    ensures Runs(s, steps) && |s.log.data| < |After(s, steps).log.data|
  {
    var st := if s.run == StopTaken then RunStop else Announce;
    One(s, st);
    steps := [st];
  }

  /** An open log can grow: whatever every goroutine is doing, some run from here writes to it. */
  lemma OpenLogGrows(s: State) returns (steps: seq<Step>)
    requires Inv(s) && !s.log.closed && Room(s)
    ensures Runs(s, steps) && |s.log.data| < |After(s, steps).log.data|
  {
    assert !Finished(s);
    var first := LetGo(s);
    var s1 := After(s, first);
    hide Inv, Enabled, Apply;
    var rest;
    match s1.run {
      case Selecting => rest := SelectingGrows(s1);
      case Stopping => rest := StoppingGrows(s1);
      case Executing => rest := ExecutingGrows(s1);
      case Notifying(_) => rest := NotifyingGrows(s1);
      case Starting => rest := StartingGrows(s1);
      case Greeting => rest := StartingGrows(s1);
      case _ => rest := OneLineGrows(s1);
    }
    RunsConcat(s, first, rest);
    steps := first + rest;
  }

  // ---------- reads that end by the stop channel ----------

  /** The reader that this step lets go with EOF, if the step is such a signal. */
  function Interrupts(st: Step): Option<Tid> {
    match st
    case StopSend(TheReader(tid)) => Some(tid)
    case StopSignal(TheReader(tid)) => Some(tid)
    case RunRemove(TheReader(tid)) => Some(tid)
    case _ => None
  }

  /** A signal that goes to a reader finds the log open: the agent is not stopped by it, nor was before. */
  lemma InterruptionIsQuiet(s: State, st: Step)
    requires Inv(s) && Enabled(s, st) && Interrupts(st).Some?
    ensures var s', tid := Apply(s, st), Interrupts(st).value;
            tid in s.readers && s.readers[tid].Parked? && !Doomed(s) && !s.log.closed &&
            s' == s.(run := s'.run, listed := s'.listed, readers := s.readers - {tid}) && (Room(s) ==> Room(s'))
  {
    hide StoppedLine, Sound, EndsWith;
    SendStep(s, st);
  }

  /**
   No EOF from the stop channel is the end of the log. Whichever signal ends the
   read, the log is open and goes on in some continuation; a careful client has
   then been given a proper beginning of it.
   */
  lemma InterruptedEofIsIncomplete(id: seq<Byte>, steps: seq<Step>, st: Step) returns (more: seq<Step>)
    requires Runs(Initial(id), steps)
    requires var s := After(Initial(id), steps); Enabled(s, st) && Interrupts(st).Some? && Room(s)
    ensures var s := After(Initial(id), steps);
            var fid := s.readers[Interrupts(st).value].fid;
            !s.log.closed && Runs(Apply(s, st), more) && |s.log.data| < |After(Apply(s, st), more).log.data| &&
            (CarefulRun(Initial(id), steps) && fid in s.sessions ==>
               s.sessions[fid] <= s.log.data && s.sessions[fid] != After(Apply(s, st), more).log.data)
  {
    InitialOrderly(id);
    RunKeepsInv(Initial(id), steps);
    var s := After(Initial(id), steps);
    InterruptionIsQuiet(s, st);
    StepKeepsInv(s, st);
    hide Enabled, Apply, Room, Inv;
    more := OpenLogGrows(Apply(s, st));
    if CarefulRun(Initial(id), steps) {
      CarefulRunKeeps(Initial(id), steps);
    }
  }

  /**
   The command stop ends a waiting read with EOF and does nothing else: the
   agent is at its select again, as it was, and its log is open and can grow.
   */
  lemma StopTakenByReader(s: State, tid: Tid) returns (steps: seq<Step>, more: seq<Step>)
    requires Inv(s) && s.run == Selecting && tid in s.readers && s.readers[tid].Parked? && Room(s)
    ensures steps == [CmdStop, StopSend(TheReader(tid))] && Runs(s, steps)
    ensures var s' := After(s, steps);
            s' == s.(readers := s.readers - {tid}) && s'.phase != Stopped && !s'.log.closed &&
            Runs(s', more) && |s.log.data| < |After(s', more).log.data|
  {
    hide StoppedLine;
    var s1 := Apply(s, CmdStop);
    var st := StopSend(TheReader(tid));
    One(s1, st);
    steps := Prepend(s, CmdStop, [st]);
    StepKeepsInv(s, CmdStop);
    StepKeepsInv(s1, st);
    more := OpenLogGrows(After(s, steps));
  }
}
