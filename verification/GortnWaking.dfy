/**
 Waking the readers of a rcpud agent: the wake channel keeps one token, a reader
 looks its offset up before it looks at the log, and other operations on its fid
 may come between. Exactly which steps can lose a wake-up is said here.
 */
module GortnWaking {
  import opened Bytes
  import opened OutputLog
  import opened GortnBuffer
  import opened GortnAgent
  import opened GortnReads

  /** A waiting reader of this fid would not have to wait if it looked now. */
  predicate Ready(s: State, fid: Fid) { s.log.closed || Offset(s.log, fid) < |s.log.data| }

  predicate ParkedOn(s: State, t: Tid, fid: Fid) { t in s.readers && s.readers[t].Parked? && s.readers[t].fid == fid }

  /** Some writer has unlocked and has not yet tried its send. */
  ghost predicate SendPending(s: State) {
    s.run.Notifying? || exists who :: who in s.copiers && s.copiers[who] == CopierNotifying
  }

  /** Whenever a reader is parked that need not wait, a token is there or about to come. */
  ghost predicate Awake(s: State) {
    forall t, fid :: ParkedOn(s, t, fid) && Ready(s, fid) ==> s.log.token || SendPending(s)
  }

  /** Nobody waits on this fid. */
  ghost predicate NoneOn(s: State, fid: Fid) { forall t :: !ParkedOn(s, t, fid) }

  /**
   The steps that can lose a wake-up: taking the one token while another reader
   needs it; setting the offset of a fid back under a reader that waits on it,
   by opening, clunking or recording a stale offset; and parking on an offset
   that is no longer the recorded one.
   */
  ghost predicate Safe(s: State, st: Step)
    requires Enabled(s, st)
  {
    SendPending(s) ||
    match st
    case TakeToken(t) => forall u, fid :: u != t && ParkedOn(s, u, fid) ==> !Ready(s, fid)
    case Open(fid) => s.log.token || s.log.data == [] || NoneOn(s, fid)
    case Clunk(fid) => s.log.token || s.log.data == [] || NoneOn(s, fid)
    case RecordOffset(t) =>
      var pc := s.readers[t];
      s.log.token || pc.offset + |pc.bytes| == |s.log.data| || NoneOn(s, pc.fid)
    case Check(t) =>
      var pc := s.readers[t];
      s.log.token || s.log.closed || pc.offset < |s.log.data| || Offset(s.log, pc.fid) == |s.log.data|
    case _ => true
  }

  lemma SendingKeepsAwake(s: State, st: Step)
    requires Inv(s) && Awake(s) && Enabled(s, st) && Sends(st)
    ensures Awake(Apply(s, st))
  {
    SendStep(s, st);
    hide Enabled, Apply, Inv;
    var s' := Apply(s, st);
    assert SendPending(s) ==> SendPending(s');
    hide SendPending;
    assert forall t, fid :: ParkedOn(s', t, fid) ==> ParkedOn(s, t, fid);
  }

  /** A step after which no reader waits that need not have waited before, and no token or send is lost. */
  lemma NothingLost(s: State, s': State)
    requires Awake(s) && s'.readers == s.readers && s'.log.readers == s.log.readers
    requires s'.log.closed == s.log.closed && s'.log.data == s.log.data
    requires s.log.token || SendPending(s) ==> s'.log.token || SendPending(s')
    ensures Awake(s')
  {
    hide SendPending;
    assert forall t, fid :: ParkedOn(s', t, fid) ==> ParkedOn(s, t, fid);
    assert forall fid :: Ready(s', fid) <==> Ready(s, fid);
  }

  lemma QuietKeepsAwake(s: State, st: Step)
    requires Inv(s) && Awake(s) && Enabled(s, st) && Quiet(st)
    ensures Awake(Apply(s, st))
  {
    QuietStep(s, st);
    QuietKeepsSends(s, st);
    hide Enabled, Apply;
    NothingLost(s, Apply(s, st));
  }

  lemma QuietKeepsSends(s: State, st: Step)
    requires Inv(s) && Enabled(s, st) && Quiet(st)
    ensures SendPending(s) ==> SendPending(Apply(s, st)) || Apply(s, st).log.token
  {
    hide Payload, Sound, StoppedLine, EndsWith, CanReceive, ReaderEnabled, ReaderApply, AfterStop;
    var s' := Apply(s, st);
    if SendPending(s) && !s.run.Notifying? && !st.CopierNotify? {
      var who :| who in s.copiers && s.copiers[who] == CopierNotifying;
      assert s.run == Executing;
      assert who in s'.copiers && s'.copiers[who] == CopierNotifying;
    }
  }

  lemma WriterKeepsAwake(s: State, st: Step)
    requires Inv(s) && Awake(s) && Enabled(s, st) && !ByReader(st)
    ensures Awake(Apply(s, st))
  {
    hide Enabled, Apply, Payload, Inv, StoppedLine;
    if Sends(st) {
      SendingKeepsAwake(s, st);
    } else if Appends(st) {
      AppendStep(s, st);
      if st.Copy? {
        assert Apply(s, st).copiers[st.who] == CopierNotifying;
      }
    } else if st.RunStop? {
      StopStep(s, st);
    } else {
      QuietKeepsAwake(s, st);
    }
  }

  /** Setting one offset, with the same readers waiting. */
  lemma OffsetMoved(s: State, s': State, fid: Fid, n: nat)
    requires Awake(s) && n <= |s.log.data|
    requires s'.run == s.run && s'.copiers == s.copiers && s'.log == s.log.(readers := s'.log.readers)
    requires forall f :: Offset(s'.log, f) == if f == fid then n else Offset(s.log, f)
    requires forall t, f :: ParkedOn(s', t, f) <==> ParkedOn(s, t, f)
    ensures Awake(s') <==> SendPending(s) || s.log.token || n == |s.log.data| || NoneOn(s, fid)
  {
    if t :| ParkedOn(s, t, fid) {
      assert ParkedOn(s', t, fid);
    }
  }

  lemma TakingIsAwake(s: State, tid: Tid)
    requires Awake(s) && Enabled(s, TakeToken(tid))
    ensures Awake(Apply(s, TakeToken(tid))) <==> Safe(s, TakeToken(tid))
  {
    hide Payload;
    var s' := Apply(s, TakeToken(tid));
    assert SendPending(s') <==> SendPending(s);
    assert forall u, f :: ParkedOn(s', u, f) <==> u != tid && ParkedOn(s, u, f);
    assert forall f :: Ready(s', f) <==> Ready(s, f);
  }

  lemma CheckingIsAwake(s: State, tid: Tid)
    requires Inv(s) && Awake(s) && Enabled(s, Check(tid))
    ensures Awake(Apply(s, Check(tid))) <==> Safe(s, Check(tid))
  {
    var pc, st := s.readers[tid], Check(tid);
    CheckFacts(s.log, pc.offset, pc.count);
    var r := Peek(s.log, pc.offset, pc.count);
    hide Payload, Peek, Inv;
    var s' := Apply(s, st);
    assert SendPending(s') <==> SendPending(s);
    assert forall u, f :: ParkedOn(s', u, f) <==> ParkedOn(s, u, f) || (r.Wait? && u == tid && f == pc.fid);
    assert forall f :: Ready(s', f) <==> Ready(s, f);
    if r.Wait? {
      assert ParkedOn(s', tid, pc.fid);
    }
  }

  lemma RecordingIsAwake(s: State, tid: Tid)
    requires Inv(s) && Awake(s) && Enabled(s, RecordOffset(tid))
    ensures Awake(Apply(s, RecordOffset(tid))) <==> Safe(s, RecordOffset(tid))
  {
    hide Payload, InOrder;
    var pc, s' := s.readers[tid], Apply(s, RecordOffset(tid));
    assert forall u, f :: ParkedOn(s', u, f) <==> ParkedOn(s, u, f);
    OffsetMoved(s, s', pc.fid, pc.offset + |pc.bytes|);
  }

  lemma QuietReaderIsAwake(s: State, st: Step)
    requires Awake(s) && Enabled(s, st) && (st.StartRead? || st.FetchOffset? || st.Timeout?)
    ensures Awake(Apply(s, st))
  {
    hide Payload;
    var s' := Apply(s, st);
    assert SendPending(s') <==> SendPending(s);
    assert forall u, f :: ParkedOn(s', u, f) ==> ParkedOn(s, u, f);
    assert forall f :: Ready(s', f) <==> Ready(s, f);
  }

  lemma ResettingIsAwake(s: State, st: Step)
    requires Awake(s) && Enabled(s, st) && (st.Open? || st.Clunk?)
    ensures Awake(Apply(s, st)) <==> Safe(s, st)
  {
    hide Awake;
    OffsetMoved(s, Apply(s, st), st.fid, 0);
  }

  /** Step by step the guarantee is kept by exactly the safe steps. */
  lemma AwakeIffSafe(s: State, st: Step)
    requires Inv(s) && Awake(s) && Enabled(s, st)
    ensures Awake(Apply(s, st)) <==> Safe(s, st)
  {
    hide Inv, Awake, Enabled, Apply;
    match st
    case TakeToken(tid) => TakingIsAwake(s, tid);
    case Check(tid) => CheckingIsAwake(s, tid);
    case RecordOffset(tid) => RecordingIsAwake(s, tid);
    case Open(_) => ResettingIsAwake(s, st);
    case Clunk(_) => ResettingIsAwake(s, st);
    case StartRead(_, _, _) => QuietReaderIsAwake(s, st);
    case FetchOffset(_) => QuietReaderIsAwake(s, st);
    case Timeout(_) => QuietReaderIsAwake(s, st);
    case _ => WriterKeepsAwake(s, st);
  }

  ghost predicate AwakeThroughout(s: State, steps: seq<Step>)
    requires Runs(s, steps)
    decreases steps
  {
    Awake(s) && (steps == [] || AwakeThroughout(Apply(s, steps[0]), steps[1..]))
  }

  ghost predicate SafeThroughout(s: State, steps: seq<Step>)
    requires Runs(s, steps)
    decreases steps
  {
    steps == [] || (Safe(s, steps[0]) && SafeThroughout(Apply(s, steps[0]), steps[1..]))
  }

  lemma {:induction false} RunAwakeIffSafe(s: State, steps: seq<Step>)
    requires Inv(s) && Awake(s) && Runs(s, steps)
    ensures AwakeThroughout(s, steps) <==> SafeThroughout(s, steps)
    decreases steps
  {
    hide Inv, Awake, Enabled, Apply, Safe;
    if steps != [] {
      StepKeepsInv(s, steps[0]);
      AwakeIffSafe(s, steps[0]);
      if Awake(Apply(s, steps[0])) {
        RunAwakeIffSafe(Apply(s, steps[0]), steps[1..]);
      }
    }
  }

  /** Over whole runs of any clients: no wake-up is ever lost if and only if every step is safe when it is taken. */
  lemma WakeUpsAreKept(id: seq<Byte>, steps: seq<Step>)
    requires Runs(Initial(id), steps)
    ensures AwakeThroughout(Initial(id), steps) <==> SafeThroughout(Initial(id), steps)
  {
    InitialInv(id);
    RunAwakeIffSafe(Initial(id), steps);
  }

  // ---------- one careful reader ----------

  ghost predicate OneReader(s: State) { forall t, u :: t in s.readers && u in s.readers ==> t == u }

  ghost predicate OneReaderThroughout(s: State, steps: seq<Step>)
    requires Runs(s, steps)
    decreases steps
  {
    OneReader(s) && (steps == [] || OneReaderThroughout(Apply(s, steps[0]), steps[1..]))
  }

  /** With one read per fid at a time only the token is left to fight for; a single reader does not. */
  lemma CarefulIsSafe(s: State, st: Step)
    requires Inv(s) && Orderly(s) && Enabled(s, st) && Careful(s, st)
    ensures st.TakeToken? ==> (OneReader(s) ==> Safe(s, st))
    ensures !st.TakeToken? ==> Safe(s, st)
  {
    hide Payload, StoppedLine, InOrder;
    match st
    case RecordOffset(t) =>
      assert forall u :: !ParkedOn(s, u, s.readers[t].fid);
    case Open(fid) =>
      assert forall u :: !ParkedOn(s, u, fid);
    case Clunk(fid) =>
      assert forall u :: !ParkedOn(s, u, fid);
    case _ =>
  }

  lemma {:induction false} CarefulRunIsSafe(s: State, steps: seq<Step>)
    requires Inv(s) && Orderly(s) && Runs(s, steps) && CarefulRun(s, steps) && OneReaderThroughout(s, steps)
    ensures SafeThroughout(s, steps)
    decreases steps
  {
    hide Inv, Orderly, Enabled, Apply, Careful, Safe;
    if steps != [] {
      StepKeepsInv(s, steps[0]);
      StepKeepsOrderly(s, steps[0]);
      CarefulIsSafe(s, steps[0]);
      CarefulRunIsSafe(Apply(s, steps[0]), steps[1..]);
    }
  }

  /**
   No lost wake-up for the split-lock reader: with one careful reader and any
   number of writers, whenever the reader is parked although it is behind the log
   or the log is closed, a token waits or some writer is about to leave one.
   */
  lemma NoLostWakeUp(id: seq<Byte>, steps: seq<Step>)
    requires Runs(Initial(id), steps) && CarefulRun(Initial(id), steps) && OneReaderThroughout(Initial(id), steps)
    ensures AwakeThroughout(Initial(id), steps)
  {
    InitialOrderly(id);
    CarefulRunIsSafe(Initial(id), steps);
    WakeUpsAreKept(id, steps);
  }

  /**
   Care is needed: when its fid is opened anew between looking the offset up and
   looking at the log, a reader parks behind a whole log without a token.
   */
  lemma ReopenedReaderSleeps(s: State, tid: Tid) returns (steps: seq<Step>)
    requires Inv(s) && Awake(s) && s.mu == None && !s.log.token && !s.log.closed && !SendPending(s) && s.log.data != []
    requires tid in s.readers && s.readers[tid].Checking? && s.readers[tid].offset == |s.log.data|
    requires NoneOn(s, s.readers[tid].fid)
    ensures steps == [Open(s.readers[tid].fid), Check(tid)] && Runs(s, steps) && !Awake(After(s, steps))
  {
    assert |s.log.data| <= MAX_LEN;
    hide Sound, InOrder;
    var fid := s.readers[tid].fid;
    var s1 := Apply(s, Open(fid));
    StepKeepsInv(s, Open(fid));
    AwakeIffSafe(s, Open(fid));
    assert Safe(s, Open(fid));
    assert SendPending(s1) <==> SendPending(s);
    AwakeIffSafe(s1, Check(tid));
    One(s1, Check(tid));
    steps := Prepend(s, Open(fid), [Check(tid)]);
  }

  // ---------- that run, from the start ----------

  predicate AsOne(st: Step) { st.StartRead? ==> st.tid == 1 }

  lemma {:induction false} AlwaysAlone(s: State, steps: seq<Step>)
    requires Runs(s, steps) && s.readers.Keys <= {1} && forall st :: st in steps ==> AsOne(st)
    ensures OneReaderThroughout(s, steps)
    decreases steps
  {
    if steps != [] {
      var st := steps[0];
      assert st in steps && forall x :: x in steps[1..] ==> x in steps;
      ReadersStay(s, st);
      hide Enabled, Apply;
      AlwaysAlone(Apply(s, st), steps[1..]);
    }
  }

  lemma ReadersStay(s: State, st: Step)
    requires Enabled(s, st) && s.readers.Keys <= {1} && AsOne(st)
    ensures Apply(s, st).readers.Keys <= {1}
  {
    if ByReader(st) {
      hide Peek, WriterEnabled, WriterApply, Payload;
    } else {
      hide Enabled, Apply;
      if Appends(st) {
        AppendStep(s, st);
      } else if Sends(st) {
        SendStep(s, st);
      } else if st.RunStop? {
        StopStep(s, st);
      } else {
        QuietStep(s, st);
      }
    }
  }

  /** The run loop at its select after the shortest banner, and fid 1 open. */
  lemma ReachSelect(id: seq<Byte>) returns (steps: seq<Step>)
    requires |Prefix(id)| < MAX_LEN
    ensures steps == [Start, Banner([]), RunNotify, Open(1)] && Runs(Initial(id), steps)
    ensures var s := After(Initial(id), steps);
            s == Initial(id).(phase := Running, run := Selecting, log := s.log, sessions := map[1 := []]) &&
            0 < |s.log.data| <= MAX_LEN && !s.log.closed && s.log.token && s.log.readers == map[1 := 0]
  {
    hide Prefix;
    var s0 := Initial(id);
    var s1 := Apply(s0, Start);
    assert |Payload(s1, Banner([]))| == |Prefix(id)| + 1;
    var s2 := Apply(s1, Banner([]));
    var s3 := Apply(s2, RunNotify);
    One(s3, Open(1));
    hide Runs, After;
    steps := Prepend(s2, RunNotify, [Open(1)]);
    steps := Prepend(s1, Banner([]), steps);
    steps := Prepend(s0, Start, steps);
  }

  /** Reader 1 reads all there is. */
  lemma ReadEverything(s: State) returns (steps: seq<Step>)
    requires 0 < |s.log.data| <= MAX_LEN && s.mu == None && s.readers == map[] && s.log.readers == map[1 := 0]
    requires s.sessions == map[1 := []]
    ensures Runs(s, steps) && forall st :: st in steps ==> AsOne(st)
    ensures After(s, steps) ==
              s.(log := s.log.(readers := map[1 := |s.log.data|]), sessions := map[1 := s.log.data])
  {
    var n := |s.log.data|;
    hide Runs, After, Enabled, Apply, Peek;
    var a := BeginRead(s, 1, 1, n);
    var s1 := After(s, a);
    var b := FinishRead(s1, 1);
    RunsConcat(s, a, b);
    var bytes := Peek(s1.log, 0, n).bytes;
    assert bytes == s.log.data && [] + bytes == bytes;
    steps := a + b;
  }

  lemma CheckParks(s: State)
    requires |s.log.data| <= MAX_LEN && s.mu == None && s.readers == map[1 := Checking(1, 1, |s.log.data|)] && !s.log.closed
    ensures Enabled(s, Check(1)) && Apply(s, Check(1)) == s.(readers := map[1 := Parked(1, 1)])
  {
    CheckFacts(s.log, |s.log.data|, 1);
    hide Peek, WriterEnabled, WriterApply;
  }

  lemma TakeAndFetch(s: State) returns (steps: seq<Step>)
    requires |s.log.data| <= MAX_LEN && s.readers == map[1 := Parked(1, 1)] && s.log.token
    requires s.log.readers == map[1 := |s.log.data|]
    ensures steps == [TakeToken(1), FetchOffset(1)] && Runs(s, steps)
    ensures After(s, steps) ==
              s.(log := s.log.(token := false), readers := map[1 := Checking(1, 1, |s.log.data|)])
  {
    hide Runs, After, WriterEnabled, WriterApply;
    var s1 := Apply(s, TakeToken(1));
    One(s1, FetchOffset(1));
    steps := Prepend(s, TakeToken(1), [FetchOffset(1)]);
  }

  /** It waits for more, uses the token up, and has looked its offset up again. */
  lemma UseTheToken(s: State) returns (steps: seq<Step>)
    requires |s.log.data| <= MAX_LEN && s.mu == None && s.readers == map[] && s.log.readers == map[1 := |s.log.data|]
    requires !s.log.closed && s.log.token
    ensures Runs(s, steps) && forall st :: st in steps ==> AsOne(st)
    ensures After(s, steps) ==
              s.(log := s.log.(token := false), readers := map[1 := Checking(1, 1, |s.log.data|)])
  {
    hide Runs, After, Enabled, Apply;
    var a := BeginRead(s, 1, 1, 1);
    var s1 := After(s, a);
    CheckParks(s1);
    var b := TakeAndFetch(Apply(s1, Check(1)));
    var c := Prepend(s1, Check(1), b);
    RunsConcat(s, a, c);
    steps := a + c;
  }

  lemma AloneIsAwake(s: State)
    requires s.readers.Keys == {1} && s.readers[1].Checking? && s.run == Selecting && s.copiers == map[]
    ensures Awake(s) && !SendPending(s) && forall fid :: NoneOn(s, fid)
  {
  }

  /** A single reader whose client reopens its fid at the wrong moment, from the start of the agent. */
  lemma ReopenedReaderHappens(id: seq<Byte>) returns (steps: seq<Step>)
    requires |Prefix(id)| < MAX_LEN
    ensures Runs(Initial(id), steps) && OneReaderThroughout(Initial(id), steps) && !Awake(After(Initial(id), steps))
  {
    hide Enabled, Apply, Runs, After, Prefix, Awake, OneReaderThroughout;
    var s0 := Initial(id);
    var a := ReachSelect(id);
    var s1 := After(s0, a);
    var b := ReadEverything(s1);
    var s2 := After(s1, b);
    var c := UseTheToken(s2);
    var s3 := After(s2, c);
    RunsConcat(s0, a, b);
    RunsConcat(s0, a + b, c);
    InitialInv(id);
    RunKeepsInv(s0, a + b + c);
    AloneIsAwake(s3);
    var d := ReopenedReaderSleeps(s3, 1);
    RunsConcat(s0, a + b + c, d);
    steps := a + b + c + d;
    AlwaysAlone(s0, steps);
  }
}
