/**
 What rcpud's split-lock reads amount to: with one read per fid at a time they
 are the atomic reads of a log; without, the exact moment at which a stream
 goes wrong is known.
 */
module GortnReads {
  import opened Bytes
  import opened OutputLog
  import opened AgentBuffer
  import opened GortnBuffer
  import opened GortnAgent

  // ---------- one read per fid at a time ----------

  predicate InFlight(s: State, fid: Fid) {
    exists t :: t in s.readers && s.readers[t].fid == fid
  }

  /** A client that starts a read, reopens or clunks a fid only when no read of that fid is outstanding. */
  predicate Careful(s: State, st: Step) {
    match st
    case StartRead(_, fid, _) => !InFlight(s, fid)
    case Open(fid) => !InFlight(s, fid)
    case Clunk(fid) => !InFlight(s, fid)
    case _ => true
  }

  ghost predicate CarefulRun(s: State, steps: seq<Step>)
    requires Runs(s, steps)
    decreases steps
  {
    steps == [] || (Careful(s, steps[0]) && CarefulRun(Apply(s, steps[0]), steps[1..]))
  }

  /** Then reads of different goroutines are of different fids, and a fetched offset is still the recorded one. */
  ghost predicate Tidy(offsets: map<Fid, nat>, readers: map<Tid, ReaderPc>) {
    (forall t, u :: t in readers && u in readers && readers[t].fid == readers[u].fid ==> t == u)
    && (forall t :: t in readers ==> Current(offsets, readers[t]))
  }

  predicate Current(offsets: map<Fid, nat>, pc: ReaderPc) {
    pc.Checking? || pc.Holding? ==> pc.offset == if pc.fid in offsets then offsets[pc.fid] else 0
  }

  ghost predicate Orderly(s: State) { Tidy(s.log.readers, s.readers) }

  /** Every open fid has been given exactly the log up to its recorded offset. */
  ghost predicate Complete(s: State) {
    forall fid :: fid in s.sessions ==>
      fid in s.log.readers && s.log.readers[fid] <= |s.log.data| && s.sessions[fid] == s.log.data[..s.log.readers[fid]]
  }

  lemma TidyAdd(offsets: map<Fid, nat>, readers: map<Tid, ReaderPc>, tid: Tid, fid: Fid, count: nat)
    requires Tidy(offsets, readers) && forall t :: t in readers ==> readers[t].fid != fid
    ensures Tidy(offsets, readers[tid := Fetching(fid, count)])
  {
  }

  lemma TidyMove(offsets: map<Fid, nat>, readers: map<Tid, ReaderPc>, tid: Tid, pc: ReaderPc)
    requires Tidy(offsets, readers) && tid in readers && pc.fid == readers[tid].fid && Current(offsets, pc)
    ensures Tidy(offsets, readers[tid := pc])
  {
  }

  lemma TidyLeave(offsets: map<Fid, nat>, readers: map<Tid, ReaderPc>, tid: Tid)
    requires Tidy(offsets, readers)
    ensures Tidy(offsets, readers - {tid})
  {
  }

  lemma TidyOffset(offsets: map<Fid, nat>, readers: map<Tid, ReaderPc>, fid: Fid, offset: nat)
    requires Tidy(offsets, readers) && forall t :: t in readers ==> readers[t].fid != fid
    ensures Tidy(offsets[fid := offset], readers) && Tidy(offsets - {fid}, readers)
  {
  }

  lemma CheckKeepsTidy(s: State, tid: Tid)
    requires Orderly(s) && tid in s.readers && s.readers[tid].Checking?
    ensures Orderly(AfterCheck(s, tid))
  {
    hide Peek;
    var pc := s.readers[tid];
    TidyLeave(s.log.readers, s.readers, tid);
    TidyMove(s.log.readers, s.readers, tid, Parked(pc.fid, pc.count));
    match Peek(s.log, pc.offset, pc.count)
    case Got(b) => TidyMove(s.log.readers, s.readers, tid, Holding(pc.fid, pc.count, pc.offset, b));
    case _ =>
  }

  lemma RecordKeepsTidy(s: State, tid: Tid)
    requires Orderly(s) && tid in s.readers && s.readers[tid].Holding?
    ensures Orderly(AfterRecord(s, tid))
  {
    var pc := s.readers[tid];
    TidyLeave(s.log.readers, s.readers, tid);
    TidyOffset(s.log.readers, s.readers - {tid}, pc.fid, pc.offset + |pc.bytes|);
  }

  lemma ReaderKeepsOrderly(s: State, st: Step)
    requires Orderly(s) && Enabled(s, st) && ByReader(st) && Careful(s, st)
    ensures Orderly(Apply(s, st))
  {
    hide Tidy, Payload, Peek, GortnAgent.Deliver, WriterEnabled, WriterApply;
    match st
    case StartRead(tid, fid, count) => TidyAdd(s.log.readers, s.readers, tid, fid, count);
    case FetchOffset(tid) =>
      var pc := s.readers[tid];
      TidyMove(s.log.readers, s.readers, tid, Checking(pc.fid, pc.count, Offset(s.log, pc.fid)));
    case TakeToken(tid) => TidyMove(s.log.readers, s.readers, tid, Fetching(s.readers[tid].fid, s.readers[tid].count));
    case Timeout(tid) => TidyMove(s.log.readers, s.readers, tid, Fetching(s.readers[tid].fid, s.readers[tid].count));
    case Check(tid) => CheckKeepsTidy(s, tid);
    case RecordOffset(tid) => RecordKeepsTidy(s, tid);
    case Open(fid) => TidyOffset(s.log.readers, s.readers, fid, 0);
    case Clunk(fid) => TidyOffset(s.log.readers, s.readers, fid, 0);
  }

  lemma StepKeepsOrderly(s: State, st: Step)
    requires Orderly(s) && Enabled(s, st) && Careful(s, st)
    ensures Orderly(Apply(s, st))
  {
    hide Tidy, Enabled, Apply, Careful, Payload, StoppedLine;
    if ByReader(st) {
      ReaderKeepsOrderly(s, st);
    } else if Appends(st) {
      AppendStep(s, st);
    } else if Sends(st) {
      SendStep(s, st);
      if st.to.TheReader? {
        TidyLeave(s.log.readers, s.readers, st.to.tid);
      }
    } else if st.RunStop? {
      StopStep(s, st);
    } else {
      QuietStep(s, st);
    }
  }

  lemma AppendKeepsComplete(s: State, d: seq<Byte>)
    requires Complete(s)
    ensures Complete(s.(log := Append(s.log, d)))
  {
    forall fid | fid in s.sessions ensures (s.log.data + d)[..s.log.readers[fid]] == s.log.data[..s.log.readers[fid]] {
      SamePrefix(s.log.data, d, s.log.readers[fid]);
    }
  }

  lemma SamePrefix(data: seq<Byte>, d: seq<Byte>, n: nat)
    requires n <= |data|
    ensures (data + d)[..n] == data[..n]
  {
  }

  /** Recording a read whose offset is still current extends the session by the next bytes of the log. */
  lemma RecordKeepsComplete(s: State, tid: Tid)
    requires Inv(s) && Complete(s) && Enabled(s, RecordOffset(tid))
    requires s.readers[tid].offset == Offset(s.log, s.readers[tid].fid)
    ensures Complete(Apply(s, RecordOffset(tid)))
  {
    var pc := s.readers[tid];
    var n := pc.offset + |pc.bytes|;
    assert s.log.data[..n] == s.log.data[..pc.offset] + pc.bytes;
  }

  lemma ReaderKeepsComplete(s: State, st: Step)
    requires Inv(s) && Orderly(s) && Complete(s) && Enabled(s, st) && ByReader(st)
    ensures Complete(Apply(s, st))
  {
    match st
    case RecordOffset(tid) => RecordKeepsComplete(s, tid);
    case Open(fid) => assert s.log.data[..0] == [];
    case _ => OtherReadersKeepComplete(s, st);
  }

  /** Most steps of readers leave offsets and sessions alone. */
  lemma OffsetsKept(s: State, st: Step)
    requires Enabled(s, st) && ByReader(st) && !st.RecordOffset? && !st.Open? && !st.Clunk?
    ensures var s' := Apply(s, st);
            s'.log.data == s.log.data && s'.log.readers == s.log.readers && s'.sessions == s.sessions
  {
    hide Payload, Peek, AfterRecord, WriterEnabled, WriterApply;
  }

  lemma OtherReadersKeepComplete(s: State, st: Step)
    requires Complete(s) && Enabled(s, st) && ByReader(st) && !st.RecordOffset? && !st.Open?
    ensures Complete(Apply(s, st))
  {
    if st.Clunk? {
      ClunkKeepsComplete(s, st.fid);
    } else {
      hide Apply, Enabled;
      OffsetsKept(s, st);
    }
  }

  lemma ClunkKeepsComplete(s: State, fid: Fid)
    requires Complete(s) && Enabled(s, Clunk(fid))
    ensures Complete(Apply(s, Clunk(fid)))
  {
    hide Payload, WriterEnabled, WriterApply, AfterRecord, AfterCheck;
  }

  lemma StepKeepsComplete(s: State, st: Step)
    requires Inv(s) && Orderly(s) && Complete(s) && Enabled(s, st)
    ensures Complete(Apply(s, st))
  {
    if ByReader(st) {
      ReaderKeepsComplete(s, st);
    } else {
      WriterKeepsComplete(s, st);
    }
  }

  lemma WriterKeepsComplete(s: State, st: Step)
    requires Complete(s) && Enabled(s, st) && !ByReader(st)
    ensures Complete(Apply(s, st))
  {
    hide Enabled, Apply, Payload, StoppedLine;
    if Appends(st) {
      AppendStep(s, st);
      AppendKeepsComplete(s, Payload(s, st));
    } else if Sends(st) {
      SendStep(s, st);
    } else if st.RunStop? {
      StopStep(s, st);
      AppendKeepsComplete(s, StoppedLine(s.id));
    } else {
      QuietStep(s, st);
    }
  }

  lemma {:induction false} CarefulRunKeeps(s: State, steps: seq<Step>)
    requires Inv(s) && Orderly(s) && Complete(s) && Runs(s, steps) && CarefulRun(s, steps)
    ensures var s' := After(s, steps); Inv(s') && Orderly(s') && Complete(s')
    decreases steps
  {
    hide Inv, Orderly, Complete, Enabled, Apply, Careful;
    if steps != [] {
      StepKeepsInv(s, steps[0]);
      StepKeepsOrderly(s, steps[0]);
      StepKeepsComplete(s, steps[0]);
      CarefulRunKeeps(Apply(s, steps[0]), steps[1..]);
    }
  }

  lemma InitialOrderly(id: seq<Byte>)
    ensures Inv(Initial(id)) && Orderly(Initial(id)) && Complete(Initial(id))
  {
  }

  /**
   Stream correctness of the split-lock read: in every interleaving of a client
   that is careful with its fids, an open fid has been given exactly the log up
   to its recorded offset.
   */
  lemma SplitReadsGiveTheLog(id: seq<Byte>, steps: seq<Step>)
    requires Runs(Initial(id), steps) && CarefulRun(Initial(id), steps)
    ensures var s := After(Initial(id), steps);
            forall fid :: fid in s.sessions ==>
              fid in s.log.readers && s.log.readers[fid] <= |s.log.data| &&
              s.sessions[fid] == s.log.data[..s.log.readers[fid]]
  {
    InitialOrderly(id);
    CarefulRunKeeps(Initial(id), steps);
  }

  /**
   Refinement: seen from a careful client, each way a turn of the loop can end
   is one atomic read of the log (Attempt, the read of agentBuf) at that moment.
   Recording the offset returns the bytes and leaves the log that the atomic
   read does.
   */
  lemma RecordIsAtomicRead(s: State, tid: Tid)
    requires Inv(s) && Orderly(s) && Enabled(s, RecordOffset(tid))
    ensures var pc := s.readers[tid];
            Attempt(s.log, pc.fid, pc.count) == (Apply(s, RecordOffset(tid)).log, Got(pc.bytes))
  {
    var pc := s.readers[tid];
    assert Taken(s.log.data, pc.offset, pc.count, pc.bytes) && pc.offset == Offset(s.log, pc.fid);
    hide Payload, Sound, InOrder, Tidy;
    TakenIsPeek(s.log, pc.offset, pc.count, pc.bytes);
  }

  lemma TakenIsPeek(l: Log, offset: nat, count: nat, b: seq<Byte>)
    requires Taken(l.data, offset, count, b) && |l.data| <= MAX_LEN
    ensures Peek(l, offset, count) == Got(b)
  {
    PeekIsExact(l, offset, count);
  }

  /** A check that finds nothing returns EOF, or goes on to wait, exactly when the atomic read does. */
  lemma EmptyCheckIsAtomicRead(s: State, tid: Tid)
    requires Inv(s) && Orderly(s) && Enabled(s, Check(tid))
    ensures var pc := s.readers[tid];
            var (log, r) := Attempt(s.log, pc.fid, pc.count);
            r == Peek(s.log, pc.offset, pc.count) &&
            (r.Eof? || r.Wait? ==> log == s.log == Apply(s, Check(tid)).log) &&
            (r == Eof <==> tid !in Apply(s, Check(tid)).readers)
  {
    hide Payload;
    var pc := s.readers[tid];
    CheckFacts(s.log, pc.offset, pc.count);
  }

  // ---------- when a stream goes wrong ----------

  /**
   Without such care the recording of one read decides: it keeps the session of
   its fid complete if and only if the offset it fetched is still the recorded
   one. This is a property of the state, for every interleaving.
   */
  lemma StaleOffsetBreaksTheStream(s: State, tid: Tid)
    requires Inv(s) && Complete(s) && Enabled(s, RecordOffset(tid)) && s.readers[tid].fid in s.sessions
    ensures Complete(Apply(s, RecordOffset(tid))) <==> s.readers[tid].offset == Offset(s.log, s.readers[tid].fid)
  {
    hide Payload;
    var pc := s.readers[tid];
    assert Taken(s.log.data, pc.offset, pc.count, pc.bytes);
    if pc.offset == Offset(s.log, pc.fid) {
      RecordKeepsComplete(s, tid);
    } else {
      var s' := Apply(s, RecordOffset(tid));
      assert |s'.sessions[pc.fid]| == s.log.readers[pc.fid] + |pc.bytes|;
      assert s'.log.readers[pc.fid] == pc.offset + |pc.bytes|;
    }
  }

  lemma {:induction false} RunsConcat(s: State, a: seq<Step>, b: seq<Step>)
    requires Runs(s, a) && Runs(After(s, a), b)
    ensures Runs(s, a + b) && After(s, a + b) == After(After(s, a), b)
    decreases a
  {
    hide Enabled, Apply;
    if a == [] {
      assert a + b == b;
    } else {
      assert (a + b)[1..] == a[1..] + b;
      RunsConcat(Apply(s, a[0]), a[1..], b);
    }
  }

  lemma One(s: State, st: Step)
    requires Enabled(s, st)
    ensures Runs(s, [st]) && After(s, [st]) == Apply(s, st)
  {
    hide Enabled, Apply;
    assert [st][1..] == [];
    assert Runs(Apply(s, st), []);
  }

  lemma Prepend(s: State, st: Step, rest: seq<Step>) returns (steps: seq<Step>)
    requires Enabled(s, st) && Runs(Apply(s, st), rest)
    ensures Runs(s, steps) && After(s, steps) == After(Apply(s, st), rest) && steps == [st] + rest
  {
    hide Enabled, Apply;
    steps := [st] + rest;
    assert steps[1..] == rest;
  }

  /** From fetching to the end of the read, undisturbed. */
  lemma FinishRead(s: State, tid: Tid) returns (steps: seq<Step>)
    requires |s.log.data| <= MAX_LEN && s.mu == None && tid in s.readers && s.readers[tid].Checking?
    requires s.readers[tid].offset < |s.log.data|
    ensures steps == [Check(tid), RecordOffset(tid)] && Runs(s, steps)
    ensures var pc, s' := s.readers[tid], After(s, steps);
            var r := Peek(s.log, pc.offset, pc.count);
            r.Got? && Taken(s.log.data, pc.offset, pc.count, r.bytes) &&
            s' == s.(log := Record(s.log, pc.fid, pc.offset + |r.bytes|), readers := s.readers - {tid},
                     sessions := GortnAgent.Deliver(s.sessions, pc.fid, r.bytes))
  {
    hide WriterEnabled, WriterApply;
    var pc := s.readers[tid];
    CheckFacts(s.log, pc.offset, pc.count);
    var s1 := Apply(s, Check(tid));
    One(s, Check(tid));
    One(s1, RecordOffset(tid));
    assert s1.readers - {tid} == s.readers - {tid};
    RunsConcat(s, [Check(tid)], [RecordOffset(tid)]);
    steps := [Check(tid)] + [RecordOffset(tid)];
  }

  /** The beginning of a read, undisturbed. */
  lemma BeginRead(s: State, tid: Tid, fid: Fid, count: nat) returns (steps: seq<Step>)
    requires |s.log.data| <= MAX_LEN && tid !in s.readers
    ensures steps == [StartRead(tid, fid, count), FetchOffset(tid)] && Runs(s, steps)
    ensures After(s, steps) == s.(readers := s.readers[tid := Checking(fid, count, Offset(s.log, fid))])
  {
    var s1 := Apply(s, StartRead(tid, fid, count));
    var s2 := Apply(s1, FetchOffset(tid));
    One(s, StartRead(tid, fid, count));
    One(s1, FetchOffset(tid));
    RunsConcat(s, [StartRead(tid, fid, count)], [FetchOffset(tid)]);
    assert s2.readers == s.readers[tid := Checking(fid, count, Offset(s.log, fid))];
    steps := [StartRead(tid, fid, count)] + [FetchOffset(tid)];
  }

  /**
   Two outstanding reads of one fid can return the same bytes: from every state
   in which an open fid has bytes to come, two reads that both fetch the offset
   before either records its own deliver the same non-empty piece twice.
   */
  lemma TwoReadsSameBytes(s: State, fid: Fid, t: Tid, u: Tid, count: nat) returns (steps: seq<Step>, b: seq<Byte>)
    requires Inv(s) && s.mu == None && fid in s.sessions && fid in s.log.readers && s.log.readers[fid] < |s.log.data|
    requires t !in s.readers && u !in s.readers && t != u && 0 < count
    ensures b != [] && Runs(s, steps) && fid in After(s, steps).sessions
    ensures After(s, steps).sessions[fid] == s.sessions[fid] + b + b
    ensures After(s, steps).log.data == s.log.data
  {
    var at := Offset(s.log, fid);
    CheckFacts(s.log, at, count);
    hide Enabled, Apply, Peek;
    var first := BeginRead(s, t, fid, count);
    var s1 := After(s, first);
    var second := BeginRead(s1, u, fid, count);
    var s2 := After(s1, second);
    RunsConcat(s, first, second);
    var third := FinishRead(s2, t);
    var s3 := After(s2, third);
    SamePeek(s2.log, s3.log, at, count);
    var fourth := FinishRead(s3, u);
    RunsConcat(s2, third, fourth);
    RunsConcat(s, first + second, third + fourth);
    steps := first + second + (third + fourth);
    b := Peek(s2.log, at, count).bytes;
  }

  lemma SamePeek(l: Log, l': Log, offset: nat, count: nat)
    requires l.data == l'.data && l.closed == l'.closed
    ensures Peek(l, offset, count) == Peek(l', offset, count)
  {
  }

  // ---------- the end of the log ----------

  /** Once closed, no step of any goroutine changes the log's bytes or the agent's state. */
  lemma {:induction false} StoppedIsFinal(s: State, steps: seq<Step>)
    requires Inv(s) && s.log.closed && Runs(s, steps)
    ensures var s' := After(s, steps); s'.log.closed && s'.log.data == s.log.data && s'.phase == Stopped
    decreases steps
  {
    hide Enabled, Apply, Inv;
    if steps == [] {
      ClosedIsStopped(s);
    } else {
      StepKeepsInv(s, steps[0]);
      ClosedStep(s, steps[0]);
      StoppedIsFinal(Apply(s, steps[0]), steps[1..]);
    }
  }

  lemma ClosedIsStopped(s: State)
    requires Inv(s)
    ensures s.log.closed <==> s.phase == Stopped
    ensures s.log.closed ==> EndsWith(s.log.data, StoppedLine(s.id))
  {
  }

  lemma ClosedStep(s: State, st: Step)
    requires Inv(s) && s.log.closed && Enabled(s, st)
    ensures var s' := Apply(s, st); s'.log.closed && s'.log.data == s.log.data
  {
    hide Enabled, Apply, Payload, Sound, StoppedLine, EndsWith;
    if ByReader(st) {
      ReaderStep(s, st);
    } else if Appends(st) {
      AppendStep(s, st);
    } else if Sends(st) {
      SendStep(s, st);
    } else if st.RunStop? {
      StopStep(s, st);
    } else {
      QuietStep(s, st);
    }
  }

  /** The log is closed exactly when the agent is stopped, and then ends with the stopped line, in every reachable state. */
  lemma ClosedExactlyWhenStopped(id: seq<Byte>, steps: seq<Step>)
    requires Runs(Initial(id), steps)
    ensures var s := After(Initial(id), steps);
            (s.log.closed <==> s.phase == Stopped) && (s.log.closed ==> EndsWith(s.log.data, StoppedLine(s.id)))
  {
    InitialInv(id);
    RunKeepsInv(Initial(id), steps);
    ClosedIsStopped(After(Initial(id), steps));
  }

  /** An EOF that comes from the closed flag is complete: the session has been given the whole final log. */
  lemma ClosedEofIsComplete(id: seq<Byte>, steps: seq<Step>, tid: Tid, more: seq<Step>)
    requires Runs(Initial(id), steps) && CarefulRun(Initial(id), steps)
    requires var s := After(Initial(id), steps);
             Enabled(s, Check(tid)) && tid !in Apply(s, Check(tid)).readers && s.readers[tid].fid in s.sessions &&
             Runs(Apply(s, Check(tid)), more)
    ensures var s := After(Initial(id), steps);
            s.sessions[s.readers[tid].fid] == After(Apply(s, Check(tid)), more).log.data
  {
    InitialOrderly(id);
    CarefulRunKeeps(Initial(id), steps);
    var s := After(Initial(id), steps);
    var pc := s.readers[tid];
    CheckFacts(s.log, pc.offset, pc.count);
    EmptyCheckIsAtomicRead(s, tid);
    StepKeepsInv(s, Check(tid));
    StoppedIsFinal(Apply(s, Check(tid)), more);
    assert s.log.data[..|s.log.data|] == s.log.data;
  }
}
