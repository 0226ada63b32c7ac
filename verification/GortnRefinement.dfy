/**
 The split-lock reader refines an atomic one, over whole runs: what a careful
 client sees of any interleaving is a run of a log whose reads are atomic.
 */
module GortnRefinement {
  import opened Bytes
  import opened OutputLog
  import opened AgentBuffer
  import opened GortnBuffer
  import opened GortnAgent
  import opened GortnReads
  import opened GortnStops

  /** The operations of the atomic log. */
  datatype Event =
    | Wrote(d: seq<Byte>)
    | Closing(line: seq<Byte>)
    | LeftToken
    | TookToken
    | Opened(fid: Fid)
    | Clunked(fid: Fid)
    | Returned(fid: Fid, count: nat, result: ReadResult)
    | Interrupted(fid: Fid, count: nat)                  // a read that returns EOF because of the stop channel

  /** A read may return what the atomic read returns now, and only when it does return. */
  predicate Allowed(l: Log, e: Event) {
    match e
    case Closing(_) => !l.closed
    case TookToken => l.token
    case Returned(fid, count, r) => (r.Got? || r.Eof?) && Attempt(l, fid, count).1 == r
    case Interrupted(fid, count) => Attempt(l, fid, count).1 == Eof
    case _ => true
  }

  function AfterEvent(l: Log, e: Event): Log {
    match e
    case Wrote(d) => Append(l, d)
    case Closing(line) => Append(l, line).(closed := true)
    case LeftToken => Notify(l)
    case TookToken => l.(token := false)
    case Opened(fid) => OpenAtStart(l, fid)
    case Clunked(fid) => Forget(l, fid)
    case Returned(fid, count, _) => Attempt(l, fid, count).0
    case Interrupted(_, _) => l
  }

  predicate AtomicRun(l: Log, es: seq<Event>)
    decreases es
  {
    es == [] || (Allowed(l, es[0]) && AtomicRun(AfterEvent(l, es[0]), es[1..]))
  }

  function AfterAll(l: Log, es: seq<Event>): Log
    decreases es
  {
    if es == [] then l else AfterAll(AfterEvent(l, es[0]), es[1..])
  }

  /** The operation that a step completes, if any. Fetching, checking ahead of a copy and parking complete none. */
  function EventOf(s: State, st: Step): seq<Event> {
    match st
    case Banner(_) => [Wrote(Payload(s, st))]
    case CmdEcho(_) => [Wrote(Payload(s, st))]
    case CmdReport(_) => [Wrote(Payload(s, st))]
    case Announce => [Wrote(Payload(s, st))]
    case Copy(_, _) => [Wrote(Payload(s, st))]
    case RunStop => [Closing(StoppedLine(s.id))]
    case RunNotify => [LeftToken]
    case CopierNotify(_) => [LeftToken]
    case TakeToken(_) => [TookToken]
    case Open(fid) => [Opened(fid)]
    case Clunk(fid) => [Clunked(fid)]
    case RecordOffset(tid) =>
      if tid in s.readers && s.readers[tid].Holding? then
        [Returned(s.readers[tid].fid, s.readers[tid].count, Got(s.readers[tid].bytes))]
      else []
    case Check(tid) =>
      if tid in s.readers && s.readers[tid].Checking? && Peek(s.log, s.readers[tid].offset, s.readers[tid].count).Eof?
      then [Returned(s.readers[tid].fid, s.readers[tid].count, Eof)]
      else []
    case _ =>
      var tid := Interrupts(st);
      if tid.Some? && tid.value in s.readers then [Interrupted(s.readers[tid.value].fid, s.readers[tid.value].count)]
      else []
  }

  ghost function Events(s: State, steps: seq<Step>): seq<Event>
    requires Runs(s, steps)
    decreases steps
  {
    if steps == [] then [] else EventOf(s, steps[0]) + Events(Apply(s, steps[0]), steps[1..])
  }

  lemma StepRefines(s: State, st: Step)
    requires Inv(s) && Orderly(s) && Enabled(s, st)
    ensures AtomicRun(s.log, EventOf(s, st)) <==> Interrupts(st).None?
    ensures AfterAll(s.log, EventOf(s, st)) == Apply(s, st).log
  {
    hide Inv, Orderly, Enabled, Apply, AtomicRun, AfterAll, EventOf;
    match st
    case RecordOffset(tid) => RecordRefines(s, tid);
    case Check(tid) => CheckRefines(s, tid);
    case _ =>
      if Interrupts(st).Some? {
        InterruptionRefines(s, st);
      } else if Appends(st) {
        AppendRefines(s, st);
      } else if ByReader(st) {
        OtherReaderRefines(s, st);
      } else {
        OtherWriterRefines(s, st);
      }
  }

  /** No atomic read returns EOF from an open log. */
  lemma InterruptionRefines(s: State, st: Step)
    requires Inv(s) && Enabled(s, st) && Interrupts(st).Some?
    ensures !AtomicRun(s.log, EventOf(s, st))
    ensures AfterAll(s.log, EventOf(s, st)) == Apply(s, st).log
  {
    hide Peek, AtomicRun, AfterAll, Enabled, Apply;
    InterruptionIsQuiet(s, st);
    var pc := s.readers[Interrupts(st).value];
    CheckFacts(s.log, Offset(s.log, pc.fid), pc.count);
    Single(s.log, Interrupted(pc.fid, pc.count));
  }

  lemma Single(l: Log, e: Event)
    ensures AtomicRun(l, [e]) <==> Allowed(l, e)
    ensures AfterAll(l, [e]) == AfterEvent(l, e)
  {
    hide Allowed, AfterEvent;
    assert [e][1..] == [];
    assert AtomicRun(AfterEvent(l, e), []);
  }

  lemma RecordRefines(s: State, tid: Tid)
    requires Inv(s) && Orderly(s) && Enabled(s, RecordOffset(tid))
    ensures var st := RecordOffset(tid);
            AtomicRun(s.log, EventOf(s, st)) && AfterAll(s.log, EventOf(s, st)) == Apply(s, st).log
  {
    var pc := s.readers[tid];
    RecordIsAtomicRead(s, tid);
    Single(s.log, Returned(pc.fid, pc.count, Got(pc.bytes)));
    hide Attempt, Peek, Sound, Tidy, Apply, AtomicRun, AfterAll;
  }

  lemma CheckRefines(s: State, tid: Tid)
    requires Inv(s) && Orderly(s) && Enabled(s, Check(tid))
    ensures var st := Check(tid);
            AtomicRun(s.log, EventOf(s, st)) && AfterAll(s.log, EventOf(s, st)) == Apply(s, st).log
  {
    var pc := s.readers[tid];
    EmptyCheckIsAtomicRead(s, tid);
    Single(s.log, Returned(pc.fid, pc.count, Eof));
    hide Attempt, Peek, Sound, Tidy;
  }

  lemma AppendRefines(s: State, st: Step)
    requires Enabled(s, st) && Appends(st)
    ensures AtomicRun(s.log, EventOf(s, st)) && AfterAll(s.log, EventOf(s, st)) == Apply(s, st).log
  {
    hide Payload, AtomicRun, AfterAll, Enabled, Apply;
    AppendStep(s, st);
    Single(s.log, Wrote(Payload(s, st)));
  }

  lemma OtherReaderRefines(s: State, st: Step)
    requires Enabled(s, st) && ByReader(st) && !st.RecordOffset? && !st.Check?
    ensures AtomicRun(s.log, EventOf(s, st)) && AfterAll(s.log, EventOf(s, st)) == Apply(s, st).log
  {
    hide Payload, AtomicRun, AfterAll, WriterEnabled, WriterApply;
    if EventOf(s, st) == [] {
      Nothing(s.log);
    } else {
      Single(s.log, EventOf(s, st)[0]);
    }
  }

  lemma OtherWriterRefines(s: State, st: Step)
    requires Inv(s) && Enabled(s, st) && !ByReader(st) && !Appends(st) && Interrupts(st).None?
    ensures AtomicRun(s.log, EventOf(s, st)) && AfterAll(s.log, EventOf(s, st)) == Apply(s, st).log
  {
    if Sends(st) {
      hide AtomicRun, AfterAll, Enabled, Apply;
      SendStep(s, st);
      Nothing(s.log);
    } else {
      hide Payload, StoppedLine, Sound, EndsWith, AtomicRun, AfterAll, ReaderEnabled, ReaderApply, AfterStop, CanReceive;
      if EventOf(s, st) == [] {
        Nothing(s.log);
      } else {
        Single(s.log, EventOf(s, st)[0]);
      }
    }
  }

  lemma Nothing(l: Log)
    ensures AtomicRun(l, []) && AfterAll(l, []) == l
  {
  }

  lemma {:induction false} AtomicConcat(l: Log, a: seq<Event>, b: seq<Event>)
    ensures AtomicRun(l, a + b) <==> AtomicRun(l, a) && AtomicRun(AfterAll(l, a), b)
    ensures AfterAll(l, a + b) == AfterAll(AfterAll(l, a), b)
    decreases a
  {
    hide Allowed, AfterEvent;
    if a == [] {
      assert a + b == b;
    } else {
      assert (a + b)[1..] == a[1..] + b;
      AtomicConcat(AfterEvent(l, a[0]), a[1..], b);
    }
  }

  lemma {:induction false} RunRefines(s: State, steps: seq<Step>)
    requires Inv(s) && Orderly(s) && Complete(s) && Runs(s, steps) && CarefulRun(s, steps)
    ensures AtomicRun(s.log, Events(s, steps)) <==> forall st :: st in steps ==> Interrupts(st).None?
    ensures AfterAll(s.log, Events(s, steps)) == After(s, steps).log
    decreases steps
  {
    hide Inv, Orderly, Complete, Enabled, Apply, Careful, EventOf, AtomicRun, AfterAll, Interrupts;
    if steps == [] {
      Nothing(s.log);
    } else {
      var st := steps[0];
      assert steps == [st] + steps[1..];
      StepKeepsInv(s, st);
      StepKeepsOrderly(s, st);
      StepKeepsComplete(s, st);
      StepRefines(s, st);
      RunRefines(Apply(s, st), steps[1..]);
      AtomicConcat(s.log, EventOf(s, st), Events(Apply(s, st), steps[1..]));
    }
  }

  /**
   Every return of every read is an event, and the log at the end of the run is
   what its events make of the empty log. For a careful client the events are a
   run of the atomic log if and only if the stop channel ends no read: each other
   read returns exactly what an atomic read would at the moment it records its
   offset or sees the closed flag.
   */
  lemma SplitReadsRefineAtomicReads(id: seq<Byte>, steps: seq<Step>)
    requires Runs(Initial(id), steps) && CarefulRun(Initial(id), steps)
    ensures AtomicRun(EMPTY, Events(Initial(id), steps)) <==> forall st :: st in steps ==> Interrupts(st).None?
    ensures AfterAll(EMPTY, Events(Initial(id), steps)) == After(Initial(id), steps).log
  {
    InitialOrderly(id);
    RunRefines(Initial(id), steps);
  }
}
