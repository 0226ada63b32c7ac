/**
 One rcpud agent with all the goroutines that touch its output. A reader fetches
 its offset under readersMu, lets go, and then copies bytes and records the new
 offset under g.mu: anything may happen in between.

 Critical sections under one lock are single steps. The one section that takes
 a second lock is split there: its goroutine holds g.mu (field mu) across two
 steps. GortnLocks looks at every single acquisition.
 */
module GortnAgent {
  import opened Bytes
  import opened OutputLog
  import opened GortnBuffer

  type Tid = nat

  datatype Next = ToSelect | ToExec(pipes: set<nat>) | ToRemove

  datatype RunPc =
    | Starting                                          // about to set the running state
    | Greeting                                          // about to write the banner
    | Selecting                                         // waiting for a command or the stop signal
    | Stopping                                          // in the handler of the stop command
    | Announcing(cmd: seq<Byte>, pipes: set<nat>)       // exec has set its state
    | Notifying(next: Next)                             // has unlocked, has not yet tried its send
    | Executing                                         // the command runs; then wg.Wait
    | StopTaken                                         // has received the stop signal
    | Removing                                          // in the deferred Remove
    | Ended

  datatype CopierPc = Copying | CopierNotifying

  datatype ReaderPc =
    | Fetching(fid: Fid, count: nat)
    | Checking(fid: Fid, count: nat, offset: nat)                      // holds nothing
    | Holding(fid: Fid, count: nat, offset: nat, bytes: seq<Byte>)     // holds g.mu, wants readersMu
    | Parked(fid: Fid, count: nat)

  datatype State = State(
    id: seq<Byte>,
    phase: Phase,
    log: Log,
    mu: Option<Tid>,
    run: RunPc,
    copiers: map<nat, CopierPc>,
    pumps: nat,                                  // stdin goroutines that wait on the stop channel
    busyPumps: nat,                              // and those that write to their command
    listed: bool,                                // in the manager's table; read and written under gm.mu
    readers: map<Tid, ReaderPc>,
    sessions: map<Fid, seq<Byte>>)               // history only: what each open fid was given since it was opened

  /** Who receives a stop signal: the channel is unbuffered and the send does not wait. */
  datatype Receiver = TheRun | TheReader(tid: Tid) | ThePump | Nobody

  datatype Step =
    | Start
    | Banner(thought: seq<Byte>)
    | CmdEcho(text: seq<Byte>)
    | CmdReport(text: seq<Byte>)                 // an unknown command, or the outcome of spawn
    | CmdExec(cmd: seq<Byte>, pipes: set<nat>)
    | Announce
    | CmdStop                                    // the run loop receives the command stop
    | StopSend(to: Receiver)                     // and executes it: a send that does not wait
    | StopSignal(to: Receiver)                   // Remove by another goroutine: the same send, and the agent is delisted
    | RunNotify
    | RunJoin
    | RunStop
    | RunRemove(to: Receiver)                    // the deferred Remove, if the agent is still listed
    | RunEnd                                     // and if it is not
    | PumpWrite                                  // a stdin goroutine has got data
    | PumpWritten
    | Copy(who: nat, chunk: seq<Byte>)
    | CopierNotify(who: nat)
    | CopierEnd(who: nat)
    | StartRead(tid: Tid, fid: Fid, count: nat)
    | FetchOffset(tid: Tid)
    | Check(tid: Tid)
    | RecordOffset(tid: Tid)
    | TakeToken(tid: Tid)
    | Timeout(tid: Tid)
    | Open(fid: Fid)
    | Clunk(fid: Fid)

  function Initial(id: seq<Byte>): State { State(id, Idle, EMPTY, None, Starting, map[], 0, 0, true, map[], map[]) }

  // ---------- steps ----------

  function Payload(s: State, st: Step): seq<Byte> {
    match st
    case Banner(thought) => Prefix(s.id) + thought + Ascii("\n")
    case CmdEcho(text) => text + Ascii("\n")
    case CmdReport(text) => Prefix(s.id) + text + Ascii("\n")
    case Announce => if s.run.Announcing? then Ascii("$ ") + s.run.cmd + Ascii("\n") else []
    case RunStop => StoppedLine(s.id)
    case Copy(_, chunk) => chunk
    case _ => []
  }

  predicate Waiting(s: State, to: Receiver) {
    match to
    case TheRun => s.run == Selecting
    case TheReader(tid) => tid in s.readers && s.readers[tid].Parked?
    case ThePump => 0 < s.pumps
    case Nobody => false
  }

  /** A send that does not wait goes to some waiting receiver, or is dropped when there is none. */
  ghost predicate CanReceive(s: State, to: Receiver) {
    if to == Nobody then forall r: Receiver :: !Waiting(s, r) else Waiting(s, to)
  }

  predicate ByReader(st: Step) {
    st.StartRead? || st.FetchOffset? || st.Check? || st.RecordOffset? || st.TakeToken? || st.Timeout? || st.Open? || st.Clunk?
  }

  predicate ReaderEnabled(s: State, st: Step)
    requires ByReader(st)
  {
    match st
    case StartRead(tid, _, _) => tid !in s.readers
    case FetchOffset(tid) => tid in s.readers && s.readers[tid].Fetching?
    case Check(tid) => tid in s.readers && s.readers[tid].Checking? && s.mu == None
    case RecordOffset(tid) => tid in s.readers && s.readers[tid].Holding?
    case TakeToken(tid) => tid in s.readers && s.readers[tid].Parked? && s.log.token
    case Timeout(tid) => tid in s.readers && s.readers[tid].Parked?
    case Open(_) => true
    case Clunk(_) => true
  }

  ghost predicate WriterEnabled(s: State, st: Step)
    requires !ByReader(st)
  {
    match st
    case Start => s.run == Starting && s.mu == None
    case Banner(_) => s.run == Greeting && s.mu == None
    case CmdEcho(_) => s.run == Selecting && s.mu == None
    case CmdReport(_) => s.run == Selecting && s.mu == None
    case CmdExec(_, pipes) => s.run == Selecting && s.mu == None && pipes <= {1, 2}
    case Announce => s.run.Announcing? && s.mu == None
    case CmdStop => s.run == Selecting
    case StopSend(to) => s.run == Stopping && CanReceive(s, to)
    case StopSignal(to) => s.listed && CanReceive(s, to)
    case RunNotify => s.run.Notifying?
    case RunJoin => s.run == Executing && s.copiers == map[] && s.mu == None
    case RunStop => s.run == StopTaken && s.mu == None
    case RunRemove(to) => s.run == Removing && s.listed && CanReceive(s, to)
    case RunEnd => s.run == Removing && !s.listed
    case PumpWrite => 0 < s.pumps
    case PumpWritten => 0 < s.busyPumps
    case Copy(who, _) => who in s.copiers && s.copiers[who] == Copying && s.mu == None
    case CopierNotify(who) => who in s.copiers && s.copiers[who] == CopierNotifying
    case CopierEnd(who) => who in s.copiers && s.copiers[who] == Copying
  }

  ghost predicate Enabled(s: State, st: Step) {
    |s.log.data| + |Payload(s, st)| <= MAX_LEN && if ByReader(st) then ReaderEnabled(s, st) else WriterEnabled(s, st)
  }

  function AfterStop(s: State, to: Receiver): State
    requires to == Nobody || Waiting(s, to)
  {
    match to
    case TheRun => s.(run := StopTaken)
    case TheReader(tid) => s.(readers := s.readers - {tid})          // that read returns EOF
    case ThePump => s.(pumps := s.pumps - 1)
    case Nobody => s
  }

  function AfterNotify(s: State): State
    requires s.run.Notifying?
  {
    var s' := s.(log := Notify(s.log));
    match s.run.next
    case ToSelect => s'.(run := Selecting)
    case ToExec(pipes) => s'.(run := Executing, copiers := map p | p in pipes :: Copying, pumps := s.pumps + 1)
    case ToRemove => s'.(run := Removing)
  }

  function AfterCheck(s: State, tid: Tid): State
    requires tid in s.readers && s.readers[tid].Checking?
  {
    var pc := s.readers[tid];
    match Peek(s.log, pc.offset, pc.count)
    case Got(b) => s.(mu := Some(tid), readers := s.readers[tid := Holding(pc.fid, pc.count, pc.offset, b)])
    case Wait => s.(readers := s.readers[tid := Parked(pc.fid, pc.count)])
    case _ => s.(readers := s.readers - {tid})
  }

  function Deliver(sessions: map<Fid, seq<Byte>>, fid: Fid, b: seq<Byte>): map<Fid, seq<Byte>> {
    if fid in sessions then sessions[fid := sessions[fid] + b] else sessions
  }

  function AfterRecord(s: State, tid: Tid): State
    requires tid in s.readers && s.readers[tid].Holding?
  {
    var pc := s.readers[tid];
    s.(log := Record(s.log, pc.fid, pc.offset + |pc.bytes|), mu := None, readers := s.readers - {tid},
       sessions := Deliver(s.sessions, pc.fid, pc.bytes))
  }

  function ReaderApply(s: State, st: Step): State
    requires ByReader(st) && ReaderEnabled(s, st)
  {
    match st
    case StartRead(tid, fid, count) => s.(readers := s.readers[tid := Fetching(fid, count)])
    case FetchOffset(tid) =>
      var pc := s.readers[tid];
      s.(readers := s.readers[tid := Checking(pc.fid, pc.count, Offset(s.log, pc.fid))])
    case Check(tid) => AfterCheck(s, tid)
    case RecordOffset(tid) => AfterRecord(s, tid)
    case TakeToken(tid) =>
      s.(log := s.log.(token := false), readers := s.readers[tid := Fetching(s.readers[tid].fid, s.readers[tid].count)])
    case Timeout(tid) => s.(readers := s.readers[tid := Fetching(s.readers[tid].fid, s.readers[tid].count)])
    case Open(fid) => s.(log := OpenAtStart(s.log, fid), sessions := s.sessions[fid := []])
    case Clunk(fid) => s.(log := Forget(s.log, fid), sessions := s.sessions - {fid})
  }

  ghost function WriterApply(s: State, st: Step): State
    requires !ByReader(st) && WriterEnabled(s, st)
  {
    var wrote := s.(log := Append(s.log, Payload(s, st)));
    match st
    case Start => s.(phase := Running, run := Greeting)
    case Banner(_) => wrote.(run := Notifying(ToSelect))
    case CmdEcho(_) => wrote.(run := Notifying(ToSelect))
    case CmdReport(_) => wrote.(run := Notifying(ToSelect))
    case CmdExec(cmd, pipes) => s.(phase := Running, run := Announcing(cmd, pipes))
    case Announce => wrote.(run := Notifying(ToExec(s.run.pipes)))
    case CmdStop => s.(run := Stopping)
    case StopSend(to) => AfterStop(s, to).(run := Selecting)
    case StopSignal(to) => AfterStop(s, to).(listed := false)
    case RunNotify => AfterNotify(s)
    case RunJoin => s.(phase := Idle, run := Selecting)
    case RunStop => s.(phase := Stopped, log := Finish(s.log, s.id), run := Notifying(ToRemove))
    case RunRemove(to) => AfterStop(s, to).(run := Ended, listed := false)
    case RunEnd => s.(run := Ended)
    case PumpWrite => s.(pumps := s.pumps - 1, busyPumps := s.busyPumps + 1)
    case PumpWritten => s.(pumps := s.pumps + 1, busyPumps := s.busyPumps - 1)
    case Copy(who, _) => wrote.(copiers := s.copiers[who := CopierNotifying])
    case CopierNotify(who) => s.(log := Notify(s.log), copiers := s.copiers[who := Copying])
    case CopierEnd(who) => s.(copiers := s.copiers - {who})
  }

  ghost function Apply(s: State, st: Step): State
    requires Enabled(s, st)
  {
    if ByReader(st) then ReaderApply(s, st) else WriterApply(s, st)
  }

  ghost predicate Runs(s: State, steps: seq<Step>)
    decreases steps
  {
    steps == [] || (Enabled(s, steps[0]) && Runs(Apply(s, steps[0]), steps[1..]))
  }

  ghost function After(s: State, steps: seq<Step>): State
    requires Runs(s, steps)
    decreases steps
  {
    if steps == [] then s else After(Apply(s, steps[0]), steps[1..])
  }

  // ---------- what every interleaving keeps ----------

  /** b is what a reader at offset, asking for count bytes, is to get out of data. */
  predicate Taken(data: seq<Byte>, offset: nat, count: nat, b: seq<Byte>) {
    offset < |data| && offset + |b| <= |data| && b == data[offset..offset + |b|] && |b| <= count
    && (|b| == count || offset + |b| == |data|)
  }

  /** Every recorded and every fetched offset lies within the log; who holds g.mu holds bytes of the present log. */
  ghost predicate Sound(data: seq<Byte>, offsets: map<Fid, nat>, mu: Option<Tid>, readers: map<Tid, ReaderPc>) {
    |data| <= MAX_LEN
    && (forall fid :: fid in offsets ==> offsets[fid] <= |data|)
    && (forall t :: t in readers ==>
          match readers[t]
          case Checking(_, _, offset) => offset <= |data|
          case Holding(_, count, offset, b) => mu == Some(t) && Taken(data, offset, count, b)
          case _ => true)
    && (mu.Some? ==> mu.value in readers && readers[mu.value].Holding?)
  }

  predicate Finished(s: State) { s.run == Notifying(ToRemove) || s.run == Removing || s.run == Ended }

  /** The run loop has been given the stop signal. */
  predicate Doomed(s: State) { s.run == StopTaken || Finished(s) }

  predicate EndsWith(data: seq<Byte>, line: seq<Byte>) {
    |line| <= |data| && data[|data| - |line|..] == line
  }

  /**
   Copiers live only inside exec; closed, stopped and the end of the run loop are
   one event; and Remove delists the agent in the section that signals it.
   */
  ghost predicate InOrder(s: State) {
    (s.copiers != map[] ==> s.run == Executing)
    && (s.log.closed <==> Finished(s)) && (s.phase == Stopped <==> Finished(s))
    && (s.log.closed ==> EndsWith(s.log.data, StoppedLine(s.id)))
    && (Doomed(s) ==> !s.listed)
  }

  ghost predicate Inv(s: State) { Sound(s.log.data, s.log.readers, s.mu, s.readers) && InOrder(s) }

  lemma AppendKeepsSound(data: seq<Byte>, d: seq<Byte>, offsets: map<Fid, nat>, readers: map<Tid, ReaderPc>)
    requires Sound(data, offsets, None, readers) && |data| + |d| <= MAX_LEN
    ensures Sound(data + d, offsets, None, readers)
  {
  }

  lemma RestartKeepsSound(data: seq<Byte>, offsets: map<Fid, nat>, mu: Option<Tid>, readers: map<Tid, ReaderPc>,
                          tid: Tid, fid: Fid, count: nat)
    requires Sound(data, offsets, mu, readers)
    requires tid in readers ==> !readers[tid].Holding?
    ensures Sound(data, offsets, mu, readers[tid := Fetching(fid, count)])
    ensures Sound(data, offsets, mu, readers[tid := Parked(fid, count)])
  {
  }

  lemma LeaveKeepsSound(data: seq<Byte>, offsets: map<Fid, nat>, mu: Option<Tid>, readers: map<Tid, ReaderPc>, tid: Tid)
    requires Sound(data, offsets, mu, readers)
    requires tid in readers ==> !readers[tid].Holding?
    ensures Sound(data, offsets, mu, readers - {tid})
  {
  }

  lemma FetchKeepsSound(data: seq<Byte>, offsets: map<Fid, nat>, mu: Option<Tid>, readers: map<Tid, ReaderPc>,
                        tid: Tid, fid: Fid, count: nat)
    requires Sound(data, offsets, mu, readers)
    requires tid in readers ==> !readers[tid].Holding?
    ensures var offset := if fid in offsets then offsets[fid] else 0;
            Sound(data, offsets, mu, readers[tid := Checking(fid, count, offset)])
  {
  }

  lemma HoldKeepsSound(data: seq<Byte>, offsets: map<Fid, nat>, readers: map<Tid, ReaderPc>,
                       tid: Tid, fid: Fid, count: nat, offset: nat, b: seq<Byte>)
    requires Sound(data, offsets, None, readers)
    requires Taken(data, offset, count, b)
    ensures Sound(data, offsets, Some(tid), readers[tid := Holding(fid, count, offset, b)])
  {
  }

  lemma RecordKeepsSound(data: seq<Byte>, offsets: map<Fid, nat>, mu: Option<Tid>, readers: map<Tid, ReaderPc>, tid: Tid)
    requires Sound(data, offsets, mu, readers) && tid in readers && readers[tid].Holding?
    ensures var pc := readers[tid];
            Sound(data, offsets[pc.fid := pc.offset + |pc.bytes|], None, readers - {tid})
  {
  }

  lemma OpenKeepsSound(data: seq<Byte>, offsets: map<Fid, nat>, mu: Option<Tid>, readers: map<Tid, ReaderPc>, fid: Fid)
    requires Sound(data, offsets, mu, readers)
    ensures Sound(data, offsets[fid := 0], mu, readers) && Sound(data, offsets - {fid}, mu, readers)
  {
  }

  lemma CheckFacts(l: Log, offset: nat, count: nat)
    requires offset <= |l.data| <= MAX_LEN
    ensures match Peek(l, offset, count)
            case Got(b) => Taken(l.data, offset, count, b)
            case Eof => offset == |l.data| && l.closed
            case Wait => offset == |l.data| && !l.closed
            case OutOfRange => false
  {
    PeekIsExact(l, offset, count);
  }

  lemma CheckKeepsSound(s: State, tid: Tid)
    requires Sound(s.log.data, s.log.readers, s.mu, s.readers) && s.mu == None
    requires tid in s.readers && s.readers[tid].Checking?
    ensures var s' := AfterCheck(s, tid); Sound(s'.log.data, s'.log.readers, s'.mu, s'.readers)
  {
    var pc := s.readers[tid];
    CheckFacts(s.log, pc.offset, pc.count);
    RestartKeepsSound(s.log.data, s.log.readers, None, s.readers, tid, pc.fid, pc.count);
    LeaveKeepsSound(s.log.data, s.log.readers, None, s.readers, tid);
    match Peek(s.log, pc.offset, pc.count)
    case Got(b) => HoldKeepsSound(s.log.data, s.log.readers, s.readers, tid, pc.fid, pc.count, pc.offset, b);
    case _ =>
  }

  // ---------- kinds of steps ----------

  predicate Appends(st: Step) { st.Banner? || st.CmdEcho? || st.CmdReport? || st.Announce? || st.Copy? }

  /** The send that does not wait, in its three places. */
  predicate Sends(st: Step) { st.StopSend? || st.StopSignal? || st.RunRemove? }

  predicate Quiet(st: Step) { !ByReader(st) && !Appends(st) && !Sends(st) && !st.RunStop? }

  /** What readers do leaves the run loop, the copiers and the bytes of the log alone. */
  lemma ReaderStep(s: State, st: Step)
    requires Enabled(s, st) && ByReader(st)
    ensures var s' := Apply(s, st);
            s' == s.(log := s'.log, mu := s'.mu, readers := s'.readers, sessions := s'.sessions) &&
            s'.log.data == s.log.data && s'.log.closed == s.log.closed
  {
    hide Payload, Peek, Deliver, WriterEnabled, WriterApply;
  }

  lemma AppendStep(s: State, st: Step)
    requires Enabled(s, st) && Appends(st)
    ensures |s.log.data| + |Payload(s, st)| <= MAX_LEN && s.mu == None
    ensures var s' := Apply(s, st);
            s' == s.(run := s'.run, copiers := s'.copiers, log := Append(s.log, Payload(s, st))) &&
            (if st.Copy?
             then st.who in s.copiers && s'.run == s.run && s'.copiers == s.copiers[st.who := CopierNotifying]
             else s'.run.Notifying? && !s'.run.next.ToRemove? && s'.copiers == s.copiers &&
                  !Doomed(s) && s.run != Executing)
  {
    hide Payload, CanReceive, ReaderEnabled, ReaderApply;
  }

  lemma SendStep(s: State, st: Step)
    requires Enabled(s, st) && Sends(st)
    ensures Waiting(s, st.to) || st.to == Nobody
    ensures var s' := Apply(s, st);
            s' == s.(run := s'.run, pumps := s'.pumps, listed := s'.listed, readers := s'.readers) &&
            s'.readers == (if st.to.TheReader? then s.readers - {st.to.tid} else s.readers) &&
            s'.listed == (s.listed && st.StopSend?)
    ensures var run' := Apply(s, st).run;
            match st
            case StopSend(_) => s.run == Stopping && run' == Selecting
            case StopSignal(to) => s.listed && run' == (if to == TheRun then StopTaken else s.run) &&
                                   (to == TheRun ==> s.run == Selecting)
            case _ => s.run == Removing && s.listed && run' == Ended
  {
    hide Payload, ReaderEnabled, ReaderApply, AfterNotify, Finish;
  }

  /** Everything that readers and the log's bytes depend on is as it was. */
  predicate SameForReaders(s: State, s': State) {
    s'.id == s.id && s'.log == s.log.(token := s'.log.token) && s'.mu == s.mu && s'.readers == s.readers &&
    s'.sessions == s.sessions && s'.listed == s.listed && (s.log.token ==> s'.log.token)
  }

  lemma RunNotifyStep(s: State)
    requires s.run.Notifying?
    ensures SameForReaders(s, AfterNotify(s)) && AfterNotify(s).log.token
  {
  }

  lemma QuietStep(s: State, st: Step)
    requires Enabled(s, st) && Quiet(st)
    ensures SameForReaders(s, Apply(s, st))
  {
    hide Payload, CanReceive, ReaderEnabled, ReaderApply, AfterStop, AfterNotify, Finish;
    if st.RunNotify? {
      RunNotifyStep(s);
    }
  }

  lemma StopStep(s: State, st: Step)
    requires Enabled(s, st) && st.RunStop?
    ensures s.run == StopTaken && s.mu == None && |s.log.data| + |StoppedLine(s.id)| <= MAX_LEN
    ensures Apply(s, st) == s.(phase := Stopped, log := Finish(s.log, s.id), run := Notifying(ToRemove))
  {
    hide StoppedLine, CanReceive, ReaderEnabled, ReaderApply;
  }

  // ---------- the invariant is kept ----------

  lemma ReaderKeepsSound(s: State, st: Step)
    requires Sound(s.log.data, s.log.readers, s.mu, s.readers) && Enabled(s, st) && ByReader(st)
    ensures var s' := Apply(s, st); Sound(s'.log.data, s'.log.readers, s'.mu, s'.readers)
  {
    hide Sound, Peek, Deliver, Payload, AfterCheck, WriterEnabled, WriterApply;
    match st
    case StartRead(tid, fid, count) =>
      RestartKeepsSound(s.log.data, s.log.readers, s.mu, s.readers, tid, fid, count);
    case FetchOffset(tid) =>
      FetchKeepsSound(s.log.data, s.log.readers, s.mu, s.readers, tid, s.readers[tid].fid, s.readers[tid].count);
    case TakeToken(tid) =>
      RestartKeepsSound(s.log.data, s.log.readers, s.mu, s.readers, tid, s.readers[tid].fid, s.readers[tid].count);
    case Timeout(tid) =>
      RestartKeepsSound(s.log.data, s.log.readers, s.mu, s.readers, tid, s.readers[tid].fid, s.readers[tid].count);
    case Check(tid) => CheckKeepsSound(s, tid);
    case RecordOffset(tid) => RecordKeepsSound(s.log.data, s.log.readers, s.mu, s.readers, tid);
    case Open(fid) => OpenKeepsSound(s.log.data, s.log.readers, s.mu, s.readers, fid);
    case Clunk(fid) => OpenKeepsSound(s.log.data, s.log.readers, s.mu, s.readers, fid);
  }

  lemma StepKeepsSound(s: State, st: Step)
    requires Inv(s) && Enabled(s, st)
    ensures var s' := Apply(s, st); Sound(s'.log.data, s'.log.readers, s'.mu, s'.readers)
  {
    hide Sound, Enabled, Apply, Payload, StoppedLine, InOrder;
    if ByReader(st) {
      ReaderKeepsSound(s, st);
    } else if Appends(st) {
      AppendStep(s, st);
      AppendKeepsSound(s.log.data, Payload(s, st), s.log.readers, s.readers);
    } else if Sends(st) {
      SendStep(s, st);
      if st.to.TheReader? {
        LeaveKeepsSound(s.log.data, s.log.readers, s.mu, s.readers, st.to.tid);
      }
    } else if st.RunStop? {
      StopStep(s, st);
      AppendKeepsSound(s.log.data, StoppedLine(s.id), s.log.readers, s.readers);
    } else {
      QuietStep(s, st);
    }
  }

  lemma LastLine(data: seq<Byte>, line: seq<Byte>)
    ensures EndsWith(data + line, line)
  {
  }

  lemma QuietKeepsOrder(s: State, st: Step)
    requires InOrder(s) && Enabled(s, st) && Quiet(st)
    ensures InOrder(Apply(s, st))
  {
    hide StoppedLine, EndsWith, Payload, CanReceive, ReaderEnabled, ReaderApply;
  }

  lemma StepKeepsOrder(s: State, st: Step)
    requires InOrder(s) && Enabled(s, st)
    ensures InOrder(Apply(s, st))
  {
    hide Enabled, Apply, StoppedLine, EndsWith, Payload;
    if ByReader(st) {
      ReaderStep(s, st);
    } else if Appends(st) {
      AppendStep(s, st);
    } else if Sends(st) {
      SendStep(s, st);
    } else if st.RunStop? {
      StopStep(s, st);
      LastLine(s.log.data, StoppedLine(s.id));
    } else {
      QuietKeepsOrder(s, st);
    }
  }

  lemma StepKeepsInv(s: State, st: Step)
    requires Inv(s) && Enabled(s, st)
    ensures Inv(Apply(s, st))
  {
    StepKeepsSound(s, st);
    StepKeepsOrder(s, st);
  }

  lemma {:induction false} RunKeepsInv(s: State, steps: seq<Step>)
    requires Inv(s) && Runs(s, steps)
    ensures Inv(After(s, steps))
    decreases steps
  {
    hide Inv, Enabled, Apply;
    if steps != [] {
      StepKeepsInv(s, steps[0]);
      RunKeepsInv(Apply(s, steps[0]), steps[1..]);
    }
  }

  lemma InitialInv(id: seq<Byte>)
    ensures Inv(Initial(id))
  {
  }

  /**
   No wrap-around, whatever the interleaving and however many reads of one fid
   are in flight: every recorded and every fetched offset stays within the log,
   so the unsigned number of available bytes is the true difference.
   */
  lemma OffsetsNeverWrap(id: seq<Byte>, steps: seq<Step>, tid: Tid)
    requires Runs(Initial(id), steps)
    requires var s := After(Initial(id), steps); Enabled(s, Check(tid))
    ensures var s := After(Initial(id), steps);
            var pc := s.readers[tid];
            (forall fid :: fid in s.log.readers ==> s.log.readers[fid] <= |s.log.data|) &&
            Available(|s.log.data|, pc.offset) == |s.log.data| - pc.offset &&
            Peek(s.log, pc.offset, pc.count) != OutOfRange
  {
    InitialInv(id);
    RunKeepsInv(Initial(id), steps);
    var s := After(Initial(id), steps);
    PeekIsExact(s.log, s.readers[tid].offset, s.readers[tid].count);
  }
}
