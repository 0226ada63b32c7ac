/**
 One agent ("tab") of l9term with all the goroutines that touch its output: the
 run loop, the copiers of a command's output, and any number of readers. A run
 is a list of steps; between two critical sections anything may happen.
 */
module TabAgent {
  import opened Bytes
  import opened OutputLog
  import opened AgentBuffer

  type Tid = nat

  /** Where the run loop goes once it has tried to leave a wake token. */
  datatype Next = ToSelect | ToExec(pipes: set<nat>) | ToClose | ToEnd

  datatype RunPc =
    | Starting
    | Selecting                    // waiting for a command or the stop channel
    | Notifying(next: Next)        // has unlocked, has not yet tried its send
    | Executing                    // the command runs; then wg.Wait
    | Closing                      // the last line is written
    | Ended

  datatype CopierPc = Copying | CopierNotifying

  datatype ReaderPc =
    | Wanting(fid: Fid, count: nat)       // about to enter the critical section
    | Parked(fid: Fid, count: nat)        // waiting for a token or the timer

  /** What an open session of a fid has been given since it was opened. */
  datatype Session = Session(openAt: nat, got: seq<Byte>)

  datatype State = State(
    id: seq<Byte>,
    log: Log,
    run: RunPc,
    copiers: map<nat, CopierPc>,
    readers: map<Tid, ReaderPc>,
    sessions: map<Fid, Session>)          // history only; no step depends on it

  datatype Step =
    | Banner(thought: seq<Byte>)
    | CmdStop
    | CmdEcho(text: seq<Byte>)
    | CmdUnknown(cmd: seq<Byte>)
    | CmdExec(cmd: seq<Byte>, pipes: set<nat>)
    | RunNotify
    | RunClose
    | RunJoin
    | Copy(who: nat, chunk: seq<Byte>)
    | CopierNotify(who: nat)
    | CopierEnd(who: nat)
    | StartRead(tid: Tid, fid: Fid, count: nat)
    | TryRead(tid: Tid)
    | TakeToken(tid: Tid)
    | Timeout(tid: Tid)
    | Open(fid: Fid)
    | Clunk(fid: Fid)

  function Tab(id: seq<Byte>): seq<Byte> { Ascii("[tab ") + id + Ascii("] ") }

  function StoppedLine(id: seq<Byte>): seq<Byte> { Tab(id) + Ascii("stopped\n") }

  function Initial(id: seq<Byte>): State { State(id, EMPTY, Starting, map[], map[], map[]) }

  // ---------- steps ----------

  /** The bytes that a step appends. */
  function Payload(s: State, st: Step): seq<Byte> {
    match st
    case Banner(thought) => Tab(s.id) + thought + Ascii("\n")
    case CmdStop => StoppedLine(s.id)
    case CmdEcho(text) => text + Ascii("\n")
    case CmdUnknown(cmd) => Tab(s.id) + Ascii("unknown: ") + cmd + Ascii("\n")
    case CmdExec(cmd, _) => Ascii("$ ") + cmd + Ascii("\n")
    case Copy(_, chunk) => chunk
    case _ => []
  }

  predicate Enabled(s: State, st: Step) {
    |s.log.data| + |Payload(s, st)| <= MAX_LEN &&
    match st
    case Banner(_) => s.run == Starting
    case CmdStop => s.run == Selecting
    case CmdEcho(_) => s.run == Selecting
    case CmdUnknown(_) => s.run == Selecting
    case CmdExec(_, pipes) => s.run == Selecting && pipes <= {1, 2}
    case RunNotify => s.run.Notifying?
    case RunClose => s.run == Closing
    case RunJoin => s.run == Executing && s.copiers == map[]
    case Copy(who, _) => who in s.copiers && s.copiers[who] == Copying
    case CopierNotify(who) => who in s.copiers && s.copiers[who] == CopierNotifying
    case CopierEnd(who) => who in s.copiers && s.copiers[who] == Copying
    case StartRead(tid, _, _) => tid !in s.readers
    case TryRead(tid) => tid in s.readers && s.readers[tid].Wanting?
    case TakeToken(tid) => tid in s.readers && s.readers[tid].Parked? && s.log.token
    case Timeout(tid) => tid in s.readers && s.readers[tid].Parked?
    case Open(_) => true
    case Clunk(_) => true
  }

  /** What TryRead returns to its caller, or Wait. */
  function ReadReturns(s: State, tid: Tid): ReadResult
    requires Enabled(s, TryRead(tid))
  {
    Attempt(s.log, s.readers[tid].fid, s.readers[tid].count).1
  }

  function Deliver(sessions: map<Fid, Session>, fid: Fid, b: seq<Byte>): map<Fid, Session> {
    if fid in sessions then sessions[fid := sessions[fid].(got := sessions[fid].got + b)] else sessions
  }

  function AfterTry(s: State, tid: Tid): State
    requires Enabled(s, TryRead(tid))
  {
    var pc := s.readers[tid];
    var (log, r) := Attempt(s.log, pc.fid, pc.count);
    match r
    case Got(b) =>
      s.(log := log, readers := s.readers - {tid}, sessions := Deliver(s.sessions, pc.fid, b))
    case Wait => s.(readers := s.readers[tid := Parked(pc.fid, pc.count)])
    case _ => s.(readers := s.readers - {tid})
  }

  function AfterNotify(s: State): State
    requires s.run.Notifying?
  {
    var s' := s.(log := Notify(s.log));
    match s.run.next
    case ToSelect => s'.(run := Selecting)
    case ToExec(pipes) => s'.(run := Executing, copiers := map p | p in pipes :: Copying)
    case ToClose => s'.(run := Closing)
    case ToEnd => s'.(run := Ended)
  }

  function Apply(s: State, st: Step): State
    requires Enabled(s, st)
  {
    var wrote := s.(log := Append(s.log, Payload(s, st)));
    match st
    case Banner(_) => wrote.(run := Notifying(ToSelect))
    case CmdStop => wrote.(run := Notifying(ToClose))
    case CmdEcho(_) => wrote.(run := Notifying(ToSelect))
    case CmdUnknown(_) => wrote.(run := Notifying(ToSelect))
    case CmdExec(_, pipes) => wrote.(run := Notifying(ToExec(pipes)))
    case RunNotify => AfterNotify(s)
    case RunClose => s.(log := s.log.(closed := true), run := Notifying(ToEnd))
    case RunJoin => s.(run := Selecting)
    case Copy(who, _) => wrote.(copiers := s.copiers[who := CopierNotifying])
    case CopierNotify(who) => s.(log := Notify(s.log), copiers := s.copiers[who := Copying])
    case CopierEnd(who) => s.(copiers := s.copiers - {who})
    case StartRead(tid, fid, count) => s.(readers := s.readers[tid := Wanting(fid, count)])
    case TryRead(tid) => AfterTry(s, tid)
    case TakeToken(tid) =>
      s.(log := s.log.(token := false), readers := s.readers[tid := Wanting(s.readers[tid].fid, s.readers[tid].count)])
    case Timeout(tid) => s.(readers := s.readers[tid := Wanting(s.readers[tid].fid, s.readers[tid].count)])
    case Open(fid) =>
      s.(log := OpenAtEnd(s.log, fid), sessions := s.sessions[fid := Session(|s.log.data|, [])])
    case Clunk(fid) => s.(log := Forget(s.log, fid), sessions := s.sessions - {fid})
  }

  ghost predicate Runs(s: State, steps: seq<Step>)
    decreases steps
  {
    steps == [] || (Enabled(s, steps[0]) && Runs(Apply(s, steps[0]), steps[1..]))
  }

  ghost function After(s: State, steps: seq<Step>): State
    requires Runs(s, steps)
    decreases steps
  {
    if steps == [] then s else After(Apply(s, steps[0]), steps[1..])
  }

  // ---------- the invariant ----------

  /** The run loop has written its last line. */
  predicate Finished(s: State) {
    s.run == Notifying(ToClose) || s.run == Closing || s.run == Notifying(ToEnd) || s.run == Ended
  }

  predicate EndsWith(data: seq<Byte>, line: seq<Byte>) {
    |line| <= |data| && data[|data| - |line|..] == line
  }

  /**
   Offsets lie within the log, and what the open sessions were given is the log
   between their open offset and their current one.
   */
  ghost predicate Sound(data: seq<Byte>, offsets: map<Fid, nat>, sessions: map<Fid, Session>) {
    |data| <= MAX_LEN
    && (forall fid :: fid in offsets ==> offsets[fid] <= |data|)
    && (forall fid :: fid in sessions ==>
          fid in offsets && sessions[fid].openAt <= offsets[fid] &&
          sessions[fid].got == data[sessions[fid].openAt..offsets[fid]])
  }

  ghost predicate SessionsMatch(s: State) { Sound(s.log.data, s.log.readers, s.sessions) }

  ghost predicate Inv(s: State) { SessionsMatch(s) && InOrder(s) }

  /** The control structure: copiers live only inside exec, the log closes last, and the stopped line ends it. */
  ghost predicate InOrder(s: State) {
    (s.copiers != map[] ==> s.run == Executing)
    && (s.log.closed <==> s.run == Notifying(ToEnd) || s.run == Ended)
    && (Finished(s) ==> EndsWith(s.log.data, StoppedLine(s.id)))
  }

  lemma AppendKeepsSound(data: seq<Byte>, d: seq<Byte>, offsets: map<Fid, nat>, sessions: map<Fid, Session>)
    requires Sound(data, offsets, sessions) && |data| + |d| <= MAX_LEN
    ensures Sound(data + d, offsets, sessions)
  {
    forall fid | fid in sessions ensures sessions[fid].got == (data + d)[sessions[fid].openAt..offsets[fid]] {
      SamePart(data, d, sessions[fid].openAt, offsets[fid]);
    }
  }

  lemma SamePart(data: seq<Byte>, d: seq<Byte>, i: nat, j: nat)
    requires i <= j <= |data|
    ensures (data + d)[i..j] == data[i..j]
  {
  }

  lemma AttemptFacts(l: Log, fid: Fid, count: nat)
    requires InRange(l)
    ensures var (l', r) := Attempt(l, fid, count);
            var offset := Offset(l, fid);
            match r
            case Got(b) => offset + |b| <= |l.data| && b == l.data[offset..offset + |b|] && l' == Record(l, fid, offset + |b|)
            case Eof => l' == l && l.closed && offset == |l.data|
            case Wait => l' == l && !l.closed && offset == |l.data|
            case OutOfRange => false
  {
    PeekIsExact(l, Offset(l, fid), count);
  }

  /** Handing out the bytes at fid's offset and moving it past them. */
  lemma GiveKeepsSound(data: seq<Byte>, offsets: map<Fid, nat>, sessions: map<Fid, Session>, fid: Fid, n: nat)
    requires Sound(data, offsets, sessions)
    requires var at := if fid in offsets then offsets[fid] else 0; at + n <= |data|
    ensures var at := if fid in offsets then offsets[fid] else 0;
            Sound(data, offsets[fid := at + n], Deliver(sessions, fid, data[at..at + n]))
  {
    if fid in sessions {
      var open, at := sessions[fid].openAt, offsets[fid];
      assert data[open..at + n] == data[open..at] + data[at..at + n];
    }
  }

  lemma SoundIsInRange(l: Log, sessions: map<Fid, Session>)
    requires Sound(l.data, l.readers, sessions)
    ensures InRange(l)
  {
  }

  lemma AttemptKeepsSound(l: Log, sessions: map<Fid, Session>, fid: Fid, count: nat)
    requires Sound(l.data, l.readers, sessions)
    ensures var (l', r) := Attempt(l, fid, count);
            Sound(l'.data, l'.readers, if r.Got? then Deliver(sessions, fid, r.bytes) else sessions)
  {
    hide Attempt, Sound, Deliver, InRange;
    SoundIsInRange(l, sessions);
    AttemptFacts(l, fid, count);
    var (_, r) := Attempt(l, fid, count);
    if r.Got? {
      GiveKeepsSound(l.data, l.readers, sessions, fid, |r.bytes|);
    }
  }

  lemma TryKeepsSessions(s: State, tid: Tid)
    requires Enabled(s, TryRead(tid)) && SessionsMatch(s)
    ensures SessionsMatch(AfterTry(s, tid))
  {
    hide Attempt, Sound, Deliver, InRange, Payload;
    var pc := s.readers[tid];
    SoundIsInRange(s.log, s.sessions);
    AttemptFacts(s.log, pc.fid, pc.count);
    AttemptKeepsSound(s.log, s.sessions, pc.fid, pc.count);
  }

  lemma LastLine(data: seq<Byte>, line: seq<Byte>)
    ensures EndsWith(data + line, line)
  {
  }

  lemma OpenKeepsSound(data: seq<Byte>, offsets: map<Fid, nat>, sessions: map<Fid, Session>, fid: Fid)
    requires Sound(data, offsets, sessions)
    ensures Sound(data, offsets[fid := |data|], sessions[fid := Session(|data|, [])])
    ensures Sound(data, offsets - {fid}, sessions - {fid})
  {
    assert data[|data|..|data|] == [];
  }

  lemma StepKeepsSessions(s: State, st: Step)
    requires SessionsMatch(s) && Enabled(s, st)
    ensures SessionsMatch(Apply(s, st))
  {
    hide Payload, Attempt, Sound;
    match st
    case TryRead(tid) => TryKeepsSessions(s, tid);
    case Open(fid) => OpenKeepsSound(s.log.data, s.log.readers, s.sessions, fid);
    case Clunk(fid) => OpenKeepsSound(s.log.data, s.log.readers, s.sessions, fid);
    case RunNotify =>
    case RunClose =>
    case RunJoin =>
    case CopierNotify(_) =>
    case CopierEnd(_) =>
    case StartRead(_, _, _) =>
    case TakeToken(_) =>
    case Timeout(_) =>
    case _ => AppendKeepsSound(s.log.data, Payload(s, st), s.log.readers, s.sessions);
  }

  lemma StepKeepsOrder(s: State, st: Step)
    requires InOrder(s) && Enabled(s, st)
    ensures InOrder(Apply(s, st))
  {
    hide StoppedLine, Tab, EndsWith, Peek;
    if st.CmdStop? {
      LastLine(s.log.data, StoppedLine(s.id));
    }
  }

  lemma StepKeepsInv(s: State, st: Step)
    requires Inv(s) && Enabled(s, st)
    ensures Inv(Apply(s, st))
  {
    StepKeepsSessions(s, st);
    StepKeepsOrder(s, st);
  }

  lemma {:induction false} RunKeepsInv(s: State, steps: seq<Step>)
    requires Inv(s) && Runs(s, steps)
    ensures Inv(After(s, steps))
    decreases steps
  {
    hide Inv, Enabled, Apply;
    if steps != [] {
      StepKeepsInv(s, steps[0]);
      RunKeepsInv(Apply(s, steps[0]), steps[1..]);
    }
  }

  lemma InitialInv(id: seq<Byte>)
    ensures Inv(Initial(id))
  {
  }

  // ---------- the log ----------

  /** The line, or the piece of output, that a step is there to write. */
  function Line(id: seq<Byte>, st: Step): seq<Byte> {
    match st
    case Banner(thought) => Ascii("[tab ") + id + Ascii("] ") + thought + [10]
    case CmdStop => Ascii("[tab ") + id + Ascii("] stopped") + [10]
    case CmdEcho(text) => text + [10]
    case CmdUnknown(cmd) => Ascii("[tab ") + id + Ascii("] unknown: ") + cmd + [10]
    case CmdExec(cmd, _) => Ascii("$ ") + cmd + [10]
    case Copy(_, chunk) => chunk
    case _ => []
  }

  function Lines(id: seq<Byte>, steps: seq<Step>): seq<Byte>
    decreases steps
  {
    if steps == [] then [] else Line(id, steps[0]) + Lines(id, steps[1..])
  }

  /** The log is append-only: it holds exactly what was written, in the order of the critical sections. */
  lemma {:induction false} LogIsWhatWasWritten(s: State, steps: seq<Step>)
    requires Runs(s, steps)
    ensures After(s, steps).log.data == s.log.data + Lines(s.id, steps)
    decreases steps
  {
    hide Line, Enabled, Apply;
    if steps == [] {
      assert s.log.data + [] == s.log.data;
    } else {
      StepAppends(s, steps[0]);
      LogIsWhatWasWritten(Apply(s, steps[0]), steps[1..]);
    }
  }

  lemma StepAppends(s: State, st: Step)
    requires Enabled(s, st)
    ensures Apply(s, st).log.data == s.log.data + Line(s.id, st) && Apply(s, st).id == s.id
  {
    PayloadIsLine(s, st);
    hide Payload, Line;
    assert s.log.data + [] == s.log.data;
    assert Payload(s, st) == Line(s.id, st);
    LineIsEmpty(s.id, st);
  }

  lemma LineIsEmpty(id: seq<Byte>, st: Step)
    ensures !st.Banner? && !st.CmdStop? && !st.CmdEcho? && !st.CmdUnknown? && !st.CmdExec? && !st.Copy? ==> Line(id, st) == []
  {
  }

  lemma PayloadIsLine(s: State, st: Step)
    ensures Payload(s, st) == Line(s.id, st)
  {
    assert Ascii("\n") == [10];
    if st.CmdStop? {
      assert Ascii("stopped\n") == Ascii("stopped") + [10];
      assert Ascii("] stopped") == Ascii("] ") + Ascii("stopped");
    }
    if st.CmdUnknown? {
      assert Ascii("] unknown: ") == Ascii("] ") + Ascii("unknown: ");
    }
  }

  /** Once the log is closed, no step of any goroutine makes it grow, and it stays closed. */
  lemma {:induction false} ClosedLogIsFinal(s: State, steps: seq<Step>)
    requires Inv(s) && s.log.closed && Runs(s, steps)
    ensures var s' := After(s, steps); s'.log.closed && s'.log.data == s.log.data
    decreases steps
  {
    if steps != [] {
      StepKeepsInv(s, steps[0]);
      ClosedStep(s, steps[0]);
      ClosedLogIsFinal(Apply(s, steps[0]), steps[1..]);
    }
  }

  lemma ClosedStep(s: State, st: Step)
    requires Inv(s) && s.log.closed && Enabled(s, st)
    ensures var s' := Apply(s, st); s'.log.closed && s'.log.data == s.log.data
  {
  }

  // ---------- what readers get ----------

  /**
   Stream correctness, for any interleaving: what a fid has been given since it
   was opened is the log from the offset at which it was opened, with no gap,
   no repetition and no bytes out of order, however many reads of that fid and
   others are in flight. A closed log ends with the stopped line.
   */
  lemma SessionsReadTheLog(id: seq<Byte>, steps: seq<Step>)
    requires Runs(Initial(id), steps)
    ensures var s := After(Initial(id), steps);
            (forall fid :: fid in s.sessions ==>
               fid in s.log.readers && s.sessions[fid].openAt <= s.log.readers[fid] <= |s.log.data| &&
               s.sessions[fid].got == s.log.data[s.sessions[fid].openAt..s.log.readers[fid]]) &&
            (s.log.closed ==> EndsWith(s.log.data, StoppedLine(s.id)))
  {
    InitialInv(id);
    RunKeepsInv(Initial(id), steps);
  }

  /**
   EOF means complete: when a read returns EOF to an open session, that session
   has been given everything from its open offset to the end of the log, and
   the log is the same at the end of every continuation of the run.
   */
  lemma EofIsComplete(id: seq<Byte>, steps: seq<Step>, tid: Tid, more: seq<Step>)
    requires Runs(Initial(id), steps)
    requires var s := After(Initial(id), steps);
             Enabled(s, TryRead(tid)) && ReadReturns(s, tid) == Eof && s.readers[tid].fid in s.sessions &&
             Runs(Apply(s, TryRead(tid)), more)
    ensures var s := After(Initial(id), steps);
            var session := s.sessions[s.readers[tid].fid];
            var final := After(Apply(s, TryRead(tid)), more).log.data;
            session.openAt <= |final| && session.got == final[session.openAt..]
  {
    InitialInv(id);
    RunKeepsInv(Initial(id), steps);
    var s := After(Initial(id), steps);
    var fid := s.readers[tid].fid;
    PeekIsExact(s.log, Offset(s.log, fid), s.readers[tid].count);
    StepKeepsInv(s, TryRead(tid));
    ClosedLogIsFinal(Apply(s, TryRead(tid)), more);
    assert s.log.data[s.sessions[fid].openAt..|s.log.data|] == s.log.data[s.sessions[fid].openAt..];
  }

  // ---------- waking readers ----------

  /** A reader with this program counter would not have to wait if it looked now. */
  predicate Ready(s: State, pc: ReaderPc) {
    s.log.closed || Offset(s.log, pc.fid) < |s.log.data|
  }

  /** Some writer has unlocked and has not yet tried its send. */
  ghost predicate SendPending(s: State) {
    s.run.Notifying? || exists who :: who in s.copiers && s.copiers[who] == CopierNotifying
  }

  /** Whenever a reader is parked that need not wait, a token is there or about to come. */
  ghost predicate Awake(s: State) {
    forall t :: t in s.readers && s.readers[t].Parked? && Ready(s, s.readers[t]) ==> s.log.token || SendPending(s)
  }

  /**
   The only steps that can lose a wake-up: taking the one token while another
   reader needs it, and clunking a fid that a reader waits on, which sets that
   reader back to the start of the log.
   */
  ghost predicate Safe(s: State, st: Step) {
    match st
    case TakeToken(t) =>
      SendPending(s) || forall u :: u in s.readers && u != t && s.readers[u].Parked? ==> !Ready(s, s.readers[u])
    case Clunk(fid) =>
      SendPending(s) || s.log.token || s.log.data == []
      || forall u :: u in s.readers && s.readers[u].Parked? ==> s.readers[u].fid != fid
    case _ => true
  }

  lemma WriterKeepsAwake(s: State, st: Step)
    requires Inv(s) && Awake(s) && Enabled(s, st)
    requires st.Banner? || st.CmdStop? || st.CmdEcho? || st.CmdUnknown? || st.CmdExec? || st.Copy?
             || st.RunNotify? || st.RunClose? || st.RunJoin? || st.CopierNotify? || st.CopierEnd?
    ensures Awake(Apply(s, st))
  {
    hide Payload, Sound;
    var s' := Apply(s, st);
    if st.Copy? {
      assert s'.copiers[st.who] == CopierNotifying;
    }
    if st.CopierEnd? && SendPending(s) && !s.run.Notifying? {
      var who :| who in s.copiers && s.copiers[who] == CopierNotifying;
      assert who in s'.copiers && s'.copiers[who] == CopierNotifying;
    }
    if st.RunJoin? {
      assert !SendPending(s);
    }
  }

  lemma TryKeepsAwake(s: State, tid: Tid)
    requires Inv(s) && Awake(s) && Enabled(s, TryRead(tid))
    ensures Awake(Apply(s, TryRead(tid)))
  {
    var pc := s.readers[tid];
    SoundIsInRange(s.log, s.sessions);
    AttemptFacts(s.log, pc.fid, pc.count);
    hide Attempt, Inv, Payload;
    var s' := Apply(s, TryRead(tid));
    assert SendPending(s') <==> SendPending(s);
    forall t | t in s'.readers && s'.readers[t].Parked? && Ready(s', s'.readers[t])
      ensures s'.log.token || SendPending(s')
    {
      assert t in s.readers && s.readers[t] == s'.readers[t] && Ready(s, s.readers[t]);
    }
  }

  lemma OtherReaderSteps(s: State, st: Step)
    requires Inv(s) && Awake(s) && Enabled(s, st)
    requires st.StartRead? || st.TakeToken? || st.Timeout? || st.Open? || st.Clunk?
    ensures Awake(Apply(s, st)) <==> Safe(s, st)
  {
    hide Payload, Sound;
    var s' := Apply(s, st);
    assert SendPending(s') <==> SendPending(s);
    if !Safe(s, st) {
      var u :| u in s.readers && s.readers[u].Parked? &&
        if st.TakeToken? then u != st.tid && Ready(s, s.readers[u]) else s.readers[u].fid == st.fid;
      assert u in s'.readers && s'.readers[u] == s.readers[u] && Ready(s', s'.readers[u]);
    }
  }

  /** Step by step the guarantee is kept by exactly the safe steps, whoever takes them and however many readers there are. */
  lemma AwakeIffSafe(s: State, st: Step)
    requires Inv(s) && Awake(s) && Enabled(s, st)
    ensures Awake(Apply(s, st)) <==> Safe(s, st)
  {
    hide Inv, Awake, Enabled, Apply;
    match st
    case TryRead(tid) => TryKeepsAwake(s, tid);
    case StartRead(_, _, _) => OtherReaderSteps(s, st);
    case TakeToken(_) => OtherReaderSteps(s, st);
    case Timeout(_) => OtherReaderSteps(s, st);
    case Open(_) => OtherReaderSteps(s, st);
    case Clunk(_) => OtherReaderSteps(s, st);
    case _ => WriterKeepsAwake(s, st);
  }

  ghost predicate AwakeThroughout(s: State, steps: seq<Step>)
    requires Runs(s, steps)
    decreases steps
  {
    Awake(s) && (steps == [] || AwakeThroughout(Apply(s, steps[0]), steps[1..]))
  }

  ghost predicate SafeThroughout(s: State, steps: seq<Step>)
    requires Runs(s, steps)
    decreases steps
  {
    steps == [] || (Safe(s, steps[0]) && SafeThroughout(Apply(s, steps[0]), steps[1..]))
  }

  lemma {:induction false} RunAwakeIffSafe(s: State, steps: seq<Step>)
    requires Inv(s) && Awake(s) && Runs(s, steps)
    ensures AwakeThroughout(s, steps) <==> SafeThroughout(s, steps)
    ensures AwakeThroughout(s, steps) ==> Awake(After(s, steps))
    decreases steps
  {
    hide Inv, Awake, Enabled, Apply, Safe;
    if steps != [] {
      StepKeepsInv(s, steps[0]);
      AwakeIffSafe(s, steps[0]);
      if Awake(Apply(s, steps[0])) {
        RunAwakeIffSafe(Apply(s, steps[0]), steps[1..]);
      }
    }
  }

  /** Over whole runs: no wake-up is ever lost if and only if every step is safe when it is taken. */
  lemma WakeUpsAreKept(id: seq<Byte>, steps: seq<Step>)
    requires Runs(Initial(id), steps)
    ensures AwakeThroughout(Initial(id), steps) <==> SafeThroughout(Initial(id), steps)
  {
    InitialInv(id);
    RunAwakeIffSafe(Initial(id), steps);
  }

  ghost predicate OneReader(s: State) {
    forall t, t' :: t in s.readers && t' in s.readers ==> t == t'
  }

  ghost predicate OneReaderThroughout(s: State, steps: seq<Step>)
    requires Runs(s, steps)
    decreases steps
  {
    OneReader(s) && (steps == [] || OneReaderThroughout(Apply(s, steps[0]), steps[1..]))
  }

  /** Nobody clunks the fid of a waiting reader. */
  ghost predicate WaitersKeepTheirFid(s: State, steps: seq<Step>)
    requires Runs(s, steps)
    decreases steps
  {
    steps == [] ||
    ((steps[0].Clunk? ==> forall u :: u in s.readers && s.readers[u].Parked? ==> s.readers[u].fid != steps[0].fid)
     && WaitersKeepTheirFid(Apply(s, steps[0]), steps[1..]))
  }

  lemma {:induction false} OneReaderIsSafe(s: State, steps: seq<Step>)
    requires Runs(s, steps) && OneReaderThroughout(s, steps) && WaitersKeepTheirFid(s, steps)
    ensures SafeThroughout(s, steps)
    decreases steps
  {
    hide Enabled, Apply, SendPending, Ready;
    if steps != [] {
      var st := steps[0];
      if st.TakeToken? {
        TokenTakerIsReader(s, st);
      }
      OneReaderIsSafe(Apply(s, st), steps[1..]);
    }
  }

  lemma TokenTakerIsReader(s: State, st: Step)
    requires Enabled(s, st) && st.TakeToken?
    ensures st.tid in s.readers
  {
  }

  /**
   No lost wake-up: with one reader at a time, whose fid is not clunked while it
   waits, and any number of writers, whenever the reader is parked although it
   is behind the log or the log is closed, the wake slot holds a token or some
   writer is about to leave one.
   */
  lemma NoLostWakeUp(id: seq<Byte>, steps: seq<Step>)
    requires Runs(Initial(id), steps)
    requires OneReaderThroughout(Initial(id), steps) && WaitersKeepTheirFid(Initial(id), steps)
    ensures AwakeThroughout(Initial(id), steps) && Awake(After(Initial(id), steps))
  {
    InitialInv(id);
    OneReaderIsSafe(Initial(id), steps);
    RunAwakeIffSafe(Initial(id), steps);
  }

  /**
   However many readers there are, a parked one can always go on by the timer,
   and by a token when there is one. Its next look at the log is for the bytes
   it was asked for, and returns what is due: the next min(count, available)
   bytes, or EOF at the end of a closed log; otherwise it parks as it was.
   */
  lemma RetryDelivers(s: State, tid: Tid, wake: Step)
    requires Inv(s) && tid in s.readers && s.readers[tid].Parked?
    requires wake == Timeout(tid) || (wake == TakeToken(tid) && s.log.token)
    ensures Enabled(s, wake) && Enabled(Apply(s, wake), TryRead(tid))
    ensures var pc, s1 := s.readers[tid], Apply(s, wake);
            var at, r, s2 := Offset(s.log, pc.fid), ReadReturns(s1, tid), Apply(s1, TryRead(tid));
            if at < |s.log.data| then
              var n := if pc.count < |s.log.data| - at then pc.count else |s.log.data| - at;
              r == Got(s.log.data[at..at + n]) && tid !in s2.readers && Offset(s2.log, pc.fid) == at + n
            else if s.log.closed then r == Eof && tid !in s2.readers
            else r == Wait && tid in s2.readers && s2.readers[tid] == pc
  {
    Woken(s, tid, wake);
    assert InRange(s.log);
    var s1 := Apply(s, wake);
    hide Enabled, Apply, ReadReturns, Inv;
    LookDelivers(s1, tid);
    assert s1.readers[tid := s.readers[tid]][tid] == s.readers[tid];
  }

  lemma Woken(s: State, tid: Tid, wake: Step)
    requires |s.log.data| <= MAX_LEN && tid in s.readers && s.readers[tid].Parked?
    requires wake == Timeout(tid) || (wake == TakeToken(tid) && s.log.token)
    ensures Enabled(s, wake)
    ensures Apply(s, wake) ==
              s.(log := s.log.(token := s.log.token && wake.Timeout?),
                 readers := s.readers[tid := Wanting(s.readers[tid].fid, s.readers[tid].count)])
  {
  }

  lemma LookDelivers(s: State, tid: Tid)
    requires InRange(s.log) && tid in s.readers && s.readers[tid].Wanting?
    ensures Enabled(s, TryRead(tid))
    ensures var pc := s.readers[tid];
            var at, r, s' := Offset(s.log, pc.fid), ReadReturns(s, tid), Apply(s, TryRead(tid));
            if at < |s.log.data| then
              var n := if pc.count < |s.log.data| - at then pc.count else |s.log.data| - at;
              r == Got(s.log.data[at..at + n]) && tid !in s'.readers && Offset(s'.log, pc.fid) == at + n
            else if s.log.closed then r == Eof && tid !in s'.readers
            else r == Wait && tid in s'.readers && s'.readers[tid] == Parked(pc.fid, pc.count)
  {
    PeekIsExact(s.log, Offset(s.log, s.readers[tid].fid), s.readers[tid].count);
  }

  /**
   The guarantee needs the single reader. Two readers are parked, one write
   leaves one token, one of them takes it: the other stays behind the log with
   no token and no writer about to leave one, until its timer fires.
   */
  lemma TwoReadersOneToken(id: seq<Byte>)
    requires |id| + 8 <= MAX_LEN                      // room for the shortest banner
    ensures exists steps ::
              Runs(Initial(id), steps) && Inv(After(Initial(id), steps)) && !Awake(After(Initial(id), steps))
  {
    var first := TwoParked(id);
    var s := After(Initial(id), first);
    var second := OneTokenTaken(s);
    RunsConcat(Initial(id), first, second);
    InitialInv(id);
    RunKeepsInv(Initial(id), first + second);
  }

  /**
   A single reader is not enough either: it waits at the end of the log with
   the token used up, its fid is clunked, and it is behind the whole log without
   a token, until its timer fires.
   */
  lemma ClunkedReaderSleeps(id: seq<Byte>) returns (steps: seq<Step>)
    requires |id| + 8 <= MAX_LEN
    ensures Runs(Initial(id), steps) && OneReaderThroughout(Initial(id), steps)
    ensures var s := After(Initial(id), steps);
            Inv(s) && !Awake(s) && 1 in s.readers && s.readers[1].Parked? && !s.log.closed
  {
    var s0 := Initial(id);
    var s1 := Apply(s0, Banner([]));
    assert |s1.log.data| == |id| + 8;
    var s2 := Apply(s1, RunNotify);
    var s3 := Apply(s2, Open(1));
    var s4 := s3.(readers := map[1 := Parked(1, 8)]);
    hide Enabled, Apply, Inv, Awake;
    var sleep := TakeAndClunk(s4);
    steps := ParkAlone(s3, sleep);
    steps := AlonePrepend(s2, Open(1), steps);
    steps := AlonePrepend(s1, RunNotify, steps);
    steps := AlonePrepend(s0, Banner([]), steps);
    InitialInv(id);
    RunKeepsInv(s0, steps);
  }

  lemma ParkAlone(s: State, rest: seq<Step>) returns (steps: seq<Step>)
    requires s.readers == map[] && !s.log.closed && Offset(s.log, 1) == |s.log.data| <= MAX_LEN
    requires var s' := s.(readers := map[1 := Parked(1, 8)]); Runs(s', rest) && OneReaderThroughout(s', rest)
    ensures Runs(s, steps) && OneReaderThroughout(s, steps) && steps != []
    ensures After(s, steps) == After(s.(readers := map[1 := Parked(1, 8)]), rest)
  {
    var s1 := Apply(s, StartRead(1, 1, 8));
    PeekIsExact(s.log, |s.log.data|, 8);
    hide Runs, After, OneReaderThroughout;
    assert Apply(s1, TryRead(1)) == s.(readers := map[1 := Parked(1, 8)]);
    steps := AlonePrepend(s1, TryRead(1), rest);
    steps := AlonePrepend(s, StartRead(1, 1, 8), steps);
  }

  lemma TakeAndClunk(s: State) returns (steps: seq<Step>)
    requires s.readers == map[1 := Parked(1, 8)] && s.copiers == map[] && s.run == Selecting && s.log.token
    requires !s.log.closed && 0 < |s.log.data| == Offset(s.log, 1) <= MAX_LEN
    ensures Runs(s, steps) && OneReaderThroughout(s, steps) && steps != []
    ensures var s' := After(s, steps);
            !Awake(s') && 1 in s'.readers && s'.readers[1].Parked? && !s'.log.closed
  {
    var s1 := Apply(s, TakeToken(1));
    PeekIsExact(s1.log, |s.log.data|, 8);
    var s2 := Apply(s1, TryRead(1));
    assert s2 == s.(log := s.log.(token := false));
    var s3 := Apply(s2, Clunk(1));
    assert s3.readers[1] == Parked(1, 8) && Ready(s3, s3.readers[1]) && !s3.log.token && !SendPending(s3);
    hide Runs, After, OneReaderThroughout, Awake;
    steps := AloneOne(s2, Clunk(1));
    steps := AlonePrepend(s1, TryRead(1), steps);
    steps := AlonePrepend(s, TakeToken(1), steps);
  }

  lemma AloneOne(s: State, st: Step) returns (steps: seq<Step>)
    requires OneReader(s) && Enabled(s, st) && OneReader(Apply(s, st))
    ensures Runs(s, steps) && After(s, steps) == Apply(s, st) && OneReaderThroughout(s, steps) && steps != []
  {
    hide Enabled, Apply, OneReader;
    steps := [st];
    assert steps[1..] == [];
    assert Runs(Apply(s, st), []) && OneReaderThroughout(Apply(s, st), []);
  }

  lemma AlonePrepend(s: State, st: Step, rest: seq<Step>) returns (steps: seq<Step>)
    requires OneReader(s) && Enabled(s, st) && Runs(Apply(s, st), rest) && OneReaderThroughout(Apply(s, st), rest)
    ensures Runs(s, steps) && After(s, steps) == After(Apply(s, st), rest) && OneReaderThroughout(s, steps) && steps != []
  {
    hide Enabled, Apply, OneReader;
    steps := [st] + rest;
    assert steps[1..] == rest;
  }

  /** A reader that is at the end of an open log parks. */
  lemma ParkOne(s: State, tid: Tid, fid: Fid) returns (steps: seq<Step>)
    requires tid !in s.readers && fid in s.log.readers && s.log.readers[fid] == |s.log.data| <= MAX_LEN && !s.log.closed
    ensures Runs(s, steps) && After(s, steps) == s.(readers := s.readers[tid := Parked(fid, 8)])
  {
    var s1 := Apply(s, StartRead(tid, fid, 8));
    PeekIsExact(s.log, |s.log.data|, 8);
    var s2 := Apply(s1, TryRead(tid));
    assert s2.readers == s.readers[tid := Parked(fid, 8)];
    steps := Prepend(s1, TryRead(tid), []);
    steps := Prepend(s, StartRead(tid, fid, 8), steps);
  }

  lemma TwoParked(id: seq<Byte>) returns (steps: seq<Step>)
    ensures Runs(Initial(id), steps)
    ensures var s := After(Initial(id), steps);
            s == Initial(id).(log := s.log, readers := s.readers, sessions := s.sessions) &&
            s.log == EMPTY.(readers := map[1 := 0, 2 := 0]) &&
            s.readers == map[1 := Parked(1, 8), 2 := Parked(2, 8)]
  {
    var s0 := Initial(id);
    var s1 := Apply(s0, Open(1));
    var s2 := Apply(s1, Open(2));
    hide Apply, Enabled;
    var first := ParkOne(s2, 1, 1);
    var s3 := After(s2, first);
    var second := ParkOne(s3, 2, 2);
    RunsConcat(s2, first, second);
    steps := Prepend(s1, Open(2), first + second);
    steps := Prepend(s0, Open(1), steps);
  }

  lemma OneTokenTaken(s: State) returns (steps: seq<Step>)
    requires |s.id| + 8 <= MAX_LEN && s.log == EMPTY.(readers := map[1 := 0, 2 := 0])
    requires s.run == Starting && s.copiers == map[] && s.readers == map[1 := Parked(1, 8), 2 := Parked(2, 8)]
    ensures Runs(s, steps) && !Awake(After(s, steps))
  {
    var s1 := Apply(s, Banner([]));
    assert |s1.log.data| == |s.id| + 8;
    var s2 := Apply(s1, RunNotify);
    var s3 := Apply(s2, TakeToken(1));
    steps := Prepend(s2, TakeToken(1), []);
    steps := Prepend(s1, RunNotify, steps);
    steps := Prepend(s, Banner([]), steps);
    assert s3.readers[2] == Parked(2, 8) && Ready(s3, s3.readers[2]) && !s3.log.token && !SendPending(s3);
  }

  lemma Prepend(s: State, st: Step, rest: seq<Step>) returns (steps: seq<Step>)
    requires Enabled(s, st) && Runs(Apply(s, st), rest)
    ensures Runs(s, steps) && After(s, steps) == After(Apply(s, st), rest) && steps == [st] + rest
  {
    hide Enabled, Apply;
    steps := [st] + rest;
    assert steps[1..] == rest;
  }

  lemma {:induction false} RunsConcat(s: State, a: seq<Step>, b: seq<Step>)
    requires Runs(s, a) && Runs(After(s, a), b)
    ensures Runs(s, a + b) && After(s, a + b) == After(After(s, a), b)
    decreases a
  {
    hide Enabled, Apply;
    if a == [] {
      assert a + b == b;
    } else {
      assert (a + b)[1..] == a[1..] + b;
      RunsConcat(Apply(s, a[0]), a[1..], b);
    }
  }
}
