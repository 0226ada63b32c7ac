/**
 Every lock acquisition of the rcpud agent system, and the agent directory.

 There are three kinds of locks: gm.mu of the manager, and g.mu and readersMu of
 each agent. A goroutine is a program counter; each step takes or gives back
 locks, or does one thing to the manager's table or to the directory. Handlers
 and an agent's helper goroutines may appear at any time.
 */
module GortnLocks {
  import opened Bytes

  type Tid = nat
  type Aid = nat

  datatype Lock = Gm | Mu(a: Aid) | ReadersMu(a: Aid)

  /** Why g.mu is taken for one short section. */
  datatype Use = WriteOut | SetState | GetState | ArgWrite | StopSection

  /** What a goroutine does after such a section. */
  datatype Next = Return | ToSelect | ToBanner | ToExecLine | ToExecWait | ToCopier | ToRemove(id: string)

  datatype Pc =
    // Spawn, called by a handler or by the run loop of an agent
    | SpawnLock(id: string, caller: Option<Aid>)
    | SpawnHeld(id: string, caller: Option<Aid>)
    | SpawnListed(id: string, a: Aid, caller: Option<Aid>)     // in the table, not yet in the directory
    | SpawnShown(id: string, a: Aid, caller: Option<Aid>)      // about to start the run loop
    | SpawnUnlock(caller: Option<Aid>)
    // Remove; caller is the agent whose run loop has ended, when this is its deferred Remove
    | RemoveLock(id: string, caller: Option<Aid>)
    | RemoveHeld(id: string, caller: Option<Aid>)
    | RemoveSignal(id: string, a: Aid, caller: Option<Aid>)    // the send that does not wait
    | RemoveDelist(id: string, a: Aid, caller: Option<Aid>)
    | RemoveHide(id: string, caller: Option<Aid>)              // out of the table, still in the directory
    | RemoveUnlock
    // a short section under g.mu
    | MuLock(a: Aid, use: Use, next: Next)
    | MuHeld(a: Aid, use: Use, next: Next)
    | WakeSend(a: Aid, next: Next)                             // the send that does not wait
    // a short section under readersMu: open or clunk
    | ReadersLock(a: Aid)
    | ReadersHeld(a: Aid)
    // readOut
    | FetchLock(a: Aid)
    | FetchHeld(a: Aid)
    | CheckLock(a: Aid)
    | CheckHeld(a: Aid)
    | RecordLock(a: Aid)                                       // holds g.mu, wants readersMu
    | RecordHeld(a: Aid)
    | RecordDone(a: Aid)
    | ReadWait(a: Aid)
    // waiting for a channel, a process or a pipe
    | RunSelect(a: Aid)
    | ExecWait(a: Aid)
    | CopierRead(a: Aid)
    | PumpSelect(a: Aid)
    | CtlSend(a: Aid)
    | Done

  datatype State = State(
    agents: map<string, Aid>,
    children: set<string>,            // of the directory /gortns
    ids: map<Aid, string>,            // every agent ever made
    locks: map<Lock, Tid>,
    threads: map<Tid, Pc>)

  const CTL: string := "ctl"

  const INITIAL: State := State(map[], {CTL}, map[], map[], map[])

  // ---------- what a program counter means for locks ----------

  function Holds(pc: Pc): set<Lock> {
    match pc
    case SpawnHeld(_, _) => {Gm}
    case SpawnListed(_, _, _) => {Gm}
    case SpawnShown(_, _, _) => {Gm}
    case SpawnUnlock(_) => {Gm}
    case RemoveHeld(_, _) => {Gm}
    case RemoveSignal(_, _, _) => {Gm}
    case RemoveDelist(_, _, _) => {Gm}
    case RemoveHide(_, _) => {Gm}
    case RemoveUnlock => {Gm}
    case MuHeld(a, _, _) => {Mu(a)}
    case ReadersHeld(a) => {ReadersMu(a)}
    case FetchHeld(a) => {ReadersMu(a)}
    case CheckHeld(a) => {Mu(a)}
    case RecordLock(a) => {Mu(a)}
    case RecordHeld(a) => {Mu(a), ReadersMu(a)}
    case RecordDone(a) => {Mu(a)}
    case _ => {}
  }

  /** The lock that the next step has to take. */
  function Wants(pc: Pc): Option<Lock> {
    match pc
    case SpawnLock(_, _) => Some(Gm)
    case RemoveLock(_, _) => Some(Gm)
    case MuLock(a, _, _) => Some(Mu(a))
    case ReadersLock(a) => Some(ReadersMu(a))
    case FetchLock(a) => Some(ReadersMu(a))
    case CheckLock(a) => Some(Mu(a))
    case RecordLock(a) => Some(ReadersMu(a))
    case _ => None
  }

  /** May wait for something other than a lock: a channel operation without default, a process, a pipe. */
  predicate WaitsOutside(pc: Pc) {
    pc.ReadWait? || pc.RunSelect? || pc.ExecWait? || pc.CopierRead? || pc.PumpSelect? || pc.CtlSend?
  }

  /** The locks that the step from pc to its successor unlocks. */
  function Unlocks(pc: Pc, to: Pc): set<Lock> {
    match pc
    case SpawnUnlock(_) => {Gm}
    case RemoveUnlock => {Gm}
    case MuHeld(a, _, _) => {Mu(a)}
    case ReadersHeld(a) => {ReadersMu(a)}
    case FetchHeld(a) => {ReadersMu(a)}
    case CheckHeld(a) => if to.RecordLock? then {} else {Mu(a)}
    case RecordHeld(a) => {ReadersMu(a)}
    case RecordDone(a) => {Mu(a)}
    case _ => {}
  }

  // ---------- the control flow ----------

  function Resume(a: Aid, next: Next): Pc {
    match next
    case Return => Done
    case ToSelect => RunSelect(a)
    case ToBanner => MuLock(a, WriteOut, ToSelect)
    case ToExecLine => MuLock(a, WriteOut, ToExecWait)
    case ToExecWait => ExecWait(a)
    case ToCopier => CopierRead(a)
    case ToRemove(id) => RemoveLock(id, Some(a))
  }

  function SpawnReturn(caller: Option<Aid>): Pc {
    if caller.None? then Done else MuLock(caller.value, WriteOut, ToSelect)
  }

  /** Where control can go from pc, whatever the data. */
  predicate Edge(pc: Pc, to: Pc) {
    match pc
    case SpawnLock(id, c) => to == SpawnHeld(id, c)
    case SpawnHeld(id, c) => to == SpawnUnlock(c) || (to.SpawnListed? && to.id == id && to.caller == c)
    case SpawnListed(id, a, c) => to == SpawnShown(id, a, c)
    case SpawnShown(_, _, c) => to == SpawnUnlock(c)
    case SpawnUnlock(c) => to == SpawnReturn(c)
    case RemoveLock(id, c) => to == RemoveHeld(id, c)
    case RemoveHeld(id, c) => to == RemoveUnlock || (to.RemoveSignal? && to.id == id && to.caller == c)
    case RemoveSignal(id, a, c) => to == RemoveDelist(id, a, c)
    case RemoveDelist(id, _, c) => to == RemoveHide(id, c)
    case RemoveHide(_, _) => to == RemoveUnlock
    case RemoveUnlock => to == Done
    case MuLock(a, u, k) => to == MuHeld(a, u, k)
    case MuHeld(a, u, k) => to == if u == WriteOut || u == StopSection then WakeSend(a, k) else Resume(a, k)
    case WakeSend(a, k) => to == Resume(a, k)
    case ReadersLock(a) => to == ReadersHeld(a)
    case ReadersHeld(_) => to == Done
    case FetchLock(a) => to == FetchHeld(a)
    case FetchHeld(a) => to == CheckLock(a)
    case CheckLock(a) => to == CheckHeld(a)
    case CheckHeld(a) => to == RecordLock(a) || to == ReadWait(a) || to == Done
    case RecordLock(a) => to == RecordHeld(a)
    case RecordHeld(a) => to == RecordDone(a)
    case RecordDone(_) => to == Done
    case ReadWait(a) => to == FetchLock(a) || to == Done
    case RunSelect(a) =>
      to == MuLock(a, WriteOut, ToSelect)                              // echo, unknown command
      || to == MuLock(a, SetState, ToExecLine)                         // exec
      || (to.SpawnLock? && to.caller == Some(a))                       // spawn
      || to == RunSelect(a)                                            // stop; a signal is received in the sender's step
    case ExecWait(a) => to == MuLock(a, SetState, ToSelect)
    case CopierRead(a) => to == MuLock(a, WriteOut, ToCopier) || to == Done
    case PumpSelect(a) => to == PumpSelect(a) || to == Done
    case CtlSend(_) => to == Done
    case Done => false
  }

  /** The goroutines that others start: 9P handlers, callers of Remove, an exec's copiers and stdin pump. */
  predicate Entry(pc: Pc) {
    match pc
    case SpawnLock(_, None) => true
    case RemoveLock(_, None) => true
    case MuLock(_, GetState, Return) => true
    case MuLock(_, ArgWrite, Return) => true
    case ReadersLock(_) => true
    case FetchLock(_) => true
    case CtlSend(_) => true
    case CopierRead(_) => true
    case PumpSelect(_) => true
    case _ => false
  }

  /** other: the run loop that Spawn starts, or the one that receives a signal, if any does. */
  datatype Step =
    | Launch(tid: Tid, pc: Pc)
    | Move(tid: Tid, to: Pc, other: Option<Tid>)

  /** Where the other goroutine of a step is after it. */
  function Second(s: State, pc: Pc, other: Option<Tid>): Option<Pc> {
    if other.None? then None
    else if pc.SpawnShown? then Some(MuLock(pc.a, SetState, ToBanner))
    else if pc.RemoveSignal? then Some(MuLock(pc.a, StopSection, ToRemove(if pc.a in s.ids then s.ids[pc.a] else pc.id)))
    else None
  }

  /** What the table must say for this branch to be taken. */
  predicate Agrees(s: State, pc: Pc, to: Pc) {
    match pc
    case SpawnHeld(id, _) => if to.SpawnListed? then id !in s.agents && to.a !in s.ids else id in s.agents
    case RemoveHeld(id, _) => if to.RemoveSignal? then id in s.agents && s.agents[id] == to.a else id !in s.agents
    case _ => true
  }

  predicate Enabled(s: State, st: Step) {
    match st
    case Launch(tid, pc) => tid !in s.threads && Entry(pc)
    case Move(tid, to, other) =>
      tid in s.threads && Edge(s.threads[tid], to) && Agrees(s, s.threads[tid], to) &&
      (Wants(s.threads[tid]).Some? ==> Wants(s.threads[tid]).value !in s.locks) &&
      (s.threads[tid].SpawnShown? ==> other.Some? && other.value !in s.threads) &&
      (s.threads[tid].RemoveSignal? && other.Some? ==>
         other.value in s.threads && s.threads[other.value] == RunSelect(s.threads[tid].a))
  }

  function Table(s: State, pc: Pc, to: Pc): map<string, Aid> {
    if pc.SpawnHeld? && to.SpawnListed? then s.agents[pc.id := to.a]
    else if pc.RemoveDelist? then s.agents - {pc.id}
    else s.agents
  }

  function Directory(s: State, pc: Pc): set<string> {
    if pc.SpawnListed? then s.children + {pc.id}
    else if pc.RemoveHide? then s.children - {pc.id}
    else s.children
  }

  function Locks(locks: map<Lock, Tid>, tid: Tid, pc: Pc, to: Pc): map<Lock, Tid> {
    var kept := locks - Unlocks(pc, to);
    if Wants(pc).Some? then kept[Wants(pc).value := tid] else kept
  }

  function Apply(s: State, st: Step): State
    requires Enabled(s, st)
  {
    match st
    case Launch(tid, pc) => s.(threads := s.threads[tid := pc])
    case Move(tid, to, other) =>
      var pc := s.threads[tid];
      var moved, second := s.threads[tid := to], Second(s, pc, other);
      State(
        Table(s, pc, to), Directory(s, pc),
        if to.SpawnListed? then s.ids[to.a := to.id] else s.ids,
        Locks(s.locks, tid, pc, to),
        if second.Some? then moved[other.value := second.value] else moved)
  }

  ghost predicate Runs(s: State, steps: seq<Step>)
    decreases steps
  {
    steps == [] || (Enabled(s, steps[0]) && Runs(Apply(s, steps[0]), steps[1..]))
  }

  ghost function After(s: State, steps: seq<Step>): State
    requires Runs(s, steps)
    decreases steps
  {
    if steps == [] then s else After(Apply(s, steps[0]), steps[1..])
  }

  // ---------- the control flow respects the locks ----------

  predicate InSpawn(pc: Pc) {
    pc.SpawnLock? || pc.SpawnHeld? || pc.SpawnListed? || pc.SpawnShown? || pc.SpawnUnlock?
  }

  predicate InRemove(pc: Pc) {
    pc.RemoveLock? || pc.RemoveHeld? || pc.RemoveSignal? || pc.RemoveDelist? || pc.RemoveHide? || pc.RemoveUnlock?
  }

  predicate InRead(pc: Pc) {
    pc.FetchLock? || pc.FetchHeld? || pc.CheckLock? || pc.CheckHeld? || pc.RecordLock? || pc.RecordHeld? || pc.RecordDone?
  }

  predicate InSection(pc: Pc) { pc.MuLock? || pc.MuHeld? || pc.WakeSend? || pc.ReadersLock? || pc.ReadersHeld? }

  /** From pc to its successor: what is held changes by the lock that is taken and the locks that are given back. */
  predicate Balanced(pc: Pc, to: Pc) {
    if Wants(pc).Some? then
      Wants(pc).value !in Holds(pc) && Holds(to) == Holds(pc) + {Wants(pc).value} && Unlocks(pc, to) == {}
    else
      Unlocks(pc, to) <= Holds(pc) && Holds(to) == Holds(pc) - Unlocks(pc, to)
  }

  lemma ManagerBalances(pc: Pc, to: Pc)
    requires (InSpawn(pc) || InRemove(pc)) && Edge(pc, to)
    ensures Balanced(pc, to)
  {
    hide Resume;
  }

  lemma ReadBalances(pc: Pc, to: Pc)
    requires InRead(pc) && Edge(pc, to)
    ensures Balanced(pc, to)
  {
    hide Resume, SpawnReturn;
  }

  lemma ResumeHoldsNothing(a: Aid, next: Next)
    ensures Holds(Resume(a, next)) == {}
  {
  }

  lemma SectionBalances(pc: Pc, to: Pc)
    requires InSection(pc) && Edge(pc, to)
    ensures Balanced(pc, to)
  {
    hide Resume, SpawnReturn;
    if pc.MuHeld? || pc.WakeSend? {
      ResumeHoldsNothing(pc.a, pc.next);
    }
  }

  /** Along every edge the locks held are accounted for. */
  lemma EdgeBalances(pc: Pc, to: Pc)
    requires Edge(pc, to)
    ensures Balanced(pc, to)
  {
    if InSpawn(pc) || InRemove(pc) {
      ManagerBalances(pc, to);
    } else if InRead(pc) {
      ReadBalances(pc, to);
    } else if InSection(pc) {
      SectionBalances(pc, to);
    }
  }

  /** readersMu inside g.mu, of one agent. */
  predicate Nested(l: Lock, l': Lock) {
    (l.Mu? && l' == ReadersMu(l.a)) || (l'.Mu? && l == ReadersMu(l'.a))
  }

  /** Lock order: nothing is held while waiting outside, and the only nesting is readersMu inside g.mu of one agent. */
  lemma LockOrder(pc: Pc)
    ensures WaitsOutside(pc) ==> Holds(pc) == {}
    ensures Wants(pc).Some? && Holds(pc) != {} ==> exists a :: Holds(pc) == {Mu(a)} && Wants(pc) == Some(ReadersMu(a))
    ensures forall l, l' :: l in Holds(pc) && l' in Holds(pc) && l != l' ==> Nested(l, l')
  {
    if pc.RecordLock? {
      assert Holds(pc) == {Mu(pc.a)};
    }
  }

  // ---------- invariants ----------

  /** The lock table says exactly who holds what. */
  ghost predicate LocksMatch(locks: map<Lock, Tid>, threads: map<Tid, Pc>) {
    (forall l :: l in locks ==> locks[l] in threads && l in Holds(threads[locks[l]]))
    && (forall t, l :: t in threads && l in Holds(threads[t]) ==> l in locks && locks[l] == t)
  }

  /** Table and directory agree, apart from the control file's own name. */
  ghost predicate Same(ids: set<string>, children: set<string>) {
    forall x :: x != CTL ==> (x in ids <==> x in children)
  }

  /** How table and directory are related while the holder of gm.mu is at pc. */
  ghost predicate During(pc: Pc, ids: set<string>, children: set<string>) {
    match pc
    case SpawnListed(id, _, _) => id in ids && Same(ids, children + {id})
    case RemoveHide(id, _) => id !in ids && Same(ids, children - {id})
    case _ => Same(ids, children)
  }

  ghost predicate DirectoryMatches(s: State) {
    if Gm !in s.locks then Same(s.agents.Keys, s.children)
    else s.locks[Gm] in s.threads && During(s.threads[s.locks[Gm]], s.agents.Keys, s.children)
  }

  ghost predicate Inv(s: State) { LocksMatch(s.locks, s.threads) && DirectoryMatches(s) }

  lemma LaunchKeepsLocks(locks: map<Lock, Tid>, threads: map<Tid, Pc>, tid: Tid, pc: Pc)
    requires LocksMatch(locks, threads) && (tid in threads ==> Holds(threads[tid]) == {}) && Holds(pc) == {}
    ensures LocksMatch(locks, threads[tid := pc])
  {
  }

  lemma MoveKeepsOwners(locks: map<Lock, Tid>, threads: map<Tid, Pc>, tid: Tid, to: Pc, l: Lock)
    requires LocksMatch(locks, threads) && tid in threads && Balanced(threads[tid], to)
    requires Wants(threads[tid]).Some? ==> Wants(threads[tid]).value !in locks
    requires l in Locks(locks, tid, threads[tid], to)
    ensures var owner := Locks(locks, tid, threads[tid], to)[l];
            owner in threads && l in Holds(threads[tid := to][owner])
  {
    hide Holds, Wants, Unlocks;
    var pc := threads[tid];
    if Wants(pc) != Some(l) {
      assert l in locks && l !in Unlocks(pc, to);
    }
  }

  lemma MoveKeepsHolders(locks: map<Lock, Tid>, threads: map<Tid, Pc>, tid: Tid, to: Pc, t: Tid, l: Lock)
    requires LocksMatch(locks, threads) && tid in threads && Balanced(threads[tid], to)
    requires Wants(threads[tid]).Some? ==> Wants(threads[tid]).value !in locks
    requires t in threads && l in Holds(threads[tid := to][t])
    ensures var locks' := Locks(locks, tid, threads[tid], to); l in locks' && locks'[l] == t
  {
    hide Holds, Wants, Unlocks;
    var pc := threads[tid];
    if t == tid {
      assert Wants(pc) == Some(l) || (l in Holds(pc) && l !in Unlocks(pc, to));
    } else {
      assert locks[l] == t && l !in Holds(pc);
    }
  }

  lemma MoveKeepsLocks(locks: map<Lock, Tid>, threads: map<Tid, Pc>, tid: Tid, to: Pc)
    requires LocksMatch(locks, threads) && tid in threads && Edge(threads[tid], to)
    requires Wants(threads[tid]).Some? ==> Wants(threads[tid]).value !in locks
    ensures LocksMatch(Locks(locks, tid, threads[tid], to), threads[tid := to])
  {
    EdgeBalances(threads[tid], to);
    hide Holds, Wants, Edge, Unlocks, Locks, Balanced;
    var locks', threads' := Locks(locks, tid, threads[tid], to), threads[tid := to];
    forall l | l in locks'
      ensures locks'[l] in threads' && l in Holds(threads'[locks'[l]])
    {
      MoveKeepsOwners(locks, threads, tid, to, l);
    }
    forall t, l | t in threads' && l in Holds(threads'[t])
      ensures l in locks' && locks'[l] == t
    {
      MoveKeepsHolders(locks, threads, tid, to, t, l);
    }
  }

  lemma StepKeepsLocks(s: State, st: Step)
    requires LocksMatch(s.locks, s.threads) && Enabled(s, st)
    ensures var s' := Apply(s, st); LocksMatch(s'.locks, s'.threads)
  {
    hide LocksMatch, Edge, Agrees, Locks, Table, Directory;
    match st
    case Launch(tid, pc) => LaunchKeepsLocks(s.locks, s.threads, tid, pc);
    case Move(tid, to, other) =>
      MoveKeepsLocks(s.locks, s.threads, tid, to);
      var pc := s.threads[tid];
      var second := Second(s, pc, other);
      if second.Some? {
        LaunchKeepsLocks(Locks(s.locks, tid, pc, to), s.threads[tid := to], other.value, second.value);
      }
  }

  /** Steps at which the table, the directory or the owner of gm.mu may change. */
  predicate UnderGm(pc: Pc) { Gm in Holds(pc) || Wants(pc) == Some(Gm) }

  lemma OthersChangeNothing(s: State, pc: Pc, to: Pc)
    requires Edge(pc, to) && !UnderGm(pc)
    ensures Table(s, pc, to) == s.agents && Directory(s, pc) == s.children && !to.SpawnListed? && Gm !in Unlocks(pc, to)
  {
    EdgeBalances(pc, to);
  }

  /** Who owns gm.mu after a step, and where that goroutine is. */
  lemma OwnerAfter(s: State, st: Step)
    requires LocksMatch(s.locks, s.threads) && Enabled(s, st) && st.Move?
    ensures var pc, to, s' := s.threads[st.tid], st.to, Apply(s, st);
            if UnderGm(pc) then
              (if Gm in Holds(pc) then Gm in s.locks && s.locks[Gm] == st.tid else Gm !in s.locks) &&
              (if Gm in Holds(to) then Gm in s'.locks && s'.locks[Gm] == st.tid && s'.threads[st.tid] == to
               else Gm !in s'.locks)
            else
              s'.agents == s.agents && s'.children == s.children && (Gm in s'.locks <==> Gm in s.locks) &&
              (Gm in s.locks ==> s'.locks[Gm] == s.locks[Gm] && s.locks[Gm] in s.threads &&
                                 s'.threads[s.locks[Gm]] == s.threads[s.locks[Gm]])
  {
    var pc, to := s.threads[st.tid], st.to;
    EdgeBalances(pc, to);
    if !UnderGm(pc) {
      OthersChangeNothing(s, pc, to);
    }
    assert Second(s, pc, st.other).Some? ==> st.other.value != st.tid;
    hide Edge, Agrees, Table, Directory, Unlocks;
    assert Balanced(pc, to);
    if Gm in s.locks {
      assert Gm in Holds(s.threads[s.locks[Gm]]);
    }
  }

  function KeysAfter(ids: set<string>, pc: Pc, to: Pc): set<string> {
    if pc.SpawnHeld? && to.SpawnListed? then ids + {pc.id}
    else if pc.RemoveDelist? then ids - {pc.id}
    else ids
  }

  lemma TableKeys(s: State, pc: Pc, to: Pc)
    ensures Table(s, pc, to).Keys == KeysAfter(s.agents.Keys, pc, to)
  {
  }

  /** Under gm.mu, the next place relates what the table and the directory are then. */
  lemma DuringStep(s: State, pc: Pc, to: Pc)
    requires Edge(pc, to) && UnderGm(pc)
    requires if Gm in Holds(pc) then During(pc, s.agents.Keys, s.children) else Same(s.agents.Keys, s.children)
    ensures var ids, names := KeysAfter(s.agents.Keys, pc, to), Directory(s, pc);
            if Gm in Holds(to) then During(to, ids, names) else Same(ids, names)
  {
    hide Resume, SpawnReturn;
    if pc.SpawnUnlock? {
      assert Gm !in Holds(SpawnReturn(pc.caller)) by {
        EdgeBalances(pc, to);
      }
    }
  }

  /** A step that touches the table or the directory is made by the holder of gm.mu. */
  lemma StepKeepsDirectory(s: State, st: Step)
    requires Inv(s) && Enabled(s, st)
    ensures DirectoryMatches(Apply(s, st))
  {
    if st.Move? {
      var pc, to := s.threads[st.tid], st.to;
      hide LocksMatch, Locks, Second, Holds, Wants, Edge, Agrees, During, Same, KeysAfter, Table, Directory;
      OwnerAfter(s, st);
      TableKeys(s, pc, to);
      if UnderGm(pc) {
        DuringStep(s, pc, to);
      }
    }
  }

  lemma StepKeepsInv(s: State, st: Step)
    requires Inv(s) && Enabled(s, st)
    ensures Inv(Apply(s, st))
  {
    StepKeepsLocks(s, st);
    StepKeepsDirectory(s, st);
  }

  lemma {:induction false} RunKeepsInv(s: State, steps: seq<Step>)
    requires Inv(s) && Runs(s, steps)
    ensures Inv(After(s, steps))
    decreases steps
  {
    hide Inv, Enabled, Apply;
    if steps != [] {
      StepKeepsInv(s, steps[0]);
      RunKeepsInv(Apply(s, steps[0]), steps[1..]);
    }
  }

  // ---------- the agent directory ----------

  predicate Named(st: Step) {
    match st
    case Launch(_, SpawnLock(id, _)) => id != CTL
    case Move(_, SpawnLock(id, _), _) => id != CTL
    case _ => true
  }

  /** No spawn or removal is at work on the control file's name. */
  predicate Avoids(pc: Pc) {
    match pc
    case SpawnLock(id, _) => id != CTL
    case SpawnHeld(id, _) => id != CTL
    case RemoveSignal(id, _, _) => id != CTL
    case RemoveDelist(id, _, _) => id != CTL
    case RemoveHide(id, _) => id != CTL
    case _ => true
  }

  ghost predicate ControlFileKept(s: State) {
    CTL !in s.agents && CTL in s.children && forall t :: t in s.threads ==> Avoids(s.threads[t])
  }

  lemma StepKeepsControlFile(s: State, st: Step)
    requires ControlFileKept(s) && Enabled(s, st) && Named(st)
    ensures ControlFileKept(Apply(s, st))
  {
    if st.Move? {
      assert Avoids(s.threads[st.tid]);
      assert Avoids(st.to);
    }
  }

  lemma {:induction false} RunKeepsControlFile(s: State, steps: seq<Step>)
    requires ControlFileKept(s) && Runs(s, steps) && forall st :: st in steps ==> Named(st)
    ensures ControlFileKept(After(s, steps))
    decreases steps
  {
    hide ControlFileKept, Enabled, Apply, Named;
    if steps != [] {
      StepKeepsControlFile(s, steps[0]);
      RunKeepsControlFile(Apply(s, steps[0]), steps[1..]);
    }
  }

  /**
   In every reachable state with gm.mu free, the table and the directory list the same agents, whatever
   Spawn, Remove and self-removal were interleaved; and when no agent is named like the control file the
   directory is exactly the agents and that file.
   */
  lemma DirectoryAgreement(steps: seq<Step>)
    requires Runs(INITIAL, steps)
    ensures var s := After(INITIAL, steps);
      Gm !in s.locks ==>
        s.agents.Keys - {CTL} == s.children - {CTL}
        && ((forall st :: st in steps ==> Named(st)) ==> s.children == s.agents.Keys + {CTL} && CTL !in s.agents)
  {
    var s := After(INITIAL, steps);
    RunKeepsInv(INITIAL, steps);
    if Gm !in s.locks && forall st :: st in steps ==> Named(st) {
      RunKeepsControlFile(INITIAL, steps);
    }
  }

  /** The ids that the sources of Spawn make: t<nanoseconds>, and the parent's id with .<nanoseconds>. */
  lemma GeneratedIdsAreNamed(parent: string, nanos: string)
    ensures "t" + nanos != CTL
    ensures parent + "." + nanos != CTL
  {
    assert ("t" + nanos)[0] == 't' && CTL[0] == 'c';
    var id := parent + "." + nanos;
    assert id[|parent|] == '.';
  }

  // ---------- locks come free ----------

  /** How many steps a goroutine still takes before it holds no lock. */
  function Rank(pc: Pc): nat {
    match pc
    case SpawnHeld(_, _) => 4
    case SpawnListed(_, _, _) => 3
    case SpawnShown(_, _, _) => 2
    case SpawnUnlock(_) => 1
    case RemoveHeld(_, _) => 5
    case RemoveSignal(_, _, _) => 4
    case RemoveDelist(_, _, _) => 3
    case RemoveHide(_, _) => 2
    case RemoveUnlock => 1
    case MuHeld(_, _, _) => 1
    case ReadersHeld(_) => 1
    case FetchHeld(_) => 1
    case CheckHeld(_) => 4
    case RecordLock(_) => 3
    case RecordHeld(_) => 2
    case RecordDone(_) => 1
    case _ => 0
  }

  ghost function Weight(threads: map<Tid, Pc>): nat {
    if threads == map[] then 0
    else var t :| t in threads; Rank(threads[t]) + Weight(threads - {t})
  }

  lemma {:induction false} WeightAt(threads: map<Tid, Pc>, t: Tid)
    requires t in threads
    ensures Weight(threads) == Rank(threads[t]) + Weight(threads - {t})
    decreases |threads|
  {
    var u :| u in threads && Weight(threads) == Rank(threads[u]) + Weight(threads - {u});
    if u != t {
      WeightAt(threads - {u}, t);
      WeightAt(threads - {t}, u);
      assert threads - {u} - {t} == threads - {t} - {u};
    }
  }

  lemma WeightUpdate(threads: map<Tid, Pc>, t: Tid, pc: Pc)
    ensures Weight(threads[t := pc]) == Weight(threads) + Rank(pc) - if t in threads then Rank(threads[t]) else 0
  {
    WeightAt(threads[t := pc], t);
    assert threads[t := pc] - {t} == threads - {t};
    if t in threads {
      WeightAt(threads, t);
    } else {
      assert threads - {t} == threads;
    }
  }

  /** A step by a goroutine that holds a lock. */
  predicate ByHolder(s: State, st: Step) {
    st.Move? && st.tid in s.threads && Holds(s.threads[st.tid]) != {}
  }

  ghost predicate HolderRun(s: State, steps: seq<Step>)
    decreases steps
  {
    steps == [] || (Enabled(s, steps[0]) && ByHolder(s, steps[0]) && HolderRun(Apply(s, steps[0]), steps[1..]))
  }

  lemma {:induction false} HolderRunRuns(s: State, steps: seq<Step>)
    requires HolderRun(s, steps)
    ensures Runs(s, steps)
    decreases steps
  {
    hide Enabled, Apply, ByHolder;
    if steps != [] {
      HolderRunRuns(Apply(s, steps[0]), steps[1..]);
    }
  }

  lemma RankIsHolding(pc: Pc)
    ensures Rank(pc) == 0 <==> Holds(pc) == {}
  {
    if Rank(pc) != 0 {
      var l := match pc
        case MuHeld(a, _, _) => Mu(a)
        case CheckHeld(a) => Mu(a)
        case RecordLock(a) => Mu(a)
        case RecordHeld(a) => Mu(a)
        case RecordDone(a) => Mu(a)
        case ReadersHeld(a) => ReadersMu(a)
        case FetchHeld(a) => ReadersMu(a)
        case _ => Gm;
      assert l in Holds(pc);
    }
  }

  lemma EdgeLowersRank(pc: Pc, to: Pc)
    requires Edge(pc, to) && Holds(pc) != {}
    ensures Rank(to) < Rank(pc)
  {
    RankIsHolding(pc);
    hide Holds, Resume;
    if pc.MuHeld? {
      ResumeHoldsNothing(pc.a, pc.next);
      RankIsHolding(to);
      RankIsHolding(Resume(pc.a, pc.next));
    }
  }

  lemma HolderStepLowersWeight(s: State, st: Step)
    requires Enabled(s, st) && ByHolder(s, st)
    ensures Weight(Apply(s, st).threads) < Weight(s.threads)
  {
    var pc := s.threads[st.tid];
    EdgeLowersRank(pc, st.to);
    WeightUpdate(s.threads, st.tid, st.to);
    var second := Second(s, pc, st.other);
    if second.Some? {
      WeightUpdate(s.threads[st.tid := st.to], st.other.value, second.value);
    }
  }

  /** Lock holders do not run for ever: what they hold bounds how often they can step, whatever they choose. */
  lemma {:induction false} HolderStepsAreBounded(s: State, steps: seq<Step>)
    requires HolderRun(s, steps)
    ensures |steps| <= Weight(s.threads)
    decreases steps
  {
    hide Enabled, Apply, ByHolder, Weight;
    if steps != [] {
      HolderStepLowersWeight(s, steps[0]);
      HolderStepsAreBounded(Apply(s, steps[0]), steps[1..]);
    }
  }

  lemma {:induction false} Unused(taken: set<nat>) returns (n: nat)
    ensures n !in taken
    ensures forall k :: k in taken ==> k < n
    decreases taken
  {
    if taken == {} {
      n := 0;
    } else {
      var k :| k in taken;
      var m := Unused(taken - {k});
      n := if m <= k then k + 1 else m;
      assert taken == (taken - {k}) + {k};
    }
  }

  /** Some way on from a pc that holds a lock. */
  lemma WayOn(s: State, pc: Pc) returns (to: Pc)
    requires Holds(pc) != {}
    ensures Edge(pc, to) && Agrees(s, pc, to)
  {
    match pc
    case SpawnHeld(id, c) =>
      var a := Unused(s.ids.Keys);
      to := if id in s.agents then SpawnUnlock(c) else SpawnListed(id, a, c);
    case SpawnListed(id, a, c) => to := SpawnShown(id, a, c);
    case SpawnShown(_, _, c) => to := SpawnUnlock(c);
    case SpawnUnlock(c) => to := SpawnReturn(c);
    case RemoveHeld(id, c) => to := if id in s.agents then RemoveSignal(id, s.agents[id], c) else RemoveUnlock;
    case RemoveSignal(id, a, c) => to := RemoveDelist(id, a, c);
    case RemoveDelist(id, _, c) => to := RemoveHide(id, c);
    case RemoveHide(_, _) => to := RemoveUnlock;
    case MuHeld(a, u, k) => to := if u == WriteOut || u == StopSection then WakeSend(a, k) else Resume(a, k);
    case FetchHeld(a) => to := CheckLock(a);
    case CheckHeld(_) => to := Done;
    case RecordLock(a) => to := RecordHeld(a);
    case RecordHeld(a) => to := RecordDone(a);
    case _ => to := Done;
  }

  lemma FreeToMove(s: State, t: Tid) returns (st: Step)
    requires t in s.threads && Holds(s.threads[t]) != {}
    requires Wants(s.threads[t]).Some? ==> Wants(s.threads[t]).value !in s.locks
    ensures Enabled(s, st) && ByHolder(s, st)
  {
    var to := WayOn(s, s.threads[t]);
    var unused := Unused(s.threads.Keys);
    st := Move(t, to, if s.threads[t].SpawnShown? then Some(unused) else None);
  }

  /** No deadlock among the three kinds of locks: while any is held, a holder can step. */
  lemma HolderCanStep(s: State) returns (st: Step)
    requires Inv(s) && s.locks != map[]
    ensures Enabled(s, st) && ByHolder(s, st)
  {
    var l :| l in s.locks;
    var t := s.locks[l];
    var want := Wants(s.threads[t]);
    if want.Some? && want.value in s.locks {
      t := s.locks[want.value];
      assert want.value.ReadersMu? && want.value in Holds(s.threads[t]);
    }
    st := FreeToMove(s, t);
  }

  /**
   From every reachable state the lock holders alone can give back every lock: no lock ever waits for a
   channel, a process, a timer or a goroutine that holds none.
   */
  lemma {:induction false} LocksComeFree(s: State) returns (steps: seq<Step>)
    requires Inv(s)
    ensures HolderRun(s, steps) && Runs(s, steps) && After(s, steps).locks == map[]
    decreases Weight(s.threads)
  {
    hide Enabled, Apply, ByHolder, Weight, Inv;
    if s.locks == map[] {
      steps := [];
    } else {
      var st := HolderCanStep(s);
      HolderStepLowersWeight(s, st);
      StepKeepsInv(s, st);
      var rest := LocksComeFree(Apply(s, st));
      steps := [st] + rest;
      assert steps[0] == st && steps[1..] == rest;
    }
  }

  /**
   Lock safety over whole runs: whoever waits outside owns no lock; two locks of one owner are readersMu
   and g.mu of one agent; an owner that wants another lock is recording an offset; while any lock is owned
   some owner can step; and the owners alone can go on until none is owned.
   */
  lemma LockSafety(before: seq<Step>) returns (onward: seq<Step>)
    requires Runs(INITIAL, before)
    ensures var s := After(INITIAL, before);
      (forall l :: l in s.locks ==> s.locks[l] in s.threads && !WaitsOutside(s.threads[s.locks[l]]))
      && (forall l, l' :: l in s.locks && l' in s.locks && s.locks[l] == s.locks[l'] && l != l' ==> Nested(l, l'))
      && (forall l :: l in s.locks && Wants(s.threads[s.locks[l]]).Some? ==>
            s.threads[s.locks[l]].RecordLock? && l == Mu(s.threads[s.locks[l]].a))
      && (s.locks != map[] ==> exists st :: Enabled(s, st) && ByHolder(s, st))
      && HolderRun(s, onward) && Runs(s, onward) && After(s, onward).locks == map[]
  {
    hide Enabled, Apply, ByHolder;
    var s := After(INITIAL, before);
    RunKeepsInv(INITIAL, before);
    forall l | l in s.locks
      ensures !WaitsOutside(s.threads[s.locks[l]])
      ensures Wants(s.threads[s.locks[l]]).Some? ==>
        s.threads[s.locks[l]].RecordLock? && l == Mu(s.threads[s.locks[l]].a)
      ensures forall l' :: l' in s.locks && s.locks[l] == s.locks[l'] && l != l' ==> Nested(l, l')
    {
      LockOrder(s.threads[s.locks[l]]);
    }
    if s.locks != map[] {
      var st := HolderCanStep(s);
    }
    onward := LocksComeFree(s);
  }
}
