/**
 The deferred Remove of an agent whose run loop has ended. Remove works by id:
 what it finds under the agent's id is never the agent itself.
 */
module GortnRemoval {
  import opened Bytes
  import opened GortnLocks
  import opened GortnManager

  predicate Listed(s: State, a: Aid) {
    a in s.ids && s.ids[a] in s.agents && s.agents[s.ids[a]] == a
  }

  /** The agent whose run loop has received the signal and is on its way out, and the id it will remove. */
  function Leaving(pc: Pc): Option<(Aid, string)> {
    match pc
    case MuLock(a, _, ToRemove(id)) => Some((a, id))
    case MuHeld(a, _, ToRemove(id)) => Some((a, id))
    case WakeSend(a, ToRemove(id)) => Some((a, id))
    case RemoveLock(id, Some(a)) => Some((a, id))
    case RemoveHeld(id, Some(a)) => Some((a, id))
    case RemoveSignal(id, _, Some(a)) => Some((a, id))
    case RemoveDelist(id, _, Some(a)) => Some((a, id))
    case RemoveHide(id, Some(a)) => Some((a, id))
    case _ => None
  }

  /** The owner of gm.mu is about to delist a. */
  ghost predicate BeingDelisted(s: State, a: Aid) {
    Gm in s.locks && s.locks[Gm] in s.threads && s.threads[s.locks[Gm]].RemoveDelist? && s.threads[s.locks[Gm]].a == a
  }

  /** Every agent is filed under its own id. */
  ghost predicate Filed(s: State) {
    forall id :: id in s.agents ==> s.agents[id] in s.ids && s.ids[s.agents[id]] == id
  }

  /** Between finding an agent and delisting it nothing else touches the table. */
  ghost predicate Found(s: State) {
    forall t :: t in s.threads && (s.threads[t].RemoveSignal? || s.threads[t].RemoveDelist?) ==>
      s.threads[t].id in s.agents && s.agents[s.threads[t].id] == s.threads[t].a
  }

  /** Whoever leaves is off the table, or comes off it before gm.mu is free. */
  ghost predicate LeaversAreOff(s: State) {
    forall t :: t in s.threads && Leaving(s.threads[t]).Some? ==>
      var (a, id) := Leaving(s.threads[t]).value;
      a in s.ids && s.ids[a] == id && (!Listed(s, a) || BeingDelisted(s, a))
  }

  ghost predicate Tied(s: State) { LocksMatch(s.locks, s.threads) && Filed(s) && Found(s) && LeaversAreOff(s) }

  // ---------- single steps ----------

  lemma StepKeepsFiled(s: State, st: Step)
    requires Filed(s) && Enabled(s, st)
    ensures Filed(Apply(s, st))
  {
    hide Locks, Second, Edge, Directory;
    if st.Move? && st.to.SpawnListed? {
      OnlyHeldLists(s.threads[st.tid], st.to);
    }
  }

  lemma OnlyHeldLists(pc: Pc, to: Pc)
    requires Edge(pc, to) && to.SpawnListed?
    ensures pc.SpawnHeld? && pc.id == to.id
  {
  }

  /** While one goroutine owns gm.mu nobody else steps under it. */
  lemma OthersStayOut(s: State, st: Step, t: Tid)
    requires LocksMatch(s.locks, s.threads) && Enabled(s, st) && st.Move? && t in s.threads && t != st.tid
    requires Gm in Holds(s.threads[t])
    ensures !UnderGm(s.threads[st.tid]) && Apply(s, st).agents == s.agents
  {
    assert s.locks[Gm] == t;
    OwnerAfter(s, st);
  }

  lemma StepKeepsFound(s: State, st: Step)
    requires Tied(s) && Enabled(s, st)
    ensures Found(Apply(s, st))
  {
    var s' := Apply(s, st);
    forall t | t in s'.threads && (s'.threads[t].RemoveSignal? || s'.threads[t].RemoveDelist?)
      ensures s'.threads[t].id in s'.agents && s'.agents[s'.threads[t].id] == s'.threads[t].a
    {
      if st.Move? {
        if t == st.tid {
          MoverFound(s, st);
        } else {
          assert t in s.threads && s.threads[t] == s'.threads[t];
          OthersStayOut(s, st, t);
        }
      }
    }
  }

  lemma MoverFound(s: State, st: Step)
    requires Found(s) && Enabled(s, st) && st.Move? && (st.to.RemoveSignal? || st.to.RemoveDelist?)
    ensures var s' := Apply(s, st); st.to.id in s'.agents && s'.agents[st.to.id] == st.to.a
  {
    hide Locks, Second, Directory;
  }

  lemma ResumedLeaves(a: Aid, next: Next)
    ensures Leaving(Resume(a, next)) == if next.ToRemove? then Some((a, next.id)) else None
  {
  }

  lemma LeavingInSection(pc: Pc, to: Pc)
    requires InSection(pc) && Edge(pc, to) && Leaving(to).Some?
    ensures Leaving(pc) == Leaving(to)
  {
    hide Resume, SpawnReturn;
    if pc.MuHeld? || pc.WakeSend? {
      ResumedLeaves(pc.a, pc.next);
    }
  }

  lemma LeavingStays(pc: Pc, to: Pc)
    requires Edge(pc, to) && Leaving(to).Some?
    ensures Leaving(pc) == Leaving(to)
  {
    hide Resume;
    if InSection(pc) {
      LeavingInSection(pc, to);
    }
  }

  lemma TableStep(s: State, st: Step, a: Aid)
    requires Enabled(s, st) && st.Move? && Filed(s) && a in s.ids
    requires s.threads[st.tid].RemoveDelist? ==>
               s.threads[st.tid].id in s.agents && s.agents[s.threads[st.tid].id] == s.threads[st.tid].a
    ensures var pc, s' := s.threads[st.tid], Apply(s, st);
            a in s'.ids && s'.ids[a] == s.ids[a] &&
            (Listed(s', a) ==> Listed(s, a) && !(pc.RemoveDelist? && pc.a == a))
  {
    hide Locks, Second, Directory, Resume, SpawnReturn;
    if st.to.SpawnListed? {
      OnlyHeldLists(s.threads[st.tid], st.to);
    }
    hide Edge;
  }

  /** An agent that is off the table, or being taken off, is so after any step. */
  lemma OffStays(s: State, st: Step, a: Aid)
    requires Tied(s) && Enabled(s, st) && st.Move? && a in s.ids && (!Listed(s, a) || BeingDelisted(s, a))
    ensures var s' := Apply(s, st);
            a in s'.ids && s'.ids[a] == s.ids[a] && (!Listed(s', a) || BeingDelisted(s', a))
  {
    TableStep(s, st, a);
    OwnerAfter(s, st);
    StepKeepsLocks(s, st);
    var pc, s' := s.threads[st.tid], Apply(s, st);
    hide Apply, Enabled, Filed, Found, LeaversAreOff, Listed, Leaving;
    if BeingDelisted(s, a) {
      var owner := s.locks[Gm];
      assert Gm in Holds(s.threads[owner]);
      if UnderGm(pc) {
        assert owner == st.tid;
      } else {
        assert s'.locks[Gm] == owner && s'.threads[owner] == s.threads[owner];
        assert owner in s'.threads;
      }
    }
  }

  lemma LaunchKeepsOff(s: State, st: Step)
    requires Tied(s) && Enabled(s, st) && st.Launch?
    ensures LeaversAreOff(Apply(s, st))
  {
    var s' := Apply(s, st);
    assert Leaving(st.pc).None?;
    hide Leaving, Entry;
    forall t | t in s'.threads && Leaving(s'.threads[t]).Some?
      ensures var (a, id) := Leaving(s'.threads[t]).value;
              a in s'.ids && s'.ids[a] == id && (!Listed(s', a) || BeingDelisted(s', a))
    {
      assert t in s.threads && s'.threads[t] == s.threads[t];
      var (a, id) := Leaving(s.threads[t]).value;
      assert Listed(s', a) == Listed(s, a);
    }
  }

  /** The one that receives the signal is being delisted. */
  lemma ReceiverIsOff(s: State, st: Step)
    requires Tied(s) && Enabled(s, st) && st.Move? && s.threads[st.tid].RemoveSignal? && st.other.Some?
    ensures var s', a := Apply(s, st), s.threads[st.tid].a;
            a in s.ids && a in s'.ids && s'.ids[a] == s.ids[a] && BeingDelisted(s', a) &&
            st.other.value in s'.threads && Leaving(s'.threads[st.other.value]) == Some((a, s.ids[a]))
  {
    OwnerAfter(s, st);
    var pc := s.threads[st.tid];
    assert pc.id in s.agents && s.agents[pc.id] == pc.a;
    assert st.to == RemoveDelist(pc.id, pc.a, pc.caller);
    hide LocksMatch, LeaversAreOff, Found, Locks, Edge, Agrees, Directory, Unlocks;
  }

  lemma MoveKeepsOff(s: State, st: Step)
    requires Tied(s) && Enabled(s, st) && st.Move?
    ensures LeaversAreOff(Apply(s, st))
  {
    var s' := Apply(s, st);
    forall t | t in s'.threads && Leaving(s'.threads[t]).Some?
      ensures var (a, id) := Leaving(s'.threads[t]).value;
              a in s'.ids && s'.ids[a] == id && (!Listed(s', a) || BeingDelisted(s', a))
    {
      ThreadAfter(s, st, t);
      hide Apply, Enabled, Leaving, Listed, BeingDelisted, Filed, Found, LocksMatch;
      if st.other == Some(t) && s.threads[st.tid].RemoveSignal? {
        ReceiverIsOff(s, st);
      } else {
        assert t in s.threads && Leaving(s.threads[t]) == Leaving(s'.threads[t]);
        OffStays(s, st, Leaving(s.threads[t]).value.0);
      }
    }
  }

  /** A goroutine that is leaving after a step was leaving before, or has just received the signal. */
  lemma ThreadAfter(s: State, st: Step, t: Tid)
    requires Enabled(s, st) && st.Move? && t in Apply(s, st).threads && Leaving(Apply(s, st).threads[t]).Some?
    ensures (st.other == Some(t) && s.threads[st.tid].RemoveSignal?) ||
            (t in s.threads && Leaving(s.threads[t]) == Leaving(Apply(s, st).threads[t]))
  {
    hide Locks, Table, Directory;
    if t == st.tid && !(st.other == Some(t) && Second(s, s.threads[st.tid], st.other).Some?) {
      LeavingStays(s.threads[t], st.to);
    }
    hide Edge;
  }

  lemma StepKeepsTied(s: State, st: Step)
    requires Tied(s) && Enabled(s, st)
    ensures Tied(Apply(s, st))
  {
    hide LocksMatch, Filed, Found, LeaversAreOff, Apply, Enabled;
    StepKeepsLocks(s, st);
    StepKeepsFiled(s, st);
    StepKeepsFound(s, st);
    if st.Launch? {
      LaunchKeepsOff(s, st);
    } else {
      MoveKeepsOff(s, st);
    }
  }

  lemma {:induction false} RunKeepsTied(s: State, steps: seq<Step>)
    requires Tied(s) && Runs(s, steps)
    ensures Tied(After(s, steps))
    decreases steps
  {
    hide Tied, Enabled, Apply;
    if steps != [] {
      StepKeepsTied(s, steps[0]);
      RunKeepsTied(Apply(s, steps[0]), steps[1..]);
    }
  }

  // ---------- what the history says ----------

  /** Every agent that is off the table was removed by its id. */
  ghost predicate Recorded(s: State, done: seq<Op>) {
    forall a :: a in s.ids ==> Listed(s, a) || Removed(s.ids[a]) in done
  }

  lemma StepRecords(s: State, st: Step, done: seq<Op>)
    requires Tied(s) && Recorded(s, done) && Enabled(s, st)
    ensures Recorded(Apply(s, st), done + OpsOf(s, st))
  {
    hide Locks, Second, Directory, Resume, SpawnReturn, LocksMatch, LeaversAreOff;
    if st.Move? && st.to.SpawnListed? {
      OnlyHeldLists(s.threads[st.tid], st.to);
    }
    hide Edge;
  }

  lemma {:induction false} RunRecords(s: State, steps: seq<Step>, done: seq<Op>)
    requires Tied(s) && Recorded(s, done) && Runs(s, steps)
    ensures Recorded(After(s, steps), done + History(s, steps))
    decreases steps
  {
    hide Tied, Recorded, Enabled, Apply, OpsOf;
    if steps == [] {
      assert done + [] == done;
    } else {
      var st, rest := steps[0], steps[1..];
      StepKeepsTied(s, st);
      StepRecords(s, st, done);
      RunRecords(Apply(s, st), rest, done + OpsOf(s, st));
      assert done + OpsOf(s, st) + History(Apply(s, st), rest) == done + History(s, steps);
    }
  }

  /** The last successful call for this id was Spawn. */
  ghost predicate LastSpawned(ops: seq<Op>, id: string) {
    exists k :: 0 <= k < |ops| && ops[k] == Spawned(id) && Removed(id) !in ops[k..]
  }

  lemma {:induction false} InTheTable(ops: seq<Op>, id: string)
    requires AllSucceed(START, ops)
    ensures id in ChangeAll(START, ops).ids <==> LastSpawned(ops, id)
    decreases |ops|
  {
    if ops != [] {
      var init, op := ops[..|ops| - 1], ops[|ops| - 1];
      assert ops == init + [op];
      ChangeAllConcat(START, init, [op]);
      var l := ChangeAll(START, init);
      assert [op][1..] == [] && ChangeAll(l, [op]) == Change(l, op);
      InTheTable(init, id);
      LastSpawnedSnoc(init, op, id);
    }
  }

  lemma LastSpawnedSnoc(init: seq<Op>, op: Op, id: string)
    ensures LastSpawned(init + [op], id) <==> op == Spawned(id) || (op != Removed(id) && LastSpawned(init, id))
  {
    var ops := init + [op];
    forall k | 0 <= k < |init| ensures ops[k..] == init[k..] + [op] {}
    if LastSpawned(init, id) && op != Removed(id) {
      var k :| 0 <= k < |init| && init[k] == Spawned(id) && Removed(id) !in init[k..];
      assert ops[k] == Spawned(id) && Removed(id) !in ops[k..];
    }
    if op == Spawned(id) {
      assert ops[|init|..] == [op];
      assert ops[|init|] == Spawned(id) && Removed(id) !in ops[|init|..];
    }
    if LastSpawned(ops, id) && op != Spawned(id) {
      var k :| 0 <= k < |ops| && ops[k] == Spawned(id) && Removed(id) !in ops[k..];
      assert k < |init| && op in ops[k..];
      assert forall x :: x in init[k..] ==> x in ops[k..];
    }
  }

  /**
   The deferred Remove, in every run: when it looks its agent's id up, the agent
   itself is off the table. It finds something, and then signals and delists
   that, if and only if the id was spawned again after it had been removed.
   */
  lemma DeferredRemove(steps: seq<Step>, t: Tid, id: string, a: Aid)
    requires Runs(INITIAL, steps)
    requires t in After(INITIAL, steps).threads && After(INITIAL, steps).threads[t] == RemoveHeld(id, Some(a))
    ensures var s, ops := After(INITIAL, steps), History(INITIAL, steps);
            a in s.ids && s.ids[a] == id && Removed(id) in ops &&
            (id in s.agents ==> s.agents[id] != a && s.agents[id] in s.ids && s.ids[s.agents[id]] == id) &&
            (id in s.agents <==> LastSpawned(ops, id))
  {
    hide LocksMatch, Enabled, Apply, Runs, After, History, AllSucceed, ChangeAll, LastSpawned;
    var s, ops := After(INITIAL, steps), History(INITIAL, steps);
    InitialTied();
    RunKeepsTied(INITIAL, steps);
    RunRecords(INITIAL, steps, []);
    SerialHistory(steps);
    InTheTable(ops, id);
    assert [] + ops == ops;
    LookerIsOff(s, t, id, a);
  }

  lemma InitialTied()
    ensures Tied(INITIAL) && Recorded(INITIAL, [])
  {
  }

  lemma LookerIsOff(s: State, t: Tid, id: string, a: Aid)
    requires Tied(s) && t in s.threads && s.threads[t] == RemoveHeld(id, Some(a))
    ensures a in s.ids && s.ids[a] == id && !Listed(s, a)
    ensures id in s.agents ==> s.agents[id] != a && s.agents[id] in s.ids && s.ids[s.agents[id]] == id
  {
    assert Leaving(s.threads[t]) == Some((a, id));
    assert Gm in Holds(s.threads[t]);
    assert s.locks[Gm] == t;
    hide LocksMatch, Leaving, Holds;
    assert !BeingDelisted(s, a);
  }
}
