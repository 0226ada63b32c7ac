/**
 One run loop per agent: Spawn starts it, no command or signal doubles or loses
 it, and it outlives its agent's place in the manager's table.
 */
module GortnRunLoops {
  import opened Bytes
  import opened GortnLocks
  import opened GortnRemoval

  predicate OfRunLoop(next: Next) { next != Return && next != ToCopier }

  /** The agent whose run loop is here. */
  function RunOf(pc: Pc): Option<Aid> {
    match pc
    case MuLock(a, _, next) => if OfRunLoop(next) then Some(a) else None
    case MuHeld(a, _, next) => if OfRunLoop(next) then Some(a) else None
    case WakeSend(a, next) => if OfRunLoop(next) then Some(a) else None
    case RunSelect(a) => Some(a)
    case ExecWait(a) => Some(a)
    case SpawnLock(_, caller) => caller
    case SpawnHeld(_, caller) => caller
    case SpawnListed(_, _, caller) => caller
    case SpawnShown(_, _, caller) => caller
    case SpawnUnlock(caller) => caller
    case RemoveLock(_, caller) => caller
    case RemoveHeld(_, caller) => caller
    case RemoveSignal(_, _, caller) => caller
    case RemoveDelist(_, _, caller) => caller
    case RemoveHide(_, caller) => caller
    case _ => None
  }

  /** The agent that is in the table and whose run loop is still to be started. */
  function Starting(pc: Pc): Option<Aid> {
    match pc
    case SpawnListed(_, a, _) => Some(a)
    case SpawnShown(_, a, _) => Some(a)
    case _ => None
  }

  ghost predicate RunsAt(s: State, t: Tid, a: Aid) { t in s.threads && RunOf(s.threads[t]) == Some(a) }

  ghost predicate StartsAt(s: State, t: Tid, a: Aid) { t in s.threads && Starting(s.threads[t]) == Some(a) }

  ghost predicate OneLoopEach(s: State) {
    (forall t, u, a :: RunsAt(s, t, a) && RunsAt(s, u, a) ==> t == u)
    && (forall t, u, a :: StartsAt(s, t, a) && StartsAt(s, u, a) ==> t == u)
    && (forall t, u, a :: RunsAt(s, t, a) ==> !StartsAt(s, u, a))
    && (forall t, a :: RunsAt(s, t, a) || StartsAt(s, t, a) ==> a in s.ids)
    && (forall a :: Listed(s, a) ==> exists t :: RunsAt(s, t, a) || StartsAt(s, t, a))
  }

  // ---------- control flow ----------

  /** The deferred Remove comes to its end. */
  predicate Retires(pc: Pc, to: Pc) { (pc.RemoveHeld? || pc.RemoveHide?) && to.RemoveUnlock? }

  lemma ResumedRuns(a: Aid, next: Next)
    ensures RunOf(Resume(a, next)) == if OfRunLoop(next) then Some(a) else None
    ensures Starting(Resume(a, next)).None?
  {
  }

  lemma SpawnReturns(caller: Option<Aid>)
    ensures RunOf(SpawnReturn(caller)) == caller && Starting(SpawnReturn(caller)).None?
  {
  }

  lemma SectionRunStays(pc: Pc, to: Pc)
    requires InSection(pc) && Edge(pc, to)
    ensures RunOf(to) == RunOf(pc)
  {
    hide Resume, SpawnReturn;
    if pc.MuHeld? || pc.WakeSend? {
      ResumedRuns(pc.a, pc.next);
    }
  }

  lemma ManagerRunStays(pc: Pc, to: Pc)
    requires (InSpawn(pc) || InRemove(pc)) && Edge(pc, to)
    ensures RunOf(to) == RunOf(pc) || (RunOf(to).None? && Retires(pc, to))
  {
    hide Resume, SpawnReturn;
    if pc.SpawnUnlock? {
      SpawnReturns(pc.caller);
    }
  }

  lemma RunStays(pc: Pc, to: Pc)
    requires Edge(pc, to)
    ensures RunOf(to) == RunOf(pc) || (RunOf(to).None? && Retires(pc, to))
  {
    hide Resume, SpawnReturn;
    if InSection(pc) {
      SectionRunStays(pc, to);
    } else if InSpawn(pc) || InRemove(pc) {
      ManagerRunStays(pc, to);
    }
  }

  lemma StartStays(pc: Pc, to: Pc)
    requires Edge(pc, to)
    ensures if pc.SpawnHeld? && to.SpawnListed? then Starting(to) == Some(to.a)
            else if pc.SpawnShown? then Starting(to).None?
            else Starting(to) == Starting(pc)
  {
    hide Resume, SpawnReturn;
    if pc.MuHeld? || pc.WakeSend? {
      ResumedRuns(pc.a, pc.next);
    } else if pc.SpawnUnlock? {
      SpawnReturns(pc.caller);
    }
  }

  lemma EntryRunsNothing(pc: Pc)
    requires Entry(pc)
    ensures RunOf(pc).None? && Starting(pc).None?
  {
  }

  // ---------- single steps ----------

  /** Where each goroutine's agent comes from in a step. */
  lemma RunOrigin(s: State, st: Step, t: Tid, a: Aid)
    requires Enabled(s, st) && st.Move? && RunsAt(Apply(s, st), t, a)
    ensures RunsAt(s, t, a) || (StartsAt(s, st.tid, a) && s.threads[st.tid].SpawnShown? && st.other == Some(t))
  {
    RunStays(s.threads[st.tid], st.to);
    hide Edge, Agrees, Locks, Table, Directory;
  }

  lemma StartOrigin(s: State, st: Step, t: Tid, a: Aid)
    requires Enabled(s, st) && st.Move? && StartsAt(Apply(s, st), t, a)
    ensures (StartsAt(s, t, a) && !(t == st.tid && s.threads[t].SpawnShown?))
            || (t == st.tid && a !in s.ids && a in Apply(s, st).ids)
  {
    StartStays(s.threads[st.tid], st.to);
    hide Edge, Locks, Table, Directory;
  }

  /** A loop or a start is still there after a step, or the start has become the loop, or the deferred Remove is over. */
  lemma RunGoesOn(s: State, st: Step, t: Tid, a: Aid)
    requires Enabled(s, st) && st.Move? && (RunsAt(s, t, a) || StartsAt(s, t, a))
    ensures var s' := Apply(s, st);
            RunsAt(s', t, a) || StartsAt(s', t, a)
            || (StartsAt(s, t, a) && t == st.tid && st.other.Some? && RunsAt(s', st.other.value, a))
            || (RunsAt(s, t, a) && t == st.tid && Retires(s.threads[t], st.to))
  {
    RunStays(s.threads[st.tid], st.to);
    StartStays(s.threads[st.tid], st.to);
    hide Edge, Agrees, Locks, Table, Directory;
  }

  /** Who retires is off the table, before and after. */
  lemma RetiredIsOff(s: State, st: Step, a: Aid)
    requires Tied(s) && Enabled(s, st) && st.Move?
    requires RunsAt(s, st.tid, a) && Retires(s.threads[st.tid], st.to)
    ensures !Listed(Apply(s, st), a)
  {
    var pc := s.threads[st.tid];
    assert Leaving(pc).Some? && Leaving(pc).value.0 == a;
    assert Gm in Holds(pc);
    assert s.locks[Gm] == st.tid;
    assert !BeingDelisted(s, a);
    hide LocksMatch, Edge, Locks, Second, Directory, Found, Leaving;
    assert Apply(s, st).agents == s.agents && Apply(s, st).ids == s.ids;
  }

  lemma NewlyListed(s: State, st: Step, a: Aid)
    requires Filed(s) && Enabled(s, st) && st.Move? && Listed(Apply(s, st), a)
    ensures Listed(s, a) || StartsAt(Apply(s, st), st.tid, a)
  {
    if st.to.SpawnListed? {
      OnlyHeldLists(s.threads[st.tid], st.to);
    }
    hide Edge, Locks, Directory;
  }

  lemma IdsGrow(s: State, st: Step)
    requires Enabled(s, st)
    ensures s.ids.Keys <= Apply(s, st).ids.Keys
  {
  }

  lemma MoveKeepsLoops(s: State, st: Step)
    requires Tied(s) && OneLoopEach(s) && Enabled(s, st) && st.Move?
    ensures OneLoopEach(Apply(s, st))
  {
    var s' := Apply(s, st);
    IdsGrow(s, st);
    hide Tied, Enabled, Apply, RunsAt, StartsAt, Listed;
    forall t, a | RunsAt(s', t, a) || StartsAt(s', t, a) ensures a in s'.ids {
      if RunsAt(s', t, a) {
        RunOrigin(s, st, t, a);
      } else {
        StartOrigin(s, st, t, a);
      }
    }
    forall t, u, a | RunsAt(s', t, a) && RunsAt(s', u, a) ensures t == u {
      RunOrigin(s, st, t, a);
      RunOrigin(s, st, u, a);
    }
    forall t, u, a | StartsAt(s', t, a) && StartsAt(s', u, a) ensures t == u {
      StartOrigin(s, st, t, a);
      StartOrigin(s, st, u, a);
    }
    forall t, u, a | RunsAt(s', t, a) ensures !StartsAt(s', u, a) {
      RunOrigin(s, st, t, a);
      if StartsAt(s', u, a) {
        StartOrigin(s, st, u, a);
      }
    }
    forall a | Listed(s', a) ensures exists t :: RunsAt(s', t, a) || StartsAt(s', t, a) {
      ListedIsServed(s, st, a);
    }
  }

  lemma ListedIsServed(s: State, st: Step, a: Aid)
    requires Tied(s) && OneLoopEach(s) && Enabled(s, st) && st.Move? && Listed(Apply(s, st), a)
    ensures exists t :: RunsAt(Apply(s, st), t, a) || StartsAt(Apply(s, st), t, a)
  {
    NewlyListed(s, st, a);
    if Listed(s, a) {
      var t :| RunsAt(s, t, a) || StartsAt(s, t, a);
      RunGoesOn(s, st, t, a);
      if RunsAt(s, t, a) && t == st.tid && Retires(s.threads[t], st.to) {
        RetiredIsOff(s, st, a);
      }
      hide Enabled, Apply, Tied, Listed;
    }
  }

  lemma LaunchKeepsLoops(s: State, st: Step)
    requires OneLoopEach(s) && Enabled(s, st) && st.Launch?
    ensures OneLoopEach(Apply(s, st))
  {
    EntryRunsNothing(st.pc);
    var s' := Apply(s, st);
    hide Entry, RunOf, Starting;
    assert forall t, a :: RunsAt(s', t, a) <==> RunsAt(s, t, a);
    assert forall t, a :: StartsAt(s', t, a) <==> StartsAt(s, t, a);
    assert forall a :: Listed(s', a) <==> Listed(s, a);
  }

  lemma {:induction false} RunKeepsLoops(s: State, steps: seq<Step>)
    requires Tied(s) && OneLoopEach(s) && Runs(s, steps)
    ensures OneLoopEach(After(s, steps))
    decreases steps
  {
    hide Tied, OneLoopEach, Enabled, Apply;
    if steps != [] {
      StepKeepsTied(s, steps[0]);
      if steps[0].Move? {
        MoveKeepsLoops(s, steps[0]);
      } else {
        LaunchKeepsLoops(s, steps[0]);
      }
      RunKeepsLoops(Apply(s, steps[0]), steps[1..]);
    }
  }

  /**
   In every run, every agent in the table has exactly one goroutine that is its
   run loop, or is about to be given it by the Spawn that is listing it; and no
   agent ever has two.
   */
  lemma EveryAgentRuns(steps: seq<Step>, a: Aid)
    requires Runs(INITIAL, steps)
    ensures var s := After(INITIAL, steps);
            (forall t, u :: RunsAt(s, t, a) && RunsAt(s, u, a) ==> t == u) &&
            (Listed(s, a) ==> exists t :: RunsAt(s, t, a) || StartsAt(s, t, a)) &&
            (Gm !in s.locks ==> forall t :: !StartsAt(s, t, a))
  {
    InitialTied();
    RunKeepsTied(INITIAL, steps);
    RunKeepsLoops(INITIAL, steps);
    var s := After(INITIAL, steps);
    forall t | StartsAt(s, t, a) ensures Gm in s.locks {
      assert Gm in Holds(s.threads[t]);
    }
  }
}
