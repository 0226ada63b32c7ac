/**
 The manager of rcpud's agents: its table, and the directory /gortns that shows it.

 Class Manager is Spawn and Remove, each under gm.mu from start to end. The second
 part shows that every interleaving of GortnLocks amounts to such calls in a row.
 */
module GortnManager {
  import opened Bytes
  import opened OutputLog
  import opened GortnBuffer
  import opened GortnLocks

  /** The ids in the table and the names in the directory. */
  datatype Listing = Listing(ids: set<string>, names: set<string>)

  datatype Op = Spawned(id: string) | Removed(id: string)

  const START: Listing := Listing({}, {CTL})

  predicate Succeeds(l: Listing, op: Op) {
    match op
    case Spawned(id) => id !in l.ids
    case Removed(id) => id in l.ids
  }

  /** A call that fails changes nothing. */
  function Change(l: Listing, op: Op): Listing {
    if !Succeeds(l, op) then l
    else match op
      case Spawned(id) => Listing(l.ids + {id}, l.names + {id})
      case Removed(id) => Listing(l.ids - {id}, l.names - {id})
  }

  /** Remove undoes Spawn, unless the name was already in the directory: that file is gone then. */
  lemma RemoveUndoesSpawn(l: Listing, id: string)
    requires id !in l.ids
    ensures (Change(Change(l, Spawned(id)), Removed(id)) == l) <==> id !in l.names
  {
    var l' := Change(Change(l, Spawned(id)), Removed(id));
    assert l'.ids == l.ids;
    assert id !in l'.names;
    if id !in l.names {
      assert l'.names == l.names;
    }
  }

  class Manager {
    var agents: map<string, Gortn>
    var children: set<string>

    constructor ()
      ensures agents == map[] && Listed() == START
    {
      agents, children := map[], {CTL};
    }

    function Listed(): Listing
      reads this
    {
      Listing(agents.Keys, children)
    }

    method Spawn(id: string) returns (ok: bool)
      modifies this
      ensures ok == Succeeds(old(Listed()), Spawned(id))
      ensures Listed() == Change(old(Listed()), Spawned(id))
      ensures id in agents && (forall x :: x in old(agents) ==> x in agents && agents[x] == old(agents)[x])
      ensures ok ==> fresh(agents[id]) && agents[id].id == Ascii(id) && agents[id].Contents() == EMPTY && agents[id].state == Idle
    {
      if id in agents {
        return false;
      }
      var g := new Gortn(Ascii(id));
      agents := agents[id := g];
      children := children + {id};
      return true;
    }

    /** The agent whose stop channel was offered a signal, if any. */
    method Remove(id: string) returns (stopped: Option<Gortn>)
      modifies this, (if id in agents then {agents[id]} else {})`signals
      ensures stopped.Some? == Succeeds(old(Listed()), Removed(id))
      ensures stopped.Some? ==> stopped.value == old(agents)[id] && stopped.value.signals == old(agents[id].signals) + 1
      ensures Listed() == Change(old(Listed()), Removed(id))
      ensures id !in agents && (forall x :: x in old(agents) && x != id ==> x in agents && agents[x] == old(agents)[x])
    {
      if id !in agents {
        return None;
      }
      stopped := Some(agents[id]);
      agents[id].StopAgent();
      agents := agents - {id};
      children := children - {id};
    }
  }

  // ---------- every interleaving is some sequence of calls ----------

  ghost function ChangeAll(l: Listing, ops: seq<Op>): Listing
    decreases ops
  {
    if ops == [] then l else ChangeAll(Change(l, ops[0]), ops[1..])
  }

  ghost predicate AllSucceed(l: Listing, ops: seq<Op>)
    decreases ops
  {
    ops == [] || (Succeeds(l, ops[0]) && AllSucceed(Change(l, ops[0]), ops[1..]))
  }

  /** The call that changes the table, at the moment it does. */
  function OpsAt(pc: Pc, to: Pc): seq<Op> {
    if pc.SpawnHeld? && to.SpawnListed? then [Spawned(pc.id)]
    else if pc.RemoveDelist? then [Removed(pc.id)]
    else []
  }

  function OpsOf(s: State, st: Step): seq<Op>
    requires Enabled(s, st)
  {
    if st.Move? then OpsAt(s.threads[st.tid], st.to) else []
  }

  ghost function History(s: State, steps: seq<Step>): seq<Op>
    requires Runs(s, steps)
    decreases steps
  {
    if steps == [] then [] else OpsOf(s, steps[0]) + History(Apply(s, steps[0]), steps[1..])
  }

  /** How far the directory is behind the calls made so far, by where the holder of gm.mu is. */
  predicate Shown(l: Listing, pc: Pc, children: set<string>) {
    match pc
    case SpawnListed(id, _, _) => l.names == children + {id}
    case RemoveHide(id, _) => l.names == children - {id}
    case RemoveSignal(id, _, _) => l.names == children && id in l.ids
    case RemoveDelist(id, _, _) => l.names == children && id in l.ids
    case _ => l.names == children
  }

  ghost predicate Agree(l: Listing, s: State) {
    LocksMatch(s.locks, s.threads)
    && l.ids == s.agents.Keys
    && if Gm !in s.locks then l.names == s.children else Shown(l, s.threads[s.locks[Gm]], s.children)
  }

  /** What the step from pc makes of the listing, and how far behind the directory is then. */
  lemma ShownStep(l: Listing, s: State, pc: Pc, to: Pc)
    requires Edge(pc, to) && Agrees(s, pc, to) && UnderGm(pc) && l.ids == s.agents.Keys
    requires if Gm in Holds(pc) then Shown(l, pc, s.children) else l.names == s.children
    ensures var ops := OpsAt(pc, to);
            var l' := ChangeAll(l, ops);
            AllSucceed(l, ops) && l'.ids == KeysAfter(s.agents.Keys, pc, to) &&
            if Gm in Holds(to) then Shown(l', to, Directory(s, pc)) else l'.names == Directory(s, pc)
  {
    hide Resume, SpawnReturn;
    if pc.SpawnUnlock? {
      assert Gm !in Holds(SpawnReturn(pc.caller)) by {
        EdgeBalances(pc, to);
      }
    }
    var ops := OpsAt(pc, to);
    if ops != [] {
      assert ops[1..] == [] && ChangeAll(l, ops) == Change(l, ops[0]);
    }
  }

  lemma StepIsSerial(l: Listing, s: State, st: Step)
    requires Agree(l, s) && Enabled(s, st)
    ensures AllSucceed(l, OpsOf(s, st)) && Agree(ChangeAll(l, OpsOf(s, st)), Apply(s, st))
  {
    StepKeepsLocks(s, st);
    if st.Move? {
      var pc, to := s.threads[st.tid], st.to;
      if UnderGm(pc) {
        assert Gm in Holds(pc) ==> s.locks[Gm] == st.tid;
      }
      hide LocksMatch, Locks, Second, Holds, Wants, Edge, Agrees, Shown, KeysAfter, Table, Directory;
      OwnerAfter(s, st);
      TableKeys(s, pc, to);
      if UnderGm(pc) {
        ShownStep(l, s, pc, to);
      } else {
        NoOpsOutside(pc, to);
      }
    }
  }

  lemma NoOpsOutside(pc: Pc, to: Pc)
    requires !UnderGm(pc)
    ensures OpsAt(pc, to) == []
  {
  }

  lemma {:induction false} ChangeAllConcat(l: Listing, a: seq<Op>, b: seq<Op>)
    ensures ChangeAll(l, a + b) == ChangeAll(ChangeAll(l, a), b)
    ensures AllSucceed(l, a + b) <==> AllSucceed(l, a) && AllSucceed(ChangeAll(l, a), b)
    decreases a
  {
    hide Change, Succeeds;
    if a == [] {
      assert a + b == b;
    } else {
      assert (a + b)[1..] == a[1..] + b;
      ChangeAllConcat(Change(l, a[0]), a[1..], b);
    }
  }

  lemma {:induction false} RunIsSerial(l: Listing, s: State, steps: seq<Step>)
    requires Agree(l, s) && Runs(s, steps)
    ensures AllSucceed(l, History(s, steps)) && Agree(ChangeAll(l, History(s, steps)), After(s, steps))
    decreases steps
  {
    hide Agree, Enabled, Apply, OpsOf, Change, Succeeds;
    if steps != [] {
      var st, rest := steps[0], steps[1..];
      StepIsSerial(l, s, st);
      RunIsSerial(ChangeAll(l, OpsOf(s, st)), Apply(s, st), rest);
      ChangeAllConcat(l, OpsOf(s, st), History(Apply(s, st), rest));
    }
  }

  /**
   Every run of the lock machine is a row of successful Spawn and Remove calls on the manager: the table is
   always what they make it, and so is the directory whenever gm.mu is free.
   */
  lemma SerialHistory(steps: seq<Step>)
    requires Runs(INITIAL, steps)
    ensures var s, l := After(INITIAL, steps), ChangeAll(START, History(INITIAL, steps));
      AllSucceed(START, History(INITIAL, steps))
      && s.agents.Keys == l.ids
      && (Gm !in s.locks ==> s.children == l.names)
  {
    RunIsSerial(START, INITIAL, steps);
  }
}
