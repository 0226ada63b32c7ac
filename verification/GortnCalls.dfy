/**
 Each call on the agents of rcpud from its first step to its last: the places
 it goes through and what it leaves behind when the locks it wants are free.
 */
module GortnCalls {
  import opened Bytes
  import opened GortnLocks
  import opened GortnRemoval

  // ---------- one goroutine on its way ----------

  function Moves(t: Tid, way: seq<Pc>): (steps: seq<Step>)
    ensures |steps| == |way| && forall k :: 0 <= k < |way| ==> steps[k] == Move(t, way[k], None)
    decreases way
  {
    if way == [] then [] else [Move(t, way[0], None)] + Moves(t, way[1..])
  }

  function At(s: State, t: Tid, pc: Pc): State { s.(threads := s.threads[t := pc]) }

  /** Goroutine t can go from place to place as told, and everything is then as in end. */
  ghost predicate Goes(s: State, t: Tid, way: seq<Pc>, end: State) {
    Runs(s, Moves(t, way)) && After(s, Moves(t, way)) == end
  }

  lemma Next1(s: State, st: Step, rest: seq<Step>)
    requires Enabled(s, st) && Runs(Apply(s, st), rest)
    ensures Runs(s, [st] + rest) && After(s, [st] + rest) == After(Apply(s, st), rest)
  {
    hide Enabled, Apply;
    assert ([st] + rest)[0] == st && ([st] + rest)[1..] == rest;
  }

  lemma TwoThen(s: State, st: Step, st': Step, rest: seq<Step>) returns (steps: seq<Step>)
    requires Enabled(s, st) && Enabled(Apply(s, st), st') && Runs(Apply(Apply(s, st), st'), rest)
    ensures |steps| == 2 + |rest| && Runs(s, steps) && After(s, steps) == After(Apply(Apply(s, st), st'), rest)
  {
    hide Enabled, Apply;
    Next1(Apply(s, st), st', rest);
    Next1(s, st, [st'] + rest);
    steps := [st] + ([st'] + rest);
  }

  lemma Next0(s: State)
    ensures Runs(s, []) && After(s, []) == s
  {
  }

  lemma {:induction false} GoesOn(s: State, t: Tid, first: seq<Pc>, mid: State, second: seq<Pc>, end: State)
    requires Goes(s, t, first, mid) && Goes(mid, t, second, end)
    ensures Goes(s, t, first + second, end)
    decreases first
  {
    hide Enabled, Apply;
    if first == [] {
      assert first + second == second;
    } else {
      assert (first + second)[1..] == first[1..] + second;
      GoesOn(Apply(s, Move(t, first[0], None)), t, first[1..], mid, second, end);
    }
  }

  /** A step outside the manager changes its goroutine and the locks that it takes and gives back. */
  lemma Goes1(s: State, t: Tid, to: Pc)
    requires t in s.threads && Edge(s.threads[t], to) && !UnderGm(s.threads[t])
    requires Wants(s.threads[t]).Some? ==> Wants(s.threads[t]).value !in s.locks
    ensures Goes(s, t, [to], At(s, t, to).(locks := Locks(s.locks, t, s.threads[t], to)))
  {
    var pc, st, s' := s.threads[t], Move(t, to, None), At(s, t, to).(locks := Locks(s.locks, t, s.threads[t], to));
    OthersChangeNothing(s, pc, to);
    assert Enabled(s, st);
    hide Edge, Wants, Holds, Unlocks, Locks, Table, Directory, Agrees, Enabled;
    assert Second(s, pc, None).None?;
    assert Apply(s, st) == s';
    hide Apply;
    assert Moves(t, [to]) == [st] + [];
    Next0(s');
    Next1(s, st, []);
  }

  /** Two steps: a lock is taken, and given back. */
  lemma Goes2(s: State, t: Tid, mid: Pc, to: Pc)
    requires t in s.threads && Edge(s.threads[t], mid) && Edge(mid, to)
    requires Wants(s.threads[t]).Some? && Unlocks(mid, to) == {Wants(s.threads[t]).value} && Wants(mid) == None
    requires Wants(s.threads[t]).value !in s.locks && Wants(s.threads[t]).value != Gm && Unlocks(s.threads[t], mid) == {}
    requires !UnderGm(s.threads[t]) && !UnderGm(mid)
    ensures Goes(s, t, [mid, to], At(s, t, to))
  {
    Goes1(s, t, mid);
    var l := Wants(s.threads[t]).value;
    var s1 := At(s, t, mid).(locks := Locks(s.locks, t, s.threads[t], mid));
    assert s1.locks == s.locks[l := t];
    Goes1(s1, t, to);
    assert Locks(s1.locks, t, mid, to) == s.locks;
    hide Goes, Edge, Locks, Wants, Unlocks, UnderGm;
    GoesOn(s, t, [mid], s1, [to], At(s, t, to));
    assert [mid] + [to] == [mid, to];
  }

  /** A section under g.mu that tries to leave a wake token afterwards. */
  lemma WakingSection(s: State, t: Tid, a: Aid, use: Use, next: Next)
    requires t in s.threads && s.threads[t] == MuLock(a, use, next) && Mu(a) !in s.locks
    requires use == WriteOut || use == StopSection
    ensures Goes(s, t, [MuHeld(a, use, next), WakeSend(a, next), Resume(a, next)], At(s, t, Resume(a, next)))
  {
    hide Resume, SpawnReturn;
    var s1 := At(s, t, WakeSend(a, next));
    Goes2(s, t, MuHeld(a, use, next), WakeSend(a, next));
    Goes1(s1, t, Resume(a, next));
    hide Goes, Edge;
    assert Locks(s1.locks, t, WakeSend(a, next), Resume(a, next)) == s.locks;
    GoesOn(s, t, [MuHeld(a, use, next), WakeSend(a, next)], s1, [Resume(a, next)], At(s, t, Resume(a, next)));
    assert [MuHeld(a, use, next), WakeSend(a, next)] + [Resume(a, next)] == [MuHeld(a, use, next), WakeSend(a, next), Resume(a, next)];
  }

  /** A section under g.mu that wakes nobody. */
  lemma QuietSection(s: State, t: Tid, a: Aid, use: Use, next: Next)
    requires t in s.threads && s.threads[t] == MuLock(a, use, next) && Mu(a) !in s.locks
    requires use != WriteOut && use != StopSection
    ensures Goes(s, t, [MuHeld(a, use, next), Resume(a, next)], At(s, t, Resume(a, next)))
  {
    hide Resume, SpawnReturn;
    Goes2(s, t, MuHeld(a, use, next), Resume(a, next));
  }

  // ---------- the run loop ----------

  /** A step that neither takes nor gives back a lock. */
  lemma Strolls(s: State, t: Tid, to: Pc)
    requires t in s.threads && Edge(s.threads[t], to) && !UnderGm(s.threads[t])
    requires Wants(s.threads[t]) == None && Unlocks(s.threads[t], to) == {}
    ensures Goes(s, t, [to], At(s, t, to))
  {
    Goes1(s, t, to);
    hide Goes, Edge, UnderGm;
    assert Locks(s.locks, t, s.threads[t], to) == s.locks;
  }

  /** A run loop that was started: the state is set, the banner written, a wake tried, and it is at its select. */
  lemma RunLoopStarts(s: State, t: Tid, a: Aid)
    requires t in s.threads && s.threads[t] == MuLock(a, SetState, ToBanner) && Mu(a) !in s.locks
    ensures Goes(s, t, [MuHeld(a, SetState, ToBanner),
                        MuLock(a, WriteOut, ToSelect), MuHeld(a, WriteOut, ToSelect), WakeSend(a, ToSelect),
                        RunSelect(a)], At(s, t, RunSelect(a)))
  {
    hide Goes, Edge, UnderGm;
    var s1 := At(s, t, MuLock(a, WriteOut, ToSelect));
    QuietSection(s, t, a, SetState, ToBanner);
    WakingSection(s1, t, a, WriteOut, ToSelect);
    GoesOn(s, t, [MuHeld(a, SetState, ToBanner), MuLock(a, WriteOut, ToSelect)], s1,
           [MuHeld(a, WriteOut, ToSelect), WakeSend(a, ToSelect), RunSelect(a)], At(s1, t, RunSelect(a)));
    assert At(s1, t, RunSelect(a)) == At(s, t, RunSelect(a));
    assert [MuHeld(a, SetState, ToBanner), MuLock(a, WriteOut, ToSelect)]
           + [MuHeld(a, WriteOut, ToSelect), WakeSend(a, ToSelect), RunSelect(a)]
        == [MuHeld(a, SetState, ToBanner), MuLock(a, WriteOut, ToSelect), MuHeld(a, WriteOut, ToSelect),
            WakeSend(a, ToSelect), RunSelect(a)];
  }

  /** A command that writes one line. */
  lemma LineCommand(s: State, t: Tid, a: Aid)
    requires t in s.threads && s.threads[t] == RunSelect(a) && Mu(a) !in s.locks
    ensures Goes(s, t, [MuLock(a, WriteOut, ToSelect), MuHeld(a, WriteOut, ToSelect), WakeSend(a, ToSelect), RunSelect(a)], s)
  {
    Strolls(s, t, MuLock(a, WriteOut, ToSelect));
    hide Goes, Edge, UnderGm;
    LineWritten(At(s, t, MuLock(a, WriteOut, ToSelect)), t, a);
    assert At(At(s, t, MuLock(a, WriteOut, ToSelect)), t, RunSelect(a)) == s;
    GoesOn(s, t, [MuLock(a, WriteOut, ToSelect)], At(s, t, MuLock(a, WriteOut, ToSelect)),
           [MuHeld(a, WriteOut, ToSelect), WakeSend(a, ToSelect), RunSelect(a)], s);
    assert [MuLock(a, WriteOut, ToSelect)] + [MuHeld(a, WriteOut, ToSelect), WakeSend(a, ToSelect), RunSelect(a)]
        == [MuLock(a, WriteOut, ToSelect), MuHeld(a, WriteOut, ToSelect), WakeSend(a, ToSelect), RunSelect(a)];
  }

  lemma LineWritten(s: State, t: Tid, a: Aid)
    requires t in s.threads && s.threads[t] == MuLock(a, WriteOut, ToSelect) && Mu(a) !in s.locks
    ensures Goes(s, t, [MuHeld(a, WriteOut, ToSelect), WakeSend(a, ToSelect), RunSelect(a)], At(s, t, RunSelect(a)))
  {
    hide Goes;
    WakingSection(s, t, a, WriteOut, ToSelect);
  }

  /** The first half of exec: the state is set, and the command line is next. */
  lemma ExecTaken(s: State, t: Tid, a: Aid)
    requires t in s.threads && s.threads[t] == RunSelect(a) && Mu(a) !in s.locks
    ensures Goes(s, t, [MuLock(a, SetState, ToExecLine), MuHeld(a, SetState, ToExecLine), MuLock(a, WriteOut, ToExecWait)],
                 At(s, t, MuLock(a, WriteOut, ToExecWait)))
  {
    var s1 := At(s, t, MuLock(a, SetState, ToExecLine));
    Strolls(s, t, MuLock(a, SetState, ToExecLine));
    hide Goes, Edge, UnderGm, Wants, Unlocks;
    QuietSection(s1, t, a, SetState, ToExecLine);
    assert At(s1, t, MuLock(a, WriteOut, ToExecWait)) == At(s, t, MuLock(a, WriteOut, ToExecWait));
    GoesOn(s, t, [MuLock(a, SetState, ToExecLine)], s1, [MuHeld(a, SetState, ToExecLine), MuLock(a, WriteOut, ToExecWait)],
           At(s, t, MuLock(a, WriteOut, ToExecWait)));
    assert [MuLock(a, SetState, ToExecLine)] + [MuHeld(a, SetState, ToExecLine), MuLock(a, WriteOut, ToExecWait)]
        == [MuLock(a, SetState, ToExecLine), MuHeld(a, SetState, ToExecLine), MuLock(a, WriteOut, ToExecWait)];
  }

  /** The command exec, up to its wait for the process. */
  lemma ExecCommand(s: State, t: Tid, a: Aid)
    requires t in s.threads && s.threads[t] == RunSelect(a) && Mu(a) !in s.locks
    ensures Goes(s, t, [MuLock(a, SetState, ToExecLine), MuHeld(a, SetState, ToExecLine),
                        MuLock(a, WriteOut, ToExecWait), MuHeld(a, WriteOut, ToExecWait), WakeSend(a, ToExecWait),
                        ExecWait(a)], At(s, t, ExecWait(a)))
  {
    hide Goes;
    var s1 := At(s, t, MuLock(a, WriteOut, ToExecWait));
    ExecTaken(s, t, a);
    WakingSection(s1, t, a, WriteOut, ToExecWait);
    assert At(s1, t, ExecWait(a)) == At(s, t, ExecWait(a));
    var p := [MuLock(a, SetState, ToExecLine), MuHeld(a, SetState, ToExecLine), MuLock(a, WriteOut, ToExecWait)];
    var q := [MuHeld(a, WriteOut, ToExecWait), WakeSend(a, ToExecWait), ExecWait(a)];
    GoesOn(s, t, p, s1, q, At(s, t, ExecWait(a)));
    assert p + q == [MuLock(a, SetState, ToExecLine), MuHeld(a, SetState, ToExecLine), MuLock(a, WriteOut, ToExecWait),
                     MuHeld(a, WriteOut, ToExecWait), WakeSend(a, ToExecWait), ExecWait(a)];
  }

  /** The end of exec: the state is set, and the loop is at its select again. */
  lemma ExecEnds(s: State, t: Tid, a: Aid)
    requires t in s.threads && s.threads[t] == ExecWait(a) && Mu(a) !in s.locks
    ensures Goes(s, t, [MuLock(a, SetState, ToSelect), MuHeld(a, SetState, ToSelect), RunSelect(a)], At(s, t, RunSelect(a)))
  {
    var s1 := At(s, t, MuLock(a, SetState, ToSelect));
    Strolls(s, t, MuLock(a, SetState, ToSelect));
    hide Goes, Edge, UnderGm, Wants, Unlocks;
    QuietSection(s1, t, a, SetState, ToSelect);
    assert At(s1, t, RunSelect(a)) == At(s, t, RunSelect(a));
    GoesOn(s, t, [MuLock(a, SetState, ToSelect)], s1, [MuHeld(a, SetState, ToSelect), RunSelect(a)], At(s, t, RunSelect(a)));
    assert [MuLock(a, SetState, ToSelect)] + [MuHeld(a, SetState, ToSelect), RunSelect(a)]
        == [MuLock(a, SetState, ToSelect), MuHeld(a, SetState, ToSelect), RunSelect(a)];
  }

  /** A run loop that has taken the stop signal: the stop section, a wake, and its deferred Remove. */
  lemma RunLoopStops(s: State, t: Tid, a: Aid, id: string)
    requires t in s.threads && s.threads[t] == MuLock(a, StopSection, ToRemove(id)) && Mu(a) !in s.locks
    ensures Goes(s, t, [MuHeld(a, StopSection, ToRemove(id)), WakeSend(a, ToRemove(id)), RemoveLock(id, Some(a))],
                 At(s, t, RemoveLock(id, Some(a))))
  {
    hide Goes;
    WakingSection(s, t, a, StopSection, ToRemove(id));
  }

  /** A copier that has read a piece of output writes it and reads on. */
  lemma CopierWrites(s: State, t: Tid, a: Aid)
    requires t in s.threads && s.threads[t] == CopierRead(a) && Mu(a) !in s.locks
    ensures Goes(s, t, [MuLock(a, WriteOut, ToCopier), MuHeld(a, WriteOut, ToCopier), WakeSend(a, ToCopier), CopierRead(a)], s)
  {
    var s1 := At(s, t, MuLock(a, WriteOut, ToCopier));
    Strolls(s, t, MuLock(a, WriteOut, ToCopier));
    hide Goes, Edge, UnderGm, Wants, Unlocks;
    WakingSection(s1, t, a, WriteOut, ToCopier);
    assert At(s1, t, CopierRead(a)) == s;
    GoesOn(s, t, [MuLock(a, WriteOut, ToCopier)], s1,
           [MuHeld(a, WriteOut, ToCopier), WakeSend(a, ToCopier), CopierRead(a)], s);
    assert [MuLock(a, WriteOut, ToCopier)] + [MuHeld(a, WriteOut, ToCopier), WakeSend(a, ToCopier), CopierRead(a)]
        == [MuLock(a, WriteOut, ToCopier), MuHeld(a, WriteOut, ToCopier), WakeSend(a, ToCopier), CopierRead(a)];
  }

  // ---------- handlers ----------

  /** The calls that a 9P handler makes with one short section, or with none. */
  lemma HandlersComplete(s: State, t: Tid, a: Aid)
    requires t in s.threads && Mu(a) !in s.locks && ReadersMu(a) !in s.locks
    ensures s.threads[t] == MuLock(a, GetState, Return) ==> Goes(s, t, [MuHeld(a, GetState, Return), Done], At(s, t, Done))
    ensures s.threads[t] == MuLock(a, ArgWrite, Return) ==> Goes(s, t, [MuHeld(a, ArgWrite, Return), Done], At(s, t, Done))
    ensures s.threads[t] == ReadersLock(a) ==> Goes(s, t, [ReadersHeld(a), Done], At(s, t, Done))
    ensures s.threads[t] == CtlSend(a) ==> Goes(s, t, [Done], At(s, t, Done))
  {
    hide Goes;
    if s.threads[t] == MuLock(a, GetState, Return) {
      QuietSection(s, t, a, GetState, Return);
    } else if s.threads[t] == MuLock(a, ArgWrite, Return) {
      QuietSection(s, t, a, ArgWrite, Return);
    } else if s.threads[t] == ReadersLock(a) {
      Goes2(s, t, ReadersHeld(a), Done);
    } else if s.threads[t] == CtlSend(a) {
      Strolls(s, t, Done);
    }
  }

  /** Any handler may make any of its calls at any time. */
  lemma AnyoneMayCall(s: State, t: Tid, pc: Pc, id: string, a: Aid)
    requires t !in s.threads
    requires pc in {SpawnLock(id, None), RemoveLock(id, None), MuLock(a, GetState, Return), MuLock(a, ArgWrite, Return),
                    ReadersLock(a), FetchLock(a), CtlSend(a)}
    ensures Enabled(s, Launch(t, pc)) && Apply(s, Launch(t, pc)) == At(s, t, pc)
  {
  }

  // ---------- readOut ----------

  /** The first lock of a read, taken and given back. */
  lemma OffsetFetched(s: State, t: Tid, a: Aid)
    requires t in s.threads && s.threads[t] == FetchLock(a) && ReadersMu(a) !in s.locks
    ensures Goes(s, t, [FetchHeld(a), CheckLock(a)], At(s, t, CheckLock(a)))
  {
    Goes2(s, t, FetchHeld(a), CheckLock(a));
  }

  /** A check that finds nothing gives g.mu back: the read waits, or has ended. */
  lemma NothingFound(s: State, t: Tid, a: Aid, to: Pc)
    requires t in s.threads && s.threads[t] == CheckLock(a) && Mu(a) !in s.locks && (to == ReadWait(a) || to == Done)
    ensures Goes(s, t, [CheckHeld(a), to], At(s, t, to))
  {
    Goes2(s, t, CheckHeld(a), to);
  }

  lemma CheckEntered(s: State, t: Tid, a: Aid)
    requires t in s.threads && s.threads[t] == CheckLock(a) && Mu(a) !in s.locks
    ensures Goes(s, t, [CheckHeld(a)], At(s, t, CheckHeld(a)).(locks := s.locks[Mu(a) := t]))
  {
    assert Locks(s.locks, t, CheckLock(a), CheckHeld(a)) == s.locks[Mu(a) := t];
    Goes1(s, t, CheckHeld(a));
  }

  /** A check that finds bytes holds g.mu on its way to readersMu. */
  lemma BytesSeen(s: State, t: Tid, a: Aid)
    requires t in s.threads && s.threads[t] == CheckLock(a) && Mu(a) !in s.locks
    ensures Goes(s, t, [CheckHeld(a), RecordLock(a)], At(s, t, RecordLock(a)).(locks := s.locks[Mu(a) := t]))
  {
    var s1 := At(s, t, CheckHeld(a)).(locks := s.locks[Mu(a) := t]);
    CheckEntered(s, t, a);
    Strolls(s1, t, RecordLock(a));
    hide Goes, Edge, UnderGm, Wants, Unlocks, Locks;
    assert At(s1, t, RecordLock(a)) == At(s, t, RecordLock(a)).(locks := s.locks[Mu(a) := t]);
    GoesOn(s, t, [CheckHeld(a)], s1, [RecordLock(a)], At(s1, t, RecordLock(a)));
    assert [CheckHeld(a)] + [RecordLock(a)] == [CheckHeld(a), RecordLock(a)];
  }

  lemma ReadDone(s: State, t: Tid, a: Aid)
    requires t in s.threads && s.threads[t] == RecordDone(a) && Mu(a) in s.locks
    ensures Goes(s, t, [Done], At(s, t, Done).(locks := s.locks - {Mu(a)}))
  {
    assert Locks(s.locks, t, RecordDone(a), Done) == s.locks - {Mu(a)};
    Goes1(s, t, Done);
  }

  lemma OffsetSet(s: State, t: Tid, a: Aid)
    requires t in s.threads && s.threads[t] == RecordLock(a) && ReadersMu(a) !in s.locks
    ensures Goes(s, t, [RecordHeld(a), RecordDone(a)], At(s, t, RecordDone(a)))
  {
    Goes2(s, t, RecordHeld(a), RecordDone(a));
  }

  lemma OffsetRecorded(s: State, t: Tid, a: Aid)
    requires t in s.threads && s.threads[t] == RecordLock(a) && Mu(a) in s.locks && ReadersMu(a) !in s.locks
    ensures Goes(s, t, [RecordHeld(a), RecordDone(a), Done], At(s, t, Done).(locks := s.locks - {Mu(a)}))
  {
    hide Goes;
    var s1, end := At(s, t, RecordDone(a)), At(s, t, Done).(locks := s.locks - {Mu(a)});
    OffsetSet(s, t, a);
    ReadDone(s1, t, a);
    assert At(s1, t, Done).(locks := s.locks - {Mu(a)}) == end;
    GoesOn(s, t, [RecordHeld(a), RecordDone(a)], s1, [Done], end);
    assert [RecordHeld(a), RecordDone(a)] + [Done] == [RecordHeld(a), RecordDone(a), Done];
  }

  /** A check that finds bytes records the offset, with readersMu inside g.mu, and gives both back. */
  lemma BytesFound(s: State, t: Tid, a: Aid)
    requires t in s.threads && s.threads[t] == CheckLock(a) && Mu(a) !in s.locks && ReadersMu(a) !in s.locks
    ensures Goes(s, t, [CheckHeld(a), RecordLock(a), RecordHeld(a), RecordDone(a), Done], At(s, t, Done))
  {
    hide Goes;
    var locked := s.locks[Mu(a) := t];
    var s1 := At(s, t, RecordLock(a)).(locks := locked);
    BytesSeen(s, t, a);
    OffsetRecorded(s1, t, a);
    assert locked - {Mu(a)} == s.locks;
    assert At(s1, t, Done).(locks := s.locks) == At(s, t, Done);
    GoesOn(s, t, [CheckHeld(a), RecordLock(a)], s1, [RecordHeld(a), RecordDone(a), Done], At(s, t, Done));
    assert [CheckHeld(a), RecordLock(a)] + [RecordHeld(a), RecordDone(a), Done]
        == [CheckHeld(a), RecordLock(a), RecordHeld(a), RecordDone(a), Done];
  }

  // ---------- Spawn ----------

  /** Whoever holds gm.mu in Spawn: an id in the table is refused, any other is listed for an agent that is new. */
  lemma SpawnDecides(s: State, st: Step)
    requires Enabled(s, st) && st.Move? && s.threads[st.tid].SpawnHeld?
    ensures var pc := s.threads[st.tid];
            if pc.id in s.agents then Apply(s, st) == At(s, st.tid, SpawnUnlock(pc.caller))
            else st.to.SpawnListed? && st.to.a !in s.ids &&
                 Apply(s, st) == At(s, st.tid, SpawnListed(pc.id, st.to.a, pc.caller)).(
                                   agents := s.agents[pc.id := st.to.a], ids := s.ids[st.to.a := pc.id])
  {
    assert s.locks - {} == s.locks;
  }

  /** What is left of a call of Spawn when it is over: a run loop reports to its client. */
  function SpawnOver(caller: Option<Aid>): Pc {
    match caller
    case None => Done
    case Some(b) => MuLock(b, WriteOut, ToSelect)
  }

  lemma SpawnBegins(s: State, t: Tid, id: string, a: Aid, caller: Option<Aid>)
    requires t in s.threads && s.threads[t] == SpawnLock(id, caller) && Gm !in s.locks && id !in s.agents && a !in s.ids
    ensures var s1 := At(s, t, SpawnHeld(id, caller)).(locks := s.locks[Gm := t]);
            var s2 := At(s1, t, SpawnListed(id, a, caller)).(agents := s.agents[id := a], ids := s.ids[a := id]);
            Enabled(s, Move(t, SpawnHeld(id, caller), None)) && Apply(s, Move(t, SpawnHeld(id, caller), None)) == s1 &&
            Enabled(s1, Move(t, SpawnListed(id, a, caller), None)) && Apply(s1, Move(t, SpawnListed(id, a, caller), None)) == s2
  {
    var s1 := At(s, t, SpawnHeld(id, caller)).(locks := s.locks[Gm := t]);
    assert s.locks - {} == s.locks && s1.locks - {} == s1.locks;
    assert Apply(s, Move(t, SpawnHeld(id, caller), None)) == s1;
    SpawnDecides(s1, Move(t, SpawnListed(id, a, caller), None));
  }

  lemma SpawnShows(s: State, t: Tid, id: string, a: Aid, caller: Option<Aid>)
    requires t in s.threads && s.threads[t] == SpawnListed(id, a, caller)
    ensures Enabled(s, Move(t, SpawnShown(id, a, caller), None))
    ensures Apply(s, Move(t, SpawnShown(id, a, caller), None)) == At(s, t, SpawnShown(id, a, caller)).(children := s.children + {id})
  {
    assert s.locks - {} == s.locks;
  }

  lemma SpawnStarts(s: State, t: Tid, id: string, a: Aid, caller: Option<Aid>, loop: Tid)
    requires t in s.threads && s.threads[t] == SpawnShown(id, a, caller) && loop !in s.threads
    ensures Enabled(s, Move(t, SpawnUnlock(caller), Some(loop)))
    ensures Apply(s, Move(t, SpawnUnlock(caller), Some(loop)))
         == At(At(s, t, SpawnUnlock(caller)), loop, MuLock(a, SetState, ToBanner))
  {
    assert s.locks - {} == s.locks;
  }

  lemma SpawnReleases(s: State, t: Tid, caller: Option<Aid>)
    requires t in s.threads && s.threads[t] == SpawnUnlock(caller)
    ensures Enabled(s, Move(t, SpawnOver(caller), None))
    ensures Apply(s, Move(t, SpawnOver(caller), None)) == At(s, t, SpawnOver(caller)).(locks := s.locks - {Gm})
  {
  }

  /** The second half of Spawn. */
  lemma SpawnFinishes(s: State, t: Tid, id: string, a: Aid, caller: Option<Aid>, loop: Tid) returns (steps: seq<Step>)
    requires t in s.threads && s.threads[t] == SpawnListed(id, a, caller) && loop !in s.threads
    ensures |steps| == 3 && Runs(s, steps)
    ensures After(s, steps) ==
              s.(children := s.children + {id}, locks := s.locks - {Gm},
                 threads := s.threads[t := SpawnOver(caller)][loop := MuLock(a, SetState, ToBanner)])
  {
    hide Enabled, Apply, SpawnOver, Runs, After;
    var s1 := At(s, t, SpawnShown(id, a, caller)).(children := s.children + {id});
    var s2 := At(At(s1, t, SpawnUnlock(caller)), loop, MuLock(a, SetState, ToBanner));
    var s3 := At(s2, t, SpawnOver(caller)).(locks := s.locks - {Gm});
    SpawnShows(s, t, id, a, caller);
    SpawnStarts(s1, t, id, a, caller, loop);
    SpawnReleases(s2, t, caller);
    assert s3.threads == s.threads[t := SpawnOver(caller)][loop := MuLock(a, SetState, ToBanner)];
    hide At;
    Next0(s3);
    Next1(s2, Move(t, SpawnOver(caller), None), []);
    steps := [Move(t, SpawnOver(caller), None)] + [];
    Next1(s1, Move(t, SpawnUnlock(caller), Some(loop)), steps);
    steps := [Move(t, SpawnUnlock(caller), Some(loop))] + steps;
    Next1(s, Move(t, SpawnShown(id, a, caller), None), steps);
    steps := [Move(t, SpawnShown(id, a, caller), None)] + steps;
  }

  /**
   Spawn of an id that is free: the table and the directory gain it, for an agent that is new, and a
   goroutine is started that is at the beginning of its run loop. Locks and everything else are as before.
   */
  lemma SpawnCompletes(s: State, t: Tid, id: string, a: Aid, caller: Option<Aid>, loop: Tid) returns (steps: seq<Step>)
    requires t in s.threads && s.threads[t] == SpawnLock(id, caller) && Gm !in s.locks
    requires id !in s.agents && a !in s.ids && loop !in s.threads
    ensures |steps| == 5 && Runs(s, steps)
    ensures After(s, steps) ==
              s.(agents := s.agents[id := a], children := s.children + {id}, ids := s.ids[a := id],
                 threads := s.threads[t := SpawnOver(caller)][loop := MuLock(a, SetState, ToBanner)])
  {
    hide Enabled, Apply, SpawnOver, Runs, After;
    var s1 := At(s, t, SpawnHeld(id, caller)).(locks := s.locks[Gm := t]);
    var s2 := At(s1, t, SpawnListed(id, a, caller)).(agents := s.agents[id := a], ids := s.ids[a := id]);
    SpawnBegins(s, t, id, a, caller);
    var rest := SpawnFinishes(s2, t, id, a, caller, loop);
    assert s2.locks - {Gm} == s.locks;
    assert s2.threads[t := SpawnOver(caller)] == s.threads[t := SpawnOver(caller)];
    hide At;
    steps := TwoThen(s, Move(t, SpawnHeld(id, caller), None), Move(t, SpawnListed(id, a, caller), None), rest);
  }

  /** A run loop takes the command spawn. */
  lemma SpawnTaken(s: State, t: Tid, b: Aid, id: string)
    requires t in s.threads && s.threads[t] == RunSelect(b)
    ensures Enabled(s, Move(t, SpawnLock(id, Some(b)), None))
    ensures Apply(s, Move(t, SpawnLock(id, Some(b)), None)) == At(s, t, SpawnLock(id, Some(b)))
  {
    assert s.locks - {} == s.locks;
  }

  lemma {:induction false} RunsConcat(s: State, first: seq<Step>, second: seq<Step>)
    requires Runs(s, first) && Runs(After(s, first), second)
    ensures Runs(s, first + second) && After(s, first + second) == After(After(s, first), second)
    decreases first
  {
    hide Enabled, Apply;
    if first == [] {
      assert first + second == second;
    } else {
      assert (first + second)[1..] == first[1..] + second;
      RunsConcat(Apply(s, first[0]), first[1..], second);
    }
  }

  /**
   The command spawn, from its receipt by the run loop of agent b until that is at its select again: the new
   agent is in the table and in the directory, and its run loop has been started.
   */
  lemma SpawnCommand(s: State, t: Tid, b: Aid, id: string, a: Aid, loop: Tid) returns (steps: seq<Step>)
    requires t in s.threads && s.threads[t] == RunSelect(b) && Gm !in s.locks && Mu(b) !in s.locks
    requires id !in s.agents && a !in s.ids && loop !in s.threads
    ensures Runs(s, steps) && |steps| == 9
    ensures After(s, steps) ==
              s.(agents := s.agents[id := a], children := s.children + {id}, ids := s.ids[a := id],
                 threads := s.threads[loop := MuLock(a, SetState, ToBanner)])
  {
    hide Enabled, Apply, Runs, After;
    SpawnTaken(s, t, b, id);
    var s1 := At(s, t, SpawnLock(id, Some(b)));
    var first := SpawnCompletes(s1, t, id, a, Some(b), loop);
    var s2 := After(s1, first);
    LineGoes(s2, t, b);
    assert s2.threads[t := RunSelect(b)] == s.threads[loop := MuLock(a, SetState, ToBanner)];
    var last := Moves(t, [MuHeld(b, WriteOut, ToSelect), WakeSend(b, ToSelect), RunSelect(b)]);
    RunsConcat(s1, first, last);
    Next1(s, Move(t, SpawnLock(id, Some(b)), None), first + last);
    steps := [Move(t, SpawnLock(id, Some(b)), None)] + (first + last);
  }

  lemma LineGoes(s: State, t: Tid, a: Aid)
    requires t in s.threads && s.threads[t] == MuLock(a, WriteOut, ToSelect) && Mu(a) !in s.locks
    ensures var steps := Moves(t, [MuHeld(a, WriteOut, ToSelect), WakeSend(a, ToSelect), RunSelect(a)]);
            Runs(s, steps) && After(s, steps) == At(s, t, RunSelect(a))
  {
    hide Runs, After;
    LineWritten(s, t, a);
  }

  // ---------- Remove ----------

  /** Whoever holds gm.mu in Remove: an id that is not in the table is refused, the agent of any other is signalled. */
  lemma RemoveDecides(s: State, st: Step)
    requires Enabled(s, st) && st.Move? && s.threads[st.tid].RemoveHeld?
    ensures var pc := s.threads[st.tid];
            Apply(s, st) == At(s, st.tid, if pc.id in s.agents then RemoveSignal(pc.id, s.agents[pc.id], pc.caller)
                                          else RemoveUnlock)
  {
    assert s.locks - {} == s.locks;
  }

  lemma RemoveBegins(s: State, t: Tid, id: string, caller: Option<Aid>)
    requires t in s.threads && s.threads[t] == RemoveLock(id, caller) && Gm !in s.locks
    ensures var s1 := At(s, t, RemoveHeld(id, caller)).(locks := s.locks[Gm := t]);
            var to := if id in s.agents then RemoveSignal(id, s.agents[id], caller) else RemoveUnlock;
            Enabled(s, Move(t, RemoveHeld(id, caller), None)) && Apply(s, Move(t, RemoveHeld(id, caller), None)) == s1 &&
            Enabled(s1, Move(t, to, None)) && Apply(s1, Move(t, to, None)) == At(s1, t, to)
  {
    var s1 := At(s, t, RemoveHeld(id, caller)).(locks := s.locks[Gm := t]);
    assert s.locks - {} == s.locks && s1.locks - {} == s1.locks;
    assert Apply(s, Move(t, RemoveHeld(id, caller), None)) == s1;
    RemoveDecides(s1, Move(t, if id in s.agents then RemoveSignal(id, s.agents[id], caller) else RemoveUnlock, None));
  }

  /** The one chance of the signal: to is the run loop that takes it, if that waits and is the one that does. */
  lemma RemoveSignals(s: State, t: Tid, id: string, a: Aid, caller: Option<Aid>, to: Option<Tid>)
    requires t in s.threads && s.threads[t] == RemoveSignal(id, a, caller)
    requires a in s.ids && s.ids[a] == id
    requires to.Some? ==> to.value in s.threads && s.threads[to.value] == RunSelect(a)
    ensures var st := Move(t, RemoveDelist(id, a, caller), to);
            Enabled(s, st) && Apply(s, st) == Signalled(At(s, t, RemoveDelist(id, a, caller)), id, a, to)
  {
    assert s.locks - {} == s.locks;
  }

  function Signalled(s: State, id: string, a: Aid, to: Option<Tid>): State {
    match to
    case None => s
    case Some(u) => At(s, u, MuLock(a, StopSection, ToRemove(id)))
  }

  lemma RemoveDelists(s: State, t: Tid, id: string, a: Aid, caller: Option<Aid>)
    requires t in s.threads && s.threads[t] == RemoveDelist(id, a, caller)
    ensures var s1 := At(s, t, RemoveHide(id, caller)).(agents := s.agents - {id});
            var s2 := At(s1, t, RemoveUnlock).(children := s.children - {id});
            Enabled(s, Move(t, RemoveHide(id, caller), None)) && Apply(s, Move(t, RemoveHide(id, caller), None)) == s1 &&
            Enabled(s1, Move(t, RemoveUnlock, None)) && Apply(s1, Move(t, RemoveUnlock, None)) == s2
  {
    assert s.locks - {} == s.locks;
  }

  lemma RemoveReleases(s: State, t: Tid)
    requires t in s.threads && s.threads[t] == RemoveUnlock
    ensures Enabled(s, Move(t, Done, None)) && Apply(s, Move(t, Done, None)) == At(s, t, Done).(locks := s.locks - {Gm})
  {
  }

  /** Remove of an id that is not there changes nothing. */
  lemma RemoveRefuses(s: State, t: Tid, id: string, caller: Option<Aid>) returns (steps: seq<Step>)
    requires t in s.threads && s.threads[t] == RemoveLock(id, caller) && Gm !in s.locks && id !in s.agents
    ensures |steps| == 3 && Runs(s, steps) && After(s, steps) == At(s, t, Done)
  {
    hide Enabled, Apply, Runs, After;
    RemoveBegins(s, t, id, caller);
    var s1 := At(s, t, RemoveHeld(id, caller)).(locks := s.locks[Gm := t]);
    var s2 := At(s1, t, RemoveUnlock);
    var s3 := At(s2, t, Done).(locks := s2.locks - {Gm});
    RemoveReleases(s2, t);
    assert s3 == At(s, t, Done) by {
      assert s2.locks - {Gm} == s.locks;
    }
    Next0(s3);
    Next1(s2, Move(t, Done, None), []);
    steps := [Move(t, Done, None)] + [];
    Next1(s1, Move(t, RemoveUnlock, None), steps);
    steps := [Move(t, RemoveUnlock, None)] + steps;
    Next1(s, Move(t, RemoveHeld(id, caller), None), steps);
    steps := [Move(t, RemoveHeld(id, caller), None)] + steps;
  }

  /** The second half of Remove. */
  lemma RemoveFinishes(s: State, t: Tid, id: string, a: Aid, caller: Option<Aid>) returns (steps: seq<Step>)
    requires t in s.threads && s.threads[t] == RemoveDelist(id, a, caller)
    ensures |steps| == 3 && Runs(s, steps)
    ensures After(s, steps) ==
              At(s, t, Done).(agents := s.agents - {id}, children := s.children - {id}, locks := s.locks - {Gm})
  {
    hide Enabled, Apply, Runs, After;
    RemoveDelists(s, t, id, a, caller);
    var s1 := At(s, t, RemoveHide(id, caller)).(agents := s.agents - {id});
    var s2 := At(s1, t, RemoveUnlock).(children := s.children - {id});
    RemoveReleases(s2, t);
    Next0(At(s2, t, Done).(locks := s.locks - {Gm}));
    Next1(s2, Move(t, Done, None), []);
    steps := [Move(t, Done, None)] + [];
    Next1(s1, Move(t, RemoveUnlock, None), steps);
    steps := [Move(t, RemoveUnlock, None)] + steps;
    Next1(s, Move(t, RemoveHide(id, caller), None), steps);
    steps := [Move(t, RemoveHide(id, caller), None)] + steps;
  }

  lemma SignalledAndOff(s: State, id: string, a: Aid, caller: Option<Aid>, t: Tid, to: Option<Tid>)
    requires t in s.threads && to != Some(t)
    ensures var s3 := Signalled(At(s, t, RemoveDelist(id, a, caller)), id, a, to);
            t in s3.threads && s3.threads[t] == RemoveDelist(id, a, caller) && s3.locks == s.locks
    ensures var s3 := Signalled(At(s, t, RemoveDelist(id, a, caller)), id, a, to);
            At(s3, t, Done).(agents := s3.agents - {id}, children := s3.children - {id}, locks := s3.locks - {Gm}) ==
              Signalled(At(s, t, Done).(agents := s.agents - {id}, children := s.children - {id}, locks := s.locks - {Gm}),
                        id, a, to)
  {
    var s3 := Signalled(At(s, t, RemoveDelist(id, a, caller)), id, a, to);
    if to.Some? {
      assert At(s3, t, Done).threads == s.threads[t := Done][to.value := MuLock(a, StopSection, ToRemove(id))];
    }
  }

  /** From the signal to the end of Remove. */
  lemma SignalledToEnd(s: State, t: Tid, id: string, a: Aid, caller: Option<Aid>, to: Option<Tid>) returns (steps: seq<Step>)
    requires t in s.threads && s.threads[t] == RemoveSignal(id, a, caller) && a in s.ids && s.ids[a] == id
    requires to.Some? ==> to.value in s.threads && s.threads[to.value] == RunSelect(a)
    ensures |steps| == 4 && Runs(s, steps)
    ensures After(s, steps) ==
              Signalled(At(s, t, Done).(agents := s.agents - {id}, children := s.children - {id}, locks := s.locks - {Gm}),
                        id, a, to)
  {
    hide Enabled, Apply, Runs, After, Signalled;
    RemoveSignals(s, t, id, a, caller, to);
    SignalledAndOff(s, id, a, caller, t, to);
    var s3 := Signalled(At(s, t, RemoveDelist(id, a, caller)), id, a, to);
    hide At;
    var rest := RemoveFinishes(s3, t, id, a, caller);
    Next1(s, Move(t, RemoveDelist(id, a, caller), to), rest);
    steps := [Move(t, RemoveDelist(id, a, caller), to)] + rest;
  }

  /**
   Remove of an id that is there: the table and the directory lose it, and the run loop of its agent, if it
   takes the signal, is on its way to the stop section and to a Remove of the same id. Nothing else changes.
   */
  lemma RemoveCompletes(s: State, t: Tid, id: string, caller: Option<Aid>, to: Option<Tid>) returns (steps: seq<Step>)
    requires Filed(s) && t in s.threads && s.threads[t] == RemoveLock(id, caller) && Gm !in s.locks && id in s.agents
    requires to.Some? ==> to.value in s.threads && s.threads[to.value] == RunSelect(s.agents[id])
    ensures |steps| == 6 && Runs(s, steps)
    ensures After(s, steps) ==
              Signalled(At(s, t, Done).(agents := s.agents - {id}, children := s.children - {id}), id, s.agents[id], to)
  {
    hide Enabled, Apply, Runs, After, Filed, Signalled;
    var a := s.agents[id];
    var s1 := At(s, t, RemoveHeld(id, caller)).(locks := s.locks[Gm := t]);
    var s2 := At(s1, t, RemoveSignal(id, a, caller));
    FiledAt(s, id);
    RemoveBegins(s, t, id, caller);
    assert s2.locks - {Gm} == s.locks;
    assert At(s2, t, Done).threads == At(s, t, Done).threads;
    var rest := SignalledToEnd(s2, t, id, a, caller, to);
    hide At;
    steps := TwoThen(s, Move(t, RemoveHeld(id, caller), None), Move(t, RemoveSignal(id, a, caller), None), rest);
  }

  lemma FiledAt(s: State, id: string)
    requires Filed(s) && id in s.agents
    ensures s.agents[id] in s.ids && s.ids[s.agents[id]] == id
  {
  }
}
