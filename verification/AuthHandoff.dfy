/**
 What the authentication proxy guarantees: which bytes leave the wire, which
 conversations with factotum are possible, and how far a phase can go.
 */
module AuthHandoff {
  import opened Bytes
  import opened Wire
  import opened AuthInfo
  import opened AuthProxy

  // ---------- reading the log ----------

  /** The payloads factotum took: arguments of writes that it answered ok. */
  function Accepted(log: seq<Exchange>): seq<seq<Byte>> {
    if log == [] then []
    else
      var x := log[|log| - 1];
      Accepted(log[..|log| - 1]) + if x.verb == Write && x.ret == Ok then [x.arg] else []
  }

  /** The payloads factotum gave for the wire: arguments of ok answers to a read. */
  function Emitted(log: seq<Exchange>): seq<seq<Byte>> {
    if log == [] then []
    else
      var x := log[|log| - 1];
      Emitted(log[..|log| - 1]) + if x.verb == Read && x.ret == Ok then [x.reply] else []
  }

  lemma LogGrows(log: seq<Exchange>, x: Exchange)
    ensures Accepted(log + [x]) == if x.verb == Write && x.ret == Ok then Accepted(log) + [x.arg] else Accepted(log)
    ensures Emitted(log + [x]) == if x.verb == Read && x.ret == Ok then Emitted(log) + [x.reply] else Emitted(log)
  {
    var l := log + [x];
    assert l[..|l| - 1] == log;
  }

  // ---------- byte-exact consumption ----------

  /** What has left the wire is what factotum took, then what it has not taken (yet). */
  ghost predicate Accounted(all: seq<Byte>, w: World, held: seq<Byte>) {
    all == Concat(Accepted(w.log)) + held + w.stream
  }

  lemma Transfer(all: seq<Byte>, w: World, held: seq<Byte>, k: nat)
    requires Accounted(all, w, held) && k <= |w.stream|
    ensures Accounted(all, w.(stream := w.stream[k..]), held + w.stream[..k])
  {
    hide Concat, Accepted;
    assert w.stream == w.stream[..k] + w.stream[k..];
  }

  lemma WriteAccounts(all: seq<Byte>, w: World, held: seq<Byte>)
    requires Accounted(all, w, held)
    ensures var (w1, x) := Call(w, Write, held); Accounted(all, w1, if x.ret == Ok then [] else held)
  {
    hide Ask, Accepted, Emitted;
    var (w1, x) := Call(w, Write, held);
    LogGrows(w.log, x);
    if x.ret == Ok {
      ConcatSnoc(Accepted(w.log), held);
    }
  }

  lemma {:induction false} PhaseAccounts(all: seq<Byte>, w: World, held: seq<Byte>)
    requires |held| <= RPC_MAX && Accounted(all, w, held)
    ensures var (w', failed) := PhaseLoop(w, held);
            (failed.None? ==> Accounted(all, w', [])) && (exists lost :: |lost| <= RPC_MAX && Accounted(all, w', lost))
    decreases RPC_MAX - |held|
  {
    hide Ask, Atoi, TrimSpace, Accounted;
    WriteAccounts(all, w, held);
    var (w1, x) := Call(w, Write, held);
    if x.ret == TooSmall {
      var count := Atoi(TrimSpace(x.reply));
      if count.Some? && |held| < count.value <= RPC_MAX {
        var more := count.value - |held|;
        var k := if |w1.stream| < more then |w1.stream| else more;
        Transfer(all, w1, held, k);
        if |w1.stream| < more {
          assert w1.stream[k..] == [];
        } else {
          PhaseAccounts(all, w1.(stream := w1.stream[more..]), held + w1.stream[..more]);
        }
      }
    }
  }

  lemma {:induction false} ConverseAccounts(all: seq<Byte>, w: World)
    requires Accounted(all, w, [])
    ensures var (w', out) := Converse(w);
            (out.Granted? ==> Accounted(all, w', [])) && (exists lost :: |lost| <= RPC_MAX && Accounted(all, w', lost))
    decreases |w.script|
  {
    hide Ask, TooBig, ConvM2AI, PhaseLoop, Concat, Accepted, Emitted;
    var (w1, x) := Call(w, Read, []);
    LogGrows(w.log, x);
    assert Accounted(all, w1, []);
    match x.ret
    case Done =>
      var (w2, y) := Call(w1, GetInfo, []);
      LogGrows(w1.log, y);
      assert Accounted(all, w2, []);
    case Ok =>
      if 0 < w1.writable {
        var w2 := w1.(sent := w1.sent + [x.reply], writable := w1.writable - 1);
        assert Accounted(all, w2, []);
        ConverseAccounts(all, w2);
      }
    case Phase =>
      PhaseAccounts(all, w1, []);
      var (w2, failed) := PhaseLoop(w1, []);
      if failed.None? {
        ConverseAccounts(all, w2);
      }
    case _ =>
  }

  lemma {:induction false} PhaseIsSilent(w: World, held: seq<Byte>)
    requires |held| <= RPC_MAX
    ensures var (w', _) := PhaseLoop(w, held); w'.sent == w.sent && Emitted(w'.log) == Emitted(w.log)
    decreases RPC_MAX - |held|
  {
    hide Ask, Atoi, TrimSpace, Accepted, Emitted;
    var (w1, x) := Call(w, Write, held);
    LogGrows(w.log, x);
    if x.ret == TooSmall {
      var count := Atoi(TrimSpace(x.reply));
      if count.Some? && |held| < count.value <= RPC_MAX && count.value - |held| <= |w1.stream| {
        var more := count.value - |held|;
        PhaseIsSilent(w1.(stream := w1.stream[more..]), held + w1.stream[..more]);
      }
    }
  }

  lemma {:induction false} ConverseEmits(before: seq<seq<Byte>>, w: World)
    requires w.sent == before + Emitted(w.log)
    ensures var (w', out) := Converse(w);
            w'.sent <= before + Emitted(w'.log) && (out.Granted? ==> w'.sent == before + Emitted(w'.log))
    decreases |w.script|
  {
    hide Ask, TooBig, ConvM2AI, PhaseLoop, Accepted, Emitted;
    var (w1, x) := Call(w, Read, []);
    LogGrows(w.log, x);
    match x.ret
    case Done =>
      var (w2, y) := Call(w1, GetInfo, []);
      LogGrows(w1.log, y);
    case Ok =>
      if 0 < w1.writable {
        var w2 := w1.(sent := w1.sent + [x.reply], writable := w1.writable - 1);
        assert w2.sent == before + Emitted(w2.log);
        ConverseEmits(before, w2);
      }
    case Phase =>
      PhaseIsSilent(w1, []);
      var (w2, failed) := PhaseLoop(w1, []);
      if failed.None? {
        ConverseEmits(before, w2);
      }
    case _ =>
  }

  /**
   Byte-exact handoff: whatever factotum answers, when the proxy succeeds the
   wire has lost exactly the payloads factotum took, in order, and has been sent
   exactly the payloads factotum gave. When it fails, the payloads taken are
   still the first bytes that left the wire, and one buffer at most is lost after
   them.
   */
  lemma ByteExact(w: World, params: seq<Byte>)
    requires w.log == []
    ensures var (w', out) := Proxy(w, params);
            (out.Granted? ==>
               w.stream == Concat(Accepted(w'.log)) + w'.stream && w'.sent == w.sent + Emitted(w'.log)) &&
            (exists lost :: |lost| <= RPC_MAX && w.stream == Concat(Accepted(w'.log)) + lost + w'.stream) &&
            w'.sent <= w.sent + Emitted(w'.log)
  {
    hide Ask, Converse;
    var (w1, x) := Call(w, Start, params);
    LogGrows(w.log, x);
    assert Accounted(w.stream, w1, []);
    if x.ret == Ok {
      ConverseAccounts(w.stream, w1);
      ConverseEmits(w.sent, w1);
      var (w', out) := Proxy(w, params);
      var lost :| |lost| <= RPC_MAX && Accounted(w.stream, w', lost);
      assert w.stream == Concat(Accepted(w'.log)) + lost + w'.stream;
      if out.Granted? {
        assert Accounted(w.stream, w', []);
        assert Concat(Accepted(w'.log)) + [] == Concat(Accepted(w'.log));
      }
    }
  }

  /** One turn of a phase that asks for more and gets it. */
  lemma PhaseGoesOn(w: World, held: seq<Byte>, need: nat)
    requires |held| < need <= RPC_MAX && need - |held| <= |w.stream|
    requires var x := Call(w, Write, held).1; x.ret == TooSmall && Atoi(TrimSpace(x.reply)) == Some(need)
    ensures var w1, more := Call(w, Write, held).0, need - |held|;
            PhaseLoop(w, held) == PhaseLoop(w1.(stream := w1.stream[more..]), held + w1.stream[..more])
  {
    hide Ask, Atoi, TrimSpace;
  }

  // ---------- which conversations are possible ----------

  /** Where a conversation stands. Wrong is a conversation the protocol does not allow. */
  datatype Stage = Opening | Reading | InPhase | Finishing | Complete | Stopped | Wrong

  function Advance(s: Stage, x: Exchange): Stage {
    match (s, x.verb)
    case (Opening, Start) => if x.ret == Ok then Reading else Stopped
    case (Reading, Read) =>
      if x.ret == Ok then Reading
      else if x.ret == Phase then InPhase
      else if x.ret == Done then Finishing
      else Stopped
    case (InPhase, Write) => if x.ret == TooSmall then InPhase else if x.ret == Ok then Reading else Stopped
    case (Finishing, GetInfo) => if x.ret == Ok then Complete else Stopped
    case _ => Wrong
  }

  /** Stages a conversation can end in; Opening would mean that nothing was asked. */
  predicate Followed(s: Stage) { s.Reading? || s.InPhase? || s.Complete? || s.Stopped? }

  function StageOf(log: seq<Exchange>): Stage {
    if log == [] then Opening else Advance(StageOf(log[..|log| - 1]), log[|log| - 1])
  }

  lemma StageGrows(log: seq<Exchange>, x: Exchange)
    ensures StageOf(log + [x]) == Advance(StageOf(log), x)
  {
    var l := log + [x];
    assert l[..|l| - 1] == log;
  }

  lemma {:induction false} PhaseStages(w: World, held: seq<Byte>)
    requires |held| <= RPC_MAX && StageOf(w.log) == InPhase
    ensures var (w', failed) := PhaseLoop(w, held);
            if failed.None? then StageOf(w'.log) == Reading else StageOf(w'.log).InPhase? || StageOf(w'.log).Stopped?
    decreases RPC_MAX - |held|
  {
    hide Ask, Atoi, TrimSpace, ConvM2AI, StageOf;
    var (w1, x) := Call(w, Write, held);
    StageGrows(w.log, x);
    if x.ret == TooSmall {
      var count := Atoi(TrimSpace(x.reply));
      if count.Some? && |held| < count.value <= RPC_MAX && count.value - |held| <= |w1.stream| {
        var more := count.value - |held|;
        PhaseStages(w1.(stream := w1.stream[more..]), held + w1.stream[..more]);
      }
    }
  }

  lemma {:induction false} ConverseStages(w: World)
    requires StageOf(w.log) == Reading
    ensures var (w', out) := Converse(w);
            Followed(StageOf(w'.log)) &&
            (out.Granted? <==> StageOf(w'.log) == Complete) &&
            (out.Granted? ==> 0 < |w'.log| && out.info == ConvM2AI(w'.log[|w'.log| - 1].reply))
    decreases |w.script|
  {
    hide Ask, PhaseLoop, ConvM2AI, StageOf, TooBig, VerbName;
    var (w1, x) := Call(w, Read, []);
    StageGrows(w.log, x);
    match x.ret
    case Done =>
      var (w2, y) := Call(w1, GetInfo, []);
      StageGrows(w1.log, y);
    case Ok =>
      if 0 < w1.writable {
        ConverseStages(w1.(sent := w1.sent + [x.reply], writable := w1.writable - 1));
      }
    case Phase =>
      PhaseStages(w1, []);
      var (w2, failed) := PhaseLoop(w1, []);
      if failed.None? {
        ConverseStages(w2);
      }
    case _ =>
  }

  /**
   Every conversation follows the protocol up to its first failing exchange,
   and an AuthInfo is handed out if and only if it was followed to the end.
   */
  lemma ConversationIsLegal(w: World, params: seq<Byte>)
    requires w.log == []
    ensures var (w', out) := Proxy(w, params);
            Followed(StageOf(w'.log)) &&
            (out.Granted? <==> StageOf(w'.log) == Complete) &&
            (out.Granted? ==> 0 < |w'.log| && out.info == ConvM2AI(w'.log[|w'.log| - 1].reply))
  {
    hide Ask, Atoi, TrimSpace, ConvM2AI;
    var (w1, x) := Call(w, Start, params);
    StageGrows(w.log, x);
    if x.ret == Ok {
      ConverseStages(w1);
    }
  }

  // ---------- how far a phase goes ----------

  /**
   The writes of one phase: the first offers what is held, each later one more
   of the stream than the one before it, never past the buffer.
   */
  ghost predicate Growing(writes: seq<Exchange>, held: seq<Byte>, stream: seq<Byte>) {
    0 < |writes| && writes[0].arg == held
    && (forall k :: 0 <= k < |writes| ==>
          writes[k].verb == Write && |writes[k].arg| <= RPC_MAX && writes[k].arg <= held + stream)
    && (forall i, k :: 0 <= i < k < |writes| ==> |writes[i].arg| < |writes[k].arg| && writes[i].ret == TooSmall)
  }

  lemma WriteFits(script: seq<Answer>, held: seq<Byte>)
    ensures Ask(script, Write, held).0 != RpcFailure ==> |held| <= 4090
  {
  }

  /**
   Against any peer a phase makes at most 4097 writes, each of them exactly the
   bytes read since the phase began, each longer than the last; one that is
   accepted carries at most 4090 bytes.
   */
  lemma {:induction false} PhaseGrows(w: World, held: seq<Byte>) returns (writes: seq<Exchange>)
    requires |held| <= RPC_MAX
    ensures 0 < |writes| <= RPC_MAX - |held| + 1
    ensures var (w', failed) := PhaseLoop(w, held);
            w'.log == w.log + writes && Growing(writes, held, w.stream) &&
            (failed.None? ==>
               var last := writes[|writes| - 1];
               last.ret == Ok && |last.arg| <= 4090 && last.arg + w'.stream == held + w.stream)
    decreases RPC_MAX - |held|
  {
    WriteFits(w.script, held);
    hide Ask, Atoi, TrimSpace, Growing, TooBig, VerbName;
    var (w1, x) := Call(w, Write, held);
    writes := [x];
    GrowingOne(x, held, w.stream);
    if x.ret == TooSmall {
      var count := Atoi(TrimSpace(x.reply));
      if count.Some? && |held| < count.value <= RPC_MAX && count.value - |held| <= |w1.stream| {
        var more := count.value - |held|;
        var held' := held + w1.stream[..more];
        var w2 := w1.(stream := w1.stream[more..]);
        var rest := PhaseGrows(w2, held');
        assert held + w.stream == held' + w2.stream;
        writes := [x] + rest;
        assert w.log + writes == w1.log + rest;
        assert writes[|writes| - 1] == rest[|rest| - 1];
        GrowingCons(x, rest, held, held', w.stream, w2.stream);
      }
    }
  }

  lemma GrowingOne(x: Exchange, held: seq<Byte>, s: seq<Byte>)
    requires x.verb == Write && x.arg == held && |held| <= RPC_MAX
    ensures Growing([x], held, s)
  {
    assert held <= held + s;
  }

  lemma GrowingCons(x: Exchange, rest: seq<Exchange>, held: seq<Byte>, held': seq<Byte>, s: seq<Byte>, s': seq<Byte>)
    requires Growing(rest, held', s') && held + s == held' + s' && |held| < |held'|
    requires x.verb == Write && x.arg == held && x.ret == TooSmall && |held| <= RPC_MAX
    ensures Growing([x] + rest, held, s)
  {
    var writes := [x] + rest;
    assert held <= held + s;
    forall i, k | 0 <= i < k < |writes| ensures |writes[i].arg| < |writes[k].arg| && writes[i].ret == TooSmall {
      assert writes[k] == rest[k - 1];
      if 0 < i {
        assert writes[i] == rest[i - 1];
      } else if 1 < k {
        assert |rest[0].arg| < |rest[k - 1].arg|;
      }
    }
  }

  // ---------- negotiation and the whole handshake ----------

  function Offer(domain: seq<Byte>): seq<Byte> { Ascii("v.2 dp9ik@") + domain + [0] }

  function Confirmation(): seq<Byte> { Ascii("OK") + [0] }

  /** Reads byte by byte up to the first NUL. */
  method ReadChoice(conn: Conn) returns (choice: Option<seq<Byte>>)
    modifies conn`chunks
    ensures choice.Some? <==> 0 in old(conn.Stream())
    ensures choice.Some? ==> 0 !in choice.value && old(conn.Stream()) == choice.value + [0] + conn.Stream()
    ensures choice.None? ==> conn.Stream() == []
  {
    hide Concat, ReadOnce;
    var chosen: seq<Byte> := [];
    while true
      invariant 0 !in chosen && old(conn.Stream()) == chosen + conn.Stream()
      decreases |conn.Stream()|
    {
      ghost var before := conn.Stream();
      var b := NextByte(conn);
      if b.None? {
        return None;
      }
      if b.value == 0 {
        break;
      }
      assert before == [b.value] + conn.Stream();
      chosen := chosen + [b.value];
    }
    return Some(chosen);
  }

  method NextByte(conn: Conn) returns (b: Option<Byte>)
    modifies conn`chunks
    ensures b.None? ==> old(conn.Stream()) == [] && conn.Stream() == []
    ensures b.Some? ==> old(conn.Stream()) == [b.value] + conn.Stream()
  {
    var got := conn.Read(1);
    return if got.None? then None else Some(got.value[0]);
  }

  lemma {:induction false} PhaseAppends(w: World, held: seq<Byte>)
    requires |held| <= RPC_MAX
    ensures w.log <= PhaseLoop(w, held).0.log
    decreases RPC_MAX - |held|
  {
    hide Ask, Atoi, TrimSpace;
    var (w1, x) := Call(w, Write, held);
    if x.ret == TooSmall {
      var count := Atoi(TrimSpace(x.reply));
      if count.Some? && |held| < count.value <= RPC_MAX && count.value - |held| <= |w1.stream| {
        var more := count.value - |held|;
        PhaseAppends(w1.(stream := w1.stream[more..]), held + w1.stream[..more]);
      }
    }
  }

  lemma {:induction false} ConverseAppends(w: World)
    ensures w.log <= Converse(w).0.log
    decreases |w.script|
  {
    hide Ask, ConvM2AI, PhaseLoop;
    var (w1, x) := Call(w, Read, []);
    match x.ret
    case Ok =>
      if 0 < w1.writable {
        ConverseAppends(w1.(sent := w1.sent + [x.reply], writable := w1.writable - 1));
      }
    case Phase =>
      PhaseAppends(w1, []);
      var (w2, failed) := PhaseLoop(w1, []);
      if failed.None? {
        ConverseAppends(w2);
      }
    case _ =>
  }

  lemma FirstIsStart(w: World, params: seq<Byte>)
    requires w.log == []
    ensures var log := Proxy(w, params).0.log; log != [] && log[0].verb == Start && log[0].arg == params
  {
    hide Ask, Converse;
    var (w1, x) := Call(w, Start, params);
    assert w1.log == [x];
    ConverseAppends(w1);
  }

  /** What gets through of a row of writes when n more succeed. */
  function FirstFew(writes: seq<seq<Byte>>, n: nat): seq<seq<Byte>> {
    if n < |writes| then writes[..n] else writes
  }

  /** negotiateProtocol: the offer, the client's choice, the confirmation. Failing writes are ignored. */
  method Negotiate(conn: Conn, domain: seq<Byte>) returns (choice: Option<seq<Byte>>)
    modifies conn
    ensures choice.Some? <==> 0 in old(conn.Stream())
    ensures choice.Some? ==> 0 !in choice.value && old(conn.Stream()) == choice.value + [0] + conn.Stream()
    ensures choice.None? ==> conn.Stream() == []
    ensures conn.sent == old(conn.sent) +
              FirstFew([Ascii("v.2 dp9ik@") + domain + [0]] + (if choice.Some? then [Ascii("OK") + [0]] else []),
                       old(conn.writable))
  {
    hide Ascii, Concat;
    var _ := conn.Write(Offer(domain));
    choice := ReadChoice(conn);
    if choice.Some? {
      var _ := conn.Write(Confirmation());
    }
  }

  lemma ProxyFacts(w: World, params: seq<Byte>)
    requires w.log == []
    ensures var (w', out) := Proxy(w, params);
            w'.log != [] && w'.log[0].verb == Start && w'.log[0].arg == params &&
            (out.Granted? ==>
               StageOf(w'.log) == Complete && w.stream == Concat(Accepted(w'.log)) + w'.stream &&
               w'.sent == w.sent + Emitted(w'.log))
  {
    hide Proxy, Concat, Accepted, Emitted, StageOf, Followed;
    ByteExact(w, params);
    ConversationIsLegal(w, params);
    FirstIsStart(w, params);
  }

  /**
   Negotiation and authentication as one: on success exactly the choice, its
   NUL and the payloads factotum took are gone from the wire, however the
   network cut the stream into pieces. The next byte to be read is the first
   one meant for TLS.
   */
  method Handshake(conn: Conn, rpc: AuthRpc, domain: seq<Byte>) returns (outcome: Option<Outcome>)
    requires rpc.log == []
    modifies conn, rpc
    ensures outcome.Some? <==> 0 in old(conn.Stream())
    ensures outcome.Some? && outcome.value.Granted? ==>
              StageOf(rpc.log) == Complete &&
              exists choice ::
                0 !in choice && old(conn.Stream()) == choice + [0] + Concat(Accepted(rpc.log)) + conn.Stream()
    ensures outcome.Some? && outcome.value.Granted? ==>
              conn.sent ==
                old(conn.sent) +
                FirstFew([Ascii("v.2 dp9ik@") + domain + [0], Ascii("OK") + [0]], old(conn.writable)) +
                Emitted(rpc.log)
    ensures outcome.Some? ==>
              rpc.log != [] && rpc.log[0].verb == Start &&
              rpc.log[0].arg == Ascii("role=server proto=dp9ik dom=") + domain
  {
    hide Ascii, Proxy, Concat, Accepted, Emitted, StageOf, FirstFew;
    var choice := Negotiate(conn, domain);
    if choice.None? {
      return None;
    }
    ghost var before := rpc.Around(conn);
    var params := Ascii("role=server proto=dp9ik dom=") + domain;
    var out := rpc.FauthProxy(conn, params);
    ProxyFacts(before, params);
    assert [Ascii("v.2 dp9ik@") + domain + [0]] + [Ascii("OK") + [0]] ==
           [Ascii("v.2 dp9ik@") + domain + [0], Ascii("OK") + [0]];
    ghost var taken, c := Concat(Accepted(rpc.log)), choice.value;
    if out.Granted? {
      assert before.stream == taken + conn.Stream();
      assert old(conn.Stream()) == c + [0] + (taken + conn.Stream());
      Regroup(c + [0], taken, conn.Stream());
    }
    return Some(out);
  }

  lemma Regroup(a: seq<Byte>, b: seq<Byte>, c: seq<Byte>)
    ensures a + (b + c) == a + b + c
  {
  }
}
