/**
 The authentication proxy does its work: a factotum that keeps to the protocol
 is served to the end, and a conversation ends early only for a cause.
 */
module AuthComplete {
  import opened Bytes
  import opened AuthInfo
  import opened AuthProxy
  import opened AuthReply
  import opened AuthHandoff

  // ---------- a factotum that keeps to the protocol ----------

  /** It gives a payload for the wire, or takes bytes from it: it asks for more and more of them, and then accepts. */
  datatype Round = Give(payload: seq<Byte>) | Take(needs: seq<nat>)

  predicate Rising(from: nat, needs: seq<nat>)
    decreases needs
  {
    needs == [] || (from < needs[0] <= 4090 && Rising(needs[0], needs[1..]))
  }

  /** How many bytes are held in the end. */
  function Last(from: nat, needs: seq<nat>): nat
    decreases needs
  {
    if needs == [] then from else Last(needs[0], needs[1..])
  }

  predicate Proper(round: Round) {
    match round
    case Give(payload) => |payload| <= 4093
    case Take(needs) => Rising(0, needs)
  }

  function WantsBytes(need: nat): Message
    requires need <= 4090
  {
    DecimalUpTo4(need);
    Ascii("toosmall ") + Decimal(need)
  }

  lemma DecimalUpTo4(n: nat)
    requires n <= 4090
    ensures |Decimal(n)| <= 4
  {
    assert Decimal(n / 10 / 10 / 10) == [48 + n / 10 / 10 / 10];
    assert |Decimal(n / 10 / 10)| <= 2;
    assert |Decimal(n / 10)| <= 3;
  }

  function AskFor(from: nat, needs: seq<nat>): seq<Answer>
    requires Rising(from, needs)
    decreases needs
  {
    if needs == [] then [Reply(Ascii("ok"))] else [Reply(WantsBytes(needs[0]))] + AskFor(needs[0], needs[1..])
  }

  function RoundAnswers(round: Round): seq<Answer>
    requires Proper(round)
  {
    match round
    case Give(payload) => [Reply(Ascii("ok ") + payload)]
    case Take(needs) => [Reply(Ascii("phase"))] + AskFor(0, needs)
  }

  function Answers(rounds: seq<Round>): seq<Answer>
    requires forall k :: 0 <= k < |rounds| ==> Proper(rounds[k])
  {
    if rounds == [] then [] else RoundAnswers(rounds[0]) + Answers(rounds[1..])
  }

  /** What the client is to be sent. */
  function Given(rounds: seq<Round>): seq<seq<Byte>> {
    if rounds == [] then []
    else (if rounds[0].Give? then [rounds[0].payload] else []) + Given(rounds[1..])
  }

  /** How much the client is to have sent. */
  function Needed(rounds: seq<Round>): nat {
    if rounds == [] then 0
    else (if rounds[0].Take? then Last(0, rounds[0].needs) else 0) + Needed(rounds[1..])
  }

  // ---------- single exchanges ----------

  lemma BareAnswer(text: Message, later: seq<Answer>, verb: Verb, arg: seq<Byte>, ret: Ret)
    requires ret != RpcFailure && !TooBig(verb, arg) && text == Word(ret)
    ensures Ask([Reply(text)] + later, verb, arg) == (ret, [], later)
  {
    RpcMeaning(text, later, verb, arg, ret, []);
  }

  lemma FullAnswer(text: Message, later: seq<Answer>, verb: Verb, arg: seq<Byte>, ret: Ret, payload: seq<Byte>)
    requires ret != RpcFailure && !TooBig(verb, arg) && text == Word(ret) + [32] + payload
    ensures Ask([Reply(text)] + later, verb, arg) == (ret, payload, later)
  {
    RpcMeaning(text, later, verb, arg, ret, payload);
  }

  /** Requests up to these sizes go out, and longer ones do not. */
  function Room(verb: Verb): nat {
    match verb
    case Start => 4090
    case Read => 4091
    case Write => 4090
    case GetInfo => 4087
  }

  lemma RequestFits(verb: Verb, arg: seq<Byte>)
    ensures TooBig(verb, arg) <==> Room(verb) < |arg|
  {
  }

  /** A request over 4096 bytes is not sent: the answer that was to come is still there. */
  lemma BigRequestIsNotSent(script: seq<Answer>, verb: Verb, arg: seq<Byte>)
    requires Room(verb) < |arg|
    ensures Ask(script, verb, arg) == (RpcFailure, [], script)
  {
    RequestFits(verb, arg);
  }

  /** The requests, byte by byte. */
  lemma RequestText(arg: seq<Byte>)
    ensures Request(Start, arg) == Ascii("start ") + arg && Request(Read, arg) == Ascii("read ") + arg
    ensures Request(Write, arg) == Ascii("write ") + arg && Request(GetInfo, arg) == Ascii("authinfo ") + arg
  {
    assert Ascii("start ") == Ascii("start") + [32] && Ascii("read ") == Ascii("read") + [32];
    assert Ascii("write ") == Ascii("write") + [32] && Ascii("authinfo ") == Ascii("authinfo") + [32];
  }

  lemma Spelling()
    ensures Ascii("ok") == Word(Ok) && Ascii("done") == Word(Done) && Ascii("phase") == Word(Phase)
  {
  }

  lemma OkWith(payload: seq<Byte>)
    ensures Ascii("ok ") + payload == Word(Ok) + [32] + payload
  {
    assert Ascii("ok ") == Ascii("ok") + [32];
  }

  lemma WantsBytesIs(need: nat)
    requires need <= 4090
    ensures WantsBytes(need) == Word(TooSmall) + [32] + Decimal(need)
  {
    hide Decimal;
    assert Ascii("toosmall ") == Ascii("toosmall") + [32];
  }

  lemma CountIs(need: nat)
    requires need <= 4090
    ensures Atoi(TrimSpace(Decimal(need))) == Some(need)
  {
    hide Atoi, TrimSpace, Decimal;
    CountRoundTrip(need, [], []);
    assert Concat<Byte>([]) + Decimal(need) + Concat<Byte>([]) == Decimal(need);
  }

  lemma HeldFits(held: seq<Byte>)
    requires |held| <= 4090
    ensures !TooBig(Write, held)
  {
    RequestFits(Write, held);
  }

  // ---------- rounds ----------

  lemma TakeAccepted(w: World, held: seq<Byte>, later: seq<Answer>)
    requires |held| <= 4090 && w.script == [Reply(Ascii("ok"))] + later
    ensures var (w', failed) := PhaseLoop(w, held);
            failed == None && w' == w.(script := later, log := w'.log)
  {
    RequestFits(Write, held);
    Spelling();
    assert !TooBig(Write, held);
    hide Ask, TooBig, Word, Atoi, TrimSpace;
    BareAnswer(Ascii("ok"), later, Write, held, Ok);
  }

  lemma TakeMore(w: World, held: seq<Byte>, need: nat, rest: seq<Answer>) returns (w': World, held': seq<Byte>)
    requires |held| < need <= 4090 && w.script == [Reply(WantsBytes(need))] + rest && need - |held| <= |w.stream|
    ensures |held'| == need && PhaseLoop(w, held) == PhaseLoop(w', held')
    ensures w' == w.(script := rest, stream := w.stream[need - |held|..], log := w'.log)
  {
    hide Ask, TooBig, Word, Atoi, TrimSpace, WantsBytes, Decimal, PhaseLoop;
    HeldFits(held);
    WantsBytesIs(need);
    CountIs(need);
    FullAnswer(WantsBytes(need), rest, Write, held, TooSmall, Decimal(need));
    var (w1, x) := Call(w, Write, held);
    var more := need - |held|;
    held' := held + w1.stream[..more];
    w' := w1.(stream := w1.stream[more..]);
    PhaseGoesOn(w, held, need);
  }

  lemma DropTwice(s: seq<Byte>, i: nat, j: nat)
    requires i + j <= |s|
    ensures s[i..][j..] == s[i + j..]
  {
  }

  lemma {:induction false} TakeRuns(w: World, held: seq<Byte>, needs: seq<nat>, later: seq<Answer>)
    requires |held| <= 4090 && Rising(|held|, needs) && w.script == AskFor(|held|, needs) + later
    requires Last(|held|, needs) - |held| <= |w.stream|
    ensures |held| <= Last(|held|, needs)
    ensures var (w', failed) := PhaseLoop(w, held);
            failed == None && w' == w.(script := later, stream := w.stream[Last(|held|, needs) - |held|..], log := w'.log)
    decreases needs
  {
    hide PhaseLoop, WantsBytes;
    LastIsLargest(|held|, needs);
    if needs == [] {
      assert w.script == [Reply(Ascii("ok"))] + later;
      TakeAccepted(w, held, later);
    } else {
      var need, rest := needs[0], AskFor(needs[0], needs[1..]) + later;
      assert w.script == [Reply(WantsBytes(need))] + rest;
      LastIsLargest(need, needs[1..]);
      var w1, held1 := TakeMore(w, held, need, rest);
      TakeRuns(w1, held1, needs[1..], later);
      DropTwice(w.stream, need - |held|, Last(need, needs[1..]) - need);
    }
  }

  lemma {:induction false} LastIsLargest(from: nat, needs: seq<nat>)
    requires Rising(from, needs)
    ensures from <= Last(from, needs) && (needs != [] ==> needs[0] <= Last(from, needs))
    decreases needs
  {
    if needs != [] {
      LastIsLargest(needs[0], needs[1..]);
    }
  }

  lemma ReadFits()
    ensures !TooBig(Read, []) && !TooBig(GetInfo, [])
  {
  }

  lemma EndRuns(w: World, info: seq<Byte>, later: seq<Answer>)
    requires |info| <= 4093 && w.script == [Reply(Ascii("done")), Reply(Ascii("ok ") + info)] + later
    ensures var (w', out) := Converse(w);
            out == Granted(ConvM2AI(info)) && w' == w.(script := later, log := w'.log)
  {
    ReadFits();
    Spelling();
    OkWith(info);
    hide Ask, TooBig, Word, ConvM2AI;
    var rest := [Reply(Ascii("ok ") + info)] + later;
    assert w.script == [Reply(Ascii("done"))] + rest;
    BareAnswer(Ascii("done"), rest, Read, [], Done);
    FullAnswer(Ascii("ok ") + info, later, GetInfo, [], Ok, info);
  }

  lemma GiveStep(w: World, payload: seq<Byte>, rest: seq<Answer>) returns (w': World)
    requires |payload| <= 4093 && w.script == [Reply(Ascii("ok ") + payload)] + rest && 0 < w.writable
    ensures Converse(w) == Converse(w')
    ensures w' == World(rest, w.stream, w.writable - 1, w.sent + [payload], w'.log)
  {
    ReadFits();
    OkWith(payload);
    hide Ask, TooBig, Word, PhaseLoop;
    FullAnswer(Ascii("ok ") + payload, rest, Read, [], Ok, payload);
    var (w1, x) := Call(w, Read, []);
    w' := w1.(sent := w1.sent + [x.reply], writable := w1.writable - 1);
  }

  lemma TakeStep(w: World, needs: seq<nat>, rest: seq<Answer>) returns (w': World)
    requires Rising(0, needs) && w.script == [Reply(Ascii("phase"))] + (AskFor(0, needs) + rest)
    requires Last(0, needs) <= |w.stream|
    ensures Converse(w) == Converse(w')
    ensures w' == World(rest, w.stream[Last(0, needs)..], w.writable, w.sent, w'.log)
  {
    ReadFits();
    Spelling();
    hide Ask, TooBig, Word, PhaseLoop;
    BareAnswer(Ascii("phase"), AskFor(0, needs) + rest, Read, [], Phase);
    var (w1, x) := Call(w, Read, []);
    TakeRuns(w1, [], needs, rest);
    w' := PhaseLoop(w1, []).0;
  }

  lemma {:induction false} RoundsRun(w: World, rounds: seq<Round>, info: seq<Byte>, later: seq<Answer>)
    requires forall k :: 0 <= k < |rounds| ==> Proper(rounds[k])
    requires |info| <= 4093
    requires w.script == Answers(rounds) + ([Reply(Ascii("done")), Reply(Ascii("ok ") + info)] + later)
    requires Needed(rounds) <= |w.stream| && |Given(rounds)| <= w.writable
    ensures var (w', out) := Converse(w);
            out == Granted(ConvM2AI(info)) && w'.script == later && w'.stream == w.stream[Needed(rounds)..] &&
            w'.sent == w.sent + Given(rounds) && w'.writable == w.writable - |Given(rounds)|
    decreases rounds
  {
    hide Converse, ConvM2AI, RoundAnswers, Ascii;
    var end := [Reply(Ascii("done")), Reply(Ascii("ok ") + info)] + later;
    if rounds == [] {
      assert w.script == end;
      EndRuns(w, info, later);
      assert w.sent + [] == w.sent;
    } else {
      var rest := Answers(rounds[1..]) + end;
      assert w.script == RoundAnswers(rounds[0]) + rest;
      var w1 := OneRound(w, rounds[0], rest);
      var took := if rounds[0].Take? then Last(0, rounds[0].needs) else 0;
      DropTwice(w.stream, took, Needed(rounds[1..]));
      RoundsRun(w1, rounds[1..], info, later);
    }
  }

  lemma OneRound(w: World, round: Round, rest: seq<Answer>) returns (w': World)
    requires Proper(round) && w.script == RoundAnswers(round) + rest
    requires round.Give? ==> 0 < w.writable
    requires round.Take? ==> Last(0, round.needs) <= |w.stream|
    ensures Converse(w) == Converse(w') && w'.script == rest
    ensures w'.stream == w.stream[if round.Take? then Last(0, round.needs) else 0..]
    ensures w'.sent == (if round.Give? then w.sent + [round.payload] else w.sent)
    ensures w'.writable == (if round.Give? then w.writable - 1 else w.writable)
  {
    hide Converse, Ascii;
    match round
    case Give(payload) =>
      w' := GiveStep(w, payload, rest);
    case Take(needs) =>
      assert w.script == [Reply(Ascii("phase"))] + (AskFor(0, needs) + rest);
      w' := TakeStep(w, needs, rest);
  }

  /**
   Completeness: whenever factotum says ok to the start, goes through any rounds
   of the protocol, and ends with done and an ok answer for the info, and the
   client has sent enough and can be written to, the proxy grants exactly that
   info, has sent exactly the payloads, and has taken exactly the bytes asked for.
   */
  lemma ProperConversationIsGranted(w: World, params: seq<Byte>, rounds: seq<Round>, info: seq<Byte>, later: seq<Answer>)
    requires forall k :: 0 <= k < |rounds| ==> Proper(rounds[k])
    requires |params| <= 4090 && |info| <= 4093
    requires w.script ==
               [Reply(Ascii("ok"))] + (Answers(rounds) + ([Reply(Ascii("done")), Reply(Ascii("ok ") + info)] + later))
    requires Needed(rounds) <= |w.stream| && |Given(rounds)| <= w.writable
    ensures var (w', out) := Proxy(w, params);
            out == Granted(ConvM2AI(info)) && w'.script == later && w'.stream == w.stream[Needed(rounds)..] &&
            w'.sent == w.sent + Given(rounds) && w'.writable == w.writable - |Given(rounds)|
  {
    RequestFits(Start, params);
    Spelling();
    hide Ask, TooBig, Word, Converse, ConvM2AI, Answers;
    BareAnswer(Ascii("ok"), Answers(rounds) + ([Reply(Ascii("done")), Reply(Ascii("ok ") + info)] + later), Start, params, Ok);
    var (w1, x) := Call(w, Start, params);
    RoundsRun(w1, rounds, info, later);
  }
}
