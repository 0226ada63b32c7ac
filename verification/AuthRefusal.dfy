/**
 Why a conversation was given up: its last exchange, what could still be
 written, and what the client had sent say it exactly.
 */
module AuthRefusal {
  import opened Bytes
  import opened AuthInfo
  import opened AuthProxy
  import opened AuthHandoff

  /** The one exchange after which a conversation cannot go on, and the reason. all is what the client sent. */
  ghost predicate IsCause(all: seq<Byte>, w: World, why: Failure) {
    w.log != [] &&
    var x := w.log[|w.log| - 1];
    var count := Atoi(TrimSpace(x.reply));
    match why
    case StartRefused => x.verb == Start && x.ret != Ok
    case RpcRefused => x.verb == Read && x.ret != Ok && x.ret != Done && x.ret != Phase
    case WireWriteFailed => x.verb == Read && x.ret == Ok && w.writable == 0
    case PhaseRefused => x.verb == Write && x.ret != Ok && x.ret != TooSmall
    case BadCount => x.verb == Write && x.ret == TooSmall && count == None
    case CountTooBig => x.verb == Write && x.ret == TooSmall && count.Some? && 4096 < count.value
    case NothingToRead => x.verb == Write && x.ret == TooSmall && count.Some? && count.value <= |x.arg| <= 4096
    case WireReadFailed =>
      x.verb == Write && x.ret == TooSmall && count.Some? && |x.arg| < count.value <= 4096 &&
      |all| - |Concat(Accepted(w.log))| < count.value
    case InfoRefused => x.verb == GetInfo && x.ret != Ok
  }

  lemma CausesExclude(all: seq<Byte>, w: World, a: Failure, b: Failure)
    requires IsCause(all, w, a) && IsCause(all, w, b)
    ensures a == b && !(w.log[|w.log| - 1].verb == GetInfo && w.log[|w.log| - 1].ret == Ok)
  {
    hide Atoi, TrimSpace, Concat, Accepted;
  }

  /** The number that a toosmall answer asks for, when the phase can go on with it. */
  predicate GoesOn(x: Exchange, held: seq<Byte>, left: nat) {
    var count := Atoi(TrimSpace(x.reply));
    x.ret == TooSmall && count.Some? && |held| < count.value <= RPC_MAX && count.value - |held| <= left
  }

  lemma PhaseStops(all: seq<Byte>, w: World, held: seq<Byte>)
    requires |held| <= RPC_MAX && Accounted(all, w, held)
    requires var (w1, x) := Call(w, Write, held); !GoesOn(x, held, |w1.stream|)
    ensures var (w', failed) := PhaseLoop(w, held); failed.Some? ==> IsCause(all, w', failed.value)
  {
    var (w1, x) := Call(w, Write, held);
    LogGrows(w.log, x);
    hide Ask, Atoi, TrimSpace, Concat, Accepted;
    assert w1.log[|w1.log| - 1] == x;
  }

  lemma {:induction false} PhaseCause(all: seq<Byte>, w: World, held: seq<Byte>)
    requires |held| <= RPC_MAX && Accounted(all, w, held)
    ensures var (w', failed) := PhaseLoop(w, held); failed.Some? ==> IsCause(all, w', failed.value)
    decreases RPC_MAX - |held|
  {
    hide Ask, Atoi, TrimSpace, Accounted, IsCause, PhaseLoop;
    var (w1, x) := Call(w, Write, held);
    if GoesOn(x, held, |w1.stream|) {
      WriteAccounts(all, w, held);
      var need := Atoi(TrimSpace(x.reply)).value;
      var more := need - |held|;
      Transfer(all, w1, held, more);
      PhaseGoesOn(w, held, need);
      PhaseCause(all, w1.(stream := w1.stream[more..]), held + w1.stream[..more]);
    } else {
      PhaseStops(all, w, held);
    }
  }

  predicate LastIs(w: World, x: Exchange) { w.log != [] && w.log[|w.log| - 1] == x }

  lemma ReadStops(all: seq<Byte>, w: World, x: Exchange)
    requires LastIs(w, x) && x.verb == Read
    ensures x.ret != Ok && x.ret != Done && x.ret != Phase ==> IsCause(all, w, RpcRefused)
    ensures x.ret == Ok && w.writable == 0 ==> IsCause(all, w, WireWriteFailed)
  {
    hide Atoi, TrimSpace, Concat, Accepted;
  }

  lemma InfoStops(all: seq<Byte>, w: World, x: Exchange)
    requires LastIs(w, x) && x.verb == GetInfo && x.ret != Ok
    ensures IsCause(all, w, InfoRefused)
  {
    hide Atoi, TrimSpace, Concat, Accepted;
  }

  lemma CallKeepsAccount(all: seq<Byte>, w: World, verb: Verb)
    requires Accounted(all, w, []) && verb != Write
    ensures var (w1, x) := Call(w, verb, []); Accounted(all, w1, []) && LastIs(w1, x) && x.verb == verb
  {
    hide Ask, Concat, Accepted, Emitted;
    LogGrows(w.log, Call(w, verb, []).1);
  }

  lemma SendingKeepsAccount(all: seq<Byte>, w: World, sent: seq<seq<Byte>>, writable: nat)
    requires Accounted(all, w, [])
    ensures Accounted(all, w.(sent := sent, writable := writable), [])
  {
    hide Concat, Accepted;
  }

  lemma {:induction false} ConverseCause(all: seq<Byte>, w: World)
    requires Accounted(all, w, [])
    ensures var (w', out) := Converse(w);
            match out
            case Refused(why) => IsCause(all, w', why)
            case Granted(_) => w'.log != [] && w'.log[|w'.log| - 1].verb == GetInfo && w'.log[|w'.log| - 1].ret == Ok
    decreases |w.script|
  {
    hide Ask, IsCause, ConvM2AI, PhaseLoop, Accounted;
    CallKeepsAccount(all, w, Read);
    var (w1, x) := Call(w, Read, []);
    ReadStops(all, w1, x);
    match x.ret
    case Done =>
      CallKeepsAccount(all, w1, GetInfo);
      var (w2, y) := Call(w1, GetInfo, []);
      if y.ret != Ok {
        InfoStops(all, w2, y);
      }
    case Ok =>
      if 0 < w1.writable {
        SendingKeepsAccount(all, w1, w1.sent + [x.reply], w1.writable - 1);
        ConverseCause(all, w1.(sent := w1.sent + [x.reply], writable := w1.writable - 1));
      }
    case Phase =>
      PhaseCause(all, w1, []);
      PhaseAccounts(all, w1, []);
      var (w2, failed) := PhaseLoop(w1, []);
      if failed.None? {
        ConverseCause(all, w2);
      }
    case _ =>
  }

  /**
   For every conversation with any peer: it is refused for a reason if and only
   if that is the case at its last exchange, and granted if and only if that was
   an ok answer to authinfo. In all other cases it goes on.
   */
  lemma RefusedForCause(w: World, params: seq<Byte>)
    requires w.log == []
    ensures var (w', out) := Proxy(w, params);
            w'.log != [] &&
            (forall why :: out == Refused(why) <==> IsCause(w.stream, w', why)) &&
            (out.Granted? <==> w'.log[|w'.log| - 1].verb == GetInfo && w'.log[|w'.log| - 1].ret == Ok)
  {
    hide Ask, Atoi, TrimSpace, Concat, Accepted, Converse;
    var (w1, x) := Call(w, Start, params);
    LogGrows(w.log, x);
    if x.ret == Ok {
      StartAccounts(w, x);
      ConverseCause(w.stream, w1);
    } else {
      StartCause(w, params);
    }
    var (w', out) := Proxy(w, params);
    hide IsCause;
    forall why ensures out == Refused(why) <==> IsCause(w.stream, w', why) {
      if IsCause(w.stream, w', why) {
        CausesExclude(w.stream, w', why, why);
        if out.Refused? {
          CausesExclude(w.stream, w', why, out.why);
        }
      }
    }
    if out.Refused? {
      CausesExclude(w.stream, w', out.why, out.why);
    }
  }

  lemma StartAccounts(w: World, x: Exchange)
    requires w.log == [] && x.verb == Start
    ensures Accounted(w.stream, w.(log := [x]), [])
  {
    LogGrows([], x);
    assert [] + [x] == [x];
  }

  lemma StartCause(w: World, params: seq<Byte>)
    requires w.log == [] && Call(w, Start, params).1.ret != Ok
    ensures IsCause(w.stream, Call(w, Start, params).0, StartRefused)
  {
    hide Ask, Atoi, TrimSpace;
  }
}
