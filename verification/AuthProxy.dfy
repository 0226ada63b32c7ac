/**
 The authentication proxy: it carries factotum's side of the conversation to
 the wire and back. What it must never do is take a byte off the wire that
 factotum did not ask for: the next byte belongs to the TLS handshake.

 The factotum end is arbitrary. A script lists what each exchange with it will
 bring; every behaviour of a real peer, however it reacts, gives some script.
 */
module AuthProxy {
  import opened Bytes
  import opened Wire
  import opened AuthInfo

  const RPC_MAX: nat := 4096

  /** What one Read from the factotum file returns: at most the size of its buffer. */
  type Message = m: seq<Byte> | |m| <= RPC_MAX

  datatype Answer = WriteFails | ReadFails | Reply(text: Message)

  datatype Verb = Start | Read | Write | GetInfo

  datatype Ret = Ok | Done | Error | NeedKey | BadKey | TooSmall | RpcFailure | Phase

  /** One call of rpc: what was asked and what came back. */
  datatype Exchange = Exchange(verb: Verb, arg: seq<Byte>, ret: Ret, reply: seq<Byte>)

  datatype Failure =
    | StartRefused | RpcRefused | WireWriteFailed | PhaseRefused | BadCount | CountTooBig
    | NothingToRead | WireReadFailed | InfoRefused

  datatype Outcome = Granted(info: AuthInfo) | Refused(why: Failure)

  /** The proxy's surroundings: factotum's answers and the wire, both ways, and the exchanges so far. */
  datatype World = World(
    script: seq<Answer>,
    stream: seq<Byte>,
    writable: nat,
    sent: seq<seq<Byte>>,
    log: seq<Exchange>)

  // ---------- the RPC ----------

  function VerbName(verb: Verb): seq<Byte> {
    match verb
    case Start => Ascii("start")
    case Read => Ascii("read")
    case Write => Ascii("write")
    case GetInfo => Ascii("authinfo")
  }

  function IndexOf(s: seq<Byte>, b: Byte): (i: nat)
    ensures i <= |s| && b !in s[..i] && (i < |s| ==> s[i] == b)
  {
    if s == [] || s[0] == b then 0 else
      var i := 1 + IndexOf(s[1..], b);
      assert s[..i] == [s[0]] + s[1..][..i - 1];
      i
  }

  /** The verb and the argument of a reply: split at the first space, unless that is its first byte. */
  function SplitReply(text: seq<Byte>): (seq<Byte>, seq<Byte>) {
    var i := IndexOf(text, 32);
    if 0 < i < |text| then (text[..i], text[i + 1..]) else (text, [])
  }

  function Classify(verb: seq<Byte>): Ret {
    if verb == Ascii("ok") then Ok
    else if verb == Ascii("done") then Done
    else if verb == Ascii("error") then Error
    else if verb == Ascii("needkey") then NeedKey
    else if verb == Ascii("badkey") then BadKey
    else if verb == Ascii("phase") then Phase
    else if verb == Ascii("toosmall") then TooSmall
    else RpcFailure
  }

  /** What is written to the factotum file. */
  function Request(verb: Verb, arg: seq<Byte>): seq<Byte> { VerbName(verb) + [32] + arg }

  predicate TooBig(verb: Verb, arg: seq<Byte>) { RPC_MAX < |Request(verb, arg)| }

  /** One exchange: its result, the reply's argument, and the answers left. */
  function Ask(script: seq<Answer>, verb: Verb, arg: seq<Byte>): (r: (Ret, seq<Byte>, seq<Answer>))
    ensures |r.2| <= |script|
    ensures r.0 != RpcFailure ==> |r.2| < |script| && !TooBig(verb, arg)
  {
    if TooBig(verb, arg) then (RpcFailure, [], script)
    else if script == [] then (RpcFailure, [], [])
    else
      match script[0]
      case Reply(text) => var (v, a) := SplitReply(text); (Classify(v), a, script[1..])
      case _ => (RpcFailure, [], script[1..])
  }

  function Call(w: World, verb: Verb, arg: seq<Byte>): (World, Exchange) {
    var (ret, reply, script) := Ask(w.script, verb, arg);
    var x := Exchange(verb, arg, ret, reply);
    (w.(script := script, log := w.log + [x]), x)
  }

  // ---------- the count in a toosmall reply ----------

  /** The three-byte UTF-8 forms of a space: U+1680, U+2000 to U+200A, U+2028, U+2029, U+202F, U+205F, U+3000. */
  predicate IsWideBlank(a: Byte, b: Byte, c: Byte) {
    (a == 0xE1 && b == 0x9A && c == 0x80)
    || (a == 0xE2 && b == 0x80 && (0x80 <= c <= 0x8A || c == 0xA8 || c == 0xA9 || c == 0xAF))
    || (a == 0xE2 && b == 0x81 && c == 0x9F)
    || (a == 0xE3 && b == 0x80 && c == 0x80)
  }

  /** The size of the space at the head of s, or 0: ASCII, U+0085 and U+00A0, or a wide one. */
  function LeadingBlank(s: seq<Byte>): (n: nat)
    ensures n <= |s|
  {
    if 1 <= |s| && (9 <= s[0] <= 13 || s[0] == 32) then 1
    else if 2 <= |s| && s[0] == 0xC2 && (s[1] == 0x85 || s[1] == 0xA0) then 2
    else if 3 <= |s| && IsWideBlank(s[0], s[1], s[2]) then 3
    else 0
  }

  function TrailingBlank(s: seq<Byte>): (n: nat)
    ensures n <= |s|
  {
    if 1 <= |s| && LeadingBlank(s[|s| - 1..]) == 1 then 1
    else if 2 <= |s| && LeadingBlank(s[|s| - 2..]) == 2 then 2
    else if 3 <= |s| && LeadingBlank(s[|s| - 3..]) == 3 then 3
    else 0
  }

  /** strings.TrimSpace, by the spaces of unicode.IsSpace. */
  function TrimSpace(s: seq<Byte>): (r: seq<Byte>)
    decreases |s|
  {
    if 0 < LeadingBlank(s) then TrimSpace(s[LeadingBlank(s)..])
    else if 0 < TrailingBlank(s) then TrimSpace(s[..|s| - TrailingBlank(s)])
    else s
  }

  function Digits(s: seq<Byte>, sum: int): Option<int> {
    if s == [] then Some(sum)
    else if 48 <= s[0] <= 57 then Digits(s[1..], sum * 10 + (s[0] - 48))
    else None
  }

  /** strconv.Atoi: an optional sign, then digits, in the range of a 64-bit int. */
  function Atoi(s: seq<Byte>): Option<int> {
    var negative := s != [] && s[0] == 45;
    var digits := if s != [] && (s[0] == 45 || s[0] == 43) then s[1..] else s;
    if digits == [] then None
    else
      match Digits(digits, 0)
      case None => None
      case Some(n) =>
        if negative then if n <= U64 / 2 then Some(-n) else None
        else if n < U64 / 2 then Some(n) else None
  }

  // ---------- the conversation ----------

  /** One phase, with held already read from the wire. None means factotum took the data. */
  function PhaseLoop(w: World, held: seq<Byte>): (r: (World, Option<Failure>))
    requires |held| <= RPC_MAX
    ensures |r.0.script| <= |w.script|
    decreases RPC_MAX - |held|
  {
    var (w1, x) := Call(w, Write, held);
    if x.ret != TooSmall then (w1, if x.ret == Ok then None else Some(PhaseRefused))
    else
      match Atoi(TrimSpace(x.reply))
      case None => (w1, Some(BadCount))
      case Some(need) =>
        if RPC_MAX < need then (w1, Some(CountTooBig))
        else if need <= |held| then (w1, Some(NothingToRead))
        else
          var more := need - |held|;
          if |w1.stream| < more then (w1.(stream := []), Some(WireReadFailed))
          else PhaseLoop(w1.(stream := w1.stream[more..]), held + w1.stream[..more])
  }

  function Converse(w: World): (World, Outcome)
    decreases |w.script|
  {
    var (w1, x) := Call(w, Read, []);
    match x.ret
    case Done =>
      var (w2, y) := Call(w1, GetInfo, []);
      (w2, if y.ret == Ok then Granted(ConvM2AI(y.reply)) else Refused(InfoRefused))
    case Ok =>
      if w1.writable == 0 then (w1, Refused(WireWriteFailed))
      else Converse(w1.(sent := w1.sent + [x.reply], writable := w1.writable - 1))
    case Phase =>
      var (w2, failed) := PhaseLoop(w1, []);
      if failed.Some? then (w2, Refused(failed.value)) else Converse(w2)
    case _ => (w1, Refused(RpcRefused))
  }

  function Proxy(w: World, params: seq<Byte>): (World, Outcome) {
    var (w1, x) := Call(w, Start, params);
    if x.ret != Ok then (w1, Refused(StartRefused)) else Converse(w1)
  }

  // ---------- the program ----------

  class AuthRpc {
    var script: seq<Answer>          // how the factotum file will answer
    var arg: seq<Byte>               // the argument of its last reply
    var info: Option<AuthInfo>
    ghost var log: seq<Exchange>

    constructor (script: seq<Answer>)
      ensures this.script == script && arg == [] && info == None && log == []
    {
      this.script, arg, info, log := script, [], None, [];
    }

    ghost function Around(conn: Conn): World
      reads this, conn
    {
      World(script, conn.Stream(), conn.writable, conn.sent, log)
    }

    method Rpc(verb: Verb, a: seq<Byte>) returns (ret: Ret)
      modifies this`script, this`arg, this`log
      ensures var (r, reply, rest) := Ask(old(script), verb, a);
              ret == r && script == rest && log == old(log) + [Exchange(verb, a, r, reply)] &&
              (ret != RpcFailure ==> arg == reply)
    {
      if RPC_MAX < |VerbName(verb)| + 1 + |a| || script == [] {
        ret := RpcFailure;
        log := log + [Exchange(verb, a, RpcFailure, [])];
        return;
      }
      var answer := script[0];
      script := script[1..];
      match answer
      case Reply(text) =>
        var (v, reply) := SplitReply(text);
        arg := reply;
        ret := Classify(v);
        log := log + [Exchange(verb, a, ret, reply)];
      case _ =>
        ret := RpcFailure;
        log := log + [Exchange(verb, a, RpcFailure, [])];
    }

    method FetchInfo() returns (ok: bool)
      modifies this
      ensures var (r, reply, rest) := Ask(old(script), GetInfo, []);
              script == rest && log == old(log) + [Exchange(GetInfo, [], r, reply)] && ok == (r == Ok) &&
              (ok ==> info == Some(ConvM2AI(reply)))
    {
      hide Ask, ConvM2AI;
      var ret := Rpc(GetInfo, []);
      ok := ret == Ok;
      if ok {
        info := Some(ConvM2AI(arg));
      }
    }

    /** The inner loop of a phase: reads from the wire exactly what factotum asks for. */
    method RunPhase(conn: Conn, buf: array<Byte>) returns (failed: Option<Failure>)
      requires buf.Length == RPC_MAX
      modifies this`script, this`arg, this`log, conn`chunks, buf
      ensures (Around(conn), failed) == PhaseLoop(old(Around(conn)), [])
      ensures info == old(info)
    {
      hide Ask, Atoi, TrimSpace;
      var n := 0;
      assert buf[..0] == [];
      while true
        invariant 0 <= n <= RPC_MAX
        invariant PhaseLoop(Around(conn), buf[..n]) == PhaseLoop(old(Around(conn)), [])
        decreases RPC_MAX - n
      {
        var ret := Rpc(Write, buf[..n]);
        if ret != TooSmall {
          return if ret == Ok then None else Some(PhaseRefused);
        }
        var count := Atoi(TrimSpace(arg));
        if count.None? {
          return Some(BadCount);
        }
        var need := count.value;
        if RPC_MAX < need {
          return Some(CountTooBig);
        }
        if need - n <= 0 {
          return Some(NothingToRead);
        }
        ghost var held, stream := buf[..n], conn.Stream();
        var full := conn.ReadFull(buf, n, need);
        if !full {
          return Some(WireReadFailed);
        }
        assert buf[..need] == held + buf[n..need];
        assert stream[..need - n] == buf[n..need] && stream[need - n..] == conn.Stream();
        n := need;
      }
    }

    method FauthProxy(conn: Conn, params: seq<Byte>) returns (outcome: Outcome)
      modifies this, conn
      ensures (Around(conn), outcome) == Proxy(old(Around(conn)), params)
    {
      hide Ask, PhaseLoop, ConvM2AI;
      var ret := Rpc(Start, params);
      if ret != Ok {
        return Refused(StartRefused);
      }
      var buf := new Byte[RPC_MAX];
      while true
        invariant Converse(Around(conn)) == Proxy(old(Around(conn)), params)
        decreases |script|
      {
        ret := Rpc(Read, []);
        match ret
        case Done =>
          var ok := FetchInfo();
          return if ok then Granted(info.value) else Refused(InfoRefused);
        case Ok =>
          var written := conn.Write(arg);
          if !written {
            return Refused(WireWriteFailed);
          }
        case Phase =>
          var failed := RunPhase(conn, buf);
          if failed.Some? {
            return Refused(failed.value);
          }
        case _ =>
          return Refused(RpcRefused);
      }
    }
  }
}
