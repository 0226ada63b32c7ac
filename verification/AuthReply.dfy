/**
 What factotum's answers mean: the words it may use, and the number in a toosmall answer.
 */
module AuthReply {
  import opened Bytes
  import opened AuthProxy

  /** How factotum spells an answer. */
  function Word(ret: Ret): seq<Byte>
    requires ret != RpcFailure
  {
    match ret
    case Ok => Ascii("ok")
    case Done => Ascii("done")
    case Error => Ascii("error")
    case NeedKey => Ascii("needkey")
    case BadKey => Ascii("badkey")
    case TooSmall => Ascii("toosmall")
    case Phase => Ascii("phase")
  }

  function FirstLetter(ret: Ret): Byte
    requires ret != RpcFailure
  {
    match ret
    case Ok => 111
    case Done => 100
    case Error => 101
    case NeedKey => 110
    case BadKey => 98
    case TooSmall => 116
    case Phase => 112
  }

  lemma WordFacts(ret: Ret)
    requires ret != RpcFailure
    ensures 0 < |Word(ret)| && Word(ret)[0] == FirstLetter(ret) && 32 !in Word(ret)
  {
  }

  lemma WordsDiffer(a: Ret, b: Ret)
    requires a != RpcFailure && b != RpcFailure
    ensures Word(a) == Word(b) <==> a == b
  {
    hide Word;
    WordFacts(a);
    WordFacts(b);
  }

  lemma ClassifyIsWord(v: seq<Byte>, ret: Ret)
    requires ret != RpcFailure
    ensures Classify(v) == ret <==> v == Word(ret)
  {
    var got := Classify(v);
    assert got != RpcFailure ==> v == Word(got);
    hide Word;
    if got != RpcFailure {
      WordsDiffer(got, ret);
    }
  }

  lemma IndexIsFirst(w: seq<Byte>, rest: seq<Byte>, b: Byte)
    requires b !in w
    ensures IndexOf(w + [b] + rest, b) == |w|
  {
    var s := w + [b] + rest;
    assert s[..|w|] == w && s[|w|] == b;
  }

  lemma SplitAtSpace(w: seq<Byte>, payload: seq<Byte>)
    requires w != [] && 32 !in w
    ensures SplitReply(w + [32] + payload) == (w, payload)
  {
    hide IndexOf;
    IndexIsFirst(w, payload, 32);
    var text := w + [32] + payload;
    assert text[..|w|] == w && text[|w| + 1..] == payload;
  }

  lemma SplitWithoutSpace(w: seq<Byte>)
    requires 32 !in w
    ensures SplitReply(w) == (w, [])
  {
    assert forall k :: 0 <= k < |w| ==> w[k] in w;
  }

  lemma SplitBack(text: seq<Byte>)
    ensures var (v, arg) := SplitReply(text); (text == v && arg == []) || text == v + [32] + arg
  {
    var i := IndexOf(text, 32);
    if 0 < i < |text| {
      assert text == text[..i] + [32] + text[i + 1..];
    }
  }

  /**
   An answer counts as ret exactly when it is ret's word alone, or that word, one space and a payload;
   the payload is then handed over unchanged, whatever bytes it holds.
   */
  lemma AnswerMeaning(text: seq<Byte>, ret: Ret, payload: seq<Byte>)
    requires ret != RpcFailure
    ensures Classify(SplitReply(text).0) == ret && SplitReply(text).1 == payload <==>
              (text == Word(ret) && payload == []) || text == Word(ret) + [32] + payload
  {
    hide Classify, Word, SplitReply;
    WordFacts(ret);
    ClassifyIsWord(SplitReply(text).0, ret);
    SplitBack(text);
    SplitAtSpace(Word(ret), payload);
    SplitWithoutSpace(Word(ret));
  }

  /** The same for one whole exchange that passes the size check: nothing else decides its outcome. */
  lemma RpcMeaning(text: Message, later: seq<Answer>, verb: Verb, arg: seq<Byte>, ret: Ret, payload: seq<Byte>)
    requires ret != RpcFailure && !TooBig(verb, arg)
    ensures Ask([Reply(text)] + later, verb, arg) == (ret, payload, later) <==>
              (text == Word(ret) && payload == []) || text == Word(ret) + [32] + payload
  {
    AnswerMeaning(text, ret, payload);
    hide Classify, SplitReply, Word;
    assert ([Reply(text)] + later)[1..] == later;
  }

  // ---------- the count ----------

  lemma {:induction false} DigitsSnoc(s: seq<Byte>, d: Byte, sum: int)
    requires 48 <= d <= 57
    ensures Digits(s + [d], sum) ==
              match Digits(s, sum)
              case None => None
              case Some(n) => Some(n * 10 + (d - 48))
    decreases s
  {
    if s == [] {
      assert s + [d] == [d];
      assert [d][1..] == [];
    } else {
      assert (s + [d])[1..] == s[1..] + [d];
      if 48 <= s[0] <= 57 {
        DigitsSnoc(s[1..], d, sum * 10 + (s[0] - 48));
      }
    }
  }

  lemma {:induction false} DigitsOfDecimal(n: nat)
    ensures Digits(Decimal(n), 0) == Some(n)
  {
    if n < 10 {
      assert [48 + n][1..] == [];
    } else {
      DigitsOfDecimal(n / 10);
      DigitsSnoc(Decimal(n / 10), 48 + n % 10, 0);
    }
  }

  /** One space, in UTF-8. */
  predicate IsBlank(b: seq<Byte>) { 0 < |b| && LeadingBlank(b) == |b| }

  /** The code point of a space in UTF-8. */
  function CodePoint(b: seq<Byte>): int
    requires IsBlank(b)
  {
    if |b| == 1 then b[0] else if |b| == 2 then (b[0] as int - 0xC0) * 64 + (b[1] as int - 0x80)
    else (b[0] as int - 0xE0) * 4096 + (b[1] as int - 0x80) * 64 + (b[2] as int - 0x80)
  }

  lemma BlankIsSpace(b: seq<Byte>)
    requires IsBlank(b)
    ensures CodePoint(b) in SPACES && b == Utf8(CodePoint(b))
  {
  }

  lemma SpaceIsBlank(u: int)
    requires u in SPACES
    ensures IsBlank(Utf8(u))
  {
  }

  /** What counts as one space is the UTF-8 form of a white-space code point, and nothing else. */
  lemma BlankMeaning(b: seq<Byte>)
    ensures IsBlank(b) <==> exists u | u in SPACES :: b == Utf8(u)
  {
    if IsBlank(b) {
      BlankIsSpace(b);
    }
    forall u | u in SPACES ensures IsBlank(Utf8(u)) {
      SpaceIsBlank(u);
    }
    hide IsBlank, Utf8;
  }

  predicate AllBlanks(bs: seq<seq<Byte>>) { forall k :: 0 <= k < |bs| ==> IsBlank(bs[k]) }

  predicate AllDigits(s: seq<Byte>) { forall d :: d in s ==> 48 <= d <= 57 }

  lemma DigitIsNoBlank(s: seq<Byte>)
    requires s != [] && 48 <= s[0] <= 57
    ensures LeadingBlank(s) == 0
  {
  }

  lemma DigitsAreNotTrimmed(s: seq<Byte>)
    requires s != [] && AllDigits(s)
    ensures TrimSpace(s) == s
  {
    hide LeadingBlank;
    forall k | 0 <= k < |s| ensures LeadingBlank(s[k..]) == 0 {
      assert s[k] in s;
      DigitIsNoBlank(s[k..]);
    }
    assert s[0..] == s;
  }

  lemma BlankAtTheEnd(t: seq<Byte>, b: seq<Byte>)
    requires t != [] && 48 <= t[0] <= 57 && IsBlank(b)
    ensures TrimSpace(t + b) == TrimSpace(t)
  {
    var s := t + b;
    assert s[|s| - |b|..] == b && s[..|s| - |b|] == t;
    assert LeadingBlank(s) == 0;
    assert |b| == 2 ==> s[|s| - 1..] == [b[1]];
    assert |b| == 3 ==> s[|s| - 1..] == [b[2]] && s[|s| - 2..] == [b[1], b[2]];
    assert TrailingBlank(s) == |b|;
  }

  lemma {:induction false} BlanksBehind(s: seq<Byte>, back: seq<seq<Byte>>)
    requires s != [] && AllDigits(s) && AllBlanks(back)
    ensures TrimSpace(s + Concat(back)) == s
    decreases |back|
  {
    hide TrimSpace, LeadingBlank;
    if back == [] {
      assert s + Concat(back) == s;
      DigitsAreNotTrimmed(s);
    } else {
      var init, b := back[..|back| - 1], back[|back| - 1];
      assert back == init + [b];
      ConcatSnoc(init, b);
      var t := s + Concat(init);
      assert s + Concat(back) == t + b;
      assert t[0] == s[0] && s[0] in s;
      BlankAtTheEnd(t, b);
      BlanksBehind(s, init);
    }
  }

  lemma BlankInFront(b: seq<Byte>, s: seq<Byte>)
    requires IsBlank(b)
    ensures TrimSpace(b + s) == TrimSpace(s)
  {
    assert LeadingBlank(b + s) == |b| && (b + s)[|b|..] == s;
  }

  lemma {:induction false} BlanksBefore(front: seq<seq<Byte>>, s: seq<Byte>)
    requires AllBlanks(front)
    ensures TrimSpace(Concat(front) + s) == TrimSpace(s)
    decreases front
  {
    hide TrimSpace, LeadingBlank;
    if front == [] {
      assert Concat(front) + s == s;
    } else {
      var rest := Concat(front[1..]) + s;
      assert Concat(front) + s == front[0] + rest;
      BlankInFront(front[0], rest);
      BlanksBefore(front[1..], s);
    }
  }

  /**
   A count that factotum prints in decimal, with any spaces around it, is read
   back exactly when it fits a 64-bit signed integer.
   */
  lemma CountRoundTrip(n: nat, front: seq<seq<Byte>>, back: seq<seq<Byte>>)
    requires AllBlanks(front) && AllBlanks(back)
    ensures Atoi(TrimSpace(Concat(front) + Decimal(n) + Concat(back))) == Some(n) <==> n < U64 / 2
  {
    var s, b := Decimal(n), Concat(back);
    hide TrimSpace, Concat, AllBlanks;
    DigitsOfDecimal(n);
    assert Concat(front) + s + b == Concat(front) + (s + b);
    BlanksBefore(front, s + b);
    BlanksBehind(s, back);
    assert s[0] in s;
  }

  // ---------- every number ----------

  /** The number that digits stand for, from the last one on. */
  function Value(s: seq<Byte>): int
    decreases |s|
  {
    if s == [] then 0 else Value(s[..|s| - 1]) * 10 + (s[|s| - 1] as int) - 48
  }

  lemma {:induction false} DigitsAreValue(s: seq<Byte>)
    ensures Digits(s, 0) == if AllDigits(s) then Some(Value(s)) else None
    decreases |s|
  {
    if s != [] {
      var init, d := s[..|s| - 1], s[|s| - 1];
      assert s == init + [d];
      DigitsAreValue(init);
      assert d in s && forall x :: x in init ==> x in s;
      if 48 <= d <= 57 {
        DigitsSnoc(init, d, 0);
      } else {
        NoDigitLast(init, d, 0);
      }
    }
  }

  lemma {:induction false} NoDigitLast(s: seq<Byte>, d: Byte, sum: int)
    requires !(48 <= d <= 57)
    ensures Digits(s + [d], sum) == None
    decreases s
  {
    if s != [] {
      assert (s + [d])[1..] == s[1..] + [d];
      NoDigitLast(s[1..], d, sum * 10 + (s[0] as int) - 48);
    }
  }

  /** What strconv.Atoi accepts, and as what: digits, perhaps after one sign, in the range of a signed 64-bit integer. */
  predicate Numeral(s: seq<Byte>, v: int) {
    -0x8000_0000_0000_0000 <= v < 0x8000_0000_0000_0000 &&
    ((s != [] && AllDigits(s) && v == Value(s))
     || (2 <= |s| && s[0] == 43 && AllDigits(s[1..]) && v == Value(s[1..]))
     || (2 <= |s| && s[0] == 45 && AllDigits(s[1..]) && v == -Value(s[1..])))
  }

  lemma {:induction false} ValueIsNatural(s: seq<Byte>)
    requires AllDigits(s)
    ensures 0 <= Value(s)
    decreases |s|
  {
    if s != [] {
      assert s[|s| - 1] in s;
      var init := s[..|s| - 1];
      forall k | 0 <= k < |init| ensures 48 <= init[k] <= 57 {
        assert init[k] == s[k] && s[k] in s;
      }
      ValueIsNatural(init);
    }
  }

  /** Exactly the numerals are accepted, for what they stand for. */
  lemma AtoiMeaning(s: seq<Byte>, v: int)
    ensures Atoi(s) == Some(v) <==> Numeral(s, v)
  {
    var digits := if s != [] && (s[0] == 45 || s[0] == 43) then s[1..] else s;
    DigitsAreValue(digits);
    if AllDigits(digits) {
      ValueIsNatural(digits);
    }
    assert s != [] ==> s[0] in s;
    hide Digits, Value;
  }
}
