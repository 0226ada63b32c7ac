/**
 The escape stripper between the pty and the client's console.

 The pattern is kept as a syntax tree with the textbook meaning of a regular
 expression; the scanner is the single pass that a reader of the pattern would
 write by hand. The proofs connect the two and then say what stripping one pty
 read at a time does to the stream.
 */
module AnsiStrip {
  import opened Bytes

  const ESC: Byte := 27
  const BEL: Byte := 7
  const BRACKET: Byte := 91       // [
  const OSC_OPEN: Byte := 93      // ]
  const BACKSLASH: Byte := 92

  // ---------- the pattern ----------

  datatype Regex =
    | OneOf(allowed: iset<Byte>)
    | Then(first: Regex, second: Regex)
    | Either(left: Regex, right: Regex)
    | Many(allowed: iset<Byte>)

  /** The meaning of a pattern: m as a whole is a word of r's language. */
  ghost predicate Matches(r: Regex, m: seq<Byte>) {
    match r
    case OneOf(a) => |m| == 1 && m[0] in a
    case Then(p, q) => exists k | 0 <= k <= |m| :: Matches(p, m[..k]) && Matches(q, m[k..])
    case Either(p, q) => Matches(p, m) || Matches(q, m)
    case Many(a) => forall x | 0 <= x < |m| :: m[x] in a
  }

  predicate IsParameter(b: Byte) { 48 <= b <= 57 || b == 59 || b == 63 }    // [0-9;?]
  predicate IsNumber(b: Byte) { 48 <= b <= 57 || b == 59 }                  // [0-9;]
  predicate IsLetter(b: Byte) { 65 <= b <= 90 || 97 <= b <= 122 }           // [a-zA-Z]
  predicate IsText(b: Byte) { b != ESC && b != BEL }                        // [^\x1b\x07]
  predicate IsShort(b: Byte) { b == 80 || b == 88 || b == 94 || b == 95 }   // [PX^_]

  ghost const PARAMETERS: Regex := Many(iset b: Byte | IsParameter(b))
  ghost const NUMBERS: Regex := Many(iset b: Byte | IsNumber(b))
  ghost const LETTER: Regex := OneOf(iset b: Byte | IsLetter(b))
  ghost const TEXT: Regex := Many(iset b: Byte | IsText(b))
  ghost const ENDING: Regex := Either(One(BEL), Then(One(ESC), One(BACKSLASH)))

  ghost function One(b: Byte): Regex { OneOf(iset{b}) }

  ghost const CSI: Regex := Then(One(ESC), Then(One(BRACKET), Then(PARAMETERS, LETTER)))
  ghost const OSC: Regex := Then(One(ESC), Then(One(OSC_OPEN), Then(NUMBERS, Then(TEXT, ENDING))))
  ghost const SHORT: Regex := Then(One(ESC), OneOf(iset b: Byte | IsShort(b)))
  ghost const ANSI: Regex := Either(CSI, Either(OSC, SHORT))

  /** m is one whole escape sequence. */
  ghost predicate Escape(m: seq<Byte>) { Matches(ANSI, m) }

  /** An escape sequence occupies s[i..j]. */
  ghost predicate Occurs(s: seq<Byte>, i: int, j: int) {
    0 <= i < j <= |s| && Escape(s[i..j])
  }

  // ---------- the scanner ----------

  /** Where the run of CSI parameters that starts at k ends. */
  function ParameterEnd(s: seq<Byte>, k: nat): (e: nat)
    requires k <= |s|
    ensures k <= e <= |s|
    decreases |s| - k
  {
    if k < |s| && IsParameter(s[k]) then ParameterEnd(s, k + 1) else k
  }

  /** Where the run of OSC text that starts at k ends. */
  function TextEnd(s: seq<Byte>, k: nat): (e: nat)
    requires k <= |s|
    ensures k <= e <= |s|
    decreases |s| - k
  {
    if k < |s| && IsText(s[k]) then TextEnd(s, k + 1) else k
  }

  /** The length of the escape sequence at the head of s, or 0. */
  function Scan(s: seq<Byte>): (n: nat)
    ensures n <= |s| && n != 1
  {
    if |s| < 2 || s[0] != ESC then 0
    else if s[1] == BRACKET then
      var e := ParameterEnd(s, 2);
      if e < |s| && IsLetter(s[e]) then e + 1 else 0
    else if s[1] == OSC_OPEN then
      var e := TextEnd(s, 2);
      if e < |s| && s[e] == BEL then e + 1
      else if e + 1 < |s| && s[e] == ESC && s[e + 1] == BACKSLASH then e + 2
      else 0
    else if IsShort(s[1]) then 2
    else 0
  }

  /** The text that is left when the scanner drops every escape sequence it meets. */
  function Strip(s: seq<Byte>): seq<Byte> {
    if s == [] then []
    else if 0 < Scan(s) then Strip(s[Scan(s)..])
    else [s[0]] + Strip(s[1..])
  }

  lemma {:induction false} ParameterRun(s: seq<Byte>, k: nat)
    requires k <= |s|
    ensures var e := ParameterEnd(s, k);
            (forall x | k <= x < e :: IsParameter(s[x])) && (e < |s| ==> !IsParameter(s[e]))
    decreases |s| - k
  {
    if k < |s| && IsParameter(s[k]) {
      ParameterRun(s, k + 1);
    }
  }

  lemma {:induction false} TextRun(s: seq<Byte>, k: nat)
    requires k <= |s|
    ensures var e := TextEnd(s, k);
            (forall x | k <= x < e :: IsText(s[x])) && (e < |s| ==> !IsText(s[e]))
    decreases |s| - k
  {
    if k < |s| && IsText(s[k]) {
      TextRun(s, k + 1);
    }
  }

  // ---------- the scanner finds exactly the pattern ----------

  ghost predicate CsiShape(m: seq<Byte>) {
    3 <= |m| && m[0] == ESC && m[1] == BRACKET
    && (var t := m[2..]; (forall x | 0 <= x < |t| - 1 :: IsParameter(t[x])) && IsLetter(t[|t| - 1]))
  }

  /** A run of text up to l, closed by BEL or ESC backslash. */
  ghost predicate TextThenEnding(t: seq<Byte>, l: int) {
    0 <= l <= |t| && (forall x | 0 <= x < l :: IsText(t[x])) && (t[l..] == [BEL] || t[l..] == [ESC, BACKSLASH])
  }

  ghost predicate OscShape(m: seq<Byte>) {
    2 <= |m| && m[0] == ESC && m[1] == OSC_OPEN && exists l :: TextThenEnding(m[2..], l)
  }

  ghost predicate ShortShape(m: seq<Byte>) {
    |m| == 2 && m[0] == ESC && IsShort(m[1])
  }

  /** A pattern that starts with two fixed bytes. */
  lemma LeadingBytes(b: Byte, c: Byte, q: Regex, m: seq<Byte>)
    ensures Matches(Then(One(b), Then(One(c), q)), m) <==> 2 <= |m| && m[0] == b && m[1] == c && Matches(q, m[2..])
  {
    LeadingByte(b, Then(One(c), q), m);
    if 0 < |m| {
      LeadingByte(c, q, m[1..]);
    }
    if 2 <= |m| {
      assert m[1..][1..] == m[2..];
    }
  }

  lemma LeadingByte(b: Byte, q: Regex, m: seq<Byte>)
    ensures Matches(Then(One(b), q), m) <==> 0 < |m| && m[0] == b && Matches(q, m[1..])
  {
    if 0 < |m| && m[0] == b && Matches(q, m[1..]) {
      assert Matches(One(b), m[..1]);
    }
  }

  lemma CsiTailMeaning(t: seq<Byte>)
    ensures Matches(Then(PARAMETERS, LETTER), t)
       <==> 0 < |t| && (forall x | 0 <= x < |t| - 1 :: IsParameter(t[x])) && IsLetter(t[|t| - 1])
  {
    if Matches(Then(PARAMETERS, LETTER), t) {
      var k :| 0 <= k <= |t| && Matches(PARAMETERS, t[..k]) && Matches(LETTER, t[k..]);
      forall x | 0 <= x < |t| - 1 ensures IsParameter(t[x]) {
        assert t[..k][x] == t[x];
      }
      assert t[k..][0] == t[|t| - 1];
    }
    if 0 < |t| && (forall x | 0 <= x < |t| - 1 :: IsParameter(t[x])) && IsLetter(t[|t| - 1]) {
      var k := |t| - 1;
      assert Matches(PARAMETERS, t[..k]) && Matches(LETTER, t[k..]);
    }
  }

  lemma EndingMeaning(m: seq<Byte>)
    ensures Matches(ENDING, m) <==> m == [BEL] || m == [ESC, BACKSLASH]
  {
    LeadingByte(ESC, One(BACKSLASH), m);
  }

  lemma TextMeaning(t: seq<Byte>)
    ensures Matches(Then(TEXT, ENDING), t) <==> exists l :: TextThenEnding(t, l)
  {
    if Matches(Then(TEXT, ENDING), t) {
      var l :| 0 <= l <= |t| && Matches(TEXT, t[..l]) && Matches(ENDING, t[l..]);
      EndingMeaning(t[l..]);
      forall x | 0 <= x < l ensures IsText(t[x]) {
        assert t[..l][x] == t[x];
      }
      assert TextThenEnding(t, l);
    }
    if l :| TextThenEnding(t, l) {
      EndingMeaning(t[l..]);
      assert Matches(TEXT, t[..l]) && Matches(ENDING, t[l..]);
    }
  }

  /** The leading number run is part of the text run, so it decides nothing. */
  lemma OscTailMeaning(t: seq<Byte>)
    ensures Matches(Then(NUMBERS, Then(TEXT, ENDING)), t) <==> exists l :: TextThenEnding(t, l)
  {
    if Matches(Then(NUMBERS, Then(TEXT, ENDING)), t) {
      var k :| 0 <= k <= |t| && Matches(NUMBERS, t[..k]) && Matches(Then(TEXT, ENDING), t[k..]);
      TextMeaning(t[k..]);
      var l :| TextThenEnding(t[k..], l);
      forall x | 0 <= x < k + l ensures IsText(t[x]) {
        if x < k { assert t[..k][x] == t[x]; } else { assert t[k..][x - k] == t[x]; }
      }
      assert t[k..][l..] == t[k + l..];
      assert TextThenEnding(t, k + l);
    }
    if exists l :: TextThenEnding(t, l) {
      TextMeaning(t);
      assert t[0..] == t;
      assert Matches(NUMBERS, t[..0]);
    }
  }

  lemma EscapeMeaning(m: seq<Byte>)
    ensures Escape(m) <==> CsiShape(m) || OscShape(m) || ShortShape(m)
  {
    LeadingBytes(ESC, BRACKET, Then(PARAMETERS, LETTER), m);
    LeadingBytes(ESC, OSC_OPEN, Then(NUMBERS, Then(TEXT, ENDING)), m);
    LeadingByte(ESC, OneOf(iset b: Byte | IsShort(b)), m);
    if 2 <= |m| {
      CsiTailMeaning(m[2..]);
      OscTailMeaning(m[2..]);
    }
    assert Escape(m) <==> Matches(CSI, m) || Matches(Either(OSC, SHORT), m);
    assert Matches(Either(OSC, SHORT), m) <==> Matches(OSC, m) || Matches(SHORT, m);
    assert Matches(CSI, m) <==> CsiShape(m);
    assert Matches(OSC, m) <==> OscShape(m);
    assert Matches(SHORT, m) <==> ShortShape(m);
  }

  lemma ScannedIsEscape(s: seq<Byte>)
    requires 0 < Scan(s)
    ensures Escape(s[..Scan(s)])
  {
    var n := Scan(s);
    var m := s[..n];
    var t := m[2..];
    assert forall x | 0 <= x < n - 2 :: t[x] == s[x + 2];
    ParameterRun(s, 2);
    TextRun(s, 2);
    if s[1] == OSC_OPEN {
      var e := TextEnd(s, 2);
      assert TextThenEnding(t, e - 2);
    }
    EscapeMeaning(m);
  }

  lemma CsiIsScanned(s: seq<Byte>, n: nat)
    requires n <= |s| && CsiShape(s[..n])
    ensures Scan(s) == n
  {
    var t := s[..n][2..];
    assert forall x | 2 <= x < n :: s[x] == t[x - 2];
    assert s[0] == s[..n][0] && s[1] == s[..n][1];
    ParameterRun(s, 2);
    assert ParameterEnd(s, 2) == n - 1;
  }

  lemma OscIsScanned(s: seq<Byte>, n: nat)
    requires n <= |s| && OscShape(s[..n])
    ensures Scan(s) == n
  {
    var t := s[..n][2..];
    assert forall x | 2 <= x < n :: s[x] == t[x - 2];
    assert s[0] == s[..n][0] && s[1] == s[..n][1];
    var l :| TextThenEnding(t, l);
    assert s[l + 2] == t[l] == t[l..][0];
    TextRun(s, 2);
    assert TextEnd(s, 2) == l + 2;
    if t[l..] != [BEL] {
      assert s[l + 3] == t[l + 1] == t[l..][1];
    }
  }

  lemma ShortIsScanned(s: seq<Byte>, n: nat)
    requires n <= |s| && ShortShape(s[..n])
    ensures Scan(s) == n
  {
    assert s[0] == s[..n][0] && s[1] == s[..n][1];
  }

  /**
   The pattern is unambiguous, and the scanner decides it: at the head of any
   input at most one length matches any of the alternatives, and Scan returns it.
   */
  lemma ScanFindsTheMatch(s: seq<Byte>, n: nat)
    requires 0 < n <= |s|
    ensures Escape(s[..n]) <==> Scan(s) == n
  {
    EscapeMeaning(s[..n]);
    if Scan(s) == n {
      ScannedIsEscape(s);
    } else if CsiShape(s[..n]) {
      CsiIsScanned(s, n);
    } else if OscShape(s[..n]) {
      OscIsScanned(s, n);
    } else if ShortShape(s[..n]) {
      ShortIsScanned(s, n);
    }
  }

  /** No escape sequence is a proper prefix of another one. */
  lemma PrefixFree(m: seq<Byte>, longer: seq<Byte>)
    requires Escape(m) && Escape(longer) && m <= longer && 0 < |m|
    ensures m == longer
  {
    hide Escape, Scan;
    assert longer[..|m|] == m;
    ScanFindsTheMatch(longer, |m|);
    ScanFindsTheMatch(longer, |longer|);
    assert longer[..|longer|] == longer;
  }

  // ---------- occurrences in a stream ----------

  lemma OccursIsScanned(s: seq<Byte>, i: int, j: int)
    requires 0 <= i < j <= |s|
    ensures Occurs(s, i, j) <==> Scan(s[i..]) == j - i
  {
    hide Escape, Scan;
    assert s[i..][..j - i] == s[i..j];
    ScanFindsTheMatch(s[i..], j - i);
  }

  /** Inside a sequence, no byte after the first can begin another one. */
  lemma NothingStartsInside(s: seq<Byte>, k: nat)
    requires 0 < k < Scan(s)
    ensures Scan(s[k..]) == 0
  {
    ParameterRun(s, 2);
    TextRun(s, 2);
    assert s[k..][0] == s[k];
    if 1 < |s[k..]| {
      assert s[k..][1] == s[k + 1];
    }
  }

  lemma NothingOccursInside(s: seq<Byte>, i: int, j: int, k: int)
    requires Occurs(s, i, j) && i < k < j
    ensures Scan(s[k..]) == 0
  {
    hide Escape, Scan;
    OccursIsScanned(s, i, j);
    NothingStartsInside(s[i..], k - i);
    assert s[i..][k - i..] == s[k..];
  }

  /** Two occurrences in one stream are the same or do not overlap: leftmost-match rules never decide anything. */
  lemma OccurrencesDisjoint(s: seq<Byte>, i: int, j: int, i': int, j': int)
    requires Occurs(s, i, j) && Occurs(s, i', j')
    ensures (i == i' && j == j') || j <= i' || j' <= i
  {
    hide Escape, Scan;
    OccursIsScanned(s, i, j);
    OccursIsScanned(s, i', j');
    if i < i' < j {
      NothingOccursInside(s, i, j, i');
    } else if i' < i < j' {
      NothingOccursInside(s, i', j', i);
    }
  }

  lemma OccursShift(s: seq<Byte>, k: nat, i: int, j: int)
    requires k <= |s|
    ensures 0 <= i ==> (Occurs(s[k..], i, j) <==> Occurs(s, i + k, j + k))
  {
    hide Escape, Scan;
    if 0 <= i < j <= |s| - k {
      assert s[k..][i..j] == s[i + k..j + k];
    }
  }

  lemma OccursInPrefix(a: seq<Byte>, b: seq<Byte>, i: int, j: int)
    requires j <= |a|
    ensures Occurs(a, i, j) <==> Occurs(a + b, i, j)
  {
    if 0 <= i < j {
      assert (a + b)[i..j] == a[i..j];
    }
  }

  // ---------- what ReplaceAll with an empty replacement means ----------

  ghost predicate NoneStarts(s: seq<Byte>, p: int, q: int) {
    forall i, j :: p <= i < q ==> !Occurs(s, i, j)
  }

  /** ms are the successive leftmost non-overlapping matches of the pattern in s from position p on. */
  ghost predicate LeftmostMatches(s: seq<Byte>, p: nat, ms: seq<(nat, nat)>)
    decreases ms
  {
    if ms == [] then NoneStarts(s, p, |s|)
    else
      var (i, j) := ms[0];
      p <= i && Occurs(s, i, j) && NoneStarts(s, p, i) && LeftmostMatches(s, j, ms[1..])
  }

  /** s from p on without the stretches in ms. */
  ghost function Without(s: seq<Byte>, p: nat, ms: seq<(nat, nat)>): seq<Byte>
    requires p <= |s| && LeftmostMatches(s, p, ms)
    decreases ms
  {
    if ms == [] then s[p..] else s[p..ms[0].0] + Without(s, ms[0].1, ms[1..])
  }

  lemma {:induction false} PlainRun(s: seq<Byte>, p: nat, q: nat)
    requires p <= q <= |s| && NoneStarts(s, p, q)
    ensures Strip(s[p..]) == s[p..q] + Strip(s[q..])
    decreases q - p
  {
    hide Escape, Scan;
    if p < q {
      var n := Scan(s[p..]);
      if 0 < n {
        OccursIsScanned(s, p, p + n);
        assert false;
      }
      assert s[p..][1..] == s[p + 1..];
      PlainRun(s, p + 1, q);
      assert s[p..q] == [s[p]] + s[p + 1..q];
    }
  }

  /** The single-pass scanner removes exactly what the regular-expression replacement removes. */
  lemma {:induction false} StripIsReplaceAll(s: seq<Byte>, p: nat, ms: seq<(nat, nat)>)
    requires p <= |s| && LeftmostMatches(s, p, ms)
    ensures Strip(s[p..]) == Without(s, p, ms)
    decreases ms
  {
    hide Escape, Scan;
    if ms == [] {
      PlainRun(s, p, |s|);
      assert s[p..|s|] == s[p..];
    } else {
      var (i, j) := ms[0];
      PlainRun(s, p, i);
      OccursIsScanned(s, i, j);
      assert s[i..][j - i..] == s[j..];
      StripIsReplaceAll(s, j, ms[1..]);
    }
  }

  /** The replacement is always defined: such a list of matches exists. */
  lemma {:induction false} MatchesExist(s: seq<Byte>, p: nat, q: nat) returns (ms: seq<(nat, nat)>)
    requires p <= q <= |s| && NoneStarts(s, p, q)
    ensures LeftmostMatches(s, p, ms)
    decreases |s| - q
  {
    hide Escape, Scan;
    if q == |s| {
      ms := [];
    } else {
      var n := Scan(s[q..]);
      if 0 < n {
        OccursIsScanned(s, q, q + n);
        var rest := MatchesExist(s, q + n, q + n);
        ms := [(q, q + n)] + rest;
      } else {
        forall j | Occurs(s, q, j) ensures false {
          OccursIsScanned(s, q, j);
        }
        assert NoneStarts(s, p, q + 1);
        ms := MatchesExist(s, p, q + 1);
      }
    }
  }
}
