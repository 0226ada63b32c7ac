/**
 The pty-to-console pipe strips each read on its own. These proofs say what
 that does to the stream: when no read boundary cuts an escape sequence it is
 the same as stripping the whole stream, and when one does, exactly the cut
 sequence leaks through.
 */
module PtyPipe {
  import opened Bytes
  import opened AnsiStrip

  /** Position p does not lie strictly inside an escape sequence of s. */
  ghost predicate Clean(s: seq<Byte>, p: int) {
    forall i, j :: i < p < j ==> !Occurs(s, i, j)
  }

  lemma EscapeFreeIsKept(s: seq<Byte>)
    requires NoneStarts(s, 0, |s|)
    ensures Strip(s) == s
  {
    PlainRun(s, 0, |s|);
    assert s[0..] == s && s[0..|s|] == s && s[|s|..] == [];
  }

  /** A cut at a clean position commutes with stripping. */
  lemma {:induction false} CleanSplit(a: seq<Byte>, b: seq<Byte>)
    requires Clean(a + b, |a|)
    ensures Strip(a + b) == Strip(a) + Strip(b)
    decreases |a|
  {
    hide Escape, Scan;
    if a == [] {
      assert a + b == b;
    } else {
      var s := a + b;
      var n := Scan(s);
      var step := if 0 < n then n else 1;
      assert s[0..] == s && a[0..] == a;
      if 0 < n {
        OccursIsScanned(s, 0, n);
        OccursInPrefix(a, b, 0, n);
        OccursIsScanned(a, 0, n);
      } else if 0 < Scan(a) {
        OccursIsScanned(a, 0, Scan(a));
        OccursInPrefix(a, b, 0, Scan(a));
        OccursIsScanned(s, 0, Scan(a));
      }
      assert s[step..] == a[step..] + b;
      forall i, j | i < |a[step..]| < j ensures !Occurs(s[step..], i, j) {
        if 0 <= i {
          OccursShift(s, step, i, j);
        }
      }
      CleanSplit(a[step..], b);
    }
  }

  /** A proper beginning of an escape sequence passes through unchanged. */
  lemma BeginningPasses(m: seq<Byte>, k: nat)
    requires Escape(m) && k < |m|
    ensures Strip(m[..k]) == m[..k]
  {
    hide Escape, Scan, Strip;
    var a, b := m[..k], m[k..];
    assert m == a + b && m[0..|m|] == m;
    forall i, j | 0 <= i < |a| ensures !Occurs(a, i, j) {
      if Occurs(a, i, j) {
        OccursInPrefix(a, b, i, j);
        OccurrencesDisjoint(m, 0, |m|, i, j);
      }
    }
    EscapeFreeIsKept(a);
  }

  /** So does the remainder of one, whatever follows it. */
  lemma RemainderPasses(m: seq<Byte>, k: nat, rest: seq<Byte>)
    requires Escape(m) && 0 < k <= |m|
    ensures Strip(m[k..] + rest) == m[k..] + Strip(rest)
  {
    hide Escape, Scan, Strip;
    var s := m + rest;
    assert s[0..|m|] == m;
    forall i, j | k <= i < |m| ensures !Occurs(s, i, j) {
      if Occurs(s, i, j) {
        OccurrencesDisjoint(s, 0, |m|, i, j);
      }
    }
    PlainRun(s, k, |m|);
    assert s[k..] == m[k..] + rest && s[k..|m|] == m[k..] && s[|m|..] == rest;
  }

  lemma EscapeIsDropped(m: seq<Byte>, rest: seq<Byte>)
    requires Escape(m)
    ensures Strip(m + rest) == Strip(rest)
  {
    var s := m + rest;
    EscapeMeaning(m);
    assert s[0..|m|] == m && s[0..] == s && s[|m|..] == rest;
    OccursIsScanned(s, 0, |m|);
  }

  /** The start of an occurrence is a clean position. */
  lemma StartIsClean(s: seq<Byte>, i: int, j: int)
    requires Occurs(s, i, j)
    ensures Clean(s, i)
  {
    hide Escape;
    forall i', j' | i' < i < j' ensures !Occurs(s, i', j') {
      if Occurs(s, i', j') {
        OccurrencesDisjoint(s, i, j, i', j');
      }
    }
  }

  lemma StripAroundOccurrence(s: seq<Byte>, i: int, j: int)
    requires Occurs(s, i, j)
    ensures Strip(s) == Strip(s[..i]) + Strip(s[j..])
  {
    hide Escape, Scan, Strip;
    assert s == s[..i] + s[i..] && s[i..] == s[i..j] + s[j..];
    StartIsClean(s, i, j);
    CleanSplit(s[..i], s[i..]);
    EscapeIsDropped(s[i..j], s[j..]);
  }

  lemma LeftOfTheCut(s: seq<Byte>, i: int, j: int, c: int)
    requires Occurs(s, i, j) && i < c < j
    ensures Strip(s[..c]) == Strip(s[..i]) + s[i..c]
  {
    hide Escape, Scan, Strip;
    var a := s[..c];
    assert a == s[..i] + s[i..c] && s == a + s[c..];
    StartIsClean(s, i, j);
    forall i', j' | i' < i < j' ensures !Occurs(a, i', j') {
      if Occurs(a, i', j') {
        OccursInPrefix(a, s[c..], i', j');
      }
    }
    CleanSplit(s[..i], s[i..c]);
    assert s[i..j][..c - i] == s[i..c];
    BeginningPasses(s[i..j], c - i);
  }

  lemma RightOfTheCut(s: seq<Byte>, i: int, j: int, c: int)
    requires Occurs(s, i, j) && i < c < j
    ensures Strip(s[c..]) == s[c..j] + Strip(s[j..])
  {
    hide Escape, Scan, Strip;
    assert s[i..j][c - i..] == s[c..j] && s[c..] == s[c..j] + s[j..];
    RemainderPasses(s[i..j], c - i, s[j..]);
  }

  /**
   A cut inside the escape sequence at s[i..j]: stripping the two pieces
   apart lets exactly that sequence through, and nothing else changes.
   */
  lemma SplitLeaksTheSequence(s: seq<Byte>, i: int, j: int, cut: int)
    requires Occurs(s, i, j) && i < cut < j
    ensures Strip(s) == Strip(s[..i]) + Strip(s[j..])
    ensures Strip(s[..cut]) + Strip(s[cut..]) == Strip(s[..i]) + s[i..j] + Strip(s[j..])
  {
    hide Escape, Scan, Strip;
    StripAroundOccurrence(s, i, j);
    LeftOfTheCut(s, i, j, cut);
    RightOfTheCut(s, i, j, cut);
    assert s[i..j] == s[i..cut] + s[cut..j];
  }

  lemma SplitLength(a: seq<Byte>, b: seq<Byte>)
    ensures |Strip(a + b)| <= |Strip(a)| + |Strip(b)|
    ensures Clean(a + b, |a|) <==> |Strip(a + b)| == |Strip(a)| + |Strip(b)|
  {
    hide Escape, Scan, Strip;
    if Clean(a + b, |a|) {
      CleanSplit(a, b);
    } else {
      var i, j :| i < |a| < j && Occurs(a + b, i, j);
      SplitLeaksTheSequence(a + b, i, j, |a|);
      assert (a + b)[..|a|] == a && (a + b)[|a|..] == b;
    }
  }

  // ---------- many reads ----------

  function StripEach(chunks: seq<seq<Byte>>): (r: seq<seq<Byte>>)
    ensures |r| == |chunks| && forall k :: 0 <= k < |r| ==> r[k] == Strip(chunks[k])
  {
    seq(|chunks|, k requires 0 <= k < |chunks| => Strip(chunks[k]))
  }

  /** No boundary between two reads lies inside an escape sequence of the whole stream. */
  ghost predicate CleanReads(chunks: seq<seq<Byte>>) {
    forall k :: 0 <= k <= |chunks| ==> Clean(Concat(chunks), |Concat(chunks[..k])|)
  }

  lemma CleanShift(a: seq<Byte>, b: seq<Byte>, p: nat)
    requires Clean(a + b, |a|)
    ensures Clean(b, p) <==> Clean(a + b, |a| + p)
  {
    hide Escape;
    var s := a + b;
    assert s[|a|..] == b;
    forall i, j | i < p < j ensures 0 <= i ==> (Occurs(b, i, j) <==> Occurs(s, i + |a|, j + |a|)) {
      OccursShift(s, |a|, i, j);
    }
    if Clean(b, p) {
      forall i, j | i < |a| + p < j ensures !Occurs(s, i, j) {
        if |a| <= i {
          assert i - |a| < p < j - |a|;
          OccursShift(s, |a|, i - |a|, j - |a|);
        }
      }
    }
    if Clean(s, |a| + p) {
      forall i, j | i < p < j ensures !Occurs(b, i, j) {
        if 0 <= i {
          assert i + |a| < |a| + p < j + |a|;
        }
      }
    }
  }

  lemma CleanReadsSplit(first: seq<Byte>, rest: seq<seq<Byte>>)
    ensures CleanReads([first] + rest) <==> Clean(first + Concat(rest), |first|) && CleanReads(rest)
  {
    hide Escape;
    var chunks := [first] + rest;
    var s := first + Concat(rest);
    assert chunks[1..] == rest && Concat(chunks) == s;
    assert Concat(chunks[..1]) == first by { assert chunks[..1] == [first]; }
    forall k | 0 <= k <= |rest| ensures |Concat(chunks[..k + 1])| == |first| + |Concat(rest[..k])| {
      assert chunks[..k + 1][1..] == rest[..k];
    }
    if CleanReads(chunks) {
      assert Clean(Concat(chunks), |Concat(chunks[..1])|);
    }
    if Clean(s, |first|) {
      forall k | 0 <= k <= |rest|
        ensures Clean(Concat(rest), |Concat(rest[..k])|) <==> Clean(s, |Concat(chunks[..k + 1])|)
      {
        CleanShift(first, Concat(rest), |Concat(rest[..k])|);
      }
      if CleanReads(rest) {
        forall k | 0 <= k <= |chunks| ensures Clean(s, |Concat(chunks[..k])|) {
          if k == 0 {
            assert chunks[..0] == [];
          } else {
            assert Clean(Concat(rest), |Concat(rest[..k - 1])|);
          }
        }
      }
      if CleanReads(chunks) {
        forall k | 0 <= k <= |rest| ensures Clean(Concat(rest), |Concat(rest[..k])|) {
          assert Clean(s, |Concat(chunks[..k + 1])|);
        }
      }
    }
  }

  /**
   Stripping read by read equals stripping the stream if and only if no read
   boundary falls inside an escape sequence, for every list of reads.
   */
  lemma {:induction false} ChunkedStripping(chunks: seq<seq<Byte>>)
    ensures CleanReads(chunks) <==> Concat(StripEach(chunks)) == Strip(Concat(chunks))
    ensures |Strip(Concat(chunks))| <= |Concat(StripEach(chunks))|
    ensures |Concat(StripEach(chunks))| == |Strip(Concat(chunks))| ==> CleanReads(chunks)
  {
    hide Escape, Scan;
    if chunks == [] {
      forall i, j ensures !Occurs([], i, j) {}
    } else {
      var first, rest := chunks[0], chunks[1..];
      assert chunks == [first] + rest;
      assert StripEach(chunks)[1..] == StripEach(rest);
      ChunkedStripping(rest);
      SplitLength(first, Concat(rest));
      CleanReadsSplit(first, rest);
      if CleanReads(chunks) {
        CleanSplit(first, Concat(rest));
      }
    }
  }

  // ---------- stripping undoes decoration ----------

  /** A document: text runs without ESC, and whole escape sequences, in any order. */
  datatype Piece = Text(text: seq<Byte>) | Code(sequence: seq<Byte>)

  ghost predicate Decorated(doc: seq<Piece>) {
    forall k :: 0 <= k < |doc| ==>
      match doc[k]
      case Text(t) => forall x :: 0 <= x < |t| ==> t[x] != ESC
      case Code(m) => Escape(m)
  }

  function Rendered(doc: seq<Piece>): seq<Byte> {
    if doc == [] then []
    else (match doc[0] case Text(t) => t case Code(m) => m) + Rendered(doc[1..])
  }

  function PlainText(doc: seq<Piece>): seq<Byte> {
    if doc == [] then []
    else (match doc[0] case Text(t) => t case Code(_) => []) + PlainText(doc[1..])
  }

  lemma TextPasses(t: seq<Byte>, rest: seq<Byte>)
    requires forall x :: 0 <= x < |t| ==> t[x] != ESC
    ensures Strip(t + rest) == t + Strip(rest)
  {
    var s := t + rest;
    forall i, j | 0 <= i < |t| ensures !Occurs(s, i, j) {
      assert s[i..][0] == t[i];
      if i < j <= |s| {
        OccursIsScanned(s, i, j);
      }
    }
    PlainRun(s, 0, |t|);
    assert s[0..] == s && s[0..|t|] == t && s[|t|..] == rest;
  }

  lemma {:induction false} StripUndoesDecoration(doc: seq<Piece>)
    requires Decorated(doc)
    ensures Strip(Rendered(doc)) == PlainText(doc)
  {
    if doc != [] {
      StripUndoesDecoration(doc[1..]);
      match doc[0]
      case Text(t) => TextPasses(t, Rendered(doc[1..]));
      case Code(m) => EscapeIsDropped(m, Rendered(doc[1..]));
    }
  }

  /** A stream is unchanged exactly when it holds no escape sequence. */
  lemma UnchangedIffPlain(s: seq<Byte>)
    ensures Strip(s) == s <==> NoneStarts(s, 0, |s|)
  {
    if NoneStarts(s, 0, |s|) {
      EscapeFreeIsKept(s);
    } else {
      var i, j :| 0 <= i < |s| && Occurs(s, i, j);
      OccurrenceShortens(s, i, j);
    }
  }

  lemma OccurrenceShortens(s: seq<Byte>, i: int, j: int)
    requires Occurs(s, i, j)
    ensures |Strip(s)| < |s|
  {
    hide Escape, Scan, Strip;
    StripAroundOccurrence(s, i, j);
    StripNoLonger(s[..i]);
    StripNoLonger(s[j..]);
  }

  lemma {:induction false} StripNoLonger(s: seq<Byte>)
    ensures |Strip(s)| <= |s|
  {
    if s != [] {
      StripNoLonger(s[if 0 < Scan(s) then Scan(s) else 1..]);
    }
  }

  lemma DoubledEsc(s: seq<Byte>)
    requires 2 <= |s| && s[0] == ESC && s[1] == ESC
    ensures Strip(s) == [ESC] + Strip(s[1..])
  {
  }

  /** Stripping is not idempotent: ESC, then ESC[0m, then [0m leaves a fresh sequence. */
  lemma StripNotIdempotent()
    ensures var reset := [ESC, BRACKET, 48, 109];
            Strip([ESC] + reset + [BRACKET, 48, 109]) == reset && Strip(reset) == []
  {
    var reset: seq<Byte> := [ESC, BRACKET, 48, 109];
    var tail: seq<Byte> := [BRACKET, 48, 109];
    assert Escape(reset) by {
      EscapeMeaning(reset);
    }
    hide Escape, Scan;
    EscapeIsDropped(reset, tail);
    EscapeIsDropped(reset, []);
    assert reset + [] == reset && tail + [] == tail;
    TextPasses(tail, []);
    var s := [ESC] + reset + tail;
    assert s[1..] == reset + tail;
    DoubledEsc(s);
  }

  // ---------- stripping twice ----------

  /** What is left of s from p on between the matches that are removed. */
  ghost function Gaps(s: seq<Byte>, p: nat, ms: seq<(nat, nat)>): seq<seq<Byte>>
    requires p <= |s| && LeftmostMatches(s, p, ms)
    decreases ms
  {
    if ms == [] then [s[p..]] else [s[p..ms[0].0]] + Gaps(s, ms[0].1, ms[1..])
  }

  lemma SliceOfSlice(s: seq<Byte>, p: nat, q: nat, i: nat, j: nat)
    requires p <= q <= |s| && i <= j <= q - p
    ensures s[p..q][i..j] == s[p + i..p + j]
  {
    var g := s[p..q];
    forall k | 0 <= k < j - i ensures g[i..j][k] == s[p + i..p + j][k] {
      assert g[i + k] == s[p + i + k];
    }
  }

  lemma PlainGap(s: seq<Byte>, p: nat, q: nat)
    requires p <= q <= |s| && NoneStarts(s, p, q)
    ensures Strip(s[p..q]) == s[p..q]
  {
    hide Escape, Strip;
    var g := s[p..q];
    forall i, j | 0 <= i < |g| ensures !Occurs(g, i, j) {
      if i < j <= |g| {
        SliceOfSlice(s, p, q, i, j);
        assert !Occurs(s, p + i, p + j);
      }
    }
    EscapeFreeIsKept(g);
  }

  lemma {:induction false} GapsJoin(s: seq<Byte>, p: nat, ms: seq<(nat, nat)>)
    requires p <= |s| && LeftmostMatches(s, p, ms)
    ensures Concat(Gaps(s, p, ms)) == Without(s, p, ms)
    ensures StripEach(Gaps(s, p, ms)) == Gaps(s, p, ms)
    decreases ms
  {
    hide Escape, Strip;
    if ms == [] {
      assert s[p..] == s[p..|s|];
      PlainGap(s, p, |s|);
      assert Concat([s[p..]]) == s[p..];
      assert StripEach([s[p..]]) == [Strip(s[p..])];
    } else {
      var g, rest := s[p..ms[0].0], Gaps(s, ms[0].1, ms[1..]);
      PlainGap(s, p, ms[0].0);
      GapsJoin(s, ms[0].1, ms[1..]);
      assert ([g] + rest)[1..] == rest;
    }
  }

  /**
   Stripping twice equals stripping once if and only if no escape sequence of
   what is left spans a place where a match was removed.
   */
  lemma StripTwice(s: seq<Byte>, ms: seq<(nat, nat)>)
    requires LeftmostMatches(s, 0, ms)
    ensures Strip(Strip(s)) == Strip(s) <==> CleanReads(Gaps(s, 0, ms))
  {
    hide Strip, Escape, CleanReads, Concat, StripEach, Gaps;
    StripIsReplaceAll(s, 0, ms);
    assert s[0..] == s;
    GapsJoin(s, 0, ms);
    ChunkedStripping(Gaps(s, 0, ms));
  }

  /** Every ESC of s from p on lies inside a match. */
  ghost predicate EscCovered(s: seq<Byte>, p: nat, ms: seq<(nat, nat)>) {
    forall x :: p <= x < |s| && s[x] == ESC ==> exists k :: 0 <= k < |ms| && ms[k].0 <= x < ms[k].1
  }

  lemma {:induction false} MatchesAscend(s: seq<Byte>, p: nat, ms: seq<(nat, nat)>, k: nat)
    requires LeftmostMatches(s, p, ms) && k < |ms|
    ensures p <= ms[k].0 && ms[k].1 <= |s|
    decreases ms
  {
    if 0 < k {
      MatchesAscend(s, ms[0].1, ms[1..], k - 1);
    }
  }

  lemma {:induction false} NoEscLeft(s: seq<Byte>, p: nat, ms: seq<(nat, nat)>)
    requires p <= |s| && LeftmostMatches(s, p, ms) && EscCovered(s, p, ms)
    ensures ESC !in Without(s, p, ms)
    decreases ms
  {
    hide Escape, NoneStarts;
    if ms == [] {
      assert forall x :: p <= x < |s| ==> s[x] != ESC;
    } else {
      var (i, j) := ms[0];
      forall x | p <= x < |s| && s[x] == ESC && !(i <= x < j)
        ensures j <= x && exists k :: 0 <= k < |ms[1..]| && ms[1..][k].0 <= x < ms[1..][k].1
      {
        var k :| 0 <= k < |ms| && ms[k].0 <= x < ms[k].1;
        MatchesAscend(s, j, ms[1..], k - 1);
        assert ms[1..][k - 1] == ms[k];
      }
      assert forall x :: p <= x < i ==> s[x] != ESC;
      NoEscLeft(s, j, ms[1..]);
    }
  }

  lemma NoEscNoSequence(s: seq<Byte>)
    requires ESC !in s
    ensures Strip(s) == s
  {
    TextPasses(s, []);
    assert s + [] == s;
  }

  /** One pass is enough for every stream that has no ESC outside its sequences. */
  lemma OnePassIsEnough(s: seq<Byte>, ms: seq<(nat, nat)>)
    requires LeftmostMatches(s, 0, ms) && EscCovered(s, 0, ms)
    ensures Strip(Strip(s)) == Strip(s)
  {
    hide Strip, Escape;
    StripIsReplaceAll(s, 0, ms);
    assert s[0..] == s;
    NoEscLeft(s, 0, ms);
    NoEscNoSequence(Strip(s));
  }

  // ---------- the pipe ----------

  /**
   pipePtyToCons: each read that delivers bytes becomes one console write.
   chunks are the successive non-error results of reading the pty.
   */
  method PipePtyToCons(chunks: seq<seq<Byte>>, strip: bool) returns (writes: seq<seq<Byte>>)
    ensures Concat(writes) == if strip then Concat(StripEach(chunks)) else Concat(chunks)
    ensures strip && CleanReads(chunks) ==> Concat(writes) == Strip(Concat(chunks))
    ensures |writes| <= |chunks|
    ensures (forall x | 0 <= x < |chunks| :: chunks[x] != []) ==> |writes| == |chunks|
  {
    assert Strip([]) == [];
    hide Strip, CleanReads;
    writes := [];
    var k := 0;
    while k < |chunks|
      invariant 0 <= k <= |chunks| && |writes| <= k
      invariant Concat(writes) == if strip then Concat(StripEach(chunks[..k])) else Concat(chunks[..k])
      invariant (forall x | 0 <= x < k :: chunks[x] != []) ==> |writes| == k
    {
      var data := chunks[k];
      ghost var done := chunks[..k];
      assert chunks[..k + 1] == done + [data];
      assert StripEach(done + [data]) == StripEach(done) + [Strip(data)];
      ConcatSnoc(done, data);
      ConcatSnoc(StripEach(done), Strip(data));
      if 0 < |data| {
        var out := if strip then Strip(data) else data;
        ConcatSnoc(writes, out);
        writes := writes + [out];
      }
      k := k + 1;
    }
    assert chunks[..k] == chunks;
    ChunkedStripping(chunks);
  }
}
