/**
 The client's environment script: lines of key=value, read into a map.
 */
module ClientScript {
  import opened Bytes

  type Bindings = seq<(string, string)>

  /** unicode.IsSpace, which strings.TrimSpace goes by. */
  predicate IsSpace(c: char) {
    var u := c as int;
    9 <= u <= 13 || u == 32 || u == 0x85 || u == 0xA0 || u == 0x1680 || 0x2000 <= u <= 0x200A
    || u == 0x2028 || u == 0x2029 || u == 0x202F || u == 0x205F || u == 0x3000
  }

  predicate IsQuote(c: char) { c == '\'' || c == '"' }

  function TrimLeft(s: string, drop: char -> bool): (r: string)
    ensures |r| <= |s|
  {
    if s != [] && drop(s[0]) then TrimLeft(s[1..], drop) else s
  }

  function TrimRight(s: string, drop: char -> bool): (r: string)
    ensures |r| <= |s|
  {
    if s != [] && drop(s[|s| - 1]) then TrimRight(s[..|s| - 1], drop) else s
  }

  function Trim(s: string, drop: char -> bool): string { TrimRight(TrimLeft(s, drop), drop) }

  function TrimSpace(s: string): string { Trim(s, IsSpace) }

  function TrimQuotes(s: string): string { Trim(s, IsQuote) }

  /** The position of the first c in s, or |s|. */
  function IndexOf(s: string, c: char): (i: nat)
    ensures i <= |s| && c !in s[..i] && (i < |s| ==> s[i] == c)
  {
    if s == [] || s[0] == c then 0 else
      var i := 1 + IndexOf(s[1..], c);
      assert s[..i] == [s[0]] + s[1..][..i - 1];
      i
  }

  /** strings.Split(s, sep) for a one-character separator. */
  function Split(s: string, sep: char): (parts: seq<string>)
    ensures 0 < |parts|
  {
    var i := IndexOf(s, sep);
    if i == |s| then [s] else [s[..i]] + Split(s[i + 1..], sep)
  }

  /** What one line does to the environment. */
  function Assign(env: map<string, string>, line: string): map<string, string> {
    var i := IndexOf(line, '=');
    if i == |line| then env else env[TrimSpace(line[..i]) := TrimQuotes(TrimSpace(line[i + 1..]))]
  }

  function AssignAll(env: map<string, string>, lines: seq<string>): map<string, string>
    decreases lines
  {
    if lines == [] then env else AssignAll(Assign(env, lines[0]), lines[1..])
  }

  function Environment(script: string): map<string, string> {
    AssignAll(map[], Split(script, '\n'))
  }

  method ParseScript(script: string) returns (env: map<string, string>)
    ensures env == Environment(script)
  {
    env := map[];
    var lines := Split(script, '\n');
    var k := 0;
    while k < |lines|
      invariant 0 <= k <= |lines|
      invariant AssignAll(env, lines[k..]) == Environment(script)
    {
      var line := lines[k];
      assert lines[k..][1..] == lines[k + 1..];
      var eq := IndexOf(line, '=');
      if eq < |line| {
        env := env[TrimSpace(line[..eq]) := TrimQuotes(TrimSpace(line[eq + 1..]))];
      }
      k := k + 1;
    }
  }

  // ---------- what a script says ----------

  /** The last binding of a key wins. */
  function LastWins(env: map<string, string>, bs: Bindings): map<string, string>
    decreases bs
  {
    if bs == [] then env else LastWins(env[bs[0].0 := bs[0].1], bs[1..])
  }

  function Line(key: string, value: string): string { key + "=" + value }

  function Quoted(value: string): string { "'" + value + "'" }

  function Rendered(bs: Bindings): string {
    if bs == [] then "" else Line(bs[0].0, Quoted(bs[0].1)) + "\n" + Rendered(bs[1..])
  }

  predicate Tight(s: string, drop: char -> bool) {
    s == "" || (!drop(s[0]) && !drop(s[|s| - 1]))
  }

  /** Trimming keeps a string exactly when neither end is to be dropped. */
  lemma TrimKeeps(s: string, drop: char -> bool)
    ensures Trim(s, drop) == s <==> Tight(s, drop)
  {
    if s != "" && !drop(s[0]) && drop(s[|s| - 1]) {
      assert |TrimRight(s[..|s| - 1], drop)| < |s|;
    } else if s != "" && drop(s[0]) {
      assert |TrimLeft(s[1..], drop)| < |s|;
    }
  }

  lemma TrimUnquotes(v: string)
    ensures TrimQuotes(TrimSpace(Quoted(v))) == v <==> Tight(v, IsQuote)
  {
    var q := Quoted(v);
    TrimKeeps(q, IsSpace);
    assert q[1..] == v + "'";
    if Tight(v, IsQuote) {
      if v == "" {
        assert q[1..] == "'";
        assert TrimLeft("'", IsQuote) == TrimLeft("", IsQuote) by {
          assert "'"[1..] == "";
        }
        assert TrimLeft(q, IsQuote) == "";
      } else {
        assert TrimLeft(q, IsQuote) == v + "'";
        assert (v + "'")[..|v|] == v;
        assert TrimRight(v + "'", IsQuote) == v;
      }
    } else {
      TrimTight(q, IsQuote);
    }
  }

  lemma {:induction false} TrimRightTight(s: string, drop: char -> bool)
    ensures var r := TrimRight(s, drop);
            r <= s && (r == "" || !drop(r[|r| - 1]))
  {
    if s != "" && drop(s[|s| - 1]) {
      TrimRightTight(s[..|s| - 1], drop);
    }
  }

  lemma {:induction false} TrimLeftTight(s: string, drop: char -> bool)
    ensures var r := TrimLeft(s, drop); r == "" || !drop(r[0])
  {
    if s != "" && drop(s[0]) {
      TrimLeftTight(s[1..], drop);
    }
  }

  lemma TrimTight(s: string, drop: char -> bool)
    ensures Tight(Trim(s, drop), drop)
  {
    TrimLeftTight(s, drop);
    TrimRightTight(TrimLeft(s, drop), drop);
  }

  lemma {:induction false} IndexAfter(a: string, c: char, b: string)
    requires c !in a
    ensures IndexOf(a + [c] + b, c) == |a|
  {
    var s := a + [c] + b;
    if a != "" {
      assert a[0] in a;
      assert s[1..] == a[1..] + [c] + b;
      IndexAfter(a[1..], c, b);
    }
  }

  lemma SplitLine(line: string, sep: char, rest: string)
    requires sep !in line
    ensures Split(line + [sep] + rest, sep) == [line] + Split(rest, sep)
  {
    var s := line + [sep] + rest;
    IndexAfter(line, sep, rest);
    assert s[..|line|] == line && s[|line| + 1..] == rest;
  }

  lemma AssignLine(env: map<string, string>, k: string, v: string)
    requires '=' !in k
    ensures Assign(env, Line(k, v)) == env[TrimSpace(k) := TrimQuotes(TrimSpace(v))]
  {
    IndexAfter(k, '=', v);
    var line := Line(k, v);
    assert line[..|k|] == k && line[|k| + 1..] == v;
  }

  /** What is dropped at the ends of a key or a value: white space, and then both kinds of quotes. */
  lemma DroppedAtTheEnds(c: char)
    ensures TrimSpace([c]) == "" <==> c as int in SPACES
    ensures TrimQuotes([c]) == "" <==> c in "'\""
  {
    TrimOne(c, IsSpace);
    TrimOne(c, IsQuote);
  }

  lemma TrimOne(c: char, drop: char -> bool)
    ensures Trim([c], drop) == if drop(c) then "" else [c]
  {
    assert [c][1..] == [] && [c][..0] == [];
  }

  /** One quoted line binds its key to its value exactly when the key is trimmed and the value bears no quote at an end. */
  lemma QuotedLineBinds(k: string, v: string)
    requires '=' !in k
    ensures Assign(map[], Line(k, Quoted(v))) == map[k := v] <==> Tight(k, IsSpace) && Tight(v, IsQuote)
  {
    AssignLine(map[], k, Quoted(v));
    TrimKeeps(k, IsSpace);
    TrimUnquotes(v);
    var r := Assign(map[], Line(k, Quoted(v)));
    var k', v' := TrimSpace(k), TrimQuotes(TrimSpace(Quoted(v)));
    assert r == map[k' := v'];
    assert k' in r && r[k'] == v';
    if r == map[k := v] {
      assert k' in map[k := v];
    }
  }

  /** The same for the unquoted form, which the client also sends. */
  lemma BareLineBinds(k: string, v: string)
    requires '=' !in k
    ensures Assign(map[], Line(k, v)) == map[k := v] <==> Tight(k, IsSpace) && Tight(v, IsSpace) && Tight(v, IsQuote)
  {
    AssignLine(map[], k, v);
    TrimKeeps(k, IsSpace);
    TrimKeeps(v, IsSpace);
    TrimKeeps(v, IsQuote);
    var r := Assign(map[], Line(k, v));
    var k', w := TrimSpace(k), TrimSpace(v);
    assert r == map[k' := TrimQuotes(w)];
    assert k' in r && r[k'] == TrimQuotes(w);
    if r == map[k := v] {
      assert k' in map[k := v];
      assert TrimQuotes(w) == v;
      TrimTight(w, IsQuote);
      TrimShorter(v, IsSpace);
      TrimShorter(w, IsQuote);
      assert |v| <= |w| <= |v|;
    }
  }

  lemma {:induction false} TrimLeftShorter(s: string, drop: char -> bool)
    ensures |TrimLeft(s, drop)| == |s| ==> TrimLeft(s, drop) == s
  {
  }

  lemma TrimShorter(s: string, drop: char -> bool)
    ensures |Trim(s, drop)| <= |s| && (|Trim(s, drop)| == |s| ==> Trim(s, drop) == s)
  {
    TrimRightTight(TrimLeft(s, drop), drop);
    TrimLeftShorter(s, drop);
  }

  // ---------- whole scripts ----------

  predicate Only(s: string, drop: char -> bool) { forall c :: c in s ==> drop(c) }

  /** Trimming removes what is to be dropped around a tight string, and only that. */
  lemma TrimAround(a: string, s: string, b: string, drop: char -> bool)
    requires Only(a, drop) && Only(b, drop) && Tight(s, drop)
    ensures Trim(a + s + b, drop) == s
  {
    TrimLeftAround(a, s + b, drop);
    assert a + s + b == a + (s + b);
    if s == "" {
      TrimLeftAround(b, "", drop);
      assert b + "" == b && s + b == b;
    } else {
      assert TrimLeft(s + b, drop) == s + b;
      TrimRightAround(s, b, drop);
    }
  }

  lemma {:induction false} TrimLeftAround(a: string, s: string, drop: char -> bool)
    requires Only(a, drop)
    ensures TrimLeft(a + s, drop) == TrimLeft(s, drop)
    decreases a
  {
    if a == "" {
      assert a + s == s;
    } else {
      assert a[0] in a && Only(a[1..], drop);
      assert (a + s)[1..] == a[1..] + s;
      TrimLeftAround(a[1..], s, drop);
    }
  }

  lemma {:induction false} TrimRightAround(s: string, b: string, drop: char -> bool)
    requires s != "" && !drop(s[|s| - 1]) && Only(b, drop)
    ensures TrimRight(s + b, drop) == s
    decreases |b|
  {
    if b == "" {
      assert s + b == s;
    } else {
      var init := b[..|b| - 1];
      assert b[|b| - 1] in b && Only(init, drop);
      assert (s + b)[..|s + b| - 1] == s + init;
      TrimRightAround(s, init, drop);
    }
  }

  /**
   A line of a script: a binding, with spaces around the key, around the value,
   and quotes around the value, as many as one likes; or a line without =.
   */
  datatype Item =
    | Entry(before: string, key: string, behind: string, lead: string, open: string, value: string, close: string, tail: string)
    | Other(text: string)

  function ItemText(item: Item): string {
    match item
    case Entry(before, key, behind, lead, open, value, close, tail) =>
      before + key + behind + "=" + (lead + (open + value + close) + tail)
    case Other(text) => text
  }

  predicate ProperItem(item: Item) {
    '\n' !in ItemText(item) &&
    match item
    case Entry(before, key, behind, lead, open, value, close, tail) =>
      '=' !in before + key + behind && Only(before + behind, IsSpace) && Only(lead + tail, IsSpace) &&
      Only(open + close, IsQuote) && Tight(key, IsSpace) && Tight(open + value + close, IsSpace) && Tight(value, IsQuote)
    case Other(text) => '=' !in text
  }

  function Bound(env: map<string, string>, items: seq<Item>): map<string, string>
    decreases items
  {
    if items == [] then env
    else Bound(if items[0].Entry? then env[items[0].key := items[0].value] else env, items[1..])
  }

  /** The lines with newlines between them, and perhaps one after the last. */
  function Script(items: seq<Item>, ended: bool): string {
    if items == [] then ""
    else ItemText(items[0]) + if |items| == 1 && !ended then "" else "\n" + Script(items[1..], ended)
  }

  lemma OnlyPart(a: string, b: string, drop: char -> bool)
    requires Only(a + b, drop)
    ensures Only(a, drop) && Only(b, drop)
  {
    assert forall c :: c in a ==> c in a + b;
    assert forall c :: c in b ==> c in a + b;
  }

  lemma NoneIn(line: string, c: char)
    requires c !in line
    ensures IndexOf(line, c) == |line|
  {
    assert forall k :: 0 <= k < |line| ==> line[k] in line;
  }

  lemma ItemBinds(env: map<string, string>, item: Item)
    requires ProperItem(item)
    ensures Assign(env, ItemText(item)) == Bound(env, [item])
  {
    match item
    case Entry(before, key, behind, lead, open, value, close, tail) =>
      var inner := open + value + close;
      AssignLine(env, before + key + behind, lead + inner + tail);
      OnlyPart(before, behind, IsSpace);
      OnlyPart(lead, tail, IsSpace);
      OnlyPart(open, close, IsQuote);
      TrimAround(before, key, behind, IsSpace);
      TrimAround(lead, inner, tail, IsSpace);
      TrimAround(open, value, close, IsQuote);
    case Other(text) => NoneIn(text, '=');
  }

  /** Every script of such lines, with its last line ended or not, reads as its bindings, the last one of a key winning. */
  lemma {:induction false} ScriptReadsFrom(env: map<string, string>, items: seq<Item>, ended: bool)
    requires forall k :: 0 <= k < |items| ==> ProperItem(items[k])
    ensures AssignAll(env, Split(Script(items, ended), '\n')) == Bound(env, items)
    decreases items
  {
    hide ProperItem, ItemText, Assign;
    if items == [] {
      EmptyLine(env);
    } else {
      var line := ItemText(items[0]);
      assert ProperItem(items[0]);
      ItemBinds(env, items[0]);
      NoNewline(items[0]);
      var env' := Assign(env, line);
      if |items| == 1 && !ended {
        assert line + "" == line;
        NoneIn(line, '\n');
        assert Split(line, '\n') == [line] && [line][1..] == [];
        assert items == [items[0]];
      } else {
        var rest := Script(items[1..], ended);
        assert Script(items, ended) == line + ['\n'] + rest;
        SplitLine(line, '\n', rest);
        var lines := Split(Script(items, ended), '\n');
        assert lines[0] == line && lines[1..] == Split(rest, '\n');
        ScriptReadsFrom(env', items[1..], ended);
      }
    }
  }

  lemma NoNewline(item: Item)
    requires ProperItem(item)
    ensures '\n' !in ItemText(item)
  {
  }

  lemma EmptyLine(env: map<string, string>)
    ensures AssignAll(env, Split("", '\n')) == env
  {
    assert Split("", '\n') == [""];
    assert Assign(env, "") == env;
    assert [""][1..] == [];
  }

  lemma ScriptReads(items: seq<Item>, ended: bool)
    requires forall k :: 0 <= k < |items| ==> ProperItem(items[k])
    ensures Environment(Script(items, ended)) == Bound(map[], items)
  {
    ScriptReadsFrom(map[], items, ended);
  }

  predicate Plain(bs: Bindings) {
    forall b :: b in bs ==>
      '=' !in b.0 && '\n' !in b.0 && Tight(b.0, IsSpace) && '\n' !in b.1 && Tight(b.1, IsQuote)
  }

  function Items(bs: Bindings): seq<Item> {
    if bs == [] then [] else [Entry("", bs[0].0, "", "", "'", bs[0].1, "'", "")] + Items(bs[1..])
  }

  lemma {:induction false} ItemsAreProper(bs: Bindings)
    requires Plain(bs)
    ensures forall k :: 0 <= k < |Items(bs)| ==> ProperItem(Items(bs)[k])
    decreases bs
  {
    if bs != [] {
      assert bs[0] in bs;
      ItemIsLine(bs[0].0, bs[0].1);
      hide ProperItem;
      ItemsAreProper(bs[1..]);
    }
  }

  lemma {:induction false} ItemsBind(env: map<string, string>, bs: Bindings)
    ensures Bound(env, Items(bs)) == LastWins(env, bs)
    decreases bs
  {
    if bs != [] {
      assert Items(bs)[1..] == Items(bs[1..]);
      ItemsBind(env[bs[0].0 := bs[0].1], bs[1..]);
    }
  }

  lemma {:induction false} ItemsRender(bs: Bindings)
    requires Plain(bs)
    ensures Script(Items(bs), true) == Rendered(bs)
    ensures bs != [] ==> Script(Items(bs), false) + "\n" == Rendered(bs)
    decreases bs
  {
    if bs != [] {
      var (k, v) := bs[0];
      assert bs[0] in bs;
      ItemIsLine(k, v);
      hide ProperItem, ItemText;
      assert Items(bs)[1..] == Items(bs[1..]);
      ItemsRender(bs[1..]);
    }
  }

  lemma ItemIsLine(k: string, v: string)
    requires '=' !in k && '\n' !in k && Tight(k, IsSpace) && '\n' !in v && Tight(v, IsQuote)
    ensures var item := Entry("", k, "", "", "'", v, "'", ""); ProperItem(item) && ItemText(item) == Line(k, Quoted(v))
  {
    var item := Entry("", k, "", "", "'", v, "'", "");
    assert "" + k + "" == k && "" + Quoted(v) + "" == Quoted(v);
    assert ItemText(item) == Line(k, Quoted(v));
    assert Quoted(v)[0] == '\'' && Quoted(v)[|Quoted(v)| - 1] == '\'';
  }

  /** Every script written as key='value' lines, the last one ended or not, reads back as its last-binding-wins map. */
  lemma ScriptRoundTrip(bs: Bindings)
    requires Plain(bs)
    ensures Environment(Rendered(bs)) == LastWins(map[], bs)
    ensures bs != [] ==> Rendered(bs) != "" && Environment(Rendered(bs)[..|Rendered(bs)| - 1]) == LastWins(map[], bs)
  {
    ItemsAreProper(bs);
    ItemsBind(map[], bs);
    ItemsRender(bs);
    ScriptReads(Items(bs), true);
    ScriptReads(Items(bs), false);
    hide Environment, Script, Items;
    if bs != [] {
      var s := Script(Items(bs), false);
      assert (s + "\n")[..|s|] == s;
    }
  }
}
