/** `clean_stage_directions` (app/generator/script_generator.py): bracketed stage directions
    that mention a production keyword are cut out of a script, the lines are trimmed, blank ones
    dropped, and runs of spaces and tabs folded into one space. */
module StageDirections {
  import opened Wrappers
  import opened PyStr

  const Keywords: seq<string> := ["인트로", "아웃트로", "음악", "bgm", "효과음", "자막", "화면", "컷", "전환"]

  /** `any(k in t for k in ks)`. */
  predicate AnyIn(t: string, ks: seq<string>) {
    ks != [] && (Contains(t, ks[0]) || AnyIn(t, ks[1..]))
  }

  /** `any(k in inner.lower() for k in ks)`. */
  predicate HasKeyword(inner: string, ks: seq<string>) {
    AnyIn(Lower(inner), ks)
  }

  /** A bracket pattern: the opening text, the closing character, and what must follow it.
      The inner text is one or more characters other than the closing one. */
  datatype Pattern = Pattern(open: string, close: char, tail: string)

  /** `\*\*\[([^\]]+)\]\*\*`, `\[([^\]]+)\]` and `\(([^\)]+)\)`. */
  const Bold: Pattern := Pattern("**[", ']', "**")
  const Square: Pattern := Pattern("[", ']', "")
  const Paren: Pattern := Pattern("(", ')', "")

  /** The length of the longest prefix of `s` without `c`. */
  function RunBefore(s: string, c: char): (n: nat)
    ensures n <= |s| && (forall i :: 0 <= i < n ==> s[i] != c) && (n < |s| ==> s[n] == c)
  {
    if s == [] || s[0] == c then 0 else 1 + RunBefore(s[1..], c)
  }

  /** The length of the inner text when the pattern matches at the start of `s`. Since the inner
      text cannot hold the closing character, the only candidate is the longest run without it. */
  function InnerAt(s: string, p: Pattern): (r: Option<nat>)
    ensures r.Some? ==> 1 <= r.value && MatchLen(p, r.value) <= |s|
  {
    if !(p.open <= s) then None
    else
      var rest := s[|p.open|..];
      var n := RunBefore(rest, p.close);
      if 1 <= n < |rest| && p.tail <= rest[n + 1..] then Some(n) else None
  }

  /** The length of a whole match with an inner text of length `n`. */
  function MatchLen(p: Pattern, n: nat): nat {
    |p.open| + n + 1 + |p.tail|
  }

  /** How far one step of the scan advances: past a whole match, or one character. */
  function Skip(s: string, p: Pattern): (n: nat)
    requires s != []
    ensures 1 <= n <= |s|
  {
    match InnerAt(s, p)
    case None => 1
    case Some(n) => MatchLen(p, n)
  }

  /** What one step of the scan emits: a match whose inner text holds a keyword is dropped, any
      other match is kept verbatim, and a character where nothing matches is kept. */
  function Emit(s: string, p: Pattern, ks: seq<string>): (r: string)
    requires s != []
    ensures r == [] || r == s[..Skip(s, p)]
  {
    match InnerAt(s, p)
    case None => [s[0]]
    case Some(n) => if HasKeyword(s[|p.open|..|p.open| + n], ks) then [] else s[..MatchLen(p, n)]
  }

  /** `re.sub(pattern, repl, s)`, scanning left to right. */
  function Sub(s: string, p: Pattern, ks: seq<string>): (r: string)
    ensures |r| <= |s|
    decreases |s|
  {
    if s == [] then [] else Emit(s, p, ks) + Sub(s[Skip(s, p)..], p, ks)
  }

  /** A step drops nothing when the text holds no keyword. */
  lemma EmitWithoutKeyword(s: string, p: Pattern, ks: seq<string>)
    requires s != [] && !HasKeyword(s, ks)
    ensures Emit(s, p, ks) == s[..Skip(s, p)]
  {
    if InnerAt(s, p).Some? {
      var n := InnerAt(s, p).value;
      KeywordInSlice(s, |p.open|, |p.open| + n, ks);
    }
  }

  /** `strip_brackets`. */
  function StripBrackets(s: string, ks: seq<string>): string {
    Sub(Sub(Sub(s, Bold, ks), Square, ks), Paren, ks)
  }

  /** Lowering a slice is slicing the lowered text. */
  lemma LowerSlice(s: string, a: nat, b: nat)
    requires a <= b <= |s|
    ensures Lower(s[a..b]) == Lower(s)[a..b]
  {
  }

  /** What occurs in a slice of `t` occurs in `t`. */
  lemma ContainsInSlice(t: string, a: nat, b: nat, k: string)
    requires a <= b <= |t| && Contains(t[a..b], k)
    ensures Contains(t, k)
  {
    var j := ContainsWitness(t[a..b], k);
    var u := t[a..b];
    forall x | j <= x < j + |k|
      ensures u[x] == t[a + x]
    {
    }
    assert t[a + j..a + j + |k|] == u[j..j + |k|];
    ContainsAt(t, k, a + j);
  }

  lemma {:induction false} AnyInSlice(t: string, a: nat, b: nat, ks: seq<string>)
    requires a <= b <= |t| && AnyIn(t[a..b], ks)
    ensures AnyIn(t, ks)
  {
    if Contains(t[a..b], ks[0]) {
      ContainsInSlice(t, a, b, ks[0]);
    } else {
      AnyInSlice(t, a, b, ks[1..]);
    }
  }

  /** Some keyword of the list occurring in `t` is enough. */
  lemma {:induction false} AnyInMember(t: string, ks: seq<string>, k: string)
    requires k in ks && Contains(t, k)
    ensures AnyIn(t, ks)
  {
    if ks[0] != k {
      AnyInMember(t, ks[1..], k);
    }
  }

  /** Keywords are matched in any ASCII letter case: a keyword written in capitals (`BGM`)
      anywhere in the inner text is found. */
  lemma KeywordAnyCase(pre: string, k: string, post: string, ks: seq<string>)
    requires k in ks && Lower(k) == k
    ensures HasKeyword(pre + Upper(k) + post, ks)
  {
    var t := Lower(pre + Upper(k) + post);
    assert t[|pre|..|pre| + |k|] == k by {
      forall i | 0 <= i < |k|
        ensures t[|pre| + i] == k[i]
      {
        assert (pre + Upper(k) + post)[|pre| + i] == UpperChar(k[i]);
        assert LowerChar(k[i]) == k[i];
      }
    }
    ContainsAt(t, k, |pre|);
    AnyInMember(t, ks, k);
  }

  /** A keyword in a slice of `s` is a keyword in `s`. */
  lemma KeywordInSlice(s: string, a: nat, b: nat, ks: seq<string>)
    requires a <= b <= |s|
    ensures HasKeyword(s[a..b], ks) ==> HasKeyword(s, ks)
  {
    if HasKeyword(s[a..b], ks) {
      LowerSlice(s, a, b);
      AnyInSlice(Lower(s), a, b, ks);
    }
  }

  /** Text without any keyword passes a substitution unchanged. */
  lemma {:induction false} SubWithoutKeyword(s: string, p: Pattern, ks: seq<string>)
    requires !HasKeyword(s, ks)
    ensures Sub(s, p, ks) == s
    decreases |s|
  {
    if s != [] {
      var m := Skip(s, p);
      var t := s[m..];
      EmitWithoutKeyword(s, p, ks);
      KeywordInSlice(s, m, |s|, ks);
      assert s[m..|s|] == t;
      SubWithoutKeyword(t, p, ks);
      assert Sub(s, p, ks) == s[..m] + t;
    }
  }

  /** So a line without any keyword keeps all its brackets. */
  lemma StripBracketsWithoutKeyword(s: string, ks: seq<string>)
    requires !HasKeyword(s, ks)
    ensures StripBrackets(s, ks) == s
  {
    SubWithoutKeyword(s, Bold, ks);
    SubWithoutKeyword(s, Square, ks);
    SubWithoutKeyword(s, Paren, ks);
  }

  /** A substitution only removes characters. */
  lemma {:induction false} SubChars(s: string, p: Pattern, ks: seq<string>)
    ensures forall i :: 0 <= i < |Sub(s, p, ks)| ==> Sub(s, p, ks)[i] in s
    decreases |s|
  {
    if s != [] {
      var r := Sub(s, p, ks);
      var m := Skip(s, p);
      var e := Emit(s, p, ks);
      SubChars(s[m..], p, ks);
      forall i | 0 <= i < |r|
        ensures r[i] in s
      {
        if i < |e| {
          assert r[i] == s[i];
        } else {
          assert r[i] == Sub(s[m..], p, ks)[i - |e|];
        }
      }
    }
  }

  /** Characters that end a line for `str.splitlines()`. */
  predicate IsLineBreak(c: char) {
    || c == '\n' || c == '\r' || c == '\U{B}' || c == '\U{C}'
    || c == '\U{1C}' || c == '\U{1D}' || c == '\U{1E}'
    || c == '\U{85}' || c == '\U{2028}' || c == '\U{2029}'
  }

  predicate NoLineBreak(s: string) {
    forall i :: 0 <= i < |s| ==> !IsLineBreak(s[i])
  }

  /** `text.splitlines()`, except that `"\r\n"` and a final line break give an extra empty line,
      which the cleaning drops anyway. */
  function SplitLines(s: string): (lines: seq<string>)
    ensures |lines| >= 1
    ensures forall k :: 0 <= k < |lines| ==> NoLineBreak(lines[k])
  {
    if s == [] then [""]
    else
      var rest := SplitLines(s[1..]);
      if IsLineBreak(s[0]) then [""] + rest
      else
        assert NoLineBreak([s[0]] + rest[0]) by {
          forall i | 0 <= i < |[s[0]] + rest[0]|
            ensures !IsLineBreak(([s[0]] + rest[0])[i])
          {
            if i > 0 {
              assert ([s[0]] + rest[0])[i] == rest[0][i - 1];
            }
          }
        }
        [[s[0]] + rest[0]] + rest[1..]
  }

  /** One line after `line.strip()`, `strip_brackets` and `.strip()`. */
  function CleanLine(line: string, ks: seq<string>): string {
    Strip(StripBrackets(Strip(line), ks))
  }

  /** The cleaning of each line, for a given keyword list. */
  function Cleaner(ks: seq<string>): (clean: string -> string)
    ensures forall line :: clean(line) == CleanLine(line, ks)
  {
    line => CleanLine(line, ks)
  }

  /** A cleaned line is trimmed and holds only characters of the line. */
  lemma CleanLineShape(line: string, ks: seq<string>)
    ensures IsTrimmed(CleanLine(line, ks))
    ensures forall i :: 0 <= i < |CleanLine(line, ks)| ==> CleanLine(line, ks)[i] in line
  {
    var a := Strip(line);
    var b := Sub(a, Bold, ks);
    var c := Sub(b, Square, ks);
    var d := Sub(c, Paren, ks);
    StripChars(line);
    SubChars(a, Bold, ks);
    SubChars(b, Square, ks);
    SubChars(c, Paren, ks);
    StripChars(d);
  }

  /** The `lines` list: each line cleaned, the blank results dropped, in order. */
  function KeptLines(lines: seq<string>, clean: string -> string): (kept: seq<string>)
    ensures |kept| <= |lines|
  {
    if lines == [] then []
    else
      var last := clean(lines[|lines| - 1]);
      KeptLines(lines[..|lines| - 1], clean) + (if last != [] then [last] else [])
  }

  /** A cleaned line of a line without line breaks has none either. */
  lemma CleanLineNoBreak(line: string, ks: seq<string>)
    requires NoLineBreak(line)
    ensures IsTrimmed(CleanLine(line, ks)) && NoLineBreak(CleanLine(line, ks))
  {
    CleanLineShape(line, ks);
    NoBreakFrom(CleanLine(line, ks), line);
  }

  /** Text made of characters of a text without line breaks has none either. */
  lemma NoBreakFrom(c: string, line: string)
    requires NoLineBreak(line)
    requires forall i :: 0 <= i < |c| ==> c[i] in line
    ensures NoLineBreak(c)
  {
    forall i | 0 <= i < |c|
      ensures !IsLineBreak(c[i])
    {
      var j :| 0 <= j < |line| && line[j] == c[i];
    }
  }

  /** A kept line: non-empty, trimmed, and without a line break. */
  predicate GoodLine(s: string) {
    s != [] && IsTrimmed(s) && NoLineBreak(s)
  }

  /** What is kept is a non-empty cleaned line, and in order: if every cleaned line is blank or
      good, every kept line is good. */
  lemma {:induction false} KeptLinesGood(lines: seq<string>, clean: string -> string)
    requires forall k :: 0 <= k < |lines| ==> clean(lines[k]) == [] || GoodLine(clean(lines[k]))
    ensures forall k :: 0 <= k < |KeptLines(lines, clean)| ==> GoodLine(KeptLines(lines, clean)[k])
  {
    if lines != [] {
      var init := lines[..|lines| - 1];
      assert forall k :: 0 <= k < |init| ==> init[k] == lines[k];
      KeptLinesGood(init, clean);
    }
  }

  /** Every kept line of the script is non-empty, trimmed, and without a line break. */
  lemma KeptLinesShape(lines: seq<string>, ks: seq<string>)
    requires forall k :: 0 <= k < |lines| ==> NoLineBreak(lines[k])
    ensures forall k :: 0 <= k < |KeptLines(lines, Cleaner(ks))| ==> GoodLine(KeptLines(lines, Cleaner(ks))[k])
  {
    var clean := Cleaner(ks);
    forall k | 0 <= k < |lines|
      ensures clean(lines[k]) == [] || GoodLine(clean(lines[k]))
    {
      CleanLineNoBreak(lines[k], ks);
    }
    KeptLinesGood(lines, clean);
  }

  /** A space or a tab: `[ \t]`. */
  predicate IsBlankChar(c: char) {
    c == ' ' || c == '\t'
  }

  /** The length of the leading run of spaces and tabs. */
  function BlankRun(s: string): (n: nat)
    ensures n <= |s| && (forall i :: 0 <= i < n ==> IsBlankChar(s[i])) && (n < |s| ==> !IsBlankChar(s[n]))
  {
    if s == [] || !IsBlankChar(s[0]) then 0 else 1 + BlankRun(s[1..])
  }

  /** `re.sub(r"[ \t]{2,}", " ", s)`: each run of two or more spaces and tabs becomes one space;
      a lone space or tab stays. */
  function FoldBlanks(s: string): (r: string)
    ensures |r| <= |s|
    decreases |s|
  {
    if s == [] then []
    else
      var n := BlankRun(s);
      if n >= 2 then [' '] + FoldBlanks(s[n..]) else [s[0]] + FoldBlanks(s[1..])
  }

  /** No two adjacent characters are both spaces or tabs. */
  predicate NoBlankPair(s: string) {
    forall i :: 0 <= i < |s| - 1 ==> !(IsBlankChar(s[i]) && IsBlankChar(s[i + 1]))
  }

  /** Folding keeps a first character that is not a space or tab, and starts with a space or tab
      exactly when the text does. */
  lemma FoldBlanksHead(s: string)
    requires s != []
    ensures FoldBlanks(s) != []
    ensures IsBlankChar(FoldBlanks(s)[0]) <==> IsBlankChar(s[0])
    ensures !IsBlankChar(s[0]) ==> FoldBlanks(s)[0] == s[0]
  {
  }

  /** Folding leaves no two adjacent spaces or tabs. */
  lemma {:induction false} FoldBlanksNoPair(s: string)
    ensures NoBlankPair(FoldBlanks(s))
    decreases |s|
  {
    if s != [] {
      var n := BlankRun(s);
      var t := if n >= 2 then s[n..] else s[1..];
      var r := FoldBlanks(s);
      FoldBlanksNoPair(t);
      if t != [] {
        FoldBlanksHead(t);
      }
      forall i | 0 <= i < |r| - 1
        ensures !(IsBlankChar(r[i]) && IsBlankChar(r[i + 1]))
      {
        if i > 0 {
          assert r[i] == FoldBlanks(t)[i - 1] && r[i + 1] == FoldBlanks(t)[i];
        }
      }
    }
  }

  /** Folding keeps a last character that is not a space or tab. */
  lemma {:induction false} FoldBlanksLast(s: string)
    requires s != [] && !IsBlankChar(s[|s| - 1])
    ensures FoldBlanks(s) != [] && FoldBlanks(s)[|FoldBlanks(s)| - 1] == s[|s| - 1]
    decreases |s|
  {
    var n := BlankRun(s);
    if n >= 2 {
      FoldBlanksLast(s[n..]);
    } else if |s| > 1 {
      FoldBlanksLast(s[1..]);
    }
  }

  /** Folding adds no character but spaces. */
  lemma {:induction false} FoldBlanksChars(s: string)
    ensures forall i :: 0 <= i < |FoldBlanks(s)| ==> FoldBlanks(s)[i] in s || FoldBlanks(s)[i] == ' '
    decreases |s|
  {
    if s != [] {
      var n := BlankRun(s);
      var t := if n >= 2 then s[n..] else s[1..];
      var r := FoldBlanks(s);
      FoldBlanksChars(t);
      forall i | 0 <= i < |r|
        ensures r[i] in s || r[i] == ' '
      {
        if i > 0 {
          assert r[i] == FoldBlanks(t)[i - 1];
          assert FoldBlanks(t)[i - 1] in t ==> FoldBlanks(t)[i - 1] in s;
        }
      }
    }
  }

  /** A newline stops every run, so folding works line by line. */
  lemma {:induction false} FoldBlanksAcrossNewline(a: string, b: string)
    ensures FoldBlanks(a + "\n" + b) == FoldBlanks(a) + "\n" + FoldBlanks(b)
    decreases |a|
  {
    var s := a + "\n" + b;
    if a == [] {
      assert s == "\n" + b && s[1..] == b;
    } else {
      var n := BlankRun(a);
      assert BlankRun(s) == n by {
        assert s == a + ("\n" + b);
        BlankRunPrefix(a, "\n" + b);
      }
      if n >= 2 {
        var t := a[n..];
        assert s[n..] == t + "\n" + b;
        FoldBlanksAcrossNewline(t, b);
        assert FoldBlanks(s) == [' '] + FoldBlanks(s[n..]);
        assert FoldBlanks(a) == [' '] + FoldBlanks(t);
        ConsJoin(' ', FoldBlanks(t), FoldBlanks(b));
      } else {
        var t := a[1..];
        assert s[0] == a[0] && s[1..] == t + "\n" + b;
        FoldBlanksAcrossNewline(t, b);
        assert FoldBlanks(s) == [a[0]] + FoldBlanks(s[1..]);
        assert FoldBlanks(a) == [a[0]] + FoldBlanks(t);
        ConsJoin(a[0], FoldBlanks(t), FoldBlanks(b));
      }
    }
  }

  lemma ConsJoin(c: char, x: string, y: string)
    ensures [c] + (x + "\n" + y) == [c] + x + "\n" + y
  {
  }

  /** A run inside `a` ends inside `a` when what follows starts with something else. */
  lemma {:induction false} BlankRunPrefix(a: string, b: string)
    requires b != [] && !IsBlankChar(b[0])
    ensures BlankRun(a + b) == BlankRun(a)
  {
    if a != [] && IsBlankChar(a[0]) {
      assert (a + b)[1..] == a[1..] + b;
      BlankRunPrefix(a[1..], b);
    }
  }

  /** Each line folded. */
  function FoldEach(lines: seq<string>): (r: seq<string>)
    ensures |r| == |lines| && forall k :: 0 <= k < |lines| ==> r[k] == FoldBlanks(lines[k])
  {
    seq(|lines|, k requires 0 <= k < |lines| => FoldBlanks(lines[k]))
  }

  /** Folding the joined lines is joining the folded lines. */
  lemma {:induction false} FoldBlanksJoin(lines: seq<string>)
    ensures FoldBlanks(Join("\n", lines)) == Join("\n", FoldEach(lines))
  {
    if |lines| > 1 {
      FoldBlanksJoin(lines[1..]);
      FoldBlanksAcrossNewline(lines[0], Join("\n", lines[1..]));
      assert FoldEach(lines)[1..] == FoldEach(lines[1..]);
    }
  }

  /** `clean_stage_directions` for a given keyword list. */
  function CleanWith(text: string, ks: seq<string>): string {
    if text == [] then ""
    else Strip(FoldBlanks(Join("\n", KeptLines(SplitLines(text), Cleaner(ks)))))
  }

  /** `clean_stage_directions`. */
  function CleanStageDirections(text: string): string {
    CleanWith(text, Keywords)
  }

  /** Without a keyword in it, a line is only trimmed. */
  lemma CleanLineWithoutKeyword(line: string, ks: seq<string>)
    requires !HasKeyword(line, ks)
    ensures CleanLine(line, ks) == Strip(line)
  {
    var t := Strip(line);
    var a := StripSlice(line);
    KeywordInSlice(line, a, a + |t|, ks);
    assert !HasKeyword(line[a..a + |t|], ks);
    assert line[a..a + |t|] == t;
    StripBracketsWithoutKeyword(t, ks);
    StripIdempotent(line);
  }
  /** A good line stays good when its blanks are folded, and has no two adjacent blanks. */
  lemma FoldedLineGood(s: string)
    requires GoodLine(s)
    ensures GoodLine(FoldBlanks(s)) && NoBlankPair(FoldBlanks(s))
  {
    var r := FoldBlanks(s);
    FoldBlanksHead(s);
    FoldBlanksLast(s);
    FoldBlanksNoPair(s);
    FoldBlanksChars(s);
    forall i | 0 <= i < |r|
      ensures !IsLineBreak(r[i])
    {
      if r[i] != ' ' {
        var j :| 0 <= j < |s| && s[j] == r[i];
      }
    }
  }

  /** Joined good lines begin and end with a character other than whitespace. */
  lemma JoinedTrimmed(parts: seq<string>)
    requires forall k :: 0 <= k < |parts| ==> GoodLine(parts[k])
    ensures IsTrimmed(Join("\n", parts))
  {
    if parts != [] {
      JoinEnds("\n", parts);
    }
  }

  /** Folding good lines one by one gives good lines without adjacent blanks. */
  lemma FoldEachGood(kept: seq<string>)
    requires forall k :: 0 <= k < |kept| ==> GoodLine(kept[k])
    ensures forall k :: 0 <= k < |FoldEach(kept)| ==> GoodLine(FoldEach(kept)[k]) && NoBlankPair(FoldEach(kept)[k])
  {
    forall k | 0 <= k < |kept|
      ensures GoodLine(FoldEach(kept)[k]) && NoBlankPair(FoldEach(kept)[k])
    {
      FoldedLineGood(kept[k]);
    }
  }

  /** Joining good lines, folding the blanks and trimming gives the folded lines joined. */
  lemma JoinFoldStrip(kept: seq<string>)
    requires forall k :: 0 <= k < |kept| ==> GoodLine(kept[k])
    ensures Strip(FoldBlanks(Join("\n", kept))) == Join("\n", FoldEach(kept))
  {
    var pieces := FoldEach(kept);
    FoldBlanksJoin(kept);
    assert IsTrimmed(Join("\n", pieces)) by {
      FoldEachGood(kept);
      JoinedTrimmed(pieces);
    }
    StripTrimmed(Join("\n", pieces));
  }

  /** Splitting joined good lines at newlines gives them back. */
  lemma SplitJoinedLines(pieces: seq<string>)
    requires pieces != [] && forall k :: 0 <= k < |pieces| ==> GoodLine(pieces[k])
    ensures Split(Join("\n", pieces), '\n') == pieces
  {
    forall k | 0 <= k < |pieces|
      ensures '\n' !in pieces[k]
    {
    }
    SplitJoin(pieces, '\n');
  }

  /** The empty text keeps no line. */
  lemma NothingKeptOfEmpty(ks: seq<string>)
    ensures KeptLines(SplitLines(""), Cleaner(ks)) == []
  {
    assert SplitLines("") == [""];
    assert Sub("", Paren, ks) == "";
    assert CleanLine("", ks) == "";
  }

  /** The lines of the output: the kept lines, each with its blanks folded. */
  function OutputLines(text: string, ks: seq<string>): seq<string> {
    FoldEach(KeptLines(SplitLines(text), Cleaner(ks)))
  }

  /** The output is its lines joined by newlines (no line at all for the empty text). */
  lemma CleanWithJoin(text: string, ks: seq<string>)
    ensures CleanWith(text, ks) == Join("\n", OutputLines(text, ks))
  {
    var kept := KeptLines(SplitLines(text), Cleaner(ks));
    KeptLinesShape(SplitLines(text), ks);
    JoinFoldStrip(kept);
    if text == [] {
      NothingKeptOfEmpty(ks);
    }
  }

  /** Every output line is non-empty, trimmed, and holds no line break and no two adjacent
      blanks. */
  lemma OutputLinesGood(text: string, ks: seq<string>)
    ensures forall k :: 0 <= k < |OutputLines(text, ks)| ==>
      GoodLine(OutputLines(text, ks)[k]) && NoBlankPair(OutputLines(text, ks)[k])
  {
    KeptLinesShape(SplitLines(text), ks);
    FoldEachGood(KeptLines(SplitLines(text), Cleaner(ks)));
  }

  /** Splitting the output at newlines gives its lines back. */
  lemma CleanWithSplit(text: string, ks: seq<string>)
    requires OutputLines(text, ks) != []
    ensures Split(CleanWith(text, ks), '\n') == OutputLines(text, ks)
  {
    CleanWithJoin(text, ks);
    OutputLinesGood(text, ks);
    SplitJoinedLines(OutputLines(text, ks));
  }

  /** Lines without a keyword are only trimmed: nothing but keyword-bearing groups is cut. */
  lemma {:induction false} KeptWithoutKeyword(lines: seq<string>, ks: seq<string>)
    requires forall k :: 0 <= k < |lines| ==> !HasKeyword(lines[k], ks)
    ensures KeptLines(lines, Cleaner(ks)) == KeptLines(lines, line => Strip(line))
  {
    if lines != [] {
      var init := lines[..|lines| - 1];
      assert forall k :: 0 <= k < |init| ==> init[k] == lines[k];
      KeptWithoutKeyword(init, ks);
      CleanLineWithoutKeyword(lines[|lines| - 1], ks);
    }
  }

  /** The kept lines of one more line. */
  lemma KeptLinesSnoc(lines: seq<string>, i: nat, clean: string -> string)
    requires i < |lines|
    ensures KeptLines(lines[..i + 1], clean)
            == KeptLines(lines[..i], clean) + (if clean(lines[i]) != [] then [clean(lines[i])] else [])
  {
    assert lines[..i + 1][..i] == lines[..i];
  }

  /** The function as written: a loop over the lines that skips blank ones. */
  method CleanStageDirectionsLoop(text: string, keywords: seq<string>) returns (out: string)
    ensures out == CleanWith(text, keywords)
  {
    if text == [] {
      return "";
    }
    var all := SplitLines(text);
    var lines: seq<string> := [];
    var i := 0;
    while i < |all|
      invariant 0 <= i <= |all|
      invariant lines == KeptLines(all[..i], Cleaner(keywords))
    {
      KeptLinesSnoc(all, i, Cleaner(keywords));
      var stripped := Strip(all[i]);
      if stripped == [] {
        assert StripBrackets(stripped, keywords) == [];
        i := i + 1;
        continue;
      }
      var cleaned := Strip(StripBrackets(stripped, keywords));
      if cleaned != [] {
        lines := lines + [cleaned];
      }
      i := i + 1;
    }
    assert all[..i] == all;
    out := Join("\n", lines);
    out := FoldBlanks(out);
    out := Strip(out);
  }
}
