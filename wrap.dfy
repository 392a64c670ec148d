/** Subtitle line wrapping and the line limit, over an abstract text-width measure (the font's
    `draw.textlength`): the greedy word wrap of `make_subtitle_image`
    (app/video/video_creator.py) and `make_center_text_image` (app/short/short_creator.py),
    `wrap_text_by_width` (app/short/short_creator.py), and the "…" truncation both subtitle
    images apply. */
module Wrap {
  import opened PyStr
  import opened Seqs

  /** `if cur: lines.append(cur)`. */
  function Flush(cur: string): seq<string> {
    if cur != [] then [cur] else []
  }

  // ---------------------------------------------------------------------------------------
  // The greedy word wrap

  /** `(cur + " " + word).strip()`. */
  function SpaceJoin(): (string, string) -> string {
    (cur, word) => Strip(cur + " " + word)
  }

  /** The word loop from a state: each word is tried after the current line (`join(cur, word)`);
      when that is too wide the current line is emitted and the word starts the next one. */
  function WrapWords(words: seq<string>, cur: string, width: string -> int, maxWidth: int,
                     join: (string, string) -> string): seq<string>
    decreases |words|
  {
    if words == [] then Flush(cur)
    else
      var test := join(cur, words[0]);
      if width(test) <= maxWidth then WrapWords(words[1..], test, width, maxWidth, join)
      else Flush(cur) + WrapWords(words[1..], words[0], width, maxWidth, join)
  }

  function LineWrapper(width: string -> int, maxWidth: int, join: (string, string) -> string): (f: string -> seq<string>)
    ensures forall line :: f(line) == WrapWords(Split(line, ' '), "", width, maxWidth, join)
  {
    line => WrapWords(Split(line, ' '), "", width, maxWidth, join)
  }

  /** Each line of the text wrapped on its own. */
  function WrapLines(text: string, width: string -> int, maxWidth: int, join: (string, string) -> string): seq<string> {
    FlatMap(Split(text, '\n'), LineWrapper(width, maxWidth, join))
  }

  /** The greedy wrap. */
  function GreedyWrap(text: string, width: string -> int, maxWidth: int): seq<string> {
    WrapLines(text, width, maxWidth, SpaceJoin())
  }

  /** Every emitted line is non-empty, and one too wide holds no space: a line only grows while
      it fits, so a line too wide is a word on its own. */
  lemma {:induction false} WrapWordsLines(words: seq<string>, cur: string, width: string -> int, maxWidth: int,
                                          join: (string, string) -> string)
    requires forall k :: 0 <= k < |words| ==> ' ' !in words[k]
    requires cur == [] || width(cur) <= maxWidth || ' ' !in cur
    ensures forall k :: 0 <= k < |WrapWords(words, cur, width, maxWidth, join)| ==>
      WrappedLine(WrapWords(words, cur, width, maxWidth, join)[k], width, maxWidth)
    decreases |words|
  {
    if words != [] {
      var rest := words[1..];
      var test := join(cur, words[0]);
      if width(test) <= maxWidth {
        WrapWordsLines(rest, test, width, maxWidth, join);
      } else {
        WrapWordsLines(rest, words[0], width, maxWidth, join);
      }
    }
  }

  /** A line the greedy wrap emits. */
  predicate WrappedLine(l: string, width: string -> int, maxWidth: int) {
    l != [] && (width(l) <= maxWidth || ' ' !in l)
  }

  /** Every line of the greedy wrap is non-empty, and one wider than the width holds no space:
      it is a single word that could not be split. */
  lemma GreedyWrapLines(text: string, width: string -> int, maxWidth: int)
    ensures forall k :: 0 <= k < |GreedyWrap(text, width, maxWidth)| ==>
      WrappedLine(GreedyWrap(text, width, maxWidth)[k], width, maxWidth)
  {
    WrapLinesShape(text, width, maxWidth, SpaceJoin());
  }

  lemma WrapLinesShape(text: string, width: string -> int, maxWidth: int, join: (string, string) -> string)
    ensures forall k :: 0 <= k < |WrapLines(text, width, maxWidth, join)| ==>
      WrappedLine(WrapLines(text, width, maxWidth, join)[k], width, maxWidth)
  {
    var raw := Split(text, '\n');
    var f := LineWrapper(width, maxWidth, join);
    var p := l => WrappedLine(l, width, maxWidth);
    forall i | 0 <= i < |raw|
      ensures forall k :: 0 <= k < |f(raw[i])| ==> p(f(raw[i])[k])
    {
      WrapWordsLines(Split(raw[i], ' '), "", width, maxWidth, join);
    }
    FlatMapAll(raw, f, p);
  }

  /** One pass of the word loop: the word either joins the line in progress or flushes it and
      starts the next. */
  method WrapWord(lines: seq<string>, cur: string, word: string, ghost rest: seq<string>,
                  width: string -> int, maxWidth: int, join: (string, string) -> string)
    returns (lines': seq<string>, cur': string)
    ensures lines + WrapWords([word] + rest, cur, width, maxWidth, join) == lines' + WrapWords(rest, cur', width, maxWidth, join)
  {
    ghost var words := [word] + rest;
    assert words[0] == word && words[1..] == rest;
    lines' := lines;
    var test := join(cur, word);
    if width(test) <= maxWidth {
      cur' := test;
    } else {
      ghost var tail := WrapWords(rest, word, width, maxWidth, join);
      assert WrapWords(words, cur, width, maxWidth, join) == Flush(cur) + tail;
      Assoc(lines, Flush(cur), tail);
      if cur != "" {
        lines' := lines' + [cur];
      }
      cur' := word;
    }
  }

  /** The word loop of one line: appends its lines to `lines`. */
  method WrapLineWords(lines: seq<string>, rawLine: string, width: string -> int, maxWidth: int,
                       join: (string, string) -> string)
    returns (lines': seq<string>)
    ensures lines' == lines + WrapWords(Split(rawLine, ' '), "", width, maxWidth, join)
  {
    var words := Split(rawLine, ' ');
    var cur := "";
    lines' := lines;
    var j := 0;
    while j < |words|
      invariant 0 <= j <= |words|
      invariant lines + WrapWords(words, "", width, maxWidth, join) == lines' + WrapWords(words[j..], cur, width, maxWidth, join)
    {
      assert words[j..] == [words[j]] + words[j + 1..];
      lines', cur := WrapWord(lines', cur, words[j], words[j + 1..], width, maxWidth, join);
      j := j + 1;
    }
    if cur != "" {
      lines' := lines' + [cur];
    }
  }

  /** The wrap loop as written in both subtitle images. */
  method GreedyWrapLoop(text: string, width: string -> int, maxWidth: int) returns (lines: seq<string>)
    ensures lines == GreedyWrap(text, width, maxWidth)
  {
    var join := SpaceJoin();
    var raw := Split(text, '\n');
    assert raw[..|raw|] == raw;
    lines := [];
    var i := 0;
    while i < |raw|
      invariant 0 <= i <= |raw|
      invariant lines == FlatMap(raw[..i], LineWrapper(width, maxWidth, join))
    {
      FlatMapSnoc(raw, i, LineWrapper(width, maxWidth, join));
      lines := WrapLineWords(lines, raw[i], width, maxWidth, join);
      i := i + 1;
    }
    assert lines == WrapLines(text, width, maxWidth, join);
  }

  // ---------------------------------------------------------------------------------------
  // What the wraps keep

  /** No whitespace at all. */
  predicate NoWhitespace(s: string) {
    forall i :: 0 <= i < |s| ==> !IsSpace(s[i])
  }

  /** The only whitespace is the space. */
  predicate SpacesOnly(s: string) {
    forall i :: 0 <= i < |s| ==> IsSpace(s[i]) ==> s[i] == ' '
  }

  /** The only whitespace is the space and the newline. */
  predicate PlainText(s: string) {
    forall i :: 0 <= i < |s| ==> IsSpace(s[i]) ==> s[i] == ' ' || s[i] == '\n'
  }

  /** A join that only adds and drops spaces: joining a word keeps the line's other characters
      and puts the word after them. */
  ghost predicate JoinKeeps(join: (string, string) -> string) {
    forall cur, word {:trigger join(cur, word)} :: SpacesOnly(cur) && NoWhitespace(word) ==>
      SpacesOnly(join(cur, word)) && Without(join(cur, word), ' ') == Without(cur, ' ') + word
  }

  lemma NoWhitespaceWithout(s: string)
    requires NoWhitespace(s)
    ensures ' ' !in s && Without(s, ' ') == s && SpacesOnly(s)
  {
    WithoutAbsent(s, ' ');
  }

  /** Removing `c` from a run of `c` leaves nothing. */
  lemma {:induction false} WithoutOnly(s: string, c: char)
    requires forall i :: 0 <= i < |s| ==> s[i] == c
    ensures Without(s, c) == []
  {
    if s != [] {
      WithoutOnly(s[1..], c);
    }
  }

  /** Stripping a line whose only whitespace is spaces drops spaces only. */
  lemma StripSpaces(s: string)
    requires SpacesOnly(s)
    ensures SpacesOnly(Strip(s)) && Without(Strip(s), ' ') == Without(s, ' ')
  {
    var t := Strip(s);
    var pre, post := StripPieces(s);
    SpacesOnlyParts(pre, t, post);
    WithoutOnly(pre, ' ');
    WithoutOnly(post, ' ');
    WithoutAppend(pre + t, post, ' ');
    WithoutAppend(pre, t, ' ');
  }

  /** The parts of a text whose only whitespace is spaces have no other whitespace either. */
  lemma SpacesOnlyParts(x: string, y: string, z: string)
    requires SpacesOnly(x + y + z)
    ensures SpacesOnly(x) && SpacesOnly(y) && SpacesOnly(z)
  {
    var s := x + y + z;
    assert forall i :: 0 <= i < |x| ==> s[i] == x[i];
    assert forall i :: 0 <= i < |y| ==> s[|x| + i] == y[i];
    assert forall i :: 0 <= i < |z| ==> s[|x| + |y| + i] == z[i];
  }

  lemma SpacedPair(cur: string, word: string)
    requires SpacesOnly(cur) && NoWhitespace(word)
    ensures SpacesOnly(cur + " " + word)
    ensures Without(cur + " " + word, ' ') == Without(cur, ' ') + word
  {
    var s := cur + " " + word;
    assert SpacesOnly(s) by {
      assert forall i :: 0 <= i < |s| ==>
        s[i] == if i < |cur| then cur[i] else if i == |cur| then ' ' else word[i - |cur| - 1];
    }
    assert Without(s, ' ') == Without(cur, ' ') + word by {
      NoWhitespaceWithout(word);
      WithoutAppend(cur + " ", word, ' ');
      WithoutAppend(cur, " ", ' ');
    }
  }

  lemma SpaceJoinOne(cur: string, word: string)
    requires SpacesOnly(cur) && NoWhitespace(word)
    ensures SpacesOnly(Strip(cur + " " + word))
    ensures Without(Strip(cur + " " + word), ' ') == Without(cur, ' ') + word
  {
    SpacedPair(cur, word);
    StripSpaces(cur + " " + word);
  }

  /** `(cur + " " + word).strip()` is such a join. */
  lemma SpaceJoinKeeps()
    ensures JoinKeeps(SpaceJoin())
  {
    var join := SpaceJoin();
    forall cur, word | SpacesOnly(cur) && NoWhitespace(word)
      ensures SpacesOnly(join(cur, word)) && Without(join(cur, word), ' ') == Without(cur, ' ') + word
    {
      SpaceJoinOne(cur, word);
    }
  }

  /** Concatenating a flushed line. */
  lemma ConcatFlush(cur: string)
    ensures Concat(Flush(cur)) == cur
  {
    if cur != [] {
      assert [cur][1..] == [];
    }
  }

  /** What the word loop keeps, from a state: the line in progress, then the words. */
  predicate KeepsWords(words: seq<string>, cur: string, width: string -> int, maxWidth: int,
                       join: (string, string) -> string) {
    Without(Concat(WrapWords(words, cur, width, maxWidth, join)), ' ') == Without(cur, ' ') + Concat(words)
  }

  /** A word that fits joins the line in progress. */
  lemma FitWordText(words: seq<string>, cur: string, width: string -> int, maxWidth: int,
                    join: (string, string) -> string, test: string)
    requires words != [] && test == join(cur, words[0]) && width(test) <= maxWidth
    requires Without(test, ' ') == Without(cur, ' ') + words[0]
    requires KeepsWords(words[1..], test, width, maxWidth, join)
    ensures KeepsWords(words, cur, width, maxWidth, join)
  {
    assert WrapWords(words, cur, width, maxWidth, join) == WrapWords(words[1..], test, width, maxWidth, join);
    assert Concat(words) == words[0] + Concat(words[1..]);
    Assoc(Without(cur, ' '), words[0], Concat(words[1..]));
  }

  /** A word that does not fit flushes the line in progress and starts the next one. */
  lemma BreakWordText(words: seq<string>, cur: string, width: string -> int, maxWidth: int,
                      join: (string, string) -> string, test: string)
    requires words != [] && test == join(cur, words[0]) && width(test) > maxWidth
    requires Without(words[0], ' ') == words[0]
    requires KeepsWords(words[1..], words[0], width, maxWidth, join)
    ensures KeepsWords(words, cur, width, maxWidth, join)
  {
    var tail := WrapWords(words[1..], words[0], width, maxWidth, join);
    assert WrapWords(words, cur, width, maxWidth, join) == Flush(cur) + tail;
    FlushText(cur, tail);
    assert Concat(words) == words[0] + Concat(words[1..]);
    Assoc(Without(cur, ' '), words[0], Concat(words[1..]));
  }

  /** The greedy word loop loses no word and adds nothing but spaces: its lines, spaces
      removed, are the line in progress and then the words, in order. */
  lemma {:induction false} WrapWordsText(words: seq<string>, cur: string, width: string -> int, maxWidth: int,
                                         join: (string, string) -> string)
    requires JoinKeeps(join)
    requires forall k :: 0 <= k < |words| ==> NoWhitespace(words[k])
    requires SpacesOnly(cur)
    ensures KeepsWords(words, cur, width, maxWidth, join)
    decreases |words|
  {
    if words == [] {
      ConcatFlush(cur);
    } else {
      var w := words[0];
      var rest := words[1..];
      var test := join(cur, w);
      NoWhitespaceWithout(w);
      if width(test) <= maxWidth {
        WrapWordsText(rest, test, width, maxWidth, join);
        FitWordText(words, cur, width, maxWidth, join, test);
      } else {
        WrapWordsText(rest, w, width, maxWidth, join);
        BreakWordText(words, cur, width, maxWidth, join, test);
      }
    }
  }

  /** What holds line by line holds of the flattened lines. */
  lemma {:induction false} FlatMapWithout(xs: seq<string>, f: string -> seq<string>)
    requires forall i :: 0 <= i < |xs| ==> Without(Concat(f(xs[i])), ' ') == Without(xs[i], ' ')
    ensures Without(Concat(FlatMap(xs, f)), ' ') == Without(Concat(xs), ' ')
  {
    if xs != [] {
      var init := xs[..|xs| - 1];
      var last := xs[|xs| - 1];
      FlatMapWithout(init, f);
      ConcatSplice(FlatMap(init, f), f(last));
      WithoutAppend(Concat(FlatMap(init, f)), Concat(f(last)), ' ');
      InitLast(xs);
      ConcatAppend(init, last);
      WithoutAppend(Concat(init), last, ' ');
    }
  }

  /** The words of a line whose only whitespace is spaces have no whitespace. */
  lemma SplitWords(s: string)
    requires SpacesOnly(s)
    ensures forall k :: 0 <= k < |Split(s, ' ')| ==> NoWhitespace(Split(s, ' ')[k])
  {
    var parts := Split(s, ' ');
    SplitChars(s, ' ');
    forall k, i | 0 <= k < |parts| && 0 <= i < |parts[k]|
      ensures !IsSpace(parts[k][i])
    {
      var c := parts[k][i];
      assert c in s && c != ' ';
      var j :| 0 <= j < |s| && s[j] == c;
    }
  }

  /** The lines of a text whose only whitespace is spaces and newlines have only spaces. */
  lemma SplitPlainLines(t: string)
    requires PlainText(t)
    ensures forall k :: 0 <= k < |Split(t, '\n')| ==> SpacesOnly(Split(t, '\n')[k])
  {
    var parts := Split(t, '\n');
    SplitChars(t, '\n');
    forall k, i | 0 <= k < |parts| && 0 <= i < |parts[k]| && IsSpace(parts[k][i])
      ensures parts[k][i] == ' '
    {
      var c := parts[k][i];
      assert c in t && c != '\n';
      var j :| 0 <= j < |t| && t[j] == c;
    }
  }

  /** One line of the greedy wrap. */
  lemma GreedyLineText(line: string, width: string -> int, maxWidth: int, join: (string, string) -> string)
    requires JoinKeeps(join)
    requires SpacesOnly(line)
    ensures Without(Concat(LineWrapper(width, maxWidth, join)(line)), ' ') == Without(line, ' ')
  {
    SplitWords(line);
    WrapWordsText(Split(line, ' '), "", width, maxWidth, join);
    ConcatSplit(line, ' ');
  }

  /** For a text whose only whitespace is spaces and newlines, the greedy wrap loses and adds
      nothing but spaces and newlines: its lines, spaces removed, concatenate to the text with
      spaces and newlines removed. */
  lemma WrapLinesText(text: string, width: string -> int, maxWidth: int, join: (string, string) -> string)
    requires JoinKeeps(join)
    requires PlainText(text)
    ensures Without(Concat(WrapLines(text, width, maxWidth, join)), ' ') == Without(Without(text, '\n'), ' ')
  {
    var raw := Split(text, '\n');
    var f := LineWrapper(width, maxWidth, join);
    SplitPlainLines(text);
    forall k | 0 <= k < |raw|
      ensures Without(Concat(f(raw[k])), ' ') == Without(raw[k], ' ')
    {
      GreedyLineText(raw[k], width, maxWidth, join);
    }
    FlatMapWithout(raw, f);
    ConcatSplit(text, '\n');
  }

  /** `GreedyWrap` keeps every word, whole and in order. */
  lemma GreedyWrapText(text: string, width: string -> int, maxWidth: int)
    requires PlainText(text)
    ensures Without(Concat(GreedyWrap(text, width, maxWidth)), ' ') == Without(Without(text, '\n'), ' ')
  {
    SpaceJoinKeeps();
    WrapLinesText(text, width, maxWidth, SpaceJoin());
  }

  // ---------------------------------------------------------------------------------------
  // `wrap_text_by_width`

  /** The character loop for a token too wide for a line: characters are added while the piece
      fits, and a character that does not fit starts the next piece. */
  function CharWrap(chars: string, buf: string, width: string -> int, maxWidth: int): seq<string>
    decreases |chars|
  {
    if chars == [] then Flush(buf)
    else
      var test := buf + [chars[0]];
      if width(test) <= maxWidth then CharWrap(chars[1..], test, width, maxWidth)
      else Flush(buf) + CharWrap(chars[1..], [chars[0]], width, maxWidth)
  }

  /** The token loop of one line from a state. Empty tokens are skipped; a token too wide on its
      own flushes the line and is cut by characters; any other token joins the line
      (`join(cur, tok)`) if the result fits, and otherwise flushes it and starts the next. */
  function TokenWrap(tokens: seq<string>, cur: string, width: string -> int, maxWidth: int,
                     join: (string, string) -> string): seq<string>
    decreases |tokens|
  {
    if tokens == [] then Flush(cur)
    else
      var tok := tokens[0];
      if tok == [] then TokenWrap(tokens[1..], cur, width, maxWidth, join)
      else if width(tok) > maxWidth then
        Flush(cur) + CharWrap(tok, "", width, maxWidth) + TokenWrap(tokens[1..], "", width, maxWidth, join)
      else
        var test := if cur != [] then join(cur, tok) else tok;
        if width(test) <= maxWidth then TokenWrap(tokens[1..], test, width, maxWidth, join)
        else Flush(cur) + TokenWrap(tokens[1..], tok, width, maxWidth, join)
  }

  /** One line of the text: stripped, skipped when blank, else its tokens wrapped. */
  function WidthWrapLine(rawLine: string, width: string -> int, maxWidth: int, join: (string, string) -> string): seq<string> {
    var line := Strip(rawLine);
    if line == [] then [] else TokenWrap(Split(line, ' '), "", width, maxWidth, join)
  }

  function WidthWrapper(width: string -> int, maxWidth: int, join: (string, string) -> string): (f: string -> seq<string>)
    ensures forall line :: f(line) == WidthWrapLine(line, width, maxWidth, join)
  {
    line => WidthWrapLine(line, width, maxWidth, join)
  }

  function WidthWrapLines(text: string, width: string -> int, maxWidth: int, join: (string, string) -> string): seq<string> {
    var t := Strip(text);
    if t == [] then [] else FlatMap(Split(t, '\n'), WidthWrapper(width, maxWidth, join))
  }

  /** `wrap_text_by_width(draw, text, font, max_width)`. */
  function WrapByWidth(text: string, width: string -> int, maxWidth: int): seq<string> {
    WidthWrapLines(text, width, maxWidth, SpaceJoin())
  }

  /** A line `wrap_text_by_width` emits: non-empty, and within the width unless it is a single
      character. */
  predicate FitsOrChar(l: string, width: string -> int, maxWidth: int) {
    l != [] && (width(l) <= maxWidth || |l| == 1)
  }

  lemma {:induction false} CharWrapLines(chars: string, buf: string, width: string -> int, maxWidth: int)
    requires buf == [] || width(buf) <= maxWidth || |buf| == 1
    ensures forall k :: 0 <= k < |CharWrap(chars, buf, width, maxWidth)| ==>
      FitsOrChar(CharWrap(chars, buf, width, maxWidth)[k], width, maxWidth)
    decreases |chars|
  {
    if chars != [] {
      var test := buf + [chars[0]];
      if width(test) <= maxWidth {
        CharWrapLines(chars[1..], test, width, maxWidth);
      } else {
        CharWrapLines(chars[1..], [chars[0]], width, maxWidth);
      }
    }
  }

  /** The pieces of a cut token concatenate back to it. */
  lemma {:induction false} CharWrapConcat(chars: string, buf: string, width: string -> int, maxWidth: int)
    ensures Concat(CharWrap(chars, buf, width, maxWidth)) == buf + chars
    decreases |chars|
  {
    if chars != [] {
      var test := buf + [chars[0]];
      assert buf + chars == test + chars[1..];
      if width(test) <= maxWidth {
        CharWrapConcat(chars[1..], test, width, maxWidth);
      } else {
        CharWrapConcat(chars[1..], [chars[0]], width, maxWidth);
        ConcatSplice(Flush(buf), CharWrap(chars[1..], [chars[0]], width, maxWidth));
      }
    }
  }

  lemma {:induction false} TokenWrapLines(tokens: seq<string>, cur: string, width: string -> int, maxWidth: int,
                                          join: (string, string) -> string)
    requires cur == [] || width(cur) <= maxWidth
    ensures forall k :: 0 <= k < |TokenWrap(tokens, cur, width, maxWidth, join)| ==>
      FitsOrChar(TokenWrap(tokens, cur, width, maxWidth, join)[k], width, maxWidth)
    decreases |tokens|
  {
    if tokens != [] {
      var tok := tokens[0];
      if tok == [] {
        TokenWrapLines(tokens[1..], cur, width, maxWidth, join);
      } else if width(tok) > maxWidth {
        CharWrapLines(tok, "", width, maxWidth);
        TokenWrapLines(tokens[1..], "", width, maxWidth, join);
        var a := Flush(cur);
        var b := CharWrap(tok, "", width, maxWidth);
        var c := TokenWrap(tokens[1..], "", width, maxWidth, join);
        assert forall k :: 0 <= k < |a + b + c| ==>
          (a + b + c)[k] == (if k < |a| then a[k] else if k < |a| + |b| then b[k - |a|] else c[k - |a| - |b|]);
      } else {
        var test := if cur != [] then join(cur, tok) else tok;
        if width(test) <= maxWidth {
          TokenWrapLines(tokens[1..], test, width, maxWidth, join);
        } else {
          TokenWrapLines(tokens[1..], tok, width, maxWidth, join);
        }
      }
    }
  }

  lemma WidthWrapLinesFit(text: string, width: string -> int, maxWidth: int, join: (string, string) -> string)
    ensures forall k :: 0 <= k < |WidthWrapLines(text, width, maxWidth, join)| ==>
      FitsOrChar(WidthWrapLines(text, width, maxWidth, join)[k], width, maxWidth)
  {
    var t := Strip(text);
    if t != [] {
      var raw := Split(t, '\n');
      var f := WidthWrapper(width, maxWidth, join);
      var p := l => FitsOrChar(l, width, maxWidth);
      forall i | 0 <= i < |raw|
        ensures forall k :: 0 <= k < |f(raw[i])| ==> p(f(raw[i])[k])
      {
        var line := Strip(raw[i]);
        if line != [] {
          TokenWrapLines(Split(line, ' '), "", width, maxWidth, join);
        }
      }
      FlatMapAll(raw, f, p);
    }
  }

  /** Every line of `wrap_text_by_width` is non-empty, and within the width unless it is a single
      character that does not fit on its own. */
  lemma WrapByWidthLines(text: string, width: string -> int, maxWidth: int)
    ensures forall k :: 0 <= k < |WrapByWidth(text, width, maxWidth)| ==>
      FitsOrChar(WrapByWidth(text, width, maxWidth)[k], width, maxWidth)
  {
    WidthWrapLinesFit(text, width, maxWidth, SpaceJoin());
  }

  /** A token cut by characters between a flushed line and what follows. */
  lemma CutTokenText(cur: string, tok: string, c: seq<string>, width: string -> int, maxWidth: int)
    requires ' ' !in tok
    ensures Without(Concat(Flush(cur) + CharWrap(tok, "", width, maxWidth) + c), ' ')
            == Without(cur, ' ') + tok + Without(Concat(c), ' ')
  {
    var a := Flush(cur);
    var b := CharWrap(tok, "", width, maxWidth);
    ConcatSplice(a + b, c);
    ConcatSplice(a, b);
    ConcatFlush(cur);
    CharWrapConcat(tok, "", width, maxWidth);
    assert "" + tok == tok;
    WithoutAbsent(tok, ' ');
    WithoutAppend(cur + tok, Concat(c), ' ');
    WithoutAppend(cur, tok, ' ');
  }

  /** A flushed line before the lines that follow it. */
  lemma FlushText(cur: string, tail: seq<string>)
    ensures Without(Concat(Flush(cur) + tail), ' ') == Without(cur, ' ') + Without(Concat(tail), ' ')
  {
    ConcatSplice(Flush(cur), tail);
    ConcatFlush(cur);
    WithoutAppend(cur, Concat(tail), ' ');
  }

  /** A token joining the line in progress. */
  lemma TokenJoinText(cur: string, tok: string, join: (string, string) -> string)
    requires JoinKeeps(join)
    requires SpacesOnly(cur) && NoWhitespace(tok)
    ensures var test := if cur != [] then join(cur, tok) else tok;
      SpacesOnly(test) && Without(test, ' ') == Without(cur, ' ') + tok
  {
    NoWhitespaceWithout(tok);
  }

  /** What the token loop keeps, from a state: the line in progress, then the tokens. */
  predicate KeepsTokens(tokens: seq<string>, cur: string, width: string -> int, maxWidth: int,
                        join: (string, string) -> string) {
    Without(Concat(TokenWrap(tokens, cur, width, maxWidth, join)), ' ') == Without(cur, ' ') + Concat(tokens)
  }

  lemma SkipTokenText(tokens: seq<string>, cur: string, width: string -> int, maxWidth: int,
                      join: (string, string) -> string)
    requires tokens != [] && tokens[0] == []
    requires KeepsTokens(tokens[1..], cur, width, maxWidth, join)
    ensures KeepsTokens(tokens, cur, width, maxWidth, join)
  {
    assert TokenWrap(tokens, cur, width, maxWidth, join) == TokenWrap(tokens[1..], cur, width, maxWidth, join);
    assert Concat(tokens) == Concat(tokens[1..]) by {
      assert Concat(tokens) == tokens[0] + Concat(tokens[1..]);
      assert [] + Concat(tokens[1..]) == Concat(tokens[1..]);
    }
  }

  lemma WideTokenText(tokens: seq<string>, cur: string, width: string -> int, maxWidth: int,
                      join: (string, string) -> string)
    requires tokens != [] && tokens[0] != [] && width(tokens[0]) > maxWidth && ' ' !in tokens[0]
    requires KeepsTokens(tokens[1..], "", width, maxWidth, join)
    ensures KeepsTokens(tokens, cur, width, maxWidth, join)
  {
    var tok, rest := tokens[0], tokens[1..];
    var tail := TokenWrap(rest, "", width, maxWidth, join);
    WideTokenLines(tokens, cur, width, maxWidth, join);
    CutTokenText(cur, tok, tail, width, maxWidth);
    assert Without(Concat(tail), ' ') == Concat(rest) by {
      assert Without("", ' ') == [];
    }
    assert Concat(tokens) == tok + Concat(rest);
    Assoc(Without(cur, ' '), tok, Concat(rest));
  }

  /** A token too wide for a line is cut into pieces after the flushed line in progress. */
  lemma WideTokenLines(tokens: seq<string>, cur: string, width: string -> int, maxWidth: int,
                       join: (string, string) -> string)
    requires tokens != [] && tokens[0] != [] && width(tokens[0]) > maxWidth
    ensures TokenWrap(tokens, cur, width, maxWidth, join)
         == Flush(cur) + CharWrap(tokens[0], "", width, maxWidth) + TokenWrap(tokens[1..], "", width, maxWidth, join)
  {
  }

  lemma FitTokenText(tokens: seq<string>, cur: string, width: string -> int, maxWidth: int,
                     join: (string, string) -> string, test: string)
    requires tokens != [] && tokens[0] != [] && width(tokens[0]) <= maxWidth
    requires test == if cur != [] then join(cur, tokens[0]) else tokens[0]
    requires width(test) <= maxWidth
    requires Without(test, ' ') == Without(cur, ' ') + tokens[0]
    requires KeepsTokens(tokens[1..], test, width, maxWidth, join)
    ensures KeepsTokens(tokens, cur, width, maxWidth, join)
  {
    assert TokenWrap(tokens, cur, width, maxWidth, join) == TokenWrap(tokens[1..], test, width, maxWidth, join);
    assert Concat(tokens) == tokens[0] + Concat(tokens[1..]);
    Assoc(Without(cur, ' '), tokens[0], Concat(tokens[1..]));
  }

  lemma BreakTokenText(tokens: seq<string>, cur: string, width: string -> int, maxWidth: int,
                       join: (string, string) -> string, test: string)
    requires tokens != [] && tokens[0] != [] && width(tokens[0]) <= maxWidth && ' ' !in tokens[0]
    requires test == if cur != [] then join(cur, tokens[0]) else tokens[0]
    requires width(test) > maxWidth
    requires KeepsTokens(tokens[1..], tokens[0], width, maxWidth, join)
    ensures KeepsTokens(tokens, cur, width, maxWidth, join)
  {
    var tail := TokenWrap(tokens[1..], tokens[0], width, maxWidth, join);
    assert TokenWrap(tokens, cur, width, maxWidth, join) == Flush(cur) + tail;
    FlushText(cur, tail);
    WithoutAbsent(tokens[0], ' ');
    assert Concat(tokens) == tokens[0] + Concat(tokens[1..]);
  }

  /** With tokens free of whitespace, the token loop loses no character and adds nothing but
      spaces: its lines, spaces removed, are the line in progress and then the tokens, in
      order (a token too wide is cut into consecutive pieces). */
  lemma {:induction false} TokenWrapText(tokens: seq<string>, cur: string, width: string -> int, maxWidth: int,
                                         join: (string, string) -> string)
    requires JoinKeeps(join)
    requires forall k :: 0 <= k < |tokens| ==> NoWhitespace(tokens[k])
    requires SpacesOnly(cur)
    ensures KeepsTokens(tokens, cur, width, maxWidth, join)
    decreases |tokens|
  {
    if tokens == [] {
      ConcatFlush(cur);
    } else {
      var tok := tokens[0];
      var rest := tokens[1..];
      NoWhitespaceWithout(tok);
      if tok == [] {
        TokenWrapText(rest, cur, width, maxWidth, join);
        SkipTokenText(tokens, cur, width, maxWidth, join);
      } else if width(tok) > maxWidth {
        TokenWrapText(rest, "", width, maxWidth, join);
        WideTokenText(tokens, cur, width, maxWidth, join);
      } else {
        var test := if cur != [] then join(cur, tok) else tok;
        TokenJoinText(cur, tok, join);
        if width(test) <= maxWidth {
          TokenWrapText(rest, test, width, maxWidth, join);
          FitTokenText(tokens, cur, width, maxWidth, join, test);
        } else {
          TokenWrapText(rest, tok, width, maxWidth, join);
          BreakTokenText(tokens, cur, width, maxWidth, join, test);
        }
      }
    }
  }


  /** Stripping a text whose only whitespace is spaces and newlines drops only those. */
  lemma StripPlain(text: string)
    requires PlainText(text)
    ensures PlainText(Strip(text))
    ensures Without(Without(Strip(text), '\n'), ' ') == Without(Without(text, '\n'), ' ')
  {
    var t := Strip(text);
    var pre, post := StripPieces(text);
    PlainParts(pre, t, post);
    WithoutBoth(pre);
    WithoutBoth(post);
    DropAround(pre, t, post);
  }

  /** The parts of a text whose only whitespace is spaces and newlines have no other whitespace
      either. */
  lemma PlainParts(x: string, y: string, z: string)
    requires PlainText(x + y + z)
    ensures PlainText(x) && PlainText(y) && PlainText(z)
  {
    var s := x + y + z;
    assert forall i :: 0 <= i < |x| ==> s[i] == x[i];
    assert forall i :: 0 <= i < |y| ==> s[|x| + i] == y[i];
    assert forall i :: 0 <= i < |z| ==> s[|x| + |y| + i] == z[i];
  }

  /** Spaces and newlines around a text vanish with the text's own. */
  lemma DropAround(x: string, y: string, z: string)
    requires Without(Without(x, '\n'), ' ') == [] && Without(Without(z, '\n'), ' ') == []
    ensures Without(Without(x + y + z, '\n'), ' ') == Without(Without(y, '\n'), ' ')
  {
    var x1, y1, z1 := Without(x, '\n'), Without(y, '\n'), Without(z, '\n');
    assert Without(x + y + z, '\n') == x1 + y1 + z1 by {
      WithoutAppend(x + y, z, '\n');
      WithoutAppend(x, y, '\n');
    }
    WithoutAppend(x1 + y1, z1, ' ');
    WithoutAppend(x1, y1, ' ');
    assert [] + Without(y1, ' ') + [] == Without(y1, ' ');
  }

  /** One line of `wrap_text_by_width`. */
  lemma WidthLineText(raw: string, width: string -> int, maxWidth: int, join: (string, string) -> string)
    requires JoinKeeps(join)
    requires SpacesOnly(raw)
    ensures Without(Concat(WidthWrapLine(raw, width, maxWidth, join)), ' ') == Without(raw, ' ')
  {
    StripSpaces(raw);
    var line := Strip(raw);
    if line != [] {
      SplitWords(line);
      TokenWrapText(Split(line, ' '), "", width, maxWidth, join);
      ConcatSplit(line, ' ');
    }
  }

  lemma WidthWrapLinesText(text: string, width: string -> int, maxWidth: int, join: (string, string) -> string)
    requires JoinKeeps(join)
    requires PlainText(text)
    ensures Without(Concat(WidthWrapLines(text, width, maxWidth, join)), ' ') == Without(Without(text, '\n'), ' ')
  {
    var t := Strip(text);
    StripPlain(text);
    if t != [] {
      var raw := Split(t, '\n');
      var f := WidthWrapper(width, maxWidth, join);
      SplitPlainLines(t);
      forall k | 0 <= k < |raw|
        ensures Without(Concat(f(raw[k])), ' ') == Without(raw[k], ' ')
      {
        WidthLineText(raw[k], width, maxWidth, join);
      }
      FlatMapWithout(raw, f);
      ConcatSplit(t, '\n');
    }
  }

  /** Removing newlines and then spaces from spaces and newlines leaves nothing. */
  lemma {:induction false} WithoutBoth(s: string)
    requires forall i :: 0 <= i < |s| ==> s[i] == ' ' || s[i] == '\n'
    ensures Without(Without(s, '\n'), ' ') == []
  {
    if s != [] {
      WithoutBoth(s[1..]);
      var head := if s[0] == '\n' then [] else [s[0]];
      WithoutAppend(head, Without(s[1..], '\n'), ' ');
    }
  }

  /** For a text whose only whitespace is spaces and newlines, `wrap_text_by_width` loses and
      adds nothing but spaces and newlines: its lines, spaces removed, concatenate to the text
      with spaces and newlines removed. */
  lemma WrapByWidthText(text: string, width: string -> int, maxWidth: int)
    requires PlainText(text)
    ensures Without(Concat(WrapByWidth(text, width, maxWidth)), ' ') == Without(Without(text, '\n'), ' ')
  {
    SpaceJoinKeeps();
    WidthWrapLinesText(text, width, maxWidth, SpaceJoin());
  }

  /** The character loop of a token too wide for a line: appends its pieces to `lines`. */
  method CharWrapLoop(lines: seq<string>, tok: string, width: string -> int, maxWidth: int)
    returns (lines': seq<string>)
    ensures lines' == lines + CharWrap(tok, "", width, maxWidth)
  {
    var buf := "";
    lines' := lines;
    var c := 0;
    while c < |tok|
      invariant 0 <= c <= |tok|
      invariant lines + CharWrap(tok, "", width, maxWidth) == lines' + CharWrap(tok[c..], buf, width, maxWidth)
    {
      var ch := tok[c];
      assert tok[c..][1..] == tok[c + 1..];
      var test := buf + [ch];
      if width(test) <= maxWidth {
        buf := test;
      } else {
        if buf != "" {
          lines' := lines' + [buf];
        }
        buf := [ch];
      }
      c := c + 1;
    }
    if buf != "" {
      lines' := lines' + [buf];
    }
  }

  /** One pass of the token loop: the token either joins the line in progress, or flushes it and
      starts the next, or (too wide on its own) is cut by characters. */
  method WrapToken(lines: seq<string>, cur: string, tok: string, ghost rest: seq<string>,
                   width: string -> int, maxWidth: int, join: (string, string) -> string)
    returns (lines': seq<string>, cur': string)
    ensures lines + TokenWrap([tok] + rest, cur, width, maxWidth, join) == lines' + TokenWrap(rest, cur', width, maxWidth, join)
  {
    ghost var tokens := [tok] + rest;
    assert tokens[0] == tok && tokens[1..] == rest;
    lines', cur' := lines, cur;
    if tok == "" {
      return;
    }
    if width(tok) > maxWidth {
      if cur != "" {
        lines' := lines' + [cur];
        cur' := "";
      }
      assert lines' == lines + Flush(cur);
      lines' := CharWrapLoop(lines', tok, width, maxWidth);
      WideTokenLines(tokens, cur, width, maxWidth, join);
      LinesAssoc(lines, Flush(cur), CharWrap(tok, "", width, maxWidth), TokenWrap(rest, "", width, maxWidth, join));
      return;
    }
    var test := if cur != "" then join(cur, tok) else tok;
    if width(test) <= maxWidth {
      cur' := test;
      assert TokenWrap(tokens, cur, width, maxWidth, join) == TokenWrap(rest, test, width, maxWidth, join);
    } else {
      if cur != "" {
        lines' := lines' + [cur];
      }
      cur' := tok;
      assert TokenWrap(tokens, cur, width, maxWidth, join) == Flush(cur) + TokenWrap(rest, tok, width, maxWidth, join);
      assert lines' == lines + Flush(cur);
    }
  }

  lemma LinesAssoc(a: seq<string>, b: seq<string>, c: seq<string>, d: seq<string>)
    ensures a + (b + c + d) == a + b + c + d
  {
  }

  /** The token loop of one line, with `flush()`: appends its lines to `lines`. */
  method TokenWrapLoop(lines: seq<string>, tokens: seq<string>, width: string -> int, maxWidth: int,
                       join: (string, string) -> string)
    returns (lines': seq<string>)
    ensures lines' == lines + TokenWrap(tokens, "", width, maxWidth, join)
  {
    var cur := "";
    lines' := lines;
    var j := 0;
    while j < |tokens|
      invariant 0 <= j <= |tokens|
      invariant lines + TokenWrap(tokens, "", width, maxWidth, join)
                == lines' + TokenWrap(tokens[j..], cur, width, maxWidth, join)
    {
      assert tokens[j..] == [tokens[j]] + tokens[j + 1..];
      lines', cur := WrapToken(lines', cur, tokens[j], tokens[j + 1..], width, maxWidth, join);
      j := j + 1;
    }
    if cur != "" {
      lines' := lines' + [cur];
    }
  }

  /** `wrap_text_by_width` as written. */
  method WrapTextByWidth(text: string, width: string -> int, maxWidth: int) returns (lines: seq<string>)
    ensures lines == WrapByWidth(text, width, maxWidth)
  {
    var join := SpaceJoin();
    var t := Strip(text);
    if t == "" {
      return [];
    }
    lines := WrapRawLines(Split(t, '\n'), width, maxWidth, join);
  }

  /** The loop over the text's lines: each stripped line, skipped when blank, else its
      space-separated tokens wrapped. */
  method WrapRawLines(raw: seq<string>, width: string -> int, maxWidth: int, join: (string, string) -> string)
    returns (lines: seq<string>)
    ensures lines == FlatMap(raw, WidthWrapper(width, maxWidth, join))
  {
    ghost var f := WidthWrapper(width, maxWidth, join);
    lines := [];
    var i := 0;
    while i < |raw|
      invariant 0 <= i <= |raw|
      invariant lines == FlatMap(raw[..i], f)
    {
      FlatMapSnoc(raw, i, f);
      var rawLine := Strip(raw[i]);
      assert f(raw[i]) == WidthWrapLine(raw[i], width, maxWidth, join);
      if rawLine != "" {
        lines := TokenWrapLoop(lines, Split(rawLine, ' '), width, maxWidth, join);
      }
      i := i + 1;
    }
    assert raw[..i] == raw;
  }

  // ---------------------------------------------------------------------------------------
  // The "…" truncation

  /** `if max_lines and len(lines) > max_lines`: too many lines leave exactly `max_lines`, the
      ones before the last unchanged and the last one cut by a character (`line[:-1]`) and
      ended with "…"; otherwise nothing changes. */
  function Ellipsize(lines: seq<string>, maxLines: nat): (r: seq<string>)
    ensures maxLines == 0 || |lines| <= maxLines ==> r == lines
    ensures maxLines != 0 && |lines| > maxLines ==>
      && |r| == maxLines
      && r[..maxLines - 1] == lines[..maxLines - 1]
      && r[maxLines - 1] == Take(lines[maxLines - 1], -1) + "…"
  {
    if maxLines != 0 && |lines| > maxLines then
      var last := lines[maxLines - 1];
      lines[..maxLines - 1] + [last[..if |last| > 0 then |last| - 1 else 0] + "…"]
    else lines
  }

  /** Truncating twice is truncating once. */
  lemma EllipsizeIdempotent(lines: seq<string>, maxLines: nat)
    ensures Ellipsize(Ellipsize(lines, maxLines), maxLines) == Ellipsize(lines, maxLines)
  {
  }
}
