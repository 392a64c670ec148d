/** The daily-quote payload (app/generator/quote_generator.py): the schema check applied to
    what the AI returns, the whitespace normalisation it relies on, and the retry loop that
    feeds each validation error back into the prompt. The AI is a parameter. */
module QuotePayload {
  import opened Wrappers
  import opened PyStr
  import opened Seqs

  /** A decoded JSON value, as far as validation looks into it. */
  datatype Json = JStr(s: string) | JList(items: seq<Json>) | JObject(fields: map<string, Json>) | JOther

  /** `DailyQuotePayload`. */
  datatype Payload = Payload(title: string, lines: seq<string>, units: seq<seq<string>>, tags: seq<string>)

  /** The `ValueError`s validation raises, in the order it checks. */
  datatype QuoteError =
    | NotAnObject | TitleNotString | TitleLength | TitlePhrase
    | LinesNotStrings | LinesCount | LineLength
    | UnitsNotLists | UnitsCount | TokenNotString | EmptyRow | TokenLength | PunctToken | RowMismatch
    | TagsNotStrings | TagsCount

  /** Each error's message. */
  function Message(e: QuoteError): string {
    match e
    case NotAnObject => "payload must be object"
    case TitleNotString => "video_title must be string"
    case TitleLength => "video_title length must be 6~14"
    case TitlePhrase => "video_title must include '하루 명언' or '명언 모음'"
    case LinesNotStrings => "quote_lines must be list[str]"
    case LinesCount => "quote_lines length must be 2~4"
    case LineLength => "each quote_lines item must be 8~18 chars (including spaces)"
    case UnitsNotLists => "typing_units must be list[list[str]]"
    case UnitsCount => "typing_units length must match quote_lines length"
    case TokenNotString => "typing_units inner items must be string"
    case EmptyRow => "typing_units row must not be empty"
    case TokenLength => "token length must be 1~6"
    case PunctToken => "punct-only token not allowed"
    case RowMismatch => "typing_units must tokenize quote_line by words"
    case TagsNotStrings => "tags must be list[str]"
    case TagsCount => "tags length must be 3~6"
  }

  /** Whitespace occurs only as single spaces. */
  predicate NoSpaceRuns(s: string) {
    forall i :: 0 <= i < |s| && IsSpace(s[i]) ==> s[i] == ' ' && (i + 1 < |s| ==> !IsSpace(s[i + 1]))
  }

  /** What `_collapse_spaces` produces: trimmed, and whitespace only as single spaces. */
  predicate IsCollapsed(s: string) {
    IsTrimmed(s) && NoSpaceRuns(s)
  }

  /** `re.sub(r"\s+", " ", s)`: every maximal whitespace run becomes one space. */
  function CollapseRuns(s: string): (r: string)
    ensures |r| <= |s|
    decreases |s|
  {
    if s == [] then []
    else if IsSpace(s[0]) then [' '] + CollapseRuns(LStrip(s[1..]))
    else [s[0]] + CollapseRuns(s[1..])
  }

  /** A whitespace run at the front becomes one space; any other first character stays. */
  lemma CollapseRunsHead(s: string)
    requires s != []
    ensures CollapseRuns(s) != [] && CollapseRuns(s)[0] == (if IsSpace(s[0]) then ' ' else s[0])
  {
  }

  /** Putting `c` in front keeps whitespace as single spaces when a space is not followed by
      whitespace. */
  lemma NoSpaceRunsCons(c: char, x: string)
    requires NoSpaceRuns(x)
    requires IsSpace(c) ==> c == ' ' && (x == [] || !IsSpace(x[0]))
    ensures NoSpaceRuns([c] + x)
  {
    var s := [c] + x;
    forall i | 0 <= i < |s| && IsSpace(s[i])
      ensures s[i] == ' ' && (i + 1 < |s| ==> !IsSpace(s[i + 1]))
    {
      if i > 0 {
        assert s[i] == x[i - 1];
      }
    }
  }

  /** Collapsing leaves no whitespace but single spaces. */
  lemma {:induction false} CollapseRunsNoRuns(s: string)
    ensures NoSpaceRuns(CollapseRuns(s))
    decreases |s|
  {
    if s != [] {
      if IsSpace(s[0]) {
        var rest := LStrip(s[1..]);
        CollapseRunsNoRuns(rest);
        if rest != [] {
          CollapseRunsHead(rest);
        }
        NoSpaceRunsCons(' ', CollapseRuns(rest));
      } else {
        CollapseRunsNoRuns(s[1..]);
        NoSpaceRunsCons(s[0], CollapseRuns(s[1..]));
      }
    }
  }

  /** Collapsing keeps a non-space last character in place. */
  lemma {:induction false} CollapseRunsLast(s: string)
    requires s != [] && !IsSpace(s[|s| - 1])
    ensures CollapseRuns(s) != [] && CollapseRuns(s)[|CollapseRuns(s)| - 1] == s[|s| - 1]
    decreases |s|
  {
    if IsSpace(s[0]) {
      var rest := LStrip(s[1..]);
      assert rest != [] && rest[|rest| - 1] == s[|s| - 1];
      CollapseRunsLast(rest);
    } else if |s| > 1 {
      CollapseRunsLast(s[1..]);
    }
  }

  /** `_collapse_spaces`. */
  function CollapseSpaces(s: string): (r: string)
    ensures |r| <= |s|
  {
    CollapseRuns(Strip(s))
  }

  /** What `_collapse_spaces` produces is collapsed. */
  lemma CollapseSpacesCollapsed(s: string)
    ensures IsCollapsed(CollapseSpaces(s))
  {
    var t := Strip(s);
    CollapseRunsNoRuns(t);
    if t != [] {
      CollapseRunsLast(t);
    }
  }

  /** A string without whitespace runs keeps them absent after its first character. */
  lemma NoSpaceRunsTail(s: string)
    requires s != [] && NoSpaceRuns(s)
    ensures NoSpaceRuns(s[1..])
  {
    forall i | 0 <= i < |s| - 1 && IsSpace(s[1..][i])
      ensures s[1..][i] == ' ' && (i + 1 < |s| - 1 ==> !IsSpace(s[1..][i + 1]))
    {
      assert s[1..][i] == s[i + 1];
    }
  }

  /** Collapsing leaves a string without whitespace runs as it is. */
  lemma {:induction false} CollapseRunsFixed(s: string)
    requires NoSpaceRuns(s)
    ensures CollapseRuns(s) == s
    decreases |s|
  {
    if s != [] {
      NoSpaceRunsTail(s);
      CollapseRunsFixed(s[1..]);
      if IsSpace(s[0]) {
        assert s[1..] == [] || !IsSpace(s[1..][0]);
        assert LStrip(s[1..]) == s[1..];
      }
    }
  }

  /** A collapsed string is a fixed point of `_collapse_spaces`; so collapsing twice is
      collapsing once. */
  lemma CollapseFixed(s: string)
    requires IsCollapsed(s)
    ensures CollapseSpaces(s) == s
  {
    StripTrimmed(s);
    CollapseRunsFixed(s);
  }

  lemma CollapseIdempotent(s: string)
    ensures CollapseSpaces(CollapseSpaces(s)) == CollapseSpaces(s)
  {
    CollapseSpacesCollapsed(s);
    CollapseFixed(CollapseSpaces(s));
  }

  /** The characters of `[0-9A-Za-z가-힣]`. */
  predicate IsWordChar(c: char) {
    ('0' <= c <= '9') || ('A' <= c <= 'Z') || ('a' <= c <= 'z') || ('\U{AC00}' <= c <= '\U{D7A3}')
  }

  /** `re.search(r"[0-9A-Za-z가-힣]", t)` found a match. */
  function HasWordChar(t: string): bool {
    t != [] && (IsWordChar(t[0]) || HasWordChar(t[1..]))
  }

  /** The search finds a match exactly when some character is in the class. */
  lemma {:induction false} HasWordCharMeans(t: string)
    ensures HasWordChar(t) <==> exists i :: 0 <= i < |t| && IsWordChar(t[i])
  {
    if t != [] {
      HasWordCharMeans(t[1..]);
      if exists i :: 0 <= i < |t| && IsWordChar(t[i]) {
        var i :| 0 <= i < |t| && IsWordChar(t[i]);
        if i > 0 {
          assert t[1..][i - 1] == t[i];
        }
      }
      if HasWordChar(t[1..]) {
        var i :| 0 <= i < |t[1..]| && IsWordChar(t[1..][i]);
        assert t[i + 1] == t[1..][i];
      }
    }
  }

  /** `_is_bad_punct_token`. */
  function IsBadPunctToken(tok: string): bool {
    var t := Strip(tok);
    if t == [] then true else !HasWordChar(t)
  }

  /** A token is punctuation only exactly when its stripped form holds no letter or digit of the
      class (the empty token included). */
  lemma BadPunctTokenMeans(tok: string)
    ensures IsBadPunctToken(tok) <==> forall i :: 0 <= i < |Strip(tok)| ==> !IsWordChar(Strip(tok)[i])
  {
    HasWordCharMeans(Strip(tok));
  }

  const DailyPhrase: string := "하루 명언"
  const CollectionPhrase: string := "명언 모음"

  /** `dict.get`. */
  function Field(fields: map<string, Json>, key: string): (v: Option<Json>)
    ensures v.Some? <==> key in fields
    ensures v.Some? ==> v.value == fields[key]
  {
    if key in fields then Some(fields[key]) else None
  }

  /** The checks on `video_title`. */
  function TitleOf(v: Option<Json>): (r: Result<string, QuoteError>)
    ensures r.Ok? ==> 6 <= |r.value| <= 14 && IsTrimmed(r.value)
    ensures r.Ok? ==> Contains(r.value, DailyPhrase) || Contains(r.value, CollectionPhrase)
    ensures r.Ok? <==> v.Some? && v.value.JStr? && 6 <= |Strip(v.value.s)| <= 14
                       && (Contains(Strip(v.value.s), DailyPhrase) || Contains(Strip(v.value.s), CollectionPhrase))
    ensures r.Ok? ==> r.value == Strip(v.value.s)
  {
    if !(v.Some? && v.value.JStr?) then Err(TitleNotString)
    else
      var t := Strip(v.value.s);
      if !(6 <= |t| <= 14) then Err(TitleLength)
      else if !Contains(t, DailyPhrase) && !Contains(t, CollectionPhrase) then Err(TitlePhrase)
      else Ok(t)
  }

  predicate AllStr(items: seq<Json>) {
    forall i :: 0 <= i < |items| ==> items[i].JStr?
  }

  /** The strings of a list of JSON strings. */
  function Strs(items: seq<Json>): (ss: seq<string>)
    requires AllStr(items)
    ensures |ss| == |items| && forall i :: 0 <= i < |items| ==> ss[i] == items[i].s
  {
    seq(|items|, i requires 0 <= i < |items| => items[i].s)
  }

  /** Prefixes already-cleaned items to the outcome of cleaning the rest. */
  function Prepend<T>(done: seq<T>, rest: Result<seq<T>, QuoteError>): (r: Result<seq<T>, QuoteError>)
    ensures r.Ok? <==> rest.Ok?
    ensures r.Ok? ==> r.value == done + rest.value
    ensures r.Err? ==> r.error == rest.error
  {
    match rest
    case Ok(v) => Ok(done + v)
    case Err(e) => Err(e)
  }

  /** Nothing prefixed leaves the outcome as it is. */
  lemma PrependNothing<T>(rest: Result<seq<T>, QuoteError>)
    ensures Prepend([], rest) == rest
  {
    if rest.Ok? {
      assert [] + rest.value == rest.value;
    }
  }

  /** The shape of each loop of validation: the items are checked in order, the first failure is
      raised, and otherwise the cleaned items come back in order. */
  function MapAll<A, B>(xs: seq<A>, check: A -> Result<B, QuoteError>): (r: Result<seq<B>, QuoteError>)
    ensures r.Ok? ==> |r.value| == |xs|
  {
    if xs == [] then Ok([])
    else
      match check(xs[0])
      case Err(e) => Err(e)
      case Ok(y) => Prepend([y], MapAll(xs[1..], check))
  }

  /** One step of the loop: a passing item is appended, a failing one ends it with its error. */
  lemma MapAllStep<A, B>(xs: seq<A>, check: A -> Result<B, QuoteError>, i: nat)
    requires i < |xs|
    ensures check(xs[i]).Ok? ==> MapAll(xs[i..], check) == Prepend([check(xs[i]).value], MapAll(xs[i + 1..], check))
    ensures check(xs[i]).Err? ==> MapAll(xs[i..], check) == Err(check(xs[i]).error)
  {
    assert xs[i..][0] == xs[i] && xs[i..][1..] == xs[i + 1..];
  }

  /** The loop invariant `outcome == Prepend(done, MapAll(xs[i..], check))` at the start, after a
      passing item, after a failing item, and at the end. */
  lemma MapAllStart<A, B>(xs: seq<A>, check: A -> Result<B, QuoteError>)
    ensures MapAll(xs, check) == Prepend([], MapAll(xs[0..], check))
  {
    assert xs[0..] == xs;
    PrependNothing(MapAll(xs, check));
  }

  lemma MapAllAdvance<A, B>(xs: seq<A>, check: A -> Result<B, QuoteError>, i: nat, done: seq<B>)
    requires i < |xs| && check(xs[i]).Ok?
    ensures Prepend(done, MapAll(xs[i..], check)) == Prepend(done + [check(xs[i]).value], MapAll(xs[i + 1..], check))
  {
    MapAllStep(xs, check, i);
    var rest := MapAll(xs[i + 1..], check);
    if rest.Ok? {
      assert done + ([check(xs[i]).value] + rest.value) == (done + [check(xs[i]).value]) + rest.value;
    }
  }

  lemma MapAllStop<A, B>(xs: seq<A>, check: A -> Result<B, QuoteError>, i: nat, done: seq<B>)
    requires i < |xs| && check(xs[i]).Err?
    ensures Prepend(done, MapAll(xs[i..], check)) == Err(check(xs[i]).error)
  {
    MapAllStep(xs, check, i);
  }

  lemma MapAllEnd<A, B>(xs: seq<A>, check: A -> Result<B, QuoteError>, done: seq<B>)
    ensures Prepend(done, MapAll(xs[|xs|..], check)) == Ok(done)
  {
    assert xs[|xs|..] == [];
    assert done + [] == done;
  }

  /** Item `i` of an accepted sequence is what checking item `i` gives. */
  lemma {:induction false} MapAllEach<A, B>(xs: seq<A>, check: A -> Result<B, QuoteError>, i: nat)
    requires i < |xs| && MapAll(xs, check).Ok?
    ensures check(xs[i]) == Ok(MapAll(xs, check).value[i])
  {
    if i > 0 {
      MapAllEach(xs[1..], check, i - 1);
    }
  }

  /** A sequence is accepted exactly when every item passes its check. */
  lemma {:induction false} MapAllAccepts<A, B>(xs: seq<A>, check: A -> Result<B, QuoteError>)
    ensures MapAll(xs, check).Ok? <==> forall i :: 0 <= i < |xs| ==> check(xs[i]).Ok?
  {
    if xs != [] {
      MapAllAccepts(xs[1..], check);
      if check(xs[0]).Ok? && forall i :: 0 <= i < |xs| ==> check(xs[i]).Ok? {
        forall i | 0 <= i < |xs| - 1
          ensures check(xs[1..][i]).Ok?
        {
          assert xs[1..][i] == xs[i + 1];
        }
      }
    }
  }

  /** A rejected sequence is rejected with the error of its first failing item. */
  lemma {:induction false} MapAllFirstError<A, B>(xs: seq<A>, check: A -> Result<B, QuoteError>) returns (i: nat)
    requires MapAll(xs, check).Err?
    ensures i < |xs| && check(xs[i]).Err? && MapAll(xs, check).error == check(xs[i]).error
    ensures forall j :: 0 <= j < i ==> check(xs[j]).Ok?
  {
    if check(xs[0]).Err? {
      i := 0;
    } else {
      var k := MapAllFirstError(xs[1..], check);
      i := k + 1;
      forall j | 0 <= j < i
        ensures check(xs[j]).Ok?
      {
        if j > 0 {
          assert xs[j] == xs[1..][j - 1];
        }
      }
    }
  }

  /** One line of `quote_lines`: collapsed, then 8 to 18 characters long. */
  function CleanLine(line: string): (r: Result<string, QuoteError>)
    ensures r.Ok? <==> 8 <= |CollapseSpaces(line)| <= 18
    ensures r.Ok? ==> r.value == CollapseSpaces(line)
    ensures r.Err? ==> r.error == LineLength
  {
    var c := CollapseSpaces(line);
    if !(8 <= |c| <= 18) then Err(LineLength) else Ok(c)
  }

  /** The loop over `quote_lines`. */
  function CleanLines(lines: seq<string>): Result<seq<string>, QuoteError> {
    MapAll(lines, CleanLine)
  }

  /** The lines are accepted exactly when every collapsed line is 8 to 18 characters long, and
      then each cleaned line is the collapsed original. */
  lemma CleanLinesMeans(lines: seq<string>)
    ensures CleanLines(lines).Ok? <==> forall i :: 0 <= i < |lines| ==> 8 <= |CollapseSpaces(lines[i])| <= 18
    ensures CleanLines(lines).Ok? ==> forall i :: 0 <= i < |lines| ==>
              CleanLines(lines).value[i] == CollapseSpaces(lines[i]) && IsCollapsed(CleanLines(lines).value[i])
  {
    MapAllAccepts(lines, CleanLine);
    if CleanLines(lines).Ok? {
      forall i | 0 <= i < |lines|
        ensures CleanLines(lines).value[i] == CollapseSpaces(lines[i]) && IsCollapsed(CleanLines(lines).value[i])
      {
        MapAllEach(lines, CleanLine, i);
        CollapseSpacesCollapsed(lines[i]);
      }
    }
  }

  /** The checks on `quote_lines`. */
  function LinesOf(v: Option<Json>): (r: Result<seq<string>, QuoteError>)
    ensures r.Ok? ==> 2 <= |r.value| <= 4
  {
    if !(v.Some? && v.value.JList? && AllStr(v.value.items)) then Err(LinesNotStrings)
    else
      var lines := Strs(v.value.items);
      if !(2 <= |lines| <= 4) then Err(LinesCount)
      else CleanLines(lines)
  }

  /** One token of a row: stripped, 1 to 6 characters, and not punctuation only. */
  function CleanToken(tok: string): (r: Result<string, QuoteError>)
    ensures r.Ok? ==> r.value == Strip(tok) && 1 <= |r.value| <= 6 && HasWordChar(r.value)
    ensures r.Err? ==> r.error == TokenLength || r.error == PunctToken
  {
    var t := Strip(tok);
    StripIdempotent(tok);
    if !(1 <= |t| <= 6) then Err(TokenLength)
    else if IsBadPunctToken(t) then Err(PunctToken)
    else Ok(t)
  }

  /** The token loop of one row. */
  function CleanTokens(row: seq<string>): Result<seq<string>, QuoteError> {
    MapAll(row, CleanToken)
  }

  /** One row of `typing_units` against its cleaned line. */
  function CleanRow(row: seq<Json>, line: string): Result<seq<string>, QuoteError> {
    if !AllStr(row) then Err(TokenNotString)
    else if row == [] then Err(EmptyRow)
    else
      match CleanTokens(Strs(row))
      case Err(e) => Err(e)
      case Ok(toks) => if CollapseSpaces(Join(" ", toks)) != line then Err(RowMismatch) else Ok(toks)
  }

  /** A row of `typing_units` with the cleaned line of the same index. */
  function CleanPair(pair: (seq<Json>, string)): Result<seq<string>, QuoteError> {
    CleanRow(pair.0, pair.1)
  }

  /** `enumerate(typing_units)` read alongside `cleaned_lines`. */
  function Zip<A, B>(xs: seq<A>, ys: seq<B>): (r: seq<(A, B)>)
    requires |xs| == |ys|
    ensures |r| == |xs| && forall i :: 0 <= i < |xs| ==> r[i] == (xs[i], ys[i])
  {
    seq(|xs|, i requires 0 <= i < |xs| => (xs[i], ys[i]))
  }

  /** The loop over `typing_units`. */
  function CleanRows(rows: seq<seq<Json>>, lines: seq<string>): (r: Result<seq<seq<string>>, QuoteError>)
    requires |rows| == |lines|
    ensures r.Ok? ==> |r.value| == |rows|
  {
    MapAll(Zip(rows, lines), CleanPair)
  }

  predicate AllLists(items: seq<Json>) {
    forall i :: 0 <= i < |items| ==> items[i].JList?
  }

  /** The rows of a list of JSON lists. */
  function Rows(items: seq<Json>): (rows: seq<seq<Json>>)
    requires AllLists(items)
    ensures |rows| == |items| && forall i :: 0 <= i < |items| ==> rows[i] == items[i].items
  {
    seq(|items|, i requires 0 <= i < |items| => items[i].items)
  }

  /** The checks on `typing_units`. */
  function UnitsOf(v: Option<Json>, lines: seq<string>): (r: Result<seq<seq<string>>, QuoteError>)
    ensures r.Ok? ==> |r.value| == |lines|
  {
    if !(v.Some? && v.value.JList? && AllLists(v.value.items)) then Err(UnitsNotLists)
    else if |v.value.items| != |lines| then Err(UnitsCount)
    else CleanRows(Rows(v.value.items), lines)
  }

  /** A tag is kept when it is non-empty and not only whitespace. */
  predicate KeptTag(t: string) {
    t != [] && Strip(t) != []
  }

  /** A tag that does not start with `#`. */
  predicate Unhashed(t: string) {
    t == [] || t[0] != '#'
  }

  /** `t.strip().lstrip("#")`. */
  function CleanTag(t: string): (r: string)
    ensures Unhashed(r)
  {
    LStripChar(Strip(t), '#')
  }

  /** The comprehension over `tags`. */
  function CleanTags(tags: seq<string>): (r: seq<string>)
    ensures |r| <= |tags|
    ensures forall i :: 0 <= i < |r| ==> Unhashed(r[i])
  {
    if tags == [] then []
    else
      var t := tags[|tags| - 1];
      CleanTags(tags[..|tags| - 1]) + CleanLast(t)
  }

  /** What the loop appends for one tag: its cleaned form when it is kept, else nothing. */
  function CleanLast(t: string): (r: seq<string>)
    ensures |r| <= 1 && (r != [] ==> Unhashed(r[0]))
  {
    if KeptTag(t) then [CleanTag(t)] else []
  }

  /** A tag made only of `#` signs is not blank, so it is kept, as the empty string. */
  lemma HashOnlyTagKept(t: string)
    requires t != [] && forall i :: 0 <= i < |t| ==> t[i] == '#'
    ensures KeptTag(t) && CleanTag(t) == ""
  {
    assert !IsSpace(t[0]) && !IsSpace(t[|t| - 1]);
    StripTrimmed(t);
  }

  /** Every string cut to its first 20 characters. */
  function Cut20(tags: seq<string>): (r: seq<string>)
    ensures |r| == |tags|
    ensures forall i :: 0 <= i < |tags| ==> r[i] == Take(tags[i], 20)
  {
    seq(|tags|, i requires 0 <= i < |tags| => Take(tags[i], 20))
  }

  /** The checks on `tags`, then each tag cut to 20 characters. */
  function TagsOf(v: Option<Json>): (r: Result<seq<string>, QuoteError>)
    ensures r.Ok? ==> 3 <= |r.value| <= 6
    ensures r.Ok? ==> forall i :: 0 <= i < |r.value| ==> |r.value[i]| <= 20 && Unhashed(r.value[i])
  {
    if !(v.Some? && v.value.JList? && AllStr(v.value.items)) then Err(TagsNotStrings)
    else
      var tags := CleanTags(Strs(v.value.items));
      if !(3 <= |tags| <= 6) then Err(TagsCount)
      else Ok(Cut20(tags))
  }

  /** `validate_daily_quote_payload`. */
  function Validate(obj: Json): Result<Payload, QuoteError> {
    if !obj.JObject? then Err(NotAnObject)
    else
      var f := obj.fields;
      match TitleOf(Field(f, "video_title"))
      case Err(e) => Err(e)
      case Ok(title) =>
        match LinesOf(Field(f, "quote_lines"))
        case Err(e) => Err(e)
        case Ok(lines) =>
          match UnitsOf(Field(f, "typing_units"), lines)
          case Err(e) => Err(e)
          case Ok(units) =>
            match TagsOf(Field(f, "tags"))
            case Err(e) => Err(e)
            case Ok(tags) => Ok(Payload(title, lines, units, tags))
  }

  /** The bounds on one row of `typing_units`. */
  predicate WellFormedRow(row: seq<string>, line: string) {
    && row != [] && CollapseSpaces(Join(" ", row)) == line
    && forall j :: 0 <= j < |row| ==> 1 <= |row[j]| <= 6 && IsTrimmed(row[j]) && HasWordChar(row[j])
  }

  /** The bounds on `video_title`. */
  predicate TitleOk(title: string) {
    6 <= |title| <= 14 && IsTrimmed(title) && (Contains(title, DailyPhrase) || Contains(title, CollectionPhrase))
  }

  /** The bounds on `quote_lines`. */
  predicate LinesOk(lines: seq<string>) {
    2 <= |lines| <= 4 && forall i :: 0 <= i < |lines| ==> IsCollapsed(lines[i]) && 8 <= |lines[i]| <= 18
  }

  /** The bounds on `typing_units` against the lines. */
  predicate UnitsOk(units: seq<seq<string>>, lines: seq<string>) {
    |units| == |lines| && forall i :: 0 <= i < |units| ==> WellFormedRow(units[i], lines[i])
  }

  /** The bounds on `tags`. */
  predicate TagsOk(tags: seq<string>) {
    3 <= |tags| <= 6 && forall i :: 0 <= i < |tags| ==> |tags[i]| <= 20 && Unhashed(tags[i])
  }

  /** Every bound the schema promises of an accepted payload. */
  predicate WellFormed(p: Payload) {
    TitleOk(p.title) && LinesOk(p.lines) && UnitsOk(p.units, p.lines) && TagsOk(p.tags)
  }

  /** A row that cleaning accepts meets the row bounds. */
  lemma CleanRowWellFormed(row: seq<Json>, line: string)
    requires CleanRow(row, line).Ok?
    ensures WellFormedRow(CleanRow(row, line).value, line)
  {
    var toks := CleanRow(row, line).value;
    assert AllStr(row) && CleanTokens(Strs(row)) == Ok(toks);
    forall j | 0 <= j < |toks|
      ensures 1 <= |toks[j]| <= 6 && IsTrimmed(toks[j]) && HasWordChar(toks[j])
    {
      MapAllEach(Strs(row), CleanToken, j);
    }
  }

  /** Accepted lines are collapsed and 8 to 18 characters long. */
  lemma LinesOfCollapsed(v: Option<Json>)
    requires LinesOf(v).Ok?
    ensures LinesOk(LinesOf(v).value)
  {
    var lines := Strs(v.value.items);
    assert LinesOf(v) == CleanLines(lines);
    CleanLinesMeans(lines);
  }

  /** Accepted rows meet the row bounds against their lines. */
  lemma UnitsOfWellFormed(v: Option<Json>, lines: seq<string>)
    requires UnitsOf(v, lines).Ok?
    ensures forall i :: 0 <= i < |lines| ==> WellFormedRow(UnitsOf(v, lines).value[i], lines[i])
  {
    var rows := Rows(v.value.items);
    forall i | 0 <= i < |lines|
      ensures WellFormedRow(UnitsOf(v, lines).value[i], lines[i])
    {
      MapAllEach(Zip(rows, lines), CleanPair, i);
      CleanRowWellFormed(rows[i], lines[i]);
    }
  }

  /** Whatever validation accepts meets the schema. */
  lemma ValidatedWellFormed(obj: Json)
    requires Validate(obj).Ok?
    ensures WellFormed(Validate(obj).value)
  {
    var f, p := obj.fields, Validate(obj).value;
    ValidatedParts(obj);
    assert LinesOk(p.lines) by {
      LinesOfCollapsed(Field(f, "quote_lines"));
    }
    assert UnitsOk(p.units, p.lines) by {
      UnitsOfWellFormed(Field(f, "typing_units"), p.lines);
    }
  }

  /** An accepted payload is made of the four accepted fields. */
  lemma ValidatedParts(obj: Json)
    requires Validate(obj).Ok?
    ensures obj.JObject?
    ensures var f, p := obj.fields, Validate(obj).value;
      && TitleOf(Field(f, "video_title")) == Ok(p.title)
      && LinesOf(Field(f, "quote_lines")) == Ok(p.lines)
      && UnitsOf(Field(f, "typing_units"), p.lines) == Ok(p.units)
      && TagsOf(Field(f, "tags")) == Ok(p.tags)
  {
  }

  /** `MapAll` accepts a sequence whose every item passes unchanged into `ys`. */
  lemma {:induction false} MapAllAll<A, B>(xs: seq<A>, check: A -> Result<B, QuoteError>, ys: seq<B>)
    requires |ys| == |xs| && forall i :: 0 <= i < |xs| ==> check(xs[i]) == Ok(ys[i])
    ensures MapAll(xs, check) == Ok(ys)
  {
    if xs != [] {
      assert check(xs[0]) == Ok(ys[0]);
      forall i | 0 <= i < |xs| - 1
        ensures check(xs[1..][i]) == Ok(ys[1..][i])
      {
        assert xs[1..][i] == xs[i + 1] && ys[1..][i] == ys[i + 1];
      }
      MapAllAll(xs[1..], check, ys[1..]);
      assert [ys[0]] + ys[1..] == ys;
    }
  }

  /** A JSON list of strings. */
  function StrList(ss: seq<string>): (items: seq<Json>)
    ensures |items| == |ss| && AllStr(items) && Strs(items) == ss
  {
    seq(|ss|, i requires 0 <= i < |ss| => JStr(ss[i]))
  }

  /** A JSON list of lists of strings. */
  function RowList(rows: seq<seq<string>>): (items: seq<Json>)
    ensures |items| == |rows| && AllLists(items)
    ensures forall i :: 0 <= i < |rows| ==> items[i] == JList(StrList(rows[i]))
  {
    seq(|rows|, i requires 0 <= i < |rows| => JList(StrList(rows[i])))
  }

  /** The JSON object a payload is written as. */
  function Encode(p: Payload): Json {
    JObject(map["video_title" := JStr(p.title), "quote_lines" := JList(StrList(p.lines)),
                "typing_units" := JList(RowList(p.units)), "tags" := JList(StrList(p.tags))])
  }

  /** A tag that cleaning leaves as it is: non-empty, trimmed, no leading `#`, at most 20 long. */
  predicate CanonicalTag(t: string) {
    t != [] && IsTrimmed(t) && t[0] != '#' && |t| <= 20
  }

  /** Canonical tags pass the comprehension unchanged. */
  lemma {:induction false} CleanTagsFixed(tags: seq<string>)
    requires forall i :: 0 <= i < |tags| ==> CanonicalTag(tags[i])
    ensures CleanTags(tags) == tags
  {
    if tags != [] {
      var t := tags[|tags| - 1];
      var init := tags[..|tags| - 1];
      assert CleanTags(tags) == CleanTags(init) + CleanLast(t);
      assert forall i :: 0 <= i < |init| ==> init[i] == tags[i];
      CleanTagsFixed(init);
      CanonicalTagClean(t);
      SplitLast(tags);
    }
  }

  /** A canonical tag is kept as it is. */
  lemma CanonicalTagClean(t: string)
    requires CanonicalTag(t)
    ensures CleanLast(t) == [t]
  {
    StripTrimmed(t);
    assert KeptTag(t);
    assert LStripChar(t, '#') == t;
  }

  /** Cutting tags of at most 20 characters leaves them as they are. */
  lemma Cut20Fixed(tags: seq<string>)
    requires forall i :: 0 <= i < |tags| ==> |tags[i]| <= 20
    ensures Cut20(tags) == tags
  {
    forall i | 0 <= i < |tags|
      ensures Cut20(tags)[i] == tags[i]
    {
      var c := Take(tags[i], 20);
      assert c <= tags[i] && |c| == |tags[i]|;
    }
  }

  /** A well-formed row passes the row checks unchanged. */
  lemma CleanRowFixed(row: seq<string>, line: string)
    requires WellFormedRow(row, line)
    ensures CleanRow(StrList(row), line) == Ok(row)
  {
    forall j | 0 <= j < |row|
      ensures CleanToken(row[j]) == Ok(row[j])
    {
      StripTrimmed(row[j]);
    }
    MapAllAll(row, CleanToken, row);
    var items := StrList(row);
    assert AllStr(items) && items != [] && Strs(items) == row;
    assert CleanTokens(row) == Ok(row);
    assert CollapseSpaces(Join(" ", row)) == line;
  }

  /** Well-formed lines pass the line checks unchanged. */
  lemma CleanLinesFixed(lines: seq<string>)
    requires forall i :: 0 <= i < |lines| ==> IsCollapsed(lines[i]) && 8 <= |lines[i]| <= 18
    ensures CleanLines(lines) == Ok(lines)
  {
    forall i | 0 <= i < |lines|
      ensures CleanLine(lines[i]) == Ok(lines[i])
    {
      CollapseFixed(lines[i]);
    }
    MapAllAll(lines, CleanLine, lines);
  }

  /** Well-formed rows pass the `typing_units` checks unchanged. */
  lemma CleanRowsFixed(units: seq<seq<string>>, lines: seq<string>)
    requires |units| == |lines| && forall i :: 0 <= i < |units| ==> WellFormedRow(units[i], lines[i])
    ensures CleanRows(Rows(RowList(units)), lines) == Ok(units)
  {
    var rows := Rows(RowList(units));
    forall i | 0 <= i < |units|
      ensures CleanPair(Zip(rows, lines)[i]) == Ok(units[i])
    {
      CleanRowFixed(units[i], lines[i]);
    }
    MapAllAll(Zip(rows, lines), CleanPair, units);
  }

  /** The fields of a well-formed payload pass their checks unchanged. */
  lemma TitleFixed(title: string)
    requires 6 <= |title| <= 14 && IsTrimmed(title)
    requires Contains(title, DailyPhrase) || Contains(title, CollectionPhrase)
    ensures TitleOf(Some(JStr(title))) == Ok(title)
  {
    StripTrimmed(title);
  }

  lemma LinesFixed(lines: seq<string>)
    requires 2 <= |lines| <= 4
    requires forall i :: 0 <= i < |lines| ==> IsCollapsed(lines[i]) && 8 <= |lines[i]| <= 18
    ensures LinesOf(Some(JList(StrList(lines)))) == Ok(lines)
  {
    var items := StrList(lines);
    assert AllStr(items) && Strs(items) == lines;
    CleanLinesFixed(lines);
  }

  lemma UnitsFixed(units: seq<seq<string>>, lines: seq<string>)
    requires |units| == |lines| && forall i :: 0 <= i < |units| ==> WellFormedRow(units[i], lines[i])
    ensures UnitsOf(Some(JList(RowList(units))), lines) == Ok(units)
  {
    CleanRowsFixed(units, lines);
  }

  lemma TagsFixed(tags: seq<string>)
    requires 3 <= |tags| <= 6 && forall i :: 0 <= i < |tags| ==> CanonicalTag(tags[i])
    ensures TagsOf(Some(JList(StrList(tags)))) == Ok(tags)
  {
    var items := StrList(tags);
    assert AllStr(items) && Strs(items) == tags;
    CleanTagsFixed(tags);
    Cut20Fixed(tags);
    assert TagsOf(Some(JList(items))) == Ok(Cut20(CleanTags(tags)));
  }

  /** Validation accepts an object whose four fields each pass their checks. */
  lemma ValidateOfFields(obj: Json, p: Payload)
    requires obj.JObject?
    requires TitleOf(Field(obj.fields, "video_title")) == Ok(p.title)
    requires LinesOf(Field(obj.fields, "quote_lines")) == Ok(p.lines)
    requires UnitsOf(Field(obj.fields, "typing_units"), p.lines) == Ok(p.units)
    requires TagsOf(Field(obj.fields, "tags")) == Ok(p.tags)
    ensures Validate(obj) == Ok(p)
  {
  }

  /** The four fields of an encoded payload. */
  lemma EncodeFields(p: Payload)
    ensures Field(Encode(p).fields, "video_title") == Some(JStr(p.title))
    ensures Field(Encode(p).fields, "quote_lines") == Some(JList(StrList(p.lines)))
    ensures Field(Encode(p).fields, "typing_units") == Some(JList(RowList(p.units)))
    ensures Field(Encode(p).fields, "tags") == Some(JList(StrList(p.tags)))
  {
    assert "video_title"[0] != "quote_lines"[0] && "video_title"[0] != "typing_units"[0];
    assert "video_title"[0] != "tags"[0] && "quote_lines"[0] != "typing_units"[0];
    assert "quote_lines"[0] != "tags"[0] && "typing_units"[1] != "tags"[1];
  }

  /** Writing a well-formed payload whose tags are already clean as JSON and validating it gives
      the payload back. */
  lemma CanonicalRoundTrip(p: Payload)
    requires WellFormed(p)
    requires forall i :: 0 <= i < |p.tags| ==> CanonicalTag(p.tags[i])
    ensures Validate(Encode(p)) == Ok(p)
  {
    EncodeFields(p);
    TitleFixed(p.title);
    LinesFixed(p.lines);
    UnitsFixed(p.units, p.lines);
    TagsFixed(p.tags);
    ValidateOfFields(Encode(p), p);
  }

  /** The loop over `quote_lines` that builds `cleaned_lines`. */
  method CleanLinesLoop(lines: seq<string>) returns (r: Result<seq<string>, QuoteError>)
    ensures r == CleanLines(lines)
  {
    var cleaned: seq<string> := [];
    var i := 0;
    MapAllStart(lines, CleanLine);
    while i < |lines|
      invariant 0 <= i <= |lines|
      invariant CleanLines(lines) == Prepend(cleaned, MapAll(lines[i..], CleanLine))
    {
      var line := CollapseSpaces(lines[i]);
      if !(8 <= |line| <= 18) {
        MapAllStop(lines, CleanLine, i, cleaned);
        return Err(LineLength);
      }
      MapAllAdvance(lines, CleanLine, i, cleaned);
      cleaned := cleaned + [line];
      i := i + 1;
    }
    MapAllEnd(lines, CleanLine, cleaned);
    return Ok(cleaned);
  }

  /** The token loop that builds `out_row`. */
  method CleanTokensLoop(toks: seq<string>) returns (r: Result<seq<string>, QuoteError>)
    ensures r == CleanTokens(toks)
  {
    var outRow: seq<string> := [];
    var j := 0;
    MapAllStart(toks, CleanToken);
    while j < |toks|
      invariant 0 <= j <= |toks|
      invariant CleanTokens(toks) == Prepend(outRow, MapAll(toks[j..], CleanToken))
    {
      var tok := Strip(toks[j]);
      if !(1 <= |tok| <= 6) {
        MapAllStop(toks, CleanToken, j, outRow);
        return Err(TokenLength);
      }
      if IsBadPunctToken(tok) {
        MapAllStop(toks, CleanToken, j, outRow);
        return Err(PunctToken);
      }
      MapAllAdvance(toks, CleanToken, j, outRow);
      outRow := outRow + [tok];
      j := j + 1;
    }
    MapAllEnd(toks, CleanToken, outRow);
    return Ok(outRow);
  }

  /** One row of `typing_units`: the type and emptiness checks, the token loop, and the
      comparison of the rebuilt line. */
  method CleanRowLoop(row: seq<Json>, line: string) returns (r: Result<seq<string>, QuoteError>)
    ensures r == CleanRow(row, line)
  {
    if !AllStr(row) {
      return Err(TokenNotString);
    }
    if |row| == 0 {
      return Err(EmptyRow);
    }
    var outRow := CleanTokensLoop(Strs(row));
    if outRow.Err? {
      return Err(outRow.error);
    }
    var rebuilt := CollapseSpaces(Join(" ", outRow.value));
    if rebuilt != line {
      return Err(RowMismatch);
    }
    return Ok(outRow.value);
  }

  /** One pass of the loop over `typing_units`: the row is cleaned against its line, and either
      the loop stops with the row's error or the cleaned row is appended. */
  method CleanRowsStep(pairs: seq<(seq<Json>, string)>, i: nat, cleaned: seq<seq<string>>)
    returns (outRow: Result<seq<string>, QuoteError>, cleaned': seq<seq<string>>)
    requires i < |pairs|
    ensures outRow.Err? ==> Prepend(cleaned, MapAll(pairs[i..], CleanPair)) == Err(outRow.error)
    ensures outRow.Ok? ==> cleaned' == cleaned + [outRow.value]
    ensures outRow.Ok? ==> Prepend(cleaned, MapAll(pairs[i..], CleanPair)) == Prepend(cleaned', MapAll(pairs[i + 1..], CleanPair))
  {
    outRow := CleanRowLoop(pairs[i].0, pairs[i].1);
    assert outRow == CleanPair(pairs[i]);
    cleaned' := cleaned;
    if outRow.Err? {
      MapAllStop(pairs, CleanPair, i, cleaned);
    } else {
      MapAllAdvance(pairs, CleanPair, i, cleaned);
      cleaned' := cleaned + [outRow.value];
    }
  }

  /** The loop over `enumerate(typing_units)` that builds `cleaned_units`. */
  method CleanRowsLoop(rows: seq<seq<Json>>, lines: seq<string>) returns (r: Result<seq<seq<string>>, QuoteError>)
    requires |rows| == |lines|
    ensures r == CleanRows(rows, lines)
  {
    var pairs := Zip(rows, lines);
    ghost var spec := CleanRows(rows, lines);
    assert spec == MapAll(pairs, CleanPair) && |pairs| == |rows|;
    var cleaned: seq<seq<string>> := [];
    var i := 0;
    MapAllStart(pairs, CleanPair);
    while i < |pairs|
      invariant 0 <= i <= |pairs|
      invariant spec == Prepend(cleaned, MapAll(pairs[i..], CleanPair))
    {
      var outRow;
      outRow, cleaned := CleanRowsStep(pairs, i, cleaned);
      if outRow.Err? {
        return Err(outRow.error);
      }
      i := i + 1;
    }
    MapAllEnd(pairs, CleanPair, cleaned);
    return Ok(cleaned);
  }

  /** `validate_daily_quote_payload`, step by step. */
  method ValidatePayload(obj: Json) returns (r: Result<Payload, QuoteError>)
    ensures r == Validate(obj)
  {
    if !obj.JObject? {
      return Err(NotAnObject);
    }
    var f := obj.fields;
    var title := TitleOf(Field(f, "video_title"));
    if title.Err? {
      return Err(title.error);
    }
    var lines := ReadQuoteLines(Field(f, "quote_lines"));
    if lines.Err? {
      return Err(lines.error);
    }
    var units := ReadTypingUnits(Field(f, "typing_units"), lines.value);
    if units.Err? {
      return Err(units.error);
    }
    var tags := TagsOf(Field(f, "tags"));
    if tags.Err? {
      return Err(tags.error);
    }
    return Ok(Payload(title.value, lines.value, units.value, tags.value));
  }

  /** The `quote_lines` part of the validator: a list of 2 to 4 strings, each cleaned. */
  method ReadQuoteLines(v: Option<Json>) returns (r: Result<seq<string>, QuoteError>)
    ensures r == LinesOf(v)
  {
    if !(v.Some? && v.value.JList? && AllStr(v.value.items)) {
      return Err(LinesNotStrings);
    }
    if !(2 <= |v.value.items| <= 4) {
      return Err(LinesCount);
    }
    r := CleanLinesLoop(Strs(v.value.items));
  }

  /** The `typing_units` part of the validator: one list of tokens per cleaned line. */
  method ReadTypingUnits(v: Option<Json>, lines: seq<string>) returns (r: Result<seq<seq<string>>, QuoteError>)
    ensures r == UnitsOf(v, lines)
  {
    if !(v.Some? && v.value.JList? && AllLists(v.value.items)) {
      return Err(UnitsNotLists);
    }
    if |v.value.items| != |lines| {
      return Err(UnitsCount);
    }
    r := CleanRowsLoop(Rows(v.value.items), lines);
  }
}
