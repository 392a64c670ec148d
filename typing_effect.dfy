/** The typing effect of the quote short: tokens of each row appear one at a time, one frame
    per token, followed by a held frame showing every row in full. Pixels, fonts and clip
    durations are not modelled; a frame is the list of text lines it displays. */
module TypingEffect {
  import opened PyStr
  import Seqs

  /** `sum(len(row) for row in typing_units)`. */
  function Sum(units: seq<seq<string>>): (n: nat)
    ensures n == 0 <==> forall i :: 0 <= i < |units| ==> units[i] == []
  {
    if units == [] then 0
    else
      var n := Sum(units[..|units| - 1]) + |units[|units| - 1]|;
      assert forall i :: 0 <= i < |units| - 1 ==> units[..|units| - 1][i] == units[i];
      n
  }

  lemma SumSnoc(units: seq<seq<string>>, i: nat)
    requires i < |units|
    ensures Sum(units[..i + 1]) == Sum(units[..i]) + |units[i]|
  {
    assert units[..i + 1][..i] == units[..i];
  }

  /** The divisor of the per-token interval: the token count, but never zero. */
  function TotalTokens(units: seq<seq<string>>): (n: nat)
    ensures n >= 1 && n >= Sum(units)
    ensures n == Sum(units) || (n == 1 && forall i :: 0 <= i < |units| ==> units[i] == [])
  {
    var s := Sum(units);
    if s < 1 then 1 else s
  }

  /** What a frame shows for a typing state: one line per row, its tokens joined by spaces
      and stripped. */
  function DisplayLines(current: seq<seq<string>>): (lines: seq<string>)
    ensures |lines| == |current|
  {
    seq(|current|, k requires 0 <= k < |current| => RowLine(current[k]))
  }

  /** One displayed line: `" ".join(row).strip()`. */
  function RowLine(row: seq<string>): string {
    Strip(Join(" ", row))
  }

  /** The typing state right after the first `j` tokens of row `i` have been appended: earlier
      rows complete, row `i` holding its first `j` tokens, later rows empty. */
  function StateAfter(units: seq<seq<string>>, i: nat, j: nat): (current: seq<seq<string>>)
    requires i <= |units| && (i < |units| ==> j <= |units[i]|)
    ensures |current| == |units|
  {
    seq(|units|, k requires 0 <= k < |units| =>
      if k < i then units[k] else if k == i then units[i][..j] else [])
  }

  /** The frames typed while row `i` fills up, one per token. */
  function RowFrames(units: seq<seq<string>>, i: nat): (frames: seq<seq<string>>)
    requires i < |units|
    ensures |frames| == |units[i]|
  {
    seq(|units[i]|, j requires 0 <= j < |units[i]| => DisplayLines(StateAfter(units, i, j + 1)))
  }

  /** The typed frames of rows `0 .. i-1`, in row-major order. */
  function TypedFrames(units: seq<seq<string>>, i: nat): (frames: seq<seq<string>>)
    requires i <= |units|
  {
    if i == 0 then [] else TypedFrames(units, i - 1) + RowFrames(units, i - 1)
  }

  /** A clip: the lines on screen, and whether it is the final hold (shown for `hold_sec`)
      rather than a typed frame (shown for the per-token interval). */
  datatype Clip = Clip(lines: seq<string>, hold: bool)

  function Typed(lines: seq<string>): Clip {
    Clip(lines, false)
  }

  /** Every clip of the effect: the typed frames, then the hold frame of every row in full. */
  function Clips(units: seq<seq<string>>): seq<Clip> {
    seq(|TypedFrames(units, |units|)|, k requires 0 <= k < |TypedFrames(units, |units|)| =>
      Typed(TypedFrames(units, |units|)[k]))
    + [Clip(DisplayLines(units), true)]
  }

  // ---------------------------------------------------------------------------------------
  // What the effect promises

  /** Typing starts from one empty list per row. */
  lemma StateAfterStart(units: seq<seq<string>>)
    ensures StateAfter(units, 0, 0) == seq(|units|, k => [])
  {
    if units != [] {
      assert units[0][..0] == [];
    }
  }

  /** Appending the next token of row `i` to its list advances the state by one token. */
  lemma StateAfterStep(units: seq<seq<string>>, i: nat, j: nat)
    requires i < |units| && j < |units[i]|
    ensures var s := StateAfter(units, i, j);
      s[i := s[i] + [units[i][j]]] == StateAfter(units, i, j + 1)
  {
    assert units[i][..j] + [units[i][j]] == units[i][..j + 1];
  }

  /** A complete row is the same state as the next row not yet started; after the last row
      the state holds every token. */
  lemma StateAfterRowEnd(units: seq<seq<string>>, i: nat)
    requires i < |units|
    ensures StateAfter(units, i, |units[i]|) == StateAfter(units, i + 1, 0)
    ensures i + 1 == |units| ==> StateAfter(units, i + 1, 0) == units
  {
    assert units[i][..|units[i]|] == units[i];
  }

  /** Every row of a typing state is a prefix of that row's tokens. */
  lemma StateAfterPrefix(units: seq<seq<string>>, i: nat, j: nat)
    requires i <= |units| && (i < |units| ==> j <= |units[i]|)
    ensures forall k :: 0 <= k < |units| ==> StateAfter(units, i, j)[k] <= units[k]
  {
  }

  /** Each displayed line is the stripped, space-joined row: complete rows show in full, the
      row being typed shows its typed tokens, and rows not reached show an empty line. */
  lemma DisplayAt(units: seq<seq<string>>, i: nat, j: nat, k: nat)
    requires i < |units| && j <= |units[i]| && k < |units|
    ensures var d := DisplayLines(StateAfter(units, i, j));
      && (k < i ==> d[k] == Strip(Join(" ", units[k])))
      && (k == i ==> d[k] == Strip(Join(" ", units[i][..j])))
      && (k > i ==> d[k] == "")
  {
  }

  /** There are as many typed frames as tokens. */
  lemma {:induction false} TypedFramesCount(units: seq<seq<string>>, i: nat)
    requires i <= |units|
    ensures |TypedFrames(units, i)| == Sum(units[..i])
  {
    if i > 0 {
      TypedFramesCount(units, i - 1);
      SumSnoc(units, i - 1);
    }
  }

  /** Token `j` of row `i` produces frame number `Sum(units[..i]) + j`, which shows the state
      right after that token was appended. */
  lemma {:induction false} TypedFrameAt(units: seq<seq<string>>, n: nat, i: nat, j: nat)
    requires n <= |units| && i < n && j < |units[i]|
    ensures Sum(units[..i]) + j < |TypedFrames(units, n)|
    ensures TypedFrames(units, n)[Sum(units[..i]) + j] == DisplayLines(StateAfter(units, i, j + 1))
  {
    var before := TypedFrames(units, n - 1);
    assert TypedFrames(units, n) == before + RowFrames(units, n - 1);
    if i < n - 1 {
      TypedFrameAt(units, n - 1, i, j);
    } else {
      TypedFramesCount(units, i);
      assert RowFrames(units, i)[j] == DisplayLines(StateAfter(units, i, j + 1));
    }
  }

  /** One clip per token plus the hold; the hold is last and shows every row in full, and
      every other clip is a typed frame. */
  lemma ClipsShape(units: seq<seq<string>>)
    ensures |Clips(units)| == Sum(units) + 1
    ensures Clips(units)[Sum(units)] == Clip(DisplayLines(units), true)
    ensures forall k :: 0 <= k < Sum(units) ==> !Clips(units)[k].hold
  {
    TypedFramesCount(units, |units|);
    assert units[..|units|] == units;
  }

  // ---------------------------------------------------------------------------------------
  // The effect as the source computes it

  /** `make_display_lines`: one stripped, space-joined line per row. */
  method MakeDisplayLines(current: seq<seq<string>>) returns (lines: seq<string>)
    ensures lines == DisplayLines(current)
  {
    lines := [];
    var i := 0;
    while i < |current|
      invariant i <= |current|
      invariant lines == Seqs.MapSeq(current[..i], RowLine)
    {
      Seqs.MapSeqSnoc(current, i, RowLine);
      lines := lines + [RowLine(current[i])];
      i := i + 1;
    }
    assert current[..i] == current;
    DisplayLinesMap(current);
  }

  /** The display lines are the row lines taken one row at a time. */
  lemma DisplayLinesMap(current: seq<seq<string>>)
    ensures DisplayLines(current) == Seqs.MapSeq(current, RowLine)
  {
    var a := DisplayLines(current);
    var b := Seqs.MapSeq(current, RowLine);
    assert |a| == |b|;
    forall k | 0 <= k < |a|
      ensures a[k] == b[k]
    {
    }
  }

  /** The frame loop of `create_quote_short`: for each row, append each token to that row's
      list and render a frame; then render the hold frame from the full rows. */
  method TypeQuote(units: seq<seq<string>>) returns (clips: seq<Clip>)
    ensures clips == Clips(units)
  {
    var current: seq<seq<string>> := seq(|units|, k => []);
    StateAfterStart(units);
    var frames: seq<seq<string>> := [];
    var i := 0;
    while i < |units|
      invariant i <= |units|
      invariant current == StateAfter(units, i, 0)
      invariant frames == TypedFrames(units, i)
    {
      var row := units[i];
      var j := 0;
      assert units[i][..0] == [];
      while j < |row|
        invariant j <= |row|
        invariant current == StateAfter(units, i, j)
        invariant frames == TypedFrames(units, i) + RowFrames(units, i)[..j]
      {
        StateAfterStep(units, i, j);
        current := current[i := current[i] + [row[j]]];
        var lines := MakeDisplayLines(current);
        assert RowFrames(units, i)[..j + 1] == RowFrames(units, i)[..j] + [lines];
        frames := frames + [lines];
        j := j + 1;
      }
      StateAfterRowEnd(units, i);
      assert RowFrames(units, i)[..j] == RowFrames(units, i);
      i := i + 1;
    }
    clips := seq(|frames|, k requires 0 <= k < |frames| => Typed(frames[k]));
    var finalLines := MakeDisplayLines(units);
    clips := clips + [Clip(finalLines, true)];
  }
}
