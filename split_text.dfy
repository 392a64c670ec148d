/** `split_text` (app/video/video_creator.py): a script cut into subtitle segments of at most
    `max_chars` characters. Lines are hard boundaries; a long line is packed greedily word by
    word, and a piece still too long is cut every `max_chars` characters. */
module SubtitleSplit {
  import opened PyStr
  import opened Seqs

  /** `p.strip()` when it is not blank: the list comprehension's contribution for one line. */
  function NonBlank(part: string): (r: seq<string>)
    ensures |r| <= 1 && forall k :: 0 <= k < |r| ==> r[k] == Strip(part) && r[k] != []
  {
    if Strip(part) != [] then [Strip(part)] else []
  }

  /** The word loop from a state: `cur` is the chunk being built, `words` what is left. A word
      that fits after a space joins the chunk; otherwise the chunk is emitted and the word starts
      the next one. */
  function PackFrom(words: seq<string>, cur: string, maxChars: int): seq<string>
    decreases |words|
  {
    if words == [] then (if cur != "" then [cur] else [])
    else
      var w := words[0];
      if cur == "" then PackFrom(words[1..], w, maxChars)
      else if |cur| + 1 + |w| <= maxChars then PackFrom(words[1..], cur + " " + w, maxChars)
      else [cur] + PackFrom(words[1..], w, maxChars)
  }

  /** The chunks of one line: the line itself when short enough, else the packed words. */
  function Pack(part: string, maxChars: int): seq<string> {
    if |part| <= maxChars then [part] else PackFrom(Split(part, ' '), "", maxChars)
  }

  function Packer(maxChars: int): (f: string -> seq<string>)
    ensures forall part :: f(part) == Pack(part, maxChars)
  {
    part => Pack(part, maxChars)
  }

  function Min(a: int, b: int): int {
    if a <= b then a else b
  }

  /** `[p[i:i + max_chars] for i in range(start, len(p), max_chars)]`. */
  function CutFrom(p: string, start: nat, maxChars: nat): seq<string>
    requires maxChars >= 1
    decreases |p| - start
  {
    if start >= |p| then [] else [p[start..Min(start + maxChars, |p|)]] + CutFrom(p, start + maxChars, maxChars)
  }

  /** A chunk kept whole when short enough, else cut every `max_chars` characters. */
  function HardCut(p: string, maxChars: nat): seq<string>
    requires maxChars >= 1
  {
    if |p| <= maxChars then [p] else CutFrom(p, 0, maxChars)
  }

  function Cutter(maxChars: nat): (f: string -> seq<string>)
    requires maxChars >= 1
    ensures forall p :: f(p) == HardCut(p, maxChars)
  {
    p => HardCut(p, maxChars)
  }

  /** The non-blank stripped lines of the stripped text. */
  function RawParts(text: string): seq<string> {
    FlatMap(Split(Strip(text), '\n'), NonBlank)
  }

  /** `split_text(text, max_chars)`. */
  function SplitTextSpec(text: string, maxChars: nat): seq<string>
    requires maxChars >= 1
  {
    if Strip(text) == [] then []
    else FlatMap(FlatMap(RawParts(text), Packer(maxChars)), Cutter(maxChars))
  }

  predicate NonEmpty(s: string) {
    s != []
  }

  /** Each packed chunk is non-empty, and one longer than `max_chars` is a single word of the
      line (the loop starts a chunk with a word, and only a joined chunk that fits grows). */
  lemma {:induction false} PackFromChunks(words: seq<string>, cur: string, maxChars: int, line: seq<string>)
    requires forall x :: x in words ==> x in line
    requires |cur| <= maxChars || cur in line
    ensures forall k :: 0 <= k < |PackFrom(words, cur, maxChars)| ==>
      var c := PackFrom(words, cur, maxChars)[k];
      c != [] && (|c| <= maxChars || c in line)
    decreases |words|
  {
    if words != [] {
      var w := words[0];
      var rest := words[1..];
      assert forall x :: x in rest ==> x in words;
      if cur == "" {
        PackFromChunks(rest, w, maxChars, line);
      } else if |cur| + 1 + |w| <= maxChars {
        PackFromChunks(rest, cur + " " + w, maxChars, line);
      } else {
        PackFromChunks(rest, w, maxChars, line);
      }
    }
  }

  /** Packing a non-empty chunk gives at least one chunk. */
  lemma {:induction false} PackFromNonEmpty(words: seq<string>, cur: string, maxChars: int)
    requires cur != []
    ensures PackFrom(words, cur, maxChars) != []
    decreases |words|
  {
    if words != [] {
      var w := words[0];
      if |cur| + 1 + |w| <= maxChars {
        PackFromNonEmpty(words[1..], cur + " " + w, maxChars);
      }
    }
  }

  /** With no empty word, joining the chunks with single spaces gives back the chunk in progress
      and the words, joined with single spaces: packing only chooses where to break. */
  lemma {:induction false} PackFromJoin(words: seq<string>, cur: string, maxChars: int)
    requires cur != [] && forall k :: 0 <= k < |words| ==> words[k] != []
    ensures Join(" ", PackFrom(words, cur, maxChars)) == Join(" ", [cur] + words)
    decreases |words|
  {
    if words != [] {
      var w := words[0];
      var rest := words[1..];
      assert [w] + rest == words;
      if |cur| + 1 + |w| <= maxChars {
        PackFromJoin(rest, cur + " " + w, maxChars);
        if rest != [] {
          assert ([cur + " " + w] + rest)[1..] == rest;
          assert ([cur] + words)[1..] == words;
        }
      } else {
        PackFromJoin(rest, w, maxChars);
        PackFromNonEmpty(rest, w, maxChars);
        assert ([cur] + PackFrom(rest, w, maxChars))[1..] == PackFrom(rest, w, maxChars);
        assert ([cur] + words)[1..] == words;
      }
    }
  }

  /** Packing a line whose words are all non-empty (no double space) only chooses where to
      break: its chunks joined with single spaces give the line back. */
  lemma PackJoin(part: string, maxChars: int)
    requires forall k :: 0 <= k < |Split(part, ' ')| ==> Split(part, ' ')[k] != []
    ensures Join(" ", Pack(part, maxChars)) == part
  {
    if |part| > maxChars {
      var words := Split(part, ' ');
      PackFromJoin(words[1..], words[0], maxChars);
      assert [words[0]] + words[1..] == words;
      JoinSplit(part, ' ');
    }
  }

  /** The cut pieces are non-empty, at most `max_chars` long, and concatenate to what they cut. */
  lemma {:induction false} CutFromPieces(p: string, start: nat, maxChars: nat)
    requires maxChars >= 1 && start <= |p|
    ensures Concat(CutFrom(p, start, maxChars)) == p[start..]
    ensures forall k :: 0 <= k < |CutFrom(p, start, maxChars)| ==>
      CutFrom(p, start, maxChars)[k] != [] && |CutFrom(p, start, maxChars)[k]| <= maxChars
    decreases |p| - start
  {
    if start < |p| {
      var next := Min(start + maxChars, |p|);
      CutFromPieces(p, next, maxChars);
      if next == |p| {
        assert CutFrom(p, start + maxChars, maxChars) == [];
      }
      assert p[start..] == p[start..next] + p[next..];
    }
  }

  /** Hard cutting a non-empty chunk gives non-empty pieces of at most `max_chars` characters
      that concatenate back to it; a short chunk is left whole. */
  lemma HardCutPieces(p: string, maxChars: nat)
    requires maxChars >= 1 && p != []
    ensures Concat(HardCut(p, maxChars)) == p
    ensures |p| <= maxChars ==> HardCut(p, maxChars) == [p]
    ensures forall k :: 0 <= k < |HardCut(p, maxChars)| ==>
      HardCut(p, maxChars)[k] != [] && |HardCut(p, maxChars)[k]| <= maxChars
  {
    if |p| > maxChars {
      CutFromPieces(p, 0, maxChars);
    }
  }

  /** Every segment is non-empty and at most `max_chars` characters long. */
  lemma SegmentsBounded(text: string, maxChars: nat)
    requires maxChars >= 1
    ensures forall k :: 0 <= k < |SplitTextSpec(text, maxChars)| ==>
      SplitTextSpec(text, maxChars)[k] != [] && |SplitTextSpec(text, maxChars)[k]| <= maxChars
  {
    if Strip(text) != [] {
      var raw := RawParts(text);
      FlatMapAll(Split(Strip(text), '\n'), NonBlank, NonEmpty);
      PackedNonEmpty(raw, maxChars);
      var parts := FlatMap(raw, Packer(maxChars));
      var cutter := Cutter(maxChars);
      var fits := s => s != [] && |s| <= maxChars;
      forall i | 0 <= i < |parts|
        ensures forall k :: 0 <= k < |cutter(parts[i])| ==> fits(cutter(parts[i])[k])
      {
        assert NonEmpty(parts[i]);
        HardCutPieces(parts[i], maxChars);
      }
      FlatMapAll(parts, cutter, fits);
    }
  }

  /** Packing non-empty lines gives non-empty chunks. */
  lemma PackedNonEmpty(raw: seq<string>, maxChars: nat)
    requires forall i :: 0 <= i < |raw| ==> NonEmpty(raw[i])
    ensures forall k :: 0 <= k < |FlatMap(raw, Packer(maxChars))| ==> NonEmpty(FlatMap(raw, Packer(maxChars))[k])
  {
    var packer := Packer(maxChars);
    forall i | 0 <= i < |raw|
      ensures forall k :: 0 <= k < |packer(raw[i])| ==> NonEmpty(packer(raw[i])[k])
    {
      if |raw[i]| > maxChars {
        PackFromChunks(Split(raw[i], ' '), "", maxChars, Split(raw[i], ' '));
      }
    }
    FlatMapAll(raw, packer, NonEmpty);
  }

  /** A text that is not blank has a non-blank line. */
  lemma RawPartsNonEmpty(text: string)
    requires !IsBlank(text)
    ensures RawParts(text) != []
    ensures forall k :: 0 <= k < |RawParts(text)| ==> RawParts(text)[k] != [] && IsTrimmed(RawParts(text)[k])
  {
    var t := Strip(text);
    var lines := Split(t, '\n');
    assert !IsSpace(t[0]);
    SplitFirst(t, '\n');
    assert !IsBlank(lines[0]);
    FlatMapNonEmpty(lines, NonBlank, 0);
    FlatMapAll(lines, NonBlank, (p: string) => p != [] && IsTrimmed(p));
  }

  /** A non-empty trimmed line packs into at least one chunk, the first one non-empty. */
  lemma PackNonEmpty(part: string, maxChars: nat)
    requires part != [] && IsTrimmed(part)
    ensures Pack(part, maxChars) != [] && Pack(part, maxChars)[0] != []
  {
    if |part| > maxChars {
      var words := Split(part, ' ');
      SplitFirst(part, ' ');
      PackFromNonEmpty(words[1..], words[0], maxChars);
      PackFromChunks(words, "", maxChars, words);
    }
  }

  /** A text that is not blank has at least one segment. */
  lemma SegmentsNonEmpty(text: string, maxChars: nat)
    requires maxChars >= 1 && !IsBlank(text)
    ensures SplitTextSpec(text, maxChars) != []
  {
    RawPartsNonEmpty(text);
    var raw := RawParts(text);
    var packer := Packer(maxChars);
    PackNonEmpty(raw[0], maxChars);
    FlatMapNonEmpty(raw, packer, 0);
    var chunks := FlatMap(raw, packer);
    PackedNonEmpty(raw, maxChars);
    assert NonEmpty(chunks[0]);
    HardCutPieces(chunks[0], maxChars);
    FlatMapNonEmpty(chunks, Cutter(maxChars), 0);
  }

  /** Composing two steps that each give several results. */
  function Compose<A(!new), B, C>(f: A -> seq<B>, g: B -> seq<C>): (h: A -> seq<C>)
    ensures forall x :: h(x) == FlatMap(f(x), g)
  {
    x => FlatMap(f(x), g)
  }

  lemma {:induction false} FlatMapAssoc<A(!new), B, C>(xs: seq<A>, f: A -> seq<B>, g: B -> seq<C>)
    ensures FlatMap(FlatMap(xs, f), g) == FlatMap(xs, Compose(f, g))
  {
    if xs != [] {
      var init := xs[..|xs| - 1];
      FlatMapAssoc(init, f, g);
      FlatMapSplice(FlatMap(init, f), f(xs[|xs| - 1]), g);
    }
  }

  /** The segments of one line of the text. */
  function LineSegments(part: string, maxChars: nat): seq<string>
    requires maxChars >= 1
  {
    FlatMap(Pack(part, maxChars), Cutter(maxChars))
  }

  /** The segments are those of each non-blank line in turn: newlines are hard boundaries. */
  lemma SegmentsByLine(text: string, maxChars: nat)
    requires maxChars >= 1 && Strip(text) != []
    ensures SplitTextSpec(text, maxChars) == FlatMap(RawParts(text), Compose(Packer(maxChars), Cutter(maxChars)))
  {
    FlatMapAssoc(RawParts(text), Packer(maxChars), Cutter(maxChars));
  }

  /** A line of at most `max_chars` characters is one segment, unchanged. */
  lemma ShortLineWhole(part: string, maxChars: nat)
    requires maxChars >= 1 && |part| <= maxChars
    ensures Compose(Packer(maxChars), Cutter(maxChars))(part) == [part]
  {
    var cutter := Cutter(maxChars);
    assert Pack(part, maxChars) == [part];
    assert [part][..0] == [];
    assert cutter(part) == [part];
    assert FlatMap([part], cutter) == FlatMap([part][..0], cutter) + cutter(part);
  }

  /** The word loop of one long line: appends its chunks to `parts`. */
  method PackWords(parts: seq<string>, part: string, maxChars: nat) returns (parts': seq<string>)
    ensures parts' == parts + PackFrom(Split(part, ' '), "", maxChars)
  {
    var words := Split(part, ' ');
    var cur := "";
    parts' := parts;
    var j := 0;
    while j < |words|
      invariant 0 <= j <= |words|
      invariant parts + PackFrom(words, "", maxChars) == parts' + PackFrom(words[j..], cur, maxChars)
    {
      var w := words[j];
      assert words[j..][1..] == words[j + 1..];
      if cur == "" {
        cur := w;
        j := j + 1;
        continue;
      }
      if |cur| + 1 + |w| <= maxChars {
        cur := cur + " " + w;
      } else {
        parts' := parts' + [cur];
        cur := w;
      }
      j := j + 1;
    }
    if cur != "" {
      parts' := parts' + [cur];
    }
  }

  /** The hard-cut loop of one long chunk: appends its pieces to `out`. */
  method CutPiece(out: seq<string>, p: string, maxChars: nat) returns (out': seq<string>)
    requires maxChars >= 1
    ensures out' == out + CutFrom(p, 0, maxChars)
  {
    out' := out;
    var start := 0;
    while start < |p|
      invariant out + CutFrom(p, 0, maxChars) == out' + CutFrom(p, start, maxChars)
      decreases |p| - start
    {
      out' := out' + [p[start..Min(start + maxChars, |p|)]];
      start := start + maxChars;
    }
  }

  /** The function as written: the line loop with its word loop, then the hard-cut loop. */
  method SplitText(text: string, maxChars: nat) returns (out: seq<string>)
    requires maxChars >= 1
    ensures out == SplitTextSpec(text, maxChars)
  {
    var t := Strip(text);
    if t == [] {
      return [];
    }
    var rawParts := RawParts(text);
    var parts := PackLines(rawParts, maxChars);
    out := CutParts(parts, maxChars);
  }

  /** The line loop: a line that fits is one part, a longer one is packed word by word. */
  method PackLines(rawParts: seq<string>, maxChars: nat) returns (parts: seq<string>)
    ensures parts == FlatMap(rawParts, Packer(maxChars))
  {
    parts := [];
    var i := 0;
    while i < |rawParts|
      invariant 0 <= i <= |rawParts|
      invariant parts == FlatMap(rawParts[..i], Packer(maxChars))
    {
      var part := rawParts[i];
      FlatMapSnoc(rawParts, i, Packer(maxChars));
      if |part| <= maxChars {
        parts := parts + [part];
        i := i + 1;
        continue;
      }
      parts := PackWords(parts, part, maxChars);
      i := i + 1;
    }
    assert rawParts[..i] == rawParts;
  }

  /** The hard-cut loop: a part that fits is kept, a longer one is cut into pieces. */
  method CutParts(parts: seq<string>, maxChars: nat) returns (out: seq<string>)
    requires maxChars >= 1
    ensures out == FlatMap(parts, Cutter(maxChars))
  {
    out := [];
    var k := 0;
    while k < |parts|
      invariant 0 <= k <= |parts|
      invariant out == FlatMap(parts[..k], Cutter(maxChars))
    {
      var p := parts[k];
      FlatMapSnoc(parts, k, Cutter(maxChars));
      if |p| <= maxChars {
        out := out + [p];
      } else {
        out := CutPiece(out, p, maxChars);
      }
      k := k + 1;
    }
    assert parts[..k] == parts;
  }
}
