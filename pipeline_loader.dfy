/** Resolving a `--pipeline` key to its pipeline class: the module `app.pipeline.{key}_pipeline`,
    the class `{CamelCase(key)}Pipeline`. Importing is a lookup in a map from module names to
    the classes each module defines. */
module PipelineLoader {
  import opened Wrappers
  import opened PyStr

  /** The characters of the pattern `[_\-]+`. */
  predicate IsSep(c: char) {
    c == '_' || c == '-'
  }

  predicate NoSep(p: string) {
    forall i :: 0 <= i < |p| ==> !IsSep(p[i])
  }

  /** The characters of `s` that are not separators, in order. */
  function Kept(s: string): (r: string)
    ensures NoSep(r) && |r| <= |s|
  {
    if s == [] then [] else (if IsSep(s[0]) then [] else [s[0]]) + Kept(s[1..])
  }

  /** `[p for p in re.split(r"[_\-]+", s) if p]`: the maximal runs of non-separator
      characters, in order. */
  function Pieces(s: string): (ps: seq<string>)
    ensures forall i :: 0 <= i < |ps| ==> ps[i] != [] && NoSep(ps[i])
    ensures s != [] && !IsSep(s[0]) ==> ps != [] && ps[0][0] == s[0]
    decreases |s|
  {
    if s == [] then []
    else if IsSep(s[0]) then Pieces(s[1..])
    else
      var rest := Pieces(s[1..]);
      if |s| > 1 && !IsSep(s[1]) then
        var head := [s[0]] + rest[0];
        assert NoSep(head) by {
          forall i | 0 <= i < |head|
            ensures !IsSep(head[i])
          {
            if i > 0 {
              assert head[i] == rest[0][i - 1];
            }
          }
        }
        [head] + rest[1..]
      else
        [[s[0]]] + rest
  }

  /** The pieces hold every non-separator character, in order. */
  lemma {:induction false} PiecesConcat(s: string)
    ensures Concat(Pieces(s)) == Kept(s)
    decreases |s|
  {
    if s != [] {
      PiecesConcat(s[1..]);
      var rest := Pieces(s[1..]);
      if !IsSep(s[0]) {
        if |s| > 1 && !IsSep(s[1]) {
          var ps := [[s[0]] + rest[0]] + rest[1..];
          assert Pieces(s) == ps;
          assert Concat(rest) == rest[0] + Concat(rest[1..]);
          assert ps[1..] == rest[1..];
          assert Concat(ps) == [s[0]] + rest[0] + Concat(rest[1..]);
        } else {
          assert Pieces(s) == [[s[0]]] + rest;
          assert ([[s[0]]] + rest)[1..] == rest;
        }
      }
    }
  }

  /** `p[:1].upper() + p[1:]`. */
  function Capitalize(p: string): (r: string)
    ensures |r| == |p|
  {
    if p == [] then [] else [UpperChar(p[0])] + p[1..]
  }

  /** `_snake_to_camel`: strip, split on separator runs, capitalize each piece, concatenate. */
  function SnakeToCamel(s: string): string {
    var ps := Pieces(Strip(s));
    Concat(seq(|ps|, i requires 0 <= i < |ps| => Capitalize(ps[i])))
  }

  datatype LoadError =
    | EmptyKey            // ValueError("pipeline key is empty")
    | ModuleNotFound(name: string)
    | ClassNotFound(message: string)

  function ModuleName(key: string): string {
    "app.pipeline." + key + "_pipeline"
  }

  function ClassName(key: string): string {
    SnakeToCamel(key) + "Pipeline"
  }

  /** `load_pipeline_class`: a missing key is `None`; `modules` maps each importable module
      to the classes it defines. */
  function LoadPipelineClass<C>(key: Option<string>, modules: map<string, map<string, C>>)
    : (r: Result<C, LoadError>)
    ensures r == Err(EmptyKey) <==> key.None? || IsBlank(key.value)
    ensures r.Ok? <==> (key.Some? && !IsBlank(key.value)
      && ModuleName(Strip(key.value)) in modules
      && ClassName(Strip(key.value)) in modules[ModuleName(Strip(key.value))])
    ensures r.Ok? ==> r.value == modules[ModuleName(Strip(key.value))][ClassName(Strip(key.value))]
    ensures (r.Err? && r.error.ModuleNotFound?) <==>
      (key.Some? && !IsBlank(key.value) && ModuleName(Strip(key.value)) !in modules)
    ensures r.Err? && r.error.ModuleNotFound? ==> r.error.name == ModuleName(Strip(key.value))
    ensures (r.Err? && r.error.ClassNotFound?) <==>
      (key.Some? && !IsBlank(key.value)
      && ModuleName(Strip(key.value)) in modules
      && ClassName(Strip(key.value)) !in modules[ModuleName(Strip(key.value))])
    ensures r.Err? && r.error.ClassNotFound? ==>
      r.error.message == "Pipeline class not found: " + ModuleName(Strip(key.value)) + "."
        + ClassName(Strip(key.value))
  {
    var k := Strip(if key.Some? then key.value else "");
    if k == [] then Err(EmptyKey)
    else
      var moduleName := ModuleName(k);
      var className := ClassName(k);
      if moduleName !in modules then Err(ModuleNotFound(moduleName))
      else if className !in modules[moduleName] then
        Err(ClassNotFound("Pipeline class not found: " + moduleName + "." + className))
      else Ok(modules[moduleName][className])
  }

  // ---------------------------------------------------------------------------------------
  // What the naming promises

  /** A piece followed by a separator (or by nothing) splits off as one piece. */
  lemma {:induction false} PiecesWord(w: string, rest: string)
    requires w != [] && NoSep(w)
    requires rest == [] || IsSep(rest[0])
    ensures Pieces(w + rest) == [w] + Pieces(rest)
    decreases |w|
  {
    var s := w + rest;
    assert s[1..] == w[1..] + rest;
    if |w| == 1 {
      assert s[1..] == rest && w == [w[0]];
    } else {
      PiecesWord(w[1..], rest);
      assert [w[0]] + w[1..] == w;
    }
  }

  /** Pieces joined by a separator split back into the same pieces. */
  lemma {:induction false} PiecesJoin(ws: seq<string>, c: char)
    requires IsSep(c)
    requires forall i :: 0 <= i < |ws| ==> ws[i] != [] && NoSep(ws[i])
    ensures Pieces(Join([c], ws)) == ws
  {
    if |ws| == 1 {
      PiecesWord(ws[0], []);
      assert ws[0] + [] == ws[0];
    } else if |ws| > 1 {
      var tail := Join([c], ws[1..]);
      PiecesJoin(ws[1..], c);
      PiecesWord(ws[0], [c] + tail);
      assert ws[0] + [c] + tail == ws[0] + ([c] + tail);
      assert ([c] + tail)[1..] == tail;
      assert [ws[0]] + ws[1..] == ws;
    }
  }

  lemma UpperSplice(a: string, b: string)
    ensures Upper(a + b) == Upper(a) + Upper(b)
  {
  }

  /** Capitalising the pieces and concatenating them gives the concatenation of the pieces,
      up to letter case. */
  lemma {:induction false} UpperConcatCapitalized(ps: seq<string>)
    ensures Upper(Concat(seq(|ps|, i requires 0 <= i < |ps| => Capitalize(ps[i])))) == Upper(Concat(ps))
  {
    if ps != [] {
      var caps := seq(|ps|, i requires 0 <= i < |ps| => Capitalize(ps[i]));
      var tailCaps := seq(|ps| - 1, i requires 0 <= i < |ps| - 1 => Capitalize(ps[1..][i]));
      assert caps[1..] == tailCaps;
      UpperConcatCapitalized(ps[1..]);
      UpperSplice(caps[0], Concat(caps[1..]));
      UpperSplice(ps[0], Concat(ps[1..]));
      assert Upper(caps[0]) == Upper(ps[0]);
    }
  }

  /** The camel-case name is the key's non-separator characters, in order, up to letter case:
      separators and surrounding whitespace are dropped and nothing else is. */
  lemma SnakeToCamelChars(s: string)
    ensures Upper(SnakeToCamel(s)) == Upper(Kept(Strip(s)))
  {
    PiecesConcat(Strip(s));
    UpperConcatCapitalized(Pieces(Strip(s)));
  }

  /** A key written as non-empty separator-free words joined by `_` camel-cases to the
      capitalised words, concatenated. */
  lemma SnakeToCamelJoin(ws: seq<string>)
    requires ws != []
    requires forall i :: 0 <= i < |ws| ==> ws[i] != [] && NoSep(ws[i]) && IsTrimmed(ws[i])
    ensures SnakeToCamel(Join("_", ws)) == Concat(seq(|ws|, i requires 0 <= i < |ws| => Capitalize(ws[i])))
  {
    JoinEnds("_", ws);
    StripTrimmed(Join("_", ws));
    PiecesJoin(ws, '_');
  }

  /** The module name gives the stripped key back. */
  lemma ModuleNameKey(key: string)
    ensures var m := ModuleName(key);
      |m| == |key| + 22 && m[13..|m| - 9] == key
  {
  }

  /** A one-word key names the capitalised word's pipeline. */
  lemma ClassNameOne(w: string)
    requires w != [] && NoSep(w) && IsTrimmed(w)
    ensures ClassName(w) == Capitalize(w) + "Pipeline"
  {
    SnakeToCamelJoin([w]);
    assert seq(1, i requires 0 <= i < 1 => Capitalize([w][i])) == [Capitalize(w)];
  }

  /** A two-word key names the pipeline of both words capitalised. */
  lemma ClassNameTwo(a: string, b: string)
    requires a != [] && NoSep(a) && IsTrimmed(a)
    requires b != [] && NoSep(b) && IsTrimmed(b)
    ensures ClassName(a + "_" + b) == Capitalize(a) + Capitalize(b) + "Pipeline"
  {
    var caps := seq(2, i requires 0 <= i < 2 => Capitalize([a, b][i]));
    assert SnakeToCamel(Join("_", [a, b])) == Concat(caps) by {
      SnakeToCamelJoin([a, b]);
    }
    assert Join("_", [a, b]) == a + "_" + b;
    assert caps == [Capitalize(a), Capitalize(b)];
    assert Concat(caps) == Capitalize(a) + Capitalize(b) by {
      assert caps[1..] == [Capitalize(b)];
      assert Concat(caps[1..]) == Capitalize(b) + Concat([]);
    }
  }

  /** A non-empty word of lower-case letters is a separator-free, trimmed piece. */
  lemma LetterWord(w: string)
    requires w != [] && forall i :: 0 <= i < |w| ==> 'a' <= w[i] <= 'z'
    ensures NoSep(w) && IsTrimmed(w)
  {
  }

  /** The loader's documented examples: `crime`, `humor` and `true_crime`. */
  lemma ExampleCrime()
    ensures ClassName("crime") == "CrimePipeline"
  {
    LetterWord("crime");
    ClassNameOne("crime");
    CapitalCrime();
  }

  lemma CapitalCrime()
    ensures Capitalize("crime") + "Pipeline" == "CrimePipeline"
  {
    assert Capitalize("crime") == "Crime";
  }

  lemma ExampleHumor()
    ensures ClassName("humor") == "HumorPipeline"
  {
    LetterWord("humor");
    ClassNameOne("humor");
    CapitalHumor();
  }

  lemma CapitalHumor()
    ensures Capitalize("humor") + "Pipeline" == "HumorPipeline"
  {
    assert Capitalize("humor") == "Humor";
  }

  lemma ExampleTrueCrime()
    ensures ClassName("true_crime") == "TrueCrimePipeline"
  {
    LetterWord("true");
    LetterWord("crime");
    ClassNameTwo("true", "crime");
    CapitalTrueCrime();
  }

  lemma CapitalTrueCrime()
    ensures "true" + "_" + "crime" == "true_crime"
    ensures Capitalize("true") + Capitalize("crime") + "Pipeline" == "TrueCrimePipeline"
  {
    assert Capitalize("true") == "True" && Capitalize("crime") == "Crime";
  }
}
