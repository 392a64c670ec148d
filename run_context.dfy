/** Choosing the directory of one run: `<output_root>/<date>_<i>`, where `i` is one more than
    the largest index already used for that date. The clock is the `date` parameter (already
    formatted as `YYYY-MM-DD`) and the directory listing is the `entries` parameter. */
module RunContext {
  import opened Wrappers
  import opened PyStr

  /** One entry of `output_root.iterdir()`: its name and whether it is a directory. */
  datatype Entry = Entry(name: string, isDir: bool)

  /** A path as its list of components. */
  type Path = seq<string>

  datatype RunContext = RunContext(runDir: Path, imagesDir: Path, scriptsDir: Path)

  /** The index `N` when `name` matches `^{date}_(\d+)$`. `$` also matches just before a
      final newline, so one trailing `"\n"` is allowed. */
  function RunIndex(name: string, date: string): (r: Option<nat>)
    ensures r.Some? ==> date + "_" <= name && |name| > |date| + 1
  {
    var body := if name != [] && name[|name| - 1] == '\n' then name[..|name| - 1] else name;
    if |body| > |date| + 1 && date + "_" <= body && AllDigits(body[|date| + 1..]) then
      Some(DigitsValue(body[|date| + 1..]))
    else None
  }

  /** A directory named after a run of `date`. */
  predicate IsRun(e: Entry, date: string) {
    e.isDir && RunIndex(e.name, date).Some?
  }

  /** One step of the scan: `max(m, N)` when the entry is a run of `date` with index `N`. */
  function Bump(m: nat, e: Entry, date: string): nat {
    if IsRun(e, date) && RunIndex(e.name, date).value > m then RunIndex(e.name, date).value else m
  }

  /** The largest index of a run of `date` among the entries, or 0 when there is none. */
  function MaxIndex(entries: seq<Entry>, date: string): nat {
    if entries == [] then 0
    else Bump(MaxIndex(entries[..|entries| - 1], date), entries[|entries| - 1], date)
  }

  /** The name of run `n` of `date`. */
  function RunDirName(date: string, n: nat): string {
    date + "_" + NatToString(n)
  }

  /** The paths `create_run_context` returns for a run directory name. */
  function ContextFor(root: Path, name: string): (ctx: RunContext) {
    var runDir := root + [name];
    RunContext(runDir, runDir + ["images"], runDir + ["scripts"])
  }

  // ---------------------------------------------------------------------------------------
  // What the naming promises

  /** `MaxIndex` bounds the index of every run of `date` and, unless it is 0, is the index of
      one of them. */
  lemma {:induction false} MaxIndexIsMax(entries: seq<Entry>, date: string)
    ensures forall i :: 0 <= i < |entries| && IsRun(entries[i], date) ==>
      RunIndex(entries[i].name, date).value <= MaxIndex(entries, date)
    ensures MaxIndex(entries, date) == 0 ||
      exists i :: 0 <= i < |entries| && IsRun(entries[i], date) &&
        RunIndex(entries[i].name, date).value == MaxIndex(entries, date)
  {
    if entries != [] {
      var init := entries[..|entries| - 1];
      MaxIndexIsMax(init, date);
      assert forall i :: 0 <= i < |init| ==> init[i] == entries[i];
    }
  }

  /** The name of run `n` reads back as index `n`. */
  lemma RunIndexOfName(date: string, n: nat)
    ensures RunIndex(RunDirName(date, n), date) == Some(n)
  {
    var name := RunDirName(date, n);
    var digits := NatToString(n);
    assert IsDigit(digits[|digits| - 1]);
    assert name[|name| - 1] == digits[|digits| - 1];
    assert name[|date| + 1..] == digits;
  }

  /** A directory named after a run of another date of the same length is not counted. */
  lemma OtherDateIgnored(name: string, date: string, other: string)
    requires |other| == |date| && other != date && other + "_" <= name
    ensures RunIndex(name, date) == None
  {
  }

  /** The new run's directory name differs from that of every directory already there. */
  lemma RunDirFresh(entries: seq<Entry>, date: string)
    ensures forall i :: 0 <= i < |entries| && entries[i].isDir ==>
      entries[i].name != RunDirName(date, MaxIndex(entries, date) + 1)
  {
    var n := MaxIndex(entries, date) + 1;
    RunIndexOfName(date, n);
    MaxIndexIsMax(entries, date);
  }

  // ---------------------------------------------------------------------------------------
  // The run context as the source computes it

  /** The scan of `create_run_context`: the largest index of a run of `date`, plus one. */
  method NextIndex(entries: seq<Entry>, date: string) returns (n: nat)
    ensures n == MaxIndex(entries, date) + 1
  {
    var maxI := 0;
    var k := 0;
    while k < |entries|
      invariant k <= |entries|
      invariant maxI == MaxIndex(entries[..k], date)
    {
      assert entries[..k + 1][..k] == entries[..k];
      var e := entries[k];
      if e.isDir {
        var m := RunIndex(e.name, date);
        if m.Some? && m.value > maxI {
          maxI := m.value;
        }
        assert maxI == Bump(MaxIndex(entries[..k], date), e, date);
      }
      k := k + 1;
    }
    assert entries[..k] == entries;
    n := maxI + 1;
  }

  /** `create_run_context`: the run directory and its `images` and `scripts` sub-directories. */
  method CreateRunContext(root: Path, date: string, entries: seq<Entry>) returns (ctx: RunContext)
    ensures ctx == ContextFor(root, RunDirName(date, MaxIndex(entries, date) + 1))
    ensures forall i :: 0 <= i < |entries| && entries[i].isDir ==> ctx.runDir != root + [entries[i].name]
  {
    RunDirFresh(entries, date);
    var n := NextIndex(entries, date);
    var runDir := root + [RunDirName(date, n)];
    ctx := RunContext(runDir, runDir + ["images"], runDir + ["scripts"]);
    forall i | 0 <= i < |entries| && entries[i].isDir
      ensures ctx.runDir != root + [entries[i].name]
    {
      assert (root + [entries[i].name])[|root|] == entries[i].name;
    }
  }
}
