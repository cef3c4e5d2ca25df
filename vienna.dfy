/** The bookkeeping of the Vienna RNA package controllers (RNAfold, RNAsubopt,
    RNAplot): the `<` redirection of their input token, the prediction of
    the output files RNAfold and RNAplot write from the names in their input,
    RNAplot's output-format extension, its temporary sequence names, and the
    argument checks of the two helper functions. */
module ViennaPackage {
  import opened Wrappers
  import opened PyStrings
  import opened AppUtil

  // ---------------------------------------------------------------------
  // Input tokens
  // ---------------------------------------------------------------------

  /** `_input_as_path` and `_input_as_lines` of RNAfold, RNAsubopt and RNAplot:
      the base controller's token, redirected to the tool's standard input. */
  function Redirected(baseToken: string): (r: string)
    ensures StartsWith(r, "<") && r[1..] == baseToken
  {
    "<" + baseToken
  }

  // ---------------------------------------------------------------------
  // Name lines and counting
  // ---------------------------------------------------------------------

  /** The characters `item.strip('>\n')` cuts from both ends of a name line. */
  const NameMarks: set<char> := {'>', '\n'}

  /** `item.startswith('>')`: the line names the sequence after it. */
  predicate IsNameLine(line: string) {
    StartsWith(line, ">")
  }

  /** The name a name line declares. */
  function NameOf(line: string): string {
    Strip(line, NameMarks)
  }

  /** `name_counter` after the scan: how many lines are name lines. */
  function CountNamed(data: seq<string>): (n: nat)
    ensures n <= |data|
    decreases |data|
  {
    if data == [] then 0
    else CountNamed(data[..|data| - 1]) + (if IsNameLine(data[|data| - 1]) then 1 else 0)
  }

  /** `seq_counter` after the scan: how many lines are not name lines. */
  function CountUnnamed(data: seq<string>): (n: nat)
    ensures n <= |data|
    decreases |data|
  {
    if data == [] then 0
    else CountUnnamed(data[..|data| - 1]) + (if IsNameLine(data[|data| - 1]) then 0 else 1)
  }

  /** Every line is counted once, as named or as unnamed. */
  lemma {:induction false} CountsPartition(data: seq<string>)
    ensures CountNamed(data) + CountUnnamed(data) == |data|
    decreases |data|
  {
    if data != [] {
      CountsPartition(data[..|data| - 1]);
    }
  }

  /** The distinct names the input declares. */
  function NameSet(data: seq<string>): set<string> {
    set i | 0 <= i < |data| && IsNameLine(data[i]) :: NameOf(data[i])
  }

  /** Scanning one more line adds its name, if it is a name line. */
  lemma NameSetStep(data: seq<string>)
    requires data != []
    ensures NameSet(data) == NameSet(data[..|data| - 1])
      + (if IsNameLine(data[|data| - 1]) then {NameOf(data[|data| - 1])} else {})
  {
    var init := data[..|data| - 1];
    forall n | n in NameSet(data)
      ensures n in NameSet(init) || (IsNameLine(data[|data| - 1]) && n == NameOf(data[|data| - 1]))
    {
      var i :| 0 <= i < |data| && IsNameLine(data[i]) && NameOf(data[i]) == n;
      if i < |data| - 1 {
        assert init[i] == data[i];
      }
    }
    forall n | n in NameSet(init) ensures n in NameSet(data) {
      var i :| 0 <= i < |init| && IsNameLine(init[i]) && NameOf(init[i]) == n;
      assert data[i] == init[i];
    }
  }

  /** There are never more distinct names than name lines. */
  lemma {:induction false} NamesAtMostNameLines(data: seq<string>)
    ensures |NameSet(data)| <= CountNamed(data)
    decreases |data|
  {
    if data == [] {
      assert NameSet(data) == {};
    } else {
      NamesAtMostNameLines(data[..|data| - 1]);
      NameSetStep(data);
    }
  }

  /** Input without name lines declares no names: every line is unnamed. */
  lemma {:induction false} AllUnnamed(data: seq<string>)
    requires forall i :: 0 <= i < |data| ==> !IsNameLine(data[i])
    ensures CountNamed(data) == 0 && CountUnnamed(data) == |data| && NameSet(data) == {}
    decreases |data|
  {
    if data != [] {
      var init := data[..|data| - 1];
      assert forall i :: 0 <= i < |init| ==> init[i] == data[i];
      AllUnnamed(init);
      NameSetStep(data);
    }
  }

  // ---------------------------------------------------------------------
  // Per-name keys
  // ---------------------------------------------------------------------

  /** `name+'_ss'`: the key of a named sequence's structure plot. */
  function SsKey(name: string): string {
    name + "_ss"
  }

  /** `name+'_dp'`: the key of a named sequence's dot plot. */
  function DpKey(name: string): string {
    name + "_dp"
  }

  /** The `_ss` keys of the given names. */
  function SsKeys(names: set<string>): set<string> {
    set n | n in names :: SsKey(n)
  }

  /** The `_dp` keys of the given names. */
  function DpKeys(names: set<string>): set<string> {
    set n | n in names :: DpKey(n)
  }

  /** The suffixes keep keys apart: one name's keys never coincide with another
      name's, the structure key never with a dot-plot key, and no per-name key
      is one of the default keys `SS` and `DP`. */
  lemma KeysDistinct(a: string, b: string)
    ensures SsKey(a) != DpKey(b)
    ensures SsKey(a) == SsKey(b) ==> a == b
    ensures DpKey(a) == DpKey(b) ==> a == b
    ensures SsKey(a) != "SS" && SsKey(a) != "DP" && DpKey(a) != "SS" && DpKey(a) != "DP"
  {
    if |SsKey(a)| == |DpKey(b)| {
      assert SsKey(a)[|a| + 2] == 's' && DpKey(b)[|b| + 2] == 'p';
    }
    if SsKey(a) == SsKey(b) {
      assert a == SsKey(a)[..|a|] && b == SsKey(b)[..|b|];
    }
    if DpKey(a) == DpKey(b) {
      assert a == DpKey(a)[..|a|] && b == DpKey(b)[..|b|];
    }
  }

  /** One more name adds its own two keys. */
  lemma KeysAdd(names: set<string>, n: string)
    ensures SsKeys(names + {n}) == SsKeys(names) + {SsKey(n)}
    ensures DpKeys(names + {n}) == DpKeys(names) + {DpKey(n)}
  {
  }

  /** The keys of a name not seen before are new. */
  lemma NewNameNewKeys(names: set<string>, n: string)
    requires n !in names
    ensures SsKey(n) !in SsKeys(names) + DpKeys(names)
    ensures DpKey(n) !in SsKeys(names) + DpKeys(names)
  {
    if SsKey(n) in SsKeys(names) + DpKeys(names) {
      var n' :| n' in names && (SsKey(n') == SsKey(n) || DpKey(n') == SsKey(n));
      KeysDistinct(n', n);
      KeysDistinct(n, n');
    }
    if DpKey(n) in SsKeys(names) + DpKeys(names) {
      var n' :| n' in names && (SsKey(n') == DpKey(n) || DpKey(n') == DpKey(n));
      KeysDistinct(n', n);
      KeysDistinct(n, n');
    }
  }

  // ---------------------------------------------------------------------
  // RNAfold._get_result_paths
  // ---------------------------------------------------------------------

  /** The two entries RNAfold registers for a named sequence. */
  function FoldNameEntries(m: map<string, ResultPath>, name: string, workingDir: string,
                           dotPlotOn: bool, defaultWritten: bool): map<string, ResultPath>
  {
    m[SsKey(name) := ResultPath(workingDir + name + "_ss.ps", defaultWritten)]
     [DpKey(name) := ResultPath(workingDir + name + "_dp.ps", dotPlotOn)]
  }

  /** The per-name part of RNAfold's result after scanning `data` in order. */
  function FoldNamedPaths(data: seq<string>, workingDir: string, dotPlotOn: bool,
                          defaultWritten: bool): map<string, ResultPath>
    decreases |data|
  {
    if data == [] then map[]
    else
      var m := FoldNamedPaths(data[..|data| - 1], workingDir, dotPlotOn, defaultWritten);
      var line := data[|data| - 1];
      if IsNameLine(line) then FoldNameEntries(m, NameOf(line), workingDir, dotPlotOn, defaultWritten)
      else m
  }

  /** RNAfold's predicted result: the per-name entries, then `SS` (`rna.ps`)
      and `DP` (`dot.ps`) for the unnamed sequences. */
  function RnaFoldPaths(data: seq<string>, workingDir: string, dotPlotOn: bool,
                        defaultWritten: bool): map<string, ResultPath>
  {
    var excess := CountUnnamed(data) - CountNamed(data);
    FoldNamedPaths(data, workingDir, dotPlotOn, defaultWritten)
      ["SS" := ResultPath(workingDir + "rna.ps", excess > 0)]
      ["DP" := ResultPath(workingDir + "dot.ps", dotPlotOn && excess > 0)]
  }

  /** Every name in `names` has its two RNAfold entries in `m`. */
  ghost predicate FoldEntriesFor(m: map<string, ResultPath>, names: set<string>, workingDir: string,
                                 dotPlotOn: bool, defaultWritten: bool)
  {
    forall n :: n in names ==>
      && SsKey(n) in m && m[SsKey(n)] == ResultPath(workingDir + n + "_ss.ps", defaultWritten)
      && DpKey(n) in m && m[DpKey(n)] == ResultPath(workingDir + n + "_dp.ps", dotPlotOn)
  }

  /** Registering one more name adds its two keys to the per-name part. */
  lemma FoldStepKeys(m0: map<string, ResultPath>, names0: set<string>, n: string, workingDir: string,
                     dotPlotOn: bool, defaultWritten: bool)
    requires m0.Keys == SsKeys(names0) + DpKeys(names0)
    ensures FoldNameEntries(m0, n, workingDir, dotPlotOn, defaultWritten).Keys
         == SsKeys(names0 + {n}) + DpKeys(names0 + {n})
  {
    KeysAdd(names0, n);
  }

  /** Registering one more name leaves every other name's entries alone. */
  lemma FoldStepEntries(m0: map<string, ResultPath>, names0: set<string>, n: string, workingDir: string,
                        dotPlotOn: bool, defaultWritten: bool)
    requires FoldEntriesFor(m0, names0, workingDir, dotPlotOn, defaultWritten)
    ensures FoldEntriesFor(FoldNameEntries(m0, n, workingDir, dotPlotOn, defaultWritten), names0 + {n},
                           workingDir, dotPlotOn, defaultWritten)
  {
    var m := FoldNameEntries(m0, n, workingDir, dotPlotOn, defaultWritten);
    forall n' | n' in names0 + {n}
      ensures && SsKey(n') in m && m[SsKey(n')] == ResultPath(workingDir + n' + "_ss.ps", defaultWritten)
              && DpKey(n') in m && m[DpKey(n')] == ResultPath(workingDir + n' + "_dp.ps", dotPlotOn)
    {
      KeysDistinct(n', n);
      KeysDistinct(n, n');
    }
  }

  /** A new name adds two entries, a repeated one none. */
  lemma FoldStepSize(m0: map<string, ResultPath>, names0: set<string>, n: string, workingDir: string,
                     dotPlotOn: bool, defaultWritten: bool)
    requires m0.Keys == SsKeys(names0) + DpKeys(names0)
    requires |m0| == 2 * |names0|
    ensures |FoldNameEntries(m0, n, workingDir, dotPlotOn, defaultWritten)| == 2 * |names0 + {n}|
  {
    var m1 := m0[SsKey(n) := ResultPath(workingDir + n + "_ss.ps", defaultWritten)];
    var m2 := m1[DpKey(n) := ResultPath(workingDir + n + "_dp.ps", dotPlotOn)];
    assert m2 == FoldNameEntries(m0, n, workingDir, dotPlotOn, defaultWritten);
    if n in names0 {
      assert names0 + {n} == names0;
      assert SsKey(n) in m0 && DpKey(n) in m1;
      assert |m1| == |m0| && |m2| == |m1|;
    } else {
      NewNameNewKeys(names0, n);
      KeysDistinct(n, n);
      assert SsKey(n) !in m0 && DpKey(n) !in m1;
      assert |m1| == |m0| + 1 && |m2| == |m1| + 1;
      assert |names0 + {n}| == |names0| + 1;
    }
  }

  /** No per-name key is one of the defaults `SS` and `DP`. */
  lemma DefaultsApart(names: set<string>)
    ensures "SS" !in SsKeys(names) + DpKeys(names) && "DP" !in SsKeys(names) + DpKeys(names)
  {
    forall n | n in names
      ensures SsKey(n) != "SS" && SsKey(n) != "DP" && DpKey(n) != "SS" && DpKey(n) != "DP"
    {
      KeysDistinct(n, n);
    }
  }

  /** The per-name part holds exactly the `_ss` and `_dp` keys of the declared
      names, each pointing at its file, with the dot plot written iff `-p` is
      on; it has two entries per distinct name. */
  lemma {:induction false} FoldNamedPathsSpec(data: seq<string>, workingDir: string, dotPlotOn: bool,
                                              defaultWritten: bool)
    ensures var m := FoldNamedPaths(data, workingDir, dotPlotOn, defaultWritten);
      && m.Keys == SsKeys(NameSet(data)) + DpKeys(NameSet(data))
      && FoldEntriesFor(m, NameSet(data), workingDir, dotPlotOn, defaultWritten)
      && |m| == 2 * |NameSet(data)|
    decreases |data|
  {
    if data == [] {
      assert NameSet(data) == {};
    } else {
      var init := data[..|data| - 1];
      var line := data[|data| - 1];
      FoldNamedPathsSpec(init, workingDir, dotPlotOn, defaultWritten);
      NameSetStep(data);
      if IsNameLine(line) {
        var m0 := FoldNamedPaths(init, workingDir, dotPlotOn, defaultWritten);
        FoldStepKeys(m0, NameSet(init), NameOf(line), workingDir, dotPlotOn, defaultWritten);
        FoldStepEntries(m0, NameSet(init), NameOf(line), workingDir, dotPlotOn, defaultWritten);
        FoldStepSize(m0, NameSet(init), NameOf(line), workingDir, dotPlotOn, defaultWritten);
      }
    }
  }

  /** `RNAfold._get_result_paths`: every name line registers its `_ss` and
      `_dp` entries; `SS` and `DP` are always registered, `SS` written iff the
      unnamed lines outnumber the named ones, `DP` iff in addition `-p` is on;
      nothing else is registered, and the map has two entries per distinct
      name plus the two defaults. */
  lemma RnaFoldPathsSpec(data: seq<string>, workingDir: string, dotPlotOn: bool, defaultWritten: bool)
    ensures var r := RnaFoldPaths(data, workingDir, dotPlotOn, defaultWritten);
      var names := NameSet(data);
      && r.Keys == {"SS", "DP"} + SsKeys(names) + DpKeys(names)
      && FoldEntriesFor(r, names, workingDir, dotPlotOn, defaultWritten)
      && r["SS"] == ResultPath(workingDir + "rna.ps", CountUnnamed(data) > CountNamed(data))
      && r["DP"] == ResultPath(workingDir + "dot.ps", dotPlotOn && CountUnnamed(data) > CountNamed(data))
      && |r| == 2 + 2 * |names|
  {
    RnaFoldKeys(data, workingDir, dotPlotOn, defaultWritten);
    RnaFoldEntries(data, workingDir, dotPlotOn, defaultWritten);
    RnaFoldSize(data, workingDir, dotPlotOn, defaultWritten);
  }

  lemma RnaFoldKeys(data: seq<string>, workingDir: string, dotPlotOn: bool, defaultWritten: bool)
    ensures RnaFoldPaths(data, workingDir, dotPlotOn, defaultWritten).Keys
         == {"SS", "DP"} + SsKeys(NameSet(data)) + DpKeys(NameSet(data))
  {
    FoldNamedPathsSpec(data, workingDir, dotPlotOn, defaultWritten);
  }

  lemma RnaFoldEntries(data: seq<string>, workingDir: string, dotPlotOn: bool, defaultWritten: bool)
    ensures FoldEntriesFor(RnaFoldPaths(data, workingDir, dotPlotOn, defaultWritten), NameSet(data),
                           workingDir, dotPlotOn, defaultWritten)
  {
    FoldNamedPathsSpec(data, workingDir, dotPlotOn, defaultWritten);
    DefaultsApart(NameSet(data));
  }

  lemma RnaFoldSize(data: seq<string>, workingDir: string, dotPlotOn: bool, defaultWritten: bool)
    ensures |RnaFoldPaths(data, workingDir, dotPlotOn, defaultWritten)| == 2 + 2 * |NameSet(data)|
  {
    FoldNamedPathsSpec(data, workingDir, dotPlotOn, defaultWritten);
    DefaultsApart(NameSet(data));
  }

  /** A name seen before only rewrites its own two entries with the same
      values: the per-name part does not change. */
  lemma RepeatedNameAddsNothing(data: seq<string>, line: string, workingDir: string,
                                dotPlotOn: bool, defaultWritten: bool)
    requires IsNameLine(line) && NameOf(line) in NameSet(data)
    ensures FoldNamedPaths(data + [line], workingDir, dotPlotOn, defaultWritten)
         == FoldNamedPaths(data, workingDir, dotPlotOn, defaultWritten)
  {
    var m0 := FoldNamedPaths(data, workingDir, dotPlotOn, defaultWritten);
    var n := NameOf(line);
    var ss := ResultPath(workingDir + n + "_ss.ps", defaultWritten);
    var dp := ResultPath(workingDir + n + "_dp.ps", dotPlotOn);
    assert (data + [line])[..|data|] == data;
    FoldNamedPathsSpec(data, workingDir, dotPlotOn, defaultWritten);
    RewriteKeepsMap(m0, SsKey(n), ss);
    RewriteKeepsMap(m0, DpKey(n), dp);
  }

  /** Writing a key's own value back leaves a map unchanged. */
  lemma RewriteKeepsMap(m: map<string, ResultPath>, k: string, v: ResultPath)
    requires k in m && m[k] == v
    ensures m[k := v] == m
  {
  }

  /** `RNAfold._get_result_paths` on a list of lines, scanning it in order. */
  method RnaFoldResultPaths(data: seq<string>, workingDir: string, dotPlotOn: bool, defaultWritten: bool)
    returns (result: map<string, ResultPath>)
    ensures result == RnaFoldPaths(data, workingDir, dotPlotOn, defaultWritten)
  {
    result := map[];
    var nameCounter, seqCounter := 0, 0;
    for i := 0 to |data|
      invariant result == FoldNamedPaths(data[..i], workingDir, dotPlotOn, defaultWritten)
      invariant nameCounter == CountNamed(data[..i]) && seqCounter == CountUnnamed(data[..i])
    {
      var item := data[i];
      assert data[..i + 1][..i] == data[..i];
      if StartsWith(item, ">") {
        nameCounter := nameCounter + 1;
        var name := Strip(item, NameMarks);
        result := result[name + "_ss" := ResultPath(workingDir + name + "_ss.ps", defaultWritten)];
        result := result[name + "_dp" := ResultPath(workingDir + name + "_dp.ps", dotPlotOn)];
      } else {
        seqCounter := seqCounter + 1;
      }
    }
    assert data[..|data|] == data;
    result := result["SS" := ResultPath(workingDir + "rna.ps", seqCounter - nameCounter > 0)];
    result := result["DP" := ResultPath(workingDir + "dot.ps", dotPlotOn && seqCounter - nameCounter > 0)];
  }

  // ---------------------------------------------------------------------
  // RNAplot._get_outfile_extension
  // ---------------------------------------------------------------------

  /** `RNAplot.FILETYPE_TO_EXTENSION`: output format to file extension. */
  const FiletypeToExtension: map<string, string> :=
    map["ps" := ".ps", "gml" := ".gml", "svg" := ".svg", "xrna" := ".ss"]

  /** `_get_outfile_extension` as the source writes it: with `-o` on it looks
      the table up under a name that is not bound at module level, so it
      fails for every format. */
  function OutfileExtensionAsWritten(outputFormat: Option<string>): (r: Result<string, AppError>)
    ensures r.Success? <==> outputFormat.None?
    ensures r.Success? ==> r.value == ".ps"
  {
    match outputFormat
    case None => Success(".ps")
    case Some(_) => Failure(NameError("FILETYPE_TO_EXTENSION"))
  }

  /** `_get_outfile_extension` as intended: `.ps` when `-o` is off, otherwise
      the table's extension for the format, and a KeyError for a format the
      table does not know (no fallback to `.ps`). `outputFormat` is the `-o`
      value as the base controller's `_absolute` hands it back. */
  function OutfileExtension(outputFormat: Option<string>): (r: Result<string, AppError>)
    ensures outputFormat.None? ==> r == Success(".ps")
    ensures outputFormat.Some? ==> (r.Success? <==> outputFormat.value in FiletypeToExtension)
    ensures outputFormat.Some? && r.Failure? ==> r.error == KeyError(outputFormat.value)
    ensures r.Success? ==> r.value in {".ps", ".gml", ".svg", ".ss"}
  {
    match outputFormat
    case None => Success(".ps")
    case Some(f) => if f in FiletypeToExtension then Success(FiletypeToExtension[f]) else Failure(KeyError(f))
  }

  /** The code as written rejects every format the table knows, which the
      intended lookup accepts; the two agree when `-o` is off. */
  lemma AsWrittenRejectsKnownFormats(f: string)
    requires f in FiletypeToExtension
    ensures OutfileExtensionAsWritten(Some(f)).Failure?
    ensures OutfileExtension(Some(f)) == Success(FiletypeToExtension[f])
    ensures OutfileExtensionAsWritten(None) == OutfileExtension(None)
  {
  }

  // ---------------------------------------------------------------------
  // RNAplot._get_result_paths
  // ---------------------------------------------------------------------

  /** The per-name part of RNAplot's result after scanning `data` in order. */
  function PlotNamedPaths(data: seq<string>, workingDir: string, extension: string,
                          defaultWritten: bool): map<string, ResultPath>
    decreases |data|
  {
    if data == [] then map[]
    else
      var m := PlotNamedPaths(data[..|data| - 1], workingDir, extension, defaultWritten);
      var line := data[|data| - 1];
      if IsNameLine(line) then
        var name := NameOf(line);
        m[SsKey(name) := ResultPath(workingDir + name + "_ss" + extension, defaultWritten)]
      else m
  }

  /** `SS` is registered only when half the unnamed lines (sequence and
      structure lines come in pairs, integer division) outnumber the names. */
  predicate PlotHasDefault(data: seq<string>) {
    CountUnnamed(data) / 2 - CountNamed(data) > 0
  }

  /** RNAplot's predicted result for a given extension. */
  function RnaPlotPaths(data: seq<string>, workingDir: string, extension: string,
                        defaultWritten: bool): map<string, ResultPath>
  {
    var m := PlotNamedPaths(data, workingDir, extension, defaultWritten);
    if PlotHasDefault(data) then m["SS" := ResultPath(workingDir + "rna" + extension, true)] else m
  }

  /** Every name in `names` has its RNAplot entry in `m`. */
  ghost predicate PlotEntriesFor(m: map<string, ResultPath>, names: set<string>, workingDir: string,
                                 extension: string, defaultWritten: bool)
  {
    forall n :: n in names ==>
      SsKey(n) in m && m[SsKey(n)] == ResultPath(workingDir + n + "_ss" + extension, defaultWritten)
  }

  /** Registering one more name leaves every other name's RNAplot entry alone. */
  lemma PlotStepEntries(m0: map<string, ResultPath>, names0: set<string>, n: string, workingDir: string,
                        extension: string, defaultWritten: bool)
    requires PlotEntriesFor(m0, names0, workingDir, extension, defaultWritten)
    ensures PlotEntriesFor(m0[SsKey(n) := ResultPath(workingDir + n + "_ss" + extension, defaultWritten)],
                           names0 + {n}, workingDir, extension, defaultWritten)
  {
    var m := m0[SsKey(n) := ResultPath(workingDir + n + "_ss" + extension, defaultWritten)];
    forall n' | n' in names0 + {n}
      ensures SsKey(n') in m && m[SsKey(n')] == ResultPath(workingDir + n' + "_ss" + extension, defaultWritten)
    {
      KeysDistinct(n', n);
    }
  }

  /** Registering one more name adds its `_ss` key to RNAplot's per-name part. */
  lemma PlotStepKeys(m0: map<string, ResultPath>, names0: set<string>, n: string, v: ResultPath)
    requires m0.Keys == SsKeys(names0)
    ensures m0[SsKey(n) := v].Keys == SsKeys(names0 + {n})
  {
    KeysAdd(names0, n);
  }

  /** A new name adds one RNAplot entry, a repeated one none. */
  lemma PlotStepSize(m0: map<string, ResultPath>, names0: set<string>, n: string, v: ResultPath)
    requires m0.Keys == SsKeys(names0)
    requires |m0| == |names0|
    ensures |m0[SsKey(n) := v]| == |names0 + {n}|
  {
    if n in names0 {
      assert names0 + {n} == names0;
      assert SsKey(n) in m0;
    } else {
      NewNameNewKeys(names0, n);
      assert |names0 + {n}| == |names0| + 1;
    }
  }

  /** The per-name part holds exactly one `_ss` entry per distinct name. */
  lemma {:induction false} PlotNamedPathsSpec(data: seq<string>, workingDir: string, extension: string,
                                              defaultWritten: bool)
    ensures var m := PlotNamedPaths(data, workingDir, extension, defaultWritten);
      && m.Keys == SsKeys(NameSet(data))
      && PlotEntriesFor(m, NameSet(data), workingDir, extension, defaultWritten)
      && |m| == |NameSet(data)|
    decreases |data|
  {
    if data == [] {
      assert NameSet(data) == {};
    } else {
      var init := data[..|data| - 1];
      var line := data[|data| - 1];
      PlotNamedPathsSpec(init, workingDir, extension, defaultWritten);
      NameSetStep(data);
      if IsNameLine(line) {
        var m0 := PlotNamedPaths(init, workingDir, extension, defaultWritten);
        var n := NameOf(line);
        PlotStepEntries(m0, NameSet(init), n, workingDir, extension, defaultWritten);
        PlotStepKeys(m0, NameSet(init), n, ResultPath(workingDir + n + "_ss" + extension, defaultWritten));
        PlotStepSize(m0, NameSet(init), n, ResultPath(workingDir + n + "_ss" + extension, defaultWritten));
      }
    }
  }

  /** `RNAplot._get_result_paths`: each distinct name has exactly its `_ss`
      entry with the chosen extension; `SS` (`rna` + extension, written) is
      present iff half the unnamed count exceeds the named count, and absent
      otherwise; nothing else is registered. */
  lemma RnaPlotPathsSpec(data: seq<string>, workingDir: string, extension: string, defaultWritten: bool)
    ensures var r := RnaPlotPaths(data, workingDir, extension, defaultWritten);
      var names := NameSet(data);
      && ("SS" in r <==> CountUnnamed(data) / 2 - CountNamed(data) > 0)
      && ("SS" in r ==> r["SS"] == ResultPath(workingDir + "rna" + extension, true))
      && r.Keys == SsKeys(names) + (if PlotHasDefault(data) then {"SS"} else {})
      && PlotEntriesFor(r, names, workingDir, extension, defaultWritten)
      && |r| == |names| + (if PlotHasDefault(data) then 1 else 0)
  {
    RnaPlotKeys(data, workingDir, extension, defaultWritten);
    RnaPlotEntries(data, workingDir, extension, defaultWritten);
    RnaPlotSize(data, workingDir, extension, defaultWritten);
  }

  lemma RnaPlotKeys(data: seq<string>, workingDir: string, extension: string, defaultWritten: bool)
    ensures RnaPlotPaths(data, workingDir, extension, defaultWritten).Keys
         == SsKeys(NameSet(data)) + (if PlotHasDefault(data) then {"SS"} else {})
  {
    PlotNamedPathsSpec(data, workingDir, extension, defaultWritten);
  }

  lemma RnaPlotEntries(data: seq<string>, workingDir: string, extension: string, defaultWritten: bool)
    ensures PlotEntriesFor(RnaPlotPaths(data, workingDir, extension, defaultWritten), NameSet(data),
                           workingDir, extension, defaultWritten)
  {
    PlotNamedPathsSpec(data, workingDir, extension, defaultWritten);
    DefaultsApart(NameSet(data));
  }

  lemma RnaPlotSize(data: seq<string>, workingDir: string, extension: string, defaultWritten: bool)
    ensures |RnaPlotPaths(data, workingDir, extension, defaultWritten)|
         == |NameSet(data)| + (if PlotHasDefault(data) then 1 else 0)
    ensures "SS" in RnaPlotPaths(data, workingDir, extension, defaultWritten) <==> PlotHasDefault(data)
  {
    PlotNamedPathsSpec(data, workingDir, extension, defaultWritten);
    DefaultsApart(NameSet(data));
  }

  /** `RNAplot._get_result_paths` on a list of lines: the extension is chosen
      first (a bad format fails before any line is read), then the lines are
      scanned in order. The extension comes from the intended lookup
      `OutfileExtension`; as written, the source fails with a NameError
      whenever `-o` is on (`OutfileExtensionAsWritten`). */
  method RnaPlotResultPaths(data: seq<string>, workingDir: string, outputFormat: Option<string>,
                            defaultWritten: bool)
    returns (r: Result<map<string, ResultPath>, AppError>)
    ensures OutfileExtension(outputFormat).Failure? ==> r == Failure(OutfileExtension(outputFormat).error)
    ensures OutfileExtension(outputFormat).Success? ==>
      r == Success(RnaPlotPaths(data, workingDir, OutfileExtension(outputFormat).value, defaultWritten))
  {
    var ext := OutfileExtension(outputFormat);
    if ext.Failure? {
      return Failure(ext.error);
    }
    var resExtension := ext.value;
    var result: map<string, ResultPath> := map[];
    var nameCounter, seqCounter := 0, 0;
    for i := 0 to |data|
      invariant result == PlotNamedPaths(data[..i], workingDir, resExtension, defaultWritten)
      invariant nameCounter == CountNamed(data[..i]) && seqCounter == CountUnnamed(data[..i])
    {
      var item := data[i];
      assert data[..i + 1][..i] == data[..i];
      if StartsWith(item, ">") {
        nameCounter := nameCounter + 1;
        var name := Strip(item, NameMarks);
        result := result[name + "_ss" := ResultPath(workingDir + name + "_ss" + resExtension, defaultWritten)];
      } else {
        seqCounter := seqCounter + 1;
      }
    }
    assert data[..|data|] == data;
    if seqCounter / 2 - nameCounter > 0 {
      result := result["SS" := ResultPath(workingDir + "rna" + resExtension, true)];
    }
    r := Success(result);
  }

  // ---------------------------------------------------------------------
  // Helpers: get_constrained_fold, plot_from_seq_and_struct
  // ---------------------------------------------------------------------

  const NoSequenceMessage := "No sequence found!"
  const NoConstraintMessage := "No constraint string found!"
  const ConstraintLengthMessage := "Sequence and constraint string are not same length!"
  const StructureLengthMessage := "Sequence and structure are not same length!"

  /** What a helper hands to the controller it builds: the parameter flags
      switched on and the input lines. */
  datatype Invocation = Invocation(onFlags: set<string>, input: seq<string>)

  /** `get_constrained_fold` up to the call of RNAfold: an empty sequence, then
      an empty constraint, then unequal lengths are rejected in that order;
      only a call that passes all three switches `-C` on (beside the caller's
      `params`) and runs on the sequence and the constraint. */
  function ConstrainedFoldCall(sequence: string, constraint: string, params: set<string>)
    : (r: Result<Invocation, AppError>)
    ensures r == Failure(ValueError(NoSequenceMessage)) <==> sequence == ""
    ensures r == Failure(ValueError(NoConstraintMessage)) <==> sequence != "" && constraint == ""
    ensures r == Failure(ValueError(ConstraintLengthMessage))
        <==> sequence != "" && constraint != "" && |sequence| != |constraint|
    ensures r.Success? <==> sequence != "" && constraint != "" && |sequence| == |constraint|
    ensures r.Success? ==> r.value.onFlags == params + {"-C"} && r.value.input == [sequence, constraint]
  {
    if sequence == "" then Failure(ValueError(NoSequenceMessage))
    else if constraint == "" then Failure(ValueError(NoConstraintMessage))
    else if |sequence| != |constraint| then Failure(ValueError(ConstraintLengthMessage))
    else Success(Invocation(params + {"-C"}, [sequence, constraint]))
  }

  /** When neither the sequence nor the constraint starts with `>`, a
      constrained fold predicts a written `rna.ps`: its two input lines are
      both unnamed. */
  lemma ConstrainedFoldWritesStructure(sequence: string, constraint: string, params: set<string>,
                                       workingDir: string, defaultWritten: bool)
    requires ConstrainedFoldCall(sequence, constraint, params).Success?
    requires !IsNameLine(sequence) && !IsNameLine(constraint)
    ensures var call := ConstrainedFoldCall(sequence, constraint, params).value;
      var r := RnaFoldPaths(call.input, workingDir, "-p" in call.onFlags, defaultWritten);
      r["SS"] == ResultPath(workingDir + "rna.ps", true) && NameSet(call.input) == {}
  {
    var input := [sequence, constraint];
    AllUnnamed(input);
    RnaFoldPathsSpec(input, workingDir, "-p" in params + {"-C"}, defaultWritten);
  }

  /** A character `_get_tmp_seqname` can draw: its pick string is the
      lower-case letters, the same upper-cased, and the digits, each as the
      source spells them: the letters have `g` where `j` belongs, and the
      digits run 0-7, 9, 0, so `8` is missing. */
  predicate IsPick(c: char) {
    || ('a' <= c <= 'z' && c != 'j')
    || ('A' <= c <= 'Z' && c != 'J')
    || ('0' <= c <= '9' && c != '8')
  }

  /** `RNAplot._get_tmp_seqname`: `tmp` followed by nine characters, each
      one the pick string holds. */
  method TmpSeqName() returns (name: string)
    ensures |name| == 12 && StartsWith(name, "tmp")
    ensures forall i :: 3 <= i < |name| ==> IsPick(name[i])
  {
    name := "tmp";
    for i := 0 to 9
      invariant |name| == 3 + i && name[..3] == "tmp"
      invariant forall j :: 3 <= j < |name| ==> IsPick(name[j])
    {
      assert IsPick('a');
      var c :| IsPick(c);
      name := name + [c];
    }
  }

  /** A generated name has no `>` or newline at its ends, so the name line
      `'>' + name` strips back to it. */
  lemma TmpNameIsPlain(name: string)
    requires |name| == 12 && StartsWith(name, "tmp")
    requires forall i :: 3 <= i < |name| ==> IsPick(name[i])
    ensures PlainEnds(name, NameMarks) && NameOf(">" + name) == name
  {
    assert name[0] == 't';
    assert IsPick(name[11]);
    StripMarker('>', name, NameMarks);
  }

  /** For a name with plain ends, RNAplot on `['>' + name, seq, struct]`
      predicts the `name_ss` plot and no `SS` plot, since 2 / 2 - 1 is not
      positive. */
  lemma PlotOfNamedPair(name: string, sequence: string, structure: string, workingDir: string,
                        extension: string, defaultWritten: bool)
    requires PlainEnds(name, NameMarks)
    ensures var r := RnaPlotPaths([">" + name, sequence, structure], workingDir, extension, defaultWritten);
      && SsKey(name) in r && r[SsKey(name)] == ResultPath(workingDir + name + "_ss" + extension, defaultWritten)
      && "SS" !in r
  {
    var input := [">" + name, sequence, structure];
    StripMarker('>', name, NameMarks);
    assert IsNameLine(input[0]) && NameOf(input[0]) == name;
    assert name in NameSet(input);
    NamesAtMostNameLines(input);
    assert |NameSet(input)| >= 1;
    CountsPartition(input);
    RnaPlotPathsSpec(input, workingDir, extension, defaultWritten);
  }

  /** A name with `>` or a newline at an end is never an RNAplot key: every
      declared name is a stripped line, whose ends are plain. */
  lemma UnplainNameNeverKeyed(data: seq<string>, name: string, workingDir: string, extension: string,
                              defaultWritten: bool)
    requires !PlainEnds(name, NameMarks)
    ensures SsKey(name) !in RnaPlotPaths(data, workingDir, extension, defaultWritten)
  {
    RnaPlotKeys(data, workingDir, extension, defaultWritten);
    KeysDistinct(name, name);
    forall n | n in NameSet(data) ensures SsKey(n) != SsKey(name) {
      var i :| 0 <= i < |data| && IsNameLine(data[i]) && NameOf(data[i]) == n;
      StripPlainEnds(data[i], NameMarks);
      KeysDistinct(n, name);
    }
  }

  /** The call `plot_from_seq_and_struct` makes, up to reading the plot.
      Sequence and structure of unequal length are a DataError; otherwise
      RNAplot runs in `/tmp` on `['>' + name, seq, struct]`, where `name` is the
      caller's or a generated `tmp` name. The plot is read back under
      `name + '_ss'`: that key is predicted, whatever the extension, when the
      name was generated or has plain ends, and never predicted when a
      caller's name has `>` or a newline at an end, so the read fails. */
  method PlotFromSeqAndStruct(sequence: string, structure: string, seqname: Option<string>,
                              params: set<string>)
    returns (r: Result<(string, Invocation), AppError>)
    ensures r.Failure? <==> |sequence| != |structure|
    ensures r.Failure? ==> r.error == DataError(StructureLengthMessage)
    ensures r.Success? ==> r.value.1 == Invocation(params, [">" + r.value.0, sequence, structure])
    ensures r.Success? && seqname.Some? ==> r.value.0 == seqname.value
    ensures r.Success? && seqname.None? ==> |r.value.0| == 12 && StartsWith(r.value.0, "tmp")
    ensures r.Success? && (seqname.None? || PlainEnds(seqname.value, NameMarks)) ==>
      forall extension, dw :: SsKey(r.value.0) in RnaPlotPaths(r.value.1.input, "/tmp", extension, dw)
    ensures r.Success? && seqname.Some? && !PlainEnds(seqname.value, NameMarks) ==>
      forall extension, dw :: SsKey(r.value.0) !in RnaPlotPaths(r.value.1.input, "/tmp", extension, dw)
  {
    if |sequence| != |structure| {
      return Failure(DataError(StructureLengthMessage));
    }
    var name: string;
    if seqname.None? {
      name := TmpSeqName();
      TmpNameIsPlain(name);
    } else {
      name := seqname.value;
    }
    var call := Invocation(params, [">" + name, sequence, structure]);
    r := Success((name, call));
    if seqname.None? || PlainEnds(name, NameMarks) {
      forall extension, dw | true
        ensures SsKey(name) in RnaPlotPaths(call.input, "/tmp", extension, dw)
      {
        PlotOfNamedPair(name, sequence, structure, "/tmp", extension, dw);
      }
    } else {
      forall extension, dw | true
        ensures SsKey(name) !in RnaPlotPaths(call.input, "/tmp", extension, dw)
      {
        UnplainNameNeverKeyed(call.input, name, "/tmp", extension, dw);
      }
    }
  }

  /** One named sequence: RNAfold predicts its own `_ss` plot, and registers
      `SS` and `DP` without expecting them to be written, since one unnamed
      line does not outnumber one name. */
  lemma OneNamedSequence(name: string, sequence: string, workingDir: string, dotPlotOn: bool,
                         defaultWritten: bool)
    requires PlainEnds(name, NameMarks) && !IsNameLine(sequence)
    ensures var r := RnaFoldPaths([">" + name, sequence], workingDir, dotPlotOn, defaultWritten);
      && SsKey(name) in r && r[SsKey(name)] == ResultPath(workingDir + name + "_ss.ps", defaultWritten)
      && "SS" in r && !r["SS"].isWritten && "DP" in r && !r["DP"].isWritten
  {
    var input := [">" + name, sequence];
    StripMarker('>', name, NameMarks);
    assert IsNameLine(input[0]) && NameOf(input[0]) == name;
    assert name in NameSet(input);
    assert input[..1] == [">" + name] && input[..1][..0] == [];
    RnaFoldPathsSpec(input, workingDir, dotPlotOn, defaultWritten);
  }

  /** One unnamed sequence: RNAfold expects `rna.ps` to be written, while
      RNAplot, halving the unnamed count, registers no `SS` at all. */
  lemma OneUnnamedSequence(sequence: string, workingDir: string, dotPlotOn: bool, extension: string,
                           defaultWritten: bool)
    requires !IsNameLine(sequence)
    ensures RnaFoldPaths([sequence], workingDir, dotPlotOn, defaultWritten)["SS"]
         == ResultPath(workingDir + "rna.ps", true)
    ensures "SS" !in RnaPlotPaths([sequence], workingDir, extension, defaultWritten)
  {
    AllUnnamed([sequence]);
    RnaFoldPathsSpec([sequence], workingDir, dotPlotOn, defaultWritten);
    RnaPlotPathsSpec([sequence], workingDir, extension, defaultWritten);
  }
}
