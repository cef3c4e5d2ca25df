# Vienna RNA package and COVE application controllers

PyCogent drives external RNA tools through application controllers. Each
controller turns its input into a command-line token and predicts the output
files the tool will write as a result-path map: each key maps to a path and a
flag saying whether the file is expected to exist. This project models the
bookkeeping of two controller families. It proves what the predicted maps
contain and what the input tokens look like.

- **Vienna package** (`vienna.dfy`, module `ViennaPackage`):
  - RNAfold, RNAsubopt and RNAplot redirect their input token with `<`.
  - `RNAfold._get_result_paths` scans the input lines. A line starting with
    `>` names the sequence after it and adds `name_ss` and `name_dp` entries.
    The defaults `SS` (`rna.ps`) and `DP` (`dot.ps`) are always present. They
    are expected to be written only when unnamed lines outnumber named ones.
  - `RNAplot._get_result_paths` chooses an extension through
    `_get_outfile_extension` and adds one `name_ss` entry per name. It adds
    `SS` only when half the unnamed count exceeds the named count.
  - `_get_tmp_seqname` makes temporary sequence names.
  - `get_constrained_fold` and `plot_from_seq_and_struct` check their
    arguments before building a controller.
- **COVE** (`cove.dfy`, module `Cove`):
  - Covet, Coves, Covee and Covea put the companion covariance model
    `<file>.cm` before the input token.
  - Covet writes line input to a temporary file and remembers that file in
    the field `inputFilename`.
  - Covet predicts the model file `cm`, plus `_input_filename` when it wrote
    a temporary file.
- **Support**:
  - `py_strings.dfy` (module `PyStrings`) gives Python's `startswith`,
    `strip(chars)`, `join` and `split`, with the facts the controllers need
    about them.
  - `app_util.dfy` (module `AppUtil`) holds the result-path record and the
    exceptions raised.
  - `wrappers.dfy` (module `Wrappers`) holds `Option` and `Result`. A Python
    exception becomes `Failure`.

The result-path scans are `method`s with loops. Each is proved equal to a
function that folds over the input from its end. The properties of the map
are proved as lemmas about that function. Covet's remembered temporary file is
a field of a `class` that its methods update.

Two consequences for one-sequence inputs:
- For `['>name', seq]`, RNAfold registers `SS` and `DP` but marks them as not
  written (`vienna_package.py:96-100`, `OneNamedSequence`).
- For one unnamed line, RNAplot registers no `SS` at all, because `1/2` is `0`
  in Python 2 (`vienna_package.py:299`, `OneUnnamedSequence`).

## Model

| member | source | states |
|---|---|---|
| ViennaPackage.Redirected | cogent/app/vienna_package.py:54-61 | The redirected token is `<` followed by exactly the base controller's token (RNAfold; RNAsubopt and RNAplot do the same at 169-183 and 246-259). |
| ViennaPackage.CountsPartition | cogent/app/vienna_package.py:78-94 | `name_counter + seq_counter` is the number of input lines: every line is counted once, as named or unnamed. |
| ViennaPackage.NamesAtMostNameLines | cogent/app/vienna_package.py:78-94 | There are never more distinct names than name lines. |
| ViennaPackage.AllUnnamed | cogent/app/vienna_package.py:78-94 | Input without `>` lines declares no names: the named count is 0 and the unnamed count is the input's length. |
| ViennaPackage.KeysDistinct | cogent/app/vienna_package.py:84-89 | The `_ss` and `_dp` suffixes keep keys apart. Different names get different keys. No per-name key equals `SS` or `DP`. |
| ViennaPackage.FoldNamedPathsSpec | cogent/app/vienna_package.py:78-90 | The per-name part of RNAfold's map holds exactly the `_ss` and `_dp` keys of the declared names. Each points to `WorkingDir+name+'_ss.ps'` or `'_dp.ps'`. The dot plot is written iff `-p` is on. There are two entries per distinct name. |
| ViennaPackage.RnaFoldPathsSpec | cogent/app/vienna_package.py:63-101 | RNAfold's map is the per-name entries plus `SS` (`rna.ps`) and `DP` (`dot.ps`). `SS` is written iff unnamed lines outnumber named ones. `DP` is written iff, in addition, `-p` is on. Nothing else is present. The size is 2 + 2 × the number of distinct names. |
| ViennaPackage.RepeatedNameAddsNothing | cogent/app/vienna_package.py:82-89 | A name line repeating an earlier name leaves the per-name part unchanged. |
| ViennaPackage.RnaFoldResultPaths | cogent/app/vienna_package.py:63-101 | The loop over a list input yields exactly the map `RnaFoldPathsSpec` describes. |
| ViennaPackage.OutfileExtensionAsWritten | cogent/app/vienna_package.py:261-268 | As written: `.ps` when `-o` is off; a NameError for every format when `-o` is on. |
| ViennaPackage.OutfileExtension | cogent/app/vienna_package.py:219-223 | As intended: `.ps` when `-o` is off. Otherwise the lookup succeeds iff the format is in `FILETYPE_TO_EXTENSION`, and fails with a KeyError naming the format. Every result is one of `.ps`, `.gml`, `.svg`, `.ss`. |
| ViennaPackage.AsWrittenRejectsKnownFormats | cogent/app/vienna_package.py:261-268 | For every format the table knows, the code as written fails where the intended lookup returns the table's extension. The two agree when `-o` is off. |
| ViennaPackage.PlotNamedPathsSpec | cogent/app/vienna_package.py:286-296 | The per-name part of RNAplot's map holds exactly one `_ss` entry per distinct name. The entry's path ends in the chosen extension. |
| ViennaPackage.RnaPlotPathsSpec | cogent/app/vienna_package.py:270-302 | RNAplot's map holds the per-name entries. `SS` (`rna`+extension, written) is present iff `seq_counter/2 - name_counter > 0`. Nothing else is present, and the size is counted exactly. |
| ViennaPackage.RnaPlotResultPaths | cogent/app/vienna_package.py:270-302 | Uses the intended lookup `OutfileExtension`: a failing lookup makes the call fail with the same error, otherwise the loop yields exactly `RnaPlotPaths` with that extension. As written, line 268 fails with a NameError whenever `-o` is on (`OutfileExtensionAsWritten`). |
| ViennaPackage.ConstrainedFoldCall | cogent/app/vienna_package.py:103-124 | Three checks apply in order: an empty sequence, an empty constraint, unequal lengths. Each raises its ValueError, iff the earlier checks pass. A call passing all three switches `-C` on in addition to the caller's params and runs on `[sequence, constraint]`. |
| ViennaPackage.ConstrainedFoldWritesStructure | cogent/app/vienna_package.py:122-124 | When neither the sequence nor the constraint starts with `>`, the constrained call's input declares no names, so RNAfold expects `rna.ps` to be written. |
| ViennaPackage.TmpSeqName | cogent/app/vienna_package.py:234-244 | A temporary name is 12 characters long: `tmp` followed by nine characters from the pick string. |
| ViennaPackage.TmpNameIsPlain | cogent/app/vienna_package.py:234-244 | A generated name's ends are neither `>` nor a newline, so `'>'+name` strips back to the name. |
| ViennaPackage.PlotOfNamedPair | cogent/app/vienna_package.py:286-322 | For a name with plain ends (no `>` or newline at either end), RNAplot on `['>'+name, seq, struct]` predicts `name_ss` and no `SS`. |
| ViennaPackage.PlotFromSeqAndStruct | cogent/app/vienna_package.py:304-322 | Unequal lengths fail with a DataError, and only they fail. Otherwise RNAplot runs on `['>'+name, seq, struct]` with the caller's name or a generated `tmp` name. The `name_ss` key the helper reads (line 322) is predicted, for every extension and default flag, when the name was generated or has plain ends. It is never predicted when a caller's name has `>` or a newline at an end, so that read fails. |
| ViennaPackage.UnplainNameNeverKeyed | cogent/app/vienna_package.py:291-296 | A name with `>` or a newline at an end is never an RNAplot `_ss` key, for any input: declared names are stripped lines, whose ends are plain. |
| ViennaPackage.OneNamedSequence | cogent/app/vienna_package.py:78-101 | One named sequence: `name_ss` is predicted, and `SS` and `DP` are present but not written. |
| ViennaPackage.OneUnnamedSequence | cogent/app/vienna_package.py:92-101 | One unnamed sequence: RNAfold expects `rna.ps` written, while RNAplot registers no `SS` (its rule at 297-301). |
| PyStrings.StripTrims | cogent/app/vienna_package.py:87 | `strip('>\n')` returns a slice of the line with plain ends. Everything cut from either end is a `>` or a newline (RNAfold here; RNAplot strips the same way at 294). |
| PyStrings.SplitJoin | cogent/app/cove.py:61 | Splitting a `'\n'.join` of newline-free parts gives the parts back. |
| Cove.WithCompanion | cogent/app/cove.py:53-55 | The token starts with `filename+'.cm '` and continues with exactly the given token. |
| Cove.InputAsString | cogent/app/cove.py:119-121 | The `_input_as_string` of Covet, Coves (here), Covee (150-152) and Covea (183-185). For every file name the token is `filename+'.cm'`, one space, then exactly the base token. For a file name without spaces, splitting the token at single spaces (`split(' ')`) gives the model file followed by the pieces of the base token. |
| Cove.CompanionComesFirst | cogent/app/cove.py:53-55 | For a file name without spaces, splitting a companion token at single spaces (`split(' ')`) puts the model file first, then the pieces of the token. |
| Cove.StrippedRecords | cogent/app/cove.py:61 | Each record is its datum with only the newlines at its ends cut: a slice of the datum, everything cut is a newline, and no record starts or ends with a newline. |
| Cove.FileContent | cogent/app/cove.py:60-63 | The temporary file always ends in a newline. An empty record list writes exactly one newline. |
| Cove.FileContentRoundTrip | cogent/app/cove.py:57-64 | Reading the file back gives the stripped records, in order, for any non-empty list of records without interior newlines. |
| Cove.EmptyInputReadsOneRecord | cogent/app/cove.py:60-63 | An empty record list reads back as one empty record. |
| Cove.Covet.InputAsLines | cogent/app/cove.py:57-65 | Covet remembers the temporary file, writes `FileContent(data)` to it, and returns `file.cm file`. |
| Cove.Covet.GetResultPaths | cogent/app/cove.py:68-89 | The call fails with a TypeError iff it gets line input with no remembered file. Otherwise `cm` is the input path (or the remembered file) plus `.cm`, and `_input_filename` is present iff a file is remembered. Nothing else is present. For line input with a remembered file name without spaces, `cm` is the first piece, split at single spaces, of the token `InputAsLines` returned. |

## Left out

- Running the tools, reading their output (StdOut, `MinimalRnaalifoldParser`), `cleanUp` and file I/O are not modelled. The file branch of both `_get_result_paths` (`open(data).readlines()`) is not modelled either: the scans take the lines as a list.
- Covet's actual file write is not modelled. The method returns the content it would write.
- The base class `CommandLineApplication` (`cogent/app/util.py`) and the parameter classes are not part of this model. Their contributions arrive as parameters:
  - the base token of `_input_as_path`, `_input_as_lines` and `_input_as_string`;
  - `getTmpFilename`;
  - `WorkingDir`;
  - `-p` on or off;
  - the `-o` value after `_absolute`;
  - `ResultPath`'s default `IsWritten` (`defaultWritten`).
- ViennaPackage.PlotFromSeqAndStruct: the `WorkingDir='/tmp'` it passes is used as given, without the base class's normalisation. `ViennaStructure` validation of the structure string is not part of this model.
- ViennaPackage.TmpSeqName: the random choice is modelled as any pick-string character. The pick string repeats `g`, `G` and `0` (its letters spell `g` where `j` belongs, and its digits run 0–7, 9, 0) and lacks `j`, `J` and `8`, so the draw is not uniform; probabilities are not modelled.
- ViennaPackage.ConstrainedFoldCall: `params` is modelled as the set of flags switched on; parameter values are not modelled.
- Cove.Covet.GetResultPaths: "not a list" is modelled as a path input. Other non-list data (tuples, file objects) are not distinguished.
- Covee and Covea `_input_as_lines` (`data+'.cm'` on a list, a TypeError in Python) are not modelled.
- Covet declares `_input_handlar` (misspelt), so it keeps the base class's input handler. That handler is not part of this model.
- The parameter catalogues (`_parameters`), `_command`, `getHelp` and the RNAsubopt controller beyond its `<` redirection are not modelled: they are data without behaviour to prove.

## Findings

| source | as written | input that shows it | evidently intended | confidence | as-written member | corrected member |
|---|---|---|---|---|---|---|
| cogent/app/vienna_package.py:268 | `_get_outfile_extension` looks up `FILETYPE_TO_EXTENSION` unqualified. The name is bound only as a class attribute, so with `-o` on it raises NameError for every format. | `-o` set to `gml` | `self.FILETYPE_TO_EXTENSION[filetype]`, returning `.gml` | not executed | ViennaPackage.OutfileExtensionAsWritten | ViennaPackage.OutfileExtension |
