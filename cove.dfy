/** The bookkeeping of the COVE controllers (covet, coves, covee, covea):
    each tool reads a covariance model `<file>.cm` beside its input `<file>`,
    so every input token names the companion model first; Covet writes
    line input to a temporary file, remembers that file, and predicts the
    model file it will train. */
module Cove {
  import opened Wrappers
  import opened PyStrings
  import opened AppUtil

  /** `' '.join([filename+'.cm', token])`: the companion model file, a single
      space, then the input token. */
  function WithCompanion(filename: string, token: string): (r: string)
    ensures StartsWith(r, filename + ".cm ") && r[|filename| + 4..] == token
  {
    Join(" ", [filename + ".cm", token])
  }

  /** The `_input_as_string` override shared by Covet, Coves, Covee and Covea:
      the base controller's token for `filename`, preceded by its model. */
  function InputAsString(filename: string, baseToken: string): (r: string)
    ensures StartsWith(r, filename + ".cm ") && r[|filename| + 4..] == baseToken
    ensures ' ' !in filename ==> Split(r, ' ') == [filename + ".cm"] + Split(baseToken, ' ')
  {
    var r := WithCompanion(filename, baseToken);
    if ' ' !in filename then CompanionComesFirst(filename, baseToken); r else r
  }

  /** For a file name without spaces, a companion token split at single
      spaces (`split(' ')`) gives the model file as the first piece and then
      the pieces of the token. */
  lemma CompanionComesFirst(filename: string, token: string)
    requires ' ' !in filename
    ensures Split(WithCompanion(filename, token), ' ') == [filename + ".cm"] + Split(token, ' ')
  {
    var model := filename + ".cm";
    assert ' ' !in model by {
      assert forall i :: 0 <= i < |filename| ==> model[i] == filename[i];
    }
    assert WithCompanion(filename, token) == model + [' '] + token;
    SplitPrefix(model, token, ' ');
  }

  // ---------------------------------------------------------------------
  // The temporary input file of Covet._input_as_lines
  // ---------------------------------------------------------------------

  /** `str(d).strip('\n')` for every record: each record is its datum with
      the newlines at its ends cut and nothing else, so no record starts or
      ends with a newline. */
  function StrippedRecords(data: seq<string>): (r: seq<string>)
    ensures |r| == |data|
    ensures forall i :: 0 <= i < |r| ==> TrimmedFrom(r[i], data[i], {'\n'}) && PlainEnds(r[i], {'\n'})
    ensures forall i :: 0 <= i < |r| ==> r[i] == Strip(data[i], {'\n'})
  {
    StripEach(data);
    seq(|data|, i requires 0 <= i < |data| => Strip(data[i], {'\n'}))
  }

  lemma StripEach(data: seq<string>)
    ensures forall i :: 0 <= i < |data| ==>
      TrimmedFrom(Strip(data[i], {'\n'}), data[i], {'\n'}) && PlainEnds(Strip(data[i], {'\n'}), {'\n'})
  {
    forall i | 0 <= i < |data|
      ensures TrimmedFrom(Strip(data[i], {'\n'}), data[i], {'\n'}) && PlainEnds(Strip(data[i], {'\n'}), {'\n'})
    {
      StripTrims(data[i], {'\n'});
    }
  }

  /** What Covet writes to its temporary file: the stripped records joined by
      newlines, then one more newline. */
  function FileContent(data: seq<string>): (r: string)
    ensures |r| >= 1 && r[|r| - 1] == '\n'
    ensures data == [] ==> r == "\n"
  {
    Join("\n", StrippedRecords(data)) + "\n"
  }

  /** Reading the file back: the pieces between newlines, without the empty
      piece after the final newline. */
  function ReadRecords(content: string): (r: seq<string>)
    ensures forall i :: 0 <= i < |r| ==> '\n' !in r[i]
  {
    var pieces := Split(content, '\n');
    pieces[..|pieces| - 1]
  }

  /** Records without interior newlines come back from the file as written,
      stripped and in order. An empty record list is the one exception: its
      file is a single newline, which reads back as one empty record. */
  lemma FileContentRoundTrip(data: seq<string>)
    requires |data| >= 1
    requires forall i :: 0 <= i < |data| ==> '\n' !in Strip(data[i], {'\n'})
    ensures ReadRecords(FileContent(data)) == StrippedRecords(data)
  {
    var parts := StrippedRecords(data);
    JoinAppendEmpty("\n", parts);
    SplitJoin(parts + [""], '\n');
    assert (parts + [""])[..|parts|] == parts;
  }

  /** The empty record list writes one newline, which reads back as one
      empty record rather than none. */
  lemma EmptyInputReadsOneRecord()
    ensures FileContent([]) == "\n"
    ensures ReadRecords(FileContent([])) == [""]
  {
    assert Split("\n"[1..], '\n') == [""];
  }

  // ---------------------------------------------------------------------
  // Covet
  // ---------------------------------------------------------------------

  /** The data a controller is called on: a file path, or lines to be
      written to a temporary file. */
  datatype CallData = PathInput(path: string) | LinesInput(lines: seq<string>)

  /** Message of the TypeError `''.join([None])` raises. */
  const JoinNoneMessage := "sequence item 0: expected string, NoneType found"

  /** The Covet controller's own state: the temporary input file it last
      wrote (`_input_filename`, None until it writes one). */
  class Covet {
    var inputFilename: Option<string>

    constructor ()
      ensures inputFilename == None
    {
      inputFilename := None;
    }

    /** `Covet._input_as_lines`: remembers the temporary file name the base
        controller chose, returns the content written to it and the token
        naming the model first and the file second. */
    method InputAsLines(data: seq<string>, tmpFilename: string) returns (token: string, content: string)
      modifies this
      ensures inputFilename == Some(tmpFilename)
      ensures content == FileContent(data)
      ensures token == WithCompanion(tmpFilename, tmpFilename)
    {
      inputFilename := Some(tmpFilename);
      content := Join("\n", StrippedRecords(data));
      content := content + "\n";
      token := Join(" ", [tmpFilename + ".cm", tmpFilename]);
    }

    /** `Covet._get_result_paths`: `cm` is the model beside the input path
        (or beside the remembered temporary file for line input, which fails
        when there is none); `_input_filename` is reported when a temporary
        file was written; nothing else. For line input with a remembered file
        name without spaces, the predicted model is the first piece, split at
        single spaces, of the token `InputAsLines` handed the tool. */
    method GetResultPaths(data: CallData, defaultWritten: bool)
      returns (r: Result<map<string, ResultPath>, AppError>)
      ensures r.Failure? <==> data.LinesInput? && inputFilename.None?
      ensures r.Failure? ==> r.error == TypeError(JoinNoneMessage)
      ensures r.Success? ==>
        r.value.Keys == {"cm"} + (if inputFilename.Some? then {"_input_filename"} else {})
      ensures r.Success? && data.PathInput? ==> r.value["cm"] == ResultPath(data.path + ".cm", defaultWritten)
      ensures r.Success? && data.LinesInput? ==>
        r.value["cm"] == ResultPath(inputFilename.value + ".cm", defaultWritten)
      ensures r.Success? && inputFilename.Some? ==>
        r.value["_input_filename"] == ResultPath(inputFilename.value, defaultWritten)
      ensures r.Success? && data.LinesInput? && ' ' !in inputFilename.value ==>
        Split(WithCompanion(inputFilename.value, inputFilename.value), ' ')[0] == r.value["cm"].path
    {
      var inputPath: string;
      if data.PathInput? {
        inputPath := data.path;
      } else if inputFilename.None? {
        return Failure(TypeError(JoinNoneMessage));
      } else {
        inputPath := inputFilename.value;
        if ' ' !in inputPath {
          CompanionComesFirst(inputPath, inputPath);
        }
      }
      var result: map<string, ResultPath> := map[];
      result := result["cm" := ResultPath(inputPath + ".cm", defaultWritten)];
      if inputFilename.Some? {
        result := result["_input_filename" := ResultPath(inputFilename.value, defaultWritten)];
      }
      r := Success(result);
    }
  }
}
