/**
 * The converter's run over the audio files named on its command line: for
 * each file in turn it builds the document, embeds the companion OHMS
 * document when a file of that name exists, and writes the result under the
 * output name. The first error ends the run; the documents written before it
 * stay written.
 *
 * The file system is a map from path to what a path holds: a document that
 * parses, or a file that does not. A path outside the map is no file.
 */
module Batch {
  import opened Wrappers
  import opened Xml
  import opened Pbcore
  import Layout

  datatype Stored = Parsed(root: Node) | Unparsable

  type Disk = map<string, Stored>

  /** One audio file: its name and the metadata record read from it. */
  datatype Input = Input(path: string, record: Metadata)

  predicate Readable(inputs: seq<Input>) {
    forall i :: 0 <= i < |inputs| ==> HasAllKeys(inputs[i].record)
  }

  /** What `path.isfile` and `ET.parse` give for a path: nothing when no
      file is there, the root of the document when it parses, and an error
      naming the path when it does not. */
  function Fetch(disk: Disk, path: string): (r: Result<Option<Node>, BuildError>)
    ensures r.Success? && r.value.None? <==> path !in disk
    ensures r.Failure? <==> path in disk && disk[path].Unparsable?
    ensures r.Failure? ==> r.error == MalformedCompanion(path)
    ensures r.Success? && r.value.Some? ==> disk[path] == Parsed(r.value.value)
  {
    if path !in disk then Success(None)
    else match disk[path]
      case Parsed(root) => Success(Some(root))
      case Unparsable => Failure(MalformedCompanion(path))
  }

  /** The companion document of an audio file. */
  function Companion(disk: Disk, infile: string): (r: Result<Option<Node>, BuildError>) {
    Fetch(disk, CompanionName(infile))
  }

  /** The document of one file, given what the look-up of its companion
      gave. The companion is looked at only once the subject passes are
      through, so a blank item is reported first. */
  function Convert(input: Input, companion: Result<Option<Node>, BuildError>): (r: Result<Node, BuildError>)
    requires HasAllKeys(input.record)
    ensures r.Success? ==> companion.Success?
    ensures r.Failure? ==> r.error.BlankItem? || (companion.Failure? && r.error == companion.error)
  {
    var built := Document(input.record, input.path, None);
    if built.Failure? then built
    else
      var c :- companion;
      Document(input.record, input.path, c)
  }

  /** A conversion succeeds exactly when the subjects have no blank item and
      the companion is absent or parses. */
  lemma ConvertOk(input: Input, companion: Result<Option<Node>, BuildError>)
    requires HasAllKeys(input.record)
    ensures Convert(input, companion).Success? <==> Layout.SubjectsOk(input.record) && companion.Success?
  {
    Layout.DocumentOutcome(input.record, input.path, None);
    if Layout.SubjectsOk(input.record) && companion.Success? {
      Layout.DocumentOutcome(input.record, input.path, companion.value);
    }
  }

  /** A conversion that succeeds gives the document with the companion
      embedded; one that fails reports the blank item's field, or else the
      companion's error. */
  lemma ConvertResult(input: Input, companion: Result<Option<Node>, BuildError>)
    requires HasAllKeys(input.record)
    ensures var m, r := input.record, Convert(input, companion);
      && (r.Success? ==> r == Document(m, input.path, companion.value))
      && (!Layout.SubjectsOk(m) ==> r.Failure? && r.error.BlankItem? && r == Document(m, input.path, None))
      && (Layout.SubjectsOk(m) && r.Failure? ==> r.error == companion.error)
  {
    Layout.DocumentOutcome(input.record, input.path, None);
  }

  /** The error of a failed conversion: the blank item's, or else the
      companion's. */
  lemma ConvertError(input: Input, companion: Result<Option<Node>, BuildError>)
    requires HasAllKeys(input.record)
    requires Convert(input, companion).Failure?
    ensures if !Layout.SubjectsOk(input.record)
      then Convert(input, companion).error == BlankItem(Layout.BlankField(input.record))
      else companion.Failure? && Convert(input, companion).error == companion.error
  {
    ConvertOk(input, companion);
    ConvertResult(input, companion);
    if !Layout.SubjectsOk(input.record) {
      Layout.BlankReported(input.record, input.path, None);
    }
  }

  /** A conversion as the loop does it: the document built with the
      companion when the look-up succeeded and without it otherwise, a failed
      build reported before a failed look-up. */
  lemma ConvertSteps(input: Input, companion: Result<Option<Node>, BuildError>)
    requires HasAllKeys(input.record)
    ensures var doc := Document(input.record, input.path, if companion.Success? then companion.value else None);
      Convert(input, companion) ==
        if doc.Failure? then Failure(doc.error)
        else if companion.Failure? then Failure(companion.error)
        else doc
  {
    Layout.DocumentOutcome(input.record, input.path, None);
    if companion.Success? {
      Layout.DocumentOutcome(input.record, input.path, companion.value);
    }
  }

  // ---------------------------------------------------------------------------
  // A run of a converter

  /** The file system after a run, and the error that ended it, if any. */
  datatype Outcome = Outcome(disk: Disk, error: Option<BuildError>)

  /** A conversion of one file from its input and what the look-up of its
      companion gave, with the names under which a file's output is written
      and its companion is looked up. */
  datatype Converter = Converter(
    step: (Input, Result<Option<Node>, BuildError>) --> Result<Node, BuildError>,
    output: string -> string,
    companion: string -> string)

  /** The step applies to every file of the run. */
  ghost predicate Applies(cv: Converter, inputs: seq<Input>) {
    forall i, c :: 0 <= i < |inputs| ==> cv.step.requires(inputs[i], c)
  }

  /** No output name is a companion name. */
  ghost predicate Apart(cv: Converter) {
    forall a, b :: cv.output(a) != cv.companion(b)
  }

  /** The run over `inputs`, file by file: each file converted with its
      companion as the file system holds it when the file's turn comes, the
      document written under the output name, and the run ended by the first
      error. */
  ghost function RunFiles(cv: Converter, disk: Disk, inputs: seq<Input>): (r: Outcome)
    requires Applies(cv, inputs)
    ensures forall p :: p in disk ==> p in r.disk
    decreases |inputs|
  {
    if inputs == [] then Outcome(disk, None)
    else
      var before := RunFiles(cv, disk, inputs[..|inputs| - 1]);
      var last := inputs[|inputs| - 1];
      if before.error.Some? then before
      else match cv.step(last, Fetch(before.disk, cv.companion(last.path)))
        case Success(doc) => Outcome(before.disk[cv.output(last.path) := Parsed(doc)], None)
        case Failure(e) => Outcome(before.disk, Some(e))
  }

  lemma AppliesPrefix(cv: Converter, inputs: seq<Input>, n: nat)
    requires Applies(cv, inputs) && n <= |inputs|
    ensures Applies(cv, inputs[..n])
  {
    assert forall i :: 0 <= i < n ==> inputs[..n][i] == inputs[i];
  }

  ghost predicate IsOutputOf(cv: Converter, p: string, inputs: seq<Input>) {
    exists i :: 0 <= i < |inputs| && p == cv.output(inputs[i].path)
  }

  /** Every path that is not the output name of one of the inputs is left as
      it was. */
  ghost predicate KeepsOthers(cv: Converter, disk: Disk, after: Disk, inputs: seq<Input>) {
    forall p :: !IsOutputOf(cv, p, inputs) ==> (p in after <==> p in disk) && (p in disk ==> after[p] == disk[p])
  }

  lemma {:induction false} RunKeepsOthers(cv: Converter, disk: Disk, inputs: seq<Input>)
    requires Applies(cv, inputs)
    ensures KeepsOthers(cv, disk, RunFiles(cv, disk, inputs).disk, inputs)
    decreases |inputs|
  {
    if inputs != [] {
      var n := |inputs| - 1;
      AppliesPrefix(cv, inputs, n);
      RunKeepsOthers(cv, disk, inputs[..n]);
      forall p | IsOutputOf(cv, p, inputs[..n]) ensures IsOutputOf(cv, p, inputs) {
        var i :| 0 <= i < n && p == cv.output(inputs[..n][i].path);
        assert inputs[..n][i] == inputs[i];
      }
      assert IsOutputOf(cv, cv.output(inputs[n].path), inputs);
    }
  }

  /** Companion documents are never written, so every file of the run sees
      its companion as it was before the run. */
  lemma CompanionsUntouched(cv: Converter, disk: Disk, inputs: seq<Input>, infile: string)
    requires Applies(cv, inputs) && Apart(cv)
    ensures Fetch(RunFiles(cv, disk, inputs).disk, cv.companion(infile)) == Fetch(disk, cv.companion(infile))
  {
    RunKeepsOthers(cv, disk, inputs);
    forall i | 0 <= i < |inputs| ensures cv.companion(infile) != cv.output(inputs[i].path) {
    }
    assert !IsOutputOf(cv, cv.companion(infile), inputs);
  }

  /** The conversion of file `i` with its companion as it was before the run. */
  ghost function Converted(cv: Converter, disk: Disk, inputs: seq<Input>, i: int): (r: Result<Node, BuildError>)
    requires Applies(cv, inputs) && 0 <= i < |inputs|
  {
    cv.step(inputs[i], Fetch(disk, cv.companion(inputs[i].path)))
  }

  /** The last file of a run sees its companion as it was before the run. */
  lemma RunLast(cv: Converter, disk: Disk, inputs: seq<Input>)
    requires Applies(cv, inputs) && Apart(cv) && inputs != []
    ensures Applies(cv, inputs[..|inputs| - 1])
    ensures var before, n := RunFiles(cv, disk, inputs[..|inputs| - 1]), |inputs| - 1;
      RunFiles(cv, disk, inputs) ==
        if before.error.Some? then before
        else match Converted(cv, disk, inputs, n)
          case Success(doc) => Outcome(before.disk[cv.output(inputs[n].path) := Parsed(doc)], None)
          case Failure(e) => Outcome(before.disk, Some(e))
  {
    var n := |inputs| - 1;
    AppliesPrefix(cv, inputs, n);
    CompanionsUntouched(cv, disk, inputs[..n], inputs[n].path);
  }

  /** The files before `n` are converted alike in the run and in its prefix. */
  lemma ConvertedPrefix(cv: Converter, disk: Disk, inputs: seq<Input>, n: nat)
    requires Applies(cv, inputs) && n <= |inputs|
    ensures Applies(cv, inputs[..n])
    ensures forall i :: 0 <= i < n ==> Converted(cv, disk, inputs[..n], i) == Converted(cv, disk, inputs, i)
  {
    AppliesPrefix(cv, inputs, n);
    forall i | 0 <= i < n ensures Converted(cv, disk, inputs[..n], i) == Converted(cv, disk, inputs, i) {
      assert inputs[..n][i] == inputs[i];
    }
  }

  /** The run succeeds exactly when every file converts. */
  lemma {:induction false} RunSucceeds(cv: Converter, disk: Disk, inputs: seq<Input>)
    requires Applies(cv, inputs) && Apart(cv)
    ensures RunFiles(cv, disk, inputs).error.None? <==>
      forall i :: 0 <= i < |inputs| ==> Converted(cv, disk, inputs, i).Success?
    decreases |inputs|
  {
    if inputs != [] {
      var n := |inputs| - 1;
      RunLast(cv, disk, inputs);
      ConvertedPrefix(cv, disk, inputs, n);
      RunSucceeds(cv, disk, inputs[..n]);
    }
  }

  /** A run that fails reports the error of the first file that does not
      convert, and every file before it converted. */
  lemma {:induction false} RunFails(cv: Converter, disk: Disk, inputs: seq<Input>)
    requires Applies(cv, inputs) && Apart(cv)
    ensures RunFiles(cv, disk, inputs).error.Some? ==>
      exists i :: 0 <= i < |inputs| && Converted(cv, disk, inputs, i).Failure?
        && RunFiles(cv, disk, inputs).error == Some(Converted(cv, disk, inputs, i).error)
        && forall j :: 0 <= j < i ==> Converted(cv, disk, inputs, j).Success?
    decreases |inputs|
  {
    if inputs != [] {
      var n := |inputs| - 1;
      var front := inputs[..n];
      RunLast(cv, disk, inputs);
      ConvertedPrefix(cv, disk, inputs, n);
      if RunFiles(cv, disk, front).error.Some? {
        RunFails(cv, disk, front);
        var i :| 0 <= i < n && Converted(cv, disk, front, i).Failure?
          && RunFiles(cv, disk, front).error == Some(Converted(cv, disk, front, i).error)
          && forall j :: 0 <= j < i ==> Converted(cv, disk, front, j).Success?;
        assert Converted(cv, disk, inputs, i).Failure?;
      } else {
        RunSucceeds(cv, disk, front);
      }
    }
  }

  /** Once an error has ended the run, later files change nothing. */
  lemma {:induction false} ErrorSticks(cv: Converter, disk: Disk, inputs: seq<Input>, k: nat)
    requires Applies(cv, inputs) && k <= |inputs|
    requires RunFiles(cv, disk, inputs[..k]).error.Some?
    ensures RunFiles(cv, disk, inputs) == RunFiles(cv, disk, inputs[..k])
    decreases |inputs|
  {
    AppliesPrefix(cv, inputs, k);
    if k < |inputs| {
      var n := |inputs| - 1;
      AppliesPrefix(cv, inputs, n);
      assert inputs[..n][..k] == inputs[..k];
      ErrorSticks(cv, disk, inputs[..n], k);
    } else {
      assert inputs[..k] == inputs;
    }
  }

  /** After a run that succeeds, the output of each file that no later file
      shares an output name with holds that file's document. */
  lemma {:induction false} RunOutputs(cv: Converter, disk: Disk, inputs: seq<Input>, i: int)
    requires Applies(cv, inputs) && Apart(cv) && 0 <= i < |inputs|
    requires RunFiles(cv, disk, inputs).error.None?
    requires forall j :: i < j < |inputs| ==> cv.output(inputs[j].path) != cv.output(inputs[i].path)
    ensures Converted(cv, disk, inputs, i).Success?
    ensures var out := cv.output(inputs[i].path);
      out in RunFiles(cv, disk, inputs).disk
      && RunFiles(cv, disk, inputs).disk[out] == Parsed(Converted(cv, disk, inputs, i).value)
    decreases |inputs|
  {
    var n := |inputs| - 1;
    var front := inputs[..n];
    RunLast(cv, disk, inputs);
    var before := RunFiles(cv, disk, front);
    assert before.error.None? && Converted(cv, disk, inputs, n).Success?;
    if i < n {
      ConvertedPrefix(cv, disk, inputs, n);
      assert front[i] == inputs[i];
      forall j | i < j < n ensures cv.output(front[j].path) != cv.output(front[i].path) {
        assert front[j] == inputs[j];
      }
      RunOutputs(cv, disk, front, i);
    }
  }

  /** After a run that fails at file `f`, the output of each earlier file
      that no later file before `f` shares an output name with holds that
      file's document. */
  lemma RunFailsOutputs(cv: Converter, disk: Disk, inputs: seq<Input>, f: int, i: int)
    requires Applies(cv, inputs) && Apart(cv) && 0 <= i < f < |inputs|
    requires Converted(cv, disk, inputs, f).Failure?
    requires forall j :: 0 <= j < f ==> Converted(cv, disk, inputs, j).Success?
    requires forall j :: i < j < f ==> cv.output(inputs[j].path) != cv.output(inputs[i].path)
    ensures RunFiles(cv, disk, inputs).error == Some(Converted(cv, disk, inputs, f).error)
    ensures var out := cv.output(inputs[i].path);
      out in RunFiles(cv, disk, inputs).disk
      && RunFiles(cv, disk, inputs).disk[out] == Parsed(Converted(cv, disk, inputs, i).value)
  {
    var upto := inputs[..f + 1];
    var front := inputs[..f];
    ConvertedPrefix(cv, disk, inputs, f + 1);
    ConvertedPrefix(cv, disk, inputs, f);
    assert upto[..f] == front;
    RunSucceeds(cv, disk, front);
    RunLast(cv, disk, upto);
    ErrorSticks(cv, disk, inputs, f + 1);
    forall j | i < j < f ensures cv.output(front[j].path) != cv.output(front[i].path) {
      assert front[j] == inputs[j];
    }
    assert front[i] == inputs[i];
    RunOutputs(cv, disk, front, i);
  }

  // ---------------------------------------------------------------------------
  // The converter's run

  /** The converter: `Convert`, writing `<stem>_pbcore.xml` and reading
      `<stem>_ohms.xml`. */
  function Bwf2Pbcore(): (r: Converter) {
    Converter(Convert, OutputName, CompanionName)
  }

  lemma Bwf2PbcoreApart()
    ensures Apart(Bwf2Pbcore())
  {
    forall a, b ensures OutputName(a) != CompanionName(b) {
      OutputNeverCompanion(a, b);
    }
  }

  /** The run of the converter itself. */
  ghost function Batch(disk: Disk, inputs: seq<Input>): (r: Outcome)
    requires Readable(inputs)
    ensures forall p :: p in disk ==> p in r.disk
  {
    RunFiles(Bwf2Pbcore(), disk, inputs)
  }

  /** The files of a run are converted with their companions as the file
      system held them before the run. */
  lemma BatchConverted(disk: Disk, inputs: seq<Input>, i: int)
    requires Readable(inputs) && 0 <= i < |inputs|
    ensures Applies(Bwf2Pbcore(), inputs)
    ensures Converted(Bwf2Pbcore(), disk, inputs, i) == Convert(inputs[i], Companion(disk, inputs[i].path))
  {
  }

  /** The converter's run succeeds exactly when no file has a blank subject
      item and every companion is absent or parses, as the file system held
      them before the run. */
  lemma BatchSucceeds(disk: Disk, inputs: seq<Input>)
    requires Readable(inputs)
    ensures Batch(disk, inputs).error.None? <==>
      forall i :: 0 <= i < |inputs| ==>
        Layout.SubjectsOk(inputs[i].record) && Companion(disk, inputs[i].path).Success?
  {
    Bwf2PbcoreApart();
    RunSucceeds(Bwf2Pbcore(), disk, inputs);
    forall i | 0 <= i < |inputs|
      ensures Converted(Bwf2Pbcore(), disk, inputs, i).Success? <==>
        Layout.SubjectsOk(inputs[i].record) && Companion(disk, inputs[i].path).Success?
    {
      BatchConverted(disk, inputs, i);
      ConvertOk(inputs[i], Companion(disk, inputs[i].path));
    }
  }

  lemma BatchPrefixOk(disk: Disk, inputs: seq<Input>, i: int)
    requires Readable(inputs) && 0 <= i <= |inputs|
    requires forall j :: 0 <= j < i ==> Converted(Bwf2Pbcore(), disk, inputs, j).Success?
    ensures forall j :: 0 <= j < i ==> Layout.SubjectsOk(inputs[j].record) && Companion(disk, inputs[j].path).Success?
  {
    forall j | 0 <= j < i
      ensures Layout.SubjectsOk(inputs[j].record) && Companion(disk, inputs[j].path).Success?
    {
      assert Converted(Bwf2Pbcore(), disk, inputs, j).Success?;
      BatchConverted(disk, inputs, j);
      ConvertOk(inputs[j], Companion(disk, inputs[j].path));
    }
  }

  /** A failed run of the converter stops at the first file with a blank
      subject item or a companion that does not parse, and reports that
      file's blank field, or else its companion's name. */
  lemma BatchFails(disk: Disk, inputs: seq<Input>)
    requires Readable(inputs)
    ensures Batch(disk, inputs).error.Some? ==>
      exists i :: 0 <= i < |inputs|
        && (forall j :: 0 <= j < i ==> Layout.SubjectsOk(inputs[j].record) && Companion(disk, inputs[j].path).Success?)
        && !(Layout.SubjectsOk(inputs[i].record) && Companion(disk, inputs[i].path).Success?)
        && Batch(disk, inputs).error == Some(Reported(inputs[i]))
  {
    Bwf2PbcoreApart();
    RunFails(Bwf2Pbcore(), disk, inputs);
    if Batch(disk, inputs).error.Some? {
      var i :| 0 <= i < |inputs| && Converted(Bwf2Pbcore(), disk, inputs, i).Failure?
        && Batch(disk, inputs).error == Some(Converted(Bwf2Pbcore(), disk, inputs, i).error)
        && forall j :: 0 <= j < i ==> Converted(Bwf2Pbcore(), disk, inputs, j).Success?;
      BatchPrefixOk(disk, inputs, i);
      BatchFailure(disk, inputs, i);
      assert Batch(disk, inputs).error == Some(Reported(inputs[i]));
    }
  }

  /** What a file that does not convert reports: its blank subject field,
      or else the name of its companion. */
  function Reported(input: Input): (r: BuildError)
    requires HasAllKeys(input.record)
  {
    if !Layout.SubjectsOk(input.record) then BlankItem(Layout.BlankField(input.record))
    else MalformedCompanion(CompanionName(input.path))
  }

  /** The error of a file that does not convert. */
  lemma BatchFailure(disk: Disk, inputs: seq<Input>, i: int)
    requires Readable(inputs) && 0 <= i < |inputs|
    requires Converted(Bwf2Pbcore(), disk, inputs, i).Failure?
    ensures !(Layout.SubjectsOk(inputs[i].record) && Companion(disk, inputs[i].path).Success?)
    ensures Converted(Bwf2Pbcore(), disk, inputs, i).error == Reported(inputs[i])
  {
    BatchConverted(disk, inputs, i);
    ConvertOk(inputs[i], Companion(disk, inputs[i].path));
    ConvertError(inputs[i], Companion(disk, inputs[i].path));
  }

  /** The converter writes only output names and never a companion. */
  lemma BatchFrame(disk: Disk, inputs: seq<Input>, infile: string)
    requires Readable(inputs)
    ensures forall p :: (forall i :: 0 <= i < |inputs| ==> p != OutputName(inputs[i].path)) ==>
      (p in Batch(disk, inputs).disk <==> p in disk) && (p in disk ==> Batch(disk, inputs).disk[p] == disk[p])
    ensures Companion(Batch(disk, inputs).disk, infile) == Companion(disk, infile)
  {
    Bwf2PbcoreApart();
    RunKeepsOthers(Bwf2Pbcore(), disk, inputs);
    CompanionsUntouched(Bwf2Pbcore(), disk, inputs, infile);
  }

  /** After a successful run, the output of each audio file (the last one of
      files that share a name up to the extension) holds the file's document
      with its companion embedded. */
  lemma BatchOutputs(disk: Disk, inputs: seq<Input>, i: int)
    requires Readable(inputs) && 0 <= i < |inputs|
    requires Batch(disk, inputs).error.None?
    requires forall j :: i < j < |inputs| ==> OutputName(inputs[j].path) != OutputName(inputs[i].path)
    ensures var x, c := inputs[i], Companion(disk, inputs[i].path);
      && Layout.SubjectsOk(x.record) && c.Success?
      && OutputName(x.path) in Batch(disk, inputs).disk
      && Batch(disk, inputs).disk[OutputName(x.path)] == Parsed(Document(x.record, x.path, c.value).value)
  {
    Bwf2PbcoreApart();
    RunOutputs(Bwf2Pbcore(), disk, inputs, i);
    BatchConverted(disk, inputs, i);
    ConvertOk(inputs[i], Companion(disk, inputs[i].path));
    ConvertResult(inputs[i], Companion(disk, inputs[i].path));
  }

  /** One more file of a converter's run that has not failed yet. */
  lemma BatchStep(disk: Disk, inputs: seq<Input>, i: nat)
    requires Readable(inputs) && i < |inputs|
    ensures Applies(Bwf2Pbcore(), inputs[..i]) && Applies(Bwf2Pbcore(), inputs[..i + 1])
    ensures var before := RunFiles(Bwf2Pbcore(), disk, inputs[..i]);
      before.error.None? ==>
        RunFiles(Bwf2Pbcore(), disk, inputs[..i + 1]) ==
          match Convert(inputs[i], Companion(before.disk, inputs[i].path))
          case Success(doc) => Outcome(before.disk[OutputName(inputs[i].path) := Parsed(doc)], None)
          case Failure(e) => Outcome(before.disk, Some(e))
  {
    AppliesPrefix(Bwf2Pbcore(), inputs, i);
    AppliesPrefix(Bwf2Pbcore(), inputs, i + 1);
    assert inputs[..i + 1][..i] == inputs[..i];
  }

  /** The run, file by file. */
  method ConvertAll(disk: Disk, inputs: seq<Input>) returns (outcome: Outcome)
    requires Readable(inputs)
    ensures outcome == Batch(disk, inputs)
  {
    outcome := Outcome(disk, None);
    var i := 0;
    while i < |inputs| && outcome.error.None?
      invariant 0 <= i <= |inputs|
      invariant outcome == RunFiles(Bwf2Pbcore(), disk, inputs[..i])
    {
      BatchStep(disk, inputs, i);
      var input := inputs[i];
      var companion := Companion(outcome.disk, input.path);
      var doc := ConvertFile(input.record, input.path, if companion.Success? then companion.value else None);
      ConvertSteps(input, companion);
      if doc.Failure? {
        outcome := Outcome(outcome.disk, Some(doc.error));
      } else if companion.Failure? {
        outcome := Outcome(outcome.disk, Some(companion.error));
      } else {
        outcome := Outcome(outcome.disk[OutputName(input.path) := Parsed(doc.value)], None);
      }
      i := i + 1;
    }
    if i < |inputs| {
      ErrorSticks(Bwf2Pbcore(), disk, inputs, i);
    } else {
      assert inputs[..i] == inputs;
    }
  }
}
