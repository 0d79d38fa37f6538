/**
 * services/file_writer.go: the last stage, which writes one markdown file per
 * chapter into the output directory.
 */
module FileWriter {
  import opened Wrappers
  import opened Errors
  import opened GoStrings
  import opened Models
  import opened Oracles
  import FileWalker

  /** fmt's %02d: at least two characters, zero-padded after any sign. */
  function TwoDigits(n: int): (r: string)
    ensures |r| >= 2
  {
    if 0 <= n < 10 then "0" + FormatInt(n) else FormatInt(n)
  }

  lemma TwoDigitsPlain(n: int)
    ensures '_' !in TwoDigits(n)
  {
    FormatIntPlain(n, '_');
  }

  /** The padding is a leading zero, which Atoi reads past. */
  lemma TwoDigitsValue(n: int)
    ensures Atoi(TwoDigits(n)) == Ok(n)
  {
    if 0 <= n < 10 {
      var r := TwoDigits(n);
      assert r == ['0', DigitChar(n)];
      assert Unsigned(r) == r;
      assert r[..1] == "0" && r[..1][..0] == [];
      assert DigitsValue(r[..1]) == 0;
      assert DigitsValue(r) == n;
    } else {
      AtoiFormatInt(n);
    }
  }

  /** fmt.Sprintf("%02d_%s.md", number, stem). */
  function NumberedFileName(number: int, stem: string): string {
    TwoDigits(number) + "_" + stem + ".md"
  }

  /** The file name of a chapter: its number in two digits, then its sanitized title. */
  function FileName(ch: WriteChapterOutput): string {
    NumberedFileName(ch.chapterNumber, FileWalker.Sanitize(ch.title))
  }

  /** filepath.Join for a directory and a plain file name. */
  function JoinPath(dir: string, name: string): string {
    dir + "/" + name
  }

  function ChapterPath(dir: string, ch: WriteChapterOutput): string {
    JoinPath(dir, FileName(ch))
  }

  /** The text before the first underscore of a file name is the chapter's number. */
  lemma NumberedFileNameNumber(number: int, stem: string)
    ensures Contains(NumberedFileName(number, stem), "_")
    ensures Atoi(Before(NumberedFileName(number, stem), "_")) == Ok(number)
    ensures HasSuffix(NumberedFileName(number, stem), ".md")
  {
    var t := TwoDigits(number);
    var rest := stem + ".md";
    var f := NumberedFileName(number, stem);
    assert f == t + ['_'] + rest;
    TwoDigitsPlain(number);
    BeforeFirstChar(t, '_', rest);
    TwoDigitsValue(number);
    assert f[|f| - 3..] == ".md";
  }

  /** Chapters with different numbers are written to different paths. */
  lemma ChapterPathsDiffer(dir: string, a: WriteChapterOutput, b: WriteChapterOutput)
    requires a.chapterNumber != b.chapterNumber
    ensures ChapterPath(dir, a) != ChapterPath(dir, b)
  {
    var fa, fb := FileName(a), FileName(b);
    NumberedFileNameNumber(a.chapterNumber, FileWalker.Sanitize(a.title));
    NumberedFileNameNumber(b.chapterNumber, FileWalker.Sanitize(b.title));
    assert fa != fb;
    var p := dir + "/";
    assert ChapterPath(dir, a) == p + fa && ChapterPath(dir, b) == p + fb;
    assert (p + fa)[|p|..] == fa && (p + fb)[|p|..] == fb;
  }

  /** One write of a chapter file: the path and the content. */
  datatype Write = Write(path: string, content: string)

  /** How a chapter's file name is chosen. */
  type Namer = WriteChapterOutput -> string

  /** The write each chapter calls for, in order, with file names chosen by `name`. */
  function NamedWrites(dir: string, chapters: seq<WriteChapterOutput>, name: Namer): (ws: seq<Write>)
    ensures |ws| == |chapters|
  {
    if chapters == [] then []
    else
      var last := chapters[|chapters| - 1];
      NamedWrites(dir, chapters[..|chapters| - 1], name) + [Write(JoinPath(dir, name(last)), last.content)]
  }

  /** The write each chapter calls for, in order. */
  function ChapterWrites(dir: string, chapters: seq<WriteChapterOutput>): (ws: seq<Write>)
    ensures |ws| == |chapters|
  {
    NamedWrites(dir, chapters, FileName)
  }

  lemma {:induction false} NamedWriteAt(dir: string, chapters: seq<WriteChapterOutput>, name: Namer, i: nat)
    requires i < |chapters|
    ensures NamedWrites(dir, chapters, name)[i] == Write(JoinPath(dir, name(chapters[i])), chapters[i].content)
    decreases |chapters|
  {
    var init := chapters[..|chapters| - 1];
    if i < |init| {
      NamedWriteAt(dir, init, name, i);
      assert init[i] == chapters[i];
    }
  }

  lemma ChapterWriteAt(dir: string, chapters: seq<WriteChapterOutput>, i: nat)
    requires i < |chapters|
    ensures ChapterWrites(dir, chapters)[i] == Write(ChapterPath(dir, chapters[i]), chapters[i].content)
  {
    NamedWriteAt(dir, chapters, FileName, i);
  }

  predicate Succeeds(fs: FileSystem, w: Write) {
    fs.writeFile(w.path, w.content)
  }

  /** The position of the first write, from `from` on, that fails. */
  function FirstFailedWrite(fs: FileSystem, ws: seq<Write>, from: nat): (k: nat)
    requires from <= |ws|
    ensures from <= k <= |ws|
    ensures forall j :: from <= j < k ==> Succeeds(fs, ws[j])
    ensures k < |ws| ==> !Succeeds(fs, ws[k])
    decreases |ws| - from
  {
    if from == |ws| then from
    else if !Succeeds(fs, ws[from]) then from
    else FirstFailedWrite(fs, ws, from + 1)
  }

  /** The first failure is the only position with nothing but successes before it that fails. */
  lemma {:induction false} FirstFailedWriteUnique(fs: FileSystem, ws: seq<Write>, from: nat, k: nat)
    requires from <= k <= |ws|
    requires forall j :: from <= j < k ==> Succeeds(fs, ws[j])
    requires k < |ws| ==> !Succeeds(fs, ws[k])
    ensures FirstFailedWrite(fs, ws, from) == k
    decreases k - from
  {
    if from < k {
      FirstFailedWriteUnique(fs, ws, from + 1, k);
    }
  }

  function Paths(ws: seq<Write>): (paths: seq<string>)
    ensures |paths| == |ws| && forall i :: 0 <= i < |ws| ==> paths[i] == ws[i].path
  {
    seq(|ws|, i requires 0 <= i < |ws| => ws[i].path)
  }

  /** The directory is created before any file is attempted. */
  predicate DirectoryReady(fs: FileSystem, input: WriteMarkdownFilesInput) {
    input.outputDir != "" && fs.mkdirAll(input.outputDir)
  }

  /** What WriteMarkdownFiles returns. */
  function WriteOutcome(fs: FileSystem, input: WriteMarkdownFilesInput): (r: Result<WriteMarkdownFilesOutput, Error>)
    ensures input.outputDir == "" ==> r == Err(OutputDirRequired)
    ensures input.outputDir != "" && !fs.mkdirAll(input.outputDir) ==> r == Err(CreateDirFailed(input.outputDir))
    ensures r.Ok? ==> DirectoryReady(fs, input) && |r.value.filesWritten| == |input.chapters|
    ensures r.Ok? ==> var ws := ChapterWrites(input.outputDir, input.chapters);
      r.value.filesWritten == Paths(ws) && forall i :: 0 <= i < |ws| ==> Succeeds(fs, ws[i])
    ensures r.Err? && DirectoryReady(fs, input) ==> var ws := ChapterWrites(input.outputDir, input.chapters);
      exists k :: 0 <= k < |ws| && r.error == WriteFileFailed(FileName(input.chapters[k])) && !Succeeds(fs, ws[k])
  {
    if input.outputDir == "" then Err(OutputDirRequired)
    else if !fs.mkdirAll(input.outputDir) then Err(CreateDirFailed(input.outputDir))
    else
      var ws := ChapterWrites(input.outputDir, input.chapters);
      var k := FirstFailedWrite(fs, ws, 0);
      if k < |ws| then Err(WriteFileFailed(FileName(input.chapters[k])))
      else Ok(WriteMarkdownFilesOutput(Paths(ws)))
  }

  /** The writes made: every chapter up to and including the first that fails, in order. */
  function Attempts(fs: FileSystem, input: WriteMarkdownFilesInput): (ws: seq<Write>)
    ensures !DirectoryReady(fs, input) ==> ws == []
    ensures |ws| <= |input.chapters|
    ensures ws == ChapterWrites(input.outputDir, input.chapters)[..|ws|]
  {
    if !DirectoryReady(fs, input) then []
    else
      var all := ChapterWrites(input.outputDir, input.chapters);
      var k := FirstFailedWrite(fs, all, 0);
      all[..if k < |all| then k + 1 else k]
  }

  /** Chapters with distinct numbers give distinct written paths. */
  lemma WrittenPathsDistinct(fs: FileSystem, input: WriteMarkdownFilesInput)
    requires WriteOutcome(fs, input).Ok?
    requires forall i, j :: 0 <= i < j < |input.chapters| ==>
      input.chapters[i].chapterNumber != input.chapters[j].chapterNumber
    ensures var paths := WriteOutcome(fs, input).value.filesWritten;
      forall i, j :: 0 <= i < j < |paths| ==> paths[i] != paths[j]
  {
    var paths := WriteOutcome(fs, input).value.filesWritten;
    forall i, j | 0 <= i < j < |paths| ensures paths[i] != paths[j] {
      ChapterWriteAt(input.outputDir, input.chapters, i);
      ChapterWriteAt(input.outputDir, input.chapters, j);
      ChapterPathsDiffer(input.outputDir, input.chapters[i], input.chapters[j]);
    }
  }

  /**
   * On a write failure the stage stops: every attempted write before the last one
   * succeeded, the last one failed, and the error names that chapter's file.
   */
  lemma FailureStopsWriting(fs: FileSystem, input: WriteMarkdownFilesInput)
    requires DirectoryReady(fs, input) && WriteOutcome(fs, input).Err?
    ensures var ws := Attempts(fs, input);
      && ws != []
      && WriteOutcome(fs, input).error == WriteFileFailed(FileName(input.chapters[|ws| - 1]))
      && !Succeeds(fs, ws[|ws| - 1])
      && forall j :: 0 <= j < |ws| - 1 ==> Succeeds(fs, ws[j])
  {
    var all := ChapterWrites(input.outputDir, input.chapters);
    var k := FirstFailedWrite(fs, all, 0);
    var ws := Attempts(fs, input);
    assert k < |all| && ws == all[..k + 1];
  }

  /** The writes for a prefix of the chapters are that prefix of the writes. */
  lemma {:induction false} NamedWritesPrefix(dir: string, chapters: seq<WriteChapterOutput>, name: Namer, n: nat)
    requires n <= |chapters|
    ensures NamedWrites(dir, chapters[..n], name) == NamedWrites(dir, chapters, name)[..n]
    decreases |chapters|
  {
    if n < |chapters| {
      var init := chapters[..|chapters| - 1];
      assert init[..n] == chapters[..n];
      NamedWritesPrefix(dir, init, name, n);
    } else {
      assert chapters[..n] == chapters;
    }
  }

  /** The name of a chapter's file, step by step: sanitize the title, then format. */
  method ChapterFileName(chapter: WriteChapterOutput) returns (filename: string)
    ensures filename == FileName(chapter)
  {
    var sanitizedTitle := FileWalker.SanitizeFilename(chapter.title);
    filename := NumberedFileName(chapter.chapterNumber, sanitizedTitle);
  }

  /**
   * The loop over the chapters: names and writes each file in order and stops at
   * the first failure, returning its position, the writes made and the paths written.
   */
  method WriteEach(fs: FileSystem, dir: string, chapters: seq<WriteChapterOutput>, name: Namer)
      returns (k: nat, failedName: string, writes: seq<Write>, filesWritten: seq<string>)
    ensures k <= |chapters|
    ensures writes == NamedWrites(dir, chapters[..if k < |chapters| then k + 1 else k], name)
    ensures forall j :: 0 <= j < k ==> Succeeds(fs, writes[j])
    ensures k < |chapters| ==> !Succeeds(fs, writes[k]) && failedName == name(chapters[k])
    ensures k == |chapters| ==> filesWritten == Paths(writes)
  {
    writes := [];
    filesWritten := [];
    failedName := "";
    for i := 0 to |chapters|
      invariant writes == NamedWrites(dir, chapters[..i], name)
      invariant forall j :: 0 <= j < i ==> Succeeds(fs, writes[j])
      invariant filesWritten == Paths(writes)
    {
      var chapter := chapters[i];
      var filename := name(chapter);
      var filePath := JoinPath(dir, filename);
      var w := Write(filePath, chapter.content);
      var ok := fs.writeFile(filePath, chapter.content);
      assert chapters[..i + 1][..i] == chapters[..i];
      writes := writes + [w];
      if !ok {
        return i, filename, writes, filesWritten;
      }
      filesWritten := filesWritten + [w.path];
    }
    assert chapters[..|chapters|] == chapters;
    k := |chapters|;
  }

  /** The position where the write loop stops decides the stage's outcome and its writes. */
  lemma LoopDecides(fs: FileSystem, input: WriteMarkdownFilesInput, k: nat, writes: seq<Write>)
    requires DirectoryReady(fs, input) && k <= |input.chapters|
    requires writes == NamedWrites(input.outputDir,
      input.chapters[..if k < |input.chapters| then k + 1 else k], FileName)
    requires forall j :: 0 <= j < k ==> Succeeds(fs, writes[j])
    requires k < |input.chapters| ==> !Succeeds(fs, writes[k])
    ensures writes == Attempts(fs, input)
    ensures k < |input.chapters| ==> WriteOutcome(fs, input) == Err(WriteFileFailed(FileName(input.chapters[k])))
    ensures k == |input.chapters| ==> WriteOutcome(fs, input) == Ok(WriteMarkdownFilesOutput(Paths(writes)))
  {
    var all := ChapterWrites(input.outputDir, input.chapters);
    var n := if k < |input.chapters| then k + 1 else k;
    NamedWritesPrefix(input.outputDir, input.chapters, FileName, n);
    assert writes == all[..n];
    forall j | 0 <= j < k ensures Succeeds(fs, all[j]) {
      assert all[j] == writes[j];
    }
    assert k < |all| ==> all[k] == writes[k];
    FirstFailedWriteUnique(fs, all, 0, k);
    if k == |input.chapters| {
      assert writes == all;
    }
  }

  /** services/file_writer.go WriteMarkdownFiles; `writes` lists the writes it makes. */
  method WriteMarkdownFiles(fs: FileSystem, input: WriteMarkdownFilesInput)
      returns (r: Result<WriteMarkdownFilesOutput, Error>, writes: seq<Write>)
    ensures r == WriteOutcome(fs, input)
    ensures writes == Attempts(fs, input)
  {
    writes := [];
    if input.outputDir == "" {
      return Err(OutputDirRequired), writes;
    }
    if !fs.mkdirAll(input.outputDir) {
      return Err(CreateDirFailed(input.outputDir)), writes;
    }
    var k, failedName, filesWritten;
    k, failedName, writes, filesWritten := WriteEach(fs, input.outputDir, input.chapters, FileName);
    LoopDecides(fs, input, k, writes);
    if k < |input.chapters| {
      return Err(WriteFileFailed(failedName)), writes;
    }
    return Ok(WriteMarkdownFilesOutput(filesWritten)), writes;
  }
}
