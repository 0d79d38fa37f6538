/**
 * services/file_reader.go: the first stage, which walks the repository and numbers
 * the files it keeps.
 */
module FileReader {
  import opened Wrappers
  import opened Errors
  import opened Models
  import opened Oracles
  import FileWalker

  function WalkOptionsOf(input: ReadFilesInput): FileWalker.WalkOptions {
    FileWalker.WalkOptions(input.repoPath, input.includePatterns, input.excludePatterns,
      input.maxFileSize, input.maxFiles)
  }

  /** The walked files numbered by their position. */
  function Indexed(infos: seq<FileWalker.FileInfo>): (files: seq<FileContent>)
    ensures |files| == |infos| && IndexedFromZero(files)
    ensures forall i :: 0 <= i < |infos| ==>
      files[i].path == infos[i].relativePath && files[i].content == infos[i].content
  {
    seq(|infos|, i requires 0 <= i < |infos| => FileContent(i, infos[i].relativePath, infos[i].content))
  }

  /** What ReadFiles returns. */
  function ReadOutcome(fs: FileSystem, input: ReadFilesInput): (r: Result<ReadFilesOutput, Error>)
    ensures input.repoPath == "" ==> r == Err(RepoPathRequired)
    ensures r.Ok? ==> IndexedFromZero(r.value.files)
    ensures r.Ok? && input.maxFiles > 0 ==> |r.value.files| <= input.maxFiles
    ensures r.Ok? ==> forall i :: 0 <= i < |r.value.files| ==>
      && !FileWalker.MatchesAny(fs, input.excludePatterns, r.value.files[i].path)
      && (|input.includePatterns| == 0 || FileWalker.MatchesAny(fs, input.includePatterns, r.value.files[i].path))
    ensures r.Err? && input.repoPath != "" ==> r.error.WalkFailed?
  {
    if input.repoPath == "" then Err(RepoPathRequired)
    else
      match FileWalker.WalkResult(fs, WalkOptionsOf(input))
      case Err(e) => Err(WalkFailed(e))
      case Ok(infos) =>
        var files := Indexed(infos);
        assert forall i :: 0 <= i < |files| ==> files[i].path == infos[i].relativePath;
        Ok(ReadFilesOutput(files))
  }

  /**
   * Without traversal errors the stage returns exactly the walk's collected files,
   * in visiting order, each carrying its position as its index.
   */
  lemma ReadOutcomeWithoutErrors(fs: FileSystem, input: ReadFilesInput)
    requires input.repoPath != ""
    requires FileWalker.PatternError(fs, WalkOptionsOf(input)).None?
    requires FileWalker.NoErrors(fs.walk(input.repoPath))
    ensures var opts := WalkOptionsOf(input);
      ReadOutcome(fs, input) == Ok(ReadFilesOutput(Indexed(
        FileWalker.Take(FileWalker.Collected(fs, opts, fs.walk(input.repoPath)), input.maxFiles))))
  {
    FileWalker.WalkResultWithoutErrors(fs, WalkOptionsOf(input));
  }

  /** services/file_reader.go ReadFiles. */
  method ReadFiles(fs: FileSystem, input: ReadFilesInput) returns (r: Result<ReadFilesOutput, Error>)
    ensures r == ReadOutcome(fs, input)
  {
    if input.repoPath == "" {
      return Err(RepoPathRequired);
    }
    var walked := FileWalker.WalkDirectory(fs, WalkOptionsOf(input));
    if walked.Err? {
      return Err(WalkFailed(walked.error));
    }
    var infos := walked.value;
    var files := new FileContent[|infos|](i => FileContent(0, "", ""));
    for i := 0 to |infos|
      invariant forall k :: 0 <= k < i ==>
        files[k] == FileContent(k, infos[k].relativePath, infos[k].content)
    {
      files[i] := FileContent(i, infos[i].relativePath, infos[i].content);
    }
    assert files[..] == Indexed(infos);
    return Ok(ReadFilesOutput(files[..]));
  }
}
