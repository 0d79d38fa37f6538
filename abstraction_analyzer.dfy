/**
 * The abstraction stage (services/abstraction_analyzer.go), together with the two
 * pieces of response recovery every stage shares: the index reference resolver
 * `extractIndex` and the YAML fence extraction.
 */
module AbstractionAnalyzer {
  import opened Wrappers
  import opened Errors
  import opened GoStrings
  import opened Models
  import opened Oracles

  // ---------------------------------------------------------------------------
  // extractIndex: a bare int or a string "<int> # comment"
  // ---------------------------------------------------------------------------

  function ExtractIndex(value: YamlValue): Result<int, Error> {
    match value
    case IntV(i) => Ok(i)
    case StrV(s) =>
      if Contains(s, "#") then Atoi(TrimSpace(Before(s, "#"))) else Atoi(TrimSpace(s))
    case Other => Err(UnexpectedIndexType)
  }

  /** What the resolver does, case by case, with the two string branches as one. */
  lemma ExtractIndexCases(value: YamlValue)
    ensures value.IntV? ==> ExtractIndex(value) == Ok(value.i)
    ensures value.StrV? ==> ExtractIndex(value) == Atoi(TrimSpace(Before(value.s, "#")))
    ensures value.Other? ==> ExtractIndex(value) == Err(UnexpectedIndexType)
    ensures ExtractIndex(value).Err? <==>
      value.Other? || (value.StrV? && !IsDecimal(TrimSpace(Before(value.s, "#"))))
  {
  }

  /**
   * A numeral padded with white space is read back, whether or not a `#` comment
   * follows it; the comment itself is never looked at.
   */
  lemma ExtractIndexOfNumeral(n: int, pre: string, post: string, comment: string)
    requires AllSpace(pre) && AllSpace(post)
    ensures ExtractIndex(IntV(n)) == Ok(n)
    ensures ExtractIndex(StrV(pre + FormatInt(n) + post)) == Ok(n)
    ensures ExtractIndex(StrV(pre + FormatInt(n) + post + "#" + comment)) == Ok(n)
  {
    var t := pre + FormatInt(n) + post;
    FormatIntPlain(n, '#');
    FormatIntPlain(n, ' ');
    assert '#' !in t;
    NoCharNoOccurrence(t, '#');
    TrimSpaceOfPadded(pre, FormatInt(n), post);
    AtoiFormatInt(n);
    BeforeFirstChar(t, '#', comment);
  }

  /** The "<index> # <name>" entries the prompts list are exactly what the resolver accepts. */
  lemma ExtractIndexOfListingEntry(n: int, name: string)
    ensures ExtractIndex(StrV(FormatInt(n) + " # " + name)) == Ok(n)
  {
    var x := FormatInt(n);
    var t := x + " ";
    assert x + " # " + name == t + ['#'] + (" " + name);
    FormatIntPlain(n, '#');
    FormatIntPlain(n, ' ');
    assert '#' !in t;
    BeforeFirstChar(t, '#', " " + name);
    assert TrimSpace(t) == x by {
      TrimSpaceOfPadded("", x, " ");
      assert "" + x + " " == t;
    }
    AtoiFormatInt(n);
  }

  /** Text with no numeral before its comment is refused, as is any other YAML type. */
  lemma ExtractIndexRefusals(comment: string)
    ensures ExtractIndex(StrV("#" + comment)) == Err(InvalidSyntax(""))
    ensures ExtractIndex(Other) == Err(UnexpectedIndexType)
  {
    BeforeFirstChar("", '#', comment);
    assert "" + "#" + comment == "#" + comment;
  }

  // ---------------------------------------------------------------------------
  // Fence extraction (the same block in all three YAML-reading stages)
  // ---------------------------------------------------------------------------

  const Fence := "```"
  const YamlFence := "```yaml"

  /** `payload` is the text of `a` up to its first fence, or all of `a` when it has none. */
  predicate UpToFirstFence(a: string, payload: string) {
    && (IndexOf(a, Fence) != -1 ==> |payload| == IndexOf(a, Fence) && payload == a[..|payload|])
    && (IndexOf(a, Fence) == -1 ==> payload == a)
  }

  /** `payload` starts `a`, and what follows it in `a` is a fence or nothing. */
  predicate EndsAtFence(a: string, payload: string) {
    && |payload| <= |a| && a[..|payload|] == payload
    && (|payload| == |a| || HasPrefix(a[|payload|..], Fence))
  }

  lemma YamlFenceHasFence(s: string, i: int)
    requires OccursAt(s, YamlFence, i)
    ensures OccursAt(s, Fence, i)
  {
    assert s[i..i + 3] == s[i..i + 7][..3];
  }

  /**
   * The payload handed to yaml.Unmarshal. With a "```yaml" fence it is the text after
   * the first one up to a closing fence (or the end); otherwise, with any fence, the
   * text between the first and the second fence (or the end); otherwise the whole
   * response. It never contains a fence.
   */
  function ExtractYamlBlock(response: string): (payload: string)
    ensures !Contains(payload, Fence)
    ensures !Contains(response, Fence) ==> payload == response
    ensures Contains(response, YamlFence) ==> EndsAtFence(After(response, YamlFence), payload)
    ensures !Contains(response, YamlFence) && Contains(response, Fence) ==>
      UpToFirstFence(After(response, Fence), payload)
  {
    if Contains(response, YamlFence) then
      YamlFenceHasFence(response, IndexOf(response, YamlFence));
      var a := After(response, YamlFence);
      var b := Before(a, YamlFence);
      var c := Before(b, Fence);
      EndsAtFenceOfSplit(a, b, c);
      c
    else if Contains(response, Fence) then
      Before(After(response, Fence), Fence)
    else
      response
  }

  lemma EndsAtFenceOfSplit(a: string, b: string, c: string)
    requires b == Before(a, YamlFence) && c == Before(b, Fence)
    ensures EndsAtFence(a, c)
  {
    if Contains(b, Fence) {
      assert a[|c|..][..3] == b[|c|..|c| + 3];
    } else if Contains(a, YamlFence) {
      YamlFenceHasFence(a, |b|);
      assert a[|c|..][..3] == a[|b|..|b| + 3];
    }
  }

  /** A fence inside the first "```yaml" section ends the payload at its first fence. */
  lemma FirstFenceOfSplit(a: string, b: string, c: string)
    requires b == Before(a, YamlFence) && c == Before(b, Fence) && Contains(b, Fence)
    ensures IndexOf(a, Fence) == |c|
  {
    assert OccursAt(b, Fence, |c|);
    assert OccursAt(a, Fence, |c|) by {
      assert a[|c|..|c| + 3] == b[|c|..|c| + 3];
    }
    forall j | 0 <= j < |c| ensures !OccursAt(a, Fence, j) {
      assert !OccursAt(b, Fence, j);
      assert a[j..j + 3] == b[j..j + 3];
    }
  }

  /** Without one, the payload runs to the second "```yaml", or to a fence overlapping it. */
  lemma FirstFenceOfSection(a: string, b: string)
    requires b == Before(a, YamlFence) && !Contains(b, Fence) && Contains(a, YamlFence)
    requires b == [] || b[|b| - 1] != '`'
    ensures IndexOf(a, Fence) == |b|
  {
    YamlFenceHasFence(a, |b|);
    forall j | 0 <= j < |b| ensures !OccursAt(a, Fence, j) {
      if j + 3 <= |b| {
        assert !OccursAt(b, Fence, j);
        assert a[j..j + 3] == b[j..j + 3];
      } else {
        assert a[j..j + 3][|b| - 1 - j] == b[|b| - 1];
      }
    }
  }

  /**
   * After a "```yaml" fence the payload stops at the first closing fence, unless
   * it ends in a backtick: then the closing fence it stops at may overlap a later
   * "```yaml", as in "```yaml````yaml", whose payload is "`".
   */
  lemma ExtractYamlBlockTagged(response: string)
    requires Contains(response, YamlFence)
    requires var p := ExtractYamlBlock(response); p == [] || p[|p| - 1] != '`'
    ensures UpToFirstFence(After(response, YamlFence), ExtractYamlBlock(response))
  {
    var a := After(response, YamlFence);
    var b := Before(a, YamlFence);
    var c := Before(b, Fence);
    assert c == ExtractYamlBlock(response);
    if Contains(b, Fence) {
      FirstFenceOfSplit(a, b, c);
    } else if Contains(a, YamlFence) {
      FirstFenceOfSection(a, b);
    }
  }

  /** The overlap: "```yaml````yaml" yields a single backtick. */
  lemma ExtractYamlBlockOverlap()
    ensures ExtractYamlBlock("```yaml````yaml") == "`"
  {
    var r := "```yaml````yaml";
    assert OccursAt(r, YamlFence, 0);
    assert IndexOf(r, YamlFence) == 0;
    var a := After(r, YamlFence);
    assert a == "````yaml";
    assert OccursAt(a, YamlFence, 1);
    assert a[0..7][3] == '`';
    assert Before(a, YamlFence) == "`";
    assert !Contains("`", Fence);
  }

  // ---------------------------------------------------------------------------
  // The prompt
  // ---------------------------------------------------------------------------

  const FileContentLimit := 5000
  const FileTruncationMarker := "\n... (truncated)"
  const AbstractionsSystemPrompt :=
    "You are a code analysis expert helping developers understand unfamiliar codebases."
  const ListingHeader := "\n\nFILE LISTING (for reference):\n"
  const AbstractionsInstructions :=
    "\n\nYour task: Identify the 5-10 core abstractions/concepts in this codebase, as a YAML list of name, description and file indices.\n"

  function AbstractionsHeader(projectName: string): string {
    "You are analyzing the codebase for project \"" + projectName + "\".\n\nFILES:\n"
  }

  /** The part of a file's content the prompt shows. */
  function FileSample(content: string): string {
    Shorten(content, FileContentLimit, FileTruncationMarker)
  }

  function FileBlock(f: FileContent): string {
    "--- File Index " + FormatInt(f.index) + ": " + f.path + " ---\n" + FileSample(f.content) + "\n\n"
  }

  function FileListingLine(f: FileContent): string {
    "- " + FormatInt(f.index) + " # " + f.path + "\n"
  }

  /** The prompt; the instructions after the two listings are abbreviated. */
  function AbstractionsPrompt(input: AnalyzeAbstractionsInput): Prompt {
    Prompt(
      AbstractionsHeader(input.projectName) + Join(input.files, FileBlock)
        + ListingHeader + Join(input.files, FileListingLine) + AbstractionsInstructions,
      AbstractionsSystemPrompt)
  }

  /**
   * A file's block names the file's path and shows its content whole when it has at
   * most 5000 characters; a longer content shows its first 5000 characters and the
   * truncation marker.
   */
  lemma FileBlockShowsFile(f: FileContent)
    ensures Contains(FileBlock(f), f.path)
    ensures Contains(FileBlock(f), Head(f.content, FileContentLimit))
    ensures |f.content| > FileContentLimit ==> Contains(FileBlock(f), FileTruncationMarker)
  {
    var head := "--- File Index " + FormatInt(f.index) + ": ";
    var sample := FileSample(f.content);
    ContainsPiece(head, f.path, " ---\n" + sample + "\n\n");
    assert head + f.path + (" ---\n" + sample + "\n\n") == FileBlock(f);
    ShortenShowsHead(f.content, FileContentLimit, FileTruncationMarker);
    ContainsWithin(head + f.path + " ---\n", sample, "\n\n", Head(f.content, FileContentLimit));
    if |f.content| > FileContentLimit {
      ContainsWithin(head + f.path + " ---\n", sample, "\n\n", FileTruncationMarker);
    }
  }

  /** The prompt holds the block of every file, and so the head of its content. */
  lemma AbstractionsPromptShowsEveryFile(input: AnalyzeAbstractionsInput, k: nat)
    requires k < |input.files|
    ensures Contains(AbstractionsPrompt(input).user, FileBlock(input.files[k]))
    ensures Contains(AbstractionsPrompt(input).user, Head(input.files[k].content, FileContentLimit))
  {
    var files := input.files;
    var blocks := Join(files, FileBlock);
    var rest := ListingHeader + Join(files, FileListingLine) + AbstractionsInstructions;
    JoinAt(files, FileBlock, k);
    OccursInMiddle(Join(files[..k], FileBlock), FileBlock(files[k]), Join(files[k + 1..], FileBlock));
    RegroupTail(AbstractionsHeader(input.projectName), blocks, ListingHeader, Join(files, FileListingLine), AbstractionsInstructions);
    ContainsWithin(AbstractionsHeader(input.projectName), blocks, rest, FileBlock(files[k]));
    FileBlockShowsFile(files[k]);
    ContainsTransitive(AbstractionsPrompt(input).user, FileBlock(files[k]), Head(files[k].content, FileContentLimit));
  }

  /**
   * The prompt lists every file by a "<index> # <path>" reference, which the
   * resolver reads back as the file's index.
   */
  lemma AbstractionsPromptListsEveryFile(input: AnalyzeAbstractionsInput, k: nat)
    requires k < |input.files|
    ensures Contains(AbstractionsPrompt(input).user, FileListingLine(input.files[k]))
    ensures ExtractIndex(StrV(FormatInt(input.files[k].index) + " # " + input.files[k].path))
      == Ok(input.files[k].index)
  {
    var files := input.files;
    var lines := Join(files, FileListingLine);
    JoinAt(files, FileListingLine, k);
    OccursInMiddle(Join(files[..k], FileListingLine), FileListingLine(files[k]), Join(files[k + 1..], FileListingLine));
    ContainsWithin(AbstractionsHeader(input.projectName) + Join(files, FileBlock) + ListingHeader,
      lines, AbstractionsInstructions, FileListingLine(files[k]));
    ExtractIndexOfListingEntry(files[k].index, files[k].path);
  }

  /** The body of the first builder loop: a header line, the sample and a blank line. */
  method FormatFileBlock(file: FileContent) returns (block: string)
    ensures block == FileBlock(file)
  {
    var content := file.content;
    if |content| > FileContentLimit {
      content := content[..FileContentLimit] + FileTruncationMarker;
    }
    block := "--- File Index " + FormatInt(file.index) + ": " + file.path + " ---\n" + content + "\n\n";
  }

  /** The first builder loop: one block per file. */
  method BuildFilesContext(files: seq<FileContent>) returns (text: string)
    ensures text == Join(files, FileBlock)
  {
    var contextBuilder := "";
    var i := 0;
    while i < |files|
      invariant 0 <= i <= |files|
      invariant contextBuilder == Join(files[..i], FileBlock)
    {
      var block := FormatFileBlock(files[i]);
      JoinSnoc(files, FileBlock, i);
      contextBuilder := contextBuilder + block;
      i := i + 1;
    }
    assert files[..|files|] == files;
    text := contextBuilder;
  }

  /** The second builder loop: one listing line per file. */
  method BuildFileListing(files: seq<FileContent>) returns (text: string)
    ensures text == Join(files, FileListingLine)
  {
    var fileListBuilder := "";
    var i := 0;
    while i < |files|
      invariant 0 <= i <= |files|
      invariant fileListBuilder == Join(files[..i], FileListingLine)
    {
      JoinSnoc(files, FileListingLine, i);
      fileListBuilder := fileListBuilder + ("- " + FormatInt(files[i].index) + " # " + files[i].path + "\n");
      i := i + 1;
    }
    assert files[..|files|] == files;
    text := fileListBuilder;
  }

  method BuildAbstractionsPrompt(input: AnalyzeAbstractionsInput) returns (prompt: Prompt)
    ensures prompt == AbstractionsPrompt(input)
  {
    var context := BuildFilesContext(input.files);
    var listing := BuildFileListing(input.files);
    prompt := Prompt(
      AbstractionsHeader(input.projectName) + context + ListingHeader + listing + AbstractionsInstructions,
      AbstractionsSystemPrompt);
  }

  // ---------------------------------------------------------------------------
  // Validation, truncation and re-indexing
  // ---------------------------------------------------------------------------

  predicate ValidFileIndex(f: int, fileCount: int) {
    0 <= f < fileCount
  }

  predicate ValidFileIndices(a: YamlAbstraction, fileCount: int) {
    forall j :: 0 <= j < |a.files| ==> ValidFileIndex(a.files[j], fileCount)
  }

  /** The first out-of-range value of `files`. */
  function FirstInvalidIndex(files: seq<int>, fileCount: int): int
    requires exists j :: 0 <= j < |files| && !ValidFileIndex(files[j], fileCount)
  {
    if !ValidFileIndex(files[0], fileCount) then files[0]
    else
      assert exists j :: 0 <= j < |files[1..]| && !ValidFileIndex(files[1..][j], fileCount) by {
        var j :| 0 <= j < |files| && !ValidFileIndex(files[j], fileCount);
        assert files[1..][j - 1] == files[j];
      }
      FirstInvalidIndex(files[1..], fileCount)
  }

  /** The error for the first abstraction that names an out-of-range file. */
  function FirstInvalid(kept: seq<YamlAbstraction>, fileCount: int): Error
    requires exists i :: 0 <= i < |kept| && !ValidFileIndices(kept[i], fileCount)
  {
    if !ValidFileIndices(kept[0], fileCount) then
      InvalidFileIndex(FirstInvalidIndex(kept[0].files, fileCount), kept[0].name)
    else
      assert exists i :: 0 <= i < |kept[1..]| && !ValidFileIndices(kept[1..][i], fileCount) by {
        var i :| 0 <= i < |kept| && !ValidFileIndices(kept[i], fileCount);
        assert kept[1..][i - 1] == kept[i];
      }
      FirstInvalid(kept[1..], fileCount)
  }

  /** Each entry becomes the abstraction whose index is its position. */
  function Reindexed(kept: seq<YamlAbstraction>): seq<Abstraction> {
    seq(|kept|, i requires 0 <= i < |kept| =>
      Abstraction(i, kept[i].name, kept[i].description, kept[i].files))
  }

  function ValidatedAbstractions(kept: seq<YamlAbstraction>, fileCount: int): Result<seq<Abstraction>, Error> {
    if forall i :: 0 <= i < |kept| ==> ValidFileIndices(kept[i], fileCount) then Ok(Reindexed(kept))
    else Err(FirstInvalid(kept, fileCount))
  }

  lemma {:induction false} FirstInvalidIndexAt(files: seq<int>, fileCount: int, j: nat)
    requires j < |files| && !ValidFileIndex(files[j], fileCount)
    requires forall k :: 0 <= k < j ==> ValidFileIndex(files[k], fileCount)
    ensures FirstInvalidIndex(files, fileCount) == files[j]
  {
    if j > 0 {
      assert forall k :: 0 <= k < j - 1 ==> files[1..][k] == files[k + 1];
      FirstInvalidIndexAt(files[1..], fileCount, j - 1);
    }
  }

  /**
   * The stage's error names the first out-of-range index, scanning abstractions in
   * order and each one's files in order, and that abstraction's name.
   */
  lemma {:induction false} FirstInvalidAt(kept: seq<YamlAbstraction>, fileCount: int, i: nat, j: nat)
    requires i < |kept| && j < |kept[i].files|
    requires forall k :: 0 <= k < i ==> ValidFileIndices(kept[k], fileCount)
    requires forall k :: 0 <= k < j ==> ValidFileIndex(kept[i].files[k], fileCount)
    requires !ValidFileIndex(kept[i].files[j], fileCount)
    ensures FirstInvalid(kept, fileCount) == InvalidFileIndex(kept[i].files[j], kept[i].name)
  {
    if i == 0 {
      FirstInvalidIndexAt(kept[0].files, fileCount, j);
    } else {
      assert forall k :: 0 <= k < i - 1 ==> kept[1..][k] == kept[k + 1];
      FirstInvalidAt(kept[1..], fileCount, i - 1, j);
    }
  }

  /** On success every abstraction sits at its own index and names only existing files. */
  lemma ValidatedAbstractionsSound(kept: seq<YamlAbstraction>, fileCount: int)
    ensures var r := ValidatedAbstractions(kept, fileCount);
      r.Ok? <==> forall i :: 0 <= i < |kept| ==> ValidFileIndices(kept[i], fileCount)
    ensures var r := ValidatedAbstractions(kept, fileCount);
      r.Ok? ==>
        && AbstractionsWellFormed(r.value, fileCount)
        && |r.value| == |kept|
        && forall i :: 0 <= i < |kept| ==>
             r.value[i].name == kept[i].name && r.value[i].description == kept[i].description
             && r.value[i].fileIndices == kept[i].files
  {
  }

  /** The nested validation loop that fills `abstractions[i]`. */
  method ValidateAbstractions(kept: seq<YamlAbstraction>, fileCount: int)
    returns (r: Result<seq<Abstraction>, Error>)
    ensures r == ValidatedAbstractions(kept, fileCount)
  {
    var abstractions := new Abstraction[|kept|];
    var i := 0;
    while i < |kept|
      invariant 0 <= i <= |kept|
      invariant forall k :: 0 <= k < i ==> ValidFileIndices(kept[k], fileCount)
      invariant forall k :: 0 <= k < i ==> abstractions[k] == Reindexed(kept)[k]
    {
      var ya := kept[i];
      var j := 0;
      while j < |ya.files|
        invariant 0 <= j <= |ya.files|
        invariant forall k :: 0 <= k < j ==> ValidFileIndex(ya.files[k], fileCount)
      {
        var fileIdx := ya.files[j];
        if fileIdx < 0 || fileIdx >= fileCount {
          FirstInvalidAt(kept, fileCount, i, j);
          return Err(InvalidFileIndex(fileIdx, ya.name));
        }
        j := j + 1;
      }
      abstractions[i] := Abstraction(i, ya.name, ya.description, ya.files);
      i := i + 1;
    }
    assert abstractions[..] == Reindexed(kept);
    r := Ok(abstractions[..]);
  }

  // ---------------------------------------------------------------------------
  // The stage
  // ---------------------------------------------------------------------------

  /** Fence extraction and unmarshalling; a parse failure carries the raw response. */
  function ParseAbstractions(backend: Backend, response: string): (r: Result<seq<YamlAbstraction>, Error>)
    ensures r.Err? ==> r.error.YamlParseFailed? && r.error.response == response
  {
    match backend.unmarshalAbstractions(ExtractYamlBlock(response))
    case Ok(parsed) => Ok(parsed)
    case Err(e) => Err(YamlParseFailed(e, response))
  }

  /** The first `max` entries of a longer list; the list itself otherwise. */
  function KeepAtMost<T>(xs: seq<T>, max: nat): (r: seq<T>)
    ensures |r| == if |xs| > max then max else |xs|
    ensures r == xs[..|r|]
  {
    if |xs| > max then xs[..max] else xs
  }

  /**
   * What AnalyzeAbstractions returns. An empty corpus fails first; a generator or
   * parse failure is passed on; an empty list fails; a longer list is cut to
   * `maxAbstractions` entries and only the kept ones are checked.
   */
  function AbstractionsOutcome(input: AnalyzeAbstractionsInput, backend: Backend): (r: Result<AnalyzeAbstractionsOutput, Error>)
    requires input.maxAbstractions >= 0
    ensures |input.files| == 0 ==> r == Err(NoFilesProvided)
    ensures r.Ok? ==> AbstractionsWellFormed(r.value.abstractions, |input.files|)
    ensures r.Ok? ==> |r.value.abstractions| <= input.maxAbstractions
    ensures r.Ok? && input.maxAbstractions > 0 ==> |r.value.abstractions| > 0
  {
    if |input.files| == 0 then Err(NoFilesProvided)
    else
      match backend.generate(AbstractionsPrompt(input))
      case Err(e) => Err(LlmCallFailed(e))
      case Ok(response) =>
        match ParseAbstractions(backend, response)
        case Err(e) => Err(e)
        case Ok(parsed) =>
          if |parsed| == 0 then Err(NoAbstractionsIdentified)
          else
            var kept := KeepAtMost(parsed, input.maxAbstractions);
            ValidatedAbstractionsSound(kept, |input.files|);
            match ValidatedAbstractions(kept, |input.files|)
            case Err(e) => Err(e)
            case Ok(abstractions) => Ok(AnalyzeAbstractionsOutput(abstractions))
  }

  /**
   * Truncation cuts rather than rejects, and the entries it drops are never checked:
   * when the kept prefix is valid the stage succeeds, whatever the dropped entries
   * name, and returns the kept entries in order with their positions as indices.
   */
  lemma AbstractionsOutcomeOfParsed(input: AnalyzeAbstractionsInput, backend: Backend, parsed: seq<YamlAbstraction>)
    requires input.maxAbstractions >= 0 && |input.files| > 0
    requires backend.generate(AbstractionsPrompt(input)).Ok?
    requires ParseAbstractions(backend, backend.generate(AbstractionsPrompt(input)).value) == Ok(parsed)
    ensures |parsed| == 0 ==> AbstractionsOutcome(input, backend) == Err(NoAbstractionsIdentified)
    ensures var kept := KeepAtMost(parsed, input.maxAbstractions);
      |parsed| > 0 && (forall i :: 0 <= i < |kept| ==> ValidFileIndices(kept[i], |input.files|)) ==>
        AbstractionsOutcome(input, backend) == Ok(AnalyzeAbstractionsOutput(Reindexed(kept)))
    ensures var kept := KeepAtMost(parsed, input.maxAbstractions);
      |parsed| > 0 && (exists i :: 0 <= i < |kept| && !ValidFileIndices(kept[i], |input.files|)) ==>
        AbstractionsOutcome(input, backend) == Err(FirstInvalid(kept, |input.files|))
  {
  }

  /**
   * services/abstraction_analyzer.go AnalyzeAbstractions. `calls` lists the requests
   * sent to the generator: none when the corpus is empty, one otherwise.
   */
  method AnalyzeAbstractions(input: AnalyzeAbstractionsInput, backend: Backend)
    returns (r: Result<AnalyzeAbstractionsOutput, Error>, calls: seq<Prompt>)
    requires input.maxAbstractions >= 0  // a negative bound makes the slice expression panic
    ensures r == AbstractionsOutcome(input, backend)
    ensures calls == if |input.files| == 0 then [] else [AbstractionsPrompt(input)]
  {
    calls := [];
    if |input.files| == 0 {
      return Err(NoFilesProvided), calls;
    }
    var prompt := BuildAbstractionsPrompt(input);
    calls := calls + [prompt];
    var response := backend.generate(prompt);
    if response.Err? {
      return Err(LlmCallFailed(response.error)), calls;
    }
    var yamlContent := response.value;
    if Contains(response.value, YamlFence) {
      yamlContent := ExtractYamlBlock(response.value);
    } else if Contains(response.value, Fence) {
      yamlContent := ExtractYamlBlock(response.value);
    }
    var parsed := backend.unmarshalAbstractions(yamlContent);
    if parsed.Err? {
      return Err(YamlParseFailed(parsed.error, response.value)), calls;
    }
    var yamlAbstractions := parsed.value;
    if |yamlAbstractions| == 0 {
      return Err(NoAbstractionsIdentified), calls;
    }
    if |yamlAbstractions| > input.maxAbstractions {
      yamlAbstractions := yamlAbstractions[..input.maxAbstractions];
    }
    var validated := ValidateAbstractions(yamlAbstractions, |input.files|);
    if validated.Err? {
      return Err(validated.error), calls;
    }
    r := Ok(AnalyzeAbstractionsOutput(validated.value));
  }
}
