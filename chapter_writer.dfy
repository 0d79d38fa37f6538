/**
 * The chapter stage (services/chapter_writer.go): one markdown chapter per
 * abstraction, from its related files and the summaries of the chapters before it,
 * with a code fence around the whole answer removed.
 */
module ChapterWriter {
  import opened Wrappers
  import opened Errors
  import opened GoStrings
  import opened Models
  import opened Oracles

  // ---------------------------------------------------------------------------
  // The prompt
  // ---------------------------------------------------------------------------

  const ContentLimit := 8000
  const ContentMarker := "\n... (truncated for brevity)"
  const FilesHeader := "Related code files:\n\n"
  const PreviousHeader := "\n\nPREVIOUSLY COVERED CONCEPTS (for reference, don't repeat):\n"
  const ChapterSystemPrompt :=
    "You are an expert technical educator who excels at explaining complex code in simple terms."

  /** The section of one related file; an index past the corpus is skipped. */
  function FileSection(files: seq<FileContent>, fileIdx: int): string {
    if 0 <= fileIdx < |files| then
      "### File: " + files[fileIdx].path + "\n" + "```\n"
        + Shorten(files[fileIdx].content, ContentLimit, ContentMarker) + "\n```\n\n"
    else ""
  }

  function FileSections(files: seq<FileContent>): int -> string {
    fileIdx => FileSection(files, fileIdx)
  }

  function FileContext(files: seq<FileContent>, fileIndices: seq<int>): string {
    FilesHeader + Join(fileIndices, FileSections(files))
  }

  function PreviousLine(prev: ChapterSummary): string {
    "- " + prev.name + ": " + prev.summary + "\n"
  }

  /** The previous-chapters block: nothing at all for the first chapter. */
  function PreviousChaptersContext(previous: seq<ChapterSummary>): string {
    if |previous| > 0 then PreviousHeader + Join(previous, PreviousLine) else ""
  }

  function ChapterHeader(projectName: string, a: Abstraction): string {
    "You are writing a tutorial chapter for the \"" + projectName + "\" project.\n\n"
      + "ABSTRACTION TO EXPLAIN:\nName: " + a.name + "\nDescription: " + a.description + "\n\n"
  }

  const TaskStatement :=
    "\n\nYour task: Write a beginner-friendly tutorial chapter explaining this abstraction, in markdown.\n\nSTRUCTURE YOUR CHAPTER:\n# "

  /** The prompt; the fixed instructions are abbreviated, the chapter heading kept. */
  function ChapterPrompt(input: WriteChapterInput): Prompt {
    Prompt(
      ChapterHeader(input.projectName, input.abstraction)
        + FileContext(input.files, input.abstraction.fileIndices) + "\n\n"
        + PreviousChaptersContext(input.previousChapters)
        + TaskStatement + input.abstraction.name + "\n",
      ChapterSystemPrompt)
  }

  /**
   * A related file inside the corpus is shown with its path and its content whole when
   * it has at most 8000 characters; a longer content shows its first 8000 characters
   * and the marker.
   */
  lemma FileSectionShowsFile(files: seq<FileContent>, fileIdx: int)
    requires 0 <= fileIdx < |files|
    ensures Contains(FileSection(files, fileIdx), files[fileIdx].path)
    ensures Contains(FileSection(files, fileIdx), Head(files[fileIdx].content, ContentLimit))
    ensures |files[fileIdx].content| > ContentLimit ==> Contains(FileSection(files, fileIdx), ContentMarker)
  {
    var f := files[fileIdx];
    var shown := Shorten(f.content, ContentLimit, ContentMarker);
    ContainsPiece("### File: ", f.path, "\n" + "```\n" + shown + "\n```\n\n");
    assert "### File: " + f.path + ("\n" + "```\n" + shown + "\n```\n\n") == FileSection(files, fileIdx);
    ShortenShowsHead(f.content, ContentLimit, ContentMarker);
    ContainsWithin("### File: " + f.path + "\n" + "```\n", shown, "\n```\n\n", Head(f.content, ContentLimit));
    if |f.content| > ContentLimit {
      ContainsWithin("### File: " + f.path + "\n" + "```\n", shown, "\n```\n\n", ContentMarker);
    }
  }

  /**
   * The file context holds the section of every related file, and so the path and the
   * head of the content of each one inside the corpus.
   */
  lemma FileContextShowsEveryFile(files: seq<FileContent>, fileIndices: seq<int>, j: nat)
    requires j < |fileIndices|
    ensures Contains(FileContext(files, fileIndices), FileSection(files, fileIndices[j]))
    ensures 0 <= fileIndices[j] < |files| ==>
      && Contains(FileContext(files, fileIndices), files[fileIndices[j]].path)
      && Contains(FileContext(files, fileIndices), Head(files[fileIndices[j]].content, ContentLimit))
  {
    var render := FileSections(files);
    JoinAt(fileIndices, render, j);
    OccursInMiddle(Join(fileIndices[..j], render), render(fileIndices[j]), Join(fileIndices[j + 1..], render));
    ContainsWithin(FilesHeader, Join(fileIndices, render), "", render(fileIndices[j]));
    assert FilesHeader + Join(fileIndices, render) + "" == FileContext(files, fileIndices);
    var idx := fileIndices[j];
    if 0 <= idx < |files| {
      FileSectionShowsFile(files, idx);
      ContainsTransitive(FileContext(files, fileIndices), FileSection(files, idx), files[idx].path);
      ContainsTransitive(FileContext(files, fileIndices), FileSection(files, idx), Head(files[idx].content, ContentLimit));
    }
  }

  /**
   * The first chapter gets no previous-chapters block; every later one gets the
   * block, holding one line per earlier chapter.
   */
  lemma PreviousChaptersShown(previous: seq<ChapterSummary>, k: nat)
    requires k < |previous|
    ensures PreviousChaptersContext([]) == ""
    ensures HasPrefix(PreviousChaptersContext(previous), PreviousHeader)
    ensures Contains(PreviousChaptersContext(previous), PreviousLine(previous[k]))
  {
    JoinAt(previous, PreviousLine, k);
    OccursInMiddle(Join(previous[..k], PreviousLine), PreviousLine(previous[k]), Join(previous[k + 1..], PreviousLine));
    ContainsWithin(PreviousHeader, Join(previous, PreviousLine), "", PreviousLine(previous[k]));
    assert PreviousHeader + Join(previous, PreviousLine) + "" == PreviousChaptersContext(previous);
  }

  /** The chapter prompt shows the path and the head of every related file in the corpus. */
  lemma ChapterPromptShowsFiles(input: WriteChapterInput, j: nat)
    requires j < |input.abstraction.fileIndices|
    requires 0 <= input.abstraction.fileIndices[j] < |input.files|
    ensures var f := input.files[input.abstraction.fileIndices[j]];
      && Contains(ChapterPrompt(input).user, f.path)
      && Contains(ChapterPrompt(input).user, Head(f.content, ContentLimit))
  {
    var f := input.files[input.abstraction.fileIndices[j]];
    var header := ChapterHeader(input.projectName, input.abstraction);
    var context := FileContext(input.files, input.abstraction.fileIndices);
    var previous := PreviousChaptersContext(input.previousChapters);
    PromptRegroup(header, context, "\n\n", previous, TaskStatement, input.abstraction.name, "\n");
    var rest := "\n\n" + previous + TaskStatement + input.abstraction.name + "\n";
    FileContextShowsEveryFile(input.files, input.abstraction.fileIndices, j);
    ContainsWithin(header, context, rest, f.path);
    ContainsWithin(header, context, rest, Head(f.content, ContentLimit));
  }

  lemma PromptRegroup(a: string, b: string, c: string, d: string, e: string, f: string, g: string)
    ensures a + b + c + d + e + f + g == a + b + (c + d + e + f + g)
  {
  }

  /** The chapter prompt shows the summary line of every earlier chapter. */
  lemma ChapterPromptShowsPrevious(input: WriteChapterInput, k: nat)
    requires k < |input.previousChapters|
    ensures Contains(ChapterPrompt(input).user, PreviousLine(input.previousChapters[k]))
  {
    var front := ChapterHeader(input.projectName, input.abstraction)
      + FileContext(input.files, input.abstraction.fileIndices) + "\n\n";
    var back := TaskStatement + input.abstraction.name + "\n";
    PreviousChaptersShown(input.previousChapters, k);
    ContainsWithin(front, PreviousChaptersContext(input.previousChapters), back, PreviousLine(input.previousChapters[k]));
    assert front + PreviousChaptersContext(input.previousChapters) + back == ChapterPrompt(input).user;
  }

  /** The file-context loop. */
  method BuildFileContext(files: seq<FileContent>, fileIndices: seq<int>) returns (text: string)
    requires forall j :: 0 <= j < |fileIndices| ==> fileIndices[j] >= 0  // a negative index panics
    ensures text == FileContext(files, fileIndices)
  {
    var sections := "";
    var j := 0;
    while j < |fileIndices|
      invariant 0 <= j <= |fileIndices|
      invariant sections == Join(fileIndices[..j], FileSections(files))
    {
      var fileIdx := fileIndices[j];
      JoinSnoc(fileIndices, FileSections(files), j);
      if fileIdx >= |files| {
        assert sections + FileSection(files, fileIdx) == sections;
      } else {
        var file := files[fileIdx];
        var content := file.content;
        if |content| > ContentLimit {
          content := content[..ContentLimit] + ContentMarker;
        }
        var section := "### File: " + file.path + "\n" + "```\n" + content + "\n```\n\n";
        assert section == FileSection(files, fileIdx);
        sections := sections + section;
      }
      j := j + 1;
    }
    assert fileIndices[..|fileIndices|] == fileIndices;
    text := FilesHeader + sections;
  }

  /** The previous-chapters loop. */
  method BuildPreviousChapters(previous: seq<ChapterSummary>) returns (text: string)
    ensures text == PreviousChaptersContext(previous)
  {
    text := "";
    if |previous| > 0 {
      var lines := "";
      var i := 0;
      while i < |previous|
        invariant 0 <= i <= |previous|
        invariant lines == Join(previous[..i], PreviousLine)
      {
        JoinSnoc(previous, PreviousLine, i);
        lines := lines + ("- " + previous[i].name + ": " + previous[i].summary + "\n");
        i := i + 1;
      }
      assert previous[..|previous|] == previous;
      text := PreviousHeader + lines;
    }
  }

  method BuildChapterPrompt(input: WriteChapterInput) returns (prompt: Prompt)
    requires forall j :: 0 <= j < |input.abstraction.fileIndices| ==> input.abstraction.fileIndices[j] >= 0
    ensures prompt == ChapterPrompt(input)
  {
    var fileContext := BuildFileContext(input.files, input.abstraction.fileIndices);
    var previousChaptersContext := BuildPreviousChapters(input.previousChapters);
    prompt := Prompt(
      ChapterHeader(input.projectName, input.abstraction)
        + fileContext + "\n\n"
        + previousChaptersContext
        + TaskStatement + input.abstraction.name + "\n",
      ChapterSystemPrompt);
  }

  // ---------------------------------------------------------------------------
  // Response clean-up
  // ---------------------------------------------------------------------------

  const MarkdownFence := "```markdown"
  const CodeFence := "```"

  /** `content` without the opening fence `open` and one closing fence, trimmed. */
  function StripFence(content: string, open: string): (r: string)
    ensures IsTrimmed(r) && |r| <= |content|
  {
    TrimSpace(TrimSuffix(TrimPrefix(content, open), CodeFence))
  }

  /**
   * The chapter text: the trimmed answer, and when it opens with a fence (tagged
   * "markdown" or not), without that opening fence and one closing fence, trimmed
   * again.
   */
  function CleanResponse(response: string): (content: string)
    ensures IsTrimmed(content)
    ensures |content| <= |response|
  {
    var content := TrimSpace(response);
    if HasPrefix(content, MarkdownFence) then StripFence(content, MarkdownFence)
    else if HasPrefix(content, CodeFence) then StripFence(content, CodeFence)
    else content
  }

  lemma MarkdownFenceIsFence(s: string)
    ensures HasPrefix(s, MarkdownFence) ==> HasPrefix(s, CodeFence)
  {
    if HasPrefix(s, MarkdownFence) {
      assert s[..3] == s[..11][..3];
    }
  }

  /** An answer that does not open with a fence is only trimmed. */
  lemma CleanUnfenced(response: string)
    requires !HasPrefix(TrimSpace(response), CodeFence)
    ensures CleanResponse(response) == TrimSpace(response)
  {
    MarkdownFenceIsFence(TrimSpace(response));
  }

  lemma StripFenceOfWrapped(pre: string, fence: string, body: string, post: string)
    requires IsTrimmed(body) && AllSpace(pre) && AllSpace(post)
    ensures StripFence(fence + pre + body + post + CodeFence, fence) == body
  {
    var s := fence + pre + body + post + CodeFence;
    assert s == fence + (pre + body + post + CodeFence);
    assert HasPrefix(s, fence);
    var u := TrimPrefix(s, fence);
    assert u == pre + body + post + CodeFence;
    assert HasSuffix(u, CodeFence);
    assert TrimSuffix(u, CodeFence) == pre + body + post;
    TrimSpaceOfPadded(pre, body, post);
  }

  /** A text opening and closing with a backtick is left alone by trimming. */
  lemma FencedIsTrimmed(s: string)
    requires |s| > 0 && s[0] == '`' && s[|s| - 1] == '`'
    ensures TrimSpace(s) == s
  {
    TrimSpaceOfPadded([], s, []);
    assert [] + s + [] == s;
  }

  lemma CleanOpened(response: string, fence: string)
    requires fence == MarkdownFence || (fence == CodeFence && !HasPrefix(TrimSpace(response), MarkdownFence))
    requires HasPrefix(TrimSpace(response), fence)
    ensures CleanResponse(response) == StripFence(TrimSpace(response), fence)
  {
  }

  lemma PrefixOfAppend(p: string, rest: string)
    ensures HasPrefix(p + rest, p)
  {
    assert (p + rest)[..|p|] == p;
  }

  lemma UntaggedFence(s: string)
    requires |s| > 3 && s[3] == '\n'
    ensures !HasPrefix(s, MarkdownFence)
  {
    assert |s| >= 11 ==> s[..11][3] == s[3];
  }

  /** A trimmed chapter wrapped in a markdown fence on lines of its own comes back unchanged. */
  lemma CleanMarkdownFenced(body: string)
    requires IsTrimmed(body)
    ensures CleanResponse(MarkdownFence + "\n" + body + "\n" + CodeFence) == body
  {
    var tagged := MarkdownFence + "\n" + body + "\n" + CodeFence;
    assert tagged == MarkdownFence + ("\n" + body + "\n" + CodeFence);
    PrefixOfAppend(MarkdownFence, "\n" + body + "\n" + CodeFence);
    StripFenceOfWrapped("\n", MarkdownFence, body, "\n");
    FencedIsTrimmed(tagged);
    CleanOpened(tagged, MarkdownFence);
  }

  /** So does one wrapped in a plain fence. */
  lemma CleanPlainFenced(body: string)
    requires IsTrimmed(body)
    ensures CleanResponse(CodeFence + "\n" + body + "\n" + CodeFence) == body
  {
    var plain := CodeFence + "\n" + body + "\n" + CodeFence;
    assert plain == CodeFence + ("\n" + body + "\n" + CodeFence);
    PrefixOfAppend(CodeFence, "\n" + body + "\n" + CodeFence);
    StripFenceOfWrapped("\n", CodeFence, body, "\n");
    assert plain[3] == '\n';
    UntaggedFence(plain);
    FencedIsTrimmed(plain);
    CleanOpened(plain, CodeFence);
  }

  /** The clean-up statements of WriteChapter. */
  method CleanUp(response: string) returns (content: string)
    ensures content == CleanResponse(response)
  {
    content := TrimSpace(response);
    if HasPrefix(content, MarkdownFence) {
      content := TrimPrefix(content, MarkdownFence);
      content := TrimSuffix(content, CodeFence);
      content := TrimSpace(content);
    } else if HasPrefix(content, CodeFence) {
      content := TrimPrefix(content, CodeFence);
      content := TrimSuffix(content, CodeFence);
      content := TrimSpace(content);
    }
  }

  // ---------------------------------------------------------------------------
  // The stage
  // ---------------------------------------------------------------------------

  /** What WriteChapter returns. */
  function ChapterOutcome(input: WriteChapterInput, backend: Backend): (r: Result<WriteChapterOutput, Error>)
    ensures input.abstraction.name == "" ==> r == Err(AbstractionNameRequired)
    ensures r.Ok? ==>
      && r.value.chapterNumber == input.chapterNumber
      && r.value.title == input.abstraction.name
      && r.value.title != ""
      && IsTrimmed(r.value.content)
    ensures r.Ok? <==> input.abstraction.name != "" && backend.generate(ChapterPrompt(input)).Ok?
    ensures r.Ok? ==> r.value.content == CleanResponse(backend.generate(ChapterPrompt(input)).value)
  {
    if input.abstraction.name == "" then Err(AbstractionNameRequired)
    else
      match backend.generate(ChapterPrompt(input))
      case Err(e) => Err(LlmCallFailed(e))
      case Ok(response) =>
        Ok(WriteChapterOutput(input.chapterNumber, input.abstraction.name, CleanResponse(response)))
  }

  /** services/chapter_writer.go WriteChapter, with the generator requests it makes. */
  method WriteChapter(input: WriteChapterInput, backend: Backend)
    returns (r: Result<WriteChapterOutput, Error>, calls: seq<Prompt>)
    requires forall j :: 0 <= j < |input.abstraction.fileIndices| ==> input.abstraction.fileIndices[j] >= 0
    ensures r == ChapterOutcome(input, backend)
    ensures calls == if input.abstraction.name == "" then [] else [ChapterPrompt(input)]
  {
    calls := [];
    if input.abstraction.name == "" {
      return Err(AbstractionNameRequired), calls;
    }
    var prompt := BuildChapterPrompt(input);
    calls := calls + [prompt];
    var response := backend.generate(prompt);
    if response.Err? {
      return Err(LlmCallFailed(response.error)), calls;
    }
    var content := CleanUp(response.value);
    r := Ok(WriteChapterOutput(input.chapterNumber, input.abstraction.name, content));
  }
}
