/**
 * workflow/tutorial_workflow.go: the orchestration that runs the six stages in
 * order. The services are abstract stage functions; a failing stage ends the run
 * with its error wrapped in the workflow's own error.
 */
module TutorialWorkflow {
  import opened Wrappers
  import opened Errors
  import opened GoStrings
  import opened Models
  import opened Oracles
  import FileReader
  import AbstractionAnalyzer
  import RelationshipAnalyzer
  import ChapterOrderer
  import ChapterWriter
  import FileWriter

  // ---------------------------------------------------------------------------
  // The project name (filepath.Base on a slash-separated path)
  // ---------------------------------------------------------------------------

  /** `s` without its trailing slashes. */
  function TrimTrailingSlashes(s: string): (r: string)
    ensures |r| <= |s| && r == s[..|r|]
    ensures r == [] || r[|r| - 1] != '/'
    ensures forall i :: |r| <= i < |s| ==> s[i] == '/'
  {
    if s != [] && s[|s| - 1] == '/' then TrimTrailingSlashes(s[..|s| - 1]) else s
  }

  /** The text after the last slash of `s` (all of `s` when it has none). */
  function LastElement(s: string): (r: string)
    ensures |r| <= |s| && r == s[|s| - |r|..]
    ensures '/' !in r
    ensures |r| < |s| ==> s[|s| - |r| - 1] == '/'
  {
    if s == [] || s[|s| - 1] == '/' then []
    else
      var r := LastElement(s[..|s| - 1]);
      assert s[|s| - |r| - 1..] == s[..|s| - 1][|s| - 1 - |r|..] + [s[|s| - 1]];
      r + [s[|s| - 1]]
  }

  /**
   * filepath.Base: "." for the empty path; otherwise the last element once the
   * trailing slashes are gone, or "/" when nothing but slashes is left.
   */
  function Base(path: string): (b: string)
    ensures b != ""
    ensures b == "/" || '/' !in b
  {
    if path == [] then "."
    else
      var e := LastElement(TrimTrailingSlashes(path));
      if e == [] then "/" else e
  }

  /** A path with no slash is its own base name. */
  lemma BaseOfPlain(name: string)
    requires name != [] && '/' !in name
    ensures Base(name) == name
  {
    assert TrimTrailingSlashes(name) == name by {
      assert name[|name| - 1] in name;
    }
    assert forall k :: 0 <= k < |name| ==> name[k] != '/';
  }

  /** The base name of a path is its last element, whatever directory and trailing slashes surround it. */
  lemma {:induction false} BaseOfJoined(dir: string, name: string, slashes: nat)
    requires name != [] && '/' !in name
    ensures Base(dir + "/" + name + Slashes(slashes)) == name
  {
    var p := dir + "/" + name;
    TrimSlashesOfSlashed(p, slashes);
    assert p[|p| - 1] == name[|name| - 1];
    var e := LastElement(p);
    LastElementOfJoined(dir + "/", name);
  }

  function Slashes(n: nat): (s: string)
    ensures |s| == n && forall i :: 0 <= i < n ==> s[i] == '/'
  {
    seq(n, i => '/')
  }

  lemma {:induction false} TrimSlashesOfSlashed(p: string, n: nat)
    requires p != [] && p[|p| - 1] != '/'
    ensures TrimTrailingSlashes(p + Slashes(n)) == p
    decreases n
  {
    if n > 0 {
      var s := p + Slashes(n);
      assert s[..|s| - 1] == p + Slashes(n - 1);
      TrimSlashesOfSlashed(p, n - 1);
    }
  }

  lemma {:induction false} LastElementOfJoined(prefix: string, name: string)
    requires prefix != [] && prefix[|prefix| - 1] == '/'
    requires '/' !in name
    ensures LastElement(prefix + name) == name
    decreases |name|
  {
    var s := prefix + name;
    if name == [] {
      assert s == prefix;
    } else {
      assert s[|s| - 1] == name[|name| - 1];
      assert s[..|s| - 1] == prefix + name[..|name| - 1];
      assert forall k :: 0 <= k < |name| ==> name[k] != '/';
      assert '/' !in name[..|name| - 1];
      LastElementOfJoined(prefix, name[..|name| - 1]);
      assert name == name[..|name| - 1] + [name[|name| - 1]];
    }
  }

  /**
   * The project name: the one given, or else the repository directory's base name,
   * with "Project" standing in when that base name is "." or "/".
   */
  function ProjectNameFor(given: string, repoPath: string): (name: string)
    ensures name != ""
    ensures given != "" ==> name == given
    ensures given == "" ==> name != "." && name != "/"
  {
    if given != "" then given
    else
      var b := Base(repoPath);
      if b == "." || b == "/" then "Project" else b
  }

  /**
   * Without a given name, a repository at `dir/name` (with or without trailing
   * slashes) is named after `name`, and one given only as a bare name after itself.
   */
  lemma ProjectNameOfDirectory(dir: string, name: string, slashes: nat)
    requires name != [] && '/' !in name && name != "."
    ensures ProjectNameFor("", dir + "/" + name + Slashes(slashes)) == name
    ensures ProjectNameFor("", name) == name
  {
    BaseOfJoined(dir, name, slashes);
    BaseOfPlain(name);
  }

  /** Without a given name, the empty path, the current directory and the root all give "Project". */
  lemma ProjectNameFallback(path: string)
    requires path == "" || path == "." || (path != [] && forall i :: 0 <= i < |path| ==> path[i] == '/')
    ensures ProjectNameFor("", path) == "Project"
  {
    if path == "" {
    } else if path == "." {
      BaseOfPlain(".");
    } else {
      BaseOfRoot(path);
    }
  }

  /** A path made only of slashes has base name "/". */
  lemma BaseOfRoot(path: string)
    requires path != [] && forall i :: 0 <= i < |path| ==> path[i] == '/'
    ensures Base(path) == "/"
  {
    var r := TrimTrailingSlashes(path);
    assert forall k :: 0 <= k < |r| ==> r[k] == path[k];
  }

  // ---------------------------------------------------------------------------
  // The configuration of the stages
  // ---------------------------------------------------------------------------

  const IncludePatterns: seq<string> := ["*.go", "*.py", "*.js", "*.ts", "*.java", "*.rb", "*.md"]
  const ExcludePatterns: seq<string> := ["*_test.go", "vendor/*", "node_modules/*", ".git/*", "*.min.js"]
  /** One megabyte. */
  const MaxFileSize: int := 1048576
  const DefaultMaxFiles: int := 100
  const MaxAbstractions: int := 10

  /** The file limit: the one given, or 100 when it is zero. */
  function MaxFilesOrDefault(maxFiles: int): int {
    if maxFiles == 0 then DefaultMaxFiles else maxFiles
  }

  function ReaderInput(input: TutorialWorkflowInput): ReadFilesInput {
    ReadFilesInput(input.localRepoPath, IncludePatterns, ExcludePatterns, MaxFileSize,
      MaxFilesOrDefault(input.maxFiles))
  }

  function AbstractionsInput(files: seq<FileContent>, projectName: string): AnalyzeAbstractionsInput {
    AnalyzeAbstractionsInput(files, projectName, MaxAbstractions)
  }

  function RelationshipsInput(abstractions: seq<Abstraction>, files: seq<FileContent>, projectName: string): AnalyzeRelationshipsInput {
    AnalyzeRelationshipsInput(abstractions, files, projectName)
  }

  function OrderInput(abstractions: seq<Abstraction>, relationships: RelationshipData, projectName: string): OrderChaptersInput {
    OrderChaptersInput(abstractions, relationships, projectName)
  }

  /**
   * A zero file limit reads at most the default hundred files; a positive one at
   * most that many; a negative one is passed on, and the walk treats it as no limit.
   */
  lemma ReadLimit(fs: FileSystem, input: TutorialWorkflowInput)
    requires FileReader.ReadOutcome(fs, ReaderInput(input)).Ok?
    ensures var files := FileReader.ReadOutcome(fs, ReaderInput(input)).value.files;
      && (input.maxFiles == 0 ==> |files| <= DefaultMaxFiles)
      && (input.maxFiles > 0 ==> |files| <= input.maxFiles)
  {
    assert ReaderInput(input).maxFiles == MaxFilesOrDefault(input.maxFiles);
  }

  // ---------------------------------------------------------------------------
  // The chapter loop
  // ---------------------------------------------------------------------------

  /**
   * What a chapter passes on to the chapters after it: its content cut to 200
   * characters (plus "...") when longer, with every '#' deleted and the white space
   * at both ends trimmed.
   */
  function Summary(content: string): (s: string)
    ensures IsTrimmed(s) && |s| <= 203
  {
    TrimSpace(RemoveAll(Shorten(content, 200, "..."), '#'))
  }

  /**
   * The summary never holds a '#', and a short content without one is only
   * trimmed.
   */
  lemma SummaryShape(content: string)
    ensures '#' !in Summary(content)
    ensures |content| <= 200 && '#' !in content ==> Summary(content) == TrimSpace(content)
  {
    NotInTrimSpace(RemoveAll(Shorten(content, 200, "..."), '#'), '#');
  }

  /** What a chapter passes on: its title and the summary of its content. */
  function SummaryOf(chapter: WriteChapterOutput): (s: ChapterSummary)
    ensures s.name == chapter.title && IsTrimmed(s.summary) && |s.summary| <= 203 && '#' !in s.summary
  {
    SummaryShape(chapter.content);
    ChapterSummary(chapter.title, Summary(chapter.content))
  }

  /** How the chapter loop summarizes a chapter for the chapters after it. */
  type Summarizer = WriteChapterOutput -> ChapterSummary

  function Summaries(chapters: seq<WriteChapterOutput>, summarize: Summarizer): (ss: seq<ChapterSummary>)
    ensures |ss| == |chapters|
    ensures forall i :: 0 <= i < |chapters| ==> ss[i] == summarize(chapters[i])
  {
    seq(|chapters|, i requires 0 <= i < |chapters| => summarize(chapters[i]))
  }

  /** What the chapter loop works from: the corpus, the name, the abstractions and their order. */
  datatype Plan = Plan(files: seq<FileContent>, projectName: string, abstractions: seq<Abstraction>, order: seq<int>)

  /** Every order entry names an abstraction, so `Abstractions[absIndex]` does not panic. */
  predicate InRange(order: seq<int>, count: int) {
    forall i :: 0 <= i < |order| ==> 0 <= order[i] < count
  }

  /** What the chapter loop needs to index safely. */
  predicate Chapterable(plan: Plan) {
    InRange(plan.order, |plan.abstractions|)
  }

  /**
   * The request for the chapter at order position `i`: the abstraction the entry
   * names, the corpus, the summaries passed on so far, and the number i + 1.
   */
  function ChapterInput(plan: Plan, i: nat, previous: seq<ChapterSummary>): (input: WriteChapterInput)
    requires Chapterable(plan) && i < |plan.order|
  {
    WriteChapterInput(plan.abstractions[plan.order[i]], plan.files, previous, plan.projectName, i + 1)
  }

  // ---------------------------------------------------------------------------
  // The services the workflow calls
  // ---------------------------------------------------------------------------

  /** A chapter-writing service: the chapter for a request, or why it failed. */
  type Writer = WriteChapterInput -> Result<WriteChapterOutput, Error>

  /**
   * The six services Run calls, each an abstract stage function. The abstraction
   * analyzer is partial: a negative ceiling makes it panic.
   */
  datatype Services = Services(
    readFiles: ReadFilesInput -> Result<ReadFilesOutput, Error>,
    analyzeAbstractions: AnalyzeAbstractionsInput --> Result<AnalyzeAbstractionsOutput, Error>,
    analyzeRelationships: AnalyzeRelationshipsInput -> Result<RelationshipData, Error>,
    orderChapters: OrderChaptersInput -> Result<OrderChaptersOutput, Error>,
    writeChapter: Writer,
    writeMarkdownFiles: WriteMarkdownFilesInput -> Result<WriteMarkdownFilesOutput, Error>)

  /**
   * What Run relies on from its services: the analyzer accepts the ceiling Run
   * passes, and the orderer only returns indices of the abstractions it was given
   * (otherwise `Abstractions[absIndex]` panics).
   */
  ghost predicate Runnable(services: Services) {
    && (forall ai: AnalyzeAbstractionsInput :: ai.maxAbstractions == MaxAbstractions ==> services.analyzeAbstractions.requires(ai))
    && (forall oi: OrderChaptersInput :: services.orderChapters(oi).Ok? ==>
          InRange(services.orderChapters(oi).value.orderedIndices, |oi.abstractions|))
  }

  /** This model's chapter writer as a service. */
  function ChapterService(backend: Backend): Writer {
    input => ChapterWriter.ChapterOutcome(input, backend)
  }

  /** The stage handlers of this model as the services Run calls. */
  function Handlers(fs: FileSystem, backend: Backend): Services {
    Services(
      input => FileReader.ReadOutcome(fs, input),
      (input: AnalyzeAbstractionsInput) requires input.maxAbstractions >= 0 => AbstractionAnalyzer.AbstractionsOutcome(input, backend),
      input => RelationshipAnalyzer.RelationshipsOutcome(input, backend),
      input => ChapterOrderer.OrderOutcome(input, backend),
      ChapterService(backend),
      input => FileWriter.WriteOutcome(fs, input))
  }

  /** The handlers of this model meet what Run relies on. */
  lemma HandlersRunnable(fs: FileSystem, backend: Backend)
    ensures Runnable(Handlers(fs, backend))
  {
    var services := Handlers(fs, backend);
    forall oi: OrderChaptersInput | services.orderChapters(oi).Ok?
      ensures InRange(services.orderChapters(oi).value.orderedIndices, |oi.abstractions|)
    {
      assert services.orderChapters(oi) == ChapterOrderer.OrderOutcome(oi, backend);
    }
  }

  // ---------------------------------------------------------------------------
  // The chapter loop, for any chapter writer
  // ---------------------------------------------------------------------------

  /**
   * Where the chapter loop stands: the chapters written so far, the requests sent,
   * and the error of the request that failed, if one did. The summaries passed on
   * are those of the chapters written, `Summaries(chapters, summarize)`.
   */
  datatype Progress = Progress(
    chapters: seq<WriteChapterOutput>,
    requests: seq<WriteChapterInput>,
    failure: Option<Error>)

  /**
   * One iteration of the chapter loop at order position `i`: after a failure nothing
   * happens; otherwise chapter i + 1 is requested with the summaries of the chapters
   * written so far, and either stops the loop with its error or is kept.
   */
  function Step(plan: Plan, write: Writer, summarize: Summarizer, i: nat, p: Progress): Progress
    requires Chapterable(plan) && i < |plan.order|
  {
    if p.failure.Some? then p
    else
      var input := ChapterInput(plan, i, Summaries(p.chapters, summarize));
      match write(input)
      case Err(e) => Progress(p.chapters, p.requests + [input], Some(e))
      case Ok(chapter) => Progress(p.chapters + [chapter], p.requests + [input], None)
  }

  /** The first `n` iterations of the chapter loop. */
  function ChaptersUpTo(plan: Plan, write: Writer, summarize: Summarizer, n: nat): Progress
    requires Chapterable(plan) && n <= |plan.order|
    decreases n
  {
    if n == 0 then Progress([], [], None)
    else Step(plan, write, summarize, n - 1, ChaptersUpTo(plan, write, summarize, n - 1))
  }

  /**
   * What holds after `n` iterations: one request per iteration up to and including
   * a failing one; request i is the chapter request for order position i carrying
   * the summaries of the chapters before it; chapter i is what the writer returned
   * for request i; and a failure is the error of the last request.
   */
  predicate LoopInvariant(plan: Plan, write: Writer, summarize: Summarizer, p: Progress, n: nat)
    requires Chapterable(plan) && n <= |plan.order|
  {
    && |p.requests| == |p.chapters| + (if p.failure.Some? then 1 else 0)
    && |p.requests| <= n
    && (p.failure.None? ==> |p.chapters| == n)
    && (forall i :: 0 <= i < |p.requests| ==> p.requests[i] == ChapterInput(plan, i, Summaries(p.chapters[..i], summarize)))
    && (forall i :: 0 <= i < |p.chapters| ==> write(p.requests[i]) == Ok(p.chapters[i]))
    && (p.failure.Some? ==> write(p.requests[|p.chapters|]) == Err(p.failure.value))
  }

  lemma SummariesSnoc(chapters: seq<WriteChapterOutput>, chapter: WriteChapterOutput, summarize: Summarizer)
    ensures Summaries(chapters + [chapter], summarize) == Summaries(chapters, summarize) + [summarize(chapter)]
  {
  }

  /** The chapter loop keeps its invariant, iteration by iteration. */
  lemma {:induction false} ChaptersUpToInvariant(plan: Plan, write: Writer, summarize: Summarizer, n: nat)
    requires Chapterable(plan) && n <= |plan.order|
    ensures LoopInvariant(plan, write, summarize, ChaptersUpTo(plan, write, summarize, n), n)
    decreases n
  {
    if n > 0 {
      ChaptersUpToInvariant(plan, write, summarize, n - 1);
      var p := ChaptersUpTo(plan, write, summarize, n - 1);
      if p.failure.None? {
        var input := ChapterInput(plan, n - 1, Summaries(p.chapters, summarize));
        var q := ChaptersUpTo(plan, write, summarize, n);
        assert q == Step(plan, write, summarize, n - 1, p);
        assert input == ChapterInput(plan, n - 1, Summaries(p.chapters[..n - 1], summarize)) by {
          assert p.chapters[..n - 1] == p.chapters;
        }
        match write(input)
        case Err(e) =>
          assert q.chapters == p.chapters;
        case Ok(chapter) =>
          assert q.chapters == p.chapters + [chapter];
          forall i | 0 <= i < |q.requests|
            ensures q.requests[i] == ChapterInput(plan, i, Summaries(q.chapters[..i], summarize))
          {
            assert q.chapters[..i] == p.chapters[..i];
          }
      }
    }
  }

  /**
   * Chapter i + 1 (order position i) is requested for the abstraction that order
   * entry i names, with the number i + 1, the corpus and project name, and exactly
   * i previous chapters, which are the summaries of chapters 1..i in order; when it
   * was written, it is the writer's answer to that request.
   */
  lemma ChapterRequests(plan: Plan, write: Writer, summarize: Summarizer, i: nat)
    requires Chapterable(plan) && i < |plan.order| && i < |ChaptersUpTo(plan, write, summarize, |plan.order|).requests|
    ensures var p := ChaptersUpTo(plan, write, summarize, |plan.order|);
      var request := p.requests[i];
      && request.abstraction == plan.abstractions[plan.order[i]]
      && request.chapterNumber == i + 1
      && request.files == plan.files && request.projectName == plan.projectName
      && |request.previousChapters| == i
      && i <= |p.chapters|
      && (forall j :: 0 <= j < i ==>
            request.previousChapters[j] == summarize(p.chapters[j]))
      && (i < |p.chapters| ==> write(request) == Ok(p.chapters[i]))
  {
    ChaptersUpToInvariant(plan, write, summarize, |plan.order|);
  }

  /**
   * The loop either writes one chapter per order entry, or stops at the first request
   * that fails: every request before it succeeded and none after it was sent.
   */
  lemma LoopOutcome(plan: Plan, write: Writer, summarize: Summarizer)
    requires Chapterable(plan)
    ensures var p := ChaptersUpTo(plan, write, summarize, |plan.order|);
      && |p.chapters| <= |p.requests| <= |plan.order|
      && (forall i :: 0 <= i < |p.requests| ==> p.requests[i].chapterNumber == i + 1)
      && (forall j :: 0 <= j < |p.chapters| ==> write(p.requests[j]) == Ok(p.chapters[j]))
      && (p.failure.None? ==> |p.chapters| == |p.requests| == |plan.order|)
      && (p.failure.Some? ==>
            && |p.requests| == |p.chapters| + 1
            && write(p.requests[|p.chapters|]) == Err(p.failure.value))
  {
    ChaptersUpToInvariant(plan, write, summarize, |plan.order|);
  }

  /** Request i is the request for order position i, carrying the summaries of the chapters before it. */
  lemma LoopRequests(plan: Plan, write: Writer, summarize: Summarizer)
    requires Chapterable(plan)
    ensures var p := ChaptersUpTo(plan, write, summarize, |plan.order|);
      && |p.requests| <= |p.chapters| + 1 && |p.requests| <= |plan.order|
      && forall i :: 0 <= i < |p.requests| ==> p.requests[i] == ChapterInput(plan, i, Summaries(p.chapters[..i], summarize))
  {
    ChaptersUpToInvariant(plan, write, summarize, |plan.order|);
  }

  /** Every request carries the plan's corpus and project name, and the abstraction its order entry names. */
  lemma RequestsCarryPlan(plan: Plan, write: Writer, summarize: Summarizer)
    requires Chapterable(plan)
    ensures var p := ChaptersUpTo(plan, write, summarize, |plan.order|);
      && |p.requests| <= |plan.order|
      && forall i :: 0 <= i < |p.requests| ==>
           && p.requests[i].files == plan.files && p.requests[i].projectName == plan.projectName
           && p.requests[i].abstraction == plan.abstractions[plan.order[i]] && p.requests[i].chapterNumber == i + 1
  {
    LoopRequests(plan, write, summarize);
  }

  /** Once a request fails, later iterations change nothing. */
  lemma {:induction false} FailureIsFinal(plan: Plan, write: Writer, summarize: Summarizer, n: nat, m: nat)
    requires Chapterable(plan) && n <= m <= |plan.order|
    requires ChaptersUpTo(plan, write, summarize, n).failure.Some?
    ensures ChaptersUpTo(plan, write, summarize, m) == ChaptersUpTo(plan, write, summarize, n)
    decreases m - n
  {
    if n < m {
      FailureIsFinal(plan, write, summarize, n, m - 1);
    }
  }

  /** What the chapter loop ends with: the chapters, or the first failure wrapped with its chapter number. */
  function LoopResult(p: Progress): Result<seq<WriteChapterOutput>, Error> {
    match p.failure
    case Some(e) => Err(ChapterFailed(|p.chapters| + 1, e))
    case None => Ok(p.chapters)
  }

  /** The summary of a chapter the loop passes on, built step by step. */
  method Summarize(chapter: WriteChapterOutput) returns (s: ChapterSummary)
    ensures s == SummaryOf(chapter)
  {
    var summary := chapter.content;
    if |summary| > 200 {
      summary := summary[..200] + "...";
    }
    summary := RemoveAll(summary, '#');
    summary := TrimSpace(summary);
    s := ChapterSummary(chapter.title, summary);
  }

  /**
   * The request for the chapter at order position `i`, built from the summaries
   * passed on so far, and the writer's answer to it.
   */
  method NextChapter(plan: Plan, write: Writer, summarize: Summarizer, i: nat, ghost done: seq<WriteChapterOutput>,
                     ghost requests: seq<WriteChapterInput>, previous: seq<ChapterSummary>)
      returns (chapter: Result<WriteChapterOutput, Error>, input: WriteChapterInput)
    requires Chapterable(plan) && i < |plan.order|
    requires ChaptersUpTo(plan, write, summarize, i) == Progress(done, requests, None)
    requires previous == Summaries(done, summarize)
    ensures input == ChapterInput(plan, i, previous) && chapter == write(input)
    ensures chapter.Err? ==> ChaptersUpTo(plan, write, summarize, i + 1) == Progress(done, requests + [input], Some(chapter.error))
    ensures chapter.Ok? ==> ChaptersUpTo(plan, write, summarize, i + 1) == Progress(done + [chapter.value], requests + [input], None)
  {
    var abstraction := plan.abstractions[plan.order[i]];
    input := WriteChapterInput(abstraction, plan.files, previous, plan.projectName, i + 1);
    chapter := write(input);
  }

  /**
   * The chapter loop of Run: chapter i + 1 is written for the abstraction at order
   * position i into slot i of a preallocated array, and its summary is appended to
   * the previous chapters; the first failure returns at once.
   */
  method WriteChapters(plan: Plan, write: Writer, summarize: Summarizer)
      returns (r: Result<seq<WriteChapterOutput>, Error>, requests: seq<WriteChapterInput>)
    requires Chapterable(plan)
    ensures r == LoopResult(ChaptersUpTo(plan, write, summarize, |plan.order|))
    ensures requests == ChaptersUpTo(plan, write, summarize, |plan.order|).requests
  {
    var chapters := new WriteChapterOutput[|plan.order|](_ => WriteChapterOutput(0, "", ""));
    var previous: seq<ChapterSummary> := [];
    ghost var done: seq<WriteChapterOutput> := [];
    requests := [];
    for i := 0 to |plan.order|
      invariant |done| == i && done == chapters[..i]
      invariant ChaptersUpTo(plan, write, summarize, i) == Progress(done, requests, None)
      invariant previous == Summaries(done, summarize)
    {
      var chapter, chapterInput := NextChapter(plan, write, summarize, i, done, requests, previous);
      requests := requests + [chapterInput];
      if chapter.Err? {
        FailureIsFinal(plan, write, summarize, i + 1, |plan.order|);
        return Err(ChapterFailed(i + 1, chapter.error)), requests;
      }
      chapters[i] := chapter.value;
      var summary := summarize(chapter.value);
      previous := previous + [summary];
      SummariesSnoc(done, chapter.value, summarize);
      done := done + [chapter.value];
    }
    assert chapters[..] == done;
    r := Ok(chapters[..]);
  }

  // ---------------------------------------------------------------------------
  // The run
  // ---------------------------------------------------------------------------

  /** A service call of the workflow, with the input it sends. */
  datatype Call =
    | ReadFilesCall(readInput: ReadFilesInput)
    | AbstractionsCall(abstractionsInput: AnalyzeAbstractionsInput)
    | RelationshipsCall(relationshipsInput: AnalyzeRelationshipsInput)
    | OrderCall(orderInput: OrderChaptersInput)
    | ChapterCall(chapterInput: WriteChapterInput)
    | WriteFilesCall(writeInput: WriteMarkdownFilesInput)

  /** What a run does: its result and the service calls it makes, in order. */
  datatype Trace = Trace(result: Result<WriteMarkdownFilesOutput, Error>, calls: seq<Call>)

  function ChapterCalls(requests: seq<WriteChapterInput>): (calls: seq<Call>)
    ensures |calls| == |requests|
    ensures forall i :: 0 <= i < |requests| ==> calls[i] == ChapterCall(requests[i])
  {
    seq(|requests|, i requires 0 <= i < |requests| => ChapterCall(requests[i]))
  }

  /** How far the four analysis stages got: stopped with a trace, or a chapter plan after four calls. */
  datatype Analysis = Stopped(trace: Trace) | Planned(plan: Plan, calls: seq<Call>)

  /**
   * The stages before the chapter loop: read the files, identify the abstractions,
   * analyze the relationships, order the chapters; each failure ends the run.
   */
  function Analyze(services: Services, input: TutorialWorkflowInput, name: string): (a: Analysis)
    requires Runnable(services)
    ensures a.Stopped? ==> a.trace.result.Err? && 1 <= |a.trace.calls| <= 4
    ensures a.Planned? ==>
      && Chapterable(a.plan)
      && |a.plan.files| > 0 && |a.plan.abstractions| > 0
      && |a.calls| == 4
      && a.plan.projectName == name
  {
    var readInput := ReaderInput(input);
    var c0 := [ReadFilesCall(readInput)];
    match services.readFiles(readInput)
    case Err(e) => Stopped(Trace(Err(StageFailed(ReadFilesStage, e)), c0))
    case Ok(read) =>
      var files := read.files;
      if |files| == 0 then Stopped(Trace(Err(NoFilesFound), c0))
      else
        var absInput := AbstractionsInput(files, name);
        var c1 := c0 + [AbstractionsCall(absInput)];
        match services.analyzeAbstractions(absInput)
        case Err(e) => Stopped(Trace(Err(StageFailed(AbstractionsStage, e)), c1))
        case Ok(found) =>
          var abstractions := found.abstractions;
          if |abstractions| == 0 then Stopped(Trace(Err(NoAbstractionsIdentified), c1))
          else
            var relInput := RelationshipsInput(abstractions, files, name);
            var c2 := c1 + [RelationshipsCall(relInput)];
            match services.analyzeRelationships(relInput)
            case Err(e) => Stopped(Trace(Err(StageFailed(RelationshipsStage, e)), c2))
            case Ok(relationships) =>
              var orderInput := OrderInput(abstractions, relationships, name);
              var c3 := c2 + [OrderCall(orderInput)];
              match services.orderChapters(orderInput)
              case Err(e) => Stopped(Trace(Err(StageFailed(OrderStage, e)), c3))
              case Ok(ordered) => Planned(Plan(files, name, abstractions, ordered.orderedIndices), c3)
  }

  /** What Run does: the analysis, the chapter loop, then the file writer, under the project name it derives. */
  function RunSpec(services: Services, input: TutorialWorkflowInput): Trace
    requires Runnable(services)
  {
    RunWith(services, input, ProjectNameFor(input.projectName, input.localRepoPath), SummaryOf)
  }

  /** A run under the project name `name`, passing chapters on as `summarize` summarizes them. */
  function RunWith(services: Services, input: TutorialWorkflowInput, name: string, summarize: Summarizer): Trace
    requires Runnable(services)
  {
    match Analyze(services, input, name)
    case Stopped(t) => t
    case Planned(plan, calls) =>
      var p := ChaptersUpTo(plan, services.writeChapter, summarize, |plan.order|);
      var c4 := calls + ChapterCalls(p.requests);
      match LoopResult(p)
      case Err(e) => Trace(Err(e), c4)
      case Ok(chapters) =>
        var writerInput := WriteMarkdownFilesInput(input.outputDir, chapters);
        var c5 := c4 + [WriteFilesCall(writerInput)];
        match services.writeMarkdownFiles(writerInput)
        case Err(e) => Trace(Err(StageFailed(WriteFilesStage, e)), c5)
        case Ok(output) => Trace(Ok(output), c5)
  }

  /** The project name as Run derives it, step by step. */
  method DeriveProjectName(given: string, repoPath: string) returns (name: string)
    ensures name == ProjectNameFor(given, repoPath)
  {
    name := given;
    if name == "" {
      name := Base(repoPath);
      if name == "." || name == "/" {
        name := "Project";
      }
    }
  }

  /**
   * TutorialWorkflow.Run: derive the project name and the file limit, then call the
   * reader, the abstraction analyzer, the relationship analyzer and the orderer,
   * write the chapters in order, and hand them to the file writer. `calls` is the
   * sequence of service calls made.
   */
  method Run(services: Services, input: TutorialWorkflowInput)
      returns (r: Result<WriteMarkdownFilesOutput, Error>, calls: seq<Call>)
    requires Runnable(services)
    ensures Trace(r, calls) == RunSpec(services, input)
  {
    var projectName := DeriveProjectName(input.projectName, input.localRepoPath);
    var maxFiles := input.maxFiles;
    if maxFiles == 0 {
      maxFiles := 100;
    }

    var readInput := ReadFilesInput(input.localRepoPath, IncludePatterns, ExcludePatterns, MaxFileSize, maxFiles);
    assert readInput == ReaderInput(input);
    calls := [ReadFilesCall(readInput)];
    var filesOutput := services.readFiles(readInput);
    if filesOutput.Err? {
      assert Analyze(services, input, projectName) == Stopped(Trace(Err(StageFailed(ReadFilesStage, filesOutput.error)), calls));
      return Err(StageFailed(ReadFilesStage, filesOutput.error)), calls;
    }
    var files := filesOutput.value.files;
    if |files| == 0 {
      assert Analyze(services, input, projectName) == Stopped(Trace(Err(NoFilesFound), calls));
      return Err(NoFilesFound), calls;
    }

    var abstractionInput := AnalyzeAbstractionsInput(files, projectName, 10);
    calls := calls + [AbstractionsCall(abstractionInput)];
    var abstractionsOutput := services.analyzeAbstractions(abstractionInput);
    if abstractionsOutput.Err? {
      assert Analyze(services, input, projectName) == Stopped(Trace(Err(StageFailed(AbstractionsStage, abstractionsOutput.error)), calls));
      return Err(StageFailed(AbstractionsStage, abstractionsOutput.error)), calls;
    }
    var abstractions := abstractionsOutput.value.abstractions;
    if |abstractions| == 0 {
      assert Analyze(services, input, projectName) == Stopped(Trace(Err(NoAbstractionsIdentified), calls));
      return Err(NoAbstractionsIdentified), calls;
    }

    var relationshipInput := AnalyzeRelationshipsInput(abstractions, files, projectName);
    calls := calls + [RelationshipsCall(relationshipInput)];
    var relationships := services.analyzeRelationships(relationshipInput);
    if relationships.Err? {
      assert Analyze(services, input, projectName) == Stopped(Trace(Err(StageFailed(RelationshipsStage, relationships.error)), calls));
      return Err(StageFailed(RelationshipsStage, relationships.error)), calls;
    }

    var orderInput := OrderChaptersInput(abstractions, relationships.value, projectName);
    calls := calls + [OrderCall(orderInput)];
    var orderOutput := services.orderChapters(orderInput);
    if orderOutput.Err? {
      assert Analyze(services, input, projectName) == Stopped(Trace(Err(StageFailed(OrderStage, orderOutput.error)), calls));
      return Err(StageFailed(OrderStage, orderOutput.error)), calls;
    }

    var plan := Plan(files, projectName, abstractions, orderOutput.value.orderedIndices);
    assert Analyze(services, input, projectName) == Planned(plan, calls);
    var chapters, requests := WriteChapters(plan, services.writeChapter, SummaryOf);
    calls := calls + ChapterCalls(requests);
    if chapters.Err? {
      return Err(chapters.error), calls;
    }

    var writerInput := WriteMarkdownFilesInput(input.outputDir, chapters.value);
    calls := calls + [WriteFilesCall(writerInput)];
    var result := services.writeMarkdownFiles(writerInput);
    if result.Err? {
      return Err(StageFailed(WriteFilesStage, result.error)), calls;
    }
    r := Ok(result.value);
  }

  // ---------------------------------------------------------------------------
  // What a run does
  // ---------------------------------------------------------------------------

  /** The position of a service in the pipeline. */
  function Rank(call: Call): nat {
    match call
    case ReadFilesCall(_) => 0
    case AbstractionsCall(_) => 1
    case RelationshipsCall(_) => 2
    case OrderCall(_) => 3
    case ChapterCall(_) => 4
    case WriteFilesCall(_) => 5
  }

  /** The services are called in pipeline order, and only the chapter writer more than once. */
  predicate InStageOrder(calls: seq<Call>) {
    forall i, j :: 0 <= i < j < |calls| ==>
      Rank(calls[i]) < Rank(calls[j]) || (calls[i].ChapterCall? && calls[j].ChapterCall?)
  }

  /** The service answered the call in a way that lets the run go on. */
  ghost predicate Succeeded(services: Services, call: Call)
    requires Runnable(services)
  {
    match call
    case ReadFilesCall(x) => services.readFiles(x).Ok? && |services.readFiles(x).value.files| > 0
    case AbstractionsCall(x) =>
      x.maxAbstractions == MaxAbstractions
      && services.analyzeAbstractions(x).Ok? && |services.analyzeAbstractions(x).value.abstractions| > 0
    case RelationshipsCall(x) => services.analyzeRelationships(x).Ok?
    case OrderCall(x) => services.orderChapters(x).Ok?
    case ChapterCall(x) => services.writeChapter(x).Ok?
    case WriteFilesCall(x) => services.writeMarkdownFiles(x).Ok?
  }

  /**
   * `e` is the error Run reports for this call: the service's own error wrapped with
   * its stage (or, for a chapter, with the chapter number), or the workflow's own
   * error for an empty file list or an empty abstraction list.
   */
  ghost predicate Blames(services: Services, e: Error, call: Call)
    requires Runnable(services)
  {
    match call
    case ReadFilesCall(x) =>
      (match services.readFiles(x)
       case Err(cause) => e == StageFailed(ReadFilesStage, cause)
       case Ok(output) => |output.files| == 0 && e == NoFilesFound)
    case AbstractionsCall(x) =>
      x.maxAbstractions == MaxAbstractions &&
      (match services.analyzeAbstractions(x)
       case Err(cause) => e == StageFailed(AbstractionsStage, cause)
       case Ok(output) => |output.abstractions| == 0 && e == NoAbstractionsIdentified)
    case RelationshipsCall(x) =>
      services.analyzeRelationships(x).Err? && e == StageFailed(RelationshipsStage, services.analyzeRelationships(x).error)
    case OrderCall(x) =>
      services.orderChapters(x).Err? && e == StageFailed(OrderStage, services.orderChapters(x).error)
    case ChapterCall(x) =>
      services.writeChapter(x).Err? && e == ChapterFailed(x.chapterNumber, services.writeChapter(x).error)
    case WriteFilesCall(x) =>
      services.writeMarkdownFiles(x).Err? && e == StageFailed(WriteFilesStage, services.writeMarkdownFiles(x).error)
  }

  /** A run that stops before the chapters: its calls are in order, all but the last succeeded, and the last is blamed. */
  lemma AnalyzeStopped(services: Services, input: TutorialWorkflowInput, name: string)
    requires Runnable(services) && Analyze(services, input, name).Stopped?
    ensures var t := Analyze(services, input, name).trace;
      && t.result.Err?
      && 1 <= |t.calls| <= 4
      && (forall k :: 0 <= k < |t.calls| ==> Rank(t.calls[k]) == k)
      && t.calls[0] == ReadFilesCall(ReaderInput(input))
      && (forall k :: 0 <= k < |t.calls| - 1 ==> Succeeded(services, t.calls[k]))
      && Blames(services, t.result.error, t.calls[|t.calls| - 1])
  {
  }

  /**
   * A run that reaches the chapters made exactly four calls, each succeeded, and
   * the plan holds what they answered.
   */
  lemma AnalyzePlanned(services: Services, input: TutorialWorkflowInput, name: string)
    requires Runnable(services) && Analyze(services, input, name).Planned?
    ensures var a := Analyze(services, input, name);
      var plan := a.plan;
      && plan.projectName == name
      && services.readFiles(ReaderInput(input)) == Ok(ReadFilesOutput(plan.files))
      && AbstractionsInput(plan.files, name).maxAbstractions == MaxAbstractions
      && services.analyzeAbstractions(AbstractionsInput(plan.files, name)).Ok?
      && services.analyzeAbstractions(AbstractionsInput(plan.files, name)).value.abstractions == plan.abstractions
      && services.analyzeRelationships(RelationshipsInput(plan.abstractions, plan.files, name)).Ok?
      && var relationships := services.analyzeRelationships(RelationshipsInput(plan.abstractions, plan.files, name)).value;
         && services.orderChapters(OrderInput(plan.abstractions, relationships, name)).Ok?
         && services.orderChapters(OrderInput(plan.abstractions, relationships, name)).value.orderedIndices == plan.order
         && a.calls == [ReadFilesCall(ReaderInput(input)), AbstractionsCall(AbstractionsInput(plan.files, name)),
                        RelationshipsCall(RelationshipsInput(plan.abstractions, plan.files, name)),
                        OrderCall(OrderInput(plan.abstractions, relationships, name))]
  {
  }

  /**
   * Fail fast: the run starts by reading the files, calls the services in pipeline
   * order, and every call but the last succeeded. A failing run reports the error
   * of its last call; a successful one ends with the file writer and returns its
   * answer.
   */
  lemma RunFailFast(services: Services, input: TutorialWorkflowInput, name: string, summarize: Summarizer)
    requires Runnable(services)
    ensures var t := RunWith(services, input, name, summarize);
      && |t.calls| >= 1
      && t.calls[0] == ReadFilesCall(ReaderInput(input))
      && InStageOrder(t.calls)
      && (forall k :: 0 <= k < |t.calls| - 1 ==> Succeeded(services, t.calls[k]))
      && (t.result.Err? ==> Blames(services, t.result.error, t.calls[|t.calls| - 1]))
      && (t.result.Ok? ==>
            && t.calls[|t.calls| - 1].WriteFilesCall?
            && Succeeded(services, t.calls[|t.calls| - 1])
            && t.result == services.writeMarkdownFiles(t.calls[|t.calls| - 1].writeInput))
  {
    if Analyze(services, input, name).Stopped? {
      AnalyzeStopped(services, input, name);
    } else {
      AnalyzePlanned(services, input, name);
      var a := Analyze(services, input, name);
      ChapterCallsInOrder(services, summarize, a.plan, a.calls);
      var p := ChaptersUpTo(a.plan, services.writeChapter, summarize, |a.plan.order|);
      var c4 := a.calls + ChapterCalls(p.requests);
      var t := RunWith(services, input, name, summarize);
      if p.failure.None? {
        var w := WriteFilesCall(WriteMarkdownFilesInput(input.outputDir, p.chapters));
        assert t.calls == c4 + [w];
        assert forall k :: 0 <= k < |c4| ==> t.calls[k] == c4[k];
      } else {
        assert t.calls == c4;
      }
    }
  }

  /**
   * The calls up to the end of the chapter loop: the four analysis calls, then the
   * chapter requests, every one before a failing request answered with a chapter.
   */
  lemma ChapterCallsInOrder(services: Services, summarize: Summarizer, plan: Plan, calls: seq<Call>)
    requires Runnable(services) && Chapterable(plan)
    requires |calls| == 4 && forall k :: 0 <= k < 4 ==> Rank(calls[k]) == k && Succeeded(services, calls[k])
    ensures var p := ChaptersUpTo(plan, services.writeChapter, summarize, |plan.order|);
      var c4 := calls + ChapterCalls(p.requests);
      && |c4| == 4 + |p.requests| && |p.chapters| <= |p.requests|
      && (p.failure.Some? ==> |p.requests| == |p.chapters| + 1)
      && (p.failure.None? ==> |p.chapters| == |p.requests|)
      && InStageOrder(c4)
      && (forall k :: 0 <= k < 4 + |p.chapters| ==> Succeeded(services, c4[k]))
      && (p.failure.Some? ==> Blames(services, LoopResult(p).error, c4[|c4| - 1]))
  {
    var write := services.writeChapter;
    var p := ChaptersUpTo(plan, write, summarize, |plan.order|);
    LoopOutcome(plan, write, summarize);
    var c4 := calls + ChapterCalls(p.requests);
    assert forall k :: 0 <= k < 4 ==> c4[k] == calls[k];
    assert forall k :: 4 <= k < |c4| ==> c4[k] == ChapterCall(p.requests[k - 4]);
    RankedInOrder(c4, 4);
  }

  /** Calls ranked 0, 1, …, n - 1 and then only chapter calls are in stage order. */
  lemma RankedInOrder(calls: seq<Call>, n: nat)
    requires n <= |calls|
    requires forall k :: 0 <= k < n ==> Rank(calls[k]) == k && k < 4
    requires forall k :: n <= k < |calls| ==> calls[k].ChapterCall?
    ensures InStageOrder(calls)
  {
  }

  /** The call carries the configuration Run derives: the reader input, the project name, the ceiling, the output directory. */
  predicate Configured(call: Call, input: TutorialWorkflowInput, name: string) {
    match call
    case ReadFilesCall(x) => x == ReaderInput(input)
    case AbstractionsCall(x) => x.projectName == name && x.maxAbstractions == MaxAbstractions
    case RelationshipsCall(x) => x.projectName == name
    case OrderCall(x) => x.projectName == name
    case ChapterCall(x) => x.projectName == name
    case WriteFilesCall(x) => x.outputDir == input.outputDir
  }

  /** The calls of the analysis, whether it stopped or planned the chapters. */
  function AnalysisCalls(a: Analysis): seq<Call> {
    match a
    case Stopped(t) => t.calls
    case Planned(_, calls) => calls
  }

  /** Every call of the analysis carries the configuration. */
  lemma AnalyzeConfigured(services: Services, input: TutorialWorkflowInput, name: string)
    requires Runnable(services)
    ensures var calls := AnalysisCalls(Analyze(services, input, name));
      forall k :: 0 <= k < |calls| ==> Configured(calls[k], input, name)
  {
  }

  /** Every call of a run carries the same project name and the fixed limits. */
  lemma RunConfiguration(services: Services, input: TutorialWorkflowInput, name: string, summarize: Summarizer)
    requires Runnable(services)
    ensures var t := RunWith(services, input, name, summarize);
      forall k :: 0 <= k < |t.calls| ==> Configured(t.calls[k], input, name)
  {
    AnalyzeConfigured(services, input, name);
    var a := Analyze(services, input, name);
    if a.Planned? {
      var p := ChaptersUpTo(a.plan, services.writeChapter, summarize, |a.plan.order|);
      var c4 := a.calls + ChapterCalls(p.requests);
      ChapterCallsConfigured(a.plan, services.writeChapter, summarize, a.calls, c4, input, name);
      var t := RunWith(services, input, name, summarize);
      if LoopResult(p).Ok? {
        var w := WriteFilesCall(WriteMarkdownFilesInput(input.outputDir, LoopResult(p).value));
        assert t.calls == c4 + [w];
        forall k | 0 <= k < |t.calls|
          ensures Configured(t.calls[k], input, name)
        {
          if k < |c4| {
            assert t.calls[k] == c4[k];
          } else {
            assert t.calls[k] == w;
          }
        }
      } else {
        assert t.calls == c4;
      }
    }
  }

  /** Appending the chapter requests keeps every call configured. */
  lemma ChapterCallsConfigured(plan: Plan, write: Writer, summarize: Summarizer, calls: seq<Call>, c: seq<Call>,
                               input: TutorialWorkflowInput, name: string)
    requires Chapterable(plan) && plan.projectName == name
    requires forall k :: 0 <= k < |calls| ==> Configured(calls[k], input, name)
    requires c == calls + ChapterCalls(ChaptersUpTo(plan, write, summarize, |plan.order|).requests)
    ensures forall k :: 0 <= k < |c| ==> Configured(c[k], input, name)
  {
    var p := ChaptersUpTo(plan, write, summarize, |plan.order|);
    RequestsCarryPlan(plan, write, summarize);
    assert forall k :: 0 <= k < |calls| ==> c[k] == calls[k];
    assert forall k :: |calls| <= k < |c| ==> c[k] == ChapterCall(p.requests[k - |calls|]);
  }

  /**
   * A successful run writes one chapter per order entry and hands exactly those
   * chapters, in order, to the file writer: chapter i is the chapter writer's
   * answer to the request for order position i, which carries the summaries of
   * chapters 1..i.
   */
  lemma RunChapters(services: Services, input: TutorialWorkflowInput, name: string, summarize: Summarizer)
    requires Runnable(services)
    requires RunWith(services, input, name, summarize).result.Ok?
    ensures Analyze(services, input, name).Planned?
    ensures var a := Analyze(services, input, name);
      var t := RunWith(services, input, name, summarize);
      exists chapters: seq<WriteChapterOutput>, requests: seq<WriteChapterInput> ::
        && |chapters| == |requests| == |a.plan.order|
        && (forall i :: 0 <= i < |requests| ==>
              && requests[i] == ChapterInput(a.plan, i, Summaries(chapters[..i], summarize))
              && services.writeChapter(requests[i]) == Ok(chapters[i]))
        && t.calls == a.calls + ChapterCalls(requests) + [WriteFilesCall(WriteMarkdownFilesInput(input.outputDir, chapters))]
  {
    var a := Analyze(services, input, name);
    var p := ChaptersUpTo(a.plan, services.writeChapter, summarize, |a.plan.order|);
    LoopOutcome(a.plan, services.writeChapter, summarize);
    LoopRequests(a.plan, services.writeChapter, summarize);
    assert p.failure.None?;
  }

  /**
   * What this model's stage handlers promise beyond Runnable: the analyzer keeps to
   * its ceiling, the orderer returns a permutation of the abstraction indices, and
   * the chapter writer titles a chapter after its abstraction and keeps its number.
   */
  ghost predicate HandlerGuarantees(services: Services)
    requires Runnable(services)
  {
    && (forall ai: AnalyzeAbstractionsInput :: ai.maxAbstractions == MaxAbstractions && services.analyzeAbstractions(ai).Ok? ==>
          |services.analyzeAbstractions(ai).value.abstractions| <= MaxAbstractions)
    && (forall oi: OrderChaptersInput :: services.orderChapters(oi).Ok? ==>
          IsPermutation(services.orderChapters(oi).value.orderedIndices, |oi.abstractions|))
    && (forall ci: WriteChapterInput :: services.writeChapter(ci).Ok? ==>
          services.writeChapter(ci).value.title == ci.abstraction.name
          && services.writeChapter(ci).value.chapterNumber == ci.chapterNumber)
  }

  /** The handlers of this model keep those promises. */
  lemma HandlersKeepGuarantees(fs: FileSystem, backend: Backend)
    ensures Runnable(Handlers(fs, backend)) && HandlerGuarantees(Handlers(fs, backend))
  {
    HandlersRunnable(fs, backend);
    var services := Handlers(fs, backend);
    forall ai: AnalyzeAbstractionsInput | ai.maxAbstractions == MaxAbstractions && services.analyzeAbstractions(ai).Ok?
      ensures |services.analyzeAbstractions(ai).value.abstractions| <= MaxAbstractions
    {
      assert services.analyzeAbstractions(ai) == AbstractionAnalyzer.AbstractionsOutcome(ai, backend);
    }
    forall oi: OrderChaptersInput | services.orderChapters(oi).Ok?
      ensures IsPermutation(services.orderChapters(oi).value.orderedIndices, |oi.abstractions|)
    {
      assert services.orderChapters(oi) == ChapterOrderer.OrderOutcome(oi, backend);
    }
    forall ci: WriteChapterInput | services.writeChapter(ci).Ok?
      ensures services.writeChapter(ci).value.title == ci.abstraction.name
      ensures services.writeChapter(ci).value.chapterNumber == ci.chapterNumber
    {
      assert services.writeChapter(ci) == ChapterWriter.ChapterOutcome(ci, backend);
    }
  }

  /**
   * A successful run over services that keep those promises writes every abstraction
   * the analyzer identified exactly once: the order is a permutation of the
   * abstraction indices, there are as many chapters as abstractions (at most ten),
   * chapter i + 1 is titled after the abstraction at order position i and numbered
   * i + 1, and every abstraction has its chapter.
   */
  lemma RunWritesEveryAbstraction(services: Services, input: TutorialWorkflowInput, name: string, summarize: Summarizer)
    requires Runnable(services) && HandlerGuarantees(services)
    requires RunWith(services, input, name, summarize).result.Ok?
    ensures Analyze(services, input, name).Planned?
    ensures var plan := Analyze(services, input, name).plan;
      var p := ChaptersUpTo(plan, services.writeChapter, summarize, |plan.order|);
      && IsPermutation(plan.order, |plan.abstractions|)
      && |p.chapters| == |plan.abstractions| <= MaxAbstractions
      && (forall i :: 0 <= i < |p.chapters| ==>
            p.chapters[i].title == plan.abstractions[plan.order[i]].name && p.chapters[i].chapterNumber == i + 1)
      && (forall k :: 0 <= k < |plan.abstractions| ==> k in plan.order)
  {
    var plan := Analyze(services, input, name).plan;
    AnalyzePlanned(services, input, name);
    ChapterOrderer.PermutationCovers(plan.order, |plan.abstractions|);
    var write := services.writeChapter;
    var p := ChaptersUpTo(plan, write, summarize, |plan.order|);
    LoopOutcome(plan, write, summarize);
    RequestsCarryPlan(plan, write, summarize);
  }
}
