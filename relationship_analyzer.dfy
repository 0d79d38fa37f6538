/**
 * The relationship stage (services/relationship_analyzer.go): a project summary and
 * labelled edges between abstraction indices, as the generator proposes them,
 * checked edge by edge in order.
 */
module RelationshipAnalyzer {
  import opened Wrappers
  import opened Errors
  import opened GoStrings
  import opened Models
  import opened Oracles
  import opened AbstractionAnalyzer

  // ---------------------------------------------------------------------------
  // The prompt
  // ---------------------------------------------------------------------------

  const SampleLimit := 500
  const SampleMarker := "..."
  const RelationshipsSystemPrompt := "You are a software architecture analyst."
  const CodeContextHeader := "\n\nCODE CONTEXT:\n"
  const RelationshipsInstructions :=
    "\n\nYour tasks:\n1. Write a high-level project summary (2-3 sentences)\n2. Describe how these abstractions relate to each other, as a YAML summary and a list of from, to and label.\n"

  function RelationshipsHeader(projectName: string): string {
    "You are analyzing relationships in the \"" + projectName + "\" project.\n\nABSTRACTIONS:\n"
  }

  /** One line of the abstraction listing (also shown by the chapter orderer). */
  function AbstractionListingLine(a: Abstraction): string {
    "- " + FormatInt(a.index) + " # " + a.name + ": " + a.description + "\n"
  }

  /** The sample of one related file; an index past the corpus shows nothing. */
  function SampleLine(files: seq<FileContent>, fileIdx: int): string {
    if 0 <= fileIdx < |files| then
      "  File " + FormatInt(fileIdx) + " (" + files[fileIdx].path + "):\n"
        + Shorten(files[fileIdx].content, SampleLimit, SampleMarker) + "\n\n"
    else ""
  }

  function SampleLines(files: seq<FileContent>): int -> string {
    fileIdx => SampleLine(files, fileIdx)
  }

  function AbstractionContext(files: seq<FileContent>, a: Abstraction): string {
    "\n### Abstraction " + FormatInt(a.index) + ": " + a.name + "\n" + "Related files:\n"
      + Join(a.fileIndices, SampleLines(files))
  }

  function AbstractionContexts(files: seq<FileContent>): Abstraction -> string {
    a => AbstractionContext(files, a)
  }

  function RelationshipsPrompt(input: AnalyzeRelationshipsInput): Prompt {
    Prompt(
      RelationshipsHeader(input.projectName) + Join(input.abstractions, AbstractionListingLine)
        + CodeContextHeader + Join(input.abstractions, AbstractionContexts(input.files))
        + RelationshipsInstructions,
      RelationshipsSystemPrompt)
  }

  /** Every file index is one the code context can look up without a panic. */
  predicate FileIndicesNonNegative(abstractions: seq<Abstraction>) {
    forall i, j :: 0 <= i < |abstractions| && 0 <= j < |abstractions[i].fileIndices| ==>
      abstractions[i].fileIndices[j] >= 0
  }

  /**
   * A related file inside the corpus is shown with its path and its content whole when
   * it has at most 500 characters; a longer content shows its first 500 characters
   * and the marker.
   */
  lemma SampleLineShowsFile(files: seq<FileContent>, fileIdx: int)
    requires 0 <= fileIdx < |files|
    ensures Contains(SampleLine(files, fileIdx), files[fileIdx].path)
    ensures Contains(SampleLine(files, fileIdx), Head(files[fileIdx].content, SampleLimit))
    ensures |files[fileIdx].content| > SampleLimit ==> Contains(SampleLine(files, fileIdx), SampleMarker)
  {
    var f := files[fileIdx];
    var head := "  File " + FormatInt(fileIdx) + " (";
    var sample := Shorten(f.content, SampleLimit, SampleMarker);
    ContainsPiece(head, f.path, "):\n" + sample + "\n\n");
    assert head + f.path + ("):\n" + sample + "\n\n") == SampleLine(files, fileIdx);
    ShortenShowsHead(f.content, SampleLimit, SampleMarker);
    ContainsWithin(head + f.path + "):\n", sample, "\n\n", Head(f.content, SampleLimit));
    if |f.content| > SampleLimit {
      ContainsWithin(head + f.path + "):\n", sample, "\n\n", SampleMarker);
    }
  }

  /** Related files that all lie past the corpus contribute nothing to the context. */
  lemma {:induction false} OutOfCorpusFilesShowNothing(files: seq<FileContent>, indices: seq<int>)
    requires forall j :: 0 <= j < |indices| ==> indices[j] >= |files|
    ensures Join(indices, SampleLines(files)) == ""
  {
    if indices != [] {
      OutOfCorpusFilesShowNothing(files, indices[..|indices| - 1]);
    }
  }

  /**
   * The listing shows every abstraction under a "<index> # <name>" reference that
   * the resolver reads back as its index.
   */
  lemma ListingLineResolves(a: Abstraction)
    ensures ExtractIndex(StrV(FormatInt(a.index) + " # " + (a.name + ": " + a.description))) == Ok(a.index)
  {
    ExtractIndexOfListingEntry(a.index, a.name + ": " + a.description);
  }

  /** The prompt lists every abstraction. */
  lemma RelationshipsPromptListsEveryAbstraction(input: AnalyzeRelationshipsInput, k: nat)
    requires k < |input.abstractions|
    ensures Contains(RelationshipsPrompt(input).user, AbstractionListingLine(input.abstractions[k]))
  {
    var abs := input.abstractions;
    var listing := Join(abs, AbstractionListingLine);
    var rest := CodeContextHeader + Join(abs, AbstractionContexts(input.files)) + RelationshipsInstructions;
    JoinAt(abs, AbstractionListingLine, k);
    OccursInMiddle(Join(abs[..k], AbstractionListingLine), AbstractionListingLine(abs[k]), Join(abs[k + 1..], AbstractionListingLine));
    RegroupTail(RelationshipsHeader(input.projectName), listing, CodeContextHeader,
      Join(abs, AbstractionContexts(input.files)), RelationshipsInstructions);
    ContainsWithin(RelationshipsHeader(input.projectName), listing, rest, AbstractionListingLine(abs[k]));
  }

  /**
   * The code context of every abstraction holds the sample of each related file, and
   * so the path and the head of the content of each one inside the corpus.
   */
  lemma RelationshipsPromptShowsRelatedFiles(input: AnalyzeRelationshipsInput, k: nat, j: nat)
    requires k < |input.abstractions| && j < |input.abstractions[k].fileIndices|
    ensures Contains(RelationshipsPrompt(input).user,
      SampleLine(input.files, input.abstractions[k].fileIndices[j]))
    ensures var idx := input.abstractions[k].fileIndices[j];
      0 <= idx < |input.files| ==>
        && Contains(RelationshipsPrompt(input).user, input.files[idx].path)
        && Contains(RelationshipsPrompt(input).user, Head(input.files[idx].content, SampleLimit))
  {
    var abs := input.abstractions;
    var a := abs[k];
    var render := SampleLines(input.files);
    var samples := Join(a.fileIndices, render);
    JoinAt(a.fileIndices, render, j);
    OccursInMiddle(Join(a.fileIndices[..j], render), render(a.fileIndices[j]), Join(a.fileIndices[j + 1..], render));
    var head := "\n### Abstraction " + FormatInt(a.index) + ": " + a.name + "\n" + "Related files:\n";
    ContainsWithin(head, samples, "", render(a.fileIndices[j]));
    assert head + samples + "" == AbstractionContext(input.files, a);
    var contexts := AbstractionContexts(input.files);
    var all := Join(abs, contexts);
    JoinAt(abs, contexts, k);
    ContainsWithin(Join(abs[..k], contexts), contexts(abs[k]), Join(abs[k + 1..], contexts), render(a.fileIndices[j]));
    ContainsWithin(RelationshipsHeader(input.projectName) + Join(abs, AbstractionListingLine) + CodeContextHeader,
      all, RelationshipsInstructions, render(a.fileIndices[j]));
    var idx := a.fileIndices[j];
    if 0 <= idx < |input.files| {
      var prompt := RelationshipsPrompt(input).user;
      SampleLineShowsFile(input.files, idx);
      ContainsTransitive(prompt, SampleLine(input.files, idx), input.files[idx].path);
      ContainsTransitive(prompt, SampleLine(input.files, idx), Head(input.files[idx].content, SampleLimit));
    }
  }

  /** The first builder loop. */
  method BuildAbstractionListing(abstractions: seq<Abstraction>) returns (text: string)
    ensures text == Join(abstractions, AbstractionListingLine)
  {
    var abstractionListBuilder := "";
    var i := 0;
    while i < |abstractions|
      invariant 0 <= i <= |abstractions|
      invariant abstractionListBuilder == Join(abstractions[..i], AbstractionListingLine)
    {
      var a := abstractions[i];
      JoinSnoc(abstractions, AbstractionListingLine, i);
      abstractionListBuilder := abstractionListBuilder
        + ("- " + FormatInt(a.index) + " # " + a.name + ": " + a.description + "\n");
      i := i + 1;
    }
    assert abstractions[..|abstractions|] == abstractions;
    text := abstractionListBuilder;
  }

  /** The inner loop of the code context: the samples of one abstraction's files. */
  /** The body of the inner loop for a file inside the corpus: header line and sample. */
  method FormatSample(files: seq<FileContent>, fileIdx: int) returns (line: string)
    requires 0 <= fileIdx < |files|
    ensures line == SampleLine(files, fileIdx)
  {
    var file := files[fileIdx];
    var sample := file.content;
    if |sample| > SampleLimit {
      sample := sample[..SampleLimit] + SampleMarker;
    }
    line := "  File " + FormatInt(fileIdx) + " (" + file.path + "):\n" + sample + "\n\n";
  }

  method BuildSamples(files: seq<FileContent>, fileIndices: seq<int>) returns (text: string)
    requires forall j :: 0 <= j < |fileIndices| ==> fileIndices[j] >= 0
    ensures text == Join(fileIndices, SampleLines(files))
  {
    text := "";
    var j := 0;
    while j < |fileIndices|
      invariant 0 <= j <= |fileIndices|
      invariant text == Join(fileIndices[..j], SampleLines(files))
    {
      var fileIdx := fileIndices[j];
      JoinSnoc(fileIndices, SampleLines(files), j);
      assert Join(fileIndices[..j + 1], SampleLines(files)) == text + SampleLine(files, fileIdx);
      if fileIdx < |files| {
        var line := FormatSample(files, fileIdx);
        text := text + line;
      } else {
        assert SampleLine(files, fileIdx) == "";
        assert text + SampleLine(files, fileIdx) == text;
      }
      j := j + 1;
    }
    assert fileIndices[..|fileIndices|] == fileIndices;
  }

  /** The outer loop of the code context. */
  method BuildCodeContext(abstractions: seq<Abstraction>, files: seq<FileContent>) returns (text: string)
    requires FileIndicesNonNegative(abstractions)
    ensures text == Join(abstractions, AbstractionContexts(files))
  {
    var codeContextBuilder := "";
    var i := 0;
    while i < |abstractions|
      invariant 0 <= i <= |abstractions|
      invariant codeContextBuilder == Join(abstractions[..i], AbstractionContexts(files))
    {
      var a := abstractions[i];
      var samples := BuildSamples(files, a.fileIndices);
      JoinSnoc(abstractions, AbstractionContexts(files), i);
      codeContextBuilder := codeContextBuilder
        + ("\n### Abstraction " + FormatInt(a.index) + ": " + a.name + "\n" + "Related files:\n" + samples);
      i := i + 1;
    }
    assert abstractions[..|abstractions|] == abstractions;
    text := codeContextBuilder;
  }

  method BuildRelationshipsPrompt(input: AnalyzeRelationshipsInput) returns (prompt: Prompt)
    requires FileIndicesNonNegative(input.abstractions)
    ensures prompt == RelationshipsPrompt(input)
  {
    var listing := BuildAbstractionListing(input.abstractions);
    var context := BuildCodeContext(input.abstractions, input.files);
    prompt := Prompt(
      RelationshipsHeader(input.projectName) + listing + CodeContextHeader + context + RelationshipsInstructions,
      RelationshipsSystemPrompt);
  }

  // ---------------------------------------------------------------------------
  // Edge checking
  // ---------------------------------------------------------------------------

  /**
   * The checks on edge `i`, in the order the stage makes them: `from` resolves,
   * `to` resolves, `from` is in range, `to` is in range.
   */
  function CheckEdge(yr: YamlRelationship, i: nat, count: int): Result<Relationship, Error> {
    match ExtractIndex(yr.from)
    case Err(e) => Err(InvalidFromIndex(i, e))
    case Ok(fromIdx) =>
      match ExtractIndex(yr.to)
      case Err(e) => Err(InvalidToIndex(i, e))
      case Ok(toIdx) =>
        if fromIdx < 0 || fromIdx >= count then Err(FromIndexOutOfBounds(fromIdx, i))
        else if toIdx < 0 || toIdx >= count then Err(ToIndexOutOfBounds(toIdx, i))
        else Ok(Relationship(fromIdx, toIdx, yr.edgeLabel))
  }

  /**
   * An edge is accepted exactly when both endpoints resolve to abstraction indices,
   * and then keeps them and its label; a failure names the first check that fails, in
   * the order `from` resolves, `to` resolves, `from` in range, `to` in range.
   */
  lemma CheckEdgeSpec(yr: YamlRelationship, i: nat, count: int)
    ensures var r := CheckEdge(yr, i, count);
      r.Ok? <==>
        && ExtractIndex(yr.from).Ok? && ExtractIndex(yr.to).Ok?
        && 0 <= ExtractIndex(yr.from).value < count && 0 <= ExtractIndex(yr.to).value < count
    ensures var r := CheckEdge(yr, i, count);
      r.Ok? ==> r.value == Relationship(ExtractIndex(yr.from).value, ExtractIndex(yr.to).value, yr.edgeLabel)
    ensures ExtractIndex(yr.from).Err? ==> CheckEdge(yr, i, count) == Err(InvalidFromIndex(i, ExtractIndex(yr.from).error))
    ensures ExtractIndex(yr.from).Ok? && ExtractIndex(yr.to).Err? ==>
      CheckEdge(yr, i, count) == Err(InvalidToIndex(i, ExtractIndex(yr.to).error))
    ensures (ExtractIndex(yr.from).Ok? && ExtractIndex(yr.to).Ok?
      && !(0 <= ExtractIndex(yr.from).value < count)) ==>
      CheckEdge(yr, i, count) == Err(FromIndexOutOfBounds(ExtractIndex(yr.from).value, i))
    ensures (ExtractIndex(yr.from).Ok? && ExtractIndex(yr.to).Ok?
      && 0 <= ExtractIndex(yr.from).value < count && !(0 <= ExtractIndex(yr.to).value < count)) ==>
      CheckEdge(yr, i, count) == Err(ToIndexOutOfBounds(ExtractIndex(yr.to).value, i))
  {
  }

  /** An endpoint equal to the abstraction count is rejected: the bound is exclusive. */
  lemma CheckEdgeBoundIsExclusive(i: nat, count: nat, edgeLabel: string)
    ensures CheckEdge(YamlRelationship(IntV(0), IntV(count), edgeLabel), i, count + 1).Ok?
    ensures count > 0 ==> CheckEdge(YamlRelationship(IntV(0), IntV(count), edgeLabel), i, count) == Err(ToIndexOutOfBounds(count, i))
    ensures CheckEdge(YamlRelationship(IntV(-1), IntV(0), edgeLabel), i, count) == Err(FromIndexOutOfBounds(-1, i))
  {
  }

  /** The first edge from `from` on that fails its checks. */
  function FirstFailingEdge(details: seq<YamlRelationship>, count: int, from: nat): (r: nat)
    requires from <= |details|
    requires exists k :: from <= k < |details| && CheckEdge(details[k], k, count).Err?
    ensures from <= r < |details| && CheckEdge(details[r], r, count).Err?
    ensures forall k :: from <= k < r ==> CheckEdge(details[k], k, count).Ok?
    decreases |details| - from
  {
    if CheckEdge(details[from], from, count).Err? then from else FirstFailingEdge(details, count, from + 1)
  }

  /** The edges as the stage returns them: all of them checked, or the first failure. */
  function ResolveEdges(details: seq<YamlRelationship>, count: int): (r: Result<seq<Relationship>, Error>)
    ensures r.Ok? <==> forall k :: 0 <= k < |details| ==> CheckEdge(details[k], k, count).Ok?
  {
    if forall k :: 0 <= k < |details| ==> CheckEdge(details[k], k, count).Ok? then
      Ok(seq(|details|, k requires 0 <= k < |details| => CheckEdge(details[k], k, count).value))
    else
      var k := FirstFailingEdge(details, count, 0);
      Err(CheckEdge(details[k], k, count).error)
  }

  /**
   * Accepted edges are in bounds, as many as proposed, each at its own position with
   * its endpoints and label; a rejection is the error of the first failing edge.
   */
  lemma ResolveEdgesSpec(details: seq<YamlRelationship>, count: int)
    ensures var r := ResolveEdges(details, count);
      r.Ok? ==>
        && EdgesInBounds(r.value, count)
        && |r.value| == |details|
        && forall k :: 0 <= k < |details| ==>
             r.value[k].edgeLabel == details[k].edgeLabel
             && Ok(r.value[k].fromIndex) == ExtractIndex(details[k].from)
             && Ok(r.value[k].toIndex) == ExtractIndex(details[k].to)
    ensures var r := ResolveEdges(details, count);
      r.Err? ==>
        exists k :: 0 <= k < |details| && CheckEdge(details[k], k, count).Err?
          && r == Err(CheckEdge(details[k], k, count).error)
          && (forall m :: 0 <= m < k ==> CheckEdge(details[m], m, count).Ok?)
  {
    var r := ResolveEdges(details, count);
    if r.Ok? {
      forall k | 0 <= k < |details|
        ensures 0 <= r.value[k].fromIndex < count && 0 <= r.value[k].toIndex < count
        ensures r.value[k].edgeLabel == details[k].edgeLabel
        ensures Ok(r.value[k].fromIndex) == ExtractIndex(details[k].from)
        ensures Ok(r.value[k].toIndex) == ExtractIndex(details[k].to)
      {
        CheckEdgeSpec(details[k], k, count);
      }
    } else {
      var k := FirstFailingEdge(details, count, 0);
      assert r == Err(CheckEdge(details[k], k, count).error);
    }
  }

  /** The conversion loop: `relationships[i]` is filled edge by edge, the first failure returns. */
  /** The first edge that fails its checks decides the error. */
  lemma FirstEdgeFailureDecides(details: seq<YamlRelationship>, count: int, i: nat)
    requires i < |details| && CheckEdge(details[i], i, count).Err?
    requires forall k :: 0 <= k < i ==> CheckEdge(details[k], k, count).Ok?
    ensures ResolveEdges(details, count) == Err(CheckEdge(details[i], i, count).error)
  {
    assert FirstFailingEdge(details, count, 0) == i;
  }

  method ConvertEdges(details: seq<YamlRelationship>, count: int) returns (r: Result<seq<Relationship>, Error>)
    ensures r == ResolveEdges(details, count)
  {
    var relationships := new Relationship[|details|];
    var i := 0;
    while i < |details|
      invariant 0 <= i <= |details|
      invariant forall k :: 0 <= k < i ==> CheckEdge(details[k], k, count).Ok?
      invariant forall k :: 0 <= k < i ==> relationships[k] == CheckEdge(details[k], k, count).value
    {
      var yr := details[i];
      var fromIdx := ExtractIndex(yr.from);
      if fromIdx.Err? {
        assert CheckEdge(yr, i, count) == Err(InvalidFromIndex(i, fromIdx.error));
        FirstEdgeFailureDecides(details, count, i);
        return Err(InvalidFromIndex(i, fromIdx.error));
      }
      var toIdx := ExtractIndex(yr.to);
      if toIdx.Err? {
        assert CheckEdge(yr, i, count) == Err(InvalidToIndex(i, toIdx.error));
        FirstEdgeFailureDecides(details, count, i);
        return Err(InvalidToIndex(i, toIdx.error));
      }
      if fromIdx.value < 0 || fromIdx.value >= count {
        assert CheckEdge(yr, i, count) == Err(FromIndexOutOfBounds(fromIdx.value, i));
        FirstEdgeFailureDecides(details, count, i);
        return Err(FromIndexOutOfBounds(fromIdx.value, i));
      }
      if toIdx.value < 0 || toIdx.value >= count {
        assert CheckEdge(yr, i, count) == Err(ToIndexOutOfBounds(toIdx.value, i));
        FirstEdgeFailureDecides(details, count, i);
        return Err(ToIndexOutOfBounds(toIdx.value, i));
      }
      assert CheckEdge(yr, i, count) == Ok(Relationship(fromIdx.value, toIdx.value, yr.edgeLabel));
      relationships[i] := Relationship(fromIdx.value, toIdx.value, yr.edgeLabel);
      i := i + 1;
    }
    assert relationships[..] == ResolveEdges(details, count).value;
    r := Ok(relationships[..]);
  }

  // ---------------------------------------------------------------------------
  // The stage
  // ---------------------------------------------------------------------------

  function ParseRelationships(backend: Backend, response: string): (r: Result<YamlRelationshipData, Error>)
    ensures r.Err? ==> r.error.YamlParseFailed? && r.error.response == response
  {
    match backend.unmarshalRelationships(ExtractYamlBlock(response))
    case Ok(parsed) => Ok(parsed)
    case Err(e) => Err(YamlParseFailed(e, response))
  }

  /** What AnalyzeRelationships returns. */
  function RelationshipsOutcome(input: AnalyzeRelationshipsInput, backend: Backend): (r: Result<RelationshipData, Error>)
    ensures |input.abstractions| == 0 ==> r == Err(NoAbstractionsProvided)
    ensures r.Ok? ==> EdgesInBounds(r.value.details, |input.abstractions|)
  {
    if |input.abstractions| == 0 then Err(NoAbstractionsProvided)
    else
      match backend.generate(RelationshipsPrompt(input))
      case Err(e) => Err(LlmCallFailed(e))
      case Ok(response) =>
        match ParseRelationships(backend, response)
        case Err(e) => Err(e)
        case Ok(data) =>
          ResolveEdgesSpec(data.details, |input.abstractions|);
          match ResolveEdges(data.details, |input.abstractions|)
          case Err(e) => Err(e)
          case Ok(relationships) => Ok(RelationshipData(data.summary, relationships))
  }

  /**
   * Once the answer parses, the stage succeeds exactly when every edge passes its
   * checks, and then returns the summary unchanged with one edge per proposed edge.
   */
  lemma RelationshipsOutcomeOfParsed(input: AnalyzeRelationshipsInput, backend: Backend, data: YamlRelationshipData)
    requires |input.abstractions| > 0
    requires backend.generate(RelationshipsPrompt(input)).Ok?
    requires ParseRelationships(backend, backend.generate(RelationshipsPrompt(input)).value) == Ok(data)
    ensures var r := RelationshipsOutcome(input, backend);
      r.Ok? <==> forall k :: 0 <= k < |data.details| ==> CheckEdge(data.details[k], k, |input.abstractions|).Ok?
    ensures var r := RelationshipsOutcome(input, backend);
      r.Ok? ==> r.value.summary == data.summary && |r.value.details| == |data.details|
  {
    ResolveEdgesSpec(data.details, |input.abstractions|);
  }

  /**
   * services/relationship_analyzer.go AnalyzeRelationships, with the generator
   * requests it makes.
   */
  method AnalyzeRelationships(input: AnalyzeRelationshipsInput, backend: Backend)
    returns (r: Result<RelationshipData, Error>, calls: seq<Prompt>)
    requires FileIndicesNonNegative(input.abstractions)  // a negative file index panics
    ensures r == RelationshipsOutcome(input, backend)
    ensures calls == if |input.abstractions| == 0 then [] else [RelationshipsPrompt(input)]
  {
    calls := [];
    if |input.abstractions| == 0 {
      return Err(NoAbstractionsProvided), calls;
    }
    var prompt := BuildRelationshipsPrompt(input);
    calls := calls + [prompt];
    var response := backend.generate(prompt);
    if response.Err? {
      return Err(LlmCallFailed(response.error)), calls;
    }
    var yamlContent := response.value;
    if Contains(response.value, Fence) {
      yamlContent := ExtractYamlBlock(response.value);
    }
    var yamlData := backend.unmarshalRelationships(yamlContent);
    if yamlData.Err? {
      return Err(YamlParseFailed(yamlData.error, response.value)), calls;
    }
    var relationships := ConvertEdges(yamlData.value.details, |input.abstractions|);
    if relationships.Err? {
      return Err(relationships.error), calls;
    }
    r := Ok(RelationshipData(yamlData.value.summary, relationships.value));
  }
}
