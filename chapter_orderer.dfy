/**
 * The ordering stage (services/chapter_orderer.go): the generator proposes a teaching
 * order, and the stage accepts it only if it names every abstraction exactly once.
 */
module ChapterOrderer {
  import opened Wrappers
  import opened Errors
  import opened GoStrings
  import opened Models
  import opened Oracles
  import opened AbstractionAnalyzer
  import opened RelationshipAnalyzer

  // ---------------------------------------------------------------------------
  // The prompt
  // ---------------------------------------------------------------------------

  const OrderSystemPrompt := "You are an expert technical educator."
  const ContextHeader := "\n\nCONTEXT:\n"
  const OrderInstructions :=
    "\n\nYour task: Determine the best order to explain these abstractions to a beginner.\nReturn a YAML list of abstraction INDICES in teaching order, each as \"index # Name\".\nIMPORTANT: Include ALL abstractions exactly once.\n"

  function OrderHeader(projectName: string): string {
    "You are creating a tutorial for the \"" + projectName + "\" project.\n\nABSTRACTIONS:\n"
  }

  /** The name of abstraction `i`; every edge the stage renders is in bounds. */
  function NameAt(abstractions: seq<Abstraction>, i: int): string {
    if 0 <= i < |abstractions| then abstractions[i].name else ""
  }

  function RelationshipLine(abstractions: seq<Abstraction>, rel: Relationship): string {
    "- " + FormatInt(rel.fromIndex) + " (" + NameAt(abstractions, rel.fromIndex) + ") → "
      + FormatInt(rel.toIndex) + " (" + NameAt(abstractions, rel.toIndex) + "): " + rel.edgeLabel + "\n"
  }

  function RelationshipLines(abstractions: seq<Abstraction>): Relationship -> string {
    rel => RelationshipLine(abstractions, rel)
  }

  function RelationshipContext(abstractions: seq<Abstraction>, data: RelationshipData): string {
    "Project Summary: " + data.summary + "\n\n" + "Relationships:\n"
      + Join(data.details, RelationshipLines(abstractions))
  }

  function OrderPrompt(input: OrderChaptersInput): Prompt {
    Prompt(
      OrderHeader(input.projectName) + Join(input.abstractions, AbstractionListingLine)
        + ContextHeader + RelationshipContext(input.abstractions, input.relationships) + OrderInstructions,
      OrderSystemPrompt)
  }

  /** Each edge is shown with the names of both its endpoints and its label. */
  lemma RelationshipLineNamesEndpoints(abstractions: seq<Abstraction>, rel: Relationship)
    requires 0 <= rel.fromIndex < |abstractions| && 0 <= rel.toIndex < |abstractions|
    ensures Contains(RelationshipLine(abstractions, rel), abstractions[rel.fromIndex].name)
    ensures Contains(RelationshipLine(abstractions, rel), abstractions[rel.toIndex].name)
    ensures Contains(RelationshipLine(abstractions, rel), rel.edgeLabel)
  {
    var fromName := abstractions[rel.fromIndex].name;
    var toName := abstractions[rel.toIndex].name;
    var a := "- " + FormatInt(rel.fromIndex) + " (";
    var b := ") → " + FormatInt(rel.toIndex) + " (";
    var line := RelationshipLine(abstractions, rel);
    assert line == a + fromName + (b + toName + "): " + rel.edgeLabel + "\n");
    ContainsPiece(a, fromName, b + toName + "): " + rel.edgeLabel + "\n");
    assert line == a + fromName + b + toName + ("): " + rel.edgeLabel + "\n");
    ContainsPiece(a + fromName + b, toName, "): " + rel.edgeLabel + "\n");
    assert line == a + fromName + b + toName + "): " + rel.edgeLabel + "\n";
    ContainsPiece(a + fromName + b + toName + "): ", rel.edgeLabel, "\n");
  }

  /** The prompt shows every edge of the relationship data. */
  lemma OrderPromptShowsEveryEdge(input: OrderChaptersInput, k: nat)
    requires k < |input.relationships.details|
    ensures Contains(OrderPrompt(input).user,
      RelationshipLine(input.abstractions, input.relationships.details[k]))
    ensures var rel := input.relationships.details[k];
      0 <= rel.fromIndex < |input.abstractions| && 0 <= rel.toIndex < |input.abstractions| ==>
        && Contains(OrderPrompt(input).user, input.abstractions[rel.fromIndex].name)
        && Contains(OrderPrompt(input).user, input.abstractions[rel.toIndex].name)
        && Contains(OrderPrompt(input).user, rel.edgeLabel)
  {
    var details := input.relationships.details;
    var render := RelationshipLines(input.abstractions);
    JoinAt(details, render, k);
    OccursInMiddle(Join(details[..k], render), render(details[k]), Join(details[k + 1..], render));
    var head := "Project Summary: " + input.relationships.summary + "\n\n" + "Relationships:\n";
    ContainsWithin(head, Join(details, render), "", render(details[k]));
    assert head + Join(details, render) + "" == RelationshipContext(input.abstractions, input.relationships);
    ContainsWithin(OrderHeader(input.projectName) + Join(input.abstractions, AbstractionListingLine) + ContextHeader,
      RelationshipContext(input.abstractions, input.relationships), OrderInstructions, render(details[k]));
    var rel := details[k];
    if 0 <= rel.fromIndex < |input.abstractions| && 0 <= rel.toIndex < |input.abstractions| {
      var prompt := OrderPrompt(input).user;
      var line := RelationshipLine(input.abstractions, rel);
      RelationshipLineNamesEndpoints(input.abstractions, rel);
      ContainsTransitive(prompt, line, input.abstractions[rel.fromIndex].name);
      ContainsTransitive(prompt, line, input.abstractions[rel.toIndex].name);
      ContainsTransitive(prompt, line, rel.edgeLabel);
    }
  }

  /** The relationship builder: the summary, a heading and one line per edge. */
  method BuildRelationshipContext(abstractions: seq<Abstraction>, data: RelationshipData) returns (text: string)
    requires EdgesInBounds(data.details, |abstractions|)  // an endpoint past the list panics
    ensures text == RelationshipContext(abstractions, data)
  {
    var relationshipBuilder := "Project Summary: " + data.summary + "\n\n" + "Relationships:\n";
    var lines := "";
    var i := 0;
    while i < |data.details|
      invariant 0 <= i <= |data.details|
      invariant lines == Join(data.details[..i], RelationshipLines(abstractions))
    {
      var rel := data.details[i];
      var fromName := abstractions[rel.fromIndex].name;
      var toName := abstractions[rel.toIndex].name;
      JoinSnoc(data.details, RelationshipLines(abstractions), i);
      lines := lines + ("- " + FormatInt(rel.fromIndex) + " (" + fromName + ") → "
        + FormatInt(rel.toIndex) + " (" + toName + "): " + rel.edgeLabel + "\n");
      i := i + 1;
    }
    assert data.details[..|data.details|] == data.details;
    text := relationshipBuilder + lines;
  }

  method BuildOrderPrompt(input: OrderChaptersInput) returns (prompt: Prompt)
    requires EdgesInBounds(input.relationships.details, |input.abstractions|)
    ensures prompt == OrderPrompt(input)
  {
    var listing := BuildAbstractionListing(input.abstractions);
    var context := BuildRelationshipContext(input.abstractions, input.relationships);
    prompt := Prompt(
      OrderHeader(input.projectName) + listing + ContextHeader + context + OrderInstructions,
      OrderSystemPrompt);
  }

  // ---------------------------------------------------------------------------
  // Validation of the proposed order
  // ---------------------------------------------------------------------------

  /** The indices the first `i` entries resolve to: the `seen` map after `i` steps. */
  function Prior(vals: seq<YamlValue>, i: nat): set<int>
    requires i <= |vals|
  {
    set j | 0 <= j < i && ExtractIndex(vals[j]).Ok? :: ExtractIndex(vals[j]).value
  }

  /** Why entry `i` is refused, given the entries before it: its three checks in order. */
  function EntryError(vals: seq<YamlValue>, count: nat, i: nat): Option<Error>
    requires i < |vals|
  {
    match ExtractIndex(vals[i])
    case Err(e) => Some(IndexExtractionFailed(i, e))
    case Ok(idx) =>
      if idx < 0 || idx >= count then Some(IndexOutOfBounds(idx, i))
      else if idx in Prior(vals, i) then Some(DuplicateIndex(idx))
      else None
  }

  predicate EntriesPass(vals: seq<YamlValue>, count: nat) {
    forall k :: 0 <= k < |vals| ==> EntryError(vals, count, k).None?
  }

  function FirstFailingEntry(vals: seq<YamlValue>, count: nat, from: nat): (r: nat)
    requires from <= |vals|
    requires exists k :: from <= k < |vals| && EntryError(vals, count, k).Some?
    ensures from <= r < |vals| && EntryError(vals, count, r).Some?
    ensures forall k :: from <= k < r ==> EntryError(vals, count, k).None?
    decreases |vals| - from
  {
    if EntryError(vals, count, from).Some? then from else FirstFailingEntry(vals, count, from + 1)
  }

  /** The resolved indices of entries that all pass. */
  function Values(vals: seq<YamlValue>, count: nat): seq<int>
    requires EntriesPass(vals, count)
  {
    seq(|vals|, k requires 0 <= k < |vals| && EntriesPass(vals, count) =>
      assert EntryError(vals, count, k).None?; ExtractIndex(vals[k]).value)
  }

  /** The members of `[0, m)` not in `seen`, in ascending order. */
  function UnseenBelow(seen: set<int>, m: nat): (r: seq<int>)
    ensures forall k :: 0 <= k < |r| ==> 0 <= r[k] < m && r[k] !in seen
    ensures forall v :: 0 <= v < m && v !in seen ==> v in r
    ensures forall j, k :: 0 <= j < k < |r| ==> r[j] < r[k]
  {
    if m == 0 then [] else UnseenBelow(seen, m - 1) + (if m - 1 in seen then [] else [m - 1])
  }

  /** What OrderChapters returns after the answer has been parsed. */
  function ValidateOrder(vals: seq<YamlValue>, count: nat): Result<seq<int>, Error> {
    if !EntriesPass(vals, count) then
      Err(EntryError(vals, count, FirstFailingEntry(vals, count, 0)).value)
    else if |vals| != count then
      Err(MissingAbstractions(UnseenBelow(Prior(vals, |vals|), count)))
    else
      Ok(Values(vals, count))
  }

  // Counting: a repetition-free list of values below `m` has at most `m` entries,
  // and a list holding every value below `m` has at least `m`.

  predicate Distinct(s: seq<int>) {
    forall i, j :: 0 <= i < j < |s| ==> s[i] != s[j]
  }

  predicate Below(s: seq<int>, m: int) {
    forall i :: 0 <= i < |s| ==> 0 <= s[i] < m
  }

  /** The values of `s` with those above `v` moved one down, closing the gap at `v`. */
  function Squeeze(s: seq<int>, v: int): (t: seq<int>)
    ensures |t| == |s|
    ensures forall k :: 0 <= k < |s| ==> t[k] == if s[k] > v then s[k] - 1 else s[k]
  {
    seq(|s|, k requires 0 <= k < |s| => if s[k] > v then s[k] - 1 else s[k])
  }

  /** Squeezing out a value `s` lacks keeps it repetition-free, one range smaller. */
  lemma SqueezeBelow(s: seq<int>, m: nat, v: int)
    requires Distinct(s) && Below(s, m) && 0 <= v < m && v !in s
    ensures Distinct(Squeeze(s, v)) && Below(Squeeze(s, v), m - 1)
  {
  }

  lemma {:induction false} DistinctBelowBound(s: seq<int>, m: nat)
    requires Distinct(s) && Below(s, m)
    ensures |s| <= m
    decreases |s|
  {
    if s != [] {
      var x := s[|s| - 1];
      var t := s[..|s| - 1];
      assert x !in t;
      SqueezeBelow(t, m, x);
      DistinctBelowBound(Squeeze(t, x), m - 1);
    }
  }

  lemma {:induction false} CoveringBound(s: seq<int>, m: nat)
    requires forall v :: 0 <= v < m ==> v in s
    ensures |s| >= m
  {
    if m > 0 {
      assert m - 1 in s;
      var i :| 0 <= i < |s| && s[i] == m - 1;
      var t := s[..i] + s[i + 1..];
      forall v | 0 <= v < m - 1 ensures v in t {
        assert v in s;
        var k :| 0 <= k < |s| && s[k] == v;
        assert k < i ==> t[k] == v;
        assert k > i ==> t[k - 1] == v;
      }
      CoveringBound(t, m - 1);
    }
  }

  /** A repetition-free list of `m` values below `m` holds each of them. */
  lemma PermutationCovers(order: seq<int>, m: nat)
    requires IsPermutation(order, m)
    ensures forall v :: 0 <= v < m ==> v in order
  {
    forall v | 0 <= v < m ensures v in order {
      MissingValueShrinks(order, m, v);
    }
  }

  lemma MissingValueShrinks(s: seq<int>, m: nat, v: int)
    requires Distinct(s) && Below(s, m) && 0 <= v < m
    ensures v in s || |s| <= m - 1
  {
    if v !in s {
      SqueezeBelow(s, m, v);
      DistinctBelowBound(Squeeze(s, v), m - 1);
    }
  }

  lemma PriorIsValues(vals: seq<YamlValue>, count: nat, i: nat)
    requires EntriesPass(vals, count) && i <= |vals|
    ensures forall x :: x in Prior(vals, i) <==> exists k :: 0 <= k < i && Values(vals, count)[k] == x
  {
    forall x ensures x in Prior(vals, i) <==> exists k :: 0 <= k < i && Values(vals, count)[k] == x {
      if x in Prior(vals, i) {
        var j :| 0 <= j < i && ExtractIndex(vals[j]).Ok? && ExtractIndex(vals[j]).value == x;
        assert Values(vals, count)[j] == x;
      }
      if exists k :: 0 <= k < i && Values(vals, count)[k] == x {
        var k :| 0 <= k < i && Values(vals, count)[k] == x;
        assert EntryError(vals, count, k).None?;
      }
    }
  }

  /** Entries that all pass resolve to distinct abstraction indices, one per entry. */
  lemma PassingValues(vals: seq<YamlValue>, count: nat)
    requires EntriesPass(vals, count)
    ensures |Values(vals, count)| == |vals|
    ensures Distinct(Values(vals, count)) && Below(Values(vals, count), count)
    ensures forall k :: 0 <= k < |vals| ==> Ok(Values(vals, count)[k]) == ExtractIndex(vals[k])
  {
    var s := Values(vals, count);
    forall k | 0 <= k < |vals| ensures Ok(s[k]) == ExtractIndex(vals[k]) && 0 <= s[k] < count {
      assert EntryError(vals, count, k).None?;
    }
    forall i, j | 0 <= i < j < |s| ensures s[i] != s[j] {
      assert EntryError(vals, count, i).None?;
      assert EntryError(vals, count, j).None?;
      assert s[i] in Prior(vals, j);
    }
  }

  /**
   * An accepted order lists every abstraction index exactly once, taking entry `k`
   * from the `k`-th proposed entry; it is accepted exactly when every entry passes
   * and there are as many entries as abstractions.
   */
  lemma ValidateOrderSound(vals: seq<YamlValue>, count: nat)
    ensures ValidateOrder(vals, count).Ok? <==> EntriesPass(vals, count) && |vals| == count
    ensures var r := ValidateOrder(vals, count);
      r.Ok? ==>
        && IsPermutation(r.value, count)
        && (forall v :: 0 <= v < count ==> v in r.value)
        && (forall k :: 0 <= k < |vals| ==> Ok(r.value[k]) == ExtractIndex(vals[k]))
  {
    if EntriesPass(vals, count) && |vals| == count {
      PassingValues(vals, count);
      PermutationCovers(Values(vals, count), count);
    }
  }

  /** More entries than abstractions never pass: some entry is out of range or repeated. */
  lemma TooManyEntriesFail(vals: seq<YamlValue>, count: nat)
    requires |vals| > count
    ensures !EntriesPass(vals, count)
    ensures var r := ValidateOrder(vals, count);
      r.Err? && (r.error.IndexExtractionFailed? || r.error.IndexOutOfBounds? || r.error.DuplicateIndex?)
  {
    if EntriesPass(vals, count) {
      PassingValues(vals, count);
      DistinctBelowBound(Values(vals, count), count);
    }
  }

  /**
   * Fewer entries that all pass are reported with the abstraction indices they leave
   * out, in ascending order; there are exactly as many as entries are short.
   */
  lemma MissingReported(vals: seq<YamlValue>, count: nat)
    requires EntriesPass(vals, count) && |vals| < count
    ensures ValidateOrder(vals, count).Err? && ValidateOrder(vals, count).error.MissingAbstractions?
    ensures var missing := ValidateOrder(vals, count).error.missing;
      && (forall j, k :: 0 <= j < k < |missing| ==> missing[j] < missing[k])
      && (forall v :: v in missing <==> 0 <= v < count && v !in Values(vals, count))
      && |missing| == count - |vals|
      && |missing| > 0
  {
    var s := Values(vals, count);
    var missing := UnseenBelow(Prior(vals, |vals|), count);
    PassingValues(vals, count);
    PriorIsValues(vals, count, |vals|);
    var both := s + missing;
    assert Distinct(both) by {
      forall i, j | 0 <= i < j < |both| ensures both[i] != both[j] {
        if j >= |s| && i < |s| {
          assert both[j] == missing[j - |s|];
          assert both[j] !in Prior(vals, |vals|);
        }
      }
    }
    DistinctBelowBound(both, count);
    forall v | 0 <= v < count ensures v in both {
      assert v in s || v in missing;
    }
    CoveringBound(both, count);
  }

  /** The first entry whose checks fail decides the error. */
  lemma FirstFailureDecides(vals: seq<YamlValue>, count: nat, i: nat)
    requires i < |vals| && EntryError(vals, count, i).Some?
    requires forall k :: 0 <= k < i ==> EntryError(vals, count, k).None?
    ensures ValidateOrder(vals, count) == Err(EntryError(vals, count, i).value)
  {
    assert FirstFailingEntry(vals, count, 0) == i;
  }

  /** A repeated index is reported even when the list is otherwise complete. */
  lemma RepeatIsDuplicate()
    ensures ValidateOrder([IntV(0), IntV(0)], 2) == Err(DuplicateIndex(0))
  {
    var vals := [IntV(0), IntV(0)];
    assert EntryError(vals, 2, 0).None?;
    assert 0 in Prior(vals, 1);
    FirstFailureDecides(vals, 2, 1);
  }

  lemma PriorSnoc(vals: seq<YamlValue>, i: nat)
    requires i < |vals| && ExtractIndex(vals[i]).Ok?
    ensures Prior(vals, i + 1) == Prior(vals, i) + {ExtractIndex(vals[i]).value}
  {
  }

  /** The conversion loop with its `seen` map, then the check for missing indices. */
  method ConvertOrder(vals: seq<YamlValue>, count: nat) returns (r: Result<seq<int>, Error>)
    ensures r == ValidateOrder(vals, count)
  {
    var orderedIndices := new int[|vals|];
    var seen: set<int> := {};
    var i := 0;
    while i < |vals|
      invariant 0 <= i <= |vals|
      invariant forall k :: 0 <= k < i ==> EntryError(vals, count, k).None?
      invariant forall k :: 0 <= k < i ==> Ok(orderedIndices[k]) == ExtractIndex(vals[k])
      invariant seen == Prior(vals, i)
    {
      var idx := ExtractIndex(vals[i]);
      if idx.Err? {
        FirstFailureDecides(vals, count, i);
        return Err(IndexExtractionFailed(i, idx.error));
      }
      if idx.value < 0 || idx.value >= count {
        FirstFailureDecides(vals, count, i);
        return Err(IndexOutOfBounds(idx.value, i));
      }
      if idx.value in seen {
        FirstFailureDecides(vals, count, i);
        return Err(DuplicateIndex(idx.value));
      }
      assert EntryError(vals, count, i).None?;
      PriorSnoc(vals, i);
      seen := seen + {idx.value};
      orderedIndices[i] := idx.value;
      i := i + 1;
    }
    assert EntriesPass(vals, count);
    if |vals| != count {
      var missing := CollectMissing(seen, count);
      assert ValidateOrder(vals, count) == Err(MissingAbstractions(UnseenBelow(Prior(vals, |vals|), count)));
      return Err(MissingAbstractions(missing));
    }
    PassingValues(vals, count);
    assert orderedIndices[..] == Values(vals, count);
    r := Ok(orderedIndices[..]);
  }

  /** The loop over `[0, count)` that gathers the indices no entry named. */
  method CollectMissing(seen: set<int>, count: nat) returns (missing: seq<int>)
    ensures missing == UnseenBelow(seen, count)
  {
    missing := [];
    var m := 0;
    while m < count
      invariant 0 <= m <= count
      invariant missing == UnseenBelow(seen, m)
    {
      assert UnseenBelow(seen, m + 1) == UnseenBelow(seen, m) + (if m in seen then [] else [m]);
      if m !in seen {
        missing := missing + [m];
      }
      m := m + 1;
    }
  }

  // ---------------------------------------------------------------------------
  // The stage
  // ---------------------------------------------------------------------------

  function ParseIndices(backend: Backend, response: string): (r: Result<seq<YamlValue>, Error>)
    ensures r.Err? ==> r.error.YamlParseFailed? && r.error.response == response
  {
    match backend.unmarshalIndices(ExtractYamlBlock(response))
    case Ok(parsed) => Ok(parsed)
    case Err(e) => Err(YamlParseFailed(e, response))
  }

  /** What OrderChapters returns: on success, a permutation of the abstraction indices. */
  function OrderOutcome(input: OrderChaptersInput, backend: Backend): (r: Result<OrderChaptersOutput, Error>)
    ensures |input.abstractions| == 0 ==> r == Err(NoAbstractionsProvided)
    ensures r.Ok? ==> IsPermutation(r.value.orderedIndices, |input.abstractions|)
  {
    if |input.abstractions| == 0 then Err(NoAbstractionsProvided)
    else
      match backend.generate(OrderPrompt(input))
      case Err(e) => Err(LlmCallFailed(e))
      case Ok(response) =>
        match ParseIndices(backend, response)
        case Err(e) => Err(e)
        case Ok(vals) =>
          ValidateOrderSound(vals, |input.abstractions|);
          match ValidateOrder(vals, |input.abstractions|)
          case Err(e) => Err(e)
          case Ok(order) => Ok(OrderChaptersOutput(order))
  }

  /**
   * services/chapter_orderer.go OrderChapters, with the generator requests it makes.
   */
  method OrderChapters(input: OrderChaptersInput, backend: Backend)
    returns (r: Result<OrderChaptersOutput, Error>, calls: seq<Prompt>)
    requires |input.abstractions| > 0 ==> EdgesInBounds(input.relationships.details, |input.abstractions|)
    ensures r == OrderOutcome(input, backend)
    ensures calls == if |input.abstractions| == 0 then [] else [OrderPrompt(input)]
  {
    calls := [];
    if |input.abstractions| == 0 {
      return Err(NoAbstractionsProvided), calls;
    }
    var prompt := BuildOrderPrompt(input);
    calls := calls + [prompt];
    var response := backend.generate(prompt);
    if response.Err? {
      return Err(LlmCallFailed(response.error)), calls;
    }
    var yamlContent := response.value;
    if Contains(response.value, Fence) {
      yamlContent := ExtractYamlBlock(response.value);
    }
    var yamlIndices := backend.unmarshalIndices(yamlContent);
    if yamlIndices.Err? {
      return Err(YamlParseFailed(yamlIndices.error, response.value)), calls;
    }
    var order := ConvertOrder(yamlIndices.value, |input.abstractions|);
    if order.Err? {
      return Err(order.error), calls;
    }
    r := Ok(OrderChaptersOutput(order.value));
  }
}
