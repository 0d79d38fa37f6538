# cb2utorial core in Dafny

cb2utorial turns a source repository into a tutorial. The workflow is a fixed
sequence of stages:

1. The file reader walks the repository and numbers the files it keeps.
2. The abstraction analyzer asks a text generator for the core abstractions and the
   file indices each one concerns.
3. The relationship analyzer asks for edges between abstractions.
4. The chapter orderer asks for a teaching order.
5. The chapter writer writes one chapter per abstraction in that order. Each request
   carries summaries of the chapters before it.
6. The file writer stores the chapters as numbered markdown files.

Every generator stage must recover a strict, index-linked structure from free text:

- it cuts a YAML block out of a fenced reply;
- it resolves references written either as `3` or as `"3 # Name"`;
- it checks bounds, duplicates and missing entries;
- it renumbers what it keeps.

This project models that deterministic layer and proves what it guarantees. The
outside world is modelled as oracles:

- the text generator;
- `yaml.Unmarshal`;
- glob compilation and matching;
- directory traversal, directory creation and file writes.

## Modules

| module | file | what it models |
|---|---|---|
| `Wrappers` | wrappers.dfy | `Option` and `Result` |
| `Errors` | errors.dfy | one constructor per `fmt.Errorf` of the core, keeping the interpolated values |
| `Models` | models.dfy | the records of types/models.go, and the index-linking predicates (`IndexedFromZero`, `AbstractionsWellFormed`, `EdgesInBounds`, `IsPermutation`) |
| `Oracles` | oracles.dfy | the generator, the YAML decodings (YAML scalars as `IntV`/`StrV`/`Other`) and the file system |
| `GoStrings` | gostrings.dfy | ASCII models of the `strings`/`strconv` functions the core calls: `TrimSpace`, `Index`, `Contains`, `Split(...)[0]`, `HasPrefix`, `TrimPrefix`, `TrimSuffix`, `ReplaceAll`, `ToLower`, `Atoi`, `Itoa`; and `Join` for text a `strings.Builder` accumulates in a loop |
| `FileWalker` | filewalker.dfy | utils/filewalker.go |
| `FileReader` | file_reader.dfy | services/file_reader.go |
| `AbstractionAnalyzer` | abstraction_analyzer.dfy | services/abstraction_analyzer.go, including `extractIndex` and the fence extraction shared by three stages |
| `RelationshipAnalyzer` | relationship_analyzer.dfy | services/relationship_analyzer.go |
| `ChapterOrderer` | chapter_orderer.dfy | services/chapter_orderer.go |
| `ChapterWriter` | chapter_writer.dfy | services/chapter_writer.go |
| `FileWriter` | file_writer.dfy | services/file_writer.go |
| `TutorialWorkflow` | tutorial_workflow.dfy | workflow/tutorial_workflow.go |

The code of each stage keeps the source's imperative form:

- builder loops become methods with loop invariants;
- the validation loops fill arrays or sequences position by position, with early
  returns.

Each such method is proved equal to a function that states the stage's outcome (for
example `ensures r == OrderOutcome(input, backend)`). The guarantees are proved as
lemmas about those functions.

The workflow sees the stages as an abstract `Services` record of functions.

- `Runnable` states what `Run` relies on: its arguments satisfy each stage's
  preconditions.
- `HandlerGuarantees` states what the modelled handlers promise.
- `Handlers(fs, backend)` wires in the modelled stage outcomes. Lemmas prove that
  they meet both predicates.
- `Run` returns the error or the written paths, together with the sequence of service
  calls it made. This makes stage order and fail-fast behaviour provable.

## Model

| member | source | states |
|---|---|---|
| AbstractionAnalyzer.ExtractIndexCases | services/abstraction_analyzer.go:150-164 | An int resolves to itself. A string resolves to `Atoi` of the trimmed text before its first `#`. Any other YAML value fails with "unexpected type". Resolution fails exactly for a non-int non-string, or a string whose pre-`#` part is not a decimal numeral. |
| AbstractionAnalyzer.ExtractIndexOfNumeral | services/abstraction_analyzer.go:150-160 | Every integer, negative ones included, is recovered from its int form, from its numeral padded with white space, and from that padded numeral followed by `#` and any comment. |
| AbstractionAnalyzer.ExtractIndexOfListingEntry | services/abstraction_analyzer.go:46 | A listing entry `"<n> # <path>"` as the prompt writes it resolves back to `n`. |
| AbstractionAnalyzer.ExtractIndexRefusals | services/abstraction_analyzer.go:156-162 | A string that starts with `#` fails with an invalid-syntax error, and a non-scalar value fails with "unexpected type". |
| AbstractionAnalyzer.ExtractYamlBlock | services/abstraction_analyzer.go:99-111 | The payload never contains a fence. A reply with no fence is used whole. After the first "```yaml" the payload is followed by a fence or by the end. With only untagged fences, the payload is the text between the first fence and the next one. |
| AbstractionAnalyzer.ExtractYamlBlockTagged | services/abstraction_analyzer.go:101-105 | When the payload does not end in a backtick, it is exactly the text after the first "```yaml" up to the next "```" (or to the end). |
| AbstractionAnalyzer.ExtractYamlBlockOverlap | services/abstraction_analyzer.go:101-105 | "```yaml````yaml" yields a single backtick: the closing fence found by the second split overlaps the next "```yaml". |
| AbstractionAnalyzer.FileBlockShowsFile | services/abstraction_analyzer.go:33-40 | A file's block shows its path, and its whole content when that has at most 5000 characters. Otherwise it shows the first 5000 characters and the truncation marker. |
| AbstractionAnalyzer.AbstractionsPromptShowsEveryFile | services/abstraction_analyzer.go:31-41 | The prompt contains the block of every file. It therefore shows each file's content whole, or its first 5000 characters when longer. |
| AbstractionAnalyzer.AbstractionsPromptListsEveryFile | services/abstraction_analyzer.go:44-47 | The prompt contains the listing line `- <index> # <path>` of every file, and that entry resolves back to the file's index. |
| AbstractionAnalyzer.FormatFileBlock | services/abstraction_analyzer.go:33-40 | Writes one file's header, sample and separator as `FileBlock` specifies. |
| AbstractionAnalyzer.BuildFilesContext | services/abstraction_analyzer.go:31-41 | The builder loop produces the blocks of all files in order. |
| AbstractionAnalyzer.BuildFileListing | services/abstraction_analyzer.go:44-47 | The builder loop produces the listing lines of all files in order. |
| AbstractionAnalyzer.BuildAbstractionsPrompt | services/abstraction_analyzer.go:50-77 | Assembles the prompt from the project name, the files context and the listing. |
| AbstractionAnalyzer.FirstInvalidAt | services/abstraction_analyzer.go:128-134 | The reported error names the first out-of-range file index, scanning abstractions in order and file indices in order, together with its abstraction's name. |
| AbstractionAnalyzer.ValidatedAbstractionsSound | services/abstraction_analyzer.go:127-142 | Validation succeeds exactly when every file index of every kept entry is in `[0, fileCount)`. On success the output has one abstraction per kept entry. Entry `i` gets index `i` and copies the entry's name, description and file list. |
| AbstractionAnalyzer.ValidateAbstractions | services/abstraction_analyzer.go:127-142 | The nested validation loop, filling the output array by position, computes `ValidatedAbstractions`. |
| AbstractionAnalyzer.KeepAtMost | services/abstraction_analyzer.go:123-125 | A list longer than the ceiling is cut to its first `max` entries rather than rejected. A shorter list is kept whole. |
| AbstractionAnalyzer.ParseAbstractions | services/abstraction_analyzer.go:113-116 | A decoding failure is reported with the raw reply attached. |
| AbstractionAnalyzer.AbstractionsOutcome | services/abstraction_analyzer.go:24-147 | An empty corpus fails with "no files provided". On success the abstractions are well formed for the corpus: indexed from 0, every file index in range. There are at most `maxAbstractions` of them, and at least one when the ceiling is positive. |
| AbstractionAnalyzer.AbstractionsOutcomeOfParsed | services/abstraction_analyzer.go:113-146 | Given the parsed list: an empty list fails with "no abstractions identified"; otherwise the truncated list succeeds, re-indexed, exactly when all its file indices are valid; otherwise the stage fails with the first invalid index. Entries dropped by truncation are never checked. |
| AbstractionAnalyzer.AnalyzeAbstractions | services/abstraction_analyzer.go:24-147 | The stage computes `AbstractionsOutcome`. It calls the generator once, with the built prompt, and not at all for an empty corpus. |
| RelationshipAnalyzer.SampleLineShowsFile | services/relationship_analyzer.go:40-49 | The sample line of a file inside the corpus shows its path, and its whole content when that has at most 500 characters. Otherwise it shows the first 500 characters and "...". |
| RelationshipAnalyzer.OutOfCorpusFilesShowNothing | services/relationship_analyzer.go:40-42 | An abstraction whose file indices all lie past the corpus gets no sample lines. |
| RelationshipAnalyzer.ListingLineResolves | services/relationship_analyzer.go:30-33 | The listing entry `"<index> # <name>: <description>"` resolves back to the abstraction's index. |
| RelationshipAnalyzer.RelationshipsPromptListsEveryAbstraction | services/relationship_analyzer.go:30-33 | The prompt contains the listing line of every abstraction. |
| RelationshipAnalyzer.RelationshipsPromptShowsRelatedFiles | services/relationship_analyzer.go:36-51 | The prompt contains the sample line of every file index of every abstraction. It therefore shows the path and the first 500 characters of every related file inside the corpus. |
| RelationshipAnalyzer.BuildAbstractionListing | services/relationship_analyzer.go:30-33 | The builder loop produces the listing lines in order. |
| RelationshipAnalyzer.FormatSample | services/relationship_analyzer.go:42-48 | Writes one related file's header line and its sample as `SampleLine` specifies. The content is cut to 500 characters plus "..." when longer. |
| RelationshipAnalyzer.BuildSamples | services/relationship_analyzer.go:40-50 | The inner loop produces the sample lines of an abstraction's file indices in order. |
| RelationshipAnalyzer.BuildCodeContext | services/relationship_analyzer.go:36-51 | The nested loop produces each abstraction's heading and samples in order. |
| RelationshipAnalyzer.BuildRelationshipsPrompt | services/relationship_analyzer.go:54-84 | Assembles the prompt from the listing and the code context. |
| RelationshipAnalyzer.CheckEdgeSpec | services/relationship_analyzer.go:133-156 | An edge is accepted exactly when both endpoints resolve and lie in `[0, count)`. It then carries the resolved endpoints and the label unchanged. The checks run in the source's order: `from` resolution, `to` resolution, `from` bounds, `to` bounds. Each failure carries its own error and the edge position: the resolution errors carry the parse error, the bounds errors the resolved index. |
| RelationshipAnalyzer.CheckEdgeBoundIsExclusive | services/relationship_analyzer.go:145-150 | The abstraction count itself is out of bounds and one less is in bounds. A negative endpoint is out of bounds. |
| RelationshipAnalyzer.ResolveEdgesSpec | services/relationship_analyzer.go:131-157 | On success every edge is in bounds, the list keeps the parsed length and order, and labels are copied unchanged. Self-loops and repeated edges are kept. On failure the error is that of the first failing edge, and all earlier edges pass. |
| RelationshipAnalyzer.FirstEdgeFailureDecides | services/relationship_analyzer.go:131-150 | When every earlier edge passes its checks, the first failing edge's error is the stage's error. |
| RelationshipAnalyzer.ConvertEdges | services/relationship_analyzer.go:131-157 | The conversion loop with its early returns computes `ResolveEdges`. |
| RelationshipAnalyzer.ParseRelationships | services/relationship_analyzer.go:125-128 | A decoding failure is reported with the raw reply attached. |
| RelationshipAnalyzer.RelationshipsOutcome | services/relationship_analyzer.go:23-163 | No abstractions fails with "no abstractions provided". On success every edge endpoint is an abstraction index. |
| RelationshipAnalyzer.RelationshipsOutcomeOfParsed | services/relationship_analyzer.go:125-162 | Given the parsed data, the stage succeeds exactly when every edge passes its checks. The summary is copied unchanged and the edge count is kept. |
| RelationshipAnalyzer.AnalyzeRelationships | services/relationship_analyzer.go:23-163 | The stage computes `RelationshipsOutcome`. It calls the generator once, and not at all without abstractions. |
| ChapterOrderer.RelationshipLineNamesEndpoints | services/chapter_orderer.go:39-44 | The line of an in-range edge shows the names of both endpoint abstractions and the edge's label. |
| ChapterOrderer.OrderPromptShowsEveryEdge | services/chapter_orderer.go:36-75 | The prompt contains the line of every edge. It therefore shows, for every in-range edge, the names of both endpoints and the label. |
| ChapterOrderer.BuildRelationshipContext | services/chapter_orderer.go:36-44 | The builder loop produces the summary header and the edge lines in order. It needs every endpoint to be below the abstraction count, which the relationship stage guarantees. |
| ChapterOrderer.BuildOrderPrompt | services/chapter_orderer.go:30-75 | Assembles the prompt from the listing and the relationship context. |
| ChapterOrderer.UnseenBelow | services/chapter_orderer.go:136-141 | The indices below `m` not seen, in strictly ascending order, each exactly once. |
| ChapterOrderer.DistinctBelowBound | services/chapter_orderer.go:126-131 | Distinct values in `[0, m)` number at most `m`. |
| ChapterOrderer.CoveringBound | services/chapter_orderer.go:135 | A sequence containing every value in `[0, m)` has at least `m` elements. |
| ChapterOrderer.PassingValues | services/chapter_orderer.go:114-132 | When every entry passes its checks, the resolved values are distinct, in `[0, count)`, one per entry, and entry `k` resolves to value `k`. |
| ChapterOrderer.ValidateOrderSound | services/chapter_orderer.go:111-147 | Validation succeeds exactly when every entry resolves, is in bounds and is not a repeat, and there are exactly `count` entries. A success is a permutation of `0..count-1` in the proposed order, and covers every abstraction. |
| ChapterOrderer.TooManyEntriesFail | services/chapter_orderer.go:111-132 | A list longer than the abstraction count can never succeed. It fails with a resolution, bounds or duplicate error before the missing-set check. |
| ChapterOrderer.MissingReported | services/chapter_orderer.go:134-143 | When every entry passes but the list is short, the error lists every unseen index in ascending order: exactly the indices below the count that are not proposed. There are `count - len` of them, at least one. |
| ChapterOrderer.FirstFailureDecides | services/chapter_orderer.go:114-129 | Scanning stops at the first failing position, and its error is the stage's error. |
| ChapterOrderer.RepeatIsDuplicate | services/chapter_orderer.go:126-129 | `[0, 0]` for two abstractions fails as a duplicate of 0. The message carries no position. |
| ChapterOrderer.ConvertOrder | services/chapter_orderer.go:111-143 | The loop over entries, with its `seen` set, early returns and missing-set check, computes `ValidateOrder`. |
| ChapterOrderer.CollectMissing | services/chapter_orderer.go:136-141 | The loop over `[0, count)` collects exactly the unseen indices, ascending. |
| ChapterOrderer.ParseIndices | services/chapter_orderer.go:105-108 | A decoding failure is reported with the raw reply attached. |
| ChapterOrderer.OrderOutcome | services/chapter_orderer.go:23-148 | No abstractions fails before any generator call. A success is a permutation of the abstraction indices. |
| ChapterOrderer.OrderChapters | services/chapter_orderer.go:23-148 | The stage computes `OrderOutcome`. It calls the generator once, and not at all without abstractions. |
| ChapterWriter.FileSectionShowsFile | services/chapter_writer.go:32-50 | The section of a file inside the corpus shows its path, and its whole content when that has at most 8000 characters. Otherwise it shows the first 8000 characters and the truncation marker. |
| ChapterWriter.FileContextShowsEveryFile | services/chapter_writer.go:29-50 | The file context contains the section of every file index. It therefore shows the path and the first 8000 characters of every related file inside the corpus. |
| ChapterWriter.ChapterPromptShowsFiles | services/chapter_writer.go:29-117 | The chapter prompt shows the path and the first 8000 characters of every related file inside the corpus. |
| ChapterWriter.ChapterPromptShowsPrevious | services/chapter_writer.go:53-117 | The chapter prompt shows the `- name: summary` line of every earlier chapter. |
| ChapterWriter.PreviousChaptersShown | services/chapter_writer.go:53-61 | With no previous chapters the block is empty. Otherwise it starts with the header and contains a `- name: summary` line for every previous chapter. |
| ChapterWriter.BuildFileContext | services/chapter_writer.go:29-50 | The builder loop, with its `continue` on bad indices, produces `FileContext`. |
| ChapterWriter.BuildPreviousChapters | services/chapter_writer.go:53-61 | The builder loop produces `PreviousChaptersContext`. |
| ChapterWriter.BuildChapterPrompt | services/chapter_writer.go:64-117 | Assembles the prompt from the file context and the previous-chapters block. |
| ChapterWriter.CleanResponse | services/chapter_writer.go:133-142 | The cleaned content is trimmed and never longer than the reply. |
| ChapterWriter.CleanUnfenced | services/chapter_writer.go:133 | A reply whose trimmed form does not start with "```" becomes exactly its trimmed form. |
| ChapterWriter.StripFenceOfWrapped | services/chapter_writer.go:135-137 | Stripping an opening fence and one closing "```" from a fenced body, with white space around it, returns the trimmed body. |
| ChapterWriter.CleanMarkdownFenced | services/chapter_writer.go:134-137 | A body wrapped in "```markdown" … "```" comes back exactly. The "```markdown" tag is removed whole, because it is tested before the plain fence. |
| ChapterWriter.CleanPlainFenced | services/chapter_writer.go:138-141 | A body wrapped in "```" … "```" comes back exactly. |
| ChapterWriter.CleanUp | services/chapter_writer.go:133-142 | The step-by-step reassignment of `content` computes `CleanResponse`. |
| ChapterWriter.ChapterOutcome | services/chapter_writer.go:22-149 | An empty abstraction name fails before any generator call. Otherwise the stage succeeds exactly when the generator does. The chapter then keeps the input's number, takes the abstraction's name as title, and holds the cleaned reply. |
| ChapterWriter.WriteChapter | services/chapter_writer.go:22-149 | The stage computes `ChapterOutcome`. It calls the generator once, and not at all for an unnamed abstraction. |
| FileWalker.FirstInvalidPattern | utils/filewalker.go:32-48 | No pattern is reported exactly when all compile. A reported pattern fails to compile and is the first that does: every pattern before it compiles. |
| FileWalker.CompilePatterns | utils/filewalker.go:32-48 | The compile loop stops at the first pattern that fails. |
| FileWalker.AnyMatch | utils/filewalker.go:76-90 | The matching loop reports a match exactly when some pattern matches. |
| FileWalker.WalkFrom | utils/filewalker.go:56-119 | The callback over the visited entries keeps only files that match no exclude pattern, and that match an include pattern when there are any. It never exceeds a positive `maxFiles`. Files already found stay first, in order. An error is always one reported by the traversal. |
| FileWalker.WalkResult | utils/filewalker.go:28-126 | A successful walk returns only files passing the pattern filters, at most `maxFiles` of them when that is positive. |
| FileWalker.WalkFromCollects | utils/filewalker.go:56-119 | Without error entries the walk succeeds. A successful walk returns the files found so far followed by the eligible readable files in visiting order, cut at `maxFiles`. |
| FileWalker.CollectedFromEntries | utils/filewalker.go:75-116 | Every collected file is the path and content of an eligible, readable non-directory entry that the traversal visited. |
| FileWalker.WalkResultCollects | utils/filewalker.go:28-126 | A successful walk returns the eligible readable files in visiting order, cut at `maxFiles`. Unreadable files are skipped and do not count against the limit. |
| FileWalker.WalkResultWithoutErrors | utils/filewalker.go:28-126 | When the patterns compile and the traversal reports no error, the walk succeeds with exactly those files. |
| FileWalker.WalkResultSound | utils/filewalker.go:96-116 | Every returned file comes from a readable non-directory entry whose reported size is within a positive `maxFileSize`. |
| FileWalker.WalkDirectory | utils/filewalker.go:28-126 | The compile loops and the walk loop, with its early returns, compute `WalkResult`. |
| FileWalker.MapToFileNameChars | utils/filewalker.go:134-139 | Lower-case letters and digits are kept and every other character becomes `_`. Length is kept. |
| FileWalker.CollapseShape | utils/filewalker.go:142-144 | The collapsed name leaves no two underscores adjacent. It keeps the first character, is empty only for an empty input, and uses only characters of its input. |
| FileWalker.ReplacePassCollapses | utils/filewalker.go:142-144 | One `ReplaceAll("__", "_")` pass does not change the collapsed result. Repeating passes until no "__" remains therefore computes `Collapse`. |
| FileWalker.CollapseOfSingles | utils/filewalker.go:142 | A name with no double underscore is left unchanged. |
| FileWalker.CollapseUnderscores | utils/filewalker.go:142-144 | The `for strings.Contains(name, "__")` loop terminates and computes `Collapse`, and its result has no double underscore. |
| FileWalker.TrimShape | utils/filewalker.go:147 | Trimming keeps a contiguous middle slice with no underscore at either end. |
| FileWalker.SanitizeShape | utils/filewalker.go:129-150 | A sanitized name uses only `[a-z0-9_]`, has no "__", and neither starts nor ends with `_`. |
| FileWalker.SanitizeIdempotent | utils/filewalker.go:129-150 | Sanitizing twice equals sanitizing once. |
| FileWalker.SanitizeFramed | utils/filewalker.go:129-150 | Two alphanumeric words joined by a run of punctuation or white space, with any punctuation around them, sanitize to the lower-cased words joined by one `_`. |
| FileWalker.SanitizeOfSeparator | utils/filewalker.go:129-150 | A name made only of punctuation and white space sanitizes to the empty name. |
| FileWalker.SanitizeTitleExample | utils/filewalker.go:129-150 | "Node Abstraction!" sanitizes to "node_abstraction". |
| FileWalker.SanitizePaddedExample | utils/filewalker.go:129-150 | "__A--B__" sanitizes to "a_b". |
| FileWalker.SanitizeFilename | utils/filewalker.go:129-150 | Lower-casing, mapping, the collapsing loop and trimming, step by step, compute `Sanitize`. |
| FileReader.Indexed | services/file_reader.go:39-46 | The files are numbered contiguously from 0, in walk order, with path and content copied unchanged. |
| FileReader.ReadOutcome | services/file_reader.go:20-51 | An empty repository path fails before walking. A walk error is propagated. A success is indexed from 0, respects a positive `maxFiles`, and passes the pattern filters. |
| FileReader.ReadOutcomeWithoutErrors | services/file_reader.go:27-46 | Without traversal errors the stage returns exactly the walk's collected files, each carrying its position as index. |
| FileReader.ReadFiles | services/file_reader.go:20-51 | The loop filling the preallocated slice computes `ReadOutcome`. |
| FileWriter.TwoDigitsValue | services/file_writer.go:42 | The `%02d` rendering of any chapter number parses back to that number. |
| FileWriter.NumberedFileNameNumber | services/file_writer.go:42 | A file name `NN_<stem>.md` ends in ".md". The text before its first `_` parses back to the chapter number. |
| FileWriter.ChapterPathsDiffer | services/file_writer.go:39-43 | Chapters with different numbers get different paths in the same directory. |
| FileWriter.NamedWriteAt | services/file_writer.go:37-46 | The `i`-th write goes to the directory joined with chapter `i`'s name and holds chapter `i`'s content. |
| FileWriter.ChapterWriteAt | services/file_writer.go:39-46 | The `i`-th write goes to `dir/NN_<sanitized title>.md` with chapter `i`'s content. |
| FileWriter.FirstFailedWriteUnique | services/file_writer.go:46-49 | The first failing write is the position before which all writes succeed and at which one fails. |
| FileWriter.WriteOutcome | services/file_writer.go:22-57 | An empty output directory fails before any write, and a failed `MkdirAll` fails. A success holds exactly one path per chapter, in chapter order, each written successfully. A failure names the file of a chapter whose write failed. |
| FileWriter.Attempts | services/file_writer.go:37-52 | The writes attempted are a prefix of the chapter writes in order, and none when the directory is not ready. |
| FileWriter.WrittenPathsDistinct | services/file_writer.go:37-56 | When chapter numbers differ, the written paths are pairwise distinct. |
| FileWriter.FailureStopsWriting | services/file_writer.go:46-49 | After the first failed write nothing more is written. The error names that file, and every earlier write succeeded. |
| FileWriter.NamedWritesPrefix | services/file_writer.go:37-52 | The writes for the first `n` chapters are the first `n` writes. |
| FileWriter.ChapterFileName | services/file_writer.go:39-42 | Sanitizing the title and formatting `%02d_%s.md` computes `FileName`. |
| FileWriter.WriteEach | services/file_writer.go:37-52 | The loop writes the chapters in order. It stops at the first failed write and reports that chapter's name, and all earlier writes succeeded. On completion it has collected every path. |
| FileWriter.LoopDecides | services/file_writer.go:37-56 | Where the loop stops decides the outcome: an error naming the failed chapter's file, or the list of all written paths. |
| FileWriter.WriteMarkdownFiles | services/file_writer.go:22-57 | The stage computes `WriteOutcome` and attempts exactly the writes `Attempts` lists. |
| GoStrings.TrimSpace | services/chapter_writer.go:133 | The result has no white space at either end and is no longer than its input. |
| GoStrings.TrimSpaceIsSlice | services/chapter_writer.go:133 | The result is a contiguous slice of the input with only white space before and after it. Together with `TrimSpace`'s own contract, exactly the surrounding white space is removed. |
| GoStrings.TrimSpaceIdempotent | services/chapter_writer.go:137 | Trimming a trimmed text changes nothing. |
| GoStrings.Before | services/abstraction_analyzer.go:157-158 | The first piece of a split is the prefix before the first separator, or the whole text, and never contains the separator. |
| GoStrings.Shorten | workflow/tutorial_workflow.go:166-168 | A text longer than the limit becomes its first `limit` characters plus the marker. A shorter one is unchanged. |
| GoStrings.RemoveAll | workflow/tutorial_workflow.go:170 | Every occurrence of the character is deleted and every other character is kept with its multiplicity. A one-character text loses that character exactly when it is the deleted one. |
| GoStrings.RemoveAllConcat | workflow/tutorial_workflow.go:170 | Deleting a character from a concatenation is deleting it from each part. With the one-character case, this fixes the result and keeps the other characters in their order. |
| GoStrings.Atoi | services/abstraction_analyzer.go:158-160 | Parsing succeeds exactly on an optional sign followed by one or more digits. A failure is an invalid-syntax error carrying the text. |
| GoStrings.AtoiFormatInt | services/abstraction_analyzer.go:46 | Every numeral `%d` writes parses back to its integer. |
| TutorialWorkflow.ProjectNameFor | workflow/tutorial_workflow.go:60-66 | The derived name is never empty. A given name is kept. A derived name is never "." or "/". |
| TutorialWorkflow.BaseOfJoined | workflow/tutorial_workflow.go:62 | The base of `dir/name` is `name`, with or without trailing slashes. |
| TutorialWorkflow.ProjectNameOfDirectory | workflow/tutorial_workflow.go:60-66 | Without a given name, a repository at `dir/name` or at `name` is named `name`. |
| TutorialWorkflow.ProjectNameFallback | workflow/tutorial_workflow.go:62-65 | An empty path, ".", or a path of slashes only yields "Project". |
| TutorialWorkflow.BaseOfRoot | workflow/tutorial_workflow.go:62 | The base of a path of slashes only is "/". |
| TutorialWorkflow.DeriveProjectName | workflow/tutorial_workflow.go:60-66 | The reassignments of `projectName` compute `ProjectNameFor`. |
| TutorialWorkflow.ReadLimit | workflow/tutorial_workflow.go:69-82 | The reader returns at most 100 files when `maxFiles` is 0, and at most `maxFiles` when it is positive. A negative `maxFiles` is passed on, and the walk treats it as no limit. |
| TutorialWorkflow.SummaryShape | workflow/tutorial_workflow.go:165-171 | A summary contains no `#`. Short content without `#` is only trimmed. |
| TutorialWorkflow.SummaryOf | workflow/tutorial_workflow.go:165-176 | The summary entry is named after the chapter's title. Its text is trimmed, at most 203 characters long, and contains no `#`. |
| TutorialWorkflow.Summarize | workflow/tutorial_workflow.go:165-176 | The reassignments of `summary` compute `SummaryOf`. |
| TutorialWorkflow.Summaries | workflow/tutorial_workflow.go:165-176 | The accumulated list holds one summary per chapter, in chapter order. |
| TutorialWorkflow.ChaptersUpToInvariant | workflow/tutorial_workflow.go:142-177 | After `n` iterations the loop has sent requests 1..n, or has stopped at the first failure. Request `i` names abstraction `order[i]` with number `i+1`, and its previous-chapters list is the summaries of chapters `0..i-1`. |
| TutorialWorkflow.ChapterRequests | workflow/tutorial_workflow.go:145-162 | Request `i` is for `abstractions[order[i]]`, numbered `i+1`, with the corpus and project name. It carries exactly `i` previous summaries, those of chapters `0..i-1` in order, and its answer is stored as chapter `i`. |
| TutorialWorkflow.LoopOutcome | workflow/tutorial_workflow.go:142-177 | The loop either writes every chapter, or stops after the first failing request, which is the last one sent. |
| TutorialWorkflow.LoopRequests | workflow/tutorial_workflow.go:145-176 | Every request sent is the chapter input built from the plan and the summaries accumulated so far. |
| TutorialWorkflow.RequestsCarryPlan | workflow/tutorial_workflow.go:149-155 | Every request carries the corpus, the project name, the planned abstraction and its 1-based number. |
| TutorialWorkflow.FailureIsFinal | workflow/tutorial_workflow.go:157-160 | Once a chapter fails, later iterations change nothing. |
| TutorialWorkflow.NextChapter | workflow/tutorial_workflow.go:145-176 | One iteration builds the request and calls the writer. It either records the chapter and its summary, or records the failure. |
| TutorialWorkflow.WriteChapters | workflow/tutorial_workflow.go:142-177 | The chapter loop, with its early return, returns the chapters or the first failure as `ChaptersUpTo` specifies, and sends exactly its requests. |
| TutorialWorkflow.Analyze | workflow/tutorial_workflow.go:74-138 | A stopped analysis is an error after one to four calls. A planned one has files and abstractions, an order within range, and exactly four calls under the derived name. |
| TutorialWorkflow.Run | workflow/tutorial_workflow.go:55-193 | The workflow's result and call sequence are those of `RunSpec`: the analysis, the chapter loop summarizing with `SummaryOf`, then the file writer. |
| TutorialWorkflow.AnalyzeStopped | workflow/tutorial_workflow.go:84-137 | A stopped analysis called the stages in order, starting with the reader. Every call but the last succeeded, and the last is the one the error blames. This includes "no files found" after an empty read and "no abstractions identified" after an empty analysis. |
| TutorialWorkflow.AnalyzePlanned | workflow/tutorial_workflow.go:76-137 | A planned analysis read the files, analyzed with ceiling 10, related, and ordered, each successfully. Its plan is exactly what those calls returned. |
| TutorialWorkflow.RunFailFast | workflow/tutorial_workflow.go:84-192 | The reader is called first and the stages run strictly in order. Every call but the last succeeded. An error is blamed on the last call, so no later stage ran. A success comes from the file writer, called last. |
| TutorialWorkflow.ChapterCallsInOrder | workflow/tutorial_workflow.go:142-177 | The chapter calls follow the four analysis calls. They all succeed except possibly the last, which a failure blames. |
| TutorialWorkflow.RunConfiguration | workflow/tutorial_workflow.go:76-186 | Each call is configured as the workflow defines. The reader gets the fixed patterns, the 1 MiB size limit and the defaulted `maxFiles`. Every stage gets the derived name, the analyzer gets ceiling 10, and the writer gets the output directory. |
| TutorialWorkflow.RunChapters | workflow/tutorial_workflow.go:142-192 | A successful run wrote one chapter per ordered index, each from the request the loop builds. It handed all chapters, in plan order, to the file writer with the output directory. |
| TutorialWorkflow.HandlersRunnable | workflow/tutorial_workflow.go:96-146 | This model's stage handlers meet the preconditions `Run` relies on: the analyzer accepts ceiling 10, and a successful ordering returns only indices of the abstractions it was given. |
| TutorialWorkflow.HandlersKeepGuarantees | workflow/tutorial_workflow.go:96-162 | The handlers keep the analyzer ceiling. They order by a permutation, and title each chapter after its abstraction under its number. |
| TutorialWorkflow.RunWritesEveryAbstraction | workflow/tutorial_workflow.go:128-186 | With such handlers, a successful run writes exactly one chapter per abstraction (at most 10), and the order is a permutation. Chapter `i` is titled after `abstractions[order[i]]` and numbered `i+1`. |

## Left out

- The text generator (llm/client.go) is an oracle, `Backend.generate`. Client creation, the network call, the API key and an empty choice list are all one `Err`.
- `yaml.Unmarshal` is an oracle per record shape. YAML scalars decoded into `interface{}` are `IntV`, `StrV` or `Other`.
- Glob compilation and matching (`gobwas/glob`) are oracles, and so are `filepath.Walk` (a visiting-order sequence of entries), `os.ReadFile` (a `readable` flag), `os.MkdirAll` and `os.WriteFile`.
- `filepath.Abs` and `filepath.Rel` failures in WalkDirectory (utils/filewalker.go:51-53, 67-70) are not modelled. Entries carry their slash-separated relative path already, and these calls fail only on operating-system errors.
- FileWriter.JoinPath: `filepath.Join` is modelled as `dir + "/" + name`, without the cleaning of `.` and `..` elements or doubled slashes. The paths are therefore exact only for a clean output directory.
- Restate (main.go, the `ServiceClient.Call` plumbing and durable replay in workflow/tutorial_workflow.go): each service call is a direct call of an abstract stage function in `Services`, so a stage failure is that function's `Err`.
- main.go, cmd/cli/main.go and the `fmt.Printf` logging of the workflow are not modelled: they are server setup, flag parsing and output only.
- `TutorialState` (types/models.go:119-127) is not part of this model, because nothing in the core uses it.
- Strings are sequences of characters. Byte lengths and slice bounds are counted in characters, which agrees with Go for ASCII text only. `ToLower` and `TrimSpace` are modelled over ASCII.
- GoStrings.Atoi: does not model the 64-bit overflow error of `strconv.Atoi`. Integers are unbounded.
- The wording of the prompt templates is abbreviated to a header and the blocks each prompt contains. The system prompts are kept. The lemmas state which blocks and lines a prompt contains, not its prose.
- Go panics become preconditions:
  - a negative `maxAbstractions` (slice bound);
  - a negative file index in the relationship and chapter contexts;
  - a relationship endpoint or ordered index outside the abstraction list.

  `Runnable` collects what `Run` itself relies on: the analyzer accepts ceiling 10, and ordered indices are in range. `HandlersRunnable` proves that the modelled handlers meet it.
- The stage outcome functions are total where the source would panic. `NameAt` (an edge endpoint outside the list), `SampleLine` and `FileSection` (a negative file index) give "" there. The builder methods require the index to be in range, so the functions agree with the source only where those requires hold. `Handlers` wires in the total functions, so a run over them does not model a panic.
- TutorialWorkflow.WriteChapters is proved for any summarizer function. `Run` passes `SummaryOf`, and the step-by-step `Summarize` is proved equal to it.
- FileWriter.WriteEach is proved for any naming function. `WriteMarkdownFiles` passes `FileName`, and the step-by-step `ChapterFileName` is proved equal to it.
- AbstractionAnalyzer.ExtractYamlBlock: with a "```yaml" tag, the payload is stated to be followed by a fence or by the end, rather than to end at the first fence. The two differ only when the payload ends in a backtick that overlaps the closing fence, as `ExtractYamlBlockOverlap` shows. `ExtractYamlBlockTagged` states the stronger form for every other payload.
- AnalyzeAbstractions with `maxAbstractions` 0 succeeds with no abstractions, as the code does: the emptiness check runs before truncation. The workflow always passes 10.
