/**
 * The records the services exchange (types/models.go), and the index links between
 * them stated as predicates: a file index refers to the corpus, an edge endpoint and
 * a plan entry refer to the abstraction list.
 */
module Models {

  /** A corpus file; `index` is its position in the corpus. */
  datatype FileContent = FileContent(index: int, path: string, content: string)

  /** A named concept; `fileIndices` refer to FileContent entries by index. */
  datatype Abstraction = Abstraction(index: int, name: string, description: string, fileIndices: seq<int>)

  /** A directed labelled edge between two abstraction indices. */
  datatype Relationship = Relationship(fromIndex: int, toIndex: int, edgeLabel: string)

  datatype RelationshipData = RelationshipData(summary: string, details: seq<Relationship>)

  datatype ChapterSummary = ChapterSummary(name: string, summary: string)

  datatype WriteChapterOutput = WriteChapterOutput(chapterNumber: int, title: string, content: string)

  datatype ReadFilesInput = ReadFilesInput(
    repoPath: string,
    includePatterns: seq<string>,
    excludePatterns: seq<string>,
    maxFileSize: int,
    maxFiles: int)

  datatype ReadFilesOutput = ReadFilesOutput(files: seq<FileContent>)

  datatype AnalyzeAbstractionsInput = AnalyzeAbstractionsInput(
    files: seq<FileContent>,
    projectName: string,
    maxAbstractions: int)

  datatype AnalyzeAbstractionsOutput = AnalyzeAbstractionsOutput(abstractions: seq<Abstraction>)

  datatype AnalyzeRelationshipsInput = AnalyzeRelationshipsInput(
    abstractions: seq<Abstraction>,
    files: seq<FileContent>,
    projectName: string)

  datatype OrderChaptersInput = OrderChaptersInput(
    abstractions: seq<Abstraction>,
    relationships: RelationshipData,
    projectName: string)

  /** Abstraction indices in teaching order. */
  datatype OrderChaptersOutput = OrderChaptersOutput(orderedIndices: seq<int>)

  datatype WriteChapterInput = WriteChapterInput(
    abstraction: Abstraction,
    files: seq<FileContent>,
    previousChapters: seq<ChapterSummary>,
    projectName: string,
    chapterNumber: int)

  datatype WriteMarkdownFilesInput = WriteMarkdownFilesInput(outputDir: string, chapters: seq<WriteChapterOutput>)

  datatype WriteMarkdownFilesOutput = WriteMarkdownFilesOutput(filesWritten: seq<string>)

  /** `projectName` is optional: empty means "derive it from the path". */
  datatype TutorialWorkflowInput = TutorialWorkflowInput(
    localRepoPath: string,
    outputDir: string,
    maxFiles: int,
    projectName: string)

  // ---------------------------------------------------------------------------
  // The index links
  // ---------------------------------------------------------------------------

  /** Every file sits at the position its index names. */
  predicate IndexedFromZero(files: seq<FileContent>) {
    forall i :: 0 <= i < |files| ==> files[i].index == i
  }

  predicate FileIndicesInBounds(a: Abstraction, fileCount: int) {
    forall j :: 0 <= j < |a.fileIndices| ==> 0 <= a.fileIndices[j] < fileCount
  }

  /** Abstractions indexed by position, each anchored only to existing files. */
  predicate AbstractionsWellFormed(abstractions: seq<Abstraction>, fileCount: int) {
    forall i :: 0 <= i < |abstractions| ==>
      abstractions[i].index == i && FileIndicesInBounds(abstractions[i], fileCount)
  }

  /** Both endpoints of every edge are abstraction indices. */
  predicate EdgesInBounds(details: seq<Relationship>, count: int) {
    forall i :: 0 <= i < |details| ==>
      0 <= details[i].fromIndex < count && 0 <= details[i].toIndex < count
  }

  /** `order` lists each of 0..count-1 exactly once. */
  predicate IsPermutation(order: seq<int>, count: int) {
    && |order| == count
    && (forall i :: 0 <= i < |order| ==> 0 <= order[i] < count)
    && (forall i, j :: 0 <= i < j < |order| ==> order[i] != order[j])
  }
}
