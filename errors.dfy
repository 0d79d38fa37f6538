/**
 * The errors the pipeline reports. Each constructor stands for one `fmt.Errorf`
 * (or library error) of the Go code and keeps the values the message interpolates;
 * `%w` wrapping becomes a `cause` field.
 */
module Errors {

  /** The services the workflow calls, in the order it calls them. */
  datatype Stage =
    | ReadFilesStage
    | AbstractionsStage
    | RelationshipsStage
    | OrderStage
    | WriteFilesStage

  datatype Error =
      // strconv.Atoi: invalid syntax
    | InvalidSyntax(num: string)
      // extractIndex: the YAML value is neither an int nor a string
    | UnexpectedIndexType
      // the generator (client creation or chat completion) failed
    | LlmCallFailed(reason: string)
      // yaml.Unmarshal failed; the raw response is attached
    | YamlParseFailed(reason: string, response: string)
      // AnalyzeAbstractions
    | NoFilesProvided
    | NoAbstractionsIdentified
    | InvalidFileIndex(fileIndex: int, abstractionName: string)
      // AnalyzeRelationships and OrderChapters
    | NoAbstractionsProvided
    | InvalidFromIndex(relationship: nat, cause: Error)
    | InvalidToIndex(relationship: nat, cause: Error)
    | FromIndexOutOfBounds(index: int, relationship: nat)
    | ToIndexOutOfBounds(index: int, relationship: nat)
    | IndexExtractionFailed(position: nat, cause: Error)
    | IndexOutOfBounds(index: int, position: nat)
    | DuplicateIndex(index: int)
    | MissingAbstractions(missing: seq<int>)
      // WriteChapter
    | AbstractionNameRequired
      // WriteMarkdownFiles
    | OutputDirRequired
    | CreateDirFailed(dir: string)
    | WriteFileFailed(filename: string)
      // ReadFiles and WalkDirectory
    | RepoPathRequired
    | WalkFailed(cause: Error)
    | InvalidIncludePattern(pattern: string)
    | InvalidExcludePattern(pattern: string)
    | WalkDirectoryError(reason: string)
      // TutorialWorkflow.Run
    | NoFilesFound
    | StageFailed(stage: Stage, cause: Error)
    | ChapterFailed(chapterNumber: int, cause: Error)
}
