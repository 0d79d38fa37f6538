/**
 * What the core cannot see, as oracles: the text generator, yaml.Unmarshal into each
 * stage's record shape, and the file system (traversal, glob compilation and
 * matching, directory creation, file writes).
 */
module Oracles {
  import opened Wrappers

  /** A YAML scalar decoded into `interface{}`: an int, a string, or anything else. */
  datatype YamlValue = IntV(i: int) | StrV(s: string) | Other

  /** One entry of the abstraction list the generator is asked for. */
  datatype YamlAbstraction = YamlAbstraction(name: string, description: string, files: seq<int>)

  /** One edge as the generator writes it; endpoints may be annotated strings. */
  datatype YamlRelationship = YamlRelationship(from: YamlValue, to: YamlValue, edgeLabel: string)

  datatype YamlRelationshipData = YamlRelationshipData(summary: string, details: seq<YamlRelationship>)

  /** A request to the generator: the user prompt and the system prompt. */
  datatype Prompt = Prompt(user: string, system: string)

  /**
   * The generator (llm.Client.CallLLM; a missing API key, a transport error and an
   * empty choice list are all an `Err`) and the three YAML decodings.
   */
  datatype Backend = Backend(
    generate: Prompt -> Result<string, string>,
    unmarshalAbstractions: string -> Result<seq<YamlAbstraction>, string>,
    unmarshalRelationships: string -> Result<YamlRelationshipData, string>,
    unmarshalIndices: string -> Result<seq<YamlValue>, string>)

  /**
   * One entry of a directory traversal, in the order filepath.Walk visits it: a
   * directory, any other entry (path relative to the root with forward slashes, the
   * size its Lstat info reports, whether os.ReadFile succeeds, and what it reads, so a
   * symbolic link has its own size and its target's content), or an error the walk
   * reports to its callback.
   */
  datatype WalkEntry =
    | DirEntry(dirPath: string)
    | FileEntry(path: string, size: int, readable: bool, content: string)
    | ErrorEntry(reason: string)

  datatype FileSystem = FileSystem(
    walk: string -> seq<WalkEntry>,
    compiles: string -> bool,
    matches: (string, string) -> bool,
    mkdirAll: string -> bool,
    writeFile: (string, string) -> bool)
}
