/**
 * utils/filewalker.go: the directory traversal that builds the corpus, and the
 * file-name sanitizer used for chapter files.
 */
module FileWalker {
  import opened Wrappers
  import opened Errors
  import opened GoStrings
  import opened Oracles

  // ---------------------------------------------------------------------------
  // WalkDirectory
  // ---------------------------------------------------------------------------

  datatype WalkOptions = WalkOptions(
    rootPath: string,
    includePatterns: seq<string>,
    excludePatterns: seq<string>,
    maxFileSize: int,
    maxFiles: int)

  /** A discovered file: its slash-separated path relative to the root, and its content. */
  datatype FileInfo = FileInfo(relativePath: string, content: string)

  /** The first pattern of `patterns` that does not compile. */
  function FirstInvalidPattern(fs: FileSystem, patterns: seq<string>): (r: Option<string>)
    ensures r.None? <==> forall i :: 0 <= i < |patterns| ==> fs.compiles(patterns[i])
    ensures r.Some? ==> r.value in patterns && !fs.compiles(r.value)
    ensures r.Some? ==> exists k :: (0 <= k < |patterns| && patterns[k] == r.value
      && forall j :: 0 <= j < k ==> fs.compiles(patterns[j]))
  {
    if patterns == [] then None
    else if !fs.compiles(patterns[0]) then Some(patterns[0])
    else
      var r := FirstInvalidPattern(fs, patterns[1..]);
      assert forall i :: 1 <= i < |patterns| ==> patterns[i] == patterns[1..][i - 1];
      r
  }

  /** Include patterns are compiled first, then exclude patterns. */
  function PatternError(fs: FileSystem, opts: WalkOptions): Option<Error> {
    match FirstInvalidPattern(fs, opts.includePatterns)
    case Some(p) => Some(InvalidIncludePattern(p))
    case None =>
      match FirstInvalidPattern(fs, opts.excludePatterns)
      case Some(p) => Some(InvalidExcludePattern(p))
      case None => None
  }

  predicate MatchesAny(fs: FileSystem, patterns: seq<string>, path: string) {
    exists i :: 0 <= i < |patterns| && fs.matches(patterns[i], path)
  }

  /** The filters a non-directory entry must pass before the limit and readability are looked at. */
  predicate Eligible(fs: FileSystem, opts: WalkOptions, e: WalkEntry) {
    && e.FileEntry?
    && !MatchesAny(fs, opts.excludePatterns, e.path)
    && (|opts.includePatterns| == 0 || MatchesAny(fs, opts.includePatterns, e.path))
    && !(opts.maxFileSize > 0 && e.size > opts.maxFileSize)
  }

  /** The limit is reached: the walk stops at the next eligible file. */
  predicate Full(opts: WalkOptions, found: nat) {
    opts.maxFiles > 0 && found >= opts.maxFiles
  }

  /** Each file of `files` passes the filters. */
  predicate AllAdmitted(fs: FileSystem, opts: WalkOptions, files: seq<FileInfo>) {
    forall k :: 0 <= k < |files| ==>
      && !MatchesAny(fs, opts.excludePatterns, files[k].relativePath)
      && (|opts.includePatterns| == 0 || MatchesAny(fs, opts.includePatterns, files[k].relativePath))
  }

  /**
   * The callback applied to the entries from position `i` on, with `files` found so
   * far: an error aborts, directories and filtered files are skipped, the limit
   * stops the walk, unreadable files are skipped and the rest are collected.
   */
  function WalkFrom(fs: FileSystem, opts: WalkOptions, entries: seq<WalkEntry>, i: nat, files: seq<FileInfo>): (r: Result<seq<FileInfo>, Error>)
    requires i <= |entries|
    requires AllAdmitted(fs, opts, files)
    ensures r.Ok? ==> AllAdmitted(fs, opts, r.value) && |r.value| >= |files| && r.value[..|files|] == files
    ensures r.Ok? && opts.maxFiles > 0 && |files| <= opts.maxFiles ==> |r.value| <= opts.maxFiles
    ensures r.Err? ==> exists k :: i <= k < |entries| && entries[k].ErrorEntry? && r.error == WalkDirectoryError(entries[k].reason)
    decreases |entries| - i
  {
    if i == |entries| then Ok(files)
    else
      var e := entries[i];
      if e.ErrorEntry? then Err(WalkDirectoryError(e.reason))
      else if !Eligible(fs, opts, e) then WalkFrom(fs, opts, entries, i + 1, files)
      else if Full(opts, |files|) then Ok(files)
      else if !e.readable then WalkFrom(fs, opts, entries, i + 1, files)
      else
        var files' := files + [FileInfo(e.path, e.content)];
        var r := WalkFrom(fs, opts, entries, i + 1, files');
        assert r.Ok? ==> r.value[..|files|] == r.value[..|files'|][..|files|];
        r
  }

  /** What WalkDirectory returns. */
  function WalkResult(fs: FileSystem, opts: WalkOptions): (r: Result<seq<FileInfo>, Error>)
    ensures r.Ok? ==> AllAdmitted(fs, opts, r.value)
    ensures r.Ok? && opts.maxFiles > 0 ==> |r.value| <= opts.maxFiles
  {
    match PatternError(fs, opts)
    case Some(e) => Err(e)
    case None => WalkFrom(fs, opts, fs.walk(opts.rootPath), 0, [])
  }

  /** The eligible, readable files of `entries`, in visiting order. */
  function Collected(fs: FileSystem, opts: WalkOptions, entries: seq<WalkEntry>): seq<FileInfo> {
    if entries == [] then []
    else
      var e := entries[0];
      (if Eligible(fs, opts, e) && e.readable then [FileInfo(e.path, e.content)] else [])
        + Collected(fs, opts, entries[1..])
  }

  /** The first `max` elements, or all of them when `max` is not positive. */
  function Take<T>(xs: seq<T>, max: int): seq<T> {
    if max > 0 && |xs| > max then xs[..max] else xs
  }

  predicate NoErrors(entries: seq<WalkEntry>) {
    forall k :: 0 <= k < |entries| ==> !entries[k].ErrorEntry?
  }

  /**
   * A walk from position `i` that succeeds returns the files found so far followed by
   * the eligible readable files from `i` on, cut at `maxFiles`; without error entries
   * it always succeeds.
   */
  lemma {:induction false} WalkFromCollects(fs: FileSystem, opts: WalkOptions, entries: seq<WalkEntry>, i: nat, files: seq<FileInfo>)
    requires i <= |entries| && AllAdmitted(fs, opts, files)
    requires opts.maxFiles > 0 ==> |files| <= opts.maxFiles
    ensures NoErrors(entries) ==> WalkFrom(fs, opts, entries, i, files).Ok?
    ensures WalkFrom(fs, opts, entries, i, files).Ok? ==>
      WalkFrom(fs, opts, entries, i, files) == Ok(Take(files + Collected(fs, opts, entries[i..]), opts.maxFiles))
    decreases |entries| - i
  {
    var rest := Collected(fs, opts, entries[i..]);
    if i == |entries| {
      assert entries[i..] == [];
      assert files + rest == files;
    } else {
      var e := entries[i];
      assert entries[i..][1..] == entries[i + 1..];
      var later := Collected(fs, opts, entries[i + 1..]);
      if e.ErrorEntry? {
        assert !NoErrors(entries);
      } else if !Eligible(fs, opts, e) || (!Full(opts, |files|) && !e.readable) {
        assert rest == later;
        WalkFromCollects(fs, opts, entries, i + 1, files);
      } else if Full(opts, |files|) {
        assert |files| == opts.maxFiles;
        if |files + rest| > opts.maxFiles {
          assert (files + rest)[..opts.maxFiles] == files;
        } else {
          assert files + rest == files;
        }
      } else {
        var files' := files + [FileInfo(e.path, e.content)];
        assert rest == [FileInfo(e.path, e.content)] + later;
        assert files + rest == files' + later;
        WalkFromCollects(fs, opts, entries, i + 1, files');
      }
    }
  }

  /** Every collected file is the path and content of an eligible, readable entry. */
  lemma {:induction false} CollectedFromEntries(fs: FileSystem, opts: WalkOptions, entries: seq<WalkEntry>)
    ensures forall k :: 0 <= k < |Collected(fs, opts, entries)| ==>
      exists j :: (0 <= j < |entries| && Eligible(fs, opts, entries[j]) && entries[j].readable
        && Collected(fs, opts, entries)[k] == FileInfo(entries[j].path, entries[j].content))
    decreases |entries|
  {
    if entries == [] {
      assert Collected(fs, opts, entries) == [];
    } else {
      var e := entries[0];
      var tail := entries[1..];
      CollectedFromEntries(fs, opts, tail);
      var head: seq<FileInfo> := if Eligible(fs, opts, e) && e.readable then [FileInfo(e.path, e.content)] else [];
      var c := Collected(fs, opts, entries);
      assert c == head + Collected(fs, opts, tail);
      forall k | 0 <= k < |c|
        ensures exists j :: (0 <= j < |entries| && Eligible(fs, opts, entries[j]) && entries[j].readable
          && c[k] == FileInfo(entries[j].path, entries[j].content))
      {
        if k < |head| {
          assert c[k] == FileInfo(entries[0].path, entries[0].content);
        } else {
          var j :| 0 <= j < |tail| && Eligible(fs, opts, tail[j]) && tail[j].readable
            && Collected(fs, opts, tail)[k - |head|] == FileInfo(tail[j].path, tail[j].content);
          assert entries[j + 1] == tail[j];
        }
      }
    }
  }

  /**
   * Without traversal errors, the walk returns the eligible readable files in the
   * order they are visited, cut at `maxFiles` when that is positive. A file that
   * cannot be read is skipped and does not count against the limit.
   */
  lemma WalkResultWithoutErrors(fs: FileSystem, opts: WalkOptions)
    requires PatternError(fs, opts).None? && NoErrors(fs.walk(opts.rootPath))
    ensures WalkResult(fs, opts) == Ok(Take(Collected(fs, opts, fs.walk(opts.rootPath)), opts.maxFiles))
  {
    var entries := fs.walk(opts.rootPath);
    WalkFromCollects(fs, opts, entries, 0, []);
    assert entries[0..] == entries;
    assert [] + Collected(fs, opts, entries) == Collected(fs, opts, entries);
  }

  /** A successful walk returns the eligible readable files it visited, cut at `maxFiles`. */
  lemma WalkResultCollects(fs: FileSystem, opts: WalkOptions)
    requires WalkResult(fs, opts).Ok?
    ensures WalkResult(fs, opts).value == Take(Collected(fs, opts, fs.walk(opts.rootPath)), opts.maxFiles)
  {
    var entries := fs.walk(opts.rootPath);
    WalkFromCollects(fs, opts, entries, 0, []);
    assert entries[0..] == entries;
    assert [] + Collected(fs, opts, entries) == Collected(fs, opts, entries);
  }

  /**
   * Every file of a successful walk comes from a non-directory entry the walk visited
   * whose reported size is within `maxFileSize` when that is positive and that could
   * be read; the pattern filters it passed are stated by WalkResult.
   */
  lemma WalkResultSound(fs: FileSystem, opts: WalkOptions, k: nat)
    requires WalkResult(fs, opts).Ok? && k < |WalkResult(fs, opts).value|
    ensures var entries := fs.walk(opts.rootPath);
      exists j :: (0 <= j < |entries| && entries[j].FileEntry? && entries[j].readable
        && !(opts.maxFileSize > 0 && entries[j].size > opts.maxFileSize)
        && WalkResult(fs, opts).value[k] == FileInfo(entries[j].path, entries[j].content))
  {
    var entries := fs.walk(opts.rootPath);
    WalkResultCollects(fs, opts);
    CollectedFromEntries(fs, opts, entries);
    var c := Collected(fs, opts, entries);
    assert WalkResult(fs, opts).value[k] == c[k];
    var j :| 0 <= j < |entries| && Eligible(fs, opts, entries[j]) && entries[j].readable
      && c[k] == FileInfo(entries[j].path, entries[j].content);
    assert entries[j].FileEntry?;
  }

  method CompilePatterns(fs: FileSystem, patterns: seq<string>) returns (r: Option<string>)
    ensures r == FirstInvalidPattern(fs, patterns)
  {
    var i := 0;
    while i < |patterns|
      invariant 0 <= i <= |patterns|
      invariant FirstInvalidPattern(fs, patterns) == FirstInvalidPattern(fs, patterns[i..])
    {
      assert patterns[i..][1..] == patterns[i + 1..];
      if !fs.compiles(patterns[i]) {
        return Some(patterns[i]);
      }
      i := i + 1;
    }
    return None;
  }

  /** The loops over compiled globs: does any of them match `path`? */
  method AnyMatch(fs: FileSystem, patterns: seq<string>, path: string) returns (matched: bool)
    ensures matched <==> MatchesAny(fs, patterns, path)
  {
    matched := false;
    var i := 0;
    while i < |patterns|
      invariant 0 <= i <= |patterns|
      invariant forall k :: 0 <= k < i ==> !fs.matches(patterns[k], path)
    {
      if fs.matches(patterns[i], path) {
        matched := true;
        return;
      }
      i := i + 1;
    }
  }

  /** utils/filewalker.go WalkDirectory: compilation, then the traversal with its callback. */
  method WalkDirectory(fs: FileSystem, opts: WalkOptions) returns (r: Result<seq<FileInfo>, Error>)
    ensures r == WalkResult(fs, opts)
  {
    var badInclude := CompilePatterns(fs, opts.includePatterns);
    if badInclude.Some? {
      return Err(InvalidIncludePattern(badInclude.value));
    }
    var badExclude := CompilePatterns(fs, opts.excludePatterns);
    if badExclude.Some? {
      return Err(InvalidExcludePattern(badExclude.value));
    }
    assert PatternError(fs, opts).None?;
    var entries := fs.walk(opts.rootPath);
    var files: seq<FileInfo> := [];
    var i := 0;
    while i < |entries|
      invariant 0 <= i <= |entries|
      invariant AllAdmitted(fs, opts, files)
      invariant WalkFrom(fs, opts, entries, i, files) == WalkFrom(fs, opts, entries, 0, [])
    {
      var e := entries[i];
      if e.ErrorEntry? {
        return Err(WalkDirectoryError(e.reason));
      }
      if e.FileEntry? {
        var excluded := AnyMatch(fs, opts.excludePatterns, e.path);
        if !excluded {
          var included := true;
          if |opts.includePatterns| > 0 {
            included := AnyMatch(fs, opts.includePatterns, e.path);
          }
          if included && !(opts.maxFileSize > 0 && e.size > opts.maxFileSize) {
            assert Eligible(fs, opts, e);
            if opts.maxFiles > 0 && |files| >= opts.maxFiles {
              return Ok(files);
            }
            if e.readable {
              files := files + [FileInfo(e.path, e.content)];
            }
          }
        }
      }
      i := i + 1;
    }
    r := Ok(files);
  }

  // ---------------------------------------------------------------------------
  // SanitizeFilename
  // ---------------------------------------------------------------------------

  predicate FileNameChar(c: char) {
    ('a' <= c <= 'z') || ('0' <= c <= '9') || c == '_'
  }

  /** The strings.Map step: lower-case letters and digits stay, anything else is '_'. */
  function KeepOrUnderscore(c: char): char {
    if ('a' <= c <= 'z') || ('0' <= c <= '9') then c else '_'
  }

  function MapToFileNameChars(s: string): (r: string)
    ensures |r| == |s|
    ensures forall i :: 0 <= i < |s| ==> r[i] == KeepOrUnderscore(s[i])
  {
    seq(|s|, i requires 0 <= i < |s| => KeepOrUnderscore(s[i]))
  }

  predicate StartsWithDouble(s: string) {
    |s| >= 2 && s[0] == '_' && s[1] == '_'
  }

  /** No two underscores are adjacent. */
  predicate NoDoubleUnderscore(s: string) {
    forall i :: 0 <= i < |s| - 1 ==> !(s[i] == '_' && s[i + 1] == '_')
  }

  /** One strings.ReplaceAll(s, "__", "_"): non-overlapping pairs, left to right. */
  function ReplacePass(s: string): (r: string)
    ensures |r| <= |s|
    ensures StartsWithDouble(s) ==> |r| < |s|
    decreases |s|
  {
    if s == [] then []
    else if StartsWithDouble(s) then "_" + ReplacePass(s[2..])
    else [s[0]] + ReplacePass(s[1..])
  }

  /** Every run of underscores squeezed to one: what the collapsing loop computes. */
  function Collapse(s: string): (r: string)
    ensures |r| <= |s|
    decreases |s|
  {
    if s == [] then []
    else if StartsWithDouble(s) then Collapse(s[1..])
    else [s[0]] + Collapse(s[1..])
  }

  /**
   * Collapsing keeps the first character and only characters of its input, and leaves
   * no two underscores adjacent.
   */
  lemma {:induction false} CollapseShape(s: string)
    ensures var r := Collapse(s);
      && (r == [] <==> s == [])
      && (s != [] ==> r[0] == s[0])
      && NoDoubleUnderscore(r)
      && (forall i :: 0 <= i < |r| ==> r[i] in s)
    decreases |s|
  {
    if s != [] {
      CollapseShape(s[1..]);
      var t := Collapse(s[1..]);
      assert forall i :: 0 <= i < |t| ==> t[i] in s[1..];
      if !StartsWithDouble(s) {
        var r := [s[0]] + t;
        assert forall i :: 1 <= i < |r| ==> r[i] == t[i - 1];
      }
    }
  }

  lemma DoubleOccurs(s: string)
    ensures Contains(s, "__") <==> !NoDoubleUnderscore(s)
  {
    if !NoDoubleUnderscore(s) {
      var i :| 0 <= i < |s| - 1 && s[i] == '_' && s[i + 1] == '_';
      assert s[i..i + 2] == "__";
      assert OccursAt(s, "__", i);
    }
    if Contains(s, "__") {
      var i :| OccursAt(s, "__", i);
      assert s[i..i + 2][0] == s[i] && s[i..i + 2][1] == s[i + 1];
    }
  }

  lemma {:induction false} ReplacePassCollapses(t: string)
    ensures Collapse(ReplacePass(t)) == Collapse(t)
    ensures Collapse("_" + ReplacePass(t)) == Collapse("_" + t)
    decreases |t|
  {
    if t == [] {
    } else if StartsWithDouble(t) {
      var u := t[2..];
      ReplacePassCollapses(u);
      assert ("_" + ReplacePass(u))[1..] == ReplacePass(u);
      assert ("_" + t)[1..] == t;
      assert t[1..] == "_" + u;
      assert ("_" + ("_" + ReplacePass(u)))[1..] == "_" + ReplacePass(u);
      assert ReplacePass(t) == "_" + ReplacePass(u);
    } else {
      var u := t[1..];
      ReplacePassCollapses(u);
      assert ReplacePass(t) == [t[0]] + ReplacePass(u);
      assert ([t[0]] + ReplacePass(u))[1..] == ReplacePass(u);
      assert ("_" + ([t[0]] + ReplacePass(u)))[1..] == [t[0]] + ReplacePass(u);
      assert ("_" + t)[1..] == t;
      assert t == [t[0]] + u;
      if t[0] == '_' {
        assert u == [] || u[0] != '_';
        assert ReplacePass(u) == [] || ReplacePass(u)[0] != '_' by {
          if u != [] {
            assert ReplacePass(u) == [u[0]] + ReplacePass(u[1..]);
          }
        }
      }
    }
  }

  lemma {:induction false} CollapseOfSingles(s: string)
    requires NoDoubleUnderscore(s)
    ensures Collapse(s) == s
    decreases |s|
  {
    if s != [] {
      CollapseOfSingles(s[1..]);
      assert s == [s[0]] + s[1..];
    }
  }

  /** The collapsing loop: ReplaceAll again while any "__" remains. */
  method CollapseUnderscores(name: string) returns (r: string)
    ensures r == Collapse(name)
    ensures NoDoubleUnderscore(r)
  {
    r := name;
    DoubleOccurs(r);
    while Contains(r, "__")
      invariant Collapse(r) == Collapse(name)
      invariant Contains(r, "__") <==> !NoDoubleUnderscore(r)
      decreases |r|
    {
      ReplacePassCollapses(r);
      assert StartsWithDouble(r) ==> |ReplacePass(r)| < |r|;
      ReplacePassShrinks(r);
      r := ReplacePass(r);
      DoubleOccurs(r);
    }
    CollapseOfSingles(r);
  }

  /** A pass shortens any string with an adjacent pair of underscores. */
  lemma {:induction false} ReplacePassShrinks(s: string)
    ensures !NoDoubleUnderscore(s) ==> |ReplacePass(s)| < |s|
    decreases |s|
  {
    if s != [] && !StartsWithDouble(s) {
      ReplacePassShrinks(s[1..]);
      assert !NoDoubleUnderscore(s) ==> !NoDoubleUnderscore(s[1..]) by {
        if !NoDoubleUnderscore(s) {
          var i :| 0 <= i < |s| - 1 && s[i] == '_' && s[i + 1] == '_';
          assert i > 0 ==> s[1..][i - 1] == s[i] && s[1..][i] == s[i + 1];
        }
      }
    }
  }

  /** strings.TrimLeft(s, "_"). */
  function TrimLeadingUnderscores(s: string): (r: string)
    ensures |r| <= |s|
  {
    if s != [] && s[0] == '_' then TrimLeadingUnderscores(s[1..]) else s
  }

  /** strings.TrimRight(s, "_"). */
  function TrimTrailingUnderscores(s: string): (r: string)
    ensures |r| <= |s|
  {
    if s != [] && s[|s| - 1] == '_' then TrimTrailingUnderscores(s[..|s| - 1]) else s
  }

  /** Trimming on the left drops a prefix, and what is left starts with no underscore. */
  lemma {:induction false} TrimLeadingShape(s: string)
    ensures var r := TrimLeadingUnderscores(s);
      r == s[|s| - |r|..] && (r == [] || r[0] != '_')
    decreases |s|
  {
    if s != [] && s[0] == '_' {
      TrimLeadingShape(s[1..]);
      var r := TrimLeadingUnderscores(s[1..]);
      assert s[1..][|s| - 1 - |r|..] == s[|s| - |r|..];
    }
  }

  /** Trimming on the right drops a suffix, and what is left ends with no underscore. */
  lemma {:induction false} TrimTrailingShape(s: string)
    ensures var r := TrimTrailingUnderscores(s);
      r == s[..|r|] && (r == [] || r[|r| - 1] != '_')
    decreases |s|
  {
    if s != [] && s[|s| - 1] == '_' {
      TrimTrailingShape(s[..|s| - 1]);
      var r := TrimTrailingUnderscores(s[..|s| - 1]);
      assert s[..|s| - 1][..|r|] == s[..|r|];
    }
  }

  /** strings.Trim(s, "_"): `s` without leading and trailing underscores. */
  function TrimUnderscores(s: string): string {
    TrimTrailingUnderscores(TrimLeadingUnderscores(s))
  }

  /** Trimming keeps a middle slice of the input with no underscore at either end. */
  lemma TrimShape(s: string)
    ensures var r := TrimUnderscores(s);
      var k := |s| - |TrimLeadingUnderscores(s)|;
      && (r == [] || (r[0] != '_' && r[|r| - 1] != '_'))
      && k + |r| <= |s| && r == s[k..k + |r|]
  {
    var l := TrimLeadingUnderscores(s);
    TrimLeadingShape(s);
    TrimTrailingShape(l);
  }

  /** utils/filewalker.go SanitizeFilename, as a value. */
  function Sanitize(name: string): string {
    TrimUnderscores(Collapse(MapToFileNameChars(ToLower(name))))
  }

  /** The characters and the single underscores of a string survive trimming. */
  lemma TrimKeeps(s: string)
    requires forall i :: 0 <= i < |s| ==> FileNameChar(s[i])
    requires NoDoubleUnderscore(s)
    ensures var r := TrimUnderscores(s);
      (forall i :: 0 <= i < |r| ==> FileNameChar(r[i])) && NoDoubleUnderscore(r)
  {
    TrimShape(s);
    var r := TrimUnderscores(s);
    var k := |s| - |TrimLeadingUnderscores(s)|;
    assert forall i :: 0 <= i < |r| ==> r[i] == s[k + i];
  }

  /**
   * A sanitized name uses only lower-case letters, digits and underscores, never two
   * underscores in a row, and no underscore at either end.
   */
  lemma SanitizeShape(name: string)
    ensures var r := Sanitize(name);
      && (forall i :: 0 <= i < |r| ==> FileNameChar(r[i]))
      && NoDoubleUnderscore(r)
      && (r == [] || (r[0] != '_' && r[|r| - 1] != '_'))
  {
    var m := MapToFileNameChars(ToLower(name));
    var c := Collapse(m);
    CollapseShape(m);
    TrimShape(c);
    assert forall i :: 0 <= i < |m| ==> FileNameChar(m[i]);
    forall i | 0 <= i < |c| ensures FileNameChar(c[i]) {
      assert c[i] in m;
    }
    TrimKeeps(c);
  }

  lemma LowerAndMapKeep(r: string)
    requires forall i :: 0 <= i < |r| ==> FileNameChar(r[i])
    ensures MapToFileNameChars(ToLower(r)) == r
  {
    var l := ToLower(r);
    assert l == r by {
      forall i | 0 <= i < |r| ensures l[i] == r[i] {
        assert FileNameChar(r[i]);
      }
    }
    var m := MapToFileNameChars(l);
    forall i | 0 <= i < |r| ensures m[i] == r[i] {
      assert FileNameChar(r[i]);
    }
  }

  lemma TrimOfUntrimmed(r: string)
    requires r == [] || (r[0] != '_' && r[|r| - 1] != '_')
    ensures TrimUnderscores(r) == r
  {
    assert TrimLeadingUnderscores(r) == r;
    assert TrimTrailingUnderscores(r) == r;
  }

  /** Sanitizing a sanitized name changes nothing. */
  lemma SanitizeIdempotent(name: string)
    ensures Sanitize(Sanitize(name)) == Sanitize(name)
  {
    var r := Sanitize(name);
    SanitizeShape(name);
    LowerAndMapKeep(r);
    CollapseOfSingles(r);
    TrimOfUntrimmed(r);
  }

  lemma CollapseKeeps(c: char, t: string)
    requires c != '_'
    ensures Collapse([c] + t) == [c] + Collapse(t)
  {
    assert ([c] + t)[1..] == t;
  }

  /** `s` holds no ASCII letter and no digit; it may be empty. */
  predicate Blank(s: string) {
    forall i :: 0 <= i < |s| ==> !(('a' <= s[i] <= 'z') || ('A' <= s[i] <= 'Z') || ('0' <= s[i] <= '9'))
  }

  /** `s` is a non-empty run of punctuation or white space. */
  predicate Separator(s: string) {
    s != [] && Blank(s)
  }

  /** `s` is a non-empty word of ASCII letters, in either case, and digits. */
  predicate Alnum(s: string) {
    s != [] && forall i :: 0 <= i < |s| ==> ('a' <= s[i] <= 'z') || ('A' <= s[i] <= 'Z') || ('0' <= s[i] <= '9')
  }

  function Underscores(n: nat): (r: string)
    ensures |r| == n && forall i :: 0 <= i < n ==> r[i] == '_'
  {
    seq(n, i => '_')
  }

  /** Lower-casing and mapping work character by character, so they distribute over `+`. */
  lemma MapOfConcat(x: string, y: string)
    ensures MapToFileNameChars(ToLower(x + y)) == MapToFileNameChars(ToLower(x)) + MapToFileNameChars(ToLower(y))
  {
    var l := MapToFileNameChars(ToLower(x + y));
    var r := MapToFileNameChars(ToLower(x)) + MapToFileNameChars(ToLower(y));
    forall i | 0 <= i < |l| ensures l[i] == r[i] {
      if i < |x| {
        assert (x + y)[i] == x[i];
      } else {
        assert (x + y)[i] == y[i - |x|];
      }
    }
  }

  lemma MapOfBlank(s: string)
    requires Blank(s)
    ensures MapToFileNameChars(ToLower(s)) == Underscores(|s|)
  {
  }

  lemma MapOfAlnum(s: string)
    requires Alnum(s)
    ensures MapToFileNameChars(ToLower(s)) == ToLower(s)
    ensures ToLower(s)[0] != '_' && ToLower(s)[|s| - 1] != '_'
    ensures forall i :: 0 <= i < |s| ==> ToLower(s)[i] != '_'
  {
  }

  /** A run of underscores before a non-underscore collapses to one underscore. */
  lemma {:induction false} CollapseRun(n: nat, t: string)
    requires n >= 1 && (t == [] || t[0] != '_')
    ensures Collapse(Underscores(n) + t) == "_" + Collapse(t)
    decreases n
  {
    var s := Underscores(n) + t;
    if n == 1 {
      assert s == "_" + t && s[1..] == t;
    } else {
      CollapseRun(n - 1, t);
      assert StartsWithDouble(s);
      assert s[1..] == Underscores(n - 1) + t;
    }
  }

  lemma {:induction false} CollapseWordPrefix(x: string, t: string)
    requires forall i :: 0 <= i < |x| ==> x[i] != '_'
    ensures Collapse(x + t) == x + Collapse(t)
    decreases |x|
  {
    if x == [] {
      assert x + t == t;
    } else {
      var x' := x[1..];
      var c := Collapse(t);
      CollapseWordPrefix(x', t);
      CollapseKeeps(x[0], x' + t);
      calc {
        Collapse(x + t);
        { assert x + t == [x[0]] + (x' + t); }
        Collapse([x[0]] + (x' + t));
        [x[0]] + (x' + c);
        { assert x == [x[0]] + x'; }
        x + c;
      }
    }
  }

  lemma {:induction false} CollapseOfUnderscores(n: nat)
    ensures Collapse(Underscores(n)) == OneIf(n)
    decreases n
  {
    if n > 1 {
      assert Underscores(n)[1..] == Underscores(n - 1);
      CollapseOfUnderscores(n - 1);
    } else if n == 1 {
      assert Underscores(1) == "_";
    }
  }

  /** A run of underscores, if any, collapses to at most one. */
  lemma CollapseOptionalRun(n: nat, t: string)
    requires t == [] || t[0] != '_'
    ensures Collapse(Underscores(n) + t) == OneIf(n) + Collapse(t)
  {
    if n == 0 {
      assert Underscores(0) + t == t;
    } else {
      CollapseRun(n, t);
    }
  }

  lemma {:induction false} TrimLeadingOfRun(n: nat, t: string)
    requires t == [] || t[0] != '_'
    ensures TrimLeadingUnderscores(Underscores(n) + t) == t
    decreases n
  {
    if n > 0 {
      assert (Underscores(n) + t)[1..] == Underscores(n - 1) + t;
      TrimLeadingOfRun(n - 1, t);
    } else {
      assert Underscores(0) + t == t;
    }
  }

  lemma {:induction false} TrimTrailingOfRun(t: string, n: nat)
    requires t == [] || t[|t| - 1] != '_'
    ensures TrimTrailingUnderscores(t + Underscores(n)) == t
    decreases n
  {
    if n > 0 {
      var s := t + Underscores(n);
      assert s[..|s| - 1] == t + Underscores(n - 1);
      TrimTrailingOfRun(t, n - 1);
    } else {
      assert t + Underscores(0) == t;
    }
  }

  /** At most one underscore: one when `n` is positive. */
  function OneIf(n: nat): string {
    if n == 0 then "" else "_"
  }

  lemma MapOfFramed(pre: string, a: string, sep: string, b: string, post: string)
    requires Blank(pre) && Alnum(a) && Separator(sep) && Alnum(b) && Blank(post)
    ensures MapToFileNameChars(ToLower(pre + a + sep + b + post))
      == Underscores(|pre|) + (ToLower(a) + (Underscores(|sep|) + (ToLower(b) + Underscores(|post|))))
  {
    MapOfAlnum(a);
    MapOfAlnum(b);
    MapOfBlank(pre);
    MapOfBlank(sep);
    MapOfBlank(post);
    MapOfConcat(pre + a + sep + b, post);
    MapOfConcat(pre + a + sep, b);
    MapOfConcat(pre + a, sep);
    MapOfConcat(pre, a);
  }

  /** The second word with the separator run before it and the run after it, collapsed. */
  lemma CollapseOfTail(s: nat, lb: string, q: nat)
    requires lb != [] && s >= 1
    requires forall i :: 0 <= i < |lb| ==> lb[i] != '_'
    ensures Collapse(Underscores(s) + (lb + Underscores(q))) == "_" + (lb + OneIf(q))
  {
    var t1 := lb + Underscores(q);
    assert Collapse(t1) == lb + OneIf(q) by {
      CollapseWordPrefix(lb, Underscores(q));
      CollapseOfUnderscores(q);
    }
    assert t1[0] == lb[0];
    CollapseRun(s, t1);
  }

  /** Collapsing the mapped name leaves the two words, one underscore between them and at most one at each end. */
  lemma CollapseOfFramed(p: nat, la: string, s: nat, lb: string, q: nat)
    requires la != [] && lb != [] && s >= 1
    requires forall i :: 0 <= i < |la| ==> la[i] != '_'
    requires forall i :: 0 <= i < |lb| ==> lb[i] != '_'
    ensures Collapse(Underscores(p) + (la + (Underscores(s) + (lb + Underscores(q)))))
      == OneIf(p) + ((la + "_" + lb) + OneIf(q))
  {
    var t2 := Underscores(s) + (lb + Underscores(q));
    var t3 := la + t2;
    assert Collapse(t3) == la + ("_" + (lb + OneIf(q))) by {
      CollapseOfTail(s, lb, q);
      CollapseWordPrefix(la, t2);
    }
    assert t3[0] == la[0];
    CollapseOptionalRun(p, t3);
    JoinedRegroup(la, lb, OneIf(q));
  }

  lemma JoinedRegroup(a: string, b: string, c: string)
    ensures a + ("_" + (b + c)) == (a + "_" + b) + c
  {
  }

  lemma TrimOfPadded(x: nat, r: string, y: nat)
    requires r != [] && r[0] != '_' && r[|r| - 1] != '_'
    ensures TrimUnderscores(OneIf(x) + (r + OneIf(y))) == r
  {
    assert OneIf(x) == Underscores(if x == 0 then 0 else 1);
    assert OneIf(y) == Underscores(if y == 0 then 0 else 1);
    TrimLeadingOfRun(|OneIf(x)|, r + OneIf(y));
    TrimTrailingOfRun(r, |OneIf(y)|);
  }

  /**
   * Two words joined by any run of punctuation or white space, with any punctuation
   * or white space around them, become the two words in lower case joined by one
   * underscore: "Node Abstraction!" gives "node_abstraction" and "__A--B__" gives "a_b".
   */
  lemma SanitizeFramed(pre: string, a: string, sep: string, b: string, post: string)
    requires Blank(pre) && Alnum(a) && Separator(sep) && Alnum(b) && Blank(post)
    ensures Sanitize(pre + a + sep + b + post) == ToLower(a) + "_" + ToLower(b)
  {
    MapOfFramed(pre, a, sep, b, post);
    MapOfAlnum(a);
    MapOfAlnum(b);
    var la, lb := ToLower(a), ToLower(b);
    CollapseOfFramed(|pre|, la, |sep|, lb, |post|);
    TrimOfPadded(|pre|, la + "_" + lb, |post|);
  }

  /** A name made only of punctuation and white space sanitizes to the empty name. */
  lemma SanitizeOfSeparator(sep: string)
    requires Separator(sep)
    ensures Sanitize(sep) == ""
  {
    MapOfBlank(sep);
    CollapseOfUnderscores(|sep|);
  }

  /** How "Node Abstraction!" splits into words and separators. */
  lemma TitleParts(title: string)
    requires title == "Node Abstraction!"
    ensures title == title[..0] + title[..4] + title[4..5] + title[5..16] + title[16..]
    ensures Blank(title[..0]) && Separator(title[4..5]) && Blank(title[16..])
    ensures Alnum(title[..4]) && Alnum(title[5..16])
  {
  }

  /** The words of "Node Abstraction!" in lower case. */
  lemma TitleWords(title: string)
    requires title == "Node Abstraction!"
    ensures ToLower(title[..4]) + "_" + ToLower(title[5..16]) == "node_abstraction"
  {
    var a, b := title[..4], title[5..16];
    assert ToLower(a) == "node" by {
      assert forall i :: 0 <= i < 4 ==> ToLower(a)[i] == "node"[i];
    }
    assert ToLower(b) == "abstraction" by {
      assert forall i :: 0 <= i < 11 ==> ToLower(b)[i] == "abstraction"[i];
    }
    assert "node" + "_" + "abstraction" == "node_abstraction";
  }

  /** A title of two words sanitizes to the words in lower case joined by an underscore. */
  lemma SanitizeTitleExample(title: string)
    requires title == "Node Abstraction!"
    ensures Sanitize(title) == "node_abstraction"
  {
    TitleParts(title);
    TitleWords(title);
    SanitizeFramed(title[..0], title[..4], title[4..5], title[5..16], title[16..]);
  }

  /** Underscores and dashes around and between two letters leave one underscore between them. */
  lemma SanitizePaddedExample(title: string)
    requires title == "__A--B__"
    ensures Sanitize(title) == "a_b"
  {
    var a, b := title[2..3], title[5..6];
    assert ToLower(a) + "_" + ToLower(b) == "a_b";
    assert title == title[..2] + a + title[3..5] + b + title[6..];
    SanitizeFramed(title[..2], a, title[3..5], b, title[6..]);
  }

  /** utils/filewalker.go SanitizeFilename. */
  method SanitizeFilename(name: string) returns (r: string)
    ensures r == Sanitize(name)
  {
    r := ToLower(name);
    r := MapToFileNameChars(r);
    r := CollapseUnderscores(r);
    r := TrimUnderscores(r);
  }
}
