/**
 * The `read_many_files` tool (read-many-files.ts): validating its
 * parameters, composing the exclusion patterns, choosing and ordering the
 * files to read, turning each into a content part, and the summary shown to
 * the user.
 *
 * Globbing, the git-ignore filter, file-type detection and file reading are
 * services outside the model; each reaches it as a function parameter.
 * Paths use `/` as their separator.
 */
module ReadManyFiles {
  import opened Wrappers
  import opened Text
  import opened Json
  import EditTool

  const ToolName := "read_many_files"
  const DisplayName := "ReadManyFiles"

  function Min(a: nat, b: nat): nat {
    if a <= b then a else b
  }

  // ---------------------------------------------------------------------
  // validateParams
  // ---------------------------------------------------------------------

  /** The parameters as the model sent them, before any check. */
  datatype RawParams = RawParams(
    paths: Option<Json>,
    includePatterns: Option<Json>,
    excludePatterns: Option<Json>,
    useDefaultExcludes: Option<bool>,
    respectGitIgnore: Option<bool>)

  /** Why validation refused the parameters. */
  datatype ValidationError =
    | PathsMissing
    | SchemaMismatch
    | BlankPath
    | IncludeNotStrings
    | ExcludeNotStrings

  function ValidationMessage(e: ValidationError): string {
    match e
    case PathsMissing => "The \"paths\" parameter is required and must be a non-empty array of strings/glob patterns."
    case SchemaMismatch => "Parameters failed schema validation. Ensure \"paths\" is a non-empty array and other parameters match their expected types."
    case BlankPath => "Each item in \"paths\" must be a non-empty string/glob pattern."
    case IncludeNotStrings => "If provided, \"include\" must be an array of strings/glob patterns."
    case ExcludeNotStrings => "If provided, \"exclude\" must be an array of strings/glob patterns."
  }

  /** `paths` is present and a non-empty array. */
  predicate HasPaths(raw: RawParams) {
    raw.paths.Some? && raw.paths.value.JArr? && raw.paths.value.items != []
  }

  /** Every entry of `paths` is a string that is not blank. */
  predicate PathsAreNonBlank(items: seq<Json>) {
    forall i :: 0 <= i < |items| ==> items[i].JStr? && Trim(items[i].s) != ""
  }

  /** A truthy `include`/`exclude` must be an array of strings; a falsy one is not checked. */
  predicate ListOk(j: Option<Json>) {
    !(j.Some? && Truthy(j.value))
    || (j.value.JArr? && forall i :: 0 <= i < |j.value.items| ==> j.value.items[i].JStr?)
  }

  /**
   * `validateParams`; `schemaValid` is the schema validator's verdict. The
   * checks run in order and the first that fails decides the message.
   */
  function ValidateParams(raw: RawParams, schemaValid: bool): (r: Option<ValidationError>)
    ensures !HasPaths(raw) ==> r == Some(PathsMissing)
    ensures HasPaths(raw) && !schemaValid ==> r == Some(SchemaMismatch)
    ensures HasPaths(raw) && schemaValid && !PathsAreNonBlank(raw.paths.value.items) ==> r == Some(BlankPath)
    ensures HasPaths(raw) && schemaValid && PathsAreNonBlank(raw.paths.value.items) ==>
      r == (if !ListOk(raw.includePatterns) then Some(IncludeNotStrings)
            else if !ListOk(raw.excludePatterns) then Some(ExcludeNotStrings)
            else None)
  {
    if !HasPaths(raw) then Some(PathsMissing)
    else if !schemaValid then Some(SchemaMismatch)
    else if !PathsAreNonBlank(raw.paths.value.items) then Some(BlankPath)
    else if !ListOk(raw.includePatterns) then Some(IncludeNotStrings)
    else if !ListOk(raw.excludePatterns) then Some(ExcludeNotStrings)
    else None
  }

  /** The parameters `execute` works with once they are valid. */
  datatype Request = Request(
    paths: seq<string>,
    includePatterns: seq<string>,
    excludePatterns: seq<string>,
    useDefaultExcludes: bool,
    respectGitIgnore: bool)

  /** The strings of an array of strings; anything else counts as no list. */
  function StringList(j: Option<Json>): (r: seq<string>)
    ensures j.Some? && j.value.JArr? && (forall i :: 0 <= i < |j.value.items| ==> j.value.items[i].JStr?) ==>
      |r| == |j.value.items| && forall i :: 0 <= i < |r| ==> r[i] == j.value.items[i].s
    ensures j.None? ==> r == []
  {
    if j.Some? && j.value.JArr? && (forall i :: 0 <= i < |j.value.items| ==> j.value.items[i].JStr?) then
      seq(|j.value.items|, i requires 0 <= i < |j.value.items| => j.value.items[i].s)
    else []
  }

  /** The destructuring in `execute`: lists default to empty, both flags to true. */
  function ToRequest(raw: RawParams): Request {
    Request(StringList(raw.paths), StringList(raw.includePatterns), StringList(raw.excludePatterns),
            raw.useDefaultExcludes.GetOr(true), raw.respectGitIgnore.GetOr(true))
  }

  /**
   * Valid parameters always name at least one non-blank search pattern, so
   * the "no search paths" answer of `execute` cannot be reached.
   */
  lemma ValidRequestHasPatterns(raw: RawParams, schemaValid: bool)
    requires ValidateParams(raw, schemaValid).None?
    ensures var req := ToRequest(raw);
      |req.paths + req.includePatterns| > 0
      && forall i :: 0 <= i < |req.paths| ==> Trim(req.paths[i]) != ""
  {
  }

  // ---------------------------------------------------------------------
  // Exclusion patterns and getDescription
  // ---------------------------------------------------------------------

  /** DEFAULT_EXCLUDES, apart from its last entry. */
  const FixedExcludes: seq<string> := [
    "**/node_modules/**", "**/.git/**", "**/.vscode/**", "**/.idea/**", "**/dist/**",
    "**/build/**", "**/coverage/**", "**/__pycache__/**", "**/*.pyc", "**/*.pyo",
    "**/*.bin", "**/*.exe", "**/*.dll", "**/*.so", "**/*.dylib", "**/*.class",
    "**/*.jar", "**/*.war", "**/*.zip", "**/*.tar", "**/*.gz", "**/*.bz2", "**/*.rar",
    "**/*.7z", "**/*.doc", "**/*.docx", "**/*.xls", "**/*.xlsx", "**/*.ppt",
    "**/*.pptx", "**/*.odt", "**/*.ods", "**/*.odp", "**/*.DS_Store", "**/.env"]

  /**
   * DEFAULT_EXCLUDES: the fixed patterns, then the context file under any
   * directory (its name as configured when the module is loaded).
   */
  function DefaultExcludes(contextFilename: string): (r: seq<string>)
    ensures |r| == |FixedExcludes| + 1 && r[|r| - 1] == "**/" + contextFilename
    ensures r[..|FixedExcludes|] == FixedExcludes
  {
    FixedExcludes + ["**/" + contextFilename]
  }

  /** The ignore list given to the glob, and the one the description quotes. */
  function EffectiveExcludes(useDefaultExcludes: bool, excludePatterns: seq<string>, ignorePatterns: seq<string>,
                             contextFilename: string): (r: seq<string>)
    ensures forall p :: p in r <==>
      (p in excludePatterns || p in ignorePatterns || (useDefaultExcludes && p in DefaultExcludes(contextFilename)))
  {
    if useDefaultExcludes then DefaultExcludes(contextFilename) + excludePatterns + ignorePatterns
    else excludePatterns + ignorePatterns
  }

  /** The user's exclusions follow the defaults, and the .geminiignore patterns come last. */
  lemma ExcludeOrder(useDefaultExcludes: bool, excludePatterns: seq<string>, ignorePatterns: seq<string>,
                     contextFilename: string)
    ensures var r := EffectiveExcludes(useDefaultExcludes, excludePatterns, ignorePatterns, contextFilename);
      var d := if useDefaultExcludes then DefaultExcludes(contextFilename) else [];
      && r[..|d|] == d
      && r[|d|..|d| + |excludePatterns|] == excludePatterns
      && r[|d| + |excludePatterns|..] == ignorePatterns
  {
  }

  /** How many of `xs` occur in `final`: the `.filter(...).length` of the description. */
  function CountIn(xs: seq<string>, final: seq<string>): (r: nat)
    ensures r <= |xs|
  {
    if xs == [] then 0
    else CountIn(xs[..|xs| - 1], final) + (if xs[|xs| - 1] in final then 1 else 0)
  }

  /** Every pattern of a list that is part of `final` is counted. */
  lemma {:induction false} CountAllIn(xs: seq<string>, final: seq<string>)
    requires forall x :: x in xs ==> x in final
    ensures CountIn(xs, final) == |xs|
  {
    if xs != [] {
      CountAllIn(xs[..|xs| - 1], final);
    }
  }

  function IgnoreNote(n: nat): string {
    "（包含 " + NatToString(n) + " 个来自 .geminiignore 的规则）"
  }

  /**
   * The exclusion part of the description: the first two patterns, and a
   * note counting the .geminiignore patterns. Since every .geminiignore
   * pattern is in the list, the note counts all of them.
   */
  function ExcludeDescription(useDefaultExcludes: bool, excludePatterns: seq<string>, ignorePatterns: seq<string>,
                              contextFilename: string): (r: string)
    ensures |ignorePatterns| > 0 ==> EndsWith(r, IgnoreNote(|ignorePatterns|))
  {
    var final := EffectiveExcludes(useDefaultExcludes, excludePatterns, ignorePatterns, contextFilename);
    var listed :=
      if |final| > 0 then
        "如 `" + Join(final[..Min(2, |final|)], "`, `") + (if |final| > 2 then "...`" else "`") + " 等模式"
      else "无特定规则";
    var base := "排除规则：" + listed;
    var count := CountIn(ignorePatterns, final);
    CountAllIn(ignorePatterns, final);
    var r := if |ignorePatterns| > 0 && count > 0 then base + IgnoreNote(count) else base;
    assert |ignorePatterns| > 0 ==> r[|r| - |IgnoreNote(count)|..] == IgnoreNote(count);
    r
  }

  /** The separator format with the example path put in. */
  const SeparatorExample := "--- path/to/file.ext ---"

  /** `getDescription`; `encoding` is the file utilities' default encoding. */
  function GetDescription(req: Request, targetDir: string, ignorePatterns: seq<string>, contextFilename: string,
                          encoding: string): (r: string)
    ensures Includes(r, Join(req.paths + req.includePatterns, "`, `"))
  {
    var head := "将尝试读取并合并文件 使用模式：`";
    var patterns := Join(req.paths + req.includePatterns, "`, `");
    var r := head + patterns + "`（目标目录：`" + targetDir + "`）。"
      + ExcludeDescription(req.useDefaultExcludes, req.excludePatterns, ignorePatterns, contextFilename)
      + "。文件编码：" + encoding + "。分隔符：\"" + SeparatorExample + "\"。";
    assert r[|head|..|head| + |patterns|] == patterns;
    assert OccursAt(r, patterns, |head|);
    r
  }

  // ---------------------------------------------------------------------
  // The order of file paths
  // ---------------------------------------------------------------------

  /**
   * `a` sorts strictly before `b` in the default order of `Array.prototype.sort`
   * on strings: character by character, a proper prefix first.
   */
  predicate Below(a: string, b: string)
    decreases |a|
  {
    if a == [] then b != []
    else if b == [] then false
    else if a[0] != b[0] then a[0] < b[0]
    else Below(a[1..], b[1..])
  }

  lemma {:induction false} BelowIrreflexive(a: string)
    ensures !Below(a, a)
    decreases |a|
  {
    if a != [] {
      BelowIrreflexive(a[1..]);
    }
  }

  lemma {:induction false} BelowAsymmetric(a: string, b: string)
    ensures !(Below(a, b) && Below(b, a))
    decreases |a|
  {
    if a != [] && b != [] && a[0] == b[0] {
      BelowAsymmetric(a[1..], b[1..]);
    }
  }

  lemma {:induction false} BelowTransitive(a: string, b: string, c: string)
    requires Below(a, b) && Below(b, c)
    ensures Below(a, c)
    decreases |a|
  {
    if a != [] && a[0] == b[0] && b[0] == c[0] {
      BelowTransitive(a[1..], b[1..], c[1..]);
    }
  }

  lemma {:induction false} BelowTotal(a: string, b: string)
    ensures a == b || Below(a, b) || Below(b, a)
    decreases |a|
  {
    if a != [] && b != [] && a[0] == b[0] {
      BelowTotal(a[1..], b[1..]);
      assert a == [a[0]] + a[1..] && b == [b[0]] + b[1..];
    }
  }

  /** Ascending and without repetitions: the sorted array of a set. */
  predicate StrictlySorted(s: seq<string>) {
    forall i, j :: 0 <= i < j < |s| ==> Below(s[i], s[j])
  }

  /** The first element of a strictly sorted sequence sorts before every other one. */
  lemma SortedHeadIsLeast(s: seq<string>, y: string)
    requires StrictlySorted(s) && y in s
    ensures y == s[0] || Below(s[0], y)
  {
  }

  /** `set.add(x)` on the sorted array of a set. */
  function Insert(s: seq<string>, x: string): (r: seq<string>)
    requires StrictlySorted(s)
    ensures StrictlySorted(r)
    ensures forall y :: y in r <==> y in s || y == x
  {
    if s == [] then [x]
    else if x == s[0] then s
    else if Below(x, s[0]) then
      assert forall j :: 0 < j < |s| ==> Below(x, s[j]) by {
        forall j | 0 < j < |s| ensures Below(x, s[j]) {
          BelowTransitive(x, s[0], s[j]);
        }
      }
      [x] + s
    else
      var rest := Insert(s[1..], x);
      assert StrictlySorted(s[1..]);
      BelowTotal(x, s[0]);
      assert forall y :: y in rest ==> Below(s[0], y) by {
        forall y | y in rest ensures Below(s[0], y) {
          if y != x {
            assert y in s[1..];
          }
        }
      }
      [s[0]] + rest
  }

  /** An element after the head of one sorted sequence is after the head of another with the same first element. */
  lemma TailMember(a: seq<string>, b: seq<string>, y: string)
    requires StrictlySorted(a) && a != [] && b != [] && a[0] == b[0]
    requires forall z :: z in a ==> z in b
    ensures y in a[1..] ==> y in b[1..]
  {
    if y in a[1..] {
      var k :| 0 <= k < |a| - 1 && a[1..][k] == y;
      assert Below(a[0], a[k + 1]);
      BelowIrreflexive(y);
      assert y in b;
      var m :| 0 <= m < |b| && b[m] == y;
      assert m != 0;
      assert b[1..][m - 1] == y;
    }
  }

  /**
   * Two strictly sorted sequences with the same elements are equal: the
   * sorted array of a set does not depend on the order the set was filled in.
   */
  lemma {:induction false} SortedIsUnique(a: seq<string>, b: seq<string>)
    requires StrictlySorted(a) && StrictlySorted(b)
    requires forall y :: y in a <==> y in b
    ensures a == b
    decreases |a|
  {
    assert a != [] ==> a[0] in b;
    assert b != [] ==> b[0] in a;
    if a != [] && b != [] {
      SortedHeadIsLeast(a, b[0]);
      SortedHeadIsLeast(b, a[0]);
      BelowAsymmetric(a[0], b[0]);
      assert a[0] == b[0];
      forall y ensures y in a[1..] ==> y in b[1..] {
        TailMember(a, b, y);
      }
      forall y ensures y in b[1..] ==> y in a[1..] {
        TailMember(b, a, y);
      }
      SortedIsUnique(a[1..], b[1..]);
      assert a == [a[0]] + a[1..] && b == [b[0]] + b[1..];
    }
  }

  // ---------------------------------------------------------------------
  // Collecting the files glob found
  // ---------------------------------------------------------------------

  /** An entry the tool did not read, with the reason shown to the user. */
  datatype SkippedItem = SkippedItem(path: string, reason: string)

  /**
   * The security check on a glob entry: the path is the target directory or
   * lies below it. This is the check the rest of the model uses; the check
   * as written is `SecurityCheckAsWritten`.
   */
  predicate InsideTarget(p: string, baseDir: string) {
    EditTool.IsWithinRoot(p, baseDir)
  }

  /** The security check as the source writes it: a bare string-prefix test. */
  predicate SecurityCheckAsWritten(p: string, baseDir: string) {
    StartsWith(p, baseDir)
  }

  /**
   * A file in a sibling directory whose name extends the target's passes the
   * check as written, although it lies outside the target directory.
   */
  lemma SiblingPassesSecurityCheck()
    ensures SecurityCheckAsWritten("/work/app-secrets/key.txt", "/work/app")
    ensures !InsideTarget("/work/app-secrets/key.txt", "/work/app")
  {
    var p := "/work/app-secrets/key.txt";
    assert p[..|"/work/app"|] == "/work/app";
    assert p == "/work/app" + ['-'] + "secrets/key.txt";
    assert !EndsWith("/work/app", "/");
    EditTool.SiblingIsOutsideRoot("/work/app", '-', "secrets/key.txt");
  }

  /**
   * The corrected check admits the target directory's own entries and
   * refuses siblings that merely share its name as a prefix; whatever it
   * admits, the check as written admits too.
   */
  lemma InsideTargetIsContainment(baseDir: string, c: char, rest: string)
    requires baseDir != [] && !EndsWith(baseDir, "/")
    ensures InsideTarget(baseDir + "/" + rest, baseDir)
    ensures c != '/' ==> !InsideTarget(baseDir + [c] + rest, baseDir)
    ensures forall p :: InsideTarget(p, baseDir) ==> SecurityCheckAsWritten(p, baseDir)
  {
    EditTool.ChildIsWithinRoot(baseDir, rest);
    assert EditTool.RootWithSep(baseDir) == baseDir + "/";
    if c != '/' {
      EditTool.SiblingIsOutsideRoot(baseDir, c, rest);
    }
    forall p | InsideTarget(p, baseDir) ensures SecurityCheckAsWritten(p, baseDir) {
      if p != baseDir {
        assert p[..|baseDir|] == EditTool.RootWithSep(baseDir)[..|baseDir|];
      }
    }
  }

  /**
   * The two checks disagree exactly on a path that extends the target's
   * name, not ending in a separator, by a character other than a separator.
   */
  lemma ChecksDisagreeOnlyOnSiblings(p: string, baseDir: string)
    ensures SecurityCheckAsWritten(p, baseDir) && !InsideTarget(p, baseDir)
      <==> !EndsWith(baseDir, "/") && |p| > |baseDir| && p[..|baseDir|] == baseDir && p[|baseDir|] != '/'
  {
    if !EndsWith(baseDir, "/") && |p| > |baseDir| && p[..|baseDir|] == baseDir && p[|baseDir|] != '/' {
      SiblingFailsCorrectedCheck(p, baseDir);
    }
    if SecurityCheckAsWritten(p, baseDir) && !InsideTarget(p, baseDir) {
      DisagreementIsSibling(p, baseDir);
    }
  }

  lemma SiblingFailsCorrectedCheck(p: string, baseDir: string)
    requires !EndsWith(baseDir, "/") && |p| > |baseDir| && p[..|baseDir|] == baseDir && p[|baseDir|] != '/'
    ensures SecurityCheckAsWritten(p, baseDir) && !InsideTarget(p, baseDir)
  {
    var sep := EditTool.RootWithSep(baseDir);
    assert sep == baseDir + "/";
    assert p[..|sep|][|baseDir|] != sep[|baseDir|];
  }

  lemma DisagreementIsSibling(p: string, baseDir: string)
    requires SecurityCheckAsWritten(p, baseDir) && !InsideTarget(p, baseDir)
    ensures !EndsWith(baseDir, "/") && |p| > |baseDir| && p[..|baseDir|] == baseDir && p[|baseDir|] != '/'
  {
    assert |p| > |baseDir| ==> p[..|baseDir| + 1] == p[..|baseDir|] + [p[|baseDir|]];
  }

  /**
   * When no entry glob returned is such a sibling, the corrected filter
   * reads and skips exactly what the check as written does.
   */
  lemma FilterAsWrittenWithoutSiblings(entries: seq<string>, baseDir: string, respectGitIgnore: bool, kept: seq<string>)
    requires forall p :: p in entries ==> (SecurityCheckAsWritten(p, baseDir) ==> InsideTarget(p, baseDir))
    ensures forall y ::
      (y in ConsideredFiles(entries, baseDir, respectGitIgnore, kept) <==>
         y in entries && SecurityCheckAsWritten(y, baseDir) && (!respectGitIgnore || y in kept))
    ensures forall k :: 0 <= k < |SecuritySkips(entries, baseDir)| ==>
      !SecurityCheckAsWritten(SecuritySkips(entries, baseDir)[k].path, baseDir)
  {
    forall p | InsideTarget(p, baseDir) ensures SecurityCheckAsWritten(p, baseDir) {
      if p != baseDir {
        assert p[..|baseDir|] == EditTool.RootWithSep(baseDir)[..|baseDir|];
      }
    }
  }

  function SecurityReason(baseDir: string, p: string): string {
    "安全检查：Glob 库返回的路径超出目标目录范围。基础目录：" + baseDir + "，文件路径：" + p
  }

  /** The single summary entry for the git-ignored files. */
  function GitIgnoredItem(count: nat): SkippedItem {
    SkippedItem(NatToString(count) + " 个文件", "被git忽略")
  }

  /** An entry is read when it is inside the target directory and not git-ignored. */
  predicate Accepted(p: string, baseDir: string, respectGitIgnore: bool, kept: seq<string>) {
    InsideTarget(p, baseDir) && (!respectGitIgnore || p in kept)
  }

  /**
   * `Array.from(filesToConsider).sort()` after the accepted entries were
   * added one by one to the set: strictly ascending, holding exactly the
   * accepted entries.
   */
  function ConsideredFiles(entries: seq<string>, baseDir: string, respectGitIgnore: bool,
                           kept: seq<string>): (r: seq<string>)
    ensures StrictlySorted(r)
    ensures forall y :: y in r <==> y in entries && Accepted(y, baseDir, respectGitIgnore, kept)
  {
    if entries == [] then []
    else
      var prev := ConsideredFiles(entries[..|entries| - 1], baseDir, respectGitIgnore, kept);
      var p := entries[|entries| - 1];
      assert forall y :: y in entries <==> y in entries[..|entries| - 1] || y == p by {
        assert entries == entries[..|entries| - 1] + [p];
      }
      if Accepted(p, baseDir, respectGitIgnore, kept) then Insert(prev, p) else prev
  }

  /** The order glob returned the entries in does not change which files are read, nor their order. */
  lemma GlobOrderIsIrrelevant(e1: seq<string>, e2: seq<string>, baseDir: string, respectGitIgnore: bool,
                              kept: seq<string>)
    requires forall y :: y in e1 <==> y in e2
    ensures ConsideredFiles(e1, baseDir, respectGitIgnore, kept) == ConsideredFiles(e2, baseDir, respectGitIgnore, kept)
  {
    SortedIsUnique(ConsideredFiles(e1, baseDir, respectGitIgnore, kept), ConsideredFiles(e2, baseDir, respectGitIgnore, kept));
  }

  /** One skipped item per entry outside the target directory, in glob's order. */
  function SecuritySkips(entries: seq<string>, baseDir: string): (r: seq<SkippedItem>)
    ensures |r| <= |entries|
    ensures forall k :: 0 <= k < |r| ==> r[k].path in entries && !InsideTarget(r[k].path, baseDir)
    ensures forall p :: p in entries && !InsideTarget(p, baseDir) ==> SkippedItem(p, SecurityReason(baseDir, p)) in r
  {
    if entries == [] then []
    else
      var p := entries[|entries| - 1];
      var prev := SecuritySkips(entries[..|entries| - 1], baseDir);
      if InsideTarget(p, baseDir) then prev else prev + [SkippedItem(p, SecurityReason(baseDir, p))]
  }

  /** How many entries inside the target directory the git-ignore filter removed. */
  function GitIgnoredCount(entries: seq<string>, baseDir: string, respectGitIgnore: bool, kept: seq<string>): (r: nat)
    ensures r <= |entries|
    ensures !respectGitIgnore ==> r == 0
  {
    if entries == [] then 0
    else
      var p := entries[|entries| - 1];
      GitIgnoredCount(entries[..|entries| - 1], baseDir, respectGitIgnore, kept)
      + (if InsideTarget(p, baseDir) && respectGitIgnore && p !in kept then 1 else 0)
  }

  /** The items skipped while collecting: the security skips, then one summary of the git-ignored files. */
  function CollectionSkips(entries: seq<string>, baseDir: string, respectGitIgnore: bool,
                           kept: seq<string>): seq<SkippedItem>
  {
    var n := GitIgnoredCount(entries, baseDir, respectGitIgnore, kept);
    SecuritySkips(entries, baseDir) + (if n > 0 then [GitIgnoredItem(n)] else [])
  }

  /**
   * The first loop of `execute`: `kept` is what the git-ignore filter let
   * through. It fills the set of files to read and the skipped items.
   */
  method CollectFiles(entries: seq<string>, baseDir: string, respectGitIgnore: bool, kept: seq<string>)
    returns (files: seq<string>, skippedFiles: seq<SkippedItem>)
    ensures files == ConsideredFiles(entries, baseDir, respectGitIgnore, kept)
    ensures skippedFiles == CollectionSkips(entries, baseDir, respectGitIgnore, kept)
  {
    files := [];
    skippedFiles := [];
    var gitIgnoredCount := 0;
    for i := 0 to |entries|
      invariant files == ConsideredFiles(entries[..i], baseDir, respectGitIgnore, kept)
      invariant skippedFiles == SecuritySkips(entries[..i], baseDir)
      invariant gitIgnoredCount == GitIgnoredCount(entries[..i], baseDir, respectGitIgnore, kept)
    {
      var absoluteFilePath := entries[i];
      assert entries[..i + 1][..i] == entries[..i];
      if !InsideTarget(absoluteFilePath, baseDir) {
        skippedFiles := skippedFiles + [SkippedItem(absoluteFilePath, SecurityReason(baseDir, absoluteFilePath))];
        continue;
      }
      if respectGitIgnore && absoluteFilePath !in kept {
        gitIgnoredCount := gitIgnoredCount + 1;
        continue;
      }
      files := Insert(files, absoluteFilePath);
    }
    assert entries[..|entries|] == entries;
    if gitIgnoredCount > 0 {
      skippedFiles := skippedFiles + [GitIgnoredItem(gitIgnoredCount)];
    }
  }

  // ---------------------------------------------------------------------
  // Reading each file
  // ---------------------------------------------------------------------

  /** What reading a file gave: text, a part for an image or PDF, or an error. */
  datatype ReadOutcome = ReadText(text: string) | ReadPart(part: Json) | ReadFailed(error: string)

  datatype ContentPart = TextPart(text: string) | InlinePart(part: Json)

  /** What one file contributes: a skipped item, or a content part and its relative path. */
  datatype FileStep = Skipped(item: SkippedItem) | Produced(part: ContentPart, relativePath: string)

  /** `path.relative(baseDir, p)` for a path inside the target directory. */
  function RelativePath(baseDir: string, p: string): string
    requires InsideTarget(p, baseDir)
  {
    if p == baseDir then "" else p[|EditTool.RootWithSep(baseDir)|..]
  }

  /** The index of the last `c` in `s`, or -1. */
  function LastIndexOf(s: string, c: char): (r: int)
    ensures -1 <= r < |s|
    ensures r >= 0 ==> s[r] == c
    ensures forall k :: r < k < |s| ==> s[k] != c
  {
    if s == [] then -1
    else if s[|s| - 1] == c then |s| - 1
    else LastIndexOf(s[..|s| - 1], c)
  }

  /** `path.basename(p)`: what follows the last separator. */
  function BaseName(p: string): (r: string)
    ensures '/' !in r
  {
    p[LastIndexOf(p, '/') + 1..]
  }

  /**
   * `path.extname(p)`: from the last dot of the base name, unless there is
   * none, it opens the name, or the name is `..`.
   */
  function ExtName(p: string): (r: string)
    ensures r == [] || r[0] == '.'
  {
    var base := BaseName(p);
    var dot := LastIndexOf(base, '.');
    if dot <= 0 || base == ".." then "" else base[dot..]
  }

  /** `path.basename(p, ext)`: the base name without `ext` when it ends with it. */
  function NameWithout(base: string, ext: string): string {
    if 0 < |ext| < |base| && EndsWith(base, ext) then base[..|base| - |ext|] else base
  }

  /**
   * An image or PDF is read only when some input pattern, lower-cased,
   * holds its lower-cased extension, or some pattern holds its name without
   * that extension.
   */
  predicate RequestedExplicitly(p: string, inputPatterns: seq<string>) {
    var ext := LowerAscii(ExtName(p));
    var name := NameWithout(BaseName(p), ext);
    exists j :: 0 <= j < |inputPatterns| && (Includes(LowerAscii(inputPatterns[j]), ext) || Includes(inputPatterns[j], name))
  }

  const MediaSkipReason := "资源文件（图片/PDF）未被明确按名称或扩展名请求"

  /**
   * `DEFAULT_OUTPUT_SEPARATOR_FORMAT.replace('{filePath}', rel)`: the path
   * is a replacement string, so its `$` patterns are expanded.
   */
  function Separator(rel: string): string {
    "--- " + EditTool.Substitution(rel, "{filePath}", "--- ", " ---") + " ---"
  }

  function TextPartFor(rel: string, text: string): ContentPart {
    TextPart(Separator(rel) + "\n\n" + text + "\n\n")
  }

  /** What the second loop of `execute` does with one file. */
  function Step(f: string, baseDir: string, inputPatterns: seq<string>, isMedia: string -> bool,
                read: string -> ReadOutcome): FileStep
    requires InsideTarget(f, baseDir)
  {
    var rel := RelativePath(baseDir, f);
    if isMedia(f) && !RequestedExplicitly(f, inputPatterns) then Skipped(SkippedItem(rel, MediaSkipReason))
    else
      match read(f)
      case ReadFailed(e) => Skipped(SkippedItem(rel, "读取错误：" + e))
      case ReadText(t) => Produced(TextPartFor(rel, t), rel)
      case ReadPart(part) => Produced(InlinePart(part), rel)
  }

  /** An image or PDF that was not asked for is skipped without being read. */
  lemma UnrequestedMediaIsNotRead(f: string, baseDir: string, inputPatterns: seq<string>, isMedia: string -> bool,
                                  read1: string -> ReadOutcome, read2: string -> ReadOutcome)
    requires InsideTarget(f, baseDir)
    requires isMedia(f) && !RequestedExplicitly(f, inputPatterns)
    ensures Step(f, baseDir, inputPatterns, isMedia, read1) == Step(f, baseDir, inputPatterns, isMedia, read2)
    ensures Step(f, baseDir, inputPatterns, isMedia, read1).Skipped?
  {
  }

  /** A text file read without error contributes its separator line, a blank line and its text. */
  lemma TextFileContribution(f: string, baseDir: string, inputPatterns: seq<string>, isMedia: string -> bool,
                             read: string -> ReadOutcome)
    requires InsideTarget(f, baseDir) && !isMedia(f) && read(f).ReadText?
    requires '$' !in RelativePath(baseDir, f)
    ensures var rel := RelativePath(baseDir, f);
      Step(f, baseDir, inputPatterns, isMedia, read)
        == Produced(TextPart("--- " + rel + " ---\n\n" + read(f).text + "\n\n"), rel)
  {
    var rel := RelativePath(baseDir, f);
    EditTool.PlainSubstitution(rel, "{filePath}", "--- ", " ---");
    assert Separator(rel) + "\n\n" + read(f).text + "\n\n" == "--- " + rel + " ---\n\n" + read(f).text + "\n\n";
  }

  /** Naming an image's extension in a pattern, in any case, selects it. */
  lemma ExtensionSelectsMedia(f: string, inputPatterns: seq<string>, j: nat)
    requires j < |inputPatterns| && Includes(LowerAscii(inputPatterns[j]), LowerAscii(ExtName(f)))
    ensures RequestedExplicitly(f, inputPatterns)
  {
  }

  /** Every file's step, in the sorted order. */
  function Steps(files: seq<string>, baseDir: string, inputPatterns: seq<string>, isMedia: string -> bool,
                 read: string -> ReadOutcome): (r: seq<FileStep>)
    requires forall i :: 0 <= i < |files| ==> InsideTarget(files[i], baseDir)
    ensures |r| == |files|
  {
    if files == [] then []
    else
      var n := |files| - 1;
      InsidePrefix(files, baseDir, n);
      Steps(files[..n], baseDir, inputPatterns, isMedia, read) + [Step(files[n], baseDir, inputPatterns, isMedia, read)]
  }

  lemma InsidePrefix(files: seq<string>, baseDir: string, n: nat)
    requires n <= |files| && forall i :: 0 <= i < |files| ==> InsideTarget(files[i], baseDir)
    ensures forall i :: 0 <= i < n ==> InsideTarget(files[..n][i], baseDir)
  {
    forall i | 0 <= i < n
      ensures InsideTarget(files[..n][i], baseDir)
    {
      assert files[..n][i] == files[i];
    }
  }

  function PartsOf(steps: seq<FileStep>): seq<ContentPart> {
    if steps == [] then []
    else
      var last := steps[|steps| - 1];
      PartsOf(steps[..|steps| - 1]) + (if last.Produced? then [last.part] else [])
  }

  function ProcessedOf(steps: seq<FileStep>): seq<string> {
    if steps == [] then []
    else
      var last := steps[|steps| - 1];
      ProcessedOf(steps[..|steps| - 1]) + (if last.Produced? then [last.relativePath] else [])
  }

  function SkipsOf(steps: seq<FileStep>): seq<SkippedItem> {
    if steps == [] then []
    else
      var last := steps[|steps| - 1];
      SkipsOf(steps[..|steps| - 1]) + (if last.Skipped? then [last.item] else [])
  }

  /**
   * Every file is either processed, with one content part, or skipped, with
   * one item.
   */
  lemma {:induction false} EveryFileIsAccountedFor(steps: seq<FileStep>)
    ensures |PartsOf(steps)| == |ProcessedOf(steps)|
    ensures |ProcessedOf(steps)| + |SkipsOf(steps)| == |steps|
  {
    if steps != [] {
      EveryFileIsAccountedFor(steps[..|steps| - 1]);
    }
  }

  /** One more file adds its step at the end. */
  lemma StepsExtend(files: seq<string>, i: nat, baseDir: string, inputPatterns: seq<string>, isMedia: string -> bool,
                    read: string -> ReadOutcome)
    requires i < |files|
    requires forall k :: 0 <= k < |files| ==> InsideTarget(files[k], baseDir)
    ensures Steps(files[..i + 1], baseDir, inputPatterns, isMedia, read)
      == Steps(files[..i], baseDir, inputPatterns, isMedia, read) + [Step(files[i], baseDir, inputPatterns, isMedia, read)]
  {
    assert files[..i + 1][..i] == files[..i];
    assert files[..i + 1][i] == files[i];
  }

  /** How one more step extends the three lists. */
  lemma OfExtend(steps: seq<FileStep>, st: FileStep)
    ensures PartsOf(steps + [st]) == PartsOf(steps) + (if st.Produced? then [st.part] else [])
    ensures ProcessedOf(steps + [st]) == ProcessedOf(steps) + (if st.Produced? then [st.relativePath] else [])
    ensures SkipsOf(steps + [st]) == SkipsOf(steps) + (if st.Skipped? then [st.item] else [])
  {
    assert (steps + [st])[..|steps|] == steps;
  }

  /** The second loop of `execute`: the content parts, the processed paths and the skipped items. */
  method ProcessFiles(files: seq<string>, baseDir: string, inputPatterns: seq<string>, isMedia: string -> bool,
                      read: string -> ReadOutcome)
    returns (contentParts: seq<ContentPart>, processed: seq<string>, skipped: seq<SkippedItem>)
    requires forall i :: 0 <= i < |files| ==> InsideTarget(files[i], baseDir)
    ensures contentParts == PartsOf(Steps(files, baseDir, inputPatterns, isMedia, read))
    ensures processed == ProcessedOf(Steps(files, baseDir, inputPatterns, isMedia, read))
    ensures skipped == SkipsOf(Steps(files, baseDir, inputPatterns, isMedia, read))
  {
    contentParts := [];
    processed := [];
    skipped := [];
    ghost var steps: seq<FileStep> := [];
    for i := 0 to |files|
      invariant steps == Steps(files[..i], baseDir, inputPatterns, isMedia, read)
      invariant contentParts == PartsOf(steps)
      invariant processed == ProcessedOf(steps)
      invariant skipped == SkipsOf(steps)
    {
      var filePath := files[i];
      ghost var st := Step(filePath, baseDir, inputPatterns, isMedia, read);
      StepsExtend(files, i, baseDir, inputPatterns, isMedia, read);
      OfExtend(steps, st);
      steps := steps + [st];
      var relativePathForDisplay := RelativePath(baseDir, filePath);
      if isMedia(filePath) {
        var requestedExplicitly := RequestedExplicitly(filePath, inputPatterns);
        if !requestedExplicitly {
          skipped := skipped + [SkippedItem(relativePathForDisplay, MediaSkipReason)];
          continue;
        }
      }
      var fileReadResult := read(filePath);
      if fileReadResult.ReadFailed? {
        skipped := skipped + [SkippedItem(relativePathForDisplay, "读取错误：" + fileReadResult.error)];
      } else {
        if fileReadResult.ReadText? {
          contentParts := contentParts + [TextPartFor(relativePathForDisplay, fileReadResult.text)];
        } else {
          contentParts := contentParts + [InlinePart(fileReadResult.part)];
        }
        processed := processed + [relativePathForDisplay];
      }
    }
    assert files[..|files|] == files;
  }

  // ---------------------------------------------------------------------
  // The summary shown to the user
  // ---------------------------------------------------------------------

  function Concat(pieces: seq<string>): string {
    if pieces == [] then "" else Concat(pieces[..|pieces| - 1]) + pieces[|pieces| - 1]
  }

  function DisplayHeader(targetDir: string): string {
    "### 批量读取文件结果（目标目录：`" + targetDir + "`）\n\n"
  }

  function ReadSummary(n: nat): string {
    "成功读取并合并了 **" + NatToString(n) + " 个文件** 的内容。\n"
  }

  const ProcessedHeading := "\n**已处理的文件：**\n"
  const ProcessedHeadingFirst10 := "\n**已处理的文件（显示前10个）：**\n"
  const NothingRead := "根据指定条件，没有文件被读取和合并。\n"

  function MoreFiles(n: nat): string {
    "- ...还有 " + NatToString(n) + " 个文件。\n"
  }

  function SkippedHeading(n: nat): string {
    if n <= 5 then "\n**跳过了 " + NatToString(n) + " 个项目：**\n"
    else "\n**跳过了 " + NatToString(n) + " 个项目（显示前5个）：**\n"
  }

  function MoreItems(n: nat): string {
    "- ...还有 " + NatToString(n) + " 个项目。\n"
  }

  /** The list line for a processed file. */
  function ProcessedLine(p: string): string {
    "- `" + p + "`\n"
  }

  /** The list line for a skipped item. */
  function SkippedLine(item: SkippedItem): string {
    "- `" + item.path + "`（原因：" + item.reason + "）\n"
  }

  function ProcessedLines(ps: seq<string>): (r: seq<string>)
    ensures |r| == |ps|
  {
    seq(|ps|, i requires 0 <= i < |ps| => ProcessedLine(ps[i]))
  }

  function SkippedLines(items: seq<SkippedItem>): (r: seq<string>)
    ensures |r| == |items|
  {
    seq(|items|, i requires 0 <= i < |items| => SkippedLine(items[i]))
  }

  /** The processed-files part of the summary: at most ten paths, then how many more. */
  function ProcessedSection(processed: seq<string>): seq<string> {
    if |processed| == 0 then []
    else if |processed| <= 10 then [ReadSummary(|processed|), ProcessedHeading] + ProcessedLines(processed)
    else [ReadSummary(|processed|), ProcessedHeadingFirst10] + ProcessedLines(processed[..10]) + [MoreFiles(|processed| - 10)]
  }

  /** The skipped-items part of the summary: at most five items, then how many more. */
  function SkippedSection(processedCount: nat, skipped: seq<SkippedItem>): seq<string> {
    if |skipped| > 0 then
      (if processedCount == 0 then [NothingRead] else [])
      + [SkippedHeading(|skipped|)] + SkippedLines(skipped[..Min(|skipped|, 5)])
      + (if |skipped| > 5 then [MoreItems(|skipped| - 5)] else [])
    else if processedCount == 0 then [NothingRead]
    else []
  }

  /** The pieces `displayMessage` is built from, in order. */
  function DisplayPieces(targetDir: string, processed: seq<string>, skipped: seq<SkippedItem>): seq<string> {
    [DisplayHeader(targetDir)] + ProcessedSection(processed) + SkippedSection(|processed|, skipped)
  }

  /** A list line naming a file or a skipped item (the "...还有" lines are not). */
  predicate IsListLine(piece: string) {
    StartsWith(piece, "- `")
  }

  function CountListLines(pieces: seq<string>): (r: nat)
    ensures r <= |pieces|
  {
    if pieces == [] then 0
    else CountListLines(pieces[..|pieces| - 1]) + (if IsListLine(pieces[|pieces| - 1]) then 1 else 0)
  }

  lemma {:induction false} CountListLinesAppend(a: seq<string>, b: seq<string>)
    ensures CountListLines(a + b) == CountListLines(a) + CountListLines(b)
    decreases |b|
  {
    if b == [] {
      assert a + b == a;
    } else {
      assert (a + b)[..|a + b| - 1] == a + b[..|b| - 1];
      CountListLinesAppend(a, b[..|b| - 1]);
    }
  }

  lemma {:induction false} AllListLines(pieces: seq<string>)
    requires forall i :: 0 <= i < |pieces| ==> IsListLine(pieces[i])
    ensures CountListLines(pieces) == |pieces|
    decreases |pieces|
  {
    if pieces != [] {
      AllListLines(pieces[..|pieces| - 1]);
    }
  }

  lemma NoListLines(pieces: seq<string>)
    requires forall i :: 0 <= i < |pieces| ==> !IsListLine(pieces[i])
    ensures CountListLines(pieces) == 0
  {
    if pieces != [] {
      NoListLines(pieces[..|pieces| - 1]);
    }
  }

  /** The headings and remainder lines are not list lines. */
  lemma FramingLines(targetDir: string, n: nat)
    ensures !IsListLine(DisplayHeader(targetDir)) && !IsListLine(ReadSummary(n))
    ensures !IsListLine(ProcessedHeading) && !IsListLine(ProcessedHeadingFirst10) && !IsListLine(NothingRead)
    ensures !IsListLine(MoreFiles(n)) && !IsListLine(SkippedHeading(n)) && !IsListLine(MoreItems(n))
  {
    assert DisplayHeader(targetDir)[0] == '#';
    assert ReadSummary(n)[0] == '成';
    assert MoreFiles(n)[2] == '.';
    assert MoreItems(n)[2] == '.';
    assert SkippedHeading(n)[0] == '\n';
  }

  lemma ProcessedLinesAreListLines(ps: seq<string>)
    ensures CountListLines(ProcessedLines(ps)) == |ps|
  {
    forall i | 0 <= i < |ps| ensures IsListLine(ProcessedLines(ps)[i]) {
      assert ProcessedLine(ps[i])[..3] == "- `";
    }
    AllListLines(ProcessedLines(ps));
  }

  lemma SkippedLinesAreListLines(items: seq<SkippedItem>)
    ensures CountListLines(SkippedLines(items)) == |items|
  {
    forall i | 0 <= i < |items| ensures IsListLine(SkippedLines(items)[i]) {
      assert SkippedLine(items[i])[..3] == "- `";
    }
    AllListLines(SkippedLines(items));
  }

  /** A section made of framing lines around a run of list lines counts that run. */
  lemma CountSection(head: seq<string>, items: seq<string>, tail: seq<string>)
    requires forall i :: 0 <= i < |head| ==> !IsListLine(head[i])
    requires forall i :: 0 <= i < |tail| ==> !IsListLine(tail[i])
    requires CountListLines(items) == |items|
    ensures CountListLines(head + items + tail) == |items|
  {
    NoListLines(head);
    NoListLines(tail);
    CountListLinesAppend(head + items, tail);
    CountListLinesAppend(head, items);
  }

  /** The processed-files part lists at most ten paths. */
  lemma ProcessedSectionCount(processed: seq<string>)
    ensures CountListLines(ProcessedSection(processed)) == Min(|processed|, 10)
  {
    var n := |processed|;
    if 0 < n <= 10 {
      ProcessedLinesAreListLines(processed);
      FramingLines("", n);
      CountSection([ReadSummary(n), ProcessedHeading], ProcessedLines(processed), []);
      assert [ReadSummary(n), ProcessedHeading] + ProcessedLines(processed) + [] == ProcessedSection(processed);
    } else if n > 10 {
      LongProcessedSectionCount(processed);
    }
  }

  lemma LongProcessedSectionCount(processed: seq<string>)
    requires |processed| > 10
    ensures CountListLines(ProcessedSection(processed)) == 10
  {
    var n := |processed|;
    ProcessedLinesAreListLines(processed[..10]);
    var head, tail := ProcessedFraming(n);
    CountSection(head, ProcessedLines(processed[..10]), tail);
  }

  /** The lines around the first ten processed files are not list lines. */
  lemma ProcessedFraming(n: nat) returns (head: seq<string>, tail: seq<string>)
    requires n > 10
    ensures head == [ReadSummary(n), ProcessedHeadingFirst10] && tail == [MoreFiles(n - 10)]
    ensures forall i :: 0 <= i < |head| ==> !IsListLine(head[i])
    ensures forall i :: 0 <= i < |tail| ==> !IsListLine(tail[i])
  {
    FramingLines("", n);
    FramingLines("", n - 10);
    head, tail := [ReadSummary(n), ProcessedHeadingFirst10], [MoreFiles(n - 10)];
  }

  /** The lines around the skipped items are not list lines. */
  lemma SkippedFraming(processedCount: nat, m: nat) returns (head: seq<string>, tail: seq<string>)
    ensures head == (if processedCount == 0 then [NothingRead] else []) + [SkippedHeading(m)]
    ensures tail == if m > 5 then [MoreItems(m - 5)] else []
    ensures forall i :: 0 <= i < |head| ==> !IsListLine(head[i])
    ensures forall i :: 0 <= i < |tail| ==> !IsListLine(tail[i])
  {
    FramingLines("", m);
    FramingLines("", if m > 5 then m - 5 else 0);
    head := (if processedCount == 0 then [NothingRead] else []) + [SkippedHeading(m)];
    tail := if m > 5 then [MoreItems(m - 5)] else [];
  }

  /** The skipped-items part lists at most five items. */
  lemma SkippedSectionCount(processedCount: nat, skipped: seq<SkippedItem>)
    ensures CountListLines(SkippedSection(processedCount, skipped)) == Min(|skipped|, 5)
  {
    var m := |skipped|;
    if m > 0 {
      var listed := skipped[..Min(m, 5)];
      SkippedLinesAreListLines(listed);
      var head, tail := SkippedFraming(processedCount, m);
      assert SkippedSection(processedCount, skipped) == head + SkippedLines(listed) + tail;
      CountSection(head, SkippedLines(listed), tail);
    } else {
      FramingLines("", 0);
      NoListLines(if processedCount == 0 then [NothingRead] else []);
    }
  }

  /** The summary names at most ten processed files and at most five skipped items. */
  lemma ListedAtMost(targetDir: string, processed: seq<string>, skipped: seq<SkippedItem>)
    ensures CountListLines(DisplayPieces(targetDir, processed, skipped)) == Min(|processed|, 10) + Min(|skipped|, 5)
  {
    var ps := ProcessedSection(processed);
    var ss := SkippedSection(|processed|, skipped);
    ProcessedSectionCount(processed);
    SkippedSectionCount(|processed|, skipped);
    FramingLines(targetDir, 0);
    NoListLines([DisplayHeader(targetDir)]);
    CountListLinesAppend([DisplayHeader(targetDir)] + ps, ss);
    CountListLinesAppend([DisplayHeader(targetDir)], ps);
  }

  /** With ten processed files or fewer, each one is listed; beyond that, the rest are counted. */
  lemma ProcessedAreListed(targetDir: string, processed: seq<string>, skipped: seq<SkippedItem>)
    ensures |processed| <= 10 ==>
      forall i :: 0 <= i < |processed| ==> ProcessedLine(processed[i]) in DisplayPieces(targetDir, processed, skipped)
    ensures |processed| > 10 ==> MoreFiles(|processed| - 10) in DisplayPieces(targetDir, processed, skipped)
  {
    var d := DisplayPieces(targetDir, processed, skipped);
    if 0 < |processed| <= 10 {
      forall i | 0 <= i < |processed| ensures ProcessedLine(processed[i]) in d {
        assert d[3 + i] == ProcessedLines(processed)[i];
      }
    } else if |processed| > 10 {
      assert d[13] == MoreFiles(|processed| - 10);
    }
  }

  lemma {:induction false} ConcatAppend(a: seq<string>, b: seq<string>)
    ensures Concat(a + b) == Concat(a) + Concat(b)
    decreases |b|
  {
    if b == [] {
      assert a + b == a;
    } else {
      var init, last := b[..|b| - 1], b[|b| - 1];
      assert (a + b)[..|a + b| - 1] == a + init && (a + b)[|a + b| - 1] == last;
      assert Concat(a + b) == Concat(a + init) + last;
      ConcatAppend(a, init);
      assert Concat(b) == Concat(init) + last;
    }
  }

  lemma ConcatPair(x: string, y: string)
    ensures Concat([x]) == x
    ensures Concat([x, y]) == x + y
  {
    assert [x, y][..1] == [x];
    assert [x][..0] == [];
  }

  /** Appends each list line in turn, as the `forEach` calls do. */
  method AppendLines(displayMessage: string, lines: seq<string>) returns (r: string)
    ensures r == displayMessage + Concat(lines)
  {
    r := displayMessage;
    for i := 0 to |lines|
      invariant r == displayMessage + Concat(lines[..i])
    {
      assert lines[..i + 1][..i] == lines[..i];
      r := r + lines[i];
    }
    assert lines[..|lines|] == lines;
  }

  /** The processed-files part of `displayMessage`. */
  method ProcessedText(processed: seq<string>) returns (text: string)
    ensures text == Concat(ProcessedSection(processed))
  {
    text := "";
    if |processed| > 0 {
      var n := |processed|;
      text := text + ReadSummary(n);
      var heading: string;
      var shown: seq<string>;
      if n <= 10 {
        heading := ProcessedHeading;
        shown := processed;
      } else {
        heading := ProcessedHeadingFirst10;
        shown := processed[..10];
      }
      text := text + heading;
      text := AppendLines(text, ProcessedLines(shown));
      var tail: seq<string> := [];
      if n > 10 {
        text := text + MoreFiles(n - 10);
        tail := [MoreFiles(n - 10)];
      }
      ConcatPair(ReadSummary(n), heading);
      if n > 10 {
        ConcatPair(MoreFiles(n - 10), "");
      }
      assert text == Concat([ReadSummary(n), heading]) + Concat(ProcessedLines(shown)) + Concat(tail);
      SectionConcat([ReadSummary(n), heading], ProcessedLines(shown), tail);
      assert ProcessedSection(processed) == [ReadSummary(n), heading] + ProcessedLines(shown) + tail;
    }
  }

  lemma SectionConcat(head: seq<string>, items: seq<string>, tail: seq<string>)
    ensures Concat(head + items + tail) == Concat(head) + Concat(items) + Concat(tail)
  {
    ConcatAppend(head + items, tail);
    ConcatAppend(head, items);
  }

  /** The skipped-items part of `displayMessage`. */
  method SkippedText(processedCount: nat, skipped: seq<SkippedItem>) returns (text: string)
    ensures text == Concat(SkippedSection(processedCount, skipped))
  {
    text := "";
    if |skipped| > 0 {
      var m := |skipped|;
      var head: seq<string> := [];
      if processedCount == 0 {
        text := text + NothingRead;
        head := [NothingRead];
        ConcatPair(NothingRead, "");
      }
      assert text == Concat(head);
      text := text + SkippedHeading(m);
      ConcatAppend(head, [SkippedHeading(m)]);
      ConcatPair(SkippedHeading(m), "");
      head := head + [SkippedHeading(m)];
      var listed := SkippedLines(skipped[..Min(m, 5)]);
      text := AppendLines(text, listed);
      var tail: seq<string> := [];
      if m > 5 {
        text := text + MoreItems(m - 5);
        tail := [MoreItems(m - 5)];
        ConcatPair(MoreItems(m - 5), "");
      }
      assert text == Concat(head) + Concat(listed) + Concat(tail);
      SectionConcat(head, listed, tail);
    } else if processedCount == 0 {
      text := text + NothingRead;
      ConcatPair(NothingRead, "");
    }
  }

  /**
   * `displayMessage` as the source appends to it: the header, the
   * processed files, the skipped items; the result is `DisplayPieces` joined.
   */
  method AssembleDisplay(targetDir: string, processed: seq<string>, skipped: seq<SkippedItem>)
    returns (displayMessage: string)
    ensures displayMessage == Concat(DisplayPieces(targetDir, processed, skipped))
  {
    displayMessage := DisplayHeader(targetDir);
    var processedPart := ProcessedText(processed);
    displayMessage := displayMessage + processedPart;
    var skippedPart := SkippedText(|processed|, skipped);
    displayMessage := displayMessage + skippedPart;
    ConcatAppend([DisplayHeader(targetDir)] + ProcessedSection(processed), SkippedSection(|processed|, skipped));
    ConcatAppend([DisplayHeader(targetDir)], ProcessedSection(processed));
    assert Concat([DisplayHeader(targetDir)]) == DisplayHeader(targetDir);
  }

  // ---------------------------------------------------------------------
  // execute
  // ---------------------------------------------------------------------

  /** What the tool gives the model: a message, or the content parts. */
  datatype LlmContent = Message(text: string) | Parts(parts: seq<ContentPart>)

  datatype ToolResult = ToolResult(llmContent: LlmContent, returnDisplay: string)

  /**
   * The services `execute` calls: the glob (search patterns and ignore
   * patterns to absolute paths, or the error it threw), the git-ignore
   * filter (the entries it keeps), file-type detection and file reading.
   */
  datatype Services = Services(
    glob: (seq<string>, seq<string>) -> Result<seq<string>>,
    gitFilter: seq<string> -> seq<string>,
    isMedia: string -> bool,
    read: string -> ReadOutcome)

  function InvalidParamsResult(e: ValidationError): ToolResult {
    ToolResult(Message("Error: Invalid parameters for " + DisplayName + ". Reason: " + ValidationMessage(e)),
               "## 参数错误\n\n" + ValidationMessage(e))
  }

  function NoSearchPathsResult(): ToolResult {
    ToolResult(Message("No search paths or include patterns provided."),
               "## 提示信息\n\n未指定搜索路径或包含模式，没有需要读取或合并的内容。")
  }

  function SearchErrorResult(error: string): ToolResult {
    ToolResult(Message("Error during file search: " + error),
               "## 文件搜索错误\n\n搜索文件时发生错误：\n```\n" + error + "\n```")
  }

  const NoFilesPlaceholder := "No files matching the criteria were found or all were skipped."

  /** The content parts, or the placeholder text when there are none. */
  function WithPlaceholder(parts: seq<ContentPart>): (r: seq<ContentPart>)
    ensures r != []
    ensures parts != [] ==> r == parts
    ensures parts == [] ==> r == [TextPart(NoFilesPlaceholder)]
  {
    if parts == [] then [TextPart(NoFilesPlaceholder)] else parts
  }

  /** The entries the git-ignore filter keeps, or all of them when it is not consulted. */
  function KeptEntries(entries: seq<string>, respectGitIgnore: bool, svc: Services): seq<string> {
    if respectGitIgnore then svc.gitFilter(entries) else entries
  }

  lemma ConsideredAreInside(files: seq<string>, entries: seq<string>, baseDir: string, respectGitIgnore: bool,
                            kept: seq<string>)
    requires files == ConsideredFiles(entries, baseDir, respectGitIgnore, kept)
    ensures forall i :: 0 <= i < |files| ==> InsideTarget(files[i], baseDir)
  {
    forall i | 0 <= i < |files| ensures InsideTarget(files[i], baseDir) {
      assert files[i] in files;
    }
  }

  /** What `execute` returns once the glob has answered with `entries`. */
  function ResultFor(req: Request, targetDir: string, entries: seq<string>, svc: Services): (r: ToolResult)
    ensures r.llmContent.Parts? && r.llmContent.parts != []
  {
    var files := ConsideredFiles(entries, targetDir, req.respectGitIgnore, KeptEntries(entries, req.respectGitIgnore, svc));
    ConsideredAreInside(files, entries, targetDir, req.respectGitIgnore, KeptEntries(entries, req.respectGitIgnore, svc));
    var steps := Steps(files, targetDir, req.paths, svc.isMedia, svc.read);
    var skipped := CollectionSkips(entries, targetDir, req.respectGitIgnore, KeptEntries(entries, req.respectGitIgnore, svc))
                   + SkipsOf(steps);
    ToolResult(Parts(WithPlaceholder(PartsOf(steps))),
               Trim(Concat(DisplayPieces(targetDir, ProcessedOf(steps), skipped))))
  }

  /**
   * `execute` as one function of the raw parameters, the schema verdict,
   * the target directory, the .geminiignore patterns, the context file name
   * and the services.
   */
  function ExecuteResult(raw: RawParams, schemaValid: bool, targetDir: string, ignorePatterns: seq<string>,
                         contextFilename: string, svc: Services): (r: ToolResult)
    ensures ValidateParams(raw, schemaValid).Some? ==> r == InvalidParamsResult(ValidateParams(raw, schemaValid).value)
    ensures r.llmContent.Parts? ==> r.llmContent.parts != []
  {
    match ValidateParams(raw, schemaValid)
    case Some(e) => InvalidParamsResult(e)
    case None =>
      var req := ToRequest(raw);
      var searchPatterns := req.paths + req.includePatterns;
      if |searchPatterns| == 0 then NoSearchPathsResult()
      else
        var excludes := EffectiveExcludes(req.useDefaultExcludes, req.excludePatterns, ignorePatterns, contextFilename);
        match svc.glob(searchPatterns, excludes)
        case Failure(error) => SearchErrorResult(error)
        case Success(entries) => ResultFor(req, targetDir, entries, svc)
  }

  /**
   * Valid parameters reach the glob with the paths and include patterns as
   * the search and the effective exclusions as its ignore list; a glob
   * failure is reported as a search error, and otherwise the content parts
   * are never empty.
   */
  lemma ValidParamsReachTheGlob(raw: RawParams, schemaValid: bool, targetDir: string, ignorePatterns: seq<string>,
                                contextFilename: string, svc: Services)
    requires ValidateParams(raw, schemaValid).None?
    ensures var req := ToRequest(raw);
      var outcome := svc.glob(req.paths + req.includePatterns,
                              EffectiveExcludes(req.useDefaultExcludes, req.excludePatterns, ignorePatterns, contextFilename));
      var r := ExecuteResult(raw, schemaValid, targetDir, ignorePatterns, contextFilename, svc);
      && (outcome.Failure? ==> r == SearchErrorResult(outcome.error))
      && (outcome.Success? ==> r.llmContent.Parts? && r.llmContent.parts != [])
  {
    ValidRequestHasPatterns(raw, schemaValid);
  }

  /**
   * The tool as the source runs it: validate, glob, collect, read each file
   * in sorted order, and summarise.
   */
  method Execute(raw: RawParams, schemaValid: bool, targetDir: string, ignorePatterns: seq<string>,
                 contextFilename: string, svc: Services)
    returns (r: ToolResult)
    ensures r == ExecuteResult(raw, schemaValid, targetDir, ignorePatterns, contextFilename, svc)
  {
    var validationError := ValidateParams(raw, schemaValid);
    if validationError.Some? {
      return InvalidParamsResult(validationError.value);
    }
    var req := ToRequest(raw);
    var effectiveExcludes := EffectiveExcludes(req.useDefaultExcludes, req.excludePatterns, ignorePatterns,
                                               contextFilename);
    var searchPatterns := req.paths + req.includePatterns;
    // Valid parameters always hold a search pattern, so the source's check
    // for an empty search is not reached.
    ValidRequestHasPatterns(raw, schemaValid);
    var globbed := svc.glob(searchPatterns, effectiveExcludes);
    if globbed.Failure? {
      return SearchErrorResult(globbed.error);
    }
    var entries := globbed.value;
    var filteredEntries := KeptEntries(entries, req.respectGitIgnore, svc);
    var sortedFiles, skippedFiles := CollectFiles(entries, targetDir, req.respectGitIgnore, filteredEntries);
    ConsideredAreInside(sortedFiles, entries, targetDir, req.respectGitIgnore, filteredEntries);
    var contentParts, processed, skippedReads := ProcessFiles(sortedFiles, targetDir, req.paths, svc.isMedia, svc.read);
    var displayMessage := AssembleDisplay(targetDir, processed, skippedFiles + skippedReads);
    if contentParts == [] {
      contentParts := [TextPart(NoFilesPlaceholder)];
    }
    r := ToolResult(Parts(contentParts), Trim(displayMessage));
  }
}
