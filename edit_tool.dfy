/**
 * The edit tool (edit.ts): where a file path may point, how an edit is
 * classified before anything is written, the text that replaces the old
 * content, the one-line description of an edit, and the parameters a user
 * modification produces.
 *
 * Paths are POSIX paths (`/` is the separator, absolute means a leading
 * `/`). `path.normalize`, the LLM-based `ensureCorrectEdit`, the schema
 * validator and the display helpers reach the model as parameters.
 */
module EditTool {
  import opened Wrappers
  import opened Text
  import opened Json

  const ReadFileToolName := "read_file"

  /** `EditToolParams`; `expectedReplacements` is `None` when not given. */
  datatype EditParams = EditParams(filePath: string, oldString: string, newString: string, expectedReplacements: Option<int>)

  // ---- isWithinRoot ----

  /** The root with exactly one trailing separator added when it has none. */
  function RootWithSep(root: string): (r: string)
    ensures EndsWith(r, "/")
    ensures StartsWith(r, root)
  {
    if EndsWith(root, "/") then root
    else
      assert (root + "/")[..|root|] == root;
      root + "/"
  }

  /** `isWithinRoot` on an already normalised path. */
  predicate IsWithinRoot(normalizedPath: string, root: string) {
    normalizedPath == root || StartsWith(normalizedPath, RootWithSep(root))
  }

  /** Every path below the root, and the root itself, is inside. */
  lemma ChildIsWithinRoot(root: string, rest: string)
    ensures IsWithinRoot(root, root)
    ensures IsWithinRoot(RootWithSep(root) + rest, root)
  {
    assert (RootWithSep(root) + rest)[..|RootWithSep(root)|] == RootWithSep(root);
  }

  /** A sibling that merely shares the root's name as a prefix (`/rootX` for `/root`) is outside. */
  lemma SiblingIsOutsideRoot(root: string, c: char, rest: string)
    requires root != [] && !EndsWith(root, "/") && c != '/'
    ensures !IsWithinRoot(root + [c] + rest, root)
  {
    var p := root + [c] + rest;
    assert |p| > |root|;
    assert p[..|root| + 1][|root|] == c;
    assert RootWithSep(root) == root + "/";
    assert (root + "/")[|root|] == '/';
  }

  // ---- validateToolParams ----

  const SchemaFailure := "Parameters failed schema validation."

  function NotAbsoluteError(filePath: string): string {
    "File path must be absolute: " + filePath
  }

  function OutsideRootError(root: string, filePath: string): string {
    "File path must be within the root directory (" + root + "): " + filePath
  }

  predicate IsAbsolute(p: string) {
    StartsWith(p, "/")
  }

  /**
   * `validateToolParams`: the first failing check — schema, then an absolute
   * path, then containment in the root — or `None`.
   */
  function ValidateToolParams(params: EditParams, root: string, schemaValid: bool, normalize: string -> string): (r: Option<string>)
    ensures !schemaValid ==> r == Some(SchemaFailure)
    ensures schemaValid && !IsAbsolute(params.filePath) ==> r == Some(NotAbsoluteError(params.filePath))
    ensures schemaValid && IsAbsolute(params.filePath) && !IsWithinRoot(normalize(params.filePath), root)
      ==> r == Some(OutsideRootError(root, params.filePath))
    ensures r.None? <==> schemaValid && IsAbsolute(params.filePath) && IsWithinRoot(normalize(params.filePath), root)
  {
    if !schemaValid then Some(SchemaFailure)
    else if !IsAbsolute(params.filePath) then Some(NotAbsoluteError(params.filePath))
    else if !IsWithinRoot(normalize(params.filePath), root) then Some(OutsideRootError(root, params.filePath))
    else None
  }

  // ---- replaceAll with a string replacement ----

  /**
   * The replacement text for one match, as `String.prototype.replaceAll`
   * builds it from a string (GetSubstitution, section 22.1.3.19.1 of
   * ECMA-262): `$$` is `$`, `$&` the match, `` $` `` the text before it,
   * `$'` the text after it; with no capture groups every other `$` stays.
   */
  function Substitution(rep: string, matched: string, before: string, after: string): string
    decreases |rep|
  {
    if |rep| >= 2 && rep[0] == '$' && rep[1] == '$' then "$" + Substitution(rep[2..], matched, before, after)
    else if |rep| >= 2 && rep[0] == '$' && rep[1] == '&' then matched + Substitution(rep[2..], matched, before, after)
    else if |rep| >= 2 && rep[0] == '$' && rep[1] == '`' then before + Substitution(rep[2..], matched, before, after)
    else if |rep| >= 2 && rep[0] == '$' && rep[1] == '\'' then after + Substitution(rep[2..], matched, before, after)
    else if rep == [] then []
    else [rep[0]] + Substitution(rep[1..], matched, before, after)
  }

  /** A replacement without `$` is used literally. */
  lemma {:induction false} PlainSubstitution(rep: string, matched: string, before: string, after: string)
    requires '$' !in rep
    ensures Substitution(rep, matched, before, after) == rep
    decreases |rep|
  {
    if rep != [] {
      assert rep[0] != '$';
      assert '$' !in rep[1..];
      PlainSubstitution(rep[1..], matched, before, after);
      assert [rep[0]] + rep[1..] == rep;
    }
  }

  /**
   * `s.replaceAll(pat, rep)` on the rest `s` of a string whose first part
   * `done` has already been scanned: matches are found left to right
   * without overlap, and each is replaced by its substitution.
   */
  function ReplaceAllFrom(s: string, pat: string, rep: string, done: string): string
    requires pat != []
    decreases |s|
  {
    if |s| < |pat| then s
    else if s[..|pat|] == pat then
      Substitution(rep, pat, done, s[|pat|..]) + ReplaceAllFrom(s[|pat|..], pat, rep, done + pat)
    else [s[0]] + ReplaceAllFrom(s[1..], pat, rep, done + [s[0]])
  }

  /** JavaScript's `s.replaceAll(pat, rep)` with a string pattern and a string replacement. */
  function ReplaceAllJs(s: string, pat: string, rep: string): string
    requires pat != []
  {
    ReplaceAllFrom(s, pat, rep, "")
  }

  /** Without `$` in the replacement, JavaScript's `replaceAll` is the literal replacement. */
  lemma {:induction false} ReplaceAllJsIsLiteralWithoutDollar(s: string, pat: string, rep: string, done: string)
    requires pat != [] && '$' !in rep
    ensures ReplaceAllFrom(s, pat, rep, done) == ReplaceAll(s, pat, rep)
    decreases |s|
  {
    if |s| >= |pat| {
      if s[..|pat|] == pat {
        PlainSubstitution(rep, pat, done, s[|pat|..]);
        ReplaceAllJsIsLiteralWithoutDollar(s[|pat|..], pat, rep, done + pat);
      } else {
        ReplaceAllJsIsLiteralWithoutDollar(s[1..], pat, rep, done + [s[0]]);
      }
    }
  }

  // ---- _applyReplacement ----

  /**
   * `_applyReplacement` as written: the replacement goes through
   * `replaceAll`, so `$` sequences in the new text are interpreted.
   */
  function ApplyReplacementAsWritten(currentContent: Option<string>, oldString: string, newString: string, isNewFile: bool): string {
    if isNewFile then newString
    else if currentContent.None? then (if oldString == "" then newString else "")
    else if oldString == "" then currentContent.value
    else ReplaceAllJs(currentContent.value, oldString, newString)
  }

  /** The new text `"$$"` comes out as a single `$`, so the file does not receive the text it was given. */
  lemma DollarInNewStringIsInterpreted()
    ensures ApplyReplacementAsWritten(Some("a"), "a", "$$", false) == "$"
    ensures ApplyReplacement(Some("a"), "a", "$$", false) == "$$"
  {
    var s := "a";
    assert s[..1] == "a" && s[1..] == "";
    assert "$$"[2..] == "";
    assert Substitution("$$", "a", "", "") == "$" + Substitution("", "a", "", "");
    assert ReplaceAllFrom(s, "a", "$$", "") == Substitution("$$", "a", "", "") + ReplaceAllFrom("", "a", "$$", "a");
    assert ReplaceAll(s, "a", "$$") == "$$" + ReplaceAll("", "a", "$$");
  }

  /**
   * `_applyReplacement` with the new text taken literally: a new file is
   * the new text; missing content is the new text only for an empty old
   * text; an empty old text changes nothing; otherwise every
   * non-overlapping occurrence is replaced.
   */
  function ApplyReplacement(currentContent: Option<string>, oldString: string, newString: string, isNewFile: bool): (r: string)
    ensures isNewFile ==> r == newString
    ensures !isNewFile && currentContent.Some? && oldString == "" ==> r == currentContent.value
    ensures !isNewFile && currentContent.None? ==> r == (if oldString == "" then newString else "")
  {
    if isNewFile then newString
    else if currentContent.None? then (if oldString == "" then newString else "")
    else if oldString == "" then currentContent.value
    else ReplaceAll(currentContent.value, oldString, newString)
  }

  /**
   * Replacing in existing content: the length changes by the occurrence
   * count times the length difference; no occurrence, or equal old and new
   * text, leaves the content as it was.
   */
  lemma ReplacementFacts(content: string, oldString: string, newString: string)
    requires oldString != ""
    ensures var r := ApplyReplacement(Some(content), oldString, newString, false);
      && |r| == |content| + CountOccurrences(content, oldString) * (|newString| - |oldString|)
      && (CountOccurrences(content, oldString) == 0 ==> r == content)
      && (newString == oldString ==> r == content)
  {
    ReplaceAllLength(content, oldString, newString);
    if CountOccurrences(content, oldString) == 0 {
      ReplaceAllNoOccurrence(content, oldString, newString);
    }
    ReplaceAllIdentity(content, oldString);
  }

  /** The two readings agree whenever the new text holds no `$`. */
  lemma AsWrittenAgreesWithoutDollar(currentContent: Option<string>, oldString: string, newString: string, isNewFile: bool)
    requires '$' !in newString
    ensures ApplyReplacementAsWritten(currentContent, oldString, newString, isNewFile)
      == ApplyReplacement(currentContent, oldString, newString, isNewFile)
  {
    if !isNewFile && currentContent.Some? && oldString != "" {
      ReplaceAllJsIsLiteralWithoutDollar(currentContent.value, oldString, newString, "");
    }
  }

  // ---- calculateEdit ----

  /** `content.replace(/\r\n/g, '\n')`. */
  function NormalizeLineEndings(content: string): (r: string)
    ensures |r| == |content| - CountOccurrences(content, "\r\n")
  {
    ReplaceAllLength(content, "\r\n", "\n");
    ReplaceAll(content, "\r\n", "\n")
  }

  /** Content with no CRLF pair is already normalised. */
  lemma LfContentIsUnchanged(content: string)
    requires CountOccurrences(content, "\r\n") == 0
    ensures NormalizeLineEndings(content) == content
  {
    ReplaceAllNoOccurrence(content, "\r\n", "\n");
  }

  /** What reading the file gave: its text, "no such file", or another failure (rethrown). */
  datatype FileRead = Found(text: string) | NotFound | ReadFailed(message: string)

  /** What `ensureCorrectEdit` settles on: the strings to use and how often the old one occurs. */
  datatype CorrectedEdit = CorrectedEdit(oldString: string, newString: string, occurrences: nat)

  /** The ways `calculateEdit` can refuse an edit. */
  datatype EditFailure = FileNotFound | FileAlreadyExists | NoOccurrence | OccurrenceMismatch(expected: int, found: nat)

  /** `CalculatedEdit`; the error is recorded by its kind, its texts are `ErrorTexts`. */
  datatype CalculatedEdit = CalculatedEdit(
    currentContent: Option<string>,
    newContent: string,
    occurrences: nat,
    error: Option<EditFailure>,
    isNewFile: bool)

  /** An edit error, as shown to the user and as reported to the model. */
  datatype EditError = EditError(display: string, raw: string)

  /** The two texts of each refusal. */
  function ErrorTexts(failure: EditFailure, filePath: string): EditError {
    match failure
    case FileNotFound =>
      EditError("文件未找到。无法应用编辑。使用空的 old_string 创建新文件。", "File not found: " + filePath)
    case FileAlreadyExists =>
      EditError("编辑失败。尝试创建已存在的文件。", "File already exists, cannot create: " + filePath)
    case NoOccurrence =>
      EditError("编辑失败，找不到要替换的字符串。",
        "Failed to edit, 0 occurrences found for old_string in " + filePath
        + ". No edits made. The exact text in old_string was not found. Ensure you're not escaping content incorrectly and check whitespace, indentation, and context. Use "
        + ReadFileToolName + " tool to verify.")
    case OccurrenceMismatch(expected, found) =>
      EditError("编辑失败，期望 " + IntToString(expected) + " 次匹配但找到 " + NatToString(found) + " 次。",
        "Failed to edit, Expected " + IntToString(expected) + " occurrences but found " + NatToString(found)
        + " for old_string in file: " + filePath)
  }

  /** The error an edit of an existing file meets: creation over it, no occurrence, or the wrong count. */
  function ExistingFileError(params: EditParams, occurrences: nat): Option<EditFailure> {
    var expected := params.expectedReplacements.GetOr(1);
    if params.oldString == "" then Some(FileAlreadyExists)
    else if occurrences == 0 then Some(NoOccurrence)
    else if occurrences != expected then Some(OccurrenceMismatch(expected, occurrences))
    else None
  }

  /**
   * What `calculateEdit` yields: `read` is the result of reading the file and
   * `correct` stands for `ensureCorrectEdit`, which sees the normalised
   * content. A read failure other than a missing file is the error thrown.
   */
  function EditOf(params: EditParams, read: FileRead, correct: (string, EditParams) -> CorrectedEdit): Result<CalculatedEdit> {
    match read
    case ReadFailed(message) => Failure(message)
    case NotFound =>
      if params.oldString == "" then Success(CalculatedEdit(None, params.newString, 0, None, true))
      else Success(CalculatedEdit(None, "", 0, Some(FileNotFound), false))
    case Found(text) =>
      var content := NormalizeLineEndings(text);
      var c := correct(content, params);
      Success(CalculatedEdit(Some(content), ApplyReplacement(Some(content), c.oldString, c.newString, false),
        c.occurrences, ExistingFileError(params, c.occurrences), false))
  }

  /**
   * The edit computed with the literal replacement is the one the code as
   * written computes whenever the corrected new text holds no `$`.
   */
  lemma EditOfAgreesAsWritten(params: EditParams, text: string, correct: (string, EditParams) -> CorrectedEdit)
    requires '$' !in correct(NormalizeLineEndings(text), params).newString
    ensures var content := NormalizeLineEndings(text); var c := correct(content, params);
      EditOf(params, Found(text), correct).value.newContent
        == ApplyReplacementAsWritten(Some(content), c.oldString, c.newString, false)
  {
    var content := NormalizeLineEndings(text);
    var c := correct(content, params);
    AsWrittenAgreesWithoutDollar(Some(content), c.oldString, c.newString, false);
  }

  /** `calculateEdit`, its locals set branch by branch. */
  method CalculateEdit(params: EditParams, read: FileRead, correct: (string, EditParams) -> CorrectedEdit)
    returns (r: Result<CalculatedEdit>)
    ensures r == EditOf(params, read, correct)
  {
    var expectedReplacements := params.expectedReplacements.GetOr(1);
    var currentContent: Option<string> := None;
    var fileExists := false;
    var isNewFile := false;
    var finalNewString := params.newString;
    var finalOldString := params.oldString;
    var occurrences: nat := 0;
    var error: Option<EditFailure> := None;

    match read {
      case ReadFailed(message) =>
        return Failure(message);
      case NotFound =>
        fileExists := false;
      case Found(text) =>
        currentContent := Some(NormalizeLineEndings(text));
        fileExists := true;
    }
    assert fileExists <==> read.Found?;
    assert read.Found? ==> currentContent == Some(NormalizeLineEndings(read.text));
    assert read.NotFound? ==> currentContent.None?;

    if params.oldString == "" && !fileExists {
      isNewFile := true;
    } else if !fileExists {
      error := Some(FileNotFound);
    } else if currentContent.Some? {
      var corrected := correct(currentContent.value, params);
      finalOldString := corrected.oldString;
      finalNewString := corrected.newString;
      occurrences := corrected.occurrences;
      if params.oldString == "" {
        error := Some(FileAlreadyExists);
      } else if occurrences == 0 {
        error := Some(NoOccurrence);
      } else if occurrences != expectedReplacements {
        error := Some(OccurrenceMismatch(expectedReplacements, occurrences));
      }
      assert error == ExistingFileError(params, occurrences);
    }

    var newContent := ApplyReplacement(currentContent, finalOldString, finalNewString, isNewFile);
    return Success(CalculatedEdit(currentContent, newContent, occurrences, error, isNewFile));
  }

  /**
   * The classification: a missing file with an empty old text is a new file
   * holding the new text; a missing file otherwise is "not found"; an
   * existing file with an empty old text "already exists"; zero
   * occurrences, or a count other than the expected one (default 1), is an
   * error; anything else is an error-free edit of the normalised content.
   */
  lemma EditClassification(params: EditParams, read: FileRead, correct: (string, EditParams) -> CorrectedEdit)
    ensures var r := EditOf(params, read, correct);
      && (read.ReadFailed? <==> r.Failure?)
      && (read.NotFound? && params.oldString == "" ==> r.value.isNewFile && r.value.error.None? && r.value.newContent == params.newString)
      && (read.NotFound? && params.oldString != "" ==> !r.value.isNewFile && r.value.error == Some(FileNotFound))
      && (read.Found? ==> !r.value.isNewFile && r.value.currentContent == Some(NormalizeLineEndings(read.text)))
      && (read.Found? && params.oldString == "" ==> r.value.error == Some(FileAlreadyExists))
      && (read.Found? && params.oldString != "" && r.value.occurrences == 0 ==> r.value.error == Some(NoOccurrence))
      && (read.Found? && params.oldString != "" && r.value.occurrences != 0 && r.value.occurrences != params.expectedReplacements.GetOr(1)
          ==> r.value.error == Some(OccurrenceMismatch(params.expectedReplacements.GetOr(1), r.value.occurrences)))
  {
  }

  /** An edit is error-free exactly when it creates a missing file or finds the expected number of occurrences. */
  lemma ErrorFreeEdits(params: EditParams, read: FileRead, correct: (string, EditParams) -> CorrectedEdit)
    requires EditOf(params, read, correct).Success?
    ensures EditOf(params, read, correct).value.error.None?
      <==> || (read.NotFound? && params.oldString == "")
           || (read.Found? && params.oldString != ""
               && EditOf(params, read, correct).value.occurrences != 0
               && EditOf(params, read, correct).value.occurrences == params.expectedReplacements.GetOr(1))
  {
  }

  // ---- getDescription ----

  const InvalidParamsDescription := "模型未提供编辑工具的有效参数"

  /** The first line of `s`, cut to 30 characters, with `...` when the whole of `s` is longer than 30. */
  function Snippet(s: string): (r: string)
    ensures |r| <= 33
    ensures |s| > 30 ==> EndsWith(r, "...")
  {
    var line := Split(s, '\n')[0];
    var cut := line[..if |line| < 30 then |line| else 30];
    var r := cut + (if |s| > 30 then "..." else "");
    r
  }

  /** A single-line text is its own snippet when short, and its first 30 characters and `...` when not. */
  lemma SingleLineSnippet(s: string)
    requires '\n' !in s
    ensures |s| <= 30 ==> Snippet(s) == s
    ensures |s| > 30 ==> Snippet(s) == s[..30] + "..."
  {
    SplitFirst(s, '\n');
  }

  /**
   * `getDescription`; `shownPath` is the shortened path relative to the
   * root. Any missing string gives the invalid-parameters text.
   */
  function GetDescription(params: EditParams, shownPath: string): (r: string)
    ensures params.filePath == "" || params.oldString == "" || params.newString == "" ==> r == InvalidParamsDescription
    ensures params.filePath != "" && params.oldString != "" && params.newString != "" && params.oldString == params.newString
      ==> r == shownPath + " 无文件更改"
    ensures params.filePath != "" && params.oldString != "" && params.newString != "" && params.oldString != params.newString
      ==> r == shownPath + "：" + Snippet(params.oldString) + " => " + Snippet(params.newString)
  {
    if params.filePath == "" || params.oldString == "" || params.newString == "" then InvalidParamsDescription
    else if params.oldString == "" then "创建 " + shownPath
    else if params.oldString == params.newString then shownPath + " 无文件更改"
    else shownPath + "：" + Snippet(params.oldString) + " => " + Snippet(params.newString)
  }

  /** The create description is unreachable: an empty old text is caught by the first check. */
  lemma CreateDescriptionIsUnreachable(params: EditParams, shownPath: string)
    ensures GetDescription(params, shownPath) != "创建 " + shownPath
  {
    var r := GetDescription(params, shownPath);
    if params.filePath == "" || params.oldString == "" || params.newString == "" {
      assert r[0] != ("创建 " + shownPath)[0];
    } else {
      assert |r| > |shownPath| + 3;
    }
  }

  // ---- createUpdatedParams ----

  /** `createUpdatedParams`: the user's versions become old and new text; path and count are kept. */
  function CreateUpdatedParams(oldContent: string, modifiedProposedContent: string, originalParams: EditParams): (r: EditParams)
    ensures r.oldString == oldContent && r.newString == modifiedProposedContent
    ensures r.filePath == originalParams.filePath && r.expectedReplacements == originalParams.expectedReplacements
  {
    originalParams.(oldString := oldContent, newString := modifiedProposedContent)
  }

  /** Updating twice is updating once with the second pair: nothing of the first survives. */
  lemma UpdatedParamsCompose(a: string, b: string, c: string, d: string, p: EditParams)
    ensures CreateUpdatedParams(c, d, CreateUpdatedParams(a, b, p)) == CreateUpdatedParams(c, d, p)
    ensures CreateUpdatedParams(p.oldString, p.newString, p) == p
  {
  }
}
