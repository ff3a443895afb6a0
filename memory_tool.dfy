/**
 * The memory tool (memoryTool.ts): the configured context-file names, and
 * how a remembered fact is added as a list item under the
 * "## Gemini Added Memories" section of the global context file.
 *
 * The file system reaches the model as what reading, creating the directory
 * and writing returned; the home directory and path joining are left out.
 */
module MemoryTool {
  import opened Wrappers
  import opened Text
  import opened Json

  const MemorySectionHeader := "## Gemini Added Memories"
  const DefaultContextFilename := "GEMINI.md"
  /** The marker that begins the next second-level section. */
  const NextSectionMarker := "\n## "
  const AddEntryFailure := "[MemoryTool] Failed to add memory entry: "

  // ---------------------------------------------------------------------
  // Configured context-file names
  // ---------------------------------------------------------------------

  /** The `string | string[]` a caller configures. */
  datatype FilenameSetting = Single(name: string) | Many(names: seq<string>)

  function TrimAll(names: seq<string>): (r: seq<string>)
    ensures |r| == |names|
    ensures forall i :: 0 <= i < |r| ==> r[i] == Trim(names[i])
  {
    if names == [] then [] else [Trim(names[0])] + TrimAll(names[1..])
  }

  /**
   * The setting after `setGeminiMdFilename(input)`: a non-empty list is
   * stored with each name trimmed, a non-blank name is stored trimmed, and
   * anything else leaves the setting as it was.
   */
  function UpdatedSetting(current: FilenameSetting, input: FilenameSetting): (r: FilenameSetting)
    ensures input.Many? && input.names != [] ==> r == Many(TrimAll(input.names))
    ensures input.Single? && Trim(input.name) != "" ==> r == Single(Trim(input.name))
    ensures input == Many([]) || (input.Single? && Trim(input.name) == "") ==> r == current
  {
    match input
    case Many(names) => if |names| > 0 then Many(TrimAll(names)) else current
    case Single(name) => if name != "" && Trim(name) != "" then Single(Trim(name)) else current
  }

  /** The module-level filename setting. */
  class ContextFilenames {
    var current: FilenameSetting

    /** A stored list is never empty, so there is always a current name. */
    ghost predicate Valid()
      reads this
    {
      current.Many? ==> current.names != []
    }

    constructor()
      ensures Valid()
      ensures current == Single(DefaultContextFilename)
    {
      current := Single(DefaultContextFilename);
    }

    /** `setGeminiMdFilename`. */
    method SetGeminiMdFilename(input: FilenameSetting)
      requires Valid()
      modifies this
      ensures Valid()
      ensures current == UpdatedSetting(old(current), input)
      ensures input.Single? && Trim(input.name) != "" ==> GetAllGeminiMdFilenames() == [Trim(input.name)]
      ensures input.Many? && input.names != [] ==> GetAllGeminiMdFilenames() == TrimAll(input.names)
      ensures input.Many? && input.names != [] ==> GetCurrentGeminiMdFilename() == Trim(input.names[0])
    {
      match input {
        case Many(names) =>
          if |names| > 0 {
            current := Many(TrimAll(names));
          }
        case Single(name) =>
          if name != "" && Trim(name) != "" {
            current := Single(Trim(name));
          }
      }
    }

    /** `getAllGeminiMdFilenames`: the stored list, or the single name as a one-element list. */
    function GetAllGeminiMdFilenames(): (r: seq<string>)
      requires Valid()
      reads this
      ensures |r| >= 1
      ensures current.Single? ==> r == [current.name]
      ensures current.Many? ==> r == current.names
    {
      match current
      case Single(name) => [name]
      case Many(names) => names
    }

    /** `getCurrentGeminiMdFilename`: the first of the configured names. */
    function GetCurrentGeminiMdFilename(): (r: string)
      requires Valid()
      reads this
      ensures r == GetAllGeminiMdFilenames()[0]
    {
      match current
      case Single(name) => name
      case Many(names) => names[0]
    }
  }

  // ---------------------------------------------------------------------
  // The memory item
  // ---------------------------------------------------------------------

  /** Drops the longest prefix made of hyphens and whitespace. */
  function DropMarkerRun(s: string): (r: string)
    ensures |r| <= |s| && r == s[|s| - |r|..]
    ensures r == [] || (r[0] != '-' && !IsWhitespace(r[0]))
  {
    if s != [] && (s[0] == '-' || IsWhitespace(s[0])) then DropMarkerRun(s[1..]) else s
  }

  /**
   * `s.replace(/^(-+\s*)+/, '')`: the pattern matches exactly a leading run
   * of hyphens and whitespace that begins with a hyphen (`\s` is the same
   * set of characters `trim` removes).
   */
  function StripListMarkers(s: string): (r: string)
    ensures s != [] && s[0] == '-' ==> r == [] || (r[0] != '-' && !IsWhitespace(r[0]))
    ensures (s == [] || s[0] != '-') ==> r == s
  {
    if s != [] && s[0] == '-' then DropMarkerRun(s) else s
  }

  /** The fact as written into the list: trimmed, without leading list markers. */
  function MemoryText(fact: string): (r: string)
    ensures r == [] || (r[0] != '-' && !IsWhitespace(r[0]) && !IsWhitespace(r[|r| - 1]))
  {
    var t := StripListMarkers(Trim(fact));
    assert t != [] ==> TrimStart(t) == t;
    Trim(t)
  }

  /** The list line added for a fact. */
  function NewMemoryItem(fact: string): (r: string)
    ensures StartsWith(r, "- ") && |r| >= 2
    ensures |r| > 2 ==> r[2] != '-' && !IsWhitespace(r[2]) && !IsWhitespace(r[|r| - 1])
  {
    "- " + MemoryText(fact)
  }

  /** Hyphens and whitespace ahead of a string are dropped with its own marker run. */
  lemma {:induction false} DropMarkerRunSkipsWhitespace(w: string, x: string)
    requires forall i :: 0 <= i < |w| ==> w[i] == '-' || IsWhitespace(w[i])
    ensures DropMarkerRun(w + x) == DropMarkerRun(x)
    decreases |w|
  {
    if w == [] {
      assert w + x == x;
    } else {
      assert (w + x)[0] == w[0];
      assert (w + x)[1..] == w[1..] + x;
      DropMarkerRunSkipsWhitespace(w[1..], x);
    }
  }

  /** A blank tail disappears under `trimEnd`. */
  lemma {:induction false} BlankTailIsTrimmed(a: string, b: string)
    requires forall i :: 0 <= i < |b| ==> IsWhitespace(b[i])
    ensures TrimEnd(a + b) == TrimEnd(a)
    decreases |b|
  {
    if b != [] {
      assert (a + b)[..|a + b| - 1] == a + b[..|b| - 1];
      BlankTailIsTrimmed(a, b[..|b| - 1]);
    } else {
      assert a + b == a;
    }
  }

  /**
   * Writing a fact as an item and reading the item back as a fact gives the
   * same item: the added "- " is taken as a list marker and stripped.
   */
  lemma {:induction false} ItemTextIsStable(fact: string)
    ensures MemoryText("- " + fact) == MemoryText(fact)
  {
    if Trim(fact) == [] {
      BlankFactText(fact);
    } else {
      SolidFactText(fact);
    }
  }

  /** A blank fact leaves an empty text, with or without a marker in front. */
  lemma BlankFactText(fact: string)
    requires Trim(fact) == []
    ensures MemoryText("- " + fact) == MemoryText(fact) == []
  {
    TrimSlice(fact);
    var f := "- " + fact;
    assert TrimStart(f) == f;
    assert f == "-" + (" " + fact);
    BlankTailIsTrimmed("-", " " + fact);
    assert TrimEnd("-") == "-";
  }

  /** Trimming a marked fact keeps the marker, the fact's leading whitespace and the trimmed fact. */
  lemma MarkedTrim(fact: string) returns (w: string)
    requires Trim(fact) != []
    ensures forall i :: 0 <= i < |w| ==> IsWhitespace(w[i])
    ensures Trim("- " + fact) == "- " + w + Trim(fact)
  {
    var f := "- " + fact;
    assert TrimStart(f) == f;
    TrimStartSlice(fact);
    var ts := TrimStart(fact);
    w := fact[..|fact| - |ts|];
    assert fact == w + ts;
    assert TrimEnd(ts) == Trim(fact);
    TrimEndAppend(w, ts);
    TrimEndAppend("- ", fact);
  }

  /** A marker in front of a non-blank fact is stripped with the fact's own markers. */
  lemma SolidFactText(fact: string)
    requires Trim(fact) != []
    ensures MemoryText("- " + fact) == MemoryText(fact)
  {
    var w := MarkedTrim(fact);
    var p := "- " + w;
    var t := Trim(fact);
    assert forall i :: 0 <= i < |p| ==> p[i] == '-' || IsWhitespace(p[i]);
    assert (p + t)[0] == '-';
    DropMarkerRunSkipsWhitespace(p, t);
    assert StripListMarkers(Trim("- " + fact)) == DropMarkerRun(t);
  }

  /** Adding an item's own line as a fact adds the same line again. */
  lemma ItemIsStable(fact: string)
    ensures NewMemoryItem(NewMemoryItem(fact)) == NewMemoryItem(fact)
  {
    var m := MemoryText(fact);
    ItemTextIsStable(m);
    TrimOfTrimmed(m);
    assert StripListMarkers(m) == m;
  }

  // ---------------------------------------------------------------------
  // Adding an entry to the file's content
  // ---------------------------------------------------------------------

  /** `ensureNewlineSeparation`: the separator placed before a new section. */
  function NewlineSeparation(content: string): (r: string)
    ensures content == "" ==> r == ""
    ensures r == "" || r == "\n" || r == "\n\n"
  {
    if |content| == 0 then ""
    else if EndsWith(content, "\n\n") || EndsWith(content, "\r\n\r\n") then ""
    else if EndsWith(content, "\n") || EndsWith(content, "\r\n") then "\n"
    else "\n\n"
  }

  /** After the separator, non-empty content always ends in a blank line. */
  lemma SeparationEndsInBlankLine(content: string)
    requires content != ""
    ensures var s := content + NewlineSeparation(content);
      EndsWith(s, "\n\n") || EndsWith(s, "\r\n\r\n")
  {
    if EndsWith(content, "\n\n") || EndsWith(content, "\r\n\r\n") {
      assert content + NewlineSeparation(content) == content;
    } else if EndsWith(content, "\n") || EndsWith(content, "\r\n") {
      LineBreakThenNewline(content);
    } else {
      BlankLineAppended(content);
    }
  }

  /** Text ending in a line break, then one more newline, ends in a blank line. */
  lemma LineBreakThenNewline(content: string)
    requires EndsWith(content, "\n") || EndsWith(content, "\r\n")
    ensures EndsWith(content + "\n", "\n\n")
  {
    var s := content + "\n";
    assert content[|content| - 1] == '\n' by {
      if EndsWith(content, "\n") {
        assert content[|content| - 1..][0] == '\n';
      } else {
        assert content[|content| - 2..][1] == '\n';
      }
    }
    assert s[|s| - 2..] == [content[|content| - 1], '\n'];
  }

  lemma BlankLineAppended(content: string)
    ensures EndsWith(content + "\n\n", "\n\n")
  {
    var s := content + "\n\n";
    assert s[|s| - 2..] == "\n\n";
  }

  /** Where the memory section's content ends: at the next second-level header, or at the end. */
  function SectionEnd(content: string, start: nat): (r: nat)
    requires start <= |content|
    ensures start <= r <= |content|
    ensures r < |content| ==> OccursAt(content, NextSectionMarker, r)
    ensures forall k: nat :: start <= k < r ==> !OccursAt(content, NextSectionMarker, k)
  {
    var e := IndexOf(content, NextSectionMarker, start);
    if e == -1 then |content| else e
  }

  /**
   * The content once `item` closes the section held in `content[start..end]`:
   * the text before the section and the section lose their trailing
   * whitespace, the item follows on its own line, and the file ends in one
   * newline.
   */
  function SectionWithItem(content: string, start: nat, end: nat, item: string): string
    requires start <= end <= |content|
  {
    var section := TrimEnd(content[start..end]) + "\n" + item;
    TrimEnd(TrimEnd(content[..start]) + "\n" + TrimStart(section) + "\n" + content[end..]) + "\n"
  }

  /**
   * The new content of the memory file once `item` is added to `content`:
   * a fresh section is appended when the header is missing; otherwise the
   * item closes the existing section.
   */
  function WithEntry(content: string, item: string): string
  {
    var h := IndexOf(content, MemorySectionHeader, 0);
    if h == -1 then
      content + NewlineSeparation(content) + MemorySectionHeader + "\n" + item + "\n"
    else
      var start := h + |MemorySectionHeader|;
      SectionWithItem(content, start, SectionEnd(content, start), item)
  }

  /** Without a header, the old content is kept whole and a new section follows it. */
  lemma NewSectionIsAppended(content: string, item: string)
    requires !Includes(content, MemorySectionHeader)
    ensures StartsWith(WithEntry(content, item), content)
    ensures EndsWith(WithEntry(content, item), MemorySectionHeader + "\n" + item + "\n")
  {
    var tail := MemorySectionHeader + "\n" + item + "\n";
    NoHeaderAppends(content, item);
    Enclosed(content, NewlineSeparation(content), tail);
  }

  /** Without a header, `WithEntry` takes its first branch. */
  lemma NoHeaderAppends(content: string, item: string)
    requires !Includes(content, MemorySectionHeader)
    ensures WithEntry(content, item) == content + NewlineSeparation(content) + (MemorySectionHeader + "\n" + item + "\n")
  {
    assert IndexOf(content, MemorySectionHeader, 0) == -1;
  }

  lemma Enclosed(head: string, middle: string, tail: string)
    ensures StartsWith(head + middle + tail, head) && EndsWith(head + middle + tail, tail)
  {
    var r := head + middle + tail;
    assert r[..|head|] == head;
    assert r[|r| - |tail|..] == tail;
  }

  /** Trimming the end of `a + b` never reaches into `a` when `a` ends in a non-blank character. */
  lemma KeepsSolidPrefix(a: string, b: string)
    requires a != [] && !IsWhitespace(a[|a| - 1])
    ensures |TrimEnd(a + b)| >= |a| && TrimEnd(a + b)[..|a|] == a
  {
    var s := a + b;
    TrimEndSlice(s);
    assert s[|a| - 1] == a[|a| - 1];
  }

  /** A string holding a non-blank character keeps something under `trimEnd`. */
  lemma SolidChar(s: string, i: nat)
    requires i < |s| && !IsWhitespace(s[i])
    ensures TrimEnd(s) != []
  {
    TrimEndSlice(s);
  }

  /**
   * When the text before the section ends in a non-blank character, it is
   * kept unchanged at the front, and the result ends in exactly one newline.
   */
  lemma {:induction false} SectionKeepsHead(content: string, start: nat, end: nat, item: string)
    requires 0 < start <= end <= |content| && !IsWhitespace(content[start - 1])
    ensures var r := SectionWithItem(content, start, end, item);
      && StartsWith(r, content[..start])
      && |r| >= 2 && r[|r| - 1] == '\n' && !IsWhitespace(r[|r| - 2])
  {
    var pre := content[..start];
    SolidEnd(pre);
    var section := TrimEnd(content[start..end]) + "\n" + item;
    var rest := "\n" + TrimStart(section) + "\n" + content[end..];
    assert TrimEnd(pre) + "\n" + TrimStart(section) + "\n" + content[end..] == pre + rest;
    KeepsSolidPrefix(pre, rest);
  }

  /** Text after the section that holds a non-blank character follows the item, up to trailing whitespace. */
  lemma {:induction false} SectionKeepsTail(content: string, start: nat, end: nat, item: string)
    requires start <= end <= |content| && TrimEnd(content[end..]) != []
    ensures EndsWith(SectionWithItem(content, start, end, item), TrimEnd(content[end..]) + "\n")
  {
    var after := content[end..];
    var section := TrimEnd(content[start..end]) + "\n" + item;
    var head := TrimEnd(content[..start]) + "\n" + TrimStart(section) + "\n";
    TrimEndAppend(head, after);
    var r := SectionWithItem(content, start, end, item);
    assert r == head + TrimEnd(after) + "\n";
    assert r[|r| - |TrimEnd(after) + "\n"|..] == TrimEnd(after) + "\n";
  }

  /**
   * The section with its trailing whitespace dropped, then the item on a
   * line of its own, loses its leading whitespace: what precedes the item is
   * empty or ends in a line break.
   */
  lemma SectionLead(body: string, item: string) returns (lead: string)
    requires body == [] || !IsWhitespace(body[|body| - 1])
    requires item != [] && !IsWhitespace(item[0])
    ensures lead == (if body == [] then [] else TrimStart(body) + "\n")
    ensures lead == [] || lead[|lead| - 1] == '\n'
    ensures TrimStart(body + "\n" + item) == lead + item
  {
    if body == [] {
      assert (body + "\n" + item)[1..] == item;
      lead := [];
    } else {
      SolidEnd(body);
      TrimStartAppend(body, "\n" + item);
      assert body + "\n" + item == body + ("\n" + item);
      lead := TrimStart(body) + "\n";
    }
  }

  /** The item, which ends in a non-blank character, appears at the start of a line. */
  lemma {:induction false} SectionAddsItem(content: string, start: nat, end: nat, item: string)
    requires 0 < start <= end <= |content| && !IsWhitespace(content[start - 1])
    requires item != [] && !IsWhitespace(item[0]) && !IsWhitespace(item[|item| - 1])
    ensures Includes(SectionWithItem(content, start, end, item), "\n" + item)
  {
    var lead := SectionShape(content, start, end, item);
    var keep := content[..start] + "\n" + lead + item;
    var k := |keep| - |item| - 1;
    assert keep[k..] == "\n" + item by {
      assert keep[k] == '\n';
      assert keep[k + 1..] == item;
    }
    PrefixCarries(SectionWithItem(content, start, end, item), keep, "\n" + item);
  }

  /** What ends a prefix of `r` occurs in `r`. */
  lemma PrefixCarries(r: string, keep: string, sub: string)
    requires |sub| <= |keep| <= |r| && r[..|keep|] == keep && keep[|keep| - |sub|..] == sub
    ensures Includes(r, sub)
  {
    var k := |keep| - |sub|;
    assert r[k..k + |sub|] == keep[k..];
    assert OccursAt(r, sub, k);
  }

  /**
   * The result begins with the text before the section, a line break, what
   * is left of the section (`lead`, ending in a line break unless empty) and
   * the item.
   */
  lemma SectionShape(content: string, start: nat, end: nat, item: string) returns (lead: string)
    requires 0 < start <= end <= |content| && !IsWhitespace(content[start - 1])
    requires item != [] && !IsWhitespace(item[0]) && !IsWhitespace(item[|item| - 1])
    ensures var body := TrimEnd(content[start..end]);
      lead == (if body == [] then [] else TrimStart(body) + "\n")
    ensures lead == [] || lead[|lead| - 1] == '\n'
    ensures var keep := content[..start] + "\n" + lead + item;
      var r := SectionWithItem(content, start, end, item);
      |r| >= |keep| && r[..|keep|] == keep
  {
    var pre := content[..start];
    SolidEnd(pre);
    var body := TrimEnd(content[start..end]);
    lead := SectionLead(body, item);
    var after := content[end..];
    var keep := pre + "\n" + lead + item;
    SectionUnfolds(content, start, end, item, lead);
    assert keep[|keep| - 1] == item[|item| - 1];
    KeepsSolidPrefix(keep, "\n" + after);
  }

  /** `SectionWithItem` once the section's leading whitespace is known to leave `lead`. */
  lemma SectionUnfolds(content: string, start: nat, end: nat, item: string, lead: string)
    requires start <= end <= |content| && TrimEnd(content[..start]) == content[..start]
    requires TrimStart(TrimEnd(content[start..end]) + "\n" + item) == lead + item
    ensures SectionWithItem(content, start, end, item)
      == TrimEnd((content[..start] + "\n" + lead + item) + ("\n" + content[end..])) + "\n"
  {
    var core := TrimEnd(content[..start]) + "\n" + (lead + item) + "\n" + content[end..];
    assert core == (content[..start] + "\n" + lead + item) + ("\n" + content[end..]);
  }

  /** The header ends in a character that is not whitespace. */
  lemma HeaderIsSolid(content: string)
    requires Includes(content, MemorySectionHeader)
    ensures var h := IndexOf(content, MemorySectionHeader, 0);
      h >= 0 && !IsWhitespace(content[h + |MemorySectionHeader| - 1])
  {
    var h := IndexOf(content, MemorySectionHeader, 0);
    assert content[h..h + |MemorySectionHeader|] == MemorySectionHeader;
    assert content[h + |MemorySectionHeader| - 1] == MemorySectionHeader[|MemorySectionHeader| - 1];
  }

  /**
   * With a header, everything up to and including it is kept unchanged, and
   * the file ends in exactly one newline.
   */
  lemma HeadIsKept(content: string, item: string)
    requires Includes(content, MemorySectionHeader)
    ensures var h := IndexOf(content, MemorySectionHeader, 0);
      var r := WithEntry(content, item);
      && h >= 0 && StartsWith(r, content[..h + |MemorySectionHeader|])
      && |r| >= 2 && r[|r| - 1] == '\n' && !IsWhitespace(r[|r| - 2])
  {
    HeaderIsSolid(content);
    var start := SectionStart(content, item);
    SectionKeepsHead(content, start, SectionEnd(content, start), item);
  }

  /**
   * With a header, the entries already in the section stay in place (their
   * surrounding whitespace trimmed) and the new item follows them on a line
   * of its own.
   */
  lemma SectionBodyIsKept(content: string, item: string)
    requires Includes(content, MemorySectionHeader)
    requires item != [] && !IsWhitespace(item[0]) && !IsWhitespace(item[|item| - 1])
    ensures var start := IndexOf(content, MemorySectionHeader, 0) + |MemorySectionHeader|;
      && start <= |content|
      && var body := TrimEnd(content[start..SectionEnd(content, start)]);
      StartsWith(WithEntry(content, item),
        content[..start] + "\n" + (if body == [] then [] else TrimStart(body) + "\n") + item)
  {
    HeaderIsSolid(content);
    var start := SectionStart(content, item);
    var lead := SectionShape(content, start, SectionEnd(content, start), item);
  }

  /** The sections after the memory section follow it unchanged, up to trailing whitespace. */
  lemma FollowingSectionsAreKept(content: string, item: string)
    requires Includes(content, MemorySectionHeader)
    ensures var h := IndexOf(content, MemorySectionHeader, 0);
      var e := IndexOf(content, NextSectionMarker, h + |MemorySectionHeader|);
      e != -1 ==> EndsWith(WithEntry(content, item), TrimEnd(content[e..]) + "\n")
  {
    var start := SectionStart(content, item);
    var e := IndexOf(content, NextSectionMarker, start);
    if e != -1 {
      MarkerTailIsSolid(content, e);
      SectionKeepsTail(content, start, e, item);
    }
  }

  /** With a header, the item closes the section that starts right after it. */
  lemma SectionStart(content: string, item: string) returns (start: nat)
    requires Includes(content, MemorySectionHeader)
    ensures start == IndexOf(content, MemorySectionHeader, 0) + |MemorySectionHeader| <= |content|
    ensures WithEntry(content, item) == SectionWithItem(content, start, SectionEnd(content, start), item)
  {
    start := IndexOf(content, MemorySectionHeader, 0) + |MemorySectionHeader|;
  }

  /** Text that starts with the next-section marker does not trim to nothing. */
  lemma MarkerTailIsSolid(content: string, e: nat)
    requires OccursAt(content, NextSectionMarker, e)
    ensures TrimEnd(content[e..]) != []
  {
    assert content[e..][1] == content[e + 1] == NextSectionMarker[1] == '#';
    SolidChar(content[e..], 1);
  }

  /** With a header, the new item appears on a line of its own. */
  lemma ItemIsAdded(content: string, item: string)
    requires Includes(content, MemorySectionHeader)
    requires item != [] && !IsWhitespace(item[0]) && !IsWhitespace(item[|item| - 1])
    ensures Includes(WithEntry(content, item), "\n" + item)
  {
    HeaderIsSolid(content);
    var start := SectionStart(content, item);
    SectionAddsItem(content, start, SectionEnd(content, start), item);
  }

  // ---------------------------------------------------------------------
  // performAddMemoryEntry and execute
  // ---------------------------------------------------------------------

  /**
   * What `performAddMemoryEntry` does: `stored` is the file's content, or
   * `None` when reading failed (the file is then treated as empty);
   * `mkdirError` and `writeError` are the messages of a failing directory
   * creation and write. The result is the content written, or the error
   * raised.
   */
  function AddMemoryEntry(fact: string, stored: Option<string>, mkdirError: Option<string>,
                          writeError: Option<string>): (r: Result<string>)
    ensures mkdirError.Some? ==> r == Failure(AddEntryFailure + mkdirError.value)
    ensures mkdirError.None? && writeError.Some? ==> r == Failure(AddEntryFailure + writeError.value)
    ensures r.Success? ==> mkdirError.None? && writeError.None?
  {
    if mkdirError.Some? then Failure(AddEntryFailure + mkdirError.value)
    else if writeError.Some? then Failure(AddEntryFailure + writeError.value)
    else Success(WithEntry(stored.GetOr(""), NewMemoryItem(fact)))
  }

  /** A fact added to a file is always written under the section header. */
  lemma WrittenContentHasSection(fact: string, stored: Option<string>)
    ensures var r := AddMemoryEntry(fact, stored, None, None);
      r.Success? && Includes(r.value, MemorySectionHeader)
  {
    var content := stored.GetOr("");
    var item := NewMemoryItem(fact);
    if Includes(content, MemorySectionHeader) {
      HeaderStays(content, item);
    } else {
      HeaderIsAppended(content, item);
    }
  }

  /** With a header present, the rewritten content still holds it. */
  lemma HeaderStays(content: string, item: string)
    requires Includes(content, MemorySectionHeader)
    ensures Includes(WithEntry(content, item), MemorySectionHeader)
  {
    var r := WithEntry(content, item);
    HeadIsKept(content, item);
    var h := IndexOf(content, MemorySectionHeader, 0);
    assert r[h..h + |MemorySectionHeader|] == content[h..h + |MemorySectionHeader|];
    assert OccursAt(r, MemorySectionHeader, h);
  }

  /** Without a header, the appended section brings it. */
  lemma HeaderIsAppended(content: string, item: string)
    requires !Includes(content, MemorySectionHeader)
    ensures Includes(WithEntry(content, item), MemorySectionHeader)
  {
    NewSectionIsAppended(content, item);
    SuffixCarries(WithEntry(content, item), MemorySectionHeader + "\n" + item + "\n", MemorySectionHeader);
  }

  /** What begins a suffix of `r` occurs in `r`. */
  lemma SuffixCarries(r: string, t: string, sub: string)
    requires |sub| <= |t| && EndsWith(r, t) && t[..|sub|] == sub
    ensures Includes(r, sub)
  {
    var k := |r| - |t|;
    assert r[k..k + |sub|] == r[k..][..|sub|];
    assert OccursAt(r, sub, k);
  }

  /** A fact with some text left after stripping is written as a line of its own. */
  lemma ItemIsRecorded(fact: string, stored: Option<string>)
    requires MemoryText(fact) != []
    ensures var r := AddMemoryEntry(fact, stored, None, None);
      r.Success? && Includes(r.value, "\n" + NewMemoryItem(fact))
  {
    var item := NewMemoryItem(fact);
    assert item[0] == '-' && item[|item| - 1] == MemoryText(fact)[|MemoryText(fact)| - 1];
    ItemIsWritten(stored.GetOr(""), item);
  }

  /** A solid item is written on a line of its own, whether or not the header was there. */
  lemma ItemIsWritten(content: string, item: string)
    requires item != [] && !IsWhitespace(item[0]) && !IsWhitespace(item[|item| - 1])
    ensures Includes(WithEntry(content, item), "\n" + item)
  {
    if Includes(content, MemorySectionHeader) {
      ItemIsAdded(content, item);
    } else {
      NewSectionIsAppended(content, item);
      LineInTail(WithEntry(content, item), MemorySectionHeader, item);
    }
  }

  /** A string ending in `head`, a line break, `item` and a line break holds `item` on a line of its own. */
  lemma LineInTail(r: string, head: string, item: string)
    requires EndsWith(r, head + "\n" + item + "\n")
    ensures Includes(r, "\n" + item)
  {
    var t := head + "\n" + item + "\n";
    var k := |r| - |t| + |head|;
    assert t[|head|..|t| - 1] == "\n" + item;
    assert r[k..k + |item| + 1] == t[|head|..|t| - 1];
    assert OccursAt(r, "\n" + item, k);
  }

  /** `performAddMemoryEntry`, step by step as the source builds the content. */
  method PerformAddMemoryEntry(fact: string, stored: Option<string>, mkdirError: Option<string>,
                               writeError: Option<string>) returns (r: Result<string>)
    ensures r == AddMemoryEntry(fact, stored, mkdirError, writeError)
  {
    var processedText := Trim(fact);
    processedText := Trim(StripListMarkers(processedText));
    var newMemoryItem := "- " + processedText;
    assert newMemoryItem == NewMemoryItem(fact);
    if mkdirError.Some? {
      return Failure(AddEntryFailure + mkdirError.value);
    }
    var content := "";
    if stored.Some? {
      content := stored.value;
    }
    ghost var original := content;
    var headerIndex := IndexOf(content, MemorySectionHeader, 0);
    if headerIndex == -1 {
      var separator := NewlineSeparation(content);
      content := content + separator + MemorySectionHeader + "\n" + newMemoryItem + "\n";
    } else {
      var startOfSectionContent := headerIndex + |MemorySectionHeader|;
      var endOfSectionIndex := IndexOf(content, NextSectionMarker, startOfSectionContent);
      if endOfSectionIndex == -1 {
        endOfSectionIndex := |content|;
      }
      var beforeSectionMarker := TrimEnd(content[..startOfSectionContent]);
      var sectionContent := TrimEnd(content[startOfSectionContent..endOfSectionIndex]);
      var afterSectionMarker := content[endOfSectionIndex..];
      sectionContent := sectionContent + "\n" + newMemoryItem;
      content := TrimEnd(beforeSectionMarker + "\n" + TrimStart(sectionContent) + "\n" + afterSectionMarker) + "\n";
      assert endOfSectionIndex == SectionEnd(original, startOfSectionContent);
      assert content == SectionWithItem(original, startOfSectionContent, endOfSectionIndex, newMemoryItem);
    }
    assert content == WithEntry(original, NewMemoryItem(fact));
    if writeError.Some? {
      return Failure(AddEntryFailure + writeError.value);
    }
    return Success(content);
  }

  /** The tool's answer: what the model is told, and what the user sees. */
  datatype ToolResult = ToolResult(llmContent: Json, returnDisplay: string)

  function SavedMessage(fact: string): string {
    "好的，我已经记住了：\"" + fact + "\""
  }

  /** `execute`, given the outcome of adding the entry (the written content or the error message). */
  function Execute(fact: string, added: Result<string>): (r: ToolResult)
    ensures added.Success? ==>
      r.llmContent == JObj([("success", JBool(true)), ("message", JStr(SavedMessage(fact)))])
      && r.returnDisplay == SavedMessage(fact)
    ensures added.Failure? ==>
      r.llmContent == JObj([("success", JBool(false)), ("error", JStr("Failed to save memory. Detail: " + added.error))])
      && r.returnDisplay == "保存记忆时出错：" + added.error
  {
    match added
    case Success(_) =>
      ToolResult(JObj([("success", JBool(true)), ("message", JStr(SavedMessage(fact)))]), SavedMessage(fact))
    case Failure(e) =>
      ToolResult(JObj([("success", JBool(false)), ("error", JStr("Failed to save memory. Detail: " + e))]),
                 "保存记忆时出错：" + e)
  }
}
