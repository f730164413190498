/** The changelog editor of LORE: `add_entry` and the line-by-line rewriter `insert_entry`. */
module Changelog {
  import opened Text

  datatype Category = Added | Changed | Deprecated | Removed | Fixed | Security

  function CategoryName(c: Category): string {
    match c
    case Added => "Added"
    case Changed => "Changed"
    case Deprecated => "Deprecated"
    case Removed => "Removed"
    case Fixed => "Fixed"
    case Security => "Security"
  }

  const UNRELEASED := "## [Unreleased]"
  const TITLE := "# Changelog\n\n"
  const NEXT_RELEASE := "\n\n## "

  function Header(c: Category): (h: string)
    ensures "### " <= h && NewlineFree(h)
  {
    "### " + CategoryName(c)
  }

  /** `format_entry`. */
  function Entry(text: string, pr: nat): (e: string)
    ensures e != "" && e[|e| - 1] == ')'
    ensures NewlineFree(text) ==> NewlineFree(e)
  {
    "- " + text + " (#" + Decimal(pr) + ")"
  }

  /** `create_unreleased_section`. */
  function UnreleasedSection(c: Category, entry: string): string {
    UNRELEASED + "\n\n" + Header(c) + "\n" + entry + "\n\n"
  }

  // ----- the main loop -----

  /** Each line followed by a line break. */
  function Unlines(lines: seq<string>): string {
    if lines == [] then "" else Unlines(lines[..|lines| - 1]) + lines[|lines| - 1] + "\n"
  }

  /** A blank last line is not written back. */
  function DropBlank(lines: seq<string>): seq<string> {
    if lines != [] && lines[|lines| - 1] == "" then lines[..|lines| - 1] else lines
  }

  /** Whether the scan is inside the Unreleased release after its first `n` lines. */
  predicate InUnreleased(lines: seq<string>, n: nat)
    requires n <= |lines|
  {
    n > 0 && (UNRELEASED <= lines[n - 1] || (!("## " <= lines[n - 1]) && InUnreleased(lines, n - 1)))
  }

  predicate IsSection(lines: seq<string>, header: string, i: nat)
    requires i < |lines|
  {
    lines[i] == header && InUnreleased(lines, i + 1)
  }

  /** A section header inside Unreleased whose next line is not another header. */
  predicate Target(lines: seq<string>, header: string, i: nat) {
    i + 1 < |lines| && IsSection(lines, header, i) && !("### " <= lines[i + 1])
  }

  /** The first target that the first `n` lines show completely. */
  function Found(lines: seq<string>, header: string, n: nat): (r: Option<nat>)
    requires n <= |lines|
    ensures r.Some? ==> r.value + 1 < n && Target(lines, header, r.value)
    ensures forall i :: 0 <= i && i + 1 < n && Target(lines, header, i) ==> r.Some? && r.value <= i
  {
    if n < 2 then None
    else
      var r := Found(lines, header, n - 1);
      if r.Some? then r else if Target(lines, header, n - 2) then Some(n - 2) else None
  }

  function InsertAt(lines: seq<string>, at: Option<nat>, entry: string): seq<string>
    requires at.Some? ==> at.value < |lines|
  {
    if at.None? then lines else lines[..at.value + 1] + [entry] + lines[at.value + 1..]
  }

  lemma InsertAtSnoc(lines: seq<string>, at: Option<nat>, entry: string, line: string)
    requires at.Some? ==> at.value < |lines|
    ensures InsertAt(lines + [line], at, entry) == InsertAt(lines, at, entry) + [line]
  {
  }

  lemma UnlinesSnoc(lines: seq<string>, line: string)
    ensures Unlines(lines + [line]) == Unlines(lines) + line + "\n"
  {
    assert (lines + [line])[..|lines|] == lines;
  }

  /** The text written once the first `n` lines are done. */
  ghost function Written(lines: seq<string>, header: string, entry: string, n: nat): string
    requires n <= |lines|
  {
    var done := InsertAt(lines[..n], Found(lines, header, n), entry);
    Unlines(if n == |lines| then DropBlank(done) else done)
  }

  function Appended(s: string, entry: Option<string>, line: string, lineBreak: bool): string {
    var base := if entry.Some? then s + entry.value + "\n" else s;
    if lineBreak then base + line + "\n" else base + line
  }

  lemma WrittenStep(lines: seq<string>, header: string, entry: string, n: nat)
    requires n < |lines|
    ensures Written(lines, header, entry, n + 1) ==
            Appended(Written(lines, header, entry, n),
                     if Found(lines, header, n + 1) != Found(lines, header, n) then Some(entry) else None,
                     lines[n], n + 1 < |lines| || lines[n] != "")
  {
    var at, at' := Found(lines, header, n), Found(lines, header, n + 1);
    assert lines[..n + 1] == lines[..n] + [lines[n]];
    if at == at' {
      InsertAtSnoc(lines[..n], at, entry, lines[n]);
      UnlinesSnoc(InsertAt(lines[..n], at, entry), lines[n]);
    } else {
      assert InsertAt(lines[..n + 1], at', entry) == lines[..n] + [entry] + [lines[n]];
      UnlinesSnoc(lines[..n], entry);
      UnlinesSnoc(lines[..n] + [entry], lines[n]);
    }
  }

  /** What the next line does to the scan, as long as nothing was inserted. */
  lemma ScanStep(lines: seq<string>, header: string, n: nat)
    requires n < |lines| && "### " <= header
    ensures Found(lines, header, n).Some? ==> Found(lines, header, n + 1) == Found(lines, header, n)
    ensures Found(lines, header, n).None? ==>
              (Found(lines, header, n + 1).Some? <==>
                 n > 0 && IsSection(lines, header, n - 1) && !("### " <= lines[n]))
    ensures n > 0 && IsSection(lines, header, n - 1) && lines[n] == header ==> IsSection(lines, header, n)
    ensures InUnreleased(lines, n + 1) ==
            (UNRELEASED <= lines[n] || (!("## " <= lines[n]) && InUnreleased(lines, n)))
  {
    if lines[n] == header {
      assert lines[n][2] == '#';
    }
  }

  method RewriteLines(lines: seq<string>, header: string, entry: string) returns (result: string, inserted: bool)
    requires "### " <= header
    ensures inserted == Found(lines, header, |lines|).Some?
    ensures result == Unlines(DropBlank(InsertAt(lines, Found(lines, header, |lines|), entry)))
  {
    result := "";
    var inUnreleased, inSection := false, false;
    inserted := false;
    var i := 0;
    while i < |lines|
      invariant 0 <= i <= |lines|
      invariant inUnreleased == InUnreleased(lines, i)
      invariant inserted == Found(lines, header, i).Some?
      invariant !inserted ==> inSection == (i > 0 && IsSection(lines, header, i - 1))
      invariant result == Written(lines, header, entry, i)
    {
      var line := lines[i];
      ScanStep(lines, header, i);
      WrittenStep(lines, header, entry, i);
      if UNRELEASED <= line {
        inUnreleased := true;
      } else if "## " <= line && inUnreleased {
        inUnreleased := false;
      }
      if inUnreleased && line == header {
        inSection := true;
        result := result + line + "\n";
        i := i + 1;
        continue;
      }
      if inSection && "### " <= line && line != header {
        inSection := false;
      }
      if inSection && !inserted {
        result := result + entry + "\n";
        inserted := true;
      }
      result := result + line;
      if i < |lines| - 1 || line != "" {
        result := result + "\n";
      }
      i := i + 1;
    }
    assert lines[..|lines|] == lines;
  }

  // ----- fallbacks and the whole rewrite -----

  function InsertStr(s: string, pos: nat, x: string): string
    requires pos <= |s|
  {
    s[..pos] + x + s[pos..]
  }

  /** Where the second fallback inserts: before the next release, or at the end. */
  function UnreleasedEnd(result: string): (pos: nat)
    ensures pos <= |result|
    ensures pos < |result| ==> result[pos] == '\n'
  {
    match Find(result, UNRELEASED)
    case None => |result|
    case Some(p) =>
      match Find(result[p..], NEXT_RELEASE)
      case None => |result|
      case Some(offset) =>
        assert result[p..][offset..offset + |NEXT_RELEASE|][0] == '\n';
        p + offset
  }

  function TitleEnd(result: string): (pos: nat)
    ensures pos <= |result|
    ensures pos > 0 ==> result[pos - 1] == '\n'
  {
    match Find(result, TITLE)
    case None => 0
    case Some(p) => assert result[p..p + |TITLE|][|TITLE| - 1] == '\n'; p + |TITLE|
  }

  function Fallback(result: string, c: Category, entry: string): string {
    if !Contains(result, UNRELEASED) then InsertStr(result, TitleEnd(result), UnreleasedSection(c, entry))
    else InsertStr(result, UnreleasedEnd(result), Header(c) + "\n" + entry + "\n")
  }

  /** The value of `insert_entry`. */
  function Inserted(content: string, c: Category, entry: string): string {
    var lines := Lines(content);
    var at := Found(lines, Header(c), |lines|);
    var result := Unlines(DropBlank(InsertAt(lines, at, entry)));
    if at.Some? then result else Fallback(result, c, entry)
  }

  method InsertEntry(content: string, c: Category, entry: string) returns (result: string)
    ensures result == Inserted(content, c, entry)
  {
    var inserted: bool;
    result, inserted := RewriteLines(Lines(content), Header(c), entry);
    if !inserted {
      if !Contains(result, UNRELEASED) {
        var section := UnreleasedSection(c, entry);
        result := InsertStr(result, TitleEnd(result), section);
      } else {
        var section := Header(c) + "\n" + entry + "\n";
        result := InsertStr(result, UnreleasedEnd(result), section);
      }
    }
  }

  // ----- entries are never lost -----

  lemma OccurrenceFound(s: string, sub: string, i: nat)
    requires OccursAt(s, sub, i)
    ensures Contains(s, sub)
  {
  }

  lemma ContainsInContext(before: string, s: string, after: string, sub: string)
    requires Contains(s, sub)
    ensures Contains(before + s + after, sub)
  {
    var i := Find(s, sub).value;
    var whole := before + s + after;
    assert whole[|before| + i..|before| + i + |sub|] == s[i..i + |sub|];
    OccurrenceFound(whole, sub, |before| + i);
  }

  lemma NoBreakInside(s: string, e: string, i: nat)
    requires OccursAt(s, e, i) && NewlineFree(e)
    ensures forall j :: i <= j < i + |e| ==> s[j] != '\n'
  {
    forall j | i <= j < i + |e| ensures s[j] != '\n' {
      assert s[i..i + |e|][j - i] == s[j] && e[j - i] in e;
    }
  }

  lemma OccursInFirst(s: string, e: string, i: nat, k: nat)
    requires k <= |s| && OccursAt(s, e, i) && i + |e| <= k && e != "" && e[|e| - 1] != '\r'
    ensures Contains(StripCr(s[..k]), e)
  {
    var line := StripCr(s[..k]);
    assert s[..k][i..i + |e|] == e;
    assert s[i + |e| - 1] == e[|e| - 1];
    assert line[i..i + |e|] == e;
    OccurrenceFound(line, e, i);
  }

  lemma OccursInRest(s: string, e: string, i: nat, k: nat)
    requires k < |s| && OccursAt(s, e, i) && k < i
    ensures Contains(s[k + 1..], e)
  {
    var rest := s[k + 1..];
    assert rest[i - k - 1..i - k - 1 + |e|] == s[i..i + |e|];
    OccurrenceFound(rest, e, i - k - 1);
  }

  /** An entry without a line break that occurs in a text occurs within one of its lines. */
  lemma {:induction false} OccursInLine(s: string, e: string) returns (line: string)
    requires Contains(s, e) && e != "" && NewlineFree(e) && e[|e| - 1] != '\r'
    ensures line in Lines(s) && Contains(line, e)
    decreases |s|
  {
    var i := Find(s, e).value;
    NoBreakInside(s, e, i);
    match IndexOf(s, '\n')
    case None =>
      line := s;
    case Some(k) =>
      if i + |e| <= k {
        line := StripCr(s[..k]);
        OccursInFirst(s, e, i, k);
      } else {
        OccursInRest(s, e, i, k);
        line := OccursInLine(s[k + 1..], e);
      }
  }

  lemma {:induction false} LineOccursInUnlines(lines: seq<string>, line: string, e: string)
    requires line in lines && Contains(line, e)
    ensures Contains(Unlines(lines), e)
  {
    var init, last := lines[..|lines| - 1], lines[|lines| - 1];
    if line == last {
      ContainsInContext(Unlines(init), last, "\n", e);
      assert Unlines(lines) == Unlines(init) + last + "\n";
    } else {
      assert line in init;
      LineOccursInUnlines(init, line, e);
      ContainsInContext("", Unlines(init), last + "\n", e);
      assert Unlines(lines) == "" + Unlines(init) + (last + "\n");
    }
  }

  lemma EmptyHoldsNothing(e: string)
    requires e != ""
    ensures !Contains("", e)
  {
  }

  lemma InsertionAfter(s: string, pos: nat, x: string, e: string, i: nat)
    requires pos <= |s| && OccursAt(s, e, i) && i + |e| <= pos
    ensures Contains(InsertStr(s, pos, x), e)
  {
    assert InsertStr(s, pos, x)[i..i + |e|] == s[i..i + |e|];
    OccurrenceFound(InsertStr(s, pos, x), e, i);
  }

  lemma InsertionBefore(s: string, pos: nat, x: string, e: string, i: nat)
    requires pos <= |s| && OccursAt(s, e, i) && pos <= i
    ensures Contains(InsertStr(s, pos, x), e)
  {
    assert InsertStr(s, pos, x)[i + |x|..i + |x| + |e|] == s[i..i + |e|];
    OccurrenceFound(InsertStr(s, pos, x), e, i + |x|);
  }

  /** An insertion next to a line break or at an end of the text cuts no entry in two. */
  lemma InsertionCutsNothing(s: string, pos: nat, x: string, e: string)
    requires pos <= |s| && Contains(s, e) && NewlineFree(e)
    requires pos == 0 || pos == |s| || s[pos - 1] == '\n' || s[pos] == '\n'
    ensures Contains(InsertStr(s, pos, x), e)
  {
    var i := Find(s, e).value;
    NoBreakInside(s, e, i);
    if pos <= i {
      InsertionBefore(s, pos, x, e, i);
    } else {
      InsertionAfter(s, pos, x, e, i);
    }
  }

  lemma InsertAtKeepsLine(lines: seq<string>, at: Option<nat>, entry: string, line: string)
    requires (at.Some? ==> at.value < |lines|) && line in lines && line != ""
    ensures line in DropBlank(InsertAt(lines, at, entry))
  {
    var written := InsertAt(lines, at, entry);
    var k :| 0 <= k < |lines| && lines[k] == line;
    assert if at.Some? && k > at.value then written[k + 1] == line else written[k] == line;
  }

  lemma FallbackKeepsEntries(result: string, c: Category, entry: string, kept: string)
    requires Contains(result, kept) && NewlineFree(kept)
    ensures Contains(Fallback(result, c, entry), kept)
  {
    if Contains(result, UNRELEASED) {
      InsertionCutsNothing(result, UnreleasedEnd(result), Header(c) + "\n" + entry + "\n", kept);
    } else {
      InsertionCutsNothing(result, TitleEnd(result), UnreleasedSection(c, entry), kept);
    }
  }

  /** Rewriting the file for any other entry keeps every entry it holds. */
  lemma InsertKeepsEntries(content: string, c: Category, entry: string, kept: string)
    requires Contains(content, kept) && kept != "" && NewlineFree(kept) && kept[|kept| - 1] != '\r'
    ensures Contains(Inserted(content, c, entry), kept)
  {
    var line := OccursInLine(content, kept);
    EmptyHoldsNothing(kept);
    var lines := Lines(content);
    var at := Found(lines, Header(c), |lines|);
    InsertAtKeepsLine(lines, at, entry, line);
    var written := DropBlank(InsertAt(lines, at, entry));
    LineOccursInUnlines(written, line, kept);
    if at.None? {
      FallbackKeepsEntries(Unlines(written), c, entry, kept);
    }
  }

  lemma WholeContainsItself(e: string)
    ensures Contains(e, e)
  {
    OccurrenceFound(e, e, 0);
  }

  lemma InsertedTextIsThere(s: string, pos: nat, before: string, e: string, after: string)
    requires pos <= |s|
    ensures Contains(InsertStr(s, pos, before + e + after), e)
  {
    WholeContainsItself(e);
    ContainsInContext(before, e, after, e);
    ContainsInContext(s[..pos], before + e + after, s[pos..], e);
  }

  lemma FallbackAddsEntry(result: string, c: Category, entry: string)
    ensures Contains(Fallback(result, c, entry), entry)
  {
    if Contains(result, UNRELEASED) {
      InsertedTextIsThere(result, UnreleasedEnd(result), Header(c) + "\n", entry, "\n");
    } else {
      InsertedTextIsThere(result, TitleEnd(result), UNRELEASED + "\n\n" + Header(c) + "\n", entry, "\n\n");
    }
  }

  /** Whichever of the three ways is taken, the new entry is in the result. */
  lemma InsertAddsEntry(content: string, c: Category, entry: string)
    requires entry != ""
    ensures Contains(Inserted(content, c, entry), entry)
  {
    var lines := Lines(content);
    var at := Found(lines, Header(c), |lines|);
    var written := InsertAt(lines, at, entry);
    if at.Some? {
      WholeContainsItself(entry);
      assert DropBlank(written)[at.value + 1] == entry;
      LineOccursInUnlines(DropBlank(written), entry, entry);
    } else {
      FallbackAddsEntry(Unlines(DropBlank(written)), c, entry);
    }
  }

  // ----- whole histories of calls -----

  datatype Call = Call(category: Category, text: string, pr: nat)

  const INTRODUCTION: seq<string> := [
    "# Changelog",
    "",
    "All notable changes to this project will be documented in this file.",
    "",
    "The format is based on [Keep a Changelog](https://keepachangelog.com/en/1.0.0/),",
    "and this project adheres to [Semantic Versioning](https://semver.org/spec/v2.0.0.html).",
    ""]

  const SECTIONS: seq<string> := [
    "## [Unreleased]", "", "### Added", "", "### Changed", "", "### Deprecated", "", "### Removed", "", "### Fixed", "",
    "### Security"]

  /** `create_initial_changelog`. */
  const TEMPLATE := Unlines(INTRODUCTION + SECTIONS)

  /** `read_current`: a missing file reads as the initial changelog. */
  function Content(file: Option<string>): string {
    if file.Some? then file.value else TEMPLATE
  }

  /** The effect of `add_entry`: nothing is written when the entry is already there. */
  function AfterAdd(file: Option<string>, call: Call): Option<string> {
    var entry := Entry(call.text, call.pr);
    if Contains(Content(file), entry) then file else Some(Inserted(Content(file), call.category, entry))
  }

  class ChangelogManager {
    var file: Option<string>

    constructor (file: Option<string>)
      ensures this.file == file
    {
      this.file := file;
    }

    method AddEntry(call: Call)
      modifies this
      ensures file == AfterAdd(old(file), call)
    {
      var content := Content(file);
      var entry := Entry(call.text, call.pr);
      if Contains(content, entry) {
        return;
      }
      var updated := InsertEntry(content, call.category, entry);
      file := Some(updated);
    }
  }

  function AddAll(file: Option<string>, calls: seq<Call>): Option<string> {
    if calls == [] then file else AfterAdd(AddAll(file, calls[..|calls| - 1]), calls[|calls| - 1])
  }

  lemma AddKeepsEntries(file: Option<string>, call: Call, kept: Call)
    requires NewlineFree(kept.text) && Contains(Content(file), Entry(kept.text, kept.pr))
    ensures Contains(Content(AfterAdd(file, call)), Entry(kept.text, kept.pr))
  {
    if !Contains(Content(file), Entry(call.text, call.pr)) {
      InsertKeepsEntries(Content(file), call.category, Entry(call.text, call.pr), Entry(kept.text, kept.pr));
    }
  }

  /**
   For every starting file and every history of calls, each entry asked for is in the file at the end, and
   asking for it again leaves the file as it is.
   */
  lemma {:induction false} EntriesAreNeverLost(file: Option<string>, calls: seq<Call>, call: Call)
    requires call in calls && NewlineFree(call.text)
    ensures Contains(Content(AddAll(file, calls)), Entry(call.text, call.pr))
    ensures AfterAdd(AddAll(file, calls), call) == AddAll(file, calls)
  {
    var init, last := calls[..|calls| - 1], calls[|calls| - 1];
    if call in init {
      EntriesAreNeverLost(file, init, call);
      AddKeepsEntries(AddAll(file, init), last, call);
    } else {
      InsertAddsEntry(Content(AddAll(file, init)), call.category, Entry(call.text, call.pr));
    }
  }

  // ----- placement -----

  /** Written back, a line that ends in a carriage return loses it to its new line break. */
  function Stripped(lines: seq<string>): seq<string> {
    if lines == [] then [] else [StripCr(lines[0])] + Stripped(lines[1..])
  }

  lemma {:induction false} StrippedSame(lines: seq<string>)
    requires forall l :: l in lines ==> StripCr(l) == l
    ensures Stripped(lines) == lines
  {
    if lines != [] {
      assert lines[0] in lines;
      StrippedSame(lines[1..]);
    }
  }

  lemma {:induction false} UnlinesConcat(a: seq<string>, b: seq<string>)
    ensures Unlines(a + b) == Unlines(a) + Unlines(b)
  {
    if b == [] {
      assert a + b == a;
    } else {
      var init, last := b[..|b| - 1], b[|b| - 1];
      UnlinesConcat(a, init);
      assert a + b == (a + init) + [last];
      UnlinesSnoc(a + init, last);
      assert Unlines(a) + Unlines(init) + last + "\n" == Unlines(a) + (Unlines(init) + last + "\n");
    }
  }

  lemma UnlinesCons(line: string, rest: seq<string>)
    ensures Unlines([line] + rest) == line + "\n" + Unlines(rest)
  {
    UnlinesConcat([line], rest);
    UnlinesSnoc([], line);
    assert [] + [line] == [line];
  }

  lemma {:induction false} LinesOfUnlines(lines: seq<string>)
    requires forall l :: l in lines ==> NewlineFree(l)
    ensures Lines(Unlines(lines)) == Stripped(lines)
  {
    if lines != [] {
      var line, rest := lines[0], lines[1..];
      assert line in lines && lines == [line] + rest;
      assert Lines(Unlines(rest)) == Stripped(rest) by { LinesOfUnlines(rest); }
      UnlinesCons(line, rest);
      LinesCons(line, Unlines(rest));
    }
  }

  lemma FoundIsFirst(lines: seq<string>, header: string, i: nat)
    requires Target(lines, header, i) && forall k :: 0 <= k < i ==> !Target(lines, header, k)
    ensures Found(lines, header, |lines|) == Some(i)
  {
  }

  /** The text written for a found header. */
  lemma InsertedAtTarget(content: string, c: Category, entry: string, lines: seq<string>, i: nat)
    requires lines == Lines(content) && i < |lines| && Found(lines, Header(c), |lines|) == Some(i)
    ensures Inserted(content, c, entry) == Unlines(DropBlank(InsertAt(lines, Some(i), entry)))
  {
  }

  /**
   If some section header inside Unreleased is followed by a line that is not another header, the result's
   lines are the input's lines with the entry placed directly below the first such header, and nothing else
   changed except that a blank last line and the carriage returns that end lines are dropped. Otherwise the
   result is that of a fallback, so a header on the last line does not count.
   */
  lemma EntryIsPlacedBelowHeader(content: string, c: Category, entry: string, lines: seq<string>, i: nat)
    requires lines == Lines(content) && NewlineFree(entry)
    requires Target(lines, Header(c), i) && forall k :: 0 <= k < i ==> !Target(lines, Header(c), k)
    ensures
      var placed := DropBlank(InsertAt(lines, Some(i), entry));
      && Inserted(content, c, entry) == Unlines(placed)
      && Lines(Inserted(content, c, entry)) == Stripped(placed)
      && ((forall l :: l in placed ==> StripCr(l) == l) ==> Lines(Inserted(content, c, entry)) == placed)
  {
    FoundIsFirst(lines, Header(c), i);
    InsertedAtTarget(content, c, entry, lines, i);
    PlacedReadsBack(lines, Some(i), entry);
  }

  lemma PlacedReadsBack(lines: seq<string>, at: Option<nat>, entry: string)
    requires (at.Some? ==> at.value < |lines|) && NewlineFree(entry) && forall l :: l in lines ==> NewlineFree(l)
    ensures
      var placed := DropBlank(InsertAt(lines, at, entry));
      && Lines(Unlines(placed)) == Stripped(placed)
      && ((forall l :: l in placed ==> StripCr(l) == l) ==> Lines(Unlines(placed)) == placed)
  {
    var placed := DropBlank(InsertAt(lines, at, entry));
    assert forall l :: l in placed ==> l in lines || l == entry;
    LinesOfUnlines(placed);
    if forall l :: l in placed ==> StripCr(l) == l {
      StrippedSame(placed);
    }
  }

  /** Without such a header, a fallback inserts into the unchanged lines. A header on the last line does not help. */
  lemma WithoutTargetFallsBack(content: string, c: Category, entry: string, lines: seq<string>)
    requires lines == Lines(content)
    requires forall i :: 0 <= i < |lines| - 1 && lines[i] == Header(c) && InUnreleased(lines, i + 1) ==>
      "### " <= lines[i + 1]
    ensures Inserted(content, c, entry) == Fallback(Unlines(DropBlank(lines)), c, entry)
  {
    assert Found(lines, Header(c), |lines|).None?;
  }

  // ----- what is written, and where a section begins -----

  /** Line `j` opens Unreleased, and none of the next lines up to line `n` opens another release. */
  ghost predicate Opens(lines: seq<string>, j: nat, n: nat)
    requires n <= |lines|
  {
    j < n && UNRELEASED <= lines[j] && forall k :: j < k < n ==> !("## " <= lines[k])
  }

  /** The scan is inside Unreleased exactly below a line that opens it, with no other release opened since. */
  lemma {:induction false} InUnreleasedIff(lines: seq<string>, n: nat)
    requires n <= |lines|
    ensures InUnreleased(lines, n) <==> exists j: nat :: Opens(lines, j, n)
  {
    if n > 0 {
      InUnreleasedIff(lines, n - 1);
      if UNRELEASED <= lines[n - 1] {
        assert Opens(lines, n - 1, n);
      } else if j: nat :| Opens(lines, j, n) {
        assert Opens(lines, j, n - 1);
      }
      if !("## " <= lines[n - 1]) && InUnreleased(lines, n - 1) {
        var j: nat :| Opens(lines, j, n - 1);
        assert Opens(lines, j, n);
      }
    }
  }

  /** Two calls write the same entry only if they name the same text and the same pull request. */
  lemma EntryIsInjective(a: string, m: nat, b: string, n: nat)
    requires Entry(a, m) == Entry(b, n)
    ensures a == b && m == n
  {
    var x, y := "- " + a + " (", "- " + b + " (";
    var i, j := Decimal(m), Decimal(n);
    assert Entry(a, m) == x + "#" + (i + ")") && Entry(b, n) == y + "#" + (j + ")");
    HashSplits(x, i + ")", y, j + ")");
    assert x[2..|x| - 2] == a && y[2..|y| - 2] == b;
    assert (i + ")")[..|i|] == i && (j + ")")[..|j|] == j;
    DigitsValueOfDecimal(m);
    DigitsValueOfDecimal(n);
  }

  lemma HashSplits(x: string, a: string, y: string, b: string)
    requires '#' !in a && '#' !in b && x + "#" + a == y + "#" + b
    ensures x == y && a == b
  {
    var s, t := x + "#" + a, y + "#" + b;
    assert s[|x|] == '#' && t[|y|] == '#';
    assert forall i :: |x| < i < |s| ==> s[i] == a[i - |x| - 1] && a[i - |x| - 1] in a;
    assert forall i :: |y| < i < |t| ==> t[i] == b[i - |y| - 1] && b[i - |y| - 1] in b;
    assert |x| == |y|;
    assert x == s[..|x|] == t[..|y|] == y;
    assert a == s[|x| + 1..] == t[|y| + 1..] == b;
  }

  /** Without an Unreleased release, one is opened right behind the title. */
  lemma NewReleaseFollowsTitle(rest: string, c: Category, entry: string)
    requires !Contains(TITLE + rest, UNRELEASED)
    ensures Fallback(TITLE + rest, c, entry) == TITLE + UnreleasedSection(c, entry) + rest
  {
    var s := TITLE + rest;
    assert OccursAt(s, TITLE, 0);
    assert s[..|TITLE|] == TITLE && s[|TITLE|..] == rest;
  }

  lemma InsertInFront(s: string, x: string)
    ensures InsertStr(s, 0, x) == x + s
  {
    assert s[..0] == "" && s[0..] == s;
  }

  lemma NoTitleNoOffset(content: string)
    requires !Contains(content, TITLE)
    ensures TitleEnd(content) == 0
  {
  }

  /** A file without title gets it at the top. */
  lemma NewReleaseComesFirst(content: string, c: Category, entry: string)
    requires !Contains(content, UNRELEASED) && !Contains(content, TITLE)
    ensures Fallback(content, c, entry) == UnreleasedSection(c, entry) + content
  {
    NoTitleNoOffset(content);
    InsertInFront(content, UnreleasedSection(c, entry));
  }

  lemma UnlinesTwo(a: string, b: string)
    ensures Unlines([a, b]) == a + "\n" + b + "\n"
  {
    UnlinesSnoc([], a);
    UnlinesSnoc([a], b);
    assert [] + [a] == [a] && [a] + [b] == [a, b];
  }

  /** The new release has one section, which holds the entry. */
  lemma NewReleaseReads(c: Category, entry: string)
    ensures UnreleasedSection(c, entry) == Unlines(["## [Unreleased]", ""] + (["### " + CategoryName(c), entry] + [""]))
  {
    UnlinesTwo("## [Unreleased]", "");
    UnlinesTwo(Header(c), entry);
    UnlinesSnoc([], "");
    assert [] + [""] == [""];
    UnlinesConcat([Header(c), entry], [""]);
    UnlinesConcat(["## [Unreleased]", ""], [Header(c), entry] + [""]);
    SectionRegroups(UNRELEASED, Header(c), entry);
  }

  lemma SectionRegroups(open: string, header: string, entry: string)
    ensures open + "\n\n" + header + "\n" + entry + "\n\n"
         == (open + "\n" + "" + "\n") + ((header + "\n" + entry + "\n") + ("" + "" + "\n"))
  {
    assert "\n\n" == "\n" + "\n";
  }

  /** No two categories share a header. */
  lemma HeadersDiffer(c: Category, d: Category)
    requires Header(c) == Header(d)
    ensures c == d
  {
    assert Header(c)[4..] == CategoryName(c) && Header(d)[4..] == CategoryName(d);
  }

  /** The place of a category's section in the initial changelog. */
  function SectionPlace(c: Category): (i: nat)
    ensures i < |SECTIONS| && SECTIONS[i] == Header(c)
    ensures c != Security ==> i + 1 < |SECTIONS| && SECTIONS[i + 1] == ""
  {
    match c
    case Added => 2
    case Changed => 4
    case Deprecated => 6
    case Removed => 8
    case Fixed => 10
    case Security => 12
  }

  lemma SectionLine(i: nat) returns (c: Category)
    requires 0 < i < |SECTIONS|
    ensures SECTIONS[i] == "" || (SECTIONS[i] == Header(c) && i == SectionPlace(c))
    ensures !("## " <= SECTIONS[i])
  {
    c := if i == 2 then Added else if i == 4 then Changed else if i == 6 then Deprecated
    else if i == 8 then Removed else if i == 10 then Fixed else Security;
    if i % 2 == 1 {
      assert SECTIONS[i] == "";
    } else {
      assert SectionPlace(c) == i && Header(c)[2] == '#';
    }
  }

  lemma SectionsAreUnreleased(n: nat)
    requires 0 < n <= |SECTIONS|
    ensures InUnreleased(INTRODUCTION + SECTIONS, 7 + n)
  {
    var lines := INTRODUCTION + SECTIONS;
    assert lines[7] == SECTIONS[0];
    forall k | 7 < k < 7 + n ensures !("## " <= lines[k]) {
      assert lines[k] == SECTIONS[k - 7];
      var c := SectionLine(k - 7);
    }
    assert Opens(lines, 7, 7 + n);
    InUnreleasedIff(lines, 7 + n);
  }

  /** A new file has a section for every category, and all but the last can take an entry. */
  lemma InitialSectionIsTarget(c: Category)
    requires c != Security
    ensures Target(INTRODUCTION + SECTIONS, Header(c), 7 + SectionPlace(c))
  {
    var lines := INTRODUCTION + SECTIONS;
    var i := SectionPlace(c);
    assert lines[7 + i] == SECTIONS[i] && lines[7 + i + 1] == SECTIONS[i + 1];
    SectionsAreUnreleased(i + 1);
  }

  /** The last one cannot, so the first Security entry of a new file brings a second Security header. */
  lemma LastSectionIsNoTarget(i: nat)
    ensures !Target(INTRODUCTION + SECTIONS, Header(Security), i)
  {
    if i + 1 < |INTRODUCTION + SECTIONS| {
      OtherLinesDiffer(Security, i);
    }
  }

  /** So an entry for a new file is placed below its header exactly when it is no Security entry. */
  lemma FirstEntryIsPlacedIff(c: Category)
    ensures Found(INTRODUCTION + SECTIONS, Header(c), |INTRODUCTION + SECTIONS|)
         == if c == Security then None else Some(7 + SectionPlace(c))
  {
    var lines := INTRODUCTION + SECTIONS;
    var r := Found(lines, Header(c), |lines|);
    if c == Security {
      if r.Some? { LastSectionIsNoTarget(r.value); }
    } else {
      InitialSectionIsTarget(c);
      if r.value < 7 + SectionPlace(c) { OtherLinesDiffer(c, r.value); }
    }
  }

  lemma OtherLinesDiffer(c: Category, i: nat)
    requires i < 7 + SectionPlace(c)
    ensures (INTRODUCTION + SECTIONS)[i] != Header(c)
  {
    assert Header(c)[1] == '#' && Header(c)[2] == '#';
    if i < 7 {
      assert (INTRODUCTION + SECTIONS)[i] == INTRODUCTION[i];
    } else if i == 7 {
      assert (INTRODUCTION + SECTIONS)[i] == UNRELEASED && UNRELEASED[2] == ' ';
    } else {
      var d := SectionLine(i - 7);
      assert Header(c) == Header(d) ==> c == d by { if Header(c) == Header(d) { HeadersDiffer(c, d); } }
    }
  }
}
