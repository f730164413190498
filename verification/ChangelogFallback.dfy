/** The second fallback of the changelog editor, described on the lines of the file. */
module ChangelogFallback {
  import opened Text
  import opened Changelog

  /** Each line without line breaks. */
  ghost predicate AreLines(lines: seq<string>) {
    forall l :: l in lines ==> NewlineFree(l)
  }

  /** The first line that mentions a word, or the number of lines. */
  function Mention(lines: seq<string>, word: string): (u: nat)
    ensures u <= |lines|
    ensures u < |lines| ==> Contains(lines[u], word)
    ensures forall i :: 0 <= i < u ==> !Contains(lines[i], word)
  {
    if lines == [] || Contains(lines[0], word) then 0 else 1 + Mention(lines[1..], word)
  }

  /** The first line that mentions Unreleased, or the number of lines. */
  function Unreleased(lines: seq<string>): (u: nat)
    ensures u <= |lines|
  {
    Mention(lines, UNRELEASED)
  }

  /** Line `k` is followed by a blank line and then by the heading of a release. */
  predicate IsGap(lines: seq<string>, k: nat) {
    k + 2 < |lines| && lines[k + 1] == "" && "## " <= lines[k + 2]
  }

  function Gap(lines: seq<string>): (g: Option<nat>)
    ensures g.Some? ==> IsGap(lines, g.value) && forall i :: 0 <= i < g.value ==> !IsGap(lines, i)
    ensures g.None? ==> forall i :: 0 <= i ==> !IsGap(lines, i)
  {
    if lines == [] then None
    else if IsGap(lines, 0) then Some(0)
    else
      var g := Gap(lines[1..]);
      assert forall i :: 1 <= i ==> IsGap(lines, i) == IsGap(lines[1..], i - 1);
      if g.None? then None else Some(g.value + 1)
  }

  /** The lines of the second fallback: a new section before the first release after Unreleased, or at the end. */
  function FallbackLines(lines: seq<string>, header: string, entry: string): seq<string> {
    var u := Unreleased(lines);
    var g := Gap(lines[u..]);
    if g.None? then lines + [header, entry]
    else
      var k := u + g.value;
      lines[..k] + [lines[k] + header, entry, ""] + lines[k + 1..]
  }

  // ------------------------------------------------------------------- searching in a text of lines

  ghost predicate Absent(s: string, sub: string) {
    forall i: nat :: !OccursAt(s, sub, i)
  }

  ghost predicate FirstAt(s: string, sub: string, k: nat) {
    OccursAt(s, sub, k) && forall i: nat :: i < k ==> !OccursAt(s, sub, i)
  }

  lemma FindMeans(s: string, sub: string)
    ensures Find(s, sub).None? ==> Absent(s, sub)
    ensures Find(s, sub).Some? ==> FirstAt(s, sub, Find(s, sub).value)
  {
  }

  lemma FindIsFirst(s: string, sub: string, k: nat)
    requires FirstAt(s, sub, k)
    ensures Find(s, sub) == Some(k)
  {
  }

  lemma FindIsNone(s: string, sub: string)
    requires Absent(s, sub)
    ensures Find(s, sub) == None
  {
  }

  lemma OccursBehind(line: string, rest: string, sub: string, i: nat)
    ensures OccursAt(line + "\n" + rest, sub, |line| + 1 + i) <==> OccursAt(rest, sub, i)
  {
    var s := line + "\n" + rest;
    if i + |sub| <= |rest| {
      assert s[|line| + 1 + i..|line| + 1 + i + |sub|] == rest[i..i + |sub|];
    }
  }

  /** A word, without line breaks, occurs inside a line or not at all. */
  lemma OccursInside(line: string, rest: string, sub: string, i: nat)
    requires NewlineFree(sub) && sub != "" && i <= |line|
    ensures OccursAt(line + "\n" + rest, sub, i) <==> OccursAt(line, sub, i)
  {
    var s := line + "\n" + rest;
    if i + |sub| <= |line| {
      assert s[i..i + |sub|] == line[i..i + |sub|];
    } else if i + |sub| <= |s| {
      assert s[i..i + |sub|][|line| - i] == '\n';
      assert forall k :: 0 <= k < |sub| ==> sub[k] in sub;
    }
  }

  lemma WordInLine(line: string, rest: string, sub: string, k: nat)
    requires NewlineFree(sub) && sub != "" && FirstAt(line, sub, k)
    ensures FirstAt(line + "\n" + rest, sub, k)
  {
    forall i: nat | i <= k ensures OccursAt(line + "\n" + rest, sub, i) <==> OccursAt(line, sub, i) {
      OccursInside(line, rest, sub, i);
    }
  }

  /** Behind a line in which it does not occur, a text is found where it is found in the rest. */
  lemma FirstBehind(line: string, rest: string, sub: string, k: nat)
    requires (forall i: nat :: i <= |line| ==> !OccursAt(line + "\n" + rest, sub, i)) && FirstAt(rest, sub, k)
    ensures FirstAt(line + "\n" + rest, sub, |line| + 1 + k)
  {
    OccursBehind(line, rest, sub, k);
    forall i: nat | i < |line| + 1 + k ensures !OccursAt(line + "\n" + rest, sub, i) {
      if i > |line| { OccursBehind(line, rest, sub, i - |line| - 1); }
    }
  }

  lemma AbsentBehind(line: string, rest: string, sub: string)
    requires (forall i: nat :: i <= |line| ==> !OccursAt(line + "\n" + rest, sub, i)) && Absent(rest, sub)
    ensures Absent(line + "\n" + rest, sub)
  {
    forall i: nat ensures !OccursAt(line + "\n" + rest, sub, i) {
      if i > |line| { OccursBehind(line, rest, sub, i - |line| - 1); }
    }
  }

  lemma WordNotInLine(line: string, rest: string, sub: string)
    requires NewlineFree(sub) && sub != "" && Absent(line, sub)
    ensures forall i: nat :: i <= |line| ==> !OccursAt(line + "\n" + rest, sub, i)
  {
    forall i: nat | i <= |line| ensures !OccursAt(line + "\n" + rest, sub, i) {
      OccursInside(line, rest, sub, i);
    }
  }

  /** A text that starts with a line break does not occur before the end of the first line. */
  lemma BreakNotInLine(line: string, rest: string, sub: string)
    requires NewlineFree(line) && sub != "" && sub[0] == '\n'
    ensures forall i: nat :: i < |line| ==> !OccursAt(line + "\n" + rest, sub, i)
  {
    var s := line + "\n" + rest;
    forall i: nat | i < |line| ensures !OccursAt(s, sub, i) {
      assert s[i] == line[i] && line[i] in line;
      if i + |sub| <= |s| { assert s[i..i + |sub|][0] == s[i]; }
    }
  }

  lemma BreakAtLineEnd(line: string, rest: string, sub: string)
    ensures OccursAt(line + "\n" + rest, sub, |line|) <==> sub <= "\n" + rest
  {
    var s := line + "\n" + rest;
    if |sub| <= |rest| + 1 {
      assert s[|line|..|line| + |sub|] == ("\n" + rest)[..|sub|];
    }
  }

  // ------------------------------------------------------------------- where the second fallback inserts

  /** Where line `k` ends in the text. */
  function End(lines: seq<string>, k: nat): nat
    requires k < |lines|
  {
    |Unlines(lines[..k])| + |lines[k]|
  }

  lemma SplitFirst(lines: seq<string>)
    requires lines != []
    ensures Unlines(lines) == lines[0] + "\n" + Unlines(lines[1..])
  {
    assert lines == [lines[0]] + lines[1..];
    UnlinesCons(lines[0], lines[1..]);
  }

  lemma EndShifts(lines: seq<string>, k: nat)
    requires k + 1 < |lines|
    ensures End(lines, k + 1) == |lines[0]| + 1 + End(lines[1..], k)
  {
    SplitFirst(lines[..k + 1]);
    assert lines[..k + 1][1..] == lines[1..][..k];
  }

  lemma {:induction false} MentionAbsent(lines: seq<string>, word: string)
    requires NewlineFree(word) && word != "" && Mention(lines, word) == |lines|
    ensures Absent(Unlines(lines), word)
  {
    if lines != [] {
      var rest := Unlines(lines[1..]);
      SplitFirst(lines);
      assert Mention(lines, word) == 1 + Mention(lines[1..], word);
      MentionAbsent(lines[1..], word);
      FindMeans(lines[0], word);
      WordNotInLine(lines[0], rest, word);
      AbsentBehind(lines[0], rest, word);
    }
  }

  /** Where the word is first mentioned. */
  function MentionPos(lines: seq<string>, word: string): nat
    requires Mention(lines, word) < |lines|
  {
    var u := Mention(lines, word);
    |Unlines(lines[..u])| + Find(lines[u], word).value
  }

  lemma MentionPosShifts(lines: seq<string>, word: string)
    requires Mention(lines, word) < |lines| && !Contains(lines[0], word)
    ensures Mention(lines[1..], word) < |lines[1..]|
    ensures MentionPos(lines, word) == |lines[0]| + 1 + MentionPos(lines[1..], word)
  {
    var u := Mention(lines[1..], word);
    assert Mention(lines, word) == u + 1;
    SplitFirst(lines[..u + 1]);
    assert lines[..u + 1][1..] == lines[1..][..u];
  }

  lemma WordFirstBehind(line: string, rest: string, word: string, k: nat)
    requires NewlineFree(word) && word != "" && !Contains(line, word) && FirstAt(rest, word, k)
    ensures FirstAt(line + "\n" + rest, word, |line| + 1 + k)
  {
    FindMeans(line, word);
    WordNotInLine(line, rest, word);
    FirstBehind(line, rest, word, k);
  }

  lemma WordFirstInside(line: string, rest: string, word: string)
    requires NewlineFree(word) && word != "" && Contains(line, word)
    ensures FirstAt(line + "\n" + rest, word, Find(line, word).value)
  {
    FindMeans(line, word);
    WordInLine(line, rest, word, Find(line, word).value);
  }

  lemma {:induction false} MentionIsFirst(lines: seq<string>, word: string)
    requires NewlineFree(word) && word != "" && Mention(lines, word) < |lines|
    ensures FirstAt(Unlines(lines), word, MentionPos(lines, word))
  {
    SplitFirst(lines);
    if Contains(lines[0], word) {
      assert lines[..0] == [] && MentionPos(lines, word) == Find(lines[0], word).value;
      WordFirstInside(lines[0], Unlines(lines[1..]), word);
    } else {
      MentionPosShifts(lines, word);
      MentionIsFirst(lines[1..], word);
      WordFirstBehind(lines[0], Unlines(lines[1..]), word, MentionPos(lines[1..], word));
    }
  }

  /** The start of a release after a blank line, seen at the line break before them. */
  lemma BreakIsGap(lines: seq<string>)
    requires AreLines(lines) && lines != []
    ensures NEXT_RELEASE <= "\n" + Unlines(lines[1..]) <==> IsGap(lines, 0)
  {
    var rest := lines[1..];
    assert NEXT_RELEASE[1..] == "\n## ";
    assert ("\n" + Unlines(rest))[1..] == Unlines(rest);
    assert NEXT_RELEASE <= "\n" + Unlines(rest) <==> "\n## " <= Unlines(rest);
    if rest != [] {
      SplitFirst(rest);
      BreakStartsBlank(rest[0], Unlines(rest[1..]));
      if |rest| > 1 {
        SplitFirst(rest[1..]);
        HeadingStartsLine(rest[1], Unlines(rest[1..][1..]));
      }
    }
  }

  lemma BreakStartsBlank(line: string, rest: string)
    requires NewlineFree(line)
    ensures "\n## " <= line + "\n" + rest <==> line == "" && "## " <= rest
  {
    var s := line + "\n" + rest;
    if line == "" {
      assert s == "\n" + rest && s[1..] == rest && "\n## "[1..] == "## ";
    } else {
      assert s[0] == line[0] && line[0] in line;
    }
  }

  lemma HeadingStartsLine(line: string, rest: string)
    requires NewlineFree(line)
    ensures "## " <= line + "\n" + rest <==> "## " <= line
  {
    var s := line + "\n" + rest;
    assert s[|line|] == '\n';
    if 3 <= |line| { assert s[..3] == line[..3]; }
  }

  lemma {:induction false} GapAbsent(lines: seq<string>)
    requires AreLines(lines) && Gap(lines).None?
    ensures Absent(Unlines(lines), NEXT_RELEASE)
  {
    if lines != [] {
      var rest := Unlines(lines[1..]);
      SplitFirst(lines);
      GapAbsent(lines[1..]);
      BreakIsGap(lines);
      BreakNotInLine(lines[0], rest, NEXT_RELEASE);
      BreakAtLineEnd(lines[0], rest, NEXT_RELEASE);
      AbsentBehind(lines[0], rest, NEXT_RELEASE);
    }
  }

  lemma {:induction false} GapIsFirst(lines: seq<string>)
    requires AreLines(lines) && Gap(lines).Some?
    ensures FirstAt(Unlines(lines), NEXT_RELEASE, End(lines, Gap(lines).value))
  {
    var rest := Unlines(lines[1..]);
    SplitFirst(lines);
    BreakIsGap(lines);
    BreakNotInLine(lines[0], rest, NEXT_RELEASE);
    BreakAtLineEnd(lines[0], rest, NEXT_RELEASE);
    if IsGap(lines, 0) {
      assert lines[..0] == [];
    } else {
      var g := Gap(lines[1..]).value;
      GapIsFirst(lines[1..]);
      FirstBehind(lines[0], rest, NEXT_RELEASE, End(lines[1..], g));
      EndShifts(lines, g);
    }
  }

  lemma SplitTwo(lines: seq<string>, k: nat)
    requires k <= |lines|
    ensures Unlines(lines) == Unlines(lines[..k]) + Unlines(lines[k..])
  {
    assert lines == lines[..k] + lines[k..];
    UnlinesConcat(lines[..k], lines[k..]);
  }

  lemma Regroup(head: string, line: string, tail: string)
    ensures head + (line + "\n" + tail) == head + line + "\n" + tail == (head + line) + ("\n" + tail)
  {
  }

  lemma SplitAt(lines: seq<string>, k: nat)
    requires k < |lines|
    ensures Unlines(lines) == Unlines(lines[..k]) + lines[k] + "\n" + Unlines(lines[k + 1..])
    ensures Unlines(lines) == (Unlines(lines[..k]) + lines[k]) + ("\n" + Unlines(lines[k + 1..]))
  {
    SplitTwo(lines, k);
    var back := lines[k..];
    assert back[0] == lines[k] && back[1..] == lines[k + 1..];
    SplitFirst(back);
    Regroup(Unlines(lines[..k]), lines[k], Unlines(lines[k + 1..]));
  }

  /** Gaps and line ends do not depend on what the first line holds. */
  lemma GapIgnoresFirst(lines: seq<string>, tail: string)
    requires lines != []
    ensures
      var cut := [tail] + lines[1..];
      && Gap(cut) == Gap(lines)
      && forall k :: 0 <= k < |lines| ==> End(cut, k) + |lines[0]| == End(lines, k) + |tail|
  {
    var cut := [tail] + lines[1..];
    assert forall i: nat :: IsGap(cut, i) == IsGap(lines, i);
    assert cut[1..] == lines[1..];
    forall k | 0 <= k < |lines| ensures End(cut, k) + |lines[0]| == End(lines, k) + |tail| {
      if k == 0 {
        assert cut[..0] == [] == lines[..0];
      } else {
        EndShifts(lines, k - 1);
        EndShifts(cut, k - 1);
      }
    }
  }

  lemma EndFrom(lines: seq<string>, u: nat, k: nat)
    requires u + k < |lines|
    ensures End(lines, u + k) == |Unlines(lines[..u])| + End(lines[u..], k)
  {
    assert lines[..u + k] == lines[..u] + lines[u..][..k];
    UnlinesConcat(lines[..u], lines[u..][..k]);
  }

  lemma DropFrom(head: string, line: string, tail: string, x: nat)
    requires x <= |line|
    ensures (head + line + "\n" + tail)[|head| + x..] == line[x..] + "\n" + tail
  {
  }

  /** The text from a point inside line `u` on. */
  lemma TextFrom(lines: seq<string>, u: nat, x: nat)
    requires u < |lines| && x <= |lines[u]|
    ensures |Unlines(lines[..u])| + x <= |Unlines(lines)|
    ensures Unlines(lines)[|Unlines(lines[..u])| + x..] == Unlines([lines[u][x..]] + lines[u..][1..])
  {
    SplitAt(lines, u);
    DropFrom(Unlines(lines[..u]), lines[u], Unlines(lines[u + 1..]), x);
    assert lines[u..][1..] == lines[u + 1..];
    UnlinesCons(lines[u][x..], lines[u + 1..]);
  }

  lemma CutIsLines(lines: seq<string>, u: nat, x: nat)
    requires AreLines(lines) && u < |lines| && x <= |lines[u]|
    ensures AreLines([lines[u][x..]] + lines[u..][1..])
  {
    var cut := [lines[u][x..]] + lines[u..][1..];
    assert lines[u] in lines;
    forall l | l in cut ensures NewlineFree(l) {
      if l != lines[u][x..] { assert l in lines; }
    }
  }

  /** From a point inside line `u` on, no release follows a blank line if there is no gap. */
  lemma NoGapFrom(lines: seq<string>, u: nat, x: nat)
    requires AreLines(lines) && u < |lines| && x <= |lines[u]| && Gap(lines[u..]).None?
    ensures |Unlines(lines[..u])| + x <= |Unlines(lines)|
    ensures Absent(Unlines(lines)[|Unlines(lines[..u])| + x..], NEXT_RELEASE)
  {
    CutIsLines(lines, u, x);
    GapIgnoresFirst(lines[u..], lines[u][x..]);
    GapAbsent([lines[u][x..]] + lines[u..][1..]);
    TextFrom(lines, u, x);
  }

  /** The position of the gap counted from a point inside line `u`. */
  lemma GapFrom(lines: seq<string>, u: nat, x: nat)
    requires u < |lines| && x <= |lines[u]| && Gap(lines[u..]).Some?
    ensures
      var cut := [lines[u][x..]] + lines[u..][1..];
      var g := Gap(lines[u..]).value;
      Gap(cut) == Some(g) && |Unlines(lines[..u])| + x + End(cut, g) == End(lines, u + g)
  {
    GapIgnoresFirst(lines[u..], lines[u][x..]);
    EndFrom(lines, u, Gap(lines[u..]).value);
  }

  /** Otherwise the first one follows the end of the line before the gap. */
  lemma FirstGapFrom(lines: seq<string>, u: nat, x: nat)
    requires AreLines(lines) && u < |lines| && x <= |lines[u]| && Gap(lines[u..]).Some?
    ensures
      var p := |Unlines(lines[..u])| + x;
      var e := End(lines, u + Gap(lines[u..]).value);
      p <= e && p <= |Unlines(lines)| && FirstAt(Unlines(lines)[p..], NEXT_RELEASE, e - p)
  {
    var cut, g := [lines[u][x..]] + lines[u..][1..], Gap(lines[u..]).value;
    GapFrom(lines, u, x);
    assert FirstAt(Unlines(cut), NEXT_RELEASE, End(cut, g)) by {
      CutIsLines(lines, u, x);
      GapIsFirst(cut);
    }
    assert |Unlines(lines[..u])| + x <= |Unlines(lines)|
           && Unlines(lines)[|Unlines(lines[..u])| + x..] == Unlines(cut) by {
      TextFrom(lines, u, x);
    }
  }

  /** Where the second fallback inserts into a text: before the first release after Unreleased, or at the end. */
  ghost predicate InsertPoint(text: string, p: nat, pos: nat) {
    && FirstAt(text, UNRELEASED, p) && p <= pos <= |text|
    && (FirstAt(text[p..], NEXT_RELEASE, pos - p) || (pos == |text| && Absent(text[p..], NEXT_RELEASE)))
  }

  lemma UnreleasedEndIs(text: string, p: nat, pos: nat)
    requires InsertPoint(text, p, pos)
    ensures Contains(text, UNRELEASED) && UnreleasedEnd(text) == pos
  {
    FindIsFirst(text, UNRELEASED, p);
    if FirstAt(text[p..], NEXT_RELEASE, pos - p) {
      FindIsFirst(text[p..], NEXT_RELEASE, pos - p);
    } else {
      FindIsNone(text[p..], NEXT_RELEASE);
    }
  }

  lemma FallbackInsertsAt(text: string, p: nat, pos: nat, c: Category, entry: string)
    requires InsertPoint(text, p, pos)
    ensures Fallback(text, c, entry) == InsertStr(text, pos, Header(c) + "\n" + entry + "\n")
  {
    UnreleasedEndIs(text, p, pos);
  }

  lemma UnreleasedStarts(lines: seq<string>) returns (x: nat)
    requires Unreleased(lines) < |lines|
    ensures x <= |lines[Unreleased(lines)]|
    && FirstAt(Unlines(lines), UNRELEASED, |Unlines(lines[..Unreleased(lines)])| + x)
  {
    var u := Unreleased(lines);
    x := Find(lines[u], UNRELEASED).value;
    assert NewlineFree(UNRELEASED);
    MentionIsFirst(lines, UNRELEASED);
    FindMeans(lines[u], UNRELEASED);
  }

  /** The end of the line before the gap, or of the text. */
  function LineEnd(lines: seq<string>): nat {
    var u := Unreleased(lines);
    var g := Gap(lines[u..]);
    if g.None? then |Unlines(lines)| else End(lines, u + g.value)
  }

  lemma InsertPointOnLines(lines: seq<string>) returns (p: nat)
    requires AreLines(lines) && Unreleased(lines) < |lines|
    ensures InsertPoint(Unlines(lines), p, LineEnd(lines))
  {
    var x := UnreleasedStarts(lines);
    p := |Unlines(lines[..Unreleased(lines)])| + x;
    if Gap(lines[Unreleased(lines)..]).None? {
      NoGapFrom(lines, Unreleased(lines), x);
    } else {
      InsertPointAtGap(lines, p, x);
    }
  }

  lemma InsertPointAtGap(lines: seq<string>, p: nat, x: nat)
    requires AreLines(lines) && Unreleased(lines) < |lines| && x <= |lines[Unreleased(lines)]|
    requires Gap(lines[Unreleased(lines)..]).Some? && p == |Unlines(lines[..Unreleased(lines)])| + x
    requires FirstAt(Unlines(lines), UNRELEASED, p)
    ensures InsertPoint(Unlines(lines), p, LineEnd(lines))
  {
    FirstGapFrom(lines, Unreleased(lines), x);
    SectionFits(lines, Unreleased(lines) + Gap(lines[Unreleased(lines)..]).value);
  }

  lemma SectionFits(lines: seq<string>, k: nat)
    requires k < |lines|
    ensures End(lines, k) <= |Unlines(lines)|
  {
    SplitAt(lines, k);
  }

  lemma SectionAtEnd(lines: seq<string>, h: string, entry: string)
    ensures Unlines(lines) + (h + "\n" + entry + "\n") == Unlines(lines + [h, entry])
  {
    UnlinesSnoc(lines, h);
    UnlinesSnoc(lines + [h], entry);
    assert lines + [h] + [entry] == lines + [h, entry];
  }

  lemma InsertBetween(before: string, rest: string, x: string)
    ensures InsertStr(before + rest, |before|, x) == before + x + rest
  {
    assert (before + rest)[..|before|] == before && (before + rest)[|before|..] == rest;
  }

  lemma GapText(lines: seq<string>, k: nat, h: string, entry: string)
    requires k < |lines|
    ensures Unlines(lines[..k] + [lines[k] + h, entry, ""] + lines[k + 1..])
         == Unlines(lines[..k]) + (lines[k] + h + "\n" + entry + "\n" + "\n") + Unlines(lines[k + 1..])
  {
    var mid := [lines[k] + h, entry, ""];
    UnlinesConcat(lines[..k] + mid, lines[k + 1..]);
    UnlinesConcat(lines[..k], mid);
    UnlinesThree(lines[k] + h, entry, "");
    assert lines[k] + h + "\n" + entry + "\n" + "" + "\n" == lines[k] + h + "\n" + entry + "\n" + "\n";
  }

  lemma SectionAtGap(lines: seq<string>, k: nat, h: string, entry: string)
    requires k < |lines|
    ensures End(lines, k) <= |Unlines(lines)|
    ensures InsertStr(Unlines(lines), End(lines, k), h + "\n" + entry + "\n")
         == Unlines(lines[..k] + [lines[k] + h, entry, ""] + lines[k + 1..])
  {
    var head, line, tail := Unlines(lines[..k]), lines[k], Unlines(lines[k + 1..]);
    SplitAt(lines, k);
    InsertBetween(head + line, "\n" + tail, h + "\n" + entry + "\n");
    GapText(lines, k, h, entry);
    RegroupSection(head, line, h, entry, tail);
  }

  lemma RegroupSection(head: string, line: string, h: string, entry: string, tail: string)
    ensures (head + line) + (h + "\n" + entry + "\n") + ("\n" + tail)
         == head + (line + h + "\n" + entry + "\n" + "\n") + tail
  {
  }

  lemma UnlinesThree(a: string, b: string, c: string)
    ensures Unlines([a, b, c]) == a + "\n" + b + "\n" + c + "\n"
  {
    assert Unlines([a]) == a + "\n" by {
      UnlinesSnoc([], a);
      assert [] + [a] == [a];
    }
    assert Unlines([a, b]) == a + "\n" + b + "\n" by {
      UnlinesSnoc([a], b);
      assert [a] + [b] == [a, b];
    }
    UnlinesSnoc([a, b], c);
    assert [a, b] + [c] == [a, b, c];
  }

  lemma SectionOnLinesAtEnd(lines: seq<string>, h: string, entry: string)
    requires Gap(lines[Unreleased(lines)..]).None?
    ensures InsertStr(Unlines(lines), LineEnd(lines), h + "\n" + entry + "\n")
         == Unlines(FallbackLines(lines, h, entry))
  {
    SectionAtEnd(lines, h, entry);
    InsertAtEnd(Unlines(lines), h + "\n" + entry + "\n");
  }

  lemma SectionOnLinesAtGap(lines: seq<string>, h: string, entry: string)
    requires Gap(lines[Unreleased(lines)..]).Some?
    ensures LineEnd(lines) <= |Unlines(lines)|
    ensures InsertStr(Unlines(lines), LineEnd(lines), h + "\n" + entry + "\n")
         == Unlines(FallbackLines(lines, h, entry))
  {
    SectionAtGap(lines, Unreleased(lines) + Gap(lines[Unreleased(lines)..]).value, h, entry);
  }

  lemma SectionOnLines(lines: seq<string>, h: string, entry: string)
    ensures LineEnd(lines) <= |Unlines(lines)|
    ensures InsertStr(Unlines(lines), LineEnd(lines), h + "\n" + entry + "\n")
         == Unlines(FallbackLines(lines, h, entry))
  {
    if Gap(lines[Unreleased(lines)..]).None? {
      SectionOnLinesAtEnd(lines, h, entry);
    } else {
      SectionOnLinesAtGap(lines, h, entry);
    }
  }

  lemma InsertAtEnd(s: string, x: string)
    ensures InsertStr(s, |s|, x) == s + x
  {
  }

  lemma FallbackOnLines(lines: seq<string>, c: Category, entry: string)
    requires AreLines(lines) && Unreleased(lines) < |lines|
    ensures Fallback(Unlines(lines), c, entry) == Unlines(FallbackLines(lines, Header(c), entry))
  {
    var text, pos := Unlines(lines), LineEnd(lines);
    SectionOnLines(lines, Header(c), entry);
    assert Fallback(text, c, entry) == InsertStr(text, pos, Header(c) + "\n" + entry + "\n") by {
      var p := InsertPointOnLines(lines);
      FallbackInsertsAt(text, p, pos, c, entry);
    }
  }

  /** No section header that the main loop would use. */
  ghost predicate NoTarget(lines: seq<string>, c: Category) {
    forall i :: 0 <= i < |lines| - 1 && lines[i] == Header(c) && InUnreleased(lines, i + 1) ==> "### " <= lines[i + 1]
  }

  /** The line the new header is written to: the one before the gap, or a new one at the end. */
  function HeaderLine(lines: seq<string>): nat {
    var u := Unreleased(lines);
    var g := Gap(lines[u..]);
    if g.None? then |lines| else u + g.value
  }

  /**
   For every file without a usable section that mentions Unreleased: the new header gets a line of its own
   exactly when no release follows a blank line after Unreleased, or the line before that blank line is blank
   too. Otherwise the header is glued to that line.
   */
  lemma FallbackHeaderStartsLineIff(content: string, c: Category, entry: string, lines: seq<string>)
    requires lines == DropBlank(Lines(content)) && NoTarget(Lines(content), c) && Unreleased(lines) < |lines|
    ensures
      var out := FallbackLines(lines, Header(c), entry);
      var at := HeaderLine(lines);
      && Inserted(content, c, entry) == Unlines(out)
      && at + 1 < |out| && out[..at] == lines[..at] && out[at + 1] == entry
      && (out[at] == Header(c) <==> Gap(lines[Unreleased(lines)..]).None? || lines[at] == "")
      && (Gap(lines[Unreleased(lines)..]).Some? ==> IsGap(lines, at) && out[at] == lines[at] + Header(c))
  {
    WithoutTargetFallsBack(content, c, entry, Lines(content));
    FallbackOnLines(lines, c, entry);
    HeaderInFallback(lines, c, entry);
  }

  lemma HeaderInFallback(lines: seq<string>, c: Category, entry: string)
    requires Unreleased(lines) < |lines|
    ensures
      var out := FallbackLines(lines, Header(c), entry);
      var at := HeaderLine(lines);
      && at + 1 < |out| && out[..at] == lines[..at] && out[at + 1] == entry
      && (out[at] == Header(c) <==> Gap(lines[Unreleased(lines)..]).None? || lines[at] == "")
      && (Gap(lines[Unreleased(lines)..]).Some? ==> IsGap(lines, at) && out[at] == lines[at] + Header(c))
  {
    var g := Gap(lines[Unreleased(lines)..]);
    if g.Some? {
      var k := HeaderLine(lines);
      assert |lines[k] + Header(c)| == |lines[k]| + |Header(c)|;
      if lines[k] == "" { assert lines[k] + Header(c) == Header(c); }
    }
  }

  /** The usual layout: one blank line before the next release. */
  function OneRelease(last: string, release: string): seq<string> {
    [UNRELEASED, last, "", "## " + release]
  }

  predicate PlainLine(line: string) {
    NewlineFree(line) && StripCr(line) == line
  }

  lemma OneReleaseReadsBack(last: string, release: string)
    requires PlainLine(last) && PlainLine("## " + release)
    ensures
      var lines := OneRelease(last, release);
      Lines(Unlines(lines)) == lines && DropBlank(lines) == lines && AreLines(lines)
  {
    var lines := OneRelease(last, release);
    assert NewlineFree(UNRELEASED);
    assert AreLines(lines);
    LinesOfUnlines(lines);
    StrippedSame(lines);
    assert lines[3][0] == '#';
  }

  lemma OneReleaseGap(last: string, release: string)
    requires last != ""
    ensures var lines := OneRelease(last, release); Unreleased(lines) == 0 && Gap(lines[0..]) == Some(1)
  {
    var lines := OneRelease(last, release);
    WholeContainsItself(UNRELEASED);
    assert lines[0] == UNRELEASED && lines[0..] == lines;
    assert ("## " + release)[..3] == "## ";
    assert IsGap(lines, 1) && !IsGap(lines, 0);
  }

  lemma OneReleaseHasNoTarget(last: string, release: string, c: Category)
    requires last != Header(c)
    ensures NoTarget(OneRelease(last, release), c)
  {
    var h := Header(c);
    assert h[2] == '#' && UNRELEASED[2] == ' ';
  }

  /** In the usual layout a new section is glued to the last line above: adding an entry spoils that line. */
  lemma GluedHeader(last: string, release: string, call: Call)
    requires PlainLine(last) && PlainLine("## " + release) && last != "" && last != Header(call.category)
    requires !Contains(Unlines(OneRelease(last, release)), Entry(call.text, call.pr))
    ensures
      var file := Some(Unlines(OneRelease(last, release)));
      var entry := Entry(call.text, call.pr);
      AfterAdd(file, call) == Some(Unlines([UNRELEASED, last + Header(call.category), entry, "", "", "## " + release]))
  {
    GluedLines(last, release, call.category, Entry(call.text, call.pr));
  }

  lemma GluedLines(last: string, release: string, c: Category, entry: string)
    requires PlainLine(last) && PlainLine("## " + release) && last != "" && last != Header(c)
    ensures Inserted(Unlines(OneRelease(last, release)), c, entry)
         == Unlines([UNRELEASED, last + Header(c), entry, "", "", "## " + release])
  {
    var lines := OneRelease(last, release);
    OneReleaseReadsBack(last, release);
    OneReleaseGap(last, release);
    OneReleaseHasNoTarget(last, release, c);
    FallbackHeaderStartsLineIff(Unlines(lines), c, entry, lines);
    GluedFallback(last, release, Header(c), entry);
  }

  lemma GluedFallback(last: string, release: string, header: string, entry: string)
    requires last != ""
    ensures FallbackLines(OneRelease(last, release), header, entry)
         == [UNRELEASED, last + header, entry, "", "", "## " + release]
  {
    OneReleaseGap(last, release);
  }
}
