/**
 The rework directive VESSEL writes (`build_directive`) and the field NEXUS reads back
 from it (`directive_pr_number`).
 */
module Directive {
  import opened Text

  const U64_LIMIT: nat := 0x1_0000_0000_0000_0000

  datatype MonitorState =
    Conflicts | CiFailed | CiRunning | ChangesRequested | Comments | NeedsReview | Approved | ReadyForMerge

  function StateName(state: MonitorState): string {
    match state
    case Conflicts => "conflicts"
    case CiFailed => "ci_failed"
    case CiRunning => "ci_running"
    case ChangesRequested => "changes_requested"
    case Comments => "comments"
    case NeedsReview => "needs_review"
    case Approved => "approved"
    case ReadyForMerge => "ready_for_merge"
  }

  const FOOTER :=
    "\nFetch the full review context (inline comments / conflicted files) for this PR and address them, "
    + "then re-run: openflows-harness status set testing"

  const HEAD := "/address_review"

  function StateLine(state: MonitorState): string {
    "state: " + StateName(state)
  }

  function PrLine(pr: nat): string {
    "pr: " + Decimal(pr)
  }

  function Tail(reason: Option<string>): string {
    (if reason.Some? && Trim(reason.value) != "" then "reason: " + Trim(reason.value) + "\n" else "") + FOOTER
  }

  function Build(state: MonitorState, pr: nat, reason: Option<string>): string {
    HEAD + "\n" + (StateLine(state) + "\n" + (PrLine(pr) + "\n" + Tail(reason)))
  }

  function LinePrNumber(line: string): Option<nat> {
    var l := Trim(line);
    if "pr:" <= l then ParseUnsigned(Trim(l[3..]), U64_LIMIT)
    else if "pr :" <= l then ParseUnsigned(Trim(l[4..]), U64_LIMIT)
    else None
  }

  /** The first line that names a pull request, if any. */
  function FirstPrNumber(lines: seq<string>): Option<nat> {
    if lines == [] then None
    else if LinePrNumber(lines[0]).Some? then LinePrNumber(lines[0])
    else FirstPrNumber(lines[1..])
  }

  function PrNumber(directive: string): Option<nat> {
    FirstPrNumber(Lines(directive))
  }

  lemma TrimKeeps(s: string)
    requires s != "" && !IsWhite(s[0]) && !IsWhite(s[|s| - 1])
    ensures Trim(s) == s
  {
  }

  lemma HeadIsSkipped()
    ensures NewlineFree(HEAD) && StripCr(HEAD) == HEAD && LinePrNumber(HEAD) == None
  {
    TrimKeeps(HEAD);
    assert HEAD[0] == '/';
  }

  lemma StateNameIsPlain(state: MonitorState)
    ensures StateName(state) != "" && NewlineFree(StateName(state))
    ensures !IsWhite(StateName(state)[|StateName(state)| - 1])
  {
  }

  lemma StateLineIsPlain(state: MonitorState)
    ensures NewlineFree(StateLine(state)) && StripCr(StateLine(state)) == StateLine(state)
    ensures StateLine(state)[0] == 's' && !IsWhite(StateLine(state)[|StateLine(state)| - 1])
  {
    StateNameIsPlain(state);
    var line, name := StateLine(state), StateName(state);
    assert line[|line| - 1] == name[|name| - 1];
  }

  lemma StateLineIsSkipped(state: MonitorState)
    ensures LinePrNumber(StateLine(state)) == None
  {
    StateLineIsPlain(state);
    TrimKeeps(StateLine(state));
  }

  lemma PrLineIsPlain(pr: nat)
    ensures NewlineFree(PrLine(pr)) && StripCr(PrLine(pr)) == PrLine(pr)
    ensures !IsWhite(PrLine(pr)[|PrLine(pr)| - 1])
  {
    var d := Decimal(pr);
    assert d[|d| - 1] in d && PrLine(pr)[|PrLine(pr)| - 1] == d[|d| - 1];
  }

  /** A blank before a number is trimmed away. */
  lemma NumberParses(pr: nat)
    requires pr < U64_LIMIT
    ensures ParseUnsigned(Trim(" " + Decimal(pr)), U64_LIMIT) == Some(pr)
  {
    var d := Decimal(pr);
    assert d[|d| - 1] in d && d[0] in d && (" " + d)[1..] == d;
    TrimKeeps(d);
    ParseOfDecimal(pr, U64_LIMIT);
  }

  lemma PrLineParses(pr: nat)
    requires pr < U64_LIMIT
    ensures LinePrNumber(PrLine(pr)) == Some(pr)
  {
    var line := PrLine(pr);
    PrLineIsPlain(pr);
    TrimKeeps(line);
    NumberParses(pr);
    assert line[..3] == "pr:" && line[3..] == " " + Decimal(pr);
  }

  lemma ThirdLineDecides(a: string, b: string, c: string, rest: string)
    requires NewlineFree(a) && NewlineFree(b) && NewlineFree(c)
    requires StripCr(a) == a && StripCr(b) == b && StripCr(c) == c
    requires LinePrNumber(a) == None && LinePrNumber(b) == None && LinePrNumber(c).Some?
    ensures PrNumber(a + "\n" + (b + "\n" + (c + "\n" + rest))) == LinePrNumber(c)
  {
    var fromC := c + "\n" + rest;
    var fromB := b + "\n" + fromC;
    LinesCons(c, rest);
    LinesCons(b, fromC);
    LinesCons(a, fromB);
    assert FirstPrNumber(Lines(fromC)) == LinePrNumber(c);
    assert Lines(fromB)[0] == b && Lines(fromB)[1..] == Lines(fromC);
    assert FirstPrNumber(Lines(fromB)) == LinePrNumber(c);
    var all := a + "\n" + fromB;
    assert Lines(all)[0] == a && Lines(all)[1..] == Lines(fromB);
    assert PrNumber(all) == LinePrNumber(c);
  }

  /**
   NEXUS recovers the pull request VESSEL meant, whatever the state and whatever the
   reviewer wrote in the reason, including text that itself looks like a `pr:` line.
   */
  lemma RoundTrip(state: MonitorState, pr: nat, reason: Option<string>)
    requires pr < U64_LIMIT
    ensures PrNumber(Build(state, pr, reason)) == Some(pr)
  {
    HeadIsSkipped();
    StateLineIsPlain(state);
    StateLineIsSkipped(state);
    PrLineIsPlain(pr);
    PrLineParses(pr);
    ThirdLineDecides(HEAD, StateLine(state), PrLine(pr), Tail(reason));
  }

  /** A hand-written directive may put a blank before the colon. */
  lemma SpacedPrLineParses(pr: nat)
    requires pr < U64_LIMIT
    ensures LinePrNumber("pr : " + Decimal(pr)) == Some(pr)
  {
    var line := "pr : " + Decimal(pr);
    PrLineIsPlain(pr);
    assert line[|line| - 1] == PrLine(pr)[|PrLine(pr)| - 1];
    TrimKeeps(line);
    NumberParses(pr);
    assert line[2] == ' ' && line[..4] == "pr :" && line[4..] == " " + Decimal(pr);
  }

  /** What FORGE reads: the command, the state, the pull request, and the reason if one line says it. */
  lemma DirectiveLines(state: MonitorState, pr: nat, reason: string)
    requires NewlineFree(reason) && Trim(reason) != ""
    ensures
      var lines := Lines(Build(state, pr, Some(reason)));
      |lines| > 3 && lines[..4] == [HEAD, StateLine(state), PrLine(pr), "reason: " + Trim(reason)]
  {
    TrimIsPart(reason);
    HeadIsSkipped();
    StateLineIsPlain(state);
    PrLineIsPlain(pr);
    TailWithReason(reason);
    FourLines(HEAD, StateLine(state), PrLine(pr), "reason: " + Trim(reason), FOOTER);
  }

  lemma TailWithReason(reason: string)
    requires Trim(reason) != ""
    ensures Tail(Some(reason)) == "reason: " + Trim(reason) + "\n" + FOOTER
  {
  }

  lemma FourLines(a: string, b: string, c: string, d: string, rest: string)
    requires NewlineFree(a) && NewlineFree(b) && NewlineFree(c) && NewlineFree(d)
    ensures
      var lines := Lines(a + "\n" + (b + "\n" + (c + "\n" + (d + "\n" + rest))));
      |lines| > 3 && lines[..4] == [StripCr(a), StripCr(b), StripCr(c), StripCr(d)]
  {
    LinesCons(d, rest);
    LinesCons(c, d + "\n" + rest);
    LinesCons(b, c + "\n" + (d + "\n" + rest));
    LinesCons(a, b + "\n" + (c + "\n" + (d + "\n" + rest)));
  }

  lemma TrimIsPart(s: string)
    requires NewlineFree(s) && Trim(s) != ""
    ensures NewlineFree("reason: " + Trim(s)) && StripCr("reason: " + Trim(s)) == "reason: " + Trim(s)
  {
    StartIsPart(s);
    EndIsPart(TrimStart(s));
    var t := Trim(s);
    assert ("reason: " + t)[|"reason: " + t| - 1] == t[|t| - 1];
  }

  lemma {:induction false} StartIsPart(s: string)
    ensures forall c :: c in TrimStart(s) ==> c in s
  {
    if s != "" && IsWhite(s[0]) { StartIsPart(s[1..]); }
  }

  lemma {:induction false} EndIsPart(s: string)
    ensures forall c :: c in TrimEnd(s) ==> c in s
    ensures TrimEnd(s) != "" ==> !IsWhite(TrimEnd(s)[|TrimEnd(s)| - 1])
  {
    if s != "" && IsWhite(s[|s| - 1]) { EndIsPart(s[..|s| - 1]); }
  }

  /** Two states are never named alike. */
  lemma StateNamesDiffer(a: MonitorState, b: MonitorState)
    requires StateName(a) == StateName(b)
    ensures a == b
  {
  }
}
