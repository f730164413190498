/**
 The pending-PR synchroniser: refreshes the tracked pull requests, adds the admitted untracked ones, drops
 those no longer open, and writes the list back only when a flag says that it changed.
 */
module PendingPrs {
  import opened Text

  datatype Pr = Pr(
    number: nat, ticket: Option<string>, head: string, mergeable: Option<bool>, conflicts: bool,
    branch: string, base: string, title: string)

  /** A stored JSON object; a field that is absent or of another type reads as None. */
  datatype Entry = Entry(
    number: Option<nat>, ticket: Option<string>, head: Option<string>, mergeable: Option<bool>, conflicts: Option<bool>,
    branch: string, base: string, title: string)

  /** The store's verdict on a pull request: may it be looked at, and may it be added when untracked. */
  datatype Rules = Rules(discover: Pr -> bool, admit: Pr -> bool)

  function EntryOf(pr: Pr): Entry {
    Entry(Some(pr.number), pr.ticket, Some(pr.head), pr.mergeable, Some(pr.conflicts), pr.branch, pr.base, pr.title)
  }

  predicate UpToDate(e: Entry, pr: Pr) {
    e.head == Some(pr.head) && e.mergeable == pr.mergeable && e.conflicts == Some(pr.conflicts)
  }

  function Refreshed(e: Entry, pr: Pr): Entry {
    e.(head := Some(pr.head), mergeable := pr.mergeable, conflicts := Some(pr.conflicts))
  }

  /** The position of the first entry with the number, or the length. */
  function FirstWith(list: seq<Entry>, number: nat): (k: nat)
    ensures k <= |list|
    ensures k < |list| ==> list[k].number == Some(number)
    ensures forall i :: 0 <= i < k ==> list[i].number != Some(number)
  {
    if list == [] || list[0].number == Some(number) then 0 else 1 + FirstWith(list[1..], number)
  }

  predicate Tracks(list: seq<Entry>, number: nat) {
    FirstWith(list, number) < |list|
  }

  predicate HasTicket(list: seq<Entry>, ticket: Option<string>) {
    ticket.Some? && exists i :: 0 <= i < |list| && list[i].ticket == ticket
  }

  predicate IsOpen(gh: seq<Pr>, number: nat) {
    exists i :: 0 <= i < |gh| && gh[i].number == number
  }

  // ------------------------------------------------------------------- one pass as functions

  datatype Pass = Pass(list: seq<Entry>, updated: bool)

  /** `stored` fixes which numbers were tracked before the pass. */
  function Visit(stored: seq<Entry>, p: Pass, pr: Pr, rules: Rules): Pass {
    if !rules.discover(pr) then p
    else if Tracks(stored, pr.number) then
      var k := FirstWith(p.list, pr.number);
      if k < |p.list| && !UpToDate(p.list[k], pr) then Pass(p.list[k := Refreshed(p.list[k], pr)], true) else p
    else if HasTicket(p.list, pr.ticket) || !rules.admit(pr) then p
    else p.(list := p.list + [EntryOf(pr)])
  }

  function Visited(stored: seq<Entry>, gh: seq<Pr>, k: nat, rules: Rules): Pass
    requires k <= |gh|
  {
    if k == 0 then Pass(stored, false) else Visit(stored, Visited(stored, gh, k - 1, rules), gh[k - 1], rules)
  }

  predicate Stays(e: Entry, gh: seq<Pr>) {
    e.number.Some? && e.number.value != 0 && IsOpen(gh, e.number.value)
  }

  function Retained(list: seq<Entry>, gh: seq<Pr>): seq<Entry> {
    if list == [] then []
    else Retained(list[..|list| - 1], gh) + (if Stays(list[|list| - 1], gh) then [list[|list| - 1]] else [])
  }

  function Numbered(list: seq<Entry>): nat {
    if list == [] then 0 else Numbered(list[..|list| - 1]) + if list[|list| - 1].number.Some? then 1 else 0
  }

  function Synced(stored: seq<Entry>, gh: seq<Pr>, rules: Rules): seq<Entry> {
    Retained(Visited(stored, gh, |gh|, rules).list, gh)
  }

  predicate Changed(stored: seq<Entry>, gh: seq<Pr>, rules: Rules) {
    var p := Visited(stored, gh, |gh|, rules);
    var kept := Retained(p.list, gh);
    |kept| != Numbered(stored) || |kept| != |p.list| || p.updated
  }

  // ------------------------------------------------------------------- the synchroniser

  class Tracker {
    var stored: seq<Entry>

    constructor ()
      ensures stored == []
    {
      stored := [];
    }

    /** `sync_open_prs`: although an unchanged list is not written, the store always holds the computed list. */
    method Sync(gh: seq<Pr>, rules: Rules) returns (changed: bool)
      modifies this
      ensures changed == Changed(old(stored), gh, rules)
      ensures stored == Synced(old(stored), gh, rules)
    {
      var pending := stored;
      var known := KnownNumbers(pending);
      var updated := false;
      var i := 0;
      while i < |gh|
        invariant i <= |gh|
        invariant stored == old(stored)
        invariant Pass(pending, updated) == Visited(stored, gh, i, rules)
      {
        var pr := gh[i];
        i := i + 1;
        if !rules.discover(pr) { continue; }
        if pr.number in known {
          var k := FindNumber(pending, pr.number);
          if k < |pending| && !UpToDate(pending[k], pr) {
            pending := pending[k := Refreshed(pending[k], pr)];
            updated := true;
          }
        } else {
          if HasTicket(pending, pr.ticket) || !rules.admit(pr) { continue; }
          pending := pending + [EntryOf(pr)];
        }
      }
      var before := |pending|;
      pending := Retain(pending, gh);
      changed := |pending| != |known| || |pending| != before || updated;
      if changed {
        stored := pending;
      } else {
        UnchangedMeansSame(stored, gh, rules);
      }
    }
  }

  method KnownNumbers(list: seq<Entry>) returns (known: seq<nat>)
    ensures |known| == Numbered(list)
    ensures forall n: nat :: n in known <==> Tracks(list, n)
  {
    known := [];
    var i := 0;
    while i < |list|
      invariant i <= |list|
      invariant |known| == Numbered(list[..i])
      invariant forall n: nat :: n in known <==> exists j :: 0 <= j < i && list[j].number == Some(n)
    {
      assert list[..i + 1][..i] == list[..i];
      if list[i].number.Some? { known := known + [list[i].number.value]; }
      i := i + 1;
    }
    assert list[..i] == list;
    forall n: nat ensures Tracks(list, n) <==> exists j :: 0 <= j < |list| && list[j].number == Some(n) {
      if Tracks(list, n) { assert list[FirstWith(list, n)].number == Some(n); }
    }
  }

  method FindNumber(list: seq<Entry>, number: nat) returns (k: nat)
    ensures k == FirstWith(list, number)
  {
    k := 0;
    while k < |list| && list[k].number != Some(number)
      invariant k <= |list|
      invariant k + FirstWith(list[k..], number) == FirstWith(list, number)
    {
      assert list[k..][1..] == list[k + 1..];
      k := k + 1;
    }
  }

  method Retain(list: seq<Entry>, gh: seq<Pr>) returns (kept: seq<Entry>)
    ensures kept == Retained(list, gh)
  {
    kept := [];
    var i := 0;
    while i < |list|
      invariant i <= |list|
      invariant kept == Retained(list[..i], gh)
    {
      assert list[..i + 1][..i] == list[..i];
      if Stays(list[i], gh) { kept := kept + [list[i]]; }
      i := i + 1;
    }
    assert list[..i] == list;
  }

  // ------------------------------------------------------------------- retained entries

  lemma {:induction false} RetainedIff(list: seq<Entry>, gh: seq<Pr>)
    ensures |Retained(list, gh)| <= |list|
    ensures forall e :: e in Retained(list, gh) <==> e in list && Stays(e, gh)
  {
    if list != [] {
      var last := |list| - 1;
      RetainedIff(list[..last], gh);
      assert list == list[..last] + [list[last]];
    }
  }

  lemma {:induction false} RetainedShorter(list: seq<Entry>, gh: seq<Pr>)
    ensures |Retained(list, gh)| <= |list|
  {
    if list != [] {
      RetainedShorter(list[..|list| - 1], gh);
    }
  }

  lemma {:induction false} RetainedAll(list: seq<Entry>, gh: seq<Pr>)
    ensures |Retained(list, gh)| == |list| <==> forall i :: 0 <= i < |list| ==> Stays(list[i], gh)
    ensures |Retained(list, gh)| == |list| ==> Retained(list, gh) == list
  {
    if list != [] {
      var last := |list| - 1;
      RetainedShorter(list[..last], gh);
      RetainedAll(list[..last], gh);
      assert list == list[..last] + [list[last]];
    }
  }

  lemma {:induction false} NumberedAll(list: seq<Entry>)
    ensures Numbered(list) <= |list|
    ensures Numbered(list) == |list| <==> forall i :: 0 <= i < |list| ==> list[i].number.Some?
  {
    if list != [] {
      NumberedAll(list[..|list| - 1]);
    }
  }

  predicate Distinct(list: seq<Entry>) {
    forall i, j :: 0 <= i < j < |list| ==> list[i].number != list[j].number
  }

  predicate OnePerTicket(list: seq<Entry>) {
    forall i, j :: 0 <= i < j < |list| && list[i].ticket.Some? ==> list[i].ticket != list[j].ticket
  }

  lemma {:induction false} RetainedDistinct(list: seq<Entry>, gh: seq<Pr>)
    requires Distinct(list)
    ensures Distinct(Retained(list, gh))
  {
    if list != [] {
      var front, e := list[..|list| - 1], list[|list| - 1];
      RetainedDistinct(front, gh);
      var r := Retained(front, gh);
      forall i | 0 <= i < |r| ensures r[i].number != e.number {
        assert r[i] in front by { RetainedIff(front, gh); }
      }
    }
  }

  lemma {:induction false} RetainedOnePerTicket(list: seq<Entry>, gh: seq<Pr>)
    requires OnePerTicket(list)
    ensures OnePerTicket(Retained(list, gh))
  {
    if list != [] {
      var front, e := list[..|list| - 1], list[|list| - 1];
      RetainedOnePerTicket(front, gh);
      var r := Retained(front, gh);
      forall i | 0 <= i < |r| && e.ticket.Some? ensures r[i].ticket != e.ticket {
        assert r[i] in front by { RetainedIff(front, gh); }
      }
    }
  }

  // ------------------------------------------------------------------- a pass over GitHub's list

  /** GitHub numbers pull requests from one, each once. */
  predicate GoodNumbers(gh: seq<Pr>) {
    && (forall i :: 0 <= i < |gh| ==> gh[i].number != 0)
    && forall i, j :: 0 <= i < j < |gh| ==> gh[i].number != gh[j].number
  }

  predicate SameIdentity(a: Entry, b: Entry) {
    a.number == b.number && a.ticket == b.ticket && a.branch == b.branch && a.base == b.base && a.title == b.title
  }

  /** The tracked part keeps its entries in place; the rest are entries of visited, untracked pull requests. */
  ghost predicate Shape(stored: seq<Entry>, gh: seq<Pr>, k: nat, p: Pass) {
    && k <= |gh| && |stored| <= |p.list|
    && (forall i :: 0 <= i < |stored| ==> SameIdentity(p.list[i], stored[i]))
    && (forall i :: |stored| <= i < |p.list| ==> p.list[i].number.Some? && !Tracks(stored, p.list[i].number.value))
    && (forall i :: |stored| <= i < |p.list| ==> p.list[i].number.Some? && IsOpen(gh[..k], p.list[i].number.value))
  }

  lemma FirstInShape(stored: seq<Entry>, gh: seq<Pr>, k: nat, p: Pass, n: nat)
    requires Shape(stored, gh, k, p)
    ensures Tracks(stored, n) ==> FirstWith(p.list, n) == FirstWith(stored, n)
  {
    if Tracks(stored, n) {
      var f := FirstWith(stored, n);
      assert SameIdentity(p.list[f], stored[f]);
      assert forall i :: 0 <= i < f ==> SameIdentity(p.list[i], stored[i]);
    }
  }

  /** What holds before the first visit and is kept by every visit holds after any number of visits. */
  lemma {:induction false} ByVisits(stored: seq<Entry>, gh: seq<Pr>, k: nat, rules: Rules, good: (nat, Pass) -> bool)
    requires k <= |gh| && good(0, Pass(stored, false))
    requires forall i: nat, p: Pass :: i < |gh| && good(i, p) ==> good(i + 1, Visit(stored, p, gh[i], rules))
    ensures good(k, Visited(stored, gh, k, rules))
  {
    if k > 0 {
      ByVisits(stored, gh, k - 1, rules, good);
    }
  }

  lemma VisitKeepsShape(stored: seq<Entry>, gh: seq<Pr>, k: nat, p: Pass, rules: Rules)
    requires k < |gh| && Shape(stored, gh, k, p)
    ensures Shape(stored, gh, k + 1, Visit(stored, p, gh[k], rules))
  {
    var n := Visit(stored, p, gh[k], rules);
    FirstInShape(stored, gh, k, p, gh[k].number);
    OpenGrows(gh, k + 1);
    assert gh[..k + 1][k] == gh[k];
    if Tracks(stored, gh[k].number) {
      assert n.list[|stored|..] == p.list[|stored|..];
    }
  }

  lemma VisitedShape(stored: seq<Entry>, gh: seq<Pr>, k: nat, rules: Rules)
    requires k <= |gh|
    ensures Shape(stored, gh, k, Visited(stored, gh, k, rules))
  {
    forall i: nat, p: Pass | i < |gh| && Shape(stored, gh, i, p)
      ensures Shape(stored, gh, i + 1, Visit(stored, p, gh[i], rules)) {
      VisitKeepsShape(stored, gh, i, p, rules);
    }
    ByVisits(stored, gh, k, rules, (i: nat, p: Pass) => Shape(stored, gh, i, p));
  }

  ghost predicate UpdatedFits(stored: seq<Entry>, gh: seq<Pr>, k: nat, p: Pass) {
    && k <= |gh| && |stored| <= |p.list|
    && (p.updated <==> p.list[..|stored|] != stored)
    && forall i :: 0 <= i < |stored| && p.list[i] != stored[i] ==>
         stored[i].number.Some? && IsOpen(gh[..k], stored[i].number.value)
  }

  /** Refreshing an entry that nothing touched before raises the flag and the difference together. */
  lemma RefreshFits(stored: seq<Entry>, gh: seq<Pr>, k: nat, p: Pass)
    requires k < |gh| && GoodNumbers(gh) && Shape(stored, gh, k, p) && UpdatedFits(stored, gh, k, p)
    requires Tracks(stored, gh[k].number) && !UpToDate(stored[FirstWith(stored, gh[k].number)], gh[k])
    ensures
      var f := FirstWith(p.list, gh[k].number);
      f < |p.list| && UpdatedFits(stored, gh, k + 1, Pass(p.list[f := Refreshed(p.list[f], gh[k])], true))
  {
    FirstInShape(stored, gh, k, p, gh[k].number);
    var f := FirstWith(stored, gh[k].number);
    assert !IsOpen(gh[..k], gh[k].number);
    assert p.list[f] == stored[f];
    var n := p.list[f := Refreshed(p.list[f], gh[k])];
    assert n[..|stored|][f] != stored[f];
    OpenGrows(gh, k + 1);
    assert gh[..k + 1][k] == gh[k];
  }

  lemma VisitFits(stored: seq<Entry>, gh: seq<Pr>, k: nat, p: Pass, rules: Rules)
    requires k < |gh| && GoodNumbers(gh) && Shape(stored, gh, k, p) && UpdatedFits(stored, gh, k, p)
    ensures UpdatedFits(stored, gh, k + 1, Visit(stored, p, gh[k], rules))
  {
    var n := Visit(stored, p, gh[k], rules);
    if n.list != p.list && Tracks(stored, gh[k].number) {
      FirstInShape(stored, gh, k, p, gh[k].number);
      assert !IsOpen(gh[..k], gh[k].number);
      RefreshFits(stored, gh, k, p);
    } else {
      OpenGrows(gh, k + 1);
      assert n.list[..|stored|] == p.list[..|stored|];
    }
  }

  /** The flag set while visiting says exactly whether a tracked entry differs from the stored one. */
  lemma UpdatedIffDiffers(stored: seq<Entry>, gh: seq<Pr>, k: nat, rules: Rules)
    requires k <= |gh| && GoodNumbers(gh)
    ensures UpdatedFits(stored, gh, k, Visited(stored, gh, k, rules))
  {
    forall i: nat, p: Pass | i < |gh| && Shape(stored, gh, i, p) && UpdatedFits(stored, gh, i, p)
      ensures Shape(stored, gh, i + 1, Visit(stored, p, gh[i], rules))
           && UpdatedFits(stored, gh, i + 1, Visit(stored, p, gh[i], rules))
    {
      VisitKeepsShape(stored, gh, i, p, rules);
      VisitFits(stored, gh, i, p, rules);
    }
    ByVisits(stored, gh, k, rules, (i: nat, p: Pass) => Shape(stored, gh, i, p) && UpdatedFits(stored, gh, i, p));
  }

  lemma OpenGrows(gh: seq<Pr>, k: nat)
    requires 0 < k <= |gh|
    ensures forall x: nat :: IsOpen(gh[..k - 1], x) ==> IsOpen(gh[..k], x)
  {
    forall x: nat | IsOpen(gh[..k - 1], x) ensures IsOpen(gh[..k], x) {
      var j :| 0 <= j < |gh[..k - 1]| && gh[..k - 1][j].number == x;
      assert gh[..k][j].number == x;
    }
  }

  /** A number that was neither tracked nor visited is nowhere in the list. */
  lemma NewNumberIsAbsent(stored: seq<Entry>, gh: seq<Pr>, k: nat, p: Pass)
    requires k < |gh| && GoodNumbers(gh) && Shape(stored, gh, k, p) && !Tracks(stored, gh[k].number)
    ensures forall i :: 0 <= i < |p.list| ==> p.list[i].number != Some(gh[k].number)
  {
    forall i | 0 <= i < |p.list| ensures p.list[i].number != Some(gh[k].number) {
      if i < |stored| {
        assert SameIdentity(p.list[i], stored[i]);
      } else {
        assert IsOpen(gh[..k], p.list[i].number.value);
      }
    }
  }

  lemma RefreshKeepsUnique(list: seq<Entry>, f: nat, e: Entry)
    requires f < |list| && e.number == list[f].number && e.ticket == list[f].ticket
    ensures Distinct(list) ==> Distinct(list[f := e])
    ensures OnePerTicket(list) ==> OnePerTicket(list[f := e])
  {
    var n := list[f := e];
    assert forall i :: 0 <= i < |n| ==> n[i].number == list[i].number && n[i].ticket == list[i].ticket;
  }

  lemma VisitKeepsUnique(stored: seq<Entry>, gh: seq<Pr>, k: nat, p: Pass, rules: Rules)
    requires k < |gh| && GoodNumbers(gh) && Shape(stored, gh, k, p)
    ensures Distinct(p.list) ==> Distinct(Visit(stored, p, gh[k], rules).list)
    ensures OnePerTicket(p.list) ==> OnePerTicket(Visit(stored, p, gh[k], rules).list)
  {
    if Tracks(stored, gh[k].number) {
      var f := FirstWith(p.list, gh[k].number);
      if f < |p.list| { RefreshKeepsUnique(p.list, f, Refreshed(p.list[f], gh[k])); }
    } else {
      NewNumberIsAbsent(stored, gh, k, p);
    }
  }

  predicate AsUnique(stored: seq<Entry>, list: seq<Entry>) {
    (Distinct(stored) ==> Distinct(list)) && (OnePerTicket(stored) ==> OnePerTicket(list))
  }

  lemma VisitedKeepsUnique(stored: seq<Entry>, gh: seq<Pr>, k: nat, rules: Rules)
    requires k <= |gh| && GoodNumbers(gh)
    ensures AsUnique(stored, Visited(stored, gh, k, rules).list)
  {
    forall i: nat, p: Pass | i < |gh| && Shape(stored, gh, i, p) && AsUnique(stored, p.list)
      ensures Shape(stored, gh, i + 1, Visit(stored, p, gh[i], rules))
           && AsUnique(stored, Visit(stored, p, gh[i], rules).list)
    {
      VisitKeepsShape(stored, gh, i, p, rules);
      VisitKeepsUnique(stored, gh, i, p, rules);
    }
    ByVisits(stored, gh, k, rules, (i: nat, p: Pass) => Shape(stored, gh, i, p) && AsUnique(stored, p.list));
  }

  // ------------------------------------------------------------------- main results

  /** Distinct numbers and one entry per ticket are kept, and every entry left is open on GitHub. */
  lemma SyncKeepsUnique(stored: seq<Entry>, gh: seq<Pr>, rules: Rules)
    requires GoodNumbers(gh)
    ensures Distinct(stored) ==> Distinct(Synced(stored, gh, rules))
    ensures OnePerTicket(stored) ==> OnePerTicket(Synced(stored, gh, rules))
    ensures forall e :: e in Synced(stored, gh, rules) ==> e.number.Some? && IsOpen(gh, e.number.value)
  {
    VisitedKeepsUnique(stored, gh, |gh|, rules);
    var list := Visited(stored, gh, |gh|, rules).list;
    if Distinct(list) { RetainedDistinct(list, gh); }
    if OnePerTicket(list) { RetainedOnePerTicket(list, gh); }
    RetainedIff(Visited(stored, gh, |gh|, rules).list, gh);
  }

  lemma {:induction false} NotUpdatedKeepsTracked(stored: seq<Entry>, gh: seq<Pr>, k: nat, rules: Rules)
    requires k <= |gh| && !Visited(stored, gh, k, rules).updated
    ensures stored <= Visited(stored, gh, k, rules).list
  {
    if k > 0 {
      NotUpdatedKeepsTracked(stored, gh, k - 1, rules);
    }
  }

  /** Whatever GitHub lists, skipping the write when the flag is down loses nothing. */
  lemma UnchangedMeansSame(stored: seq<Entry>, gh: seq<Pr>, rules: Rules)
    requires !Changed(stored, gh, rules)
    ensures Synced(stored, gh, rules) == stored
  {
    NotUpdatedKeepsTracked(stored, gh, |gh|, rules);
    NumberedAll(stored);
    RetainedAll(Visited(stored, gh, |gh|, rules).list, gh);
  }

  lemma AddedEntryStays(stored: seq<Entry>, gh: seq<Pr>, rules: Rules)
    requires GoodNumbers(gh)
    ensures var p := Visited(stored, gh, |gh|, rules);
      |p.list| >= |stored| && (|p.list| > |stored| ==> Synced(stored, gh, rules) != stored)
  {
    var p := Visited(stored, gh, |gh|, rules);
    VisitedShape(stored, gh, |gh|, rules);
    RetainedIff(p.list, gh);
    assert gh[..|gh|] == gh;
    if |p.list| > |stored| {
      var e := p.list[|stored|];
      assert Stays(e, gh) && e in Synced(stored, gh, rules);
      assert e !in stored;
    }
  }

  /** The change flag is exact. */
  lemma ChangedIffDiffers(stored: seq<Entry>, gh: seq<Pr>, rules: Rules)
    requires GoodNumbers(gh)
    ensures Changed(stored, gh, rules) <==> Synced(stored, gh, rules) != stored
  {
    if Synced(stored, gh, rules) == stored {
      var p := Visited(stored, gh, |gh|, rules);
      AddedEntryStays(stored, gh, rules);
      UpdatedIffDiffers(stored, gh, |gh|, rules);
      RetainedIff(p.list, gh);
      RetainedAll(p.list, gh);
      NumberedAll(stored);
      assert p.list == stored;
    } else if !Changed(stored, gh, rules) {
      UnchangedMeansSame(stored, gh, rules);
    }
  }

  // ------------------------------------------------------------------- what a pass tracks

  /** Fit to be added, judged against the list before the pass alone. */
  predicate Admissible(stored: seq<Entry>, pr: Pr, rules: Rules) {
    rules.discover(pr) && !Tracks(stored, pr.number) && rules.admit(pr) && !HasTicket(stored, pr.ticket)
  }

  /** The first admissible pull request of its ticket. */
  ghost predicate Chosen(stored: seq<Entry>, gh: seq<Pr>, j: nat, rules: Rules)
    requires j < |gh|
  {
    && Admissible(stored, gh[j], rules)
    && (gh[j].ticket.Some? ==>
          forall i :: 0 <= i < j && Admissible(stored, gh[i], rules) ==> gh[i].ticket != gh[j].ticket)
  }

  ghost predicate FromChosen(stored: seq<Entry>, gh: seq<Pr>, k: nat, rules: Rules, e: Entry)
    requires k <= |gh|
  {
    exists j :: 0 <= j < k && Chosen(stored, gh, j, rules) && e == EntryOf(gh[j])
  }

  ghost predicate AddedAre(stored: seq<Entry>, gh: seq<Pr>, k: nat, rules: Rules, list: seq<Entry>) {
    && k <= |gh| && |stored| <= |list|
    && (forall i :: |stored| <= i < |list| ==> FromChosen(stored, gh, k, rules, list[i]))
    && (forall j :: 0 <= j < k && Chosen(stored, gh, j, rules) ==> EntryOf(gh[j]) in list[|stored|..])
    && (forall j :: 0 <= j < k && Admissible(stored, gh[j], rules) && gh[j].ticket.Some? ==>
          HasTicket(list, gh[j].ticket))
  }

  lemma TicketInShape(stored: seq<Entry>, gh: seq<Pr>, k: nat, rules: Rules, p: Pass)
    requires k < |gh| && Shape(stored, gh, k, p) && AddedAre(stored, gh, k, rules, p.list)
    requires rules.discover(gh[k]) && !Tracks(stored, gh[k].number) && rules.admit(gh[k])
    ensures HasTicket(p.list, gh[k].ticket) <==> !Chosen(stored, gh, k, rules)
  {
    var t := gh[k].ticket;
    if HasTicket(p.list, t) {
      var i :| 0 <= i < |p.list| && p.list[i].ticket == t;
      if i < |stored| {
        assert SameIdentity(p.list[i], stored[i]);
        assert HasTicket(stored, t);
      }
    }
    if HasTicket(stored, t) {
      var i :| 0 <= i < |stored| && stored[i].ticket == t;
      assert SameIdentity(p.list[i], stored[i]);
    }
  }

  lemma ChosenIsAdded(stored: seq<Entry>, gh: seq<Pr>, k: nat, rules: Rules, list: seq<Entry>)
    requires k < |gh| && AddedAre(stored, gh, k, rules, list) && Chosen(stored, gh, k, rules)
    ensures AddedAre(stored, gh, k + 1, rules, list + [EntryOf(gh[k])])
  {
    var n := list + [EntryOf(gh[k])];
    assert n[|stored|..] == list[|stored|..] + [EntryOf(gh[k])];
    forall j | 0 <= j < k + 1 && Admissible(stored, gh[j], rules) && gh[j].ticket.Some?
      ensures HasTicket(n, gh[j].ticket)
    {
      if j < k {
        var i :| 0 <= i < |list| && list[i].ticket == gh[j].ticket;
        assert n[i].ticket == gh[j].ticket;
      } else {
        assert n[|list|].ticket == gh[k].ticket;
      }
    }
  }

  lemma OthersAreNot(stored: seq<Entry>, gh: seq<Pr>, k: nat, rules: Rules, list: seq<Entry>, n: seq<Entry>)
    requires k < |gh| && AddedAre(stored, gh, k, rules, list) && !Chosen(stored, gh, k, rules)
    requires |n| == |list| && n[|stored|..] == list[|stored|..]
    && forall i :: 0 <= i < |n| ==> n[i].ticket == list[i].ticket
    ensures AddedAre(stored, gh, k + 1, rules, n)
  {
    forall i | |stored| <= i < |n| ensures FromChosen(stored, gh, k + 1, rules, n[i]) {
      assert n[|stored|..][i - |stored|] == list[|stored|..][i - |stored|];
      assert FromChosen(stored, gh, k, rules, list[i]);
    }
    forall j | 0 <= j < k + 1 && Admissible(stored, gh[j], rules) && gh[j].ticket.Some?
      ensures HasTicket(n, gh[j].ticket)
    {
      var first := if j < k then j else EarlierRival(stored, gh, k, rules);
      assert HasTicket(list, gh[first].ticket);
      var i :| 0 <= i < |list| && list[i].ticket == gh[first].ticket;
      assert n[i].ticket == gh[j].ticket;
    }
  }

  ghost function EarlierRival(stored: seq<Entry>, gh: seq<Pr>, k: nat, rules: Rules): (i: nat)
    requires k < |gh| && Admissible(stored, gh[k], rules) && !Chosen(stored, gh, k, rules)
    ensures i < k && Admissible(stored, gh[i], rules) && gh[i].ticket == gh[k].ticket
  {
    var i :| 0 <= i < k && Admissible(stored, gh[i], rules) && gh[i].ticket == gh[k].ticket;
    i
  }

  lemma VisitAdds(stored: seq<Entry>, gh: seq<Pr>, k: nat, p: Pass, rules: Rules)
    requires k < |gh| && Shape(stored, gh, k, p) && AddedAre(stored, gh, k, rules, p.list)
    ensures AddedAre(stored, gh, k + 1, rules, Visit(stored, p, gh[k], rules).list)
  {
    FirstInShape(stored, gh, k, p, gh[k].number);
    if rules.discover(gh[k]) && !Tracks(stored, gh[k].number) && rules.admit(gh[k]) {
      TicketInShape(stored, gh, k, rules, p);
    }
    if Chosen(stored, gh, k, rules) {
      ChosenIsAdded(stored, gh, k, rules, p.list);
    } else {
      OthersAreNot(stored, gh, k, rules, p.list, Visit(stored, p, gh[k], rules).list);
    }
  }

  lemma VisitedAdds(stored: seq<Entry>, gh: seq<Pr>, k: nat, rules: Rules)
    requires k <= |gh|
    ensures AddedAre(stored, gh, k, rules, Visited(stored, gh, k, rules).list)
  {
    forall i: nat, p: Pass | i < |gh| && Shape(stored, gh, i, p) && AddedAre(stored, gh, i, rules, p.list)
      ensures Shape(stored, gh, i + 1, Visit(stored, p, gh[i], rules))
           && AddedAre(stored, gh, i + 1, rules, Visit(stored, p, gh[i], rules).list)
    {
      VisitKeepsShape(stored, gh, i, p, rules);
      VisitAdds(stored, gh, i, p, rules);
    }
    ByVisits(stored, gh, k, rules,
             (i: nat, p: Pass) => Shape(stored, gh, i, p) && AddedAre(stored, gh, i, rules, p.list));
  }

  lemma MemberIsTracked(list: seq<Entry>, e: Entry)
    requires e in list && e.number.Some?
    ensures Tracks(list, e.number.value)
  {
    var i :| 0 <= i < |list| && list[i] == e;
    assert list[i].number == Some(e.number.value);
  }

  /** A chosen pull request is tracked with all its data. */
  lemma ChosenIsSynced(stored: seq<Entry>, gh: seq<Pr>, j: nat, rules: Rules)
    requires GoodNumbers(gh) && j < |gh| && Chosen(stored, gh, j, rules)
    ensures var pr := gh[j];
      Entry(Some(pr.number), pr.ticket, Some(pr.head), pr.mergeable, Some(pr.conflicts), pr.branch, pr.base, pr.title)
      in Synced(stored, gh, rules)
  {
    var list := Visited(stored, gh, |gh|, rules).list;
    VisitedAdds(stored, gh, |gh|, rules);
    assert EntryOf(gh[j]) in list[|stored|..];
    assert IsOpen(gh, gh[j].number);
    RetainedIff(list, gh);
  }

  lemma AddedIsChosen(stored: seq<Entry>, gh: seq<Pr>, j: nat, rules: Rules, e: Entry)
    requires GoodNumbers(gh) && j < |gh| && !Tracks(stored, gh[j].number)
    requires e in Visited(stored, gh, |gh|, rules).list && e.number == Some(gh[j].number)
    ensures Chosen(stored, gh, j, rules)
  {
    var p := Visited(stored, gh, |gh|, rules);
    var i :| 0 <= i < |p.list| && p.list[i] == e;
    assert i >= |stored| by {
      VisitedShape(stored, gh, |gh|, rules);
      assert forall x :: 0 <= x < |stored| ==> p.list[x].number == stored[x].number != Some(gh[j].number);
    }
    VisitedAdds(stored, gh, |gh|, rules);
    assert FromChosen(stored, gh, |gh|, rules, p.list[i]);
    var a :| 0 <= a < |gh| && Chosen(stored, gh, a, rules) && p.list[i] == EntryOf(gh[a]);
    assert gh[a].number == gh[j].number;
  }

  lemma SyncedIsChosen(stored: seq<Entry>, gh: seq<Pr>, j: nat, rules: Rules)
    requires GoodNumbers(gh) && j < |gh| && !Tracks(stored, gh[j].number)
    && Tracks(Synced(stored, gh, rules), gh[j].number)
    ensures Chosen(stored, gh, j, rules)
  {
    var r := Synced(stored, gh, rules);
    RetainedIff(Visited(stored, gh, |gh|, rules).list, gh);
    AddedIsChosen(stored, gh, j, rules, r[FirstWith(r, gh[j].number)]);
  }

  /** An untracked open pull request is tracked after the pass exactly when it is the first fit one of its ticket. */
  lemma UntrackedIsAddedIff(stored: seq<Entry>, gh: seq<Pr>, j: nat, rules: Rules)
    requires GoodNumbers(gh) && j < |gh| && !Tracks(stored, gh[j].number)
    ensures Tracks(Synced(stored, gh, rules), gh[j].number) <==> Chosen(stored, gh, j, rules)
  {
    if Chosen(stored, gh, j, rules) {
      ChosenIsSynced(stored, gh, j, rules);
      MemberIsTracked(Synced(stored, gh, rules), EntryOf(gh[j]));
    } else if Tracks(Synced(stored, gh, rules), gh[j].number) {
      SyncedIsChosen(stored, gh, j, rules);
    }
  }

  /** A tracked entry that is still open stays in place of its number, refreshed when it may be looked at. */
  lemma {:induction false} TrackedAreRefreshed(stored: seq<Entry>, gh: seq<Pr>, i: nat, j: nat, k: nat, rules: Rules)
    requires GoodNumbers(gh) && Distinct(stored) && i < |stored| && j < k <= |gh|
    requires stored[i].number == Some(gh[j].number)
    ensures var p := Visited(stored, gh, k, rules);
      i < |p.list| && p.list[i] == if rules.discover(gh[j]) then Refreshed(stored[i], gh[j]) else stored[i]
  {
    var p := Visited(stored, gh, k - 1, rules);
    VisitedShape(stored, gh, k - 1, rules);
    FirstInShape(stored, gh, k - 1, p, gh[k - 1].number);
    if j == k - 1 {
      UpdatedIffDiffers(stored, gh, k - 1, rules);
      assert !IsOpen(gh[..k - 1], gh[j].number);
      assert FirstWith(stored, gh[j].number) == i;
    } else {
      TrackedAreRefreshed(stored, gh, i, j, k - 1, rules);
      assert gh[k - 1].number != gh[j].number;
    }
  }

  /** Whatever was stored and whatever GitHub lists, only entries with the number of an open pull request are left. */
  lemma OnlyOpenAreLeft(stored: seq<Entry>, gh: seq<Pr>, rules: Rules, e: Entry)
    requires e in Synced(stored, gh, rules)
    ensures e.number.Some? && e.number.value != 0 && exists i :: 0 <= i < |gh| && gh[i].number == e.number.value
  {
    RetainedIff(Visited(stored, gh, |gh|, rules).list, gh);
  }

  /** A tracked pull request stays tracked exactly while it is open. */
  lemma TrackedStaysIff(stored: seq<Entry>, gh: seq<Pr>, i: nat, rules: Rules)
    requires GoodNumbers(gh) && Distinct(stored) && i < |stored| && stored[i].number.Some?
    ensures Tracks(Synced(stored, gh, rules), stored[i].number.value) <==> IsOpen(gh, stored[i].number.value)
  {
    var n := stored[i].number.value;
    SyncKeepsUnique(stored, gh, rules);
    if j :| 0 <= j < |gh| && gh[j].number == n {
      TrackedIsSynced(stored, gh, i, j, rules);
    } else if Tracks(Synced(stored, gh, rules), n) {
      assert Synced(stored, gh, rules)[FirstWith(Synced(stored, gh, rules), n)] in Synced(stored, gh, rules);
    }
  }

  /**
   The entry of an open pull request keeps its identity, and takes over head, mergeability and conflicts if the
   pull request may be looked at.
   */
  lemma TrackedIsSynced(stored: seq<Entry>, gh: seq<Pr>, i: nat, j: nat, rules: Rules)
    requires GoodNumbers(gh) && Distinct(stored) && i < |stored| && j < |gh| && stored[i].number == Some(gh[j].number)
    ensures
      var e, pr := stored[i], gh[j];
      (if rules.discover(pr)
       then Entry(e.number, e.ticket, Some(pr.head), pr.mergeable, Some(pr.conflicts), e.branch, e.base, e.title)
       else e) in Synced(stored, gh, rules)
    ensures Tracks(Synced(stored, gh, rules), gh[j].number)
  {
    TrackedAreRefreshed(stored, gh, i, j, |gh|, rules);
    var list := Visited(stored, gh, |gh|, rules).list;
    RetainedIff(list, gh);
    assert IsOpen(gh, gh[j].number) && list[i] in list;
    MemberIsTracked(Synced(stored, gh, rules), list[i]);
  }

  // ------------------------------------------------------------------- settling

  predicate AllStay(list: seq<Entry>, gh: seq<Pr>) {
    forall i :: 0 <= i < |list| ==> Stays(list[i], gh)
  }

  predicate Settled(list: seq<Entry>, gh: seq<Pr>, rules: Rules) {
    && AllStay(list, gh)
    && forall j :: 0 <= j < |gh| ==> SettledFor(list, gh[j], rules)
  }

  predicate SettledFor(list: seq<Entry>, pr: Pr, rules: Rules) {
    if Tracks(list, pr.number) then rules.discover(pr) ==> UpToDate(list[FirstWith(list, pr.number)], pr)
    else !Admissible(list, pr, rules)
  }

  lemma {:induction false} SettledIsFixed(list: seq<Entry>, gh: seq<Pr>, k: nat, rules: Rules)
    requires k <= |gh| && Settled(list, gh, rules)
    ensures Visited(list, gh, k, rules) == Pass(list, false)
  {
    if k > 0 {
      SettledIsFixed(list, gh, k - 1, rules);
      assert SettledFor(list, gh[k - 1], rules);
    }
  }

  /** With nothing tracked closed, a pass keeps every tracked entry, at its position. */
  lemma PassKeepsOpen(list: seq<Entry>, gh: seq<Pr>, rules: Rules)
    requires GoodNumbers(gh) && AllStay(list, gh)
    ensures Synced(list, gh, rules) == Visited(list, gh, |gh|, rules).list
    ensures AllStay(Synced(list, gh, rules), gh)
    ensures Shape(list, gh, |gh|, Visited(list, gh, |gh|, rules))
  {
    var p := Visited(list, gh, |gh|, rules);
    VisitedShape(list, gh, |gh|, rules);
    assert gh[..|gh|] == gh;
    forall i | 0 <= i < |p.list| ensures Stays(p.list[i], gh) {
      if i < |list| { assert SameIdentity(p.list[i], list[i]) && Stays(list[i], gh); }
    }
    RetainedAll(p.list, gh);
  }

  lemma FirstAdmissible(list: seq<Entry>, gh: seq<Pr>, j: nat, rules: Rules) returns (f: nat)
    requires j < |gh| && Admissible(list, gh[j], rules)
    ensures f < |gh| && Chosen(list, gh, f, rules) && (f == j || (gh[f].ticket.Some? && gh[f].ticket == gh[j].ticket))
  {
    if Chosen(list, gh, j, rules) {
      f := j;
    } else {
      var i :| 0 <= i < j && Admissible(list, gh[i], rules) && gh[i].ticket == gh[j].ticket;
      f := FirstAdmissible(list, gh, i, rules);
    }
  }

  lemma SettledForTracked(list: seq<Entry>, gh: seq<Pr>, j: nat, rules: Rules)
    requires GoodNumbers(gh) && Distinct(list) && AllStay(list, gh) && j < |gh| && Tracks(list, gh[j].number)
    ensures SettledFor(Synced(list, gh, rules), gh[j], rules)
  {
    PassKeepsOpen(list, gh, rules);
    var p := Visited(list, gh, |gh|, rules);
    FirstInShape(list, gh, |gh|, p, gh[j].number);
    TrackedAreRefreshed(list, gh, FirstWith(list, gh[j].number), j, |gh|, rules);
  }

  lemma TicketsStay(list: seq<Entry>, gh: seq<Pr>, rules: Rules, ticket: Option<string>)
    requires GoodNumbers(gh) && AllStay(list, gh)
    ensures HasTicket(list, ticket) ==> HasTicket(Synced(list, gh, rules), ticket)
  {
    PassKeepsOpen(list, gh, rules);
    if HasTicket(list, ticket) {
      var i :| 0 <= i < |list| && list[i].ticket == ticket;
      assert SameIdentity(Synced(list, gh, rules)[i], list[i]);
    }
  }

  lemma SettledForUntracked(list: seq<Entry>, gh: seq<Pr>, j: nat, rules: Rules)
    requires GoodNumbers(gh) && Distinct(list) && AllStay(list, gh) && j < |gh| && !Tracks(list, gh[j].number)
    ensures SettledFor(Synced(list, gh, rules), gh[j], rules)
  {
    var r := Synced(list, gh, rules);
    PassKeepsOpen(list, gh, rules);
    SyncKeepsUnique(list, gh, rules);
    if Chosen(list, gh, j, rules) {
      ChosenIsSynced(list, gh, j, rules);
      MemberIsTracked(r, EntryOf(gh[j]));
      var i :| 0 <= i < |r| && r[i] == EntryOf(gh[j]);
      assert FirstWith(r, gh[j].number) == i;
    } else {
      UntrackedIsAddedIff(list, gh, j, rules);
      if Admissible(r, gh[j], rules) {
        TicketsStay(list, gh, rules, gh[j].ticket);
        var f := FirstAdmissible(list, gh, j, rules);
        ChosenIsSynced(list, gh, f, rules);
        assert false;
      }
    }
  }

  /** One pass settles a list whose entries are all open: a second pass with the same verdicts changes nothing. */
  lemma OpenListSettles(list: seq<Entry>, gh: seq<Pr>, rules: Rules)
    requires GoodNumbers(gh) && Distinct(list) && AllStay(list, gh)
    ensures var r := Synced(list, gh, rules);
      Synced(r, gh, rules) == r && !Changed(r, gh, rules)
  {
    var r := Synced(list, gh, rules);
    PassKeepsOpen(list, gh, rules);
    forall j | 0 <= j < |gh| ensures SettledFor(r, gh[j], rules) {
      if Tracks(list, gh[j].number) {
        SettledForTracked(list, gh, j, rules);
      } else {
        SettledForUntracked(list, gh, j, rules);
      }
    }
    SettledIsFixed(r, gh, |gh|, rules);
    RetainedAll(r, gh);
    ChangedIffDiffers(r, gh, rules);
  }

  /** Two passes settle any list. */
  lemma TwoPassesSettle(stored: seq<Entry>, gh: seq<Pr>, rules: Rules)
    requires GoodNumbers(gh) && Distinct(stored)
    ensures var r := Synced(Synced(stored, gh, rules), gh, rules);
      Synced(r, gh, rules) == r && !Changed(r, gh, rules)
  {
    SyncKeepsUnique(stored, gh, rules);
    RetainedIff(Visited(stored, gh, |gh|, rules).list, gh);
    OpenListSettles(Synced(stored, gh, rules), gh, rules);
  }

  /** One pass is not enough when a closed pull request still holds the ticket of an open one. */
  lemma ClosedEntryDelaysItsTicket(e: Entry, pr: Pr, rules: Rules)
    requires pr.number != 0 && pr.ticket.Some? && rules.discover(pr) && rules.admit(pr)
    requires e.ticket == pr.ticket && e.number.Some? && e.number.value != pr.number
    ensures Synced([e], [pr], rules) == [] && Synced([], [pr], rules) == [EntryOf(pr)]
  {
    assert [e][0].ticket == pr.ticket && !Tracks([e], pr.number);
    assert Visited([e], [pr], 0, rules) == Pass([e], false);
    assert Visited([e], [pr], 1, rules) == Pass([e], false);
    assert !Stays(e, [pr]) && [e][..0] == [];
    assert Visited([], [pr], 0, rules) == Pass([], false);
    var one := [EntryOf(pr)];
    assert Visited([], [pr], 1, rules) == Pass(one, false);
    assert [pr][0].number == pr.number && Stays(EntryOf(pr), [pr]);
    assert one[..0] == [] && Retained([], [pr]) == [];
  }
}
