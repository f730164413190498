/**
 The line-limit check: the parser of git's NUL-separated name-status output, the grandfathering rule,
 and the ratchet they form together over a history of accepted changes.
 */
module LineLimits {
  import opened Text

  type Path = string

  const NUL := '\U{0000}'

  /** A pair the check looks at: the path on the merge base, if any, and the path at the head. */
  datatype Change = Change(base: Option<Path>, head: Path)

  // ----- the parser -----

  /** `str.split("\0")`. */
  function Split(s: string): (fields: seq<string>)
    ensures fields != []
    decreases |s|
  {
    match IndexOf(s, NUL)
    case None => [s]
    case Some(k) => [s[..k]] + Split(s[k + 1..])
  }

  /** The pairs yielded from field `i` on; None when the output ends inside a record (an IndexError). */
  function Parse(fields: seq<string>, i: nat): Option<seq<Change>>
    decreases |fields| - i
  {
    if i >= |fields| then Some([])
    else if fields[i] == "" then Parse(fields, i + 1)
    else if fields[i][0] == 'R' then
      if i + 2 >= |fields| then None
      else Prepend([Change(Some(fields[i + 1]), fields[i + 2])], Parse(fields, i + 3))
    else if fields[i][0] == 'C' then
      if i + 1 >= |fields| then None else Prepend([Change(None, fields[i + 1])], Parse(fields, i + 2))
    else if fields[i] == "A" || fields[i] == "M" || fields[i] == "T" then
      if i + 1 >= |fields| then None
      else Prepend([Change(if fields[i] == "A" then None else Some(fields[i + 1]), fields[i + 1])],
              Parse(fields, i + 2))
    else Parse(fields, i + 2)
  }

  function Prepend(done: seq<Change>, rest: Option<seq<Change>>): Option<seq<Change>> {
    if rest.None? then None else Some(done + rest.value)
  }

  lemma PrependTwice(a: seq<Change>, b: seq<Change>, rest: Option<seq<Change>>)
    ensures Prepend(a, Prepend(b, rest)) == Prepend(a + b, rest)
    ensures Prepend([], rest) == rest
  {
    if rest.Some? {
      assert a + (b + rest.value) == (a + b) + rest.value && [] + rest.value == rest.value;
    }
  }

  method ChangedFiles(output: string) returns (pairs: Option<seq<Change>>)
    ensures pairs == Parse(Split(output), 0)
  {
    var fields := Split(output);
    var found: seq<Change> := [];
    var i := 0;
    PrependTwice([], [], Parse(fields, 0));
    while i < |fields|
      invariant Parse(fields, 0) == Prepend(found, Parse(fields, i))
      decreases |fields| - i
    {
      var status := fields[i];
      i := i + 1;
      if status == "" {
        continue;
      }
      if status[0] == 'R' {
        if i + 1 >= |fields| {
          return None;
        }
        PrependTwice(found, [Change(Some(fields[i]), fields[i + 1])], Parse(fields, i + 2));
        found := found + [Change(Some(fields[i]), fields[i + 1])];
        i := i + 2;
      } else if status[0] == 'C' {
        if i >= |fields| {
          return None;
        }
        PrependTwice(found, [Change(None, fields[i])], Parse(fields, i + 1));
        found := found + [Change(None, fields[i])];
        i := i + 1;
      } else if status == "A" || status == "M" || status == "T" {
        if i >= |fields| {
          return None;
        }
        PrependTwice(found, [Change(if status == "A" then None else Some(fields[i]), fields[i])], Parse(fields, i + 1));
        found := found + [Change(if status == "A" then None else Some(fields[i]), fields[i])];
        i := i + 1;
      } else {
        i := i + 1;
      }
    }
    assert found + [] == found;
    return Some(found);
  }

  // ----- the encoding git uses -----

  datatype Record =
    | Add(path: Path)
    | Modify(path: Path)
    | TypeChange(path: Path)
    | Rename(score: nat, old_: Path, new_: Path)
    | Delete(path: Path)

  predicate NulFree(s: string) {
    NUL !in s
  }

  predicate PathsOk(r: Record) {
    if r.Rename? then NulFree(r.old_) && NulFree(r.new_) else NulFree(r.path)
  }

  function Status(r: Record): string {
    match r
    case Add(_) => "A"
    case Modify(_) => "M"
    case TypeChange(_) => "T"
    case Rename(score, _, _) => "R" + Decimal(score)
    case Delete(_) => "D"
  }

  function Fields(r: Record): seq<string> {
    if r.Rename? then [Status(r), r.old_, r.new_] else [Status(r), r.path]
  }

  function AllFields(records: seq<Record>): seq<string> {
    if records == [] then [] else Fields(records[0]) + AllFields(records[1..])
  }

  /** Every field ends with a NUL. */
  function Terminated(fields: seq<string>): string {
    if fields == [] then "" else fields[0] + [NUL] + Terminated(fields[1..])
  }

  function Encode(records: seq<Record>): string {
    Terminated(AllFields(records))
  }

  /** The pair a record stands for; a deletion stands for none. */
  function ChangeOf(r: Record): seq<Change> {
    match r
    case Add(p) => [Change(None, p)]
    case Modify(p) => [Change(Some(p), p)]
    case TypeChange(p) => [Change(Some(p), p)]
    case Rename(_, o, n) => [Change(Some(o), n)]
    case Delete(_) => []
  }

  function ChangesOf(records: seq<Record>): seq<Change> {
    if records == [] then [] else ChangeOf(records[0]) + ChangesOf(records[1..])
  }

  lemma SplitCons(field: string, rest: string)
    requires NulFree(field)
    ensures Split(field + [NUL] + rest) == [field] + Split(rest)
  {
    var s := field + [NUL] + rest;
    assert s[|field|] == NUL;
    assert IndexOf(s, NUL) == Some(|field|);
    assert s[..|field|] == field && s[|field| + 1..] == rest;
  }

  lemma HeadAndRest<T>(s: seq<T>, last: T)
    requires s != []
    ensures s + [last] == [s[0]] + (s[1..] + [last])
  {
  }

  lemma {:induction false} SplitOfTerminated(fields: seq<string>)
    requires forall f :: f in fields ==> NulFree(f)
    ensures Split(Terminated(fields)) == fields + [""]
  {
    if fields == [] {
      assert Split("") == [""];
    } else {
      var rest := fields[1..];
      SplitOfTerminated(rest);
      assert NulFree(fields[0]);
      SplitCons(fields[0], Terminated(rest));
      HeadAndRest(fields, "");
    }
  }

  lemma StatusIsNulFree(r: Record)
    ensures NulFree(Status(r)) && Status(r) != ""
    ensures r.Rename? ==> Status(r)[0] == 'R'
  {
  }

  lemma {:induction false} AllFieldsAreNulFree(records: seq<Record>)
    requires forall r :: r in records ==> PathsOk(r)
    ensures forall f :: f in AllFields(records) ==> NulFree(f)
  {
    if records != [] {
      assert records[0] in records;
      StatusIsNulFree(records[0]);
      AllFieldsAreNulFree(records[1..]);
    }
  }

  lemma ParseRecord(fields: seq<string>, i: nat, r: Record)
    requires i + |Fields(r)| <= |fields| && fields[i..i + |Fields(r)|] == Fields(r)
    ensures Parse(fields, i) == Prepend(ChangeOf(r), Parse(fields, i + |Fields(r)|))
  {
    StatusIsNulFree(r);
    var part := fields[i..i + |Fields(r)|];
    assert part[0] == fields[i] && part[1] == fields[i + 1];
    if r.Rename? {
      assert part[2] == fields[i + 2];
    } else if r.Delete? {
      PrependTwice([], [], Parse(fields, i + 2));
    }
  }

  lemma {:induction false} ParseOfFields(before: seq<string>, records: seq<Record>)
    ensures Parse(before + AllFields(records) + [""], |before|) == Some(ChangesOf(records))
    decreases |records|
  {
    var fields := before + AllFields(records) + [""];
    if records == [] {
      assert fields[|before|] == "";
    } else {
      var r, rest := records[0], records[1..];
      var next := before + Fields(r);
      ParseOfFields(next, rest);
      assert fields == next + AllFields(rest) + [""];
      assert fields[|before|..|next|] == Fields(r);
      ParseRecord(fields, |before|, r);
    }
  }

  /** The parser recovers exactly the pairs of any list of records, whatever the paths, even empty ones. */
  lemma ParseOfEncode(records: seq<Record>)
    requires forall r :: r in records ==> PathsOk(r)
    ensures Parse(Split(Encode(records)), 0) == Some(ChangesOf(records))
  {
    AllFieldsAreNulFree(records);
    SplitOfTerminated(AllFields(records));
    ParseOfFields([], records);
    assert [] + AllFields(records) + [""] == AllFields(records) + [""];
  }

  // ----- the grandfathering rule -----

  /** A file at a revision: its number of lines, and whether a NUL byte marks it as binary. */
  datatype Blob = Blob(lines: nat, binary: bool)

  type Revision = map<Path, Blob>

  datatype Config = Config(maxLines: nat, ignored: Path -> bool)

  datatype CheckResult = Pass | Violation(count: nat, limit: nat) | GitError

  function Max(a: nat, b: nat): nat {
    if a < b then b else a
  }

  /** `check_file`. A file missing from a revision makes git, and with it the whole check, fail. */
  function CheckFile(config: Config, base: Revision, head: Revision, c: Change): CheckResult {
    if c.head == "" || config.ignored(c.head) then Pass
    else if c.head !in head then GitError
    else if head[c.head].binary then Pass
    else
      var inScope := c.base.Some? && c.base.value != "" && !config.ignored(c.base.value);
      if inScope && c.base.value !in base then GitError
      else
        var limit := Max(config.maxLines, if inScope then base[c.base.value].lines else 0);
        if head[c.head].lines <= limit then Pass else Violation(head[c.head].lines, limit)
  }

  /** A change between two revisions, as git reports it. */
  datatype Commit = Commit(base: Revision, head: Revision, records: seq<Record>)

  /** The check of `main` on git's own output: parsed, and no pair is refused. */
  ghost predicate Accepted(config: Config, c: Commit) {
    var pairs := Parse(Split(Encode(c.records)), 0);
    pairs.Some? && forall p :: p in pairs.value ==> CheckFile(config, c.base, c.head, p) == Pass
  }

  // ----- the ratchet -----

  /** A file followed through one change: by its record, or untouched. */
  ghost predicate Continues(c: Commit, p: Path, q: Path) {
    && p in c.base && q in c.head
    && ((exists r :: r in c.records && q != "" && ChangeOf(r) == [Change(Some(p), q)])
        || (p == q && c.head[q] == c.base[p]))
  }

  /** `paths` follows one text file through the revisions of a history. */
  ghost predicate TextFile(revs: seq<Revision>, paths: seq<Path>) {
    |revs| == |paths| && forall k :: 0 <= k < |revs| ==> paths[k] in revs[k] && !revs[k][paths[k]].binary
  }

  /** An accepted change, in git's encoding, that continues the file. */
  ghost predicate GoodChange(config: Config, c: Commit, p: Path, q: Path) {
    (forall r :: r in c.records ==> PathsOk(r)) && Accepted(config, c) && Continues(c, p, q)
  }

  ghost predicate Lineage(config: Config, revs: seq<Revision>, diffs: seq<seq<Record>>, paths: seq<Path>) {
    && TextFile(revs, paths) && |revs| == |diffs| + 1
    && forall k :: 0 <= k < |diffs| ==>
         GoodChange(config, Commit(revs[k], revs[k + 1], diffs[k]), paths[k], paths[k + 1])
  }

  lemma {:induction false} InChangesOf(records: seq<Record>, r: Record, c: Change)
    requires r in records && c in ChangeOf(r)
    ensures c in ChangesOf(records)
  {
    if r != records[0] {
      assert r in records[1..];
      InChangesOf(records[1..], r, c);
    }
  }

  /** One accepted change: an in-scope file never ends above the larger of the cap and its old size. */
  lemma AcceptedChangeKeepsCap(config: Config, c: Commit, p: Path, q: Path)
    requires GoodChange(config, c, p, q)
    requires !c.head[q].binary && !config.ignored(q)
    ensures c.head[q].lines <= Max(config.maxLines, if config.ignored(p) then 0 else c.base[p].lines)
  {
    if p == q && c.head[q] == c.base[p] {
    } else {
      var r :| r in c.records && q != "" && ChangeOf(r) == [Change(Some(p), q)];
      var pair := Change(Some(p), q);
      ParseOfEncode(c.records);
      InChangesOf(c.records, r, pair);
      assert CheckFile(config, c.base, c.head, pair) == Pass;
    }
  }

  /**
   Along any chain of accepted changes, max(MAX_LINES, size) of a text file never increases from one
   point where it is in scope to a later one, through renames and even through ignored paths.
   */
  lemma {:induction false} RatchetNeverLoosens(
    config: Config, revs: seq<Revision>, diffs: seq<seq<Record>>, paths: seq<Path>, i: nat, j: nat)
    requires Lineage(config, revs, diffs, paths) && i <= j < |revs|
    requires !config.ignored(paths[i]) && !config.ignored(paths[j])
    ensures Max(config.maxLines, revs[j][paths[j]].lines) <= Max(config.maxLines, revs[i][paths[i]].lines)
    decreases j - i
  {
    if i < j {
      var k := j - 1;
      assert GoodChange(config, Commit(revs[k], revs[k + 1], diffs[k]), paths[k], paths[k + 1]);
      AcceptedChangeKeepsCap(config, Commit(revs[k], revs[k + 1], diffs[k]), paths[k], paths[k + 1]);
      if !config.ignored(paths[k]) {
        RatchetNeverLoosens(config, revs, diffs, paths, i, k);
      }
    }
  }

  /**
   A change that takes an in-scope file above its cap, and is fine otherwise, is accepted exactly when the new
   version is binary.
   */
  lemma AboveCapAcceptedIff(config: Config, c: Commit, r: Record, p: Path, q: Path)
    requires (forall x :: x in c.records ==> PathsOk(x)) && r in c.records && ChangeOf(r) == [Change(Some(p), q)]
    requires p in c.base && q in c.head && p != "" && q != "" && !config.ignored(p) && !config.ignored(q)
    requires forall x :: x in ChangesOf(c.records) && x != Change(Some(p), q) ==>
      CheckFile(config, c.base, c.head, x) == Pass
    requires c.head[q].lines > Max(config.maxLines, c.base[p].lines)
    ensures Accepted(config, c) <==> c.head[q].binary
  {
    ParseOfEncode(c.records);
    InChangesOf(c.records, r, Change(Some(p), q));
  }

  /** Text is needed: a detour through a binary version lets a file of any size pass. */
  lemma BinaryDetourEscapes(config: Config, p: Path, small: nat, large: nat)
    requires p != "" && NulFree(p) && !config.ignored(p) && small <= config.maxLines < large
    ensures var text, bin, big :=
            map[p := Blob(small, false)], map[p := Blob(large, true)], map[p := Blob(large, false)];
            && Accepted(config, Commit(text, bin, [Modify(p)]))
            && Accepted(config, Commit(bin, big, [Modify(p)]))
  {
    ParseOfEncode([Modify(p)]);
    assert ChangesOf([Modify(p)]) == [Change(Some(p), p)] by {
      assert [Modify(p)][1..] == [];
    }
  }

  // ----- exactly which changes are accepted -----

  /** The rule: a text file in scope has at most the cap, or at most the lines its own old version in scope had. */
  ghost predicate WithinRule(config: Config, c: Commit, pair: Change) {
    || pair.head == "" || config.ignored(pair.head)
    || (pair.head in c.head
        && (|| c.head[pair.head].binary
            || c.head[pair.head].lines <= config.maxLines
            || (&& pair.base.Some? && pair.base.value != "" && pair.base.value in c.base
                && !config.ignored(pair.base.value)
                && c.head[pair.head].lines <= c.base[pair.base.value].lines)))
  }

  /** Git names only files that exist. */
  ghost predicate FilesExist(c: Commit, pair: Change) {
    pair.head in c.head && (pair.base.Some? ==> pair.base.value in c.base)
  }

  lemma CheckFollowsRule(config: Config, c: Commit, pair: Change)
    requires FilesExist(c, pair)
    ensures
      var r := CheckFile(config, c.base, c.head, pair);
      && (r == Pass <==> WithinRule(config, c, pair)) && r != GitError
      && (r.Violation? ==> r.count == c.head[pair.head].lines > r.limit >= config.maxLines)
  {
  }

  /** On git's own output, a change is accepted exactly when each of its files keeps the rule. */
  lemma AcceptedIff(config: Config, c: Commit)
    requires forall r :: r in c.records ==> PathsOk(r)
    requires forall pair :: pair in ChangesOf(c.records) ==> FilesExist(c, pair)
    ensures Accepted(config, c) <==> forall pair :: pair in ChangesOf(c.records) ==> WithinRule(config, c, pair)
  {
    ParseOfEncode(c.records);
    forall pair | pair in ChangesOf(c.records)
      ensures CheckFile(config, c.base, c.head, pair) == Pass <==> WithinRule(config, c, pair)
    {
      CheckFollowsRule(config, c, pair);
    }
  }
}
