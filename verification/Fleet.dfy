/** Tickets, worker slots and worker ids, as persisted in the shared store. */
module Fleet {
  import opened Text

  const MAX_ATTEMPTS: nat := 3
  const U32_LIMIT: nat := 0x1_0000_0000

  datatype TicketStatus =
    | Open
    | Assigned(worker: string)
    | InProgress(worker: string)
    | Merged(worker: string, pr: nat)
    | Failed(worker: string, reason: string, attempts: nat)
    | Completed(worker: string, outcome: string)
    | Exhausted(worker: string, attempts: nat)
    | AwaitingHuman(worker: string, reason: string, attempts: nat)

  datatype Ticket = Ticket(id: string, status: TicketStatus, issueUrl: Option<string>, attempts: nat)

  datatype WorkerStatus =
    | Idle
    | Reserved(ticket: string, url: Option<string>)     // `Assigned` in the source
    | Working(ticket: string, url: Option<string>)
    | Done(ticket: string, outcome: string)
    | Suspended(ticket: string, reason: string, url: Option<string>)

  datatype WorkerSlot = WorkerSlot(id: string, status: WorkerStatus, workspace: Option<string>)

  type Slots = map<string, WorkerSlot>

  predicate IsAssignable(t: Ticket) {
    t.status.Open? || (t.status.Failed? && t.status.attempts < MAX_ATTEMPTS)
  }

  predicate IsTerminal(status: TicketStatus) {
    match status
    case Merged(_, _) => true
    case Exhausted(_, _) => true
    case Failed(_, _, attempts) => attempts >= MAX_ATTEMPTS
    case Completed(_, outcome) => outcome != "pr_opened"
    case _ => false
  }

  /** The ticket a busy (reserved or working) slot is bound to. */
  function Bound(status: WorkerStatus): Option<string> {
    match status
    case Reserved(t, _) => Some(t)
    case Working(t, _) => Some(t)
    case _ => None
  }

  function LastIndexOf(s: string, c: char): (r: Option<nat>)
    ensures r.None? <==> c !in s
    ensures r.Some? ==> r.value < |s| && s[r.value] == c && c !in s[r.value + 1..]
  {
    if s == "" then None
    else if s[|s| - 1] == c then Some(|s| - 1)
    else
      var r := LastIndexOf(s[..|s| - 1], c);
      assert r.Some? ==> s[r.value + 1..] == s[..|s| - 1][r.value + 1..] + [s[|s| - 1]];
      r
  }

  lemma LastIndexIs(s: string, c: char, k: nat)
    requires k < |s| && s[k] == c && forall j :: k < j < |s| ==> s[j] != c
    ensures LastIndexOf(s, c) == Some(k)
  {
  }

  /** `worker_role`: the id up to its last dash. */
  function WorkerRole(id: string): string {
    match LastIndexOf(id, '-') case None => id case Some(k) => id[..k]
  }

  /** `worker_index`: the number after the last dash, if it is one. */
  function WorkerIndex(id: string): Option<nat> {
    match LastIndexOf(id, '-') case None => None case Some(k) => ParseUnsigned(id[k + 1..], U32_LIMIT)
  }

  /** `paired_sentinel_slot`: forge-i is reviewed by sentinel-i. */
  function PairedSentinel(forge: string): Option<string> {
    match WorkerIndex(forge) case None => None case Some(i) => Some("sentinel-" + Decimal(i))
  }

  /** A paired slot id always names a sentinel. */
  lemma PairIsSentinel(forge: string)
    requires PairedSentinel(forge).Some?
    ensures WorkerRole(PairedSentinel(forge).value) == "sentinel"
  {
    var digits := Decimal(WorkerIndex(forge).value);
    var id := "sentinel-" + digits;
    assert id[8] == '-' && id[..8] == "sentinel";
    assert forall j :: 9 <= j < |id| ==> id[j] == digits[j - 9] && digits[j - 9] in digits;
    LastIndexIs(id, '-', 8);
  }

  predicate IsForge(id: string) {
    WorkerRole(id) == "forge"
  }

  predicate IsSentinel(id: string) {
    WorkerRole(id) == "sentinel"
  }

  /** Every slot is stored under its own id. */
  ghost predicate Keyed(slots: Slots) {
    forall w :: w in slots ==> slots[w].id == w
  }

  /** Forge number i is reviewed by sentinel number i. */
  lemma PairHasSameNumber(i: nat)
    requires i < U32_LIMIT
    ensures PairedSentinel("forge-" + Decimal(i)) == Some("sentinel-" + Decimal(i)) && IsForge("forge-" + Decimal(i))
  {
    var digits := Decimal(i);
    var id := "forge-" + digits;
    assert id[5] == '-' && id[..5] == "forge" && id[6..] == digits;
    assert forall j :: 6 <= j < |id| ==> id[j] == digits[j - 6] && digits[j - 6] in digits;
    LastIndexIs(id, '-', 5);
    ParseOfDecimal(i, U32_LIMIT);
  }
}
