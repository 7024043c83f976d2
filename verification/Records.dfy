/** The host ledger's record shape and its validation (tools/gc_dispatch/records.py). */
module Records {
  import opened Wrappers

  const MAX_DEMAND := 1024
  const MAX_PROFILE_LENGTH := 64

  type Ticket = string

  datatype State = Queued | Running

  /** A process identity: the PID paired with its start-time token. */
  datatype Supervisor = Supervisor(pid: int, token: Option<string>)

  datatype Entry = Entry(
    ticket: Ticket, seqNo: int, profile: string, requested: int, minimum: int,
    granted: Option<int>, state: State, enqueuedAt: real, startedAt: Option<real>,
    supervisor: Option<Supervisor>, orphanedAt: Option<real>)

  datatype Doc = Doc(nextSeq: int, entries: seq<Entry>)

  predicate IsHex(s: string) {
    forall i :: 0 <= i < |s| ==> '0' <= s[i] <= '9' || 'a' <= s[i] <= 'f'
  }

  /** Python's `$` also matches just before one trailing newline. */
  function DropFinalNewline(s: string): string {
    if |s| > 0 && s[|s| - 1] == '\n' then s[..|s| - 1] else s
  }

  predicate ValidTicket(t: Ticket) {
    var body := DropFinalNewline(t);
    |body| == 16 && IsHex(body)
  }

  predicate ValidProfile(p: string) {
    var body := DropFinalNewline(p);
    1 <= |body| <= MAX_PROFILE_LENGTH
    && forall i :: 0 <= i < |body| ==> body[i] > (0x1f as char) && body[i] != (0x7f as char)
  }

  predicate ValidDemand(requested: int, minimum: int) {
    1 <= minimum <= requested <= MAX_DEMAND
  }

  predicate ValidState(e: Entry) {
    match e.state
    case Running => e.granted.Some? && 1 <= e.granted.value <= MAX_DEMAND && e.startedAt.Some?
    case Queued => e.granted.None? && e.startedAt.None?
  }

  predicate ValidSupervisor(s: Option<Supervisor>) {
    s.Some? ==> s.value.pid > 0
  }

  predicate ValidEntry(e: Entry) {
    && ValidTicket(e.ticket)
    && e.seqNo >= 1
    && ValidProfile(e.profile)
    && ValidDemand(e.requested, e.minimum)
    && ValidState(e)
    && ValidSupervisor(e.supervisor)
  }

  ghost predicate DistinctTickets(entries: seq<Entry>) {
    forall i, j {:trigger entries[i], entries[j]} :: 0 <= i < j < |entries| ==> entries[i].ticket != entries[j].ticket
  }

  ghost predicate AllValid(entries: seq<Entry>) {
    forall e {:trigger ValidEntry(e)} :: e in entries ==> ValidEntry(e)
  }

  /** What every later decision assumes of a document it has read. */
  ghost predicate ValidLedger(doc: Doc) {
    && doc.nextSeq >= 1
    && AllValid(doc.entries)
    && DistinctTickets(doc.entries)
  }

  /** The validation loop, with the growing set of tickets already seen. */
  method ValidateLedger(doc: Doc) returns (ok: bool)
    ensures ok <==> ValidLedger(doc)
  {
    if doc.nextSeq < 1 {
      return false;
    }
    var seen: set<Ticket> := {};
    for i := 0 to |doc.entries|
      invariant AllValid(doc.entries[..i])
      invariant forall j, k :: 0 <= j < k < i ==> doc.entries[j].ticket != doc.entries[k].ticket
      invariant forall j :: 0 <= j < i ==> doc.entries[j].ticket in seen
      invariant forall t :: t in seen ==> exists j :: 0 <= j < i && doc.entries[j].ticket == t
    {
      var entry := doc.entries[i];
      if !ValidEntry(entry) {
        assert entry in doc.entries;
        return false;
      }
      if entry.ticket in seen {
        return false;
      }
      seen := seen + {entry.ticket};
      assert doc.entries[..i + 1] == doc.entries[..i] + [entry];
    }
    assert doc.entries[..|doc.entries|] == doc.entries;
    ok := true;
  }
}
