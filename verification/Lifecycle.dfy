/** The lifecycle table of one tunnel, and what the audit rows it emits mean when they are
    read back. `Transition` is the table itself; `Replay` is an independent reader of audit
    rows; `History` is the shape every audit must have. The lemmas tie the three together. */
module Lifecycle {
  import opened Wrappers

  datatype ClaimState = Active | Revoked

  datatype Presence = Absent | Live

  datatype Event = Connect | LinkLost | Revoke

  datatype AuditKind = Claimed | Connected | Superseded | Disconnected | Withdrawn

  /** Policy error classes, the failure of a store call, and the table's panic. */
  datatype Error =
    | Invalid
    | Conflict
    | NotFound
    | Unauthorized
    | ClaimRevoked
    | StoreFailed
    | Panic

  datatype Status = Status(claim: ClaimState, presence: Presence)

  datatype Outcome =
    | Moved(status: Status, audit: seq<AuditKind>)
    | Refused(status: Status, error: Error)
    | Panicked

  function Transition(current: Status, event: Event): Outcome {
    if current.claim == Revoked then
      RevokedTransition(current, event)
    else match event
      case Connect =>
        if current.presence == Absent then
          Moved(Status(Active, Live), [Connected])
        else
          Moved(Status(Active, Live), [Superseded, Connected])
      case LinkLost =>
        if current.presence == Live then
          Moved(Status(Active, Absent), [Disconnected])
        else
          Moved(current, [])
      case Revoke =>
        if current.presence == Live then
          Moved(Status(Revoked, Absent), [Disconnected, Withdrawn])
        else
          Moved(Status(Revoked, Absent), [Withdrawn])
  }

  /** A revoked claim is inert; a revoked claim with a live link is a programming error. */
  function RevokedTransition(current: Status, event: Event): Outcome {
    if current.presence == Live then
      Panicked
    else match event
      case Connect => Refused(current, ClaimRevoked)
      case Revoke => Refused(current, Conflict)
      case LinkLost => Moved(current, [])
  }

  // ---------------------------------------------------------------------------------------
  // Reading an audit back
  // ---------------------------------------------------------------------------------------

  /** One thing that happened to a tunnel: an audit row was written, or the process died while
      the tunnel was live, which no row records. */
  datatype Mark = Row(kind: AuditKind) | Torn

  /** Where a reader of the marks is. `Handover` is the instant between the two rows of a
      takeover; an audit committed in whole batches is never read up to there. */
  datatype Position = Unclaimed | Idle | Serving | Handover | Closed | Broken

  function Read(p: Position, m: Mark): Position {
    match (p, m)
    case (Unclaimed, Row(Claimed)) => Idle
    case (Idle, Row(Connected)) => Serving
    case (Serving, Row(Superseded)) => Handover
    case (Handover, Row(Connected)) => Serving
    case (Serving, Row(Disconnected)) => Idle
    case (Serving, Torn) => Idle
    case (Idle, Row(Withdrawn)) => Closed
    case _ => Broken
  }

  function Replay(marks: seq<Mark>): Position {
    if marks == [] then Unclaimed else Read(Replay(marks[..|marks| - 1]), marks[|marks| - 1])
  }

  function PositionOf(status: Status): Position {
    match status
    case Status(Active, Absent) => Idle
    case Status(Active, Live) => Serving
    case Status(Revoked, Absent) => Closed
    case Status(Revoked, Live) => Broken
  }

  function Rows(kinds: seq<AuditKind>): seq<Mark> {
    seq(|kinds|, i requires 0 <= i < |kinds| => Row(kinds[i]))
  }

  /** The rows among the marks: what the durable audit of this tunnel holds. */
  function Written(marks: seq<Mark>): seq<AuditKind> {
    if marks == [] then []
    else
      var rest := Written(marks[..|marks| - 1]);
      var last := marks[|marks| - 1];
      if last.Row? then rest + [last.kind] else rest
  }

  lemma WrittenConcat(marks: seq<Mark>, kinds: seq<AuditKind>)
    ensures Written(marks + Rows(kinds)) == Written(marks) + kinds
  {
    if kinds == [] {
      assert marks + Rows(kinds) == marks;
    } else {
      var n := |kinds| - 1;
      WrittenConcat(marks, kinds[..n]);
      assert (marks + Rows(kinds))[..|marks| + n] == marks + Rows(kinds[..n]);
      assert kinds == kinds[..n] + [kinds[n]];
    }
  }

  lemma ReplayTwo(marks: seq<Mark>, a: Mark, b: Mark)
    ensures Replay(marks + [a]) == Read(Replay(marks), a)
    ensures Replay(marks + [a, b]) == Read(Read(Replay(marks), a), b)
  {
    assert (marks + [a])[..|marks|] == marks;
    assert (marks + [a, b])[..|marks| + 1] == marks + [a];
  }

  lemma ClaimedIsIdle(marks: seq<Mark>)
    requires Replay(marks) == Unclaimed
    ensures Replay(marks + Rows([Claimed])) == Idle
  {
    ReplayTwo(marks, Row(Claimed), Torn);
    hide Replay;
    assert Rows([Claimed]) == [Row(Claimed)];
  }

  /** The rows the table emits for an accepted event, read from the status before it, lead a
      reader to exactly the status after it. */
  lemma TableIsReadBack(marks: seq<Mark>, current: Status, event: Event)
    requires Replay(marks) == PositionOf(current)
    requires Transition(current, event).Moved?
    ensures Replay(marks + Rows(Transition(current, event).audit))
         == PositionOf(Transition(current, event).status)
  {
    var kinds := Transition(current, event).audit;
    if |kinds| == 0 {
      assert marks + Rows(kinds) == marks;
    } else if |kinds| == 1 {
      assert Rows(kinds) == [Row(kinds[0])];
      ReplayTwo(marks, Row(kinds[0]), Torn);
    } else {
      assert Rows(kinds) == [Row(kinds[0]), Row(kinds[1])];
      ReplayTwo(marks, Row(kinds[0]), Row(kinds[1]));
    }
  }

  /** The table panics exactly on a revoked claim that is live, refuses exactly a connection to or a
      second revocation of a revoked one, and takes every loss, of which only a live tunnel's leaves
      a row. */
  lemma TableRefusesExactly(current: Status, event: Event)
    ensures Transition(current, event).Panicked? <==> current == Status(Revoked, Live)
    ensures Transition(current, event).Refused? <==> current == Status(Revoked, Absent) && event != LinkLost
    ensures current == Status(Revoked, Absent) && event == Connect ==> Transition(current, event) == Refused(current, ClaimRevoked)
    ensures current == Status(Revoked, Absent) && event == Revoke ==> Transition(current, event) == Refused(current, Conflict)
    ensures event == LinkLost && Transition(current, event).Moved? ==>
      Transition(current, event) == Moved(Status(current.claim, Absent), if current.presence == Live then [Disconnected] else [])
  {
  }

  // ---------------------------------------------------------------------------------------
  // The shape of every audit
  // ---------------------------------------------------------------------------------------

  /** One unbroken live period: connected, taken over some number of times, and ended either
      by a recorded disconnect or by the death of the process. */
  datatype Tenancy = Tenancy(takeovers: nat, torn: bool)

  datatype History = History(ended: seq<Tenancy>, open: Option<nat>, revoked: bool) {
    /** A revocation only ever follows an absent state. */
    predicate WellFormed() {
      revoked ==> open.None?
    }

    function Position(): Position {
      if revoked then Closed else if open.Some? then Serving else Idle
    }

    function Print(): seq<Mark> {
      [Row(Claimed)] + PrintEnded(ended)
      + (if open.Some? then PrintOpen(open.value) else [])
      + (if revoked then [Row(Withdrawn)] else [])
    }
  }

  function PrintOpen(takeovers: nat): seq<Mark> {
    if takeovers == 0 then [Row(Connected)]
    else PrintOpen(takeovers - 1) + [Row(Superseded), Row(Connected)]
  }

  function PrintTenancy(t: Tenancy): seq<Mark> {
    PrintOpen(t.takeovers) + [if t.torn then Torn else Row(Disconnected)]
  }

  function PrintEnded(ts: seq<Tenancy>): seq<Mark> {
    if ts == [] then [] else PrintEnded(ts[..|ts| - 1]) + PrintTenancy(ts[|ts| - 1])
  }

  lemma ReplayOpen(before: seq<Mark>, takeovers: nat)
    requires Replay(before) == Idle
    ensures Replay(before + PrintOpen(takeovers)) == Serving
  {
    if takeovers == 0 {
      ReplayTwo(before, Row(Connected), Torn);
    } else {
      ReplayOpen(before, takeovers - 1);
      var shorter := before + PrintOpen(takeovers - 1);
      ReplayTwo(shorter, Row(Superseded), Row(Connected));
      assert before + PrintOpen(takeovers) == shorter + [Row(Superseded), Row(Connected)];
    }
  }

  lemma ReplayTenancy(before: seq<Mark>, t: Tenancy)
    requires Replay(before) == Idle
    ensures Replay(before + PrintTenancy(t)) == Idle
  {
    ReplayOpen(before, t.takeovers);
    var served := before + PrintOpen(t.takeovers);
    var last := if t.torn then Torn else Row(Disconnected);
    ReplayTwo(served, last, Torn);
    assert before + PrintTenancy(t) == served + [last];
  }

  lemma {:induction false} ReplayEnded(ts: seq<Tenancy>)
    ensures Replay([Row(Claimed)] + PrintEnded(ts)) == Idle
  {
    if ts == [] {
      assert [Row(Claimed)] + PrintEnded(ts) == [] + [Row(Claimed)];
      ReplayTwo([], Row(Claimed), Torn);
    } else {
      var n := |ts| - 1;
      var before := [Row(Claimed)] + PrintEnded(ts[..n]);
      ReplayEnded(ts[..n]);
      ReplayTenancy(before, ts[n]);
      assert [Row(Claimed)] + PrintEnded(ts) == before + PrintTenancy(ts[n]);
    }
  }

  /** Every well-formed history reads back to the position it ends in. */
  lemma HistoryReplays(h: History)
    requires h.WellFormed()
    ensures Replay(h.Print()) == h.Position()
  {
    var closed := [Row(Claimed)] + PrintEnded(h.ended);
    ReplayEnded(h.ended);
    if h.open.Some? {
      ReplayOpen(closed, h.open.value);
      assert h.Print() == closed + PrintOpen(h.open.value);
    } else if h.revoked {
      ReplayTwo(closed, Row(Withdrawn), Torn);
      assert h.Print() == closed + [Row(Withdrawn)];
    } else {
      assert h.Print() == closed;
    }
  }

  /** The history after one more complete batch of marks. */
  function Extend(h: History, batch: seq<Mark>): History
    requires Batch(h.Position(), batch)
  {
    if batch == [Row(Connected)] then h.(open := Some(0))
    else if batch == [Row(Withdrawn)] then h.(revoked := true)
    else if |batch| == 2 then h.(open := Some(h.open.value + 1))
    else h.(ended := h.ended + [Tenancy(h.open.value, batch[0].Torn?)], open := None)
  }

  predicate Batch(p: Position, batch: seq<Mark>) {
    match p
    case Idle => batch == [Row(Connected)] || batch == [Row(Withdrawn)]
    case Serving => batch == [Row(Superseded), Row(Connected)] || batch == [Row(Disconnected)] || batch == [Torn]
    case _ => false
  }

  lemma ExtendPrints(h: History, batch: seq<Mark>)
    requires h.WellFormed() && Batch(h.Position(), batch)
    ensures Extend(h, batch).WellFormed()
    ensures Extend(h, batch).Print() == h.Print() + batch
  {
    if h.Position() == Idle {
      IdlePrints(h, batch);
    } else if |batch| == 2 {
      TakeoverPrints(h);
    } else {
      EndingPrints(h, batch[0]);
    }
  }

  lemma IdlePrints(h: History, batch: seq<Mark>)
    requires h.open.None? && !h.revoked && (batch == [Row(Connected)] || batch == [Row(Withdrawn)])
    ensures Extend(h, batch).WellFormed() && Extend(h, batch).Print() == h.Print() + batch
  {
    var claimed := [Row(Claimed)] + PrintEnded(h.ended);
    hide PrintEnded;
    assert h.Print() == claimed;
  }

  lemma TakeoverPrints(h: History)
    requires h.open.Some? && !h.revoked
    ensures h.(open := Some(h.open.value + 1)).Print() == h.Print() + [Row(Superseded), Row(Connected)]
  {
    var claimed := [Row(Claimed)] + PrintEnded(h.ended);
    assert PrintOpen(h.open.value + 1) == PrintOpen(h.open.value) + [Row(Superseded), Row(Connected)];
    hide PrintEnded, PrintOpen;
    assert h.Print() == claimed + PrintOpen(h.open.value);
  }

  lemma EndingPrints(h: History, last: Mark)
    requires h.open.Some? && !h.revoked && (last == Torn || last == Row(Disconnected))
    ensures h.(ended := h.ended + [Tenancy(h.open.value, last.Torn?)], open := None).Print() == h.Print() + [last]
  {
    var t := Tenancy(h.open.value, last.Torn?);
    var ended := h.ended + [t];
    assert ended[..|h.ended|] == h.ended && ended[|ended| - 1] == t;
    assert PrintEnded(ended) == PrintEnded(h.ended) + PrintTenancy(t);
    assert PrintTenancy(t) == PrintOpen(h.open.value) + [last];
    hide PrintEnded, PrintOpen, PrintTenancy;
    assert h.Print() == [Row(Claimed)] + PrintEnded(h.ended) + PrintOpen(h.open.value);
  }

  /** A readable sequence of marks has a well-formed history: the claim, then ended
      tenancies, then possibly one open tenancy or one final revocation, and nothing else. */
  lemma {:induction false} ReplayHasHistory(marks: seq<Mark>) returns (h: History)
    requires Replay(marks) in {Idle, Serving, Closed}
    ensures h.WellFormed() && h.Print() == marks && h.Position() == Replay(marks)
  {
    var n := |marks| - 1;
    if marks[n] == Row(Claimed) {
      ClaimedComesFirst(marks);
      h := History([], None, false);
    } else {
      var k := LastBatch(marks);
      var g := ReplayHasHistory(marks[..k]);
      ExtendPrints(g, marks[k..]);
      h := Extend(g, marks[k..]);
      assert marks == marks[..k] + marks[k..];
      HistoryReplays(h);
    }
  }

  lemma ClaimedComesFirst(marks: seq<Mark>)
    requires marks != [] && Replay(marks) != Broken && marks[|marks| - 1] == Row(Claimed)
    ensures marks == [Row(Claimed)] && Replay(marks) == Idle
  {
    if marks[..|marks| - 1] != [] { ReplayNeverUnclaimed(marks[..|marks| - 1]); }
  }

  /** Where the last complete batch of marks begins. */
  lemma LastBatch(marks: seq<Mark>) returns (k: nat)
    requires Replay(marks) in {Idle, Serving, Closed} && marks[|marks| - 1] != Row(Claimed)
    ensures k < |marks| && Replay(marks[..k]) in {Idle, Serving} && Batch(Replay(marks[..k]), marks[k..])
  {
    var n := |marks| - 1;
    k := if Replay(marks[..n]) == Handover then n - 1 else n;
    if k == n - 1 {
      HandoverEndsInSuperseded(marks[..n]);
      assert marks[..n][..k] == marks[..k];
    }
    assert marks[k..] == if k == n then [marks[n]] else [marks[k], marks[n]];
  }

  lemma HandoverEndsInSuperseded(marks: seq<Mark>)
    requires Replay(marks) == Handover
    ensures |marks| > 0 && marks[|marks| - 1] == Row(Superseded)
    ensures Replay(marks[..|marks| - 1]) == Serving
  {
  }

  lemma {:induction false} ReplayNeverUnclaimed(marks: seq<Mark>)
    requires marks != []
    ensures Replay(marks) != Unclaimed
  {
  }

  // ---------------------------------------------------------------------------------------
  // Counting
  // ---------------------------------------------------------------------------------------

  function Count(marks: seq<Mark>, m: Mark): nat {
    if marks == [] then 0
    else Count(marks[..|marks| - 1], m) + (if marks[|marks| - 1] == m then 1 else 0)
  }

  function CountKind(kinds: seq<AuditKind>, k: AuditKind): nat {
    if kinds == [] then 0
    else CountKind(kinds[..|kinds| - 1], k) + (if kinds[|kinds| - 1] == k then 1 else 0)
  }

  lemma CountWritten(marks: seq<Mark>, k: AuditKind)
    ensures CountKind(Written(marks), k) == Count(marks, Row(k))
  {
    if marks != [] {
      var n := |marks| - 1;
      CountWritten(marks[..n], k);
      if marks[n].Row? {
        assert Written(marks)[..|Written(marks)| - 1] == Written(marks[..n]);
      }
    }
  }

  /** Every connection is accounted for: it was superseded, disconnected, torn by a crash, or
      is being served now. */
  lemma {:induction false} ReplayBalances(marks: seq<Mark>)
    requires Replay(marks) != Broken
    ensures Count(marks, Row(Connected)) - Count(marks, Row(Superseded)) - Count(marks, Row(Disconnected))
         == Count(marks, Torn) + (if Replay(marks) == Serving then 1 else 0)
  {
    if marks != [] {
      ReplayBalances(marks[..|marks| - 1]);
    }
  }
}
