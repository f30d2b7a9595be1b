/** The customer-side agent: dial, serve until the link ends, wait on the schedule, dial again;
    and what the server's refusals and close frames mean to it. */
module Agent {
  import opened Wrappers
  import opened Lifecycle
  import opened TunnelPolicy

  // ---------------------------------------------------------------------------------------
  // What the far end says
  // ---------------------------------------------------------------------------------------

  const STATUS_SUPERSEDED := 4001
  const STATUS_REVOKED := 4003
  const STATUS_GOING_AWAY := 1001

  function CloseStatus(reason: CloseReason): int {
    match reason
    case SupersededClose => STATUS_SUPERSEDED
    case RevokedClose => STATUS_REVOKED
    case ShutdownClose => STATUS_GOING_AWAY
  }

  /** The reason an ended link carries: set only when the server evicted the agent. */
  function EvictionReason(closeStatus: int): Option<CloseReason> {
    if closeStatus == STATUS_SUPERSEDED then Some(SupersededClose)
    else if closeStatus == STATUS_REVOKED then Some(RevokedClose)
    else None
  }

  /** What a session refused by `Attach` is closed with. */
  function CloseReasonFor(error: Error): CloseReason {
    if error == ClaimRevoked || error == Unauthorized then RevokedClose else ShutdownClose
  }

  /** The status a dial refused by `Authenticate` reads. */
  function HttpStatus(error: Error): int {
    if error == Unauthorized then 401 else if error == Conflict then 409 else 500
  }

  predicate PermanentStatus(status: int) {
    status == 401 || status == 403 || status == 409
  }

  /** A close frame tells the agent which eviction it was, and a server going away is none. */
  lemma EvictionsSurviveTheClose(reason: CloseReason)
    ensures CloseStatus(SupersededClose) == 4001 && CloseStatus(RevokedClose) == 4003 && CloseStatus(ShutdownClose) == 1001
    ensures EvictionReason(CloseStatus(reason)) == (if reason == ShutdownClose then None else Some(reason))
  {
  }

  // ---------------------------------------------------------------------------------------
  // The schedule
  // ---------------------------------------------------------------------------------------

  /** A schedule has at least one delay and every delay is positive. */
  predicate ValidSchedule(delays: seq<int>) {
    delays != [] && forall i | 0 <= i < |delays| :: delays[i] > 0
  }

  function Delay(delays: seq<int>, attempt: int): (d: int)
    requires ValidSchedule(delays)
    ensures d > 0
    ensures attempt <= 1 ==> d == delays[0]
    ensures 1 <= attempt <= |delays| ==> d == delays[attempt - 1]
    ensures attempt >= |delays| ==> d == delays[|delays| - 1]
  {
    var attempt := if attempt < 1 then 1 else attempt;
    if attempt > |delays| then delays[|delays| - 1] else delays[attempt - 1]
  }

  // ---------------------------------------------------------------------------------------
  // The loop
  // ---------------------------------------------------------------------------------------

  /** What the world answers one dial: a link that ended with a close status, a refusal with a
      status code, or a network failure. */
  datatype Answer = Linked(closeStatus: int) | Refused(status: int) | Unreachable

  /** When in a turn the context was cancelled: while dialing or serving, during the wait, or
      after it. A cancelled dial is answered as unreachable and a cancelled link with whatever
      close status it had read. */
  datatype Cancellation = NotCancelled | WhileConnecting | WhileWaiting | AfterWaiting

  /** One turn of the loop. */
  datatype Turn = Turn(answer: Answer, cancellation: Cancellation) {
    predicate Cancelled() { !cancellation.NotCancelled? }
  }

  datatype Ending = Cancelled | Refusal(status: int) | Eviction(reason: CloseReason) | StillRunning

  /** The answers no dial may follow. */
  predicate Final(answer: Answer) {
    match answer
    case Linked(closeStatus) => EvictionReason(closeStatus).Some?
    case Refused(status) => PermanentStatus(status)
    case Unreachable => false
  }

  /** Dial failures since the last established link. */
  function FailuresSinceLink(turns: seq<Turn>): nat {
    if turns == [] || turns[|turns| - 1].answer.Linked? then 0
    else 1 + FailuresSinceLink(turns[..|turns| - 1])
  }

  predicate EverLinked(turns: seq<Turn>) {
    exists i :: 0 <= i < |turns| && turns[i].answer.Linked?
  }

  /** What the wait after these turns must be computed from. */
  function WaitIndex(turns: seq<Turn>): nat {
    FailuresSinceLink(turns) + (if EverLinked(turns) then 1 else 0)
  }

  /** The answers that end a run, by their codes. */
  lemma FinalExactly(answer: Answer)
    ensures Final(answer) <==> match answer
      case Refused(status) => status in {401, 403, 409}
      case Linked(closeStatus) => closeStatus in {4001, 4003}
      case Unreachable => false
  {
  }

  /** Runs against a script of answers. `waits` are the delays waited, `dials` the number of
      turns taken. */
  method Run(delays: seq<int>, script: seq<Turn>, cancelledAtStart: bool) returns (waits: seq<int>, dials: nat, ending: Ending)
    requires ValidSchedule(delays)
    ensures dials <= |script|
    ensures forall k | 0 <= k < |waits| :: k < dials && waits[k] == Delay(delays, WaitIndex(script[..k + 1]))
    ensures forall k | 0 <= k < dials - 1 :: !Final(script[k].answer) && !script[k].Cancelled()
    ensures |waits| == (if dials > 0 && Final(script[dials - 1].answer) then dials - 1 else dials)
    ensures ending ==
      if cancelledAtStart then Cancelled
      else if dials > 0 && Final(script[dials - 1].answer) then
        match script[dials - 1].answer
        case Refused(status) => Refusal(status)
        case Linked(closeStatus) => Eviction(if closeStatus == 4001 then SupersededClose else RevokedClose)
        case Unreachable => StillRunning
      else if dials > 0 && script[dials - 1].Cancelled() then Cancelled
      else StillRunning
    ensures ending == StillRunning ==> dials == |script|
    ensures cancelledAtStart ==> dials == 0
  {
    waits, dials := [], 0;
    var failures, cancelled := 0, cancelledAtStart;
    while !cancelled && dials < |script|
      invariant dials <= |script| && |waits| == dials
      invariant cancelled == if dials == 0 then cancelledAtStart else script[dials - 1].Cancelled()
      invariant cancelledAtStart ==> dials == 0
      invariant failures == WaitIndex(script[..dials])
      invariant forall k | 0 <= k < dials :: waits[k] == Delay(delays, WaitIndex(script[..k + 1]))
      invariant forall k | 0 <= k < dials :: !Final(script[k].answer)
      invariant forall k | 0 <= k < dials - 1 :: !script[k].Cancelled()
      decreases |script| - dials
    {
      var turn := script[dials];
      WaitIndexStep(script[..dials], turn);
      assert script[..dials] + [turn] == script[..dials + 1];
      dials := dials + 1;
      hide WaitIndex, Delay;
      match turn.answer {
        case Refused(status) =>
          if PermanentStatus(status) {
            return waits, dials, Refusal(status);
          }
          failures := failures + 1;
        case Unreachable =>
          failures := failures + 1;
        case Linked(closeStatus) =>
          var reason := EvictionReason(closeStatus);
          if reason.Some? {
            return waits, dials, Eviction(reason.value);
          }
          failures := 1;
      }
      waits := waits + [Delay(delays, failures)];
      if turn.cancellation.WhileConnecting? || turn.cancellation.WhileWaiting? {
        return waits, dials, Cancelled;
      }
      cancelled := turn.cancellation.AfterWaiting?;
    }
    return waits, dials, if cancelled then Cancelled else StillRunning;
  }

  lemma WaitIndexStep(turns: seq<Turn>, turn: Turn)
    ensures WaitIndex(turns + [turn]) == (if turn.answer.Linked? then 1 else WaitIndex(turns) + 1)
  {
    var longer := turns + [turn];
    assert longer[..|turns|] == turns;
    assert longer[|turns|] == turn;
    if EverLinked(turns) {
      var i :| 0 <= i < |turns| && turns[i].answer.Linked?;
      assert longer[i].answer.Linked?;
    }
  }
}
