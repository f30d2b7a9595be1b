/** How sessions are closed, and what their agents are told. A session keeps the first reason it is
    closed for: a takeover or a revocation, a refused attach, a shutdown; one cut at the shutdown
    deadline is told nothing. The machine adds each session's line to the handler's. */
module Farewells {
  import opened Wrappers
  import opened Lifecycle
  import opened TunnelPolicy
  import opened TunnelRuns
  import LinkHandler
  import TunnelTheorems
  import Agent
  import AuditRows
  import Refusals
  import TunnelDecisions

  /** Closed for a reason, the line is telling the agent so until the close frame is out or the
      farewell gives up. */
  datatype Line = Open | Closing(reason: CloseReason) | Told(reason: CloseReason) | Cut {
    function Close(because: CloseReason): Line {
      if Open? then Closing(because) else this
    }

    function CutOff(): Line {
      if Told? then this else Cut
    }

    /** The agent is being told this, or was. */
    predicate Tells(because: CloseReason) {
      (Closing? || Told?) && reason == because
    }
  }

  /** The server end of one link. */
  class Session {
    var line: Line

    constructor ()
      ensures line == Open
    {
      line := Open;
    }

    /** The first close wins. */
    method Close(reason: CloseReason)
      modifies this
      ensures line == old(line).Close(reason)
    {
      if !line.Open? {
        return;
      }
      line := Closing(reason);
    }

    /** The background half of a close: the frame, unless the handshake fails, then the cut. */
    method Farewell(sent: bool)
      requires !line.Open?
      modifies this
      ensures line == if old(line).Closing? && sent then Told(old(line).reason) else old(line).CutOff()
    {
      if line.Closing? && sent {
        line := Told(line.reason);
      }
      CutOff();
    }

    method CutOff()
      modifies this
      ensures line == old(line).CutOff()
    {
      if !line.Told? {
        line := Cut;
      }
    }
  }

  /** The error a session's attach was refused with, and whether it was closed over it. */
  datatype Refusal = Refusal(error: Error, closed: bool)

  datatype State = State(handler: LinkHandler.State, lines: map<LinkId, Line>, refusals: map<LinkId, Refusal>)

  datatype Move =
    | ByHandler(move: LinkHandler.Move)
    | CloseForShutdown(id: LinkHandler.SessionId)
    | CloseRefused(id: LinkHandler.SessionId)
    | CutOff(caller: nat, id: LinkHandler.SessionId)
    | Farewell(link: LinkId, sent: bool)

  function LinkOf(s: State, id: LinkHandler.SessionId): LinkId
    requires id in s.handler.sessions
  {
    s.handler.sessions[id].link
  }

  predicate Allowed(s: State, m: Move) {
    match m
    case ByHandler(move) =>
      && LinkHandler.Allowed(s.handler, move)
      && (move.Upgrade? ==> move.link !in s.lines)
      && (move.Untrack? && s.handler.sessions[move.id].phase.Rejected? ==>
            LinkOf(s, move.id) in s.refusals && s.refusals[LinkOf(s, move.id)].closed)
    case CloseForShutdown(id) =>
      id in s.handler.sessions && s.handler.sessions[id].phase.Attached? && s.handler.door.closing
    case CloseRefused(id) =>
      && id in s.handler.sessions && s.handler.sessions[id].phase.Rejected?
      && LinkOf(s, id) in s.refusals && !s.refusals[LinkOf(s, id)].closed
    case CutOff(caller, id) =>
      && caller in s.handler.callers && s.handler.callers[caller].Cutting?
      && id in s.handler.door.live && id in s.handler.sessions
    case Farewell(link, _) => link in s.lines && s.lines[link].Closing?
  }

  function Shut(lines: map<LinkId, Line>, link: LinkId, reason: CloseReason): map<LinkId, Line> {
    if link in lines then lines[link := lines[link].Close(reason)] else lines
  }

  function ShutAll(lines: map<LinkId, Line>, closed: seq<Close>): map<LinkId, Line> {
    if closed == [] then lines else ShutAll(Shut(lines, closed[0].link, closed[0].reason), closed[1..])
  }

  /** The links policy closes in a handler's move. */
  function Evictions(h: LinkHandler.State, m: LinkHandler.Move): seq<Close>
    requires LinkHandler.Allowed(h, m)
  {
    match m
    case AttachLink(id, _, _, _, _, _) => AttachEffect(h.world, LinkHandler.AttachStepOf(h.sessions[id], m)).closed
    case Operate(step) => if step.RevokeTunnel? then RevokeEffect(h.world, step).closed else []
    case _ => []
  }

  function LinesAfter(s: State, m: LinkHandler.Move): map<LinkId, Line>
    requires LinkHandler.Allowed(s.handler, m)
  {
    match m
    case Upgrade(_, _, link) => s.lines[link := Open]
    case Track(id) => if s.handler.door.closing then Shut(s.lines, LinkOf(s, id), ShutdownClose) else s.lines
    case _ => ShutAll(s.lines, Evictions(s.handler, m))
  }

  function RefusalsAfter(s: State, m: LinkHandler.Move): map<LinkId, Refusal>
    requires LinkHandler.Allowed(s.handler, m)
  {
    if m.AttachLink? then
      var r := AttachEffect(s.handler.world, LinkHandler.AttachStepOf(s.handler.sessions[m.id], m)).result;
      if r.Err? then s.refusals[LinkOf(s, m.id) := Refusal(r.error, false)] else s.refusals
    else s.refusals
  }

  function After(s: State, m: Move): State
    requires Allowed(s, m)
  {
    match m
    case ByHandler(move) => State(LinkHandler.After(s.handler, move), LinesAfter(s, move), RefusalsAfter(s, move))
    case CloseForShutdown(id) => s.(lines := Shut(s.lines, LinkOf(s, id), ShutdownClose))
    case CloseRefused(id) =>
      var link := LinkOf(s, id);
      s.(lines := Shut(s.lines, link, Agent.CloseReasonFor(s.refusals[link].error)),
         refusals := s.refusals[link := s.refusals[link].(closed := true)])
    case CutOff(_, id) =>
      var link := LinkOf(s, id);
      s.(lines := if link in s.lines then s.lines[link := s.lines[link].CutOff()] else s.lines)
    case Farewell(link, sent) =>
      s.(lines := s.lines[link := if sent then Told(s.lines[link].reason) else Cut])
  }

  ghost predicate Behavior(ss: seq<State>, moves: seq<Move>) {
    && |ss| == |moves| + 1
    && LinkHandler.Fresh(ss[0].handler) && Sound(ss[0].handler.world) && ss[0].lines == map[] && ss[0].refusals == map[]
    && forall i | 0 <= i < |moves| :: Allowed(ss[i], moves[i]) && ss[i + 1] == After(ss[i], moves[i])
  }

  // ---------------------------------------------------------------------------------------
  // What a handler's move does to the links
  // ---------------------------------------------------------------------------------------

  /** The fate of a link that policy closes for this reason. */
  function FateOf(reason: CloseReason): Fate {
    match reason
    case SupersededClose => BySupersession
    case RevokedClose => ByRevocation
    case ShutdownClose => InTable
  }

  /** Links only join by the attach of their own session; what left stays as it was; and policy
      closes exactly the link it takes out of the table, for the reason of its fate. */
  ghost predicate Turns(w: World, v: World, joining: Option<LinkId>, closed: seq<Close>) {
    && (forall l | l in w.links :: l in v.links && (w.links[l].fate != InTable ==> v.links[l] == w.links[l]))
    && (forall l | l in v.links && l !in w.links :: joining == Some(l))
    && (forall t | t in v.tunnels.live ::
          joining == Some(v.tunnels.live[t].link) || (t in w.tunnels.live && w.tunnels.live[t].link == v.tunnels.live[t].link))
    && |closed| <= 1
    && (forall c | c in closed ::
          c.link in w.links && w.links[c.link].fate == InTable && c.reason != ShutdownClose
          && c.link in v.links && v.links[c.link].fate == FateOf(c.reason)
          && exists t :: t in w.tunnels.live && w.tunnels.live[t].link == c.link)
    && (forall l | l in w.links && l in v.links && w.links[l].fate == InTable && v.links[l].fate in {BySupersession, ByRevocation} ::
          closed == [Close(l, if v.links[l].fate == BySupersession then SupersededClose else RevokedClose)])
    && (joining.Some? && joining.value in v.links && joining.value !in w.links ==> v.links[joining.value].fate == InTable)
  }

  lemma StillTurns(w: World, v: World)
    requires v.links == w.links && v.tunnels.live == w.tunnels.live
    ensures Turns(w, v, None, [])
  {
  }

  /** One record took another's place, or joined. */
  lemma JoinTurns(w: World, v: World, s: Subdomain, link: LinkId, record: LinkRecord, generation: nat)
    requires link !in w.links && record.fate == InTable && s !in w.tunnels.live
    requires v.links == w.links[link := record]
    requires v.tunnels.live == w.tunnels.live[s := Attachment(link, generation)]
    ensures Turns(w, v, Some(link), [])
  {
  }

  lemma ReplaceTurns(w: World, v: World, s: Subdomain, gone: LinkId, left: LinkRecord, link: LinkId, record: LinkRecord, generation: nat)
    requires link !in w.links && record.fate == InTable && s in w.tunnels.live && w.tunnels.live[s].link == gone
    requires gone in w.links && w.links[gone].fate == InTable && left.fate == BySupersession
    requires v.links == w.links[gone := left][link := record]
    requires v.tunnels.live == w.tunnels.live[s := Attachment(link, generation)]
    ensures Turns(w, v, Some(link), [Close(gone, SupersededClose)])
  {
  }

  lemma InstalledTurns(w: World, v: World, s: Subdomain, link: LinkId)
    requires TableSound(w) && Installed(w, v, s, link)
    ensures Turns(w, v, Some(link), if s in w.tunnels.live then [Close(w.tunnels.live[s].link, SupersededClose)] else [])
    ensures link in v.links
  {
    var record := LinkRecord(s, w.tunnels.claims[s].tokenHash, [], InTable);
    hide Turns;
    if s in w.tunnels.live {
      var gone := w.tunnels.live[s].link;
      var left := w.links[gone].(closes := w.links[gone].closes + [SupersededClose], fate := BySupersession);
      ReplaceTurns(w, v, s, gone, left, link, record, w.tunnels.generation + 1);
    } else {
      JoinTurns(w, v, s, link, record, w.tunnels.generation + 1);
    }
  }

  lemma DetachedTurns(w: World, v: World, s: Subdomain, reasons: seq<CloseReason>, fate: Fate)
    requires TableSound(w) && Detached(w, v, s, reasons, fate) && fate in {ByLoss, ByRevocation}
    ensures Turns(w, v, None, if fate == ByRevocation then [Close(w.tunnels.live[s].link, RevokedClose)] else [])
  {
    var gone := w.tunnels.live[s].link;
    assert gone in w.links && w.links[gone].fate == InTable;
    assert v.links == w.links[gone := w.links[gone].(closes := w.links[gone].closes + reasons, fate := fate)];
    hide TableSound, Leave;
  }

  lemma AttachTurns(w: World, step: Step)
    requires TableSound(w) && step.Attach? && Enabled(w, step)
    ensures Turns(w, Next(w, step), Some(step.link), AttachEffect(w, step).closed)
    ensures AttachEffect(w, step).result.Err? ==> AttachEffect(w, step).closed == [] && Next(w, step).links == w.links
    ensures AttachEffect(w, step).result.Ok? ==> step.link in Next(w, step).links
  {
    AttachMoves(w, step);
    AttachCloses(w, step);
    hide Next, Enabled, AttachEffect, TableSound;
    if AttachEffect(w, step).result.Ok? {
      hide Turns;
      InstalledTurns(w, Next(w, step), step.claim.subdomain, step.link);
    }
  }

  lemma AttachCloses(w: World, step: Step)
    requires step.Attach? && Enabled(w, step)
    ensures AttachEffect(w, step).closed ==
      if AttachEffect(w, step).result.Ok? && step.claim.subdomain in w.tunnels.live
      then [Close(w.tunnels.live[step.claim.subdomain].link, SupersededClose)] else []
  {
  }

  lemma RevokeTurns(w: World, step: Step)
    requires TableSound(w) && step.RevokeTunnel? && Enabled(w, step)
    ensures Turns(w, Next(w, step), None, RevokeEffect(w, step).closed)
  {
    RevokeMoves(w, step);
    RevokeCloses(w, step);
    hide Next, Enabled, RevokeEffect, TableSound, ClaimsMoved, Turns;
    if RevokeEffect(w, step).result.Ok? && step.subdomain in w.tunnels.live {
      DetachedTurns(w, Next(w, step), step.subdomain, [RevokedClose], ByRevocation);
    } else {
      StillTurns(w, Next(w, step));
    }
  }

  lemma RevokeCloses(w: World, step: Step)
    requires step.RevokeTunnel? && Enabled(w, step)
    ensures RevokeEffect(w, step).closed ==
      if RevokeEffect(w, step).result.Ok? && step.subdomain in w.tunnels.live
      then [Close(w.tunnels.live[step.subdomain].link, RevokedClose)] else []
  {
  }

  lemma LostTurns(w: World, step: Step)
    requires TableSound(w) && step.Lost? && Enabled(w, step)
    ensures Turns(w, Next(w, step), None, [])
  {
    LostMoves(w, step);
    hide Next, Enabled, LostEffect, TableSound, Turns;
    if SameTables(w, Next(w, step)) {
      StillTurns(w, Next(w, step));
    } else {
      DetachedTurns(w, Next(w, step), w.handles[step.generation].subdomain, [], ByLoss);
    }
  }

  function Joining(h: LinkHandler.State, m: LinkHandler.Move): Option<LinkId>
    requires LinkHandler.Allowed(h, m)
  {
    if m.AttachLink? then Some(h.sessions[m.id].link) else None
  }

  lemma HandlerTurns(h: LinkHandler.State, m: LinkHandler.Move)
    requires Sound(h.world) && LinkHandler.Allowed(h, m)
    ensures Turns(h.world, LinkHandler.After(h, m).world, Joining(h, m), Evictions(h, m))
  {
    TunnelTheorems.SoundParts(h.world);
    hide Sound, TableSound, Next, Enabled, Turns, AttachStep, LostStep, RevokeStep, ClaimStep;
    match m
    case AttachLink(id, _, _, _, _, _) => AttachTurns(h.world, LinkHandler.AttachStepOf(h.sessions[id], m));
    case Report(id, at, committed) => LostTurns(h.world, Lost(h.sessions[id].phase.generation, at, committed));
    case Operate(step) =>
      if step.RevokeTunnel? { RevokeTurns(h.world, step); } else { ClaimTurns(h.world, step); }
    case _ => StillTurns(h.world, h.world);
  }

  lemma ClaimTurns(w: World, step: Step)
    requires step.ClaimTunnel? && Enabled(w, step)
    ensures Turns(w, Next(w, step), None, [])
  {
    StillTurns(w, Next(w, step));
    hide Turns;
  }

  // ---------------------------------------------------------------------------------------
  // What a move does to one line
  // ---------------------------------------------------------------------------------------

  /** The reason a move closes a link for, if it does. */
  function Reason(s: State, m: Move, l: LinkId): Option<CloseReason>
    requires Allowed(s, m)
  {
    match m
    case ByHandler(move) =>
      if move.Track? then
        if s.handler.door.closing && LinkOf(s, move.id) == l then Some(ShutdownClose) else None
      else
        var closed := Evictions(s.handler, move);
        if closed != [] && closed[0].link == l then Some(closed[0].reason) else None
    case CloseForShutdown(id) => if LinkOf(s, id) == l then Some(ShutdownClose) else None
    case CloseRefused(id) => if LinkOf(s, id) == l then Some(Agent.CloseReasonFor(s.refusals[l].error)) else None
    case _ => None
  }

  predicate Cuts(s: State, m: Move, l: LinkId)
    requires Allowed(s, m)
  {
    m.CutOff? && LinkOf(s, m.id) == l
  }

  /** A move of the shutdown that ends the link: it turns the session away, closes it, or cuts it. */
  predicate ShutsDown(s: State, m: Move, l: LinkId) {
    Allowed(s, m) && (Cuts(s, m, l) || (Reason(s, m, l) == Some(ShutdownClose) && !m.CloseRefused?))
  }

  lemma ShutOne(lines: map<LinkId, Line>, closed: seq<Close>)
    requires |closed| <= 1
    ensures ShutAll(lines, closed) == if closed == [] then lines else Shut(lines, closed[0].link, closed[0].reason)
  {
    if closed != [] { assert closed[1..] == []; }
  }

  lemma LineAfter(s: State, m: Move, l: LinkId)
    requires Allowed(s, m) && (m.ByHandler? ==> |Evictions(s.handler, m.move)| <= 1)
    ensures l !in s.lines && l in After(s, m).lines ==> After(s, m).lines[l] == Open && m.ByHandler? && m.move.Upgrade?
    ensures l in s.lines ==> l in After(s, m).lines
    ensures l in s.lines ==>
      After(s, m).lines[l] ==
        if Cuts(s, m, l) then s.lines[l].CutOff()
        else if m.Farewell? && m.link == l then (if m.sent then Told(s.lines[l].reason) else Cut)
        else if Reason(s, m, l).Some? then s.lines[l].Close(Reason(s, m, l).value)
        else s.lines[l]
  {
    hide LinkHandler.Allowed, LinkHandler.After, AttachEffect, RevokeEffect;
    if m.ByHandler? && !m.move.Upgrade? && !m.move.Track? { ShutOne(s.lines, Evictions(s.handler, m.move)); }
  }

  // ---------------------------------------------------------------------------------------
  // What every move keeps
  // ---------------------------------------------------------------------------------------

  /** Sessions have lines and links of their own, as has whatever is in the table. */
  ghost predicate LinesKept(s: State) {
    && (forall id | id in s.handler.sessions :: LinkOf(s, id) in s.lines)
    && (forall id, o | id in s.handler.sessions && o in s.handler.sessions :: LinkOf(s, id) == LinkOf(s, o) ==> id == o)
    && (forall t | t in s.handler.world.tunnels.live :: s.handler.world.tunnels.live[t].link in s.lines)
  }

  predicate BeforeAttach(phase: LinkHandler.Phase) {
    phase.Upgraded? || phase.TurnedAway? || phase.Tracked?
  }

  /** A refusal is of a link that never joined, and its session is past its attach. */
  ghost predicate RefusalsSound(s: State) {
    && (forall l | l in s.refusals :: l !in s.handler.world.links)
    && (forall id | id in s.handler.sessions && BeforeAttach(s.handler.sessions[id].phase) :: LinkOf(s, id) !in s.refusals)
    && (forall id | id in s.handler.sessions && s.handler.sessions[id].phase.Rejected? :: LinkOf(s, id) in s.refusals)
  }

  /** Refusals are of links that have lines. */
  ghost predicate RefusalsLined(s: State) {
    forall l | l in s.refusals :: l in s.lines
  }

  predicate RefusedFor(s: State, l: LinkId, reason: CloseReason) {
    l in s.refusals && s.refusals[l].closed && Agent.CloseReasonFor(s.refusals[l].error) == reason
  }

  /** What must have happened for an agent to be told this. */
  predicate Cause(s: State, l: LinkId, reason: CloseReason) {
    match reason
    case SupersededClose => l in s.handler.world.links && s.handler.world.links[l].fate == BySupersession
    case RevokedClose => (l in s.handler.world.links && s.handler.world.links[l].fate == ByRevocation) || RefusedFor(s, l, RevokedClose)
    case ShutdownClose => s.handler.door.closing || RefusedFor(s, l, ShutdownClose)
  }

  ghost predicate LinesTrue(s: State) {
    forall l, reason | l in s.lines && s.lines[l].Tells(reason) :: Cause(s, l, reason)
  }

  ghost predicate FarewellsSound(s: State) {
    Sound(s.handler.world) && LinesKept(s) && RefusalsSound(s) && RefusalsLined(s) && LinesTrue(s)
  }

  /** A handler's move keeps every session's link and moves at most one session. */
  ghost predicate SessionsMove(h: LinkHandler.State, v: LinkHandler.State, m: LinkHandler.Move) {
    && (forall id | id in h.sessions :: id in v.sessions && v.sessions[id].link == h.sessions[id].link && v.sessions[id].claim == h.sessions[id].claim)
    && (forall id | id in v.sessions && id !in h.sessions ::
          m.Upgrade? && id == m.id && v.sessions[id].link == m.link && v.sessions[id].phase.Upgraded?)
    && (forall id | id in h.sessions && BeforeAttach(v.sessions[id].phase) :: BeforeAttach(h.sessions[id].phase))
    && (forall id | id in h.sessions && v.sessions[id].phase.Rejected? :: h.sessions[id].phase.Rejected? || (m.AttachLink? && id == m.id))
    && (m.AttachLink? ==>
          && m.id in h.sessions && h.sessions[m.id].phase.Tracked?
          && (v.sessions[m.id].phase.Rejected? || v.sessions[m.id].phase.Attached?))
    && (h.door.closing ==> v.door.closing)
  }

  lemma HandlerSessions(h: LinkHandler.State, m: LinkHandler.Move)
    requires LinkHandler.Allowed(h, m)
    ensures SessionsMove(h, LinkHandler.After(h, m), m)
    ensures m.AttachLink? ==>
      var r := AttachEffect(h.world, LinkHandler.AttachStepOf(h.sessions[m.id], m)).result;
      && (LinkHandler.After(h, m).sessions[m.id].phase.Rejected? <==> r.Err?)
      && h.sessions[m.id].link !in h.world.links
  {
    hide Next, AttachEffect, LostEffect;
    if m.AttachLink? { AttachesOne(h, m); }
    hide Enabled;
    if !m.AttachLink? { OthersMove(h, m); }
  }

  lemma AttachesOne(h: LinkHandler.State, m: LinkHandler.Move)
    requires LinkHandler.Allowed(h, m) && m.AttachLink?
    ensures SessionsMove(h, LinkHandler.After(h, m), m)
    ensures var r := AttachEffect(h.world, LinkHandler.AttachStepOf(h.sessions[m.id], m)).result;
      && (LinkHandler.After(h, m).sessions[m.id].phase.Rejected? <==> r.Err?)
      && h.sessions[m.id].link !in h.world.links
  {
    hide Next, AttachEffect;
  }

  lemma OthersMove(h: LinkHandler.State, m: LinkHandler.Move)
    requires LinkHandler.Allowed(h, m) && !m.AttachLink?
    ensures SessionsMove(h, LinkHandler.After(h, m), m)
  {
    hide Next, Enabled, LostEffect;
  }

  lemma MoveKeepsWorld(s: State, m: Move)
    requires Sound(s.handler.world) && Allowed(s, m)
    ensures Sound(After(s, m).handler.world)
  {
    hide Sound, LinkHandler.Allowed, LinkHandler.After;
    if m.ByHandler? { LinkHandler.MoveKeepsSound(s.handler, m.move); }
  }

  /** What the handler's half of a move does. */
  ghost predicate HalfMoves(s: State, m: Move)
    requires Allowed(s, m)
  {
    if m.ByHandler? then
      && Turns(s.handler.world, After(s, m).handler.world, Joining(s.handler, m.move), Evictions(s.handler, m.move))
      && SessionsMove(s.handler, After(s, m).handler, m.move)
    else After(s, m).handler == s.handler
  }

  lemma HalfMovesAlways(s: State, m: Move)
    requires Sound(s.handler.world) && Allowed(s, m)
    ensures HalfMoves(s, m)
    ensures m.ByHandler? ==> |Evictions(s.handler, m.move)| <= 1
  {
    hide Sound, LinkHandler.Allowed, LinkHandler.After, SessionsMove;
    if m.ByHandler? {
      HandlerTurns(s.handler, m.move);
      HandlerSessions(s.handler, m.move);
    }
  }

  /** Lines are only added. */
  lemma LinesGrow(s: State, m: Move)
    requires FarewellsSound(s) && Allowed(s, m)
    ensures forall l | l in s.lines :: l in After(s, m).lines
    ensures m.ByHandler? && m.move.Upgrade? ==> m.move.link in After(s, m).lines
  {
    HalfMovesAlways(s, m);
    forall l { LineAfter(s, m, l); }
    hide FarewellsSound, LinkHandler.Allowed, LinkHandler.After, Evictions, ShutAll, HalfMoves;
  }

  lemma MoveKeepsApart(s: State, m: Move)
    requires FarewellsSound(s) && Allowed(s, m)
    ensures var v := After(s, m);
      && (forall id | id in v.handler.sessions :: LinkOf(v, id) in v.lines)
      && (forall id, o | id in v.handler.sessions && o in v.handler.sessions :: LinkOf(v, id) == LinkOf(v, o) ==> id == o)
  {
    HalfMovesAlways(s, m);
    LinesGrow(s, m);
    hide Sound, LinkHandler.Allowed, LinkHandler.After, LinesAfter, RefusalsAfter, RefusalsSound, LinesTrue, RefusalsLined, Turns;
  }

  lemma MoveKeepsServed(s: State, m: Move)
    requires FarewellsSound(s) && Allowed(s, m)
    ensures var v := After(s, m);
      && (forall t | t in v.handler.world.tunnels.live :: v.handler.world.tunnels.live[t].link in v.lines)
      && RefusalsLined(v)
  {
    HalfMovesAlways(s, m);
    LinesGrow(s, m);
    hide Sound, LinkHandler.Allowed, LinkHandler.After, LinesAfter, AttachEffect, Evictions, RefusalsSound, LinesTrue;
  }

  lemma MoveKeepsLines(s: State, m: Move)
    requires FarewellsSound(s) && Allowed(s, m)
    ensures LinesKept(After(s, m)) && RefusalsLined(After(s, m))
  {
    hide FarewellsSound, Allowed, After, RefusalsLined;
    MoveKeepsApart(s, m);
    MoveKeepsServed(s, m);
  }

  /** A handler's move that refuses nothing. */
  lemma AdmittingKeepsRefusals(s: State, v: State, m: LinkHandler.Move, joining: Option<LinkId>, closed: seq<Close>)
    requires RefusalsSound(s) && v.refusals == s.refusals
    requires Turns(s.handler.world, v.handler.world, joining, closed) && SessionsMove(s.handler, v.handler, m)
    requires joining == if m.AttachLink? then Some(LinkOf(s, m.id)) else None
    requires m.AttachLink? ==> v.handler.sessions[m.id].phase.Attached?
    requires m.Upgrade? ==> m.link !in s.refusals
    ensures RefusalsSound(v)
  {
  }

  /** An attach that was refused. */
  lemma RefusingKeepsRefusals(s: State, v: State, m: LinkHandler.Move, error: Error)
    requires RefusalsSound(s) && LinesKept(s) && m.AttachLink? && SessionsMove(s.handler, v.handler, m)
    requires v.handler.world.links == s.handler.world.links && LinkOf(s, m.id) !in s.handler.world.links
    requires v.refusals == s.refusals[LinkOf(s, m.id) := Refusal(error, false)] && v.handler.sessions[m.id].phase.Rejected?
    ensures RefusalsSound(v)
  {
    forall id | id in v.handler.sessions && BeforeAttach(v.handler.sessions[id].phase) ensures LinkOf(v, id) !in v.refusals {
      assert id in s.handler.sessions && id != m.id;
    }
  }

  lemma AttachDecidesRefusal(s: State, m: LinkHandler.Move)
    requires Sound(s.handler.world) && LinkHandler.Allowed(s.handler, m) && m.AttachLink?
    ensures var r := AttachEffect(s.handler.world, LinkHandler.AttachStepOf(s.handler.sessions[m.id], m)).result;
      var v := LinkHandler.After(s.handler, m);
      && (r.Err? ==> v.world.links == s.handler.world.links && v.sessions[m.id].phase.Rejected?)
      && (r.Ok? ==> v.sessions[m.id].phase.Attached?)
      && LinkOf(s, m.id) !in s.handler.world.links
  {
    TunnelTheorems.SoundParts(s.handler.world);
    HandlerSessions(s.handler, m);
    AttachTurns(s.handler.world, LinkHandler.AttachStepOf(s.handler.sessions[m.id], m));
    hide Sound, TableSound, Next, Enabled, Turns, AttachStep;
  }

  lemma HandleKeepsRefusals(s: State, m: LinkHandler.Move)
    requires FarewellsSound(s) && Allowed(s, ByHandler(m))
    ensures RefusalsSound(After(s, ByHandler(m)))
  {
    HalfMovesAlways(s, ByHandler(m));
    var v := After(s, ByHandler(m));
    if m.AttachLink? { AttachDecidesRefusal(s, m); }
    assert m.Upgrade? ==> m.link !in s.refusals;
    hide LinkHandler.After, LinkHandler.Allowed, Sound, RefusalsSound, RefusalsLined, LinesKept, LinesTrue, LinesAfter, Turns, SessionsMove, AttachEffect, Evictions;
    if m.AttachLink? && v.handler.sessions[m.id].phase.Rejected? {
      RefusingKeepsRefusals(s, v, m, AttachEffect(s.handler.world, LinkHandler.AttachStepOf(s.handler.sessions[m.id], m)).result.error);
    } else {
      AdmittingKeepsRefusals(s, v, m, Joining(s.handler, m), Evictions(s.handler, m));
    }
  }

  lemma MoveKeepsRefusals(s: State, m: Move)
    requires FarewellsSound(s) && Allowed(s, m)
    ensures RefusalsSound(After(s, m))
  {
    if m.ByHandler? {
      HandleKeepsRefusals(s, m.move);
    } else {
      hide Sound, LinesTrue, LinesKept;
    }
  }

  /** A refusal keeps its error, and its being closed. */
  lemma RefusalsLast(s: State, m: Move, l: LinkId)
    requires FarewellsSound(s) && Allowed(s, m) && l in s.refusals
    ensures l in After(s, m).refusals && After(s, m).refusals[l].error == s.refusals[l].error
    ensures s.refusals[l].closed ==> After(s, m).refusals[l].closed
  {
    if m.ByHandler? { HalfMovesAlways(s, m); }
    hide Sound, LinesTrue, LinesKept, LinesAfter, LinkHandler.After, LinkHandler.Allowed, AttachEffect, Turns;
  }

  lemma CauseLasts(s: State, m: Move, l: LinkId, reason: CloseReason)
    requires FarewellsSound(s) && Allowed(s, m) && Cause(s, l, reason)
    ensures Cause(After(s, m), l, reason)
  {
    HalfMovesAlways(s, m);
    if l in s.refusals { RefusalsLast(s, m, l); }
    hide Sound, LinkHandler.Allowed, LinkHandler.After, Evictions, LinesTrue, LinesAfter, RefusalsAfter, RefusalsSound, LinesKept;
  }

  lemma TurnsClose(w: World, v: World, joining: Option<LinkId>, closed: seq<Close>)
    requires Turns(w, v, joining, closed) && closed != []
    ensures closed[0].reason != ShutdownClose
    ensures closed[0].link in v.links && v.links[closed[0].link].fate == FateOf(closed[0].reason)
  {
    assert closed[0] in closed;
  }

  lemma EvictionHasCause(s: State, m: LinkHandler.Move)
    requires FarewellsSound(s) && Allowed(s, ByHandler(m)) && Evictions(s.handler, m) != []
    ensures var c := Evictions(s.handler, m)[0];
      c.reason != ShutdownClose && Cause(After(s, ByHandler(m)), c.link, c.reason)
  {
    HalfMovesAlways(s, ByHandler(m));
    hide FarewellsSound, Turns, LinkHandler.After, LinkHandler.Allowed, LinesAfter, RefusalsAfter, SessionsMove, Evictions;
    TurnsClose(s.handler.world, After(s, ByHandler(m)).handler.world, Joining(s.handler, m), Evictions(s.handler, m));
  }

  lemma ReasonHasCause(s: State, m: Move, l: LinkId)
    requires FarewellsSound(s) && Allowed(s, m) && Reason(s, m, l).Some?
    ensures Cause(After(s, m), l, Reason(s, m, l).value)
  {
    if m.ByHandler? && !m.move.Track? {
      hide FarewellsSound, After, LinkHandler.Allowed, Cause, Evictions;
      EvictionHasCause(s, m.move);
    } else {
      ShutdownHasCause(s, m, l);
    }
  }

  lemma ShutdownHasCause(s: State, m: Move, l: LinkId)
    requires Allowed(s, m) && Reason(s, m, l).Some? && (m.ByHandler? ==> m.move.Track?)
    ensures Cause(After(s, m), l, Reason(s, m, l).value)
  {
    hide Next, Enabled;
  }

  lemma TellsBecause(s: State, m: Move, l: LinkId, reason: CloseReason)
    requires FarewellsSound(s) && Allowed(s, m) && l in After(s, m).lines && After(s, m).lines[l].Tells(reason)
    ensures Cause(After(s, m), l, reason)
  {
    HalfMovesAlways(s, m);
    LineAfter(s, m, l);
    hide After, Allowed, Reason, Cuts, Cause, Sound, LinesKept, RefusalsSound, HalfMoves, Evictions;
    if l in s.lines && s.lines[l].Tells(reason) {
      CauseLasts(s, m, l, reason);
    } else {
      ReasonHasCause(s, m, l);
    }
  }

  lemma MoveKeepsTrue(s: State, m: Move)
    requires FarewellsSound(s) && Allowed(s, m)
    ensures LinesTrue(After(s, m))
  {
    hide FarewellsSound, Cause, After, Allowed;
    forall l, reason | l in After(s, m).lines && After(s, m).lines[l].Tells(reason) ensures Cause(After(s, m), l, reason) {
      TellsBecause(s, m, l, reason);
    }
  }

  lemma MoveKeepsFarewells(s: State, m: Move)
    requires FarewellsSound(s) && Allowed(s, m)
    ensures FarewellsSound(After(s, m))
  {
    hide After, Allowed, LinesKept, RefusalsSound, RefusalsLined, LinesTrue, Sound;
    MoveKeepsWorld(s, m);
    MoveKeepsLines(s, m);
    MoveKeepsRefusals(s, m);
    MoveKeepsTrue(s, m);
  }

  // ---------------------------------------------------------------------------------------
  // Every interleaving
  // ---------------------------------------------------------------------------------------

  lemma {:induction false} AlwaysFarewells(ss: seq<State>, moves: seq<Move>, i: nat)
    requires Behavior(ss, moves) && i < |ss|
    ensures FarewellsSound(ss[i])
    decreases i
  {
    hide After, Allowed, Sound;
    if i > 0 {
      AlwaysFarewells(ss, moves, i - 1);
      hide FarewellsSound;
      MoveKeepsFarewells(ss[i - 1], moves[i - 1]);
    }
  }

  /** An agent that is told something that stops it was superseded, its claim was revoked, or its
      attach was refused because its credential is gone. */
  lemma StopsForAReason(ss: seq<State>, moves: seq<Move>, i: nat, l: LinkId, reason: CloseReason)
    requires Behavior(ss, moves) && i < |ss| && l in ss[i].lines && ss[i].lines[l].Tells(reason)
    requires Agent.Final(Agent.Linked(Agent.CloseStatus(reason)))
    ensures
      || (l in ss[i].handler.world.links && ss[i].handler.world.links[l].fate == FateOf(reason) && reason != ShutdownClose)
      || (reason == RevokedClose && l in ss[i].refusals && ss[i].refusals[l].error in {Unauthorized, ClaimRevoked})
  {
    hide After, Allowed, Sound;
    AlwaysFarewells(ss, moves, i);
    assert Cause(ss[i], l, reason);
  }

  predicate Ends(s: State, m: Move, l: LinkId) {
    Allowed(s, m) && (Cuts(s, m, l) || Reason(s, m, l).Some?)
  }

  lemma StepOpens(s: State, m: Move, l: LinkId)
    requires FarewellsSound(s) && Allowed(s, m) && l in After(s, m).lines
    ensures After(s, m).lines[l].Open? <==> (l in s.lines ==> s.lines[l].Open? && !Ends(s, m, l))
    ensures l in s.lines && !s.lines[l].Open? ==>
      (forall reason | After(s, m).lines[l].Tells(reason) :: s.lines[l].Tells(reason)) && (s.lines[l].Told? ==> After(s, m).lines[l] == s.lines[l])
  {
    HalfMovesAlways(s, m);
    LineAfter(s, m, l);
    hide After, FarewellsSound, Cuts, Reason, Evictions, HalfMoves, LinkHandler.Allowed;
  }

  /** A line is open exactly as long as nothing has ended it. */
  lemma {:induction false} OpenExactly(ss: seq<State>, moves: seq<Move>, i: nat, l: LinkId)
    requires Behavior(ss, moves) && i < |ss| && l in ss[i].lines
    ensures ss[i].lines[l].Open? <==> forall k | 0 <= k < i && l in ss[k].lines :: !Ends(ss[k], moves[k], l)
    decreases i
  {
    hide After, Allowed, Sound, Ends, FarewellsSound;
    if i > 0 {
      AlwaysFarewells(ss, moves, i - 1);
      StepOpens(ss[i - 1], moves[i - 1], l);
      if l in ss[i - 1].lines {
        OpenExactly(ss, moves, i - 1, l);
      } else {
        NotLinedBefore(ss, moves, i - 1, l);
      }
    }
  }

  lemma {:induction false} NotLinedBefore(ss: seq<State>, moves: seq<Move>, i: nat, l: LinkId)
    requires Behavior(ss, moves) && i < |ss| && l !in ss[i].lines
    ensures forall k | 0 <= k <= i :: l !in ss[k].lines
    decreases i
  {
    hide After, Allowed, Sound, FarewellsSound;
    if i > 0 {
      AlwaysFarewells(ss, moves, i - 1);
      if l in ss[i - 1].lines { LinesStay(ss[i - 1], moves[i - 1], l); }
      NotLinedBefore(ss, moves, i - 1, l);
    }
  }

  lemma LinesStay(s: State, m: Move, l: LinkId)
    requires FarewellsSound(s) && Allowed(s, m) && l in s.lines
    ensures l in After(s, m).lines
  {
    HalfMovesAlways(s, m);
    LineAfter(s, m, l);
  }

  lemma {:induction false} HistoryStays(ss: seq<State>, moves: seq<Move>, i: nat, j: nat, l: LinkId)
    requires Behavior(ss, moves) && i <= j < |ss|
    ensures l in ss[i].handler.world.links && ss[i].handler.world.links[l].fate != InTable ==>
      l in ss[j].handler.world.links && ss[j].handler.world.links[l] == ss[i].handler.world.links[l]
    ensures l in ss[i].refusals ==>
      l in ss[j].refusals && ss[j].refusals[l].error == ss[i].refusals[l].error && (ss[i].refusals[l].closed ==> ss[j].refusals[l].closed)
    decreases j
  {
    hide After, Allowed, Sound, FarewellsSound;
    if i < j {
      HistoryStays(ss, moves, i, j - 1, l);
      AlwaysFarewells(ss, moves, j - 1);
      StepKeepsHistory(ss[j - 1], moves[j - 1], l);
    }
  }

  lemma StepKeepsHistory(s: State, m: Move, l: LinkId)
    requires FarewellsSound(s) && Allowed(s, m)
    ensures l in s.handler.world.links && s.handler.world.links[l].fate != InTable ==>
      l in After(s, m).handler.world.links && After(s, m).handler.world.links[l] == s.handler.world.links[l]
    ensures l in s.refusals ==>
      l in After(s, m).refusals && After(s, m).refusals[l].error == s.refusals[l].error && (s.refusals[l].closed ==> After(s, m).refusals[l].closed)
  {
    HalfMovesAlways(s, m);
    if l in s.refusals { RefusalsLast(s, m, l); }
    hide After, Allowed, FarewellsSound, SessionsMove;
  }

  /** What ended a line for another reason than the shutdown's took its link out of the table, or
      dismissed a link that was refused. */
  lemma OtherEnds(s: State, m: Move, l: LinkId)
    requires FarewellsSound(s) && Allowed(s, m) && Ends(s, m, l) && !ShutsDown(s, m, l)
    ensures (m.CloseRefused? && LinkOf(s, m.id) == l && l in s.refusals && After(s, m).refusals[l].closed)
         || (l in After(s, m).handler.world.links && After(s, m).handler.world.links[l].fate in {BySupersession, ByRevocation})
  {
    HalfMovesAlways(s, m);
    if m.ByHandler? && !m.move.Track? {
      assert Evictions(s.handler, m.move)[0] in Evictions(s.handler, m.move);
    }
    hide LinkHandler.After, LinkHandler.Allowed, FarewellsSound, SessionsMove, LinesAfter, RefusalsAfter, Evictions;
  }

  /** The ends of a line whose link is in the table, or was refused and not yet dismissed, were
      all the shutdown's. */
  lemma EndsWereShutdowns(ss: seq<State>, moves: seq<Move>, k: nat, i: nat, l: LinkId)
    requires Behavior(ss, moves) && k < i < |ss| && Ends(ss[k], moves[k], l)
    requires (l in ss[i].handler.world.links && ss[i].handler.world.links[l].fate == InTable)
          || (l in ss[i].refusals && !ss[i].refusals[l].closed)
    ensures ShutsDown(ss[k], moves[k], l)
  {
    AlwaysFarewells(ss, moves, k);
    AlwaysFarewells(ss, moves, i);
    assert Allowed(ss[k], moves[k]) && ss[k + 1] == After(ss[k], moves[k]);
    RefusedNeverJoined(ss[i], l);
    hide After, Allowed, Sound, FarewellsSound, Ends;
    if !ShutsDown(ss[k], moves[k], l) {
      OtherEnds(ss[k], moves[k], l);
      HistoryStays(ss, moves, k, i, l);
      HistoryStays(ss, moves, k + 1, i, l);
    }
  }

  lemma RefusedNeverJoined(s: State, l: LinkId)
    requires FarewellsSound(s)
    ensures l in s.refusals ==> l !in s.handler.world.links
  {
  }

  // ---------------------------------------------------------------------------------------
  // Who is told
  // ---------------------------------------------------------------------------------------

  /** The move takes l out of the table by a takeover or a revocation. */
  predicate Evicts(s: State, m: Move, l: LinkId) {
    && Allowed(s, m)
    && l in s.handler.world.links && s.handler.world.links[l].fate == InTable
    && l in After(s, m).handler.world.links && After(s, m).handler.world.links[l].fate in {BySupersession, ByRevocation}
  }

  function EvictionReason(fate: Fate): CloseReason
    requires fate in {BySupersession, ByRevocation}
  {
    if fate == BySupersession then SupersededClose else RevokedClose
  }

  lemma EvictionCloses(s: State, m: Move, l: LinkId)
    requires FarewellsSound(s) && Evicts(s, m, l)
    ensures !m.CutOff? && !m.Farewell? && Reason(s, m, l) == Some(EvictionReason(After(s, m).handler.world.links[l].fate))
    ensures l in s.lines ==>
      && l in After(s, m).lines
      && After(s, m).lines[l] == s.lines[l].Close(EvictionReason(After(s, m).handler.world.links[l].fate))
  {
    HalfMovesAlways(s, m);
    EvictionHasReason(s, m, l);
    LineAfter(s, m, l);
    hide After, Allowed, FarewellsSound, HalfMoves, Reason, Evictions, Evicts;
  }

  lemma EvictionHasReason(s: State, m: Move, l: LinkId)
    requires FarewellsSound(s) && Evicts(s, m, l)
    ensures m.ByHandler? && Reason(s, m, l) == Some(EvictionReason(After(s, m).handler.world.links[l].fate))
  {
    HalfMovesAlways(s, m);
    hide LinkHandler.After, LinkHandler.Allowed, FarewellsSound, SessionsMove, LinesAfter, RefusalsAfter;
  }

  /** No shutdown closed or cut the link of l before move i. */
  ghost predicate SparedByShutdown(ss: seq<State>, moves: seq<Move>, i: nat, l: LinkId)
    requires i <= |moves| < |ss|
  {
    forall k | 0 <= k < i && l in ss[k].lines :: !ShutsDown(ss[k], moves[k], l)
  }

  lemma OpenIfSpared(ss: seq<State>, moves: seq<Move>, i: nat, l: LinkId)
    requires Behavior(ss, moves) && i < |moves| && l in ss[i].lines
    requires (l in ss[i].handler.world.links && ss[i].handler.world.links[l].fate == InTable)
          || (l in ss[i].refusals && !ss[i].refusals[l].closed)
    ensures ss[i].lines[l].Open? <==> SparedByShutdown(ss, moves, i, l)
  {
    OpenExactly(ss, moves, i, l);
    hide Behavior, Cuts, Reason;
    forall k | 0 <= k < i && l in ss[k].lines ensures Ends(ss[k], moves[k], l) <==> ShutsDown(ss[k], moves[k], l) {
      if Ends(ss[k], moves[k], l) { EndsWereShutdowns(ss, moves, k, i, l); }
    }
  }

  /** A superseded or revoked session starts telling its agent so, which stops it, if and only if no
      shutdown had closed or cut that session before; otherwise the line stays as the shutdown left
      it, and the agent, told to go away or nothing, dials again. */
  lemma EvictionIsToldUnlessShutDown(ss: seq<State>, moves: seq<Move>, i: nat, l: LinkId)
    requires Behavior(ss, moves) && i < |moves| && Evicts(ss[i], moves[i], l)
    ensures l in ss[i].lines && l in ss[i + 1].lines
    ensures var reason := EvictionReason(ss[i + 1].handler.world.links[l].fate);
      && Agent.Final(Agent.Linked(Agent.CloseStatus(reason)))
      && (SparedByShutdown(ss, moves, i, l) ==> ss[i + 1].lines[l] == Closing(reason))
      && (!SparedByShutdown(ss, moves, i, l) ==>
            ss[i + 1].lines[l] == ss[i].lines[l] && ss[i].lines[l] in {Closing(ShutdownClose), Told(ShutdownClose), Cut})
  {
    AlwaysFarewells(ss, moves, i);
    ServedHasLine(ss[i], l);
    EvictionCloses(ss[i], moves[i], l);
    OpenIfSpared(ss, moves, i, l);
    ShutLines(ss[i], l);
    hide SparedByShutdown, FarewellsSound, Allowed, Sound;
  }

  lemma ServedHasLine(s: State, l: LinkId)
    requires FarewellsSound(s) && l in s.handler.world.links && s.handler.world.links[l].fate == InTable
    ensures l in s.lines
  {
    assert LinksSound(s.handler.world);
  }

  /** The line of a link in the table is open or was ended by a shutdown. */
  lemma ShutLines(s: State, l: LinkId)
    requires FarewellsSound(s) && l in s.lines && l in s.handler.world.links && s.handler.world.links[l].fate == InTable
    ensures s.lines[l] in {Open, Closing(ShutdownClose), Told(ShutdownClose), Cut}
  {
    RefusedNeverJoined(s, l);
    assert forall reason | s.lines[l].Tells(reason) :: Cause(s, l, reason);
    if s.lines[l].Closing? || s.lines[l].Told? { assert s.lines[l].Tells(s.lines[l].reason); }
  }

  /** Once ended, a line never tells its agent anything else; what was told stays told. */
  lemma {:induction false} FirstCloseWins(ss: seq<State>, moves: seq<Move>, i: nat, j: nat, l: LinkId)
    requires Behavior(ss, moves) && i <= j < |ss| && l in ss[i].lines && !ss[i].lines[l].Open?
    ensures l in ss[j].lines && !ss[j].lines[l].Open?
    ensures forall reason | ss[j].lines[l].Tells(reason) :: ss[i].lines[l].Tells(reason)
    ensures ss[i].lines[l].Told? ==> ss[j].lines[l] == ss[i].lines[l]
    decreases j
  {
    hide After, Allowed, Sound, FarewellsSound;
    if i < j {
      FirstCloseWins(ss, moves, i, j - 1, l);
      AlwaysFarewells(ss, moves, j - 1);
      LinesStay(ss[j - 1], moves[j - 1], l);
      StepOpens(ss[j - 1], moves[j - 1], l);
    }
  }

  /** A cut, and a farewell whose frame did not go out, leave a line that had not been told anything
      cut for the rest of the run. */
  lemma CutIsFinal(ss: seq<State>, moves: seq<Move>, i: nat, j: nat, l: LinkId)
    requires Behavior(ss, moves) && i < |moves| && i < j < |ss| && l in ss[i].lines && !ss[i].lines[l].Told?
    requires Allowed(ss[i], moves[i]) && (Cuts(ss[i], moves[i], l) || moves[i] == Farewell(l, false))
    ensures l in ss[j].lines && ss[j].lines[l] == Cut
  {
    AlwaysFarewells(ss, moves, i);
    HalfMovesAlways(ss[i], moves[i]);
    assert ss[i + 1] == After(ss[i], moves[i]);
    LineAfter(ss[i], moves[i], l);
    hide After, Allowed, FarewellsSound, Sound, Evictions, Reason;
    assert ss[i + 1].lines[l] == Cut;
    FirstCloseWins(ss, moves, i + 1, j, l);
    var line := ss[j].lines[l];
    assert line.Closing? || line.Told? ==> line.Tells(line.reason);
  }

  /** The attach of session id was refused at move k. */
  predicate RefusedAt(ss: seq<State>, moves: seq<Move>, k: nat, id: LinkHandler.SessionId) {
    && k < |moves| < |ss| && Allowed(ss[k], moves[k])
    && moves[k].ByHandler? && moves[k].move.AttachLink? && moves[k].move.id == id
    && AttachEffect(ss[k].handler.world, LinkHandler.AttachStepOf(ss[k].handler.sessions[id], moves[k].move)).result.Err?
  }

  lemma {:induction false} SessionsStay(ss: seq<State>, moves: seq<Move>, i: nat, j: nat, id: LinkHandler.SessionId)
    requires Behavior(ss, moves) && i <= j < |ss| && id in ss[i].handler.sessions
    ensures id in ss[j].handler.sessions && LinkOf(ss[j], id) == LinkOf(ss[i], id) && LinkOf(ss[j], id) in ss[j].lines
    decreases j
  {
    hide After, Allowed, Sound, FarewellsSound, SessionsMove;
    AlwaysFarewells(ss, moves, j);
    SessionsHaveLines(ss[j]);
    if i < j {
      SessionsStay(ss, moves, i, j - 1, id);
      AlwaysFarewells(ss, moves, j - 1);
      StepKeepsSessions(ss[j - 1], moves[j - 1], id);
    }
  }

  lemma SessionsHaveLines(s: State)
    requires FarewellsSound(s)
    ensures forall id | id in s.handler.sessions :: LinkOf(s, id) in s.lines
  {
  }

  lemma StepKeepsSessions(s: State, m: Move, id: LinkHandler.SessionId)
    requires FarewellsSound(s) && Allowed(s, m) && id in s.handler.sessions
    ensures id in After(s, m).handler.sessions && LinkOf(After(s, m), id) == LinkOf(s, id)
  {
    HalfMovesAlways(s, m);
    hide After, Allowed, FarewellsSound, Turns;
  }

  /** A session refused at k and dismissed at i starts telling its agent what stops it if and only
      if the store was read at k, the claim existed and carried another credential or was revoked,
      and no shutdown cut the session before its dismissal. */
  lemma RefusalIsToldUnlessCut(ss: seq<State>, moves: seq<Move>, k: nat, i: nat, id: LinkHandler.SessionId)
    requires Behavior(ss, moves) && RefusedAt(ss, moves, k, id) && k < i < |moves| && moves[i] == CloseRefused(id)
    ensures var l, w, claim := LinkOf(ss[k], id), ss[k].handler.world, ss[k].handler.sessions[id].claim;
      && l in ss[i].lines && l in ss[i + 1].lines
      && (ss[i].lines[l].Open? && ss[i + 1].lines[l] == Closing(RevokedClose)
          <==> moves[k].move.read && claim.subdomain in w.tunnels.claims
               && (w.tunnels.claims[claim.subdomain].tokenHash != claim.tokenHash || w.tunnels.claims[claim.subdomain].revoked)
               && SparedByShutdown(ss, moves, i, l))
      && (ss[i].lines[l].Open? ==> ss[i + 1].lines[l] in {Closing(RevokedClose), Closing(ShutdownClose)})
  {
    var l := LinkOf(ss[k], id);
    SessionsStay(ss, moves, k, i, id);
    AlwaysFarewells(ss, moves, k);
    assert Allowed(ss[i], moves[i]) && ss[i + 1] == After(ss[i], moves[i]) && ss[k + 1] == After(ss[k], moves[k]);
    OpenIfSpared(ss, moves, i, l);
    HistoryStays(ss, moves, k + 1, i, l);
    RefusalChooses(ss[k], moves[k].move);
    DismissalCloses(ss[i], id);
    hide SparedByShutdown, FarewellsSound, Allowed, Sound, After;
  }

  lemma RefusalChooses(s: State, m: LinkHandler.Move)
    requires FarewellsSound(s) && Allowed(s, ByHandler(m)) && m.AttachLink?
    requires AttachEffect(s.handler.world, LinkHandler.AttachStepOf(s.handler.sessions[m.id], m)).result.Err?
    ensures var l, w, claim := LinkOf(s, m.id), s.handler.world, s.handler.sessions[m.id].claim;
      var v := After(s, ByHandler(m));
      && l in v.refusals
      && (Refusals.CloseStops(v.refusals[l].error) <==>
            m.read && claim.subdomain in w.tunnels.claims
            && (w.tunnels.claims[claim.subdomain].tokenHash != claim.tokenHash || w.tunnels.claims[claim.subdomain].revoked))
  {
    TunnelTheorems.SoundTables(s.handler.world);
    Refusals.RefusedAttachStops(s.handler.world, LinkHandler.AttachStepOf(s.handler.sessions[m.id], m));
    hide Sound, TablesSound, LinkHandler.After, Enabled, AttachEffect, LinesAfter, FarewellsSound, Refusals.CloseStops;
  }

  lemma DismissalCloses(s: State, id: LinkHandler.SessionId)
    requires Allowed(s, CloseRefused(id)) && LinkOf(s, id) in s.lines
    ensures var l, v := LinkOf(s, id), After(s, CloseRefused(id));
      && l in v.lines
      && v.lines[l] == s.lines[l].Close(if Refusals.CloseStops(s.refusals[l].error) then RevokedClose else ShutdownClose)
  {
  }

  // ---------------------------------------------------------------------------------------
  // The failing run
  // ---------------------------------------------------------------------------------------

  const REVOKING := RevokeTunnel("a", 1, true, 7, true)
  const UPGRADING := LinkHandler.Upgrade(0, Refusals.AGENT, 0)
  const CONNECTING := LinkHandler.AttachLink(0, true, 4, 5, true, 6)

  /** Claimed, with a session upgraded and tracked. */
  predicate Ready(s: State, w: World) {
    && s.handler.world == w && !s.handler.door.closing && s.handler.door.live == {0} && s.handler.callers == map[]
    && s.handler.sessions == map[0 := LinkHandler.Session(Refusals.AGENT, 0, LinkHandler.Tracked)]
    && s.lines == map[0 := Open] && s.refusals == map[]
  }

  lemma GetReady(s: State, w: World)
    requires LinkHandler.Fresh(s.handler) && s.lines == map[] && s.refusals == map[]
    requires w.links == map[] && Enabled(s.handler.world, Refusals.CLAIMING) && w == Next(s.handler.world, Refusals.CLAIMING)
    ensures var claiming := ByHandler(LinkHandler.Operate(Refusals.CLAIMING));
      && Allowed(s, claiming)
      && var t := After(s, claiming);
      && Allowed(t, ByHandler(UPGRADING))
      && var u := After(t, ByHandler(UPGRADING));
      && Allowed(u, ByHandler(LinkHandler.Track(0)))
      && Ready(After(u, ByHandler(LinkHandler.Track(0))), w)
  {
    hide Next, Enabled;
    var t := After(s, ByHandler(LinkHandler.Operate(Refusals.CLAIMING)));
    assert t == State(s.handler.(world := w), map[], map[]);
    var u := After(t, ByHandler(UPGRADING));
    assert u.lines == map[0 := Open];
  }

  /** Attached, and closed by a shutdown. */
  predicate Shutting(s: State, w: World) {
    && s.handler.world == w && s.handler.door.closing
    && 0 in s.handler.sessions && s.handler.sessions[0].link == 0 && s.handler.sessions[0].phase.Attached?
    && s.lines == map[0 := Open]
  }

  lemma ConnectAndShut(s: State, w: World)
    requires Ready(s, s.handler.world) && Enabled(s.handler.world, Refusals.ATTACHING)
    requires w == Next(s.handler.world, Refusals.ATTACHING)
    requires AttachEffect(s.handler.world, Refusals.ATTACHING).result.Ok? && AttachEffect(s.handler.world, Refusals.ATTACHING).closed == []
    ensures Allowed(s, ByHandler(CONNECTING))
    ensures var t := After(s, ByHandler(CONNECTING));
      && Allowed(t, ByHandler(LinkHandler.BeginShutdown(0)))
      && var u := After(t, ByHandler(LinkHandler.BeginShutdown(0)));
      && Shutting(u, w) && Allowed(u, CloseForShutdown(0))
  {
    hide Next, Enabled, AttachEffect;
    assert LinkHandler.AttachStepOf(s.handler.sessions[0], CONNECTING) == Refusals.ATTACHING;
    var t := After(s, ByHandler(CONNECTING));
    assert t.lines == map[0 := Open] && t.handler.callers == map[];
  }

  lemma RevokeEvicts(s: State)
    requires Allowed(s, ByHandler(LinkHandler.Operate(REVOKING))) && RevokeEffect(s.handler.world, REVOKING).result.Ok?
    requires TableSound(s.handler.world) && "a" in s.handler.world.tunnels.live && s.handler.world.tunnels.live["a"].link == 0
    ensures Evicts(s, ByHandler(LinkHandler.Operate(REVOKING)), 0)
    ensures 0 in After(s, ByHandler(LinkHandler.Operate(REVOKING))).handler.world.links
    ensures After(s, ByHandler(LinkHandler.Operate(REVOKING))).handler.world.links[0].fate == ByRevocation
  {
    RevokeMoves(s.handler.world, REVOKING);
    hide Next, Enabled, RevokeEffect;
  }

  lemma RevokeAllowed(w: World)
    requires TablesSound(w) && w.tunnels.claims == map["a" := Refusals.AGENT] && w.clock == 6
    ensures Enabled(w, REVOKING) && RevokeEffect(w, REVOKING).result.Ok?
  {
    TunnelDecisions.SoundIsReachable(w);
    assert Refusals.AGENT.createdAt == 1 && !Refusals.AGENT.revoked;
    hide TablesSound;
    TunnelDecisions.RevokeDecides(w.tunnels, "a", 1, true, 7, true);
  }

  /** A shutdown closes an attached session; a revocation that follows before its loss is reported
      takes its link out of the table and closes it as revoked, and its agent is still only told
      that the server is going away. */
  lemma ShutdownSwallowsRevocation(principal: string) returns (ss: seq<State>, moves: seq<Move>)
    ensures Behavior(ss, moves) && |moves| == 8 && ss[0].handler.world == Initial(principal)
    ensures moves[5] == CloseForShutdown(0) && moves[6] == ByHandler(LinkHandler.Operate(REVOKING))
    ensures Evicts(ss[6], moves[6], 0) && ss[7].handler.world.links[0].fate == ByRevocation
    ensures 0 in ss[8].lines && ss[8].lines[0] == Told(ShutdownClose)
    ensures !Agent.Final(Agent.Linked(Agent.CloseStatus(ShutdownClose)))
  {
    hide Enabled, Next, TablesSound, AttachEffect, RevokeEffect, Allowed, After, Ready, Shutting, Initial, Evicts, Sound, LinkHandler.Fresh;
    var w0, w1, w2 := Refusals.ConnectedWorld(principal);
    var s0 := State(LinkHandler.State(w0, LinkHandler.Door(false, {}, 0), map[], map[], {}, 0), map[], map[]);
    FreshAtStart(principal, s0.handler);
    GetReady(s0, w1);
    var s1 := After(s0, ByHandler(LinkHandler.Operate(Refusals.CLAIMING)));
    var s2 := After(s1, ByHandler(UPGRADING));
    var s3 := After(s2, ByHandler(LinkHandler.Track(0)));
    AttachCloses(w1, Refusals.ATTACHING);
    ReadyWorld(s3, w1);
    ConnectAndShut(s3, w2);
    var s4 := After(s3, ByHandler(CONNECTING));
    var s5 := After(s4, ByHandler(LinkHandler.BeginShutdown(0)));
    RevokeAllowed(w2);
    var s6, s7, s8 := RevokeAndTell(s5, w2);
    moves := [
      ByHandler(LinkHandler.Operate(Refusals.CLAIMING)), ByHandler(UPGRADING), ByHandler(LinkHandler.Track(0)),
      ByHandler(CONNECTING), ByHandler(LinkHandler.BeginShutdown(0)), CloseForShutdown(0),
      ByHandler(LinkHandler.Operate(REVOKING)), Farewell(0, true)];
    ss := [s0, s1, s2, s3, s4, s5, s6, s7, s8];
    EightMoves(ss, moves);
    AgentGoesOn();
  }

  lemma AgentGoesOn()
    ensures !Agent.Final(Agent.Linked(Agent.CloseStatus(ShutdownClose)))
  {
  }

  lemma ReadyWorld(s: State, w: World)
    requires Ready(s, w)
    ensures s.handler.world == w
  {
  }

  lemma RevokeAndTell(s: State, w: World) returns (t: State, u: State, v: State)
    requires Shutting(s, w) && Allowed(s, CloseForShutdown(0)) && Enabled(w, REVOKING) && RevokeEffect(w, REVOKING).result.Ok?
    requires TablesSound(w) && "a" in w.tunnels.live && w.tunnels.live["a"].link == 0
    ensures t == After(s, CloseForShutdown(0)) && Allowed(t, ByHandler(LinkHandler.Operate(REVOKING)))
    ensures Evicts(t, ByHandler(LinkHandler.Operate(REVOKING)), 0) && u == After(t, ByHandler(LinkHandler.Operate(REVOKING)))
    ensures 0 in u.handler.world.links && u.handler.world.links[0].fate == ByRevocation
    ensures Allowed(u, Farewell(0, true)) && v == After(u, Farewell(0, true)) && v.lines == map[0 := Told(ShutdownClose)]
  {
    TableOf(w);
    hide Next, Enabled, RevokeEffect, TablesSound, TableSound, Allowed, After, Shutting, Evicts;
    t := After(s, CloseForShutdown(0));
    ClosedByShutdown(s, w);
    u := After(t, ByHandler(LinkHandler.Operate(REVOKING)));
    RevokeEvicts(t);
    RevokeKeepsShut(t);
    FarewellIsSaid(u);
    v := After(u, Farewell(0, true));
  }

  lemma ClosedByShutdown(s: State, w: World)
    requires Shutting(s, w) && Allowed(s, CloseForShutdown(0)) && Enabled(w, REVOKING)
    ensures var t := After(s, CloseForShutdown(0));
      t.handler.world == w && t.lines == map[0 := Closing(ShutdownClose)] && Allowed(t, ByHandler(LinkHandler.Operate(REVOKING)))
  {
    hide Enabled;
  }

  lemma FarewellIsSaid(u: State)
    requires u.lines == map[0 := Closing(ShutdownClose)]
    ensures Allowed(u, Farewell(0, true)) && After(u, Farewell(0, true)).lines == map[0 := Told(ShutdownClose)]
  {
  }

  lemma RevokeKeepsShut(t: State)
    requires Allowed(t, ByHandler(LinkHandler.Operate(REVOKING))) && t.lines == map[0 := Closing(ShutdownClose)]
    ensures After(t, ByHandler(LinkHandler.Operate(REVOKING))).lines == t.lines
  {
    RevokeCloses(t.handler.world, REVOKING);
    ShutOne(t.lines, Evictions(t.handler, LinkHandler.Operate(REVOKING)));
    hide Next, Enabled, RevokeEffect, ShutAll;
  }

  lemma FreshAtStart(principal: string, h: LinkHandler.State)
    requires h == LinkHandler.State(Initial(principal), LinkHandler.Door(false, {}, 0), map[], map[], {}, 0)
    ensures LinkHandler.Fresh(h) && Sound(h.world)
  {
    InitialSound(principal);
  }

  lemma TableOf(w: World)
    requires TablesSound(w)
    ensures TableSound(w)
  {
  }

  lemma EightMoves(ss: seq<State>, moves: seq<Move>)
    requires |ss| == 9 && |moves| == 8
    requires LinkHandler.Fresh(ss[0].handler) && Sound(ss[0].handler.world) && ss[0].lines == map[] && ss[0].refusals == map[]
    requires Allowed(ss[0], moves[0]) && ss[1] == After(ss[0], moves[0])
    requires Allowed(ss[1], moves[1]) && ss[2] == After(ss[1], moves[1])
    requires Allowed(ss[2], moves[2]) && ss[3] == After(ss[2], moves[2])
    requires Allowed(ss[3], moves[3]) && ss[4] == After(ss[3], moves[3])
    requires Allowed(ss[4], moves[4]) && ss[5] == After(ss[4], moves[4])
    requires Allowed(ss[5], moves[5]) && ss[6] == After(ss[5], moves[5])
    requires Allowed(ss[6], moves[6]) && ss[7] == After(ss[6], moves[6])
    requires Allowed(ss[7], moves[7]) && ss[8] == After(ss[7], moves[7])
    ensures Behavior(ss, moves)
  {
    hide Allowed, After, Sound, LinkHandler.Fresh;
  }
}
