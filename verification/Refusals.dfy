/** What the cooldown and the credential checks mean to an agent that is refused: before the
    upgrade it reads a status code, after it a close frame, and each either stops it or has it
    dial again. The clock check before the upgrade and the one after it are different moments. */
module Refusals {
  import opened Wrappers
  import opened Lifecycle
  import opened TunnelPolicy
  import opened TunnelRuns
  import TunnelTheorems
  import TunnelDecisions
  import AuditRows
  import Agent

  /** An agent whose dial was answered with this error ends its run. */
  predicate DialStops(error: Error) {
    Agent.Final(Agent.Refused(Agent.HttpStatus(error)))
  }

  /** An agent whose established link is closed over this refusal of its attach ends its run. */
  predicate CloseStops(error: Error) {
    Agent.Final(Agent.Linked(Agent.CloseStatus(Agent.CloseReasonFor(error))))
  }

  /** The status a dial that is not upgraded reads: a handler that is closing does not look at the
      credential. */
  function DialStatus(closing: bool, answer: Result<Claim, Error>): int
    requires closing || answer.Err?
  {
    if closing then 503 else Agent.HttpStatus(answer.error)
  }

  /** A dial that is turned away stops the agent, in any state, exactly unless the handler was
      closing or the store could not be read. */
  lemma RefusedDialStops(
      closing: bool, seen: map<Subdomain, Claim>, t: Tunnels, wellFormed: bool, tokenHash: string, read: bool, now: Instant,
      r: Result<Claim, Error>)
    requires Answers(seen, t, wellFormed, tokenHash, read, now, r) && (closing || r.Err?)
    ensures Agent.Final(Agent.Refused(DialStatus(closing, r))) <==> !closing && (read || !wellFormed)
    ensures DialStatus(closing, r) ==
      if closing then 503
      else if !wellFormed || (read && !Held(seen, tokenHash)) then 401
      else if read then 409 else 500
  {
    assert (exists c :: Granted(seen, t, tokenHash, now, c)) || forall c :: !Granted(seen, t, tokenHash, now, c);
  }

  /** The reason a session is closed for when its attach is refused stops the agent exactly when its
      credential is gone: the claim now carries another, or is revoked. A cooldown, a missing claim
      and a failing store have it dial again. */
  lemma RefusedAttachStops(w: World, step: Step)
    requires TablesSound(w) && step.Attach? && Enabled(w, step) && AttachEffect(w, step).result.Err?
    ensures var s := step.claim.subdomain;
      CloseStops(AttachEffect(w, step).result.error)
      <==> step.read && s in w.tunnels.claims
           && (w.tunnels.claims[s].tokenHash != step.claim.tokenHash || w.tunnels.claims[s].revoked)
  {
    hide TablesSound, AttachStep, Enabled, CloseStops, TunnelDecisions.Reachable;
    TunnelDecisions.SoundIsReachable(w);
    TunnelDecisions.AttachDecides(
      w.tunnels, step.claim, step.link, step.read, step.checkedAt, step.recordedAt, step.committed, step.stampedAt);
    CloseStopsExactly(AttachEffect(w, step).result.error);
  }

  lemma CloseStopsExactly(error: Error)
    ensures CloseStops(error) <==> error == Unauthorized || error == ClaimRevoked
  {
  }

  // ---------------------------------------------------------------------------------------
  // When a granted agent still meets the cooldown
  // ---------------------------------------------------------------------------------------

  /** Only attaches, losses and revocations reach a stamp. */
  lemma OtherStepsKeepStamps(w: World, step: Step)
    requires Enabled(w, step) && (step.ClaimTunnel? || step.Crash?)
    ensures var t, u := w.tunnels, Next(w, step).tunnels;
      (u.live == t.live && u.superseded == t.superseded) || u.superseded == map[]
  {
  }

  ghost predicate Stamped(w: World, v: World, step: Step, s: Subdomain) {
    && w.IsLive(s) && v.IsLive(s) && s in v.tunnels.superseded
    && if step.Attach? && step.claim.subdomain == s && AttachEffect(w, step).result.Ok?
       then v.tunnels.superseded[s] == step.stampedAt
       else s in w.tunnels.superseded && v.tunnels.superseded[s] == w.tunnels.superseded[s]
  }

  lemma AttachStamps(w: World, step: Step, s: Subdomain)
    requires CooldownsSound(w) && step.Attach? && Enabled(w, step) && s in Next(w, step).tunnels.superseded
    ensures Stamped(w, Next(w, step), step, s)
  {
    AttachMoves(w, step);
    hide Next, Enabled, AttachStep;
  }

  lemma LeavingKeepsStamps(w: World, step: Step, s: Subdomain)
    requires CooldownsSound(w) && (step.RevokeTunnel? || step.Lost?) && Enabled(w, step) && s in Next(w, step).tunnels.superseded
    ensures Stamped(w, Next(w, step), step, s)
  {
    if step.RevokeTunnel? { RevokeMoves(w, step); } else { LostMoves(w, step); }
    hide Next, Enabled, RevokeStep, LostStep;
  }

  /** One step keeps a stamp unless it is a takeover, and a takeover stamps its last reading. */
  lemma StepStamps(w: World, step: Step, s: Subdomain)
    requires CooldownsSound(w) && Enabled(w, step) && s in Next(w, step).tunnels.superseded
    ensures Stamped(w, Next(w, step), step, s)
  {
    if step.Attach? {
      AttachStamps(w, step, s);
    } else if step.RevokeTunnel? || step.Lost? {
      LeavingKeepsStamps(w, step, s);
    } else {
      OtherStepsKeepStamps(w, step);
      hide Next, Enabled;
    }
  }

  /** Behind every stamp is the takeover that left it, with the tunnel live ever since and no
      other takeover after it. */
  lemma {:induction false} StampHasTakeover(principal: string, ws: seq<World>, steps: seq<Step>, s: Subdomain, j: nat) returns (k: nat)
    requires TunnelTheorems.Behavior(principal, ws, steps) && j < |ws| && s in ws[j].tunnels.superseded
    ensures k < j && TunnelTheorems.TakeoverAt(ws, steps, s, k) && TunnelTheorems.LiveThroughout(ws, s, k, j)
    ensures forall m | k < m <= j :: s in ws[m].tunnels.superseded && ws[m].tunnels.superseded[s] == steps[k].stampedAt
    decreases j
  {
    hide Next, Sound, Enabled, AttachEffect, TablesSound;
    assert j > 0 by { assert s !in Initial(principal).tunnels.superseded; }
    TunnelTheorems.AlwaysSound(principal, ws, steps, j - 1);
    TunnelTheorems.SoundTables(ws[j - 1]);
    StepStamps(ws[j - 1], steps[j - 1], s);
    if steps[j - 1].Attach? && steps[j - 1].claim.subdomain == s && AttachEffect(ws[j - 1], steps[j - 1]).result.Ok? {
      k := j - 1;
    } else {
      k := StampHasTakeover(principal, ws, steps, s, j - 1);
    }
  }

  /** Another agent took s over after the grant at g, has been served without a gap until j, and
      the cooldown of that takeover is not over at now. */
  ghost predicate TakenOverSince(ws: seq<World>, steps: seq<Step>, s: Subdomain, g: nat, j: nat, now: Instant) {
    exists k :: g <= k < j && TunnelTheorems.TakeoverAt(ws, steps, s, k)
      && TunnelTheorems.LiveThroughout(ws, s, k, j) && now < steps[k].stampedAt + SUPERSEDE_COOLDOWN
  }

  lemma ConflictIsCooldown(w: World, step: Step)
    requires TablesSound(w) && step.Attach? && Enabled(w, step) && step.read
    requires step.claim.subdomain in w.tunnels.claims && w.tunnels.claims[step.claim.subdomain].tokenHash == step.claim.tokenHash
    ensures AttachEffect(w, step).result == Err(Conflict) <==>
      !w.tunnels.TakeoverAllowed(step.claim.subdomain, step.checkedAt)
  {
    TunnelDecisions.SoundIsReachable(w);
    hide TablesSound;
    TunnelDecisions.AttachDecides(
      w.tunnels, step.claim, step.link, step.read, step.checkedAt, step.recordedAt, step.committed, step.stampedAt);
  }

  /** A tunnel that could be taken over at g cannot be at j exactly when another agent took it over
      in between and still serves it within the cooldown. */
  lemma CooldownHasTakeover(principal: string, ws: seq<World>, steps: seq<Step>, s: Subdomain, g: nat, j: nat, since: Instant, now: Instant)
    requires TunnelTheorems.Behavior(principal, ws, steps) && g <= j < |ws|
    requires ws[g].tunnels.TakeoverAllowed(s, since) && since <= now
    ensures !ws[j].tunnels.TakeoverAllowed(s, now) <==> TakenOverSince(ws, steps, s, g, j, now)
  {
    hide Next, Enabled, AttachEffect;
    if !ws[j].tunnels.TakeoverAllowed(s, now) {
      var k := StampHasTakeover(principal, ws, steps, s, j);
      assert ws[j].tunnels.superseded[s] == steps[k].stampedAt;
      assert TakenOverSince(ws, steps, s, g, j, now);
    }
    if TakenOverSince(ws, steps, s, g, j, now) {
      var k :| g <= k < j && TunnelTheorems.TakeoverAt(ws, steps, s, k)
        && TunnelTheorems.LiveThroughout(ws, s, k, j) && now < steps[k].stampedAt + SUPERSEDE_COOLDOWN;
      TunnelTheorems.StampAfterTakeover(principal, ws, steps, s, k, j);
      assert ws[j].IsLive(s);
    }
  }

  /** A session was granted its claim from a read of the store at r and a check of the cooldown at
      g. Its attach at j, reading a clock no earlier, is refused by the cooldown exactly when
      another agent took the tunnel over in between and still serves it within the cooldown. That
      refusal has it dial again, where the same refusal of a dial stops it. */
  lemma GrantedMeetsCooldown(
      principal: string, ws: seq<World>, steps: seq<Step>, r: nat, g: nat, j: nat, tokenHash: string, now: Instant)
    requires TunnelTheorems.Behavior(principal, ws, steps) && r <= g <= j < |steps|
    requires steps[j].Attach? && steps[j].read && now <= steps[j].checkedAt
    requires Granted(ws[r].tunnels.claims, ws[g].tunnels, tokenHash, now, steps[j].claim)
    ensures AttachEffect(ws[j], steps[j]).result == Err(Conflict)
       <==> TakenOverSince(ws, steps, steps[j].claim.subdomain, g, j, steps[j].checkedAt)
    ensures !CloseStops(Conflict) && DialStops(Conflict)
  {
    var s, step := steps[j].claim.subdomain, steps[j];
    AuditRows.NothingIsTakenBack(principal, ws, steps, r, j);
    TunnelTheorems.AlwaysSound(principal, ws, steps, j);
    TunnelTheorems.SoundTables(ws[j]);
    assert Enabled(ws[j], step);
    hide Next, Sound, TablesSound, Enabled, AttachEffect, TakenOverSince;
    ConflictIsCooldown(ws[j], step);
    CooldownHasTakeover(principal, ws, steps, s, g, j, now, step.checkedAt);
  }

  // ---------------------------------------------------------------------------------------
  // The failing run
  // ---------------------------------------------------------------------------------------

  /** A takeover within the cooldown leaves the tunnel live, its claim as it was, and every
      further takeover forbidden. */
  lemma TakeoverForbidsTheNext(w: World, first: Step, now: Instant)
    requires TablesSound(w) && first.Attach? && w.IsLive(first.claim.subdomain)
    requires Enabled(w, first) && AttachEffect(w, first).result.Ok?
    requires now < first.stampedAt + SUPERSEDE_COOLDOWN
    ensures var v, s := Next(w, first), first.claim.subdomain;
      && TablesSound(v) && v.tunnels.claims == w.tunnels.claims && s in v.tunnels.claims && !v.tunnels.claims[s].revoked
      && !v.tunnels.TakeoverAllowed(s, now)
  {
    AttachMoves(w, first);
    AttachKeepsTables(w, first);
    hide Next, AttachStep, TablesSound, Enabled;
  }

  /** A dial with the credential of a claim that may not be taken over now is told of a conflict,
      which stops it. */
  lemma ForbiddenDialStops(t: Tunnels, s: Subdomain, now: Instant, r: Result<Claim, Error>)
    requires ClaimsSound(t) && s in t.claims && !t.claims[s].revoked && !t.TakeoverAllowed(s, now)
    requires Answers(t.claims, t, true, t.claims[s].tokenHash, true, now, r)
    ensures r == Err(Conflict) && DialStops(Conflict)
  {
    assert Held(t.claims, t.claims[s].tokenHash);
    assert forall c :: Granted(t.claims, t, t.claims[s].tokenHash, now, c) ==> c.subdomain == s;
  }

  lemma GrantedTakesOver(w: World, tokenHash: string, now: Instant, first: Step)
    requires first.Attach? && first.read && first.committed && TablesSound(w)
    requires Enabled(w, first) && Authenticates(w.tunnels, tokenHash, now, first.claim) && now <= first.checkedAt
    ensures AttachEffect(w, first).result.Ok?
    ensures var s := first.claim.subdomain;
      s in w.tunnels.claims && w.tunnels.claims[s].tokenHash == tokenHash == first.claim.tokenHash
  {
    TunnelTheorems.AuthenticatedAttachSucceeds(w, tokenHash, now, first);
    hide Next, Enabled, TablesSound;
  }

  /** In a live tunnel two agents are granted the claim at one moment. The first takes over. The
      second's attach within the cooldown is a conflict that closes it as going away, so it dials
      again, while a dial at that moment would have been stopped. */
  lemma RacedTakeoverRetries(w: World, tokenHash: string, now: Instant, first: Step, second: Step)
    requires first.Attach? && first.read && first.committed && TablesSound(w) && w.IsLive(first.claim.subdomain)
    requires Enabled(w, first) && Authenticates(w.tunnels, tokenHash, now, first.claim) && now <= first.checkedAt
    requires second.Attach? && second.read && second.claim == first.claim && Enabled(Next(w, first), second)
    requires second.checkedAt < first.stampedAt + SUPERSEDE_COOLDOWN
    ensures AttachEffect(w, first).result.Ok?
    ensures AttachEffect(Next(w, first), second).result == Err(Conflict)
    ensures Agent.CloseStatus(Agent.CloseReasonFor(Conflict)) == 1001 && !CloseStops(Conflict)
    ensures forall r :: Answers(Next(w, first).tunnels.claims, Next(w, first).tunnels, true, tokenHash, true, second.checkedAt, r) ==>
      r == Err(Conflict) && DialStops(Conflict)
  {
    hide Next, AttachEffect, Enabled, Authenticates, TablesSound, Answers, ClaimsSound;
    GrantedTakesOver(w, tokenHash, now, first);
    TakeoverForbidsTheNext(w, first, second.checkedAt);
    var v, s := Next(w, first), first.claim.subdomain;
    TunnelTheorems.ClaimsOf(v);
    ConflictIsCooldown(v, second);
    forall r | Answers(v.tunnels.claims, v.tunnels, true, tokenHash, true, second.checkedAt, r)
      ensures r == Err(Conflict) && DialStops(Conflict)
    {
      ForbiddenDialStops(v.tunnels, s, second.checkedAt, r);
    }
  }

  const AGENT := AuditRows.Claimant("a", 1)
  const CLAIMING := ClaimTunnel("a", "token-a", true, 1, true)
  const ATTACHING := Attach(AGENT, 0, true, 4, 5, true, 6)
  const FIRST := Attach(AGENT, 1, true, 8, 9, true, 10)
  const SECOND := Attach(AGENT, 2, true, 11, 12, true, 13)

  lemma TakeoverEnabled(w: World)
    requires w.tunnels.claims == map["a" := AGENT] && w.tunnels.superseded == map[] && w.links.Keys == {0} && w.clock == 6
    requires w.IsLive("a")
    ensures Authenticates(w.tunnels, "token-a", 7, AGENT)
    ensures Enabled(w, FIRST) && Enabled(Next(w, FIRST), SECOND)
  {
  }

  lemma TakeoverRaces(w: World)
    requires TablesSound(w) && w.IsLive("a")
    requires Authenticates(w.tunnels, "token-a", 7, AGENT) && Enabled(w, FIRST) && Enabled(Next(w, FIRST), SECOND)
    ensures AttachEffect(w, FIRST).result.Ok? && AttachEffect(Next(w, FIRST), SECOND).result == Err(Conflict)
  {
    hide Enabled, Next, TablesSound, AttachEffect, Authenticates;
    RacedTakeoverRetries(w, "token-a", 7, FIRST, SECOND);
  }

  /** And such a run exists: "a" is claimed and connected, two agents are granted it at 7, the
      first takes over at 8 to 10, the second's attach at 11 is the conflict. */
  lemma ConflictAfterUpgradeIsRetried(principal: string) returns (ws: seq<World>, steps: seq<Step>)
    ensures TunnelTheorems.Behavior(principal, ws, steps)
    ensures |steps| == 4 && steps[2] == FIRST && steps[3] == SECOND
    ensures Authenticates(ws[2].tunnels, "token-a", 7, AGENT)
    ensures AttachEffect(ws[2], FIRST).result.Ok? && AttachEffect(ws[3], SECOND).result == Err(Conflict)
    ensures !CloseStops(Conflict) && DialStops(Conflict)
  {
    hide Enabled, Next, TablesSound, AttachEffect, Initial, Authenticates;
    var w0, w1, w2 := ConnectedWorld(principal);
    TakeoverEnabled(w2);
    TakeoverRaces(w2);
    var w3 := Next(w2, FIRST);
    steps := [CLAIMING, ATTACHING, FIRST, SECOND];
    ws := [w0, w1, w2, w3, Next(w3, SECOND)];
    FourSteps(principal, ws, steps);
    StopsOrNot();
  }

  /** The run up to the first connection. */
  lemma ConnectedWorld(principal: string) returns (w0: World, w1: World, w2: World)
    ensures w0 == Initial(principal)
    ensures Enabled(w0, CLAIMING) && w1 == Next(w0, CLAIMING)
    ensures Enabled(w1, ATTACHING) && w2 == Next(w1, ATTACHING)
    ensures w2.tunnels.claims == map["a" := AGENT] && w2.tunnels.superseded == map[] && w2.links.Keys == {0} && w2.clock == 6
    ensures w1.links == map[] && w1.tunnels.live == map[] && AttachEffect(w1, ATTACHING).result.Ok?
    ensures w2.IsLive("a") && w2.tunnels.live["a"].link == 0 && TablesSound(w2)
  {
    hide Enabled, Next, TablesSound, Initial;
    w0 := Initial(principal);
    AuditRows.FirstClaim(principal);
    w1 := Next(w0, CLAIMING);
    AuditRows.FirstAttach(w1);
    w2 := Next(w1, ATTACHING);
    TablesAfter(principal, w0, w1);
  }

  lemma TablesAfter(principal: string, w0: World, w1: World)
    requires w0 == Initial(principal) && Enabled(w0, CLAIMING) && w1 == Next(w0, CLAIMING) && Enabled(w1, ATTACHING)
    ensures TablesSound(Next(w1, ATTACHING))
  {
    InitialSound(principal);
    TunnelTheorems.SoundTables(w0);
    hide Enabled, Next, TablesSound, Initial;
    ClaimKeepsTables(w0, CLAIMING);
    AttachKeepsTables(w1, ATTACHING);
  }

  lemma FourSteps(principal: string, ws: seq<World>, steps: seq<Step>)
    requires |ws| == 5 && |steps| == 4 && ws[0] == Initial(principal)
    requires Enabled(ws[0], steps[0]) && ws[1] == Next(ws[0], steps[0])
    requires Enabled(ws[1], steps[1]) && ws[2] == Next(ws[1], steps[1])
    requires Enabled(ws[2], steps[2]) && ws[3] == Next(ws[2], steps[2])
    requires Enabled(ws[3], steps[3]) && ws[4] == Next(ws[3], steps[3])
    ensures TunnelTheorems.Behavior(principal, ws, steps)
  {
    hide Enabled, Next, Initial;
  }

  lemma StopsOrNot()
    ensures !CloseStops(Conflict) && DialStops(Conflict)
  {
  }
}
