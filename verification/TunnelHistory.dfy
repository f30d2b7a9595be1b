/** What each operation answers, as a function of what succeeded before it in the run and of nothing
    else the service keeps. */
module TunnelHistory {
  import opened Wrappers
  import opened Lifecycle
  import opened TunnelPolicy
  import opened TunnelRuns
  import TunnelTheorems
  import TunnelDecisions
  import AuditRows
  import Refusals
  import Host

  /** Step k claimed s for this credential. */
  predicate ClaimedAt(ws: seq<World>, steps: seq<Step>, k: nat, s: Subdomain, tokenHash: string) {
    && k < |steps| < |ws| && steps[k].ClaimTunnel? && steps[k].subdomain == s && steps[k].tokenHash == tokenHash
    && ClaimEffect(ws[k], steps[k]).result.Ok?
  }

  predicate RevokedAt(ws: seq<World>, steps: seq<Step>, k: nat, s: Subdomain) {
    && k < |steps| < |ws| && steps[k].RevokeTunnel? && steps[k].subdomain == s
    && RevokeEffect(ws[k], steps[k]).result.Ok?
  }

  ghost predicate ClaimedBefore(ws: seq<World>, steps: seq<Step>, i: nat, s: Subdomain, tokenHash: string) {
    exists k :: 0 <= k < i && ClaimedAt(ws, steps, k, s, tokenHash)
  }

  ghost predicate RevokedBefore(ws: seq<World>, steps: seq<Step>, i: nat, s: Subdomain) {
    exists k :: 0 <= k < i && RevokedAt(ws, steps, k, s)
  }

  /** Only a claim adds a claim, and only a revocation revokes one. */
  ghost predicate ClaimsMade(w: World, v: World, step: Step, s: Subdomain)
    requires s in v.tunnels.claims
  {
    var c := v.tunnels.claims[s];
    && (s !in w.tunnels.claims ==>
          step.ClaimTunnel? && step.subdomain == s && step.tokenHash == c.tokenHash && ClaimEffect(w, step).result.Ok? && !c.revoked)
    && (s in w.tunnels.claims && !w.tunnels.claims[s].revoked && c.revoked ==>
          step.RevokeTunnel? && step.subdomain == s && RevokeEffect(w, step).result.Ok?)
  }

  lemma ClaimMakes(w: World, step: Step, s: Subdomain)
    requires step.ClaimTunnel? && Enabled(w, step) && s in Next(w, step).tunnels.claims
    ensures ClaimsMade(w, Next(w, step), step, s)
  {
    if ClaimEffect(w, step).result.Ok? {
      ClaimRecords(w, step);
      hide ClaimStep;
    }
  }

  lemma RevokeMakes(w: World, step: Step, s: Subdomain)
    requires step.RevokeTunnel? && Enabled(w, step) && s in Next(w, step).tunnels.claims
    ensures ClaimsMade(w, Next(w, step), step, s)
  {
    RevokeMoves(w, step);
    hide Next, Enabled, RevokeStep;
  }

  lemma StepClaims(w: World, step: Step, s: Subdomain)
    requires TablesSound(w) && Enabled(w, step) && s in Next(w, step).tunnels.claims
    ensures ClaimsMade(w, Next(w, step), step, s)
  {
    hide TablesSound, AttachStep, LostStep, ClaimStep, RevokeStep;
    match step
    case ClaimTunnel(_, _, _, _, _) => ClaimMakes(w, step, s);
    case RevokeTunnel(_, _, _, _, _) => RevokeMakes(w, step, s);
    case Attach(_, _, _, _, _, _, _) =>
      AttachMoves(w, step);
      hide Next, Enabled;
    case Lost(_, _, _) =>
      LostMoves(w, step);
      hide Next, Enabled;
    case Crash =>
  }

  lemma SuccessfulClaim(w: World, step: Step)
    requires step.ClaimTunnel? && Enabled(w, step) && ClaimEffect(w, step).result.Ok?
    ensures step.subdomain in Next(w, step).tunnels.claims && Next(w, step).tunnels.claims[step.subdomain].tokenHash == step.tokenHash
  {
    ClaimRecords(w, step);
    hide Next;
  }

  lemma SuccessfulRevoke(w: World, step: Step)
    requires step.RevokeTunnel? && Enabled(w, step) && RevokeEffect(w, step).result.Ok?
    ensures step.subdomain in Next(w, step).tunnels.claims && Next(w, step).tunnels.claims[step.subdomain].revoked
  {
  }

  lemma {:induction false} ClaimHasMaker(principal: string, ws: seq<World>, steps: seq<Step>, i: nat, s: Subdomain)
    requires TunnelTheorems.Behavior(principal, ws, steps) && i < |ws| && s in ws[i].tunnels.claims
    ensures ClaimedBefore(ws, steps, i, s, ws[i].tunnels.claims[s].tokenHash)
    ensures ws[i].tunnels.claims[s].revoked ==> RevokedBefore(ws, steps, i, s)
    decreases i
  {
    hide Next, Enabled, Sound, TablesSound, ClaimsSound, ClaimEffect, RevokeEffect;
    assert i > 0 by { assert s !in Initial(principal).tunnels.claims; }
    TunnelTheorems.AlwaysSound(principal, ws, steps, i - 1);
    TunnelTheorems.SoundTables(ws[i - 1]);
    StepClaims(ws[i - 1], steps[i - 1], s);
    if s in ws[i - 1].tunnels.claims {
      ClaimHasMaker(principal, ws, steps, i - 1, s);
      AuditRows.NothingIsTakenBack(principal, ws, steps, i - 1, i);
      Carry(ws, steps, i, s, ws[i].tunnels.claims[s].tokenHash);
      assert ws[i].tunnels.claims[s].revoked && !ws[i - 1].tunnels.claims[s].revoked ==> RevokedAt(ws, steps, i - 1, s);
    } else {
      assert ClaimedAt(ws, steps, i - 1, s, ws[i].tunnels.claims[s].tokenHash);
    }
  }

  lemma Carry(ws: seq<World>, steps: seq<Step>, i: nat, s: Subdomain, tokenHash: string)
    requires i > 0
    ensures ClaimedBefore(ws, steps, i - 1, s, tokenHash) ==> ClaimedBefore(ws, steps, i, s, tokenHash)
    ensures RevokedBefore(ws, steps, i - 1, s) ==> RevokedBefore(ws, steps, i, s)
  {
    hide ClaimedAt, RevokedAt;
  }

  /** The claims of any moment of a run are those made before it, each revoked if it was. */
  lemma ClaimsAreThoseMade(principal: string, ws: seq<World>, steps: seq<Step>, i: nat, s: Subdomain, tokenHash: string)
    requires TunnelTheorems.Behavior(principal, ws, steps) && i < |ws|
    ensures s in ws[i].tunnels.claims && ws[i].tunnels.claims[s].tokenHash == tokenHash <==> ClaimedBefore(ws, steps, i, s, tokenHash)
    ensures s in ws[i].tunnels.claims && ws[i].tunnels.claims[s].revoked <==> RevokedBefore(ws, steps, i, s)
  {
    hide Next, Enabled, ClaimEffect, RevokeEffect;
    if s in ws[i].tunnels.claims { ClaimHasMaker(principal, ws, steps, i, s); }
    if ClaimedBefore(ws, steps, i, s, tokenHash) {
      var k :| 0 <= k < i && ClaimedAt(ws, steps, k, s, tokenHash);
      SuccessfulClaim(ws[k], steps[k]);
      AuditRows.NothingIsTakenBack(principal, ws, steps, k + 1, i);
    }
    if RevokedBefore(ws, steps, i, s) {
      var k :| 0 <= k < i && RevokedAt(ws, steps, k, s);
      SuccessfulRevoke(ws[k], steps[k]);
      AuditRows.NothingIsTakenBack(principal, ws, steps, k + 1, i);
    }
  }

  lemma ReachableAt(principal: string, ws: seq<World>, steps: seq<Step>, i: nat)
    requires TunnelTheorems.Behavior(principal, ws, steps) && i < |ws|
    ensures TunnelDecisions.Reachable(ws[i].tunnels) && TablesSound(ws[i])
  {
    hide Next, Enabled, Sound;
    TunnelTheorems.AlwaysSound(principal, ws, steps, i);
    TunnelTheorems.SoundTables(ws[i]);
    TunnelDecisions.SoundIsReachable(ws[i]);
  }

  /** A claim succeeds exactly if nothing before it in the run ever claimed the subdomain, or took
      the credential for any other. */
  lemma ClaimAnswers(principal: string, ws: seq<World>, steps: seq<Step>, i: nat)
    requires TunnelTheorems.Behavior(principal, ws, steps) && i < |steps| && steps[i].ClaimTunnel?
    ensures var c := steps[i];
      ClaimEffect(ws[i], c).result.Ok? <==>
        && Host.ValidSubdomain(c.subdomain) && c.drawn && c.committed
        && forall s, tokenHash | ClaimedBefore(ws, steps, i, s, tokenHash) :: s != c.subdomain && tokenHash != c.tokenHash
  {
    var c, t := steps[i], ws[i].tunnels;
    ReachableAt(principal, ws, steps, i);
    hide Next, Enabled, TunnelDecisions.Reachable, TablesSound, ClaimsSound, Host.ValidSubdomain, ClaimedBefore, ClaimStep, TunnelTheorems.Behavior;
    TunnelDecisions.ClaimDecides(t, c.subdomain, c.tokenHash, c.drawn, c.at, c.committed);
    forall s, tokenHash ensures ClaimedBefore(ws, steps, i, s, tokenHash) <==> s in t.claims && t.claims[s].tokenHash == tokenHash {
      ClaimsAreThoseMade(principal, ws, steps, i, s, tokenHash);
    }
    assert c.subdomain in t.claims ==> ClaimedBefore(ws, steps, i, c.subdomain, t.claims[c.subdomain].tokenHash);
    assert forall s | s in t.claims :: ClaimedBefore(ws, steps, i, s, t.claims[s].tokenHash);
  }

  /** A revocation succeeds exactly if the subdomain was claimed before it in the run and not revoked
      since, and it expects the first revision. */
  lemma RevokeAnswers(principal: string, ws: seq<World>, steps: seq<Step>, i: nat)
    requires TunnelTheorems.Behavior(principal, ws, steps) && i < |steps| && steps[i].RevokeTunnel?
    ensures var r := steps[i];
      RevokeEffect(ws[i], r).result.Ok? <==>
        && r.read && r.committed && r.expected == 1
        && (exists tokenHash :: ClaimedBefore(ws, steps, i, r.subdomain, tokenHash))
        && !RevokedBefore(ws, steps, i, r.subdomain)
  {
    var r, t := steps[i], ws[i].tunnels;
    ReachableAt(principal, ws, steps, i);
    hide Next, Enabled, TunnelDecisions.Reachable, TablesSound, ClaimsSound, ClaimedBefore, RevokedBefore, RevokeStep, TunnelTheorems.Behavior;
    TunnelDecisions.RevokeDecides(t, r.subdomain, r.expected, r.read, r.at, r.committed);
    forall tokenHash ensures ClaimedBefore(ws, steps, i, r.subdomain, tokenHash) <==>
      r.subdomain in t.claims && t.claims[r.subdomain].tokenHash == tokenHash
    {
      ClaimsAreThoseMade(principal, ws, steps, i, r.subdomain, tokenHash);
    }
    ClaimsAreThoseMade(principal, ws, steps, i, r.subdomain, "");
    assert r.subdomain in t.claims ==> ClaimedBefore(ws, steps, i, r.subdomain, t.claims[r.subdomain].tokenHash);
  }

  /** An attach goes through exactly if its subdomain was claimed before it in the run for its
      credential and never revoked, and no takeover whose tenancy still lasts is less than the
      cooldown ago. */
  lemma AttachAnswers(principal: string, ws: seq<World>, steps: seq<Step>, i: nat)
    requires TunnelTheorems.Behavior(principal, ws, steps) && i < |steps| && steps[i].Attach?
    ensures var a := steps[i];
      AttachEffect(ws[i], a).result.Ok? <==>
        && a.read && a.committed
        && ClaimedBefore(ws, steps, i, a.claim.subdomain, a.claim.tokenHash)
        && !RevokedBefore(ws, steps, i, a.claim.subdomain)
        && !Refusals.TakenOverSince(ws, steps, a.claim.subdomain, 0, i, a.checkedAt)
  {
    var a, t := steps[i], ws[i].tunnels;
    ReachableAt(principal, ws, steps, i);
    ClaimsAreThoseMade(principal, ws, steps, i, a.claim.subdomain, a.claim.tokenHash);
    assert ws[0].tunnels.TakeoverAllowed(a.claim.subdomain, a.checkedAt);
    Refusals.CooldownHasTakeover(principal, ws, steps, a.claim.subdomain, 0, i, a.checkedAt, a.checkedAt);
    hide Next, Enabled, TunnelDecisions.Reachable, TablesSound, ClaimsSound, ClaimedBefore, RevokedBefore, AttachStep, Refusals.TakenOverSince;
    TunnelDecisions.AttachDecides(t, a.claim, a.link, a.read, a.checkedAt, a.recordedAt, a.committed, a.stampedAt);
  }
}
