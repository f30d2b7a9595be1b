/** Exactly when each operation of the tunnel service goes through and with which error it fails
    otherwise, what one operation means for the next, and what no run ever takes back. */
module TunnelDecisions {
  import opened Wrappers
  import opened Lifecycle
  import opened TunnelPolicy
  import opened TunnelRuns
  import TunnelTheorems
  import AuditRows
  import Host

  ghost predicate Reachable(t: Tunnels) {
    && ClaimsSound(t)
    && (forall s | s in t.live :: s in t.claims && !t.claims[s].revoked)
    && (forall s | s in t.superseded :: s in t.live)
  }

  lemma SoundIsReachable(w: World)
    requires TablesSound(w)
    ensures Reachable(w.tunnels)
  {
    hide ClaimsSound;
    assert ClaimsSound(w.tunnels);
  }

  // ---------------------------------------------------------------------------------------
  // One operation
  // ---------------------------------------------------------------------------------------

  /** A claim succeeds exactly for a valid label and a credential that nobody holds, and from
      then on its credential, at any time, authenticates it and nothing else. */
  lemma ClaimDecides(t: Tunnels, subdomain: Subdomain, tokenHash: string, drawn: bool, at: Instant, committed: bool)
    requires Reachable(t)
    ensures var e := ClaimStep(t, subdomain, tokenHash, drawn, at, committed);
      && (e.result.Ok? <==>
            (Host.ValidSubdomain(subdomain) && drawn && committed
             && subdomain !in t.claims && forall s | s in t.claims :: t.claims[s].tokenHash != tokenHash))
      && (e.result == Err(Invalid) <==> !Host.ValidSubdomain(subdomain))
      && (e.result == Err(StoreFailed) <==> Host.ValidSubdomain(subdomain) && !(drawn && committed))
      && (e.result.Ok? ==>
            && subdomain !in e.next.live
            && e.next.live == t.live && e.next.superseded == t.superseded && e.next.generation == t.generation
            && forall now, c :: Authenticates(e.next, tokenHash, now, c) <==> c == e.result.value)
  {
    var e := ClaimStep(t, subdomain, tokenHash, drawn, at, committed);
    if e.result.Ok? {
      assert forall s | s in t.claims :: e.next.claims[s].tokenHash != tokenHash;
      forall now, c ensures Authenticates(e.next, tokenHash, now, c) <==> c == e.result.value {
        assert Authenticates(e.next, tokenHash, now, c) ==> c.subdomain == subdomain;
      }
    }
  }

  /** A revocation succeeds exactly once a claim, on its first revision. */
  lemma RevokeDecides(t: Tunnels, s: Subdomain, expected: int, read: bool, at: Instant, committed: bool)
    requires Reachable(t)
    ensures var e := RevokeStep(t, s, expected, read, at, committed);
      var open := s in t.claims && !t.claims[s].revoked && expected == 1;
      && (e.result.Ok? <==> read && open && committed)
      && (e.result == Err(NotFound) <==> read && s !in t.claims)
      && (e.result == Err(Conflict) <==> read && s in t.claims && !open)
      && (e.result == Err(StoreFailed) <==> !read || (open && !committed))
  {
  }

  /** An attach goes through exactly for the current holder of an active claim outside the
      cooldown; a revocation that raced the upgrade is honoured. */
  lemma AttachDecides(
      t: Tunnels, claim: Claim, link: LinkId, read: bool,
      checkedAt: Instant, recordedAt: Instant, committed: bool, stampedAt: Instant)
    requires Reachable(t)
    ensures var s := claim.subdomain;
      var r := AttachStep(t, claim, link, read, checkedAt, recordedAt, committed, stampedAt).result;
      var holds := s in t.claims && t.claims[s].tokenHash == claim.tokenHash;
      var free := s in t.live && s in t.superseded ==> t.superseded[s] + SUPERSEDE_COOLDOWN <= checkedAt;
      && (r.Ok? <==> read && holds && !t.claims[s].revoked && free && committed)
      && (r == Err(NotFound) <==> read && s !in t.claims)
      && (r == Err(Unauthorized) <==> read && s in t.claims && !holds)
      && (r == Err(ClaimRevoked) <==> read && holds && t.claims[s].revoked)
      && (r == Err(Conflict) <==> read && holds && !free)
      && (r == Err(StoreFailed) <==> !read || (holds && !t.claims[s].revoked && free && !committed))
  {
  }

  // ---------------------------------------------------------------------------------------
  // Every run
  // ---------------------------------------------------------------------------------------

  /** Revocation is final: in no later state of the run is the subdomain live or its credential
      accepted, and no later attach or revocation of it goes through. */
  lemma RevocationIsFinal(principal: string, ws: seq<World>, steps: seq<Step>, i: nat, j: nat, s: Subdomain, now: Instant, claim: Claim)
    requires TunnelTheorems.Behavior(principal, ws, steps) && i <= j < |ws|
    requires s in ws[i].tunnels.claims && ws[i].tunnels.claims[s].revoked
    ensures s !in ws[j].tunnels.live
    ensures !Authenticates(ws[j].tunnels, ws[i].tunnels.claims[s].tokenHash, now, claim)
    ensures j < |steps| && steps[j].Attach? && steps[j].claim.subdomain == s ==> AttachEffect(ws[j], steps[j]).result.Err?
    ensures j < |steps| && steps[j].RevokeTunnel? && steps[j].subdomain == s ==> RevokeEffect(ws[j], steps[j]).result.Err?
  {
    AuditRows.NothingIsTakenBack(principal, ws, steps, i, j);
    TunnelTheorems.AlwaysSound(principal, ws, steps, j);
    TunnelTheorems.SoundTables(ws[j]);
    SoundIsReachable(ws[j]);
    var t := ws[j].tunnels;
    assert s in t.claims && t.claims[s].revoked && t.claims[s].tokenHash == ws[i].tunnels.claims[s].tokenHash;
    hide Next, Sound, TablesSound, Enabled, AuditRows.Aged;
    if j < |steps| && steps[j].Attach? {
      var a := steps[j];
      AttachDecides(t, a.claim, a.link, a.read, a.checkedAt, a.recordedAt, a.committed, a.stampedAt);
    }
    if j < |steps| && steps[j].RevokeTunnel? {
      var r := steps[j];
      RevokeDecides(t, r.subdomain, r.expected, r.read, r.at, r.committed);
    }
  }
}
