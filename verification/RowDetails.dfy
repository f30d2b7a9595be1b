/** What the rows about revocations and connections carry: the time a claim says it was revoked, and
    the generation a connection was served under. */
module RowDetails {
  import opened Wrappers
  import opened Lifecycle
  import opened TunnelPolicy
  import opened TunnelRuns
  import TunnelTheorems
  import TunnelHistory
  import AuditRows

  // ---------------------------------------------------------------------------------------
  // When claims were revoked
  // ---------------------------------------------------------------------------------------

  /** A revocation stores the claim it returns, dated by the reading its rows carry. */
  lemma RevokeStores(w: World, step: Step)
    requires step.RevokeTunnel? && Enabled(w, step) && RevokeEffect(w, step).result.Ok?
    ensures var claim, v := RevokeEffect(w, step).result.value, Next(w, step);
      && step.subdomain in w.tunnels.claims && !w.tunnels.claims[step.subdomain].revoked
      && v.tunnels.claims == w.tunnels.claims[step.subdomain := claim]
      && claim.revoked && claim.revokedAt == Some(step.at) && claim.subdomain == w.tunnels.claims[step.subdomain].subdomain
  {
  }

  lemma RevokeRows(w: World, step: Step) returns (kinds: seq<AuditKind>, detail: Detail)
    requires step.RevokeTunnel? && Enabled(w, step) && RevokeEffect(w, step).result.Ok?
    ensures Next(w, step).tunnels.audit == w.tunnels.audit + Entries(kinds, step.subdomain, step.at, Management(w.tunnels.principal), detail)
    ensures kinds in {[Withdrawn], [Disconnected, Withdrawn]}
  {
    kinds := if step.subdomain in w.tunnels.live then [Disconnected, Withdrawn] else [Withdrawn];
    detail := Revision(w.tunnels.claims[step.subdomain].revision + 1);
  }

  predicate IsDated(t: Tunnels, row: AuditEntry) {
    && row.subdomain in t.claims && t.claims[row.subdomain].revoked
    && t.claims[row.subdomain].revokedAt == Some(row.at)
  }

  ghost predicate HasWithdrawal(t: Tunnels, s: Subdomain) {
    exists k :: 0 <= k < |t.audit| && t.audit[k].kind == Withdrawn && t.audit[k].subdomain == s
  }

  /** Active claims carry no date; a revoked one carries that of its withdrawal rows, of which there
      is one at least. */
  ghost predicate DatesSound(t: Tunnels) {
    && (forall s | s in t.claims && !t.claims[s].revoked :: t.claims[s].revokedAt == None)
    && (forall k | 0 <= k < |t.audit| && t.audit[k].kind == Withdrawn :: IsDated(t, t.audit[k]))
    && (forall s | s in t.claims && t.claims[s].revoked :: HasWithdrawal(t, s))
  }

  lemma RowsAfter(t: Tunnels, kinds: seq<AuditKind>, s: Subdomain, at: Instant, actor: Actor, detail: Detail, k: nat)
    requires k < |t.audit| + |kinds|
    ensures var audit := t.audit + Entries(kinds, s, at, actor, detail);
      audit[k] == if k < |t.audit| then t.audit[k] else AuditEntry(at, s, kinds[k - |t.audit|], actor, detail)
  {
  }

  lemma HasStays(t: Tunnels, u: Tunnels, s: Subdomain)
    requires t.audit <= u.audit && HasWithdrawal(t, s)
    ensures HasWithdrawal(u, s)
  {
    var k :| 0 <= k < |t.audit| && t.audit[k].kind == Withdrawn && t.audit[k].subdomain == s;
    assert u.audit[k] == t.audit[k];
  }

  /** No claim was revoked. */
  lemma DatesKept(t: Tunnels, u: Tunnels, kinds: seq<AuditKind>, s: Subdomain, at: Instant, actor: Actor, detail: Detail)
    requires DatesSound(t) && u.audit == t.audit + Entries(kinds, s, at, actor, detail) && Withdrawn !in kinds
    requires forall r | r in t.claims :: r in u.claims && u.claims[r] == t.claims[r]
    requires forall r | r in u.claims && r !in t.claims :: !u.claims[r].revoked && u.claims[r].revokedAt == None
    ensures DatesSound(u)
  {
    forall k | 0 <= k < |u.audit| && u.audit[k].kind == Withdrawn ensures IsDated(u, u.audit[k]) {
      RowsAfter(t, kinds, s, at, actor, detail, k);
      assert IsDated(t, t.audit[k]);
    }
    forall r | r in u.claims && u.claims[r].revoked ensures HasWithdrawal(u, r) { HasStays(t, u, r); }
  }

  /** One was, at this time. */
  lemma DatesRevoked(t: Tunnels, u: Tunnels, kinds: seq<AuditKind>, s: Subdomain, at: Instant, actor: Actor, detail: Detail)
    requires DatesSound(t) && u.audit == t.audit + Entries(kinds, s, at, actor, detail)
    requires kinds != [] && kinds[|kinds| - 1] == Withdrawn
    requires s in t.claims && !t.claims[s].revoked && s in u.claims && u.claims == t.claims[s := u.claims[s]]
    requires u.claims[s].revoked && u.claims[s].revokedAt == Some(at)
    ensures DatesSound(u)
  {
    forall k | 0 <= k < |u.audit| && u.audit[k].kind == Withdrawn ensures IsDated(u, u.audit[k]) {
      RowsAfter(t, kinds, s, at, actor, detail, k);
      assert k < |t.audit| ==> IsDated(t, t.audit[k]);
    }
    RowsAfter(t, kinds, s, at, actor, detail, |u.audit| - 1);
    forall r | r in u.claims && u.claims[r].revoked ensures HasWithdrawal(u, r) {
      if r != s { HasStays(t, u, r); }
    }
  }

  lemma SameDates(t: Tunnels, u: Tunnels)
    requires DatesSound(t) && u.claims == t.claims && u.audit == t.audit
    ensures DatesSound(u)
  {
    forall s | s in u.claims && u.claims[s].revoked ensures HasWithdrawal(u, s) { HasStays(t, u, s); }
  }

  lemma ClaimKeepsDates(w: World, step: Step)
    requires DatesSound(w.tunnels) && step.ClaimTunnel? && Enabled(w, step)
    ensures DatesSound(Next(w, step).tunnels)
  {
    if ClaimEffect(w, step).result.Ok? {
      ClaimRecords(w, step);
      hide Next, Enabled, DatesSound, ClaimEffect;
      DatesKept(w.tunnels, Next(w, step).tunnels, [Claimed], step.subdomain, step.at, Management(w.tunnels.principal), Revision(1));
    } else {
      RefusalKeepsDates(w, step);
    }
  }

  lemma RevokeKeepsDates(w: World, step: Step)
    requires DatesSound(w.tunnels) && step.RevokeTunnel? && Enabled(w, step)
    ensures DatesSound(Next(w, step).tunnels)
  {
    if RevokeEffect(w, step).result.Ok? {
      RevokeStores(w, step);
      hide Next, Enabled, DatesSound, RevokeEffect;
      var kinds, detail := RevokeRows(w, step);
      DatesRevoked(w.tunnels, Next(w, step).tunnels, kinds, step.subdomain, step.at, Management(w.tunnels.principal), detail);
    } else {
      RefusalKeepsDates(w, step);
    }
  }

  lemma AttachKeepsDates(w: World, step: Step)
    requires DatesSound(w.tunnels) && step.Attach? && Enabled(w, step)
    ensures DatesSound(Next(w, step).tunnels)
  {
    AttachMoves(w, step);
    var kinds := AttachKinds(w, step);
    hide Next, Enabled, DatesSound, AttachEffect;
    var s := step.claim.subdomain;
    DatesKept(w.tunnels, Next(w, step).tunnels, kinds, s, step.recordedAt, Agent(s), Generation(w.tunnels.generation + 1));
  }

  lemma LostKeepsDates(w: World, step: Step)
    requires DatesSound(w.tunnels) && step.Lost? && Enabled(w, step)
    ensures DatesSound(Next(w, step).tunnels)
  {
    LostMoves(w, step);
    LossAppends(w, step);
    hide Next, Enabled, DatesSound, LostEffect;
    var v, s := Next(w, step), w.handles[step.generation].subdomain;
    var kinds := if v.tunnels == w.tunnels then [] else [Disconnected];
    DatesKept(w.tunnels, v.tunnels, kinds, s, step.at, Agent(s), Generation(step.generation));
  }

  lemma StepKeepsDates(w: World, step: Step)
    requires DatesSound(w.tunnels) && Enabled(w, step)
    ensures DatesSound(Next(w, step).tunnels)
  {
    hide Enabled, DatesSound;
    match step
    case ClaimTunnel(_, _, _, _, _) => hide Next; ClaimKeepsDates(w, step);
    case RevokeTunnel(_, _, _, _, _) => hide Next; RevokeKeepsDates(w, step);
    case Attach(_, _, _, _, _, _, _) => hide Next; AttachKeepsDates(w, step);
    case Lost(_, _, _) => hide Next; LostKeepsDates(w, step);
    case Crash => SameDates(w.tunnels, Next(w, step).tunnels);
  }

  lemma RefusalKeepsDates(w: World, step: Step)
    requires DatesSound(w.tunnels) && Enabled(w, step) && TunnelTheorems.ErrorOf(w, step).Some?
    ensures DatesSound(Next(w, step).tunnels)
  {
    TunnelTheorems.RefusalStep(w, step);
    hide Next, Enabled, DatesSound, TunnelTheorems.ErrorOf;
  }

  /** The rows of a reported loss. */
  lemma LossAppends(w: World, step: Step)
    requires step.Lost? && Enabled(w, step)
    ensures var v, s := Next(w, step), w.handles[step.generation].subdomain;
      && v.tunnels.audit == w.tunnels.audit
           + Entries(if v.tunnels == w.tunnels then [] else [Disconnected], s, step.at, Agent(s), Generation(step.generation))
      && (v.tunnels != w.tunnels ==> s in w.tunnels.live && w.tunnels.live[s].generation == step.generation)
  {
  }

  lemma InitialDates(principal: string)
    ensures DatesSound(Initial(principal).tunnels)
  {
  }

  lemma {:induction false} AlwaysDated(principal: string, ws: seq<World>, steps: seq<Step>, i: nat)
    requires TunnelTheorems.Behavior(principal, ws, steps) && i < |ws|
    ensures DatesSound(ws[i].tunnels)
    decreases i
  {
    hide Next, Enabled, DatesSound;
    if i == 0 {
      InitialDates(principal);
    } else {
      AlwaysDated(principal, ws, steps, i - 1);
      StepKeepsDates(ws[i - 1], steps[i - 1]);
    }
  }

  /** In every run a claim carries no revocation date while it is active. Once revoked it is the
      claim that the one successful revocation before returned, dated by the clock reading of that
      revocation and of every withdrawal row of the subdomain, of which there is one at least. */
  lemma RevocationsAreDated(principal: string, ws: seq<World>, steps: seq<Step>, i: nat, s: Subdomain)
    requires TunnelTheorems.Behavior(principal, ws, steps) && i < |ws| && s in ws[i].tunnels.claims
    ensures !ws[i].tunnels.claims[s].revoked ==> ws[i].tunnels.claims[s].revokedAt == None
    ensures ws[i].tunnels.claims[s].revoked ==>
      exists k :: 0 <= k < i && TunnelHistory.RevokedAt(ws, steps, k, s)
    ensures forall k | 0 <= k < i && TunnelHistory.RevokedAt(ws, steps, k, s) ::
      && RevokeEffect(ws[k], steps[k]).result == Ok(ws[i].tunnels.claims[s])
      && ws[i].tunnels.claims[s].revoked && ws[i].tunnels.claims[s].revokedAt == Some(steps[k].at)
    ensures forall j, k | 0 <= j < i && 0 <= k < i && TunnelHistory.RevokedAt(ws, steps, j, s) && TunnelHistory.RevokedAt(ws, steps, k, s) ::
      j == k
    ensures ws[i].tunnels.claims[s].revoked ==>
      && HasWithdrawal(ws[i].tunnels, s)
      && forall k | 0 <= k < |ws[i].tunnels.audit| && ws[i].tunnels.audit[k].kind == Withdrawn && ws[i].tunnels.audit[k].subdomain == s ::
           ws[i].tunnels.claims[s].revokedAt == Some(ws[i].tunnels.audit[k].at)
  {
    AlwaysDated(principal, ws, steps, i);
    hide Next, Enabled, RevokeEffect, HasWithdrawal;
    if ws[i].tunnels.claims[s].revoked {
      TunnelHistory.ClaimHasMaker(principal, ws, steps, i, s);
      assert forall k | 0 <= k < |ws[i].tunnels.audit| && ws[i].tunnels.audit[k].kind == Withdrawn :: IsDated(ws[i].tunnels, ws[i].tunnels.audit[k]);
    }
    forall k | 0 <= k < i && TunnelHistory.RevokedAt(ws, steps, k, s)
      ensures RevokeEffect(ws[k], steps[k]).result == Ok(ws[i].tunnels.claims[s])
      ensures ws[i].tunnels.claims[s].revoked && ws[i].tunnels.claims[s].revokedAt == Some(steps[k].at)
    {
      RevokeStores(ws[k], steps[k]);
      AuditRows.NothingIsTakenBack(principal, ws, steps, k + 1, i);
    }
    forall j, k | 0 <= j < k < i && TunnelHistory.RevokedAt(ws, steps, j, s) ensures !TunnelHistory.RevokedAt(ws, steps, k, s) {
      if TunnelHistory.RevokedAt(ws, steps, k, s) { TunnelHistory.RevokeAnswers(principal, ws, steps, k); }
    }
  }

  // ---------------------------------------------------------------------------------------
  // Which connection a row is about
  // ---------------------------------------------------------------------------------------

  function LastRow(audit: seq<AuditEntry>, s: Subdomain): Option<AuditEntry> {
    if audit == [] then None
    else if audit[|audit| - 1].subdomain == s then Some(audit[|audit| - 1])
    else LastRow(audit[..|audit| - 1], s)
  }

  lemma LastRowAfter(audit: seq<AuditEntry>, kinds: seq<AuditKind>, s: Subdomain, at: Instant, actor: Actor, detail: Detail, r: Subdomain)
    ensures LastRow(audit + Entries(kinds, s, at, actor, detail), r) ==
      if r == s && kinds != [] then Some(AuditEntry(at, s, kinds[|kinds| - 1], actor, detail)) else LastRow(audit, r)
  {
    var rows := Entries(kinds, s, at, actor, detail);
    if kinds == [] {
      assert audit + rows == audit;
    } else {
      var n := |kinds| - 1;
      assert (audit + rows)[..|audit| + n] == audit + Entries(kinds[..n], s, at, actor, detail);
      if r != s { LastRowAfter(audit, kinds[..n], s, at, actor, detail, r); }
    }
  }

  /** This connection's row is the last one about the subdomain. */
  predicate ConnectedLast(audit: seq<AuditEntry>, s: Subdomain, detail: Detail) {
    var last := LastRow(audit, s);
    last.Some? && last.value.kind == Connected && last.value.detail == detail
  }

  /** A disconnect an agent's loss recorded names the connection whose row it follows. */
  predicate EndsItsConnection(audit: seq<AuditEntry>, k: nat)
    requires k < |audit|
  {
    audit[k].kind == Disconnected && audit[k].actor.Agent? ==> ConnectedLast(audit[..k], audit[k].subdomain, audit[k].detail)
  }

  ghost predicate GenerationsSound(t: Tunnels) {
    && (forall s | s in t.live :: ConnectedLast(t.audit, s, Generation(t.live[s].generation)))
    && (forall k | 0 <= k < |t.audit| :: EndsItsConnection(t.audit, k))
  }

  lemma GenerationsKept(t: Tunnels, u: Tunnels, kinds: seq<AuditKind>, s: Subdomain, at: Instant, actor: Actor, detail: Detail)
    requires GenerationsSound(t) && u.audit == t.audit + Entries(kinds, s, at, actor, detail)
    requires forall r | r in u.live && r != s :: r in t.live && u.live[r] == t.live[r]
    requires s in u.live ==>
      if kinds == [] then s in t.live && u.live[s] == t.live[s]
      else kinds[|kinds| - 1] == Connected && detail == Generation(u.live[s].generation)
    requires actor.Agent? && Disconnected in kinds ==> kinds == [Disconnected] && ConnectedLast(t.audit, s, detail)
    ensures GenerationsSound(u)
  {
    forall r | r in u.live ensures ConnectedLast(u.audit, r, Generation(u.live[r].generation)) {
      LastRowAfter(t.audit, kinds, s, at, actor, detail, r);
    }
    forall k | 0 <= k < |u.audit| ensures EndsItsConnection(u.audit, k) {
      RowsAfter(t, kinds, s, at, actor, detail, k);
      if k < |t.audit| {
        assert EndsItsConnection(t.audit, k) && u.audit[..k] == t.audit[..k];
      } else if u.audit[k].kind == Disconnected && actor.Agent? {
        assert u.audit[..k] == t.audit;
      }
    }
  }

  lemma AttachKeepsGenerations(w: World, step: Step)
    requires GenerationsSound(w.tunnels) && step.Attach? && Enabled(w, step)
    ensures GenerationsSound(Next(w, step).tunnels)
  {
    AttachMoves(w, step);
    var kinds := AttachKinds(w, step);
    hide Next, Enabled, GenerationsSound, AttachEffect;
    var s := step.claim.subdomain;
    GenerationsKept(w.tunnels, Next(w, step).tunnels, kinds, s, step.recordedAt, Agent(s), Generation(w.tunnels.generation + 1));
  }

  lemma LostKeepsGenerations(w: World, step: Step)
    requires GenerationsSound(w.tunnels) && step.Lost? && Enabled(w, step)
    ensures GenerationsSound(Next(w, step).tunnels)
  {
    LostMoves(w, step);
    LossAppends(w, step);
    hide Next, Enabled, LostEffect;
    var v, s := Next(w, step), w.handles[step.generation].subdomain;
    var kinds := if v.tunnels == w.tunnels then [] else [Disconnected];
    assert kinds != [] ==> ConnectedLast(w.tunnels.audit, s, Generation(step.generation));
    hide GenerationsSound;
    GenerationsKept(w.tunnels, v.tunnels, kinds, s, step.at, Agent(s), Generation(step.generation));
  }

  lemma CrashKeepsGenerations(w: World)
    requires GenerationsSound(w.tunnels)
    ensures GenerationsSound(Next(w, Crash).tunnels)
  {
  }

  lemma StepKeepsGenerations(w: World, step: Step)
    requires GenerationsSound(w.tunnels) && TablesSound(w) && Enabled(w, step)
    ensures GenerationsSound(Next(w, step).tunnels)
  {
    hide Next, Enabled, GenerationsSound, TablesSound;
    match step
    case ClaimTunnel(_, _, _, _, _) => ClaimKeepsGenerations(w, step);
    case RevokeTunnel(_, _, _, _, _) => RevokeKeepsGenerations(w, step);
    case Attach(_, _, _, _, _, _, _) => AttachKeepsGenerations(w, step);
    case Lost(_, _, _) => LostKeepsGenerations(w, step);
    case Crash => CrashKeepsGenerations(w);
  }

  lemma AttachKinds(w: World, step: Step) returns (kinds: seq<AuditKind>)
    requires step.Attach? && Enabled(w, step)
    ensures Next(w, step).tunnels.audit == w.tunnels.audit
      + Entries(kinds, step.claim.subdomain, step.recordedAt, Agent(step.claim.subdomain), Generation(w.tunnels.generation + 1))
    ensures AttachEffect(w, step).result.Ok? ==> kinds in {[Connected], [Superseded, Connected]}
    ensures AttachEffect(w, step).result.Err? ==> kinds == []
  {
    kinds :=
      if AttachEffect(w, step).result.Err? then []
      else if step.claim.subdomain in w.tunnels.live then [Superseded, Connected] else [Connected];
  }

  lemma ClaimKeepsGenerations(w: World, step: Step)
    requires GenerationsSound(w.tunnels) && TablesSound(w) && step.ClaimTunnel? && Enabled(w, step)
    ensures GenerationsSound(Next(w, step).tunnels)
  {
    var v := Next(w, step);
    AuditRows.LiveIsClaimed(w);
    if ClaimEffect(w, step).result.Ok? {
      ClaimRecords(w, step);
      hide Next, Enabled, TablesSound, GenerationsSound, ClaimEffect;
      GenerationsKept(w.tunnels, v.tunnels, [Claimed], step.subdomain, step.at, Management(w.tunnels.principal), Revision(1));
    } else {
      RefusalKeepsGenerations(w, step);
    }
  }

  lemma RevokeKeepsGenerations(w: World, step: Step)
    requires GenerationsSound(w.tunnels) && TablesSound(w) && step.RevokeTunnel? && Enabled(w, step)
    ensures GenerationsSound(Next(w, step).tunnels)
  {
    var v := Next(w, step);
    if RevokeEffect(w, step).result.Ok? {
      RevokeMoves(w, step);
      hide Next, Enabled, TablesSound, GenerationsSound, RevokeEffect;
      var kinds, detail := RevokeRows(w, step);
      GenerationsKept(w.tunnels, v.tunnels, kinds, step.subdomain, step.at, Management(w.tunnels.principal), detail);
    } else {
      RefusalKeepsGenerations(w, step);
    }
  }

  lemma RefusalKeepsGenerations(w: World, step: Step)
    requires GenerationsSound(w.tunnels) && Enabled(w, step) && TunnelTheorems.ErrorOf(w, step).Some?
    ensures GenerationsSound(Next(w, step).tunnels)
  {
    TunnelTheorems.RefusalStep(w, step);
    hide Next, Enabled, GenerationsSound, TunnelTheorems.ErrorOf;
  }

  lemma InitialGenerations(principal: string)
    ensures GenerationsSound(Initial(principal).tunnels)
  {
  }

  /** In every run the last row about a live tunnel is that of the connection that serves it, with
      its generation, and a disconnect recorded for an agent carries the generation of the
      connection it ends, whose row is the one before it about the subdomain. */
  lemma {:induction false} RowsNameTheirConnection(principal: string, ws: seq<World>, steps: seq<Step>, i: nat)
    requires TunnelTheorems.Behavior(principal, ws, steps) && i < |ws|
    ensures forall s | s in ws[i].tunnels.live ::
      ConnectedLast(ws[i].tunnels.audit, s, Generation(ws[i].tunnels.live[s].generation))
    ensures forall k | 0 <= k < |ws[i].tunnels.audit| :: EndsItsConnection(ws[i].tunnels.audit, k)
    decreases i
  {
    hide Next, Enabled, Sound, TablesSound, ConnectedLast, EndsItsConnection;
    if i == 0 {
      InitialGenerations(principal);
    } else {
      RowsNameTheirConnection(principal, ws, steps, i - 1);
      TunnelTheorems.AlwaysSound(principal, ws, steps, i - 1);
      TunnelTheorems.SoundTables(ws[i - 1]);
      StepKeepsGenerations(ws[i - 1], steps[i - 1]);
    }
  }
}
