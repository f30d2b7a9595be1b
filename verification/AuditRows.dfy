/** The rows of the whole audit: what is never taken back, who and what each row names, and in
    which order their times stand. */
module AuditRows {
  import opened Wrappers
  import opened Lifecycle
  import opened TunnelPolicy
  import opened TunnelRuns
  import TunnelTheorems

  // ---------------------------------------------------------------------------------------
  // What each step appends
  // ---------------------------------------------------------------------------------------

  /** The time the rows of a step carry. */
  function RowTime(step: Step): Instant {
    match step
    case ClaimTunnel(_, _, _, at, _) => at
    case RevokeTunnel(_, _, _, at, _) => at
    case Attach(_, _, _, _, recordedAt, _, _) => recordedAt
    case Lost(_, at, _) => at
    case Crash => 0
  }

  /** Who may append which rows. */
  ghost predicate Authored(principal: string, kinds: seq<AuditKind>, s: Subdomain, actor: Actor, detail: Detail) {
    || (kinds == [Claimed] && actor == Management(principal) && detail == Revision(1))
    || (kinds in {[Withdrawn], [Disconnected, Withdrawn]} && actor == Management(principal) && detail == Revision(2))
    || (kinds in {[Connected], [Superseded, Connected], [Disconnected]} && actor == Agent(s) && detail.Generation?)
  }

  /** A step appended these rows, all about one subdomain and at its own time. */
  ghost predicate Appends(w: World, v: World, step: Step, kinds: seq<AuditKind>, s: Subdomain, actor: Actor, detail: Detail) {
    && v.tunnels.principal == w.tunnels.principal && w.clock <= v.clock
    && v.tunnels.audit == w.tunnels.audit + Entries(kinds, s, RowTime(step), actor, detail)
    && (kinds != [] ==>
          && Authored(w.tunnels.principal, kinds, s, actor, detail)
          && s in v.tunnels.claims
          && (step.ClaimTunnel? <==> kinds == [Claimed])
          && if step.ClaimTunnel? then s !in w.tunnels.claims && v.tunnels.claims[s].createdAt == RowTime(step)
             else
               && s in w.tunnels.claims && w.tunnels.claims[s].createdAt <= RowTime(step)
               && w.clock <= RowTime(step) <= v.clock)
  }

  lemma ClaimAppends(w: World, step: Step) returns (kinds: seq<AuditKind>)
    requires step.ClaimTunnel? && Enabled(w, step)
    ensures Appends(w, Next(w, step), step, kinds, step.subdomain, Management(w.tunnels.principal), Revision(1))
  {
    kinds := if ClaimEffect(w, step).result.Ok? then [Claimed] else [];
  }

  lemma RevokeWrites(t: Tunnels, s: Subdomain, expected: int, read: bool, at: Instant, committed: bool) returns (kinds: seq<AuditKind>)
    requires s in t.claims && !t.claims[s].revoked ==> t.claims[s].revision == 1
    ensures var next := RevokeStep(t, s, expected, read, at, committed).next;
      && next.audit == t.audit + Entries(kinds, s, at, Management(t.principal), Revision(2)) && next.principal == t.principal
      && (kinds != [] ==> s in t.claims && s in next.claims)
    ensures kinds in {[], [Withdrawn], [Disconnected, Withdrawn]}
  {
    if RevokeStep(t, s, expected, read, at, committed).result.Err? {
      kinds := [];
    } else {
      kinds := if s in t.live then [Disconnected, Withdrawn] else [Withdrawn];
    }
  }

  lemma RevokeAppends(w: World, step: Step) returns (kinds: seq<AuditKind>)
    requires ClaimsSound(w.tunnels) && step.RevokeTunnel? && Enabled(w, step)
    ensures Appends(w, Next(w, step), step, kinds, step.subdomain, Management(w.tunnels.principal), Revision(2))
  {
    hide RevokeStep, Entries;
    kinds := RevokeWrites(w.tunnels, step.subdomain, step.expected, step.read, step.at, step.committed);
    hide ClaimsSound;
  }

  lemma AttachAppends(w: World, step: Step) returns (kinds: seq<AuditKind>)
    requires step.Attach? && Enabled(w, step)
    ensures Appends(w, Next(w, step), step, kinds, step.claim.subdomain, Agent(step.claim.subdomain), Generation(w.tunnels.generation + 1))
  {
    if AttachEffect(w, step).result.Err? {
      kinds := [];
    } else {
      kinds := if step.claim.subdomain in w.tunnels.live then [Superseded, Connected] else [Connected];
    }
  }

  lemma LostAppends(w: World, step: Step) returns (kinds: seq<AuditKind>)
    requires TableSound(w) && LiveBorn(w) && step.Lost? && Enabled(w, step)
    ensures var s := w.handles[step.generation].subdomain;
      Appends(w, Next(w, step), step, kinds, s, Agent(s), Generation(step.generation))
  {
    kinds := if LostEffect(w, step).next == w.tunnels then [] else [Disconnected];
  }

  lemma StepAppends(w: World, step: Step) returns (kinds: seq<AuditKind>, s: Subdomain, actor: Actor, detail: Detail)
    requires TablesSound(w) && LiveBorn(w) && Enabled(w, step)
    ensures Appends(w, Next(w, step), step, kinds, s, actor, detail)
  {
    match step
    case ClaimTunnel(_, _, _, _, _) =>
      kinds := ClaimAppends(w, step);
      s, actor, detail := step.subdomain, Management(w.tunnels.principal), Revision(1);
    case RevokeTunnel(_, _, _, _, _) =>
      kinds := RevokeAppends(w, step);
      s, actor, detail := step.subdomain, Management(w.tunnels.principal), Revision(2);
    case Attach(claim, _, _, _, _, _, _) =>
      kinds := AttachAppends(w, step);
      s, actor, detail := claim.subdomain, Agent(claim.subdomain), Generation(w.tunnels.generation + 1);
    case Lost(generation, _, _) =>
      kinds := LostAppends(w, step);
      s := w.handles[generation].subdomain;
      actor, detail := Agent(s), Generation(generation);
    case Crash =>
      kinds, s, actor, detail := [], "", Agent(""), Revision(0);
  }

  // ---------------------------------------------------------------------------------------
  // What is never taken back
  // ---------------------------------------------------------------------------------------

  /** A claim keeps its subdomain, its credential and its birth, and ages only by revocation. */
  ghost predicate ClaimsAged(before: map<Subdomain, Claim>, after: map<Subdomain, Claim>) {
    forall s | s in before ::
      && s in after
      && after[s].tokenHash == before[s].tokenHash && after[s].createdAt == before[s].createdAt
      && before[s].revision <= after[s].revision
      && (before[s].revoked ==> after[s] == before[s])
  }

  lemma StepAgesClaims(w: World, step: Step)
    requires TablesSound(w) && Enabled(w, step)
    ensures ClaimsAged(w.tunnels.claims, Next(w, step).tunnels.claims)
  {
    match step
    case ClaimTunnel(_, _, _, _, _) =>
      if ClaimEffect(w, step).result.Ok? { ClaimRecords(w, step); }
    case RevokeTunnel(_, _, _, _, _) => RevokeMoves(w, step);
    case Attach(_, _, _, _, _, _, _) => AttachMoves(w, step);
    case Lost(_, _, _) => LostMoves(w, step);
    case Crash =>
  }

  ghost predicate Aged(t: Tunnels, u: Tunnels) {
    t.audit <= u.audit && ClaimsAged(t.claims, u.claims)
  }

  /** Across any run with any crashes: the audit is only ever appended to, no claim disappears
      or changes hands, and a revoked one never changes again. */
  lemma {:induction false} NothingIsTakenBack(principal: string, ws: seq<World>, steps: seq<Step>, i: nat, j: nat)
    requires TunnelTheorems.Behavior(principal, ws, steps) && i <= j < |ws|
    ensures Aged(ws[i].tunnels, ws[j].tunnels)
    decreases j
  {
    hide Next, Sound, Enabled;
    if i < j {
      NothingIsTakenBack(principal, ws, steps, i, j - 1);
      RowsAreAttributed(principal, ws, steps, j - 1);
      TunnelTheorems.SoundTables(ws[j - 1]);
      hide TablesSound;
      StepAgesClaims(ws[j - 1], steps[j - 1]);
      BornOf(ws[j - 1]);
      var kinds, s, actor, detail := StepAppends(ws[j - 1], steps[j - 1]);
      hide ClaimsAged, RowsSound, LiveBorn, Authored;
      AgedFurther(ws[i].tunnels.claims, ws[j - 1].tunnels.claims, ws[j].tunnels.claims);
    }
  }

  lemma AgedFurther(a: map<Subdomain, Claim>, b: map<Subdomain, Claim>, c: map<Subdomain, Claim>)
    requires ClaimsAged(a, b) && ClaimsAged(b, c)
    ensures ClaimsAged(a, c)
  {
  }

  // ---------------------------------------------------------------------------------------
  // Rows say who and when
  // ---------------------------------------------------------------------------------------

  /** Claims and revocations are the operator's, connections and takeovers the agent's; a
      disconnect is the agent's unless a revocation forced it, and then the revocation is the
      next row; the two rows of a takeover are adjacent and carry the same generation. */
  ghost predicate RowAttributed(principal: string, audit: seq<AuditEntry>, k: nat)
    requires k < |audit|
  {
    var row := audit[k];
    match row.kind
    case Claimed => row.actor == Management(principal) && row.detail == Revision(1)
    case Withdrawn => row.actor == Management(principal) && row.detail == Revision(2)
    case Connected => row.actor == Agent(row.subdomain) && row.detail.Generation?
    case Superseded => row.actor == Agent(row.subdomain) && row.detail.Generation?
                       && k + 1 < |audit| && audit[k + 1] == row.(kind := Connected)
    case Disconnected =>
      || (row.actor == Agent(row.subdomain) && row.detail.Generation?)
      || (row.actor == Management(principal) && k + 1 < |audit| && audit[k + 1] == row.(kind := Withdrawn))
  }

  /** A claim's row carries its birth; any other was read under the lock, at or before the clock. */
  predicate RowTimed(w: World, row: AuditEntry) {
    && row.subdomain in w.tunnels.claims
    && if row.kind == Claimed then row.at == w.tunnels.claims[row.subdomain].createdAt else row.at <= w.clock
  }

  /** Two rows written under the lock, or about one subdomain, are in the order of their times. */
  predicate InOrder(earlier: AuditEntry, later: AuditEntry) {
    (earlier.kind != Claimed && later.kind != Claimed) || earlier.subdomain == later.subdomain ==>
      earlier.at <= later.at
  }

  /** Every live tunnel's claim was born before the clock. */
  ghost predicate LiveBorn(w: World) {
    forall s | s in w.tunnels.live :: Born(w.tunnels, s, w.clock)
  }

  ghost predicate RowsSound(w: World) {
    && (forall k | 0 <= k < |w.tunnels.audit| :: RowAttributed(w.tunnels.principal, w.tunnels.audit, k))
    && (forall k | 0 <= k < |w.tunnels.audit| :: RowTimed(w, w.tunnels.audit[k]))
    && (forall j, k | 0 <= j < k < |w.tunnels.audit| :: InOrder(w.tunnels.audit[j], w.tunnels.audit[k]))
    && LiveBorn(w)
  }

  lemma BornOf(w: World)
    requires RowsSound(w)
    ensures LiveBorn(w)
  {
  }

  lemma AppendedAttributed(w: World, v: World, step: Step, kinds: seq<AuditKind>, s: Subdomain, actor: Actor, detail: Detail)
    requires RowsSound(w) && Appends(w, v, step, kinds, s, actor, detail)
    ensures forall k | 0 <= k < |v.tunnels.audit| :: RowAttributed(v.tunnels.principal, v.tunnels.audit, k)
  {
    hide LiveBorn, RowTimed, InOrder;
    var rows, n := Entries(kinds, s, RowTime(step), actor, detail), |w.tunnels.audit|;
    forall k | 0 <= k < |v.tunnels.audit| ensures RowAttributed(v.tunnels.principal, v.tunnels.audit, k) {
      if k < n {
        assert RowAttributed(w.tunnels.principal, w.tunnels.audit, k);
      } else {
        assert v.tunnels.audit[k] == rows[k - n];
      }
    }
  }

  /** The row at k is an earlier one or one of those appended. */
  lemma RowsOf(w: World, v: World, step: Step, kinds: seq<AuditKind>, s: Subdomain, actor: Actor, detail: Detail, k: nat)
    requires Appends(w, v, step, kinds, s, actor, detail) && k < |v.tunnels.audit|
    ensures k < |w.tunnels.audit| ==> v.tunnels.audit[k] == w.tunnels.audit[k]
    ensures k >= |w.tunnels.audit| ==>
      && kinds != []
      && v.tunnels.audit[k].at == RowTime(step) && v.tunnels.audit[k].subdomain == s
      && v.tunnels.audit[k].kind in kinds
      && (v.tunnels.audit[k].kind == Claimed <==> step.ClaimTunnel?)
      && (step.ClaimTunnel? ==> k == |w.tunnels.audit|)
  {
    if k >= |w.tunnels.audit| {
      assert v.tunnels.audit[k] == Entries(kinds, s, RowTime(step), actor, detail)[k - |w.tunnels.audit|];
    }
  }

  lemma AppendedTimed(w: World, v: World, step: Step, kinds: seq<AuditKind>, s: Subdomain, actor: Actor, detail: Detail)
    requires RowsSound(w) && Appends(w, v, step, kinds, s, actor, detail) && ClaimsAged(w.tunnels.claims, v.tunnels.claims)
    ensures forall k | 0 <= k < |v.tunnels.audit| :: RowTimed(v, v.tunnels.audit[k])
    ensures forall j, k | 0 <= j < k < |v.tunnels.audit| :: InOrder(v.tunnels.audit[j], v.tunnels.audit[k])
  {
    hide LiveBorn, RowAttributed, Authored;
    forall k | 0 <= k < |v.tunnels.audit| ensures RowTimed(v, v.tunnels.audit[k]) {
      RowsOf(w, v, step, kinds, s, actor, detail, k);
      assert k < |w.tunnels.audit| ==> RowTimed(w, w.tunnels.audit[k]);
    }
    forall j, k | 0 <= j < k < |v.tunnels.audit| ensures InOrder(v.tunnels.audit[j], v.tunnels.audit[k]) {
      RowsOf(w, v, step, kinds, s, actor, detail, j);
      RowsOf(w, v, step, kinds, s, actor, detail, k);
      if k < |w.tunnels.audit| {
        assert InOrder(w.tunnels.audit[j], w.tunnels.audit[k]);
      } else if j < |w.tunnels.audit| {
        assert RowTimed(w, w.tunnels.audit[j]);
      }
    }
  }

  /** Whoever is live afterwards was before, or has just been attached. */
  ghost predicate LiveMoves(w: World, v: World, step: Step) {
    && w.clock <= v.clock
    && forall s | s in v.tunnels.live ::
         s in w.tunnels.live
         || (step.Attach? && step.claim.subdomain == s && s in w.tunnels.claims && Born(w.tunnels, s, v.clock))
  }

  lemma AttachMovesLive(w: World, step: Step)
    requires step.Attach? && Enabled(w, step)
    ensures LiveMoves(w, Next(w, step), step)
  {
    AttachMoves(w, step);
    hide Next, AttachStep;
  }

  lemma StepMovesLive(w: World, step: Step)
    requires Enabled(w, step)
    ensures LiveMoves(w, Next(w, step), step)
  {
    match step
    case ClaimTunnel(_, _, _, _, _) =>
      if ClaimEffect(w, step).result.Ok? { ClaimRecords(w, step); }
    case RevokeTunnel(_, _, _, _, _) =>
      RevokeMoves(w, step);
      hide Next, Enabled, RevokeStep;
    case Attach(_, _, _, _, _, _, _) =>
      hide Next, Enabled, LiveMoves;
      AttachMovesLive(w, step);
    case Lost(_, _, _) =>
      LostMoves(w, step);
      hide Next, Enabled, LostStep;
    case Crash =>
  }

  lemma LiveIsClaimed(w: World)
    requires TablesSound(w)
    ensures forall s | s in w.tunnels.live :: s in w.tunnels.claims
  {
  }

  lemma StepKeepsBorn(w: World, step: Step)
    requires TablesSound(w) && LiveBorn(w) && Enabled(w, step)
    ensures LiveBorn(Next(w, step))
  {
    hide Next, Enabled;
    LiveIsClaimed(w);
    StepAgesClaims(w, step);
    StepMovesLive(w, step);
    hide TablesSound;
    var v := Next(w, step);
    forall s | s in v.tunnels.live ensures Born(v.tunnels, s, v.clock) {
      if s in w.tunnels.live { assert Born(w.tunnels, s, w.clock); }
    }
  }

  lemma StepKeepsRows(w: World, step: Step)
    requires RowsSound(w) && TablesSound(w) && Enabled(w, step)
    ensures RowsSound(Next(w, step))
    ensures Next(w, step).tunnels.principal == w.tunnels.principal
  {
    BornOf(w);
    hide Next, Enabled, TablesSound, RowsSound, Authored, ClaimsAged, LiveBorn;
    var kinds, s, actor, detail := StepAppends(w, step);
    StepAgesClaims(w, step);
    StepKeepsBorn(w, step);
    AppendedAttributed(w, Next(w, step), step, kinds, s, actor, detail);
    AppendedTimed(w, Next(w, step), step, kinds, s, actor, detail);
    RowsTogether(Next(w, step));
  }

  lemma RowsTogether(w: World)
    requires forall k | 0 <= k < |w.tunnels.audit| :: RowAttributed(w.tunnels.principal, w.tunnels.audit, k)
    requires forall k | 0 <= k < |w.tunnels.audit| :: RowTimed(w, w.tunnels.audit[k])
    requires forall j, k | 0 <= j < k < |w.tunnels.audit| :: InOrder(w.tunnels.audit[j], w.tunnels.audit[k])
    requires LiveBorn(w)
    ensures RowsSound(w)
  {
  }

  lemma InitialRows(principal: string)
    ensures RowsSound(Initial(principal)) && Initial(principal).tunnels.principal == principal
  {
  }

  /** In every run rows say who and what. Their times are in order within each subdomain and
      among all the rows written under the service lock. */
  lemma {:induction false} RowsAreAttributed(principal: string, ws: seq<World>, steps: seq<Step>, i: nat)
    requires TunnelTheorems.Behavior(principal, ws, steps) && i < |ws|
    ensures RowsSound(ws[i]) && ws[i].tunnels.principal == principal
    ensures Sound(ws[i])
    decreases i
  {
    hide Next, Sound, TablesSound, RowsSound, ClaimsSound;
    TunnelTheorems.AlwaysSound(principal, ws, steps, i);
    if i == 0 {
      InitialRows(principal);
    } else {
      RowsAreAttributed(principal, ws, steps, i - 1);
      TunnelTheorems.SoundTables(ws[i - 1]);
      StepKeepsRows(ws[i - 1], steps[i - 1]);
    }
  }

  // ---------------------------------------------------------------------------------------
  // The order of the whole audit
  // ---------------------------------------------------------------------------------------

  predicate Ordered(audit: seq<AuditEntry>) {
    forall j, k | 0 <= j < k < |audit| :: audit[j].at <= audit[k].at
  }

  /** Where a claim's row meets another: the last row committed so far is no later than the
      clock reading the step's rows carry. */
  predicate InTime(w: World, step: Step) {
    var n := |w.tunnels.audit|;
    n > 0 && (step.ClaimTunnel? || w.tunnels.audit[n - 1].kind == Claimed) ==>
      w.tunnels.audit[n - 1].at <= RowTime(step)
  }

  /** Rows of one time keep an audit ordered exactly when it ends no later. */
  lemma OrderedAppend(audit: seq<AuditEntry>, rows: seq<AuditEntry>, at: Instant)
    requires rows != [] && forall k | 0 <= k < |rows| :: rows[k].at == at
    ensures Ordered(audit + rows) <==> Ordered(audit) && (audit == [] || audit[|audit| - 1].at <= at)
  {
    var longer, n := audit + rows, |audit|;
    assert longer[n] == rows[0];
    if Ordered(longer) {
      forall j, k | 0 <= j < k < n ensures audit[j].at <= audit[k].at {
        assert audit[j] == longer[j] && audit[k] == longer[k];
      }
      assert n > 0 ==> longer[n - 1] == audit[n - 1];
    }
  }

  lemma AppendsOrder(w: World, v: World, step: Step, kinds: seq<AuditKind>, s: Subdomain, actor: Actor, detail: Detail)
    requires RowsSound(w) && Appends(w, v, step, kinds, s, actor, detail)
    ensures Ordered(v.tunnels.audit) <==>
      Ordered(w.tunnels.audit) && (v.tunnels.audit == w.tunnels.audit || InTime(w, step))
  {
    var n := |w.tunnels.audit|;
    assert n > 0 ==> RowTimed(w, w.tunnels.audit[n - 1]);
    hide RowsSound, LiveBorn, Ordered, Authored;
    if kinds == [] {
      assert v.tunnels.audit == w.tunnels.audit;
    } else {
      OrderedAppend(w.tunnels.audit, Entries(kinds, s, RowTime(step), actor, detail), RowTime(step));
    }
  }

  /** A step that writes keeps an ordered audit ordered exactly when it is in time. */
  lemma StepOrders(w: World, step: Step)
    requires RowsSound(w) && TablesSound(w) && Enabled(w, step)
    ensures var v := Next(w, step);
      Ordered(v.tunnels.audit) <==>
        Ordered(w.tunnels.audit) && (v.tunnels.audit == w.tunnels.audit || InTime(w, step))
  {
    BornOf(w);
    hide Next, Enabled, TablesSound, Appends, RowsSound, LiveBorn, Ordered, InTime;
    var kinds, s, actor, detail := StepAppends(w, step);
    AppendsOrder(w, Next(w, step), step, kinds, s, actor, detail);
  }

  /** The times of the whole audit never go backwards if and only if no claim did: none was
      committed behind a row later than its own reading, and none was followed by a row that had
      been read before it. */
  lemma {:induction false} OrderedExactly(principal: string, ws: seq<World>, steps: seq<Step>, i: nat)
    requires TunnelTheorems.Behavior(principal, ws, steps) && i < |ws|
    ensures Ordered(ws[i].tunnels.audit) <==>
      forall k | 0 <= k < i :: ws[k + 1].tunnels.audit == ws[k].tunnels.audit || InTime(ws[k], steps[k])
    decreases i
  {
    hide Next, Sound, TablesSound, RowsSound, Ordered, InTime, Enabled;
    if i == 0 {
      InitialOrdered(principal);
    } else {
      OrderedExactly(principal, ws, steps, i - 1);
      RowsAreAttributed(principal, ws, steps, i - 1);
      TunnelTheorems.SoundTables(ws[i - 1]);
      StepOrders(ws[i - 1], steps[i - 1]);
    }
  }

  lemma InitialOrdered(principal: string)
    ensures Ordered(Initial(principal).tunnels.audit)
  {
  }

  function Claimant(subdomain: Subdomain, at: Instant): Claim {
    TunnelPolicy.Claim(subdomain, "token-" + subdomain, 1, false, at, None)
  }

  lemma FirstClaim(principal: string)
    ensures Enabled(Initial(principal), ClaimTunnel("a", "token-a", true, 1, true))
    ensures var w := Next(Initial(principal), ClaimTunnel("a", "token-a", true, 1, true));
      && w.tunnels.claims == map["a" := Claimant("a", 1)] && w.tunnels.live == map[] && w.tunnels.superseded == map[]
      && w.links == map[] && w.clock == 0 && |w.tunnels.audit| == 1
  {
    assert Claimant("a", 1).tokenHash == "token-a";
  }

  lemma FirstAttach(w: World)
    requires w.tunnels.claims == map["a" := Claimant("a", 1)] && w.tunnels.live == map[] && w.tunnels.superseded == map[]
    requires w.links == map[] && w.clock == 0 && |w.tunnels.audit| == 1
    ensures var step := Attach(Claimant("a", 1), 0, true, 4, 5, true, 6);
      && Enabled(w, step)
      && var v := Next(w, step);
      && v.tunnels.claims == w.tunnels.claims && v.tunnels.superseded == map[]
      && AttachEffect(w, step).result.Ok? && v.IsLive("a") && v.tunnels.live["a"].link == 0
      && v.links.Keys == {0} && v.clock == 6 && |v.tunnels.audit| == 2
      && v.tunnels.audit[1] == AuditEntry(5, "a", Connected, Agent("a"), Generation(w.tunnels.generation + 1))
  {
  }

  lemma SecondClaim(w: World)
    requires w.tunnels.claims == map["a" := Claimant("a", 1)]
    ensures var v := Next(w, ClaimTunnel("b", "token-b", true, 3, true));
      v.tunnels.audit == w.tunnels.audit + [AuditEntry(3, "b", Claimed, Management(w.tunnels.principal), Revision(1))]
  {
    assert Claimant("a", 1).tokenHash[6] == 'a';
    assert !TokenTaken(w.tunnels.claims, "token-b");
  }

  /** The failing run: "b" is claimed with a clock read before "a" connected, and commits after. */
  lemma ClaimsCanFallBehind(principal: string) returns (ws: seq<World>, steps: seq<Step>)
    ensures TunnelTheorems.Behavior(principal, ws, steps)
    ensures |steps| == 3 && steps[2] == ClaimTunnel("b", "token-b", true, 3, true)
    ensures var audit := ws[3].tunnels.audit;
      |audit| == 3 && audit[1].at == 5 && audit[2].at == 3 && !Ordered(audit)
  {
    steps := [
      ClaimTunnel("a", "token-a", true, 1, true),
      Attach(Claimant("a", 1), 0, true, 4, 5, true, 6),
      ClaimTunnel("b", "token-b", true, 3, true)];
    FirstClaim(principal);
    var w0 := Initial(principal);
    assert Enabled(w0, steps[0]);
    var w1 := Next(w0, steps[0]);
    FirstAttach(w1);
    var w2 := Next(w1, steps[1]);
    SecondClaim(w2);
    assert Enabled(w2, steps[2]);
    hide Next, Enabled, Initial;
    ws := [w0, w1, w2, Next(w2, steps[2])];
  }
}
