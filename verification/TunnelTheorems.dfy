/** What every run of the tunnel service guarantees. */
module TunnelTheorems {
  import opened Wrappers
  import opened Lifecycle
  import opened TunnelPolicy
  import opened TunnelRuns

  ghost predicate Behavior(principal: string, ws: seq<World>, steps: seq<Step>) {
    && |ws| == |steps| + 1
    && ws[0] == Initial(principal)
    && forall i | 0 <= i < |steps| :: Enabled(ws[i], steps[i]) && ws[i + 1] == Next(ws[i], steps[i])
  }

  lemma {:induction false} AlwaysSound(principal: string, ws: seq<World>, steps: seq<Step>, i: nat)
    requires Behavior(principal, ws, steps) && i < |ws|
    ensures Sound(ws[i])
    decreases i
  {
    if i == 0 {
      InitialSound(principal);
    } else {
      AlwaysSound(principal, ws, steps, i - 1);
      StepKeepsSound(ws[i - 1], steps[i - 1]);
    }
  }

  // ---------------------------------------------------------------------------------------
  // Refusals change nothing and the table never panics
  // ---------------------------------------------------------------------------------------

  /** What the caller of a step is told went wrong, if anything. */
  function ErrorOf(w: World, step: Step): Option<Error>
    requires Enabled(w, step)
  {
    match step
    case ClaimTunnel(_, _, _, _, _) => var r := ClaimEffect(w, step).result; if r.Err? then Some(r.error) else None
    case RevokeTunnel(_, _, _, _, _) => var r := RevokeEffect(w, step).result; if r.Err? then Some(r.error) else None
    case Attach(_, _, _, _, _, _, _) => var r := AttachEffect(w, step).result; if r.Err? then Some(r.error) else None
    case Lost(_, _, _) => var r := LostEffect(w, step).result; if r.Err? then Some(r.error) else None
    case Crash => None
  }

  /** In every run a step that returns an error leaves the claims, the audit, the table, the
      cooldowns, the generation and every link as they were, and the error is never a panic. */
  lemma RefusalsChangeNothing(principal: string, ws: seq<World>, steps: seq<Step>, i: nat)
    requires Behavior(principal, ws, steps) && i < |steps|
    requires ErrorOf(ws[i], steps[i]).Some?
    ensures ws[i + 1].tunnels == ws[i].tunnels && ws[i + 1].links == ws[i].links && ws[i + 1].handles == ws[i].handles
    ensures ErrorOf(ws[i], steps[i]) != Some(Panic)
  {
    hide Next, Sound, TablesSound, ErrorOf;
    AlwaysSound(principal, ws, steps, i);
    SoundTables(ws[i]);
    NeverPanics(ws[i], steps[i]);
    RefusalStep(ws[i], steps[i]);
  }

  lemma ClaimsOf(w: World)
    requires TablesSound(w)
    ensures ClaimsSound(w.tunnels)
  {
  }

  lemma SoundTables(w: World)
    requires Sound(w)
    ensures TablesSound(w) && CooldownsSound(w) && ClaimsSound(w.tunnels)
  {
  }

  lemma RefusalStep(w: World, step: Step)
    requires Enabled(w, step) && ErrorOf(w, step).Some?
    ensures var v := Next(w, step); v.tunnels == w.tunnels && v.links == w.links && v.handles == w.handles
  {
    hide KindsOf, Replay, Written;
    match step
    case ClaimTunnel(_, _, _, _, _) =>
    case RevokeTunnel(_, _, _, _, _) =>
    case Attach(_, _, _, _, _, _, _) =>
    case Lost(_, _, _) =>
    case Crash =>
  }

  /** The status hard-coded into a loss is the true one, and no status is outside the table. */
  lemma NeverPanics(w: World, step: Step)
    requires TablesSound(w) && Enabled(w, step)
    ensures ErrorOf(w, step) != Some(Panic)
    ensures step.Lost? ==>
      var s := w.handles[step.generation].subdomain;
      s in w.tunnels.live && w.tunnels.live[s].generation == step.generation ==>
        s in w.tunnels.claims && Status(w.tunnels.claims[s].State(), w.tunnels.PresenceOf(s)) == Status(Active, Live)
  {
  }

  // ---------------------------------------------------------------------------------------
  // The audit is what happened
  // ---------------------------------------------------------------------------------------

  /** How many times the process died while s was live, in the first i steps. */
  ghost function CrashesWhileLive(ws: seq<World>, steps: seq<Step>, i: nat, s: Subdomain): nat
    requires i <= |steps| < |ws|
  {
    if i == 0 then 0
    else CrashesWhileLive(ws, steps, i - 1, s)
         + (if steps[i - 1].Crash? && ws[i - 1].IsLive(s) then 1 else 0)
  }

  lemma CountRows(marks: seq<Mark>, kinds: seq<AuditKind>)
    ensures Count(marks + Rows(kinds), Torn) == Count(marks, Torn)
  {
    if kinds == [] {
      assert marks + Rows(kinds) == marks;
    } else {
      CountRows(marks, kinds[..|kinds| - 1]);
      assert (marks + Rows(kinds))[..|marks| + |kinds| - 1] == marks + Rows(kinds[..|kinds| - 1]);
    }
  }

  lemma JournalGrows(w: World, step: Step, s: Subdomain)
    requires Enabled(w, step) && !step.Crash?
    ensures Next(w, step).Journal(s) in {w.Journal(s), w.Journal(s) + Rows(Appended(w.tunnels, Next(w, step).tunnels))}
  {
    hide ClaimStep, RevokeStep, AttachStep, LostStep, Leave;
  }

  lemma JournalTorn(w: World, s: Subdomain)
    requires JournalSound(w) && TableSound(w)
    ensures Next(w, Crash).Journal(s) == (if w.IsLive(s) then w.Journal(s) + [Torn] else w.Journal(s))
  {
    assert Replay(w.Journal(s)) == PositionIn(w.tunnels, s);
  }

  lemma StepTears(w: World, step: Step, s: Subdomain)
    requires Sound(w) && Enabled(w, step)
    ensures Count(Next(w, step).Journal(s), Torn)
         == Count(w.Journal(s), Torn) + (if step.Crash? && w.IsLive(s) then 1 else 0)
  {
    SoundParts(w);
    hide Next, Sound, TableSound, JournalSound, Enabled;
    if step.Crash? {
      JournalTorn(w, s);
      assert (w.Journal(s) + [Torn])[..|w.Journal(s)|] == w.Journal(s);
    } else {
      JournalGrows(w, step, s);
      CountRows(w.Journal(s), Appended(w.tunnels, Next(w, step).tunnels));
    }
  }

  lemma SoundParts(w: World)
    requires Sound(w)
    ensures TableSound(w) && JournalSound(w)
  {
  }

  lemma {:induction false} TearsAreCrashes(principal: string, ws: seq<World>, steps: seq<Step>, i: nat, s: Subdomain)
    requires Behavior(principal, ws, steps) && i <= |steps|
    ensures Count(ws[i].Journal(s), Torn) == CrashesWhileLive(ws, steps, i, s)
    decreases i
  {
    hide Next, Sound;
    if i > 0 {
      TearsAreCrashes(principal, ws, steps, i - 1, s);
      AlwaysSound(principal, ws, steps, i - 1);
      StepTears(ws[i - 1], steps[i - 1], s);
    }
  }

  /** Over any run, with any number of crashes: connections, less those superseded and those
      disconnected, are the one served now and those a crash cut off. */
  lemma ConnectionsAreConserved(principal: string, ws: seq<World>, steps: seq<Step>, i: nat, s: Subdomain)
    requires Behavior(principal, ws, steps) && i <= |steps|
    ensures var rows := KindsOf(ws[i].tunnels.audit, s);
      CountKind(rows, Connected) - CountKind(rows, Superseded) - CountKind(rows, Disconnected)
      == (if ws[i].IsLive(s) then 1 else 0) + CrashesWhileLive(ws, steps, i, s)
  {
    AlwaysSound(principal, ws, steps, i);
    var journal := ws[i].Journal(s);
    assert Written(journal) == KindsOf(ws[i].tunnels.audit, s);
    TearsAreCrashes(principal, ws, steps, i, s);
    ReplayBalances(journal);
    CountWritten(journal, Connected);
    CountWritten(journal, Superseded);
    CountWritten(journal, Disconnected);
  }

  /** With crashes allowed, a subdomain's rows are those of a well-formed history whose torn
      tenancies are the crashes that cut it off, and the history ends where the tunnel is. */
  lemma AuditHasHistory(principal: string, ws: seq<World>, steps: seq<Step>, i: nat, s: Subdomain) returns (h: History)
    requires Behavior(principal, ws, steps) && i <= |steps| && s in ws[i].tunnels.claims
    ensures h.WellFormed()
    ensures Written(h.Print()) == KindsOf(ws[i].tunnels.audit, s)
    ensures Count(h.Print(), Torn) == CrashesWhileLive(ws, steps, i, s)
    ensures h.revoked <==> ws[i].tunnels.claims[s].revoked
    ensures h.open.Some? <==> ws[i].IsLive(s)
  {
    AlwaysSound(principal, ws, steps, i);
    TearsAreCrashes(principal, ws, steps, i, s);
    var journal := ws[i].Journal(s);
    assert Replay(journal) == PositionIn(ws[i].tunnels, s) && Written(journal) == KindsOf(ws[i].tunnels.audit, s);
    h := ReplayHasHistory(journal);
  }

  lemma {:induction false} UntornIsWritten(marks: seq<Mark>)
    requires Count(marks, Torn) == 0
    ensures marks == Rows(Written(marks))
  {
    if marks != [] {
      UntornIsWritten(marks[..|marks| - 1]);
      assert marks == marks[..|marks| - 1] + [marks[|marks| - 1]];
    }
  }

  lemma {:induction false} NoCrashNoTear(ws: seq<World>, steps: seq<Step>, i: nat, s: Subdomain)
    requires i <= |steps| < |ws|
    requires forall k | 0 <= k < i :: !steps[k].Crash?
    ensures CrashesWhileLive(ws, steps, i, s) == 0
  {
    if i > 0 { NoCrashNoTear(ws, steps, i - 1, s); }
  }

  /** Without crashes, reading a subdomain's rows gives exactly its claim state and presence,
      and the rows are exactly a history without torn tenancies. */
  lemma AuditIsReality(principal: string, ws: seq<World>, steps: seq<Step>, i: nat, s: Subdomain)
    requires Behavior(principal, ws, steps) && i <= |steps|
    requires forall k | 0 <= k < i :: !steps[k].Crash?
    ensures Replay(Rows(KindsOf(ws[i].tunnels.audit, s))) == PositionIn(ws[i].tunnels, s)
    ensures s in ws[i].tunnels.claims ==>
      exists h: History :: h.WellFormed() && h.Print() == Rows(KindsOf(ws[i].tunnels.audit, s))
        && (h.revoked <==> ws[i].tunnels.claims[s].revoked) && (h.open.Some? <==> ws[i].IsLive(s))
  {
    AlwaysSound(principal, ws, steps, i);
    TearsAreCrashes(principal, ws, steps, i, s);
    NoCrashNoTear(ws, steps, i, s);
    var journal := ws[i].Journal(s);
    assert Written(journal) == KindsOf(ws[i].tunnels.audit, s) && Replay(journal) == PositionIn(ws[i].tunnels, s);
    UntornIsWritten(journal);
    if s in ws[i].tunnels.claims {
      var h := ReplayHasHistory(journal);
    }
  }

  // ---------------------------------------------------------------------------------------
  // Takeovers cannot flap
  // ---------------------------------------------------------------------------------------

  /** Step i took the live link of s over. */
  ghost predicate TakeoverAt(ws: seq<World>, steps: seq<Step>, s: Subdomain, i: nat) {
    && i < |steps| < |ws|
    && steps[i].Attach? && steps[i].claim.subdomain == s
    && ws[i].IsLive(s) && AttachEffect(ws[i], steps[i]).result.Ok?
  }

  ghost predicate LiveThroughout(ws: seq<World>, s: Subdomain, i: nat, j: nat) {
    j < |ws| && forall k | i <= k <= j :: ws[k].IsLive(s)
  }

  /** While s stays live its stamp is kept, and only ever moves forward. */
  lemma StampStays(w: World, v: World, s: Subdomain)
    requires CooldownsSound(w) && TablesMoved(w, v)
    requires w.IsLive(s) && v.IsLive(s) && s in w.tunnels.superseded
    ensures s in v.tunnels.superseded
    ensures w.tunnels.superseded[s] <= v.tunnels.superseded[s]
  {
  }

  lemma {:induction false} StampAfterTakeover(principal: string, ws: seq<World>, steps: seq<Step>, s: Subdomain, i: nat, j: nat)
    requires Behavior(principal, ws, steps)
    requires TakeoverAt(ws, steps, s, i) && i < j && LiveThroughout(ws, s, i, j)
    ensures s in ws[j].tunnels.superseded && steps[i].stampedAt <= ws[j].tunnels.superseded[s]
    decreases j
  {
    hide Next, Sound, TablesSound, AttachStep, TablesMoved;
    if j == i + 1 {
      AttachMoves(ws[i], steps[i]);
    } else {
      StampAfterTakeover(principal, ws, steps, s, i, j - 1);
      AlwaysSound(principal, ws, steps, j - 1);
      SoundTables(ws[j - 1]);
      StepMoves(ws[j - 1], steps[j - 1]);
      assert ws[j - 1].IsLive(s) && ws[j].IsLive(s);
      StampStays(ws[j - 1], ws[j], s);
    }
  }

  /** Two takeovers in one unbroken tenancy are at least the cooldown, one minute, apart. */
  lemma TakeoversAreApart(principal: string, ws: seq<World>, steps: seq<Step>, s: Subdomain, i: nat, j: nat)
    requires Behavior(principal, ws, steps)
    requires TakeoverAt(ws, steps, s, i) && TakeoverAt(ws, steps, s, j) && i < j
    requires LiveThroughout(ws, s, i, j)
    ensures steps[j].stampedAt - steps[i].stampedAt >= SUPERSEDE_COOLDOWN == 60 * 1_000_000_000
  {
    StampAfterTakeover(principal, ws, steps, s, i, j);
    assert Enabled(ws[j], steps[j]);
  }

  /** n takeovers in one unbroken tenancy span at least n - 1 cooldowns. */
  lemma {:induction false} TakeoversAreBounded(principal: string, ws: seq<World>, steps: seq<Step>, s: Subdomain, at: seq<nat>)
    requires Behavior(principal, ws, steps) && |at| > 0
    requires forall k | 0 <= k < |at| :: TakeoverAt(ws, steps, s, at[k])
    requires forall k | 0 < k < |at| :: at[k - 1] < at[k]
    requires LiveThroughout(ws, s, at[0], at[|at| - 1])
    requires at[0] <= at[|at| - 1]
    ensures TakeoverAt(ws, steps, s, at[0]) && TakeoverAt(ws, steps, s, at[|at| - 1])
    ensures (|at| - 1) * SUPERSEDE_COOLDOWN <= steps[at[|at| - 1]].stampedAt - steps[at[0]].stampedAt
    decreases |at|
  {
    hide Next, Behavior, AttachStep;
    var n := |at| - 1;
    assert TakeoverAt(ws, steps, s, at[0]) && TakeoverAt(ws, steps, s, at[n]);
    if n > 0 {
      Increasing(at, n - 1);
      TakeoversAreBounded(principal, ws, steps, s, at[..n]);
      TakeoversAreApart(principal, ws, steps, s, at[n - 1], at[n]);
    }
  }

  lemma {:induction false} Increasing(at: seq<nat>, k: nat)
    requires k < |at| && forall j | 0 < j < |at| :: at[j - 1] < at[j]
    ensures at[0] <= at[k]
  {
    if k > 0 { Increasing(at, k - 1); }
  }

  /** Once s is absent nothing remembers the cooldown: a valid reconnect succeeds at any
      time, and so does the first takeover of the link it attached. */
  lemma ReconnectIsNeverCooledDown(principal: string, ws: seq<World>, steps: seq<Step>, i: nat, first: Step, second: Step)
    requires Behavior(principal, ws, steps) && i < |ws|
    requires first.Attach? && Enabled(ws[i], first) && first.read && first.committed
    requires var s := first.claim.subdomain;
      && s in ws[i].tunnels.claims && !ws[i].tunnels.claims[s].revoked && !ws[i].IsLive(s)
      && first.claim.tokenHash == ws[i].tunnels.claims[s].tokenHash
    requires second.Attach? && second.claim == first.claim && second.read && second.committed
    requires Enabled(Next(ws[i], first), second)
    ensures ErrorOf(ws[i], first).None?
    ensures ErrorOf(Next(ws[i], first), second).None?
  {
    AlwaysSound(principal, ws, steps, i);
  }

  /** What authentication grants, an attach right after it delivers. */
  lemma AuthenticatedAttachSucceeds(w: World, tokenHash: string, now: Instant, step: Step)
    requires TablesSound(w) && step.Attach? && Enabled(w, step)
    requires Authenticates(w.tunnels, tokenHash, now, step.claim) && now <= step.checkedAt
    requires step.read && step.committed
    ensures ErrorOf(w, step).None?
    ensures Next(w, step).tunnels.live[step.claim.subdomain] == Attachment(step.link, w.tunnels.generation + 1)
  {
  }

  // ---------------------------------------------------------------------------------------
  // Links
  // ---------------------------------------------------------------------------------------

  lemma StepKeepsFates(w: World, v: World, l: LinkId)
    requires TableSound(w) && TablesMoved(w, v) && l in w.links
    ensures l in v.links
    ensures w.links[l].fate != InTable ==> v.links[l] == w.links[l]
  {
  }

  /** A link's fate is sealed once: whatever took it out of the table, nothing touches it again. */
  lemma {:induction false} FateIsSealed(principal: string, ws: seq<World>, steps: seq<Step>, i: nat, j: nat, l: LinkId)
    requires Behavior(principal, ws, steps) && i <= j < |ws|
    requires l in ws[i].links
    ensures l in ws[j].links
    ensures ws[i].links[l].fate != InTable ==> ws[j].links[l] == ws[i].links[l]
    decreases j
  {
    hide Next, Sound, TablesSound, TablesMoved, TableSound;
    if i < j {
      FateIsSealed(principal, ws, steps, i, j - 1, l);
      AlwaysSound(principal, ws, steps, j - 1);
      SoundTables(ws[j - 1]);
      SoundParts(ws[j - 1]);
      StepMoves(ws[j - 1], steps[j - 1]);
      StepKeepsFates(ws[j - 1], ws[j], l);
    }
  }

  /** Every link ever attached is either the one its subdomain is served by, never closed by
      policy, or has left the table for exactly one reason and was closed exactly for it. */
  lemma LinksLeaveOnce(principal: string, ws: seq<World>, steps: seq<Step>, i: nat, l: LinkId)
    requires Behavior(principal, ws, steps) && i < |ws| && l in ws[i].links
    ensures var r := ws[i].links[l];
      && (r.fate == InTable <==> r.subdomain in ws[i].tunnels.live && ws[i].tunnels.live[r.subdomain].link == l)
      && r.closes == (match r.fate
                      case BySupersession => [SupersededClose]
                      case ByRevocation => [RevokedClose]
                      case _ => [])
  {
    AlwaysSound(principal, ws, steps, i);
  }
}
