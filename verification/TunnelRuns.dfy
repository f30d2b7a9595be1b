/** Whole runs of the tunnel service: any number of claims, revokes, attaches, losses and process
    crashes, with any store call failing. A `World` is the service's state together with a
    record of what has happened that the service itself does not keep. */
module TunnelRuns {
  import opened Wrappers
  import opened Lifecycle
  import opened TunnelPolicy
  import Host

  /** How a link left the routing table, if it did. */
  datatype Fate = InTable | BySupersession | ByRevocation | ByLoss | ByCrash

  datatype LinkRecord = LinkRecord(subdomain: Subdomain, credential: string, closes: seq<CloseReason>, fate: Fate)

  /** The connection handed out under a generation of the running process. */
  datatype Handle = Handle(subdomain: Subdomain, link: LinkId)

  /** `clock` is the last reading taken under the service lock. */
  datatype World = World(
    tunnels: Tunnels,
    clock: Instant,
    handles: map<nat, Handle>,
    links: map<LinkId, LinkRecord>,
    journal: map<Subdomain, seq<Mark>>)
  {
    function Journal(s: Subdomain): seq<Mark> {
      if s in journal then journal[s] else []
    }

    predicate IsLive(s: Subdomain) { s in tunnels.live }
  }

  datatype Step =
    | ClaimTunnel(subdomain: Subdomain, tokenHash: string, drawn: bool, at: Instant, committed: bool)
    | RevokeTunnel(subdomain: Subdomain, expected: int, read: bool, at: Instant, committed: bool)
    | Attach(claim: Claim, link: LinkId, read: bool, checkedAt: Instant, recordedAt: Instant, committed: bool, stampedAt: Instant)
    | Lost(generation: nat, at: Instant, committed: bool)
    | Crash

  /** An operation that finds a claim reads the clock after the claim did. */
  predicate Born(t: Tunnels, s: Subdomain, at: Instant) {
    s in t.claims ==> t.claims[s].createdAt <= at
  }

  /** The clock never runs backwards under the service lock, a link is attached at most once, and
      a loss is reported on a connection this process handed out. A claim is made outside the
      lock: it may have read its clock at any time before it commits, so other operations may
      read and commit in between. */
  predicate Enabled(w: World, step: Step) {
    match step
    case ClaimTunnel(_, _, _, _, _) => true
    case RevokeTunnel(s, _, _, at, _) => w.clock <= at && Born(w.tunnels, s, at)
    case Attach(claim, link, _, checkedAt, recordedAt, _, stampedAt) =>
      && link !in w.links
      && w.clock <= checkedAt <= recordedAt <= stampedAt && Born(w.tunnels, claim.subdomain, checkedAt)
    case Lost(generation, at, _) => generation in w.handles && w.clock <= at
    case Crash => true
  }

  function AttachEffect(w: World, step: Step): Effect<nat>
    requires step.Attach?
  {
    AttachStep(w.tunnels, step.claim, step.link, step.read, step.checkedAt, step.recordedAt, step.committed, step.stampedAt)
  }

  function LostEffect(w: World, step: Step): Effect<()>
    requires step.Lost? && step.generation in w.handles
  {
    LostStep(w.tunnels, w.handles[step.generation].subdomain, step.generation, step.at, step.committed)
  }

  function ClaimEffect(w: World, step: Step): Effect<Claim>
    requires step.ClaimTunnel?
  {
    ClaimStep(w.tunnels, step.subdomain, step.tokenHash, step.drawn, step.at, step.committed)
  }

  function RevokeEffect(w: World, step: Step): Effect<Claim>
    requires step.RevokeTunnel?
  {
    RevokeStep(w.tunnels, step.subdomain, step.expected, step.read, step.at, step.committed)
  }

  /** The kinds of the rows a step appended. */
  function Appended(before: Tunnels, after: Tunnels): seq<AuditKind> {
    if |before.audit| <= |after.audit| then
      seq(|after.audit| - |before.audit|, i requires 0 <= i < |after.audit| - |before.audit| => after.audit[|before.audit| + i].kind)
    else []
  }

  /** The service moved to `next` because of something about `s` at time `at`. */
  function Observe(w: World, s: Subdomain, at: Instant, next: Tunnels): World {
    w.(tunnels := next, clock := at, journal := w.journal[s := w.Journal(s) + Rows(Appended(w.tunnels, next))])
  }

  /** The record of a link that left the table. */
  function Leave(w: World, s: Subdomain, reasons: seq<CloseReason>, fate: Fate): map<LinkId, LinkRecord> {
    if s in w.tunnels.live && w.tunnels.live[s].link in w.links then
      var link := w.tunnels.live[s].link;
      w.links[link := w.links[link].(closes := w.links[link].closes + reasons, fate := fate)]
    else w.links
  }

  function Reasons(closed: seq<Close>): seq<CloseReason> {
    seq(|closed|, i requires 0 <= i < |closed| => closed[i].reason)
  }

  function Next(w: World, step: Step): World
    requires Enabled(w, step)
  {
    match step
    case ClaimTunnel(s, _, _, _, _) =>
      Observe(w, s, w.clock, ClaimEffect(w, step).next)
    case RevokeTunnel(s, _, _, at, _) =>
      var e := RevokeEffect(w, step);
      var after := Observe(w, s, at, e.next);
      if e.result.Ok? then after.(links := Leave(w, s, Reasons(e.closed), ByRevocation)) else after
    case Attach(claim, link, _, _, _, _, stampedAt) =>
      var e := AttachEffect(w, step);
      var s := claim.subdomain;
      var after := Observe(w, s, stampedAt, e.next);
      if e.result.Ok? then
        after.(
          handles := w.handles[e.result.value := Handle(s, link)],
          links := Leave(w, s, Reasons(e.closed), BySupersession)[link := LinkRecord(s, claim.tokenHash, [], InTable)])
      else after
    case Lost(generation, at, _) =>
      var e := LostEffect(w, step);
      var s := w.handles[generation].subdomain;
      var after := Observe(w, s, at, e.next);
      if s in w.tunnels.live && s !in e.next.live then
        after.(links := Leave(w, s, Reasons(e.closed), ByLoss))
      else after
    case Crash =>
      w.(
        tunnels := w.tunnels.(live := map[], superseded := map[], generation := 0),
        handles := map[],
        links := map l | l in w.links :: if w.links[l].fate == InTable then w.links[l].(fate := ByCrash) else w.links[l],
        journal := map s | s in w.journal :: if s in w.tunnels.live then w.journal[s] + [Torn] else w.journal[s])
  }

  function Initial(principal: string): World {
    World(Tunnels(principal, map[], [], map[], map[], 0), 0, map[], map[], map[])
  }

  // ---------------------------------------------------------------------------------------
  // What holds at every release of the service lock
  // ---------------------------------------------------------------------------------------

  ghost predicate ClaimsSound(t: Tunnels) {
    && (forall s | s in t.claims ::
          t.claims[s].subdomain == s && Host.ValidSubdomain(s)
          && t.claims[s].revision == (if t.claims[s].revoked then 2 else 1))
    && (forall s, r | s in t.claims && r in t.claims ::
          t.claims[s].tokenHash == t.claims[r].tokenHash ==> s == r)
  }

  /** No revoked claim is live, and every live attachment is a link this process attached under
      its claim's own credential and has never been closed by policy. */
  ghost predicate TableSound(w: World) {
    && (forall s | s in w.tunnels.live ::
          && s in w.tunnels.claims && !w.tunnels.claims[s].revoked
          && var a := w.tunnels.live[s];
          && a.generation in w.handles && w.handles[a.generation] == Handle(s, a.link)
          && a.link in w.links
          && w.links[a.link] == LinkRecord(s, w.tunnels.claims[s].tokenHash, [], InTable))
    && (forall g | g in w.handles :: 1 <= g <= w.tunnels.generation && w.handles[g].link in w.links)
  }

  /** Every link ever attached is in the table, or left it once, for one reason, and was closed
      by policy once for that reason or not at all. */
  ghost predicate LinksSound(w: World) {
    forall l | l in w.links ::
      var r := w.links[l];
      match r.fate
      case InTable => r.closes == [] && r.subdomain in w.tunnels.live && w.tunnels.live[r.subdomain].link == l
      case BySupersession => r.closes == [SupersededClose]
      case ByRevocation => r.closes == [RevokedClose]
      case ByLoss => r.closes == []
      case ByCrash => r.closes == []
  }

  ghost predicate CooldownsSound(w: World) {
    forall s | s in w.tunnels.superseded :: s in w.tunnels.live && w.tunnels.superseded[s] <= w.clock
  }

  function PositionIn(t: Tunnels, s: Subdomain): Position {
    if s in t.claims then PositionOf(Status(t.claims[s].State(), t.PresenceOf(s))) else Unclaimed
  }

  /** What was written is what the audit holds, and what happened reads back to what is. */
  ghost predicate JournalSound(w: World) {
    forall s: Subdomain ::
      && Written(w.Journal(s)) == KindsOf(w.tunnels.audit, s)
      && Replay(w.Journal(s)) == PositionIn(w.tunnels, s)
  }

  ghost predicate TablesSound(w: World) {
    ClaimsSound(w.tunnels) && TableSound(w) && LinksSound(w) && CooldownsSound(w)
  }

  ghost predicate Sound(w: World) {
    TablesSound(w) && JournalSound(w)
  }

  lemma InitialSound(principal: string)
    ensures Sound(Initial(principal))
  {
  }

  // ---------------------------------------------------------------------------------------
  // Every step keeps it
  // ---------------------------------------------------------------------------------------

  lemma ObserveKeepsJournal(w: World, s: Subdomain, at: Instant, next: Tunnels, kinds: seq<AuditKind>, rowAt: Instant, actor: Actor, detail: Detail)
    requires JournalSound(w)
    requires next.audit == w.tunnels.audit + Entries(kinds, s, rowAt, actor, detail)
    requires Replay(w.Journal(s) + Rows(kinds)) == PositionIn(next, s)
    requires forall r: Subdomain :: r != s ==> PositionIn(next, r) == PositionIn(w.tunnels, r)
    ensures JournalSound(Observe(w, s, at, next))
  {
    var after := Observe(w, s, at, next);
    assert Appended(w.tunnels, next) == kinds;
    forall r: Subdomain
      ensures Written(after.Journal(r)) == KindsOf(next.audit, r) && Replay(after.Journal(r)) == PositionIn(next, r)
    {
      KindsOfEntries(w.tunnels.audit, kinds, s, rowAt, actor, detail, r);
      WrittenConcat(w.Journal(s), kinds);
      assert Written(w.Journal(r)) == KindsOf(w.tunnels.audit, r) && Replay(w.Journal(r)) == PositionIn(w.tunnels, r);
    }
  }

  lemma RefusalKeepsJournal(w: World, s: Subdomain, at: Instant)
    requires JournalSound(w)
    ensures JournalSound(Observe(w, s, at, w.tunnels))
  {
    assert w.tunnels.audit + Entries([], s, at, Agent(s), Revision(0)) == w.tunnels.audit;
    assert w.Journal(s) + Rows([]) == w.Journal(s);
    assert Replay(w.Journal(s)) == PositionIn(w.tunnels, s);
    ObserveKeepsJournal(w, s, at, w.tunnels, [], at, Agent(s), Revision(0));
  }

  /** A lifecycle event accepted by the table keeps the journal true. */
  lemma EventKeepsJournal(w: World, s: Subdomain, event: Event, at: Instant, next: Tunnels, rowAt: Instant, actor: Actor, detail: Detail)
    requires JournalSound(w)
    requires s in w.tunnels.claims && s in next.claims
    requires var status := Status(w.tunnels.claims[s].State(), w.tunnels.PresenceOf(s));
             && Transition(status, event).Moved?
             && Transition(status, event).status == Status(next.claims[s].State(), next.PresenceOf(s))
             && next.audit == w.tunnels.audit + Entries(Transition(status, event).audit, s, rowAt, actor, detail)
    requires forall r: Subdomain :: r != s ==> PositionIn(next, r) == PositionIn(w.tunnels, r)
    ensures JournalSound(Observe(w, s, at, next))
  {
    var status := Status(w.tunnels.claims[s].State(), w.tunnels.PresenceOf(s));
    assert Replay(w.Journal(s)) == PositionIn(w.tunnels, s);
    TableIsReadBack(w.Journal(s), status, event);
    ObserveKeepsJournal(w, s, at, next, Transition(status, event).audit, rowAt, actor, detail);
  }

  /** Nothing but the clock, the audit and the journal moved. */
  ghost predicate SameTables(w: World, v: World) {
    && v.tunnels == w.tunnels.(audit := v.tunnels.audit)
    && v.handles == w.handles && v.links == w.links && w.clock <= v.clock
  }

  /** The live link of s left the table. */
  ghost predicate Detached(w: World, v: World, s: Subdomain, reasons: seq<CloseReason>, fate: Fate) {
    && s in w.tunnels.live
    && v.tunnels == w.tunnels.(
         audit := v.tunnels.audit, claims := v.tunnels.claims,
         live := w.tunnels.live - {s}, superseded := w.tunnels.superseded - {s})
    && v.handles == w.handles && v.links == Leave(w, s, reasons, fate) && w.clock <= v.clock
  }

  /** The claim of s was revoked, or nothing happened to the claims. */
  ghost predicate ClaimsMoved(t: Tunnels, u: Tunnels, s: Subdomain) {
    || u.claims == t.claims
    || (s in t.claims && !t.claims[s].revoked && u.claims.Keys == t.claims.Keys
        && u.claims[s] == t.claims[s].(revoked := true, revision := t.claims[s].revision + 1, revokedAt := u.claims[s].revokedAt)
        && forall r | r in t.claims && r != s :: u.claims[r] == t.claims[r])
  }

  /** A fresh link was attached to s, over the earlier one if there was one. */
  ghost predicate Installed(w: World, v: World, s: Subdomain, link: LinkId) {
    var generation := w.tunnels.generation + 1;
    && s in w.tunnels.claims && !w.tunnels.claims[s].revoked && link !in w.links
    && v.tunnels == w.tunnels.(
         audit := v.tunnels.audit, generation := generation,
         live := w.tunnels.live[s := Attachment(link, generation)],
         superseded := v.tunnels.superseded)
    && v.tunnels.superseded == (if s in w.tunnels.live then w.tunnels.superseded[s := v.clock] else w.tunnels.superseded)
    && v.handles == w.handles[generation := Handle(s, link)]
    && v.links == Leave(w, s, [SupersededClose], BySupersession)[link := LinkRecord(s, w.tunnels.claims[s].tokenHash, [], InTable)]
    && w.clock <= v.clock
  }

  lemma SameTablesSound(w: World, v: World)
    requires TablesSound(w) && SameTables(w, v)
    ensures TablesSound(v)
  {
  }

  lemma RevokedSound(w: World, v: World, s: Subdomain)
    requires TablesSound(w) && ClaimsMoved(w.tunnels, v.tunnels, s) && s !in w.tunnels.live
    requires v.tunnels == w.tunnels.(audit := v.tunnels.audit, claims := v.tunnels.claims)
    requires v.handles == w.handles && v.links == w.links && w.clock <= v.clock
    ensures TablesSound(v)
  {
    MovedClaims(w.tunnels, v.tunnels, s);
    hide ClaimsSound;
  }

  lemma DetachedTable(w: World, v: World, s: Subdomain, reasons: seq<CloseReason>, fate: Fate)
    requires TableSound(w) && Detached(w, v, s, reasons, fate) && ClaimsMoved(w.tunnels, v.tunnels, s)
    ensures TableSound(v)
  {
    var link := w.tunnels.live[s].link;
    forall r | r in v.tunnels.live
      ensures w.tunnels.live[r].link != link && v.tunnels.claims[r] == w.tunnels.claims[r]
    {
      assert w.links[w.tunnels.live[r].link].subdomain == r;
    }
  }

  lemma DetachedLinks(w: World, v: World, s: Subdomain, reasons: seq<CloseReason>, fate: Fate)
    requires TableSound(w) && LinksSound(w) && Detached(w, v, s, reasons, fate)
    requires (fate == ByLoss && reasons == []) || (fate == ByRevocation && reasons == [RevokedClose])
    ensures LinksSound(v)
  {
    var link := w.tunnels.live[s].link;
    assert w.links[link].subdomain == s && w.links[link].closes == [];
    assert [] + reasons == reasons;
  }

  lemma MovedClaims(t: Tunnels, u: Tunnels, s: Subdomain)
    requires ClaimsSound(t) && ClaimsMoved(t, u, s)
    ensures ClaimsSound(u)
  {
  }

  lemma DetachedSound(w: World, v: World, s: Subdomain, reasons: seq<CloseReason>, fate: Fate)
    requires TablesSound(w) && Detached(w, v, s, reasons, fate) && ClaimsMoved(w.tunnels, v.tunnels, s)
    requires (fate == ByLoss && reasons == []) || (fate == ByRevocation && reasons == [RevokedClose])
    ensures TablesSound(v)
  {
    DetachedTable(w, v, s, reasons, fate);
    DetachedLinks(w, v, s, reasons, fate);
    MovedClaims(w.tunnels, v.tunnels, s);
    hide TableSound, LinksSound, ClaimsSound, ClaimsMoved;
  }

  lemma InstalledTable(w: World, v: World, s: Subdomain, link: LinkId)
    requires TableSound(w) && Installed(w, v, s, link)
    ensures TableSound(v)
  {
    forall r | r in w.tunnels.live && r != s
      ensures v.tunnels.live[r] == w.tunnels.live[r] && v.links[w.tunnels.live[r].link] == w.links[w.tunnels.live[r].link]
    {
      assert w.links[w.tunnels.live[r].link].subdomain == r;
    }
  }

  lemma InstalledLinks(w: World, v: World, s: Subdomain, link: LinkId)
    requires TableSound(w) && LinksSound(w) && Installed(w, v, s, link)
    ensures LinksSound(v)
  {
  }

  lemma InstalledSound(w: World, v: World, s: Subdomain, link: LinkId)
    requires TablesSound(w) && Installed(w, v, s, link)
    ensures TablesSound(v)
  {
    InstalledTable(w, v, s, link);
    InstalledLinks(w, v, s, link);
  }

  lemma ClaimedSound(w: World, v: World, s: Subdomain)
    requires TablesSound(w) && s in v.tunnels.claims && s !in w.tunnels.claims
    requires v.tunnels == w.tunnels.(audit := v.tunnels.audit, claims := w.tunnels.claims[s := v.tunnels.claims[s]])
    requires v.handles == w.handles && v.links == w.links && w.clock <= v.clock
    requires v.tunnels.claims[s].subdomain == s && Host.ValidSubdomain(s)
    requires v.tunnels.claims[s].revision == 1 && !v.tunnels.claims[s].revoked
    requires !TokenTaken(w.tunnels.claims, v.tunnels.claims[s].tokenHash)
    ensures TablesSound(v)
  {
  }

  lemma ClaimKeepsTables(w: World, step: Step)
    requires TablesSound(w) && step.ClaimTunnel? && Enabled(w, step)
    ensures TablesSound(Next(w, step))
  {
    var v := Next(w, step);
    if ClaimEffect(w, step).result.Ok? {
      ClaimedSound(w, v, step.subdomain);
    } else {
      SameTablesSound(w, v);
    }
  }

  /** What a revoke does to the tables: nothing, or the claim alone, or the claim and its link. */
  lemma RevokeMoves(w: World, step: Step)
    requires step.RevokeTunnel? && Enabled(w, step)
    ensures var v := Next(w, step);
      if RevokeEffect(w, step).result.Err? then SameTables(w, v)
      else
        && ClaimsMoved(w.tunnels, v.tunnels, step.subdomain)
        && if step.subdomain in w.tunnels.live then
             Detached(w, v, step.subdomain, [RevokedClose], ByRevocation)
           else
             && v.tunnels == w.tunnels.(audit := v.tunnels.audit, claims := v.tunnels.claims)
             && v.handles == w.handles && v.links == w.links && w.clock <= v.clock
  {
    var e := RevokeEffect(w, step);
    if e.result.Ok? && step.subdomain in w.tunnels.live {
      assert Reasons(e.closed) == [RevokedClose];
    }
  }

  lemma RevokeKeepsTables(w: World, step: Step)
    requires TablesSound(w) && step.RevokeTunnel? && Enabled(w, step)
    ensures TablesSound(Next(w, step))
  {
    RevokeMoves(w, step);
    var v, s := Next(w, step), step.subdomain;
    if RevokeEffect(w, step).result.Err? {
      SameTablesSound(w, v);
    } else if s in w.tunnels.live {
      DetachedSound(w, v, s, [RevokedClose], ByRevocation);
    } else {
      RevokedSound(w, v, s);
    }
  }

  lemma AttachMoves(w: World, step: Step)
    requires step.Attach? && Enabled(w, step)
    ensures var v := Next(w, step);
      if AttachEffect(w, step).result.Err? then SameTables(w, v)
      else Installed(w, v, step.claim.subdomain, step.link) && v.clock == step.stampedAt
  {
    var e := AttachEffect(w, step);
    if e.result.Ok? {
      if step.claim.subdomain in w.tunnels.live {
        assert Reasons(e.closed) == [SupersededClose];
      }
    }
  }

  lemma AttachKeepsTables(w: World, step: Step)
    requires TablesSound(w) && step.Attach? && Enabled(w, step)
    ensures TablesSound(Next(w, step))
  {
    AttachMoves(w, step);
    if AttachEffect(w, step).result.Err? {
      SameTablesSound(w, Next(w, step));
    } else {
      InstalledSound(w, Next(w, step), step.claim.subdomain, step.link);
    }
  }

  /** A loss whose generation no longer serves changes nothing; one that does detaches it. */
  lemma LostMoves(w: World, step: Step)
    requires step.Lost? && Enabled(w, step)
    ensures var v := Next(w, step);
      var s := w.handles[step.generation].subdomain;
      if s in w.tunnels.live && w.tunnels.live[s].generation == step.generation && step.committed then
        Detached(w, v, s, [], ByLoss) && v.tunnels.claims == w.tunnels.claims
      else SameTables(w, v) && v.tunnels == w.tunnels
  {
    assert Reasons(LostEffect(w, step).closed) == [];
  }

  lemma LostKeepsTables(w: World, step: Step)
    requires TablesSound(w) && step.Lost? && Enabled(w, step)
    ensures TablesSound(Next(w, step))
  {
    LostMoves(w, step);
    var v, s := Next(w, step), w.handles[step.generation].subdomain;
    if SameTables(w, v) {
      SameTablesSound(w, v);
    } else {
      DetachedSound(w, v, s, [], ByLoss);
    }
  }

  lemma CrashKeepsTables(w: World)
    requires TablesSound(w)
    ensures TablesSound(Next(w, Crash))
  {
  }

  /** What a successful claim does to the service. */
  lemma ClaimRecords(w: World, step: Step)
    requires step.ClaimTunnel? && Enabled(w, step) && ClaimEffect(w, step).result.Ok?
    ensures var next := ClaimEffect(w, step).next;
      && step.subdomain !in w.tunnels.claims
      && next.claims == w.tunnels.claims[step.subdomain := TunnelPolicy.Claim(step.subdomain, step.tokenHash, 1, false, step.at, None)]
      && next.live == w.tunnels.live
      && next.audit == w.tunnels.audit + Entries([Claimed], step.subdomain, step.at, Management(w.tunnels.principal), Revision(1))
      && Next(w, step) == Observe(w, step.subdomain, w.clock, next)
  {
  }

  lemma UnclaimedReads(w: World, s: Subdomain)
    requires JournalSound(w) && TableSound(w) && s !in w.tunnels.claims
    ensures Replay(w.Journal(s) + Rows([Claimed])) == Idle && s !in w.tunnels.live
  {
    hide Replay, Written, KindsOf, Rows;
    assert Replay(w.Journal(s)) == PositionIn(w.tunnels, s);
    ClaimedIsIdle(w.Journal(s));
  }

  lemma ClaimKeepsJournal(w: World, step: Step)
    requires JournalSound(w) && TableSound(w) && step.ClaimTunnel? && Enabled(w, step)
    ensures JournalSound(Next(w, step))
  {
    var s, t, next := step.subdomain, w.tunnels, ClaimEffect(w, step).next;
    if ClaimEffect(w, step).result.Err? {
      RefusalKeepsJournal(w, s, w.clock);
    } else {
      ClaimRecords(w, step);
      UnclaimedReads(w, s);
      hide JournalSound, TableSound, Replay, ClaimEffect, Entries, Next, Observe, Enabled, Rows;
      ObserveKeepsJournal(w, s, w.clock, next, [Claimed], step.at, Management(t.principal), Revision(1));
    }
  }

  /** What a successful revocation asks of the table and records. */
  lemma RevokeRecords(w: World, step: Step)
    requires step.RevokeTunnel? && Enabled(w, step) && RevokeEffect(w, step).result.Ok?
    ensures var s, t, next := step.subdomain, w.tunnels, RevokeEffect(w, step).next;
      && s in t.claims && s in next.claims
      && var outcome := Transition(Status(t.claims[s].State(), t.PresenceOf(s)), Revoke);
      && outcome.Moved? && outcome.status == Status(next.claims[s].State(), next.PresenceOf(s))
      && next.audit == t.audit + Entries(outcome.audit, s, step.at, Management(t.principal), Revision(t.claims[s].revision + 1))
      && forall r: Subdomain :: r != s ==> PositionIn(next, r) == PositionIn(t, r)
  {
  }

  lemma RevokeKeepsJournal(w: World, step: Step)
    requires JournalSound(w) && step.RevokeTunnel? && Enabled(w, step)
    ensures JournalSound(Next(w, step))
  {
    var s, t, e := step.subdomain, w.tunnels, RevokeEffect(w, step);
    if e.result.Err? {
      RefusalKeepsJournal(w, s, step.at);
    } else {
      RevokeRecords(w, step);
      hide RevokeEffect, Transition, PositionIn, Entries, JournalSound;
      EventKeepsJournal(w, s, Revoke, step.at, e.next, step.at, Management(t.principal), Revision(t.claims[s].revision + 1));
      SameJournal(Observe(w, s, step.at, e.next), Next(w, step));
    }
  }

  lemma AttachKeepsJournal(w: World, step: Step)
    requires JournalSound(w) && step.Attach? && Enabled(w, step)
    ensures JournalSound(Next(w, step))
  {
    var s, e := step.claim.subdomain, AttachEffect(w, step);
    if e.result.Err? {
      RefusalKeepsJournal(w, s, step.stampedAt);
    } else {
      EventKeepsJournal(w, s, Connect, step.stampedAt, e.next, step.recordedAt, Agent(s), Generation(w.tunnels.generation + 1));
      SameJournal(Observe(w, s, step.stampedAt, e.next), Next(w, step));
    }
  }

  lemma LostKeepsJournal(w: World, step: Step)
    requires JournalSound(w) && TableSound(w) && step.Lost? && Enabled(w, step)
    ensures JournalSound(Next(w, step))
  {
    var s, e := w.handles[step.generation].subdomain, LostEffect(w, step);
    if e.next == w.tunnels {
      RefusalKeepsJournal(w, s, step.at);
    } else {
      EventKeepsJournal(w, s, LinkLost, step.at, e.next, step.at, Agent(s), Generation(step.generation));
      SameJournal(Observe(w, s, step.at, e.next), Next(w, step));
    }
  }

  lemma SameJournal(v: World, w: World)
    requires JournalSound(v) && v.journal == w.journal && v.tunnels == w.tunnels
    ensures JournalSound(w)
  {
    forall s: Subdomain
      ensures Written(w.Journal(s)) == KindsOf(w.tunnels.audit, s) && Replay(w.Journal(s)) == PositionIn(w.tunnels, s)
    {
      assert v.Journal(s) == w.Journal(s);
    }
  }

  lemma CrashKeepsJournal(w: World)
    requires JournalSound(w) && TableSound(w)
    ensures JournalSound(Next(w, Crash))
  {
    var after := Next(w, Crash);
    forall s: Subdomain
      ensures Written(after.Journal(s)) == KindsOf(after.tunnels.audit, s)
           && Replay(after.Journal(s)) == PositionIn(after.tunnels, s)
    {
      assert Written(w.Journal(s)) == KindsOf(w.tunnels.audit, s) && Replay(w.Journal(s)) == PositionIn(w.tunnels, s);
      if s in w.tunnels.live {
        ReplayTwo(w.Journal(s), Torn, Torn);
        assert (w.Journal(s) + [Torn])[..|w.Journal(s)|] == w.Journal(s);
      }
    }
  }

  lemma StepKeepsSound(w: World, step: Step)
    requires Sound(w) && Enabled(w, step)
    ensures Sound(Next(w, step))
  {
    match step
    case ClaimTunnel(_, _, _, _, _) => ClaimKeepsTables(w, step); ClaimKeepsJournal(w, step);
    case RevokeTunnel(_, _, _, _, _) => RevokeKeepsTables(w, step); RevokeKeepsJournal(w, step);
    case Attach(_, _, _, _, _, _, _) => AttachKeepsTables(w, step); AttachKeepsJournal(w, step);
    case Lost(_, _, _) => LostKeepsTables(w, step); LostKeepsJournal(w, step);
    case Crash => CrashKeepsTables(w); CrashKeepsJournal(w);
  }

  /** Every step leaves the tables alone, or claims, revokes, detaches or attaches one
      subdomain, or empties the volatile half. */
  ghost predicate TablesMoved(w: World, v: World) {
    || SameTables(w, v)
    || (v.handles == w.handles && v.links == w.links && w.clock <= v.clock
        && v.tunnels == w.tunnels.(audit := v.tunnels.audit, claims := v.tunnels.claims))
    || (exists s, reasons, fate :: Detached(w, v, s, reasons, fate) && fate != InTable)
    || (exists s, link :: Installed(w, v, s, link))
    || (v.tunnels.live == map[] && v.links.Keys == w.links.Keys
        && forall l | l in w.links && w.links[l].fate != InTable :: v.links[l] == w.links[l])
  }

  lemma StepMoves(w: World, step: Step)
    requires TablesSound(w) && Enabled(w, step)
    ensures TablesMoved(w, Next(w, step))
  {
    match step
    case ClaimTunnel(_, _, _, _, _) =>
    case RevokeTunnel(_, _, _, _, _) => RevokeMoves(w, step);
    case Attach(_, _, _, _, _, _, _) => AttachMoves(w, step);
    case Lost(_, _, _) => LostMoves(w, step);
    case Crash =>
  }
}
