/** The tunnel service as pure steps over its state: the durable claims and audit, the volatile
    routing table and cooldowns, and the generation counter. Every step takes the outcome of
    each store call and every reading of the clock as an argument. */
module TunnelPolicy {
  import opened Wrappers
  import opened Lifecycle
  import Host

  type Subdomain = string

  type LinkId = nat

  /** Nanoseconds. */
  type Instant = int

  const SUPERSEDE_COOLDOWN: int := 60_000_000_000

  datatype Claim = Claim(
    subdomain: Subdomain,
    tokenHash: string,
    revision: int,
    revoked: bool,
    createdAt: Instant,
    revokedAt: Option<Instant>)
  {
    function State(): ClaimState {
      if revoked then Revoked else Active
    }
  }

  datatype Actor = Management(name: string) | Agent(subdomain: Subdomain)

  datatype Detail = Revision(revision: int) | Generation(generation: nat)

  /** One audit row; the store numbers rows in the order they are appended. */
  datatype AuditEntry = AuditEntry(
    at: Instant,
    subdomain: Subdomain,
    kind: AuditKind,
    actor: Actor,
    detail: Detail)

  datatype Attachment = Attachment(link: LinkId, generation: nat)

  datatype CloseReason = SupersededClose | RevokedClose | ShutdownClose

  datatype Close = Close(link: LinkId, reason: CloseReason)

  datatype Tunnels = Tunnels(
    principal: string,
    claims: map<Subdomain, Claim>,
    audit: seq<AuditEntry>,
    live: map<Subdomain, Attachment>,
    superseded: map<Subdomain, Instant>,
    generation: nat)
  {
    function PresenceOf(subdomain: Subdomain): Presence {
      if subdomain in live then Live else Absent
    }

    /** Whether a connect is allowed to take a live link over at this instant. */
    predicate TakeoverAllowed(subdomain: Subdomain, now: Instant) {
      subdomain in live && subdomain in superseded ==> now - superseded[subdomain] >= SUPERSEDE_COOLDOWN
    }
  }

  /** The state after a step, what the caller is told, and the links policy closed. */
  datatype Effect<T> = Effect(next: Tunnels, result: Result<T, Error>, closed: seq<Close>)

  function Entries(kinds: seq<AuditKind>, subdomain: Subdomain, at: Instant, actor: Actor, detail: Detail): seq<AuditEntry> {
    seq(|kinds|, i requires 0 <= i < |kinds| => AuditEntry(at, subdomain, kinds[i], actor, detail))
  }

  function Fail<T>(t: Tunnels, error: Error): Effect<T> {
    Effect(t, Err(error), [])
  }

  predicate TokenTaken(claims: map<Subdomain, Claim>, tokenHash: string) {
    exists s :: s in claims && claims[s].tokenHash == tokenHash
  }

  /** One transaction: the new claim and its audit row, refused when either unique column is
      already taken. */
  function ClaimStep(t: Tunnels, subdomain: Subdomain, tokenHash: string, drawn: bool, at: Instant, committed: bool): Effect<Claim> {
    if !Host.ValidSubdomain(subdomain) then Fail(t, Invalid)
    else if !drawn || !committed then Fail(t, StoreFailed)
    else if subdomain in t.claims || TokenTaken(t.claims, tokenHash) then Fail(t, Conflict)
    else
      var claim := Claim(subdomain, tokenHash, 1, false, at, None);
      var row := AuditEntry(at, subdomain, Claimed, Management(t.principal), Revision(1));
      Effect(t.(claims := t.claims[subdomain := claim], audit := t.audit + [row]), Ok(claim), [])
  }

  function RevokeStep(t: Tunnels, subdomain: Subdomain, expected: int, read: bool, at: Instant, committed: bool): Effect<Claim> {
    if !read then Fail(t, StoreFailed)
    else if subdomain !in t.claims then Fail(t, NotFound)
    else
      var claim := t.claims[subdomain];
      if claim.revision != expected then Fail(t, Conflict)
      else match Transition(Status(claim.State(), t.PresenceOf(subdomain)), Revoke)
        case Panicked => Fail(t, Panic)
        case Refused(_, error) => Fail(t, error)
        case Moved(_, kinds) =>
          if !committed then Fail(t, StoreFailed)
          else
            var revoked := claim.(revision := claim.revision + 1, revoked := true, revokedAt := Some(at));
            var rows := Entries(kinds, subdomain, at, Management(t.principal), Revision(claim.revision + 1));
            var durable := t.(claims := t.claims[subdomain := revoked], audit := t.audit + rows);
            if subdomain in t.live then
              Effect(durable.(live := t.live - {subdomain}, superseded := t.superseded - {subdomain}),
                     Ok(revoked), [Close(t.live[subdomain].link, RevokedClose)])
            else
              Effect(durable, Ok(revoked), [])
  }

  /** The clock is read three times: for the cooldown, for the audit rows, and, after the
      commit, for the stamp a takeover leaves behind. */
  function AttachStep(
      t: Tunnels, claim: Claim, link: LinkId, read: bool,
      checkedAt: Instant, recordedAt: Instant, committed: bool, stampedAt: Instant): Effect<nat>
  {
    var subdomain := claim.subdomain;
    if !read then Fail(t, StoreFailed)
    else if subdomain !in t.claims then Fail(t, NotFound)
    else
      var current := t.claims[subdomain];
      if current.tokenHash != claim.tokenHash then Fail(t, Unauthorized)
      else if !t.TakeoverAllowed(subdomain, checkedAt) then Fail(t, Conflict)
      else match Transition(Status(current.State(), t.PresenceOf(subdomain)), Connect)
        case Panicked => Fail(t, Panic)
        case Refused(_, error) => Fail(t, error)
        case Moved(_, kinds) =>
          if !committed then Fail(t, StoreFailed)
          else
            var generation := t.generation + 1;
            var rows := Entries(kinds, subdomain, recordedAt, Agent(subdomain), Generation(generation));
            var attached := t.(
              audit := t.audit + rows,
              live := t.live[subdomain := Attachment(link, generation)],
              generation := generation);
            if subdomain in t.live then
              Effect(attached.(superseded := t.superseded[subdomain := stampedAt]),
                     Ok(generation), [Close(t.live[subdomain].link, SupersededClose)])
            else
              Effect(attached, Ok(generation), [])
  }

  /** The status handed to the table is written out as active and live, and its answer is taken
      without looking for a refusal, as in the source. */
  function LostStep(t: Tunnels, subdomain: Subdomain, generation: nat, at: Instant, committed: bool): Effect<()> {
    if subdomain !in t.live || t.live[subdomain].generation != generation then Effect(t, Ok(()), [])
    else
      var kinds := Transition(Status(Active, Live), LinkLost).audit;
      if !committed then Fail(t, StoreFailed)
      else
        var rows := Entries(kinds, subdomain, at, Agent(subdomain), Generation(generation));
        Effect(t.(audit := t.audit + rows, live := t.live - {subdomain}, superseded := t.superseded - {subdomain}), Ok(()), [])
  }

  /** An active claim carries the credential. */
  predicate Held(claims: map<Subdomain, Claim>, tokenHash: string) {
    exists s :: s in claims && claims[s].tokenHash == tokenHash && !claims[s].revoked
  }

  /** What authentication grants: the credential named this active claim when the claims were
      read, and a takeover of its subdomain is allowed when the cooldown is checked. */
  ghost predicate Granted(seen: map<Subdomain, Claim>, t: Tunnels, tokenHash: string, now: Instant, claim: Claim) {
    && claim.subdomain in seen && seen[claim.subdomain] == claim
    && claim.tokenHash == tokenHash
    && !claim.revoked
    && t.TakeoverAllowed(claim.subdomain, now)
  }

  /** Both at one moment. */
  ghost predicate Authenticates(t: Tunnels, tokenHash: string, now: Instant, claim: Claim) {
    Granted(t.claims, t, tokenHash, now, claim)
  }

  /** What authentication answers, for every outcome. */
  ghost predicate Answers(
      seen: map<Subdomain, Claim>, t: Tunnels, wellFormed: bool, tokenHash: string, read: bool, now: Instant,
      r: Result<Claim, Error>)
  {
    && (r.Ok? ==> wellFormed && read && Granted(seen, t, tokenHash, now, r.value))
    && (wellFormed && read && (exists c :: Granted(seen, t, tokenHash, now, c)) ==> r.Ok?)
    && (r == Err(Conflict) <==>
          wellFormed && read && Held(seen, tokenHash) && forall c :: !Granted(seen, t, tokenHash, now, c))
    && (r == Err(Unauthorized) <==> !wellFormed || (read && !Held(seen, tokenHash)))
    && (r == Err(StoreFailed) <==> wellFormed && !read)
  }

  /** The kinds of the audit rows about one subdomain, oldest first. */
  function KindsOf(audit: seq<AuditEntry>, subdomain: Subdomain): seq<AuditKind> {
    if audit == [] then []
    else
      var rest := KindsOf(audit[..|audit| - 1], subdomain);
      var last := audit[|audit| - 1];
      if last.subdomain == subdomain then rest + [last.kind] else rest
  }

  lemma KindsOfEntries(audit: seq<AuditEntry>, kinds: seq<AuditKind>, s: Subdomain, at: Instant, actor: Actor, detail: Detail, subdomain: Subdomain)
    ensures KindsOf(audit + Entries(kinds, s, at, actor, detail), subdomain)
         == KindsOf(audit, subdomain) + (if s == subdomain then kinds else [])
  {
    var rows := Entries(kinds, s, at, actor, detail);
    if kinds == [] {
      assert audit + rows == audit;
    } else {
      var n := |kinds| - 1;
      KindsOfEntries(audit, kinds[..n], s, at, actor, detail, subdomain);
      assert (audit + rows)[..|audit| + n] == audit + Entries(kinds[..n], s, at, actor, detail);
      assert kinds == kinds[..n] + [kinds[n]];
    }
  }
}
