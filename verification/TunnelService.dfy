/** The tunnel service as it runs: a durable store, a routing table and a service that moves both
    under one lock. Every method is proved to take exactly the step of TunnelPolicy. The outcome
    of each store call and each clock reading is a parameter. */
module TunnelService {
  import opened Wrappers
  import opened Lifecycle
  import opened TunnelPolicy
  import TunnelRuns
  import Host
  import Text

  /** The claims and audit tables; every write is one transaction that commits or does nothing. */
  class Store {
    var claims: map<Subdomain, Claim>
    var audit: seq<AuditEntry>

    constructor ()
      ensures claims == map[] && audit == []
    {
      claims, audit := map[], [];
    }

    method InsertClaim(claim: Claim, entry: AuditEntry, committed: bool) returns (r: Result<(), Error>)
      modifies this
      ensures r == (if !committed then Err(StoreFailed)
                    else if claim.subdomain in old(claims) || TokenTaken(old(claims), claim.tokenHash) then Err(Conflict)
                    else Ok(()))
      ensures r.Ok? ==> claims == old(claims)[claim.subdomain := claim] && audit == old(audit) + [entry]
      ensures r.Err? ==> claims == old(claims) && audit == old(audit)
    {
      if !committed {
        return Err(StoreFailed);
      }
      if claim.subdomain in claims || TokenTaken(claims, claim.tokenHash) {
        return Err(Conflict);
      }
      claims := claims[claim.subdomain := claim];
      audit := audit + [entry];
      return Ok(());
    }

    method ClaimBySubdomain(subdomain: Subdomain, read: bool) returns (r: Result<Claim, Error>)
      ensures r == (if !read then Err(StoreFailed) else if subdomain in claims then Ok(claims[subdomain]) else Err(NotFound))
    {
      if !read {
        return Err(StoreFailed);
      }
      if subdomain !in claims {
        return Err(NotFound);
      }
      return Ok(claims[subdomain]);
    }

    method ClaimByTokenHash(tokenHash: string, read: bool) returns (r: Result<Claim, Error>)
      ensures !read ==> r == Err(StoreFailed)
      ensures read && !TokenTaken(claims, tokenHash) ==> r == Err(NotFound)
      ensures read && TokenTaken(claims, tokenHash) ==> r.Ok? && r.value in claims.Values && r.value.tokenHash == tokenHash
    {
      if !read {
        return Err(StoreFailed);
      }
      if !TokenTaken(claims, tokenHash) {
        return Err(NotFound);
      }
      var s :| s in claims && claims[s].tokenHash == tokenHash;
      return Ok(claims[s]);
    }

    /** The update only matches an unrevoked claim at the expected revision. */
    method RevokeClaim(subdomain: Subdomain, expected: int, at: Instant, entries: seq<AuditEntry>, committed: bool)
      returns (r: Result<Claim, Error>)
      modifies this
      ensures r.Ok? <==> committed && subdomain in old(claims) && old(claims)[subdomain].revision == expected && !old(claims)[subdomain].revoked
      ensures r.Ok? ==>
        && r.value == old(claims)[subdomain].(revoked := true, revision := expected + 1, revokedAt := Some(at))
        && claims == old(claims)[subdomain := r.value] && audit == old(audit) + entries
      ensures r.Err? ==> r.error == (if committed then Conflict else StoreFailed) && claims == old(claims) && audit == old(audit)
    {
      if !committed {
        return Err(StoreFailed);
      }
      if subdomain !in claims || claims[subdomain].revision != expected || claims[subdomain].revoked {
        return Err(Conflict);
      }
      var claim := claims[subdomain].(revoked := true, revision := expected + 1, revokedAt := Some(at));
      claims := claims[subdomain := claim];
      var _ := AppendAudit(entries, true);
      return Ok(claim);
    }

    /** Inserts the rows one by one inside a transaction; all of them appear or none. */
    method AppendAudit(entries: seq<AuditEntry>, committed: bool) returns (r: Result<(), Error>)
      modifies `audit
      ensures r == (if committed then Ok(()) else Err(StoreFailed))
      ensures audit == old(audit) + (if committed then entries else [])
    {
      var staged := audit;
      for i := 0 to |entries|
        invariant staged == audit + entries[..i]
      {
        staged := staged + [entries[i]];
      }
      if !committed {
        return Err(StoreFailed);
      }
      audit := staged;
      return Ok(());
    }

    predicate Stored(claim: Claim)
      reads this
    {
      claim.subdomain in claims && claims[claim.subdomain] == claim
    }

    /** Every claim once, oldest first and by subdomain among those of one instant. */
    method ListClaims(read: bool) returns (r: Result<seq<Claim>, Error>)
      requires forall s | s in claims :: claims[s].subdomain == s
      ensures r == Err(StoreFailed) <==> !read
      ensures r.Ok? <==> read
      ensures r.Ok? ==> |r.value| == |claims|
      ensures r.Ok? ==> forall i | 0 <= i < |r.value| :: Stored(r.value[i])
      ensures r.Ok? ==> forall s | s in claims :: claims[s] in r.value
      ensures r.Ok? ==> InOrder(r.value)
      ensures r.Ok? ==> forall i, j | 0 <= i < j < |r.value| ::
        r.value[i].createdAt < r.value[j].createdAt
        || (r.value[i].createdAt == r.value[j].createdAt && Text.Less(r.value[i].subdomain, r.value[j].subdomain))
    {
      if !read {
        return Err(StoreFailed);
      }
      var listed, rest := [], claims.Keys;
      while rest != {}
        invariant rest <= claims.Keys && |listed| + |rest| == |claims|
        invariant forall i | 0 <= i < |listed| :: Stored(listed[i])
        invariant forall s | s in claims && s !in rest :: claims[s] in listed
        invariant InOrder(listed)
        invariant forall i, s | 0 <= i < |listed| && s in rest :: Precedes(listed[i], claims[s])
        decreases |rest|
      {
        ghost var first := FirstExists(claims, rest);
        hide Precedes;
        var s :| s in rest && forall o | o in rest && o != s :: Precedes(claims[s], claims[o]);
        Appended(listed, claims[s]);
        hide InOrder;
        listed := listed + [claims[s]];
        rest := rest - {s};
      }
      return Ok(listed);
    }
  }

  predicate InOrder(listed: seq<Claim>) {
    forall i, j | 0 <= i < j < |listed| :: Precedes(listed[i], listed[j])
  }

  lemma Appended(listed: seq<Claim>, claim: Claim)
    requires InOrder(listed) && forall i | 0 <= i < |listed| :: Precedes(listed[i], claim)
    ensures InOrder(listed + [claim])
  {
  }

  predicate Precedes(a: Claim, b: Claim) {
    Earlier(a.createdAt, a.subdomain, b.createdAt, b.subdomain)
  }

  predicate Earlier(at: Instant, subdomain: Subdomain, later: Instant, other: Subdomain) {
    at < later || (at == later && Text.Less(subdomain, other))
  }

  lemma FirstExists(claims: map<Subdomain, Claim>, keys: set<Subdomain>) returns (first: Subdomain)
    requires keys != {} && keys <= claims.Keys && forall s | s in claims :: claims[s].subdomain == s
    ensures first in keys && forall s | s in keys && s != first :: Precedes(claims[first], claims[s])
    decreases |keys|
  {
    var s :| s in keys;
    if keys == {s} {
      first := s;
    } else {
      var rest := keys - {s};
      assert keys == rest + {s};
      first := FirstExists(claims, rest);
      Text.LessIsTotal(s, first);
      if Precedes(claims[s], claims[first]) {
        forall o | o in rest && o != first ensures Precedes(claims[s], claims[o]) {
          if claims[s].createdAt == claims[first].createdAt == claims[o].createdAt { Text.LessIsTransitive(s, first, o); }
        }
        first := s;
      }
    }
  }

  /** The in-memory routing table. */
  class Registry {
    var live: map<Subdomain, Attachment>

    constructor ()
      ensures live == map[]
    {
      live := map[];
    }

    method Attach(subdomain: Subdomain, link: LinkId, generation: nat) returns (previous: Option<LinkId>)
      modifies this
      ensures live == old(live)[subdomain := Attachment(link, generation)]
      ensures previous == (if subdomain in old(live) then Some(old(live)[subdomain].link) else None)
    {
      previous := if subdomain in live then Some(live[subdomain].link) else None;
      live := live[subdomain := Attachment(link, generation)];
    }

    predicate Matches(subdomain: Subdomain, generation: nat)
      reads this
    {
      subdomain in live && live[subdomain].generation == generation
    }

    method Detach(subdomain: Subdomain, generation: nat) returns (changed: bool)
      modifies this
      ensures changed == old(Matches(subdomain, generation))
      ensures live == (if changed then old(live) - {subdomain} else old(live))
    {
      if !Matches(subdomain, generation) {
        return false;
      }
      live := live - {subdomain};
      return true;
    }

    method Evict(subdomain: Subdomain) returns (evicted: Option<LinkId>)
      modifies this
      ensures evicted == (if subdomain in old(live) then Some(old(live)[subdomain].link) else None)
      ensures live == old(live) - {subdomain}
    {
      if subdomain !in live {
        return None;
      }
      evicted := Some(live[subdomain].link);
      live := live - {subdomain};
    }

    function Lookup(subdomain: Subdomain): Option<LinkId>
      reads this
    {
      if subdomain in live then Some(live[subdomain].link) else None
    }

    function Presence(subdomain: Subdomain): Presence
      reads this
    {
      if Lookup(subdomain).Some? then Live else Absent
    }
  }

  /** One tunnel as the read plane sees it. */
  datatype View = View(
    subdomain: Subdomain, revision: int, state: ClaimState, presence: Presence,
    createdAt: Instant, revokedAt: Option<Instant>)

  function ViewOf(t: Tunnels, claim: Claim): View {
    View(claim.subdomain, claim.revision, claim.State(), t.PresenceOf(claim.subdomain), claim.createdAt, claim.revokedAt)
  }

  lemma ViewsAreComplete(t: Tunnels, claims: seq<Claim>, views: seq<View>)
    requires |views| == |claims| && forall k | 0 <= k < |claims| :: views[k] == ViewOf(t, claims[k])
    requires forall s | s in t.claims :: t.claims[s].subdomain == s && t.claims[s] in claims
    requires forall k | 0 <= k < |claims| :: claims[k].subdomain in t.claims && t.claims[claims[k].subdomain] == claims[k]
    requires InOrder(claims)
    ensures forall s | s in t.claims :: exists i :: 0 <= i < |views| && views[i].subdomain == s
    ensures forall i | 0 <= i < |views| ::
      && views[i].subdomain in t.claims
      && (views[i].presence == Live <==> views[i].subdomain in t.live)
      && var claim := t.claims[views[i].subdomain];
      && views[i].revision == claim.revision && (views[i].state == Revoked <==> claim.revoked)
      && views[i].createdAt == claim.createdAt && views[i].revokedAt == claim.revokedAt
    ensures forall i, j | 0 <= i < j < |views| ::
      views[i].createdAt < views[j].createdAt
      || (views[i].createdAt == views[j].createdAt && Text.Less(views[i].subdomain, views[j].subdomain))
  {
    forall s | s in t.claims ensures exists i :: 0 <= i < |views| && views[i].subdomain == s {
      var k :| 0 <= k < |claims| && claims[k] == t.claims[s];
      assert views[k].subdomain == s;
    }
    forall i, j | 0 <= i < j < |views|
      ensures views[i].createdAt < views[j].createdAt
        || (views[i].createdAt == views[j].createdAt && Text.Less(views[i].subdomain, views[j].subdomain))
    {
      assert Precedes(claims[i], claims[j]);
    }
  }

  /** The answer of Authenticate from those of its two halves. */
  lemma HalvesAnswer(
      seen: map<Subdomain, Claim>, t: Tunnels, wellFormed: bool, tokenHash: string, read: bool, now: Instant,
      identified: Result<Claim, Error>)
    requires forall s, r | s in seen && r in seen :: seen[s].tokenHash == seen[r].tokenHash ==> s == r
    requires forall s | s in seen :: seen[s].subdomain == s
    requires Identifies(seen, wellFormed, tokenHash, read, identified)
    ensures Answers(seen, t, wellFormed, tokenHash, read, now,
      if identified.Err? || t.TakeoverAllowed(identified.value.subdomain, now) then identified else Err(Conflict))
  {
    if identified.Ok? {
      var claim := identified.value;
      assert forall c :: Granted(seen, t, tokenHash, now, c) ==> c == claim;
      assert Granted(seen, t, tokenHash, now, claim) <==> t.TakeoverAllowed(claim.subdomain, now);
    }
  }

  /** The claim an unlocked read of the store names, if it is active. */
  ghost predicate Identifies(seen: map<Subdomain, Claim>, wellFormed: bool, tokenHash: string, read: bool, r: Result<Claim, Error>) {
    match r
    case Ok(claim) =>
      && wellFormed && read
      && claim.subdomain in seen && seen[claim.subdomain] == claim && claim.tokenHash == tokenHash && !claim.revoked
    case Err(error) =>
      if wellFormed && !read then error == StoreFailed
      else error == Unauthorized && (wellFormed ==> !Held(seen, tokenHash))
  }

  class Service {
    const principal: string
    const store: Store
    const registry: Registry
    var generation: nat
    var superseded: map<Subdomain, Instant>
    /** The links this service has told to close, in order. */
    var closed: seq<Close>

    /** A process starting over a store: the durable half is kept, the volatile half is empty,
        which is where a crash leaves a running service. */
    constructor (principal: string, store: Store, registry: Registry)
      requires registry.live == map[]
      ensures this.principal == principal && this.store == store && this.registry == registry && closed == []
      ensures State() == Tunnels(principal, store.claims, store.audit, map[], map[], 0)
    {
      this.principal, this.store, this.registry := principal, store, registry;
      generation, superseded, closed := 0, map[], [];
    }

    function State(): Tunnels
      reads this, store, registry
    {
      Tunnels(principal, store.claims, store.audit, registry.live, superseded, generation)
    }

    method Claim(subdomain: Subdomain, tokenHash: string, drawn: bool, at: Instant, committed: bool) returns (r: Result<Claim, Error>)
      modifies store
      ensures var e := ClaimStep(old(State()), subdomain, tokenHash, drawn, at, committed);
        State() == e.next && r == e.result && e.closed == []
    {
      var valid := Host.ValidateSubdomain(subdomain);
      if !valid {
        return Err(Invalid);
      }
      if !drawn {
        return Err(StoreFailed);
      }
      var claim := TunnelPolicy.Claim(subdomain, tokenHash, 1, false, at, None);
      var entry := AuditEntry(at, subdomain, Claimed, Management(principal), Revision(1));
      var inserted := store.InsertClaim(claim, entry, committed);
      if inserted.Err? {
        return Err(inserted.error);
      }
      return Ok(claim);
    }

    method Revoke(subdomain: Subdomain, expected: int, read: bool, at: Instant, committed: bool) returns (r: Result<Claim, Error>)
      modifies this, store, registry
      ensures var e := RevokeStep(old(State()), subdomain, expected, read, at, committed);
        State() == e.next && r == e.result && closed == old(closed) + e.closed
    {
      var found := store.ClaimBySubdomain(subdomain, read);
      if found.Err? {
        return found;
      }
      var claim := found.value;
      if claim.revision != expected {
        return Err(Conflict);
      }
      var outcome := Transition(Status(claim.State(), registry.Presence(subdomain)), Event.Revoke);
      if !outcome.Moved? {
        return Err(if outcome.Refused? then outcome.error else Panic);
      }
      var rows := BuildEntries(outcome.audit, subdomain, at, Management(principal), Revision(claim.revision + 1));
      r := store.RevokeClaim(subdomain, expected, at, rows, committed);
      if r.Err? {
        return;
      }
      var link := registry.Evict(subdomain);
      if link.Some? {
        superseded := superseded - {subdomain};
        closed := closed + [Close(link.value, RevokedClose)];
      }
    }

    /** Whether the cooldown lets a connect through; read under the lock. */
    predicate TakeoverAllowed(subdomain: Subdomain, now: Instant)
      reads this, registry
    {
      if registry.Presence(subdomain) != Live then true
      else subdomain !in superseded || now - superseded[subdomain] >= SUPERSEDE_COOLDOWN
    }

    /** The first half of Authenticate reads the store without the service lock. */
    method Identify(wellFormed: bool, tokenHash: string, read: bool) returns (r: Result<Claim, Error>)
      requires TunnelRuns.ClaimsSound(State())
      ensures Identifies(store.claims, wellFormed, tokenHash, read, r)
    {
      if !wellFormed {
        return Err(Unauthorized);
      }
      r := store.ClaimByTokenHash(tokenHash, read);
      if r.Err? {
        return Err(if r.error == NotFound then Unauthorized else r.error);
      }
      if r.value.revoked {
        return Err(Unauthorized);
      }
    }

    /** Grants a claim exactly when the credential authenticates it, and tells an unusable
        credential from one whose takeover must wait; changes nothing. */
    method Authenticate(wellFormed: bool, tokenHash: string, read: bool, now: Instant) returns (r: Result<Claim, Error>)
      requires TunnelRuns.ClaimsSound(State())
      ensures Answers(State().claims, State(), wellFormed, tokenHash, read, now, r)
    {
      r := Identify(wellFormed, tokenHash, read);
      HalvesAnswer(State().claims, State(), wellFormed, tokenHash, read, now, r);
      if r.Err? {
        return;
      }
      if !TakeoverAllowed(r.value.subdomain, now) {
        return Err(Conflict);
      }
    }

    method Attach(
        claim: Claim, link: LinkId, read: bool,
        checkedAt: Instant, recordedAt: Instant, committed: bool, stampedAt: Instant) returns (r: Result<nat, Error>)
      modifies this, store, registry
      ensures var e := AttachStep(old(State()), claim, link, read, checkedAt, recordedAt, committed, stampedAt);
        State() == e.next && r == e.result && closed == old(closed) + e.closed
    {
      var found := store.ClaimBySubdomain(claim.subdomain, read);
      if found.Err? {
        return Err(found.error);
      }
      if found.value.tokenHash != claim.tokenHash {
        return Err(Unauthorized);
      }
      if !TakeoverAllowed(claim.subdomain, checkedAt) {
        return Err(Conflict);
      }
      var outcome := Transition(Status(found.value.State(), registry.Presence(claim.subdomain)), Connect);
      if !outcome.Moved? {
        return Err(if outcome.Refused? then outcome.error else Panic);
      }
      var next := generation + 1;
      var rows := BuildEntries(outcome.audit, claim.subdomain, recordedAt, Agent(claim.subdomain), Generation(next));
      var appended := store.AppendAudit(rows, committed);
      if appended.Err? {
        return Err(appended.error);
      }
      generation := next;
      var previous := registry.Attach(claim.subdomain, link, next);
      if previous.Some? {
        superseded := superseded[claim.subdomain := stampedAt];
        closed := closed + [Close(previous.value, SupersededClose)];
      }
      return Ok(next);
    }

    method Lost(subdomain: Subdomain, connection: nat, at: Instant, committed: bool) returns (r: Result<(), Error>)
      modifies this, store, registry
      ensures var e := LostStep(old(State()), subdomain, connection, at, committed);
        State() == e.next && r == e.result && closed == old(closed) && e.closed == []
    {
      if !registry.Matches(subdomain, connection) {
        return Ok(());
      }
      var outcome := Transition(Status(Active, Live), LinkLost);
      var rows := BuildEntries(outcome.audit, subdomain, at, Agent(subdomain), Generation(connection));
      r := store.AppendAudit(rows, committed);
      if r.Err? {
        return;
      }
      var _ := registry.Detach(subdomain, connection);
      superseded := superseded - {subdomain};
    }

    /** Every claim once, oldest first, with what the store and the routing table say of it now,
        and no credential. */
    method List(read: bool) returns (r: Result<seq<View>, Error>)
      requires TunnelRuns.ClaimsSound(State())
      ensures r.Ok? <==> read
      ensures r.Err? ==> r == Err(StoreFailed)
      ensures r.Ok? ==> |r.value| == |store.claims|
      ensures r.Ok? ==> forall s | s in store.claims :: exists i :: 0 <= i < |r.value| && r.value[i].subdomain == s
      ensures r.Ok? ==> forall i | 0 <= i < |r.value| ::
        && r.value[i].subdomain in store.claims
        && (r.value[i].presence == Live <==> r.value[i].subdomain in registry.live)
        && var claim := store.claims[r.value[i].subdomain];
        && r.value[i].revision == claim.revision && (r.value[i].state == Revoked <==> claim.revoked)
        && r.value[i].createdAt == claim.createdAt && r.value[i].revokedAt == claim.revokedAt
      ensures r.Ok? ==> forall i, j | 0 <= i < j < |r.value| ::
        r.value[i].createdAt < r.value[j].createdAt
        || (r.value[i].createdAt == r.value[j].createdAt && Text.Less(r.value[i].subdomain, r.value[j].subdomain))
    {
      var claims := store.ListClaims(read);
      if claims.Err? {
        return Err(claims.error);
      }
      var views := ViewAll(claims.value);
      hide ViewOf, InOrder;
      ViewsAreComplete(State(), claims.value, views);
      return Ok(views);
    }

    /** Joins each claim with its presence. */
    method ViewAll(claims: seq<Claim>) returns (views: seq<View>)
      ensures |views| == |claims| && forall k | 0 <= k < |claims| :: views[k] == ViewOf(State(), claims[k])
    {
      views := [];
      for i := 0 to |claims|
        invariant |views| == i
        invariant forall k | 0 <= k < i :: views[k] == ViewOf(State(), claims[k])
      {
        var claim := claims[i];
        var presence := if claim.subdomain in registry.live then Live else Absent;
        views := views + [View(claim.subdomain, claim.revision, claim.State(), presence, claim.createdAt, claim.revokedAt)];
      }
    }

    method BuildEntries(kinds: seq<AuditKind>, subdomain: Subdomain, at: Instant, actor: Actor, detail: Detail) returns (entries: seq<AuditEntry>)
      ensures entries == Entries(kinds, subdomain, at, actor, detail)
    {
      entries := [];
      for i := 0 to |kinds|
        invariant entries == Entries(kinds[..i], subdomain, at, actor, detail)
      {
        entries := entries + [AuditEntry(at, subdomain, kinds[i], actor, detail)];
      }
      assert kinds[..|kinds|] == kinds;
    }
  }

  /** No view of a reachable state shows a revoked tunnel as live. */
  lemma ViewsNeverShowRevokedLive(w: TunnelRuns.World, s: Subdomain)
    requires TunnelRuns.TablesSound(w) && s in w.tunnels.claims
    ensures var v := ViewOf(w.tunnels, w.tunnels.claims[s]);
      !(v.state == Revoked && v.presence == Live) && v.subdomain == s
  {
  }
}
