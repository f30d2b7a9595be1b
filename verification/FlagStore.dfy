/** The durable flag authority: one atomic compare-revision publish that also appends the audit,
    and what holds over every run of it. The in-memory store is proved to take this step; the
    SQLite store takes it inside one transaction. */
module FlagStore {
  import opened Wrappers
  import opened Flags
  import opened Listing

  datatype AuditEntry = AuditEntry(
    sequence: int, environment: string, key: string, revision: int, actor: string, action: string, occurredAt: int)

  datatype Store = Store(flags: Flagset, audit: seq<AuditEntry>) {
    function Revision(id: FlagId): int {
      if id in flags then flags[id].revision else 0
    }
  }

  /** The definition a publish commits. */
  function Published(f: Flag, revision: int, now: int): Flag {
    f.(revision := revision, updatedAt := now)
  }

  function PublishStep(s: Store, environment: string, f: Flag, expected: int, actor: string, now: int): (Store, Result<Flag, Error>) {
    var id := FlagId(environment, f.key);
    if id !in s.flags && expected != 0 then (s, Err(Conflict))
    else if id in s.flags && s.flags[id].revision != expected then (s, Err(Conflict))
    else
      var published := Published(f, s.Revision(id) + 1, now);
      var row := AuditEntry(|s.audit| + 1, environment, f.key, published.revision, actor, "published", now);
      (Store(s.flags[id := published], s.audit + [row]), Ok(published))
  }

  // ---------------------------------------------------------------------------------------
  // Every run
  // ---------------------------------------------------------------------------------------

  datatype Attempt = Attempt(environment: string, flag: Flag, expected: int, actor: string, now: int, committed: bool) {
    function Id(): FlagId { FlagId(environment, flag.key) }
  }

  /** A transaction that does not commit leaves nothing behind. */
  function Next(s: Store, a: Attempt): Store {
    if a.committed then PublishStep(s, a.environment, a.flag, a.expected, a.actor, a.now).0 else s
  }

  predicate Succeeds(s: Store, a: Attempt) {
    a.committed && PublishStep(s, a.environment, a.flag, a.expected, a.actor, a.now).1.Ok?
  }

  ghost predicate Behavior(ss: seq<Store>, attempts: seq<Attempt>) {
    && |ss| == |attempts| + 1
    && ss[0] == Store(map[], [])
    && forall i | 0 <= i < |attempts| :: ss[i + 1] == Next(ss[i], attempts[i])
  }

  /** The revisions the audit lists for one flag, oldest first. */
  function RevisionsOf(audit: seq<AuditEntry>, id: FlagId): seq<int> {
    if audit == [] then []
    else
      var rest := RevisionsOf(audit[..|audit| - 1], id);
      var last := audit[|audit| - 1];
      if FlagId(last.environment, last.key) == id then rest + [last.revision] else rest
  }

  function UpTo(n: int): seq<int> {
    if n <= 0 then [] else UpTo(n - 1) + [n]
  }

  /** The sum of all current revisions. */
  ghost function SumOfRevisions(flags: Flagset): int
    decreases |flags|
  {
    if flags == map[] then 0
    else
      var id :| id in flags;
      assert |flags - {id}| < |flags| by { assert flags.Keys == (flags - {id}).Keys + {id}; }
      flags[id].revision + SumOfRevisions(flags - {id})
  }

  lemma {:induction false} SumWithout(flags: Flagset, id: FlagId)
    requires id in flags
    ensures SumOfRevisions(flags) == flags[id].revision + SumOfRevisions(flags - {id})
    decreases |flags|
  {
    var k :| k in flags && SumOfRevisions(flags) == flags[k].revision + SumOfRevisions(flags - {k});
    if k != id {
      assert flags.Keys == (flags - {k}).Keys + {k} && flags.Keys == (flags - {id}).Keys + {id};
      SumWithout(flags - {k}, id);
      SumWithout(flags - {id}, k);
      assert flags - {k} - {id} == flags - {id} - {k};
    }
  }

  lemma SumWith(flags: Flagset, id: FlagId, f: Flag)
    ensures SumOfRevisions(flags[id := f]) == SumOfRevisions(flags) - (if id in flags then flags[id].revision else 0) + f.revision
  {
    SumWithout(flags[id := f], id);
    if id in flags {
      SumWithout(flags, id);
      assert flags[id := f] - {id} == flags - {id};
    } else {
      assert flags[id := f] - {id} == flags;
    }
  }

  /** Each flag's rows list its revisions 1 to n. */
  ghost predicate ListsRevisions(s: Store) {
    forall id :: RevisionsOf(s.audit, id) == UpTo(s.Revision(id))
  }

  ghost predicate Sound(s: Store) {
    && (forall id | id in s.flags :: s.flags[id].key == id.key && s.flags[id].revision >= 1)
    && ListsRevisions(s)
    && (forall i | 0 <= i < |s.audit| :: s.audit[i].sequence == i + 1)
    && SumOfRevisions(s.flags) == |s.audit|
  }

  /** One more row for one flag continues its list of revisions. */
  lemma RowsContinue(s: Store, v: Store, id: FlagId, row: AuditEntry)
    requires ListsRevisions(s)
    requires FlagId(row.environment, row.key) == id && row.revision == s.Revision(id) + 1 && s.Revision(id) >= 0
    requires v.audit == s.audit + [row] && v.Revision(id) == row.revision
    requires forall o | o != id :: v.Revision(o) == s.Revision(o)
    ensures ListsRevisions(v)
  {
    assert v.audit[..|v.audit| - 1] == s.audit;
    forall o ensures RevisionsOf(v.audit, o) == UpTo(v.Revision(o)) {
      assert RevisionsOf(s.audit, o) == UpTo(s.Revision(o));
    }
  }

  /** One flag moved to its next revision, with one row for it. */
  ghost predicate Commits(s: Store, v: Store, id: FlagId, f: Flag, row: AuditEntry) {
    && v.flags == s.flags[id := f] && f.key == id.key && f.revision == s.Revision(id) + 1
    && v.audit == s.audit + [row] && row.sequence == |s.audit| + 1
    && FlagId(row.environment, row.key) == id && row.revision == f.revision
  }

  lemma CommitKeepsSound(s: Store, v: Store, id: FlagId, f: Flag, row: AuditEntry)
    requires Sound(s) && Commits(s, v, id, f, row)
    ensures Sound(v)
  {
    SumWith(s.flags, id, f);
    assert s.Revision(id) >= 0;
    CommitContinues(s, v, id, f, row);
    hide SumOfRevisions, ListsRevisions;
  }

  lemma CommitContinues(s: Store, v: Store, id: FlagId, f: Flag, row: AuditEntry)
    requires ListsRevisions(s) && Commits(s, v, id, f, row) && s.Revision(id) >= 0
    ensures ListsRevisions(v)
  {
    hide ListsRevisions;
    assert v.Revision(id) == row.revision;
    assert forall o | o != id :: v.Revision(o) == s.Revision(o);
    RowsContinue(s, v, id, row);
  }

  lemma PublishKeepsSound(s: Store, environment: string, f: Flag, expected: int, actor: string, now: int)
    requires Sound(s)
    ensures Sound(PublishStep(s, environment, f, expected, actor, now).0)
  {
    var (v, r) := PublishStep(s, environment, f, expected, actor, now);
    hide Sound;
    if r.Ok? {
      CommitKeepsSound(s, v, FlagId(environment, f.key), r.value, v.audit[|s.audit|]);
    }
  }

  /** In every run each flag's audit rows list its revisions 1 to n without gap or repeat, with n
      its current revision; the rows are numbered in order; and the revisions add up to the
      number of rows. */
  lemma {:induction false} AuditCountsRevisions(ss: seq<Store>, attempts: seq<Attempt>, i: nat)
    requires Behavior(ss, attempts) && i < |ss|
    ensures Sound(ss[i])
    decreases i
  {
    if i > 0 {
      AuditCountsRevisions(ss, attempts, i - 1);
      var a := attempts[i - 1];
      PublishKeepsSound(ss[i - 1], a.environment, a.flag, a.expected, a.actor, a.now);
    }
  }

  lemma {:induction false} RevisionsGrow(ss: seq<Store>, attempts: seq<Attempt>, i: nat, j: nat, id: FlagId)
    requires Behavior(ss, attempts) && i <= j < |ss|
    ensures ss[i].Revision(id) <= ss[j].Revision(id)
    ensures ss[i].audit <= ss[j].audit
    decreases j
  {
    if i < j { RevisionsGrow(ss, attempts, i, j - 1, id); }
  }

  /** At most one publish of a flag succeeds on any expected revision, and each success moves
      the flag from exactly that revision to the next. */
  lemma OneWinnerPerRevision(ss: seq<Store>, attempts: seq<Attempt>, i: nat, j: nat)
    requires Behavior(ss, attempts) && i < |attempts| && j < |attempts|
    requires Succeeds(ss[i], attempts[i]) && Succeeds(ss[j], attempts[j])
    requires attempts[i].Id() == attempts[j].Id() && attempts[i].expected == attempts[j].expected
    ensures i == j
    ensures ss[i].Revision(attempts[i].Id()) == attempts[i].expected
    ensures ss[i + 1].Revision(attempts[i].Id()) == attempts[i].expected + 1
  {
    var id := attempts[i].Id();
    if i < j { RevisionsGrow(ss, attempts, i + 1, j, id); }
    if j < i { RevisionsGrow(ss, attempts, j + 1, i, id); }
  }

  /** In a sound store a publish succeeds exactly on the current revision, 0 when the flag is
      unknown; it then moves that one flag to the next revision, adds one row saying so, and
      touches no other flag. */
  lemma PublishDecides(s: Store, a: Attempt, other: FlagId)
    requires Sound(s)
    ensures Succeeds(s, a) <==> a.committed && a.expected == s.Revision(a.Id())
    ensures Succeeds(s, a) ==>
      && Next(s, a).Revision(a.Id()) == a.expected + 1
      && RevisionsOf(Next(s, a).audit, a.Id()) == RevisionsOf(s.audit, a.Id()) + [a.expected + 1]
    ensures other != a.Id() ==>
      && (other in s.flags <==> other in Next(s, a).flags)
      && (other in s.flags ==> Next(s, a).flags[other] == s.flags[other])
      && RevisionsOf(Next(s, a).audit, other) == RevisionsOf(s.audit, other)
  {
    if Succeeds(s, a) {
      var longer := Next(s, a).audit;
      assert longer[..|longer| - 1] == s.audit;
    }
  }

  /** What a successful publish stores, and returns, is the submitted definition, field by field, but
      for its revision and the time, which its one new row carries too. */
  lemma PublishKeepsDefinition(s: Store, a: Attempt)
    requires Sound(s) && Succeeds(s, a)
    ensures a.Id() in Next(s, a).flags
    ensures PublishStep(s, a.environment, a.flag, a.expected, a.actor, a.now).1 == Ok(Next(s, a).flags[a.Id()])
    ensures var f := Next(s, a).flags[a.Id()];
      && f.key == a.flag.key && f.kind == a.flag.kind && f.enabled == a.flag.enabled
      && f.defaultVariant == a.flag.defaultVariant && f.variants == a.flag.variants
      && f.rules == a.flag.rules && f.rollout == a.flag.rollout
      && f.revision == a.expected + 1 && f.updatedAt == a.now
    ensures var audit := Next(s, a).audit;
      && |audit| == |s.audit| + 1 && audit[..|s.audit|] == s.audit
      && audit[|s.audit|] ==
           AuditEntry(|s.audit| + 1, a.environment, a.flag.key, a.expected + 1, a.actor, "published", a.now)
  {
  }

  /** So it evaluates as submitted, for every digest and context. */
  lemma PublishedEvaluatesAsSubmitted(s: Store, a: Attempt, digest: Digest, context: Context)
    requires Sound(s) && Succeeds(s, a)
    ensures a.Id() in Next(s, a).flags
    ensures var stored, submitted := Evaluate(digest, Next(s, a).flags[a.Id()], context), Evaluate(digest, a.flag, context);
      && (stored.Ok? <==> submitted.Ok?)
      && (stored.Err? ==> stored == submitted)
      && (stored.Ok? ==>
            && stored.value.key == submitted.value.key && stored.value.value == submitted.value.value
            && stored.value.variant == submitted.value.variant && stored.value.reason == submitted.value.reason
            && stored.value.revision == a.expected + 1)
  {
    PublishKeepsDefinition(s, a);
  }

  // ---------------------------------------------------------------------------------------
  // What readers see
  // ---------------------------------------------------------------------------------------

  /** A load of the flags: for every environment that has any, its listing. */
  ghost predicate Loads(flags: Flagset, loaded: map<string, seq<Flag>>) {
    && (forall e | e in loaded :: loaded[e] != [] && Lists(flags, e, loaded[e]))
    && (forall id | id in flags :: id.environment in loaded)
  }

  /** A page of the audit: the most recent rows first, at most limit of them. */
  predicate Pages(audit: seq<AuditEntry>, limit: nat, entries: seq<AuditEntry>) {
    && |entries| == (if limit > |audit| then |audit| else limit)
    && forall i | 0 <= i < |entries| :: entries[i] == audit[|audit| - 1 - i]
  }

  /** Two loads of stores holding the same flags agree, whatever else the stores hold. */
  lemma LoadSeesFlagsOnly(flags: Flagset, a: map<string, seq<Flag>>, b: map<string, seq<Flag>>)
    requires Loads(flags, a) && Loads(flags, b)
    ensures a == b
  {
    forall e ensures e in a <==> e in b {
      if e in a { assert FlagId(e, a[e][0].key) in flags; }
      if e in b { assert FlagId(e, b[e][0].key) in flags; }
    }
    forall e | e in a ensures a[e] == b[e] { ListingIsUnique(flags, e, a[e], b[e]); }
  }

  /** Loads tell flags apart. */
  lemma LoadShowsFlags(flags: Flagset, others: Flagset, loaded: map<string, seq<Flag>>, id: FlagId)
    requires Loads(flags, loaded) && Loads(others, loaded) && id in flags && flags[id].key == id.key
    ensures id in others && others[id] == flags[id]
  {
    var listed := loaded[id.environment];
    var i :| 0 <= i < |listed| && listed[i] == flags[id];
    assert FlagId(id.environment, listed[i].key) == id;
  }

  /** Both readers, before and after one publish: a refused or uncommitted one is invisible to
      each, and one that succeeds is visible to each, as the flag's new definition in a load and
      as the first row of any page. */
  lemma OnlySuccessIsVisible(
      s: Store, a: Attempt, limit: nat, before: map<string, seq<Flag>>, after: map<string, seq<Flag>>,
      page: seq<AuditEntry>, next: seq<AuditEntry>)
    requires Loads(s.flags, before) && Loads(Next(s, a).flags, after)
    requires Pages(s.audit, limit, page) && Pages(Next(s, a).audit, limit, next)
    requires Sound(s)
    ensures before == after <==> !Succeeds(s, a)
    ensures limit > 0 ==> (page == next <==> !Succeeds(s, a))
    ensures limit > 0 && Succeeds(s, a) ==>
      next[0].revision == a.expected + 1 && FlagId(next[0].environment, next[0].key) == a.Id() && next[0].actor == a.actor
  {
    if Succeeds(s, a) {
      if limit > 0 { FirstRowIsNew(s, a, limit, page, next); }
      LoadShowsPublish(s, a, before, after);
    } else {
      hide Loads, Pages, Sound;
      LoadSeesFlagsOnly(s.flags, before, after);
      PagesAreOne(s.audit, limit, page, next);
    }
  }

  lemma PagesAreOne(audit: seq<AuditEntry>, limit: nat, page: seq<AuditEntry>, next: seq<AuditEntry>)
    requires Pages(audit, limit, page) && Pages(audit, limit, next)
    ensures page == next
  {
  }

  lemma LoadShowsPublish(s: Store, a: Attempt, before: map<string, seq<Flag>>, after: map<string, seq<Flag>>)
    requires Sound(s) && Succeeds(s, a) && Loads(s.flags, before) && Loads(Next(s, a).flags, after)
    ensures before != after
  {
    PublishDecides(s, a, a.Id());
    hide Loads, Sound, RevisionsOf;
    if before == after { LoadShowsFlags(Next(s, a).flags, s.flags, after, a.Id()); }
  }

  lemma FirstRowIsNew(s: Store, a: Attempt, limit: nat, page: seq<AuditEntry>, next: seq<AuditEntry>)
    requires Sound(s) && Succeeds(s, a) && limit > 0
    requires Pages(s.audit, limit, page) && Pages(Next(s, a).audit, limit, next)
    ensures page != next && next[0] == Next(s, a).audit[|s.audit|]
    ensures next[0].revision == a.expected + 1 && FlagId(next[0].environment, next[0].key) == a.Id() && next[0].actor == a.actor
  {
    PublishDecides(s, a, a.Id());
    hide RevisionsOf, SumOfRevisions;
    assert next[0].sequence == |s.audit| + 1;
    assert page != [] ==> page[0].sequence == |s.audit|;
  }

  // ---------------------------------------------------------------------------------------
  // The in-memory store
  // ---------------------------------------------------------------------------------------

  class MemoryStore {
    var flags: Nested
    var audit: seq<AuditEntry>
    var sequence: int

    constructor ()
      ensures Valid() && State() == Store(map[], [])
    {
      flags, audit, sequence := map[], [], 0;
    }

    ghost predicate Valid()
      reads this
    {
      sequence == |audit| && Keyed(flags)
    }

    ghost function State(): Store
      reads this
    {
      Store(Flatten(flags), audit)
    }

    /** A refused publish may leave an empty environment behind, which no reader can see. */
    method Publish(environment: string, f: Flag, expected: int, actor: string, now: int) returns (r: Result<Flag, Error>)
      requires Valid()
      modifies this
      ensures Valid()
      ensures (State(), r) == PublishStep(old(State()), environment, f, expected, actor, now)
    {
      hide Flatten, Keyed;
      FlattenFinds(flags, FlagId(environment, f.key));
      FlattenTouch(flags, environment);
      ghost var nested := flags;
      var current := Inner(flags, environment);
      flags := flags[environment := current];
      var known := f.key in current;
      if !known && expected != 0 {
        return Err(Conflict);
      }
      if known && current[f.key].revision != expected {
        return Err(Conflict);
      }
      var published := f.(revision := (if known then current[f.key].revision else 0) + 1, updatedAt := now);
      FlattenUpdate(nested, environment, published);
      flags := flags[environment := current[f.key := published]];
      assert flags == nested[environment := current[f.key := published]];
      sequence := sequence + 1;
      audit := audit + [AuditEntry(sequence, environment, f.key, published.revision, actor, "published", now)];
      return Ok(published);
    }

    /** The definitions grouped by environment, each group in key order; an environment without
        definitions is not mentioned, so the result is determined by the flags alone. */
    method Load() returns (loaded: map<string, seq<Flag>>)
      requires Valid()
      ensures Loads(State().flags, loaded)
    {
      loaded := map[];
      var rest := flags.Keys;
      while rest != {}
        invariant rest <= flags.Keys
        invariant forall e | e in loaded :: loaded[e] != [] && Lists(Flatten(flags), e, loaded[e])
        invariant forall e | e in flags && e !in rest :: flags[e] != map[] ==> e in loaded
        decreases |rest|
      {
        hide Flatten, Lists;
        var e :| e in rest;
        rest := rest - {e};
        var listed := ListSorted(flags[e]);
        if listed != [] {
          ListedIsListing(flags, e, listed);
          loaded := loaded[e := listed];
        }
      }
    }

    /** The most recent rows first, at most limit of them. */
    method Audit(limit: nat) returns (entries: seq<AuditEntry>)
      ensures |entries| == (if limit > |audit| then |audit| else limit)
      ensures forall i | 0 <= i < |entries| :: entries[i] == audit[|audit| - 1 - i]
      ensures Pages(audit, limit, entries)
    {
      var bound := if limit > |audit| then |audit| else limit;
      entries := [];
      var i := |audit| - 1;
      while i >= |audit| - bound
        invariant |audit| - 1 - bound <= i <= |audit| - 1
        invariant |entries| == |audit| - 1 - i
        invariant forall k | 0 <= k < |entries| :: entries[k] == audit[|audit| - 1 - k]
      {
        entries := entries + [audit[i]];
        i := i - 1;
      }
    }
  }
}
