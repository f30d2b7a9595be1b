/** Every interleaving of publishes and their later projection puts, with crashes and reopenings
    in between. A publish commits in one step and is projected in another; puts are delivered
    in any order. */
module ProjectionRuns {
  import opened Flags
  import opened Listing
  import opened FlagStore
  import opened Projection

  /** A committed definition on its way to the projection. */
  datatype Put = Put(id: FlagId, flag: Flag)

  /** `history` keeps every definition ever committed; the service itself does not. */
  datatype State = State(
    store: Store,
    history: map<FlagId, seq<Flag>>,
    projection: Flagset,
    pending: map<nat, Put>,
    up: bool)
  {
    function History(id: FlagId): seq<Flag> {
      if id in history then history[id] else []
    }
  }

  datatype Move =
    | Commit(publish: nat, environment: string, flag: Flag, expected: int, actor: string, now: int, committed: bool)
    | Deliver(publish: nat)
    | Crash
    | Reopen

  predicate Allowed(s: State, m: Move) {
    match m
    case Commit(publish, environment, f, expected, actor, _, _) =>
      s.up && publish !in s.pending && Accepts(environment, f, expected, actor)
    case Deliver(publish) => s.up && publish in s.pending
    case Crash => s.up
    case Reopen => !s.up
  }

  function After(s: State, m: Move): State
    requires Allowed(s, m)
  {
    match m
    case Commit(publish, environment, f, expected, actor, now, committed) =>
      if !committed then s
      else
        var (store, r) := PublishStep(s.store, environment, f, expected, actor, now);
        if r.Err? then s
        else
          var id := FlagId(environment, f.key);
          s.(store := store, history := s.history[id := s.History(id) + [r.value]], pending := s.pending[publish := Put(id, r.value)])
    case Deliver(publish) =>
      var put := s.pending[publish];
      s.(projection := PutStep(s.projection, put.id, put.flag), pending := s.pending - {publish})
    case Crash => s.(projection := map[], pending := map[], up := false)
    case Reopen => s.(projection := s.store.flags, up := true)
  }

  const INITIAL := State(Store(map[], []), map[], map[], map[], true)

  ghost predicate Behavior(ss: seq<State>, moves: seq<Move>) {
    && |ss| == |moves| + 1
    && ss[0] == INITIAL
    && forall i | 0 <= i < |moves| :: Allowed(ss[i], moves[i]) && ss[i + 1] == After(ss[i], moves[i])
  }

  // ---------------------------------------------------------------------------------------
  // What every move keeps
  // ---------------------------------------------------------------------------------------

  /** f is the definition committed for id at its revision. */
  predicate Committed(s: State, id: FlagId, f: Flag) {
    1 <= f.revision <= |s.History(id)| && s.History(id)[f.revision - 1] == f
  }

  /** f can stand at index r of the history of id. */
  predicate IsEntry(id: FlagId, r: nat, f: Flag) {
    f.revision == r + 1 && Valid(f) && f.key == id.key && ValidKey(id.environment)
  }

  ghost predicate HistorySound(s: State) {
    && (forall id: FlagId :: |s.History(id)| == s.store.Revision(id))
    && (forall id | id in s.store.flags :: Committed(s, id, s.store.flags[id]))
    && Entries(s)
  }

  ghost predicate ProjectionSound(s: State) {
    && (forall id | id in s.projection :: Committed(s, id, s.projection[id]))
    && (forall p | p in s.pending :: Committed(s, s.pending[p].id, s.pending[p].flag))
    && (s.up ==> forall id | id in s.store.flags ::
          (id in s.projection && s.projection[id] == s.store.flags[id]) || Awaited(s, id))
  }

  /** The current definition of id is still on its way. */
  ghost predicate Awaited(s: State, id: FlagId)
    requires id in s.store.flags
  {
    exists p :: p in s.pending && s.pending[p] == Put(id, s.store.flags[id])
  }

  ghost predicate Sound(s: State) {
    HistorySound(s) && ProjectionSound(s)
  }

  lemma PublishedIsValid(f: Flag, revision: int, now: int)
    requires Valid(f)
    ensures Valid(Published(f, revision, now))
  {
  }

  /** A successful commit adds one definition to one flag's history and sets it on its way. */
  ghost predicate Committing(s: State, v: State, publish: nat, id: FlagId, f: Flag) {
    && publish !in s.pending && Valid(f) && f.key == id.key && ValidKey(id.environment)
    && f.revision == s.store.Revision(id) + 1
    && v.store.flags == s.store.flags[id := f]
    && v.history == s.history[id := s.History(id) + [f]]
    && v.pending == s.pending[publish := Put(id, f)]
    && v.projection == s.projection && v.up == s.up
  }

  lemma CommitCommits(s: State, m: Move)
    requires m.Commit? && Allowed(s, m)
    ensures var v := After(s, m);
      v == s || exists f :: Committing(s, v, m.publish, FlagId(m.environment, m.flag.key), f)
  {
    hide Valid, ValidKey, Blank;
    var id := FlagId(m.environment, m.flag.key);
    var f := Published(m.flag, s.store.Revision(id) + 1, m.now);
    PublishedIsValid(m.flag, s.store.Revision(id) + 1, m.now);
    assert After(s, m) == s || Committing(s, After(s, m), m.publish, id, f);
  }

  lemma CommittingExtends(s: State, v: State, publish: nat, id: FlagId, f: Flag)
    requires HistorySound(s) && Committing(s, v, publish, id, f)
    ensures forall o: FlagId :: v.History(o) == if o == id then s.History(o) + [f] else s.History(o)
    ensures forall o: FlagId :: |v.History(o)| == v.store.Revision(o)
    ensures forall o: FlagId, g :: Committed(s, o, g) ==> Committed(v, o, g)
    ensures Committed(v, id, f)
  {
    hide Valid, ValidKey;
    assert |s.History(id)| == s.store.Revision(id);
    assert forall o: FlagId :: v.History(o) == if o == id then s.History(o) + [f] else s.History(o);
    forall o: FlagId ensures |v.History(o)| == v.store.Revision(o) {
      assert |s.History(o)| == s.store.Revision(o);
    }
  }

  ghost predicate Entries(s: State) {
    forall id: FlagId, r | 0 <= r < |s.History(id)| :: IsEntry(id, r, s.History(id)[r])
  }

  lemma EntriesExtend(s: State, v: State, id: FlagId, f: Flag)
    requires Entries(s) && IsEntry(id, |s.History(id)|, f)
    requires forall o: FlagId :: v.History(o) == if o == id then s.History(o) + [f] else s.History(o)
    ensures Entries(v)
  {
    hide IsEntry;
    forall o: FlagId, r | 0 <= r < |v.History(o)| ensures IsEntry(o, r, v.History(o)[r]) {
      if r < |s.History(o)| { assert v.History(o)[r] == s.History(o)[r]; }
    }
  }

  lemma CommittingKeepsHistory(s: State, v: State, publish: nat, id: FlagId, f: Flag)
    requires HistorySound(s) && Committing(s, v, publish, id, f)
    ensures HistorySound(v)
  {
    CommittingExtends(s, v, publish, id, f);
    CommittingKeepsEntries(s, v, publish, id, f);
    CurrentCommitted(s);
    hide IsEntry, Committed, Entries;
    forall o | o in v.store.flags ensures Committed(v, o, v.store.flags[o]) {
      if o != id { assert Committed(s, o, s.store.flags[o]); }
    }
  }

  lemma CommittingKeepsEntries(s: State, v: State, publish: nat, id: FlagId, f: Flag)
    requires HistorySound(s) && Committing(s, v, publish, id, f)
    ensures Entries(v)
  {
    CommittingExtends(s, v, publish, id, f);
    assert |s.History(id)| == s.store.Revision(id);
    assert IsEntry(id, |s.History(id)|, f);
    hide Valid, ValidKey, Committed, IsEntry;
    EntriesExtend(s, v, id, f);
  }

  lemma CommittingKeepsProjection(s: State, v: State, publish: nat, id: FlagId, f: Flag)
    requires ProjectionSound(s) && Committing(s, v, publish, id, f)
    requires forall o: FlagId, g :: Committed(s, o, g) ==> Committed(v, o, g)
    requires Committed(v, id, f)
    ensures ProjectionSound(v)
  {
    hide Valid, ValidKey, Committed;
    forall o | v.up && o in v.store.flags
      ensures (o in v.projection && v.projection[o] == v.store.flags[o]) || Awaited(v, o)
    {
      if o == id {
        assert v.pending[publish] == Put(id, f);
      } else if Awaited(s, o) {
        var p :| p in s.pending && s.pending[p] == Put(o, s.store.flags[o]);
        assert v.pending[p] == s.pending[p];
      }
    }
  }

  ghost predicate Delivering(s: State, v: State, publish: nat) {
    && publish in s.pending
    && v.store == s.store && v.history == s.history && v.up == s.up
    && v.pending == s.pending - {publish}
    && v.projection == PutStep(s.projection, s.pending[publish].id, s.pending[publish].flag)
  }

  lemma DeliveringKeepsWaiting(s: State, v: State, publish: nat, o: FlagId)
    requires Sound(s) && Delivering(s, v, publish) && s.up && o in v.store.flags
    ensures (o in v.projection && v.projection[o] == v.store.flags[o]) || Awaited(v, o)
  {
    var put := s.pending[publish];
    assert Committed(s, put.id, put.flag);
    assert o in s.projection ==> Committed(s, o, s.projection[o]);
    assert (o in s.projection && s.projection[o] == s.store.flags[o]) || Awaited(s, o);
    CurrentIsLatest(s, o, put.flag);
    if o in s.projection { CurrentIsLatest(s, o, s.projection[o]); }
    hide HistorySound, ProjectionSound, Committed, Awaited;
    DeliveredOrAwaited(s, v, publish, o);
  }

  lemma DeliveringKeepsCommitted(s: State, v: State, publish: nat)
    requires ProjectionSound(s) && Delivering(s, v, publish)
    requires forall o: FlagId, f :: Committed(s, o, f) ==> Committed(v, o, f)
    ensures forall o | o in v.projection :: Committed(v, o, v.projection[o])
    ensures forall p | p in v.pending :: Committed(v, v.pending[p].id, v.pending[p].flag)
  {
    hide Committed, Awaited;
    forall p | p in v.pending ensures Committed(v, v.pending[p].id, v.pending[p].flag) {
      assert v.pending[p] == s.pending[p];
      assert Committed(s, s.pending[p].id, s.pending[p].flag);
    }
    forall o | o in v.projection ensures Committed(v, o, v.projection[o]) {
      var put := s.pending[publish];
      if o == put.id && v.projection[o] == put.flag {
        assert Committed(s, put.id, put.flag);
      } else {
        assert Committed(s, o, s.projection[o]);
      }
    }
  }

  lemma DeliveringKeepsSound(s: State, v: State, publish: nat)
    requires Sound(s) && Delivering(s, v, publish) && s.up
    ensures Sound(v)
  {
    SameHistory(s, v);
    DeliveringKeepsCommitted(s, v, publish);
    hide HistorySound, Committed, Awaited, Delivering;
    forall o | o in v.store.flags
      ensures (o in v.projection && v.projection[o] == v.store.flags[o]) || Awaited(v, o)
    {
      DeliveringKeepsWaiting(s, v, publish, o);
    }
  }

  lemma DeliveredOrAwaited(s: State, v: State, publish: nat, o: FlagId)
    requires publish in s.pending && v.store == s.store && v.pending == s.pending - {publish}
    requires v.projection == PutStep(s.projection, s.pending[publish].id, s.pending[publish].flag)
    requires o in s.store.flags
    requires (o in s.projection && s.projection[o] == s.store.flags[o]) || Awaited(s, o)
    requires o in s.projection && s.projection[o].revision >= s.store.flags[o].revision ==> s.projection[o] == s.store.flags[o]
    requires s.pending[publish].id == o ==>
      && s.pending[publish].flag.revision <= s.store.flags[o].revision
      && (s.pending[publish].flag.revision == s.store.flags[o].revision ==> s.pending[publish].flag == s.store.flags[o])
    ensures (o in v.projection && v.projection[o] == v.store.flags[o]) || Awaited(v, o)
  {
    if !(o in s.projection && s.projection[o] == s.store.flags[o]) {
      var p :| p in s.pending && s.pending[p] == Put(o, s.store.flags[o]);
      if p != publish { assert p in v.pending && v.pending[p] == s.pending[p]; }
    }
  }

  /** The store's definition is the newest committed, and the only one at its revision. */
  lemma CurrentIsLatest(s: State, id: FlagId, f: Flag)
    requires HistorySound(s) && id in s.store.flags
    ensures Committed(s, id, f) ==> f.revision <= s.store.flags[id].revision
    ensures Committed(s, id, f) && f.revision == s.store.flags[id].revision ==> f == s.store.flags[id]
  {
    hide Valid, ValidKey;
    assert |s.History(id)| == s.store.Revision(id);
  }

  lemma SameHistory(s: State, v: State)
    requires HistorySound(s) && v.store == s.store && v.history == s.history
    ensures HistorySound(v)
    ensures forall o: FlagId, g :: Committed(s, o, g) <==> Committed(v, o, g)
  {
    hide Valid, ValidKey;
    assert forall o: FlagId :: v.History(o) == s.History(o);
    forall o: FlagId ensures |v.History(o)| == v.store.Revision(o) {
      assert |s.History(o)| == s.store.Revision(o);
    }
  }

  lemma MoveKeepsSound(s: State, m: Move)
    requires Sound(s) && Allowed(s, m)
    ensures Sound(After(s, m))
  {
    hide HistorySound, Valid, ValidKey, Accepts, PublishStep;
    match m
    case Commit(publish, environment, f, _, _, _, _) =>
      CommitCommits(s, m);
      if After(s, m) != s {
        var id := FlagId(environment, f.key);
        var g :| Committing(s, After(s, m), publish, id, g);
        CommittingExtends(s, After(s, m), publish, id, g);
        CommittingKeepsHistory(s, After(s, m), publish, id, g);
        CommittingKeepsProjection(s, After(s, m), publish, id, g);
      }
    case Deliver(publish) => DeliveringKeepsSound(s, After(s, m), publish);
    case Crash => SameHistory(s, After(s, m));
    case Reopen =>
      SameHistory(s, After(s, m));
      CurrentCommitted(s);
  }

  lemma CurrentCommitted(s: State)
    requires HistorySound(s)
    ensures forall id | id in s.store.flags :: Committed(s, id, s.store.flags[id])
    ensures forall id: FlagId :: |s.History(id)| == s.store.Revision(id)
  {
  }

  lemma {:induction false} AlwaysSound(ss: seq<State>, moves: seq<Move>, i: nat)
    requires Behavior(ss, moves) && i < |ss|
    ensures Sound(ss[i])
    decreases i
  {
    hide After, Allowed;
    if i > 0 {
      AlwaysSound(ss, moves, i - 1);
      MoveKeepsSound(ss[i - 1], moves[i - 1]);
    }
  }

  // ---------------------------------------------------------------------------------------
  // What readers see
  // ---------------------------------------------------------------------------------------

  function Projected(s: State, id: FlagId): int {
    if id in s.projection then s.projection[id].revision else 0
  }

  /** The projection never runs ahead of the store. */
  lemma ProjectionNeverLeads(ss: seq<State>, moves: seq<Move>, i: nat, id: FlagId)
    requires Behavior(ss, moves) && i < |ss|
    ensures Projected(ss[i], id) <= ss[i].store.Revision(id)
  {
    hide After, Allowed, Valid;
    AlwaysSound(ss, moves, i);
    assert |ss[i].History(id)| == ss[i].store.Revision(id);
  }

  /** One move never lowers a committed revision, nor, while the service stays up, a projected
      one. */
  lemma MoveNeverRegresses(s: State, m: Move, id: FlagId)
    requires Allowed(s, m) && ProjectionSound(s)
    ensures s.store.Revision(id) <= After(s, m).store.Revision(id)
    ensures s.History(id) <= After(s, m).History(id)
    ensures s.up && After(s, m).up ==> Projected(s, id) <= Projected(After(s, m), id)
    ensures !s.up && After(s, m).up ==> Projected(After(s, m), id) == s.store.Revision(id)
  {
  }

  /** Between any two moments the service is up, across any crashes and reopenings and any
      order of puts, no flag's projected revision goes back. */
  lemma {:induction false} ProjectionNeverRegresses(ss: seq<State>, moves: seq<Move>, i: nat, j: nat, id: FlagId)
    requires Behavior(ss, moves) && i <= j < |ss|
    ensures ss[i].History(id) <= ss[j].History(id)
    ensures ss[i].store.Revision(id) <= ss[j].store.Revision(id)
    ensures ss[i].up && ss[j].up ==> Projected(ss[i], id) <= Projected(ss[j], id)
    decreases j
  {
    hide After, Allowed;
    if i < j {
      ProjectionNeverRegresses(ss, moves, i, j - 1, id);
      AlwaysSound(ss, moves, j - 1);
      hide HistorySound, ProjectionSound;
      MoveNeverRegresses(ss[j - 1], moves[j - 1], id);
      ProjectionNeverLeads(ss, moves, i, id);
    }
  }

  /** A publish that has returned its revision is visible from then on: whenever the service is
      up, the flag is projected at that revision or a later one. */
  lemma ReturnedIsVisible(ss: seq<State>, moves: seq<Move>, i: nat, j: nat)
    requires Behavior(ss, moves) && i < |moves| && i < j < |ss|
    requires moves[i].Deliver? && ss[j].up
    ensures moves[i].publish in ss[i].pending
    ensures var put := ss[i].pending[moves[i].publish];
      put.id in ss[j].projection && put.flag.revision <= ss[j].projection[put.id].revision
  {
    AlwaysSound(ss, moves, i);
    assert Allowed(ss[i], moves[i]) && ss[i + 1] == After(ss[i], moves[i]);
    ProjectionNeverRegresses(ss, moves, i + 1, j, ss[i].pending[moves[i].publish].id);
  }

  /** With nothing on its way the projection is the store. */
  lemma DrainedIsEqual(ss: seq<State>, moves: seq<Move>, i: nat)
    requires Behavior(ss, moves) && i < |ss| && ss[i].up && ss[i].pending == map[]
    ensures ss[i].projection == ss[i].store.flags
  {
    hide After, Allowed;
    AlwaysSound(ss, moves, i);
    hide Sound;
    Drained(ss[i]);
  }

  lemma Drained(s: State)
    requires Sound(s) && s.up && s.pending == map[]
    ensures s.projection == s.store.flags
  {
    hide Sound;
    ProjectedIsStored(s);
    StoredIsProjected(s);
    SameFlags(s.projection, s.store.flags);
  }

  lemma SameFlags(a: Flagset, b: Flagset)
    requires forall id | id in a :: id in b
    requires forall id | id in b :: id in a && a[id] == b[id]
    ensures a == b
  {
    assert a.Keys == b.Keys;
  }

  lemma StoredIsProjected(s: State)
    requires Sound(s) && s.up && s.pending == map[]
    ensures forall id | id in s.store.flags :: id in s.projection && s.projection[id] == s.store.flags[id]
  {
    hide HistorySound, Committed;
    forall id | id in s.store.flags ensures id in s.projection && s.projection[id] == s.store.flags[id] {
      assert !Awaited(s, id);
    }
  }

  lemma ProjectedIsStored(s: State)
    requires Sound(s)
    ensures forall id | id in s.projection :: id in s.store.flags
  {
    CurrentCommitted(s);
    hide HistorySound;
    forall id | id in s.projection ensures id in s.store.flags {
      assert Committed(s, id, s.projection[id]) && |s.History(id)| == s.store.Revision(id);
    }
  }

  /** Reopening after a crash at any point restores equality. */
  lemma ReopeningRestores(ss: seq<State>, moves: seq<Move>, i: nat)
    requires Behavior(ss, moves) && i < |moves| && moves[i].Reopen?
    ensures ss[i + 1].projection == ss[i].store.flags == ss[i + 1].store.flags
    ensures ss[i + 1].pending == map[]
  {
    NothingPendingWhileDown(ss, moves, i);
  }

  lemma {:induction false} NothingPendingWhileDown(ss: seq<State>, moves: seq<Move>, i: nat)
    requires Behavior(ss, moves) && i < |ss|
    ensures !ss[i].up ==> ss[i].pending == map[]
    decreases i
  {
    if i > 0 { NothingPendingWhileDown(ss, moves, i - 1); }
  }

  lemma ProjectedIsValid(ss: seq<State>, moves: seq<Move>, i: nat, id: FlagId)
    requires Behavior(ss, moves) && i < |ss| && id in ss[i].projection
    ensures Valid(ss[i].projection[id]) && ss[i].projection[id].key == id.key
  {
    hide After, Allowed, Valid, ValidKey;
    AlwaysSound(ss, moves, i);
    var f := ss[i].projection[id];
    assert Committed(ss[i], id, f);
    assert IsEntry(id, f.revision - 1, f);
  }

  /** In every reachable state every projected flag evaluates to a defined variant of its kind for
      every usable context: the first rule whose attribute carries its value decides, then the
      rollout, and otherwise the default. */
  lemma ProjectedFlagsEvaluate(ss: seq<State>, moves: seq<Move>, i: nat, id: FlagId, digest: Digest, context: Context)
    requires Behavior(ss, moves) && i < |ss| && id in ss[i].projection
    requires "targetingKey" in context && context["targetingKey"].StringValue? && context["targetingKey"].text != ""
    ensures var f := ss[i].projection[id];
      var r := Flags.Evaluate(digest, f, context);
      && Valid(f) && f.key == id.key
      && r.Ok? && r.value.variant in f.variants && r.value.value == f.variants[r.value.variant]
      && (f.kind == Boolean <==> r.value.value.BooleanValue?) && (f.kind == String <==> r.value.value.StringValue?)
      && r.value.key == id.key && r.value.revision == f.revision
    ensures var f := ss[i].projection[id];
      var e := Flags.Evaluate(digest, f, context).value;
      && (e.reason == Disabled <==> !f.enabled)
      && (e.reason in {Disabled, Static} ==> e.variant == f.defaultVariant)
      && (e.reason == Split <==>
            && f.enabled
            && (forall k | 0 <= k < |f.rules| ::
                  !(f.rules[k].attribute in context && context[f.rules[k].attribute] == StringValue(f.rules[k].equals)))
            && f.rollout.Some?
            && var rollout := f.rollout.value;
            && rollout.attribute in context && context[rollout.attribute].StringValue?
            && digest(f.key + "\0" + context[rollout.attribute].text) % 10_000 < 100 * rollout.percentage)
      && (forall k | 0 <= k < |f.rules| && f.enabled
                     && f.rules[k].attribute in context && context[f.rules[k].attribute] == StringValue(f.rules[k].equals)
                     && (forall o | 0 <= o < k ::
                           !(f.rules[o].attribute in context && context[f.rules[o].attribute] == StringValue(f.rules[o].equals))) ::
            e.reason == TargetingMatch && e.variant == f.rules[k].variant)
  {
    ProjectedIsValid(ss, moves, i, id);
    hide Behavior, Valid, Flags.Evaluate;
    EvaluationIsDefined(digest, ss[i].projection[id], context);
  }

  /** And contexts that agree on the approved attributes get the same evaluation from it. */
  lemma ProjectedFlagsAgree(ss: seq<State>, moves: seq<Move>, i: nat, id: FlagId, digest: Digest, c: Context, d: Context)
    requires Behavior(ss, moves) && i < |ss| && id in ss[i].projection
    requires forall a | a in ATTRIBUTES :: a in c <==> a in d
    requires forall a | a in ATTRIBUTES && a in c :: c[a] == d[a]
    ensures Flags.Evaluate(digest, ss[i].projection[id], c) == Flags.Evaluate(digest, ss[i].projection[id], d)
  {
    ProjectedIsValid(ss, moves, i, id);
    hide Behavior, Valid, Flags.Evaluate;
    ApprovedAttributesDecide(digest, ss[i].projection[id], c, d);
  }

  /** Anywhere in a run, a flag projected at a revision is the one definition ever committed at
      that revision. */
  lemma RevisionNamesDefinition(ss: seq<State>, moves: seq<Move>, i: nat, j: nat, id: FlagId)
    requires Behavior(ss, moves) && i < |ss| && j < |ss|
    requires id in ss[i].projection && id in ss[j].projection
    requires ss[i].projection[id].revision == ss[j].projection[id].revision
    ensures ss[i].projection[id] == ss[j].projection[id]
  {
    hide After, Allowed, HistorySound;
    AlwaysSound(ss, moves, i);
    AlwaysSound(ss, moves, j);
    if i <= j { ProjectionNeverRegresses(ss, moves, i, j, id); } else { ProjectionNeverRegresses(ss, moves, j, i, id); }
    assert Committed(ss[i], id, ss[i].projection[id]) && Committed(ss[j], id, ss[j].projection[id]);
    hide ProjectionSound;
  }
}
