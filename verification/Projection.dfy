/** The in-memory projection evaluations read, and the service that commits to the store first
    and projects later. Publishes run concurrently, so committed definitions reach the
    projection in any order. */
module Projection {
  import opened Wrappers
  import opened Flags
  import opened Listing
  import opened FlagStore

  // ---------------------------------------------------------------------------------------
  // The projection
  // ---------------------------------------------------------------------------------------

  /** Installs a committed definition unless one at least as new is already there. */
  function PutStep(projection: Flagset, id: FlagId, f: Flag): Flagset {
    if id in projection && projection[id].revision >= f.revision then projection else projection[id := f]
  }

  /** A list of flags as a map; of two flags with one key the later stays. */
  function IndexByKey(listed: seq<Flag>): map<string, Flag> {
    if listed == [] then map[]
    else IndexByKey(listed[..|listed| - 1])[listed[|listed| - 1].key := listed[|listed| - 1]]
  }

  /** Every flag that no later one overrides is found under its key. */
  lemma {:induction false} IndexFinds(listed: seq<Flag>)
    ensures forall k | k in IndexByKey(listed) :: IndexByKey(listed)[k] in listed && IndexByKey(listed)[k].key == k
    ensures forall i | 0 <= i < |listed| :: listed[i].key in IndexByKey(listed)
    ensures forall i | 0 <= i < |listed| && (forall j | i < j < |listed| :: listed[j].key != listed[i].key) ::
      IndexByKey(listed)[listed[i].key] == listed[i]
  {
    if listed != [] {
      var shorter := listed[..|listed| - 1];
      IndexFinds(shorter);
      assert listed == shorter + [listed[|listed| - 1]];
      assert forall i | 0 <= i < |shorter| :: shorter[i] == listed[i];
    }
  }

  class Memory {
    var flags: Nested

    constructor ()
      ensures flags == map[]
    {
      flags := map[];
    }

    method Replace(loaded: map<string, seq<Flag>>)
      modifies this
      ensures flags.Keys == loaded.Keys && forall e | e in loaded :: flags[e] == IndexByKey(loaded[e])
      ensures Keyed(flags)
    {
      var next: Nested := map[];
      var rest := loaded.Keys;
      while rest != {}
        invariant rest <= loaded.Keys && next.Keys == loaded.Keys - rest
        invariant forall e | e in next :: next[e] == IndexByKey(loaded[e])
        decreases |rest|
      {
        var e :| e in rest;
        rest := rest - {e};
        var index: map<string, Flag> := map[];
        for i := 0 to |loaded[e]|
          invariant index == IndexByKey(loaded[e][..i])
        {
          index := index[loaded[e][i].key := loaded[e][i]];
          assert loaded[e][..i + 1][..i] == loaded[e][..i];
        }
        assert loaded[e][..|loaded[e]|] == loaded[e];
        next := next[e := index];
      }
      forall e | e in next { IndexFinds(loaded[e]); }
      flags := next;
    }

    method Put(environment: string, f: Flag)
      requires Keyed(flags)
      modifies this
      ensures Keyed(flags)
      ensures Flatten(flags) == PutStep(old(Flatten(flags)), FlagId(environment, f.key), f)
    {
      hide Flatten, Keyed;
      FlattenFinds(flags, FlagId(environment, f.key));
      FlattenTouch(flags, environment);
      FlattenUpdate(flags, environment, f);
      ghost var nested := flags;
      var current := Inner(flags, environment);
      if environment !in flags {
        flags := flags[environment := current];
      }
      if f.key in current && current[f.key].revision >= f.revision {
        return;
      }
      flags := flags[environment := current[f.key := f]];
      assert flags == nested[environment := current[f.key := f]];
    }

    function Get(environment: string, key: string): (r: Option<Flag>)
      reads this
      ensures r.Some? <==> FlagId(environment, key) in Flatten(flags)
      ensures r.Some? ==> r.value == Flatten(flags)[FlagId(environment, key)]
    {
      if environment in flags && key in flags[environment] then Some(flags[environment][key]) else None
    }

    method List(environment: string) returns (listed: seq<Flag>)
      requires Keyed(flags)
      ensures Lists(Flatten(flags), environment, listed)
    {
      var current := Inner(flags, environment);
      listed := ListSorted(current);
      ListedIsListing(flags, environment, listed);
    }
  }

  /** Replacing the projection by what a store loads makes the two equal. */
  lemma ReplaceRestores(nested: Nested, loaded: map<string, seq<Flag>>, flags: Flagset)
    requires nested.Keys == loaded.Keys && forall e | e in loaded :: nested[e] == IndexByKey(loaded[e])
    requires forall e | e in loaded :: Lists(flags, e, loaded[e])
    requires forall id | id in flags :: id.environment in loaded && flags[id].key == id.key
    ensures Flatten(nested) == flags
  {
    forall id: FlagId
      ensures id in flags <==> id.key in Inner(nested, id.environment)
      ensures id in flags ==> flags[id] == Inner(nested, id.environment)[id.key]
    {
      if id.environment in loaded {
        var listed := loaded[id.environment];
        IndexFinds(listed);
        if id in flags {
          var i :| 0 <= i < |listed| && listed[i] == flags[id];
          assert id.key in IndexByKey(listed);
        }
        if id.key in IndexByKey(listed) {
          var i :| 0 <= i < |listed| && listed[i] == IndexByKey(listed)[id.key];
          assert FlagId(id.environment, listed[i].key) == id;
        }
      }
    }
    FlattenSame(nested, flags);
  }

  // ---------------------------------------------------------------------------------------
  // The service
  // ---------------------------------------------------------------------------------------

  predicate Space(c: char) {
    c in {'\t', '\n', 11 as char, 12 as char, '\r', ' ', 0x85 as char, 0xA0 as char, 0x1680 as char, 0x2028 as char,
          0x2029 as char, 0x202F as char, 0x205F as char, 0x3000 as char} || 0x2000 as char <= c <= 0x200A as char
  }

  /** The white space of Unicode, by code point. */
  lemma SpaceExactly(c: char)
    ensures Space(c) <==>
      || 9 <= c as int <= 13 || 0x2000 <= c as int <= 0x200A
      || c as int in {32, 133, 160, 5760, 8232, 8233, 8239, 8287, 12288}
  {
  }

  predicate Blank(s: string) {
    forall i | 0 <= i < |s| :: Space(s[i])
  }

  /** What publication accepts before it reaches the store. */
  predicate Accepts(environment: string, f: Flag, expected: int, actor: string) {
    !Blank(environment) && ValidKey(environment) && Valid(f) && expected >= 0 && !Blank(actor)
  }

  class Service {
    const store: MemoryStore
    const snapshot: Memory

    constructor (store: MemoryStore, snapshot: Memory)
      ensures this.store == store && this.snapshot == snapshot
    {
      this.store, this.snapshot := store, snapshot;
    }

    /** Opening over a store rebuilds the projection from it; a store that cannot be loaded leaves
        the projection as it was and gives no service. */
    static method Open(store: MemoryStore, snapshot: Memory, loads: bool) returns (r: Result<Service, Error>)
      requires store.Valid()
      modifies snapshot
      ensures r.Ok? <==> loads
      ensures r.Ok? ==> fresh(r.value) && r.value.store == store && r.value.snapshot == snapshot
      ensures r.Ok? ==> Keyed(snapshot.flags) && Flatten(snapshot.flags) == store.State().flags
      ensures r.Err? ==> r.error == StoreFailed && snapshot.flags == old(snapshot.flags)
    {
      if !loads {
        return Err(StoreFailed);
      }
      var loaded := store.Load();
      snapshot.Replace(loaded);
      forall id | id in store.State().flags ensures store.State().flags[id].key == id.key {
        FlattenFinds(store.flags, id);
      }
      ReplaceRestores(snapshot.flags, loaded, store.State().flags);
      var service := new Service(store, snapshot);
      return Ok(service);
    }

    method Publish(environment: string, f: Flag, expected: int, actor: string, now: int) returns (r: Result<Flag, Error>)
      requires store.Valid() && Keyed(snapshot.flags)
      modifies store, snapshot
      ensures store.Valid() && Keyed(snapshot.flags)
      ensures r == Err(Invalid) <==> !(ValidKey(environment) && Valid(f) && expected >= 0 && exists i :: 0 <= i < |actor| && !Space(actor[i]))
      ensures r == Err(Invalid) ==>
        store.State() == old(store.State()) && Flatten(snapshot.flags) == old(Flatten(snapshot.flags))
      ensures r != Err(Invalid) ==>
        && Accepts(environment, f, expected, actor)
        && (store.State(), r) == PublishStep(old(store.State()), environment, f, expected, actor, now)
        && Flatten(snapshot.flags) ==
             if r.Ok? then PutStep(old(Flatten(snapshot.flags)), FlagId(environment, f.key), r.value)
             else old(Flatten(snapshot.flags))
    {
      EnvironmentsAreNotBlank(environment);
      if Blank(environment) {
        return Err(Invalid);
      }
      var ok := ValidateKey(environment);
      if !ok {
        return Err(Invalid);
      }
      ok := Validate(f);
      if !ok {
        return Err(Invalid);
      }
      if expected < 0 {
        return Err(Invalid);
      }
      if Blank(actor) {
        return Err(Invalid);
      }
      hide Flatten, Keyed, Valid, ValidKey;
      r := store.Publish(environment, f, expected, actor, now);
      if r.Err? {
        return;
      }
      snapshot.Put(environment, r.value);
    }

    /** A single evaluation reads the projection and nothing else. */
    function Evaluate(digest: Digest, environment: string, key: string, context: Context): (r: Result<Evaluation, Error>)
      reads this, snapshot
      ensures ValidKey(environment) && FlagId(environment, key) in Flatten(snapshot.flags) ==>
        r == Flags.Evaluate(digest, Flatten(snapshot.flags)[FlagId(environment, key)], context)
      ensures ValidKey(environment) && FlagId(environment, key) !in Flatten(snapshot.flags) ==> r == Err(NotFound)
      ensures !ValidKey(environment) ==> r == Err(Invalid)
    {
      EnvironmentsAreNotBlank(environment);
      if Blank(environment) || !ValidKey(environment) then Err(Invalid)
      else match snapshot.Get(environment, key)
        case None => Err(NotFound)
        case Some(f) => Flags.Evaluate(digest, f, context)
    }
  }

  /** A valid environment is not blank. */
  lemma EnvironmentsAreNotBlank(environment: string)
    ensures ValidKey(environment) ==> !Blank(environment)
  {
    if ValidKey(environment) { assert KeyCharacter(environment[0]) && !Space(environment[0]); }
  }
}
