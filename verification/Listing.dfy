/** Listings of an environment's flags in key order, and why there is only one. */
module Listing {
  import opened Flags
  import opened Text

  datatype FlagId = FlagId(environment: string, key: string)

  type Flagset = map<FlagId, Flag>

  predicate Sorted(listed: seq<Flag>) {
    forall i, j | 0 <= i < j < |listed| :: Less(listed[i].key, listed[j].key)
  }

  /** The listing of an environment: every flag of it, once, in key order. */
  ghost predicate Lists(flags: Flagset, environment: string, listed: seq<Flag>) {
    && Sorted(listed)
    && (forall i | 0 <= i < |listed| :: FlagId(environment, listed[i].key) in flags && flags[FlagId(environment, listed[i].key)] == listed[i])
    && (forall id | id in flags && id.environment == environment :: flags[id] in listed)
  }

  lemma {:induction false} SortedIsUnique(a: seq<Flag>, b: seq<Flag>)
    requires Sorted(a) && Sorted(b)
    requires forall f :: f in a <==> f in b
    ensures a == b
    decreases |a|
  {
    HasMember(b);
    if a != [] {
      assert a[0] in b;
      var j :| 0 <= j < |b| && b[j] == a[0];
      assert b[0] in a;
      var k :| 0 <= k < |a| && a[k] == b[0];
      LessIsTotal(a[0].key, b[0].key);
      assert j == 0 && a[0] == b[0];
      forall f ensures f in a[1..] <==> f in b[1..] {
        TailMembers(a, f);
        TailMembers(b, f);
      }
      SortedIsUnique(a[1..], b[1..]);
      assert a == [a[0]] + a[1..] && b == [b[0]] + b[1..];
    }
  }

  lemma HasMember(a: seq<Flag>)
    ensures a != [] ==> exists f :: f in a
  {
    if a != [] { assert a[0] in a; }
  }

  lemma TailMembers(a: seq<Flag>, f: Flag)
    requires Sorted(a) && a != []
    ensures f in a[1..] <==> f in a && f != a[0]
  {
    if f in a[1..] {
      var i :| 0 <= i < |a[1..]| && a[1..][i] == f;
      assert a[i + 1] == f;
      LessIsTotal(a[0].key, f.key);
    }
    if f in a && f != a[0] {
      var i :| 0 <= i < |a| && a[i] == f;
      assert a[1..][i - 1] == f;
    }
  }

  /** A set of flags has one listing per environment. */
  lemma ListingIsUnique(flags: Flagset, environment: string, a: seq<Flag>, b: seq<Flag>)
    requires Lists(flags, environment, a) && Lists(flags, environment, b)
    ensures a == b
  {
    forall f ensures f in a <==> f in b {
      if f in a {
        var i :| 0 <= i < |a| && a[i] == f;
        assert flags[FlagId(environment, f.key)] in b;
      }
      if f in b {
        var i :| 0 <= i < |b| && b[i] == f;
        assert flags[FlagId(environment, f.key)] in a;
      }
    }
    SortedIsUnique(a, b);
  }

  lemma LeastExists(keys: set<string>) returns (least: string)
    requires keys != {}
    ensures least in keys && forall k | k in keys && k != least :: Less(least, k)
    decreases |keys|
  {
    var k :| k in keys;
    if keys == {k} {
      least := k;
    } else {
      var rest := keys - {k};
      assert keys == rest + {k};
      least := LeastExists(rest);
      LessIsTotal(k, least);
      if Less(k, least) {
        forall o | o in rest && o != least ensures Less(k, o) { LessIsTransitive(k, least, o); }
        least := k;
      }
    }
  }

  /** The flags of one environment's map, in key order. */
  method ListSorted(current: map<string, Flag>) returns (listed: seq<Flag>)
    requires forall k | k in current :: current[k].key == k
    ensures Sorted(listed) && |listed| == |current|
    ensures forall i | 0 <= i < |listed| :: listed[i].key in current && current[listed[i].key] == listed[i]
    ensures forall k | k in current :: current[k] in listed
  {
    listed := [];
    var rest := current.Keys;
    while rest != {}
      invariant rest <= current.Keys && Sorted(listed) && |listed| + |rest| == |current|
      invariant forall i | 0 <= i < |listed| :: listed[i].key in current && current[listed[i].key] == listed[i]
      invariant forall i, k | 0 <= i < |listed| && k in rest :: Less(listed[i].key, k)
      invariant forall k | k in current && k !in rest :: current[k] in listed
      decreases |rest|
    {
      ghost var least := LeastExists(rest);
      hide Less;
      var k :| k in rest && forall o | o in rest && o != k :: Less(k, o);
      listed := listed + [current[k]];
      rest := rest - {k};
    }
  }

  // ---------------------------------------------------------------------------------------
  // Flags nested by environment
  // ---------------------------------------------------------------------------------------

  type Nested = map<string, map<string, Flag>>

  ghost function Flatten(nested: Nested): Flagset {
    map e, k | e in nested && k in nested[e] :: FlagId(e, k) := nested[e][k]
  }

  ghost predicate Keyed(nested: Nested) {
    forall e, k | e in nested && k in nested[e] :: nested[e][k].key == k
  }

  function Inner(nested: Nested, environment: string): map<string, Flag> {
    if environment in nested then nested[environment] else map[]
  }

  lemma FlattenFinds(nested: Nested, id: FlagId)
    ensures id in Flatten(nested) <==> id.key in Inner(nested, id.environment)
    ensures id in Flatten(nested) ==> Flatten(nested)[id] == Inner(nested, id.environment)[id.key]
  {
  }

  /** Making room for an environment is invisible. */
  lemma FlattenTouch(nested: Nested, environment: string)
    requires Keyed(nested)
    ensures Keyed(nested[environment := Inner(nested, environment)])
    ensures Flatten(nested[environment := Inner(nested, environment)]) == Flatten(nested)
  {
    var touched := nested[environment := Inner(nested, environment)];
    FlattenSame(touched, Flatten(nested)) by {
      forall id { FlattenFinds(nested, id); }
      assert forall e :: Inner(touched, e) == Inner(nested, e);
    }
  }

  /** Writing under an environment is one update. */
  lemma FlattenUpdate(nested: Nested, environment: string, f: Flag)
    requires Keyed(nested)
    ensures Keyed(nested[environment := Inner(nested, environment)[f.key := f]])
    ensures Flatten(nested[environment := Inner(nested, environment)[f.key := f]])
         == Flatten(nested)[FlagId(environment, f.key) := f]
  {
    var written := nested[environment := Inner(nested, environment)[f.key := f]];
    FlattenSame(written, Flatten(nested)[FlagId(environment, f.key) := f]) by {
      forall id { FlattenFinds(nested, id); }
      hide Flatten;
      assert forall e :: Inner(written, e) == if e == environment then Inner(nested, e)[f.key := f] else Inner(nested, e);
    }
  }

  lemma FlattenSame(nested: Nested, flags: Flagset)
    requires forall id: FlagId :: id in flags <==> id.key in Inner(nested, id.environment)
    requires forall id: FlagId :: id in flags ==> flags[id] == Inner(nested, id.environment)[id.key]
    ensures Flatten(nested) == flags
  {
    forall id { FlattenFinds(nested, id); }
    hide Flatten;
    assert Flatten(nested).Keys == flags.Keys;
  }

  /** What ListSorted returns for an environment is its listing. */
  lemma ListedIsListing(nested: Nested, environment: string, listed: seq<Flag>)
    requires Keyed(nested) && Sorted(listed)
    requires forall i | 0 <= i < |listed| ::
      listed[i].key in Inner(nested, environment) && Inner(nested, environment)[listed[i].key] == listed[i]
    requires forall k | k in Inner(nested, environment) :: Inner(nested, environment)[k] in listed
    ensures Lists(Flatten(nested), environment, listed)
  {
    forall i | 0 <= i < |listed| { FlattenFinds(nested, FlagId(environment, listed[i].key)); }
    forall id | id in Flatten(nested) && id.environment == environment ensures Flatten(nested)[id] in listed {
      FlattenFinds(nested, id);
    }
  }
}
