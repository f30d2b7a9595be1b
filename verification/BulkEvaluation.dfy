/** Bulk evaluation and its entity tag. The bytes hashed into the tag can be decoded in one way
    only, so within one environment an equal tag means an equal answer. */
module BulkEvaluation {
  import opened Wrappers
  import opened Flags
  import opened Listing
  import opened ProjectionRuns
  import opened Text

  // ---------------------------------------------------------------------------------------
  // The bytes
  // ---------------------------------------------------------------------------------------

  function Digit(d: nat): char
    requires d < 10
  {
    '0' + d as char
  }

  function Digits(n: nat): string {
    if n < 10 then [Digit(n)] else Digits(n / 10) + [Digit(n % 10)]
  }

  /** A revision as the formatter prints it. */
  function Decimal(n: int): string {
    if n < 0 then "-" + Digits(-n) else Digits(n)
  }

  function ReadDigits(s: string): int {
    if s == "" then 0 else ReadDigits(s[..|s| - 1]) * 10 + (s[|s| - 1] as int - '0' as int)
  }

  lemma {:induction false} DigitsRoundTrip(n: nat)
    ensures ReadDigits(Digits(n)) == n
    ensures |Digits(n)| > 0 && forall i | 0 <= i < |Digits(n)| :: '0' <= Digits(n)[i] <= '9'
  {
    if n >= 10 {
      DigitsRoundTrip(n / 10);
      assert Digits(n)[..|Digits(n)| - 1] == Digits(n / 10);
    } else {
      assert Digits(n)[..0] == "";
    }
  }

  lemma DecimalIsInjective(a: int, b: int)
    requires Decimal(a) == Decimal(b)
    ensures a == b
  {
    DigitsRoundTrip(if a < 0 then -a else a);
    DigitsRoundTrip(if b < 0 then -b else b);
    assert (Decimal(a)[0] == '-' <==> a < 0) && (Decimal(b)[0] == '-' <==> b < 0);
    if a < 0 && b < 0 {
      assert Decimal(a)[1..] == Digits(-a) && Decimal(b)[1..] == Digits(-b);
    }
  }

  lemma DecimalIsPlain(n: int)
    ensures '\0' !in Decimal(n)
  {
    DigitsRoundTrip(if n < 0 then -n else n);
  }

  /** One flag's share of the bytes. */
  function Record(f: Flag): string {
    f.key + ":" + Decimal(f.revision) + "\0"
  }

  function PreHash(listed: seq<Flag>, encoded: string): string {
    if listed == [] then encoded else Record(listed[0]) + PreHash(listed[1..], encoded)
  }

  lemma ValidKeyIsPlain(key: string)
    requires ValidKey(key)
    ensures ':' !in key && '\0' !in key
  {
  }

  /** The bytes start with one record and go on with the rest in one way only. */
  lemma RecordsSplit(s: Flag, t: Flag, p: string, q: string)
    requires ValidKey(s.key) && ValidKey(t.key) && Record(s) + p == Record(t) + q
    ensures s.key == t.key && s.revision == t.revision && p == q
  {
    ValidKeyIsPlain(s.key);
    ValidKeyIsPlain(t.key);
    DecimalIsPlain(s.revision);
    DecimalIsPlain(t.revision);
    hide ValidKey, Decimal;
    var x, y := Decimal(s.revision), Decimal(t.revision);
    assert Record(s) + p == s.key + [':'] + (x + ['\0'] + p);
    assert Record(t) + q == t.key + [':'] + (y + ['\0'] + q);
    SplitsOnce(s.key, t.key, ':', x + ['\0'] + p, y + ['\0'] + q);
    SplitsOnce(x, y, '\0', p, q);
    DecimalIsInjective(s.revision, t.revision);
  }

  /** The bytes determine the keys, the revisions and the encoded context. */
  lemma {:induction false} PreHashDecodes(a: seq<Flag>, b: seq<Flag>, c: string, d: string)
    requires forall i | 0 <= i < |a| :: ValidKey(a[i].key)
    requires forall i | 0 <= i < |b| :: ValidKey(b[i].key)
    requires '\0' !in c && '\0' !in d
    requires PreHash(a, c) == PreHash(b, d)
    ensures c == d && |a| == |b|
    ensures forall i | 0 <= i < |a| :: a[i].key == b[i].key && a[i].revision == b[i].revision
    decreases |a|
  {
    HeaderShows(a, c);
    HeaderShows(b, d);
    if a != [] && b != [] {
      hide ValidKey, Record;
      RecordsSplit(a[0], b[0], PreHash(a[1..], c), PreHash(b[1..], d));
      PreHashDecodes(a[1..], b[1..], c, d);
      forall i | 0 <= i < |a| ensures a[i].key == b[i].key && a[i].revision == b[i].revision {
        if i > 0 { assert a[i] == a[1..][i - 1] && b[i] == b[1..][i - 1]; }
      }
    }
  }

  lemma HeaderShows(listed: seq<Flag>, encoded: string)
    ensures listed != [] ==> '\0' in PreHash(listed, encoded)
    ensures listed == [] ==> PreHash(listed, encoded) == encoded
  {
    if listed != [] {
      var r := Record(listed[0]);
      assert PreHash(listed, encoded)[|r| - 1] == '\0';
    }
  }

  // ---------------------------------------------------------------------------------------
  // The answer
  // ---------------------------------------------------------------------------------------

  datatype Item = Success(evaluation: Evaluation) | Failure(key: string, code: string)

  function ItemOf(digest: Digest, f: Flag, context: Context): Item {
    match Evaluate(digest, f, context)
    case Ok(evaluation) => Success(evaluation)
    case Err(_) => Failure(f.key, "GENERAL")
  }

  function Body(digest: Digest, listed: seq<Flag>, context: Context): seq<Item> {
    seq(|listed|, i requires 0 <= i < |listed| => ItemOf(digest, listed[i], context))
  }

  datatype Response = NotModified | Evaluated(items: seq<Item>, version: string)

  function Tag(hash: string -> string, listed: seq<Flag>, encoded: string): string {
    "\"" + hash(PreHash(listed, encoded)) + "\""
  }

  method EvaluationETag(hash: string -> string, listed: seq<Flag>, encoded: string) returns (etag: string)
    ensures etag == Tag(hash, listed, encoded)
  {
    var bytes := "";
    for i := 0 to |listed|
      invariant bytes + PreHash(listed[i..], encoded) == PreHash(listed, encoded)
    {
      PreHashStep(bytes, listed, i, encoded);
      bytes := bytes + (listed[i].key + ":" + Decimal(listed[i].revision) + "\0");
    }
    assert listed[|listed|..] == [];
    bytes := bytes + encoded;
    etag := "\"" + hash(bytes) + "\"";
  }

  /** A record moves from what is left to what is written. */
  lemma PreHashStep(bytes: string, listed: seq<Flag>, i: nat, encoded: string)
    requires i < |listed|
    ensures bytes + PreHash(listed[i..], encoded) == bytes + Record(listed[i]) + PreHash(listed[i + 1..], encoded)
  {
    assert listed[i..][0] == listed[i] && listed[i..][1..] == listed[i + 1..];
    assert PreHash(listed[i..], encoded) == Record(listed[i]) + PreHash(listed[i + 1..], encoded);
    hide PreHash, Record;
  }

  method EvaluateAll(
      digest: Digest, hash: string -> string, listed: seq<Flag>, context: Context, encoded: string, ifNoneMatch: string)
    returns (etag: string, response: Response)
    ensures etag == Tag(hash, listed, encoded)
    ensures response == NotModified <==> ifNoneMatch == etag
    ensures response.Evaluated? ==>
      response.items == Body(digest, listed, context) && "\"" + response.version + "\"" == etag
    ensures response.Evaluated? ==> |response.items| == |listed|
    ensures response.Evaluated? ==> forall i, e | 0 <= i < |listed| ::
      response.items[i] == Success(e) <==> Flags.Evaluate(digest, listed[i], context) == Ok(e)
    ensures response.Evaluated? ==> forall i | 0 <= i < |listed| && Flags.Evaluate(digest, listed[i], context).Err? ::
      response.items[i] == Failure(listed[i].key, "GENERAL")
  {
    etag := EvaluationETag(hash, listed, encoded);
    if ifNoneMatch == etag {
      return etag, NotModified;
    }
    var items := [];
    for i := 0 to |listed|
      invariant items == Body(digest, listed[..i], context)
    {
      items := items + [ItemOf(digest, listed[i], context)];
    }
    assert listed[..|listed|] == listed;
    return etag, Evaluated(items, etag[1..|etag| - 1]);
  }

  /** In every reachable state the bulk answer for an environment holds, for each flag projected
      there and for no other, exactly what evaluating that flag alone gives. */
  lemma BulkIsSingles(
      ss: seq<State>, moves: seq<Move>, i: nat, environment: string, listed: seq<Flag>, digest: Digest, context: Context)
    requires Behavior(ss, moves) && i < |ss| && Lists(ss[i].projection, environment, listed)
    ensures |Body(digest, listed, context)| == |listed|
    ensures forall k, e | 0 <= k < |listed| ::
      Body(digest, listed, context)[k] == Success(e)
      <==> FlagId(environment, listed[k].key) in ss[i].projection
           && Flags.Evaluate(digest, ss[i].projection[FlagId(environment, listed[k].key)], context) == Ok(e)
    ensures forall k | 0 <= k < |listed| :: Body(digest, listed, context)[k].Failure? ==>
      Body(digest, listed, context)[k] == Failure(listed[k].key, "GENERAL")
      && !("targetingKey" in context && context["targetingKey"].StringValue? && context["targetingKey"].text != "")
    ensures forall id, e | id in ss[i].projection && id.environment == environment
                           && Flags.Evaluate(digest, ss[i].projection[id], context) == Ok(e) ::
      Success(e) in Body(digest, listed, context)
  {
    hide Behavior, Flags.Evaluate;
    forall k | 0 <= k < |listed| { EvaluationFailsExactly(digest, listed[k], context); }
    forall id, e | id in ss[i].projection && id.environment == environment
                   && Flags.Evaluate(digest, ss[i].projection[id], context) == Ok(e)
      ensures Success(e) in Body(digest, listed, context)
    {
      var k :| 0 <= k < |listed| && listed[k] == ss[i].projection[id];
      assert Body(digest, listed, context)[k] == Success(e);
    }
  }

  /** An encoding of contexts that keeps them apart and never writes a raw NUL. */
  ghost predicate Faithful(encode: Context -> string) {
    && (forall c: Context :: '\0' !in encode(c))
    && (forall c: Context, d: Context :: encode(c) == encode(d) ==> c == d)
  }

  /** Anywhere in a run, two moments of one environment and two contexts with equal bytes have the
      same flags, the same context, and so the same bulk answer. */
  lemma EqualBytesEqualAnswer(
      ss: seq<State>, moves: seq<Move>, i: nat, j: nat, environment: string,
      a: seq<Flag>, b: seq<Flag>, encode: Context -> string, c: Context, d: Context, digest: Digest)
    requires Behavior(ss, moves) && i < |ss| && j < |ss|
    requires Lists(ss[i].projection, environment, a) && Lists(ss[j].projection, environment, b)
    requires Faithful(encode)
    requires PreHash(a, encode(c)) == PreHash(b, encode(d))
    ensures a == b && c == d
    ensures Body(digest, a, c) == Body(digest, b, d)
  {
    hide After, Allowed;
    ListedKeysAreValid(ss, moves, i, environment, a);
    ListedKeysAreValid(ss, moves, j, environment, b);
    PreHashDecodes(a, b, encode(c), encode(d));
    forall k | 0 <= k < |a| ensures a[k] == b[k] {
      RevisionNamesDefinition(ss, moves, i, j, FlagId(environment, a[k].key));
    }
  }

  lemma ListedKeysAreValid(ss: seq<State>, moves: seq<Move>, i: nat, environment: string, listed: seq<Flag>)
    requires Behavior(ss, moves) && i < |ss| && Lists(ss[i].projection, environment, listed)
    ensures forall k | 0 <= k < |listed| :: ValidKey(listed[k].key)
  {
    AlwaysSound(ss, moves, i);
    forall k | 0 <= k < |listed| ensures ValidKey(listed[k].key) {
      assert Committed(ss[i], FlagId(environment, listed[k].key), listed[k]);
      assert IsEntry(FlagId(environment, listed[k].key), listed[k].revision - 1, listed[k]);
    }
  }

  /** A not-modified answer is sound: a client that kept the tag and body of an earlier answer in
      the environment is told so only when the body it would get now is the one it has,
      unless the hash collides on the two inputs. */
  lemma NotModifiedIsSound(
      ss: seq<State>, moves: seq<Move>, i: nat, j: nat, environment: string,
      kept: seq<Flag>, listed: seq<Flag>, encode: Context -> string, keptContext: Context, context: Context,
      digest: Digest, hash: string -> string)
    requires Behavior(ss, moves) && i < |ss| && j < |ss|
    requires Lists(ss[i].projection, environment, kept) && Lists(ss[j].projection, environment, listed)
    requires Faithful(encode)
    requires var x, y := PreHash(kept, encode(keptContext)), PreHash(listed, encode(context));
      hash(x) == hash(y) ==> x == y
    requires Tag(hash, kept, encode(keptContext)) == Tag(hash, listed, encode(context))
    ensures Body(digest, kept, keptContext) == Body(digest, listed, context)
  {
    var x, y := PreHash(kept, encode(keptContext)), PreHash(listed, encode(context));
    var s, t := Tag(hash, kept, encode(keptContext)), Tag(hash, listed, encode(context));
    assert hash(x) == s[1..|s| - 1] && hash(y) == t[1..|t| - 1];
    EqualBytesEqualAnswer(ss, moves, i, j, environment, kept, listed, encode, keptContext, context, digest);
  }
}
