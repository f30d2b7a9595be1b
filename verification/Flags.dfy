/** Flag definitions, their validation, and their evaluation against a context. */
module Flags {
  import opened Wrappers

  /** A decoded JSON value; only booleans and strings matter to flags. */
  datatype Value = NullValue | BooleanValue(boolean: bool) | StringValue(text: string) | OtherValue(json: string)

  datatype Kind = Boolean | String | UnknownKind(name: string)

  datatype Rule = Rule(attribute: string, equals: string, variant: string)

  datatype Rollout = Rollout(attribute: string, percentage: int, variant: string)

  datatype Flag = Flag(
    key: string,
    kind: Kind,
    enabled: bool,
    defaultVariant: string,
    variants: map<string, Value>,
    rules: seq<Rule>,
    rollout: Option<Rollout>,
    revision: int,
    updatedAt: int)

  datatype Reason = Disabled | TargetingMatch | Static | Split

  datatype Evaluation = Evaluation(key: string, value: Value, reason: Reason, variant: string, revision: int)

  datatype Error = Conflict | Invalid | NotFound | StoreFailed

  type Context = map<string, Value>

  /** The first eight bytes of the hash of a text, as an unsigned number. */
  type Digest = string -> nat

  const ATTRIBUTES: set<string> := {"organization.id", "targetingKey"}

  const TWO_TO_THE_64: nat := 0x1_0000_0000_0000_0000

  const BUCKETS: nat := 10_000

  // ---------------------------------------------------------------------------------------
  // Validation
  // ---------------------------------------------------------------------------------------

  predicate KeyCharacter(c: char) {
    'a' <= c <= 'z' || 'A' <= c <= 'Z' || '0' <= c <= '9' || c == '.' || c == '_' || c == '-'
  }

  predicate ValidKey(key: string) {
    key != "" && forall i | 0 <= i < |key| :: KeyCharacter(key[i])
  }

  predicate VariantFits(kind: Kind, name: string, value: Value) {
    && name != ""
    && (kind == Boolean ==> value.BooleanValue?)
    && (kind == String ==> value.StringValue?)
  }

  predicate ValidRule(variants: map<string, Value>, rule: Rule) {
    rule.attribute in ATTRIBUTES && rule.equals != "" && rule.variant in variants
  }

  predicate ValidRollout(variants: map<string, Value>, rollout: Rollout) {
    rollout.attribute in ATTRIBUTES && 0 <= rollout.percentage <= 100 && rollout.variant in variants
  }

  predicate Valid(f: Flag) {
    && ValidKey(f.key)
    && (f.kind == Boolean || f.kind == String)
    && |f.variants| > 0
    && f.defaultVariant in f.variants
    && (forall name | name in f.variants :: VariantFits(f.kind, name, f.variants[name]))
    && (forall i | 0 <= i < |f.rules| :: ValidRule(f.variants, f.rules[i]))
    && (f.rollout.Some? ==> ValidRollout(f.variants, f.rollout.value))
  }

  method ValidateKey(key: string) returns (ok: bool)
    ensures ok <==> key != "" && forall i | 0 <= i < |key| ::
      'a' <= key[i] <= 'z' || 'A' <= key[i] <= 'Z' || '0' <= key[i] <= '9' || key[i] in {'.', '_', '-'}
    ensures ok <==> ValidKey(key)
  {
    if key == "" {
      return false;
    }
    for i := 0 to |key|
      invariant forall k | 0 <= k < i :: KeyCharacter(key[k])
    {
      if !KeyCharacter(key[i]) {
        return false;
      }
    }
    return true;
  }

  method ValidateRule(variants: map<string, Value>, rule: Rule) returns (ok: bool)
    ensures ok <==> rule.attribute in {"organization.id", "targetingKey"} && rule.equals != "" && rule.variant in variants
  {
    if rule.attribute !in ATTRIBUTES {
      return false;
    }
    if rule.equals == "" {
      return false;
    }
    return rule.variant in variants;
  }

  method ValidateRollout(variants: map<string, Value>, rollout: Rollout) returns (ok: bool)
    ensures ok <==>
      && rollout.attribute in {"organization.id", "targetingKey"}
      && 0 <= rollout.percentage <= 100 && rollout.variant in variants
  {
    if rollout.attribute !in ATTRIBUTES {
      return false;
    }
    if rollout.percentage < 0 || rollout.percentage > 100 {
      return false;
    }
    return rollout.variant in variants;
  }

  method ValidateVariant(kind: Kind, name: string, value: Value) returns (ok: bool)
    ensures ok <==> name != "" && (kind == Boolean ==> value.BooleanValue?) && (kind == String ==> value.StringValue?)
  {
    if name == "" {
      return false;
    }
    match kind {
      case Boolean => return value.BooleanValue?;
      case String => return value.StringValue?;
      case UnknownKind(_) => return true;
    }
  }

  /** Accepts exactly the definitions whose default, rules and rollout name defined variants of the
      flag's kind over approved attributes. */
  method Validate(f: Flag) returns (ok: bool)
    ensures ok <==>
      && ValidKey(f.key)
      && (f.kind == Boolean || f.kind == String)
      && f.defaultVariant in f.variants
      && (forall name | name in f.variants ::
            name != "" && (if f.kind == Boolean then f.variants[name].BooleanValue? else f.variants[name].StringValue?))
      && (forall i | 0 <= i < |f.rules| ::
            f.rules[i].attribute in {"organization.id", "targetingKey"} && f.rules[i].equals != "" && f.rules[i].variant in f.variants)
      && (f.rollout.Some? ==>
            && f.rollout.value.attribute in {"organization.id", "targetingKey"}
            && 0 <= f.rollout.value.percentage <= 100 && f.rollout.value.variant in f.variants)
    ensures ok <==> Valid(f)
  {
    ok := ValidateKey(f.key);
    if !ok {
      return;
    }
    if f.kind != Boolean && f.kind != String {
      return false;
    }
    if |f.variants| == 0 {
      return false;
    }
    if f.defaultVariant !in f.variants {
      return false;
    }
    var rest := f.variants.Keys;
    while rest != {}
      invariant rest <= f.variants.Keys
      invariant forall name | name in f.variants && name !in rest :: VariantFits(f.kind, name, f.variants[name])
      decreases |rest|
    {
      var name :| name in rest;
      rest := rest - {name};
      ok := ValidateVariant(f.kind, name, f.variants[name]);
      if !ok {
        assert !VariantFits(f.kind, name, f.variants[name]);
        return;
      }
    }
    for i := 0 to |f.rules|
      invariant forall k | 0 <= k < i :: ValidRule(f.variants, f.rules[k])
    {
      ok := ValidateRule(f.variants, f.rules[i]);
      if !ok {
        assert !ValidRule(f.variants, f.rules[i]);
        return;
      }
    }
    if f.rollout.None? {
      return true;
    }
    ok := ValidateRollout(f.variants, f.rollout.value);
  }

  // ---------------------------------------------------------------------------------------
  // Evaluation
  // ---------------------------------------------------------------------------------------

  predicate HasTargetingKey(context: Context) {
    "targetingKey" in context && context["targetingKey"].StringValue? && context["targetingKey"].text != ""
  }

  predicate Matches(rule: Rule, context: Context) {
    rule.attribute in context && context[rule.attribute] == StringValue(rule.equals)
  }

  /** The index of the first matching rule, or the number of rules. */
  function FirstMatch(rules: seq<Rule>, context: Context): nat {
    if rules == [] || Matches(rules[0], context) then 0 else 1 + FirstMatch(rules[1..], context)
  }

  /** Unsigned 64-bit arithmetic on the percentage, as the source writes it. */
  function Threshold(percentage: int): nat {
    (percentage * 100) % TWO_TO_THE_64
  }

  predicate InBucket(prefix: nat, percentage: int) {
    prefix % BUCKETS < Threshold(percentage)
  }

  predicate InRollout(digest: Digest, key: string, rollout: Rollout, context: Context) {
    && rollout.attribute in context && context[rollout.attribute].StringValue?
    && InBucket(digest(key + "\0" + context[rollout.attribute].text), rollout.percentage)
  }

  function Resolve(f: Flag, variant: string, reason: Reason): Evaluation {
    Evaluation(f.key, if variant in f.variants then f.variants[variant] else NullValue, reason, variant, f.revision)
  }

  function Evaluate(digest: Digest, f: Flag, context: Context): Result<Evaluation, Error> {
    if !HasTargetingKey(context) then Err(Invalid)
    else if !f.enabled then Ok(Resolve(f, f.defaultVariant, Disabled))
    else
      var i := FirstMatch(f.rules, context);
      if i < |f.rules| then Ok(Resolve(f, f.rules[i].variant, TargetingMatch))
      else if f.rollout.None? then Ok(Resolve(f, f.defaultVariant, Static))
      else if !InRollout(digest, f.key, f.rollout.value, context) then Ok(Resolve(f, f.defaultVariant, Static))
      else Ok(Resolve(f, f.rollout.value.variant, Split))
  }

  lemma {:induction false} FirstMatchIsFirst(rules: seq<Rule>, context: Context)
    ensures FirstMatch(rules, context) <= |rules|
    ensures var i := FirstMatch(rules, context);
      i < |rules| ==> rules[i].attribute in context && context[rules[i].attribute] == StringValue(rules[i].equals)
    ensures forall k | 0 <= k < FirstMatch(rules, context) ::
      !(rules[k].attribute in context && context[rules[k].attribute] == StringValue(rules[k].equals))
  {
    if rules != [] && !Matches(rules[0], context) {
      FirstMatchIsFirst(rules[1..], context);
      forall k | 0 <= k < FirstMatch(rules, context)
        ensures !(rules[k].attribute in context && context[rules[k].attribute] == StringValue(rules[k].equals))
      {
        if k > 0 { assert rules[k] == rules[1..][k - 1]; }
      }
    }
  }

  /** The only failure is a context without a non-empty string under the targeting key. */
  lemma EvaluationFailsExactly(digest: Digest, f: Flag, context: Context)
    ensures Evaluate(digest, f, context).Ok? <==>
      "targetingKey" in context && context["targetingKey"].StringValue? && context["targetingKey"].text != ""
    ensures Evaluate(digest, f, context).Err? ==> Evaluate(digest, f, context) == Err(Invalid)
  {
  }

  /** A valid flag and a usable context always give a defined variant of the flag's kind. A disabled
      flag serves its default; otherwise the first rule whose attribute carries exactly its value
      decides; only when none does, the rollout takes in the contexts whose bucket is below its
      percentage; and everything else gets the default. */
  lemma EvaluationIsDefined(digest: Digest, f: Flag, context: Context)
    requires Valid(f)
    requires "targetingKey" in context && context["targetingKey"].StringValue? && context["targetingKey"].text != ""
    ensures var r := Evaluate(digest, f, context);
      && r.Ok?
      && r.value.variant in f.variants && r.value.value == f.variants[r.value.variant]
      && (f.kind == Boolean <==> r.value.value.BooleanValue?) && (f.kind == String <==> r.value.value.StringValue?)
      && r.value.key == f.key && r.value.revision == f.revision
    ensures var e := Evaluate(digest, f, context).value;
      && (e.reason == Disabled <==> !f.enabled)
      && (e.reason in {Disabled, Static} ==> e.variant == f.defaultVariant)
      && (e.reason == TargetingMatch <==>
            f.enabled && exists i :: (0 <= i < |f.rules|
              && f.rules[i].attribute in context && context[f.rules[i].attribute] == StringValue(f.rules[i].equals)))
      && (e.reason == Split <==>
            && f.enabled
            && (forall i | 0 <= i < |f.rules| ::
                  !(f.rules[i].attribute in context && context[f.rules[i].attribute] == StringValue(f.rules[i].equals)))
            && f.rollout.Some?
            && var rollout := f.rollout.value;
            && rollout.attribute in context && context[rollout.attribute].StringValue?
            && digest(f.key + "\0" + context[rollout.attribute].text) % 10_000 < 100 * rollout.percentage)
      && (e.reason == Split ==> e.variant == f.rollout.value.variant)
    ensures forall i | 0 <= i < |f.rules| && f.enabled
                    && f.rules[i].attribute in context && context[f.rules[i].attribute] == StringValue(f.rules[i].equals)
                    && (forall k | 0 <= k < i ::
                          !(f.rules[k].attribute in context && context[f.rules[k].attribute] == StringValue(f.rules[k].equals))) ::
      Evaluate(digest, f, context).value.variant == f.rules[i].variant
  {
    FirstMatchIsFirst(f.rules, context);
    var first := FirstMatch(f.rules, context);
    assert first < |f.rules| ==> ValidRule(f.variants, f.rules[first]);
    assert forall i | 0 <= i < |f.rules| :: Matches(f.rules[i], context) <==>
      f.rules[i].attribute in context && context[f.rules[i].attribute] == StringValue(f.rules[i].equals);
    assert f.rollout.Some? ==> Threshold(f.rollout.value.percentage) == 100 * f.rollout.value.percentage;
    hide Matches, FirstMatch;
    var variant := Evaluate(digest, f, context).value.variant;
    assert VariantFits(f.kind, variant, f.variants[variant]);
  }

  /** The approved attributes are all an evaluation looks at. */
  lemma ApprovedAttributesDecide(digest: Digest, f: Flag, c: Context, d: Context)
    requires Valid(f)
    requires forall a | a in ATTRIBUTES :: a in c <==> a in d
    requires forall a | a in ATTRIBUTES && a in c :: c[a] == d[a]
    ensures Evaluate(digest, f, c) == Evaluate(digest, f, d)
  {
    assert "targetingKey" in ATTRIBUTES;
    SameFirstMatch(f, f.rules, c, d);
  }

  lemma {:induction false} SameFirstMatch(f: Flag, rules: seq<Rule>, c: Context, d: Context)
    requires forall i | 0 <= i < |rules| :: ValidRule(f.variants, rules[i])
    requires forall a | a in ATTRIBUTES :: a in c <==> a in d
    requires forall a | a in ATTRIBUTES && a in c :: c[a] == d[a]
    ensures FirstMatch(rules, c) == FirstMatch(rules, d)
  {
    if rules != [] {
      assert ValidRule(f.variants, rules[0]);
      assert forall i | 0 <= i < |rules[1..]| :: rules[1..][i] == rules[i + 1];
      SameFirstMatch(f, rules[1..], c, d);
    }
  }

  // ---------------------------------------------------------------------------------------
  // Rollouts
  // ---------------------------------------------------------------------------------------

  /** Raising a valid percentage only ever adds contexts; none are in at 0, and at 100 exactly
      those with a string attribute are. */
  lemma RolloutsAreNested(digest: Digest, key: string, low: Rollout, percentage: int, context: Context)
    requires 0 <= low.percentage <= percentage <= 100
    ensures InRollout(digest, key, low, context) ==> InRollout(digest, key, low.(percentage := percentage), context)
    ensures !InRollout(digest, key, low.(percentage := 0), context)
    ensures InRollout(digest, key, low.(percentage := 100), context)
       <==> low.attribute in context && context[low.attribute].StringValue?
  {
  }

  /** A valid rollout at 100 takes in every usable context exactly when it is on the targeting key. */
  lemma FullRolloutIsTotal(digest: Digest, key: string, rollout: Rollout)
    requires rollout.attribute in ATTRIBUTES && rollout.percentage == 100
    ensures (forall context | HasTargetingKey(context) :: InRollout(digest, key, rollout, context))
       <==> rollout.attribute == "targetingKey"
  {
    var bare: Context := map["targetingKey" := StringValue("u")];
    assert HasTargetingKey(bare);
    assert rollout.attribute in bare <==> rollout.attribute == "targetingKey";
    forall context | HasTargetingKey(context) && rollout.attribute == "targetingKey" ensures InRollout(digest, key, rollout, context) {
      RolloutsAreNested(digest, key, rollout, 100, context);
    }
  }

  /** A valid flag rolled out to all organizations serves its default to a context that names none. */
  lemma FullRolloutCanMiss(digest: Digest)
    ensures var f := Flag("beta", Boolean, true, "off", map["on" := BooleanValue(true), "off" := BooleanValue(false)],
                          [], Some(Rollout("organization.id", 100, "on")), 1, 0);
      && Valid(f) && HasTargetingKey(map["targetingKey" := StringValue("u")])
      && Evaluate(digest, f, map["targetingKey" := StringValue("u")])
         == Ok(Evaluation("beta", BooleanValue(false), Static, "off", 1))
  {
    assert KeyCharacter('b') && KeyCharacter('e') && KeyCharacter('t') && KeyCharacter('a');
    var context: Context := map["targetingKey" := StringValue("u")];
    assert "organization.id"[0] == 'o' && "targetingKey"[0] == 't';
    assert "organization.id" !in context;
  }

  /** The numbers below n that fall in one of the first t buckets. */
  function Residues(n: nat, t: nat): set<nat> {
    set d: nat | d < n && d % BUCKETS < t
  }

  function Least(a: nat, b: nat): nat {
    if a < b then a else b
  }

  lemma {:induction false} CountResidues(n: nat, t: nat)
    requires t <= BUCKETS
    ensures |Residues(n, t)| == (n / BUCKETS) * t + Least(n % BUCKETS, t)
  {
    if n == 0 {
      assert Residues(0, t) == {};
    } else {
      var d := n - 1;
      CountResidues(d, t);
      assert Residues(n, t) == Residues(d, t) + (if d % BUCKETS < t then {d} else {});
      if n % BUCKETS == 0 {
        assert n / BUCKETS == d / BUCKETS + 1;
        assert (d / BUCKETS + 1) * t == (d / BUCKETS) * t + t;
      } else {
        assert n / BUCKETS == d / BUCKETS;
      }
    }
  }

  /** Exactly how many of the 64-bit digest prefixes a percentage includes. */
  lemma RolloutSize(percentage: int)
    requires 0 <= percentage <= 100
    ensures |set d: nat | d < TWO_TO_THE_64 && InBucket(d, percentage)|
         == (TWO_TO_THE_64 / BUCKETS) * (100 * percentage) + Least(TWO_TO_THE_64 % BUCKETS, 100 * percentage)
  {
    assert Threshold(percentage) == 100 * percentage;
    CountResidues(TWO_TO_THE_64, 100 * percentage);
    assert (set d: nat | d < TWO_TO_THE_64 && InBucket(d, percentage)) == Residues(TWO_TO_THE_64, 100 * percentage);
  }
}
