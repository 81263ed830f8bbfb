/** The policy conditions, their compilation, and the deny-dominant evaluation of a bundle. */
module Policy {
  import opened Wrappers
  import opened Ordering
  import Authority

  /** JSON values as far as conditions tell them apart. */
  datatype Json =
    | Object(members: seq<Member>)
    | Array(items: seq<Json>)
    | Text(s: string)
    | Boolean(b: bool)
    | Other

  datatype Member = Member(key: string, value: Json)

  datatype Context = Context(
    action: string, resource: string, provenanceTrust: set<string>, requestedScopeExpands: bool,
    dataClasses: set<string>, destinationExternal: bool, riskClass: string)

  const MAX_DEPTH := 32
  const PROVENANCE_CLASSES := {"trusted_control", "authorized_user", "project_data",
                               "external_untrusted", "model_generated", "unknown"}
  const RISK_CLASSES := {"R0", "R1", "R2", "R3", "R4"}
  const MODES := {"read", "stage", "commit_reversible", "commit_compensatable",
                  "commit_irreversible", "model_external"}

  predicate IsFlag(key: string) {
    key == "requested_scope_expands" || key == "destination_external"
  }

  predicate IsListed(key: string) {
    key in {"action_in", "provenance_trust_in", "data_class_in", "risk_class_in"}
  }

  /** `_string_values`. */
  function StringValues(value: Json): Result<seq<string>> {
    if !value.Array? || exists i :: 0 <= i < |value.items| && !value.items[i].Text? then
      Failure(ValidationError)
    else Success(seq(|value.items|, i requires 0 <= i < |value.items| => value.items[i].s))
  }

  // ----- compilation ------------------------------------------------------------------------------

  /** `_validate_condition`: none for a condition that compiles, or the code it fails with. */
  function Invalid(condition: seq<Member>, depth: nat): Option<ErrorCode>
    decreases condition, 1
  {
    if depth > MAX_DEPTH || |condition| != 1 then Some(ValidationError)
    else
      var m := condition[0];
      if m.key == "all" || m.key == "any" then
        if !m.value.Array? || m.value.items == [] then Some(ValidationError)
        else
          assert m.value < m;
          InvalidChild(m.value.items, depth + 1)
      else if IsFlag(m.key) then (if m.value.Boolean? then None else Some(ValidationError))
      else if m.key == "resource_within" then
        (if m.value.Text? && m.value.s != "" then None else Some(ValidationError))
      else if IsListed(m.key) then
        var values := StringValues(m.value);
        if values.Failure? || values.value == [] || "" in values.value then Some(ValidationError)
        else if m.key == "provenance_trust_in" && exists v :: v in values.value && v !in PROVENANCE_CLASSES then
          Some(ValidationError)
        else if m.key == "risk_class_in" && exists v :: v in values.value && v !in RISK_CLASSES then
          Some(ValidationError)
        else None
      else Some(ValidationError)
  }

  function InvalidChild(children: seq<Json>, depth: nat): Option<ErrorCode>
    decreases children
  {
    if children == [] then None
    else
      var child := children[0];
      if !child.Object? then Some(ValidationError)
      else
        var first := Invalid(child.members, depth);
        if first.Some? then first else InvalidChild(children[1..], depth)
  }

  /** The shape of a condition that compiles, at any depth. */
  ghost predicate Shaped(condition: seq<Member>)
    decreases condition, 1
  {
    |condition| == 1 &&
    var m := condition[0];
    assert m.value < m;
    match m.key
    case "all" => m.value.Array? && m.value.items != [] && ShapedAll(m.value.items)
    case "any" => m.value.Array? && m.value.items != [] && ShapedAll(m.value.items)
    case "requested_scope_expands" => m.value.Boolean?
    case "destination_external" => m.value.Boolean?
    case "resource_within" => m.value.Text? && m.value.s != ""
    case "action_in" => Listing(m.value)
    case "data_class_in" => Listing(m.value)
    case "provenance_trust_in" =>
      Listing(m.value) && forall item | item in m.value.items :: item.s in PROVENANCE_CLASSES
    case "risk_class_in" => Listing(m.value) && forall item | item in m.value.items :: item.s in RISK_CLASSES
    case _ => false
  }

  ghost predicate ShapedAll(children: seq<Json>)
    decreases children
  {
    forall c | c in children :: c.Object? && Shaped(c.members)
  }

  /** A non-empty list of non-empty strings. */
  predicate Listing(value: Json) {
    value.Array? && value.items != [] && forall item | item in value.items :: item.Text? && item.s != ""
  }

  /** How deep logical conditions are nested. */
  function Depth(condition: seq<Member>): nat
    decreases condition, 1
  {
    if condition == [] then 0
    else
      var m := condition[0];
      assert m.value < m;
      if (m.key == "all" || m.key == "any") && m.value.Array? && m.value.items != [] then 1 + Deepest(m.value.items)
      else 0
  }

  function Deepest(children: seq<Json>): nat
    decreases children
  {
    if children == [] then 0
    else
      var first, rest := if children[0].Object? then Depth(children[0].members) else 0, Deepest(children[1..]);
      if first >= rest then first else rest
  }

  /** A condition compiles if and only if it has the shape and is not nested too deep. */
  lemma {:induction false} CompilesExactly(condition: seq<Member>, depth: nat)
    requires depth <= MAX_DEPTH
    ensures Invalid(condition, depth).None? <==> Shaped(condition) && depth + Depth(condition) <= MAX_DEPTH
    decreases condition, 1
  {
    if |condition| == 1 {
      var m := condition[0];
      if m.key == "all" || m.key == "any" {
        assert m.value < m;
        if m.value.Array? && m.value.items != [] {
          ChildrenCompile(m.value.items, depth + 1);
        }
        hide InvalidChild, Deepest, ShapedAll;
      } else if IsListed(m.key) {
        ListsCompile(m.value);
        hide StringValues, Listing;
      }
    }
  }

  lemma {:induction false} ChildrenCompile(children: seq<Json>, depth: nat)
    ensures children != [] ==>
              (InvalidChild(children, depth).None? <==>
                 ShapedAll(children) && depth + Deepest(children) <= MAX_DEPTH)
    decreases children
  {
    hide Invalid, Shaped, Depth;
    if children != [] {
      var first, rest := children[0], children[1..];
      assert children == [first] + rest;
      ChildrenCompile(rest, depth);
      if first.Object? {
        if depth <= MAX_DEPTH {
          CompilesExactly(first.members, depth);
        } else {
          TooDeep(first.members, depth);
        }
      }
    }
  }

  lemma TooDeep(condition: seq<Member>, depth: nat)
    requires depth > MAX_DEPTH
    ensures Invalid(condition, depth).Some?
  {}

  /** What the checks of a list come to. */
  lemma ListsCompile(value: Json)
    ensures Listing(value) <==>
            StringValues(value).Success? && StringValues(value).value != [] && "" !in StringValues(value).value
    ensures Listing(value) ==>
              forall text :: text in StringValues(value).value <==> exists item :: item in value.items && item.s == text
  {
    if StringValues(value).Success? {
      var values := StringValues(value).value;
      forall i | 0 <= i < |values| ensures value.items[i] == Text(values[i]) {}
      forall item | item in value.items ensures item.Text? && item.s in values {
        var i :| 0 <= i < |value.items| && value.items[i] == item;
        assert values[i] == item.s;
      }
      forall text | text in values ensures Text(text) in value.items {
        var i :| 0 <= i < |values| && values[i] == text;
        assert value.items[i] == Text(text);
      }
    }
  }

  // ----- matching ---------------------------------------------------------------------------------

  /** `_matches`. */
  function Matches(condition: seq<Member>, context: Context): Result<bool>
    decreases condition, 1
  {
    if condition == [] then Failure(Unspecified)
    else
      var m := condition[0];
      if m.key == "all" || m.key == "any" then
        if !m.value.Array? || exists i :: 0 <= i < |m.value.items| && !m.value.items[i].Object? then
          Failure(ValidationError)
        else
          assert m.value < m;
          if m.key == "all" then AllMatch(m.value.items, context) else AnyMatches(m.value.items, context)
      else LeafMatches(m, context)
  }

  function LeafMatches(m: Member, context: Context): Result<bool> {
    if m.key == "resource_within" then
      if !m.value.Text? then Failure(ValidationError)
      else Authority.ResourceMatches(m.value.s, context.resource)
    else if m.key == "requested_scope_expands" then
      Success(m.value == Boolean(context.requestedScopeExpands))
    else if m.key == "destination_external" then
      Success(m.value == Boolean(context.destinationExternal))
    else if IsListed(m.key) then
      var values := StringValues(m.value);
      if values.Failure? then Failure(values.error)
      else if m.key == "action_in" then Success(context.action in values.value)
      else if m.key == "risk_class_in" then Success(context.riskClass in values.value)
      else if m.key == "provenance_trust_in" then
        Success(exists v :: v in values.value && v in context.provenanceTrust)
      else Success(exists v :: v in values.value && v in context.dataClasses)
    else Failure(PolicyUnknown)
  }

  /** `all` over a generator: the first outcome that is false, or raises, ends it. */
  function AllMatch(children: seq<Json>, context: Context): Result<bool>
    requires forall i | 0 <= i < |children| :: children[i].Object?
    decreases children, 0
  {
    if children == [] then Success(true)
    else
      var first := Matches(children[0].members, context);
      if first.Failure? || !first.value then first else AllMatch(children[1..], context)
  }

  function AnyMatches(children: seq<Json>, context: Context): Result<bool>
    requires forall i | 0 <= i < |children| :: children[i].Object?
    decreases children, 0
  {
    if children == [] then Success(false)
    else
      var first := Matches(children[0].members, context);
      if first.Failure? || first.value then first else AnyMatches(children[1..], context)
  }

  // ----- what a compiled condition means ----------------------------------------------------------

  /** The list names this text. */
  predicate Names(value: Json, text: string) {
    value.Array? && Text(text) in value.items
  }

  /** Truth of one predicate about a context. */
  ghost predicate LeafHolds(m: Member, context: Context) {
    match m.key
    case "action_in" => Names(m.value, context.action)
    case "risk_class_in" => Names(m.value, context.riskClass)
    case "provenance_trust_in" => exists trust :: trust in context.provenanceTrust && Names(m.value, trust)
    case "data_class_in" => exists tag :: tag in context.dataClasses && Names(m.value, tag)
    case "requested_scope_expands" => m.value == Boolean(context.requestedScopeExpands)
    case "destination_external" => m.value == Boolean(context.destinationExternal)
    case "resource_within" => m.value.Text? && Authority.ScopeReaches(m.value.s, context.resource)
    case _ => false
  }

  /** Truth of a condition, read as logic: no order, no failure. */
  ghost predicate Holds(condition: seq<Member>, context: Context)
    decreases condition, 1
  {
    condition != [] &&
    var m := condition[0];
    assert m.value < m;
    if m.key == "all" then m.value.Array? && forall c | c in m.value.items :: ChildHolds(c, context)
    else if m.key == "any" then m.value.Array? && exists c | c in m.value.items :: ChildHolds(c, context)
    else LeafHolds(m, context)
  }

  ghost predicate ChildHolds(child: Json, context: Context)
    decreases child
  {
    child.Object? && Holds(child.members, context)
  }

  /** Matching gets to a scope with a malformed wildcard: everything before it in an `all` is true,
      and everything before it in an `any` is false. */
  ghost predicate Reaches(condition: seq<Member>, context: Context)
    decreases condition, 1
  {
    condition != [] &&
    var m := condition[0];
    assert m.value < m;
    if m.key == "all" then m.value.Array? && AllReach(m.value.items, context)
    else if m.key == "any" then m.value.Array? && AnyReaches(m.value.items, context)
    else m.key == "resource_within" && m.value.Text? && Authority.BadScope(m.value.s)
  }

  ghost predicate ChildReaches(child: Json, context: Context)
    decreases child
  {
    child.Object? && Reaches(child.members, context)
  }

  ghost predicate AllReach(children: seq<Json>, context: Context)
    decreases children, 0
  {
    exists i | 0 <= i < |children| ::
      ChildReaches(children[i], context) && forall j | 0 <= j < i :: ChildHolds(children[j], context)
  }

  ghost predicate AnyReaches(children: seq<Json>, context: Context)
    decreases children, 0
  {
    exists i | 0 <= i < |children| ::
      ChildReaches(children[i], context) && forall j | 0 <= j < i :: !ChildHolds(children[j], context)
  }

  /** What matching computes: it raises if and only if it gets to a malformed scope, and computes
      the truth of the condition otherwise. */
  ghost function Meaning(reaches: bool, holds: bool): Result<bool> {
    if reaches then Failure(ValidationError) else Success(holds)
  }

  lemma {:induction false} MatchesMeaning(condition: seq<Member>, depth: nat, context: Context)
    requires Invalid(condition, depth).None?
    ensures Matches(condition, context) == Meaning(Reaches(condition, context), Holds(condition, context))
    decreases condition, 1
  {
    var m := condition[0];
    if m.key == "all" || m.key == "any" {
      assert m.value < m;
      ChildrenAreObjects(m.value.items, depth + 1);
      if m.key == "all" {
        AllMeaning(m.value.items, depth + 1, context);
      } else {
        AnyMeaning(m.value.items, depth + 1, context);
      }
      hide Invalid, InvalidChild, AllMatch, AnyMatches, ChildHolds, ChildReaches;
    } else {
      LeafMeaning(m, context);
      hide PROVENANCE_CLASSES, RISK_CLASSES, LeafMatches, LeafHolds, Authority.BadScope;
    }
  }

  /** What each predicate computes, whatever its list or scope. */
  lemma LeafMeaning(m: Member, context: Context)
    requires IsFlag(m.key) ==> m.value.Boolean?
    requires IsListed(m.key) ==> StringValues(m.value).Success?
    requires m.key == "resource_within" ==> m.value.Text?
    requires IsFlag(m.key) || IsListed(m.key) || m.key == "resource_within"
    ensures LeafMatches(m, context) ==
            Meaning(m.key == "resource_within" && Authority.BadScope(m.value.s), LeafHolds(m, context))
  {
    if m.key == "resource_within" {
      Authority.ScopeMeaning(m.value.s, context.resource);
      hide Authority.ResourceMatches, Authority.BadScope, Authority.ScopeReaches;
    } else if IsListed(m.key) {
      StringsNamed(m.value);
      hide StringValues, Names;
    }
  }

  lemma StringsNamed(value: Json)
    requires StringValues(value).Success?
    ensures forall text :: text in StringValues(value).value <==> Names(value, text)
  {
    var values := StringValues(value).value;
    forall i | 0 <= i < |values| ensures value.items[i] == Text(values[i]) {}
    forall text | Names(value, text) ensures text in values {
      var i :| 0 <= i < |value.items| && value.items[i] == Text(text);
      assert values[i] == text;
    }
  }

  lemma {:induction false} ChildrenAreObjects(children: seq<Json>, depth: nat)
    requires InvalidChild(children, depth).None?
    ensures forall i | 0 <= i < |children| ::
              children[i].Object? && Invalid(children[i].members, depth).None?
  {
    hide Invalid;
    if children != [] {
      ChildrenAreObjects(children[1..], depth);
      forall i | 0 <= i < |children|
        ensures children[i].Object? && Invalid(children[i].members, depth).None?
      {
        if i > 0 {
          assert children[i] == children[1..][i - 1];
        }
      }
    }
  }

  lemma AllReachFirst(children: seq<Json>, context: Context)
    requires children != []
    ensures AllReach(children, context) <==>
            || ChildReaches(children[0], context)
            || (ChildHolds(children[0], context) && AllReach(children[1..], context))
  {
    hide ChildReaches, ChildHolds;
    var rest := children[1..];
    if AllReach(rest, context) && ChildHolds(children[0], context) {
      var i :| 0 <= i < |rest| && ChildReaches(rest[i], context)
        && forall j | 0 <= j < i :: ChildHolds(rest[j], context);
      assert ChildReaches(children[i + 1], context);
      forall j | 0 <= j < i + 1 ensures ChildHolds(children[j], context) {
        if j > 0 { assert rest[j - 1] == children[j]; }
      }
    }
    if AllReach(children, context) && !ChildReaches(children[0], context) {
      var i :| 0 <= i < |children| && ChildReaches(children[i], context)
        && forall j | 0 <= j < i :: ChildHolds(children[j], context);
      assert ChildReaches(rest[i - 1], context);
    }
  }

  lemma AnyReachesFirst(children: seq<Json>, context: Context)
    requires children != []
    ensures AnyReaches(children, context) <==>
            || ChildReaches(children[0], context)
            || (!ChildHolds(children[0], context) && AnyReaches(children[1..], context))
  {
    hide ChildReaches, ChildHolds;
    var rest := children[1..];
    if AnyReaches(rest, context) && !ChildHolds(children[0], context) {
      var i :| 0 <= i < |rest| && ChildReaches(rest[i], context)
        && forall j | 0 <= j < i :: !ChildHolds(rest[j], context);
      assert ChildReaches(children[i + 1], context);
      forall j | 0 <= j < i + 1 ensures !ChildHolds(children[j], context) {
        if j > 0 { assert rest[j - 1] == children[j]; }
      }
    }
    if AnyReaches(children, context) && !ChildReaches(children[0], context) {
      var i :| 0 <= i < |children| && ChildReaches(children[i], context)
        && forall j | 0 <= j < i :: !ChildHolds(children[j], context);
      assert ChildReaches(rest[i - 1], context);
    }
  }

  lemma {:induction false} AllMeaning(children: seq<Json>, depth: nat, context: Context)
    requires forall i | 0 <= i < |children| ::
               children[i].Object? && Invalid(children[i].members, depth).None?
    ensures AllMatch(children, context) ==
            Meaning(AllReach(children, context), forall c | c in children :: ChildHolds(c, context))
    decreases children, 0
  {
    hide Invalid, Matches, Holds, Reaches;
    if children != [] {
      var rest := children[1..];
      forall i | 0 <= i < |rest| ensures rest[i].Object? && Invalid(rest[i].members, depth).None? {
        assert rest[i] == children[i + 1];
      }
      MatchesMeaning(children[0].members, depth, context);
      AllMeaning(rest, depth, context);
      AllReachFirst(children, context);
      assert children == [children[0]] + rest;
      assert ChildHolds(children[0], context) == Holds(children[0].members, context);
      assert ChildReaches(children[0], context) == Reaches(children[0].members, context);
      hide AllReach;
    }
  }

  lemma {:induction false} AnyMeaning(children: seq<Json>, depth: nat, context: Context)
    requires forall i | 0 <= i < |children| ::
               children[i].Object? && Invalid(children[i].members, depth).None?
    ensures AnyMatches(children, context) ==
            Meaning(AnyReaches(children, context), exists c | c in children :: ChildHolds(c, context))
    decreases children, 0
  {
    hide Invalid, Matches, Holds, Reaches;
    if children != [] {
      var rest := children[1..];
      forall i | 0 <= i < |rest| ensures rest[i].Object? && Invalid(rest[i].members, depth).None? {
        assert rest[i] == children[i + 1];
      }
      MatchesMeaning(children[0].members, depth, context);
      AnyMeaning(rest, depth, context);
      AnyReachesFirst(children, context);
      assert children == [children[0]] + rest;
      assert ChildHolds(children[0], context) == Holds(children[0].members, context);
      assert ChildReaches(children[0], context) == Reaches(children[0].members, context);
      hide AnyReaches;
    }
  }

  // ----- bundles ----------------------------------------------------------------------------------

  datatype Effect = Grants | Denies | RequiresApproval | RequiresShadow

  datatype Rule = Rule(ruleId: string, effect: Effect, modes: seq<string>, when: seq<Member>)

  datatype Default = DenyByDefault | Abstain

  datatype Reason = PolicyDenied | PolicyAbstained | ModeConflict | PolicyEligible

  datatype Decision = Decision(
    eligible: bool, allowedModes: seq<string>, obligations: seq<string>, matchedGrants: seq<string>,
    matchedDenials: seq<string>, reason: Reason)

  /** `compile_policy` without the digest. */
  predicate Compiles(rules: seq<Rule>) {
    forall r | r in rules :: RuleCompiles(r)
  }

  predicate RuleCompiles(r: Rule) {
    && Invalid(r.when, 0).None?
    && (if r.effect.Grants? then r.modes != [] && (forall m | m in r.modes :: m in MODES) else r.modes == [])
  }

  /** What the loop of `evaluate` has collected. */
  datatype Tally = Tally(
    grants: seq<string>, denials: seq<string>, obligations: set<string>, modeSets: seq<set<string>>)

  function Counted(t: Tally, r: Rule): Tally {
    match r.effect
    case Denies => t.(denials := t.denials + [r.ruleId])
    case Grants =>
      t.(grants := t.grants + [r.ruleId], modeSets := t.modeSets + [set m | m in r.modes])
    case RequiresApproval => t.(obligations := t.obligations + {"approval"})
    case RequiresShadow => t.(obligations := t.obligations + {"shadow"})
  }

  function Tallied(rules: seq<Rule>, context: Context): Result<Tally> {
    if rules == [] then Success(Tally([], [], {}, []))
    else
      var before, r := Tallied(rules[..|rules| - 1], context), rules[|rules| - 1];
      if before.Failure? then before
      else
        var matched := Matches(r.when, context);
        if matched.Failure? then Failure(matched.error)
        else if matched.value then Success(Counted(before.value, r))
        else before
  }

  function Intersection(sets: seq<set<string>>): set<string>
    requires sets != []
  {
    if |sets| == 1 then sets[0] else Intersection(sets[..|sets| - 1]) * sets[|sets| - 1]
  }

  function Decided(t: Tally, default: Default): Decision {
    var obligations := SortedKeys(t.obligations);
    if t.denials != [] then Decision(false, [], obligations, t.grants, t.denials, PolicyDenied)
    else if t.grants == [] then
      Decision(false, [], obligations, [], [],
               if default.DenyByDefault? then PolicyDenied else PolicyAbstained)
    else
      var allowed := if t.modeSets != [] then Intersection(t.modeSets) else {};
      if allowed == {} then Decision(false, [], obligations, t.grants, [], ModeConflict)
      else Decision(true, SortedKeys(allowed), obligations, t.grants, [], PolicyEligible)
  }

  function Evaluated(rules: seq<Rule>, default: Default, context: Context): Result<Decision> {
    var t := Tallied(rules, context);
    if t.Failure? then Failure(t.error) else Success(Decided(t.value, default))
  }

  /** `CompiledPolicy.evaluate`. */
  method Evaluate(rules: seq<Rule>, default: Default, context: Context) returns (r: Result<Decision>)
    ensures r == Evaluated(rules, default, context)
  {
    hide Matches, SortedKeys, Intersection;
    var grants, denials: seq<string> := [], [];
    var obligations: set<string> := {};
    var modeSets: seq<set<string>> := [];
    assert rules[..|rules|] == rules;
    for n := 0 to |rules|
      invariant Tallied(rules[..n], context) == Success(Tally(grants, denials, obligations, modeSets))
    {
      assert rules[..n + 1][..n] == rules[..n];
      var rule := rules[n];
      var matched := Matches(rule.when, context);
      if matched.Failure? {
        TallyStuck(rules, context, n + 1, matched.error);
        return Failure(matched.error);
      }
      if !matched.value {
        continue;
      }
      match rule.effect {
        case Denies => denials := denials + [rule.ruleId];
        case Grants =>
          grants := grants + [rule.ruleId];
          modeSets := modeSets + [set m | m in rule.modes];
        case RequiresApproval => obligations := obligations + {"approval"};
        case RequiresShadow => obligations := obligations + {"shadow"};
      }
    }
    var due := SortedKeys(obligations);
    if denials != [] {
      return Success(Decision(false, [], due, grants, denials, PolicyDenied));
    }
    if grants == [] {
      return Success(Decision(false, [], due, [], [],
                              if default.DenyByDefault? then PolicyDenied else PolicyAbstained));
    }
    var allowed := if modeSets != [] then Intersection(modeSets) else {};
    if allowed == {} {
      return Success(Decision(false, [], due, grants, [], ModeConflict));
    }
    return Success(Decision(true, SortedKeys(allowed), due, grants, [], PolicyEligible));
  }

  lemma {:induction false} TallyStuck(rules: seq<Rule>, context: Context, n: nat, error: ErrorCode)
    requires n <= |rules| && Tallied(rules[..n], context) == Failure(error)
    ensures Tallied(rules, context) == Failure(error)
    decreases |rules| - n
  {
    hide Matches;
    if n == |rules| {
      assert rules[..n] == rules;
    } else {
      assert rules[..n + 1][..n] == rules[..n];
      TallyStuck(rules, context, n + 1, error);
    }
  }

  // ----- what a bundle decides --------------------------------------------------------------------

  /** A rule of this effect matches. */
  predicate Fires(rules: seq<Rule>, context: Context, effect: Effect) {
    exists r :: r in rules && r.effect == effect && Matches(r.when, context) == Success(true)
  }

  /** Every grant that matches allows the mode. */
  predicate Permits(rules: seq<Rule>, context: Context, mode: string) {
    forall r | r in rules && r.effect.Grants? && Matches(r.when, context) == Success(true) :: mode in r.modes
  }

  ghost predicate ReflectsModes(t: Tally, rules: seq<Rule>, context: Context) {
    && |t.modeSets| == |t.grants|
    && (t.modeSets == [] ==> forall m :: Permits(rules, context, m))
    && (t.modeSets != [] ==> forall m :: m in Intersection(t.modeSets) <==> Permits(rules, context, m))
  }

  /** What the tally says about the rules, as a set. */
  ghost predicate Reflects(t: Tally, rules: seq<Rule>, context: Context) {
    && (t.denials != [] <==> Fires(rules, context, Denies))
    && (t.grants != [] <==> Fires(rules, context, Grants))
    && ReflectsModes(t, rules, context)
    && t.obligations == (if Fires(rules, context, RequiresApproval) then {"approval"} else {})
                        + (if Fires(rules, context, RequiresShadow) then {"shadow"} else {})
  }

  lemma FiresSnoc(rules: seq<Rule>, r: Rule, context: Context, effect: Effect)
    ensures Fires(rules + [r], context, effect) <==>
            || Fires(rules, context, effect)
            || (r.effect == effect && Matches(r.when, context) == Success(true))
  {
    hide Matches;
    assert r in rules + [r];
    if x :| x in rules && x.effect == effect && Matches(x.when, context) == Success(true) {
      assert x in rules + [r];
    }
  }

  lemma PermitsSnoc(rules: seq<Rule>, r: Rule, context: Context, mode: string)
    ensures Permits(rules + [r], context, mode) <==>
            && Permits(rules, context, mode)
            && (r.effect.Grants? && Matches(r.when, context) == Success(true) ==> mode in r.modes)
  {
    hide Matches;
    assert r in rules + [r];
    forall x | x in rules ensures x in rules + [r] {}
  }

  lemma {:induction false} TallyReflects(rules: seq<Rule>, context: Context)
    ensures Tallied(rules, context).Success? <==> forall r | r in rules :: Matches(r.when, context).Success?
    ensures Tallied(rules, context).Success? ==> Reflects(Tallied(rules, context).value, rules, context)
  {
    hide Matches;
    if rules != [] {
      var n := |rules| - 1;
      var front, r := rules[..n], rules[n];
      assert rules == front + [r];
      TallyReflects(front, context);
      if Tallied(rules, context).Success? {
        OneMoreRule(Tallied(front, context).value, front, r, context);
      }
    }
  }

  lemma OneMoreRule(t: Tally, rules: seq<Rule>, r: Rule, context: Context)
    requires Reflects(t, rules, context) && Matches(r.when, context).Success?
    ensures Reflects(if Matches(r.when, context).value then Counted(t, r) else t, rules + [r], context)
  {
    ModesOfOneMoreRule(t, rules, r, context);
    hide Matches, Fires, ReflectsModes;
    forall effect ensures Fires(rules + [r], context, effect) <==>
            || Fires(rules, context, effect)
            || (r.effect == effect && Matches(r.when, context) == Success(true)) {
      FiresSnoc(rules, r, context, effect);
    }
  }

  lemma ModesOfOneMoreRule(t: Tally, rules: seq<Rule>, r: Rule, context: Context)
    requires ReflectsModes(t, rules, context) && Matches(r.when, context).Success?
    ensures ReflectsModes(if Matches(r.when, context).value then Counted(t, r) else t, rules + [r], context)
  {
    if r.effect.Grants? && Matches(r.when, context).value {
      MatchedGrantModes(t, rules, r, context);
    } else {
      hide Matches, Permits, Intersection;
      forall m ensures Permits(rules + [r], context, m) == Permits(rules, context, m) {
        PermitsSnoc(rules, r, context, m);
      }
    }
  }

  lemma MatchedGrantModes(t: Tally, rules: seq<Rule>, r: Rule, context: Context)
    requires ReflectsModes(t, rules, context) && r.effect.Grants?
    requires Matches(r.when, context) == Success(true)
    ensures ReflectsModes(Counted(t, r), rules + [r], context)
  {
    hide Matches, Permits, Intersection;
    var u := Counted(t, r);
    var modes := set m | m in r.modes;
    assert u.modeSets == t.modeSets + [modes];
    IntersectionSnoc(t.modeSets, modes);
    forall m ensures m in Intersection(u.modeSets) <==> Permits(rules + [r], context, m) {
      PermitsSnoc(rules, r, context, m);
      assert m in modes <==> m in r.modes;
    }
  }

  lemma IntersectionSnoc(sets: seq<set<string>>, last: set<string>)
    ensures Intersection(sets + [last]) == if sets == [] then last else Intersection(sets) * last
  {
    assert (sets + [last])[..|sets|] == sets;
  }

  /** The decision in terms of the set of rules: eligible exactly when no deny matches, some grant
      matches and some mode is allowed by every grant that matches. */
  lemma DecisionMeaning(rules: seq<Rule>, default: Default, context: Context)
    requires Evaluated(rules, default, context).Success?
    ensures var d := Evaluated(rules, default, context).value;
            && (d.eligible <==>
                  && !Fires(rules, context, Denies) && Fires(rules, context, Grants)
                  && exists m :: Permits(rules, context, m))
            && (forall m :: m in d.allowedModes <==> d.eligible && Permits(rules, context, m))
            && Increasing(d.allowedModes)
            && d.obligations == SortedKeys(
                 (if Fires(rules, context, RequiresApproval) then {"approval"} else {})
                 + (if Fires(rules, context, RequiresShadow) then {"shadow"} else {}))
            && d.reason == (if d.eligible then PolicyEligible
                            else if Fires(rules, context, Denies) then PolicyDenied
                            else if Fires(rules, context, Grants) then ModeConflict
                            else if default.DenyByDefault? then PolicyDenied
                            else PolicyAbstained)
  {
    var t := Tallied(rules, context).value;
    TallyReflects(rules, context);
    hide Fires, Permits, Tallied, Intersection, Increasing;
    if t.modeSets != [] {
      assert Intersection(t.modeSets) != {} <==> exists m :: m in Intersection(t.modeSets);
    }
  }

  /** The same rules, in any order and any number of times each. */
  ghost predicate SameRules(a: seq<Rule>, b: seq<Rule>) {
    forall r :: r in a <==> r in b
  }

  lemma SameRulesFireAlike(a: seq<Rule>, b: seq<Rule>, context: Context)
    requires SameRules(a, b)
    ensures forall effect :: Fires(a, context, effect) == Fires(b, context, effect)
    ensures forall m :: Permits(a, context, m) == Permits(b, context, m)
    ensures Tallied(a, context).Success? == Tallied(b, context).Success?
  {
    TallyReflects(a, context);
    TallyReflects(b, context);
    hide Tallied, Matches;
    forall effect ensures Fires(a, context, effect) == Fires(b, context, effect) {}
  }

  /** Permuting or duplicating rules changes neither whether evaluation raises nor the verdict, the
      reason, the modes or the obligations. */
  lemma EvaluationForgetsOrder(a: seq<Rule>, b: seq<Rule>, default: Default, context: Context)
    requires SameRules(a, b)
    ensures var x, y := Evaluated(a, default, context), Evaluated(b, default, context);
            && x.Success? == y.Success?
            && (x.Success? ==>
                  && x.value.eligible == y.value.eligible
                  && x.value.reason == y.value.reason
                  && x.value.allowedModes == y.value.allowedModes
                  && x.value.obligations == y.value.obligations)
  {
    SameRulesFireAlike(a, b, context);
    var x, y := Evaluated(a, default, context), Evaluated(b, default, context);
    if x.Success? {
      DecisionMeaning(a, default, context);
      DecisionMeaning(b, default, context);
      hide *;
      IncreasingIsUnique(x.value.allowedModes, y.value.allowedModes);
    }
  }

  /** More rules, none of the new ones a grant. */
  ghost predicate Tightens(a: seq<Rule>, b: seq<Rule>) {
    && (forall r | r in a :: r in b)
    && (forall r | r in b && r !in a :: !r.effect.Grants?)
  }

  /** Adding deny or obligation rules never makes a denied context eligible, never allows a further
      mode and never lifts an obligation. */
  lemma TighteningNeverAllows(a: seq<Rule>, b: seq<Rule>, default: Default, context: Context)
    requires Tightens(a, b)
    requires Evaluated(a, default, context).Success? && Evaluated(b, default, context).Success?
    ensures var x, y := Evaluated(a, default, context).value, Evaluated(b, default, context).value;
            && (y.eligible ==> x.eligible)
            && (forall m | m in y.allowedModes :: m in x.allowedModes)
            && (forall o | o in x.obligations :: o in y.obligations)
  {
    DecisionMeaning(a, default, context);
    DecisionMeaning(b, default, context);
    TightenedFires(a, b, context);
    hide Evaluated, Fires, Permits, Tightens, Increasing;
  }

  lemma TightenedFires(a: seq<Rule>, b: seq<Rule>, context: Context)
    requires Tightens(a, b)
    ensures forall effect :: Fires(a, context, effect) ==> Fires(b, context, effect)
    ensures Fires(b, context, Grants) ==> Fires(a, context, Grants)
    ensures forall m :: Permits(a, context, m) == Permits(b, context, m)
  {
    hide Matches;
    if r :| r in b && r.effect == Grants && Matches(r.when, context) == Success(true) {
      assert r in a;
    }
  }

  /** Evaluating a compiled bundle raises if and only if some rule gets to a malformed scope, and
      then with VALIDATION_ERROR. */
  lemma CompiledRaisesExactly(rules: seq<Rule>, default: Default, context: Context)
    requires Compiles(rules)
    ensures Evaluated(rules, default, context).Failure? <==> exists r :: r in rules && Reaches(r.when, context)
    ensures Evaluated(rules, default, context).Failure? ==>
              Evaluated(rules, default, context) == Failure(ValidationError)
  {
    CompiledTally(rules, context);
    hide Tallied;
  }

  lemma {:induction false} CompiledTally(rules: seq<Rule>, context: Context)
    requires Compiles(rules)
    ensures Tallied(rules, context).Failure? <==> exists r :: r in rules && Reaches(r.when, context)
    ensures Tallied(rules, context).Failure? ==> Tallied(rules, context).error == ValidationError
  {
    hide Matches, Invalid, Holds, Reaches;
    if rules != [] {
      var front, r := rules[..|rules| - 1], rules[|rules| - 1];
      assert rules == front + [r];
      CompiledTally(front, context);
      assert r in rules && RuleCompiles(r);
      MatchesMeaning(r.when, 0, context);
    }
  }

  /** In a context in which no rule of a compiled bundle gets to a malformed scope, a rule fires
      exactly when its condition is true. */
  lemma CompiledFiresOnTruth(rules: seq<Rule>, context: Context, effect: Effect)
    requires Compiles(rules) && forall r | r in rules :: !Reaches(r.when, context)
    ensures Tallied(rules, context).Success?
    ensures Fires(rules, context, effect) <==>
            exists r :: r in rules && r.effect == effect && Holds(r.when, context)
  {
    TallyReflects(rules, context);
    forall r | r in rules ensures Matches(r.when, context) == Success(Holds(r.when, context)) {
      assert RuleCompiles(r);
      MatchesMeaning(r.when, 0, context);
    }
  }

  /** The ids of the rules of one effect whose condition is true, in the order of the bundle. */
  ghost function Satisfied(rules: seq<Rule>, effect: Effect, context: Context): seq<string> {
    if rules == [] then []
    else
      var front, r := Satisfied(rules[..|rules| - 1], effect, context), rules[|rules| - 1];
      if r.effect == effect && Holds(r.when, context) then front + [r.ruleId] else front
  }

  /** Every grant whose condition is true allows the mode. */
  ghost predicate Allowed(rules: seq<Rule>, context: Context, mode: string) {
    forall r | r in rules && r.effect.Grants? && Holds(r.when, context) :: mode in r.modes
  }

  /** The whole decision of a compiled bundle, in terms of which conditions are true of the context. */
  lemma CompiledDecision(rules: seq<Rule>, default: Default, context: Context)
    requires Compiles(rules) && forall r | r in rules :: !Reaches(r.when, context)
    ensures Evaluated(rules, default, context).Success?
    ensures var d := Evaluated(rules, default, context).value;
            var grants, denials := Satisfied(rules, Grants, context), Satisfied(rules, Denies, context);
            && d.matchedGrants == grants && d.matchedDenials == denials
            && (d.eligible <==> denials == [] && grants != [] && exists m :: Allowed(rules, context, m))
            && (forall m :: m in d.allowedModes <==> d.eligible && Allowed(rules, context, m))
            && ("approval" in d.obligations <==> Satisfied(rules, RequiresApproval, context) != [])
            && ("shadow" in d.obligations <==> Satisfied(rules, RequiresShadow, context) != [])
            && (forall o | o in d.obligations :: o == "approval" || o == "shadow")
            && Increasing(d.allowedModes) && Increasing(d.obligations)
            && d.reason == (if d.eligible then PolicyEligible
                            else if denials != [] then PolicyDenied
                            else if grants != [] then ModeConflict
                            else if default.DenyByDefault? then PolicyDenied
                            else PolicyAbstained)
  {
    hide Tallied, Fires, Permits, Satisfied, Allowed, Increasing, Reaches, Compiles;
    forall effect ensures Fires(rules, context, effect) <==> Satisfied(rules, effect, context) != [] {
      CompiledFiresOnTruth(rules, context, effect);
      SatisfiedMeans(rules, effect, context);
    }
    TallySatisfied(rules, context);
    forall m ensures Permits(rules, context, m) == Allowed(rules, context, m) {
      PermitsAllowed(rules, context, m);
    }
    DecisionMeaning(rules, default, context);
    SameLists(rules, default, context);
  }

  lemma SameLists(rules: seq<Rule>, default: Default, context: Context)
    requires Tallied(rules, context).Success?
    ensures Evaluated(rules, default, context).value.matchedGrants == Tallied(rules, context).value.grants
    ensures Evaluated(rules, default, context).value.matchedDenials == Tallied(rules, context).value.denials
  {
    hide Tallied;
  }

  lemma {:induction false} SatisfiedMeans(rules: seq<Rule>, effect: Effect, context: Context)
    ensures Satisfied(rules, effect, context) != [] <==>
            exists r :: r in rules && r.effect == effect && Holds(r.when, context)
  {
    hide Holds;
    if rules != [] {
      var front, r := rules[..|rules| - 1], rules[|rules| - 1];
      assert rules == front + [r];
      SatisfiedMeans(front, effect, context);
    }
  }

  lemma PermitsAllowed(rules: seq<Rule>, context: Context, mode: string)
    requires Compiles(rules) && forall r | r in rules :: !Reaches(r.when, context)
    ensures Permits(rules, context, mode) == Allowed(rules, context, mode)
  {
    hide Matches, Holds, Reaches, Invalid;
    forall r | r in rules ensures Matches(r.when, context) == Success(Holds(r.when, context)) {
      assert RuleCompiles(r);
      MatchesMeaning(r.when, 0, context);
    }
  }

  lemma {:induction false} TallySatisfied(rules: seq<Rule>, context: Context)
    requires Compiles(rules) && forall r | r in rules :: !Reaches(r.when, context)
    ensures Tallied(rules, context).Success?
    ensures Tallied(rules, context).value.grants == Satisfied(rules, Grants, context)
    ensures Tallied(rules, context).value.denials == Satisfied(rules, Denies, context)
  {
    hide Matches, Holds, Reaches, Invalid;
    if rules != [] {
      var front, r := rules[..|rules| - 1], rules[|rules| - 1];
      assert rules == front + [r];
      TallySatisfied(front, context);
      assert r in rules && RuleCompiles(r);
      MatchesMeaning(r.when, 0, context);
    }
  }

  /** Somewhere in the condition stands a scope with a malformed wildcard. */
  ghost predicate HasMalformedScope(condition: seq<Member>)
    decreases condition, 1
  {
    condition != [] &&
    var m := condition[0];
    assert m.value < m;
    if m.key == "all" || m.key == "any" then
      m.value.Array? && exists c | c in m.value.items :: ChildHasMalformedScope(c)
    else m.key == "resource_within" && m.value.Text? && Authority.BadScope(m.value.s)
  }

  ghost predicate ChildHasMalformedScope(child: Json)
    decreases child
  {
    child.Object? && HasMalformedScope(child.members)
  }

  /** So a bundle without malformed wildcards raises in no context. */
  lemma {:induction false} ReachedIsMalformed(condition: seq<Member>, context: Context)
    requires Reaches(condition, context)
    ensures HasMalformedScope(condition)
    decreases condition
  {
    var m := condition[0];
    if m.key == "all" || m.key == "any" {
      assert m.value < m;
      var i :| 0 <= i < |m.value.items| && ChildReaches(m.value.items[i], context);
      assert m.value.items[i] in m.value.items;
      ReachedIsMalformed(m.value.items[i].members, context);
      assert ChildHasMalformedScope(m.value.items[i]);
    }
  }

  /** A compiled bundle that raises: compilation accepts any non-empty scope. */
  lemma CompiledBundleCanRaise(context: Context)
    ensures var r := Rule("r", Denies, [], [Member("resource_within", Text("a*b"))]);
            Compiles([r]) && Evaluated([r], DenyByDefault, context) == Failure(ValidationError)
  {
    var r := Rule("r", Denies, [], [Member("resource_within", Text("a*b"))]);
    assert "a*b"[1] == '*' && "a*b"[0] != "/**"[0];
    assert Matches(r.when, context) == Failure(ValidationError);
    assert RuleCompiles(r);
    assert [r][..0] == [] && Tallied([], context).Success?;
  }
}
