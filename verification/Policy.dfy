/** Validation policy packs (internal/contracts/policy.go) and their resolution against an
    admission request (internal/policy/resolver.go). */
module Policy {
  import opened Basics
  import StableSort
  import opened Distinctness

  /** Trimmed strings, numbered in byte order among those at hand; 0 is the empty one. */
  type Name = nat

  datatype ValidatorRef = ValidatorRef(id: Name, version: Name)

  datatype Rule = Rule(validator: ValidatorRef, required: bool)

  datatype Mode = Automatic | Required | Denied

  datatype ModeText = Unset | Given(mode: Mode) | Unsupported

  /** Three change limits, then eight validation limits, in the order they are declared. */
  type Budget = b: seq<int> | |b| == 11 witness [0, 0, 0, 0, 0, 0, 0, 0, 0, 0, 0]

  const DEFAULTS: Budget := [32, 0x40_0000, 0x100_0000, 16, 10000, 0x2000_0000, 0x10_0000, 900000, 512, 2, 0x1_0000]
  const MAXIMA: Budget :=
    [128, 0x400_0000, 0x1000_0000, 64, 100000, 0x4000_0000, 0x100_0000, 86400000, 10000, 10, 0x10_0000]
  const MAX_VALIDATORS := 3
  const MAX_LISTED := 64

  datatype Identity = Identity(workspace: Name, policy: Name, version: Name)

  const SCHEMA_VERSION := 1

  /** `tidy` says that identity and approval mode are written as they are normalized, without
      surrounding space and in lower case; `floors` that the task fence and every safety floor are on. */
  datatype Body = Body(
    schema: int, tidy: bool, identity: Identity, rules: seq<Rule>, budget: Budget, mode: ModeText, requireFor: seq<Name>,
    reindex: bool, floors: bool)

  /** An injective content hash, none, or a text that is no body's hash. */
  datatype PackHash = NoHash | HashOf(body: Body) | Foreign

  datatype Pack = Pack(body: Body, hash: PackHash)

  // ----- Normalizing a pack -----

  predicate RefBefore(a: ValidatorRef, b: ValidatorRef) {
    a.id < b.id || (a.id == b.id && a.version < b.version)
  }

  predicate RuleBefore(a: Rule, b: Rule) {
    RefBefore(a.validator, b.validator)
  }

  predicate Below(a: Name, b: Name) {
    a < b
  }

  predicate Blank(ref: ValidatorRef) {
    ref.id == 0 || ref.version == 0
  }

  function Validators(rules: seq<Rule>): seq<ValidatorRef> {
    seq(|rules|, i requires 0 <= i < |rules| => rules[i].validator)
  }

  predicate AllNamed(refs: seq<ValidatorRef>) {
    forall i :: 0 <= i < |refs| ==> !Blank(refs[i])
  }

  predicate Unrepeated(refs: seq<ValidatorRef>) {
    Dedup(refs) == refs
  }

  function Filled(b: Budget): Budget {
    seq(11, i requires 0 <= i < 11 => if b[i] == 0 then DEFAULTS[i] else b[i])
  }

  predicate InRange(b: Budget) {
    forall i :: 0 <= i < 11 ==> 1 <= b[i] <= MAXIMA[i]
  }

  function NonBlank(names: seq<Name>): seq<Name> {
    if names == [] then []
    else NonBlank(names[..|names| - 1]) + if names[|names| - 1] == 0 then [] else [names[|names| - 1]]
  }

  function Scopes(names: seq<Name>): seq<Name> {
    StableSort.Sort(Below, Dedup(NonBlank(names)))
  }

  function NormalMode(mode: ModeText): ModeText {
    if mode == Unset then Given(Required) else mode
  }

  function NormalBody(body: Body): Body {
    Body(if body.schema == 0 then SCHEMA_VERSION else body.schema, true, body.identity, StableSort.Sort(RuleBefore, body.rules), Filled(body.budget), NormalMode(body.mode),
         Scopes(body.requireFor), body.reindex, true)
  }

  /** The canonical content identity: rules and scopes are sorted before hashing. */
  function ComputeHash(body: Body): PackHash {
    HashOf(body.(rules := StableSort.Sort(RuleBefore, body.rules), requireFor := StableSort.Sort(Below, body.requireFor)))
  }

  predicate WellFormed(body: Body) {
    && (body.schema == 0 || body.schema == SCHEMA_VERSION)
    && body.identity.workspace != 0 && body.identity.policy != 0 && body.identity.version != 0
    && |body.rules| <= MAX_LISTED && |body.requireFor| <= MAX_LISTED
    && InRange(Filled(body.budget)) && body.mode != Unsupported
    && AllNamed(Validators(body.rules)) && Unrepeated(Validators(body.rules))
  }

  function NormalizePack(p: Pack): Result<Pack> {
    if !WellFormed(p.body) then Err
    else
      var body := NormalBody(p.body);
      var hash := ComputeHash(body);
      if p.hash != NoHash && p.hash != hash then Err else Ok(Pack(body, hash))
  }

  // ----- Resolving -----

  /** The validators the process has registered, and those every policy must run. */
  datatype Registry = Registry(known: set<ValidatorRef>, mandatory: seq<ValidatorRef>, reindex: ValidatorRef)

  datatype PolicyRef = PolicyRef(hash: PackHash, policy: Name, version: Name)

  datatype Request = Request(
    policy: Option<PolicyRef>, requested: seq<ValidatorRef>, budget: Budget, mode: ModeText,
    operation: Name, operationTypes: seq<Name>, reindex: bool)

  datatype Resolution = Resolution(
    snapshot: Pack, validators: seq<ValidatorRef>, budget: Budget, approval: Mode, reindex: bool)

  predicate Admissible(r: Request) {
    && |r.requested| <= MAX_LISTED && AllNamed(r.requested) && Unrepeated(r.requested)
    && (forall i :: 0 <= i < 11 ==> 0 <= r.budget[i] <= MAXIMA[i])
    && r.mode != Unsupported && |r.operationTypes| <= MAX_LISTED
  }

  predicate Selects(r: Request, pack: Pack) {
    r.policy.Some? ==>
      && (r.policy.value.hash == NoHash || r.policy.value.hash == pack.hash)
      && r.policy.value.policy == pack.body.identity.policy
      && r.policy.value.version == pack.body.identity.version
  }

  /** Everything added to the validator list, in the order it is added. */
  function Added(registry: Registry, body: Body, requested: seq<ValidatorRef>): seq<ValidatorRef> {
    Validators(body.rules) + registry.mandatory + requested + if body.reindex then [registry.reindex] else []
  }

  predicate Widens(policy: Budget, requested: Budget) {
    exists i :: 0 <= i < 11 && requested[i] > policy[i]
  }

  function Tightened(policy: Budget, requested: Budget): Budget {
    seq(11, i requires 0 <= i < 11 => if requested[i] > 0 then requested[i] else policy[i])
  }

  predicate ApprovalRequiredFor(scopes: seq<Name>, operation: Name, types: seq<Name>) {
    && scopes != []
    && ((operation == 0 && types == []) ||
        exists i :: 0 <= i < |scopes| && (scopes[i] == operation || scopes[i] in types))
  }

  function EffectiveApproval(policy: Mode, requireFor: seq<Name>, requested: ModeText, operation: Name, types: seq<Name>): Mode
    requires requested != Unsupported
  {
    if policy == Denied || requested == Given(Denied) then Denied
    else
      var floor := if policy == Automatic && ApprovalRequiredFor(requireFor, operation, types) then Required else policy;
      if requested == Unset then floor
      else if floor == Required || requested == Given(Required) then Required
      else Automatic
  }

  function Resolve(registry: Registry, pack: Pack, r: Request): Result<Resolution> {
    if !Admissible(r) then Err
    else match NormalizePack(pack)
      case Err => Err
      case Ok(p) =>
        var added := Added(registry, p.body, StableSort.Sort(RefBefore, r.requested));
        var validators := StableSort.Sort(RefBefore, Dedup(added));
        if !Selects(r, p) || (exists i :: 0 <= i < |added| && added[i] !in registry.known)
           || |validators| > p.body.budget[MAX_VALIDATORS] || Widens(p.body.budget, r.budget) then Err
        else
          var approval := EffectiveApproval(p.body.mode.mode, p.body.requireFor, r.mode, r.operation, Scopes(r.operationTypes));
          if approval == Denied then Err
          else Ok(Resolution(p, validators, Tightened(p.body.budget, r.budget), approval, p.body.reindex || r.reindex))
  }

  // ----- Normalization -----

  lemma {:induction false} NonBlankKeepsNames(names: seq<Name>)
    ensures forall n :: n in NonBlank(names) <==> n in names && n != 0
    ensures |NonBlank(names)| <= |names|
    ensures |NonBlank(names)| == |names| ==> NonBlank(names) == names
    ensures 0 !in names ==> NonBlank(names) == names
  {
    if names != [] {
      NonBlankKeepsNames(names[..|names| - 1]);
      assert names == names[..|names| - 1] + [names[|names| - 1]];
    }
  }

  /** The scopes are the distinct non-empty names, in order. */
  lemma ScopesAreCanonical(names: seq<Name>)
    ensures Distinct(Scopes(names)) && StableSort.InOrder(Below, Scopes(names))
    ensures forall n :: n in Scopes(names) <==> n in names && n != 0
    ensures |Scopes(names)| <= |names|
  {
    var kept := Dedup(NonBlank(names));
    NonBlankKeepsNames(names);
    DedupKeepsElements(NonBlank(names));
    DedupOfDistinct(NonBlank(names));
    StableSort.SortIsAnOrderedPermutation(Below, kept);
    DistinctPermutes(kept, Scopes(names));
    MembersPermute(kept, Scopes(names));
    assert |kept| == |multiset(kept)| == |multiset(Scopes(names))| == |Scopes(names)|;
  }

  lemma ScopesDependOnNames(a: seq<Name>, b: seq<Name>)
    requires forall n :: n in a && n != 0 <==> n in b && n != 0
    ensures Scopes(a) == Scopes(b)
  {
    NonBlankKeepsNames(a);
    NonBlankKeepsNames(b);
    DedupKeepsElements(NonBlank(a));
    DedupKeepsElements(NonBlank(b));
    SameElementsSameMultiset(Dedup(NonBlank(a)), Dedup(NonBlank(b)));
    StableSort.SortIsCanonical(Below, Dedup(NonBlank(a)), Dedup(NonBlank(b)));
  }

  lemma ScopesAreStable(names: seq<Name>)
    ensures Scopes(Scopes(names)) == Scopes(names)
    ensures StableSort.Sort(Below, Scopes(names)) == Scopes(names)
  {
    ScopesAreCanonical(names);
    ScopesDependOnNames(Scopes(names), names);
    StableSort.SortKeepsOrdered(Below, Scopes(names));
  }

  lemma RulesAreSeparated(rules: seq<Rule>)
    requires Unrepeated(Validators(rules))
    ensures StableSort.Separates(RuleBefore, rules)
  {
    DedupOfDistinct(Validators(rules));
    forall x, y | x in rules && y in rules && x != y ensures RuleBefore(x, y) || RuleBefore(y, x) {
      var i :| 0 <= i < |rules| && rules[i] == x;
      var j :| 0 <= j < |rules| && rules[j] == y;
      assert Validators(rules)[i] == x.validator && Validators(rules)[j] == y.validator;
    }
  }

  lemma ValidatorsAdd(a: seq<Rule>, b: seq<Rule>)
    ensures Validators(a + b) == Validators(a) + Validators(b)
  {
  }

  lemma WithoutOne(rules: seq<Rule>, i: nat)
    requires i < |rules|
    ensures multiset(rules[..i] + rules[i + 1..]) == multiset(rules) - multiset{rules[i]}
    ensures multiset(Validators(rules)) ==
            multiset(Validators(rules[..i] + rules[i + 1..])) + multiset{rules[i].validator}
  {
    hide Validators;
    var front, back := rules[..i], rules[i + 1..];
    assert rules == front + ([rules[i]] + back);
    assert front + back == rules[..i] + rules[i + 1..];
    ValidatorsAdd(front, [rules[i]] + back);
    ValidatorsAdd([rules[i]], back);
    ValidatorsAdd(front, back);
    ValidatorsOfOne(rules[i]);
  }

  lemma ValidatorsOfOne(rule: Rule)
    ensures Validators([rule]) == [rule.validator]
  {
  }

  lemma {:induction false} ValidatorsOfPermutation(a: seq<Rule>, b: seq<Rule>)
    requires multiset(a) == multiset(b)
    ensures multiset(Validators(a)) == multiset(Validators(b))
  {
    assert |a| == |multiset(a)| == |multiset(b)| == |b|;
    if a != [] {
      hide Validators;
      assert a[0] in multiset(b);
      var i :| 0 <= i < |b| && b[i] == a[0];
      var rest := b[..i] + b[i + 1..];
      assert a[..0] + a[1..] == a[1..];
      WithoutOne(a, 0);
      WithoutOne(b, i);
      assert multiset(a[1..]) == multiset(rest);
      ValidatorsOfPermutation(a[1..], rest);
    }
  }

  lemma ValidatorsPermute(a: seq<Rule>, b: seq<Rule>)
    requires multiset(a) == multiset(b)
    ensures AllNamed(Validators(a)) ==> AllNamed(Validators(b))
    ensures Unrepeated(Validators(a)) ==> Unrepeated(Validators(b))
  {
    ValidatorsOfPermutation(a, b);
    RefsPermute(Validators(a), Validators(b));
  }

  lemma RefsPermute(a: seq<ValidatorRef>, b: seq<ValidatorRef>)
    requires multiset(a) == multiset(b)
    ensures AllNamed(a) ==> AllNamed(b)
    ensures Unrepeated(a) ==> Unrepeated(b)
    ensures |a| == |b|
  {
    MembersPermute(a, b);
    if AllNamed(a) {
      forall i | 0 <= i < |b| ensures !Blank(b[i]) {
        assert b[i] in a;
      }
    }
    DedupOfDistinct(a);
    DedupOfDistinct(b);
    if Unrepeated(a) { DistinctPermutes(a, b); }
    assert |a| == |multiset(a)| == |multiset(b)| == |b|;
  }

  lemma FilledIsStable(b: Budget)
    ensures Filled(Filled(b)) == Filled(b)
  {
  }

  lemma NormalBodyIsWellFormed(body: Body)
    requires WellFormed(body)
    ensures WellFormed(NormalBody(body))
    ensures NormalBody(NormalBody(body)) == NormalBody(body)
    ensures ComputeHash(NormalBody(body)) == HashOf(NormalBody(body))
  {
    hide AllNamed, Unrepeated, InRange, Scopes, Filled, Validators;
    var rules := StableSort.Sort(RuleBefore, body.rules);
    StableSort.SortIsAnOrderedPermutation(RuleBefore, body.rules);
    StableSort.SortKeepsOrdered(RuleBefore, rules);
    ValidatorsPermute(body.rules, rules);
    assert |rules| == |multiset(rules)| == |multiset(body.rules)| == |body.rules|;
    ScopesAreCanonical(body.requireFor);
    ScopesAreStable(body.requireFor);
    FilledIsStable(body.budget);
  }

  /** Normalizing a normalized pack changes nothing. */
  lemma NormalizeIsIdempotent(p: Pack)
    requires NormalizePack(p).Ok?
    ensures NormalizePack(NormalizePack(p).value) == NormalizePack(p)
  {
    hide WellFormed, NormalBody, ComputeHash;
    NormalBodyIsWellFormed(p.body);
  }

  /** Two packs that list the same rules and name the same scopes. */
  ghost predicate SameContent(a: Pack, b: Pack) {
    && a.body == b.body.(rules := a.body.rules, requireFor := a.body.requireFor)
    && multiset(a.body.rules) == multiset(b.body.rules)
    && multiset(a.body.requireFor) == multiset(b.body.requireFor)
    && a.hash == b.hash
  }

  lemma SameContentIsWellFormed(a: Pack, b: Pack)
    requires SameContent(a, b) && WellFormed(a.body)
    ensures WellFormed(b.body) && NormalBody(a.body) == NormalBody(b.body)
  {
    hide AllNamed, Unrepeated, InRange, Scopes, Filled, Validators;
    ValidatorsPermute(a.body.rules, b.body.rules);
    RulesAreSeparated(a.body.rules);
    StableSort.SortIsCanonical(RuleBefore, a.body.rules, b.body.rules);
    assert |a.body.rules| == |multiset(a.body.rules)| == |multiset(b.body.rules)| == |b.body.rules|;
    assert |a.body.requireFor| == |multiset(a.body.requireFor)| == |multiset(b.body.requireFor)| == |b.body.requireFor|;
    MembersPermute(a.body.requireFor, b.body.requireFor);
    ScopesDependOnNames(a.body.requireFor, b.body.requireFor);
  }

  /** The order in which a pack lists rules and scopes does not matter, to its hash either. */
  lemma NormalizeIgnoresOrder(a: Pack, b: Pack)
    requires SameContent(a, b)
    ensures NormalizePack(a) == NormalizePack(b)
  {
    hide WellFormed, NormalBody, ComputeHash;
    if WellFormed(a.body) {
      SameContentIsWellFormed(a, b);
    } else if WellFormed(b.body) {
      SameContentIsWellFormed(b, a);
    }
  }

  /** ComputeHash is documented as safe before and after Normalize. It gives the same hash
      exactly when normalizing only reorders: nothing is filled in, respelled, dropped or
      switched on. */
  lemma HashBeforeNormalizing(body: Body)
    ensures ComputeHash(body) == ComputeHash(NormalBody(body)) <==>
            && body.schema != 0 && body.tidy && body.floors
            && Filled(body.budget) == body.budget && body.mode != Unset
            && 0 !in body.requireFor && Distinct(body.requireFor)
  {
    hide Filled;
    var names := body.requireFor;
    var rules := StableSort.Sort(RuleBefore, body.rules);
    StableSort.SortIsAnOrderedPermutation(RuleBefore, body.rules);
    StableSort.SortKeepsOrdered(RuleBefore, rules);
    ScopesAreStable(names);
    ScopesAreCanonical(names);
    StableSort.SortIsAnOrderedPermutation(Below, names);
    MembersPermute(names, StableSort.Sort(Below, names));
    if 0 !in names && Distinct(names) {
      NonBlankKeepsNames(names);
      DedupOfDistinct(names);
    } else if StableSort.Sort(Below, names) == Scopes(names) {
      DistinctPermutes(Scopes(names), names);
    }
  }

  /** A pack complete but for its schema version: normalizing accepts it and changes its hash. */
  lemma HashCanChangeByNormalizing() returns (body: Body)
    ensures NormalizePack(Pack(body, NoHash)).Ok?
    ensures body.tidy && body.floors && Filled(body.budget) == body.budget && body.requireFor == []
    ensures ComputeHash(body) != NormalizePack(Pack(body, NoHash)).value.hash
    ensures NormalizePack(Pack(body, ComputeHash(body))) == Err
  {
    body := Body(0, true, Identity(1, 1, 1), [], DEFAULTS, Given(Required), [], false, true);
    HashBeforeNormalizing(body);
  }
}
