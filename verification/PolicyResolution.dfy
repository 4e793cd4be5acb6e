/** What resolving a policy guarantees, and the resolver's loop. */
module PolicyResolution {
  import opened Basics
  import StableSort
  import opened Distinctness
  import opened Policy

  function Strictness(mode: Mode): nat {
    match mode
    case Automatic => 0
    case Required => 1
    case Denied => 2
  }

  /** The validators a resolution must hold, as a set: no order, no repetition. */
  ghost predicate Needed(registry: Registry, body: Body, requested: seq<ValidatorRef>, v: ValidatorRef) {
    || v in Validators(body.rules)
    || v in registry.mandatory
    || v in requested
    || (body.reindex && v == registry.reindex)
  }

  lemma AddedIsNeeded(registry: Registry, body: Body, requested: seq<ValidatorRef>)
    ensures forall v :: v in Added(registry, body, requested) <==> Needed(registry, body, requested, v)
  {
  }

  lemma NormalRulesAreTheRules(body: Body)
    ensures forall v :: v in Validators(NormalBody(body).rules) <==> v in Validators(body.rules)
  {
    StableSort.SortIsAnOrderedPermutation(RuleBefore, body.rules);
    ValidatorsOfPermutation(body.rules, NormalBody(body).rules);
    MembersPermute(Validators(body.rules), Validators(NormalBody(body).rules));
  }

  lemma CollectedRefs(added: seq<ValidatorRef>)
    ensures var validators := StableSort.Sort(RefBefore, Dedup(added));
            && Distinct(validators) && StableSort.InOrder(RefBefore, validators)
            && forall v :: v in validators <==> v in added
  {
    DedupKeepsElements(added);
    StableSort.SortIsAnOrderedPermutation(RefBefore, Dedup(added));
    var validators := StableSort.Sort(RefBefore, Dedup(added));
    DistinctPermutes(Dedup(added), validators);
    MembersPermute(Dedup(added), validators);
  }

  /** A resolution runs exactly the validators the policy, the floor and the caller name, each
      once and all registered, and no more of them than the policy allows. */
  lemma ResolvedValidators(registry: Registry, pack: Pack, r: Request)
    requires Resolve(registry, pack, r).Ok?
    ensures var res := Resolve(registry, pack, r).value;
            && NormalizePack(pack) == Ok(res.snapshot)
            && Distinct(res.validators) && StableSort.InOrder(RefBefore, res.validators)
            && (forall v :: v in res.validators <==> Needed(registry, pack.body, r.requested, v))
            && (forall v :: v in res.validators ==> v in registry.known)
            && |res.validators| <= res.snapshot.body.budget[MAX_VALIDATORS]
  {
    hide Validators, Widens, Tightened, EffectiveApproval, WellFormed, Selects;
    var p := NormalizePack(pack).value;
    assert p.body == NormalBody(pack.body);
    var requested := StableSort.Sort(RefBefore, r.requested);
    var added := Added(registry, p.body, requested);
    CollectedRefs(added);
    AddedIsNeeded(registry, p.body, requested);
    NormalRulesAreTheRules(pack.body);
    StableSort.SortIsAnOrderedPermutation(RefBefore, r.requested);
    MembersPermute(r.requested, requested);
  }

  /** No limit of a resolution exceeds the policy's, each is the caller's where the caller set
      one, and the approval is at least as strict as both ask; it is automatic exactly when the
      policy is, no scope demands approval and the caller does not ask for more. */
  lemma ResolutionOnlyTightens(registry: Registry, pack: Pack, r: Request)
    requires Resolve(registry, pack, r).Ok?
    ensures var res := Resolve(registry, pack, r).value;
            var policy := res.snapshot.body;
            && (forall i :: 0 <= i < 11 ==>
                  && 1 <= res.budget[i] <= policy.budget[i] <= MAXIMA[i]
                  && res.budget[i] == if r.budget[i] > 0 then r.budget[i] else policy.budget[i])
            && policy.mode.Given?
            && res.approval != Denied
            && Strictness(res.approval) >= Strictness(policy.mode.mode)
            && (r.mode.Given? ==> Strictness(res.approval) >= Strictness(r.mode.mode))
            && (res.approval == Automatic <==>
                  && policy.mode == Given(Automatic) && (r.mode == Unset || r.mode == Given(Automatic))
                  && !ApprovalRequiredFor(policy.requireFor, r.operation, Scopes(r.operationTypes)))
  {
    hide Validators, Added, WellFormed, ApprovalRequiredFor, Scopes, Filled, Selects;
    var p := NormalizePack(pack).value;
    NormalLimits(pack);
  }

  lemma NormalLimits(pack: Pack)
    requires NormalizePack(pack).Ok?
    ensures InRange(NormalizePack(pack).value.body.budget)
    ensures NormalizePack(pack).value.body.mode.Given?
  {
  }

  /** The different references a pack, the mandatory floor and a caller name between them. */
  function NamedRefs(registry: Registry, body: Body, requested: seq<ValidatorRef>): set<ValidatorRef> {
    Members(Validators(body.rules)) + Members(registry.mandatory) + Members(requested) +
    if body.reindex then {registry.reindex} else {}
  }

  lemma {:induction false} DistinctSize(refs: seq<ValidatorRef>)
    requires Distinct(refs)
    ensures |Members(refs)| == |refs|
  {
    if refs != [] {
      var front := refs[..|refs| - 1];
      DistinctSize(front);
      assert refs[|refs| - 1] !in front;
    }
  }

  lemma NeededAreNamed(registry: Registry, body: Body, requested: seq<ValidatorRef>, v: ValidatorRef)
    ensures Needed(registry, body, requested, v) <==> v in NamedRefs(registry, body, requested)
  {
    hide Validators;
  }

  lemma ResolvedCount(registry: Registry, pack: Pack, r: Request)
    requires Resolve(registry, pack, r).Ok?
    ensures |Resolve(registry, pack, r).value.validators| == |NamedRefs(registry, pack.body, r.requested)|
  {
    hide Resolve, NamedRefs, Needed;
    ResolvedValidators(registry, pack, r);
    var res := Resolve(registry, pack, r).value;
    DistinctSize(res.validators);
    forall v ensures v in Members(res.validators) <==> v in NamedRefs(registry, pack.body, r.requested) {
      NeededAreNamed(registry, pack.body, r.requested, v);
    }
    assert Members(res.validators) == NamedRefs(registry, pack.body, r.requested);
  }

  /** The validator count is held to the policy's limit, not to the tightened one. A resolution
      holds as many validators as are named, so it meets the limit it carries exactly when the
      caller set none or one that admits all the names. */
  lemma ValidatorsFitTheTightenedLimit(registry: Registry, pack: Pack, r: Request)
    requires Resolve(registry, pack, r).Ok?
    ensures var res := Resolve(registry, pack, r).value;
            var named := |NamedRefs(registry, pack.body, r.requested)|;
            && |res.validators| == named
            && (|res.validators| <= res.budget[MAX_VALIDATORS] <==>
                  r.budget[MAX_VALIDATORS] == 0 || named <= r.budget[MAX_VALIDATORS])
  {
    hide Resolve, NamedRefs, ApprovalRequiredFor;
    ResolvedCount(registry, pack, r);
    ResolvedValidators(registry, pack, r);
    ResolutionOnlyTightens(registry, pack, r);
    RequestedLimitIsNatural(registry, pack, r);
  }

  lemma RequestedLimitIsNatural(registry: Registry, pack: Pack, r: Request)
    requires Resolve(registry, pack, r).Ok?
    ensures r.budget[MAX_VALIDATORS] >= 0
  {
    hide NormalizePack, Added;
  }

  /** A pack with no rules, every limit at its default and automatic approval. */
  const PLAIN: Pack := Pack(Body(1, true, Identity(1, 1, 1), [], DEFAULTS, Given(Automatic), [], false, true), NoHash)

  lemma PlainNormalizes()
    ensures NormalizePack(PLAIN).Ok?
    ensures var body := NormalizePack(PLAIN).value.body;
            body.rules == [] && body.budget == DEFAULTS && body.mode == Given(Automatic)
            && body.requireFor == [] && !body.reindex
  {
    assert Filled(DEFAULTS) == DEFAULTS;
    assert Validators([]) == [];
  }

  lemma TwoAreCollected(a: ValidatorRef, b: ValidatorRef)
    requires RefBefore(a, b)
    ensures StableSort.Sort(RefBefore, Dedup([a, b])) == [a, b]
  {
    assert Distinct([a, b]);
    DedupOfDistinct([a, b]);
    StableSort.SortKeepsOrdered(RefBefore, [a, b]);
  }

  lemma PlainAddsTheFloor(registry: Registry)
    ensures Added(registry, NormalizePack(PLAIN).value.body, []) == registry.mandatory
  {
    hide NormalizePack;
    PlainNormalizes();
    assert Validators([]) == [];
  }

  /** A caller who asks for at most one validator is resolved with the two mandatory ones. */
  lemma TightenedLimitCanBeExceeded() returns (registry: Registry, r: Request)
    ensures Resolve(registry, PLAIN, r).Ok?
    ensures var res := Resolve(registry, PLAIN, r).value;
            res.budget[MAX_VALIDATORS] == 1 && |res.validators| == 2
  {
    hide NormalizePack, Added, ApprovalRequiredFor, Scopes, StableSort.Sort, Dedup;
    var a, b := ValidatorRef(1, 1), ValidatorRef(2, 1);
    registry := Registry({a, b}, [a, b], ValidatorRef(3, 1));
    r := Request(None, [], [0, 0, 0, 1, 0, 0, 0, 0, 0, 0, 0], Given(Required), 0, [], false);
    PlainNormalizes();
    PlainAddsTheFloor(registry);
    TwoAreCollected(a, b);
    StableSort.SortKeepsOrdered(RefBefore, r.requested);
    DedupOfDistinct(r.requested);
  }

  ghost predicate SameRequest(a: Request, b: Request) {
    && a == b.(requested := a.requested, operationTypes := a.operationTypes)
    && multiset(a.requested) == multiset(b.requested)
    && multiset(a.operationTypes) == multiset(b.operationTypes)
  }

  lemma RefsAreSeparated(refs: seq<ValidatorRef>)
    ensures StableSort.Separates(RefBefore, refs)
  {
  }

  lemma SameRequestIsAdmissible(a: Request, b: Request)
    requires SameRequest(a, b)
    ensures Admissible(a) ==> Admissible(b)
    ensures StableSort.Sort(RefBefore, a.requested) == StableSort.Sort(RefBefore, b.requested)
    ensures Scopes(a.operationTypes) == Scopes(b.operationTypes)
  {
    hide AllNamed, Unrepeated, Scopes;
    RefsPermute(a.requested, b.requested);
    RefsAreSeparated(a.requested);
    StableSort.SortIsCanonical(RefBefore, a.requested, b.requested);
    MembersPermute(a.operationTypes, b.operationTypes);
    ScopesDependOnNames(a.operationTypes, b.operationTypes);
    assert |a.operationTypes| == |multiset(a.operationTypes)| == |multiset(b.operationTypes)| == |b.operationTypes|;
  }

  /** A resolution does not depend on the order of rules, scopes, requested validators or operation types. */
  lemma ResolveIgnoresOrder(registry: Registry, packA: Pack, packB: Pack, a: Request, b: Request)
    requires SameContent(packA, packB) && SameRequest(a, b)
    ensures Resolve(registry, packA, a) == Resolve(registry, packB, b)
  {
    hide NormalizePack, Admissible, Added, Scopes, EffectiveApproval, SameContent;
    NormalizeIgnoresOrder(packA, packB);
    SameRequestIsAdmissible(a, b);
    SameRequestIsSymmetric(a, b);
    SameRequestIsAdmissible(b, a);
  }

  lemma SameRequestIsSymmetric(a: Request, b: Request)
    requires SameRequest(a, b)
    ensures SameRequest(b, a)
  {
  }

  // ----- The resolver -----

  /** Adds references one by one, skipping those seen; an unregistered one ends the loop. */
  method Collect(registry: Registry, added: seq<ValidatorRef>) returns (r: Result<seq<ValidatorRef>>)
    ensures r == if exists i :: 0 <= i < |added| && added[i] !in registry.known then Err else Ok(Dedup(added))
  {
    var seen: set<ValidatorRef> := {};
    var validators: seq<ValidatorRef> := [];
    var i := 0;
    while i < |added|
      invariant i <= |added|
      invariant forall j :: 0 <= j < i ==> added[j] in registry.known
      invariant validators == Dedup(added[..i])
      invariant forall v :: v in seen <==> v in validators
      invariant forall v :: v in validators ==> v in registry.known
    {
      assert added[..i + 1][..i] == added[..i];
      var ref := added[i];
      if ref !in seen {
        if ref !in registry.known { return Err; }
        seen := seen + {ref};
        validators := validators + [ref];
      }
      i := i + 1;
    }
    assert added[..i] == added;
    r := Ok(validators);
  }

  /** Refuses a request that widens any limit, then overlays the limits it sets. */
  method TightenBudget(policy: Budget, requested: Budget) returns (r: Result<Budget>)
    ensures r == if Widens(policy, requested) then Err else Ok(Tightened(policy, requested))
  {
    for i := 0 to 11
      invariant forall j :: 0 <= j < i ==> requested[j] <= policy[j]
    {
      if requested[i] > policy[i] { return Err; }
    }
    var effective: Budget := policy;
    for i := 0 to 11
      invariant forall j :: 0 <= j < i ==> effective[j] == if requested[j] > 0 then requested[j] else policy[j]
      invariant forall j :: i <= j < 11 ==> effective[j] == policy[j]
    {
      if requested[i] > 0 { effective := effective[i := requested[i]]; }
    }
    assert effective == Tightened(policy, requested);
    r := Ok(effective);
  }

  method RequiresApproval(scopes: seq<Name>, operation: Name, types: seq<Name>) returns (required: bool)
    ensures required == ApprovalRequiredFor(scopes, operation, types)
  {
    if |scopes| == 0 { return false; }
    if operation == 0 && |types| == 0 { return true; }
    for i := 0 to |scopes|
      invariant forall k :: 0 <= k < i ==> scopes[k] != operation && scopes[k] !in types
    {
      if scopes[i] == operation { return true; }
      for j := 0 to |types|
        invariant scopes[i] !in types[..j]
      {
        if scopes[i] == types[j] { return true; }
      }
    }
    return false;
  }

  method DecideApproval(configured: Mode, requireFor: seq<Name>, requested: ModeText, operation: Name, types: seq<Name>)
    returns (mode: Mode)
    requires requested != Unsupported
    ensures mode == EffectiveApproval(configured, requireFor, requested, operation, types)
  {
    var policy := configured;
    if policy == Denied || requested == Given(Denied) { return Denied; }
    var required := RequiresApproval(requireFor, operation, types);
    if policy == Automatic && required { policy := Required; }
    if requested == Unset { return policy; }
    if policy == Required || requested == Given(Required) { return Required; }
    return Automatic;
  }

  method ResolvePack(registry: Registry, pack: Pack, r: Request) returns (result: Result<Resolution>)
    ensures result == Resolve(registry, pack, r)
  {
    hide Dedup, Added, EffectiveApproval, Scopes, NormalizePack, Widens, Selects, Tightened;
    if !Admissible(r) { return Err; }
    var normalized := NormalizePack(pack);
    if normalized.Err? { return Err; }
    var p := normalized.value;
    NormalLimits(pack);
    if !Selects(r, p) { return Err; }
    var collected := Collect(registry, Added(registry, p.body, StableSort.Sort(RefBefore, r.requested)));
    if collected.Err? { return Err; }
    SortedSize(collected.value);
    if |collected.value| > p.body.budget[MAX_VALIDATORS] { return Err; }
    var budget := TightenBudget(p.body.budget, r.budget);
    if budget.Err? { return Err; }
    var approval :=
      DecideApproval(p.body.mode.mode, p.body.requireFor, r.mode, r.operation, Scopes(r.operationTypes));
    if approval == Denied { return Err; }
    result := Ok(Resolution(p, StableSort.Sort(RefBefore, collected.value), budget.value, approval,
                            p.body.reindex || r.reindex));
  }

  lemma SortedSize(refs: seq<ValidatorRef>)
    ensures |StableSort.Sort(RefBefore, refs)| == |refs|
  {
    StableSort.SortIsAnOrderedPermutation(RefBefore, refs);
    assert |StableSort.Sort(RefBefore, refs)| == |multiset(StableSort.Sort(RefBefore, refs))| == |multiset(refs)| == |refs|;
  }
}
