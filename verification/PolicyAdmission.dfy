/** Which packs normalize, which requests resolve, and when approval is asked for, said of
    what the pack and the request themselves list. */
module PolicyAdmission {
  import opened Basics
  import StableSort
  import opened Distinctness
  import opened Policy
  import opened PolicyResolution

  // ----- Packs -----

  /** What a pack must be to be normalized, hash aside. */
  predicate Sound(body: Body) {
    && body.schema in {0, 1}
    && body.identity.workspace > 0 && body.identity.policy > 0 && body.identity.version > 0
    && |body.rules| <= 64 && |body.requireFor| <= 64
    && (forall i :: 0 <= i < 11 ==> 0 <= body.budget[i] <= MAXIMA[i])
    && body.mode != Unsupported
    && (forall i :: 0 <= i < |body.rules| ==> body.rules[i].validator.id > 0 && body.rules[i].validator.version > 0)
    && (forall i, j :: 0 <= i < j < |body.rules| ==> body.rules[i].validator != body.rules[j].validator)
  }

  /** The normal form says what the pack says: limits left out are the defaults, an absent mode
      asks for approval, rules are in order, and scopes are the different names that are not blank. */
  ghost predicate SaysTheSame(body: Body, normal: Body) {
    && normal.schema == 1 && normal.tidy && normal.floors
    && normal.identity == body.identity && normal.reindex == body.reindex
    && (forall i :: 0 <= i < 11 ==> normal.budget[i] == if body.budget[i] != 0 then body.budget[i] else DEFAULTS[i])
    && (if body.mode == Unset then normal.mode == Given(Required) else normal.mode == body.mode)
    && multiset(normal.rules) == multiset(body.rules)
    && (forall i, j :: 0 <= i < j < |normal.rules| ==> InRefOrder(normal.rules[i].validator, normal.rules[j].validator))
    && (forall n :: n in normal.requireFor <==> n in body.requireFor && n > 0)
    && (forall i, j :: 0 <= i < j < |normal.requireFor| ==> normal.requireFor[i] < normal.requireFor[j])
  }

  predicate InRefOrder(a: ValidatorRef, b: ValidatorRef) {
    a.id < b.id || (a.id == b.id && a.version < b.version)
  }

  lemma SoundIsWellFormed(body: Body)
    ensures Sound(body) <==> WellFormed(body)
  {
    DedupOfDistinct(Validators(body.rules));
    LimitsInRange(body.budget);
    hide Dedup, Filled;
    var refs := Validators(body.rules);
    assert forall i :: 0 <= i < |refs| ==> refs[i] == body.rules[i].validator;
    if Distinct(refs) {
      forall i, j | 0 <= i < j < |body.rules| ensures body.rules[i].validator != body.rules[j].validator {
        assert refs[i] != refs[j];
      }
    }
  }

  lemma LimitsInRange(b: Budget)
    ensures InRange(Filled(b)) <==> forall i :: 0 <= i < 11 ==> 0 <= b[i] <= MAXIMA[i]
  {
    assert forall i :: 0 <= i < 11 ==> 1 <= DEFAULTS[i] <= MAXIMA[i];
    if forall i :: 0 <= i < 11 ==> 0 <= b[i] <= MAXIMA[i] {
      forall i | 0 <= i < 11 ensures 1 <= Filled(b)[i] <= MAXIMA[i] { assert 0 <= b[i] <= MAXIMA[i]; }
    }
    if InRange(Filled(b)) {
      forall i | 0 <= i < 11 ensures 0 <= b[i] <= MAXIMA[i] { assert 1 <= Filled(b)[i] <= MAXIMA[i]; }
    }
  }

  lemma RulesInOrder(rules: seq<Rule>)
    requires Unrepeated(Validators(rules))
    ensures var sorted := StableSort.Sort(RuleBefore, rules);
            && multiset(sorted) == multiset(rules)
            && forall i, j :: 0 <= i < j < |sorted| ==> InRefOrder(sorted[i].validator, sorted[j].validator)
  {
    hide StableSort.Sort, Dedup;
    var sorted := StableSort.Sort(RuleBefore, rules);
    StableSort.SortIsAnOrderedPermutation(RuleBefore, rules);
    ValidatorsPermute(rules, sorted);
    DedupOfDistinct(Validators(sorted));
    forall i, j | 0 <= i < j < |sorted| ensures InRefOrder(sorted[i].validator, sorted[j].validator) {
      assert Validators(sorted)[i] != Validators(sorted)[j];
      assert !RuleBefore(sorted[j], sorted[i]);
    }
  }

  lemma ScopesAscend(names: seq<Name>)
    ensures forall i, j :: 0 <= i < j < |Scopes(names)| ==> Scopes(names)[i] < Scopes(names)[j]
  {
    hide Scopes;
    ScopesAreCanonical(names);
    var scopes := Scopes(names);
    forall i, j | 0 <= i < j < |scopes| ensures scopes[i] < scopes[j] {
      assert !Below(scopes[j], scopes[i]) && scopes[i] != scopes[j];
    }
  }

  lemma NormalFormSaysTheSame(body: Body)
    requires WellFormed(body)
    ensures SaysTheSame(body, NormalBody(body))
  {
    hide Scopes, StableSort.Sort, Dedup, AllNamed, InRange;
    RulesInOrder(body.rules);
    ScopesAreCanonical(body.requireFor);
    ScopesAscend(body.requireFor);
  }

  /** A pack normalizes exactly when it is sound and carries no hash or that of its normal
      form, and the normal form says what the pack says. */
  lemma PacksNormalizeExactly(p: Pack)
    ensures NormalizePack(p).Ok? <==> Sound(p.body) && (p.hash == NoHash || p.hash == HashOf(NormalBody(p.body)))
    ensures NormalizePack(p).Ok? ==>
              && NormalizePack(p).value == Pack(NormalBody(p.body), HashOf(NormalBody(p.body)))
              && SaysTheSame(p.body, NormalBody(p.body))
  {
    hide WellFormed, Sound, NormalBody, ComputeHash, SaysTheSame;
    SoundIsWellFormed(p.body);
    if WellFormed(p.body) {
      NormalBodyIsWellFormed(p.body);
      NormalFormSaysTheSame(p.body);
    }
  }

  // ----- Requests -----

  /** The request itself is within its bounds. */
  predicate Bounded(r: Request) {
    && |r.requested| <= 64 && |r.operationTypes| <= 64 && r.mode != Unsupported
    && (forall i :: 0 <= i < |r.requested| ==> r.requested[i].id > 0 && r.requested[i].version > 0)
    && (forall i, j :: 0 <= i < j < |r.requested| ==> r.requested[i] != r.requested[j])
    && (forall i :: 0 <= i < 11 ==> 0 <= r.budget[i] <= MAXIMA[i])
  }

  lemma BoundedIsAdmissible(r: Request)
    ensures Bounded(r) <==> Admissible(r)
  {
    hide Dedup;
    DedupOfDistinct(r.requested);
  }

  /** The pack is the one the request names, by identity and, if it gives one, by hash. */
  predicate Picks(r: Request, p: Pack) {
    match r.policy
    case None => true
    case Some(ref) =>
      && ref.policy == p.body.identity.policy && ref.version == p.body.identity.version
      && (ref.hash != NoHash ==> ref.hash == p.hash)
  }

  lemma AddedAreNamed(registry: Registry, pack: Pack, r: Request)
    requires NormalizePack(pack).Ok?
    ensures var added := Added(registry, NormalizePack(pack).value.body, StableSort.Sort(RefBefore, r.requested));
            && (forall v :: v in added <==> v in NamedRefs(registry, pack.body, r.requested))
            && |StableSort.Sort(RefBefore, Dedup(added))| == |NamedRefs(registry, pack.body, r.requested)|
  {
    hide Validators, Dedup, StableSort.Sort, WellFormed, Added, NamedRefs;
    var body := NormalizePack(pack).value.body;
    var requested := StableSort.Sort(RefBefore, r.requested);
    var added := Added(registry, body, requested);
    StableSort.SortIsAnOrderedPermutation(RefBefore, r.requested);
    MembersPermute(r.requested, requested);
    AddedIsNeeded(registry, body, requested);
    NormalRulesAreTheRules(pack.body);
    CollectedRefs(added);
    var collected := StableSort.Sort(RefBefore, Dedup(added));
    forall v ensures v in added <==> v in NamedRefs(registry, pack.body, r.requested) {
      NeededAreNamed(registry, pack.body, r.requested, v);
    }
    DistinctSize(collected);
    assert Members(collected) == NamedRefs(registry, pack.body, r.requested);
  }

  /** A request resolves exactly when it is bounded, the pack normalizes and is the one asked
      for, every validator named by pack, floor or caller is registered, there are no more of
      them than the pack allows, no limit is raised, and neither side denies. */
  lemma RequestsResolveExactly(registry: Registry, pack: Pack, r: Request)
    ensures Resolve(registry, pack, r).Ok? <==>
      && Bounded(r) && NormalizePack(pack).Ok?
      && var p := NormalizePack(pack).value;
         && Picks(r, p)
         && NamedRefs(registry, pack.body, r.requested) <= registry.known
         && |NamedRefs(registry, pack.body, r.requested)| <= p.body.budget[3]
         && (forall i :: 0 <= i < 11 ==> r.budget[i] <= p.body.budget[i])
         && pack.body.mode != Given(Denied) && r.mode != Given(Denied)
  {
    BoundedIsAdmissible(r);
    if Admissible(r) && NormalizePack(pack).Ok? {
      AddedAreNamed(registry, pack, r);
      NormalLimits(pack);
      ModeIsKept(pack);
      hide NormalizePack, Added, NamedRefs, StableSort.Sort, Dedup, Bounded, Admissible, ApprovalRequiredFor, Scopes, Tightened;
      var added := Added(registry, NormalizePack(pack).value.body, StableSort.Sort(RefBefore, r.requested));
      assert (exists i :: 0 <= i < |added| && added[i] !in registry.known) <==> exists v :: v in added && v !in registry.known;
      hide Resolve;
      ResolveChecks(registry, pack, r);
    }
  }

  lemma ModeIsKept(pack: Pack)
    requires NormalizePack(pack).Ok?
    ensures NormalizePack(pack).value.body.mode.mode == Denied <==> pack.body.mode == Given(Denied)
  {
    NormalLimits(pack);
  }

  lemma ResolveChecks(registry: Registry, pack: Pack, r: Request)
    requires Admissible(r) && NormalizePack(pack).Ok? && NormalizePack(pack).value.body.mode.Given?
    ensures var p := NormalizePack(pack).value;
            var added := Added(registry, p.body, StableSort.Sort(RefBefore, r.requested));
            Resolve(registry, pack, r).Ok? <==>
              && Picks(r, p)
              && !(exists i :: 0 <= i < |added| && added[i] !in registry.known)
              && |StableSort.Sort(RefBefore, Dedup(added))| <= p.body.budget[3]
              && (forall i :: 0 <= i < 11 ==> r.budget[i] <= p.body.budget[i])
              && p.body.mode.mode != Denied && r.mode != Given(Denied)
  {
    hide NormalizePack, Added, StableSort.Sort, Dedup, ApprovalRequiredFor, Scopes, Tightened, AllNamed, Unrepeated;
  }

  // ----- Approval -----

  /** A scope of the pack covers the operation or one of its types; a request that gives
      neither is covered by any scope. */
  predicate Covered(scopes: seq<Name>, operation: Name, types: seq<Name>) {
    exists s :: s in scopes && s > 0 &&
      (s == operation || s in types || (operation == 0 && forall t :: t in types ==> t == 0))
  }

  lemma ScopesCover(scopes: seq<Name>, operation: Name, types: seq<Name>)
    ensures ApprovalRequiredFor(Scopes(scopes), operation, Scopes(types)) <==> Covered(scopes, operation, types)
  {
    hide Scopes;
    ScopesAreCanonical(scopes);
    ScopesAreCanonical(types);
    var canonical, kinds := Scopes(scopes), Scopes(types);
    assert kinds == [] <==> forall t :: t in types ==> t == 0 by {
      if kinds != [] { assert kinds[0] in kinds; }
      if t :| t in types && t != 0 { assert t in kinds; }
    }
    if ApprovalRequiredFor(canonical, operation, kinds) {
      if operation == 0 && kinds == [] {
        assert canonical[0] in canonical;
      } else {
        var i :| 0 <= i < |canonical| && (canonical[i] == operation || canonical[i] in kinds);
        assert canonical[i] in canonical;
      }
    }
    if s :| s in scopes && s > 0 && (s == operation || s in types || (operation == 0 && forall t :: t in types ==> t == 0)) {
      assert s in canonical;
      var i :| 0 <= i < |canonical| && canonical[i] == s;
    }
  }

  /** A resolution is automatic exactly when the pack is, the caller asks for no more, and no
      scope of the pack covers what is to be done; otherwise it asks for approval. */
  lemma ApprovalIsAskedExactly(registry: Registry, pack: Pack, r: Request)
    requires Resolve(registry, pack, r).Ok?
    ensures var res := Resolve(registry, pack, r).value;
            && (res.approval == Automatic <==>
                  && pack.body.mode == Given(Automatic) && r.mode in {Unset, Given(Automatic)}
                  && !Covered(pack.body.requireFor, r.operation, r.operationTypes))
            && (res.approval != Automatic ==> res.approval == Required)
            && (res.reindex <==> pack.body.reindex || r.reindex)
  {
    ResolutionOnlyTightens(registry, pack, r);
    ReindexIsEither(registry, pack, r);
    hide Resolve, Scopes, ApprovalRequiredFor, Covered, WellFormed, Filled;
    ScopesCover(pack.body.requireFor, r.operation, r.operationTypes);
  }

  lemma ReindexIsEither(registry: Registry, pack: Pack, r: Request)
    requires Resolve(registry, pack, r).Ok?
    ensures var res := Resolve(registry, pack, r).value;
            && res.snapshot.body == NormalBody(pack.body)
            && (res.reindex <==> pack.body.reindex || r.reindex)
  {
    hide Added, Scopes, ApprovalRequiredFor, WellFormed, Widens, Tightened, Filled, Selects;
  }

  /** The validators of a resolution are listed by id and then by version. */
  lemma ValidatorsAreListedInOrder(registry: Registry, pack: Pack, r: Request, i: nat, j: nat)
    requires Resolve(registry, pack, r).Ok? && i < j < |Resolve(registry, pack, r).value.validators|
    ensures var validators := Resolve(registry, pack, r).value.validators; InRefOrder(validators[i], validators[j])
  {
    hide Resolve;
    ResolvedValidators(registry, pack, r);
    var validators := Resolve(registry, pack, r).value.validators;
    assert !RefBefore(validators[j], validators[i]) && validators[i] != validators[j];
  }
}
