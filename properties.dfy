/** Properties of the specification cache: what one call to
    `get_and_refine_proc_spec` does, and what holds across a whole analysis pass
    of such calls on one `Specifications`. */
module SpecsProperties {
  import opened Wrappers
  import opened Query
  import opened Typed
  import opened Specs

  // ---------------------------------------------------------------------------
  // Construction and the pure lookups

  /** A fresh `Specifications` has an empty cache, keeps the table it was given,
      and every procedure lookup reads through to that table. */
  method NewReadsThrough(env: Environment, user: DefSpecificationMap, query: SpecQuery)
    returns (s: Specifications)
    ensures fresh(s) && s.userTypedSpecs == user && s.GetUserTypedSpecs() == user
    ensures s.refinedSpecs == map[] && s.diagnostics == []
    ensures s.GetExternSpecMap() == user.externSpecs
    ensures !s.IsRefined(query) && s.GetProcSpec(env, query) == UserProcSpec(env, user, query)
  {
    s := new Specifications(user);
  }

  /** `get_proc_spec` prefers a cached refined entry, whatever the user table says;
      for a query that is not cached the answer comes from the user table, whatever
      else the cache holds. */
  lemma GetProcSpecPrefersRefined(env: Environment, user: DefSpecificationMap, user': DefSpecificationMap,
                                  refined: RefinedSpecs, refined': RefinedSpecs, query: SpecQuery)
    ensures query in refined ==>
      LookupProcSpec(env, user, refined, query) == Some(refined[query]) == LookupProcSpec(env, user', refined, query)
    ensures query !in refined && query !in refined' ==>
      LookupProcSpec(env, user, refined, query) == LookupProcSpec(env, user, refined', query)
    ensures query !in refined ==>
      (LookupProcSpec(env, user, refined, query).Some? ==> query.calledDefId in user.procSpecs)
  {
  }

  /** `get_loop_spec` depends on nothing but the user table and the callee: not on
      the environment, the substitution or the cache. */
  lemma LoopSpecDependsOnlyOnCallee(s: Specifications, env: Environment, env': Environment,
                                    query: SpecQuery, query': SpecQuery)
    requires query.calledDefId == query'.calledDefId
    ensures s.GetLoopSpec(env, query) == s.GetLoopSpec(env', query')
  {
  }

  // ---------------------------------------------------------------------------
  // One call of get_and_refine_proc_spec

  /** A query already in the cache gets the cached value back; the cache is not
      changed and nothing is emitted. */
  lemma CachedQueryIsServedFromCache(env: Environment, user: DefSpecificationMap, refined: RefinedSpecs, query: SpecQuery)
    requires query in refined
    ensures GetAndRefine(env, user, refined, query) == Outcome(Some(refined[query]), refined, [])
  {
  }

  /** When the callee implements no trait method, the call reads through to the
      user table (resolved by the constraint resolver); the cache is not changed and
      nothing is emitted. */
  lemma NoTraitMethodReadsThrough(env: Environment, user: DefSpecificationMap, refined: RefinedSpecs, query: SpecQuery)
    requires query !in refined
    requires env.findTraitMethodSubsts(query.calledDefId, query.callSubsts).None?
    ensures GetAndRefine(env, user, refined, query) == Outcome(UserProcSpec(env, user, query), refined, [])
  {
  }

  /** When an unrefined query's callee implements a trait method, the call always
      returns a specification (the source's assertion cannot fail), and it is the
      impl's user specification, or the empty one, refined by the trait's, or the
      impl's alone when the trait query has none. */
  lemma RefinementReturnsRefinedSpec(env: Environment, user: DefSpecificationMap, refined: RefinedSpecs,
                                     query: SpecQuery, traitDefId: DefId, traitSubsts: Substs)
    requires query !in refined
    requires env.findTraitMethodSubsts(query.calledDefId, query.callSubsts) == Some((traitDefId, traitSubsts))
    ensures var o := GetAndRefine(env, user, refined, query);
      var implSpec := UserProcSpec(env, user, query).GetOr(EmptyProcSpec());
      var traitSpec := LookupProcSpec(env, user, refined, env.adaptToCall(query, traitDefId, traitSubsts));
      o.spec == Some(if traitSpec.Some? then env.refine(implSpec, traitSpec.value) else implSpec)
  {
  }

  /** A refinement adds exactly one cache entry, under the impl query and holding
      the returned value; every other entry is kept. */
  lemma RefinementAddsOneEntry(env: Environment, user: DefSpecificationMap, refined: RefinedSpecs, query: SpecQuery)
    requires query !in refined && TraitQuery(env, query).Some?
    ensures var o := GetAndRefine(env, user, refined, query);
      && o.refined.Keys == refined.Keys + {query}
      && |o.refined| == |refined| + 1
      && o.spec == Some(o.refined[query])
      && (forall k :: k in refined ==> o.refined[k] == refined[k])
  {
  }

  /** The diagnostics of one call: exactly one when the refined kind fails
      validation, citing the impl and the trait method; none when it passes, and
      none on a call that refines nothing. */
  lemma RefinementDiagnostics(env: Environment, user: DefSpecificationMap, refined: RefinedSpecs, query: SpecQuery)
    ensures var o := GetAndRefine(env, user, refined, query);
      if query !in refined && TraitQuery(env, query).Some? then
        && o.spec.Some?
        && o.emitted == KindDiagnostics(env, query.calledDefId, TraitQuery(env, query).value.calledDefId, o.spec.value.kind)
        && (|o.emitted| == 1 <==> env.validateKind(o.spec.value.kind).Err?)
      else
        o.emitted == []
  {
  }

  /** Validation reports and carries on: what validation decides has no effect on
      the value returned or on the cache. */
  lemma ValidationDoesNotChangeResult(env: Environment, validate: SpecificationItem<ProcKind> -> Result<(), KindError>,
                                      user: DefSpecificationMap, refined: RefinedSpecs, query: SpecQuery)
    ensures var o := GetAndRefine(env, user, refined, query);
      var o' := GetAndRefine(env.(validateKind := validate), user, refined, query);
      o.spec == o'.spec && o.refined == o'.refined
  {
  }

  // ---------------------------------------------------------------------------
  // A pass: a sequence of calls on one Specifications

  /** The results, final cache and diagnostics of calling `get_and_refine_proc_spec`
      on each query in turn. */
  datatype Pass = Pass(results: seq<Option<ProcSpec>>, refined: RefinedSpecs, emitted: seq<Diagnostic>)

  function Run(env: Environment, user: DefSpecificationMap, refined: RefinedSpecs, queries: seq<SpecQuery>): (p: Pass)
    ensures |p.results| == |queries|
    decreases |queries|
  {
    if queries == [] then Pass([], refined, [])
    else
      var o := GetAndRefine(env, user, refined, queries[0]);
      var rest := Run(env, user, o.refined, queries[1..]);
      Pass([o.spec] + rest.results, rest.refined, o.emitted + rest.emitted)
  }

  /** The cache is append-only: every entry present before a pass is still there,
      with the same value, after it. */
  lemma {:induction false} RunAppendOnly(env: Environment, user: DefSpecificationMap, refined: RefinedSpecs, queries: seq<SpecQuery>)
    ensures var final := Run(env, user, refined, queries).refined;
      forall k :: k in refined ==> k in final && final[k] == refined[k]
    decreases |queries|
  {
    if queries != [] {
      var o := GetAndRefine(env, user, refined, queries[0]);
      RunAppendOnly(env, user, o.refined, queries[1..]);
    }
  }

  /** Only refinement populates the cache: every entry a pass adds is keyed by a
      query of the pass whose callee implements a trait method. */
  lemma {:induction false} RunAddsOnlyTraitImpls(env: Environment, user: DefSpecificationMap, refined: RefinedSpecs, queries: seq<SpecQuery>)
    ensures var final := Run(env, user, refined, queries).refined;
      forall k :: k in final && k !in refined ==> k in queries && TraitQuery(env, k).Some?
    decreases |queries|
  {
    if queries != [] {
      var o := GetAndRefine(env, user, refined, queries[0]);
      RunAddsOnlyTraitImpls(env, user, o.refined, queries[1..]);
      assert forall k :: k in queries[1..] ==> k in queries;
    }
  }

  /** The cache never shrinks, and a pass emits at most one kind diagnostic per
      entry it adds to the cache. */
  lemma {:induction false} RunDiagnosticsBounded(env: Environment, user: DefSpecificationMap, refined: RefinedSpecs, queries: seq<SpecQuery>)
    ensures var p := Run(env, user, refined, queries);
      |refined| <= |p.refined| && |p.emitted| <= |p.refined| - |refined|
    decreases |queries|
  {
    if queries != [] {
      var o := GetAndRefine(env, user, refined, queries[0]);
      RunDiagnosticsBounded(env, user, o.refined, queries[1..]);
      if queries[0] !in refined && TraitQuery(env, queries[0]).Some? {
        RefinementAddsOneEntry(env, user, refined, queries[0]);
      }
    }
  }

  /** Running two sequences one after the other is running their concatenation. */
  lemma {:induction false} RunConcat(env: Environment, user: DefSpecificationMap, refined: RefinedSpecs, a: seq<SpecQuery>, b: seq<SpecQuery>)
    ensures Run(env, user, refined, a + b).refined == Run(env, user, Run(env, user, refined, a).refined, b).refined
    decreases |a|
  {
    if a != [] {
      var o := GetAndRefine(env, user, refined, a[0]);
      assert (a + b)[1..] == a[1..] + b;
      RunConcat(env, user, o.refined, a[1..], b);
    } else {
      assert a + b == b;
    }
  }

  /** The j-th result of a pass is the answer of one call made on the cache that the
      calls before it left. */
  lemma {:induction false} RunResultAt(env: Environment, user: DefSpecificationMap, refined: RefinedSpecs, queries: seq<SpecQuery>, j: nat)
    requires j < |queries|
    ensures Run(env, user, refined, queries).results[j] ==
      GetAndRefine(env, user, Run(env, user, refined, queries[..j]).refined, queries[j]).spec
    decreases |queries|
  {
    if j > 0 {
      var o := GetAndRefine(env, user, refined, queries[0]);
      RunResultAt(env, user, o.refined, queries[1..], j - 1);
      assert queries[..j][0] == queries[0];
      assert queries[..j][1..] == queries[1..][..j - 1];
    }
  }

  /** Whatever calls come in between, asking for a query again gives the answer it
      got the first time. */
  lemma AnswerSurvivesLaterCalls(env: Environment, user: DefSpecificationMap, refined: RefinedSpecs,
                                 query: SpecQuery, between: seq<SpecQuery>)
    ensures var o := GetAndRefine(env, user, refined, query);
      GetAndRefine(env, user, Run(env, user, o.refined, between).refined, query).spec == o.spec
  {
    var o := GetAndRefine(env, user, refined, query);
    RunAppendOnly(env, user, o.refined, between);
    RunAddsOnlyTraitImpls(env, user, o.refined, between);
  }

  /** Memoisation is deterministic within a pass: two calls with equal queries
      return equal specifications. */
  lemma RunDeterministic(env: Environment, user: DefSpecificationMap, refined: RefinedSpecs, queries: seq<SpecQuery>, i: nat, j: nat)
    requires i < j < |queries| && queries[i] == queries[j]
    ensures Run(env, user, refined, queries).results[i] == Run(env, user, refined, queries).results[j]
  {
    var q := queries[i];
    var before := Run(env, user, refined, queries[..i]).refined;
    var o := GetAndRefine(env, user, before, q);
    var between := queries[i + 1..j];
    RunResultAt(env, user, refined, queries, i);
    RunResultAt(env, user, refined, queries, j);
    assert queries[..j] == queries[..i] + [q] + between;
    RunConcat(env, user, refined, queries[..i] + [q], between);
    RunConcat(env, user, refined, queries[..i], [q]);
    assert Run(env, user, before, [q]).refined == o.refined;
    AnswerSurvivesLaterCalls(env, user, before, q, between);
  }

  // ---------------------------------------------------------------------------
  // Chains of trait methods

  /** A three-level chain: `Impl` implements `Trait`'s method, which itself
      implements `Grand`'s; only `Grand` declares a kind. The refinement here
      inherits an unspecified kind from the base and keeps everything else. */
  const Grand := DefId(0, 0)
  const Trait := DefId(0, 1)
  const Impl := DefId(0, 2)
  const CallSubsts := Substs([])

  function ChainEnv(): (env: Environment) {
    Environment(
      (d: DefId, s: Substs) =>
        if d == Impl then Some((Trait, s)) else if d == Trait then Some((Grand, s)) else None,
      (q: SpecQuery, d: DefId, s: Substs) => SpecQuery(d, s),
      (g: SpecGraph<ProcSpec>, q: SpecQuery) => Some(g.baseSpec),
      (impl: ProcSpec, base: ProcSpec) =>
        if impl.kind.Unspecified? && !base.kind.Unspecified? then impl.(kind := Inherited(base.kind.value)) else impl,
      (k: SpecificationItem<ProcKind>) => Ok(()))
  }

  function ChainUser(): (user: DefSpecificationMap) {
    DefSpecificationMap(
      map[Grand := SpecGraph(EmptyProcSpec().(kind := Declared(Pure)), []),
          Trait := SpecGraph(EmptyProcSpec(), []),
          Impl := SpecGraph(EmptyProcSpec(), [])],
      map[], map[])
  }

  /** The trait side of a refinement is looked up with `get_proc_spec`, not resolved
      recursively, so along a chain the answer depends on call order: resolving
      `Impl` first leaves its kind unspecified, while resolving `Trait` first makes
      `Impl` inherit `Pure` from `Grand`. */
  lemma ChainDependsOnOrder()
    ensures Run(ChainEnv(), ChainUser(), map[], [SpecQuery(Impl, CallSubsts)]).results[0]
         == Some(EmptyProcSpec())
    ensures Run(ChainEnv(), ChainUser(), map[], [SpecQuery(Trait, CallSubsts), SpecQuery(Impl, CallSubsts)]).results[1]
         == Some(EmptyProcSpec().(kind := Inherited(Pure)))
  {
  }
}
