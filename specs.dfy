/** Access to procedure and loop specifications, with refinement of an
    implementation's specification against the trait method it implements, and a
    cache of refined specifications keyed by call-site query. */
module Specs {
  import opened Wrappers
  import opened Query
  import opened Typed

  /** The one diagnostic the cache emits: an implementation whose refined kind does
      not fit the trait method's kind. Message text and spans are not modelled. */
  datatype Diagnostic = InvalidSpecKind(
    implProc: DefId, traitProc: DefId, baseKind: ProcKind, refinedKind: ProcKind)

  /** The refinement cache (`refined_specs`). */
  type RefinedSpecs = map<SpecQuery, ProcSpec>

  /** The user-table half of `get_proc_spec`: the user-written specification graph
      of the callee, resolved against the query by the constraint resolver. */
  function UserProcSpec(env: Environment, user: DefSpecificationMap, query: SpecQuery): (r: Option<ProcSpec>)
    ensures query.calledDefId !in user.procSpecs ==> r.None?
    ensures query.calledDefId in user.procSpecs ==> r == env.resolveEmitErr(user.procSpecs[query.calledDefId], query)
  {
    match user.GetProcSpec(query.calledDefId)
    case None => None
    case Some(graph) => env.resolveEmitErr(graph, query)
  }

  /** `get_proc_spec` on explicit state: the cached refined entry for the query if
      there is one, otherwise the user table's. */
  function LookupProcSpec(env: Environment, user: DefSpecificationMap, refined: RefinedSpecs, query: SpecQuery): (r: Option<ProcSpec>)
    ensures query in refined ==> r == Some(refined[query])
    ensures query !in refined ==> r == UserProcSpec(env, user, query)
  {
    if query in refined then Some(refined[query]) else UserProcSpec(env, user, query)
  }

  /** The decision of `validate_refined_kind`: the diagnostics it emits. */
  function KindDiagnostics(env: Environment, implProc: DefId, traitProc: DefId, kind: SpecificationItem<ProcKind>): (d: seq<Diagnostic>)
    ensures |d| <= 1
    ensures |d| == 1 <==> env.validateKind(kind).Err?
    ensures |d| == 1 ==>
      d[0].implProc == implProc && d[0].traitProc == traitProc &&
      d[0].baseKind == env.validateKind(kind).error.baseKind &&
      d[0].refinedKind == env.validateKind(kind).error.refinedKind
  {
    match env.validateKind(kind)
    case Ok(_) => []
    case Err(InvalidSpecKindRefinement(baseKind, refinedKind)) =>
      [InvalidSpecKind(implProc, traitProc, baseKind, refinedKind)]
  }

  /** The trait query of `get_and_refine_proc_spec`: present exactly when the
      environment reports that the callee implements a trait method. */
  function TraitQuery(env: Environment, query: SpecQuery): (r: Option<SpecQuery>)
    ensures r.Some? <==> env.findTraitMethodSubsts(query.calledDefId, query.callSubsts).Some?
    ensures r.Some? ==> var (traitDefId, traitSubsts) := env.findTraitMethodSubsts(query.calledDefId, query.callSubsts).value;
      r.value == env.adaptToCall(query, traitDefId, traitSubsts)
  {
    match env.findTraitMethodSubsts(query.calledDefId, query.callSubsts)
    case None => None
    case Some((traitDefId, traitSubsts)) => Some(env.adaptToCall(query, traitDefId, traitSubsts))
  }

  /** The specification that `perform_proc_spec_refinement` stores: the impl's
      specification (empty when it has none) refined by the trait's, or the impl's
      unchanged when the trait has none. */
  function RefinedSpec(env: Environment, user: DefSpecificationMap, refined: RefinedSpecs,
                       implQuery: SpecQuery, traitQuery: SpecQuery): (r: ProcSpec)
    ensures LookupProcSpec(env, user, refined, traitQuery).None? ==>
      r == LookupProcSpec(env, user, refined, implQuery).GetOr(EmptyProcSpec())
    ensures LookupProcSpec(env, user, refined, traitQuery).None? && LookupProcSpec(env, user, refined, implQuery).None? ==>
      r == EmptyProcSpec()
    ensures LookupProcSpec(env, user, refined, traitQuery).Some? ==>
      r == env.refine(LookupProcSpec(env, user, refined, implQuery).GetOr(EmptyProcSpec()),
                      LookupProcSpec(env, user, refined, traitQuery).value)
  {
    var implSpec := LookupProcSpec(env, user, refined, implQuery).GetOr(EmptyProcSpec());
    match LookupProcSpec(env, user, refined, traitQuery)
    case Some(traitSpec) => env.refine(implSpec, traitSpec)
    case None => implSpec
  }

  /** What one call returns, the cache after it, and the diagnostics it emitted. */
  datatype Outcome = Outcome(spec: Option<ProcSpec>, refined: RefinedSpecs, emitted: seq<Diagnostic>)

  /** `perform_proc_spec_refinement` on explicit state. */
  function Refinement(env: Environment, user: DefSpecificationMap, refined: RefinedSpecs,
                      implQuery: SpecQuery, traitQuery: SpecQuery): (o: Outcome)
    ensures o.refined.Keys == refined.Keys + {implQuery}
    ensures forall k :: k in refined && k != implQuery ==> o.refined[k] == refined[k]
    ensures o.refined[implQuery] == RefinedSpec(env, user, refined, implQuery, traitQuery)
    ensures o.spec == Some(o.refined[implQuery])
    ensures o.emitted == KindDiagnostics(env, implQuery.calledDefId, traitQuery.calledDefId, o.refined[implQuery].kind)
  {
    var spec := RefinedSpec(env, user, refined, implQuery, traitQuery);
    var refined' := refined[implQuery := spec];
    Outcome(LookupProcSpec(env, user, refined', implQuery), refined',
            KindDiagnostics(env, implQuery.calledDefId, traitQuery.calledDefId, spec.kind))
  }

  /** `get_and_refine_proc_spec` on explicit state. */
  function GetAndRefine(env: Environment, user: DefSpecificationMap, refined: RefinedSpecs, query: SpecQuery): (o: Outcome)
    ensures forall k :: k in refined ==> k in o.refined && o.refined[k] == refined[k]
    ensures o.refined.Keys <= refined.Keys + {query}
    ensures o.refined != refined <==> query !in refined && TraitQuery(env, query).Some?
    ensures query !in refined && TraitQuery(env, query).Some? ==> o.spec == Some(o.refined[query])
    ensures o.refined == refined ==> o.spec == LookupProcSpec(env, user, refined, query) && o.emitted == []
    ensures |o.emitted| <= 1
  {
    if query !in refined && TraitQuery(env, query).Some? then
      Refinement(env, user, refined, query, TraitQuery(env, query).value)
    else
      Outcome(LookupProcSpec(env, user, refined, query), refined, [])
  }

  /** `Specifications`: the user table, fixed at construction, and the refinement
      cache that grows as queries are refined. Diagnostics handed to the
      environment are recorded in a ghost log. */
  class Specifications {
    const userTypedSpecs: DefSpecificationMap
    var refinedSpecs: RefinedSpecs
    ghost var diagnostics: seq<Diagnostic>

    /** `Specifications::new` */
    constructor (userTypedSpecs: DefSpecificationMap)
      ensures this.userTypedSpecs == userTypedSpecs
      ensures refinedSpecs == map[] && diagnostics == []
    {
      this.userTypedSpecs := userTypedSpecs;
      refinedSpecs := map[];
      diagnostics := [];
    }

    function GetUserTypedSpecs(): (r: DefSpecificationMap)
      ensures r == userTypedSpecs
    {
      userTypedSpecs
    }

    function GetExternSpecMap(): (r: map<DefId, LocalDefId>)
      ensures r == userTypedSpecs.externSpecs
    {
      GetUserTypedSpecs().externSpecs
    }

    /** `get_loop_spec`: a plain lookup in the user table; it reads neither the
        cache nor the environment. */
    function GetLoopSpec(env: Environment, query: SpecQuery): (r: Option<LoopSpec>)
      ensures r.Some? <==> query.calledDefId in userTypedSpecs.loopSpecs
      ensures r.Some? ==> r.value == userTypedSpecs.loopSpecs[query.calledDefId].baseSpec
    {
      match userTypedSpecs.GetLoopSpec(query.calledDefId)
      case None => None
      case Some(graph) => Some(graph.baseSpec)
    }

    /** `get_proc_spec`: a refined entry for the query wins over the user table. */
    function GetProcSpec(env: Environment, query: SpecQuery): (r: Option<ProcSpec>)
      reads this
      ensures query in refinedSpecs ==> r == Some(refinedSpecs[query])
      ensures query !in refinedSpecs ==> r == UserProcSpec(env, userTypedSpecs, query)
    {
      LookupProcSpec(env, userTypedSpecs, refinedSpecs, query)
    }

    /** `is_refined`: the query has a cache entry, which `get_proc_spec` then
        serves in any environment. */
    predicate IsRefined(query: SpecQuery): (r: bool)
      reads this
      ensures r <==> query in refinedSpecs
      ensures r ==> forall env :: GetProcSpec(env, query) == Some(refinedSpecs[query])
    {
      query in refinedSpecs
    }

    /** `validate_refined_kind`: emits one diagnostic when validation of the
        refined kind fails, and nothing otherwise. */
    method ValidateRefinedKind(env: Environment, implProcDefId: DefId, traitProcDefId: DefId,
                               kind: SpecificationItem<ProcKind>)
      modifies this`diagnostics
      ensures diagnostics == old(diagnostics) + KindDiagnostics(env, implProcDefId, traitProcDefId, kind)
    {
      match env.validateKind(kind) {
        case Ok(_) =>
        case Err(InvalidSpecKindRefinement(baseKind, refinedKind)) =>
          diagnostics := diagnostics + [InvalidSpecKind(implProcDefId, traitProcDefId, baseKind, refinedKind)];
      }
    }

    /** `perform_proc_spec_refinement`: stores the refined specification under the
        impl query, leaves every other entry alone, and returns the stored entry. */
    method PerformProcSpecRefinement(env: Environment, implQuery: SpecQuery, traitQuery: SpecQuery)
      returns (r: Option<ProcSpec>)
      modifies this
      ensures refinedSpecs ==
        old(refinedSpecs)[implQuery := RefinedSpec(env, userTypedSpecs, old(refinedSpecs), implQuery, traitQuery)]
      ensures diagnostics == old(diagnostics) +
        KindDiagnostics(env, implQuery.calledDefId, traitQuery.calledDefId, refinedSpecs[implQuery].kind)
      ensures r == Some(refinedSpecs[implQuery])
    {
      var implSpec := GetProcSpec(env, implQuery).GetOr(EmptyProcSpec());
      var traitSpec := GetProcSpec(env, traitQuery);
      var refined := if traitSpec.Some? then env.refine(implSpec, traitSpec.value) else implSpec;
      ValidateRefinedKind(env, implQuery.calledDefId, traitQuery.calledDefId, refined.kind);
      refinedSpecs := refinedSpecs[implQuery := refined];
      r := GetProcSpec(env, implQuery);
    }

    /** `get_and_refine_proc_spec`: refines an unrefined query whose callee
        implements a trait method, and otherwise reads through to `get_proc_spec`. */
    method GetAndRefineProcSpec(env: Environment, query: SpecQuery) returns (r: Option<ProcSpec>)
      modifies this
      ensures var o := GetAndRefine(env, userTypedSpecs, old(refinedSpecs), query);
        r == o.spec && refinedSpecs == o.refined && diagnostics == old(diagnostics) + o.emitted
    {
      if !IsRefined(query) {
        var found := env.findTraitMethodSubsts(query.calledDefId, query.callSubsts);
        if found.Some? {
          var (traitDefId, traitSubsts) := found.value;
          var traitQuery := env.adaptToCall(query, traitDefId, traitSubsts);
          var refined := PerformProcSpecRefinement(env, query, traitQuery);
          // The source asserts this before returning; the insertion just above makes it hold.
          assert refined.Some?;
          return refined;
        }
      }
      r := GetProcSpec(env, query);
    }
  }
}
