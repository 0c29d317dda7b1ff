/** The typed specifications that the cache stores and hands out. Conditions are
    opaque payloads: the cache only moves them around. */
module Typed {
  import opened Wrappers
  import opened Query

  /** `ProcedureSpecificationKind`. */
  datatype ProcKind = Impure | Pure | Predicate

  /** `SpecificationItem<T>`: a component of a specification tagged with its
      provenance. `Refined` keeps the base value that a declared value was refined
      against, so that validation can compare the two. */
  datatype SpecificationItem<T> =
    | Unspecified
    | Declared(value: T)
    | Inherited(value: T)
    | Refined(base: T, value: T)

  /** An opaque condition (a pre- or postcondition, a pledge, a loop invariant). */
  datatype Expr = Expr(id: nat)

  /** `ProcedureSpecification`. */
  datatype ProcSpec = ProcSpec(
    kind: SpecificationItem<ProcKind>,
    pres: SpecificationItem<seq<Expr>>,
    posts: SpecificationItem<seq<Expr>>,
    pledges: SpecificationItem<seq<Expr>>)

  /** `ProcedureSpecification::empty()`: every component unspecified. */
  function EmptyProcSpec(): (s: ProcSpec)
    ensures s.kind.Unspecified? && s.pres.Unspecified?
    ensures s.posts.Unspecified? && s.pledges.Unspecified?
  {
    ProcSpec(Unspecified, Unspecified, Unspecified, Unspecified)
  }

  /** `LoopSpecification`. */
  datatype LoopSpec = LoopSpec(invariants: seq<Expr>)

  /** `SpecGraph<T>`: a base specification together with the variants selected by
      ghost constraints. */
  datatype SpecGraph<T> = SpecGraph(baseSpec: T, constrainedSpecs: seq<T>)

  /** `DefSpecificationMap`: the table of user-written specifications, built before
      the cache exists and never changed by it. */
  datatype DefSpecificationMap = DefSpecificationMap(
    procSpecs: map<DefId, SpecGraph<ProcSpec>>,
    loopSpecs: map<DefId, SpecGraph<LoopSpec>>,
    externSpecs: map<DefId, LocalDefId>)
  {
    function GetProcSpec(id: DefId): (r: Option<SpecGraph<ProcSpec>>) {
      if id in procSpecs then Some(procSpecs[id]) else None
    }

    function GetLoopSpec(id: DefId): (r: Option<SpecGraph<LoopSpec>>) {
      if id in loopSpecs then Some(loopSpecs[id]) else None
    }
  }

  /** `ProcedureSpecificationKindError`. */
  datatype KindError = InvalidSpecKindRefinement(baseKind: ProcKind, refinedKind: ProcKind)

  /** What the cache asks of its environment. The rustc `Environment` answers the
      trait query; the other fields are operations of the specification types whose
      bodies are not part of this model, so they are left uninterpreted. */
  datatype Environment = Environment(
    /** `env.find_trait_method_substs(called_def_id, call_substs)` */
    findTraitMethodSubsts: (DefId, Substs) -> Option<(DefId, Substs)>,
    /** `query.adapt_to_call(def_id, substs)` */
    adaptToCall: (SpecQuery, DefId, Substs) -> SpecQuery,
    /** `spec_graph.resolve_emit_err(env, &query)` */
    resolveEmitErr: (SpecGraph<ProcSpec>, SpecQuery) -> Option<ProcSpec>,
    /** `impl_spec.refine(trait_spec)` */
    refine: (ProcSpec, ProcSpec) -> ProcSpec,
    /** `kind.validate()` */
    validateKind: SpecificationItem<ProcKind> -> Result<(), KindError>)
}
