# Specification access and refinement cache

A Dafny model of `Specifications` from the Prusti verifier
(`prusti-viper/src/encoder/mir/specifications/specs.rs`). It holds the table of
user-written specifications, which never changes, and a cache `refined_specs`
that maps a call-site query (callee plus generic substitutions) to the
procedure specification refined for it. When a queried callee implements a
trait method, `get_and_refine_proc_spec` refines the impl's specification by
the trait method's. It validates the kind of the result, emitting a diagnostic
on failure and carrying on, stores the result under the query and returns the
stored entry. Every other query reads through to `get_proc_spec`, which looks
in the cache first and then in the user table.

Layout:

- `wrappers.dfy` (`Wrappers`): `Option` and `Result`.
- `query.dfy` (`Query`): `DefId`, `Substs`, `SpecQuery`.
- `typed.dfy` (`Typed`): `SpecificationItem`, `ProcSpec`, `LoopSpec`, `SpecGraph`,
  `DefSpecificationMap`, `KindError`, and `Environment`. The last bundles the
  collaborators whose bodies are outside this model as uninterpreted
  function-valued fields: `find_trait_method_substs`, `adapt_to_call`,
  `resolve_emit_err`, `refine` and `validate`.
- `specs.dfy` (`Specs`): the operations on explicit state. `LookupProcSpec` is
  `get_proc_spec`, `RefinedSpec`/`Refinement` is `perform_proc_spec_refinement`,
  `GetAndRefine` is `get_and_refine_proc_spec` and `KindDiagnostics` is the
  decision of `validate_refined_kind`. The same module has the class
  `Specifications`, whose methods update `refinedSpecs` in place and are proved
  against those functions. `refinedSpecs` is a `var` field. The user table is a
  `const` field, so no method can change it. Emitted diagnostics go to a ghost
  log `diagnostics`. `IsRefined` is the one-line `contains_key` test.
- `properties.dfy` (`SpecsProperties`): lemmas about one call and about a pass.
  A pass (`Run`) is a sequence of calls on one `Specifications`. The lemmas cover
  append-only growth, population by refinement only, determinism of
  memoisation, at most one diagnostic per added entry, and a three-level
  chain whose answer depends on call order.

Three facts about the code shape the model:

- The trait side of a refinement is fetched with `get_proc_spec` (specs.rs:98),
  not by a recursive call. Only a cached entry or the user-table entry of the
  trait method is used, so chains of trait methods do not compose.
  `ChainDependsOnOrder` shows the consequence. Refining `Impl` before `Trait`
  leaves `Impl`'s kind unspecified. Refining `Trait` first makes `Impl` inherit
  `Pure` from `Grand`.
- The impl's own specification also comes from `get_proc_spec`
  (specs.rs:93-96). That call looks in the cache and passes the table entry
  through `resolve_emit_err`.
- `get_and_refine_proc_spec` never calls itself, so no cycle guard is needed.

## Model

| member | source | states |
|---|---|---|
| `Specs.Specifications.constructor` | prusti-viper/src/encoder/mir/specifications/specs.rs:30-35 | the new cache is empty, the user table is the one given, and the diagnostic log is empty |
| `SpecsProperties.NewReadsThrough` | prusti-viper/src/encoder/mir/specifications/specs.rs:30-43 | on a fresh object the accessors return the given table and its extern map; no query is refined, and every procedure lookup reads through to the table |
| `Specs.Specifications.GetUserTypedSpecs` | prusti-viper/src/encoder/mir/specifications/specs.rs:37-39 | returns the table fixed at construction |
| `Specs.Specifications.GetExternSpecMap` | prusti-viper/src/encoder/mir/specifications/specs.rs:41-43 | returns the extern-spec map of the user table |
| `Specs.Specifications.GetLoopSpec` | prusti-viper/src/encoder/mir/specifications/specs.rs:45-54 | a loop spec is returned exactly when the user table has one for the callee, and it is that entry's base spec |
| `SpecsProperties.LoopSpecDependsOnlyOnCallee` | prusti-viper/src/encoder/mir/specifications/specs.rs:45-54 | the loop lookup ignores the environment, the substitutions and the cache: queries with the same callee get the same answer |
| `Specs.Specifications.GetProcSpec` | prusti-viper/src/encoder/mir/specifications/specs.rs:118-128 | a cached refined entry is returned when present; otherwise the user-table entry resolved by the constraint resolver |
| `SpecsProperties.GetProcSpecPrefersRefined` | prusti-viper/src/encoder/mir/specifications/specs.rs:118-128 | a cached entry wins whatever the user table holds; an uncached answer does not depend on the rest of the cache; it is only present if the table has an entry for the callee |
| `Specs.UserProcSpec` | prusti-viper/src/encoder/mir/specifications/specs.rs:124-126 | with no user-table graph for the callee there is no spec; otherwise it is `resolve_emit_err` of that graph for the query |
| `Specs.LookupProcSpec` | prusti-viper/src/encoder/mir/specifications/specs.rs:118-128 | on explicit state: a cached entry wins; otherwise the user-table answer |
| `Specs.Specifications.IsRefined` | prusti-viper/src/encoder/mir/specifications/specs.rs:130-132 | true exactly when the query has a cache entry, and then `GetProcSpec` serves that entry in every environment |
| `Specs.TraitQuery` | prusti-viper/src/encoder/mir/specifications/specs.rs:65-68 | present exactly when the environment reports a trait method, and then it is `adapt_to_call` of the query with that method and its substitutions |
| `Specs.RefinedSpec` | prusti-viper/src/encoder/mir/specifications/specs.rs:93-104 | with a trait spec, `refine` of the impl spec (empty if missing) by it; without one, the impl spec, which is empty when the impl has none either |
| `Specs.Refinement` | prusti-viper/src/encoder/mir/specifications/specs.rs:82-116 | on explicit state: the keys gain exactly the impl query, which holds `RefinedSpec`; every other entry is kept; the stored entry is returned; the kind diagnostics of the stored kind are emitted |
| `Specs.GetAndRefine` | prusti-viper/src/encoder/mir/specifications/specs.rs:56-80 | on explicit state: every old entry is kept, at most the query's key is added, and only when it was unrefined and has a trait method, in which case a spec is always returned; an unchanged cache means a plain `get_proc_spec` answer with nothing emitted; at most one diagnostic |
| `Specs.Specifications.GetAndRefineProcSpec` | prusti-viper/src/encoder/mir/specifications/specs.rs:56-80 | the returned spec, the new cache and the appended diagnostics are those of `GetAndRefine` on the old cache; the assertion at lines 70-74 is proved |
| `Specs.Specifications.PerformProcSpecRefinement` | prusti-viper/src/encoder/mir/specifications/specs.rs:82-116 | the cache gains the refined spec under the impl query and nothing else changes; the kind diagnostics are appended; the stored entry is returned |
| `Specs.Specifications.ValidateRefinedKind` | prusti-viper/src/encoder/mir/specifications/specs.rs:135-194 | appends the validation diagnostics of the kind to the log and changes nothing else |
| `Specs.KindDiagnostics` | prusti-viper/src/encoder/mir/specifications/specs.rs:142-147 | at most one diagnostic; exactly one iff validation fails, and it names the impl, the trait method and both kinds from the error |
| `SpecsProperties.CachedQueryIsServedFromCache` | prusti-viper/src/encoder/mir/specifications/specs.rs:64-79 | a cached query gets the cached value; the cache is unchanged and nothing is emitted |
| `SpecsProperties.NoTraitMethodReadsThrough` | prusti-viper/src/encoder/mir/specifications/specs.rs:64-80 | with no trait method the answer is the resolved user-table entry; the cache is unchanged and nothing is emitted |
| `SpecsProperties.RefinementReturnsRefinedSpec` | prusti-viper/src/encoder/mir/specifications/specs.rs:93-104 | an unrefined trait-method impl always gets a spec: the impl's, or the empty one, refined by the trait query's spec, or the impl's alone when the trait query has none |
| `SpecsProperties.RefinementAddsOneEntry` | prusti-viper/src/encoder/mir/specifications/specs.rs:114-115 | refinement adds exactly the impl query's key, keeps every other entry, and returns the stored value |
| `SpecsProperties.RefinementDiagnostics` | prusti-viper/src/encoder/mir/specifications/specs.rs:106-111 | a refinement emits the validation diagnostics of the refined kind: exactly one on a validation error, none on success; a call that refines nothing emits nothing |
| `SpecsProperties.ValidationDoesNotChangeResult` | prusti-viper/src/encoder/mir/specifications/specs.rs:106-115 | the returned value and the cache do not depend on what validation decides |
| `SpecsProperties.RunAppendOnly` | prusti-viper/src/encoder/mir/specifications/specs.rs:114 | over any sequence of calls, every entry already in the cache is kept with its value |
| `SpecsProperties.RunAddsOnlyTraitImpls` | prusti-viper/src/encoder/mir/specifications/specs.rs:64-79 | every entry a sequence of calls adds is keyed by one of its queries whose callee implements a trait method |
| `SpecsProperties.RunDiagnosticsBounded` | prusti-viper/src/encoder/mir/specifications/specs.rs:106-114 | the cache never shrinks, and a sequence of calls emits no more diagnostics than the entries it adds |
| `SpecsProperties.AnswerSurvivesLaterCalls` | prusti-viper/src/encoder/mir/specifications/specs.rs:64-79 | whatever calls come in between, asking a query again returns the answer it got before |
| `SpecsProperties.RunDeterministic` | prusti-viper/src/encoder/mir/specifications/specs.rs:114-127 | within a sequence of calls, equal queries get equal specifications |
| `SpecsProperties.ChainDependsOnOrder` | prusti-viper/src/encoder/mir/specifications/specs.rs:98 | in a three-level chain the impl's refined kind depends on whether the middle trait method was refined first |

## Left out

- Diagnostic content: message text, spans, path strings and the emission call (specs.rs:148-191). The model records only which diagnostic was emitted: the impl, the trait method and both kinds.
- The call `trait_of_item(trait_proc_def_id).unwrap()` (specs.rs:150) panics when a failing trait method has no owning trait. The model does not capture that panic.
- `trace!` and `debug!` logging.
- `find_trait_method_substs`, `adapt_to_call`, `resolve_emit_err`, `Refinable::refine` and `SpecificationItem::validate` are uninterpreted function-valued fields of `Environment`. Their bodies are not part of this model. Diagnostics that `resolve_emit_err` itself emits are not logged.
- The `DefSpecificationMap` lookups `get_proc_spec` and `get_loop_spec` are modelled as plain map lookups. Their source is not part of this model.
- `SpecificationItem` and `ProcedureSpecification` are cut down. The cache reads only `kind` (specs.rs:110). Preconditions, postconditions and pledges are opaque payloads that it passes through, and the model's other components are omitted.
- Returned references (`Option<&ProcedureSpecification>`) are modelled as values, so "the cache's own instance" is indistinguishable from an equal value.
- Lifetimes and the hash map's hashing are not modelled; the cache is a Dafny `map`.
