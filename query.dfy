/** Procedure identities and call-site queries, the keys of the refinement cache. */
module Query {

  /** An opaque, globally unique handle of a procedure or loop (rustc's `DefId`). */
  datatype DefId = DefId(krate: nat, index: nat)

  /** The crate-local form of a `DefId` (rustc's `LocalDefId`). */
  datatype LocalDefId = LocalDefId(index: nat)

  /** An opaque generic substitution in force at a call site. */
  datatype Substs = Substs(args: seq<nat>)

  /** `SpecQuery`: the called procedure together with the substitution of the call.
      Equality is structural over both fields, as the hash map key requires. */
  datatype SpecQuery = SpecQuery(calledDefId: DefId, callSubsts: Substs)
}
