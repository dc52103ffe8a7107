/** The `@assigner(assigned_fields=..., dependent_fields=..., mode=...)` declaration
    that a decorator attaches to a handler, as data.
 */
module Declarations {
  import opened Values

  /** The `mode=` string of a declaration. */
  datatype Mode = Auto | Manual | AutoFirst

  /** One `@assigner(...)` declaration: the fields it writes, the fields it reads, its mode. */
  datatype AssignerSpec = AssignerSpec(assignedFields: seq<string>, dependentFields: seq<string>, mode: Mode)

  /** A result agrees with its declaration: a success writes exactly the declared fields. */
  predicate OutputsMatch(spec: AssignerSpec, r: AssignerResult<string>) {
    r.Success? ==> r.outputs.Keys == set f | f in spec.assignedFields
  }
}
