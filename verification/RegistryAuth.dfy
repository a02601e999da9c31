/** Principals and scopes of the registry (internal/registry/auth.go). */
module RegistryAuth {
  datatype Scope = DisputeCreate | ModerationReview | OwnershipManage | ObservationPrepare | ObservationCommit

  datatype Principal = Principal(id: string, scopes: set<Scope>)

  /** Field syntax: principal identifiers, reasons, digests, instance identifiers and subjects. */
  datatype Syntax = Syntax(
    principalOk: string -> bool,
    reasonOk: string -> bool,
    digestOk: string -> bool,
    idOk: string -> bool,
    subjectOk: string -> bool)

  /** RequireScope. */
  predicate Holds(x: Syntax, p: Principal, scope: Scope)
  {
    x.principalOk(p.id) && scope in p.scopes
  }

  /** authorizeOwned. */
  predicate Owns(x: Syntax, p: Principal, owner: string, scope: Scope)
  {
    Holds(x, p, scope) && p.id == owner
  }

  /** No field may be empty, and the fixed review statement is a proper reason. */
  ghost predicate Sensible(x: Syntax)
  {
    !x.principalOk("") && !x.reasonOk("") && !x.digestOk("") && x.reasonOk("review_started")
  }
}
