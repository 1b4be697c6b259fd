/** The absent-or-present and succeed-or-throw values used by every other module. */
module Wrappers {

  /** `undefined` or a value. */
  datatype Option<+T> = None | Some(value: T)

  /** A present, non-empty string is truthy. */
  predicate Truthy(x: Option<string>) {
    x.Some? && x.value != ""
  }

  /** A returned value, or the exception the source throws instead. */
  datatype Result<+T> = Ok(value: T) | Err(error: Error)

  datatype Error =
    | InvalidCount         // installment count must be >= 1
    | NegativeTotal        // total must be >= 0
    | NegativePayment      // payment must be >= 0
    | NoInstallments       // provide installments or splitInto; or the plan has none
    | SumMismatch          // installments must sum to the total
    | PlanNotFound
    | NoBatch              // the plan has no batch and no students were listed
    | InvoiceNotFound
    | AlreadyPaid
    | NoTenantContext      // the fail-closed error of the tenant plugin
    | MissingTenant        // a bypass save without an explicit tenantId
    | ForeignTenant        // a save under a tenant other than the document's
    | DuplicateKey         // error 11000 of a unique index
}
