/** Identifiers and result types shared by every module. */
module Base {

  datatype Option<+T> = None | Some(value: T)

  /** The kinds of refusal the services report to their callers. */
  datatype Error = BadRequest | NotFound | Conflict | TooManyRequests | Unauthorized | Internal

  datatype Result<+T> = Ok(value: T) | Err(error: Error)

  type StoreId = int
  type ProductId = int
  type OfferId = int
  type SessionId = int

  /** Email addresses are canonical: trimmed and lower-cased. */
  type Email = string

  /** A payment reference; empty only on rows older than order-first checkout. */
  type Ref = string

  /** The canonical text of an order id; its first eight characters name its wallet credit. */
  type OrderId = s: string | 8 <= |s| witness "00000000"

  predicate NoDuplicates<T(==)>(xs: seq<T>) {
    forall i, j :: 0 <= i < j < |xs| ==> xs[i] != xs[j]
  }
}
