/** Shared vocabulary of the order-management model: optional values,
    identities, timestamps, and the `first()` of a query result. */
module Tables {

  /** A nullable column or an absent lookup result. */
  datatype Option<+T> = None | Some(value: T)

  /** Row identities. The source generates them with uuid4; here they are
      drawn from a counter kept by the object that owns the table. */
  type Id = nat

  /** Opaque timestamps; the source reads them from datetime.utcnow. */
  type Timestamp = nat

  /** The first row of a query result, as `.scalars().first()` returns it. */
  function First<T>(rows: seq<T>): (r: Option<T>)
    ensures r.None? <==> rows == []
    ensures r.Some? ==> r.value == rows[0]
  {
    if rows == [] then None else Some(rows[0])
  }
}
