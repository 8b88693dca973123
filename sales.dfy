/** A sale record, as the store hands it to the notifier. */
module Sales {
  import opened Wrappers

  datatype Status = Pending | Delivered | Cancelled

  /**
   * One transaction. `value` is in cents. `buyer` is `None` when the record
   * carries no buyer at all; the empty string is kept as `Some("")`.
   */
  datatype Sale = Sale(id: string, name: string, value: int, buyer: Option<string>, status: Status)
}
