/** The records the component receives from its back end, and the outcome of
    one remote call. The HTTP transport itself is not modelled: each call is
    reduced to the outcome it resolves with. */
module Remote {
  import opened Ids

  /** A venue record of the discovery service; only the identifier takes part
      in any decision the component makes, the name stands for the remaining
      display fields. */
  datatype Venue = Venue(id: Id, name: string)

  /** One row of the saved-store listing; it carries `restaurant_id`. */
  datatype SavedRecord = SavedRecord(restaurantId: Id)

  /** How an awaited remote call resolved: with a response payload, or by
      throwing (network error, non-2xx status). */
  datatype Outcome<T> = Success(payload: T) | Failure
}
