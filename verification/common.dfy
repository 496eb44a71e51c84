/** Identifiers, time and money units, and the outcome codes shared by the ledger and the
    reception views of the Cristal hotel/shop back end. */
module Common {

  /** Primary keys are the database's auto-increment integers. */
  type ProductId = nat
  type RoomId = nat
  type ClientId = nat
  type SupplierId = nat
  type UserId = nat

  /** A point in time, in microseconds (the resolution of timezone.now()). */
  type Time = int

  datatype Option<+T> = None | Some(value: T)

  /** What a view ends with. Every outcome other than Ok leaves the database as it was:
      either the view returns before its atomic block, or the exception raised inside
      the block rolls it back. */
  datatype Outcome =
    | Ok
    | NotFound             // get_object_or_404 found no room, purchase, sale or product
    | NotAvailable         // occupying a room whose estado is not DISPONIBLE
    | WrongState           // marking cleaning / available from a status that does not allow it
    | NoActiveReservation  // the room has no ACTIVA reservation (the Http404 of that lookup)
    | MultipleActive       // get_object_or_404 met more than one ACTIVA reservation
    | InvalidForm          // a form or formset did not validate
    | BadQuantity          // int(cantidad) raised ValueError
    | Crash                // an unhandled NameError
}
