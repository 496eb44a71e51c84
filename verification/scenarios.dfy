/** Two runs of the reception views on a small hotel: a whole stay from
    check-in to a free room again, and a room that is marked for cleaning while occupied
    and then let again. */
module Scenarios {
  import opened Common
  import opened Pricing
  import opened Inventory
  import opened Ledger
  import opened Reception

  /** Room 1 costs 100.00 a night and is free; product 7 sells at 15.00 with 10 units in
      stock; client 3 is active. The client stays two days with 10 % off (room cost
      200.00, total 180.00), consumes two units of product 7 (product cost 30.00, total
      210.00, stock 8), and checks out; the room can then be marked available, and a
      second checkout finds no active reservation. */
  method TwoNightStay(now: Time, user: UserId)
    returns (occupied: Outcome, consumed: Outcome, checkedOut: Outcome, available: Outcome, again: Outcome, hotel: Hotel)
    ensures occupied == Ok && consumed == Ok && checkedOut == Ok && available == Ok
    ensures again == NoActiveReservation
    ensures hotel.Valid() && |hotel.reservations| == 1
    ensures var stay := hotel.reservations[0];
            && stay.status == Finalizada && stay.checkIn == now
            && stay.roomCost == 200_00 && stay.productCost == 30_00 && stay.totalCost == 210_00
    ensures hotel.store.stock == map[7 := 8]
    ensures hotel.rooms == map[1 := Room(100_00, Disponible)]
  {
    occupied, hotel := CheckInTwoNights(now);
    consumed := ChargeTwoUnits(hotel, user);
    checkedOut := hotel.Checkout(1, now + MicrosPerDay);
    available := hotel.MarkAvailable(1);
    again := hotel.Checkout(1, now + MicrosPerDay);
  }

  /** The occupy step of the stay. */
  method CheckInTwoNights(now: Time) returns (occupied: Outcome, hotel: Hotel)
    ensures fresh(hotel) && fresh(hotel.store)
    ensures occupied == Ok && hotel.Valid()
    ensures hotel.reservations == [Reservation(1, 3, Activa, now, now + 2 * MicrosPerDay, Some(1000), 200_00, 0, 180_00, None)]
    ensures hotel.rooms == map[1 := Room(100_00, Ocupada)]
    ensures hotel.store.price == map[7 := 15_00] && hotel.store.stock == map[7 := 10]
    ensures hotel.store.sales == map[] && hotel.store.nextSale == 0
  {
    var store := new Store(map[7 := 15_00], map[7 := 10]);
    hotel := new Hotel(store, {3}, map[1 := Room(100_00, Disponible)]);
    var form := OccupyForm(3, now + 2 * MicrosPerDay, Some(1000), "EFECTIVO", 180_00, [], true);
    TwoNightsTenPercentOff(now);
    occupied := hotel.Occupy(1, form, now);
  }

  /** The consumption step of the stay: two units of product 7 open the stay's sale.
      The view as written crashes on this very request. */
  method ChargeTwoUnits(hotel: Hotel, user: UserId) returns (consumed: Outcome)
    requires hotel.Valid() && |hotel.reservations| == 1
    requires hotel.reservations[0].room == 1 && hotel.reservations[0].status == Activa && hotel.reservations[0].sale == None
    requires 1 in hotel.rooms
    requires hotel.store.price == map[7 := 15_00] && hotel.store.stock == map[7 := 10] && hotel.store.nextSale == 0
    modifies hotel, hotel.store
    ensures consumed == Ok && hotel.Valid()
    ensures hotel.reservations == [old(hotel.reservations[0]).(sale := Some(0),
                                                               productCost := old(hotel.reservations[0].productCost) + 30_00,
                                                               totalCost := old(hotel.reservations[0].totalCost) + 30_00)]
    ensures hotel.store.stock == map[7 := 8]
    ensures hotel.rooms == old(hotel.rooms)
    ensures ConsumptionAsWritten(Zip([Some(7)], [Numeral(2)]), hotel.store.price) == Crash
  {
    assert CountActive(hotel.reservations, 1) == 1 by {
      assert hotel.reservations[1..] == [];
    }
    OneLineCrashes(hotel.store.price, 7);
    assert [Line(7, 2, 15_00)][..0] == [];
    assert Amount([Line(7, 2, 15_00)]) == 30_00;
    assert Adjust(map[7 := 10], [Line(7, 2, 15_00)], Outbound) == map[7 := 8];
    consumed := hotel.RegisterConsumption(1, user, [Some(7)], [Numeral(2)]);
  }

  /** Room 1 is occupied by client 3, marked for cleaning while still occupied (its
      reservation stays ACTIVA), marked available and occupied again by client 4. The
      room now has two active reservations, so registering a consumption fails with
      MultipleObjectsReturned, and a checkout closes only the older stay. */
  method ReopenedRoom(now: Time, user: UserId)
    returns (cleaning: Outcome, reopened: Outcome, consumed: Outcome, checkedOut: Outcome, stillActive: nat, hotel: Hotel)
    ensures cleaning == Ok && reopened == Ok && checkedOut == Ok
    ensures consumed == MultipleActive
    ensures stillActive == 1
    ensures hotel.Valid() && |hotel.reservations| == 2
    ensures hotel.reservations[0].status == Finalizada && hotel.reservations[1].status == Activa
  {
    var store := new Store(map[7 := 15_00], map[7 := 10]);
    hotel := new Hotel(store, {3, 4}, map[1 := Room(100_00, Disponible)]);
    var first := OccupyForm(3, now + MicrosPerDay, None, "EFECTIVO", 100_00, [], true);
    var second := OccupyForm(4, now + MicrosPerDay, None, "TARJETA", 100_00, [], true);
    var o := hotel.Occupy(1, first, now);
    cleaning := hotel.MarkCleaning(1);
    o := hotel.MarkAvailable(1);
    reopened := hotel.Occupy(1, second, now);
    assert CountActive(hotel.reservations, 1) == 2 by {
      assert hotel.reservations[1..][1..] == [];
    }
    consumed := hotel.RegisterConsumption(1, user, [Some(7)], [Numeral(2)]);
    checkedOut := hotel.Checkout(1, now + MicrosPerDay);
    stillActive := CountActive(hotel.reservations, 1);
  }
}
