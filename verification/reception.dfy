/** The reception views: occupying a room, checking out, the cleaning cycle, and charging
    consumptions from the shop to the stay.

    A room moves DISPONIBLE -> OCUPADA (occupy) -> LIMPIEZA (checkout, or marked by hand)
    -> DISPONIBLE (marked available); marking cleaning is also allowed from DISPONIBLE.
    A reservation is ACTIVA from the occupy view until a checkout makes it FINALIZADA.
    Every view first checks its guards and then makes all of its changes, which is what
    its transaction.atomic block guarantees: an exception inside the block rolls every
    change back. */
module Reception {
  import opened Common
  import opened Pricing
  import opened Inventory
  import opened Ledger

  datatype RoomStatus = Disponible | Ocupada | Limpieza

  /** A Habitacion: its nightly price in cents and its status. */
  datatype Room = Room(nightlyPrice: int, status: RoomStatus)

  /** The views only ever write these two states of a Reserva. */
  datatype ReservationStatus = Activa | Finalizada

  /** A Reserva. The discount is kept as the form gave it (hundredths of a percent, or
      none); the costs are in cents; `sale` is the id of the linked Venta, if any. */
  datatype Reservation = Reservation(
    room: RoomId,
    client: ClientId,
    status: ReservationStatus,
    checkIn: Time,
    checkOut: Time,
    discount: Option<int>,
    roomCost: int,
    productCost: int,
    totalCost: int,
    sale: Option<nat>)

  /** A Pago, attached to the reservation with index `reservation`. */
  datatype Payment = Payment(reservation: nat, kind: string, received: int)

  /** An Acompanante, attached to the reservation with index `reservation`. */
  datatype Companion = Companion(reservation: nat, name: string, document: string)

  /** One companion form of the occupy page: full name and identity document. */
  datatype Guest = Guest(name: string, document: string)

  /** What the occupy view receives: the ReservaForm fields (client, planned departure,
      discount), the PagoForm fields and the companion formset. `fieldsValid` stands for
      every field-level check this model does not see (date format, required fields,
      decimal places, payment type choices); the check it does see is that the client
      must be an active one. */
  datatype OccupyForm = OccupyForm(
    client: ClientId,
    checkOut: Time,
    discount: Option<int>,
    paymentKind: string,
    received: int,
    guests: seq<FormRow<Guest>>,
    fieldsValid: bool)

  /** The discount the cost formula uses: a missing one counts as zero. */
  function DiscountOrZero(d: Option<int>): int {
    if d.Some? then d.value else 0
  }

  /** The reservation the occupy view saves for `room` at time `now`. */
  function Booked(room: RoomId, nightlyPrice: int, form: OccupyForm, now: Time): (r: Reservation)
    ensures ActiveIn(r, room) && r.client == form.client && r.checkIn == now && r.checkOut == form.checkOut
    ensures r.roomCost == RoomCost(nightlyPrice, Nights(now, form.checkOut)) && r.productCost == 0 && r.sale.None?
    ensures r.discount == form.discount
    ensures r.totalCost == DiscountedCost(r.roomCost, DiscountOrZero(form.discount))
    ensures CostsAgree(r)
  {
    var roomCost := RoomCost(nightlyPrice, Nights(now, form.checkOut));
    Reservation(room, form.client, Activa, now, form.checkOut, form.discount,
                roomCost, 0, DiscountedCost(roomCost, DiscountOrZero(form.discount)), None)
  }

  /** The companions the occupy view saves: the kept companion forms, attached to the
      reservation with index `id`. */
  function Enrolled(id: nat, guests: seq<Guest>): (cs: seq<Companion>)
    ensures |cs| == |guests|
    ensures forall k | 0 <= k < |cs| ::
              cs[k].reservation == id && cs[k].name == guests[k].name && cs[k].document == guests[k].document
  {
    seq(|guests|, k requires 0 <= k < |guests| => Companion(id, guests[k].name, guests[k].document))
  }

  /** The total cost of a stay is its discounted room cost plus what it has consumed:
      the occupy view sets it so, and every consumption adds the same amount to both
      the product cost and the total cost. */
  predicate CostsAgree(r: Reservation) {
    r.totalCost == DiscountedCost(r.roomCost, DiscountOrZero(r.discount)) + r.productCost
  }

  // ---------------------------------------------------------------------------
  // Active reservations of a room

  predicate ActiveIn(r: Reservation, room: RoomId) {
    r.room == room && r.status == Activa
  }

  /** The reservation checkout_habitacion acts on: the ACTIVA reservation of the room
      with the lowest primary key, as .first() on an unordered queryset picks it. */
  function FirstActive(rs: seq<Reservation>, room: RoomId): (first: Option<nat>)
    ensures first.None? <==> forall k | 0 <= k < |rs| :: !ActiveIn(rs[k], room)
    ensures first.Some? ==>
              && first.value < |rs| && ActiveIn(rs[first.value], room)
              && forall k | 0 <= k < first.value :: !ActiveIn(rs[k], room)
  {
    if rs == [] then None
    else if ActiveIn(rs[0], room) then Some(0)
    else
      match FirstActive(rs[1..], room)
      case None => None
      case Some(j) => Some(j + 1)
  }

  /** How many ACTIVA reservations the room has. */
  function CountActive(rs: seq<Reservation>, room: RoomId): (c: nat)
    ensures c <= |rs|
  {
    if rs == [] then 0
    else (if ActiveIn(rs[0], room) then 1 else 0) + CountActive(rs[1..], room)
  }

  /** A room has no active reservation to count exactly when checkout finds none. */
  lemma {:induction false} CountActiveZero(rs: seq<Reservation>, room: RoomId)
    ensures CountActive(rs, room) == 0 <==> FirstActive(rs, room).None?
  {
    if rs != [] {
      CountActiveZero(rs[1..], room);
    }
  }

  /** A new reservation adds one to the count of its room if it is active. */
  lemma {:induction false} CountActiveAppend(rs: seq<Reservation>, r: Reservation, room: RoomId)
    ensures CountActive(rs + [r], room) == CountActive(rs, room) + (if ActiveIn(r, room) then 1 else 0)
  {
    if rs == [] {
      assert [] + [r] == [r];
      assert [r][1..] == [];
    } else {
      assert (rs + [r])[1..] == rs[1..] + [r];
      CountActiveAppend(rs[1..], r, room);
    }
  }

  /** Rewriting one reservation changes the count by what that reservation contributes. */
  lemma {:induction false} CountActiveUpdate(rs: seq<Reservation>, i: nat, r: Reservation, room: RoomId)
    requires i < |rs|
    ensures CountActive(rs[i := r], room)
            == CountActive(rs, room) - (if ActiveIn(rs[i], room) then 1 else 0) + (if ActiveIn(r, room) then 1 else 0)
  {
    if i > 0 {
      assert rs[i := r][1..] == rs[1..][i - 1 := r];
      CountActiveUpdate(rs[1..], i - 1, r, room);
    }
  }

  /** Rewriting a reservation without touching its room or status leaves every room's
      count as it was. */
  lemma CountActiveKept(rs: seq<Reservation>, i: nat, r: Reservation)
    requires i < |rs| && r.room == rs[i].room && r.status == rs[i].status
    ensures forall q :: CountActive(rs[i := r], q) == CountActive(rs, q)
  {
    forall q ensures CountActive(rs[i := r], q) == CountActive(rs, q) {
      CountActiveUpdate(rs, i, r, q);
    }
  }

  // ---------------------------------------------------------------------------
  // The consumption request

  /** One cantidad[] value as posted: empty, a numeral int() accepts, or text it rejects. */
  datatype Quantity = Empty | Numeral(n: int) | Garbage

  /** One (producto_id[], cantidad[]) pair; a blank product id is None. */
  datatype Request = Request(pid: Option<ProductId>, qty: Quantity)

  /** zip(prod_ids, cantidades): pairs up the two lists and stops at the shorter. */
  function Zip(pids: seq<Option<ProductId>>, qtys: seq<Quantity>): (reqs: seq<Request>)
    ensures |reqs| == if |pids| <= |qtys| then |pids| else |qtys|
    ensures forall k | 0 <= k < |reqs| :: reqs[k] == Request(pids[k], qtys[k])
  {
    if pids == [] || qtys == [] then []
    else [Request(pids[0], qtys[0])] + Zip(pids[1..], qtys[1..])
  }

  /** max(int(cant or 1), 1): an empty field counts as 1 and anything below 1 becomes 1. */
  function Clamp(q: Quantity): (c: int)
    requires !q.Garbage?
    ensures c >= 1
    ensures q.Numeral? && q.n >= 1 ==> c == q.n
    ensures q.Empty? || (q.Numeral? && q.n < 1) ==> c == 1
  {
    var v := if q.Empty? then 1 else q.n;
    if v >= 1 then v else 1
  }

  /** Why a single pair stops the view: an unknown product makes get_object_or_404 raise
      Http404, a malformed quantity makes int() raise ValueError. A blank id is skipped. */
  function Refusal(r: Request, price: map<ProductId, int>): (why: Option<Outcome>)
    ensures why.None? <==> r.pid.None? || (r.pid.value in price && !r.qty.Garbage?)
    ensures why.Some? ==> why.value == (if r.pid.value !in price then NotFound else BadQuantity)
  {
    if r.pid.None? then None
    else if r.pid.value !in price then Some(NotFound)
    else if r.qty.Garbage? then Some(BadQuantity)
    else None
  }

  /** The sale line a pair turns into: the clamped quantity at the product's price. */
  function SaleLine(r: Request, price: map<ProductId, int>): (ls: seq<Line>)
    requires Refusal(r, price).None?
    ensures |ls| == if r.pid.None? then 0 else 1
    ensures forall l | l in ls :: l.product == r.pid.value && l.qty == Clamp(r.qty) && l.unit == price[l.product]
  {
    if r.pid.None? then [] else [Line(r.pid.value, Clamp(r.qty), price[r.pid.value])]
  }

  datatype Charge = Rejected(why: Outcome) | Accepted(lines: seq<Line>)

  /** The loop of registrar_consumo, with every pair checked before anything is written:
      the pairs are taken in order, blank ids are skipped, and the first refused pair
      decides the outcome. */
  function Screen(reqs: seq<Request>, price: map<ProductId, int>): (c: Charge)
    ensures c.Accepted? <==> forall k | 0 <= k < |reqs| :: Refusal(reqs[k], price).None?
    ensures c.Rejected? ==> c.why == NotFound || c.why == BadQuantity
    ensures c.Accepted? ==>
              && |c.lines| <= |reqs|
              && LinesKnown(c.lines, price.Keys)
  {
    if reqs == [] then Accepted([])
    else
      match Refusal(reqs[0], price)
      case Some(why) => Rejected(why)
      case None =>
        match Screen(reqs[1..], price)
        case Rejected(why) => Rejected(why)
        case Accepted(rest) =>
          assert forall k | 1 <= k < |reqs| :: Refusal(reqs[k], price).None? by {
            forall k | 1 <= k < |reqs| ensures Refusal(reqs[k], price).None? {
              assert reqs[1..][k - 1] == reqs[k];
            }
          }
          Accepted(SaleLine(reqs[0], price) + rest)
  }

  /** Every accepted line carries at least one unit at the product's sale price. */
  lemma {:induction false} ScreenPriced(reqs: seq<Request>, price: map<ProductId, int>)
    requires Screen(reqs, price).Accepted?
    ensures var lines := Screen(reqs, price).lines;
            forall k | 0 <= k < |lines| :: lines[k].product in price && lines[k].qty >= 1 && lines[k].unit == price[lines[k].product]
  {
    if reqs != [] {
      var head := SaleLine(reqs[0], price);
      var rest := Screen(reqs[1..], price);
      assert Refusal(reqs[0], price).None?;
      assert rest.Accepted?;
      assert Screen(reqs, price).lines == head + rest.lines;
      ScreenPriced(reqs[1..], price);
    }
  }

  /** The first refused pair decides the outcome, whatever follows it. */
  lemma {:induction false} FirstRefusalDecides(reqs: seq<Request>, price: map<ProductId, int>, i: nat)
    requires i < |reqs| && Refusal(reqs[i], price).Some?
    requires forall k | 0 <= k < i :: Refusal(reqs[k], price).None?
    ensures Screen(reqs, price) == Rejected(Refusal(reqs[i], price).value)
  {
    if i > 0 {
      assert reqs[1..][i - 1] == reqs[i];
      FirstRefusalDecides(reqs[1..], price, i - 1);
    }
  }

  /** What one pair adds to total_lineas: precio_venta × the clamped quantity, or
      nothing for a blank id. */
  function Subtotal(r: Request, price: map<ProductId, int>): (s: int)
    requires Refusal(r, price).None?
    ensures s == Amount(SaleLine(r, price))
  {
    if r.pid.None? then 0
    else
      assert SaleLine(r, price)[..0] == [];
      price[r.pid.value] * Clamp(r.qty)
  }

  /** When every pair passes, so does every pair after the first. */
  lemma RestPasses(reqs: seq<Request>, price: map<ProductId, int>)
    requires reqs != [] && forall k | 0 <= k < |reqs| :: Refusal(reqs[k], price).None?
    ensures Refusal(reqs[0], price).None?
    ensures forall k | 0 <= k < |reqs| - 1 :: Refusal(reqs[1..][k], price).None?
  {
    forall k | 0 <= k < |reqs| - 1 ensures Refusal(reqs[1..][k], price).None? {
      assert reqs[1..][k] == reqs[k + 1];
    }
  }

  /** total_lineas: the subtotals of all pairs. */
  function Bill(reqs: seq<Request>, price: map<ProductId, int>): (b: int)
    requires forall k | 0 <= k < |reqs| :: Refusal(reqs[k], price).None?
    ensures (forall q | q in price :: price[q] >= 0) ==> b >= 0
  {
    if reqs == [] then 0
    else
      RestPasses(reqs, price);
      Subtotal(reqs[0], price) + Bill(reqs[1..], price)
  }

  /** Units of product `p` the pairs take out of stock: the clamped quantity of every
      pair that names `p`. */
  function Units(reqs: seq<Request>, price: map<ProductId, int>, p: ProductId): (u: int)
    requires forall k | 0 <= k < |reqs| :: Refusal(reqs[k], price).None?
    ensures u >= 0
  {
    if reqs == [] then 0
    else
      RestPasses(reqs, price);
      (if reqs[0].pid == Some(p) then Clamp(reqs[0].qty) else 0) + Units(reqs[1..], price, p)
  }

  /** Blank ids are skipped: the accepted lines sum to total_lineas, the amount the view
      adds to the sale and to the stay. */
  lemma {:induction false} ScreenBill(reqs: seq<Request>, price: map<ProductId, int>)
    requires Screen(reqs, price).Accepted?
    ensures Amount(Screen(reqs, price).lines) == Bill(reqs, price)
  {
    if reqs != [] {
      var head := SaleLine(reqs[0], price);
      var rest := Screen(reqs[1..], price);
      assert rest.Accepted? && Screen(reqs, price).lines == head + rest.lines by {
        assert Refusal(reqs[0], price).None?;
      }
      ScreenBill(reqs[1..], price);
      AmountConcat(head, rest.lines);
    }
  }

  /** The accepted lines name each product exactly as often as the pairs do, with the
      clamped quantities: they take Units of every product out of stock. */
  lemma {:induction false} ScreenCount(reqs: seq<Request>, price: map<ProductId, int>, p: ProductId)
    requires Screen(reqs, price).Accepted?
    ensures Count(Screen(reqs, price).lines, p) == Units(reqs, price, p)
  {
    if reqs != [] {
      var head := SaleLine(reqs[0], price);
      var rest := Screen(reqs[1..], price);
      assert rest.Accepted? && Screen(reqs, price).lines == head + rest.lines by {
        assert Refusal(reqs[0], price).None?;
      }
      ScreenCount(reqs[1..], price, p);
      CountConcat(head, rest.lines, p);
      assert Count(head, p) == if reqs[0].pid == Some(p) then Clamp(reqs[0].qty) else 0 by {
        if head != [] {
          assert head[..0] == [];
          assert head[0] in head;
        }
      }
    }
  }

  /** Posting the accepted lines takes exactly Units of each product out of stock. */
  lemma ConsumptionTakesUnits(stock: map<ProductId, int>, reqs: seq<Request>, price: map<ProductId, int>, p: ProductId)
    requires Screen(reqs, price).Accepted? && price.Keys == stock.Keys && p in stock
    ensures Adjust(stock, Screen(reqs, price).lines, Outbound)[p] == stock[p] - Units(reqs, price, p)
  {
    AdjustAt(stock, Screen(reqs, price).lines, Outbound, p);
    ScreenCount(reqs, price, p);
  }

  // ---------------------------------------------------------------------------
  // registrar_consumo as written

  /** The consumption view as written: `F` is used for the stock update but never
      imported, so the first pair that gets past the product lookup and int(cantidad)
      raises NameError, and the atomic block rolls everything back. Only a request whose
      product ids are all blank gets through. */
  function ConsumptionAsWritten(reqs: seq<Request>, price: map<ProductId, int>): (o: Outcome)
    ensures o == Ok <==> forall k | 0 <= k < |reqs| :: reqs[k].pid.None?
  {
    if reqs == [] then Ok
    else if reqs[0].pid.None? then ConsumptionAsWritten(reqs[1..], price)
    else if reqs[0].pid.value !in price then NotFound
    else if reqs[0].qty.Garbage? then BadQuantity
    else Crash
  }

  /** As written, the view only ever succeeds when there is nothing to charge, and when
      it does not crash it refuses exactly what the corrected view refuses. */
  lemma {:induction false} AsWrittenChargesNothing(reqs: seq<Request>, price: map<ProductId, int>)
    ensures ConsumptionAsWritten(reqs, price) == Ok ==> Screen(reqs, price) == Accepted([])
    ensures ConsumptionAsWritten(reqs, price) != Ok && ConsumptionAsWritten(reqs, price) != Crash ==>
              Screen(reqs, price) == Rejected(ConsumptionAsWritten(reqs, price))
  {
    if reqs != [] && reqs[0].pid.None? {
      AsWrittenChargesNothing(reqs[1..], price);
    }
  }

  /** Every request the corrected view would charge a line for crashes as written. */
  lemma {:induction false} AsWrittenCrashesWhenCharging(reqs: seq<Request>, price: map<ProductId, int>)
    requires Screen(reqs, price).Accepted? && Screen(reqs, price).lines != []
    ensures ConsumptionAsWritten(reqs, price) == Crash
  {
    if reqs[0].pid.None? {
      AsWrittenCrashesWhenCharging(reqs[1..], price);
    }
  }

  /** Two units of a product that exists: the corrected view charges one line, the view
      as written crashes. */
  lemma OneLineCrashes(price: map<ProductId, int>, p: ProductId)
    requires p in price
    ensures ConsumptionAsWritten(Zip([Some(p)], [Numeral(2)]), price) == Crash
    ensures Screen(Zip([Some(p)], [Numeral(2)]), price) == Accepted([Line(p, 2, price[p])])
  {
    var reqs := Zip([Some(p)], [Numeral(2)]);
    assert reqs == [Request(Some(p), Numeral(2))];
    assert reqs[1..] == [];
  }

  /** The state after charging `lines` to reservation `i`: the reservation's sale (the
      linked one if it still exists, else a new one under the next id) gets the lines and
      their sum, the stay's product cost and total cost grow by that sum, and the lines'
      quantities leave stock. */
  ghost predicate Charged(rs: seq<Reservation>, i: nat, user: UserId, lines: seq<Line>,
                          stock: map<ProductId, int>, sales: map<nat, Document>, saleLines: map<nat, seq<Line>>, nextSale: nat,
                          rs': seq<Reservation>, stock': map<ProductId, int>, sales': map<nat, Document>,
                          saleLines': map<nat, seq<Line>>, nextSale': nat)
    requires i < |rs| && LinesKnown(lines, stock.Keys) && saleLines.Keys == sales.Keys
  {
    var r := rs[i];
    var sum := Amount(lines);
    && stock' == Adjust(stock, lines, Outbound)
    && if r.sale.Some? && r.sale.value in sales then
         && rs' == rs[i := r.(productCost := r.productCost + sum, totalCost := r.totalCost + sum)]
         && sales' == sales[r.sale.value := sales[r.sale.value].(total := sales[r.sale.value].total + sum)]
         && saleLines' == saleLines[r.sale.value := saleLines[r.sale.value] + lines]
         && nextSale' == nextSale
       else
         && rs' == rs[i := r.(sale := Some(nextSale), productCost := r.productCost + sum, totalCost := r.totalCost + sum)]
         && sales' == sales[nextSale := Document(Customer(Some(r.client)), user, sum)]
         && saleLines' == saleLines[nextSale := lines]
         && nextSale' == nextSale + 1
  }

  /** A charge keeps the books balanced: stock is still the opening stock plus every
      purchased unit minus every sold unit, with the charged lines counted as sold. */
  lemma ChargedBalanced(rs: seq<Reservation>, i: nat, user: UserId, lines: seq<Line>,
                        stock: map<ProductId, int>, sales: map<nat, Document>, saleLines: map<nat, seq<Line>>, nextSale: nat,
                        rs': seq<Reservation>, stock': map<ProductId, int>, sales': map<nat, Document>,
                        saleLines': map<nat, seq<Line>>, nextSale': nat,
                        opening: map<ProductId, int>, bought: map<nat, seq<Line>>, nb: nat)
    requires i < |rs| && LinesKnown(lines, stock.Keys) && saleLines.Keys == sales.Keys
    requires Charged(rs, i, user, lines, stock, sales, saleLines, nextSale, rs', stock', sales', saleLines', nextSale')
    requires Balanced(stock, opening, bought, nb, saleLines, nextSale) && DocsSound(saleLines, nextSale, stock.Keys)
    ensures Balanced(stock', opening, bought, nb, saleLines', nextSale')
  {
    var r := rs[i];
    if r.sale.Some? && r.sale.value in sales {
      ChargeBalanced(stock, opening, bought, nb, saleLines, nextSale, r.sale.value, lines);
    } else {
      ChargeBalanced(stock, opening, bought, nb, saleLines, nextSale, nextSale, lines);
    }
  }

  /** A charge touches only the charged stay, adds the lines' sum to its product cost and
      its total cost alike, and so keeps its costs in agreement. */
  lemma ChargedCostsAgree(rs: seq<Reservation>, i: nat, user: UserId, lines: seq<Line>,
                          stock: map<ProductId, int>, sales: map<nat, Document>, saleLines: map<nat, seq<Line>>, nextSale: nat,
                          rs': seq<Reservation>, stock': map<ProductId, int>, sales': map<nat, Document>,
                          saleLines': map<nat, seq<Line>>, nextSale': nat)
    requires i < |rs| && LinesKnown(lines, stock.Keys) && saleLines.Keys == sales.Keys
    requires Charged(rs, i, user, lines, stock, sales, saleLines, nextSale, rs', stock', sales', saleLines', nextSale')
    requires CostsAgree(rs[i])
    ensures |rs'| == |rs| && CostsAgree(rs'[i])
    ensures rs'[i].productCost == rs[i].productCost + Amount(lines) && rs'[i].totalCost == rs[i].totalCost + Amount(lines)
    ensures rs'[i].room == rs[i].room && rs'[i].client == rs[i].client && rs'[i].status == rs[i].status
    ensures forall k | 0 <= k < |rs| && k != i :: rs'[k] == rs[k]
  {
  }

  // ---------------------------------------------------------------------------
  // The hotel

  class Hotel {
    /** The shop the consumptions are charged through. */
    const store: Store
    /** The clients ReservaForm offers: only active ones. */
    const activeClients: set<ClientId>
    var rooms: map<RoomId, Room>
    /** Reservations in primary-key order; a reservation's id is its index. */
    var reservations: seq<Reservation>
    var payments: seq<Payment>
    var companions: seq<Companion>

    /** Reservations name existing rooms and their costs agree, payments and companions
        name existing reservations, and an occupied room always has an active
        reservation. */
    ghost predicate Valid()
      reads this, store
    {
      && store.Valid()
      && (forall k | 0 <= k < |reservations| :: reservations[k].room in rooms && CostsAgree(reservations[k]))
      && (forall k | 0 <= k < |payments| :: payments[k].reservation < |reservations|)
      && (forall k | 0 <= k < |companions| :: companions[k].reservation < |reservations|)
      && (forall r | r in rooms && rooms[r].status == Ocupada :: CountActive(reservations, r) > 0)
    }

    constructor (store: Store, activeClients: set<ClientId>, rooms: map<RoomId, Room>)
      requires store.Valid()
      requires forall r | r in rooms :: rooms[r].status != Ocupada
      ensures Valid()
      ensures this.store == store && this.activeClients == activeClients && this.rooms == rooms
      ensures reservations == [] && payments == [] && companions == []
    {
      this.store := store;
      this.activeClients := activeClients;
      this.rooms := rooms;
      reservations, payments, companions := [], [], [];
    }

    /** ocupar_habitacion: the room must exist and be DISPONIBLE, and the forms must
        validate; then the reservation is saved ACTIVA with check-in now and its costs,
        then its payment and its companions, and the room becomes OCUPADA. */
    method Occupy(roomId: RoomId, form: OccupyForm, now: Time) returns (outcome: Outcome)
      requires Valid()
      modifies this
      ensures Valid()
      ensures outcome == (if roomId !in old(rooms) then NotFound
                          else if old(rooms)[roomId].status != Disponible then NotAvailable
                          else if !(form.fieldsValid && form.client in activeClients) then InvalidForm
                          else Ok)
      ensures outcome != Ok ==> unchanged(this)
      ensures outcome == Ok ==>
                var id := |old(reservations)|;
                && reservations == old(reservations) + [Booked(roomId, old(rooms)[roomId].nightlyPrice, form, now)]
                && payments == old(payments) + [Payment(id, form.paymentKind, form.received)]
                && companions == old(companions) + Enrolled(id, Kept(form.guests))
                && rooms == old(rooms)[roomId := Room(old(rooms)[roomId].nightlyPrice, Ocupada)]
      ensures outcome == Ok ==>
                && CountActive(reservations, roomId) == CountActive(old(reservations), roomId) + 1
                && forall r | r != roomId :: CountActive(reservations, r) == CountActive(old(reservations), r)
    {
      if roomId !in rooms {
        return NotFound;
      }
      if rooms[roomId].status != Disponible {
        return NotAvailable;
      }
      if !(form.fieldsValid && form.client in activeClients) {
        return InvalidForm;
      }
      var id := |reservations|;
      var booked := Booked(roomId, rooms[roomId].nightlyPrice, form, now);
      forall r ensures CountActive(reservations + [booked], r) == CountActive(reservations, r) + (if r == roomId then 1 else 0) {
        CountActiveAppend(reservations, booked, r);
      }
      reservations := reservations + [booked];
      payments := payments + [Payment(id, form.paymentKind, form.received)];
      companions := companions + Enrolled(id, Kept(form.guests));
      rooms := rooms[roomId := Room(rooms[roomId].nightlyPrice, Ocupada)];
      outcome := Ok;
    }

    /** checkout_habitacion: the room must exist and have an ACTIVA reservation; the
        first one becomes FINALIZADA with its departure set to now, and the room goes to
        LIMPIEZA, whatever its status was. */
    method Checkout(roomId: RoomId, now: Time) returns (outcome: Outcome)
      requires Valid()
      modifies this
      ensures Valid()
      ensures outcome == (if roomId !in old(rooms) then NotFound
                          else if FirstActive(old(reservations), roomId).None? then NoActiveReservation
                          else Ok)
      ensures roomId in old(rooms) && old(rooms)[roomId].status == Ocupada ==> outcome == Ok
      ensures outcome != Ok ==> unchanged(this)
      ensures outcome == Ok ==>
                var i := FirstActive(old(reservations), roomId).value;
                && reservations == old(reservations)[i := old(reservations)[i].(status := Finalizada, checkOut := now)]
                && rooms == old(rooms)[roomId := Room(old(rooms)[roomId].nightlyPrice, Limpieza)]
                && payments == old(payments) && companions == old(companions)
      ensures outcome == Ok ==>
                && CountActive(reservations, roomId) == CountActive(old(reservations), roomId) - 1
                && forall r | r != roomId :: CountActive(reservations, r) == CountActive(old(reservations), r)
    {
      if roomId !in rooms {
        return NotFound;
      }
      CountActiveZero(reservations, roomId);
      var first := FirstActive(reservations, roomId);
      if first.None? {
        return NoActiveReservation;
      }
      var i := first.value;
      var closed := reservations[i].(status := Finalizada, checkOut := now);
      forall r ensures CountActive(reservations[i := closed], r) == CountActive(reservations, r) - (if r == roomId then 1 else 0) {
        CountActiveUpdate(reservations, i, closed, r);
      }
      reservations := reservations[i := closed];
      rooms := rooms[roomId := Room(rooms[roomId].nightlyPrice, Limpieza)];
      outcome := Ok;
    }

    /** marcar_limpieza: only from OCUPADA or DISPONIBLE; the room becomes LIMPIEZA and
        its reservations are left as they are. */
    method MarkCleaning(roomId: RoomId) returns (outcome: Outcome)
      requires Valid()
      modifies this
      ensures Valid()
      ensures outcome == (if roomId !in old(rooms) then NotFound
                          else if old(rooms)[roomId].status == Limpieza then WrongState
                          else Ok)
      ensures outcome != Ok ==> unchanged(this)
      ensures outcome == Ok ==>
                && rooms == old(rooms)[roomId := Room(old(rooms)[roomId].nightlyPrice, Limpieza)]
                && reservations == old(reservations) && payments == old(payments) && companions == old(companions)
    {
      if roomId !in rooms {
        return NotFound;
      }
      if rooms[roomId].status != Ocupada && rooms[roomId].status != Disponible {
        return WrongState;
      }
      rooms := rooms[roomId := Room(rooms[roomId].nightlyPrice, Limpieza)];
      outcome := Ok;
    }

    /** marcar_disponible: only from LIMPIEZA; the room becomes DISPONIBLE. */
    method MarkAvailable(roomId: RoomId) returns (outcome: Outcome)
      requires Valid()
      modifies this
      ensures Valid()
      ensures outcome == (if roomId !in old(rooms) then NotFound
                          else if old(rooms)[roomId].status != Limpieza then WrongState
                          else Ok)
      ensures outcome != Ok ==> unchanged(this)
      ensures outcome == Ok ==>
                && rooms == old(rooms)[roomId := Room(old(rooms)[roomId].nightlyPrice, Disponible)]
                && reservations == old(reservations) && payments == old(payments) && companions == old(companions)
    {
      if roomId !in rooms {
        return NotFound;
      }
      if rooms[roomId].status != Limpieza {
        return WrongState;
      }
      rooms := rooms[roomId := Room(rooms[roomId].nightlyPrice, Disponible)];
      outcome := Ok;
    }

    /** registrar_consumo with the stock update it evidently intends: the room must exist
        and have exactly one ACTIVA reservation, and every pair must name an existing
        product with a well-formed quantity. Then ChargeStay posts the lines. */
    method RegisterConsumption(roomId: RoomId, user: UserId, pids: seq<Option<ProductId>>, qtys: seq<Quantity>)
      returns (outcome: Outcome)
      requires Valid()
      modifies this, store
      ensures Valid()
      ensures outcome == (if roomId !in old(rooms) then NotFound
                          else if CountActive(old(reservations), roomId) == 0 then NoActiveReservation
                          else if CountActive(old(reservations), roomId) > 1 then MultipleActive
                          else if Screen(Zip(pids, qtys), store.price).Rejected? then Screen(Zip(pids, qtys), store.price).why
                          else Ok)
      ensures roomId in old(rooms) && old(rooms)[roomId].status == Ocupada ==> outcome != NoActiveReservation
      ensures outcome != Ok ==> unchanged(this) && unchanged(store)
      ensures outcome == Ok ==>
                && FirstActive(old(reservations), roomId).Some?
                && Charged(old(reservations), FirstActive(old(reservations), roomId).value, user,
                           Screen(Zip(pids, qtys), store.price).lines, old(store.stock), old(store.sales), old(store.saleLines),
                           old(store.nextSale), reservations, store.stock, store.sales, store.saleLines, store.nextSale)
                && rooms == old(rooms) && payments == old(payments) && companions == old(companions)
                && store.purchases == old(store.purchases) && store.purchaseLines == old(store.purchaseLines)
                && store.nextPurchase == old(store.nextPurchase)
      ensures outcome == Ok ==>
                forall p | p in old(store.stock) :: store.stock[p] == old(store.stock)[p] - Units(Zip(pids, qtys), store.price, p)
    {
      if roomId !in rooms {
        return NotFound;
      }
      var active := CountActive(reservations, roomId);
      if active == 0 {
        return NoActiveReservation;
      }
      if active > 1 {
        return MultipleActive;
      }
      CountActiveZero(reservations, roomId);
      var i := FirstActive(reservations, roomId).value;
      var charge := Screen(Zip(pids, qtys), store.price);
      if charge.Rejected? {
        return charge.why;
      }
      var before := store.stock;
      forall p | p in before
        ensures Adjust(before, charge.lines, Outbound)[p] == before[p] - Units(Zip(pids, qtys), store.price, p)
      {
        ConsumptionTakesUnits(before, Zip(pids, qtys), store.price, p);
      }
      ChargeStay(i, user, charge.lines);
      outcome := Ok;
    }

    /** The atomic block of registrar_consumo once every pair has passed: the lines go
        onto the reservation's sale, which is opened for the reservation's client when it
        has none; their quantities leave stock; and their sum is added to the sale total,
        the product cost and the total cost of the stay. */
    method ChargeStay(i: nat, user: UserId, lines: seq<Line>)
      requires Valid() && i < |reservations| && LinesKnown(lines, store.price.Keys)
      modifies this, store
      ensures Valid()
      ensures Charged(old(reservations), i, user, lines, old(store.stock), old(store.sales), old(store.saleLines),
                      old(store.nextSale), reservations, store.stock, store.sales, store.saleLines, store.nextSale)
      ensures rooms == old(rooms) && payments == old(payments) && companions == old(companions)
      ensures store.purchases == old(store.purchases) && store.purchaseLines == old(store.purchaseLines)
              && store.nextPurchase == old(store.nextPurchase)
    {
      var r := reservations[i];
      if r.sale.Some? && r.sale.value in store.sales {
        ChargeLinkedSale(i, lines);
      } else {
        ChargeNewSale(i, user, lines);
      }
    }

    /** `reserva.venta` exists: the lines are appended to it. */
    method ChargeLinkedSale(i: nat, lines: seq<Line>)
      requires Valid() && i < |reservations| && LinesKnown(lines, store.price.Keys)
      requires reservations[i].sale.Some? && reservations[i].sale.value in store.sales
      modifies this, store
      ensures Valid()
      ensures var r := old(reservations)[i];
              var sid := r.sale.value;
              && reservations == old(reservations)[i := r.(productCost := r.productCost + Amount(lines),
                                                         totalCost := r.totalCost + Amount(lines))]
              && store.stock == Adjust(old(store.stock), lines, Outbound)
              && store.sales == old(store.sales)[sid := old(store.sales)[sid].(total := old(store.sales)[sid].total + Amount(lines))]
              && store.saleLines == old(store.saleLines)[sid := old(store.saleLines)[sid] + lines]
              && store.nextSale == old(store.nextSale)
      ensures rooms == old(rooms) && payments == old(payments) && companions == old(companions)
      ensures store.purchases == old(store.purchases) && store.purchaseLines == old(store.purchaseLines)
              && store.nextPurchase == old(store.nextPurchase)
    {
      var r := reservations[i];
      store.AppendToSale(r.sale.value, lines);
      var charged := r.(productCost := r.productCost + Amount(lines), totalCost := r.totalCost + Amount(lines));
      CountActiveKept(reservations, i, charged);
      reservations := reservations[i := charged];
    }

    /** `reserva.venta` is missing: a Venta for the reservation's client is created by
        `user` under the next id, linked to the reservation, and given the lines. */
    method ChargeNewSale(i: nat, user: UserId, lines: seq<Line>)
      requires Valid() && i < |reservations| && LinesKnown(lines, store.price.Keys)
      modifies this, store
      ensures Valid()
      ensures var r := old(reservations)[i];
              var sid := old(store.nextSale);
              && reservations == old(reservations)[i := r.(sale := Some(sid),
                                                         productCost := r.productCost + Amount(lines),
                                                         totalCost := r.totalCost + Amount(lines))]
              && store.stock == Adjust(old(store.stock), lines, Outbound)
              && store.sales == old(store.sales)[sid := Document(Customer(Some(r.client)), user, Amount(lines))]
              && store.saleLines == old(store.saleLines)[sid := lines]
              && store.nextSale == sid + 1
      ensures rooms == old(rooms) && payments == old(payments) && companions == old(companions)
      ensures store.purchases == old(store.purchases) && store.purchaseLines == old(store.purchaseLines)
              && store.nextPurchase == old(store.nextPurchase)
    {
      var r := reservations[i];
      var sid := store.OpenSale(r.client, user, lines);
      var charged := r.(sale := Some(sid), productCost := r.productCost + Amount(lines), totalCost := r.totalCost + Amount(lines));
      CountActiveKept(reservations, i, charged);
      reservations := reservations[i := charged];
    }
  }
}
