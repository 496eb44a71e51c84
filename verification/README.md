# Cristal hotel and shop: occupancy and stock ledger

A Dafny model of the two stateful parts of the Cristal Django backend, both in
`Cristal_app/views.py`:

- **The reception views.** A room moves DISPONIBLE → OCUPADA → LIMPIEZA → DISPONIBLE.
  - `ocupar_habitacion` books an ACTIVA reservation. It bills at least one night, and the
    total is the room cost less the discount, rounded half-even to the cent.
  - `checkout_habitacion` makes the room's first ACTIVA reservation FINALIZADA and sends the
    room to LIMPIEZA.
  - `marcar_limpieza` and `marcar_disponible` guard the cleaning cycle.
  - `registrar_consumo` charges shop products to a stay. The lines go onto the reservation's
    sale, which is opened the first time it is needed. Stock goes down, and the sale total,
    product cost and total cost of the stay go up by the same sum.
- **The purchase and sale ledger.** These are `CompraCreateView`, `CompraUpdateView`,
  `CompraDeleteView` and their `Venta` counterparts.
  - Create posts each kept formset line to stock and totals the subtotals.
  - Update reverses the old lines and posts the new ones. Its total comes from the new lines
    only.
  - Delete reverses the lines.
  - Sales mirror purchases with the opposite sign.

Files:

- `common.dfy`: identifiers, `Option`, and the outcome codes.
  - `NotFound` stands for `Http404`, except the `Http404` of a room with no ACTIVA
    reservation (line 251), which is reported as `NoActiveReservation`.
  - `InvalidForm` is a form that does not validate.
  - `BadQuantity` is the `ValueError` of `int()`.
  - `MultipleActive` is `MultipleObjectsReturned`.
  - `Crash` is any other exception. The atomic block rolls it back.
- `pricing.dfy`: nights billed and the discounted total.
  - Money is in cents.
  - Discounts are in hundredths of a percent.
  - Time is in microseconds.
- `inventory.dfy`: line items and the two ways the views post them to stock.
  - `Adjust` models the update and delete views, which reload each product. Every line
    adds to the effect of the previous ones.
  - `Overwrite` models the create views, which post from the product instances the formset
    loaded while validating. A later line for the same product overwrites an earlier one.
  - Both come with the conservation lemmas.
- `ledger.dfy`: class `Store`, which holds prices, stock, headers and lines, with one
  method per ledger view. The lemmas show that every view keeps stock equal to the opening
  stock plus purchased units minus sold units (for the create views, when no two kept lines
  name one product).
- `reception.dfy`: class `Hotel`, which holds rooms, reservations, payments and companions
  and shares the `Store`. Its methods are the reception views. The consumption request is
  modelled as functions over the posted lists.
- `scenarios.dfy`: two runs of the views, both proved end to end.

Each view checks its guards first and then makes all of its changes. Where the source
writes inside `transaction.atomic` (occupy, checkout, consumption, and the create and
update views), that is what the block gives it: an exception inside the block, such as the
`Http404` of a missing product in the consumption loop, rolls everything back. The delete
views and `marcar_limpieza`/`marcar_disponible` have no atomic block, but nothing in them
can fail after their lookup and state check, so checking first and then writing is the same.

In three places the code does not do what one would expect of a hotel and shop system;
the model follows the code:

- **A room can have two ACTIVA reservations.** One would expect at most one per room.
  - `marcar_limpieza` accepts an OCUPADA room without closing its reservation. Marking the
    room available and occupying it again then opens a second one.
  - `registrar_consumo` then fails with `MultipleObjectsReturned`, and a checkout closes only
    the older stay. `Scenarios.ReopenedRoom` proves this sequence.
  - The invariant the code does keep is weaker: an OCUPADA room has at least one ACTIVA
    reservation (`Reception.Hotel.Valid`).
- **No quantity or active-product check is visible.** One would expect a purchase or sale
  line to be refused for a non-positive quantity or an inactive product. The create views only need
  the product to exist, because the field constraints of the models are not part of this
  model. Quantities are therefore unconstrained integers.
- **A consumption can land on a new sale after the old one is deleted.** One would expect
  a stay to have a single sale. The model treats a stay whose linked sale no longer exists as
  unlinked, which is what a nulling foreign key gives, and opens a new sale for it.

## Model

| member | source | states |
|---|---|---|
| Pricing.RoundHalfEven | Cristal_app/views.py:165 | The quotient is within half a unit of the exact value, and an exact tie goes to the even integer (`quantize` under ROUND_HALF_EVEN). |
| Pricing.Nights | Cristal_app/views.py:153-156 | Nights are at least 1. A stay shorter than a second bills 1 night. Otherwise the billed nights cover the whole seconds of the stay: (n−1) days < seconds ≤ n days. |
| Pricing.RoomCost | Cristal_app/views.py:160 | The room cost of a non-negative price is never negative, and for at least one night it is at least one night's price. |
| Pricing.DiscountedCost | Cristal_app/views.py:159-165 | The total is room cost × (100 − discount)/100, rounded to the cent half-even, stated as a distance bound plus tie-breaking. |
| Pricing.DiscountedCostUnique | Cristal_app/views.py:165 | Any integer meeting that bound and tie rule is the total, so the contract determines the result. |
| Pricing.NoDiscountKeepsCost | Cristal_app/views.py:163-165 | A missing or zero discount leaves the total equal to the room cost. |
| Pricing.FullDiscountIsFree | Cristal_app/views.py:163-165 | A 100 % discount makes the total zero. |
| Pricing.DiscountWithinCost | Cristal_app/views.py:163-165 | A discount between 0 and 100 % keeps the total between 0 and the room cost. |
| Pricing.OverDiscountGoesNegative | Cristal_app/views.py:163-165 | Nothing bounds the discount. Above 100 % the total is never positive, and it is negative once the overshoot exceeds half a cent. |
| Pricing.TwoNightsTenPercentOff | Cristal_app/views.py:153-165 | Exactly two days at 100.00 a night with 10 % off bills 2 nights, a room cost of 200.00 and a total of 180.00. |
| Inventory.Adjust | Cristal_app/views.py:581-589 | Posting lines on freshly loaded products keeps the set of products; what it does to each product is `Inventory.AdjustAt`. |
| Inventory.Overwrite | Cristal_app/views.py:546-552 | Posting lines from products as the formset loaded them keeps the set of products; how it relates to reloading each product is `Inventory.OverwriteDistinct`. |
| Inventory.Kept | Cristal_app/views.py:547 | A value is kept exactly when some filled form not marked DELETE carries it, and there are no more kept items than forms; multiplicities are `Inventory.KeptCounts`. |
| Inventory.KeptCounts | Cristal_app/views.py:546-553 | Each filled form not marked DELETE is kept exactly as many times as it was submitted, so the kept lines and their total are fixed by the forms. |
| Inventory.AdjustAt | Cristal_app/views.py:579-592 | Conservation: each product's stock moves by exactly the signed total quantity the lines give it. |
| Inventory.AdjustUndo | Cristal_app/views.py:606-611 | Posting the same lines in the opposite direction restores the stock. |
| Inventory.ReplaceAt | Cristal_app/views.py:579-592 | After reverse-then-reapply, stock = before − old lines + new lines, product by product. |
| Inventory.AdjustConcat | Cristal_app/views.py:266-282 | Posting two batches of lines one after the other is posting their concatenation. |
| Inventory.AdjustCommutes | Cristal_app/views.py:579-592 | Posting two batches of lines gives the same stock in either order. |
| Inventory.AdjustUntouched | Cristal_app/views.py:581-583 | A product no line names keeps its stock. |
| Inventory.OverwriteDistinct | Cristal_app/views.py:546-552 | When no two kept lines share a product, the create views post exactly what reloading each product would. |
| Inventory.OverwriteLosesEarlierLine | Cristal_app/views.py:546-553 | With two create lines for one product, only the last reaches the stock, while both reach the total. |
| Ledger.FileDocument | Cristal_app/views.py:554-555 | Saving a header whose total is the sum of its lines, under a used id or the next one, keeps every header's total equal to its lines. |
| Ledger.UnfileDocument | Cristal_app/views.py:611 | Deleting a header with its lines keeps the rest filed. |
| Ledger.VolumeReplace | Cristal_app/views.py:579-592 | Replacing a document's lines changes the recorded volume of a product by the difference of the counts. |
| Ledger.VolumeRemove | Cristal_app/views.py:606-611 | Deleting a document takes its count out of the recorded volume. |
| Ledger.VolumeAppend | Cristal_app/views.py:541-555 | A document under the next id adds its count to the recorded volume. |
| Ledger.CreateBalanced | Cristal_app/views.py:541-555 | Posting a new purchase or sale and filing it keeps stock = opening + purchased − sold. |
| Ledger.UpdateBalanced | Cristal_app/views.py:579-592 | Reversing a document's old lines and posting its new ones keeps the balance, with the document's new lines recorded. |
| Ledger.DeleteBalanced | Cristal_app/views.py:606-611 | Reversing a document's lines and dropping it keeps the balance. |
| Ledger.ChargeBalanced | Cristal_app/views.py:258-294 | Charging consumed lines to an existing or new sale keeps the balance. |
| Ledger.CreateThenDeleteRestores | Cristal_app/views.py:541-555 | A purchase or sale created from distinct lines and then deleted leaves the stock as it found it. |
| Ledger.UpdateCountsNewLinesOnly | Cristal_app/views.py:579-592 | Creating a purchase of 5 units and updating it to 2 leaves stock 2 above the start, not 7. |
| Ledger.Store.Apply | Cristal_app/views.py:586-590 | The update and delete loop: stock becomes `Adjust` of the lines, and the running total is the sum of subtotals. |
| Ledger.Store.ApplyAsLoaded | Cristal_app/views.py:546-553 | The create loop: stock becomes `Overwrite` of the lines, and the running total is the sum of subtotals. |
| Ledger.Store.CreatePurchase | Cristal_app/views.py:537-559 | Ok exactly when every kept line names an existing product. Otherwise nothing changes. On Ok: a new header under the next id with the sum of subtotals, the kept lines filed, stock posted as loaded (`Adjust` when products are distinct), sales untouched. |
| Ledger.Store.PostPurchase | Cristal_app/views.py:541-555 | The atomic block of purchase creation: header, lines and stock as above, with totals kept filed. |
| Ledger.Store.UpdatePurchase | Cristal_app/views.py:574-596 | NotFound for an unknown id, then InvalidForm. Otherwise nothing changes. On Ok: stock = old lines reversed then new lines posted, the lines replaced, the total recomputed from the new lines only, the user kept. |
| Ledger.Store.RepostPurchase | Cristal_app/views.py:579-592 | The atomic block of purchase update, as above. |
| Ledger.Store.DeletePurchase | Cristal_app/views.py:606-613 | NotFound for an unknown id. Otherwise the lines' quantities leave stock and the purchase goes with its lines. |
| Ledger.Store.CreateSale | Cristal_app/views.py:635-657 | As CreatePurchase, with stock taken out and no client. |
| Ledger.Store.PostSale | Cristal_app/views.py:639-653 | The atomic block of sale creation. |
| Ledger.Store.UpdateSale | Cristal_app/views.py:672-693 | As UpdatePurchase, with the signs flipped: old lines back into stock, new ones out, total from the new lines. |
| Ledger.Store.RepostSale | Cristal_app/views.py:677-689 | The atomic block of sale update. |
| Ledger.Store.DeleteSale | Cristal_app/views.py:703-710 | NotFound for an unknown id. Otherwise the lines' quantities return to stock and the sale goes. |
| Ledger.Store.OpenSale | Cristal_app/views.py:260-294 | A sale for the reservation's client under the next id holds the consumed lines. Their quantities leave stock and their sum is its total. |
| Ledger.Store.AppendToSale | Cristal_app/views.py:266-288 | The consumed lines are appended to an existing sale, leave stock, and add their sum to its total. |
| Reception.Booked | Cristal_app/views.py:147-165 | The saved reservation is ACTIVA for the room and client, checks in now and out at the form's departure, keeps the form's discount, has room cost price × `Nights`, product cost 0, no sale, and total = `DiscountedCost` of the room cost with the form's discount (or 0), so its costs agree. |
| Reception.Enrolled | Cristal_app/views.py:174-176 | One companion per kept form, in order, with its name and document, each attached to the new reservation. |
| Reception.CountActive | Cristal_app/views.py:251 | The number of ACTIVA reservations of the room that `get_object_or_404` sees, at most the number of reservations; zero exactly when checkout finds none (`Reception.CountActiveZero`). |
| Reception.FirstActive | Cristal_app/views.py:203 | None exactly when the room has no ACTIVA reservation. Otherwise the lowest-index ACTIVA reservation of the room. |
| Reception.CountActiveZero | Cristal_app/views.py:203-206 | The room has no active reservation to count exactly when checkout finds none. |
| Reception.CountActiveAppend | Cristal_app/views.py:147-167 | A new reservation adds one to its room's active count when it is ACTIVA. |
| Reception.CountActiveUpdate | Cristal_app/views.py:210-212 | Rewriting a reservation changes each room's active count by what it contributes before and after. |
| Reception.CountActiveKept | Cristal_app/views.py:290-294 | Updating a reservation's costs or sale leaves every room's active count alone. |
| Reception.Zip | Cristal_app/views.py:266 | The pairs are the two lists side by side, cut to the shorter one. |
| Reception.Clamp | Cristal_app/views.py:270 | The quantity is at least 1. A numeral ≥ 1 is kept, and an empty field or a numeral below 1 gives 1. |
| Reception.Refusal | Cristal_app/views.py:267-270 | A pair passes exactly when its id is blank, or names an existing product with a quantity `int()` accepts. A missing product is refused with NotFound before the quantity is looked at, and a malformed quantity with BadQuantity. |
| Reception.SaleLine | Cristal_app/views.py:267-278 | A blank id gives no line. Any other pair gives one line for its product, with the clamped quantity at the product's precio_venta. |
| Reception.Screen | Cristal_app/views.py:266-282 | The request is accepted exactly when no pair names a missing product or a malformed quantity. A refusal is NotFound or BadQuantity. Accepted lines name existing products, and there are no more of them than pairs. |
| Reception.Subtotal | Cristal_app/views.py:284 | What one pair adds to total_lineas is the amount of the sale line it turns into. |
| Reception.Bill | Cristal_app/views.py:265-284 | total_lineas over the pairs; with non-negative prices it is never negative. |
| Reception.Units | Cristal_app/views.py:266-282 | The units of a product the pairs take out of stock: the clamped quantity of each pair naming it; never negative. |
| Reception.ScreenCount | Cristal_app/views.py:266-281 | The accepted lines give every product exactly the units the pairs name for it, so no line is lost, duplicated or moved to another product. |
| Reception.ConsumptionTakesUnits | Cristal_app/views.py:280-282 | Posting the accepted lines takes exactly `Units` of each product out of its stock. |
| Reception.ScreenPriced | Cristal_app/views.py:269-278 | Every accepted line carries at least one unit at the product's precio_venta. |
| Reception.FirstRefusalDecides | Cristal_app/views.py:266-270 | The first refused pair decides the outcome, whatever follows it. |
| Reception.ScreenBill | Cristal_app/views.py:265-284 | Blank ids are skipped, and the accepted lines sum to total_lineas (price × clamped quantity over the pairs). |
| Reception.ConsumptionAsWritten | Cristal_app/views.py:266-282 | With `F` unimported, the view succeeds exactly when every product id is blank. |
| Reception.AsWrittenChargesNothing | Cristal_app/views.py:266-282 | As written, success charges nothing, and a non-crash failure is the refusal the corrected view gives. |
| Reception.AsWrittenCrashesWhenCharging | Cristal_app/views.py:281 | Every request the corrected view would charge a line for crashes as written. |
| Reception.OneLineCrashes | Cristal_app/views.py:281 | Two units of an existing product: the corrected view charges one line at its price, and the view as written crashes. |
| Reception.Charged | Cristal_app/views.py:258-294 | The state after a charge: stock less the lines; the linked sale (if it still exists) gets the lines and their sum, otherwise a new sale for the client under the next id does and is linked; the stay's product cost and total cost grow by the sum. Its meaning is stated by `Reception.ChargedBalanced` and `Reception.ChargedCostsAgree`. |
| Reception.ChargedBalanced | Cristal_app/views.py:258-294 | A charge keeps stock = opening + purchased − sold, with the charged lines counted as sold. |
| Reception.ChargedCostsAgree | Cristal_app/views.py:287-294 | A charge changes only the charged stay: room, client and status kept, the same sum added to its product cost and its total cost, so its costs still agree. |
| Reception.Hotel.Occupy | Cristal_app/views.py:132-191 | NotFound, then NotAvailable unless DISPONIBLE, then InvalidForm. Any failure changes nothing. On Ok: one ACTIVA reservation appended with check-in now, `Nights`/`RoomCost`/`DiscountedCost` costs and product cost 0, plus its payment and kept companions. The room becomes OCUPADA, no other room changes, and the room's active count goes up by one. |
| Reception.Hotel.Checkout | Cristal_app/views.py:200-216 | NotFound, then NoActiveReservation when none is ACTIVA, and then nothing changes. An OCUPADA room always checks out. On Ok: the first ACTIVA reservation becomes FINALIZADA with departure now, the room goes to LIMPIEZA, and the room's active count drops by one. |
| Reception.Hotel.MarkCleaning | Cristal_app/views.py:221-231 | WrongState exactly from LIMPIEZA, with nothing changed. Otherwise the room becomes LIMPIEZA and reservations stay as they are. |
| Reception.Hotel.MarkAvailable | Cristal_app/views.py:235-245 | WrongState unless LIMPIEZA, with nothing changed. Otherwise the room becomes DISPONIBLE. |
| Reception.Hotel.RegisterConsumption | Cristal_app/views.py:247-296 | NotFound, then NoActiveReservation (never for an OCUPADA room) or MultipleActive, then the first refused pair. Any failure changes nothing in hotel or store. On Ok: `Charged` on the single active stay, each product's stock down by exactly its `Units`, purchases and the purchase counter untouched. |
| Reception.Hotel.ChargeStay | Cristal_app/views.py:258-294 | The lines go onto the stay's live sale, or onto a new one for its client when it has none. Stock drops by their quantities. Sale total, product cost and total cost each grow by their sum, so the stay's costs still agree. Purchases and the purchase counter are untouched. |
| Reception.Hotel.ChargeLinkedSale | Cristal_app/views.py:260-294 | The linked sale exists: the lines are appended, and the sums are added as above; the sale counter and the purchases are untouched. |
| Reception.Hotel.ChargeNewSale | Cristal_app/views.py:260-294 | No live sale: one is opened under the next id for the client by the user and linked to the stay; the purchases and their counter are untouched. |
| Scenarios.TwoNightStay | Cristal_app/views.py:132-296 | Occupy, consume two units, check out, mark available: room cost 200.00, product cost 30.00, total 210.00, stock 10 → 8. A second checkout finds no active reservation. |
| Scenarios.CheckInTwoNights | Cristal_app/views.py:132-191 | The occupy step of that stay, with the exact reservation it books. |
| Scenarios.ChargeTwoUnits | Cristal_app/views.py:247-296 | The consumption step of that stay opens sale 0. The view as written crashes on the same request. |
| Scenarios.ReopenedRoom | Cristal_app/views.py:200-296 | Mark cleaning while occupied, mark available, occupy again: two ACTIVA reservations. Consumption then fails with MultipleActive, and a checkout leaves one of them active. |

## Left out

- Float arithmetic in `registrar_consumo` (lines 284, 287, 290 and 293).
  - The model adds exact integer cents.
  - The source mixes `float` with the stored `Decimal` totals. Once the sale's `total_venta`
    or the stay's `costo_productos` is a nonzero `Decimal`, the `+` at line 287 or 290 raises
    `TypeError` and rolls back; line 293 converts `costo_total` to float first, so it never
    raises. The model does not capture that failure, which stays hidden behind the `F` crash
    in the source as written.
- The `costo_total is not None` branch (line 292). The occupy view always sets the total, so
  the model always adds to it.
- Concurrency, locking and the get-or-create race on the stay's sale (lines 260-263). Each
  view is one sequential atomic step.
- Messages, redirects, rendering, the GET confirmation pages, login and permission checks.
  Failures are outcome codes. A GET changes nothing and is not modelled.
- Time and the current user are parameters. `timezone.now()` is `now`.
- Form validation is mostly not modelled.
  - `OccupyForm.fieldsValid` stands for every field check this model does not see. The only
    visible check is that the client is an active one.
  - For purchase and sale forms, the model checks only that every kept line names an
    existing product.
- The model constraints (field types, non-negative stock, positive quantities) and the
  reservation statuses PENDIENTE and CANCELADA. The data model classes are not part of this
  model, and the views write only ACTIVA and FINALIZADA.
- Product ids posted as non-numeric text. Such an id would make the lookup raise; the model
  takes ids as numbers or blanks.
- The deletion of a sale leaves a stay's link to it; a stay whose linked sale is gone is
  charged on a new sale, as a nulling foreign key would give.
- Django 4 and later route a `DeleteView` POST through `form_valid`, not `delete()`, so the
  stock reversal at lines 606-611 and 703-708 would be skipped there. The model follows
  `delete()`.
- Ledger.Store.CreatePurchase, Ledger.Store.CreateSale: conservation (`Adjust`) is stated
  only when no two kept lines name the same product; otherwise the exact stale-instance stock
  (`Overwrite`) is stated, and `Inventory.OverwriteLosesEarlierLine` shows what is lost.
- Reception.Hotel.RegisterConsumption: every pair is checked before anything is written.
  The source writes as it goes and relies on the rollback, so what the database holds is the
  same. The per-line save order is not modelled.
- Reception.FirstActive: `.first()` on an unordered queryset is taken as the lowest primary
  key; the default ordering of `Reserva` is not part of this model.
- The module-level `reserva_activa` property (lines 297-299), the dashboard and listing
  views and the generic CRUD views.

## Findings

| source | as written | input that shows it | evidently intended | confidence | as-written member | corrected member |
|---|---|---|---|---|---|---|
| Cristal_app/views.py:281 | `p.stock = F('stock') - c` uses `F`, which the module never imports, so the first charged line raises NameError and the atomic block undoes the whole consumption | a room with one ACTIVA reservation, `producto_id[] = [p]` for an existing product `p`, `cantidad[] = ["2"]` | take the clamped quantity out of the product's stock and charge the line | high, not executed | Reception.ConsumptionAsWritten, Reception.AsWrittenCrashesWhenCharging, Reception.OneLineCrashes | Reception.Hotel.RegisterConsumption |
