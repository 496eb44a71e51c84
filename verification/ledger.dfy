/** The purchase and sale ledger: CompraCreateView / CompraUpdateView / CompraDeleteView
    and their Venta counterparts, plus the sale posting that registering a room
    consumption performs.

    The store mirrors the tables the views touch: product prices and stock, the purchase
    (Compra) and sale (Venta) headers, and their lines (DetalleCompra, DetalleVenta)
    grouped by header id. Header ids come from auto-increment counters and are never
    reused.

    The store keeps every header filed with its lines (the total is the sum of the
    subtotals). Each view states its new stock through Adjust or Overwrite, and the
    lemmas before the class show that these moves keep the books balanced: stock equals
    the opening stock plus every purchased unit minus every sold unit, provided no create
    form named one product on two lines (such a form posts only its last line for it). */
module Ledger {
  import opened Common
  import opened Inventory

  /** The other party of a document: the supplier of a Compra, or the client of a
      Venta. A sale made at the counter has no client; one opened for a room
      consumption records the reservation's client. */
  datatype Party = Supplier(supplier: SupplierId) | Customer(client: Option<ClientId>)

  /** A Compra or Venta header: party, the user who registered it, and the total in cents. */
  datatype Document = Document(party: Party, user: UserId, total: int)

  /** Total quantity of product `p` in the documents whose ids are below `n`. */
  function Volume(docs: map<nat, seq<Line>>, p: ProductId, n: nat): int {
    if n == 0 then 0
    else Volume(docs, p, n - 1) + (if n - 1 in docs then Count(docs[n - 1], p) else 0)
  }

  /** Every document has an allocated id and names known products only. */
  ghost predicate DocsSound(docs: map<nat, seq<Line>>, n: nat, products: set<ProductId>) {
    forall id | id in docs :: id < n && LinesKnown(docs[id], products)
  }

  /** The headers and the line table of one kind of document agree: every header has
      its lines, they are sound, and the header total is the sum of their subtotals. */
  ghost predicate Filed(headers: map<nat, Document>, lines: map<nat, seq<Line>>, n: nat, products: set<ProductId>) {
    && lines.Keys == headers.Keys
    && DocsSound(lines, n, products)
    && forall id | id in headers :: headers[id].total == Amount(lines[id])
  }

  /** Saving a header with its lines, under a used id or the next one, keeps them filed. */
  lemma FileDocument(headers: map<nat, Document>, lines: map<nat, seq<Line>>, n: nat, products: set<ProductId>,
                     id: nat, doc: Document, docLines: seq<Line>)
    requires Filed(headers, lines, n, products)
    requires id in headers || id == n
    requires doc.total == Amount(docLines) && LinesKnown(docLines, products)
    ensures Filed(headers[id := doc], lines[id := docLines], if id in headers then n else n + 1, products)
  {
  }

  /** Deleting a header with its lines keeps the rest filed. */
  lemma UnfileDocument(headers: map<nat, Document>, lines: map<nat, seq<Line>>, n: nat, products: set<ProductId>, id: nat)
    requires Filed(headers, lines, n, products)
    ensures Filed(headers - {id}, lines - {id}, n, products)
  {
  }

  /** Stock equals the opening stock plus every purchased unit minus every sold unit. */
  ghost predicate Balanced(stock: map<ProductId, int>, opening: map<ProductId, int>,
                           bought: map<nat, seq<Line>>, nb: nat, sold: map<nat, seq<Line>>, ns: nat)
  {
    forall p | p in stock ::
      && p in opening
      && stock[p] == opening[p] + Volume(bought, p, nb) - Volume(sold, p, ns)
  }

  // ---------------------------------------------------------------------------
  // How the volume changes

  lemma {:induction false} VolumeAgree(docs: map<nat, seq<Line>>, other: map<nat, seq<Line>>, p: ProductId, n: nat)
    requires forall i | 0 <= i < n :: (i in docs <==> i in other) && (i in docs ==> docs[i] == other[i])
    ensures Volume(other, p, n) == Volume(docs, p, n)
  {
    if n > 0 {
      VolumeAgree(docs, other, p, n - 1);
    }
  }

  /** Replacing a document changes the volume by the difference of its counts. */
  lemma {:induction false} VolumeReplace(docs: map<nat, seq<Line>>, p: ProductId, n: nat, id: nat, lines: seq<Line>)
    requires id < n && id in docs
    ensures Volume(docs[id := lines], p, n) == Volume(docs, p, n) - Count(docs[id], p) + Count(lines, p)
  {
    if n - 1 == id {
      VolumeAgree(docs, docs[id := lines], p, n - 1);
    } else {
      VolumeReplace(docs, p, n - 1, id, lines);
    }
  }

  /** Removing a document takes its count out of the volume. */
  lemma {:induction false} VolumeRemove(docs: map<nat, seq<Line>>, p: ProductId, n: nat, id: nat)
    requires id < n && id in docs
    ensures Volume(docs - {id}, p, n) == Volume(docs, p, n) - Count(docs[id], p)
  {
    if n - 1 == id {
      VolumeAgree(docs, docs - {id}, p, n - 1);
    } else {
      VolumeRemove(docs, p, n - 1, id);
    }
  }

  /** A document added under the next id adds its count to the volume. */
  lemma VolumeAppend(docs: map<nat, seq<Line>>, p: ProductId, n: nat, lines: seq<Line>)
    requires forall i | i in docs :: i < n
    ensures Volume(docs[n := lines], p, n + 1) == Volume(docs, p, n) + Count(lines, p)
  {
    VolumeAgree(docs, docs[n := lines], p, n);
  }

  // ---------------------------------------------------------------------------
  // Each view keeps the books balanced

  /** Posting a new document's lines and filing it under the next id. */
  lemma CreateBalanced(stock: map<ProductId, int>, opening: map<ProductId, int>,
                       bought: map<nat, seq<Line>>, nb: nat, sold: map<nat, seq<Line>>, ns: nat,
                       lines: seq<Line>, f: Flow)
    requires Balanced(stock, opening, bought, nb, sold, ns)
    requires LinesKnown(lines, stock.Keys)
    requires DocsSound(bought, nb, stock.Keys) && DocsSound(sold, ns, stock.Keys)
    ensures var after := Adjust(stock, lines, f);
            if f == Inbound then Balanced(after, opening, bought[nb := lines], nb + 1, sold, ns)
            else Balanced(after, opening, bought, nb, sold[ns := lines], ns + 1)
  {
    var after := Adjust(stock, lines, f);
    forall p | p in after
      ensures p in opening
      ensures if f == Inbound
              then after[p] == opening[p] + Volume(bought[nb := lines], p, nb + 1) - Volume(sold, p, ns)
              else after[p] == opening[p] + Volume(bought, p, nb) - Volume(sold[ns := lines], p, ns + 1)
    {
      AdjustAt(stock, lines, f, p);
      if f == Inbound {
        VolumeAppend(bought, p, nb, lines);
      } else {
        VolumeAppend(sold, p, ns, lines);
      }
    }
  }

  /** Reversing a document's old lines, then posting and filing its new ones. */
  lemma UpdateBalanced(stock: map<ProductId, int>, opening: map<ProductId, int>,
                       bought: map<nat, seq<Line>>, nb: nat, sold: map<nat, seq<Line>>, ns: nat,
                       id: nat, lines: seq<Line>, f: Flow)
    requires Balanced(stock, opening, bought, nb, sold, ns)
    requires LinesKnown(lines, stock.Keys)
    requires DocsSound(bought, nb, stock.Keys) && DocsSound(sold, ns, stock.Keys)
    requires if f == Inbound then id in bought else id in sold
    ensures var previous := if f == Inbound then bought[id] else sold[id];
            var after := Adjust(Adjust(stock, previous, Opposite(f)), lines, f);
            if f == Inbound then Balanced(after, opening, bought[id := lines], nb, sold, ns)
            else Balanced(after, opening, bought, nb, sold[id := lines], ns)
  {
    var previous := if f == Inbound then bought[id] else sold[id];
    var after := Adjust(Adjust(stock, previous, Opposite(f)), lines, f);
    forall p | p in after
      ensures p in opening
      ensures if f == Inbound
              then after[p] == opening[p] + Volume(bought[id := lines], p, nb) - Volume(sold, p, ns)
              else after[p] == opening[p] + Volume(bought, p, nb) - Volume(sold[id := lines], p, ns)
    {
      ReplaceAt(stock, previous, lines, f, p);
      if f == Inbound {
        VolumeReplace(bought, p, nb, id, lines);
      } else {
        VolumeReplace(sold, p, ns, id, lines);
      }
    }
  }

  /** Reversing a document's lines and dropping it. */
  lemma DeleteBalanced(stock: map<ProductId, int>, opening: map<ProductId, int>,
                       bought: map<nat, seq<Line>>, nb: nat, sold: map<nat, seq<Line>>, ns: nat,
                       id: nat, f: Flow)
    requires Balanced(stock, opening, bought, nb, sold, ns)
    requires DocsSound(bought, nb, stock.Keys) && DocsSound(sold, ns, stock.Keys)
    requires if f == Inbound then id in bought else id in sold
    ensures var previous := if f == Inbound then bought[id] else sold[id];
            var after := Adjust(stock, previous, Opposite(f));
            if f == Inbound then Balanced(after, opening, bought - {id}, nb, sold, ns)
            else Balanced(after, opening, bought, nb, sold - {id}, ns)
  {
    var previous := if f == Inbound then bought[id] else sold[id];
    var after := Adjust(stock, previous, Opposite(f));
    forall p | p in after
      ensures p in opening
      ensures if f == Inbound
              then after[p] == opening[p] + Volume(bought - {id}, p, nb) - Volume(sold, p, ns)
              else after[p] == opening[p] + Volume(bought, p, nb) - Volume(sold - {id}, p, ns)
    {
      AdjustAt(stock, previous, Opposite(f), p);
      if f == Inbound {
        VolumeRemove(bought, p, nb, id);
      } else {
        VolumeRemove(sold, p, ns, id);
      }
    }
  }

  /** Appending consumed lines to an existing sale, or opening the sale with them under
      the next id, and taking their quantities out of stock. */
  lemma ChargeBalanced(stock: map<ProductId, int>, opening: map<ProductId, int>,
                       bought: map<nat, seq<Line>>, nb: nat, sold: map<nat, seq<Line>>, ns: nat,
                       id: nat, lines: seq<Line>)
    requires Balanced(stock, opening, bought, nb, sold, ns)
    requires LinesKnown(lines, stock.Keys)
    requires DocsSound(sold, ns, stock.Keys) && (id in sold || id == ns)
    ensures var after := Adjust(stock, lines, Outbound);
            if id in sold then Balanced(after, opening, bought, nb, sold[id := sold[id] + lines], ns)
            else Balanced(after, opening, bought, nb, sold[id := lines], ns + 1)
  {
    var after := Adjust(stock, lines, Outbound);
    forall p | p in after
      ensures p in opening
      ensures if id in sold
              then after[p] == opening[p] + Volume(bought, p, nb) - Volume(sold[id := sold[id] + lines], p, ns)
              else after[p] == opening[p] + Volume(bought, p, nb) - Volume(sold[id := lines], p, ns + 1)
    {
      AdjustAt(stock, lines, Outbound, p);
      if id in sold {
        VolumeReplace(sold, p, ns, id, sold[id] + lines);
        CountConcat(sold[id], lines, p);
      } else {
        VolumeAppend(sold, p, ns, lines);
      }
    }
  }

  // ---------------------------------------------------------------------------
  // Worked consequences

  /** Created from distinct lines and then deleted, a purchase or sale leaves the stock
      as it found it. */
  lemma CreateThenDeleteRestores(stock: map<ProductId, int>, rows: seq<FormRow<Line>>, f: Flow)
    requires LinesKnown(Kept(rows), stock.Keys) && Distinct(Kept(rows))
    ensures Adjust(Overwrite(stock, Kept(rows), f), Kept(rows), Opposite(f)) == stock
  {
    OverwriteDistinct(stock, Kept(rows), f);
    AdjustUndo(stock, Kept(rows), f);
  }

  /** A purchase of 5 units of `p` updated to 2 units leaves the stock 2 above where it
      started, not 7. */
  lemma UpdateCountsNewLinesOnly(stock: map<ProductId, int>, p: ProductId, cost: int)
    requires p in stock
    ensures var created := Overwrite(stock, [Line(p, 5, cost)], Inbound);
            Adjust(Adjust(created, [Line(p, 5, cost)], Outbound), [Line(p, 2, cost)], Inbound)[p] == stock[p] + 2
  {
    var created := Overwrite(stock, [Line(p, 5, cost)], Inbound);
    assert [Line(p, 5, cost)][..0] == [];
    assert created[p] == stock[p] + 5;
    ReplaceAt(created, [Line(p, 5, cost)], [Line(p, 2, cost)], Inbound, p);
    assert Count([Line(p, 5, cost)], p) == 5;
    assert Count([Line(p, 2, cost)], p) == 2;
  }

  class Store {
    /** precio_venta of each product, in cents; its keys are the products. */
    const price: map<ProductId, int>
    var stock: map<ProductId, int>
    var purchases: map<nat, Document>
    var purchaseLines: map<nat, seq<Line>>
    var nextPurchase: nat
    var sales: map<nat, Document>
    var saleLines: map<nat, seq<Line>>
    var nextSale: nat

    ghost predicate Valid()
      reads this
    {
      && stock.Keys == price.Keys
      && Filed(purchases, purchaseLines, nextPurchase, price.Keys)
      && Filed(sales, saleLines, nextSale, price.Keys)
    }

    constructor (price: map<ProductId, int>, stock: map<ProductId, int>)
      requires price.Keys == stock.Keys
      ensures Valid()
      ensures this.price == price && this.stock == stock
      ensures purchases == map[] && sales == map[] && nextPurchase == 0 && nextSale == 0
    {
      this.price := price;
      this.stock := stock;
      purchases, purchaseLines, nextPurchase := map[], map[], 0;
      sales, saleLines, nextSale := map[], map[], 0;
    }

    /** The loops of the update and delete views: each line reloads its product and
        moves its stock by the line's quantity; the subtotals are summed. */
    method Apply(lines: seq<Line>, f: Flow) returns (total: int)
      requires LinesKnown(lines, stock.Keys)
      modifies this`stock
      ensures stock == Adjust(old(stock), lines, f)
      ensures total == Amount(lines)
    {
      total := 0;
      for i := 0 to |lines|
        invariant LinesKnown(lines[..i], old(stock).Keys)
        invariant stock == Adjust(old(stock), lines[..i], f)
        invariant total == Amount(lines[..i])
      {
        var l := lines[i];
        assert lines[..i + 1][..i] == lines[..i];
        stock := stock[l.product := stock[l.product] + Signed(f, l.qty)];
        total := total + l.qty * l.unit;
      }
      assert lines[..|lines|] == lines;
    }

    /** The loop of the create views over the kept forms: every line writes the stock
        its product had when the formset loaded it, plus or minus its own quantity. */
    method ApplyAsLoaded(lines: seq<Line>, f: Flow) returns (total: int)
      requires LinesKnown(lines, stock.Keys)
      modifies this`stock
      ensures stock == Overwrite(old(stock), lines, f)
      ensures total == Amount(lines)
    {
      var loaded := stock;
      total := 0;
      for i := 0 to |lines|
        invariant LinesKnown(lines[..i], loaded.Keys)
        invariant stock == Overwrite(loaded, lines[..i], f)
        invariant total == Amount(lines[..i])
      {
        var l := lines[i];
        assert lines[..i + 1][..i] == lines[..i];
        stock := stock[l.product := loaded[l.product] + Signed(f, l.qty)];
        total := total + l.qty * l.unit;
      }
      assert lines[..|lines|] == lines;
    }

    /** CompraCreateView.post: the form and the formset must validate; then the header
        is saved under the next id, every kept line is posted from the product as
        loaded, and the total is the sum of the kept lines' subtotals. */
    method CreatePurchase(supplier: SupplierId, user: UserId, rows: seq<FormRow<Line>>) returns (outcome: Outcome, id: nat)
      requires Valid()
      modifies this
      ensures Valid()
      ensures outcome == (if LinesKnown(Kept(rows), price.Keys) then Ok else InvalidForm)
      ensures outcome != Ok ==> unchanged(this)
      ensures outcome == Ok ==>
                && id == old(nextPurchase) && nextPurchase == id + 1
                && purchases == old(purchases)[id := Document(Supplier(supplier), user, Amount(Kept(rows)))]
                && purchaseLines == old(purchaseLines)[id := Kept(rows)]
                && stock == Overwrite(old(stock), Kept(rows), Inbound)
                && sales == old(sales) && saleLines == old(saleLines) && nextSale == old(nextSale)
      ensures outcome == Ok && Distinct(Kept(rows)) ==> stock == Adjust(old(stock), Kept(rows), Inbound)
    {
      if !LinesKnown(Kept(rows), price.Keys) {
        return InvalidForm, 0;
      }
      if Distinct(Kept(rows)) {
        OverwriteDistinct(stock, Kept(rows), Inbound);
      }
      id := PostPurchase(supplier, user, Kept(rows));
      outcome := Ok;
    }

    /** The atomic block of CompraCreateView.post. */
    method PostPurchase(supplier: SupplierId, user: UserId, lines: seq<Line>) returns (id: nat)
      requires Valid() && LinesKnown(lines, price.Keys)
      modifies this
      ensures Valid()
      ensures id == old(nextPurchase) && nextPurchase == id + 1
      ensures purchases == old(purchases)[id := Document(Supplier(supplier), user, Amount(lines))]
      ensures purchaseLines == old(purchaseLines)[id := lines]
      ensures stock == Overwrite(old(stock), lines, Inbound)
      ensures sales == old(sales) && saleLines == old(saleLines) && nextSale == old(nextSale)
    {
      id := nextPurchase;
      var total := ApplyAsLoaded(lines, Inbound);
      FileDocument(purchases, purchaseLines, id, price.Keys, id, Document(Supplier(supplier), user, total), lines);
      purchases := purchases[id := Document(Supplier(supplier), user, total)];
      purchaseLines := purchaseLines[id := lines];
      nextPurchase := id + 1;
    }

    /** CompraUpdateView.post: the purchase must exist and the forms validate; then the
        old lines are reversed, the formset's lines replace them and are posted, and the
        total is recomputed from the new lines only. */
    method UpdatePurchase(id: nat, supplier: SupplierId, rows: seq<FormRow<Line>>) returns (outcome: Outcome)
      requires Valid()
      modifies this
      ensures Valid()
      ensures outcome == (if id !in old(purchases) then NotFound
                          else if !LinesKnown(Kept(rows), price.Keys) then InvalidForm
                          else Ok)
      ensures outcome != Ok ==> unchanged(this)
      ensures outcome == Ok ==>
                && purchases == old(purchases)[id := Document(Supplier(supplier), old(purchases)[id].user, Amount(Kept(rows)))]
                && purchaseLines == old(purchaseLines)[id := Kept(rows)]
                && stock == Adjust(Adjust(old(stock), old(purchaseLines)[id], Outbound), Kept(rows), Inbound)
                && nextPurchase == old(nextPurchase)
                && sales == old(sales) && saleLines == old(saleLines) && nextSale == old(nextSale)
    {
      if id !in purchases {
        return NotFound;
      }
      if !LinesKnown(Kept(rows), price.Keys) {
        return InvalidForm;
      }
      RepostPurchase(id, supplier, Kept(rows));
      outcome := Ok;
    }

    /** The atomic block of CompraUpdateView.post. */
    method RepostPurchase(id: nat, supplier: SupplierId, lines: seq<Line>)
      requires Valid() && id in purchases && LinesKnown(lines, price.Keys)
      modifies this
      ensures Valid()
      ensures purchases == old(purchases)[id := Document(Supplier(supplier), old(purchases)[id].user, Amount(lines))]
      ensures purchaseLines == old(purchaseLines)[id := lines]
      ensures stock == Adjust(Adjust(old(stock), old(purchaseLines)[id], Outbound), lines, Inbound)
      ensures nextPurchase == old(nextPurchase)
      ensures sales == old(sales) && saleLines == old(saleLines) && nextSale == old(nextSale)
    {
      var _ := Apply(purchaseLines[id], Outbound);
      var total := Apply(lines, Inbound);
      var doc := Document(Supplier(supplier), purchases[id].user, total);
      FileDocument(purchases, purchaseLines, nextPurchase, price.Keys, id, doc, lines);
      purchases := purchases[id := doc];
      purchaseLines := purchaseLines[id := lines];
    }

    /** CompraDeleteView.delete: every line's quantity is taken back out of stock and
        the purchase goes away with its lines. */
    method DeletePurchase(id: nat) returns (outcome: Outcome)
      requires Valid()
      modifies this
      ensures Valid()
      ensures outcome == (if id in old(purchases) then Ok else NotFound)
      ensures outcome != Ok ==> unchanged(this)
      ensures outcome == Ok ==>
                && stock == Adjust(old(stock), old(purchaseLines)[id], Outbound)
                && purchases == old(purchases) - {id} && purchaseLines == old(purchaseLines) - {id}
                && nextPurchase == old(nextPurchase)
                && sales == old(sales) && saleLines == old(saleLines) && nextSale == old(nextSale)
    {
      if id !in purchases {
        return NotFound;
      }
      UnfileDocument(purchases, purchaseLines, nextPurchase, price.Keys, id);
      var _ := Apply(purchaseLines[id], Outbound);
      purchases := purchases - {id};
      purchaseLines := purchaseLines - {id};
      outcome := Ok;
    }

    /** VentaCreateView.post: as CreatePurchase, with the stock taken out and no client. */
    method CreateSale(user: UserId, rows: seq<FormRow<Line>>) returns (outcome: Outcome, id: nat)
      requires Valid()
      modifies this
      ensures Valid()
      ensures outcome == (if LinesKnown(Kept(rows), price.Keys) then Ok else InvalidForm)
      ensures outcome != Ok ==> unchanged(this)
      ensures outcome == Ok ==>
                && id == old(nextSale) && nextSale == id + 1
                && sales == old(sales)[id := Document(Customer(None), user, Amount(Kept(rows)))]
                && saleLines == old(saleLines)[id := Kept(rows)]
                && stock == Overwrite(old(stock), Kept(rows), Outbound)
                && purchases == old(purchases) && purchaseLines == old(purchaseLines)
                && nextPurchase == old(nextPurchase)
      ensures outcome == Ok && Distinct(Kept(rows)) ==> stock == Adjust(old(stock), Kept(rows), Outbound)
    {
      if !LinesKnown(Kept(rows), price.Keys) {
        return InvalidForm, 0;
      }
      if Distinct(Kept(rows)) {
        OverwriteDistinct(stock, Kept(rows), Outbound);
      }
      id := PostSale(user, Kept(rows));
      outcome := Ok;
    }

    /** The atomic block of VentaCreateView.post. */
    method PostSale(user: UserId, lines: seq<Line>) returns (id: nat)
      requires Valid() && LinesKnown(lines, price.Keys)
      modifies this
      ensures Valid()
      ensures id == old(nextSale) && nextSale == id + 1
      ensures sales == old(sales)[id := Document(Customer(None), user, Amount(lines))]
      ensures saleLines == old(saleLines)[id := lines]
      ensures stock == Overwrite(old(stock), lines, Outbound)
      ensures purchases == old(purchases) && purchaseLines == old(purchaseLines) && nextPurchase == old(nextPurchase)
    {
      id := nextSale;
      var total := ApplyAsLoaded(lines, Outbound);
      FileDocument(sales, saleLines, id, price.Keys, id, Document(Customer(None), user, total), lines);
      sales := sales[id := Document(Customer(None), user, total)];
      saleLines := saleLines[id := lines];
      nextSale := id + 1;
    }

    /** VentaUpdateView.post: the sale must exist and the formset validate; then the old
        lines go back into stock, the new ones come out, and the total is recomputed from
        the new lines only. The sale form itself has no fields. */
    method UpdateSale(id: nat, rows: seq<FormRow<Line>>) returns (outcome: Outcome)
      requires Valid()
      modifies this
      ensures Valid()
      ensures outcome == (if id !in old(sales) then NotFound
                          else if !LinesKnown(Kept(rows), price.Keys) then InvalidForm
                          else Ok)
      ensures outcome != Ok ==> unchanged(this)
      ensures outcome == Ok ==>
                && sales == old(sales)[id := old(sales)[id].(total := Amount(Kept(rows)))]
                && saleLines == old(saleLines)[id := Kept(rows)]
                && stock == Adjust(Adjust(old(stock), old(saleLines)[id], Inbound), Kept(rows), Outbound)
                && nextSale == old(nextSale)
                && purchases == old(purchases) && purchaseLines == old(purchaseLines)
                && nextPurchase == old(nextPurchase)
    {
      if id !in sales {
        return NotFound;
      }
      if !LinesKnown(Kept(rows), price.Keys) {
        return InvalidForm;
      }
      RepostSale(id, Kept(rows));
      outcome := Ok;
    }

    /** The atomic block of VentaUpdateView.post. */
    method RepostSale(id: nat, lines: seq<Line>)
      requires Valid() && id in sales && LinesKnown(lines, price.Keys)
      modifies this
      ensures Valid()
      ensures sales == old(sales)[id := old(sales)[id].(total := Amount(lines))]
      ensures saleLines == old(saleLines)[id := lines]
      ensures stock == Adjust(Adjust(old(stock), old(saleLines)[id], Inbound), lines, Outbound)
      ensures nextSale == old(nextSale)
      ensures purchases == old(purchases) && purchaseLines == old(purchaseLines) && nextPurchase == old(nextPurchase)
    {
      var _ := Apply(saleLines[id], Inbound);
      var total := Apply(lines, Outbound);
      var doc := sales[id].(total := total);
      assert doc == old(sales)[id].(total := Amount(lines));
      FileDocument(sales, saleLines, nextSale, price.Keys, id, doc, lines);
      sales := sales[id := doc];
      saleLines := saleLines[id := lines];
      assert sales == old(sales)[id := doc];
    }

    /** VentaDeleteView.delete: every line's quantity goes back into stock and the sale
        goes away with its lines. */
    method DeleteSale(id: nat) returns (outcome: Outcome)
      requires Valid()
      modifies this
      ensures Valid()
      ensures outcome == (if id in old(sales) then Ok else NotFound)
      ensures outcome != Ok ==> unchanged(this)
      ensures outcome == Ok ==>
                && stock == Adjust(old(stock), old(saleLines)[id], Inbound)
                && sales == old(sales) - {id} && saleLines == old(saleLines) - {id}
                && nextSale == old(nextSale)
                && purchases == old(purchases) && purchaseLines == old(purchaseLines)
                && nextPurchase == old(nextPurchase)
    {
      if id !in sales {
        return NotFound;
      }
      UnfileDocument(sales, saleLines, nextSale, price.Keys, id);
      var _ := Apply(saleLines[id], Inbound);
      sales := sales - {id};
      saleLines := saleLines - {id};
      outcome := Ok;
    }

    /** Registering a consumption on a reservation without a live sale: a sale for the
        reservation's client is opened under the next id with the consumed lines, whose
        quantities leave stock and whose subtotals make up its total. */
    method OpenSale(client: ClientId, user: UserId, lines: seq<Line>) returns (id: nat)
      requires Valid() && LinesKnown(lines, price.Keys)
      modifies this
      ensures Valid()
      ensures id == old(nextSale) && nextSale == id + 1
      ensures sales == old(sales)[id := Document(Customer(Some(client)), user, Amount(lines))]
      ensures saleLines == old(saleLines)[id := lines]
      ensures stock == Adjust(old(stock), lines, Outbound)
      ensures purchases == old(purchases) && purchaseLines == old(purchaseLines) && nextPurchase == old(nextPurchase)
    {
      id := nextSale;
      var total := Apply(lines, Outbound);
      FileDocument(sales, saleLines, nextSale, price.Keys, id, Document(Customer(Some(client)), user, total), lines);
      sales := sales[id := Document(Customer(Some(client)), user, total)];
      saleLines := saleLines[id := lines];
      nextSale := id + 1;
    }

    /** Registering a consumption on a reservation whose sale exists: the lines are
        appended to that sale, their quantities leave stock and their subtotals are added
        to its total. */
    method AppendToSale(id: nat, lines: seq<Line>)
      requires Valid() && id in sales && LinesKnown(lines, price.Keys)
      modifies this
      ensures Valid()
      ensures sales == old(sales)[id := old(sales)[id].(total := old(sales)[id].total + Amount(lines))]
      ensures saleLines == old(saleLines)[id := old(saleLines)[id] + lines]
      ensures stock == Adjust(old(stock), lines, Outbound)
      ensures nextSale == old(nextSale)
      ensures purchases == old(purchases) && purchaseLines == old(purchaseLines) && nextPurchase == old(nextPurchase)
    {
      AmountConcat(saleLines[id], lines);
      var added := Apply(lines, Outbound);
      var doc := sales[id].(total := sales[id].total + added);
      assert doc == old(sales)[id].(total := old(sales)[id].total + Amount(lines));
      var docLines := saleLines[id] + lines;
      FileDocument(sales, saleLines, nextSale, price.Keys, id, doc, docLines);
      sales := sales[id := doc];
      saleLines := saleLines[id := docLines];
      assert sales == old(sales)[id := doc];
    }
  }
}
