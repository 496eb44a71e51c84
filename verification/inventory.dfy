/** Line items of purchases and sales, and what posting them does to product stock.

    Two ways of posting occur in the views. The update, delete and consumption code
    reloads each line's product when it touches it, so every line adds to what the
    previous one left (Adjust). The create views instead use the product instances the
    formset loaded while validating, so each line writes "stock as loaded + quantity"
    and a later line naming the same product overwrites an earlier one (Overwrite). */
module Inventory {
  import opened Common

  /** One DetalleCompra / DetalleVenta row: product, cantidad, and the unit amount in
      cents (costo_unitario for a purchase, precio_unitario for a sale). */
  datatype Line = Line(product: ProductId, qty: int, unit: int)

  /** Purchases bring stock in; sales and consumptions take it out. */
  datatype Flow = Inbound | Outbound

  function Opposite(f: Flow): Flow {
    if f == Inbound then Outbound else Inbound
  }

  /** The stock change of `q` units moving in direction `f`. */
  function Signed(f: Flow, q: int): int {
    if f == Inbound then q else -q
  }

  /** Every line names a product that exists. */
  predicate LinesKnown(lines: seq<Line>, products: set<ProductId>) {
    forall l | l in lines :: l.product in products
  }

  /** No two lines name the same product. */
  predicate Distinct(lines: seq<Line>) {
    forall i, j | 0 <= i < j < |lines| :: lines[i].product != lines[j].product
  }

  /** Total quantity the lines give for product `p`. */
  function Count(lines: seq<Line>, p: ProductId): int {
    if lines == [] then 0
    else Count(lines[..|lines| - 1], p) + (if lines[|lines| - 1].product == p then lines[|lines| - 1].qty else 0)
  }

  /** Sum of the line subtotals cantidad * unit amount. */
  function Amount(lines: seq<Line>): int {
    if lines == [] then 0
    else Amount(lines[..|lines| - 1]) + lines[|lines| - 1].qty * lines[|lines| - 1].unit
  }

  /** Stock after posting the lines one by one, each on top of the previous ones. */
  function Adjust(stock: map<ProductId, int>, lines: seq<Line>, f: Flow): (after: map<ProductId, int>)
    requires LinesKnown(lines, stock.Keys)
    ensures after.Keys == stock.Keys
  {
    if lines == [] then stock
    else
      var before := Adjust(stock, lines[..|lines| - 1], f);
      var l := lines[|lines| - 1];
      before[l.product := before[l.product] + Signed(f, l.qty)]
  }

  /** Stock after the create views post the lines: every line writes the value the
      product had when it was loaded (`loaded`) plus its own quantity. */
  function Overwrite(loaded: map<ProductId, int>, lines: seq<Line>, f: Flow): (after: map<ProductId, int>)
    requires LinesKnown(lines, loaded.Keys)
    ensures after.Keys == loaded.Keys
  {
    if lines == [] then loaded
    else
      var l := lines[|lines| - 1];
      Overwrite(loaded, lines[..|lines| - 1], f)[l.product := loaded[l.product] + Signed(f, l.qty)]
  }

  /** One form of an inline formset as submitted: an untouched extra form, or a filled
      form that may carry the DELETE flag. */
  datatype FormRow<T> = Blank | Filled(item: T, delete: bool)

  /** What the formset keeps: the filled forms not marked for deletion, in order. */
  function Kept<T(!new)>(rows: seq<FormRow<T>>): (items: seq<T>)
    ensures |items| <= |rows|
    ensures forall x :: x in items <==> Filled(x, false) in rows
  {
    if rows == [] then []
    else
      var r := rows[|rows| - 1];
      Kept(rows[..|rows| - 1]) + (if r.Filled? && !r.delete then [r.item] else [])
  }

  /** Every filled form not marked DELETE is kept exactly as many times as it was
      submitted, so the kept lines, and the total made from them, are fixed by the forms. */
  lemma {:induction false} KeptCounts<T(!new)>(rows: seq<FormRow<T>>, x: T)
    ensures multiset(Kept(rows))[x] == multiset(rows)[Filled(x, false)]
  {
    if rows != [] {
      var r := rows[|rows| - 1];
      assert rows == rows[..|rows| - 1] + [r];
      KeptCounts(rows[..|rows| - 1], x);
    }
  }

  // ---------------------------------------------------------------------------
  // Sums over concatenated lines

  lemma {:induction false} CountConcat(a: seq<Line>, b: seq<Line>, p: ProductId)
    ensures Count(a + b, p) == Count(a, p) + Count(b, p)
  {
    if b == [] {
      assert a + b == a;
    } else {
      assert (a + b)[..|a + b| - 1] == a + b[..|b| - 1];
      CountConcat(a, b[..|b| - 1], p);
    }
  }

  lemma {:induction false} AmountConcat(a: seq<Line>, b: seq<Line>)
    ensures Amount(a + b) == Amount(a) + Amount(b)
  {
    if b == [] {
      assert a + b == a;
    } else {
      assert (a + b)[..|a + b| - 1] == a + b[..|b| - 1];
      AmountConcat(a, b[..|b| - 1]);
    }
  }

  /** A product no line names has count zero. */
  lemma {:induction false} CountAbsent(lines: seq<Line>, p: ProductId)
    requires forall l | l in lines :: l.product != p
    ensures Count(lines, p) == 0
  {
    if lines != [] {
      CountAbsent(lines[..|lines| - 1], p);
    }
  }

  // ---------------------------------------------------------------------------
  // Posting lines on top of each other

  /** Conservation: posting the lines moves each product's stock by exactly the total
      quantity the lines give for it. */
  lemma {:induction false} AdjustAt(stock: map<ProductId, int>, lines: seq<Line>, f: Flow, p: ProductId)
    requires LinesKnown(lines, stock.Keys) && p in stock
    ensures Adjust(stock, lines, f)[p] == stock[p] + Signed(f, Count(lines, p))
  {
    if lines != [] {
      assert LinesKnown(lines[..|lines| - 1], stock.Keys) by {
        forall l | l in lines[..|lines| - 1] ensures l.product in stock {
          assert l in lines;
        }
      }
      AdjustAt(stock, lines[..|lines| - 1], f, p);
    }
  }

  /** Posting the same lines in the opposite direction undoes them: a purchase or sale
      created from distinct lines and then deleted leaves stock as it was. */
  lemma AdjustUndo(stock: map<ProductId, int>, lines: seq<Line>, f: Flow)
    requires LinesKnown(lines, stock.Keys)
    ensures Adjust(Adjust(stock, lines, f), lines, Opposite(f)) == stock
  {
    var once := Adjust(stock, lines, f);
    var twice := Adjust(once, lines, Opposite(f));
    forall p | p in stock ensures twice[p] == stock[p] {
      AdjustAt(stock, lines, f, p);
      AdjustAt(once, lines, Opposite(f), p);
    }
  }

  /** Reverse-then-reapply: after an update the stock reflects the new lines only. */
  lemma ReplaceAt(stock: map<ProductId, int>, old_lines: seq<Line>, new_lines: seq<Line>, f: Flow, p: ProductId)
    requires LinesKnown(old_lines, stock.Keys) && LinesKnown(new_lines, stock.Keys) && p in stock
    ensures Adjust(Adjust(stock, old_lines, Opposite(f)), new_lines, f)[p]
            == stock[p] - Signed(f, Count(old_lines, p)) + Signed(f, Count(new_lines, p))
  {
    var reversed := Adjust(stock, old_lines, Opposite(f));
    AdjustAt(stock, old_lines, Opposite(f), p);
    AdjustAt(reversed, new_lines, f, p);
  }

  /** Posting a concatenation is posting one part after the other. */
  lemma AdjustConcat(stock: map<ProductId, int>, a: seq<Line>, b: seq<Line>, f: Flow)
    requires LinesKnown(a, stock.Keys) && LinesKnown(b, stock.Keys)
    ensures LinesKnown(a + b, stock.Keys)
    ensures Adjust(stock, a + b, f) == Adjust(Adjust(stock, a, f), b, f)
  {
    var first := Adjust(stock, a, f);
    forall p | p in stock ensures Adjust(stock, a + b, f)[p] == Adjust(first, b, f)[p] {
      AdjustAt(stock, a + b, f, p);
      AdjustAt(stock, a, f, p);
      AdjustAt(first, b, f, p);
      CountConcat(a, b, p);
    }
  }

  /** The order in which line sets are posted does not matter. */
  lemma AdjustCommutes(stock: map<ProductId, int>, a: seq<Line>, b: seq<Line>, f: Flow, g: Flow)
    requires LinesKnown(a, stock.Keys) && LinesKnown(b, stock.Keys)
    ensures Adjust(Adjust(stock, a, f), b, g) == Adjust(Adjust(stock, b, g), a, f)
  {
    forall p | p in stock
      ensures Adjust(Adjust(stock, a, f), b, g)[p] == Adjust(Adjust(stock, b, g), a, f)[p]
    {
      CommutesAt(stock, a, b, f, g, p);
    }
  }

  lemma CommutesAt(stock: map<ProductId, int>, a: seq<Line>, b: seq<Line>, f: Flow, g: Flow, p: ProductId)
    requires LinesKnown(a, stock.Keys) && LinesKnown(b, stock.Keys) && p in stock
    ensures Adjust(Adjust(stock, a, f), b, g)[p] == Adjust(Adjust(stock, b, g), a, f)[p]
  {
    var sa := Adjust(stock, a, f);
    var sb := Adjust(stock, b, g);
    AdjustAt(stock, a, f, p);
    AdjustAt(sa, b, g, p);
    AdjustAt(stock, b, g, p);
    AdjustAt(sb, a, f, p);
  }

  // ---------------------------------------------------------------------------
  // Posting from stale product instances (the create views)

  /** A product no line names keeps its stock. */
  lemma {:induction false} AdjustUntouched(stock: map<ProductId, int>, lines: seq<Line>, f: Flow, p: ProductId)
    requires LinesKnown(lines, stock.Keys) && p in stock
    requires forall l | l in lines :: l.product != p
    ensures Adjust(stock, lines, f)[p] == stock[p]
  {
    AdjustAt(stock, lines, f, p);
    CountAbsent(lines, p);
  }

  /** With distinct products the stale instances do no harm: the create views post
      exactly what the update views would. */
  lemma {:induction false} OverwriteDistinct(loaded: map<ProductId, int>, lines: seq<Line>, f: Flow)
    requires LinesKnown(lines, loaded.Keys) && Distinct(lines)
    ensures Overwrite(loaded, lines, f) == Adjust(loaded, lines, f)
  {
    if lines != [] {
      var init := lines[..|lines| - 1];
      var l := lines[|lines| - 1];
      assert LinesKnown(init, loaded.Keys) by {
        forall m | m in init ensures m.product in loaded {
          assert m in lines;
        }
      }
      assert Distinct(init);
      OverwriteDistinct(loaded, init, f);
      forall m | m in init ensures m.product != l.product {
        var i :| 0 <= i < |init| && init[i] == m;
        assert lines[i] == m;
      }
      AdjustUntouched(loaded, init, f, l.product);
    }
  }

  /** Two create-form lines for the same product: only the last one reaches the stock,
      although both are added to the total. */
  lemma OverwriteLosesEarlierLine(loaded: map<ProductId, int>, p: ProductId, a: Line, b: Line)
    requires p in loaded && a.product == p && b.product == p
    ensures Overwrite(loaded, [a, b], Inbound)[p] == loaded[p] + b.qty
    ensures Adjust(loaded, [a, b], Inbound)[p] == loaded[p] + a.qty + b.qty
    ensures Amount([a, b]) == a.qty * a.unit + b.qty * b.unit
  {
    assert [a, b][..1] == [a];
    assert [a][..0] == [];
    assert Adjust(loaded, [a], Inbound)[p] == loaded[p] + a.qty;
    assert Amount([a]) == a.qty * a.unit;
  }
}
