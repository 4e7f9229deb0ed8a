/** The cart of the sale screen: confirmed sale lines in insertion order, the
    total derived from them, removal by product id, and the items of the
    request that registers the sale. */
module Cart {

  /** A confirmed line: a snapshot of the product and of the dialog's
      values (price and subtotal in cents, quantity in thousandths). */
  datatype SaleLine = SaleLine(id: int, name: string, unit: string, price: int, quantity: int, subtotal: int)

  /** One item of the outgoing sale request: `{producto_id, cantidad, precio}`. */
  datatype RequestItem = RequestItem(productId: int, quantity: int, price: int)

  /** The body of the outgoing sale request: `{items, total}`. */
  datatype SaleRequest = SaleRequest(items: seq<RequestItem>, total: int)

  /** The total: the subtotals added up from left to right, starting at 0,
      without rounding. */
  function Sum(lines: seq<SaleLine>): (s: int)
    ensures lines == [] ==> s == 0
  {
    if lines == [] then 0 else Sum(lines[..|lines| - 1]) + lines[|lines| - 1].subtotal
  }

  /** The subtotals of the lines of one product, added up. */
  function SubtotalFor(lines: seq<SaleLine>, id: int): int
  {
    if lines == [] then 0
    else (if lines[0].id == id then lines[0].subtotal else 0) + SubtotalFor(lines[1..], id)
  }

  /** The cart without any line of product `id`. */
  function Remove(lines: seq<SaleLine>, id: int): (r: seq<SaleLine>)
    ensures |r| <= |lines|
    ensures forall x :: x in r <==> x in lines && x.id != id
  {
    if lines == [] then []
    else if lines[0].id == id then Remove(lines[1..], id)
    else [lines[0]] + Remove(lines[1..], id)
  }

  /** The request item for one line. */
  function Item(line: SaleLine): (it: RequestItem)
    ensures it.productId == line.id && it.quantity == line.quantity && it.price == line.price
  {
    RequestItem(line.id, line.quantity, line.price)
  }

  /** Two lines give the same request item exactly when they agree on id,
      quantity and price: name, unit and subtotal are not sent. */
  lemma ItemSameIff(a: SaleLine, b: SaleLine)
    ensures Item(a) == Item(b) <==> a.id == b.id && a.quantity == b.quantity && a.price == b.price
  {
  }

  /** The request items, one per line and in the cart's order. */
  function Items(lines: seq<SaleLine>): (r: seq<RequestItem>)
    ensures |r| == |lines|
    ensures forall i :: 0 <= i < |lines| ==>
      r[i].productId == lines[i].id && r[i].quantity == lines[i].quantity && r[i].price == lines[i].price
    ensures forall i :: 0 <= i < |lines| ==> r[i] == Item(lines[i])
  {
    if lines == [] then [] else [Item(lines[0])] + Items(lines[1..])
  }

  /** Adding a line raises the total by exactly that line's subtotal. */
  lemma SumAppend(lines: seq<SaleLine>, x: SaleLine)
    ensures Sum(lines + [x]) == Sum(lines) + x.subtotal
  {
  }

  /** With no negative subtotal the total is not negative. */
  lemma {:induction false} SumNonNegative(lines: seq<SaleLine>)
    requires forall i :: 0 <= i < |lines| ==> lines[i].subtotal >= 0
    ensures Sum(lines) >= 0
  {
    if lines != [] {
      var init := lines[..|lines| - 1];
      forall i | 0 <= i < |init| ensures init[i].subtotal >= 0 {
        assert init[i] == lines[i];
      }
      SumNonNegative(init);
    }
  }

  /** With no negative subtotal, no line's subtotal exceeds the total. */
  lemma {:induction false} SumBoundsLine(lines: seq<SaleLine>, k: int)
    requires forall i :: 0 <= i < |lines| ==> lines[i].subtotal >= 0
    requires 0 <= k < |lines|
    ensures lines[k].subtotal <= Sum(lines)
  {
    var init := lines[..|lines| - 1];
    forall i | 0 <= i < |init| ensures init[i].subtotal >= 0 {
      assert init[i] == lines[i];
    }
    if k < |lines| - 1 {
      assert init[k] == lines[k];
      SumBoundsLine(init, k);
    } else {
      SumNonNegative(init);
    }
  }

  /** The total of two carts put together is the sum of their totals. */
  lemma {:induction false} SumConcat(a: seq<SaleLine>, b: seq<SaleLine>)
    ensures Sum(a + b) == Sum(a) + Sum(b)
  {
    if b == [] {
      assert a + b == a;
    } else {
      var c := b[..|b| - 1];
      var x := b[|b| - 1];
      assert b == c + [x];
      assert a + b == (a + c) + [x];
      SumConcat(a, c);
      SumAppend(a + c, x);
      SumAppend(c, x);
    }
  }

  /** Removing a product takes exactly that product's subtotals off the
      total. */
  lemma {:induction false} SumRemove(lines: seq<SaleLine>, id: int)
    ensures Sum(Remove(lines, id)) == Sum(lines) - SubtotalFor(lines, id)
  {
    if lines != [] {
      var x, rest := lines[0], lines[1..];
      assert lines == [x] + rest;
      SumRemove(rest, id);
      SumConcat([x], rest);
      if x.id != id {
        SumConcat([x], Remove(rest, id));
      }
      assert Sum([x]) == x.subtotal by {
        assert [x][..0] == [];
      }
    }
  }

  /** Removal works line by line: it keeps the order of what remains. */
  lemma {:induction false} RemoveConcat(a: seq<SaleLine>, b: seq<SaleLine>, id: int)
    ensures Remove(a + b, id) == Remove(a, id) + Remove(b, id)
  {
    if a == [] {
      assert a + b == b;
    } else {
      assert (a + b)[0] == a[0];
      assert (a + b)[1..] == a[1..] + b;
      RemoveConcat(a[1..], b, id);
    }
  }

  /** Removing a product that is not in the cart changes nothing. */
  lemma {:induction false} RemoveAbsent(lines: seq<SaleLine>, id: int)
    requires forall x :: x in lines ==> x.id != id
    ensures Remove(lines, id) == lines
  {
    if lines != [] {
      assert lines[0] in lines;
      forall x | x in lines[1..] ensures x.id != id {
        assert x in lines;
      }
      RemoveAbsent(lines[1..], id);
      assert lines == [lines[0]] + lines[1..];
    }
  }

  /** Removing the same product twice is the same as removing it once. */
  lemma RemoveIdempotent(lines: seq<SaleLine>, id: int)
    ensures Remove(Remove(lines, id), id) == Remove(lines, id)
  {
  }

  /** A cart of a 300.00 line and a 45.50 line totals 345.50; removing the
      first product leaves 45.50. */
  lemma TotalExample()
    ensures var lines := [SaleLine(1, "Bistec", "kg", 15000, 2000, 30000),
                          SaleLine(2, "Chorizo", "kg", 9100, 500, 4550)];
      Sum(lines) == 34550 && Sum(Remove(lines, 1)) == 4550
  {
  }
}
