/** The sale screen's state and its event handlers.

    Each handler together with the effects it triggers (the dialog's
    reconciliation, the recomputation of the total) is one atomic step here.
    The network is not modelled: the catalog response and the outcome of the
    sale request are parameters of the handlers that receive them. */
module SalePage {
  import opened Options
  import opened Rounding
  import opened LineEditor
  import opened Cart
  import opened Catalog

  class SaleScreen {
    /** The loaded catalog. */
    var products: seq<Product>
    /** The search box. */
    var query: string
    /** The confirmed lines, in the order they were added. */
    var cart: seq<SaleLine>
    /** The total shown under the cart, in cents. */
    var total: int
    /** Whether the dialog is visible. */
    var showModal: bool
    /** The product the dialog was opened on. */
    var selected: Option<Product>
    /** The dialog's inputs, in cents, thousandths and cents. */
    var price: int
    var quantity: int
    var amount: int
    /** The input typed into last. */
    var lastEdited: Option<Field>

    /** The dialog's inputs as a value. */
    function Editing(): EditLine
      reads this
    {
      EditLine(price, quantity, amount, lastEdited)
    }

    /** What holds between events: the total is the sum of the cart, and the
        dialog's effect has reached its fixed point. */
    ghost predicate Valid()
      reads this
    {
      total == Sum(cart) && Reconcile(Editing()) == Editing()
    }

    /** The screen as it first renders: nothing loaded, nothing selected,
        all inputs 0. */
    constructor ()
      ensures Valid()
      ensures products == [] && query == "" && cart == [] && total == 0
      ensures !showModal && selected == None
      ensures Editing() == EditLine(0, 0, 0, None)
    {
      products, query, cart, total := [], "", [], 0;
      showModal, selected := false, None;
      price, quantity, amount, lastEdited := 0, 0, 0, None;
    }

    /** The catalog response: the list is taken only from a successful
        response. */
    method LoadCatalog(ok: bool, data: seq<Product>)
      modifies this`products
      ensures products == if ok then data else old(products)
    {
      if ok {
        products := data;
      }
    }

    /** Typing into the search box. */
    method SetQuery(q: string)
      modifies this`query
      ensures query == q
    {
      query := q;
    }

    /** The products listed under the search box. */
    function FilteredProducts(): (r: seq<Product>)
      reads this
      ensures forall p :: p in r <==> p in products && Matches(p, query)
    {
      Search(products, query)
    }

    /** "Agregar": opens the dialog on `p` with its price, one unit, the
        amount of one unit and no field edited. */
    method AddProduct(p: Product)
      requires Valid()
      modifies this
      ensures Valid()
      ensures selected == Some(p) && showModal
      ensures Editing() == Open(p.price)
      ensures price == p.price && quantity == MilliPerUnit && amount == p.price && lastEdited == None
      ensures products == old(products) && query == old(query)
      ensures cart == old(cart) && total == old(total)
    {
      selected := Some(p);
      price := p.price;
      quantity := MilliPerUnit;
      amount := AmountFor(p.price, MilliPerUnit);
      AmountOfOneUnit(p.price);
      lastEdited := None;
      showModal := true;
    }

    /** The dialog's effect: recompute the input that was not typed into. */
    method Settle()
      modifies this`quantity, this`amount
      ensures Editing() == Reconcile(old(Editing()))
    {
      if lastEdited == None {
        return;
      }
      if lastEdited == Some(Price) || lastEdited == Some(Quantity) {
        amount := AmountFor(price, quantity);
      }
      if lastEdited == Some(Amount) {
        if price > 0 {
          quantity := QuantityFor(amount, price);
        }
      }
    }

    /** Typing `v` into the price input. */
    method EditPrice(v: int)
      requires Valid()
      modifies this`price, this`quantity, this`amount, this`lastEdited
      ensures Valid()
      ensures Editing() == Reconcile(Set(old(Editing()), Price, v))
      ensures price == v && quantity == old(quantity) && lastEdited == Some(Price)
      ensures amount == AmountFor(v, quantity)
    {
      price := v;
      lastEdited := Some(Price);
      Settle();
      ReconcileIdempotent(Set(old(Editing()), Price, v));
    }

    /** Typing `v` into the quantity input. */
    method EditQuantity(v: int)
      requires Valid()
      modifies this`price, this`quantity, this`amount, this`lastEdited
      ensures Valid()
      ensures Editing() == Reconcile(Set(old(Editing()), Quantity, v))
      ensures price == old(price) && quantity == v && lastEdited == Some(Quantity)
      ensures amount == AmountFor(price, v)
    {
      quantity := v;
      lastEdited := Some(Quantity);
      Settle();
      ReconcileIdempotent(Set(old(Editing()), Quantity, v));
    }

    /** Typing `v` into the amount input: the quantity follows only at a
        positive price. */
    method EditAmount(v: int)
      requires Valid()
      modifies this`price, this`quantity, this`amount, this`lastEdited
      ensures Valid()
      ensures Editing() == Reconcile(Set(old(Editing()), Amount, v))
      ensures price == old(price) && amount == v && lastEdited == Some(Amount)
      ensures quantity == if price > 0 then QuantityFor(v, price) else old(quantity)
    {
      amount := v;
      lastEdited := Some(Amount);
      Settle();
      ReconcileIdempotent(Set(old(Editing()), Amount, v));
    }

    /** "Cancelar": hides the dialog; the selected product and the inputs
        stay as they are. */
    method Cancel()
      requires Valid()
      modifies this`showModal
      ensures Valid()
      ensures !showModal
    {
      showModal := false;
    }

    /** The total's effect: the sum of the cart's subtotals. */
    method UpdateTotal()
      modifies this`total
      ensures total == Sum(cart)
    {
      total := Sum(cart);
    }

    /** "Aceptar": with no selected product nothing happens; otherwise one
        snapshot of the dialog is appended to the cart, the total grows by
        its amount, and the dialog closes with no product selected. */
    method Confirm()
      requires Valid()
      modifies this`cart, this`total, this`showModal, this`selected
      ensures Valid()
      ensures old(selected) == None ==>
        cart == old(cart) && total == old(total) && showModal == old(showModal) && selected == None
      ensures old(selected).Some? ==>
        var p := old(selected).value;
        && cart == old(cart) + [SaleLine(p.id, p.name, p.unit, price, quantity, amount)]
        && total == old(total) + amount
        && !showModal && selected == None
    {
      if selected == None {
        return;
      }
      var p := selected.value;
      var line := SaleLine(p.id, p.name, p.unit, price, quantity, amount);
      ghost var before := cart;
      SumAppend(before, line);
      cart := cart + [line];
      UpdateTotal();
      assert total == Sum(before) + line.subtotal;
      showModal := false;
      selected := None;
    }

    /** "Quitar": drops every line of product `id`; the total loses exactly
        those lines' subtotals. */
    method RemoveItem(id: int)
      requires Valid()
      modifies this`cart, this`total
      ensures Valid()
      ensures cart == Remove(old(cart), id)
      ensures total == old(total) - SubtotalFor(old(cart), id)
    {
      SumRemove(cart, id);
      cart := Remove(cart, id);
      UpdateTotal();
    }

    /** "Registrar venta": an empty cart sends nothing and changes nothing.
        Otherwise the request carries one item per line, in order, and the
        total; `accepted` is the server's answer, and only an accepted sale
        empties the cart and zeroes the total. */
    method Submit(accepted: bool) returns (request: Option<SaleRequest>)
      requires Valid()
      modifies this`cart, this`total
      ensures Valid()
      ensures old(cart) == [] ==> request == None && cart == old(cart) && total == old(total)
      ensures old(cart) != [] ==> request == Some(SaleRequest(Items(old(cart)), Sum(old(cart))))
      ensures old(cart) != [] && accepted ==> cart == [] && total == 0
      ensures old(cart) != [] && !accepted ==> cart == old(cart) && total == old(total)
    {
      if |cart| == 0 {
        return None;
      }
      request := Some(SaleRequest(Items(cart), total));
      if accepted {
        cart := [];
        total := 0;
      }
    }
  }
}
