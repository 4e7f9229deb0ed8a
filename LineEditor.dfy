/** The sale dialog's line editor: unit price, quantity and amount of the
    line being added, the tag of the field the user typed into last, and the
    reconciliation that recomputes the field the user did not type into.

    Prices and amounts are in cents, quantities in thousandths (see
    module Rounding). */
module LineEditor {
  import opened Options
  import opened Rounding

  /** The three inputs of the dialog. */
  datatype Field = Price | Quantity | Amount

  /** The dialog's editable values and the last-edited tag. */
  datatype EditLine = EditLine(price: int, quantity: int, amount: int, lastEdited: Option<Field>)

  /** The value one input shows. */
  function Get(e: EditLine, f: Field): int
  {
    match f
    case Price => e.price
    case Quantity => e.quantity
    case Amount => e.amount
  }

  /** The dialog as it opens on a product of the given price: that price,
      one unit, the amount of one unit, and no field edited yet. */
  function Open(price: int): (e: EditLine)
    ensures e.price == price && e.quantity == MilliPerUnit
    ensures e.amount == price
    ensures e.lastEdited == None
  {
    AmountOfOneUnit(price);
    EditLine(price, MilliPerUnit, AmountFor(price, MilliPerUnit), None)
  }

  /** Typing `v` into input `f`: that input shows `v`, the tag names `f`, and
      the other two inputs keep their values. */
  function Set(e: EditLine, f: Field, v: int): (r: EditLine)
    ensures Get(r, f) == v && r.lastEdited == Some(f)
    ensures forall g :: g != f ==> Get(r, g) == Get(e, g)
  {
    match f
    case Price => e.(price := v, lastEdited := Some(Price))
    case Quantity => e.(quantity := v, lastEdited := Some(Quantity))
    case Amount => e.(amount := v, lastEdited := Some(Amount))
  }

  /** One run of the dialog's effect.  After a price or quantity edit the
      amount becomes price × quantity rounded to the cent; after an amount
      edit the quantity becomes amount / price rounded to the thousandth,
      but only for a positive price; with no tag nothing changes. */
  function Reconcile(e: EditLine): (r: EditLine)
    ensures r.price == e.price && r.lastEdited == e.lastEdited
    ensures e.lastEdited == None ==> r == e
    ensures e.lastEdited == Some(Price) || e.lastEdited == Some(Quantity) ==>
      r.quantity == e.quantity && IsRounding(e.price * e.quantity, MilliPerUnit, r.amount)
    ensures e.lastEdited == Some(Amount) && e.price > 0 ==>
      r.amount == e.amount && IsRounding(e.amount * MilliPerUnit, e.price, r.quantity)
    ensures e.lastEdited == Some(Amount) && e.price <= 0 ==> r == e
  {
    match e.lastEdited
    case None => e
    case Some(Price) => e.(amount := AmountFor(e.price, e.quantity))
    case Some(Quantity) => e.(amount := AmountFor(e.price, e.quantity))
    case Some(Amount) =>
      if e.price > 0 then e.(quantity := QuantityFor(e.amount, e.price)) else e
  }

  /** The effect lists its own output among its dependencies, so it runs
      again on what it produced; that second run changes nothing. */
  lemma ReconcileIdempotent(e: EditLine)
    ensures Reconcile(Reconcile(e)) == Reconcile(e)
  {
  }

  /** The field the user typed into is never overwritten by the
      reconciliation that the same keystroke triggers. */
  lemma EditedFieldKept(e: EditLine, f: Field, v: int)
    ensures Get(Reconcile(Set(e, f, v)), f) == v
  {
  }

  /** A freshly opened dialog is already settled. */
  lemma OpenIsSettled(price: int)
    ensures Reconcile(Open(price)) == Open(price)
  {
  }

  /** The agreement the three inputs are meant to keep: the amount is the
      rounded product, or the quantity the rounded quotient. */
  ghost predicate Consistent(e: EditLine)
  {
    e.amount == AmountFor(e.price, e.quantity)
    || (e.price > 0 && e.quantity == QuantityFor(e.amount, e.price))
  }

  /** Every reconciliation after an edit leaves the inputs in agreement,
      except an amount edit at a price that is not positive. */
  lemma ReconcileConsistent(e: EditLine, f: Field, v: int)
    requires f == Amount ==> e.price > 0
    ensures Consistent(Reconcile(Set(e, f, v)))
  {
  }

  /** The exception: typing an amount while the price is zero leaves the
      quantity as it was, and the inputs then disagree. */
  lemma ZeroPriceAmountEdit()
    ensures var r := Reconcile(Set(Open(0), Amount, 10000));
      r.quantity == MilliPerUnit && r.amount == 10000 && !Consistent(r)
  {
  }

  /** A line opened at 150.00 with its quantity set to 2 costs 300.00. */
  lemma QuantityEditExample()
    ensures Reconcile(Set(Open(15000), Quantity, 2000)).amount == 30000
  {
  }

  /** A line opened at 150.00 with its amount set to 50.00 holds 0.333
      units. */
  lemma AmountEditExample()
    ensures Reconcile(Set(Open(15000), Amount, 5000)).quantity == 333
  {
  }
}
