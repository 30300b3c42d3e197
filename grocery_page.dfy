/**
 * The grocery page: the add form with its guard and reset, and the quantity buttons, which
 * send an update carrying only the new quantity. The date input holds either nothing or an
 * instant, here `None` or milliseconds.
 */
module GroceryPage {
  import opened Wrappers
  import opened Http
  import opened GroceryModel
  import opened GroceryController

  /** The add form's state hooks. */
  class GroceryForm {
    var name: string
    var category: string
    var quantity: int
    var unit: string
    var expiryDate: Option<int>

    /** The two selects only offer the schema's values. */
    ghost predicate Valid()
      reads this
    {
      category in Categories && unit in Units
    }

    constructor ()
      ensures Valid()
      ensures name == "" && category == "other" && quantity == 1 && unit == "pcs" && expiryDate == None
    {
      name := "";
      category := "other";
      quantity := 1;
      unit := "pcs";
      expiryDate := None;
    }

    /** `handleAdd`: nothing is sent without a name and a date; otherwise send the five fields and reset. */
    method HandleAdd() returns (sent: Option<GroceryBody>)
      requires Valid()
      modifies this
      ensures Valid()
      ensures old(name) == "" || old(expiryDate).None? ==>
        sent.None? && name == old(name) && category == old(category) && quantity == old(quantity)
        && unit == old(unit) && expiryDate == old(expiryDate)
      ensures old(name) != "" && old(expiryDate).Some? ==>
        sent == Some(GroceryBody(Some(old(name)), Some(old(category)), Some(old(quantity)), Some(old(unit)), old(expiryDate)))
        && name == "" && category == "other" && quantity == 1 && unit == "pcs" && expiryDate == None
    {
      if name == "" || expiryDate.None? {
        return None;
      }
      sent := Some(GroceryBody(Some(name), Some(category), Some(quantity), Some(unit), expiryDate));
      name := "";
      category := "other";
      quantity := 1;
      unit := "pcs";
      expiryDate := None;
    }
  }

  /** A body the form sends is accepted by the schema, with the form's values stored as chosen. */
  lemma SentGroceryIsAccepted(owner: Id, name: string, category: string, quantity: int, unit: string, expiry: int)
    requires name != "" && category in Categories && unit in Units
    ensures
      var stored := NormaliseGrocery(CreateInput(owner, GroceryBody(Some(name), Some(category), Some(quantity), Some(unit), Some(expiry))));
      && stored.Success?
      && stored.value == Grocery(owner, name, category, quantity, unit, expiry, false, false, None)
  {
  }

  /** The "+" button. */
  function Increment(q: int): (r: int)
    ensures r == q + 1
  {
    q + 1
  }

  /** The "-" button: one less, but never below 1. */
  function Decrement(q: int): (r: int)
    ensures r >= 1
    ensures q > 1 ==> r == q - 1
    ensures q <= 1 ==> r == 1
  {
    if q - 1 > 1 then q - 1 else 1
  }

  /** "-" undoes "+" on any quantity the schema default or the buttons can produce. */
  lemma DecrementUndoesIncrement(q: int)
    requires q >= 1
    ensures Decrement(Increment(q)) == q
  {
  }

  /** `handleUpdateQuantity(id, q)`: the update body carries the quantity and nothing else. */
  function QuantityUpdate(q: int): (p: GroceryPatch)
    ensures p.quantity == Some(q)
    ensures p.(quantity := None) == EmptyPatch
  {
    EmptyPatch.(quantity := Some(q))
  }

  /** Applied by the server, a quantity update changes the quantity and no other field, the owner included. */
  lemma {:induction false} QuantityUpdateTouchesOnlyQuantity(g: Grocery, q: int)
    ensures Merge(g, QuantityUpdate(q)) == g.(quantity := q)
  {
  }
}
