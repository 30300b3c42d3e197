/**
 * The grocery handlers, each behind `protect`: list the caller's items, create one stamped with
 * the caller as owner, and update or delete one after a find-then-ownership check.
 * `fault` is an error the collection throws on its first call, answered 500 with its message.
 */
module GroceryController {
  import opened Wrappers
  import opened Http
  import opened Validation
  import opened GroceryModel
  import opened UserModel

  const NotFound: string := "Grocery not found"
  const NotAuthorized: string := "Not authorized"

  /**
   * The fields `createGrocery` takes from the request body; anything else the body carries
   * (`consumed`, `lowStock`, `imageUrl`) is not passed on to `Grocery.create`.
   */
  datatype GroceryBody = GroceryBody(
    name: Option<string>,
    category: Option<string>,
    quantity: Option<int>,
    unit: Option<string>,
    expiryDate: Option<int>)

  function CreateInput(owner: Id, body: GroceryBody): (input: GroceryInput)
    ensures input.user == Some(owner) && input.name == body.name && input.expiryDate == body.expiryDate
    ensures input.category == body.category && input.unit == body.unit && input.quantity == body.quantity
    ensures input.consumed.None? && input.lowStock.None? && input.imageUrl.None?
  {
    GroceryInput(Some(owner), body.name, body.category, body.quantity, body.unit, body.expiryDate, None, None, None)
  }

  /** `Grocery.find({ user: req.user._id })`. */
  method GetGroceries(store: GroceryCollection, reqUser: Option<SessionUser>, fault: Option<string>)
    returns (r: Reply<map<Id, Grocery>>)
    ensures reqUser.None? ==> r == Reply(500, Message(NullUserMessage))
    ensures reqUser.Some? && fault.Some? ==> r == Reply(500, Message(fault.value))
    ensures reqUser.Some? && fault.None? ==>
      r.status == 200 && r.payload.Data?
      && (forall id :: id in r.payload.value <==> id in store.records && store.records[id].user == reqUser.value.id)
      && (forall id :: id in r.payload.value ==> r.payload.value[id] == store.records[id])
  {
    if reqUser.None? {
      return Reply(500, Message(NullUserMessage));
    }
    if fault.Some? {
      return Reply(500, Message(fault.value));
    }
    r := Reply(200, Data(OwnedBy(store.records, reqUser.value.id)));
  }

  method CreateGrocery(store: GroceryCollection, reqUser: Option<SessionUser>, body: GroceryBody, fault: Option<string>)
    returns (r: Reply<Doc<Grocery>>)
    requires store.Valid()
    modifies store
    ensures store.Valid()
    ensures reqUser.None? ==>
      r == Reply(500, Message(NullUserMessage)) && store.records == old(store.records) && store.nextId == old(store.nextId)
    ensures reqUser.Some? ==>
      var outcome := NormaliseGrocery(CreateInput(reqUser.value.id, body));
      && (outcome.Failure? ==>
            r == Reply(500, Message(ValidationMessage("Grocery", outcome.error)))
            && store.records == old(store.records) && store.nextId == old(store.nextId))
      && (outcome.Success? && fault.Some? ==>
            r == Reply(500, Message(fault.value))
            && store.records == old(store.records) && store.nextId == old(store.nextId))
      && (outcome.Success? && fault.None? ==>
            var id := old(store.nextId);
            && r == Reply(201, Data(Doc(id, outcome.value)))
            && outcome.value.user == reqUser.value.id
            && id !in old(store.records)
            && store.records == old(store.records)[id := outcome.value]
            && |store.records| == |old(store.records)| + 1
            && store.nextId == old(store.nextId) + 1)
  {
    if reqUser.None? {
      return Reply(500, Message(NullUserMessage));
    }
    var outcome := NormaliseGrocery(CreateInput(reqUser.value.id, body));
    if outcome.Failure? {
      return Reply(500, Message(ValidationMessage("Grocery", outcome.error)));
    }
    if fault.Some? {
      return Reply(500, Message(fault.value));
    }
    var id := store.nextId;
    store.records := store.records[id := outcome.value];
    store.nextId := store.nextId + 1;
    r := Reply(201, Data(Doc(id, outcome.value)));
  }

  /**
   * Find, then 404 if absent, then 401 unless the caller owns it, then `findByIdAndUpdate` with
   * the whole body: every field present in `patch` is overwritten, the owner included.
   */
  method UpdateGrocery(store: GroceryCollection, reqUser: Option<SessionUser>, id: Id, patch: GroceryPatch, fault: Option<string>)
    returns (r: Reply<Doc<Grocery>>)
    requires store.Valid()
    modifies store
    ensures store.Valid() && store.nextId == old(store.nextId)
    ensures fault.Some? ==> r == Reply(500, Message(fault.value)) && store.records == old(store.records)
    ensures fault.None? && id !in old(store.records) ==>
      r == Reply(404, Message(NotFound)) && store.records == old(store.records)
    ensures fault.None? && id in old(store.records) && reqUser.None? ==>
      r == Reply(500, Message(NullUserMessage)) && store.records == old(store.records)
    ensures fault.None? && id in old(store.records) && reqUser.Some? && old(store.records)[id].user != reqUser.value.id ==>
      r == Reply(401, Message(NotAuthorized)) && store.records == old(store.records)
    ensures fault.None? && id in old(store.records) && reqUser.Some? && old(store.records)[id].user == reqUser.value.id ==>
      var updated := Merge(old(store.records)[id], patch);
      r == Reply(200, Data(Doc(id, updated))) && store.records == old(store.records)[id := updated]
  {
    if fault.Some? {
      return Reply(500, Message(fault.value));
    }
    if id !in store.records {
      return Reply(404, Message(NotFound));
    }
    if reqUser.None? {
      return Reply(500, Message(NullUserMessage));
    }
    if store.records[id].user != reqUser.value.id {
      return Reply(401, Message(NotAuthorized));
    }
    var updated := Merge(store.records[id], patch);
    store.records := store.records[id := updated];
    r := Reply(200, Data(Doc(id, updated)));
  }

  /** Find, then 404 if absent, then 401 unless the caller owns it, then remove that one record. */
  method DeleteGrocery(store: GroceryCollection, reqUser: Option<SessionUser>, id: Id, fault: Option<string>)
    returns (r: Reply<Doc<Grocery>>)
    requires store.Valid()
    modifies store
    ensures store.Valid() && store.nextId == old(store.nextId)
    ensures fault.Some? ==> r == Reply(500, Message(fault.value)) && store.records == old(store.records)
    ensures fault.None? && id !in old(store.records) ==>
      r == Reply(404, Message(NotFound)) && store.records == old(store.records)
    ensures fault.None? && id in old(store.records) && reqUser.None? ==>
      r == Reply(500, Message(NullUserMessage)) && store.records == old(store.records)
    ensures fault.None? && id in old(store.records) && reqUser.Some? && old(store.records)[id].user != reqUser.value.id ==>
      r == Reply(401, Message(NotAuthorized)) && store.records == old(store.records)
    ensures fault.None? && id in old(store.records) && reqUser.Some? && old(store.records)[id].user == reqUser.value.id ==>
      r == Reply(200, Message("Grocery removed")) && store.records == old(store.records) - {id}
      && |store.records| == |old(store.records)| - 1
  {
    if fault.Some? {
      return Reply(500, Message(fault.value));
    }
    if id !in store.records {
      return Reply(404, Message(NotFound));
    }
    if reqUser.None? {
      return Reply(500, Message(NullUserMessage));
    }
    if store.records[id].user != reqUser.value.id {
      return Reply(401, Message(NotAuthorized));
    }
    store.records := store.records - {id};
    r := Reply(200, Message("Grocery removed"));
  }

  /** A created item joins its owner's list and no one else's. */
  lemma {:induction false} CreateShowsOnlyToOwner(records: map<Id, Grocery>, id: Id, g: Grocery, other: Id)
    requires id !in records && other != g.user
    ensures OwnedBy(records[id := g], g.user) == OwnedBy(records, g.user)[id := g]
    ensures OwnedBy(records[id := g], other) == OwnedBy(records, other)
  {
    assert OwnedBy(records[id := g], g.user).Keys == OwnedBy(records, g.user).Keys + {id};
    assert OwnedBy(records[id := g], other).Keys == OwnedBy(records, other).Keys;
  }

  /** An owner's delete shrinks only the owner's list, by exactly that item. */
  lemma {:induction false} DeleteHidesOnlyThat(records: map<Id, Grocery>, id: Id, caller: Id, other: Id)
    requires id in records && records[id].user == caller && other != caller
    ensures OwnedBy(records - {id}, caller) == OwnedBy(records, caller) - {id}
    ensures OwnedBy(records - {id}, other) == OwnedBy(records, other)
  {
    assert OwnedBy(records - {id}, caller).Keys == OwnedBy(records, caller).Keys - {id};
    assert OwnedBy(records - {id}, other).Keys == OwnedBy(records, other).Keys;
  }

  /**
   * An update body carrying another `user` moves the item out of the caller's list and into
   * that user's: the ownership check guards the old owner only.
   */
  lemma {:induction false} UpdateCanTransferOwnership(records: map<Id, Grocery>, id: Id, patch: GroceryPatch, caller: Id)
    requires id in records && records[id].user == caller
    requires patch.user.Some? && patch.user.value != caller
    ensures id !in OwnedBy(records[id := Merge(records[id], patch)], caller)
    ensures id in OwnedBy(records[id := Merge(records[id], patch)], patch.user.value)
  {
    var after := records[id := Merge(records[id], patch)];
    assert after[id].user == patch.user.value;
  }
}
