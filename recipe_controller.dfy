/**
 * The recipe handlers, each behind `protect`, with the same find-then-ownership discipline as the
 * grocery handlers, plus the input guard of the external suggestion lookup.
 * `fault` is an error the collection throws on its first call, answered 500 with its message.
 */
module RecipeController {
  import opened Wrappers
  import opened Http
  import opened Validation
  import opened RecipeModel
  import opened UserModel

  const NotFound: string := "Recipe not found"
  const NotAuthorized: string := "Not authorized"

  /** `Recipe.find({ user: req.user._id })`. */
  method GetRecipes(store: RecipeCollection, reqUser: Option<SessionUser>, fault: Option<string>)
    returns (r: Reply<map<Id, Recipe>>)
    ensures reqUser.None? ==> r == Reply(500, Message(NullUserMessage))
    ensures reqUser.Some? && fault.Some? ==> r == Reply(500, Message(fault.value))
    ensures reqUser.Some? && fault.None? ==>
      r.status == 200 && r.payload.Data?
      && (forall id :: id in r.payload.value <==> id in store.records && store.records[id].user == reqUser.value.id)
      && (forall id :: id in r.payload.value ==> r.payload.value[id] == store.records[id])
  {
    if reqUser.None? {
      return Reply(500, Message(NullUserMessage));
    }
    if fault.Some? {
      return Reply(500, Message(fault.value));
    }
    r := Reply(200, Data(OwnedBy(store.records, reqUser.value.id)));
  }

  /** `Recipe.create({ user: req.user._id, title, ingredients, instructions, imageUrl })`. */
  method CreateRecipe(store: RecipeCollection, reqUser: Option<SessionUser>, body: RecipeInput, fault: Option<string>)
    returns (r: Reply<Doc<Recipe>>)
    requires store.Valid()
    modifies store
    ensures store.Valid()
    ensures reqUser.None? ==>
      r == Reply(500, Message(NullUserMessage)) && store.records == old(store.records) && store.nextId == old(store.nextId)
    ensures reqUser.Some? ==>
      var outcome := NormaliseRecipe(Some(reqUser.value.id), body);
      && (outcome.Failure? ==>
            r == Reply(500, Message(ValidationMessage("Recipe", outcome.error)))
            && store.records == old(store.records) && store.nextId == old(store.nextId))
      && (outcome.Success? && fault.Some? ==>
            r == Reply(500, Message(fault.value))
            && store.records == old(store.records) && store.nextId == old(store.nextId))
      && (outcome.Success? && fault.None? ==>
            var id := old(store.nextId);
            && r == Reply(201, Data(Doc(id, outcome.value)))
            && outcome.value.user == reqUser.value.id
            && id !in old(store.records)
            && store.records == old(store.records)[id := outcome.value]
            && |store.records| == |old(store.records)| + 1
            && store.nextId == old(store.nextId) + 1)
  {
    if reqUser.None? {
      return Reply(500, Message(NullUserMessage));
    }
    var outcome := NormaliseRecipe(Some(reqUser.value.id), body);
    if outcome.Failure? {
      return Reply(500, Message(ValidationMessage("Recipe", outcome.error)));
    }
    if fault.Some? {
      return Reply(500, Message(fault.value));
    }
    var id := store.nextId;
    store.records := store.records[id := outcome.value];
    store.nextId := store.nextId + 1;
    r := Reply(201, Data(Doc(id, outcome.value)));
  }

  /**
   * Find, then 404 if absent, then 401 unless the caller owns it, then `findByIdAndUpdate` with
   * the whole body, the owner field included.
   */
  method UpdateRecipe(store: RecipeCollection, reqUser: Option<SessionUser>, id: Id, patch: RecipePatch, fault: Option<string>)
    returns (r: Reply<Doc<Recipe>>)
    requires store.Valid()
    modifies store
    ensures store.Valid() && store.nextId == old(store.nextId)
    ensures fault.Some? ==> r == Reply(500, Message(fault.value)) && store.records == old(store.records)
    ensures fault.None? && id !in old(store.records) ==>
      r == Reply(404, Message(NotFound)) && store.records == old(store.records)
    ensures fault.None? && id in old(store.records) && reqUser.None? ==>
      r == Reply(500, Message(NullUserMessage)) && store.records == old(store.records)
    ensures fault.None? && id in old(store.records) && reqUser.Some? && old(store.records)[id].user != reqUser.value.id ==>
      r == Reply(401, Message(NotAuthorized)) && store.records == old(store.records)
    ensures fault.None? && id in old(store.records) && reqUser.Some? && old(store.records)[id].user == reqUser.value.id ==>
      var updated := Merge(old(store.records)[id], patch);
      r == Reply(200, Data(Doc(id, updated))) && store.records == old(store.records)[id := updated]
  {
    if fault.Some? {
      return Reply(500, Message(fault.value));
    }
    if id !in store.records {
      return Reply(404, Message(NotFound));
    }
    if reqUser.None? {
      return Reply(500, Message(NullUserMessage));
    }
    if store.records[id].user != reqUser.value.id {
      return Reply(401, Message(NotAuthorized));
    }
    var updated := Merge(store.records[id], patch);
    store.records := store.records[id := updated];
    r := Reply(200, Data(Doc(id, updated)));
  }

  /** Find, then 404 if absent, then 401 unless the caller owns it, then remove that one record. */
  method DeleteRecipe(store: RecipeCollection, reqUser: Option<SessionUser>, id: Id, fault: Option<string>)
    returns (r: Reply<Doc<Recipe>>)
    requires store.Valid()
    modifies store
    ensures store.Valid() && store.nextId == old(store.nextId)
    ensures fault.Some? ==> r == Reply(500, Message(fault.value)) && store.records == old(store.records)
    ensures fault.None? && id !in old(store.records) ==>
      r == Reply(404, Message(NotFound)) && store.records == old(store.records)
    ensures fault.None? && id in old(store.records) && reqUser.None? ==>
      r == Reply(500, Message(NullUserMessage)) && store.records == old(store.records)
    ensures fault.None? && id in old(store.records) && reqUser.Some? && old(store.records)[id].user != reqUser.value.id ==>
      r == Reply(401, Message(NotAuthorized)) && store.records == old(store.records)
    ensures fault.None? && id in old(store.records) && reqUser.Some? && old(store.records)[id].user == reqUser.value.id ==>
      r == Reply(200, Message("Recipe removed")) && store.records == old(store.records) - {id}
      && |store.records| == |old(store.records)| - 1
  {
    if fault.Some? {
      return Reply(500, Message(fault.value));
    }
    if id !in store.records {
      return Reply(404, Message(NotFound));
    }
    if reqUser.None? {
      return Reply(500, Message(NullUserMessage));
    }
    if store.records[id].user != reqUser.value.id {
      return Reply(401, Message(NotAuthorized));
    }
    store.records := store.records - {id};
    r := Reply(200, Message("Recipe removed"));
  }

  /** How many suggestions the outbound search asks for. */
  const SuggestionCount: nat := 6

  /**
   * The guard and call of `getRecipesFromAPI`. `lookup` stands for the external search: given
   * the ingredient list and the count it yields the results, or `None` when the call fails.
   * `outbound` records the call made, if any.
   */
  method GetRecipesFromApi(ingredients: Option<string>, lookup: (string, nat) -> Option<seq<Suggestion>>)
    returns (r: Reply<seq<Suggestion>>, outbound: Option<(string, nat)>)
    ensures ingredients.None? || ingredients.value == "" <==> outbound.None?
    ensures outbound.None? ==> r == Reply(400, Message("Ingredients are required"))
    ensures outbound.Some? ==>
      outbound.value == (ingredients.value, SuggestionCount)
      && (lookup(ingredients.value, SuggestionCount).None? ==> r == Reply(500, Message("Failed to fetch recipes")))
      && (lookup(ingredients.value, SuggestionCount).Some? ==>
            r == Reply(200, Data(lookup(ingredients.value, SuggestionCount).value)))
  {
    if ingredients.None? || ingredients.value == "" {
      return Reply(400, Message("Ingredients are required")), None;
    }
    outbound := Some((ingredients.value, SuggestionCount));
    var response := lookup(ingredients.value, SuggestionCount);
    if response.None? {
      return Reply(500, Message("Failed to fetch recipes")), outbound;
    }
    r := Reply(200, Data(response.value));
  }

  /** A created recipe joins its owner's list and no one else's. */
  lemma {:induction false} CreateShowsOnlyToOwner(records: map<Id, Recipe>, id: Id, x: Recipe, other: Id)
    requires id !in records && other != x.user
    ensures OwnedBy(records[id := x], x.user) == OwnedBy(records, x.user)[id := x]
    ensures OwnedBy(records[id := x], other) == OwnedBy(records, other)
  {
    assert OwnedBy(records[id := x], x.user).Keys == OwnedBy(records, x.user).Keys + {id};
    assert OwnedBy(records[id := x], other).Keys == OwnedBy(records, other).Keys;
  }

  /** An owner's delete shrinks only the owner's list, by exactly that recipe. */
  lemma {:induction false} DeleteHidesOnlyThat(records: map<Id, Recipe>, id: Id, caller: Id, other: Id)
    requires id in records && records[id].user == caller && other != caller
    ensures OwnedBy(records - {id}, caller) == OwnedBy(records, caller) - {id}
    ensures OwnedBy(records - {id}, other) == OwnedBy(records, other)
  {
    assert OwnedBy(records - {id}, caller).Keys == OwnedBy(records, caller).Keys - {id};
    assert OwnedBy(records - {id}, other).Keys == OwnedBy(records, other).Keys;
  }
}
