/**
 * The client's recipe slice: the caller's saved recipes (`items`) and the external suggestions
 * (`suggestions`) kept apart, with one loading flag and one error shared by both fetches.
 */
module RecipeSlice {
  import opened Wrappers
  import opened Http
  import opened Docs
  import opened RecipeModel

  class RecipeState {
    var items: seq<Doc<Recipe>>
    var suggestions: seq<Suggestion>
    var loading: bool
    var error: Option<string>

    constructor ()
      ensures items == [] && suggestions == [] && !loading && error == None
    {
      items := [];
      suggestions := [];
      loading := false;
      error := None;
    }

    /** `fetchRecipes.pending` and `fetchRecipesFromAPI.pending` alike: the shared flag goes up. */
    method Pending()
      modifies this
      ensures loading && items == old(items) && suggestions == old(suggestions) && error == old(error)
    {
      loading := true;
    }

    /** `fetchRecipes.fulfilled`: only the saved recipes are replaced. */
    method FetchFulfilled(payload: seq<Doc<Recipe>>)
      modifies this
      ensures !loading && items == payload && suggestions == old(suggestions) && error == old(error)
    {
      loading := false;
      items := payload;
    }

    /** `fetchRecipesFromAPI.fulfilled`: only the suggestions are replaced. */
    method SuggestionsFulfilled(payload: seq<Suggestion>)
      modifies this
      ensures !loading && suggestions == payload && items == old(items) && error == old(error)
    {
      loading := false;
      suggestions := payload;
    }

    /** `fetchRecipes.rejected` and `fetchRecipesFromAPI.rejected` alike: both lists survive. */
    method Rejected(message: string)
      modifies this
      ensures !loading && error == Some(message)
      ensures items == old(items) && suggestions == old(suggestions)
    {
      loading := false;
      error := Some(message);
    }

    /** `addRecipe.fulfilled`: the created recipe goes at the end. */
    method AddFulfilled(payload: Doc<Recipe>)
      modifies this
      ensures items == old(items) + [payload]
      ensures |items| == |old(items)| + 1 && items[..|old(items)|] == old(items)
      ensures suggestions == old(suggestions) && loading == old(loading) && error == old(error)
    {
      items := items + [payload];
    }

    /** `updateRecipe.fulfilled`: the first recipe with the payload's id is replaced in place. */
    method UpdateFulfilled(payload: Doc<Recipe>)
      modifies this
      ensures items == ReplaceById(old(items), payload)
      ensures suggestions == old(suggestions) && loading == old(loading) && error == old(error)
    {
      var idx := FindIndexById(items, payload.id);
      if idx != -1 {
        items := items[idx := payload];
      }
    }

    /** `deleteRecipe.fulfilled`: every recipe with that id goes, the rest keep their order. */
    method DeleteFulfilled(id: Id)
      modifies this
      ensures items == WithoutId(old(items), id)
      ensures suggestions == old(suggestions) && loading == old(loading) && error == old(error)
    {
      items := WithoutId(items, id);
    }
  }
}
