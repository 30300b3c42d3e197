/**
 * The client's grocery slice: the list of the caller's items as the server returned them, a
 * loading flag and the last error, updated by the reducers of the four request thunks.
 */
module GrocerySlice {
  import opened Wrappers
  import opened Http
  import opened Docs
  import opened GroceryModel

  class GroceryState {
    var items: seq<Doc<Grocery>>
    var loading: bool
    var error: Option<string>

    constructor ()
      ensures items == [] && !loading && error == None
    {
      items := [];
      loading := false;
      error := None;
    }

    /** `fetchGroceries.pending`. */
    method FetchPending()
      modifies this
      ensures loading && items == old(items) && error == old(error)
    {
      loading := true;
    }

    /** `fetchGroceries.fulfilled`: the fetched list replaces the old one; the error is kept. */
    method FetchFulfilled(payload: seq<Doc<Grocery>>)
      modifies this
      ensures !loading && items == payload && error == old(error)
    {
      loading := false;
      items := payload;
    }

    /** `fetchGroceries.rejected`: the list stays as it was. */
    method FetchRejected(message: string)
      modifies this
      ensures !loading && error == Some(message) && items == old(items)
    {
      loading := false;
      error := Some(message);
    }

    /** `addGrocery.fulfilled`: the created record goes at the end. */
    method AddFulfilled(payload: Doc<Grocery>)
      modifies this
      ensures items == old(items) + [payload]
      ensures |items| == |old(items)| + 1 && items[..|old(items)|] == old(items)
      ensures loading == old(loading) && error == old(error)
    {
      items := items + [payload];
    }

    /** `updateGrocery.fulfilled`: the first record with the payload's id is replaced in place. */
    method UpdateFulfilled(payload: Doc<Grocery>)
      modifies this
      ensures items == ReplaceById(old(items), payload)
      ensures loading == old(loading) && error == old(error)
    {
      var idx := FindIndexById(items, payload.id);
      if idx != -1 {
        items := items[idx := payload];
      }
    }

    /** `deleteGrocery.fulfilled`: every record with that id goes, the rest keep their order. */
    method DeleteFulfilled(id: Id)
      modifies this
      ensures items == WithoutId(old(items), id)
      ensures loading == old(loading) && error == old(error)
    {
      items := WithoutId(items, id);
    }
  }
}
