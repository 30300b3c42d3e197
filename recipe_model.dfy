/**
 * The Recipe model: required `user`, `title` and `instructions`; an ordered `ingredients` list
 * whose entries need a `name` and may carry a free-text `quantity`; optional `imageUrl`.
 * Also the shape of a suggestion returned by the external recipe lookup.
 */
module RecipeModel {
  import opened Wrappers
  import opened Strings
  import opened Http
  import opened Validation

  datatype Ingredient = Ingredient(name: string, quantity: Option<string>)

  datatype Recipe = Recipe(
    user: Id,
    title: string,
    ingredients: seq<Ingredient>,
    instructions: string,
    imageUrl: Option<string>)

  datatype IngredientInput = IngredientInput(name: Option<string>, quantity: Option<string>)

  /** A recipe request body; `None` is a field left undefined. */
  datatype RecipeInput = RecipeInput(
    title: Option<string>,
    ingredients: Option<seq<IngredientInput>>,
    instructions: Option<string>,
    imageUrl: Option<string>)

  /** The errors of the ingredient sub-documents, paths `ingredients.<i>.name`, in list order. */
  function IngredientErrors(items: seq<IngredientInput>, from: nat): (r: seq<FieldError>)
    ensures r == [] <==> forall i :: 0 <= i < |items| ==> items[i].name.Some? && items[i].name.value != ""
    decreases |items|
  {
    if items == [] then []
    else
      RequireString("ingredients." + NatToString(from) + ".name", RequiredMessage("name"), items[0].name)
      + IngredientErrors(items[1..], from + 1)
  }

  function RecipeErrors(user: Option<Id>, input: RecipeInput): seq<FieldError> {
    (if user.None? then [Required("user", RequiredMessage("user"))] else [])
    + RequireString("title", "Please enter recipe title", input.title)
    + IngredientErrors(input.ingredients.GetOr([]), 0)
    + RequireString("instructions", "Please add cooking instructions", input.instructions)
  }

  function ToIngredients(items: seq<IngredientInput>): (r: seq<Ingredient>)
    requires forall i :: 0 <= i < |items| ==> items[i].name.Some?
    ensures |r| == |items|
    ensures forall i :: 0 <= i < |items| ==> r[i] == Ingredient(items[i].name.value, items[i].quantity)
  {
    seq(|items|, i requires 0 <= i < |items| => Ingredient(items[i].name.value, items[i].quantity))
  }

  /**
   * Schema validation plus defaults: the record `Recipe.create` stores for `owner`, or why it
   * refuses. An absent ingredient list becomes the empty list; no minimum length applies.
   */
  function NormaliseRecipe(owner: Option<Id>, input: RecipeInput): (r: Result<Recipe, seq<FieldError>>)
    ensures r.Success? <==>
      && owner.Some? && input.title.Some? && input.title.value != ""
      && input.instructions.Some? && input.instructions.value != ""
      && (input.ingredients.Some? ==>
            forall i :: 0 <= i < |input.ingredients.value| ==>
              input.ingredients.value[i].name.Some? && input.ingredients.value[i].name.value != "")
    ensures r.Failure? ==> r.error != [] && r.error == RecipeErrors(owner, input)
    ensures r.Success? ==>
      && r.value.user == owner.value && r.value.title == input.title.value
      && r.value.instructions == input.instructions.value && r.value.imageUrl == input.imageUrl
      && |r.value.ingredients| == |input.ingredients.GetOr([])|
      && (forall i :: 0 <= i < |r.value.ingredients| ==>
            r.value.ingredients[i].name != ""
            && Some(r.value.ingredients[i].name) == input.ingredients.value[i].name
            && r.value.ingredients[i].quantity == input.ingredients.value[i].quantity)
  {
    var errors := RecipeErrors(owner, input);
    if errors != [] then Failure(errors)
    else
      Success(Recipe(owner.value, input.title.value, ToIngredients(input.ingredients.GetOr([])),
                     input.instructions.value, input.imageUrl))
  }

  /** A request body applied by `findByIdAndUpdate` (validators are not run on this path). */
  datatype RecipePatch = RecipePatch(
    user: Option<Id>,
    title: Option<string>,
    ingredients: Option<seq<Ingredient>>,
    instructions: Option<string>,
    imageUrl: Option<string>)

  /** `findByIdAndUpdate(id, body)`: each field the body carries replaces the stored one, the rest stay. */
  function Merge(r: Recipe, p: RecipePatch): (m: Recipe)
    ensures p == RecipePatch(None, None, None, None, None) ==> m == r
    ensures m.user == (if p.user.Some? then p.user.value else r.user)
    ensures m.title == (if p.title.Some? then p.title.value else r.title)
    ensures m.ingredients == (if p.ingredients.Some? then p.ingredients.value else r.ingredients)
    ensures m.instructions == (if p.instructions.Some? then p.instructions.value else r.instructions)
    ensures m.imageUrl == (if p.imageUrl.Some? then p.imageUrl else r.imageUrl)
  {
    Recipe(
      p.user.GetOr(r.user),
      p.title.GetOr(r.title),
      p.ingredients.GetOr(r.ingredients),
      p.instructions.GetOr(r.instructions),
      if p.imageUrl.Some? then p.imageUrl else r.imageUrl)
  }

  /** `Recipe.find({ user: owner })`, keyed by `_id`. */
  function OwnedBy(records: map<Id, Recipe>, owner: Id): (r: map<Id, Recipe>)
    ensures forall id :: id in r <==> id in records && records[id].user == owner
    ensures forall id :: id in r ==> r[id] == records[id]
  {
    map id | id in records && records[id].user == owner :: records[id]
  }

  /** The recipes collection. */
  class RecipeCollection {
    var records: map<Id, Recipe>
    /** The next fresh ObjectId. */
    var nextId: Id

    ghost predicate Valid()
      reads this
    {
      forall id :: id in records ==> id < nextId
    }

    constructor ()
      ensures Valid() && records == map[]
    {
      records := map[];
      nextId := 0;
    }
  }

  /** An ingredient of a suggestion: `{ id, name, ... }`. */
  datatype SuggestedIngredient = SuggestedIngredient(id: int, name: string)

  /** One result of the external ingredient-based recipe search. */
  datatype Suggestion = Suggestion(
    id: int,
    title: string,
    image: Option<string>,
    usedIngredients: Option<seq<SuggestedIngredient>>,
    missedIngredients: Option<seq<SuggestedIngredient>>,
    instructions: Option<string>)
}
