/**
 * The Grocery model: required `user`, `name` and `expiryDate`; `category` and `unit` enums with
 * their defaults; `quantity`, `consumed` and `lowStock` defaults; optional `imageUrl`.
 * Dates are instants in integer milliseconds.
 */
module GroceryModel {
  import opened Wrappers
  import opened Http
  import opened Validation

  const Categories: seq<string> := ["fruits", "vegetables", "dairy", "meat", "pantry", "frozen", "other"]
  const Units: seq<string> := ["pcs", "kg", "g", "liters", "ml", "packs"]

  datatype Grocery = Grocery(
    user: Id,
    name: string,
    category: string,
    quantity: int,
    unit: string,
    expiryDate: int,
    consumed: bool,
    lowStock: bool,
    imageUrl: Option<string>)

  /** The fields handed to `Grocery.create`; `None` is a field left undefined. */
  datatype GroceryInput = GroceryInput(
    user: Option<Id>,
    name: Option<string>,
    category: Option<string>,
    quantity: Option<int>,
    unit: Option<string>,
    expiryDate: Option<int>,
    consumed: Option<bool>,
    lowStock: Option<bool>,
    imageUrl: Option<string>)

  /** The failing paths of a new grocery document, in schema order. */
  function GroceryErrors(input: GroceryInput): (errors: seq<FieldError>)
    ensures errors == [] <==>
      && input.user.Some? && input.name.Some? && input.name.value != "" && input.expiryDate.Some?
      && (input.category.None? || input.category.value in Categories)
      && (input.unit.None? || input.unit.value in Units)
  {
    var user := if input.user.None? then [Required("user", RequiredMessage("user"))] else [];
    var name := RequireString("name", "Please enter the grocery name", input.name);
    var category := CheckEnum("category", Categories, input.category);
    var unit := CheckEnum("unit", Units, input.unit);
    var expiry := if input.expiryDate.None? then [Required("expiryDate", "Please provide an expiry date")] else [];
    var errors := user + name + category + unit + expiry;
    assert |errors| == |user| + |name| + |category| + |unit| + |expiry|;
    errors
  }

  /** Schema validation plus default filling: the record `Grocery.create` stores, or why it refuses. */
  function NormaliseGrocery(input: GroceryInput): (r: Result<Grocery, seq<FieldError>>)
    ensures r.Success? <==>
      && input.user.Some? && input.name.Some? && input.name.value != "" && input.expiryDate.Some?
      && (input.category.None? || input.category.value in Categories)
      && (input.unit.None? || input.unit.value in Units)
    ensures r.Failure? ==> r.error != [] && r.error == GroceryErrors(input)
    ensures r.Success? ==>
      && r.value.user == input.user.value && r.value.name == input.name.value
      && r.value.expiryDate == input.expiryDate.value
      && r.value.category in Categories && r.value.unit in Units
      && r.value.category == (if input.category.Some? then input.category.value else "other")
      && r.value.unit == (if input.unit.Some? then input.unit.value else "pcs")
      && r.value.quantity == (if input.quantity.Some? then input.quantity.value else 1)
      && r.value.consumed == (input.consumed == Some(true))
      && r.value.lowStock == (input.lowStock == Some(true))
      && r.value.imageUrl == input.imageUrl
  {
    var errors := GroceryErrors(input);
    if errors != [] then Failure(errors)
    else
      Success(Grocery(
        input.user.value,
        input.name.value,
        input.category.GetOr("other"),
        input.quantity.GetOr(1),
        input.unit.GetOr("pcs"),
        input.expiryDate.value,
        input.consumed.GetOr(false),
        input.lowStock.GetOr(false),
        input.imageUrl))
  }

  /**
   * A request body applied by `findByIdAndUpdate`: each present field is set as given. Mongoose
   * does not run validators on this path, so enum values and empty names are not checked.
   */
  datatype GroceryPatch = GroceryPatch(
    user: Option<Id>,
    name: Option<string>,
    category: Option<string>,
    quantity: Option<int>,
    unit: Option<string>,
    expiryDate: Option<int>,
    consumed: Option<bool>,
    lowStock: Option<bool>,
    imageUrl: Option<string>)

  const EmptyPatch: GroceryPatch := GroceryPatch(None, None, None, None, None, None, None, None, None)

  /** `findByIdAndUpdate(id, body)`: each field the body carries replaces the stored one, the rest stay. */
  function Merge(g: Grocery, p: GroceryPatch): (r: Grocery)
    ensures p == EmptyPatch ==> r == g
    ensures r.user == (if p.user.Some? then p.user.value else g.user)
    ensures r.name == (if p.name.Some? then p.name.value else g.name)
    ensures r.category == (if p.category.Some? then p.category.value else g.category)
    ensures r.quantity == (if p.quantity.Some? then p.quantity.value else g.quantity)
    ensures r.unit == (if p.unit.Some? then p.unit.value else g.unit)
    ensures r.expiryDate == (if p.expiryDate.Some? then p.expiryDate.value else g.expiryDate)
    ensures r.consumed == (if p.consumed.Some? then p.consumed.value else g.consumed)
    ensures r.lowStock == (if p.lowStock.Some? then p.lowStock.value else g.lowStock)
    ensures r.imageUrl == (if p.imageUrl.Some? then p.imageUrl else g.imageUrl)
  {
    Grocery(
      p.user.GetOr(g.user),
      p.name.GetOr(g.name),
      p.category.GetOr(g.category),
      p.quantity.GetOr(g.quantity),
      p.unit.GetOr(g.unit),
      p.expiryDate.GetOr(g.expiryDate),
      p.consumed.GetOr(g.consumed),
      p.lowStock.GetOr(g.lowStock),
      if p.imageUrl.Some? then p.imageUrl else g.imageUrl)
  }

  /** Applying the same body twice is the same as applying it once. */
  lemma MergeIdempotent(g: Grocery, p: GroceryPatch)
    ensures Merge(Merge(g, p), p) == Merge(g, p)
  {
  }

  /** `Grocery.find({ user: owner })`, keyed by `_id`. */
  function OwnedBy(records: map<Id, Grocery>, owner: Id): (r: map<Id, Grocery>)
    ensures forall id :: id in r <==> id in records && records[id].user == owner
    ensures forall id :: id in r ==> r[id] == records[id]
  {
    map id | id in records && records[id].user == owner :: records[id]
  }

  /** The groceries collection. */
  class GroceryCollection {
    var records: map<Id, Grocery>
    /** The next fresh ObjectId. */
    var nextId: Id

    ghost predicate Valid()
      reads this
    {
      forall id :: id in records ==> id < nextId
    }

    constructor ()
      ensures Valid() && records == map[]
    {
      records := map[];
      nextId := 0;
    }
  }
}
