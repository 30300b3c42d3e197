/**
 * The recipe page: the new-recipe form (comma-separated ingredients, trimmed, empties dropped),
 * the edit dialog (re-split on every keystroke, empties kept, only the first ingredient
 * checked), saving an external suggestion as a recipe, and the ingredient line on each card.
 */
module RecipePage {
  import opened Wrappers
  import opened Strings
  import opened Seqs
  import opened Http
  import opened RecipeModel

  /** Every piece trimmed: `.map((i) => i.trim())`. */
  function TrimAll(parts: seq<string>): (r: seq<string>)
    ensures |r| == |parts|
    ensures forall i :: 0 <= i < |parts| ==> r[i] == Trim(parts[i])
  {
    seq(|parts|, i requires 0 <= i < |parts| => Trim(parts[i]))
  }

  /** A trimmed piece of a comma-free string is itself comma-free. */
  lemma TrimKeepsOut(s: string, c: char)
    requires c !in s
    ensures c !in Trim(s)
  {
    var r := Trim(s);
    var a := TrimIsInfix(s);
    forall i | 0 <= i < |r| ensures r[i] != c {
      assert r[i] == s[a + i];
    }
  }

  /** A name the forms can produce: trimmed and free of the separator. */
  predicate CleanName(n: string) {
    IsTrimmed(n) && ',' !in n
  }

  /** The trimmed pieces of a comma split are clean. */
  lemma {:induction false} TrimAllClean(text: string)
    ensures forall i :: 0 <= i < |TrimAll(Split(text, ','))| ==> CleanName(TrimAll(Split(text, ','))[i])
  {
    var parts := Split(text, ',');
    forall i | 0 <= i < |parts| ensures CleanName(TrimAll(parts)[i]) {
      TrimKeepsOut(parts[i], ',');
    }
  }

  /** The names the new-recipe form extracts from its ingredients field. */
  function ParsedNames(text: string): (names: seq<string>)
    ensures forall i :: 0 <= i < |names| ==> names[i] != "" && CleanName(names[i])
    ensures forall n :: n in names <==> n != "" && n in TrimAll(Split(text, ','))
  {
    TrimAllClean(text);
    var pieces := TrimAll(Split(text, ','));
    FilterAll(pieces, (n: string) => n != "", CleanName);
    forall n ensures n in Filter(pieces, (n: string) => n != "") <==> n != "" && n in pieces {
      FilterMembership(pieces, (n: string) => n != "", n);
    }
    Filter(pieces, (n: string) => n != "")
  }

  /** `{ name }` objects, without a quantity. */
  function NamedOnly(names: seq<string>): (r: seq<IngredientInput>)
    ensures |r| == |names|
    ensures forall i :: 0 <= i < |names| ==> r[i] == IngredientInput(Some(names[i]), None)
  {
    seq(|names|, i requires 0 <= i < |names| => IngredientInput(Some(names[i]), None))
  }

  /** The names of a recipe's ingredients, in order. */
  function Names(items: seq<Ingredient>): (r: seq<string>)
    ensures |r| == |items|
    ensures forall i :: 0 <= i < |items| ==> r[i] == items[i].name
  {
    seq(|items|, i requires 0 <= i < |items| => items[i].name)
  }

  /** Each piece after a ", " separator: `" " + name`. */
  function Spaced(names: seq<string>): (r: seq<string>)
    ensures |r| == |names|
    ensures forall i :: 0 <= i < |names| ==> r[i] == " " + names[i]
  {
    seq(|names|, i requires 0 <= i < |names| => " " + names[i])
  }

  /** Splitting on commas a ", "-joined list that follows a separator gives the space-prefixed names. */
  lemma {:induction false} SplitSpacedJoin(names: seq<string>)
    requires |names| >= 1
    requires forall i :: 0 <= i < |names| ==> ',' !in names[i]
    ensures Split(" " + Join(names, ", "), ',') == Spaced(names)
  {
    if |names| == 1 {
      assert ',' !in " " + names[0];
      SplitNoSeparator(" " + names[0], ',');
    } else {
      var rest := Join(names[1..], ", ");
      assert " " + Join(names, ", ") == (" " + names[0]) + [','] + (" " + rest);
      assert ',' !in " " + names[0];
      SplitAtSeparator(" " + names[0], " " + rest, ',');
      SplitSpacedJoin(names[1..]);
      assert Spaced(names) == [" " + names[0]] + Spaced(names[1..]);
    }
  }

  /** The pieces of a ", "-joined list: the first name, then the others with their leading space. */
  lemma {:induction false} SplitJoinedNames(names: seq<string>)
    requires |names| >= 1
    requires forall i :: 0 <= i < |names| ==> ',' !in names[i]
    ensures Split(Join(names, ", "), ',') == [names[0]] + Spaced(names[1..])
  {
    if |names| == 1 {
      SplitNoSeparator(names[0], ',');
    } else {
      var rest := Join(names[1..], ", ");
      assert Join(names, ", ") == names[0] + [','] + (" " + rest);
      SplitAtSeparator(names[0], " " + rest, ',');
      SplitSpacedJoin(names[1..]);
    }
  }

  /** Trimming the pieces of a ", "-joined list of trimmed names gives the names back. */
  lemma {:induction false} TrimJoinedNames(names: seq<string>)
    requires |names| >= 1
    requires forall i :: 0 <= i < |names| ==> CleanName(names[i])
    ensures TrimAll(Split(Join(names, ", "), ',')) == names
  {
    SplitJoinedNames(names);
    TrimPieces(names);
    var parts := [names[0]] + Spaced(names[1..]);
    assert TrimAll(parts) == names;
  }

  /** Trimming the first name and the space-prefixed others gives each name back. */
  lemma {:induction false} TrimPieces(names: seq<string>)
    requires |names| >= 1
    requires forall i :: 0 <= i < |names| ==> CleanName(names[i])
    ensures forall i :: 0 <= i < |names| ==> Trim(([names[0]] + Spaced(names[1..]))[i]) == names[i]
  {
    var parts := [names[0]] + Spaced(names[1..]);
    TrimOfTrimmed(names[0]);
    forall i | 1 <= i < |names| ensures Trim(parts[i]) == names[i] {
      assert parts[i] == " " + names[i];
      TrimAfterSpaces(" ", names[i]);
    }
  }

  /** The names a recipe card shows, joined with ", ", are read back unchanged by the new-recipe form. */
  lemma {:induction false} ParsedNamesOfJoin(names: seq<string>)
    requires forall i :: 0 <= i < |names| ==> names[i] != "" && CleanName(names[i])
    ensures ParsedNames(Join(names, ", ")) == names
  {
    if names == [] {
      assert Split("", ',') == [""];
      assert TrimAll([""]) == [""] by { TrimOfTrimmed(""); }
    } else {
      TrimJoinedNames(names);
      FilterKeepsAll(names, (n: string) => n != "");
    }
  }

  /** The recipe object `handleSubmit` builds from the four text fields. */
  function SubmittedRecipe(title: string, ingredients: string, instructions: string, imageUrl: string): (r: RecipeInput)
    ensures r.title == Some(Trim(title)) && r.instructions == Some(Trim(instructions))
    ensures r.imageUrl == Some(Trim(imageUrl))
    ensures r.ingredients == Some(NamedOnly(ParsedNames(ingredients)))
  {
    RecipeInput(Some(Trim(title)), Some(NamedOnly(ParsedNames(ingredients))), Some(Trim(instructions)), Some(Trim(imageUrl)))
  }

  /** The client-side check before sending: a title, at least one ingredient, instructions. */
  predicate SubmitAllowed(r: RecipeInput) {
    r.title.Some? && r.title.value != ""
    && r.ingredients.Some? && |r.ingredients.value| > 0
    && r.instructions.Some? && r.instructions.value != ""
  }

  /** A recipe with a title, instructions and named-only ingredients is stored with exactly those names. */
  lemma {:induction false} NamedOnlyAccepted(owner: Id, title: string, names: seq<string>, instructions: string, imageUrl: Option<string>)
    requires title != "" && instructions != ""
    requires forall i :: 0 <= i < |names| ==> names[i] != ""
    ensures
      var stored := NormaliseRecipe(Some(owner), RecipeInput(Some(title), Some(NamedOnly(names)), Some(instructions), imageUrl));
      stored.Success? && Names(stored.value.ingredients) == names
  {
    var input := RecipeInput(Some(title), Some(NamedOnly(names)), Some(instructions), imageUrl);
    var stored := NormaliseRecipe(Some(owner), input);
    assert stored.Success?;
    var kept := Names(stored.value.ingredients);
    assert |kept| == |names|;
    assert forall i :: 0 <= i < |names| ==> kept[i] == names[i];
  }

  /**
   * What the form sends the schema accepts: the check on the page is stricter than the
   * schema's, which allows an empty ingredient list.
   */
  lemma {:induction false} SubmittedRecipeIsAccepted(owner: Id, title: string, ingredients: string, instructions: string, imageUrl: string)
    requires SubmitAllowed(SubmittedRecipe(title, ingredients, instructions, imageUrl))
    ensures
      var stored := NormaliseRecipe(Some(owner), SubmittedRecipe(title, ingredients, instructions, imageUrl));
      && stored.Success?
      && Names(stored.value.ingredients) == ParsedNames(ingredients)
      && stored.value.title == Trim(title) && stored.value.instructions == Trim(instructions)
  {
    NamedOnlyAccepted(owner, Trim(title), ParsedNames(ingredients), Trim(instructions), Some(Trim(imageUrl)));
  }

  /** The new-recipe form's state. */
  class RecipeForm {
    var title: string
    var ingredients: string
    var instructions: string
    var imageUrl: string

    constructor ()
      ensures title == "" && ingredients == "" && instructions == "" && imageUrl == ""
    {
      title, ingredients, instructions, imageUrl := "", "", "", "";
    }

    /**
     * `handleSubmit`: build the recipe, stop if the check fails (form kept), otherwise send it
     * and clear the form whatever the server later answers.
     */
    method HandleSubmit() returns (sent: Option<RecipeInput>)
      modifies this
      ensures
        var recipe := SubmittedRecipe(old(title), old(ingredients), old(instructions), old(imageUrl));
        && (!SubmitAllowed(recipe) ==>
              sent.None? && title == old(title) && ingredients == old(ingredients)
              && instructions == old(instructions) && imageUrl == old(imageUrl))
        && (SubmitAllowed(recipe) ==>
              sent == Some(recipe) && title == "" && ingredients == "" && instructions == "" && imageUrl == "")
    {
      var recipe := SubmittedRecipe(title, ingredients, instructions, imageUrl);
      if !SubmitAllowed(recipe) {
        return None;
      }
      sent := Some(recipe);
      title, ingredients, instructions, imageUrl := "", "", "", "";
    }
  }

  /** The edit dialog's ingredients text: each piece trimmed, nothing dropped, quantities lost. */
  function EditIngredients(text: string): (r: seq<Ingredient>)
    ensures |r| >= 1
    ensures Names(r) == TrimAll(Split(text, ','))
    ensures forall i :: 0 <= i < |r| ==> r[i].quantity.None?
  {
    var names := TrimAll(Split(text, ','));
    seq(|names|, i requires 0 <= i < |names| => Ingredient(names[i], None))
  }

  /** The text the edit dialog shows for a recipe's ingredients. */
  function IngredientsText(items: seq<Ingredient>): string {
    Join(Names(items), ", ")
  }

  /**
   * Retyping the shown text unchanged gives back the same names; only the quantities are
   * dropped. An empty list is shown as "" and comes back as one ingredient with an empty name.
   */
  lemma {:induction false} EditRoundTrip(items: seq<Ingredient>)
    requires forall i :: 0 <= i < |items| ==> CleanName(items[i].name)
    ensures |items| >= 1 ==> Names(EditIngredients(IngredientsText(items))) == Names(items)
    ensures |items| == 0 ==> EditIngredients(IngredientsText(items)) == [Ingredient("", None)]
  {
    if |items| >= 1 {
      TrimJoinedNames(Names(items));
    } else {
      assert Split("", ',') == [""];
      TrimOfTrimmed("");
    }
  }

  /** What pressing "Update" leads to. */
  datatype UpdateOutcome =
    | Threw                            // `trim` of a missing imageUrl, or `ingredients[0]` of an empty list
    | Rejected                         // the toast "Please fill in all fields"
    | Sent(id: Id, patch: RecipePatch)

  /** `handleUpdate` on the recipe open in the dialog. */
  function UpdateDecision(d: Doc<Recipe>): (r: UpdateOutcome)
    ensures r.Sent? <==>
      && d.body.imageUrl.Some? && Trim(d.body.title) != "" && |d.body.ingredients| > 0
      && d.body.ingredients[0].name != "" && Trim(d.body.instructions) != ""
    ensures r.Threw? <==> d.body.imageUrl.None? || (Trim(d.body.title) != "" && |d.body.ingredients| == 0)
    ensures r.Sent? ==>
      && r.id == d.id
      && r.patch == RecipePatch(None, Some(Trim(d.body.title)), Some(d.body.ingredients),
                                Some(Trim(d.body.instructions)), Some(Trim(d.body.imageUrl.value)))
  {
    var b := d.body;
    if b.imageUrl.None? then Threw
    else if Trim(b.title) == "" then Rejected
    else if |b.ingredients| == 0 then Threw
    else if b.ingredients[0].name == "" || Trim(b.instructions) == "" then Rejected
    else Sent(d.id, RecipePatch(None, Some(Trim(b.title)), Some(b.ingredients), Some(Trim(b.instructions)), Some(Trim(b.imageUrl.value))))
  }

  /**
   * Only the first ingredient's name is checked: whatever the later names are, empty ones
   * included, the list is sent as it is and the server stores it.
   */
  lemma {:induction false} UpdateChecksOnlyFirstIngredient(d: Doc<Recipe>)
    requires d.body.imageUrl.Some? && Trim(d.body.title) != "" && Trim(d.body.instructions) != ""
    requires |d.body.ingredients| >= 1 && d.body.ingredients[0].name != ""
    ensures UpdateDecision(d).Sent?
    ensures Merge(d.body, UpdateDecision(d).patch).ingredients == d.body.ingredients
  {
  }

  /** The edit dialog's state: the recipe open in it, if any. */
  class RecipeEditor {
    var selected: Option<Doc<Recipe>>

    constructor ()
      ensures selected == None
    {
      selected := None;
    }

    /** "View": open a saved recipe in the dialog. */
    method Open(d: Doc<Recipe>)
      modifies this
      ensures selected == Some(d)
    {
      selected := Some(d);
    }

    /** Typing in the ingredients textarea: the list is rebuilt from the text on every change. */
    method OnIngredientsChange(text: string)
      requires selected.Some?
      modifies this
      ensures selected == Some(old(selected).value.(body := old(selected).value.body.(ingredients := EditIngredients(text))))
    {
      var d := selected.value;
      selected := Some(d.(body := d.body.(ingredients := EditIngredients(text))));
    }

    /** `handleUpdate`: on a send the dialog closes; otherwise it stays open as it was. */
    method HandleUpdate() returns (outcome: UpdateOutcome)
      requires selected.Some?
      modifies this
      ensures outcome == UpdateDecision(old(selected).value)
      ensures outcome.Sent? ==> selected.None?
      ensures !outcome.Sent? ==> selected == old(selected)
    {
      outcome := UpdateDecision(selected.value);
      if outcome.Sent? {
        selected := None;
      }
    }
  }

  /** `(items?.map((i) => ({ name: i.name })) || [])`. */
  function SuggestedNames(items: Option<seq<SuggestedIngredient>>): (r: seq<IngredientInput>)
    ensures items.None? ==> r == []
    ensures items.Some? ==> |r| == |items.value|
    ensures items.Some? ==> forall i :: 0 <= i < |items.value| ==> r[i] == IngredientInput(Some(items.value[i].name), None)
  {
    if items.None? then []
    else seq(|items.value|, i requires 0 <= i < |items.value| => IngredientInput(Some(items.value[i].name), None))
  }

  const NoInstructions: string := "No instructions available."

  /** "Save" on a suggestion: used ingredients, then missed ones; a default text for missing instructions. */
  function SuggestionToRecipe(s: Suggestion): (r: RecipeInput)
    ensures r.title == Some(s.title) && r.imageUrl == s.image
    ensures r.instructions == Some(if s.instructions.Some? && s.instructions.value != "" then s.instructions.value else NoInstructions)
    ensures r.ingredients == Some(SuggestedNames(s.usedIngredients) + SuggestedNames(s.missedIngredients))
  {
    RecipeInput(
      Some(s.title),
      Some(SuggestedNames(s.usedIngredients) + SuggestedNames(s.missedIngredients)),
      Some(if s.instructions.Some? && s.instructions.value != "" then s.instructions.value else NoInstructions),
      s.image)
  }

  predicate NamesPresent(items: Option<seq<SuggestedIngredient>>) {
    items.None? || forall i :: 0 <= i < |items.value| ==> items.value[i].name != ""
  }

  /**
   * A saved suggestion is accepted exactly when it has a title and none of its ingredient names
   * is empty; instructions never block it, and it keeps every ingredient in order.
   */
  lemma {:induction false} SavedSuggestionAccepted(owner: Id, s: Suggestion)
    ensures NormaliseRecipe(Some(owner), SuggestionToRecipe(s)).Success?
      <==> s.title != "" && NamesPresent(s.usedIngredients) && NamesPresent(s.missedIngredients)
  {
    var used := SuggestedNames(s.usedIngredients);
    var missed := SuggestedNames(s.missedIngredients);
    var all := used + missed;
    if NamesPresent(s.usedIngredients) && NamesPresent(s.missedIngredients) {
      forall i | 0 <= i < |all| ensures all[i].name.Some? && all[i].name.value != "" {
        if i >= |used| {
          assert all[i] == missed[i - |used|];
        }
      }
    }
    if !NamesPresent(s.usedIngredients) {
      var i :| 0 <= i < |s.usedIngredients.value| && s.usedIngredients.value[i].name == "";
      assert all[i] == used[i];
    }
    if !NamesPresent(s.missedIngredients) {
      var i :| 0 <= i < |s.missedIngredients.value| && s.missedIngredients.value[i].name == "";
      assert all[|used| + i] == missed[i];
    }
  }

  /** The card's ingredient line: the names joined with ", ", cut to at most 50 characters. */
  function IngredientSummary(items: seq<Ingredient>): (r: string)
    ensures |r| <= 50 && |r| <= |IngredientsText(items)|
    ensures r == IngredientsText(items)[..|r|]
    ensures |IngredientsText(items)| <= 50 ==> r == IngredientsText(items)
    ensures |IngredientsText(items)| > 50 ==> |r| == 50
  {
    Take(IngredientsText(items), 50)
  }
}
