# grocetrack, modelled in Dafny

grocetrack is a household grocery tracker: an Express/MongoDB server with a React/Redux client.
Users register and log in. Each user keeps a list of groceries with expiry dates and quantities,
and their own recipes. Recipe suggestions come from an external search over the names of the
groceries they have. This project models the decision logic of that system:

- **Record schemas** (`user_model.dfy`, `grocery_model.dfy`, `recipe_model.dfy`).
  - Required fields, enums, defaults and lowercasing become validation and normalisation
    functions. They return the stored record or the mongoose field errors.
  - The user document is a class. Its `pre("save")` hook rehashes the password only when it was
    modified. `matchPassword` defers to bcrypt.
  - The users collection keeps ids fresh and emails unique and lowercase.
- **The `protect` gate** (`auth_middleware.dfy`). It handles a `Bearer` header, the JSON Web
  Token verifier (RFC 7519, kept abstract as a function) and the attach-or-401 decision. Two
  behaviours are modelled exactly as written:
  - a bare `Bearer` header gets two 401 attempts;
  - a token for a deleted user reaches the next handler with a null `req.user`.
- **The account handlers** (`auth_controller.dfy`, `user_controller.dfy`): register, login,
  current user, logout, and the profile update with its password-change guard.
- **The ownership-checked handlers** (`grocery_controller.dfy`, `recipe_controller.dfy`).
  - Each works on a collection held in a class as a `map` from id to record.
  - A request from a user whose session was deleted reads `req.user._id` on null and gets 500.
  - A store error is a `fault` parameter, answered 500 with its message.
  - The `user` field of an update body is applied like any other field.
- **The client slices** (`grocery_slice.dfy`, `recipe_slice.dfy`, `auth_slice.dfy`): one class
  per slice, one method per reducer case, each stating the whole new state.
- **The page helpers** (`grocery_page.dfy`, `dashboard.dfy`, `recipe_page.dfy`):
  - the add form and the quantity buttons;
  - the dashboard statistics, with the category tally loop proved against a specification;
  - comma-separated ingredient parsing, the two recipe forms, saving a suggestion, and the
    ingredient summary.

Shared pieces:

| file | holds |
|---|---|
| `wrappers.dfy` | `Option`, `Result` |
| `strings.dfy` | JavaScript's `trim`, `split`, `join`, `toLowerCase`, `slice` |
| `seqs.dfy` | `filter` and sort by key |
| `http.dfy` | replies, cookies, records with their `_id`, the client's array edits by `_id`, mongoose validation errors |

bcrypt, `jwt.sign`/`jwt.verify` and the external recipe search are parameters of the operations
that use them. Instants are integer milliseconds.

Where the code and the design intent differ, the model follows the code:

- **Deleted user.** `protect` forwards a token whose user no longer exists, with `req.user`
  null, instead of rejecting it.
- **Token transport.** `protect` reads only the `Authorization` header, never the cookie that
  register and login set.
- **Validation failures.** A failed validation on create or register is answered 500, not 400.
- **Non-owners.** A non-owner gets 401, not 403.
- **Updates.** Updates run no validators. They can store values outside the enums, and they can
  change the owner of a record, although the owner is meant to be fixed at creation.

## Model

All source paths are under `grocetrack/`.

| member | source | states |
|---|---|---|
| UserModel.UserErrors | grocetrack/server/models/user.model.js:6-31 | No errors exactly when name and email are non-empty, the password has at least 6 characters, and role and dietary are in their enums; a missing field or a short password yields its specific error |
| UserModel.NewUser | grocetrack/server/models/user.model.js:10-31 | A new user has its email lowercased, role "user", dietary "none" and no household |
| UserModel.UserDocument.Create | grocetrack/server/controllers/auth.controller.js:15-19 | A created document holds `NewUser` of the body and counts its password as modified |
| UserModel.UserDocument.Load | grocetrack/server/controllers/user.controller.js:7 | A loaded document holds the stored user with nothing modified |
| UserModel.UserDocument.SetEmail | grocetrack/server/models/user.model.js:14 | Assigning an email stores it lowercased |
| UserModel.UserDocument.SetPassword | grocetrack/server/models/user.model.js:43 | Assigning a password marks it modified only when the value changes |
| UserModel.UserDocument.PreSave | grocetrack/server/models/user.model.js:42-46 | A modified password is replaced by its hash; an unmodified one is left as it is, so it is never hashed twice |
| UserModel.UserDocument.MatchPassword | grocetrack/server/models/user.model.js:49-51 | The result is exactly bcrypt's comparison of the entered password with the stored one |
| UserModel.UserStore.FindOne | grocetrack/server/controllers/auth.controller.js:10 | Finds a user exactly when some stored email equals the lowercased query |
| UserModel.UserStore.Save | grocetrack/server/models/user.model.js:12-46 | Validation first, then the hook, then the unique email index; each failure leaves the collection unchanged; success writes the hashed-if-modified record and keeps ids fresh and emails unique and lowercase |
| GroceryModel.GroceryErrors | grocetrack/server/models/grocery.model.js:5-31 | No errors exactly when user, a non-empty name and expiryDate are present and category and unit are absent or in their enums |
| GroceryModel.NormaliseGrocery | grocetrack/server/models/grocery.model.js:5-42 | Accepted exactly when user, a non-empty name and expiryDate are present and category and unit are absent or in their enums; defaults "other", 1, "pcs", false, false; otherwise the errors in schema order |
| GroceryModel.Merge | grocetrack/server/controllers/grocery.controller.js:49-53 | Each field the body carries replaces the stored one, the owner included; every other field is kept; an empty body changes nothing |
| GroceryModel.MergeIdempotent | grocetrack/server/controllers/grocery.controller.js:49-53 | Applying the same body twice equals applying it once |
| GroceryModel.OwnedBy | grocetrack/server/controllers/grocery.controller.js:7 | Exactly the records whose owner is the caller, unchanged |
| RecipeModel.IngredientErrors | grocetrack/server/models/recipe.model.js:14-19 | No errors exactly when every ingredient has a non-empty name |
| RecipeModel.NormaliseRecipe | grocetrack/server/models/recipe.model.js:5-26 | Accepted exactly when owner, title and instructions are present and non-empty and every ingredient is named; the list keeps its order, may be empty, and keeps each optional quantity; imageUrl is optional |
| RecipeModel.Merge | grocetrack/server/controllers/recipe.controller.js:49-53 | Each field the body carries replaces the stored one, the owner included; the rest is kept |
| RecipeModel.OwnedBy | grocetrack/server/controllers/recipe.controller.js:8 | Exactly the caller's recipes |
| AuthMiddleware.BearerToken | grocetrack/server/middleware/authMiddleware.js:9 | There is a token exactly when the header has a space; it is trimmed |
| AuthMiddleware.Protect | grocetrack/server/middleware/authMiddleware.js:4-28 | Non-Bearer: one "no token" 401. Bare "Bearer": "token failed" then "no token". Refused token: 401 and `req.user` untouched. Verified token: `req.user` is the looked-up user without password, or null if deleted, and `next` is called once. With a non-empty token, exactly one of 401 and `next` |
| AuthMiddleware.BearerTokenOf | grocetrack/server/middleware/authMiddleware.js:9 | "Bearer t" with a space-free t yields trim(t) |
| AuthMiddleware.BearerTokenIsSecondField | grocetrack/server/middleware/authMiddleware.js:9 | For any header whose first two space-separated fields are a and t, the token is trim(t), whatever follows the second space |
| AuthMiddleware.BareBearerHasNoToken | grocetrack/server/middleware/authMiddleware.js:7-9 | "Bearer" passes the prefix check but has no token field |
| AuthMiddleware.IssuedTokenResolves | grocetrack/server/middleware/authMiddleware.js:9-15 | A clean token the verifier maps to a stored user resolves to that user without its password |
| AuthController.RegisterUser | grocetrack/server/controllers/auth.controller.js:6-42 | Taken email: 400 and no user created. Invalid data: 500 with the validation message. Otherwise 201 with only id, name and lowercased email, the week-long httpOnly strict cookie, and the user stored with the hashed password |
| AuthController.LoginUser | grocetrack/server/controllers/auth.controller.js:45-72 | 200 with the public view and the cookie exactly when a user with that email exists and bcrypt accepts the password; otherwise the same 401 for both failures |
| AuthController.GetCurrentUser | grocetrack/server/controllers/auth.controller.js:75-82 | 401 exactly when `req.user` is null; otherwise 200 with only id, name and email |
| AuthController.LogoutUser | grocetrack/server/controllers/auth.controller.js:85-92 | Always 200 and clears the "token" cookie with the options it was set with |
| AuthController.CurrentUserIsPublicView | grocetrack/server/controllers/auth.controller.js:75-82 | After `protect`, a stored user gets the same view login returns; a deleted one gets 401 |
| AuthController.RegisteredUserCanLogIn | grocetrack/server/controllers/auth.controller.js:49-51 | A registered record accepts its own password, given that bcrypt accepts a password against its own hash |
| UserController.ProfileEdit | grocetrack/server/controllers/user.controller.js:10-24 | Name and email are replaced only by truthy values, the email lowercased; the password only by a truthy new password; nothing else changes |
| UserController.PasswordGuard | grocetrack/server/controllers/user.controller.js:13-22 | Passes exactly when there is no new password, or the current one is given and bcrypt accepts it. A new password without a current one is 400 "Current password required"; a current one bcrypt refuses is 401 "Current password is incorrect" |
| UserController.StoredProfile | grocetrack/server/controllers/user.controller.js:24-27 | Every field but the password is the edit's. Without a new password the stored hash is kept; a changed password is stored hashed |
| UserController.RewriteKeepsEmailsUnique | grocetrack/server/models/user.model.js:13 | Rewriting one record with an email no other record holds keeps the unique email index satisfied |
| UserController.ProfileUpdate | grocetrack/server/controllers/user.controller.js:5-40 | Null user: 500; unknown id: 404. A guard refusal is answered with the guard's 400 or 401; an invalid record with 500 and the Mongoose validation message; an email another user holds with 500 and the E11000 duplicate-key message. A reply other than 200 writes nothing, not even the name and email edits. A 200 means the guard passed, the record is valid and its email is not taken by another user; it returns only id, name and email and rewrites only that record. A password changes only when bcrypt accepted the current one. Unique, lowercase emails stay that way |
| UserController.EditProfile | grocetrack/server/controllers/user.controller.js:10-24 | The document's in-memory edits: the refusal is exactly the password guard; otherwise the document holds `ProfileEdit` and counts its password as modified exactly when it changed |
| UserController.UpdateUserProfile | grocetrack/server/controllers/user.controller.js:5-40 | The reply and the collection the handler leaves are exactly `ProfileUpdate` of the collection before; ids stay fresh, emails unique and lowercase |
| GroceryController.CreateInput | grocetrack/server/controllers/grocery.controller.js:17-27 | Only name, category, quantity, unit and expiryDate are taken from the body, and the caller is stamped as owner |
| GroceryController.GetGroceries | grocetrack/server/controllers/grocery.controller.js:5-12 | Exactly the caller's records, or 500 |
| GroceryController.CreateGrocery | grocetrack/server/controllers/grocery.controller.js:16-33 | 201 with the normalised record owned by the caller, and the collection grows by exactly that entry; a validation or store failure gives 500 and changes nothing |
| GroceryController.UpdateGrocery | grocetrack/server/controllers/grocery.controller.js:37-59 | Absent id: 404, checked before ownership. Non-owner: 401, nothing changes. Owner: only that record becomes its merge with the body |
| GroceryController.DeleteGrocery | grocetrack/server/controllers/grocery.controller.js:63-80 | Absent id: 404. Non-owner: 401, nothing changes. Owner: exactly that record is removed |
| GroceryController.CreateShowsOnlyToOwner | grocetrack/server/controllers/grocery.controller.js:20-29 | A created item joins its owner's list and no other |
| GroceryController.DeleteHidesOnlyThat | grocetrack/server/controllers/grocery.controller.js:75-76 | An owner's delete removes that item from the owner's list and no other list changes |
| GroceryController.UpdateCanTransferOwnership | grocetrack/server/controllers/grocery.controller.js:45-53 | A body carrying another `user` moves the item from the caller's list to that user's |
| RecipeController.GetRecipes | grocetrack/server/controllers/recipe.controller.js:6-13 | Exactly the caller's recipes, or 500 |
| RecipeController.CreateRecipe | grocetrack/server/controllers/recipe.controller.js:17-33 | 201 with the normalised recipe owned by the caller, and the collection grows by one; failures change nothing |
| RecipeController.UpdateRecipe | grocetrack/server/controllers/recipe.controller.js:37-59 | 404, then 401 for a non-owner with no change; the owner's update changes only that record |
| RecipeController.DeleteRecipe | grocetrack/server/controllers/recipe.controller.js:63-80 | 404, then 401 with no change; the owner's delete removes only that record |
| RecipeController.GetRecipesFromApi | grocetrack/server/controllers/recipe.controller.js:85-110 | Missing or empty ingredients: 400 and no outbound call; otherwise one call asking for 6 results, relayed, or 500 if it fails |
| RecipeController.CreateShowsOnlyToOwner | grocetrack/server/controllers/recipe.controller.js:21-29 | A created recipe joins its owner's list and no other |
| RecipeController.DeleteHidesOnlyThat | grocetrack/server/controllers/recipe.controller.js:75-76 | An owner's delete changes only the owner's list, by that recipe |
| Docs.FindIndexById | grocetrack/client/src/slices/grocerySlice.js:51 | -1 exactly when no record has the id; otherwise the first position holding it |
| Docs.ReplaceById | grocetrack/client/src/slices/grocerySlice.js:50-53 | Same length and ids; the first record with the id becomes the payload; no match, no change |
| Docs.ReplaceByIdIdempotent | grocetrack/client/src/slices/grocerySlice.js:50-53 | Replacing twice equals replacing once |
| Docs.WithoutIdAfterReplace | grocetrack/client/src/slices/grocerySlice.js:50-57 | Deleting after an update equals deleting straight away |
| Docs.WithoutId | grocetrack/client/src/slices/grocerySlice.js:55-57 | No survivor has the id, every other record survives, nothing is added |
| Docs.WithoutIdAppend | grocetrack/client/src/slices/grocerySlice.js:56 | Removal distributes over concatenation, so the survivors keep their order |
| Docs.WithoutAbsentId | grocetrack/client/src/slices/grocerySlice.js:56 | Removing an absent id changes nothing |
| GrocerySlice.GroceryState.constructor | grocetrack/client/src/slices/grocerySlice.js:31 | Empty list, not loading, no error |
| GrocerySlice.GroceryState.FetchPending | grocetrack/client/src/slices/grocerySlice.js:36 | Sets loading and changes nothing else |
| GrocerySlice.GroceryState.FetchFulfilled | grocetrack/client/src/slices/grocerySlice.js:37-40 | Items become the payload, loading off, error kept |
| GrocerySlice.GroceryState.FetchRejected | grocetrack/client/src/slices/grocerySlice.js:41-44 | Loading off, error recorded, items kept |
| GrocerySlice.GroceryState.AddFulfilled | grocetrack/client/src/slices/grocerySlice.js:46-48 | The payload is appended, the prefix is kept, flags untouched |
| GrocerySlice.GroceryState.UpdateFulfilled | grocetrack/client/src/slices/grocerySlice.js:50-53 | Items become `ReplaceById` of the old items, flags untouched |
| GrocerySlice.GroceryState.DeleteFulfilled | grocetrack/client/src/slices/grocerySlice.js:55-57 | Items become `WithoutId` of the old items, flags untouched |
| RecipeSlice.RecipeState.Pending | grocetrack/client/src/slices/recipeSlice.js:49-51 | Both pending cases set the one shared loading flag and nothing else |
| RecipeSlice.RecipeState.FetchFulfilled | grocetrack/client/src/slices/recipeSlice.js:52-55 | Writes items only |
| RecipeSlice.RecipeState.SuggestionsFulfilled | grocetrack/client/src/slices/recipeSlice.js:81-84 | Writes suggestions only |
| RecipeSlice.RecipeState.Rejected | grocetrack/client/src/slices/recipeSlice.js:56-59 | Both rejected cases clear loading and record the error, keeping items and suggestions |
| RecipeSlice.RecipeState.AddFulfilled | grocetrack/client/src/slices/recipeSlice.js:62-64 | Appends and never touches suggestions |
| RecipeSlice.RecipeState.UpdateFulfilled | grocetrack/client/src/slices/recipeSlice.js:67-70 | Replaces the first id match, length kept, suggestions untouched |
| RecipeSlice.RecipeState.DeleteFulfilled | grocetrack/client/src/slices/recipeSlice.js:73-75 | Removes every id match, suggestions untouched |
| AuthSlice.AuthState.constructor | grocetrack/client/src/slices/authSlice.js:46-52 | No user, no error, flags off, and no `loading` field |
| AuthSlice.AuthState.FetchUserPending | grocetrack/client/src/slices/authSlice.js:57-59 | Creates `loading` as true, nothing else changes |
| AuthSlice.AuthState.FetchUserFulfilled | grocetrack/client/src/slices/authSlice.js:60-63 | User is the payload, `loading` false |
| AuthSlice.AuthState.FetchUserRejected | grocetrack/client/src/slices/authSlice.js:64-67 | User null, `loading` false, no error recorded |
| AuthSlice.AuthState.SignInFulfilled | grocetrack/client/src/slices/authSlice.js:69-79 | Login or register: user is the payload |
| AuthSlice.AuthState.SignInRejected | grocetrack/client/src/slices/authSlice.js:72-83 | Login or register: loginLoading off, error recorded, user kept |
| AuthSlice.AuthState.LogoutFulfilled | grocetrack/client/src/slices/authSlice.js:85-87 | User null, nothing else changes |
| AuthSlice.AuthState.UpdateProfilePending | grocetrack/client/src/slices/authSlice.js:89-91 | updateProfileLoading on |
| AuthSlice.AuthState.UpdateProfileFulfilled | grocetrack/client/src/slices/authSlice.js:92-95 | updateProfileLoading off, user is the payload |
| AuthSlice.AuthState.UpdateProfileRejected | grocetrack/client/src/slices/authSlice.js:96-99 | updateProfileLoading off, error recorded, user kept |
| GroceryPage.GroceryForm.constructor | grocetrack/client/src/pages/Grocery.jsx:9-13 | Form starts as "", "other", 1, "pcs", no date |
| GroceryPage.GroceryForm.HandleAdd | grocetrack/client/src/pages/Grocery.jsx:19-28 | Without a name or a date nothing is sent and the form is kept; otherwise the five fields are sent and the form resets |
| GroceryPage.SentGroceryIsAccepted | grocetrack/client/src/pages/Grocery.jsx:22 | What the form sends passes the schema and is stored as chosen, with the remaining defaults |
| GroceryPage.Increment | grocetrack/client/src/pages/Grocery.jsx:103 | "+" requests exactly one more than the current quantity |
| GroceryPage.Decrement | grocetrack/client/src/pages/Grocery.jsx:109 | "-" never requests below 1; 1 stays 1; above 1 it is one less |
| GroceryPage.DecrementUndoesIncrement | grocetrack/client/src/pages/Grocery.jsx:103-109 | "-" undoes "+" for quantities of at least 1 |
| GroceryPage.QuantityUpdate | grocetrack/client/src/pages/Grocery.jsx:32-34 | The update body carries the quantity and nothing else |
| GroceryPage.QuantityUpdateTouchesOnlyQuantity | grocetrack/client/src/pages/Grocery.jsx:33 | Applied on the server, it changes only the quantity |
| Dashboard.TotalItems | grocetrack/client/src/pages/Dashboard.jsx:15 | The number of items |
| Dashboard.ExpiringSoon | grocetrack/client/src/pages/Dashboard.jsx:17-22 | An item is listed exactly when its expiry is at most 3 days after now |
| Dashboard.ExpiredIsExpiringSoon | grocetrack/client/src/pages/Dashboard.jsx:17-22 | Already expired items are listed too |
| Dashboard.LowStock | grocetrack/client/src/pages/Dashboard.jsx:24 | An item is listed exactly when its quantity is at most 2 |
| Dashboard.ExpiringSoonByDate | grocetrack/client/src/pages/Dashboard.jsx:98-99 | The expiring items, a permutation, in ascending expiry |
| Dashboard.LowStockByQuantity | grocetrack/client/src/pages/Dashboard.jsx:129-130 | The low-stock items, a permutation, in ascending quantity |
| Dashboard.TallyCategories | grocetrack/client/src/pages/Dashboard.jsx:26-29 | The loop yields the distinct categories in first-appearance order and each one's count |
| Dashboard.TallyStep | grocetrack/client/src/pages/Dashboard.jsx:26-29 | One more item adds its category to the keys when new, with count 1, and otherwise raises that count by one and leaves the keys as they were |
| Dashboard.DistinctCategoriesMembership | grocetrack/client/src/pages/Dashboard.jsx:26-29 | A category is a key exactly when some item has it, exactly when its count is positive |
| Dashboard.DistinctCategoriesUnique | grocetrack/client/src/pages/Dashboard.jsx:26-29 | No category is a key twice |
| Dashboard.ChartData | grocetrack/client/src/pages/Dashboard.jsx:31-34 | One entry per key, carrying its count |
| Dashboard.CountsSumToTotal | grocetrack/client/src/pages/Dashboard.jsx:15-29 | The per-category counts sum to totalItems |
| Dashboard.ChartSumIsSumCounts | grocetrack/client/src/pages/Dashboard.jsx:31-34 | The chart's values sum to the counts of its keys |
| Dashboard.ChartDataIsTally | grocetrack/client/src/pages/Dashboard.jsx:26-34 | The chart has one entry per distinct category, each with that category's positive count, and its values sum to totalItems |
| Strings.Trim | grocetrack/server/middleware/authMiddleware.js:9 | The result is trimmed, no longer than the input, and empty exactly when the input is all white space |
| Strings.TrimIsInfix | grocetrack/server/middleware/authMiddleware.js:9 | The trimmed string is a contiguous slice of the input, and everything cut off before and after it is white space |
| Strings.TrimIdempotent | grocetrack/client/src/pages/Recipe.jsx:49 | Trimming twice equals trimming once |
| Strings.Split | grocetrack/client/src/pages/Recipe.jsx:50-51 | At least one piece, none containing the separator |
| Strings.JoinSplit | grocetrack/client/src/pages/Recipe.jsx:50-51 | Joining the pieces with the separator gives the input back |
| Strings.SplitJoin | grocetrack/client/src/pages/Recipe.jsx:336-338 | Splitting the join of separator-free pieces gives them back |
| Strings.Lowercase | grocetrack/server/models/user.model.js:14 | Same length, every letter lowercased |
| Strings.Take | grocetrack/client/src/pages/Recipe.jsx:163 | The prefix of length exactly min(n, length): the whole string when it is short enough, otherwise its first n characters |
| Seqs.Filter | grocetrack/client/src/pages/Dashboard.jsx:24 | Keeps exactly the elements satisfying the predicate |
| Seqs.FilterAppend | grocetrack/client/src/slices/grocerySlice.js:56 | Filtering distributes over concatenation, so order is kept |
| Seqs.FilterKeepsAll | grocetrack/client/src/slices/grocerySlice.js:56 | A filter rejecting nothing is the identity |
| Seqs.FilterAll | grocetrack/client/src/pages/Recipe.jsx:53 | A property of every element holds of every kept element |
| Seqs.FilterMembership | grocetrack/client/src/pages/Recipe.jsx:53 | A value is in the filtered sequence exactly when it is in the input and satisfies the predicate |
| Seqs.SortBy | grocetrack/client/src/pages/Dashboard.jsx:98-99 | Sorted by the key, and a permutation of the input |
| RecipePage.ParsedNames | grocetrack/client/src/pages/Recipe.jsx:50-53 | Every parsed name is non-empty, trimmed and comma-free, and a name is parsed exactly when it is a non-empty trimmed comma-separated piece of the text |
| RecipePage.ParsedNamesOfJoin | grocetrack/client/src/pages/Recipe.jsx:50-53 | Parsing the ", " join of clean, non-empty names gives them back |
| RecipePage.NamedOnly | grocetrack/client/src/pages/Recipe.jsx:52 | One `{ name }` object per name, in order, without a quantity |
| RecipePage.SubmittedRecipe | grocetrack/client/src/pages/Recipe.jsx:48-56 | Title, instructions and imageUrl trimmed; the ingredients are the parsed names |
| RecipePage.NamedOnlyAccepted | grocetrack/server/models/recipe.model.js:14-19 | Named-only ingredients with a title and instructions are stored with exactly those names |
| RecipePage.SubmittedRecipeIsAccepted | grocetrack/client/src/pages/Recipe.jsx:58-63 | What passes the page's check is accepted by the schema, storing the parsed names |
| RecipePage.RecipeForm.HandleSubmit | grocetrack/client/src/pages/Recipe.jsx:46-68 | With an empty trimmed title, no parsed ingredient or empty instructions nothing is sent and the form is kept; otherwise the recipe is sent and the form cleared |
| RecipePage.EditIngredients | grocetrack/client/src/pages/Recipe.jsx:336-338 | The comma pieces, trimmed, none dropped, with no quantities |
| RecipePage.EditRoundTrip | grocetrack/client/src/pages/Recipe.jsx:331-339 | Retyping the shown text gives back the same names; an empty list comes back as one empty name |
| RecipePage.UpdateDecision | grocetrack/client/src/pages/Recipe.jsx:71-93 | Sent exactly when imageUrl exists and title, first ingredient name and instructions are non-empty. Throws when imageUrl is missing, or when the title passes and there is no ingredient |
| RecipePage.UpdateChecksOnlyFirstIngredient | grocetrack/client/src/pages/Recipe.jsx:79-86 | With a named first ingredient, the list is sent and stored as it is, whatever the later names |
| RecipePage.RecipeEditor.Open | grocetrack/client/src/pages/Recipe.jsx:168 | The dialog holds the chosen recipe |
| RecipePage.RecipeEditor.OnIngredientsChange | grocetrack/client/src/pages/Recipe.jsx:333-339 | Only the ingredients change, rebuilt from the text |
| RecipePage.RecipeEditor.HandleUpdate | grocetrack/client/src/pages/Recipe.jsx:71-93 | The outcome is `UpdateDecision`; the dialog closes only on a send |
| RecipePage.SuggestedNames | grocetrack/client/src/pages/Recipe.jsx:249-254 | A missing list gives none; otherwise one name-only ingredient per entry, in order |
| RecipePage.SuggestionToRecipe | grocetrack/client/src/pages/Recipe.jsx:245-259 | Used then missed ingredients in order; instructions default to "No instructions available."; imageUrl is the image |
| RecipePage.SavedSuggestionAccepted | grocetrack/client/src/pages/Recipe.jsx:246-259 | A saved suggestion is accepted exactly when it has a title and no empty ingredient name |
| RecipePage.IngredientSummary | grocetrack/client/src/pages/Recipe.jsx:160-163 | A prefix of the ", " join: the whole join when it fits in 50 characters, otherwise exactly its first 50 |

## Left out

- Express routing, server start-up, the HTTP client, React rendering, toasts and logging. Every
  grocery, recipe, `/me` and profile handler is taken to run behind `protect`.
- The internals of `jwt.sign` and `jwt.verify` (RFC 7519 signatures and expiry), bcrypt, MongoDB
  and the external recipe search. They are function parameters.
- Asynchronous ordering and concurrent requests, for example a record deleted between the find
  and the update of one request.
- AuthMiddleware.Protect: a database error or an unparsable id in the user lookup, which the
  source answers with "token failed", is not modelled. The lookup always succeeds.
- AuthController.RegisterUser: the "Invalid user data" branch is not modelled because
  `User.create` either returns a document or throws.
- AuthController.RegisterUser: a body with no `email` field at all is not modelled. The
  source's `findOne({ email: undefined })` then matches any stored user and answers 400
  "User already exists", while the model reads the missing field as "" and answers 500 with
  the validation message.
- AuthController.LoginUser: fields missing from the JSON body (`undefined` rather than "")
  are not modelled. A missing email turns the lookup filter into `{}`, and a missing password
  makes bcrypt throw.
- UserController.UpdateUserProfile: this handler has the same limitation for missing body
  fields. A field is either "" or a string.
- GroceryController.UpdateGrocery: `null` values in an update body are not modelled, nor are
  casting errors for malformed ids, numbers or dates. A body field is either absent or a
  well-typed value.
- RecipeController.UpdateRecipe: the same limitation as `GroceryController.UpdateGrocery`.
- GroceryController.GetGroceries: the reply is a map keyed by id, so the store's natural
  order is not modelled.
- RecipeController.GetRecipes: the same simplification as `GroceryController.GetGroceries`.
- RecipeController.GetRecipesFromApi: a query string repeated into an array is not
  modelled. The API key is configuration and is not modelled.
- Dashboard.ExpiringSoonByDate: the sort is modelled on sequences. The in-place reordering of
  the filtered array is not modelled, and neither is the order of items with equal keys.
- Dashboard.LowStockByQuantity: the same simplification as `Dashboard.ExpiringSoonByDate`.
- Dashboard.TallyCategories: the keys are in insertion order. An integer-like category
  stored through an unvalidated update would come first in `Object.keys`, and that is not
  modelled.
- `Date` and floating-point arithmetic: instants are integer milliseconds, and the three-day
  test is the exact comparison.
- Strings.Lowercase: only ASCII letters are lowercased. Unicode case mapping is not modelled.
- Strings.Trim: the white-space set is fixed at ECMAScript's list.
- Strings.Take: JavaScript's `slice` counts UTF-16 code units, so a character outside the
  Basic Multilingual Plane counts twice there and can be cut in half. The model counts
  characters.
- UserModel.DuplicateKeyMessage: MongoDB's E11000 text names the collection as `<db>.users`.
  The database name comes from the connection string, so the model leaves it out.
- AuthMiddleware.Protect: `verify` is any function. `jwt.verify` always refuses an empty
  token, so the runs where a `verify` accepts "" do not occur in the source.
- The second `res.status(401)` on a bare "Bearer" header is recorded as an attempt. Whether
  Express then throws because headers were already sent is not modelled.
- The view-details dialog for suggestions, and the suggestion fetch the page triggers from the
  grocery names, are not modelled. They are rendering and wiring.
