# Recipe book: authentication effects, session validity and the recipe store

This project models, in Dafny, the parts of the Angular recipe-book
application that compute something rather than wire up UI:

- **Authentication effects** (`AuthEffects`): the mapping of a Firebase
  Identity Toolkit error response to one of four user messages, the handling
  of a successful signup or login (an expiration `now + expiresIn*1000`, the
  user saved under the storage key `userData`, the logout timer armed for the
  same lifetime), the restore-on-start decision of `autoLogin` and the logout
  effect. Browser storage is the field `userData: Option<StoredUser>` of the
  class `AuthState`; the calls made on the logout timer are the log
  `timerCalls`. The clock is an integer parameter `now` in milliseconds.
- **Session validity** (`UserModel`): the `token` getter of `User`, a pure
  function of the record and the clock. The token stays valid at the
  expiration instant itself and lapses strictly after it.
- **Recipe store** (`Recipes`): the `RecipeService` class whose private list
  is appended to, overwritten at an index and spliced, each change emitting
  one snapshot of the new list on `recipesChanged` (modelled as the log of
  emitted snapshots).
- **Recipe normalisation** (`DataStorage`): the map applied to fetched
  recipes that gives a recipe without `ingredients` the empty list and copies
  every other field.

Three points of the session handling are easy to misread, and the model
follows what the code does:

- The token is still valid at the expiration instant: the getter in
  `src/app/auth/user.model.ts:16` returns null only when `now` is strictly
  later than the expiration (`UserModel.User.Token`).
- Restoring a session makes no timer call: the `tap(...)` at
  `src/app/auth/store/auth.effects.ts:160-162` builds an operator that is
  never subscribed. `AuthState.AutoLogin` has no `modifies` clause, so it
  cannot touch the timer log or storage.
- A stored empty token gives the no-op on restore: the test at
  `src/app/auth/store/auth.effects.ts:156` is on the truthiness of the
  getter's result, and the empty string is falsy (`AuthEffects.Restore`).

## Model

| member | source | states |
|---|---|---|
| `UserModel.User.Token` | src/app/auth/user.model.ts:15-20 | the getter returns a token exactly when an expiration is set and `now` is at or before it (equality is still valid), and then it is the stored token; no expiration or a later `now` gives null |
| `UserModel.TokenExpiryIsPermanent` | src/app/auth/user.model.ts:16 | a token that is null at time t is null at every t' >= t |
| `UserModel.TokenValidityIsDownwardClosed` | src/app/auth/user.model.ts:16-19 | a token returned at time t is returned, unchanged, at every earlier t' |
| `AuthEffects.HandleError` | src/app/auth/store/auth.effects.ts:40-61 | the result is always a failure; a missing `error` or `error.error` gives the unknown-error message; each of EMAIL_EXISTS, EMAIL_NOT_FOUND, INVALID_PASSWORD gives its own message and is the only code that does (both directions); every other code, or none, gives the unknown-error message |
| `AuthEffects.Restore` | src/app/auth/store/auth.effects.ts:142-173 | no record gives DUMMY; the result is never a failure; it is AuthenticateSuccess exactly when a record exists, `now` is at or before its expiration and its token is non-empty, and then it carries the record's e-mail, id, token and expiration |
| `AuthEffects.RestoreAfterAuthentication` | src/app/auth/store/auth.effects.ts:143-168 | round trip: the record an authentication writes, restored at any `now` up to its expiration, gives AuthenticateSuccess with the same e-mail, user id, token and expiration the authentication returned |
| `AuthEffects.RestoreAfterExpiration` | src/app/auth/store/auth.effects.ts:156-172 | once `now` is past a record's expiration, restore gives DUMMY |
| `AuthEffects.AuthState.HandleAuthentication` | src/app/auth/store/auth.effects.ts:24-39 | storage then holds a record with the given e-mail, id, token and expiration `now + expiresIn*1000`; the returned AuthenticateSuccess carries the same four values; the timer log is unchanged |
| `AuthEffects.AuthState.CompleteAuthRequest` | src/app/auth/store/auth.effects.ts:81-96 | on a reply: exactly one timer call is recorded, for `expiresIn*1000`, which equals the returned expiration minus `now`, and storage and the action are those of HandleAuthentication; on an error response: the action is HandleError's and neither storage nor the timer log changes (the login pipeline at lines 112-127 is the same) |
| `AuthEffects.AuthState.AutoLogin` | src/app/auth/store/auth.effects.ts:139-174 | the dispatched action is Restore of the stored record at `now`; storage and the timer log are unchanged (an expired record stays); on success the computed remaining duration is the expiration minus `now` and is never negative |
| `AuthEffects.AuthState.Logout` | src/app/auth/store/auth.effects.ts:176-184 | the stored record is absent afterwards whatever the state before, so a second logout leaves storage as the first did; exactly one clear-timer call is recorded |
| `Recipes.RecipeService.constructor` | src/app/recipes/recipe.service.ts:10-34 | the list is exactly the two initial recipes, 'Burger King Burger' then 'Pizza', and nothing has been emitted |
| `Recipes.RecipeService.GetRecipes` | src/app/recipes/recipe.service.ts:38-40 | the result has the list's length and the list's entries in order; the list is not changed |
| `Recipes.RecipeService.GetRecipe` | src/app/recipes/recipe.service.ts:42-44 | for an index in range, the result is the entry at that index |
| `Recipes.RecipeService.AdRecipe` | src/app/recipes/recipe.service.ts:50-53 | the new list is the old list followed by the recipe; earlier entries are unchanged; exactly one snapshot, equal to the new list, is emitted |
| `Recipes.RecipeService.UpdateRecipe` | src/app/recipes/recipe.service.ts:55-58 | for an index in range only that position changes, to the new recipe; the length and every other entry stay; exactly one snapshot, equal to the new list, is emitted |
| `Recipes.RecipeService.DeleteRecipe` | src/app/recipes/recipe.service.ts:60-63 | for an index in range the new list is `old[..i] + old[i+1..]`: one shorter, entries before i in place, entries after it shifted down by one; exactly one snapshot, equal to the new list, is emitted |
| `DataStorage.NormaliseRecipe` | src/app/shared/data-storage.service.ts:25-28 | name, description and image path are copied; present ingredients are kept unchanged; absent ingredients become the empty list |
| `DataStorage.NormaliseRecipes` | src/app/shared/data-storage.service.ts:24-29 | the output has the input's length and its i-th recipe is the normalised i-th input recipe; every output recipe has its ingredients present |
| `DataStorage.NormaliseRecipeFixesComplete` | src/app/shared/data-storage.service.ts:27 | a recipe that has its ingredients is returned unchanged |
| `DataStorage.NormaliseRecipesIdempotent` | src/app/shared/data-storage.service.ts:23-29 | normalising twice gives the same list as normalising once |

## Left out

- The HTTP POSTs of signup and login, all of `src/app/auth/auth.service.ts`, and the Firebase PUT and GET of `storeRecipes`/`fetchRecipes`: network I/O. Only what is computed from a received reply or error response is modelled (`AuthReply`, `ErrorResponse`).
- The reactive-stream operators (`switchMap` cancelling an earlier request, `tap`, `map`, `catchError`, `of`): asynchronous stream semantics. Each effect is one sequential call.
- Router navigation after authentication and on logout: UI.
- `setLogoutTimer` and `clearLogoutTimer`: they are called at `src/app/auth/store/auth.effects.ts:83`, `:114` and `:180`, but `src/app/auth/auth.service.ts` defines only `signup`, so neither is declared there. Their calls are recorded in `timerCalls` and have no further meaning here.
- A failure inside `handleAuthentication`, such as `localStorage.setItem` refusing the write: `catchError` surrounds both the timer call and `handleAuthentication`, so the source then dispatches `AuthenticateFail('An unknown error occurred')` after `setLogoutTimer` has already been called. The model's storage write always succeeds, so `AuthState.CompleteAuthRequest` has no such path.
- A fetched body of `null` (the remote store holds no recipes) or a `null` entry in it: `recipes.map` or `recipe.ingredients` then throws a TypeError in the source. `DataStorage.NormaliseRecipes` takes a sequence of recipes, which cannot express either case.
- `JSON.stringify`/`JSON.parse` of the stored record: storage holds the record as a value. A corrupt record, which makes `JSON.parse` throw, is not modelled.
- `new Date()` and date arithmetic: instants are integer milliseconds; invalid dates (NaN) are not modelled.
- `AuthEffects.Restore`: takes one clock reading `now`, while the `autoLogin` body reads the clock three times: through the `token` getter in the test at `src/app/auth/store/auth.effects.ts:156` (`src/app/auth/user.model.ts:16`), with `new Date()` at `:159`, and through the getter again at `:166` (`token: loadedUser.token`). If the clock passes the expiration between `:156` and `:166`, the source dispatches `AuthenticateSuccess` with a `null` token; the model's successful restore always carries the record's token.
- `AuthEffects.AuthState.AutoLogin`: its remaining duration is computed from the same single `now`, so its `expirationDuration >= 0` does not show that the source's duration at `:157-159` is negative when the clock passes the expiration between `:156` and `:159`.
- `+resData.expiresIn` is taken as a natural number of seconds; string-to-number coercion and fractional seconds are not modelled.
- The truthiness of an error body that is a string or a progress event is not modelled separately: such a body has no nested `error` object, which `ErrorBody` with `error` absent covers.
- Out-of-range and negative indices in `getRecipe`, `updateRecipe` and `deleteRecipe` (JavaScript returns `undefined`, grows the array or splices from the end): the methods require an index in range.
- `addIngredientToShoppingList`: it only delegates to a shopping-list service that is not part of this model.
- `setRecipes`, called after normalisation in `fetchRecipes`, is not part of this model (`src/app/recipes/recipe.service.ts` does not define it).
- Recipes are values: the source hands out references to the same mutable recipe objects, so aliasing between `getRecipe`'s result and the list is not captured.
- Fields of a fetched recipe beyond name, description, image path and ingredients: the object spread would copy them, the model's `Recipe` has no room for them.
- `src/app/app.module.ts`: dependency-injection wiring.
