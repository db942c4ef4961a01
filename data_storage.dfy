/**
  The transformation the data-storage service applies to recipes fetched from
  the remote store: a recipe saved without ingredients comes back without the
  field, and is given an empty ingredient list. The HTTP exchange itself is not
  modelled.
 */
module DataStorage {
  import opened Wrappers
  import opened Recipes

  /** One recipe: every field copied, `ingredients` defaulted to the empty list when absent. */
  function NormaliseRecipe(recipe: Recipe): (r: Recipe)
    ensures r.name == recipe.name && r.description == recipe.description && r.imagePath == recipe.imagePath
    ensures recipe.ingredients.Some? ==> r.ingredients == recipe.ingredients
    ensures recipe.ingredients.None? ==> r.ingredients == Some([])
  {
    recipe.(ingredients := if recipe.ingredients.Some? then recipe.ingredients else Some([]))
  }

  /** The whole fetched list, recipe by recipe, in the same order. */
  function NormaliseRecipes(recipes: seq<Recipe>): (r: seq<Recipe>)
    ensures |r| == |recipes|
    ensures forall i :: 0 <= i < |recipes| ==> r[i] == NormaliseRecipe(recipes[i])
    ensures forall i :: 0 <= i < |r| ==> r[i].ingredients.Some?
  {
    if recipes == [] then [] else [NormaliseRecipe(recipes[0])] + NormaliseRecipes(recipes[1..])
  }

  /** A recipe that already has its ingredients is left exactly as it is. */
  lemma NormaliseRecipeFixesComplete(recipe: Recipe)
    requires recipe.ingredients.Some?
    ensures NormaliseRecipe(recipe) == recipe
  {
  }

  /** Normalising an already normalised list changes nothing. */
  lemma NormaliseRecipesIdempotent(recipes: seq<Recipe>)
    ensures NormaliseRecipes(NormaliseRecipes(recipes)) == NormaliseRecipes(recipes)
  {
  }
}
