/**
  The recipe list of the recipe book: the `Recipe` and `Ingredient` values
  and the service that owns the list, changes it in place and announces every
  change on its `recipesChanged` stream.
 */
module Recipes {
  import opened Wrappers

  datatype Ingredient = Ingredient(name: string, amount: int)

  /**
    A recipe. `ingredients` is absent when a recipe arrives from the remote
    store without that field; recipes built in the application always have it.
   */
  datatype Recipe = Recipe(name: string, description: string, imagePath: string, ingredients: Option<seq<Ingredient>>)

  /** The two recipes the service starts with. */
  const InitialRecipes: seq<Recipe> := [
    Recipe(
      "Burger King Burger",
      "Burger King -Burger only, nothing else matters",
      "https://assets3.thrillist.com/v1/image/2797371/size/tmg-article_default_mobile.jpg",
      Some([Ingredient("Meat", 1), Ingredient("Salad", 20), Ingredient("Buns", 2)])),
    Recipe(
      "Pizza",
      "Best pizza in Town!",
      "https://food-images.files.bbci.co.uk/food/recipes/quick_pepperoni_pizza_64616_16x9.jpg",
      Some([Ingredient("Flour", 1), Ingredient("Potato", 3), Ingredient("Bacon", 14)]))
  ]

  class RecipeService {
    /** The private recipe list. */
    var recipes: seq<Recipe>
    /** Every snapshot emitted on `recipesChanged`, oldest first. */
    var recipesChanged: seq<seq<Recipe>>

    constructor()
      ensures recipes == InitialRecipes && recipesChanged == []
      ensures |recipes| == 2 && recipes[0].name == "Burger King Burger" && recipes[1].name == "Pizza"
    {
      recipes := InitialRecipes;
      recipesChanged := [];
    }

    /** A copy of the whole list, in order; the list itself is not changed. */
    method GetRecipes() returns (r: seq<Recipe>)
      ensures |r| == |recipes|
      ensures forall i :: 0 <= i < |r| ==> r[i] == recipes[i]
    {
      r := recipes[..];
    }

    /** The recipe at `index`. */
    method GetRecipe(index: int) returns (r: Recipe)
      requires 0 <= index < |recipes|
      ensures r == recipes[index]
      ensures r in recipes
    {
      r := recipes[index];
    }

    /** Appends `recipe` and emits the new list once. */
    method AdRecipe(recipe: Recipe)
      modifies this
      ensures recipes == old(recipes) + [recipe]
      ensures |recipes| == |old(recipes)| + 1 && recipes[|recipes| - 1] == recipe
      ensures forall i :: 0 <= i < |old(recipes)| ==> recipes[i] == old(recipes)[i]
      ensures recipesChanged == old(recipesChanged) + [recipes]
    {
      recipes := recipes + [recipe];
      recipesChanged := recipesChanged + [recipes];
    }

    /** Replaces the recipe at `index` and emits the new list once; every other entry stays. */
    method UpdateRecipe(index: int, newRecipe: Recipe)
      requires 0 <= index < |recipes|
      modifies this
      ensures recipes == old(recipes)[index := newRecipe]
      ensures |recipes| == |old(recipes)| && recipes[index] == newRecipe
      ensures forall i :: 0 <= i < |recipes| && i != index ==> recipes[i] == old(recipes)[i]
      ensures recipesChanged == old(recipesChanged) + [recipes]
    {
      recipes := recipes[index := newRecipe];
      recipesChanged := recipesChanged + [recipes];
    }

    /** Removes the recipe at `index`, keeping the others in order, and emits the new list once. */
    method DeleteRecipe(index: int)
      requires 0 <= index < |recipes|
      modifies this
      ensures recipes == old(recipes)[..index] + old(recipes)[index + 1..]
      ensures |recipes| == |old(recipes)| - 1
      ensures forall i :: 0 <= i < index ==> recipes[i] == old(recipes)[i]
      ensures forall i :: index <= i < |recipes| ==> recipes[i] == old(recipes)[i + 1]
      ensures recipesChanged == old(recipesChanged) + [recipes]
    {
      recipes := recipes[..index] + recipes[index + 1..];
      recipesChanged := recipesChanged + [recipes];
    }
  }
}
