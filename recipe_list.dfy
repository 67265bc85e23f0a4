/**
 * The results view: which of its four states it shows for the current
 * loading flag, error and recipes, and which cards carry the favourite mark.
 */
module RecipeList {
  import opened Builtins
  import opened Api
  import Favorites

  /** One recipe card and whether its heart is filled. */
  datatype Card = Card(recipe: Recipe, isFavorite: bool)

  /** What the view shows. */
  datatype Shown = LoadingState | ErrorState(message: string) | EmptyState | Grid(cards: seq<Card>)

  /** An error is shown only when it is a non-empty string (`""` is falsy). */
  predicate HasError(error: Option<string>) {
    error.Some? && error.value != ""
  }

  /**
   * The view for the given inputs. Loading wins over an error, an error
   * wins over an empty list, and otherwise there is one card per recipe, in
   * order, marked exactly when the recipe's id is among the favourite ids.
   */
  function Render(recipes: seq<Recipe>, favorites: seq<int>, isLoading: bool, error: Option<string>): (v: Shown)
    ensures v.LoadingState? <==> isLoading
    ensures v.ErrorState? <==> !isLoading && HasError(error)
    ensures v.ErrorState? ==> v.message == error.value
    ensures v.EmptyState? <==> !isLoading && !HasError(error) && |recipes| == 0
    ensures v.Grid? <==> !isLoading && !HasError(error) && |recipes| > 0
    ensures v.Grid? ==> |v.cards| == |recipes|
    ensures v.Grid? ==> forall k :: 0 <= k < |v.cards| ==>
              v.cards[k].recipe == recipes[k] && (v.cards[k].isFavorite <==> recipes[k].id in favorites)
  {
    if isLoading then LoadingState
    else if HasError(error) then ErrorState(error.value)
    else if |recipes| == 0 then EmptyState
    else Grid(seq(|recipes|, k requires 0 <= k < |recipes| => Card(recipes[k], recipes[k].id in favorites)))
  }

  /** The marks depend only on which ids are favourites, not on their order or repeats. */
  lemma MarksDependOnIdSetOnly(recipes: seq<Recipe>, a: seq<int>, b: seq<int>, isLoading: bool, error: Option<string>)
    requires (set x | x in a) == (set x | x in b)
    ensures Render(recipes, a, isLoading, error) == Render(recipes, b, isLoading, error)
  {
    var va := Render(recipes, a, isLoading, error);
    var vb := Render(recipes, b, isLoading, error);
    if va.Grid? {
      var sa, sb := set x | x in a, set x | x in b;
      forall k | 0 <= k < |recipes|
        ensures va.cards[k] == vb.cards[k]
      {
        var id := recipes[k].id;
        assert id in a <==> id in sa;
        assert id in b <==> id in sb;
      }
    }
  }

  /**
   * Cards rendered with the ids of a favourites collection whose map and
   * list agree are marked exactly when the recipe is in the saved list.
   */
  lemma MarksFollowCollection(recipes: seq<Recipe>, c: Favorites.Collection, ids: seq<int>)
    requires Favorites.Agree(c)
    requires (set x | x in ids) == c.byId.Keys
    requires |recipes| > 0
    ensures var v := Render(recipes, ids, false, None);
            v.Grid? && forall k :: 0 <= k < |recipes| ==>
              (v.cards[k].isFavorite <==> recipes[k].id in Favorites.IdSet(c.list))
  {
    var v := Render(recipes, ids, false, None);
    forall k | 0 <= k < |recipes|
      ensures v.cards[k].isFavorite <==> recipes[k].id in Favorites.IdSet(c.list)
    {
      assert recipes[k].id in ids <==> recipes[k].id in (set x | x in ids);
    }
  }

  /** The favourites tab lists the saved recipes themselves, so every card there is marked. */
  lemma FavoritesTabAllMarked(c: Favorites.Collection, ids: seq<int>)
    requires Favorites.Agree(c)
    requires (set x | x in ids) == c.byId.Keys
    requires |c.list| > 0
    ensures var v := Render(c.list, ids, false, None);
            v.Grid? && |v.cards| == |c.list| && forall k :: 0 <= k < |v.cards| ==> v.cards[k].isFavorite
  {
    MarksFollowCollection(c.list, c, ids);
    var v := Render(c.list, ids, false, None);
    forall k | 0 <= k < |v.cards|
      ensures v.cards[k].isFavorite
    {
      assert c.list[k].id in Favorites.IdSet(c.list);
    }
  }
}
