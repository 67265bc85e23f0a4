/**
 * The page that ties everything together: it owns the search mode, the
 * query, the applied filters, the results, the recipe shown in detail and
 * the favourites, and it drives the API client.
 */
module Index {
  import opened Builtins
  import opened Api
  import FilterBar
  import Favorites
  import SearchBar

  datatype SearchMode = RecipeMode | IngredientMode

  datatype ActiveView = SearchView | FavoritesView

  /** What the favourites entry of browser storage holds. */
  datatype StoredFavorites = NothingStored | Unparseable | Stored(list: seq<Recipe>)

  /** The answers the service would give to each kind of request, for one handler call. */
  datatype Network = Network(
    byIngredients: Reply<seq<Recipe>>,
    complexSearch: Reply<SearchResults>,
    information: Reply<RecipeDetail>)

  /** The filters the page starts with. */
  const DefaultFilters: FilterBar.Filters := FilterBar.NoFilters

  // ---------------------------------------------------------------------
  // Pure decisions
  // ---------------------------------------------------------------------

  /** The favourites the page holds after its load effect has run on `stored`. */
  function Loaded(stored: StoredFavorites): Favorites.Collection {
    if stored.Stored? then Favorites.Collection(stored.list, Favorites.MapOfList(stored.list))
    else Favorites.Empty
  }

  /**
   * A parsed list is taken as it is, with exactly its ids as keys and each
   * key on the last recipe carrying it; nothing or garbage in storage leaves
   * the favourites empty.
   */
  lemma LoadedFavorites(stored: StoredFavorites)
    ensures Favorites.Agree(Loaded(stored))
    ensures stored.Stored? ==> Loaded(stored).list == stored.list
    ensures Loaded(stored).byId.Keys == Favorites.IdSet(Loaded(stored).list)
    ensures !stored.Stored? ==> Loaded(stored) == Favorites.Empty
    ensures stored.Stored? ==> forall k :: 0 <= k < |stored.list| && Favorites.LastWithItsId(stored.list, k) ==>
              Loaded(stored).byId[stored.list[k].id] == stored.list[k]
  {
    if stored.Stored? {
      forall k | 0 <= k < |stored.list| && Favorites.LastWithItsId(stored.list, k)
        ensures Loaded(stored).byId[stored.list[k].id] == stored.list[k]
      {
        Favorites.MapOfListLastWins(stored.list, k);
      }
    } else {
      assert Favorites.MapOfList([]) == map[];
    }
  }

  /** Favourites written to storage and loaded on the next visit come back as they were. */
  lemma ReloadRestores(c: Favorites.Collection)
    requires Favorites.Agree(c)
    ensures Loaded(Stored(c.list)) == c
  {
  }

  /** `!apiKey || !query.trim()` is false: the search may go ahead. */
  predicate SearchAllowed(apiKey: Option<string>, query: string) {
    HasKey(apiKey) && !AllWhitespace(query)
  }

  /** Anything the search box emits gets past the page's query guard. */
  lemma {:induction false} SubmittedQueryAllowed(apiKey: Option<string>, typed: string)
    requires HasKey(apiKey) && SearchBar.Submission(typed).Some?
    ensures SearchAllowed(apiKey, SearchBar.Submission(typed).value)
  {
    var s := SearchBar.Submission(typed).value;
    assert !IsWhitespace(s[0]);
  }

  /**
   * The parameters of a recipe-mode search: the query, the filter's diet
   * and intolerances, its time limit unless it is unset or 0, and 12 results.
   */
  function RecipeSearchParams(query: string, f: FilterBar.Filters): SearchParams {
    SearchParams(
      ingredients := None,
      query := Some(query),
      diet := Some(f.diet),
      intolerances := Some(f.intolerances),
      maxReadyTime := if f.maxReadyTime.Some? && f.maxReadyTime.value != 0 then f.maxReadyTime else None,
      sort := None,
      sortDirection := None,
      number := Some(DefaultNumber),
      offset := None)
  }

  /** The one request a permitted search sends, by mode. */
  function SearchRequest(mode: SearchMode, query: string, f: FilterBar.Filters, apiKey: string): Request {
    match mode
    case IngredientMode => FindByIngredientsRequest(query, DefaultNumber, apiKey)
    case RecipeMode => ComplexSearchRequest(RecipeSearchParams(query, f), apiKey)
  }

  /** The recipes a search leaves on the page: the results, or none after a failure. */
  function SearchOutcome(mode: SearchMode, net: Network): seq<Recipe> {
    match mode
    case IngredientMode => Outcome(net.byIngredients, [])
    case RecipeMode => Outcome(net.complexSearch, NoResults).results
  }

  /** The client's error after a search, by mode. */
  function SearchError(mode: SearchMode, net: Network): Option<string> {
    match mode
    case IngredientMode => ErrorAfter(net.byIngredients)
    case RecipeMode => ErrorAfter(net.complexSearch)
  }

  /**
   * What a recipe-mode search asks the service for, parameter by parameter:
   * the query; the diet unless it is "any"; the intolerances joined by ','
   * unless there are none; the time limit unless it is unset or 0; 12
   * results; the key; and nothing else.
   */
  lemma RecipeSearchSends(query: string, f: FilterBar.Filters, apiKey: string)
    requires query != ""
    ensures var ps := ComplexSearchParams(RecipeSearchParams(query, f), apiKey);
            && Lookup(ps, Query) == Some(query)
            && (Lookup(ps, DietParam).Some? <==> f.diet != AnyDiet)
            && (f.diet != AnyDiet ==> Lookup(ps, DietParam) == Some(DietName(f.diet)))
            && (Lookup(ps, Intolerances).Some? <==> |f.intolerances| > 0)
            && (|f.intolerances| > 0 ==> Lookup(ps, Intolerances) == Some(Join(IntoleranceNames(f.intolerances), ',')))
            && (Lookup(ps, MaxReadyTime).Some? <==> f.maxReadyTime.Some? && f.maxReadyTime.value != 0)
            && (Lookup(ps, MaxReadyTime).Some? ==> Lookup(ps, MaxReadyTime) == Some(IntToString(f.maxReadyTime.value)))
            && Lookup(ps, Number) == Some(IntToString(DefaultNumber))
            && Lookup(ps, ApiKey) == Some(apiKey)
            && Lookup(ps, IncludeIngredients).None? && Lookup(ps, Sort).None?
            && Lookup(ps, SortDirection).None? && Lookup(ps, Offset).None?
            && Lookup(ps, Ingredients).None?
  {
    var p := RecipeSearchParams(query, f);
    ComplexSearchLookup(p, apiKey, Query);
    ComplexSearchLookup(p, apiKey, DietParam);
    ComplexSearchLookup(p, apiKey, Intolerances);
    ComplexSearchLookup(p, apiKey, MaxReadyTime);
    ComplexSearchLookup(p, apiKey, Number);
    ComplexSearchLookup(p, apiKey, ApiKey);
    ComplexSearchLookup(p, apiKey, IncludeIngredients);
    ComplexSearchLookup(p, apiKey, Sort);
    ComplexSearchLookup(p, apiKey, SortDirection);
    ComplexSearchLookup(p, apiKey, Offset);
    ComplexSearchLookup(p, apiKey, Ingredients);
  }

  /** An ingredient search sends the same request whatever the filters are. */
  lemma IngredientSearchIgnoresFilters(query: string, f: FilterBar.Filters, g: FilterBar.Filters, apiKey: string)
    ensures SearchRequest(IngredientMode, query, f, apiKey) == SearchRequest(IngredientMode, query, g, apiKey)
    ensures SearchRequest(IngredientMode, query, f, apiKey).params
              == [Param(Ingredients, query), Param(Number, IntToString(DefaultNumber)), Param(ApiKey, apiKey)]
  {
  }

  /** A filter change searches again exactly when a query is showing and the page is in recipe mode. */
  predicate ResearchesOnFilterChange(searchQuery: string, mode: SearchMode) {
    searchQuery != "" && mode == RecipeMode
  }

  // ---------------------------------------------------------------------
  // The page
  // ---------------------------------------------------------------------

  class RecipeFinder {
    /** The API client, created with the stored key. */
    const client: SpoonacularClient
    var searchMode: SearchMode
    var searchQuery: string
    var filters: FilterBar.Filters
    var recipes: seq<Recipe>
    var selectedRecipe: Option<RecipeDetail>
    var showRecipeDetail: bool
    var favorites: Favorites.Collection
    var activeView: ActiveView
    /** The favourites entry of browser storage. */
    var storage: StoredFavorites

    /**
     * The favourites list and map agree, storage holds the list, and a
     * query is only ever shown after it passed the search guard.
     */
    predicate Valid()
      reads this`favorites, this`storage, this`searchQuery
    {
      && Favorites.Agree(favorites) && storage == Stored(favorites.list)
      && (searchQuery == "" || !AllWhitespace(searchQuery))
    }

    /**
     * Mounting the page: initial state, then the load effect on what
     * storage holds, then the save effect writing the favourites back.
     */
    constructor (apiKey: Option<string>, stored: StoredFavorites)
      ensures Valid()
      ensures fresh(client) && client.apiKey == apiKey
      ensures !client.isLoading && client.error == None && client.sent == []
      ensures searchMode == RecipeMode && searchQuery == "" && filters == DefaultFilters
      ensures recipes == [] && selectedRecipe == None && !showRecipeDetail && activeView == SearchView
      ensures favorites == Loaded(stored)
    {
      client := new SpoonacularClient(apiKey);
      searchMode := RecipeMode;
      searchQuery := "";
      filters := DefaultFilters;
      recipes := [];
      selectedRecipe := None;
      showRecipeDetail := false;
      favorites := Favorites.Empty;
      activeView := SearchView;
      storage := stored;
      new;
      LoadFavorites();
      SaveFavorites();
      LoadedFavorites(stored);
    }

    /**
     * The load effect: a parsed list becomes the favourites, with the map
     * built entry by entry; nothing stored or a parse failure changes nothing.
     */
    method LoadFavorites()
      modifies this`favorites
      ensures storage.Stored? ==> favorites == Favorites.Collection(storage.list, Favorites.MapOfList(storage.list))
      ensures !storage.Stored? ==> favorites == old(favorites)
    {
      match storage {
        case Stored(parsed) =>
          var m := Favorites.BuildFavoritesMap(parsed);
          favorites := Favorites.Collection(parsed, m);
        case NothingStored =>
        case Unparseable =>
      }
    }

    /** The save effect: the list is written to storage. */
    method SaveFavorites()
      modifies this`storage
      ensures storage == Stored(favorites.list)
    {
      storage := Stored(favorites.list);
    }

    /** The guard of `handleSearch`: a key is present and the trimmed query is not empty. */
    method Permits(query: string) returns (allowed: bool)
      ensures allowed <==> SearchAllowed(client.apiKey, query)
    {
      allowed := HasKey(client.apiKey) && Trim(query) != "";
    }

    /** `handleSearch(query)` with the filters the calling closure sees. */
    method SearchWith(query: string, f: FilterBar.Filters, net: Network)
      requires Valid()
      modifies this`searchQuery, this`activeView, this`recipes, client`isLoading, client`error, client`sent
      ensures !SearchAllowed(client.apiKey, query) ==>
                && searchQuery == old(searchQuery) && activeView == old(activeView) && recipes == old(recipes)
                && client.isLoading == old(client.isLoading) && client.error == old(client.error)
                && client.sent == old(client.sent)
      ensures SearchAllowed(client.apiKey, query) ==>
                && searchQuery == query && activeView == SearchView
                && client.sent == old(client.sent) + [SearchRequest(searchMode, query, f, client.apiKey.value)]
                && recipes == SearchOutcome(searchMode, net)
                && client.error == SearchError(searchMode, net) && !client.isLoading
      ensures Valid()
    {
      var allowed := Permits(query);
      if !allowed {
        return;
      }
      searchQuery := query;
      activeView := SearchView;
      Fetch(query, f, net);
    }

    /** The `try` block of `handleSearch`: one request for the current mode, whose recipes replace the old ones. */
    method Fetch(query: string, f: FilterBar.Filters, net: Network)
      requires HasKey(client.apiKey)
      modifies this`recipes, client`isLoading, client`error, client`sent
      ensures client.sent == old(client.sent) + [SearchRequest(searchMode, query, f, client.apiKey.value)]
      ensures recipes == SearchOutcome(searchMode, net)
      ensures client.error == SearchError(searchMode, net) && !client.isLoading
    {
      if searchMode == IngredientMode {
        var data := client.SearchRecipesByIngredients(query, DefaultNumber, net.byIngredients);
        recipes := data;
      } else {
        var params := RecipeSearchParams(query, f);
        var data := client.SearchRecipes(params, net.complexSearch);
        recipes := data.results;
      }
    }

    /**
     * `handleSearch(query)`: refused without a key or with a blank query;
     * otherwise the query is shown, the results tab opens and one request
     * goes out for the current mode, whose recipes replace the old ones.
     */
    method HandleSearch(query: string, net: Network)
      requires Valid()
      modifies this`searchQuery, this`activeView, this`recipes, client`isLoading, client`error, client`sent
      ensures Valid()
      ensures !SearchAllowed(client.apiKey, query) ==>
                && searchQuery == old(searchQuery) && activeView == old(activeView) && recipes == old(recipes)
                && client.isLoading == old(client.isLoading) && client.error == old(client.error)
                && client.sent == old(client.sent)
      ensures SearchAllowed(client.apiKey, query) ==>
                && searchQuery == query && activeView == SearchView
                && client.sent == old(client.sent) + [SearchRequest(searchMode, query, filters, client.apiKey.value)]
                && recipes == SearchOutcome(searchMode, net)
                && client.error == SearchError(searchMode, net) && !client.isLoading
    {
      SearchWith(query, filters, net);
    }

    /**
     * `handleFilterChange(newFilters)`: the new filters are applied, and a
     * search runs again only with a query showing in recipe mode. That
     * search is made by the closure of the render before the change, so it
     * sends the filters that were applied before.
     */
    method HandleFilterChange(newFilters: FilterBar.Filters, net: Network)
      requires Valid()
      modifies this`filters, this`searchQuery, this`activeView, this`recipes, client`isLoading, client`error, client`sent
      ensures Valid()
      ensures filters == newFilters && searchQuery == old(searchQuery)
      ensures !(ResearchesOnFilterChange(old(searchQuery), searchMode) && HasKey(client.apiKey)) ==>
                && activeView == old(activeView) && recipes == old(recipes)
                && client.isLoading == old(client.isLoading) && client.error == old(client.error)
                && client.sent == old(client.sent)
      ensures ResearchesOnFilterChange(old(searchQuery), searchMode) && HasKey(client.apiKey) ==>
                && activeView == SearchView
                && client.sent == old(client.sent) + [SearchRequest(RecipeMode, searchQuery, old(filters), client.apiKey.value)]
                && recipes == SearchOutcome(RecipeMode, net)
                && client.error == SearchError(RecipeMode, net) && !client.isLoading
    {
      var captured := filters;
      filters := newFilters;
      if searchQuery != "" && searchMode == RecipeMode {
        SearchWith(searchQuery, captured, net);
      }
    }

    /**
     * `handleRecipeSelect(recipe)`: without a key nothing happens; otherwise
     * the details are fetched and the detail view opens only if they came back.
     */
    method HandleRecipeSelect(recipe: Recipe, net: Network)
      requires Valid()
      modifies this`selectedRecipe, this`showRecipeDetail, client`isLoading, client`error, client`sent
      ensures Valid()
      ensures !HasKey(client.apiKey) ==>
                && selectedRecipe == old(selectedRecipe) && showRecipeDetail == old(showRecipeDetail)
                && client.isLoading == old(client.isLoading) && client.error == old(client.error)
                && client.sent == old(client.sent)
      ensures HasKey(client.apiKey) ==>
                && client.sent == old(client.sent) + [InformationRequest(recipe.id, client.apiKey.value)]
                && client.error == ErrorAfter(net.information) && !client.isLoading
                && (net.information.Ok? ==> selectedRecipe == Some(net.information.payload) && showRecipeDetail)
                && (!net.information.Ok? ==> selectedRecipe == old(selectedRecipe) && showRecipeDetail == old(showRecipeDetail))
    {
      if !HasKey(client.apiKey) {
        return;
      }
      var detailed := client.GetRecipeDetail(recipe.id, net.information);
      if detailed.Some? {
        selectedRecipe := detailed;
        showRecipeDetail := true;
      }
    }

    /**
     * `handleFavoriteToggle(recipe)`: a mapped id is filtered out of the
     * list and deleted from the map; any other recipe is appended and mapped.
     * Storage follows.
     */
    method HandleFavoriteToggle(recipe: Recipe)
      requires Valid()
      modifies this`favorites, this`storage
      ensures Valid()
      ensures favorites == Favorites.Toggle(old(favorites), recipe)
    {
      if recipe.id in favorites.byId {
        var updatedFavorites := Favorites.Without(favorites.list, recipe.id);
        var updatedMap := favorites.byId - {recipe.id};
        favorites := Favorites.Collection(updatedFavorites, updatedMap);
      } else {
        var updatedFavorites := favorites.list + [recipe];
        var updatedMap := favorites.byId[recipe.id := recipe];
        favorites := Favorites.Collection(updatedFavorites, updatedMap);
      }
      Favorites.ToggleKeepsAgree(old(favorites), recipe);
      SaveFavorites();
    }

    /** `handleFavoriteRemove(id)`: filter the list, delete the key; storage follows. */
    method HandleFavoriteRemove(id: int)
      requires Valid()
      modifies this`favorites, this`storage
      ensures Valid()
      ensures favorites == Favorites.Remove(old(favorites), id)
    {
      var updatedFavorites := Favorites.Without(favorites.list, id);
      var updatedMap := favorites.byId - {id};
      favorites := Favorites.Collection(updatedFavorites, updatedMap);
      Favorites.RemoveKeepsAgree(old(favorites), id);
      SaveFavorites();
    }

    /** Switching between the recipe and ingredient tabs. */
    method SetSearchMode(mode: SearchMode)
      modifies this`searchMode
      ensures searchMode == mode
    {
      searchMode := mode;
    }

    /** Switching between the results and favourites tabs. */
    method SetActiveView(view: ActiveView)
      modifies this`activeView
      ensures activeView == view
    {
      activeView := view;
    }

    /** Closing the detail view keeps the selected recipe. */
    method CloseDetail()
      modifies this`showRecipeDetail
      ensures !showRecipeDetail
    {
      showRecipeDetail := false;
    }
  }
}
