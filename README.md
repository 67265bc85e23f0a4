# Foodie Find: a verified model of the recipe client's core

Foodie Find is a browser client for the Spoonacular recipe API. A user
stores an API key, searches by recipe name (with diet, intolerance and
time filters) or by ingredients, opens a recipe's details, and keeps a
list of favourite recipes in browser storage.

This project models the logic behind those screens in Dafny and proves
what it promises:

- `builtins.dfy` (module `Builtins`): the string and sequence operations
  the client relies on. These are `trim`, decimal `toString` and parsing,
  `join`/`split`, and filtering a value out of a list.
- `api.dfy` (module `Api`): the record types, the three requests the
  client builds and the complexSearch parameter list. It also holds the
  error policy and the `SpoonacularClient` class with its `isLoading`,
  `error` and sent-request state.
- `favorites.dfy` (module `Favorites`): the favourites collection. It is
  an insertion-ordered list paired with an id-to-recipe map. The module
  holds the loop that builds the map on load, toggle and remove, and the
  invariant that ties list and map.
- `filter_bar.dfy` (module `FilterBar`): the applied filters, the
  active-filter count, the removable badges, intolerance toggling and the
  popover's draft (`FilterEditor`).
- `search_bar.dfy` (module `SearchBar`): the search box, which emits only
  trimmed, non-blank queries.
- `api_key_input.dfy` (module `ApiKeyInput`): the key panel. Saving
  stores the trimmed key or nothing.
- `recipe_list.dfy` (module `RecipeList`): which of loading, error, empty
  or grid the result view shows, and which cards carry the favourite mark.
- `index.dfy` (module `Index`): the page (`RecipeFinder`). It holds the
  guards of its handlers, the choice of endpoint, the search parameters
  built from the filters, the re-search on a filter change, the detail
  view and favourites persistence.

The network is an input. Each handler receives the `Reply` the server
would give (a payload, a non-OK status, or a thrown value). The client
appends every request it makes to `sent`, so "no request" means `sent`
is unchanged.

JavaScript truthiness is written out:

- An empty key counts as no key.
- A `number`, `offset` or `maxReadyTime` of 0 is left out of a request.
- The empty diet is "any diet".
- An empty error string shows no error.

A filter change re-runs the search through the handler of the previous
render. That handler still sees the filters applied before the change, so
the re-search sends the old filters. `RecipeFinder.HandleFilterChange`
states it that way.

Where a handler updates state step by step, its method body follows
the source's statements. The function beside it (`Submission`,
`SavedKey`, `SearchAllowed`, `ToggleIntolerance`, `RemoveBadge`,
`Favorites.Toggle`) is the specification the method is proved against.
The lemmas about the behaviour are stated over that function.

Storage is written after every change of the favourites, including the
first render. After mounting, storage therefore always holds the current
list: an unparseable stored value is replaced by an empty list.

## Model

| member | source | states |
|---|---|---|
| Builtins.Trim | src/components/SearchBar.tsx:17 | `trim()` yields the infix after the leading whitespace, followed only by whitespace. It is empty exactly when the text is all whitespace; otherwise it starts and ends with non-whitespace |
| Builtins.IntRoundTrip | src/utils/api.ts:132-136 | an integer rendered with `toString()` reads back as the same integer |
| Builtins.SplitJoin | src/utils/api.ts:130-131 | a list of comma-free names joined with ',' splits back into the same list |
| Builtins.OmitMultiset | src/components/FilterBar.tsx:69 | filtering a value out removes every copy of it and nothing else (as multisets) |
| Builtins.OmitIsSubsequence | src/components/FilterBar.tsx:69 | filtering keeps the remaining values in their order |
| Builtins.OmitKeepsNoDuplicates | src/components/FilterBar.tsx:69 | filtering a duplicate-free list leaves it duplicate-free |
| Api.DietName | src/utils/api.ts:4 | only the "any" diet is spelled as the empty string |
| Api.IntoleranceName | src/utils/api.ts:5 | no intolerance name contains ',' |
| Api.KeyInjective | src/utils/api.ts:127-138 | two parameter names are spelled alike only if they are the same name |
| Api.FailureMessage | src/utils/api.ts:101-109 | non-OK status: "API Error: " plus a decimal that reads back as the status. Thrown Error: its message. Any other thrown value: 'An unknown error occurred' |
| Api.TextField | src/utils/api.ts:127-128 | a string parameter is appended exactly when it is set and non-empty, with its own value |
| Api.DietField | src/utils/api.ts:129 | `diet` is appended exactly when a diet other than "any" is set, with the diet's name |
| Api.NumberField | src/utils/api.ts:132 | a number parameter is appended exactly when it is set and not 0 |
| Api.NumberFieldRoundTrip | src/utils/api.ts:132-136 | the appended number text reads back as the number |
| Api.IntolerancesField | src/utils/api.ts:130-131 | `intolerances` is appended exactly when the list is set and non-empty |
| Api.IntolerancesFieldRoundTrip | src/utils/api.ts:130-131 | the ','-joined value splits back into the intolerance names |
| Api.BuildComplexSearchQuery | src/utils/api.ts:125-138 | the successive conditional appends produce exactly the reference parameter list, with the key last |
| Api.ComplexSearchMembers | src/utils/api.ts:125-138 | a name/value pair is in the complexSearch list exactly when that parameter is meant to carry that value |
| Api.ComplexSearchLookup | src/utils/api.ts:125-138 | reading any parameter of the complexSearch list gives the value it is meant to carry, and nothing for parameters that are unset or falsy |
| Api.ComplexSearchOrdered | src/utils/api.ts:125-138 | the list follows the fixed order query, includeIngredients, diet, intolerances, maxReadyTime, sort, sortDirection, number, offset, apiKey. Names strictly increase, so none repeats, and the key comes last |
| Api.SpoonacularClient.constructor | src/utils/api.ts:81-83 | a new client is not loading, has no error and has sent nothing |
| Api.SpoonacularClient.Begin | src/utils/api.ts:93-94 | a keyed call starts with loading on and the error cleared |
| Api.SpoonacularClient.Send | src/utils/api.ts:97-99 | a request is sent only while loading with no error, and is appended to the sent requests |
| Api.SpoonacularClient.Settle | src/utils/api.ts:101-112 | success returns the payload. A failure records its message and returns the empty value. Loading ends on every path |
| Api.SpoonacularClient.RefuseWithoutKey | src/utils/api.ts:88-91 | without a key the error becomes 'API key is required' |
| Api.SpoonacularClient.SearchRecipesByIngredients | src/utils/api.ts:87-113 | without a key: error set, [] returned, no request, loading untouched. With a key: one findByIngredients request (ingredients, number, key), then the payload or [] with the failure message, and loading off |
| Api.SpoonacularClient.SearchRecipes | src/utils/api.ts:115-154 | without a key: error set, empty results, no request, loading untouched. With a key: one complexSearch request with the reference parameters, then the payload or empty results with the failure message, and loading off |
| Api.SpoonacularClient.GetRecipeDetail | src/utils/api.ts:156-182 | without a key: error set, null, no request. With a key: one information request for the id, then the details or null with the failure message, and loading off |
| Favorites.MapOfList | src/pages/Index.tsx:55-58 | the map built from a list has exactly the list's ids as keys |
| Favorites.MapOfListLastWins | src/pages/Index.tsx:55-58 | each id maps to the last recipe in the list that carries it |
| Favorites.MapOfListDistinct | src/pages/Index.tsx:55-58 | with distinct ids, each recipe of the list is what its id maps to |
| Favorites.BuildFavoritesMap | src/pages/Index.tsx:55-58 | the `forEach` loop that assigns `map[recipe.id]` builds exactly that map |
| Favorites.WithoutMembers | src/pages/Index.tsx:124 | an entry is in the filtered list exactly when it was in the list and has another id |
| Favorites.WithoutMultiset | src/pages/Index.tsx:124 | filtering by id keeps every copy of each entry with another id and no copy of an entry with that id |
| Favorites.WithoutIsSubsequence | src/pages/Index.tsx:124 | the entries that remain keep their relative order |
| Favorites.MapOfListWithout | src/pages/Index.tsx:124-128 | filtering an id out of the list matches deleting that key from the map |
| Favorites.ToggleFlips | src/pages/Index.tsx:121-139 | a toggle flips whether the recipe's id is a favourite, in both the list and the map. A newly added id maps to the recipe |
| Favorites.ToggleKeepsAgree | src/pages/Index.tsx:121-139 | toggling keeps list and map in agreement |
| Favorites.ToggleTwiceRestores | src/pages/Index.tsx:121-139 | toggling an absent recipe twice restores the list and the map exactly |
| Favorites.RemoveKeepsOthers | src/pages/Index.tsx:141-148 | a removal keeps every other id and its recipe. It leaves a subsequence of the list without the removed id |
| Favorites.RemoveKeepsAgree | src/pages/Index.tsx:141-148 | removal keeps list and map in agreement |
| Favorites.RemoveAbsent | src/pages/Index.tsx:141-148 | removing an id that is not present changes nothing |
| Favorites.ConsistentIsAgreeWithDistinctIds | src/pages/Index.tsx:121-148 | "the keys are the list's ids, the ids are distinct, each id maps to its recipe" is the same as agreement plus distinct ids |
| Favorites.ToggleKeepsConsistent | src/pages/Index.tsx:121-139 | toggling preserves keys = list ids with distinct ids |
| Favorites.RemoveKeepsConsistent | src/pages/Index.tsx:141-148 | removal preserves keys = list ids with distinct ids |
| FilterBar.CountIsBadgeCount | src/components/FilterBar.tsx:57-60 | the count on the filter button equals the number of badges shown: one for a diet, one per intolerance, one for a time limit |
| FilterBar.CountZero | src/components/FilterBar.tsx:57-60 | the count is 0 exactly when no diet, no intolerance and no time limit is in effect |
| FilterBar.ToggleIntoleranceMembers | src/components/FilterBar.tsx:67-74 | the toggled intolerance changes membership and every other keeps it |
| FilterBar.ToggleIntoleranceMultiset | src/components/FilterBar.tsx:67-74 | a present value loses every copy; an absent value is added exactly once |
| FilterBar.ToggleIntoleranceTwice | src/components/FilterBar.tsx:67-74 | toggling an absent intolerance twice gives the list back |
| FilterBar.ToggleIntoleranceKeepsNoDuplicates | src/components/FilterBar.tsx:67-74 | toggling never introduces a duplicate intolerance |
| FilterBar.RemoveDietBadge | src/components/FilterBar.tsx:204-208 | removing the diet badge takes exactly that badge off the row |
| FilterBar.RemoveIntoleranceBadge | src/components/FilterBar.tsx:224-230 | removing an intolerance badge takes exactly that badge off the row |
| FilterBar.RemoveTimeBadge | src/components/FilterBar.tsx:246-249 | removing the time badge takes exactly that badge off the row |
| FilterBar.RemoveShownBadge | src/components/FilterBar.tsx:196-255 | removing any shown badge takes exactly it off the row and lowers the count by one |
| FilterBar.FilterEditor.constructor | src/components/FilterBar.tsx:55 | the draft starts as the applied filters |
| FilterBar.FilterEditor.ChangeDiet | src/components/FilterBar.tsx:62-65 | only the draft's diet changes, and nothing is sent |
| FilterBar.FilterEditor.ChangeIntolerance | src/components/FilterBar.tsx:67-74 | only the draft's intolerances change, by a toggle, and nothing is sent |
| FilterBar.FilterEditor.ChangeTime | src/components/FilterBar.tsx:76-79 | only the draft's time limit changes, and nothing is sent |
| FilterBar.FilterEditor.Apply | src/components/FilterBar.tsx:81-83 | the page receives the draft unchanged |
| FilterBar.FilterEditor.Clear | src/components/FilterBar.tsx:85-93 | the draft and the page both get no diet, no intolerances, no time limit |
| FilterBar.FilterEditor.RemoveBadgeOf | src/components/FilterBar.tsx:204-249 | a badge's button computes the new filters from the applied ones (diet to any, one intolerance filtered out, or time limit to null), sends them, and copies them into the draft |
| SearchBar.Submission | src/components/SearchBar.tsx:16-20 | a submit emits nothing for blank text, and otherwise the trimmed text, which is non-empty with no whitespace at its ends |
| SearchBar.SubmissionStable | src/components/SearchBar.tsx:16-20 | submitting an emitted query again emits it unchanged |
| SearchBar.SearchBox.constructor | src/components/SearchBar.tsx:13 | the box starts empty |
| SearchBar.SearchBox.Change | src/components/SearchBar.tsx:52 | typing replaces the text |
| SearchBar.SearchBox.Clear | src/components/SearchBar.tsx:22-27 | clearing empties the text |
| SearchBar.SearchBox.Search | src/components/SearchBar.tsx:16-20 | the button emits the trimmed text exactly when it is not blank, and leaves the text as it was |
| SearchBar.SearchBox.KeyDown | src/components/SearchBar.tsx:29-33 | Enter does what the button does; any other key emits nothing |
| ApiKeyInput.SavedKey | src/components/ApiKeyInput.tsx:15-17 | saving stores the trimmed draft, or null exactly when the draft is blank. A stored key is always a usable (non-empty) key |
| ApiKeyInput.InitialDraft | src/components/ApiKeyInput.tsx:12 | the draft starts as the stored key, or '' when no usable key is stored |
| ApiKeyInput.SaveAfterReloadKeepsKey | src/components/ApiKeyInput.tsx:11-17 | reopening the panel on a saved key and saving again stores the same key |
| ApiKeyInput.ApiKeyPanel.constructor | src/components/ApiKeyInput.tsx:11-13 | the panel shows the stored key (or ''), hidden |
| ApiKeyInput.ApiKeyPanel.Edit | src/components/ApiKeyInput.tsx:55 | typing changes only the draft |
| ApiKeyInput.ApiKeyPanel.Save | src/components/ApiKeyInput.tsx:15-17 | the stored key becomes the trimmed draft, or null when it is blank. Nothing else changes |
| ApiKeyInput.ApiKeyPanel.Clear | src/components/ApiKeyInput.tsx:19-22 | the draft becomes '' and the stored key null |
| ApiKeyInput.ApiKeyPanel.ToggleShow | src/components/ApiKeyInput.tsx:62 | show/hide flips and nothing else changes |
| RecipeList.Render | src/components/RecipeList.tsx:62-86 | loading wins over everything; then a non-empty error; then the empty state exactly for no recipes. Otherwise one card per recipe in order, marked exactly when its id is a favourite id |
| RecipeList.MarksDependOnIdSetOnly | src/components/RecipeList.tsx:80 | the marks depend only on which ids are favourites, not on their order or repetition |
| RecipeList.MarksFollowCollection | src/pages/Index.tsx:265-272 | rendered with the favourites map's keys, a card is marked exactly when its recipe's id is in the favourites list |
| RecipeList.FavoritesTabAllMarked | src/pages/Index.tsx:276-284 | the favourites tab shows one card per favourite, all marked |
| Index.LoadedFavorites | src/pages/Index.tsx:47-64 | a parsed list is taken as is, with exactly its ids as keys, each on the last recipe carrying it. Nothing stored or unparseable data leaves the favourites empty, and list and map agree |
| Index.ReloadRestores | src/pages/Index.tsx:47-69 | favourites whose list and map agree, once saved and loaded again, come back as the same list and map |
| Index.SubmittedQueryAllowed | src/pages/Index.tsx:72 | with a key, every query the search box emits passes the page's guard |
| Index.RecipeSearchSends | src/pages/Index.tsx:82-91 | a recipe search sends the query; the diet unless it is "any"; the intolerances joined by ',' unless there are none; the time limit unless it is null or 0; number=12; the key; and no other parameter |
| Index.IngredientSearchIgnoresFilters | src/pages/Index.tsx:78-80 | an ingredient search sends the same request whatever the filters: the text, number=12 and the key |
| Index.RecipeFinder.constructor | src/pages/Index.tsx:26-69 | mounting starts in recipe mode with no query, default filters, no results and no detail. The favourites are what the load effect produces, and storage holds their list |
| Index.RecipeFinder.LoadFavorites | src/pages/Index.tsx:47-64 | a parsed list becomes the favourites with the map built by the loop. Nothing stored or a parse failure changes nothing |
| Index.RecipeFinder.SaveFavorites | src/pages/Index.tsx:67-69 | storage holds the current favourites list |
| Index.RecipeFinder.Permits | src/pages/Index.tsx:72 | the guard passes exactly with a key and a query that is not blank after trimming |
| Index.RecipeFinder.SearchWith | src/pages/Index.tsx:71-96 | refused: nothing changes and no request goes out. Permitted: the query is shown, the results tab opens, and exactly one request for the current mode goes out with the given filters. Its recipes (or none after a failure) replace the old ones |
| Index.RecipeFinder.Fetch | src/pages/Index.tsx:77-92 | ingredient mode sends findByIngredients; recipe mode sends complexSearch built from the filters; the recipes and the client error follow the reply |
| Index.RecipeFinder.HandleSearch | src/pages/Index.tsx:71-96 | as `SearchWith` with the applied filters. The favourites invariant is kept |
| Index.RecipeFinder.HandleFilterChange | src/pages/Index.tsx:98-105 | the new filters are applied. A search runs again exactly when a query is showing, the mode is recipe and a key is present, and that search sends the filters applied before the change |
| Index.RecipeFinder.HandleRecipeSelect | src/pages/Index.tsx:107-119 | without a key nothing happens. With a key, one information request goes out, and the detail view opens with the details exactly when they came back |
| Index.RecipeFinder.HandleFavoriteToggle | src/pages/Index.tsx:121-139 | the favourites become the toggle of the recipe; list and map agree and storage follows |
| Index.RecipeFinder.HandleFavoriteRemove | src/pages/Index.tsx:141-148 | the favourites lose the id; list and map agree and storage follows |
| Index.RecipeFinder.SetSearchMode | src/pages/Index.tsx:210 | the mode tab sets the search mode |
| Index.RecipeFinder.SetActiveView | src/pages/Index.tsx:246 | the results/favourites tab sets the active view |
| Index.RecipeFinder.CloseDetail | src/pages/Index.tsx:305 | closing the detail view hides it |

## Left out

- Rendering: all markup, `RecipeCard`, `RecipeDetail`, `FavoritesList` (including its mobile/desktop drawer and the recipe instructions inserted as HTML), and the page layout apart from the tab handlers. These are presentation.
- HTTP and JSON: `fetch` and `response.json()` are replaced by the `Reply` input. A JSON value that parses but is not a list of recipes (for example `null`) is not modelled. In the page it would make the load effect throw after `setFavorites`.
- URL percent-encoding (`encodeURIComponent`, `URLSearchParams` serialisation as in section 5.2 of the WHATWG URL Standard): requests are kept as an endpoint and an ordered list of name/value pairs.
- JavaScript numbers are doubles; the model uses unbounded integers for recipe ids, statuses, `number`, `offset` and `maxReadyTime`. Fractions, NaN, -0 and the exponent form `toString` uses from 10^21 up are not modelled. Every value the page passes (12, 15/30/60, HTTP statuses, recipe ids) is a small integer.
- Browser storage and the `useLocalStorage` hook are plain fields. The page's key is the client's `apiKey`. Propagation of a key saved in `ApiKeyInput` to the page's own copy of the hook is not modelled.
- Async interleaving and React's deferred state updates: each handler runs to completion. Overlapping calls, and stale results landing after newer ones, are out of scope. The only deferred effect modelled is the one that decides an outcome: the stale filters seen by the re-search on a filter change.
- Focus handling in the search box (`inputRef.focus()`), the placeholder-change effect and console logging have no state to model.
- The page does not hold the `FilterEditor` instance. The popover's draft is re-created from the applied filters when the filter bar remounts, and it reaches the page only through `onFilterChange`.
- FilterBar.RemoveShownBadge and FilterBar.RemoveIntoleranceBadge: they require duplicate-free applied intolerances, which holds for every list built through the popover (`ToggleIntoleranceKeepsNoDuplicates`). With duplicates, one remove button takes off every copy.
- RecipeList.Render: the loading skeleton and the error text fallback are not modelled; the fallback is never shown, because an error is displayed only when it is a non-empty string.
- Recipe fields that only the views display (nutrition, instructions, summaries) are carried as opaque values.
