/**
 * The client for the external recipe API (src/utils/api.ts): the record
 * types the API returns, the three requests the client issues, the fixed
 * error policy and the `isLoading`/`error` state shared by all calls.
 *
 * The network is an input: for each call the model receives the `Reply`
 * the server would give (a payload, a non-OK status, or a thrown value)
 * and records the request it issued in `sent`. URLs are kept as an
 * endpoint plus an ordered list of name/value pairs, before percent-encoding.
 */
module Api {
  import opened Builtins

  const BaseUrl: string := "https://api.spoonacular.com"
  const KeyRequired: string := "API key is required"
  const UnknownError: string := "An unknown error occurred"
  const StatusPrefix: string := "API Error: "
  /** The default page size of `searchRecipesByIngredients`. */
  const DefaultNumber: int := 12

  // ---------------------------------------------------------------------
  // Enumerations and records
  // ---------------------------------------------------------------------

  datatype Diet = AnyDiet | Vegetarian | Vegan | GlutenFree | Ketogenic | Pescetarian | Paleo

  /** The string the API expects; `AnyDiet` is the empty string ''. */
  function DietName(d: Diet): (s: string)
    ensures s == "" <==> d == AnyDiet
  {
    match d
    case AnyDiet => ""
    case Vegetarian => "vegetarian"
    case Vegan => "vegan"
    case GlutenFree => "gluten free"
    case Ketogenic => "ketogenic"
    case Pescetarian => "pescetarian"
    case Paleo => "paleo"
  }

  /** `NoIntolerance` is the '' member of the source's union type. */
  datatype Intolerance =
    | Dairy | Egg | Gluten | Grain | Peanut | Seafood | Sesame | Shellfish
    | Soy | Sulfite | TreeNut | Wheat | NoIntolerance

  function IntoleranceName(i: Intolerance): (s: string)
    ensures ',' !in s
  {
    match i
    case Dairy => "dairy"
    case Egg => "egg"
    case Gluten => "gluten"
    case Grain => "grain"
    case Peanut => "peanut"
    case Seafood => "seafood"
    case Sesame => "sesame"
    case Shellfish => "shellfish"
    case Soy => "soy"
    case Sulfite => "sulfite"
    case TreeNut => "tree nut"
    case Wheat => "wheat"
    case NoIntolerance => ""
  }

  function IntoleranceNames(xs: seq<Intolerance>): (names: seq<string>)
    ensures |names| == |xs|
    ensures forall k :: 0 <= k < |xs| ==> names[k] == IntoleranceName(xs[k])
  {
    seq(|xs|, k requires 0 <= k < |xs| => IntoleranceName(xs[k]))
  }

  datatype Ingredient = Ingredient(id: int, name: string, original: string, unit: string, aisle: string)

  /** The fields only the information endpoint fills in. */
  datatype DetailFields = DetailFields(
    summary: string,
    instructions: string,
    extendedIngredients: seq<Ingredient>,
    sourceName: string,
    diets: seq<string>)

  /** A recipe as the search endpoints return it; `id` is its identity. */
  datatype Recipe = Recipe(
    id: int,
    title: string,
    image: string,
    imageType: string,
    likes: int,
    readyInMinutes: Option<int>,
    servings: Option<int>,
    detail: Option<DetailFields>)

  /** `RecipeDetail extends Recipe`: a recipe whose detail fields are present. */
  type RecipeDetail = r: Recipe | r.detail.Some?
    witness Recipe(0, "", "", "", 0, None, None, Some(DetailFields("", "", [], "", [])))

  datatype SearchResults = SearchResults(results: seq<Recipe>, totalResults: int)

  const NoResults: SearchResults := SearchResults([], 0)

  /** `SearchParams`: every member optional. */
  datatype SearchParams = SearchParams(
    ingredients: Option<string>,
    query: Option<string>,
    diet: Option<Diet>,
    intolerances: Option<seq<Intolerance>>,
    maxReadyTime: Option<int>,
    sort: Option<string>,
    sortDirection: Option<string>,
    number: Option<int>,
    offset: Option<int>)

  // ---------------------------------------------------------------------
  // The network as an input
  // ---------------------------------------------------------------------

  /** The query-parameter names the client uses. */
  datatype ParamName =
    | Ingredients | Query | IncludeIngredients | DietParam | Intolerances
    | MaxReadyTime | Sort | SortDirection | Number | Offset | ApiKey

  /** The name as it is written in the URL. */
  function Key(n: ParamName): string {
    match n
    case Ingredients => "ingredients"
    case Query => "query"
    case IncludeIngredients => "includeIngredients"
    case DietParam => "diet"
    case Intolerances => "intolerances"
    case MaxReadyTime => "maxReadyTime"
    case Sort => "sort"
    case SortDirection => "sortDirection"
    case Number => "number"
    case Offset => "offset"
    case ApiKey => "apiKey"
  }

  /** Distinct names are written differently, so a name can be read back from its key. */
  lemma KeyInjective(a: ParamName, b: ParamName)
    ensures Key(a) == Key(b) <==> a == b
  {
    if a != b {
      assert Key(a) != Key(b) by {
        if |Key(a)| == |Key(b)| {
          assert Key(a)[0] != Key(b)[0];
        }
      }
    }
  }

  datatype Param = Param(name: ParamName, value: string)

  datatype Request = Request(endpoint: string, params: seq<Param>)

  /** What a `catch` clause can receive: an `Error` object or any other value. */
  datatype Thrown = ErrorObject(message: string) | OtherValue

  /** How one call to `fetch` ends. */
  datatype Reply<T> = Ok(payload: T) | NotOk(status: nat) | Threw(thrown: Thrown)

  /** `!apiKey` is false: a key is present and not the empty string. */
  predicate HasKey(apiKey: Option<string>) {
    apiKey.Some? && apiKey.value != ""
  }

  /** The value a call returns: the payload, or the operation's empty value. */
  function Outcome<T>(reply: Reply<T>, empty: T): T {
    if reply.Ok? then reply.payload else empty
  }

  /**
   * The message the `catch` clause stores: a non-OK status becomes an
   * `Error` whose message carries the status in decimal; a thrown `Error`
   * keeps its message; any other thrown value gives a fixed text.
   */
  function FailureMessage<T>(reply: Reply<T>): (m: string)
    requires !reply.Ok?
    ensures reply.NotOk? ==>
              && |m| > |StatusPrefix| && m[..|StatusPrefix|] == StatusPrefix
              && IsIntString(m[|StatusPrefix|..]) && IntValue(m[|StatusPrefix|..]) == reply.status
    ensures reply.Threw? && reply.thrown.ErrorObject? ==> m == reply.thrown.message
    ensures reply.Threw? && reply.thrown.OtherValue? ==> m == UnknownError
  {
    match reply
    case NotOk(status) =>
      var digits := IntToString(status);
      IntRoundTrip(status);
      assert (StatusPrefix + digits)[|StatusPrefix|..] == digits;
      StatusPrefix + digits
    case Threw(ErrorObject(message)) => message
    case Threw(OtherValue) => UnknownError
  }

  /** The `error` field after a keyed call has settled. */
  function ErrorAfter<T>(reply: Reply<T>): Option<string> {
    if reply.Ok? then None else Some(FailureMessage(reply))
  }

  // ---------------------------------------------------------------------
  // The complexSearch parameter list
  // ---------------------------------------------------------------------

  /** `if (s) append(s)` on an optional string: '' is falsy. */
  function TextField(v: Option<string>): (r: Option<string>)
    ensures r.Some? <==> v.Some? && v.value != ""
    ensures r.Some? ==> r == v
  {
    if v.Some? && v.value != "" then v else None
  }

  /** `if (params.diet) append('diet', params.diet)`: the '' diet is falsy. */
  function DietField(v: Option<Diet>): (r: Option<string>)
    ensures r.Some? <==> v.Some? && v.value != AnyDiet
    ensures r.Some? ==> r.value == DietName(v.value)
  {
    if v.Some? && DietName(v.value) != "" then Some(DietName(v.value)) else None
  }

  /** `if (n) append(n.toString())` on an optional number: 0 is falsy. */
  function NumberField(v: Option<int>): (r: Option<string>)
    ensures r.Some? <==> v.Some? && v.value != 0
  {
    if v.Some? && v.value != 0 then Some(IntToString(v.value)) else None
  }

  /** A number parameter reads back as the number it was built from. */
  lemma NumberFieldRoundTrip(v: Option<int>)
    requires NumberField(v).Some?
    ensures IsIntString(NumberField(v).value) && IntValue(NumberField(v).value) == v.value
  {
    IntRoundTrip(v.value);
  }

  /**
   * The `intolerances` parameter: present only for a non-empty list, and
   * then the names joined with ','.
   */
  function IntolerancesField(v: Option<seq<Intolerance>>): (r: Option<string>)
    ensures r.Some? <==> v.Some? && |v.value| > 0
  {
    if v.Some? && |v.value| > 0 then Some(Join(IntoleranceNames(v.value), ',')) else None
  }

  /** The joined `intolerances` value splits on ',' back into the names. */
  lemma IntolerancesFieldRoundTrip(v: Option<seq<Intolerance>>)
    requires IntolerancesField(v).Some?
    ensures Split(IntolerancesField(v).value, ',') == IntoleranceNames(v.value)
  {
    SplitJoin(IntoleranceNames(v.value), ',');
  }

  /** One conditional `append`: a pair is added only when the value is present. */
  function AppendIf(q: seq<Param>, name: ParamName, v: Option<string>): seq<Param> {
    if v.Some? then q + [Param(name, v.value)] else q
  }

  /** The optional complexSearch values after the truthiness tests and formatting. */
  datatype QueryValues = QueryValues(
    query: Option<string>,
    includeIngredients: Option<string>,
    diet: Option<string>,
    intolerances: Option<string>,
    maxReadyTime: Option<string>,
    sort: Option<string>,
    sortDirection: Option<string>,
    number: Option<string>,
    offset: Option<string>)

  function Encode(p: SearchParams): QueryValues {
    QueryValues(
      TextField(p.query), TextField(p.ingredients), DietField(p.diet),
      IntolerancesField(p.intolerances), NumberField(p.maxReadyTime),
      TextField(p.sort), TextField(p.sortDirection), NumberField(p.number), NumberField(p.offset))
  }

  /** The values in the order `searchRecipes` appends them, each only when present. */
  function Layout(e: QueryValues): seq<Param> {
    AppendIf(AppendIf(AppendIf(AppendIf(AppendIf(AppendIf(AppendIf(AppendIf(AppendIf([],
      Query, e.query),
      IncludeIngredients, e.includeIngredients),
      DietParam, e.diet),
      Intolerances, e.intolerances),
      MaxReadyTime, e.maxReadyTime),
      Sort, e.sort),
      SortDirection, e.sortDirection),
      Number, e.number),
      Offset, e.offset)
  }

  function OptionalParams(p: SearchParams): seq<Param> {
    Layout(Encode(p))
  }

  /** The full complexSearch parameter list: the optional ones, then the key. */
  function ComplexSearchParams(p: SearchParams, apiKey: string): seq<Param> {
    OptionalParams(p) + [Param(ApiKey, apiKey)]
  }

  /** `if (s) searchParams.append(name, s)` for a string parameter. */
  method AppendText(q: seq<Param>, name: ParamName, s: Option<string>) returns (r: seq<Param>)
    ensures r == AppendIf(q, name, TextField(s))
  {
    r := q;
    if s.Some? && s.value != "" {
      r := r + [Param(name, s.value)];
    }
  }

  /** `if (n) searchParams.append(name, n.toString())` for a number parameter. */
  method AppendNumber(q: seq<Param>, name: ParamName, n: Option<int>) returns (r: seq<Param>)
    ensures r == AppendIf(q, name, NumberField(n))
  {
    r := q;
    if n.Some? && n.value != 0 {
      r := r + [Param(name, IntToString(n.value))];
    }
  }

  /**
   * `searchRecipes`' parameter construction: successive conditional
   * `append` calls on a fresh `URLSearchParams`, the key last.
   */
  method BuildComplexSearchQuery(params: SearchParams, apiKey: string) returns (q: seq<Param>)
    ensures q == ComplexSearchParams(params, apiKey)
  {
    q := AppendText([], Query, params.query);
    q := AppendText(q, IncludeIngredients, params.ingredients);
    if params.diet.Some? && DietName(params.diet.value) != "" {
      q := q + [Param(DietParam, DietName(params.diet.value))];
    }
    if params.intolerances.Some? && |params.intolerances.value| > 0 {
      q := q + [Param(Intolerances, Join(IntoleranceNames(params.intolerances.value), ','))];
    }
    q := AppendNumber(q, MaxReadyTime, params.maxReadyTime);
    q := AppendText(q, Sort, params.sort);
    q := AppendText(q, SortDirection, params.sortDirection);
    q := AppendNumber(q, Number, params.number);
    q := AppendNumber(q, Offset, params.offset);
    q := q + [Param(ApiKey, apiKey)];
  }

  // ---------------------------------------------------------------------
  // Reading a parameter list back
  // ---------------------------------------------------------------------

  /** `URLSearchParams.get(name)`: the value of the first pair with that name. */
  function Lookup(ps: seq<Param>, name: ParamName): Option<string> {
    if ps == [] then None
    else if ps[0].name == name then Some(ps[0].value)
    else Lookup(ps[1..], name)
  }

  /** `get` finds nothing exactly when no pair has the name, and what it finds is a pair of the list. */
  lemma {:induction false} LookupFindsMember(ps: seq<Param>, name: ParamName)
    ensures Lookup(ps, name).None? <==> forall x :: Param(name, x) !in ps
    ensures Lookup(ps, name).Some? ==> Param(name, Lookup(ps, name).value) in ps
  {
    if ps != [] {
      LookupFindsMember(ps[1..], name);
      assert ps == [ps[0]] + ps[1..];
    }
  }

  /** The value each parameter of a complexSearch request is meant to carry. */
  function Intended(p: SearchParams, apiKey: string, name: ParamName): Option<string> {
    match name
    case Query => TextField(p.query)
    case IncludeIngredients => TextField(p.ingredients)
    case DietParam => DietField(p.diet)
    case Intolerances => IntolerancesField(p.intolerances)
    case MaxReadyTime => NumberField(p.maxReadyTime)
    case Sort => TextField(p.sort)
    case SortDirection => TextField(p.sortDirection)
    case Number => NumberField(p.number)
    case Offset => NumberField(p.offset)
    case ApiKey => Some(apiKey)
    case Ingredients => None
  }

  lemma MemberAppendIf(q: seq<Param>, n: ParamName, v: Option<string>, y: Param)
    ensures y in AppendIf(q, n, v) <==> y in q || (v.Some? && y == Param(n, v.value))
  {
  }

  /** A pair is in the complexSearch list exactly when its value is the intended one. */
  lemma ComplexSearchMembers(p: SearchParams, apiKey: string, name: ParamName, x: string)
    ensures Param(name, x) in ComplexSearchParams(p, apiKey) <==> Intended(p, apiKey, name) == Some(x)
  {
    var e := Encode(p);
    var y := Param(name, x);
    var q0 := AppendIf([], Query, e.query);
    var q1 := AppendIf(q0, IncludeIngredients, e.includeIngredients);
    var q2 := AppendIf(q1, DietParam, e.diet);
    var q3 := AppendIf(q2, Intolerances, e.intolerances);
    var q4 := AppendIf(q3, MaxReadyTime, e.maxReadyTime);
    var q5 := AppendIf(q4, Sort, e.sort);
    var q6 := AppendIf(q5, SortDirection, e.sortDirection);
    var q7 := AppendIf(q6, Number, e.number);
    MemberAppendIf([], Query, e.query, y);
    MemberAppendIf(q0, IncludeIngredients, e.includeIngredients, y);
    MemberAppendIf(q1, DietParam, e.diet, y);
    MemberAppendIf(q2, Intolerances, e.intolerances, y);
    MemberAppendIf(q3, MaxReadyTime, e.maxReadyTime, y);
    MemberAppendIf(q4, Sort, e.sort, y);
    MemberAppendIf(q5, SortDirection, e.sortDirection, y);
    MemberAppendIf(q6, Number, e.number, y);
    MemberAppendIf(q7, Offset, e.offset, y);
  }

  /**
   * Every parameter of a complexSearch request reads back as exactly the
   * value its search parameter asks for (absent when it is unset or falsy,
   * and `ingredients` never).
   */
  lemma ComplexSearchLookup(p: SearchParams, apiKey: string, name: ParamName)
    ensures Lookup(ComplexSearchParams(p, apiKey), name) == Intended(p, apiKey, name)
  {
    var q := ComplexSearchParams(p, apiKey);
    LookupFindsMember(q, name);
    forall x
      ensures Param(name, x) in q <==> Intended(p, apiKey, name) == Some(x)
    {
      ComplexSearchMembers(p, apiKey, name, x);
    }
  }

  /** Where a name stands in the order `searchRecipes` appends parameters. */
  function Rank(n: ParamName): nat {
    match n
    case Query => 0
    case IncludeIngredients => 1
    case DietParam => 2
    case Intolerances => 3
    case MaxReadyTime => 4
    case Sort => 5
    case SortDirection => 6
    case Number => 7
    case Offset => 8
    case ApiKey => 9
    case Ingredients => 10
  }

  /** Read from the back, every pair ranks strictly below the one after it, and the last below `bound`. */
  predicate Ascending(ps: seq<Param>, bound: nat) {
    ps == [] || (Rank(ps[|ps| - 1].name) < bound && Ascending(ps[..|ps| - 1], Rank(ps[|ps| - 1].name)))
  }

  lemma {:induction false} AscendingWeaken(ps: seq<Param>, b: nat, c: nat)
    requires Ascending(ps, b) && b <= c
    ensures Ascending(ps, c)
  {
  }

  lemma {:induction false} AscendingOrdered(ps: seq<Param>, bound: nat)
    requires Ascending(ps, bound)
    ensures forall i :: 0 <= i < |ps| ==> Rank(ps[i].name) < bound
    ensures forall i, j :: 0 <= i < j < |ps| ==> Rank(ps[i].name) < Rank(ps[j].name)
  {
    if ps != [] {
      var init := ps[..|ps| - 1];
      var last := Rank(ps[|ps| - 1].name);
      AscendingOrdered(init, last);
      assert forall i :: 0 <= i < |init| ==> ps[i] == init[i];
    }
  }

  lemma AppendIfAscending(q: seq<Param>, n: ParamName, v: Option<string>, bound: nat)
    requires Ascending(q, Rank(n)) && Rank(n) < bound
    ensures Ascending(AppendIf(q, n, v), bound)
  {
    if v.Some? {
      assert (q + [Param(n, v.value)])[..|q|] == q;
    } else {
      AscendingWeaken(q, Rank(n), bound);
    }
  }

  /**
   * The complexSearch pairs follow the fixed order query,
   * includeIngredients, diet, intolerances, maxReadyTime, sort,
   * sortDirection, number, offset, with the key last: names strictly
   * increase along the list, so none appears twice.
   */
  lemma {:induction false} ComplexSearchOrdered(p: SearchParams, apiKey: string)
    ensures var ps := ComplexSearchParams(p, apiKey);
            && |ps| > 0 && ps[|ps| - 1] == Param(ApiKey, apiKey)
            && forall i, j :: 0 <= i < j < |ps| ==> Rank(ps[i].name) < Rank(ps[j].name)
  {
    LayoutAscending(Encode(p));
    KeyLastAscending(OptionalParams(p), apiKey);
  }

  lemma KeyLastAscending(optional: seq<Param>, apiKey: string)
    requires Ascending(optional, Rank(ApiKey))
    ensures var ps := optional + [Param(ApiKey, apiKey)];
            forall i, j :: 0 <= i < j < |ps| ==> Rank(ps[i].name) < Rank(ps[j].name)
  {
    AppendIfAscending(optional, ApiKey, Some(apiKey), 10);
    AscendingOrdered(optional + [Param(ApiKey, apiKey)], 10);
  }

  /** Each conditional append of `Layout` comes after the ones before it. */
  lemma {:induction false} LayoutAscending(e: QueryValues)
    ensures Ascending(Layout(e), Rank(ApiKey))
  {
    var q0: seq<Param> := [];
    var q1 := AppendIf(q0, Query, e.query);
    AppendIfAscending(q0, Query, e.query, 1);
    var q2 := AppendIf(q1, IncludeIngredients, e.includeIngredients);
    AppendIfAscending(q1, IncludeIngredients, e.includeIngredients, 2);
    var q3 := AppendIf(q2, DietParam, e.diet);
    AppendIfAscending(q2, DietParam, e.diet, 3);
    var q4 := AppendIf(q3, Intolerances, e.intolerances);
    AppendIfAscending(q3, Intolerances, e.intolerances, 4);
    var q5 := AppendIf(q4, MaxReadyTime, e.maxReadyTime);
    AppendIfAscending(q4, MaxReadyTime, e.maxReadyTime, 5);
    var q6 := AppendIf(q5, Sort, e.sort);
    AppendIfAscending(q5, Sort, e.sort, 6);
    var q7 := AppendIf(q6, SortDirection, e.sortDirection);
    AppendIfAscending(q6, SortDirection, e.sortDirection, 7);
    var q8 := AppendIf(q7, Number, e.number);
    AppendIfAscending(q7, Number, e.number, 8);
    AppendIfAscending(q8, Offset, e.offset, 9);
  }

  // ---------------------------------------------------------------------
  // Requests
  // ---------------------------------------------------------------------

  function FindByIngredientsRequest(ingredients: string, number: int, apiKey: string): Request {
    Request(BaseUrl + "/recipes/findByIngredients",
            [Param(Ingredients, ingredients), Param(Number, IntToString(number)), Param(ApiKey, apiKey)])
  }

  function ComplexSearchRequest(p: SearchParams, apiKey: string): Request {
    Request(BaseUrl + "/recipes/complexSearch", ComplexSearchParams(p, apiKey))
  }

  function InformationRequest(id: int, apiKey: string): Request {
    Request(BaseUrl + "/recipes/" + IntToString(id) + "/information", [Param(ApiKey, apiKey)])
  }

  // ---------------------------------------------------------------------
  // The client state (`useSpoonacular`)
  // ---------------------------------------------------------------------

  class SpoonacularClient {
    /** The key the hook was created with. */
    var apiKey: Option<string>
    var isLoading: bool
    var error: Option<string>
    /** Every request handed to `fetch`, oldest first. */
    var sent: seq<Request>

    constructor (apiKey: Option<string>)
      ensures this.apiKey == apiKey && !isLoading && error == None && sent == []
    {
      this.apiKey := apiKey;
      isLoading := false;
      error := None;
      sent := [];
    }

    /** The start of every keyed call: loading on, the previous error cleared. */
    method Begin()
      modifies this`isLoading, this`error
      ensures isLoading && error == None
    {
      isLoading := true;
      error := None;
    }

    /** `fetch(...)`: only ever reached while loading, with no error recorded. */
    method Send(request: Request)
      requires isLoading && error == None
      modifies this`sent
      ensures sent == old(sent) + [request]
    {
      sent := sent + [request];
    }

    /**
     * The `try`/`catch`/`finally` tail of every keyed call: a failure records
     * its message and yields the empty value; loading ends on every path.
     */
    method Settle<T>(reply: Reply<T>, empty: T) returns (data: T)
      modifies this`isLoading, this`error
      ensures !isLoading
      ensures data == Outcome(reply, empty)
      ensures error == if reply.Ok? then old(error) else Some(FailureMessage(reply))
    {
      if reply.Ok? {
        data := reply.payload;
      } else {
        error := Some(FailureMessage(reply));
        data := empty;
      }
      isLoading := false;
    }

    /** The guard every operation starts with. */
    method RefuseWithoutKey()
      modifies this`error
      ensures error == Some(KeyRequired)
    {
      error := Some(KeyRequired);
    }

    method SearchRecipesByIngredients(ingredients: string, number: int, reply: Reply<seq<Recipe>>)
      returns (data: seq<Recipe>)
      modifies this`isLoading, this`error, this`sent
      ensures !HasKey(apiKey) ==>
                && data == [] && error == Some(KeyRequired)
                && isLoading == old(isLoading) && sent == old(sent)
      ensures HasKey(apiKey) ==>
                && sent == old(sent) + [FindByIngredientsRequest(ingredients, number, apiKey.value)]
                && !isLoading && data == Outcome(reply, []) && error == ErrorAfter(reply)
    {
      if !HasKey(apiKey) {
        RefuseWithoutKey();
        return [];
      }
      Begin();
      Send(FindByIngredientsRequest(ingredients, number, apiKey.value));
      data := Settle(reply, []);
    }

    method SearchRecipes(params: SearchParams, reply: Reply<SearchResults>)
      returns (data: SearchResults)
      modifies this`isLoading, this`error, this`sent
      ensures !HasKey(apiKey) ==>
                && data == NoResults && error == Some(KeyRequired)
                && isLoading == old(isLoading) && sent == old(sent)
      ensures HasKey(apiKey) ==>
                && sent == old(sent) + [ComplexSearchRequest(params, apiKey.value)]
                && !isLoading && data == Outcome(reply, NoResults) && error == ErrorAfter(reply)
    {
      if !HasKey(apiKey) {
        RefuseWithoutKey();
        return NoResults;
      }
      Begin();
      var query := BuildComplexSearchQuery(params, apiKey.value);
      Send(Request(BaseUrl + "/recipes/complexSearch", query));
      data := Settle(reply, NoResults);
    }

    method GetRecipeDetail(id: int, reply: Reply<RecipeDetail>) returns (data: Option<RecipeDetail>)
      modifies this`isLoading, this`error, this`sent
      ensures !HasKey(apiKey) ==>
                && data == None && error == Some(KeyRequired)
                && isLoading == old(isLoading) && sent == old(sent)
      ensures HasKey(apiKey) ==>
                && sent == old(sent) + [InformationRequest(id, apiKey.value)]
                && !isLoading && error == ErrorAfter(reply)
                && data == if reply.Ok? then Some(reply.payload) else None
    {
      if !HasKey(apiKey) {
        RefuseWithoutKey();
        return None;
      }
      Begin();
      Send(InformationRequest(id, apiKey.value));
      var wrapped: Reply<Option<RecipeDetail>> :=
        match reply
        case Ok(detail) => Ok(Some(detail))
        case NotOk(status) => NotOk(status)
        case Threw(thrown) => Threw(thrown);
      data := Settle(wrapped, None);
    }
  }
}
