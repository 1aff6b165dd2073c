/** The hero detail query of `useSuperHeroData`: its key, the URL its two
    fetchers request, and the `initialData` it derives from the hero list
    already in the cache. */
module SuperHeroData {
  import opened JsValue
  import opened JsNumber
  import opened QueryCache
  import opened SuperHeroesData

  /** Both fetchers request this string followed by the hero id. */
  const SuperHeroUrlPrefix: string := "http://localhost:4000/superheroes/"

  /** The query key `["super-hero", heroId]`. */
  function SuperHeroKey(heroId: string): (key: QueryKey)
    ensures |key| == 2 && key[0] == "super-hero" && key[1] == heroId
  {
    ["super-hero", heroId]
  }

  /** The URL `fetchSuperHero(heroId)` requests; the id is its tail. */
  function FetchSuperHeroUrl(heroId: string): (url: string)
    ensures |url| == |SuperHeroUrlPrefix| + |heroId|
    ensures url[..|SuperHeroUrlPrefix|] == SuperHeroUrlPrefix && url[|SuperHeroUrlPrefix|..] == heroId
  {
    SuperHeroUrlPrefix + heroId
  }

  /** What the library passes to a query function: the query key. */
  datatype QueryFunctionContext = QueryFunctionContext(queryKey: seq<string>)

  /** The URL `fetchSuperHeroAnotherWay(params)` requests: the id is
      `params.queryKey[1]`, and a missing second element is written as the
      text `undefined`. */
  function FetchSuperHeroAnotherWayUrl(params: QueryFunctionContext): (url: string)
    ensures |url| >= |SuperHeroUrlPrefix| && url[..|SuperHeroUrlPrefix|] == SuperHeroUrlPrefix
    ensures |params.queryKey| > 1 ==> url[|SuperHeroUrlPrefix|..] == params.queryKey[1]
    ensures |params.queryKey| <= 1 ==> url[|SuperHeroUrlPrefix|..] == "undefined"
  {
    var heroId := if |params.queryKey| > 1 then params.queryKey[1] else "undefined";
    SuperHeroUrlPrefix + heroId
  }

  /** Called with the hero query's own key, the second fetcher requests the
      same URL as the first. */
  lemma FetchersAgree(heroId: string)
    ensures FetchSuperHeroAnotherWayUrl(QueryFunctionContext(SuperHeroKey(heroId))) == FetchSuperHeroUrl(heroId)
  {
  }

  /** `hero.id === id`, where `id` is the parsed route parameter; NaN
      (`None`) equals nothing. */
  predicate HasId(hero: Json, id: Option<int>)
  {
    id.Some? && hero.Obj? && "id" in hero.fields && hero.fields["id"] == Num(id.value)
  }

  /** `find` runs its callback on elements 0 .. j-1 and none of them
      stops it: each is a value whose `id` can be read (not `null`) and none
      has the id. */
  predicate Passes(items: seq<Json>, id: Option<int>, j: nat)
  {
    j <= |items| && forall i :: 0 <= i < j ==> items[i] != Null && !HasId(items[i], id)
  }

  /** `find` returns element `i`: it reaches it, and it has the id. */
  predicate FindsAt(items: seq<Json>, id: Option<int>, i: nat)
  {
    i < |items| && Passes(items, id, i) && HasId(items[i], id)
  }

  /** `find` reaches the `null` at `j`, where the callback's `hero.id` throws. */
  predicate ThrowsAt(items: seq<Json>, id: Option<int>, j: nat)
  {
    j < |items| && Passes(items, id, j) && items[j] == Null
  }

  /** `items.find(hero => hero.id === id)`, as the index of the element it
      returns: the first element with that id, `undefined` when none has it,
      and a `TypeError` when the callback reads `id` of a `null` first. */
  function FindHero(items: seq<Json>, id: Option<int>): (r: Result<Option<nat>>)
    ensures r.TypeError? <==> exists j :: ThrowsAt(items, id, j)
    ensures r == Ok(None) <==> Passes(items, id, |items|)
    ensures r.Ok? && r.value.Some? ==> FindsAt(items, id, r.value.value)
    decreases |items|
  {
    if items == [] then Ok(None)
    else if items[0] == Null then
      assert ThrowsAt(items, id, 0);
      TypeError
    else if HasId(items[0], id) then Ok(Some(0))
    else
      var tail := FindHero(items[1..], id);
      assert forall j: nat :: ThrowsAt(items[1..], id, j) <==> ThrowsAt(items, id, j + 1);
      assert forall j: nat :: ThrowsAt(items, id, j) ==> j > 0 && ThrowsAt(items[1..], id, j - 1);
      assert Passes(items[1..], id, |items| - 1) <==> Passes(items, id, |items|);
      match tail
      case TypeError => TypeError
      case Ok(None) => Ok(None)
      case Ok(Some(k)) =>
        assert FindsAt(items, id, k + 1);
        Ok(Some(k + 1))
  }

  /** `initialData()` given `cached`, what `getQueryData("super-heroes")`
      returns. It is `undefined` when the cached entry or its `data` is
      missing or `null`. It throws a `TypeError` when `data` is a value other
      than an array, which has no `find` to call, or when `find` reaches a
      `null` hero before a match. Otherwise it is `{ data: hero }` for the
      first hero whose id is `parseInt(heroId)`, and `undefined` when no hero
      has that id. Being a function of the cached value, it writes nothing. */
  function InitialData(cached: Option<Json>, heroId: string): (r: Result<Option<Json>>)
    ensures OptionalField(cached, "data").None? ==> r == Ok(None)
    ensures OptionalField(cached, "data").Some? && !OptionalField(cached, "data").value.Arr? ==> r == TypeError
    ensures OptionalField(cached, "data").Some? && OptionalField(cached, "data").value.Arr? ==>
              var items := OptionalField(cached, "data").value.items;
              && (r == TypeError <==> exists j :: ThrowsAt(items, ParseInt(heroId), j))
              && (r == Ok(None) <==> Passes(items, ParseInt(heroId), |items|))
              && (r.Ok? && r.value.Some? ==>
                    exists i: nat :: FindsAt(items, ParseInt(heroId), i) && r.value.value == Obj(map["data" := items[i]]))
  {
    match OptionalField(cached, "data")
    case None => Ok(None)
    case Some(Arr(items)) =>
      (match FindHero(items, ParseInt(heroId))
       case TypeError => TypeError
       case Ok(Some(i)) =>
         var hero := items[i];
         if Truthy(hero) then Ok(Some(Obj(map["data" := hero]))) else Ok(None)
       case Ok(None) => Ok(None))
    case Some(_) => TypeError
  }

  /** `initialData()` as the hook runs it: on what the client's
      `getQueryData("super-heroes")` returns. It reads the client and cannot
      change it. */
  function InitialDataOf(client: QueryClient, heroId: string): (r: Result<Option<Json>>)
    reads client
    ensures SuperHeroesKey !in client.entries ==> r == Ok(None)
    ensures SuperHeroesKey in client.entries ==> r == InitialData(Some(client.entries[SuperHeroesKey]), heroId)
  {
    InitialData(client.GetQueryData(SuperHeroesKey), heroId)
  }

  /** When `find` reaches a hero with the parsed id, the initial data wraps
      it: the first hero with that id, provided no `null` comes before it. */
  lemma InitialDataFindsFirst(cached: Option<Json>, heroId: string, i: nat)
    requires OptionalField(cached, "data").Some? && OptionalField(cached, "data").value.Arr?
    requires FindsAt(OptionalField(cached, "data").value.items, ParseInt(heroId), i)
    ensures InitialData(cached, heroId) == Ok(Some(Obj(map["data" := OptionalField(cached, "data").value.items[i]])))
  {
  }

  /** A `null` before the hero makes the lookup throw: with `{ data: [null,
      { id: 1 }] }` cached and route parameter `"1"`, `initialData` throws. */
  lemma NullHeroBeforeMatchThrows()
    ensures InitialData(Some(Obj(map["data" := Arr([Null, Obj(map["id" := Num(1)])])])), "1") == TypeError
  {
    var items := [Null, Obj(map["id" := Num(1)])];
    assert ThrowsAt(items, ParseInt("1"), 0);
  }

  /** A route parameter that does not parse (NaN) never yields initial data. */
  lemma InitialDataOfNaN(cached: Option<Json>, heroId: string)
    requires ParseInt(heroId).None?
    ensures InitialData(cached, heroId) == Ok(None) || InitialData(cached, heroId) == TypeError
  {
  }
}
