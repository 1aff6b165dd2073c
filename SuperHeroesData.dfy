/** The add-hero mutation of `useAddSuperHeroData`: an optimistic write to
    the `"super-heroes"` query before the POST, a rollback to the snapshot
    when the POST fails, and an invalidation once it has settled. */
module SuperHeroesData {
  import opened JsValue
  import opened QueryCache

  /** The key of the hero-list query. */
  const SuperHeroesKey: QueryKey := ["super-heroes"]

  /** The cached entry is an object whose `data` field can be spread into an
      array, which is what the optimistic updater needs. */
  predicate HoldsList(entry: Option<Json>)
  {
    entry.Some? && entry.value.Obj? && "data" in entry.value.fields
    && Spread(entry.value.fields["data"]).Some?
  }

  /** The list `[...entry.data]`. */
  function ListOf(entry: Option<Json>): seq<Json>
    requires HoldsList(entry)
  {
    Spread(entry.value.fields["data"]).value
  }

  /** The hero appended optimistically, `{ id: length + 1, ...newHero }`:
      every field of `newHero`, plus an `id` one past the list's length that
      a field `id` of `newHero` overrides. */
  function OptimisticHero(length: nat, newHero: map<string, Json>): (hero: Json)
    ensures hero.Obj? && hero.fields.Keys == newHero.Keys + {"id"}
    ensures forall name :: name in newHero ==> hero.fields[name] == newHero[name]
    ensures "id" !in newHero ==> hero.fields["id"] == Num(length + 1)
  {
    Obj(map["id" := Num(length + 1)] + newHero)
  }

  /** The updater `onMutate` passes to `setQueryData`: the old entry with
      its `data` list extended by the optimistic hero. It throws when the
      entry is `undefined` or `null` (reading `.data`), or when `data` is
      missing or not iterable (spreading it). */
  function AddHeroUpdater(oldQueryData: Option<Json>, newHero: map<string, Json>): (r: Result<Json>)
    ensures r.Ok? <==> HoldsList(oldQueryData)
    ensures r.Ok? ==> HoldsList(Some(r.value))
    ensures r.Ok? ==> ListOf(Some(r.value)) == ListOf(oldQueryData) + [OptimisticHero(|ListOf(oldQueryData)|, newHero)]
    ensures r.Ok? ==> r.value.fields.Keys == oldQueryData.value.fields.Keys
    ensures r.Ok? ==> forall name :: name in oldQueryData.value.fields && name != "data" ==>
                        r.value.fields[name] == oldQueryData.value.fields[name]
  {
    match oldQueryData
    case Some(Obj(fields)) =>
      if "data" !in fields then TypeError
      else
        (match Spread(fields["data"])
         case None => TypeError
         case Some(items) => Ok(Obj(fields["data" := Arr(items + [OptimisticHero(|items|, newHero)])])))
    case _ => TypeError
  }

  /** The heroes are numbered 1, 2, ... in list order, as a server that
      never deletes assigns ids. */
  predicate NumberedInOrder(heroes: seq<Json>)
  {
    forall i :: 0 <= i < |heroes| ==> heroes[i].Obj? && "id" in heroes[i].fields && heroes[i].fields["id"] == Num(i + 1)
  }

  /** On such a list the synthesized id is fresh, and the list stays
      numbered in order after the optimistic write. */
  lemma AddHeroKeepsNumbering(oldQueryData: Option<Json>, newHero: map<string, Json>)
    requires HoldsList(oldQueryData) && NumberedInOrder(ListOf(oldQueryData)) && "id" !in newHero
    ensures AddHeroUpdater(oldQueryData, newHero).Ok?
    ensures NumberedInOrder(ListOf(Some(AddHeroUpdater(oldQueryData, newHero).value)))
    ensures forall i :: 0 <= i < |ListOf(oldQueryData)| ==>
              ListOf(oldQueryData)[i].fields["id"] != OptimisticHero(|ListOf(oldQueryData)|, newHero).fields["id"]
  {
  }

  /** Once a hero has been deleted the numbering has a gap, and the
      synthesized id (length + 1) can equal an id already in the list: with
      heroes 1 and 3 cached, the new hero also gets id 3. */
  lemma OptimisticIdCanCollide(newHero: map<string, Json>)
    requires "id" !in newHero
    ensures var entry := Some(Obj(map["data" := Arr([Obj(map["id" := Num(1)]), Obj(map["id" := Num(3)])])]));
            AddHeroUpdater(entry, newHero).Ok?
            && ListOf(Some(AddHeroUpdater(entry, newHero).value))[2].fields["id"] == Num(3)
            && ListOf(Some(AddHeroUpdater(entry, newHero).value))[1].fields["id"] == Num(3)
  {
  }

  /** What `onMutate` returns, handed to `onError` for the rollback. */
  datatype MutationContext = MutationContext(previousHeroData: Option<Json>)

  /** `onMutate(newHero)`: cancels refetches of the hero list, takes a
      snapshot of it, writes the optimistic entry, and returns the snapshot.
      When the updater throws, `onMutate` throws and nothing is written. */
  method OnMutate(client: QueryClient, newHero: map<string, Json>) returns (r: Result<MutationContext>)
    modifies client
    ensures r.Ok? <==> HoldsList(old(client.GetQueryData(SuperHeroesKey)))
    ensures r.Ok? ==> r.value.previousHeroData == old(client.GetQueryData(SuperHeroesKey))
    ensures r.Ok? ==> client.entries == old(client.entries)[SuperHeroesKey := AddHeroUpdater(old(client.GetQueryData(SuperHeroesKey)), newHero).value]
    ensures r.Ok? ==> client.stale == old(client.stale) - {SuperHeroesKey}
    ensures r.TypeError? ==> client.entries == old(client.entries) && client.stale == old(client.stale)
    ensures client.fetching == old(client.fetching) - {SuperHeroesKey}
  {
    client.CancelQueries(SuperHeroesKey);
    var previousHeroData := client.GetQueryData(SuperHeroesKey);
    var written := client.UpdateQueryData(SuperHeroesKey, entry => AddHeroUpdater(entry, newHero));
    if written.TypeError? {
      return TypeError;
    }
    r := Ok(MutationContext(previousHeroData));
  }

  /** `onError(error, newHero, context)`: writes the snapshot back. */
  method OnError(client: QueryClient, context: MutationContext)
    modifies client
    ensures client.GetQueryData(SuperHeroesKey) == context.previousHeroData
    ensures client.entries == if context.previousHeroData.Some?
                              then old(client.entries)[SuperHeroesKey := context.previousHeroData.value]
                              else old(client.entries) - {SuperHeroesKey}
    ensures client.stale == old(client.stale) - {SuperHeroesKey}
    ensures client.fetching == old(client.fetching)
  {
    client.SetQueryData(SuperHeroesKey, context.previousHeroData);
  }

  /** `onSettled()`: marks the hero list stale, whatever the outcome. */
  method OnSettled(client: QueryClient)
    modifies client
    ensures client.stale == old(client.stale) + {SuperHeroesKey}
    ensures client.entries == old(client.entries) && client.fetching == old(client.fetching)
  {
    client.InvalidateQueries(SuperHeroesKey);
  }

  /** One `mutate(newHero)` through its callbacks, in the order the library
      calls them: `onMutate`, then the POST, whose failure is the input
      `requestFailed`, then `onError` if it failed, then `onSettled`. The
      result is what `onMutate` returned; when it threw, the lifecycle stops
      there.
      On failure the cache holds exactly what it held before; on success it
      holds the optimistic entry; either way the list is marked stale, and no
      other key's data or staleness changes. This is the lifecycle of one
      mutation whose callbacks no other mutation's callbacks interleave with;
      `OverlappingFailedMutations` shows what happens when they do. */
  method AddSuperHero(client: QueryClient, newHero: map<string, Json>, requestFailed: bool)
    returns (r: Result<MutationContext>)
    modifies client
    ensures r.Ok? <==> HoldsList(old(client.GetQueryData(SuperHeroesKey)))
    ensures r.Ok? ==> r.value.previousHeroData == old(client.GetQueryData(SuperHeroesKey))
    ensures r.Ok? && requestFailed ==> client.entries == old(client.entries)
    ensures r.Ok? && !requestFailed ==>
      client.entries == old(client.entries)[SuperHeroesKey := AddHeroUpdater(old(client.GetQueryData(SuperHeroesKey)), newHero).value]
    ensures r.Ok? ==> client.stale == old(client.stale) + {SuperHeroesKey}
    ensures r.TypeError? ==> client.entries == old(client.entries) && client.stale == old(client.stale)
    ensures client.fetching == old(client.fetching) - {SuperHeroesKey}
  {
    r := OnMutate(client, newHero);
    if r.TypeError? {
      return;
    }
    if requestFailed {
      ghost var optimistic := client.entries;
      OnError(client, r.value);
      // the snapshot is present, so writing it back restores the whole map
      assert client.entries == optimistic[SuperHeroesKey := old(client.entries)[SuperHeroesKey]];
      assert client.entries == old(client.entries);
    }
    OnSettled(client);
  }

  /** Two mutations whose callbacks interleave: the page does not disable
      its button, so a second hero can be added while the first POST is
      pending. With both POSTs failing, in the order A's `onMutate`, B's
      `onMutate`, A's `onError`, B's `onError`, B's snapshot is A's
      optimistic entry, and writing it back last leaves A's hero in the
      cache: the rollback round trip does not hold for overlapping
      mutations. */
  method OverlappingFailedMutations(client: QueryClient, heroA: map<string, Json>, heroB: map<string, Json>)
    returns (a: Result<MutationContext>, b: Result<MutationContext>)
    modifies client
    ensures a.Ok? <==> HoldsList(old(client.GetQueryData(SuperHeroesKey)))
    ensures a.Ok? ==> b.Ok?
    ensures a.Ok? ==> client.GetQueryData(SuperHeroesKey) == Some(AddHeroUpdater(old(client.GetQueryData(SuperHeroesKey)), heroA).value)
    ensures a.Ok? ==> client.GetQueryData(SuperHeroesKey) != old(client.GetQueryData(SuperHeroesKey))
  {
    ghost var before := client.GetQueryData(SuperHeroesKey);
    a := OnMutate(client, heroA);
    if a.TypeError? {
      return a, a;
    }
    ghost var optimisticA := client.GetQueryData(SuperHeroesKey);
    b := OnMutate(client, heroB);
    OnError(client, a.value);
    OnError(client, b.value);
    assert client.GetQueryData(SuperHeroesKey) == optimisticA;
    assert |ListOf(optimisticA)| == |ListOf(before)| + 1;
  }
}
