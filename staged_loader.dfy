/**
 * The staged loader of src/systems/LoadingManager.jsx: a progress store (`loadedItems`,
 * `totalItems`, `progress`, `isLoading`) and a `LoadingManager` whose `loadAll` loads all
 * textures together, then all models, then all fonts, each stage awaited with `Promise.all`.
 * Every successful load bumps the store by one before it resolves; a failed load rejects
 * without touching progress, and the first rejection aborts the remaining stages.
 */
module StagedLoading {
  import opened Wrappers
  import opened AssetLoading

  const Textures: seq<Entry> := [
    Entry("envMap", "/assets/textures/environment.jpg"),
    Entry("groundTexture", "/assets/textures/ground.jpg")]

  const Models: seq<Entry> := [
    Entry("edcLogo", "/assets/models/edc-logo.glb"),
    Entry("decorations", "/assets/models/decorations.glb")]

  const Fonts: seq<Entry> := [Entry("cyberpunk", "/fonts/cyberpunk.json")]

  /** The three tables `loadAll` resolves with. */
  datatype Tables = Tables(textures: map<string, Asset>, models: map<string, Asset>, fonts: map<string, Asset>)

  /** The number of loads that complete in one `loadAll`: a stage only runs if the previous one fully succeeded. */
  function SettledSuccesses(t: seq<LoadOutcome>, m: seq<LoadOutcome>, f: seq<LoadOutcome>): (n: nat)
    ensures n <= |t| + |m| + |f|
    ensures AllLoaded(t) && AllLoaded(m) && AllLoaded(f) ==> n == |t| + |m| + |f|
  {
    Successes(t) + (if AllLoaded(t) then Successes(m) + (if AllLoaded(m) then Successes(f) else 0) else 0)
  }

  /** What `loadAll` resolves or rejects with, given the outcome of every loader call of each stage. */
  function LoadAllOutcome(t: seq<LoadOutcome>, m: seq<LoadOutcome>, f: seq<LoadOutcome>): (r: Result<Tables, Error>)
    requires |t| == |Textures| && |m| == |Models| && |f| == |Fonts|
    ensures r.Success? <==> AllLoaded(t) && AllLoaded(m) && AllLoaded(f)
  {
    match FirstFailure(t)
    case Some(e) => Failure(e)
    case None =>
      match FirstFailure(m)
      case Some(e) => Failure(e)
      case None =>
        match FirstFailure(f)
        case Some(e) => Failure(e)
        case None => Success(Tables(Table(Textures, t), Table(Models, m), Table(Fonts, f)))
  }

  /**
   * A successful `loadAll` returns tables with exactly the manifest's keys, each holding the
   * resource its own load produced; a failure reports the first failing stage's error.
   */
  lemma LoadAllTables(t: seq<LoadOutcome>, m: seq<LoadOutcome>, f: seq<LoadOutcome>)
    requires |t| == |Textures| && |m| == |Models| && |f| == |Fonts|
    ensures var r := LoadAllOutcome(t, m, f);
      r.Success? ==>
        && r.value.textures.Keys == {"envMap", "groundTexture"}
        && r.value.models.Keys == {"edcLogo", "decorations"}
        && r.value.fonts.Keys == {"cyberpunk"}
        && r.value.textures["envMap"] == t[0].asset && r.value.textures["groundTexture"] == t[1].asset
        && r.value.models["edcLogo"] == m[0].asset && r.value.models["decorations"] == m[1].asset
        && r.value.fonts["cyberpunk"] == f[0].asset
    ensures var r := LoadAllOutcome(t, m, f);
      r.Failure? ==> Some(r.error) == (if !AllLoaded(t) then FirstFailure(t) else if !AllLoaded(m) then FirstFailure(m) else FirstFailure(f))
  {
    if AllLoaded(t) && AllLoaded(m) && AllLoaded(f) {
      TextureTable(t);
      ModelTable(m);
      FontTable(f);
    }
  }

  lemma TextureTable(t: seq<LoadOutcome>)
    requires |t| == |Textures| && AllLoaded(t)
    ensures Table(Textures, t).Keys == {"envMap", "groundTexture"}
    ensures Table(Textures, t)["envMap"] == t[0].asset && Table(Textures, t)["groundTexture"] == t[1].asset
  {
    assert KeysOf(Textures) == {"envMap", "groundTexture"};
    TableAt(Textures, t, 0);
    TableAt(Textures, t, 1);
  }

  lemma ModelTable(m: seq<LoadOutcome>)
    requires |m| == |Models| && AllLoaded(m)
    ensures Table(Models, m).Keys == {"edcLogo", "decorations"}
    ensures Table(Models, m)["edcLogo"] == m[0].asset && Table(Models, m)["decorations"] == m[1].asset
  {
    assert KeysOf(Models) == {"edcLogo", "decorations"};
    TableAt(Models, m, 0);
    TableAt(Models, m, 1);
  }

  lemma FontTable(f: seq<LoadOutcome>)
    requires |f| == |Fonts| && AllLoaded(f)
    ensures Table(Fonts, f).Keys == {"cyberpunk"}
    ensures Table(Fonts, f)["cyberpunk"] == f[0].asset
  {
    assert KeysOf(Fonts) == {"cyberpunk"};
    TableAt(Fonts, f, 0);
  }

  /**
   * Starting from a fresh store, a successful cycle completes exactly `totalItems` loads, so the
   * last `updateProgress` already published 100.
   */
  lemma FreshCycleEndsAtHundred(t: seq<LoadOutcome>, m: seq<LoadOutcome>, f: seq<LoadOutcome>)
    requires |t| == |Textures| && |m| == |Models| && |f| == |Fonts|
    requires AllLoaded(t) && AllLoaded(m) && AllLoaded(f)
    ensures SettledSuccesses(t, m, f) == |Textures| + |Models| + |Fonts| == 5
    ensures ProgressOf(SettledSuccesses(t, m, f), 5) == 100.0
  {
  }

  /** What settling one more load of a stage adds to the count, the first failure and the table. */
  lemma StageStep(entries: seq<Entry>, outcomes: seq<LoadOutcome>, i: nat)
    requires |entries| == |outcomes| && i < |outcomes|
    ensures Successes(outcomes[..i + 1]) == Successes(outcomes[..i]) + (if outcomes[i].Loaded? then 1 else 0)
    ensures FirstFailure(outcomes[..i + 1]) ==
      if FirstFailure(outcomes[..i]).Some? then FirstFailure(outcomes[..i])
      else if outcomes[i].Failed? then Some(outcomes[i].error) else None
    ensures AllLoaded(outcomes[..i]) && outcomes[i].Loaded? ==>
      AllLoaded(outcomes[..i + 1]) &&
      Table(entries[..i + 1], outcomes[..i + 1]) == Table(entries[..i], outcomes[..i])[entries[i].key := outcomes[i].asset]
  {
    assert outcomes[..i + 1] == outcomes[..i] + [outcomes[i]];
    assert entries[..i + 1] == entries[..i] + [entries[i]];
    SuccessesSnoc(outcomes[..i], outcomes[i]);
    FirstFailureSnoc(outcomes[..i], outcomes[i]);
    if AllLoaded(outcomes[..i]) && outcomes[i].Loaded? {
      TableSnoc(entries[..i], outcomes[..i], entries[i], outcomes[i].asset);
    }
  }

  /** The zustand store behind `useLoading`. */
  class LoadingStore {
    var progress: real
    var isLoading: bool
    var totalItems: nat
    var loadedItems: nat

    constructor ()
      ensures progress == 0.0 && isLoading && totalItems == 0 && loadedItems == 0
    {
      progress, isLoading, totalItems, loadedItems := 0.0, true, 0, 0;
    }

    method SetProgress(value: real)
      modifies this
      ensures progress == value
      ensures isLoading == old(isLoading) && totalItems == old(totalItems) && loadedItems == old(loadedItems)
    {
      progress := value;
    }

    method SetIsLoading(value: bool)
      modifies this
      ensures isLoading == value
      ensures progress == old(progress) && totalItems == old(totalItems) && loadedItems == old(loadedItems)
    {
      isLoading := value;
    }

    method SetTotalItems(value: nat)
      modifies this
      ensures totalItems == value
      ensures progress == old(progress) && isLoading == old(isLoading) && loadedItems == old(loadedItems)
    {
      totalItems := value;
    }

    /** One more item completed: count it and publish the new percentage. */
    method UpdateProgress()
      requires totalItems > 0
      modifies this
      ensures isLoading == old(isLoading) && totalItems == old(totalItems)
      ensures loadedItems == old(loadedItems) + 1
      ensures progress == ProgressOf(loadedItems, totalItems)
    {
      progress := (loadedItems + 1) as real / totalItems as real * 100.0;
      loadedItems := loadedItems + 1;
    }
  }

  class LoadingManager {
    const store: LoadingStore

    /** The store's total is the size of the manifest. */
    ghost predicate Valid()
      reads this, store
    {
      store.totalItems == |Textures| + |Models| + |Fonts|
    }

    constructor (store: LoadingStore)
      modifies store
      ensures this.store == store && Valid() && store.totalItems == 5
      ensures store.progress == old(store.progress) && store.isLoading == old(store.isLoading)
      ensures store.loadedItems == old(store.loadedItems)
    {
      this.store := store;
      new;
      store.SetTotalItems(|Textures| + |Models| + |Fonts|);
    }

    /** The entry of `loadAll`: loading again from 0 %, without resetting the completed-item count. */
    method BeginCycle()
      requires Valid()
      modifies store
      ensures Valid() && store.isLoading && store.progress == 0.0
      ensures store.loadedItems == old(store.loadedItems)
    {
      store.SetIsLoading(true);
      store.SetProgress(0.0);
    }

    /**
     * One `Promise.all` stage, in its settled state: every load of the stage runs and each success
     * bumps the store; the stage resolves with the table of its entries when all succeed, and
     * rejects with the first failing entry's error otherwise.
     */
    method LoadStage(entries: seq<Entry>, outcomes: seq<LoadOutcome>) returns (r: Result<map<string, Asset>, Error>)
      requires Valid() && |entries| == |outcomes|
      modifies store
      ensures Valid()
      ensures store.loadedItems == old(store.loadedItems) + Successes(outcomes)
      ensures Successes(outcomes) > 0 ==> store.progress == ProgressOf(store.loadedItems, store.totalItems)
      ensures Successes(outcomes) == 0 ==> store.progress == old(store.progress)
      ensures old(store.loadedItems) >= store.totalItems && Successes(outcomes) > 0 ==> store.progress > 100.0
      ensures store.isLoading == old(store.isLoading)
      ensures r.Success? <==> AllLoaded(outcomes)
      ensures r.Success? ==> r.value == Table(entries, outcomes)
      ensures r.Failure? ==> FirstFailure(outcomes) == Some(r.error)
    {
      var i := 0;
      var table: map<string, Asset> := map[];
      var failure: Option<Error> := None;
      while i < |outcomes|
        invariant 0 <= i <= |outcomes|
        invariant Valid() && store.isLoading == old(store.isLoading)
        invariant store.loadedItems == old(store.loadedItems) + Successes(outcomes[..i])
        invariant Successes(outcomes[..i]) > 0 ==> store.progress == ProgressOf(store.loadedItems, store.totalItems)
        invariant Successes(outcomes[..i]) == 0 ==> store.progress == old(store.progress)
        invariant failure == FirstFailure(outcomes[..i])
        invariant failure.None? ==> table == Table(entries[..i], outcomes[..i])
      {
        StageStep(entries, outcomes, i);
        match outcomes[i] {
          case Loaded(a) =>
            store.UpdateProgress();
            if failure.None? {
              table := table[entries[i].key := a];
            }
          case Failed(e) =>
            if failure.None? {
              failure := Some(e);
            }
        }
        i := i + 1;
      }
      assert outcomes[..i] == outcomes && entries[..i] == entries;
      ProgressBounds(store.loadedItems, store.loadedItems, store.totalItems);
      if failure.Some? {
        r := Failure(failure.value);
      } else {
        r := Success(table);
      }
    }

    /**
     * `loadAll` in its settled state, given the outcome of every loader call. On success the store
     * ends at 100 % and not loading; on failure it stops loading, keeps the progress of the last
     * completed load, and the error is rethrown (returned as `Failure`).
     */
    method LoadAll(t: seq<LoadOutcome>, m: seq<LoadOutcome>, f: seq<LoadOutcome>) returns (r: Result<Tables, Error>)
      requires Valid()
      requires |t| == |Textures| && |m| == |Models| && |f| == |Fonts|
      modifies store
      ensures Valid() && !store.isLoading
      ensures r == LoadAllOutcome(t, m, f)
      ensures store.loadedItems == old(store.loadedItems) + SettledSuccesses(t, m, f)
      ensures r.Success? ==> store.progress == 100.0
      ensures r.Failure? && SettledSuccesses(t, m, f) > 0 ==> store.progress == ProgressOf(store.loadedItems, store.totalItems)
      ensures r.Failure? && SettledSuccesses(t, m, f) == 0 ==> store.progress == 0.0
    {
      BeginCycle();
      var textures := LoadStage(Textures, t);
      if textures.Failure? {
        store.SetIsLoading(false);
        return Failure(textures.error);
      }
      var models := LoadStage(Models, m);
      if models.Failure? {
        store.SetIsLoading(false);
        return Failure(models.error);
      }
      var fonts := LoadStage(Fonts, f);
      if fonts.Failure? {
        store.SetIsLoading(false);
        return Failure(fonts.error);
      }
      store.SetIsLoading(false);
      store.SetProgress(100.0);
      r := Success(Tables(textures.value, models.value, fonts.value));
    }

    /**
     * `loadAll` resets `progress` but not `loadedItems`: on a fresh store, a successful cycle
     * followed by one whose first texture loads and whose second fails leaves 120 % published.
     */
    method SecondCycleOvershoots(t: seq<LoadOutcome>, m: seq<LoadOutcome>, f: seq<LoadOutcome>, a: Asset, e: Error)
      returns (first: Result<Tables, Error>, second: Result<Tables, Error>)
      requires Valid() && store.loadedItems == 0
      requires |t| == |Textures| && |m| == |Models| && |f| == |Fonts|
      requires AllLoaded(t) && AllLoaded(m) && AllLoaded(f)
      modifies store
      ensures first.Success? && second == Failure(e)
      ensures store.loadedItems == 6 && store.progress == 120.0 && !store.isLoading
    {
      first := LoadAll(t, m, f);
      var again := [Loaded(a), Failed(e)];
      assert again[..1] == [Loaded(a)] && again[..2] == again;
      assert Successes(again) == 1 && !AllLoaded(again) && FirstFailure(again) == Some(e);
      second := LoadAll(again, m, f);
    }
  }
}
