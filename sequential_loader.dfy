/**
 * The sequential loader of src/systems/LoadingManager.js: a store (`isLoading`, `progress`,
 * `errors`, `assets`) and an `AssetLoader` whose `loadAll` awaits one asset at a time, textures
 * first, then models, then sounds, storing each under a key prefixed by its kind. The first
 * failure is appended to `errors` and ends the run: nothing more is loaded, `isLoading` stays
 * as it was and nothing is rethrown.
 */
module SequentialLoading {
  import opened Wrappers
  import opened AssetLoading

  const Textures: seq<Entry> := [Entry("environment", "/assets/textures/environment.jpg")]

  const Models: seq<Entry> := [Entry("logo", "/assets/models/edc-logo.glb")]

  const Sounds: seq<Entry> := [
    Entry("background", "/assets/sounds/background.mp3"),
    Entry("hover", "/assets/sounds/hover.mp3"),
    Entry("click", "/assets/sounds/click.mp3"),
    Entry("transition", "/assets/sounds/transition.mp3")]

  const TexturePrefix: string := "texture_"
  const ModelPrefix: string := "model_"
  const SoundPrefix: string := "sound_"

  /** The store keys of a kind's entries, in manifest order. */
  function Prefixed(prefix: string, entries: seq<Entry>): (keys: seq<string>)
    ensures |keys| == |entries|
    ensures forall i :: 0 <= i < |entries| ==> keys[i] == prefix + entries[i].key
  {
    seq(|entries|, i requires 0 <= i < |entries| => prefix + entries[i].key)
  }

  /** Keys of different kinds never collide, and within a kind the prefix keeps keys apart. */
  lemma PrefixedKeysAreDistinct(a: string, b: string)
    ensures TexturePrefix + a != ModelPrefix + b
    ensures TexturePrefix + a != SoundPrefix + b
    ensures ModelPrefix + a != SoundPrefix + b
    ensures SoundPrefix + a == SoundPrefix + b ==> a == b
  {
    assert (TexturePrefix + a)[0] == 't' && (ModelPrefix + b)[0] == 'm' && (SoundPrefix + b)[0] == 's';
    assert (ModelPrefix + a)[0] == 'm';
    if SoundPrefix + a == SoundPrefix + b {
      assert a == (SoundPrefix + a)[|SoundPrefix|..];
      assert b == (SoundPrefix + b)[|SoundPrefix|..];
    }
  }

  lemma PrefixInjective(prefix: string, a: string, b: string)
    ensures prefix + a == prefix + b ==> a == b
  {
    if prefix + a == prefix + b {
      assert a == (prefix + a)[|prefix|..];
      assert b == (prefix + b)[|prefix|..];
    }
  }

  /** How many loads succeed before the first failure, i.e. how far the awaited loop gets. */
  function LeadingSuccesses(outcomes: seq<LoadOutcome>): (k: nat)
    ensures k <= |outcomes|
    ensures forall i :: 0 <= i < k ==> outcomes[i].Loaded?
    ensures k < |outcomes| ==> outcomes[k].Failed?
    ensures k == |outcomes| <==> AllLoaded(outcomes)
  {
    if outcomes == [] then 0
    else if outcomes[0].Failed? then
      assert outcomes[0] in outcomes;
      0
    else
      var k := 1 + LeadingSuccesses(outcomes[1..]);
      assert forall i :: 1 <= i < k ==> outcomes[i] == outcomes[1..][i - 1];
      k
  }

  /** The assets stored by the first `k` loads, under their prefixed keys. */
  function Stored(keys: seq<string>, outcomes: seq<LoadOutcome>, k: nat): (r: map<string, Asset>)
    requires k <= |keys| && k <= |outcomes|
    requires forall i :: 0 <= i < k ==> outcomes[i].Loaded?
    ensures k == 0 ==> r == map[]
    ensures k > 0 ==> keys[k - 1] in r && r[keys[k - 1]] == outcomes[k - 1].asset
  {
    if k == 0 then map[] else Stored(keys, outcomes, k - 1)[keys[k - 1] := outcomes[k - 1].asset]
  }

  /** The first `k` keys are stored, each holding the resource its own load produced, and nothing else is. */
  lemma {:induction false} StoredAt(keys: seq<string>, outcomes: seq<LoadOutcome>, k: nat)
    requires k <= |keys| && k <= |outcomes|
    requires forall i :: 0 <= i < k ==> outcomes[i].Loaded?
    requires forall i, j :: 0 <= i < j < |keys| ==> keys[i] != keys[j]
    ensures Stored(keys, outcomes, k).Keys == set i | 0 <= i < k :: keys[i]
    ensures forall i :: 0 <= i < k ==> Stored(keys, outcomes, k)[keys[i]] == outcomes[i].asset
  {
    if k > 0 {
      StoredAt(keys, outcomes, k - 1);
      var prev := set i | 0 <= i < k - 1 :: keys[i];
      assert (set i | 0 <= i < k :: keys[i]) == prev + {keys[k - 1]};
    }
  }

  /** What one kind's loop stores: its leading successes. */
  function KindStored(prefix: string, entries: seq<Entry>, outcomes: seq<LoadOutcome>): (r: map<string, Asset>)
    requires |outcomes| == |entries|
    ensures AllLoaded(outcomes) && |entries| > 0 ==> Prefixed(prefix, entries)[|entries| - 1] in r
  {
    Stored(Prefixed(prefix, entries), outcomes, LeadingSuccesses(outcomes))
  }

  /** The number of assets `loadAll` loads: a kind is only reached if every earlier asset loaded. */
  function Completed(t: seq<LoadOutcome>, m: seq<LoadOutcome>, s: seq<LoadOutcome>): (n: nat)
    ensures n <= |t| + |m| + |s|
    ensures n == |t| + |m| + |s| <==> AllLoaded(t) && AllLoaded(m) && AllLoaded(s)
  {
    LeadingSuccesses(t) + (if AllLoaded(t) then LeadingSuccesses(m) + (if AllLoaded(m) then LeadingSuccesses(s) else 0) else 0)
  }

  /** The assets `loadAll` adds to the store. */
  function AddedAssets(t: seq<LoadOutcome>, m: seq<LoadOutcome>, s: seq<LoadOutcome>): (r: map<string, Asset>)
    requires |t| == |Textures| && |m| == |Models| && |s| == |Sounds|
    ensures KindStored(TexturePrefix, Textures, t).Keys <= r.Keys
    ensures !AllLoaded(t) ==> r == KindStored(TexturePrefix, Textures, t)
  {
    KindStored(TexturePrefix, Textures, t) +
      (if AllLoaded(t) then KindStored(ModelPrefix, Models, m) +
        (if AllLoaded(m) then KindStored(SoundPrefix, Sounds, s) else map[]) else map[])
  }

  /** The error the run stops at, if any. */
  function RunError(t: seq<LoadOutcome>, m: seq<LoadOutcome>, s: seq<LoadOutcome>): (r: Option<Error>)
    ensures r.None? <==> AllLoaded(t) && AllLoaded(m) && AllLoaded(s)
  {
    if !AllLoaded(t) then Some(t[LeadingSuccesses(t)].error)
    else if !AllLoaded(m) then Some(m[LeadingSuccesses(m)].error)
    else if !AllLoaded(s) then Some(s[LeadingSuccesses(s)].error)
    else None
  }

  /** A run that stops at a texture stored only the textures before the failure. */
  lemma StopsAtTexture(t: seq<LoadOutcome>, m: seq<LoadOutcome>, s: seq<LoadOutcome>)
    requires |t| == |Textures| && |m| == |Models| && |s| == |Sounds| && !AllLoaded(t)
    ensures Completed(t, m, s) == LeadingSuccesses(t)
    ensures RunError(t, m, s) == Some(t[LeadingSuccesses(t)].error)
    ensures AddedAssets(t, m, s) == KindStored(TexturePrefix, Textures, t)
  {
  }

  /** A run that stops at a model stored every texture and the models before the failure. */
  lemma StopsAtModel(t: seq<LoadOutcome>, m: seq<LoadOutcome>, s: seq<LoadOutcome>)
    requires |t| == |Textures| && |m| == |Models| && |s| == |Sounds| && AllLoaded(t) && !AllLoaded(m)
    ensures Completed(t, m, s) == |t| + LeadingSuccesses(m)
    ensures RunError(t, m, s) == Some(m[LeadingSuccesses(m)].error)
    ensures AddedAssets(t, m, s) == KindStored(TexturePrefix, Textures, t) + KindStored(ModelPrefix, Models, m)
  {
  }

  /** A run that reaches the sounds stored every texture and model and the sounds up to the first failure, if any. */
  lemma ReachesSounds(t: seq<LoadOutcome>, m: seq<LoadOutcome>, s: seq<LoadOutcome>)
    requires |t| == |Textures| && |m| == |Models| && |s| == |Sounds| && AllLoaded(t) && AllLoaded(m)
    ensures Completed(t, m, s) == |t| + |m| + LeadingSuccesses(s)
    ensures RunError(t, m, s) == if AllLoaded(s) then None else Some(s[LeadingSuccesses(s)].error)
    ensures AddedAssets(t, m, s) ==
      KindStored(TexturePrefix, Textures, t) + KindStored(ModelPrefix, Models, m) + KindStored(SoundPrefix, Sounds, s)
  {
    var kt, km, ks := KindStored(TexturePrefix, Textures, t), KindStored(ModelPrefix, Models, m), KindStored(SoundPrefix, Sounds, s);
    assert AddedAssets(t, m, s) == kt + (km + ks);
    UnionAssociative(kt, km, ks);
  }

  lemma UnionAssociative<K, V>(a: map<K, V>, b: map<K, V>, c: map<K, V>)
    ensures a + (b + c) == a + b + c
  {
    var l, r := a + (b + c), a + b + c;
    assert l.Keys == r.Keys;
    forall k | k in l.Keys ensures l[k] == r[k] {
    }
  }

  /** The store keys of one kind. */
  function KindKeys(prefix: string, entries: seq<Entry>): set<string> {
    set i | 0 <= i < |entries| :: prefix + entries[i].key
  }

  /** When every load of a kind succeeds, each of its keys holds the resource its own load produced. */
  lemma KindStoredComplete(prefix: string, entries: seq<Entry>, outcomes: seq<LoadOutcome>)
    requires |outcomes| == |entries| && AllLoaded(outcomes) && DistinctKeys(entries)
    ensures KindStored(prefix, entries, outcomes).Keys == KindKeys(prefix, entries)
    ensures forall i :: 0 <= i < |entries| ==> KindStored(prefix, entries, outcomes)[prefix + entries[i].key] == outcomes[i].asset
  {
    var keys := Prefixed(prefix, entries);
    forall i, j | 0 <= i < j < |keys| ensures keys[i] != keys[j] {
      PrefixInjective(prefix, entries[i].key, entries[j].key);
    }
    StoredAt(keys, outcomes, |entries|);
    assert (set i | 0 <= i < |entries| :: keys[i]) == KindKeys(prefix, entries);
  }

  /**
   * A complete run stores every manifest entry under its prefixed key, holding the resource its
   * own load produced, and nothing else: the kinds' keys cannot overwrite one another.
   */
  lemma CompleteRunStoresEveryKey(t: seq<LoadOutcome>, m: seq<LoadOutcome>, s: seq<LoadOutcome>)
    requires |t| == |Textures| && |m| == |Models| && |s| == |Sounds|
    requires AllLoaded(t) && AllLoaded(m) && AllLoaded(s)
    ensures Completed(t, m, s) == 6
    ensures AddedAssets(t, m, s).Keys == KindKeys(TexturePrefix, Textures) + KindKeys(ModelPrefix, Models) + KindKeys(SoundPrefix, Sounds)
    ensures AddedAssets(t, m, s)[TexturePrefix + Textures[0].key] == t[0].asset
    ensures AddedAssets(t, m, s)[ModelPrefix + Models[0].key] == m[0].asset
    ensures forall i :: 0 <= i < |Sounds| ==> AddedAssets(t, m, s)[SoundPrefix + Sounds[i].key] == s[i].asset
  {
    KindStoredComplete(TexturePrefix, Textures, t);
    KindStoredComplete(ModelPrefix, Models, m);
    KindStoredComplete(SoundPrefix, Sounds, s);
    var kt, km, ks := KindStored(TexturePrefix, Textures, t), KindStored(ModelPrefix, Models, m), KindStored(SoundPrefix, Sounds, s);
    assert AddedAssets(t, m, s) == kt + (km + ks);
    var tKey, mKey := TexturePrefix + Textures[0].key, ModelPrefix + Models[0].key;
    forall b | b in KindKeys(SoundPrefix, Sounds) ensures tKey != b && mKey != b {
      var i :| 0 <= i < |Sounds| && b == SoundPrefix + Sounds[i].key;
      PrefixedKeysAreDistinct(Textures[0].key, Sounds[i].key);
      PrefixedKeysAreDistinct(Models[0].key, Sounds[i].key);
    }
    PrefixedKeysAreDistinct(Textures[0].key, Models[0].key);
    assert KindKeys(TexturePrefix, Textures) == {tKey} && KindKeys(ModelPrefix, Models) == {mKey};
  }

  /** Progress after each completed load is non-decreasing and is 100 only once all six have loaded. */
  lemma RunProgress(t: seq<LoadOutcome>, m: seq<LoadOutcome>, s: seq<LoadOutcome>, k: nat)
    requires |t| == |Textures| && |m| == |Models| && |s| == |Sounds|
    requires k <= Completed(t, m, s)
    ensures ProgressOf(k, 6) <= ProgressOf(Completed(t, m, s), 6) <= 100.0
    ensures ProgressOf(Completed(t, m, s), 6) == 100.0 <==> AllLoaded(t) && AllLoaded(m) && AllLoaded(s)
  {
    ProgressBounds(k, Completed(t, m, s), 6);
  }

  /** The zustand store behind `useLoadingManager`. */
  class AssetStore {
    var isLoading: bool
    var progress: real
    var errors: seq<Error>
    var assets: map<string, Asset>

    constructor ()
      ensures isLoading && progress == 0.0 && errors == [] && assets == map[]
    {
      isLoading, progress, errors, assets := true, 0.0, [], map[];
    }

    method SetProgress(value: real)
      modifies this
      ensures progress == value
      ensures isLoading == old(isLoading) && errors == old(errors) && assets == old(assets)
    {
      progress := value;
    }

    method SetLoading(value: bool)
      modifies this
      ensures isLoading == value
      ensures progress == old(progress) && errors == old(errors) && assets == old(assets)
    {
      isLoading := value;
    }

    /** Appends, keeping the earlier errors in order. */
    method AddError(e: Error)
      modifies this
      ensures errors == old(errors) + [e]
      ensures isLoading == old(isLoading) && progress == old(progress) && assets == old(assets)
    {
      errors := errors + [e];
    }

    /** Adds or replaces one key, keeping every other. */
    method AddAsset(key: string, a: Asset)
      modifies this
      ensures assets == old(assets)[key := a]
      ensures isLoading == old(isLoading) && progress == old(progress) && errors == old(errors)
    {
      assets := assets[key := a];
    }
  }

  class AssetLoader {
    const store: AssetStore

    constructor (store: AssetStore)
      ensures this.store == store
    {
      this.store := store;
    }

    /**
     * One kind's `for ... of` loop: await each load in turn, store it under its prefixed key,
     * count it and publish the progress; the first failure stops the loop and is returned for
     * the `catch`.
     */
    method LoadKind(prefix: string, entries: seq<Entry>, outcomes: seq<LoadOutcome>, before: nat, total: nat)
      returns (loaded: nat, failure: Option<Error>)
      requires |entries| == |outcomes| && total > 0
      modifies store
      ensures loaded == before + LeadingSuccesses(outcomes)
      ensures failure.None? <==> AllLoaded(outcomes)
      ensures failure.Some? ==> failure.value == outcomes[LeadingSuccesses(outcomes)].error
      ensures store.assets == old(store.assets) + KindStored(prefix, entries, outcomes)
      ensures LeadingSuccesses(outcomes) > 0 ==> store.progress == ProgressOf(loaded, total)
      ensures LeadingSuccesses(outcomes) == 0 ==> store.progress == old(store.progress)
      ensures store.isLoading == old(store.isLoading) && store.errors == old(store.errors)
    {
      var keys := Prefixed(prefix, entries);
      var k := LeadingSuccesses(outcomes);
      loaded, failure := before, None;
      var i := 0;
      while i < |entries|
        invariant 0 <= i <= k
        invariant loaded == before + i
        invariant store.assets == old(store.assets) + Stored(keys, outcomes, i)
        invariant i > 0 ==> store.progress == ProgressOf(loaded, total)
        invariant i == 0 ==> store.progress == old(store.progress)
        invariant store.isLoading == old(store.isLoading) && store.errors == old(store.errors)
      {
        match outcomes[i] {
          case Failed(e) =>
            failure := Some(e);
            return;
          case Loaded(a) =>
            store.AddAsset(prefix + entries[i].key, a);
            loaded := loaded + 1;
            store.SetProgress(loaded as real / total as real * 100.0);
        }
        i := i + 1;
      }
    }

    /**
     * `loadAll`, given the outcome of every loader call per kind. `isLoading` becomes false only
     * when all six assets loaded; on a failure the error is appended and the run ends.
     */
    method LoadAll(t: seq<LoadOutcome>, m: seq<LoadOutcome>, s: seq<LoadOutcome>)
      requires |t| == |Textures| && |m| == |Models| && |s| == |Sounds|
      modifies store
      ensures store.assets == old(store.assets) + AddedAssets(t, m, s)
      ensures Completed(t, m, s) > 0 ==> store.progress == ProgressOf(Completed(t, m, s), 6)
      ensures Completed(t, m, s) == 0 ==> store.progress == old(store.progress)
      ensures RunError(t, m, s).None? ==> !store.isLoading && store.errors == old(store.errors)
      ensures RunError(t, m, s).Some? ==>
        store.isLoading == old(store.isLoading) && store.errors == old(store.errors) + [RunError(t, m, s).value]
    {
      var total := |Textures| + |Models| + |Sounds|;
      ghost var start := store.assets;
      var loaded, failure := LoadKind(TexturePrefix, Textures, t, 0, total);
      if failure.Some? {
        StopsAtTexture(t, m, s);
        store.AddError(failure.value);
        return;
      }
      ghost var kt := KindStored(TexturePrefix, Textures, t);
      loaded, failure := LoadKind(ModelPrefix, Models, m, loaded, total);
      ghost var km := KindStored(ModelPrefix, Models, m);
      if failure.Some? {
        StopsAtModel(t, m, s);
        UnionAssociative(start, kt, km);
        store.AddError(failure.value);
        return;
      }
      assert store.progress == ProgressOf(|t| + |m|, total);
      loaded, failure := LoadKind(SoundPrefix, Sounds, s, loaded, total);
      ghost var ks := KindStored(SoundPrefix, Sounds, s);
      ReachesSounds(t, m, s);
      UnionAssociative(start, kt, km);
      UnionAssociative(start, kt + km, ks);
      if failure.Some? {
        store.AddError(failure.value);
        return;
      }
      store.SetLoading(false);
    }
  }
}
