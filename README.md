# EDC MAIT 3D website — state logic in Dafny

The EDC MAIT website is a React / three.js scene. Under its meshes, shaders and animation sit a few
small pieces of sequential state logic, and this project models them and proves their properties:

- **Pointer interaction** (`EventSystem`, `Highlight`). A zustand store holds the set of
  interactive objects and the hovered and selected slots. Window listeners turn a ray test into
  store updates. Each component's `useInteractive` hook compares its own object with the slots.
  `InteractiveHighlight` paints the hovered and selected objects and restores their emissive
  colour. The ray test is an input: a hit list, nearest first.
- **Asset loading** (`AssetLoading`, `StagedLoading`, `SequentialLoading`). The staged
  `LoadingManager` loads each kind with `Promise.all` and publishes progress through
  `updateProgress`. The sequential `AssetLoader` awaits one asset at a time, stores it under a
  prefixed key and stops at the first failure. Every loader call is an abstract success or
  failure.
- **Audio** (`Audio`, `AudioSystem`, `SoundControls`). The `audioManager` singleton, the React
  `AudioProvider`, and the sound panel that mirrors its state and offers presets. Each Howler
  sound is an abstract record: loop, volume, mute, playing, pan, unloaded.
- **Camera sections** (`Camera`). The table of camera poses, the section store, the controller
  effect that kills and restarts its timeline, and the guarded `transitionTo`.
- **UI counters and layout** (`Carousel`, `CyberpunkInterface`, `LoadingScreen`, `TeamSection`,
  `GalleryGrid`, `GalleryPanel`, `Navigation`). The carousel's modular index and damped speed,
  the saturating counters, grid placement, selection and modal state, and section lookup.

Each core file's logic lives in its own module or modules. EventSystem.js is split into `EventSystem` and `Highlight`, and `AssetLoading` holds what both LoadingManager files share. Code that updates state step by step becomes a `class`, with
`modifies` clauses and loops carrying their invariants. The pure parts become functions and
lemmas. Timers, animation frames and loader completions are explicit steps, called in the order
the program runs them. `Math.random()` and `Math.sqrt` results, ray-test hits and loader
outcomes are parameters.

## Model

| member | source | states |
|---|---|---|
| EventSystem.FirstHit | src/systems/EventSystem.jsx:113-120 | the hovered/selected object is nothing exactly when the hit list is empty, and otherwise is the target of the first (nearest) hit |
| EventSystem.CursorFor | src/systems/EventSystem.jsx:113-120 | the cursor is 'pointer' exactly when something was hit, otherwise 'default' |
| EventSystem.FirstHitIsNearest | src/systems/EventSystem.jsx:111-114 | with hits ordered by distance, the object chosen is at least as near as every other hit |
| EventSystem.NormalizeX | src/systems/EventSystem.jsx:107 | a pointer inside the window maps into [-1, 1]; the left edge maps to -1 and the right edge to 1, and only they do |
| EventSystem.NormalizeY | src/systems/EventSystem.jsx:108 | the vertical coordinate is the horizontal mapping negated (up is positive), lies in [-1, 1] inside the window, and is 1 exactly at the top edge |
| EventSystem.EventStore.constructor | src/systems/EventSystem.jsx:6-9 | the store starts with no hovered object, no selected object and an empty registry |
| EventSystem.EventStore.SetHovered | src/systems/EventSystem.jsx:10 | replaces only the hovered slot |
| EventSystem.EventStore.SetSelected | src/systems/EventSystem.jsx:11 | replaces only the selected slot |
| EventSystem.EventStore.RegisterObject | src/systems/EventSystem.jsx:12-18 | adds the object to the registry, idempotently; enables layer 1 exactly on an object with a layer mask; the slots are untouched; the older variant, EventSystem.js lines 13-16 (`layering` false), adds the object and enables no layer |
| EventSystem.EventStore.UnregisterObject | src/systems/EventSystem.jsx:19-22 | removes the object; unregistering an absent object leaves the registry unchanged; layers and slots untouched; the older variant, EventSystem.js lines 17-20, behaves the same |
| EventSystem.PointerRouter.constructor | src/systems/EventSystem.jsx:99-103 | the router starts with the default cursor, attached to the given store |
| EventSystem.PointerRouter.HandlePointerMove | src/systems/EventSystem.jsx:106-121 | stores the normalised pointer; hovers the first hit or nothing; shows the matching cursor; selection and registry are untouched; the older variant, EventSystem.js lines 29-51, behaves the same |
| EventSystem.PointerRouter.HandleClick | src/systems/EventSystem.jsx:124-136 | a non-primary button changes nothing; a left click selects the first hit or clears the selection; hover and registry are untouched; the older variant, EventSystem.js lines 53-69, behaves the same |
| EventSystem.PointerRouter.Teardown | src/systems/EventSystem.jsx:143-147 | removing the listeners resets the cursor to 'default'; the older variant, EventSystem.js lines 75-79, behaves the same |
| EventSystem.SameHandle | src/systems/EventSystem.jsx:92-95 | `isHovered`/`isSelected` of an attached component hold exactly when the slot holds its own object; a ref not yet set never matches; a ref cleared to null matches an empty slot; the older variant, EventSystem.js lines 124-127, behaves the same |
| EventSystem.AtMostOneReports | src/systems/EventSystem.jsx:92-95 | two components that both report the same slot hold the same object, so at most one object reports hovered and at most one reports selected |
| EventSystem.HoverReaction | src/systems/EventSystem.jsx:61-74 | on a hover change a mounted component runs onHover exactly when it is hovered and onUnhover exactly when it is not; never a selection callback; the older variant, EventSystem.js lines 104-112, chooses the same callback but runs more often (see Left out) |
| EventSystem.SelectReaction | src/systems/EventSystem.jsx:77-90 | on a selection change a mounted component runs onClick exactly when it is selected and onDeselect exactly when it is not; the older variant, EventSystem.js lines 114-122, chooses the same callback but runs more often (see Findings) |
| EventSystem.EffectRuns | src/systems/EventSystem.js:104-122 | an effect runs after a render whenever its slot changed; with the callbacks among its dependencies (EventSystem.js) also whenever they were renewed; with the slot alone (EventSystem.jsx lines 61-90) exactly when the slot changed |
| EventSystem.RenderFired | src/systems/EventSystem.jsx:61-90 | the callbacks one render runs, hover effect before selection effect: at most two, and none for a ref without a node |
| EventSystem.Fired | src/systems/EventSystem.jsx:61-90 | the callbacks a component runs over a run of renders, hover effect before selection effect: at most two per render, and none for a ref without a node |
| EventSystem.Selections | src/systems/EventSystem.jsx:77-90 | counts the renders at which the selected slot changes to the node from something else: at most one per render, and none if the node is never selected |
| EventSystem.RepeatedClickAsWritten | src/systems/EventSystem.js:114-122 | with the callbacks among the selection effect's dependencies, a selected component re-rendered by a hover change with fresh inline callbacks runs onClick again with no new selection |
| EventSystem.ClickOncePerSelection | src/systems/EventSystem.jsx:77-90 | with the slot as the only dependency, over any run of renders a component runs onClick exactly as many times as the selection changes to its own node |
| EventSystem.RenderClicks | src/systems/EventSystem.jsx:77-90 | with the slot as the only dependency, one render runs onClick exactly when the selection moves to the component's own node |
| EventSystem.DetachedComponentIsSilent | src/systems/EventSystem.jsx:62-63 | a component whose ref holds no node runs no callback |
| EventSystem.MountRegistration | src/systems/EventSystem.jsx:52-55 | mounting registers the attached node and nothing else; an unattached ref registers nothing |
| EventSystem.UnmountRegistration | src/systems/EventSystem.jsx:53-56 | the cleanup removes the captured node and keeps every other registered object |
| EventSystem.UnmountRegistrationAsWritten | src/systems/EventSystem.js:97-102 | the cleanup removes whatever the ref holds at cleanup time, and removes nothing when the ref is empty |
| EventSystem.StaleRegistrationAsWritten | src/systems/EventSystem.js:97-102 | once React has cleared the ref, mounting then unmounting leaves the node registered |
| EventSystem.MountUnmountRestoresRegistry | src/systems/EventSystem.jsx:52-58 | with the captured handle, mounting then unmounting restores the registry exactly |
| Highlight.RestoreSaved | src/systems/EventSystem.js:141-143 | the cleanup copies the saved colour back onto its object and changes no other colour |
| Highlight.Paint | src/systems/EventSystem.js:137-139 | an object with a material is painted with the given colour and its previous colour is saved; without a target or material nothing changes |
| Highlight.HoverChange | src/systems/EventSystem.js:135-145 | the as-written hover effect: the hovered slot becomes the new object and the selection is untouched; a newly hovered object with a material shows 0x666666 and its clone is saved; every object other than the new one and the one previously saved keeps its colour; the set of coloured objects never changes |
| Highlight.SelectChange | src/systems/EventSystem.js:147-157 | the as-written selection effect: the same with the selected slot and 0x999999, the hover slot untouched |
| Highlight.HoverPaints | src/systems/EventSystem.js:135-140 | hovering an object with a material paints it 0x666666 and saves its original colour |
| Highlight.HoverThenLeaveRestores | src/systems/EventSystem.js:135-145 | hovering an object and leaving it restores every emissive colour |
| Highlight.StuckHoverHighlight | src/systems/EventSystem.js:135-157 | hover, select, unhover, deselect leaves the object at 0x666666 instead of its own colour |
| Highlight.Shown | src/systems/EventSystem.js:135-157 | the intended colour map covers exactly the objects with a material |
| Highlight.HoverChangeFixed | src/systems/EventSystem.js:135-145 | the corrected hover effect: only the hovered slot moves, the selection and its saved colour stay, and only the new and the previously hovered objects can change colour |
| Highlight.SelectChangeFixed | src/systems/EventSystem.js:147-157 | the corrected selection effect: only the selected slot moves, a newly selected object with a material shows 0x999999, and only the new and the previously selected objects can change colour |
| Highlight.ApplyFixed | src/systems/EventSystem.js:135-157 | the corrected effects applied to a sequence of slot changes in order; no change leaves the state as it is, and the set of coloured objects never changes |
| Highlight.HoverFixedKeepsFaithful | src/systems/EventSystem.js:135-145 | the corrected hover effect keeps every colour equal to what the slots call for and changes only the hovered slot |
| Highlight.SelectFixedKeepsFaithful | src/systems/EventSystem.js:147-157 | the corrected selection effect keeps every colour equal to what the slots call for and changes only the selected slot |
| Highlight.FixedSequenceFaithful | src/systems/EventSystem.js:135-157 | under the corrected effects, any sequence of hover and selection changes preserves that invariant |
| Highlight.FixedRestoresOriginal | src/systems/EventSystem.js:135-157 | under the corrected effects, with nothing hovered or selected every object shows its original colour |
| Highlight.Highlighter.constructor | src/systems/EventSystem.js:131-133 | the component starts with nothing hovered, selected or saved |
| Highlight.Highlighter.OnHoveredChange | src/systems/EventSystem.js:135-145 | the in-place restore-then-paint of the hover effect equals the as-written hover step |
| Highlight.Highlighter.OnSelectedChange | src/systems/EventSystem.js:147-157 | the in-place restore-then-paint of the selection effect equals the as-written selection step |
| AssetLoading.Successes | src/systems/LoadingManager.jsx:63-75 | the count of successful loads is at most the number of calls, and equals it exactly when every call succeeded |
| AssetLoading.FirstFailure | src/systems/LoadingManager.jsx:110-115 | a stage rejects exactly when some load failed, with the error of a failed load |
| AssetLoading.Table | src/systems/LoadingManager.jsx:134-136 | `Object.fromEntries` over a fully loaded stage has exactly the manifest's keys |
| AssetLoading.TableAt | src/systems/LoadingManager.jsx:110-115 | each key of the table holds the resource its own load produced |
| AssetLoading.ProgressOf | src/systems/LoadingManager.jsx:17 | `loaded / total * 100`: a non-negative percentage that, multiplied by the total, gives 100 times the loaded count |
| AssetLoading.ProgressBounds | src/systems/LoadingManager.jsx:17 | `loaded / total * 100` is 0 at 0, never decreases, is at most 100 up to the total, and is 100 exactly at the total |
| StagedLoading.SettledSuccesses | src/systems/LoadingManager.jsx:108-131 | a stage only runs once the previous stage fully succeeded, so the loads that complete number at most five, and all five on success |
| StagedLoading.LoadAllOutcome | src/systems/LoadingManager.jsx:105-146 | `loadAll` resolves exactly when every load of every stage succeeds |
| StagedLoading.LoadAllTables | src/systems/LoadingManager.jsx:133-140 | on success the three tables have exactly the manifest keys, each holding its own load's resource; on failure the error is the first failing stage's |
| StagedLoading.TextureTable | src/systems/LoadingManager.jsx:38-42 | the texture table has the keys envMap and groundTexture with their loads' resources |
| StagedLoading.ModelTable | src/systems/LoadingManager.jsx:44-48 | the model table has the keys edcLogo and decorations with their loads' resources |
| StagedLoading.FontTable | src/systems/LoadingManager.jsx:50-52 | the font table has the key cyberpunk with its load's resource |
| StagedLoading.FreshCycleEndsAtHundred | src/systems/LoadingManager.jsx:16-22 | from a fresh store a successful cycle completes exactly `totalItems` = 5 loads, and the last update publishes 100 |
| StagedLoading.LoadingManager.SecondCycleOvershoots | src/systems/LoadingManager.jsx:105-106 | because `loadAll` resets `progress` but not `loadedItems`, on a fresh store a successful cycle followed by one whose first texture loads and second fails leaves the store at 6 loads and 120 % |
| StagedLoading.LoadingStore.constructor | src/systems/LoadingManager.jsx:9-15 | the store starts loading, at 0 %, with no items counted |
| StagedLoading.LoadingStore.SetProgress | src/systems/LoadingManager.jsx:12 | replaces only the progress |
| StagedLoading.LoadingStore.SetIsLoading | src/systems/LoadingManager.jsx:13 | replaces only the loading flag |
| StagedLoading.LoadingStore.SetTotalItems | src/systems/LoadingManager.jsx:60 | replaces only the item total |
| StagedLoading.LoadingStore.UpdateProgress | src/systems/LoadingManager.jsx:16-22 | counts exactly one more item and publishes the new count over the total times 100 |
| StagedLoading.LoadingManager.constructor | src/systems/LoadingManager.jsx:54-60 | the total is the number of textures plus models plus fonts, 5 |
| StagedLoading.LoadingManager.BeginCycle | src/systems/LoadingManager.jsx:106 | entering `loadAll` sets loading and 0 % but keeps the completed-item count |
| StagedLoading.LoadingManager.LoadStage | src/systems/LoadingManager.jsx:110-115 | every success of the stage bumps the store once and failures do not; the stage resolves with the table exactly when all loads succeed, and otherwise rejects with the first failure |
| StagedLoading.LoadingManager.LoadAll | src/systems/LoadingManager.jsx:105-146 | the result is `LoadAllOutcome`; loading ends in every case; success ends at 100 %; a failure keeps the last published progress and rethrows |
| SequentialLoading.Prefixed | src/systems/LoadingManager.js:97 | each asset's store key is its kind's prefix followed by its manifest key, in manifest order |
| SequentialLoading.PrefixedKeysAreDistinct | src/systems/LoadingManager.js:97-113 | keys of different kinds never collide, and within a kind the prefix keeps keys apart |
| SequentialLoading.LeadingSuccesses | src/systems/LoadingManager.js:95-100 | the awaited loop loads exactly the assets before the first failure, and all of them when none fails |
| SequentialLoading.Stored | src/systems/LoadingManager.js:95-100 | the assets stored by the first `k` loads: empty for none, and the `k`-th key holds the `k`-th load's resource |
| SequentialLoading.KindStored | src/systems/LoadingManager.js:95-100 | what one kind's loop stores, its leading successes; on a fully loaded kind its last prefixed key is stored |
| SequentialLoading.AddedAssets | src/systems/LoadingManager.js:94-116 | what `loadAll` adds: every texture the texture loop stored is kept, and after a texture failure nothing else is added |
| SequentialLoading.StoredAt | src/systems/LoadingManager.js:95-100 | after `k` loads exactly the first `k` keys are stored, each with its own load's resource |
| SequentialLoading.Completed | src/systems/LoadingManager.js:91-116 | a kind is reached only when every earlier asset loaded; all six complete exactly when every load succeeds |
| SequentialLoading.RunError | src/systems/LoadingManager.js:119-122 | the run reports an error exactly when some reached load fails |
| SequentialLoading.StopsAtTexture | src/systems/LoadingManager.js:95-100 | a texture failure stores only the textures before it, and no model or sound is loaded |
| SequentialLoading.StopsAtModel | src/systems/LoadingManager.js:103-108 | a model failure stores every texture and the models before it, and no sound is loaded |
| SequentialLoading.ReachesSounds | src/systems/LoadingManager.js:111-116 | a run that reaches the sounds stores all textures and models and the sounds before any failure |
| SequentialLoading.KindStoredComplete | src/systems/LoadingManager.js:95-100 | a fully loaded kind stores every prefixed key with its own load's resource |
| SequentialLoading.CompleteRunStoresEveryKey | src/systems/LoadingManager.js:84-118 | a complete run loads 6 assets and stores exactly the six prefixed keys, each with its own resource |
| SequentialLoading.RunProgress | src/systems/LoadingManager.js:98-115 | published progress never decreases and is 100 only when all six assets loaded |
| SequentialLoading.AssetStore.constructor | src/systems/LoadingManager.js:6-10 | the store starts loading, at 0 %, with no errors and no assets |
| SequentialLoading.AssetStore.SetProgress | src/systems/LoadingManager.js:12 | replaces only the progress |
| SequentialLoading.AssetStore.SetLoading | src/systems/LoadingManager.js:13 | replaces only the loading flag |
| SequentialLoading.AssetStore.AddError | src/systems/LoadingManager.js:14-16 | appends the error, keeping the earlier errors in order |
| SequentialLoading.AssetStore.AddAsset | src/systems/LoadingManager.js:17-19 | adds or replaces one key and keeps every other asset |
| SequentialLoading.AssetLoader.LoadKind | src/systems/LoadingManager.js:95-100 | the loop stores the leading successes under their prefixed keys and publishes each count; the first failure is returned and ends the loop |
| SequentialLoading.AssetLoader.LoadAll | src/systems/LoadingManager.js:84-123 | stores exactly the loads completed in order; loading ends only when all six succeed; otherwise the first error is appended, loading stays as it was and nothing is rethrown |
| Audio.NewHowl | src/systems/AudioManager.js:12-15 | a new sound has the given loop flag and volume, and is unmuted, stopped and centred |
| Audio.PlayIn | src/systems/AudioManager.js:35-39 | only an unmuted call for an existing name starts that sound; nothing else changes |
| Audio.StopIn | src/systems/AudioManager.js:41-45 | an existing sound stops whatever the mute flag; an unknown name changes nothing |
| Audio.MuteAll | src/systems/AudioManager.js:76-78 | every sound gets the new mute value and nothing else about it changes |
| Audio.MuteTwiceRestores | src/systems/AudioManager.js:74-79 | when the sounds agree with the flag, two toggles give back the sounds they started from |
| Audio.EffectsAt | src/systems/AudioManager.js:88-92 | every sound except background gets the new volume; background is untouched |
| Audio.FadeTarget | src/systems/AudioManager.js:60-61 | a fade-in ends at the background level for 'background' and at the effects level otherwise |
| Audio.SpatialGain | src/systems/AudioManager.js:107 | the gain lies in [0, 1], is 1 at the listener, and is 0 exactly at or beyond `maxDistance` |
| Audio.SpatialGainFalls | src/systems/AudioManager.js:107 | a farther sound is never louder |
| Audio.SpatialVolumeBounds | src/systems/AudioManager.js:107-108 | for a non-negative effects level, the applied volume lies in [0, effects level] |
| Audio.Pan | src/systems/AudioManager.js:111 | the pan lies in [-1, 1]; it is `x / maxDistance` in range and clamps outside it |
| Audio.Spatialised | src/systems/AudioManager.js:96-116 | the sound plays; its pan is in [-1, 1]; its volume is in [0, effects level] and silent beyond `maxDistance`; nothing else about it changes |
| Audio.AudibleSoundIsNotClamped | src/systems/AudioManager.js:101-112 | while a sound is audible its lateral offset is within the distance, so the pan is never clamped |
| Audio.AudioManager.constructor | src/systems/AudioManager.js:4-33 | five sounds, only background loops (0.3), the rest at 0.5; unmuted; levels 0.3 and 0.5 |
| Audio.AudioManager.PlaySound | src/systems/AudioManager.js:35-39 | the table becomes `PlayIn` of the old table; flags and levels unchanged |
| Audio.AudioManager.StopSound | src/systems/AudioManager.js:41-45 | the table becomes `StopIn` of the old table; flags and levels unchanged |
| Audio.AudioManager.FadeIn | src/systems/AudioManager.js:58-65 | an existing sound ends at its fade target; an unknown name changes nothing |
| Audio.AudioManager.FadeOut | src/systems/AudioManager.js:67-72 | an existing sound ends at volume 0; an unknown name changes nothing |
| Audio.AudioManager.StartBackground | src/systems/AudioManager.js:47-52 | unless muted, the background plays and fades in to the background level; while muted nothing changes |
| Audio.AudioManager.StopBackground | src/systems/AudioManager.js:54-56 | the background fades to 0 |
| Audio.AudioManager.ToggleMute | src/systems/AudioManager.js:74-79 | the flag flips and every sound is muted with the new value, keeping flag and sounds in agreement |
| Audio.AudioManager.SetBackgroundVolume | src/systems/AudioManager.js:81-84 | stores the value as given and applies it to the background sound only |
| Audio.AudioManager.SetEffectsVolume | src/systems/AudioManager.js:86-93 | stores the value and applies it to every sound except background |
| Audio.AudioManager.PlaySpatialSound | src/systems/AudioManager.js:96-116 | muted or unknown: nothing changes; otherwise the named sound becomes `Spatialised` and no other sound changes |
| AudioSystem.FreshSound | src/systems/AudioSystem.jsx:22-26 | only the background loops, at 0.3; the others are at 0.5; all start unmuted and stopped |
| AudioSystem.FileSounds | src/systems/AudioSystem.jsx:18-28 | the mounted table has exactly the four `audioFiles` names, each a fresh sound |
| AudioSystem.MountedTable | src/systems/AudioSystem.jsx:7-27 | background loops at 0.3, the other three play once at 0.5, none muted |
| AudioSystem.UnloadAll | src/systems/AudioSystem.jsx:30-33 | every sound is unloaded and stopped, with nothing else changed |
| AudioSystem.AudioProvider.constructor | src/systems/AudioSystem.jsx:15-16 | the provider starts with no sounds, unmuted |
| AudioSystem.AudioProvider.Mount | src/systems/AudioSystem.jsx:18-28 | the mount effect's loop stores the table of the four fresh sounds |
| AudioSystem.AudioProvider.PlaySound | src/systems/AudioSystem.jsx:36-40 | plays only unmuted and existing sounds, so before mounting nothing plays |
| AudioSystem.AudioProvider.StopSound | src/systems/AudioSystem.jsx:42-46 | stops an existing sound; unknown names are ignored |
| AudioSystem.AudioProvider.ToggleMute | src/systems/AudioSystem.jsx:48-53 | the flag becomes the negation and every sound is muted with it, so a flag that agreed with the sounds still agrees |
| AudioSystem.AudioProvider.Unmount | src/systems/AudioSystem.jsx:30-33 | the cleanup unloads every sound |
| SoundControls.PresetFor | src/components/ui/SoundControls.js:172-187 | gaming, ambient and balanced, and only they, are presets, with levels in [0, 1] |
| SoundControls.Percent | src/components/ui/SoundControls.js:226 | the displayed percentage is within half a unit of the value times 100, halves rounding up |
| SoundControls.PercentBounds | src/components/ui/SoundControls.js:218-226 | a slider value in [0, 1] displays in [0, 100], and a louder value never displays less |
| SoundControls.PresetPercentages | src/components/ui/SoundControls.js:172-187 | the presets display as 20/70, 40/30 and 30/50 |
| SoundControls.SoundPanel.constructor | src/components/ui/SoundControls.js:140-143 | the panel starts closed and unmuted, at 0.3 and 0.5 |
| SoundControls.SoundPanel.Mount | src/components/ui/SoundControls.js:146-149 | the mount effect pushes both local levels into the manager: background takes the background level, every other sound the effects level, and the mute flag stays |
| SoundControls.SoundPanel.HandleToggleMute | src/components/ui/SoundControls.js:151-154 | local flag and manager flag both flip, so agreement between them is preserved; every manager sound takes the new mute flag; both manager volumes stay |
| SoundControls.SoundPanel.HandleBackgroundVolume | src/components/ui/SoundControls.js:156-160 | the local and the manager's background levels, and the background sound, take the same value; every other sound is unchanged |
| SoundControls.SoundPanel.HandleEffectsVolume | src/components/ui/SoundControls.js:162-166 | the local and the manager's effects levels take the same value, applied to every effect sound |
| SoundControls.SoundPanel.PlayTestSound | src/components/ui/SoundControls.js:168-170 | plays 'click' through the manager, which ignores it while muted; the manager's mute flag and volumes stay |
| SoundControls.SoundPanel.SetPreset | src/components/ui/SoundControls.js:172-187 | a known preset sets both local levels; an unknown name changes nothing; the manager is not touched |
| SoundControls.SoundPanel.ToggleOpen | src/components/ui/SoundControls.js:192 | the open flag flips on each press |
| Camera.SectionTable | src/components/controllers/CameraController.js:8-29 | the table holds exactly home, about, events and gallery, and no 'team' |
| Camera.KillLast | src/components/controllers/CameraController.js:48 | killing leaves no timeline running and changes no finished one |
| Camera.CameraStore.constructor | src/components/controllers/CameraController.js:32-34 | the store starts at 'home', not transitioning |
| Camera.CameraStore.SetSection | src/components/controllers/CameraController.js:35 | replaces only the section |
| Camera.CameraStore.SetTransitioning | src/components/controllers/CameraController.js:36 | replaces only the transitioning flag |
| Camera.CameraController.constructor | src/components/controllers/CameraController.js:39-61 | mounting starts one timeline towards the current section and marks the store transitioning |
| Camera.CameraController.RunEffect | src/components/controllers/CameraController.js:47-61 | the running timeline is killed before a new one starts; the store is transitioning; the targets are the section's table entry |
| Camera.CameraController.Complete | src/components/controllers/CameraController.js:57-60 | completion clears the transitioning flag and calls the callback once if it was given |
| Camera.CameraController.CompleteInApp | src/App.js:46 | with the inline `setIsLoading(false)` callback, the first completion while loading re-runs the effect towards the same section, so the store is transitioning again behind a new timeline; once loading is over a completion ends the transition |
| Camera.CameraController.Unmount | src/components/controllers/CameraController.js:100-102 | the cleanup kills the running timeline |
| Camera.CameraController.TransitionTo | src/components/controllers/CameraController.js:113-117 | during a transition, or for a section not in the table, nothing changes; otherwise the store moves to the section and a new timeline heads for its entry |
| Carousel.Next | src/components/controllers/sections/EventsSection.js:95 | the next index stays in range, steps by one, and wraps from the last to 0 |
| Carousel.Prev | src/components/controllers/sections/EventsSection.js:100 | the previous index stays in range, steps back by one, and wraps from 0 to the last |
| Carousel.NextPrevRoundTrip | src/components/controllers/sections/EventsSection.js:93-101 | prev undoes next and next undoes prev |
| Carousel.NextTimes | src/components/controllers/sections/EventsSection.js:95 | any number of next presses keeps the index in range |
| Carousel.NextTimesAdvances | src/components/controllers/sections/EventsSection.js:95 | `k` next presses advance the index by `k` modulo the count |
| Carousel.FullTurn | src/components/controllers/sections/EventsSection.js:93-96 | one next press per event returns to the starting index |
| Carousel.Damped | src/components/controllers/sections/EventsSection.js:90 | damping keeps the speed's sign and never grows its magnitude |
| Carousel.DampingNeverGrows | src/components/controllers/sections/EventsSection.js:88-91 | across any number of further frames the speed's magnitude never grows |
| Carousel.EventsCarousel.constructor | src/components/controllers/sections/EventsSection.js:84-86 | the carousel starts at index 0 at rest |
| Carousel.EventsCarousel.Frame | src/components/controllers/sections/EventsSection.js:88-91 | a frame adds the speed to the rotation, then damps the speed by 0.95 |
| Carousel.EventsCarousel.HandleNext | src/components/controllers/sections/EventsSection.js:93-96 | the index becomes `Next` and stays in range; the speed is kicked to -0.1 |
| Carousel.EventsCarousel.HandlePrev | src/components/controllers/sections/EventsSection.js:98-101 | the index becomes `Prev` and stays in range; the speed is kicked to 0.1 |
| CyberpunkInterface.Tick | src/components/ui/CyberpunkInterface.jsx:149-153 | no counter decreases and each grows by at most its step; a tick changes nothing exactly at the caps; the caps are preserved |
| CyberpunkInterface.TicksFromStart | src/components/ui/CyberpunkInterface.jsx:147-156 | after `k` ticks from zero the counters are min(5k, 500), min(k, 20) and min(k, 50) |
| CyberpunkInterface.TicksStayWithinCaps | src/components/ui/CyberpunkInterface.jsx:149-153 | from zero the counters never decrease and never pass 500, 20 and 50 |
| CyberpunkInterface.CapsAfterHundredTicks | src/components/ui/CyberpunkInterface.jsx:149-153 | after 100 ticks every counter is at its cap and further ticks are no-ops |
| CyberpunkInterface.InterfacePanel.constructor | src/components/ui/CyberpunkInterface.jsx:139-144 | the panel starts on 'about' with zeroed statistics |
| CyberpunkInterface.InterfacePanel.IntervalTick | src/components/ui/CyberpunkInterface.jsx:148-154 | one interval firing applies one tick and touches nothing else |
| CyberpunkInterface.InterfacePanel.SelectMenuItem | src/components/ui/CyberpunkInterface.jsx:180 | clicking a menu item shows its section and leaves the statistics alone |
| CyberpunkInterface.InterfacePanel.Unmount | src/components/ui/CyberpunkInterface.jsx:156 | unmounting clears the interval |
| CyberpunkInterface.OnlyAboutItemShowsAbout | src/components/ui/CyberpunkInterface.jsx:159-164 | only the first menu item, 'about', shows the about text |
| LoadingScreen.ColourFor | src/components/ui/LoadingScreen.jsx:178-181 | the drawn colour is always one of the four saber colours |
| LoadingScreen.ColourQuarters | src/components/ui/LoadingScreen.jsx:171-181 | each colour is drawn from its own quarter of [0, 1) |
| LoadingScreen.Step | src/components/ui/LoadingScreen.jsx:190-196 | the step never passes 100 and never decreases a value up to 100; it is a no-op exactly at 100 |
| LoadingScreen.StepsFromZero | src/components/ui/LoadingScreen.jsx:187-199 | from 0, `k` ticks show min(k, 100): full after exactly 100 ticks, then constant |
| LoadingScreen.ScaleX | src/components/ui/LoadingScreen.jsx:217 | the blade scale lies in [0, 1] for progress in [0, 100], and is 1 at 100 |
| LoadingScreen.SplashScreen.constructor | src/components/ui/LoadingScreen.jsx:184-185 | the screen starts at 0 with one of the four colours and the interval running |
| LoadingScreen.SplashScreen.IntervalTick | src/components/ui/LoadingScreen.jsx:189-197 | one firing applies the step; the firing that finds 100 clears the interval |
| LoadingScreen.SplashScreen.Unmount | src/components/ui/LoadingScreen.jsx:199 | unmounting clears the interval and keeps the progress |
| TeamSection.GridCell | src/components/controllers/sections/TeamSection.js:204-205 | the column is below 3 and `index = 3 * row + col` |
| TeamSection.CardPosition | src/components/controllers/sections/TeamSection.js:206-210 | x is -3, 0 or 3; y is at most 2 and is 2 on the first row; z is 0 |
| TeamSection.CardPositionsDistinct | src/components/controllers/sections/TeamSection.js:203-210 | different cards never share a position |
| TeamSection.SocialLinkX | src/components/controllers/sections/TeamSection.js:155 | link `k` sits at x = k - 0.5 |
| TeamSection.SocialLinksOneApart | src/components/controllers/sections/TeamSection.js:152-155 | successive links are exactly one unit apart |
| TeamSection.TeamView.constructor | src/components/controllers/sections/TeamSection.js:185 | no member is selected at first |
| TeamSection.TeamView.SelectMember | src/components/controllers/sections/TeamSection.js:217 | clicking a card selects that member and opens the modal |
| TeamSection.TeamView.Close | src/components/controllers/sections/TeamSection.js:227 | closing clears the selection and the modal |
| GalleryGrid.ImagePosition | src/components/controllers/sections/GallerySection.js:13-17 | x is -4, 0 or 4; y is at least -3; z is 0; the index can be recovered from the position |
| GalleryGrid.PositionPropIgnored | src/components/controllers/sections/GallerySection.js:7-17 | the placement depends only on the index; the `position` prop is ignored |
| GalleryGrid.ImagePositionsDistinct | src/components/controllers/sections/GallerySection.js:13-17 | different indices get different cells |
| GalleryGrid.NineImagesFillTheGrid | src/components/controllers/sections/GallerySection.js:95-132 | the nine images occupy exactly the nine cells of {-4, 0, 4} x {-3, 0, 3} |
| GalleryGrid.GalleryView.constructor | src/components/controllers/sections/GallerySection.js:135 | no image is selected at first |
| GalleryGrid.GalleryView.SelectImage | src/components/controllers/sections/GallerySection.js:162 | clicking an image selects it and opens the modal |
| GalleryGrid.GalleryView.Close | src/components/controllers/sections/GallerySection.js:170 | the modal's close clears the selection |
| GalleryPanel.PlanePosition | src/components/sections/GallerySection.jsx:80-85 | x is -1.5 exactly for even indices and 1.5 otherwise; y = -2 * (index div 2); z = 0 |
| GalleryPanel.PlanePositionsDistinct | src/components/sections/GallerySection.jsx:79-85 | different indices get different positions |
| GalleryPanel.GalleryView.constructor | src/components/sections/GallerySection.jsx:52 | no image is selected at first |
| GalleryPanel.GalleryView.SelectImage | src/components/sections/GallerySection.jsx:88 | clicking an image selects it and opens the modal |
| GalleryPanel.GalleryView.ClickModal | src/components/sections/GallerySection.jsx:96 | clicking the modal plane clears the selection |
| Navigation.SectionTable | src/components/ui/Navigation3D.jsx:85-91 | five sections with distinct ids at x = 5, y = 4, 2, 0, -2, -4 |
| Navigation.Find | src/components/ui/Navigation3D.jsx:98 | the lookup finds nothing exactly when no section has the id, and otherwise finds the first section with it |
| Navigation.CameraTarget | src/components/ui/Navigation3D.jsx:101-106 | the camera goes 5 left of the point, level with it, at z = 8 |
| Navigation.TargetsOnTheAxis | src/components/ui/Navigation3D.jsx:101-106 | every table section sends the camera to (0, its height, 8) |
| Navigation.ExactlyOneActive | src/components/ui/Navigation3D.jsx:125 | with distinct ids, an id from the table lights exactly one point and one dot |
| Navigation.NoneActive | src/components/ui/Navigation3D.jsx:135 | an id not in the table lights nothing |
| Navigation.NavigationView.constructor | src/components/ui/Navigation3D.jsx:94 | the view starts at 'home', a table id |
| Navigation.NavigationView.HandleSectionChange | src/components/ui/Navigation3D.jsx:97-110 | an unknown id changes nothing; a known one becomes active and targets the camera at its section; exactly one section is lit afterwards |

## Left out

- Rendering is not modelled: meshes, shaders, particles, springs, `useFrame` bobbing and every gsap tween. This includes the camera shake, which draws from `Math.random`. Tweens appear only as the targets they move to.
- Ray/mesh intersection is not modelled. The hit list is an input, ordered nearest first as three.js returns it.
- Howler and the three.js loaders are foreign libraries. Sounds are records and loads are success/failure outcomes.
- `setInterval`, animation frames, React effect ordering and state batching are not modelled. Each tick, frame or effect run is a method call.
- EventSystem.jsx's `useInteractive` keeps its callbacks in refs. The model records only whether each callback was given, plus whether a render renewed its identity.
- EventSystem.HoverReaction and EventSystem.SelectReaction choose the callback of one effect run. The EventSystem.js hook also lists the callbacks as dependencies, so its effects run again whenever a callback's identity changes, as an inline arrow function's does on every render. EventSystem.Fired with `callbacksAreDeps` models those extra runs; for selection this is a finding below.
- JavaScript numbers are IEEE doubles. StagedLoading progress (`ProgressOf`), the audio volumes, Audio.Pan, EventSystem.NormalizeX and EventSystem.NormalizeY, SoundControls.Percent and Carousel.Damped are exact reals in the model. For example, 3/5*100 is 60.00000000000001 in the source. No proved property depends on the rounding for the values the program reaches: totals 5 and 6, and a slider step of 0.1.
- Highlight keys the emissive colour by scene object. three.js keeps `emissive` on the material, which several objects may share. A material without `emissive` (meshBasicMaterial, troika Text) makes `.clone()` throw in the source; the model skips such an object.
- EventSystem.EventStore.RegisterObject and EventSystem.EventStore.UnregisterObject do not touch the cursor. In the source each call replaces the Set, so the listener effect of EventSystem.jsx re-binds, and its cleanup resets the cursor to 'default' even while the pointer is over a hit. The model's cursor changes only through the router's own handlers and EventSystem.PointerRouter.Teardown.
- EventSystem.NormalizeX and EventSystem.NormalizeY require a positive window size. A zero-size window divides by zero in the source.
- StagedLoading.LoadingStore.UpdateProgress requires `totalItems > 0`. With a total of 0 the source publishes Infinity. The manager's constructor always sets the total to 5.
- StagedLoading.LoadingManager.LoadAll reports the first failing load in manifest order. With `Promise.all` it is whichever rejection arrives first. The model also lets every success in the failing stage bump the store before `loadAll` returns. In the browser those late completions may arrive after the rejection.
- Audio.AudioManager.FadeIn, Audio.AudioManager.FadeOut and Audio.AudioManager.StartBackground model a fade by the volume it ends at. The fade's start volume and its duration are not modelled.
- Audio.AudioManager.PlaySpatialSound takes the `Math.sqrt` result as a parameter, constrained by `IsDistance`. It also requires `maxDistance > 0`, which the default of 10 meets. A non-positive `maxDistance` gives Infinity or NaN in the source.
- Audio.AudioManager.ToggleMute and AudioSystem.AudioProvider.ToggleMute loop over the table's key set. The order of `Object.values` is not modelled, and no result depends on it.
- SoundControls.SoundPanel.HandleBackgroundVolume and SoundControls.SoundPanel.HandleEffectsVolume take the already-parsed number. `parseFloat` of the slider text is not modelled.
- LoadingScreen.SplashScreen.constructor takes the `Math.random()` draw as a parameter.
- Carousel.EventsCarousel.constructor requires at least one event. With none, the source's `% 0` gives NaN.
- Carousel card angles are trigonometric layout and are not modelled. In EventsSection.js, `radius` is declared inside the `events.map` callback (line 107) but read outside it at lines 124 and 130. So every render of `EventsCarousel` throws a ReferenceError, and in the source as written its handlers and frame callback never run. The Carousel module models only the index and speed logic the component would run if it rendered.
- Camera.CameraController.TransitionTo re-runs the effect only when the section actually changes. The effect also lists `onTransitionComplete`, so it re-runs when the callback's identity changes too. App.js passes an inline arrow, so the first completion during loading re-renders the app and starts a second timeline towards the same section. Camera.CameraController.CompleteInApp models that case; until the second timeline completes, `transitionTo` is refused.
- The model does not unmount and remount the camera controller.
- Camera.CameraController.constructor, Camera.CameraController.RunEffect, Camera.CameraController.CompleteInApp and Camera.CameraController.TransitionTo assume the effect finds an OrbitControls object in `useThree().controls`. App.js renders `OrbitControls` without `makeDefault`, so in the source `controls` is null there. Each effect run then sets transitioning and creates the timeline, and throws at the look-at tween (CameraController.js:78) before adding the look-at and shake tweens or returning its cleanup. The model gives every run a normal end with the look-at target set.
- Audio.PlayIn, Audio.StopIn, Audio.AudioManager.FadeIn, Audio.AudioManager.FadeOut, Audio.AudioManager.PlaySpatialSound, AudioSystem.AudioProvider.PlaySound, AudioSystem.AudioProvider.StopSound and Camera.CameraController.TransitionTo assume a name is not an `Object.prototype` property name such as "constructor" or "toString". For such a name the source's plain-object lookup is truthy. The sound methods then throw a TypeError, and `transitionTo` stores the section, after which the effect throws. Every caller in the program passes a literal table name.
- Audio.AudioManager.SetBackgroundVolume, Audio.AudioManager.SetEffectsVolume and Audio.AudioManager.FadeIn write any real into a sound's volume. Howler's `volume(v)` acts only for 0 <= v <= 1 and is a getter otherwise, and `fade` clamps its endpoints to [0, 1]. The sliders keep values in [0, 1], so only a direct call can pass anything else.
- src/components/ui/SoundControls.jsx is not part of this model. It depends on a `useAudioManager` hook that AudioManager.js does not export.
- Highlight.Highlighter.OnHoveredChange and Highlight.Highlighter.OnSelectedChange model the component as written. The corrected behaviour is the set of `...Fixed` functions with their lemmas (see Findings).
- Emissive colours are integers. three.js `Color` objects, and cloning them, are not modelled.

## Findings

| source | as written | input that shows it | evidently intended | confidence | as-written member | corrected member |
|---|---|---|---|---|---|---|
| src/systems/EventSystem.js:135-157 | the hover and selection effects each clone the emissive colour they find and restore it independently | hover an object, select it, move the pointer off, click empty space: the selection effect cloned 0x666666 as the "original", so the object stays 0x666666 | an object that is neither hovered nor selected shows its own colour again | not executed; follows from the effect order of React | Highlight.StuckHoverHighlight | Highlight.FixedRestoresOriginal |
| src/systems/EventSystem.js:97-102 | the registration cleanup unregisters `ref.current` as read at cleanup time | unmount an interactive mesh: React has already set `ref.current` to null, so `unregisterObject(null)` leaves the mesh in the registry | unregister the node that was registered, as EventSystem.jsx:53-56 does by capturing it | not executed; depends on React clearing refs before passive cleanups | EventSystem.StaleRegistrationAsWritten | EventSystem.MountUnmountRestoresRegistry |
| src/systems/EventSystem.js:114-122 | the selection effect lists `onClick` and `onDeselect` among its dependencies | a selected component that passes inline callbacks re-renders because the hovered slot changed: the effect runs again and onClick fires with no click | onClick runs once each time the component becomes selected, as EventSystem.jsx:77-90 gives by keeping the callbacks in refs | not executed; holds for any caller passing inline callbacks | EventSystem.RepeatedClickAsWritten | EventSystem.ClickOncePerSelection |
