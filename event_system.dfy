/**
 * The pointer-interaction router: a store holding the set of interactive scene objects and
 * the hovered / selected slots, the window-level pointer-move and click handlers that turn a
 * ray test into store updates, and the per-component hook that compares its own object with
 * the store's slots (src/systems/EventSystem.jsx and its older variant src/systems/EventSystem.js).
 */
module EventSystem {
  import opened Wrappers

  /** A scene-graph node that can take part in pointer interaction; `hasLayers` records whether it carries a layer mask. */
  datatype SceneObject = SceneObject(id: nat, hasLayers: bool)

  /** One intersection found by the ray test: the object hit and its distance along the ray. */
  datatype Hit = Hit(target: SceneObject, distance: real)

  /** The document body's cursor style. */
  datatype Cursor = Pointer | Default

  /** The ray test lists its intersections by increasing distance. */
  predicate NearestFirst(hits: seq<Hit>) {
    forall i, j :: 0 <= i < j < |hits| ==> hits[i].distance <= hits[j].distance
  }

  /** The object a ray test resolves to: the first (nearest) hit, or nothing on a miss. */
  function FirstHit(hits: seq<Hit>): (r: Option<SceneObject>)
    ensures r.None? <==> hits == []
    ensures r.Some? ==> exists h :: h in hits && h.target == r.value
    ensures hits != [] ==> r == Some(hits[0].target)
  {
    if |hits| > 0 then Some(hits[0].target) else None
  }

  /** The cursor shown after a pointer move: a pointer exactly when something was hit. */
  function CursorFor(hits: seq<Hit>): (c: Cursor)
    ensures c == Pointer <==> hits != []
  {
    if |hits| > 0 then Pointer else Default
  }

  /** The resolved object is at least as near as every other intersection. */
  lemma FirstHitIsNearest(hits: seq<Hit>)
    requires NearestFirst(hits)
    ensures FirstHit(hits).Some? ==>
      exists h :: h in hits && h.target == FirstHit(hits).value &&
        forall g :: g in hits ==> h.distance <= g.distance
  {
    if |hits| > 0 {
      var h := hits[0];
      forall g | g in hits ensures h.distance <= g.distance {
        var j :| 0 <= j < |hits| && hits[j] == g;
        if j > 0 {
          assert hits[0].distance <= hits[j].distance;
        }
      }
    }
  }

  /** Horizontal normalised device coordinate of a pointer at `clientX` in a window `innerWidth` wide. */
  function NormalizeX(clientX: real, innerWidth: real): (x: real)
    requires innerWidth > 0.0
    ensures 0.0 <= clientX <= innerWidth ==> -1.0 <= x <= 1.0
    ensures x == -1.0 <==> clientX == 0.0
    ensures x == 1.0 <==> clientX == innerWidth
  {
    clientX / innerWidth * 2.0 - 1.0
  }

  /** Vertical normalised device coordinate: the same scaling as `NormalizeX`, flipped so that up is positive. */
  function NormalizeY(clientY: real, innerHeight: real): (y: real)
    requires innerHeight > 0.0
    ensures y == -NormalizeX(clientY, innerHeight)
    ensures 0.0 <= clientY <= innerHeight ==> -1.0 <= y <= 1.0
    ensures y == 1.0 <==> clientY == 0.0
  {
    -(clientY / innerHeight) * 2.0 + 1.0
  }

  /**
   * The zustand store. `layering` tells the two variants apart: the store of EventSystem.jsx
   * enables layer 1 on every registered object that has a layer mask; that of EventSystem.js does not.
   */
  class EventStore {
    const layering: bool
    var hoveredObject: Option<SceneObject>
    var selectedObject: Option<SceneObject>
    var interactiveObjects: set<SceneObject>
    /** The objects whose layer mask has had layer 1 enabled by this store. */
    var layerOneEnabled: set<SceneObject>

    constructor (layering: bool)
      ensures this.layering == layering
      ensures hoveredObject == None && selectedObject == None
      ensures interactiveObjects == {} && layerOneEnabled == {}
    {
      this.layering := layering;
      hoveredObject, selectedObject := None, None;
      interactiveObjects, layerOneEnabled := {}, {};
    }

    method SetHovered(o: Option<SceneObject>)
      modifies this
      ensures hoveredObject == o
      ensures selectedObject == old(selectedObject)
      ensures interactiveObjects == old(interactiveObjects) && layerOneEnabled == old(layerOneEnabled)
    {
      hoveredObject := o;
    }

    method SetSelected(o: Option<SceneObject>)
      modifies this
      ensures selectedObject == o
      ensures hoveredObject == old(hoveredObject)
      ensures interactiveObjects == old(interactiveObjects) && layerOneEnabled == old(layerOneEnabled)
    {
      selectedObject := o;
    }

    /** Adding an object already present leaves the registry as it was. */
    method RegisterObject(o: SceneObject)
      modifies this
      ensures interactiveObjects == old(interactiveObjects) + {o}
      ensures old(o in interactiveObjects) ==> interactiveObjects == old(interactiveObjects)
      ensures layerOneEnabled ==
        if layering && o.hasLayers then old(layerOneEnabled) + {o} else old(layerOneEnabled)
      ensures hoveredObject == old(hoveredObject) && selectedObject == old(selectedObject)
    {
      if layering && o.hasLayers {
        layerOneEnabled := layerOneEnabled + {o};
      }
      interactiveObjects := interactiveObjects + {o};
    }

    /** Removing an absent object leaves the registry as it was; layer masks are not touched. */
    method UnregisterObject(o: SceneObject)
      modifies this
      ensures interactiveObjects == old(interactiveObjects) - {o}
      ensures o !in old(interactiveObjects) ==> interactiveObjects == old(interactiveObjects)
      ensures layerOneEnabled == old(layerOneEnabled)
      ensures hoveredObject == old(hoveredObject) && selectedObject == old(selectedObject)
    {
      interactiveObjects := interactiveObjects - {o};
    }
  }

  /**
   * The `EventSystem` component: the shared pointer coordinates, the document cursor and the two
   * window listeners that write into the store.
   */
  class PointerRouter {
    const store: EventStore
    var mouseX: real
    var mouseY: real
    var cursor: Cursor

    constructor (store: EventStore)
      ensures this.store == store && cursor == Default && mouseX == 0.0 && mouseY == 0.0
    {
      this.store := store;
      mouseX, mouseY := 0.0, 0.0;
      cursor := Default;
    }

    /**
     * A pointer move: normalise the pointer, ray-test it (the test's result is `hits`), hover the
     * first hit or nothing, and show the matching cursor. Selection and registry are untouched.
     */
    method HandlePointerMove(clientX: real, clientY: real, innerWidth: real, innerHeight: real, hits: seq<Hit>)
      requires innerWidth > 0.0 && innerHeight > 0.0
      modifies this, store
      ensures mouseX == NormalizeX(clientX, innerWidth) && mouseY == NormalizeY(clientY, innerHeight)
      ensures store.hoveredObject == FirstHit(hits)
      ensures cursor == CursorFor(hits)
      ensures store.selectedObject == old(store.selectedObject)
      ensures store.interactiveObjects == old(store.interactiveObjects)
      ensures store.layerOneEnabled == old(store.layerOneEnabled)
    {
      mouseX := clientX / innerWidth * 2.0 - 1.0;
      mouseY := -(clientY / innerHeight) * 2.0 + 1.0;
      if |hits| > 0 {
        store.SetHovered(Some(hits[0].target));
        cursor := Pointer;
      } else {
        store.SetHovered(None);
        cursor := Default;
      }
    }

    /**
     * A click: only the primary button (0) acts; it selects the first hit of the ray test at the
     * last pointer position, or clears the selection when nothing is hit.
     */
    method HandleClick(button: int, hits: seq<Hit>)
      modifies store
      ensures button != 0 ==> store.selectedObject == old(store.selectedObject)
      ensures button == 0 ==> store.selectedObject == FirstHit(hits)
      ensures store.hoveredObject == old(store.hoveredObject)
      ensures store.interactiveObjects == old(store.interactiveObjects)
      ensures store.layerOneEnabled == old(store.layerOneEnabled)
    {
      if button == 0 {
        if |hits| > 0 {
          store.SetSelected(Some(hits[0].target));
        } else {
          store.SetSelected(None);
        }
      }
    }

    /** Removing the listeners resets the cursor. */
    method Teardown()
      modifies this
      ensures cursor == Default
      ensures mouseX == old(mouseX) && mouseY == old(mouseY)
    {
      cursor := Default;
    }
  }

  /** What a component's `ref.current` holds: never attached (`undefined`), a node, or cleared to `null`. */
  datatype RefSlot = Unset | Attached(node: SceneObject) | Cleared

  /** The optional callbacks a component passes to `useInteractive`; `true` means the callback was given. */
  datatype Callbacks = Callbacks(onHover: bool, onUnhover: bool, onClick: bool, onDeselect: bool)

  datatype Reaction = OnHover | OnUnhover | OnClick | OnDeselect

  /** `hoveredObject === ref.current`, with JavaScript's strict equality on `null` and `undefined`. */
  function SameHandle(slot: Option<SceneObject>, ref: RefSlot): (b: bool)
    ensures ref.Attached? ==> (b <==> slot == Some(ref.node))
    ensures ref.Unset? ==> !b
    ensures ref.Cleared? ==> (b <==> slot.None?)
  {
    match ref
    case Attached(o) => slot == Some(o)
    case Cleared => slot.None?
    case Unset => false
  }

  function IsHovered(store: Option<SceneObject>, ref: RefSlot): bool { SameHandle(store, ref) }

  function IsSelected(store: Option<SceneObject>, ref: RefSlot): bool { SameHandle(store, ref) }

  /** Two mounted components with different objects never both report the same slot. */
  lemma AtMostOneReports(slot: Option<SceneObject>, a: SceneObject, b: SceneObject)
    requires SameHandle(slot, Attached(a)) && SameHandle(slot, Attached(b))
    ensures a == b
  {
  }

  /** The callback a component's hover effect runs when `hoveredObject` changes. */
  function HoverReaction(hovered: Option<SceneObject>, ref: RefSlot, cb: Callbacks): (r: Option<Reaction>)
    ensures r.Some? ==> r.value == OnHover || r.value == OnUnhover
    ensures ref.Attached? && cb.onHover && cb.onUnhover ==>
      (r == Some(OnHover) <==> IsHovered(hovered, ref)) && (r == Some(OnUnhover) <==> !IsHovered(hovered, ref))
  {
    match ref
    case Attached(o) =>
      if hovered == Some(o) then (if cb.onHover then Some(OnHover) else None)
      else (if cb.onUnhover then Some(OnUnhover) else None)
    case _ => None
  }

  /** The callback a component's selection effect runs when `selectedObject` changes. */
  function SelectReaction(selected: Option<SceneObject>, ref: RefSlot, cb: Callbacks): (r: Option<Reaction>)
    ensures r.Some? ==> r.value == OnClick || r.value == OnDeselect
    ensures ref.Attached? && cb.onClick && cb.onDeselect ==>
      (r == Some(OnClick) <==> IsSelected(selected, ref)) && (r == Some(OnDeselect) <==> !IsSelected(selected, ref))
  {
    match ref
    case Attached(o) =>
      if selected == Some(o) then (if cb.onClick then Some(OnClick) else None)
      else (if cb.onDeselect then Some(OnDeselect) else None)
    case _ => None
  }

  /**
   * One render of a component that uses the hook: the two slots it reads, and whether the
   * callbacks it passes have new identities (true on every render for inline arrow functions).
   */
  datatype Render = Render(hovered: Option<SceneObject>, selected: Option<SceneObject>, renewed: bool)

  /**
   * Whether an effect runs after a render. EventSystem.jsx's effects depend on their slot alone
   * (the callbacks sit in refs); EventSystem.js's also list the callbacks, so with
   * `callbacksAreDeps` a renewed callback re-runs the effect.
   */
  function EffectRuns(prevSlot: Option<SceneObject>, slot: Option<SceneObject>, renewed: bool, callbacksAreDeps: bool): (b: bool)
    ensures prevSlot != slot ==> b
    ensures !callbacksAreDeps ==> (b <==> prevSlot != slot)
    ensures callbacksAreDeps && renewed ==> b
  {
    prevSlot != slot || (callbacksAreDeps && renewed)
  }

  function Fires(r: Option<Reaction>): seq<Reaction> {
    if r.Some? then [r.value] else []
  }

  /** The callbacks one render makes a component run: its hover effect's, then its selection effect's. */
  function RenderFired(prev: Render, next: Render, ref: RefSlot, cb: Callbacks, callbacksAreDeps: bool): (r: seq<Reaction>)
    ensures |r| <= 2
    ensures !ref.Attached? ==> r == []
  {
    var hover := if EffectRuns(prev.hovered, next.hovered, next.renewed, callbacksAreDeps) then HoverReaction(next.hovered, ref, cb) else None;
    var select := if EffectRuns(prev.selected, next.selected, next.renewed, callbacksAreDeps) then SelectReaction(next.selected, ref, cb) else None;
    Fires(hover) + Fires(select)
  }

  /** The callbacks a component runs over a run of renders, render by render. */
  function Fired(prev: Render, renders: seq<Render>, ref: RefSlot, cb: Callbacks, callbacksAreDeps: bool): (r: seq<Reaction>)
    ensures |r| <= 2 * |renders|
    ensures !ref.Attached? ==> r == []
    decreases |renders|
  {
    if renders == [] then []
    else RenderFired(prev, renders[0], ref, cb, callbacksAreDeps) + Fired(renders[0], renders[1..], ref, cb, callbacksAreDeps)
  }

  /** How many times over the renders the selected slot changes to `o` from something else. */
  function Selections(prevSelected: Option<SceneObject>, renders: seq<Render>, o: SceneObject): (n: nat)
    ensures n <= |renders|
    ensures (forall i :: 0 <= i < |renders| ==> renders[i].selected != Some(o)) ==> n == 0
    decreases |renders|
  {
    if renders == [] then 0
    else (if renders[0].selected == Some(o) && prevSelected != Some(o) then 1 else 0) + Selections(renders[0].selected, renders[1..], o)
  }

  /**
   * EventSystem.js as written: a selected component re-rendered by a hover change, with fresh
   * inline callbacks, runs onClick a second time although nobody clicked.
   */
  lemma RepeatedClickAsWritten(o: SceneObject, cb: Callbacks)
    requires cb.onClick
    ensures var prev := Render(None, Some(o), false);
      var renders := [Render(Some(o), Some(o), true)];
      && Selections(prev.selected, renders, o) == 0
      && multiset(Fired(prev, renders, Attached(o), cb, true))[OnClick] == 1
  {
    var prev := Render(None, Some(o), false);
    var renders := [Render(Some(o), Some(o), true)];
    assert renders[1..] == [];
    assert RenderFired(prev, renders[0], Attached(o), cb, true) == Fires(HoverReaction(Some(o), Attached(o), cb)) + [OnClick];
  }

  /**
   * With EventSystem.jsx's dependency lists, a mounted component runs onClick exactly once per
   * change of the selected slot to its own node, whatever its callbacks' identities do.
   */
  lemma {:induction false} ClickOncePerSelection(prev: Render, renders: seq<Render>, o: SceneObject, cb: Callbacks)
    requires cb.onClick
    ensures multiset(Fired(prev, renders, Attached(o), cb, false))[OnClick] == Selections(prev.selected, renders, o)
    decreases |renders|
  {
    if renders != [] {
      var next, rest := renders[0], renders[1..];
      RenderClicks(prev, next, o, cb);
      ClickOncePerSelection(next, rest, o, cb);
    }
  }

  /** With slot-only dependencies, one render runs onClick exactly when the selection moves to the node. */
  lemma RenderClicks(prev: Render, next: Render, o: SceneObject, cb: Callbacks)
    requires cb.onClick
    ensures multiset(RenderFired(prev, next, Attached(o), cb, false))[OnClick] ==
      if next.selected == Some(o) && prev.selected != Some(o) then 1 else 0
  {
    var hover := if next.hovered != prev.hovered then HoverReaction(next.hovered, Attached(o), cb) else None;
    var select := if next.selected != prev.selected then SelectReaction(next.selected, Attached(o), cb) else None;
    assert RenderFired(prev, next, Attached(o), cb, false) == Fires(hover) + Fires(select);
    assert multiset(Fires(hover))[OnClick] == 0;
  }

  /** A component whose ref is not attached runs no callback at all. */
  lemma DetachedComponentIsSilent(hovered: Option<SceneObject>, selected: Option<SceneObject>, ref: RefSlot, cb: Callbacks)
    requires !ref.Attached?
    ensures HoverReaction(hovered, ref, cb) == None && SelectReaction(selected, ref, cb) == None
  {
  }

  /** The registration effect on mount: the attached node joins the registry. */
  function MountRegistration(registry: set<SceneObject>, ref: RefSlot): (r: set<SceneObject>)
    ensures ref.Attached? ==> r == registry + {ref.node}
    ensures !ref.Attached? ==> r == registry
  {
    if ref.Attached? then registry + {ref.node} else registry
  }

  /** EventSystem.jsx's cleanup: it unregisters the node captured when the effect ran. */
  function UnmountRegistration(registry: set<SceneObject>, captured: SceneObject): (r: set<SceneObject>)
    ensures captured !in r && r <= registry
    ensures forall o :: o in registry && o != captured ==> o in r
  {
    registry - {captured}
  }

  /**
   * EventSystem.js's cleanup as written: it unregisters whatever `ref.current` holds when the
   * cleanup runs; deleting `null` from a JavaScript Set does nothing.
   */
  function UnmountRegistrationAsWritten(registry: set<SceneObject>, refAtCleanup: RefSlot): (r: set<SceneObject>)
    ensures refAtCleanup.Attached? ==> r == registry - {refAtCleanup.node}
    ensures !refAtCleanup.Attached? ==> r == registry
  {
    if refAtCleanup.Attached? then registry - {refAtCleanup.node} else registry
  }

  /**
   * React clears `ref.current` to `null` when a node is removed, before passive-effect cleanups
   * run; the cleanup as written then leaves the unmounted node registered.
   */
  lemma StaleRegistrationAsWritten(o: SceneObject)
    ensures o in UnmountRegistrationAsWritten(MountRegistration({}, Attached(o)), Cleared)
  {
  }

  /** With the captured handle, mounting then unmounting restores the registry exactly. */
  lemma MountUnmountRestoresRegistry(registry: set<SceneObject>, o: SceneObject)
    requires o !in registry
    ensures UnmountRegistration(MountRegistration(registry, Attached(o)), o) == registry
  {
  }
}
