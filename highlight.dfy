/**
 * `InteractiveHighlight` (src/systems/EventSystem.js): each time the hovered object changes, the
 * previous effect's cleanup copies the saved emissive colour back onto the previously hovered
 * object, and the new effect clones the new object's emissive colour and paints it 0x666666; the
 * selected object is treated the same way with 0x999999. The colour is kept per scene object:
 * the keys of the emissive map are the objects whose material has an emissive colour, and any
 * other object is skipped (materials shared between objects are not modelled).
 */
module Highlight {
  import opened Wrappers
  import opened EventSystem

  const HoverColour: int := 0x666666
  const SelectColour: int := 0x999999

  /** An emissive colour cloned by an effect, to be copied back by its cleanup. */
  datatype Saved = Saved(node: SceneObject, colour: int)

  /** The emissive colour of every object with a material, the two slots the effects last saw, and what each effect saved. */
  datatype Highlights = Highlights(
    emissive: map<SceneObject, int>,
    hovered: Option<SceneObject>, hoverSaved: Option<Saved>,
    selected: Option<SceneObject>, selectSaved: Option<Saved>)

  /** Nothing is hovered or selected and nothing is saved. */
  function Idle(emissive: map<SceneObject, int>): Highlights {
    Highlights(emissive, None, None, None, None)
  }

  /** The cleanup: copy the cloned colour back onto its object. */
  function RestoreSaved(emissive: map<SceneObject, int>, saved: Option<Saved>): (e: map<SceneObject, int>)
    ensures e.Keys == emissive.Keys
    ensures saved.Some? && saved.value.node in emissive ==> e[saved.value.node] == saved.value.colour
    ensures forall n :: n in emissive && (saved.None? || n != saved.value.node) ==> e[n] == emissive[n]
  {
    match saved
    case Some(Saved(n, c)) => if n in emissive then emissive[n := c] else emissive
    case None => emissive
  }

  /** The effect: if the new object has a material, clone its colour and paint it `colour`. */
  function Paint(emissive: map<SceneObject, int>, target: Option<SceneObject>, colour: int): (r: (map<SceneObject, int>, Option<Saved>))
    ensures r.0.Keys == emissive.Keys
    ensures target.Some? && target.value in emissive ==>
      r.1 == Some(Saved(target.value, emissive[target.value])) && r.0[target.value] == colour
    ensures !(target.Some? && target.value in emissive) ==> r == (emissive, None)
    ensures forall n :: n in emissive && target != Some(n) ==> r.0[n] == emissive[n]
  {
    if target.Some? && target.value in emissive then
      (emissive[target.value := colour], Some(Saved(target.value, emissive[target.value])))
    else (emissive, None)
  }

  /** The hover effect as written; it re-runs only when `hoveredObject` changes. */
  function HoverChange(h: Highlights, next: Option<SceneObject>): (r: Highlights)
    ensures r.hovered == next && r.selected == h.selected && r.selectSaved == h.selectSaved
    ensures r.emissive.Keys == h.emissive.Keys
    ensures next != h.hovered && next.Some? && next.value in h.emissive ==>
      r.emissive[next.value] == HoverColour && r.hoverSaved.Some? && r.hoverSaved.value.node == next.value
    ensures forall n :: n in h.emissive && next != Some(n) && (h.hoverSaved.None? || h.hoverSaved.value.node != n) ==>
      r.emissive[n] == h.emissive[n]
  {
    if next == h.hovered then h
    else
      var (e, s) := Paint(RestoreSaved(h.emissive, h.hoverSaved), next, HoverColour);
      h.(emissive := e, hovered := next, hoverSaved := s)
  }

  /** The selection effect as written; it re-runs only when `selectedObject` changes. */
  function SelectChange(h: Highlights, next: Option<SceneObject>): (r: Highlights)
    ensures r.selected == next && r.hovered == h.hovered && r.hoverSaved == h.hoverSaved
    ensures r.emissive.Keys == h.emissive.Keys
    ensures next != h.selected && next.Some? && next.value in h.emissive ==>
      r.emissive[next.value] == SelectColour && r.selectSaved.Some? && r.selectSaved.value.node == next.value
    ensures forall n :: n in h.emissive && next != Some(n) && (h.selectSaved.None? || h.selectSaved.value.node != n) ==>
      r.emissive[n] == h.emissive[n]
  {
    if next == h.selected then h
    else
      var (e, s) := Paint(RestoreSaved(h.emissive, h.selectSaved), next, SelectColour);
      h.(emissive := e, selected := next, selectSaved := s)
  }

  /** While an object with a material is hovered it shows 0x666666, and no other object's colour changed. */
  lemma HoverPaints(h: Highlights, o: SceneObject)
    requires h.hovered == None && h.hoverSaved == None && o in h.emissive
    ensures HoverChange(h, Some(o)).emissive == h.emissive[o := HoverColour]
    ensures HoverChange(h, Some(o)).hoverSaved == Some(Saved(o, h.emissive[o]))
  {
  }

  /**
   * Hovering an object that is not involved in the selection and then leaving it restores every
   * emissive colour exactly.
   */
  lemma HoverThenLeaveRestores(h: Highlights, o: SceneObject)
    requires h.hovered == None && h.hoverSaved == None && o in h.emissive
    ensures HoverChange(HoverChange(h, Some(o)), None).emissive == h.emissive
  {
    var h1 := HoverChange(h, Some(o));
    var h2 := HoverChange(h1, None);
    assert h1.emissive == h.emissive[o := HoverColour];
    assert h2.emissive == RestoreSaved(h1.emissive, h1.hoverSaved);
    assert h2.emissive == h.emissive;
  }

  /**
   * As written, the two effects save and restore independently: hover an object, select it,
   * move the pointer away, click empty space. The selection effect cloned the hover colour as
   * the "original", so the object is left showing 0x666666 instead of its own colour.
   */
  lemma StuckHoverHighlight(o: SceneObject)
    ensures
      var h0 := Idle(map[o := 0]);
      var h4 := SelectChange(HoverChange(SelectChange(HoverChange(h0, Some(o)), Some(o)), None), None);
      h4.hovered == None && h4.selected == None && h4.emissive[o] == HoverColour != h0.emissive[o]
  {
  }

  // ---- Corrected save/restore ----

  /** The colour an object should show: the selection colour wins over the hover colour. */
  function Shown(originals: map<SceneObject, int>, hovered: Option<SceneObject>, selected: Option<SceneObject>): (e: map<SceneObject, int>)
    ensures e.Keys == originals.Keys
  {
    map n | n in originals ::
      if selected == Some(n) then SelectColour else if hovered == Some(n) then HoverColour else originals[n]
  }

  /** What an effect should have saved for a slot: the object's original colour, if it has a material. */
  function SavedFor(originals: map<SceneObject, int>, slot: Option<SceneObject>): Option<Saved> {
    if slot.Some? && slot.value in originals then Some(Saved(slot.value, originals[slot.value])) else None
  }

  /** The corrected invariant: every object shows what `Shown` says and each slot saved the true original. */
  predicate Faithful(h: Highlights, originals: map<SceneObject, int>) {
    && h.emissive == Shown(originals, h.hovered, h.selected)
    && h.hoverSaved == SavedFor(originals, h.hovered)
    && h.selectSaved == SavedFor(originals, h.selected)
  }

  /**
   * Corrected hover effect: the cleanup puts back the selection colour when the object is still
   * selected, and the effect takes the original from the selection's clone when there is one and
   * does not paint over a selected object.
   */
  function HoverChangeFixed(h: Highlights, next: Option<SceneObject>): (r: Highlights)
    ensures r.hovered == next && r.selected == h.selected && r.selectSaved == h.selectSaved
    ensures r.emissive.Keys == h.emissive.Keys
    ensures forall n :: n in h.emissive && next != Some(n) && (h.hoverSaved.None? || h.hoverSaved.value.node != n) ==>
      r.emissive[n] == h.emissive[n]
  {
    if next == h.hovered then h
    else
      var e :=
        match h.hoverSaved
        case Some(Saved(n, c)) => if n in h.emissive then h.emissive[n := if h.selected == Some(n) then SelectColour else c] else h.emissive
        case None => h.emissive;
      if next.Some? && next.value in e then
        var n := next.value;
        var original := if h.selectSaved.Some? && h.selectSaved.value.node == n then h.selectSaved.value.colour else e[n];
        h.(emissive := if h.selected == Some(n) then e else e[n := HoverColour], hovered := next, hoverSaved := Some(Saved(n, original)))
      else h.(emissive := e, hovered := next, hoverSaved := None)
  }

  /** Corrected selection effect, symmetric to `HoverChangeFixed`. */
  function SelectChangeFixed(h: Highlights, next: Option<SceneObject>): (r: Highlights)
    ensures r.selected == next && r.hovered == h.hovered && r.hoverSaved == h.hoverSaved
    ensures r.emissive.Keys == h.emissive.Keys
    ensures next != h.selected && next.Some? && next.value in h.emissive ==> r.emissive[next.value] == SelectColour
    ensures forall n :: n in h.emissive && next != Some(n) && (h.selectSaved.None? || h.selectSaved.value.node != n) ==>
      r.emissive[n] == h.emissive[n]
  {
    if next == h.selected then h
    else
      var e :=
        match h.selectSaved
        case Some(Saved(n, c)) => if n in h.emissive then h.emissive[n := if h.hovered == Some(n) then HoverColour else c] else h.emissive
        case None => h.emissive;
      if next.Some? && next.value in e then
        var n := next.value;
        var original := if h.hoverSaved.Some? && h.hoverSaved.value.node == n then h.hoverSaved.value.colour else e[n];
        h.(emissive := e[n := SelectColour], selected := next, selectSaved := Some(Saved(n, original)))
      else h.(emissive := e, selected := next, selectSaved := None)
  }

  lemma HoverFixedKeepsFaithful(h: Highlights, originals: map<SceneObject, int>, next: Option<SceneObject>)
    requires Faithful(h, originals)
    ensures Faithful(HoverChangeFixed(h, next), originals) && HoverChangeFixed(h, next).hovered == next
    ensures HoverChangeFixed(h, next).selected == h.selected
  {
    if next != h.hovered {
      var h' := HoverChangeFixed(h, next);
      forall n | n in originals ensures h'.emissive[n] == Shown(originals, next, h.selected)[n] {
      }
      assert h'.emissive == Shown(originals, next, h.selected);
    }
  }

  lemma SelectFixedKeepsFaithful(h: Highlights, originals: map<SceneObject, int>, next: Option<SceneObject>)
    requires Faithful(h, originals)
    ensures Faithful(SelectChangeFixed(h, next), originals) && SelectChangeFixed(h, next).selected == next
    ensures SelectChangeFixed(h, next).hovered == h.hovered
  {
    if next != h.selected {
      var h' := SelectChangeFixed(h, next);
      forall n | n in originals ensures h'.emissive[n] == Shown(originals, h.hovered, next)[n] {
      }
      assert h'.emissive == Shown(originals, h.hovered, next);
    }
  }

  /** A change of one slot, as delivered to the two effects. */
  datatype SlotChange = HoverTo(hover: Option<SceneObject>) | SelectTo(select: Option<SceneObject>)

  /** The corrected effects applied to a sequence of slot changes, in order. */
  function ApplyFixed(h: Highlights, changes: seq<SlotChange>): (r: Highlights)
    ensures r.emissive.Keys == h.emissive.Keys
    ensures changes == [] ==> r == h
    decreases |changes|
  {
    if changes == [] then h
    else
      var h' := match changes[0]
        case HoverTo(t) => HoverChangeFixed(h, t)
        case SelectTo(t) => SelectChangeFixed(h, t);
      ApplyFixed(h', changes[1..])
  }

  /**
   * With the corrected effects, after any sequence of hover and selection changes every object
   * shows exactly what its slots call for, so an object that is neither hovered nor selected is
   * back to its original colour.
   */
  lemma {:induction false} FixedRestoresOriginal(originals: map<SceneObject, int>, changes: seq<SlotChange>)
    ensures var h := ApplyFixed(Idle(originals), changes);
      h.emissive == Shown(originals, h.hovered, h.selected) &&
      (h.hovered == None && h.selected == None ==> h.emissive == originals)
    decreases |changes|
  {
    FixedSequenceFaithful(Idle(originals), originals, changes);
    var h := ApplyFixed(Idle(originals), changes);
    if h.hovered == None && h.selected == None {
      assert h.emissive == originals;
    }
  }

  lemma {:induction false} FixedSequenceFaithful(h: Highlights, originals: map<SceneObject, int>, changes: seq<SlotChange>)
    requires Faithful(h, originals)
    ensures Faithful(ApplyFixed(h, changes), originals)
    decreases |changes|
  {
    if changes != [] {
      match changes[0]
      case HoverTo(t) =>
        HoverFixedKeepsFaithful(h, originals, t);
        FixedSequenceFaithful(HoverChangeFixed(h, t), originals, changes[1..]);
      case SelectTo(t) =>
        SelectFixedKeepsFaithful(h, originals, t);
        FixedSequenceFaithful(SelectChangeFixed(h, t), originals, changes[1..]);
    }
  }

  /** The component as it runs: its effects overwrite and later restore the objects' emissive colours in place. */
  class Highlighter {
    var emissive: map<SceneObject, int>
    var hovered: Option<SceneObject>
    var hoverSaved: Option<Saved>
    var selected: Option<SceneObject>
    var selectSaved: Option<Saved>

    function State(): Highlights
      reads this
    {
      Highlights(emissive, hovered, hoverSaved, selected, selectSaved)
    }

    constructor (emissive: map<SceneObject, int>)
      ensures State() == Idle(emissive)
    {
      this.emissive := emissive;
      hovered, hoverSaved, selected, selectSaved := None, None, None, None;
    }

    method OnHoveredChange(next: Option<SceneObject>)
      modifies this
      ensures State() == HoverChange(old(State()), next)
    {
      if next != hovered {
        if hoverSaved.Some? && hoverSaved.value.node in emissive {
          emissive := emissive[hoverSaved.value.node := hoverSaved.value.colour];
        }
        hovered := next;
        if next.Some? && next.value in emissive {
          hoverSaved := Some(Saved(next.value, emissive[next.value]));
          emissive := emissive[next.value := HoverColour];
        } else {
          hoverSaved := None;
        }
      }
    }

    method OnSelectedChange(next: Option<SceneObject>)
      modifies this
      ensures State() == SelectChange(old(State()), next)
    {
      if next != selected {
        if selectSaved.Some? && selectSaved.value.node in emissive {
          emissive := emissive[selectSaved.value.node := selectSaved.value.colour];
        }
        selected := next;
        if next.Some? && next.value in emissive {
          selectSaved := Some(Saved(next.value, emissive[next.value]));
          emissive := emissive[next.value := SelectColour];
        } else {
          selectSaved := None;
        }
      }
    }
  }
}
