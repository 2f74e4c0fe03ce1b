/**
 * The sound panel of src/components/ui/SoundControls.js: local React state (`isOpen`,
 * `isMuted`, `backgroundVolume`, `effectsVolume`) whose handlers push the same change into the
 * shared `audioManager`, plus a preset switch that only touches the local volumes.
 */
module SoundControls {
  import opened Wrappers
  import opened Audio

  /** A pair of slider levels. */
  datatype Levels = Levels(background: real, effects: real)

  /** The `setPreset` switch: the three named presets, and nothing for any other name. */
  function PresetFor(name: string): (r: Option<Levels>)
    ensures r.Some? <==> name == "gaming" || name == "ambient" || name == "balanced"
    ensures r.Some? ==> 0.0 <= r.value.background <= 1.0 && 0.0 <= r.value.effects <= 1.0
  {
    match name
    case "gaming" => Some(Levels(0.2, 0.7))
    case "ambient" => Some(Levels(0.4, 0.3))
    case "balanced" => Some(Levels(0.3, 0.5))
    case _ => None
  }

  /** `Math.round(v * 100)`: the nearest integer, halves rounded up. */
  function Percent(v: real): (p: int)
    ensures p as real - 0.5 <= v * 100.0 < p as real + 0.5
  {
    (v * 100.0 + 0.5).Floor
  }

  /** A slider value in [0, 1] is shown as a percentage in [0, 100], and a louder value never shows less. */
  lemma PercentBounds(v: real, w: real)
    requires 0.0 <= v <= w <= 1.0
    ensures 0 <= Percent(v) <= Percent(w) <= 100
  {
  }

  /** The presets show as whole-ten percentages. */
  lemma PresetPercentages()
    ensures Percent(PresetFor("gaming").value.background) == 20 && Percent(PresetFor("gaming").value.effects) == 70
    ensures Percent(PresetFor("ambient").value.background) == 40 && Percent(PresetFor("ambient").value.effects) == 30
    ensures Percent(PresetFor("balanced").value.background) == 30 && Percent(PresetFor("balanced").value.effects) == 50
  {
  }

  class SoundPanel {
    const manager: AudioManager
    var isOpen: bool
    var isMuted: bool
    var backgroundVolume: real
    var effectsVolume: real

    /** The local mute flag agrees with the manager's. */
    predicate Mirrored()
      reads this, manager
    {
      isMuted == manager.isMuted
    }

    /** The first render: closed, unmuted, background 0.3, effects 0.5. */
    constructor (manager: AudioManager)
      ensures this.manager == manager
      ensures !isOpen && !isMuted && backgroundVolume == 0.3 && effectsVolume == 0.5
      ensures Mirrored() <==> !manager.isMuted
    {
      this.manager := manager;
      isOpen, isMuted, backgroundVolume, effectsVolume := false, false, 0.3, 0.5;
    }

    /** The mount effect: pushes both local volumes into the manager. */
    method Mount()
      requires manager.Valid()
      modifies manager
      ensures manager.Valid()
      ensures manager.backgroundVolume == backgroundVolume && manager.effectsVolume == effectsVolume
      ensures manager.sounds ==
        EffectsAt(old(manager.sounds)["background" := old(manager.sounds)["background"].(volume := backgroundVolume)], effectsVolume)
      ensures manager.isMuted == old(manager.isMuted)
    {
      manager.SetBackgroundVolume(backgroundVolume);
      manager.SetEffectsVolume(effectsVolume);
    }

    /** Flips the local flag and toggles the manager, so the two keep agreeing (or keep disagreeing). */
    method HandleToggleMute()
      requires manager.Valid()
      modifies this, manager
      ensures manager.Valid()
      ensures isMuted == !old(isMuted) && manager.isMuted == !old(manager.isMuted)
      ensures manager.sounds == MuteAll(old(manager.sounds), manager.isMuted)
      ensures manager.backgroundVolume == old(manager.backgroundVolume) && manager.effectsVolume == old(manager.effectsVolume)
      ensures Mirrored() <==> old(Mirrored())
      ensures isOpen == old(isOpen) && backgroundVolume == old(backgroundVolume) && effectsVolume == old(effectsVolume)
    {
      isMuted := !isMuted;
      manager.ToggleMute();
    }

    /** Sets the local and the manager's background level to the same value. */
    method HandleBackgroundVolume(volume: real)
      requires manager.Valid()
      modifies this, manager
      ensures manager.Valid()
      ensures backgroundVolume == volume && manager.backgroundVolume == volume
      ensures manager.sounds == old(manager.sounds)["background" := old(manager.sounds)["background"].(volume := volume)]
      ensures isOpen == old(isOpen) && isMuted == old(isMuted) && effectsVolume == old(effectsVolume)
      ensures manager.isMuted == old(manager.isMuted) && manager.effectsVolume == old(manager.effectsVolume)
    {
      backgroundVolume := volume;
      manager.SetBackgroundVolume(volume);
    }

    /** Sets the local and the manager's effects level to the same value. */
    method HandleEffectsVolume(volume: real)
      requires manager.Valid()
      modifies this, manager
      ensures manager.Valid()
      ensures effectsVolume == volume && manager.effectsVolume == volume
      ensures manager.sounds == EffectsAt(old(manager.sounds), volume)
      ensures isOpen == old(isOpen) && isMuted == old(isMuted) && backgroundVolume == old(backgroundVolume)
      ensures manager.isMuted == old(manager.isMuted) && manager.backgroundVolume == old(manager.backgroundVolume)
    {
      effectsVolume := volume;
      manager.SetEffectsVolume(volume);
    }

    /** Plays the click sound through the manager, which ignores it while muted. */
    method PlayTestSound()
      requires manager.Valid()
      modifies manager
      ensures manager.Valid()
      ensures manager.sounds == PlayIn(old(manager.sounds), manager.isMuted, "click")
      ensures manager.isMuted == old(manager.isMuted)
      ensures manager.backgroundVolume == old(manager.backgroundVolume) && manager.effectsVolume == old(manager.effectsVolume)
    {
      manager.PlaySound("click");
    }

    /**
     * Applies a named preset to the local sliders only: the manager is not called, and an unknown
     * name changes nothing.
     */
    method SetPreset(name: string)
      modifies this
      ensures PresetFor(name).Some? ==>
        backgroundVolume == PresetFor(name).value.background && effectsVolume == PresetFor(name).value.effects
      ensures PresetFor(name).None? ==>
        backgroundVolume == old(backgroundVolume) && effectsVolume == old(effectsVolume)
      ensures isOpen == old(isOpen) && isMuted == old(isMuted)
    {
      match name {
        case "gaming" =>
          backgroundVolume, effectsVolume := 0.2, 0.7;
        case "ambient" =>
          backgroundVolume, effectsVolume := 0.4, 0.3;
        case "balanced" =>
          backgroundVolume, effectsVolume := 0.3, 0.5;
        case _ =>
      }
    }

    /** The panel's open flag flips on each press of its button. */
    method ToggleOpen()
      modifies this
      ensures isOpen == !old(isOpen)
      ensures isMuted == old(isMuted) && backgroundVolume == old(backgroundVolume) && effectsVolume == old(effectsVolume)
    {
      isOpen := !isOpen;
    }
  }
}
