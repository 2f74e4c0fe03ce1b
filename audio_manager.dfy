/**
 * The audio channel state of src/systems/AudioManager.js. Each Howler sound is an abstract
 * record: whether it loops, its volume, mute flag, whether it is playing, its stereo pan and
 * whether it has been unloaded. Fades are modelled by the volume they end at.
 */
module Audio {

  /** One Howler sound, seen only through the state the site changes. */
  datatype Howl = Howl(loop: bool, volume: real, muted: bool, playing: bool, pan: real, unloaded: bool)

  /** A freshly constructed sound: not muted, not playing, centred. */
  function NewHowl(loop: bool, volume: real): (h: Howl)
    ensures h.loop == loop && h.volume == volume
    ensures !h.muted && !h.playing && !h.unloaded && h.pan == 0.0
  {
    Howl(loop, volume, false, false, 0.0, false)
  }

  /**
   * `playSound`: plays the named sound only when not muted and the name exists; every other
   * sound, and every other field of the named one, is left as it was.
   */
  function PlayIn(sounds: map<string, Howl>, muted: bool, name: string): (r: map<string, Howl>)
    ensures r.Keys == sounds.Keys
    ensures muted || name !in sounds ==> r == sounds
    ensures forall n :: n in r && n != name ==> r[n] == sounds[n]
    ensures name in r ==> (r[name].playing <==> !muted || sounds[name].playing)
    ensures name in r ==> r[name].(playing := sounds[name].playing) == sounds[name]
  {
    if !muted && name in sounds then sounds[name := sounds[name].(playing := true)] else sounds
  }

  /** `stopSound`: stops the named sound if it exists, whatever the mute flag; nothing else changes. */
  function StopIn(sounds: map<string, Howl>, name: string): (r: map<string, Howl>)
    ensures r.Keys == sounds.Keys
    ensures name !in sounds ==> r == sounds
    ensures forall n :: n in r && n != name ==> r[n] == sounds[n]
    ensures name in r ==> !r[name].playing && r[name].(playing := sounds[name].playing) == sounds[name]
  {
    if name in sounds then sounds[name := sounds[name].(playing := false)] else sounds
  }

  /** Every sound muted (or unmuted) with `m`, nothing else about it changed. */
  function MuteAll(sounds: map<string, Howl>, m: bool): (r: map<string, Howl>)
    ensures r.Keys == sounds.Keys
    ensures forall n :: n in r ==> r[n].muted == m && r[n].(muted := sounds[n].muted) == sounds[n]
  {
    map n | n in sounds :: sounds[n].(muted := m)
  }

  /** Every sound's mute flag agrees with `m`. */
  predicate AllMuted(sounds: map<string, Howl>, m: bool) {
    forall n :: n in sounds ==> sounds[n].muted == m
  }

  /**
   * Muting every sound with the flag they already agree on changes nothing, so flipping the flag
   * twice, muting everything each time, gives back the sounds it started from.
   */
  lemma MuteTwiceRestores(sounds: map<string, Howl>, m: bool)
    requires AllMuted(sounds, m)
    ensures AllMuted(MuteAll(sounds, !m), !m)
    ensures MuteAll(MuteAll(sounds, !m), m) == sounds
  {
    var once := MuteAll(sounds, !m);
    var twice := MuteAll(once, m);
    forall n | n in twice ensures twice[n] == sounds[n] {
      assert once[n].(muted := sounds[n].muted) == sounds[n];
    }
  }

  /** Every sound except the background one set to volume `v`, nothing else changed. */
  function EffectsAt(sounds: map<string, Howl>, v: real): (r: map<string, Howl>)
    ensures r.Keys == sounds.Keys
    ensures "background" in sounds ==> r["background"] == sounds["background"]
    ensures forall n :: n in r && n != "background" ==>
      r[n].volume == v && r[n].(volume := sounds[n].volume) == sounds[n]
  {
    map n | n in sounds :: if n == "background" then sounds[n] else sounds[n].(volume := v)
  }

  /** The volume a fade-in ends at: the background level for the background sound, the effects level otherwise. */
  function FadeTarget(name: string, backgroundVolume: real, effectsVolume: real): (v: real)
    ensures name == "background" ==> v == backgroundVolume
    ensures name != "background" ==> v == effectsVolume
  {
    if name == "background" then backgroundVolume else effectsVolume
  }

  /**
   * The distance attenuation of `playSpatialSound`: full volume at the listener, falling linearly
   * to silence at `maxDistance` and staying silent beyond it.
   */
  function SpatialGain(distance: real, maxDistance: real): (g: real)
    requires distance >= 0.0 && maxDistance > 0.0
    ensures 0.0 <= g <= 1.0
    ensures g == 0.0 <==> distance >= maxDistance
    ensures distance == 0.0 ==> g == 1.0
  {
    var linear := 1.0 - distance / maxDistance;
    if distance >= maxDistance then
      assert distance / maxDistance >= 1.0;
      0.0
    else
      assert distance / maxDistance < 1.0;
      linear
  }

  lemma QuotientOrder(a: real, b: real, d: real)
    requires d > 0.0 && a <= b
    ensures a / d <= b / d
  {
    assert b / d - a / d == (b - a) / d;
  }

  /** A farther sound is never louder. */
  lemma SpatialGainFalls(near: real, far: real, maxDistance: real)
    requires 0.0 <= near <= far && maxDistance > 0.0
    ensures SpatialGain(far, maxDistance) <= SpatialGain(near, maxDistance)
  {
    QuotientOrder(near, far, maxDistance);
  }

  /** The applied volume lies between silence and the effects level. */
  lemma SpatialVolumeBounds(distance: real, maxDistance: real, effectsVolume: real)
    requires distance >= 0.0 && maxDistance > 0.0
    ensures effectsVolume >= 0.0 ==> 0.0 <= SpatialGain(distance, maxDistance) * effectsVolume <= effectsVolume
  {
    var g := SpatialGain(distance, maxDistance);
    if effectsVolume >= 0.0 {
      assert g * effectsVolume <= 1.0 * effectsVolume;
    }
  }

  /** The stereo pan of `playSpatialSound`: `x / maxDistance`, clamped to [-1, 1]. */
  function Pan(x: real, maxDistance: real): (p: real)
    requires maxDistance > 0.0
    ensures -1.0 <= p <= 1.0
    ensures -maxDistance <= x <= maxDistance ==> p == x / maxDistance
    ensures x >= maxDistance ==> p == 1.0
    ensures x <= -maxDistance ==> p == -1.0
  {
    if x >= maxDistance then
      QuotientOrder(maxDistance, x, maxDistance);
      1.0
    else if x <= -maxDistance then
      QuotientOrder(x, -maxDistance, maxDistance);
      -1.0
    else
      QuotientOrder(-maxDistance, x, maxDistance);
      QuotientOrder(x, maxDistance, maxDistance);
      x / maxDistance
  }

  /** `distance` is the Euclidean length of (`x`, `y`, `z`), the value `Math.sqrt` returns for it. */
  predicate IsDistance(x: real, y: real, z: real, distance: real) {
    distance >= 0.0 && distance * distance == x * x + y * y + z * z
  }

  /**
   * The sound as `playSpatialSound` leaves it: attenuated to the effects level scaled by distance,
   * panned by its lateral offset, and playing.
   */
  function Spatialised(h: Howl, distance: real, x: real, maxDistance: real, effectsVolume: real): (r: Howl)
    requires distance >= 0.0 && maxDistance > 0.0
    ensures r.playing && -1.0 <= r.pan <= 1.0
    ensures effectsVolume >= 0.0 ==> 0.0 <= r.volume <= effectsVolume
    ensures distance >= maxDistance ==> r.volume == 0.0
    ensures r.(volume := h.volume, pan := h.pan, playing := h.playing) == h
  {
    SpatialVolumeBounds(distance, maxDistance, effectsVolume);
    h.(volume := SpatialGain(distance, maxDistance) * effectsVolume, pan := Pan(x, maxDistance), playing := true)
  }

  /**
   * While a sound is audible (nearer than `maxDistance`) its pan is never clamped: the lateral
   * offset cannot exceed the distance.
   */
  lemma AudibleSoundIsNotClamped(x: real, y: real, z: real, distance: real, maxDistance: real)
    requires IsDistance(x, y, z, distance) && maxDistance > 0.0
    requires SpatialGain(distance, maxDistance) > 0.0
    ensures Pan(x, maxDistance) == x / maxDistance
  {
    var ax := if x < 0.0 then -x else x;
    assert ax * ax == x * x;
    if ax > distance {
      assert ax * ax > distance * ax >= distance * distance;
    }
  }

  /** The five sounds `AudioManager` creates: only the background one loops, at 0.3; the others play at 0.5. */
  const ManagerSounds: map<string, Howl> := map[
    "background" := NewHowl(true, 0.3),
    "hover" := NewHowl(false, 0.5),
    "click" := NewHowl(false, 0.5),
    "transition" := NewHowl(false, 0.5),
    "portal" := NewHowl(false, 0.5)]

  /** The exported `audioManager` singleton. */
  class AudioManager {
    var sounds: map<string, Howl>
    var isMuted: bool
    var backgroundVolume: real
    var effectsVolume: real

    /**
     * The sound table always holds the same five names, only the background sound loops, and
     * every sound's mute flag agrees with `isMuted`.
     */
    ghost predicate Valid()
      reads this
    {
      && sounds.Keys == ManagerSounds.Keys
      && AllMuted(sounds, isMuted)
      && (forall n :: n in sounds ==> (sounds[n].loop <==> n == "background"))
    }

    constructor ()
      ensures Valid()
      ensures sounds == ManagerSounds && !isMuted
      ensures backgroundVolume == 0.3 && effectsVolume == 0.5
    {
      sounds := ManagerSounds;
      isMuted, backgroundVolume, effectsVolume := false, 0.3, 0.5;
    }

    method PlaySound(name: string)
      requires Valid()
      modifies this
      ensures Valid()
      ensures sounds == PlayIn(old(sounds), isMuted, name)
      ensures isMuted == old(isMuted) && backgroundVolume == old(backgroundVolume) && effectsVolume == old(effectsVolume)
    {
      if !isMuted && name in sounds {
        sounds := sounds[name := sounds[name].(playing := true)];
      }
    }

    method StopSound(name: string)
      requires Valid()
      modifies this
      ensures Valid()
      ensures sounds == StopIn(old(sounds), name)
      ensures isMuted == old(isMuted) && backgroundVolume == old(backgroundVolume) && effectsVolume == old(effectsVolume)
    {
      if name in sounds {
        sounds := sounds[name := sounds[name].(playing := false)];
      }
    }

    /** `fadeIn`, by the volume the fade ends at; an unknown name is ignored. */
    method FadeIn(name: string)
      requires Valid()
      modifies this
      ensures Valid()
      ensures name in old(sounds) ==>
        sounds == old(sounds)[name := old(sounds)[name].(volume := FadeTarget(name, backgroundVolume, effectsVolume))]
      ensures name !in old(sounds) ==> sounds == old(sounds)
      ensures isMuted == old(isMuted) && backgroundVolume == old(backgroundVolume) && effectsVolume == old(effectsVolume)
    {
      if name in sounds {
        var target := if name == "background" then backgroundVolume else effectsVolume;
        sounds := sounds[name := sounds[name].(volume := target)];
      }
    }

    /** `fadeOut`, by the volume the fade ends at; an unknown name is ignored. */
    method FadeOut(name: string)
      requires Valid()
      modifies this
      ensures Valid()
      ensures name in old(sounds) ==> sounds == old(sounds)[name := old(sounds)[name].(volume := 0.0)]
      ensures name !in old(sounds) ==> sounds == old(sounds)
      ensures isMuted == old(isMuted) && backgroundVolume == old(backgroundVolume) && effectsVolume == old(effectsVolume)
    {
      if name in sounds {
        sounds := sounds[name := sounds[name].(volume := 0.0)];
      }
    }

    /** Plays the background loop and fades it in to the background level, unless muted. */
    method StartBackground()
      requires Valid()
      modifies this
      ensures Valid()
      ensures isMuted ==> sounds == old(sounds)
      ensures !isMuted ==> sounds == old(sounds)["background" := old(sounds)["background"].(playing := true, volume := backgroundVolume)]
      ensures isMuted == old(isMuted) && backgroundVolume == old(backgroundVolume) && effectsVolume == old(effectsVolume)
    {
      if !isMuted {
        PlaySound("background");
        FadeIn("background");
      }
    }

    method StopBackground()
      requires Valid()
      modifies this
      ensures Valid()
      ensures sounds == old(sounds)["background" := old(sounds)["background"].(volume := 0.0)]
      ensures isMuted == old(isMuted) && backgroundVolume == old(backgroundVolume) && effectsVolume == old(effectsVolume)
    {
      FadeOut("background");
    }

    /** Flips `isMuted` and mutes every sound with the new value, one sound at a time. */
    method ToggleMute()
      requires Valid()
      modifies this
      ensures Valid()
      ensures isMuted == !old(isMuted)
      ensures sounds == MuteAll(old(sounds), isMuted)
      ensures backgroundVolume == old(backgroundVolume) && effectsVolume == old(effectsVolume)
    {
      var m := !isMuted;
      var updated, rest := sounds, sounds.Keys;
      while rest != {}
        invariant rest <= sounds.Keys && updated.Keys == sounds.Keys
        invariant forall n :: n in updated ==> updated[n] == if n in rest then sounds[n] else sounds[n].(muted := m)
        decreases rest
      {
        var n :| n in rest;
        updated := updated[n := updated[n].(muted := m)];
        rest := rest - {n};
      }
      isMuted, sounds := m, updated;
    }

    /** Stores the value as given (no clamping) and applies it to the background sound only. */
    method SetBackgroundVolume(volume: real)
      requires Valid()
      modifies this
      ensures Valid()
      ensures backgroundVolume == volume
      ensures sounds == old(sounds)["background" := old(sounds)["background"].(volume := volume)]
      ensures isMuted == old(isMuted) && effectsVolume == old(effectsVolume)
    {
      backgroundVolume := volume;
      sounds := sounds["background" := sounds["background"].(volume := volume)];
    }

    /** Stores the value and applies it to every sound except the background one. */
    method SetEffectsVolume(volume: real)
      requires Valid()
      modifies this
      ensures Valid()
      ensures effectsVolume == volume
      ensures sounds == EffectsAt(old(sounds), volume)
      ensures isMuted == old(isMuted) && backgroundVolume == old(backgroundVolume)
    {
      var updated, rest := sounds, sounds.Keys;
      while rest != {}
        invariant rest <= sounds.Keys && updated.Keys == sounds.Keys
        invariant forall n :: n in updated ==>
          updated[n] == if n in rest || n == "background" then sounds[n] else sounds[n].(volume := volume)
        decreases rest
      {
        var n :| n in rest;
        if n != "background" {
          updated := updated[n := updated[n].(volume := volume)];
        }
        rest := rest - {n};
      }
      effectsVolume, sounds := volume, updated;
    }

    /**
     * `playSpatialSound` for a source at (`x`, `y`, `z`) whose distance from the listener is
     * `distance`: unless muted or unknown, sets the attenuated volume and the pan, then plays.
     */
    method PlaySpatialSound(name: string, x: real, y: real, z: real, distance: real, maxDistance: real)
      requires Valid()
      requires IsDistance(x, y, z, distance) && maxDistance > 0.0
      modifies this
      ensures Valid()
      ensures isMuted || name !in old(sounds) ==> sounds == old(sounds)
      ensures !isMuted && name in old(sounds) ==>
        sounds == old(sounds)[name := Spatialised(old(sounds)[name], distance, x, maxDistance, effectsVolume)]
      ensures isMuted == old(isMuted) && backgroundVolume == old(backgroundVolume) && effectsVolume == old(effectsVolume)
    {
      if !isMuted && name in sounds {
        sounds := sounds[name := Spatialised(sounds[name], distance, x, maxDistance, effectsVolume)];
      }
    }
  }
}
