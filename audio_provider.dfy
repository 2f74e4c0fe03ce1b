/**
 * The React audio context of src/systems/AudioSystem.jsx: an `AudioProvider` whose state is an
 * `isMuted` flag and a `sounds` table that starts empty, is filled by the mount effect from
 * `audioFiles`, and whose sounds are unloaded again by that effect's cleanup.
 */
module AudioSystem {
  import opened Audio

  /** The keys of `audioFiles`, in declaration order. */
  const AudioFiles: seq<string> := ["background", "hover", "click", "transition"]

  /** The sound the mount effect creates for `key`: only the background loops, at 0.3; the others play at 0.5. */
  function FreshSound(key: string): (h: Howl)
    ensures h.loop <==> key == "background"
    ensures h.volume == (if key == "background" then 0.3 else 0.5)
    ensures !h.muted && !h.playing && !h.unloaded
  {
    NewHowl(key == "background", if key == "background" then 0.3 else 0.5)
  }

  /** The table the mount effect builds: one fresh sound per `audioFiles` key. */
  function FileSounds(): (r: map<string, Howl>)
    ensures r.Keys == {"background", "hover", "click", "transition"}
    ensures forall n :: n in r ==> r[n] == FreshSound(n)
  {
    map n | n in AudioFiles :: FreshSound(n)
  }

  /** The mounted table: the background loops at 0.3, the other three play once at 0.5, none muted. */
  lemma MountedTable()
    ensures FileSounds()["background"] == NewHowl(true, 0.3)
    ensures forall n :: n in FileSounds() && n != "background" ==> FileSounds()[n] == NewHowl(false, 0.5)
    ensures AllMuted(FileSounds(), false)
  {
  }

  /** Every sound released, which also stops it. */
  function UnloadAll(sounds: map<string, Howl>): (r: map<string, Howl>)
    ensures r.Keys == sounds.Keys
    ensures forall n :: n in r ==> r[n].unloaded && !r[n].playing
    ensures forall n :: n in r ==> r[n].(unloaded := sounds[n].unloaded, playing := sounds[n].playing) == sounds[n]
  {
    map n | n in sounds :: sounds[n].(unloaded := true, playing := false)
  }

  class AudioProvider {
    var sounds: map<string, Howl>
    var isMuted: bool

    /** The first render: no sounds yet, unmuted. */
    constructor ()
      ensures sounds == map[] && !isMuted
    {
      sounds, isMuted := map[], false;
    }

    /** The mount effect: builds one sound per `audioFiles` entry and stores the table. */
    method Mount()
      modifies this
      ensures sounds == FileSounds()
      ensures isMuted == old(isMuted)
    {
      var soundObjects: map<string, Howl> := map[];
      var i := 0;
      while i < |AudioFiles|
        invariant 0 <= i <= |AudioFiles|
        invariant soundObjects == map n | n in AudioFiles[..i] :: FreshSound(n)
      {
        var key := AudioFiles[i];
        assert AudioFiles[..i + 1] == AudioFiles[..i] + [key];
        soundObjects := soundObjects[key := FreshSound(key)];
        i := i + 1;
      }
      assert AudioFiles[..i] == AudioFiles;
      sounds := soundObjects;
    }

    /** Plays only when not muted and the sound exists; before the mount effect nothing exists. */
    method PlaySound(name: string)
      modifies this
      ensures sounds == PlayIn(old(sounds), isMuted, name)
      ensures isMuted == old(isMuted)
    {
      if !isMuted && name in sounds {
        sounds := sounds[name := sounds[name].(playing := true)];
      }
    }

    /** Stops the sound if it exists, muted or not. */
    method StopSound(name: string)
      modifies this
      ensures sounds == StopIn(old(sounds), name)
      ensures isMuted == old(isMuted)
    {
      if name in sounds {
        sounds := sounds[name := sounds[name].(playing := false)];
      }
    }

    /**
     * Sets `isMuted` to the negation of the rendered value and mutes every sound with that same
     * negation, so the flag and the sounds keep agreeing.
     */
    method ToggleMute()
      modifies this
      ensures isMuted == !old(isMuted)
      ensures sounds == MuteAll(old(sounds), isMuted)
      ensures AllMuted(old(sounds), old(isMuted)) ==> AllMuted(sounds, isMuted)
    {
      var m := !isMuted;
      var updated, rest := sounds, sounds.Keys;
      while rest != {}
        invariant rest <= sounds.Keys && updated.Keys == sounds.Keys
        invariant forall n :: n in updated ==> updated[n] == if n in rest then sounds[n] else sounds[n].(muted := m)
        decreases rest
      {
        var n :| n in rest;
        updated := updated[n := updated[n].(muted := m)];
        rest := rest - {n};
      }
      isMuted, sounds := m, updated;
    }

    /** The mount effect's cleanup: unloads every sound it created. */
    method Unmount()
      modifies this
      ensures sounds == UnloadAll(old(sounds))
      ensures isMuted == old(isMuted)
    {
      var updated, rest := sounds, sounds.Keys;
      while rest != {}
        invariant rest <= sounds.Keys && updated.Keys == sounds.Keys
        invariant forall n :: n in updated ==>
          updated[n] == if n in rest then sounds[n] else sounds[n].(unloaded := true, playing := false)
        decreases rest
      {
        var n :| n in rest;
        updated := updated[n := updated[n].(unloaded := true, playing := false)];
        rest := rest - {n};
      }
      sounds := updated;
    }
  }
}
