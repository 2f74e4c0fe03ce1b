/**
 * The camera section state machine of src/components/controllers/CameraController.js: a zustand
 * store (`currentSection`, `isTransitioning`), a controller whose effect kills any running
 * timeline and starts a new one towards the current section's table entry, and the
 * `transitionTo` guard of `useCameraTransition`. A timeline is modelled by its status; its
 * tweens by the targets it moves the camera to.
 */
module Camera {

  datatype Vec = Vec(x: real, y: real, z: real)

  /** A table entry: camera position, look-at target, and rotation with each angle in units of π. */
  datatype Pose = Pose(position: Vec, target: Vec, rotation: Vec)

  /** `cameraPositions`. */
  const CameraPositions: map<string, Pose> := map[
    "home" := Pose(Vec(0.0, 0.0, 5.0), Vec(0.0, 0.0, 0.0), Vec(0.0, 0.0, 0.0)),
    "about" := Pose(Vec(10.0, 2.0, 5.0), Vec(10.0, 0.0, 0.0), Vec(0.0, -0.25, 0.0)),
    "events" := Pose(Vec(-8.0, 4.0, 8.0), Vec(0.0, 0.0, 0.0), Vec(-1.0 / 6.0, 0.25, 0.0)),
    "gallery" := Pose(Vec(5.0, -3.0, 10.0), Vec(0.0, -3.0, 0.0), Vec(0.0, -1.0 / 3.0, 0.0))]

  /** The table holds exactly four sections; there is no `team` entry. */
  lemma SectionTable()
    ensures CameraPositions.Keys == {"home", "about", "events", "gallery"}
    ensures "team" !in CameraPositions
  {
  }

  datatype Timeline = Running | Killed | Completed

  /** No timeline but possibly the last is still running. */
  predicate AtMostLastRunning(timelines: seq<Timeline>) {
    forall i :: 0 <= i < |timelines| - 1 ==> timelines[i] != Running
  }

  /** The last timeline, if any, is running. */
  predicate LastRunning(timelines: seq<Timeline>) {
    |timelines| > 0 && timelines[|timelines| - 1] == Running
  }

  /** The timelines with the running one, if any, killed: what `timeline.current.kill()` leaves. */
  function KillLast(timelines: seq<Timeline>): (r: seq<Timeline>)
    requires AtMostLastRunning(timelines)
    ensures |r| == |timelines|
    ensures forall i :: 0 <= i < |r| ==> r[i] != Running
    ensures forall i :: 0 <= i < |r| && timelines[i] != Running ==> r[i] == timelines[i]
  {
    if LastRunning(timelines) then timelines[|timelines| - 1 := Killed] else timelines
  }

  /** `useCameraStore`. */
  class CameraStore {
    var currentSection: string
    var isTransitioning: bool

    constructor ()
      ensures currentSection == "home" && !isTransitioning
    {
      currentSection, isTransitioning := "home", false;
    }

    method SetSection(section: string)
      modifies this
      ensures currentSection == section && isTransitioning == old(isTransitioning)
    {
      currentSection := section;
    }

    method SetTransitioning(state: bool)
      modifies this
      ensures isTransitioning == state && currentSection == old(currentSection)
    {
      isTransitioning := state;
    }
  }

  /** The mounted `CameraController` together with the `transitionTo` of `useCameraTransition`. */
  class CameraController {
    const store: CameraStore
    const hasCallback: bool
    /** Every timeline the effect has created, oldest first. */
    var timelines: seq<Timeline>
    /** How many times `onTransitionComplete` has been called. */
    var completions: nat
    /** Where the latest timeline moves the camera. */
    var targets: Pose

    /**
     * The current section is a table entry, at most the latest timeline runs, the store is
     * transitioning exactly while it runs, and the camera is headed for the current section.
     */
    ghost predicate Valid()
      reads this, store
    {
      && store.currentSection in CameraPositions
      && AtMostLastRunning(timelines)
      && (store.isTransitioning <==> LastRunning(timelines))
      && targets == CameraPositions[store.currentSection]
    }

    /** Mounting runs the effect once for the section the store is at. */
    constructor (store: CameraStore, hasCallback: bool)
      requires store.currentSection in CameraPositions
      modifies store
      ensures this.store == store && this.hasCallback == hasCallback
      ensures Valid()
      ensures timelines == [Running] && completions == 0
      ensures store.isTransitioning && store.currentSection == old(store.currentSection)
    {
      this.store := store;
      this.hasCallback := hasCallback;
      timelines := [Running];
      completions := 0;
      targets := CameraPositions[store.currentSection];
      new;
      store.SetTransitioning(true);
    }

    /**
     * The effect, run when `currentSection` changes: kills the running timeline, marks the store
     * transitioning and starts a timeline towards the section's table entry.
     */
    method RunEffect()
      requires store.currentSection in CameraPositions && AtMostLastRunning(timelines)
      modifies this, store
      ensures Valid()
      ensures timelines == KillLast(old(timelines)) + [Running]
      ensures store.isTransitioning && store.currentSection == old(store.currentSection)
      ensures targets == CameraPositions[store.currentSection]
      ensures completions == old(completions)
    {
      timelines := KillLast(timelines);
      store.SetTransitioning(true);
      targets := CameraPositions[store.currentSection];
      timelines := timelines + [Running];
    }

    /** The running timeline finishes: the store stops transitioning and the callback, if given, runs once. */
    method Complete()
      requires Valid() && store.isTransitioning
      modifies this, store
      ensures Valid()
      ensures !store.isTransitioning && store.currentSection == old(store.currentSection)
      ensures timelines == old(timelines)[|old(timelines)| - 1 := Completed]
      ensures completions == old(completions) + (if hasCallback then 1 else 0)
      ensures targets == old(targets)
    {
      timelines := timelines[|timelines| - 1 := Completed];
      store.SetTransitioning(false);
      if hasCallback {
        completions := completions + 1;
      }
    }

    /**
     * A completion as App.js wires it: the callback is an inline arrow that calls
     * `setIsLoading(false)`. While the app is still loading, that re-renders the app, the
     * callback gets a new identity and the effect, which lists it as a dependency, runs again
     * towards the same section; once loading is over React skips the re-render.
     */
    method CompleteInApp(isLoading: bool) returns (stillLoading: bool)
      requires Valid() && store.isTransitioning && hasCallback
      modifies this, store
      ensures Valid() && !stillLoading
      ensures store.currentSection == old(store.currentSection) && targets == old(targets)
      ensures completions == old(completions) + 1
      ensures isLoading ==> store.isTransitioning && timelines == old(timelines)[|old(timelines)| - 1 := Completed] + [Running]
      ensures !isLoading ==> !store.isTransitioning && timelines == old(timelines)[|old(timelines)| - 1 := Completed]
    {
      Complete();
      stillLoading := false;
      if isLoading {
        RunEffect();
      }
    }

    /** The effect's cleanup on unmount: kills the running timeline; the store is left as it is. */
    method Unmount()
      requires AtMostLastRunning(timelines)
      modifies this
      ensures timelines == KillLast(old(timelines))
      ensures completions == old(completions) && targets == old(targets)
    {
      timelines := KillLast(timelines);
    }

    /**
     * `transitionTo(section)`: while no transition runs and the section is in the table, the
     * store moves to it, and a move to a different section re-runs the effect; otherwise nothing
     * changes.
     */
    method TransitionTo(section: string)
      requires Valid()
      modifies this, store
      ensures Valid()
      ensures old(store.isTransitioning) || section !in CameraPositions || section == old(store.currentSection) ==>
        && store.currentSection == old(store.currentSection) && store.isTransitioning == old(store.isTransitioning)
        && timelines == old(timelines) && targets == old(targets)
      ensures !old(store.isTransitioning) && section in CameraPositions && section != old(store.currentSection) ==>
        && store.currentSection == section && store.isTransitioning
        && timelines == old(timelines) + [Running] && targets == CameraPositions[section]
      ensures completions == old(completions)
    {
      if !store.isTransitioning && section in CameraPositions {
        var previous := store.currentSection;
        store.SetSection(section);
        if section != previous {
          RunEffect();
        }
      }
    }
  }
}
