/**
 * The section navigator of src/components/ui/Navigation3D.jsx: a fixed table of five sections,
 * an `activeSection` state, and `handleSectionChange`, which looks the id up, tweens the camera
 * towards the section and marks it active. Each section's point and dot are lit exactly when
 * its id is the active one.
 */
module Navigation {
  import opened Wrappers

  datatype Vec = Vec(x: int, y: int, z: int)

  datatype Section = Section(id: string, caption: string, position: Vec)

  /** `sections`. */
  const Sections: seq<Section> := [
    Section("home", "Home", Vec(5, 4, 0)),
    Section("about", "About", Vec(5, 2, 0)),
    Section("events", "Events", Vec(5, 0, 0)),
    Section("gallery", "Gallery", Vec(5, -2, 0)),
    Section("contact", "Contact", Vec(5, -4, 0))]

  predicate HasId(sections: seq<Section>, id: string) {
    exists i :: 0 <= i < |sections| && sections[i].id == id
  }

  predicate DistinctIds(sections: seq<Section>) {
    forall i, j :: 0 <= i < j < |sections| ==> sections[i].id != sections[j].id
  }

  /** The table: five sections in a column at x = 5, two units apart from y = 4 down to y = -4, ids all different. */
  lemma SectionTable()
    ensures |Sections| == 5 && DistinctIds(Sections)
    ensures forall i :: 0 <= i < |Sections| ==> Sections[i].position == Vec(5, 4 - 2 * i, 0)
  {
  }

  /** `sections.find(s => s.id === id)`: the first section with that id, if any. */
  function Find(sections: seq<Section>, id: string): (r: Option<Section>)
    ensures r.None? <==> !HasId(sections, id)
    ensures r.Some? ==> r.value.id == id && r.value in sections
    ensures r.Some? ==> exists i :: 0 <= i < |sections| && sections[i] == r.value && forall j :: 0 <= j < i ==> sections[j].id != id
  {
    if sections == [] then None
    else if sections[0].id == id then Some(sections[0])
    else
      var r := Find(sections[1..], id);
      assert forall i :: 1 <= i < |sections| ==> sections[i] == sections[1..][i - 1];
      if r.Some? then
        var k :| 0 <= k < |sections[1..]| && sections[1..][k] == r.value && forall j :: 0 <= j < k ==> sections[1..][j].id != id;
        assert sections[k + 1] == r.value;
        r
      else
        r
  }

  /** Where the camera is sent for a section: five units left of its point, level with it, eight units out. */
  function CameraTarget(s: Section): (v: Vec)
    ensures v.x == s.position.x - 5 && v.y == s.position.y && v.z == 8
  {
    Vec(s.position.x - 5, s.position.y, 8)
  }

  /** Every table section sends the camera to x = 0 at its own height. */
  lemma TargetsOnTheAxis(i: nat)
    requires i < |Sections|
    ensures CameraTarget(Sections[i]) == Vec(0, 4 - 2 * i, 8)
  {
    SectionTable();
  }

  /** How many of the sections are lit for `active`: those whose id equals it. */
  function ActiveCount(sections: seq<Section>, active: string): nat {
    if sections == [] then 0
    else (if sections[0].id == active then 1 else 0) + ActiveCount(sections[1..], active)
  }

  /** With distinct ids, an id from the table lights exactly one point (and one dot). */
  lemma {:induction false} ExactlyOneActive(sections: seq<Section>, active: string)
    requires DistinctIds(sections) && HasId(sections, active)
    ensures ActiveCount(sections, active) == 1
  {
    var tail := sections[1..];
    assert DistinctIds(tail) by {
      forall i, j | 0 <= i < j < |tail| ensures tail[i].id != tail[j].id {
        assert tail[i] == sections[i + 1] && tail[j] == sections[j + 1];
      }
    }
    if sections[0].id == active {
      NoneActive(tail, active);
    } else {
      var k :| 0 <= k < |sections| && sections[k].id == active;
      assert tail[k - 1].id == active;
      ExactlyOneActive(tail, active);
    }
  }

  lemma {:induction false} NoneActive(sections: seq<Section>, active: string)
    requires !HasId(sections, active)
    ensures ActiveCount(sections, active) == 0
  {
    if sections != [] {
      assert sections[0].id != active;
      assert !HasId(sections[1..], active) by {
        forall i | 0 <= i < |sections[1..]| ensures sections[1..][i].id != active {
          assert sections[1..][i] == sections[i + 1];
        }
      }
      NoneActive(sections[1..], active);
    }
  }

  class NavigationView {
    var activeSection: string
    /** The camera position of the latest tween, if one was started. */
    var cameraTarget: Option<Vec>

    /** The active section is always a table id, so exactly one point is lit. */
    ghost predicate Valid()
      reads this
    {
      HasId(Sections, activeSection)
    }

    constructor ()
      ensures Valid() && activeSection == "home" && cameraTarget == None
    {
      activeSection, cameraTarget := "home", None;
      new;
      assert Sections[0].id == "home";
    }

    /** A known id tweens the camera towards its section and becomes active; an unknown one changes nothing. */
    method HandleSectionChange(id: string)
      requires Valid()
      modifies this
      ensures Valid()
      ensures !HasId(Sections, id) ==> activeSection == old(activeSection) && cameraTarget == old(cameraTarget)
      ensures HasId(Sections, id) ==>
        activeSection == id && cameraTarget == Some(CameraTarget(Find(Sections, id).value))
      ensures ActiveCount(Sections, activeSection) == 1
    {
      var section := Find(Sections, id);
      if section.Some? {
        cameraTarget := Some(CameraTarget(section.value));
        activeSection := id;
      }
      SectionTable();
      ExactlyOneActive(Sections, activeSection);
    }
  }
}
