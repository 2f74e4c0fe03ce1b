/**
 * The side panel of src/components/ui/CyberpunkInterface.jsx: three statistics that an interval
 * ticks up towards fixed caps (students by 5 up to 500, startups by 1 up to 20, events by 1 up
 * to 50), and the menu's `activeSection`.
 */
module CyberpunkInterface {

  datatype Stats = Stats(students: int, startups: int, events: int)

  const Start: Stats := Stats(0, 0, 0)

  /** Every counter sits at or above its cap. */
  predicate AtCaps(s: Stats) {
    s.students >= 500 && s.startups >= 20 && s.events >= 50
  }

  /** Counters within their caps, the student count on the interval's step of 5. */
  predicate WithinCaps(s: Stats) {
    && 0 <= s.students <= 500 && s.students % 5 == 0
    && 0 <= s.startups <= 20
    && 0 <= s.events <= 50
  }

  /** One interval tick: each counter below its cap grows by its step, the others stay. */
  function Tick(s: Stats): (r: Stats)
    ensures s.students <= r.students <= s.students + 5
    ensures s.startups <= r.startups <= s.startups + 1
    ensures s.events <= r.events <= s.events + 1
    ensures r == s <==> AtCaps(s)
    ensures WithinCaps(s) ==> WithinCaps(r)
  {
    Stats(
      if s.students < 500 then s.students + 5 else s.students,
      if s.startups < 20 then s.startups + 1 else s.startups,
      if s.events < 50 then s.events + 1 else s.events)
  }

  /** The statistics after `k` ticks. */
  function Ticks(s: Stats, k: nat): Stats {
    if k == 0 then s else Tick(Ticks(s, k - 1))
  }

  function Min(a: int, b: int): int {
    if a <= b then a else b
  }

  /** From the start, `k` ticks give each counter `k` steps, stopped at its cap. */
  lemma {:induction false} TicksFromStart(k: nat)
    ensures Ticks(Start, k) == Stats(Min(5 * k, 500), Min(k, 20), Min(k, 50))
  {
    if k > 0 {
      TicksFromStart(k - 1);
    }
  }

  /** From the start no counter ever decreases or passes its cap. */
  lemma {:induction false} TicksStayWithinCaps(k: nat)
    ensures WithinCaps(Ticks(Start, k))
    ensures k > 0 ==> Ticks(Start, k - 1).students <= Ticks(Start, k).students
    ensures k > 0 ==> Ticks(Start, k - 1).startups <= Ticks(Start, k).startups
    ensures k > 0 ==> Ticks(Start, k - 1).events <= Ticks(Start, k).events
  {
    if k > 0 {
      TicksStayWithinCaps(k - 1);
    }
  }

  /** After 100 ticks every counter is at its cap, and from then on a tick changes nothing. */
  lemma CapsAfterHundredTicks(k: nat)
    requires k >= 100
    ensures Ticks(Start, k) == Stats(500, 20, 50)
    ensures Tick(Ticks(Start, k)) == Ticks(Start, k)
  {
    TicksFromStart(k);
  }

  /** The menu's section ids, in order. */
  const MenuItems: seq<string> := ["about", "events", "team", "contact"]

  class InterfacePanel {
    var stats: Stats
    var activeSection: string
    var intervalRunning: bool

    /** Mounting shows the about section with zeroed statistics and starts the interval. */
    constructor ()
      ensures stats == Start && activeSection == "about" && intervalRunning
    {
      stats, activeSection, intervalRunning := Start, "about", true;
    }

    /** One firing of the 50 ms interval. */
    method IntervalTick()
      requires intervalRunning
      modifies this
      ensures stats == Tick(old(stats))
      ensures activeSection == old(activeSection) && intervalRunning
    {
      stats := Tick(stats);
    }

    /** Clicking the menu item at `index` shows that section. */
    method SelectMenuItem(index: nat)
      requires index < |MenuItems|
      modifies this
      ensures activeSection == MenuItems[index]
      ensures stats == old(stats) && intervalRunning == old(intervalRunning)
    {
      activeSection := MenuItems[index];
    }

    /** Unmounting clears the interval. */
    method Unmount()
      modifies this
      ensures !intervalRunning
      ensures stats == old(stats) && activeSection == old(activeSection)
    {
      intervalRunning := false;
    }

    /** The about text renders only for the about section. */
    predicate ShowsAbout()
      reads this
    {
      activeSection == "about"
    }
  }

  /** Only the first menu item shows the about text. */
  lemma OnlyAboutItemShowsAbout(index: nat)
    requires index < |MenuItems|
    ensures MenuItems[index] == "about" <==> index == 0
  {
  }
}
