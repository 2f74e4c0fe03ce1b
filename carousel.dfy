/**
 * The events carousel of src/components/controllers/sections/EventsSection.js: an `activeIndex`
 * stepped modulo the number of events by the arrows, and a rotation speed that each arrow kicks
 * and each frame damps by 0.95 after adding it to the group's rotation.
 */
module Carousel {

  /** `(i + 1) % n`. */
  function Next(i: nat, n: nat): (r: nat)
    requires n > 0
    ensures r < n
    ensures i < n - 1 ==> r == i + 1
    ensures i == n - 1 ==> r == 0
  {
    (i + 1) % n
  }

  /** `(i - 1 + n) % n`; both operands are non-negative here, so JavaScript's `%` agrees with this one. */
  function Prev(i: nat, n: nat): (r: nat)
    requires n > 0 && i < n
    ensures r < n
    ensures i > 0 ==> r == i - 1
    ensures i == 0 ==> r == n - 1
  {
    (i - 1 + n) % n
  }

  /** Prev undoes Next and Next undoes Prev on every index in range. */
  lemma NextPrevRoundTrip(i: nat, n: nat)
    requires n > 0 && i < n
    ensures Prev(Next(i, n), n) == i
    ensures Next(Prev(i, n), n) == i
  {
  }

  /** The index after `k` presses of the next arrow. */
  function NextTimes(i: nat, n: nat, k: nat): (r: nat)
    requires n > 0
    ensures r < n
  {
    if k == 0 then i % n else Next(NextTimes(i, n, k - 1), n)
  }

  /** `k` nexts advance the index by `k` modulo the count. */
  lemma {:induction false} NextTimesAdvances(i: nat, n: nat, k: nat)
    requires n > 0
    ensures NextTimes(i, n, k) == (i + k) % n
  {
    if k > 0 {
      NextTimesAdvances(i, n, k - 1);
      ModSucc(i + k - 1, n);
    }
  }

  lemma ModSucc(a: nat, n: nat)
    requires n > 0
    ensures (a % n + 1) % n == (a + 1) % n
  {
    var q := a / n;
    if a % n + 1 == n {
      ModUnique(a + 1, n, q + 1, 0);
      ModUnique(a % n + 1, n, 1, 0);
    } else {
      ModUnique(a + 1, n, q, a % n + 1);
      ModUnique(a % n + 1, n, 0, a % n + 1);
    }
  }

  /** Euclidean division has one answer: a quotient and remainder in range are the ones `/` and `%` give. */
  lemma ModUnique(a: int, n: int, q: int, r: int)
    requires n > 0 && 0 <= r < n && a == q * n + r
    ensures a % n == r
  {
    var d := q - a / n;
    assert d * n == a % n - r;
    if d >= 1 {
      MulAtLeast(d, n);
      assert false;
    } else if d <= -1 {
      MulAtLeast(-d, n);
      assert false;
    }
  }

  lemma MulAtLeast(d: int, n: int)
    requires d >= 1 && n > 0
    ensures d * n >= n
  {
    assert d * n == (d - 1) * n + n;
  }

  /** Pressing next once per event brings the carousel back to where it started. */
  lemma FullTurn(i: nat, n: nat)
    requires n > 0 && i < n
    ensures NextTimes(i, n, n) == i
  {
    NextTimesAdvances(i, n, n);
    ModUnique(i + n, n, 1, i);
  }

  /** The rotation speed after `k` frames of damping. */
  function Damped(speed: real, k: nat): (s: real)
    ensures speed > 0.0 ==> 0.0 < s <= speed
    ensures speed < 0.0 ==> speed <= s < 0.0
    ensures speed == 0.0 ==> s == 0.0
  {
    if k == 0 then speed else Damped(speed, k - 1) * 0.95
  }

  /** Damping never grows the speed's magnitude across any number of further frames. */
  lemma {:induction false} DampingNeverGrows(speed: real, k: nat, l: nat)
    requires k <= l
    ensures speed >= 0.0 ==> Damped(speed, l) <= Damped(speed, k)
    ensures speed <= 0.0 ==> Damped(speed, k) <= Damped(speed, l)
  {
    if k < l {
      DampingNeverGrows(speed, k, l - 1);
    }
  }

  class EventsCarousel {
    const count: nat
    var activeIndex: nat
    var rotationSpeed: real
    var rotation: real

    ghost predicate Valid()
      reads this
    {
      count > 0 && activeIndex < count
    }

    constructor (count: nat)
      requires count > 0
      ensures this.count == count && Valid()
      ensures activeIndex == 0 && rotationSpeed == 0.0 && rotation == 0.0
    {
      this.count := count;
      activeIndex, rotationSpeed, rotation := 0, 0.0, 0.0;
    }

    /** One frame: the rotation advances by the speed, then the speed is damped. */
    method Frame()
      modifies this
      ensures rotation == old(rotation) + old(rotationSpeed)
      ensures rotationSpeed == old(rotationSpeed) * 0.95
      ensures activeIndex == old(activeIndex)
    {
      rotation := rotation + rotationSpeed;
      rotationSpeed := rotationSpeed * 0.95;
    }

    method HandleNext()
      requires Valid()
      modifies this
      ensures Valid()
      ensures activeIndex == Next(old(activeIndex), count)
      ensures rotationSpeed == -0.1 && rotation == old(rotation)
    {
      rotationSpeed := -0.1;
      activeIndex := (activeIndex + 1) % count;
    }

    method HandlePrev()
      requires Valid()
      modifies this
      ensures Valid()
      ensures activeIndex == Prev(old(activeIndex), count)
      ensures rotationSpeed == 0.1 && rotation == old(rotation)
    {
      rotationSpeed := 0.1;
      activeIndex := (activeIndex - 1 + count) % count;
    }
  }
}
