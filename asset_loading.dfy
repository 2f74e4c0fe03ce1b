/**
 * What the two asset loaders share: manifest entries, the abstract outcome of one loader call,
 * and counting over a sequence of outcomes.
 */
module AssetLoading {
  import opened Wrappers

  /** An opaque handle on a loaded texture, model, font or sound. */
  type Asset = nat

  /** The error a loader rejects with. */
  type Error = string

  /** One manifest entry: the asset's key and the file it is loaded from. */
  datatype Entry = Entry(key: string, url: string)

  /** The abstract result of one loader call: the loaded resource, or the error it rejected with. */
  datatype LoadOutcome = Loaded(asset: Asset) | Failed(error: Error)

  /** The keys of a manifest, which an object literal keeps distinct. */
  function KeysOf(entries: seq<Entry>): set<string> {
    set e | e in entries :: e.key
  }

  predicate DistinctKeys(entries: seq<Entry>) {
    forall i, j :: 0 <= i < j < |entries| ==> entries[i].key != entries[j].key
  }

  predicate AllLoaded(outcomes: seq<LoadOutcome>) {
    forall o | o in outcomes :: o.Loaded?
  }

  /** The number of loader calls that succeeded. */
  function Successes(outcomes: seq<LoadOutcome>): (n: nat)
    ensures n <= |outcomes|
    ensures n == |outcomes| <==> AllLoaded(outcomes)
  {
    if outcomes == [] then 0
    else
      var init, last := outcomes[..|outcomes| - 1], outcomes[|outcomes| - 1];
      assert outcomes == init + [last];
      Successes(init) + (if last.Loaded? then 1 else 0)
  }

  /** The error of the first failed call, in the order given. */
  function FirstFailure(outcomes: seq<LoadOutcome>): (r: Option<Error>)
    ensures r.None? <==> AllLoaded(outcomes)
    ensures r.Some? ==> Failed(r.value) in outcomes
  {
    if outcomes == [] then None
    else if outcomes[0].Failed? then
      assert outcomes[0] in outcomes;
      Some(outcomes[0].error)
    else
      assert forall o | o in outcomes[1..] :: o in outcomes;
      assert AllLoaded(outcomes[1..]) ==> AllLoaded(outcomes) by {
        if AllLoaded(outcomes[1..]) {
          forall o | o in outcomes ensures o.Loaded? {
            var k :| 0 <= k < |outcomes| && outcomes[k] == o;
            if k > 0 { assert outcomes[1..][k - 1] == o; }
          }
        }
      }
      FirstFailure(outcomes[1..])
  }

  /** Extending the outcomes by one call: a success adds one to the count. */
  lemma SuccessesSnoc(outcomes: seq<LoadOutcome>, o: LoadOutcome)
    ensures Successes(outcomes + [o]) == Successes(outcomes) + (if o.Loaded? then 1 else 0)
  {
    assert (outcomes + [o])[..|outcomes|] == outcomes;
  }

  /** Extending the outcomes by one call keeps an earlier failure, or records this one. */
  lemma {:induction false} FirstFailureSnoc(outcomes: seq<LoadOutcome>, o: LoadOutcome)
    ensures FirstFailure(outcomes + [o]) ==
      if FirstFailure(outcomes).Some? then FirstFailure(outcomes)
      else if o.Failed? then Some(o.error) else None
    decreases |outcomes|
  {
    if outcomes != [] {
      assert (outcomes + [o])[1..] == outcomes[1..] + [o];
      FirstFailureSnoc(outcomes[1..], o);
    }
  }

  /** `Object.fromEntries` over a manifest whose every load succeeded: key to loaded resource. */
  function Table(entries: seq<Entry>, outcomes: seq<LoadOutcome>): (t: map<string, Asset>)
    requires |entries| == |outcomes| && AllLoaded(outcomes)
    ensures t.Keys == KeysOf(entries)
  {
    if entries == [] then map[]
    else
      var n := |entries| - 1;
      assert outcomes[n] in outcomes;
      assert entries == entries[..n] + [entries[n]];
      Table(entries[..n], outcomes[..n])[entries[n].key := outcomes[n].asset]
  }

  /** Each manifest key maps to the resource its own load produced. */
  lemma {:induction false} TableAt(entries: seq<Entry>, outcomes: seq<LoadOutcome>, i: nat)
    requires |entries| == |outcomes| && AllLoaded(outcomes) && DistinctKeys(entries)
    requires i < |entries|
    ensures entries[i].key in Table(entries, outcomes)
    ensures Table(entries, outcomes)[entries[i].key] == outcomes[i].asset
    decreases |entries|
  {
    var n := |entries| - 1;
    if i < n {
      TableAt(entries[..n], outcomes[..n], i);
    }
  }

  lemma TableSnoc(entries: seq<Entry>, outcomes: seq<LoadOutcome>, e: Entry, a: Asset)
    requires |entries| == |outcomes| && AllLoaded(outcomes)
    ensures AllLoaded(outcomes + [Loaded(a)])
    ensures Table(entries + [e], outcomes + [Loaded(a)]) == Table(entries, outcomes)[e.key := a]
  {
    assert (entries + [e])[..|entries|] == entries;
    assert (outcomes + [Loaded(a)])[..|outcomes|] == outcomes;
  }

  /** The percentage published once `loaded` of `total` items have completed: `loaded / total * 100`. */
  function ProgressOf(loaded: nat, total: nat): (p: real)
    requires total > 0
    ensures p >= 0.0 && p * total as real == loaded as real * 100.0
  {
    loaded as real / total as real * 100.0
  }

  /** Scaling by a positive factor keeps the sign. */
  lemma ScalingKeepsSign(x: real, t: real)
    requires t > 0.0
    ensures x >= 0.0 <==> x * t >= 0.0
    ensures x == 0.0 <==> x * t == 0.0
  {
    if x > 0.0 {
      assert x * t > 0.0;
    } else if x < 0.0 {
      assert (-x) * t > 0.0;
    }
  }

  lemma SelfQuotient(t: real)
    requires t > 0.0
    ensures t / t == 1.0
  {
    var one := t / t;
    assert one * t == t;
    assert (one - 1.0) * t == 0.0;
    ScalingKeepsSign(one - 1.0, t);
  }

  /** Dividing by a positive total keeps the order of the numerators. */
  lemma DivideKeepsOrder(a: real, b: real, t: real)
    requires t > 0.0
    ensures a <= b <==> a / t <= b / t
    ensures a == b <==> a / t == b / t
  {
    var qa, qb := a / t, b / t;
    assert qa * t == a && qb * t == b;
    assert (qb - qa) * t == b - a;
    ScalingKeepsSign(qb - qa, t);
  }

  /** Progress grows with every completed item, is 100 exactly when all items are in, and never exceeds 100 before then. */
  lemma ProgressBounds(k: nat, l: nat, total: nat)
    requires total > 0
    ensures k <= l ==> ProgressOf(k, total) <= ProgressOf(l, total)
    ensures ProgressOf(k, total) == 100.0 <==> k == total
    ensures ProgressOf(k, total) <= 100.0 <==> k <= total
    ensures ProgressOf(0, total) == 0.0
  {
    var t := total as real;
    var qk, ql := k as real / t, l as real / t;
    DivideKeepsOrder(k as real, l as real, t);
    DivideKeepsOrder(k as real, t, t);
    SelfQuotient(t);
    assert ProgressOf(k, total) == qk * 100.0 && ProgressOf(l, total) == ql * 100.0;
  }
}
