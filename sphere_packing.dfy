/** The loop structure of generateSpherePacking: `count` particles are placed,
    then 100 relaxation passes update them in place, particle by particle.
    The random placement and the force/clamp arithmetic are parameters: `place(i)`
    is the initial position of particle i, and `update(s, i)` is the new position
    of particle i when the current positions are s. */
module SpherePacking {
  import opened Geometry

  /** Number of relaxation passes. */
  const PackingIterations: nat := 100

  /** How often `for (let i = 0; i < count; i++)` runs: the least natural
      number not below `count` (0 for a count of 0 or less). */
  function PlacementCount(count: real): (n: nat)
    ensures count <= n as real
    ensures n == 0 || (n - 1) as real < count
  {
    if count <= 0.0 then 0 else -((-count).Floor)
  }

  /** The positions after the placement loop, in push order. */
  function InitialPlacement(n: nat, place: nat -> Vec3): (s: seq<Vec3>)
    ensures |s| == n
  {
    seq(n, i requires 0 <= i => place(i))
  }

  /** The positions after particles 0 .. i-1 of one pass have been updated, in
      that order, each update seeing the positions as they are at that moment. */
  function SweepPrefix(s: seq<Vec3>, i: nat, update: (seq<Vec3>, nat) -> Vec3): (t: seq<Vec3>)
    requires i <= |s|
    ensures |t| == |s|
    decreases i
  {
    if i == 0 then s
    else
      var u := SweepPrefix(s, i - 1, update);
      u[i - 1 := update(u, i - 1)]
  }

  /** One relaxation pass over all particles. */
  function Sweep(s: seq<Vec3>, update: (seq<Vec3>, nat) -> Vec3): seq<Vec3> {
    SweepPrefix(s, |s|, update)
  }

  /** The positions after `passes` relaxation passes. */
  function Relaxed(s: seq<Vec3>, passes: nat, update: (seq<Vec3>, nat) -> Vec3): (r: seq<Vec3>)
    ensures |r| == |s|
    decreases passes
  {
    if passes == 0 then s else Sweep(Relaxed(s, passes - 1, update), update)
  }

  /** generateSpherePacking: the placement loop pushes one position per particle,
      then the nested loops overwrite spheres[i] in place. */
  method GenerateSpherePacking(count: real, place: nat -> Vec3, update: (seq<Vec3>, nat) -> Vec3)
    returns (spheres: seq<Vec3>)
    ensures |spheres| == PlacementCount(count)
    ensures spheres == Relaxed(InitialPlacement(PlacementCount(count), place), PackingIterations, update)
  {
    var initial: seq<Vec3> := [];
    var i: nat := 0;
    while (i as real) < count
      invariant i <= PlacementCount(count)
      invariant i == 0 || (i - 1) as real < count
      invariant initial == InitialPlacement(i, place)
      decreases PlacementCount(count) - i
    {
      initial := initial + [place(i)];
      i := i + 1;
    }
    var a := new Vec3[|initial|](k requires 0 <= k < |initial| => initial[k]);
    assert a[..] == initial;
    for iter := 0 to PackingIterations
      invariant a[..] == Relaxed(initial, iter, update)
    {
      ghost var before := a[..];
      for j := 0 to a.Length
        invariant a[..] == SweepPrefix(before, j, update)
      {
        a[j] := update(a[..], j);
      }
    }
    spheres := a[..];
  }

  // ---------------------------------------------------------------------------
  // Cardinality and index stability

  /** A whole number of particles is placed exactly (none for a count of 0 or less). */
  lemma WholeCount(count: int)
    ensures PlacementCount(count as real) == if count > 0 then count else 0
  {
  }

  /** During a pass, the particles before i already hold their new positions and
      the others still hold the ones the pass started from. */
  lemma {:induction false} SweepPrefixFrame(s: seq<Vec3>, i: nat, update: (seq<Vec3>, nat) -> Vec3, k: nat)
    requires i <= |s| && k < |s|
    ensures SweepPrefix(s, i, update)[k] == if k < i then SweepPrefix(s, k + 1, update)[k] else s[k]
    decreases i
  {
    if i > 0 && k != i - 1 {
      SweepPrefixFrame(s, i - 1, update, k);
    }
  }

  /** A pass updates in place: the new position of particle i is the update
      applied to the new positions of particles 0 .. i-1 followed by the old
      positions of particles i onward. */
  lemma SweepInPlace(s: seq<Vec3>, update: (seq<Vec3>, nat) -> Vec3, i: nat)
    requires i < |s|
    ensures Sweep(s, update)[i] == update(Sweep(s, update)[..i] + s[i..], i)
  {
    var done := Sweep(s, update);
    var mid := SweepPrefix(s, i, update);
    forall k | 0 <= k < |s|
      ensures mid[k] == (done[..i] + s[i..])[k]
    {
      SweepPrefixFrame(s, i, update, k);
      SweepPrefixFrame(s, |s|, update, k);
    }
    assert mid == done[..i] + s[i..];
    SweepPrefixFrame(s, |s|, update, i);
  }

  /** `f` applied `p` times. */
  function Iterate(f: Vec3 -> Vec3, x: Vec3, p: nat): Vec3
    decreases p
  {
    if p == 0 then x else f(Iterate(f, x, p - 1))
  }

  /** No pass reorders, adds or drops a particle: when each particle's update
      depends on its own position only, position k of the result is the initial
      position k moved `passes` times. */
  lemma {:induction false} RelaxedPointwise(s: seq<Vec3>, passes: nat, update: (seq<Vec3>, nat) -> Vec3,
                                            f: Vec3 -> Vec3, k: nat)
    requires forall t: seq<Vec3>, j: nat :: j < |t| ==> update(t, j) == f(t[j])
    requires k < |s|
    ensures Relaxed(s, passes, update)[k] == Iterate(f, s[k], passes)
    decreases passes
  {
    if passes > 0 {
      var prev := Relaxed(s, passes - 1, update);
      RelaxedPointwise(s, passes - 1, update, f, k);
      SweepInPlace(prev, update, k);
      assert (Sweep(prev, update)[..k] + prev[k..])[k] == prev[k];
    }
  }
}
