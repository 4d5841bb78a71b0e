/** The electron shell allocator of the atom layout (createElectronOrbits).
    Starting at level 1, shell n receives min(remaining, 2n²) electrons, one orbit
    descriptor per electron, each with radius baseRadius·2n, until no electron is
    left. The ellipse curve and the random rotation of a descriptor are payload
    this model does not carry: a descriptor is its shell level and radius. */
module ElectronShells {

  /** One electron's orbit: the shell it belongs to and the radius of its circle. */
  datatype Orbit = Orbit(level: nat, radius: real)

  /** Capacity of shell n: 2·n². */
  function Capacity(n: nat): nat {
    2 * n * n
  }

  function Min(a: int, b: int): int {
    if a < b then a else b
  }

  /** Radius given to every orbit of shell n: baseRadius·(n·2). */
  function Radius(baseRadius: real, n: nat): real {
    baseRadius * (n * 2) as real
  }

  /** Sum of a sequence of shell fills. */
  function Total(fills: seq<nat>): nat {
    if fills == [] then 0 else fills[0] + Total(fills[1..])
  }

  /** Summed capacity of the k shells starting at level n. */
  function CumulativeCapacity(n: nat, k: nat): nat
    decreases k
  {
    if k == 0 then 0 else Capacity(n) + CumulativeCapacity(n + 1, k - 1)
  }

  /** The number of electrons each shell receives when `remaining` electrons are
      distributed from level n upward: the allocator's loop, one shell per step. */
  function FillsFrom(remaining: int, n: nat): (fills: seq<nat>)
    requires n >= 1
    ensures Total(fills) == if remaining > 0 then remaining else 0
    decreases if remaining > 0 then remaining else 0
  {
    if remaining <= 0 then []
    else
      assert Capacity(n) >= 1 by { assert n * n >= n; }
      var take := Min(remaining, Capacity(n));
      [take] + FillsFrom(remaining - take, n + 1)
  }

  /** Shell fills for an electron count, starting at level 1. */
  function ShellFills(electronCount: int): seq<nat> {
    FillsFrom(electronCount, 1)
  }

  /** The `count` identical descriptors of one shell. */
  function Shell(n: nat, baseRadius: real, count: nat): seq<Orbit> {
    seq(count, _ => Orbit(n, Radius(baseRadius, n)))
  }

  /** Orbit descriptors for the given fills, the first fill being shell n. */
  function ShellsFrom(fills: seq<nat>, n: nat, baseRadius: real): seq<Orbit> {
    if fills == [] then []
    else Shell(n, baseRadius, fills[0]) + ShellsFrom(fills[1..], n + 1, baseRadius)
  }

  /** The descriptors produced for `remaining` electrons from shell n upward. */
  function LayoutFrom(remaining: int, n: nat, baseRadius: real): seq<Orbit>
    requires n >= 1
  {
    ShellsFrom(FillsFrom(remaining, n), n, baseRadius)
  }

  /** The descriptors createElectronOrbits returns for an electron count. */
  function OrbitLayout(electronCount: int, baseRadius: real): seq<Orbit> {
    LayoutFrom(electronCount, 1, baseRadius)
  }

  /** The allocator: a while loop over shells, an inner loop pushing one
      descriptor per electron of the shell. */
  method CreateElectronOrbits(electronCount: int, baseRadius: real) returns (orbits: seq<Orbit>)
    ensures orbits == OrbitLayout(electronCount, baseRadius)
    ensures |orbits| == if electronCount > 0 then electronCount else 0
  {
    orbits := [];
    var n: nat := 1;
    var remaining := electronCount;
    while remaining > 0
      invariant n >= 1
      invariant orbits + LayoutFrom(remaining, n, baseRadius) == OrbitLayout(electronCount, baseRadius)
      decreases remaining
    {
      var levelCapacity := 2 * n * n;
      var electronsInThisLevel := Min(remaining, levelCapacity);
      var orbitRadius := baseRadius * (n * 2) as real;
      ghost var before := orbits;
      for i := 0 to electronsInThisLevel
        invariant orbits == before + Shell(n, baseRadius, i)
      {
        orbits := orbits + [Orbit(n, orbitRadius)];
      }
      remaining := remaining - electronsInThisLevel;
      n := n + 1;
    }
    OrbitCount(electronCount, baseRadius);
  }

  // ---------------------------------------------------------------------------
  // Properties of the fills

  lemma {:induction false} ShellsLength(fills: seq<nat>, n: nat, baseRadius: real)
    ensures |ShellsFrom(fills, n, baseRadius)| == Total(fills)
    decreases |fills|
  {
    if fills != [] {
      ShellsLength(fills[1..], n + 1, baseRadius);
    }
  }

  /** createElectronOrbits returns exactly max(electronCount, 0) descriptors. */
  lemma OrbitCount(electronCount: int, baseRadius: real)
    ensures |OrbitLayout(electronCount, baseRadius)| == if electronCount > 0 then electronCount else 0
    ensures electronCount <= 0 ==> OrbitLayout(electronCount, baseRadius) == []
  {
    ShellsLength(ShellFills(electronCount), 1, baseRadius);
  }

  /** Every opened shell receives at least one electron and at most its capacity. */
  lemma {:induction false} FillsBounded(remaining: int, n: nat, k: nat)
    requires n >= 1
    requires k < |FillsFrom(remaining, n)|
    ensures 1 <= FillsFrom(remaining, n)[k] <= Capacity(n + k)
    decreases k
  {
    var fills := FillsFrom(remaining, n);
    assert Capacity(n) >= 1 by { assert n * n >= n; }
    if k > 0 {
      var take := fills[0];
      assert fills[1..] == FillsFrom(remaining - take, n + 1);
      FillsBounded(remaining - take, n + 1, k - 1);
    }
  }

  /** Shell n+k receives min(what is still left, capacity): the electrons left
      when shell n+k is reached are the input minus the earlier fills. */
  lemma {:induction false} FillIsMin(remaining: int, n: nat, k: nat)
    requires n >= 1
    requires k < |FillsFrom(remaining, n)|
    ensures FillsFrom(remaining, n)[k]
            == Min(remaining - Total(FillsFrom(remaining, n)[..k]), Capacity(n + k))
    decreases k
  {
    var fills := FillsFrom(remaining, n);
    if k == 0 {
      assert fills[..0] == [];
      assert fills[0] == Min(remaining, Capacity(n));
    } else {
      var take := fills[0];
      var rest := FillsFrom(remaining - take, n + 1);
      assert fills == [take] + rest;
      FillIsMin(remaining - take, n + 1, k - 1);
      var before := fills[..k];
      assert before == [take] + rest[..k - 1];
      assert before[1..] == rest[..k - 1];
      assert Total(before) == take + Total(rest[..k - 1]);
      assert fills[k] == rest[k - 1];
    }
  }

  /** Every shell but the last one is filled to its capacity. */
  lemma {:induction false} FullButLast(remaining: int, n: nat, k: nat)
    requires n >= 1
    requires k + 1 < |FillsFrom(remaining, n)|
    ensures FillsFrom(remaining, n)[k] == Capacity(n + k)
    decreases k
  {
    var fills := FillsFrom(remaining, n);
    var take := fills[0];
    var rest := FillsFrom(remaining - take, n + 1);
    assert fills[1..] == rest;
    if k == 0 {
      assert remaining - take > 0;
    } else {
      FullButLast(remaining - take, n + 1, k - 1);
    }
  }

  /** The number of shells opened is the least k whose cumulative capacity holds
      all the electrons: the allocator stops as soon as nothing remains, and
      never opens a shell it does not need. */
  lemma {:induction false} ShellCountIsLeast(remaining: int, n: nat)
    requires n >= 1
    ensures remaining <= 0 <==> |FillsFrom(remaining, n)| == 0
    ensures remaining > 0 ==>
              CumulativeCapacity(n, |FillsFrom(remaining, n)| - 1) < remaining
              <= CumulativeCapacity(n, |FillsFrom(remaining, n)|)
    decreases if remaining > 0 then remaining else 0
  {
    if remaining > 0 {
      var fills := FillsFrom(remaining, n);
      var take := fills[0];
      var rest := FillsFrom(remaining - take, n + 1);
      assert fills[1..] == rest;
      ShellCountIsLeast(remaining - take, n + 1);
      if remaining <= Capacity(n) {
        assert rest == [];
      } else {
        assert take == Capacity(n);
        assert CumulativeCapacity(n, |fills|) == Capacity(n) + CumulativeCapacity(n + 1, |rest|);
        assert CumulativeCapacity(n, |fills| - 1) == Capacity(n) + CumulativeCapacity(n + 1, |rest| - 1);
      }
    }
  }

  // ---------------------------------------------------------------------------
  // Properties of the descriptor sequence

  /** The output is the shells one after another: the descriptors at positions
      Total(fills[..k]) up to Total(fills[..k]) + fills[k] all belong to shell n+k
      and carry its radius. */
  lemma {:induction false} ShellBlock(fills: seq<nat>, n: nat, baseRadius: real, k: nat, j: nat)
    requires k < |fills|
    requires Total(fills[..k]) <= j < Total(fills[..k]) + fills[k]
    ensures j < |ShellsFrom(fills, n, baseRadius)|
    ensures ShellsFrom(fills, n, baseRadius)[j] == Orbit(n + k, Radius(baseRadius, n + k))
    decreases k
  {
    var head := Shell(n, baseRadius, fills[0]);
    var tail := ShellsFrom(fills[1..], n + 1, baseRadius);
    assert ShellsFrom(fills, n, baseRadius) == head + tail;
    if k == 0 {
      assert fills[..0] == [];
    } else {
      assert fills[..k][1..] == fills[1..][..k - 1];
      assert Total(fills[..k]) == fills[0] + Total(fills[1..][..k - 1]);
      ShellBlock(fills[1..], n + 1, baseRadius, k - 1, j - fills[0]);
    }
  }

  /** Descriptor j lies in an opened shell, carries that shell's radius, and the
      first descriptor belongs to the first shell. */
  lemma {:induction false} LevelInRange(remaining: int, n: nat, baseRadius: real, j: nat)
    requires n >= 1
    requires j < |LayoutFrom(remaining, n, baseRadius)|
    ensures n <= LayoutFrom(remaining, n, baseRadius)[j].level < n + |FillsFrom(remaining, n)|
    ensures LayoutFrom(remaining, n, baseRadius)[j].radius
            == Radius(baseRadius, LayoutFrom(remaining, n, baseRadius)[j].level)
    ensures j == 0 ==> LayoutFrom(remaining, n, baseRadius)[j].level == n
    decreases if remaining > 0 then remaining else 0
  {
    var fills := FillsFrom(remaining, n);
    var take := fills[0];
    assert fills[1..] == FillsFrom(remaining - take, n + 1);
    var head := Shell(n, baseRadius, take);
    var tail := LayoutFrom(remaining - take, n + 1, baseRadius);
    assert LayoutFrom(remaining, n, baseRadius) == head + tail;
    if j >= |head| {
      LevelInRange(remaining - take, n + 1, baseRadius, j - |head|);
    }
  }

  /** From one descriptor to the next the level stays or goes up by exactly one:
      no shell is skipped. */
  lemma {:induction false} LevelStep(remaining: int, n: nat, baseRadius: real, j: nat)
    requires n >= 1
    requires 0 < j < |LayoutFrom(remaining, n, baseRadius)|
    ensures LayoutFrom(remaining, n, baseRadius)[j].level == LayoutFrom(remaining, n, baseRadius)[j - 1].level
         || LayoutFrom(remaining, n, baseRadius)[j].level == LayoutFrom(remaining, n, baseRadius)[j - 1].level + 1
    decreases if remaining > 0 then remaining else 0
  {
    var fills := FillsFrom(remaining, n);
    var take := fills[0];
    assert fills[1..] == FillsFrom(remaining - take, n + 1);
    var head := Shell(n, baseRadius, take);
    var tail := LayoutFrom(remaining - take, n + 1, baseRadius);
    var os := head + tail;
    assert LayoutFrom(remaining, n, baseRadius) == os;
    if j == |head| {
      LevelInRange(remaining - take, n + 1, baseRadius, 0);
    } else if j > |head| {
      LevelStep(remaining - take, n + 1, baseRadius, j - |head|);
      assert os[j - 1] == tail[j - |head| - 1];
    }
  }

  /** Levels never decrease along the output. */
  lemma {:induction false} LevelsAscending(remaining: int, n: nat, baseRadius: real, i: nat, j: nat)
    requires n >= 1
    requires i <= j < |LayoutFrom(remaining, n, baseRadius)|
    ensures LayoutFrom(remaining, n, baseRadius)[i].level <= LayoutFrom(remaining, n, baseRadius)[j].level
    decreases j - i
  {
    if i < j {
      LevelStep(remaining, n, baseRadius, j);
      LevelsAscending(remaining, n, baseRadius, i, j - 1);
    }
  }

  /** For a non-negative base radius, radii never decrease along the output. */
  lemma RadiiAscending(electronCount: int, baseRadius: real, i: nat, j: nat)
    requires baseRadius >= 0.0
    requires i <= j < |OrbitLayout(electronCount, baseRadius)|
    ensures OrbitLayout(electronCount, baseRadius)[i].radius
            <= OrbitLayout(electronCount, baseRadius)[j].radius
  {
    var os := OrbitLayout(electronCount, baseRadius);
    LevelInRange(electronCount, 1, baseRadius, i);
    LevelInRange(electronCount, 1, baseRadius, j);
    LevelsAscending(electronCount, 1, baseRadius, i, j);
    var li, lj := os[i].level, os[j].level;
    assert (li * 2) as real <= (lj * 2) as real;
    assert baseRadius * (li * 2) as real <= baseRadius * (lj * 2) as real;
  }

  // ---------------------------------------------------------------------------
  // The sodium scenes

  /** Eleven electrons (neutral sodium): shells of 2, 8 and 1 at radii 2b, 4b, 6b. */
  lemma ElevenElectrons(baseRadius: real)
    ensures ShellFills(11) == [2, 8, 1]
    ensures OrbitLayout(11, baseRadius)
            == Shell(1, baseRadius, 2) + Shell(2, baseRadius, 8) + Shell(3, baseRadius, 1)
    ensures Radius(baseRadius, 1) == 2.0 * baseRadius
    ensures Radius(baseRadius, 2) == 4.0 * baseRadius
    ensures Radius(baseRadius, 3) == 6.0 * baseRadius
  {
    assert FillsFrom(0, 4) == [];
    assert FillsFrom(1, 3) == [1];
    assert FillsFrom(9, 2) == [8, 1];
    assert FillsFrom(11, 1) == [2, 8, 1];
    var b := baseRadius;
    assert ShellsFrom([], 4, b) == [];
    assert ShellsFrom([1], 3, b) == Shell(3, b, 1) + ShellsFrom([], 4, b);
    assert ShellsFrom([8, 1], 2, b) == Shell(2, b, 8) + ShellsFrom([1], 3, b);
    assert ShellsFrom([2, 8, 1], 1, b) == Shell(1, b, 2) + ShellsFrom([8, 1], 2, b);
  }

  /** Ten electrons (the sodium cation): shells of 2 and 8, no third shell. */
  lemma TenElectrons(baseRadius: real)
    ensures ShellFills(10) == [2, 8]
    ensures OrbitLayout(10, baseRadius) == Shell(1, baseRadius, 2) + Shell(2, baseRadius, 8)
    ensures forall o :: o in OrbitLayout(10, baseRadius) ==> o.level <= 2
  {
    assert FillsFrom(0, 3) == [];
    assert FillsFrom(8, 2) == [8];
    assert FillsFrom(10, 1) == [2, 8];
    var b := baseRadius;
    assert ShellsFrom([], 3, b) == [];
    assert ShellsFrom([8], 2, b) == Shell(2, b, 8) + ShellsFrom([], 3, b);
    assert ShellsFrom([2, 8], 1, b) == Shell(1, b, 2) + ShellsFrom([8], 2, b);
  }
}
