# Atom layout model

A Dafny model of the procedural layout behind the chemistry-three atom scene
(`src/Scene.jsx`). The scene takes an atomic number, an atomic mass and a charge.
From these it derives a neutron count and an electron count. It packs
`atomicNumber + neutronCount` spheres into a nucleus and colours them
alternately as protons and neutrons. It then distributes the electrons over
shells of capacity 2n², with one orbit per electron.

Modules (one per component of the layout):

- `Geometry` (geometry.dfy): the `Vec3` positions.
- `AtomCounts` (atom_counts.dfy): the derived neutron, electron and nucleon counts, as exact reals and `.Floor`.
- `SpherePacking` (sphere_packing.dfy): the loop skeleton of `generateSpherePacking`.
  The placement loop pushes one position per particle. The 100 passes then overwrite
  `spheres[i]` in place, in index order, in an `array`. The random initial
  position is the parameter `place`. The per-particle force and clamp step is the
  parameter `update`.
- `Nucleus` (nucleus.dfy): the colour map, written as a loop that carries the
  `currentNucleon` flag. It is proved equal to the closed form "even index ⇒ proton".
- `ElectronShells` (electron_shells.dfy): `createElectronOrbits` as a `while` loop
  over shells, with an inner loop that pushes one `Orbit(level, radius)` per electron.
  It is proved equal to `OrbitLayout`, a specification built from the shell fills
  `FillsFrom`. The fill and layout properties are lemmas about that specification.
- `AtomScene` (scene.dfy): the data flow of the `Scene` component, and the sodium scene.

Three details of the code decide what the model computes:

- A negative neutron count is not clamped. When the mass is below the atomic number,
  `atomicNumber + neutronCount` falls below the atomic number.
  For example, (11, 5, 0) packs 5 spheres, not 11 (`MassBelowAtomicNumber`).
  A negative electron count yields no orbits, because the allocator's `while` guard
  never fires (`OrbitCount`).
- The packing count `atomicNumber + neutronCount` is a JavaScript number. For a
  fractional atomic number, `for (let i = 0; i < count; i++)` runs ceil(count) times.
  `PlacementCount` models exactly that.
- `currentNucleon` is declared as "proton" at line 193, on every evaluation of the
  component. `ClassifyNucleons` therefore starts every mapping at `Proton`.

A consequence worth knowing: the colours depend only on the index. So N packed
nucleons show ceil(N/2) proton-coloured spheres. That equals the atomic number
only when the neutron count is the atomic number or one less
(`ProtonColouringMatches`). Sodium (11 + 11) is such a case.

## Model

| member | source | states |
|---|---|---|
| `AtomCounts.NeutronCount` | src/Scene.jsx:185 | the neutron count is the greatest integer not above atomicMass − atomicNumber |
| `AtomCounts.ElectronCount` | src/Scene.jsx:186 | the electron count is the greatest integer not above atomicNumber − charge |
| `AtomCounts.NucleonCount` | src/Scene.jsx:189 | the count handed to the packing, atomicNumber + neutronCount, lies in (atomicMass − 1, atomicMass] |
| `AtomCounts.Sodium` | src/Scene.jsx:183-189 | for (11, 22.9898, 0) there are 11 neutrons, 11 electrons and 22 nucleons; with charge 1 there are 10 electrons |
| `AtomCounts.MassBelowAtomicNumber` | src/Scene.jsx:185-189 | a mass below the atomic number gives a negative neutron count, and fewer nucleons than the atomic number (no clamp) |
| `SpherePacking.PlacementCount` | src/Scene.jsx:90 | the placement loop runs the least natural number of times that is not below count, and 0 times for count ≤ 0 |
| `SpherePacking.WholeCount` | src/Scene.jsx:90-102 | a whole count n places exactly max(n, 0) particles |
| `SpherePacking.InitialPlacement` | src/Scene.jsx:90-102 | the placement loop yields one position per iteration, in order |
| `SpherePacking.SweepPrefix` | src/Scene.jsx:107-136 | updating particles one by one in a pass keeps the number of particles |
| `SpherePacking.Relaxed` | src/Scene.jsx:106-137 | any number of passes keeps the number of particles |
| `SpherePacking.GenerateSpherePacking` | src/Scene.jsx:84-139 | the result has exactly PlacementCount(count) positions, and equals the initial placement after 100 in-place passes |
| `SpherePacking.SweepPrefixFrame` | src/Scene.jsx:107-136 | midway through a pass, the particles before i hold their new positions and the rest their old ones |
| `SpherePacking.SweepInPlace` | src/Scene.jsx:107-136 | particle i's new position is computed from the already-updated particles before it and the not-yet-updated ones from i on |
| `SpherePacking.RelaxedPointwise` | src/Scene.jsx:106-139 | passes never reorder, add or drop particles: if each update depends only on the particle's own position, output k is initial position k moved once per pass |
| `Nucleus.Labelled` | src/Scene.jsx:196-212 | the nucleus list has one record per position |
| `Nucleus.ClassifyNucleons` | src/Scene.jsx:193-213 | the flag-flipping map returns, for index i, the same position, colour #ff4060 at even i and white at odd i, and roughness and metalness 0.1 |
| `Nucleus.Alternates` | src/Scene.jsx:199-205 | a non-empty list (one record included) starts with a proton colour, and neighbouring records never share a colour: each follows the flipped flag of the one before |
| `Nucleus.ProtonsAreHalf` | src/Scene.jsx:193-213 | of N records, exactly ceil(N/2) carry the proton colour |
| `Nucleus.ProtonColouringMatches` | src/Scene.jsx:188-213 | for any integer neutron count (negative ones included) with a non-negative total, the proton-coloured count equals the atomic number if and only if neutronCount is atomicNumber or atomicNumber − 1 |
| `ElectronShells.FillsFrom` | src/Scene.jsx:147-177 | the shell fills sum to max(remaining, 0) |
| `ElectronShells.FillsBounded` | src/Scene.jsx:147-152 | every opened shell n gets at least 1 and at most 2n² electrons |
| `ElectronShells.CreateElectronOrbits` | src/Scene.jsx:142-181 | the allocator terminates, returns exactly max(electronCount, 0) orbits, and returns the shell-by-shell layout `OrbitLayout` |
| `ElectronShells.ShellsLength` | src/Scene.jsx:152-174 | each shell pushes one orbit per electron it receives |
| `ElectronShells.OrbitCount` | src/Scene.jsx:145-180 | the layout has max(electronCount, 0) orbits, and none when electronCount ≤ 0 |
| `ElectronShells.FillIsMin` | src/Scene.jsx:148-149 | each shell receives exactly min(electrons still left, 2n²) |
| `ElectronShells.FullButLast` | src/Scene.jsx:147-177 | every shell except the last is filled to its capacity 2n² |
| `ElectronShells.ShellCountIsLeast` | src/Scene.jsx:147-177 | no shell is opened for no electrons; the number of shells is the least k whose first k capacities hold all electrons |
| `ElectronShells.ShellBlock` | src/Scene.jsx:150-173 | the output is the shells in ascending order, each a contiguous block of its fill size, all at level n and radius baseRadius·2n |
| `ElectronShells.LevelInRange` | src/Scene.jsx:144-177 | every orbit's level is one of the opened shells, its radius is baseRadius·2·level, and the first orbit is at level 1 |
| `ElectronShells.LevelStep` | src/Scene.jsx:144-177 | from one orbit to the next the level stays or rises by exactly 1, so no level is skipped |
| `ElectronShells.LevelsAscending` | src/Scene.jsx:144-177 | levels never decrease along the output |
| `ElectronShells.RadiiAscending` | src/Scene.jsx:150-173 | for baseRadius ≥ 0, radii never decrease along the output |
| `ElectronShells.ElevenElectrons` | src/Scene.jsx:147-152 | 11 electrons give fills [2, 8, 1] at radii 2b, 4b, 6b |
| `ElectronShells.TenElectrons` | src/Scene.jsx:147-152 | 10 electrons give fills [2, 8], and no orbit above level 2 |
| `AtomScene.SceneLayout` | src/Scene.jsx:183-224 | the nucleus is exactly the packing result for atomicNumber + neutronCount (PlacementCount of it, relaxed 100 passes) labelled by parity, and the orbits are the shell layout of the derived electron count |
| `AtomScene.SodiumScene` | src/Scene.jsx:290-296 | the sodium scene has 22 nucleons, 11 of them proton-coloured, and 11 electrons in shells [2, 8, 1] |

## Left out

- Packing numerics (src/Scene.jsx:87, 91-99, 113-135). They are floating-point vector geometry, and the model takes them through its two parameters. The container radius `cbrt(count)·radius·1.5` (87) and the random spherical coordinates scaled by it (91-99) enter through `place`. The container radius, the normalisation, the repulsion and centring forces and the boundary clamp (87, 113-135) enter through `update`.
- SpherePacking.GenerateSpherePacking: does not state that each position ends within containerRadius − radius of the origin, because that clamp is part of the floating-point update left out above.
- `Math.random()`: the initial placement (91-93) becomes the `place` parameter. The orbit rotations (167-171), the electron start phase (50) and the sphere jitter (22-28) are not modelled.
- The orbit's `THREE.EllipseCurve` and `THREE.Euler` (156-171). An orbit is modelled as its level and radius only.
- The unused `phi` and `theta` per electron (153-154). They never reach the output.
- The `Electron` component's per-frame animation (47-82). This covers the phase wrap, `getPointAt`, `applyEuler` and `lookAt`.
- The display label `number={-i+1}` (241).
- The base radius `sphereRadius·cbrt(nucleon count)·3` (221). It needs a cube root, so it is a parameter of `CreateElectronOrbits` and `SceneLayout`.
- The sphere radius 0.5 passed to the packing (184, 189). Through the container radius (87) it sets how far the initial placement reaches (93), and it also enters the update arithmetic. So it lies inside both the `place` and the `update` parameter.
- React and three.js plumbing: `Sphere`, `SphereGroup`, `Canvas`, lights, `Environment`, `Effects`, `OrbitControls`, `useMemo` caching, and the `positions ? … : []` guard (197). The packing always returns an array, so that guard never takes its empty branch.
- The aliasing between the `positions` and `spheres` arrays of `generateSpherePacking`. Both hold the same vectors, and only `spheres` is returned.
- src/App.jsx and the `App` component: pure component wiring. The sodium input (294) appears in `SodiumScene`.
- JavaScript number semantics: counts are exact integers and radii exact reals. Behaviour above 2^53 electrons, and NaN or infinite inputs, is not modelled.
- AtomCounts.NeutronCount and AtomCounts.ElectronCount: the floor is taken of the exact difference, not of the double-precision difference the program floors. The two can disagree when the subtraction rounds down across an integer: `Math.floor(4.35 - 0.35)` is 3 in the program, while `NeutronCount(0.35, 4.35)` is 4.
