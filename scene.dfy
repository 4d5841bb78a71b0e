/** The data flow of the Scene component: derived counts, then the packed and
    coloured nucleus and the electron orbits. The base radius of the orbits is
    sphereRadius·cbrt(nucleon count)·3, a cube root this model takes as given. */
module AtomScene {
  import opened Geometry
  import opened AtomCounts
  import opened SpherePacking
  import opened Nucleus
  import opened ElectronShells

  /** The layout a Scene computes from its inputs. */
  method SceneLayout(atomicNumber: real, atomicMass: real, charge: real, baseRadius: real,
                     place: nat -> Vec3, update: (seq<Vec3>, nat) -> Vec3)
    returns (nucleus: seq<Nucleon>, orbits: seq<Orbit>)
    ensures |nucleus| == PlacementCount(NucleonCount(atomicNumber, atomicMass))
    ensures nucleus == Labelled(Relaxed(InitialPlacement(PlacementCount(NucleonCount(atomicNumber, atomicMass)), place),
                                        PackingIterations, update))
    ensures forall i :: 0 <= i < |nucleus| ==>
              nucleus[i].color == (if i % 2 == 0 then ProtonColor else NeutronColor)
    ensures orbits == OrbitLayout(ElectronCount(atomicNumber, charge), baseRadius)
    ensures |orbits| == if ElectronCount(atomicNumber, charge) > 0 then ElectronCount(atomicNumber, charge) else 0
  {
    var neutronCount := NeutronCount(atomicNumber, atomicMass);
    var electronCount := ElectronCount(atomicNumber, charge);
    var positions := GenerateSpherePacking(atomicNumber + neutronCount as real, place, update);
    nucleus := ClassifyNucleons(positions);
    orbits := CreateElectronOrbits(electronCount, baseRadius);
  }

  /** Neutral sodium: 22 packed nucleons of which 11 are coloured as protons,
      and 11 electrons in shells of 2, 8 and 1. */
  lemma SodiumScene(positions: seq<Vec3>, baseRadius: real)
    requires |positions| == PlacementCount(NucleonCount(11.0, 22.9898))
    ensures |positions| == 22
    ensures ProtonCount(Labelled(positions)) == 11
    ensures ShellFills(ElectronCount(11.0, 0.0)) == [2, 8, 1]
    ensures |OrbitLayout(ElectronCount(11.0, 0.0), baseRadius)| == 11
  {
    Sodium();
    WholeCount(22);
    ProtonsAreHalf(positions);
    ElevenElectrons(baseRadius);
    OrbitCount(11, baseRadius);
  }
}
