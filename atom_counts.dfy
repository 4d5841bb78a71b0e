/** The particle counts the scene derives from its three inputs: atomic number,
    atomic mass and charge (JavaScript numbers, modelled as exact reals). */
module AtomCounts {

  /** neutronCount = floor(atomicMass - atomicNumber). Not clamped: a mass below
      the atomic number gives a negative count. */
  function NeutronCount(atomicNumber: real, atomicMass: real): (r: int)
    ensures r as real <= atomicMass - atomicNumber < r as real + 1.0
  {
    (atomicMass - atomicNumber).Floor
  }

  /** electronCount = floor(atomicNumber - charge). Not clamped either. */
  function ElectronCount(atomicNumber: real, charge: real): (r: int)
    ensures r as real <= atomicNumber - charge < r as real + 1.0
  {
    (atomicNumber - charge).Floor
  }

  /** The count handed to the sphere packing: atomicNumber + neutronCount. */
  function NucleonCount(atomicNumber: real, atomicMass: real): (r: real)
    ensures atomicMass - 1.0 < r <= atomicMass
  {
    atomicNumber + NeutronCount(atomicNumber, atomicMass) as real
  }

  /** Neutral sodium (11, 22.9898, 0): 11 neutrons, 11 electrons, 22 nucleons;
      the cation (charge 1) has 10 electrons. */
  lemma Sodium()
    ensures NeutronCount(11.0, 22.9898) == 11
    ensures ElectronCount(11.0, 0.0) == 11
    ensures ElectronCount(11.0, 1.0) == 10
    ensures NucleonCount(11.0, 22.9898) == 22.0
  {
  }

  /** The mass, not the atomic number, decides how many nucleons are asked for:
      when the mass is below the atomic number the count shrinks below the
      atomic number instead of being clamped to it. */
  lemma MassBelowAtomicNumber(atomicNumber: real, atomicMass: real)
    requires atomicMass < atomicNumber
    ensures NeutronCount(atomicNumber, atomicMass) < 0
    ensures NucleonCount(atomicNumber, atomicMass) < atomicNumber
  {
  }
}
