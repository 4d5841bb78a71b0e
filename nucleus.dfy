/** The nucleon classifier of the scene: the packed positions are mapped, in
    order, to coloured records while a flag that starts at "proton" is flipped
    at every step. The colour therefore only depends on the parity of the index,
    never on where the particle lies. */
module Nucleus {
  import opened Geometry

  /** The value of the flag carried through the mapping. */
  datatype NucleonKind = Proton | Neutron

  /** One record of the nucleus list. */
  datatype Nucleon = Nucleon(position: Vec3, color: string, roughness: real, metalness: real)

  const ProtonColor: string := "#ff4060"
  const NeutronColor: string := "white"
  const Roughness: real := 0.1
  const Metalness: real := 0.1

  function ColorOf(kind: NucleonKind): string {
    match kind
    case Proton => ProtonColor
    case Neutron => NeutronColor
  }

  function Flip(kind: NucleonKind): NucleonKind {
    if kind == Proton then Neutron else Proton
  }

  /** The closed form of the alternation: even indices are protons. */
  function KindAt(i: nat): NucleonKind {
    if i % 2 == 0 then Proton else Neutron
  }

  /** The nucleus list the mapping is meant to produce. */
  function Labelled(positions: seq<Vec3>): (nucleus: seq<Nucleon>)
    ensures |nucleus| == |positions|
  {
    seq(|positions|, i requires 0 <= i < |positions| =>
      Nucleon(positions[i], ColorOf(KindAt(i)), Roughness, Metalness))
  }

  /** The mapping as the scene runs it: one record per position, the colour read
      from a flag that is reset to Proton first and flipped after every record. */
  method ClassifyNucleons(positions: seq<Vec3>) returns (nucleus: seq<Nucleon>)
    ensures nucleus == Labelled(positions)
    ensures forall i :: 0 <= i < |nucleus| ==>
              nucleus[i].position == positions[i] &&
              nucleus[i].color == (if i % 2 == 0 then ProtonColor else NeutronColor) &&
              nucleus[i].roughness == 0.1 && nucleus[i].metalness == 0.1
  {
    var currentNucleon := Proton;
    nucleus := [];
    for i := 0 to |positions|
      invariant currentNucleon == KindAt(i)
      invariant nucleus == Labelled(positions[..i])
    {
      var color;
      if currentNucleon == Proton {
        color := ProtonColor;
        currentNucleon := Neutron;
      } else {
        color := NeutronColor;
        currentNucleon := Proton;
      }
      nucleus := nucleus + [Nucleon(positions[i], color, Roughness, Metalness)];
    }
    assert positions[..|positions|] == positions;
  }

  /** Number of records coloured as protons. */
  function ProtonCount(nucleus: seq<Nucleon>): nat
    decreases |nucleus|
  {
    if nucleus == [] then 0
    else ProtonCount(nucleus[..|nucleus| - 1]) + if nucleus[|nucleus| - 1].color == ProtonColor then 1 else 0
  }

  /** A non-empty list starts with a proton, and no two neighbours share a colour. */
  lemma Alternates(positions: seq<Vec3>)
    ensures |positions| > 0 ==> Labelled(positions)[0].color == ProtonColor
    ensures forall i :: 0 <= i < |positions| - 1 ==>
              Labelled(positions)[i].color != Labelled(positions)[i + 1].color &&
              Labelled(positions)[i + 1].color == ColorOf(Flip(KindAt(i)))
  {
    assert ProtonColor != NeutronColor by { assert ProtonColor[0] != NeutronColor[0]; }
  }

  /** Of N records, ceil(N/2) are coloured as protons. */
  lemma {:induction false} ProtonsAreHalf(positions: seq<Vec3>)
    ensures ProtonCount(Labelled(positions)) == (|positions| + 1) / 2
    decreases |positions|
  {
    if positions != [] {
      var n := |positions|;
      var init := positions[..n - 1];
      ProtonsAreHalf(init);
      assert Labelled(positions)[..n - 1] == Labelled(init);
      assert ProtonColor != NeutronColor by { assert ProtonColor[0] != NeutronColor[0]; }
    }
  }

  /** The scene asks for atomicNumber + neutronCount nucleons, so the number of
      particles coloured as protons equals the atomic number exactly when the
      neutron count is the atomic number or one less. */
  lemma ProtonColouringMatches(atomicNumber: nat, neutronCount: int, positions: seq<Vec3>)
    requires atomicNumber + neutronCount >= 0
    requires |positions| == atomicNumber + neutronCount
    ensures ProtonCount(Labelled(positions)) == atomicNumber
            <==> neutronCount == atomicNumber || neutronCount + 1 == atomicNumber
  {
    ProtonsAreHalf(positions);
  }
}
