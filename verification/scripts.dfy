/** The two concrete configurations that share the finished layout:
    wiggler_5_readingout.py and wiggler_4_changing_materials.py, which differ only
    in the block height. */
module Scripts {
  import opened Geometry
  import opened Tiling
  import opened Layout
  import opened Units
  import Wiggler

  /** The numbers at the top of wiggler_5_readingout.py. */
  const Readout: Config := Config(100.0, 50.00191431900077, 30.0, 25.0, 50.0, 0.0, 1.0, 700.0, 41, "N52", "1020 Steel")

  /** wiggler_4_changing_materials.py: the same, with blocks twice as high. */
  const ChangingMaterials: Config := Readout.(magnetWidth := 200.0)

  /** Both scripts work in millimetres and Newtons. */
  const LengthUnits: string := "millimeters"
  const ForceUnits: string := "Newtons"

  /** The derived lengths both scripts print: an odd length of 30, a pitch of two
      magnets and two drifts, and a total of 42 pitches. */
  lemma DerivedLengths(p: Config)
    requires p == Readout || p == ChangingMaterials
    ensures Sane(p)
    ensures OddLength(p) == 30.0
    ensures Pitch(p) == 2.0 * 50.00191431900077 + 60.0 && Pitch(p) == 160.00382863800154
    ensures TotalLength(p) == 42.0 * Pitch(p) && TotalLength(p) == 6720.16080279606468
    ensures LengthScale(LengthUnits) == 1000.0 && ForceScale(ForceUnits) == 1.0
  {
  }

  /** The boundary box holds the yoke: 4 x 100 = 400 above 175 for the readout
      script, 4 x 200 = 800 above 275 for the other, and 700 beyond the odd
      length 30 on the right. */
  lemma BoundaryHoldsYoke(p: Config)
    requires p == Readout || p == ChangingMaterials
    ensures Wiggler.Boundary(p).y1 == 4.0 * p.magnetWidth
    ensures Wiggler.Steel(p)[0].y1 == (if p == Readout then 175.0 else 275.0)
    ensures Wiggler.Boundary(p).y1 == (if p == Readout then 400.0 else 800.0)
    ensures Contains(Wiggler.Boundary(p), Wiggler.Steel(p)[0]) && Contains(Wiggler.Boundary(p), Wiggler.Steel(p)[1])
    ensures Wiggler.Boundary(p).x1 > Wiggler.SteelRight(p)
  {
    DerivedLengths(p);
    Wiggler.BoundaryAroundYoke(p);
  }

  /** Both scripts draw a sound device. */
  lemma ScriptsAreWellBuilt()
    ensures Wiggler.WellBuilt(Wiggler.Build(Readout))
    ensures Wiggler.WellBuilt(Wiggler.Build(ChangingMaterials))
  {
    DerivedLengths(Readout);
    DerivedLengths(ChangingMaterials);
    Wiggler.BuildIsWellBuilt(Readout);
    Wiggler.BuildIsWellBuilt(ChangingMaterials);
  }
}
