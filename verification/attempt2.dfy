/** wiggler_attempt2_usingmadxspec.py: the drift-interleaved layout of module
    Layout with an inter-magnet gap, no trailing drift block and a yoke that stops
    one margin after the last copy. Three of its eight y-centres are written with
    magnetLength where magnetWidth is meant; CellAsWritten keeps them as written,
    and the corrected device (the cell of module Layout) is the one proved sound. */
module Attempt2 {
  import opened Geometry
  import opened Tiling
  import opened Layout
  import Wiggler

  /** The cell as the script draws it: top block 4 and bottom blocks 3 and 4 are
      centred at magnetLength / 2 + magnetSep (mirrored) instead of
      magnetWidth / 2 + magnetSep. The labels are those of module Layout. */
  function CellAsWritten(p: Config): Drawing {
    var yw, yl := UpperY(p), p.magnetLength / 2.0 + p.magnetSep;
    Drawing(Row(p, yw, yw, yw, yl) + Row(p, -yw, -yw, -yl, -yl), Labels(p))
  }

  /** The as-written cell is the intended one exactly when the blocks are square
      across the slip, magnetLength == magnetWidth. */
  lemma AsWrittenIsCellIff(p: Config)
    ensures CellAsWritten(p) == Cell(p) <==> p.magnetLength == p.magnetWidth
  {
    if CellAsWritten(p) == Cell(p) {
      assert CellAsWritten(p).rects[3] == Cell(p).rects[3];
    }
  }

  /** Mirror symmetry survives for blocks 1, 2 and 4 (top block 4 and bottom
      block 4 carry the same slip), but block 3 is mirrored only when
      magnetLength == magnetWidth. */
  lemma AsWrittenMirror(p: Config)
    ensures var r := CellAsWritten(p).rects;
      |r| == 8 && r[4] == Mirror(r[0]) && r[5] == Mirror(r[1]) && r[7] == Mirror(r[3])
    ensures var r := CellAsWritten(p).rects;
      r[6] == Mirror(r[2]) <==> p.magnetLength == p.magnetWidth
  {
  }

  /** The labels stay at y = +-(magnetSep + magnetWidth / 2); those of the three
      shifted blocks still fall inside them exactly when the shift is less than
      half a block, |magnetLength - magnetWidth| < magnetWidth. */
  lemma AsWrittenLabelsIff(p: Config)
    requires Sane(p)
    ensures var c := CellAsWritten(p);
      && (Marks(c.labels[3], c.rects[3]) <==> -p.magnetWidth < p.magnetLength - p.magnetWidth < p.magnetWidth)
      && (Marks(c.labels[6], c.rects[6]) <==> -p.magnetWidth < p.magnetLength - p.magnetWidth < p.magnetWidth)
      && (Marks(c.labels[7], c.rects[7]) <==> -p.magnetWidth < p.magnetLength - p.magnetWidth < p.magnetWidth)
  {
  }

  /** The right end of the attempt2 yoke: n + 1 cell lengths and both margins. */
  function SteelRight(p: Config): real {
    (p.numRepeats + 1) as real * Wiggler.CellSpan(p) + 2.0 * p.margin
  }

  /** The attempt2 yoke: a band of thickness steelThick on the outer side of each
      row, from the margin to SteelRight. */
  function Steel(p: Config): seq<Rect> {
    var inner := p.magnetSep + p.magnetWidth;
    [Rect(p.margin, SteelRight(p), inner, inner + p.steelThick),
     Rect(p.margin, SteelRight(p), -inner - p.steelThick, -inner)]
  }

  /** The centre-line nodes: the origin and the yoke's right end. */
  function CentreLine(p: Config): Segment {
    Segment(Point(0.0, 0.0), Point(TotalLength(p) + 2.0 * p.margin, 0.0))
  }

  /** Without a trailing drift block the yoke and the centre line end one margin
      after the last copy, which ends at (n + 1) pitches plus the margin. */
  lemma YokeEnd(p: Config)
    requires Sane(p)
    ensures SteelRight(p) == TotalLength(p) + 2.0 * p.margin
    ensures CentreLine(p).to.x == SteelRight(p)
    ensures Wiggler.CellCopies(p)[p.numRepeats].rects[3].x1 + p.margin == SteelRight(p)
    ensures Wiggler.CellCopies(p)[p.numRepeats].rects[7].x1 + p.margin == SteelRight(p)
  {
    assert Wiggler.CellSpan(p) == Pitch(p);
    Wiggler.TrailingDriftClosesLattice(p);
    Wiggler.EndsAgree(p);
  }

  /** The shifted blocks stick (magnetLength - magnetWidth) / 2 past the yoke's
      inner line, so each overlaps its band unless magnetLength <= magnetWidth
      (or the block is pushed clean through the band). */
  lemma AsWrittenMeetsYoke(p: Config)
    requires Sane(p)
    ensures var r, s := CellAsWritten(p).rects, Steel(p);
      && r[3].y1 - s[0].y0 == (p.magnetLength - p.magnetWidth) / 2.0
      && s[1].y1 - r[6].y0 == (p.magnetLength - p.magnetWidth) / 2.0
      && s[1].y1 - r[7].y0 == (p.magnetLength - p.magnetWidth) / 2.0
    ensures var r, s := CellAsWritten(p).rects, Steel(p);
      && (Disjoint(r[3], s[0]) <==> (p.magnetLength <= p.magnetWidth || 3.0 * p.magnetWidth + 2.0 * p.steelThick <= p.magnetLength))
      && (Disjoint(r[6], s[1]) <==> (p.magnetLength <= p.magnetWidth || 3.0 * p.magnetWidth + 2.0 * p.steelThick <= p.magnetLength))
      && (Disjoint(r[7], s[1]) <==> (p.magnetLength <= p.magnetWidth || 3.0 * p.magnetWidth + 2.0 * p.steelThick <= p.magnetLength))
  {
    Wiggler.TotalLengthAtLeastPitch(p);
    assert Wiggler.CellSpan(p) == Pitch(p);
  }

  /** The selection box holds the whole as-written cell exactly when the slip is
      no more than the yoke thickness on either side. */
  lemma AsWrittenInsideSelectionIff(p: Config)
    requires Sane(p)
    ensures Inside(CellAsWritten(p), Wiggler.SelectionBox(p)) <==> p.magnetLength <= p.magnetWidth + 2.0 * p.steelThick
  {
    var c, box := CellAsWritten(p), Wiggler.SelectionBox(p);
    if p.magnetLength <= p.magnetWidth + 2.0 * p.steelThick {
      forall i | 0 <= i < |c.labels|
        ensures In(c.labels[i].x, c.labels[i].y, box)
      {
        assert c.labels[i] == Cell(p).labels[i];
        assert AtCentre(Cell(p).labels[i], Cell(p).rects[i]);
        CellExtent(p);
      }
      assert forall i :: 0 <= i < |c.rects| ==> Contains(box, c.rects[i]);
    } else {
      assert !Contains(box, c.rects[3]);
    }
  }

  /** What the script's selection and copy leave on the drawing. */
  function LatticeAsWritten(p: Config): seq<Drawing> {
    Tile(Select(CellAsWritten(p), Wiggler.SelectionBox(p)), Pitch(p), p.numRepeats)
  }

  /** The device as the script draws it: no trailing drift block. */
  function BuildAsWritten(p: Config): Wiggler.Device {
    Wiggler.Device(Wiggler.Boundary(p), CentreLine(p), LatticeAsWritten(p), Drawing([], []),
                   Steel(p), Wiggler.SteelLabels(p), Wiggler.AirLabel(p))
  }

  /** The corrected device: the cell of module Layout, selected and copied. */
  function Build(p: Config): Wiggler.Device {
    Wiggler.Device(Wiggler.Boundary(p), CentreLine(p), Wiggler.Lattice(p), Drawing([], []),
                   Steel(p), Wiggler.SteelLabels(p), Wiggler.AirLabel(p))
  }

  /** The attempt2 yoke wraps every block of the corrected lattice. */
  lemma YokeWrapsCopyBlock(p: Config, k: nat, a: nat)
    requires Sane(p) && k <= p.numRepeats && a < 8
    ensures |Wiggler.CellCopies(p)| == p.numRepeats + 1 && |Wiggler.CellCopies(p)[k].rects| == 8
    ensures Wiggler.Wrapped(Wiggler.CellCopies(p)[k].rects[a], Steel(p))
  {
    Wiggler.LatticeBlockBounds(p, k, a);
    YokeEnd(p);
  }

  lemma YokeWrapsBlock(p: Config, ds: seq<Drawing>, k: nat, a: nat)
    requires Sane(p) && ds == Wiggler.CellCopies(p) + [Drawing([], [])]
    requires k < |ds| && a < |ds[k].rects|
    ensures Wiggler.Wrapped(ds[k].rects[a], Steel(p)) && !Marks(Wiggler.AirLabel(p), ds[k].rects[a])
  {
    if k <= p.numRepeats {
      assert ds[k] == Wiggler.CellCopies(p)[k];
      YokeWrapsCopyBlock(p, k, a);
      Wiggler.LatticeBlockBand(p, k, a);
    }
  }

  /** The corrected lattice followed by the empty trailing drawing has no
      overlapping blocks. */
  lemma CorrectedBlocksDisjoint(p: Config)
    requires Sane(p)
    ensures AllDisjoint(Wiggler.CellCopies(p) + [Drawing([], [])])
  {
    Wiggler.LatticeDisjoint(p);
    AppendDisjoint(Wiggler.CellCopies(p), Drawing([], []));
  }

  /** The steel labels, when there are any, mark the attempt2 yoke bands. */
  lemma SteelLabelsInYoke(p: Config)
    requires Sane(p)
    ensures |Wiggler.SteelLabels(p)| <= 2
    ensures forall i :: 0 <= i < |Wiggler.SteelLabels(p)| ==> Marks(Wiggler.SteelLabels(p)[i], Steel(p)[i])
  {
    Wiggler.TotalLengthAtLeastPitch(p);
    YokeEnd(p);
  }

  /** The corrected blocks: no overlaps, every block wrapped by the yoke and
      clear of the air label. */
  lemma CorrectedBlocks(p: Config)
    requires Sane(p)
    ensures var ds := Wiggler.CellCopies(p) + [Drawing([], [])];
      && AllDisjoint(ds)
      && forall k, a :: 0 <= k < |ds| && 0 <= a < |ds[k].rects| ==>
           Wiggler.Wrapped(ds[k].rects[a], Steel(p)) && !Marks(Wiggler.AirLabel(p), ds[k].rects[a])
  {
    var ds := Wiggler.CellCopies(p) + [Drawing([], [])];
    CorrectedBlocksDisjoint(p);
    forall k, a | 0 <= k < |ds| && 0 <= a < |ds[k].rects|
      ensures Wiggler.Wrapped(ds[k].rects[a], Steel(p)) && !Marks(Wiggler.AirLabel(p), ds[k].rects[a])
    {
      YokeWrapsBlock(p, ds, k, a);
    }
  }

  /** With the cell corrected, the attempt2 device is sound: no overlaps, the
      yoke wraps every block, every label where it belongs. */
  lemma CorrectedBuildIsWellBuilt(p: Config)
    requires Sane(p)
    ensures Wiggler.WellBuilt(Build(p))
  {
    Wiggler.SelectionCoversCell(p);
    CorrectedBlocks(p);
    SteelLabelsInYoke(p);
    YokeEnd(p);
  }

  /** The numbers at the top of wiggler_attempt2_usingmadxspec.py. */
  const Script: Config := Config(50.0, 50.00191431900077, 30.0, 20.0, 30.0, 5.0, 4.0, 100.0, 5, "N55", "1020 Steel")

  /** The script's derived lengths, its five-unit gaps, and its boundary, whose
      half-height 200 holds the yoke's outer edge at 100. */
  lemma ScriptNumbers()
    ensures Sane(Script)
    ensures OddLength(Script) == 20.0 && Pitch(Script) == 2.0 * Script.magnetLength + 60.0
    ensures forall i, j :: 0 <= i && j == i + 1 < 4 ==> TopRow(Script)[j].x0 - TopRow(Script)[i].x1 == 5.0
    ensures Wiggler.Boundary(Script).y1 == 200.0 && Steel(Script)[0].y1 == 100.0
    ensures Contains(Wiggler.Boundary(Script), Steel(Script)[0]) && Contains(Wiggler.Boundary(Script), Steel(Script)[1])
  {
    RowSpacing(Script);
    YokeEnd(Script);
    Wiggler.TotalLengthAtLeastPitch(Script);
  }

  /** The script as written: its first cell is the as-written cell, whose top
      block 4 reaches into the upper yoke band by about a thousandth of a
      millimetre, so the drawing is not sound. */
  lemma ScriptAsWrittenOverlapsYoke()
    ensures LatticeAsWritten(Script)[0] == CellAsWritten(Script)
    ensures CellAsWritten(Script).rects[3].y1 - Steel(Script)[0].y0 == 0.000957159500385
    ensures !Disjoint(CellAsWritten(Script).rects[3], Steel(Script)[0])
    ensures !Wiggler.WellBuilt(BuildAsWritten(Script))
  {
    var p := Script;
    var c := CellAsWritten(p);
    ScriptNumbers();
    AsWrittenInsideSelectionIff(p);
    SelectWhole(c, Wiggler.SelectionBox(p));
    ShiftByZero(c);
    AsWrittenMeetsYoke(p);
    var d := BuildAsWritten(p);
    var blocks := d.lattice + [d.trailing];
    assert blocks[0] == c;
    assert !Wiggler.Wrapped(blocks[0].rects[3], d.steel);
  }
}
