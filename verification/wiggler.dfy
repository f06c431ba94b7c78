/** The whole device of wiggler_5_readingout.py and wiggler_4_changing_materials.py:
    the cell of module Layout, tiled along the beam, closed by a trailing drift
    block, wrapped in a steel return yoke and enclosed by the boundary box, with
    the centre-line nodes and the catch-all air label. */
module Wiggler {
  import opened Geometry
  import opened Tiling
  import opened Layout

  /** The rectangle handed to `mi_selectrectangle` before copying, with its corners
      put in order: from the margin to one pitch beyond it, and from the outer
      edge of the lower yoke to the outer edge of the upper yoke. */
  function SelectionBox(p: Config): Rect {
    var outer := p.magnetSep + p.magnetWidth + p.steelThick;
    Rect(0.0 + p.margin,
         2.0 * p.magnetLength + 2.0 * OddLength(p) + 4.0 * p.interMagnet + p.margin,
         -p.magnetSep - p.magnetWidth - p.steelThick,
         outer)
  }

  /** What `mi_selectrectangle` and `mi_copytranslate2` leave on the drawing:
      the selected part of the cell and its `numRepeats` copies, one pitch apart. */
  function Lattice(p: Config): seq<Drawing> {
    Tile(Select(Cell(p), SelectionBox(p)), Pitch(p), p.numRepeats)
  }

  /** The whole cell and its `numRepeats` copies, one pitch apart. */
  function CellCopies(p: Config): seq<Drawing> {
    Tile(Cell(p), Pitch(p), p.numRepeats)
  }

  /** The selection covers exactly one pitch along the beam, and in a sane
      configuration it holds the whole cell, so the lattice is the whole cell
      and its copies. */
  lemma SelectionCoversCell(p: Config)
    requires Sane(p)
    ensures SelectionBox(p).x0 == p.margin && SelectionBox(p).x1 == p.margin + Pitch(p)
    ensures Select(Cell(p), SelectionBox(p)) == Cell(p)
    ensures Lattice(p) == CellCopies(p)
  {
    var c, box := Cell(p), SelectionBox(p);
    CellExtent(p);
    forall i | 0 <= i < |c.labels|
      ensures In(c.labels[i].x, c.labels[i].y, box)
    {
      assert AtCentre(c.labels[i], c.rects[i]);
    }
    assert Inside(c, box);
    SelectWhole(c, box);
  }

  /** Block a of copy k is block a of the cell, moved k pitches. */
  lemma LatticeRect(p: Config, k: nat, a: nat)
    requires Sane(p) && k <= p.numRepeats && a < 8
    ensures |CellCopies(p)| == p.numRepeats + 1 && |CellCopies(p)[k].rects| == 8
    ensures CellCopies(p)[k].rects[a] == Shift(Cell(p).rects[a], Offset(k, Pitch(p)))
  {
  }

  /** `lengthtotal`, the product the scripts write, is n + 1 steps of the pitch. */
  lemma TotalLengthIsOffset(p: Config)
    ensures TotalLength(p) == Offset(p.numRepeats + 1, Pitch(p))
    ensures TotalLength(p) == Offset(p.numRepeats, Pitch(p)) + Pitch(p)
  {
    OffsetIsProduct(p.numRepeats + 1, Pitch(p));
  }

  /** In a sane configuration the lattice is at least one pitch long. */
  lemma TotalLengthAtLeastPitch(p: Config)
    requires Sane(p)
    ensures Pitch(p) > 0.0 && TotalLength(p) >= Pitch(p)
  {
    TotalLengthIsOffset(p);
    if p.numRepeats > 0 {
      OffsetStep(0, p.numRepeats, Pitch(p));
    }
  }

  /** Along the beam, block a of copy k lies between the margin plus a gap and
      the end of the last copy. */
  lemma LatticeBlockSpan(p: Config, k: nat, a: nat)
    requires Sane(p) && k <= p.numRepeats && a < 8
    ensures |CellCopies(p)| == p.numRepeats + 1 && |CellCopies(p)[k].rects| == 8
    ensures var r := CellCopies(p)[k].rects[a];
      p.margin + p.interMagnet <= r.x0 <= r.x1 <= p.margin + TotalLength(p)
  {
    var og, n := Pitch(p), p.numRepeats;
    LatticeRect(p, k, a);
    var c := Cell(p).rects[a];
    assert p.margin + p.interMagnet <= c.x0 <= c.x1 <= p.margin + og by {
      CellExtent(p);
    }
    TotalLengthIsOffset(p);
    OffsetWithin(k, n, og);
  }

  /** Across the beam, the top-row blocks of every copy lie in the upper band
      [magnetSep, magnetSep + magnetWidth] and the bottom-row blocks in its
      mirror image. */
  lemma LatticeBlockBand(p: Config, k: nat, a: nat)
    requires Sane(p) && k <= p.numRepeats && a < 8
    ensures |CellCopies(p)| == p.numRepeats + 1 && |CellCopies(p)[k].rects| == 8
    ensures var r := CellCopies(p)[k].rects[a];
      && (a < 4 ==> r.y0 == p.magnetSep && r.y1 == p.magnetSep + p.magnetWidth)
      && (4 <= a ==> r.y0 == -(p.magnetSep + p.magnetWidth) && r.y1 == -p.magnetSep)
  {
    LatticeRect(p, k, a);
    CellBands(p);
  }

  /** Both of the above. */
  lemma LatticeBlockBounds(p: Config, k: nat, a: nat)
    requires Sane(p) && k <= p.numRepeats && a < 8
    ensures |CellCopies(p)| == p.numRepeats + 1 && |CellCopies(p)[k].rects| == 8
    ensures var r := CellCopies(p)[k].rects[a];
      && p.margin + p.interMagnet <= r.x0 <= r.x1 <= p.margin + TotalLength(p)
      && (a < 4 ==> r.y0 == p.magnetSep && r.y1 == p.magnetSep + p.magnetWidth)
      && (4 <= a ==> r.y0 == -(p.magnetSep + p.magnetWidth) && r.y1 == -p.magnetSep)
  {
    LatticeBlockSpan(p, k, a);
    LatticeBlockBand(p, k, a);
  }

  /** No two blocks of the lattice overlap, within a copy or across copies. */
  lemma LatticeDisjoint(p: Config)
    requires Sane(p)
    ensures AllDisjoint(CellCopies(p))
  {
    SelectionCoversCell(p);
    CellDisjoint(p);
    CellExtent(p);
    TileDisjoint(Cell(p), Pitch(p), p.numRepeats, p.margin + p.interMagnet, p.margin + Pitch(p));
  }

  /** The seam between copies repeats the inner spacing: the first block of copy
      k + 1 starts exactly one inter-magnet gap after the last block of copy k. */
  lemma CopySeam(p: Config, k: nat)
    requires Sane(p) && k < p.numRepeats
    ensures CellCopies(p)[k + 1].rects[0].x0 - CellCopies(p)[k].rects[3].x1 == p.interMagnet
    ensures CellCopies(p)[k + 1].rects[4].x0 - CellCopies(p)[k].rects[7].x1 == p.interMagnet
  {
    var og := Pitch(p);
    LatticeRect(p, k + 1, 0);
    LatticeRect(p, k + 1, 4);
    LatticeRect(p, k, 3);
    LatticeRect(p, k, 7);
    CellRows(p);
    RowSpacing(p);
    assert Offset(k + 1, og) == Offset(k, og) + og;
  }

  /** The cell length the trailing drift and the steel are placed by, written
      out as in the scripts rather than through the pitch. */
  function CellSpan(p: Config): real {
    2.0 * p.magnetLength + 2.0 * OddLength(p) + 4.0 * p.interMagnet
  }

  /** Where the trailing drift block starts: after n + 1 cell lengths and the margin. */
  function DriftStart(p: Config): real {
    (p.numRepeats + 1) as real * CellSpan(p) + p.margin
  }

  /** The final drift blocks: one odd-length block per row after the last copy,
      drawn as four lines each, labelled like the first block of a cell. */
  function TrailingDrift(p: Config): Drawing {
    var x0, odd, sep, w := DriftStart(p), OddLength(p), p.magnetSep, p.magnetWidth;
    Drawing(
      [Rect(x0, x0 + odd, sep, sep + w), Rect(x0, x0 + odd, -(sep + w), -sep)],
      [Label(x0 + odd / 2.0, sep + w / 2.0, 0, p.magnetMaterial),
       Label(x0 + odd / 2.0, -(sep + w / 2.0), 180, p.magnetMaterial)])
  }

  /** The trailing drift blocks start exactly where the last copy ends (with no
      inter-magnet gap), have the shape of a cell's first blocks, are mirror images
      of each other, and carry the first blocks' angles at their centres. */
  lemma TrailingDriftClosesLattice(p: Config)
    requires Sane(p)
    ensures var last, t := CellCopies(p)[p.numRepeats], TrailingDrift(p);
      && t.rects[0].x0 == last.rects[3].x1 && t.rects[1].x0 == last.rects[7].x1
      && t.rects[0] == Shift(Cell(p).rects[0], DriftStart(p) - p.margin - p.interMagnet)
      && t.rects[1] == Mirror(t.rects[0])
      && AtCentre(t.labels[0], t.rects[0]) && AtCentre(t.labels[1], t.rects[1])
      && t.labels[0].angle == TopAngles[0] && t.labels[1].angle == BottomAngles[0]
  {
    var n, og := p.numRepeats, Pitch(p);
    LatticeRect(p, n, 3);
    LatticeRect(p, n, 7);
    CellRows(p);
    RowSpacing(p);
    TopRowIntervals(p);
    TotalLengthIsOffset(p);
    EndsAgree(p);
  }

  /** A trailing drift block lies beyond every lattice block along the beam. */
  lemma TrailingPairDisjoint(p: Config, k: nat, a: nat, b: nat)
    requires Sane(p) && k <= p.numRepeats && a < 8 && b < 2
    ensures |CellCopies(p)| == p.numRepeats + 1 && |CellCopies(p)[k].rects| == 8
    ensures Disjoint(CellCopies(p)[k].rects[a], TrailingDrift(p).rects[b])
    ensures Disjoint(TrailingDrift(p).rects[b], CellCopies(p)[k].rects[a])
  {
    LatticeBlockSpan(p, k, a);
    EndsAgree(p);
  }

  /** The trailing drift blocks overlap neither each other nor any lattice block. */
  lemma DeviceBlocksDisjoint(p: Config)
    requires Sane(p)
    ensures AllDisjoint(CellCopies(p) + [TrailingDrift(p)])
  {
    var copies, t := CellCopies(p), TrailingDrift(p);
    LatticeDisjoint(p);
    forall k, a, b | 0 <= k < |copies| && 0 <= a < |copies[k].rects| && 0 <= b < |t.rects|
      ensures Disjoint(copies[k].rects[a], t.rects[b])
    {
      TrailingPairDisjoint(p, k, a, b);
    }
    AppendDisjoint(copies, t);
  }

  /** The right end of the steel yoke: n + 1 cell lengths, both margins and one
      odd length. */
  function SteelRight(p: Config): real {
    (p.numRepeats + 1) as real * CellSpan(p) + 2.0 * p.margin + OddLength(p)
  }

  /** The scripts compute the end of the lattice twice, as `lengthtotal` (pitch
      times n + 1) and as n + 1 times the written-out cell length; the two agree,
      so the trailing drift starts, and the yoke and centre line end, in the
      places the lattice fixes. */
  lemma EndsAgree(p: Config)
    ensures DriftStart(p) == TotalLength(p) + p.margin
    ensures SteelRight(p) == TotalLength(p) + 2.0 * p.margin + OddLength(p)
    ensures CentreLine(p).to.x == SteelRight(p)
  {
    assert CellSpan(p) == Pitch(p);
  }

  /** The steel return yoke: a band of thickness steelThick on the outer side of
      each row, from the margin to SteelRight. The scripts draw its lines whatever
      steelThick is. */
  function Steel(p: Config): seq<Rect> {
    var inner := p.magnetSep + p.magnetWidth;
    [Rect(p.margin, SteelRight(p), inner, inner + p.steelThick),
     Rect(p.margin, SteelRight(p), -inner - p.steelThick, -inner)]
  }

  /** The steel labels, added only when steelThick > 0. */
  function SteelLabels(p: Config): seq<Label> {
    var x, mid := p.margin + p.interMagnet + p.magnetLength, p.magnetSep + p.magnetWidth + 0.5 * p.steelThick;
    if p.steelThick > 0.0 then
      [Label(x, mid, 0, p.steelMaterial), Label(x, -p.magnetSep - p.magnetWidth - 0.5 * p.steelThick, 0, p.steelMaterial)]
    else []
  }

  /** The yoke wraps one block: the block lies within the yoke's span along the
      beam, overlaps neither band, and touches the band on its own side. */
  predicate Wrapped(r: Rect, s: seq<Rect>)
    requires |s| == 2
  {
    && s[0].x0 <= r.x0 && r.x1 <= s[0].x1
    && Disjoint(r, s[0]) && Disjoint(r, s[1])
    && (r.y1 == s[0].y0 || r.y0 == s[1].y1)
  }

  lemma SteelWrapsCopyBlock(p: Config, k: nat, a: nat)
    requires Sane(p) && k <= p.numRepeats && a < 8
    ensures |CellCopies(p)| == p.numRepeats + 1 && |CellCopies(p)[k].rects| == 8
    ensures Wrapped(CellCopies(p)[k].rects[a], Steel(p))
  {
    LatticeBlockBounds(p, k, a);
    TotalLengthAtLeastPitch(p);
    EndsAgree(p);
  }

  lemma SteelWrapsTrailingBlock(p: Config, b: nat)
    requires Sane(p) && b < 2
    ensures Wrapped(TrailingDrift(p).rects[b], Steel(p))
  {
    TotalLengthAtLeastPitch(p);
    EndsAgree(p);
  }

  /** The yoke wraps the magnets: every lattice and trailing block lies within the
      yoke's span along the beam and overlaps neither band, and every top-row block
      touches the upper band (every bottom-row block the lower one). The trailing
      block ends one margin short of the yoke's end. */
  lemma SteelWrapsMagnets(p: Config)
    requires Sane(p)
    ensures var ds := CellCopies(p) + [TrailingDrift(p)];
      forall k, a :: 0 <= k < |ds| && 0 <= a < |ds[k].rects| ==> Wrapped(ds[k].rects[a], Steel(p))
    ensures TrailingDrift(p).rects[0].x1 + p.margin == SteelRight(p)
  {
    var ds := CellCopies(p) + [TrailingDrift(p)];
    EndsAgree(p);
    forall k, a | 0 <= k < |ds| && 0 <= a < |ds[k].rects|
      ensures Wrapped(ds[k].rects[a], Steel(p))
    {
      if k <= p.numRepeats {
        assert ds[k] == CellCopies(p)[k];
        SteelWrapsCopyBlock(p, k, a);
      } else {
        assert ds[k] == TrailingDrift(p);
        SteelWrapsTrailingBlock(p, a);
      }
    }
  }

  /** The steel labels exist exactly when steelThick > 0, and then each sits
      inside its band, clear of every magnet row. */
  lemma SteelLabelsInBands(p: Config)
    requires Sane(p)
    ensures |SteelLabels(p)| > 0 <==> p.steelThick > 0.0
    ensures p.steelThick > 0.0 ==> Marks(SteelLabels(p)[0], Steel(p)[0]) && Marks(SteelLabels(p)[1], Steel(p)[1])
  {
    TotalLengthAtLeastPitch(p);
    EndsAgree(p);
  }

  /** `mi_addnode` pair on the beam axis: from the origin to the yoke's right end. */
  function CentreLine(p: Config): Segment {
    Segment(Point(0.0, 0.0), Point(TotalLength(p) + 2.0 * p.margin + OddLength(p), 0.0))
  }

  /** The boundary box: boundHoriz beyond the cells and margins along the beam
      (without the trailing drift length), four block heights above and below. */
  function Boundary(p: Config): Rect {
    Rect(-p.boundHoriz, TotalLength(p) + 2.0 * p.margin + p.boundHoriz, -4.0 * p.magnetWidth, 4.0 * p.magnetWidth)
  }

  /** The centre line ends where the yoke ends. Its right node is never in the
      selection box; its left node (0, 0) is, on the box's left edge, exactly
      when the margin is 0, and is then copied to (k * og_thickness, 0). */
  lemma CentreLineSpansYoke(p: Config)
    requires Sane(p)
    ensures CentreLine(p).to.x == SteelRight(p)
    ensures In(CentreLine(p).from.x, 0.0, SelectionBox(p)) <==> p.margin == 0.0
    ensures !In(CentreLine(p).to.x, 0.0, SelectionBox(p))
  {
    TotalLengthAtLeastPitch(p);
    EndsAgree(p);
  }

  /** The box is exactly four block heights tall on each side; it holds the yoke
      vertically iff the yoke's outer edge is within that height, on the right iff
      boundHoriz is at least the odd length (the box ignores the trailing drift),
      and on the left iff boundHoriz is at least minus the margin. */
  lemma BoundaryAroundYoke(p: Config)
    requires Sane(p)
    ensures Boundary(p).y1 == 4.0 * p.magnetWidth && Boundary(p).y0 == -Boundary(p).y1
    ensures Contains(Boundary(p), Steel(p)[0]) <==>
      (p.magnetSep + p.magnetWidth + p.steelThick <= 4.0 * p.magnetWidth
       && OddLength(p) <= p.boundHoriz && -p.boundHoriz <= p.margin)
    ensures Contains(Boundary(p), Steel(p)[0]) <==> Contains(Boundary(p), Steel(p)[1])
    ensures Boundary(p).x1 > SteelRight(p) <==> p.boundHoriz > OddLength(p)
  {
    TotalLengthAtLeastPitch(p);
    EndsAgree(p);
  }

  /** Along the beam the boundary lies outside the selection box exactly when
      boundHoriz exceeds minus the margin: the left edge is then left of the box,
      and the right edge, n pitches and a margin further on, right of it. */
  lemma BoundaryOutsideSelection(p: Config)
    requires Sane(p)
    ensures Boundary(p).x0 < SelectionBox(p).x0 <==> p.boundHoriz > -p.margin
    ensures p.boundHoriz > -p.margin ==> Boundary(p).x1 > SelectionBox(p).x1
  {
    TotalLengthAtLeastPitch(p);
    EndsAgree(p);
  }

  /** The catch-all air label at (10, 0). */
  function AirLabel(p: Config): Label {
    Label(10.0, 0.0, 0, AirMaterial)
  }

  /** The air label is on the beam axis, so it marks no magnet block and no steel
      band; with a positive magnetSep it is not even on a block's edge. */
  lemma AirLabelOutsideMagnets(p: Config)
    requires Sane(p)
    ensures var ds := CellCopies(p) + [TrailingDrift(p)];
      forall k, a :: 0 <= k < |ds| && 0 <= a < |ds[k].rects| ==>
        !Marks(AirLabel(p), ds[k].rects[a])
        && (p.magnetSep > 0.0 ==> !In(AirLabel(p).x, AirLabel(p).y, ds[k].rects[a]))
    ensures forall i :: 0 <= i < 2 ==> !Marks(AirLabel(p), Steel(p)[i])
  {
    var ds := CellCopies(p) + [TrailingDrift(p)];
    forall k, a | 0 <= k < |ds| && 0 <= a < |ds[k].rects|
      ensures !Marks(AirLabel(p), ds[k].rects[a])
      ensures p.magnetSep > 0.0 ==> !In(AirLabel(p).x, AirLabel(p).y, ds[k].rects[a])
    {
      if k <= p.numRepeats {
        LatticeBlockBounds(p, k, a);
        assert ds[k] == CellCopies(p)[k];
      }
    }
  }

  /** Every label of every copy marks its own block and no other. */
  lemma LatticeLabelsIdentifyBlocks(p: Config)
    requires Sane(p)
    ensures forall k, i, j :: 0 <= k <= p.numRepeats && 0 <= i < 8 && 0 <= j < 8 ==>
      (Marks(CellCopies(p)[k].labels[i], CellCopies(p)[k].rects[j]) <==> i == j)
  {
    LabelsIdentifyBlocks(p);
    var c := Cell(p);
    forall k, i, j | 0 <= k <= p.numRepeats && 0 <= i < 8 && 0 <= j < 8
      ensures Marks(CellCopies(p)[k].labels[i], CellCopies(p)[k].rects[j]) <==> i == j
    {
      ShiftIsRigid(c.rects[j], c.rects[j], c.labels[i], Offset(k, Pitch(p)));
    }
  }

  /** Everything the script emits, apart from the solver calls. */
  datatype Device = Device(
    boundary: Rect,
    axis: Segment,
    lattice: seq<Drawing>,
    trailing: Drawing,
    steel: seq<Rect>,
    steelLabels: seq<Label>,
    air: Label)

  function Build(p: Config): Device {
    Device(Boundary(p), CentreLine(p), Lattice(p), TrailingDrift(p), Steel(p), SteelLabels(p), AirLabel(p))
  }

  /** What a sound drawing of the device looks like, independently of how it is
      built: no two magnet blocks overlap, the yoke wraps every block, the air
      label marks no block, every steel label marks its own band, and the centre
      line ends where the yoke does. */
  predicate WellBuilt(d: Device) {
    var blocks := d.lattice + [d.trailing];
    && |d.steel| == 2
    && |d.steelLabels| <= 2
    && AllDisjoint(blocks)
    && (forall k, a :: 0 <= k < |blocks| && 0 <= a < |blocks[k].rects| ==>
          Wrapped(blocks[k].rects[a], d.steel) && !Marks(d.air, blocks[k].rects[a]))
    && (forall i :: 0 <= i < |d.steelLabels| ==> Marks(d.steelLabels[i], d.steel[i]))
    && d.axis.to.x == d.steel[0].x1
  }

  /** The device with the lattice written as the copies of the cell. */
  lemma CopiesWellBuilt(p: Config, d: Device)
    requires Sane(p)
    requires d == Device(Boundary(p), CentreLine(p), CellCopies(p), TrailingDrift(p), Steel(p), SteelLabels(p), AirLabel(p))
    ensures WellBuilt(d)
  {
    assert d.lattice + [d.trailing] == CellCopies(p) + [TrailingDrift(p)];
    assert d.steel == Steel(p) && d.air == AirLabel(p) && d.steelLabels == SteelLabels(p);
    DeviceBlocksDisjoint(p);
    SteelWrapsMagnets(p);
    AirLabelOutsideMagnets(p);
    SteelLabelsInBands(p);
    EndsAgree(p);
  }

  /** Every sane configuration yields a sound drawing. */
  lemma BuildIsWellBuilt(p: Config)
    requires Sane(p)
    ensures WellBuilt(Build(p))
  {
    SelectionCoversCell(p);
    CopiesWellBuilt(p, Build(p));
  }
}
