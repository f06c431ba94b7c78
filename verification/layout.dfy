/** The parameters of the drift-interleaved Halbach wiggler (the layout of
    wiggler_5_readingout.py, wiggler_4_changing_materials.py and
    wiggler_attempt2_usingmadxspec.py) and the geometry of one cell: four blocks
    above the beam axis (odd, full, odd, full along the beam), four below, and one
    label per block carrying its magnetisation angle. */
module Layout {
  import opened Geometry

  /** The numbers set at the top of a script. Lengths are in drawing units. */
  datatype Config = Config(
    magnetWidth: real,     // block height, across the beam
    magnetLength: real,    // length of a full block, along the beam
    drift: real,           // Ldrift
    magnetSep: real,       // half the vertical gap between the two rows
    steelThick: real,      // thickness of the steel return yoke
    interMagnet: real,     // air gap between neighbouring blocks
    margin: real,
    boundHoriz: real,      // horizontal clearance of the boundary box
    numRepeats: nat,
    magnetMaterial: string,
    steelMaterial: string)

  /** `oddmagnetLength`: the length of the drift-derived short blocks. */
  function OddLength(p: Config): real {
    p.drift - 2.0 * p.interMagnet
  }

  /** `og_thickness`: the length of one cell, which is also the copy pitch. */
  function Pitch(p: Config): real {
    2.0 * p.magnetLength + 2.0 * OddLength(p) + 4.0 * p.interMagnet
  }

  /** `lengthtotal`: the length of the original cell and its copies. */
  function TotalLength(p: Config): real {
    Pitch(p) * (p.numRepeats + 1) as real
  }

  /** The pitch does not depend on the inter-magnet gap: the gaps are taken out of
      the drift length. */
  lemma PitchIsTwoMagnetsTwoDrifts(p: Config)
    ensures Pitch(p) == 2.0 * p.magnetLength + 2.0 * p.drift
    ensures p.interMagnet == 0.0 ==> OddLength(p) == p.drift
  {
  }

  /** The parameter ranges the layout is meant for. The scripts never check them;
      the properties below say what each one buys. */
  predicate Sane(p: Config) {
    && p.magnetWidth > 0.0
    && p.magnetLength > 0.0
    && OddLength(p) > 0.0
    && p.interMagnet >= 0.0
    && p.magnetSep >= 0.0
    && p.steelThick >= 0.0
    && p.margin >= 0.0
  }

  /** Magnetisation angles (degrees) of the blocks of each row, in beam order. */
  const TopAngles: seq<int> := [0, -90, 180, 90]
  const BottomAngles: seq<int> := [180, -90, 0, 90]

  /** The Halbach pattern: the full-length blocks point the same way in both rows,
      the odd blocks point opposite ways, and along a row the direction turns by a
      quarter turn from block to block. */
  lemma HalbachAngles()
    ensures TopAngles[1] == BottomAngles[1] && TopAngles[3] == BottomAngles[3]
    ensures (TopAngles[0] - BottomAngles[0]) % 360 == 180 && (TopAngles[2] - BottomAngles[2]) % 360 == 180
    ensures forall i, j :: 0 <= i && j == i + 1 < 4 ==> (TopAngles[j] - TopAngles[i]) % 180 == 90
  {
  }

  /** The y-centre of the upper row. */
  function UpperY(p: Config): real {
    p.magnetWidth / 2.0 + p.magnetSep
  }

  /** One row of four blocks drawn with drawoddMagnet / drawMagnet at the x-centres
      the scripts write out, with the given y-centres. */
  function Row(p: Config, c1: real, c2: real, c3: real, c4: real): seq<Rect> {
    var odd, len, gap, w := OddLength(p), p.magnetLength, p.interMagnet, p.magnetWidth;
    [ CenteredRect(odd / 2.0 + gap + p.margin, c1, odd, w),
      CenteredRect(len / 2.0 + odd + 2.0 * gap + p.margin, c2, len, w),
      CenteredRect(odd / 2.0 + len + odd + 3.0 * gap + p.margin, c3, odd, w),
      CenteredRect(len / 2.0 + odd + len + odd + 4.0 * gap + p.margin, c4, len, w) ]
  }

  function TopRow(p: Config): seq<Rect> {
    var y := UpperY(p);
    Row(p, y, y, y, y)
  }

  function BottomRow(p: Config): seq<Rect> {
    var y := -UpperY(p);
    Row(p, y, y, y, y)
  }

  /** The four labels of one row at height y, with the x-coordinates the scripts
      write for the 1st .. 4th block. */
  function RowLabels(p: Config, y: real, angles: seq<int>): seq<Label>
    requires |angles| == 4
  {
    var odd, len, gap, m := OddLength(p), p.magnetLength, p.interMagnet, p.margin;
    [ Label(0.5 * odd + gap + m, y, angles[0], p.magnetMaterial),
      Label(0.5 * len + 1.0 * odd + 2.0 * gap + m, y, angles[1], p.magnetMaterial),
      Label(1.0 * len + 1.5 * odd + 3.0 * gap + m, y, angles[2], p.magnetMaterial),
      Label(1.5 * len + 2.0 * odd + 4.0 * gap + m, y, angles[3], p.magnetMaterial) ]
  }

  /** The eight block labels, in beam order, top row first. The scripts add each
      row's labels from the 4th block back to the 1st; the order does not matter
      to the drawing. */
  function Labels(p: Config): seq<Label> {
    RowLabels(p, p.magnetSep + p.magnetWidth / 2.0, TopAngles)
      + RowLabels(p, -(p.magnetSep + p.magnetWidth / 2.0), BottomAngles)
  }

  /** One cell: rectangles 0..3 are the top row and 4..7 the bottom row, each in
      beam order, and label i names rectangle i. The bottom row is the top row
      reflected across the beam axis, every label sits at the centre of its block
      and carries the magnet material, and the angles follow the Halbach tables. */
  function Cell(p: Config): (c: Drawing)
    ensures |c.rects| == 8 && |c.labels| == 8
    ensures forall i :: 0 <= i < 4 ==> c.rects[i + 4] == Mirror(c.rects[i])
    ensures forall i :: 0 <= i < 8 ==> AtCentre(c.labels[i], c.rects[i]) && c.labels[i].material == p.magnetMaterial
    ensures forall i :: 0 <= i < 4 ==> c.labels[i].angle == TopAngles[i] && c.labels[i + 4].angle == BottomAngles[i]
  {
    Drawing(TopRow(p) + BottomRow(p), Labels(p))
  }

  /** Rectangles 0..3 of a cell are the top row, 4..7 the bottom row. */
  lemma CellRows(p: Config)
    ensures |Cell(p).rects| == 8
    ensures forall i :: 0 <= i < 4 ==> Cell(p).rects[i] == TopRow(p)[i] && Cell(p).rects[i + 4] == BottomRow(p)[i]
  {
  }

  /** The block lengths of a row in beam order: odd, full, odd, full. */
  function RowLengths(p: Config): seq<real> {
    [OddLength(p), p.magnetLength, OddLength(p), p.magnetLength]
  }

  /** A row drawn at the scripts' closed-form centres is the cursor row in the
      same y-band. */
  lemma {:induction false} RowIsCursorRow(p: Config, y0: real, y1: real)
    requires y1 - y0 == p.magnetWidth
    ensures var c := (y0 + y1) / 2.0;
      Row(p, c, c, c, c) == RowFrom(p.margin, RowLengths(p), p.interMagnet, y0, y1)
  {
    var c := (y0 + y1) / 2.0;
    var row := Row(p, c, c, c, c);
    var r := RowFrom(p.margin, RowLengths(p), p.interMagnet, y0, y1);
    assert r[0] == row[0];
    assert r[1].x0 == r[0].x1 + p.interMagnet;
    assert r[1] == row[1];
    assert r[2].x0 == r[1].x1 + p.interMagnet;
    assert r[2] == row[2];
    assert r[3].x0 == r[2].x1 + p.interMagnet;
    assert r[3] == row[3];
  }

  /** The closed-form block positions agree with the generic cursor layout: start
      at the margin and, for each block, skip one gap and then the block. */
  lemma TopRowIsCursorRow(p: Config)
    ensures TopRow(p) == RowFrom(p.margin, RowLengths(p), p.interMagnet, p.magnetSep, p.magnetSep + p.magnetWidth)
  {
    var top := (p.magnetSep + (p.magnetSep + p.magnetWidth)) / 2.0;
    assert top == UpperY(p);
    assert TopRow(p) == Row(p, top, top, top, top);
    RowIsCursorRow(p, p.magnetSep, p.magnetSep + p.magnetWidth);
  }

  lemma BottomRowIsCursorRow(p: Config)
    ensures BottomRow(p) == RowFrom(p.margin, RowLengths(p), p.interMagnet, -(p.magnetSep + p.magnetWidth), -p.magnetSep)
  {
    var bottom := (-(p.magnetSep + p.magnetWidth) + -p.magnetSep) / 2.0;
    assert bottom == -UpperY(p);
    assert BottomRow(p) == Row(p, bottom, bottom, bottom, bottom);
    RowIsCursorRow(p, -(p.magnetSep + p.magnetWidth), -p.magnetSep);
  }

  /** Consecutive blocks of a row are exactly one inter-magnet gap apart, the row
      starts one gap after the margin and ends one pitch after the margin. */
  lemma RowSpacing(p: Config)
    ensures forall i, j :: 0 <= i && j == i + 1 < 4 ==> TopRow(p)[j].x0 - TopRow(p)[i].x1 == p.interMagnet
    ensures forall i, j :: 0 <= i && j == i + 1 < 4 ==> BottomRow(p)[j].x0 - BottomRow(p)[i].x1 == p.interMagnet
    ensures TopRow(p)[0].x0 == p.margin + p.interMagnet && TopRow(p)[3].x1 == p.margin + Pitch(p)
  {
    TopRowIsCursorRow(p);
    BottomRowIsCursorRow(p);
  }

  /** The top-row intervals along the beam, written out. */
  lemma TopRowIntervals(p: Config)
    ensures var t, odd, len, gap, m := TopRow(p), OddLength(p), p.magnetLength, p.interMagnet, p.margin;
      && t[0].x0 == m + gap && t[0].x1 == m + gap + odd
      && t[1].x0 == m + odd + 2.0 * gap && t[1].x1 == m + odd + 2.0 * gap + len
      && t[2].x0 == m + len + odd + 3.0 * gap && t[2].x1 == m + len + 2.0 * odd + 3.0 * gap
      && t[3].x0 == m + len + 2.0 * odd + 4.0 * gap && t[3].x1 == m + Pitch(p)
    ensures forall i :: 0 <= i < 4 ==> TopRow(p)[i].y0 == p.magnetSep && TopRow(p)[i].y1 == p.magnetSep + p.magnetWidth
  {
  }

  /** Every block of the cell lies in the strip [margin + gap, margin + pitch] along
      the beam and within magnetSep + magnetWidth of the axis, at least magnetSep
      away from it. */
  lemma CellExtent(p: Config)
    requires Sane(p)
    ensures forall i :: 0 <= i < 8 ==>
      var r := Cell(p).rects[i];
      && p.margin + p.interMagnet <= r.x0 && r.x1 <= p.margin + Pitch(p)
      && -(p.magnetSep + p.magnetWidth) <= r.y0 && r.y1 <= p.magnetSep + p.magnetWidth
      && (r.y0 >= p.magnetSep || r.y1 <= -p.magnetSep)
      && WellFormed(r)
  {
    RowSpacing(p);
  }

  /** The cell's rows occupy the bands [magnetSep, magnetSep + magnetWidth] and
      its mirror image. */
  lemma CellBands(p: Config)
    ensures forall i :: 0 <= i < 4 ==> Cell(p).rects[i].y0 == p.magnetSep && Cell(p).rects[i].y1 == p.magnetSep + p.magnetWidth
    ensures forall i :: 4 <= i < 8 ==> Cell(p).rects[i].y0 == -(p.magnetSep + p.magnetWidth) && Cell(p).rects[i].y1 == -p.magnetSep
  {
    CellRows(p);
    TopRowIntervals(p);
  }

  /** Each row of a sane cell is pairwise disjoint, because it is a cursor row
      with a non-negative gap. */
  lemma TopRowDisjoint(p: Config)
    requires Sane(p)
    ensures PairwiseDisjoint(TopRow(p))
  {
    var lengths := RowLengths(p);
    assert forall i :: 0 <= i < |lengths| ==> lengths[i] >= 0.0;
    TopRowIsCursorRow(p);
    RowFromDisjoint(p.margin, lengths, p.interMagnet, p.magnetSep, p.magnetSep + p.magnetWidth);
  }

  lemma BottomRowDisjoint(p: Config)
    requires Sane(p)
    ensures PairwiseDisjoint(BottomRow(p))
  {
    var lengths := RowLengths(p);
    assert forall i :: 0 <= i < |lengths| ==> lengths[i] >= 0.0;
    BottomRowIsCursorRow(p);
    RowFromDisjoint(p.margin, lengths, p.interMagnet, -(p.magnetSep + p.magnetWidth), -p.magnetSep);
  }

  /** For a sane configuration the eight blocks of a cell are pairwise disjoint. */
  lemma CellDisjoint(p: Config)
    requires Sane(p)
    ensures PairwiseDisjoint(Cell(p).rects)
  {
    TopRowDisjoint(p);
    BottomRowDisjoint(p);
    var rs := Cell(p).rects;
    var top, bottom := TopRow(p), BottomRow(p);
    assert forall i :: 0 <= i < 4 ==> rs[i] == top[i] && rs[i + 4] == bottom[i];
    forall i, j | 0 <= i < j < 8
      ensures Disjoint(rs[i], rs[j])
    {
      if j < 4 {
        assert Disjoint(top[i], top[j]);
      } else if i >= 4 {
        assert Disjoint(bottom[i - 4], bottom[j - 4]);
      } else {
        assert bottom[j - 4].y1 <= top[i].y0;
      }
    }
  }

  /** Neighbouring blocks meet without overlapping exactly when the gap is not
      negative (for blocks of positive size that the gap does not push past each
      other): a negative inter-magnet gap makes the first two blocks overlap. */
  lemma NeighboursDisjointIff(p: Config)
    requires p.magnetWidth > 0.0
    requires OddLength(p) + p.interMagnet + p.magnetLength > 0.0
    ensures Disjoint(TopRow(p)[0], TopRow(p)[1]) <==> p.interMagnet >= 0.0
  {
  }

  /** With no inter-magnet gap neighbouring blocks share an edge. */
  lemma NoGapSharesEdges(p: Config)
    requires p.interMagnet == 0.0
    ensures forall i, j :: 0 <= i && j == i + 1 < 4 ==> TopRow(p)[i].x1 == TopRow(p)[j].x0
    ensures forall i, j :: 0 <= i && j == i + 1 < 4 ==> BottomRow(p)[i].x1 == BottomRow(p)[j].x0
  {
    RowSpacing(p);
  }

  /** The scripts never check the odd length: a drift shorter than two gaps turns
      the first block inside out. */
  lemma OddBlockWellFormedIff(p: Config)
    requires p.magnetWidth >= 0.0
    ensures WellFormed(TopRow(p)[0]) <==> OddLength(p) >= 0.0
  {
  }

  /** In a sane cell every label lies inside its own block and inside no other, so
      each block gets exactly one magnetisation direction. */
  lemma LabelsIdentifyBlocks(p: Config)
    requires Sane(p)
    ensures forall i, j :: 0 <= i < 8 && 0 <= j < 8 ==> (Marks(Cell(p).labels[i], Cell(p).rects[j]) <==> i == j)
  {
    var c := Cell(p);
    CellDisjoint(p);
    forall i | 0 <= i < 8
      ensures forall j :: 0 <= j < 8 ==> (Marks(c.labels[i], c.rects[j]) <==> i == j)
    {
      LabelMarksBlock(p, c, i);
      MarksOne(c.labels[i], c.rects, i);
    }
  }

  /** A label at the centre of its block is strictly inside it. */
  lemma LabelMarksBlock(p: Config, c: Drawing, i: nat)
    requires Sane(p) && c == Cell(p) && i < 8
    ensures |c.rects| == 8 && |c.labels| == 8
    ensures Marks(c.labels[i], c.rects[i])
  {
    CellExtent(p);
    assert AtCentre(c.labels[i], c.rects[i]);
  }
}
