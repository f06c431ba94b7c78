/** wiggler_attempt1_pyfemm.py: the older square-magnet layout. Four square
    blocks of side magnetThick per row, centred on x = 0, with an inter-magnet gap
    before each block that the script outlines with closing lines (and fills with
    air labels when the gap is positive), a steel band on the outer side of each
    row, a boundary box 0.1 outside the cells, and copies one pitch apart, the
    pitch leaving 0.2 of slack between neighbouring cells. */
module Attempt1 {
  import opened Geometry
  import opened Tiling
  import Layout

  /** The numbers at the top of the script. `depth` is the magnetLength handed to
      the problem definition as the planar depth; it plays no part in the layout. */
  datatype SquareConfig = SquareConfig(
    magnetThick: real,    // side of a square block
    depth: real,
    magnetSep: real,      // half the vertical gap between the two rows
    steelThick: real,
    interMagnet: real,    // gap before each block
    numRepeats: nat,
    magnetMaterial: string,
    steelMaterial: string)

  /** The parameter ranges the layout is meant for; the script never checks them. */
  predicate Sane(p: SquareConfig) {
    p.magnetThick > 0.0 && p.interMagnet >= 0.0 && p.magnetSep >= 0.0 && p.steelThick >= 0.0
  }

  /** The x of the left closing lines, one gap left of the first block. */
  function ClosureX(p: SquareConfig): real {
    -1.5 * p.magnetThick - 2.0 * p.interMagnet
  }

  /** The right edge of the last block, where the closing lines end. */
  function RightX(p: SquareConfig): real {
    2.5 * p.magnetThick + 2.0 * p.interMagnet
  }

  /** `left_edge`: 0.1 left of the closing lines. */
  function LeftEdge(p: SquareConfig): real {
    -1.5 * p.magnetThick - 2.0 * p.interMagnet - 0.1
  }

  /** `og_thickness`, the copy pitch. */
  function Pitch(p: SquareConfig): real {
    4.0 * p.magnetThick + 4.0 * p.interMagnet + 0.2
  }

  /** One row of the channel between the closing lines, from height y0 to y1:
      gap, block, gap, block, gap, block, gap, block. */
  function Channel(p: SquareConfig, y0: real, y1: real): seq<Rect> {
    var t, g := p.magnetThick, p.interMagnet;
    [ Rect(ClosureX(p), ClosureX(p) + g, y0, y1),  Rect(-1.5 * t - g, -0.5 * t - g, y0, y1),
      Rect(-0.5 * t - g, -0.5 * t, y0, y1),        Rect(-0.5 * t, 0.5 * t, y0, y1),
      Rect(0.5 * t, 0.5 * t + g, y0, y1),          Rect(0.5 * t + g, 1.5 * t + g, y0, y1),
      Rect(1.5 * t + g, 1.5 * t + 2.0 * g, y0, y1), Rect(1.5 * t + 2.0 * g, 2.5 * t + 2.0 * g, y0, y1) ]
  }

  /** The upper channel, from magnetSep to magnetSep + mT, and the lower one. */
  function TopChannel(p: SquareConfig): seq<Rect> {
    Channel(p, p.magnetSep, p.magnetSep + p.magnetThick)
  }

  function BottomChannel(p: SquareConfig): seq<Rect> {
    Channel(p, -(p.magnetSep + p.magnetThick), -p.magnetSep)
  }

  /** The x-centres `drawMagnet` is called with. */
  function Centres(p: SquareConfig): seq<real> {
    var t, g := p.magnetThick, p.interMagnet;
    [-(t + g), 0.0, t + g, 2.0 * t + 2.0 * g]
  }

  /** The blocks of the channels are the squares of side mT drawn at the
      x-centres above and at heights +-(mT / 2 + magnetSep). */
  lemma BlocksAreSquares(p: SquareConfig)
    ensures forall i :: 0 <= i < 4 ==>
      TopChannel(p)[2 * i + 1] == CenteredRect(Centres(p)[i], p.magnetThick / 2.0 + p.magnetSep, p.magnetThick, p.magnetThick)
      && BottomChannel(p)[2 * i + 1] == CenteredRect(Centres(p)[i], -p.magnetThick / 2.0 - p.magnetSep, p.magnetThick, p.magnetThick)
  {
  }

  /** The block and gap lengths along a channel. */
  function Lengths(p: SquareConfig): seq<real> {
    var t, g := p.magnetThick, p.interMagnet;
    [g, t, g, t, g, t, g, t]
  }

  /** The closed-form squares and gaps are the cursor row that starts at the
      closing line and lays gap, block, gap, block, ... with nothing between. */
  lemma {:induction false} ChannelIsCursorRow(p: SquareConfig, y0: real, y1: real)
    ensures Channel(p, y0, y1) == RowFrom(ClosureX(p), Lengths(p), 0.0, y0, y1)
  {
    var c := Channel(p, y0, y1);
    var r := RowFrom(ClosureX(p), Lengths(p), 0.0, y0, y1);
    assert r[0] == c[0];
    assert r[1].x0 == r[0].x1;
    assert r[1] == c[1];
    assert r[2].x0 == r[1].x1;
    assert r[2] == c[2];
    assert r[3].x0 == r[2].x1;
    assert r[3] == c[3];
    assert r[4].x0 == r[3].x1;
    assert r[4] == c[4];
    assert r[5].x0 == r[4].x1;
    assert r[5] == c[5];
    assert r[6].x0 == r[5].x1;
    assert r[6] == c[6];
    assert r[7].x0 == r[6].x1;
    assert r[7] == c[7];
  }

  /** Every block and gap of a channel spans the channel's height and lies
      between the closing line and the right edge. */
  lemma ChannelBounds(p: SquareConfig, y0: real, y1: real)
    requires Sane(p)
    ensures |Channel(p, y0, y1)| == 8
    ensures forall i :: 0 <= i < 8 ==>
      var r := Channel(p, y0, y1)[i];
      ClosureX(p) <= r.x0 <= r.x1 <= RightX(p) && r.y0 == y0 && r.y1 == y1
  {
  }

  /** Consecutive blocks are exactly one gap apart, the first one gap from the
      closing line, and the lower channel is the upper one reflected across the
      beam axis. */
  lemma ChannelShape(p: SquareConfig)
    ensures TopChannel(p)[1].x0 - ClosureX(p) == p.interMagnet
    ensures forall i :: 0 <= i < 3 ==> TopChannel(p)[2 * i + 3].x0 - TopChannel(p)[2 * i + 1].x1 == p.interMagnet
    ensures TopChannel(p)[1].x0 == -1.5 * p.magnetThick - p.interMagnet && TopChannel(p)[7].x1 == RightX(p)
    ensures forall i :: 0 <= i < 8 ==> BottomChannel(p)[i] == Mirror(TopChannel(p)[i])
  {
  }

  /** A channel's blocks and gaps do not overlap. */
  lemma ChannelDisjoint(p: SquareConfig, y0: real, y1: real)
    requires Sane(p)
    ensures PairwiseDisjoint(Channel(p, y0, y1))
  {
    var lengths := Lengths(p);
    assert forall i :: 0 <= i < |lengths| ==> lengths[i] >= 0.0;
    ChannelIsCursorRow(p, y0, y1);
    RowFromDisjoint(ClosureX(p), lengths, 0.0, y0, y1);
  }

  /** The steel bands: outside each channel, between the closing line and the
      right edge, steelThick thick. */
  function Bands(p: SquareConfig): seq<Rect> {
    var inner := p.magnetSep + p.magnetThick;
    [Rect(ClosureX(p), RightX(p), inner, inner + p.steelThick),
     Rect(ClosureX(p), RightX(p), -inner - p.steelThick, -inner)]
  }

  /** Every region the drawn lines enclose: the upper channel (indices 0..7),
      the lower channel (8..15) and the two bands (16, 17). Blocks sit at the odd
      indices below 16, gaps at the even ones. */
  function Regions(p: SquareConfig): seq<Rect> {
    TopChannel(p) + BottomChannel(p) + Bands(p)
  }

  /** The two channels lie on either side of the beam axis. */
  lemma ChannelsDisjoint(p: SquareConfig)
    requires Sane(p)
    ensures PairwiseDisjoint(TopChannel(p) + BottomChannel(p))
  {
    var top, bottom := TopChannel(p), BottomChannel(p);
    ChannelDisjoint(p, p.magnetSep, p.magnetSep + p.magnetThick);
    ChannelDisjoint(p, -(p.magnetSep + p.magnetThick), -p.magnetSep);
    ChannelBounds(p, p.magnetSep, p.magnetSep + p.magnetThick);
    ChannelBounds(p, -(p.magnetSep + p.magnetThick), -p.magnetSep);
    SeparatedByLine(top, bottom, 0.0);
    ConcatDisjoint(top, bottom);
  }

  /** Both channels lie between the closing line and the right edge and
      within one block height and separation of the beam axis. */
  lemma ChannelsBounds(p: SquareConfig, channels: seq<Rect>)
    requires Sane(p) && channels == TopChannel(p) + BottomChannel(p)
    ensures |channels| == 16
    ensures forall i :: 0 <= i < 16 ==>
      && ClosureX(p) <= channels[i].x0 && channels[i].x1 <= RightX(p)
      && -(p.magnetSep + p.magnetThick) <= channels[i].y0 && channels[i].y1 <= p.magnetSep + p.magnetThick
  {
    var top, bottom := TopChannel(p), BottomChannel(p);
    ChannelBounds(p, p.magnetSep, p.magnetSep + p.magnetThick);
    ChannelBounds(p, -(p.magnetSep + p.magnetThick), -p.magnetSep);
    forall i | 0 <= i < 16
      ensures ClosureX(p) <= channels[i].x0 && channels[i].x1 <= RightX(p)
      ensures -(p.magnetSep + p.magnetThick) <= channels[i].y0 && channels[i].y1 <= p.magnetSep + p.magnetThick
    {
      if i < 8 {
        assert channels[i] == top[i];
      } else {
        assert channels[i] == bottom[i - 8];
      }
    }
  }

  /** No two regions overlap, and all lie between the closing line and the
      right edge. */
  lemma RegionsDisjoint(p: SquareConfig)
    requires Sane(p)
    ensures |Regions(p)| == 18
    ensures PairwiseDisjoint(Regions(p))
    ensures forall i :: 0 <= i < 18 ==> ClosureX(p) <= Regions(p)[i].x0 && Regions(p)[i].x1 <= RightX(p)
  {
    var channels, bands := TopChannel(p) + BottomChannel(p), Bands(p);
    ChannelsDisjoint(p);
    ChannelsBounds(p, channels);
    assert Disjoint(bands[0], bands[1]);
    ConcatDisjoint(channels, bands);
    assert Regions(p) == channels + bands;
  }

  /** The eight magnet labels in x-order, top row first, with the positions and
      angles the script gives them. The second top label sits at x = -0.5, off
      the centre of its block. */
  function MagnetLabels(p: SquareConfig): seq<Label> {
    var t, g, m := p.magnetThick, p.interMagnet, p.magnetMaterial;
    var y := p.magnetSep + t / 2.0;
    [ Label(-t - g, y, 0, m), Label(-0.5, y, -90, m), Label(t + g, y, 180, m), Label(2.0 * t + 2.0 * g, y, 90, m),
      Label(-t - g, -p.magnetSep - t / 2.0, 180, m), Label(0.0, -p.magnetSep - t / 2.0, -90, m),
      Label(t + g, -p.magnetSep - t / 2.0, 0, m), Label(2.0 * t + 2.0 * g, -p.magnetSep - t / 2.0, 90, m) ]
  }

  /** The angles are those of the later layout. */
  lemma AnglesMatchLaterLayout(p: SquareConfig)
    ensures forall i :: 0 <= i < 4 ==>
      MagnetLabels(p)[i].angle == Layout.TopAngles[i] && MagnetLabels(p)[i + 4].angle == Layout.BottomAngles[i]
  {
  }

  /** Magnet label i marks block i, region 2 i + 1, and no other region; for the
      off-centre second label that holds exactly when magnetThick > 1, i.e. when
      x = -0.5 is inside the central block. */
  lemma MagnetLabelsMarkBlocks(p: SquareConfig)
    requires Sane(p)
    ensures forall i :: 0 <= i < 8 && i != 1 ==> Marks(MagnetLabels(p)[i], Regions(p)[2 * i + 1])
    ensures Marks(MagnetLabels(p)[1], Regions(p)[3]) <==> p.magnetThick > 1.0
    ensures forall i, j :: 0 <= i < 8 && i != 1 && 0 <= j < 18 ==>
      (Marks(MagnetLabels(p)[i], Regions(p)[j]) <==> j == 2 * i + 1)
  {
    var rs, ls := Regions(p), MagnetLabels(p);
    RegionsDisjoint(p);
    assert rs[3] == TopChannel(p)[3];
    forall i | 0 <= i < 8 && i != 1
      ensures Marks(ls[i], rs[2 * i + 1])
      ensures forall j :: 0 <= j < 18 ==> (Marks(ls[i], rs[j]) <==> j == 2 * i + 1)
    {
      MagnetLabelMarksBlock(p, rs, ls, i);
    }
  }

  /** One centred magnet label. */
  lemma MagnetLabelMarksBlock(p: SquareConfig, rs: seq<Rect>, ls: seq<Label>, i: nat)
    requires Sane(p) && rs == Regions(p) && ls == MagnetLabels(p) && i < 8 && i != 1
    ensures |rs| == 18 && |ls| == 8
    ensures Marks(ls[i], rs[2 * i + 1])
    ensures forall j :: 0 <= j < 18 ==> (Marks(ls[i], rs[j]) <==> j == 2 * i + 1)
  {
    RegionsDisjoint(p);
    MagnetLabelCentred(p, i);
    if i < 4 {
      assert rs[2 * i + 1] == TopChannel(p)[2 * i + 1];
    } else {
      assert rs[2 * i + 1] == BottomChannel(p)[2 * i - 7];
    }
    MarksOne(ls[i], rs, 2 * i + 1);
  }

  /** Magnet label i (other than the off-centre second) at the centre of block i
      of its channel. */
  lemma MagnetLabelCentred(p: SquareConfig, i: nat)
    requires Sane(p) && i < 8 && i != 1
    ensures var c := if i < 4 then TopChannel(p)[2 * i + 1] else BottomChannel(p)[2 * i - 7];
      AtCentre(MagnetLabels(p)[i], c) && Marks(MagnetLabels(p)[i], c)
  {
  }

  /** The air labels of the gaps, added only when interMagnet > 0: one at the
      middle of each gap, top row then bottom row, in x-order. */
  function GapLabels(p: SquareConfig): seq<Label> {
    var t, g := p.magnetThick, p.interMagnet;
    var y := p.magnetSep + t / 2.0;
    var xs := [-1.5 * t - 1.5 * g, -0.5 * t - 0.5 * g, 0.5 * t + 0.5 * g, 1.5 * t + 1.5 * g];
    if g > 0.0 then
      [ Label(xs[0], y, 0, AirMaterial), Label(xs[1], y, 0, AirMaterial),
        Label(xs[2], y, 0, AirMaterial), Label(xs[3], y, 0, AirMaterial),
        Label(xs[0], -p.magnetSep - t / 2.0, 0, AirMaterial), Label(xs[1], -p.magnetSep - t / 2.0, 0, AirMaterial),
        Label(xs[2], -p.magnetSep - t / 2.0, 0, AirMaterial), Label(xs[3], -p.magnetSep - t / 2.0, 0, AirMaterial) ]
    else []
  }

  /** The gap labels exist exactly when interMagnet > 0; each sits at the centre
      of its gap (region 2 i) and is strictly inside no block or other region. */
  lemma GapLabelsMarkGaps(p: SquareConfig)
    requires Sane(p)
    ensures |GapLabels(p)| > 0 <==> p.interMagnet > 0.0
    ensures forall i :: 0 <= i < |GapLabels(p)| ==> |GapLabels(p)| == 8 && AtCentre(GapLabels(p)[i], Regions(p)[2 * i])
    ensures forall i, j :: 0 <= i < |GapLabels(p)| && 0 <= j < 18 ==>
      (Marks(GapLabels(p)[i], Regions(p)[j]) <==> j == 2 * i)
  {
    if p.interMagnet > 0.0 {
      var rs, ls := Regions(p), GapLabels(p);
      RegionsDisjoint(p);
      forall i | 0 <= i < 8
        ensures AtCentre(ls[i], rs[2 * i])
        ensures forall j :: 0 <= j < 18 ==> (Marks(ls[i], rs[j]) <==> j == 2 * i)
      {
        GapLabelMarksGap(p, rs, ls, i);
      }
    }
  }

  /** One gap label at the centre of its gap. */
  lemma GapLabelMarksGap(p: SquareConfig, rs: seq<Rect>, ls: seq<Label>, i: nat)
    requires Sane(p) && p.interMagnet > 0.0 && rs == Regions(p) && ls == GapLabels(p) && i < 8
    ensures |rs| == 18 && |ls| == 8
    ensures AtCentre(ls[i], rs[2 * i])
    ensures forall j :: 0 <= j < 18 ==> (Marks(ls[i], rs[j]) <==> j == 2 * i)
  {
    RegionsDisjoint(p);
    GapLabelCentred(p, i);
    if i < 4 {
      assert rs[2 * i] == TopChannel(p)[2 * i];
    } else {
      assert rs[2 * i] == BottomChannel(p)[2 * i - 8];
    }
    MarksOne(ls[i], rs, 2 * i);
  }

  /** Gap label i at the centre of gap i of its channel. */
  lemma GapLabelCentred(p: SquareConfig, i: nat)
    requires Sane(p) && p.interMagnet > 0.0 && i < 8
    ensures |GapLabels(p)| == 8
    ensures var c := if i < 4 then TopChannel(p)[2 * i] else BottomChannel(p)[2 * i - 8];
      AtCentre(GapLabels(p)[i], c) && Marks(GapLabels(p)[i], c)
  {
  }

  /** The steel labels, added only when steelThick > 0, at x = 0. */
  function SteelLabels(p: SquareConfig): seq<Label> {
    var mid := p.magnetSep + p.magnetThick + 0.5 * p.steelThick;
    if p.steelThick > 0.0 then
      [Label(0.0, mid, 0, p.steelMaterial), Label(0.0, -p.magnetSep - p.magnetThick - 0.5 * p.steelThick, 0, p.steelMaterial)]
    else []
  }

  /** The steel labels exist exactly when steelThick > 0, and each then marks its
      band (regions 16 and 17) and nothing else. */
  lemma SteelLabelsMarkBands(p: SquareConfig)
    requires Sane(p)
    ensures |SteelLabels(p)| > 0 <==> p.steelThick > 0.0
    ensures forall i, j :: 0 <= i < |SteelLabels(p)| && 0 <= j < 18 ==>
      (Marks(SteelLabels(p)[i], Regions(p)[j]) <==> j == 16 + i)
  {
    var rs, ls := Regions(p), SteelLabels(p);
    RegionsDisjoint(p);
    assert rs[16] == Bands(p)[0] && rs[17] == Bands(p)[1];
    forall i | 0 <= i < |ls|
      ensures forall j :: 0 <= j < 18 ==> (Marks(ls[i], rs[j]) <==> j == 16 + i)
    {
      MarksOne(ls[i], rs, 16 + i);
    }
  }

  /** The catch-all air label, on the centre line x = 0. */
  function AirLabel(p: SquareConfig): Label {
    Label(0.0, p.interMagnet / 2.0 + 1.8 * p.magnetThick, 0, AirMaterial)
  }

  /** The air label is clear of every block, gap and band exactly when its height
      is not strictly inside the upper channel or the upper band. */
  lemma AirLabelClearIff(p: SquareConfig)
    requires Sane(p)
    ensures var y, top := AirLabel(p).y, p.magnetSep + p.magnetThick;
      (forall j :: 0 <= j < 18 ==> !Marks(AirLabel(p), Regions(p)[j]))
      <==> (y <= p.magnetSep || y == top || top + p.steelThick <= y)
  {
    var rs, a := Regions(p), AirLabel(p);
    RegionHeights(p);
    var y, top := a.y, p.magnetSep + p.magnetThick;
    if p.magnetSep < y < top {
      assert Marks(a, rs[3]);
    } else if top < y < top + p.steelThick {
      assert Marks(a, rs[16]);
    } else {
      forall j | 0 <= j < 18
        ensures !Marks(a, rs[j])
      {
        if j < 8 {
          assert rs[j].y0 == p.magnetSep && rs[j].y1 == top;
        } else if j < 16 {
          assert rs[j].y1 == -p.magnetSep;
        }
      }
    }
  }

  /** The heights of the regions: the upper channel spans magnetSep to
      magnetSep + mT, the lower channel ends at -magnetSep, the bands sit
      outside; the central upper block spans x from -mT / 2 to mT / 2. */
  lemma RegionHeights(p: SquareConfig)
    ensures |Regions(p)| == 18
    ensures forall i :: 0 <= i < 8 ==>
      Regions(p)[i].y0 == p.magnetSep && Regions(p)[i].y1 == p.magnetSep + p.magnetThick
    ensures forall i :: 8 <= i < 16 ==>
      Regions(p)[i].y0 == -(p.magnetSep + p.magnetThick) && Regions(p)[i].y1 == -p.magnetSep
    ensures Regions(p)[16] == Bands(p)[0] && Regions(p)[17] == Bands(p)[1]
    ensures Regions(p)[3] == Rect(-0.5 * p.magnetThick, 0.5 * p.magnetThick, p.magnetSep, p.magnetSep + p.magnetThick)
  {
    var rs := Regions(p);
    assert forall i :: 0 <= i < 8 ==> rs[i] == TopChannel(p)[i] && rs[i + 8] == BottomChannel(p)[i];
  }

  /** Everything the script draws inside the copied rectangle. */
  function CellDrawing(p: SquareConfig): Drawing {
    Drawing(Regions(p), MagnetLabels(p) + [AirLabel(p)] + GapLabels(p) + SteelLabels(p))
  }

  /** The rectangle handed to `mi_selectrectangle`: 10 beyond the closing line,
      the last block and both yoke bands. */
  function SelectionBox(p: SquareConfig): Rect {
    var outer := p.magnetSep + p.magnetThick + p.steelThick + 10.0;
    Rect(-1.5 * p.magnetThick - 2.0 * p.interMagnet - 10.0, 2.5 * p.magnetThick + 2.0 * p.interMagnet + 10.0, -outer, outer)
  }

  /** Every label of a list lies in the box (edges included). */
  predicate LabelsIn(ls: seq<Label>, box: Rect) {
    forall i :: 0 <= i < |ls| ==> In(ls[i].x, ls[i].y, box)
  }

  lemma LabelsInAppend(a: seq<Label>, b: seq<Label>, box: Rect)
    requires LabelsIn(a, box) && LabelsIn(b, box)
    ensures LabelsIn(a + b, box)
  {
    assert forall i :: 0 <= i < |b| ==> (a + b)[|a| + i] == b[i];
  }

  /** The blocks, gaps and bands lie within the selection. */
  lemma RegionsInSelection(p: SquareConfig)
    requires Sane(p)
    ensures forall i :: 0 <= i < |Regions(p)| ==> Contains(SelectionBox(p), Regions(p)[i])
  {
    var rs, outer := Regions(p), p.magnetSep + p.magnetThick + p.steelThick;
    RegionsDisjoint(p);
    ChannelBounds(p, p.magnetSep, p.magnetSep + p.magnetThick);
    ChannelBounds(p, -(p.magnetSep + p.magnetThick), -p.magnetSep);
    assert forall i :: 0 <= i < 8 ==> rs[i] == TopChannel(p)[i] && rs[i + 8] == BottomChannel(p)[i];
    assert forall i :: 0 <= i < 18 ==> -outer <= rs[i].y0 && rs[i].y1 <= outer;
  }

  /** The magnet, gap and steel labels lie within the selection. */
  lemma LabelsInSelection(p: SquareConfig)
    requires Sane(p)
    ensures LabelsIn(MagnetLabels(p), SelectionBox(p))
    ensures LabelsIn(GapLabels(p), SelectionBox(p))
    ensures LabelsIn(SteelLabels(p), SelectionBox(p))
  {
  }

  /** The selection holds the whole drawing exactly when the air label is no
      more than 10 above the upper band. */
  lemma SelectionHoldsCellIff(p: SquareConfig)
    requires Sane(p)
    ensures Inside(CellDrawing(p), SelectionBox(p)) <==> AirLabel(p).y <= p.magnetSep + p.magnetThick + p.steelThick + 10.0
  {
    var d, box := CellDrawing(p), SelectionBox(p);
    var ml, gl, sl := MagnetLabels(p), GapLabels(p), SteelLabels(p);
    assert d.labels[8] == AirLabel(p);
    if AirLabel(p).y <= p.magnetSep + p.magnetThick + p.steelThick + 10.0 {
      RegionsInSelection(p);
      LabelsInSelection(p);
      assert LabelsIn([AirLabel(p)], box);
      LabelsInAppend(ml, [AirLabel(p)], box);
      LabelsInAppend(ml + [AirLabel(p)], gl, box);
      LabelsInAppend(ml + [AirLabel(p)] + gl, sl, box);
    }
  }

  /** The items already on the drawing when the script selects, besides the
      cell: the boundary segments (lines 81-88), the centre-line nodes (lines
      91-92) and the boundary corners, each as a degenerate rectangle (a segment
      or a point). In order: the left, right, top and bottom segments; the left
      and right axis nodes; the upper-left, lower-left, upper-right and
      lower-right corners. */
  function Frame(p: SquareConfig): seq<Rect> {
    var l, r, h := LeftEdge(p), Boundary(p).x1, 3.0 * p.magnetThick;
    [ Rect(l, l, -h, h), Rect(r, r, -h, h), Rect(l, r, h, h), Rect(l, r, -h, -h),
      Rect(l, l, 0.0, 0.0), Rect(r, r, 0.0, 0.0),
      Rect(l, l, h, h), Rect(l, l, -h, -h), Rect(r, r, h, h), Rect(r, r, -h, -h) ]
  }

  /** The drawing `mi_selectrectangle` works on: the frame, then the cell. */
  function WholeDrawing(p: SquareConfig): Drawing {
    Drawing(Frame(p) + Regions(p), CellDrawing(p).labels)
  }

  /** The frame items inside the selection box. */
  function SelectedFrame(p: SquareConfig): seq<Rect> {
    KeepRects(Frame(p), SelectionBox(p))
  }

  /** What the selection and copy leave on the drawing. */
  function Lattice(p: SquareConfig): seq<Drawing> {
    Tile(Select(WholeDrawing(p), SelectionBox(p)), Pitch(p), p.numRepeats)
  }

  /** The whole cell drawing and its copies. */
  function CellCopies(p: SquareConfig): seq<Drawing> {
    Tile(CellDrawing(p), Pitch(p), p.numRepeats)
  }

  /** Which frame items the box catches. The left axis node always: it is 0.1
      left of the cell and the box reaches 10 past it. The left segment and its
      corners exactly when the box reaches three block heights. The right-hand
      items, and the top and bottom segments that end there, only when n
      pitches come to at most 9.9, since the box ends 10 past the first cell. */
  lemma FrameSelection(p: SquareConfig)
    requires Sane(p)
    ensures |Frame(p)| == 10
    ensures var f, box, h := Frame(p), SelectionBox(p), 3.0 * p.magnetThick;
      && Contains(box, f[4])
      && (Contains(box, f[0]) <==> h <= box.y1)
      && (Contains(box, f[6]) <==> h <= box.y1)
      && (Contains(box, f[7]) <==> h <= box.y1)
    ensures var f, box, h, far := Frame(p), SelectionBox(p), 3.0 * p.magnetThick, p.numRepeats as real * Pitch(p);
      && (Contains(box, f[5]) <==> far <= 9.9)
      && (Contains(box, f[1]) <==> far <= 9.9 && h <= box.y1)
      && (Contains(box, f[2]) <==> far <= 9.9 && h <= box.y1)
      && (Contains(box, f[3]) <==> far <= 9.9 && h <= box.y1)
      && (Contains(box, f[8]) <==> far <= 9.9 && h <= box.y1)
      && (Contains(box, f[9]) <==> far <= 9.9 && h <= box.y1)
  {
    var n, og := p.numRepeats as real, Pitch(p);
    assert Boundary(p).x1 == og * (n + 1.0) + LeftEdge(p);
    assert og * (n + 1.0) == n * og + og;
  }

  /** When the selection holds the cell, it keeps the cell whole and the frame
      items inside the box. */
  lemma SelectWholeDrawing(p: SquareConfig)
    requires Sane(p) && AirLabel(p).y <= p.magnetSep + p.magnetThick + p.steelThick + 10.0
    ensures Select(WholeDrawing(p), SelectionBox(p)) == Drawing(SelectedFrame(p) + Regions(p), CellDrawing(p).labels)
  {
    SelectionHoldsCellIff(p);
    SelectWhole(CellDrawing(p), SelectionBox(p));
    KeepRectsAppend(Frame(p), Regions(p), SelectionBox(p));
  }

  /** When the selection holds the cell, copy k of the lattice is copy k of the
      cell together with the selected frame items, shifted by the same k pitches. */
  lemma LatticeIsCellCopies(p: SquareConfig, k: nat)
    requires Sane(p) && AirLabel(p).y <= p.magnetSep + p.magnetThick + p.steelThick + 10.0
    requires k <= p.numRepeats
    ensures |Lattice(p)| == |CellCopies(p)| == p.numRepeats + 1
    ensures Lattice(p)[k].rects == ShiftAll(SelectedFrame(p), Offset(k, Pitch(p))) + CellCopies(p)[k].rects
    ensures Lattice(p)[k].labels == CellCopies(p)[k].labels
  {
    var off := Offset(k, Pitch(p));
    SelectWholeDrawing(p);
    ShiftAllAppend(SelectedFrame(p), Regions(p), off);
  }

  /** Each copy of the left axis node (and of the left boundary segment, at the
      same x) falls in the 0.2 strip between two neighbouring cells, 0.1 from
      each, in both channels. */
  lemma FrameCopyInStrip(p: SquareConfig, k: nat)
    requires Sane(p) && 1 <= k <= p.numRepeats
    ensures |Frame(p)| == 10 && Frame(p)[0].x0 == Frame(p)[4].x0
    ensures |CellCopies(p)[k - 1].rects| == 18 && |CellCopies(p)[k].rects| == 18
    ensures var x := Shift(Frame(p)[4], Offset(k, Pitch(p))).x0;
      && CellCopies(p)[k - 1].rects[7].x1 + 0.1 == x && x + 0.1 == CellCopies(p)[k].rects[0].x0
      && CellCopies(p)[k - 1].rects[15].x1 + 0.1 == x && x + 0.1 == CellCopies(p)[k].rects[8].x0
  {
    var rs, og := Regions(p), Pitch(p);
    RegionsDisjoint(p);
    assert rs[0] == TopChannel(p)[0] && rs[7] == TopChannel(p)[7];
    assert rs[8] == BottomChannel(p)[0] && rs[15] == BottomChannel(p)[7];
    assert CellCopies(p)[k - 1].rects[7] == Shift(rs[7], Offset(k - 1, og));
    assert CellCopies(p)[k - 1].rects[15] == Shift(rs[15], Offset(k - 1, og));
    assert CellCopies(p)[k].rects[0] == Shift(rs[0], Offset(k, og));
    assert CellCopies(p)[k].rects[8] == Shift(rs[8], Offset(k, og));
    assert Offset(k, og) == Offset(k - 1, og) + og;
  }

  /** The cell is 4 mT + 4 iM wide, 0.2 less than the pitch, so no two regions
      of the copies overlap. */
  lemma CopiesDisjoint(p: SquareConfig)
    requires Sane(p)
    ensures Pitch(p) - (RightX(p) - ClosureX(p)) == 0.2
    ensures AllDisjoint(CellCopies(p))
  {
    RegionsDisjoint(p);
    TileDisjoint(CellDrawing(p), Pitch(p), p.numRepeats, ClosureX(p), RightX(p));
  }

  /** Between neighbouring copies there is a strip of 0.2 of unlabelled air. */
  lemma CopySlack(p: SquareConfig, k: nat)
    requires Sane(p) && k < p.numRepeats
    ensures |CellCopies(p)[k].rects| == 18 && |CellCopies(p)[k + 1].rects| == 18
    ensures CellCopies(p)[k + 1].rects[0].x0 - CellCopies(p)[k].rects[7].x1 == 0.2
  {
    var rs, og := Regions(p), Pitch(p);
    RegionsDisjoint(p);
    assert rs[0] == TopChannel(p)[0] && rs[7] == TopChannel(p)[7];
    assert CellCopies(p)[k].rects[7] == Shift(rs[7], Offset(k, og));
    assert CellCopies(p)[k + 1].rects[0] == Shift(rs[0], Offset(k + 1, og));
    assert Offset(k + 1, og) == Offset(k, og) + og;
  }

  /** The boundary box: from left_edge to n + 1 pitches further, three block
      heights above and below the axis. */
  function Boundary(p: SquareConfig): Rect {
    Rect(LeftEdge(p), Pitch(p) * (p.numRepeats + 1) as real + LeftEdge(p), -3.0 * p.magnetThick, 3.0 * p.magnetThick)
  }

  /** The centre-line nodes, on the boundary's left and right edges. */
  function CentreLine(p: SquareConfig): Segment {
    Segment(Point(LeftEdge(p), 0.0), Point(Pitch(p) * (p.numRepeats + 1) as real + LeftEdge(p), 0.0))
  }

  /** The boundary's left edge is 0.1 left of the first cell and its right edge
      0.1 right of the last copy; the centre line runs from edge to edge; the box
      holds the bands vertically iff their outer edge is within three block
      heights. */
  lemma BoundaryMargins(p: SquareConfig)
    requires Sane(p)
    ensures ClosureX(p) - Boundary(p).x0 == 0.1
    ensures |CellCopies(p)[p.numRepeats].rects| == 18
    ensures Boundary(p).x1 - CellCopies(p)[p.numRepeats].rects[7].x1 == 0.1
    ensures CentreLine(p).from.x == Boundary(p).x0 && CentreLine(p).to.x == Boundary(p).x1
    ensures Boundary(p).y1 >= Bands(p)[0].y1 <==> p.magnetSep + p.magnetThick + p.steelThick <= 3.0 * p.magnetThick
    ensures Boundary(p).y0 == -Boundary(p).y1 && Bands(p)[1].y0 == -Bands(p)[0].y1
  {
    var n, og := p.numRepeats, Pitch(p);
    BoundaryEndIsOffset(p);
    LastCopyEnd(p);
    assert Offset(n + 1, og) == Offset(n, og) + og;
  }

  /** The right end n + 1 pitches from left_edge, as a sum of pitches. */
  lemma BoundaryEndIsOffset(p: SquareConfig)
    ensures Boundary(p).x1 == Offset(p.numRepeats + 1, Pitch(p)) + LeftEdge(p)
    ensures CentreLine(p).to.x == Boundary(p).x1
  {
    OffsetIsProduct(p.numRepeats + 1, Pitch(p));
  }

  /** The last copy's final upper block ends n pitches right of the first. */
  lemma LastCopyEnd(p: SquareConfig)
    requires Sane(p)
    ensures |CellCopies(p)[p.numRepeats].rects| == 18
    ensures CellCopies(p)[p.numRepeats].rects[7].x1 == RightX(p) + Offset(p.numRepeats, Pitch(p))
  {
    var rs := Regions(p);
    RegionsDisjoint(p);
    assert rs[7] == TopChannel(p)[7];
    assert CellCopies(p)[p.numRepeats].rects[7] == Shift(rs[7], Offset(p.numRepeats, Pitch(p)));
  }

  /** The script selects the fourth labels of each row at x = 2 mT + 2 magnetSep,
      not at the x = 2 mT + 2 interMagnet where it adds them. */
  function SelectLabelX(p: SquareConfig): real {
    2.0 * p.magnetThick + 2.0 * p.magnetSep
  }

  lemma SelectPointIff(p: SquareConfig)
    ensures SelectLabelX(p) == MagnetLabels(p)[3].x <==> p.magnetSep == p.interMagnet
    ensures SelectLabelX(p) == MagnetLabels(p)[7].x <==> p.magnetSep == p.interMagnet
  {
  }

  /** The numbers at the top of the script. */
  const Script: SquareConfig := SquareConfig(10.0, 20.0, 7.0, 1.0, 0.7, 3, "N52", "1020 Steel")

  /** The script's derived numbers: a pitch of 43, a box from -16.5 to 155.5, an
      air label at 18.35 just above the upper band (which ends at 18), and a
      select point 34 that misses the fourth labels at 21.4. */
  lemma ScriptNumbers()
    ensures Sane(Script)
    ensures Pitch(Script) == 43.0 && LeftEdge(Script) == -16.5 && Boundary(Script).x1 == 155.5
    ensures AirLabel(Script).y == 18.35 && Bands(Script)[0].y1 == 18.0
    ensures SelectLabelX(Script) == 34.0 && MagnetLabels(Script)[3].x == 21.4
  {
  }

  /** In the script the air label is clear of every region, the selection keeps
      the whole cell and, of the frame, only the left axis node, and the
      off-centre second label is inside its block. */
  lemma ScriptCell()
    ensures forall j :: 0 <= j < 18 ==> !Marks(AirLabel(Script), Regions(Script)[j])
    ensures Select(WholeDrawing(Script), SelectionBox(Script)) == Drawing([Frame(Script)[4]] + Regions(Script), CellDrawing(Script).labels)
    ensures Marks(MagnetLabels(Script)[1], Regions(Script)[3])
  {
    ScriptNumbers();
    AirLabelClearIff(Script);
    SelectWholeDrawing(Script);
    ScriptSelectedFrame();
    MagnetLabelsMarkBlocks(Script);
  }

  /** Of the script's frame only the left axis node is selected: the box reaches
      28, short of the boundary at 30, and 3 pitches are far past 9.9. */
  lemma ScriptSelectedFrame()
    ensures SelectedFrame(Script) == [Frame(Script)[4]]
  {
    ScriptNumbers();
    FrameSelection(Script);
    var f, box := Frame(Script), SelectionBox(Script);
    assert box.y1 == 28.0;
    assert Contains(box, f[4]);
    assert !Contains(box, f[0]) && !Contains(box, f[1]) && !Contains(box, f[2]) && !Contains(box, f[3]);
    assert !Contains(box, f[5]) && !Contains(box, f[6]) && !Contains(box, f[7]) && !Contains(box, f[8]) && !Contains(box, f[9]);
    assert f == [f[0], f[1], f[2], f[3], f[4], f[5], f[6], f[7], f[8], f[9]];
  }
}
