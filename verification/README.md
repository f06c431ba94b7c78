# Parametric wiggler geometry

Four Python scripts drive the FEMM magnetics package to draw a planar
permanent-magnet wiggler: two rows of magnet blocks above and below the beam axis,
wrapped by a steel yoke and enclosed in a boundary box. Every script starts from a
handful of numbers and computes the exact coordinates it hands to FEMM. Those
numbers are:

- the magnet width and length;
- the drift length;
- the half-separation of the rows;
- the steel thickness;
- the inter-magnet gap;
- the margin;
- the repeat count.

This project models that coordinate arithmetic as pure Dafny functions over `real`.
Every quantity is a sum or product of the parameters, so exact rationals are
faithful. The project also proves the geometric facts the drawing relies on.

The scripts fall into two groups:

- `wiggler_5_readingout.py`, `wiggler_4_changing_materials.py` and
  `wiggler_attempt2_usingmadxspec.py` share one layout. Each script first draws the
  boundary box and the two centre-line nodes, so both are already on the drawing
  when the cell is selected. It then draws one cell: four top-row blocks (odd,
  full, odd, full) and their mirror images below the axis, each with a label that
  carries a magnetisation angle. The cell is selected and copied `numrepeats` times
  one pitch (`og_thickness`) apart. `wiggler_5` and `wiggler_4` then add a trailing
  odd drift block. All three finish with the yoke bands and an air label.
- `wiggler_attempt1_pyfemm.py` is the older layout: square blocks centred on x = 0,
  extra lines that close the inter-magnet gaps, air labels in the gaps, and a pitch
  with 0.2 of slack.

Modules:

- `Geometry` (geometry.dfy): rectangles `(x0, x1, y0, y1)`, labels
  `(x, y, angle, material)`, segments and drawings; the predicates disjoint,
  contains and marks; translation and reflection; the cursor-style row builder.
- `Units` (units.dfy): the `c0_scale` and `forceScale` lookups.
- `Tiling` (tiling.dfy): FEMM's `mi_selectrectangle` and `mi_copytranslate2`, taken
  as "keep what lies fully inside the box" and "copies k = 1..n shifted by k·dx".
- `Layout` (layout.dfy): the shared configuration, the derived lengths, and one cell
  of blocks and labels.
- `Wiggler` (wiggler.dfy): the full device of `wiggler_5` and `wiggler_4`, built
  from the lattice, the trailing drift, the yoke, the boundary, the centre line and
  the air label, plus the predicate `WellBuilt` that says what a sound drawing is.
- `Attempt2` (attempt2.dfy): the cell of `wiggler_attempt2` as written, the
  corrected cell, and their yoke without a trailing drift.
- `Scripts` (scripts.dfy): the concrete configurations of `wiggler_5` and
  `wiggler_4`.
- `Attempt1` (attempt1.dfy): the square-magnet cell, its regions, labels,
  selection, copies and boundary.

In the steel yoke and air label rows below, "wraps" means the same thing each time:
a block lies within the yoke's span along the beam, overlaps neither band, and
touches the band on its own side.

## Model

| member | source | states |
|---|---|---|
| Units.LengthScale | wiggler_5_readingout.py:129-141 | The scale is always positive. "meters" gives 1.0, the other recognised names give a scale other than 1.0, and any unrecognised name falls back to 1.0. |
| Units.LengthScaleIsTableLookup | wiggler_5_readingout.py:129-141 | The if/elif chain agrees with the table micrometers→1e6, millimeters→1000, centimeters→100, meters→1, inches→1/0.0254, mils→1000/0.0254, and gives 1.0 for any other name. |
| Units.ForceScale | wiggler_5_readingout.py:144-150 | The scale lies in (0, 1]. It is 1.0 exactly when the name is neither lbf nor kgf. |
| Units.ForceScaleIsTableLookup | wiggler_5_readingout.py:144-150 | The chain agrees with the table Newtons→1, lbf→0.2248089, kgf→0.1019716, with 1.0 for any other name. |
| Units.MetresRoundTrip | wiggler_5_readingout.py:129-141 | Converting a length to metres and back, or from metres and back, is the identity for every unit name. |
| Units.ScalesArePhysical | wiggler_5_readingout.py:129-141 | One inch is 0.0254 m, a mil is a thousandth of an inch, 1000 mm is 1 m, and the metric factors step by 1000 and 10. |
| Geometry.CenteredRect | wiggler_5_readingout.py:176-194 | The drawMagnet/drawoddMagnet rectangle has the given length and width and is centred at the given point. |
| Geometry.ShiftIsRigid | wiggler_5_readingout.py:261-263 | A translation along the beam preserves disjointness, a label marking its block, and a label sitting at a block's centre; shifting back undoes it. |
| Geometry.MirrorIsRigid | wiggler_5_readingout.py:196-208 | Reflection in the beam axis is an involution and preserves disjointness and well-formedness. |
| Geometry.RowFromOrdered | wiggler_5_readingout.py:196-201 | In a row laid out by advancing a cursor, every block starts at least one gap after the cursor, and any earlier block ends at least one gap before any later block starts. |
| Geometry.RowFromDisjoint | wiggler_5_readingout.py:196-201 | A cursor row with a non-negative gap and non-negative lengths has pairwise disjoint blocks. |
| Geometry.MarksOne | wiggler_5_readingout.py:215-253 | Among pairwise disjoint regions, a label inside one region is inside no other. |
| Tiling.KeepRectsExact | wiggler_5_readingout.py:261-262 | The selection keeps exactly the rectangles that lie inside the box. |
| Tiling.KeepLabelsExact | wiggler_5_readingout.py:261-262 | The selection keeps exactly the labels that lie inside the box. |
| Tiling.SelectWhole | wiggler_5_readingout.py:261-262 | A box that holds the whole drawing selects all of it. |
| Tiling.CopyTranslate | wiggler_5_readingout.py:263 | Copy-translate makes exactly n copies, and copy k is the drawing shifted by k·dx for k = 1..n. |
| Tiling.Tile | wiggler_5_readingout.py:261-263 | The original plus its copies is n+1 drawings, and drawing k is the original shifted by k pitches. |
| Tiling.OffsetIsProduct | wiggler_5_readingout.py:263 | k steps of the pitch equal k times the pitch, the product the script writes. |
| Tiling.TileDisjoint | wiggler_5_readingout.py:261-263 | When a cell's blocks are disjoint and fit in an interval no longer than the pitch, no two blocks of any two copies overlap. |
| Layout.PitchIsTwoMagnetsTwoDrifts | wiggler_5_readingout.py:68-72 | The pitch is 2·magnetLength + 2·Ldrift and so does not depend on interMagnet. With no gap, the odd length is the drift length. |
| Layout.HalbachAngles | wiggler_5_readingout.py:215-253 | The angle tables are top [0, −90, 180, 90] and bottom [180, −90, 0, 90]. Full blocks share an angle, odd blocks differ by 180, and neighbours turn by a quarter turn. |
| Layout.Cell | wiggler_5_readingout.py:196-253 | The cell has eight blocks and eight labels. Each bottom block mirrors the top block above it. Each label sits at its block's centre with the magnet material, and the angles follow the Halbach tables. |
| Layout.TopRowIsCursorRow | wiggler_5_readingout.py:196-201 | The closed-form top-row centres describe the cursor row: start one gap after the margin, then lay odd, full, odd, full with one gap between blocks. |
| Layout.BottomRowIsCursorRow | wiggler_5_readingout.py:203-208 | The same cursor-row statement for the bottom row, in the band below the axis. |
| Layout.RowSpacing | wiggler_5_readingout.py:196-208 | Consecutive blocks of each row are exactly interMagnet apart. The top row runs from margin+interMagnet to margin+og_thickness. |
| Layout.TopRowIntervals | wiggler_5_readingout.py:196-201 | The four top-row x-intervals are [m+iM, m+iM+odd], [m+odd+2iM, …+L], [m+L+odd+3iM, …+odd] and [m+L+2odd+4iM, m+og], all in the band [magnetSep, magnetSep+magnetWidth]. |
| Layout.CellExtent | wiggler_5_readingout.py:196-208 | In a sane configuration every block is well formed, lies in one pitch along the beam, and lies wholly on one side of the axis, at least magnetSep away. |
| Layout.CellDisjoint | wiggler_5_readingout.py:196-208 | In a sane configuration no two of the cell's eight blocks overlap. |
| Layout.NeighboursDisjointIff | wiggler_5_readingout.py:196-201 | The first two blocks overlap exactly when interMagnet is negative. |
| Layout.NoGapSharesEdges | wiggler_4_changing_materials.py:173-178 | With interMagnet = 0, each block's right edge is the next block's left edge, in both rows. |
| Layout.OddBlockWellFormedIff | wiggler_5_readingout.py:196-201 | The odd block is a proper rectangle exactly when Ldrift ≥ 2·interMagnet. |
| Layout.LabelsIdentifyBlocks | wiggler_5_readingout.py:215-253 | Label i is inside block j exactly when i = j, so each label names one block and no other. |
| Wiggler.SelectionCoversCell | wiggler_5_readingout.py:261-262 | The selection box spans x ∈ [margin, margin+og_thickness] and holds the whole cell, so the lattice is the cell and its copies. |
| Wiggler.LatticeRect | wiggler_5_readingout.py:261-263 | Block a of copy k is block a of the cell shifted by k·og_thickness. |
| Wiggler.TotalLengthIsOffset | wiggler_5_readingout.py:72 | lengthtotal is n+1 pitches, which is where copy n ends. |
| Wiggler.TotalLengthAtLeastPitch | wiggler_5_readingout.py:71-72 | The pitch is positive, and the total length is at least one pitch. |
| Wiggler.LatticeBlockBounds | wiggler_5_readingout.py:261-263 | Every block of every copy lies between margin+interMagnet and margin+lengthtotal along the beam, in its row's band. |
| Wiggler.LatticeDisjoint | wiggler_5_readingout.py:261-263 | No two blocks of the cell and its copies overlap. |
| Wiggler.CopySeam | wiggler_5_readingout.py:261-263 | Copy k+1 starts exactly interMagnet after copy k ends, in both rows. |
| Wiggler.TrailingDriftClosesLattice | wiggler_5_readingout.py:268-301 | The trailing drift blocks start where the last copy ends. They have the shape of a cell's first block, mirror each other, and carry angles 0 and 180 at their centres. |
| Wiggler.EndsAgree | wiggler_5_readingout.py:268-321 | The written-out (n+1)·cell-length equals lengthtotal. So the drift, the yoke's right end and the centre-line node fall where the lattice puts them. |
| Wiggler.DeviceBlocksDisjoint | wiggler_5_readingout.py:261-301 | No two magnet blocks of the lattice and the trailing drift overlap. |
| Wiggler.SteelWrapsMagnets | wiggler_5_readingout.py:305-321 | The yoke wraps every magnet block. The trailing drift ends one margin short of the yoke's right end. |
| Wiggler.SteelLabelsInBands | wiggler_5_readingout.py:323-329 | Steel labels exist exactly when steelThick > 0, and each then lies inside its band. |
| Wiggler.CentreLineSpansYoke | wiggler_5_readingout.py:172-173 | The centre line ends where the yoke ends. Its right node is never in the selection box. Its left node (0, 0) is in the box, on its left edge, exactly when margin = 0, so only then is it copied. |
| Wiggler.BoundaryAroundYoke | wiggler_5_readingout.py:161-169 | The box is symmetric about the axis. It holds the upper band exactly when it holds the lower one, and exactly when the yoke's outer edge fits in 4·magnetWidth and odd ≤ boundhoriz (given margin ≥ −boundhoriz). Its right edge passes the yoke's end exactly when boundhoriz > odd. |
| Wiggler.BoundaryOutsideSelection | wiggler_5_readingout.py:161-169 | Along the beam, the left boundary edge lies left of the selection box exactly when boundhoriz > −margin. In that case the right boundary edge lies right of the box. |
| Wiggler.AirLabelOutsideMagnets | wiggler_5_readingout.py:334-336 | The air label at (10, 0) marks no magnet block and no steel band. With magnetSep > 0 it is not even on a block's edge. |
| Wiggler.LatticeLabelsIdentifyBlocks | wiggler_5_readingout.py:215-263 | In every copy, label i is inside block j exactly when i = j. |
| Wiggler.BuildIsWellBuilt | wiggler_5_readingout.py:161-336 | The device the script draws is well built: disjoint blocks, the yoke wrapping each one, the air label in none, steel labels in their bands, and a centre line ending at the yoke. |
| Scripts.DerivedLengths | wiggler_4_changing_materials.py:33-50 | For both scripts' parameters the configuration is sane. oddmagnetLength = 30, og_thickness = 2·50.00191431900077 + 60, the total is 42 pitches, and the units give scales 1000 and 1. |
| Scripts.BoundaryHoldsYoke | wiggler_4_changing_materials.py:138-146 | The yoke's outer edge (175, or 275 with magnetWidth 200) is inside the half-height 4·magnetWidth (400 or 800), and the box's right edge passes the yoke's end (700 > 30). |
| Scripts.ScriptsAreWellBuilt | wiggler_4_changing_materials.py:138-313 | Both scripts' devices are well built. |
| Attempt2.AsWrittenIsCellIff | wiggler_attempt2_usingmadxspec.py:171-183 | The cell as written equals the intended cell exactly when magnetLength = magnetWidth. |
| Attempt2.AsWrittenMirror | wiggler_attempt2_usingmadxspec.py:171-183 | As written, bottom blocks 1, 2 and 4 mirror their top blocks, and block 3 does so exactly when magnetLength = magnetWidth. |
| Attempt2.AsWrittenLabelsIff | wiggler_attempt2_usingmadxspec.py:171-240 | The labels of the shifted blocks stay inside them exactly when abs(magnetLength − magnetWidth) < magnetWidth. |
| Attempt2.AsWrittenMeetsYoke | wiggler_attempt2_usingmadxspec.py:176-183 | The shifted blocks cross the yoke's inner line by (magnetLength − magnetWidth)/2. They stay clear of the band exactly when L ≤ w or the shift clears the whole band. |
| Attempt2.AsWrittenInsideSelectionIff | wiggler_attempt2_usingmadxspec.py:273-274 | The as-written cell fits the selection box exactly when magnetLength ≤ magnetWidth + 2·steelThick. |
| Attempt2.YokeEnd | wiggler_attempt2_usingmadxspec.py:273-296 | With no trailing drift, the yoke and the centre line end at lengthtotal + 2·margin, one margin after the last copy. |
| Attempt2.CorrectedBlocks | wiggler_attempt2_usingmadxspec.py:171-311 | With the corrected y-centres, the copies are disjoint, the yoke wraps each block, and the air label marks none. |
| Attempt2.SteelLabelsInYoke | wiggler_attempt2_usingmadxspec.py:298-304 | Each steel label lies inside its band of the attempt2 yoke. |
| Attempt2.CorrectedBuildIsWellBuilt | wiggler_attempt2_usingmadxspec.py:122-311 | The corrected attempt2 device is well built. |
| Attempt2.ScriptNumbers | wiggler_attempt2_usingmadxspec.py:16-31 | For the script's parameters, odd = 20 > 0 and og_thickness = 2·magnetLength + 60. Top-row gaps are exactly 5, and the ±200 box holds the yoke's outer edge at ±100. |
| Attempt2.ScriptAsWrittenOverlapsYoke | wiggler_attempt2_usingmadxspec.py:176-288 | For the script's parameters the selection keeps the as-written cell, top block 4 pokes 0.000957159500385 into the upper band, and the device as written is not well built. |
| Attempt1.BlocksAreSquares | wiggler_attempt1_pyfemm.py:108-131 | The blocks are squares of side magnetThick centred at x = −(mT+iM), 0, mT+iM, 2mT+2iM and y = ±(mT/2+magnetSep). |
| Attempt1.ChannelIsCursorRow | wiggler_attempt1_pyfemm.py:119-143 | Each channel is the cursor row that starts at the closing line and lays gap, block, gap, block, … with nothing between. |
| Attempt1.ChannelShape | wiggler_attempt1_pyfemm.py:119-143 | Blocks are interMagnet apart, the first one interMagnet from the closing line. The blocks span [−1.5mT−iM, 2.5mT+2iM], and the lower channel mirrors the upper one. |
| Attempt1.RegionsDisjoint | wiggler_attempt1_pyfemm.py:108-157 | The eighteen regions the lines enclose (blocks, gaps and both steel bands) do not overlap and lie between the closing line and the right end. |
| Attempt1.AnglesMatchLaterLayout | wiggler_attempt1_pyfemm.py:161-194 | The label angles in x-order are top [0, −90, 180, 90] and bottom [180, −90, 0, 90], the tables of the later layout. |
| Attempt1.MagnetLabelsMarkBlocks | wiggler_attempt1_pyfemm.py:161-194 | Every magnet label except the second lies inside its block and no other region. The second, at x = −0.5, is inside the centre block exactly when magnetThick > 1. |
| Attempt1.GapLabelsMarkGaps | wiggler_attempt1_pyfemm.py:203-223 | Gap labels exist exactly when interMagnet > 0. Each sits at the centre of its gap (the left closing gap and three block gaps, in both rows) and inside no other region. |
| Attempt1.SteelLabelsMarkBands | wiggler_attempt1_pyfemm.py:226-232 | Steel labels exist exactly when steelThick > 0. Each then lies inside its band and no other region. |
| Attempt1.AirLabelClearIff | wiggler_attempt1_pyfemm.py:198-200 | The air label is clear of every region exactly when its height is not strictly inside the upper channel or the upper band. |
| Attempt1.SelectionHoldsCellIff | wiggler_attempt1_pyfemm.py:198-241 | The selection box holds the whole cell drawing exactly when the air label is no higher than the box's top. |
| Attempt1.FrameSelection | wiggler_attempt1_pyfemm.py:78-92 | Among the boundary segments, corners and centre-line nodes drawn before the selection, the box always catches the left axis node (left_edge, 0). It catches the left segment and its corners exactly when 3·mT ≤ magnetSep + mT + steelThick + 10. It catches the right-hand items, and the top and bottom segments, only when n·og_thickness ≤ 9.9 and the same height condition holds (the right node needs only n·og_thickness ≤ 9.9). |
| Attempt1.SelectWholeDrawing | wiggler_attempt1_pyfemm.py:240-241 | When the box holds the cell, the selection from the whole drawing is the cell entire plus exactly the frame items inside the box. |
| Attempt1.LatticeIsCellCopies | wiggler_attempt1_pyfemm.py:240-242 | When the box holds the cell, copy k of what is selected and copied is copy k of the cell plus the selected frame items, all shifted by k pitches; the labels are the cell's. |
| Attempt1.FrameCopyInStrip | wiggler_attempt1_pyfemm.py:78-92 | The copies of the left axis node, and of the left boundary segment at the same x, fall in the 0.2 strips between neighbouring cells, 0.1 from each, in both channels. |
| Attempt1.CopiesDisjoint | wiggler_attempt1_pyfemm.py:240-242 | The pitch exceeds the drawn cell width by 0.2, and no two regions of any copies overlap. |
| Attempt1.CopySlack | wiggler_attempt1_pyfemm.py:240-242 | Copy k+1 starts exactly 0.2 after copy k ends. |
| Attempt1.BoundaryMargins | wiggler_attempt1_pyfemm.py:78-92 | The boundary's left edge is 0.1 left of the cell and its right edge 0.1 right of the last copy. The centre line runs edge to edge. The box holds the bands exactly when their outer edge is within 3·magnetThick. |
| Attempt1.SelectPointIff | wiggler_attempt1_pyfemm.py:162-180 | The label-select x 2mT+2·magnetSep hits the fourth label's x exactly when magnetSep = interMagnet. |
| Attempt1.ScriptNumbers | wiggler_attempt1_pyfemm.py:11-21 | For the script's parameters: pitch 43, box from −16.5 to 155.5, air label at 18.35 just above the band top at 18, and select point 34 against the label at 21.4. |
| Attempt1.ScriptCell | wiggler_attempt1_pyfemm.py:119-242 | For the script's parameters, the air label is clear of every region, the selection keeps the whole cell and, of the frame, only the left axis node, and the second label is inside the centre block. |
| Attempt1.ScriptSelectedFrame | wiggler_attempt1_pyfemm.py:78-92 | For the script's parameters, only the left axis node of the frame is selected: the box top 28 is short of the boundary at 30, and 3 pitches are far past 9.9. |

## Left out

- FEMM session and solver calls (`openfemm`, `newdocument`, `mi_probdef`, `mi_getmaterial`, boundary properties, `mi_saveas`, `mi_analyze`, `mi_loadsolution`, `mo_*`): these are foreign calls. Only the coordinates and angles passed to them are modelled.
- `mi_selectrectangle` and `mi_copytranslate2` are modelled by an assumed semantics: the selection keeps items that lie wholly inside the box, and the copies are k = 1..n shifted by k·dx.
- The value of `c0`: it needs π and floating point. Only `c0_scale` is modelled.
- Reading result files and plotting (`Read_Two_Column_File`, matplotlib) in `wiggler_5_readingout.py`: file I/O and parsing.
- `mi_zoom` windows, mesh sizes, automesh flags and block groups: they do not affect geometry.
- Which existing label `mi_selectlabel` picks: FEMM's nearest-label rule is not visible. `Attempt1.SelectPointIff` states only where the select point lies relative to the label.
- Material names are opaque strings.
- Commented-out code is not modelled: mesh lines, and attempt2's closing lines and air labels in the gaps.
- Drawn line segments are modelled as the rectangles they enclose. Node deduplication and the splitting of segments at shared nodes are not modelled.
- `wiggler_attempt1_pyfemm.py`'s `magnetLength` (field `depth`) is never used by the drawing.
- Python float rounding is not modelled: values such as 1/0.0254 are exact rationals here.
- Wiggler.SelectionCoversCell: with exact arithmetic the box's right edge equals block 4's right edge, and with interMagnet = 0 block 1 starts on the box's left edge. In floats these sums are associated differently (lines 200-201 against 262), so whether FEMM keeps those segments can depend on rounding.
- Wiggler.Lattice: the selection is applied to the cell only. The right centre-line node always lies outside the box. When boundhoriz > −margin, as in both scripts, `Wiggler.BoundaryOutsideSelection` shows that the boundary does too; otherwise its left segment and corners can be caught, and that case is not modelled. `Wiggler.CentreLineSpansYoke` shows that the left node (0, 0) is caught exactly when margin = 0. Neither of these items' copies is added to the lattice.
- `numRepeats` is a `nat` in both configurations: the scripts never check the sign, and a negative count is not modelled.
- Units.LengthScale: an unrecognised unit name gives 1.0, as the code does. It is not rejected.
- Wiggler.Boundary: the right edge is lengthtotal + 2·margin + boundhoriz, without the trailing odd length, as the code writes it.
- Wiggler.Steel: both bands are drawn even when steelThick = 0 (they are then empty); only the label is conditional, as in the code.
- Layout.Cell: the bottom angles are [180, −90, 0, 90] in x-order, as the code sets them.
- Scripts.DerivedLengths: the pitch is 2·50.00191431900077 + 60 = 160.0038…, as the code computes it.
- Layout.Labels: the labels are stored in x-order, while the scripts add them from the fourth block to the first. FEMM does not depend on the order.

## Findings

| source | as written | input that shows it | evidently intended | confidence | as-written member | corrected member |
|---|---|---|---|---|---|---|
| wiggler_attempt2_usingmadxspec.py:176-183 | Top block 4 and bottom blocks 3 and 4 are centred at ±(magnetLength/2 + magnetSep) | The script's own values: magnetLength = 50.00191431900077, magnetWidth = 50. Top block 4 then crosses the yoke's inner line by 0.000957159500385, and bottom block 3 is not the mirror of top block 3 | ±(magnetWidth/2 + magnetSep), as in the later scripts | not executed | Attempt2.ScriptAsWrittenOverlapsYoke | Attempt2.CorrectedBuildIsWellBuilt |
