/** Plane geometry shared by every wiggler layout: axis-aligned rectangles (a magnet
    block, a steel band, the boundary box), block labels, and the rigid motions the
    scripts apply to them (translation along the beam axis, reflection across the
    beam axis y = 0). All coordinates are exact reals. */
module Geometry {

  /** An axis-aligned rectangle [x0, x1] x [y0, y1]: the four nodes and four
      segments a script draws for one block. */
  datatype Rect = Rect(x0: real, x1: real, y0: real, y1: real)

  /** A block label: the point that assigns a material and a magnetisation
      direction (degrees) to the region enclosing it. */
  datatype Label = Label(x: real, y: real, angle: int, material: string)

  datatype Point = Point(x: real, y: real)

  /** A pair of nodes, such as the two ends of the centre line; no line is
      drawn between them. */
  datatype Segment = Segment(from: Point, to: Point)

  /** What one region of a script emits: rectangles and the labels that name them. */
  datatype Drawing = Drawing(rects: seq<Rect>, labels: seq<Label>)

  const AirMaterial: string := "Air"

  predicate WellFormed(r: Rect) {
    r.x0 <= r.x1 && r.y0 <= r.y1
  }

  /** The interiors of a and b do not meet (they may share an edge). */
  predicate Disjoint(a: Rect, b: Rect) {
    a.x1 <= b.x0 || b.x1 <= a.x0 || a.y1 <= b.y0 || b.y1 <= a.y0
  }

  predicate PairwiseDisjoint(rs: seq<Rect>) {
    forall i, j :: 0 <= i < j < |rs| ==> Disjoint(rs[i], rs[j])
  }

  /** (x, y) lies in the interior of r. */
  predicate StrictlyIn(x: real, y: real, r: Rect) {
    r.x0 < x < r.x1 && r.y0 < y < r.y1
  }

  /** (x, y) lies in r or on its edge. */
  predicate In(x: real, y: real, r: Rect) {
    r.x0 <= x <= r.x1 && r.y0 <= y <= r.y1
  }

  /** A label marks the region of r when it sits in r's interior. */
  predicate Marks(l: Label, r: Rect) {
    StrictlyIn(l.x, l.y, r)
  }

  /** l sits exactly at the centre of r. */
  predicate AtCentre(l: Label, r: Rect) {
    2.0 * l.x == r.x0 + r.x1 && 2.0 * l.y == r.y0 + r.y1
  }

  /** inner lies within outer, edges included. */
  predicate Contains(outer: Rect, inner: Rect) {
    outer.x0 <= inner.x0 && inner.x1 <= outer.x1 && outer.y0 <= inner.y0 && inner.y1 <= outer.y1
  }

  /** The rectangle the scripts' drawMagnet / drawoddMagnet helpers draw: centred at
      (cx, cy), `length` wide along the beam axis and `width` high. */
  function CenteredRect(cx: real, cy: real, length: real, width: real): (r: Rect)
    ensures r.x1 - r.x0 == length && r.y1 - r.y0 == width
    ensures r.x0 + r.x1 == 2.0 * cx && r.y0 + r.y1 == 2.0 * cy
  {
    Rect(cx - length / 2.0, cx + length / 2.0, cy - width / 2.0, cy + width / 2.0)
  }

  /** Translation along the beam axis. */
  function Shift(r: Rect, dx: real): Rect {
    Rect(r.x0 + dx, r.x1 + dx, r.y0, r.y1)
  }

  function ShiftLabel(l: Label, dx: real): Label {
    l.(x := l.x + dx)
  }

  function ShiftAll(rs: seq<Rect>, dx: real): (r: seq<Rect>)
    ensures |r| == |rs|
    ensures forall i :: 0 <= i < |rs| ==> r[i] == Shift(rs[i], dx)
  {
    seq(|rs|, i requires 0 <= i < |rs| => Shift(rs[i], dx))
  }

  /** Shifting two lists of rectangles is shifting their concatenation. */
  lemma ShiftAllAppend(a: seq<Rect>, b: seq<Rect>, dx: real)
    ensures ShiftAll(a + b, dx) == ShiftAll(a, dx) + ShiftAll(b, dx)
  {
    var l, r := ShiftAll(a + b, dx), ShiftAll(a, dx) + ShiftAll(b, dx);
    assert |l| == |r|;
    forall i | 0 <= i < |l|
      ensures l[i] == r[i]
    {
      if i < |a| {
        assert (a + b)[i] == a[i];
      } else {
        assert (a + b)[i] == b[i - |a|];
      }
    }
  }

  function ShiftLabels(ls: seq<Label>, dx: real): (r: seq<Label>)
    ensures |r| == |ls|
    ensures forall i :: 0 <= i < |ls| ==> r[i] == ShiftLabel(ls[i], dx)
  {
    seq(|ls|, i requires 0 <= i < |ls| => ShiftLabel(ls[i], dx))
  }

  /** A rigid copy of a drawing moved dx along the beam axis: shapes, labels,
      angles and materials are unchanged. */
  function ShiftDrawing(d: Drawing, dx: real): Drawing {
    Drawing(ShiftAll(d.rects, dx), ShiftLabels(d.labels, dx))
  }

  /** Reflection across the beam axis y = 0. */
  function Mirror(r: Rect): Rect {
    Rect(r.x0, r.x1, -r.y1, -r.y0)
  }

  /** Translation is rigid: it preserves disjointness, containment of labels and
      centring, and undoes itself. */
  lemma ShiftIsRigid(a: Rect, b: Rect, l: Label, dx: real)
    ensures Disjoint(a, b) <==> Disjoint(Shift(a, dx), Shift(b, dx))
    ensures Marks(l, a) <==> Marks(ShiftLabel(l, dx), Shift(a, dx))
    ensures AtCentre(l, a) <==> AtCentre(ShiftLabel(l, dx), Shift(a, dx))
    ensures Shift(Shift(a, dx), -dx) == a
  {
  }

  /** Reflection is an involution and preserves disjointness and well-formedness. */
  lemma MirrorIsRigid(a: Rect, b: Rect)
    ensures Mirror(Mirror(a)) == a
    ensures Disjoint(a, b) <==> Disjoint(Mirror(a), Mirror(b))
    ensures WellFormed(a) <==> WellFormed(Mirror(a))
  {
  }

  /** Two non-overlapping collections, no member of one overlapping any member
      of the other, form one non-overlapping collection. */
  lemma ConcatDisjoint(a: seq<Rect>, b: seq<Rect>)
    requires PairwiseDisjoint(a) && PairwiseDisjoint(b)
    requires forall i, j :: 0 <= i < |a| && 0 <= j < |b| ==> Disjoint(a[i], b[j])
    ensures PairwiseDisjoint(a + b)
  {
    var ab := a + b;
    forall i, j | 0 <= i < j < |ab|
      ensures Disjoint(ab[i], ab[j])
    {
      if j < |a| {
        assert ab[i] == a[i] && ab[j] == a[j];
      } else if i < |a| {
        assert ab[i] == a[i] && ab[j] == b[j - |a|];
      } else {
        assert ab[i] == b[i - |a|] && ab[j] == b[j - |a|];
      }
    }
  }

  /** Rectangles above a horizontal line overlap none below it. */
  lemma SeparatedByLine(a: seq<Rect>, b: seq<Rect>, y: real)
    requires forall i :: 0 <= i < |a| ==> y <= a[i].y0
    requires forall j :: 0 <= j < |b| ==> b[j].y1 <= y
    ensures forall i, j :: 0 <= i < |a| && 0 <= j < |b| ==> Disjoint(a[i], b[j])
  {
  }

  /** A label strictly inside one of several non-overlapping regions is strictly
      inside no other, so it names that region alone. */
  lemma MarksOne(l: Label, rs: seq<Rect>, i: nat)
    requires PairwiseDisjoint(rs) && i < |rs| && Marks(l, rs[i])
    ensures forall j :: 0 <= j < |rs| ==> (Marks(l, rs[j]) <==> j == i)
  {
    forall j | 0 <= j < |rs| && j != i
      ensures !Marks(l, rs[j])
    {
      if j < i {
        assert Disjoint(rs[j], rs[i]);
      } else {
        assert Disjoint(rs[i], rs[j]);
      }
    }
  }

  /** The generic "running cursor" row layout: starting from `cursor`, every block
      is preceded by `gap` and followed by the next, so block i spans
      [cursor_i + gap, cursor_i + gap + lengths[i]] in y-band [y0, y1]. This is the
      independent reference the scripts' closed-form block centres are compared to. */
  function RowFrom(cursor: real, lengths: seq<real>, gap: real, y0: real, y1: real): (r: seq<Rect>)
    ensures |r| == |lengths|
    ensures forall i :: 0 <= i < |r| ==> r[i].y0 == y0 && r[i].y1 == y1 && r[i].x1 - r[i].x0 == lengths[i]
    ensures |r| > 0 ==> r[0].x0 == cursor + gap
    ensures forall i, j :: 0 <= i && j == i + 1 < |r| ==> r[j].x0 == r[i].x1 + gap
    decreases |lengths|
  {
    if |lengths| == 0 then []
    else
      var first := Rect(cursor + gap, cursor + gap + lengths[0], y0, y1);
      [first] + RowFrom(first.x1, lengths[1..], gap, y0, y1)
  }

  /** With a non-negative gap and non-negative lengths, a cursor row is ordered
      along the beam axis: every block ends at least `gap` before any later one
      starts, and no block starts before the cursor. */
  lemma {:induction false} RowFromOrdered(cursor: real, lengths: seq<real>, gap: real, y0: real, y1: real)
    requires gap >= 0.0
    requires forall i :: 0 <= i < |lengths| ==> lengths[i] >= 0.0
    ensures forall i :: 0 <= i < |lengths| ==> cursor + gap <= RowFrom(cursor, lengths, gap, y0, y1)[i].x0
    ensures forall i, j :: 0 <= i < j < |lengths| ==>
      RowFrom(cursor, lengths, gap, y0, y1)[i].x1 + gap <= RowFrom(cursor, lengths, gap, y0, y1)[j].x0
  {
    var r := RowFrom(cursor, lengths, gap, y0, y1);
    forall i, j | 0 <= i < j < |r|
      ensures r[i].x1 + gap <= r[j].x0
    {
      ChainPair(r, gap, i, j);
    }
    forall i | 0 < i < |r|
      ensures cursor + gap <= r[i].x0
    {
      ChainPair(r, gap, 0, i);
    }
  }

  /** Along a chain of rectangles, each starting one gap after its predecessor
      ends, any earlier rectangle ends at least one gap before a later one
      starts. */
  lemma {:induction false} ChainPair(r: seq<Rect>, gap: real, i: nat, j: nat)
    requires gap >= 0.0
    requires forall k :: 0 <= k < |r| ==> r[k].x0 <= r[k].x1
    requires forall k, l :: 0 <= k && l == k + 1 < |r| ==> r[l].x0 == r[k].x1 + gap
    requires i < j < |r|
    ensures r[i].x1 + gap <= r[j].x0
    decreases j - i
  {
    if j > i + 1 {
      ChainPair(r, gap, i, j - 1);
    }
  }

  lemma RowFromDisjoint(cursor: real, lengths: seq<real>, gap: real, y0: real, y1: real)
    requires gap >= 0.0
    requires forall i :: 0 <= i < |lengths| ==> lengths[i] >= 0.0
    ensures PairwiseDisjoint(RowFrom(cursor, lengths, gap, y0, y1))
  {
    RowFromOrdered(cursor, lengths, gap, y0, y1);
  }
}
