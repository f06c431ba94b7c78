/** The lattice tiler: `mi_selectrectangle` followed by
    `mi_copytranslate2(pitch, 0, copies)`. The model assumes the documented
    semantics of the two calls: the selection holds every rectangle and label lying
    inside the box, and the copy places `copies` rigid copies of the selection at
    offsets k * pitch, k = 1 .. copies, leaving the original where it is. */
module Tiling {
  import opened Geometry

  /** The rectangles of rs that lie inside box, in order. */
  function KeepRects(rs: seq<Rect>, box: Rect): (r: seq<Rect>)
    ensures |r| <= |rs|
    ensures forall i :: 0 <= i < |r| ==> Contains(box, r[i])
    ensures (forall i :: 0 <= i < |rs| ==> Contains(box, rs[i])) ==> r == rs
    decreases |rs|
  {
    if |rs| == 0 then []
    else if Contains(box, rs[0]) then [rs[0]] + KeepRects(rs[1..], box)
    else KeepRects(rs[1..], box)
  }

  /** The labels of ls that lie inside box, in order. */
  function KeepLabels(ls: seq<Label>, box: Rect): (r: seq<Label>)
    ensures |r| <= |ls|
    ensures forall i :: 0 <= i < |r| ==> In(r[i].x, r[i].y, box)
    ensures (forall i :: 0 <= i < |ls| ==> In(ls[i].x, ls[i].y, box)) ==> r == ls
    decreases |ls|
  {
    if |ls| == 0 then []
    else if In(ls[0].x, ls[0].y, box) then [ls[0]] + KeepLabels(ls[1..], box)
    else KeepLabels(ls[1..], box)
  }

  /** Selecting from two lists in turn is selecting from their concatenation. */
  lemma {:induction false} KeepRectsAppend(a: seq<Rect>, b: seq<Rect>, box: Rect)
    ensures KeepRects(a + b, box) == KeepRects(a, box) + KeepRects(b, box)
    decreases |a|
  {
    if |a| == 0 {
      assert a + b == b;
    } else {
      assert (a + b)[0] == a[0];
      assert (a + b)[1..] == a[1..] + b;
      KeepRectsAppend(a[1..], b, box);
    }
  }

  /** The kept rectangles are exactly those of rs inside the box. */
  lemma {:induction false} KeepRectsExact(rs: seq<Rect>, box: Rect)
    ensures forall x :: x in KeepRects(rs, box) <==> x in rs && Contains(box, x)
    decreases |rs|
  {
    if |rs| > 0 {
      KeepRectsExact(rs[1..], box);
      assert rs == [rs[0]] + rs[1..];
    }
  }

  /** The kept labels are exactly those of ls inside the box. */
  lemma {:induction false} KeepLabelsExact(ls: seq<Label>, box: Rect)
    ensures forall l :: l in KeepLabels(ls, box) <==> l in ls && In(l.x, l.y, box)
    decreases |ls|
  {
    if |ls| > 0 {
      KeepLabelsExact(ls[1..], box);
      assert ls == [ls[0]] + ls[1..];
    }
  }

  /** `mi_selectrectangle`: the part of a drawing lying inside the box. */
  function Select(d: Drawing, box: Rect): Drawing {
    Drawing(KeepRects(d.rects, box), KeepLabels(d.labels, box))
  }

  /** Every rectangle and label of d lies inside box. */
  predicate Inside(d: Drawing, box: Rect) {
    && (forall i :: 0 <= i < |d.rects| ==> Contains(box, d.rects[i]))
    && (forall i :: 0 <= i < |d.labels| ==> In(d.labels[i].x, d.labels[i].y, box))
  }

  /** Selecting with a box that holds the whole drawing selects all of it. */
  lemma SelectWhole(d: Drawing, box: Rect)
    requires Inside(d, box)
    ensures Select(d, box) == d
  {
  }

  /** The offset of copy k: k steps of `pitch` along the beam axis. */
  function Offset(k: nat, pitch: real): real {
    if k == 0 then 0.0 else Offset(k - 1, pitch) + pitch
  }

  /** k steps of the pitch are k times the pitch, the product the scripts write. */
  lemma {:induction false} OffsetIsProduct(k: nat, pitch: real)
    ensures Offset(k, pitch) == k as real * pitch
  {
    if k > 0 {
      OffsetIsProduct(k - 1, pitch);
      assert (k - 1) as real * pitch + pitch == k as real * pitch;
    }
  }

  /** With a non-negative pitch a later copy lies at least one pitch further on. */
  lemma {:induction false} OffsetStep(j: nat, k: nat, pitch: real)
    requires j < k && pitch >= 0.0
    ensures Offset(j, pitch) + pitch <= Offset(k, pitch)
    decreases k
  {
    if j < k - 1 {
      OffsetStep(j, k - 1, pitch);
    }
  }

  /** With a non-negative pitch the offsets of copies 0 .. n grow from 0 to the
      offset of copy n. */
  lemma OffsetWithin(k: nat, n: nat, pitch: real)
    requires k <= n && pitch >= 0.0
    ensures 0.0 <= Offset(k, pitch) <= Offset(n, pitch)
  {
    if k < n {
      OffsetStep(k, n, pitch);
    }
    if 0 < k {
      OffsetStep(0, k, pitch);
    }
  }

  /** `mi_copytranslate2(dx, 0, copies)`: copy k (1-based) is the selection
      moved k * dx along the beam axis. */
  function CopyTranslate(d: Drawing, dx: real, copies: nat): (r: seq<Drawing>)
    ensures |r| == copies
    ensures forall k :: 0 <= k < copies ==> r[k] == ShiftDrawing(d, Offset(k + 1, dx))
  {
    if copies == 0 then []
    else
      var prefix := CopyTranslate(d, dx, copies - 1);
      var all := prefix + [ShiftDrawing(d, Offset(copies, dx))];
      assert forall k :: 0 <= k < copies - 1 ==> all[k] == prefix[k];
      all
  }

  /** Shifting by nothing leaves a drawing as it is. */
  lemma ShiftByZero(d: Drawing)
    ensures ShiftDrawing(d, 0.0) == d
  {
    assert ShiftAll(d.rects, 0.0) == d.rects;
    assert ShiftLabels(d.labels, 0.0) == d.labels;
  }

  /** The original followed by its copies: entry k is the original moved
      k * pitch, for k = 0 .. copies. */
  function Tile(d: Drawing, pitch: real, copies: nat): (r: seq<Drawing>)
    ensures |r| == copies + 1
    ensures forall k :: 0 <= k <= copies ==> r[k] == ShiftDrawing(d, Offset(k, pitch))
  {
    ShiftByZero(d);
    var copied := CopyTranslate(d, pitch, copies);
    var all := [d] + copied;
    assert forall k :: 1 <= k <= copies ==> all[k] == copied[k - 1];
    all
  }

  /** No two rectangles of the tiled drawings overlap: neither two of one copy
      nor two of different copies. */
  predicate AllDisjoint(ds: seq<Drawing>) {
    forall j, k, a, b ::
      0 <= j < |ds| && 0 <= k < |ds| && 0 <= a < |ds[j].rects| && 0 <= b < |ds[k].rects| && (j != k || a != b)
      ==> Disjoint(ds[j].rects[a], ds[k].rects[b])
  }

  /** Appending one drawing to a collection keeps it free of overlaps when the
      new drawing's rectangles overlap neither each other nor any old one. */
  lemma AppendDisjoint(ds: seq<Drawing>, t: Drawing)
    requires AllDisjoint(ds) && PairwiseDisjoint(t.rects)
    requires forall k, a, b :: 0 <= k < |ds| && 0 <= a < |ds[k].rects| && 0 <= b < |t.rects| ==>
      Disjoint(ds[k].rects[a], t.rects[b])
    ensures AllDisjoint(ds + [t])
  {
    var all := ds + [t];
    forall j, k, a, b |
      0 <= j < |all| && 0 <= k < |all| && 0 <= a < |all[j].rects| && 0 <= b < |all[k].rects| && (j != k || a != b)
      ensures Disjoint(all[j].rects[a], all[k].rects[b])
    {
      if j < |ds| && k < |ds| {
        assert all[j] == ds[j] && all[k] == ds[k];
      } else if j < |ds| {
        assert all[j] == ds[j] && all[k] == t;
      } else if k < |ds| {
        assert all[k] == ds[k] && all[j] == t;
        assert Disjoint(ds[k].rects[b], t.rects[a]);
      } else if a < b {
        assert all[j] == t && all[k] == t;
      } else {
        assert all[j] == t && all[k] == t;
        assert Disjoint(t.rects[b], t.rects[a]);
      }
    }
  }

  /** One pair of rectangles of a tiling: rectangle a of copy j and rectangle b
      of copy k do not overlap. */
  lemma TilePairDisjoint(d: Drawing, pitch: real, lo: real, hi: real, j: nat, k: nat, a: nat, b: nat)
    requires pitch >= 0.0 && hi - lo <= pitch
    requires PairwiseDisjoint(d.rects)
    requires forall i :: 0 <= i < |d.rects| ==> lo <= d.rects[i].x0 && d.rects[i].x1 <= hi
    requires a < |d.rects| && b < |d.rects| && (j != k || a != b)
    ensures Disjoint(Shift(d.rects[a], Offset(j, pitch)), Shift(d.rects[b], Offset(k, pitch)))
  {
    var ra, rb := d.rects[a], d.rects[b];
    if j == k {
      ShiftIsRigid(ra, rb, Label(0.0, 0.0, 0, AirMaterial), Offset(j, pitch));
      if a < b {
        assert Disjoint(ra, rb);
      } else {
        assert Disjoint(rb, ra);
      }
    } else if j < k {
      OffsetStep(j, k, pitch);
      assert ra.x1 <= hi && lo <= rb.x0;
    } else {
      OffsetStep(k, j, pitch);
      assert rb.x1 <= hi && lo <= ra.x0;
      assert rb.x1 + Offset(k, pitch) <= ra.x0 + Offset(j, pitch);
    }
  }

  /** Tiling a drawing whose rectangles are pairwise disjoint and fit in a strip
      [lo, hi] no wider than the pitch gives pairwise-disjoint rectangles overall:
      each copy ends before the next one starts. */
  lemma TileDisjoint(d: Drawing, pitch: real, copies: nat, lo: real, hi: real)
    requires pitch >= 0.0 && hi - lo <= pitch
    requires PairwiseDisjoint(d.rects)
    requires forall i :: 0 <= i < |d.rects| ==> lo <= d.rects[i].x0 && d.rects[i].x1 <= hi
    ensures AllDisjoint(Tile(d, pitch, copies))
  {
    var t := Tile(d, pitch, copies);
    forall j, k, a, b |
      0 <= j < |t| && 0 <= k < |t| && 0 <= a < |t[j].rects| && 0 <= b < |t[k].rects| && (j != k || a != b)
      ensures Disjoint(t[j].rects[a], t[k].rects[b])
    {
      assert t[j].rects[a] == Shift(d.rects[a], Offset(j, pitch));
      assert t[k].rects[b] == Shift(d.rects[b], Offset(k, pitch));
      TilePairDisjoint(d, pitch, lo, hi, j, k, a, b);
    }
  }
}
