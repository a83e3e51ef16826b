/** The control logic of the transform gizmo, run once per frame for the
    inspected entity: pick the axis tip under the pointer, size the tips
    accordingly, and turn the pointer's movement into a translation along the
    dragged axis. Matrices are not modelled: the frame receives the viewport
    position of the model origin and of the three unit axis end points. */
module GizmoControl {
  import opened Results
  import opened GizmoGeometry

  /** `Math.min` of three values. */
  function Min3(a: real, b: real, c: real): (m: real)
    ensures m <= a && m <= b && m <= c
    ensures m == a || m == b || m == c
  {
    if a <= b && a <= c then a else if b <= c then b else c
  }

  /** Axis `a` is hovered: its tip is closer than `limit`, no tip is closer,
      and no axis before it in x, y, z order is as close. */
  predicate IsHovered(a: Axis, d: PerAxis<real>, limit: real)
  {
    && d.Get(a) < limit
    && (forall b :: d.Get(a) <= d.Get(b))
    && (forall b :: AxisIndex(b) < AxisIndex(a) ==> d.Get(b) != d.Get(a))
  }

  /** The hovered axis and the tip sizes uploaded for it. */
  datatype Hover = Hover(axis: Option<Axis>, tipSizes: seq<real>)

  /** The nearest-axis selection: the first of x, y, z whose distance equals
      the minimum, when that minimum is below `limit`; otherwise none. */
  function NearestAxis(d: PerAxis<real>, limit: real): (h: Hover)
    ensures forall a :: h.axis == Some(a) <==> IsHovered(a, d, limit)
    ensures h.axis.None? <==> (d.x >= limit && d.y >= limit && d.z >= limit)
    ensures |h.tipSizes| == 3
    ensures forall i :: 0 <= i < 3 ==>
              h.tipSizes[i] == if h.axis.Some? && i == AxisIndex(h.axis.value) then HighlightedTipSize else TipSize
  {
    var m := Min3(d.x, d.y, d.z);
    assert d.Get(X) == d.x && d.Get(Y) == d.y && d.Get(Z) == d.z;
    if m < limit then
      if m == d.x then Hover(Some(X), [20.0, 10.0, 10.0])
      else if m == d.y then Hover(Some(Y), [10.0, 20.0, 10.0])
      else if m == d.z then Hover(Some(Z), [10.0, 10.0, 20.0])
      else assert false; Hover(None, [10.0, 10.0, 10.0])
    else Hover(None, [10.0, 10.0, 10.0])
  }

  /** Squares every entry; comparing squared distances avoids the square root. */
  function Squared(d: PerAxis<real>): PerAxis<real>
  {
    PerAxis(d.x * d.x, d.y * d.y, d.z * d.z)
  }

  /** Squaring preserves and reflects the order of non-negative reals. */
  lemma SquareOrder(a: real, b: real)
    requires a >= 0.0 && b >= 0.0
    ensures a < b <==> a * a < b * b
    ensures a == b <==> a * a == b * b
  {
    if a < b {
      calc {
        a * a;
      <= a * b;
      <  b * b;
      }
    } else if b < a {
      calc {
        b * b;
      <= b * a;
      <  a * a;
      }
    }
  }

  /** Two distance triples ordered alike (among themselves and against their
      limits) select the same axis and tip sizes. */
  lemma SameOrderSameHover(d: PerAxis<real>, l: real, e: PerAxis<real>, m: real)
    requires (d.x < d.y <==> e.x < e.y) && (d.y < d.x <==> e.y < e.x) && (d.x == d.y <==> e.x == e.y)
    requires (d.x < d.z <==> e.x < e.z) && (d.z < d.x <==> e.z < e.x) && (d.x == d.z <==> e.x == e.z)
    requires (d.y < d.z <==> e.y < e.z) && (d.z < d.y <==> e.z < e.y) && (d.y == d.z <==> e.y == e.z)
    requires (d.x < l <==> e.x < m) && (d.y < l <==> e.y < m) && (d.z < l <==> e.z < m)
    ensures NearestAxis(d, l) == NearestAxis(e, m)
  {
    var hd := NearestAxis(d, l);
    var he := NearestAxis(e, m);
    assert d.Get(X) == d.x && d.Get(Y) == d.y && d.Get(Z) == d.z;
    assert e.Get(X) == e.x && e.Get(Y) == e.y && e.Get(Z) == e.z;
    assert hd.axis == he.axis by {
      if hd.axis.Some? {
        assert IsHovered(hd.axis.value, d, l);
        assert IsHovered(hd.axis.value, e, m);
      }
    }
    assert forall i :: 0 <= i < 3 ==> hd.tipSizes[i] == he.tipSizes[i];
  }

  /** Selecting on squared distances with the squared threshold picks the same
      axis and tip sizes as selecting on the Euclidean distances themselves. */
  lemma SquaredSelectsSameAxis(d: PerAxis<real>, limit: real)
    requires d.x >= 0.0 && d.y >= 0.0 && d.z >= 0.0 && limit >= 0.0
    ensures NearestAxis(Squared(d), limit * limit) == NearestAxis(d, limit)
  {
    var e := Squared(d);
    assert e.x == d.x * d.x && e.y == d.y * d.y && e.z == d.z * d.z;
    SquareOrder(d.x, d.y);
    SquareOrder(d.x, d.z);
    SquareOrder(d.y, d.z);
    SquareOrder(d.x, limit);
    SquareOrder(d.y, limit);
    SquareOrder(d.z, limit);
    SameOrderSameHover(d, limit, e, limit * limit);
  }

  // ---------------------------------------------------------------------
  // Dragging along an axis.

  /** The pointer movement measured in lengths of the projected unit axis:
      `dot(axisDir, mouseDelta) / |axisDir|^2`. */
  function AxisMove(axisDir: Vec2, mouseDelta: Vec2): (t: real)
    requires SqLen(axisDir) > 0.0
    // t axis lengths squared make up the pointer delta's dot product with the axis.
    ensures t * SqLen(axisDir) == Dot(axisDir, mouseDelta)
  {
    Dot(axisDir, mouseDelta) / SqLen(axisDir)
  }

  /** Moving the pointer by t projected unit axes moves the object t units. */
  lemma AxisMoveAlongAxis(axisDir: Vec2, t: real)
    requires SqLen(axisDir) > 0.0
    ensures AxisMove(axisDir, Scale(t, axisDir)) == t
  {
    assert Dot(axisDir, Scale(t, axisDir)) == t * SqLen(axisDir);
  }

  /** Pointer movement across the axis moves nothing. */
  lemma AxisMovePerpendicular(axisDir: Vec2, mouseDelta: Vec2)
    requires SqLen(axisDir) > 0.0 && Dot(axisDir, mouseDelta) == 0.0
    ensures AxisMove(axisDir, mouseDelta) == 0.0
  {
  }

  /** The drag amount is linear in the pointer delta. */
  lemma AxisMoveLinear(axisDir: Vec2, u: Vec2, v: Vec2, a: real, b: real)
    requires SqLen(axisDir) > 0.0
    ensures AxisMove(axisDir, Add(Scale(a, u), Scale(b, v))) == a * AxisMove(axisDir, u) + b * AxisMove(axisDir, v)
  {
    var n := SqLen(axisDir);
    var w := Add(Scale(a, u), Scale(b, v));
    assert w.x == a * u.x + b * v.x && w.y == a * u.y + b * v.y;
    assert axisDir.x * w.x == a * (axisDir.x * u.x) + b * (axisDir.x * v.x);
    assert axisDir.y * w.y == a * (axisDir.y * u.y) + b * (axisDir.y * v.y);
    assert Dot(axisDir, w) == a * Dot(axisDir, u) + b * Dot(axisDir, v);
    DivideSum(a * Dot(axisDir, u), b * Dot(axisDir, v), n);
    DivideScaled(a, Dot(axisDir, u), n);
    DivideScaled(b, Dot(axisDir, v), n);
  }

  /** Scaling both the axis direction and the pointer delta by k != 0 leaves
      the drag amount unchanged. */
  lemma AxisMoveScaleInvariant(axisDir: Vec2, mouseDelta: Vec2, k: real)
    requires SqLen(axisDir) > 0.0 && k != 0.0
    ensures SqLen(Scale(k, axisDir)) > 0.0
    ensures AxisMove(Scale(k, axisDir), Scale(k, mouseDelta)) == AxisMove(axisDir, mouseDelta)
  {
    var n := SqLen(axisDir);
    var p := Dot(axisDir, mouseDelta);
    ScaledDot(k, axisDir, axisDir);
    ScaledDot(k, axisDir, mouseDelta);
    NonzeroProduct(k, n);
    NonzeroProduct(k, k * n);
    CancelFactor(k, k * p, k * n);
    CancelFactor(k, p, n);
  }

  lemma NonzeroProduct(a: real, b: real)
    requires a != 0.0 && b != 0.0
    ensures a * b != 0.0
  {
  }

  lemma ScaledDot(k: real, u: Vec2, v: Vec2)
    ensures Dot(Scale(k, u), Scale(k, v)) == k * (k * Dot(u, v))
  {
    assert (k * u.x) * (k * v.x) == k * (k * (u.x * v.x));
    assert (k * u.y) * (k * v.y) == k * (k * (u.y * v.y));
    assert k * (k * Dot(u, v)) == k * (k * (u.x * v.x)) + k * (k * (u.y * v.y));
  }

  lemma DivideSum(p: real, q: real, n: real)
    requires n != 0.0
    ensures (p + q) / n == p / n + q / n
  {
  }

  lemma DivideScaled(a: real, p: real, n: real)
    requires n != 0.0
    ensures (a * p) / n == a * (p / n)
  {
  }

  lemma CancelFactor(c: real, p: real, n: real)
    requires c != 0.0
    requires n != 0.0
    ensures (c * p) / (c * n) == p / n
  {
  }

  /** `moveAxis`: adds the drag amount along `axisEndPoint - startPoint` to
      coordinate `axisIndex` of the inspected transform, when there is one. */
  function MoveAxis(axisEndPoint: Vec2, startPoint: Vec2, axisIndex: nat, mouseDelta: Vec2,
                    inspectTransform: Option<Position>): (r: Option<Position>)
    requires axisIndex < 3
    requires SqLen(Sub(axisEndPoint, startPoint)) > 0.0
    ensures r.Some? <==> inspectTransform.Some?
    ensures r.Some? ==>
              r.value[axisIndex] == inspectTransform.value[axisIndex]
                                    + AxisMove(Sub(axisEndPoint, startPoint), mouseDelta)
    ensures r.Some? ==> forall i :: 0 <= i < 3 && i != axisIndex ==> r.value[i] == inspectTransform.value[i]
  {
    var axisDir := Sub(axisEndPoint, startPoint);
    var axisMove := AxisMove(axisDir, mouseDelta);
    match inspectTransform
    case None => None
    case Some(p) => Some(p[axisIndex := p[axisIndex] + axisMove])
  }

  // ---------------------------------------------------------------------
  // One frame of `drawInspectEntity`.

  /** What the frame reads: pointer state maintained by the viewport base
      system, and the viewport projections of the model origin and of the
      unit axis end points. `movingAxis == None` models a null or empty name. */
  datatype FrameInput = FrameInput(
    mouseInCanvas: bool,
    mousePosition: Vec2,
    mouseDelta: Vec2,
    movingAxis: Option<string>,
    startPoint: Vec2,
    endPoints: PerAxis<Vec2>)

  /** The gizmo state a frame may change: the hovered axis, the contents of the
      tip-size buffer, and the inspected transform's position. */
  datatype Gizmo = Gizmo(
    highlightAxis: Option<Axis>,
    tipSizes: seq<real>,
    inspectTransform: Option<Position>)

  /** The axis being dragged, if `movingAxis` names one. */
  function DraggedAxis(f: FrameInput): (r: Option<Axis>)
    ensures r.Some? ==> f.movingAxis.Some? && AxisName(r.value) == f.movingAxis.value
    ensures r.None? ==> f.movingAxis.None? || forall a :: AxisName(a) != f.movingAxis.value
  {
    if f.movingAxis.Some? then ParseAxis(f.movingAxis.value) else None
  }

  /** Squared viewport distances from the pointer to the three tips. */
  function TipDistances(f: FrameInput): (d: PerAxis<real>)
    ensures forall a :: d.Get(a) == SqDist(f.mousePosition, f.endPoints.Get(a))
  {
    PerAxis(SqDist(f.mousePosition, f.endPoints.x),
            SqDist(f.mousePosition, f.endPoints.y),
            SqDist(f.mousePosition, f.endPoints.z))
  }

  /** The source divides by the squared length of the dragged axis's
      projection without a guard; a frame that drags needs it non-zero. */
  predicate DragDefined(f: FrameInput)
  {
    f.mouseInCanvas && DraggedAxis(f).Some? ==>
      SqLen(Sub(f.endPoints.Get(DraggedAxis(f).value), f.startPoint)) > 0.0
  }

  /** The selection and drag part of `drawInspectEntity`. Everything happens
      only while the pointer is in the canvas: the hover is re-evaluated, the
      dragged axis (if any) moves the transform, and the tip sizes are uploaded. */
  function DrawInspectEntity(g: Gizmo, f: FrameInput): (g': Gizmo)
    requires DragDefined(f)
    ensures !f.mouseInCanvas ==> g' == g
    ensures f.mouseInCanvas ==>
              forall a :: g'.highlightAxis == Some(a) <==>
                            IsHovered(a, TipDistances(f), MoveControlThreshold * MoveControlThreshold)
    ensures f.mouseInCanvas ==> |g'.tipSizes| == 3 && forall i :: 0 <= i < 3 ==>
              (g'.tipSizes[i] == HighlightedTipSize <==>
                 g'.highlightAxis.Some? && i == AxisIndex(g'.highlightAxis.value))
    ensures f.mouseInCanvas ==> forall i :: 0 <= i < 3 ==>
              (g'.tipSizes[i] == HighlightedTipSize || g'.tipSizes[i] == TipSize)
    ensures g'.inspectTransform.Some? <==> g.inspectTransform.Some?
    ensures !(f.mouseInCanvas && DraggedAxis(f).Some?) ==> g'.inspectTransform == g.inspectTransform
    ensures f.mouseInCanvas && DraggedAxis(f).Some? && g.inspectTransform.Some? ==>
              var a := DraggedAxis(f).value;
              forall i :: 0 <= i < 3 ==>
                g'.inspectTransform.value[i] ==
                  g.inspectTransform.value[i]
                  + (if i == AxisIndex(a) then AxisMove(Sub(f.endPoints.Get(a), f.startPoint), f.mouseDelta) else 0.0)
  {
    if !f.mouseInCanvas then g
    else
      var hover := NearestAxis(TipDistances(f), MoveControlThreshold * MoveControlThreshold);
      var moved :=
        match DraggedAxis(f)
        case None => g.inspectTransform
        case Some(a) => MoveAxis(f.endPoints.Get(a), f.startPoint, AxisIndex(a), f.mouseDelta, g.inspectTransform);
      Gizmo(hover.axis, hover.tipSizes, moved)
  }

  /** For any Euclidean distances (the square roots of the squared ones the
      frame uses) a frame in the canvas highlights the axis, and uploads the
      tip sizes, that the 10 px test on those distances selects. */
  lemma FrameMatchesEuclideanSelection(g: Gizmo, f: FrameInput, dist: PerAxis<real>)
    requires DragDefined(f) && f.mouseInCanvas
    requires dist.x >= 0.0 && dist.y >= 0.0 && dist.z >= 0.0
    requires Squared(dist) == TipDistances(f)
    ensures DrawInspectEntity(g, f).highlightAxis == NearestAxis(dist, MoveControlThreshold).axis
    ensures DrawInspectEntity(g, f).tipSizes == NearestAxis(dist, MoveControlThreshold).tipSizes
  {
    SquaredSelectsSameAxis(dist, MoveControlThreshold);
  }

  /** A worked frame: the x tip projects 10 px right of the origin, the pointer
      is 2 px beyond it and moves 2 px right while x is dragged. */
  const ScenarioFrame: FrameInput :=
    FrameInput(true, Vec2(112.0, 50.0), Vec2(2.0, 0.0), Some("x"), Vec2(100.0, 50.0),
               PerAxis(Vec2(110.0, 50.0), Vec2(100.0, 40.0), Vec2(93.0, 57.0)))

  /** In that frame x is highlighted and the object moves 0.2 along x. */
  lemma DragScenario()
    ensures DragDefined(ScenarioFrame)
    ensures DrawInspectEntity(Gizmo(None, AxisTipSizes(), Some([0.0, 0.0, 0.0])), ScenarioFrame)
            == Gizmo(Some(X), [20.0, 10.0, 10.0], Some([0.2, 0.0, 0.0]))
  {
    var f := ScenarioFrame;
    var g := Gizmo(None, AxisTipSizes(), Some([0.0, 0.0, 0.0]));
    assert DraggedAxis(f) == Some(X);
    assert SqDist(f.mousePosition, f.endPoints.x) == 4.0;
    assert SqDist(f.mousePosition, f.endPoints.y) == 244.0;
    assert SqDist(f.mousePosition, f.endPoints.z) == 410.0;
    assert TipDistances(f) == PerAxis(4.0, 244.0, 410.0);
    assert NearestAxis(PerAxis(4.0, 244.0, 410.0), 100.0) == Hover(Some(X), [20.0, 10.0, 10.0]);
    assert Sub(Vec2(110.0, 50.0), Vec2(100.0, 50.0)) == Vec2(10.0, 0.0);
    assert AxisMove(Vec2(10.0, 0.0), Vec2(2.0, 0.0)) == 0.2;
    var moved: seq<real> := [0.0, 0.0, 0.0][0 := 0.0 + 0.2];
    assert moved == [0.2, 0.0, 0.0] by {
      assert |moved| == 3 && moved[0] == 0.2 && moved[1] == 0.0 && moved[2] == 0.0;
    }
    assert MoveAxis(Vec2(110.0, 50.0), Vec2(100.0, 50.0), 0, Vec2(2.0, 0.0), g.inspectTransform)
           == Some([0.2, 0.0, 0.0]);
  }
}
