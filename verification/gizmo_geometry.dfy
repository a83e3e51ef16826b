/** The transform gizmo's vocabulary: the three axes, per-axis triples,
    viewport vectors, and the static vertex tables uploaded by the gizmo's
    `init` (the point handle, the three axis lines and the three axis tips). */
module GizmoGeometry {
  import opened Results

  datatype Axis = X | Y | Z

  /** The coordinate an axis moves: x is 0, y is 1, z is 2. */
  function AxisIndex(a: Axis): (i: nat)
    ensures i < 3
  {
    match a
    case X => 0
    case Y => 1
    case Z => 2
  }

  /** The axis moving coordinate `i`; the inverse of `AxisIndex`. */
  function AxisAt(i: nat): (a: Axis)
    requires i < 3
    ensures AxisIndex(a) == i
  {
    if i == 0 then X else if i == 1 then Y else Z
  }

  lemma AxisIndexInjective(a: Axis, b: Axis)
    ensures AxisIndex(a) == AxisIndex(b) <==> a == b
    ensures AxisAt(AxisIndex(a)) == a
  {
  }

  /** The name the editor stores in `movingAxis` and `highlightAxis`. */
  function AxisName(a: Axis): string
  {
    match a
    case X => "x"
    case Y => "y"
    case Z => "z"
  }

  /** The `switch (movingAxis)` of the drag step: "x", "y" and "z" select an
      axis; every other name falls to the `default` case and selects none. */
  function ParseAxis(name: string): (r: Option<Axis>)
    ensures r.Some? ==> AxisName(r.value) == name
    ensures r.None? ==> forall a :: AxisName(a) != name
  {
    if name == "x" then Some(X)
    else if name == "y" then Some(Y)
    else if name == "z" then Some(Z)
    else None
  }

  lemma ParseAxisName(a: Axis)
    ensures ParseAxis(AxisName(a)) == Some(a)
  {
  }

  /** One value per axis, such as the three tip distances or end points. */
  datatype PerAxis<T> = PerAxis(x: T, y: T, z: T) {
    function Get(a: Axis): T
    {
      match a
      case X => x
      case Y => y
      case Z => z
    }
  }

  /** A point or vector in viewport pixel space (the x and y of a projected point). */
  datatype Vec2 = Vec2(x: real, y: real)

  function Sub(p: Vec2, q: Vec2): Vec2
  {
    Vec2(p.x - q.x, p.y - q.y)
  }

  function Add(p: Vec2, q: Vec2): Vec2
  {
    Vec2(p.x + q.x, p.y + q.y)
  }

  function Scale(k: real, p: Vec2): Vec2
  {
    Vec2(k * p.x, k * p.y)
  }

  function Dot(p: Vec2, q: Vec2): real
  {
    p.x * q.x + p.y * q.y
  }

  /** The squared length, `vec2.length(v)` squared. */
  function SqLen(v: Vec2): real
  {
    Dot(v, v)
  }

  /** The squared Euclidean distance, `vec2.distance(p, q)` squared. */
  function SqDist(p: Vec2, q: Vec2): (d: real)
    ensures d >= 0.0
  {
    SqLen(Sub(p, q))
  }

  /** A 3-component position (the `position.value` of a transform). */
  type Position = p: seq<real> | |p| == 3 witness [0.0, 0.0, 0.0]

  // ---------------------------------------------------------------------
  // Static tables uploaded at init.

  /** The hover threshold in viewport pixels. */
  const MoveControlThreshold: real := 10.0
  /** The rendered size of an axis tip, and of the hovered tip. */
  const TipSize: real := 10.0
  const HighlightedTipSize: real := 20.0

  const Red: seq<real> := [1.0, 0.0, 0.0, 1.0]
  const Green: seq<real> := [0.0, 1.0, 0.0, 1.0]
  const Blue: seq<real> := [0.0, 0.0, 1.0, 1.0]
  const White: seq<real> := [1.0, 1.0, 1.0, 1.0]

  const Origin: seq<real> := [0.0, 0.0, 0.0]

  /** The model-space end point of the unit segment along an axis. */
  function UnitVector(a: Axis): (v: seq<real>)
    ensures |v| == 3
    ensures forall j :: 0 <= j < 3 ==> v[j] == if j == AxisIndex(a) then 1.0 else 0.0
  {
    match a
    case X => [1.0, 0.0, 0.0]
    case Y => [0.0, 1.0, 0.0]
    case Z => [0.0, 0.0, 1.0]
  }

  /** The colour the source gives each axis: x red, y blue, z green. */
  function AxisColor(a: Axis): seq<real>
  {
    match a
    case X => Red
    case Y => Blue
    case Z => Green
  }

  /** The point handle: one vertex at the model origin, size 10, white. */
  function PointVertices(): (r: seq<seq<real>>)
    ensures r == [Origin]
  {
    [[0.0, 0.0, 0.0]]
  }

  function PointSizes(): (r: seq<real>)
    ensures r == [TipSize]
  {
    [10.0]
  }

  function PointColors(): (r: seq<seq<real>>)
    ensures r == [White]
  {
    [[1.0, 1.0, 1.0, 1.0]]
  }

  /** The three axis lines, drawn as `LINES`: pair i runs from the origin to the
      unit point of axis i. */
  function AxisVertices(): (r: seq<seq<real>>)
    ensures |r| == 6
    ensures forall a :: r[2 * AxisIndex(a)] == Origin && r[2 * AxisIndex(a) + 1] == UnitVector(a)
  {
    [[0.0, 0.0, 0.0], [1.0, 0.0, 0.0],
     [0.0, 0.0, 0.0], [0.0, 1.0, 0.0],
     [0.0, 0.0, 0.0], [0.0, 0.0, 1.0]]
  }

  /** Both vertices of line pair i carry the colour of axis i. */
  function AxisColors(): (r: seq<seq<real>>)
    ensures |r| == 6
    ensures forall a :: r[2 * AxisIndex(a)] == AxisColor(a) && r[2 * AxisIndex(a) + 1] == AxisColor(a)
  {
    [[1.0, 0.0, 0.0, 1.0], [1.0, 0.0, 0.0, 1.0],
     [0.0, 0.0, 1.0, 1.0], [0.0, 0.0, 1.0, 1.0],
     [0.0, 1.0, 0.0, 1.0], [0.0, 1.0, 0.0, 1.0]]
  }

  /** Tip i sits on the far end of line pair i. */
  function AxisTipVertices(): (r: seq<seq<real>>)
    ensures |r| == 3
    ensures forall a :: r[AxisIndex(a)] == AxisVertices()[2 * AxisIndex(a) + 1]
  {
    [[1.0, 0.0, 0.0], [0.0, 1.0, 0.0], [0.0, 0.0, 1.0]]
  }

  /** Before any hover every tip has the normal size. */
  function AxisTipSizes(): (r: seq<real>)
    ensures |r| == 3
    ensures forall i :: 0 <= i < 3 ==> r[i] == TipSize
  {
    [10.0, 10.0, 10.0]
  }

  /** Tip i has the colour of line pair i. */
  function AxisTipColors(): (r: seq<seq<real>>)
    ensures |r| == 3
    ensures forall a :: r[AxisIndex(a)] == AxisColors()[2 * AxisIndex(a)]
                        && r[AxisIndex(a)] == AxisColors()[2 * AxisIndex(a) + 1]
  {
    [[1.0, 0.0, 0.0, 1.0], [0.0, 0.0, 1.0, 1.0], [0.0, 1.0, 0.0, 1.0]]
  }
}
