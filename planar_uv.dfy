/**
 * The TV screen's texture mapping: the screen mesh's bounding box, the two
 * axes along which it is largest, a planar projection that maps every vertex
 * into the unit square along those axes, and the box centre used to place the
 * screen's positional audio.
 */
module PlanarUv {
  import opened Base

  datatype Vec3 = Vec3(x: real, y: real, z: real)

  const Origin := Vec3(0.0, 0.0, 0.0)

  /** An axis index: 0 for x, 1 for y, 2 for z. */
  type Axis = a: int | 0 <= a < 3

  /** `getComponent(i, axis)` on a vertex. */
  function Component(p: Vec3, a: Axis): real {
    if a == 0 then p.x else if a == 1 then p.y else p.z
  }

  /** A JavaScript number as far as division needs: finite, NaN or an infinity. */
  datatype Float = Finite(value: real) | NaN | PosInf | NegInf

  /** JavaScript `/` on finite operands: dividing by zero gives NaN for 0/0 and a signed infinity otherwise. */
  function Divide(a: real, b: real): (q: Float)
    ensures b != 0.0 <==> q.Finite?
    ensures q.Finite? ==> q.value * b == a
    ensures q == NaN <==> a == 0.0 && b == 0.0
  {
    if b != 0.0 then Finite(a / b)
    else if a == 0.0 then NaN
    else if a > 0.0 then PosInf
    else NegInf
  }

  /** `0 <= a / b <= 1` when `0 <= a <= b` and `b > 0`. */
  lemma DivideIntoUnit(a: real, b: real)
    requires 0.0 <= a <= b && b > 0.0
    ensures Divide(a, b).Finite? && 0.0 <= Divide(a, b).value <= 1.0
  {
    var q := a / b;
    assert q * b == a;
  }

  /** A three.js `Box3`: either empty (nothing added yet) or the box from `min` to `max`. */
  datatype Box3 = Empty | Box(min: Vec3, max: Vec3)

  predicate Inside(b: Box3, p: Vec3) {
    b.Box? &&
    b.min.x <= p.x <= b.max.x && b.min.y <= p.y <= b.max.y && b.min.z <= p.z <= b.max.z
  }

  /** `expandByPoint`. */
  function Expand(b: Box3, p: Vec3): (r: Box3)
    ensures Inside(r, p)
    ensures forall q :: Inside(b, q) ==> Inside(r, q)
    ensures r.Box?
    ensures forall a: Axis :: Component(r.min, a) == Component(p, a) || (b.Box? && Component(r.min, a) == Component(b.min, a))
    ensures forall a: Axis :: Component(r.max, a) == Component(p, a) || (b.Box? && Component(r.max, a) == Component(b.max, a))
  {
    match b
    case Empty => Box(p, p)
    case Box(lo, hi) =>
      Box(Vec3(Min(lo.x, p.x), Min(lo.y, p.y), Min(lo.z, p.z)),
          Vec3(Max(hi.x, p.x), Max(hi.y, p.y), Max(hi.z, p.z)))
  }

  function Min(a: real, b: real): real { if a <= b then a else b }
  function Max(a: real, b: real): real { if a >= b then a else b }

  /** `computeBoundingBox` over the position attribute: the box around every vertex. */
  function BoundingBox(positions: seq<Vec3>): (b: Box3)
    ensures b.Empty? <==> positions == []
    ensures forall i :: 0 <= i < |positions| ==> Inside(b, positions[i])
    decreases |positions|
  {
    if positions == [] then Empty
    else
      var init := positions[..|positions| - 1];
      var b := Expand(BoundingBox(init), positions[|positions| - 1]);
      assert forall i :: 0 <= i < |init| ==> positions[i] == init[i];
      b
  }

  /** Along every axis some vertex lies on the box's minimum face. */
  predicate MinAttained(positions: seq<Vec3>, b: Box3, a: Axis)
    requires b.Box?
  {
    exists i :: 0 <= i < |positions| && Component(positions[i], a) == Component(b.min, a)
  }

  predicate MaxAttained(positions: seq<Vec3>, b: Box3, a: Axis)
    requires b.Box?
  {
    exists i :: 0 <= i < |positions| && Component(positions[i], a) == Component(b.max, a)
  }

  /**
   * The bounding box is the tightest one: for a non-empty mesh each of its six
   * faces touches a vertex, so no smaller box contains every vertex.
   */
  lemma {:induction false} BoundingBoxTight(positions: seq<Vec3>)
    requires positions != []
    ensures forall a: Axis :: MinAttained(positions, BoundingBox(positions), a)
    ensures forall a: Axis :: MaxAttained(positions, BoundingBox(positions), a)
    decreases |positions|
  {
    var n := |positions|;
    var init := positions[..n - 1];
    var last := positions[n - 1];
    var b := BoundingBox(positions);
    assert b == Expand(BoundingBox(init), last);
    if init != [] {
      BoundingBoxTight(init);
    }
    forall a: Axis
      ensures MinAttained(positions, b, a) && MaxAttained(positions, b, a)
    {
      if Component(b.min, a) == Component(last, a) {
        assert Component(positions[n - 1], a) == Component(b.min, a);
      } else {
        assert MinAttained(init, BoundingBox(init), a);
        var j :| 0 <= j < |init| && Component(init[j], a) == Component(BoundingBox(init).min, a);
        assert positions[j] == init[j];
      }
      if Component(b.max, a) == Component(last, a) {
        assert Component(positions[n - 1], a) == Component(b.max, a);
      } else {
        assert MaxAttained(init, BoundingBox(init), a);
        var j :| 0 <= j < |init| && Component(init[j], a) == Component(BoundingBox(init).max, a);
        assert positions[j] == init[j];
      }
    }
  }

  /** `getSize`: zero for an empty box. */
  function Size(b: Box3): (s: Vec3)
    ensures b.Empty? ==> s == Origin
    ensures b.Box? ==> forall a: Axis :: Component(s, a) == Component(b.max, a) - Component(b.min, a)
  {
    match b
    case Empty => Origin
    case Box(lo, hi) => Vec3(hi.x - lo.x, hi.y - lo.y, hi.z - lo.z)
  }

  /** `getCenter`: zero for an empty box. */
  function Center(b: Box3): (c: Vec3)
    ensures b.Box? && b.min.x <= b.max.x && b.min.y <= b.max.y && b.min.z <= b.max.z ==> Inside(b, c)
    ensures b.Empty? ==> c == Origin
  {
    match b
    case Empty => Origin
    case Box(lo, hi) => Vec3((lo.x + hi.x) / 2.0, (lo.y + hi.y) / 2.0, (lo.z + hi.z) / 2.0)
  }

  /**
   * The first two axes after a stable sort by extent, largest first: the
   * lowest-numbered largest axis, then the lowest-numbered largest of the
   * other two.
   */
  function DominantAxes(size: Vec3): (uv: (Axis, Axis))
    ensures uv.0 != uv.1
    ensures forall a: Axis :: Component(size, a) <= Component(size, uv.0)
    ensures forall a: Axis :: a != uv.0 ==> Component(size, a) <= Component(size, uv.1)
    ensures forall a: Axis :: a < uv.0 ==> Component(size, a) < Component(size, uv.0)
    ensures forall a: Axis :: a < uv.1 && a != uv.0 ==> Component(size, a) < Component(size, uv.1)
  {
    var u: Axis := if size.x >= size.y && size.x >= size.z then 0 else if size.y >= size.z then 1 else 2;
    var v: Axis :=
      if u == 0 then (if size.y >= size.z then 1 else 2)
      else if u == 1 then (if size.x >= size.z then 0 else 2)
      else (if size.x >= size.y then 0 else 1);
    (u, v)
  }

  /** The projection: the two axes, and the box minimum and extent along each. */
  datatype Projection = Projection(uAxis: Axis, vAxis: Axis, minU: real, rangeU: real, minV: real, rangeV: real)

  /**
   * The projection chosen for a box. An empty box has no minimum worth
   * reading (three.js keeps +Infinity there); it only arises with no
   * vertices, so 0 stands in for it.
   */
  function ChooseProjection(b: Box3): (pr: Projection)
    ensures (pr.uAxis, pr.vAxis) == DominantAxes(Size(b))
    ensures pr.rangeU == Component(Size(b), pr.uAxis) && pr.rangeV == Component(Size(b), pr.vAxis)
    ensures b.Box? ==> pr.minU == Component(b.min, pr.uAxis) && pr.minV == Component(b.min, pr.vAxis)
    ensures pr.rangeU >= pr.rangeV
  {
    var size := Size(b);
    var axes := DominantAxes(size);
    var lo := if b.Box? then b.min else Origin;
    Projection(axes.0, axes.1,
      Component(lo, axes.0), Component(size, axes.0),
      Component(lo, axes.1), Component(size, axes.1))
  }

  /** One vertex's texture coordinates. */
  function UvAt(pr: Projection, p: Vec3): (uv: (Float, Float))
    ensures uv.0.Finite? <==> pr.rangeU != 0.0
    ensures uv.1.Finite? <==> pr.rangeV != 0.0
  {
    (Divide(Component(p, pr.uAxis) - pr.minU, pr.rangeU), Divide(Component(p, pr.vAxis) - pr.minV, pr.rangeV))
  }

  lemma ComponentInside(b: Box3, p: Vec3, a: Axis)
    requires Inside(b, p)
    ensures Component(b.min, a) <= Component(p, a) <= Component(b.max, a)
    ensures Component(Size(b), a) == Component(b.max, a) - Component(b.min, a)
  {
  }

  /** A vertex inside a box maps into the unit square under that box's projection. */
  lemma UvInUnitSquare(b: Box3, p: Vec3)
    requires Inside(b, p) && ChooseProjection(b).rangeV > 0.0
    ensures var uv := UvAt(ChooseProjection(b), p);
      uv.0.Finite? && uv.1.Finite? &&
      0.0 <= uv.0.value <= 1.0 && 0.0 <= uv.1.value <= 1.0
  {
    var pr := ChooseProjection(b);
    ComponentInside(b, p, pr.uAxis);
    ComponentInside(b, p, pr.vAxis);
    var u, v := Component(p, pr.uAxis) - pr.minU, Component(p, pr.vAxis) - pr.minV;
    assert 0.0 <= u <= pr.rangeU && 0.0 <= v <= pr.rangeV;
    DivideIntoUnit(u, pr.rangeU);
    DivideIntoUnit(v, pr.rangeV);
    assert UvAt(pr, p) == (Divide(u, pr.rangeU), Divide(v, pr.rangeV));
  }

  /** With both extents positive, every vertex of the mesh maps into the unit square. */
  lemma UvsInUnitSquare(positions: seq<Vec3>, i: int)
    requires 0 <= i < |positions|
    requires ChooseProjection(BoundingBox(positions)).rangeV > 0.0
    ensures var uv := UvAt(ChooseProjection(BoundingBox(positions)), positions[i]);
      uv.0.Finite? && uv.1.Finite? &&
      0.0 <= uv.0.value <= 1.0 && 0.0 <= uv.1.value <= 1.0
  {
    UvInUnitSquare(BoundingBox(positions), positions[i]);
  }

  /** A screen with area (two positive extents) has a positive second range. */
  lemma TwoPositiveExtentsGivePositiveRanges(b: Box3, a1: Axis, a2: Axis)
    requires a1 != a2 && Component(Size(b), a1) > 0.0 && Component(Size(b), a2) > 0.0
    ensures ChooseProjection(b).rangeU > 0.0 && ChooseProjection(b).rangeV > 0.0
  {
    var pr := ChooseProjection(b);
    if a1 != pr.uAxis {
      assert Component(Size(b), a1) <= pr.rangeV;
    } else {
      assert Component(Size(b), a2) <= pr.rangeV;
    }
  }

  /** A mesh that is flat along the second axis gets NaN for every second coordinate. */
  lemma FlatSecondAxisGivesNaN(positions: seq<Vec3>, i: int)
    requires 0 <= i < |positions|
    requires ChooseProjection(BoundingBox(positions)).rangeV == 0.0
    ensures UvAt(ChooseProjection(BoundingBox(positions)), positions[i]).1 == NaN
  {
    var b := BoundingBox(positions);
    var pr := ChooseProjection(b);
    ComponentInside(b, positions[i], pr.vAxis);
  }

  /**
   * The loop that fills the texture-coordinate buffer: two entries per
   * vertex, `u` at `2i` and `v` at `2i + 1`.
   */
  method FillPlanarUvs(positions: seq<Vec3>, pr: Projection) returns (uvs: array<Float>)
    ensures uvs.Length == 2 * |positions|
    ensures forall i :: 0 <= i < |positions| ==>
      uvs[2 * i] == UvAt(pr, positions[i]).0 && uvs[2 * i + 1] == UvAt(pr, positions[i]).1
  {
    var count := |positions|;
    uvs := new Float[count * 2](_ => Finite(0.0));
    for i := 0 to count
      invariant forall j :: 0 <= j < i ==>
        uvs[2 * j] == UvAt(pr, positions[j]).0 && uvs[2 * j + 1] == UvAt(pr, positions[j]).1
    {
      var uVal := Component(positions[i], pr.uAxis);
      var vVal := Component(positions[i], pr.vAxis);
      uvs[i * 2] := Divide(uVal - pr.minU, pr.rangeU);
      uvs[i * 2 + 1] := Divide(vVal - pr.minV, pr.rangeV);
    }
  }

  /** The screen mesh's geometry: its positions, its computed box and its texture coordinates. */
  class ScreenGeometry {
    const positions: seq<Vec3>
    var boundingBox: Option<Box3>
    var uv: array?<Float>

    constructor (positions: seq<Vec3>)
      ensures this.positions == positions && boundingBox == None && uv == null
    {
      this.positions := positions;
      boundingBox := None;
      uv := null;
    }

    /** `computeBoundingBox`. */
    method ComputeBoundingBox()
      modifies this
      ensures boundingBox == Some(BoundingBox(positions)) && uv == old(uv)
    {
      boundingBox := Some(BoundingBox(positions));
    }
  }

  /** The scene component's state that the layout effect writes. */
  class SceneModel {
    var audioPos: Vec3

    constructor ()
      ensures audioPos == Origin
    {
      audioPos := Origin;
    }

    /**
     * The layout effect: with the screen mesh present, project its vertices
     * onto the box's two largest axes, attach the result as its `uv`
     * attribute and put the audio at the box centre.
     */
    method LayoutEffect(screen: ScreenGeometry?)
      modifies this, screen
      ensures screen == null ==> audioPos == old(audioPos)
      ensures screen != null ==>
        screen.boundingBox == Some(BoundingBox(screen.positions)) &&
        audioPos == Center(BoundingBox(screen.positions)) &&
        screen.uv != null && screen.uv.Length == 2 * |screen.positions| &&
        forall i :: 0 <= i < |screen.positions| ==>
          var uv := UvAt(ChooseProjection(BoundingBox(screen.positions)), screen.positions[i]);
          screen.uv[2 * i] == uv.0 && screen.uv[2 * i + 1] == uv.1
    {
      if screen != null {
        screen.ComputeBoundingBox();
        var bbox := screen.boundingBox;
        if bbox.Some? {
          var pr := ChooseProjection(bbox.value);
          var uvs := FillPlanarUvs(screen.positions, pr);
          screen.uv := uvs;
          audioPos := Center(bbox.value);
        }
      }
    }
  }
}
