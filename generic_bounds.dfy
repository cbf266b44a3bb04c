/**
  `BoundingBox` (build_generic.py, lines 151-212): the bounding box of each
  object, as a solid in BuildPart and as an outline face in BuildSketch.
*/
module GenericBounds {
  import opened Wrappers
  import opened Geometry
  import opened BuildCommon
  import opened Generic

  // BoundingBox (lines 151-212)

  /** `[obj for obj in objects if not isinstance(obj, Vertex)]`, in order. */
  function NonVertices(xs: seq<Shape>): seq<Shape>
    decreases |xs|
  {
    if xs == [] then []
    else
      var n := |xs| - 1;
      NonVertices(xs[..n]) + (if xs[n].kind != Vertex then [xs[n]] else [])
  }

  lemma NonVerticesSnoc(xs: seq<Shape>, x: Shape)
    ensures NonVertices(xs + [x]) == NonVertices(xs) + (if x.kind != Vertex then [x] else [])
  {
    assert (xs + [x])[..|xs|] == xs;
  }

  /** The filter drops exactly the vertices. */
  lemma {:induction false} NonVerticesMembers(xs: seq<Shape>)
    ensures forall x :: x in NonVertices(xs) <==> x in xs && x.kind != Vertex
    ensures |NonVertices(xs)| <= |xs|
    decreases |xs|
  {
    if xs != [] {
      var n := |xs| - 1;
      NonVerticesMembers(xs[..n]);
      assert xs == xs[..n] + [xs[n]];
    }
  }

  /** The size and the minimum corner of `Solid.makeBox` for a bounding box. */
  function BoxSize(bb: BBox): Vec {
    Vec(bb.max.x - bb.min.x, bb.max.y - bb.min.y, bb.max.z - bb.min.z)
  }

  /** Lines 177-184: the solid box of a shape's bounding box. */
  function BoxOf(k: Kernel, s: Shape): Shape {
    MakeBox(k, BoxSize(k.boundingBox(s)), k.boundingBox(s).min)
  }

  /** The corner and the size given to `makeBox` reconstruct the bounding box exactly. */
  lemma BoxSpansBoundingBox(k: Kernel, s: Shape)
    ensures var bb := k.boundingBox(s);
      exists size: Vec, corner: Vec :: BoxOf(k, s) == MakeBox(k, size, corner) &&
        corner == bb.min &&
        Vec(corner.x + size.x, corner.y + size.y, corner.z + size.z) == bb.max
  {
    var bb := k.boundingBox(s);
    assert Vec(bb.min.x + BoxSize(bb).x, bb.min.y + BoxSize(bb).y, bb.min.z + BoxSize(bb).z) == bb.max;
  }

  /**
    Lines 195-201: the closed outline of a bounding box in the xy plane,
    counter-clockwise from the minimum corner (a two-element tuple becomes a
    vector with z = 0).
  */
  function RectangleCorners(bb: BBox): (pts: seq<Vec>)
    ensures |pts| == 5 && pts[0] == pts[4]
    ensures forall i :: 0 <= i < 5 ==> pts[i].z == 0.0
  {
    [Vec(bb.min.x, bb.min.y, 0.0), Vec(bb.min.x, bb.max.y, 0.0), Vec(bb.max.x, bb.max.y, 0.0),
     Vec(bb.max.x, bb.min.y, 0.0), Vec(bb.min.x, bb.min.y, 0.0)]
  }

  /**
    The outline is made of axis-parallel sides: consecutive corners share one
    coordinate, and its corners are exactly the four extreme pairs of the box.
  */
  lemma RectangleIsAxisAligned(bb: BBox)
    ensures var pts := RectangleCorners(bb);
      (forall i :: 0 <= i < 4 ==> pts[i].x == pts[i + 1].x || pts[i].y == pts[i + 1].y) &&
      (forall p :: p in pts <==>
        (p.x == bb.min.x || p.x == bb.max.x) && (p.y == bb.min.y || p.y == bb.max.y) && p.z == 0.0)
  {
    var pts := RectangleCorners(bb);
    forall p: Vec | (p.x == bb.min.x || p.x == bb.max.x) && (p.y == bb.min.y || p.y == bb.max.y) && p.z == 0.0
      ensures p in pts
    {
      if p.x == bb.min.x && p.y == bb.min.y {
        assert p == pts[0];
      } else if p.x == bb.min.x {
        assert p == pts[1];
      } else if p.y == bb.max.y {
        assert p == pts[2];
      } else {
        assert p == pts[3];
      }
    }
  }

  /** Lines 194-203: the face of a shape's bounding box outline. */
  function RectangleOf(k: Kernel, s: Shape): Shape {
    PolygonFace(k, RectangleCorners(k.boundingBox(s)))
  }

  /** What `BoundingBox` makes of one shape: a box in BuildPart, an outline face otherwise. */
  function Bound(k: Kernel, v: Variant, s: Shape): (r: Shape)
    ensures r.kind == (if v == BuildPart then Solid else Face)
  {
    if v == BuildPart then BoxOf(k, s) else RectangleOf(k, s)
  }

  function Bounds(k: Kernel, v: Variant, xs: seq<Shape>): seq<Shape> {
    seq(|xs|, i requires 0 <= i < |xs| => Bound(k, v, xs[i]))
  }

  lemma BoundsSnoc(k: Kernel, v: Variant, xs: seq<Shape>, x: Shape)
    ensures Bounds(k, v, xs + [x]) == Bounds(k, v, xs) + [Bound(k, v, x)]
  {
  }

  /** `for face in faces: context._add_to_context(face, mode=mode)`: one call per face. */
  function OneByOne(xs: seq<Shape>, mode: Mode): seq<Call> {
    seq(|xs|, i requires 0 <= i < |xs| => AddToContext([xs[i]], mode))
  }

  /**
    Lines 172-212. BuildPart merges the boxes of all non-vertex objects in one
    call; BuildSketch merges the outline faces one call at a time; any other
    builder raises RuntimeError.
  */
  function BoundingBoxCalls(k: Kernel, ctx: Context, objects: seq<Shape>, mode: Mode): (r: Result<Effect, Error>)
    ensures r.Success? ==> forall c :: c in r.value.calls ==> c.AddToContext? && c.mode == mode
  {
    match ctx.variant
    case BuildPart =>
      var boxes := Bounds(k, ctx.variant, NonVertices(objects));
      Success(Effect([AddToContext(boxes, mode)], MakeCompound(k, boxes)))
    case BuildSketch =>
      var faces := Bounds(k, ctx.variant, NonVertices(objects));
      Success(Effect(OneByOne(faces, mode), MakeCompound(k, faces)))
    case BuildLine => Failure(Unsupported("BoundingBox", ctx.variant))
    case OtherBuilder(_) => Failure(Unsupported("BoundingBox", ctx.variant))
  }

  /** `BoundingBox` fails exactly outside BuildPart and BuildSketch, with the builder's name in the message. */
  lemma BoundingBoxFailures(k: Kernel, ctx: Context, objects: seq<Shape>, mode: Mode)
    ensures BoundingBoxCalls(k, ctx, objects, mode).Failure? <==> ctx.variant != BuildPart && ctx.variant != BuildSketch
    ensures ctx.variant == BuildLine ==>
      BoundingBoxCalls(k, ctx, objects, mode) == Failure(RuntimeError("BoundingBox" + " does not support builder " + "BuildLine"))
  {
  }

  /**
    In BuildPart and BuildSketch every non-vertex object, and nothing else,
    contributes one shape of its bounding box: a solid box in BuildPart, a
    planar face in BuildSketch; vertices alone contribute nothing. BuildPart
    merges all the boxes in one call, BuildSketch each face in its own call.
  */
  lemma BoundingBoxShapes(k: Kernel, ctx: Context, objects: seq<Shape>, mode: Mode)
    requires ctx.variant == BuildPart || ctx.variant == BuildSketch
    ensures var r := BoundingBoxCalls(k, ctx, objects, mode);
      var made := Bounds(k, ctx.variant, NonVertices(objects));
      r.Success? && r.value.result == MakeCompound(k, made) &&
      r.value.calls == (if ctx.variant == BuildPart then [AddToContext(made, mode)] else OneByOne(made, mode)) &&
      |made| <= |objects| &&
      (forall x :: x in made <==> exists s :: s in objects && s.kind != Vertex && x == Bound(k, ctx.variant, s))
    ensures (forall i :: 0 <= i < |objects| ==> objects[i].kind == Vertex) ==>
      BoundingBoxCalls(k, ctx, objects, mode).value.calls ==
        (if ctx.variant == BuildPart then [AddToContext([], mode)] else [])
  {
    var kept := NonVertices(objects);
    NonVerticesMembers(objects);
    var made := Bounds(k, ctx.variant, kept);
    forall x | x in made
      ensures exists s :: s in objects && s.kind != Vertex && x == Bound(k, ctx.variant, s)
    {
      var i :| 0 <= i < |made| && made[i] == x;
      assert kept[i] in kept;
    }
    forall x, s | s in objects && s.kind != Vertex && x == Bound(k, ctx.variant, s)
      ensures x in made
    {
      assert s in kept;
      var i :| 0 <= i < |kept| && kept[i] == s;
      assert made[i] == x;
    }
  }

  /** Lines 172-212, with the loops of the source. */
  method BoundingBox(k: Kernel, ctx: Context, objects: seq<Shape>, mode: Mode) returns (r: Result<Effect, Error>)
    ensures r == BoundingBoxCalls(k, ctx, objects, mode)
  {
    if !(ctx.variant == BuildPart || ctx.variant == BuildSketch) {
      return Failure(Unsupported("BoundingBox", ctx.variant));
    }
    var made := CollectBounds(k, ctx.variant, objects);
    if ctx.variant == BuildPart {
      r := Success(Effect([AddToContext(made, mode)], MakeCompound(k, made)));
    } else {
      var calls := EachOnItsOwn(made, mode);
      r := Success(Effect(calls, MakeCompound(k, made)));
    }
  }

  /** Lines 174-185 and 191-204: the loop that skips vertices and bounds the rest. */
  method CollectBounds(k: Kernel, v: Variant, objects: seq<Shape>) returns (made: seq<Shape>)
    ensures made == Bounds(k, v, NonVertices(objects))
  {
    made := [];
    var i := 0;
    while i < |objects|
      invariant 0 <= i <= |objects|
      invariant made == Bounds(k, v, NonVertices(objects[..i]))
    {
      assert objects[..i + 1] == objects[..i] + [objects[i]];
      NonVerticesSnoc(objects[..i], objects[i]);
      if objects[i].kind != Vertex {
        BoundsSnoc(k, v, NonVertices(objects[..i]), objects[i]);
        made := made + [Bound(k, v, objects[i])];
      }
      i := i + 1;
    }
    assert objects[..i] == objects;
  }

  /** Lines 205-206: one `_add_to_context` call per face. */
  method EachOnItsOwn(made: seq<Shape>, mode: Mode) returns (calls: seq<Call>)
    ensures calls == OneByOne(made, mode)
  {
    calls := [];
    var i := 0;
    while i < |made|
      invariant 0 <= i <= |made|
      invariant calls == OneByOne(made[..i], mode)
    {
      calls := calls + [AddToContext([made[i]], mode)];
      i := i + 1;
    }
    assert made[..i] == made;
  }
}
