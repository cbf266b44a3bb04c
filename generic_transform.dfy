/**
  `Mirror`, `Scale` and `Split` (build_generic.py, lines 294-338 and
  436-560): per-object transformations merged in the caller's mode.
*/
module GenericTransform {
  import opened Wrappers
  import opened Geometry
  import opened BuildCommon
  import opened Generic

  // Transformation matrices

  /** A 4x4 matrix. */
  predicate IsTransform(m: Matrix) {
    |m| == 4 && forall i :: 0 <= i < 4 ==> |m[i]| == 4
  }

  /** The matrix applied to a point in homogeneous coordinates (w = 1). */
  function Apply(m: Matrix, p: Vec): Vec
    requires IsTransform(m)
  {
    Vec(m[0][0] * p.x + m[0][1] * p.y + m[0][2] * p.z + m[0][3],
        m[1][0] * p.x + m[1][1] * p.y + m[1][2] * p.z + m[1][3],
        m[2][0] * p.x + m[2][1] * p.y + m[2][2] * p.z + m[2][3])
  }

  /** Lines 477-484: the diagonal matrix that scales each axis by its own factor. */
  function ScaleMatrix(f: Vec): (m: Matrix)
    ensures IsTransform(m)
    ensures forall p :: Apply(m, p) == Vec(f.x * p.x, f.y * p.y, f.z * p.z)
  {
    [[f.x, 0.0, 0.0, 0.0],
     [0.0, f.y, 0.0, 0.0],
     [0.0, 0.0, f.z, 0.0],
     [0.0, 0.0, 0.0, 1.0]]
  }

  /** Lines 325-332: the reflection in the local xy plane, which negates z. */
  function MirrorMatrix(): (m: Matrix)
    ensures IsTransform(m)
    ensures forall p :: Apply(m, p) == Vec(p.x, p.y, -p.z)
  {
    [[1.0, 0.0, 0.0, 0.0],
     [0.0, 1.0, 0.0, 0.0],
     [0.0, 0.0, -1.0, 0.0],
     [0.0, 0.0, 0.0, 1.0]]
  }

  /** Reflecting twice gives every point back. */
  lemma MirrorIsInvolution(p: Vec)
    ensures Apply(MirrorMatrix(), Apply(MirrorMatrix(), p)) == p
  {
    var m := MirrorMatrix();
    var q := Apply(m, p);
    var r := Apply(m, q);
    assert r.x == p.x && r.y == p.y && r.z == p.z;
  }

  // Mirror (lines 294-338)

  /** `PlaneLike`: a plane, or the name of one of the standard planes. */
  datatype PlaneArg = GivenPlane(plane: Plane) | NamedPlane(name: string)

  /** `about if isinstance(about, Plane) else Plane.named(about)`. */
  function PlaneOf(k: Kernel, a: PlaneArg): Plane {
    match a
    case GivenPlane(p) => p
    case NamedPlane(name) => k.namedPlane(name)
  }

  /** Lines 333-335: into the plane's frame, reflected in it, and back. */
  function Mirrored(k: Kernel, p: Plane, s: Shape): (r: Shape)
    ensures r.kind == s.kind
  {
    FromLocal(k, p, TransformGeometry(k, ToLocal(k, p, s), MirrorMatrix()))
  }

  function MirroredAll(k: Kernel, plane: Plane, xs: seq<Shape>): seq<Shape> {
    seq(|xs|, i requires 0 <= i < |xs| => Mirrored(k, plane, xs[i]))
  }

  /**
    The ValueError cadquery's `Plane.toLocalCoords` raises when it is handed
    something that is neither a vector nor a shape, here None.
  */
  const NoneToLocalError: string := "Don't know how to convert type <class 'NoneType'> to local coordinates"

  /**
    Lines 317-338. `Mirror` works in every builder: it mirrors every object
    (the builder's own object when none is given) and merges the mirror
    images in the caller's mode. With no objects in a builder that holds
    nothing, line 333 hands None to `toLocalCoords`, which raises.
  */
  function MirrorCalls(k: Kernel, ctx: Context, objects: seq<Shape>, about: PlaneArg, mode: Mode): (r: Result<Effect, Error>)
    ensures r.Failure? <==> NoInput(ctx, objects)
    ensures r.Failure? ==> r.error == ValueError(NoneToLocalError)
    ensures r.Success? ==> var ins := Inputs(ctx, objects); var e := r.value;
      |e.calls| == 1 && e.calls[0].AddToContext? && e.calls[0].mode == mode &&
      e.result == MakeCompound(k, e.calls[0].objects) &&
      |e.calls[0].objects| == |ins| &&
      forall i :: 0 <= i < |ins| ==>
        e.calls[0].objects[i] == FromLocal(k, PlaneOf(k, about), TransformGeometry(k, ToLocal(k, PlaneOf(k, about), ins[i]), MirrorMatrix())) &&
        e.calls[0].objects[i].kind == ins[i].kind
  {
    if NoInput(ctx, objects) then Failure(ValueError(NoneToLocalError))
    else
      var ins := Inputs(ctx, objects);
      var plane := PlaneOf(k, about);
      var mirrored := MirroredAll(k, plane, ins);
      Success(Effect([AddToContext(mirrored, mode)], MakeCompound(k, mirrored)))
  }

  /**
    With no objects, `Mirror` mirrors the builder's object (a line in
    BuildLine gains its image), and fails when the builder holds nothing.
  */
  lemma MirrorDefaultsToBuilderObject(k: Kernel, ctx: Context, about: PlaneArg, mode: Mode)
    ensures ctx.obj.Some? ==>
      MirrorCalls(k, ctx, [], about, mode).Success? &&
      MirrorCalls(k, ctx, [], about, mode).value.calls == [AddToContext([Mirrored(k, PlaneOf(k, about), ctx.obj.value)], mode)]
    ensures ctx.obj.None? ==> MirrorCalls(k, ctx, [], about, mode) == Failure(ValueError(NoneToLocalError))
  {
    if ctx.obj.Some? {
      assert MirroredAll(k, PlaneOf(k, about), [ctx.obj.value]) == [Mirrored(k, PlaneOf(k, about), ctx.obj.value)];
    }
  }

  // Scale (lines 436-495)

  /** An element of a tuple given as `by`: a number or something else. */
  datatype ScaleItem = Number(value: real) | NotNumber

  /** The `by` argument of `Scale`: a number, a tuple, or anything else. */
  datatype ScaleArg = ByNumber(factor: real) | ByTuple(items: seq<ScaleItem>) | ByOther

  const ScaleArgError: string := "by must be a float or a three tuple of float"

  /** Lines 466-475: the per-axis factors, or ValueError. */
  function Factor(arg: ScaleArg): (r: Result<Vec, Error>)
    ensures r.Success? <==>
      arg.ByNumber? || (arg.ByTuple? && |arg.items| == 3 && forall i :: 0 <= i < 3 ==> arg.items[i].Number?)
    ensures arg.ByNumber? ==> r == Success(Vec(arg.factor, arg.factor, arg.factor))
    ensures r.Success? && arg.ByTuple? ==> r.value == Vec(arg.items[0].value, arg.items[1].value, arg.items[2].value)
    ensures r.Failure? ==> r.error == ValueError(ScaleArgError)
  {
    match arg
    case ByNumber(b) => Success(Vec(b, b, b))
    case ByTuple(items) =>
      if |items| == 3 && items[0].Number? && items[1].Number? && items[2].Number? then
        Success(Vec(items[0].value, items[1].value, items[2].value))
      else Failure(ValueError(ScaleArgError))
    case ByOther => Failure(ValueError(ScaleArgError))
  }

  /** Lines 486-491: scaled about the origin, then put back at the shape's own location. */
  function Rescaled(k: Kernel, s: Shape, m: Matrix): (r: Shape)
    ensures r.kind == s.kind
  {
    Located(k, TransformGeometry(k, Located(k, s, Identity), m), k.location(s))
  }

  function RescaledAll(k: Kernel, xs: seq<Shape>, m: Matrix): seq<Shape> {
    seq(|xs|, i requires 0 <= i < |xs| => Rescaled(k, xs[i], m))
  }

  /**
    Lines 459-495: every object (the builder's own object when none is given)
    rescaled in place and merged in the caller's mode; ValueError for a bad
    `by`, and AttributeError when the loop meets a None object (line 488,
    `obj.location()`).
  */
  function ScaleCalls(k: Kernel, ctx: Context, objects: seq<Shape>, arg: ScaleArg, mode: Mode): (r: Result<Effect, Error>)
    ensures r.Success? ==>
      |r.value.calls| == 1 && r.value.calls[0].AddToContext? && r.value.calls[0].mode == mode &&
      r.value.result == MakeCompound(k, r.value.calls[0].objects)
  {
    var f := Factor(arg);
    if f.Failure? then Failure(f.error)
    else if NoInput(ctx, objects) then Failure(AttributeError)
    else
      var ins := Inputs(ctx, objects);
      var scaled := RescaledAll(k, ins, ScaleMatrix(f.value));
      Success(Effect([AddToContext(scaled, mode)], MakeCompound(k, scaled)))
  }

  /**
    `Scale` fails for a bad `by` (ValueError, before touching the builder) or
    for a missing object (AttributeError); otherwise it merges, in the
    caller's mode, each object moved to the origin, scaled by the factors
    and put back at its own location, of the object's class.
  */
  lemma ScaleOutcome(k: Kernel, ctx: Context, objects: seq<Shape>, arg: ScaleArg, mode: Mode)
    ensures ScaleCalls(k, ctx, objects, arg, mode).Failure? <==> Factor(arg).Failure? || NoInput(ctx, objects)
    ensures arg.ByOther? ==> ScaleCalls(k, ctx, objects, arg, mode) == Failure(ValueError(ScaleArgError))
    ensures Factor(arg).Failure? ==> ScaleCalls(k, ctx, objects, arg, mode) == Failure(ValueError(ScaleArgError))
    ensures Factor(arg).Success? && NoInput(ctx, objects) ==> ScaleCalls(k, ctx, objects, arg, mode) == Failure(AttributeError)
    ensures ScaleCalls(k, ctx, objects, arg, mode).Success? ==>
      var ins := Inputs(ctx, objects);
      var m := ScaleMatrix(Factor(arg).value);
      var calls := ScaleCalls(k, ctx, objects, arg, mode).value.calls;
      |calls| == 1 && calls[0].AddToContext? && calls[0].mode == mode && |calls[0].objects| == |ins| &&
      forall i :: 0 <= i < |ins| ==>
        calls[0].objects[i] == Located(k, TransformGeometry(k, Located(k, ins[i], Identity), m), k.location(ins[i])) &&
        calls[0].objects[i].kind == ins[i].kind
  {
  }

  /** Lines 459-495, with the loop over the objects. */
  method Scale(k: Kernel, ctx: Context, objects: seq<Shape>, arg: ScaleArg, mode: Mode) returns (r: Result<Effect, Error>)
    ensures r == ScaleCalls(k, ctx, objects, arg, mode)
  {
    var ins := Inputs(ctx, objects);
    var f := Factor(arg);
    if f.Failure? {
      return Failure(f.error);
    }
    if NoInput(ctx, objects) {
      // `None.location()`
      return Failure(AttributeError);
    }
    var m := ScaleMatrix(f.value);
    var scaled := [];
    var i := 0;
    while i < |ins|
      invariant 0 <= i <= |ins|
      invariant |scaled| == i
      invariant forall j :: 0 <= j < i ==> scaled[j] == Rescaled(k, ins[j], m)
    {
      var current := k.location(ins[i]);
      var atOrigin := Located(k, ins[i], Identity);
      scaled := scaled + [Located(k, TransformGeometry(k, atOrigin, m), current)];
      i := i + 1;
    }
    assert scaled == RescaledAll(k, ins, m);
    r := Success(Effect([AddToContext(scaled, mode)], MakeCompound(k, scaled)));
  }

  // Split (lines 498-560)

  /**
    Lines 520-524: the corner of a cutter box of side 2m in the bisecting
    plane's frame. The box is centred on the plane's origin in x and y; the
    TOP cutter sits on the plane and the other one hangs below it.
  */
  function CutterCorner(keep: Keep, m: real): (c: Vec)
    ensures c.x + m == 0.0 && c.y + m == 0.0
    ensures keep == Top ==> c.z == 0.0
    ensures keep != Top ==> c.z + 2.0 * m == 0.0
  {
    if keep == Top then Vec(-m, -m, 0.0) else Vec(-m, -m, -2.0 * m)
  }

  /** Lines 519-529: the box, moved to its corner, then carried into the plane's frame. */
  function Cutter(k: Kernel, plane: Plane, keep: Keep, m: real): (r: Shape)
    ensures r.kind == Solid
  {
    FromLocal(k, plane, Moved(k, MakeBox(k, Vec(2.0 * m, 2.0 * m, 2.0 * m), Origin), At(CutterCorner(keep, m))))
  }

  /** Lines 551-556: both cutters when both halves are kept, else the requested one. */
  function Cutters(k: Kernel, plane: Plane, keep: Keep, m: real): (cs: seq<Shape>)
    ensures |cs| == (if keep == Both then 2 else 1)
    ensures forall i :: 0 <= i < |cs| ==> cs[i].kind == Solid
  {
    if keep == Both then [Cutter(k, plane, Top, m), Cutter(k, plane, Bottom, m)]
    else [Cutter(k, plane, keep, m)]
  }

  /** Keeping both halves intersects with the TOP cutter and the BOTTOM cutter together. */
  lemma BothIsTopAndBottom(k: Kernel, plane: Plane, m: real)
    ensures Cutters(k, plane, Both, m) == Cutters(k, plane, Top, m) + Cutters(k, plane, Bottom, m)
  {
  }

  /** Lines 548-557: the object intersected with the cutters sized by its own bounding box. */
  function SplitOne(k: Kernel, plane: Plane, keep: Keep, s: Shape): Shape {
    k.intersect(s, Cutters(k, plane, keep, k.diagonal(k.boundingBox(s))))
  }

  function SplitAll(k: Kernel, plane: Plane, keep: Keep, xs: seq<Shape>): seq<Shape> {
    seq(|xs|, i requires 0 <= i < |xs| => SplitOne(k, plane, keep, xs[i]))
  }

  /**
    Lines 519-560: every object (the builder's own object when none is given)
    cut, merged in the caller's mode; AttributeError when the loop meets a
    None object (line 549, `obj.BoundingBox()`).
  */
  function SplitCalls(k: Kernel, ctx: Context, objects: seq<Shape>, bisect: PlaneArg, keep: Keep, mode: Mode): (r: Result<Effect, Error>)
    ensures r.Failure? <==> NoInput(ctx, objects)
    ensures r.Failure? ==> r.error == AttributeError
    ensures r.Success? ==> var ins := Inputs(ctx, objects); var e := r.value;
      |e.calls| == 1 && e.calls[0].AddToContext? && e.calls[0].mode == mode &&
      e.result == MakeCompound(k, e.calls[0].objects) &&
      |e.calls[0].objects| == |ins| &&
      forall i :: 0 <= i < |ins| ==>
        e.calls[0].objects[i] == k.intersect(ins[i], Cutters(k, PlaneOf(k, bisect), keep, k.diagonal(k.boundingBox(ins[i]))))
  {
    if NoInput(ctx, objects) then Failure(AttributeError)
    else
      var ins := Inputs(ctx, objects);
      var plane := PlaneOf(k, bisect);
      var cut := SplitAll(k, plane, keep, ins);
      Success(Effect([AddToContext(cut, mode)], MakeCompound(k, cut)))
  }

  /** Lines 519-560, with the loop over the objects. */
  method Split(k: Kernel, ctx: Context, objects: seq<Shape>, bisect: PlaneArg, keep: Keep, mode: Mode) returns (r: Result<Effect, Error>)
    ensures r == SplitCalls(k, ctx, objects, bisect, keep, mode)
  {
    if NoInput(ctx, objects) {
      // `None.BoundingBox()`
      return Failure(AttributeError);
    }
    var ins := Inputs(ctx, objects);
    var plane := PlaneOf(k, bisect);
    var cut := [];
    var i := 0;
    while i < |ins|
      invariant 0 <= i <= |ins|
      invariant |cut| == i
      invariant forall j :: 0 <= j < i ==> cut[j] == SplitOne(k, plane, keep, ins[j])
    {
      var size := k.diagonal(k.boundingBox(ins[i]));
      var cutters := [];
      if keep == Both {
        cutters := cutters + [Cutter(k, plane, Top, size)];
        cutters := cutters + [Cutter(k, plane, Bottom, size)];
      } else {
        cutters := cutters + [Cutter(k, plane, keep, size)];
      }
      assert cutters == Cutters(k, plane, keep, size);
      cut := cut + [k.intersect(ins[i], cutters)];
      i := i + 1;
    }
    assert cut == SplitAll(k, plane, keep, ins);
    r := Success(Effect([AddToContext(cut, mode)], MakeCompound(k, cut)));
  }
}
