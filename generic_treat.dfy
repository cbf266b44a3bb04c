/**
  `Chamfer` and `Fillet` (build_generic.py, lines 215-291): the builder's
  part treated at the given edges, or each sketch face treated at the given
  vertices it has.
*/
module GenericTreat {
  import opened Wrappers
  import opened Geometry
  import opened BuildCommon
  import opened Generic

  // Chamfer and Fillet (lines 215-291)

  /** The two edge treatments: `Chamfer(length, length2)` and `Fillet(radius)`. */
  datatype Treatment = ChamferBy(length: real, length2: Option<real>) | FilletBy(radius: real)

  function TreatmentName(t: Treatment): string {
    match t
    case ChamferBy(_, _) => "Chamfer"
    case FilletBy(_) => "Fillet"
  }

  /** Lines 236 and 274: `context.part.chamfer(...)` or `context.part.fillet(...)` on the given edges. */
  function TreatedPart(k: Kernel, part: Shape, t: Treatment, objects: seq<Shape>): Shape {
    match t
    case ChamferBy(length, length2) => k.chamfer3D(part, length, length2, objects)
    case FilletBy(radius) => k.fillet3D(part, radius, objects)
  }

  /**
    Lines 241-246 and 279-284: a sketch face is treated at its vertices that
    are among the objects, and is kept as it is when there are none; the 2D
    chamfer takes only the first length.
  */
  function TreatedFace(k: Kernel, face: Shape, t: Treatment, objects: seq<Shape>): Shape {
    var selected := Among(k.vertices(face), objects);
    if selected == [] then face
    else
      match t
      case ChamferBy(length, _) => k.chamfer2D(face, length, selected)
      case FilletBy(radius) => k.fillet2D(face, radius, selected)
  }

  function TreatedFaces(k: Kernel, faces: seq<Shape>, t: Treatment, objects: seq<Shape>): seq<Shape> {
    seq(|faces|, i requires 0 <= i < |faces| => TreatedFace(k, faces[i], t, objects))
  }

  /**
    Lines 235-253 and 273-291. BuildPart replaces its part by the treated
    part, and raises AttributeError when it has no part yet (`None.chamfer`);
    BuildSketch replaces its sketch by the compound of its faces, each
    treated at its selected vertices; any other builder raises RuntimeError.
  */
  function TreatCalls(k: Kernel, ctx: Context, objects: seq<Shape>, t: Treatment): (r: Result<Effect, Error>)
    ensures r.Success? ==> r.value.calls == [AddToContext([r.value.result], Replace)]
  {
    match ctx.variant
    case BuildPart =>
      if ctx.obj.None? then Failure(AttributeError)
      else
        var part := TreatedPart(k, ctx.obj.value, t, objects);
        Success(Effect([AddToContext([part], Replace)], part))
    case BuildSketch =>
      var sketch := MakeCompound(k, TreatedFaces(k, ctx.faces, t, objects));
      Success(Effect([AddToContext([sketch], Replace)], sketch))
    case BuildLine => Failure(Unsupported(TreatmentName(t), ctx.variant))
    case OtherBuilder(_) => Failure(Unsupported(TreatmentName(t), ctx.variant))
  }

  /**
    `Chamfer` and `Fillet` fail exactly outside BuildPart and BuildSketch, with
    the operation's and the builder's names in the message, and in a BuildPart
    that has no part; where they succeed they make one call, in REPLACE mode,
    with the shape they become.
  */
  lemma TreatOutcome(k: Kernel, ctx: Context, objects: seq<Shape>, t: Treatment)
    ensures TreatCalls(k, ctx, objects, t).Failure? <==>
      (ctx.variant != BuildPart && ctx.variant != BuildSketch) || (ctx.variant == BuildPart && ctx.obj.None?)
    ensures ctx.variant == BuildPart && ctx.obj.None? ==> TreatCalls(k, ctx, objects, t) == Failure(AttributeError)
    ensures ctx.variant == BuildPart && ctx.obj.Some? ==>
      TreatCalls(k, ctx, objects, t).Success? && TreatCalls(k, ctx, objects, t).value.result == TreatedPart(k, ctx.obj.value, t, objects)
    ensures ctx.variant == BuildLine ==>
      TreatCalls(k, ctx, objects, t) == Failure(RuntimeError(TreatmentName(t) + " does not support builder " + "BuildLine"))
    ensures TreatCalls(k, ctx, objects, t).Success? ==>
      var e := TreatCalls(k, ctx, objects, t).value;
      e.calls == [AddToContext([e.result], Replace)]
  {
  }

  /**
    In BuildSketch every face of the sketch is kept in place and in order; a
    face none of whose vertices is among the objects is kept unchanged, and
    any other is treated at exactly its vertices that are among the objects.
  */
  lemma TreatSketchFaces(k: Kernel, faces: seq<Shape>, t: Treatment, objects: seq<Shape>, i: int)
    requires 0 <= i < |faces|
    ensures var treated := TreatedFaces(k, faces, t, objects);
      var selected := Among(k.vertices(faces[i]), objects);
      |treated| == |faces| &&
      (forall v :: v in selected <==> v in k.vertices(faces[i]) && v in objects) &&
      ((forall v :: v in k.vertices(faces[i]) ==> v !in objects) <==> selected == []) &&
      (selected == [] ==> treated[i] == faces[i]) &&
      (selected != [] && t.ChamferBy? ==> treated[i] == k.chamfer2D(faces[i], t.length, selected)) &&
      (selected != [] && t.FilletBy? ==> treated[i] == k.fillet2D(faces[i], t.radius, selected))
  {
    var selected := Among(k.vertices(faces[i]), objects);
    AmongMembers(k.vertices(faces[i]), objects);
    if selected != [] {
      assert selected[0] in selected;
    }
  }

  /** The sketch chamfer ignores the second length. */
  lemma SketchChamferIgnoresLength2(k: Kernel, face: Shape, length: real, a: Option<real>, b: Option<real>, objects: seq<Shape>)
    ensures TreatedFace(k, face, ChamferBy(length, a), objects) == TreatedFace(k, face, ChamferBy(length, b), objects)
  {
  }

  /** Lines 235-253 and 273-291, with the loop over the sketch's faces. */
  method Treat(k: Kernel, ctx: Context, objects: seq<Shape>, t: Treatment) returns (r: Result<Effect, Error>)
    ensures r == TreatCalls(k, ctx, objects, t)
  {
    match ctx.variant {
      case BuildPart =>
        if ctx.obj.None? {
          // `None.chamfer(...)` or `None.fillet(...)`
          return Failure(AttributeError);
        }
        var part := TreatedPart(k, ctx.obj.value, t, objects);
        r := Success(Effect([AddToContext([part], Replace)], part));
      case BuildSketch =>
        var newFaces := [];
        var i := 0;
        while i < |ctx.faces|
          invariant 0 <= i <= |ctx.faces|
          invariant newFaces == TreatedFaces(k, ctx.faces[..i], t, objects)
        {
          var face := ctx.faces[i];
          var selected := Among(k.vertices(face), objects);
          var treated := face;
          if selected != [] {
            match t {
              case ChamferBy(length, _) => treated := k.chamfer2D(face, length, selected);
              case FilletBy(radius) => treated := k.fillet2D(face, radius, selected);
            }
          }
          newFaces := newFaces + [treated];
          i := i + 1;
        }
        assert ctx.faces[..i] == ctx.faces;
        var sketch := MakeCompound(k, newFaces);
        r := Success(Effect([AddToContext([sketch], Replace)], sketch));
      case BuildLine =>
        r := Failure(Unsupported(TreatmentName(t), ctx.variant));
      case OtherBuilder(_) =>
        r := Failure(Unsupported(TreatmentName(t), ctx.variant));
    }
  }
}
