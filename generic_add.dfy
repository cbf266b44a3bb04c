/**
  `Add` (build_generic.py, lines 66-142): adds shapes to the active builder,
  staging faces and edges in BuildPart and placing the rest at every active
  location.
*/
module GenericAdd {
  import opened Wrappers
  import opened Geometry
  import opened BuildCommon
  import opened Generic

  // Broadcasting over locations

  /** `[s.moved(l) for l in locations]`. */
  function Row(k: Kernel, s: Shape, locations: seq<Location>): seq<Shape> {
    seq(|locations|, j requires 0 <= j < |locations| => Moved(k, s, locations[j]))
  }

  /** `[s.moved(l) for s in shapes for l in locations]`: every shape at every location, shape by shape. */
  function Grid(k: Kernel, shapes: seq<Shape>, locations: seq<Location>): seq<Shape>
    decreases |shapes|
  {
    if shapes == [] then []
    else
      var n := |shapes| - 1;
      Grid(k, shapes[..n], locations) + Row(k, shapes[n], locations)
  }

  lemma GridSnoc(k: Kernel, shapes: seq<Shape>, s: Shape, locations: seq<Location>)
    ensures Grid(k, shapes + [s], locations) == Grid(k, shapes, locations) + Row(k, s, locations)
  {
    assert (shapes + [s])[..|shapes|] == shapes;
  }

  /** One row of `|locations|` entries per shape. */
  lemma {:induction false} GridSize(k: Kernel, shapes: seq<Shape>, locations: seq<Location>)
    ensures |Grid(k, shapes, locations)| == |shapes| * |locations|
    decreases |shapes|
  {
    if shapes != [] {
      var n := |shapes| - 1;
      GridSize(k, shapes[..n], locations);
      assert n * |locations| + |locations| == |shapes| * |locations|;
    }
  }

  /** The broadcast holds exactly the shapes moved to the locations, every pairing of the two. */
  lemma {:induction false} GridMembers(k: Kernel, shapes: seq<Shape>, locations: seq<Location>)
    ensures forall x :: x in Grid(k, shapes, locations) <==>
      exists i, j :: 0 <= i < |shapes| && 0 <= j < |locations| && x == Moved(k, shapes[i], locations[j])
    decreases |shapes|
  {
    if shapes != [] {
      var n := |shapes| - 1;
      GridMembers(k, shapes[..n], locations);
      var prev := Grid(k, shapes[..n], locations);
      var row := Row(k, shapes[n], locations);
      assert Grid(k, shapes, locations) == prev + row;
      forall x | x in Grid(k, shapes, locations)
        ensures exists i, j :: 0 <= i < |shapes| && 0 <= j < |locations| && x == Moved(k, shapes[i], locations[j])
      {
        if x in prev {
          var i, j :| 0 <= i < n && 0 <= j < |locations| && x == Moved(k, shapes[..n][i], locations[j]);
          assert shapes[..n][i] == shapes[i];
        } else {
          var j :| 0 <= j < |row| && row[j] == x;
          assert x == Moved(k, shapes[n], locations[j]);
        }
      }
      forall x, i, j | 0 <= i < |shapes| && 0 <= j < |locations| && x == Moved(k, shapes[i], locations[j])
        ensures x in Grid(k, shapes, locations)
      {
        if i < n {
          assert shapes[..n][i] == shapes[i];
          assert x in prev;
        } else {
          assert row[j] == x;
        }
      }
    }
  }

  // Add (lines 95-142)

  /** The `rotation` argument of `Add`. */
  datatype Rotation =
    | NoRotation
    | Angle(degrees: real)
    | Angles(about: Vec)
    | RotationValue(location: Location)

  /**
    Lines 96-101: the placement BuildPart moves solids by. A plain number is
    no placement: the kernel's `moved` then fails reading it.
  */
  function PartRotation(k: Kernel, rotation: Rotation): Option<Location> {
    match rotation
    case NoRotation => Some(k.rotation(Origin))
    case Angles(v) => Some(k.rotation(v))
    case RotationValue(l) => Some(l)
    case Angle(_) => None
  }

  /** Line 127: the angle BuildLine and BuildSketch rotate by, 0 unless `rotation` is a number. */
  function SketchAngle(rotation: Rotation): real {
    if rotation.Angle? then rotation.degrees else 0.0
  }

  /** `[s.moved(l) for s in xs]`. */
  function MovedAll(k: Kernel, xs: seq<Shape>, l: Location): seq<Shape> {
    seq(|xs|, i requires 0 <= i < |xs| => Moved(k, xs[i], l))
  }

  /** Each object rotated about the z axis. */
  function RotatedAll(k: Kernel, xs: seq<Shape>, angle: real): seq<Shape> {
    seq(|xs|, i requires 0 <= i < |xs| => RotatedZ(k, xs[i], angle))
  }

  /** What BuildPart's `Add` stages and merges (lines 102-111). */
  datatype Staging = Staging(faces: seq<Shape>, solids: seq<Shape>, edges: seq<Shape>)

  /**
    Lines 102-111: the loose faces, then the compounds' faces; the loose
    solids moved by the rotation, then the compounds' solids as they are; the
    loose edges, then the wires' edges.
  */
  function PartStaging(k: Kernel, objects: seq<Shape>, rotate: Location): (s: Staging)
    ensures var direct := OfType(objects, Solid);
      |s.solids| == |direct| + |FromCompounds(k, objects, Solid)| &&
      (forall i :: 0 <= i < |direct| ==> s.solids[i] == Moved(k, direct[i], rotate)) &&
      s.solids[|direct|..] == FromCompounds(k, objects, Solid)
    ensures OfType(objects, Face) <= s.faces && OfType(objects, Edge) <= s.edges
  {
    Staging(
      OfType(objects, Face) + FromCompounds(k, objects, Face),
      MovedAll(k, OfType(objects, Solid), rotate) + FromCompounds(k, objects, Solid),
      OfType(objects, Edge) + EdgesOfAll(k, OfType(objects, Wire)))
  }

  /**
    Lines 95-142. BuildPart stages faces and edges, merges every solid at every
    active location and resets the locations to the identity; BuildLine and
    BuildSketch merge every object, rotated, at every location; any other
    builder raises RuntimeError.
  */
  function AddCalls(k: Kernel, ctx: Context, objects: seq<Shape>, rotation: Rotation, mode: Mode): (r: Result<Effect, Error>)
    ensures r.Success? ==> var e := r.value;
      |e.calls| == (if ctx.variant == BuildPart then 4 else 1) &&
      e.calls[|e.calls| - 1].AddToContext? && e.calls[|e.calls| - 1].mode == mode &&
      e.result == MakeCompound(k, e.calls[|e.calls| - 1].objects)
  {
    match ctx.variant
    case BuildPart =>
      var rotate := PartRotation(k, rotation);
      if rotate.None? && OfType(objects, Solid) != [] then Failure(AttributeError)
      else
        var s := PartStaging(k, objects, if rotate.None? then Identity else rotate.value);
        var placed := Grid(k, s.solids, ctx.locations);
        Success(Effect([AddToPending(s.faces), AddToPending(s.edges), ResetLocations, AddToContext(placed, mode)],
                       MakeCompound(k, placed)))
    case BuildLine | BuildSketch =>
      var placed := Grid(k, RotatedAll(k, objects, SketchAngle(rotation)), ctx.locations);
      Success(Effect([AddToContext(placed, mode)], MakeCompound(k, placed)))
    case OtherBuilder(_) => Failure(Unsupported("Add", ctx.variant))
  }

  /** `Add` fails only in an unsupported builder, and in BuildPart when a number is to move a solid. */
  lemma AddFailures(k: Kernel, ctx: Context, objects: seq<Shape>, rotation: Rotation, mode: Mode)
    ensures AddCalls(k, ctx, objects, rotation, mode).Failure? <==>
      ctx.variant.OtherBuilder? ||
      (ctx.variant == BuildPart && rotation.Angle? && exists s :: s in objects && s.kind == Solid)
    ensures ctx.variant.OtherBuilder? ==>
      AddCalls(k, ctx, objects, rotation, mode) == Failure(RuntimeError("Add" + " does not support builder " + ctx.variant.className))
  {
    match ctx.variant {
      case OtherBuilder(name) =>
        assert AddCalls(k, ctx, objects, rotation, mode) == Failure(Unsupported("Add", ctx.variant));
      case BuildPart =>
        PartFailure(k, objects, rotation);
      case BuildLine =>
        assert AddCalls(k, ctx, objects, rotation, mode).Success?;
      case BuildSketch =>
        assert AddCalls(k, ctx, objects, rotation, mode).Success?;
    }
  }

  /** BuildPart's case of `AddFailures`: a number cannot move a solid. */
  lemma PartFailure(k: Kernel, objects: seq<Shape>, rotation: Rotation)
    ensures PartRotation(k, rotation).None? && OfType(objects, Solid) != [] <==>
      rotation.Angle? && exists s :: s in objects && s.kind == Solid
  {
    var solids := OfType(objects, Solid);
    OfTypeMembers(objects, Solid);
    if solids != [] {
      assert solids[0] in solids;
    }
    if exists s :: s in objects && s.kind == Solid {
      var s :| s in objects && s.kind == Solid;
      assert s in solids;
    }
  }

  /**
    In BuildPart, `Add` stages exactly the faces of the inputs and of their
    compounds as pending faces and exactly the edges and the edges of the
    wires as pending edges, then resets the locations and merges.
  */
  lemma AddToPartStages(k: Kernel, ctx: Context, objects: seq<Shape>, rotation: Rotation, mode: Mode)
    requires ctx.variant == BuildPart
    requires AddCalls(k, ctx, objects, rotation, mode).Success?
    ensures var calls := AddCalls(k, ctx, objects, rotation, mode).value.calls;
      |calls| == 4 && calls[0].AddToPending? && calls[1].AddToPending? && calls[2] == ResetLocations &&
      calls[3].AddToContext? && calls[3].mode == mode &&
      (forall x :: x in calls[0].objects <==>
        (x in objects && x.kind == Face) ||
        exists i :: 0 <= i < |objects| && objects[i].kind == Compound && x in k.getType(objects[i], Face)) &&
      (forall x :: x in calls[1].objects <==>
        (x in objects && x.kind == Edge) ||
        exists w :: w in objects && w.kind == Wire && x in k.edges(w))
  {
    OfTypeMembers(objects, Face);
    OfTypeMembers(objects, Edge);
    OfTypeMembers(objects, Wire);
    FromCompoundsMembers(k, objects, Face);
    EdgesOfAllMembers(k, OfType(objects, Wire));
    var wires := OfType(objects, Wire);
    forall x | x in EdgesOfAll(k, wires) ensures exists w :: w in objects && w.kind == Wire && x in k.edges(w) {
      var i :| 0 <= i < |wires| && x in k.edges(wires[i]);
      assert wires[i] in wires;
    }
    forall x, w | w in objects && w.kind == Wire && x in k.edges(w) ensures x in EdgesOfAll(k, wires) {
      assert w in wires;
      var i :| 0 <= i < |wires| && wires[i] == w;
    }
  }

  /**
    In BuildPart, `Add` merges `|solids| * |locations|` shapes: every solid
    to be placed (the inputs' own ones moved by the rotation first, then the
    compounds' ones) at every active location.
  */
  lemma AddToPartPlacesSolids(k: Kernel, ctx: Context, objects: seq<Shape>, rotation: Rotation, mode: Mode)
    requires ctx.variant == BuildPart
    requires AddCalls(k, ctx, objects, rotation, mode).Success?
    ensures var s := PartStaging(k, objects, if rotation.Angle? then Identity else PartRotation(k, rotation).value);
      var placed := AddCalls(k, ctx, objects, rotation, mode).value.calls[3].objects;
      |placed| == |s.solids| * |ctx.locations| &&
      forall x :: x in placed <==>
        exists i, j :: 0 <= i < |s.solids| && 0 <= j < |ctx.locations| && x == Moved(k, s.solids[i], ctx.locations[j])
  {
    var s := PartStaging(k, objects, if rotation.Angle? then Identity else PartRotation(k, rotation).value);
    GridSize(k, s.solids, ctx.locations);
    GridMembers(k, s.solids, ctx.locations);
  }

  /** Adding one wire to BuildPart stages exactly its edges: a three-edge wire adds three pending edges. */
  lemma AddWireToPart(k: Kernel, ctx: Context, w: Shape, rotation: Rotation, mode: Mode)
    requires ctx.variant == BuildPart && w.kind == Wire
    ensures AddCalls(k, ctx, [w], rotation, mode).Success?
    ensures AddCalls(k, ctx, [w], rotation, mode).value.calls[1] == AddToPending(k.edges(w))
    ensures AddCalls(k, ctx, [w], rotation, mode).value.calls[3] == AddToContext([], mode)
  {
    OfTypeSnoc([], w, Solid);
    OfTypeSnoc([], w, Edge);
    OfTypeSnoc([], w, Wire);
    OfTypeSnoc([], w, Face);
    FromCompoundsSnoc(k, [], w, Solid);
    FromCompoundsSnoc(k, [], w, Face);
    EdgesOfAllSnoc(k, [], w);
    assert [] + [w] == [w];
  }

  /**
    In BuildLine and BuildSketch, `Add` merges `|objects| * |locations|`
    shapes: every object, rotated about z, at every location.
  */
  lemma AddToLineOrSketch(k: Kernel, ctx: Context, objects: seq<Shape>, rotation: Rotation, mode: Mode)
    requires ctx.variant == BuildLine || ctx.variant == BuildSketch
    ensures AddCalls(k, ctx, objects, rotation, mode).Success?
    ensures var calls := AddCalls(k, ctx, objects, rotation, mode).value.calls;
      var placed := calls[0].objects;
      |calls| == 1 && calls[0].AddToContext? && calls[0].mode == mode &&
      |placed| == |objects| * |ctx.locations| &&
      forall x :: x in placed <==>
        exists i, j :: 0 <= i < |objects| && 0 <= j < |ctx.locations| &&
          x == Moved(k, RotatedZ(k, objects[i], SketchAngle(rotation)), ctx.locations[j])
  {
    var rotated := RotatedAll(k, objects, SketchAngle(rotation));
    var placed := Grid(k, rotated, ctx.locations);
    assert AddCalls(k, ctx, objects, rotation, mode) == Success(Effect([AddToContext(placed, mode)], MakeCompound(k, placed)));
    GridSize(k, rotated, ctx.locations);
    GridMembers(k, rotated, ctx.locations);
    forall x | x in placed
      ensures exists i, j ::
                0 <= i < |objects| && 0 <= j < |ctx.locations| &&
                x == Moved(k, RotatedZ(k, objects[i], SketchAngle(rotation)), ctx.locations[j])
    {
      var i, j :| 0 <= i < |rotated| && 0 <= j < |ctx.locations| && x == Moved(k, rotated[i], ctx.locations[j]);
    }
    forall x, i, j | 0 <= i < |objects| && 0 <= j < |ctx.locations| &&
        x == Moved(k, RotatedZ(k, objects[i], SketchAngle(rotation)), ctx.locations[j])
      ensures x in placed
    {
      assert rotated[i] == RotatedZ(k, objects[i], SketchAngle(rotation));
    }
  }

  /** Lines 95-142. */
  method Add(k: Kernel, ctx: Context, objects: seq<Shape>, rotation: Rotation, mode: Mode) returns (r: Result<Effect, Error>)
    ensures r == AddCalls(k, ctx, objects, rotation, mode)
  {
    match ctx.variant {
      case BuildPart =>
        var rotate := PartRotation(k, rotation);
        if rotate.None? && OfType(objects, Solid) != [] {
          return Failure(AttributeError);
        }
        var s := StagePart(k, objects, if rotate.None? then Identity else rotate.value);
        var placed := Grid(k, s.solids, ctx.locations);
        r := Success(Effect([AddToPending(s.faces), AddToPending(s.edges), ResetLocations, AddToContext(placed, mode)],
                            MakeCompound(k, placed)));
      case BuildLine =>
        var placed := PlaceRotated(k, objects, SketchAngle(rotation), ctx.locations);
        r := Success(Effect([AddToContext(placed, mode)], MakeCompound(k, placed)));
      case BuildSketch =>
        var placed := PlaceRotated(k, objects, SketchAngle(rotation), ctx.locations);
        r := Success(Effect([AddToContext(placed, mode)], MakeCompound(k, placed)));
      case OtherBuilder(_) =>
        r := Failure(Unsupported("Add", ctx.variant));
    }
  }

  /** Lines 102-111: the loops that gather the compounds' faces and solids and the wires' edges. */
  method StagePart(k: Kernel, objects: seq<Shape>, rotate: Location) returns (s: Staging)
    ensures s == PartStaging(k, objects, rotate)
  {
    var fromCompounds := CompoundContents(k, objects);
    var wireEdges := EdgesOfWires(k, objects);
    s := Staging(OfType(objects, Face) + fromCompounds.0,
                 MovedAll(k, OfType(objects, Solid), rotate) + fromCompounds.1,
                 OfType(objects, Edge) + wireEdges);
  }

  /** Lines 102-108: the faces and the solids of the compounds, compound by compound. */
  method CompoundContents(k: Kernel, objects: seq<Shape>) returns (r: (seq<Shape>, seq<Shape>))
    ensures r == (FromCompounds(k, objects, Face), FromCompounds(k, objects, Solid))
  {
    var faces, solids := [], [];
    var i := 0;
    while i < |objects|
      invariant 0 <= i <= |objects|
      invariant faces == FromCompounds(k, objects[..i], Face)
      invariant solids == FromCompounds(k, objects[..i], Solid)
    {
      assert objects[..i + 1] == objects[..i] + [objects[i]];
      FromCompoundsSnoc(k, objects[..i], objects[i], Face);
      FromCompoundsSnoc(k, objects[..i], objects[i], Solid);
      if objects[i].kind == Compound {
        faces := faces + k.getType(objects[i], Face);
        solids := solids + k.getType(objects[i], Solid);
      }
      i := i + 1;
    }
    assert objects[..i] == objects;
    r := (faces, solids);
  }

  /** Lines 109-111: the edges of the wires, wire by wire. */
  method EdgesOfWires(k: Kernel, objects: seq<Shape>) returns (edges: seq<Shape>)
    ensures edges == EdgesOfAll(k, OfType(objects, Wire))
  {
    edges := [];
    var i := 0;
    while i < |objects|
      invariant 0 <= i <= |objects|
      invariant edges == EdgesOfAll(k, OfType(objects[..i], Wire))
    {
      assert objects[..i + 1] == objects[..i] + [objects[i]];
      OfTypeSnoc(objects[..i], objects[i], Wire);
      if objects[i].kind == Wire {
        EdgesOfAllSnoc(k, OfType(objects[..i], Wire), objects[i]);
        edges := edges + k.edges(objects[i]);
      } else {
        assert OfType(objects[..i + 1], Wire) == OfType(objects[..i], Wire);
      }
      i := i + 1;
    }
    assert objects[..i] == objects;
  }

  /** Lines 128-138: each object rotated about z, then moved to each location. */
  method PlaceRotated(k: Kernel, objects: seq<Shape>, angle: real, locations: seq<Location>) returns (placed: seq<Shape>)
    ensures placed == Grid(k, RotatedAll(k, objects, angle), locations)
  {
    ghost var rotated := RotatedAll(k, objects, angle);
    placed := [];
    var i := 0;
    while i < |objects|
      invariant 0 <= i <= |objects|
      invariant placed == Grid(k, rotated[..i], locations)
    {
      assert rotated[..i + 1] == rotated[..i] + [RotatedZ(k, objects[i], angle)];
      GridSnoc(k, rotated[..i], RotatedZ(k, objects[i], angle), locations);
      placed := placed + Row(k, RotatedZ(k, objects[i], angle), locations);
      i := i + 1;
    }
    assert rotated[..i] == rotated;
  }
}
