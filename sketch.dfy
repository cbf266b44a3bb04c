/**
  BuildSketch (src/build123d/build_sketch.py): the sketch builder's merge of
  new geometry, the operations that turn its pending edges into a face, and
  the object constructors that broadcast one face over the active locations.
*/
module Sketch {
  import opened Wrappers
  import opened Geometry
  import opened BuildCommon

  /** The faces, edges and wires `_add_to_context` takes from its inputs. */
  datatype Parts = Parts(faces: seq<Shape>, edges: seq<Shape>, wires: seq<Shape>)

  /**
    Lines 117-123: loose faces (edges, wires) of the input in input order, then
    those of each compound, compound by compound. Anything else is ignored.
  */
  function Classify(k: Kernel, objects: seq<Shape>): (p: Parts)
    ensures OfType(objects, Face) <= p.faces && OfType(objects, Edge) <= p.edges && OfType(objects, Wire) <= p.wires
  {
    Parts(
      OfType(objects, Face) + FromCompounds(k, objects, Face),
      OfType(objects, Edge) + FromCompounds(k, objects, Edge),
      OfType(objects, Wire) + FromCompounds(k, objects, Wire))
  }

  /** Each part holds exactly the shapes of its class among the inputs and inside their compounds. */
  lemma ClassifyMembers(k: Kernel, objects: seq<Shape>)
    ensures var p := Classify(k, objects);
      (forall x :: x in p.faces <==> ((x in objects && x.kind == Face) ||
        exists i :: 0 <= i < |objects| && objects[i].kind == Compound && x in k.getType(objects[i], Face))) &&
      (forall x :: x in p.edges <==> ((x in objects && x.kind == Edge) ||
        exists i :: 0 <= i < |objects| && objects[i].kind == Compound && x in k.getType(objects[i], Edge))) &&
      (forall x :: x in p.wires <==> ((x in objects && x.kind == Wire) ||
        exists i :: 0 <= i < |objects| && objects[i].kind == Compound && x in k.getType(objects[i], Wire)))
  {
    OfTypeMembers(objects, Face);
    OfTypeMembers(objects, Edge);
    OfTypeMembers(objects, Wire);
    FromCompoundsMembers(k, objects, Face);
    FromCompoundsMembers(k, objects, Edge);
    FromCompoundsMembers(k, objects, Wire);
  }

  /** The fields `_add_to_context` reads and writes. The deltas are sets: the source's lists have no defined order. */
  datatype SketchState = SketchState(
    sketch: Option<Shape>,
    pendingEdges: seq<Shape>,
    lastVertices: set<Shape>,
    lastEdges: set<Shape>,
    lastFaces: set<Shape>)

  /** `set(sketch.Vertices())`, empty while there is no sketch. */
  function VerticesOf(k: Kernel, s: Option<Shape>): set<Shape> {
    if s.None? then {} else Elems(k.vertices(s.value))
  }

  function EdgesOf(k: Kernel, s: Option<Shape>): set<Shape> {
    if s.None? then {} else Elems(k.edges(s.value))
  }

  function FacesOf(k: Kernel, s: Option<Shape>): set<Shape> {
    if s.None? then {} else Elems(k.faces(s.value))
  }

  /** Lines 128-148: the sketch after the new faces are combined into it. */
  function Combined(k: Kernel, sketch: Option<Shape>, faces: seq<Shape>, mode: Mode): Result<Option<Shape>, Error> {
    if faces == [] then Success(sketch)
    else
      match mode
      case Add =>
        Success(Some(if sketch.None? then MakeCompound(k, faces) else k.clean(k.fuse(sketch.value, faces))))
      case Subtract =>
        if sketch.None? then Failure(RuntimeError("No sketch to subtract from"))
        else Success(Some(k.clean(k.cut(sketch.value, faces))))
      case Intersect =>
        if sketch.None? then Failure(RuntimeError("No sketch to intersect with"))
        else Success(Some(k.clean(k.intersect(sketch.value, faces))))
      case Replace => Success(Some(k.clean(MakeCompound(k, faces))))
      case _ => Success(sketch)
  }

  /**
    `_add_to_context(*objects, mode=mode)` (lines 116-167) on a state value.
    Under PRIVATE nothing changes. Otherwise the sketch is combined with the new
    faces, the deltas are what the sketch gained, and the new edges followed by
    the edges of the new wires are appended to the pending edges.
  */
  function Merge(k: Kernel, st: SketchState, objects: seq<Shape>, mode: Mode): (r: Result<SketchState, Error>)
    ensures mode == Private ==> r == Success(st)
    ensures r.Failure? <==> (mode == Subtract || mode == Intersect) && st.sketch.None? && Classify(k, objects).faces != []
    ensures r.Failure? ==> r.error.RuntimeError?
    ensures r.Success? && (Classify(k, objects).faces == [] || mode == Construction || mode == Private) ==>
      r.value.sketch == st.sketch
  {
    if mode == Private then Success(st)
    else
      var p := Classify(k, objects);
      match Combined(k, st.sketch, p.faces, mode)
      case Failure(e) => Failure(e)
      case Success(post) =>
        Success(SketchState(
          post,
          st.pendingEdges + p.edges + EdgesOfAll(k, p.wires),
          VerticesOf(k, post) - VerticesOf(k, st.sketch),
          EdgesOf(k, post) - EdgesOf(k, st.sketch),
          FacesOf(k, post) - FacesOf(k, st.sketch)))
  }

  /** Lines 161-163: each delta holds exactly the entities present after the merge and absent before it. */
  lemma DeltasAreNewEntities(k: Kernel, st: SketchState, objects: seq<Shape>, mode: Mode)
    requires mode != Private && Merge(k, st, objects, mode).Success?
    ensures var post := Merge(k, st, objects, mode).value;
      && (forall v :: v in post.lastVertices <==> v in VerticesOf(k, post.sketch) && v !in VerticesOf(k, st.sketch))
      && (forall e :: e in post.lastEdges <==> e in EdgesOf(k, post.sketch) && e !in EdgesOf(k, st.sketch))
      && (forall f :: f in post.lastFaces <==> f in FacesOf(k, post.sketch) && f !in FacesOf(k, st.sketch))
  {
  }

  /** Lines 128 and 156-163: with no new face, or a mode none of the four branches handles, every delta is empty. */
  lemma NoFacesNoDelta(k: Kernel, st: SketchState, objects: seq<Shape>, mode: Mode)
    requires mode != Private
    requires Classify(k, objects).faces == [] || mode == Construction
    ensures Merge(k, st, objects, mode).Success?
    ensures var post := Merge(k, st, objects, mode).value;
      post.sketch == st.sketch && post.lastVertices == {} && post.lastEdges == {} && post.lastFaces == {}
  {
  }

  /** Lines 134-136: ADD into an empty sketch makes the compound of exactly the new faces, compounds' faces included. */
  lemma AddIntoEmptySketch(k: Kernel, st: SketchState, objects: seq<Shape>)
    requires st.sketch.None? && Classify(k, objects).faces != []
    ensures Merge(k, st, objects, Add).Success?
    ensures Merge(k, st, objects, Add).value.sketch == Some(MakeCompound(k, Classify(k, objects).faces))
    ensures Merge(k, st, objects, Add).value.lastFaces == Elems(k.faces(MakeCompound(k, Classify(k, objects).faces)))
  {
  }

  /** Lines 147-148: REPLACE with at least one new face yields the same sketch whatever the prior one was. */
  lemma ReplaceDiscardsPrior(k: Kernel, st1: SketchState, st2: SketchState, objects: seq<Shape>)
    requires Classify(k, objects).faces != []
    ensures Merge(k, st1, objects, Replace).Success? && Merge(k, st2, objects, Replace).Success?
    ensures Merge(k, st1, objects, Replace).value.sketch == Merge(k, st2, objects, Replace).value.sketch
    ensures Merge(k, st1, objects, Replace).value.sketch == Some(k.clean(MakeCompound(k, Classify(k, objects).faces)))
  {
  }

  /**
    Lines 165-167: the old pending edges stay as a prefix and are followed by
    the new edges and then the new wires' edges, whatever the face-merge mode.
  */
  lemma PendingEdgesGrowIndependentlyOfMode(k: Kernel, st: SketchState, objects: seq<Shape>, m1: Mode, m2: Mode)
    requires m1 != Private && m2 != Private
    requires Merge(k, st, objects, m1).Success? && Merge(k, st, objects, m2).Success?
    ensures Merge(k, st, objects, m1).value.pendingEdges == Merge(k, st, objects, m2).value.pendingEdges
    ensures var pe := Merge(k, st, objects, m1).value.pendingEdges;
      var p := Classify(k, objects);
      && |pe| == |st.pendingEdges| + |p.edges| + |EdgesOfAll(k, p.wires)|
      && pe[..|st.pendingEdges|] == st.pendingEdges
      && pe[|st.pendingEdges|..] == p.edges + EdgesOfAll(k, p.wires)
  {
    var pe := Merge(k, st, objects, m1).value.pendingEdges;
    var p := Classify(k, objects);
    assert pe == st.pendingEdges + (p.edges + EdgesOfAll(k, p.wires));
  }

  /** Lines 117-123: the class filters, then one pass over the compounds. */
  method Gather(k: Kernel, objects: seq<Shape>) returns (p: Parts)
    ensures p == Classify(k, objects)
  {
    var newFaces := OfType(objects, Face);
    var newEdges := OfType(objects, Edge);
    var newWires := OfType(objects, Wire);
    var i := 0;
    while i < |objects|
      invariant 0 <= i <= |objects|
      invariant newFaces == OfType(objects, Face) + FromCompounds(k, objects[..i], Face)
      invariant newEdges == OfType(objects, Edge) + FromCompounds(k, objects[..i], Edge)
      invariant newWires == OfType(objects, Wire) + FromCompounds(k, objects[..i], Wire)
    {
      assert objects[..i + 1] == objects[..i] + [objects[i]];
      FromCompoundsSnoc(k, objects[..i], objects[i], Face);
      FromCompoundsSnoc(k, objects[..i], objects[i], Edge);
      FromCompoundsSnoc(k, objects[..i], objects[i], Wire);
      if objects[i].kind == Compound {
        newFaces := newFaces + k.getType(objects[i], Face);
        newEdges := newEdges + k.getType(objects[i], Edge);
        newWires := newWires + k.getType(objects[i], Wire);
      }
      i := i + 1;
    }
    assert objects[..i] == objects;
    p := Parts(newFaces, newEdges, newWires);
  }

  /** The sketch builder's mutable fields. */
  class BuildSketch {
    var sketch: Option<Shape>
    var pendingEdges: seq<Shape>
    var lastVertices: set<Shape>
    var lastEdges: set<Shape>
    var lastFaces: set<Shape>
    /** The builder's own combination mode, handed to its parent (Builder, build_common). */
    const mode: Mode

    function State(): SketchState
      reads this
    {
      SketchState(sketch, pendingEdges, lastVertices, lastEdges, lastFaces)
    }

    /** Lines 82-87. */
    constructor(mode: Mode)
      ensures State() == SketchState(None, [], {}, {}, {}) && this.mode == mode
    {
      sketch := None;
      pendingEdges := [];
      lastVertices, lastEdges, lastFaces := {}, {}, {};
      this.mode := mode;
    }

    /** Lines 89-92: the pending edges joined into wires; a single wire is returned alone. */
    function ConsolidateEdges(k: Kernel): (r: Result<OneOrMany<Shape>, Error>)
      reads this
      ensures r.Failure? <==> Combine(k, pendingEdges) == []
      ensures r.Success? ==> Members(r.value) == Combine(k, pendingEdges)
      ensures r.Success? ==> (r.value.One? <==> |Combine(k, pendingEdges)| == 1)
    {
      var wires := Combine(k, pendingEdges);
      if |wires| > 1 then Success(Many(wires))
      else if wires == [] then Failure(IndexError)
      else Success(One(wires[0]))
    }

    /** `_add_to_context(*objects, mode=mode)`, lines 94-167. An exception leaves every field as it was. */
    method AddToContext(k: Kernel, objects: seq<Shape>, mode: Mode) returns (r: Outcome<Error>)
      modifies this
      ensures r.Pass? ==> Merge(k, old(State()), objects, mode) == Success(State())
      ensures r.Fail? ==> Merge(k, old(State()), objects, mode) == Failure(r.error) && State() == old(State())
    {
      if mode == Private {
        return Pass;
      }
      var p := Gather(k, objects);
      var newFaces, newEdges, newWires := p.faces, p.edges, p.wires;
      var preVertices := VerticesOf(k, sketch);
      var preEdges := EdgesOf(k, sketch);
      var preFaces := FacesOf(k, sketch);
      if newFaces != [] {
        match mode
        case Add =>
          if sketch.None? {
            sketch := Some(MakeCompound(k, newFaces));
          } else {
            sketch := Some(k.clean(k.fuse(sketch.value, newFaces)));
          }
        case Subtract =>
          if sketch.None? {
            return Fail(RuntimeError("No sketch to subtract from"));
          }
          sketch := Some(k.clean(k.cut(sketch.value, newFaces)));
        case Intersect =>
          if sketch.None? {
            return Fail(RuntimeError("No sketch to intersect with"));
          }
          sketch := Some(k.clean(k.intersect(sketch.value, newFaces)));
        case Replace =>
          sketch := Some(k.clean(MakeCompound(k, newFaces)));
        case _ =>
      }
      lastVertices := VerticesOf(k, sketch) - preVertices;
      lastEdges := EdgesOf(k, sketch) - preEdges;
      lastFaces := FacesOf(k, sketch) - preFaces;
      pendingEdges := pendingEdges + newEdges + EdgesOfAll(k, newWires);
      r := Pass;
    }
  }

  // Operations

  /** Lines 201 and 225: the explicit edges when there are any, else the pending ones. */
  function OuterEdges(edges: seq<Shape>, pending: seq<Shape>): seq<Shape> {
    if edges != [] then edges else pending
  }

  /** Lines 203-204 and 227-228: merge the built face, then forget the pending edges. */
  function ConsumePending(k: Kernel, st: SketchState, face: Shape, mergeMode: Mode): Result<SketchState, Error> {
    match Merge(k, st, [face], mergeMode)
    case Failure(e) => Failure(e)
    case Success(s) => Success(s.(pendingEdges := []))
  }

  /** A single face contributes itself as the only new face and no edge or wire. */
  lemma ClassifyOneFace(k: Kernel, face: Shape)
    requires face.kind == Face
    ensures Classify(k, [face]) == Parts([face], [], [])
  {
    var none: seq<Shape> := [];
    OfTypeSingle(face, Face);
    OfTypeSingle(face, Edge);
    OfTypeSingle(face, Wire);
    FromCompoundsSingle(k, face, Face);
    FromCompoundsSingle(k, face, Edge);
    FromCompoundsSingle(k, face, Wire);
    assert [face] + none == [face];
    assert none + none == none;
  }

  /** After a successful BuildFace or BuildHull no edge is pending, and the face was merged under `mergeMode`. */
  lemma ConsumePendingClearsEdges(k: Kernel, st: SketchState, face: Shape, mergeMode: Mode)
    requires face.kind == Face
    requires ConsumePending(k, st, face, mergeMode).Success?
    ensures ConsumePending(k, st, face, mergeMode).value.pendingEdges == []
    ensures mergeMode != Private ==>
      ConsumePending(k, st, face, mergeMode).value.sketch == Combined(k, st.sketch, [face], mergeMode).value
  {
    ClassifyOneFace(k, face);
  }

  /**
    The BuildFace/BuildHull call `_add_to_context(pending_face, mode)` passes
    `mode` positionally: it joins the objects, is dropped by every class filter,
    and the merge runs under the default ADD. Under PRIVATE the face still lands
    in an empty sketch, where the evidently intended merge leaves it empty.
  */
  lemma PositionalModeIsIgnored(k: Kernel, st: SketchState, face: Shape)
    requires face.kind == Face && st.sketch.None?
    ensures ConsumePending(k, st, face, Add).Success?
    ensures ConsumePending(k, st, face, Add).value.sketch == Some(MakeCompound(k, [face]))
    ensures ConsumePending(k, st, face, Private) == Success(st.(pendingEdges := []))
    ensures ConsumePending(k, st, face, Subtract) == Failure(RuntimeError("No sketch to subtract from"))
  {
    ClassifyOneFace(k, face);
  }

  /** Merge the freshly built face and reset the pending edges. */
  method MergeBuiltFace(k: Kernel, ctx: BuildSketch, face: Shape, mergeMode: Mode) returns (r: Result<Shape, Error>)
    modifies ctx
    ensures match ConsumePending(k, old(ctx.State()), face, mergeMode)
      case Success(st) => r == Success(face) && ctx.State() == st
      case Failure(e) => r == Failure(e) && ctx.State() == old(ctx.State())
  {
    var o := ctx.AddToContext(k, [face], mergeMode);
    if o.Fail? {
      return Failure(o.error);
    }
    ctx.pendingEdges := [];
    r := Success(face);
  }

  /** The face BuildFace builds: the first wire the edges combine into, filled (lines 201-202). */
  function PerimeterFace(k: Kernel, edges: seq<Shape>): Result<Shape, Error> {
    var wires := Combine(k, edges);
    if wires == [] then Failure(IndexError) else Success(FaceFromWire(k, wires[0]))
  }

  /** BuildFace as the source writes it (lines 194-205): the merge ignores `mode` and runs under ADD. */
  method BuildFaceAsWritten(k: Kernel, ctx: BuildSketch, edges: seq<Shape>, mode: Mode) returns (r: Result<Shape, Error>)
    modifies ctx
    ensures match PerimeterFace(k, OuterEdges(edges, old(ctx.pendingEdges)))
      case Failure(e) => r == Failure(e) && ctx.State() == old(ctx.State())
      case Success(face) => ConsumePending(k, old(ctx.State()), face, Add) == Success(ctx.State()) && r == Success(face)
  {
    var outer := OuterEdges(edges, ctx.pendingEdges);
    var face := PerimeterFace(k, outer);
    if face.Failure? {
      return Failure(face.error);
    }
    r := MergeBuiltFace(k, ctx, face.value, Add);
  }

  /** BuildFace with the merge under the caller's `mode`, as evidently intended. */
  method BuildFace(k: Kernel, ctx: BuildSketch, edges: seq<Shape>, mode: Mode) returns (r: Result<Shape, Error>)
    modifies ctx
    ensures match PerimeterFace(k, OuterEdges(edges, old(ctx.pendingEdges)))
      case Failure(e) => r == Failure(e) && ctx.State() == old(ctx.State())
      case Success(face) =>
        match ConsumePending(k, old(ctx.State()), face, mode)
        case Success(st) => r == Success(face) && ctx.State() == st && ctx.pendingEdges == []
        case Failure(e) => r == Failure(e) && ctx.State() == old(ctx.State())
  {
    var outer := OuterEdges(edges, ctx.pendingEdges);
    var face := PerimeterFace(k, outer);
    if face.Failure? {
      return Failure(face.error);
    }
    r := MergeBuiltFace(k, ctx, face.value, mode);
  }

  /** The face BuildHull builds: the filled convex hull of the edges (line 226). */
  function HullFace(k: Kernel, edges: seq<Shape>): Shape {
    FaceFromWire(k, Shape(Wire, k.hull(edges)))
  }

  /** BuildHull as the source writes it (lines 218-229): the merge ignores `mode` and runs under ADD. */
  method BuildHullAsWritten(k: Kernel, ctx: BuildSketch, edges: seq<Shape>, mode: Mode) returns (r: Result<Shape, Error>)
    modifies ctx
    ensures var face := HullFace(k, OuterEdges(edges, old(ctx.pendingEdges)));
      ConsumePending(k, old(ctx.State()), face, Add) == Success(ctx.State()) && r == Success(face)
  {
    var face := HullFace(k, OuterEdges(edges, ctx.pendingEdges));
    r := MergeBuiltFace(k, ctx, face, Add);
  }

  /** BuildHull with the merge under the caller's `mode`, as evidently intended. */
  method BuildHull(k: Kernel, ctx: BuildSketch, edges: seq<Shape>, mode: Mode) returns (r: Result<Shape, Error>)
    modifies ctx
    ensures var face := HullFace(k, OuterEdges(edges, old(ctx.pendingEdges)));
      match ConsumePending(k, old(ctx.State()), face, mode)
      case Success(st) => r == Success(face) && ctx.State() == st && ctx.pendingEdges == []
      case Failure(e) => r == Failure(e) && ctx.State() == old(ctx.State())
  {
    var face := HullFace(k, OuterEdges(edges, ctx.pendingEdges));
    r := MergeBuiltFace(k, ctx, face, mode);
  }

  // Objects

  /** `[face.moved(location) for location in locations]`: one copy of the face per active location. */
  function Broadcast(k: Kernel, face: Shape, locations: seq<Location>): seq<Shape> {
    seq(|locations|, i requires 0 <= i < |locations| => Moved(k, face, locations[i]))
  }

  /** One `_add_to_context(face, mode=mode)` call per face, in order, up to the first exception. */
  function MergeEach(k: Kernel, st: SketchState, faces: seq<Shape>, mode: Mode): (SketchState, Option<Error>)
    decreases |faces|
  {
    if faces == [] then (st, None)
    else
      match Merge(k, st, [faces[0]], mode)
      case Failure(e) => (st, Some(e))
      case Success(next) => MergeEach(k, next, faces[1..], mode)
  }

  /** Broadcasting under PRIVATE leaves the sketch builder as it was. */
  lemma {:induction false} MergeEachPrivate(k: Kernel, st: SketchState, faces: seq<Shape>)
    ensures MergeEach(k, st, faces, Private) == (st, None)
    decreases |faces|
  {
    if faces != [] {
      MergeEachPrivate(k, st, faces[1..]);
    }
  }

  /** Merging faces one by one never touches the pending edges. */
  lemma {:induction false} MergeEachKeepsPending(k: Kernel, st: SketchState, faces: seq<Shape>, mode: Mode)
    requires forall i :: 0 <= i < |faces| ==> faces[i].kind == Face
    ensures MergeEach(k, st, faces, mode).0.pendingEdges == st.pendingEdges
    decreases |faces|
  {
    if faces != [] {
      ClassifyOneFace(k, faces[0]);
      var m := Merge(k, st, [faces[0]], mode);
      if m.Success? {
        MergeEachKeepsPending(k, m.value, faces[1..], mode);
      }
    }
  }

  /** Under ADD every face of the broadcast is merged; afterwards the sketch exists. */
  lemma {:induction false} MergeEachAddSucceeds(k: Kernel, st: SketchState, faces: seq<Shape>)
    requires forall i :: 0 <= i < |faces| ==> faces[i].kind == Face
    requires faces != [] || st.sketch.Some?
    ensures MergeEach(k, st, faces, Add).1 == None
    ensures MergeEach(k, st, faces, Add).0.sketch.Some?
    decreases |faces|
  {
    if faces != [] {
      ClassifyOneFace(k, faces[0]);
      var m := Merge(k, st, [faces[0]], Add);
      MergeEachAddSucceeds(k, m.value, faces[1..]);
    }
  }

  /** SUBTRACT or INTERSECT into an empty sketch fails on the first face and changes nothing. */
  lemma SubtractFromEmptyFails(k: Kernel, st: SketchState, faces: seq<Shape>, mode: Mode)
    requires mode == Subtract || mode == Intersect
    requires st.sketch.None? && faces != [] && faces[0].kind == Face
    ensures MergeEach(k, st, faces, mode).0 == st
    ensures MergeEach(k, st, faces, mode).1.Some? && MergeEach(k, st, faces, mode).1.value.RuntimeError?
  {
    ClassifyOneFace(k, faces[0]);
  }

  /** The state and result after the broadcast loop of an object constructor. */
  ghost predicate Placed(k: Kernel, before: SketchState, after: SketchState, face: Shape, locations: seq<Location>,
                         mode: Mode, r: Result<Shape, Error>) {
    var faces := Broadcast(k, face, locations);
    var run := MergeEach(k, before, faces, mode);
    after == run.0 && r == (if run.1.None? then Success(MakeCompound(k, faces)) else Failure(run.1.value))
  }

  /**
    The broadcast shared by every sketch object (for instance lines 268-273):
    one moved copy of the face per active location, each merged by its own call.
  */
  method PlaceFaces(k: Kernel, ctx: BuildSketch, face: Shape, locations: seq<Location>, mode: Mode)
    returns (r: Result<Shape, Error>)
    modifies ctx
    ensures Placed(k, old(ctx.State()), ctx.State(), face, locations, mode, r)
  {
    var newFaces := Broadcast(k, face, locations);
    var i := 0;
    while i < |newFaces|
      invariant 0 <= i <= |newFaces|
      invariant MergeEach(k, old(ctx.State()), newFaces, mode) == MergeEach(k, ctx.State(), newFaces[i..], mode)
    {
      ghost var before := ctx.State();
      var o := ctx.AddToContext(k, [newFaces[i]], mode);
      if o.Fail? {
        return Failure(o.error);
      }
      assert newFaces[i..][1..] == newFaces[i + 1..];
      i := i + 1;
    }
    r := Success(MakeCompound(k, newFaces));
  }

  /** `Vector(0 if centered[0] else xHalf, 0 if centered[1] else yHalf)`. */
  function CenterOffset(centered: (bool, bool), xHalf: real, yHalf: real): Vec {
    Vec(if centered.0 then 0.0 else xHalf, if centered.1 then 0.0 else yHalf, 0.0)
  }

  /** The face rotated about z and shifted by half its bounding box where not centred (e.g. lines 409-416). */
  function Dressed(k: Kernel, face: Shape, rotation: real, centered: (bool, bool)): Shape {
    var bb := k.boundingBox(face);
    var offset := CenterOffset(centered, (bb.max.x - bb.min.x) / 2.0, (bb.max.y - bb.min.y) / 2.0);
    Located(k, face, k.compose(Location(Origin, Vec(0.0, 0.0, rotation)), At(offset)))
  }

  /** Lines 261-267: the circle's face, shifted by its radius where not centred. */
  function CircleFace(k: Kernel, radius: real, centered: (bool, bool)): Shape {
    Located(k, FaceFromWire(k, Shape(Wire, k.circleWire(radius))), At(CenterOffset(centered, radius, radius)))
  }

  /** Circle, lines 248-273. */
  method Circle(k: Kernel, ctx: BuildSketch, radius: real, centered: (bool, bool), locations: seq<Location>, mode: Mode)
    returns (r: Result<Shape, Error>)
    modifies ctx
    ensures Placed(k, old(ctx.State()), ctx.State(), CircleFace(k, radius, centered), locations, mode, r)
  {
    r := PlaceFaces(k, ctx, CircleFace(k, radius, centered), locations, mode);
  }

  /** Rectangle, lines 391-423. */
  method Rectangle(k: Kernel, ctx: BuildSketch, width: real, height: real, rotation: real, centered: (bool, bool),
                   locations: seq<Location>, mode: Mode)
    returns (r: Result<Shape, Error>)
    modifies ctx
    ensures Placed(k, old(ctx.State()), ctx.State(),
                   Dressed(k, Shape(Face, k.planeFace(height, width)), rotation, centered), locations, mode, r)
  {
    var face := Shape(Face, k.planeFace(height, width));
    r := PlaceFaces(k, ctx, Dressed(k, face, rotation, centered), locations, mode);
  }

  /** Polygon, lines 345-375. */
  method Polygon(k: Kernel, ctx: BuildSketch, pts: seq<Vec>, rotation: real, centered: (bool, bool),
                 locations: seq<Location>, mode: Mode)
    returns (r: Result<Shape, Error>)
    modifies ctx
    ensures Placed(k, old(ctx.State()), ctx.State(), Dressed(k, PolygonFace(k, pts), rotation, centered), locations, mode, r)
  {
    r := PlaceFaces(k, ctx, Dressed(k, PolygonFace(k, pts), rotation, centered), locations, mode);
  }

  /**
    How far the top edge is pulled in on one side (lines 773-778): nothing for
    a right angle, else `height / tan(radians(angle))`; `tanDegrees` stands for
    that tangent.
  */
  function Reduction(height: real, angle: real, tanDegrees: real -> real): Result<real, Error> {
    if angle == 90.0 then Success(0.0)
    else if tanDegrees(angle) == 0.0 then Failure(ZeroDivisionError)
    else Success(height / tanDegrees(angle))
  }

  /** Line 762: a missing or zero right-side angle falls back to the left one. */
  function RightSideAngle(leftSideAngle: real, rightSideAngle: Option<real>): real {
    if rightSideAngle.None? || rightSideAngle.value == 0.0 then leftSideAngle else rightSideAngle.value
  }

  /**
    The trapezoid's closed outline (lines 762-786). It fails iff the two
    reductions together reach the width; otherwise the top-left corner lies
    strictly left of the top-right one.
  */
  function TrapezoidPoints(width: real, height: real, leftSideAngle: real, rightSideAngle: Option<real>,
                           tanDegrees: real -> real): (r: Result<seq<Vec>, Error>)
    ensures var left := Reduction(height, leftSideAngle, tanDegrees);
      var right := Reduction(height, RightSideAngle(leftSideAngle, rightSideAngle), tanDegrees);
      left.Success? && right.Success? ==>
        && (r.Failure? <==> left.value + right.value >= width)
        && (r.Failure? ==> r.error == ValueError("Trapezoid top invalid - change angles"))
    ensures r.Success? ==>
      && |r.value| == 5 && r.value[4] == r.value[0]
      && r.value[3].x < r.value[2].x
      && r.value[1].x - r.value[0].x == width
      && r.value[2].y - r.value[1].y == height
  {
    var right := RightSideAngle(leftSideAngle, rightSideAngle);
    match Reduction(height, leftSideAngle, tanDegrees)
    case Failure(e) => Failure(e)
    case Success(reductionLeft) =>
      match Reduction(height, right, tanDegrees)
      case Failure(e) => Failure(e)
      case Success(reductionRight) =>
        if reductionLeft + reductionRight >= width then Failure(ValueError("Trapezoid top invalid - change angles"))
        else
          var p0 := Vec(-width / 2.0, -height / 2.0, 0.0);
          Success([p0, Vec(width / 2.0, -height / 2.0, 0.0), Vec(width / 2.0 - reductionRight, height / 2.0, 0.0),
                   Vec(-width / 2.0 + reductionLeft, height / 2.0, 0.0), p0])
  }

  /** Without a right-side angle (or with a zero one) the trapezoid is the symmetric one. */
  lemma TrapezoidDefaultsToSymmetric(width: real, height: real, leftSideAngle: real, tanDegrees: real -> real)
    ensures TrapezoidPoints(width, height, leftSideAngle, None, tanDegrees)
         == TrapezoidPoints(width, height, leftSideAngle, Some(leftSideAngle), tanDegrees)
         == TrapezoidPoints(width, height, leftSideAngle, Some(0.0), tanDegrees)
  {
  }

  /** Trapezoid, lines 749-801: an invalid outline raises before anything is merged. */
  method Trapezoid(k: Kernel, ctx: BuildSketch, width: real, height: real, leftSideAngle: real,
                   rightSideAngle: Option<real>, tanDegrees: real -> real, rotation: real, centered: (bool, bool),
                   locations: seq<Location>, mode: Mode)
    returns (r: Result<Shape, Error>)
    modifies ctx
    ensures match TrapezoidPoints(width, height, leftSideAngle, rightSideAngle, tanDegrees)
      case Failure(e) => r == Failure(e) && ctx.State() == old(ctx.State())
      case Success(pts) =>
        Placed(k, old(ctx.State()), ctx.State(), Dressed(k, PolygonFace(k, pts), rotation, centered), locations, mode, r)
  {
    var pts := TrapezoidPoints(width, height, leftSideAngle, rightSideAngle, tanDegrees);
    if pts.Failure? {
      return Failure(pts.error);
    }
    r := PlaceFaces(k, ctx, Dressed(k, PolygonFace(k, pts.value), rotation, centered), locations, mode);
  }
}
