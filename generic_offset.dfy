/**
  `Offset` (build_generic.py, lines 341-433): edges, faces and solids, given
  or taken from compounds, offset by an amount; solids become shells, open at
  the given faces that belong to them.
*/
module GenericOffset {
  import opened Wrappers
  import opened Geometry
  import opened BuildCommon
  import opened Generic

  /** The objects of an offset sorted by class, in the order they were met. */
  datatype Bins = Bins(edges: seq<Shape>, faces: seq<Shape>, solids: seq<Shape>)

  /** The bin of one of the three classes `Offset` works on. */
  function BinFor(b: Bins, t: ShapeType): seq<Shape>
    requires t == Edge || t == Face || t == Solid
  {
    if t == Edge then b.edges else if t == Face then b.faces else b.solids
  }

  /**
    Lines 388-398: a compound contributes its edges, faces and solids; a
    solid, a face or an edge itself; anything else nothing.
  */
  function BinOf(k: Kernel, x: Shape): Bins {
    match x.kind
    case Compound => Bins(k.getType(x, Edge), k.getType(x, Face), k.getType(x, Solid))
    case Solid => Bins([], [], [x])
    case Face => Bins([], [x], [])
    case Edge => Bins([x], [], [])
    case _ => Bins([], [], [])
  }

  function Join(a: Bins, b: Bins): Bins {
    Bins(a.edges + b.edges, a.faces + b.faces, a.solids + b.solids)
  }

  /** The bins of a sequence of objects. */
  function Binned(k: Kernel, xs: seq<Shape>): Bins
    decreases |xs|
  {
    if xs == [] then Bins([], [], [])
    else
      var n := |xs| - 1;
      Join(Binned(k, xs[..n]), BinOf(k, xs[n]))
  }

  lemma BinnedSnoc(k: Kernel, xs: seq<Shape>, x: Shape)
    ensures Binned(k, xs + [x]) == Join(Binned(k, xs), BinOf(k, x))
  {
    assert (xs + [x])[..|xs|] == xs;
  }

  /** Wires, shells and vertices given to `Offset` are ignored. */
  lemma OffsetIgnoresOtherClasses(k: Kernel, xs: seq<Shape>, x: Shape)
    requires x.kind == Vertex || x.kind == Wire || x.kind == Shell
    ensures Binned(k, xs + [x]) == Binned(k, xs)
  {
    BinnedSnoc(k, xs, x);
    assert Join(Binned(k, xs), Bins([], [], [])) == Binned(k, xs);
  }

  /** Shape `x` of class `t` is among the objects, or inside one of their compounds. */
  predicate Contributed(k: Kernel, xs: seq<Shape>, t: ShapeType, x: Shape) {
    (x in xs && x.kind == t) || exists c :: c in xs && c.kind == Compound && x in k.getType(c, t)
  }

  lemma BinForJoin(a: Bins, b: Bins, t: ShapeType)
    requires t == Edge || t == Face || t == Solid
    ensures BinFor(Join(a, b), t) == BinFor(a, t) + BinFor(b, t)
  {
  }

  /** One object contributes itself when it has class `t`, and the shapes of class `t` inside it when it is a compound. */
  lemma BinOfMembers(k: Kernel, x: Shape, t: ShapeType, y: Shape)
    requires t == Edge || t == Face || t == Solid
    ensures y in BinFor(BinOf(k, x), t) <==> (y == x && x.kind == t) || (x.kind == Compound && y in k.getType(x, t))
  {
  }

  lemma ContributedSnoc(k: Kernel, xs: seq<Shape>, x: Shape, t: ShapeType, y: Shape)
    ensures Contributed(k, xs + [x], t, y) <==>
      Contributed(k, xs, t, y) || (y == x && x.kind == t) || (x.kind == Compound && y in k.getType(x, t))
  {
    if Contributed(k, xs + [x], t, y) && !(y in xs + [x] && y.kind == t) {
      var c :| c in xs + [x] && c.kind == Compound && y in k.getType(c, t);
      if c != x {
        assert c in xs;
      }
    }
    if Contributed(k, xs, t, y) && !(y in xs && y.kind == t) {
      var c :| c in xs && c.kind == Compound && y in k.getType(c, t);
      assert c in xs + [x];
    }
    if x.kind == Compound && y in k.getType(x, t) {
      assert x in xs + [x];
    }
  }

  /** Each bin holds exactly the shapes of its class among the objects and their compounds. */
  lemma {:induction false} BinnedMembers(k: Kernel, xs: seq<Shape>, t: ShapeType)
    requires t == Edge || t == Face || t == Solid
    ensures forall y :: y in BinFor(Binned(k, xs), t) <==> Contributed(k, xs, t, y)
    decreases |xs|
  {
    if xs != [] {
      var n := |xs| - 1;
      var prev := xs[..n];
      BinnedMembers(k, prev, t);
      assert xs == prev + [xs[n]];
      BinnedSnoc(k, prev, xs[n]);
      BinForJoin(Binned(k, prev), BinOf(k, xs[n]), t);
      forall y ensures y in BinFor(Binned(k, xs), t) <==> Contributed(k, xs, t, y) {
        BinOfMembers(k, xs[n], t, y);
        ContributedSnoc(k, prev, xs[n], t, y);
      }
    }
  }

  /** `face.outerWire()`. */
  function OuterWire(k: Kernel, face: Shape): Shape {
    Shape(Wire, k.outerWire(face))
  }

  /** Lines 402-406: the face of the first offset of the outer wire; IndexError when there is none. */
  function OffsetFace(k: Kernel, face: Shape, amount: real, kind: Kind): (r: Result<Shape, Error>)
    ensures r.Failure? <==> Offset2D(k, OuterWire(k, face), amount, KindName(kind)) == []
    ensures r.Failure? ==> r.error == IndexError
    ensures r.Success? ==> r.value.kind == Face
  {
    var wires := Offset2D(k, OuterWire(k, face), amount, KindName(kind));
    if wires == [] then Failure(IndexError) else Success(FaceFromWire(k, wires[0]))
  }

  /** The faces' offsets in order, or the error of the first face that has none. */
  function OffsetFaces(k: Kernel, faces: seq<Shape>, amount: real, kind: Kind): Result<seq<Shape>, Error>
    decreases |faces|
  {
    if faces == [] then Success([])
    else
      var n := |faces| - 1;
      var prev := OffsetFaces(k, faces[..n], amount, kind);
      if prev.Failure? then prev
      else
        var face := OffsetFace(k, faces[n], amount, kind);
        if face.Failure? then Failure(face.error) else Success(prev.value + [face.value])
  }

  /** The face loop fails, with IndexError, exactly when some face has no offset. */
  lemma {:induction false} OffsetFacesFailures(k: Kernel, faces: seq<Shape>, amount: real, kind: Kind)
    ensures var r := OffsetFaces(k, faces, amount, kind);
      (r.Success? <==> forall i :: 0 <= i < |faces| ==> OffsetFace(k, faces[i], amount, kind).Success?) &&
      (r.Failure? ==> r.error == IndexError)
    decreases |faces|
  {
    if faces != [] {
      var n := |faces| - 1;
      var init := faces[..n];
      OffsetFacesFailures(k, init, amount, kind);
      var prev := OffsetFaces(k, init, amount, kind);
      var last := OffsetFace(k, faces[n], amount, kind);
      if prev.Failure? {
        assert OffsetFaces(k, faces, amount, kind) == prev;
        var i :| 0 <= i < n && OffsetFace(k, init[i], amount, kind).Failure?;
        assert init[i] == faces[i];
      } else if last.Failure? {
        assert OffsetFaces(k, faces, amount, kind) == Failure(IndexError);
      } else {
        assert OffsetFaces(k, faces, amount, kind).Success?;
        forall i | 0 <= i < |faces| ensures OffsetFace(k, faces[i], amount, kind).Success? {
          if i < n {
            assert init[i] == faces[i];
          }
        }
      }
    }
  }

  /** Where the face loop succeeds it yields one offset face per face, in order. */
  lemma {:induction false} OffsetFacesValues(k: Kernel, faces: seq<Shape>, amount: real, kind: Kind)
    requires OffsetFaces(k, faces, amount, kind).Success?
    ensures var r := OffsetFaces(k, faces, amount, kind).value;
      |r| == |faces| &&
      forall i :: 0 <= i < |faces| ==> OffsetFace(k, faces[i], amount, kind) == Success(r[i])
    decreases |faces|
  {
    if faces != [] {
      var n := |faces| - 1;
      var init := faces[..n];
      OffsetFacesValues(k, init, amount, kind);
      var r := OffsetFaces(k, faces, amount, kind).value;
      var prev := OffsetFaces(k, init, amount, kind).value;
      assert r == prev + [OffsetFace(k, faces[n], amount, kind).value];
      forall i | 0 <= i < |faces| ensures OffsetFace(k, faces[i], amount, kind) == Success(r[i]) {
        if i < n {
          assert init[i] == faces[i];
          assert r[i] == prev[i];
        }
      }
    }
  }

  const TwoEdgesError: string := "At least two edges are required"

  /** Lines 407-414: the offsets of the wire the edges assemble into; a single edge is an error. */
  function OffsetWires(k: Kernel, edges: seq<Shape>, amount: real, kind: Kind): (r: Result<seq<Shape>, Error>)
    ensures r.Failure? <==> |edges| == 1
    ensures r.Failure? ==> r.error == ValueError(TwoEdgesError)
    ensures edges == [] ==> r == Success([])
    ensures r.Success? ==> forall i :: 0 <= i < |r.value| ==> r.value[i].kind == Wire
  {
    if edges == [] then Success([])
    else if |edges| == 1 then Failure(ValueError(TwoEdgesError))
    else Success(Offset2D(k, AssembleEdges(k, edges), amount, KindName(kind)))
  }

  /** The `openings` argument: none, one face, or a list of faces. */
  datatype Openings = NoOpenings | OneOpening(face: Shape) | OpeningList(faces: seq<Shape>)

  /** Line 416-417: a single face stands for the list holding it. */
  function OpeningFaces(o: Openings): seq<Shape> {
    match o
    case NoOpenings => []
    case OneOpening(face) => [face]
    case OpeningList(faces) => faces
  }

  /** Lines 420-429: the shell of a solid, open at the openings that are its own faces, then fixed. */
  function Shelled(k: Kernel, solid: Shape, openings: Openings, amount: real, kind: Kind): Shape {
    k.fix(k.shell(solid, Among(OpeningFaces(openings), k.faces(solid)), amount, KindName(kind)))
  }

  function ShelledAll(k: Kernel, solids: seq<Shape>, openings: Openings, amount: real, kind: Kind): seq<Shape> {
    seq(|solids|, i requires 0 <= i < |solids| => Shelled(k, solids[i], openings, amount, kind))
  }

  /**
    Lines 375-433: the objects (the builder's own object when none is given,
    nothing when that is None) sorted into edges, faces and solids; the faces offset first, then the
    edges, then the solids shelled; the new wires, faces and solids merged in
    that order in the caller's mode.
  */
  function OffsetCalls(k: Kernel, ctx: Context, objects: seq<Shape>, amount: real, openings: Openings, kind: Kind, mode: Mode)
    : (r: Result<Effect, Error>)
    ensures r.Success? ==>
      |r.value.calls| == 1 && r.value.calls[0].AddToContext? && r.value.calls[0].mode == mode &&
      r.value.result == MakeCompound(k, r.value.calls[0].objects)
  {
    var b := Binned(k, Inputs(ctx, objects));
    var faces := OffsetFaces(k, b.faces, amount, kind);
    var wires := OffsetWires(k, b.edges, amount, kind);
    if faces.Failure? then Failure(faces.error)
    else if wires.Failure? then Failure(wires.error)
    else
      var out := wires.value + faces.value + ShelledAll(k, b.solids, openings, amount, kind);
      Success(Effect([AddToContext(out, mode)], MakeCompound(k, out)))
  }

  /**
    `Offset` fails exactly when a face has no offset (IndexError, which the
    face loop raises first) or when there is exactly one edge (ValueError).
  */
  lemma OffsetFailures(k: Kernel, ctx: Context, objects: seq<Shape>, amount: real, openings: Openings, kind: Kind, mode: Mode)
    ensures var b := Binned(k, Inputs(ctx, objects));
      var r := OffsetCalls(k, ctx, objects, amount, openings, kind, mode);
      var faceFails := exists i :: 0 <= i < |b.faces| && OffsetFace(k, b.faces[i], amount, kind).Failure?;
      (r.Failure? <==> faceFails || |b.edges| == 1) &&
      (faceFails ==> r == Failure(IndexError)) &&
      (!faceFails && |b.edges| == 1 ==> r == Failure(ValueError(TwoEdgesError)))
  {
    var b := Binned(k, Inputs(ctx, objects));
    OffsetFacesFailures(k, b.faces, amount, kind);
  }

  /** Offsetting a single edge raises ValueError: at least two edges are required. */
  lemma OffsetSingleEdgeFails(k: Kernel, ctx: Context, e: Shape, amount: real, openings: Openings, kind: Kind, mode: Mode)
    requires e.kind == Edge
    ensures OffsetCalls(k, ctx, [e], amount, openings, kind, mode) == Failure(ValueError(TwoEdgesError))
  {
    BinnedSnoc(k, [], e);
    assert [] + [e] == [e];
    OffsetFailures(k, ctx, [e], amount, openings, kind, mode);
  }

  /**
    With no objects in a builder that holds nothing, the classification loop
    passes over the lone None: `Offset` merges nothing and becomes an empty
    compound.
  */
  lemma OffsetWithoutObject(k: Kernel, ctx: Context, objects: seq<Shape>, amount: real, openings: Openings, kind: Kind, mode: Mode)
    requires NoInput(ctx, objects)
    ensures OffsetCalls(k, ctx, objects, amount, openings, kind, mode) == Success(Effect([AddToContext([], mode)], MakeCompound(k, [])))
  {
    assert Inputs(ctx, objects) == [];
    var b := Binned(k, []);
    assert b == Bins([], [], []);
    assert ShelledAll(k, b.solids, openings, amount, kind) == [];
    assert OffsetFaces(k, b.faces, amount, kind) == Success([]);
    assert OffsetWires(k, b.edges, amount, kind) == Success([]);
    var none: seq<Shape> := [];
    assert none + none + none == [];
  }

  /**
    Where `Offset` succeeds it makes one call, in the caller's mode, merging
    the edges' offset wires, then the faces' offsets, then the solids' shells,
    each group in the order of the objects.
  */
  lemma OffsetOutput(k: Kernel, ctx: Context, objects: seq<Shape>, amount: real, openings: Openings, kind: Kind, mode: Mode)
    requires OffsetCalls(k, ctx, objects, amount, openings, kind, mode).Success?
    ensures var b := Binned(k, Inputs(ctx, objects));
      var e := OffsetCalls(k, ctx, objects, amount, openings, kind, mode).value;
      var wires := OffsetWires(k, b.edges, amount, kind);
      var faces := OffsetFaces(k, b.faces, amount, kind);
      wires.Success? && faces.Success? &&
      e.calls == [AddToContext(wires.value + faces.value + ShelledAll(k, b.solids, openings, amount, kind), mode)] &&
      |faces.value| == |b.faces| &&
      |ShelledAll(k, b.solids, openings, amount, kind)| == |b.solids|
  {
    OffsetFacesValues(k, Binned(k, Inputs(ctx, objects)).faces, amount, kind);
  }

  /** A solid's shell is open at exactly the openings that are faces of that solid, and closed without openings. */
  lemma ShellOpenings(k: Kernel, solid: Shape, openings: Openings, amount: real, kind: Kind)
    ensures exists sel ::
              Shelled(k, solid, openings, amount, kind) == k.fix(k.shell(solid, sel, amount, KindName(kind))) &&
              forall o :: o in sel <==> o in OpeningFaces(openings) && o in k.faces(solid)
    ensures openings == NoOpenings ==> Shelled(k, solid, openings, amount, kind) == k.fix(k.shell(solid, [], amount, KindName(kind)))
  {
    var sel := Among(OpeningFaces(openings), k.faces(solid));
    AmongMembers(OpeningFaces(openings), k.faces(solid));
    assert Shelled(k, solid, openings, amount, kind) == k.fix(k.shell(solid, sel, amount, KindName(kind)));
  }

  /** Lines 375-433, with the loops of the source. */
  method Offset(k: Kernel, ctx: Context, objects: seq<Shape>, amount: real, openings: Openings, kind: Kind, mode: Mode)
    returns (r: Result<Effect, Error>)
    ensures r == OffsetCalls(k, ctx, objects, amount, openings, kind, mode)
  {
    var b := Sort(k, Inputs(ctx, objects));
    var newFaces := OffsetEachFace(k, b.faces, amount, kind);
    if newFaces.Failure? {
      return Failure(newFaces.error);
    }
    var newWires := [];
    if b.edges != [] {
      if |b.edges| == 1 {
        return Failure(ValueError(TwoEdgesError));
      }
      newWires := Offset2D(k, AssembleEdges(k, b.edges), amount, KindName(kind));
    }
    var newSolids := ShellEach(k, b.solids, openings, amount, kind);
    var out := newWires + newFaces.value + newSolids;
    r := Success(Effect([AddToContext(out, mode)], MakeCompound(k, out)));
  }

  /** Lines 388-398: the classification loop. */
  method Sort(k: Kernel, ins: seq<Shape>) returns (b: Bins)
    ensures b == Binned(k, ins)
  {
    b := Bins([], [], []);
    var i := 0;
    while i < |ins|
      invariant 0 <= i <= |ins|
      invariant b == Binned(k, ins[..i])
    {
      assert ins[..i + 1] == ins[..i] + [ins[i]];
      BinnedSnoc(k, ins[..i], ins[i]);
      b := SortOne(k, ins[i], b);
      i := i + 1;
    }
    assert ins[..i] == ins;
  }

  /** Lines 389-398: the body of the classification loop. */
  method SortOne(k: Kernel, obj: Shape, b: Bins) returns (r: Bins)
    ensures r == Join(b, BinOf(k, obj))
  {
    var edges, faces, solids := b.edges, b.faces, b.solids;
    if obj.kind == Compound {
      edges := edges + k.getType(obj, Edge);
      faces := faces + k.getType(obj, Face);
      solids := solids + k.getType(obj, Solid);
    } else if obj.kind == Solid {
      solids := solids + [obj];
    } else if obj.kind == Face {
      faces := faces + [obj];
    } else if obj.kind == Edge {
      edges := edges + [obj];
    } else {
      assert BinOf(k, obj) == Bins([], [], []);
      assert b.edges + [] == b.edges && b.faces + [] == b.faces && b.solids + [] == b.solids;
    }
    r := Bins(edges, faces, solids);
  }

  /** Lines 400-406: the face loop, which stops at the first face without an offset. */
  method OffsetEachFace(k: Kernel, faces: seq<Shape>, amount: real, kind: Kind) returns (r: Result<seq<Shape>, Error>)
    ensures r == OffsetFaces(k, faces, amount, kind)
  {
    var newFaces := [];
    var i := 0;
    while i < |faces|
      invariant 0 <= i <= |faces|
      invariant OffsetFaces(k, faces[..i], amount, kind) == Success(newFaces)
    {
      assert faces[..i + 1][..i] == faces[..i];
      var wires := Offset2D(k, OuterWire(k, faces[i]), amount, KindName(kind));
      if wires == [] {
        OffsetFacesFailAt(k, faces, i, amount, kind);
        return Failure(IndexError);
      }
      newFaces := newFaces + [FaceFromWire(k, wires[0])];
      i := i + 1;
    }
    assert faces[..i] == faces;
    r := Success(newFaces);
  }

  /** Lines 419-429: the solid loop. */
  method ShellEach(k: Kernel, solids: seq<Shape>, openings: Openings, amount: real, kind: Kind) returns (shells: seq<Shape>)
    ensures shells == ShelledAll(k, solids, openings, amount, kind)
  {
    var listed := OpeningFaces(openings);
    shells := [];
    var i := 0;
    while i < |solids|
      invariant 0 <= i <= |solids|
      invariant |shells| == i
      invariant forall j :: 0 <= j < i ==> shells[j] == Shelled(k, solids[j], openings, amount, kind)
    {
      var solid := solids[i];
      var inThisSolid := if listed != [] then Among(listed, k.faces(solid)) else [];
      shells := shells + [k.fix(k.shell(solid, inThisSolid, amount, KindName(kind)))];
      i := i + 1;
    }
  }

  /** The face loop raises at the first face without an offset. */
  lemma OffsetFacesFailAt(k: Kernel, faces: seq<Shape>, i: nat, amount: real, kind: Kind)
    requires i < |faces|
    requires OffsetFaces(k, faces[..i], amount, kind).Success?
    requires OffsetFace(k, faces[i], amount, kind).Failure?
    ensures OffsetFaces(k, faces, amount, kind) == Failure(IndexError)
  {
    var head := faces[..i + 1];
    assert head[..i] == faces[..i];
    assert OffsetFaces(k, head, amount, kind) == Failure(IndexError);
    OffsetFacesSticks(k, head, faces[i + 1..], amount, kind);
    assert head + faces[i + 1..] == faces;
  }

  /** Once a prefix of the faces has failed, more faces do not change the failure. */
  lemma {:induction false} OffsetFacesSticks(k: Kernel, faces: seq<Shape>, more: seq<Shape>, amount: real, kind: Kind)
    requires OffsetFaces(k, faces, amount, kind).Failure?
    ensures OffsetFaces(k, faces + more, amount, kind) == OffsetFaces(k, faces, amount, kind)
    decreases |more|
  {
    if more == [] {
      assert faces + more == faces;
    } else {
      var n := |more| - 1;
      OffsetFacesSticks(k, faces, more[..n], amount, kind);
      assert (faces + more)[..|faces + more| - 1] == faces + more[..n];
    }
  }
}
