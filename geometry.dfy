/**
  The geometry kernel as seen by the builders: opaque shape handles and the
  kernel's queries and constructions as uninterpreted functions.

  A `Kernel` value is a record of total functions. Nothing about their values
  is known to the model, so every property proved below holds for every
  kernel. Where cadquery's signature fixes the class of a result (a face made
  from a wire is a `Face`, a moved shape keeps its class) the kernel only
  chooses the identity of the new handle and the wrapper functions at the end of
  this module give the handle that class.
*/
module Geometry {
  import opened Wrappers

  /** The topological classes of cadquery's shapes. */
  datatype ShapeType = Vertex | Edge | Wire | Face | Shell | Solid | Compound

  /** An opaque handle on a kernel shape: its class and its identity. */
  datatype Shape = Shape(kind: ShapeType, id: nat)

  datatype Vec = Vec(x: real, y: real, z: real)

  const Origin: Vec := Vec(0.0, 0.0, 0.0)

  /** A placement: a translation and rotation angles about x, y and z. */
  datatype Location = Location(position: Vec, rotation: Vec)

  /** `Location()` and `Location(Vector())`: no translation, no rotation. */
  const Identity: Location := Location(Origin, Origin)

  /** `Location(Vector(p))`: a pure translation to `p`. */
  function At(p: Vec): Location {
    Location(p, Origin)
  }

  /** A reference frame; `zDir` is its normal. */
  datatype Plane = Plane(origin: Vec, xDir: Vec, zDir: Vec)

  /** An axis-aligned bounding box, as `Shape.BoundingBox()` reports it. */
  datatype BBox = BBox(min: Vec, max: Vec)

  /** A 4x4 transformation matrix, row by row. */
  type Matrix = seq<seq<real>>

  /** The exceptions the builders raise. */
  datatype Error =
    | RuntimeError(message: string)
    | ValueError(message: string)
    | KeyError(key: nat)
    | IndexError
    | ZeroDivisionError
    | AttributeError

  /** The kernel's queries and constructions. */
  datatype Kernel = Kernel(
    // topology of a shape
    vertices: Shape -> seq<Shape>,
    edges: Shape -> seq<Shape>,
    faces: Shape -> seq<Shape>,
    getType: (Shape, ShapeType) -> seq<Shape>,
    // measurements
    location: Shape -> Location,
    boundingBox: Shape -> BBox,
    diagonal: BBox -> real,
    center: Shape -> Vec,
    norm: Vec -> real,
    length: Shape -> real,
    radius: Shape -> real,
    area: Shape -> real,
    // frames and placements
    compose: (Location, Location) -> Location,
    planeLocation: Plane -> Location,
    rotation: Vec -> Location,
    namedPlane: string -> Plane,
    fromLocalPoint: (Plane, Vec) -> Vec,
    // identities of new shapes whose class cadquery fixes
    moved: (Shape, Location) -> nat,
    located: (Shape, Location) -> nat,
    rotated: (Shape, real) -> nat,
    toLocal: (Plane, Shape) -> nat,
    fromLocal: (Plane, Shape) -> nat,
    transformGeometry: (Shape, Matrix) -> nat,
    compound: seq<Shape> -> nat,
    combine: seq<Shape> -> seq<nat>,
    assembleEdges: seq<Shape> -> nat,
    faceFromWire: Shape -> nat,
    hull: seq<Shape> -> nat,
    circleWire: real -> nat,
    polygonWire: seq<Vec> -> nat,
    planeFace: (real, real) -> nat,
    box: (Vec, Vec) -> nat,
    line: (Vec, Vec) -> nat,
    outerWire: Shape -> nat,
    offset2D: (Shape, real, string) -> seq<nat>,
    extrudeLinear: (Shape, Vec) -> nat,
    revolve: (Shape, real, Vec, Vec) -> nat,
    // results whose class the kernel decides
    fuse: (Shape, seq<Shape>) -> Shape,
    cut: (Shape, seq<Shape>) -> Shape,
    intersect: (Shape, seq<Shape>) -> Shape,
    clean: Shape -> Shape,
    fix: Shape -> Shape,
    shell: (Shape, seq<Shape>, real, string) -> Shape,
    fillet3D: (Shape, real, seq<Shape>) -> Shape,
    chamfer3D: (Shape, real, Option<real>, seq<Shape>) -> Shape,
    fillet2D: (Shape, real, seq<Shape>) -> Shape,
    chamfer2D: (Shape, real, seq<Shape>) -> Shape
  )

  /** The set of handles in a list, as Python's `set(...)` builds it. */
  function Elems(xs: seq<Shape>): set<Shape> {
    set x | x in xs
  }

  /** `[obj for obj in xs if isinstance(obj, t)]`. */
  function OfType(xs: seq<Shape>, t: ShapeType): seq<Shape>
    decreases |xs|
  {
    if xs == [] then []
    else
      var n := |xs| - 1;
      OfType(xs[..n], t) + (if xs[n].kind == t then [xs[n]] else [])
  }

  /** The filter keeps exactly the members of class `t`, and never grows the list. */
  lemma {:induction false} OfTypeMembers(xs: seq<Shape>, t: ShapeType)
    ensures forall x :: x in OfType(xs, t) <==> x in xs && x.kind == t
    ensures |OfType(xs, t)| <= |xs|
    decreases |xs|
  {
    if xs != [] {
      var n := |xs| - 1;
      OfTypeMembers(xs[..n], t);
      assert xs == xs[..n] + [xs[n]];
    }
  }

  /** One more input is kept exactly when it has class `t`. */
  lemma OfTypeSnoc(xs: seq<Shape>, x: Shape, t: ShapeType)
    ensures OfType(xs + [x], t) == OfType(xs, t) + (if x.kind == t then [x] else [])
  {
    assert (xs + [x])[..|xs|] == xs;
  }

  /** A single input is kept exactly when it has class `t`. */
  lemma OfTypeSingle(x: Shape, t: ShapeType)
    ensures OfType([x], t) == (if x.kind == t then [x] else [])
  {
    assert [x][..0] == [];
  }

  /** The members of class `t` of the compounds among `xs`, compound by compound (`compound.get_type(t)`). */
  function FromCompounds(k: Kernel, xs: seq<Shape>, t: ShapeType): seq<Shape>
    decreases |xs|
  {
    if xs == [] then []
    else
      var n := |xs| - 1;
      FromCompounds(k, xs[..n], t) + (if xs[n].kind == Compound then k.getType(xs[n], t) else [])
  }

  /** One more input adds its members when it is a compound, and nothing otherwise. */
  lemma FromCompoundsSnoc(k: Kernel, xs: seq<Shape>, x: Shape, t: ShapeType)
    ensures FromCompounds(k, xs + [x], t) == FromCompounds(k, xs, t) + (if x.kind == Compound then k.getType(x, t) else [])
  {
    assert (xs + [x])[..|xs|] == xs;
  }

  /** A single input that is not a compound contributes nothing. */
  lemma FromCompoundsSingle(k: Kernel, x: Shape, t: ShapeType)
    requires x.kind != Compound
    ensures FromCompounds(k, [x], t) == []
  {
    assert [x][..0] == [];
  }

  /** Every member gathered comes from some compound input, and every member of every compound input is gathered. */
  lemma {:induction false} FromCompoundsMembers(k: Kernel, xs: seq<Shape>, t: ShapeType)
    ensures forall x :: x in FromCompounds(k, xs, t) <==>
      exists i :: 0 <= i < |xs| && xs[i].kind == Compound && x in k.getType(xs[i], t)
    decreases |xs|
  {
    if xs != [] {
      var n := |xs| - 1;
      FromCompoundsMembers(k, xs[..n], t);
      var last := if xs[n].kind == Compound then k.getType(xs[n], t) else [];
      assert FromCompounds(k, xs, t) == FromCompounds(k, xs[..n], t) + last;
      forall x | x in FromCompounds(k, xs, t)
        ensures exists i :: 0 <= i < |xs| && xs[i].kind == Compound && x in k.getType(xs[i], t)
      {
        if x in last {
          assert xs[n].kind == Compound && x in k.getType(xs[n], t);
        } else {
          var i :| 0 <= i < n && xs[..n][i].kind == Compound && x in k.getType(xs[..n][i], t);
          assert xs[i] == xs[..n][i];
        }
      }
      forall i, x | 0 <= i < |xs| && xs[i].kind == Compound && x in k.getType(xs[i], t)
        ensures x in FromCompounds(k, xs, t)
      {
        if i < n {
          assert xs[..n][i] == xs[i];
        }
      }
    }
  }

  /** `[e for w in ws for e in w.Edges()]`: the edges of every wire, wire by wire. */
  function EdgesOfAll(k: Kernel, ws: seq<Shape>): seq<Shape>
    decreases |ws|
  {
    if ws == [] then []
    else
      var n := |ws| - 1;
      EdgesOfAll(k, ws[..n]) + k.edges(ws[n])
  }

  /** One more wire adds its edges at the end. */
  lemma EdgesOfAllSnoc(k: Kernel, ws: seq<Shape>, w: Shape)
    ensures EdgesOfAll(k, ws + [w]) == EdgesOfAll(k, ws) + k.edges(w)
  {
    assert (ws + [w])[..|ws|] == ws;
  }

  /** The flattened list holds exactly the edges of the wires. */
  lemma {:induction false} EdgesOfAllMembers(k: Kernel, ws: seq<Shape>)
    ensures forall x :: x in EdgesOfAll(k, ws) <==> exists i :: 0 <= i < |ws| && x in k.edges(ws[i])
    decreases |ws|
  {
    if ws != [] {
      var n := |ws| - 1;
      EdgesOfAllMembers(k, ws[..n]);
      assert EdgesOfAll(k, ws) == EdgesOfAll(k, ws[..n]) + k.edges(ws[n]);
      forall x | x in EdgesOfAll(k, ws) ensures exists i :: 0 <= i < |ws| && x in k.edges(ws[i]) {
        if x in k.edges(ws[n]) {
          assert x in k.edges(ws[n]);
        } else {
          assert x in EdgesOfAll(k, ws[..n]);
          var i :| 0 <= i < n && x in k.edges(ws[..n][i]);
          assert ws[i] == ws[..n][i];
        }
      }
      forall i, x | 0 <= i < |ws| && x in k.edges(ws[i]) ensures x in EdgesOfAll(k, ws) {
        if i < n {
          assert ws[..n][i] == ws[i];
        }
      }
    }
  }

  /** A call that returns `xs[0]` when it built one shape and the list otherwise. */
  datatype OneOrMany<T> = One(item: T) | Many(items: seq<T>)

  function Members<T>(o: OneOrMany<T>): seq<T> {
    match o
    case One(x) => [x]
    case Many(xs) => xs
  }

  /** `xs[0] if len(xs) == 1 else xs`; nothing is lost in the collapse. */
  function Collapse<T>(xs: seq<T>): (r: OneOrMany<T>)
    ensures Members(r) == xs
    ensures r.One? <==> |xs| == 1
  {
    if |xs| == 1 then One(xs[0]) else Many(xs)
  }

  // Constructions whose class cadquery fixes.

  /** `s.moved(l)`: the same class, relocated relative to its own placement. */
  function Moved(k: Kernel, s: Shape, l: Location): Shape {
    Shape(s.kind, k.moved(s, l))
  }

  /** `s.located(l)` and `s.locate(l)` on a fresh shape: the same class at placement `l`. */
  function Located(k: Kernel, s: Shape, l: Location): Shape {
    Shape(s.kind, k.located(s, l))
  }

  /** `s.rotate((0, 0, 0), (0, 0, 1), angle)`: the same class rotated about the z axis. */
  function RotatedZ(k: Kernel, s: Shape, angle: real): Shape {
    Shape(s.kind, k.rotated(s, angle))
  }

  /** `plane.toLocalCoords(s)`. */
  function ToLocal(k: Kernel, p: Plane, s: Shape): Shape {
    Shape(s.kind, k.toLocal(p, s))
  }

  /** `plane.fromLocalCoords(s)`. */
  function FromLocal(k: Kernel, p: Plane, s: Shape): Shape {
    Shape(s.kind, k.fromLocal(p, s))
  }

  /** `s.transformGeometry(m)`. */
  function TransformGeometry(k: Kernel, s: Shape, m: Matrix): Shape {
    Shape(s.kind, k.transformGeometry(s, m))
  }

  /** `Compound.makeCompound(xs)`. */
  function MakeCompound(k: Kernel, xs: seq<Shape>): Shape {
    Shape(Compound, k.compound(xs))
  }

  /** `Face.makeFromWires(w)`. */
  function FaceFromWire(k: Kernel, w: Shape): Shape {
    Shape(Face, k.faceFromWire(w))
  }

  /** `Wire.combine(edges)`: the wires the edges join into. */
  function Combine(k: Kernel, edges: seq<Shape>): seq<Shape> {
    seq(|k.combine(edges)|, i requires 0 <= i < |k.combine(edges)| => Shape(Wire, k.combine(edges)[i]))
  }

  /** `Wire.assembleEdges(edges)`. */
  function AssembleEdges(k: Kernel, edges: seq<Shape>): Shape {
    Shape(Wire, k.assembleEdges(edges))
  }

  /** `wire.offset2D(amount, kind)`: the offset wires. */
  function Offset2D(k: Kernel, w: Shape, amount: real, kind: string): seq<Shape> {
    seq(|k.offset2D(w, amount, kind)|, i requires 0 <= i < |k.offset2D(w, amount, kind)| =>
      Shape(Wire, k.offset2D(w, amount, kind)[i]))
  }

  /** `Solid.makeBox(size.x, size.y, size.z, pnt=corner)`. */
  function MakeBox(k: Kernel, size: Vec, corner: Vec): Shape {
    Shape(Solid, k.box(size, corner))
  }

  /** `Edge.makeLine(p, q)`. */
  function MakeLine(k: Kernel, p: Vec, q: Vec): Shape {
    Shape(Edge, k.line(p, q))
  }

  /** `Face.makeFromWires(Wire.makePolygon(pts))`. */
  function PolygonFace(k: Kernel, pts: seq<Vec>): Shape {
    FaceFromWire(k, Shape(Wire, k.polygonWire(pts)))
  }

  function ScaleVec(v: Vec, f: real): Vec {
    Vec(v.x * f, v.y * f, v.z * f)
  }

  /** The members of a collection of handles that have class `t`. */
  lemma OfTypeOfUniform(xs: seq<Shape>, t: ShapeType)
    requires forall i :: 0 <= i < |xs| ==> xs[i].kind == t
    ensures OfType(xs, t) == xs
    decreases |xs|
  {
    if xs != [] {
      OfTypeOfUniform(xs[..|xs| - 1], t);
      assert xs[..|xs| - 1] + [xs[|xs| - 1]] == xs;
    }
  }
}
