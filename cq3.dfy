/**
  The prototype builders of cq3.py: Build3D stages faces and edges per
  workplane and merges solids into its working solid, Build2D places faces at
  pushed locations into its working surface, and Build1D collects the edges of
  polylines and their tags.
*/
module Cq3 {
  import opened Wrappers
  import opened Geometry

  /** Combination mode of the prototype builders (lines 120-126). */
  datatype Mode = Addition | Subtraction | Intersection | Construction

  /** A mode argument: one of the modes, or any other value a caller passes (shown by its `str`). */
  datatype ModeArg = Given(mode: Mode) | Other(text: string)

  /** The keys of `last_operation` (lines 147-150). */
  datatype CqObject = CqEdge | CqFace | CqVertex

  /** Sort keys of the selectors (lines 108-117). */
  datatype SortBy = NoSort | X | Y | Z | Length | Radius | Area | Volume | Distance

  /** An argument of `push_locations`: a point, or a ready-made location. */
  datatype PointOrLocation = Point(at: Vec) | Loc(location: Location)

  /** `[Location(Vector(pt)) if not isinstance(pt, Location) else pt for pt in pts]`. */
  function ToLocations(pts: seq<PointOrLocation>): seq<Location> {
    seq(|pts|, i requires 0 <= i < |pts| => match pts[i] case Point(v) => At(v) case Loc(l) => l)
  }

  // Sorting

  /** `xs` is in ascending order of `key`. */
  predicate Ascending(xs: seq<Shape>, key: Shape -> real) {
    forall i, j :: 0 <= i < j < |xs| ==> key(xs[i]) <= key(xs[j])
  }

  /**
    The key `sorted(..., reverse=reverse)` effectively sorts by: Python's
    reversed sort keeps equal elements in their original order, which is the
    ascending sort by the negated key.
  */
  function Directed(key: Shape -> real, reverse: bool): Shape -> real {
    if reverse then (s: Shape) => -key(s) else key
  }

  /** Insert `x` before the first element whose key is not smaller. */
  function Insert(x: Shape, ys: seq<Shape>, key: Shape -> real): seq<Shape>
    decreases |ys|
  {
    if ys == [] || key(x) <= key(ys[0]) then [x] + ys else [ys[0]] + Insert(x, ys[1..], key)
  }

  /** A list stays ascending when an element no larger than all of it is put in front. */
  lemma AscendingCons(x: Shape, ys: seq<Shape>, key: Shape -> real)
    requires Ascending(ys, key)
    requires forall i :: 0 <= i < |ys| ==> key(x) <= key(ys[i])
    ensures Ascending([x] + ys, key)
  {
    var r := [x] + ys;
    forall i, j | 0 <= i < j < |r| ensures key(r[i]) <= key(r[j]) {
      assert r[j] == ys[j - 1];
      if i > 0 {
        assert r[i] == ys[i - 1];
      }
    }
  }

  /** The tail of an ascending list is ascending, and its head bounds it from below. */
  lemma AscendingTail(ys: seq<Shape>, key: Shape -> real)
    requires Ascending(ys, key) && ys != []
    ensures Ascending(ys[1..], key)
    ensures forall i :: 0 <= i < |ys[1..]| ==> key(ys[0]) <= key(ys[1..][i])
  {
    var tail := ys[1..];
    forall i, j | 0 <= i < j < |tail| ensures key(tail[i]) <= key(tail[j]) {
      assert tail[i] == ys[i + 1] && tail[j] == ys[j + 1];
    }
    forall i | 0 <= i < |tail| ensures key(ys[0]) <= key(tail[i]) {
      assert tail[i] == ys[i + 1];
    }
  }

  /** A lower bound on `x` and on every element of `ys` bounds every element of a list holding exactly them. */
  lemma BoundByMultiset(b: real, x: Shape, ys: seq<Shape>, zs: seq<Shape>, key: Shape -> real)
    requires multiset(zs) == multiset(ys) + multiset{x}
    requires b <= key(x) && forall i :: 0 <= i < |ys| ==> b <= key(ys[i])
    ensures forall i :: 0 <= i < |zs| ==> b <= key(zs[i])
  {
    forall i | 0 <= i < |zs| ensures b <= key(zs[i]) {
      var z := zs[i];
      assert z in multiset(zs);
      if z != x {
        assert z in multiset(ys);
        var j :| 0 <= j < |ys| && ys[j] == z;
      }
    }
  }

  /** Inserting into an ascending list keeps it ascending and adds exactly `x`. */
  lemma {:induction false} InsertKeepsAscending(x: Shape, ys: seq<Shape>, key: Shape -> real)
    requires Ascending(ys, key)
    ensures Ascending(Insert(x, ys, key), key)
    ensures multiset(Insert(x, ys, key)) == multiset(ys) + multiset{x}
    decreases |ys|
  {
    if ys == [] {
      AscendingCons(x, ys, key);
    } else {
      AscendingTail(ys, key);
      if key(x) <= key(ys[0]) {
        AscendingCons(x, ys, key);
      } else {
        var tail := ys[1..];
        InsertKeepsAscending(x, tail, key);
        var rest := Insert(x, tail, key);
        BoundByMultiset(key(ys[0]), x, tail, rest, key);
        AscendingCons(ys[0], rest, key);
        assert ys == [ys[0]] + tail;
      }
    }
  }

  /** Insertion sort: the model of `sorted(xs, key=key)`. */
  function Sort(xs: seq<Shape>, key: Shape -> real): (r: seq<Shape>)
    ensures Ascending(r, key)
    ensures multiset(r) == multiset(xs)
    decreases |xs|
  {
    if xs == [] then []
    else
      assert xs == [xs[0]] + xs[1..];
      InsertKeepsAscending(xs[0], Sort(xs[1..], key), key);
      Insert(xs[0], Sort(xs[1..], key), key)
  }

  /** How a selector orders its result. */
  datatype Ordering = Unsorted | ByKey(key: Shape -> real) | Unsupported

  /**
    The sort keys each selector accepts (lines 243-353): the centre's x, y or
    z, the distance of the centre from the origin, and the edge length and
    radius (edges) or the area (faces).
  */
  function OrderingOf(k: Kernel, which: CqObject, sortBy: SortBy): Ordering {
    match sortBy
    case NoSort => Unsorted
    case X => ByKey((s: Shape) => k.center(s).x)
    case Y => ByKey((s: Shape) => k.center(s).y)
    case Z => ByKey((s: Shape) => k.center(s).z)
    case Distance => ByKey((s: Shape) => k.norm(k.center(s)))
    case Length => if which == CqEdge then ByKey(k.length) else Unsupported
    case Radius => if which == CqEdge then ByKey(k.radius) else Unsupported
    case Area => if which == CqFace then ByKey(k.area) else Unsupported
    case Volume => Unsupported
  }

  function SortByName(sortBy: SortBy): string {
    match sortBy
    case NoSort => "SortBy.NONE"
    case X => "SortBy.X"
    case Y => "SortBy.Y"
    case Z => "SortBy.Z"
    case Length => "SortBy.LENGTH"
    case Radius => "SortBy.RADIUS"
    case Area => "SortBy.AREA"
    case Volume => "SortBy.VOLUME"
    case Distance => "SortBy.DISTANCE"
  }

  /** The entities of one class of a shape. */
  function EntitiesOf(k: Kernel, which: CqObject, s: Shape): seq<Shape> {
    match which
    case CqEdge => k.edges(s)
    case CqFace => k.faces(s)
    case CqVertex => k.vertices(s)
  }

  /** `set(solid.Vertices())` (edges, faces), empty while there is no solid. */
  function EntitySet(k: Kernel, which: CqObject, s: Option<Shape>): set<Shape> {
    if s.None? then {} else Elems(EntitiesOf(k, which, s.value))
  }

  // Revolve angle

  /** The full turns Python's floored `degrees % 360.0` removes, one fewer when that leaves 0. */
  function FullTurns(degrees: real): int {
    var f := (degrees / 360.0).Floor;
    if degrees - 360.0 * f as real == 0.0 then f - 1 else f
  }

  /**
    Lines 442-443: Python's floored `angle % 360.0`, with 0 read as a full
    turn. The result is a proper revolve angle a whole number of turns away.
  */
  function RevolveAngle(degrees: real): (r: real)
    ensures 0.0 < r <= 360.0
    ensures degrees == r + 360.0 * FullTurns(degrees) as real
  {
    var q := degrees / 360.0;
    var f := q.Floor;
    assert f as real <= q < f as real + 1.0;
    var m := degrees - 360.0 * f as real;
    assert 0.0 <= m < 360.0;
    if m == 0.0 then 360.0 else m
  }

  /** A proper revolve angle is kept as it is. */
  lemma RevolveAngleKeepsProperAngles(degrees: real)
    requires 0.0 < degrees <= 360.0
    ensures RevolveAngle(degrees) == degrees
  {
    var q := degrees / 360.0;
    assert 0.0 < q <= 1.0;
    if degrees < 360.0 {
      assert q.Floor == 0;
    } else {
      assert q == 1.0;
      assert q.Floor == 1;
    }
  }

  /** Normalising twice changes nothing. */
  lemma RevolveAngleIdempotent(degrees: real)
    ensures RevolveAngle(RevolveAngle(degrees)) == RevolveAngle(degrees)
  {
    RevolveAngleKeepsProperAngles(RevolveAngle(degrees));
  }

  /** A zero revolve is a full one, and a full turn more or less changes nothing. */
  lemma RevolveAnglePeriodic(degrees: real)
    ensures RevolveAngle(0.0) == 360.0
    ensures RevolveAngle(degrees + 360.0) == RevolveAngle(degrees)
  {
    var q := degrees / 360.0;
    var f := q.Floor;
    assert f as real <= q < f as real + 1.0;
    assert (degrees + 360.0) / 360.0 == q + 1.0;
    assert ((degrees + 360.0) / 360.0).Floor == f + 1;
    assert (0.0 / 360.0).Floor == 0;
  }

  // Build3D staging

  /** The two per-workplane staging tables. */
  datatype Tables = Tables(faces: map<nat, seq<Shape>>, edges: map<nat, seq<Shape>>)

  /** Lines 198-213: the copies `add` makes of `obj` for one workplane, one per location. */
  function AddedAt(k: Kernel, obj: Shape, workplane: Plane, locs: seq<Location>): seq<Shape> {
    seq(|locs|, j requires 0 <= j < |locs| => Located(k, obj, k.compose(locs[j], k.planeLocation(workplane))))
  }

  /** The table `add` stages `obj` in: pending faces for a face, pending edges for anything else. */
  function Staged(t: Tables, obj: Shape): map<nat, seq<Shape>> {
    if obj.kind == Face then t.faces else t.edges
  }

  /** `t` with the table `obj` is staged in replaced by `m`. */
  function Restaged(t: Tables, obj: Shape, m: map<nat, seq<Shape>>): Tables {
    if obj.kind == Face then t.(faces := m) else t.(edges := m)
  }

  /**
    `add(obj)` on workplane `i` (lines 198-213): one located copy per location
    is appended to the workplane's entry; a workplane with locations but no
    entry raises KeyError.
  */
  function AddStep(k: Kernel, obj: Shape, workplane: Plane, locs: seq<Location>, t: Tables, i: nat)
    : (r: (Tables, Outcome<Error>))
    ensures r.1.Fail? <==> locs != [] && i !in Staged(t, obj)
    ensures r.1.Fail? ==> r == (t, Fail(KeyError(i)))
    ensures locs == [] ==> r == (t, Pass)
  {
    if locs == [] then (t, Pass)
    else if i !in Staged(t, obj) then (t, Fail(KeyError(i)))
    else (Restaged(t, obj, Staged(t, obj)[i := Staged(t, obj)[i] + AddedAt(k, obj, workplane, locs)]), Pass)
  }

  /** `add(obj)` over the first `n` workplanes (lines 195-213); an exception keeps what earlier workplanes added. */
  function AddAll(k: Kernel, obj: Shape, workplanes: seq<Plane>, locations: map<nat, seq<Location>>, t: Tables, n: nat)
    : (r: (Tables, Outcome<Error>))
    requires n <= |workplanes|
    requires forall i :: 0 <= i < n ==> i in locations
    ensures r.1.Fail? ==> r.1.error.KeyError? && r.1.error.key < n
  {
    if n == 0 then (t, Pass)
    else
      var prev := AddAll(k, obj, workplanes, locations, t, n - 1);
      if prev.1.Fail? then prev else AddStep(k, obj, workplanes[n - 1], locations[n - 1], prev.0, n - 1)
  }

  /** Once a workplane raised, later workplanes change nothing: the exception ends the loop. */
  lemma {:induction false} AddAllFailureSticks(k: Kernel, obj: Shape, workplanes: seq<Plane>,
                                               locations: map<nat, seq<Location>>, t: Tables, m: nat, n: nat)
    requires m <= n <= |workplanes|
    requires forall i :: 0 <= i < n ==> i in locations
    requires AddAll(k, obj, workplanes, locations, t, m).1.Fail?
    ensures AddAll(k, obj, workplanes, locations, t, n) == AddAll(k, obj, workplanes, locations, t, m)
    decreases n
  {
    if m < n {
      AddAllFailureSticks(k, obj, workplanes, locations, t, m, n - 1);
    }
  }

  /** `add` touches only the table `obj` is staged in and adds no entry to it, whether or not it raises. */
  lemma {:induction false} AddKeepsOtherTable(k: Kernel, obj: Shape, workplanes: seq<Plane>,
                                              locations: map<nat, seq<Location>>, t: Tables, n: nat)
    requires n <= |workplanes|
    requires forall i :: 0 <= i < n ==> i in locations
    ensures var u := AddAll(k, obj, workplanes, locations, t, n).0;
      Restaged(u, obj, Staged(t, obj)) == t && Staged(u, obj).Keys == Staged(t, obj).Keys
    decreases n
  {
    if n > 0 {
      AddKeepsOtherTable(k, obj, workplanes, locations, t, n - 1);
    }
  }

  /**
    A successful `add` appends to each workplane's entry exactly one located
    copy per location of that workplane, and only workplanes with an entry had
    locations.
  */
  lemma AddAppendsPerWorkplane(k: Kernel, obj: Shape, workplanes: seq<Plane>,
                               locations: map<nat, seq<Location>>, t: Tables, n: nat)
    requires n <= |workplanes|
    requires forall i :: 0 <= i < n ==> i in locations
    requires AddAll(k, obj, workplanes, locations, t, n).1.Pass?
    ensures forall i :: 0 <= i < n && locations[i] != [] ==> i in Staged(t, obj)
    ensures var u := AddAll(k, obj, workplanes, locations, t, n).0;
      forall i :: i in Staged(t, obj) ==>
        i in Staged(u, obj) && Staged(u, obj)[i] == Staged(t, obj)[i] + (if i < n then AddedAt(k, obj, workplanes[i], locations[i]) else [])
  {
    forall i | 0 <= i < n && locations[i] != [] ensures i in Staged(t, obj) {
      AddNeedsEntry(k, obj, workplanes, locations, t, n, i);
    }
    forall i | i in Staged(t, obj)
      ensures var u := AddAll(k, obj, workplanes, locations, t, n).0;
        i in Staged(u, obj) && Staged(u, obj)[i] == Staged(t, obj)[i] + (if i < n then AddedAt(k, obj, workplanes[i], locations[i]) else [])
    {
      AddAppendsAt(k, obj, workplanes, locations, t, n, i);
    }
  }

  /** A successful `add` met an entry for every workplane that has locations. */
  lemma {:induction false} AddNeedsEntry(k: Kernel, obj: Shape, workplanes: seq<Plane>,
                                         locations: map<nat, seq<Location>>, t: Tables, n: nat, i: nat)
    requires n <= |workplanes|
    requires forall i :: 0 <= i < n ==> i in locations
    requires AddAll(k, obj, workplanes, locations, t, n).1.Pass?
    requires i < n && locations[i] != []
    ensures i in Staged(t, obj)
    decreases n
  {
    var p := n - 1;
    var prev := AddAll(k, obj, workplanes, locations, t, p);
    assert prev.1.Pass?;
    if i < p {
      AddNeedsEntry(k, obj, workplanes, locations, t, p, i);
    } else {
      AddStepStages(k, obj, workplanes[p], locations[p], prev.0, p);
      AddKeepsOtherTable(k, obj, workplanes, locations, t, p);
    }
  }

  /** What a successful `add` leaves in the entry of workplane `i`. */
  lemma {:induction false} AddAppendsAt(k: Kernel, obj: Shape, workplanes: seq<Plane>,
                                        locations: map<nat, seq<Location>>, t: Tables, n: nat, i: nat)
    requires n <= |workplanes|
    requires forall i :: 0 <= i < n ==> i in locations
    requires AddAll(k, obj, workplanes, locations, t, n).1.Pass?
    requires i in Staged(t, obj)
    ensures var u := AddAll(k, obj, workplanes, locations, t, n).0;
      i in Staged(u, obj) &&
      Staged(u, obj)[i] == Staged(t, obj)[i] + (if i < n then AddedAt(k, obj, workplanes[i], locations[i]) else [])
    decreases n
  {
    if n == 0 {
      assert Staged(t, obj)[i] + [] == Staged(t, obj)[i];
    } else {
      var p := n - 1;
      var prev := AddAll(k, obj, workplanes, locations, t, p);
      assert prev.1.Pass?;
      AddAppendsAt(k, obj, workplanes, locations, t, p, i);
      AddStepStages(k, obj, workplanes[p], locations[p], prev.0, p);
      var u := AddAll(k, obj, workplanes, locations, t, n).0;
      assert u == AddStep(k, obj, workplanes[p], locations[p], prev.0, p).0;
      if i == p {
        assert Staged(t, obj)[i] + [] == Staged(t, obj)[i];
        if locations[p] == [] {
          assert AddedAt(k, obj, workplanes[p], locations[p]) == [];
        }
      } else {
        assert Staged(u, obj)[i] == Staged(prev.0, obj)[i];
      }
    }
  }

  /** One step of the loop: a passing step appends the copies to the workplane's entry, which exists. */
  lemma AddStepStages(k: Kernel, obj: Shape, workplane: Plane, locs: seq<Location>, t: Tables, i: nat)
    requires AddStep(k, obj, workplane, locs, t, i).1.Pass?
    ensures locs != [] ==> i in Staged(t, obj)
    ensures var m := Staged(t, obj);
      Staged(AddStep(k, obj, workplane, locs, t, i).0, obj) ==
        if locs == [] then m else m[i := m[i] + AddedAt(k, obj, workplane, locs)]
  {
  }

  /**
    With the tables the constructor makes (one entry, for workplane 0), `add`
    after an appended workplane raises KeyError for that workplane, whose
    location list the append set to the identity.
  */
  lemma AddFailsOnAppendedWorkplane(k: Kernel, obj: Shape, workplanes: seq<Plane>,
                                    locations: map<nat, seq<Location>>, t: Tables)
    requires |workplanes| >= 2 && 0 in locations && 1 in locations && locations[1] == [Identity]
    requires t.faces.Keys == {0} && t.edges.Keys == {0}
    ensures AddAll(k, obj, workplanes, locations, t, 2).1 == Fail(KeyError(1))
  {
    AddKeepsOtherTable(k, obj, workplanes, locations, t, 1);
    var prev := AddAll(k, obj, workplanes, locations, t, 1);
    assert AddAll(k, obj, workplanes, locations, t, 0) == (t, Pass);
    assert prev.1 == Pass;
    assert 1 !in Staged(prev.0, obj);
  }

  /** `Solid.extrudeLinear(face, direction, 0)`. */
  function Extruded(k: Kernel, face: Shape, direction: Vec): Shape {
    Shape(Solid, k.extrudeLinear(face, direction))
  }

  /** Lines 411-426: one solid per pending face along `up`, followed by one along `-up` when `both`. */
  function ExtrudedSolids(k: Kernel, up: Vec, faces: seq<Shape>, both: bool): (r: seq<Shape>)
    ensures forall s :: s in r ==> s.kind == Solid
    decreases |faces|
  {
    if faces == [] then []
    else
      var n := |faces| - 1;
      ExtrudedSolids(k, up, faces[..n], both) + [Extruded(k, faces[n], up)]
        + (if both then [Extruded(k, faces[n], ScaleVec(up, -1.0))] else [])
  }

  /** The extrusion builds one solid per face (two with `both`), in face order, the upward one first. */
  lemma {:induction false} ExtrudedSolidsCount(k: Kernel, up: Vec, faces: seq<Shape>, both: bool)
    ensures |ExtrudedSolids(k, up, faces, both)| == (if both then 2 * |faces| else |faces|)
    ensures !both ==> forall j :: 0 <= j < |faces| ==> ExtrudedSolids(k, up, faces, both)[j] == Extruded(k, faces[j], up)
    ensures both ==> forall j :: 0 <= j < |faces| ==>
      && ExtrudedSolids(k, up, faces, both)[2 * j] == Extruded(k, faces[j], up)
      && ExtrudedSolids(k, up, faces, both)[2 * j + 1] == Extruded(k, faces[j], ScaleVec(up, -1.0))
    decreases |faces|
  {
    if faces != [] {
      var n := |faces| - 1;
      ExtrudedSolidsCount(k, up, faces[..n], both);
      var prev := ExtrudedSolids(k, up, faces[..n], both);
      var all := ExtrudedSolids(k, up, faces, both);
      assert all[..|prev|] == prev;
      forall j | 0 <= j < n ensures faces[..n][j] == faces[j] {
      }
    }
  }

  /** Lines 446-464: the solids `revolve` builds on one workplane, about the axis given in its local frame. */
  function RevolvedOn(k: Kernel, workplane: Plane, faces: seq<Shape>, angle: real,
                      axisStart: Option<Vec>, axisEnd: Option<Vec>): seq<Shape> {
    var a := k.fromLocalPoint(workplane, if axisStart.None? then Origin else axisStart.value);
    var b := k.fromLocalPoint(workplane, if axisEnd.None? then Vec(0.0, 1.0, 0.0) else axisEnd.value);
    seq(|faces|, j requires 0 <= j < |faces| => Shape(Solid, k.revolve(faces[j], angle, a, b)))
  }

  /** The inner loop of lines 459-464, on one workplane. */
  method RevolveOnWorkplane(k: Kernel, workplane: Plane, faces: seq<Shape>, angle: real,
                            axisStart: Option<Vec>, axisEnd: Option<Vec>) returns (solids: seq<Shape>)
    ensures solids == RevolvedOn(k, workplane, faces, angle, axisStart, axisEnd)
  {
    var a := k.fromLocalPoint(workplane, if axisStart.None? then Origin else axisStart.value);
    var b := k.fromLocalPoint(workplane, if axisEnd.None? then Vec(0.0, 1.0, 0.0) else axisEnd.value);
    ghost var all := RevolvedOn(k, workplane, faces, angle, axisStart, axisEnd);
    solids := [];
    var j := 0;
    while j < |faces|
      invariant 0 <= j <= |faces|
      invariant solids == all[..j]
    {
      assert all[..j + 1] == all[..j] + [Shape(Solid, k.revolve(faces[j], angle, a, b))];
      solids := solids + [Shape(Solid, k.revolve(faces[j], angle, a, b))];
      j := j + 1;
    }
    assert all[..j] == all;
  }

  /** The solids `revolve` builds over the first `n` workplanes; a workplane without pending faces raises KeyError. */
  function RevolvedSolids(k: Kernel, workplanes: seq<Plane>, faces: map<nat, seq<Shape>>, angle: real,
                          axisStart: Option<Vec>, axisEnd: Option<Vec>, n: nat): (r: Result<seq<Shape>, Error>)
    requires n <= |workplanes|
    ensures r.Success? ==> forall s :: s in r.value ==> s.kind == Solid
    ensures r.Failure? ==> r.error.KeyError? && r.error.key < n && r.error.key !in faces
  {
    if n == 0 then Success([])
    else
      match RevolvedSolids(k, workplanes, faces, angle, axisStart, axisEnd, n - 1)
      case Failure(e) => Failure(e)
      case Success(prev) =>
        if n - 1 !in faces then Failure(KeyError(n - 1))
        else Success(prev + RevolvedOn(k, workplanes[n - 1], faces[n - 1], angle, axisStart, axisEnd))
  }

  /** Once a workplane raised, later workplanes change nothing. */
  lemma {:induction false} RevolvedSolidsFailureSticks(k: Kernel, workplanes: seq<Plane>, faces: map<nat, seq<Shape>>,
                                                       angle: real, axisStart: Option<Vec>, axisEnd: Option<Vec>,
                                                       m: nat, n: nat)
    requires m <= n <= |workplanes|
    requires RevolvedSolids(k, workplanes, faces, angle, axisStart, axisEnd, m).Failure?
    ensures RevolvedSolids(k, workplanes, faces, angle, axisStart, axisEnd, n)
         == RevolvedSolids(k, workplanes, faces, angle, axisStart, axisEnd, m)
    decreases n
  {
    if m < n {
      RevolvedSolidsFailureSticks(k, workplanes, faces, angle, axisStart, axisEnd, m, n - 1);
    }
  }

  /**
    With the constructor's tables, revolve builds one solid per pending face of
    the single workplane, and raises KeyError once a workplane was appended.
  */
  lemma RevolvedSolidsByWorkplanes(k: Kernel, workplanes: seq<Plane>, faces: map<nat, seq<Shape>>, angle: real,
                                   axisStart: Option<Vec>, axisEnd: Option<Vec>)
    requires faces.Keys == {0} && |workplanes| >= 1
    ensures |workplanes| == 1 ==>
      RevolvedSolids(k, workplanes, faces, angle, axisStart, axisEnd, 1) ==
      Success(RevolvedOn(k, workplanes[0], faces[0], angle, axisStart, axisEnd))
    ensures |workplanes| == 1 ==> |RevolvedOn(k, workplanes[0], faces[0], angle, axisStart, axisEnd)| == |faces[0]|
    ensures |workplanes| >= 2 ==> RevolvedSolids(k, workplanes, faces, angle, axisStart, axisEnd, 2) == Failure(KeyError(1))
  {
    assert RevolvedSolids(k, workplanes, faces, angle, axisStart, axisEnd, 0) == Success([]);
    assert [] + RevolvedOn(k, workplanes[0], faces[0], angle, axisStart, axisEnd)
        == RevolvedOn(k, workplanes[0], faces[0], angle, axisStart, axisEnd);
  }

  // place_solids

  /** `Solid.clean_op`: `clean()` when cleaning, otherwise the shape itself (lines 362-363). */
  function CleanOp(k: Kernel, s: Shape, clean: bool): Shape {
    if clean then k.clean(s) else s
  }

  /** Lines 375-390: the working solid after the merge. */
  function MergedSolid(k: Kernel, pre: Option<Shape>, newSolids: seq<Shape>, mode: Mode, clean: bool)
    : (r: Result<Option<Shape>, Error>)
    ensures r.Failure? <==> pre.None? && ((mode == Addition && newSolids == []) || mode == Subtraction || mode == Intersection)
    ensures mode == Construction ==> r == Success(pre)
    ensures r.Success? && mode != Construction ==> r.value.Some?
    ensures mode == Addition && pre.None? && |newSolids| == 1 ==> r == Success(Some(newSolids[0]))
  {
    match mode
    case Addition =>
      if pre.Some? then Success(Some(CleanOp(k, k.fuse(pre.value, newSolids), clean)))
      else if |newSolids| == 1 then Success(Some(newSolids[0]))
      else if newSolids == [] then Failure(IndexError)
      else
        var n := |newSolids| - 1;
        Success(Some(k.fuse(newSolids[n], newSolids[..n])))
    case Subtraction =>
      if pre.None? then Failure(ValueError("Nothing to subtract from"))
      else Success(Some(CleanOp(k, k.cut(pre.value, newSolids), clean)))
    case Intersection =>
      if pre.None? then Failure(ValueError("Nothing to intersect with"))
      else Success(Some(CleanOp(k, k.intersect(pre.value, newSolids), clean)))
    case Construction => Success(pre)
  }

  /**
    `place_solids` (lines 355-400) on values: the new working solid and
    `last_operation`, each of whose three entries holds what the solid gained.
    Reading the entities of a solid that is still None raises AttributeError.
  */
  function PlaceSolidsResult(k: Kernel, pre: Option<Shape>, last: map<CqObject, set<Shape>>, newSolids: seq<Shape>,
                             mode: Mode, clean: bool): (r: Result<(Shape, map<CqObject, set<Shape>>), Error>)
    ensures (mode == Subtraction || mode == Intersection) && pre.None? ==> r.Failure? && r.error.ValueError?
    ensures r.Failure? <==> pre.None? && (mode != Addition || newSolids == [])
    ensures mode == Addition && pre.None? && |newSolids| == 1 ==> r.Success? && r.value.0 == newSolids[0]
    ensures mode == Construction && pre.Some? ==> r.Success? && r.value.0 == pre.value
    ensures r.Success? ==> r.value.1.Keys == last.Keys + {CqEdge, CqFace, CqVertex}
    ensures r.Success? ==> forall w :: w in {CqEdge, CqFace, CqVertex} ==>
      forall x :: x in r.value.1[w] <==> x in EntitySet(k, w, Some(r.value.0)) && x !in EntitySet(k, w, pre)
  {
    match MergedSolid(k, pre, newSolids, mode, clean)
    case Failure(e) => Failure(e)
    case Success(post) =>
      if post.None? then Failure(AttributeError)
      else
        var s := post.value;
        Success((s, last[CqVertex := EntitySet(k, CqVertex, post) - EntitySet(k, CqVertex, pre)]
                        [CqEdge := EntitySet(k, CqEdge, post) - EntitySet(k, CqEdge, pre)]
                        [CqFace := EntitySet(k, CqFace, post) - EntitySet(k, CqFace, pre)]))
  }

  /**
    The caller's list after `place_solids`: line 380 pops its last solid when
    adding several solids to an empty builder.
  */
  function Popped(pre: Option<Shape>, newSolids: seq<Shape>, mode: Mode): seq<Shape> {
    if mode == Addition && pre.None? && |newSolids| >= 2 then newSolids[..|newSolids| - 1] else newSolids
  }

  /**
    Extruding one face with `both` into an empty builder builds two solids,
    yet the list left to return holds only the first: extrude's
    `new_solids[0] if len(new_solids) == 1 else new_solids` then yields a lone solid.
  */
  lemma PopLosesLastSolid(k: Kernel, up: Vec, face: Shape)
    ensures |ExtrudedSolids(k, up, [face], true)| == 2
    ensures Collapse(Popped(None, ExtrudedSolids(k, up, [face], true), Addition)) == One(Extruded(k, face, up))
  {
    assert [face][..0] == [];
    assert ExtrudedSolids(k, up, [face], true) == [Extruded(k, face, up), Extruded(k, face, ScaleVec(up, -1.0))];
  }

  /** The intended extrude returns every solid it built, in order. */
  lemma ExtrudeReturnsAllSolids(k: Kernel, up: Vec, faces: seq<Shape>, both: bool)
    ensures |Members(Collapse(ExtrudedSolids(k, up, faces, both)))| == (if both then 2 * |faces| else |faces|)
  {
    ExtrudedSolidsCount(k, up, faces, both);
  }

  /** The state and result after `place_solids` ran on `built` and the caller returned `returned`. */
  ghost predicate SolidsMerged(k: Kernel, preSolid: Option<Shape>, preLast: map<CqObject, set<Shape>>,
                               postSolid: Option<Shape>, postLast: map<CqObject, set<Shape>>,
                               built: seq<Shape>, mode: Mode, clean: bool, returned: seq<Shape>,
                               r: Result<OneOrMany<Shape>, Error>) {
    match PlaceSolidsResult(k, preSolid, preLast, built, mode, clean)
    case Success(v) => postSolid == Some(v.0) && postLast == v.1 && r == Success(Collapse(returned))
    case Failure(e) => postSolid == preSolid && postLast == preLast && r == Failure(e)
  }

  /** The solid builder: its working solid, workplanes and the per-workplane staging tables. */
  class Build3D {
    var workingSolid: Option<Shape>
    var workplanes: seq<Plane>
    var pendingFaces: map<nat, seq<Shape>>
    var pendingEdges: map<nat, seq<Shape>>
    var locations: map<nat, seq<Location>>
    var lastOperation: map<CqObject, set<Shape>>

    /**
      The staging tables keep the one entry the constructor gives them, there
      is always a workplane, and every workplane has a location list.
    */
    ghost predicate Valid()
      reads this
    {
      && |workplanes| >= 1
      && pendingFaces.Keys == {0}
      && pendingEdges.Keys == {0}
      && (forall i :: 0 <= i < |workplanes| ==> i in locations)
    }

    /** Lines 162-174; `workplane` defaults to the XY plane. */
    constructor(workplane: Plane)
      ensures Valid()
      ensures workingSolid == None && workplanes == [workplane]
      ensures pendingFaces == map[0 := []] && pendingEdges == map[0 := []] && locations == map[0 := []]
      ensures lastOperation == map[]
    {
      workingSolid := None;
      workplanes := [workplane];
      pendingFaces := map[0 := []];
      pendingEdges := map[0 := []];
      locations := map[0 := []];
      lastOperation := map[];
    }

    /** Lines 183-190: every workplane's locations are extended by the same new ones. */
    method PushLocations(pts: seq<PointOrLocation>) returns (r: OneOrMany<Location>)
      requires Valid()
      modifies this
      ensures Valid()
      ensures Members(r) == ToLocations(pts)
      ensures locations == (map j | j in old(locations) ::
        if j < |workplanes| then old(locations)[j] + ToLocations(pts) else old(locations)[j])
      ensures workplanes == old(workplanes) && workingSolid == old(workingSolid)
      ensures pendingFaces == old(pendingFaces) && pendingEdges == old(pendingEdges)
      ensures lastOperation == old(lastOperation)
    {
      var newLocations := ToLocations(pts);
      var i := 0;
      while i < |workplanes|
        invariant 0 <= i <= |workplanes|
        invariant locations.Keys == old(locations).Keys
        invariant locations == (map j | j in old(locations) ::
          if j < i then old(locations)[j] + newLocations else old(locations)[j])
        invariant workplanes == old(workplanes) && workingSolid == old(workingSolid)
        invariant pendingFaces == old(pendingFaces) && pendingEdges == old(pendingEdges)
        invariant lastOperation == old(lastOperation)
      {
        locations := locations[i := locations[i] + newLocations];
        i := i + 1;
      }
      r := Collapse(newLocations);
    }

    /** Lines 198-213: the staging of `obj` on workplane `i`. */
    method AddOnWorkplane(k: Kernel, obj: Shape, i: nat) returns (r: Outcome<Error>)
      requires i < |workplanes| && i in locations
      modifies this
      ensures workplanes == old(workplanes) && locations == old(locations)
      ensures (Tables(pendingFaces, pendingEdges), r)
           == AddStep(k, obj, workplanes[i], locations[i], Tables(old(pendingFaces), old(pendingEdges)), i)
      ensures workingSolid == old(workingSolid) && lastOperation == old(lastOperation)
    {
      var locs := locations[i];
      ghost var before := Tables(pendingFaces, pendingEdges);
      ghost var added := AddedAt(k, obj, workplanes[i], locs);
      var j := 0;
      while j < |locs|
        invariant 0 <= j <= |locs|
        invariant workplanes == old(workplanes) && locations == old(locations)
        invariant workingSolid == old(workingSolid) && lastOperation == old(lastOperation)
        invariant j == 0 ==> Tables(pendingFaces, pendingEdges) == before
        invariant j > 0 ==>
          i in Staged(before, obj) &&
          Tables(pendingFaces, pendingEdges) == Restaged(before, obj, Staged(before, obj)[i := Staged(before, obj)[i] + added[..j]])
      {
        var placed := Located(k, obj, k.compose(locs[j], k.planeLocation(workplanes[i])));
        assert added[j] == placed;
        assert added[..j + 1] == added[..j] + [placed];
        if obj.kind == Face {
          if i !in pendingFaces {
            return Fail(KeyError(i));
          }
          assert pendingFaces[i] + [placed] == before.faces[i] + added[..j + 1];
          pendingFaces := pendingFaces[i := pendingFaces[i] + [placed]];
        } else {
          if i !in pendingEdges {
            return Fail(KeyError(i));
          }
          assert pendingEdges[i] + [placed] == before.edges[i] + added[..j + 1];
          pendingEdges := pendingEdges[i := pendingEdges[i] + [placed]];
        }
        j := j + 1;
      }
      assert added[..j] == added;
      r := Pass;
    }

    /** Lines 192-225: `add(obj, mode)`; the mode is not used. */
    method Add(k: Kernel, obj: Shape, mode: Mode) returns (r: Outcome<Error>)
      requires Valid()
      modifies this
      ensures Valid()
      ensures (Tables(pendingFaces, pendingEdges), r)
           == AddAll(k, obj, workplanes, locations, Tables(old(pendingFaces), old(pendingEdges)), |workplanes|)
      ensures workplanes == old(workplanes) && locations == old(locations)
      ensures workingSolid == old(workingSolid) && lastOperation == old(lastOperation)
    {
      ghost var t0 := Tables(pendingFaces, pendingEdges);
      var i := 0;
      while i < |workplanes|
        invariant 0 <= i <= |workplanes|
        invariant workplanes == old(workplanes) && locations == old(locations)
        invariant workingSolid == old(workingSolid) && lastOperation == old(lastOperation)
        invariant AddAll(k, obj, workplanes, locations, t0, i) == (Tables(pendingFaces, pendingEdges), Pass)
      {
        var o := AddOnWorkplane(k, obj, i);
        if o.Fail? {
          AddAllFailureSticks(k, obj, workplanes, locations, t0, i + 1, |workplanes|);
          AddKeepsOtherTable(k, obj, workplanes, locations, t0, |workplanes|);
          return o;
        }
        i := i + 1;
      }
      AddKeepsOtherTable(k, obj, workplanes, locations, t0, |workplanes|);
      r := Pass;
    }

    /**
      Lines 227-233: replacing leaves the new plane as the only workplane;
      appending gives it the identity location and no staging-table entry.
    */
    method Workplane(workplane: Plane, replace: bool) returns (r: Plane)
      requires Valid()
      modifies this
      ensures Valid()
      ensures r == workplane
      ensures replace ==> workplanes == [workplane] && locations == old(locations)
      ensures !replace ==>
        workplanes == old(workplanes) + [workplane] && locations == old(locations)[|old(workplanes)| := [Identity]]
      ensures pendingFaces == old(pendingFaces) && pendingEdges == old(pendingEdges)
      ensures workingSolid == old(workingSolid) && lastOperation == old(lastOperation)
    {
      if replace {
        workplanes := [workplane];
      } else {
        workplanes := workplanes + [workplane];
        locations := locations[|workplanes| - 1 := [Identity]];
      }
      r := workplane;
    }

    /**
      Lines 243-353: `edges`, `faces` and `vertices`. An unsupported key raises
      ValueError (with the message the source uses for all three); otherwise the
      working solid's entities, unsorted or as a sorted permutation.
    */
    function Select(k: Kernel, which: CqObject, sortBy: SortBy, reverse: bool): (r: Result<seq<Shape>, Error>)
      reads this
      ensures OrderingOf(k, which, sortBy).Unsupported? <==>
        r == Failure(ValueError("Unable to sort edges by " + SortByName(sortBy)))
      ensures !OrderingOf(k, which, sortBy).Unsupported? && workingSolid.None? ==> r == Failure(AttributeError)
      ensures sortBy == NoSort && workingSolid.Some? ==> r == Success(EntitiesOf(k, which, workingSolid.value))
      ensures r.Success? ==> workingSolid.Some? && multiset(r.value) == multiset(EntitiesOf(k, which, workingSolid.value))
      ensures r.Success? && OrderingOf(k, which, sortBy).ByKey? ==>
        var key := OrderingOf(k, which, sortBy).key;
        forall i, j :: 0 <= i < j < |r.value| ==>
          if reverse then key(r.value[i]) >= key(r.value[j]) else key(r.value[i]) <= key(r.value[j])
    {
      match OrderingOf(k, which, sortBy)
      case Unsupported => Failure(ValueError("Unable to sort edges by " + SortByName(sortBy)))
      case Unsorted =>
        if workingSolid.None? then Failure(AttributeError) else Success(EntitiesOf(k, which, workingSolid.value))
      case ByKey(key) =>
        if workingSolid.None? then Failure(AttributeError) else 
          var sorted := Sort(EntitiesOf(k, which, workingSolid.value), Directed(key, reverse));
          assert forall i, j :: 0 <= i < j < |sorted| ==> Directed(key, reverse)(sorted[i]) <= Directed(key, reverse)(sorted[j]);
          Success(sorted)
    }

    /** `place_solids(new_solids, mode, clean)`; `remaining` is the caller's list afterwards. */
    method PlaceSolids(k: Kernel, newSolids: seq<Shape>, mode: Mode, clean: bool)
      returns (r: Outcome<Error>, remaining: seq<Shape>)
      modifies this
      ensures remaining == Popped(old(workingSolid), newSolids, mode)
      ensures match PlaceSolidsResult(k, old(workingSolid), old(lastOperation), newSolids, mode, clean)
        case Success(v) => r == Pass && workingSolid == Some(v.0) && lastOperation == v.1
        case Failure(e) => r == Fail(e) && workingSolid == old(workingSolid) && lastOperation == old(lastOperation)
      ensures workplanes == old(workplanes) && locations == old(locations)
      ensures pendingFaces == old(pendingFaces) && pendingEdges == old(pendingEdges)
    {
      remaining := newSolids;
      var beforeVertices := EntitySet(k, CqVertex, workingSolid);
      var beforeEdges := EntitySet(k, CqEdge, workingSolid);
      var beforeFaces := EntitySet(k, CqFace, workingSolid);
      match mode {
      case Addition =>
        if workingSolid.None? {
          if |newSolids| == 1 {
            workingSolid := Some(newSolids[0]);
          } else {
            if newSolids == [] {
              return Fail(IndexError), remaining;
            }
            var last := remaining[|remaining| - 1];
            remaining := remaining[..|remaining| - 1];
            workingSolid := Some(k.fuse(last, remaining));
          }
        } else {
          workingSolid := Some(CleanOp(k, k.fuse(workingSolid.value, newSolids), clean));
        }
      case Subtraction =>
        if workingSolid.None? {
          return Fail(ValueError("Nothing to subtract from")), remaining;
        }
        workingSolid := Some(CleanOp(k, k.cut(workingSolid.value, newSolids), clean));
      case Intersection =>
        if workingSolid.None? {
          return Fail(ValueError("Nothing to intersect with")), remaining;
        }
        workingSolid := Some(CleanOp(k, k.intersect(workingSolid.value, newSolids), clean));
      case Construction =>
      }
      if workingSolid.None? {
        return Fail(AttributeError), remaining;
      }
      lastOperation := lastOperation[CqVertex := EntitySet(k, CqVertex, workingSolid) - beforeVertices];
      lastOperation := lastOperation[CqEdge := EntitySet(k, CqEdge, workingSolid) - beforeEdges];
      lastOperation := lastOperation[CqFace := EntitySet(k, CqFace, workingSolid) - beforeFaces];
      r := Pass;
    }

    /** Lines 411-426: the solids of every pending face, built in face order. */
    method ExtrudeSolids(k: Kernel, until: real, both: bool) returns (built: seq<Shape>)
      requires Valid()
      ensures built == ExtrudedSolids(k, ScaleVec(workplanes[0].zDir, until), pendingFaces[0], both)
    {
      var faces := pendingFaces[0];
      var up := ScaleVec(workplanes[0].zDir, until);
      built := [];
      var i := 0;
      while i < |faces|
        invariant 0 <= i <= |faces|
        invariant built == ExtrudedSolids(k, up, faces[..i], both)
      {
        assert faces[..i + 1][..i] == faces[..i];
        built := built + [Extruded(k, faces[i], up)];
        if both {
          built := built + [Extruded(k, faces[i], ScaleVec(up, -1.0))];
        }
        i := i + 1;
      }
      assert faces[..i] == faces;
    }

    /**
      `extrude` as the source writes it (lines 402-430): it returns the list
      `place_solids` may have popped. The staging table has the one key 0, so
      the loop over its items visits the pending faces of workplane 0.
    */
    method ExtrudeAsWritten(k: Kernel, until: real, both: bool, mode: Mode, clean: bool)
      returns (r: Result<OneOrMany<Shape>, Error>)
      requires Valid()
      modifies this
      ensures Valid()
      ensures var built := ExtrudedSolids(k, ScaleVec(old(workplanes)[0].zDir, until), old(pendingFaces)[0], both);
        SolidsMerged(k, old(workingSolid), old(lastOperation), workingSolid, lastOperation, built, mode, clean,
                     Popped(old(workingSolid), built, mode), r)
      ensures workplanes == old(workplanes) && locations == old(locations)
      ensures pendingFaces == old(pendingFaces) && pendingEdges == old(pendingEdges)
    {
      var built := ExtrudeSolids(k, until, both);
      var o, remaining := PlaceSolids(k, built, mode, clean);
      if o.Fail? {
        return Failure(o.error);
      }
      r := Success(Collapse(remaining));
    }

    /** `extrude` returning every solid it built, as evidently intended. */
    method Extrude(k: Kernel, until: real, both: bool, mode: Mode, clean: bool)
      returns (r: Result<OneOrMany<Shape>, Error>)
      requires Valid()
      modifies this
      ensures Valid()
      ensures var built := ExtrudedSolids(k, ScaleVec(old(workplanes)[0].zDir, until), old(pendingFaces)[0], both);
        SolidsMerged(k, old(workingSolid), old(lastOperation), workingSolid, lastOperation, built, mode, clean, built, r)
      ensures workplanes == old(workplanes) && locations == old(locations)
      ensures pendingFaces == old(pendingFaces) && pendingEdges == old(pendingEdges)
    {
      var built := ExtrudeSolids(k, until, both);
      var o, _ := PlaceSolids(k, built, mode, clean);
      if o.Fail? {
        return Failure(o.error);
      }
      r := Success(Collapse(built));
    }

    /** Lines 445-464: the revolved solids of every workplane's pending faces. */
    method RevolveSolids(k: Kernel, angle: real, axisStart: Option<Vec>, axisEnd: Option<Vec>)
      returns (built: Result<seq<Shape>, Error>)
      ensures built == RevolvedSolids(k, workplanes, pendingFaces, angle, axisStart, axisEnd, |workplanes|)
    {
      var planes, faces := workplanes, pendingFaces;
      var solids := [];
      var i := 0;
      while i < |planes|
        invariant 0 <= i <= |planes|
        invariant RevolvedSolids(k, planes, faces, angle, axisStart, axisEnd, i) == Success(solids)
      {
        if i !in faces {
          assert RevolvedSolids(k, planes, faces, angle, axisStart, axisEnd, i + 1) == Failure(KeyError(i));
          RevolvedSolidsFailureSticks(k, planes, faces, angle, axisStart, axisEnd, i + 1, |planes|);
          return Failure(KeyError(i));
        }
        var onPlane := RevolveOnWorkplane(k, planes[i], faces[i], angle, axisStart, axisEnd);
        assert RevolvedSolids(k, planes, faces, angle, axisStart, axisEnd, i + 1) == Success(solids + onPlane);
        solids := solids + onPlane;
        i := i + 1;
      }
      built := Success(solids);
    }

    /** `revolve` as the source writes it (lines 432-468): it returns the list `place_solids` may have popped. */
    method RevolveAsWritten(k: Kernel, angleDegrees: real, axisStart: Option<Vec>, axisEnd: Option<Vec>,
                            mode: Mode, clean: bool)
      returns (r: Result<OneOrMany<Shape>, Error>)
      modifies this
      ensures match RevolvedSolids(k, old(workplanes), old(pendingFaces), RevolveAngle(angleDegrees), axisStart, axisEnd,
                                   |old(workplanes)|)
        case Failure(e) => r == Failure(e) && workingSolid == old(workingSolid) && lastOperation == old(lastOperation)
        case Success(built) =>
          SolidsMerged(k, old(workingSolid), old(lastOperation), workingSolid, lastOperation, built, mode, clean,
                       Popped(old(workingSolid), built, mode), r)
      ensures workplanes == old(workplanes) && locations == old(locations)
      ensures pendingFaces == old(pendingFaces) && pendingEdges == old(pendingEdges)
    {
      var angle := RevolveAngle(angleDegrees);
      var built := RevolveSolids(k, angle, axisStart, axisEnd);
      if built.Failure? {
        return Failure(built.error);
      }
      var o, remaining := PlaceSolids(k, built.value, mode, clean);
      if o.Fail? {
        return Failure(o.error);
      }
      r := Success(Collapse(remaining));
    }

    /** `revolve` returning every solid it built, as evidently intended. */
    method Revolve(k: Kernel, angleDegrees: real, axisStart: Option<Vec>, axisEnd: Option<Vec>, mode: Mode, clean: bool)
      returns (r: Result<OneOrMany<Shape>, Error>)
      modifies this
      ensures match RevolvedSolids(k, old(workplanes), old(pendingFaces), RevolveAngle(angleDegrees), axisStart, axisEnd,
                                   |old(workplanes)|)
        case Failure(e) => r == Failure(e) && workingSolid == old(workingSolid) && lastOperation == old(lastOperation)
        case Success(built) =>
          SolidsMerged(k, old(workingSolid), old(lastOperation), workingSolid, lastOperation, built, mode, clean, built, r)
      ensures workplanes == old(workplanes) && locations == old(locations)
      ensures pendingFaces == old(pendingFaces) && pendingEdges == old(pendingEdges)
    {
      var angle := RevolveAngle(angleDegrees);
      var built := RevolveSolids(k, angle, axisStart, axisEnd);
      if built.Failure? {
        return Failure(built.error);
      }
      var o, _ := PlaceSolids(k, built.value, mode, clean);
      if o.Fail? {
        return Failure(o.error);
      }
      r := Success(Collapse(built.value));
    }
  }

  // Build2D

  /** Line 560-561: the pushed locations, or the identity when none were pushed. */
  function ActiveLocations(locations: seq<Location>): (r: seq<Location>)
    ensures |r| >= 1
    ensures locations != [] ==> r == locations
    ensures locations == [] ==> r == [Identity]
  {
    if locations == [] then [Identity] else locations
  }

  /** Line 562: one located copy of the face per active location. */
  function LocatedCopies(k: Kernel, face: Shape, locations: seq<Location>): seq<Shape> {
    seq(|locations|, i requires 0 <= i < |locations| => Located(k, face, locations[i]))
  }

  /** Lines 564-573: the working surface after the new faces are combined into it. */
  function CombinedSurface(k: Kernel, surface: Shape, faces: seq<Shape>, mode: ModeArg): Result<Shape, Error> {
    match mode
    case Given(Addition) => Success(k.clean(k.fuse(surface, faces)))
    case Given(Subtraction) => Success(k.clean(k.cut(surface, faces)))
    case Given(Intersection) => Success(k.clean(k.intersect(surface, faces)))
    case Given(Construction) => Success(surface)
    case Other(text) => Failure(ValueError("Invalid mode: " + text))
  }

  /** Only an argument that is not a mode makes the combination fail, and construction leaves the surface alone. */
  lemma CombinedSurfaceFailsOnlyOnOtherModes(k: Kernel, surface: Shape, faces: seq<Shape>, mode: ModeArg)
    ensures CombinedSurface(k, surface, faces, mode).Failure? <==> mode.Other?
    ensures mode == Given(Construction) ==> CombinedSurface(k, surface, faces, mode) == Success(surface)
  {
  }

  /** The face builder: its working surface and the locations pushed since the last placement. */
  class Build2D {
    var workingSurface: Shape
    var pendingEdges: seq<Shape>
    var locations: seq<Location>
    /** The mode this builder hands to its parent on exit. */
    const mode: Mode

    /** Lines 489-495: the working surface starts as the empty compound. */
    constructor(k: Kernel, mode: Mode)
      ensures workingSurface == MakeCompound(k, []) && pendingEdges == [] && locations == []
      ensures this.mode == mode
    {
      workingSurface := MakeCompound(k, []);
      pendingEdges := [];
      locations := [];
      this.mode := mode;
    }

    /** Lines 509-514. */
    method PushLocations(pts: seq<PointOrLocation>) returns (r: seq<Location>)
      modifies this
      ensures r == ToLocations(pts) && locations == old(locations) + r
      ensures workingSurface == old(workingSurface) && pendingEdges == old(pendingEdges)
    {
      r := ToLocations(pts);
      locations := locations + r;
    }

    /**
      Lines 558-576: one located face per pushed location (one at the identity
      when none were pushed), combined into the working surface; the locations
      are used up. A value that is not a mode raises ValueError after the
      identity default was stored.
    */
    method PlaceFace(k: Kernel, face: Shape, mode: ModeArg) returns (r: Result<seq<Shape>, Error>)
      modifies this
      ensures var faces := LocatedCopies(k, face, ActiveLocations(old(locations)));
        match CombinedSurface(k, old(workingSurface), faces, mode)
        case Success(s) => r == Success(faces) && workingSurface == s && locations == []
        case Failure(e) => r == Failure(e) && workingSurface == old(workingSurface) && locations == ActiveLocations(old(locations))
      ensures r.Success? ==> |r.value| == |ActiveLocations(old(locations))|
      ensures pendingEdges == old(pendingEdges)
    {
      if locations == [] {
        locations := [Identity];
      }
      var newFaces := LocatedCopies(k, face, locations);
      var s := CombinedSurface(k, workingSurface, newFaces, mode);
      if s.Failure? {
        return Failure(s.error);
      }
      workingSurface := s.value;
      locations := [];
      r := Success(newFaces);
    }

    /** Lines 505-507: the placed faces, a single one alone. */
    method Add(k: Kernel, f: Shape, mode: ModeArg) returns (r: Result<OneOrMany<Shape>, Error>)
      modifies this
      ensures var faces := LocatedCopies(k, f, ActiveLocations(old(locations)));
        match CombinedSurface(k, old(workingSurface), faces, mode)
        case Success(s) => r == Success(Collapse(faces)) && workingSurface == s && locations == []
        case Failure(e) => r == Failure(e) && workingSurface == old(workingSurface) && locations == ActiveLocations(old(locations))
      ensures pendingEdges == old(pendingEdges)
    {
      var placed := PlaceFace(k, f, mode);
      if placed.Failure? {
        return Failure(placed.error);
      }
      r := Success(Collapse(placed.value));
    }

    /** Lines 530-545: a width by height plane face rotated about z by `angle`. */
    method Rect(k: Kernel, width: real, height: real, angle: real, mode: ModeArg) returns (r: Result<OneOrMany<Shape>, Error>)
      modifies this
      ensures var faces := LocatedCopies(k, RotatedZ(k, Shape(Face, k.planeFace(height, width)), angle),
                                         ActiveLocations(old(locations)));
        match CombinedSurface(k, old(workingSurface), faces, mode)
        case Success(s) => r == Success(Collapse(faces)) && workingSurface == s && locations == []
        case Failure(e) => r == Failure(e) && workingSurface == old(workingSurface) && locations == ActiveLocations(old(locations))
      ensures pendingEdges == old(pendingEdges)
    {
      r := Add(k, RotatedZ(k, Shape(Face, k.planeFace(height, width)), angle), mode);
    }

    /** Lines 547-556: a circular face about the z axis. */
    method Circle(k: Kernel, radius: real, mode: ModeArg) returns (r: Result<OneOrMany<Shape>, Error>)
      modifies this
      ensures var faces := LocatedCopies(k, FaceFromWire(k, Shape(Wire, k.circleWire(radius))),
                                         ActiveLocations(old(locations)));
        match CombinedSurface(k, old(workingSurface), faces, mode)
        case Success(s) => r == Success(Collapse(faces)) && workingSurface == s && locations == []
        case Failure(e) => r == Failure(e) && workingSurface == old(workingSurface) && locations == ActiveLocations(old(locations))
      ensures pendingEdges == old(pendingEdges)
    {
      r := Add(k, FaceFromWire(k, Shape(Wire, k.circleWire(radius))), mode);
    }
  }

  // Build1D

  function DigitChar(d: nat): char
    requires d < 10
  {
    "0123456789"[d]
  }

  /** Python's decimal `str` of a natural number. */
  function NatToString(n: nat): (s: string)
    ensures |s| >= 1
    decreases n
  {
    if n < 10 then [DigitChar(n)] else NatToString(n / 10) + [DigitChar(n % 10)]
  }

  /** Distinct numbers have distinct decimal forms. */
  lemma {:induction false} NatToStringInjective(a: nat, b: nat)
    requires NatToString(a) == NatToString(b)
    ensures a == b
    decreases a
  {
    var sa, sb := NatToString(a), NatToString(b);
    if a < 10 && b < 10 {
      assert "0123456789"[a] == sa[0] == sb[0] == "0123456789"[b];
    } else if a < 10 || b < 10 {
      assert false;
    } else {
      var pa, pb := NatToString(a / 10), NatToString(b / 10);
      assert sa == pa + [DigitChar(a % 10)] && sb == pb + [DigitChar(b % 10)];
      assert |pa| == |pb|;
      assert pa == sa[..|sa| - 1] == sb[..|sb| - 1] == pb;
      assert "0123456789"[a % 10] == sa[|sa| - 1] == sb[|sb| - 1] == "0123456789"[b % 10];
      NatToStringInjective(a / 10, b / 10);
    }
  }

  /** `f"{tag}-{i}"`. */
  function TagKey(tag: string, i: nat): string {
    tag + "-" + NatToString(i)
  }

  lemma TagKeyInjective(tag: string, i: nat, j: nat)
    requires TagKey(tag, i) == TagKey(tag, j)
    ensures i == j
  {
    assert NatToString(i) == TagKey(tag, i)[|tag| + 1..];
    assert NatToString(j) == TagKey(tag, j)[|tag| + 1..];
    NatToStringInjective(i, j);
  }

  /** The tag table after the first `n` edges were recorded under `tag-0`, `tag-1`, ... (lines 630-631). */
  function TaggedUpTo(tags: map<string, Shape>, tag: string, edges: seq<Shape>, n: nat): map<string, Shape>
    requires n <= |edges|
  {
    if n == 0 then tags else TaggedUpTo(tags, tag, edges, n - 1)[TagKey(tag, n - 1) := edges[n - 1]]
  }

  /** Each numbered key names its own edge, and every other key keeps its entry. */
  lemma {:induction false} TaggedUpToRecordsEachEdge(tags: map<string, Shape>, tag: string, edges: seq<Shape>, n: nat)
    requires n <= |edges|
    ensures forall i :: 0 <= i < n ==>
      TagKey(tag, i) in TaggedUpTo(tags, tag, edges, n) && TaggedUpTo(tags, tag, edges, n)[TagKey(tag, i)] == edges[i]
    ensures forall key :: key in TaggedUpTo(tags, tag, edges, n) <==>
      key in tags || exists i :: 0 <= i < n && key == TagKey(tag, i)
    ensures forall key :: key in tags && (forall i :: 0 <= i < n ==> key != TagKey(tag, i)) ==>
      TaggedUpTo(tags, tag, edges, n)[key] == tags[key]
    decreases n
  {
    if n > 0 {
      TaggedUpToRecordsEachEdge(tags, tag, edges, n - 1);
      forall i | 0 <= i < n - 1 ensures TagKey(tag, i) != TagKey(tag, n - 1) {
        if TagKey(tag, i) == TagKey(tag, n - 1) {
          TagKeyInjective(tag, i, n - 1);
        }
      }
    }
  }

  /** `if tag:` (line 628): a tag is used when given and not empty. */
  predicate Tagged(tag: Option<string>) {
    tag.Some? && tag.value != []
  }

  /** Lines 615-618: one line per pair of consecutive points. */
  function Segments(k: Kernel, pts: seq<Vec>): seq<Shape>
    requires |pts| >= 1
  {
    seq(|pts| - 1, i requires 0 <= i < |pts| - 1 => MakeLine(k, pts[i], pts[i + 1]))
  }

  /** The line builder: its edges and the edges named by tags. */
  class Build1D {
    var edgeList: seq<Shape>
    var tags: map<string, Shape>
    /** The mode this builder hands to its parent on exit. */
    const mode: Mode

    /** Lines 580-584. */
    constructor(mode: Mode)
      ensures edgeList == [] && tags == map[] && this.mode == mode
    {
      edgeList := [];
      tags := map[];
      this.mode := mode;
    }

    /** Lines 595-596. */
    function Edges(): seq<Shape>
      reads this
    {
      edgeList
    }

    /** Lines 598-602: the distinct vertices of all edges. */
    method Vertices(k: Kernel) returns (r: set<Shape>)
      ensures forall v :: v in r <==> exists i :: 0 <= i < |Edges()| && v in k.vertices(Edges()[i])
    {
      r := {};
      var i := 0;
      while i < |edgeList|
        invariant 0 <= i <= |edgeList|
        invariant forall v :: v in r <==> exists j :: 0 <= j < i && v in k.vertices(edgeList[j])
      {
        r := r + Elems(k.vertices(edgeList[i]));
        i := i + 1;
      }
      assert Edges() == edgeList;
    }

    /**
      Lines 604-635: the lines between consecutive points join the edge list;
      a single line is returned alone, several as one assembled wire. With a
      tag, several lines are recorded as `tag-0`, `tag-1`, ... and a single one
      as `tag`.
    */
    method Polyline(k: Kernel, pts: seq<Vec>, mode: Mode, tag: Option<string>) returns (r: Result<Shape, Error>)
      modifies this
      ensures |pts| < 2 ==>
        r == Failure(ValueError("polyline requires two or more pts")) && edgeList == old(edgeList) && tags == old(tags)
      ensures |pts| >= 2 ==>
        var lines := Segments(k, pts);
        && edgeList == old(edgeList) + lines
        && r == Success(if |lines| == 1 then lines[0] else AssembleEdges(k, lines))
        && tags == (if !Tagged(tag) then old(tags)
                    else if |lines| > 1 then TaggedUpTo(old(tags), tag.value, lines, |lines|)
                    else old(tags)[tag.value := lines[0]])
    {
      if |pts| < 2 {
        return Failure(ValueError("polyline requires two or more pts"));
      }
      var newEdges := Segments(k, pts);
      edgeList := edgeList + newEdges;
      r := Success(if |newEdges| == 1 then newEdges[0] else AssembleEdges(k, newEdges));
      if Tagged(tag) {
        if |newEdges| > 1 {
          var i := 0;
          while i < |newEdges|
            invariant 0 <= i <= |newEdges|
            invariant tags == TaggedUpTo(old(tags), tag.value, newEdges, i)
            invariant edgeList == old(edgeList) + newEdges
          {
            tags := tags[TagKey(tag.value, i) := newEdges[i]];
            i := i + 1;
          }
        } else {
          tags := tags[tag.value := newEdges[0]];
        }
      }
    }
  }

  /** `n` points give `n - 1` lines, each joining a point to the next. */
  lemma SegmentsJoinConsecutivePoints(k: Kernel, pts: seq<Vec>)
    requires |pts| >= 2
    ensures |Segments(k, pts)| == |pts| - 1
    ensures forall i :: 0 <= i < |pts| - 1 ==> Segments(k, pts)[i] == MakeLine(k, pts[i], pts[i + 1])
  {
  }
}
