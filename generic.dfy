/**
  The generic objects and operations of build_generic.py: Add, BoundingBox,
  Chamfer, Fillet, Mirror, Offset, Scale and Split.

  Each of them reads the active builder, builds new shapes with the kernel and
  hands them to the builder through `_add_to_pending`, `_add_to_context` and an
  assignment to `locations`. The active builder and the active locations live
  in build_common, which is not part of this model; they are the `Context`
  argument here. An operation is modelled by the calls it makes on the builder,
  in order, and the compound it becomes: what a builder does with a call is the
  builder's own business (sketch.dfy models BuildSketch's).
*/
module Generic {
  import opened Wrappers
  import opened Geometry
  import opened BuildCommon

  /** The class of the active builder. */
  datatype Variant = BuildPart | BuildLine | BuildSketch | OtherBuilder(className: string)

  /** `context.__class__.__name__`. */
  function ClassName(v: Variant): string {
    match v
    case BuildPart => "BuildPart"
    case BuildLine => "BuildLine"
    case BuildSketch => "BuildSketch"
    case OtherBuilder(name) => name
  }

  /**
    What an operation sees of the active builder: its class, its object
    (`context._obj`, which is `context.part` in BuildPart, and None while the
    builder holds nothing), its faces (`context.faces()`) and the active
    locations.
  */
  datatype Context = Context(variant: Variant, obj: Option<Shape>, faces: seq<Shape>, locations: seq<Location>)

  /** A call an operation makes on the active builder. */
  datatype Call =
    | AddToPending(objects: seq<Shape>)
    | AddToContext(objects: seq<Shape>, mode: Mode)
    | ResetLocations

  /** The calls an operation makes, in order, and the compound it becomes. */
  datatype Effect = Effect(calls: seq<Call>, result: Shape)

  /** The RuntimeError an operation raises inside a builder it does not support. */
  function Unsupported(operation: string, v: Variant): Error {
    RuntimeError(operation + " does not support builder " + ClassName(v))
  }

  /** No objects are given and the builder holds none: `[context._obj]` is `[None]`. */
  predicate NoInput(ctx: Context, objects: seq<Shape>) {
    objects == [] && ctx.obj.None?
  }

  /**
    The shapes among the inputs after `if not objects: objects = [context._obj]`:
    the given objects, else the builder's object when it has one, else none
    (the operation then meets a lone None, see `NoInput`).
  */
  function Inputs(ctx: Context, objects: seq<Shape>): (r: seq<Shape>)
    ensures objects != [] ==> r == objects
    ensures objects == [] && ctx.obj.Some? ==> r == [ctx.obj.value]
    ensures r == [] <==> NoInput(ctx, objects)
  {
    if objects != [] then objects
    else if ctx.obj.Some? then [ctx.obj.value]
    else []
  }

  /** `[v for v in xs if v in pool]`: the members of `xs` that `pool` holds, in the order of `xs`. */
  function Among(xs: seq<Shape>, pool: seq<Shape>): seq<Shape>
    decreases |xs|
  {
    if xs == [] then []
    else
      var n := |xs| - 1;
      Among(xs[..n], pool) + (if xs[n] in pool then [xs[n]] else [])
  }

  /** The filter keeps exactly the shared members. */
  lemma {:induction false} AmongMembers(xs: seq<Shape>, pool: seq<Shape>)
    ensures forall x :: x in Among(xs, pool) <==> x in xs && x in pool
    ensures |Among(xs, pool)| <= |xs|
    decreases |xs|
  {
    if xs != [] {
      var n := |xs| - 1;
      AmongMembers(xs[..n], pool);
      assert xs == xs[..n] + [xs[n]];
    }
  }
}
