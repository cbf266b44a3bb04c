/**
  The enumerations the build123d builders share. Their definitions live in
  build_common, which is not part of this model; the members below are the
  ones the builders and generic operations use.
*/
module BuildCommon {

  /** Combination mode: how new geometry is merged into a builder's object. */
  datatype Mode = Add | Subtract | Intersect | Replace | Construction | Private

  /** Which side of a bisecting plane `Split` keeps. */
  datatype Keep = Top | Bottom | Both

  /** Transition kind of an offset. */
  datatype Kind = Arc | Intersection | Tangent

  /** `kind.name.lower()`: the name the kernel's offset functions take. */
  function KindName(kind: Kind): string {
    match kind
    case Arc => "arc"
    case Intersection => "intersection"
    case Tangent => "tangent"
  }
}
