/**
 Relative and absolute path fragments, with the one operation the input
 mapping engine relies on: `getRelative`.
 */
module Paths {

  /** A path as a list of segments; `absolute` says whether it starts at the root. */
  datatype PathFragment = PathFragment(absolute: bool, segments: seq<string>) {

    /** True iff `prefix` is a leading part of this path (same anchoring, prefix segments). */
    predicate StartsWith(prefix: PathFragment) {
      absolute == prefix.absolute && prefix.segments <= segments
    }

    /**
     Resolves `other` against this path: an absolute `other` replaces this
     path, a relative one is appended to it.
     */
    function GetRelative(other: PathFragment): (r: PathFragment)
      ensures other.absolute ==> r == other
      ensures !other.absolute ==> r.StartsWith(this) && r.segments[|segments|..] == other.segments
      ensures r.absolute <==> absolute || other.absolute
    {
      if other.absolute then other else PathFragment(absolute, segments + other.segments)
    }
  }

  /** Appending distinct relative paths to the same base gives distinct paths. */
  lemma GetRelativeInjective(base: PathFragment, x: PathFragment, y: PathFragment)
    requires !x.absolute && !y.absolute
    requires base.GetRelative(x) == base.GetRelative(y)
    ensures x == y
  {
    var joinedX := base.GetRelative(x).segments;
    var joinedY := base.GetRelative(y).segments;
    assert x.segments == joinedX[|base.segments|..];
    assert y.segments == joinedY[|base.segments|..];
  }
}
