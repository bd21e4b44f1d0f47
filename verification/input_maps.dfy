/**
 The input table the engine fills, the single write primitive `AddMapping`,
 and the fold that every loop of the engine is an instance of, with the
 generic facts about it: a fold's writes do not depend on what the table
 already held ("frame"), it succeeds exactly when each step would, and it
 keeps every key starting with the base directory.
 */
module InputMaps {
  import opened Results
  import opened Paths
  import opened Actions

  /** Base-directory-relative destination -> input. */
  type InputMap = map<PathFragment, Input>

  /** The exceptions the engine can end with. */
  datatype ExpansionError =
    | AbsoluteTargetLocation(target: PathFragment)
    | AbsoluteRunfilesRoot(root: PathFragment)
    | MissingFilesetExpansion(fileset: Artifact)
    | NotAFileset(artifact: Artifact)
    | ForbiddenNonFile(input: Artifact)
    | ForbiddenRelativeSymlink(message: string)
  {
    /**
     Failed precondition checks and a missing fileset expansion are internal
     consistency failures (unchecked exceptions); the other two are errors in
     the action's inputs that the user can fix.
     */
    predicate IsInternal() {
      AbsoluteTargetLocation? || AbsoluteRunfilesRoot? || MissingFilesetExpansion? || NotAFileset?
    }
  }

  type MapResult = Result<InputMap, ExpansionError>

  /** `after` is `before` with exactly one key written to `input`. */
  ghost predicate WritesOnly(before: InputMap, after: InputMap, key: PathFragment, input: Input) {
    && after.Keys == before.Keys + {key}
    && after[key] == input
    && forall k :: k in before && k != key ==> after[k] == before[k]
  }

  /** Every key of the table lies below `base`. */
  ghost predicate AllUnder(m: InputMap, base: PathFragment) {
    forall k :: k in m ==> k.StartsWith(base)
  }

  /**
   The only write primitive: rejects an absolute target location, and
   otherwise stores `input` at the base directory joined with the target.
   */
  function AddMapping(
    inputMap: InputMap, targetLocation: PathFragment, input: Input, baseDirectory: PathFragment
  ): (r: MapResult)
    ensures r.Failure? <==> targetLocation.absolute
    ensures r.Failure? ==> r.error == AbsoluteTargetLocation(targetLocation)
    ensures r.Success? ==>
      var key := baseDirectory.GetRelative(targetLocation);
      key.StartsWith(baseDirectory) && WritesOnly(inputMap, r.value, key, input)
  {
    if targetLocation.absolute then
      Failure(AbsoluteTargetLocation(targetLocation))
    else
      Success(inputMap[baseDirectory.GetRelative(targetLocation) := input])
  }

  /** Writes a table of new entries over `inputMap`; a later entry wins. Errors pass through. */
  function Overlay(inputMap: InputMap, r: MapResult): MapResult {
    match r
    case Success(t) => Success(inputMap + t)
    case Failure(e) => Failure(e)
  }

  /** Applies `step` to each element in order, stopping at the first failure. */
  function Fold<X>(inputMap: InputMap, xs: seq<X>, step: (InputMap, X) -> MapResult): MapResult
    decreases |xs|
  {
    if |xs| == 0 then
      Success(inputMap)
    else
      var next :- step(inputMap, xs[0]);
      Fold(next, xs[1..], step)
  }

  /** A step whose outcome on a table is its outcome on the empty table written over it. */
  ghost predicate Framed<X(!new)>(step: (InputMap, X) -> MapResult) {
    forall m: InputMap, x: X :: step(m, x) == Overlay(m, step(map[], x))
  }

  /** A step that, from the empty table, only writes keys below `base`. */
  ghost predicate WritesUnder<X(!new)>(step: (InputMap, X) -> MapResult, base: PathFragment) {
    forall x: X :: step(map[], x).Success? ==> AllUnder(step(map[], x).value, base)
  }

  /** The step "write `input(x)` at `target(x)`", used by every loop that only adds mappings. */
  function WriteStep<X>(target: X -> PathFragment, input: X -> Input, base: PathFragment): (InputMap, X) -> MapResult {
    (m: InputMap, x: X) => AddMapping(m, target(x), input(x), base)
  }

  /** A loop that calls `AddMapping` once per element. */
  function WriteAll<X>(
    inputMap: InputMap, xs: seq<X>, target: X -> PathFragment, input: X -> Input, base: PathFragment
  ): MapResult {
    Fold(inputMap, xs, WriteStep(target, input, base))
  }

  /** The keys such a loop writes. */
  ghost function Destinations<X>(xs: seq<X>, target: X -> PathFragment, base: PathFragment): set<PathFragment> {
    set x | x in xs :: base.GetRelative(target(x))
  }

  /** Elements sent to the same target carry the same input. */
  ghost predicate Consistent<X>(xs: seq<X>, target: X -> PathFragment, input: X -> Input) {
    forall i, j :: 0 <= i < |xs| && 0 <= j < |xs| && target(xs[i]) == target(xs[j]) ==> input(xs[i]) == input(xs[j])
  }

  lemma OverlayAssociative(m: InputMap, a: InputMap, r: MapResult)
    ensures Overlay(m, Overlay(a, r)) == Overlay(m + a, r)
  {
    if r.Success? {
      assert m + (a + r.value) == (m + a) + r.value;
    }
  }

  lemma AddMappingFrame(m: InputMap, target: PathFragment, input: Input, base: PathFragment)
    ensures AddMapping(m, target, input, base) == Overlay(m, AddMapping(map[], target, input, base))
  {
    if !target.absolute {
      var key := base.GetRelative(target);
      assert m[key := input] == m + map[key := input];
    }
  }

  lemma WriteStepFramed<X(!new)>(target: X -> PathFragment, input: X -> Input, base: PathFragment)
    ensures Framed(WriteStep(target, input, base))
  {
    forall m: InputMap, x: X
      ensures WriteStep(target, input, base)(m, x) == Overlay(m, WriteStep(target, input, base)(map[], x))
    {
      AddMappingFrame(m, target(x), input(x), base);
    }
  }

  lemma WriteStepUnder<X(!new)>(target: X -> PathFragment, input: X -> Input, base: PathFragment)
    ensures WritesUnder(WriteStep(target, input, base), base)
  {
  }

  /** A framed fold writes the same entries over any starting table. */
  lemma {:induction false} FoldFrame<X(!new)>(m: InputMap, xs: seq<X>, step: (InputMap, X) -> MapResult)
    requires Framed(step)
    ensures Fold(m, xs, step) == Overlay(m, Fold(map[], xs, step))
    decreases |xs|
  {
    if |xs| > 0 {
      var first := step(map[], xs[0]);
      assert step(m, xs[0]) == Overlay(m, first);
      if first.Failure? {
        assert Fold(m, xs, step) == Failure(first.error);
        assert Fold(map[], xs, step) == Failure(first.error);
      } else {
        var rest := Fold(map[], xs[1..], step);
        assert Fold(m, xs, step) == Fold(m + first.value, xs[1..], step);
        assert Fold(map[], xs, step) == Fold(first.value, xs[1..], step);
        FoldFrame(m + first.value, xs[1..], step);
        FoldFrame(first.value, xs[1..], step);
        OverlayAssociative(m, first.value, rest);
      }
    } else {
      assert m + map[] == m;
    }
  }

  /** A framed fold succeeds exactly when every step succeeds on its own. */
  lemma {:induction false} FoldSucceeds<X(!new)>(m: InputMap, xs: seq<X>, step: (InputMap, X) -> MapResult)
    requires Framed(step)
    ensures Fold(m, xs, step).Success? <==> forall i :: 0 <= i < |xs| ==> step(map[], xs[i]).Success?
    decreases |xs|
  {
    if |xs| > 0 {
      assert step(m, xs[0]) == Overlay(m, step(map[], xs[0]));
      if step(m, xs[0]).Success? {
        FoldSucceeds(step(m, xs[0]).value, xs[1..], step);
        forall i | 1 <= i < |xs|
          ensures xs[i] == xs[1..][i - 1]
        {
        }
      }
    }
  }

  /**
   A framed fold only adds keys: on success it keeps every key of the
   starting table and every key each step writes on its own.
   */
  lemma {:induction false} FoldKeysGrow<X(!new)>(m: InputMap, xs: seq<X>, step: (InputMap, X) -> MapResult)
    requires Framed(step)
    ensures var r := Fold(m, xs, step);
      r.Success? ==>
        && m.Keys <= r.value.Keys
        && forall j :: 0 <= j < |xs| ==>
             step(map[], xs[j]).Success? && step(map[], xs[j]).value.Keys <= r.value.Keys
    decreases |xs|
  {
    if |xs| > 0 {
      assert step(m, xs[0]) == Overlay(m, step(map[], xs[0]));
      if step(m, xs[0]).Success? {
        FoldKeysGrow(step(m, xs[0]).value, xs[1..], step);
        forall j | 1 <= j < |xs|
          ensures xs[j] == xs[1..][j - 1]
        {
        }
      }
    }
  }

  /** Every value of the table satisfies `ok`. */
  ghost predicate AllValues(m: InputMap, ok: Input -> bool) {
    forall k :: k in m ==> ok(m[k])
  }

  /**
   A framed fold whose steps, each on its own, write only values satisfying
   `ok` keeps every value of the table satisfying `ok`.
   */
  lemma {:induction false} FoldValues<X(!new)>(
    m: InputMap, xs: seq<X>, step: (InputMap, X) -> MapResult, ok: Input -> bool)
    requires Framed(step) && AllValues(m, ok)
    requires forall i :: 0 <= i < |xs| && step(map[], xs[i]).Success? ==> AllValues(step(map[], xs[i]).value, ok)
    ensures Fold(m, xs, step).Success? ==> AllValues(Fold(m, xs, step).value, ok)
    decreases |xs|
  {
    if |xs| > 0 {
      assert step(m, xs[0]) == Overlay(m, step(map[], xs[0]));
      if step(m, xs[0]).Success? {
        forall i | 0 <= i < |xs[1..]|
          ensures xs[1..][i] == xs[i + 1]
        {
        }
        FoldValues(step(m, xs[0]).value, xs[1..], step, ok);
      }
    }
  }

  /** A loop of `AddMapping` calls whose elements' inputs satisfy `ok` keeps every value satisfying `ok`. */
  lemma WriteAllValuesSatisfy<X(!new)>(
    m: InputMap, xs: seq<X>, target: X -> PathFragment, input: X -> Input, base: PathFragment, ok: Input -> bool)
    requires AllValues(m, ok)
    requires forall x :: x in xs ==> ok(input(x))
    ensures var r := WriteAll(m, xs, target, input, base);
      r.Success? ==> AllValues(r.value, ok)
  {
    var step := WriteStep(target, input, base);
    WriteStepFramed(target, input, base);
    forall i | 0 <= i < |xs| && step(map[], xs[i]).Success?
      ensures AllValues(step(map[], xs[i]).value, ok)
    {
      assert xs[i] in xs;
    }
    FoldValues(m, xs, step, ok);
  }

  /** A fold of steps that write below `base` keeps the table below `base`. */
  lemma {:induction false} FoldUnder<X(!new)>(m: InputMap, xs: seq<X>, step: (InputMap, X) -> MapResult, base: PathFragment)
    requires Framed(step) && WritesUnder(step, base) && AllUnder(m, base)
    ensures Fold(m, xs, step).Success? ==> AllUnder(Fold(m, xs, step).value, base)
    decreases |xs|
  {
    if |xs| > 0 {
      assert step(m, xs[0]) == Overlay(m, step(map[], xs[0]));
      if step(m, xs[0]).Success? {
        FoldUnder(step(m, xs[0]).value, xs[1..], step, base);
      }
    }
  }

  /** A fold ends only with errors its steps can raise. */
  lemma {:induction false} FoldErrors<X(!new)>(
    m: InputMap, xs: seq<X>, step: (InputMap, X) -> MapResult, allowed: ExpansionError -> bool)
    requires forall m': InputMap, x: X :: step(m', x).Failure? ==> allowed(step(m', x).error)
    ensures Fold(m, xs, step).Failure? ==> allowed(Fold(m, xs, step).error)
    decreases |xs|
  {
    if |xs| > 0 && step(m, xs[0]).Success? {
      FoldErrors(step(m, xs[0]).value, xs[1..], step, allowed);
    }
  }

  /** A loop of `AddMapping` calls succeeds iff no target is absolute. */
  lemma {:induction false} WriteAllSucceeds<X(!new)>(
    m: InputMap, xs: seq<X>, target: X -> PathFragment, input: X -> Input, base: PathFragment)
    ensures WriteAll(m, xs, target, input, base).Success? <==> forall x :: x in xs ==> !target(x).absolute
  {
    WriteStepFramed(target, input, base);
    FoldSucceeds(m, xs, WriteStep(target, input, base));
    assert forall x :: x in xs <==> exists i :: 0 <= i < |xs| && xs[i] == x;
  }

  /**
   On success, a loop of `AddMapping` calls adds exactly the destinations
   and leaves every other key alone.
   */
  lemma {:induction false} WriteAllKeys<X>(
    m: InputMap, xs: seq<X>, target: X -> PathFragment, input: X -> Input, base: PathFragment)
    ensures var r := WriteAll(m, xs, target, input, base);
      r.Success? ==>
        && r.value.Keys == m.Keys + Destinations(xs, target, base)
        && (forall k :: k in m && k !in Destinations(xs, target, base) ==> r.value[k] == m[k])
    decreases |xs|
  {
    if |xs| > 0 {
      var x0, rest := xs[0], xs[1..];
      var first := AddMapping(m, target(x0), input(x0), base);
      assert WriteStep(target, input, base)(m, x0) == first;
      if first.Success? {
        assert WriteAll(m, xs, target, input, base) == WriteAll(first.value, rest, target, input, base);
        WriteAllKeys(first.value, rest, target, input, base);
        assert forall x :: x in xs <==> x == x0 || x in rest;
        assert Destinations(xs, target, base) == {base.GetRelative(target(x0))} + Destinations(rest, target, base);
      }
    }
  }

  /**
   On success, when elements with equal targets carry equal inputs, each
   element's destination holds its input.
   */
  lemma {:induction false} WriteAllValues<X(!new)>(
    m: InputMap, xs: seq<X>, target: X -> PathFragment, input: X -> Input, base: PathFragment)
    requires Consistent(xs, target, input)
    ensures var r := WriteAll(m, xs, target, input, base);
      r.Success? ==> forall x :: x in xs ==>
        base.GetRelative(target(x)) in r.value && r.value[base.GetRelative(target(x))] == input(x)
    decreases |xs|
  {
    if |xs| > 0 {
      var x0, rest := xs[0], xs[1..];
      var first := AddMapping(m, target(x0), input(x0), base);
      assert WriteStep(target, input, base)(m, x0) == first;
      if first.Success? {
        var m1 := first.value;
        var key0 := base.GetRelative(target(x0));
        assert WriteAll(m, xs, target, input, base) == WriteAll(m1, rest, target, input, base);
        var r := WriteAll(m1, rest, target, input, base);
        assert Consistent(rest, target, input) by {
          forall i, j | 0 <= i < |rest| && 0 <= j < |rest| && target(rest[i]) == target(rest[j])
            ensures input(rest[i]) == input(rest[j])
          {
            assert rest[i] == xs[i + 1] && rest[j] == xs[j + 1];
          }
        }
        WriteAllValues(m1, rest, target, input, base);
        if r.Success? {
          WriteAllKeys(m1, rest, target, input, base);
          forall x | x in xs
            ensures base.GetRelative(target(x)) in r.value && r.value[base.GetRelative(target(x))] == input(x)
          {
            if x !in rest {
              assert x == x0;
              WriteAllKeys(m1, rest, target, input, base);
              WriteAllSucceeds(m1, rest, target, input, base);
              if key0 in Destinations(rest, target, base) {
                var i :| 0 <= i < |rest| && base.GetRelative(target(rest[i])) == key0;
                GetRelativeInjective(base, target(rest[i]), target(x0));
                assert xs[i + 1] == rest[i];
              }
            }
          }
        }
      }
    }
  }

  /** A loop of `AddMapping` calls from the empty table writes only below `base`. */
  lemma WriteAllUnder<X(!new)>(xs: seq<X>, target: X -> PathFragment, input: X -> Input, base: PathFragment)
    ensures var r := WriteAll(map[], xs, target, input, base);
      r.Success? ==> AllUnder(r.value, base)
  {
    WriteStepFramed(target, input, base);
    WriteStepUnder(target, input, base);
    FoldUnder(map[], xs, WriteStep(target, input, base), base);
  }

  function IsAbsoluteTargetError(e: ExpansionError): bool {
    e.AbsoluteTargetLocation?
  }

  /** A loop of `AddMapping` calls can only fail on an absolute target location. */
  lemma WriteAllErrors<X(!new)>(
    m: InputMap, xs: seq<X>, target: X -> PathFragment, input: X -> Input, base: PathFragment)
    ensures var r := WriteAll(m, xs, target, input, base);
      r.Failure? ==> r.error.AbsoluteTargetLocation?
  {
    FoldErrors(m, xs, WriteStep(target, input, base), IsAbsoluteTargetError);
  }

  /**
   Distinct elements whose destinations are pairwise distinct give as many
   destinations as elements.
   */
  lemma {:induction false} DestinationsCount<X>(xs: seq<X>, target: X -> PathFragment, base: PathFragment)
    requires forall i, j :: 0 <= i < j < |xs| ==> xs[i] != xs[j]
    requires forall i, j :: 0 <= i < |xs| && 0 <= j < |xs| && base.GetRelative(target(xs[i])) == base.GetRelative(target(xs[j])) ==> i == j
    ensures |Destinations(xs, target, base)| == |xs|
    decreases |xs|
  {
    if |xs| > 0 {
      var rest := xs[1..];
      var d0 := base.GetRelative(target(xs[0]));
      assert forall x :: x in xs <==> x == xs[0] || x in rest;
      assert Destinations(xs, target, base) == {d0} + Destinations(rest, target, base);
      forall i, j | 0 <= i < |rest| && 0 <= j < |rest| && base.GetRelative(target(rest[i])) == base.GetRelative(target(rest[j]))
        ensures i == j
      {
        assert rest[i] == xs[i + 1] && rest[j] == xs[j + 1];
      }
      DestinationsCount(rest, target, base);
    }
  }
}
