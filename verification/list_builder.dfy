/**
 * The four non-empty list builders of `postgres/source_settings`
 * (`RuptureScalingList`, `DeformationModelList`, `MagUncertaintyList`,
 * `DefaultMfdList`): `add` appends one element to a list builder, and
 * `build()` throws IllegalStateException when nothing was added. They differ
 * only in the element type, so they are one generic class here.
 */
module ListBuilders {
  import opened Wrappers

  /** `build()` given the elements added so far. */
  function BuildList<T>(items: seq<T>): (r: Result<seq<T>>)
    ensures r.Success? <==> |items| > 0
    ensures r.Success? ==> r.value == items
    ensures r.Failure? ==> r.error == IllegalState
  {
    if |items| == 0 then Failure(IllegalState) else Success(items)
  }

  /** A list built after some adds holds exactly those elements, in add order. */
  lemma {:induction false} AddsThenBuild<T>(xs: seq<T>, ys: seq<T>)
    requires |ys| > 0
    ensures BuildList(xs + ys) == Success(xs + ys)
    ensures BuildList(xs + ys).value[|xs|..] == ys
  {
    assert (xs + ys)[|xs|..] == ys;
  }

  class ListBuilder<T> {
    var items: seq<T>

    constructor ()
      ensures items == []
    {
      items := [];
    }

    /** `add(model)` */
    method Add(x: T)
      modifies this
      ensures items == old(items) + [x]
    {
      items := items + [x];
    }

    /** `build()`: leaves the builder as it was, so repeated builds agree. */
    method Build() returns (r: Result<seq<T>>)
      ensures r == BuildList(items)
      ensures r.Success? ==> r.value == items && |r.value| > 0
    {
      if |items| == 0 {
        return Failure(IllegalState);
      }
      r := Success(items);
    }
  }

  /**
   * How a `validate()` treats a list-valued part: unset (null) throws
   * NullPointerException when its list is read, an empty list throws
   * IllegalStateException.
   */
  function PartCheck<T>(part: Option<seq<T>>): (r: Outcome)
    ensures r == Pass <==> part.Some? && |part.value| > 0
    ensures part.None? ==> r == Fail(NullPointer)
    ensures part.Some? && part.value == [] ==> r == Fail(IllegalState)
  {
    if part.None? then Fail(NullPointer)
    else if part.value == [] then Fail(IllegalState)
    else Pass
  }
}
