/**
 * The legacy per-state fault model container (`ModelParameters.java`): nine
 * per-fault lists filled one value per call, the shared settings, and the
 * state abbreviation, with one validation at build time.
 */
module ModelParameterSets {
  import opened Wrappers
  import opened Externals
  import opened DefaultMfds
  import opened MagUncertainties

  /** A built container: every list in call order. */
  datatype ModelParameters = ModelParameters(
    birdRate: seq<real>, depth: seq<real>, defaultMfds: seq<DefaultMfd>, dip: seq<real>,
    faultTrace: seq<string>, geoRate: seq<real>, magUncertainties: seq<MagUncertainty>,
    name: seq<string>, rake: seq<real>, ruptureScaling: RuptureScaling, stateAbbrev: string,
    width: seq<real>, zengRate: seq<real>)

  /** The builder's state; the three settings and the state start null. */
  datatype Fields = Fields(
    birdRate: seq<real>, depth: seq<real>, dip: seq<real>, faultTrace: seq<string>,
    geoRate: seq<real>, name: seq<string>, rake: seq<real>, width: seq<real>, zengRate: seq<real>,
    defaultMfds: Option<seq<DefaultMfd>>, magUncertainties: Option<seq<MagUncertainty>>,
    ruptureScaling: Option<RuptureScaling>, stateAbbrev: Option<string>)

  const Empty := Fields([], [], [], [], [], [], [], [], [], None, None, None, None)

  /**
   * `validate()`, its checks in source order: an empty list or an empty
   * text throws IllegalStateException; a list or scaling never set throws
   * NullPointerException when its turn comes, because the check calls a
   * method on it. `scalingText` is `RuptureScaling.toString()`.
   */
  function Validate(s: Fields, scalingText: RuptureScaling -> string): Result<ModelParameters>
  {
    if s.birdRate == [] then Failure(IllegalState)
    else if s.defaultMfds.None? then Failure(NullPointer)
    else if s.defaultMfds.value == [] || s.depth == [] || s.dip == [] || s.faultTrace == [] || s.geoRate == []
    then Failure(IllegalState)
    else if s.magUncertainties.None? then Failure(NullPointer)
    else if s.magUncertainties.value == [] || s.name == [] || s.rake == [] then Failure(IllegalState)
    else if s.ruptureScaling.None? then Failure(NullPointer)
    else if scalingText(s.ruptureScaling.value) == "" || s.stateAbbrev.None? || s.stateAbbrev.value == ""
      || s.width == [] || s.zengRate == []
    then Failure(IllegalState)
    else Success(ModelParameters(
      s.birdRate, s.depth, s.defaultMfds.value, s.dip, s.faultTrace, s.geoRate,
      s.magUncertainties.value, s.name, s.rake, s.ruptureScaling.value, s.stateAbbrev.value,
      s.width, s.zengRate))
  }

  /** Every list, setting and text given and non-empty. */
  predicate Complete(s: Fields, scalingText: RuptureScaling -> string)
  {
    s.birdRate != [] && s.depth != [] && s.dip != [] && s.faultTrace != [] && s.geoRate != []
    && s.name != [] && s.rake != [] && s.width != [] && s.zengRate != []
    && s.defaultMfds.Some? && s.defaultMfds.value != []
    && s.magUncertainties.Some? && s.magUncertainties.value != []
    && s.ruptureScaling.Some? && scalingText(s.ruptureScaling.value) != ""
    && s.stateAbbrev.Some? && s.stateAbbrev.value != ""
  }

  /**
   * A build succeeds exactly on a complete builder and then holds every
   * list in call order; otherwise it throws IllegalStateException or,
   * for a setting never given, NullPointerException.
   */
  lemma BuildSucceedsExactly(s: Fields, scalingText: RuptureScaling -> string)
    ensures Validate(s, scalingText).Success? <==> Complete(s, scalingText)
    ensures Validate(s, scalingText).Success? ==>
      var m := Validate(s, scalingText).value;
      m.birdRate == s.birdRate && m.depth == s.depth && m.dip == s.dip && m.faultTrace == s.faultTrace
      && m.geoRate == s.geoRate && m.name == s.name && m.rake == s.rake && m.width == s.width
      && m.zengRate == s.zengRate && Some(m.defaultMfds) == s.defaultMfds
      && Some(m.magUncertainties) == s.magUncertainties && Some(m.ruptureScaling) == s.ruptureScaling
      && Some(m.stateAbbrev) == s.stateAbbrev
    ensures Validate(s, scalingText).Failure? ==>
      Validate(s, scalingText).error in {IllegalState, NullPointer}
    ensures s.birdRate != [] && s.defaultMfds.None? ==> Validate(s, scalingText) == Failure(NullPointer)
  {
  }

  /**
   * The per-fault lists need not have equal lengths: doubling the depths of
   * a complete builder whose depths matched its names still builds.
   */
  lemma LengthsUnchecked(s: Fields, scalingText: RuptureScaling -> string)
    requires Complete(s, scalingText) && |s.depth| == |s.name|
    ensures var s' := s.(depth := s.depth + s.depth);
      Validate(s', scalingText).Success? && |s'.depth| != |s'.name|
  {
  }

  /** `ModelParameters.Builder` */
  class Builder {
    var birdRate: seq<real>
    var depth: seq<real>
    var dip: seq<real>
    var faultTrace: seq<string>
    var geoRate: seq<real>
    var name: seq<string>
    var rake: seq<real>
    var width: seq<real>
    var zengRate: seq<real>
    var defaultMfds: Option<seq<DefaultMfd>>
    var magUncertainties: Option<seq<MagUncertainty>>
    var ruptureScaling: Option<RuptureScaling>
    var stateAbbrev: Option<string>

    function State(): Fields
      reads this
    {
      Fields(birdRate, depth, dip, faultTrace, geoRate, name, rake, width, zengRate,
        defaultMfds, magUncertainties, ruptureScaling, stateAbbrev)
    }

    constructor ()
      ensures State() == Empty
    {
      birdRate, depth, dip, faultTrace, geoRate := [], [], [], [], [];
      name, rake, width, zengRate := [], [], [], [];
      defaultMfds, magUncertainties, ruptureScaling, stateAbbrev := None, None, None, None;
    }

    method AddBirdRate(x: real)
      modifies this
      ensures State() == old(State()).(birdRate := old(birdRate) + [x])
    {
      birdRate := birdRate + [x];
    }

    method AddDepth(x: real)
      modifies this
      ensures State() == old(State()).(depth := old(depth) + [x])
    {
      depth := depth + [x];
    }

    method AddDip(x: real)
      modifies this
      ensures State() == old(State()).(dip := old(dip) + [x])
    {
      dip := dip + [x];
    }

    method AddFaultTrace(x: string)
      modifies this
      ensures State() == old(State()).(faultTrace := old(faultTrace) + [x])
    {
      faultTrace := faultTrace + [x];
    }

    method AddGeoRate(x: real)
      modifies this
      ensures State() == old(State()).(geoRate := old(geoRate) + [x])
    {
      geoRate := geoRate + [x];
    }

    method AddName(x: string)
      modifies this
      ensures State() == old(State()).(name := old(name) + [x])
    {
      name := name + [x];
    }

    method AddRake(x: real)
      modifies this
      ensures State() == old(State()).(rake := old(rake) + [x])
    {
      rake := rake + [x];
    }

    method AddWidth(x: real)
      modifies this
      ensures State() == old(State()).(width := old(width) + [x])
    {
      width := width + [x];
    }

    method AddZengRate(x: real)
      modifies this
      ensures State() == old(State()).(zengRate := old(zengRate) + [x])
    {
      zengRate := zengRate + [x];
    }

    method DefaultMfds(mfds: seq<DefaultMfd>)
      modifies this
      ensures State() == old(State()).(defaultMfds := Some(mfds))
    {
      defaultMfds := Some(mfds);
    }

    method MagUncertainties(mags: seq<MagUncertainty>)
      modifies this
      ensures State() == old(State()).(magUncertainties := Some(mags))
    {
      magUncertainties := Some(mags);
    }

    method RuptureScaling(scaling: Externals.RuptureScaling)
      modifies this
      ensures State() == old(State()).(ruptureScaling := Some(scaling))
    {
      ruptureScaling := Some(scaling);
    }

    method StateAbbrev(abbrev: string)
      modifies this
      ensures State() == old(State()).(stateAbbrev := Some(abbrev))
    {
      stateAbbrev := Some(abbrev);
    }

    /** `build()` leaves the builder as it is. */
    method Build(scalingText: Externals.RuptureScaling -> string) returns (r: Result<ModelParameters>)
      ensures r == Validate(State(), scalingText)
      ensures r.Success? ==> |r.value.name| > 0 && r.value.name == name
    {
      r := Validate(State(), scalingText);
    }
  }
}
