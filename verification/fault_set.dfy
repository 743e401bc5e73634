/**
 * Fault sets (`postgres/FaultSet.java`): a named, numbered list of faults in
 * add order, with an unchecked builder and a checked one that validates
 * the name; and the assembly from a feature collection.
 */
module FaultSets {
  import opened Wrappers
  import opened Externals
  import opened Faults

  datatype FaultSet = FaultSet(name: string, id: int, sources: seq<Fault>)

  /** `validateState()`, then `new FaultSet(this)`. */
  function BuildFaultSet(name: Option<string>, id: Option<int>, sources: seq<Fault>, built: bool): (r: Result<FaultSet>)
  {
    if built || id.None? || name.None? || sources == [] then Failure(IllegalState)
    else Success(FaultSet(name.value, id.value, sources))
  }

  /**
   * A build succeeds exactly on a builder not built before, with id and
   * name set and at least one fault added; the set lists the faults in add
   * order.
   */
  lemma BuildSucceedsExactly(name: Option<string>, id: Option<int>, sources: seq<Fault>, built: bool)
    ensures BuildFaultSet(name, id, sources, built).Success? <==>
      !built && id.Some? && name.Some? && |sources| > 0
    ensures BuildFaultSet(name, id, sources, built).Success? ==>
      BuildFaultSet(name, id, sources, built).value == FaultSet(name.value, id.value, sources)
    ensures BuildFaultSet(name, id, sources, built).Failure? ==>
      BuildFaultSet(name, id, sources, built).error == IllegalState
  {
  }

  /** `FaultSet.Builder` (checked) and `FaultSet.UncheckedBuilder`. */
  class FaultSetBuilder {
    const checked: bool
    const checks: Checks
    var name: Option<string>
    var id: Option<int>
    var sources: seq<Fault>
    var built: bool

    /** A checked builder holds only a valid name. */
    ghost predicate Valid()
      reads this
    {
      checked && name.Some? ==> checks.name(name.value)
    }

    constructor (checked: bool, checks: Checks)
      ensures this.checked == checked && this.checks == checks
      ensures name == None && id == None && sources == [] && !built && Valid()
    {
      this.checked := checked;
      this.checks := checks;
      name, id, sources, built := None, None, [], false;
    }

    /** `add(fault)`: appends one fault. */
    method Add(f: Fault)
      requires Valid()
      modifies this
      ensures Valid() && sources == old(sources) + [f]
      ensures name == old(name) && id == old(id) && built == old(built)
    {
      sources := sources + [f];
    }

    /** `id(i)` */
    method Id(i: int)
      requires Valid()
      modifies this
      ensures Valid() && id == Some(i)
      ensures name == old(name) && sources == old(sources) && built == old(built)
    {
      id := Some(i);
    }

    /** `name(n)`: the checked builder passes it through `validateName`. */
    method Name(n: string) returns (r: Outcome)
      requires Valid()
      modifies this
      ensures Valid() && id == old(id) && sources == old(sources) && built == old(built)
      ensures if checked && !checks.name(n)
        then r == Fail(IllegalArgument("name")) && name == old(name)
        else r == Pass && name == Some(n)
    {
      if checked && !checks.name(n) {
        return Fail(IllegalArgument("name"));
      }
      name := Some(n);
      r := Pass;
    }

    /** `build()`: on success the builder is marked built, so it never builds again. */
    method Build() returns (r: Result<FaultSet>)
      requires Valid()
      modifies this
      ensures Valid()
      ensures r == BuildFaultSet(old(name), old(id), old(sources), old(built))
      ensures name == old(name) && id == old(id) && sources == old(sources)
      ensures built == (old(built) || r.Success?)
    {
      r := BuildFaultSet(name, id, sources, built);
      if r.Success? {
        built := true;
      }
    }
  }

  /** The index of the first feature the checked conversion rejects, or the count when none is rejected. */
  function FirstBadFeature(checks: Checks, fs: seq<Feature>): (k: nat)
    ensures k <= |fs|
    ensures forall i :: 0 <= i < k ==> FeatureError(checks, fs[i]).None?
    ensures k < |fs| ==> FeatureError(checks, fs[k]).Some?
  {
    if fs == [] then 0
    else if FeatureError(checks, fs[0]).Some? then 0
    else 1 + FirstBadFeature(checks, fs[1..])
  }

  function FeatureFaults(fs: seq<Feature>): (faults: seq<Fault>)
    ensures |faults| == |fs|
    ensures forall i :: 0 <= i < |fs| ==> faults[i] == FeatureFault(fs[i])
  {
    if fs == [] then [] else [FeatureFault(fs[0])] + FeatureFaults(fs[1..])
  }

  /**
   * `fromFeatureCollection(name, id, fc)` on the checked or unchecked
   * builder: one fault per feature, in feature order. The checked path
   * throws on an invalid name or at the first rejected feature.
   */
  method FromFeatureCollection(checked: bool, checks: Checks, name: string, id: int, features: seq<Feature>)
    returns (r: Result<FaultSet>)
    ensures !checked ==>
      r == (if features == [] then Failure(IllegalState) else Success(FaultSet(name, id, FeatureFaults(features))))
    ensures checked && !checks.name(name) ==> r == Failure(IllegalArgument("name"))
    ensures checked && checks.name(name) && FirstBadFeature(checks, features) < |features| ==>
      r == Failure(FeatureError(checks, features[FirstBadFeature(checks, features)]).value)
    ensures checked && checks.name(name) && FirstBadFeature(checks, features) == |features| ==>
      r == (if features == [] then Failure(IllegalState) else Success(FaultSet(name, id, FeatureFaults(features))))
  {
    if checked {
      r := CheckedFromFeatureCollection(checks, name, id, features);
    } else {
      r := UncheckedFromFeatureCollection(checks, name, id, features);
    }
  }

  /** `UncheckedBuilder.fromFeatureCollection`: every feature's fault, in order; no feature at all fails the build. */
  method UncheckedFromFeatureCollection(checks: Checks, name: string, id: int, features: seq<Feature>)
    returns (r: Result<FaultSet>)
    ensures r == (if features == [] then Failure(IllegalState) else Success(FaultSet(name, id, FeatureFaults(features))))
  {
    var b := new FaultSetBuilder(false, checks);
    b.Id(id);
    var _ := b.Name(name);
    for i := 0 to |features|
      invariant b.Valid() && !b.checked
      invariant b.name == Some(name) && b.id == Some(id) && !b.built
      invariant b.sources == FeatureFaults(features[..i])
    {
      var f := UncheckedFromFeature(checks, features[i]);
      b.Add(f.value);
      FeatureFaultsSnoc(features, i);
    }
    assert features[..|features|] == features;
    r := b.Build();
  }

  /** `Builder.fromFeatureCollection`: as unchecked, but the name and every feature are checked, and the first failure is thrown. */
  method CheckedFromFeatureCollection(checks: Checks, name: string, id: int, features: seq<Feature>)
    returns (r: Result<FaultSet>)
    ensures !checks.name(name) ==> r == Failure(IllegalArgument("name"))
    ensures checks.name(name) && FirstBadFeature(checks, features) < |features| ==>
      r == Failure(FeatureError(checks, features[FirstBadFeature(checks, features)]).value)
    ensures checks.name(name) && FirstBadFeature(checks, features) == |features| ==>
      r == (if features == [] then Failure(IllegalState) else Success(FaultSet(name, id, FeatureFaults(features))))
  {
    var b := new FaultSetBuilder(true, checks);
    b.Id(id);
    var o := b.Name(name);
    if o.Fail? {
      return Failure(o.error);
    }
    for i := 0 to |features|
      invariant b.Valid() && b.checked && b.checks == checks
      invariant b.name == Some(name) && b.id == Some(id) && !b.built
      invariant b.sources == FeatureFaults(features[..i])
      invariant forall j :: 0 <= j < i ==> FeatureError(checks, features[j]).None?
    {
      var f := CheckedFromFeature(checks, features[i]);
      if f.Failure? {
        FirstBadFeatureAt(checks, features, i);
        return Failure(f.error);
      }
      b.Add(f.value);
      FeatureFaultsSnoc(features, i);
    }
    assert features[..|features|] == features;
    FirstBadFeatureNone(checks, features);
    r := b.Build();
  }

  /** A rejected feature after only accepted ones is the first rejected. */
  lemma FirstBadFeatureAt(checks: Checks, fs: seq<Feature>, i: nat)
    requires i < |fs| && FeatureError(checks, fs[i]).Some?
    requires forall j :: 0 <= j < i ==> FeatureError(checks, fs[j]).None?
    ensures FirstBadFeature(checks, fs) == i
  {
  }

  lemma FirstBadFeatureNone(checks: Checks, fs: seq<Feature>)
    requires forall j :: 0 <= j < |fs| ==> FeatureError(checks, fs[j]).None?
    ensures FirstBadFeature(checks, fs) == |fs|
  {
  }

  lemma FeatureFaultsSnoc(fs: seq<Feature>, i: nat)
    requires i < |fs|
    ensures FeatureFaults(fs[..i + 1]) == FeatureFaults(fs[..i]) + [FeatureFault(fs[i])]
  {
    assert fs[..i + 1] == fs[..i] + [fs[i]];
    FeatureFaultsAppend(fs[..i], fs[i]);
  }

  lemma FeatureFaultsAppend(fs: seq<Feature>, f: Feature)
    ensures FeatureFaults(fs + [f]) == FeatureFaults(fs) + [FeatureFault(f)]
  {
  }
}
