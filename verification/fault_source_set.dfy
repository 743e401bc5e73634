/**
 * Fault source sets (`postgres/sources/FaultSourceSet.java`): a name entry,
 * the id and weight entries `build()` adds, and four list-valued parts.
 */
module FaultSourceSets {
  import opened Wrappers
  import opened Externals
  import opened AttributeMaps
  import opened SourceAttributes
  import opened SourceTypes
  import opened ListBuilders
  import opened DefaultMfds
  import opened MagUncertainties
  import opened FaultSources

  datatype FaultSourceSet = FaultSourceSet(
    attributes: Entries<SourceAttribute, string>,
    defaultMfds: seq<DefaultMfd>,
    magUncertainties: seq<MagUncertainty>,
    ruptureScalingModels: seq<RuptureScaling>,
    sources: seq<FaultSource>)
  {
    /** The `type` field. */
    function Type(): SourceType
    {
      SourceType.FAULT_SOURCE_SET
    }
  }

  /** The entries `build()` puts before validating: id "-1", then weight "1.0". */
  const BuildEntries: Entries<SourceAttribute, string> := [(ID, "-1"), (WEIGHT, "1.0")]

  /** The parts set apart from the attribute map. */
  datatype Parts = Parts(
    defaultMfds: Option<seq<DefaultMfd>>,
    magUncertainties: Option<seq<MagUncertainty>>,
    ruptureScalingModels: Option<seq<RuptureScaling>>,
    sources: Option<seq<FaultSource>>)

  /** The four parts checked in `validate()`'s order. */
  function PartsCheck(p: Parts): (r: Outcome)
    ensures r == Pass <==>
      p.defaultMfds.Some? && |p.defaultMfds.value| > 0 &&
      p.magUncertainties.Some? && |p.magUncertainties.value| > 0 &&
      p.ruptureScalingModels.Some? && |p.ruptureScalingModels.value| > 0 &&
      p.sources.Some? && |p.sources.value| > 0
  {
    if PartCheck(p.defaultMfds).Fail? then PartCheck(p.defaultMfds)
    else if PartCheck(p.magUncertainties).Fail? then PartCheck(p.magUncertainties)
    else if PartCheck(p.ruptureScalingModels).Fail? then PartCheck(p.ruptureScalingModels)
    else PartCheck(p.sources)
  }

  /** `build()` given the entries put so far (the names) and the parts. */
  function BuildSourceSet(es: Entries<SourceAttribute, string>, p: Parts): Result<FaultSourceSet>
  {
    var m :- Validated(es + BuildEntries, {ID, NAME, WEIGHT});
    var c := PartsCheck(p);
    if c.Fail? then Failure(c.error)
    else Success(FaultSourceSet(m, p.defaultMfds.value, p.magUncertainties.value,
                                p.ruptureScalingModels.value, p.sources.value))
  }

  /**
   * A build succeeds exactly when the name was set once (and nothing else
   * was put) and all four parts are set and non-empty; the attributes are
   * then name, id "-1", weight "1.0", in that order.
   */
  lemma BuildSucceedsExactly(es: Entries<SourceAttribute, string>, p: Parts)
    requires forall i :: 0 <= i < |es| ==> es[i].0 == NAME
    ensures BuildSourceSet(es, p).Success? <==> |es| == 1 && PartsCheck(p) == Pass
    ensures BuildSourceSet(es, p).Success? ==>
      BuildSourceSet(es, p).value.attributes == [(NAME, es[0].1), (ID, "-1"), (WEIGHT, "1.0")]
    ensures |es| >= 2 ==> BuildSourceSet(es, p) == Failure(DuplicateKey)
    ensures es == [] ==> BuildSourceSet(es, p) == Failure(IllegalState)
  {
    var all := es + BuildEntries;
    if |es| >= 2 {
      assert all[0].0 == all[1].0;
    } else if |es| == 1 {
      OneNameValidates(es[0].1, es, all);
    } else {
      assert all == BuildEntries;
      assert !HasKey(all, NAME);
    }
  }

  /** The name entry, then id and weight: three distinct keys covering all that is required. */
  lemma OneNameValidates(name: string, es: Entries<SourceAttribute, string>, all: Entries<SourceAttribute, string>)
    requires es == [(NAME, name)] && all == es + BuildEntries
    ensures Validated(all, {ID, NAME, WEIGHT}) == Success([(NAME, name), (ID, "-1"), (WEIGHT, "1.0")])
  {
    var ks := [NAME, ID, WEIGHT];
    assert Keys(all) == ks;
    NotInCons(ID, WEIGHT, []);
    NoRepeatsCons(ID, [WEIGHT]);
    NotInCons(NAME, ID, [WEIGHT]);
    NoRepeatsCons(NAME, [ID, WEIGHT]);
    assert [ID] + [WEIGHT] == [ID, WEIGHT] && [NAME] + [ID, WEIGHT] == ks;
    CoveringKeysValid(all, {ID, NAME, WEIGHT}, ks);
    assert all == [(NAME, name), (ID, "-1"), (WEIGHT, "1.0")];
  }

  /** A second build puts id and weight again and fails on the duplicate key. */
  lemma SecondBuildFails(es: Entries<SourceAttribute, string>, p: Parts)
    ensures BuildSourceSet(es + BuildEntries, p) == Failure(DuplicateKey)
  {
    var all := es + BuildEntries + BuildEntries;
    assert all[|es|].0 == all[|es| + 2].0;
  }

  /** The set's type is FAULT_SOURCE_SET, written "FaultSourceSet" as an element name. */
  lemma TypeIsFaultSourceSet(s: FaultSourceSet)
    ensures s.Type() == SourceType.FAULT_SOURCE_SET && s.Type().ToUpperCamelCase() == "FaultSourceSet"
  {
    CamelNames(s.Type());
  }

  /** `FaultSourceSet.Builder` */
  class FaultSourceSetBuilder {
    var attributes: Entries<SourceAttribute, string>
    var parts: Parts

    /** The only setter that puts an entry is `name`. */
    ghost predicate Valid()
      reads this
    {
      forall i :: 0 <= i < |attributes| ==> attributes[i].0 in {NAME, ID, WEIGHT}
    }

    constructor ()
      ensures attributes == [] && parts == Parts(None, None, None, None) && Valid()
    {
      attributes := [];
      parts := Parts(None, None, None, None);
    }

    method DefaultMfds(mfds: seq<DefaultMfd>)
      requires Valid()
      modifies this
      ensures Valid() && attributes == old(attributes) && parts == old(parts).(defaultMfds := Some(mfds))
    {
      parts := parts.(defaultMfds := Some(mfds));
    }

    method MagUncertainties(uncertainties: seq<MagUncertainty>)
      requires Valid()
      modifies this
      ensures Valid() && attributes == old(attributes) && parts == old(parts).(magUncertainties := Some(uncertainties))
    {
      parts := parts.(magUncertainties := Some(uncertainties));
    }

    method RuptureScalingModels(models: seq<RuptureScaling>)
      requires Valid()
      modifies this
      ensures Valid() && attributes == old(attributes) && parts == old(parts).(ruptureScalingModels := Some(models))
    {
      parts := parts.(ruptureScalingModels := Some(models));
    }

    method Name(name: string)
      requires Valid()
      modifies this
      ensures Valid() && attributes == old(attributes) + [(NAME, name)] && parts == old(parts)
    {
      attributes := attributes + [(NAME, name)];
    }

    method Sources(sources: seq<FaultSource>)
      requires Valid()
      modifies this
      ensures Valid() && attributes == old(attributes) && parts == old(parts).(sources := Some(sources))
    {
      parts := parts.(sources := Some(sources));
    }

    /** `build()`: puts id and weight (they stay put even when validation throws), then validates. */
    method Build() returns (r: Result<FaultSourceSet>)
      requires Valid()
      modifies this
      ensures Valid() && parts == old(parts)
      ensures attributes == old(attributes) + BuildEntries
      ensures r == BuildSourceSet(old(attributes), parts)
    {
      r := BuildSourceSet(attributes, parts);
      attributes := attributes + BuildEntries;
    }
  }
}
