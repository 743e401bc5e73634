/**
 * The settings block of a database-era source set (`postgres/Settings.java`):
 * a builder that stores four parts without checking them, and the fixed
 * `westernUS()` assembly.
 */
module SourceSettings {
  import opened Wrappers
  import opened Externals
  import opened AttributeMaps
  import opened SourceAttributes
  import opened ListBuilders
  import opened DefaultMfds
  import opened MagUncertainties
  import opened SourceProperties

  datatype Settings = Settings(
    defaultMfds: Option<seq<DefaultMfd>>,
    magUncertainties: Option<seq<MagUncertainty>>,
    ruptureScalingModels: Option<seq<RuptureScaling>>,
    sourceProperties: Option<SourcePropertyAttributes>)

  /** `Settings.Builder`: `build()` validates nothing, so unset parts stay null. */
  class Builder {
    var defaultMfds: Option<seq<DefaultMfd>>
    var magUncertainties: Option<seq<MagUncertainty>>
    var ruptureScalingModels: Option<seq<RuptureScaling>>
    var sourceProperties: Option<SourcePropertyAttributes>

    function State(): Settings
      reads this
    {
      Settings(defaultMfds, magUncertainties, ruptureScalingModels, sourceProperties)
    }

    constructor ()
      ensures State() == Settings(None, None, None, None)
    {
      defaultMfds, magUncertainties, ruptureScalingModels, sourceProperties := None, None, None, None;
    }

    method DefaultMfds(mfds: seq<DefaultMfd>)
      modifies this
      ensures State() == old(State()).(defaultMfds := Some(mfds))
    {
      defaultMfds := Some(mfds);
    }

    method MagUncertainties(uncertainties: seq<MagUncertainty>)
      modifies this
      ensures State() == old(State()).(magUncertainties := Some(uncertainties))
    {
      magUncertainties := Some(uncertainties);
    }

    method SourceProperties(properties: SourcePropertyAttributes)
      modifies this
      ensures State() == old(State()).(sourceProperties := Some(properties))
    {
      sourceProperties := Some(properties);
    }

    method RuptureScalingModels(models: seq<RuptureScaling>)
      modifies this
      ensures State() == old(State()).(ruptureScalingModels := Some(models))
    {
      ruptureScalingModels := Some(models);
    }

    /** `build()` never fails and returns exactly the parts set so far. */
    method Build() returns (s: Settings)
      ensures s == State()
      ensures s.defaultMfds.None? <==> defaultMfds.None?
    {
      s := State();
    }
  }

  // ---------------------------------------------------------------------
  // The western United States settings

  /** The single MFD's setter entries: floats false, m 6.5, rate 0.0, weight 1.0. */
  function SingleEntries(f: Formats): Attributes
  {
    [(FLOATS, BoolText(false)), (M, f.double(6.5)), (RATE, f.double(0.0)), (WEIGHT, f.double(1.0))]
  }

  /** The Gutenberg-Richter MFD's setter entries: a 0.0, b 0.8, dMag 0.1, mMax 7.5, mMin 6.55, weight 1.0. */
  function GutenbergRichterEntries(f: Formats): Attributes
  {
    [(A, f.double(0.0)), (B, f.double(0.8)), (D_MAG, f.double(0.1)),
     (M_MAX, f.double(7.5)), (M_MIN, f.double(6.55)), (WEIGHT, f.double(1.0))]
  }

  /** The aleatory uncertainty's setter entries: count 11, cutoff 6.5, moBalance true, sigma 0.12. */
  function AleatoryEntries(f: Formats): Attributes
  {
    [(COUNT, f.integer(11)), (CUTOFF, f.double(6.5)), (MO_BALANCE, BoolText(true)), (SIGMA, f.double(0.12))]
  }

  /** The epistemic uncertainty's setter entries: cutoff 6.5, deltas [-0.2, 0.0, 0.2], weights [0.2, 0.6, 0.2]. */
  function EpistemicEntries(f: Formats): Attributes
  {
    [(CUTOFF, f.double(6.5)), (DELTAS, f.doubles([-0.2, 0.0, 0.2])), (WEIGHTS, f.doubles([0.2, 0.6, 0.2]))]
  }

  /** Each MFD and uncertainty holds its setter entries with its TYPE last. */
  function SingleMfd(f: Formats): DefaultMfd
  {
    DefaultMfd(SingleEntries(f) + [DefaultMfds.TypeEntry(Single)])
  }

  function GutenbergRichterMfd(f: Formats): DefaultMfd
  {
    DefaultMfd(GutenbergRichterEntries(f) + [DefaultMfds.TypeEntry(GutenbergRichter)])
  }

  function AleatoryUncertainty(f: Formats): MagUncertainty
  {
    MagUncertainty(AleatoryEntries(f) + [MagUncertainties.TypeEntry(Aleatory)])
  }

  function EpistemicUncertainty(f: Formats): MagUncertainty
  {
    MagUncertainty(EpistemicEntries(f) + [MagUncertainties.TypeEntry(Epistemic)])
  }

  /** The MFD list: the single MFD, then the Gutenberg-Richter one. */
  function WesternMfds(f: Formats): seq<DefaultMfd>
  {
    [SingleMfd(f), GutenbergRichterMfd(f)]
  }

  /** The uncertainty list: aleatory, then epistemic. */
  function WesternUncertainties(f: Formats): seq<MagUncertainty>
  {
    [AleatoryUncertainty(f), EpistemicUncertainty(f)]
  }

  /** What `westernUS()` returns. */
  function Western(f: Formats): Settings
  {
    Settings(Some(WesternMfds(f)), Some(WesternUncertainties(f)),
      Some([NSHM_FAULT_WC94_LENGTH]), Some(SourcePropertyAttributes([])))
  }

  /** Each inner builder gets each of its setters exactly once. */
  lemma WesternKeys(f: Formats)
    ensures Keys(SingleEntries(f)) == Single.SetterKeys()
    ensures Keys(GutenbergRichterEntries(f)) == GutenbergRichter.SetterKeys()
    ensures Keys(AleatoryEntries(f)) == Aleatory.SetterKeys()
    ensures Keys(EpistemicEntries(f)) == Epistemic.SetterKeys()
  {
  }

  /** The single MFD of `westernUS()`: its build succeeds, each setter called once. */
  method WesternSingle(f: Formats) returns (r: Result<DefaultMfd>)
    ensures r == Success(SingleMfd(f))
  {
    var single := new SingleBuilder(f);
    single.Floats(false);
    single.SetM(6.5);
    single.Rate(0.0);
    single.Weight(1.0);
    assert single.attributes == SingleEntries(f);
    r := single.Build();
    SingleBuiltOnce(f);
  }

  lemma SingleBuiltOnce(f: Formats)
    ensures BuildMfd(Single, SingleEntries(f)) == Success(SingleMfd(f))
  {
    WesternKeys(f);
    SingleSettersOnce(SingleEntries(f));
    SingleBuild(SingleEntries(f));
  }

  /** The Gutenberg-Richter MFD of `westernUS()`. */
  method WesternGutenbergRichter(f: Formats) returns (r: Result<DefaultMfd>)
    ensures r == Success(GutenbergRichterMfd(f))
  {
    var gr := new GutenbergRichterBuilder(f);
    gr.SetA(0.0);
    gr.SetB(0.8);
    gr.DMag(0.1);
    gr.MMax(7.5);
    gr.MMin(6.55);
    gr.Weight(1.0);
    assert gr.attributes == GutenbergRichterEntries(f);
    r := gr.Build();
    GutenbergRichterBuiltOnce(f);
  }

  lemma GutenbergRichterBuiltOnce(f: Formats)
    ensures BuildMfd(GutenbergRichter, GutenbergRichterEntries(f)) == Success(GutenbergRichterMfd(f))
  {
    WesternKeys(f);
    GutenbergRichterSettersOnce(GutenbergRichterEntries(f));
    GutenbergRichterBuild(GutenbergRichterEntries(f));
  }

  /** The aleatory uncertainty of `westernUS()`. */
  method WesternAleatory(f: Formats) returns (r: Result<MagUncertainty>)
    ensures r == Success(AleatoryUncertainty(f))
  {
    var b := new AleatoryBuilder(f);
    b.Count(11);
    b.Cutoff(6.5);
    b.MoBalance(true);
    b.Sigma(0.12);
    assert b.attributes == AleatoryEntries(f);
    r := b.Build();
    AleatoryBuiltOnce(f);
  }

  lemma AleatoryBuiltOnce(f: Formats)
    ensures BuildUncertainty(Aleatory, AleatoryEntries(f)) == Success(AleatoryUncertainty(f))
  {
    WesternKeys(f);
    MagUncertainties.EachSetterOnce(Aleatory, AleatoryEntries(f));
  }

  /** The epistemic uncertainty of `westernUS()`. */
  method WesternEpistemic(f: Formats) returns (r: Result<MagUncertainty>)
    ensures r == Success(EpistemicUncertainty(f))
  {
    var b := new EpistemicBuilder(f);
    b.Cutoff(6.5);
    b.Deltas([-0.2, 0.0, 0.2]);
    b.Weights([0.2, 0.6, 0.2]);
    assert b.attributes == EpistemicEntries(f);
    r := b.Build();
    EpistemicBuiltOnce(f);
  }

  lemma EpistemicBuiltOnce(f: Formats)
    ensures BuildUncertainty(Epistemic, EpistemicEntries(f)) == Success(EpistemicUncertainty(f))
  {
    WesternKeys(f);
    MagUncertainties.EachSetterOnce(Epistemic, EpistemicEntries(f));
  }

  /** The MFD list of `westernUS()`. */
  method WesternMfdList(f: Formats) returns (r: Result<seq<DefaultMfd>>)
    ensures r == Success(WesternMfds(f))
  {
    var singleMfd := WesternSingle(f);
    var grMfd := WesternGutenbergRichter(f);
    var mfdList := new ListBuilder<DefaultMfd>();
    mfdList.Add(singleMfd.value);
    mfdList.Add(grMfd.value);
    assert mfdList.items == [singleMfd.value, grMfd.value];
    r := mfdList.Build();
  }

  /** The uncertainty list of `westernUS()`. */
  method WesternUncertaintyList(f: Formats) returns (r: Result<seq<MagUncertainty>>)
    ensures r == Success(WesternUncertainties(f))
  {
    var aleatory := WesternAleatory(f);
    var epistemic := WesternEpistemic(f);
    var sigmaList := new ListBuilder<MagUncertainty>();
    sigmaList.Add(aleatory.value);
    sigmaList.Add(epistemic.value);
    assert sigmaList.items == [aleatory.value, epistemic.value];
    r := sigmaList.Build();
  }

  /** The rupture-scaling list of `westernUS()`. */
  method WesternScalingList() returns (r: Result<seq<RuptureScaling>>)
    ensures r == Success([NSHM_FAULT_WC94_LENGTH])
  {
    var scalingList := new ListBuilder<RuptureScaling>();
    scalingList.Add(NSHM_FAULT_WC94_LENGTH);
    assert scalingList.items == [NSHM_FAULT_WC94_LENGTH];
    r := scalingList.Build();
  }

  /** The source properties of `westernUS()`: the empty fault attribute set. */
  method WesternSourceProperties(f: Formats) returns (r: Result<SourcePropertyAttributes>)
    ensures r == Success(SourcePropertyAttributes([]))
  {
    var props := new SourcePropertiesBuilder(SourceKind.Fault, f);
    r := props.Build();
  }

  /**
   * `westernUS()`: every inner build succeeds, because each builder gets each
   * required key exactly once, so the result is the fixed settings.
   */
  method WesternUS(f: Formats) returns (r: Result<Settings>)
    ensures r == Success(Western(f))
  {
    var mfds := WesternMfdList(f);
    var sigmas := WesternUncertaintyList(f);
    var ruptureModels := WesternScalingList();
    var sourceProps := WesternSourceProperties(f);
    var settings := new Builder();
    settings.DefaultMfds(mfds.value);
    settings.MagUncertainties(sigmas.value);
    settings.RuptureScalingModels(ruptureModels.value);
    settings.SourceProperties(sourceProps.value);
    var s := settings.Build();
    r := Success(s);
  }
}

/**
 * The legacy settings (`Settings.java` in the top package): the same MFDs
 * and uncertainties, and a single rupture scaling.
 */
module LegacySettings {
  import opened Wrappers
  import opened Externals
  import opened DefaultMfds
  import opened MagUncertainties
  import SS = SourceSettings

  class Settings {
    var defaultMfds: seq<DefaultMfd>
    var magUncertainties: seq<MagUncertainty>
    var ruptureScaling: RuptureScaling

    /** The constructor stores its three arguments unchanged. */
    constructor (defaultMfds: seq<DefaultMfd>, mags: seq<MagUncertainty>, ruptureScaling: RuptureScaling)
      ensures this.defaultMfds == defaultMfds && this.magUncertainties == mags
      ensures this.ruptureScaling == ruptureScaling
    {
      this.defaultMfds := defaultMfds;
      this.magUncertainties := mags;
      this.ruptureScaling := ruptureScaling;
    }
  }

  /**
   * `westernUS()`: single then Gutenberg-Richter MFDs, aleatory then
   * epistemic uncertainties, and NSHM_FAULT_WC94_LENGTH.
   */
  method WesternUS(f: Formats) returns (r: Result<Settings>)
    ensures r.Success?
    ensures r.Success? ==> fresh(r.value)
    ensures r.Success? ==> r.value.defaultMfds == SS.WesternMfds(f)
    ensures r.Success? ==> r.value.magUncertainties == SS.WesternUncertainties(f)
    ensures r.Success? ==> r.value.ruptureScaling == NSHM_FAULT_WC94_LENGTH
  {
    var singleMfd := SS.WesternSingle(f);
    var grMfd := SS.WesternGutenbergRichter(f);
    var mfds: seq<DefaultMfd> := [];
    mfds := mfds + [singleMfd.value];
    mfds := mfds + [grMfd.value];

    var aleatory := SS.WesternAleatory(f);
    var epistemic := SS.WesternEpistemic(f);
    var uncertainties: seq<MagUncertainty> := [];
    uncertainties := uncertainties + [aleatory.value];
    uncertainties := uncertainties + [epistemic.value];

    var s := new Settings(mfds, uncertainties, NSHM_FAULT_WC94_LENGTH);
    r := Success(s);
  }
}
