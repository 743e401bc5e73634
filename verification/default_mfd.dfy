/**
 * Default magnitude-frequency distributions
 * (`postgres/source_settings/DefaultMfd.java`): four builders that put
 * attribute entries one setter call at a time and, on `build()`, put the
 * TYPE entry and validate the map.
 */
module DefaultMfds {
  import opened Wrappers
  import opened Externals
  import opened AttributeMaps
  import opened SourceAttributes

  type Attributes = Entries<SourceAttribute, string>

  /** A default MFD: its attributes in the order they were put. */
  datatype DefaultMfd = DefaultMfd(attributes: Attributes)

  datatype MfdType = GutenbergRichter | Incremental | Single | TaperedGutenbergRichter
  {
    /** `MFD_TYPE`, whose name is the TYPE value. */
    function TypeKey(): SourceAttribute
    {
      match this
      case GutenbergRichter => GR
      case Incremental => INCR
      case Single => SINGLE
      case TaperedGutenbergRichter => GR_TAPER
    }

    /** The keys `validate()` requires, as written. */
    function Required(): set<SourceAttribute>
    {
      match this
      case GutenbergRichter => {A, B, D_MAG, M_MAX, M_MIN, TYPE, WEIGHT}
      case Incremental => {FLOATS, MAGS, RATES, TYPE, WEIGHTS}
      case Single => {FLOATS, M, RATE, TYPE, WEIGHT}
      case TaperedGutenbergRichter => {A, B, C_MAG, D_MAG, M_MAX, M_MIN, TYPE, WEIGHT}
    }

    /** The key each setter writes, as written, in declaration order (the tapered `b` writes A). */
    function SetterKeys(): seq<SourceAttribute>
    {
      match this
      case GutenbergRichter => [A, B, D_MAG, M_MAX, M_MIN, WEIGHT]
      case Incremental => [FLOATS, MAGS, RATES, WEIGHT]
      case Single => [FLOATS, M, RATE, WEIGHT]
      case TaperedGutenbergRichter => [A, A, C_MAG, D_MAG, M_CUT, M_MAX, M_MIN, WEIGHT]
    }

    /** The required keys as evidently intended: the incremental weight is WEIGHT. */
    function IntendedRequired(): set<SourceAttribute>
    {
      if this == Incremental then {FLOATS, MAGS, RATES, TYPE, WEIGHT} else Required()
    }

    /** The setter keys as evidently intended: the tapered `b` writes B. */
    function IntendedSetterKeys(): seq<SourceAttribute>
    {
      if this == TaperedGutenbergRichter then [A, B, C_MAG, D_MAG, M_CUT, M_MAX, M_MIN, WEIGHT]
      else SetterKeys()
    }
  }

  /** The entry `build()` puts last: TYPE with the type constant's name. */
  function TypeEntry(t: MfdType): (SourceAttribute, string)
  {
    (TYPE, t.TypeKey().Name())
  }

  /**
   * `build()` given the entries put so far and the keys `validate()` checks:
   * TYPE is put, the map must build (no repeated key), every required key
   * must be present, and the result is the built map.
   */
  function BuildChecking(t: MfdType, required: set<SourceAttribute>, es: Attributes): Result<DefaultMfd>
  {
    var m :- Validated(es + [TypeEntry(t)], required);
    Success(DefaultMfd(m))
  }

  /** `build()` as written. */
  function BuildMfd(t: MfdType, es: Attributes): Result<DefaultMfd>
  {
    BuildChecking(t, t.Required(), es)
  }

  /** `build()` as evidently intended (see `MfdType.IntendedRequired`). */
  function IntendedBuild(t: MfdType, es: Attributes): Result<DefaultMfd>
  {
    BuildChecking(t, t.IntendedRequired(), es)
  }

  // ---------------------------------------------------------------------
  // Lemmas

  /**
   * A build succeeds exactly when no key was put twice, TYPE was not put
   * before, and every other required key was put; the built map is the
   * entries in call order with TYPE last.
   */
  lemma BuildSucceedsExactly(t: MfdType, required: set<SourceAttribute>, es: Attributes)
    ensures BuildChecking(t, required, es).Success? <==>
      DistinctKeys(es) && !HasKey(es, TYPE) && HasAll(es, required - {TYPE})
    ensures BuildChecking(t, required, es).Success? ==>
      var m := BuildChecking(t, required, es).value.attributes;
      |m| == |es| + 1 && m[..|es|] == es && m[|es|] == TypeEntry(t)
  {
    ValidatedAppend(es, TypeEntry(t), required);
    var all := es + [TypeEntry(t)];
    assert all[..|es|] == es;
  }

  /** The build of type `t`, given the other keys it requires and the TYPE value it puts. */
  lemma BuildOf(t: MfdType, es: Attributes, others: set<SourceAttribute>, name: string)
    requires others == t.Required() - {TYPE} && name == t.TypeKey().Name()
    ensures BuildMfd(t, es).Success? <==> DistinctKeys(es) && !HasKey(es, TYPE) && HasAll(es, others)
    ensures BuildMfd(t, es).Success? ==> BuildMfd(t, es).value.attributes == es + [(TYPE, name)]
  {
    BuildSucceedsExactly(t, t.Required(), es);
  }

  lemma GutenbergRichterOthers(t: MfdType, others: set<SourceAttribute>)
    requires t == GutenbergRichter && others == {A, B, D_MAG, M_MAX, M_MIN, WEIGHT}
    ensures others == t.Required() - {TYPE}
  {
  }

  lemma SingleOthers(t: MfdType, others: set<SourceAttribute>)
    requires t == Single && others == {FLOATS, M, RATE, WEIGHT}
    ensures others == t.Required() - {TYPE}
  {
  }

  /** Gutenberg-Richter: a, b, dMag, mMax, mMin and weight must each be put once; TYPE "GR" ends the map. */
  lemma GutenbergRichterBuild(es: Attributes)
    ensures BuildMfd(GutenbergRichter, es).Success? <==>
      DistinctKeys(es) && !HasKey(es, TYPE) && HasAll(es, {A, B, D_MAG, M_MAX, M_MIN, WEIGHT})
    ensures BuildMfd(GutenbergRichter, es).Success? ==>
      BuildMfd(GutenbergRichter, es).value.attributes == es + [(TYPE, "GR")]
  {
    GutenbergRichterOthers(GutenbergRichter, {A, B, D_MAG, M_MAX, M_MIN, WEIGHT});
    BuildOf(GutenbergRichter, es, {A, B, D_MAG, M_MAX, M_MIN, WEIGHT}, "GR");
  }

  /** Single: floats, m, rate and weight must each be put once; TYPE "SINGLE" ends the map. */
  lemma SingleBuild(es: Attributes)
    ensures BuildMfd(Single, es).Success? <==>
      DistinctKeys(es) && !HasKey(es, TYPE) && HasAll(es, {FLOATS, M, RATE, WEIGHT})
    ensures BuildMfd(Single, es).Success? ==>
      BuildMfd(Single, es).value.attributes == es + [(TYPE, "SINGLE")]
  {
    SingleOthers(Single, {FLOATS, M, RATE, WEIGHT});
    BuildOf(Single, es, {FLOATS, M, RATE, WEIGHT}, "SINGLE");
  }

  /** Whatever the incremental setters put (and however often), the build fails: WEIGHTS is never put. */
  lemma IncrementalNeverBuilds(es: Attributes)
    requires forall i :: 0 <= i < |es| ==> es[i].0 in {FLOATS, MAGS, RATES, WEIGHT, TYPE}
    ensures BuildMfd(Incremental, es).Failure?
  {
    BuildSucceedsExactly(Incremental, Incremental.Required(), es);
    assert WEIGHTS in Incremental.Required() - {TYPE};
    assert !HasKey(es, WEIGHTS);
  }

  /** Whatever the tapered setters put, the build fails: B is never put. */
  lemma TaperedNeverBuilds(es: Attributes)
    requires forall i :: 0 <= i < |es| ==> es[i].0 in {A, C_MAG, D_MAG, M_CUT, M_MAX, M_MIN, WEIGHT, TYPE}
    ensures BuildMfd(TaperedGutenbergRichter, es).Failure?
  {
    BuildSucceedsExactly(TaperedGutenbergRichter, TaperedGutenbergRichter.Required(), es);
    assert B in TaperedGutenbergRichter.Required() - {TYPE};
    assert !HasKey(es, B);
  }

  /** M_CUT is neither required nor forbidden: putting it once more changes nothing about success. */
  lemma MCutIsIgnored(es: Attributes, v: string)
    requires !HasKey(es, M_CUT)
    ensures BuildMfd(TaperedGutenbergRichter, es + [(M_CUT, v)]).Success? <==>
      BuildMfd(TaperedGutenbergRichter, es).Success?
  {
    var t := TaperedGutenbergRichter;
    BuildSucceedsExactly(t, t.Required(), es);
    BuildSucceedsExactly(t, t.Required(), es + [(M_CUT, v)]);
    ValidatedAppend(es, (M_CUT, v), t.Required() - {TYPE});
    HasKeyAppend(es, (M_CUT, v), TYPE);
    assert t.Required() - {TYPE} - {M_CUT} == t.Required() - {TYPE};
  }

  /** A key put twice makes the build fail with the map builder's duplicate-key error. */
  lemma RepeatedKeyFails(t: MfdType, es: Attributes)
    requires !DistinctKeys(es)
    ensures BuildMfd(t, es) == Failure(DuplicateKey)
  {
    DistinctAppend(es, TypeEntry(t));
  }

  /** A second build sees the TYPE entry of the first and fails on the duplicate key. */
  lemma SecondBuildFails(t: MfdType, es: Attributes)
    ensures BuildMfd(t, es + [TypeEntry(t)]) == Failure(DuplicateKey)
  {
    var es' := es + [TypeEntry(t)];
    DistinctAppend(es', TypeEntry(t));
    assert es'[|es|].0 == TYPE;
  }

  /** Setter calls whose keys are `ks`, all different, none TYPE, covering `required`: the build succeeds. */
  lemma DistinctCoveringKeysBuild(t: MfdType, required: set<SourceAttribute>, es: Attributes, ks: seq<SourceAttribute>)
    requires Keys(es) == ks
    requires NoRepeats(ks)
    requires TYPE !in ks
    requires forall k | k in required && k != TYPE :: k in ks
    ensures BuildChecking(t, required, es) == Success(DefaultMfd(es + [TypeEntry(t)]))
  {
    CoveringKeysValidate(es, TypeEntry(t), required, ks);
  }

  /** Setter calls whose keys are `ks`, all different, none TYPE, missing a required `k`: the build fails its check. */
  lemma MissingKeyBuild(t: MfdType, required: set<SourceAttribute>, es: Attributes, ks: seq<SourceAttribute>, k: SourceAttribute)
    requires Keys(es) == ks
    requires NoRepeats(ks)
    requires TYPE !in ks
    requires k in required && k != TYPE && k !in ks
    ensures BuildChecking(t, required, es) == Failure(IllegalState)
  {
    MissingKeyValidate(es, TypeEntry(t), required, ks, k);
  }

  lemma GutenbergRichterKeysDistinct(t: MfdType, ks: seq<SourceAttribute>)
    requires t == GutenbergRichter && ks == t.SetterKeys()
    ensures NoRepeats(ks) && TYPE !in ks
  {
    assert NoRepeats(ks[5..]);
    assert NoRepeats(ks[4..]);
    assert NoRepeats(ks[3..]);
    assert NoRepeats(ks[2..]);
    assert NoRepeats(ks[1..]);
  }

  lemma GutenbergRichterKeysCover(t: MfdType, ks: seq<SourceAttribute>)
    requires t == GutenbergRichter && ks == t.SetterKeys()
    ensures forall k | k in t.Required() && k != TYPE :: k in ks
  {
  }

  lemma GutenbergRichterSettersOnce(es: Attributes)
    requires Keys(es) == GutenbergRichter.SetterKeys()
    ensures BuildMfd(GutenbergRichter, es).Success?
  {
    var t := GutenbergRichter;
    GutenbergRichterKeysDistinct(t, t.SetterKeys());
    GutenbergRichterKeysCover(t, t.SetterKeys());
    DistinctCoveringKeysBuild(t, t.Required(), es, t.SetterKeys());
  }

  lemma SingleKeysDistinct(t: MfdType, ks: seq<SourceAttribute>)
    requires t == Single && ks == t.SetterKeys()
    ensures NoRepeats(ks) && TYPE !in ks
  {
    assert NoRepeats(ks[3..]);
    assert NoRepeats(ks[2..]);
    assert NoRepeats(ks[1..]);
  }

  lemma SingleKeysCover(t: MfdType, ks: seq<SourceAttribute>)
    requires t == Single && ks == t.SetterKeys()
    ensures forall k | k in t.Required() && k != TYPE :: k in ks
  {
  }

  lemma SingleSettersOnce(es: Attributes)
    requires Keys(es) == Single.SetterKeys()
    ensures BuildMfd(Single, es).Success?
  {
    var t := Single;
    SingleKeysDistinct(t, t.SetterKeys());
    SingleKeysCover(t, t.SetterKeys());
    DistinctCoveringKeysBuild(t, t.Required(), es, t.SetterKeys());
  }

  lemma IncrementalKeysDistinct(t: MfdType, ks: seq<SourceAttribute>)
    requires t == Incremental && ks == t.SetterKeys()
    ensures NoRepeats(ks) && TYPE !in ks
  {
    assert NoRepeats(ks[3..]);
    assert NoRepeats(ks[2..]);
    assert NoRepeats(ks[1..]);
  }

  lemma IncrementalSettersOnce(es: Attributes)
    requires Keys(es) == Incremental.SetterKeys()
    ensures BuildMfd(Incremental, es) == Failure(IllegalState)
  {
    var t := Incremental;
    IncrementalKeysDistinct(t, t.SetterKeys());
    IncrementalMissesWeights(t, t.Required(), t.SetterKeys());
    MissingKeyBuild(t, t.Required(), es, t.SetterKeys(), WEIGHTS);
  }

  lemma IncrementalMissesWeights(t: MfdType, required: set<SourceAttribute>, ks: seq<SourceAttribute>)
    requires t == Incremental && required == t.Required() && ks == t.SetterKeys()
    ensures WEIGHTS in required && WEIGHTS !in ks
  {
    NotInCons(WEIGHTS, WEIGHT, []);
    NotInCons(WEIGHTS, RATES, [WEIGHT]);
    NotInCons(WEIGHTS, MAGS, [RATES] + [WEIGHT]);
    NotInCons(WEIGHTS, FLOATS, [MAGS] + ([RATES] + [WEIGHT]));
    assert ks == [FLOATS] + ([MAGS] + ([RATES] + [WEIGHT]));
  }

  lemma TaperedSettersOnce(es: Attributes)
    requires Keys(es) == TaperedGutenbergRichter.SetterKeys()
    ensures BuildMfd(TaperedGutenbergRichter, es) == Failure(DuplicateKey)
  {
    assert es[0].0 == es[1].0;
    RepeatedKeyFails(TaperedGutenbergRichter, es);
  }

  /**
   * Each setter called exactly once, in declaration order: the
   * Gutenberg-Richter and single builds succeed; the incremental build
   * fails its check (WEIGHTS is missing) and the tapered build fails on the
   * duplicate A.
   */
  lemma EachSetterOnce(t: MfdType, es: Attributes)
    requires Keys(es) == t.SetterKeys()
    ensures t == GutenbergRichter || t == Single ==> BuildMfd(t, es).Success?
    ensures t == Incremental ==> BuildMfd(t, es) == Failure(IllegalState)
    ensures t == TaperedGutenbergRichter ==> BuildMfd(t, es) == Failure(DuplicateKey)
  {
    if t == GutenbergRichter {
      GutenbergRichterSettersOnce(es);
    } else if t == Single {
      SingleSettersOnce(es);
    } else if t == Incremental {
      IncrementalSettersOnce(es);
    } else {
      TaperedSettersOnce(es);
    }
  }

  lemma IntendedIncrementalKeysDistinct(t: MfdType, ks: seq<SourceAttribute>)
    requires t == Incremental && ks == t.IntendedSetterKeys()
    ensures NoRepeats(ks) && TYPE !in ks
  {
    assert NoRepeats(ks[3..]);
    assert NoRepeats(ks[2..]);
    assert NoRepeats(ks[1..]);
  }

  lemma IntendedIncrementalKeysCover(t: MfdType, ks: seq<SourceAttribute>)
    requires t == Incremental && ks == t.IntendedSetterKeys()
    ensures forall k | k in t.IntendedRequired() && k != TYPE :: k in ks
  {
  }

  lemma IntendedIncrementalSettersOnce(es: Attributes)
    requires Keys(es) == Incremental.IntendedSetterKeys()
    ensures IntendedBuild(Incremental, es).Success?
  {
    var t := Incremental;
    IntendedIncrementalKeysDistinct(t, t.IntendedSetterKeys());
    IntendedIncrementalKeysCover(t, t.IntendedSetterKeys());
    DistinctCoveringKeysBuild(t, t.IntendedRequired(), es, t.IntendedSetterKeys());
  }

  lemma IntendedTaperedKeysDistinct(t: MfdType, ks: seq<SourceAttribute>)
    requires t == TaperedGutenbergRichter && ks == t.IntendedSetterKeys()
    ensures NoRepeats(ks) && TYPE !in ks
  {
    var s7 := [WEIGHT];
    var s6 := [M_MIN] + s7;
    var s5 := [M_MAX] + s6;
    var s4 := [M_CUT] + s5;
    var s3 := [D_MAG] + s4;
    var s2 := [C_MAG] + s3;
    var s1 := [B] + s2;
    assert ks == [A] + s1;
    NotInCons(TYPE, WEIGHT, []);
    NotInCons(TYPE, M_MIN, s7);
    NotInCons(TYPE, M_MAX, s6);
    NotInCons(TYPE, M_CUT, s5);
    NotInCons(TYPE, D_MAG, s4);
    NotInCons(TYPE, C_MAG, s3);
    NotInCons(TYPE, B, s2);
    NotInCons(TYPE, A, s1);
    assert NoRepeats(s7);
    NotInCons(M_MIN, WEIGHT, []);
    NoRepeatsCons(M_MIN, s7);
    NotInCons(M_MAX, WEIGHT, []);
    NotInCons(M_MAX, M_MIN, s7);
    NoRepeatsCons(M_MAX, s6);
    NotInCons(M_CUT, WEIGHT, []);
    NotInCons(M_CUT, M_MIN, s7);
    NotInCons(M_CUT, M_MAX, s6);
    NoRepeatsCons(M_CUT, s5);
    NotInCons(D_MAG, WEIGHT, []);
    NotInCons(D_MAG, M_MIN, s7);
    NotInCons(D_MAG, M_MAX, s6);
    NotInCons(D_MAG, M_CUT, s5);
    NoRepeatsCons(D_MAG, s4);
    NotInCons(C_MAG, WEIGHT, []);
    NotInCons(C_MAG, M_MIN, s7);
    NotInCons(C_MAG, M_MAX, s6);
    NotInCons(C_MAG, M_CUT, s5);
    NotInCons(C_MAG, D_MAG, s4);
    NoRepeatsCons(C_MAG, s3);
    NotInCons(B, WEIGHT, []);
    NotInCons(B, M_MIN, s7);
    NotInCons(B, M_MAX, s6);
    NotInCons(B, M_CUT, s5);
    NotInCons(B, D_MAG, s4);
    NotInCons(B, C_MAG, s3);
    NoRepeatsCons(B, s2);
    NotInCons(A, WEIGHT, []);
    NotInCons(A, M_MIN, s7);
    NotInCons(A, M_MAX, s6);
    NotInCons(A, M_CUT, s5);
    NotInCons(A, D_MAG, s4);
    NotInCons(A, C_MAG, s3);
    NotInCons(A, B, s2);
    NoRepeatsCons(A, s1);
  }

  lemma IntendedTaperedKeysCover(t: MfdType, ks: seq<SourceAttribute>)
    requires t == TaperedGutenbergRichter && ks == t.IntendedSetterKeys()
    ensures forall k | k in t.IntendedRequired() && k != TYPE :: k in ks
  {
  }

  lemma IntendedTaperedSettersOnce(es: Attributes)
    requires Keys(es) == TaperedGutenbergRichter.IntendedSetterKeys()
    ensures IntendedBuild(TaperedGutenbergRichter, es).Success?
  {
    var t := TaperedGutenbergRichter;
    IntendedTaperedKeysDistinct(t, t.IntendedSetterKeys());
    IntendedTaperedKeysCover(t, t.IntendedSetterKeys());
    DistinctCoveringKeysBuild(t, t.IntendedRequired(), es, t.IntendedSetterKeys());
  }

  /** With the intended keys, every builder succeeds once each of its setters has been called once. */
  lemma IntendedEachSetterOnce(t: MfdType, es: Attributes)
    requires Keys(es) == t.IntendedSetterKeys()
    ensures IntendedBuild(t, es).Success?
  {
    if t == GutenbergRichter {
      GutenbergRichterSettersOnce(es);
    } else if t == Single {
      SingleSettersOnce(es);
    } else if t == Incremental {
      IntendedIncrementalSettersOnce(es);
    } else {
      IntendedTaperedSettersOnce(es);
    }
  }

  // ---------------------------------------------------------------------
  // The builders

  /** `DefaultMfd.GutenbergRichterMfd.Builder` */
  class GutenbergRichterBuilder {
    var attributes: Attributes
    const formats: Formats

    constructor (formats: Formats)
      ensures attributes == [] && this.formats == formats
    {
      attributes := [];
      this.formats := formats;
    }

    method SetA(a: real)
      modifies this
      ensures attributes == old(attributes) + [(A, formats.double(a))]
    {
      attributes := attributes + [(A, formats.double(a))];
    }

    method SetB(b: real)
      modifies this
      ensures attributes == old(attributes) + [(B, formats.double(b))]
    {
      attributes := attributes + [(B, formats.double(b))];
    }

    method DMag(dMag: real)
      modifies this
      ensures attributes == old(attributes) + [(D_MAG, formats.double(dMag))]
    {
      attributes := attributes + [(D_MAG, formats.double(dMag))];
    }

    method MMax(mMax: real)
      modifies this
      ensures attributes == old(attributes) + [(M_MAX, formats.double(mMax))]
    {
      attributes := attributes + [(M_MAX, formats.double(mMax))];
    }

    method MMin(mMin: real)
      modifies this
      ensures attributes == old(attributes) + [(M_MIN, formats.double(mMin))]
    {
      attributes := attributes + [(M_MIN, formats.double(mMin))];
    }

    method Weight(weight: real)
      modifies this
      ensures attributes == old(attributes) + [(WEIGHT, formats.double(weight))]
    {
      attributes := attributes + [(WEIGHT, formats.double(weight))];
    }

    method Build() returns (r: Result<DefaultMfd>)
      modifies this
      ensures attributes == old(attributes) + [TypeEntry(GutenbergRichter)]
      ensures r == BuildMfd(GutenbergRichter, old(attributes))
    {
      r := BuildMfd(GutenbergRichter, attributes);
      attributes := attributes + [TypeEntry(GutenbergRichter)];
    }
  }

  /** `DefaultMfd.IncrementalMfd.Builder` */
  class IncrementalBuilder {
    var attributes: Attributes
    const formats: Formats

    /** Only the setters' keys and TYPE are ever put. */
    ghost predicate Valid()
      reads this
    {
      forall i :: 0 <= i < |attributes| ==> attributes[i].0 in {FLOATS, MAGS, RATES, WEIGHT, TYPE}
    }

    constructor (formats: Formats)
      ensures attributes == [] && this.formats == formats && Valid()
    {
      attributes := [];
      this.formats := formats;
    }

    method Floats(floats: bool)
      requires Valid()
      modifies this
      ensures attributes == old(attributes) + [(FLOATS, BoolText(floats))] && Valid()
    {
      attributes := attributes + [(FLOATS, BoolText(floats))];
    }

    method Mags(mags: seq<real>)
      requires Valid()
      modifies this
      ensures attributes == old(attributes) + [(MAGS, formats.doubles(mags))] && Valid()
    {
      attributes := attributes + [(MAGS, formats.doubles(mags))];
    }

    method Rates(rates: seq<real>)
      requires Valid()
      modifies this
      ensures attributes == old(attributes) + [(RATES, formats.doubles(rates))] && Valid()
    {
      attributes := attributes + [(RATES, formats.doubles(rates))];
    }

    method Weight(weight: real)
      requires Valid()
      modifies this
      ensures attributes == old(attributes) + [(WEIGHT, formats.double(weight))] && Valid()
    {
      attributes := attributes + [(WEIGHT, formats.double(weight))];
    }

    /** Always fails; see `IncrementalNeverBuilds`. */
    method Build() returns (r: Result<DefaultMfd>)
      requires Valid()
      modifies this
      ensures attributes == old(attributes) + [TypeEntry(Incremental)] && Valid()
      ensures r == BuildMfd(Incremental, old(attributes)) && r.Failure?
    {
      IncrementalNeverBuilds(attributes);
      r := BuildMfd(Incremental, attributes);
      attributes := attributes + [TypeEntry(Incremental)];
    }
  }

  /** `DefaultMfd.SingleMfd.Builder` */
  class SingleBuilder {
    var attributes: Attributes
    const formats: Formats

    constructor (formats: Formats)
      ensures attributes == [] && this.formats == formats
    {
      attributes := [];
      this.formats := formats;
    }

    method Floats(floats: bool)
      modifies this
      ensures attributes == old(attributes) + [(FLOATS, BoolText(floats))]
    {
      attributes := attributes + [(FLOATS, BoolText(floats))];
    }

    method SetM(m: real)
      modifies this
      ensures attributes == old(attributes) + [(M, formats.double(m))]
    {
      attributes := attributes + [(M, formats.double(m))];
    }

    method Rate(rate: real)
      modifies this
      ensures attributes == old(attributes) + [(RATE, formats.double(rate))]
    {
      attributes := attributes + [(RATE, formats.double(rate))];
    }

    method Weight(weight: real)
      modifies this
      ensures attributes == old(attributes) + [(WEIGHT, formats.double(weight))]
    {
      attributes := attributes + [(WEIGHT, formats.double(weight))];
    }

    method Build() returns (r: Result<DefaultMfd>)
      modifies this
      ensures attributes == old(attributes) + [TypeEntry(Single)]
      ensures r == BuildMfd(Single, old(attributes))
    {
      r := BuildMfd(Single, attributes);
      attributes := attributes + [TypeEntry(Single)];
    }
  }

  /** `DefaultMfd.TaperedGutenbergRichterMfd.Builder` */
  class TaperedGutenbergRichterBuilder {
    var attributes: Attributes
    const formats: Formats

    /** Only the setters' keys and TYPE are ever put; B is not among them. */
    ghost predicate Valid()
      reads this
    {
      forall i :: 0 <= i < |attributes| ==>
        attributes[i].0 in {A, C_MAG, D_MAG, M_CUT, M_MAX, M_MIN, WEIGHT, TYPE}
    }

    constructor (formats: Formats)
      ensures attributes == [] && this.formats == formats && Valid()
    {
      attributes := [];
      this.formats := formats;
    }

    method SetA(a: real)
      requires Valid()
      modifies this
      ensures attributes == old(attributes) + [(A, formats.double(a))] && Valid()
    {
      attributes := attributes + [(A, formats.double(a))];
    }

    /** Puts its value under A, not B. */
    method SetB(b: real)
      requires Valid()
      modifies this
      ensures attributes == old(attributes) + [(A, formats.double(b))] && Valid()
    {
      attributes := attributes + [(A, formats.double(b))];
    }

    method CMag(cMag: real)
      requires Valid()
      modifies this
      ensures attributes == old(attributes) + [(C_MAG, formats.double(cMag))] && Valid()
    {
      attributes := attributes + [(C_MAG, formats.double(cMag))];
    }

    method DMag(dMag: real)
      requires Valid()
      modifies this
      ensures attributes == old(attributes) + [(D_MAG, formats.double(dMag))] && Valid()
    {
      attributes := attributes + [(D_MAG, formats.double(dMag))];
    }

    method MCut(mCut: real)
      requires Valid()
      modifies this
      ensures attributes == old(attributes) + [(M_CUT, formats.double(mCut))] && Valid()
    {
      attributes := attributes + [(M_CUT, formats.double(mCut))];
    }

    method MMax(mMax: real)
      requires Valid()
      modifies this
      ensures attributes == old(attributes) + [(M_MAX, formats.double(mMax))] && Valid()
    {
      attributes := attributes + [(M_MAX, formats.double(mMax))];
    }

    method MMin(mMin: real)
      requires Valid()
      modifies this
      ensures attributes == old(attributes) + [(M_MIN, formats.double(mMin))] && Valid()
    {
      attributes := attributes + [(M_MIN, formats.double(mMin))];
    }

    method Weight(weight: real)
      requires Valid()
      modifies this
      ensures attributes == old(attributes) + [(WEIGHT, formats.double(weight))] && Valid()
    {
      attributes := attributes + [(WEIGHT, formats.double(weight))];
    }

    /** Always fails; see `TaperedNeverBuilds`. */
    method Build() returns (r: Result<DefaultMfd>)
      requires Valid()
      modifies this
      ensures attributes == old(attributes) + [TypeEntry(TaperedGutenbergRichter)] && Valid()
      ensures r == BuildMfd(TaperedGutenbergRichter, old(attributes)) && r.Failure?
    {
      TaperedNeverBuilds(attributes);
      r := BuildMfd(TaperedGutenbergRichter, attributes);
      attributes := attributes + [TypeEntry(TaperedGutenbergRichter)];
    }
  }
}
