/**
 * Magnitude uncertainty attribute sets
 * (`postgres/source_settings/MagUncertainty.java`; the legacy
 * `MagUncertainty.java` is the same code over the legacy attribute enum).
 * Each builder puts its entries one setter call at a time; `build()` puts
 * TYPE, the upper-camel name of ALEATORY or EPISTEMIC, and validates.
 */
module MagUncertainties {
  import opened Wrappers
  import opened CaseFormat
  import opened Externals
  import opened AttributeMaps
  import opened SourceAttributes

  type Attributes = Entries<SourceAttribute, string>

  datatype MagUncertainty = MagUncertainty(attributes: Attributes)

  datatype UncertaintyKind = Aleatory | Epistemic
  {
    /** The constant whose upper-camel name is the TYPE value. */
    function TypeConstant(): SourceAttribute
    {
      if this == Aleatory then ALEATORY else EPISTEMIC
    }

    /** The keys `validate()` requires. */
    function Required(): set<SourceAttribute>
    {
      if this == Aleatory then {COUNT, CUTOFF, MO_BALANCE, SIGMA, TYPE}
      else {CUTOFF, DELTAS, TYPE, WEIGHTS}
    }

    /** The key each setter writes, in declaration order. */
    function SetterKeys(): seq<SourceAttribute>
    {
      if this == Aleatory then [COUNT, CUTOFF, MO_BALANCE, SIGMA]
      else [CUTOFF, DELTAS, WEIGHTS]
    }
  }

  /** The entry `build()` puts last. */
  function TypeEntry(k: UncertaintyKind): (SourceAttribute, string)
  {
    (TYPE, k.TypeConstant().ToUpperCamelCase())
  }

  /** `build()` given the entries put so far. */
  function BuildUncertainty(k: UncertaintyKind, es: Attributes): Result<MagUncertainty>
  {
    var m :- Validated(es + [TypeEntry(k)], k.Required());
    Success(MagUncertainty(m))
  }

  // ---------------------------------------------------------------------
  // Lemmas

  lemma AleatoryCapitalized(w: string)
    requires w == "ALEATORY"
    ensures Capitalize(w) == "Aleatory"
  {
    assert Lower(w[1..]) == "leatory";
  }

  lemma EpistemicCapitalized(w: string)
    requires w == "EPISTEMIC"
    ensures Capitalize(w) == "Epistemic"
  {
    assert Lower(w[1..]) == "pistemic";
  }

  lemma OneWordCamel(w: string)
    requires '_' !in w
    ensures UpperCamel(w) == Capitalize(w)
  {
    WordsWithoutSeparator(w);
    assert CapitalizeAll([w]) == Capitalize(w) + CapitalizeAll([]);
  }

  /** The TYPE values are "Aleatory" and "Epistemic". */
  lemma TypeText(k: UncertaintyKind)
    ensures k == Aleatory ==> TypeEntry(k) == (TYPE, "Aleatory")
    ensures k == Epistemic ==> TypeEntry(k) == (TYPE, "Epistemic")
  {
    var w := k.TypeConstant().Name();
    if k == Aleatory {
      assert w == "ALEATORY";
      AleatoryCapitalized(w);
    } else {
      assert w == "EPISTEMIC";
      EpistemicCapitalized(w);
    }
    OneWordCamel(w);
  }

  /**
   * A build succeeds exactly when no key was put twice, TYPE was not put
   * before, and every setter's key was put; the entries keep call order and
   * TYPE comes last.
   */
  lemma BuildSucceedsExactly(k: UncertaintyKind, es: Attributes)
    ensures BuildUncertainty(k, es).Success? <==>
      DistinctKeys(es) && !HasKey(es, TYPE) && HasAll(es, k.Required() - {TYPE})
    ensures BuildUncertainty(k, es).Success? ==>
      BuildUncertainty(k, es).value.attributes == es + [TypeEntry(k)]
  {
    ValidatedAppend(es, TypeEntry(k), k.Required());
  }

  /** A repeated setter fails on the duplicate key. */
  lemma RepeatedKeyFails(k: UncertaintyKind, es: Attributes)
    requires !DistinctKeys(es)
    ensures BuildUncertainty(k, es) == Failure(DuplicateKey)
  {
    ValidatedAppend(es, TypeEntry(k), k.Required());
  }

  /** A second build sees the first build's TYPE and fails on the duplicate key. */
  lemma SecondBuildFails(k: UncertaintyKind, es: Attributes)
    ensures BuildUncertainty(k, es + [TypeEntry(k)]) == Failure(DuplicateKey)
  {
    var es' := es + [TypeEntry(k)];
    ValidatedAppend(es', TypeEntry(k), k.Required());
    assert es'[|es|].0 == TYPE;
  }

  lemma AleatoryKeys(k: UncertaintyKind, ks: seq<SourceAttribute>)
    requires k == Aleatory && ks == k.SetterKeys()
    ensures NoRepeats(ks) && TYPE !in ks
    ensures forall a | a in k.Required() && a != TYPE :: a in ks
  {
    assert NoRepeats(ks[3..]);
    assert NoRepeats(ks[2..]);
    assert NoRepeats(ks[1..]);
  }

  lemma EpistemicKeys(k: UncertaintyKind, ks: seq<SourceAttribute>)
    requires k == Epistemic && ks == k.SetterKeys()
    ensures NoRepeats(ks) && TYPE !in ks
    ensures forall a | a in k.Required() && a != TYPE :: a in ks
  {
    assert NoRepeats(ks[2..]);
    assert NoRepeats(ks[1..]);
  }

  /** Each setter called once, in declaration order: the build succeeds with those entries and TYPE last. */
  lemma EachSetterOnce(k: UncertaintyKind, es: Attributes)
    requires Keys(es) == k.SetterKeys()
    ensures BuildUncertainty(k, es) == Success(MagUncertainty(es + [TypeEntry(k)]))
  {
    if k == Aleatory {
      AleatoryKeys(k, k.SetterKeys());
    } else {
      EpistemicKeys(k, k.SetterKeys());
    }
    CoveringKeysValidate(es, TypeEntry(k), k.Required(), k.SetterKeys());
  }

  /** The epistemic build accepts deltas and weights of any lengths: they are never compared. */
  lemma EpistemicLengthsUnchecked(f: Formats, cutoff: real, deltas: seq<real>, weights: seq<real>)
    ensures BuildUncertainty(Epistemic,
      [(CUTOFF, f.double(cutoff)), (DELTAS, f.doubles(deltas)), (WEIGHTS, f.doubles(weights))]).Success?
  {
    var es := [(CUTOFF, f.double(cutoff)), (DELTAS, f.doubles(deltas)), (WEIGHTS, f.doubles(weights))];
    assert Keys(es) == Epistemic.SetterKeys();
    EachSetterOnce(Epistemic, es);
  }

  // ---------------------------------------------------------------------
  // The builders

  /** `MagUncertainty.Aleatory.Builder` */
  class AleatoryBuilder {
    var attributes: Attributes
    const formats: Formats

    constructor (formats: Formats)
      ensures attributes == [] && this.formats == formats
    {
      attributes := [];
      this.formats := formats;
    }

    method Count(count: int)
      modifies this
      ensures attributes == old(attributes) + [(COUNT, formats.integer(count))]
    {
      attributes := attributes + [(COUNT, formats.integer(count))];
    }

    method Cutoff(cutoff: real)
      modifies this
      ensures attributes == old(attributes) + [(CUTOFF, formats.double(cutoff))]
    {
      attributes := attributes + [(CUTOFF, formats.double(cutoff))];
    }

    method MoBalance(moBalance: bool)
      modifies this
      ensures attributes == old(attributes) + [(MO_BALANCE, BoolText(moBalance))]
    {
      attributes := attributes + [(MO_BALANCE, BoolText(moBalance))];
    }

    method Sigma(sigma: real)
      modifies this
      ensures attributes == old(attributes) + [(SIGMA, formats.double(sigma))]
    {
      attributes := attributes + [(SIGMA, formats.double(sigma))];
    }

    method Build() returns (r: Result<MagUncertainty>)
      modifies this
      ensures attributes == old(attributes) + [TypeEntry(Aleatory)]
      ensures r == BuildUncertainty(Aleatory, old(attributes))
    {
      attributes := attributes + [TypeEntry(Aleatory)];
      var m := Validated(attributes, Aleatory.Required());
      if m.Failure? {
        return Failure(m.error);
      }
      r := Success(MagUncertainty(m.value));
    }
  }

  /** `MagUncertainty.Epistemic.Builder` */
  class EpistemicBuilder {
    var attributes: Attributes
    const formats: Formats

    constructor (formats: Formats)
      ensures attributes == [] && this.formats == formats
    {
      attributes := [];
      this.formats := formats;
    }

    method Cutoff(cutoff: real)
      modifies this
      ensures attributes == old(attributes) + [(CUTOFF, formats.double(cutoff))]
    {
      attributes := attributes + [(CUTOFF, formats.double(cutoff))];
    }

    method Deltas(deltas: seq<real>)
      modifies this
      ensures attributes == old(attributes) + [(DELTAS, formats.doubles(deltas))]
    {
      attributes := attributes + [(DELTAS, formats.doubles(deltas))];
    }

    method Weights(weights: seq<real>)
      modifies this
      ensures attributes == old(attributes) + [(WEIGHTS, formats.doubles(weights))]
    {
      attributes := attributes + [(WEIGHTS, formats.doubles(weights))];
    }

    method Build() returns (r: Result<MagUncertainty>)
      modifies this
      ensures attributes == old(attributes) + [TypeEntry(Epistemic)]
      ensures r == BuildUncertainty(Epistemic, old(attributes))
    {
      attributes := attributes + [TypeEntry(Epistemic)];
      var m := Validated(attributes, Epistemic.Required());
      if m.Failure? {
        return Failure(m.error);
      }
      r := Success(MagUncertainty(m.value));
    }
  }
}
