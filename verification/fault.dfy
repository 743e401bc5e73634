/**
 * Faults and their builders (`postgres/Fault.java`). The unchecked builder
 * assigns nullable fields and refuses to build twice or with a field unset;
 * the checked builder passes each value through the earthquake library's
 * checks before storing it. Both are one class here, told apart by
 * `checked`.
 */
module Faults {
  import opened Wrappers
  import opened Externals
  import opened SlipRates

  /** A built fault: the builder's values at build time. */
  datatype Fault = Fault(
    name: string, id: int, trace: seq<Location>, slipRates: seq<SlipRate>,
    depth: real, dip: real, width: real)

  /** The builder's fields. */
  datatype Fields = Fields(
    name: Option<string>, id: Option<int>, trace: Option<seq<Location>>,
    slipRates: seq<SlipRate>, depth: Option<real>, dip: Option<real>,
    width: Option<real>, built: bool)

  const Fresh := Fields(None, None, None, [], None, None, None, false)

  /** `validateState()`, then `new Fault(this)`. */
  function BuildFault(s: Fields): (r: Result<Fault>)
  {
    if s.built || s.depth.None? || s.dip.None? || s.id.None? || s.name.None? || s.trace.None? || s.width.None?
    then Failure(IllegalState)
    else Success(Fault(s.name.value, s.id.value, s.trace.value, s.slipRates, s.depth.value, s.dip.value, s.width.value))
  }

  /** Every check the checked builder applies holds of the stored values. */
  ghost predicate Checked(checks: Checks, s: Fields)
  {
    (s.depth.Some? ==> checks.crustalDepth(s.depth.value)) &&
    (s.dip.Some? ==> checks.dip(s.dip.value)) &&
    (s.name.Some? ==> checks.name(s.name.value)) &&
    (s.trace.Some? ==> checks.trace(s.trace.value)) &&
    (s.width.Some? ==> checks.crustalWidth(s.width.value)) &&
    (forall i :: 0 <= i < |s.slipRates| ==> checks.rake(s.slipRates[i].rake))
  }

  /**
   * A build succeeds exactly on a builder not yet built whose depth, dip,
   * id, name, trace and width are set (the slip rates may stay empty); the
   * fault's accessors return the builder's values.
   */
  lemma BuildSucceedsExactly(s: Fields)
    ensures BuildFault(s).Success? <==>
      !s.built && s.depth.Some? && s.dip.Some? && s.id.Some? && s.name.Some? && s.trace.Some? && s.width.Some?
    ensures BuildFault(s).Success? ==>
      var f := BuildFault(s).value;
      Some(f.name) == s.name && Some(f.id) == s.id && Some(f.trace) == s.trace &&
      f.slipRates == s.slipRates && Some(f.depth) == s.depth && Some(f.dip) == s.dip && Some(f.width) == s.width
    ensures BuildFault(s).Failure? ==> BuildFault(s).error == IllegalState
  {
  }

  /** Once built, the same fields never build again. */
  lemma SecondBuildFails(s: Fields)
    ensures BuildFault(s.(built := true)) == Failure(IllegalState)
  {
  }

  /** A fault built from checked fields passes every check. */
  lemma CheckedFaultPasses(checks: Checks, s: Fields)
    requires Checked(checks, s) && BuildFault(s).Success?
    ensures var f := BuildFault(s).value;
      checks.crustalDepth(f.depth) && checks.dip(f.dip) && checks.name(f.name) &&
      checks.trace(f.trace) && checks.crustalWidth(f.width) &&
      forall i :: 0 <= i < |f.slipRates| ==> checks.rake(f.slipRates[i].rake)
  {
  }

  /** The index of the first slip rate whose rake fails the check, or the count when none does. */
  function FirstBadRake(checks: Checks, rates: seq<SlipRate>): (k: nat)
    ensures k <= |rates|
    ensures forall i :: 0 <= i < k ==> checks.rake(rates[i].rake)
    ensures k < |rates| ==> !checks.rake(rates[k].rake)
  {
    if rates == [] then 0
    else if !checks.rake(rates[0].rake) then 0
    else 1 + FirstBadRake(checks, rates[1..])
  }

  /** `Fault.Builder` (checked) and `Fault.UncheckedBuilder`. */
  class FaultBuilder {
    const checked: bool
    const checks: Checks
    var name: Option<string>
    var id: Option<int>
    var trace: Option<seq<Location>>
    var slipRates: seq<SlipRate>
    var depth: Option<real>
    var dip: Option<real>
    var width: Option<real>
    var built: bool

    function State(): Fields
      reads this
    {
      Fields(name, id, trace, slipRates, depth, dip, width, built)
    }

    /** A checked builder has stored only values that pass the checks. */
    ghost predicate Valid()
      reads this
    {
      checked ==> Checked(checks, State())
    }

    constructor (checked: bool, checks: Checks)
      ensures this.checked == checked && this.checks == checks && State() == Fresh && Valid()
    {
      this.checked := checked;
      this.checks := checks;
      name, id, trace, slipRates := None, None, None, [];
      depth, dip, width, built := None, None, None, false;
    }

    /** `depth(d)`: checked by `checkCrustalDepth`. */
    method Depth(d: real) returns (r: Outcome)
      requires Valid()
      modifies this
      ensures Valid()
      ensures if checked && !checks.crustalDepth(d)
        then r == Fail(IllegalArgument("depth")) && State() == old(State())
        else r == Pass && State() == old(State()).(depth := Some(d))
    {
      if checked && !checks.crustalDepth(d) {
        return Fail(IllegalArgument("depth"));
      }
      depth := Some(d);
      r := Pass;
    }

    /** `dip(d)`: checked by `checkDip`. */
    method Dip(d: real) returns (r: Outcome)
      requires Valid()
      modifies this
      ensures Valid()
      ensures if checked && !checks.dip(d)
        then r == Fail(IllegalArgument("dip")) && State() == old(State())
        else r == Pass && State() == old(State()).(dip := Some(d))
    {
      if checked && !checks.dip(d) {
        return Fail(IllegalArgument("dip"));
      }
      dip := Some(d);
      r := Pass;
    }

    /** `id(i)`: never checked. */
    method Id(i: int)
      requires Valid()
      modifies this
      ensures Valid() && State() == old(State()).(id := Some(i))
    {
      id := Some(i);
    }

    /** `name(n)`: checked by `validateName`. */
    method Name(n: string) returns (r: Outcome)
      requires Valid()
      modifies this
      ensures Valid()
      ensures if checked && !checks.name(n)
        then r == Fail(IllegalArgument("name")) && State() == old(State())
        else r == Pass && State() == old(State()).(name := Some(n))
    {
      if checked && !checks.name(n) {
        return Fail(IllegalArgument("name"));
      }
      name := Some(n);
      r := Pass;
    }

    /**
     * `slipRates(list)`: stores a copy of the list; the checked builder
     * first rake-checks every entry in order and throws at the first that
     * fails.
     */
    method SetSlipRates(rates: seq<SlipRate>) returns (r: Outcome)
      requires Valid()
      modifies this
      ensures Valid()
      ensures if checked && FirstBadRake(checks, rates) < |rates|
        then r == Fail(IllegalArgument("rake")) && State() == old(State())
        else r == Pass && State() == old(State()).(slipRates := rates)
    {
      if checked {
        var i := 0;
        while i < |rates|
          invariant 0 <= i <= |rates|
          invariant forall j :: 0 <= j < i ==> checks.rake(rates[j].rake)
        {
          if !checks.rake(rates[i].rake) {
            return Fail(IllegalArgument("rake"));
          }
          i := i + 1;
        }
      }
      slipRates := rates;
      r := Pass;
    }

    /** `trace(t)`: checked by `checkTrace`. */
    method Trace(t: seq<Location>) returns (r: Outcome)
      requires Valid()
      modifies this
      ensures Valid()
      ensures if checked && !checks.trace(t)
        then r == Fail(IllegalArgument("trace")) && State() == old(State())
        else r == Pass && State() == old(State()).(trace := Some(t))
    {
      if checked && !checks.trace(t) {
        return Fail(IllegalArgument("trace"));
      }
      trace := Some(t);
      r := Pass;
    }

    /** `width(w)`: checked by `checkCrustalWidth`. */
    method Width(w: real) returns (r: Outcome)
      requires Valid()
      modifies this
      ensures Valid()
      ensures if checked && !checks.crustalWidth(w)
        then r == Fail(IllegalArgument("width")) && State() == old(State())
        else r == Pass && State() == old(State()).(width := Some(w))
    {
      if checked && !checks.crustalWidth(w) {
        return Fail(IllegalArgument("width"));
      }
      width := Some(w);
      r := Pass;
    }

    /** `build()`: on success the builder is marked built, so it never builds again. */
    method Build() returns (r: Result<Fault>)
      requires Valid()
      modifies this
      ensures Valid()
      ensures r == BuildFault(old(State()))
      ensures State() == old(State()).(built := old(built) || r.Success?)
    {
      r := BuildFault(State());
      if r.Success? {
        built := true;
      }
    }
  }

  /** What `fromFeature` reads from a GeoJSON feature. */
  datatype Feature = Feature(
    depth: real, dip: real, id: int, title: string,
    slipRates: seq<SlipRate>, border: seq<Location>, width: real)

  /** The error of the first setter of `fromFeature` that throws, in call order. */
  function FeatureError(checks: Checks, f: Feature): Option<Error>
  {
    if !checks.crustalDepth(f.depth) then Some(IllegalArgument("depth"))
    else if !checks.dip(f.dip) then Some(IllegalArgument("dip"))
    else if !checks.name(f.title) then Some(IllegalArgument("name"))
    else if FirstBadRake(checks, f.slipRates) < |f.slipRates| then Some(IllegalArgument("rake"))
    else if !checks.trace(f.border) then Some(IllegalArgument("trace"))
    else if !checks.crustalWidth(f.width) then Some(IllegalArgument("width"))
    else None
  }

  /** The fault a feature describes. */
  function FeatureFault(f: Feature): Fault
  {
    Fault(f.title, f.id, f.border, f.slipRates, f.depth, f.dip, f.width)
  }

  /**
   * `Builder.fromFeature` (checked) or `UncheckedBuilder.fromFeature`,
   * as the builder kind says.
   */
  method FromFeature(checked: bool, checks: Checks, f: Feature) returns (r: Result<Fault>)
    ensures !checked ==> r == Success(FeatureFault(f))
    ensures checked ==> r == (if FeatureError(checks, f).Some? then Failure(FeatureError(checks, f).value) else Success(FeatureFault(f)))
  {
    if checked {
      r := CheckedFromFeature(checks, f);
    } else {
      r := UncheckedFromFeature(checks, f);
    }
  }

  /** `UncheckedBuilder.fromFeature`: every setter once, in order, then build; it always yields the feature's fault. */
  method UncheckedFromFeature(checks: Checks, f: Feature) returns (r: Result<Fault>)
    ensures r == Success(FeatureFault(f))
  {
    var b := new FaultBuilder(false, checks);
    var _ := b.Depth(f.depth);
    var _ := b.Dip(f.dip);
    b.Id(f.id);
    var _ := b.Name(f.title);
    var _ := b.SetSlipRates(f.slipRates);
    var _ := b.Trace(f.border);
    var _ := b.Width(f.width);
    r := b.Build();
  }

  /** `Builder.fromFeature`: the same calls, failing at the first check that fails. */
  method CheckedFromFeature(checks: Checks, f: Feature) returns (r: Result<Fault>)
    ensures r == (if FeatureError(checks, f).Some? then Failure(FeatureError(checks, f).value) else Success(FeatureFault(f)))
  {
    var b := new FaultBuilder(true, checks);
    var o := b.Depth(f.depth);
    if o.Fail? { return Failure(o.error); }
    o := b.Dip(f.dip);
    if o.Fail? { return Failure(o.error); }
    b.Id(f.id);
    o := b.Name(f.title);
    if o.Fail? { return Failure(o.error); }
    o := b.SetSlipRates(f.slipRates);
    if o.Fail? { return Failure(o.error); }
    o := b.Trace(f.border);
    if o.Fail? { return Failure(o.error); }
    o := b.Width(f.width);
    if o.Fail? { return Failure(o.error); }
    r := b.Build();
  }
}
