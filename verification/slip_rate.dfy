/**
 * Slip rates (`postgres/SlipRate.java`): an id, a rake that passes the rake
 * check at construction, and a rate; and the three-slot builder.
 */
module SlipRates {
  import opened Wrappers
  import opened Externals

  /** The private `SlipModel` enum of this class. */
  datatype SlipModel = BIRD | GEO | ZENG

  datatype SlipRate = SlipRate(id: SlipModel, rake: real, rate: real)

  /** The private constructor: `checkRake` throws on a rake out of range. */
  function NewSlipRate(checks: Checks, id: SlipModel, rake: real, rate: real): (r: Result<SlipRate>)
    ensures r.Success? <==> checks.rake(rake)
    ensures r.Success? ==> r.value == SlipRate(id, rake, rate)
    ensures r.Failure? ==> r.error == IllegalArgument("rake")
  {
    if !checks.rake(rake) then Failure(IllegalArgument("rake")) else Success(SlipRate(id, rake, rate))
  }

  /** `build()` given the three slots: all must be set; the list is always bird, geo, zeng. */
  function BuildSlipRates(bird: Option<SlipRate>, geo: Option<SlipRate>, zeng: Option<SlipRate>): (r: Result<seq<SlipRate>>)
    ensures r.Success? <==> bird.Some? && geo.Some? && zeng.Some?
    ensures r.Success? ==> r.value == [bird.value, geo.value, zeng.value]
    ensures r.Failure? ==> r.error == IllegalState
  {
    if bird.None? || geo.None? || zeng.None? then Failure(IllegalState)
    else Success([bird.value, geo.value, zeng.value])
  }

  /** `SlipRate.Builder` */
  class SlipRateBuilder {
    var bird: Option<SlipRate>
    var geo: Option<SlipRate>
    var zeng: Option<SlipRate>
    const checks: Checks

    /** Every slot holds a slip rate of its own id whose rake passed the check. */
    ghost predicate Valid()
      reads this
    {
      (bird.Some? ==> bird.value.id == BIRD && checks.rake(bird.value.rake)) &&
      (geo.Some? ==> geo.value.id == GEO && checks.rake(geo.value.rake)) &&
      (zeng.Some? ==> zeng.value.id == ZENG && checks.rake(zeng.value.rake))
    }

    constructor (checks: Checks)
      ensures bird == None && geo == None && zeng == None && this.checks == checks && Valid()
    {
      bird, geo, zeng := None, None, None;
      this.checks := checks;
    }

    /** `bird(rake, rate)`: replaces the bird slot only. */
    method Bird(rake: real, rate: real) returns (r: Outcome)
      requires Valid()
      modifies this
      ensures Valid() && geo == old(geo) && zeng == old(zeng)
      ensures var s := NewSlipRate(checks, BIRD, rake, rate);
        if s.Success? then r == Pass && bird == Some(s.value) else r == Fail(s.error) && bird == old(bird)
    {
      var s := NewSlipRate(checks, BIRD, rake, rate);
      if s.Failure? {
        return Fail(s.error);
      }
      bird := Some(s.value);
      r := Pass;
    }

    /** `geo(rake, rate)`: replaces the geo slot only. */
    method Geo(rake: real, rate: real) returns (r: Outcome)
      requires Valid()
      modifies this
      ensures Valid() && bird == old(bird) && zeng == old(zeng)
      ensures var s := NewSlipRate(checks, GEO, rake, rate);
        if s.Success? then r == Pass && geo == Some(s.value) else r == Fail(s.error) && geo == old(geo)
    {
      var s := NewSlipRate(checks, GEO, rake, rate);
      if s.Failure? {
        return Fail(s.error);
      }
      geo := Some(s.value);
      r := Pass;
    }

    /** `zeng(rake, rate)`: replaces the zeng slot only. */
    method Zeng(rake: real, rate: real) returns (r: Outcome)
      requires Valid()
      modifies this
      ensures Valid() && bird == old(bird) && geo == old(geo)
      ensures var s := NewSlipRate(checks, ZENG, rake, rate);
        if s.Success? then r == Pass && zeng == Some(s.value) else r == Fail(s.error) && zeng == old(zeng)
    {
      var s := NewSlipRate(checks, ZENG, rake, rate);
      if s.Failure? {
        return Fail(s.error);
      }
      zeng := Some(s.value);
      r := Pass;
    }

    /** `build()`: whatever order the setters ran in, the list is bird, geo, zeng, and every rake passed the check. */
    method Build() returns (r: Result<seq<SlipRate>>)
      requires Valid()
      ensures r == BuildSlipRates(bird, geo, zeng)
      ensures r.Success? ==> |r.value| == 3 && r.value[0].id == BIRD && r.value[1].id == GEO && r.value[2].id == ZENG
      ensures r.Success? ==> forall i :: 0 <= i < 3 ==> checks.rake(r.value[i].rake)
    {
      if bird.None? || geo.None? || zeng.None? {
        return Failure(IllegalState);
      }
      r := Success([bird.value, geo.value, zeng.value]);
    }
  }
}
