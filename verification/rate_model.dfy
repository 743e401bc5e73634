/**
 * Rate models (`postgres/RateModel.java`): an id, a rate type, a nullable
 * value and a nullable rake that must pass the rake check when present; and
 * the append-only builder the exporters fill.
 */
module RateModels {
  import opened Wrappers
  import opened Externals

  /** The private `SlipModel` enum. */
  datatype SlipModel = A_PRIORI | BIRD | GEO | ZENG
  {
    /** `id()`: the constant's name. */
    function Name(): string
    {
      match this
      case A_PRIORI => "A_PRIORI"
      case BIRD => "BIRD"
      case GEO => "GEO"
      case ZENG => "ZENG"
    }
  }

  /** The three constants of the library's `RateType` the builder uses. */
  datatype RateType = PROBABILITY_OF_ACTIVITY | DISPLACEMENT | SLIP

  datatype RateModel = RateModel(id: SlipModel, rateType: RateType, value: Option<real>, rake: Option<real>)

  /** The private constructor: a present rake must pass `checkRake`, which throws otherwise. */
  function NewRateModel(checks: Checks, id: SlipModel, rateType: RateType, value: Option<real>, rake: Option<real>): (r: Result<RateModel>)
    ensures r.Success? <==> rake == None || checks.rake(rake.value)
    ensures r.Success? ==> r.value == RateModel(id, rateType, value, rake)
    ensures r.Failure? ==> r.error == IllegalArgument("rake")
  {
    if rake.Some? && !checks.rake(rake.value) then Failure(IllegalArgument("rake"))
    else Success(RateModel(id, rateType, value, rake))
  }

  /** Which builder call made a model. */
  datatype Call = APriori | Bird | Geo | Slip | Zeng
  {
    function Id(): SlipModel
    {
      match this
      case APriori => A_PRIORI
      case Bird => BIRD
      case Geo => GEO
      case Slip => GEO
      case Zeng => ZENG
    }

    function Type(): RateType
    {
      match this
      case APriori => PROBABILITY_OF_ACTIVITY
      case Slip => SLIP
      case _ => DISPLACEMENT
    }
  }

  /** The model a builder call appends. */
  function Made(checks: Checks, call: Call, rate: Option<real>, rake: Option<real>): Result<RateModel>
  {
    NewRateModel(checks, call.Id(), call.Type(), rate, rake)
  }

  /**
   * The ids and types of the builder calls: aPriori is A_PRIORI with
   * probability of activity; bird, geo and zeng are displacement models of
   * their own id; slip is a GEO slip model.
   */
  lemma CallsMake(checks: Checks, call: Call, rate: Option<real>, rake: Option<real>)
    requires rake == None || checks.rake(rake.value)
    ensures call == APriori ==> Made(checks, call, rate, rake) == Success(RateModel(A_PRIORI, PROBABILITY_OF_ACTIVITY, rate, rake))
    ensures call == Bird ==> Made(checks, call, rate, rake) == Success(RateModel(BIRD, DISPLACEMENT, rate, rake))
    ensures call == Geo ==> Made(checks, call, rate, rake) == Success(RateModel(GEO, DISPLACEMENT, rate, rake))
    ensures call == Zeng ==> Made(checks, call, rate, rake) == Success(RateModel(ZENG, DISPLACEMENT, rate, rake))
    ensures call == Slip ==> Made(checks, call, rate, rake) == Success(RateModel(GEO, SLIP, rate, rake))
  {
  }

  /** `RateModel.Builder` */
  class RateModelBuilder {
    var rateModels: seq<RateModel>
    const checks: Checks

    constructor (checks: Checks)
      ensures rateModels == [] && this.checks == checks
    {
      rateModels := [];
      this.checks := checks;
    }

    /**
     * One builder call (`aPriori`, `bird`, `geo`, `slip` or `zeng`): appends
     * the model it makes, or throws and appends nothing.
     */
    method Add(call: Call, rate: Option<real>, rake: Option<real>) returns (r: Outcome)
      modifies this
      ensures var m := Made(checks, call, rate, rake);
        if m.Success? then r == Pass && rateModels == old(rateModels) + [m.value]
        else r == Fail(m.error) && rateModels == old(rateModels)
    {
      var m := NewRateModel(checks, call.Id(), call.Type(), rate, rake);
      if m.Failure? {
        return Fail(m.error);
      }
      rateModels := rateModels + [m.value];
      r := Pass;
    }

    /** `build()`: the models in call order (empty when nothing was added). */
    method Build() returns (r: seq<RateModel>)
      ensures r == rateModels
    {
      r := rateModels;
    }
  }
}
