/**
 * A deformation model's (id, rate) pair
 * (`postgres/source_settings/DeformationModel.java`): the id must be BIRD,
 * GEO or ZENG and is kept as its upper-case name; the rate is kept as text.
 */
module DeformationModels {
  import opened Wrappers
  import opened Externals
  import opened CaseFormat
  import opened SourceAttributes

  datatype DeformationModel = DeformationModel(id: string, rate: string)

  predicate Accepted(id: SourceAttribute)
  {
    id == BIRD || id == GEO || id == ZENG
  }

  /** `new DeformationModel(id, rate)` */
  function NewDeformationModel(f: Formats, id: SourceAttribute, rate: real): (r: Result<DeformationModel>)
    ensures r.Success? <==> Accepted(id)
    ensures r.Failure? ==> r.error == IllegalState
    ensures r.Success? ==> r.value.id == id.Name() && r.value.rate == f.double(rate)
  {
    if !Accepted(id) then Failure(IllegalState)
    else
      UpperCaseIsName(id);
      Success(DeformationModel(id.ToUpperCase(), f.double(rate)))
  }

  /** `DeformationModel.bird(rate)` */
  function Bird(f: Formats, rate: real): (r: DeformationModel)
  {
    NewDeformationModel(f, BIRD, rate).value
  }

  /** `DeformationModel.geo(rate)` */
  function Geo(f: Formats, rate: real): (r: DeformationModel)
  {
    NewDeformationModel(f, GEO, rate).value
  }

  /** `DeformationModel.zeng(rate)` */
  function Zeng(f: Formats, rate: real): (r: DeformationModel)
  {
    NewDeformationModel(f, ZENG, rate).value
  }

  /** The factories never throw and write the ids "BIRD", "GEO" and "ZENG". */
  lemma FactoryIds(f: Formats, rate: real)
    ensures Bird(f, rate) == DeformationModel("BIRD", f.double(rate))
    ensures Geo(f, rate) == DeformationModel("GEO", f.double(rate))
    ensures Zeng(f, rate) == DeformationModel("ZENG", f.double(rate))
  {
    assert BIRD.Name() == "BIRD";
    assert GEO.Name() == "GEO";
    assert ZENG.Name() == "ZENG";
  }

  /** Distinct accepted ids give distinct id texts, so a deformation model's id names its constant. */
  lemma IdsIdentifyModels(f: Formats, a: SourceAttribute, b: SourceAttribute, x: real, y: real)
    requires Accepted(a) && Accepted(b) && a != b
    ensures NewDeformationModel(f, a, x).value.id != NewDeformationModel(f, b, y).value.id
  {
    if a.Name() == b.Name() {
      NameInjective(a, b);
    }
  }
}
