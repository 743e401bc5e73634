/**
 * Fault sources (`postgres/sources/FaultSource.java`): id and name as
 * attribute entries, plus a deformation model list and a geometry held
 * apart.
 */
module FaultSources {
  import opened Wrappers
  import opened AttributeMaps
  import opened SourceAttributes
  import opened ListBuilders
  import opened DeformationModels
  import opened SourceGeometries

  datatype FaultSource = FaultSource(
    attributes: Attributes, deformationModels: seq<DeformationModel>, geometry: FaultGeometry)

  /**
   * `validate()`, then `new FaultSource(this)`: the map must build and hold
   * ID and NAME; then the model list is read (null throws
   * NullPointerException, empty IllegalStateException), then the geometry's
   * trace.
   */
  function BuildSource(es: Attributes, models: Option<seq<DeformationModel>>, geometry: Option<FaultGeometry>): Result<FaultSource>
  {
    var m :- Validated(es, {ID, NAME});
    var c := PartCheck(models);
    if c.Fail? then Failure(c.error)
    else if geometry.None? then Failure(NullPointer)
    else if |geometry.value.trace| == 0 then Failure(IllegalState)
    else Success(FaultSource(m, models.value, geometry.value))
  }

  /**
   * A build succeeds exactly when id and name were each set once, the model
   * list is set and non-empty and the geometry is set with a non-empty
   * trace; models and geometry are stored unchanged.
   */
  lemma BuildSucceedsExactly(es: Attributes, models: Option<seq<DeformationModel>>, geometry: Option<FaultGeometry>)
    ensures BuildSource(es, models, geometry).Success? <==>
      DistinctKeys(es) && HasKey(es, ID) && HasKey(es, NAME) &&
      models.Some? && |models.value| > 0 && geometry.Some? && |geometry.value.trace| > 0
    ensures BuildSource(es, models, geometry).Success? ==>
      BuildSource(es, models, geometry).value == FaultSource(es, models.value, geometry.value)
    ensures DistinctKeys(es) && HasKey(es, ID) && HasKey(es, NAME) && (models.None? || (models.value != [] && geometry.None?)) ==>
      BuildSource(es, models, geometry) == Failure(NullPointer)
  {
  }

  /** Setting id then name once each is exactly what the attribute check needs. */
  lemma IdThenName(id: string, name: string, models: seq<DeformationModel>, geometry: FaultGeometry)
    requires |models| > 0 && |geometry.trace| > 0
    ensures BuildSource([(ID, id), (NAME, name)], Some(models), Some(geometry)) ==
      Success(FaultSource([(ID, id), (NAME, name)], models, geometry))
  {
    var es := [(ID, id), (NAME, name)];
    assert Keys(es) == [ID, NAME];
    assert es[0].0 != es[1].0;
    assert HasKey(es, ID) && HasKey(es, NAME) by {
      assert es[0].0 == ID && es[1].0 == NAME;
    }
  }

  /** `FaultSource.Builder` */
  class FaultSourceBuilder {
    var attributes: Attributes
    var deformationModels: Option<seq<DeformationModel>>
    var geometry: Option<FaultGeometry>

    constructor ()
      ensures attributes == [] && deformationModels == None && geometry == None
    {
      attributes, deformationModels, geometry := [], None, None;
    }

    method Id(id: string)
      modifies this
      ensures attributes == old(attributes) + [(ID, id)]
      ensures deformationModels == old(deformationModels) && geometry == old(geometry)
    {
      attributes := attributes + [(ID, id)];
    }

    method Name(name: string)
      modifies this
      ensures attributes == old(attributes) + [(NAME, name)]
      ensures deformationModels == old(deformationModels) && geometry == old(geometry)
    {
      attributes := attributes + [(NAME, name)];
    }

    method DeformationModels(models: seq<DeformationModel>)
      modifies this
      ensures deformationModels == Some(models) && attributes == old(attributes) && geometry == old(geometry)
    {
      deformationModels := Some(models);
    }

    method Geometry(g: FaultGeometry)
      modifies this
      ensures geometry == Some(g) && attributes == old(attributes) && deformationModels == old(deformationModels)
    {
      geometry := Some(g);
    }

    method Build() returns (r: Result<FaultSource>)
      ensures r == BuildSource(attributes, deformationModels, geometry)
    {
      r := BuildSource(attributes, deformationModels, geometry);
    }
  }
}
