/**
 * Source property attribute sets
 * (`postgres/source_settings/SourcePropertyAttributes.java`). Area, Grid and
 * Slab builders share four setters and require all four keys; Cluster,
 * Interface and Fault builders have no setters and build an empty map;
 * the System builder has no build operation.
 */
module SourceProperties {
  import opened Wrappers
  import opened Externals
  import opened AttributeMaps
  import opened SourceAttributes

  type Attributes = Entries<SourceAttribute, string>

  datatype SourcePropertyAttributes = SourcePropertyAttributes(attributes: Attributes)

  datatype SourceKind = Area | Cluster | Fault | Grid | Interface | Slab | System
  {
    /** The kinds with the magDepthMap, maxDepth, focalMechMap and strike setters. */
    predicate Gridded()
    {
      this == Area || this == Grid || this == Slab
    }

    /** The keys `validate()` requires (none for the kinds whose `validate()` is empty or skipped). */
    function Required(): set<SourceAttribute>
    {
      if Gridded() then {MAG_DEPTH_MAP, MAX_DEPTH, FOCAL_MECH_MAP, STRIKE} else {}
    }
  }

  /** The setters' keys, in declaration order. */
  const GriddedKeys: seq<SourceAttribute> := [MAG_DEPTH_MAP, MAX_DEPTH, FOCAL_MECH_MAP, STRIKE]

  /** `build()` of every kind but System, given the entries put so far. */
  function BuildProperties(kind: SourceKind, es: Attributes): Result<SourcePropertyAttributes>
    requires kind != System
  {
    var m :- Validated(es, kind.Required());
    Success(SourcePropertyAttributes(m))
  }

  // ---------------------------------------------------------------------
  // Lemmas

  /**
   * An Area, Grid or Slab build succeeds exactly when no setter was called
   * twice and all four were called; the map keeps call order.
   */
  lemma GriddedBuildExactly(kind: SourceKind, es: Attributes)
    requires kind.Gridded()
    ensures BuildProperties(kind, es).Success? <==>
      DistinctKeys(es) && HasAll(es, {MAG_DEPTH_MAP, MAX_DEPTH, FOCAL_MECH_MAP, STRIKE})
    ensures BuildProperties(kind, es).Success? ==> BuildProperties(kind, es).value.attributes == es
    ensures !DistinctKeys(es) ==> BuildProperties(kind, es) == Failure(DuplicateKey)
  {
  }

  /** Cluster, Interface and Fault builders have no setters: their build yields the empty map. */
  lemma UngriddedBuildsEmpty(kind: SourceKind)
    requires kind != System && !kind.Gridded()
    ensures BuildProperties(kind, []) == Success(SourcePropertyAttributes([]))
  {
    assert HasAll<SourceAttribute, string>([], {});
  }

  lemma GriddedKeysFacts(ks: seq<SourceAttribute>)
    requires ks == GriddedKeys
    ensures NoRepeats(ks)
    ensures forall k | k in Area.Required() :: k in ks
  {
    assert NoRepeats(ks[3..]);
    assert NoRepeats(ks[2..]);
    assert NoRepeats(ks[1..]);
  }

  /** Each of the four setters called once, in declaration order: the build succeeds. */
  lemma EachSetterOnce(kind: SourceKind, es: Attributes)
    requires kind.Gridded() && Keys(es) == GriddedKeys
    ensures BuildProperties(kind, es) == Success(SourcePropertyAttributes(es))
  {
    GriddedKeysFacts(GriddedKeys);
    assert kind.Required() == Area.Required();
    CoveringKeysValid(es, kind.Required(), GriddedKeys);
  }

  // ---------------------------------------------------------------------
  // The builder

  /** `SourcePropertyAttributes.<Kind>.Builder` */
  class SourcePropertiesBuilder {
    const kind: SourceKind
    var attributes: Attributes
    const formats: Formats

    /** Only the gridded kinds can put anything. */
    ghost predicate Valid()
      reads this
    {
      !kind.Gridded() ==> attributes == []
    }

    constructor (kind: SourceKind, formats: Formats)
      ensures this.kind == kind && attributes == [] && this.formats == formats && Valid()
    {
      this.kind := kind;
      attributes := [];
      this.formats := formats;
    }

    method MagDepthMap(magDepthMap: string)
      requires kind.Gridded()
      modifies this
      ensures attributes == old(attributes) + [(MAG_DEPTH_MAP, magDepthMap)]
    {
      attributes := attributes + [(MAG_DEPTH_MAP, magDepthMap)];
    }

    method MaxDepth(maxDepth: real)
      requires kind.Gridded()
      modifies this
      ensures attributes == old(attributes) + [(MAX_DEPTH, formats.double(maxDepth))]
    {
      attributes := attributes + [(MAX_DEPTH, formats.double(maxDepth))];
    }

    method FocalMechMap(focalMechMap: string)
      requires kind.Gridded()
      modifies this
      ensures attributes == old(attributes) + [(FOCAL_MECH_MAP, focalMechMap)]
    {
      attributes := attributes + [(FOCAL_MECH_MAP, focalMechMap)];
    }

    method Strike(strike: real)
      requires kind.Gridded()
      modifies this
      ensures attributes == old(attributes) + [(STRIKE, formats.double(strike))]
    {
      attributes := attributes + [(STRIKE, formats.double(strike))];
    }

    /** Leaves the builder as it was; the kinds without setters always succeed with the empty map. */
    method Build() returns (r: Result<SourcePropertyAttributes>)
      requires kind != System && Valid()
      ensures r == BuildProperties(kind, attributes)
      ensures !kind.Gridded() ==> r == Success(SourcePropertyAttributes([]))
    {
      if !kind.Gridded() {
        UngriddedBuildsEmpty(kind);
      }
      var m := Validated(attributes, kind.Required());
      if m.Failure? {
        return Failure(m.error);
      }
      r := Success(SourcePropertyAttributes(m.value));
    }
  }
}
