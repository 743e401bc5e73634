/**
 * The element tree `postgres/sources/FaultXMLExporter.writeXML` builds for a
 * fault source set, and the file it goes to. Creating the output directory
 * and serialising the tree are left out. Element and attribute names are
 * the Xml constants, each proved equal to the constant's conversion the
 * exporter spells (`SETTINGS.toUpperCamelCase()`, `ID.toLowerCase()`, ...).
 */
module FaultXmlExporter {
  import opened Wrappers
  import opened Externals
  import opened AttributeMaps
  import opened SourceAttributes
  import opened DefaultMfds
  import opened MagUncertainties
  import opened DeformationModels
  import opened SourceGeometries
  import opened FaultSources
  import opened FaultSourceSets
  import opened Xml

  /** A rupture scaling model: a Model element with only an id attribute. */
  function ScalingElement(f: Formats, m: RuptureScaling): Node
  {
    Element("Model", [(ID_ATTR, f.scaling(m))], [])
  }

  /** SourceProperties holding RuptureScalingModels, one Model per scaling model in order. */
  function PropertiesElement(f: Formats, models: seq<RuptureScaling>): Node
  {
    Element(SOURCE_PROPERTIES_TAG, [],
      [Element(RUPTURE_SCALING_MODELS_TAG, [],
        seq(|models|, i requires 0 <= i < |models| => ScalingElement(f, models[i])))])
  }

  /** Settings: the default MFDs, the magnitude uncertainties, the source properties. */
  function SettingsElement(f: Formats, sourceSet: FaultSourceSet): Result<Node>
  {
    var uncertainties :- UncertaintiesElement(sourceSet.magUncertainties);
    Success(Element(SETTINGS_TAG, [],
      [MfdsElement(sourceSet.defaultMfds), uncertainties, PropertiesElement(f, sourceSet.ruptureScalingModels)]))
  }

  /** A deformation model: id then rate. */
  function DeformationElement(d: DeformationModel): Node
  {
    Element(DEFORMATION_MODEL_TAG, [(ID_ATTR, d.id), (RATE_ATTR, d.rate)], [])
  }

  /** The geometry: its entries as attributes and one Trace holding the trace's text. */
  function GeometryElement(f: Formats, g: FaultGeometry): Node
  {
    Element(GEOMETRY_TAG, Copied(g.attributes, None), [Element(TRACE_TAG, [], [TextNode(f.trace(g.trace))])])
  }

  /** A source: its entries as attributes, its deformation models in order, then its geometry. */
  function SourceElement(f: Formats, s: FaultSource): Node
  {
    Element(SOURCE_TAG, Copied(s.attributes, None),
      seq(|s.deformationModels|, i requires 0 <= i < |s.deformationModels| => DeformationElement(s.deformationModels[i]))
      + [GeometryElement(f, s.geometry)])
  }

  /** The document: the root named by the set's type, then the disclaimer, settings and sources. */
  function SourceSetDocument(f: Formats, sourceSet: FaultSourceSet, outputDir: string, file: string): Result<Document>
  {
    var settings :- SettingsElement(f, sourceSet);
    var sources := seq(|sourceSet.sources|, i requires 0 <= i < |sourceSet.sources| => SourceElement(f, sourceSet.sources[i]));
    Success(Document(OutputPath(outputDir, file),
      Element(FAULT_SOURCE_SET_TAG, Copied(sourceSet.attributes, None), [Comment(DISCLAIMER), settings] + sources)))
  }

  /** Setting id then rate on a new element gives the two attributes in that order. */
  lemma IdRateAttributes(id: string, rate: string, a: Attrs)
    requires a == SetAttribute([], ID_ATTR, id)
    ensures SetAttribute(a, RATE_ATTR, rate) == [(ID_ATTR, id), (RATE_ATTR, rate)]
  {
    assert a == [(ID_ATTR, id)];
    assert Lookup(a, RATE_ATTR).None?;
  }

  /** The loop over the rupture scaling models. */
  method WriteProperties(f: Formats, models: seq<RuptureScaling>) returns (e: Node)
    ensures e == PropertiesElement(f, models)
  {
    var children: seq<Node> := [];
    for i := 0 to |models|
      invariant |children| == i
      invariant forall k :: 0 <= k < i ==> children[k] == ScalingElement(f, models[k])
    {
      var attrs := SetAttribute([], ID_ATTR, f.scaling(models[i]));
      children := children + [Element("Model", attrs, [])];
    }
    var rupture := Element(RUPTURE_SCALING_MODELS_TAG, [], children);
    e := Element(SOURCE_PROPERTIES_TAG, [], [rupture]);
    assert children == PropertiesElement(f, models).children[0].children;
  }

  /** The deformation model loop of one source. */
  method WriteDeformations(ms: seq<DeformationModel>) returns (children: seq<Node>)
    ensures |children| == |ms|
    ensures forall k :: 0 <= k < |ms| ==> children[k] == DeformationElement(ms[k])
  {
    children := [];
    for i := 0 to |ms|
      invariant |children| == i
      invariant forall k :: 0 <= k < i ==> children[k] == DeformationElement(ms[k])
    {
      var idOnly := SetAttribute([], ID_ATTR, ms[i].id);
      var rate := SetAttribute(idOnly, RATE_ATTR, ms[i].rate);
      IdRateAttributes(ms[i].id, ms[i].rate, idOnly);
      children := children + [Element(DEFORMATION_MODEL_TAG, rate, [])];
    }
  }

  /** One pass of the loop over the sources. */
  method WriteSource(f: Formats, s: FaultSource) returns (e: Node)
    ensures e == SourceElement(f, s)
  {
    var attrs := CopyAttributes(s.attributes, None);
    var children := WriteDeformations(s.deformationModels);
    var geometryAttrs := CopyAttributes(s.geometry.attributes, None);
    var trace := Element(TRACE_TAG, [], [TextNode(f.trace(s.geometry.trace))]);
    var geometry := Element(GEOMETRY_TAG, geometryAttrs, [trace]);
    e := Element(SOURCE_TAG, attrs, children + [geometry]);
    assert children + [geometry] == SourceElement(f, s).children;
  }

  /** The loop over the sources. */
  method WriteSources(f: Formats, sources: seq<FaultSource>) returns (children: seq<Node>)
    ensures |children| == |sources|
    ensures forall k :: 0 <= k < |sources| ==> children[k] == SourceElement(f, sources[k])
  {
    children := [];
    for i := 0 to |sources|
      invariant |children| == i
      invariant forall k :: 0 <= k < i ==> children[k] == SourceElement(f, sources[k])
    {
      var source := WriteSource(f, sources[i]);
      children := children + [source];
    }
  }

  /** `writeXML(sourceSet, outputDir, fileOuput)`, up to the serialisation. */
  method WriteXml(f: Formats, sourceSet: FaultSourceSet, outputDir: string, file: string) returns (r: Result<Document>)
    ensures r == SourceSetDocument(f, sourceSet, outputDir, file)
  {
    var dir := MAIN_OUTPUT_DIR + "/" + outputDir + "/";
    var rootAttrs := CopyAttributes(sourceSet.attributes, None);
    var mfds := WriteMfds(sourceSet.defaultMfds);
    var uncertainties := WriteUncertainties(sourceSet.magUncertainties);
    if uncertainties.Failure? {
      return Failure(uncertainties.error);
    }
    var properties := WriteProperties(f, sourceSet.ruptureScalingModels);
    var settings := Element(SETTINGS_TAG, [], [mfds, uncertainties.value, properties]);
    var sources := WriteSources(f, sourceSet.sources);
    var d := SourceSetDocument(f, sourceSet, outputDir, file);
    assert settings == SettingsElement(f, sourceSet).value;
    assert sources == d.value.root.children[2..];
    r := Success(Document(dir + file + ".xml", Element(FAULT_SOURCE_SET_TAG, rootAttrs, [Comment(DISCLAIMER), settings] + sources)));
  }

  /**
   * The root: named by the set's type in upper camel case, carrying each
   * entry once under its lower camel name, and holding the disclaimer, the
   * settings, then one Source per source in list order. The document fails
   * exactly when some magnitude uncertainty has no TYPE entry, and goes to
   * "output/<outputDir>/<file>.xml".
   */
  lemma RootShape(f: Formats, sourceSet: FaultSourceSet, outputDir: string, file: string)
    requires DistinctKeys(sourceSet.attributes)
    ensures var d := SourceSetDocument(f, sourceSet, outputDir, file);
      (d.Success? <==> forall i :: 0 <= i < |sourceSet.magUncertainties| ==> HasKey(sourceSet.magUncertainties[i].attributes, TYPE)) &&
      (d.Success? ==>
        d.value.path == "output/" + outputDir + "/" + file + ".xml" &&
        d.value.root.tag == sourceSet.Type().ToUpperCamelCase() &&
        d.value.root.attributes == Renamed(sourceSet.attributes, None) &&
        |d.value.root.children| == 2 + |sourceSet.sources| &&
        d.value.root.children[0] == Comment(DISCLAIMER) &&
        d.value.root.children[1].tag == SETTINGS_TAG &&
        forall i :: 0 <= i < |sourceSet.sources| ==> d.value.root.children[2 + i] == SourceElement(f, sourceSet.sources[i]))
  {
    SettingsFails(f, sourceSet);
    OutputPathSpelled(outputDir, file);
    CopiedIsRenamed(sourceSet.attributes, None);
    TypeIsFaultSourceSet(sourceSet);
  }

  /** The settings, and so the document, fail exactly when some magnitude uncertainty has no TYPE entry. */
  lemma SettingsFails(f: Formats, sourceSet: FaultSourceSet)
    ensures SettingsElement(f, sourceSet).Success? <==>
      forall i :: 0 <= i < |sourceSet.magUncertainties| ==> HasKey(sourceSet.magUncertainties[i].attributes, TYPE)
  {
    UncertaintyChildrenFail(sourceSet.magUncertainties);
  }

  /**
   * Settings: DefaultMfds with one IncrementalMfd per MFD, MagUncertainty
   * with one element per uncertainty tagged by its TYPE value, and
   * SourceProperties holding one RuptureScalingModels element whose Model
   * children carry only an id, in list order.
   */
  lemma SettingsShape(f: Formats, sourceSet: FaultSourceSet)
    requires SettingsElement(f, sourceSet).Success?
    ensures var s := SettingsElement(f, sourceSet).value;
      s.tag == SETTINGS_TAG && |s.children| == 3 &&
      MfdsShaped(s.children[0], sourceSet.defaultMfds) &&
      UncertaintiesShaped(s.children[1], sourceSet.magUncertainties) &&
      PropertiesShaped(s.children[2], f, sourceSet.ruptureScalingModels)
  {
    var us := sourceSet.magUncertainties;
    UncertaintiesShape(us, UncertaintiesElement(us).value);
  }

  /** DefaultMfds with one IncrementalMfd per MFD. */
  predicate MfdsShaped(e: Node, mfds: seq<DefaultMfd>)
  {
    e.Element? && e.tag == DEFAULT_MFDS_TAG && |e.children| == |mfds| &&
    forall i :: 0 <= i < |mfds| ==> e.children[i].Element? && e.children[i].tag == INCREMENTAL_MFD_TAG
  }

  /** MagUncertainty with one element per uncertainty, tagged by its TYPE value. */
  predicate UncertaintiesShaped(e: Node, us: seq<MagUncertainty>)
  {
    e.Element? && e.tag == MAG_UNCERTAINTY_TAG && |e.children| == |us| &&
    forall i :: 0 <= i < |us| ==>
      e.children[i].Element? && HasKey(us[i].attributes, TYPE) &&
      e.children[i].tag == Get(us[i].attributes, TYPE)
  }

  /** SourceProperties holding one RuptureScalingModels whose Model children carry only an id. */
  predicate PropertiesShaped(e: Node, f: Formats, models: seq<RuptureScaling>)
  {
    e.Element? && e.tag == SOURCE_PROPERTIES_TAG && e.attributes == [] && |e.children| == 1 &&
    e.children[0].Element? && e.children[0].tag == RUPTURE_SCALING_MODELS_TAG &&
    |e.children[0].children| == |models| &&
    forall i :: 0 <= i < |models| ==>
      e.children[0].children[i].Element? &&
      e.children[0].children[i].tag == "Model" &&
      e.children[0].children[i].attributes == [(ID_ATTR, f.scaling(models[i]))]
  }

  lemma UncertaintiesShape(us: seq<MagUncertainty>, e: Node)
    requires UncertaintiesElement(us) == Success(e)
    ensures UncertaintiesShaped(e, us)
  {
    UncertaintyChildrenFail(us);
    forall i | 0 <= i < |us|
      ensures e.children[i].Element? && e.children[i].tag == Get(us[i].attributes, TYPE)
    {
      assert e.children[i] == UncertaintyElement(us[i]).value;
    }
  }

  /**
   * A Source: its deformation models in list order, each with an id and a
   * rate attribute, then exactly one Geometry holding exactly one Trace
   * whose only child is the trace's text.
   */
  lemma SourceShape(f: Formats, s: FaultSource)
    ensures var e := SourceElement(f, s);
      var n := |s.deformationModels|;
      e.tag == SOURCE_TAG &&
      |e.children| == n + 1 &&
      (forall i :: 0 <= i < n ==>
        e.children[i].tag == DEFORMATION_MODEL_TAG &&
        Lookup(e.children[i].attributes, ID_ATTR) == Some(s.deformationModels[i].id) &&
        Lookup(e.children[i].attributes, RATE_ATTR) == Some(s.deformationModels[i].rate)) &&
      e.children[n].tag == GEOMETRY_TAG &&
      e.children[n].children == [Element(TRACE_TAG, [], [TextNode(f.trace(s.geometry.trace))])]
  {
    forall i | 0 <= i < |s.deformationModels|
      ensures Lookup(DeformationElement(s.deformationModels[i]).attributes, ID_ATTR) == Some(s.deformationModels[i].id)
      ensures Lookup(DeformationElement(s.deformationModels[i]).attributes, RATE_ATTR) == Some(s.deformationModels[i].rate)
    {
      DeformationLookup(s.deformationModels[i]);
    }
  }

  lemma DeformationLookup(d: DeformationModel)
    ensures Lookup(DeformationElement(d).attributes, ID_ATTR) == Some(d.id)
    ensures Lookup(DeformationElement(d).attributes, RATE_ATTR) == Some(d.rate)
  {
    var a := DeformationElement(d).attributes;
    assert a[1..] == [(RATE_ATTR, d.rate)];
  }
}
