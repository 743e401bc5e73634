/**
 * The element tree the legacy `XMLExporter.writeXML` builds from a state's
 * `ModelParameters`, and the file it goes to. The region lookup
 * (`UsRegion.valueOf`) and the number rendering are parameters; creating
 * the output directory and serialising the tree are left out. The keys of
 * the per-source deformation-model map come out in `HashMap` order, which
 * the model takes as a parameter: any order of BIRD, GEO and ZENG.
 */
module LegacyXmlExporter {
  import opened Wrappers
  import opened Externals
  import opened AttributeMaps
  import opened SourceAttributes
  import opened MagUncertainties
  import opened ModelParameterSets
  import opened Xml

  const FAULT_SOURCE_ID := "-1"
  const FAULT_SOURCE_WEIGHT := "1.0"

  /** One of the three deformation models a source's rates belong to. */
  predicate RateModel(k: SourceAttribute)
  {
    k == BIRD || k == GEO || k == ZENG
  }

  /** An iteration order of the map {BIRD, GEO, ZENG}: each key once. */
  predicate RateOrder(order: seq<SourceAttribute>)
  {
    |order| == 3 && RateModel(order[0]) && RateModel(order[1]) && RateModel(order[2]) &&
    order[0] != order[1] && order[0] != order[2] && order[1] != order[2]
  }

  /** Every parallel list has an entry at `jf`. */
  predicate Indexable(m: ModelParameters, jf: nat)
  {
    jf < |m.birdRate| && jf < |m.geoRate| && jf < |m.zengRate| && jf < |m.depth| &&
    jf < |m.dip| && jf < |m.rake| && jf < |m.width| && jf < |m.faultTrace|
  }

  /** No parallel list is shorter than the list of names. */
  predicate ListsCover(m: ModelParameters)
  {
    |m.birdRate| >= |m.name| && |m.geoRate| >= |m.name| && |m.zengRate| >= |m.name| &&
    |m.depth| >= |m.name| && |m.dip| >= |m.name| && |m.rake| >= |m.name| &&
    |m.width| >= |m.name| && |m.faultTrace| >= |m.name|
  }

  /** The root's name, id and weight. */
  function RootAttributes(state: string): Attrs
  {
    [(NAME_ATTR, state + " " + FAULTS_TAG), (ID_ATTR, FAULT_SOURCE_ID), (WEIGHT_ATTR, FAULT_SOURCE_WEIGHT)]
  }

  /** SourceProperties: the rupture scaling as its one attribute. */
  function PropertiesElement(f: Formats, m: ModelParameters): Node
  {
    Element(SOURCE_PROPERTIES_TAG, [(RUPTURE_SCALING_ATTR, f.scaling(m.ruptureScaling))], [])
  }

  /** Settings: the default MFDs, the magnitude uncertainties, the source properties. */
  function SettingsElement(f: Formats, m: ModelParameters): Result<Node>
  {
    var uncertainties :- UncertaintiesElement(m.magUncertainties);
    Success(Element(SETTINGS_TAG, [], [MfdsElement(m.defaultMfds), uncertainties, PropertiesElement(f, m)]))
  }

  /** The rate the source at `jf` has under deformation model `k`. */
  function RateText(f: Formats, m: ModelParameters, jf: nat, k: SourceAttribute): string
    requires jf < |m.birdRate| && jf < |m.geoRate| && jf < |m.zengRate| && RateModel(k)
  {
    if k == BIRD then f.double(m.birdRate[jf])
    else if k == GEO then f.double(m.geoRate[jf])
    else f.double(m.zengRate[jf])
  }

  /** The map filled for the source at `jf`: each deformation model's rate. */
  function RateMap(f: Formats, m: ModelParameters, jf: nat): map<SourceAttribute, string>
    requires jf < |m.birdRate| && jf < |m.geoRate| && jf < |m.zengRate|
  {
    map[BIRD := f.double(m.birdRate[jf]), GEO := f.double(m.geoRate[jf]), ZENG := f.double(m.zengRate[jf])]
  }

  /** The three DeformationModel elements: the map read in key order. */
  function DeformationElements(order: seq<SourceAttribute>, rates: map<SourceAttribute, string>): seq<Node>
    requires RateOrder(order) && BIRD in rates && GEO in rates && ZENG in rates
  {
    [DeformationElement(order[0], rates[order[0]]),
     DeformationElement(order[1], rates[order[1]]),
     DeformationElement(order[2], rates[order[2]])]
  }

  /** The id a deformation model is written under: the constant's upper-case name. */
  function RateId(k: SourceAttribute): (id: string)
    requires RateModel(k)
  {
    if k == BIRD then "BIRD" else if k == GEO then "GEO" else "ZENG"
  }

  /** A DeformationModel element: the model's upper-case name as id, then the rate. */
  function DeformationElement(k: SourceAttribute, rate: string): Node
    requires RateModel(k)
  {
    Element(DEFORMATION_MODEL_TAG, [(ID_ATTR, RateId(k)), (RATE_ATTR, rate)], [])
  }

  /** The geometry at `jf`: depth, dip, rake and width, and a Trace holding the trace text. */
  function GeometryElement(f: Formats, m: ModelParameters, jf: nat): Node
    requires Indexable(m, jf)
  {
    Element(GEOMETRY_TAG,
      [(DEPTH_ATTR, f.double(m.depth[jf])), (DIP_ATTR, f.double(m.dip[jf])),
       (RAKE_ATTR, f.double(m.rake[jf])), (WIDTH_ATTR, f.double(m.width[jf]))],
      [Element(TRACE_TAG, [], [TextNode(m.faultTrace[jf])])])
  }

  /** The source at `jf`: name and id "?", three deformation models in map order, then the geometry. */
  function SourceElement(f: Formats, m: ModelParameters, order: seq<SourceAttribute>, jf: nat): Node
    requires jf < |m.name| && Indexable(m, jf) && RateOrder(order)
  {
    Element(SOURCE_TAG, [(NAME_ATTR, m.name[jf]), (ID_ATTR, "?")],
      DeformationElements(order, RateMap(f, m, jf)) + [GeometryElement(f, m, jf)])
  }

  /** One Source per name, in list order. */
  function Sources(f: Formats, m: ModelParameters, order: seq<SourceAttribute>): seq<Node>
    requires ListsCover(m) && RateOrder(order)
  {
    seq(|m.name|, jf requires 0 <= jf < |m.name| => SourceElement(f, m, order, jf))
  }

  /**
   * The document, failing in the order the exporter meets the failures: an
   * unknown state abbreviation, a magnitude uncertainty without a type, a
   * parallel list shorter than the list of names.
   */
  function Export(f: Formats, region: string -> Option<string>, m: ModelParameters,
                  order: seq<SourceAttribute>, outputDir: string): Result<Document>
    requires RateOrder(order)
  {
    var state := region(m.stateAbbrev);
    if state.None? then Failure(IllegalArgument("stateAbbrev"))
    else
      var settings :- SettingsElement(f, m);
      if !ListsCover(m) then Failure(IndexOutOfBounds)
      else
        var sources := Sources(f, m, order);
        Success(Document(OutputPath(outputDir, state.value),
          Element(FAULT_SOURCE_SET_TAG, RootAttributes(state.value), [Comment(DISCLAIMER), settings] + sources)))
  }

  // ---------------------------------------------------------------------
  // The exporter's statements

  /** Setting a name the element does not have yet appends it. */
  lemma SetFresh(a: Attrs, n: string, v: string)
    requires forall i :: 0 <= i < |a| ==> a[i].0 != n
    ensures SetAttribute(a, n, v) == a + [(n, v)]
  {
    LookupAbsent(a, n);
  }

  /** Setting two different attribute names in turn appends them in that order. */
  lemma TwoAttributes(a1: Attrs, n1: string, v1: string, n2: string, v2: string)
    requires n1 != n2 && a1 == SetAttribute([], n1, v1)
    ensures a1 == [(n1, v1)]
    ensures SetAttribute(a1, n2, v2) == [(n1, v1), (n2, v2)]
  {
    SetFresh([(n1, v1)], n2, v2);
  }

  /** Setting a third different name. */
  lemma ThirdAttribute(a2: Attrs, n1: string, v1: string, n2: string, v2: string, n3: string, v3: string)
    requires n1 != n3 && n2 != n3 && a2 == [(n1, v1), (n2, v2)]
    ensures SetAttribute(a2, n3, v3) == [(n1, v1), (n2, v2), (n3, v3)]
  {
    SetFresh(a2, n3, v3);
  }

  /** Setting a fourth different name. */
  lemma FourthAttribute(a3: Attrs, n1: string, v1: string, n2: string, v2: string, n3: string, v3: string, n4: string, v4: string)
    requires n4 != n1 && n4 != n2 && n4 != n3 && a3 == [(n1, v1), (n2, v2), (n3, v3)]
    ensures SetAttribute(a3, n4, v4) == [(n1, v1), (n2, v2), (n3, v3), (n4, v4)]
  {
    SetFresh(a3, n4, v4);
  }

  lemma {:induction false} LookupAbsent(a: Attrs, n: string)
    requires forall i :: 0 <= i < |a| ==> a[i].0 != n
    ensures Lookup(a, n).None?
  {
    if a != [] {
      LookupAbsent(a[1..], n);
    }
  }

  /** The loop over the deformation-model map's keys. */
  method WriteDeformations(order: seq<SourceAttribute>, rates: map<SourceAttribute, string>) returns (children: seq<Node>)
    requires RateOrder(order) && BIRD in rates && GEO in rates && ZENG in rates
    ensures children == DeformationElements(order, rates)
  {
    children := [];
    for i := 0 to 3
      invariant |children| == i
      invariant forall k :: 0 <= k < i ==> children[k] == DeformationElement(order[k], rates[order[k]])
    {
      var key := order[i];
      var id := key.ToUpperCase();
      RateIdIsUpperCase(key);
      var idOnly := SetAttribute([], ID_ATTR, id);
      TwoAttributes(idOnly, ID_ATTR, id, RATE_ATTR, rates[key]);
      var rate := SetAttribute(idOnly, RATE_ATTR, rates[key]);
      children := children + [Element(DEFORMATION_MODEL_TAG, rate, [])];
    }
  }

  /** The geometry of the source at `jf`, whose gets throw past the end of a list. */
  method WriteGeometry(f: Formats, m: ModelParameters, jf: nat) returns (r: Result<Node>)
    ensures Indexable(m, jf) ==> r == Success(GeometryElement(f, m, jf))
    ensures !(jf < |m.depth| && jf < |m.dip| && jf < |m.rake| && jf < |m.width| && jf < |m.faultTrace|) ==>
      r == Failure(IndexOutOfBounds)
  {
    if jf >= |m.depth| || jf >= |m.dip| || jf >= |m.rake| || jf >= |m.width| {
      return Failure(IndexOutOfBounds);
    }
    var depth, dip, rake, width := f.double(m.depth[jf]), f.double(m.dip[jf]), f.double(m.rake[jf]), f.double(m.width[jf]);
    var attrs := SetAttribute([], DEPTH_ATTR, depth);
    TwoAttributes(attrs, DEPTH_ATTR, depth, DIP_ATTR, dip);
    attrs := SetAttribute(attrs, DIP_ATTR, dip);
    ThirdAttribute(attrs, DEPTH_ATTR, depth, DIP_ATTR, dip, RAKE_ATTR, rake);
    attrs := SetAttribute(attrs, RAKE_ATTR, rake);
    FourthAttribute(attrs, DEPTH_ATTR, depth, DIP_ATTR, dip, RAKE_ATTR, rake, WIDTH_ATTR, width);
    attrs := SetAttribute(attrs, WIDTH_ATTR, width);
    if jf >= |m.faultTrace| {
      return Failure(IndexOutOfBounds);
    }
    var trace := Element(TRACE_TAG, [], [TextNode(m.faultTrace[jf])]);
    r := Success(Element(GEOMETRY_TAG, attrs, [trace]));
  }

  /**
   * One pass of the `jf` loop: the gets from the parallel lists, in source
   * order, throw when `jf` is past the end of one of them.
   */
  method WriteSource(f: Formats, m: ModelParameters, order: seq<SourceAttribute>, jf: nat) returns (r: Result<Node>)
    requires jf < |m.name| && RateOrder(order)
    ensures Indexable(m, jf) ==> r == Success(SourceElement(f, m, order, jf))
    ensures !Indexable(m, jf) ==> r == Failure(IndexOutOfBounds)
  {
    var nameOnly := SetAttribute([], NAME_ATTR, m.name[jf]);
    TwoAttributes(nameOnly, NAME_ATTR, m.name[jf], ID_ATTR, "?");
    var attrs := SetAttribute(nameOnly, ID_ATTR, "?");
    if jf >= |m.birdRate| || jf >= |m.geoRate| || jf >= |m.zengRate| {
      return Failure(IndexOutOfBounds);
    }
    var rates: map<SourceAttribute, string> := map[];
    rates := rates[BIRD := f.double(m.birdRate[jf])];
    rates := rates[GEO := f.double(m.geoRate[jf])];
    rates := rates[ZENG := f.double(m.zengRate[jf])];
    assert rates == RateMap(f, m, jf);
    var children := WriteDeformations(order, rates);
    var geometry := WriteGeometry(f, m, jf);
    if geometry.Failure? {
      return Failure(geometry.error);
    }
    r := Success(Element(SOURCE_TAG, attrs, children + [geometry.value]));
  }

  /** The loop over the names. */
  method WriteSources(f: Formats, m: ModelParameters, order: seq<SourceAttribute>) returns (r: Result<seq<Node>>)
    requires RateOrder(order)
    ensures ListsCover(m) ==> r == Success(Sources(f, m, order))
    ensures !ListsCover(m) ==> r == Failure(IndexOutOfBounds)
  {
    var sources: seq<Node> := [];
    for jf := 0 to |m.name|
      invariant |sources| == jf
      invariant forall k :: 0 <= k < jf ==> Indexable(m, k) && sources[k] == SourceElement(f, m, order, k)
    {
      var source := WriteSource(f, m, order, jf);
      if source.Failure? {
        ShortList(m, jf);
        return Failure(IndexOutOfBounds);
      }
      sources := sources + [source.value];
    }
    CoverIndexable(m);
    r := Success(sources);
    assert sources == Sources(f, m, order);
  }

  /** The Settings element. */
  method WriteSettings(f: Formats, m: ModelParameters) returns (r: Result<Node>)
    ensures r == SettingsElement(f, m)
  {
    var mfds := WriteMfds(m.defaultMfds);
    var uncertainties := WriteUncertainties(m.magUncertainties);
    if uncertainties.Failure? {
      return Failure(uncertainties.error);
    }
    var properties := Element(SOURCE_PROPERTIES_TAG, SetAttribute([], RUPTURE_SCALING_ATTR, f.scaling(m.ruptureScaling)), []);
    r := Success(Element(SETTINGS_TAG, [], [mfds, uncertainties.value, properties]));
  }

  /** `writeXML(model, outputDir)`, up to the serialisation. */
  method WriteXml(f: Formats, region: string -> Option<string>, m: ModelParameters,
                  order: seq<SourceAttribute>, outputDir: string) returns (r: Result<Document>)
    requires RateOrder(order)
    ensures r == Export(f, region, m, order, outputDir)
  {
    var dir := MAIN_OUTPUT_DIR + "/" + outputDir + "/";
    var primaryState := region(m.stateAbbrev);
    if primaryState.None? {
      return Failure(IllegalArgument("stateAbbrev"));
    }
    var state := primaryState.value;
    var title := state + " " + FAULTS_TAG;
    var rootAttrs := SetAttribute([], NAME_ATTR, title);
    TwoAttributes(rootAttrs, NAME_ATTR, title, ID_ATTR, FAULT_SOURCE_ID);
    rootAttrs := SetAttribute(rootAttrs, ID_ATTR, FAULT_SOURCE_ID);
    ThirdAttribute(rootAttrs, NAME_ATTR, title, ID_ATTR, FAULT_SOURCE_ID, WEIGHT_ATTR, FAULT_SOURCE_WEIGHT);
    rootAttrs := SetAttribute(rootAttrs, WEIGHT_ATTR, FAULT_SOURCE_WEIGHT);
    var settings := WriteSettings(f, m);
    if settings.Failure? {
      return Failure(settings.error);
    }
    var sources := WriteSources(f, m, order);
    if sources.Failure? {
      return Failure(sources.error);
    }
    var d := Export(f, region, m, order, outputDir);
    assert sources.value == d.value.root.children[2..];
    r := Success(Document(dir + state + ".xml", Element(FAULT_SOURCE_SET_TAG, rootAttrs, [Comment(DISCLAIMER), settings.value] + sources.value)));
  }

  // ---------------------------------------------------------------------
  // What the document is

  /** The lists cover the names exactly when every name's index is in every list. */
  lemma CoverIndexable(m: ModelParameters)
    ensures ListsCover(m) <==> forall jf :: 0 <= jf < |m.name| ==> Indexable(m, jf)
  {
    if forall jf :: 0 <= jf < |m.name| ==> Indexable(m, jf) {
      if |m.name| > 0 {
        assert Indexable(m, |m.name| - 1);
      }
    }
  }

  /** A name whose index is past the end of some list. */
  lemma ShortList(m: ModelParameters, jf: nat)
    requires jf < |m.name| && !Indexable(m, jf)
    ensures !ListsCover(m)
  {
  }

  /** A map iteration order lists each of BIRD, GEO and ZENG, and nothing else. */
  lemma RateOrderCovers(order: seq<SourceAttribute>)
    requires RateOrder(order)
    ensures BIRD in order && GEO in order && ZENG in order
    ensures forall i :: 0 <= i < |order| ==> RateModel(order[i])
  {
    assert order == [order[0], order[1], order[2]];
  }

  /**
   * Which failure comes first, and when there is none: the document exists
   * exactly when the state is known, every magnitude uncertainty has a type
   * and no parallel list is shorter than the names.
   */
  lemma Failures(f: Formats, region: string -> Option<string>, m: ModelParameters,
                 order: seq<SourceAttribute>, outputDir: string)
    requires RateOrder(order)
    ensures var d := Export(f, region, m, order, outputDir);
      var typed := forall i :: 0 <= i < |m.magUncertainties| ==> HasKey(m.magUncertainties[i].attributes, TYPE);
      (d.Success? <==> region(m.stateAbbrev).Some? && typed && ListsCover(m)) &&
      (region(m.stateAbbrev).None? ==> d == Failure(IllegalArgument("stateAbbrev"))) &&
      (region(m.stateAbbrev).Some? && !typed ==> d == Failure(InvalidCharacter)) &&
      (region(m.stateAbbrev).Some? && typed && !ListsCover(m) ==> d == Failure(IndexOutOfBounds))
  {
    UncertaintyChildrenFail(m.magUncertainties);
    if region(m.stateAbbrev).Some? && !UncertaintyChildren(m.magUncertainties).Success? {
      UncertaintyFailureIsInvalidName(m.magUncertainties);
    }
  }

  lemma {:induction false} UncertaintyFailureIsInvalidName(us: seq<MagUncertainty>)
    requires UncertaintyChildren(us).Failure?
    ensures UncertaintyChildren(us) == Failure(InvalidCharacter)
  {
    if us != [] && UncertaintyChildren(us[..|us| - 1]).Failure? {
      UncertaintyFailureIsInvalidName(us[..|us| - 1]);
    }
  }

  /**
   * The root: a FaultSourceSet named "<state> Faults" with id "-1" and
   * weight "1.0", holding the disclaimer, the settings, then one Source per
   * name in list order; the file is "<state>.xml" under "output/<outputDir>/".
   */
  lemma RootShape(f: Formats, region: string -> Option<string>, m: ModelParameters,
                  order: seq<SourceAttribute>, outputDir: string)
    requires RateOrder(order)
    requires Export(f, region, m, order, outputDir).Success?
    ensures var d := Export(f, region, m, order, outputDir).value;
      var state := region(m.stateAbbrev).value;
      d.path == "output/" + outputDir + "/" + state + ".xml" &&
      d.root.tag == FAULT_SOURCE_SET_TAG &&
      d.root.attributes == [(NAME_ATTR, state + " " + FAULTS_TAG),
        (ID_ATTR, "-1"), (WEIGHT_ATTR, "1.0")] &&
      |d.root.children| == 2 + |m.name| &&
      d.root.children[0] == Comment(DISCLAIMER) &&
      d.root.children[1].tag == SETTINGS_TAG &&
      forall jf :: 0 <= jf < |m.name| ==> Indexable(m, jf) && d.root.children[2 + jf] == SourceElement(f, m, order, jf)
  {
    var state := region(m.stateAbbrev).value;
    OutputPathSpelled(outputDir, state);
    CoverIndexable(m);
  }

  /** SourceProperties carries the rupture scaling as its single attribute and has no children. */
  lemma PropertiesShape(f: Formats, m: ModelParameters)
    requires SettingsElement(f, m).Success?
    ensures var p := SettingsElement(f, m).value.children[2];
      p.tag == SOURCE_PROPERTIES_TAG &&
      p.attributes == [(RUPTURE_SCALING_ATTR, f.scaling(m.ruptureScaling))] &&
      p.children == []
  {
  }

  /**
   * The source at `jf`: named by the `jf`-th name with id "?", holding
   * three DeformationModel elements, the `i`-th for the `i`-th key of the
   * map with that model's rate at `jf`, then one more element.
   */
  lemma SourceShape(f: Formats, m: ModelParameters, order: seq<SourceAttribute>, jf: nat)
    requires jf < |m.name| && Indexable(m, jf) && RateOrder(order)
    ensures var e := SourceElement(f, m, order, jf);
      e.tag == SOURCE_TAG &&
      e.attributes == [(NAME_ATTR, m.name[jf]), (ID_ATTR, "?")] &&
      |e.children| == 4 &&
      forall i :: 0 <= i < 3 ==> e.children[i] == DeformationElement(order[i], RateText(f, m, jf, order[i]))
  {
    RateMapReads(f, m, jf, order[0]);
    RateMapReads(f, m, jf, order[1]);
    RateMapReads(f, m, jf, order[2]);
  }

  /**
   * The last child of the source at `jf`: a Geometry whose depth, dip,
   * rake and width are the entries at `jf`, holding one Trace whose only
   * child is the `jf`-th trace text, verbatim.
   */
  lemma SourceGeometry(f: Formats, m: ModelParameters, order: seq<SourceAttribute>, jf: nat)
    requires jf < |m.name| && Indexable(m, jf) && RateOrder(order)
    ensures var e := SourceElement(f, m, order, jf);
      |e.children| == 4 &&
      e.children[3].tag == GEOMETRY_TAG &&
      e.children[3].attributes == [(DEPTH_ATTR, f.double(m.depth[jf])), (DIP_ATTR, f.double(m.dip[jf])),
        (RAKE_ATTR, f.double(m.rake[jf])), (WIDTH_ATTR, f.double(m.width[jf]))] &&
      e.children[3].children == [Element(TRACE_TAG, [], [TextNode(m.faultTrace[jf])])]
  {
  }

  /** Each deformation model's id is its constant's `toUpperCase()`, which is its name. */
  lemma RateIdIsUpperCase(k: SourceAttribute)
    requires RateModel(k)
    ensures RateId(k) == k.ToUpperCase() && RateId(k) == k.Name()
  {
    if k == BIRD {
      UpperCaseIsName(BIRD);
    } else if k == GEO {
      UpperCaseIsName(GEO);
    } else {
      UpperCaseIsName(ZENG);
    }
  }

  /** Reading the map gives the rate of the list the key names. */
  lemma RateMapReads(f: Formats, m: ModelParameters, jf: nat, k: SourceAttribute)
    requires jf < |m.birdRate| && jf < |m.geoRate| && jf < |m.zengRate| && RateModel(k)
    ensures k in RateMap(f, m, jf) && RateMap(f, m, jf)[k] == RateText(f, m, jf, k)
  {
  }
}
