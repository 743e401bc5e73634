/**
 * The XML documents the two exporters build, as values: elements with
 * attributes in insertion order and children in append order, comments
 * and text nodes. `Element.setAttribute` replaces the value of an attribute
 * already present under the same name and otherwise adds one. The element
 * parts both exporters write in the same way (the default MFDs and the
 * magnitude uncertainties) are here too.
 */
module Xml {
  import opened Wrappers
  import opened CaseFormat
  import opened AttributeMaps
  import opened SourceAttributes
  import opened DefaultMfds
  import opened MagUncertainties

  type Attrs = seq<(string, string)>

  datatype Node =
    | Element(tag: string, attributes: Attrs, children: seq<Node>)
    | Comment(data: string)
    | TextNode(data: string)

  /** A document written to a file. */
  datatype Document = Document(path: string, root: Node)

  const DISCLAIMER := " This model is an example and for review purposes only "
  const MAIN_OUTPUT_DIR := "output"

  /** The file `outputDir`'s document `file` is written to. */
  function OutputPath(outputDir: string, file: string): string
  {
    MAIN_OUTPUT_DIR + "/" + outputDir + "/" + file + ".xml"
  }

  /** Written out: the file is "output/<outputDir>/<file>.xml". */
  lemma OutputPathSpelled(outputDir: string, file: string)
    ensures OutputPath(outputDir, file) == "output/" + outputDir + "/" + file + ".xml"
  {
    var top := MAIN_OUTPUT_DIR + "/";
    OutputTop(top);
    assert OutputPath(outputDir, file) == top + outputDir + "/" + file + ".xml";
  }

  lemma OutputTop(top: string)
    requires top == MAIN_OUTPUT_DIR + "/"
    ensures top == "output/"
  {
  }

  // ---------------------------------------------------------------------
  // Element and attribute names

  // The names the exporters spell from attribute constants, each proved
  // equal to its conversion below.
  const FAULT_SOURCE_SET_TAG := "FaultSourceSet"
  const SETTINGS_TAG := "Settings"
  const DEFAULT_MFDS_TAG := "DefaultMfds"
  const INCREMENTAL_MFD_TAG := "IncrementalMfd"
  const MAG_UNCERTAINTY_TAG := "MagUncertainty"
  const SOURCE_PROPERTIES_TAG := "SourceProperties"
  const RUPTURE_SCALING_MODELS_TAG := "RuptureScalingModels"
  const SOURCE_TAG := "Source"
  const DEFORMATION_MODEL_TAG := "DeformationModel"
  const GEOMETRY_TAG := "Geometry"
  const TRACE_TAG := "Trace"
  const FAULTS_TAG := "Faults"
  const ID_ATTR := "id"
  const RATE_ATTR := "rate"
  const NAME_ATTR := "name"
  const WEIGHT_ATTR := "weight"
  const DEPTH_ATTR := "depth"
  const DIP_ATTR := "dip"
  const RAKE_ATTR := "rake"
  const WIDTH_ATTR := "width"
  const RUPTURE_SCALING_ATTR := "ruptureScaling"

  // ---------------------------------------------------------------------
  // Spelling: the lemmas from here to the Attributes section prove each
  // written name equal to the case conversion of its constant, one word at
  // a time, so that no proof unfolds a whole conversion at once.

  // The camel forms of a name from the capitalized forms of its words.
  lemma UpperSpelledTwo(n: string, a: string, b: string, t: string)
    requires n == a + "_" + b && '_' !in a && '_' !in b
    requires Capitalize(a) + Capitalize(b) == t
    ensures UpperCamel(n) == t
  {
    CamelTwo(a, b);
  }

  lemma UpperSpelledThree(n: string, a: string, b: string, c: string, t: string)
    requires n == a + "_" + (b + "_" + c) && '_' !in a && '_' !in b && '_' !in c
    requires Capitalize(a) + (Capitalize(b) + Capitalize(c)) == t
    ensures UpperCamel(n) == t
  {
    CamelThree(a, b, c);
  }

  lemma LowerSpelledTwo(n: string, a: string, b: string, t: string)
    requires n == a + "_" + b && '_' !in a && '_' !in b
    requires Lower(a) + Capitalize(b) == t
    ensures LowerCamel(n) == t
  {
    CamelTwo(a, b);
  }

  // Each word capitalized, checked letter by letter.
  lemma Capitalized_FAULT()
    ensures Capitalize("FAULT") == "Fault"
  {
    CapitalizeSpelled("FAULT", "Fault");
  }

  lemma Capitalized_SOURCE()
    ensures Capitalize("SOURCE") == "Source"
  {
    CapitalizeSpelled("SOURCE", "Source");
  }

  lemma Capitalized_SET()
    ensures Capitalize("SET") == "Set"
  {
    CapitalizeSpelled("SET", "Set");
  }

  lemma Capitalized_SETTINGS()
    ensures Capitalize("SETTINGS") == "Settings"
  {
    CapitalizeSpelled("SETTINGS", "Settings");
  }

  lemma Capitalized_DEFAULT()
    ensures Capitalize("DEFAULT") == "Default"
  {
    CapitalizeSpelled("DEFAULT", "Default");
  }

  lemma Capitalized_MFDS()
    ensures Capitalize("MFDS") == "Mfds"
  {
    CapitalizeSpelled("MFDS", "Mfds");
  }

  lemma Capitalized_INCREMENTAL()
    ensures Capitalize("INCREMENTAL") == "Incremental"
  {
    CapitalizeSpelled("INCREMENTAL", "Incremental");
  }

  lemma Capitalized_MFD()
    ensures Capitalize("MFD") == "Mfd"
  {
    CapitalizeSpelled("MFD", "Mfd");
  }

  lemma Capitalized_MAG()
    ensures Capitalize("MAG") == "Mag"
  {
    CapitalizeSpelled("MAG", "Mag");
  }

  lemma Capitalized_UNCERTAINTY()
    ensures Capitalize("UNCERTAINTY") == "Uncertainty"
  {
    CapitalizeSpelled("UNCERTAINTY", "Uncertainty");
  }

  lemma Capitalized_PROPERTIES()
    ensures Capitalize("PROPERTIES") == "Properties"
  {
    CapitalizeSpelled("PROPERTIES", "Properties");
  }

  lemma Capitalized_RUPTURE()
    ensures Capitalize("RUPTURE") == "Rupture"
  {
    CapitalizeSpelled("RUPTURE", "Rupture");
  }

  lemma Capitalized_SCALING()
    ensures Capitalize("SCALING") == "Scaling"
  {
    CapitalizeSpelled("SCALING", "Scaling");
  }

  lemma Capitalized_MODELS()
    ensures Capitalize("MODELS") == "Models"
  {
    CapitalizeSpelled("MODELS", "Models");
  }

  lemma Capitalized_DEFORMATION()
    ensures Capitalize("DEFORMATION") == "Deformation"
  {
    CapitalizeSpelled("DEFORMATION", "Deformation");
  }

  lemma Capitalized_MODEL()
    ensures Capitalize("MODEL") == "Model"
  {
    CapitalizeSpelled("MODEL", "Model");
  }

  lemma Capitalized_GEOMETRY()
    ensures Capitalize("GEOMETRY") == "Geometry"
  {
    CapitalizeSpelled("GEOMETRY", "Geometry");
  }

  lemma Capitalized_TRACE()
    ensures Capitalize("TRACE") == "Trace"
  {
    CapitalizeSpelled("TRACE", "Trace");
  }

  lemma Capitalized_FAULTS()
    ensures Capitalize("FAULTS") == "Faults"
  {
    CapitalizeSpelled("FAULTS", "Faults");
  }

  lemma Spell_FAULT_SOURCE_SET()
    ensures FAULT_SOURCE_SET.ToUpperCamelCase() == FAULT_SOURCE_SET_TAG
  {
    UpperCamel_FAULT_SOURCE_SET(FAULT_SOURCE_SET.Name());
  }

  lemma UpperCamel_FAULT_SOURCE_SET(n: string)
    requires n == "FAULT_SOURCE_SET"
    ensures UpperCamel(n) == FAULT_SOURCE_SET_TAG
  {
    var a, b, c := "FAULT", "SOURCE", "SET";
    Words_FAULT_SOURCE_SET(n, a, b, c);
    Capitalized_FAULT_SOURCE_SET(a, b, c);
    UpperSpelledThree(n, a, b, c, FAULT_SOURCE_SET_TAG);
  }

  lemma Words_FAULT_SOURCE_SET(n: string, a: string, b: string, c: string)
    requires n == "FAULT_SOURCE_SET" && a == "FAULT" && b == "SOURCE" && c == "SET"
    ensures n == a + "_" + (b + "_" + c) && '_' !in a && '_' !in b && '_' !in c
  {
  }

  lemma Capitalized_FAULT_SOURCE_SET(a: string, b: string, c: string)
    requires a == "FAULT" && b == "SOURCE" && c == "SET"
    ensures Capitalize(a) + (Capitalize(b) + Capitalize(c)) == FAULT_SOURCE_SET_TAG
  {
    Capitalized_FAULT();
    Capitalized_SOURCE();
    Capitalized_SET();
  }

  lemma Spell_SETTINGS()
    ensures SETTINGS.ToUpperCamelCase() == SETTINGS_TAG
  {
    UpperCamel_SETTINGS(SETTINGS.Name());
  }

  lemma UpperCamel_SETTINGS(n: string)
    requires n == "SETTINGS"
    ensures UpperCamel(n) == SETTINGS_TAG
  {
    Capitalized_SETTINGS();
    CamelOne("SETTINGS");
  }

  lemma Spell_DEFAULT_MFDS()
    ensures DEFAULT_MFDS.ToUpperCamelCase() == DEFAULT_MFDS_TAG
  {
    UpperCamel_DEFAULT_MFDS(DEFAULT_MFDS.Name());
  }

  lemma UpperCamel_DEFAULT_MFDS(n: string)
    requires n == "DEFAULT_MFDS"
    ensures UpperCamel(n) == DEFAULT_MFDS_TAG
  {
    var a, b := "DEFAULT", "MFDS";
    Words_DEFAULT_MFDS(n, a, b);
    Capitalized_DEFAULT_MFDS(a, b);
    UpperSpelledTwo(n, a, b, DEFAULT_MFDS_TAG);
  }

  lemma Words_DEFAULT_MFDS(n: string, a: string, b: string)
    requires n == "DEFAULT_MFDS" && a == "DEFAULT" && b == "MFDS"
    ensures n == a + "_" + b && '_' !in a && '_' !in b
  {
  }

  lemma Capitalized_DEFAULT_MFDS(a: string, b: string)
    requires a == "DEFAULT" && b == "MFDS"
    ensures Capitalize(a) + Capitalize(b) == DEFAULT_MFDS_TAG
  {
    Capitalized_DEFAULT();
    Capitalized_MFDS();
  }

  lemma Spell_INCREMENTAL_MFD()
    ensures INCREMENTAL_MFD.ToUpperCamelCase() == INCREMENTAL_MFD_TAG
  {
    UpperCamel_INCREMENTAL_MFD(INCREMENTAL_MFD.Name());
  }

  lemma UpperCamel_INCREMENTAL_MFD(n: string)
    requires n == "INCREMENTAL_MFD"
    ensures UpperCamel(n) == INCREMENTAL_MFD_TAG
  {
    var a, b := "INCREMENTAL", "MFD";
    Words_INCREMENTAL_MFD(n, a, b);
    Capitalized_INCREMENTAL_MFD(a, b);
    UpperSpelledTwo(n, a, b, INCREMENTAL_MFD_TAG);
  }

  lemma Words_INCREMENTAL_MFD(n: string, a: string, b: string)
    requires n == "INCREMENTAL_MFD" && a == "INCREMENTAL" && b == "MFD"
    ensures n == a + "_" + b && '_' !in a && '_' !in b
  {
  }

  lemma Capitalized_INCREMENTAL_MFD(a: string, b: string)
    requires a == "INCREMENTAL" && b == "MFD"
    ensures Capitalize(a) + Capitalize(b) == INCREMENTAL_MFD_TAG
  {
    Capitalized_INCREMENTAL();
    Capitalized_MFD();
  }

  lemma Spell_MAG_UNCERTAINTY()
    ensures MAG_UNCERTAINTY.ToUpperCamelCase() == MAG_UNCERTAINTY_TAG
  {
    UpperCamel_MAG_UNCERTAINTY(MAG_UNCERTAINTY.Name());
  }

  lemma UpperCamel_MAG_UNCERTAINTY(n: string)
    requires n == "MAG_UNCERTAINTY"
    ensures UpperCamel(n) == MAG_UNCERTAINTY_TAG
  {
    var a, b := "MAG", "UNCERTAINTY";
    Words_MAG_UNCERTAINTY(n, a, b);
    Capitalized_MAG_UNCERTAINTY(a, b);
    UpperSpelledTwo(n, a, b, MAG_UNCERTAINTY_TAG);
  }

  lemma Words_MAG_UNCERTAINTY(n: string, a: string, b: string)
    requires n == "MAG_UNCERTAINTY" && a == "MAG" && b == "UNCERTAINTY"
    ensures n == a + "_" + b && '_' !in a && '_' !in b
  {
  }

  lemma Capitalized_MAG_UNCERTAINTY(a: string, b: string)
    requires a == "MAG" && b == "UNCERTAINTY"
    ensures Capitalize(a) + Capitalize(b) == MAG_UNCERTAINTY_TAG
  {
    Capitalized_MAG();
    Capitalized_UNCERTAINTY();
  }

  lemma Spell_SOURCE_PROPERTIES()
    ensures SOURCE_PROPERTIES.ToUpperCamelCase() == SOURCE_PROPERTIES_TAG
  {
    UpperCamel_SOURCE_PROPERTIES(SOURCE_PROPERTIES.Name());
  }

  lemma UpperCamel_SOURCE_PROPERTIES(n: string)
    requires n == "SOURCE_PROPERTIES"
    ensures UpperCamel(n) == SOURCE_PROPERTIES_TAG
  {
    var a, b := "SOURCE", "PROPERTIES";
    Words_SOURCE_PROPERTIES(n, a, b);
    Capitalized_SOURCE_PROPERTIES(a, b);
    UpperSpelledTwo(n, a, b, SOURCE_PROPERTIES_TAG);
  }

  lemma Words_SOURCE_PROPERTIES(n: string, a: string, b: string)
    requires n == "SOURCE_PROPERTIES" && a == "SOURCE" && b == "PROPERTIES"
    ensures n == a + "_" + b && '_' !in a && '_' !in b
  {
  }

  lemma Capitalized_SOURCE_PROPERTIES(a: string, b: string)
    requires a == "SOURCE" && b == "PROPERTIES"
    ensures Capitalize(a) + Capitalize(b) == SOURCE_PROPERTIES_TAG
  {
    Capitalized_SOURCE();
    Capitalized_PROPERTIES();
  }

  lemma Spell_RUPTURE_SCALING_MODELS()
    ensures RUPTURE_SCALING_MODELS.ToUpperCamelCase() == RUPTURE_SCALING_MODELS_TAG
  {
    UpperCamel_RUPTURE_SCALING_MODELS(RUPTURE_SCALING_MODELS.Name());
  }

  lemma UpperCamel_RUPTURE_SCALING_MODELS(n: string)
    requires n == "RUPTURE_SCALING_MODELS"
    ensures UpperCamel(n) == RUPTURE_SCALING_MODELS_TAG
  {
    var a, b, c := "RUPTURE", "SCALING", "MODELS";
    Words_RUPTURE_SCALING_MODELS(n, a, b, c);
    Capitalized_RUPTURE_SCALING_MODELS(a, b, c);
    UpperSpelledThree(n, a, b, c, RUPTURE_SCALING_MODELS_TAG);
  }

  lemma Words_RUPTURE_SCALING_MODELS(n: string, a: string, b: string, c: string)
    requires n == "RUPTURE_SCALING_MODELS" && a == "RUPTURE" && b == "SCALING" && c == "MODELS"
    ensures n == a + "_" + (b + "_" + c) && '_' !in a && '_' !in b && '_' !in c
  {
  }

  lemma Capitalized_RUPTURE_SCALING_MODELS(a: string, b: string, c: string)
    requires a == "RUPTURE" && b == "SCALING" && c == "MODELS"
    ensures Capitalize(a) + (Capitalize(b) + Capitalize(c)) == RUPTURE_SCALING_MODELS_TAG
  {
    Capitalized_RUPTURE();
    Capitalized_SCALING();
    Capitalized_MODELS();
  }

  lemma Spell_SOURCE()
    ensures SOURCE.ToUpperCamelCase() == SOURCE_TAG
  {
    UpperCamel_SOURCE(SOURCE.Name());
  }

  lemma UpperCamel_SOURCE(n: string)
    requires n == "SOURCE"
    ensures UpperCamel(n) == SOURCE_TAG
  {
    Capitalized_SOURCE();
    CamelOne("SOURCE");
  }

  lemma Spell_DEFORMATION_MODEL()
    ensures DEFORMATION_MODEL.ToUpperCamelCase() == DEFORMATION_MODEL_TAG
  {
    UpperCamel_DEFORMATION_MODEL(DEFORMATION_MODEL.Name());
  }

  lemma UpperCamel_DEFORMATION_MODEL(n: string)
    requires n == "DEFORMATION_MODEL"
    ensures UpperCamel(n) == DEFORMATION_MODEL_TAG
  {
    var a, b := "DEFORMATION", "MODEL";
    Words_DEFORMATION_MODEL(n, a, b);
    Capitalized_DEFORMATION_MODEL(a, b);
    UpperSpelledTwo(n, a, b, DEFORMATION_MODEL_TAG);
  }

  lemma Words_DEFORMATION_MODEL(n: string, a: string, b: string)
    requires n == "DEFORMATION_MODEL" && a == "DEFORMATION" && b == "MODEL"
    ensures n == a + "_" + b && '_' !in a && '_' !in b
  {
  }

  lemma Capitalized_DEFORMATION_MODEL(a: string, b: string)
    requires a == "DEFORMATION" && b == "MODEL"
    ensures Capitalize(a) + Capitalize(b) == DEFORMATION_MODEL_TAG
  {
    Capitalized_DEFORMATION();
    Capitalized_MODEL();
  }

  lemma Spell_GEOMETRY()
    ensures GEOMETRY.ToUpperCamelCase() == GEOMETRY_TAG
  {
    UpperCamel_GEOMETRY(GEOMETRY.Name());
  }

  lemma UpperCamel_GEOMETRY(n: string)
    requires n == "GEOMETRY"
    ensures UpperCamel(n) == GEOMETRY_TAG
  {
    Capitalized_GEOMETRY();
    CamelOne("GEOMETRY");
  }

  lemma Spell_TRACE()
    ensures TRACE.ToUpperCamelCase() == TRACE_TAG
  {
    UpperCamel_TRACE(TRACE.Name());
  }

  lemma UpperCamel_TRACE(n: string)
    requires n == "TRACE"
    ensures UpperCamel(n) == TRACE_TAG
  {
    Capitalized_TRACE();
    CamelOne("TRACE");
  }

  lemma Spell_FAULTS()
    ensures FAULTS.ToUpperCamelCase() == FAULTS_TAG
  {
    UpperCamel_FAULTS(FAULTS.Name());
  }

  lemma UpperCamel_FAULTS(n: string)
    requires n == "FAULTS"
    ensures UpperCamel(n) == FAULTS_TAG
  {
    Capitalized_FAULTS();
    CamelOne("FAULTS");
  }

  lemma Spell_ID()
    ensures ID.ToLowerCase() == ID_ATTR
  {
    LowerSpelled(ID.Name(), ID_ATTR);
  }

  lemma Spell_RATE()
    ensures RATE.ToLowerCase() == RATE_ATTR
  {
    LowerSpelled(RATE.Name(), RATE_ATTR);
  }

  lemma Spell_NAME()
    ensures NAME.ToLowerCase() == NAME_ATTR
  {
    LowerSpelled(NAME.Name(), NAME_ATTR);
  }

  lemma Spell_WEIGHT()
    ensures WEIGHT.ToLowerCase() == WEIGHT_ATTR
  {
    LowerSpelled(WEIGHT.Name(), WEIGHT_ATTR);
  }

  lemma Spell_DEPTH()
    ensures DEPTH.ToLowerCase() == DEPTH_ATTR
  {
    LowerSpelled(DEPTH.Name(), DEPTH_ATTR);
  }

  lemma Spell_DIP()
    ensures DIP.ToLowerCase() == DIP_ATTR
  {
    LowerSpelled(DIP.Name(), DIP_ATTR);
  }

  lemma Spell_RAKE()
    ensures RAKE.ToLowerCase() == RAKE_ATTR
  {
    LowerSpelled(RAKE.Name(), RAKE_ATTR);
  }

  lemma Spell_WIDTH()
    ensures WIDTH.ToLowerCase() == WIDTH_ATTR
  {
    LowerSpelled(WIDTH.Name(), WIDTH_ATTR);
  }

  lemma Spell_RUPTURE_SCALING()
    ensures RUPTURE_SCALING.ToLowerCamelCase() == RUPTURE_SCALING_ATTR
  {
    LowerCamel_RUPTURE_SCALING(RUPTURE_SCALING.Name());
  }

  /** Every element and attribute name the exporters spell from a constant. */
  lemma NamesSpelled()
    ensures FAULT_SOURCE_SET.ToUpperCamelCase() == FAULT_SOURCE_SET_TAG
    ensures SETTINGS.ToUpperCamelCase() == SETTINGS_TAG
    ensures DEFAULT_MFDS.ToUpperCamelCase() == DEFAULT_MFDS_TAG
    ensures INCREMENTAL_MFD.ToUpperCamelCase() == INCREMENTAL_MFD_TAG
    ensures MAG_UNCERTAINTY.ToUpperCamelCase() == MAG_UNCERTAINTY_TAG
    ensures SOURCE_PROPERTIES.ToUpperCamelCase() == SOURCE_PROPERTIES_TAG
    ensures RUPTURE_SCALING_MODELS.ToUpperCamelCase() == RUPTURE_SCALING_MODELS_TAG
    ensures SOURCE.ToUpperCamelCase() == SOURCE_TAG
    ensures DEFORMATION_MODEL.ToUpperCamelCase() == DEFORMATION_MODEL_TAG
    ensures GEOMETRY.ToUpperCamelCase() == GEOMETRY_TAG
    ensures TRACE.ToUpperCamelCase() == TRACE_TAG
    ensures FAULTS.ToUpperCamelCase() == FAULTS_TAG
    ensures ID.ToLowerCase() == ID_ATTR && RATE.ToLowerCase() == RATE_ATTR
    ensures NAME.ToLowerCase() == NAME_ATTR && WEIGHT.ToLowerCase() == WEIGHT_ATTR
    ensures DEPTH.ToLowerCase() == DEPTH_ATTR && DIP.ToLowerCase() == DIP_ATTR
    ensures RAKE.ToLowerCase() == RAKE_ATTR && WIDTH.ToLowerCase() == WIDTH_ATTR
    ensures RUPTURE_SCALING.ToLowerCamelCase() == RUPTURE_SCALING_ATTR
  {
    Spell_FAULT_SOURCE_SET();
    Spell_SETTINGS();
    Spell_DEFAULT_MFDS();
    Spell_INCREMENTAL_MFD();
    Spell_MAG_UNCERTAINTY();
    Spell_SOURCE_PROPERTIES();
    Spell_RUPTURE_SCALING_MODELS();
    Spell_SOURCE();
    Spell_DEFORMATION_MODEL();
    Spell_GEOMETRY();
    Spell_TRACE();
    Spell_FAULTS();
    Spell_ID();
    Spell_RATE();
    Spell_NAME();
    Spell_WEIGHT();
    Spell_DEPTH();
    Spell_DIP();
    Spell_RAKE();
    Spell_WIDTH();
    Spell_RUPTURE_SCALING();
  }

  lemma LowerCamel_RUPTURE_SCALING(n: string)
    requires n == "RUPTURE_SCALING"
    ensures LowerCamel(n) == RUPTURE_SCALING_ATTR
  {
    LowerSpelled("RUPTURE", "rupture");
    Capitalized_SCALING();
    LowerSpelledTwo(n, "RUPTURE", "SCALING", RUPTURE_SCALING_ATTR);
  }

  // ---------------------------------------------------------------------
  // Attributes

  /** `getAttribute(name)`, absent as None. */
  function Lookup(attrs: Attrs, name: string): Option<string>
  {
    if attrs == [] then None
    else if attrs[0].0 == name then Some(attrs[0].1)
    else Lookup(attrs[1..], name)
  }

  /** `setAttribute(name, value)` */
  function SetAttribute(attrs: Attrs, name: string, value: string): (r: Attrs)
    ensures Lookup(attrs, name).None? ==> r == attrs + [(name, value)]
    ensures Lookup(attrs, name).Some? ==> |r| == |attrs|
  {
    if attrs == [] then [(name, value)]
    else if attrs[0].0 == name then [(name, value)] + attrs[1..]
    else [attrs[0]] + SetAttribute(attrs[1..], name, value)
  }

  /** After `setAttribute(name, value)` the name reads `value` and every other name reads as before. */
  lemma {:induction false} SetAttributeLookup(attrs: Attrs, name: string, value: string, other: string)
    ensures Lookup(SetAttribute(attrs, name, value), name) == Some(value)
    ensures other != name ==> Lookup(SetAttribute(attrs, name, value), other) == Lookup(attrs, other)
  {
    if attrs != [] && attrs[0].0 != name {
      SetAttributeLookup(attrs[1..], name, value, other);
    }
  }

  // ---------------------------------------------------------------------
  // Copying an attribute map onto an element

  /**
   * The attributes an element has after `setAttribute(key.toLowerCamelCase(),
   * value)` for each entry in map order, skipping the key `skip`.
   */
  function Copied(es: Entries<SourceAttribute, string>, skip: Option<SourceAttribute>): Attrs
  {
    if es == [] then []
    else
      var last := es[|es| - 1];
      var before := Copied(es[..|es| - 1], skip);
      if skip == Some(last.0) then before else SetAttribute(before, last.0.ToLowerCamelCase(), last.1)
  }

  /** The entries renamed to lower camel case, without the skipped key: an independent reference. */
  function Renamed(es: Entries<SourceAttribute, string>, skip: Option<SourceAttribute>): Attrs
  {
    if es == [] then []
    else if skip == Some(es[0].0) then Renamed(es[1..], skip)
    else [(es[0].0.ToLowerCamelCase(), es[0].1)] + Renamed(es[1..], skip)
  }

  /** The loop of each exporter that copies a map's entries onto an element. */
  method CopyAttributes(es: Entries<SourceAttribute, string>, skip: Option<SourceAttribute>) returns (attrs: Attrs)
    ensures attrs == Copied(es, skip)
  {
    attrs := [];
    for i := 0 to |es|
      invariant attrs == Copied(es[..i], skip)
    {
      assert es[..i + 1][..i] == es[..i];
      if skip != Some(es[i].0) {
        attrs := SetAttribute(attrs, es[i].0.ToLowerCamelCase(), es[i].1);
      }
    }
    assert es[..|es|] == es;
  }

  lemma {:induction false} RenamedSnoc(es: Entries<SourceAttribute, string>, e: (SourceAttribute, string), skip: Option<SourceAttribute>)
    ensures Renamed(es + [e], skip) == Renamed(es, skip) + (if skip == Some(e.0) then [] else [(e.0.ToLowerCamelCase(), e.1)])
  {
    if es == [] {
      assert [] + [e] == [e];
      assert [e][1..] == [];
    } else {
      assert (es + [e])[1..] == es[1..] + [e];
      RenamedSnoc(es[1..], e, skip);
    }
  }

  /** A name not among the renamed keys of an entry list is not looked up in it. */
  lemma {:induction false} RenamedLacks(es: Entries<SourceAttribute, string>, skip: Option<SourceAttribute>, k: SourceAttribute)
    requires !HasKey(es, k)
    ensures Lookup(Renamed(es, skip), k.ToLowerCamelCase()).None?
  {
    if es != [] {
      assert es[0].0 != k;
      LowerCamelNamesDistinct(es[0].0, k);
      assert !HasKey(es[1..], k);
      RenamedLacks(es[1..], skip, k);
    }
  }

  /**
   * With distinct keys, no `setAttribute` replaces an earlier one (distinct
   * constants have distinct lower camel names), so the element carries the
   * entries, renamed, in map order.
   */
  lemma {:induction false} CopiedIsRenamed(es: Entries<SourceAttribute, string>, skip: Option<SourceAttribute>)
    requires DistinctKeys(es)
    ensures Copied(es, skip) == Renamed(es, skip)
  {
    if es != [] {
      var n := |es|;
      var init, last := es[..n - 1], es[n - 1];
      assert es == init + [last];
      assert DistinctKeys(init) by {
        forall i, j | 0 <= i < j < |init| ensures init[i].0 != init[j].0 {
          assert init[i] == es[i] && init[j] == es[j];
        }
      }
      CopiedIsRenamed(init, skip);
      RenamedSnoc(init, last, skip);
      if skip != Some(last.0) {
        assert !HasKey(init, last.0);
        RenamedLacks(init, skip, last.0);
      }
    }
  }

  /** The skipped key's attribute is never set. */
  lemma {:induction false} SkippedAbsent(es: Entries<SourceAttribute, string>, k: SourceAttribute)
    ensures Lookup(Copied(es, Some(k)), k.ToLowerCamelCase()).None?
  {
    if es != [] {
      SkippedAbsent(es[..|es| - 1], k);
      SkippedStep(Copied(es[..|es| - 1], Some(k)), es[|es| - 1], k, Copied(es, Some(k)));
    }
  }

  lemma SkippedStep(before: Attrs, last: (SourceAttribute, string), k: SourceAttribute, after: Attrs)
    requires Lookup(before, k.ToLowerCamelCase()).None?
    requires after == if Some(k) == Some(last.0) then before else SetAttribute(before, last.0.ToLowerCamelCase(), last.1)
    ensures Lookup(after, k.ToLowerCamelCase()).None?
  {
    if last.0 != k {
      LowerCamelNamesDistinct(last.0, k);
      SetAttributeLookup(before, last.0.ToLowerCamelCase(), last.1, k.ToLowerCamelCase());
    }
  }

  /** Every other entry is readable back under its lower camel name, when the keys are distinct. */
  lemma CopiedLookup(es: Entries<SourceAttribute, string>, skip: Option<SourceAttribute>, i: nat)
    requires DistinctKeys(es) && i < |es| && skip != Some(es[i].0)
    ensures Lookup(Copied(es, skip), es[i].0.ToLowerCamelCase()) == Some(es[i].1)
  {
    CopiedIsRenamed(es, skip);
    RenamedLookup(es, skip, i);
  }

  lemma DistinctTail(es: Entries<SourceAttribute, string>)
    requires DistinctKeys(es) && es != []
    ensures DistinctKeys(es[1..])
  {
    forall a, b | 0 <= a < b < |es| - 1 ensures es[1..][a].0 != es[1..][b].0 {
      assert es[1..][a] == es[a + 1] && es[1..][b] == es[b + 1];
    }
  }

  lemma {:induction false} RenamedLookup(es: Entries<SourceAttribute, string>, skip: Option<SourceAttribute>, i: nat)
    requires DistinctKeys(es) && i < |es| && skip != Some(es[i].0)
    ensures Lookup(Renamed(es, skip), es[i].0.ToLowerCamelCase()) == Some(es[i].1)
  {
    if i > 0 {
      DistinctTail(es);
      assert es[1..][i - 1] == es[i];
      RenamedLookup(es[1..], skip, i - 1);
      if skip != Some(es[0].0) {
        LowerCamelNamesDistinct(es[0].0, es[i].0);
      }
    }
  }

  // ---------------------------------------------------------------------
  // The settings parts both exporters write alike

  /** Every default MFD is written as an IncrementalMfd element carrying all its entries, type included. */
  function MfdElement(m: DefaultMfd): Node
  {
    Element(INCREMENTAL_MFD_TAG, Copied(m.attributes, None), [])
  }

  /**
   * A magnitude uncertainty is written as an element named by its TYPE
   * value, carrying every other entry. Without a TYPE entry the map yields
   * null, and the document refuses a null element name with a DOMException
   * (INVALID_CHARACTER_ERR).
   */
  function UncertaintyElement(u: MagUncertainty): Result<Node>
  {
    if !HasKey(u.attributes, TYPE) then Failure(InvalidCharacter)
    else Success(Element(Get(u.attributes, TYPE), Copied(u.attributes, Some(TYPE)), []))
  }

  /** The DefaultMfds element: one child per MFD, in list order. */
  function MfdsElement(mfds: seq<DefaultMfd>): Node
  {
    Element(DEFAULT_MFDS_TAG, [], seq(|mfds|, i requires 0 <= i < |mfds| => MfdElement(mfds[i])))
  }

  /** The MagUncertainty element's children, or the failure of the first that cannot be made. */
  function UncertaintyChildren(us: seq<MagUncertainty>): Result<seq<Node>>
  {
    if us == [] then Success([])
    else
      var before :- UncertaintyChildren(us[..|us| - 1]);
      var last :- UncertaintyElement(us[|us| - 1]);
      Success(before + [last])
  }

  /** The MagUncertainty element. */
  function UncertaintiesElement(us: seq<MagUncertainty>): Result<Node>
  {
    var children :- UncertaintyChildren(us);
    Success(Element(MAG_UNCERTAINTY_TAG, [], children))
  }

  /** The loop over the default MFDs. */
  method WriteMfds(mfds: seq<DefaultMfd>) returns (e: Node)
    ensures e == MfdsElement(mfds)
  {
    var children: seq<Node> := [];
    for i := 0 to |mfds|
      invariant |children| == i
      invariant forall k :: 0 <= k < i ==> children[k] == MfdElement(mfds[k])
    {
      var attrs := CopyAttributes(mfds[i].attributes, None);
      children := children + [Element(INCREMENTAL_MFD_TAG, attrs, [])];
    }
    e := Element(DEFAULT_MFDS_TAG, [], children);
    assert children == MfdsElement(mfds).children;
  }

  /** The loop over the magnitude uncertainties. */
  method WriteUncertainties(us: seq<MagUncertainty>) returns (r: Result<Node>)
    ensures r == UncertaintiesElement(us)
  {
    var children: seq<Node> := [];
    for i := 0 to |us|
      invariant UncertaintyChildren(us[..i]) == Success(children)
    {
      assert us[..i + 1][..i] == us[..i];
      if !HasKey(us[i].attributes, TYPE) {
        FirstFailureStays(us, i + 1);
        return Failure(InvalidCharacter);
      }
      var attrs := CopyAttributes(us[i].attributes, Some(TYPE));
      children := children + [Element(Get(us[i].attributes, TYPE), attrs, [])];
    }
    assert us[..|us|] == us;
    r := Success(Element(MAG_UNCERTAINTY_TAG, [], children));
  }

  /** A failure among the first `i` uncertainties is the failure of them all. */
  lemma {:induction false} FirstFailureStays(us: seq<MagUncertainty>, i: nat)
    requires i <= |us| && UncertaintyChildren(us[..i]).Failure?
    ensures UncertaintyChildren(us) == UncertaintyChildren(us[..i])
    decreases |us| - i
  {
    if i < |us| {
      assert us[..i + 1][..i] == us[..i];
      FirstFailureStays(us, i + 1);
    } else {
      assert us[..i] == us;
    }
  }

  /**
   * Uncertainty elements: with a TYPE entry, the tag is the TYPE value, no
   * attribute is named "type", and every other entry is an attribute; the
   * list fails exactly when some uncertainty has no TYPE entry.
   */
  lemma UncertaintyElementShape(u: MagUncertainty)
    requires DistinctKeys(u.attributes)
    ensures UncertaintyElement(u).Success? <==> HasKey(u.attributes, TYPE)
    ensures UncertaintyElement(u).Success? ==>
      var e := UncertaintyElement(u).value;
      e.tag == Get(u.attributes, TYPE) &&
      Lookup(e.attributes, TYPE.ToLowerCamelCase()).None? &&
      e.attributes == Renamed(u.attributes, Some(TYPE)) &&
      e.children == []
  {
    if HasKey(u.attributes, TYPE) {
      SkippedAbsent(u.attributes, TYPE);
      CopiedIsRenamed(u.attributes, Some(TYPE));
    }
  }

  lemma {:induction false} UncertaintyChildrenFail(us: seq<MagUncertainty>)
    ensures UncertaintyChildren(us).Success? <==> forall i :: 0 <= i < |us| ==> HasKey(us[i].attributes, TYPE)
    ensures UncertaintyChildren(us).Success? ==> |UncertaintyChildren(us).value| == |us|
    ensures UncertaintyChildren(us).Success? ==>
      forall i :: 0 <= i < |us| ==> UncertaintyChildren(us).value[i] == UncertaintyElement(us[i]).value
  {
    if us != [] {
      var n := |us|;
      var init := us[..n - 1];
      UncertaintyChildrenFail(init);
      assert us == init + [us[n - 1]];
      AllTypedSnoc(init, us[n - 1], us);
      if UncertaintyChildren(us).Success? {
        ElementsSnoc(init, UncertaintyChildren(init).value, us[n - 1], us, UncertaintyChildren(us).value);
      }
    }
  }

  /** Every uncertainty has a TYPE entry exactly when all but the last do and the last does. */
  lemma AllTypedSnoc(init: seq<MagUncertainty>, u: MagUncertainty, us: seq<MagUncertainty>)
    requires us == init + [u]
    ensures (forall i :: 0 <= i < |us| ==> HasKey(us[i].attributes, TYPE)) <==>
      (forall i :: 0 <= i < |init| ==> HasKey(init[i].attributes, TYPE)) && HasKey(u.attributes, TYPE)
  {
    assert forall i :: 0 <= i < |init| ==> us[i] == init[i];
    assert us[|init|] == u;
  }

  lemma ElementsSnoc(init: seq<MagUncertainty>, before: seq<Node>, u: MagUncertainty, us: seq<MagUncertainty>, after: seq<Node>)
    requires us == init + [u] && |before| == |init|
    requires HasKey(u.attributes, TYPE) && forall i :: 0 <= i < |init| ==> HasKey(init[i].attributes, TYPE)
    requires after == before + [UncertaintyElement(u).value]
    requires forall i :: 0 <= i < |init| ==> before[i] == UncertaintyElement(init[i]).value
    ensures forall i :: 0 <= i < |us| ==> after[i] == UncertaintyElement(us[i]).value
  {
    assert us[|init|] == u;
    forall i | 0 <= i < |us|
      ensures after[i] == UncertaintyElement(us[i]).value
    {
      if i < |init| {
        assert us[i] == init[i];
      }
    }
  }

  /** MFD elements: tagged IncrementalMfd whatever the type, carrying every entry, type included. */
  lemma MfdElementShape(m: DefaultMfd)
    requires DistinctKeys(m.attributes)
    ensures MfdElement(m).tag == INCREMENTAL_MFD_TAG
    ensures MfdElement(m).attributes == Renamed(m.attributes, None)
    ensures forall i :: 0 <= i < |m.attributes| ==>
      Lookup(MfdElement(m).attributes, m.attributes[i].0.ToLowerCamelCase()) == Some(m.attributes[i].1)
  {
    CopiedIsRenamed(m.attributes, None);
    forall i | 0 <= i < |m.attributes|
      ensures Lookup(MfdElement(m).attributes, m.attributes[i].0.ToLowerCamelCase()) == Some(m.attributes[i].1)
    {
      CopiedLookup(m.attributes, None, i);
    }
  }
}
