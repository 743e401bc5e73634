/**
 * The attribute keys of the fault model (`postgres/sources/SourceAttribute.java`):
 * one constant per XML attribute, XML element or database column name, and
 * the four spellings of a constant's name.
 */
module SourceAttributes {
  import opened Wrappers
  import opened CaseFormat

  datatype SourceAttribute =
    // Common
    | ID
    | NAME
    | DIP
    // Postgres specific
    | BIRD_DISPLACEMENT_RATE
    | CALC_WIDTH
    | FAULT_TRACE
    | GEO_DISPLACEMENT_RATE
    | GEO_RAKE
    | PRIMARY_STATE
    | STATE_ABBREV
    | UPPER_DEPTH
    | ZENG_DISPLACEMENT_RATE
    // XML file specific
    | BIRD
    | DEFORMATION_MODEL
    | DEPTH
    | FAULTS
    | FAULT_SOURCE_SET
    | GEO
    | GEOMETRY
    | RATE
    | RAKE
    | SOURCE
    | TRACE
    | WEIGHT
    | WIDTH
    | ZENG
    | SETTINGS
    | DEFAULT_MFDS
    | INCREMENTAL_MFD
    | MAG_UNCERTAINTY
    | SOURCE_PROPERTIES
    | RUPTURE_SCALING
    // Mag uncertainty
    | TYPE
    | ALEATORY
    | COUNT
    | CUTOFF
    | MO_BALANCE
    | SIGMA
    | EPISTEMIC
    | DELTAS
    | WEIGHTS
    // MFD
    | GR
    | A
    | B
    | D_MAG
    | M_MAX
    | M_MIN
    | INCR
    | FLOATS
    | M
    | SINGLE
    | GR_TAPER
    | C_MAG
    | M_CUT
    | MAGS
    | RATES
    // Sources
    | MAG_DEPTH_MAP
    | MAX_DEPTH
    | FOCAL_MECH_MAP
    | STRIKE
    | RUPTURE_SCALING_MODELS
  {
    /** The constant's name, `Enum.name()` (and `toString()`). */
    function Name(): string
    {
      match this
      case ID => "ID"
      case NAME => "NAME"
      case DIP => "DIP"
      case BIRD_DISPLACEMENT_RATE => "BIRD_DISPLACEMENT_RATE"
      case CALC_WIDTH => "CALC_WIDTH"
      case FAULT_TRACE => "FAULT_TRACE"
      case GEO_DISPLACEMENT_RATE => "GEO_DISPLACEMENT_RATE"
      case GEO_RAKE => "GEO_RAKE"
      case PRIMARY_STATE => "PRIMARY_STATE"
      case STATE_ABBREV => "STATE_ABBREV"
      case UPPER_DEPTH => "UPPER_DEPTH"
      case ZENG_DISPLACEMENT_RATE => "ZENG_DISPLACEMENT_RATE"
      case BIRD => "BIRD"
      case DEFORMATION_MODEL => "DEFORMATION_MODEL"
      case DEPTH => "DEPTH"
      case FAULTS => "FAULTS"
      case FAULT_SOURCE_SET => "FAULT_SOURCE_SET"
      case GEO => "GEO"
      case GEOMETRY => "GEOMETRY"
      case RATE => "RATE"
      case RAKE => "RAKE"
      case SOURCE => "SOURCE"
      case TRACE => "TRACE"
      case WEIGHT => "WEIGHT"
      case WIDTH => "WIDTH"
      case ZENG => "ZENG"
      case SETTINGS => "SETTINGS"
      case DEFAULT_MFDS => "DEFAULT_MFDS"
      case INCREMENTAL_MFD => "INCREMENTAL_MFD"
      case MAG_UNCERTAINTY => "MAG_UNCERTAINTY"
      case SOURCE_PROPERTIES => "SOURCE_PROPERTIES"
      case RUPTURE_SCALING => "RUPTURE_SCALING"
      case TYPE => "TYPE"
      case ALEATORY => "ALEATORY"
      case COUNT => "COUNT"
      case CUTOFF => "CUTOFF"
      case MO_BALANCE => "MO_BALANCE"
      case SIGMA => "SIGMA"
      case EPISTEMIC => "EPISTEMIC"
      case DELTAS => "DELTAS"
      case WEIGHTS => "WEIGHTS"
      case GR => "GR"
      case A => "A"
      case B => "B"
      case D_MAG => "D_MAG"
      case M_MAX => "M_MAX"
      case M_MIN => "M_MIN"
      case INCR => "INCR"
      case FLOATS => "FLOATS"
      case M => "M"
      case SINGLE => "SINGLE"
      case GR_TAPER => "GR_TAPER"
      case C_MAG => "C_MAG"
      case M_CUT => "M_CUT"
      case MAGS => "MAGS"
      case RATES => "RATES"
      case MAG_DEPTH_MAP => "MAG_DEPTH_MAP"
      case MAX_DEPTH => "MAX_DEPTH"
      case FOCAL_MECH_MAP => "FOCAL_MECH_MAP"
      case STRIKE => "STRIKE"
      case RUPTURE_SCALING_MODELS => "RUPTURE_SCALING_MODELS"
    }

    /** The five constants that the legacy enum of the same name does not have. */
    predicate SourcesOnly()
    {
      this in {MAG_DEPTH_MAP, MAX_DEPTH, FOCAL_MECH_MAP, STRIKE, RUPTURE_SCALING_MODELS}
    }

    /** `toLowerCase()` */
    function ToLowerCase(): string
    {
      Lower(Name())
    }

    /** `toUpperCase()` */
    function ToUpperCase(): string
    {
      Upper(Name())
    }

    /** `toUpperCamelCase()` */
    function ToUpperCamelCase(): string
    {
      UpperCamel(Name())
    }

    /** `toLowerCamelCase()` */
    function ToLowerCamelCase(): string
    {
      LowerCamel(Name())
    }
  }

  /** The lower-case name has no capital letter, and upper-casing it gives the name back. */
  lemma LowerCaseRoundTrip(a: SourceAttribute)
    ensures |a.ToLowerCase()| == |a.Name()| && Upper(a.ToLowerCase()) == a.Name()
    ensures forall i :: 0 <= i < |a.ToLowerCase()| ==> !IsUpper(a.ToLowerCase()[i])
  {
    NamesAreConstantCase(a);
    CaseRoundTrip(a.Name());
  }

  /** Every name is already upper case, so `toUpperCase()` is the name itself. */
  lemma UpperCaseIsName(a: SourceAttribute)
    ensures a.ToUpperCase() == a.Name()
  {
    NamesAreConstantCase(a);
    CaseRoundTrip(a.Name());
  }

  /** Both camel forms drop every '_' and `FromCamel` recovers the name from either. */
  lemma CamelRoundTrip(a: SourceAttribute)
    ensures FromCamel(a.ToUpperCamelCase()) == a.Name() && '_' !in a.ToUpperCamelCase()
    ensures FromCamel(a.ToLowerCamelCase()) == a.Name() && '_' !in a.ToLowerCamelCase()
  {
    NamesAreConstantCase(a);
    UpperCamelRoundTrip(a.Name());
    LowerCamelRoundTrip(a.Name());
    CamelFormsHaveNoSeparator(a.Name());
  }

  /**
   * The lower camel form is the upper camel form with its first letter in
   * lower case; for a one-word name it is just the lower-case name.
   */
  lemma CamelFormsDifferInFirstLetter(a: SourceAttribute)
    ensures |a.ToLowerCamelCase()| == |a.ToUpperCamelCase()| > 0
    ensures a.ToLowerCamelCase()[1..] == a.ToUpperCamelCase()[1..]
    ensures IsUpper(a.ToUpperCamelCase()[0])
    ensures a.ToLowerCamelCase()[0] == LowerChar(a.ToUpperCamelCase()[0])
    ensures '_' !in a.Name() ==> a.ToLowerCamelCase() == a.ToLowerCase()
  {
    NamesAreConstantCase(a);
    CamelFormsAgreeAfterFirst(a.Name());
    if '_' !in a.Name() {
      SingleWordLowerCamel(a.Name());
    }
  }

  /** Different constants have different lower camel names, the XML attribute names. */
  lemma LowerCamelNamesDistinct(a: SourceAttribute, b: SourceAttribute)
    requires a != b
    ensures a.ToLowerCamelCase() != b.ToLowerCamelCase()
  {
    if a.ToLowerCamelCase() == b.ToLowerCamelCase() {
      CamelRoundTrip(a);
      CamelRoundTrip(b);
      NameInjective(a, b);
    }
  }

  /** D_MAG, as an XML attribute, is spelled "dMag". */
  lemma DMagLowerCamel()
    ensures D_MAG.ToLowerCamelCase() == "dMag"
  {
    DMagCamel(D_MAG.Name());
  }

  lemma DMagCamel(n: string)
    requires n == "D_MAG"
    ensures LowerCamel(n) == "dMag"
  {
    MagCapitalized();
    DMagParts(n, "D", "MAG");
  }

  lemma MagCapitalized()
    ensures Capitalize("MAG") == "Mag"
  {
    CapitalizeSpelled("MAG", "Mag");
  }

  lemma DMagParts(n: string, d: string, m: string)
    requires n == d + "_" + m && d == "D" && m == "MAG" && Capitalize(m) == "Mag"
    ensures LowerCamel(n) == "dMag"
  {
    CamelTwo(d, m);
    assert Lower(d) == "d";
  }

  /** Every constant's name is a well-formed UPPER_UNDERSCORE name. */
  lemma NamesAreConstantCase(a: SourceAttribute)
    ensures ConstantCase(a.Name())
  {
    if a.ID? || a.NAME? || a.DIP? || a.BIRD_DISPLACEMENT_RATE? || a.CALC_WIDTH? || a.FAULT_TRACE? || a.GEO_DISPLACEMENT_RATE? || a.GEO_RAKE? || a.PRIMARY_STATE? || a.STATE_ABBREV? || a.UPPER_DEPTH? || a.ZENG_DISPLACEMENT_RATE? || a.BIRD? || a.DEFORMATION_MODEL? || a.DEPTH? || a.FAULTS? {
      NamesAreConstantCase1(a);
    } else if a.FAULT_SOURCE_SET? || a.GEO? || a.GEOMETRY? || a.RATE? || a.RAKE? || a.SOURCE? || a.TRACE? || a.WEIGHT? || a.WIDTH? || a.ZENG? || a.SETTINGS? || a.DEFAULT_MFDS? || a.INCREMENTAL_MFD? || a.MAG_UNCERTAINTY? || a.SOURCE_PROPERTIES? || a.RUPTURE_SCALING? {
      NamesAreConstantCase2(a);
    } else if a.TYPE? || a.ALEATORY? || a.COUNT? || a.CUTOFF? || a.MO_BALANCE? || a.SIGMA? || a.EPISTEMIC? || a.DELTAS? || a.WEIGHTS? || a.GR? || a.A? || a.B? || a.D_MAG? || a.M_MAX? || a.M_MIN? || a.INCR? {
      NamesAreConstantCase3(a);
    } else {
      NamesAreConstantCase4(a);
    }
  }

  lemma NamesAreConstantCase1(a: SourceAttribute)
    requires a.ID? || a.NAME? || a.DIP? || a.BIRD_DISPLACEMENT_RATE? || a.CALC_WIDTH? || a.FAULT_TRACE? || a.GEO_DISPLACEMENT_RATE? || a.GEO_RAKE? || a.PRIMARY_STATE? || a.STATE_ABBREV? || a.UPPER_DEPTH? || a.ZENG_DISPLACEMENT_RATE? || a.BIRD? || a.DEFORMATION_MODEL? || a.DEPTH? || a.FAULTS?
    ensures ConstantCase(a.Name())
  {
    match a
    case ID => ConstantCase_ID();
    case NAME => ConstantCase_NAME();
    case DIP => ConstantCase_DIP();
    case BIRD_DISPLACEMENT_RATE => ConstantCase_BIRD_DISPLACEMENT_RATE();
    case CALC_WIDTH => ConstantCase_CALC_WIDTH();
    case FAULT_TRACE => ConstantCase_FAULT_TRACE();
    case GEO_DISPLACEMENT_RATE => ConstantCase_GEO_DISPLACEMENT_RATE();
    case GEO_RAKE => ConstantCase_GEO_RAKE();
    case PRIMARY_STATE => ConstantCase_PRIMARY_STATE();
    case STATE_ABBREV => ConstantCase_STATE_ABBREV();
    case UPPER_DEPTH => ConstantCase_UPPER_DEPTH();
    case ZENG_DISPLACEMENT_RATE => ConstantCase_ZENG_DISPLACEMENT_RATE();
    case BIRD => ConstantCase_BIRD();
    case DEFORMATION_MODEL => ConstantCase_DEFORMATION_MODEL();
    case DEPTH => ConstantCase_DEPTH();
    case FAULTS => ConstantCase_FAULTS();
  }

  lemma NamesAreConstantCase2(a: SourceAttribute)
    requires a.FAULT_SOURCE_SET? || a.GEO? || a.GEOMETRY? || a.RATE? || a.RAKE? || a.SOURCE? || a.TRACE? || a.WEIGHT? || a.WIDTH? || a.ZENG? || a.SETTINGS? || a.DEFAULT_MFDS? || a.INCREMENTAL_MFD? || a.MAG_UNCERTAINTY? || a.SOURCE_PROPERTIES? || a.RUPTURE_SCALING?
    ensures ConstantCase(a.Name())
  {
    match a
    case FAULT_SOURCE_SET => ConstantCase_FAULT_SOURCE_SET();
    case GEO => ConstantCase_GEO();
    case GEOMETRY => ConstantCase_GEOMETRY();
    case RATE => ConstantCase_RATE();
    case RAKE => ConstantCase_RAKE();
    case SOURCE => ConstantCase_SOURCE();
    case TRACE => ConstantCase_TRACE();
    case WEIGHT => ConstantCase_WEIGHT();
    case WIDTH => ConstantCase_WIDTH();
    case ZENG => ConstantCase_ZENG();
    case SETTINGS => ConstantCase_SETTINGS();
    case DEFAULT_MFDS => ConstantCase_DEFAULT_MFDS();
    case INCREMENTAL_MFD => ConstantCase_INCREMENTAL_MFD();
    case MAG_UNCERTAINTY => ConstantCase_MAG_UNCERTAINTY();
    case SOURCE_PROPERTIES => ConstantCase_SOURCE_PROPERTIES();
    case RUPTURE_SCALING => ConstantCase_RUPTURE_SCALING();
  }

  lemma NamesAreConstantCase3(a: SourceAttribute)
    requires a.TYPE? || a.ALEATORY? || a.COUNT? || a.CUTOFF? || a.MO_BALANCE? || a.SIGMA? || a.EPISTEMIC? || a.DELTAS? || a.WEIGHTS? || a.GR? || a.A? || a.B? || a.D_MAG? || a.M_MAX? || a.M_MIN? || a.INCR?
    ensures ConstantCase(a.Name())
  {
    match a
    case TYPE => ConstantCase_TYPE();
    case ALEATORY => ConstantCase_ALEATORY();
    case COUNT => ConstantCase_COUNT();
    case CUTOFF => ConstantCase_CUTOFF();
    case MO_BALANCE => ConstantCase_MO_BALANCE();
    case SIGMA => ConstantCase_SIGMA();
    case EPISTEMIC => ConstantCase_EPISTEMIC();
    case DELTAS => ConstantCase_DELTAS();
    case WEIGHTS => ConstantCase_WEIGHTS();
    case GR => ConstantCase_GR();
    case A => ConstantCase_A();
    case B => ConstantCase_B();
    case D_MAG => ConstantCase_D_MAG();
    case M_MAX => ConstantCase_M_MAX();
    case M_MIN => ConstantCase_M_MIN();
    case INCR => ConstantCase_INCR();
  }

  lemma NamesAreConstantCase4(a: SourceAttribute)
    requires a.FLOATS? || a.M? || a.SINGLE? || a.GR_TAPER? || a.C_MAG? || a.M_CUT? || a.MAGS? || a.RATES? || a.MAG_DEPTH_MAP? || a.MAX_DEPTH? || a.FOCAL_MECH_MAP? || a.STRIKE? || a.RUPTURE_SCALING_MODELS?
    ensures ConstantCase(a.Name())
  {
    match a
    case FLOATS => ConstantCase_FLOATS();
    case M => ConstantCase_M();
    case SINGLE => ConstantCase_SINGLE();
    case GR_TAPER => ConstantCase_GR_TAPER();
    case C_MAG => ConstantCase_C_MAG();
    case M_CUT => ConstantCase_M_CUT();
    case MAGS => ConstantCase_MAGS();
    case RATES => ConstantCase_RATES();
    case MAG_DEPTH_MAP => ConstantCase_MAG_DEPTH_MAP();
    case MAX_DEPTH => ConstantCase_MAX_DEPTH();
    case FOCAL_MECH_MAP => ConstantCase_FOCAL_MECH_MAP();
    case STRIKE => ConstantCase_STRIKE();
    case RUPTURE_SCALING_MODELS => ConstantCase_RUPTURE_SCALING_MODELS();
  }

  // ---------------------------------------------------------------------
  // Spelling: one lemma per constant, stating that its name is a constant
  // name. Each proof unfolds a single literal, which keeps the solver's work
  // small; the NamesAreConstantCase lemmas above gather them.

  lemma ConstantCase_ID() ensures ConstantCase(ID.Name()) {}
  lemma ConstantCase_NAME() ensures ConstantCase(NAME.Name()) {}
  lemma ConstantCase_DIP() ensures ConstantCase(DIP.Name()) {}
  lemma ConstantCase_BIRD_DISPLACEMENT_RATE() ensures ConstantCase(BIRD_DISPLACEMENT_RATE.Name()) {}
  lemma ConstantCase_CALC_WIDTH() ensures ConstantCase(CALC_WIDTH.Name()) {}
  lemma ConstantCase_FAULT_TRACE() ensures ConstantCase(FAULT_TRACE.Name()) {}
  lemma ConstantCase_GEO_DISPLACEMENT_RATE() ensures ConstantCase(GEO_DISPLACEMENT_RATE.Name()) {}
  lemma ConstantCase_GEO_RAKE() ensures ConstantCase(GEO_RAKE.Name()) {}
  lemma ConstantCase_PRIMARY_STATE() ensures ConstantCase(PRIMARY_STATE.Name()) {}
  lemma ConstantCase_STATE_ABBREV() ensures ConstantCase(STATE_ABBREV.Name()) {}
  lemma ConstantCase_UPPER_DEPTH() ensures ConstantCase(UPPER_DEPTH.Name()) {}
  lemma ConstantCase_ZENG_DISPLACEMENT_RATE() ensures ConstantCase(ZENG_DISPLACEMENT_RATE.Name()) {}
  lemma ConstantCase_BIRD() ensures ConstantCase(BIRD.Name()) {}
  lemma ConstantCase_DEFORMATION_MODEL() ensures ConstantCase(DEFORMATION_MODEL.Name()) {}
  lemma ConstantCase_DEPTH() ensures ConstantCase(DEPTH.Name()) {}
  lemma ConstantCase_FAULTS() ensures ConstantCase(FAULTS.Name()) {}
  lemma ConstantCase_FAULT_SOURCE_SET() ensures ConstantCase(FAULT_SOURCE_SET.Name()) {}
  lemma ConstantCase_GEO() ensures ConstantCase(GEO.Name()) {}
  lemma ConstantCase_GEOMETRY() ensures ConstantCase(GEOMETRY.Name()) {}
  lemma ConstantCase_RATE() ensures ConstantCase(RATE.Name()) {}
  lemma ConstantCase_RAKE() ensures ConstantCase(RAKE.Name()) {}
  lemma ConstantCase_SOURCE() ensures ConstantCase(SOURCE.Name()) {}
  lemma ConstantCase_TRACE() ensures ConstantCase(TRACE.Name()) {}
  lemma ConstantCase_WEIGHT() ensures ConstantCase(WEIGHT.Name()) {}
  lemma ConstantCase_WIDTH() ensures ConstantCase(WIDTH.Name()) {}
  lemma ConstantCase_ZENG() ensures ConstantCase(ZENG.Name()) {}
  lemma ConstantCase_SETTINGS() ensures ConstantCase(SETTINGS.Name()) {}
  lemma ConstantCase_DEFAULT_MFDS() ensures ConstantCase(DEFAULT_MFDS.Name()) {}
  lemma ConstantCase_INCREMENTAL_MFD() ensures ConstantCase(INCREMENTAL_MFD.Name()) {}
  lemma ConstantCase_MAG_UNCERTAINTY() ensures ConstantCase(MAG_UNCERTAINTY.Name()) {}
  lemma ConstantCase_SOURCE_PROPERTIES() ensures ConstantCase(SOURCE_PROPERTIES.Name()) {}
  lemma ConstantCase_RUPTURE_SCALING() ensures ConstantCase(RUPTURE_SCALING.Name()) {}
  lemma ConstantCase_TYPE() ensures ConstantCase(TYPE.Name()) {}
  lemma ConstantCase_ALEATORY() ensures ConstantCase(ALEATORY.Name()) {}
  lemma ConstantCase_COUNT() ensures ConstantCase(COUNT.Name()) {}
  lemma ConstantCase_CUTOFF() ensures ConstantCase(CUTOFF.Name()) {}
  lemma ConstantCase_MO_BALANCE() ensures ConstantCase(MO_BALANCE.Name()) {}
  lemma ConstantCase_SIGMA() ensures ConstantCase(SIGMA.Name()) {}
  lemma ConstantCase_EPISTEMIC() ensures ConstantCase(EPISTEMIC.Name()) {}
  lemma ConstantCase_DELTAS() ensures ConstantCase(DELTAS.Name()) {}
  lemma ConstantCase_WEIGHTS() ensures ConstantCase(WEIGHTS.Name()) {}
  lemma ConstantCase_GR() ensures ConstantCase(GR.Name()) {}
  lemma ConstantCase_A() ensures ConstantCase(A.Name()) {}
  lemma ConstantCase_B() ensures ConstantCase(B.Name()) {}
  lemma ConstantCase_D_MAG() ensures ConstantCase(D_MAG.Name()) {}
  lemma ConstantCase_M_MAX() ensures ConstantCase(M_MAX.Name()) {}
  lemma ConstantCase_M_MIN() ensures ConstantCase(M_MIN.Name()) {}
  lemma ConstantCase_INCR() ensures ConstantCase(INCR.Name()) {}
  lemma ConstantCase_FLOATS() ensures ConstantCase(FLOATS.Name()) {}
  lemma ConstantCase_M() ensures ConstantCase(M.Name()) {}
  lemma ConstantCase_SINGLE() ensures ConstantCase(SINGLE.Name()) {}
  lemma ConstantCase_GR_TAPER() ensures ConstantCase(GR_TAPER.Name()) {}
  lemma ConstantCase_C_MAG() ensures ConstantCase(C_MAG.Name()) {}
  lemma ConstantCase_M_CUT() ensures ConstantCase(M_CUT.Name()) {}
  lemma ConstantCase_MAGS() ensures ConstantCase(MAGS.Name()) {}
  lemma ConstantCase_RATES() ensures ConstantCase(RATES.Name()) {}
  lemma ConstantCase_MAG_DEPTH_MAP() ensures ConstantCase(MAG_DEPTH_MAP.Name()) {}
  lemma ConstantCase_MAX_DEPTH() ensures ConstantCase(MAX_DEPTH.Name()) {}
  lemma ConstantCase_FOCAL_MECH_MAP() ensures ConstantCase(FOCAL_MECH_MAP.Name()) {}
  lemma ConstantCase_STRIKE() ensures ConstantCase(STRIKE.Name()) {}
  lemma ConstantCase_RUPTURE_SCALING_MODELS() ensures ConstantCase(RUPTURE_SCALING_MODELS.Name()) {}

  /**
   * `SourceAttribute.valueOf(s)`: the constant named `s`, if there is one
   * (the names are looked up among those of the same length).
   */
  function ValueOf(s: string): Option<SourceAttribute>
  {
    if |s| == 1 then
      if s == "A" then Some(A)
      else if s == "B" then Some(B)
      else if s == "M" then Some(M)
      else None
    else if |s| == 2 then
      if s == "ID" then Some(ID)
      else if s == "GR" then Some(GR)
      else None
    else if |s| == 3 then
      if s == "DIP" then Some(DIP)
      else if s == "GEO" then Some(GEO)
      else None
    else if |s| == 4 then
      if s == "NAME" then Some(NAME)
      else if s == "BIRD" then Some(BIRD)
      else if s == "RATE" then Some(RATE)
      else if s == "RAKE" then Some(RAKE)
      else if s == "ZENG" then Some(ZENG)
      else if s == "TYPE" then Some(TYPE)
      else if s == "INCR" then Some(INCR)
      else if s == "MAGS" then Some(MAGS)
      else None
    else if |s| == 5 then
      if s == "DEPTH" then Some(DEPTH)
      else if s == "TRACE" then Some(TRACE)
      else if s == "WIDTH" then Some(WIDTH)
      else if s == "COUNT" then Some(COUNT)
      else if s == "SIGMA" then Some(SIGMA)
      else if s == "D_MAG" then Some(D_MAG)
      else if s == "M_MAX" then Some(M_MAX)
      else if s == "M_MIN" then Some(M_MIN)
      else if s == "C_MAG" then Some(C_MAG)
      else if s == "M_CUT" then Some(M_CUT)
      else if s == "RATES" then Some(RATES)
      else None
    else if |s| == 6 then
      if s == "FAULTS" then Some(FAULTS)
      else if s == "SOURCE" then Some(SOURCE)
      else if s == "WEIGHT" then Some(WEIGHT)
      else if s == "CUTOFF" then Some(CUTOFF)
      else if s == "DELTAS" then Some(DELTAS)
      else if s == "FLOATS" then Some(FLOATS)
      else if s == "SINGLE" then Some(SINGLE)
      else if s == "STRIKE" then Some(STRIKE)
      else None
    else if |s| == 7 then
      if s == "WEIGHTS" then Some(WEIGHTS)
      else None
    else if |s| == 8 then
      if s == "GEO_RAKE" then Some(GEO_RAKE)
      else if s == "GEOMETRY" then Some(GEOMETRY)
      else if s == "SETTINGS" then Some(SETTINGS)
      else if s == "ALEATORY" then Some(ALEATORY)
      else if s == "GR_TAPER" then Some(GR_TAPER)
      else None
    else if |s| == 9 then
      if s == "EPISTEMIC" then Some(EPISTEMIC)
      else if s == "MAX_DEPTH" then Some(MAX_DEPTH)
      else None
    else if |s| == 10 then
      if s == "CALC_WIDTH" then Some(CALC_WIDTH)
      else if s == "MO_BALANCE" then Some(MO_BALANCE)
      else None
    else if |s| == 11 then
      if s == "FAULT_TRACE" then Some(FAULT_TRACE)
      else if s == "UPPER_DEPTH" then Some(UPPER_DEPTH)
      else None
    else if |s| == 12 then
      if s == "STATE_ABBREV" then Some(STATE_ABBREV)
      else if s == "DEFAULT_MFDS" then Some(DEFAULT_MFDS)
      else None
    else if |s| == 13 then
      if s == "PRIMARY_STATE" then Some(PRIMARY_STATE)
      else if s == "MAG_DEPTH_MAP" then Some(MAG_DEPTH_MAP)
      else None
    else if |s| == 14 then
      if s == "FOCAL_MECH_MAP" then Some(FOCAL_MECH_MAP)
      else None
    else if |s| == 15 then
      if s == "INCREMENTAL_MFD" then Some(INCREMENTAL_MFD)
      else if s == "MAG_UNCERTAINTY" then Some(MAG_UNCERTAINTY)
      else if s == "RUPTURE_SCALING" then Some(RUPTURE_SCALING)
      else None
    else if |s| == 16 then
      if s == "FAULT_SOURCE_SET" then Some(FAULT_SOURCE_SET)
      else None
    else if |s| == 17 then
      if s == "DEFORMATION_MODEL" then Some(DEFORMATION_MODEL)
      else if s == "SOURCE_PROPERTIES" then Some(SOURCE_PROPERTIES)
      else None
    else if |s| == 21 then
      if s == "GEO_DISPLACEMENT_RATE" then Some(GEO_DISPLACEMENT_RATE)
      else None
    else if |s| == 22 then
      if s == "BIRD_DISPLACEMENT_RATE" then Some(BIRD_DISPLACEMENT_RATE)
      else if s == "ZENG_DISPLACEMENT_RATE" then Some(ZENG_DISPLACEMENT_RATE)
      else if s == "RUPTURE_SCALING_MODELS" then Some(RUPTURE_SCALING_MODELS)
      else None
    else None
  }

  // Each constant found again from its name.
  lemma ValueOf_ID() ensures ValueOf("ID") == Some(ID) {}
  lemma ValueOf_NAME() ensures ValueOf("NAME") == Some(NAME) {}
  lemma ValueOf_DIP() ensures ValueOf("DIP") == Some(DIP) {}
  lemma ValueOf_BIRD_DISPLACEMENT_RATE() ensures ValueOf("BIRD_DISPLACEMENT_RATE") == Some(BIRD_DISPLACEMENT_RATE) {}
  lemma ValueOf_CALC_WIDTH() ensures ValueOf("CALC_WIDTH") == Some(CALC_WIDTH) {}
  lemma ValueOf_FAULT_TRACE() ensures ValueOf("FAULT_TRACE") == Some(FAULT_TRACE) {}
  lemma ValueOf_GEO_DISPLACEMENT_RATE() ensures ValueOf("GEO_DISPLACEMENT_RATE") == Some(GEO_DISPLACEMENT_RATE) {}
  lemma ValueOf_GEO_RAKE() ensures ValueOf("GEO_RAKE") == Some(GEO_RAKE) {}
  lemma ValueOf_PRIMARY_STATE() ensures ValueOf("PRIMARY_STATE") == Some(PRIMARY_STATE) {}
  lemma ValueOf_STATE_ABBREV() ensures ValueOf("STATE_ABBREV") == Some(STATE_ABBREV) {}
  lemma ValueOf_UPPER_DEPTH() ensures ValueOf("UPPER_DEPTH") == Some(UPPER_DEPTH) {}
  lemma ValueOf_ZENG_DISPLACEMENT_RATE() ensures ValueOf("ZENG_DISPLACEMENT_RATE") == Some(ZENG_DISPLACEMENT_RATE) {}
  lemma ValueOf_BIRD() ensures ValueOf("BIRD") == Some(BIRD) {}
  lemma ValueOf_DEFORMATION_MODEL() ensures ValueOf("DEFORMATION_MODEL") == Some(DEFORMATION_MODEL) {}
  lemma ValueOf_DEPTH() ensures ValueOf("DEPTH") == Some(DEPTH) {}
  lemma ValueOf_FAULTS() ensures ValueOf("FAULTS") == Some(FAULTS) {}
  lemma ValueOf_FAULT_SOURCE_SET() ensures ValueOf("FAULT_SOURCE_SET") == Some(FAULT_SOURCE_SET) {}
  lemma ValueOf_GEO() ensures ValueOf("GEO") == Some(GEO) {}
  lemma ValueOf_GEOMETRY() ensures ValueOf("GEOMETRY") == Some(GEOMETRY) {}
  lemma ValueOf_RATE() ensures ValueOf("RATE") == Some(RATE) {}
  lemma ValueOf_RAKE() ensures ValueOf("RAKE") == Some(RAKE) {}
  lemma ValueOf_SOURCE() ensures ValueOf("SOURCE") == Some(SOURCE) {}
  lemma ValueOf_TRACE() ensures ValueOf("TRACE") == Some(TRACE) {}
  lemma ValueOf_WEIGHT() ensures ValueOf("WEIGHT") == Some(WEIGHT) {}
  lemma ValueOf_WIDTH() ensures ValueOf("WIDTH") == Some(WIDTH) {}
  lemma ValueOf_ZENG() ensures ValueOf("ZENG") == Some(ZENG) {}
  lemma ValueOf_SETTINGS() ensures ValueOf("SETTINGS") == Some(SETTINGS) {}
  lemma ValueOf_DEFAULT_MFDS() ensures ValueOf("DEFAULT_MFDS") == Some(DEFAULT_MFDS) {}
  lemma ValueOf_INCREMENTAL_MFD() ensures ValueOf("INCREMENTAL_MFD") == Some(INCREMENTAL_MFD) {}
  lemma ValueOf_MAG_UNCERTAINTY() ensures ValueOf("MAG_UNCERTAINTY") == Some(MAG_UNCERTAINTY) {}
  lemma ValueOf_SOURCE_PROPERTIES() ensures ValueOf("SOURCE_PROPERTIES") == Some(SOURCE_PROPERTIES) {}
  lemma ValueOf_RUPTURE_SCALING() ensures ValueOf("RUPTURE_SCALING") == Some(RUPTURE_SCALING) {}
  lemma ValueOf_TYPE() ensures ValueOf("TYPE") == Some(TYPE) {}
  lemma ValueOf_ALEATORY() ensures ValueOf("ALEATORY") == Some(ALEATORY) {}
  lemma ValueOf_COUNT() ensures ValueOf("COUNT") == Some(COUNT) {}
  lemma ValueOf_CUTOFF() ensures ValueOf("CUTOFF") == Some(CUTOFF) {}
  lemma ValueOf_MO_BALANCE() ensures ValueOf("MO_BALANCE") == Some(MO_BALANCE) {}
  lemma ValueOf_SIGMA() ensures ValueOf("SIGMA") == Some(SIGMA) {}
  lemma ValueOf_EPISTEMIC() ensures ValueOf("EPISTEMIC") == Some(EPISTEMIC) {}
  lemma ValueOf_DELTAS() ensures ValueOf("DELTAS") == Some(DELTAS) {}
  lemma ValueOf_WEIGHTS() ensures ValueOf("WEIGHTS") == Some(WEIGHTS) {}
  lemma ValueOf_GR() ensures ValueOf("GR") == Some(GR) {}
  lemma ValueOf_A() ensures ValueOf("A") == Some(A) {}
  lemma ValueOf_B() ensures ValueOf("B") == Some(B) {}
  lemma ValueOf_D_MAG() ensures ValueOf("D_MAG") == Some(D_MAG) {}
  lemma ValueOf_M_MAX() ensures ValueOf("M_MAX") == Some(M_MAX) {}
  lemma ValueOf_M_MIN() ensures ValueOf("M_MIN") == Some(M_MIN) {}
  lemma ValueOf_INCR() ensures ValueOf("INCR") == Some(INCR) {}
  lemma ValueOf_FLOATS() ensures ValueOf("FLOATS") == Some(FLOATS) {}
  lemma ValueOf_M() ensures ValueOf("M") == Some(M) {}
  lemma ValueOf_SINGLE() ensures ValueOf("SINGLE") == Some(SINGLE) {}
  lemma ValueOf_GR_TAPER() ensures ValueOf("GR_TAPER") == Some(GR_TAPER) {}
  lemma ValueOf_C_MAG() ensures ValueOf("C_MAG") == Some(C_MAG) {}
  lemma ValueOf_M_CUT() ensures ValueOf("M_CUT") == Some(M_CUT) {}
  lemma ValueOf_MAGS() ensures ValueOf("MAGS") == Some(MAGS) {}
  lemma ValueOf_RATES() ensures ValueOf("RATES") == Some(RATES) {}
  lemma ValueOf_MAG_DEPTH_MAP() ensures ValueOf("MAG_DEPTH_MAP") == Some(MAG_DEPTH_MAP) {}
  lemma ValueOf_MAX_DEPTH() ensures ValueOf("MAX_DEPTH") == Some(MAX_DEPTH) {}
  lemma ValueOf_FOCAL_MECH_MAP() ensures ValueOf("FOCAL_MECH_MAP") == Some(FOCAL_MECH_MAP) {}
  lemma ValueOf_STRIKE() ensures ValueOf("STRIKE") == Some(STRIKE) {}
  lemma ValueOf_RUPTURE_SCALING_MODELS() ensures ValueOf("RUPTURE_SCALING_MODELS") == Some(RUPTURE_SCALING_MODELS) {}

  /** Every constant is found again from its name. */
  lemma ValueOfName(a: SourceAttribute)
    ensures ValueOf(a.Name()) == Some(a)
  {
    match a
    case ID => ValueOf_ID();
    case NAME => ValueOf_NAME();
    case DIP => ValueOf_DIP();
    case BIRD_DISPLACEMENT_RATE => ValueOf_BIRD_DISPLACEMENT_RATE();
    case CALC_WIDTH => ValueOf_CALC_WIDTH();
    case FAULT_TRACE => ValueOf_FAULT_TRACE();
    case GEO_DISPLACEMENT_RATE => ValueOf_GEO_DISPLACEMENT_RATE();
    case GEO_RAKE => ValueOf_GEO_RAKE();
    case PRIMARY_STATE => ValueOf_PRIMARY_STATE();
    case STATE_ABBREV => ValueOf_STATE_ABBREV();
    case UPPER_DEPTH => ValueOf_UPPER_DEPTH();
    case ZENG_DISPLACEMENT_RATE => ValueOf_ZENG_DISPLACEMENT_RATE();
    case BIRD => ValueOf_BIRD();
    case DEFORMATION_MODEL => ValueOf_DEFORMATION_MODEL();
    case DEPTH => ValueOf_DEPTH();
    case FAULTS => ValueOf_FAULTS();
    case FAULT_SOURCE_SET => ValueOf_FAULT_SOURCE_SET();
    case GEO => ValueOf_GEO();
    case GEOMETRY => ValueOf_GEOMETRY();
    case RATE => ValueOf_RATE();
    case RAKE => ValueOf_RAKE();
    case SOURCE => ValueOf_SOURCE();
    case TRACE => ValueOf_TRACE();
    case WEIGHT => ValueOf_WEIGHT();
    case WIDTH => ValueOf_WIDTH();
    case ZENG => ValueOf_ZENG();
    case SETTINGS => ValueOf_SETTINGS();
    case DEFAULT_MFDS => ValueOf_DEFAULT_MFDS();
    case INCREMENTAL_MFD => ValueOf_INCREMENTAL_MFD();
    case MAG_UNCERTAINTY => ValueOf_MAG_UNCERTAINTY();
    case SOURCE_PROPERTIES => ValueOf_SOURCE_PROPERTIES();
    case RUPTURE_SCALING => ValueOf_RUPTURE_SCALING();
    case TYPE => ValueOf_TYPE();
    case ALEATORY => ValueOf_ALEATORY();
    case COUNT => ValueOf_COUNT();
    case CUTOFF => ValueOf_CUTOFF();
    case MO_BALANCE => ValueOf_MO_BALANCE();
    case SIGMA => ValueOf_SIGMA();
    case EPISTEMIC => ValueOf_EPISTEMIC();
    case DELTAS => ValueOf_DELTAS();
    case WEIGHTS => ValueOf_WEIGHTS();
    case GR => ValueOf_GR();
    case A => ValueOf_A();
    case B => ValueOf_B();
    case D_MAG => ValueOf_D_MAG();
    case M_MAX => ValueOf_M_MAX();
    case M_MIN => ValueOf_M_MIN();
    case INCR => ValueOf_INCR();
    case FLOATS => ValueOf_FLOATS();
    case M => ValueOf_M();
    case SINGLE => ValueOf_SINGLE();
    case GR_TAPER => ValueOf_GR_TAPER();
    case C_MAG => ValueOf_C_MAG();
    case M_CUT => ValueOf_M_CUT();
    case MAGS => ValueOf_MAGS();
    case RATES => ValueOf_RATES();
    case MAG_DEPTH_MAP => ValueOf_MAG_DEPTH_MAP();
    case MAX_DEPTH => ValueOf_MAX_DEPTH();
    case FOCAL_MECH_MAP => ValueOf_FOCAL_MECH_MAP();
    case STRIKE => ValueOf_STRIKE();
    case RUPTURE_SCALING_MODELS => ValueOf_RUPTURE_SCALING_MODELS();
  }

  lemma NameInjective(a: SourceAttribute, b: SourceAttribute)
    requires a.Name() == b.Name()
    ensures a == b
  {
    ValueOfName(a);
    ValueOfName(b);
  }
}
