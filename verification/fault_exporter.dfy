/**
 * The database-era fault exporters (`postgres/FaultExporter.java` and its
 * 2008 and 2014 subclasses): the columns they select, the rate models they
 * derive from one result row, the WKT trace conversion, the fault-name
 * clean-up for file names, and when a fault gets a maximum magnitude.
 * Querying, GeoJSON writing and WKT parsing are left out.
 */
module FaultExporters {
  import opened Wrappers
  import opened Externals
  import opened AttributeMaps
  import opened RateModels
  import opened ExportUtil
  import opened Text

  // Column names (`Util.Keys`)
  const BIRD_RATE := "bird_displacement_rate"
  const CFAULT_ID_COLUMN := "cfault_id"
  const DIP := "dip"
  const DISPLACEMENT_RATE := "displacement_rate"
  const FAULT_TRACE := "fault_trace"
  const GEO_RATE := "geo_displacement_rate"
  const GEO_RAKE := "geo_rake"
  const ID := "id"
  const NAME_COLUMN := "name"
  const PRIMARY_STATE := "primary_state"
  const POA_COLUMN := "probability_of_activity"
  const RAKE := "rake"
  const SLIP_RATE := "slip_rate"
  const STATE_ABBREV := "state_abbrev"
  const UPPER_DEPTH := "upper_depth"
  const WKT_FAULT_TRACE := "ST_AsText(" + FAULT_TRACE + ") as " + FAULT_TRACE
  const ZENG_RATE := "zeng_displacement_rate"

  /** Which exporter: the base class, or the subclass for one database. */
  datatype Edition = Base | Hazfaults2008 | Hazfaults2014

  /** The base select list, in order. */
  const BaseFields: seq<string> := [CFAULT_ID_COLUMN, DIP, ID, NAME_COLUMN, PRIMARY_STATE,
    POA_COLUMN, STATE_ABBREV, UPPER_DEPTH, WKT_FAULT_TRACE]

  /** The columns a subclass appends after the base list. */
  function ExtraFields(e: Edition): seq<string>
  {
    match e
    case Base => []
    case Hazfaults2008 => [DISPLACEMENT_RATE, RAKE, SLIP_RATE]
    case Hazfaults2014 => [BIRD_RATE, GEO_RATE, GEO_RAKE, ZENG_RATE]
  }

  /**
   * `getSQLSelectFields()`: the nine base fields, then the subclass's
   * columns (the overrides call the base method and append).
   */
  method SqlSelectFields(e: Edition) returns (fields: seq<string>)
    ensures fields == BaseFields + ExtraFields(e)
    ensures NoRepeats(fields)
  {
    fields := [];
    fields := fields + [CFAULT_ID_COLUMN];
    fields := fields + [DIP];
    fields := fields + [ID];
    fields := fields + [NAME_COLUMN];
    fields := fields + [PRIMARY_STATE];
    fields := fields + [POA_COLUMN];
    fields := fields + [STATE_ABBREV];
    fields := fields + [UPPER_DEPTH];
    fields := fields + [WKT_FAULT_TRACE];
    assert fields == BaseFields;
    match e {
      case Base =>
      case Hazfaults2008 =>
        fields := fields + [DISPLACEMENT_RATE];
        fields := fields + [RAKE];
        fields := fields + [SLIP_RATE];
      case Hazfaults2014 =>
        fields := fields + [BIRD_RATE];
        fields := fields + [GEO_RATE];
        fields := fields + [GEO_RAKE];
        fields := fields + [ZENG_RATE];
    }
    assert fields == BaseFields + ExtraFields(e);
    FieldsDistinct(e, fields);
  }

  lemma FieldsDistinct(e: Edition, fields: seq<string>)
    requires fields == BaseFields + ExtraFields(e)
    ensures NoRepeats(fields)
  {
    match e
    case Base => BaseFieldsDistinct(fields);
    case Hazfaults2008 => Fields2008Distinct(fields);
    case Hazfaults2014 => Fields2014Distinct(fields);
  }

  lemma BaseFieldsDistinct(fields: seq<string>)
    requires fields == BaseFields
    ensures NoRepeats(fields)
  {
    // the nine names all differ in length
    assert |fields[8]| == 37;
    DistinctLengths(fields);
  }

  lemma Fields2008Distinct(fields: seq<string>)
    requires fields == BaseFields + ExtraFields(Hazfaults2008)
    ensures NoRepeats(fields)
  {
    BaseFieldsDistinct(BaseFields);
    assert |BaseFields[8]| == 37;
    ExtendDistinct(BaseFields, ExtraFields(Hazfaults2008));
  }

  lemma Fields2014Distinct(fields: seq<string>)
    requires fields == BaseFields + ExtraFields(Hazfaults2014)
    ensures NoRepeats(fields)
  {
    BaseFieldsDistinct(BaseFields);
    assert |BaseFields[8]| == 37;
    ExtendDistinct(BaseFields, ExtraFields(Hazfaults2014));
  }

  lemma {:induction false} DistinctLengths(ks: seq<string>)
    requires forall i, j :: 0 <= i < j < |ks| ==> |ks[i]| != |ks[j]|
    ensures NoRepeats(ks)
  {
    if ks != [] {
      DistinctLengths(ks[1..]);
    }
  }

  /** Distinct names followed by distinct new names are distinct. */
  lemma {:induction false} ExtendDistinct(base: seq<string>, extra: seq<string>)
    requires NoRepeats(base) && NoRepeats(extra)
    requires forall x :: x in extra ==> x !in base
    ensures NoRepeats(base + extra)
  {
    if base == [] {
      assert base + extra == extra;
    } else {
      ExtendDistinct(base[1..], extra);
      assert (base + extra)[1..] == base[1..] + extra;
    }
  }

  // ---------------------------------------------------------------------
  // Rate models of one row

  /**
   * `checkProbabilityOfActivity(result, rake)`: an a-priori model when the
   * probability is present and below 1, else none. The rake parameter is
   * not used: the model's rake is read again from `rakeColumn` (geo_rake in
   * the base class, rake in the 2008 subclass).
   */
  function CheckProbabilityOfActivity(checks: Checks, row: Row, rakeColumn: string, rake: Option<real>): Result<seq<RateModel>>
  {
    var p :- SqlDouble(row, POA_COLUMN);
    if p.Some? && p.value < 1.0 then
      var r :- SqlDouble(row, rakeColumn);
      var m :- Made(checks, APriori, p, r);
      Success([m])
    else Success([])
  }

  /** The base `getRateModels(result)`. */
  function BaseRateModels(checks: Checks, row: Row): Result<seq<RateModel>>
  {
    var rake :- SqlDouble(row, GEO_RAKE);
    CheckProbabilityOfActivity(checks, row, GEO_RAKE, rake)
  }

  /** The 2008 `getRateModels(result)`: the a-priori model first, else by state. */
  function RateModels2008(checks: Checks, row: Row): Result<seq<RateModel>>
  {
    var rake :- SqlDouble(row, RAKE);
    var ms :- CheckProbabilityOfActivity(checks, row, RAKE, rake);
    if ms != [] then Success(ms)
    else if STATE_ABBREV !in row then Failure(SqlError)
    else if row[STATE_ABBREV].text.None? then Failure(NullPointer)
    else if Trim(row[STATE_ABBREV].text.value) == "CA" then
      var slip :- SqlDouble(row, SLIP_RATE);
      var m :- Made(checks, Slip, slip, rake);
      Success([m])
    else
      var geo :- SqlDouble(row, DISPLACEMENT_RATE);
      var m :- Made(checks, Geo, geo, rake);
      Success([m])
  }

  /** The 2014 `getRateModels(result)`: the base result, else the BIRD, GEO and ZENG models. */
  function RateModels2014(checks: Checks, row: Row): Result<seq<RateModel>>
  {
    var ms :- BaseRateModels(checks, row);
    if ms != [] then Success(ms)
    else
      var rake :- SqlDouble(row, GEO_RAKE);
      var bird :- SqlDouble(row, BIRD_RATE);
      var b :- Made(checks, Bird, bird, rake);
      var geo :- SqlDouble(row, GEO_RATE);
      var g :- Made(checks, Geo, geo, rake);
      var zeng :- SqlDouble(row, ZENG_RATE);
      var z :- Made(checks, Zeng, zeng, rake);
      Success([b, g, z])
  }

  /** `getRateModels` of each exporter. */
  function GetRateModels(e: Edition, checks: Checks, row: Row): Result<seq<RateModel>>
  {
    match e
    case Base => BaseRateModels(checks, row)
    case Hazfaults2008 => RateModels2008(checks, row)
    case Hazfaults2014 => RateModels2014(checks, row)
  }

  /** The row holds a column of each name in `names`. */
  predicate Holds(row: Row, names: set<string>)
  {
    forall n | n in names :: n in row
  }

  /** The row's probability of activity is present and below 1. */
  predicate APrioriRow(row: Row)
    requires POA_COLUMN in row
  {
    SqlDouble(row, POA_COLUMN).value.Some? && SqlDouble(row, POA_COLUMN).value.value < 1.0
  }

  /** A row whose rake column passes the rake check (or is null). */
  predicate RakeOk(checks: Checks, row: Row, rakeColumn: string)
    requires rakeColumn in row
  {
    var r := SqlDouble(row, rakeColumn).value;
    r.None? || checks.rake(r.value)
  }

  /**
   * The a-priori rule: with a probability present and below 1, exactly one
   * A_PRIORI model whose value is the probability and whose rake is the
   * rake column's value, whatever rake was passed in; otherwise none.
   */
  lemma APrioriRule(checks: Checks, row: Row, rakeColumn: string, rake: Option<real>)
    requires Holds(row, {POA_COLUMN, rakeColumn}) && RakeOk(checks, row, rakeColumn)
    ensures var r := CheckProbabilityOfActivity(checks, row, rakeColumn, rake);
      r.Success? &&
      (APrioriRow(row) ==> r.value == [RateModel(A_PRIORI, PROBABILITY_OF_ACTIVITY,
         SqlDouble(row, POA_COLUMN).value, SqlDouble(row, rakeColumn).value)]) &&
      (!APrioriRow(row) ==> r.value == [])
  {
  }

  /** The rake argument never changes the result. */
  lemma RakeArgumentIgnored(checks: Checks, row: Row, rakeColumn: string, rake1: Option<real>, rake2: Option<real>)
    ensures CheckProbabilityOfActivity(checks, row, rakeColumn, rake1)
         == CheckProbabilityOfActivity(checks, row, rakeColumn, rake2)
  {
  }

  /** The base `getRateModels` is exactly the a-priori rule over geo_rake. */
  lemma BaseIsAPrioriRule(checks: Checks, row: Row)
    requires GEO_RAKE in row
    ensures BaseRateModels(checks, row) == CheckProbabilityOfActivity(checks, row, GEO_RAKE, None)
  {
  }

  /**
   * The 2008 rule: the a-priori model takes precedence; otherwise one slip
   * model when the trimmed state is "CA", else one geo displacement model,
   * each with the rake column's rake. The result always has one model.
   */
  lemma Rule2008(checks: Checks, row: Row)
    requires Holds(row, {POA_COLUMN, RAKE, STATE_ABBREV, SLIP_RATE, DISPLACEMENT_RATE})
    requires RakeOk(checks, row, RAKE) && row[STATE_ABBREV].text.Some?
    ensures var r := RateModels2008(checks, row);
      var rake := SqlDouble(row, RAKE).value;
      r.Success? && |r.value| == 1 &&
      (APrioriRow(row) ==> r.value[0] == RateModel(A_PRIORI, PROBABILITY_OF_ACTIVITY, SqlDouble(row, POA_COLUMN).value, rake)) &&
      (!APrioriRow(row) && Trim(row[STATE_ABBREV].text.value) == "CA" ==>
        r.value[0] == RateModel(GEO, SLIP, SqlDouble(row, SLIP_RATE).value, rake)) &&
      (!APrioriRow(row) && Trim(row[STATE_ABBREV].text.value) != "CA" ==>
        r.value[0] == RateModel(GEO, DISPLACEMENT, SqlDouble(row, DISPLACEMENT_RATE).value, rake))
  {
    APrioriRule(checks, row, RAKE, SqlDouble(row, RAKE).value);
  }

  /** A null state is reached only when no a-priori model is made, and then throws. */
  lemma NullState2008(checks: Checks, row: Row)
    requires Holds(row, {POA_COLUMN, RAKE, STATE_ABBREV})
    requires RakeOk(checks, row, RAKE) && row[STATE_ABBREV].text.None?
    ensures APrioriRow(row) ==> RateModels2008(checks, row).Success?
    ensures !APrioriRow(row) ==> RateModels2008(checks, row) == Failure(NullPointer)
  {
    APrioriRule(checks, row, RAKE, SqlDouble(row, RAKE).value);
  }

  /**
   * The 2014 rule: the a-priori model alone when the probability is below 1;
   * otherwise BIRD, GEO and ZENG displacement models, in that order, sharing
   * the geo_rake value, with null rates passed through.
   */
  lemma Rule2014(checks: Checks, row: Row)
    requires Holds(row, {POA_COLUMN, GEO_RAKE, BIRD_RATE, GEO_RATE, ZENG_RATE})
    requires RakeOk(checks, row, GEO_RAKE)
    ensures var r := RateModels2014(checks, row);
      var rake := SqlDouble(row, GEO_RAKE).value;
      r.Success? &&
      (APrioriRow(row) ==> r.value == [RateModel(A_PRIORI, PROBABILITY_OF_ACTIVITY, SqlDouble(row, POA_COLUMN).value, rake)]) &&
      (!APrioriRow(row) ==> r.value == [
        RateModel(BIRD, DISPLACEMENT, SqlDouble(row, BIRD_RATE).value, rake),
        RateModel(GEO, DISPLACEMENT, SqlDouble(row, GEO_RATE).value, rake),
        RateModel(ZENG, DISPLACEMENT, SqlDouble(row, ZENG_RATE).value, rake)])
  {
    APrioriRule(checks, row, GEO_RAKE, SqlDouble(row, GEO_RAKE).value);
  }

  /** A row holding exactly the 2014 select list's columns never lacks a column the 2014 policy reads. */
  lemma Columns2014Suffice(checks: Checks, row: Row)
    requires forall n | n in BaseFields + ExtraFields(Hazfaults2014) :: n in row
    ensures RateModels2014(checks, row) != Failure(SqlError)
  {
    assert POA_COLUMN == (BaseFields + ExtraFields(Hazfaults2014))[5];
    assert BIRD_RATE == (BaseFields + ExtraFields(Hazfaults2014))[9];
    assert GEO_RATE == (BaseFields + ExtraFields(Hazfaults2014))[10];
    assert GEO_RAKE == (BaseFields + ExtraFields(Hazfaults2014))[11];
    assert ZENG_RATE == (BaseFields + ExtraFields(Hazfaults2014))[12];
  }

  // ---------------------------------------------------------------------
  // Traces, names and maximum magnitudes

  /**
   * `wktToLocationList(wkt)` after parsing: each coordinate (x, y) becomes
   * the location (lat y, lon x, depth 0), in order.
   */
  method WktToLocationList(coords: seq<(real, real)>) returns (trace: seq<Location>)
    ensures |trace| == |coords|
    ensures forall i :: 0 <= i < |coords| ==> trace[i] == Location(coords[i].1, coords[i].0, 0.0)
  {
    trace := [];
    var i := 0;
    while i < |coords|
      invariant 0 <= i <= |coords| && |trace| == i
      invariant forall k :: 0 <= k < i ==> trace[k] == Location(coords[k].1, coords[k].0, 0.0)
    {
      var (x, y) := coords[i];
      trace := trace + [Location(y, x, 0.0)];
      i := i + 1;
    }
  }

  /** The word and punctuation rewrites of `cleanName`, in order. */
  function Rewritten(name: string): string
  {
    var s1 := Replace(name, "faults", "");
    var s2 := Replace(s1, "fault", "");
    var s3 := Replace(s2, "zone", "");
    var s4 := Replace(s3, "-", " - ");
    var s5 := Replace(s4, "/", " - ");
    var s6 := Replace(s5, " , ", " - ");
    var s7 := Replace(s6, ", ", " - ");
    Replace(s7, ";", " : ")
  }

  /** `cleanName(name)`: the rewrites, whitespace runs collapsed to one space, then trimmed. */
  function CleanName(name: string): string
  {
    Tidied(Rewritten(name))
  }

  function Tidied(s: string): string
  {
    Trim(Collapse(s))
  }

  /**
   * The shape of a cleaned name: no '/' or ';', no leading or trailing
   * whitespace, no two whitespace characters in a row, and no whitespace
   * but spaces.
   */
  predicate Tidy(r: string)
  {
    '/' !in r && ';' !in r && Collapsed(r) &&
    (r != [] ==> !Whitespace(r[0]) && !Whitespace(r[|r| - 1]))
  }

  lemma RewrittenHasNoSlashOrSemicolon(name: string)
    ensures '/' !in Rewritten(name) && ';' !in Rewritten(name)
  {
    var s1 := Replace(name, "faults", "");
    var s2 := Replace(s1, "fault", "");
    var s3 := Replace(s2, "zone", "");
    var s4 := Replace(s3, "-", " - ");
    var s5 := Replace(s4, "/", " - ");
    var s6 := Replace(s5, " , ", " - ");
    var s7 := Replace(s6, ", ", " - ");
    ReplaceRemoves(s4, '/', " - ");
    ReplaceKeepsOut(s5, " , ", " - ", '/');
    ReplaceKeepsOut(s6, ", ", " - ", '/');
    ReplaceKeepsOut(s7, ";", " : ", '/');
    ReplaceRemoves(s7, ';', " : ");
  }

  /** Every cleaned name has the shape of `Tidy`. */
  lemma CleanNameShape(name: string)
    ensures Tidy(CleanName(name))
  {
    var s := Rewritten(name);
    RewrittenHasNoSlashOrSemicolon(name);
    TidiedShape(s);
  }

  /** Collapsing and trimming a text without '/' or ';'. */
  lemma TidiedShape(s: string)
    requires '/' !in s && ';' !in s
    ensures Tidy(Tidied(s))
  {
    var c := Collapse(s);
    CollapseKeepsOut(s, '/');
    CollapseKeepsOut(s, ';');
    CollapseIsCollapsed(s);
    TrimmedShape(c);
  }

  /** Trimming a collapsed text without '/' or ';'. */
  lemma TrimmedShape(c: string)
    requires '/' !in c && ';' !in c && Collapsed(c)
    ensures Tidy(Trim(c))
  {
    var t := TrimStart(c);
    var r := TrimEnd(t);
    var a := |c| - |t|;
    assert r == c[a..a + |r|];
    TidyRun(c, r, a);
  }

  /** A run of a collapsed text without '/' or ';' whose ends are above U+0020. */
  lemma TidyRun(c: string, r: string, a: nat)
    requires '/' !in c && ';' !in c && Collapsed(c)
    requires a + |r| <= |c| && r == c[a..a + |r|]
    requires r == [] || (r[0] > ' ' && r[|r| - 1] > ' ')
    ensures Tidy(r)
  {
    CollapsedRun(c, a, a + |r|);
    assert forall i :: 0 <= i < |r| ==> r[i] == c[a + i];
  }

  /**
   * The mMax condition of `resultToFeature`: a maximum magnitude is
   * attached exactly when the fault id is a key of the table and not one
   * of the skipped ids (a null id is never a key).
   */
  function AddsMaxMagnitude(cfaultId: Option<string>, maxMagnitudes: map<string, real>): (r: Option<real>)
    ensures r.Some? <==> cfaultId.Some? && cfaultId.value in maxMagnitudes && cfaultId.value !in CFAULT_ID_SKIP
    ensures r.Some? ==> r.value == maxMagnitudes[cfaultId.value]
  {
    if cfaultId.Some? && cfaultId.value in maxMagnitudes && cfaultId.value !in CFAULT_ID_SKIP
    then Some(maxMagnitudes[cfaultId.value])
    else None
  }

  /**
   * With the table parsed from the data lines of the magnitude file, a fault
   * gets a maximum magnitude exactly when its id is not skipped and some data
   * line names it, and the magnitude is the mMax of the last such line.
   */
  lemma MaxMagnitudeFromTable(lines: seq<string>, c: nat, m: nat, split: string -> seq<string>,
                              parse: string -> Option<real>, id: string)
    requires Magnitudes(lines, c, m, split, parse).Success?
    ensures var r := AddsMaxMagnitude(Some(id), Magnitudes(lines, c, m, split, parse).value);
      r.Some? <==> id !in CFAULT_ID_SKIP && exists i :: 0 <= i < |lines| && Writes(lines[i], c, split, id)
    ensures var r := AddsMaxMagnitude(Some(id), Magnitudes(lines, c, m, split, parse).value);
      r.Some? ==> exists j: nat :: (LastWriter(lines, j, c, split, id) && m < |split(lines[j])|
        && parse(split(lines[j])[m]) == r)
  {
    var table := Magnitudes(lines, c, m, split, parse).value;
    KeysAreWritten(lines, c, m, split, parse, id);
    if id in table {
      LastLineWins(lines, c, m, split, parse, id);
    }
  }
}
