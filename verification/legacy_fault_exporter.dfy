/**
 * The legacy exporter (`FaultExporter.java` in the top package): the select
 * clause, the WKT trace rendered as coordinate lines, and the row-by-row
 * filling of the model parameters. The connection, the state query and
 * the loop over states are left out; a row is a map of columns and the WKT
 * reader is a parameter.
 */
module LegacyFaultExporter {
  import opened Wrappers
  import CaseFormat
  import opened Text
  import SA = SourceAttributes
  import LSA = LegacySourceAttributes
  import MP = ModelParameterSets
  import ExportUtil

  // ---------------------------------------------------------------------
  // The select clause

  /** The trace column is read as well-known text. */
  function TraceField(column: string): string
  {
    "ST_AsText(" + column + ") as " + column
  }

  /** The entries of the select clause in the order they are added: lower-case names, the trace wrapped. */
  function SelectFields(): seq<string>
  {
    [SA.SourceAttribute.BIRD_DISPLACEMENT_RATE.ToLowerCase(), SA.SourceAttribute.CALC_WIDTH.ToLowerCase(),
     SA.SourceAttribute.DIP.ToLowerCase(), SA.SourceAttribute.GEO_RAKE.ToLowerCase(),
     SA.SourceAttribute.GEO_DISPLACEMENT_RATE.ToLowerCase(), SA.SourceAttribute.NAME.ToLowerCase(),
     SA.SourceAttribute.PRIMARY_STATE.ToLowerCase(), TraceField(SA.SourceAttribute.FAULT_TRACE.ToLowerCase()),
     SA.SourceAttribute.STATE_ABBREV.ToLowerCase(), SA.SourceAttribute.UPPER_DEPTH.ToLowerCase(),
     SA.SourceAttribute.ZENG_DISPLACEMENT_RATE.ToLowerCase()]
  }

  /**
   * `getSqlSelectFields()`: the entries are collected in a list, the list's
   * `toString()` brackets are replaced by spaces, and the result trimmed;
   * what is left is the eleven entries joined by ", ".
   */
  method SqlSelectFields() returns (select: string)
    ensures select == Join(SelectFields(), ", ")
    ensures '[' !in select && ']' !in select
  {
    var fields: seq<string> := [];
    fields := fields + [SA.SourceAttribute.BIRD_DISPLACEMENT_RATE.ToLowerCase()];
    fields := fields + [SA.SourceAttribute.CALC_WIDTH.ToLowerCase()];
    fields := fields + [SA.SourceAttribute.DIP.ToLowerCase()];
    fields := fields + [SA.SourceAttribute.GEO_RAKE.ToLowerCase()];
    fields := fields + [SA.SourceAttribute.GEO_DISPLACEMENT_RATE.ToLowerCase()];
    fields := fields + [SA.SourceAttribute.NAME.ToLowerCase()];
    fields := fields + [SA.SourceAttribute.PRIMARY_STATE.ToLowerCase()];
    fields := fields + [TraceField(SA.SourceAttribute.FAULT_TRACE.ToLowerCase())];
    fields := fields + [SA.SourceAttribute.STATE_ABBREV.ToLowerCase()];
    fields := fields + [SA.SourceAttribute.UPPER_DEPTH.ToLowerCase()];
    fields := fields + [SA.SourceAttribute.ZENG_DISPLACEMENT_RATE.ToLowerCase()];
    assert fields == SelectFields();
    SelectFieldsShape();
    StripBrackets(fields);
    select := Trim(Replace(Replace(ListText(fields), "[", " "), "]", " "));
  }

  /** An entry free of brackets that starts and ends above U+0020. */
  predicate Plain(f: string)
  {
    f != [] && '[' !in f && ']' !in f && f[0] > ' ' && f[|f| - 1] > ' '
  }

  /** The lower-case form of an UPPER_UNDERSCORE name is plain, and so is its trace wrapping. */
  lemma LowerNamePlain(n: string)
    requires CaseFormat.ConstantCase(n)
    ensures Plain(CaseFormat.Lower(n)) && Plain(TraceField(CaseFormat.Lower(n)))
  {
    var l := CaseFormat.Lower(n);
    assert forall i :: 0 <= i < |l| ==> CaseFormat.IsLower(l[i]) || l[i] == '_';
    var f := TraceField(l);
    assert f == "ST_AsText(" + l + ") as " + l;
    assert f[|f| - 1] == l[|l| - 1];
  }

  lemma SelectFieldsShape()
    ensures forall i :: 0 <= i < |SelectFields()| ==> Plain(SelectFields()[i])
  {
    forall i | 0 <= i < |SelectFields()|
      ensures Plain(SelectFields()[i])
    {
      SelectFieldPlain(i);
    }
  }

  lemma SelectFieldPlain(i: nat)
    requires i < |SelectFields()|
    ensures Plain(SelectFields()[i])
  {
    if i == 0 { Plain_BIRD_DISPLACEMENT_RATE(); }
    else if i == 1 { Plain_CALC_WIDTH(); }
    else if i == 2 { Plain_DIP(); }
    else if i == 3 { Plain_GEO_RAKE(); }
    else if i == 4 { Plain_GEO_DISPLACEMENT_RATE(); }
    else if i == 5 { Plain_NAME(); }
    else if i == 6 { Plain_PRIMARY_STATE(); }
    else if i == 7 { Plain_FAULT_TRACE(); }
    else if i == 8 { Plain_STATE_ABBREV(); }
    else if i == 9 { Plain_UPPER_DEPTH(); }
    else { Plain_ZENG_DISPLACEMENT_RATE(); }
  }

  lemma Plain_BIRD_DISPLACEMENT_RATE() ensures Plain(SelectFields()[0]) { NamePlain(SA.SourceAttribute.BIRD_DISPLACEMENT_RATE); }
  lemma Plain_CALC_WIDTH() ensures Plain(SelectFields()[1]) { NamePlain(SA.SourceAttribute.CALC_WIDTH); }
  lemma Plain_DIP() ensures Plain(SelectFields()[2]) { NamePlain(SA.SourceAttribute.DIP); }
  lemma Plain_GEO_RAKE() ensures Plain(SelectFields()[3]) { NamePlain(SA.SourceAttribute.GEO_RAKE); }
  lemma Plain_GEO_DISPLACEMENT_RATE() ensures Plain(SelectFields()[4]) { NamePlain(SA.SourceAttribute.GEO_DISPLACEMENT_RATE); }
  lemma Plain_NAME() ensures Plain(SelectFields()[5]) { NamePlain(SA.SourceAttribute.NAME); }
  lemma Plain_PRIMARY_STATE() ensures Plain(SelectFields()[6]) { NamePlain(SA.SourceAttribute.PRIMARY_STATE); }
  lemma Plain_FAULT_TRACE() ensures Plain(SelectFields()[7]) { NamePlain(SA.SourceAttribute.FAULT_TRACE); }
  lemma Plain_STATE_ABBREV() ensures Plain(SelectFields()[8]) { NamePlain(SA.SourceAttribute.STATE_ABBREV); }
  lemma Plain_UPPER_DEPTH() ensures Plain(SelectFields()[9]) { NamePlain(SA.SourceAttribute.UPPER_DEPTH); }
  lemma Plain_ZENG_DISPLACEMENT_RATE() ensures Plain(SelectFields()[10]) { NamePlain(SA.SourceAttribute.ZENG_DISPLACEMENT_RATE); }

  /** Every attribute's lower-case name is plain, and so is its trace wrapping. */
  lemma NamePlain(a: SA.SourceAttribute)
    ensures Plain(a.ToLowerCase()) && Plain(TraceField(a.ToLowerCase()))
  {
    SA.NamesAreConstantCase(a);
    LowerNamePlain(a.Name());
  }

  /** Replacing the opening bracket of a list's text by a space. */
  lemma ReplaceOpening(j: string)
    requires '[' !in j
    ensures Replace("[" + j + "]", "[", " ") == " " + j + "]"
  {
    ReplaceCharConcat("[", j + "]", '[', " ");
    ReplaceCharConcat(j, "]", '[', " ");
    ReplaceAbsent(j, '[', " ");
    ReplaceAbsent("]", '[', " ");
    assert "[" + j + "]" == "[" + (j + "]");
  }

  /** Replacing the closing bracket by a space. */
  lemma ReplaceClosing(j: string)
    requires ']' !in j
    ensures Replace(" " + j + "]", "]", " ") == " " + j + " "
  {
    ReplaceCharConcat(" " + j, "]", ']', " ");
    ReplaceAbsent(" " + j, ']', " ");
  }

  /**
   * Replacing the brackets of a list's text by spaces and trimming gives
   * back the joined entries, when the entries are plain and there is one.
   */
  lemma StripBrackets(fields: seq<string>)
    requires fields != [] && forall i :: 0 <= i < |fields| ==> Plain(fields[i])
    ensures Trim(Replace(Replace(ListText(fields), "[", " "), "]", " ")) == Join(fields, ", ")
    ensures '[' !in Join(fields, ", ") && ']' !in Join(fields, ", ")
  {
    var j := Join(fields, ", ");
    JoinKeepsOut(fields, ", ", '[');
    JoinKeepsOut(fields, ", ", ']');
    JoinEnds(fields, ", ");
    assert Plain(fields[0]) && Plain(fields[|fields| - 1]);
    assert j[0] > ' ' && j[|j| - 1] > ' ';
    var spaced := Replace(ListText(fields), "[", " ");
    ReplaceOpening(j);
    assert spaced == " " + j + "]";
    var framed := Replace(spaced, "]", " ");
    ReplaceClosing(j);
    assert framed == " " + j + " ";
    TrimFramed(j);
  }

  // ---------------------------------------------------------------------
  // The trace as coordinate lines

  /** One coordinate's line: longitude (x), latitude (y) and a zero depth, each to five places. */
  function CoordinateLine(fixed5: real -> string, c: (real, real)): string
  {
    fixed5(c.0) + "," + fixed5(c.1) + ",0.00000\n"
  }

  /** The text `wktToCoordinates` builds: a newline, then each coordinate's line in order. */
  function CoordinateText(fixed5: real -> string, coords: seq<(real, real)>): string
  {
    if coords == [] then "\n"
    else CoordinateText(fixed5, coords[..|coords| - 1]) + CoordinateLine(fixed5, coords[|coords| - 1])
  }

  /**
   * `wktToCoordinates(wkt)`: reading a null text throws a
   * NullPointerException, malformed text a ParseException; otherwise the
   * lines are concatenated one coordinate at a time.
   */
  method WktToCoordinates(wkt: Option<string>, parse: string -> Option<seq<(real, real)>>, fixed5: real -> string)
    returns (r: Result<string>)
    ensures wkt.None? ==> r == Failure(NullPointer)
    ensures wkt.Some? && parse(wkt.value).None? ==> r == Failure(WktParse)
    ensures wkt.Some? && parse(wkt.value).Some? ==> r == Success(CoordinateText(fixed5, parse(wkt.value).value))
  {
    if wkt.None? {
      return Failure(NullPointer);
    }
    var geometry := parse(wkt.value);
    if geometry.None? {
      return Failure(WktParse);
    }
    var coords := geometry.value;
    var text := "\n";
    var i := 0;
    while i < |coords|
      invariant 0 <= i <= |coords|
      invariant text == CoordinateText(fixed5, coords[..i])
    {
      assert coords[..i + 1][..i] == coords[..i];
      text := text + CoordinateLine(fixed5, coords[i]);
      i := i + 1;
    }
    assert coords[..|coords|] == coords;
    return Success(text);
  }

  /**
   * When the number rendering writes no newline, the text holds one newline
   * more than there are coordinates: the leading one and one ending each line.
   */
  lemma {:induction false} OneLinePerCoordinate(fixed5: real -> string, coords: seq<(real, real)>)
    requires forall x :: '\n' !in fixed5(x)
    ensures multiset(CoordinateText(fixed5, coords))['\n'] == |coords| + 1
  {
    if coords != [] {
      var n := |coords|;
      OneLinePerCoordinate(fixed5, coords[..n - 1]);
      var c := coords[n - 1];
      LineNewlines(fixed5(c.0), fixed5(c.1));
      var t := CoordinateText(fixed5, coords[..n - 1]);
      assert CoordinateText(fixed5, coords) == t + CoordinateLine(fixed5, c);
      assert multiset(t + CoordinateLine(fixed5, c)) == multiset(t) + multiset(CoordinateLine(fixed5, c));
    }
  }

  lemma LineNewlines(x: string, y: string)
    requires '\n' !in x && '\n' !in y
    ensures multiset(x + "," + y + ",0.00000\n")['\n'] == 1
  {
    var comma, tail := ",", ",0.00000\n";
    NewlinesOf(comma, 0);
    NewlinesOf(tail, 1);
    assert multiset(x)['\n'] == 0 && multiset(y)['\n'] == 0;
    CountAppend(x, comma, '\n');
    CountAppend(x + comma, y, '\n');
    CountAppend(x + comma + y, tail, '\n');
  }

  /** The separators' newline counts. */
  lemma NewlinesOf(t: string, n: nat)
    requires (t == "," && n == 0) || (t == ",0.00000\n" && n == 1)
    ensures multiset(t)['\n'] == n
  {
    if n == 1 {
      assert t == ",0.00000" + "\n";
      CountAppend(",0.00000", "\n", '\n');
    }
  }

  lemma CountAppend(a: string, b: string, c: char)
    ensures multiset(a + b)[c] == multiset(a)[c] + multiset(b)[c]
  {
    assert multiset(a + b) == multiset(a) + multiset(b);
  }

  /**
   * The text starts with a newline, and the lines come in coordinate order:
   * the text of the first `i + 1` coordinates is a prefix that ends with the
   * line of coordinate `i`, which puts x before y and ends ",0.00000\n".
   */
  lemma {:induction false} LinesInOrder(fixed5: real -> string, coords: seq<(real, real)>, i: nat)
    requires i < |coords|
    ensures CoordinateText(fixed5, coords)[0] == '\n'
    ensures var p := CoordinateText(fixed5, coords[..i + 1]);
      var line := CoordinateLine(fixed5, coords[i]);
      p <= CoordinateText(fixed5, coords) && |line| <= |p| && p[|p| - |line|..] == line
    decreases |coords|
  {
    var n := |coords|;
    assert coords[..n - 1][..0] == [] && coords[..0] == [];
    StartsWithNewline(fixed5, coords);
    if i + 1 < n {
      assert coords[..n - 1][..i + 1] == coords[..i + 1];
      LinesInOrder(fixed5, coords[..n - 1], i);
    } else {
      assert coords[..i + 1] == coords;
    }
  }

  lemma {:induction false} StartsWithNewline(fixed5: real -> string, coords: seq<(real, real)>)
    ensures CoordinateText(fixed5, coords) != [] && CoordinateText(fixed5, coords)[0] == '\n'
  {
    if coords != [] {
      StartsWithNewline(fixed5, coords[..|coords| - 1]);
    }
  }

  // ---------------------------------------------------------------------
  // One result row into the model parameters

  /**
   * The columns the loop body reads, by the lower-case names of their
   * attributes: the driver matches column labels ignoring case, so reading
   * by `name()` finds the lower-case column.
   */
  const BIRD_RATE := "bird_displacement_rate"
  const CALC_WIDTH := "calc_width"
  const DIP := "dip"
  const FAULT_TRACE := "fault_trace"
  const GEO_RAKE := "geo_rake"
  const GEO_RATE := "geo_displacement_rate"
  const NAME := "name"
  const UPPER_DEPTH := "upper_depth"
  const ZENG_RATE := "zeng_displacement_rate"

  /** Lower-casing an upper-case name letter by letter. */
  lemma LowerOf(n: string, l: string)
    requires |n| == |l| && forall i :: 0 <= i < |n| ==> CaseFormat.LowerChar(n[i]) == l[i]
    ensures CaseFormat.Lower(n) == l
  {
  }

  /** Each column label is the lower-case name of its attribute. */
  lemma ColumnLabels()
    ensures BIRD_RATE == SA.SourceAttribute.BIRD_DISPLACEMENT_RATE.ToLowerCase()
    ensures CALC_WIDTH == SA.SourceAttribute.CALC_WIDTH.ToLowerCase()
    ensures DIP == SA.SourceAttribute.DIP.ToLowerCase()
    ensures FAULT_TRACE == SA.SourceAttribute.FAULT_TRACE.ToLowerCase()
    ensures GEO_RAKE == SA.SourceAttribute.GEO_RAKE.ToLowerCase()
    ensures GEO_RATE == SA.SourceAttribute.GEO_DISPLACEMENT_RATE.ToLowerCase()
    ensures NAME == SA.SourceAttribute.NAME.ToLowerCase()
    ensures UPPER_DEPTH == SA.SourceAttribute.UPPER_DEPTH.ToLowerCase()
    ensures ZENG_RATE == SA.SourceAttribute.ZENG_DISPLACEMENT_RATE.ToLowerCase()
  {
    Label_BIRD_RATE();
    Label_CALC_WIDTH();
    Label_DIP();
    Label_FAULT_TRACE();
    Label_GEO_RAKE();
    Label_GEO_RATE();
    Label_NAME();
    Label_UPPER_DEPTH();
    Label_ZENG_RATE();
  }

  // Spelling: one lemma per column label, each unfolding a single
  // lower-case conversion; ColumnLabels gathers them.
  lemma Label_BIRD_RATE() ensures BIRD_RATE == SA.SourceAttribute.BIRD_DISPLACEMENT_RATE.ToLowerCase() { LowerOf(SA.SourceAttribute.BIRD_DISPLACEMENT_RATE.Name(), BIRD_RATE); }
  lemma Label_CALC_WIDTH() ensures CALC_WIDTH == SA.SourceAttribute.CALC_WIDTH.ToLowerCase() { LowerOf(SA.SourceAttribute.CALC_WIDTH.Name(), CALC_WIDTH); }
  lemma Label_DIP() ensures DIP == SA.SourceAttribute.DIP.ToLowerCase() { LowerOf(SA.SourceAttribute.DIP.Name(), DIP); }
  lemma Label_FAULT_TRACE() ensures FAULT_TRACE == SA.SourceAttribute.FAULT_TRACE.ToLowerCase() { LowerOf(SA.SourceAttribute.FAULT_TRACE.Name(), FAULT_TRACE); }
  lemma Label_GEO_RAKE() ensures GEO_RAKE == SA.SourceAttribute.GEO_RAKE.ToLowerCase() { LowerOf(SA.SourceAttribute.GEO_RAKE.Name(), GEO_RAKE); }
  lemma Label_GEO_RATE() ensures GEO_RATE == SA.SourceAttribute.GEO_DISPLACEMENT_RATE.ToLowerCase() { LowerOf(SA.SourceAttribute.GEO_DISPLACEMENT_RATE.Name(), GEO_RATE); }
  lemma Label_NAME() ensures NAME == SA.SourceAttribute.NAME.ToLowerCase() { LowerOf(SA.SourceAttribute.NAME.Name(), NAME); }
  lemma Label_UPPER_DEPTH() ensures UPPER_DEPTH == SA.SourceAttribute.UPPER_DEPTH.ToLowerCase() { LowerOf(SA.SourceAttribute.UPPER_DEPTH.Name(), UPPER_DEPTH); }
  lemma Label_ZENG_RATE() ensures ZENG_RATE == SA.SourceAttribute.ZENG_DISPLACEMENT_RATE.ToLowerCase() { LowerOf(SA.SourceAttribute.ZENG_DISPLACEMENT_RATE.Name(), ZENG_RATE); }

  /** Every column the loop body reads is in the select clause. */
  lemma ReadColumnsSelected()
    ensures forall c | c in {BIRD_RATE, CALC_WIDTH, DIP, GEO_RAKE, GEO_RATE, NAME, UPPER_DEPTH, ZENG_RATE} :: c in SelectFields()
    ensures TraceField(FAULT_TRACE) in SelectFields()
  {
    ColumnLabels();
  }

  /** `getDouble(column)`: a null column reads as 0. */
  function GetDouble(row: ExportUtil.Row, column: string): (r: Result<real>)
    ensures r.Failure? <==> column !in row
    ensures r.Success? && row[column].text.None? ==> r.value == 0.0
    ensures r.Success? && row[column].text.Some? ==> r.value == row[column].number
  {
    if column !in row then Failure(SqlError)
    else if row[column].text.None? then Success(0.0)
    else Success(row[column].number)
  }

  /** `getString(column)`: null or the text. */
  function GetString(row: ExportUtil.Row, column: string): (r: Result<Option<string>>)
    ensures r.Failure? <==> column !in row
    ensures r.Success? ==> r.value == row[column].text
  {
    if column !in row then Failure(SqlError) else Success(row[column].text)
  }

  /**
   * The three column reads agree on a row: they fail together, when the
   * column is missing; `getSQLDouble` is null exactly when `getString` is,
   * and otherwise the number `getDouble` reads; where it is null,
   * `getDouble` reads 0.
   */
  lemma ColumnReadsAgree(row: ExportUtil.Row, column: string)
    ensures GetDouble(row, column).Failure? <==> ExportUtil.SqlDouble(row, column).Failure?
    ensures GetString(row, column).Failure? <==> ExportUtil.SqlDouble(row, column).Failure?
    ensures ExportUtil.SqlDouble(row, column).Success? ==>
      (ExportUtil.SqlDouble(row, column).value.None? <==> GetString(row, column).value.None?)
    ensures ExportUtil.SqlDouble(row, column).Success? ==>
      GetDouble(row, column).value == match ExportUtil.SqlDouble(row, column).value
        case None => 0.0
        case Some(x) => x
  {
  }

  /** The values one row contributes, one per parallel list. */
  datatype RowValues = RowValues(
    birdRate: real, depth: real, dip: real, faultTrace: string, geoRate: real,
    name: string, rake: real, width: real, zengRate: real)

  /**
   * Reading a row as the loop body does, stopping at the first exception:
   * the trace first, then the chained adds in order (a null name throws
   * when added to the list).
   */
  function ReadRow(row: ExportUtil.Row, parse: string -> Option<seq<(real, real)>>, fixed5: real -> string): Result<RowValues>
  {
    var wkt :- GetString(row, FAULT_TRACE);
    var coords :- if wkt.None? then Failure(NullPointer)
      else if parse(wkt.value).None? then Failure(WktParse)
      else Success(parse(wkt.value).value);
    var bird :- GetDouble(row, BIRD_RATE);
    var depth :- GetDouble(row, UPPER_DEPTH);
    var dip :- GetDouble(row, DIP);
    var geo :- GetDouble(row, GEO_RATE);
    var name :- GetString(row, NAME);
    var name :- if name.None? then Failure(NullPointer) else Success(name.value);
    var rake :- GetDouble(row, GEO_RAKE);
    var width :- GetDouble(row, CALC_WIDTH);
    var zeng :- GetDouble(row, ZENG_RATE);
    Success(RowValues(bird, depth, dip, CoordinateText(fixed5, coords), geo, name, rake, width, zeng))
  }

  /** The nine parallel lists have one length. */
  predicate Aligned(s: MP.Fields)
  {
    var n := |s.name|;
    |s.birdRate| == n && |s.depth| == n && |s.dip| == n && |s.faultTrace| == n &&
    |s.geoRate| == n && |s.rake| == n && |s.width| == n && |s.zengRate| == n
  }

  /**
   * A readable row holds the columns it reads, a non-null well-formed trace
   * and a non-null name; its rake is the geo_rake column and its width the
   * calc_width column.
   */
  lemma ReadRowValues(row: ExportUtil.Row, parse: string -> Option<seq<(real, real)>>, fixed5: real -> string)
    requires ReadRow(row, parse, fixed5).Success?
    ensures var v := ReadRow(row, parse, fixed5).value;
      "geo_rake" in row && "calc_width" in row && "name" in row && "fault_trace" in row &&
      row["name"].text == Some(v.name) &&
      row["fault_trace"].text.Some? && parse(row["fault_trace"].text.value).Some? &&
      v.faultTrace == CoordinateText(fixed5, parse(row["fault_trace"].text.value).value) &&
      v.rake == (if row["geo_rake"].text.None? then 0.0 else row["geo_rake"].number) &&
      v.width == (if row["calc_width"].text.None? then 0.0 else row["calc_width"].number)
  {
  }

  /**
   * One pass of the `while (result.next())` body: read the trace, then add
   * one value to each of the nine lists. An exception leaves the builder
   * abandoned by the caller.
   */
  method AppendRow(b: MP.Builder, row: ExportUtil.Row, parse: string -> Option<seq<(real, real)>>, fixed5: real -> string)
    returns (r: Outcome)
    modifies b
    ensures r.Pass? <==> ReadRow(row, parse, fixed5).Success?
    ensures r.Fail? ==> r.error == ReadRow(row, parse, fixed5).error
    ensures r.Pass? ==> var v := ReadRow(row, parse, fixed5).value;
      b.State() == old(b.State()).(
        birdRate := old(b.birdRate) + [v.birdRate], depth := old(b.depth) + [v.depth],
        dip := old(b.dip) + [v.dip], faultTrace := old(b.faultTrace) + [v.faultTrace],
        geoRate := old(b.geoRate) + [v.geoRate], name := old(b.name) + [v.name],
        rake := old(b.rake) + [v.rake], width := old(b.width) + [v.width],
        zengRate := old(b.zengRate) + [v.zengRate])
    ensures r.Pass? && old(Aligned(b.State())) ==> Aligned(b.State())
  {
    var wkt := GetString(row, FAULT_TRACE);
    if wkt.Failure? {
      return Fail(wkt.error);
    }
    var trace := WktToCoordinates(wkt.value, parse, fixed5);
    if trace.Failure? {
      return Fail(trace.error);
    }
    var bird := GetDouble(row, BIRD_RATE);
    if bird.Failure? {
      return Fail(bird.error);
    }
    b.AddBirdRate(bird.value);
    var depth := GetDouble(row, UPPER_DEPTH);
    if depth.Failure? {
      return Fail(depth.error);
    }
    b.AddDepth(depth.value);
    var dip := GetDouble(row, DIP);
    if dip.Failure? {
      return Fail(dip.error);
    }
    b.AddDip(dip.value);
    b.AddFaultTrace(trace.value);
    var geo := GetDouble(row, GEO_RATE);
    if geo.Failure? {
      return Fail(geo.error);
    }
    b.AddGeoRate(geo.value);
    var name := GetString(row, NAME);
    if name.Failure? {
      return Fail(name.error);
    }
    if name.value.None? {
      return Fail(NullPointer);
    }
    b.AddName(name.value.value);
    var rake := GetDouble(row, GEO_RAKE);
    if rake.Failure? {
      return Fail(rake.error);
    }
    b.AddRake(rake.value);
    var width := GetDouble(row, CALC_WIDTH);
    if width.Failure? {
      return Fail(width.error);
    }
    b.AddWidth(width.value);
    var zeng := GetDouble(row, ZENG_RATE);
    if zeng.Failure? {
      return Fail(zeng.error);
    }
    b.AddZengRate(zeng.value);
    return Pass;
  }
}
