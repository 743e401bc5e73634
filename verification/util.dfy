/**
 * Helpers of the database exporters (`postgres/Util.java`): the nullable
 * column read, the list of fault ids whose maximum magnitude is never
 * attached, and the parsing of the maximum-magnitude table. Reading the
 * table's file and the configuration file is left out: the parser is given
 * the file's lines, and the library's comma splitter and
 * `Double.parseDouble` are parameters.
 */
module ExportUtil {
  import opened Wrappers

  /** The fault ids whose maximum magnitude is never attached. */
  const CFAULT_ID_SKIP: seq<string> := ["570n", "570m", "570s", "572", "572n", "572s"]

  /** One column of a result row: `getString` (null or text) and `getDouble`. */
  datatype Column = Column(text: Option<string>, number: real)

  /** A result row by column name; a name not in the row makes the driver throw. */
  type Row = map<string, Column>

  /** `getSQLDouble(result, key)` */
  function SqlDouble(row: Row, key: string): (r: Result<Option<real>>)
    ensures r.Failure? <==> key !in row
    ensures r.Success? ==> (r.value.None? <==> row[key].text.None?)
    ensures r.Success? && r.value.Some? ==> r.value.value == row[key].number
  {
    if key !in row then Failure(SqlError)
    else if row[key].text.None? then Success(None)
    else Success(Some(row[key].number))
  }

  // ---------------------------------------------------------------------
  // The maximum-magnitude table

  const CFAULT_ID := "cfault_id"
  const M_MAX := "mMax"
  const NAME := "name"

  predicate Supported(key: string)
  {
    key == CFAULT_ID || key == M_MAX || key == NAME
  }

  /** The last index holding `k`, or 0 when no key is `k`. */
  function LastIndex(keys: seq<string>, k: string): nat
  {
    if keys == [] then 0
    else if keys[|keys| - 1] == k then |keys| - 1
    else LastIndex(keys[..|keys| - 1], k)
  }

  lemma {:induction false} LastIndexFacts(keys: seq<string>, k: string)
    ensures k in keys ==> LastIndex(keys, k) < |keys| && keys[LastIndex(keys, k)] == k
    ensures k in keys ==> forall i :: LastIndex(keys, k) < i < |keys| ==> keys[i] != k
    ensures k !in keys ==> LastIndex(keys, k) == 0
  {
    if keys != [] {
      var n := |keys|;
      LastIndexFacts(keys[..n - 1], k);
      if keys[n - 1] != k {
        assert k in keys ==> k in keys[..n - 1];
        if k in keys {
          var j := LastIndex(keys, k);
          forall i | j < i < n
            ensures keys[i] != k
          {
            if i < n - 1 {
              assert keys[i] == keys[..n - 1][i];
            }
          }
        }
      }
    }
  }

  /**
   * The header loop of `getMaxMagnitudes`: every key must be cfault_id, mMax
   * or name (otherwise IllegalStateException); the result is the pair of
   * indices (cfault id, mMax), each the last position of its key, or 0 when
   * the key is missing.
   */
  method HeaderIndices(keys: seq<string>) returns (r: Result<(nat, nat)>)
    ensures r.Success? <==> forall i :: 0 <= i < |keys| ==> Supported(keys[i])
    ensures r.Success? ==> r.value == (LastIndex(keys, CFAULT_ID), LastIndex(keys, M_MAX))
    ensures r.Failure? ==> r.error == IllegalState
  {
    var cfaultIdIndex: nat := 0;
    var mMaxIndex: nat := 0;
    var index := 0;
    while index < |keys|
      invariant 0 <= index <= |keys|
      invariant cfaultIdIndex == LastIndex(keys[..index], CFAULT_ID)
      invariant mMaxIndex == LastIndex(keys[..index], M_MAX)
      invariant forall i :: 0 <= i < index ==> Supported(keys[i])
    {
      var key := keys[index];
      assert keys[..index + 1][..index] == keys[..index];
      if key == CFAULT_ID {
        cfaultIdIndex := index;
      } else if key == M_MAX {
        mMaxIndex := index;
      } else if key == NAME {
      } else {
        return Failure(IllegalState);
      }
      index := index + 1;
    }
    assert keys[..index] == keys;
    r := Success((cfaultIdIndex, mMaxIndex));
  }

  /** `String.trim().isEmpty()`: every character is at most U+0020. */
  predicate Blank(line: string)
  {
    forall i :: 0 <= i < |line| ==> line[i] <= ' '
  }

  /** A data line the parser passes over: a comment, or blank. */
  predicate Skipped(line: string)
  {
    (|line| > 0 && line[0] == '#') || Blank(line)
  }

  /**
   * The data lines folded into the map in order: a skipped line changes
   * nothing; any other line, split on commas, maps its cfault id field to
   * its parsed mMax field, replacing an earlier value. A missing field
   * throws IndexOutOfBoundsException, an unparseable number
   * NumberFormatException.
   */
  function Magnitudes(lines: seq<string>, c: nat, m: nat,
                      split: string -> seq<string>, parse: string -> Option<real>): Result<map<string, real>>
  {
    if lines == [] then Success(map[])
    else
      var acc :- Magnitudes(lines[..|lines| - 1], c, m, split, parse);
      AddLine(acc, lines[|lines| - 1], c, m, split, parse)
  }

  /** One data line folded into the map. */
  function AddLine(acc: map<string, real>, line: string, c: nat, m: nat,
                   split: string -> seq<string>, parse: string -> Option<real>): Result<map<string, real>>
  {
    if Skipped(line) then Success(acc)
    else
      var values := split(line);
      if c >= |values| || m >= |values| then Failure(IndexOutOfBounds)
      else if parse(values[m]).None? then Failure(NumberFormat)
      else Success(acc[values[c] := parse(values[m]).value])
  }

  /** The table of the first `i + 1` lines, from the table of the first `i`. */
  lemma MagnitudesSnoc(lines: seq<string>, i: nat, c: nat, m: nat,
                       split: string -> seq<string>, parse: string -> Option<real>)
    requires i < |lines| && Magnitudes(lines[..i], c, m, split, parse).Success?
    ensures Magnitudes(lines[..i + 1], c, m, split, parse) ==
      AddLine(Magnitudes(lines[..i], c, m, split, parse).value, lines[i], c, m, split, parse)
  {
    assert lines[..i + 1][..i] == lines[..i];
  }

  /** A data line that writes key `k`. */
  predicate Writes(line: string, c: nat, split: string -> seq<string>, k: string)
  {
    !Skipped(line) && c < |split(line)| && split(line)[c] == k
  }

  /** Line `j` is the last data line that writes key `k`. */
  predicate LastWriter(lines: seq<string>, j: nat, c: nat, split: string -> seq<string>, k: string)
  {
    j < |lines| && Writes(lines[j], c, split, k)
    && forall i :: j < i < |lines| ==> !Writes(lines[i], c, split, k)
  }

  /** After a successful parse, a fault id is a key exactly when some data line names it. */
  lemma {:induction false} KeysAreWritten(lines: seq<string>, c: nat, m: nat,
                                          split: string -> seq<string>, parse: string -> Option<real>, k: string)
    requires Magnitudes(lines, c, m, split, parse).Success?
    ensures k in Magnitudes(lines, c, m, split, parse).value <==>
      exists i :: 0 <= i < |lines| && Writes(lines[i], c, split, k)
  {
    if lines != [] {
      var n := |lines|;
      var init := lines[..n - 1];
      KeysAreWritten(init, c, m, split, parse, k);
      assert forall i :: 0 <= i < n - 1 ==> lines[i] == init[i];
      if exists i :: 0 <= i < n && Writes(lines[i], c, split, k) {
        var i :| 0 <= i < n && Writes(lines[i], c, split, k);
        if i < n - 1 {
          assert Writes(init[i], c, split, k);
        }
      }
    }
  }

  /**
   * Its value is the parsed mMax of the LAST data line naming it: later
   * duplicates overwrite earlier ones.
   */
  lemma {:induction false} LastLineWins(lines: seq<string>, c: nat, m: nat,
                                        split: string -> seq<string>, parse: string -> Option<real>, k: string)
    requires Magnitudes(lines, c, m, split, parse).Success?
    requires k in Magnitudes(lines, c, m, split, parse).value
    ensures exists j: nat :: (LastWriter(lines, j, c, split, k) && m < |split(lines[j])|
      && parse(split(lines[j])[m]) == Some(Magnitudes(lines, c, m, split, parse).value[k]))
  {
    var n := |lines|;
    var init := lines[..n - 1];
    var acc := Magnitudes(init, c, m, split, parse).value;
    var mp := Magnitudes(lines, c, m, split, parse).value;
    var line := lines[n - 1];
    if Writes(line, c, split, k) {
      assert LastWriter(lines, n - 1, c, split, k);
    } else {
      assert k in acc && mp[k] == acc[k];
      LastLineWins(init, c, m, split, parse, k);
      var j: nat :| LastWriter(init, j, c, split, k) && m < |split(init[j])|
        && parse(split(init[j])[m]) == Some(acc[k]);
      assert forall i :: 0 <= i < n - 1 ==> lines[i] == init[i];
      assert LastWriter(lines, j, c, split, k);
    }
  }

  /**
   * `getMaxMagnitudes()` over the table's lines: the first line is the
   * header (an empty file throws IndexOutOfBoundsException), the rest are
   * data.
   */
  method MaxMagnitudes(lines: seq<string>, split: string -> seq<string>, parse: string -> Option<real>)
    returns (r: Result<map<string, real>>)
    ensures lines == [] ==> r == Failure(IndexOutOfBounds)
    ensures lines != [] ==>
      var keys := split(lines[0]);
      if exists i :: 0 <= i < |keys| && !Supported(keys[i]) then r == Failure(IllegalState)
      else r == Magnitudes(lines[1..], LastIndex(keys, CFAULT_ID), LastIndex(keys, M_MAX), split, parse)
  {
    if |lines| == 0 {
      return Failure(IndexOutOfBounds);
    }
    var keys := split(lines[0]);
    var indices :- HeaderIndices(keys);
    var (cfaultIdIndex, mMaxIndex) := indices;
    var data := lines[1..];
    var maxMagnitudes: map<string, real> := map[];
    var i := 0;
    while i < |data|
      invariant 0 <= i <= |data|
      invariant Magnitudes(data[..i], cfaultIdIndex, mMaxIndex, split, parse) == Success(maxMagnitudes)
    {
      var line := data[i];
      MagnitudesSnoc(data, i, cfaultIdIndex, mMaxIndex, split, parse);
      if !Skipped(line) {
        var values := split(line);
        if cfaultIdIndex >= |values| || mMaxIndex >= |values| {
          FailureStays(data, i + 1, cfaultIdIndex, mMaxIndex, split, parse);
          return Failure(IndexOutOfBounds);
        }
        var mMax := parse(values[mMaxIndex]);
        if mMax.None? {
          FailureStays(data, i + 1, cfaultIdIndex, mMaxIndex, split, parse);
          return Failure(NumberFormat);
        }
        maxMagnitudes := maxMagnitudes[values[cfaultIdIndex] := mMax.value];
      }
      i := i + 1;
    }
    assert data[..i] == data;
    r := Success(maxMagnitudes);
  }

  /** A failure on some line is the failure of the whole table. */
  lemma {:induction false} FailureStays(lines: seq<string>, k: nat, c: nat, m: nat,
                                        split: string -> seq<string>, parse: string -> Option<real>)
    requires k <= |lines| && Magnitudes(lines[..k], c, m, split, parse).Failure?
    ensures Magnitudes(lines, c, m, split, parse) == Magnitudes(lines[..k], c, m, split, parse)
    decreases |lines| - k
  {
    if k < |lines| {
      assert lines[..k + 1][..k] == lines[..k];
      FailureStays(lines, k + 1, c, m, split, parse);
    } else {
      assert lines[..k] == lines;
    }
  }
}
