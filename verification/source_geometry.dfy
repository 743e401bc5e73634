/**
 * Fault geometry (`postgres/source_settings/SourceGeometry.java`): depth,
 * dip, rake and width as attribute entries, plus a trace held apart. No
 * range check is applied to any of them.
 */
module SourceGeometries {
  import opened Wrappers
  import opened Externals
  import opened AttributeMaps
  import opened SourceAttributes

  type Attributes = Entries<SourceAttribute, string>

  datatype FaultGeometry = FaultGeometry(attributes: Attributes, trace: seq<Location>)

  const Required: set<SourceAttribute> := {DEPTH, DIP, RAKE, WIDTH}

  /**
   * `validate()`, then `new FaultGeometry(this)`: the map must build and hold
   * the four keys; only then is the trace read (NullPointerException when it
   * was never set) and its size checked.
   */
  function BuildGeometry(es: Attributes, trace: Option<seq<Location>>): Result<FaultGeometry>
  {
    var m :- Validated(es, Required);
    if trace.None? then Failure(NullPointer)
    else if |trace.value| == 0 then Failure(IllegalState)
    else Success(FaultGeometry(m, trace.value))
  }

  /**
   * A build succeeds exactly when no setter was repeated, depth, dip, rake
   * and width were set and a non-empty trace was given; the geometry keeps
   * the entries in call order and the last trace given.
   */
  lemma BuildSucceedsExactly(es: Attributes, trace: Option<seq<Location>>)
    ensures BuildGeometry(es, trace).Success? <==>
      DistinctKeys(es) && HasAll(es, Required) && trace.Some? && |trace.value| > 0
    ensures BuildGeometry(es, trace).Success? ==> BuildGeometry(es, trace).value == FaultGeometry(es, trace.value)
    ensures !DistinctKeys(es) ==> BuildGeometry(es, trace) == Failure(DuplicateKey)
    ensures DistinctKeys(es) && HasAll(es, Required) && trace.None? ==> BuildGeometry(es, trace) == Failure(NullPointer)
  {
  }

  /** Whatever values the four setters are given, the build does not reject them. */
  lemma NoRangeChecks(f: Formats, depth: real, dip: real, rake: real, width: real, trace: seq<Location>)
    requires |trace| > 0
    ensures var es := [(DEPTH, f.double(depth)), (DIP, f.double(dip)), (RAKE, f.double(rake)), (WIDTH, f.double(width))];
      BuildGeometry(es, Some(trace)) == Success(FaultGeometry(es, trace))
  {
    var es := [(DEPTH, f.double(depth)), (DIP, f.double(dip)), (RAKE, f.double(rake)), (WIDTH, f.double(width))];
    var ks := [DEPTH, DIP, RAKE, WIDTH];
    assert Keys(es) == ks;
    assert NoRepeats(ks[3..]);
    assert NoRepeats(ks[2..]);
    assert NoRepeats(ks[1..]);
    NoRepeatsPairwise(ks);
    KeysAre(es, ks);
  }

  /** `SourceGeometry.FaultGeometry.Builder` */
  class FaultGeometryBuilder {
    var attributes: Attributes
    var trace: Option<seq<Location>>
    const formats: Formats

    constructor (formats: Formats)
      ensures attributes == [] && trace == None && this.formats == formats
    {
      attributes, trace := [], None;
      this.formats := formats;
    }

    method Depth(depth: real)
      modifies this
      ensures attributes == old(attributes) + [(DEPTH, formats.double(depth))] && trace == old(trace)
    {
      attributes := attributes + [(DEPTH, formats.double(depth))];
    }

    method Dip(dip: real)
      modifies this
      ensures attributes == old(attributes) + [(DIP, formats.double(dip))] && trace == old(trace)
    {
      attributes := attributes + [(DIP, formats.double(dip))];
    }

    method Rake(rake: real)
      modifies this
      ensures attributes == old(attributes) + [(RAKE, formats.double(rake))] && trace == old(trace)
    {
      attributes := attributes + [(RAKE, formats.double(rake))];
    }

    /** `trace(t)`: replaces any earlier trace. */
    method Trace(t: seq<Location>)
      modifies this
      ensures trace == Some(t) && attributes == old(attributes)
    {
      trace := Some(t);
    }

    method Width(width: real)
      modifies this
      ensures attributes == old(attributes) + [(WIDTH, formats.double(width))] && trace == old(trace)
    {
      attributes := attributes + [(WIDTH, formats.double(width))];
    }

    method Build() returns (r: Result<FaultGeometry>)
      ensures r == BuildGeometry(attributes, trace)
    {
      var m := Validated(attributes, Required);
      if m.Failure? {
        return Failure(m.error);
      }
      if trace.None? {
        return Failure(NullPointer);
      }
      if |trace.value| == 0 {
        return Failure(IllegalState);
      }
      r := Success(FaultGeometry(m.value, trace.value));
    }
  }
}
