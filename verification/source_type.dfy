/**
 * The kinds of source the exporter writes (`postgres/sources/SourceType.java`)
 * and their four name spellings.
 */
module SourceTypes {
  import opened CaseFormat

  datatype SourceType = FAULT | FAULT_SOURCE_SET
  {
    function Name(): string
    {
      match this
      case FAULT => "FAULT"
      case FAULT_SOURCE_SET => "FAULT_SOURCE_SET"
    }

    function ToLowerCase(): string
    {
      Lower(Name())
    }

    function ToUpperCase(): string
    {
      Upper(Name())
    }

    function ToUpperCamelCase(): string
    {
      UpperCamel(Name())
    }

    function ToLowerCamelCase(): string
    {
      LowerCamel(Name())
    }
  }

  /** Lower case round-trips through upper case; upper case is the name itself. */
  lemma CaseConversions(t: SourceType)
    ensures Upper(t.ToLowerCase()) == t.Name()
    ensures t.ToUpperCase() == t.Name()
  {
    CaseRoundTrip(t.Name());
  }

  lemma SourceSetWords()
    ensures Words("SOURCE_SET") == ["SOURCE", "SET"]
  {
    assert "SOURCE_SET" == "SOURCE" + "_" + "SET";
    WordsSplit("SOURCE", "SET");
    WordsWithoutSeparator("SET");
  }

  lemma FaultSourceSetWords()
    ensures Words("FAULT_SOURCE_SET") == ["FAULT", "SOURCE", "SET"]
  {
    assert "FAULT_SOURCE_SET" == "FAULT" + "_" + "SOURCE_SET";
    WordsSplit("FAULT", "SOURCE_SET");
    SourceSetWords();
  }

  lemma SourceSetCapitalized()
    ensures CapitalizeAll(["SOURCE", "SET"]) == "SourceSet"
  {
    assert Capitalize("SOURCE") == "Source" by { assert Lower("OURCE") == "ource"; }
    assert Capitalize("SET") == "Set" by { assert Lower("ET") == "et"; }
    assert CapitalizeAll(["SET"]) == "Set";
  }

  lemma FaultCapitalized()
    ensures Capitalize("FAULT") == "Fault"
  {
    assert Lower("AULT") == "ault";
  }

  lemma FaultSourceSetCapitalized(ws: seq<string>)
    requires ws == ["FAULT", "SOURCE", "SET"]
    ensures CapitalizeAll(ws) == "FaultSourceSet"
  {
    SourceSetCapitalized();
    FaultCapitalized();
    assert ws[1..] == ["SOURCE", "SET"];
  }

  lemma FaultSourceSetUpperCamel(s: string)
    requires s == "FAULT_SOURCE_SET"
    ensures UpperCamel(s) == "FaultSourceSet"
  {
    FaultSourceSetWords();
    FaultSourceSetCapitalized(Words(s));
  }

  lemma FaultSourceSetLowerCamel(s: string)
    requires s == "FAULT_SOURCE_SET"
    ensures LowerCamel(s) == "faultSourceSet"
  {
    FaultSourceSetWords();
    FaultSourceSetLowerParts(Words(s));
  }

  lemma FaultSourceSetLowerParts(ws: seq<string>)
    requires ws == ["FAULT", "SOURCE", "SET"]
    ensures Lower(ws[0]) + CapitalizeAll(ws[1..]) == "faultSourceSet"
  {
    assert ws[1..] == ["SOURCE", "SET"];
    SourceSetCapitalized();
    assert Lower("FAULT") == "fault";
  }

  lemma FaultCamel()
    ensures UpperCamel("FAULT") == "Fault"
  {
    WordsWithoutSeparator("FAULT");
    FaultCapitalized();
  }

  /** The XML root element of a fault source set is "FaultSourceSet"; a fault is "Fault". */
  lemma CamelNames(t: SourceType)
    ensures t == FAULT_SOURCE_SET ==> t.ToUpperCamelCase() == "FaultSourceSet"
    ensures t == FAULT_SOURCE_SET ==> t.ToLowerCamelCase() == "faultSourceSet"
    ensures t == FAULT ==> t.ToUpperCamelCase() == "Fault"
  {
    if t == FAULT_SOURCE_SET {
      FaultSourceSetUpperCamel(t.Name());
      FaultSourceSetLowerCamel(t.Name());
    } else {
      FaultCamel();
    }
  }
}
