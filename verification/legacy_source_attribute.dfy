/**
 * The legacy attribute enum (`SourceAttribute.java` in the top package): the
 * same constants as the database-era enum except the five "Sources" ones
 * (MAG_DEPTH_MAP, MAX_DEPTH, FOCAL_MECH_MAP, STRIKE, RUPTURE_SCALING_MODELS),
 * with the same four conversions of `name()`.
 */
module LegacySourceAttributes {
  import opened CaseFormat
  import SA = SourceAttributes

  type SourceAttribute = a: SA.SourceAttribute | !a.SourcesOnly() witness SA.SourceAttribute.ID

  /** The four conversions keep their meaning on the legacy constants. */
  lemma Conversions(a: SourceAttribute)
    ensures a.ToUpperCase() == a.Name()
    ensures Upper(a.ToLowerCase()) == a.Name()
    ensures FromCamel(a.ToUpperCamelCase()) == a.Name() && '_' !in a.ToUpperCamelCase()
    ensures FromCamel(a.ToLowerCamelCase()) == a.Name() && '_' !in a.ToLowerCamelCase()
  {
    SA.UpperCaseIsName(a);
    SA.LowerCaseRoundTrip(a);
    SA.CamelRoundTrip(a);
  }

  /** The magnitude-uncertainty attribute MO_BALANCE is written "moBalance". */
  lemma MoBalanceLowerCamel(a: SourceAttribute)
    requires a == SA.SourceAttribute.MO_BALANCE
    ensures a.ToLowerCamelCase() == "moBalance"
  {
    assert a.Name() == "MO_BALANCE";
    MoBalanceCamel();
  }

  lemma MoBalanceWords()
    ensures Words("MO_BALANCE") == ["MO", "BALANCE"]
  {
    assert "MO_BALANCE" == "MO" + "_" + "BALANCE";
    WordsSplit("MO", "BALANCE");
    WordsWithoutSeparator("BALANCE");
  }

  lemma BalanceCapitalized()
    ensures Capitalize("BALANCE") == "Balance"
  {
    assert Lower("ALANCE") == "alance";
  }

  lemma MoBalanceCamel()
    ensures LowerCamel("MO_BALANCE") == "moBalance"
  {
    MoBalanceWords();
    BalanceCapitalized();
    assert Lower("MO") == "mo";
    assert CapitalizeAll(["BALANCE"]) == "Balance";
  }
}
