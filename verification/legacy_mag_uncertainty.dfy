/**
 * The legacy magnitude-uncertainty builders (`MagUncertainty.java` in the
 * top package). Their code is that of the database-era builders with the
 * map keyed by the legacy attribute enum, so the model reuses
 * `MagUncertainties` and proves that every key those builders put is a
 * legacy constant.
 */
module LegacyMagUncertainties {
  import opened Wrappers
  import opened AttributeMaps
  import MU = MagUncertainties
  import SA = SourceAttributes
  import LSA = LegacySourceAttributes

  /** Entries keyed by the legacy enum. */
  type Attributes = Entries<LSA.SourceAttribute, string>

  /** The keys a builder of kind `k` can put: its setters' keys and TYPE. */
  lemma KeysAreLegacy(k: MU.UncertaintyKind, a: SA.SourceAttribute)
    requires a in k.SetterKeys() || a == SA.SourceAttribute.TYPE
    ensures !a.SourcesOnly()
  {
  }

  /**
   * A build over legacy entries yields a map whose keys are all legacy
   * constants, in call order with TYPE last.
   */
  lemma BuildStaysLegacy(k: MU.UncertaintyKind, es: Attributes)
    requires MU.BuildUncertainty(k, es).Success?
    ensures var m := MU.BuildUncertainty(k, es).value.attributes;
      |m| == |es| + 1 && m[..|es|] == es &&
      m[|es|] == MU.TypeEntry(k) &&
      forall i :: 0 <= i < |m| ==> !m[i].0.SourcesOnly()
  {
    MU.BuildSucceedsExactly(k, es);
    var m := MU.BuildUncertainty(k, es).value.attributes;
    assert m == es + [MU.TypeEntry(k)];
    forall i | 0 <= i < |m|
      ensures !m[i].0.SourcesOnly()
    {
      if i < |es| {
        assert m[i] == es[i];
      } else {
        KeysAreLegacy(k, SA.SourceAttribute.TYPE);
      }
    }
  }
}
