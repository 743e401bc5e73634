# nshmp-dev fault model assembly, in Dafny

This project models the in-memory record assembly of nshmp-dev, the code of the
USGS National Seismic Hazard Model that reads fault records from a PostgreSQL
database and writes them out as GeoJSON and XML source models. The modelled
part sits between database rows and output files:

- the attribute-map builders (default MFDs, magnitude uncertainties, source
  properties, fault geometry, fault sources and fault source sets), whose
  `ImmutableMap.Builder` is an insertion-ordered list of entries that fails to
  build on a repeated key;
- the flagged value builders (`Fault`, `FaultSet`, `SlipRate`,
  `ModelParameters`, and the `PostgreSQL` and `Postgres` connection builders),
  modelled as classes whose methods update their fields;
- the non-empty list builders of the settings block;
- the rate-model selection of the generic, 2008 and 2014 fault exporters,
  over an abstract database row;
- the string functions: enum case conversion, `cleanName`, the SQL query
  builder, the select-field lists, WKT coordinate handling and the
  maximum-magnitude file parsing;
- the XML element trees built by the two `writeXML` exporters, as a tree
  datatype.

Java exceptions are the `Failure` values of `Wrappers.Result` (or the `Fail`
values of `Wrappers.Outcome` for a builder call that throws). Number-to-text
conversion and the range checks of the wider earthquake library are
parameters of the model (`Externals.Formats`, `Externals.Checks`), so every
property holds whatever they do.

## Model

| member | source | states |
|---|---|---|
| DefaultMfds.BuildSucceedsExactly | src/gov/usgs/earthquake/nshmp/postgres/source_settings/DefaultMfd.java:60-63 | `build()` succeeds exactly when no key was put twice, TYPE was not put before, and every other key `validate()` checks was put; the built map is the entries in call order with TYPE last |
| DefaultMfds.BuildOf | src/gov/usgs/earthquake/nshmp/postgres/source_settings/DefaultMfd.java:152-156 | the same statement for each of the four builders, with that builder's checked keys and its TYPE value (the name of GR, INCR, SINGLE or GR_TAPER) |
| DefaultMfds.GutenbergRichterBuild | src/gov/usgs/earthquake/nshmp/postgres/source_settings/DefaultMfd.java:60-115 | a Gutenberg-Richter build succeeds exactly when keys are distinct, TYPE is absent and A, B, D_MAG, M_MAX, M_MIN and WEIGHT were all put; the map then ends with TYPE "GR" |
| DefaultMfds.SingleBuild | src/gov/usgs/earthquake/nshmp/postgres/source_settings/DefaultMfd.java:230-271 | a single build succeeds exactly when keys are distinct, TYPE is absent and FLOATS, M, RATE and WEIGHT were all put; the map then ends with TYPE "SINGLE" |
| DefaultMfds.IncrementalNeverBuilds | src/gov/usgs/earthquake/nshmp/postgres/source_settings/DefaultMfd.java:152-193 | whatever the incremental setters put, and however often, the build fails, because WEIGHTS is checked but never put |
| DefaultMfds.TaperedNeverBuilds | src/gov/usgs/earthquake/nshmp/postgres/source_settings/DefaultMfd.java:311-379 | whatever the tapered setters put, the build fails, because B is checked but no setter puts it |
| DefaultMfds.MCutIsIgnored | src/gov/usgs/earthquake/nshmp/postgres/source_settings/DefaultMfd.java:342-379 | M_CUT is neither checked nor forbidden: putting it once more does not change whether a tapered build succeeds |
| DefaultMfds.RepeatedKeyFails | src/gov/usgs/earthquake/nshmp/postgres/source_settings/DefaultMfd.java:103-104 | a key put twice makes every build fail with the map builder's IllegalArgumentException |
| DefaultMfds.SecondBuildFails | src/gov/usgs/earthquake/nshmp/postgres/source_settings/DefaultMfd.java:60-63 | calling `build()` a second time on the same builder puts TYPE again and fails on the duplicate key |
| DefaultMfds.DistinctCoveringKeysBuild | src/gov/usgs/earthquake/nshmp/postgres/source_settings/DefaultMfd.java:103-115 | setter calls with distinct keys, none TYPE, covering the checked keys: the build succeeds with those entries plus TYPE |
| DefaultMfds.MissingKeyBuild | src/gov/usgs/earthquake/nshmp/postgres/source_settings/DefaultMfd.java:103-115 | setter calls with distinct keys that miss a checked key: the build throws IllegalStateException |
| DefaultMfds.GutenbergRichterSettersOnce | src/gov/usgs/earthquake/nshmp/postgres/source_settings/DefaultMfd.java:67-115 | calling each Gutenberg-Richter setter once, in declaration order, makes the build succeed |
| DefaultMfds.SingleSettersOnce | src/gov/usgs/earthquake/nshmp/postgres/source_settings/DefaultMfd.java:237-271 | calling each single setter once, in declaration order, makes the build succeed |
| DefaultMfds.IncrementalSettersOnce | src/gov/usgs/earthquake/nshmp/postgres/source_settings/DefaultMfd.java:159-193 | calling each incremental setter once, in declaration order, still fails the check with IllegalStateException |
| DefaultMfds.IncrementalMissesWeights | src/gov/usgs/earthquake/nshmp/postgres/source_settings/DefaultMfd.java:177-190 | WEIGHTS is among the checked keys and no incremental setter writes it |
| DefaultMfds.TaperedSettersOnce | src/gov/usgs/earthquake/nshmp/postgres/source_settings/DefaultMfd.java:318-327 | calling each tapered setter once, in declaration order, fails with IllegalArgumentException, because `a` and `b` both put A |
| DefaultMfds.EachSetterOnce | src/gov/usgs/earthquake/nshmp/postgres/source_settings/DefaultMfd.java:37-381 | each setter once, in declaration order: the Gutenberg-Richter and single builds succeed, the incremental build throws IllegalStateException, the tapered build throws IllegalArgumentException |
| DefaultMfds.IntendedIncrementalSettersOnce | src/gov/usgs/earthquake/nshmp/postgres/source_settings/DefaultMfd.java:186-190 | when the check asks for WEIGHT, calling each incremental setter once, in declaration order, makes the build succeed |
| DefaultMfds.IntendedTaperedSettersOnce | src/gov/usgs/earthquake/nshmp/postgres/source_settings/DefaultMfd.java:324-327 | when `b` puts B, calling each tapered setter once, in declaration order, makes the build succeed |
| DefaultMfds.IntendedEachSetterOnce | src/gov/usgs/earthquake/nshmp/postgres/source_settings/DefaultMfd.java:37-381 | with both corrections, every builder succeeds once each of its setters has been called once, in declaration order |
| DefaultMfds.GutenbergRichterBuilder.constructor | src/gov/usgs/earthquake/nshmp/postgres/source_settings/DefaultMfd.java:48-57 | a new builder holds no entries |
| DefaultMfds.GutenbergRichterBuilder.SetA | src/gov/usgs/earthquake/nshmp/postgres/source_settings/DefaultMfd.java:67-70 | appends A with the value's text |
| DefaultMfds.GutenbergRichterBuilder.SetB | src/gov/usgs/earthquake/nshmp/postgres/source_settings/DefaultMfd.java:73-76 | appends B with the value's text |
| DefaultMfds.GutenbergRichterBuilder.DMag | src/gov/usgs/earthquake/nshmp/postgres/source_settings/DefaultMfd.java:79-82 | appends D_MAG with the value's text |
| DefaultMfds.GutenbergRichterBuilder.MMax | src/gov/usgs/earthquake/nshmp/postgres/source_settings/DefaultMfd.java:85-88 | appends M_MAX with the value's text |
| DefaultMfds.GutenbergRichterBuilder.MMin | src/gov/usgs/earthquake/nshmp/postgres/source_settings/DefaultMfd.java:91-94 | appends M_MIN with the value's text |
| DefaultMfds.GutenbergRichterBuilder.Weight | src/gov/usgs/earthquake/nshmp/postgres/source_settings/DefaultMfd.java:97-100 | appends WEIGHT with the value's text |
| DefaultMfds.GutenbergRichterBuilder.Build | src/gov/usgs/earthquake/nshmp/postgres/source_settings/DefaultMfd.java:60-63 | puts TYPE, then returns the checked build of the entries (see `GutenbergRichterBuild`) |
| DefaultMfds.IncrementalBuilder.constructor | src/gov/usgs/earthquake/nshmp/postgres/source_settings/DefaultMfd.java:140-149 | a new builder holds no entries |
| DefaultMfds.IncrementalBuilder.Floats | src/gov/usgs/earthquake/nshmp/postgres/source_settings/DefaultMfd.java:159-162 | appends FLOATS with "true" or "false" |
| DefaultMfds.IncrementalBuilder.Mags | src/gov/usgs/earthquake/nshmp/postgres/source_settings/DefaultMfd.java:165-168 | appends MAGS with the array's text |
| DefaultMfds.IncrementalBuilder.Rates | src/gov/usgs/earthquake/nshmp/postgres/source_settings/DefaultMfd.java:171-174 | appends RATES with the array's text |
| DefaultMfds.IncrementalBuilder.Weight | src/gov/usgs/earthquake/nshmp/postgres/source_settings/DefaultMfd.java:177-180 | appends WEIGHT (not WEIGHTS) with the value's text |
| DefaultMfds.IncrementalBuilder.Build | src/gov/usgs/earthquake/nshmp/postgres/source_settings/DefaultMfd.java:152-156 | puts TYPE and always fails |
| DefaultMfds.SingleBuilder.constructor | src/gov/usgs/earthquake/nshmp/postgres/source_settings/DefaultMfd.java:218-227 | a new builder holds no entries |
| DefaultMfds.SingleBuilder.Floats | src/gov/usgs/earthquake/nshmp/postgres/source_settings/DefaultMfd.java:237-240 | appends FLOATS with "true" or "false" |
| DefaultMfds.SingleBuilder.SetM | src/gov/usgs/earthquake/nshmp/postgres/source_settings/DefaultMfd.java:243-246 | appends M with the value's text |
| DefaultMfds.SingleBuilder.Rate | src/gov/usgs/earthquake/nshmp/postgres/source_settings/DefaultMfd.java:249-252 | appends RATE with the value's text |
| DefaultMfds.SingleBuilder.Weight | src/gov/usgs/earthquake/nshmp/postgres/source_settings/DefaultMfd.java:255-258 | appends WEIGHT with the value's text |
| DefaultMfds.SingleBuilder.Build | src/gov/usgs/earthquake/nshmp/postgres/source_settings/DefaultMfd.java:230-234 | puts TYPE, then returns the checked build of the entries (see `SingleBuild`) |
| DefaultMfds.TaperedGutenbergRichterBuilder.constructor | src/gov/usgs/earthquake/nshmp/postgres/source_settings/DefaultMfd.java:299-308 | a new builder holds no entries |
| DefaultMfds.TaperedGutenbergRichterBuilder.SetA | src/gov/usgs/earthquake/nshmp/postgres/source_settings/DefaultMfd.java:318-321 | appends A with the value's text |
| DefaultMfds.TaperedGutenbergRichterBuilder.SetB | src/gov/usgs/earthquake/nshmp/postgres/source_settings/DefaultMfd.java:324-327 | appends A (not B) with the value's text |
| DefaultMfds.TaperedGutenbergRichterBuilder.CMag | src/gov/usgs/earthquake/nshmp/postgres/source_settings/DefaultMfd.java:330-333 | appends C_MAG with the value's text |
| DefaultMfds.TaperedGutenbergRichterBuilder.DMag | src/gov/usgs/earthquake/nshmp/postgres/source_settings/DefaultMfd.java:336-339 | appends D_MAG with the value's text |
| DefaultMfds.TaperedGutenbergRichterBuilder.MCut | src/gov/usgs/earthquake/nshmp/postgres/source_settings/DefaultMfd.java:342-345 | appends M_CUT with the value's text |
| DefaultMfds.TaperedGutenbergRichterBuilder.MMax | src/gov/usgs/earthquake/nshmp/postgres/source_settings/DefaultMfd.java:348-351 | appends M_MAX with the value's text |
| DefaultMfds.TaperedGutenbergRichterBuilder.MMin | src/gov/usgs/earthquake/nshmp/postgres/source_settings/DefaultMfd.java:354-357 | appends M_MIN with the value's text |
| DefaultMfds.TaperedGutenbergRichterBuilder.Weight | src/gov/usgs/earthquake/nshmp/postgres/source_settings/DefaultMfd.java:360-363 | appends WEIGHT with the value's text |
| DefaultMfds.TaperedGutenbergRichterBuilder.Build | src/gov/usgs/earthquake/nshmp/postgres/source_settings/DefaultMfd.java:311-315 | puts TYPE and always fails |
| MagUncertainties.TypeText | src/gov/usgs/earthquake/nshmp/postgres/source_settings/MagUncertainty.java:53-127 | the TYPE value `build()` puts is "Aleatory" for the aleatory builder and "Epistemic" for the epistemic one |
| MagUncertainties.BuildSucceedsExactly | src/gov/usgs/earthquake/nshmp/postgres/source_settings/MagUncertainty.java:52-93 | a build succeeds exactly when no key was put twice, TYPE was not put before, and every key `validate()` checks was put; the entries keep call order with TYPE last |
| MagUncertainties.RepeatedKeyFails | src/gov/usgs/earthquake/nshmp/postgres/source_settings/MagUncertainty.java:83-84 | a setter called twice makes the build fail with the map builder's IllegalArgumentException |
| MagUncertainties.SecondBuildFails | src/gov/usgs/earthquake/nshmp/postgres/source_settings/MagUncertainty.java:126-130 | a second `build()` on the same builder puts TYPE again and fails on the duplicate key |
| MagUncertainties.EachSetterOnce | src/gov/usgs/earthquake/nshmp/postgres/source_settings/MagUncertainty.java:32-162 | each setter called once, in declaration order: the build succeeds with those entries in call order and TYPE last |
| MagUncertainties.EpistemicLengthsUnchecked | src/gov/usgs/earthquake/nshmp/postgres/source_settings/MagUncertainty.java:139-160 | the epistemic build accepts deltas and weights of any lengths; they are never compared |
| MagUncertainties.AleatoryBuilder.constructor | src/gov/usgs/earthquake/nshmp/postgres/source_settings/MagUncertainty.java:40-49 | a new builder holds no entries |
| MagUncertainties.AleatoryBuilder.Count | src/gov/usgs/earthquake/nshmp/postgres/source_settings/MagUncertainty.java:59-62 | appends COUNT with the integer's text |
| MagUncertainties.AleatoryBuilder.Cutoff | src/gov/usgs/earthquake/nshmp/postgres/source_settings/MagUncertainty.java:65-68 | appends CUTOFF with the value's text |
| MagUncertainties.AleatoryBuilder.MoBalance | src/gov/usgs/earthquake/nshmp/postgres/source_settings/MagUncertainty.java:71-74 | appends MO_BALANCE with "true" or "false" |
| MagUncertainties.AleatoryBuilder.Sigma | src/gov/usgs/earthquake/nshmp/postgres/source_settings/MagUncertainty.java:77-80 | appends SIGMA with the value's text |
| MagUncertainties.AleatoryBuilder.Build | src/gov/usgs/earthquake/nshmp/postgres/source_settings/MagUncertainty.java:52-56 | puts TYPE "Aleatory", then returns the checked build of the entries |
| MagUncertainties.EpistemicBuilder.constructor | src/gov/usgs/earthquake/nshmp/postgres/source_settings/MagUncertainty.java:114-123 | a new builder holds no entries |
| MagUncertainties.EpistemicBuilder.Cutoff | src/gov/usgs/earthquake/nshmp/postgres/source_settings/MagUncertainty.java:133-136 | appends CUTOFF with the value's text |
| MagUncertainties.EpistemicBuilder.Deltas | src/gov/usgs/earthquake/nshmp/postgres/source_settings/MagUncertainty.java:139-142 | appends DELTAS with the array's text |
| MagUncertainties.EpistemicBuilder.Weights | src/gov/usgs/earthquake/nshmp/postgres/source_settings/MagUncertainty.java:145-148 | appends WEIGHTS with the array's text |
| MagUncertainties.EpistemicBuilder.Build | src/gov/usgs/earthquake/nshmp/postgres/source_settings/MagUncertainty.java:126-130 | puts TYPE "Epistemic", then returns the checked build of the entries |
| LegacyMagUncertainties.KeysAreLegacy | src/gov/usgs/earthquake/nshmp/MagUncertainty.java:49-90 | every key the legacy builders put (their setters' keys and TYPE) is a constant of the legacy attribute enum |
| LegacyMagUncertainties.BuildStaysLegacy | src/gov/usgs/earthquake/nshmp/MagUncertainty.java:49-53 | a successful legacy build holds the entries in call order, then TYPE, and every key is a legacy constant |
| CaseFormat.CasesAgree | src/gov/usgs/earthquake/nshmp/postgres/sources/SourceAttribute.java:87-95 | on any text, lowering then raising is raising and raising then lowering is lowering; a lowered text has no capital, a raised one no small letter, and a character is kept exactly when it is not a letter of the case being changed |
| CaseFormat.JoinWords | src/gov/usgs/earthquake/nshmp/postgres/sources/SourceAttribute.java:98-100 | splitting a name at '_' and joining the words with '_' gives the name back |
| CaseFormat.WordsOfJoin | src/gov/usgs/earthquake/nshmp/postgres/sources/SourceAttribute.java:98-100 | words without '_', joined with '_', split back into those same words |
| CaseFormat.UpperCamelRoundTrip | src/gov/usgs/earthquake/nshmp/postgres/sources/SourceAttribute.java:98-100 | the UPPER_CAMEL form of a constant name determines the name: `FromCamel` recovers it |
| CaseFormat.LowerCamelRoundTrip | src/gov/usgs/earthquake/nshmp/postgres/sources/SourceAttribute.java:103-105 | the LOWER_CAMEL form of a constant name determines the name: `FromCamel` recovers it |
| CaseFormat.UpperCamelInjective | src/gov/usgs/earthquake/nshmp/postgres/sources/SourceAttribute.java:98-100 | distinct constant names have distinct UPPER_CAMEL forms |
| CaseFormat.LowerCamelInjective | src/gov/usgs/earthquake/nshmp/postgres/sources/SourceAttribute.java:103-105 | distinct constant names have distinct LOWER_CAMEL forms |
| CaseFormat.CamelFormsAgreeAfterFirst | src/gov/usgs/earthquake/nshmp/postgres/sources/SourceAttribute.java:97-105 | the two camel forms of a constant name have the same length and differ only in the first letter, a capital and its lower case |
| CaseFormat.CamelFormsHaveNoSeparator | src/gov/usgs/earthquake/nshmp/postgres/sources/SourceAttribute.java:97-105 | neither camel form of a constant name contains '_' |
| CaseFormat.CaseRoundTrip | src/gov/usgs/earthquake/nshmp/postgres/sources/SourceAttribute.java:87-95 | a constant name is its own upper case; its lower case has no capital and upper-cases back to the name |
| CaseFormat.SingleWordLowerCamel | src/gov/usgs/earthquake/nshmp/postgres/sources/SourceAttribute.java:103-105 | for a name without '_', LOWER_CAMEL is plain lower case and UPPER_CAMEL is the capitalized word |
| CaseFormat.CamelOne | src/gov/usgs/earthquake/nshmp/postgres/sources/SourceAttribute.java:97-105 | the camel forms of a one-word name |
| CaseFormat.CamelTwo | src/gov/usgs/earthquake/nshmp/postgres/sources/SourceAttribute.java:97-105 | the camel forms of a two-word name: each word capitalized, or the first lowered |
| CaseFormat.CamelThree | src/gov/usgs/earthquake/nshmp/postgres/sources/SourceAttribute.java:98-100 | the UPPER_CAMEL form of a three-word name is the three words capitalized |
| SourceAttributes.LowerCaseRoundTrip | src/gov/usgs/earthquake/nshmp/postgres/sources/SourceAttribute.java:88-90 | `toLowerCase()` keeps the length, has no capital letter, and upper-cases back to the constant's name |
| SourceAttributes.UpperCaseIsName | src/gov/usgs/earthquake/nshmp/postgres/sources/SourceAttribute.java:93-95 | `toUpperCase()` is the constant's name itself |
| SourceAttributes.CamelRoundTrip | src/gov/usgs/earthquake/nshmp/postgres/sources/SourceAttribute.java:97-105 | both camel forms drop every '_', and the constant's name is recovered from either |
| SourceAttributes.CamelFormsDifferInFirstLetter | src/gov/usgs/earthquake/nshmp/postgres/sources/SourceAttribute.java:97-105 | `toLowerCamelCase()` is `toUpperCamelCase()` with its first capital lowered; for a one-word constant it equals `toLowerCase()` |
| SourceAttributes.LowerCamelNamesDistinct | src/gov/usgs/earthquake/nshmp/postgres/sources/SourceAttribute.java:103-105 | different constants have different lower camel names, so the XML attribute names never clash |
| SourceAttributes.DMagLowerCamel | src/gov/usgs/earthquake/nshmp/postgres/sources/SourceAttribute.java:66 | D_MAG is written "dMag" as an XML attribute |
| SourceAttributes.NamesAreConstantCase | src/gov/usgs/earthquake/nshmp/postgres/sources/SourceAttribute.java:12-84 | every constant's name is capital letters in words joined by single '_' |
| SourceAttributes.ValueOfName | src/gov/usgs/earthquake/nshmp/postgres/sources/SourceAttribute.java:12-84 | `valueOf(name())` finds every constant again |
| SourceAttributes.NameInjective | src/gov/usgs/earthquake/nshmp/postgres/sources/SourceAttribute.java:12-84 | different constants have different names |
| LegacySourceAttributes.Conversions | src/gov/usgs/earthquake/nshmp/SourceAttribute.java:80-98 | the legacy enum's four conversions: upper case is the name, lower case upper-cases back to it, and both camel forms drop '_' and give the name back |
| LegacySourceAttributes.MoBalanceLowerCamel | src/gov/usgs/earthquake/nshmp/SourceAttribute.java:95-98 | the legacy MO_BALANCE is written "moBalance" |
| SourceTypes.CaseConversions | src/gov/usgs/earthquake/nshmp/postgres/sources/SourceType.java:12-20 | lower case upper-cases back to the name; upper case is the name itself |
| SourceTypes.CamelNames | src/gov/usgs/earthquake/nshmp/postgres/sources/SourceType.java:22-30 | FAULT_SOURCE_SET is "FaultSourceSet" in upper camel case and "faultSourceSet" in lower camel case; FAULT is "Fault" |
| Text.TrimStart | src/gov/usgs/earthquake/nshmp/FaultExporter.java:123 | the leading half of `String.trim()`: the suffix of the input left after dropping every leading character up to U+0020; it is empty or starts above U+0020 |
| Text.TrimEnd | src/gov/usgs/earthquake/nshmp/FaultExporter.java:123 | the trailing half of `String.trim()`: the prefix of the input left after dropping every trailing character up to U+0020; it is empty or ends above U+0020 |
| Text.TrimIsInner | src/gov/usgs/earthquake/nshmp/postgres/FaultExporter.java:244 | `trim()` yields a contiguous run of the input whose ends are above U+0020, and everything cut before and after it is at or below U+0020 |
| Text.ReplaceRemoves | src/gov/usgs/earthquake/nshmp/postgres/FaultExporter.java:240-243 | replacing a one-character target by text without it leaves no occurrence of that character |
| Text.ReplaceKeepsOut | src/gov/usgs/earthquake/nshmp/postgres/FaultExporter.java:236-243 | a replacement adds no character that neither the input nor the replacement holds |
| Text.ReplaceAbsent | src/gov/usgs/earthquake/nshmp/FaultExporter.java:121-122 | replacing a character that does not occur changes nothing |
| Text.ReplaceCharConcat | src/gov/usgs/earthquake/nshmp/FaultExporter.java:121-122 | replacing a one-character target distributes over concatenation |
| Text.TrimFramed | src/gov/usgs/earthquake/nshmp/FaultExporter.java:123 | a text framed by one space each side trims back to itself when its own ends are above U+0020 |
| Text.JoinKeepsOut | src/gov/usgs/earthquake/nshmp/FaultExporter.java:120 | a character in neither the separator nor any element is not in the joined text |
| Text.JoinEnds | src/gov/usgs/earthquake/nshmp/FaultExporter.java:120 | joining non-empty elements gives a text that starts with the first element's first character and ends with the last element's last |
| Text.DropWhitespace | src/gov/usgs/earthquake/nshmp/postgres/FaultExporter.java:235 | the suffix of the input left after dropping every leading whitespace character; it is empty or starts with a non-whitespace character |
| Text.Collapse | src/gov/usgs/earthquake/nshmp/postgres/FaultExporter.java:235 | `collapseFrom(s, ' ')` is empty exactly when the input is, and starts with whitespace exactly when the input does; its content is stated by CollapseIsCollapsed, CollapseKeepsSolid and CollapseFixesCollapsed |
| Text.CollapseIsCollapsed | src/gov/usgs/earthquake/nshmp/postgres/FaultExporter.java:235 | after collapsing, no two whitespace characters are adjacent and every whitespace character is a space |
| Text.CollapseKeepsOut | src/gov/usgs/earthquake/nshmp/postgres/FaultExporter.java:235 | collapsing introduces no character other than a space |
| Text.DropKeepsSolid | src/gov/usgs/earthquake/nshmp/postgres/FaultExporter.java:235 | dropping leading whitespace keeps every non-whitespace character in order |
| Text.CollapseKeepsSolid | src/gov/usgs/earthquake/nshmp/postgres/FaultExporter.java:235 | collapsing keeps the non-whitespace characters of the input, all of them and in order |
| Text.CollapseFixesCollapsed | src/gov/usgs/earthquake/nshmp/postgres/FaultExporter.java:235 | a text with no whitespace run and no whitespace but spaces is left unchanged |
| Text.CollapseIdempotent | src/gov/usgs/earthquake/nshmp/postgres/FaultExporter.java:235 | collapsing twice is collapsing once |
| Text.CollapsedRun | src/gov/usgs/earthquake/nshmp/postgres/FaultExporter.java:235 | any run of a collapsed text is collapsed |
| ExportUtil.LastIndexFacts | src/gov/usgs/earthquake/nshmp/postgres/Util.java:124-142 | the index the header loop keeps for a key is its last position, or 0 when the key is absent |
| ExportUtil.HeaderIndices | src/gov/usgs/earthquake/nshmp/postgres/Util.java:124-142 | the header loop succeeds exactly when every key is cfault_id, mMax or name, otherwise IllegalStateException; it yields the last positions of cfault_id and mMax, 0 when missing |
| ExportUtil.KeysAreWritten | src/gov/usgs/earthquake/nshmp/postgres/Util.java:144-151 | after a successful parse, a fault id is a key exactly when some data line that is neither a comment nor blank names it |
| ExportUtil.LastLineWins | src/gov/usgs/earthquake/nshmp/postgres/Util.java:144-151 | a fault id's magnitude is the parsed mMax field of the last data line naming it |
| ExportUtil.FailureStays | src/gov/usgs/earthquake/nshmp/postgres/Util.java:144-151 | an exception on one line is the outcome of the whole table |
| ExportUtil.MaxMagnitudes | src/gov/usgs/earthquake/nshmp/postgres/Util.java:116-154 | an empty file throws IndexOutOfBoundsException; an unsupported header key throws IllegalStateException; otherwise the result is the fold of the data lines with the header's indices |
| LegacyFaultExporter.SqlSelectFields | src/gov/usgs/earthquake/nshmp/FaultExporter.java:104-126 | the select clause is the eleven lower-case column names, the trace wrapped in ST_AsText, joined by ", ", with no bracket left |
| LegacyFaultExporter.LowerNamePlain | src/gov/usgs/earthquake/nshmp/FaultExporter.java:107-117 | the lower case of a constant name, and its trace wrapping, are bracket-free and start and end above U+0020 |
| LegacyFaultExporter.SelectFieldsShape | src/gov/usgs/earthquake/nshmp/FaultExporter.java:107-117 | every select entry is bracket-free and starts and ends above U+0020 |
| LegacyFaultExporter.NamePlain | src/gov/usgs/earthquake/nshmp/FaultExporter.java:107-117 | every attribute's lower-case name, and its trace wrapping, are bracket-free and start and end above U+0020 |
| LegacyFaultExporter.ReplaceOpening | src/gov/usgs/earthquake/nshmp/FaultExporter.java:121 | replacing "[" in a list's text leaves a space in its place |
| LegacyFaultExporter.ReplaceClosing | src/gov/usgs/earthquake/nshmp/FaultExporter.java:122 | replacing "]" in a list's text leaves a space in its place |
| LegacyFaultExporter.StripBrackets | src/gov/usgs/earthquake/nshmp/FaultExporter.java:120-123 | for plain entries, bracket replacement and trimming of `List.toString()` give back the entries joined by ", " |
| LegacyFaultExporter.WktToCoordinates | src/gov/usgs/earthquake/nshmp/FaultExporter.java:133-143 | a null text throws NullPointerException, malformed text ParseException; otherwise a newline, then one "x,y,0.00000" line per coordinate in order |
| LegacyFaultExporter.OneLinePerCoordinate | src/gov/usgs/earthquake/nshmp/FaultExporter.java:136-140 | the trace text holds one newline more than there are coordinates |
| LegacyFaultExporter.LinesInOrder | src/gov/usgs/earthquake/nshmp/FaultExporter.java:137-140 | the text starts with a newline, and the lines come in coordinate order, each ending the prefix for its coordinates |
| LegacyFaultExporter.StartsWithNewline | src/gov/usgs/earthquake/nshmp/FaultExporter.java:136 | the trace text is never empty and starts with a newline |
| LegacyFaultExporter.ColumnLabels | src/gov/usgs/earthquake/nshmp/FaultExporter.java:55-65 | each column the loop reads is the lower-case name of its attribute |
| LegacyFaultExporter.ReadColumnsSelected | src/gov/usgs/earthquake/nshmp/FaultExporter.java:40-65 | every column the loop body reads is in the select clause |
| LegacyFaultExporter.ColumnReadsAgree | src/gov/usgs/earthquake/nshmp/postgres/Util.java:61-69 | `getString`, `getDouble` and `getSQLDouble` fail together on a missing column; `getSQLDouble` is null exactly when `getString` is, and otherwise the number `getDouble` reads, which is 0 for a null column |
| LegacyFaultExporter.ReadRowValues | src/gov/usgs/earthquake/nshmp/FaultExporter.java:54-66 | a readable row holds a non-null well-formed trace and a non-null name; its rake comes from geo_rake and its width from calc_width |
| LegacyFaultExporter.AppendRow | src/gov/usgs/earthquake/nshmp/FaultExporter.java:54-66 | one loop pass succeeds exactly when the row reads; then each of the nine lists gains that row's value, and equal-length lists stay equal |
| FaultExporters.SqlSelectFields | src/gov/usgs/earthquake/nshmp/postgres/FaultExporter.java:104-118 | the select list is the nine base columns in order, then the subclass's columns; no column repeats |
| FaultExporters.FieldsDistinct | src/gov/usgs/earthquake/nshmp/postgres/FaultExporter2014.java:45-54 | the select list of each exporter (base, 2008, 2014) names no column twice |
| FaultExporters.APrioriRule | src/gov/usgs/earthquake/nshmp/postgres/FaultExporter.java:137-146 | with a probability of activity present and below 1, exactly one A_PRIORI model holding the probability and the rake column's value; otherwise no model |
| FaultExporters.RakeArgumentIgnored | src/gov/usgs/earthquake/nshmp/postgres/FaultExporter.java:137-146 | the rake argument of `checkProbabilityOfActivity` never changes the result: the rake is read again from its column |
| FaultExporters.BaseIsAPrioriRule | src/gov/usgs/earthquake/nshmp/postgres/FaultExporter.java:126-128 | the base `getRateModels` is exactly the a-priori rule over geo_rake |
| FaultExporters.Rule2008 | src/gov/usgs/earthquake/nshmp/postgres/FaultExporter2008.java:42-70 | the a-priori model takes precedence; otherwise one slip model when the trimmed state is "CA", else one displacement model; each uses the rake column; always exactly one model |
| FaultExporters.NullState2008 | src/gov/usgs/earthquake/nshmp/postgres/FaultExporter2008.java:47-51 | a null state is read only when no a-priori model was made, and then throws NullPointerException |
| FaultExporters.Rule2014 | src/gov/usgs/earthquake/nshmp/postgres/FaultExporter2014.java:30-42 | the a-priori model alone when the probability is below 1; otherwise BIRD, GEO and ZENG displacement models in that order, sharing the geo_rake value, nulls passed through |
| FaultExporters.Columns2014Suffice | src/gov/usgs/earthquake/nshmp/postgres/FaultExporter2014.java:30-54 | a row holding the 2014 select list's columns never lacks a column that the 2014 rate policy reads |
| FaultExporters.WktToLocationList | src/gov/usgs/earthquake/nshmp/postgres/FaultExporter.java:221-231 | each parsed coordinate (x, y) becomes the location (lat y, lon x, depth 0), in order, one for one |
| FaultExporters.RewrittenHasNoSlashOrSemicolon | src/gov/usgs/earthquake/nshmp/postgres/FaultExporter.java:236-243 | after the word and punctuation rewrites no '/' or ';' is left |
| FaultExporters.CleanNameShape | src/gov/usgs/earthquake/nshmp/postgres/FaultExporter.java:234-245 | a cleaned name has no '/' or ';', no whitespace at either end, no two whitespace characters in a row, and no whitespace but spaces |
| FaultExporters.TidiedShape | src/gov/usgs/earthquake/nshmp/postgres/FaultExporter.java:235-244 | collapsing and trimming a text without '/' or ';' gives a cleaned-name shape |
| FaultExporters.TrimmedShape | src/gov/usgs/earthquake/nshmp/postgres/FaultExporter.java:244 | trimming a collapsed text keeps it collapsed and removes whitespace at both ends |
| FaultExporters.MaxMagnitudeFromTable | src/gov/usgs/earthquake/nshmp/postgres/FaultExporter.java:210-212 | with the table parsed from the magnitude file, a fault gets a maximum magnitude exactly when its id is not skipped and some data line names it, and the magnitude is the mMax of the last such line |
| Faults.BuildSucceedsExactly | src/gov/usgs/earthquake/nshmp/postgres/Fault.java:275-311 | a build succeeds exactly on a builder not built before whose depth, dip, id, name, trace and width are set; the slip rates may stay empty; the fault returns the builder's values; any other build throws IllegalStateException |
| Faults.SecondBuildFails | src/gov/usgs/earthquake/nshmp/postgres/Fault.java:275-303 | a builder that has built once never builds again |
| Faults.CheckedFaultPasses | src/gov/usgs/earthquake/nshmp/postgres/Fault.java:103-149 | a fault built by the checked builder passes the depth, dip, name, trace and width checks, and every slip rate passes the rake check |
| Faults.FirstBadRake | src/gov/usgs/earthquake/nshmp/postgres/Fault.java:133-136 | the position of the first slip rate whose rake fails the check: all before it pass, and it fails unless it is the count |
| Faults.FaultBuilder.constructor | src/gov/usgs/earthquake/nshmp/postgres/Fault.java:192-195 | a new builder has nothing set, an empty slip-rate list, and is not built |
| Faults.FaultBuilder.Depth | src/gov/usgs/earthquake/nshmp/postgres/Fault.java:110-112 | the checked builder throws IllegalArgumentException and keeps its state when the depth fails `checkCrustalDepth`; otherwise the depth is stored and nothing else changes |
| Faults.FaultBuilder.Dip | src/gov/usgs/earthquake/nshmp/postgres/Fault.java:115-117 | the checked builder throws and keeps its state when the dip fails `checkDip`; otherwise the dip is stored and nothing else changes |
| Faults.FaultBuilder.Id | src/gov/usgs/earthquake/nshmp/postgres/Fault.java:225-228 | stores the id, unchecked; nothing else changes |
| Faults.FaultBuilder.Name | src/gov/usgs/earthquake/nshmp/postgres/Fault.java:125-127 | the checked builder throws and keeps its state when `validateName` rejects the name; otherwise the name is stored and nothing else changes |
| Faults.FaultBuilder.SetSlipRates | src/gov/usgs/earthquake/nshmp/postgres/Fault.java:130-139 | the checked builder checks every rake in order and throws at the first failure, keeping its state; otherwise the list is stored and nothing else changes |
| Faults.FaultBuilder.Trace | src/gov/usgs/earthquake/nshmp/postgres/Fault.java:142-144 | the checked builder throws and keeps its state when the trace fails `checkTrace`; otherwise the trace is stored and nothing else changes |
| Faults.FaultBuilder.Width | src/gov/usgs/earthquake/nshmp/postgres/Fault.java:147-149 | the checked builder throws and keeps its state when the width fails `checkCrustalWidth`; otherwise the width is stored and nothing else changes |
| Faults.FaultBuilder.Build | src/gov/usgs/earthquake/nshmp/postgres/Fault.java:275-279 | returns the checked build of the state; the builder is marked built exactly when it succeeds |
| Faults.FromFeature | src/gov/usgs/earthquake/nshmp/postgres/Fault.java:156-170 | the unchecked conversion always yields the feature's fault; the checked one throws the error of the first setter that rejects, else yields the same fault |
| Faults.UncheckedFromFeature | src/gov/usgs/earthquake/nshmp/postgres/Fault.java:286-300 | calling every setter once with the feature's values, then building, always yields the feature's fault |
| Faults.CheckedFromFeature | src/gov/usgs/earthquake/nshmp/postgres/Fault.java:156-170 | the same calls on the checked builder fail with the first rejecting setter's error, and otherwise yield the feature's fault |
| FaultSets.BuildSucceedsExactly | src/gov/usgs/earthquake/nshmp/postgres/FaultSet.java:176-217 | a build succeeds exactly on a builder not built before, with id and name set and at least one fault added; the set lists the faults in add order; otherwise IllegalStateException |
| FaultSets.FaultSetBuilder.constructor | src/gov/usgs/earthquake/nshmp/postgres/FaultSet.java:137-140 | a new builder has no name, id or faults and is not built |
| FaultSets.FaultSetBuilder.Add | src/gov/usgs/earthquake/nshmp/postgres/FaultSet.java:148-151 | appends one fault; nothing else changes |
| FaultSets.FaultSetBuilder.Id | src/gov/usgs/earthquake/nshmp/postgres/FaultSet.java:159-162 | stores the id; nothing else changes |
| FaultSets.FaultSetBuilder.Name | src/gov/usgs/earthquake/nshmp/postgres/FaultSet.java:87-89 | the checked builder throws and keeps the old name when `validateName` rejects it; otherwise the name is stored |
| FaultSets.FaultSetBuilder.Build | src/gov/usgs/earthquake/nshmp/postgres/FaultSet.java:176-180 | returns the checked build of the state; the builder is marked built exactly when it succeeds |
| FaultSets.FirstBadFeature | src/gov/usgs/earthquake/nshmp/postgres/FaultSet.java:114-116 | the position of the first feature the checked conversion rejects: all before it convert, and it is rejected unless it is the count |
| FaultSets.FeatureFaults | src/gov/usgs/earthquake/nshmp/postgres/FaultSet.java:205-207 | one fault per feature, in feature order |
| FaultSets.FromFeatureCollection | src/gov/usgs/earthquake/nshmp/postgres/FaultSet.java:109-119 | unchecked: one fault per feature in order, and no feature at all fails the build; checked: an invalid name throws first, then the first rejected feature's error, else the same set |
| FaultSets.UncheckedFromFeatureCollection | src/gov/usgs/earthquake/nshmp/postgres/FaultSet.java:200-210 | every feature's fault in order under the given name and id; an empty collection throws IllegalStateException |
| FaultSets.CheckedFromFeatureCollection | src/gov/usgs/earthquake/nshmp/postgres/FaultSet.java:109-119 | the name is checked first, then each feature in order, and the first failure is thrown; otherwise as unchecked |
| FaultSets.FirstBadFeatureAt | src/gov/usgs/earthquake/nshmp/postgres/FaultSet.java:114-116 | a rejected feature after only accepted ones is the first rejected |
| FaultSets.FirstBadFeatureNone | src/gov/usgs/earthquake/nshmp/postgres/FaultSet.java:114-116 | when every feature converts, none is rejected |
| FaultSets.FeatureFaultsAppend | src/gov/usgs/earthquake/nshmp/postgres/FaultSet.java:205-207 | one more feature adds its fault at the end |
| FaultSources.BuildSucceedsExactly | src/gov/usgs/earthquake/nshmp/postgres/sources/FaultSource.java:55-94 | a build succeeds exactly when id and name were each put once, the model list is set and non-empty and the geometry is set with a non-empty trace; models and geometry are kept unchanged; a null model list or geometry throws NullPointerException |
| FaultSources.IdThenName | src/gov/usgs/earthquake/nshmp/postgres/sources/FaultSource.java:61-70 | putting id then name once each, with a non-empty model list and trace, builds a source holding exactly those two entries |
| FaultSources.FaultSourceBuilder.constructor | src/gov/usgs/earthquake/nshmp/postgres/sources/FaultSource.java:37-52 | a new builder has no entries, no models and no geometry |
| FaultSources.FaultSourceBuilder.Id | src/gov/usgs/earthquake/nshmp/postgres/sources/FaultSource.java:61-64 | appends ID; nothing else changes |
| FaultSources.FaultSourceBuilder.Name | src/gov/usgs/earthquake/nshmp/postgres/sources/FaultSource.java:67-70 | appends NAME; nothing else changes |
| FaultSources.FaultSourceBuilder.DeformationModels | src/gov/usgs/earthquake/nshmp/postgres/sources/FaultSource.java:73-76 | stores the model list; nothing else changes |
| FaultSources.FaultSourceBuilder.Geometry | src/gov/usgs/earthquake/nshmp/postgres/sources/FaultSource.java:79-82 | stores the geometry; nothing else changes |
| FaultSources.FaultSourceBuilder.Build | src/gov/usgs/earthquake/nshmp/postgres/sources/FaultSource.java:55-58 | returns the checked build of the builder's state |
| FaultSourceSets.PartsCheck | src/gov/usgs/earthquake/nshmp/postgres/sources/FaultSourceSet.java:116-119 | the parts pass exactly when default MFDs, magnitude uncertainties, rupture scaling models and sources are all set and non-empty |
| FaultSourceSets.BuildSucceedsExactly | src/gov/usgs/earthquake/nshmp/postgres/sources/FaultSourceSet.java:73-122 | a build succeeds exactly when the name was set once and all four parts are set and non-empty; the attributes are then name, id "-1", weight "1.0"; a repeated name throws IllegalArgumentException, a missing one IllegalStateException |
| FaultSourceSets.OneNameValidates | src/gov/usgs/earthquake/nshmp/postgres/sources/FaultSourceSet.java:110-121 | the name entry followed by id and weight passes the attribute check |
| FaultSourceSets.SecondBuildFails | src/gov/usgs/earthquake/nshmp/postgres/sources/FaultSourceSet.java:73-76 | a second build puts id and weight again and fails on the duplicate key |
| FaultSourceSets.TypeIsFaultSourceSet | src/gov/usgs/earthquake/nshmp/postgres/sources/FaultSourceSet.java:43 | the set's type is FAULT_SOURCE_SET, "FaultSourceSet" as an element name |
| FaultSourceSets.FaultSourceSetBuilder.constructor | src/gov/usgs/earthquake/nshmp/postgres/sources/FaultSourceSet.java:54-70 | a new builder has no entries and no parts |
| FaultSourceSets.FaultSourceSetBuilder.DefaultMfds | src/gov/usgs/earthquake/nshmp/postgres/sources/FaultSourceSet.java:81-84 | stores the MFD list; nothing else changes |
| FaultSourceSets.FaultSourceSetBuilder.MagUncertainties | src/gov/usgs/earthquake/nshmp/postgres/sources/FaultSourceSet.java:87-90 | stores the uncertainty list; nothing else changes |
| FaultSourceSets.FaultSourceSetBuilder.RuptureScalingModels | src/gov/usgs/earthquake/nshmp/postgres/sources/FaultSourceSet.java:93-96 | stores the scaling list; nothing else changes |
| FaultSourceSets.FaultSourceSetBuilder.Name | src/gov/usgs/earthquake/nshmp/postgres/sources/FaultSourceSet.java:99-102 | appends NAME; nothing else changes |
| FaultSourceSets.FaultSourceSetBuilder.Sources | src/gov/usgs/earthquake/nshmp/postgres/sources/FaultSourceSet.java:105-108 | stores the source list; nothing else changes |
| FaultSourceSets.FaultSourceSetBuilder.Build | src/gov/usgs/earthquake/nshmp/postgres/sources/FaultSourceSet.java:73-78 | puts id and weight, which stay put even when validation throws, and returns the checked build |
| ListBuilders.AddsThenBuild | src/gov/usgs/earthquake/nshmp/postgres/source_settings/DefaultMfdList.java:34-50 | after adds, the built list ends with exactly the elements added, in add order |
| ListBuilders.ListBuilder.constructor | src/gov/usgs/earthquake/nshmp/postgres/source_settings/DefaultMfdList.java:20-31 | a new list builder is empty |
| ListBuilders.ListBuilder.Add | src/gov/usgs/earthquake/nshmp/postgres/source_settings/DefaultMfdList.java:40-43 | appends one element |
| ListBuilders.ListBuilder.Build | src/gov/usgs/earthquake/nshmp/postgres/source_settings/DefaultMfdList.java:34-37 | the checked build; the builder is left as it was, so repeated builds agree |
| DeformationModels.NewDeformationModel | src/gov/usgs/earthquake/nshmp/postgres/source_settings/DeformationModel.java:26-39 | construction succeeds exactly for BIRD, GEO and ZENG and otherwise throws IllegalStateException; the id is kept as the constant's upper-case name and the rate as its text |
| DeformationModels.FactoryIds | src/gov/usgs/earthquake/nshmp/postgres/source_settings/DeformationModel.java:45-63 | bird, geo and zeng never throw and carry the ids "BIRD", "GEO" and "ZENG" with the rate's text |
| DeformationModels.IdsIdentifyModels | src/gov/usgs/earthquake/nshmp/postgres/source_settings/DeformationModel.java:26-30 | two different accepted constants always give different id texts |
| RateModels.CallsMake | src/gov/usgs/earthquake/nshmp/postgres/RateModel.java:73-124 | aPriori makes A_PRIORI with probability of activity; bird, geo and zeng make displacement models of their own id; slip makes a GEO slip model |
| RateModels.RateModelBuilder.constructor | src/gov/usgs/earthquake/nshmp/postgres/RateModel.java:62-64 | a new builder holds no models |
| RateModels.RateModelBuilder.Add | src/gov/usgs/earthquake/nshmp/postgres/RateModel.java:73-124 | a call appends exactly the model it makes, or leaves the list unchanged and reports the rake failure |
| RateModels.RateModelBuilder.Build | src/gov/usgs/earthquake/nshmp/postgres/RateModel.java:127-129 | the list is the models in call order |
| SlipRates.SlipRateBuilder.constructor | src/gov/usgs/earthquake/nshmp/postgres/SlipRate.java:58 | a new builder has all three slots empty |
| SlipRates.SlipRateBuilder.Bird | src/gov/usgs/earthquake/nshmp/postgres/SlipRate.java:67-70 | replaces only the bird slot with a checked BIRD rate, or reports the rake failure and changes nothing |
| SlipRates.SlipRateBuilder.Geo | src/gov/usgs/earthquake/nshmp/postgres/SlipRate.java:79-82 | replaces only the geo slot with a checked GEO rate, or reports the rake failure and changes nothing |
| SlipRates.SlipRateBuilder.Zeng | src/gov/usgs/earthquake/nshmp/postgres/SlipRate.java:91-94 | replaces only the zeng slot with a checked ZENG rate, or reports the rake failure and changes nothing |
| SlipRates.SlipRateBuilder.Build | src/gov/usgs/earthquake/nshmp/postgres/SlipRate.java:97-106 | whatever order the setters ran in, a successful build lists the BIRD, GEO and ZENG rates in that order, each with a rake that passed the check |
| SourceGeometries.BuildSucceedsExactly | src/gov/usgs/earthquake/nshmp/postgres/source_settings/SourceGeometry.java:58-104 | a build succeeds exactly when no setter was repeated, depth, dip, rake and width were set and a non-empty trace was given; a repeat throws IllegalArgumentException and a missing trace NullPointerException |
| SourceGeometries.NoRangeChecks | src/gov/usgs/earthquake/nshmp/postgres/source_settings/SourceGeometry.java:64-104 | any four values with a non-empty trace build, keeping the entries in call order |
| SourceGeometries.FaultGeometryBuilder.constructor | src/gov/usgs/earthquake/nshmp/postgres/source_settings/SourceGeometry.java:50-55 | a new builder has no entries and no trace |
| SourceGeometries.FaultGeometryBuilder.Depth | src/gov/usgs/earthquake/nshmp/postgres/source_settings/SourceGeometry.java:64-67 | appends DEPTH with the value's text; the trace is unchanged |
| SourceGeometries.FaultGeometryBuilder.Dip | src/gov/usgs/earthquake/nshmp/postgres/source_settings/SourceGeometry.java:70-73 | appends DIP with the value's text; the trace is unchanged |
| SourceGeometries.FaultGeometryBuilder.Rake | src/gov/usgs/earthquake/nshmp/postgres/source_settings/SourceGeometry.java:76-79 | appends RAKE with the value's text; the trace is unchanged |
| SourceGeometries.FaultGeometryBuilder.Trace | src/gov/usgs/earthquake/nshmp/postgres/source_settings/SourceGeometry.java:82-85 | replaces the trace; the entries are unchanged |
| SourceGeometries.FaultGeometryBuilder.Width | src/gov/usgs/earthquake/nshmp/postgres/source_settings/SourceGeometry.java:88-91 | appends WIDTH with the value's text; the trace is unchanged |
| SourceGeometries.FaultGeometryBuilder.Build | src/gov/usgs/earthquake/nshmp/postgres/source_settings/SourceGeometry.java:58-61 | the geometry built from the entries and trace so far, with the outcomes stated by BuildSucceedsExactly |
| ModelParameterSets.BuildSucceedsExactly | src/gov/usgs/earthquake/nshmp/ModelParameters.java:79-82 | a build succeeds exactly when every list, setting and text is given and non-empty, and then holds every list in call order and the given settings; otherwise it throws IllegalStateException, or NullPointerException for a setting never given |
| ModelParameterSets.LengthsUnchecked | src/gov/usgs/earthquake/nshmp/ModelParameters.java:162-178 | the per-fault lists are never compared: a complete builder whose lists differ in length still builds |
| ModelParameterSets.Builder.constructor | src/gov/usgs/earthquake/nshmp/ModelParameters.java:58-76 | a new builder has every list empty and every setting unset |
| ModelParameterSets.Builder.AddBirdRate | src/gov/usgs/earthquake/nshmp/ModelParameters.java:85-88 | appends the value to the bird rates; nothing else changes |
| ModelParameterSets.Builder.AddDepth | src/gov/usgs/earthquake/nshmp/ModelParameters.java:91-94 | appends the value to the depths; nothing else changes |
| ModelParameterSets.Builder.AddDip | src/gov/usgs/earthquake/nshmp/ModelParameters.java:97-100 | appends the value to the dips; nothing else changes |
| ModelParameterSets.Builder.AddFaultTrace | src/gov/usgs/earthquake/nshmp/ModelParameters.java:103-106 | appends the value to the fault traces; nothing else changes |
| ModelParameterSets.Builder.AddGeoRate | src/gov/usgs/earthquake/nshmp/ModelParameters.java:109-112 | appends the value to the geo rates; nothing else changes |
| ModelParameterSets.Builder.AddName | src/gov/usgs/earthquake/nshmp/ModelParameters.java:115-118 | appends the value to the names; nothing else changes |
| ModelParameterSets.Builder.AddRake | src/gov/usgs/earthquake/nshmp/ModelParameters.java:121-124 | appends the value to the rakes; nothing else changes |
| ModelParameterSets.Builder.AddWidth | src/gov/usgs/earthquake/nshmp/ModelParameters.java:127-130 | appends the value to the widths; nothing else changes |
| ModelParameterSets.Builder.AddZengRate | src/gov/usgs/earthquake/nshmp/ModelParameters.java:133-136 | appends the value to the zeng rates; nothing else changes |
| ModelParameterSets.Builder.DefaultMfds | src/gov/usgs/earthquake/nshmp/ModelParameters.java:139-142 | sets the default MFD list, replacing any earlier one; nothing else changes |
| ModelParameterSets.Builder.MagUncertainties | src/gov/usgs/earthquake/nshmp/ModelParameters.java:145-148 | sets the magnitude uncertainty list, replacing any earlier one; nothing else changes |
| ModelParameterSets.Builder.RuptureScaling | src/gov/usgs/earthquake/nshmp/ModelParameters.java:150-153 | sets the rupture scaling, replacing any earlier one; nothing else changes |
| ModelParameterSets.Builder.StateAbbrev | src/gov/usgs/earthquake/nshmp/ModelParameters.java:156-159 | sets the state abbreviation, replacing any earlier one; nothing else changes |
| ModelParameterSets.Builder.Build | src/gov/usgs/earthquake/nshmp/ModelParameters.java:79-82 | the result of validating the current state; a successful build has a non-empty name list equal to the names added |
| SourceSettings.Builder.constructor | src/gov/usgs/earthquake/nshmp/postgres/Settings.java:34 | a new builder has all four parts unset |
| SourceSettings.Builder.DefaultMfds | src/gov/usgs/earthquake/nshmp/postgres/Settings.java:40-43 | sets the MFD list, replacing any earlier one; nothing else changes |
| SourceSettings.Builder.MagUncertainties | src/gov/usgs/earthquake/nshmp/postgres/Settings.java:45-48 | sets the uncertainty list; nothing else changes |
| SourceSettings.Builder.SourceProperties | src/gov/usgs/earthquake/nshmp/postgres/Settings.java:50-53 | sets the source properties; nothing else changes |
| SourceSettings.Builder.RuptureScalingModels | src/gov/usgs/earthquake/nshmp/postgres/Settings.java:55-58 | sets the rupture scaling list; nothing else changes |
| SourceSettings.Builder.Build | src/gov/usgs/earthquake/nshmp/postgres/Settings.java:36-38 | never fails and returns exactly the parts set so far, unset parts staying null |
| SourceSettings.WesternKeys | src/gov/usgs/earthquake/nshmp/postgres/Settings.java:63-96 | the single, Gutenberg-Richter, aleatory and epistemic builders each receive each of their setters exactly once |
| SourceSettings.WesternSingle | src/gov/usgs/earthquake/nshmp/postgres/Settings.java:63-68 | the single MFD builds: floats false, m 6.5, rate 0.0, weight 1.0 |
| SourceSettings.SingleBuiltOnce | src/gov/usgs/earthquake/nshmp/postgres/Settings.java:63-68 | building those single-MFD entries succeeds with that MFD |
| SourceSettings.WesternGutenbergRichter | src/gov/usgs/earthquake/nshmp/postgres/Settings.java:70-77 | the Gutenberg-Richter MFD builds: a 0.0, b 0.8, dMag 0.1, mMax 7.5, mMin 6.55, weight 1.0 |
| SourceSettings.GutenbergRichterBuiltOnce | src/gov/usgs/earthquake/nshmp/postgres/Settings.java:70-77 | building those Gutenberg-Richter entries succeeds with that MFD |
| SourceSettings.WesternAleatory | src/gov/usgs/earthquake/nshmp/postgres/Settings.java:85-90 | the aleatory uncertainty builds: count 11, cutoff 6.5, moBalance true, sigma 0.12 |
| SourceSettings.AleatoryBuiltOnce | src/gov/usgs/earthquake/nshmp/postgres/Settings.java:85-90 | building those aleatory entries succeeds with that uncertainty |
| SourceSettings.WesternEpistemic | src/gov/usgs/earthquake/nshmp/postgres/Settings.java:92-96 | the epistemic uncertainty builds: cutoff 6.5, deltas [-0.2, 0.0, 0.2], weights [0.2, 0.6, 0.2] |
| SourceSettings.EpistemicBuiltOnce | src/gov/usgs/earthquake/nshmp/postgres/Settings.java:92-96 | building those epistemic entries succeeds with that uncertainty |
| SourceSettings.WesternMfdList | src/gov/usgs/earthquake/nshmp/postgres/Settings.java:79-82 | the MFD list is the single MFD, then the Gutenberg-Richter one |
| SourceSettings.WesternUncertaintyList | src/gov/usgs/earthquake/nshmp/postgres/Settings.java:98-101 | the uncertainty list is aleatory, then epistemic |
| SourceSettings.WesternScalingList | src/gov/usgs/earthquake/nshmp/postgres/Settings.java:104-106 | the rupture scaling list is NSHM_FAULT_WC94_LENGTH alone |
| SourceSettings.WesternSourceProperties | src/gov/usgs/earthquake/nshmp/postgres/Settings.java:109-112 | the source properties are the empty fault attribute set |
| SourceSettings.WesternUS | src/gov/usgs/earthquake/nshmp/postgres/Settings.java:61-124 | westernUS() never throws and returns those four parts |
| LegacySettings.Settings.constructor | src/gov/usgs/earthquake/nshmp/Settings.java:12-19 | the constructor stores its three arguments unchanged |
| LegacySettings.WesternUS | src/gov/usgs/earthquake/nshmp/Settings.java:21-66 | westernUS() never throws and holds the same two MFDs and two uncertainties, with NSHM_FAULT_WC94_LENGTH as its scaling |
| SourceProperties.GriddedBuildExactly | src/gov/usgs/earthquake/nshmp/postgres/source_settings/SourcePropertyAttributes.java:33-67 | an Area, Grid or Slab build succeeds exactly when no setter was repeated and all four were called, keeping call order; a repeat throws IllegalArgumentException, a missing key IllegalStateException |
| SourceProperties.UngriddedBuildsEmpty | src/gov/usgs/earthquake/nshmp/postgres/source_settings/SourcePropertyAttributes.java:72-191 | a Cluster, Interface or Fault builder always builds the empty map |
| SourceProperties.GriddedKeysFacts | src/gov/usgs/earthquake/nshmp/postgres/source_settings/SourcePropertyAttributes.java:38-67 | the four setters' keys are distinct and cover every key validate() requires |
| SourceProperties.EachSetterOnce | src/gov/usgs/earthquake/nshmp/postgres/source_settings/SourcePropertyAttributes.java:38-67 | calling each of the four setters once, in declaration order, builds a map of exactly those entries |
| SourceProperties.SourcePropertiesBuilder.constructor | src/gov/usgs/earthquake/nshmp/postgres/source_settings/SourcePropertyAttributes.java:27-31 | a new builder of any kind has no entries |
| SourceProperties.SourcePropertiesBuilder.MagDepthMap | src/gov/usgs/earthquake/nshmp/postgres/source_settings/SourcePropertyAttributes.java:38-41 | appends MAG_DEPTH_MAP with the text given |
| SourceProperties.SourcePropertiesBuilder.MaxDepth | src/gov/usgs/earthquake/nshmp/postgres/source_settings/SourcePropertyAttributes.java:43-46 | appends MAX_DEPTH with the value's text |
| SourceProperties.SourcePropertiesBuilder.FocalMechMap | src/gov/usgs/earthquake/nshmp/postgres/source_settings/SourcePropertyAttributes.java:48-51 | appends FOCAL_MECH_MAP with the text given |
| SourceProperties.SourcePropertiesBuilder.Strike | src/gov/usgs/earthquake/nshmp/postgres/source_settings/SourcePropertyAttributes.java:53-56 | appends STRIKE with the value's text |
| SourceProperties.SourcePropertiesBuilder.Build | src/gov/usgs/earthquake/nshmp/postgres/source_settings/SourcePropertyAttributes.java:33-36 | the build of the entries so far; the kinds without setters always succeed with the empty map |
| LegacyPostgres.BuildSucceedsExactly | src/gov/usgs/earthquake/nshmp/Postgres.java:104-107 | a build succeeds exactly when database, host, password, table and username are all set and non-empty, keeping each as given; otherwise it throws IllegalStateException |
| LegacyPostgres.Builder.constructor | src/gov/usgs/earthquake/nshmp/Postgres.java:101 | a new builder has all five fields unset |
| LegacyPostgres.Builder.Database | src/gov/usgs/earthquake/nshmp/Postgres.java:110-113 | sets the database; nothing else changes |
| LegacyPostgres.Builder.Host | src/gov/usgs/earthquake/nshmp/Postgres.java:116-119 | sets the host; nothing else changes |
| LegacyPostgres.Builder.Password | src/gov/usgs/earthquake/nshmp/Postgres.java:122-125 | sets the password; nothing else changes |
| LegacyPostgres.Builder.Table | src/gov/usgs/earthquake/nshmp/Postgres.java:128-131 | sets the table; nothing else changes |
| LegacyPostgres.Builder.Username | src/gov/usgs/earthquake/nshmp/Postgres.java:134-137 | sets the username; nothing else changes |
| LegacyPostgres.Builder.Build | src/gov/usgs/earthquake/nshmp/Postgres.java:104-107 | the result of validating the fields so far; a built handle has the non-empty table that was set |
| PostgreSql.BuildSucceedsExactly | src/gov/usgs/earthquake/nshmp/postgres/PostgreSQL.java:147-160 | a build succeeds exactly on an unbuilt builder with database, password, table, url and username all set, keeping each as given; otherwise it throws IllegalStateException |
| PostgreSql.SecondBuildFails | src/gov/usgs/earthquake/nshmp/postgres/PostgreSQL.java:149-154 | once built, the same builder never builds again |
| PostgreSql.Builder.constructor | src/gov/usgs/earthquake/nshmp/postgres/PostgreSQL.java:112-114 | a new builder has every field unset and is not built |
| PostgreSql.Builder.Database | src/gov/usgs/earthquake/nshmp/postgres/PostgreSQL.java:117-120 | sets the database; nothing else changes |
| PostgreSql.Builder.Password | src/gov/usgs/earthquake/nshmp/postgres/PostgreSQL.java:123-126 | sets the password; nothing else changes |
| PostgreSql.Builder.Table | src/gov/usgs/earthquake/nshmp/postgres/PostgreSQL.java:129-132 | sets the table; nothing else changes |
| PostgreSql.Builder.Url | src/gov/usgs/earthquake/nshmp/postgres/PostgreSQL.java:135-138 | sets the url; nothing else changes |
| PostgreSql.Builder.Username | src/gov/usgs/earthquake/nshmp/postgres/PostgreSQL.java:141-144 | sets the username; nothing else changes |
| PostgreSql.Builder.Build | src/gov/usgs/earthquake/nshmp/postgres/PostgreSQL.java:147-151 | the outcome of validating the state before the call; a successful build marks the builder built and changes nothing else |
| PostgreSql.LinesIsJoined | src/gov/usgs/earthquake/nshmp/postgres/PostgreSQL.java:182-240 | after one or more clauses the buffer is their lines joined by newlines, with one trailing newline |
| PostgreSql.ToSqlOfClauses | src/gov/usgs/earthquake/nshmp/postgres/PostgreSQL.java:243-245 | after one or more clauses, toSql() yields the lines joined by newlines and ended by ";" |
| PostgreSql.SecondToSqlDropsMore | src/gov/usgs/earthquake/nshmp/postgres/PostgreSQL.java:243-245 | toSql() deletes in place, so a second call drops the last character of the last clause too |
| PostgreSql.QueryBuilder.constructor | src/gov/usgs/earthquake/nshmp/postgres/PostgreSQL.java:172-174 | a new query buffer is empty |
| PostgreSql.QueryBuilder.Append | src/gov/usgs/earthquake/nshmp/postgres/PostgreSQL.java:182-240 | each clause method appends exactly its keyword line and a newline |
| PostgreSql.QueryBuilder.ToSqlInPlace | src/gov/usgs/earthquake/nshmp/postgres/PostgreSQL.java:243-245 | the result is the buffer without its last character plus ";", and that character is gone from the buffer; an empty buffer throws and stays empty |
| FaultXmlExporter.WriteProperties | src/gov/usgs/earthquake/nshmp/postgres/sources/FaultXMLExporter.java:127-137 | the properties element holds one RuptureScalingModels element whose Model children follow the scaling list, as PropertiesShaped states |
| FaultXmlExporter.WriteDeformations | src/gov/usgs/earthquake/nshmp/postgres/sources/FaultXMLExporter.java:151-156 | one DeformationModel child per deformation model, in list order |
| FaultXmlExporter.WriteSource | src/gov/usgs/earthquake/nshmp/postgres/sources/FaultXMLExporter.java:143-170 | one pass of the source loop builds exactly the element SourceShape describes |
| FaultXmlExporter.WriteSources | src/gov/usgs/earthquake/nshmp/postgres/sources/FaultXMLExporter.java:143-171 | one Source child per source, in list order |
| FaultXmlExporter.WriteXml | src/gov/usgs/earthquake/nshmp/postgres/sources/FaultXMLExporter.java:75-177 | the document writeXML builds, up to serialisation; its shape is stated by RootShape |
| FaultXmlExporter.RootShape | src/gov/usgs/earthquake/nshmp/postgres/sources/FaultXMLExporter.java:80-177 | the root is named by the set's type, carries each entry once under its lower camel name, and holds the disclaimer, the settings, then one Source per source in order; the document fails exactly when a magnitude uncertainty has no TYPE entry; the path is output/<dir>/<file>.xml |
| FaultXmlExporter.SettingsFails | src/gov/usgs/earthquake/nshmp/postgres/sources/FaultXMLExporter.java:114-123 | the settings fail exactly when some magnitude uncertainty has no TYPE entry, because that value names its element |
| FaultXmlExporter.SettingsShape | src/gov/usgs/earthquake/nshmp/postgres/sources/FaultXMLExporter.java:99-140 | the settings hold DefaultMfds with one IncrementalMfd per MFD, MagUncertainty with one element per uncertainty tagged by its TYPE value, and SourceProperties with one Model per scaling model carrying only its id |
| FaultXmlExporter.UncertaintiesShape | src/gov/usgs/earthquake/nshmp/postgres/sources/FaultXMLExporter.java:114-124 | each uncertainty's element is tagged by its TYPE value, in list order |
| FaultXmlExporter.SourceShape | src/gov/usgs/earthquake/nshmp/postgres/sources/FaultXMLExporter.java:143-170 | a Source holds its deformation models in order, each with an id and a rate, then exactly one Geometry holding one Trace whose only child is the trace's text |
| FaultXmlExporter.DeformationLookup | src/gov/usgs/earthquake/nshmp/postgres/sources/FaultXMLExporter.java:151-156 | a deformation model's element reads back its id and its rate |
| LegacyXmlExporter.WriteDeformations | src/gov/usgs/earthquake/nshmp/XMLExporter.java:143-148 | the loop over the rate map's keys writes one DeformationModel per key in the map's iteration order |
| LegacyXmlExporter.WriteGeometry | src/gov/usgs/earthquake/nshmp/XMLExporter.java:151-161 | with every list long enough, the geometry element at that index; when depth, dip, rake, width or trace is too short, IndexOutOfBoundsException |
| LegacyXmlExporter.WriteSource | src/gov/usgs/earthquake/nshmp/XMLExporter.java:131-161 | one pass of the source loop: the source element at that index, or IndexOutOfBoundsException when a parallel list is shorter |
| LegacyXmlExporter.WriteSources | src/gov/usgs/earthquake/nshmp/XMLExporter.java:131-162 | one Source per name in list order when no parallel list is shorter than the names; otherwise IndexOutOfBoundsException |
| LegacyXmlExporter.WriteSettings | src/gov/usgs/earthquake/nshmp/XMLExporter.java:96-128 | the settings element: default MFDs, magnitude uncertainties and source properties |
| LegacyXmlExporter.WriteXml | src/gov/usgs/earthquake/nshmp/XMLExporter.java:71-168 | the document writeXML builds, up to serialisation; its outcomes are stated by Failures and RootShape |
| LegacyXmlExporter.CoverIndexable | src/gov/usgs/earthquake/nshmp/XMLExporter.java:131-162 | no parallel list is shorter than the names exactly when every name's index can be read in every list |
| LegacyXmlExporter.RateOrderCovers | src/gov/usgs/earthquake/nshmp/XMLExporter.java:138-143 | any iteration order of the rate map lists BIRD, GEO and ZENG, and only deformation models |
| LegacyXmlExporter.Failures | src/gov/usgs/earthquake/nshmp/XMLExporter.java:71-162 | the document exists exactly when the state abbreviation is known, every magnitude uncertainty has a TYPE and no list is short; an unknown state throws IllegalArgumentException first, a missing TYPE the DOMException for a null element name next, a short list IndexOutOfBoundsException last |
| LegacyXmlExporter.UncertaintyFailureIsInvalidName | src/gov/usgs/earthquake/nshmp/XMLExporter.java:111-118 | the uncertainty loop can only fail with the DOMException (INVALID_CHARACTER_ERR) that `createElement` throws for the null name of an uncertainty without TYPE |
| LegacyXmlExporter.RootShape | src/gov/usgs/earthquake/nshmp/XMLExporter.java:73-93 | the root is a FaultSourceSet named "<state> Faults" with id "-1" and weight "1.0", holding the disclaimer, the settings and one Source per name in order; the file is output/<dir>/<state>.xml |
| LegacyXmlExporter.PropertiesShape | src/gov/usgs/earthquake/nshmp/XMLExporter.java:122-125 | SourceProperties carries the rupture scaling as its only attribute and has no children |
| LegacyXmlExporter.SourceShape | src/gov/usgs/earthquake/nshmp/XMLExporter.java:131-148 | the source at an index is named by that name with id "?" and holds three DeformationModel elements, each with its model's rate at that index, in map order |
| LegacyXmlExporter.SourceGeometry | src/gov/usgs/earthquake/nshmp/XMLExporter.java:150-161 | the last child of that source is a Geometry whose depth, dip, rake and width are the values at that index, holding one Trace whose only child is the trace text, verbatim |
| LegacyXmlExporter.RateIdIsUpperCase | src/gov/usgs/earthquake/nshmp/XMLExporter.java:145 | each deformation model is written under its constant's upper-case name |
| LegacyXmlExporter.RateMapReads | src/gov/usgs/earthquake/nshmp/XMLExporter.java:138-146 | reading the map under a model gives that model's rate at the index |
| Xml.OutputPathSpelled | src/gov/usgs/earthquake/nshmp/XMLExporter.java:73-74 | the document goes to "output/<dir>/<file>.xml" |
| Xml.NamesSpelled | src/gov/usgs/earthquake/nshmp/XMLExporter.java:85-159 | every element and attribute name the exporters derive from a constant, spelled out: FaultSourceSet, Settings, DefaultMfds, IncrementalMfd, MagUncertainty, SourceProperties, RuptureScalingModels, Source, DeformationModel, Geometry, Trace, Faults, and id, rate, name, weight, depth, dip, rake, width, ruptureScaling |
| Xml.SetAttribute | src/gov/usgs/earthquake/nshmp/postgres/sources/FaultXMLExporter.java:91-93 | setting a name the element lacks appends it; setting one it has keeps the number of attributes |
| Xml.SetAttributeLookup | src/gov/usgs/earthquake/nshmp/postgres/sources/FaultXMLExporter.java:91-93 | after setting a name it reads the new value and every other name reads as before |
| Xml.CopyAttributes | src/gov/usgs/earthquake/nshmp/postgres/sources/FaultXMLExporter.java:91-93 | the loop that copies a map's entries onto an element, skipping TYPE where the exporter does, computes Copied |
| Xml.CopiedIsRenamed | src/gov/usgs/earthquake/nshmp/postgres/sources/FaultXMLExporter.java:91-93 | when the map's keys are distinct the copied attributes are exactly the entries renamed to lower camel case, in map order, without the skipped key |
| Xml.SkippedAbsent | src/gov/usgs/earthquake/nshmp/postgres/sources/FaultXMLExporter.java:118-121 | the skipped TYPE key is never set as an attribute |
| Xml.CopiedLookup | src/gov/usgs/earthquake/nshmp/postgres/sources/FaultXMLExporter.java:107-109 | every entry but the skipped one reads back under its lower camel name |
| Xml.RenamedLookup | src/gov/usgs/earthquake/nshmp/postgres/sources/FaultXMLExporter.java:107-109 | the reference renaming reads every entry but the skipped one back under its lower camel name |
| Xml.WriteMfds | src/gov/usgs/earthquake/nshmp/postgres/sources/FaultXMLExporter.java:103-111 | the DefaultMfds loop builds one IncrementalMfd per MFD, in list order |
| Xml.WriteUncertainties | src/gov/usgs/earthquake/nshmp/postgres/sources/FaultXMLExporter.java:115-123 | the MagUncertainty loop builds one element per uncertainty, or fails at the first one without a TYPE entry |
| Xml.FirstFailureStays | src/gov/usgs/earthquake/nshmp/postgres/sources/FaultXMLExporter.java:116-117 | once an uncertainty fails, the loop's outcome is that failure |
| Xml.UncertaintyElementShape | src/gov/usgs/earthquake/nshmp/postgres/sources/FaultXMLExporter.java:116-122 | an uncertainty's element exists exactly when it has a TYPE entry, is tagged by that value and carries every other entry under its lower camel name, never TYPE |
| Xml.UncertaintyChildrenFail | src/gov/usgs/earthquake/nshmp/postgres/sources/FaultXMLExporter.java:115-123 | the loop succeeds exactly when every uncertainty has a TYPE entry, with one element per uncertainty in order |
| Xml.MfdElementShape | src/gov/usgs/earthquake/nshmp/postgres/sources/FaultXMLExporter.java:105-110 | an MFD's element is an IncrementalMfd, whatever its type, carrying every entry, TYPE included, under its lower camel name |
| AttributeMaps.Get | src/gov/usgs/earthquake/nshmp/postgres/source_settings/DefaultMfd.java:103-115 | the value read is one put under that key |
| AttributeMaps.DistinctAppend | src/gov/usgs/earthquake/nshmp/postgres/source_settings/DefaultMfd.java:103-107 | one more put keeps the keys distinct exactly when its key is new |
| AttributeMaps.ValidatedAppend | src/gov/usgs/earthquake/nshmp/postgres/source_settings/DefaultMfd.java:103-115 | validating after one last put succeeds exactly when no key repeats and the other required keys were put; a repeated key throws IllegalArgumentException before any missing key throws IllegalStateException |
| AttributeMaps.CoveringKeysValid | src/gov/usgs/earthquake/nshmp/postgres/source_settings/DefaultMfd.java:103-115 | puts of distinct keys that cover the required ones validate, keeping call order |
| AttributeMaps.CoveringKeysValidate | src/gov/usgs/earthquake/nshmp/postgres/source_settings/DefaultMfd.java:103-115 | the same after one more put under a new key |
| AttributeMaps.MissingKeyValidate | src/gov/usgs/earthquake/nshmp/postgres/source_settings/DefaultMfd.java:103-115 | distinct puts that miss a required key throw IllegalStateException |
| Externals.BoolText | src/gov/usgs/earthquake/nshmp/postgres/source_settings/DefaultMfd.java:159-162 | the text is "true" exactly when the value is true |

## Left out

- Database access: JDBC connections, statements and result sets are not modelled. A result row is a value (`ExportUtil.Row`, a map from column name to a possibly null column). `connect`, `query` and `close` of `PostgreSQL` and `Postgres` are left out.
- Configuration and property files (`Postgres.Builder.withConfigFile`, `Util.getPostgres`) are not modelled, because they only read files.
- The file read of `Util.getMaxMagnitudes` is left out; its header and line parsing is modelled over a given list of lines. The static initialisation of `MAX_MAGNITUDES` is left out too.
- Number formatting (`Double.toString`, `Integer.toString`, `Arrays.toString`, `%.5f`, `LocationList.toString`, `RuptureScaling.toString`) is a parameter. So are the range checks (`checkRake`, `checkDip`, `checkCrustalDepth`, `checkCrustalWidth`, `checkTrace`, `validateName`), because they belong to another library.
- Parsing WKT text and reading or writing GeoJSON features are parameters or left out. Only the coordinate handling done on the parsed points is modelled.
- `UsRegion.valueOf` is the `region` parameter of `LegacyXmlExporter.Export`; an unknown abbreviation is its `None`.
- `HashMap` iteration order is a parameter of the legacy XML exporter: `order` is any arrangement of BIRD, GEO and ZENG. The properties hold for every order.
- XML serialisation is left out: the transformer, indentation, the standalone flag, and creating the output directory. DOM nodes are tree values, not shared mutable objects, so aliasing between nodes is not modelled. Validating tag names is not modelled either, for example a TYPE value that is not a legal XML name.
- Console printing and the `main` loops over states are left out, because they are I/O.
- The legacy `DefaultMfd.java` of the top package is not part of this model. The legacy settings and model parameters reuse the postgres `DefaultMfds` model, which has the same builder interface.
- Null arguments are modelled only where the source checks them, such as the checked `Fault` and `FaultSet` builders. Elsewhere a Java `null` argument is not a value of the parameter's type.
- Builders return `this` for chaining; the model's setter methods return nothing or an `Outcome`, and the chain becomes successive calls on one object.
- LegacyFaultExporter.AppendRow: when a row fails, the contract states the exception but not the builder's state. In Java, the lists already appended to before the exception stay appended, and the caller abandons the builder.
- Fault accessors (`depth()`, `dip()` and the others) are record fields of the built value, so they have no members of their own.

## Findings

| source | as written | input that shows it | evidently intended | confidence | as-written member | corrected member |
|---|---|---|---|---|---|---|
| src/gov/usgs/earthquake/nshmp/postgres/source_settings/DefaultMfd.java:177-190 | the incremental MFD's `validate()` requires WEIGHTS, but its only weight setter `weight()` puts WEIGHT, so no call sequence builds | floats, mags, rates and weight each called once, then `build()` | `validate()` requires WEIGHT, the key `weight()` writes | high (not executed) | DefaultMfds.IncrementalNeverBuilds | DefaultMfds.IntendedIncrementalSettersOnce |
| src/gov/usgs/earthquake/nshmp/postgres/source_settings/DefaultMfd.java:324-327 | the tapered Gutenberg-Richter `b()` puts key A, so calling both `a()` and `b()` repeats A, and B is never present | a, b, cMag, dMag, mCut, mMax, mMin and weight each called once, then `build()` | `b()` puts B | high (not executed) | DefaultMfds.TaperedNeverBuilds | DefaultMfds.IntendedTaperedSettersOnce |

The corrected definitions are `DefaultMfds.MfdType.IntendedRequired`, `DefaultMfds.MfdType.IntendedSetterKeys` and `DefaultMfds.IntendedBuild`. `DefaultMfds.IntendedEachSetterOnce` proves that every MFD builder succeeds under them once each of its setters has been called once. The builder classes keep the behaviour as written. No other part of the model builds incremental or tapered MFDs.
