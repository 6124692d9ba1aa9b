# mets2handle in Dafny

A model of mets2handle, the tool that registers handle PIDs for the
entities described in a METS file (an audiovisual Work, its Version and
the Version's DataObject), and writes the returned handles back into the
file. The model covers three parts.

- **The PID reconciliation run.** `m2h` in mets2handle/metstohandle.py is
  modelled as the class `EngineRun.Run`. It holds the run's variables and
  updates them in place, section by section. Each of its methods is proved
  to leave the run where a pure step function of module `Engine` says. The
  lemmas of `EngineProperties` are stated about those step functions.
  The earlier module-level script metstohandle.py is modelled the same way:
  `LegacyRun.ScriptRun` is the class, `LegacyEngine` holds the step
  functions and `LegacyProperties` holds the lemmas.
- **The payload builders.** These are the five `db_*` modules that turn a
  dmdSec into the JSON record sent to the registry: `WorkRecord`,
  `LegacyWorkRecord`, `VersionRecord`, `LegacyVersionRecord` and
  `DataObjectRecord`. Each builder is a specification function plus a
  method that appends the getters' values one by one and is proved equal
  to it. `Records` and `Dates` hold the getters the builders share.
- **The relationship element builders** of helpers.py (`Relations`) and
  the split of a handle into prefix and local name.

The XML document is abstracted to what the run reads and writes:
- the structMap as a list of (TYPE, DMDID) divs;
- per dmdSec, its identifiers (`formatLabel` and text) and its
  isVersionOf, isPartOf and hasPart elements.

The handle registry is an oracle. It gives one reply per PUT, in order,
and one stored record per GET. `uuid4` is a supply of fresh strings. Every
request sent and every document written is logged in the run state.

Several defects of the source are modelled as the exceptions they raise,
and the model does not repair them:
- In `m2h`, a Version section that already carries a handle extends
  `dataObjectPids` before the list is ever bound. So a second run over a
  registered document always fails (`EngineProperties.RegisteredVersionBlocksRun`).
- With a `version_pid` given and no handle in the Version section, the
  hint is adopted without binding `dataObjectPids`. The hasPart update then
  reads the unbound list, so such a run never completes
  (`EngineProperties.VersionHintFailsAtHasParts`).
- The removal of old hasPart references iterates an undefined name.
- The hasPart selector looks for `formatLabel` on the root element. The
  builder puts it on the `relationIdentifier` child, so an inserted hasPart
  is never recognised and the next pass inserts it again
  (`EngineProperties.HasPartsInsertedAgain`).
- The earlier script passes the list of DataObject PIDs to a getter that
  upper-cases a string. So it never sends a Version PUT
  (`LegacyProperties.ScriptNeverRegistersVersion`). Its DataObject PUT
  needs `version_pid` bound and the Version flag clear, which a Version
  section never leaves behind, so that PUT is never sent either
  (`LegacyProperties.ScriptNeverRegistersDataObject`).
- The earlier script also takes the handle prefix as the Version's UUID.
  A handle has the form `<prefix>/<local name>` (RFC 3650, section 3), so
  this is the wrong part (`LegacyProperties.VersionUidIsPrefix`).

## Model

| member | source | states |
|---|---|---|
| Text.Upper | mets2handle/db_works_to_handle.py:30-35 | `str.upper()` keeps the length and upper-cases every character |
| Text.Lower | db_works_tohandle.py:23-46 | `str.lower()` keeps the length and lower-cases every character |
| Text.UpperIdempotent | mets2handle/db_works_to_handle.py:30-35 | upper-casing an upper-cased PID changes nothing |
| Text.LowerOfLower | db_works_tohandle.py:23-46 | a string without upper-case letters is its own lower-case form |
| Text.LowerIdempotent | db_works_tohandle.py:23-46 | lower-casing twice is lower-casing once |
| Text.Capitalize | db_works_tohandle.py:268-290 | `str.capitalize()`: first character upper-cased, the rest lower-cased, same length |
| Text.CapitalizeIdempotent | db_works_tohandle.py:268-290 | capitalising a capitalised string changes nothing |
| Text.Trim | mets2handle/metstohandle.py:164-168 | `str.strip()` gives a slice of the input that neither starts nor ends with whitespace, and only whitespace is cut off |
| Text.TrimOfTrimmed | mets2handle/metstohandle.py:164-168 | stripping a string without surrounding whitespace leaves it unchanged |
| Text.TrimPadded | mets2handle/db_works_to_handle.py:370-379 | whitespace padding on either side of a PID does not survive `strip()` |
| Text.Split | mets2handle/metstohandle.py:236 | `str.split(c)` always gives at least one piece |
| Text.SplitPiecesLackSeparator | mets2handle/metstohandle.py:236 | no piece of a split contains the separator |
| Text.JoinSplit | mets2handle/metstohandle.py:236 | joining the pieces of a split with the separator gives back the string |
| Text.SplitJoin | mets2handle/metstohandle.py:236 | splitting a join of separator-free pieces gives back the pieces |
| Text.BeforeIsFirstSegment | mets2handle/db_version_to_handle.py:150-160 | `s.split(c)[0]` is the longest prefix of `s` without `c`, followed by `c` or the end |
| Text.SplitHasFieldOneIffSeparator | helpers.py:27 | `s.split(c)[1]` exists exactly when `c` occurs in `s` |
| Dates.LastModified | mets2handle/db_works_to_handle.py:153-171 | raises `IndexError` exactly when the time has no '+' or the date before '+' has fewer than three '-'-pieces; a result holds the space between date and time |
| Dates.ReadLastModified | mets2handle/db_works_to_handle.py:158-159 | a missing `dateLastModified` or `timeLastModified` (or a missing `ebuCoreMain`) raises `AttributeError`; otherwise the getter raises exactly where `LastModified` does, with `IndexError` |
| Dates.PadDay | mets2handle/db_works_to_handle.py:162-164 | a one-character day becomes two characters; any other day keeps its length |
| Dates.PadOffset | mets2handle/db_works_to_handle.py:160-161 | a four-character offset becomes five characters; any other offset keeps its length |
| Dates.PaddingKeepsDigits | mets2handle/db_works_to_handle.py:160-164 | padding only puts a '0' in front: the given day and offset end the result |
| Dates.LastModifiedOfWellFormed | mets2handle/db_works_to_handle.py:158-171 | for `Y-M-D[+zone]` and `hh:mm:ss+offset` the result is `Y-M-D hh:mm:ss+offset`, with a one-character day and a four-character offset zero-padded |
| Dates.PaddingOnlyWhereShort | db_works_tohandle.py:181-194 | a two-character day and a five-character offset are left exactly as given |
| Records.Present | mets2handle/db_works_to_handle.py:366 | a facet is kept exactly when it is present among the values, and there are no more facets than values |
| Records.PresentAppend | mets2handle/db_works_to_handle.py:366 | the filter commutes with concatenation, so facets keep the order the getters were called in |
| Records.Then | mets2handle/db_works_to_handle.py:319-362 | a disabled getter or an earlier exception leaves the build as it was; the build raises exactly when it had raised or the enabled getter raises |
| Records.ThenKeepsPresent | mets2handle/db_works_to_handle.py:319-366 | appending a value then filtering at the end keeps what `Then` keeps |
| Records.Close | mets2handle/db_works_to_handle.py:364-368 | a successful build is the kept facets followed by the `KernelInformationProfile` facet, and it succeeds exactly when the facets do |
| Records.KeepPresent | mets2handle/db_works_to_handle.py:366 | the filtering loop returns exactly `Present(values)` |
| Records.VocabLabels | mets2handle/db_works_to_handle.py:44-53 | a label yields its `vocab_map` value if it is a key and itself if it is an enum value: 0 to 2 entries |
| Records.TitleEntriesOf | mets2handle/db_works_to_handle.py:44-53 | one title yields one entry per vocabulary or enum hit, each with the title's text |
| Records.TitleEntries | mets2handle/db_works_to_handle.py:44-53 | at most two entries per title |
| Records.TitleEntriesAppend | mets2handle/db_works_to_handle.py:44-53 | titles contribute their entries in document order |
| Records.UnmappedTitleDropped | mets2handle/db_works_to_handle.py:44-53 | a title whose label is neither a vocabulary key nor an enum value is dropped |
| Records.TitleEntriesCount | mets2handle/db_works_to_handle.py:44-53 | the number of title entries is the number of vocabulary and enum hits, at most two per title |
| Records.MapTitles | mets2handle/db_works_to_handle.py:37-54 | the loop of `getTitle` (and `get_titles`) builds exactly the specified title list |
| Records.GenreEntriesSound | mets2handle/db_works_to_handle.py:273-284 | every genre entry is the mapping of some genre's label or an enum label, and each such value is emitted |
| Records.GenreEntries | mets2handle/db_works_to_handle.py:273-284 | at most two entries per genre, each a `vocab_map` value or an enum value |
| Records.MapGenres | mets2handle/db_works_to_handle.py:269-284 | the loop of `getGenre` builds exactly the specified genre list |
| Records.ClampAll | mets2handle/db_version_to_handle.py:115-127 | one output label per input label, the label if allowed, otherwise the fallback |
| Records.Clamp | mets2handle/db_version_to_handle.py:115-127 | the result is the label or the fallback, always an allowed label or the fallback, and the label itself whenever it is allowed |
| Records.ClampAllInRange | db_version_to_handle.py:82-90 | every output label is allowed or the fallback, and allowed labels pass unchanged |
| Records.ClampLabels | db_version_to_handle.py:82-90 | the mapping loop builds exactly the clamped list |
| Records.CastName | mets2handle/db_works_to_handle.py:122-130 | with a name, the split succeeds exactly when it contains ','; a failure is `AttributeError` or `IndexError` |
| Records.CastNameSplit | mets2handle/db_works_to_handle.py:122-130 | a name written `family,given` splits back into the family name and the stripped given name |
| Records.CastEntry | mets2handle/db_works_to_handle.py:119-130 | a contributor adds no entry and raises nothing exactly when it has a role and its first role is not 'cast'; without a role it raises `AttributeError`; a cast contributor succeeds exactly when its name splits, and adds `name` with the split's `family-name` and `given-name`, followed by `identifier_uri` exactly when it has a `contactId` |
| Records.CastEntryOfName | mets2handle/db_works_to_handle.py:119-130 | a cast contributor named `family,given` adds that family name and the stripped given name |
| Records.CastEntriesRaisedStays | mets2handle/db_works_to_handle.py:119-130 | once a contributor raises, the whole cast list raises the same |
| Records.CastEntries | mets2handle/db_works_to_handle.py:119-130 | a failure is `AttributeError` or `IndexError`; a success has at most one entry per contributor |
| Records.Cast | mets2handle/db_works_to_handle.py:114-133 | a present value is the `cast` facet |
| Records.CastNoneIff | db_works_tohandle.py:122-153 | `getCast` returns `None` exactly when every contributor has a role and none has 'cast' first |
| Records.CollectCast | db_works_tohandle.py:118-153 | the contributor loop computes exactly `getCast` |
| WorkRecord.Identifier | mets2handle/db_works_to_handle.py:30-35 | an `identifiers` facet holding a one-element list whose entry is the upper-cased PID under `identifier` |
| WorkRecord.IdentifierIgnoresCase | mets2handle/db_works_to_handle.py:30-35 | the identifier facet does not depend on the case of the PID |
| WorkRecord.TitleFacet | mets2handle/db_works_to_handle.py:37-54 | a `title` list with one entry per vocabulary or enum hit, at most two per title |
| WorkRecord.GenreFacet | mets2handle/db_works_to_handle.py:269-284 | a `genre` list of strings, at most two per genre, each a `vocab_map` value or a genre enum value |
| WorkRecord.DurationFacet | mets2handle/db_works_to_handle.py:135-144 | a value only for a first duration labelled 'originalDuration', holding its play-time text or `None` when the text is missing; such a duration without a `normalPlayTime` element raises `AttributeError`, and nothing else raises |
| WorkRecord.LastModifiedFacet | mets2handle/db_works_to_handle.py:153-171 | present exactly when both attributes are there and the date does not raise, holding the padded date; otherwise the getter's exception |
| WorkRecord.LanguageFacet | mets2handle/db_works_to_handle.py:188-201 | raises `AttributeError` exactly when a language has no `dc:language` element; otherwise `None` exactly when there is no language, else an `originalLanguage` list holding each language's text in order, `None` for a missing text |
| WorkRecord.CountryCode | mets2handle/db_works_to_handle.py:207-240 | a location raises `AttributeError` exactly when it has no name element or its name is an exact pycountry match; otherwise it gives a code exactly when the name is a fuzzy match, and that match's code |
| WorkRecord.CountryCodes | mets2handle/db_works_to_handle.py:203-242 | a failure is `AttributeError`; a success has at most one code per location |
| WorkRecord.CountriesOfReference | mets2handle/db_works_to_handle.py:203-242 | a failure is `AttributeError`; a success is always a `countryOfReference` list, even an empty one |
| WorkRecord.CountryCodesOkIff | mets2handle/db_works_to_handle.py:207-216 | the getter succeeds exactly when every location has a name element and no name is an exact match |
| WorkRecord.CountryCodesFuzzy | mets2handle/db_works_to_handle.py:217-240 | every listed code is the fuzzy match of one of the locations |
| WorkRecord.CountryCodesComplete | mets2handle/db_works_to_handle.py:217-240 | on success, the code of every fuzzily matched location is listed |
| WorkRecord.CountryCodesAppend | mets2handle/db_works_to_handle.py:207-240 | the codes follow the order of the locations: those of a first part of the locations, then those of the rest |
| WorkRecord.CountryCodesStep | mets2handle/db_works_to_handle.py:208-240 | one more location either raises with its error or appends its code, if it has one |
| WorkRecord.CountryCodesRaisedStays | mets2handle/db_works_to_handle.py:208-216 | once a location raises, the whole list raises the same |
| WorkRecord.CollectCountries | mets2handle/db_works_to_handle.py:203-242 | the location loop computes exactly `getCountries_of_reference` |
| WorkRecord.ExactCountryEndsBuild | mets2handle/db_works_to_handle.py:209-216 | with the countries getter on, a location whose name is an exact match makes the build raise |
| WorkRecord.ProductionCompanies | mets2handle/db_works_to_handle.py:173-186 | always `None`: the company list is never filled |
| WorkRecord.FormatFacet | mets2handle/db_works_to_handle.py:286-298 | `None` unless a non-empty container-encoding `formatLabel` exists; an encoding without the label raises `TypeError` |
| WorkRecord.Middle | mets2handle/db_works_to_handle.py:334-347 | the middle five getters keep an earlier exception |
| WorkRecord.Back | mets2handle/db_works_to_handle.py:349-362 | the last five getters keep an earlier exception |
| WorkRecord.WorkJson | mets2handle/db_works_to_handle.py:302-368 | a successful record ends with the Work profile `21.T11148/31b848e871121c47d064` |
| WorkRecord.PidHasNoEffect | mets2handle/db_works_to_handle.py:316-317 | neither the PID nor the `handleId` flag changes the record |
| WorkRecord.LanguageOffByDefault | mets2handle/db_works_to_handle.py:302-304 | with the default flags the languages of the section do not reach the record |
| WorkRecord.ProductionCompaniesHaveNoEffect | mets2handle/db_works_to_handle.py:173-186 | `getProduction_companies` never contributes, so its flag has no effect |
| WorkRecord.CastErrorEndsBuild | mets2handle/db_works_to_handle.py:328-329 | a cast name that cannot be split ends the build with its exception |
| WorkRecord.DefaultRecordHolds | mets2handle/db_works_to_handle.py:302-368 | with the default flags, a successful record holds title, source, the countries facet (whose getter then did not raise), years, related identifier and genre |
| WorkRecord.BuildWorkJson | mets2handle/db_works_to_handle.py:302-368 | the getter-by-getter build equals `WorkJson` |
| WorkRecord.AppendFront | mets2handle/db_works_to_handle.py:319-332 | the first five appends agree with the specification's first five getters |
| WorkRecord.AppendMiddle | mets2handle/db_works_to_handle.py:334-347 | the middle five appends agree with the specification |
| WorkRecord.AppendBack | mets2handle/db_works_to_handle.py:349-362 | the last five appends agree with the specification |
| LegacyWorkRecord.TitleType | db_works_tohandle.py:31-46 | the emitted type has its first character upper-cased and the rest unchanged |
| LegacyWorkRecord.TitleTypeSameType | db_works_tohandle.py:31-46 | the emitted type, lower-cased, is the label read and one of the five types |
| LegacyWorkRecord.TitleEntries | db_works_tohandle.py:23-46 | no more title entries than titles |
| LegacyWorkRecord.TitleEntriesAppend | db_works_tohandle.py:23-46 | titles contribute their entries in document order |
| LegacyWorkRecord.TitleKeptOrDropped | db_works_tohandle.py:31-46 | a title with one of the five types yields exactly one entry in its place; any other title yields none |
| LegacyWorkRecord.TitleFacet | db_works_tohandle.py:23-46 | a `titles` list with no more entries than titles |
| LegacyWorkRecord.CollectTitles | db_works_tohandle.py:23-46 | the title loop builds exactly the specified list |
| LegacyWorkRecord.NonFictionName | db_works_tohandle.py:280-290 | 'nonFiction' is emitted as 'Non-fiction' |
| LegacyWorkRecord.GenreName | db_works_tohandle.py:280-290 | 'nonFiction' gives a name of the length of 'Non-fiction'; any other label its `str()` with the first character upper-cased and the rest lower-cased |
| LegacyWorkRecord.GenreNameCapitalised | db_works_tohandle.py:280-290 | every emitted genre name is already capitalised |
| LegacyWorkRecord.GenreNames | db_works_tohandle.py:268-290 | one genre name per genre element, in order |
| LegacyWorkRecord.GenreFacet | db_works_tohandle.py:268-290 | a `genres` list with, for each genre element in order, its name |
| LegacyWorkRecord.CollectGenres | db_works_tohandle.py:268-290 | the genre loop builds exactly the specified names |
| LegacyWorkRecord.LastModifiedFacet | db_works_tohandle.py:176-194 | present exactly when both attributes are there and the date does not raise, holding the padded date; otherwise the getter's exception |
| LegacyWorkRecord.CountriesFacet | db_works_tohandle.py:226-240 | raises `AttributeError` exactly when a location has no name element; otherwise `None` exactly when there is no location, else a `countries_of_reference` list holding each location's name text in order, `None` for a missing text |
| LegacyWorkRecord.Middle | db_works_tohandle.py:338-351 | the middle five getters keep an earlier exception |
| LegacyWorkRecord.Back | db_works_tohandle.py:353-367 | the last five getters keep an earlier exception |
| LegacyWorkRecord.WorkJson | db_works_tohandle.py:307-373 | a successful record ends with the Work profile `21.T11148/31b848e871121c47d064` |
| LegacyWorkRecord.AlwaysNoneGettersHaveNoEffect | db_works_tohandle.py:307-373 | the four always-`None` getters contribute nothing, so their flags have no effect |
| LegacyWorkRecord.OriginalDuration | db_works_tohandle.py:155-166 | always `None`: the duration is the empty placeholder |
| LegacyWorkRecord.ProductionCompanies | db_works_tohandle.py:196-211 | always `None`: the company list is never filled |
| LegacyWorkRecord.OriginalLanguage | db_works_tohandle.py:213-224 | always `None`: the language list is never filled |
| LegacyWorkRecord.OriginalFormat | db_works_tohandle.py:292-304 | always `None`: the format is the empty placeholder |
| LegacyWorkRecord.OnlyCastDateAndLocationsRaise | db_works_tohandle.py:307-373 | the build raises only through the cast names, the modification date or a location without a name element |
| LegacyWorkRecord.DefaultRecordHolds | db_works_tohandle.py:307-373 | with the default flags, titles, sources, years, related identifier and genres are always in a successful record |
| LegacyWorkRecord.BuildWorkJson | db_works_tohandle.py:307-373 | the getter-by-getter build equals `WorkJson` |
| LegacyWorkRecord.AppendFront | db_works_tohandle.py:323-336 | the first five appends agree with the specification |
| LegacyWorkRecord.AppendMiddle | db_works_tohandle.py:338-351 | the middle five appends agree with the specification |
| LegacyWorkRecord.AppendBack | db_works_tohandle.py:353-367 | the last five appends agree with the specification and raise nothing |
| VersionRecord.IdentifierEntry | mets2handle/db_version_to_handle.py:35-41 | the upper-cased PID, as a string, under type `identifier` |
| VersionRecord.IdentifierIgnoresCase | mets2handle/db_version_to_handle.py:35-41 | the identifier entry does not depend on the case of the PID |
| VersionRecord.HasDataObjects | mets2handle/db_version_to_handle.py:53-60 | a list argument comes back unchanged (not upper-cased); a string is wrapped as a singleton |
| VersionRecord.ReleaseDate | mets2handle/db_version_to_handle.py:87-97 | a four-character year gains '-01-01', other text is kept, no released element gives '1000-01-01', a missing `year` raises `TypeError` |
| VersionRecord.ReleaseDateSettles | mets2handle/db_version_to_handle.py:87-97 | a completed date is completed no further |
| VersionRecord.ManifestationTypes | mets2handle/db_version_to_handle.py:115-127 | one entry per object type, the label if in the enumeration and 'Unknown' otherwise; a missing label raises `TypeError` |
| VersionRecord.ManifestationTypesInRange | mets2handle/db_version_to_handle.py:115-127 | every manifestation type is an enumeration value or 'Unknown' |
| VersionRecord.CollectManifestationTypes | mets2handle/db_version_to_handle.py:115-127 | the loop computes exactly `ManifestationTypes` |
| VersionRecord.LastModifiedDropsZone | mets2handle/db_version_to_handle.py:150-160 | for a date and a time containing no 'Z', given with a trailing 'Z' on each or with none, the result is the date, a space and the time |
| VersionRecord.LastModified | mets2handle/db_version_to_handle.py:150-160 | no 'Z' survives, and a date and time without 'Z' are joined by a space unchanged |
| VersionRecord.LastModifiedJson | mets2handle/db_version_to_handle.py:156-157 | raises `AttributeError` exactly when either attribute (or `ebuCoreMain`) is missing; otherwise the joined date and time |
| VersionRecord.Set | mets2handle/db_version_to_handle.py:171-190 | one `if flag: values[key] = getter()` line: skipped when off, an exception ends the build |
| VersionRecord.VersionJson | mets2handle/db_version_to_handle.py:163-192 | the build raises exactly when an enabled release date lacks its year, an enabled manifestation type lacks its label, or the last-modified attributes are missing while enabled |
| VersionRecord.Back | mets2handle/db_version_to_handle.py:183-190 | the last four keys keep an earlier exception |
| VersionRecord.Keys | mets2handle/db_version_to_handle.py:163-192 | the keys of the dict, in insertion order |
| VersionRecord.KeysAreEnabledKeys | mets2handle/db_version_to_handle.py:163-192 | the dict has a key exactly for each enabled getter, in the order the getters are called |
| VersionRecord.TitleOffByDefault | mets2handle/db_version_to_handle.py:163-165 | with the default flags there is no 'title' key |
| VersionRecord.IsVersionOfFirst | mets2handle/db_version_to_handle.py:171-172 | when enabled, `is_version_of` is the first entry and holds the Work PIDs unchanged |
| VersionRecord.UnusedParametersHaveNoEffect | mets2handle/db_version_to_handle.py:163-192 | `YearsofReference`, the `identifier` flag and the Version PID do not change the dict |
| VersionRecord.BuildVersionJson | mets2handle/db_version_to_handle.py:163-192 | the key-by-key build equals `VersionJson` |
| VersionRecord.SetFront | mets2handle/db_version_to_handle.py:171-180 | the first five keys agree with the specification |
| LegacyVersionRecord.Identifier | db_version_to_handle.py:24-30 | the upper-cased PID under type 'identifier' |
| LegacyVersionRecord.IdentifierIgnoresCase | db_version_to_handle.py:24-30 | the identifier facet does not depend on the case of the PID |
| LegacyVersionRecord.HasDataObject | db_version_to_handle.py:41-44 | a string gives the one-element list of its upper-cased form; a list raises `AttributeError` |
| LegacyVersionRecord.TitleListAt | db_version_to_handle.py:50-63 | one entry per title, in document order, each with the title's text |
| LegacyVersionRecord.TitleListShape | db_version_to_handle.py:50-63 | every title type is one of the five or 'Other', and one of the five passes unchanged |
| LegacyVersionRecord.TitleList | db_version_to_handle.py:50-63 | one entry per title |
| LegacyVersionRecord.TitleFacet | db_version_to_handle.py:50-63 | a `titles` list with one entry per title |
| LegacyVersionRecord.CollectTitles | db_version_to_handle.py:50-63 | the loop builds exactly the specified title list |
| LegacyVersionRecord.ReleaseDate | db_version_to_handle.py:65-67 | raises `AttributeError` exactly when there is no released element, otherwise the year |
| LegacyVersionRecord.YearsOfReference | db_version_to_handle.py:69-80 | `None` exactly when there is no created date, otherwise a `production_year` facet holding its `startYear`, `None` when that attribute is missing |
| LegacyVersionRecord.ManifestationFacet | db_version_to_handle.py:82-90 | one type per object type, in order, 'Unknown' for one outside the ten |
| LegacyVersionRecord.ManifestationTypesAllowed | db_version_to_handle.py:82-90 | every manifestation type in the record is one of the ten |
| LegacyVersionRecord.Back | db_version_to_handle.py:143-156 | the last five getters keep an earlier exception |
| LegacyVersionRecord.VersionJson | db_version_to_handle.py:121-162 | a successful record ends with the Version profile `21.T11148/ef6836b80e4d64e574e3` |
| LegacyVersionRecord.ListArgumentRaises | db_version_to_handle.py:41-44 | given a list of DataObject PIDs, the build raises `AttributeError` whenever `has_data_objects` is on |
| LegacyVersionRecord.IsVersionOfFirst | db_version_to_handle.py:128-129 | when enabled, the Work PIDs come first and unchanged |
| LegacyVersionRecord.ReleaseDateOffByDefault | db_version_to_handle.py:121 | with the default flags a section without a release date does not raise, and the Version PID has no effect |
| LegacyVersionRecord.DefaultRecord | db_version_to_handle.py:121-162 | with the default flags and one DataObject PID the record is exactly the Work PIDs, that PID upper-cased, the placeholder, the optional year, manifestation types, agents, sources, date and profile |
| LegacyVersionRecord.BuildVersionJson | db_version_to_handle.py:121-162 | the getter-by-getter build equals `VersionJson` |
| LegacyVersionRecord.AppendFront | db_version_to_handle.py:128-141 | the first five appends agree with the specification |
| LegacyVersionRecord.AppendBack | db_version_to_handle.py:143-156 | the last five appends agree with the specification |
| DataObjectRecord.DescriptionTextRaisesIff | mets2handle/db_data_object_to_handle.py:14-28 | a description getter raises exactly when a description with its label lacks the text child, and otherwise contributes `None` |
| DataObjectRecord.DescriptionText | mets2handle/db_data_object_to_handle.py:14-28 | the getter returns `None` or raises `AttributeError` |
| DataObjectRecord.ScanDescriptions | mets2handle/db_data_object_to_handle.py:14-28 | the loop over the descriptions computes exactly the getter |
| DataObjectRecord.DescriptionRaisedStays | mets2handle/db_data_object_to_handle.py:14-28 | once a prefix of the descriptions raises, the whole scan raises |
| DataObjectRecord.ItemFileSize | mets2handle/db_data_object_to_handle.py:30-36 | `None` without a `fileSize`, otherwise `str(size) + str(unit)` |
| DataObjectRecord.Languages | mets2handle/db_data_object_to_handle.py:38-47 | a `language_versions` list with one entry per language element |
| DataObjectRecord.LanguageListAt | mets2handle/db_data_object_to_handle.py:38-47 | the entry at each position is that element's label |
| DataObjectRecord.LanguageList | mets2handle/db_data_object_to_handle.py:38-47 | one entry per language element |
| DataObjectRecord.CollectLanguages | mets2handle/db_data_object_to_handle.py:38-47 | the loop builds exactly the specified list |
| DataObjectRecord.Identifier | mets2handle/db_data_object_to_handle.py:67-73 | the upper-cased identifier |
| DataObjectRecord.IdentifierIgnoresCase | mets2handle/db_data_object_to_handle.py:67-73 | the identifier facet does not depend on the case of the identifier |
| DataObjectRecord.Back | mets2handle/db_data_object_to_handle.py:91-95 | the three description getters keep an earlier exception |
| DataObjectRecord.DataObjectJson | mets2handle/db_data_object_to_handle.py:75-100 | a successful record ends with the DataObject profile |
| DataObjectRecord.RecordShape | mets2handle/db_data_object_to_handle.py:75-100 | a successful record is the Version PID, the date, the source placeholder, the optional file size and the profile |
| DataObjectRecord.RecordLength | mets2handle/db_data_object_to_handle.py:75-100 | a successful record has 4 entries, or 5 exactly when there is a file size |
| DataObjectRecord.RaisesIff | mets2handle/db_data_object_to_handle.py:75-100 | the build raises exactly when the modification date is missing or raises, or a labelled description lacks its text; the DataObject PID has no effect |
| DataObjectRecord.BuildDataObjectJson | mets2handle/db_data_object_to_handle.py:75-100 | the getter-by-getter build equals `DataObjectJson` |
| DataObjectRecord.AppendFront | mets2handle/db_data_object_to_handle.py:81-89 | the first four appends agree with the specification |
| DataObjectRecord.AppendBack | mets2handle/db_data_object_to_handle.py:91-95 | the description getters agree with the specification |
| Relations.Build | helpers.py:37-80 | a root of the given tag with one `relationIdentifier` child labelled `hdl.handle.net` holding the text verbatim |
| Relations.BuildIsVersionOf | helpers.py:37-50 | an `isVersionOf` root whose child holds the Work PID verbatim |
| Relations.BuildIsPartOf | helpers.py:52-65 | an `isPartOf` root whose child holds the Version PID verbatim |
| Relations.BuildHasPart | helpers.py:67-80 | a `hasPart` root whose child holds the DataObject PID verbatim |
| Relations.BuildersDifferOnlyInTag | helpers.py:37-80 | two built elements are equal exactly when tag and PID are equal |
| Relations.BuiltHasPartNeverSelected | helpers.py:69-74 | the root of a built `hasPart` carries no `formatLabel`, so the engine's selector never matches it |
| Relations.LocalName | helpers.py:27 | the text after the first '/', `None` where `split('/')[1]` raises |
| Relations.HandleParts | helpers.py:27 | for `<prefix>/<local name>` the local name is the part after '/' and the prefix the part before |
| Registry.Accept | mets2handle/metstohandle.py:196-202 | the handle of the reply exactly when the status is not an error and the reply holds one; `HTTPError` for an error status, `KeyError` otherwise |
| Registry.FetchTarget | helpers.py:25-34 | a target exactly when the PID contains '/', `IndexError` otherwise |
| Registry.FetchTargetOfHandle | helpers.py:27 | for a well-formed handle the GET goes to its local name, never to its prefix |
| Mets.DmdIds | mets2handle/metstohandle.py:120-130 | no more DMDIDs than divs |
| Mets.DivGoesToItsList | mets2handle/metstohandle.py:120-130 | a div of another TYPE adds nothing to a list; a div of the TYPE adds its DMDID in its place |
| Mets.DmdIdsMembership | mets2handle/metstohandle.py:120-130 | a DMDID is in a list exactly when some div of that TYPE carries it |
| Mets.Classify | mets2handle/metstohandle.py:120-130 | the classification loop fills the three lists exactly as `DmdIds` |
| Mets.HandlePids | mets2handle/metstohandle.py:164-168 | no more handle PIDs than identifiers |
| Mets.NoHandlePids | mets2handle/metstohandle.py:164-168 | a section has no handle PID exactly when no identifier is labelled as a handle |
| Mets.CollectHandlePids | mets2handle/metstohandle.py:164-168 | the identifier loop collects exactly `HandlePids` |
| Mets.FirstHandle | mets2handle/metstohandle.py:227-241 | the first handle-labelled identifier gives the first collected PID |
| Mets.NewIdentifier | mets2handle/db_works_to_handle.py:370-379 | a handle-labelled identifier |
| Mets.NewIdentifierReadBack | mets2handle/metstohandle.py:208-212 | an identifier written for a PID is found by the next scan, first, as the stripped PID |
| Mets.AddIdentifier | mets2handle/metstohandle.py:212 | the new identifier goes before the first one; with none there, `AttributeError` |
| Mets.RelationsFor | mets2handle/metstohandle.py:278-280 | one element per PID, in PID order |
| Mets.AddIsVersionOfs | mets2handle/metstohandle.py:278-280 | the insertion loop puts each new element before the one inserted just before it |
| Mets.StackReversesOrder | mets2handle/metstohandle.py:278-280 | the isVersionOf elements end up in the reverse of the Work PID order, before the old ones |
| Mets.HasPartsFor | mets2handle/metstohandle.py:295-299 | one hasPart per PID, in list order |
| Mets.BuildHasParts | mets2handle/metstohandle.py:295-299 | the loop before the fixed anchor builds the hasParts in list order |
| Mets.SelectRootLabelled | mets2handle/metstohandle.py:289-290 | the selected elements are those whose root carries the handle label |
| Mets.SelectChildLabelled | helpers.py:69-74 | the elements labelled where the builder puts the label |
| Engine.Initial | mets2handle/metstohandle.py:112-130 | the three DMDID lists are the divs of each TYPE, nothing sent, nothing written |
| Engine.Validate | mets2handle/metstohandle.py:131-144 | no error exactly when there is one Version, one DataObject and, with a Work hint, one Work |
| Engine.VersionHintCheckUnreachable | mets2handle/metstohandle.py:141-144 | the version-hint count check can never fire |
| Engine.Edit | mets2handle/metstohandle.py:212 | editing a dmdSec changes that dmdSec only |
| Engine.Write | mets2handle/metstohandle.py:216-219 | writing the file only appends the current document to the written ones |
| Engine.Register | mets2handle/metstohandle.py:179-202 | a PUT only appends to the request log and consumes one reply |
| Engine.Fetch | mets2handle/metstohandle.py:238-241 | the GET of a Version record raises only run errors and only appends to the log |
| Engine.WorkStep | mets2handle/metstohandle.py:160-219 | a Work section edits only itself, leaves the DataObject PIDs alone, sets the Work flag exactly when it has a handle, and changes no document when it has one |
| Engine.SettleWork | mets2handle/metstohandle.py:170-202 | the hint, the flag or a registration settles the Work PID, editing only this section |
| Engine.RecordWork | mets2handle/metstohandle.py:204-219 | recording the Work PID edits only this section |
| Engine.VersionStep | mets2handle/metstohandle.py:224-310 | a Version section with a handle while `dataObjectPids` is unbound ends the run |
| Engine.VersionExisting | mets2handle/metstohandle.py:229-241 | the existing-handle path fails whenever `dataObjectPids` is unbound |
| Engine.VersionLookup | mets2handle/metstohandle.py:237-241 | appending the stored PIDs fails whenever the list is unbound |
| Engine.VersionResolve | mets2handle/metstohandle.py:243-272 | hint, mint or reuse edits only this section |
| Engine.VersionAnnotate | mets2handle/metstohandle.py:273-310 | the annotation edits this section and writes, sending nothing |
| Engine.AnnotateVersion | mets2handle/metstohandle.py:273-286 | the PID becomes `version_pid`, and only this section is edited |
| Engine.MarkVersion | mets2handle/metstohandle.py:282-286 | writing the identifier keeps `version_pid` |
| Engine.ReconcileHasParts | mets2handle/metstohandle.py:288-310 | the hasPart update keeps the identifiers, isVersionOfs and `version_pid`, and sends nothing |
| Engine.InsertHasParts | mets2handle/metstohandle.py:295-302 | the insertion keeps the identifiers, isVersionOfs and `version_pid` |
| Engine.DropOldReferences | mets2handle/metstohandle.py:300-310 | the removal step changes no document |
| Engine.DataObjectStep | mets2handle/metstohandle.py:315-402 | a DataObject section edits only itself and leaves the DataObject PID list alone |
| Engine.RegisterDataObject | mets2handle/metstohandle.py:322-389 | the DataObject PUT and its edits leave the three flags and the PID list alone |
| Engine.AttachDataObject | mets2handle/metstohandle.py:340-355 | the identifier, the isPartOf and the write edit only this section |
| Engine.ReputVersion | mets2handle/metstohandle.py:391-402 | the second Version PUT edits no document |
| Engine.Visit | mets2handle/metstohandle.py:155-402 | one dmdSec edits only itself; only a Version section touches the DataObject PID list |
| Engine.VisitLater | mets2handle/metstohandle.py:224-402 | the Version and DataObject tests edit only this section |
| Engine.Sections | mets2handle/metstohandle.py:155-402 | the loop over the dmdSecs raises only run errors and undoes nothing |
| Engine.SectionsStep | mets2handle/metstohandle.py:155 | one section further on: the visit either raises or hands its state on |
| Engine.SectionsDone | mets2handle/metstohandle.py:155 | past the last dmdSec nothing happens |
| Engine.Start | mets2handle/metstohandle.py:131-155 | validation, the candidate and the loop undo nothing |
| Engine.Begun | mets2handle/metstohandle.py:152-153 | drawing the DataObject candidate uses one UUID and keeps the document |
| Engine.M2h | mets2handle/metstohandle.py:69-403 | the run keeps the number of dmdSecs and the three DMDID lists of the structMap; a run that ends without an exception had exactly one Version, one DataObject and, with a Work hint, one Work |
| EngineProperties.ValidationBeforeAnyRequest | mets2handle/metstohandle.py:131-144 | a document with the wrong counts, or an ambiguous Work hint, is refused with nothing sent or written; a run that passes never raises a validation error |
| EngineProperties.WorkHintClash | mets2handle/metstohandle.py:170-175 | a Work hint not among the known handles ends the run with nothing sent or edited |
| EngineProperties.WorkHintKnown | mets2handle/metstohandle.py:170-176 | a Work hint among the known handles is accepted with no request or edit |
| EngineProperties.WorkHintAdopted | mets2handle/metstohandle.py:176-178 | with no handle, the hint is appended and written into the section without a request, and read back next time |
| EngineProperties.RecordWorkReadBack | mets2handle/metstohandle.py:204-219 | the recorded Work PID is appended and written first; the next scan reads it first |
| EngineProperties.MintedWorkHandleReadBack | mets2handle/metstohandle.py:179-219 | a minted Work is registered under a fresh UUID; the reply's handle is recorded, written, and found by a later scan |
| EngineProperties.MintedWorkRecorded | mets2handle/metstohandle.py:196-206 | the reply's handle becomes the Work PID |
| EngineProperties.WorkRegistrationRefused | mets2handle/metstohandle.py:196 | a registry error ends the run after the one PUT, before anything is written |
| EngineProperties.LaterWorkSectionOnlyCollected | mets2handle/metstohandle.py:164-179 | once a Work PID is known, a later Work section without a hint only collects its handles |
| EngineProperties.VersionHintClash | mets2handle/metstohandle.py:229-235 | a Version hint that differs from the first handle ends the run before the lookup |
| EngineProperties.ExistingVersionMeetsUnboundList | mets2handle/metstohandle.py:237-241 | a Version section with a handle, before any Version was registered, fails on the unbound list |
| EngineProperties.RegisteredVersionBlocksRun | mets2handle/metstohandle.py:227-250 | a run whose Version sections all carry a handle never completes |
| EngineProperties.LaterSectionsKept | mets2handle/metstohandle.py:106-250 | a step that edits only a section that is not a Version section, while a Version section lies ahead and every Version section ahead carries a handle, leaves a Version section ahead of the next index, every one of them still carrying a handle |
| EngineProperties.VisitOfRegisteredVersionFails | mets2handle/metstohandle.py:227-241 | a Version section with a handle, visited while the list is unbound, raises |
| EngineProperties.RerunOfRegisteredVersionFails | mets2handle/metstohandle.py:69-403 | processing a document whose Version section already carries a handle ends in an exception |
| EngineProperties.VersionHintNeverRegistered | mets2handle/metstohandle.py:244-246 | a Version hint with no handle in the section is used as is: no UUID drawn, no Version registered (the step itself still fails, see `VersionHintFailsAtHasParts`) |
| EngineProperties.VersionHintFailsAtHasParts | mets2handle/metstohandle.py:244-294 | with a Version hint, no handle in the section and the DataObject PID list unbound, the Version step ends in `UnboundLocalError` at the hasPart update, or `AttributeError` while annotating |
| EngineProperties.FirstVersionRegistration | mets2handle/metstohandle.py:247-272 | the first Version is registered under a fresh UUID with the Work PIDs and the candidate; the DataObject PID list becomes exactly the candidate |
| EngineProperties.VersionHandleAnnotated | mets2handle/metstohandle.py:273-286 | the Version handle is written and read back, with one isVersionOf per Work PID in reverse order |
| EngineProperties.MintedVersionHandleRecorded | mets2handle/metstohandle.py:262-286 | after a first Version registration that the server accepts, its handle becomes `version_pid` and is the only handle the next scan of the section reads |
| EngineProperties.HasPartsUpToDate | mets2handle/metstohandle.py:289-294 | when the recorded references name exactly the DataObject PIDs, the section is left alone and written only if annotated before |
| EngineProperties.HasPartsInserted | mets2handle/metstohandle.py:294-302 | otherwise one hasPart per PID is inserted in list order before the old ones; with recorded references the removal raises `NameError` |
| EngineProperties.InsertedHasPartsNotSelected | mets2handle/metstohandle.py:289-297 | the elements the update inserts are invisible to its own selector |
| EngineProperties.SelectRootLabelledAppend | mets2handle/metstohandle.py:289-290 | the selector distributes over concatenation |
| EngineProperties.SelectRootLabelledNone | mets2handle/metstohandle.py:289-290 | elements without the label on their root are never selected |
| EngineProperties.NoReferenceRecorded | mets2handle/metstohandle.py:291-294 | with no reference selected, a non-empty PID list is never up to date |
| EngineProperties.HasPartsInsertedAgain | mets2handle/metstohandle.py:288-302 | an update that inserted hasParts inserts them again on the next pass with the same PIDs |
| EngineProperties.DataObjectWithHandleSendsNothing | mets2handle/metstohandle.py:315-358 | a DataObject section that has a handle, or follows a DataObject section that had one, raises nothing, sends nothing and changes only the DataObject flag |
| EngineProperties.FreshDataObject | mets2handle/metstohandle.py:322-355 | in a fresh document the DataObject is registered under the early UUID and the reply's handle becomes the DataObject PID; no Version re-PUT |
| EngineProperties.NewDataObjectOfRegisteredVersion | mets2handle/metstohandle.py:357-402 | for a registered Work and Version, the DataObject PUT is followed by the Version PUT; the DataObject PID is not replaced |
| EngineProperties.DataObjectRequests | mets2handle/metstohandle.py:315-402 | a DataObject section sends at most the DataObject record then the Version record, and never reads |
| EngineProperties.DataObjectPutSent | mets2handle/metstohandle.py:328-336 | the DataObject registration sends exactly its own record |
| EngineProperties.VersionReputSent | mets2handle/metstohandle.py:391-402 | the second Version PUT sends the Version record, or nothing when a name is unbound |
| EngineRun.ScanHandles | mets2handle/metstohandle.py:164-168 | the Work identifier loop appends exactly the handle PIDs and sets the flag exactly when there is one |
| EngineRun.ScanForHandle | mets2handle/metstohandle.py:317-320 | the DataObject identifier loop sets the flag exactly when there is a handle |
| EngineRun.Run.constructor | mets2handle/metstohandle.py:112-130 | the run starts in `Engine.Initial` |
| EngineRun.Run.NewUuid | mets2handle/metstohandle.py:152 | the next fresh UUID, counted |
| EngineRun.Run.Put | mets2handle/metstohandle.py:191-196 | the PUT as `Engine.Register` |
| EngineRun.Run.WriteDocument | mets2handle/metstohandle.py:216-219 | the write as `Engine.Write` |
| EngineRun.Run.EditSection | mets2handle/metstohandle.py:212 | the edit as `Engine.Edit` |
| EngineRun.Run.FetchRecord | mets2handle/metstohandle.py:238-241 | the GET as `Engine.Fetch` |
| EngineRun.Run.WorkSection | mets2handle/metstohandle.py:160-219 | leaves the run where `Engine.WorkStep` does |
| EngineRun.Run.SettleWorkPid | mets2handle/metstohandle.py:170-202 | leaves the run where `Engine.SettleWork` does |
| EngineRun.Run.RecordWorkPid | mets2handle/metstohandle.py:204-219 | leaves the run where `Engine.RecordWork` does |
| EngineRun.Run.VersionSection | mets2handle/metstohandle.py:224-310 | leaves the run where `Engine.VersionStep` does |
| EngineRun.Run.CheckExistingVersion | mets2handle/metstohandle.py:229-241 | leaves the run where `Engine.VersionExisting` does |
| EngineRun.Run.LookupVersion | mets2handle/metstohandle.py:237-241 | leaves the run where `Engine.VersionLookup` does |
| EngineRun.Run.ResolveVersion | mets2handle/metstohandle.py:243-272 | leaves the run where `Engine.VersionResolve` does |
| EngineRun.Run.RegisterVersion | mets2handle/metstohandle.py:247-272 | leaves the run where `Engine.VersionResolve` does without hint or handle |
| EngineRun.Run.AnnotateSection | mets2handle/metstohandle.py:273-310 | leaves the run where `Engine.VersionAnnotate` does |
| EngineRun.Run.AnnotateVersionPid | mets2handle/metstohandle.py:273-286 | leaves the run where `Engine.AnnotateVersion` does |
| EngineRun.Run.UpdateHasParts | mets2handle/metstohandle.py:288-310 | leaves the run where `Engine.ReconcileHasParts` does |
| EngineRun.Run.InsertHasPartElements | mets2handle/metstohandle.py:295-310 | leaves the run where `Engine.InsertHasParts` does |
| EngineRun.Run.DataObjectSection | mets2handle/metstohandle.py:315-402 | leaves the run where `Engine.DataObjectStep` does |
| EngineRun.Run.RegisterDataObjectRecord | mets2handle/metstohandle.py:322-389 | leaves the run where `Engine.RegisterDataObject` does |
| EngineRun.Run.ReputVersionRecord | mets2handle/metstohandle.py:391-402 | leaves the run where `Engine.ReputVersion` does |
| EngineRun.Run.VisitSection | mets2handle/metstohandle.py:155-402 | leaves the run where `Engine.Visit` does |
| EngineRun.Run.Execute | mets2handle/metstohandle.py:131-403 | leaves the run where `Engine.Start` does |
| EngineRun.Run.Begin | mets2handle/metstohandle.py:152-403 | the candidate, then the loop, as `Engine.Begun` and `Engine.Sections` |
| EngineRun.Run.VisitAll | mets2handle/metstohandle.py:155-403 | the dmdSec loop leaves the run where `Engine.Sections` does |
| EngineRun.Run.VisitNext | mets2handle/metstohandle.py:155-403 | one turn of the loop keeps the remaining run's outcome unchanged |
| EngineRun.RunM2h | mets2handle/metstohandle.py:69-403 | the whole run ends where `Engine.M2h` says |
| LegacyEngine.Initial | metstohandle.py:77-94 | the three DMDID lists as found, with no count validation |
| LegacyEngine.Begun | metstohandle.py:99-100 | the document is kept, one UUID is used, nothing is sent, and the DataObject candidate is the prefix followed by that UUID |
| LegacyEngine.LegacyIdentifier | db_works_tohandle.py:381-407 | a handle-labelled identifier holding the PID and layout whitespace |
| LegacyEngine.LegacyIdentifierReadBack | metstohandle.py:115-118 | an identifier the script writes is read back by a later run as the stripped PID |
| LegacyEngine.TrailIgnored | db_works_tohandle.py:381-407 | the layout whitespace after the PID does not survive `strip()` |
| LegacyEngine.InsertIdentifier | metstohandle.py:145 | the identifier goes before the first one; with none there, `AttributeError` |
| LegacyEngine.Send | metstohandle.py:131 | exactly one PUT is counted and logged |
| LegacyEngine.Created | metstohandle.py:137-153 | the run is unchanged, or, on a 201 reply, only this section is edited and the edited document written; only `KeyError` or `AttributeError` can be raised |
| LegacyEngine.WorkStep | metstohandle.py:110-153 | a Work section edits only itself, sets the Work flag exactly when it has a handle, and leaves the Version names and other flags alone |
| LegacyEngine.MintWork | metstohandle.py:121-153 | minting edits only this section and leaves the flags and Version names alone |
| LegacyEngine.VersionScan | metstohandle.py:166-171 | the identifier loop edits no document, sends no PUT, keeps the Work and DataObject flags and never unbinds a name |
| LegacyEngine.AdoptVersion | metstohandle.py:167-171 | a handle sets the Version flag, becomes `version_pid`, sets `uid` to the text before its first '/'; no PUT, no edit |
| LegacyEngine.VersionStep | metstohandle.py:161-206 | a Version section edits no document and sends no PUT; after it `version_pid` and `dataObjectPids` are bound |
| LegacyEngine.DataObjectStep | metstohandle.py:211-278 | a DataObject section edits only itself, sets its flag exactly when it has a handle, and keeps the other flags and `version_pid` |
| LegacyEngine.RegisterDataObject | metstohandle.py:220-243 | case 1 edits only this section and keeps the flags and `version_pid` |
| LegacyEngine.Visit | metstohandle.py:106-278 | one dmdSec raises only script exceptions, edits only itself and undoes nothing |
| LegacyEngine.VisitLater | metstohandle.py:158-278 | the Version and DataObject tests edit only this section |
| LegacyEngine.Sections | metstohandle.py:106-278 | the loop raises only script exceptions and undoes nothing |
| LegacyEngine.SectionsStep | metstohandle.py:106 | one section further on: the visit either raises or hands its state on |
| LegacyEngine.SectionsDone | metstohandle.py:106 | past the last dmdSec nothing happens |
| LegacyEngine.Script | metstohandle.py:77-278 | the script raises only its own exceptions and sends only GETs, Work PUTs and DataObject PUTs under `dataobject_Uid`, never a Version PUT |
| LegacyProperties.LaterWorkSectionNotMinted | metstohandle.py:115-121 | once the Work flag is set, a later Work section only collects its handles: no UUID, no PUT, no edit |
| LegacyProperties.MintedCandidateRecorded | metstohandle.py:121-133 | with the flag clear and no handle, the upper-cased candidate joins the Work PIDs and one PUT goes out; the returned handle never joins the list |
| LegacyProperties.CreatedOnlyOn201 | metstohandle.py:137-153 | any status other than 201 leaves document and files unchanged |
| LegacyProperties.CreatedRecordsHandle | metstohandle.py:137-153 | a 201 reply puts the handle's identifier first and writes the document |
| LegacyProperties.WorkWritesOnlyOn201 | metstohandle.py:137-153 | a Work section edits or writes only on a 201 reply |
| LegacyProperties.ScanSkips | metstohandle.py:166-167 | identifiers without the handle label are passed over |
| LegacyProperties.ExistingVersionAdopted | metstohandle.py:161-174 | with one handle, `version_pid` is it, `dataObjectPids` the candidate then the fetched list, `uid` the prefix; one GET, no PUT |
| LegacyProperties.FreshVersionRaises | metstohandle.py:174-183 | with no handle ever, building the payload raises `AttributeError` before the PUT |
| LegacyProperties.VersionUidIsPrefix | metstohandle.py:170 | the script's `uid` is the handle prefix, while the record is fetched under the local name |
| LegacyProperties.DataObjectWithHandleSendsNothing | metstohandle.py:213-218 | a DataObject section with a handle sends nothing and changes nothing |
| LegacyProperties.FreshDataObjectCase | metstohandle.py:218-243 | case 1 sends exactly the DataObject PUT, or raises `NameError` with `version_pid` unbound; case 2 is not entered |
| LegacyProperties.KnownVersionDataObjectCase | metstohandle.py:245-250 | case 2 raises `AttributeError` building the Version payload, before any PUT |
| LegacyProperties.DataObjectPutOnlyInCaseOne | metstohandle.py:218-260 | a DataObject section sends at most one PUT, only when neither it nor an earlier Version had a handle |
| LegacyProperties.ScriptNeverRegistersVersion | metstohandle.py:179-183 | the script never sends a Version PUT |
| LegacyProperties.VersionScanSendsNoPut | metstohandle.py:163-171 | the identifier loop of a Version section adds no DataObject PUT |
| LegacyProperties.AdoptVersionSendsGet | metstohandle.py:167-171 | adopting a Version handle adds no DataObject PUT |
| LegacyProperties.WorkStepSendsNoDataObjectPut | metstohandle.py:106-153 | a Work section adds no DataObject PUT |
| LegacyProperties.VersionStepSetsFlag | metstohandle.py:158-206 | a Version section adds no PUT, and one that does not raise has set the Version flag |
| LegacyProperties.DataObjectStepSendsNothing | metstohandle.py:218-260 | while `version_pid` is bound only after a Version handle, a DataObject section sends nothing |
| LegacyProperties.VisitSendsNoDataObjectPut | metstohandle.py:106-278 | one dmdSec adds no DataObject PUT and keeps `version_pid` bound only after a Version handle |
| LegacyProperties.SectionsSendNoDataObjectPut | metstohandle.py:106-278 | the dmdSecs from any point on add no DataObject PUT |
| LegacyProperties.ScriptNeverRegistersDataObject | metstohandle.py:218-243 | case 1 never sends its DataObject PUT in a whole run: `version_pid` is bound only by a Version section, which raises or sets the Version flag |
| LegacyRun.ScriptRun.constructor | metstohandle.py:77-94 | the run starts in `LegacyEngine.Initial` |
| LegacyRun.ScriptRun.NewUuid | metstohandle.py:122 | the next fresh UUID, counted |
| LegacyRun.ScriptRun.Put | metstohandle.py:131 | the PUT as `LegacyEngine.Send` |
| LegacyRun.ScriptRun.RecordCreated | metstohandle.py:137-153 | leaves the run where `LegacyEngine.Created` does |
| LegacyRun.ScriptRun.WorkSection | metstohandle.py:110-153 | leaves the run where `LegacyEngine.WorkStep` does |
| LegacyRun.ScriptRun.MintWorkPid | metstohandle.py:121-153 | leaves the run where `LegacyEngine.MintWork` does |
| LegacyRun.ScriptRun.VersionSection | metstohandle.py:158-206 | leaves the run where `LegacyEngine.VersionStep` does |
| LegacyRun.ScriptRun.ScanVersionIdentifiers | metstohandle.py:166-171 | leaves the run where `LegacyEngine.VersionScan` does |
| LegacyRun.ScriptRun.AdoptHandle | metstohandle.py:167-171 | leaves the run where `LegacyEngine.AdoptVersion` does |
| LegacyRun.ScriptRun.DataObjectSection | metstohandle.py:211-278 | leaves the run where `LegacyEngine.DataObjectStep` does |
| LegacyRun.ScriptRun.RegisterDataObjectRecord | metstohandle.py:220-243 | leaves the run where `LegacyEngine.RegisterDataObject` does |
| LegacyRun.ScriptRun.VisitSection | metstohandle.py:106-278 | leaves the run where `LegacyEngine.Visit` does |
| LegacyRun.ScriptRun.Begin | metstohandle.py:99-278 | the candidate, then the loop, as `LegacyEngine.Begun` and `LegacyEngine.Sections` |
| LegacyRun.ScriptRun.VisitAll | metstohandle.py:106-278 | the dmdSec loop leaves the run where `LegacyEngine.Sections` does |
| LegacyRun.ScriptRun.VisitNext | metstohandle.py:106-278 | one turn of the loop keeps the remaining run's outcome unchanged |
| LegacyRun.RunScript | metstohandle.py:49-278 | the whole script ends where `LegacyEngine.Script` says |

## Left out

- HTTP (`requests.put`, the GET in `getDAtaObejctPidsFrom_Versionhandle`, `urlopen` in `getEnumFromType`) is an oracle. The enumerations and `vocab_map` it would fetch or load are parameters. helper.py, a single GET, is the same oracle.
- The payload builders are uninterpreted inside the two runs. The runs see only which record is sent under which UUID. The builders are modelled on their own, on sections abstracted to the values the getters read.
- The runs assume that every payload builds. A builder exception raised before the PUT (a cast name without ',' raising `IndexError`, a missing year or attribute) is not part of the runs, so EngineProperties.MintedWorkHandleReadBack, EngineProperties.MintedWorkRecorded, EngineProperties.FirstVersionRegistration, EngineProperties.FreshDataObject, EngineProperties.NewDataObjectOfRegisteredVersion, EngineProperties.DataObjectPutSent, EngineProperties.VersionReputSent, LegacyProperties.MintedCandidateRecorded and LegacyProperties.FreshDataObjectCase hold only for documents whose payloads build. The builders' own failures are modelled in the record modules. The one builder failure the runs do model is the earlier script's `.upper()` on a list, because it is decided by the argument's type alone.
- Title texts are strings. A missing title text is not represented.
- A dmdSec always has its `dc:identifier` children as read. The `AttributeError` of a missing child is not modelled.
- The Version builders' `has_agent` value is taken as arbitrary JSON. Through the misspelt tag in the source it is always `[]`.
- lxml parsing and serialisation, file writes, JSON dump files, credential files, logging, `cli_entry_point` and setup.py are not modelled. A write is a snapshot of the document appended to a log.
- The reply body of a PUT is assumed to be JSON. A reply without `handle` is modelled; a body that is not JSON is not.
- The reply's `handle` is not tied to the name in the PUT URL. The DataObject is PUT under its candidate's UUID and the hasPart elements name the candidate; in the model the returned handle may differ from the candidate, which a registry that creates the requested name would not do.
- `getCountries_of_reference` in the later Work builder asks the pycountry library. Its answer for a name is a parameter (`WorkRecord.CountryMatch`): an exact match by name, official name or historic name, a fuzzy match with its code, or none. pycountry's tables and fuzzy search are not modelled.
- Getters that only copy XML text are taken as given JSON that never raises: series, sources, source identifier and years in the Work builders; agents and sources in the Version builders.
- `getCredits` is not modelled in either Work builder; its value is taken as given JSON that never raises. It lower-cases each role and compares it to an enumeration, splits names on ',' (`name[1]` raises `IndexError` on a name without one), and keeps the last '/'-separated part of `contactId`; the earlier builder also capitalises the role. It is off by default in both builders.
- The handle scan reads every `ebucore:identifier` below the dmdSec, while a new identifier is inserted before the first `ebucore:identifier` child of `ebucore:coreMetadata`. The model keeps one identifier list, so it takes every identifier to sit directly under `coreMetadata`.
- `create_identifier_element` and the `.text`/`.tail` layout whitespace are modelled only as far as `strip()` reading a PID back.
- Characters are upper- and lower-cased in ASCII only; `str.upper()` and `str.lower()` on other letters are not modelled. `str.strip()` removes exactly the characters for which `str.isspace()` holds.
- A missing `typeLabel` read through `str()` is modelled as the text 'None'.
- WorkRecord.FormatFacet: the container-encoding test and the value read use two different paths in the source. They are taken to agree.
- EngineRun.ScanHandles: the Work identifier loop appends each handle to `cinematographic_work_pids` as it goes. The model appends the collected PIDs in one step, with the same result.
- The split of each builder method into parts of five getters, with `Then`/`Set` chains, is a proof device. Each part follows the source lines in order.
- DataObjectRecord.DescriptionTextRaisesIff: the three description getters have no return statement, so their text is never used. The model keeps only whether they raise.
- DataObjectRecord.Languages: `buildData_Object_Json` does not call `languages`. It is modelled on its own.
