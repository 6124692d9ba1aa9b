/** The earlier Version record builder, db_version_to_handle.py: a facet
    list like the Work builders', with five fixed title types and 'Other',
    the release date off by default, the production year on, and the
    DataObject PID upper-cased, so that a list of PIDs makes it raise. */
module LegacyVersionRecord {
  import opened Py
  import opened Text
  import opened Records
  import LegacyWorkRecord

  const VersionProfile := "21.T11148/ef6836b80e4d64e574e3"
  const SameAsPlaceholder := "21.T11148/ef19de26cec8cae78ceb"

  /** What the legacy getters read from a Version section: titles with their
      parents' `typeLabel`; `released`, the `year` of the released date, the
      outer `None` when there is no such element; `created`, the `startYear`
      of the created date, likewise; the object types' `typeLabel`s as `str()`
      prints them. Agents and sources contribute their `parsed_data` as given. */
  datatype Section = Section(
    titles: seq<Title>,
    released: Option<Option<string>>,
    created: Option<Option<string>>,
    objectTypes: seq<string>,
    agents: Json,
    sources: Json,
    dateLastModified: Option<string>,
    timeLastModified: Option<string>)

  /** The defaults of `buildVersionJson`. */
  const Defaults := VersionFlags(
    lastModified := true, sources := true, hasAgent := true, manifestationType := true,
    yearsOfReference := true, releaseDate := false, sameAs := true, title := false,
    dataObject := true, versionOf := true, identifier := true)

  const TitleTypes := ["Original Title", "Release Title", "Archive Title", "Alternative Title", "Sort Title"]

  const ManifestationTypes := ["Broadcast", "Home viewing publication", "Internet", "Theatrical distribution",
    "Unreleased", "Non-theatrical distribution", "Not for release", "Pre-Release",
    "Preservation/Restoration", "Unknown"]

  // ---------------------------------------------------------------------------
  // Getters

  /** `getIdentifier`: the upper-cased PID under type 'identifier' (its call
      in `buildVersionJson` is commented out). */
  function Identifier(pid: string): (r: Facet)
    ensures r.kind == "identifier" && r.data == Str(Upper(pid))
  {
    Facet("identifier", Str(Upper(pid)))
  }

  /** The identifier facet does not depend on the case of the PID. */
  lemma IdentifierIgnoresCase(pid: string)
    ensures Identifier(Upper(pid)) == Identifier(pid)
  {
    UpperIdempotent(pid);
  }

  /** `hasDataObject`: `[dataobjectpid.upper()]`. A list has no `upper`, so
      given the list of DataObject PIDs it raises `AttributeError`. */
  function HasDataObject(arg: Arg): (r: Result<Facet>)
    ensures r.Raised? <==> arg.List?
    ensures r.Raised? ==> r.error == AttributeError
    ensures arg.Text? ==> r == Ok(Facet("has_data_objects", Arr([Str(Upper(arg.s))])))
  {
    match arg
    case List(_) => Raised(AttributeError)
    case Text(s) =>
      assert Strs([Upper(s)]) == [Str(Upper(s))];
      Ok(Facet("has_data_objects", Arr(Strs([Upper(s)]))))
  }

  /** `titles`: every title is kept, with its type if it is one of the five
      fixed ones and 'Other' otherwise. */
  function TitleList(titles: seq<Title>): (r: seq<Json>)
    ensures |r| == |titles|
  {
    if titles == [] then []
    else
      var t := titles[|titles| - 1];
      TitleList(titles[..|titles| - 1]) + [TitleEntry(t.text, Clamp(t.typeLabel, TitleTypes, "Other"))]
  }

  /** One entry per title, in document order, each with the title's text. */
  lemma {:induction false} TitleListAt(titles: seq<Title>)
    ensures |TitleList(titles)| == |titles|
    ensures forall k :: 0 <= k < |titles| ==>
              TitleList(titles)[k] == TitleEntry(titles[k].text, Clamp(titles[k].typeLabel, TitleTypes, "Other"))
  {
    if titles != [] {
      var init := titles[..|titles| - 1];
      TitleListAt(init);
      assert forall k :: 0 <= k < |init| ==> titles[k] == init[k];
    }
  }

  /** Every title is kept with an allowed type or 'Other', and a fixed type
      passes unchanged. */
  lemma TitleListShape(titles: seq<Title>)
    ensures |TitleList(titles)| == |titles|
    ensures forall k :: 0 <= k < |titles| ==>
              exists tt :: TitleList(titles)[k] == TitleEntry(titles[k].text, tt) && (tt in TitleTypes || tt == "Other")
    ensures forall k :: 0 <= k < |titles| && titles[k].typeLabel in TitleTypes ==>
              TitleList(titles)[k] == TitleEntry(titles[k].text, titles[k].typeLabel)
  {
    TitleListAt(titles);
    forall k | 0 <= k < |titles|
      ensures exists tt :: TitleList(titles)[k] == TitleEntry(titles[k].text, tt) && (tt in TitleTypes || tt == "Other")
    {
      var tt := Clamp(titles[k].typeLabel, TitleTypes, "Other");
      assert TitleList(titles)[k] == TitleEntry(titles[k].text, tt);
    }
  }

  method CollectTitles(titles: seq<Title>) returns (entries: seq<Json>)
    ensures entries == TitleList(titles)
  {
    entries := [];
    var i := 0;
    while i < |titles|
      invariant 0 <= i <= |titles|
      invariant entries == TitleList(titles[..i])
    {
      assert titles[..i + 1][..i] == titles[..i];
      var t := titles[i];
      var titleType := if t.typeLabel in TitleTypes then t.typeLabel else "Other";
      entries := entries + [TitleEntry(t.text, titleType)];
      i := i + 1;
    }
    assert titles[..|titles|] == titles;
  }

  function TitleFacet(titles: seq<Title>): (r: Facet)
    ensures r.kind == "titles" && r.data.Arr? && |r.data.items| == |titles|
  {
    Facet("titles", Arr(TitleList(titles)))
  }

  /** `releaseDate`: the `year` of the released date; with no such element
      `None.get` raises `AttributeError`. */
  function ReleaseDate(released: Option<Option<string>>): (r: Result<Option<Facet>>)
    ensures r.Raised? <==> released.None?
    ensures r.Raised? ==> r.error == AttributeError
    ensures released.Some? ==> r == Ok(Some(Facet("release_date", JsonOf(released.value))))
  {
    match released
    case None => Raised(AttributeError)
    case Some(year) => Ok(Some(Facet("release_date", JsonOf(year))))
  }

  /** `getYears_of_reference`: the `startYear` under `production_year`, or
      `None`, dropped from the record, when there is no created date. */
  function YearsOfReference(created: Option<Option<string>>): (r: Option<Facet>)
    ensures r.None? <==> created.None?
    ensures r.Some? ==> r.value == Facet("production_year", JsonOf(created.value))
  {
    match created
    case None => None
    case Some(year) => Some(Facet("production_year", JsonOf(year)))
  }

  /** `getManifestationType`: each object type kept if it is one of the ten
      manifestation types, 'Unknown' otherwise. */
  function ManifestationFacet(labels: seq<string>): (r: Facet)
    ensures r.kind == "manifestation_types" && r.data.Arr? && |r.data.items| == |labels|
    ensures forall k :: 0 <= k < |labels| ==> r.data.items[k] == Str(Clamp(labels[k], ManifestationTypes, "Unknown"))
  {
    Facet("manifestation_types", Arr(Strs(ClampAll(labels, ManifestationTypes, "Unknown"))))
  }

  /** Every manifestation type in the record is one of the ten. */
  lemma ManifestationTypesAllowed(labels: seq<string>)
    ensures forall j :: 0 <= j < |ManifestationFacet(labels).data.items| ==>
              ManifestationFacet(labels).data.items[j].s in ManifestationTypes
  {
    var items := ManifestationFacet(labels).data.items;
    forall j | 0 <= j < |items|
      ensures items[j].s in ManifestationTypes
    {
      assert ManifestationTypes[9] == "Unknown";
    }
  }

  // ---------------------------------------------------------------------------
  // buildVersionJson

  /** is_version_of, has_data_objects, titles, same_as, release_date. */
  function Front(sec: Section, pidWorks: seq<string>, dataObjects: Arg, flags: VersionFlags): Result<seq<Facet>> {
    var r1 := Then(Ok([]), flags.versionOf, Ok(Some(Facet("is_version_of", Arr(Strs(pidWorks))))));
    var r2 := Then(r1, flags.dataObject, match HasDataObject(dataObjects) case Raised(e) => Raised(e) case Ok(f) => Ok(Some(f)));
    var r3 := Then(r2, flags.title, Ok(Some(TitleFacet(sec.titles))));
    var r4 := Then(r3, flags.sameAs, Ok(Some(Facet("same_as", Arr([Str(SameAsPlaceholder)])))));
    Then(r4, flags.releaseDate, ReleaseDate(sec.released))
  }

  /** production_year, manifestation_types, has_agent, source, last_modified. */
  function Back(acc: Result<seq<Facet>>, sec: Section, flags: VersionFlags): (r: Result<seq<Facet>>)
    ensures acc.Raised? ==> r == acc
  {
    var r6 := Then(acc, flags.yearsOfReference, Ok(YearsOfReference(sec.created)));
    var r7 := Then(r6, flags.manifestationType, Ok(Some(ManifestationFacet(sec.objectTypes))));
    var r8 := Then(r7, flags.hasAgent, Ok(Some(Facet("has_agent", sec.agents))));
    var r9 := Then(r8, flags.sources, Ok(Some(Facet("source", sec.sources))));
    Then(r9, flags.lastModified, LegacyWorkRecord.LastModifiedFacet(sec.dateLastModified, sec.timeLastModified))
  }

  /** `buildVersionJson(dmdsec, ns, pid_works, dataobject_pid, version_pid, …)`:
      the kept facets, then the profile. */
  function VersionJson(sec: Section, pidWorks: seq<string>, dataObjects: Arg, versionPid: string, flags: VersionFlags): (r: Result<seq<Facet>>)
    ensures r.Ok? ==> |r.value| >= 1 && r.value[|r.value| - 1] == Facet(ProfileKind, Str(VersionProfile))
  {
    Close(Back(Front(sec, pidWorks, dataObjects, flags), sec, flags), VersionProfile)
  }

  /** Given a list of DataObject PIDs, as the script passes it, the builder
      raises `AttributeError` whenever `has_data_objects` is enabled. */
  lemma ListArgumentRaises(sec: Section, pidWorks: seq<string>, pids: seq<string>, versionPid: string, flags: VersionFlags)
    requires flags.dataObject
    ensures VersionJson(sec, pidWorks, List(pids), versionPid, flags) == Raised(AttributeError)
  {
    var r1 := Then(Ok([]), flags.versionOf, Ok(Some(Facet("is_version_of", Arr(Strs(pidWorks))))));
    assert r1.Ok?;
  }

  /** The Work PIDs, when enabled, come first and unchanged. */
  lemma IsVersionOfFirst(sec: Section, pidWorks: seq<string>, dataObjects: Arg, versionPid: string, flags: VersionFlags)
    requires flags.versionOf && VersionJson(sec, pidWorks, dataObjects, versionPid, flags).Ok?
    ensures VersionJson(sec, pidWorks, dataObjects, versionPid, flags).value[0] == Facet("is_version_of", Arr(Strs(pidWorks)))
  {
    var f := Front(sec, pidWorks, dataObjects, flags);
    FrontStartsWithWorks(sec, pidWorks, dataObjects, flags);
    BackExtends(f, sec, flags);
  }

  lemma FrontStartsWithWorks(sec: Section, pidWorks: seq<string>, dataObjects: Arg, flags: VersionFlags)
    requires flags.versionOf && Front(sec, pidWorks, dataObjects, flags).Ok?
    ensures |Front(sec, pidWorks, dataObjects, flags).value| >= 1
    ensures Front(sec, pidWorks, dataObjects, flags).value[0] == Facet("is_version_of", Arr(Strs(pidWorks)))
  {
  }

  lemma BackExtends(acc: Result<seq<Facet>>, sec: Section, flags: VersionFlags)
    requires Back(acc, sec, flags).Ok?
    ensures acc.Ok? && acc.value <= Back(acc, sec, flags).value
  {
  }

  /** With the default flags the release date is not read, so a section
      without one does not raise, and the commented-out identifier line and
      the Version PID have no effect. */
  lemma ReleaseDateOffByDefault(sec: Section, pidWorks: seq<string>, dataObjects: Arg, versionPid: string,
                                versionPid': string, released: Option<Option<string>>, identifier: bool)
    ensures VersionJson(sec, pidWorks, dataObjects, versionPid, Defaults)
            == VersionJson(sec.(released := released), pidWorks, dataObjects, versionPid', Defaults.(identifier := identifier))
  {
  }

  /** With the default flags and a single DataObject PID the record is exactly
      the Work PIDs, the upper-cased DataObject PID, the placeholder, the
      production year if any, the manifestation types, agents, sources and
      the modification date, then the profile. */
  lemma DefaultRecord(sec: Section, pidWorks: seq<string>, pid: string, versionPid: string)
    requires LegacyWorkRecord.LastModifiedFacet(sec.dateLastModified, sec.timeLastModified).Ok?
    ensures var lm := LegacyWorkRecord.LastModifiedFacet(sec.dateLastModified, sec.timeLastModified).value.value;
            VersionJson(sec, pidWorks, Text(pid), versionPid, Defaults)
            == Ok([Facet("is_version_of", Arr(Strs(pidWorks))), Facet("has_data_objects", Arr([Str(Upper(pid))])),
                   Facet("same_as", Arr([Str(SameAsPlaceholder)]))]
                  + (if sec.created.Some? then [YearsOfReference(sec.created).value] else [])
                  + [ManifestationFacet(sec.objectTypes), Facet("has_agent", sec.agents), Facet("source", sec.sources), lm,
                     Facet(ProfileKind, Str(VersionProfile))])
  {
    DefaultFront(sec, pidWorks, pid);
    var lm := LegacyWorkRecord.LastModifiedFacet(sec.dateLastModified, sec.timeLastModified).value.value;
    var front := [Facet("is_version_of", Arr(Strs(pidWorks))), Facet("has_data_objects", Arr([Str(Upper(pid))])),
                  Facet("same_as", Arr([Str(SameAsPlaceholder)]))];
    DefaultBack(front, sec, lm);
    var years := if sec.created.Some? then [YearsOfReference(sec.created).value] else [];
    var tail := [ManifestationFacet(sec.objectTypes), Facet("has_agent", sec.agents), Facet("source", sec.sources), lm];
    var profile := Facet(ProfileKind, Str(VersionProfile));
    assert Back(Front(sec, pidWorks, Text(pid), Defaults), sec, Defaults) == Ok(front + years + tail);
    assert Close(Ok(front + years + tail), VersionProfile) == Ok(front + years + tail + [profile]);
    ProfileAfterFour(front + years, tail, profile);
  }

  lemma ProfileAfterFour(xs: seq<Facet>, tail: seq<Facet>, profile: Facet)
    requires |tail| == 4
    ensures xs + tail + [profile] == xs + [tail[0], tail[1], tail[2], tail[3], profile]
  {
    assert tail + [profile] == [tail[0], tail[1], tail[2], tail[3], profile];
    assert xs + tail + [profile] == xs + (tail + [profile]);
  }

  lemma DefaultFront(sec: Section, pidWorks: seq<string>, pid: string)
    ensures Front(sec, pidWorks, Text(pid), Defaults)
            == Ok([Facet("is_version_of", Arr(Strs(pidWorks))), Facet("has_data_objects", Arr([Str(Upper(pid))])),
                   Facet("same_as", Arr([Str(SameAsPlaceholder)]))])
  {
    var works := Facet("is_version_of", Arr(Strs(pidWorks)));
    var dobj := Facet("has_data_objects", Arr([Str(Upper(pid))]));
    var same := Facet("same_as", Arr([Str(SameAsPlaceholder)]));
    assert [] + [works] == [works] && [works] + [dobj] == [works, dobj] && [works, dobj] + [same] == [works, dobj, same];
  }

  lemma DefaultBack(acc: seq<Facet>, sec: Section, lm: Facet)
    requires LegacyWorkRecord.LastModifiedFacet(sec.dateLastModified, sec.timeLastModified) == Ok(Some(lm))
    ensures Back(Ok(acc), sec, Defaults)
            == Ok(acc + (if sec.created.Some? then [YearsOfReference(sec.created).value] else [])
                  + [ManifestationFacet(sec.objectTypes), Facet("has_agent", sec.agents), Facet("source", sec.sources), lm])
  {
    var years := if sec.created.Some? then [YearsOfReference(sec.created).value] else [];
    var r6 := Then(Ok(acc), true, Ok(YearsOfReference(sec.created)));
    assert acc + [] == acc;
    assert r6 == Ok(acc + years);
    var mf := ManifestationFacet(sec.objectTypes);
    var ag := Facet("has_agent", sec.agents);
    var src := Facet("source", sec.sources);
    var r7 := Then(r6, true, Ok(Some(mf)));
    var r8 := Then(r7, true, Ok(Some(ag)));
    var r9 := Then(r8, true, Ok(Some(src)));
    var r10 := Then(r9, true, Ok(Some(lm)));
    assert r10 == Ok(acc + years + [mf] + [ag] + [src] + [lm]);
    assert acc + years + [mf] + [ag] + [src] + [lm] == acc + years + [mf, ag, src, lm];
  }

  /** `buildVersionJson`, getter by getter. */
  method BuildVersionJson(sec: Section, pidWorks: seq<string>, dataObjects: Arg, versionPid: string, flags: VersionFlags)
    returns (r: Result<seq<Facet>>)
    ensures r == VersionJson(sec, pidWorks, dataObjects, versionPid, flags)
  {
    var values, failure := AppendFront(sec, pidWorks, dataObjects, flags);
    if failure.Some? {
      return Raised(failure.value);
    }
    values, failure := AppendBack(sec, flags, values);
    if failure.Some? {
      return Raised(failure.value);
    }
    PresentSnoc(values, Some(Facet(ProfileKind, Str(VersionProfile))));
    values := values + [Some(Facet(ProfileKind, Str(VersionProfile)))];
    var kept := KeepPresent(values);
    r := Ok(kept);
  }

  method AppendFront(sec: Section, pidWorks: seq<string>, dataObjects: Arg, flags: VersionFlags)
    returns (values: seq<Option<Facet>>, failure: Option<Exception>)
    ensures Agrees(Front(sec, pidWorks, dataObjects, flags), values, failure)
  {
    values, failure := [], None;
    ghost var acc: Result<seq<Facet>> := Ok([]);
    var works := Facet("is_version_of", Arr(Strs(pidWorks)));
    if flags.versionOf {
      ThenKeepsPresent(values, true, Ok(Some(works)));
      values := values + [Some(works)];
    }
    acc := Then(acc, flags.versionOf, Ok(Some(works)));
    assert acc == Ok(Present(values));
    if flags.dataObject {
      match dataObjects
      case List(_) =>
        return values, Some(AttributeError);
      case Text(s) =>
        var f := Facet("has_data_objects", Arr(Strs([Upper(s)])));
        ThenKeepsPresent(values, true, Ok(Some(f)));
        values := values + [Some(f)];
    }
    acc := Then(acc, flags.dataObject, match HasDataObject(dataObjects) case Raised(e) => Raised(e) case Ok(f) => Ok(Some(f)));
    assert acc == Ok(Present(values));
    if flags.title {
      var entries := CollectTitles(sec.titles);
      ThenKeepsPresent(values, true, Ok(Some(TitleFacet(sec.titles))));
      values := values + [Some(Facet("titles", Arr(entries)))];
    }
    acc := Then(acc, flags.title, Ok(Some(TitleFacet(sec.titles))));
    assert acc == Ok(Present(values));
    var same := Facet("same_as", Arr([Str(SameAsPlaceholder)]));
    if flags.sameAs {
      ThenKeepsPresent(values, true, Ok(Some(same)));
      values := values + [Some(same)];
    }
    acc := Then(acc, flags.sameAs, Ok(Some(same)));
    assert acc == Ok(Present(values));
    if flags.releaseDate {
      var got := ReleaseDate(sec.released);
      if got.Raised? {
        return values, Some(got.error);
      }
      ThenKeepsPresent(values, true, got);
      values := values + [got.value];
    }
  }

  method AppendBack(sec: Section, flags: VersionFlags, values0: seq<Option<Facet>>)
    returns (values: seq<Option<Facet>>, failure: Option<Exception>)
    ensures Agrees(Back(Ok(Present(values0)), sec, flags), values, failure)
  {
    values, failure := values0, None;
    ghost var acc: Result<seq<Facet>> := Ok(Present(values));
    if flags.yearsOfReference {
      ThenKeepsPresent(values, true, Ok(YearsOfReference(sec.created)));
      values := values + [YearsOfReference(sec.created)];
    }
    acc := Then(acc, flags.yearsOfReference, Ok(YearsOfReference(sec.created)));
    assert acc == Ok(Present(values));
    if flags.manifestationType {
      var types := ClampLabels(sec.objectTypes, ManifestationTypes, "Unknown");
      ThenKeepsPresent(values, true, Ok(Some(ManifestationFacet(sec.objectTypes))));
      values := values + [Some(Facet("manifestation_types", Arr(Strs(types))))];
    }
    acc := Then(acc, flags.manifestationType, Ok(Some(ManifestationFacet(sec.objectTypes))));
    assert acc == Ok(Present(values));
    if flags.hasAgent {
      ThenKeepsPresent(values, true, Ok(Some(Facet("has_agent", sec.agents))));
      values := values + [Some(Facet("has_agent", sec.agents))];
    }
    acc := Then(acc, flags.hasAgent, Ok(Some(Facet("has_agent", sec.agents))));
    assert acc == Ok(Present(values));
    if flags.sources {
      ThenKeepsPresent(values, true, Ok(Some(Facet("source", sec.sources))));
      values := values + [Some(Facet("source", sec.sources))];
    }
    acc := Then(acc, flags.sources, Ok(Some(Facet("source", sec.sources))));
    assert acc == Ok(Present(values));
    if flags.lastModified {
      var got := LegacyWorkRecord.LastModifiedFacet(sec.dateLastModified, sec.timeLastModified);
      if got.Raised? {
        return values, Some(got.error);
      }
      ThenKeepsPresent(values, true, got);
      values := values + [got.value];
    }
  }
}
