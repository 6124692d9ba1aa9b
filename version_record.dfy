/** The Version record builder of mets2handle/db_version_to_handle.py. Unlike
    the Work builder it fills a dict key by key, one key per enabled getter
    in a fixed order, with no profile entry and no `None` filtering. */
module VersionRecord {
  import opened Py
  import opened Text
  import opened Records
  import Dates

  /** The dict `build_version_json` returns, as its (key, value) pairs in
      insertion order; every key is set at most once. */
  type Entries = seq<(string, Json)>

  /** What the getters read from a Version section. `released` is the `year`
      of the first released date: the outer `None` when there is no such
      element, the inner one when it has no `year`. `objectTypes` are the
      `typeLabel`s of the object types. Agents and sources contribute their
      values as given. */
  datatype Section = Section(
    titles: seq<Title>,
    released: Option<Option<string>>,
    objectTypes: seq<Option<string>>,
    agents: Json,
    sources: Json,
    dateLastModified: Option<string>,
    timeLastModified: Option<string>)

  /** `helpers.vocab_map` and the title-type and manifestation-type enumerations. */
  datatype Enums = Enums(vocab: map<string, string>, titleTypes: seq<string>, manifestationTypes: seq<string>)

  /** The defaults of `build_version_json`. */
  const Defaults := VersionFlags(
    lastModified := true, sources := true, hasAgent := true, manifestationType := true,
    yearsOfReference := true, releaseDate := true, sameAs := true, title := false,
    dataObject := true, versionOf := true, identifier := true)

  const SameAsPlaceholder := "21.T11148/ef19de26cec8cae78ceb"

  // ---------------------------------------------------------------------------
  // Getters

  /** `get_identifier_version`: the uppercased PID under type 'identifier'. */
  function IdentifierEntry(pid: string): (r: Facet)
    ensures r.kind == "identifier" && r.data.Str? && r.data.s == Upper(pid)
  {
    Facet("identifier", Str(Upper(pid)))
  }

  /** The identifier entry does not depend on the case of the PID it is given. */
  lemma IdentifierIgnoresCase(pid: string)
    ensures IdentifierEntry(Upper(pid)) == IdentifierEntry(pid)
  {
    UpperIdempotent(pid);
  }

  /** `get_has_data_object`: the loop rebinds its variable only, so a list
      comes back unchanged (not upper-cased); anything else is wrapped. */
  function HasDataObjects(arg: Arg): (r: seq<string>)
    ensures arg.List? ==> r == arg.items
    ensures arg.Text? ==> r == [arg.s]
  {
    match arg
    case List(items) => items
    case Text(s) => [s]
  }

  /** `get_release_date`: a four-character year completed to 1 January, any
      other text kept; no released element gives '1000-01-01'; a released
      element without `year` makes `len(None)` raise `TypeError`. */
  function ReleaseDate(released: Option<Option<string>>): (r: Result<string>)
    ensures released.None? ==> r == Ok("1000-01-01")
    ensures r.Raised? <==> released == Some(None)
    ensures released.Some? && released.value.Some? && |released.value.value| == 4 ==> r == Ok(released.value.value + "-01-01")
    ensures released.Some? && released.value.Some? && |released.value.value| != 4 ==> r == Ok(released.value.value)
  {
    var year := match released
      case None => Some("1000")
      case Some(y) => y;
    assert "1000" + "-01-01" == "1000-01-01";
    match year
    case None => Raised(TypeError)
    case Some(y) => Ok(if |y| == 4 then y + "-01-01" else y)
  }

  /** Completion happens at most once: a completed date is left as it is. */
  lemma ReleaseDateSettles(released: Option<Option<string>>)
    requires ReleaseDate(released).Ok?
    ensures ReleaseDate(Some(Some(ReleaseDate(released).value))) == ReleaseDate(released)
  {
  }

  /** `get_manifestation_type`: one entry per object type, its label if it is
      in the enumeration, otherwise 'Unknown'. A missing label is not in the
      enumeration, and logging it concatenates `None` to a `str`: `TypeError`. */
  function ManifestationTypes(labels: seq<Option<string>>, enum: seq<string>): (r: Result<seq<string>>)
    ensures r.Ok? <==> forall k :: 0 <= k < |labels| ==> labels[k].Some?
    ensures r.Raised? ==> r.error == TypeError
    ensures r.Ok? ==> |r.value| == |labels|
    ensures r.Ok? ==> forall k :: 0 <= k < |labels| ==> r.value[k] == Clamp(labels[k].value, enum, "Unknown")
  {
    if labels == [] then Ok([])
    else
      var n := |labels| - 1;
      var init := ManifestationTypes(labels[..n], enum);
      if init.Raised? then init
      else match labels[n]
        case None => Raised(TypeError)
        case Some(lab) => Ok(init.value + [Clamp(lab, enum, "Unknown")])
  }

  /** Every manifestation type in the record is an enumeration value or 'Unknown'. */
  lemma ManifestationTypesInRange(labels: seq<Option<string>>, enum: seq<string>)
    requires ManifestationTypes(labels, enum).Ok?
    ensures forall t :: t in ManifestationTypes(labels, enum).value ==> t in enum || t == "Unknown"
  {
    var r := ManifestationTypes(labels, enum).value;
    forall t | t in r
      ensures t in enum || t == "Unknown"
    {
      var k :| 0 <= k < |r| && r[k] == t;
    }
  }

  method CollectManifestationTypes(labels: seq<Option<string>>, enum: seq<string>) returns (r: Result<seq<string>>)
    ensures r == ManifestationTypes(labels, enum)
  {
    var types: seq<string> := [];
    var i := 0;
    while i < |labels|
      invariant 0 <= i <= |labels|
      invariant ManifestationTypes(labels[..i], enum) == Ok(types)
    {
      assert labels[..i + 1][..i] == labels[..i];
      match labels[i]
      case None =>
        assert ManifestationTypes(labels[..i + 1], enum).Raised?;
        assert ManifestationTypes(labels, enum).Raised? by {
          assert labels[..i + 1][i] == labels[i];
        }
        return Raised(TypeError);
      case Some(lab) =>
        if lab in enum {
          types := types + [lab];
        } else {
          types := types + ["Unknown"];
        }
      i := i + 1;
    }
    assert labels[..|labels|] == labels;
    r := Ok(types);
  }

  /** `get_last_modified`: the date before its first 'Z', a space, the time before its first 'Z'. */
  function LastModified(date: string, time: string): (r: string)
    ensures 'Z' !in r
    ensures 'Z' !in date && 'Z' !in time ==> r == date + " " + time
  {
    BeforeIsFirstSegment(date, 'Z');
    BeforeIsFirstSegment(time, 'Z');
    Before(date, 'Z') + " " + Before(time, 'Z')
  }

  /** The getter as it reads the two attributes: a missing one (or a missing
      `ebuCoreMain`) raises `AttributeError` at its `.split`. */
  function LastModifiedJson(date: Option<string>, time: Option<string>): (r: Result<Json>)
    ensures r.Raised? <==> date.None? || time.None?
    ensures r.Raised? ==> r.error == AttributeError
    ensures r.Ok? ==> r.value == Str(LastModified(date.value, time.value))
  {
    if date.None? || time.None? then Raised(AttributeError) else Ok(Str(LastModified(date.value, time.value)))
  }

  /** The UTC designators are dropped and nothing else changes. */
  lemma LastModifiedDropsZone(date: string, time: string)
    requires 'Z' !in date && 'Z' !in time
    ensures LastModified(date + "Z", time + "Z") == date + " " + time
    ensures LastModified(date, time) == date + " " + time
  {
    Dates.BeforeOfPrefix(date, "Z", 'Z');
    Dates.BeforeOfPrefix(time, "Z", 'Z');
    Dates.BeforeOfPrefix(date, [], 'Z');
    Dates.BeforeOfPrefix(time, [], 'Z');
    assert date + [] == date && time + [] == time;
  }

  // ---------------------------------------------------------------------------
  // build_version_json

  /** One line `if flag: values[key] = getter(...)`: skipped when the flag is
      off, the getter's exception ending the build. */
  function Set(acc: Result<Entries>, on: bool, key: string, got: Result<Json>): (r: Result<Entries>)
    ensures acc.Raised? || !on ==> r == acc
    ensures r.Raised? <==> acc.Raised? || (on && got.Raised?)
  {
    if acc.Raised? || !on then acc
    else match got
      case Raised(e) => Raised(e)
      case Ok(v) => Ok(acc.value + [(key, v)])
  }

  function ReleaseDateJson(released: Option<Option<string>>): Result<Json> {
    match ReleaseDate(released)
    case Raised(e) => Raised(e)
    case Ok(d) => Ok(Str(d))
  }

  function ManifestationJson(labels: seq<Option<string>>, enum: seq<string>): Result<Json> {
    match ManifestationTypes(labels, enum)
    case Raised(e) => Raised(e)
    case Ok(types) => Ok(Arr(Strs(types)))
  }

  /** The first five keys: is_version_of, same_as, has_data_objects, title, release_date. */
  function Front(sec: Section, enums: Enums, pidWorks: seq<string>, dataObjects: Arg, flags: VersionFlags): Result<Entries> {
    var r1 := Set(Ok([]), flags.versionOf, "is_version_of", Ok(Arr(Strs(pidWorks))));
    var r2 := Set(r1, flags.sameAs, "same_as", Ok(Arr([Str(SameAsPlaceholder)])));
    var r3 := Set(r2, flags.dataObject, "has_data_objects", Ok(Arr(Strs(HasDataObjects(dataObjects)))));
    var r4 := Set(r3, flags.title, "title", Ok(Arr(TitleEntries(sec.titles, enums.vocab, enums.titleTypes))));
    Set(r4, flags.releaseDate, "release_date", ReleaseDateJson(sec.released))
  }

  /** The last four: manifestation_types, has_agent, source, last_modified. */
  function Back(acc: Result<Entries>, sec: Section, enums: Enums, flags: VersionFlags): (r: Result<Entries>)
    ensures acc.Raised? ==> r == acc
  {
    var r6 := Set(acc, flags.manifestationType, "manifestation_types", ManifestationJson(sec.objectTypes, enums.manifestationTypes));
    var r7 := Set(r6, flags.hasAgent, "has_agent", Ok(sec.agents));
    var r8 := Set(r7, flags.sources, "source", Ok(sec.sources));
    Set(r8, flags.lastModified, "last_modified", LastModifiedJson(sec.dateLastModified, sec.timeLastModified))
  }

  /** `build_version_json(dmdsec, ns, pid_works, dataobject_pid, version_pid, …)` */
  function VersionJson(sec: Section, enums: Enums, pidWorks: seq<string>, dataObjects: Arg, versionPid: string, flags: VersionFlags): (r: Result<Entries>)
    ensures r.Raised? <==>
              (flags.releaseDate && ReleaseDate(sec.released).Raised?)
              || (flags.manifestationType && ManifestationTypes(sec.objectTypes, enums.manifestationTypes).Raised?)
              || (flags.lastModified && (sec.dateLastModified.None? || sec.timeLastModified.None?))
  {
    Back(Front(sec, enums, pidWorks, dataObjects, flags), sec, enums, flags)
  }

  function Keys(entries: Entries): (r: seq<string>)
    ensures |r| == |entries| && forall k :: 0 <= k < |entries| ==> r[k] == entries[k].0
  {
    seq(|entries|, k requires 0 <= k < |entries| => entries[k].0)
  }

  /** The keys of the enabled getters, in order. */
  function EnabledKeys(flags: VersionFlags): seq<string> {
    FrontKeys(flags) + BackKeys(flags)
  }

  function FrontKeys(flags: VersionFlags): seq<string> {
    (if flags.versionOf then ["is_version_of"] else [])
    + (if flags.sameAs then ["same_as"] else [])
    + (if flags.dataObject then ["has_data_objects"] else [])
    + (if flags.title then ["title"] else [])
    + (if flags.releaseDate then ["release_date"] else [])
  }

  function BackKeys(flags: VersionFlags): seq<string> {
    (if flags.manifestationType then ["manifestation_types"] else [])
    + (if flags.hasAgent then ["has_agent"] else [])
    + (if flags.sources then ["source"] else [])
    + (if flags.lastModified then ["last_modified"] else [])
  }

  lemma SetKeys(acc: Result<Entries>, on: bool, key: string, got: Result<Json>)
    requires Set(acc, on, key, got).Ok?
    ensures acc.Ok? && Keys(Set(acc, on, key, got).value) == Keys(acc.value) + (if on then [key] else [])
  {
  }

  lemma FrontKeysHold(sec: Section, enums: Enums, pidWorks: seq<string>, dataObjects: Arg, flags: VersionFlags)
    requires Front(sec, enums, pidWorks, dataObjects, flags).Ok?
    ensures Keys(Front(sec, enums, pidWorks, dataObjects, flags).value) == FrontKeys(flags)
  {
    var r1 := Set(Ok([]), flags.versionOf, "is_version_of", Ok(Arr(Strs(pidWorks))));
    var r2 := Set(r1, flags.sameAs, "same_as", Ok(Arr([Str(SameAsPlaceholder)])));
    var r3 := Set(r2, flags.dataObject, "has_data_objects", Ok(Arr(Strs(HasDataObjects(dataObjects)))));
    var r4 := Set(r3, flags.title, "title", Ok(Arr(TitleEntries(sec.titles, enums.vocab, enums.titleTypes))));
    SetKeys(r4, flags.releaseDate, "release_date", ReleaseDateJson(sec.released));
    SetKeys(r3, flags.title, "title", Ok(Arr(TitleEntries(sec.titles, enums.vocab, enums.titleTypes))));
    SetKeys(r2, flags.dataObject, "has_data_objects", Ok(Arr(Strs(HasDataObjects(dataObjects)))));
    SetKeys(r1, flags.sameAs, "same_as", Ok(Arr([Str(SameAsPlaceholder)])));
    SetKeys(Ok([]), flags.versionOf, "is_version_of", Ok(Arr(Strs(pidWorks))));
    var k1 := if flags.versionOf then ["is_version_of"] else [];
    assert Keys(r1.value) == Keys([]) + k1 == k1;
  }

  lemma BackKeysHold(acc: Result<Entries>, sec: Section, enums: Enums, flags: VersionFlags)
    requires Back(acc, sec, enums, flags).Ok?
    ensures acc.Ok? && Keys(Back(acc, sec, enums, flags).value) == Keys(acc.value) + BackKeys(flags)
  {
    var r6 := Set(acc, flags.manifestationType, "manifestation_types", ManifestationJson(sec.objectTypes, enums.manifestationTypes));
    var r7 := Set(r6, flags.hasAgent, "has_agent", Ok(sec.agents));
    var r8 := Set(r7, flags.sources, "source", Ok(sec.sources));
    SetKeys(r8, flags.lastModified, "last_modified", LastModifiedJson(sec.dateLastModified, sec.timeLastModified));
    SetKeys(r7, flags.sources, "source", Ok(sec.sources));
    SetKeys(r6, flags.hasAgent, "has_agent", Ok(sec.agents));
    SetKeys(acc, flags.manifestationType, "manifestation_types", ManifestationJson(sec.objectTypes, enums.manifestationTypes));
  }

  /** The dict has a key exactly for each enabled getter, in the order the
      getters are called. */
  lemma KeysAreEnabledKeys(sec: Section, enums: Enums, pidWorks: seq<string>, dataObjects: Arg, versionPid: string, flags: VersionFlags)
    requires VersionJson(sec, enums, pidWorks, dataObjects, versionPid, flags).Ok?
    ensures Keys(VersionJson(sec, enums, pidWorks, dataObjects, versionPid, flags).value) == EnabledKeys(flags)
  {
    var f := Front(sec, enums, pidWorks, dataObjects, flags);
    BackKeysHold(f, sec, enums, flags);
    FrontKeysHold(sec, enums, pidWorks, dataObjects, flags);
  }

  /** With the default flags there is no 'title' key. */
  lemma TitleOffByDefault(sec: Section, enums: Enums, pidWorks: seq<string>, dataObjects: Arg, versionPid: string)
    requires VersionJson(sec, enums, pidWorks, dataObjects, versionPid, Defaults).Ok?
    ensures "title" !in Keys(VersionJson(sec, enums, pidWorks, dataObjects, versionPid, Defaults).value)
  {
    KeysAreEnabledKeys(sec, enums, pidWorks, dataObjects, versionPid, Defaults);
  }

  /** `is_version_of`, when enabled, is the first entry and holds the Work PIDs unchanged. */
  lemma IsVersionOfFirst(sec: Section, enums: Enums, pidWorks: seq<string>, dataObjects: Arg, versionPid: string, flags: VersionFlags)
    requires flags.versionOf && VersionJson(sec, enums, pidWorks, dataObjects, versionPid, flags).Ok?
    ensures var r := VersionJson(sec, enums, pidWorks, dataObjects, versionPid, flags).value;
            |r| >= 1 && r[0] == ("is_version_of", Arr(Strs(pidWorks)))
  {
    KeysAreEnabledKeys(sec, enums, pidWorks, dataObjects, versionPid, flags);
    var r1 := Set(Ok([]), flags.versionOf, "is_version_of", Ok(Arr(Strs(pidWorks))));
    assert [] + [("is_version_of", Arr(Strs(pidWorks)))] == [("is_version_of", Arr(Strs(pidWorks)))];
    var f := Front(sec, enums, pidWorks, dataObjects, flags);
    FrontExtends(sec, enums, pidWorks, dataObjects, flags);
    BackExtends(f, sec, enums, flags);
  }

  lemma FrontExtends(sec: Section, enums: Enums, pidWorks: seq<string>, dataObjects: Arg, flags: VersionFlags)
    requires flags.versionOf && Front(sec, enums, pidWorks, dataObjects, flags).Ok?
    ensures [("is_version_of", Arr(Strs(pidWorks)))] <= Front(sec, enums, pidWorks, dataObjects, flags).value
  {
  }

  lemma BackExtends(acc: Result<Entries>, sec: Section, enums: Enums, flags: VersionFlags)
    requires Back(acc, sec, enums, flags).Ok?
    ensures acc.Ok? && acc.value <= Back(acc, sec, enums, flags).value
  {
  }

  /** The `production_year` line is commented out: `YearsofReference`, the
      `identifier` flag and the Version PID have no effect. */
  lemma UnusedParametersHaveNoEffect(sec: Section, enums: Enums, pidWorks: seq<string>, dataObjects: Arg,
                                     versionPid: string, versionPid': string, flags: VersionFlags, years: bool, identifier: bool)
    ensures VersionJson(sec, enums, pidWorks, dataObjects, versionPid, flags)
            == VersionJson(sec, enums, pidWorks, dataObjects, versionPid', flags.(yearsOfReference := years, identifier := identifier))
  {
  }

  /** `build_version_json`, key by key. */
  method BuildVersionJson(sec: Section, enums: Enums, pidWorks: seq<string>, dataObjects: Arg, versionPid: string, flags: VersionFlags)
    returns (r: Result<Entries>)
    ensures r == VersionJson(sec, enums, pidWorks, dataObjects, versionPid, flags)
  {
    var values, failure := SetFront(sec, enums, pidWorks, dataObjects, flags);
    if failure.Some? {
      return Raised(failure.value);
    }
    ghost var acc: Result<Entries> := Ok(values);
    if flags.manifestationType {
      var types := CollectManifestationTypes(sec.objectTypes, enums.manifestationTypes);
      if types.Raised? {
        return Raised(types.error);
      }
      values := values + [("manifestation_types", Arr(Strs(types.value)))];
    }
    acc := Set(acc, flags.manifestationType, "manifestation_types", ManifestationJson(sec.objectTypes, enums.manifestationTypes));
    assert acc == Ok(values);
    if flags.hasAgent {
      values := values + [("has_agent", sec.agents)];
    }
    if flags.sources {
      values := values + [("source", sec.sources)];
    }
    if flags.lastModified {
      if sec.dateLastModified.None? || sec.timeLastModified.None? {
        return Raised(AttributeError);
      }
      values := values + [("last_modified", Str(LastModified(sec.dateLastModified.value, sec.timeLastModified.value)))];
    }
    r := Ok(values);
  }

  method SetFront(sec: Section, enums: Enums, pidWorks: seq<string>, dataObjects: Arg, flags: VersionFlags)
    returns (values: Entries, failure: Option<Exception>)
    ensures failure.Some? ==> Front(sec, enums, pidWorks, dataObjects, flags) == Raised(failure.value)
    ensures failure.None? ==> Front(sec, enums, pidWorks, dataObjects, flags) == Ok(values)
  {
    values, failure := [], None;
    if flags.versionOf {
      values := values + [("is_version_of", Arr(Strs(pidWorks)))];
    }
    if flags.sameAs {
      values := values + [("same_as", Arr([Str(SameAsPlaceholder)]))];
    }
    if flags.dataObject {
      values := values + [("has_data_objects", Arr(Strs(HasDataObjects(dataObjects))))];
    }
    if flags.title {
      var entries := MapTitles(sec.titles, enums.vocab, enums.titleTypes);
      values := values + [("title", Arr(entries))];
    }
    ghost var acc := Ok(values);
    assert acc == Set(Set(Set(Set(Ok([]), flags.versionOf, "is_version_of", Ok(Arr(Strs(pidWorks)))),
                                  flags.sameAs, "same_as", Ok(Arr([Str(SameAsPlaceholder)]))),
                              flags.dataObject, "has_data_objects", Ok(Arr(Strs(HasDataObjects(dataObjects))))),
                          flags.title, "title", Ok(Arr(TitleEntries(sec.titles, enums.vocab, enums.titleTypes))));
    if flags.releaseDate {
      var date := ReleaseDate(sec.released);
      if date.Raised? {
        return values, Some(date.error);
      }
      values := values + [("release_date", Str(date.value))];
    }
  }
}
