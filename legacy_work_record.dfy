/** The earlier Work record builder, db_works_tohandle.py: the same getter
    order and flags as the later one, but five fixed title types, capitalised
    genre names without vocabulary mapping, four getters that always return
    `None`, and snake-case facet types. `getIdentifier` and `getCast` are the
    same code as in the later builder (WorkRecord.Identifier, Records.Cast). */
module LegacyWorkRecord {
  import opened Py
  import opened Text
  import opened Records
  import opened Dates

  const WorkProfile := "21.T11148/31b848e871121c47d064"

  /** What the legacy getters read from a Work section: titles with their
      parents' `typeLabel` as `str()` prints it, each genre's `typeLabel`
      attribute, the contributors, the two modification attributes and, per
      `ebucore:location`, its `ebucore:name` child (`None` when it has none)
      and that child's text (`None` when empty). Getters outside this model (series, credits, sources,
      source identifier, years) contribute their `parsed_data` as given. */
  datatype Section = Section(
    titles: seq<Title>,
    genres: seq<Option<string>>,
    contributors: seq<Contributor>,
    dateLastModified: Option<string>,
    timeLastModified: Option<string>,
    locations: seq<Option<Option<string>>>,
    series: Json, credits: Json, sources: Json, sourceIdentifier: Json, years: Json)

  /** The defaults of the legacy `buildWorkJson`: as the later builder's, but `original_language` on. */
  const Defaults := WorkFlags(
    handleId := true, title := true, series := false, credit := false, cast := true,
    originalDuration := true, source := true, sourceIdentifier := false, lastModified := true,
    productionCompanies := true, countriesOfReference := true, originalLanguage := true,
    yearsOfReference := true, relatedIdentifier := true, originalFormat := true, genre := true)

  // ---------------------------------------------------------------------------
  // Titles

  const TitleTypes := ["originaltitle", "releasetitle", "archivetitle", "alternativetitle", "sorttitle"]

  predicate Kept(t: Title) {
    Lower(t.typeLabel) in TitleTypes
  }

  /** `titletype[0].capitalize() + titletype[1:]`: only the first character changes. */
  function TitleType(lab: string): (r: string)
    requires lab != []
    ensures |r| == |lab| && r[0] == UpperChar(lab[0]) && r[1..] == lab[1..]
  {
    [UpperChar(lab[0])] + lab[1..]
  }

  /** The type the legacy builder emits names the same title type as the
      label it read: lower-casing both gives the same allowed type. */
  lemma TitleTypeSameType(t: Title)
    requires Kept(t)
    ensures Lower(TitleType(t.typeLabel)) == Lower(t.typeLabel) && Lower(TitleType(t.typeLabel)) in TitleTypes
  {
    var lab := t.typeLabel;
    assert forall x :: x in TitleTypes ==> x != [];
    assert lab != [];
    var r := TitleType(lab);
    assert LowerChar(UpperChar(lab[0])) == LowerChar(lab[0]);
    forall i | 0 <= i < |lab|
      ensures Lower(r)[i] == Lower(lab)[i]
    {
      if i > 0 {
        assert r[i] == r[1..][i - 1] == lab[1..][i - 1] == lab[i];
      }
    }
  }

  /** The title list: one entry per title whose label, lower-cased, is one
      of the five types, in document order. */
  function TitleEntries(titles: seq<Title>): (r: seq<Json>)
    ensures |r| <= |titles|
  {
    if titles == [] then []
    else
      var t := titles[|titles| - 1];
      TitleEntries(titles[..|titles| - 1])
      + (if Kept(t) then [TitleEntry(t.text, TitleType(t.typeLabel))] else [])
  }

  /** Titles contribute their entries in document order. */
  lemma {:induction false} TitleEntriesAppend(xs: seq<Title>, ys: seq<Title>)
    ensures TitleEntries(xs + ys) == TitleEntries(xs) + TitleEntries(ys)
    decreases |ys|
  {
    if ys != [] {
      var ys' := ys[..|ys| - 1];
      assert (xs + ys)[..|xs + ys| - 1] == xs + ys';
      assert (xs + ys)[|xs + ys| - 1] == ys[|ys| - 1];
      TitleEntriesAppend(xs, ys');
    } else {
      assert xs + ys == xs;
    }
  }

  /** A title with one of the five types yields exactly one entry, in its
      place; any other title yields none. */
  lemma TitleKeptOrDropped(xs: seq<Title>, t: Title, ys: seq<Title>)
    ensures TitleEntries(xs + [t] + ys)
            == TitleEntries(xs) + (if Kept(t) then [TitleEntry(t.text, TitleType(t.typeLabel))] else []) + TitleEntries(ys)
  {
    TitleEntriesAppend(xs + [t], ys);
    TitleEntriesAppend(xs, [t]);
    assert TitleEntries([t]) == TitleEntries([]) + (if Kept(t) then [TitleEntry(t.text, TitleType(t.typeLabel))] else []);
  }

  method CollectTitles(titles: seq<Title>) returns (entries: seq<Json>)
    ensures entries == TitleEntries(titles)
  {
    entries := [];
    var i := 0;
    while i < |titles|
      invariant 0 <= i <= |titles|
      invariant entries == TitleEntries(titles[..i])
    {
      assert titles[..i + 1][..i] == titles[..i];
      var t := titles[i];
      if Kept(t) {
        entries := entries + [TitleEntry(t.text, TitleType(t.typeLabel))];
      } else {
        assert entries + [] == entries;
      }
      i := i + 1;
    }
    assert titles[..|titles|] == titles;
  }

  // ---------------------------------------------------------------------------
  // Genres

  /** One genre's name: 'nonFiction' spelled 'Non-fiction', then `str(...).capitalize()`. */
  function GenreName(lab: Option<string>): (r: string)
    ensures |r| == (if lab == Some("nonFiction") then |"Non-fiction"| else |PyStr(lab)|)
    ensures lab != Some("nonFiction") && PyStr(lab) != [] ==>
              r[0] == UpperChar(PyStr(lab)[0]) && r[1..] == Lower(PyStr(lab)[1..])
  {
    Capitalize(if lab == Some("nonFiction") then "Non-fiction" else PyStr(lab))
  }

  lemma NonFictionName()
    ensures GenreName(Some("nonFiction")) == "Non-fiction"
  {
    var s := "Non-fiction";
    LowerOfLower(s[1..]);
    assert [UpperChar(s[0])] + s[1..] == s;
  }

  /** Every emitted genre name is already capitalised. */
  lemma GenreNameCapitalised(lab: Option<string>)
    ensures Capitalize(GenreName(lab)) == GenreName(lab)
  {
    CapitalizeIdempotent(if lab == Some("nonFiction") then "Non-fiction" else PyStr(lab));
  }

  /** One entry per genre element, in order. */
  function GenreNames(labels: seq<Option<string>>): (r: seq<string>)
    ensures |r| == |labels| && forall k :: 0 <= k < |labels| ==> r[k] == GenreName(labels[k])
  {
    seq(|labels|, k requires 0 <= k < |labels| => GenreName(labels[k]))
  }

  method CollectGenres(labels: seq<Option<string>>) returns (names: seq<string>)
    ensures names == GenreNames(labels)
  {
    names := [];
    var i := 0;
    while i < |labels|
      invariant 0 <= i <= |labels|
      invariant |names| == i && forall k :: 0 <= k < i ==> names[k] == GenreName(labels[k])
    {
      var lab := labels[i];
      var name := if lab == Some("nonFiction") then "Non-fiction" else PyStr(lab);
      assert Capitalize(name) == GenreName(labels[i]);
      names := names + [Capitalize(name)];
      i := i + 1;
    }
  }

  // ---------------------------------------------------------------------------
  // Getters

  function TitleFacet(titles: seq<Title>): (r: Facet)
    ensures r.kind == "titles" && r.data.Arr? && |r.data.items| <= |titles|
  {
    Facet("titles", Arr(TitleEntries(titles)))
  }

  function GenreFacet(labels: seq<Option<string>>): (r: Facet)
    ensures r.kind == "genres" && r.data.Arr? && |r.data.items| == |labels|
    ensures forall k :: 0 <= k < |labels| ==> r.data.items[k] == Str(GenreName(labels[k]))
  {
    Facet("genres", Arr(Strs(GenreNames(labels))))
  }

  /** `getLast_modified`: the same padding as the later builder, under `last_modified`. */
  function LastModifiedFacet(date: Option<string>, time: Option<string>): (r: Result<Option<Facet>>)
    ensures r.Ok? <==> ReadLastModified(date, time).Ok?
    ensures r.Ok? ==> r.value == Some(Facet("last_modified", Str(ReadLastModified(date, time).value)))
  {
    match ReadLastModified(date, time)
    case Raised(e) => Raised(e)
    case Ok(v) => Ok(Some(Facet("last_modified", Str(v))))
  }

  /** `getCountries_of_reference`: the location names, a missing text as
      `None`, or `None` when there is no location; a location without
      `ebucore:name` raises `AttributeError`. */
  function CountriesFacet(locations: seq<Option<Option<string>>>): (r: Result<Option<Facet>>)
    ensures r.Raised? <==> exists k :: 0 <= k < |locations| && locations[k].None?
    ensures r.Raised? ==> r.error == AttributeError
    ensures r.Ok? ==> (r.value.None? <==> locations == [])
    ensures r.Ok? && r.value.Some? ==>
      r.value.value.kind == "countries_of_reference" && r.value.value.data.Arr? &&
      |r.value.value.data.items| == |locations| &&
      forall k :: 0 <= k < |locations| ==> r.value.value.data.items[k] == JsonOf(locations[k].value)
  {
    if exists k :: 0 <= k < |locations| && locations[k].None? then Raised(AttributeError)
    else if locations == [] then Ok(None)
    else Ok(Some(Facet("countries_of_reference", Arr(seq(|locations|, k requires 0 <= k < |locations| => JsonOf(locations[k].value))))))
  }

  const RelatedFacet := Facet("related_identifiers", Obj([("relatedIdentifierValue", Str(" ")), ("relatedIdentifierType", Str(" "))]))

  /** The four getters whose value the source never fills: `getOriginal_duration`,
      `getProduction_companies`, `getOriginal_language`, `getOriginal_format`. */
  function OriginalDuration(): (r: Option<Facet>)
    ensures r.None?
  {
    None
  }

  function ProductionCompanies(): (r: Option<Facet>)
    ensures r.None?
  {
    None
  }

  function OriginalLanguage(): (r: Option<Facet>)
    ensures r.None?
  {
    None
  }

  function OriginalFormat(): (r: Option<Facet>)
    ensures r.None?
  {
    None
  }

  // ---------------------------------------------------------------------------
  // buildWorkJson

  /** The facets kept from the enabled getters, called in source order. */
  function Gather(sec: Section, flags: WorkFlags): Result<seq<Facet>> {
    Back(Middle(Front(sec, flags), sec, flags), sec, flags)
  }

  function Front(sec: Section, flags: WorkFlags): Result<seq<Facet>> {
    var r1 := Then(Ok([]), flags.title, Ok(Some(TitleFacet(sec.titles))));
    var r2 := Then(r1, flags.series, Ok(Some(Facet("series", sec.series))));
    var r3 := Then(r2, flags.credit, Ok(Some(Facet("credits", sec.credits))));
    var r4 := Then(r3, flags.cast, Cast(sec.contributors));
    Then(r4, flags.originalDuration, Ok(OriginalDuration()))
  }

  function Middle(acc: Result<seq<Facet>>, sec: Section, flags: WorkFlags): (r: Result<seq<Facet>>)
    ensures acc.Raised? ==> r == acc
  {
    var r6 := Then(acc, flags.source, Ok(Some(Facet("sources", sec.sources))));
    var r7 := Then(r6, flags.sourceIdentifier, Ok(Some(Facet("source_identifier", sec.sourceIdentifier))));
    var r8 := Then(r7, flags.lastModified, LastModifiedFacet(sec.dateLastModified, sec.timeLastModified));
    var r9 := Then(r8, flags.productionCompanies, Ok(ProductionCompanies()));
    Then(r9, flags.countriesOfReference, CountriesFacet(sec.locations))
  }

  function Back(acc: Result<seq<Facet>>, sec: Section, flags: WorkFlags): (r: Result<seq<Facet>>)
    ensures acc.Raised? ==> r == acc
  {
    var r11 := Then(acc, flags.originalLanguage, Ok(OriginalLanguage()));
    var r12 := Then(r11, flags.yearsOfReference, Ok(Some(Facet("years_of_reference", sec.years))));
    var r13 := Then(r12, flags.relatedIdentifier, Ok(Some(RelatedFacet)));
    var r14 := Then(r13, flags.originalFormat, Ok(OriginalFormat()));
    Then(r14, flags.genre, Ok(Some(GenreFacet(sec.genres))))
  }

  /** `buildWorkJson(dmdsec, ns, pid_work, …)`: the kept facets, then the profile. */
  function WorkJson(sec: Section, pid: string, flags: WorkFlags): (r: Result<seq<Facet>>)
    ensures r.Ok? ==> |r.value| >= 1 && r.value[|r.value| - 1] == Facet(ProfileKind, Str(WorkProfile))
  {
    Close(Gather(sec, flags), WorkProfile)
  }

  /** The four always-`None` getters contribute nothing: their flags have no effect. */
  lemma AlwaysNoneGettersHaveNoEffect(sec: Section, pid: string, flags: WorkFlags, d: bool, p: bool, l: bool, f: bool)
    ensures WorkJson(sec, pid, flags)
            == WorkJson(sec, pid, flags.(originalDuration := d, productionCompanies := p, originalLanguage := l, originalFormat := f))
  {
  }

  /** The only exceptions come from the cast names, the modification date
      and the location names. */
  lemma OnlyCastDateAndLocationsRaise(sec: Section, pid: string, flags: WorkFlags)
    requires Cast(sec.contributors).Ok? && ReadLastModified(sec.dateLastModified, sec.timeLastModified).Ok?
    requires forall k :: 0 <= k < |sec.locations| ==> sec.locations[k].Some?
    ensures WorkJson(sec, pid, flags).Ok?
  {
  }

  /** With the default flags the titles, sources, years, related identifier
      and genres are always in the record, whatever the section holds. */
  lemma DefaultRecordHolds(sec: Section, pid: string)
    requires WorkJson(sec, pid, Defaults).Ok?
    ensures var r := WorkJson(sec, pid, Defaults).value;
            && TitleFacet(sec.titles) in r && Facet("sources", sec.sources) in r
            && Facet("years_of_reference", sec.years) in r && RelatedFacet in r
            && GenreFacet(sec.genres) in r
  {
  }

  /** `buildWorkJson`, getter by getter: the values appended for the enabled
      getters, the profile appended, the `None`s dropped. */
  method BuildWorkJson(sec: Section, pid: string, flags: WorkFlags) returns (r: Result<seq<Facet>>)
    ensures r == WorkJson(sec, pid, flags)
  {
    var values, failure := AppendFront(sec, flags);
    if failure.Some? {
      return Raised(failure.value);
    }
    values, failure := AppendMiddle(sec, flags, values);
    if failure.Some? {
      return Raised(failure.value);
    }
    values := AppendBack(sec, flags, values);
    PresentSnoc(values, Some(Facet(ProfileKind, Str(WorkProfile))));
    values := values + [Some(Facet(ProfileKind, Str(WorkProfile)))];
    var kept := KeepPresent(values);
    r := Ok(kept);
  }

  method AppendFront(sec: Section, flags: WorkFlags) returns (values: seq<Option<Facet>>, failure: Option<Exception>)
    ensures Agrees(Front(sec, flags), values, failure)
  {
    values, failure := [], None;
    ghost var acc: Result<seq<Facet>> := Ok([]);
    if flags.title {
      var entries := CollectTitles(sec.titles);
      ThenKeepsPresent(values, true, Ok(Some(TitleFacet(sec.titles))));
      values := values + [Some(Facet("titles", Arr(entries)))];
    }
    acc := Then(acc, flags.title, Ok(Some(TitleFacet(sec.titles))));
    assert acc == Ok(Present(values));
    if flags.series {
      ThenKeepsPresent(values, true, Ok(Some(Facet("series", sec.series))));
      values := values + [Some(Facet("series", sec.series))];
    }
    acc := Then(acc, flags.series, Ok(Some(Facet("series", sec.series))));
    assert acc == Ok(Present(values));
    if flags.credit {
      ThenKeepsPresent(values, true, Ok(Some(Facet("credits", sec.credits))));
      values := values + [Some(Facet("credits", sec.credits))];
    }
    acc := Then(acc, flags.credit, Ok(Some(Facet("credits", sec.credits))));
    assert acc == Ok(Present(values));
    if flags.cast {
      var cast := CollectCast(sec.contributors);
      if cast.Raised? {
        return values, Some(cast.error);
      }
      ThenKeepsPresent(values, true, cast);
      values := values + [cast.value];
    }
    acc := Then(acc, flags.cast, Cast(sec.contributors));
    assert acc == Ok(Present(values));
    if flags.originalDuration {
      ThenKeepsPresent(values, true, Ok(OriginalDuration()));
      values := values + [OriginalDuration()];
    }
  }

  method AppendMiddle(sec: Section, flags: WorkFlags, values0: seq<Option<Facet>>) returns (values: seq<Option<Facet>>, failure: Option<Exception>)
    ensures Agrees(Middle(Ok(Present(values0)), sec, flags), values, failure)
  {
    values, failure := values0, None;
    ghost var acc: Result<seq<Facet>> := Ok(Present(values0));
    if flags.source {
      ThenKeepsPresent(values, true, Ok(Some(Facet("sources", sec.sources))));
      values := values + [Some(Facet("sources", sec.sources))];
    }
    acc := Then(acc, flags.source, Ok(Some(Facet("sources", sec.sources))));
    assert acc == Ok(Present(values));
    if flags.sourceIdentifier {
      ThenKeepsPresent(values, true, Ok(Some(Facet("source_identifier", sec.sourceIdentifier))));
      values := values + [Some(Facet("source_identifier", sec.sourceIdentifier))];
    }
    acc := Then(acc, flags.sourceIdentifier, Ok(Some(Facet("source_identifier", sec.sourceIdentifier))));
    assert acc == Ok(Present(values));
    if flags.lastModified {
      var lastModified := LastModifiedFacet(sec.dateLastModified, sec.timeLastModified);
      if lastModified.Raised? {
        return values, Some(lastModified.error);
      }
      ThenKeepsPresent(values, true, lastModified);
      values := values + [lastModified.value];
    }
    acc := Then(acc, flags.lastModified, LastModifiedFacet(sec.dateLastModified, sec.timeLastModified));
    assert acc == Ok(Present(values));
    if flags.productionCompanies {
      ThenKeepsPresent(values, true, Ok(ProductionCompanies()));
      values := values + [ProductionCompanies()];
    }
    acc := Then(acc, flags.productionCompanies, Ok(ProductionCompanies()));
    assert acc == Ok(Present(values));
    if flags.countriesOfReference {
      var countries := CountriesFacet(sec.locations);
      if countries.Raised? {
        return values, Some(countries.error);
      }
      ThenKeepsPresent(values, true, countries);
      values := values + [countries.value];
    }
  }

  /** The last five getters raise nothing. */
  method AppendBack(sec: Section, flags: WorkFlags, values0: seq<Option<Facet>>) returns (values: seq<Option<Facet>>)
    ensures Back(Ok(Present(values0)), sec, flags) == Ok(Present(values))
  {
    values := values0;
    ghost var acc: Result<seq<Facet>> := Ok(Present(values0));
    if flags.originalLanguage {
      ThenKeepsPresent(values, true, Ok(OriginalLanguage()));
      values := values + [OriginalLanguage()];
    }
    acc := Then(acc, flags.originalLanguage, Ok(OriginalLanguage()));
    assert acc == Ok(Present(values));
    if flags.yearsOfReference {
      ThenKeepsPresent(values, true, Ok(Some(Facet("years_of_reference", sec.years))));
      values := values + [Some(Facet("years_of_reference", sec.years))];
    }
    acc := Then(acc, flags.yearsOfReference, Ok(Some(Facet("years_of_reference", sec.years))));
    assert acc == Ok(Present(values));
    if flags.relatedIdentifier {
      ThenKeepsPresent(values, true, Ok(Some(RelatedFacet)));
      values := values + [Some(RelatedFacet)];
    }
    acc := Then(acc, flags.relatedIdentifier, Ok(Some(RelatedFacet)));
    assert acc == Ok(Present(values));
    if flags.originalFormat {
      ThenKeepsPresent(values, true, Ok(OriginalFormat()));
      values := values + [OriginalFormat()];
    }
    acc := Then(acc, flags.originalFormat, Ok(OriginalFormat()));
    assert acc == Ok(Present(values));
    if flags.genre {
      var names := CollectGenres(sec.genres);
      ThenKeepsPresent(values, true, Ok(Some(GenreFacet(sec.genres))));
      values := values + [Some(Facet("genres", Arr(Strs(names))))];
    }
  }
}
