/** The Work record builder of mets2handle/db_works_to_handle.py: the getters
    that map a Work dmdSec to `{'type', 'parsed_data'}` facets, and
    `buildWorkJson`, which calls the enabled getters in a fixed order, drops
    the `None`s and closes with the Work kernel information profile. */
module WorkRecord {
  import opened Py
  import opened Text
  import opened Records
  import opened Dates

  const WorkProfile := "21.T11148/31b848e871121c47d064"

  /** The first `ebucore:duration` of the section: its `typeLabel`, and its
      `normalPlayTime` child (the outer `None` when there is no such child)
      with that child's text (the inner `None` when it is empty). */
  datatype Duration = Duration(typeLabel: Option<string>, playTime: Option<Option<string>>)

  /** What the getters read from a Work section. `containerEncoding` is the
      `formatLabel` of the container encoding: the outer `None` when the
      section has no format or no encoding, the inner one when the label is
      missing. Each `ebucore:language` gives its `dc:language` child (`None`
      when it has none) and that child's text (`None` when empty); each
      `ebucore:location` likewise gives its `ebucore:name` child and text.
      Getters outside this model (series, credits, sources, source
      identifier, years) contribute their `parsed_data` as given. */
  datatype Section = Section(
    titles: seq<Title>,
    genres: seq<string>,
    contributors: seq<Contributor>,
    duration: Option<Duration>,
    containerEncoding: Option<Option<string>>,
    dateLastModified: Option<string>,
    timeLastModified: Option<string>,
    languages: seq<Option<Option<string>>>,
    locations: seq<Option<Option<string>>>,
    series: Json, credits: Json, sources: Json, sourceIdentifier: Json, years: Json)

  /** What pycountry answers for a location name: an exact match by name,
      official name or historic name, a fuzzy match with its `alpha_2` code,
      or no match at all (only logged). */
  datatype CountryMatch = Exact | Fuzzy(code: string) | Unmatched

  /** The tables the getters consult: `helpers.vocab_map`, the title-type and
      genre enumerations fetched from the type registry, and pycountry. */
  datatype Vocabulary = Vocabulary(vocab: map<string, string>, titleTypes: seq<string>, genres: seq<string>,
                                   country: string -> CountryMatch)

  /** The defaults of `buildWorkJson`. */
  const Defaults := WorkFlags(
    handleId := true, title := true, series := false, credit := false, cast := true,
    originalDuration := true, source := true, sourceIdentifier := false, lastModified := true,
    productionCompanies := true, countriesOfReference := true, originalLanguage := false,
    yearsOfReference := true, relatedIdentifier := true, originalFormat := true, genre := true)

  // ---------------------------------------------------------------------------
  // Getters

  /** `getIdentifier`: the uppercased PID in a one-element list. */
  function Identifier(pid: string): (r: Facet)
    ensures r.kind == "identifiers" && r.data.Arr? && |r.data.items| == 1
    ensures r.data.items[0] == Obj([("identifier", Str(Upper(pid)))])
  {
    Facet("identifiers", Arr([Obj([("identifier", Str(Upper(pid)))])]))
  }

  /** The identifier facet does not depend on the case of the PID it is given. */
  lemma IdentifierIgnoresCase(pid: string)
    ensures Identifier(Upper(pid)) == Identifier(pid)
  {
    UpperIdempotent(pid);
  }

  /** `getTitle`: per title, the vocabulary mapping of its lab and the lab itself if it is a title type. */
  function TitleFacet(titles: seq<Title>, voc: Vocabulary): (r: Facet)
    ensures r.kind == "title" && r.data.Arr?
    ensures |r.data.items| == VocabHits(titles, voc.vocab, voc.titleTypes) <= 2 * |titles|
  {
    TitleEntriesCount(titles, voc.vocab, voc.titleTypes);
    Facet("title", Arr(TitleEntries(titles, voc.vocab, voc.titleTypes)))
  }

  /** `getGenre`: per genre, the vocabulary mapping of its lab and the lab itself if it is a genre. */
  function GenreFacet(genres: seq<string>, voc: Vocabulary): (r: Facet)
    ensures r.kind == "genre" && r.data.Arr? && |r.data.items| <= 2 * |genres|
    ensures forall k :: 0 <= k < |r.data.items| ==>
              r.data.items[k].Str? && (r.data.items[k].s in voc.vocab.Values || r.data.items[k].s in voc.genres)
  {
    Facet("genre", Arr(Strs(GenreEntries(genres, voc.vocab, voc.genres))))
  }

  /** `getOriginal_duration`: a value only for a first duration labelled
      'originalDuration', its play time `None` when the text is missing; such
      a duration without `normalPlayTime` raises `AttributeError`. */
  function DurationFacet(d: Option<Duration>): (r: Result<Option<Facet>>)
    ensures r.Ok? && r.value.Some? <==> d.Some? && d.value.typeLabel == Some("originalDuration") && d.value.playTime.Some?
    ensures r.Ok? && r.value.Some? ==> r.value.value == Facet("originalDuration", Obj([("original_duration", JsonOf(d.value.playTime.value))]))
    ensures r.Raised? <==> d.Some? && d.value.typeLabel == Some("originalDuration") && d.value.playTime.None?
    ensures r.Raised? ==> r.error == AttributeError
  {
    if d.None? || d.value.typeLabel != Some("originalDuration") then Ok(None)
    else if d.value.playTime.None? then Raised(AttributeError)
    else Ok(Some(Facet("originalDuration", Obj([("original_duration", JsonOf(d.value.playTime.value))]))))
  }

  /** `getLast_modified`, with the padding of module Dates; it always has a value unless it raises. */
  function LastModifiedFacet(date: Option<string>, time: Option<string>): (r: Result<Option<Facet>>)
    ensures r.Ok? <==> ReadLastModified(date, time).Ok?
    ensures r.Ok? ==> r.value == Some(Facet("lastModified", Str(ReadLastModified(date, time).value)))
  {
    match ReadLastModified(date, time)
    case Raised(e) => Raised(e)
    case Ok(v) => Ok(Some(Facet("lastModified", Str(v))))
  }

  /** `getProduction_companies`: the company list is never filled, so always `None`. */
  function ProductionCompanies(): (r: Option<Facet>)
    ensures r.None?
  {
    None
  }

  /** `getOriginal_language`: the `dc:language` texts, a missing text as
      `None`, or `None` when there is no language; a language without
      `dc:language` raises `AttributeError`. */
  function LanguageFacet(languages: seq<Option<Option<string>>>): (r: Result<Option<Facet>>)
    ensures r.Raised? <==> exists k :: 0 <= k < |languages| && languages[k].None?
    ensures r.Raised? ==> r.error == AttributeError
    ensures r.Ok? ==> (r.value.None? <==> languages == [])
    ensures r.Ok? && r.value.Some? ==>
      r.value.value.kind == "originalLanguage" && r.value.value.data.Arr? &&
      |r.value.value.data.items| == |languages| &&
      forall k :: 0 <= k < |languages| ==> r.value.value.data.items[k] == JsonOf(languages[k].value)
  {
    if exists k :: 0 <= k < |languages| && languages[k].None? then Raised(AttributeError)
    else if languages == [] then Ok(None)
    else Ok(Some(Facet("originalLanguage", Arr(seq(|languages|, k requires 0 <= k < |languages| => JsonOf(languages[k].value))))))
  }

  /** One location of `getCountries_of_reference`: the `str` of its name text,
      looked up. A location without `ebucore:name` raises `AttributeError`, and
      so does an exact match, whose code is read through the misspelt
      attribute `aplha_2`; a fuzzy match gives its code, no match nothing. */
  function CountryCode(location: Option<Option<string>>, country: string -> CountryMatch): (r: Result<Option<string>>)
    ensures r.Raised? <==> location.None? || country(PyStr(location.value)).Exact?
    ensures r.Raised? ==> r.error == AttributeError
    ensures r.Ok? ==> (r.value.Some? <==> country(PyStr(location.value)).Fuzzy?)
    ensures r.Ok? && r.value.Some? ==> r.value.value == country(PyStr(location.value)).code
  {
    if location.None? then Raised(AttributeError)
    else match country(PyStr(location.value))
      case Exact => Raised(AttributeError)
      case Fuzzy(code) => Ok(Some(code))
      case Unmatched => Ok(None)
  }

  /** The country codes, location by location; the first location that raises ends the list. */
  function CountryCodes(locations: seq<Option<Option<string>>>, country: string -> CountryMatch): (r: Result<seq<string>>)
    ensures r.Raised? ==> r.error == AttributeError
    ensures r.Ok? ==> |r.value| <= |locations|
  {
    if locations == [] then Ok([])
    else match CountryCodes(locations[..|locations| - 1], country)
      case Raised(e) => Raised(e)
      case Ok(init) =>
        match CountryCode(locations[|locations| - 1], country)
        case Raised(e) => Raised(e)
        case Ok(code) => Ok(init + (if code.Some? then [code.value] else []))
  }

  /** `getCountries_of_reference`: the codes found, always as a facet, possibly empty. */
  function CountriesOfReference(locations: seq<Option<Option<string>>>, country: string -> CountryMatch): (r: Result<Option<Facet>>)
    ensures r.Raised? ==> r.error == AttributeError
    ensures r.Ok? ==> r.value.Some? && r.value.value.kind == "countryOfReference" && r.value.value.data.Arr?
  {
    match CountryCodes(locations, country)
    case Raised(e) => Raised(e)
    case Ok(codes) => Ok(Some(Facet("countryOfReference", Arr(Strs(codes)))))
  }

  /** The getter succeeds exactly when every location has a name and no name
      is an exact match. */
  lemma {:induction false} CountryCodesOkIff(locations: seq<Option<Option<string>>>, country: string -> CountryMatch)
    ensures CountryCodes(locations, country).Ok? <==>
            forall k :: 0 <= k < |locations| ==> locations[k].Some? && !country(PyStr(locations[k].value)).Exact?
    decreases |locations|
  {
    if locations != [] {
      var init := locations[..|locations| - 1];
      CountryCodesOkIff(init, country);
      assert forall k :: 0 <= k < |init| ==> init[k] == locations[k];
    }
  }

  /** Every code the getter lists is the fuzzy match of one of the locations. */
  lemma {:induction false} CountryCodesFuzzy(locations: seq<Option<Option<string>>>, country: string -> CountryMatch)
    requires CountryCodes(locations, country).Ok?
    ensures forall c :: c in CountryCodes(locations, country).value ==>
              exists k :: 0 <= k < |locations| && locations[k].Some? && country(PyStr(locations[k].value)) == Fuzzy(c)
    decreases |locations|
  {
    if locations != [] {
      var init := locations[..|locations| - 1];
      CountryCodesFuzzy(init, country);
      assert forall k :: 0 <= k < |init| ==> init[k] == locations[k];
    }
  }

  /** Every location that is a fuzzy match has its code listed. */
  lemma {:induction false} CountryCodesComplete(locations: seq<Option<Option<string>>>, country: string -> CountryMatch)
    requires CountryCodes(locations, country).Ok?
    ensures forall k :: 0 <= k < |locations| && locations[k].Some? && country(PyStr(locations[k].value)).Fuzzy? ==>
              country(PyStr(locations[k].value)).code in CountryCodes(locations, country).value
    decreases |locations|
  {
    if locations != [] {
      var init := locations[..|locations| - 1];
      CountryCodesComplete(init, country);
      assert forall k :: 0 <= k < |init| ==> init[k] == locations[k];
    }
  }

  /** The codes follow the order of the locations: the codes of a document
      split in two are the codes of the first part, then those of the second. */
  lemma {:induction false} CountryCodesAppend(a: seq<Option<Option<string>>>, b: seq<Option<Option<string>>>, country: string -> CountryMatch)
    requires CountryCodes(a, country).Ok? && CountryCodes(b, country).Ok?
    ensures CountryCodes(a + b, country) == Ok(CountryCodes(a, country).value + CountryCodes(b, country).value)
    decreases |b|
  {
    if b == [] {
      assert a + b == a;
      assert CountryCodes(a, country).value + CountryCodes(b, country).value == CountryCodes(a, country).value;
    } else {
      var init := b[..|b| - 1];
      var last := b[|b| - 1];
      assert CountryCodes(init, country).Ok?;
      CountryCodesAppend(a, init, country);
      assert (a + b)[..|a + b| - 1] == a + init;
      assert (a + b)[|a + b| - 1] == last;
      var code := CountryCode(last, country);
      assert code.Ok?;
      var extra := if code.value.Some? then [code.value.value] else [];
      assert CountryCodes(b, country).value == CountryCodes(init, country).value + extra;
      var ca, ci := CountryCodes(a, country).value, CountryCodes(init, country).value;
      assert CountryCodes(a + b, country) == Ok(ca + ci + extra);
      assert ca + ci + extra == ca + (ci + extra);
    }
  }

  /** One more location: the list either raises or grows by that location's code, if it has one. */
  lemma CountryCodesStep(locations: seq<Option<Option<string>>>, country: string -> CountryMatch, i: nat)
    requires i < |locations| && CountryCodes(locations[..i], country).Ok?
    ensures CountryCode(locations[i], country).Raised? ==>
      CountryCodes(locations[..i + 1], country) == Raised(CountryCode(locations[i], country).error)
    ensures CountryCode(locations[i], country).Ok? ==>
      CountryCodes(locations[..i + 1], country) ==
        Ok(CountryCodes(locations[..i], country).value +
           (if CountryCode(locations[i], country).value.Some? then [CountryCode(locations[i], country).value.value] else []))
  {
    assert locations[..i + 1][..i] == locations[..i];
  }

  /** Once a prefix of the locations raises, the whole list raises the same. */
  lemma {:induction false} CountryCodesRaisedStays(locations: seq<Option<Option<string>>>, country: string -> CountryMatch, k: nat)
    requires k <= |locations| && CountryCodes(locations[..k], country).Raised?
    ensures CountryCodes(locations, country) == CountryCodes(locations[..k], country)
    decreases |locations| - k
  {
    if k < |locations| {
      assert locations[..k + 1][..k] == locations[..k];
      CountryCodesRaisedStays(locations, country, k + 1);
    } else {
      assert locations[..k] == locations;
    }
  }

  /** The location loop of `getCountries_of_reference`. */
  method CollectCountries(locations: seq<Option<Option<string>>>, country: string -> CountryMatch) returns (r: Result<Option<Facet>>)
    ensures r == CountriesOfReference(locations, country)
  {
    var landlist: seq<string> := [];
    var failure: Option<Exception> := None;
    var i := 0;
    while i < |locations| && failure.None?
      invariant 0 <= i <= |locations|
      invariant failure.None? ==> CountryCodes(locations[..i], country) == Ok(landlist)
      invariant failure.Some? ==> CountryCodes(locations[..i], country) == Raised(failure.value)
    {
      var code := CountryCode(locations[i], country);
      CountryCodesStep(locations, country, i);
      if code.Raised? {
        failure := Some(code.error);
      } else if code.value.Some? {
        landlist := landlist + [code.value.value];
      } else {
        assert landlist + [] == landlist;
      }
      i := i + 1;
    }
    if failure.Some? {
      CountryCodesRaisedStays(locations, country, i);
      r := Raised(failure.value);
    } else {
      assert locations[..|locations|] == locations;
      r := Ok(Some(Facet("countryOfReference", Arr(Strs(landlist)))));
    }
  }

  /** `getRelated_identifier`: a fixed placeholder. */
  const RelatedFacet := Facet("relatedIdentifier", Obj([("relatedIdentifierValue", Str(" ")), ("relatedIdentifierType", Str(" "))]))

  /** `getOriginal_format`: `None` unless a container encoding with a
      non-empty `formatLabel` exists; an encoding without the label makes
      `len(None)` raise `TypeError`. */
  function FormatFacet(encoding: Option<Option<string>>): (r: Result<Option<Facet>>)
    ensures r.Ok? && r.value.Some? <==> encoding.Some? && encoding.value.Some? && encoding.value.value != ""
    ensures r.Ok? && r.value.Some? ==> r.value.value == Facet("originalFormat", Str(encoding.value.value))
    ensures r.Raised? <==> encoding == Some(None)
  {
    match encoding
    case None => Ok(None)
    case Some(None) => Raised(TypeError)
    case Some(Some(name)) => if name == "" then Ok(None) else Ok(Some(Facet("originalFormat", Str(name))))
  }

  // ---------------------------------------------------------------------------
  // buildWorkJson

  /** The facets kept from the enabled getters, called in source order; the
      first getter that raises ends the build. In three parts of five getters. */
  function Gather(sec: Section, voc: Vocabulary, flags: WorkFlags): Result<seq<Facet>> {
    Back(Middle(Front(sec, voc, flags), sec, voc, flags), sec, voc, flags)
  }

  /** Title, series, credits, cast, original duration. */
  function Front(sec: Section, voc: Vocabulary, flags: WorkFlags): Result<seq<Facet>> {
    var r1 := Then(Ok([]), flags.title, Ok(Some(TitleFacet(sec.titles, voc))));
    var r2 := Then(r1, flags.series, Ok(Some(Facet("series", sec.series))));
    var r3 := Then(r2, flags.credit, Ok(Some(Facet("credits", sec.credits))));
    var r4 := Then(r3, flags.cast, Cast(sec.contributors));
    Then(r4, flags.originalDuration, DurationFacet(sec.duration))
  }

  /** Source, source identifier, last modified, production companies, countries. */
  function Middle(acc: Result<seq<Facet>>, sec: Section, voc: Vocabulary, flags: WorkFlags): (r: Result<seq<Facet>>)
    ensures acc.Raised? ==> r == acc
  {
    var r6 := Then(acc, flags.source, Ok(Some(Facet("source", sec.sources))));
    var r7 := Then(r6, flags.sourceIdentifier, Ok(Some(Facet("sourceIdentifier", sec.sourceIdentifier))));
    var r8 := Then(r7, flags.lastModified, LastModifiedFacet(sec.dateLastModified, sec.timeLastModified));
    var r9 := Then(r8, flags.productionCompanies, Ok(ProductionCompanies()));
    Then(r9, flags.countriesOfReference, CountriesOfReference(sec.locations, voc.country))
  }

  /** Original language, years, related identifier, original format, genre. */
  function Back(acc: Result<seq<Facet>>, sec: Section, voc: Vocabulary, flags: WorkFlags): (r: Result<seq<Facet>>)
    ensures acc.Raised? ==> r == acc
  {
    var r11 := Then(acc, flags.originalLanguage, LanguageFacet(sec.languages));
    var r12 := Then(r11, flags.yearsOfReference, Ok(Some(Facet("yearOfReference", sec.years))));
    var r13 := Then(r12, flags.relatedIdentifier, Ok(Some(RelatedFacet)));
    var r14 := Then(r13, flags.originalFormat, FormatFacet(sec.containerEncoding));
    Then(r14, flags.genre, Ok(Some(GenreFacet(sec.genres, voc))))
  }

  /** `buildWorkJson(dmdsec, ns, pid_work, …)`: the kept facets, then the profile. */
  function WorkJson(sec: Section, voc: Vocabulary, pid: string, flags: WorkFlags): (r: Result<seq<Facet>>)
    ensures r.Ok? ==> |r.value| >= 1 && r.value[|r.value| - 1] == Facet(ProfileKind, Str(WorkProfile))
  {
    Close(Gather(sec, voc, flags), WorkProfile)
  }

  /** The identifier facet is commented out: neither the PID nor the
      `handleId` flag has any effect on the record. */
  lemma PidHasNoEffect(sec: Section, voc: Vocabulary, pid: string, pid': string, flags: WorkFlags, on: bool)
    ensures WorkJson(sec, voc, pid, flags) == WorkJson(sec, voc, pid', flags.(handleId := on))
  {
  }

  /** `original_language` is off by default: the languages of the section do
      not reach the record. */
  lemma LanguageOffByDefault(sec: Section, voc: Vocabulary, pid: string, languages: seq<Option<Option<string>>>)
    ensures WorkJson(sec, voc, pid, Defaults) == WorkJson(sec.(languages := languages), voc, pid, Defaults)
  {
  }

  /** The production-companies getter never contributes: its flag has no effect. */
  lemma ProductionCompaniesHaveNoEffect(sec: Section, voc: Vocabulary, pid: string, flags: WorkFlags, on: bool)
    ensures WorkJson(sec, voc, pid, flags) == WorkJson(sec, voc, pid, flags.(productionCompanies := on))
  {
  }

  /** A cast entry whose name cannot be split ends the build with its
      exception, whatever the later getters would do. */
  lemma CastErrorEndsBuild(sec: Section, voc: Vocabulary, pid: string, flags: WorkFlags)
    requires flags.cast && Cast(sec.contributors).Raised?
    ensures WorkJson(sec, voc, pid, flags) == Raised(Cast(sec.contributors).error)
  {
  }

  /** A location whose name pycountry matches exactly ends the build with an
      exception, whichever getter raises first. */
  lemma ExactCountryEndsBuild(sec: Section, voc: Vocabulary, pid: string, flags: WorkFlags, k: nat)
    requires flags.countriesOfReference && k < |sec.locations| && sec.locations[k].Some?
    requires voc.country(PyStr(sec.locations[k].value)).Exact?
    ensures WorkJson(sec, voc, pid, flags).Raised?
  {
    CountryCodesOkIff(sec.locations, voc.country);
  }

  /** With the default flags every enabled getter that always has a value is
      in the record: title, source, countries, years, the related identifier
      and genre. */
  lemma DefaultRecordHolds(sec: Section, voc: Vocabulary, pid: string)
    requires WorkJson(sec, voc, pid, Defaults).Ok?
    ensures var r := WorkJson(sec, voc, pid, Defaults).value;
            && TitleFacet(sec.titles, voc) in r && Facet("source", sec.sources) in r
            && CountriesOfReference(sec.locations, voc.country).Ok?
            && CountriesOfReference(sec.locations, voc.country).value.value in r && RelatedFacet in r
            && Facet("yearOfReference", sec.years) in r
            && GenreFacet(sec.genres, voc) in r
  {
  }

  /** `buildWorkJson`, getter by getter: the values appended for the enabled
      getters, the profile appended, the `None`s dropped. */
  method BuildWorkJson(sec: Section, voc: Vocabulary, pid: string, flags: WorkFlags) returns (r: Result<seq<Facet>>)
    ensures r == WorkJson(sec, voc, pid, flags)
  {
    var values, failure := AppendFront(sec, voc, flags);
    if failure.Some? {
      return Raised(failure.value);
    }
    values, failure := AppendMiddle(sec, voc, flags, values);
    if failure.Some? {
      return Raised(failure.value);
    }
    values, failure := AppendBack(sec, voc, flags, values);
    if failure.Some? {
      return Raised(failure.value);
    }
    PresentSnoc(values, Some(Facet(ProfileKind, Str(WorkProfile))));
    values := values + [Some(Facet(ProfileKind, Str(WorkProfile)))];
    var kept := KeepPresent(values);
    r := Ok(kept);
  }

  method AppendFront(sec: Section, voc: Vocabulary, flags: WorkFlags) returns (values: seq<Option<Facet>>, failure: Option<Exception>)
    ensures Agrees(Front(sec, voc, flags), values, failure)
  {
    values, failure := [], None;
    ghost var acc: Result<seq<Facet>> := Ok([]);
    if flags.title {
      var entries := MapTitles(sec.titles, voc.vocab, voc.titleTypes);
      ThenKeepsPresent(values, true, Ok(Some(TitleFacet(sec.titles, voc))));
      values := values + [Some(Facet("title", Arr(entries)))];
    }
    acc := Then(acc, flags.title, Ok(Some(TitleFacet(sec.titles, voc))));
    assert acc == Ok(Present(values));
    if flags.series {
      ThenKeepsPresent(values, true, Ok(Some(Facet("series", sec.series))));
      values := values + [Some(Facet("series", sec.series))];
    }
    acc := Then(acc, flags.series, Ok(Some(Facet("series", sec.series))));
    assert acc == Ok(Present(values));
    if flags.credit {
      ThenKeepsPresent(values, true, Ok(Some(Facet("credits", sec.credits))));
      values := values + [Some(Facet("credits", sec.credits))];
    }
    acc := Then(acc, flags.credit, Ok(Some(Facet("credits", sec.credits))));
    assert acc == Ok(Present(values));
    if flags.cast {
      var cast := CollectCast(sec.contributors);
      if cast.Raised? {
        return values, Some(cast.error);
      }
      ThenKeepsPresent(values, true, cast);
      values := values + [cast.value];
    }
    acc := Then(acc, flags.cast, Cast(sec.contributors));
    assert acc == Ok(Present(values));
    if flags.originalDuration {
      var duration := DurationFacet(sec.duration);
      if duration.Raised? {
        return values, Some(duration.error);
      }
      ThenKeepsPresent(values, true, duration);
      values := values + [duration.value];
    }
  }

  method AppendMiddle(sec: Section, voc: Vocabulary, flags: WorkFlags, values0: seq<Option<Facet>>) returns (values: seq<Option<Facet>>, failure: Option<Exception>)
    ensures Agrees(Middle(Ok(Present(values0)), sec, voc, flags), values, failure)
  {
    values, failure := values0, None;
    ghost var acc: Result<seq<Facet>> := Ok(Present(values0));
    if flags.source {
      ThenKeepsPresent(values, true, Ok(Some(Facet("source", sec.sources))));
      values := values + [Some(Facet("source", sec.sources))];
    }
    acc := Then(acc, flags.source, Ok(Some(Facet("source", sec.sources))));
    assert acc == Ok(Present(values));
    if flags.sourceIdentifier {
      ThenKeepsPresent(values, true, Ok(Some(Facet("sourceIdentifier", sec.sourceIdentifier))));
      values := values + [Some(Facet("sourceIdentifier", sec.sourceIdentifier))];
    }
    acc := Then(acc, flags.sourceIdentifier, Ok(Some(Facet("sourceIdentifier", sec.sourceIdentifier))));
    assert acc == Ok(Present(values));
    if flags.lastModified {
      var lastModified := LastModifiedFacet(sec.dateLastModified, sec.timeLastModified);
      if lastModified.Raised? {
        return values, Some(lastModified.error);
      }
      ThenKeepsPresent(values, true, lastModified);
      values := values + [lastModified.value];
    }
    acc := Then(acc, flags.lastModified, LastModifiedFacet(sec.dateLastModified, sec.timeLastModified));
    assert acc == Ok(Present(values));
    if flags.productionCompanies {
      ThenKeepsPresent(values, true, Ok(ProductionCompanies()));
      values := values + [ProductionCompanies()];
    }
    acc := Then(acc, flags.productionCompanies, Ok(ProductionCompanies()));
    assert acc == Ok(Present(values));
    if flags.countriesOfReference {
      var countries := CollectCountries(sec.locations, voc.country);
      if countries.Raised? {
        return values, Some(countries.error);
      }
      ThenKeepsPresent(values, true, countries);
      values := values + [countries.value];
    }
  }

  method AppendBack(sec: Section, voc: Vocabulary, flags: WorkFlags, values0: seq<Option<Facet>>) returns (values: seq<Option<Facet>>, failure: Option<Exception>)
    ensures Agrees(Back(Ok(Present(values0)), sec, voc, flags), values, failure)
  {
    values, failure := values0, None;
    ghost var acc: Result<seq<Facet>> := Ok(Present(values0));
    if flags.originalLanguage {
      var languages := LanguageFacet(sec.languages);
      if languages.Raised? {
        return values, Some(languages.error);
      }
      ThenKeepsPresent(values, true, languages);
      values := values + [languages.value];
    }
    acc := Then(acc, flags.originalLanguage, LanguageFacet(sec.languages));
    assert acc == Ok(Present(values));
    if flags.yearsOfReference {
      ThenKeepsPresent(values, true, Ok(Some(Facet("yearOfReference", sec.years))));
      values := values + [Some(Facet("yearOfReference", sec.years))];
    }
    acc := Then(acc, flags.yearsOfReference, Ok(Some(Facet("yearOfReference", sec.years))));
    assert acc == Ok(Present(values));
    if flags.relatedIdentifier {
      ThenKeepsPresent(values, true, Ok(Some(RelatedFacet)));
      values := values + [Some(RelatedFacet)];
    }
    acc := Then(acc, flags.relatedIdentifier, Ok(Some(RelatedFacet)));
    assert acc == Ok(Present(values));
    if flags.originalFormat {
      var format := FormatFacet(sec.containerEncoding);
      if format.Raised? {
        return values, Some(format.error);
      }
      ThenKeepsPresent(values, true, format);
      values := values + [format.value];
    }
    acc := Then(acc, flags.originalFormat, FormatFacet(sec.containerEncoding));
    assert acc == Ok(Present(values));
    if flags.genre {
      var genres := MapGenres(sec.genres, voc.vocab, voc.genres);
      ThenKeepsPresent(values, true, Ok(Some(GenreFacet(sec.genres, voc))));
      values := values + [Some(Facet("genre", Arr(Strs(genres))))];
    }
  }
}
