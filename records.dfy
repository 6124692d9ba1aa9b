/** The shape shared by every PID record the builders produce: a list of
    `{'type': …, 'parsed_data': …}` entries ("facets"), assembled from the
    enabled getters with `None` results dropped and the kernel information
    profile appended last; and the lab-mapping loops that several getters
    share. */
module Records {
  import opened Py
  import opened Text

  /** The JSON values a record carries. */
  datatype Json = Null | Str(s: string) | Arr(items: seq<Json>) | Obj(fields: seq<(string, Json)>)

  /** A list of strings as JSON. */
  function Strs(xs: seq<string>): (r: seq<Json>)
    ensures |r| == |xs| && forall k :: 0 <= k < |xs| ==> r[k] == Str(xs[k])
  {
    seq(|xs|, k requires 0 <= k < |xs| => Str(xs[k]))
  }

  /** One `{'type': kind, 'parsed_data': data}` entry of a record. */
  datatype Facet = Facet(kind: string, data: Json)

  const ProfileKind := "KernelInformationProfile"

  /** `[v for v in values if v is not None]` */
  function Present(values: seq<Option<Facet>>): (r: seq<Facet>)
    ensures |r| <= |values|
    ensures forall f :: f in r <==> Some(f) in values
  {
    if values == [] then []
    else
      var init := Present(values[..|values| - 1]);
      assert values == values[..|values| - 1] + [values[|values| - 1]];
      match values[|values| - 1]
      case None => init
      case Some(f) => init + [f]
  }

  /** Dropping `None` commutes with concatenation, so the surviving facets keep
      the order in which the getters were called. */
  lemma {:induction false} PresentAppend(xs: seq<Option<Facet>>, ys: seq<Option<Facet>>)
    ensures Present(xs + ys) == Present(xs) + Present(ys)
    decreases |ys|
  {
    if ys != [] {
      var ys' := ys[..|ys| - 1];
      assert (xs + ys)[..|xs + ys| - 1] == xs + ys';
      assert (xs + ys)[|xs + ys| - 1] == ys[|ys| - 1];
      PresentAppend(xs, ys');
    } else {
      assert xs + ys == xs;
    }
  }

  /** One element appended to the values: the filter keeps it exactly when it is present. */
  lemma PresentSnoc(xs: seq<Option<Facet>>, v: Option<Facet>)
    ensures Present(xs + [v]) == Present(xs) + (if v.Some? then [v.value] else [])
  {
    assert (xs + [v])[..|xs|] == xs;
  }

  /** One line `if flag: values.append(getter(...))` of a builder, on the
      facets kept so far: skipped when the flag is off, the getter's facet
      kept when it is present, its exception ending the build. */
  function Then(acc: Result<seq<Facet>>, on: bool, got: Result<Option<Facet>>): (r: Result<seq<Facet>>)
    ensures acc.Raised? || !on ==> r == acc
    ensures r.Raised? <==> acc.Raised? || (on && got.Raised?)
  {
    if acc.Raised? || !on then acc
    else match got
      case Raised(e) => Raised(e)
      case Ok(None) => acc
      case Ok(Some(f)) => Ok(acc.value + [f])
  }

  /** Appending a getter's value and filtering at the end, as the builders
      do, keeps what `Then` keeps. */
  lemma ThenKeepsPresent(values: seq<Option<Facet>>, on: bool, got: Result<Option<Facet>>)
    requires on && got.Ok?
    ensures Then(Ok(Present(values)), on, got) == Ok(Present(values + [got.value]))
  {
    PresentSnoc(values, got.value);
  }

  /** A builder's run so far agrees with the facets its specification keeps:
      the same exception, or the values whose present entries are those facets. */
  predicate Agrees(acc: Result<seq<Facet>>, values: seq<Option<Facet>>, failure: Option<Exception>) {
    if failure.Some? then acc == Raised(failure.value) else acc == Ok(Present(values))
  }

  /** The closing lines of every `build…Json`: the profile facet appended last. */
  function Close(acc: Result<seq<Facet>>, profile: string): (r: Result<seq<Facet>>)
    ensures r.Ok? <==> acc.Ok?
    ensures r.Ok? ==> |r.value| >= 1 && r.value[|r.value| - 1] == Facet(ProfileKind, Str(profile))
    ensures r.Ok? ==> r.value[..|r.value| - 1] == acc.value
  {
    match acc
    case Raised(e) => Raised(e)
    case Ok(facets) => Ok(facets + [Facet(ProfileKind, Str(profile))])
  }

  // ---------------------------------------------------------------------------
  // Vocabulary mapping shared by the title and genre getters: a lab yields the
  // mapped vocabulary value if it is a key of `vocab_map`, and, independently,
  // itself if it is one of the enum values fetched for the facet.

  function VocabLabels(lab: string, vocab: map<string, string>, enum: seq<string>): (r: seq<string>)
    ensures |r| <= 2
    ensures |r| == (if lab in vocab then 1 else 0) + (if lab in enum then 1 else 0)
  {
    (if lab in vocab then [vocab[lab]] else []) + (if lab in enum then [lab] else [])
  }

  /** A title as the builders read it: its text and its parent element's `typeLabel`. */
  datatype Title = Title(typeLabel: string, text: string)

  function TitleEntry(value: string, titleType: string): Json {
    Obj([("titleValue", Str(value)), ("titleType", Str(titleType))])
  }

  /** The entries `getTitle` emits for one title. */
  function TitleEntriesOf(t: Title, vocab: map<string, string>, enum: seq<string>): (r: seq<Json>)
    ensures |r| == |VocabLabels(t.typeLabel, vocab, enum)|
  {
    var labels := VocabLabels(t.typeLabel, vocab, enum);
    seq(|labels|, k requires 0 <= k < |labels| => TitleEntry(t.text, labels[k]))
  }

  /** The title list `getTitle` builds, title by title in document order. */
  function TitleEntries(titles: seq<Title>, vocab: map<string, string>, enum: seq<string>): (r: seq<Json>)
    ensures |r| <= 2 * |titles|
  {
    if titles == [] then []
    else TitleEntries(titles[..|titles| - 1], vocab, enum) + TitleEntriesOf(titles[|titles| - 1], vocab, enum)
  }

  /** Titles contribute their entries in document order. */
  lemma {:induction false} TitleEntriesAppend(xs: seq<Title>, ys: seq<Title>, vocab: map<string, string>, enum: seq<string>)
    ensures TitleEntries(xs + ys, vocab, enum) == TitleEntries(xs, vocab, enum) + TitleEntries(ys, vocab, enum)
    decreases |ys|
  {
    if ys != [] {
      var ys' := ys[..|ys| - 1];
      assert (xs + ys)[..|xs + ys| - 1] == xs + ys';
      assert (xs + ys)[|xs + ys| - 1] == ys[|ys| - 1];
      TitleEntriesAppend(xs, ys', vocab, enum);
    } else {
      assert xs + ys == xs;
    }
  }

  /** A title whose lab is neither a vocabulary key nor an enum value is dropped. */
  lemma UnmappedTitleDropped(xs: seq<Title>, t: Title, ys: seq<Title>, vocab: map<string, string>, enum: seq<string>)
    requires t.typeLabel !in vocab && t.typeLabel !in enum
    ensures TitleEntries(xs + [t] + ys, vocab, enum) == TitleEntries(xs + ys, vocab, enum)
  {
    TitleEntriesAppend(xs + [t], ys, vocab, enum);
    TitleEntriesAppend(xs, [t], vocab, enum);
    TitleEntriesAppend(xs, ys, vocab, enum);
    assert TitleEntries([t], vocab, enum) == TitleEntries([], vocab, enum) + TitleEntriesOf(t, vocab, enum);
  }

  /** Every title yields between zero and two entries: the number of entries
      is the number of vocabulary hits plus the number of enum hits. */
  function VocabHits(titles: seq<Title>, vocab: map<string, string>, enum: seq<string>): nat {
    if titles == [] then 0
    else VocabHits(titles[..|titles| - 1], vocab, enum) + |VocabLabels(titles[|titles| - 1].typeLabel, vocab, enum)|
  }

  lemma {:induction false} TitleEntriesCount(titles: seq<Title>, vocab: map<string, string>, enum: seq<string>)
    ensures |TitleEntries(titles, vocab, enum)| == VocabHits(titles, vocab, enum) <= 2 * |titles|
    decreases |titles|
  {
    if titles != [] {
      TitleEntriesCount(titles[..|titles| - 1], vocab, enum);
    }
  }

  /** One more title adds its vocabulary entry, if any, then its enum entry, if any. */
  lemma TitleEntriesStep(titles: seq<Title>, i: nat, vocab: map<string, string>, enum: seq<string>)
    requires i < |titles|
    ensures var t := titles[i];
            TitleEntries(titles[..i + 1], vocab, enum)
            == TitleEntries(titles[..i], vocab, enum)
               + (if t.typeLabel in vocab then [TitleEntry(t.text, vocab[t.typeLabel])] else [])
               + (if t.typeLabel in enum then [TitleEntry(t.text, t.typeLabel)] else [])
  {
    var t := titles[i];
    var a := if t.typeLabel in vocab then [TitleEntry(t.text, vocab[t.typeLabel])] else [];
    var b := if t.typeLabel in enum then [TitleEntry(t.text, t.typeLabel)] else [];
    assert titles[..i + 1][..i] == titles[..i];
    assert TitleEntriesOf(t, vocab, enum) == a + b;
  }

  /** The loop of `getTitle` (and of `get_titles`, which repeats it). */
  method MapTitles(titles: seq<Title>, vocab: map<string, string>, enum: seq<string>) returns (entries: seq<Json>)
    ensures entries == TitleEntries(titles, vocab, enum)
  {
    entries := [];
    var i := 0;
    while i < |titles|
      invariant 0 <= i <= |titles|
      invariant entries == TitleEntries(titles[..i], vocab, enum)
    {
      var lab := titles[i].typeLabel;
      TitleEntriesStep(titles, i, vocab, enum);
      if lab in vocab {
        entries := entries + [TitleEntry(titles[i].text, vocab[lab])];
      }
      if lab in enum {
        entries := entries + [TitleEntry(titles[i].text, lab)];
      }
      i := i + 1;
    }
    assert titles[..|titles|] == titles;
  }

  /** The genre list `getGenre` builds: the mapped value and/or the raw lab, genre by genre. */
  function GenreEntries(labels: seq<string>, vocab: map<string, string>, enum: seq<string>): (r: seq<string>)
    ensures |r| <= 2 * |labels|
    ensures forall g :: g in r ==> g in vocab.Values || g in enum
  {
    if labels == [] then []
    else
      var lab := labels[|labels| - 1];
      GenreEntries(labels[..|labels| - 1], vocab, enum)
      + (if lab in vocab then [vocab[lab]] else []) + (if lab in enum then [lab] else [])
  }

  /** Each genre entry is either the vocabulary mapping of some genre lab or
      a genre lab that is an enum value; and each such value is emitted. */
  lemma {:induction false} GenreEntriesSound(labels: seq<string>, vocab: map<string, string>, enum: seq<string>, g: string)
    ensures g in GenreEntries(labels, vocab, enum) <==>
            exists l :: l in labels && ((l in vocab && vocab[l] == g) || (l in enum && l == g))
    decreases |labels|
  {
    if labels != [] {
      var init := labels[..|labels| - 1];
      var last := labels[|labels| - 1];
      GenreEntriesSound(init, vocab, enum, g);
      assert labels == init + [last];
      assert forall l :: l in labels <==> l in init || l == last;
    }
  }

  /** The loop of `getGenre`. */
  method MapGenres(labels: seq<string>, vocab: map<string, string>, enum: seq<string>) returns (entries: seq<string>)
    ensures entries == GenreEntries(labels, vocab, enum)
  {
    entries := [];
    var i := 0;
    while i < |labels|
      invariant 0 <= i <= |labels|
      invariant entries == GenreEntries(labels[..i], vocab, enum)
    {
      if labels[i] in vocab {
        entries := entries + [vocab[labels[i]]];
      }
      if labels[i] in enum {
        entries := entries + [labels[i]];
      }
      assert labels[..i + 1][..i] == labels[..i];
      i := i + 1;
    }
    assert labels[..|labels|] == labels;
  }

  // ---------------------------------------------------------------------------
  // Mapping with a fallback: a lab outside the allowed list is replaced by a
  // fixed value ('Unknown' for manifestation types, 'Other' for titles).

  function Clamp(lab: string, allowed: seq<string>, fallback: string): (r: string)
    ensures r in allowed || r == fallback
    ensures lab in allowed ==> r == lab
    ensures r == lab || r == fallback
  {
    if lab in allowed then lab else fallback
  }

  function ClampAll(labels: seq<string>, allowed: seq<string>, fallback: string): (r: seq<string>)
    ensures |r| == |labels|
    ensures forall k :: 0 <= k < |labels| ==> r[k] == Clamp(labels[k], allowed, fallback)
  {
    if labels == [] then []
    else ClampAll(labels[..|labels| - 1], allowed, fallback) + [Clamp(labels[|labels| - 1], allowed, fallback)]
  }

  /** Every output lab is allowed or the fallback, and allowed labels pass unchanged. */
  lemma ClampAllInRange(labels: seq<string>, allowed: seq<string>, fallback: string)
    ensures forall l :: l in ClampAll(labels, allowed, fallback) ==> l in allowed || l == fallback
    ensures forall k :: 0 <= k < |labels| && labels[k] in allowed ==> ClampAll(labels, allowed, fallback)[k] == labels[k]
  {
  }

  /** The loop of `get_manifestation_type`, `getManifestationType` and `titles`. */
  method ClampLabels(labels: seq<string>, allowed: seq<string>, fallback: string) returns (r: seq<string>)
    ensures r == ClampAll(labels, allowed, fallback)
  {
    r := [];
    var i := 0;
    while i < |labels|
      invariant 0 <= i <= |labels|
      invariant |r| == i
      invariant forall k :: 0 <= k < i ==> r[k] == (if labels[k] in allowed then labels[k] else fallback)
    {
      if labels[i] in allowed {
        r := r + [labels[i]];
      } else {
        r := r + [fallback];
      }
      i := i + 1;
    }
  }

  // ---------------------------------------------------------------------------
  // The closing comprehension of every builder: `[v for v in values if v is not None]`.

  method KeepPresent(values: seq<Option<Facet>>) returns (r: seq<Facet>)
    ensures r == Present(values)
  {
    r := [];
    var i := 0;
    while i < |values|
      invariant 0 <= i <= |values|
      invariant r == Present(values[..i])
    {
      assert values[..i + 1][..i] == values[..i];
      if values[i].Some? {
        r := r + [values[i].value];
      }
      i := i + 1;
    }
    assert values[..|values|] == values;
  }

  /** A string attribute or text as JSON: `None` becomes `null`. */
  function JsonOf(o: Option<string>): Json {
    match o
    case None => Null
    case Some(v) => Str(v)
  }

  // ---------------------------------------------------------------------------
  // `getCast`, identical in both Work builders: every contributor whose first
  // `role` is labelled 'cast' yields its name, split on ',' into a family name
  // and a stripped given name, and its `contactId` when it has one.

  /** An `ebucore:contributor` as `getCast` reads it: the `typeLabel` of its
      first `role` (the outer `None` when it has no role element), the text of
      its contact name (`None` when there is none), and its `contactId`. */
  datatype Contributor = Contributor(firstRole: Option<Option<string>>, name: Option<string>, contactId: Option<string>)

  /** `name.text.split(',')`, then `name[0]` and `name[1].strip()`. */
  function CastName(name: Option<string>): (r: Result<(string, string)>)
    ensures r.Raised? ==> r.error == AttributeError || r.error == IndexError
    ensures name.Some? ==> (r.Ok? <==> ',' in name.value)
  {
    match name
    case None => Raised(AttributeError)
    case Some(n) =>
      var parts := Split(n, ',');
      SplitHasFieldOneIffSeparator(n, ',');
      if |parts| < 2 then Raised(IndexError) else Ok((parts[0], Trim(parts[1])))
  }

  /** A name written `family,given` splits back into its two parts. */
  lemma CastNameSplit(family: string, given: string)
    requires ',' !in family && ',' !in given
    ensures CastName(Some(family + "," + given)) == Ok((family, Trim(given)))
  {
    assert Join([family, given], ',') == family + "," + given;
    SplitJoin([family, given], ',');
  }

  predicate IsCast(c: Contributor) {
    c.firstRole == Some(Some("cast"))
  }

  /** The entry one contributor adds: nothing unless it is cast; a contributor
      without any role raises `AttributeError`. */
  function CastEntry(c: Contributor): (r: Result<Option<Json>>)
    ensures r.Ok? && r.value.None? <==> c.firstRole.Some? && !IsCast(c)
    ensures c.firstRole.None? ==> r == Raised(AttributeError)
    ensures IsCast(c) ==> (r.Ok? <==> CastName(c.name).Ok?)
    ensures IsCast(c) && r.Ok? ==>
      r.value.Some? && r.value.value.Obj? && |r.value.value.fields| == (if c.contactId.Some? then 2 else 1) &&
      r.value.value.fields[0] == ("name", Obj([("family-name", Str(CastName(c.name).value.0)),
                                               ("given-name", Str(CastName(c.name).value.1))])) &&
      (c.contactId.Some? ==> r.value.value.fields[1] == ("identifier_uri", Str(c.contactId.value)))
  {
    if c.firstRole.None? then Raised(AttributeError)
    else if !IsCast(c) then Ok(None)
    else match CastName(c.name)
      case Raised(e) => Raised(e)
      case Ok(parts) =>
        var name := Obj([("family-name", Str(parts.0)), ("given-name", Str(parts.1))]);
        Ok(Some(if c.contactId.Some? then Obj([("name", name), ("identifier_uri", Str(c.contactId.value))])
                else Obj([("name", name)])))
  }

  /** A cast contributor named `family,given` contributes that family name
      and the stripped given name. */
  lemma CastEntryOfName(c: Contributor, family: string, given: string)
    requires IsCast(c) && c.name == Some(family + "," + given)
    requires ',' !in family && ',' !in given
    ensures CastEntry(c).Ok? && CastEntry(c).value.Some?
    ensures CastEntry(c).value.value.fields[0] ==
      ("name", Obj([("family-name", Str(family)), ("given-name", Str(Trim(given)))]))
  {
    CastNameSplit(family, given);
  }

  /** The cast list, contributor by contributor; the first contributor that raises ends it. */
  function CastEntries(cs: seq<Contributor>): (r: Result<seq<Json>>)
    ensures r.Raised? ==> r.error == AttributeError || r.error == IndexError
    ensures r.Ok? ==> |r.value| <= |cs|
  {
    if cs == [] then Ok([])
    else match CastEntries(cs[..|cs| - 1])
      case Raised(e) => Raised(e)
      case Ok(init) =>
        match CastEntry(cs[|cs| - 1])
        case Raised(e) => Raised(e)
        case Ok(entry) => Ok(init + (if entry.Some? then [entry.value] else []))
  }

  /** Once a prefix of the contributors raises, the whole list raises the same. */
  lemma {:induction false} CastEntriesRaisedStays(cs: seq<Contributor>, k: nat)
    requires k <= |cs| && CastEntries(cs[..k]).Raised?
    ensures CastEntries(cs) == CastEntries(cs[..k])
    decreases |cs| - k
  {
    if k < |cs| {
      assert cs[..k + 1][..k] == cs[..k];
      CastEntriesRaisedStays(cs, k + 1);
    } else {
      assert cs[..k] == cs;
    }
  }

  /** `getCast`: `None` when no entry was collected. */
  function Cast(cs: seq<Contributor>): (r: Result<Option<Facet>>)
    ensures r.Ok? && r.value.Some? ==> r.value.value.kind == "cast"
  {
    match CastEntries(cs)
    case Raised(e) => Raised(e)
    case Ok(entries) => Ok(if entries == [] then None else Some(Facet("cast", Arr(entries))))
  }

  /** `getCast` returns `None` exactly when every contributor has a role and
      no contributor's first role is 'cast'. */
  lemma {:induction false} CastNoneIff(cs: seq<Contributor>)
    ensures Cast(cs) == Ok(None) <==> forall k :: 0 <= k < |cs| ==> cs[k].firstRole.Some? && !IsCast(cs[k])
    decreases |cs|
  {
    if cs != [] {
      var init := cs[..|cs| - 1];
      CastNoneIff(init);
      assert forall k :: 0 <= k < |init| ==> init[k] == cs[k];
      match CastEntries(init)
      case Raised(e) =>
        assert !(forall k :: 0 <= k < |init| ==> init[k].firstRole.Some? && !IsCast(init[k]));
      case Ok(entries) =>
    }
  }

  /** One more contributor: the list either raises with that contributor's
      error or grows by its entry, if it has one. */
  lemma CastEntriesStep(cs: seq<Contributor>, i: nat)
    requires i < |cs| && CastEntries(cs[..i]).Ok?
    ensures CastEntry(cs[i]).Raised? ==> CastEntries(cs[..i + 1]) == Raised(CastEntry(cs[i]).error)
    ensures CastEntry(cs[i]).Ok? ==>
      CastEntries(cs[..i + 1]) == Ok(CastEntries(cs[..i]).value +
                                     (if CastEntry(cs[i]).value.Some? then [CastEntry(cs[i]).value.value] else []))
  {
    assert cs[..i + 1][..i] == cs[..i];
  }

  /** The contributor loop of `getCast`. */
  method CollectCast(cs: seq<Contributor>) returns (r: Result<Option<Facet>>)
    ensures r == Cast(cs)
  {
    var entries: seq<Json> := [];
    var failure: Option<Exception> := None;
    var i := 0;
    while i < |cs| && failure.None?
      invariant 0 <= i <= |cs|
      invariant failure.None? ==> CastEntries(cs[..i]) == Ok(entries)
      invariant failure.Some? ==> CastEntries(cs[..i]) == Raised(failure.value)
    {
      var entry := CastEntry(cs[i]);
      CastEntriesStep(cs, i);
      if entry.Raised? {
        failure := Some(entry.error);
      } else if entry.value.Some? {
        entries := entries + [entry.value.value];
      } else {
        assert entries + [] == entries;
      }
      i := i + 1;
    }
    if failure.Some? {
      CastEntriesRaisedStays(cs, i);
      r := Raised(failure.value);
    } else {
      assert cs[..|cs|] == cs;
      r := Ok(if entries == [] then None else Some(Facet("cast", Arr(entries))));
    }
  }

  // ---------------------------------------------------------------------------
  // `buildWorkJson`, whose parameters and order of getters both Work
  // builders share: one flag per getter, the getters called in a fixed order.

  datatype WorkFlags = WorkFlags(
    handleId: bool, title: bool, series: bool, credit: bool, cast: bool,
    originalDuration: bool, source: bool, sourceIdentifier: bool, lastModified: bool,
    productionCompanies: bool, countriesOfReference: bool, originalLanguage: bool,
    yearsOfReference: bool, relatedIdentifier: bool, originalFormat: bool, genre: bool)

  /** The flags of both Version builders. */
  datatype VersionFlags = VersionFlags(
    lastModified: bool, sources: bool, hasAgent: bool, manifestationType: bool,
    yearsOfReference: bool, releaseDate: bool, sameAs: bool, title: bool,
    dataObject: bool, versionOf: bool, identifier: bool)

  /** The DataObject PID argument of the Version builders: `str` or `list`. */
  datatype Arg = Text(s: string) | List(items: seq<string>)
}
