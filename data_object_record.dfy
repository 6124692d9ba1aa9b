/** The DataObject record builder, mets2handle/db_data_object_to_handle.py:
    the PID it is a DataObject of, the modification date, a placeholder
    source, the file size when there is one, and the profile. The three
    description getters look up their text but return nothing, so they can
    only make the build raise. */
module DataObjectRecord {
  import opened Py
  import opened Text
  import opened Records
  import LegacyWorkRecord

  const DataObjectProfile := "21.T11148/b0047df54c686b9df82a"

  /** An `ebucore:description`: its `typeLabel`, and the text of its
      `dc:description` child, the outer `None` when there is no such child. */
  datatype Description = Description(typeLabel: Option<string>, text: Option<Option<string>>)

  /** A `fileSize` element: its text and its `unit` attribute. */
  datatype FileSize = FileSize(size: Option<string>, unit: Option<string>)

  /** What the getters read from a DataObject section. */
  datatype Section = Section(
    descriptions: seq<Description>,
    fileSize: Option<FileSize>,
    languages: seq<Option<string>>,
    dateLastModified: Option<string>,
    timeLastModified: Option<string>)

  const SpecificCarrierType := "specificCarrierType"
  const AccessStatus := "accessStatus"
  const Comment := "comment"

  const SourcePlaceholder := Facet("source", Obj([("name", Str("no metadata provider in mets"))]))

  // ---------------------------------------------------------------------------
  // Getters

  /** `specific_Carrier_type`, `perservationAccessStatus` and
      `sumplementaryInformation`: the descriptions with the given label are
      visited in order; one without a `dc:description` child raises
      `AttributeError`; otherwise the getter returns `None`. */
  function DescriptionText(descs: seq<Description>, target: string): (r: Result<Option<Facet>>)
    ensures r.Raised? ==> r.error == AttributeError
    ensures r.Ok? ==> r.value.None?
  {
    if descs == [] then Ok(None)
    else
      var init := DescriptionText(descs[..|descs| - 1], target);
      var d := descs[|descs| - 1];
      if init.Raised? then init
      else if d.typeLabel == Some(target) && d.text.None? then Raised(AttributeError)
      else Ok(None)
  }

  /** A description getter raises exactly when some description with its label
      lacks the text child, and otherwise contributes nothing. */
  lemma {:induction false} DescriptionTextRaisesIff(descs: seq<Description>, target: string)
    ensures DescriptionText(descs, target).Raised?
            <==> exists k :: 0 <= k < |descs| && descs[k].typeLabel == Some(target) && descs[k].text.None?
    ensures DescriptionText(descs, target).Raised? ==> DescriptionText(descs, target).error == AttributeError
    ensures DescriptionText(descs, target).Ok? ==> DescriptionText(descs, target).value.None?
  {
    if descs != [] {
      var init := descs[..|descs| - 1];
      DescriptionTextRaisesIff(init, target);
      assert forall k :: 0 <= k < |init| ==> init[k] == descs[k];
    }
  }

  method ScanDescriptions(descs: seq<Description>, target: string) returns (r: Result<Option<Facet>>)
    ensures r == DescriptionText(descs, target)
  {
    var i := 0;
    while i < |descs|
      invariant 0 <= i <= |descs|
      invariant DescriptionText(descs[..i], target) == Ok(None)
    {
      assert descs[..i + 1][..i] == descs[..i];
      if descs[i].typeLabel == Some(target) {
        if descs[i].text.None? {
          DescriptionRaisedStays(descs, i + 1, target);
          return Raised(AttributeError);
        }
      }
      i := i + 1;
    }
    assert descs[..|descs|] == descs;
    r := Ok(None);
  }

  /** Once a prefix has raised, the whole scan has. */
  lemma {:induction false} DescriptionRaisedStays(descs: seq<Description>, k: nat, target: string)
    requires k <= |descs| && DescriptionText(descs[..k], target).Raised?
    ensures DescriptionText(descs, target) == DescriptionText(descs[..k], target)
    decreases |descs| - k
  {
    if k < |descs| {
      assert descs[..k + 1][..k] == descs[..k];
      DescriptionRaisedStays(descs, k + 1, target);
    } else {
      assert descs[..k] == descs;
    }
  }

  /** `item_file_size`: `str(size) + str(unit)`, so a missing text or unit
      prints as 'None'; no `fileSize` element gives `None`. */
  function ItemFileSize(fileSize: Option<FileSize>): (r: Option<Facet>)
    ensures r.None? <==> fileSize.None?
    ensures r.Some? ==> r.value == Facet("item_file_size", Str(PyStr(fileSize.value.size) + PyStr(fileSize.value.unit)))
  {
    match fileSize
    case None => None
    case Some(f) => Some(Facet("item_file_size", Str(PyStr(f.size) + PyStr(f.unit))))
  }

  /** `languages`: each language element's `typeLabel`, in document order. */
  function Languages(labels: seq<Option<string>>): (r: Facet)
    ensures r.kind == "language_versions" && r.data.Arr? && |r.data.items| == |labels|
  {
    LanguageListAt(labels);
    Facet("language_versions", Arr(LanguageList(labels)))
  }

  function LanguageList(labels: seq<Option<string>>): (r: seq<Json>)
    ensures |r| == |labels|
  {
    if labels == [] then [] else LanguageList(labels[..|labels| - 1]) + [JsonOf(labels[|labels| - 1])]
  }

  /** One entry per language element, its label or `null`. */
  lemma {:induction false} LanguageListAt(labels: seq<Option<string>>)
    ensures |LanguageList(labels)| == |labels|
    ensures forall k :: 0 <= k < |labels| ==> LanguageList(labels)[k] == JsonOf(labels[k])
  {
    if labels != [] {
      var init := labels[..|labels| - 1];
      LanguageListAt(init);
      assert forall k :: 0 <= k < |init| ==> init[k] == labels[k];
    }
  }

  method CollectLanguages(labels: seq<Option<string>>) returns (r: Facet)
    ensures r == Languages(labels)
  {
    var items: seq<Json> := [];
    var i := 0;
    while i < |labels|
      invariant 0 <= i <= |labels|
      invariant items == LanguageList(labels[..i])
    {
      assert labels[..i + 1][..i] == labels[..i];
      items := items + [JsonOf(labels[i])];
      i := i + 1;
    }
    assert labels[..|labels|] == labels;
    LanguageListAt(labels);
    r := Facet("language_versions", Arr(items));
  }

  /** `getIdentifier`: the upper-cased identifier (the UUID it draws is unused). */
  function Identifier(identifier: string): (r: Facet)
    ensures r.kind == "identifier" && r.data == Obj([("identifier", Str(Upper(identifier)))])
  {
    Facet("identifier", Obj([("identifier", Str(Upper(identifier)))]))
  }

  /** The identifier facet does not depend on the case of the identifier. */
  lemma IdentifierIgnoresCase(identifier: string)
    ensures Identifier(Upper(identifier)) == Identifier(identifier)
  {
    UpperIdempotent(identifier);
  }

  // ---------------------------------------------------------------------------
  // buildData_Object_Json

  /** The first four values, in source order: is_data_object_of,
      last_modified, source, item_file_size. */
  function Front(sec: Section, versionPid: Option<string>): Result<seq<Facet>> {
    var r1 := Then(Ok([]), true, Ok(Some(Facet("is_data_object_of", JsonOf(versionPid)))));
    var r2 := Then(r1, true, LegacyWorkRecord.LastModifiedFacet(sec.dateLastModified, sec.timeLastModified));
    var r3 := Then(r2, true, Ok(Some(SourcePlaceholder)));
    Then(r3, true, Ok(ItemFileSize(sec.fileSize)))
  }

  /** The three description getters: comment, accessStatus, specificCarrierType. */
  function Back(acc: Result<seq<Facet>>, sec: Section): (r: Result<seq<Facet>>)
    ensures acc.Raised? ==> r == acc
  {
    var r5 := Then(acc, true, DescriptionText(sec.descriptions, Comment));
    var r6 := Then(r5, true, DescriptionText(sec.descriptions, AccessStatus));
    Then(r6, true, DescriptionText(sec.descriptions, SpecificCarrierType))
  }

  /** `buildData_Object_Json(dmdsec, ns, dataobjectPid, workpid)`; the script
      passes the Version PID as `workpid`. */
  function DataObjectJson(sec: Section, dataObjectPid: string, versionPid: Option<string>): (r: Result<seq<Facet>>)
    ensures r.Ok? ==> |r.value| >= 1 && r.value[|r.value| - 1] == Facet(ProfileKind, Str(DataObjectProfile))
  {
    Close(Back(Front(sec, versionPid), sec), DataObjectProfile)
  }

  /** The description getters only ever raise: when they do not, the record
      is the PID it belongs to, the date, the placeholder source, the file
      size if there is one, and the profile. */
  lemma RecordShape(sec: Section, dataObjectPid: string, versionPid: Option<string>)
    requires DataObjectJson(sec, dataObjectPid, versionPid).Ok?
    ensures var lm := LegacyWorkRecord.LastModifiedFacet(sec.dateLastModified, sec.timeLastModified);
            && lm.Ok? && lm.value.Some?
            && DataObjectJson(sec, dataObjectPid, versionPid).value
               == [Facet("is_data_object_of", JsonOf(versionPid)), lm.value.value, SourcePlaceholder]
                  + (if sec.fileSize.Some? then [ItemFileSize(sec.fileSize).value] else [])
                  + [Facet(ProfileKind, Str(DataObjectProfile))]
  {
    var lm := LegacyWorkRecord.LastModifiedFacet(sec.dateLastModified, sec.timeLastModified);
    var front := Front(sec, versionPid);
    DescriptionTextRaisesIff(sec.descriptions, Comment);
    DescriptionTextRaisesIff(sec.descriptions, AccessStatus);
    DescriptionTextRaisesIff(sec.descriptions, SpecificCarrierType);
    assert Back(front, sec) == front;
    var head := [Facet("is_data_object_of", JsonOf(versionPid)), lm.value.value, SourcePlaceholder];
    var size := if sec.fileSize.Some? then [ItemFileSize(sec.fileSize).value] else [];
    assert [] + [head[0]] == [head[0]] && [head[0]] + [head[1]] == head[..2] && head[..2] + [head[2]] == head;
    assert head + [] == head;
    assert front == Ok(head + size);
  }

  /** The record has four or five entries, five exactly when there is a file size. */
  lemma RecordLength(sec: Section, dataObjectPid: string, versionPid: Option<string>)
    requires DataObjectJson(sec, dataObjectPid, versionPid).Ok?
    ensures |DataObjectJson(sec, dataObjectPid, versionPid).value| == (if sec.fileSize.Some? then 5 else 4)
  {
    RecordShape(sec, dataObjectPid, versionPid);
  }

  /** The build raises exactly when the date raises or a description with one
      of the three labels lacks its text; the DataObject PID has no effect. */
  lemma RaisesIff(sec: Section, dataObjectPid: string, dataObjectPid': string, versionPid: Option<string>)
    ensures DataObjectJson(sec, dataObjectPid, versionPid) == DataObjectJson(sec, dataObjectPid', versionPid)
    ensures DataObjectJson(sec, dataObjectPid, versionPid).Raised?
            <==> LegacyWorkRecord.LastModifiedFacet(sec.dateLastModified, sec.timeLastModified).Raised?
                 || DescriptionText(sec.descriptions, Comment).Raised?
                 || DescriptionText(sec.descriptions, AccessStatus).Raised?
                 || DescriptionText(sec.descriptions, SpecificCarrierType).Raised?
  {
  }

  /** `buildData_Object_Json`, getter by getter. */
  method BuildDataObjectJson(sec: Section, dataObjectPid: string, versionPid: Option<string>) returns (r: Result<seq<Facet>>)
    ensures r == DataObjectJson(sec, dataObjectPid, versionPid)
  {
    var values, failure := AppendFront(sec, versionPid);
    if failure.Some? {
      return Raised(failure.value);
    }
    values, failure := AppendBack(sec, values);
    if failure.Some? {
      return Raised(failure.value);
    }
    PresentSnoc(values, Some(Facet(ProfileKind, Str(DataObjectProfile))));
    values := values + [Some(Facet(ProfileKind, Str(DataObjectProfile)))];
    var kept := KeepPresent(values);
    r := Ok(kept);
  }

  method AppendFront(sec: Section, versionPid: Option<string>) returns (values: seq<Option<Facet>>, failure: Option<Exception>)
    ensures Agrees(Front(sec, versionPid), values, failure)
  {
    values, failure := [], None;
    var of := Facet("is_data_object_of", JsonOf(versionPid));
    ThenKeepsPresent(values, true, Ok(Some(of)));
    values := values + [Some(of)];
    var date := LegacyWorkRecord.LastModifiedFacet(sec.dateLastModified, sec.timeLastModified);
    if date.Raised? {
      return values, Some(date.error);
    }
    ThenKeepsPresent(values, true, date);
    values := values + [date.value];
    ThenKeepsPresent(values, true, Ok(Some(SourcePlaceholder)));
    values := values + [Some(SourcePlaceholder)];
    ThenKeepsPresent(values, true, Ok(ItemFileSize(sec.fileSize)));
    values := values + [ItemFileSize(sec.fileSize)];
  }

  method AppendBack(sec: Section, values0: seq<Option<Facet>>) returns (values: seq<Option<Facet>>, failure: Option<Exception>)
    ensures Agrees(Back(Ok(Present(values0)), sec), values, failure)
  {
    values, failure := values0, None;
    var got := ScanDescriptions(sec.descriptions, Comment);
    if got.Raised? {
      return values, Some(got.error);
    }
    ThenKeepsPresent(values, true, got);
    values := values + [got.value];
    got := ScanDescriptions(sec.descriptions, AccessStatus);
    if got.Raised? {
      return values, Some(got.error);
    }
    ThenKeepsPresent(values, true, got);
    values := values + [got.value];
    got := ScanDescriptions(sec.descriptions, SpecificCarrierType);
    if got.Raised? {
      return values, Some(got.error);
    }
    ThenKeepsPresent(values, true, got);
    values := values + [got.value];
  }
}
