/** The parts of a METS document the run reads and edits: the structMap's
    `mets:div`s and, per `mets:dmdSec`, its ID, its `ebucore:identifier`s and
    its relationship elements. A document is a value; an edit of the XML tree
    is a new value. */
module Mets {
  import opened Py
  import opened Text
  import opened Relations

  const WorkType := "cinematographicWork"
  const VersionType := "version"
  const DataObjectType := "dataObject"

  /** A `mets:div`: its `TYPE` and `DMDID` attributes. */
  datatype Div = Div(divType: string, dmdid: string)

  /** An `ebucore:identifier`: its `formatLabel` attribute and the text of its
      `dc:identifier` child. */
  datatype Identifier = Identifier(formatLabel: Option<string>, text: Option<string>)

  /** A `mets:dmdSec`. `identifiers` are the identifiers of its `coreMetadata`
      in document order; the relationship lists are in document order too. */
  datatype DmdSec = DmdSec(
    id: string,
    identifiers: seq<Identifier>,
    isVersionOfs: seq<Relation>,
    isPartOfs: seq<Relation>,
    hasParts: seq<Relation>)

  datatype Document = Document(structMap: seq<Div>, dmdSecs: seq<DmdSec>)

  // ---------------------------------------------------------------------------
  // Classification of the structMap

  /** The DMDIDs of the divs of one TYPE, in document order. */
  function DmdIds(divs: seq<Div>, divType: string): (r: seq<string>)
    ensures |r| <= |divs|
  {
    if divs == [] then []
    else
      var last := divs[|divs| - 1];
      DmdIds(divs[..|divs| - 1], divType) + (if last.divType == divType then [last.dmdid] else [])
  }

  lemma {:induction false} DmdIdsAppend(xs: seq<Div>, ys: seq<Div>, divType: string)
    ensures DmdIds(xs + ys, divType) == DmdIds(xs, divType) + DmdIds(ys, divType)
    decreases |ys|
  {
    if ys == [] {
      assert xs + ys == xs;
    } else {
      assert (xs + ys)[..|xs + ys| - 1] == xs + ys[..|ys| - 1];
      DmdIdsAppend(xs, ys[..|ys| - 1], divType);
    }
  }

  /** A div of another TYPE contributes nothing to a list, wherever it stands;
      a div of the TYPE contributes its DMDID at its own position. */
  lemma DivGoesToItsList(xs: seq<Div>, d: Div, ys: seq<Div>, divType: string)
    ensures d.divType != divType ==> DmdIds(xs + [d] + ys, divType) == DmdIds(xs + ys, divType)
    ensures d.divType == divType ==> DmdIds(xs + [d] + ys, divType) == DmdIds(xs, divType) + [d.dmdid] + DmdIds(ys, divType)
  {
    DmdIdsAppend(xs + [d], ys, divType);
    DmdIdsAppend(xs, [d], divType);
    DmdIdsAppend(xs, ys, divType);
    assert DmdIds([d], divType) == DmdIds([], divType) + (if d.divType == divType then [d.dmdid] else []);
  }

  /** A DMDID is in a list exactly when some div of that TYPE carries it. */
  lemma {:induction false} DmdIdsMembership(divs: seq<Div>, divType: string, id: string)
    ensures id in DmdIds(divs, divType) <==> exists k :: 0 <= k < |divs| && divs[k] == Div(divType, id)
    decreases |divs|
  {
    if divs != [] {
      var init := divs[..|divs| - 1];
      DmdIdsMembership(init, divType, id);
      if exists k :: 0 <= k < |init| && init[k] == Div(divType, id) {
        var k :| 0 <= k < |init| && init[k] == Div(divType, id);
        assert divs[k] == Div(divType, id);
      }
      if exists k :: 0 <= k < |divs| && divs[k] == Div(divType, id) {
        var k :| 0 <= k < |divs| && divs[k] == Div(divType, id);
        if k < |init| {
          assert init[k] == Div(divType, id);
        }
      }
    }
  }

  /** The loop over `struct.findall('.//mets:div')` with its three independent tests. */
  method Classify(divs: seq<Div>) returns (works: seq<string>, versions: seq<string>, dataObjects: seq<string>)
    ensures works == DmdIds(divs, WorkType)
    ensures versions == DmdIds(divs, VersionType)
    ensures dataObjects == DmdIds(divs, DataObjectType)
  {
    works, versions, dataObjects := [], [], [];
    var i := 0;
    while i < |divs|
      invariant 0 <= i <= |divs|
      invariant works == DmdIds(divs[..i], WorkType)
      invariant versions == DmdIds(divs[..i], VersionType)
      invariant dataObjects == DmdIds(divs[..i], DataObjectType)
    {
      var elementType := divs[i].divType;
      if elementType == WorkType {
        works := works + [divs[i].dmdid];
      }
      if elementType == VersionType {
        versions := versions + [divs[i].dmdid];
      }
      if elementType == DataObjectType {
        dataObjects := dataObjects + [divs[i].dmdid];
      }
      assert divs[..i + 1][..i] == divs[..i];
      i := i + 1;
    }
    assert divs[..|divs|] == divs;
  }

  // ---------------------------------------------------------------------------
  // Handle identifiers

  predicate IsHandle(i: Identifier) {
    i.formatLabel == Some(HandleLabel)
  }

  /** `str(identifier.find('.//dc:identifier').text).strip()` for every
      identifier labelled `hdl.handle.net`, in document order. */
  function HandlePids(ids: seq<Identifier>): (r: seq<string>)
    ensures |r| <= |ids|
  {
    if ids == [] then []
    else
      var last := ids[|ids| - 1];
      HandlePids(ids[..|ids| - 1]) + (if IsHandle(last) then [Trim(PyStr(last.text))] else [])
  }

  /** A section has no handle PID exactly when none of its identifiers is labelled as a handle. */
  lemma {:induction false} NoHandlePids(ids: seq<Identifier>)
    ensures HandlePids(ids) == [] <==> forall k :: 0 <= k < |ids| ==> !IsHandle(ids[k])
    decreases |ids|
  {
    if ids != [] {
      var init := ids[..|ids| - 1];
      NoHandlePids(init);
      assert forall k :: 0 <= k < |init| ==> init[k] == ids[k];
    }
  }

  lemma {:induction false} HandlePidsAppend(xs: seq<Identifier>, ys: seq<Identifier>)
    ensures HandlePids(xs + ys) == HandlePids(xs) + HandlePids(ys)
    decreases |ys|
  {
    if ys == [] {
      assert xs + ys == xs;
    } else {
      assert (xs + ys)[..|xs + ys| - 1] == xs + ys[..|ys| - 1];
      HandlePidsAppend(xs, ys[..|ys| - 1]);
    }
  }

  /** The identifier-scanning loop the run repeats for every kind of section. */
  method CollectHandlePids(ids: seq<Identifier>) returns (pids: seq<string>)
    ensures pids == HandlePids(ids)
  {
    pids := [];
    var i := 0;
    while i < |ids|
      invariant 0 <= i <= |ids|
      invariant pids == HandlePids(ids[..i])
    {
      if ids[i].formatLabel == Some(HandleLabel) {
        pids := pids + [Trim(PyStr(ids[i].text))];
      }
      assert ids[..i + 1][..i] == ids[..i];
      i := i + 1;
    }
    assert ids[..|ids|] == ids;
  }

  /** The first handle-labelled identifier gives the first collected PID. */
  lemma {:induction false} FirstHandle(ids: seq<Identifier>, k: nat)
    requires k < |ids| && IsHandle(ids[k])
    requires forall j :: 0 <= j < k ==> !IsHandle(ids[j])
    ensures HandlePids(ids) != [] && HandlePids(ids)[0] == Trim(PyStr(ids[k].text))
  {
    var upTo := ids[..k + 1];
    assert upTo[..k] == ids[..k];
    NoHandlePids(ids[..k]);
    assert HandlePids(upTo) == [Trim(PyStr(ids[k].text))];
    assert ids == upTo + ids[k + 1..];
    HandlePidsAppend(upTo, ids[k + 1..]);
  }

  /** The layout whitespace `create_identifier_element` puts around the PID. */
  const IdentifierLead := "\n                    "
  const IdentifierTrail := "\n              "

  /** `create_identifier_element(pid)`: a handle-labelled identifier. */
  function NewIdentifier(pid: string): (i: Identifier)
    ensures IsHandle(i)
  {
    Identifier(Some(HandleLabel), Some(IdentifierLead + pid + IdentifierTrail))
  }

  /** An identifier written for `pid` is discovered, by the next scan, as the
      stripped `pid`: a re-run reads back the handle the registry returned. */
  lemma NewIdentifierReadBack(pid: string, ids: seq<Identifier>)
    ensures HandlePids([NewIdentifier(pid)] + ids) == [Trim(pid)] + HandlePids(ids)
  {
    HandlePidsAppend([NewIdentifier(pid)], ids);
    TrimPadded(IdentifierLead, pid, IdentifierTrail);
    assert HandlePids([NewIdentifier(pid)]) == HandlePids([]) + [Trim(PyStr(NewIdentifier(pid).text))];
  }

  /** `…find('ebucore:identifier').addprevious(new_ident)`: the new identifier
      goes before the first existing one; with none there, `None.addprevious`
      raises `AttributeError`. */
  function AddIdentifier(sec: DmdSec, pid: string): (r: Result<DmdSec>)
    ensures r.Ok? <==> sec.identifiers != []
    ensures r.Ok? ==> r.value.identifiers == [NewIdentifier(pid)] + sec.identifiers
                      && r.value.(identifiers := sec.identifiers) == sec
    ensures r.Raised? ==> r.error == AttributeError
  {
    if sec.identifiers == [] then Raised(AttributeError)
    else Ok(sec.(identifiers := [NewIdentifier(pid)] + sec.identifiers))
  }

  // ---------------------------------------------------------------------------
  // Relationship elements

  /** The list reversed. */
  function Reverse<T>(xs: seq<T>): (r: seq<T>)
    ensures |r| == |xs|
    ensures forall k :: 0 <= k < |xs| ==> r[k] == xs[|xs| - 1 - k]
  {
    if xs == [] then [] else [xs[|xs| - 1]] + Reverse(xs[..|xs| - 1])
  }

  /** One element per PID, in the order of the PIDs. */
  function RelationsFor(kind: RelationKind, pids: seq<string>): (r: seq<Relation>)
    ensures |r| == |pids|
    ensures forall k :: 0 <= k < |pids| ==> r[k] == Build(kind, Some(pids[k]))
  {
    seq(|pids|, k requires 0 <= k < |pids| => Build(kind, Some(pids[k])))
  }

  /** `for w in pids: dmdsec.find('.//ebucore:isVersionOf').addprevious(build(w))`:
      the anchor is looked up again each time, so each element goes before the
      one inserted just before it. */
  function StackIsVersionOfs(pids: seq<string>, existing: seq<Relation>): seq<Relation> {
    if pids == [] then existing
    else [BuildIsVersionOf(pids[|pids| - 1])] + StackIsVersionOfs(pids[..|pids| - 1], existing)
  }

  /** The insertion loop itself: each new element goes before the current first one. */
  method AddIsVersionOfs(pids: seq<string>, existing: seq<Relation>) returns (rels: seq<Relation>)
    ensures rels == StackIsVersionOfs(pids, existing)
  {
    rels := existing;
    var k := 0;
    while k < |pids|
      invariant 0 <= k <= |pids|
      invariant rels == StackIsVersionOfs(pids[..k], existing)
    {
      rels := [BuildIsVersionOf(pids[k])] + rels;
      assert pids[..k + 1][..k] == pids[..k];
      k := k + 1;
    }
    assert pids[..|pids|] == pids;
  }

  /** The isVersionOf elements end up in the reverse of the PID order. */
  lemma {:induction false} StackReversesOrder(pids: seq<string>, existing: seq<Relation>)
    ensures StackIsVersionOfs(pids, existing) == RelationsFor(IsVersionOf, Reverse(pids)) + existing
    decreases |pids|
  {
    if pids != [] {
      StackReversesOrder(pids[..|pids| - 1], existing);
      assert RelationsFor(IsVersionOf, Reverse(pids))
          == [BuildIsVersionOf(pids[|pids| - 1])] + RelationsFor(IsVersionOf, Reverse(pids[..|pids| - 1]));
    }
  }

  /** `for pid in pids: insert_here.addprevious(buildHasPartInXML(pid))` with a
      fixed anchor: the new elements keep the order of the PIDs. */
  function HasPartsFor(pids: seq<string>): (r: seq<Relation>)
    ensures r == RelationsFor(HasPart, pids)
  {
    if pids == [] then []
    else HasPartsFor(pids[..|pids| - 1]) + [BuildHasPart(pids[|pids| - 1])]
  }

  /** The insertion loop before the fixed anchor, collecting the new elements. */
  method BuildHasParts(pids: seq<string>) returns (rels: seq<Relation>)
    ensures rels == RelationsFor(HasPart, pids)
  {
    rels := [];
    var k := 0;
    while k < |pids|
      invariant 0 <= k <= |pids|
      invariant rels == HasPartsFor(pids[..k])
    {
      rels := rels + [BuildHasPart(pids[k])];
      assert pids[..k + 1][..k] == pids[..k];
      k := k + 1;
    }
    assert pids[..|pids|] == pids;
  }

  /** The PIDs a list of relationship elements records, as the run reads them. */
  function RecordedPids(rels: seq<Relation>): set<string> {
    set r | r in rels :: RecordedPid(r)
  }

  /** `dmdsec.xpath('.//ebucore:hasPart[@formatLabel="hdl.handle.net"]')` */
  function SelectRootLabelled(rels: seq<Relation>): (r: seq<Relation>)
    ensures forall x :: x in r <==> x in rels && LabelledOnRoot(x)
  {
    if rels == [] then []
    else SelectRootLabelled(rels[..|rels| - 1]) + (if LabelledOnRoot(rels[|rels| - 1]) then [rels[|rels| - 1]] else [])
  }

  /** The same query with the label where the builders put it. */
  function SelectChildLabelled(rels: seq<Relation>): (r: seq<Relation>)
    ensures forall x :: x in r <==> x in rels && LabelledOnChild(x)
  {
    if rels == [] then []
    else SelectChildLabelled(rels[..|rels| - 1]) + (if LabelledOnChild(rels[|rels| - 1]) then [rels[|rels| - 1]] else [])
  }

  function ToSet(xs: seq<string>): (r: set<string>)
    ensures forall x :: x in r <==> x in xs
  {
    set x | x in xs
  }
}
