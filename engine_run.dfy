/** The run `m2h` of mets2handle/metstohandle.py as it executes: an object
    holding the run's variables, updated in place section by section, with
    the loops over identifiers and relationship elements the source has.
    Every method is proved to leave the object where the step function of
    module Engine says, so the lemmas of EngineProperties hold of it. */
module EngineRun {
  import opened Py
  import opened Text
  import opened Relations
  import opened Mets
  import opened Registry
  import opened Engine

  /** The identifier loop of the Work section (:164-168): every handle sets
      the flag, and its stripped text joins the Work PIDs (collected here
      and appended to the run's list in one go). */
  method ScanHandles(ids: seq<Identifier>, hasPid0: bool, pids0: seq<string>) returns (hasPid: bool, pids: seq<string>)
    ensures pids == pids0 + HandlePids(ids)
    ensures hasPid == (hasPid0 || HandlePids(ids) != [])
  {
    hasPid := hasPid0;
    var found := [];
    var k := 0;
    while k < |ids|
      invariant 0 <= k <= |ids|
      invariant found == HandlePids(ids[..k])
      invariant hasPid == (hasPid0 || found != [])
    {
      assert ids[..k + 1][..k] == ids[..k];
      if ids[k].formatLabel == Some(HandleLabel) {
        hasPid := true;
        found := found + [Trim(PyStr(ids[k].text))];
      }
      k := k + 1;
    }
    assert ids[..|ids|] == ids;
    pids := pids0 + found;
  }

  /** The identifier loop of the DataObject section (:317-321): any handle sets the flag. */
  method ScanForHandle(ids: seq<Identifier>, hasPid0: bool) returns (hasPid: bool)
    ensures hasPid == (hasPid0 || HandlePids(ids) != [])
  {
    hasPid := hasPid0;
    var k := 0;
    while k < |ids|
      invariant 0 <= k <= |ids|
      invariant hasPid == (hasPid0 || HandlePids(ids[..k]) != [])
    {
      assert ids[..k + 1][..k] == ids[..k];
      if ids[k].formatLabel == Some(HandleLabel) {
        hasPid := true;
      }
      k := k + 1;
    }
    assert ids[..|ids|] == ids;
  }

  class Run {
    /** The METS document, edited in place. */
    var doc: Document
    var works: seq<string>
    var versions: seq<string>
    var dataObjects: seq<string>
    /** `boolean_list_if_pids_exists[0]`, `[1]` and `[2]`. */
    var workHasPid: bool
    var versionHasPid: bool
    var dataObjectHasPid: bool
    /** `cinematographic_work_pids` */
    var workPids: seq<string>
    /** `dataObjectPids`, `None` while unbound. */
    var dataObjectPids: Option<seq<string>>
    var versionPid: Option<string>
    var versionUuid: Option<string>
    var dataObjectUuid: string
    var dataObjectPid: string
    /** How many UUIDs have been drawn and how many PUTs sent. */
    var minted: nat
    var puts: nat
    /** The requests sent and the documents written, in order. */
    ghost var calls: seq<Call>
    ghost var written: seq<Document>

    ghost function Snapshot(): State
      reads this
    {
      State(doc, works, versions, dataObjects, workHasPid, versionHasPid, dataObjectHasPid,
            workPids, dataObjectPids, versionPid, versionUuid, dataObjectUuid, dataObjectPid,
            minted, puts, calls, written)
    }

    /** Parsing and the classification loop over the structMap (:120-130). */
    constructor(document: Document, versionHint: Option<string>)
      ensures Snapshot() == Initial(document, versionHint)
    {
      var w, v, d := Classify(document.structMap);
      doc := document;
      works, versions, dataObjects := w, v, d;
      workHasPid, versionHasPid, dataObjectHasPid := false, false, false;
      workPids, dataObjectPids := [], None;
      versionPid, versionUuid := versionHint, None;
      dataObjectUuid, dataObjectPid := "", "";
      minted, puts := 0, 0;
      calls, written := [], [];
    }

    // -------------------------------------------------------------------------
    // Effects

    /** `str(uuid.uuid4())` */
    method NewUuid(env: Env) returns (uuid: string)
      modifies this
      ensures uuid == env.uuid4(old(minted))
      ensures Snapshot() == old(Snapshot()).(minted := old(minted) + 1)
    {
      uuid := env.uuid4(minted);
      minted := minted + 1;
    }

    /** `requests.put(url + uuid, data=json.dumps(payload))` */
    method Put(env: Env, kind: EntityKind, uuid: string, payload: Payload) returns (reply: Reply)
      modifies this
      ensures var r := Register(env, old(Snapshot()), kind, uuid, payload);
              reply == r.reply && Snapshot() == r.state
    {
      reply := env.reply(puts);
      puts := puts + 1;
      calls := calls + [Call.Put(kind, uuid, payload)];
    }

    /** `baum.write(metsfile)` */
    method WriteDocument()
      modifies this
      ensures Snapshot() == Write(old(Snapshot()))
    {
      written := written + [doc];
    }

    /** The i-th dmdSec replaced by its edited form. */
    method EditSection(i: nat, sec: DmdSec)
      requires i < |doc.dmdSecs|
      modifies this
      ensures Snapshot() == Edit(old(Snapshot()), i, sec)
    {
      doc := doc.(dmdSecs := doc.dmdSecs[i := sec]);
    }

    /** `helpers.getDAtaObejctPidsFrom_Versionhandle(pid, …)` */
    method FetchRecord(env: Env, pid: Option<string>) returns (result: Result<seq<string>>)
      modifies this
      ensures var f := Fetch(env, old(Snapshot()), pid);
              result == f.result && Snapshot() == f.state
    {
      if pid.None? {
        return Raised(AttributeError);
      }
      match FetchTarget(pid.value)
      case Raised(e) =>
        result := Raised(e);
      case Ok(local) =>
        calls := calls + [Get(local)];
        match env.record(local)
        case None =>
          result := Raised(UnreadableRecord);
        case Some(pids) =>
          result := Ok(pids);
    }

    // -------------------------------------------------------------------------
    // Work section (:160-219)

    method WorkSection(env: Env, workHint: Option<string>, i: nat) returns (failure: Option<Exception>)
      requires i < |doc.dmdSecs|
      modifies this
      ensures Outcome(Snapshot(), failure) == WorkStep(env, workHint, old(Snapshot()), i)
    {
      var hasPid, pids := ScanHandles(doc.dmdSecs[i].identifiers, workHasPid, workPids);
      ghost var scanned := old(Snapshot()).(workHasPid := hasPid, workPids := pids);
      assert WorkStep(env, workHint, old(Snapshot()), i) == SettleWork(env, workHint, scanned, i);
      workHasPid, workPids := hasPid, pids;
      assert Snapshot() == scanned;
      failure := SettleWorkPid(env, workHint, i);
    }

    /** The hint, the flag or a new registration decides the PID (:170-202). */
    method SettleWorkPid(env: Env, workHint: Option<string>, i: nat) returns (failure: Option<Exception>)
      requires i < |doc.dmdSecs|
      modifies this
      ensures Outcome(Snapshot(), failure) == SettleWork(env, workHint, old(Snapshot()), i)
    {
      if Given(workHint) {
        if !workHasPid {
          failure := RecordWorkPid(i, workHint.value);
        } else if workHint.value in workPids {
          failure := None;
        } else {
          failure := Some(PidClash("work"));
        }
      } else if workHasPid {
        failure := None;
      } else {
        var uuid := NewUuid(env);
        var reply := Put(env, WorkEntity, uuid, WorkPayload(CandidatePrefix + uuid));
        match Accept(reply)
        case Raised(e) =>
          failure := Some(e);
        case Ok(pid) =>
          if pid != "" {
            failure := RecordWorkPid(i, pid);
          } else {
            failure := None;
          }
      }
    }

    /** The Work PID appended and written into the section (:204-219). */
    method RecordWorkPid(i: nat, pid: string) returns (failure: Option<Exception>)
      requires i < |doc.dmdSecs|
      modifies this
      ensures Outcome(Snapshot(), failure) == RecordWork(old(Snapshot()), i, pid)
    {
      workPids := workPids + [pid];
      match AddIdentifier(doc.dmdSecs[i], pid)
      case Raised(e) =>
        failure := Some(e);
      case Ok(sec) =>
        EditSection(i, sec);
        WriteDocument();
        failure := None;
    }

    // -------------------------------------------------------------------------
    // Version section (:224-310)

    method VersionSection(env: Env, i: nat) returns (failure: Option<Exception>)
      requires i < |doc.dmdSecs|
      modifies this
      ensures Outcome(Snapshot(), failure) == VersionStep(env, old(Snapshot()), i)
    {
      var ids := doc.dmdSecs[i].identifiers;
      var k := 0;
      while k < |ids| && ids[k].formatLabel != Some(HandleLabel)
        invariant 0 <= k <= |ids|
        invariant forall j :: 0 <= j < k ==> !IsHandle(ids[j])
      {
        k := k + 1;
      }
      if k == |ids| {
        NoHandlePids(ids);
        failure := ResolveVersion(env, i, None);
        return;
      }
      FirstHandle(ids, k);
      versionHasPid := true;
      failure := CheckExistingVersion(env, i, Trim(PyStr(ids[k].text)));
    }

    /** The first handle: the hint check, its UUID and the lookup (:232-241). */
    method CheckExistingVersion(env: Env, i: nat, existing: string) returns (failure: Option<Exception>)
      requires i < |doc.dmdSecs|
      modifies this
      ensures Outcome(Snapshot(), failure) == VersionExisting(env, old(Snapshot()), i, existing)
    {
      if Given(versionPid) && versionPid.value != existing {
        return Some(PidClash("version"));
      }
      match LocalName(existing)
      case None =>
        failure := Some(IndexError);
      case Some(u) =>
        versionUuid := Some(u);
        failure := LookupVersion(env, i, existing);
    }

    /** The stored DataObject PIDs appended to the list (:239-241). */
    method LookupVersion(env: Env, i: nat, existing: string) returns (failure: Option<Exception>)
      requires i < |doc.dmdSecs|
      modifies this
      ensures Outcome(Snapshot(), failure) == VersionLookup(env, old(Snapshot()), i, existing)
    {
      if dataObjectPids.None? {
        return Some(UnboundLocalError("dataObjectPids"));
      }
      var known := dataObjectPids.value;
      var fetched := FetchRecord(env, versionPid);
      match fetched
      case Raised(e) =>
        failure := Some(e);
      case Ok(more) =>
        dataObjectPids := Some(known + more);
        failure := ResolveVersion(env, i, Some(existing));
    }

    /** Hint, mint or reuse (:243-272). */
    method ResolveVersion(env: Env, i: nat, existing: Option<string>) returns (failure: Option<Exception>)
      requires i < |doc.dmdSecs|
      modifies this
      ensures Outcome(Snapshot(), failure) == VersionResolve(env, old(Snapshot()), i, existing)
    {
      if Given(versionPid) {
        failure := AnnotateSection(i, if versionHasPid then None else versionPid);
      } else if !versionHasPid {
        failure := RegisterVersion(env, i);
      } else {
        failure := AnnotateSection(i, existing);
      }
    }

    /** No hint and no handle: a Version record is registered under a fresh
        UUID with the candidate PID (:249-266). */
    method RegisterVersion(env: Env, i: nat) returns (failure: Option<Exception>)
      requires i < |doc.dmdSecs| && !Given(versionPid) && !versionHasPid
      modifies this
      ensures Outcome(Snapshot(), failure) == VersionResolve(env, old(Snapshot()), i, None)
    {
      ghost var s0 := Snapshot();
      var uuid := NewUuid(env);
      versionUuid := Some(uuid);
      versionPid := Some(CandidatePrefix + uuid);
      dataObjectPids := Some([dataObjectPid]);
      ghost var s1 := s0.(minted := s0.minted + 1, versionUuid := Some(uuid), versionPid := Some(CandidatePrefix + uuid),
                          dataObjectPids := Some([s0.dataObjectPid]));
      assert Snapshot() == s1;
      var reply := Put(env, VersionEntity, uuid, VersionPayload(workPids, [dataObjectPid], versionPid));
      ghost var r := Register(env, s1, VersionEntity, uuid, VersionPayload(s1.workPids, [s1.dataObjectPid], s1.versionPid));
      assert Snapshot() == r.state && reply == r.reply;
      match Accept(reply)
      case Raised(e) =>
        failure := Some(e);
      case Ok(pid) =>
        failure := AnnotateSection(i, Some(pid));
    }

    /** With a PID the section is annotated; the hasPart update follows. */
    method AnnotateSection(i: nat, pid: Option<string>) returns (failure: Option<Exception>)
      requires i < |doc.dmdSecs|
      modifies this
      ensures Outcome(Snapshot(), failure) == VersionAnnotate(old(Snapshot()), i, pid)
    {
      if Given(pid) {
        failure := AnnotateVersionPid(i, pid.value);
        if failure.Some? {
          return;
        }
      }
      failure := UpdateHasParts(i, Given(pid));
    }

    /** `version_pid = pid`, the isVersionOf loop and the identifier (:273-286). */
    method AnnotateVersionPid(i: nat, pid: string) returns (failure: Option<Exception>)
      requires i < |doc.dmdSecs|
      modifies this
      ensures Outcome(Snapshot(), failure) == AnnotateVersion(old(Snapshot()), i, pid)
    {
      versionPid := Some(pid);
      var sec := doc.dmdSecs[i];
      if workPids != [] && sec.isVersionOfs == [] {
        return Some(AttributeError);
      }
      var stacked := AddIsVersionOfs(workPids, sec.isVersionOfs);
      var sec1 := sec.(isVersionOfs := stacked);
      match AddIdentifier(sec1, pid)
      case Raised(e) =>
        EditSection(i, sec1);
        failure := Some(e);
      case Ok(sec2) =>
        EditSection(i, sec2);
        failure := None;
    }

    /** The hasPart update (:288-310). */
    method UpdateHasParts(i: nat, modified: bool) returns (failure: Option<Exception>)
      requires i < |doc.dmdSecs|
      modifies this
      ensures Outcome(Snapshot(), failure) == ReconcileHasParts(old(Snapshot()), i, modified)
    {
      if dataObjectPids.None? {
        return Some(UnboundLocalError("dataObjectPids"));
      }
      if RecordedPids(SelectRootLabelled(doc.dmdSecs[i].hasParts)) == ToSet(dataObjectPids.value) {
        if modified {
          WriteDocument();
        }
        return None;
      }
      failure := InsertHasPartElements(i, dataObjectPids.value);
    }

    /** The insertion loop before the first hasPart and the removal of the old
        references. */
    method InsertHasPartElements(i: nat, dops: seq<string>) returns (failure: Option<Exception>)
      requires i < |doc.dmdSecs|
      modifies this
      ensures Outcome(Snapshot(), failure) == InsertHasParts(old(Snapshot()), i, dops)
    {
      var sec := doc.dmdSecs[i];
      if dops != [] && sec.hasParts == [] {
        return Some(AttributeError);
      }
      var added := BuildHasParts(dops);
      EditSection(i, sec.(hasParts := added + sec.hasParts));
      if SelectRootLabelled(sec.hasParts) != [] {
        return Some(NameError("data_object_references"));
      }
      WriteDocument();
      failure := None;
    }

    // -------------------------------------------------------------------------
    // DataObject section (:315-402)

    method DataObjectSection(env: Env, i: nat) returns (failure: Option<Exception>)
      requires i < |doc.dmdSecs|
      modifies this
      ensures Outcome(Snapshot(), failure) == DataObjectStep(env, old(Snapshot()), i)
    {
      dataObjectHasPid := ScanForHandle(doc.dmdSecs[i].identifiers, dataObjectHasPid);
      failure := None;
      if !dataObjectHasPid && !versionHasPid {
        failure := RegisterDataObjectRecord(env, i, true);
      }
      if failure.None? && workHasPid && versionHasPid && !dataObjectHasPid {
        failure := RegisterDataObjectRecord(env, i, false);
        if failure.None? {
          failure := ReputVersionRecord(env);
        }
      }
    }

    /** The DataObject PUT and the edits after it (:325-356, :358-389). */
    method RegisterDataObjectRecord(env: Env, i: nat, adopt: bool) returns (failure: Option<Exception>)
      requires i < |doc.dmdSecs|
      modifies this
      ensures Outcome(Snapshot(), failure) == RegisterDataObject(env, old(Snapshot()), i, adopt)
    {
      var sec := doc.dmdSecs[i];
      var reply := Put(env, DataObjectEntity, dataObjectUuid, DataObjectPayload(sec.id, dataObjectPid, versionPid));
      match Accept(reply)
      case Raised(e) =>
        failure := Some(e);
      case Ok(pid) =>
        if adopt {
          dataObjectPid := pid;
        }
        match AddIdentifier(sec, pid)
        case Raised(e) =>
          failure := Some(e);
        case Ok(sec1) =>
          if sec1.isPartOfs == [] {
            EditSection(i, sec1);
            failure := Some(AttributeError);
          } else {
            EditSection(i, sec1.(isPartOfs := [Build(IsPartOf, versionPid)] + sec1.isPartOfs));
            WriteDocument();
            failure := None;
          }
    }

    /** The second PUT of the Version record (:391-402). */
    method ReputVersionRecord(env: Env) returns (failure: Option<Exception>)
      modifies this
      ensures Outcome(Snapshot(), failure) == ReputVersion(env, old(Snapshot()))
    {
      if dataObjectPids.None? {
        return Some(UnboundLocalError("dataObjectPids"));
      }
      if versionUuid.None? {
        return Some(UnboundLocalError("version_uuid"));
      }
      var reply := Put(env, VersionEntity, versionUuid.value, VersionPayload(workPids, dataObjectPids.value, versionPid));
      failure := if IsErrorStatus(reply.status) then Some(HTTPError(reply.status)) else None;
    }

    // -------------------------------------------------------------------------
    // The run

    /** One dmdSec and its three independent tests. */
    method VisitSection(env: Env, workHint: Option<string>, i: nat) returns (failure: Option<Exception>)
      requires i < |doc.dmdSecs|
      modifies this
      ensures Outcome(Snapshot(), failure) == Visit(env, workHint, old(Snapshot()), i)
    {
      var id := doc.dmdSecs[i].id;
      failure := None;
      if id in works {
        failure := WorkSection(env, workHint, i);
      }
      if failure.None? && id in versions {
        failure := VersionSection(env, i);
      }
      if failure.None? && id in dataObjects {
        failure := DataObjectSection(env, i);
      }
    }

    /** Validation, the DataObject candidate (:152-153), then the loop over the
        dmdSecs until one raises. */
    method Execute(env: Env, workHint: Option<string>) returns (failure: Option<Exception>)
      modifies this
      ensures Outcome(Snapshot(), failure) == Start(env, workHint, old(Snapshot()))
    {
      failure := Validate(works, versions, dataObjects, workHint, versionPid);
      if failure.Some? {
        return;
      }
      failure := Begin(env, workHint);
    }

    /** The DataObject candidate (:152-153), then the loop over the dmdSecs. */
    method Begin(env: Env, workHint: Option<string>) returns (failure: Option<Exception>)
      modifies this
      ensures Outcome(Snapshot(), failure) == Sections(env, workHint, Begun(env, old(Snapshot())), 0)
    {
      var uuid := NewUuid(env);
      dataObjectUuid := uuid;
      dataObjectPid := env.prefix + "/" + uuid;
      assert Snapshot() == Begun(env, old(Snapshot()));
      failure := VisitAll(env, workHint);
    }

    /** The loop over the dmdSecs until one raises. */
    method VisitAll(env: Env, workHint: Option<string>) returns (failure: Option<Exception>)
      modifies this
      ensures Outcome(Snapshot(), failure) == Sections(env, workHint, old(Snapshot()), 0)
    {
      ghost var cur := Snapshot();
      ghost var target := Sections(env, workHint, cur, 0);
      failure := None;
      var i := 0;
      while i < |doc.dmdSecs|
        invariant cur == Snapshot() && i <= |cur.doc.dmdSecs| && failure.None?
        invariant Sections(env, workHint, cur, i) == target
        decreases |cur.doc.dmdSecs| - i
      {
        failure := VisitNext(env, workHint, i, target);
        cur := Snapshot();
        if failure.Some? {
          return;
        }
        i := i + 1;
      }
      SectionsDone(env, workHint, cur);
    }

    /** One turn of the loop: the rest of the run is what it was before,
        one section further on. */
    method VisitNext(env: Env, workHint: Option<string>, i: nat, ghost target: Outcome) returns (failure: Option<Exception>)
      requires i < |doc.dmdSecs| && Sections(env, workHint, Snapshot(), i) == target
      modifies this
      ensures failure.Some? ==> Outcome(Snapshot(), failure) == target
      ensures failure.None? ==> i < |doc.dmdSecs| && Sections(env, workHint, Snapshot(), i + 1) == target
    {
      ghost var before := Snapshot();
      failure := VisitSection(env, workHint, i);
      ghost var o := Visit(env, workHint, before, i);
      assert Outcome(Snapshot(), failure) == o;
      SectionsStep(env, workHint, before, i);
    }
  }

  /** `m2h(filename, work_pid=workHint, version_pid=versionHint)` */
  method RunM2h(env: Env, doc: Document, workHint: Option<string>, versionHint: Option<string>)
    returns (run: Run, failure: Option<Exception>)
    ensures fresh(run)
    ensures Outcome(run.Snapshot(), failure) == M2h(env, doc, workHint, versionHint)
  {
    run := new Run(doc, versionHint);
    failure := run.Execute(env, workHint);
  }
}
