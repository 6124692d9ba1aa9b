/** The module-level script of metstohandle.py as it executes: its variables
    held by one object and updated in place, section by section, with the
    script's loops over the structMap, the dmdSecs and the identifiers. Every
    method is proved to leave the object where the step function of module
    LegacyEngine says, so the lemmas of LegacyProperties hold of it. */
module LegacyRun {
  import opened Py
  import opened Text
  import opened Relations
  import opened Mets
  import opened Registry
  import opened LegacyEngine
  import EngineRun

  class ScriptRun {
    /** The METS document, edited in place. */
    var doc: Document
    var works: seq<string>
    var versions: seq<string>
    var dataObjects: seq<string>
    /** `boolean_list_if_pids_exists[0]`, `[1]` and `[2]`. */
    var workHasPid: bool
    var versionHasPid: bool
    var dataObjectHasPid: bool
    /** `cinematographic_work_pids` */
    var workPids: seq<string>
    /** `uid`, `version_pid` and `dataObjectPids`, `None` while unbound. */
    var uid: Option<string>
    var versionPid: Option<string>
    var dataObjectPids: Option<seq<string>>
    /** `dataobject_Uid` and `dataobject_Pid` */
    var dataObjectUuid: string
    var dataObjectPid: string
    /** How many UUIDs have been drawn and how many PUTs sent. */
    var minted: nat
    var puts: nat
    /** The requests sent and the documents written, in order. */
    ghost var calls: seq<Call>
    ghost var written: seq<Document>

    ghost function Snapshot(): State
      reads this
    {
      State(doc, works, versions, dataObjects, workHasPid, versionHasPid, dataObjectHasPid,
            workPids, uid, versionPid, dataObjectPids, dataObjectUuid, dataObjectPid,
            minted, puts, calls, written)
    }

    /** Parsing and the classification loop over the structMap (:84-94). */
    constructor(document: Document)
      ensures Snapshot() == Initial(document)
    {
      var w, v, d := Classify(document.structMap);
      doc := document;
      works, versions, dataObjects := w, v, d;
      workHasPid, versionHasPid, dataObjectHasPid := false, false, false;
      workPids := [];
      uid, versionPid, dataObjectPids := None, None, None;
      dataObjectUuid, dataObjectPid := "", "";
      minted, puts := 0, 0;
      calls, written := [], [];
    }

    // -------------------------------------------------------------------------
    // Effects

    /** `str(uuid.uuid4())` */
    method NewUuid(env: Env) returns (uuid: string)
      modifies this
      ensures uuid == env.uuid4(old(minted))
      ensures Snapshot() == old(Snapshot()).(minted := old(minted) + 1)
    {
      uuid := env.uuid4(minted);
      minted := minted + 1;
    }

    /** `requests.put(url + uuid, data=json.dumps(payload))` */
    method Put(env: Env, kind: EntityKind, uuid: string, payload: Payload) returns (reply: Reply)
      modifies this
      ensures reply == env.reply(old(puts))
      ensures Snapshot() == Send(env, old(Snapshot()), kind, uuid, payload)
    {
      reply := env.reply(puts);
      puts := puts + 1;
      calls := calls + [Call.Put(kind, uuid, payload)];
    }

    /** The 201-gated tail of a registration: the handle from the reply is
        inserted before the section's first identifier and the file written. */
    method RecordCreated(i: nat, reply: Reply) returns (failure: Option<Exception>)
      requires i < |doc.dmdSecs|
      modifies this
      ensures Outcome(Snapshot(), failure) == Created(old(Snapshot()), i, reply)
    {
      if reply.status != 201 {
        return None;
      }
      if reply.handle.None? {
        return Some(KeyError);
      }
      match InsertIdentifier(doc.dmdSecs[i], reply.handle.value)
      case Raised(e) =>
        failure := Some(e);
      case Ok(sec) =>
        doc := doc.(dmdSecs := doc.dmdSecs[i := sec]);
        written := written + [doc];
        failure := None;
    }

    // -------------------------------------------------------------------------
    // Work section (:105-153)

    method WorkSection(env: Env, i: nat) returns (failure: Option<Exception>)
      requires i < |doc.dmdSecs|
      modifies this
      ensures Outcome(Snapshot(), failure) == WorkStep(env, old(Snapshot()), i)
    {
      var hasPid, pids := EngineRun.ScanHandles(doc.dmdSecs[i].identifiers, workHasPid, workPids);
      workHasPid, workPids := hasPid, pids;
      if workHasPid {
        return None;
      }
      failure := MintWorkPid(env, i);
    }

    /** The candidate recorded, then the PUT and its 201-gated tail (:116-153). */
    method MintWorkPid(env: Env, i: nat) returns (failure: Option<Exception>)
      requires i < |doc.dmdSecs|
      modifies this
      ensures Outcome(Snapshot(), failure) == MintWork(env, old(Snapshot()), i)
    {
      ghost var s0 := Snapshot();
      var u := NewUuid(env);
      uid := Some(u);
      var candidate := CandidatePrefix + u;
      workPids := workPids + [Upper(candidate)];
      ghost var s1 := s0.(minted := s0.minted + 1, uid := Some(u), workPids := s0.workPids + [Upper(candidate)]);
      assert Snapshot() == s1;
      MintWorkSends(env, s0, i);
      var reply := Put(env, WorkEntity, u, WorkPayload(candidate));
      failure := RecordCreated(i, reply);
    }

    /** `MintWork` as the PUT after the recorded candidate, then its tail. */
    static lemma MintWorkSends(env: Env, s: State, i: nat)
      requires i < |s.doc.dmdSecs|
      ensures var uuid := env.uuid4(s.minted);
              var candidate := CandidatePrefix + uuid;
              var s1 := s.(minted := s.minted + 1, uid := Some(uuid), workPids := s.workPids + [Upper(candidate)]);
              MintWork(env, s, i) == Created(Send(env, s1, WorkEntity, uuid, WorkPayload(candidate)), i, env.reply(s1.puts))
    {
    }

    // -------------------------------------------------------------------------
    // Version section (:158-206)

    method VersionSection(env: Env, i: nat) returns (failure: Option<Exception>)
      requires i < |doc.dmdSecs|
      modifies this
      ensures Outcome(Snapshot(), failure) == VersionStep(env, old(Snapshot()), i)
    {
      ghost var s0 := Snapshot();
      var u := NewUuid(env);
      uid := Some(u);
      versionPid := Some(CandidatePrefix + u);
      dataObjectPids := Some([dataObjectPid]);
      VersionStepScans(env, s0, i);
      assert Snapshot() == s0.(minted := s0.minted + 1, uid := Some(u), versionPid := Some(CandidatePrefix + u),
                               dataObjectPids := Some([s0.dataObjectPid]));
      failure := ScanVersionIdentifiers(env, doc.dmdSecs[i].identifiers);
      if failure.None? && !versionHasPid {
        failure := Some(AttributeError);
      }
    }

    /** `VersionStep` as the identifier loop after the fresh candidate, then
        the payload's failure when no handle was found. */
    static lemma VersionStepScans(env: Env, s: State, i: nat)
      requires i < |s.doc.dmdSecs|
      ensures var uuid := env.uuid4(s.minted);
              var s1 := s.(minted := s.minted + 1, uid := Some(uuid), versionPid := Some(CandidatePrefix + uuid),
                           dataObjectPids := Some([s.dataObjectPid]));
              var o := VersionScan(env, s1, s.doc.dmdSecs[i].identifiers, 0);
              VersionStep(env, s, i) == if o.failure.Some? || o.state.versionHasPid then o else Outcome(o.state, Some(AttributeError))
    {
    }

    /** The identifier loop of a Version section (:164-171). */
    method ScanVersionIdentifiers(env: Env, ids: seq<Identifier>) returns (failure: Option<Exception>)
      modifies this
      ensures Outcome(Snapshot(), failure) == VersionScan(env, old(Snapshot()), ids, 0)
    {
      ghost var cur := Snapshot();
      ghost var target := VersionScan(env, cur, ids, 0);
      failure := None;
      var k := 0;
      while k < |ids| && failure.None?
        invariant k <= |ids| && cur == Snapshot()
        invariant failure.None? ==> VersionScan(env, cur, ids, k) == target
        invariant failure.Some? ==> Outcome(cur, failure) == target
      {
        failure := ScanIdentifier(env, ids, k);
        cur := Snapshot();
        k := k + 1;
      }
      if failure.None? {
        ScanEnds(env, cur, ids);
      }
    }

    /** The identifier loop past its last identifier. */
    static lemma ScanEnds(env: Env, s: State, ids: seq<Identifier>)
      ensures VersionScan(env, s, ids, |ids|) == Outcome(s, None)
    {
    }

    /** One turn of the identifier loop: on failure the scan ends here,
        otherwise it goes on from the next identifier. */
    method ScanIdentifier(env: Env, ids: seq<Identifier>, k: nat) returns (failure: Option<Exception>)
      requires k < |ids|
      modifies this
      ensures failure.Some? ==> Outcome(Snapshot(), failure) == VersionScan(env, old(Snapshot()), ids, k)
      ensures failure.None? ==> VersionScan(env, Snapshot(), ids, k + 1) == VersionScan(env, old(Snapshot()), ids, k)
    {
      failure := None;
      if ids[k].formatLabel == Some(HandleLabel) {
        failure := AdoptHandle(env, Trim(PyStr(ids[k].text)));
      }
    }

    /** One handle of a Version section (:167-171). */
    method AdoptHandle(env: Env, pid: string) returns (failure: Option<Exception>)
      modifies this
      ensures Outcome(Snapshot(), failure) == AdoptVersion(env, old(Snapshot()), pid)
    {
      ghost var s1 := old(Snapshot()).(versionHasPid := true, versionPid := Some(pid), uid := Some(Before(pid, '/')));
      versionHasPid := true;
      versionPid := Some(pid);
      uid := Some(Before(pid, '/'));
      assert Snapshot() == s1;
      match FetchTarget(pid)
      case Raised(e) =>
        failure := Some(e);
      case Ok(local) =>
        calls := calls + [Get(local)];
        assert Snapshot() == s1.(calls := s1.calls + [Get(local)]);
        match env.record(local)
        case None =>
          failure := Some(UnreadableRecord);
        case Some(more) =>
          var list := if dataObjectPids.Some? then dataObjectPids.value else [];
          dataObjectPids := Some(list + more);
          failure := None;
    }

    // -------------------------------------------------------------------------
    // DataObject section (:211-278)

    method DataObjectSection(env: Env, i: nat) returns (failure: Option<Exception>)
      requires i < |doc.dmdSecs|
      modifies this
      ensures Outcome(Snapshot(), failure) == DataObjectStep(env, old(Snapshot()), i)
    {
      dataObjectHasPid := EngineRun.ScanForHandle(doc.dmdSecs[i].identifiers, dataObjectHasPid);
      failure := None;
      if !dataObjectHasPid && !versionHasPid {
        failure := RegisterDataObjectRecord(env, i);
      }
      if failure.None? && workHasPid && versionHasPid && !dataObjectHasPid {
        failure := Some(AttributeError);
      }
    }

    /** Case 1 (:220-243). */
    method RegisterDataObjectRecord(env: Env, i: nat) returns (failure: Option<Exception>)
      requires i < |doc.dmdSecs|
      modifies this
      ensures Outcome(Snapshot(), failure) == RegisterDataObject(env, old(Snapshot()), i)
    {
      if versionPid.None? {
        return Some(NameError("version_pid"));
      }
      var reply := Put(env, DataObjectEntity, dataObjectUuid, DataObjectPayload(doc.dmdSecs[i].id, dataObjectPid, versionPid));
      failure := RecordCreated(i, reply);
    }

    // -------------------------------------------------------------------------
    // The script

    method VisitSection(env: Env, i: nat) returns (failure: Option<Exception>)
      requires i < |doc.dmdSecs|
      modifies this
      ensures Outcome(Snapshot(), failure) == Visit(env, old(Snapshot()), i)
    {
      var id := doc.dmdSecs[i].id;
      failure := None;
      if id in works {
        failure := WorkSection(env, i);
      }
      if failure.None? && id in versions {
        failure := VersionSection(env, i);
      }
      if failure.None? && id in dataObjects {
        failure := DataObjectSection(env, i);
      }
    }

    /** The DataObject candidate (:99-100), then the loop over the dmdSecs. */
    method Begin(env: Env) returns (failure: Option<Exception>)
      modifies this
      ensures Outcome(Snapshot(), failure) == Sections(env, Begun(env, old(Snapshot())), 0)
    {
      var u := NewUuid(env);
      dataObjectUuid := u;
      dataObjectPid := CandidatePrefix + u;
      assert Snapshot() == Begun(env, old(Snapshot()));
      failure := VisitAll(env);
    }

    /** The loop over the dmdSecs (:102-278) until one raises. */
    method VisitAll(env: Env) returns (failure: Option<Exception>)
      modifies this
      ensures Outcome(Snapshot(), failure) == Sections(env, old(Snapshot()), 0)
    {
      ghost var cur := Snapshot();
      ghost var target := Sections(env, cur, 0);
      failure := None;
      var i := 0;
      while i < |doc.dmdSecs|
        invariant cur == Snapshot() && i <= |cur.doc.dmdSecs| && failure.None?
        invariant Sections(env, cur, i) == target
        decreases |cur.doc.dmdSecs| - i
      {
        failure := VisitNext(env, i, target);
        cur := Snapshot();
        if failure.Some? {
          return;
        }
        i := i + 1;
      }
      SectionsDone(env, cur);
    }

    method VisitNext(env: Env, i: nat, ghost target: Outcome) returns (failure: Option<Exception>)
      requires i < |doc.dmdSecs| && Sections(env, Snapshot(), i) == target
      modifies this
      ensures failure.Some? ==> Outcome(Snapshot(), failure) == target
      ensures failure.None? ==> i < |doc.dmdSecs| && Sections(env, Snapshot(), i + 1) == target
    {
      ghost var before := Snapshot();
      failure := VisitSection(env, i);
      ghost var o := Visit(env, before, i);
      assert Outcome(Snapshot(), failure) == o;
      SectionsStep(env, before, i);
    }
  }

  /** The script run on a parsed document. */
  method RunScript(env: Env, doc: Document) returns (run: ScriptRun, failure: Option<Exception>)
    ensures fresh(run)
    ensures Outcome(run.Snapshot(), failure) == Script(env, doc)
  {
    run := new ScriptRun(doc);
    failure := run.Begin(env);
  }
}
