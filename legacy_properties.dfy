/** What the module-level script of metstohandle.py guarantees, and where it
    differs from `m2h`: 201-gated writes, the Work candidate recorded before
    the PUT, the flags shared across sections, the Version path that always
    raises, and the two exclusive DataObject cases. */
module LegacyProperties {
  import opened Py
  import opened Text
  import opened Relations
  import opened Mets
  import opened Registry
  import opened LegacyEngine

  // ---------------------------------------------------------------------------
  // Work sections

  /** Once the Work flag is set, a later Work section only collects its handle
      PIDs: no UUID, no PUT, no edit. */
  lemma LaterWorkSectionNotMinted(env: Env, s: State, i: nat)
    requires i < |s.doc.dmdSecs| && s.workHasPid
    ensures WorkStep(env, s, i) == Outcome(s.(workPids := s.workPids + HandlePids(s.doc.dmdSecs[i].identifiers)), None)
  {
  }

  /** While the flag is clear and the section has no handle, the uppercased
      candidate joins the Work PIDs and one Work PUT goes out under the fresh
      UUID, whatever the registry answers; the returned handle never joins
      the list. */
  lemma MintedCandidateRecorded(env: Env, s: State, i: nat)
    requires i < |s.doc.dmdSecs| && !s.workHasPid
    requires HandlePids(s.doc.dmdSecs[i].identifiers) == []
    ensures var o := WorkStep(env, s, i);
            var uuid := env.uuid4(s.minted);
            && o.state.workPids == s.workPids + [Upper(CandidatePrefix + uuid)]
            && o.state.calls == s.calls + [Put(WorkEntity, uuid, WorkPayload(CandidatePrefix + uuid))]
            && o.state.puts == s.puts + 1 && o.state.uid == Some(uuid)
  {
    var uuid := env.uuid4(s.minted);
    var s1 := s.(workHasPid := false, workPids := s.workPids + []);
    assert s1 == s;
    var s2 := s1.(minted := s1.minted + 1, uid := Some(uuid), workPids := s1.workPids + [Upper(CandidatePrefix + uuid)]);
    var sent := Send(env, s2, WorkEntity, uuid, WorkPayload(CandidatePrefix + uuid));
    assert WorkStep(env, s, i) == Created(sent, i, env.reply(s2.puts));
  }

  /** Any status other than 201 leaves the document and the written files as they were. */
  lemma CreatedOnlyOn201(s: State, i: nat, reply: Reply)
    requires i < |s.doc.dmdSecs| && reply.status != 201
    ensures Created(s, i, reply) == Outcome(s, None)
  {
  }

  /** A 201 reply with a handle puts the handle's identifier first in the
      section and writes the edited document. */
  lemma CreatedRecordsHandle(s: State, i: nat, reply: Reply)
    requires i < |s.doc.dmdSecs| && reply.status == 201 && reply.handle.Some?
    requires s.doc.dmdSecs[i].identifiers != []
    ensures var o := Created(s, i, reply);
            && o.failure.None?
            && o.state.doc.dmdSecs[i].identifiers == [LegacyIdentifier(reply.handle.value)] + s.doc.dmdSecs[i].identifiers
            && o.state.written == s.written + [o.state.doc]
  {
  }

  /** A Work section edits the document or writes a file only on a 201 reply to its PUT. */
  lemma WorkWritesOnlyOn201(env: Env, s: State, i: nat)
    requires i < |s.doc.dmdSecs| && env.reply(s.puts).status != 201
    ensures var o := WorkStep(env, s, i);
            o.state.doc == s.doc && o.state.written == s.written && o.failure.None?
  {
    if !s.workHasPid && HandlePids(s.doc.dmdSecs[i].identifiers) == [] {
      MintedCandidateRecorded(env, s, i);
      var uuid := env.uuid4(s.minted);
      var s2 := s.(minted := s.minted + 1, uid := Some(uuid), workPids := s.workPids + [Upper(CandidatePrefix + uuid)]);
      CreatedOnlyOn201(Send(env, s2, WorkEntity, uuid, WorkPayload(CandidatePrefix + uuid)), i, env.reply(s.puts));
    }
  }

  // ---------------------------------------------------------------------------
  // Version sections

  /** Identifiers without the handle label are passed over by the scan. */
  lemma {:induction false} ScanSkips(env: Env, s: State, ids: seq<Identifier>, j: nat, k: nat)
    requires j <= k <= |ids|
    requires forall m :: j <= m < k ==> !IsHandle(ids[m])
    ensures VersionScan(env, s, ids, j) == VersionScan(env, s, ids, k)
    decreases k - j
  {
    if j < k {
      ScanSkips(env, s, ids, j + 1, k);
    }
  }

  /** A Version section holding exactly one handle, whose stored record is
      readable: `version_pid` becomes the handle, `dataObjectPids` is the
      DataObject candidate followed by the fetched list, `uid` becomes the
      text before the handle's first '/', one GET and no PUT are sent. */
  lemma ExistingVersionAdopted(env: Env, s: State, i: nat, k: nat)
    requires i < |s.doc.dmdSecs|
    requires var ids := s.doc.dmdSecs[i].identifiers;
             k < |ids| && IsHandle(ids[k]) && forall m :: 0 <= m < |ids| && m != k ==> !IsHandle(ids[m])
    requires var pid := Trim(PyStr(s.doc.dmdSecs[i].identifiers[k].text));
             LocalName(pid).Some? && env.record(LocalName(pid).value).Some?
    ensures var pid := Trim(PyStr(s.doc.dmdSecs[i].identifiers[k].text));
            var local := LocalName(pid).value;
            var o := VersionStep(env, s, i);
            && o.failure.None? && o.state.versionHasPid
            && o.state.versionPid == Some(pid)
            && o.state.dataObjectPids == Some([s.dataObjectPid] + env.record(local).value)
            && o.state.uid == Some(Before(pid, '/'))
            && o.state.calls == s.calls + [Get(local)] && o.state.puts == s.puts
            && o.state.doc == s.doc
  {
    var ids := s.doc.dmdSecs[i].identifiers;
    var pid := Trim(PyStr(ids[k].text));
    var uuid := env.uuid4(s.minted);
    var s1 := s.(minted := s.minted + 1, uid := Some(uuid), versionPid := Some(CandidatePrefix + uuid),
                 dataObjectPids := Some([s.dataObjectPid]));
    AdoptReadableVersion(env, s1, pid);
    ScanOneHandle(env, s1, ids, k);
  }

  /** Adopting a handle whose stored record is readable appends its
      DataObject PIDs and one GET, and raises nothing. */
  lemma AdoptReadableVersion(env: Env, s: State, pid: string)
    requires LocalName(pid).Some? && env.record(LocalName(pid).value).Some?
    ensures var local := LocalName(pid).value;
            var list := if s.dataObjectPids.Some? then s.dataObjectPids.value else [];
            AdoptVersion(env, s, pid) ==
              Outcome(s.(versionHasPid := true, versionPid := Some(pid), uid := Some(Before(pid, '/')),
                         calls := s.calls + [Get(local)],
                         dataObjectPids := Some(list + env.record(local).value)), None)
  {
  }

  /** The scan of identifiers holding exactly one handle, which is adopted
      without failure, ends where adopting that handle does. */
  lemma ScanOneHandle(env: Env, s: State, ids: seq<Identifier>, k: nat)
    requires k < |ids| && IsHandle(ids[k]) && forall m :: 0 <= m < |ids| && m != k ==> !IsHandle(ids[m])
    requires AdoptVersion(env, s, Trim(PyStr(ids[k].text))).failure.None?
    ensures VersionScan(env, s, ids, 0) == AdoptVersion(env, s, Trim(PyStr(ids[k].text)))
  {
    var a := AdoptVersion(env, s, Trim(PyStr(ids[k].text)));
    ScanSkips(env, s, ids, 0, k);
    ScanSkips(env, a.state, ids, k + 1, |ids|);
    assert VersionScan(env, s, ids, k) == VersionScan(env, a.state, ids, k + 1);
  }

  /** A Version section with no handle, while no earlier Version section had
      one, raises `AttributeError` while building the payload: no PUT, no edit. */
  lemma FreshVersionRaises(env: Env, s: State, i: nat)
    requires i < |s.doc.dmdSecs| && !s.versionHasPid
    requires HandlePids(s.doc.dmdSecs[i].identifiers) == []
    ensures var o := VersionStep(env, s, i);
            o.failure == Some(AttributeError) && o.state.calls == s.calls && o.state.doc == s.doc
  {
    var ids := s.doc.dmdSecs[i].identifiers;
    var uuid := env.uuid4(s.minted);
    var s1 := s.(minted := s.minted + 1, uid := Some(uuid), versionPid := Some(CandidatePrefix + uuid),
                 dataObjectPids := Some([s.dataObjectPid]));
    NoHandlePids(ids);
    ScanSkips(env, s1, ids, 0, |ids|);
  }

  /** For a handle `<prefix>/<local name>` the script's `uid` is the prefix,
      while the stored record is fetched under the local name. */
  lemma VersionUidIsPrefix(prefix: string, local: string)
    requires '/' !in prefix && '/' !in local && prefix != local
    ensures var pid := prefix + "/" + local;
            Before(pid, '/') == prefix && LocalName(pid) == Some(local) && Some(Before(pid, '/')) != LocalName(pid)
  {
    HandleParts(prefix, local);
  }

  // ---------------------------------------------------------------------------
  // DataObject sections

  /** A DataObject section with a handle-labelled identifier sends nothing and changes nothing else. */
  lemma DataObjectWithHandleSendsNothing(env: Env, s: State, i: nat)
    requires i < |s.doc.dmdSecs| && HandlePids(s.doc.dmdSecs[i].identifiers) != []
    ensures DataObjectStep(env, s, i) == Outcome(s.(dataObjectHasPid := true), None)
  {
  }

  /** Case 1 — no DataObject and no Version handle — sends exactly the
      DataObject PUT under `dataobject_Uid` (or raises `NameError` before it
      when no Version section has bound `version_pid`); case 2 is then not
      entered. */
  lemma FreshDataObjectCase(env: Env, s: State, i: nat)
    requires i < |s.doc.dmdSecs| && !s.dataObjectHasPid && !s.versionHasPid
    requires HandlePids(s.doc.dmdSecs[i].identifiers) == []
    ensures var o := DataObjectStep(env, s, i);
            if s.versionPid.None? then o == Outcome(s, Some(NameError("version_pid")))
            else o.state.calls == s.calls + [Put(DataObjectEntity, s.dataObjectUuid,
                   DataObjectPayload(s.doc.dmdSecs[i].id, s.dataObjectPid, s.versionPid))]
                 && o.state.puts == s.puts + 1
                 && (o.failure.Some? ==> o.failure.value == KeyError || o.failure.value == AttributeError)
  {
    var s1 := s.(dataObjectHasPid := false);
    assert s1 == s;
    if s.versionPid.Some? {
      var payload := DataObjectPayload(s.doc.dmdSecs[i].id, s.dataObjectPid, s.versionPid);
      var c := Created(Send(env, s, DataObjectEntity, s.dataObjectUuid, payload), i, env.reply(s.puts));
      assert RegisterDataObject(env, s, i) == c;
      assert c.state.versionHasPid == false;
    }
  }

  /** Case 2 — Work and Version handles, no DataObject handle — raises
      `AttributeError` building the Version payload, before any PUT. */
  lemma KnownVersionDataObjectCase(env: Env, s: State, i: nat)
    requires i < |s.doc.dmdSecs| && s.workHasPid && s.versionHasPid && !s.dataObjectHasPid
    requires HandlePids(s.doc.dmdSecs[i].identifiers) == []
    ensures DataObjectStep(env, s, i) == Outcome(s, Some(AttributeError))
  {
    var s1 := s.(dataObjectHasPid := false);
    assert s1 == s;
  }

  /** A DataObject section sends at most one PUT, and only when neither the
      section nor any earlier Version section had a handle. */
  lemma DataObjectPutOnlyInCaseOne(env: Env, s: State, i: nat)
    requires i < |s.doc.dmdSecs|
    ensures var o := DataObjectStep(env, s, i);
            o.state.puts <= s.puts + 1
            && (o.state.puts == s.puts + 1 ==>
                  !s.versionHasPid && !s.dataObjectHasPid && HandlePids(s.doc.dmdSecs[i].identifiers) == [])
  {
    var s1 := s.(dataObjectHasPid := s.dataObjectHasPid || HandlePids(s.doc.dmdSecs[i].identifiers) != []);
    if !s1.dataObjectHasPid && !s1.versionHasPid {
      FreshDataObjectCase(env, s, i);
    }
  }

  // ---------------------------------------------------------------------------
  // The whole script

  /** No request in the log is a DataObject PUT. */
  predicate NoDataObjectPut(calls: seq<Call>) {
    forall k :: 0 <= k < |calls| ==> !(calls[k].Put? && calls[k].kind == DataObjectEntity)
  }

  /** Between sections of a run that has not raised, a bound `version_pid`
      means a Version handle was found: a Version section either raises or
      sets the flag. */
  predicate VersionBoundByHandle(s: State) {
    s.versionPid.Some? ==> s.versionHasPid
  }

  /** The identifier loop of a Version section sends only GETs. */
  lemma {:induction false} VersionScanSendsNoPut(env: Env, s: State, ids: seq<Identifier>, k: nat)
    requires k <= |ids| && NoDataObjectPut(s.calls)
    ensures NoDataObjectPut(VersionScan(env, s, ids, k).state.calls)
    decreases |ids| - k
  {
    if k < |ids| {
      if !IsHandle(ids[k]) {
        VersionScanSendsNoPut(env, s, ids, k + 1);
      } else {
        var o := AdoptVersion(env, s, Trim(PyStr(ids[k].text)));
        AdoptVersionSendsGet(env, s, Trim(PyStr(ids[k].text)));
        if o.failure.None? {
          VersionScanSendsNoPut(env, o.state, ids, k + 1);
        }
      }
    }
  }

  /** A Work section sends at most a Work PUT and leaves the Version state alone. */
  lemma WorkStepSendsNoDataObjectPut(env: Env, s: State, i: nat)
    requires i < |s.doc.dmdSecs| && NoDataObjectPut(s.calls)
    ensures NoDataObjectPut(WorkStep(env, s, i).state.calls)
  {
    var found := HandlePids(s.doc.dmdSecs[i].identifiers);
    var s1 := s.(workHasPid := s.workHasPid || found != [], workPids := s.workPids + found);
    if !s1.workHasPid {
      var uuid := env.uuid4(s1.minted);
      var s2 := s1.(minted := s1.minted + 1, uid := Some(uuid), workPids := s1.workPids + [Upper(CandidatePrefix + uuid)]);
      var sent := Send(env, s2, WorkEntity, uuid, WorkPayload(CandidatePrefix + uuid));
      assert WorkStep(env, s, i) == Created(sent, i, env.reply(s2.puts));
    }
  }

  /** A Version section sends no PUT, and one that does not raise has found a handle. */
  lemma VersionStepSetsFlag(env: Env, s: State, i: nat)
    requires i < |s.doc.dmdSecs| && NoDataObjectPut(s.calls)
    ensures var o := VersionStep(env, s, i);
            NoDataObjectPut(o.state.calls) && (o.failure.None? ==> o.state.versionHasPid)
  {
    var uuid := env.uuid4(s.minted);
    var s1 := s.(minted := s.minted + 1, uid := Some(uuid), versionPid := Some(CandidatePrefix + uuid),
                 dataObjectPids := Some([s.dataObjectPid]));
    VersionScanSendsNoPut(env, s1, s.doc.dmdSecs[i].identifiers, 0);
  }

  /** While `version_pid` is bound only by a handle, a DataObject section
      sends nothing: case 1 raises `NameError` before its PUT. */
  lemma DataObjectStepSendsNothing(env: Env, s: State, i: nat)
    requires i < |s.doc.dmdSecs| && VersionBoundByHandle(s)
    ensures DataObjectStep(env, s, i).state.calls == s.calls
  {
  }

  /** Adopting a Version handle sends at most one GET. */
  lemma AdoptVersionSendsGet(env: Env, s: State, pid: string)
    requires NoDataObjectPut(s.calls)
    ensures NoDataObjectPut(AdoptVersion(env, s, pid).state.calls)
  {
    var calls := AdoptVersion(env, s, pid).state.calls;
    if FetchTarget(pid).Ok? {
      assert calls == s.calls + [Get(FetchTarget(pid).value)];
    }
  }

  /** One dmdSec of a run in which `version_pid` is bound only by a handle
      sends no DataObject PUT, and keeps `version_pid` bound only by a handle. */
  lemma VisitSendsNoDataObjectPut(env: Env, s: State, i: nat)
    requires i < |s.doc.dmdSecs| && VersionBoundByHandle(s) && NoDataObjectPut(s.calls)
    ensures var o := Visit(env, s, i);
            NoDataObjectPut(o.state.calls) && (o.failure.None? ==> VersionBoundByHandle(o.state))
  {
    var id := s.doc.dmdSecs[i].id;
    var o1 := if id in s.works then WorkStep(env, s, i) else Outcome(s, None);
    if id in s.works {
      WorkStepSendsNoDataObjectPut(env, s, i);
    }
    if o1.failure.None? {
      var t := o1.state;
      var o2 := if id in t.versions then VersionStep(env, t, i) else Outcome(t, None);
      if id in t.versions {
        VersionStepSetsFlag(env, t, i);
      }
      if o2.failure.None? && id in t.dataObjects {
        DataObjectStepSendsNothing(env, o2.state, i);
      }
      assert Visit(env, s, i) == VisitLater(env, t, i, id);
    }
  }

  /** The dmdSecs from the i-th on send no DataObject PUT. */
  lemma {:induction false} SectionsSendNoDataObjectPut(env: Env, s: State, i: nat)
    requires i <= |s.doc.dmdSecs| && VersionBoundByHandle(s) && NoDataObjectPut(s.calls)
    ensures NoDataObjectPut(Sections(env, s, i).state.calls)
    decreases |s.doc.dmdSecs| - i
  {
    if i < |s.doc.dmdSecs| {
      SectionsStep(env, s, i);
      VisitSendsNoDataObjectPut(env, s, i);
      var o := Visit(env, s, i);
      if o.failure.None? {
        SectionsSendNoDataObjectPut(env, o.state, i + 1);
      }
    } else {
      SectionsDone(env, s);
    }
  }

  /** Case 1 of a DataObject section never sends its PUT in a whole run:
      `version_pid` is bound only by a Version section, which either raises
      or sets the Version flag, and case 1 needs the flag clear. */
  lemma ScriptNeverRegistersDataObject(env: Env, doc: Document)
    ensures NoDataObjectPut(Script(env, doc).state.calls)
  {
    SectionsSendNoDataObjectPut(env, Begun(env, Initial(doc)), 0);
  }

  /** The script never sends a Version PUT, whatever the document and the
      registry: every Version path raises before its PUT. */
  lemma ScriptNeverRegistersVersion(env: Env, doc: Document)
    ensures var o := Script(env, doc);
            forall k :: 0 <= k < |o.state.calls| ==> !(o.state.calls[k].Put? && o.state.calls[k].kind == VersionEntity)
  {
    var o := Script(env, doc);
    assert ScriptCalls(o.state.calls, o.state.dataObjectUuid);
    forall k | 0 <= k < |o.state.calls|
      ensures !(o.state.calls[k].Put? && o.state.calls[k].kind == VersionEntity)
    {
      assert ScriptCall(o.state.calls[k], o.state.dataObjectUuid);
    }
  }
}
