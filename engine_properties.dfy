/** What the run `m2h` of mets2handle/metstohandle.py promises, stated over the
    step functions of module Engine: validation before any request, the three
    ways a Work PID is settled, the read-back of a registered handle, the
    hasPart update, and which requests the DataObject section can send. */
module EngineProperties {
  import opened Py
  import opened Text
  import opened Relations
  import opened Mets
  import opened Registry
  import opened Engine

  // ---------------------------------------------------------------------------
  // Validation

  /** A document with the wrong number of Version or DataObject divs, or an
      ambiguous Work hint, is refused before any request is sent or any file
      is written; a run that passes validation never raises a validation error. */
  lemma ValidationBeforeAnyRequest(env: Env, doc: Document, workHint: Option<string>, versionHint: Option<string>)
    ensures var s := Initial(doc, versionHint);
            var v := Validate(s.works, s.versions, s.dataObjects, workHint, versionHint);
            var o := M2h(env, doc, workHint, versionHint);
            (v.Some? ==> o == Outcome(s, v) && o.state.calls == [] && o.state.written == [])
            && (v.None? ==> o.failure.None? || RunError(o.failure.value))
  {
  }

  // ---------------------------------------------------------------------------
  // Work section

  /** A Work hint that the section's (or an earlier section's) handles do not
      contain ends the run, with nothing sent and nothing edited. */
  lemma WorkHintClash(env: Env, hint: string, s: State, i: nat)
    requires i < |s.doc.dmdSecs| && hint != ""
    requires var found := HandlePids(s.doc.dmdSecs[i].identifiers);
             (s.workHasPid || found != []) && hint !in s.workPids + found
    ensures var o := WorkStep(env, Some(hint), s, i);
            o.failure == Some(PidClash("work")) && o.state.calls == s.calls && o.state.doc == s.doc
  {
  }

  /** A Work hint among the known handles is accepted without any request or edit. */
  lemma WorkHintKnown(env: Env, hint: string, s: State, i: nat)
    requires i < |s.doc.dmdSecs| && hint != ""
    requires s.workHasPid || HandlePids(s.doc.dmdSecs[i].identifiers) != []
    requires hint in s.workPids + HandlePids(s.doc.dmdSecs[i].identifiers)
    ensures var o := WorkStep(env, Some(hint), s, i);
            o.failure.None? && o.state.calls == s.calls && o.state.doc == s.doc && o.state.written == s.written
            && o.state.workPids == s.workPids + HandlePids(s.doc.dmdSecs[i].identifiers)
  {
  }

  /** With no handle yet, the Work hint is adopted without a request: it is
      appended to the Work PIDs and written into the section, where the next
      scan reads it back. */
  lemma {:induction false} WorkHintAdopted(env: Env, hint: string, s: State, i: nat)
    requires i < |s.doc.dmdSecs| && hint != ""
    requires !s.workHasPid && HandlePids(s.doc.dmdSecs[i].identifiers) == []
    requires s.doc.dmdSecs[i].identifiers != []
    ensures var o := WorkStep(env, Some(hint), s, i);
            o.failure.None? && o.state.calls == s.calls && o.state.workPids == s.workPids + [hint]
            && HandlePids(o.state.doc.dmdSecs[i].identifiers) == [Trim(hint)]
            && o.state.written == s.written + [o.state.doc]
  {
    var s1 := s.(workHasPid := false, workPids := s.workPids + []);
    assert WorkStep(env, Some(hint), s, i) == RecordWork(s1, i, hint);
    RecordWorkReadBack(s1, i, hint);
  }

  /** Recording a Work PID appends it to the list and writes an identifier for
      it before the section's identifiers; the next scan reads it first. */
  lemma RecordWorkReadBack(s: State, i: nat, pid: string)
    requires i < |s.doc.dmdSecs| && s.doc.dmdSecs[i].identifiers != []
    ensures var o := RecordWork(s, i, pid);
            o.failure.None? && o.state.calls == s.calls && o.state.workPids == s.workPids + [pid]
            && HandlePids(o.state.doc.dmdSecs[i].identifiers) == [Trim(pid)] + HandlePids(s.doc.dmdSecs[i].identifiers)
            && o.state.written == s.written + [o.state.doc]
  {
    NewIdentifierReadBack(pid, s.doc.dmdSecs[i].identifiers);
  }

  /** Without a hint and without a handle, a Work record is registered under a
      fresh UUID; the handle of the reply is appended to the Work PIDs and
      written into the section, and a later scan of the section finds exactly it. */
  lemma {:induction false} MintedWorkHandleReadBack(env: Env, s: State, i: nat)
    requires i < |s.doc.dmdSecs|
    requires !s.workHasPid && HandlePids(s.doc.dmdSecs[i].identifiers) == []
    requires s.doc.dmdSecs[i].identifiers != []
    requires Accept(env.reply(s.puts)).Ok? && Accept(env.reply(s.puts)).value != ""
    ensures var o := WorkStep(env, None, s, i);
            var pid := Accept(env.reply(s.puts)).value;
            var uuid := env.uuid4(s.minted);
            o.failure.None?
            && o.state.calls == s.calls + [Put(WorkEntity, uuid, WorkPayload(CandidatePrefix + uuid))]
            && o.state.workPids == s.workPids + [pid]
            && HandlePids(o.state.doc.dmdSecs[i].identifiers) == [Trim(pid)]
            && o.state.written == s.written + [o.state.doc]
  {
    var uuid := env.uuid4(s.minted);
    var t := s.(minted := s.minted + 1, puts := s.puts + 1, calls := s.calls + [Put(WorkEntity, uuid, WorkPayload(CandidatePrefix + uuid))]);
    MintedWorkRecorded(env, s, i);
    RecordWorkReadBack(t, i, Accept(env.reply(s.puts)).value);
  }

  /** The registration's reply is recorded as the Work PID in the state after the PUT. */
  lemma MintedWorkRecorded(env: Env, s: State, i: nat)
    requires i < |s.doc.dmdSecs|
    requires !s.workHasPid && HandlePids(s.doc.dmdSecs[i].identifiers) == []
    requires Accept(env.reply(s.puts)).Ok? && Accept(env.reply(s.puts)).value != ""
    ensures var uuid := env.uuid4(s.minted);
            var t := s.(minted := s.minted + 1, puts := s.puts + 1, calls := s.calls + [Put(WorkEntity, uuid, WorkPayload(CandidatePrefix + uuid))]);
            WorkStep(env, None, s, i) == RecordWork(t, i, Accept(env.reply(s.puts)).value)
  {
    assert s.workPids + [] == s.workPids;
  }

  /** A registry error ends the run after the one PUT, before anything is written. */
  lemma WorkRegistrationRefused(env: Env, s: State, i: nat)
    requires i < |s.doc.dmdSecs|
    requires !s.workHasPid && HandlePids(s.doc.dmdSecs[i].identifiers) == []
    requires IsErrorStatus(env.reply(s.puts).status)
    ensures var o := WorkStep(env, None, s, i);
            o.failure == Some(HTTPError(env.reply(s.puts).status))
            && |o.state.calls| == |s.calls| + 1 && o.state.doc == s.doc && o.state.written == s.written
  {
  }

  /** Once a Work PID is known, a later Work section without a hint is neither
      registered nor annotated: only its own handles are collected. */
  lemma LaterWorkSectionOnlyCollected(env: Env, s: State, i: nat)
    requires i < |s.doc.dmdSecs| && s.workHasPid
    ensures var o := WorkStep(env, None, s, i);
            o.failure.None? && o.state.calls == s.calls && o.state.doc == s.doc && o.state.written == s.written
            && o.state.workPids == s.workPids + HandlePids(s.doc.dmdSecs[i].identifiers)
  {
  }

  // ---------------------------------------------------------------------------
  // Version section

  /** A Version hint that differs from the section's first handle ends the run
      before the lookup of the stored record. */
  lemma VersionHintClash(env: Env, s: State, i: nat)
    requires i < |s.doc.dmdSecs|
    requires var found := HandlePids(s.doc.dmdSecs[i].identifiers);
             found != [] && Given(s.versionPid) && s.versionPid.value != found[0]
    ensures var o := VersionStep(env, s, i);
            o.failure == Some(PidClash("version")) && o.state.calls == s.calls && o.state.doc == s.doc
  {
  }

  /** A section with a handle, looked up before any Version record was
      registered in this run, fails: the list it would extend is not yet bound. */
  lemma ExistingVersionMeetsUnboundList(env: Env, s: State, i: nat)
    requires i < |s.doc.dmdSecs|
    requires var found := HandlePids(s.doc.dmdSecs[i].identifiers);
             found != [] && (Given(s.versionPid) ==> s.versionPid.value == found[0]) && '/' in found[0]
    requires s.dataObjectPids.None?
    ensures var o := VersionStep(env, s, i);
            o.failure == Some(UnboundLocalError("dataObjectPids")) && o.state.calls == s.calls
  {
  }

  /** Some dmdSec from the i-th on is a Version section. */
  predicate VersionAhead(s: State, i: nat) {
    exists j :: i <= j < |s.doc.dmdSecs| && s.doc.dmdSecs[j].id in s.versions
  }

  /** Every Version section from the i-th on carries a handle. */
  predicate VersionsHandled(s: State, i: nat) {
    forall j :: i <= j < |s.doc.dmdSecs| && s.doc.dmdSecs[j].id in s.versions ==>
      HandlePids(s.doc.dmdSecs[j].identifiers) != []
  }

  /** A step at a section that is not a Version section keeps both facts for the later sections. */
  lemma LaterSectionsKept(s: State, t: State, i: nat)
    requires i < |s.doc.dmdSecs| && OnlySection(s, t, i) && t.versions == s.versions
    requires s.doc.dmdSecs[i].id !in s.versions
    requires VersionAhead(s, i) && VersionsHandled(s, i)
    ensures i + 1 < |t.doc.dmdSecs| && VersionAhead(t, i + 1) && VersionsHandled(t, i + 1)
  {
    var j :| i <= j < |s.doc.dmdSecs| && s.doc.dmdSecs[j].id in s.versions;
    assert t.doc.dmdSecs[j] == s.doc.dmdSecs[j];
    forall k | i + 1 <= k < |t.doc.dmdSecs| && t.doc.dmdSecs[k].id in t.versions
      ensures HandlePids(t.doc.dmdSecs[k].identifiers) != []
    {
      assert t.doc.dmdSecs[k] == s.doc.dmdSecs[k];
    }
  }

  /** No Version section of a run can get past an existing handle: a run whose
      Version sections all carry one never completes. Work and DataObject
      sections leave the DataObject PID list unbound, and the first Version
      section then raises. */
  lemma {:induction false} RegisteredVersionBlocksRun(env: Env, workHint: Option<string>, s: State, i: nat)
    requires i < |s.doc.dmdSecs| && s.dataObjectPids.None?
    requires VersionAhead(s, i) && VersionsHandled(s, i)
    ensures Sections(env, workHint, s, i).failure.Some?
    decreases |s.doc.dmdSecs| - i
  {
    var o := Visit(env, workHint, s, i);
    SectionsStep(env, workHint, s, i);
    if s.doc.dmdSecs[i].id in s.versions {
      VisitOfRegisteredVersionFails(env, workHint, s, i);
    } else if o.failure.None? {
      LaterSectionsKept(s, o.state, i);
      RegisteredVersionBlocksRun(env, workHint, o.state, i + 1);
    }
  }

  /** A Version section with a handle, visited while the DataObject PID list is
      unbound, raises (in its Work test, or in its Version test). */
  lemma VisitOfRegisteredVersionFails(env: Env, workHint: Option<string>, s: State, i: nat)
    requires i < |s.doc.dmdSecs| && s.dataObjectPids.None?
    requires s.doc.dmdSecs[i].id in s.versions && HandlePids(s.doc.dmdSecs[i].identifiers) != []
    ensures Visit(env, workHint, s, i).failure.Some?
  {
    var id := s.doc.dmdSecs[i].id;
    var o1 := if id in s.works then WorkStep(env, workHint, s, i) else Outcome(s, None);
    if o1.failure.None? {
      assert o1.state.doc == s.doc && o1.state.dataObjectPids.None?;
      assert VersionStep(env, o1.state, i).failure.Some?;
    }
  }

  /** The same at the level of the whole run: processing a document whose
      Version section already carries a handle ends in an exception. */
  lemma RerunOfRegisteredVersionFails(env: Env, doc: Document, workHint: Option<string>, versionHint: Option<string>)
    requires exists j :: 0 <= j < |doc.dmdSecs| && doc.dmdSecs[j].id in DmdIds(doc.structMap, VersionType)
    requires forall j :: 0 <= j < |doc.dmdSecs| && doc.dmdSecs[j].id in DmdIds(doc.structMap, VersionType) ==>
               HandlePids(doc.dmdSecs[j].identifiers) != []
    ensures M2h(env, doc, workHint, versionHint).failure.Some?
  {
    var s := Initial(doc, versionHint);
    if Validate(s.works, s.versions, s.dataObjects, workHint, versionHint).None? {
      var s1 := Begun(env, s);
      assert M2h(env, doc, workHint, versionHint) == Sections(env, workHint, s1, 0);
      assert s1.doc == doc && s1.versions == DmdIds(doc.structMap, VersionType);
      assert VersionAhead(s1, 0) && VersionsHandled(s1, 0);
      RegisteredVersionBlocksRun(env, workHint, s1, 0);
    }
  }

  /** A Version hint with no handle in the section is adopted as is: no UUID
      is drawn and no Version record is registered. */
  lemma VersionHintNeverRegistered(env: Env, s: State, i: nat)
    requires i < |s.doc.dmdSecs|
    requires HandlePids(s.doc.dmdSecs[i].identifiers) == [] && Given(s.versionPid)
    ensures var o := VersionStep(env, s, i);
            o.state.calls == s.calls && o.state.puts == s.puts && o.state.minted == s.minted
  {
  }

  /** With a Version hint and no handle in the section, the DataObject PID
      list has not been bound (only the registration and the lookup of a
      Version bind it), so the hasPart update reads it unbound and the run
      ends; failing that, the annotation itself raises on a section without
      identifiers or isVersionOfs. */
  lemma VersionHintFailsAtHasParts(env: Env, s: State, i: nat)
    requires i < |s.doc.dmdSecs|
    requires HandlePids(s.doc.dmdSecs[i].identifiers) == [] && Given(s.versionPid)
    requires s.dataObjectPids.None?
    ensures var o := VersionStep(env, s, i);
            o.failure == Some(UnboundLocalError("dataObjectPids")) || o.failure == Some(AttributeError)
  {
  }

  /** The first Version record is registered under a fresh UUID, with the Work
      PIDs so far and the DataObject candidate; the DataObject PID list is then
      bound to exactly that candidate. */
  lemma FirstVersionRegistration(env: Env, s: State, i: nat)
    requires i < |s.doc.dmdSecs|
    requires HandlePids(s.doc.dmdSecs[i].identifiers) == [] && !Given(s.versionPid) && !s.versionHasPid
    ensures var o := VersionStep(env, s, i);
            var uuid := env.uuid4(s.minted);
            s.calls + [Put(VersionEntity, uuid, VersionPayload(s.workPids, [s.dataObjectPid], Some(CandidatePrefix + uuid)))] <= o.state.calls
            && o.state.dataObjectPids == Some([s.dataObjectPid])
            && o.state.versionUuid == Some(uuid)
  {
  }

  /** The registered Version handle is written into the section, read back as
      itself by the next scan, and one isVersionOf per Work PID is added, in
      reverse order. */
  lemma {:induction false} VersionHandleAnnotated(s: State, i: nat, pid: string)
    requires i < |s.doc.dmdSecs| && pid != ""
    requires s.doc.dmdSecs[i].identifiers != [] && s.doc.dmdSecs[i].isVersionOfs != []
    requires s.dataObjectPids.Some?
    ensures var o := VersionAnnotate(s, i, Some(pid));
            var sec := s.doc.dmdSecs[i];
            var after := o.state.doc.dmdSecs[i];
            o.state.versionPid == Some(pid)
            && HandlePids(after.identifiers) == [Trim(pid)] + HandlePids(sec.identifiers)
            && after.isVersionOfs == RelationsFor(IsVersionOf, Reverse(s.workPids)) + sec.isVersionOfs
  {
    var sec := s.doc.dmdSecs[i];
    var a := AnnotateVersion(s, i, pid);
    assert a.failure.None?;
    assert a.state.doc.dmdSecs[i].identifiers == [NewIdentifier(pid)] + sec.identifiers;
    assert a.state.doc.dmdSecs[i].isVersionOfs == StackIsVersionOfs(s.workPids, sec.isVersionOfs);
    assert VersionAnnotate(s, i, Some(pid)) == ReconcileHasParts(a.state, i, true);
    StackReversesOrder(s.workPids, sec.isVersionOfs);
    NewIdentifierReadBack(pid, sec.identifiers);
  }

  /** A freshly registered Version: the PID the handle server returns
      becomes `version_pid` and is the only handle the next scan of the
      section reads. */
  lemma MintedVersionHandleRecorded(env: Env, s: State, i: nat)
    requires i < |s.doc.dmdSecs|
    requires HandlePids(s.doc.dmdSecs[i].identifiers) == [] && !Given(s.versionPid) && !s.versionHasPid
    requires Accept(env.reply(s.puts)).Ok? && Accept(env.reply(s.puts)).value != ""
    requires s.doc.dmdSecs[i].identifiers != [] && s.doc.dmdSecs[i].isVersionOfs != []
    ensures var pid := Accept(env.reply(s.puts)).value;
            var o := VersionStep(env, s, i);
            o.state.versionPid == Some(pid) && HandlePids(o.state.doc.dmdSecs[i].identifiers) == [Trim(pid)]
  {
    var pid := Accept(env.reply(s.puts)).value;
    var uuid := env.uuid4(s.minted);
    var s1 := s.(minted := s.minted + 1, versionUuid := Some(uuid), versionPid := Some(CandidatePrefix + uuid),
                 dataObjectPids := Some([s.dataObjectPid]));
    var r := Register(env, s1, VersionEntity, uuid, VersionPayload(s1.workPids, [s.dataObjectPid], Some(CandidatePrefix + uuid)));
    assert VersionStep(env, s, i) == VersionResolve(env, s, i, None);
    assert VersionResolve(env, s, i, None) == VersionAnnotate(r.state, i, Some(pid));
    VersionHandleAnnotated(r.state, i, pid);
  }

  // ---------------------------------------------------------------------------
  // hasPart update

  /** When the recorded references already name exactly the DataObject PIDs,
      the section is left alone, and the file is written only if the section
      was annotated before. */
  lemma HasPartsUpToDate(s: State, i: nat, modified: bool)
    requires i < |s.doc.dmdSecs| && s.dataObjectPids.Some?
    requires RecordedPids(SelectRootLabelled(s.doc.dmdSecs[i].hasParts)) == ToSet(s.dataObjectPids.value)
    ensures var o := ReconcileHasParts(s, i, modified);
            o.failure.None? && o.state.doc == s.doc
            && o.state.written == (if modified then s.written + [s.doc] else s.written)
  {
  }

  /** Otherwise one hasPart per DataObject PID is inserted, in list order,
      before the existing hasParts; with recorded references present the
      removal of them fails on an undefined name. */
  lemma HasPartsInserted(s: State, i: nat, modified: bool)
    requires i < |s.doc.dmdSecs| && s.dataObjectPids.Some?
    requires RecordedPids(SelectRootLabelled(s.doc.dmdSecs[i].hasParts)) != ToSet(s.dataObjectPids.value)
    requires s.doc.dmdSecs[i].hasParts != []
    ensures var o := ReconcileHasParts(s, i, modified);
            var sec := s.doc.dmdSecs[i];
            o.state.doc.dmdSecs[i] == sec.(hasParts := RelationsFor(HasPart, s.dataObjectPids.value) + sec.hasParts)
            && (o.failure.None? <==> SelectRootLabelled(sec.hasParts) == [])
            && (o.failure.Some? ==> o.failure.value == NameError("data_object_references"))
  {
  }

  /** The elements the update inserts are invisible to its own selector. */
  lemma {:induction false} InsertedHasPartsNotSelected(pids: seq<string>, rels: seq<Relation>)
    ensures SelectRootLabelled(HasPartsFor(pids) + rels) == SelectRootLabelled(rels)
  {
    SelectRootLabelledAppend(HasPartsFor(pids), rels);
    SelectRootLabelledNone(HasPartsFor(pids));
  }

  lemma {:induction false} SelectRootLabelledAppend(xs: seq<Relation>, ys: seq<Relation>)
    ensures SelectRootLabelled(xs + ys) == SelectRootLabelled(xs) + SelectRootLabelled(ys)
    decreases |ys|
  {
    if ys == [] {
      assert xs + ys == xs;
    } else {
      assert (xs + ys)[..|xs + ys| - 1] == xs + ys[..|ys| - 1];
      SelectRootLabelledAppend(xs, ys[..|ys| - 1]);
    }
  }

  lemma SelectRootLabelledNone(xs: seq<Relation>)
    requires forall k :: 0 <= k < |xs| ==> !LabelledOnRoot(xs[k])
    ensures SelectRootLabelled(xs) == []
  {
  }

  /** With no reference selected, a non-empty PID list is never up to date. */
  lemma NoReferenceRecorded(dops: seq<string>)
    requires dops != []
    ensures RecordedPids(SelectRootLabelled([])) != ToSet(dops)
  {
    assert dops[0] in ToSet(dops);
    assert RecordedPids([]) == {};
  }

  /** So an update that inserted hasParts into a section without recorded
      references inserts them again on the next pass with the same PIDs,
      whenever the list is not empty. */
  lemma {:induction false} HasPartsInsertedAgain(s: State, i: nat)
    requires i < |s.doc.dmdSecs| && s.dataObjectPids.Some? && s.dataObjectPids.value != []
    requires s.doc.dmdSecs[i].hasParts != [] && SelectRootLabelled(s.doc.dmdSecs[i].hasParts) == []
    ensures var o := ReconcileHasParts(s, i, false);
            var again := ReconcileHasParts(o.state, i, false);
            var dops := s.dataObjectPids.value;
            o.failure.None? && again.failure.None?
            && again.state.doc.dmdSecs[i].hasParts
               == RelationsFor(HasPart, dops) + (RelationsFor(HasPart, dops) + s.doc.dmdSecs[i].hasParts)
  {
    var sec := s.doc.dmdSecs[i];
    var dops := s.dataObjectPids.value;
    NoReferenceRecorded(dops);
    var added := RelationsFor(HasPart, dops);
    HasPartsInserted(s, i, false);
    var t := ReconcileHasParts(s, i, false).state;
    assert t.doc.dmdSecs[i].hasParts == added + sec.hasParts && t.dataObjectPids == s.dataObjectPids;
    InsertedHasPartsNotSelected(dops, sec.hasParts);
    assert SelectRootLabelled(t.doc.dmdSecs[i].hasParts) == [];
    HasPartsInserted(t, i, false);
  }

  // ---------------------------------------------------------------------------
  // DataObject section

  /** A DataObject section that has a handle, or follows a DataObject section
      that had one, sends nothing and changes only the DataObject flag. */
  lemma DataObjectWithHandleSendsNothing(env: Env, s: State, i: nat)
    requires i < |s.doc.dmdSecs|
    requires s.dataObjectHasPid || HandlePids(s.doc.dmdSecs[i].identifiers) != []
    ensures var o := DataObjectStep(env, s, i);
            o.failure.None? && o.state == s.(dataObjectHasPid := true)
  {
  }

  /** A fresh document: the DataObject record is registered under the UUID
      drawn at the start, with the candidate PID and the current Version PID,
      and the returned handle becomes the DataObject PID. No Version record is
      sent again. */
  lemma FreshDataObject(env: Env, s: State, i: nat)
    requires i < |s.doc.dmdSecs|
    requires !s.dataObjectHasPid && !s.versionHasPid && HandlePids(s.doc.dmdSecs[i].identifiers) == []
    requires Accept(env.reply(s.puts)).Ok?
    requires s.doc.dmdSecs[i].identifiers != [] && s.doc.dmdSecs[i].isPartOfs != []
    ensures var o := DataObjectStep(env, s, i);
            var sec := s.doc.dmdSecs[i];
            var pid := Accept(env.reply(s.puts)).value;
            o.failure.None?
            && o.state.calls == s.calls + [Put(DataObjectEntity, s.dataObjectUuid, DataObjectPayload(sec.id, s.dataObjectPid, s.versionPid))]
            && o.state.dataObjectPid == pid
            && o.state.doc.dmdSecs[i].identifiers == [NewIdentifier(pid)] + sec.identifiers
            && o.state.doc.dmdSecs[i].isPartOfs == [Build(IsPartOf, s.versionPid)] + sec.isPartOfs
  {
  }

  /** A new DataObject for a registered Work and Version: its record is sent,
      then the Version record again under its UUID with the DataObject PID
      list; the DataObject PID itself is not replaced by the returned handle. */
  lemma NewDataObjectOfRegisteredVersion(env: Env, s: State, i: nat)
    requires i < |s.doc.dmdSecs|
    requires s.workHasPid && s.versionHasPid && !s.dataObjectHasPid
    requires HandlePids(s.doc.dmdSecs[i].identifiers) == []
    requires Accept(env.reply(s.puts)).Ok? && !IsErrorStatus(env.reply(s.puts + 1).status)
    requires s.doc.dmdSecs[i].identifiers != [] && s.doc.dmdSecs[i].isPartOfs != []
    requires s.dataObjectPids.Some? && s.versionUuid.Some?
    ensures var o := DataObjectStep(env, s, i);
            var sec := s.doc.dmdSecs[i];
            o.failure.None? && o.state.dataObjectPid == s.dataObjectPid
            && o.state.calls == s.calls
               + [Put(DataObjectEntity, s.dataObjectUuid, DataObjectPayload(sec.id, s.dataObjectPid, s.versionPid)),
                  Put(VersionEntity, s.versionUuid.value, VersionPayload(s.workPids, s.dataObjectPids.value, s.versionPid))]
  {
  }

  /** Whatever the case, the DataObject section sends at most the DataObject
      record and the Version record, in that order, and never reads one. */
  lemma DataObjectRequests(env: Env, s: State, i: nat)
    requires i < |s.doc.dmdSecs|
    ensures var o := DataObjectStep(env, s, i);
            var extra := o.state.calls[|s.calls|..];
            |extra| <= 2
            && (forall k :: 0 <= k < |extra| ==> extra[k].Put?)
            && (|extra| >= 1 ==> extra[0].kind == DataObjectEntity)
            && (|extra| == 2 ==> extra[1].kind == VersionEntity && s.workHasPid && s.versionHasPid)
  {
    var s1 := s.(dataObjectHasPid := s.dataObjectHasPid || HandlePids(s.doc.dmdSecs[i].identifiers) != []);
    var o := DataObjectStep(env, s, i);
    if !s1.dataObjectHasPid && !s1.versionHasPid {
      DataObjectPutSent(env, s1, i, true);
      var o1 := RegisterDataObject(env, s1, i, true);
      assert o == o1;
      assert o.state.calls[|s.calls|..] == [o.state.calls[|s.calls|]];
    } else if s1.workHasPid && s1.versionHasPid && !s1.dataObjectHasPid {
      DataObjectPutSent(env, s1, i, false);
      var o2 := RegisterDataObject(env, s1, i, false);
      if o2.failure.Some? {
        assert o == o2;
        assert o.state.calls[|s.calls|..] == [o.state.calls[|s.calls|]];
      } else {
        VersionReputSent(env, o2.state);
        assert o == ReputVersion(env, o2.state);
        var extra := o.state.calls[|s.calls|..];
        if |o.state.calls| == |s.calls| + 1 {
          assert extra == [o.state.calls[|s.calls|]];
        } else {
          assert extra == [o.state.calls[|s.calls|], o.state.calls[|s.calls| + 1]];
        }
      }
    } else {
      assert o.state == s1;
      assert o.state.calls[|s.calls|..] == [];
    }
  }

  /** The DataObject registration sends exactly its own record. */
  lemma DataObjectPutSent(env: Env, s: State, i: nat, adopt: bool)
    requires i < |s.doc.dmdSecs|
    ensures var o := RegisterDataObject(env, s, i, adopt);
            o.state.calls == s.calls + [Put(DataObjectEntity, s.dataObjectUuid,
                                            DataObjectPayload(s.doc.dmdSecs[i].id, s.dataObjectPid, s.versionPid))]
  {
    var r := Register(env, s, DataObjectEntity, s.dataObjectUuid,
                      DataObjectPayload(s.doc.dmdSecs[i].id, s.dataObjectPid, s.versionPid));
    if Accept(r.reply).Ok? {
      var pid := Accept(r.reply).value;
      assert RegisterDataObject(env, s, i, adopt) == AttachDataObject(if adopt then r.state.(dataObjectPid := pid) else r.state, i, pid);
    }
  }

  /** The second Version PUT sends the Version record, or nothing when one of
      its names is unbound. */
  lemma VersionReputSent(env: Env, s: State)
    ensures var o := ReputVersion(env, s);
            if s.dataObjectPids.Some? && s.versionUuid.Some? then
              o.state.calls == s.calls + [Put(VersionEntity, s.versionUuid.value, VersionPayload(s.workPids, s.dataObjectPids.value, s.versionPid))]
            else o.state.calls == s.calls && o.failure.Some?
  {
  }
}
