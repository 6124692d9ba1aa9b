/** The earlier, module-level form of the run in metstohandle.py (lines
    78-278), as functions from the script's variables before a step to the
    variables after it and the exception, if any, that ends the script there.
    Unlike `m2h` it validates nothing, writes a PID into the document only
    when the registry answers 201, and records the Work candidate it generated
    rather than the handle the registry returns. The class in
    legacy_run.dfy executes the same script and is proved equal to these
    functions. */
module LegacyEngine {
  import opened Py
  import opened Text
  import opened Relations
  import opened Mets
  import opened Registry

  /** The module-level variables of the script: the document; the three
      DMDID lists; `boolean_list_if_pids_exists`; `cinematographic_work_pids`;
      `uid`, `version_pid` and `dataObjectPids` (`None` while unbound);
      `dataobject_Uid` and `dataobject_Pid`; how many UUIDs and PUTs have been
      used; the requests sent and the documents written, in order. */
  datatype State = State(
    doc: Document,
    works: seq<string>,
    versions: seq<string>,
    dataObjects: seq<string>,
    workHasPid: bool,
    versionHasPid: bool,
    dataObjectHasPid: bool,
    workPids: seq<string>,
    uid: Option<string>,
    versionPid: Option<string>,
    dataObjectPids: Option<seq<string>>,
    dataObjectUuid: string,
    dataObjectPid: string,
    minted: nat,
    puts: nat,
    calls: seq<Call>,
    written: seq<Document>)

  datatype Outcome = Outcome(state: State, failure: Option<Exception>)

  /** The exceptions the script can raise: it has no count validation and no
      `raise_for_status()`, so none of `m2h`'s `ValueError`s or `HTTPError`s. */
  predicate ScriptError(e: Exception) {
    e == KeyError || e == AttributeError || e == IndexError || e == UnreadableRecord
    || e == NameError("version_pid")
  }

  /** The requests the script can send: GETs, Work PUTs, and DataObject PUTs
      under the one `dataobject_Uid` drawn at the start, never a Version PUT. */
  predicate ScriptCall(c: Call, dataObjectUuid: string) {
    c.Get? || (c.Put? && (c.kind == WorkEntity || (c.kind == DataObjectEntity && c.uuid == dataObjectUuid)))
  }

  predicate ScriptCalls(calls: seq<Call>, dataObjectUuid: string) {
    forall k :: 0 <= k < |calls| ==> ScriptCall(calls[k], dataObjectUuid)
  }

  /** What a step never undoes: the section count and DMDID lists stay, a set
      flag stays set, the DataObject candidate stays, requests and writes are
      only appended, and only requests the script can send are appended. */
  predicate Grows(s: State, t: State) {
    |t.doc.dmdSecs| == |s.doc.dmdSecs|
    && t.works == s.works && t.versions == s.versions && t.dataObjects == s.dataObjects
    && (s.workHasPid ==> t.workHasPid)
    && (s.versionHasPid ==> t.versionHasPid)
    && (s.dataObjectHasPid ==> t.dataObjectHasPid)
    && t.dataObjectUuid == s.dataObjectUuid && t.dataObjectPid == s.dataObjectPid
    && s.calls <= t.calls && s.written <= t.written
    && s.minted <= t.minted && s.puts <= t.puts
    && (ScriptCalls(s.calls, s.dataObjectUuid) ==> ScriptCalls(t.calls, t.dataObjectUuid))
  }

  /** A step at the i-th dmdSec edits no other dmdSec. */
  predicate OnlySection(s: State, t: State, i: nat) {
    |t.doc.dmdSecs| == |s.doc.dmdSecs| && t.doc.structMap == s.doc.structMap
    && forall j :: 0 <= j < |s.doc.dmdSecs| && j != i ==> t.doc.dmdSecs[j] == s.doc.dmdSecs[j]
  }

  /** The state after the structMap has been classified (:84-94): the three
      lists are kept as found, whatever their lengths. */
  function Initial(doc: Document): (s: State)
    ensures s.works == DmdIds(doc.structMap, WorkType)
    ensures s.versions == DmdIds(doc.structMap, VersionType)
    ensures s.dataObjects == DmdIds(doc.structMap, DataObjectType)
    ensures s.calls == [] && s.written == [] && s.doc == doc
  {
    State(doc, DmdIds(doc.structMap, WorkType), DmdIds(doc.structMap, VersionType),
          DmdIds(doc.structMap, DataObjectType), false, false, false, [], None, None, None,
          "", "", 0, 0, [], [])
  }

  /** The DataObject candidate drawn before the dmdSec loop (:99-100). */
  function Begun(env: Env, s: State): (t: State)
    ensures t.doc == s.doc && t.minted == s.minted + 1 && t.calls == s.calls
    ensures t.dataObjectPid == CandidatePrefix + t.dataObjectUuid
  {
    var uuid := env.uuid4(s.minted);
    s.(minted := s.minted + 1, dataObjectUuid := uuid, dataObjectPid := CandidatePrefix + uuid)
  }

  // ---------------------------------------------------------------------------
  // Effects

  /** The identifier `xj.create_identifier_element(pid)` of db_works_tohandle.py
      builds: the PID followed by the same layout whitespace as in the later
      script, without the leading part. */
  function LegacyIdentifier(pid: string): (i: Identifier)
    ensures IsHandle(i)
  {
    Identifier(Some(HandleLabel), Some(pid + IdentifierTrail))
  }

  /** An identifier this script writes is read back by a later run as the stripped PID. */
  lemma LegacyIdentifierReadBack(pid: string, ids: seq<Identifier>)
    ensures HandlePids([LegacyIdentifier(pid)] + ids) == [Trim(pid)] + HandlePids(ids)
  {
    var id := LegacyIdentifier(pid);
    HandlePidsAppend([id], ids);
    assert [id][..0] == [];
    assert HandlePids([id]) == HandlePids([]) + [Trim(PyStr(id.text))];
    TrailIgnored(pid);
  }

  /** The layout whitespace after the PID does not survive `strip()`. */
  lemma TrailIgnored(pid: string)
    ensures Trim(pid + IdentifierTrail) == Trim(pid)
  {
    assert "" + pid + IdentifierTrail == pid + IdentifierTrail;
    TrimPadded("", pid, IdentifierTrail);
  }

  /** `…find('ebucore:identifier').addprevious(new_ident)`; with no identifier
      there, `None.addprevious` raises `AttributeError`. */
  function InsertIdentifier(sec: DmdSec, pid: string): (r: Result<DmdSec>)
    ensures r.Ok? <==> sec.identifiers != []
    ensures r.Ok? ==> r.value == sec.(identifiers := [LegacyIdentifier(pid)] + sec.identifiers)
    ensures r.Raised? ==> r.error == AttributeError
  {
    if sec.identifiers == [] then Raised(AttributeError)
    else Ok(sec.(identifiers := [LegacyIdentifier(pid)] + sec.identifiers))
  }

  /** A PUT: the reply to the next PUT, and the request logged. */
  function Send(env: Env, s: State, kind: EntityKind, uuid: string, payload: Payload): (t: State)
    ensures t == s.(puts := s.puts + 1, calls := s.calls + [Put(kind, uuid, payload)])
  {
    s.(puts := s.puts + 1, calls := s.calls + [Put(kind, uuid, payload)])
  }

  /** The tail of every registration (:137-153, :187-204, :228-243): only a
      201 reply leads to reading `respon['handle']`, inserting the identifier
      and writing the file; any other status changes nothing. */
  function Created(s: State, i: nat, reply: Reply): (o: Outcome)
    requires i < |s.doc.dmdSecs|
    ensures OnlySection(s, o.state, i)
    ensures o.failure.Some? ==> o.failure.value == KeyError || o.failure.value == AttributeError
    ensures o.state == s || (reply.status == 201 && o.state == s.(doc := o.state.doc, written := s.written + [o.state.doc]))
  {
    if reply.status != 201 then Outcome(s, None)
    else if reply.handle.None? then Outcome(s, Some(KeyError))
    else match InsertIdentifier(s.doc.dmdSecs[i], reply.handle.value)
      case Raised(e) => Outcome(s, Some(e))
      case Ok(sec) =>
        var doc := s.doc.(dmdSecs := s.doc.dmdSecs[i := sec]);
        Outcome(s.(doc := doc, written := s.written + [doc]), None)
  }

  // ---------------------------------------------------------------------------
  // Work section (:105-153)

  function WorkStep(env: Env, s: State, i: nat): (o: Outcome)
    requires i < |s.doc.dmdSecs|
    ensures o.failure.Some? ==> ScriptError(o.failure.value)
    ensures OnlySection(s, o.state, i) && Grows(s, o.state)
    ensures o.state.workHasPid == (s.workHasPid || HandlePids(s.doc.dmdSecs[i].identifiers) != [])
    ensures o.state.versionHasPid == s.versionHasPid && o.state.dataObjectHasPid == s.dataObjectHasPid
    ensures o.state.versionPid == s.versionPid && o.state.dataObjectPids == s.dataObjectPids
  {
    var found := HandlePids(s.doc.dmdSecs[i].identifiers);
    var s1 := s.(workHasPid := s.workHasPid || found != [], workPids := s.workPids + found);
    if s1.workHasPid then Outcome(s1, None) else MintWork(env, s1, i)
  }

  /** A new Work (:115-153): the uppercased candidate joins the Work PIDs,
      then the PUT goes out under the fresh UUID. */
  function MintWork(env: Env, s: State, i: nat): (o: Outcome)
    requires i < |s.doc.dmdSecs|
    ensures o.failure.Some? ==> ScriptError(o.failure.value)
    ensures OnlySection(s, o.state, i) && Grows(s, o.state)
    ensures o.state.workHasPid == s.workHasPid && o.state.versionHasPid == s.versionHasPid
    ensures o.state.dataObjectHasPid == s.dataObjectHasPid
    ensures o.state.versionPid == s.versionPid && o.state.dataObjectPids == s.dataObjectPids
  {
    var uuid := env.uuid4(s.minted);
    var candidate := CandidatePrefix + uuid;
    var s1 := s.(minted := s.minted + 1, uid := Some(uuid), workPids := s.workPids + [Upper(candidate)]);
    Created(Send(env, s1, WorkEntity, uuid, WorkPayload(candidate)), i, env.reply(s1.puts))
  }

  // ---------------------------------------------------------------------------
  // Version section (:158-206)

  /** The identifier loop of a Version section, from the k-th identifier on:
      every handle sets the flag, becomes `version_pid`, sets `uid` to the
      text before its first '/', and has its stored DataObject PIDs fetched
      (helper.py:9-19) and appended. */
  function VersionScan(env: Env, s: State, ids: seq<Identifier>, k: nat): (o: Outcome)
    requires k <= |ids|
    ensures o.failure.Some? ==> ScriptError(o.failure.value)
    ensures o.state.doc == s.doc && Grows(s, o.state) && o.state.puts == s.puts
    ensures o.state.workHasPid == s.workHasPid && o.state.dataObjectHasPid == s.dataObjectHasPid
    ensures o.state.versionPid.None? ==> s.versionPid.None?
    ensures o.state.dataObjectPids.None? ==> s.dataObjectPids.None?
    decreases |ids| - k
  {
    if k == |ids| then Outcome(s, None)
    else if !IsHandle(ids[k]) then VersionScan(env, s, ids, k + 1)
    else
      var o := AdoptVersion(env, s, Trim(PyStr(ids[k].text)));
      if o.failure.Some? then o else VersionScan(env, o.state, ids, k + 1)
  }

  /** One handle found in a Version section (:167-171). */
  function AdoptVersion(env: Env, s: State, pid: string): (o: Outcome)
    ensures o.failure.Some? ==> ScriptError(o.failure.value)
    ensures o.state.doc == s.doc && Grows(s, o.state) && o.state.puts == s.puts
    ensures o.state.workHasPid == s.workHasPid && o.state.dataObjectHasPid == s.dataObjectHasPid
    ensures o.state.versionHasPid && o.state.versionPid == Some(pid) && o.state.uid == Some(Before(pid, '/'))
    ensures o.state.dataObjectPids.None? ==> s.dataObjectPids.None?
  {
    var s1 := s.(versionHasPid := true, versionPid := Some(pid), uid := Some(Before(pid, '/')));
    match FetchTarget(pid)
    case Raised(e) => Outcome(s1, Some(e))
    case Ok(local) =>
      var s2 := s1.(calls := s1.calls + [Get(local)]);
      match env.record(local)
      case None => Outcome(s2, Some(UnreadableRecord))
      case Some(pids) =>
        var list := if s2.dataObjectPids.Some? then s2.dataObjectPids.value else [];
        Outcome(s2.(dataObjectPids := Some(list + pids)), None)
  }

  /** A Version section: a fresh candidate, the list holding the DataObject
      candidate, the identifier loop; if no handle was ever found, building
      the Version payload raises `AttributeError` before the PUT, because
      `hasDataObject` (db_version_to_handle.py:41-44) calls `.upper()` on the
      list it is given (see LegacyVersionRecord.HasDataObject). */
  function VersionStep(env: Env, s: State, i: nat): (o: Outcome)
    requires i < |s.doc.dmdSecs|
    ensures o.failure.Some? ==> ScriptError(o.failure.value)
    ensures o.state.doc == s.doc && Grows(s, o.state) && o.state.puts == s.puts
    ensures o.state.workHasPid == s.workHasPid && o.state.dataObjectHasPid == s.dataObjectHasPid
    ensures o.state.versionPid.Some? && o.state.dataObjectPids.Some?
  {
    var uuid := env.uuid4(s.minted);
    var s1 := s.(minted := s.minted + 1, uid := Some(uuid), versionPid := Some(CandidatePrefix + uuid),
                 dataObjectPids := Some([s.dataObjectPid]));
    var o := VersionScan(env, s1, s.doc.dmdSecs[i].identifiers, 0);
    if o.failure.Some? || o.state.versionHasPid then o
    else Outcome(o.state, Some(AttributeError))
  }

  // ---------------------------------------------------------------------------
  // DataObject section (:211-278)

  /** The identifier loop, then the two cases in source order. Case 1 (no
      DataObject and no Version handle) registers the DataObject; case 2 (Work
      and Version handles, no DataObject handle) builds the Version payload
      first, which raises `AttributeError` (db_version_to_handle.py:41-44). */
  function DataObjectStep(env: Env, s: State, i: nat): (o: Outcome)
    requires i < |s.doc.dmdSecs|
    ensures o.failure.Some? ==> ScriptError(o.failure.value)
    ensures OnlySection(s, o.state, i) && Grows(s, o.state)
    ensures o.state.dataObjectHasPid == (s.dataObjectHasPid || HandlePids(s.doc.dmdSecs[i].identifiers) != [])
    ensures o.state.workHasPid == s.workHasPid && o.state.versionHasPid == s.versionHasPid
    ensures o.state.versionPid == s.versionPid
  {
    var s1 := s.(dataObjectHasPid := s.dataObjectHasPid || HandlePids(s.doc.dmdSecs[i].identifiers) != []);
    var o := if !s1.dataObjectHasPid && !s1.versionHasPid then RegisterDataObject(env, s1, i) else Outcome(s1, None);
    if o.failure.Some? then o
    else if o.state.workHasPid && o.state.versionHasPid && !o.state.dataObjectHasPid then Outcome(o.state, Some(AttributeError))
    else o
  }

  /** Case 1 (:220-243): `version_pid` must already be bound; one PUT of the
      DataObject record under `dataobject_Uid`. */
  function RegisterDataObject(env: Env, s: State, i: nat): (o: Outcome)
    requires i < |s.doc.dmdSecs|
    ensures o.failure.Some? ==> ScriptError(o.failure.value)
    ensures OnlySection(s, o.state, i) && Grows(s, o.state)
    ensures o.state.workHasPid == s.workHasPid && o.state.versionHasPid == s.versionHasPid
    ensures o.state.dataObjectHasPid == s.dataObjectHasPid && o.state.versionPid == s.versionPid
  {
    if s.versionPid.None? then Outcome(s, Some(NameError("version_pid")))
    else
      var payload := DataObjectPayload(s.doc.dmdSecs[i].id, s.dataObjectPid, s.versionPid);
      Created(Send(env, s, DataObjectEntity, s.dataObjectUuid, payload), i, env.reply(s.puts))
  }

  // ---------------------------------------------------------------------------
  // The dmdSec loop

  /** The three membership tests of one dmdSec, in source order. */
  function Visit(env: Env, s: State, i: nat): (o: Outcome)
    requires i < |s.doc.dmdSecs|
    ensures o.failure.Some? ==> ScriptError(o.failure.value)
    ensures OnlySection(s, o.state, i) && Grows(s, o.state)
  {
    var id := s.doc.dmdSecs[i].id;
    var o1 := if id in s.works then WorkStep(env, s, i) else Outcome(s, None);
    if o1.failure.Some? then o1 else VisitLater(env, o1.state, i, id)
  }

  function VisitLater(env: Env, s: State, i: nat, id: string): (o: Outcome)
    requires i < |s.doc.dmdSecs|
    ensures o.failure.Some? ==> ScriptError(o.failure.value)
    ensures OnlySection(s, o.state, i) && Grows(s, o.state)
  {
    var o2 := if id in s.versions then VersionStep(env, s, i) else Outcome(s, None);
    if o2.failure.Some? then o2
    else if id in s.dataObjects then DataObjectStep(env, o2.state, i) else o2
  }

  /** The dmdSecs from the i-th on, until one raises. */
  function Sections(env: Env, s: State, i: nat): (o: Outcome)
    requires i <= |s.doc.dmdSecs|
    ensures o.failure.Some? ==> ScriptError(o.failure.value)
    ensures Grows(s, o.state)
    decreases |s.doc.dmdSecs| - i
  {
    if i == |s.doc.dmdSecs| then Outcome(s, None)
    else
      var o := Visit(env, s, i);
      if o.failure.Some? then o else Sections(env, o.state, i + 1)
  }

  lemma SectionsStep(env: Env, s: State, i: nat)
    requires i < |s.doc.dmdSecs|
    ensures var o := Visit(env, s, i);
            Sections(env, s, i) == if o.failure.Some? then o else Sections(env, o.state, i + 1)
  {
  }

  lemma SectionsDone(env: Env, s: State)
    ensures Sections(env, s, |s.doc.dmdSecs|) == Outcome(s, None)
  {
  }

  /** The whole script on a parsed document. */
  function Script(env: Env, doc: Document): (o: Outcome)
    ensures o.failure.Some? ==> ScriptError(o.failure.value)
    ensures ScriptCalls(o.state.calls, o.state.dataObjectUuid)
  {
    Sections(env, Begun(env, Initial(doc)), 0)
  }
}
