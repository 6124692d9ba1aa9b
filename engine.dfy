/** The PID reconciliation run `m2h` of mets2handle/metstohandle.py, as
    functions from the run state before a step to the state after it and the
    exception, if any, that ends the run there. The class in engine_run.dfy
    executes the same run step by step and is proved equal to these functions. */
module Engine {
  import opened Py
  import opened Text
  import opened Relations
  import opened Mets
  import opened Registry

  /** The variables `m2h` keeps, by their role:
      the document; the three DMDID lists; `boolean_list_if_pids_exists`;
      `cinematographic_work_pids`; `dataObjectPids` (`None` while unbound);
      `version_pid` (starts as the caller's hint); `version_uuid` (`None` while
      unbound); `data_object_uuid` and `dataobject_Pid`; how many UUIDs and PUTs
      have been used; the requests sent and the documents written, in order. */
  datatype State = State(
    doc: Document,
    works: seq<string>,
    versions: seq<string>,
    dataObjects: seq<string>,
    workHasPid: bool,
    versionHasPid: bool,
    dataObjectHasPid: bool,
    workPids: seq<string>,
    dataObjectPids: Option<seq<string>>,
    versionPid: Option<string>,
    versionUuid: Option<string>,
    dataObjectUuid: string,
    dataObjectPid: string,
    minted: nat,
    puts: nat,
    calls: seq<Call>,
    written: seq<Document>)

  /** Where a step leaves the run: its state, and the exception that ends it. */
  datatype Outcome = Outcome(state: State, failure: Option<Exception>)

  /** The state after the structMap has been classified. */
  function Initial(doc: Document, versionHint: Option<string>): (s: State)
    ensures s.works == DmdIds(doc.structMap, WorkType)
    ensures s.versions == DmdIds(doc.structMap, VersionType)
    ensures s.dataObjects == DmdIds(doc.structMap, DataObjectType)
    ensures s.calls == [] && s.written == [] && s.doc == doc
  {
    State(doc, DmdIds(doc.structMap, WorkType), DmdIds(doc.structMap, VersionType),
          DmdIds(doc.structMap, DataObjectType), false, false, false, [], None,
          versionHint, None, "", "", 0, 0, [], [])
  }

  /** What a step never undoes: the section count and the DMDID lists stay,
      a set flag stays set, requests and writes are only ever appended. */
  predicate Grows(s: State, t: State) {
    |t.doc.dmdSecs| == |s.doc.dmdSecs|
    && t.works == s.works && t.versions == s.versions && t.dataObjects == s.dataObjects
    && (s.workHasPid ==> t.workHasPid)
    && (s.versionHasPid ==> t.versionHasPid)
    && (s.dataObjectHasPid ==> t.dataObjectHasPid)
    && s.calls <= t.calls && s.written <= t.written
    && s.minted <= t.minted && s.puts <= t.puts
  }

  /** A step at the i-th dmdSec edits no other dmdSec. */
  predicate OnlySection(s: State, t: State, i: nat) {
    |t.doc.dmdSecs| == |s.doc.dmdSecs| && t.doc.structMap == s.doc.structMap
    && forall j :: 0 <= j < |s.doc.dmdSecs| && j != i ==> t.doc.dmdSecs[j] == s.doc.dmdSecs[j]
  }

  /** An annotation step: it edits the i-th dmdSec and writes the document,
      and it neither sends a request nor touches the DataObject PID list. */
  predicate Annotates(s: State, t: State, i: nat) {
    OnlySection(s, t, i) && Grows(s, t)
    && t.dataObjectPids == s.dataObjectPids && t.versionUuid == s.versionUuid
    && t.calls == s.calls && t.puts == s.puts && t.minted == s.minted
  }

  /** The hasPart update leaves the i-th dmdSec's identifiers and isVersionOf
      elements, and the Version PID, as they were. */
  predicate KeepsMarks(s: State, t: State, i: nat) {
    i < |s.doc.dmdSecs| && i < |t.doc.dmdSecs|
    && t.doc.dmdSecs[i].identifiers == s.doc.dmdSecs[i].identifiers
    && t.doc.dmdSecs[i].isVersionOfs == s.doc.dmdSecs[i].isVersionOfs
    && t.versionPid == s.versionPid
  }

  /** The exceptions the dmdSec loop can raise: never a validation error. */
  predicate RunError(e: Exception) {
    !e.CountError? && !e.HintAmbiguous?
  }

  // ---------------------------------------------------------------------------
  // Validation (mets2handle/metstohandle.py:131-144)

  function Validate(works: seq<string>, versions: seq<string>, dataObjects: seq<string>,
                    workHint: Option<string>, versionHint: Option<string>): (r: Option<Exception>)
    ensures r.None? <==> |versions| == 1 && |dataObjects| == 1 && (Given(workHint) ==> |works| == 1)
    ensures r.Some? ==> r.value.CountError? || r.value.HintAmbiguous?
  {
    if |versions| != 1 then Some(CountError("versions", |versions|))
    else if |dataObjects| != 1 then Some(CountError("DataObjects", |dataObjects|))
    else if Given(workHint) && |works| != 1 then Some(HintAmbiguous("work_pid", |works|))
    else if Given(versionHint) && |versions| != 1 then Some(HintAmbiguous("version_pid", |versions|))
    else None
  }

  /** The check of the version hint against the number of versions comes after
      the check that there is exactly one version: it can never fire. */
  lemma VersionHintCheckUnreachable(works: seq<string>, versions: seq<string>, dataObjects: seq<string>,
                                    workHint: Option<string>, versionHint: Option<string>)
    ensures forall n :: Validate(works, versions, dataObjects, workHint, versionHint) != Some(HintAmbiguous("version_pid", n))
  {
  }

  // ---------------------------------------------------------------------------
  // Effects shared by the steps

  function Edit(s: State, i: nat, sec: DmdSec): (t: State)
    requires i < |s.doc.dmdSecs|
    ensures OnlySection(s, t, i) && t.doc.dmdSecs[i] == sec
    ensures Grows(s, t)
  {
    s.(doc := s.doc.(dmdSecs := s.doc.dmdSecs[i := sec]))
  }

  /** `baum.write(metsfile)`: the current document is written out. */
  function Write(s: State): (t: State)
    ensures Grows(s, t)
  {
    s.(written := s.written + [s.doc])
  }

  datatype Sent = Sent(reply: Reply, state: State)

  /** A PUT: the registry's reply to the next PUT, and the request logged. */
  function Register(env: Env, s: State, kind: EntityKind, uuid: string, payload: Payload): (r: Sent)
    ensures Grows(s, r.state)
  {
    Sent(env.reply(s.puts), s.(puts := s.puts + 1, calls := s.calls + [Put(kind, uuid, payload)]))
  }

  datatype Fetched = Fetched(result: Result<seq<string>>, state: State)

  /** `helpers.getDAtaObejctPidsFrom_Versionhandle(version_pid, …)`: `None`
      has no `split`; otherwise the GET goes to the local name. */
  function Fetch(env: Env, s: State, pid: Option<string>): (f: Fetched)
    ensures Grows(s, f.state)
    ensures f.result.Raised? ==> RunError(f.result.error)
  {
    if pid.None? then Fetched(Raised(AttributeError), s)
    else match FetchTarget(pid.value)
      case Raised(e) => Fetched(Raised(e), s)
      case Ok(local) =>
        var s1 := s.(calls := s.calls + [Get(local)]);
        match env.record(local)
        case None => Fetched(Raised(UnreadableRecord), s1)
        case Some(pids) => Fetched(Ok(pids), s1)
  }

  // ---------------------------------------------------------------------------
  // Work section (mets2handle/metstohandle.py:160-219)

  function WorkStep(env: Env, workHint: Option<string>, s: State, i: nat): (o: Outcome)
    requires i < |s.doc.dmdSecs|
    ensures o.failure.Some? ==> RunError(o.failure.value)
    ensures OnlySection(s, o.state, i)
    ensures o.state.dataObjectPids == s.dataObjectPids
    ensures Grows(s, o.state)
    ensures o.state.workHasPid == (s.workHasPid || HandlePids(s.doc.dmdSecs[i].identifiers) != [])
    ensures HandlePids(s.doc.dmdSecs[i].identifiers) != [] ==> o.state.doc == s.doc
  {
    var found := HandlePids(s.doc.dmdSecs[i].identifiers);
    SettleWork(env, workHint, s.(workHasPid := s.workHasPid || found != [], workPids := s.workPids + found), i)
  }

  /** After the identifier loop: the hint, the flag or a new registration
      decides the Work PID (:170-202). */
  function SettleWork(env: Env, workHint: Option<string>, s: State, i: nat): (o: Outcome)
    requires i < |s.doc.dmdSecs|
    ensures o.failure.Some? ==> RunError(o.failure.value)
    ensures OnlySection(s, o.state, i)
    ensures o.state.dataObjectPids == s.dataObjectPids
    ensures Grows(s, o.state) && o.state.workHasPid == s.workHasPid
  {
    if Given(workHint) then
      if !s.workHasPid then RecordWork(s, i, workHint.value)
      else if workHint.value in s.workPids then Outcome(s, None)
      else Outcome(s, Some(PidClash("work")))
    else if s.workHasPid then Outcome(s, None)
    else
      var uuid := env.uuid4(s.minted);
      var r := Register(env, s.(minted := s.minted + 1), WorkEntity, uuid, WorkPayload(CandidatePrefix + uuid));
      match Accept(r.reply)
      case Raised(e) => Outcome(r.state, Some(e))
      case Ok(pid) => if pid != "" then RecordWork(r.state, i, pid) else Outcome(r.state, None)
  }

  /** The Work PID is appended to the list and written into the section. */
  function RecordWork(s: State, i: nat, pid: string): (o: Outcome)
    requires i < |s.doc.dmdSecs|
    ensures o.failure.Some? ==> RunError(o.failure.value)
    ensures OnlySection(s, o.state, i)
    ensures o.state.dataObjectPids == s.dataObjectPids
    ensures Grows(s, o.state) && o.state.workHasPid == s.workHasPid
  {
    var s1 := s.(workPids := s.workPids + [pid]);
    match AddIdentifier(s1.doc.dmdSecs[i], pid)
    case Raised(e) => Outcome(s1, Some(e))
    case Ok(sec) => Outcome(Write(Edit(s1, i, sec)), None)
  }

  // ---------------------------------------------------------------------------
  // Version section (mets2handle/metstohandle.py:224-310)

  function VersionStep(env: Env, s: State, i: nat): (o: Outcome)
    requires i < |s.doc.dmdSecs|
    ensures s.dataObjectPids.None? && HandlePids(s.doc.dmdSecs[i].identifiers) != [] ==> o.failure.Some?
    ensures o.failure.Some? ==> RunError(o.failure.value)
    ensures OnlySection(s, o.state, i)
    ensures Grows(s, o.state)
  {
    var found := HandlePids(s.doc.dmdSecs[i].identifiers);
    if found == [] then VersionResolve(env, s, i, None)
    else VersionExisting(env, s.(versionHasPid := true), i, found[0])
  }

  /** The first handle of the section (:232-241): checked against the hint,
      split for its UUID, and the stored DataObject PIDs appended to the list. */
  function VersionExisting(env: Env, s: State, i: nat, existing: string): (o: Outcome)
    requires i < |s.doc.dmdSecs|
    ensures s.dataObjectPids.None? ==> o.failure.Some?
    ensures o.failure.Some? ==> RunError(o.failure.value)
    ensures OnlySection(s, o.state, i)
    ensures Grows(s, o.state)
  {
    if Given(s.versionPid) && s.versionPid.value != existing then Outcome(s, Some(PidClash("version")))
    else match LocalName(existing)
      case None => Outcome(s, Some(IndexError))
      case Some(u) => VersionLookup(env, s.(versionUuid := Some(u)), i, existing)
  }

  /** The stored DataObject PIDs of the Version are appended to the list, which
      must already be bound (:239-241). */
  function VersionLookup(env: Env, s: State, i: nat, existing: string): (o: Outcome)
    requires i < |s.doc.dmdSecs|
    ensures s.dataObjectPids.None? ==> o.failure.Some?
    ensures o.failure.Some? ==> RunError(o.failure.value)
    ensures OnlySection(s, o.state, i)
    ensures Grows(s, o.state)
  {
    if s.dataObjectPids.None? then Outcome(s, Some(UnboundLocalError("dataObjectPids")))
    else
      var f := Fetch(env, s, s.versionPid);
      match f.result
      case Raised(e) => Outcome(f.state, Some(e))
      case Ok(more) => VersionResolve(env, f.state.(dataObjectPids := Some(s.dataObjectPids.value + more)), i, Some(existing))
  }

  /** Hint, mint or reuse (:243-272). */
  function VersionResolve(env: Env, s: State, i: nat, existing: Option<string>): (o: Outcome)
    requires i < |s.doc.dmdSecs|
    ensures o.failure.Some? ==> RunError(o.failure.value)
    ensures OnlySection(s, o.state, i)
    ensures Grows(s, o.state)
  {
    if Given(s.versionPid) then
      VersionAnnotate(s, i, if s.versionHasPid then None else s.versionPid)
    else if !s.versionHasPid then
      var uuid := env.uuid4(s.minted);
      var versionPid := CandidatePrefix + uuid;
      var dops := [s.dataObjectPid];
      var s1 := s.(minted := s.minted + 1, versionUuid := Some(uuid), versionPid := Some(versionPid), dataObjectPids := Some(dops));
      var r := Register(env, s1, VersionEntity, uuid, VersionPayload(s1.workPids, dops, Some(versionPid)));
      match Accept(r.reply)
      case Raised(e) => Outcome(r.state, Some(e))
      case Ok(pid) => VersionAnnotate(r.state, i, Some(pid))
    else VersionAnnotate(s, i, existing)
  }

  /** With a PID (:273-286) the section is annotated; then, in any case, the
      hasPart update follows. */
  function VersionAnnotate(s: State, i: nat, pid: Option<string>): (o: Outcome)
    requires i < |s.doc.dmdSecs|
    ensures o.failure.Some? ==> RunError(o.failure.value)
    ensures Annotates(s, o.state, i)
  {
    if !Given(pid) then ReconcileHasParts(s, i, false)
    else
      var o := AnnotateVersion(s, i, pid.value);
      if o.failure.Some? then o else ReconcileHasParts(o.state, i, true)
  }

  /** The PID becomes `version_pid`; an isVersionOf per Work PID, each placed
      before the first isVersionOf (`None` when there is none), and the
      identifier are written into the section. */
  function AnnotateVersion(s: State, i: nat, pid: string): (o: Outcome)
    requires i < |s.doc.dmdSecs|
    ensures o.failure.Some? ==> RunError(o.failure.value)
    ensures Annotates(s, o.state, i) && o.state.versionPid == Some(pid)
  {
    var s1 := s.(versionPid := Some(pid));
    var sec := s1.doc.dmdSecs[i];
    if s1.workPids != [] && sec.isVersionOfs == [] then Outcome(s1, Some(AttributeError))
    else MarkVersion(s1, i, sec.(isVersionOfs := StackIsVersionOfs(s1.workPids, sec.isVersionOfs)), pid)
  }

  /** The section with its isVersionOf elements in place gets the identifier. */
  function MarkVersion(s: State, i: nat, sec: DmdSec, pid: string): (o: Outcome)
    requires i < |s.doc.dmdSecs|
    ensures o.failure.Some? ==> RunError(o.failure.value)
    ensures Annotates(s, o.state, i) && o.state.versionPid == s.versionPid
  {
    match AddIdentifier(sec, pid)
    case Raised(e) => Outcome(Edit(s, i, sec), Some(e))
    case Ok(sec1) => Outcome(Edit(s, i, sec1), None)
  }

  /** The hasPart update (:288-310): nothing to do when the recorded
      references name exactly the DataObject PIDs. */
  function ReconcileHasParts(s: State, i: nat, modified: bool): (o: Outcome)
    requires i < |s.doc.dmdSecs|
    ensures o.failure.Some? ==> RunError(o.failure.value)
    ensures Annotates(s, o.state, i) && KeepsMarks(s, o.state, i)
  {
    if s.dataObjectPids.None? then Outcome(s, Some(UnboundLocalError("dataObjectPids")))
    else if RecordedPids(SelectRootLabelled(s.doc.dmdSecs[i].hasParts)) == ToSet(s.dataObjectPids.value) then
      Outcome(if modified then Write(s) else s, None)
    else InsertHasParts(s, i, s.dataObjectPids.value)
  }

  /** One hasPart per PID before the first existing hasPart (`None` when there
      is none), then the removal of the old references through an undefined name. */
  function InsertHasParts(s: State, i: nat, dops: seq<string>): (o: Outcome)
    requires i < |s.doc.dmdSecs|
    ensures o.failure.Some? ==> RunError(o.failure.value)
    ensures Annotates(s, o.state, i) && KeepsMarks(s, o.state, i)
  {
    var sec := s.doc.dmdSecs[i];
    if dops != [] && sec.hasParts == [] then Outcome(s, Some(AttributeError))
    else DropOldReferences(Edit(s, i, sec.(hasParts := HasPartsFor(dops) + sec.hasParts)), i, sec.hasParts)
  }

  /** After the insertion: the removal of the old references selected among
      `previous` raises `NameError` whenever there is one; otherwise the write. */
  function DropOldReferences(s: State, i: nat, previous: seq<Relation>): (o: Outcome)
    requires i < |s.doc.dmdSecs|
    ensures o.failure.Some? ==> RunError(o.failure.value)
    ensures Annotates(s, o.state, i) && o.state.doc == s.doc
  {
    if SelectRootLabelled(previous) != [] then Outcome(s, Some(NameError("data_object_references")))
    else Outcome(Write(s), None)
  }

  // ---------------------------------------------------------------------------
  // DataObject section (mets2handle/metstohandle.py:315-402)

  function DataObjectStep(env: Env, s: State, i: nat): (o: Outcome)
    requires i < |s.doc.dmdSecs|
    ensures o.failure.Some? ==> RunError(o.failure.value)
    ensures OnlySection(s, o.state, i)
    ensures o.state.dataObjectPids == s.dataObjectPids
    ensures Grows(s, o.state)
  {
    var s1 := s.(dataObjectHasPid := s.dataObjectHasPid || HandlePids(s.doc.dmdSecs[i].identifiers) != []);
    var o1 := if !s1.dataObjectHasPid && !s1.versionHasPid then RegisterDataObject(env, s1, i, true) else Outcome(s1, None);
    if o1.failure.Some? then o1
    else if o1.state.workHasPid && o1.state.versionHasPid && !o1.state.dataObjectHasPid then
      var o2 := RegisterDataObject(env, o1.state, i, false);
      if o2.failure.Some? then o2 else ReputVersion(env, o2.state)
    else o1
  }

  /** The PUT of the DataObject record and the edits after it; the first case
      also adopts the returned handle as `dataobject_Pid` (:340). */
  function RegisterDataObject(env: Env, s: State, i: nat, adopt: bool): (o: Outcome)
    requires i < |s.doc.dmdSecs|
    ensures o.failure.Some? ==> RunError(o.failure.value)
    ensures OnlySection(s, o.state, i)
    ensures o.state.dataObjectPids == s.dataObjectPids
    ensures Grows(s, o.state)
    ensures o.state.workHasPid == s.workHasPid && o.state.versionHasPid == s.versionHasPid
    ensures o.state.dataObjectHasPid == s.dataObjectHasPid
  {
    var sec := s.doc.dmdSecs[i];
    var r := Register(env, s, DataObjectEntity, s.dataObjectUuid, DataObjectPayload(sec.id, s.dataObjectPid, s.versionPid));
    match Accept(r.reply)
    case Raised(e) => Outcome(r.state, Some(e))
    case Ok(pid) => AttachDataObject(if adopt then r.state.(dataObjectPid := pid) else r.state, i, pid)
  }

  /** The returned handle as an identifier, then an isPartOf naming the Version
      before the first isPartOf (`None` when there is none), then the write. */
  function AttachDataObject(s: State, i: nat, pid: string): (o: Outcome)
    requires i < |s.doc.dmdSecs|
    ensures o.failure.Some? ==> RunError(o.failure.value)
    ensures Annotates(s, o.state, i)
    ensures o.state.workHasPid == s.workHasPid && o.state.versionHasPid == s.versionHasPid
    ensures o.state.dataObjectHasPid == s.dataObjectHasPid
  {
    match AddIdentifier(s.doc.dmdSecs[i], pid)
    case Raised(e) => Outcome(s, Some(e))
    case Ok(sec1) =>
      if sec1.isPartOfs == [] then Outcome(Edit(s, i, sec1), Some(AttributeError))
      else Outcome(Write(Edit(s, i, sec1.(isPartOfs := [Build(IsPartOf, s.versionPid)] + sec1.isPartOfs))), None)
  }

  /** The second PUT of the Version record (:391-402). */
  function ReputVersion(env: Env, s: State): (o: Outcome)
    ensures o.failure.Some? ==> RunError(o.failure.value)
    ensures o.state.doc == s.doc && o.state.dataObjectPids == s.dataObjectPids
    ensures Grows(s, o.state)
  {
    if s.dataObjectPids.None? then Outcome(s, Some(UnboundLocalError("dataObjectPids")))
    else if s.versionUuid.None? then Outcome(s, Some(UnboundLocalError("version_uuid")))
    else
      var r := Register(env, s, VersionEntity, s.versionUuid.value, VersionPayload(s.workPids, s.dataObjectPids.value, s.versionPid));
      if IsErrorStatus(r.reply.status) then Outcome(r.state, Some(HTTPError(r.reply.status)))
      else Outcome(r.state, None)
  }

  // ---------------------------------------------------------------------------
  // The run

  /** One dmdSec: its three independent tests (:160, :224, :315). */
  function Visit(env: Env, workHint: Option<string>, s: State, i: nat): (o: Outcome)
    requires i < |s.doc.dmdSecs|
    ensures o.failure.Some? ==> RunError(o.failure.value)
    ensures OnlySection(s, o.state, i)
    ensures Grows(s, o.state)
    ensures s.doc.dmdSecs[i].id !in s.versions ==> o.state.dataObjectPids == s.dataObjectPids
  {
    var id := s.doc.dmdSecs[i].id;
    if id !in s.works then VisitLater(env, s, i, id)
    else
      var o1 := WorkStep(env, workHint, s, i);
      if o1.failure.Some? then o1 else VisitLater(env, o1.state, i, id)
  }

  /** The Version and DataObject tests of the dmdSec with the given ID. */
  function VisitLater(env: Env, s: State, i: nat, id: string): (o: Outcome)
    requires i < |s.doc.dmdSecs|
    ensures o.failure.Some? ==> RunError(o.failure.value)
    ensures OnlySection(s, o.state, i)
    ensures Grows(s, o.state)
    ensures id !in s.versions ==> o.state.dataObjectPids == s.dataObjectPids
  {
    var o2 := if id in s.versions then VersionStep(env, s, i) else Outcome(s, None);
    if o2.failure.Some? then o2
    else if id in s.dataObjects then DataObjectStep(env, o2.state, i) else o2
  }

  /** The dmdSecs from the i-th on, until one raises. */
  function Sections(env: Env, workHint: Option<string>, s: State, i: nat): (o: Outcome)
    requires i <= |s.doc.dmdSecs|
    ensures o.failure.Some? ==> RunError(o.failure.value)
    ensures Grows(s, o.state)
    decreases |s.doc.dmdSecs| - i
  {
    if i == |s.doc.dmdSecs| then Outcome(s, None)
    else
      var o := Visit(env, workHint, s, i);
      if o.failure.Some? then o else Sections(env, workHint, o.state, i + 1)
  }

  /** One dmdSec further on: the visit either raises or hands its state on. */
  lemma SectionsStep(env: Env, workHint: Option<string>, s: State, i: nat)
    requires i < |s.doc.dmdSecs|
    ensures var o := Visit(env, workHint, s, i);
            Sections(env, workHint, s, i) == if o.failure.Some? then o else Sections(env, workHint, o.state, i + 1)
  {
  }

  /** Past the last dmdSec nothing more happens. */
  lemma SectionsDone(env: Env, workHint: Option<string>, s: State)
    ensures Sections(env, workHint, s, |s.doc.dmdSecs|) == Outcome(s, None)
  {
  }

  /** Validation, the DataObject candidate (:152-153), then the dmdSecs. The
      version hint is the state's initial `versionPid`. */
  function Start(env: Env, workHint: Option<string>, s: State): (o: Outcome)
    ensures Grows(s, o.state)
  {
    match Validate(s.works, s.versions, s.dataObjects, workHint, s.versionPid)
    case Some(e) => Outcome(s, Some(e))
    case None => Sections(env, workHint, Begun(env, s), 0)
  }

  /** The state in which the dmdSecs are visited: the DataObject candidate drawn. */
  function Begun(env: Env, s: State): (t: State)
    ensures t.doc == s.doc && t.minted == s.minted + 1
  {
    var uuid := env.uuid4(s.minted);
    s.(minted := s.minted + 1, dataObjectUuid := uuid, dataObjectPid := env.prefix + "/" + uuid)
  }

  /** `m2h(filename, work_pid=workHint, version_pid=versionHint)` */
  function M2h(env: Env, doc: Document, workHint: Option<string>, versionHint: Option<string>): (o: Outcome)
    ensures |o.state.doc.dmdSecs| == |doc.dmdSecs|
    ensures o.state.works == DmdIds(doc.structMap, WorkType)
    ensures o.state.versions == DmdIds(doc.structMap, VersionType)
    ensures o.state.dataObjects == DmdIds(doc.structMap, DataObjectType)
    ensures o.failure.None? ==>
              |DmdIds(doc.structMap, VersionType)| == 1 && |DmdIds(doc.structMap, DataObjectType)| == 1
              && (Given(workHint) ==> |DmdIds(doc.structMap, WorkType)| == 1)
  {
    Start(env, workHint, Initial(doc, versionHint))
  }
}
