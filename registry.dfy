/** The handle registry as the run sees it: requests it sends, replies it gets,
    and the outside world (fresh UUIDs, the registry's answers, the stored
    Version records) as functions the run is given. */
module Registry {
  import opened Py
  import opened Text
  import opened Relations

  /** The prefix under which both runs build their candidate PIDs. */
  const CandidatePrefix := "21.T11998/"

  datatype EntityKind = WorkEntity | VersionEntity | DataObjectEntity

  /** What a PUT carries. The record builders are modelled in their own
      modules; here a payload names the builder call and its PID arguments. */
  datatype Payload =
    | WorkPayload(candidate: string)
    | VersionPayload(workPids: seq<string>, dataObjectPids: seq<string>, versionPid: Option<string>)
    | DataObjectPayload(sectionId: string, dataObjectPid: string, versionPid: Option<string>)

  /** A request: a PUT of a record under `url + uuid`, or the GET of a stored
      Version record under `url + localName`. */
  datatype Call = Put(kind: EntityKind, uuid: string, payload: Payload) | Get(localName: string)

  /** A reply: its HTTP status and the `handle` member of its JSON body. */
  datatype Reply = Reply(status: int, handle: Option<string>)

  /** The statuses for which `raise_for_status()` raises. */
  predicate IsErrorStatus(status: int) {
    400 <= status < 600
  }

  /** `raise_for_status()` followed by `json.loads(text)['handle']`. */
  function Accept(reply: Reply): (r: Result<string>)
    ensures r.Ok? <==> !IsErrorStatus(reply.status) && reply.handle.Some?
    ensures r.Ok? ==> r.value == reply.handle.value
    ensures r.Raised? ==> r.error == (if IsErrorStatus(reply.status) then HTTPError(reply.status) else KeyError)
  {
    if IsErrorStatus(reply.status) then Raised(HTTPError(reply.status))
    else if reply.handle.None? then Raised(KeyError)
    else Ok(reply.handle.value)
  }

  /** The world a run executes in: the handle prefix of the connection file,
      the k-th `uuid.uuid4()`, the reply to the k-th PUT, and the DataObject
      PID list stored in the Version record under a local name (`None` where
      the record cannot be read as such a list). */
  datatype Env = Env(
    prefix: string,
    uuid4: nat -> string,
    reply: nat -> Reply,
    record: string -> Option<seq<string>>)

  /** `helpers.getDAtaObejctPidsFrom_Versionhandle(pid, …)`: the request goes
      to the local name of `pid`. */
  function FetchTarget(pid: string): (r: Result<string>)
    ensures r.Ok? <==> '/' in pid
    ensures r.Raised? ==> r.error == IndexError
  {
    match LocalName(pid)
    case None => Raised(IndexError)
    case Some(local) => Ok(local)
  }

  /** For a well-formed handle the request goes to its local name, never to its prefix. */
  lemma FetchTargetOfHandle(prefix: string, local: string)
    requires '/' !in prefix && '/' !in local
    ensures FetchTarget(prefix + "/" + local) == Ok(local)
  {
    HandleParts(prefix, local);
  }
}
