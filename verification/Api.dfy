// The API server: a store of versioned objects, the requests it serves, and the ways a
// request can go wrong.
module Api {
  import opened Types

  datatype Kind = OdooKind | SecretKind | ClaimKind | JobKind | DeploymentKind | ServiceKind | PodKind

  datatype Id = Id(kind: Kind, key: Key)

  datatype Body =
    | OdooBody(spec: OdooSpec, status: OdooStatus)
    | SecretBody(data: SecretData)
    | ClaimBody(claim: ClaimSpec)
    | JobBody(job: JobSpec, jobStatus: JobStatus)
    | DeploymentBody(deployment: DeploymentSpec)
    | ServiceBody(service: ServiceSpec)
    | PodBody(jobName: string)
  {
    function Kind(): Kind {
      match this
      case OdooBody(_, _) => OdooKind
      case SecretBody(_) => SecretKind
      case ClaimBody(_) => ClaimKind
      case JobBody(_, _) => JobKind
      case DeploymentBody(_) => DeploymentKind
      case ServiceBody(_) => ServiceKind
      case PodBody(_) => PodKind
    }
  }

  /** What is stored under an id. The version survives deletion, so no version of an id is
      ever used twice. */
  datatype Slot = Slot(body: Option<Body>, version: nat)

  type World = map<Id, Slot>

  function At(w: World, id: Id): Slot {
    if id in w then w[id] else Slot(None, 0)
  }

  predicate Exists(w: World, id: Id) {
    At(w, id).body.Some?
  }

  function Put(w: World, id: Id, body: Option<Body>): World {
    w[id := Slot(body, At(w, id).version + 1)]
  }

  /** Objects are stored under ids of their own kind. */
  predicate WellTyped(w: World) {
    forall id :: id in w && w[id].body.Some? ==> w[id].body.value.Kind() == id.kind
  }

  datatype Call =
    | Skip
    | Get(id: Id)
    | Create(id: Id, body: Body)
    | Update(id: Id, body: Body, version: nat)
    | UpdateStatus(id: Id, status: OdooStatus, version: nat)
    | Delete(id: Id)
    | ListPods(jobName: string)
    | GeneratePassword

  datatype Response =
    | Nothing
    | Found(body: Body, version: nat)
    | Written(body: Body, version: nat)
    | Deleted
    | Listed(pods: seq<Id>)
    | Password(text: string)
    | NotFound
    | AlreadyExists
    | Conflict
    | Failure

  /** A request can be lost, or be carried out while the answer is lost. */
  datatype Fault = NoFault | RequestLost | AnswerLost

  /** What the caller does not decide: faults, random passwords, the fields the server
      allocates to a service, and the order in which it lists pods. */
  datatype Choice = Choice(fault: Fault, password: string, alloc: Allocation, listing: seq<Id>)

  predicate IsPodOf(w: World, id: Id, jobName: string) {
    id.kind.PodKind? && At(w, id).body == Some(PodBody(jobName))
  }

  /** A listing names every pod of the job once, in any namespace. */
  ghost predicate ListingOf(w: World, jobName: string, pods: seq<Id>) {
    (forall id :: id in pods <==> IsPodOf(w, id, jobName)) &&
    (forall i, j :: 0 <= i < j < |pods| ==> pods[i] != pods[j])
  }

  function PodsOf(w: World, jobName: string): (pods: set<Id>)
    ensures forall id :: id in pods <==> IsPodOf(w, id, jobName)
  {
    set id | id in w && IsPodOf(w, id, jobName)
  }

  predicate IsListing(w: World, jobName: string, pods: seq<Id>)
    ensures IsListing(w, jobName, pods) <==> ListingOf(w, jobName, pods)
  {
    (set id | id in pods) == PodsOf(w, jobName) &&
    forall i, j :: 0 <= i < j < |pods| ==> pods[i] != pods[j]
  }

  /** The object as stored on creation: statuses start empty, and services get their
      allocated fields. */
  function Admitted(body: Body, alloc: Allocation): (stored: Body)
    ensures stored.Kind() == body.Kind()
  {
    match body
    case OdooBody(spec, _) => OdooBody(spec, EMPTY_STATUS)
    case JobBody(job, _) => JobBody(job, PENDING)
    case ServiceBody(service) => ServiceBody(service.(alloc := alloc))
    case _ => body
  }

  /** The object as stored by an update: statuses are not touched. */
  function Replaced(current: Body, body: Body): (stored: Body)
    ensures stored.Kind() == body.Kind()
  {
    match (current, body)
    case (OdooBody(_, status), OdooBody(spec, _)) => OdooBody(spec, status)
    case (JobBody(_, jobStatus), JobBody(job, _)) => JobBody(job, jobStatus)
    case _ => body
  }

  function Answer(w: World, call: Call, ch: Choice): (World, Response) {
    match call
    case Skip => (w, Nothing)
    case Get(id) =>
      (w, if Exists(w, id) then Found(At(w, id).body.value, At(w, id).version) else NotFound)
    case Create(id, body) =>
      if Exists(w, id) then (w, AlreadyExists)
      else if body.Kind() != id.kind then (w, Failure)
      else
        var stored := Admitted(body, ch.alloc);
        (Put(w, id, Some(stored)), Written(stored, At(w, id).version + 1))
    case Update(id, body, version) =>
      if !Exists(w, id) then (w, NotFound)
      else if At(w, id).version != version then (w, Conflict)
      else if body.Kind() != id.kind then (w, Failure)
      else
        var stored := Replaced(At(w, id).body.value, body);
        (Put(w, id, Some(stored)), Written(stored, version + 1))
    case UpdateStatus(id, status, version) =>
      if !Exists(w, id) then (w, NotFound)
      else if At(w, id).version != version then (w, Conflict)
      else if !At(w, id).body.value.OdooBody? then (w, Failure)
      else
        var stored := OdooBody(At(w, id).body.value.spec, status);
        (Put(w, id, Some(stored)), Written(stored, version + 1))
    case Delete(id) =>
      if Exists(w, id) then (Put(w, id, None), Deleted) else (w, NotFound)
    case ListPods(jobName) =>
      (w, if IsListing(w, jobName, ch.listing) then Listed(ch.listing) else Failure)
    case GeneratePassword =>
      (w, if ch.password != "" then Password(ch.password) else Failure)
  }

  function Serve(w: World, call: Call, ch: Choice): (World, Response) {
    if call.Skip? then (w, Nothing)
    else match ch.fault
      case RequestLost => (w, Failure)
      case AnswerLost => (Answer(w, call, ch).0, Failure)
      case NoFault => Answer(w, call, ch)
  }

  /** A choice without faults. */
  ghost predicate Honest(w: World, call: Call, ch: Choice) {
    ch.fault.NoFault? && ch.password != "" &&
    (call.ListPods? ==> ListingOf(w, call.jobName, ch.listing))
  }

  /** The id a request may write. */
  function Target(call: Call): Option<Id> {
    match call
    case Create(id, _) => Some(id)
    case Update(id, _, _) => Some(id)
    case UpdateStatus(id, _, _) => Some(id)
    case Delete(id) => Some(id)
    case _ => None
  }

  // What serving a request keeps.

  lemma ServeTyped(w: World, call: Call, ch: Choice)
    requires WellTyped(w)
    ensures WellTyped(Serve(w, call, ch).0)
  {
    ServeEffect(w, call, ch);
    var w' := Serve(w, call, ch).0;
    if w' != w {
      var id := Target(call).value;
      assert forall other :: other in w' && other != id ==> other in w && w'[other] == w[other];
    }
  }

  /** A request leaves the store alone or puts one object, of the kind of its id. */
  lemma ServeEffect(w: World, call: Call, ch: Choice)
    ensures var w' := Serve(w, call, ch).0;
            w' == w ||
            (Target(call).Some? &&
             exists body ::
               (w' == Put(w, Target(call).value, body) &&
                (body.Some? && WellTyped(w) ==> body.value.Kind() == Target(call).value.kind)))
  {
    var w' := Serve(w, call, ch).0;
    if w' != w {
      var id := Target(call).value;
      var body := At(w', id).body;
      assert w' == Put(w, id, body);
    }
  }

  /** A request changes at most its target. */
  lemma ServeFrame(w: World, call: Call, ch: Choice, id: Id)
    requires Target(call) != Some(id)
    ensures At(Serve(w, call, ch).0, id) == At(w, id)
  {
  }

  /** Versions only grow, and an unchanged version means an unchanged object. */
  lemma ServeVersions(w: World, call: Call, ch: Choice, id: Id)
    ensures At(Serve(w, call, ch).0, id).version >= At(w, id).version
    ensures At(Serve(w, call, ch).0, id).version == At(w, id).version ==> At(Serve(w, call, ch).0, id) == At(w, id)
  {
  }
}
