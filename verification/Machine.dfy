// One reconcile pass as a machine: each step sends one request to the API server and
// computes, from the answer, which request comes next. Between two steps anybody else may
// send requests, Jobs make progress, and the process may die.
module Machine {
  import opened Types
  import opened ModuleLists
  import opened Templates
  import opened Api

  /** The in-memory copy of the resource that one pass works on. */
  datatype Memory = Memory(spec: OdooSpec, status: OdooStatus, version: nat)

  datatype Write = Fresh | Over(version: nat)

  datatype Stored = Stored(data: SecretData, version: nat)

  datatype Service = Http | Poll

  /** Where the pass stands: the request it is about to send, and what it remembers. The
      result of a finished pass is an error flag and a number of seconds to requeue after. */
  datatype Pc =
    | Idle(failed: bool, after: nat)
    | Fetch
    | AdminGet
    | AdminGenerate(found: Option<Stored>)
    | AdminPut(write: Write, data: SecretData)
    | AdminStatus
    | ConfigGet
    | ConfigNoPassword(found: Option<Stored>)
    | DbRead(i: nat, details: ConnectionDetails, found: Option<Stored>)
    | ConfigPut(write: Write, data: SecretData)
    | ConfigStatus
    | ClaimGet
    | ClaimCreate
    | ClaimStatus
    | JobGet
    | PodsList(job: Key)
    | Cleanup(job: Key, pods: seq<Id>)
    | JobCreate
    | JobStatusFirst(after: nat)
    | JobStatusSecond(after: nat)
    | DeployGet
    | DeployPut(write: Write)
    | DeployStatus
    | ServiceGet(service: Service)
    | ServicePut(service: Service, write: Write, alloc: Allocation)
    | FinalStatus
    | Fail(writes: nat, after: nat)

  datatype Local = Local(key: Key, pc: Pc, mem: Memory, admin: SecretData)

  function OdooId(key: Key): Id { Id(OdooKind, key) }
  function AdminId(l: Local): Id { Id(SecretKind, AdminKey(l.key, l.mem.spec)) }
  function ConfigId(key: Key): Id { Id(SecretKind, ConfigKey(key)) }
  function ClaimId(key: Key): Id { Id(ClaimKind, key) }
  function JobId(key: Key): Id { Id(JobKind, InitJobKey(key)) }
  function DeployId(key: Key): Id { Id(DeploymentKind, key) }
  function ServiceId(key: Key, s: Service): Id {
    Id(ServiceKind, if s.Http? then HttpKey(key) else PollKey(key))
  }

  function WriteCall(id: Id, body: Body, write: Write): Call {
    match write
    case Fresh => Create(id, body)
    case Over(version) => Update(id, body, version)
  }

  function StatusCall(l: Local): Call {
    UpdateStatus(OdooId(l.key), l.mem.status, l.mem.version)
  }

  function ServiceTemplate(key: Key, s: Service): ServiceSpec {
    if s.Http? then HttpTemplate(key) else PollTemplate(key)
  }

  predicate Named(record: InitJobRecord) {
    record.name != "" && record.namespace != ""
  }

  function RecordedId(status: OdooStatus): Id {
    Id(JobKind, Key(status.currentInitJob.namespace, status.currentInitJob.name))
  }

  function LocalMissing(l: Local): seq<string> {
    Missing(l.mem.spec, l.mem.status)
  }

  /** The next request of the pass. */
  function CallOf(l: Local): Call {
    match l.pc
    case Idle(_, _) => Skip
    case Fetch => Get(OdooId(l.key))
    case AdminGet => Get(AdminId(l))
    case AdminGenerate(_) => GeneratePassword
    case AdminPut(write, data) => WriteCall(AdminId(l), SecretBody(data), write)
    case AdminStatus => StatusCall(l)
    case ConfigGet => Get(ConfigId(l.key))
    case ConfigNoPassword(_) => StatusCall(l)
    case DbRead(i, _, _) =>
      var ref := DbRef(l.mem.spec.database, i);
      if FromSecret(ref) then Get(Id(SecretKind, Key(l.key.namespace, ref.name))) else Skip
    case ConfigPut(write, data) => WriteCall(ConfigId(l.key), SecretBody(data), write)
    case ConfigStatus => StatusCall(l)
    case ClaimGet => Get(ClaimId(l.key))
    case ClaimCreate => Create(ClaimId(l.key), ClaimBody(l.mem.spec.filestore))
    case ClaimStatus => StatusCall(l)
    case JobGet => Get(RecordedId(l.mem.status))
    case PodsList(job) => ListPods(job.name)
    case Cleanup(job, pods) => Delete(if pods == [] then Id(JobKind, job) else pods[0])
    case JobCreate =>
      var missing := LocalMissing(l);
      if missing == [] then Skip
      else Create(JobId(l.key), JobBody(JobTemplate(l.mem.spec, l.mem.status, missing), PENDING))
    case JobStatusFirst(_) => StatusCall(l)
    case JobStatusSecond(_) => StatusCall(l)
    case DeployGet => Get(DeployId(l.key))
    case DeployPut(write) =>
      WriteCall(DeployId(l.key), DeploymentBody(DeploymentTemplate(l.key, l.mem.spec, l.mem.status)), write)
    case DeployStatus => StatusCall(l)
    case ServiceGet(s) => Get(ServiceId(l.key, s))
    case ServicePut(s, write, alloc) =>
      WriteCall(ServiceId(l.key, s), ServiceBody(ServiceTemplate(l.key, s).(alloc := alloc)), write)
    case FinalStatus => StatusCall(l)
    case Fail(_, _) => StatusCall(l)
  }

  function Goto(l: Local, pc: Pc): Local {
    l.(pc := pc)
  }

  /** A successful status write refreshes the whole in-memory resource, specification
      included, from the server's answer; a failed one leaves it as it is. */
  function Refreshed(l: Local, r: Response): Local {
    if r.Written? && r.body.OdooBody? then
      l.(mem := Memory(r.body.spec, r.body.status, r.version))
    else l
  }

  function SetStatus(l: Local, status: OdooStatus): Local {
    l.(mem := l.mem.(status := status))
  }

  /** A sub-reconciler that fails writes the status once, and its caller once more. */
  function Failed(l: Local, after: nat): Local {
    Goto(l, Fail(2, after))
  }

  // The admin password secret.

  function AfterFetch(l: Local, r: Response): Local {
    match r
    case Found(OdooBody(spec, status), version) =>
      l.(mem := Memory(spec.(modules := Dedup(spec.modules)), status, version), pc := AdminGet)
    case NotFound => Goto(l, Idle(false, 0))
    case _ => Goto(l, Idle(true, 15))
  }

  function AdminDone(l: Local, data: SecretData): Local {
    SetStatus(l.(admin := data, pc := AdminStatus),
              l.mem.status.(adminSecretName := AdminKey(l.key, l.mem.spec).name))
  }

  function AfterAdminGet(l: Local, r: Response): Local {
    match r
    case Found(SecretBody(data), version) => Goto(l, AdminGenerate(Some(Stored(data, version))))
    case NotFound => Goto(l, AdminGenerate(None))
    case _ => Failed(l, 15)
  }

  function AfterAdminGenerate(l: Local, found: Option<Stored>, r: Response): Local {
    match r
    case Password(text) =>
      (match found
       case None => Goto(l, AdminPut(Fresh, map[PASSWORD := text]))
       case Some(secret) =>
         if PASSWORD in secret.data then AdminDone(l, secret.data)
         else Goto(l, AdminPut(Over(secret.version), map[PASSWORD := text])))
    case _ => Failed(l, 15)
  }

  function AfterAdminPut(l: Local, data: SecretData, r: Response): Local {
    if r.Written? then AdminDone(l, data) else Failed(l, 15)
  }

  // The configuration secret.

  function AfterConfigGet(l: Local, r: Response): Local {
    match r
    case Found(SecretBody(data), version) => StartConfig(l, Some(Stored(data, version)))
    case NotFound => StartConfig(l, None)
    case _ => Failed(l, 15)
  }

  function StartConfig(l: Local, found: Option<Stored>): Local {
    if PASSWORD in l.admin then Goto(l, DbRead(0, NO_DETAILS, found)) else Goto(l, ConfigNoPassword(found))
  }

  /** Without a password the step reports the error of the earlier lookup, which there is
      only when the configuration secret did not exist. */
  function AfterConfigNoPassword(l: Local, found: Option<Stored>, r: Response): Local {
    if found.None? || !r.Written? then Goto(Refreshed(l, r), Fail(1, 15)) else ConfigDone(Refreshed(l, r))
  }

  function ConfigDone(l: Local): Local {
    SetStatus(Goto(l, ConfigStatus), l.mem.status.(configSecretName := ConfigKey(l.key).name))
  }

  function ReadField(l: Local, i: nat, d: ConnectionDetails, r: Response): Result<ConnectionDetails, DbError> {
    var ref := DbRef(l.mem.spec.database, i);
    if !FromSecret(ref) then FieldFromSpec(d, i, l.mem.spec.database)
    else match r
      case Found(SecretBody(data), _) => FieldFromSecret(d, i, ref.key, Some(data))
      case _ => Err(SecretNotFound)
  }

  function AfterField(l: Local, i: nat, field: Result<ConnectionDetails, DbError>, found: Option<Stored>): Local {
    match field
    case Err(_) => Failed(l, 15)
    case Ok(d) => if i + 1 < FIELDS then Goto(l, DbRead(i + 1, d, found)) else DetailsDone(l, d, found)
  }

  function DetailsDone(l: Local, d: ConnectionDetails, found: Option<Stored>): Local {
    if PASSWORD !in l.admin then Failed(l, 15)
    else StoreConfig(l, ConfigData(l.admin[PASSWORD], l.mem.spec.config, d), found)
  }

  function StoreConfig(l: Local, data: SecretData, found: Option<Stored>): Local {
    match found
    case None => Goto(l, ConfigPut(Fresh, data))
    case Some(secret) => if secret.data == data then ConfigDone(l) else Goto(l, ConfigPut(Over(secret.version), data))
  }

  function AfterConfigPut(l: Local, r: Response): Local {
    if r.Written? then ConfigDone(l) else Failed(l, 15)
  }

  // The volume claim.

  function ClaimDone(l: Local): Local {
    SetStatus(Goto(l, ClaimStatus), l.mem.status.(dataPvcName := l.key.name))
  }

  function AfterClaimGet(l: Local, r: Response): Local {
    match r
    case Found(_, _) => ClaimDone(l)
    case NotFound => Goto(l, ClaimCreate)
    case _ => Failed(l, 15)
  }

  function AfterClaimCreate(l: Local, r: Response): Local {
    if r.Written? then ClaimDone(l) else Failed(l, 15)
  }

  // The init Job.

  function JobEntry(l: Local): Local {
    if Named(l.mem.status.currentInitJob) then Goto(l, JobGet) else Decide(l)
  }

  function Decide(l: Local): Local {
    if LocalMissing(l) == [] then Goto(l, DeployGet) else Goto(l, JobCreate)
  }

  /** The recorded modules become installed modules, and the record is cleared. */
  function Recorded(status: OdooStatus): OdooStatus {
    status.(initModulesInstalled := status.initModulesInstalled + status.currentInitJob.modules,
            currentInitJob := NO_INIT_JOB)
  }

  function AfterJobGet(l: Local, r: Response): Local {
    match r
    case NotFound => Decide(l)
    case Found(JobBody(_, s), _) =>
      if s.succeeded > 0 then
        SetStatus(Goto(l, PodsList(RecordedId(l.mem.status).key)), Recorded(l.mem.status))
      else if s.active > 0 then Goto(l, JobStatusSecond(15))
      else if s.failed > 0 then Goto(l, JobStatusFirst(0))
      else Decide(l)
    case _ => Failed(l, 15)
  }

  function AfterPodsList(l: Local, job: Key, r: Response): Local {
    if r.Listed? then Goto(l, Cleanup(job, r.pods)) else Failed(l, 30)
  }

  function AfterCleanup(l: Local, job: Key, pods: seq<Id>, r: Response): Local {
    if !r.Deleted? then Failed(l, 30)
    else if pods == [] then Goto(l, JobStatusFirst(30))
    else Goto(l, Cleanup(job, pods[1..]))
  }

  function AfterJobCreate(l: Local, r: Response): Local {
    if r.Written? then
      SetStatus(Goto(l, JobStatusFirst(30)),
                l.mem.status.(currentInitJob :=
                  InitJobRecord(InitJobKey(l.key).name, l.key.namespace, LocalMissing(l))))
    else Failed(l, 0)
  }

  function AfterJobStatusFirst(l: Local, after: nat, r: Response): Local {
    Goto(Refreshed(l, r), if r.Written? then JobStatusSecond(after) else Fail(1, after))
  }

  function AfterJobStatusSecond(l: Local, after: nat, r: Response): Local {
    Goto(Refreshed(l, r), Idle(!r.Written?, after))
  }

  // The Deployment and the services.

  function AfterDeployGet(l: Local, r: Response): Local {
    match r
    case Found(DeploymentBody(deployment), version) =>
      if deployment == DeploymentTemplate(l.key, l.mem.spec, l.mem.status) then Goto(l, DeployStatus)
      else Goto(l, DeployPut(Over(version)))
    case NotFound => Goto(l, DeployPut(Fresh))
    case _ => Failed(l, 15)
  }

  function AfterDeployPut(l: Local, r: Response): Local {
    if r.Written? then Goto(l, DeployStatus) else Failed(l, 15)
  }

  function ServiceDone(l: Local, s: Service): Local {
    Goto(l, if s.Http? then ServiceGet(Poll) else FinalStatus)
  }

  function AfterServiceGet(l: Local, s: Service, r: Response): Local {
    match r
    case Found(ServiceBody(service), version) =>
      if service == ServiceTemplate(l.key, s).(alloc := service.alloc) then ServiceDone(l, s)
      else Goto(l, ServicePut(s, Over(version), service.alloc))
    case NotFound => Goto(l, ServicePut(s, Fresh, UNALLOCATED))
    case _ => Failed(l, 15)
  }

  function AfterServicePut(l: Local, s: Service, r: Response): Local {
    if r.Written? then ServiceDone(l, s) else Failed(l, 15)
  }

  function AfterFail(l: Local, writes: nat, after: nat, r: Response): Local {
    Goto(Refreshed(l, r), if writes > 1 then Fail(writes - 1, after) else Idle(true, after))
  }

  /** The computation between two requests. */
  function Continue(l: Local, r: Response): Local {
    match l.pc
    case Idle(_, _) => l
    case Fetch => AfterFetch(l, r)
    case AdminGet => AfterAdminGet(l, r)
    case AdminGenerate(found) => AfterAdminGenerate(l, found, r)
    case AdminPut(_, data) => AfterAdminPut(l, data, r)
    case AdminStatus => Goto(Refreshed(l, r), ConfigGet)
    case ConfigGet => AfterConfigGet(l, r)
    case ConfigNoPassword(found) => AfterConfigNoPassword(l, found, r)
    case DbRead(i, d, found) => AfterField(l, i, ReadField(l, i, d, r), found)
    case ConfigPut(_, _) => AfterConfigPut(l, r)
    case ConfigStatus => Goto(Refreshed(l, r), ClaimGet)
    case ClaimGet => AfterClaimGet(l, r)
    case ClaimCreate => AfterClaimCreate(l, r)
    case ClaimStatus => JobEntry(Refreshed(l, r))
    case JobGet => AfterJobGet(l, r)
    case PodsList(job) => AfterPodsList(l, job, r)
    case Cleanup(job, pods) => AfterCleanup(l, job, pods, r)
    case JobCreate => AfterJobCreate(l, r)
    case JobStatusFirst(after) => AfterJobStatusFirst(l, after, r)
    case JobStatusSecond(after) => AfterJobStatusSecond(l, after, r)
    case DeployGet => AfterDeployGet(l, r)
    case DeployPut(_) => AfterDeployPut(l, r)
    case DeployStatus => Goto(Refreshed(l, r), ServiceGet(Http))
    case ServiceGet(s) => AfterServiceGet(l, s, r)
    case ServicePut(s, _, _) => AfterServicePut(l, s, r)
    case FinalStatus => Goto(Refreshed(l, r), Idle(!r.Written?, 0))
    case Fail(writes, after) => AfterFail(l, writes, after, r)
  }

  // The whole system: the store, one pass, and everybody else.

  datatype Label =
    | Start                                  // a pass begins
    | Own(choice: Choice)                    // the pass sends its next request
    | Crash                                  // the process dies and its memory is lost
    | Foreign(call: Call, choice: Choice)    // somebody else sends a request
    | JobProgress(id: Id, jobStatus: JobStatus)

  /** `executed` holds the modules run by every init Job of the resource that succeeded. */
  datatype System = System(w: World, l: Local, ghost executed: set<string>)

  function OwnStep(w: World, l: Local, ch: Choice): (World, Local) {
    var (w', r) := Serve(w, CallOf(l), ch);
    (w', Continue(l, r))
  }

  /** The Job controller updates the counters of a Job; successes are never taken back. */
  predicate Progresses(w: World, id: Id, s: JobStatus) {
    Exists(w, id) && At(w, id).body.value.JobBody? && s.succeeded >= At(w, id).body.value.jobStatus.succeeded
  }

  function ProgressStep(w: World, id: Id, s: JobStatus): World {
    if Progresses(w, id, s) then Put(w, id, Some(At(w, id).body.value.(jobStatus := s))) else w
  }

  ghost function Executes(w: World, key: Key, id: Id, s: JobStatus): set<string> {
    if id == JobId(key) && Progresses(w, id, s) && s.succeeded > 0 then Ran(At(w, id).body.value.job) else {}
  }

  ghost function Apply(m: System, a: Label): System {
    match a
    case Start => if m.l.pc.Idle? then m.(l := Goto(m.l, Fetch)) else m
    case Own(ch) => var (w', l') := OwnStep(m.w, m.l, ch); m.(w := w', l := l')
    case Crash => m.(l := Goto(m.l, Idle(true, 0)))
    case Foreign(call, ch) => m.(w := Serve(m.w, call, ch).0)
    case JobProgress(id, s) =>
      m.(w := ProgressStep(m.w, id, s), executed := m.executed + Executes(m.w, m.l.key, id, s))
  }

  ghost function RunAll(m: System, labels: seq<Label>): System {
    if labels == [] then m else Apply(RunAll(m, labels[..|labels| - 1]), labels[|labels| - 1])
  }

  lemma RunSnoc(m: System, labels: seq<Label>, a: Label)
    ensures RunAll(m, labels + [a]) == Apply(RunAll(m, labels), a)
  {
    assert (labels + [a])[..|labels|] == labels;
  }

  lemma {:induction false} RunJoin(m: System, a: seq<Label>, b: seq<Label>)
    ensures RunAll(m, a + b) == RunAll(RunAll(m, a), b)
  {
    hide Apply;
    if b == [] {
      assert a + b == a;
    } else {
      assert (a + b)[..|a + b| - 1] == a + b[..|b| - 1];
      RunJoin(m, a, b[..|b| - 1]);
    }
  }

  /** The state in which nothing of the resource exists yet and no pass runs. */
  ghost predicate Initial(m: System) {
    m.l.pc.Idle? && WellTyped(m.w) &&
    !Exists(m.w, OdooId(m.l.key)) && !Exists(m.w, JobId(m.l.key))
  }
}
