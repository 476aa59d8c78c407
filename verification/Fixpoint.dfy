// What a pass achieves when nobody else acts while it runs. It ends without asking to be
// called again only when nothing is left to do, and from then on no pass changes anything.
module Fixpoint {
  import opened Types
  import opened ModuleLists
  import opened Templates
  import opened Api
  import opened Machine
  import opened Safety
  import opened History
  import Watch

  // ---- What there is to do ----

  function SecretIn(w: World, key: Key): Option<SecretData> {
    match At(w, Id(SecretKind, key)).body
    case Some(SecretBody(data)) => Some(data)
    case _ => None
  }

  function SecretsOf(w: World): Key -> Option<SecretData> {
    key => SecretIn(w, key)
  }

  /** What the configuration secret should hold, computed from the secrets in the store. */
  function Wanted(w: World, key: Key, spec: OdooSpec): Result<SecretData, Watch.ConfigError> {
    Watch.Desired(Watch.Resource(key, spec), SecretsOf(w))
  }

  predicate SelfReferring(key: Key, spec: OdooSpec) {
    Watch.SelfReferring(Watch.Resource(key, spec))
  }

  /** The stored configuration is the wanted one. */
  predicate AsWanted(w: World, key: Key, spec: OdooSpec) {
    Wanted(w, key, spec).Ok? && At(w, ConfigId(key)).body == Some(SecretBody(Wanted(w, key, spec).value))
  }

  /** There is a configuration, and it is up to date if it is not computed from itself. */
  predicate ConfigReady(w: World, key: Key, spec: OdooSpec) {
    SecretIn(w, ConfigKey(key)).Some? && (!SelfReferring(key, spec) ==> AsWanted(w, key, spec))
  }

  predicate Configured(w: World, key: Key, spec: OdooSpec, status: OdooStatus) {
    ConfigReady(w, key, spec) && status.configSecretName == ConfigKey(key).name
  }

  predicate Prepared(w: World, key: Key, spec: OdooSpec, status: OdooStatus) {
    Configured(w, key, spec, status) && Exists(w, ClaimId(key)) && status.dataPvcName == key.name
  }

  /** The recorded Job, if it exists. */
  function RecordedJob(w: World, status: OdooStatus): Option<JobStatus> {
    if !Named(status.currentInitJob) then None
    else match At(w, RecordedId(status)).body
      case Some(JobBody(_, s)) => Some(s)
      case _ => None
  }

  predicate JobIdle(w: World, status: OdooStatus) {
    RecordedJob(w, status) == None || RecordedJob(w, status) == Some(PENDING)
  }

  predicate JobFailed(w: World, status: OdooStatus) {
    RecordedJob(w, status).Some? &&
    var s := RecordedJob(w, status).value;
    s.succeeded == 0 && s.active == 0 && s.failed > 0
  }

  // Whether Jobs make progress while the pass runs: if not, the pass is `alone`.

  /** The recorded Job has failed; unless the pass was alone, it has failed and may go on. */
  predicate JobOver(alone: bool, w: World, status: OdooStatus) {
    if alone then JobFailed(w, status) else RecordedJob(w, status).Some?
  }

  predicate Installed(alone: bool, w: World, spec: OdooSpec, status: OdooStatus) {
    (alone ==> JobIdle(w, status)) && Missing(spec, status) == []
  }

  predicate DeploymentReady(w: World, key: Key, spec: OdooSpec, status: OdooStatus) {
    At(w, DeployId(key)).body == Some(DeploymentBody(DeploymentTemplate(key, spec, status)))
  }

  predicate ServiceReady(w: World, key: Key, s: Service) {
    match At(w, ServiceId(key, s)).body
    case Some(ServiceBody(service)) => service == ServiceTemplate(key, s).(alloc := service.alloc)
    case _ => false
  }

  predicate Served(w: World, key: Key, spec: OdooSpec, status: OdooStatus) {
    DeploymentReady(w, key, spec, status) && ServiceReady(w, key, Http) && ServiceReady(w, key, Poll)
  }

  /** All children match their templates and all modules are installed, or it is up to the
      recorded init Job, which has failed with none of its pods active. */
  predicate Settled(alone: bool, w: World, key: Key, spec: OdooSpec, status: OdooStatus) {
    Prepared(w, key, spec, status) &&
    (JobOver(alone, w, status) || (Installed(alone, w, spec, status) && Served(w, key, spec, status)))
  }

  predicate Rested(alone: bool, w: World, key: Key) {
    HasResource(w, key) && Settled(alone, w, key, StoredSpec(w, key), StoredStatus(w, key))
  }

  predicate Steady(w: World, key: Key) {
    Rested(true, w, key)
  }

  // ---- What the pass knows at each point ----

  predicate Slotted(w: World, id: Id, found: Option<Stored>) {
    match found
    case None => !Exists(w, id)
    case Some(secret) => At(w, id) == Slot(Some(SecretBody(secret.data)), secret.version)
  }

  predicate Fits(w: World, id: Id, write: Write) {
    match write
    case Fresh => !Exists(w, id)
    case Over(version) => Exists(w, id) && At(w, id).version == version
  }

  predicate AdminStored(w: World, l: Local) {
    PASSWORD in l.admin && At(w, AdminId(l)).body == Some(SecretBody(l.admin))
  }

  /** The fields read so far are the ones the whole computation would have read. */
  predicate Reading(w: World, l: Local, i: nat, d: ConnectionDetails) {
    i < FIELDS &&
    GetDbConnectionDetails(l.mem.spec.database, l.key.namespace, SecretsOf(w)) ==
      DetailsFrom(l.mem.spec.database, l.key.namespace, SecretsOf(w), i, d)
  }

  predicate PreparedFor(w: World, l: Local) {
    Prepared(w, l.key, l.mem.spec, l.mem.status)
  }

  predicate InstalledFor(alone: bool, w: World, l: Local) {
    PreparedFor(w, l) && Installed(alone, w, l.mem.spec, l.mem.status)
  }

  predicate DeployedFor(alone: bool, w: World, l: Local) {
    InstalledFor(alone, w, l) && DeploymentReady(w, l.key, l.mem.spec, l.mem.status)
  }

  predicate Knows(alone: bool, w: World, l: Local) {
    match l.pc
    case Idle(failed, after) => !failed && after == 0 ==> !Exists(w, OdooId(l.key)) || Rested(alone, w, l.key)
    case Fetch => true
    case AdminGet => true
    case AdminGenerate(found) => Slotted(w, AdminId(l), found)
    case AdminPut(write, data) => PASSWORD in data && Fits(w, AdminId(l), write)
    case AdminStatus => AdminStored(w, l)
    case ConfigGet => AdminStored(w, l)
    case ConfigNoPassword(_) => false
    case DbRead(i, d, found) => AdminStored(w, l) && Slotted(w, ConfigId(l.key), found) && Reading(w, l, i, d)
    case ConfigPut(write, data) => Wanted(w, l.key, l.mem.spec) == Ok(data) && Fits(w, ConfigId(l.key), write)
    case ConfigStatus => Configured(w, l.key, l.mem.spec, l.mem.status)
    case ClaimGet => Configured(w, l.key, l.mem.spec, l.mem.status)
    case ClaimCreate => Configured(w, l.key, l.mem.spec, l.mem.status) && !Exists(w, ClaimId(l.key))
    case ClaimStatus => PreparedFor(w, l)
    case JobGet => PreparedFor(w, l)
    case PodsList(_) => true
    case Cleanup(_, _) => true
    case JobCreate => true
    case JobStatusFirst(after) => after == 0 ==> PreparedFor(w, l) && JobOver(alone, w, l.mem.status)
    case JobStatusSecond(after) => after == 0 ==> PreparedFor(w, l) && JobOver(alone, w, l.mem.status)
    case DeployGet => InstalledFor(alone, w, l)
    case DeployPut(write) => InstalledFor(alone, w, l) && Fits(w, DeployId(l.key), write)
    case DeployStatus => DeployedFor(alone, w, l)
    case ServiceGet(s) => DeployedFor(alone, w, l) && (s.Poll? ==> ServiceReady(w, l.key, Http))
    case ServicePut(s, write, _) =>
      DeployedFor(alone, w, l) && (s.Poll? ==> ServiceReady(w, l.key, Http)) && Fits(w, ServiceId(l.key, s), write)
    case FinalStatus => InstalledFor(alone, w, l) && Served(w, l.key, l.mem.spec, l.mem.status)
    case Fail(_, _) => true
  }

  // ---- Frames ----

  ghost predicate Untouched(w: World, w': World, kind: Kind) {
    forall key :: At(w', Id(kind, key)) == At(w, Id(kind, key))
  }

  lemma StepUntouched(w: World, l: Local, ch: Choice, kind: Kind)
    requires Target(CallOf(l)).Some? ==> Target(CallOf(l)).value.kind != kind
    ensures Untouched(w, OwnStep(w, l, ch).0, kind)
  {
    hide Continue, CallOf;
    forall key ensures At(OwnStep(w, l, ch).0, Id(kind, key)) == At(w, Id(kind, key)) {
      ServeFrame(w, CallOf(l), ch, Id(kind, key));
    }
  }

  /** What is wanted does not depend on the configuration secret itself. */
  lemma WantedFrame(w: World, w': World, key: Key, spec: OdooSpec)
    requires !SelfReferring(key, spec)
    requires forall k :: k != ConfigKey(key) ==> SecretIn(w', k) == SecretIn(w, k)
    ensures Wanted(w', key, spec) == Wanted(w, key, spec)
  {
    Watch.ElsewhereSame(Watch.Resource(key, spec), SecretsOf(w), SecretsOf(w'));
  }

  /** What was prepared stays prepared while secrets and claims are left alone. */
  lemma PreparedFrame(w: World, w': World, key: Key, spec: OdooSpec, status: OdooStatus)
    requires Untouched(w, w', SecretKind)
    ensures Configured(w, key, spec, status) ==> Configured(w', key, spec, status)
    ensures Untouched(w, w', ClaimKind) && Prepared(w, key, spec, status) ==> Prepared(w', key, spec, status)
  {
    hide Wanted, SelfReferring;
    if !SelfReferring(key, spec) {
      forall k ensures SecretIn(w', k) == SecretIn(w, k) {
        assert At(w', Id(SecretKind, k)) == At(w, Id(SecretKind, k));
      }
      WantedFrame(w, w', key, spec);
    }
    assert At(w', ConfigId(key)) == At(w, ConfigId(key));
    if Untouched(w, w', ClaimKind) {
      assert At(w', ClaimId(key)) == At(w, ClaimId(key));
    }
  }

  lemma JobFrame(w: World, w': World, status: OdooStatus)
    requires Untouched(w, w', JobKind)
    ensures RecordedJob(w', status) == RecordedJob(w, status)
  {
    assert At(w', RecordedId(status)) == At(w, RecordedId(status));
  }

  lemma ServedFrame(w: World, w': World, key: Key, spec: OdooSpec, status: OdooStatus)
    ensures Untouched(w, w', DeploymentKind) && DeploymentReady(w, key, spec, status) ==>
      DeploymentReady(w', key, spec, status)
    ensures Untouched(w, w', ServiceKind) ==> forall s :: ServiceReady(w, key, s) ==> ServiceReady(w', key, s)
  {
    hide DeploymentTemplate, ServiceTemplate;
    if Untouched(w, w', DeploymentKind) {
      assert At(w', DeployId(key)) == At(w, DeployId(key));
    }
    if Untouched(w, w', ServiceKind) {
      forall s ensures At(w', ServiceId(key, s)) == At(w, ServiceId(key, s)) {}
    }
  }

  /** Two specifications that differ at most in repeated modules. */
  predicate Alike(a: OdooSpec, b: OdooSpec) {
    a == b || a == b.(modules := Dedup(b.modules))
  }

  lemma AlikeFacts(w: World, key: Key, a: OdooSpec, b: OdooSpec, status: OdooStatus)
    requires Alike(a, b)
    ensures AdminKey(key, a) == AdminKey(key, b)
    ensures Configured(w, key, a, status) == Configured(w, key, b, status)
    ensures DeploymentTemplate(key, a, status) == DeploymentTemplate(key, b, status)
    ensures Missing(a, status) == [] <==> Missing(b, status) == []
  {
    hide ConfigData, Dedup, Difference;
    DedupSound(b.modules);
    forall x ensures x in b.modules <==> x in Dedup(b.modules) {
      assert x in Elements(Dedup(b.modules)) <==> x in Elements(b.modules);
    }
    DifferenceEmpty(a.modules, status.initModulesInstalled);
    DifferenceEmpty(b.modules, status.initModulesInstalled);
  }

  // ---- One step keeps the knowledge ----

  lemma FetchKnows(alone: bool, w: World, l: Local, ch: Choice)
    requires l.pc.Fetch?
    ensures var (w', l') := OwnStep(w, l, ch); Knows(alone, w', l')
  {
    hide AfterField, Rested;
  }

  lemma AdminKnows(alone: bool, w: World, l: Local, ch: Choice)
    requires (l.pc.AdminGet? || l.pc.AdminGenerate?) && Knows(alone, w, l)
    ensures var (w', l') := OwnStep(w, l, ch); Knows(alone, w', l')
  {
    hide AfterField, AfterConfigGet, AfterServiceGet, AfterJobGet, AfterDeployGet, AfterFetch, AdminKey;
    hide Configured, Prepared, Installed, Served, DeploymentReady, ServiceReady, Wanted, Reading;
  }

  lemma AdminPutKnows(alone: bool, w: World, l: Local, ch: Choice)
    requires l.pc.AdminPut? && Knows(alone, w, l)
    ensures var (w', l') := OwnStep(w, l, ch); Knows(alone, w', l')
  {
    hide AfterField, AfterConfigGet, AfterServiceGet, AfterJobGet, AfterDeployGet, AfterFetch, AdminKey;
    hide Configured, Prepared, Installed, Served, DeploymentReady, ServiceReady, Wanted, Reading;
  }

  lemma ConfigGetKnows(alone: bool, w: World, l: Local, ch: Choice)
    requires l.pc.ConfigGet? && Knows(alone, w, l) && WellTyped(w)
    ensures var (w', l') := OwnStep(w, l, ch); Knows(alone, w', l')
  {
    hide AfterField, AfterServiceGet, AfterJobGet, AfterDeployGet, AfterFetch, AdminKey, DetailsFrom;
    hide Configured, Prepared, Installed, Served, DeploymentReady, ServiceReady, Wanted;
  }

  /** What the pass reads for a field is what the whole computation reads. */
  lemma FieldRead(w: World, l: Local, ch: Choice)
    requires l.pc.DbRead? && WellTyped(w)
    ensures var r := Serve(w, CallOf(l), ch).1; var i := l.pc.i; var db := l.mem.spec.database;
            var field := Field(l.pc.details, db, i, SecretsOf(w)(Key(l.key.namespace, DbRef(db, i).name)));
            (ReadField(l, i, l.pc.details, r).Ok? || Honest(w, CallOf(l), ch)) ==>
              ReadField(l, i, l.pc.details, r) == field
  {
    hide Continue, FieldFromText, FieldFromSpec, DbRef;
  }

  lemma StoreKnows(alone: bool, w: World, l: Local, data: SecretData, found: Option<Stored>)
    requires Wanted(w, l.key, l.mem.spec) == Ok(data) && Slotted(w, ConfigId(l.key), found)
    ensures Knows(alone, w, StoreConfig(l, data, found))
  {
    hide Wanted, SelfReferring, Prepared, Installed, Served, DeploymentReady, ServiceReady, AdminStored, Reading;
  }

  /** When all fields are read, what is stored is what is wanted. */
  lemma DetailsKnow(alone: bool, w: World, l: Local, d: ConnectionDetails, found: Option<Stored>)
    requires AdminStored(w, l) && Slotted(w, ConfigId(l.key), found)
    requires GetDbConnectionDetails(l.mem.spec.database, l.key.namespace, SecretsOf(w)) == Ok(d)
    ensures Knows(alone, w, DetailsDone(l, d, found))
  {
    hide Knows, ConfigData, GetDbConnectionDetails, AdminKey;
    StoreKnows(alone, w, l, ConfigData(l.admin[PASSWORD], l.mem.spec.config, d), found);
  }

  lemma FieldKnows(alone: bool, w: World, l: Local, i: nat, d: ConnectionDetails,
                   field: Result<ConnectionDetails, DbError>, found: Option<Stored>)
    requires AdminStored(w, l) && Slotted(w, ConfigId(l.key), found) && Reading(w, l, i, d)
    requires field.Ok? ==>
      field == Field(d, l.mem.spec.database, i, SecretsOf(w)(Key(l.key.namespace, DbRef(l.mem.spec.database, i).name)))
    ensures Knows(alone, w, AfterField(l, i, field, found))
  {
    hide DetailsDone, GetDbConnectionDetails, Field, DbRef, AdminKey, SecretsOf;
    hide Configured, Prepared, Installed, Served, DeploymentReady, ServiceReady, Wanted;
    if field.Ok? && i + 1 == FIELDS {
      assert DetailsFrom(l.mem.spec.database, l.key.namespace, SecretsOf(w), FIELDS, field.value) == Ok(field.value);
      DetailsKnow(alone, w, l, field.value, found);
    }
  }

  lemma DbReadKnows(alone: bool, w: World, l: Local, ch: Choice)
    requires l.pc.DbRead? && Knows(alone, w, l) && WellTyped(w)
    ensures var (w', l') := OwnStep(w, l, ch); Knows(alone, w', l')
  {
    hide AfterField, ReadField, Field, Reading, AdminStored, Slotted, SecretsOf, DbRef;
    hide Configured, Prepared, Installed, Served, DeploymentReady, ServiceReady, Wanted;
    var r := Serve(w, CallOf(l), ch).1;
    FieldRead(w, l, ch);
    FieldKnows(alone, w, l, l.pc.i, l.pc.details, ReadField(l, l.pc.i, l.pc.details, r), l.pc.found);
  }

  lemma ConfigPutKnows(alone: bool, w: World, l: Local, ch: Choice)
    requires l.pc.ConfigPut? && Knows(alone, w, l)
    ensures var (w', l') := OwnStep(w, l, ch); Knows(alone, w', l')
  {
    hide AfterField, AfterConfigGet, AfterServiceGet, AfterJobGet, AfterDeployGet, AfterFetch, SelfReferring;
    hide Prepared, Installed, Served, DeploymentReady, ServiceReady, Wanted, Reading, AdminStored;
    var (w', l') := OwnStep(w, l, ch);
    if l'.pc.ConfigStatus? && !SelfReferring(l.key, l.mem.spec) {
      forall k | k != ConfigKey(l.key) ensures SecretIn(w', k) == SecretIn(w, k) {
        ServeFrame(w, CallOf(l), ch, Id(SecretKind, k));
      }
      WantedFrame(w, w', l.key, l.mem.spec);
    }
  }

  /** A status write changes the stored resource only, and what it refreshes is alike. */
  lemma StatusRefreshes(w: World, l: Local, ch: Choice)
    requires InStep(w, l) && StatusStep(l.pc)
    ensures var (w', r) := Serve(w, CallOf(l), ch); var l' := Refreshed(l, r);
            l'.key == l.key && l'.mem.status == l.mem.status && l'.admin == l.admin &&
            Alike(l.mem.spec, l'.mem.spec) &&
            (forall id :: id != OdooId(l.key) ==> At(w', id) == At(w, id)) &&
            (r.Written? ==> HasResource(w', l.key) && StoredStatus(w', l.key) == l.mem.status &&
                            StoredSpec(w', l.key) == l'.mem.spec)
  {
    hide AfterField, CallOf, Continue;
    StatusStepLocal(l, Nothing);
    var w' := Serve(w, CallOf(l), ch).0;
    forall id | id != OdooId(l.key) ensures At(w', id) == At(w, id) {
      ServeFrame(w, CallOf(l), ch, id);
    }
  }

  /** What was known about everything but the resource is known after the write. */
  lemma StatusFacts(alone: bool, w: World, w': World, key: Key, a: OdooSpec, b: OdooSpec, status: OdooStatus)
    requires Alike(a, b) && forall id :: id != OdooId(key) ==> At(w', id) == At(w, id)
    ensures Configured(w, key, a, status) ==> Configured(w', key, b, status)
    ensures Prepared(w, key, a, status) ==> Prepared(w', key, b, status)
    ensures Installed(alone, w, a, status) ==> Installed(alone, w', b, status)
    ensures JobOver(alone, w, status) ==> JobOver(alone, w', status)
    ensures DeploymentReady(w, key, a, status) ==> DeploymentReady(w', key, b, status)
    ensures forall s :: ServiceReady(w, key, s) ==> ServiceReady(w', key, s)
  {
    hide Configured, ServiceReady, Dedup;
    AlikeFacts(w, key, a, b, status);
    PreparedFrame(w, w', key, a, status);
    PreparedFrame(w, w', key, b, status);
    JobFrame(w, w', status);
    ServedFrame(w, w', key, a, status);
  }

  lemma EarlyStatusKnows(alone: bool, w: World, l: Local, ch: Choice)
    requires InStep(w, l) && Knows(alone, w, l) && (l.pc.AdminStatus? || l.pc.ConfigStatus? || l.pc.ClaimStatus?)
    ensures var (w', l') := OwnStep(w, l, ch); Knows(alone, w', l')
  {
    hide AfterField, AfterAdminGenerate, AfterJobGet, AfterServiceGet, AfterDeployGet, CallOf, Serve, Refreshed, Alike;
    hide Configured, Prepared, Installed, JobOver, DeploymentReady, ServiceReady, AdminKey, Reading, JobEntry;
    var (w', r) := Serve(w, CallOf(l), ch);
    var l' := Refreshed(l, r);
    StatusRefreshes(w, l, ch);
    StatusFacts(alone, w, w', l.key, l.mem.spec, l'.mem.spec, l.mem.status);
    AlikeFacts(w, l.key, l.mem.spec, l'.mem.spec, l.mem.status);
    if l.pc.ClaimStatus? {
      EntryKnows(alone, w', l');
    }
  }

  lemma LateStatusKnows(alone: bool, w: World, l: Local, ch: Choice)
    requires InStep(w, l) && Knows(alone, w, l)
    requires l.pc.JobStatusFirst? || l.pc.JobStatusSecond? || l.pc.DeployStatus? || l.pc.FinalStatus? || l.pc.Fail?
    ensures var (w', l') := OwnStep(w, l, ch); Knows(alone, w', l')
  {
    hide AfterField, AfterAdminGenerate, AfterJobGet, AfterServiceGet, AfterDeployGet, CallOf, Serve, Refreshed, Alike;
    hide Configured, Prepared, Installed, JobOver, DeploymentReady, ServiceReady, AdminKey, Reading;
    var (w', r) := Serve(w, CallOf(l), ch);
    var l' := Refreshed(l, r);
    StatusRefreshes(w, l, ch);
    StatusFacts(alone, w, w', l.key, l.mem.spec, l'.mem.spec, l.mem.status);
  }

  lemma EntryKnows(alone: bool, w: World, l: Local)
    requires PreparedFor(w, l)
    ensures Knows(alone, w, JobEntry(l))
  {
    hide Prepared, Difference, DeploymentReady, ServiceReady, AdminKey, Reading, Configured;
  }

  lemma ClaimKnows(alone: bool, w: World, l: Local, ch: Choice)
    requires (l.pc.ClaimGet? || l.pc.ClaimCreate?) && Knows(alone, w, l)
    ensures var (w', l') := OwnStep(w, l, ch); Knows(alone, w', l')
  {
    hide AfterField, AfterAdminGenerate, AfterJobGet, AfterServiceGet, AfterDeployGet, AfterFetch, AfterConfigGet;
    hide ConfigReady, Installed, JobOver, DeploymentReady, ServiceReady, AdminKey, Reading;
    StepUntouched(w, l, ch, SecretKind);
    PreparedFrame(w, OwnStep(w, l, ch).0, l.key, l.mem.spec, l.mem.status);
  }

  lemma JobGetKnows(alone: bool, w: World, l: Local, ch: Choice)
    requires l.pc.JobGet? && Knows(alone, w, l) && Named(l.mem.status.currentInitJob)
    ensures var (w', l') := OwnStep(w, l, ch); Knows(alone, w', l')
  {
    hide AfterField, AfterAdminGenerate, AfterServiceGet, AfterDeployGet, AfterFetch, AfterConfigGet;
    hide Prepared, DeploymentReady, ServiceReady, AdminKey, Reading, Configured, Difference;
  }

  lemma JobKnows(alone: bool, w: World, l: Local, ch: Choice)
    requires l.pc.PodsList? || l.pc.Cleanup? || l.pc.JobCreate?
    ensures var (w', l') := OwnStep(w, l, ch); Knows(alone, w', l')
  {
    hide AfterField, AfterAdminGenerate, AfterServiceGet, AfterDeployGet, AfterFetch, AfterConfigGet, AfterJobGet;
    hide CallOf, Serve, AdminKey, Reading, Rested;
  }

  /** Writes of Deployments and services leave what was known about the rest. */
  lemma LateFacts(alone: bool, w: World, l: Local, ch: Choice)
    requires Target(CallOf(l)).Some? ==>
      Target(CallOf(l)).value.kind.DeploymentKind? || Target(CallOf(l)).value.kind.ServiceKind?
    ensures var w' := OwnStep(w, l, ch).0; InstalledFor(alone, w, l) ==> InstalledFor(alone, w', l)
  {
    hide CallOf, Continue, Prepared, RecordedJob, Difference;
    var w' := OwnStep(w, l, ch).0;
    StepUntouched(w, l, ch, SecretKind);
    StepUntouched(w, l, ch, ClaimKind);
    StepUntouched(w, l, ch, JobKind);
    PreparedFrame(w, w', l.key, l.mem.spec, l.mem.status);
    JobFrame(w, w', l.mem.status);
  }

  lemma DeployKnows(alone: bool, w: World, l: Local, ch: Choice)
    requires (l.pc.DeployGet? || l.pc.DeployPut?) && Knows(alone, w, l)
    ensures var (w', l') := OwnStep(w, l, ch); Knows(alone, w', l')
  {
    hide AfterField, AfterAdminGenerate, AfterServiceGet, AfterFetch, AfterConfigGet, AfterJobGet;
    hide Prepared, Installed, AdminKey, Reading, DeploymentTemplate;
    LateFacts(alone, w, l, ch);
  }

  lemma ServiceGetKnows(alone: bool, w: World, l: Local, ch: Choice)
    requires l.pc.ServiceGet? && Knows(alone, w, l)
    ensures var (w', l') := OwnStep(w, l, ch); Knows(alone, w', l')
  {
    hide AfterField, AfterAdminGenerate, AfterFetch, AfterConfigGet, AfterJobGet, AfterDeployGet;
    hide Prepared, Installed, AdminKey, Reading, DeploymentTemplate, ServiceTemplate;
  }

  lemma ServicePutKnows(alone: bool, w: World, l: Local, ch: Choice)
    requires l.pc.ServicePut? && Knows(alone, w, l)
    ensures var (w', l') := OwnStep(w, l, ch); Knows(alone, w', l')
  {
    hide AfterField, AfterAdminGenerate, AfterFetch, AfterConfigGet, AfterJobGet, AfterDeployGet, AfterServiceGet;
    hide Prepared, Installed, AdminKey, Reading, DeploymentTemplate, ServiceTemplate, HttpKey, PollKey;
    var w' := OwnStep(w, l, ch).0;
    LateFacts(alone, w, l, ch);
    DerivedNamesDistinct(l.key, l.key);
    assert At(w', DeployId(l.key)) == At(w, DeployId(l.key));
  }

  lemma OwnKnows(alone: bool, m: System, ch: Choice)
    requires Inv(m) && InStep(m.w, m.l) && Knows(alone, m.w, m.l)
    ensures var (w', l') := OwnStep(m.w, m.l, ch); Knows(alone, w', l')
  {
    hide Continue, CallOf, Knows;
    match m.l.pc
    case Idle(_, _) => IdleStays(m.l, Nothing); IdleKnows(alone, m.w, m.l, ch);
    case Fetch => FetchKnows(alone, m.w, m.l, ch);
    case AdminGet => AdminKnows(alone, m.w, m.l, ch);
    case AdminGenerate(_) => AdminKnows(alone, m.w, m.l, ch);
    case AdminPut(_, _) => AdminPutKnows(alone, m.w, m.l, ch);
    case AdminStatus => EarlyStatusKnows(alone, m.w, m.l, ch);
    case ConfigGet => ConfigGetKnows(alone, m.w, m.l, ch);
    case ConfigNoPassword(_) => NoPasswordNever(alone, m.w, m.l);
    case DbRead(_, _, _) => DbReadKnows(alone, m.w, m.l, ch);
    case ConfigPut(_, _) => ConfigPutKnows(alone, m.w, m.l, ch);
    case ConfigStatus => EarlyStatusKnows(alone, m.w, m.l, ch);
    case ClaimGet => ClaimKnows(alone, m.w, m.l, ch);
    case ClaimCreate => ClaimKnows(alone, m.w, m.l, ch);
    case ClaimStatus => EarlyStatusKnows(alone, m.w, m.l, ch);
    case JobGet => JobGetKnows(alone, m.w, m.l, ch);
    case PodsList(_) => JobKnows(alone, m.w, m.l, ch);
    case Cleanup(_, _) => JobKnows(alone, m.w, m.l, ch);
    case JobCreate => JobKnows(alone, m.w, m.l, ch);
    case DeployGet => DeployKnows(alone, m.w, m.l, ch);
    case DeployPut(_) => DeployKnows(alone, m.w, m.l, ch);
    case ServiceGet(_) => ServiceGetKnows(alone, m.w, m.l, ch);
    case ServicePut(_, _, _) => ServicePutKnows(alone, m.w, m.l, ch);
    case _ => LateStatusKnows(alone, m.w, m.l, ch);
  }

  /** The exit for a missing password is never taken. */
  lemma NoPasswordNever(alone: bool, w: World, l: Local)
    requires Knows(alone, w, l)
    ensures !l.pc.ConfigNoPassword?
  {
    hide Rested;
  }

  lemma IdleKnows(alone: bool, w: World, l: Local, ch: Choice)
    requires l.pc.Idle? && Knows(alone, w, l)
    ensures var (w', l') := OwnStep(w, l, ch); Knows(alone, w', l')
  {
    hide AfterField, Rested;
  }

  /** Nobody else sends requests; the pass may fail, the process may die, passes may start again,
      and Jobs make progress at any point. */
  ghost predicate Unedited(labels: seq<Label>) {
    forall i :: 0 <= i < |labels| ==> !labels[i].Foreign?
  }

  /** Nobody else acts at all. */
  ghost predicate Undisturbed(labels: seq<Label>) {
    forall i :: 0 <= i < |labels| ==> !labels[i].Foreign? && !labels[i].JobProgress?
  }

  /** Only Jobs changed, and none of them vanished. */
  ghost predicate OnlyJobs(w: World, w': World) {
    (forall id: Id :: !id.kind.JobKind? ==> At(w', id) == At(w, id)) &&
    forall id: Id :: Exists(w, id) && At(w, id).body.value.JobBody? ==> Exists(w', id) && At(w', id).body.value.JobBody?
  }

  lemma ProgressLeaves(w: World, id: Id, s: JobStatus)
    requires WellTyped(w)
    ensures OnlyJobs(w, ProgressStep(w, id, s))
  {
  }

  lemma JobsLeaveWanted(w: World, w': World, key: Key, spec: OdooSpec, i: nat, d: ConnectionDetails)
    requires OnlyJobs(w, w') && i <= FIELDS
    ensures Wanted(w', key, spec) == Wanted(w, key, spec)
    ensures DetailsFrom(spec.database, key.namespace, SecretsOf(w'), i, d) ==
            DetailsFrom(spec.database, key.namespace, SecretsOf(w), i, d)
  {
    hide DbRef, ConfigData, DetailsFrom;
    forall k ensures SecretIn(w', k) == SecretIn(w, k) {
      assert At(w', Id(SecretKind, k)) == At(w, Id(SecretKind, k));
    }
    Watch.DetailsDependOnRefs(spec.database, key.namespace, SecretsOf(w'), SecretsOf(w), 0, NO_DETAILS);
    Watch.DetailsDependOnRefs(spec.database, key.namespace, SecretsOf(w'), SecretsOf(w), i, d);
  }

  lemma JobsLeaveRest(w: World, w': World, key: Key, spec: OdooSpec, status: OdooStatus)
    requires OnlyJobs(w, w')
    ensures Configured(w, key, spec, status) ==> Configured(w', key, spec, status)
    ensures Prepared(w, key, spec, status) ==> Prepared(w', key, spec, status)
    ensures DeploymentReady(w, key, spec, status) ==> DeploymentReady(w', key, spec, status)
    ensures forall s :: ServiceReady(w, key, s) ==> ServiceReady(w', key, s)
    ensures JobOver(false, w, status) ==> JobOver(false, w', status)
  {
    hide Configured, Wanted, DeploymentTemplate;
    PreparedFrame(w, w', key, spec, status);
    ServedFrame(w, w', key, spec, status);
    hide ServiceReady;
  }

  /** While Jobs make progress, a pass that does not count on their counters knows what it knew. */
  lemma ProgressKnows(w: World, w': World, l: Local)
    requires OnlyJobs(w, w') && Knows(false, w, l)
    ensures Knows(false, w', l)
  {
    hide Wanted, DetailsFrom, AdminKey, Difference;
    JobsLeaveWanted(w, w', l.key, l.mem.spec, 0, NO_DETAILS);
    if l.pc.DbRead? {
      JobsLeaveWanted(w, w', l.key, l.mem.spec, l.pc.i, l.pc.details);
    }
    JobsLeaveRest(w, w', l.key, l.mem.spec, l.mem.status);
    if HasResource(w, l.key) {
      JobsLeaveRest(w, w', l.key, StoredSpec(w, l.key), StoredStatus(w, l.key));
    }
    hide Prepared, Configured, DeploymentReady, ServiceReady, RecordedJob;
  }

  lemma StepKnows(alone: bool, m: System, a: Label)
    requires Inv(m) && InStep(m.w, m.l) && Knows(alone, m.w, m.l) && !a.Foreign? && (alone ==> !a.JobProgress?)
    ensures Knows(alone, Apply(m, a).w, Apply(m, a).l)
  {
    hide Continue, CallOf, Rested, ProgressStep;
    match a
    case Start =>
    case Own(ch) => OwnKnows(alone, m, ch);
    case Crash =>
    case JobProgress(id, s) =>
      ProgressLeaves(m.w, id, s);
      ProgressKnows(m.w, ProgressStep(m.w, id, s), m.l);
  }

  lemma {:induction false} RunKnows(alone: bool, m: System, labels: seq<Label>)
    requires Inv(m) && InStep(m.w, m.l) && Knows(alone, m.w, m.l) && Unedited(labels)
    requires alone ==> Undisturbed(labels)
    ensures var m' := RunAll(m, labels);
            Inv(m') && InStep(m'.w, m'.l) && Knows(alone, m'.w, m'.l) && m'.l.key == m.l.key
  {
    hide Apply, Knows;
    if labels != [] {
      var front, a := labels[..|labels| - 1], labels[|labels| - 1];
      RunKnows(alone, m, front);
      StepKeepsInv(RunAll(m, front), a);
      StepInStep(RunAll(m, front), a);
      StepKnows(alone, RunAll(m, front), a);
    }
  }

  /** A pass that reports neither an error nor a time to be called again leaves nothing to do:
      the resource is gone, or its children match their templates and its modules are
      installed, or a Job is recorded and exists, whose events wake the operator. If no Job made
      progress meanwhile, that Job has failed with no pod active, and otherwise none is at work. */
  lemma NoLostWakeUp(m: System, labels: seq<Label>)
    requires Inv(m) && m.l.pc.Fetch? && Unedited(labels)
    ensures var m' := RunAll(m, labels);
            m'.l.pc == Idle(false, 0) ==>
              !Exists(m'.w, OdooId(m.l.key)) ||
              (Rested(false, m'.w, m.l.key) && (Undisturbed(labels) ==> Steady(m'.w, m.l.key)))
  {
    hide Apply, Rested;
    RunKnows(false, m, labels);
    if Undisturbed(labels) {
      RunKnows(true, m, labels);
    }
  }

  // ---- From a steady store nothing changes ----

  predicate SameButAdmin(a: OdooStatus, b: OdooStatus) {
    a.(adminSecretName := "") == b.(adminSecretName := "")
  }

  /** Points at which the pass is about to write or delete a child. */
  predicate Writing(pc: Pc) {
    pc.AdminPut? || pc.ConfigPut? || pc.ClaimCreate? || pc.PodsList? || pc.Cleanup? || pc.JobCreate? ||
    pc.DeployPut? || pc.ServicePut?
  }

  predicate StillPoint(pc: Pc) {
    !Writing(pc) &&
    (pc.AdminGenerate? ==> pc.found.Some? && PASSWORD in pc.found.value.data) &&
    (pc.DbRead? ==> pc.found.Some?) &&
    (pc.JobStatusFirst? || pc.JobStatusSecond? ==> pc.after == 0)
  }

  predicate StillMemory(w: World, l: Local) {
    Active(l.pc) ==>
      HasResource(w, l.key) && Alike(l.mem.spec, StoredSpec(w, l.key)) &&
        SameButAdmin(l.mem.status, StoredStatus(w, l.key))
  }

  /** The pass finds everything in place. */
  predicate Still(w: World, l: Local) {
    StillPoint(l.pc) && StillMemory(w, l)
  }

  /** Steady, with a configuration that is not computed from itself. */
  predicate Fixed(w: World, key: Key) {
    Steady(w, key) && !SelfReferring(key, StoredSpec(w, key))
  }

  /** Being settled does not depend on the recorded name of the admin secret. */
  lemma SettledNear(w: World, key: Key, spec: OdooSpec, a: OdooStatus, b: OdooStatus)
    requires SameButAdmin(a, b)
    ensures Settled(true, w, key, spec, a) == Settled(true, w, key, spec, b)
  {
    hide ConfigReady, ServiceReady, Difference;
  }

  /** Everything is as the specification and status in memory want it. */
  predicate InPlace(w: World, key: Key, mem: Memory) {
    Prepared(w, key, mem.spec, mem.status) && AsWanted(w, key, mem.spec) &&
    (JobFailed(w, mem.status) || (Installed(true, w, mem.spec, mem.status) && Served(w, key, mem.spec, mem.status)))
  }

  lemma StillInPlace(w: World, l: Local)
    requires Fixed(w, l.key) && Active(l.pc) && Still(w, l)
    ensures InPlace(w, l.key, l.mem)
  {
    hide Wanted, ServiceReady, DeploymentTemplate, Dedup, Difference;
    var stored := StoredSpec(w, l.key);
    SettledNear(w, l.key, stored, l.mem.status, StoredStatus(w, l.key));
    AlikeFacts(w, l.key, l.mem.spec, stored, l.mem.status);
    assert SelfReferring(l.key, l.mem.spec) == SelfReferring(l.key, stored);
  }

  /** After a step the pass still stands at a harmless point, with the same names. */
  predicate StaysStill(l: Local, l': Local) {
    StillPoint(l'.pc) && SameButAdmin(l'.mem.status, l.mem.status)
  }

  lemma AdminStill(w: World, l: Local, ch: Choice)
    requires InPlace(w, l.key, l.mem) && StillPoint(l.pc) && (l.pc.AdminGet? || l.pc.AdminGenerate?)
    ensures var (w', l') := OwnStep(w, l, ch); w' == w && StaysStill(l, l')
  {
    hide AfterField, AfterConfigGet, AfterServiceGet, AfterJobGet, AfterDeployGet, AfterFetch, AdminKey, ConfigData;
    hide Installed, Served, ConfigReady, JobFailed, SelfReferring, Watch.Details;
  }

  lemma ConfigGetStill(w: World, l: Local, ch: Choice)
    requires InPlace(w, l.key, l.mem) && l.pc.ConfigGet? && AdminStored(w, l)
    ensures var (w', l') := OwnStep(w, l, ch); w' == w && StaysStill(l, l')
  {
    hide AfterField, AfterServiceGet, AfterJobGet, AfterDeployGet, AfterFetch, AdminKey, ConfigData;
    hide Installed, Served, ConfigReady, JobFailed, SelfReferring, Wanted;
  }

  lemma StoreStill(w: World, l: Local, data: SecretData, found: Option<Stored>)
    requires InPlace(w, l.key, l.mem)
    requires Wanted(w, l.key, l.mem.spec) == Ok(data) && Slotted(w, ConfigId(l.key), found) && found.Some?
    ensures StaysStill(l, StoreConfig(l, data, found))
  {
    hide Installed, Served, ConfigReady, JobFailed, SelfReferring, Wanted;
  }

  lemma DetailsStill(w: World, l: Local, d: ConnectionDetails, found: Option<Stored>)
    requires InPlace(w, l.key, l.mem)
    requires AdminStored(w, l) && Slotted(w, ConfigId(l.key), found) && found.Some?
    requires GetDbConnectionDetails(l.mem.spec.database, l.key.namespace, SecretsOf(w)) == Ok(d)
    ensures StaysStill(l, DetailsDone(l, d, found))
  {
    hide InPlace, ConfigData, GetDbConnectionDetails, AdminKey, StoreConfig;
    StoreStill(w, l, ConfigData(l.admin[PASSWORD], l.mem.spec.config, d), found);
  }

  lemma FieldStill(w: World, l: Local, i: nat, d: ConnectionDetails, field: Result<ConnectionDetails, DbError>,
                   found: Option<Stored>)
    requires InPlace(w, l.key, l.mem)
    requires AdminStored(w, l) && Slotted(w, ConfigId(l.key), found) && found.Some? && Reading(w, l, i, d)
    requires field.Ok? ==>
      field == Field(d, l.mem.spec.database, i, SecretsOf(w)(Key(l.key.namespace, DbRef(l.mem.spec.database, i).name)))
    ensures StaysStill(l, AfterField(l, i, field, found))
  {
    hide InPlace, DetailsDone, GetDbConnectionDetails, Field, DbRef, AdminKey, SecretsOf;
    if field.Ok? && i + 1 == FIELDS {
      assert DetailsFrom(l.mem.spec.database, l.key.namespace, SecretsOf(w), FIELDS, field.value) == Ok(field.value);
      DetailsStill(w, l, field.value, found);
    }
  }

  lemma DbReadStill(w: World, l: Local, ch: Choice)
    requires InPlace(w, l.key, l.mem) && StillPoint(l.pc) && l.pc.DbRead? && Knows(true, w, l) && WellTyped(w)
    ensures var (w', l') := OwnStep(w, l, ch); w' == w && StaysStill(l, l')
  {
    hide InPlace, AfterField, ReadField, Field, Reading, AdminStored, Slotted, SecretsOf, DbRef, Rested;
    var r := Serve(w, CallOf(l), ch).1;
    FieldRead(w, l, ch);
    FieldStill(w, l, l.pc.i, l.pc.details, ReadField(l, l.pc.i, l.pc.details, r), l.pc.found);
  }

  lemma ClaimStill(w: World, l: Local, ch: Choice)
    requires InPlace(w, l.key, l.mem) && l.pc.ClaimGet?
    ensures var (w', l') := OwnStep(w, l, ch); w' == w && StaysStill(l, l')
  {
    hide AfterField, AfterAdminGenerate, AfterServiceGet, AfterJobGet, AfterDeployGet, AfterFetch, ConfigData;
    hide Installed, Served, ConfigReady, JobFailed, SelfReferring, Wanted;
  }

  /** Nothing is missing when the recorded Job has not failed. */
  lemma EntryStill(w: World, l: Local)
    requires InPlace(w, l.key, l.mem)
    ensures StaysStill(l, JobEntry(l))
  {
    hide Served, Prepared, SelfReferring, Wanted, Difference;
  }

  lemma JobGetStill(w: World, l: Local, ch: Choice)
    requires InPlace(w, l.key, l.mem) && l.pc.JobGet? && Named(l.mem.status.currentInitJob)
    ensures var (w', l') := OwnStep(w, l, ch); w' == w && StaysStill(l, l')
  {
    hide AfterField, AfterAdminGenerate, AfterServiceGet, AfterDeployGet, AfterFetch, AfterConfigGet;
    hide Served, Prepared, SelfReferring, Wanted, Difference;
  }

  lemma DeployGetStill(w: World, l: Local, ch: Choice)
    requires InPlace(w, l.key, l.mem) && l.pc.DeployGet? && Installed(true, w, l.mem.spec, l.mem.status)
    ensures var (w', l') := OwnStep(w, l, ch); w' == w && StaysStill(l, l')
  {
    hide AfterField, AfterAdminGenerate, AfterServiceGet, AfterJobGet, AfterFetch, AfterConfigGet;
    hide Prepared, SelfReferring, Wanted, Difference, DeploymentTemplate, ServiceReady;
  }

  lemma ServiceGetStill(w: World, l: Local, ch: Choice)
    requires InPlace(w, l.key, l.mem) && l.pc.ServiceGet? && Installed(true, w, l.mem.spec, l.mem.status)
    ensures var (w', l') := OwnStep(w, l, ch); w' == w && StaysStill(l, l')
  {
    hide AfterField, AfterAdminGenerate, AfterDeployGet, AfterJobGet, AfterFetch, AfterConfigGet;
    hide Prepared, SelfReferring, Wanted, Difference, DeploymentTemplate, ServiceTemplate;
  }

  /** Steps that read children. */
  lemma ReadStill(w: World, l: Local, ch: Choice)
    requires InPlace(w, l.key, l.mem) && StillPoint(l.pc) && Knows(true, w, l) && WellTyped(w)
    requires ChildStep(l.pc) || l.pc.JobGet?
    requires l.pc.JobGet? ==> Named(l.mem.status.currentInitJob)
    ensures var (w', l') := OwnStep(w, l, ch); w' == w && StaysStill(l, l')
  {
    hide Continue, CallOf, InPlace, StaysStill, Rested;
    match l.pc
    case AdminGet => AdminStill(w, l, ch);
    case AdminGenerate(_) => AdminStill(w, l, ch);
    case ConfigGet => ConfigGetStill(w, l, ch);
    case DbRead(_, _, _) => DbReadStill(w, l, ch);
    case ClaimGet => ClaimStill(w, l, ch);
    case JobGet => JobGetStill(w, l, ch);
    case DeployGet => DeployGetStill(w, l, ch);
    case ServiceGet(_) => ServiceGetStill(w, l, ch);
    case _ =>
  }

  lemma FetchStill(w: World, l: Local, ch: Choice)
    requires l.pc.Fetch? && HasResource(w, l.key)
    ensures var (w', l') := OwnStep(w, l, ch); w' == w && l'.key == l.key && Still(w, l')
  {
    hide AfterField;
  }

  /** Other than at the volume claim, a status write leads on to the next lookup. */
  lemma StatusPointStill(l: Local, r: Response)
    requires StatusStep(l.pc) && !l.pc.ConfigNoPassword? && !l.pc.ClaimStatus? && StillPoint(l.pc)
    ensures StaysStill(Refreshed(l, r), Continue(l, r))
  {
    hide AfterField, AfterServiceGet, AfterDeployGet, AfterJobGet, AfterFetch, AfterConfigGet;
  }

  /** Only the resource changed, and in nothing but the recorded name of the admin secret. */
  ghost predicate OnlyAdminName(w: World, w': World, key: Key) {
    HasResource(w, key) && HasResource(w', key) && StoredSpec(w', key) == StoredSpec(w, key) &&
    SameButAdmin(StoredStatus(w', key), StoredStatus(w, key)) &&
    forall id :: id != OdooId(key) ==> At(w', id) == At(w, id)
  }

  lemma FixedFrame(w: World, w': World, key: Key)
    requires Fixed(w, key) && OnlyAdminName(w, w', key)
    ensures Fixed(w', key)
  {
    hide Prepared, Installed, JobFailed, DeploymentReady, ServiceReady, SelfReferring;
    var spec := StoredSpec(w, key);
    StatusFacts(true, w, w', key, spec, spec, StoredStatus(w, key));
    SettledNear(w', key, spec, StoredStatus(w, key), StoredStatus(w', key));
  }

  lemma StatusWorldStill(m: System, ch: Choice)
    requires Inv(m) && InStep(m.w, m.l) && Fixed(m.w, m.l.key) && Still(m.w, m.l) && StatusStep(m.l.pc)
    ensures OnlyAdminName(m.w, OwnStep(m.w, m.l, ch).0, m.l.key)
  {
    hide Rested, Continue, CallOf, SelfReferring, StillPoint;
    FixedHasResource(m.w, m.l.key);
    OwnAppends(m, ch);
    OwnLists(m, ch);
    StatusRefreshes(m.w, m.l, ch);
  }

  lemma FixedHasResource(w: World, key: Key)
    requires Fixed(w, key)
    ensures HasResource(w, key)
  {
    hide Settled;
  }

  /** What is in memory after a status write is still what is stored. */
  lemma RefreshedStill(w: World, w': World, l: Local, l': Local)
    requires OnlyAdminName(w, w', l.key) && Still(w, l) && Active(l.pc)
    requires StoredStatus(w', l.key) == StoredStatus(w, l.key) || StoredStatus(w', l.key) == l.mem.status
    requires l'.key == l.key && l'.pc == l.pc && l'.mem.status == l.mem.status
    requires l'.mem.spec == l.mem.spec || l'.mem.spec == StoredSpec(w, l.key)
    ensures Still(w', l')
  {
    hide StillPoint;
  }

  /** A status write keeps the pass still. */
  lemma StatusStill(m: System, ch: Choice)
    requires Inv(m) && InStep(m.w, m.l) && Knows(true, m.w, m.l)
    requires Fixed(m.w, m.l.key) && Still(m.w, m.l) && StatusStep(m.l.pc)
    ensures var (w', l') := OwnStep(m.w, m.l, ch);
            OnlyAdminName(m.w, w', m.l.key) && Fixed(w', m.l.key) && l'.key == m.l.key && Still(w', l')
  {
    hide Fixed, Knows, Continue, CallOf, StillPoint, StillMemory, Serve, Refreshed, Alike, Inv, InStep, StatusStep;
    var (w', r) := Serve(m.w, CallOf(m.l), ch);
    var l' := Refreshed(m.l, r);
    StatusWorldStill(m, ch);
    FixedFrame(m.w, w', m.l.key);
    NoPasswordNever(true, m.w, m.l);
    StatusStepLocal(m.l, r);
    StatusAnswer(m.w, m.l, ch);
    OwnLists(m, ch);
    ActiveStays(m.l, r);
    KeyFixed(m.l, r);
    RefreshedStill(m.w, w', m.l, l');
    if m.l.pc.ClaimStatus? {
      StillInPlace(w', l');
      EntryStill(w', l');
      ClaimStatusStep(m.l, r);
    } else {
      StatusPointStill(m.l, r);
    }
    StillOn(w', l', Continue(m.l, r));
  }

  lemma StillOn(w: World, l: Local, l': Local)
    requires Still(w, l) && Active(l.pc) && l'.key == l.key && l'.mem.spec == l.mem.spec && StaysStill(l, l')
    ensures Still(w, l')
  {
    hide StillPoint, Alike;
  }

  lemma ClaimStatusStep(l: Local, r: Response)
    requires l.pc.ClaimStatus?
    ensures Continue(l, r) == JobEntry(Refreshed(l, r))
  {
    hide AfterField;
  }

  lemma ActiveStays(l: Local, r: Response)
    ensures Refreshed(l, r).pc == l.pc && Refreshed(l, r).key == l.key
  {
  }

  lemma ChildStill(m: System, ch: Choice)
    requires Inv(m) && Knows(true, m.w, m.l) && Fixed(m.w, m.l.key) && Still(m.w, m.l)
    requires ChildStep(m.l.pc) || m.l.pc.JobGet?
    ensures var (w', l') := OwnStep(m.w, m.l, ch); w' == m.w && l'.key == m.l.key && Still(w', l')
  {
    hide Continue, CallOf, Knows, Fixed, Rested, StillPoint, Alike;
    var r := Serve(m.w, CallOf(m.l), ch).1;
    StillInPlace(m.w, m.l);
    ReadStill(m.w, m.l, ch);
    if m.l.pc.JobGet? {
      JobStepLocal(m.l, r);
    } else {
      ChildStepLocal(m.l, r);
    }
  }

  lemma StepStill(m: System, a: Label)
    requires Inv(m) && InStep(m.w, m.l) && Knows(true, m.w, m.l)
    requires Fixed(m.w, m.l.key) && Still(m.w, m.l) && !a.Foreign? && !a.JobProgress?
    ensures var m' := Apply(m, a);
            OnlyAdminName(m.w, m'.w, m.l.key) && Fixed(m'.w, m.l.key) && Still(m'.w, m'.l)
  {
    hide Continue, CallOf, Knows, Settled, SelfReferring;
    KeyStays(m, a);
    match a
    case Start =>
    case Crash =>
    case Own(ch) =>
      PassPoints(m.l.pc);
      if StatusStep(m.l.pc) {
        StatusStill(m, ch);
      } else if m.l.pc.Fetch? {
        FetchStill(m.w, m.l, ch);
      } else if m.l.pc.Idle? {
        IdleStays(m.l, Serve(m.w, CallOf(m.l), ch).1);
        IdleWorld(m.w, m.l, ch);
      } else {
        StillNoCreate(m.l);
        ChildStill(m, ch);
      }
  }

  lemma StillNoCreate(l: Local)
    requires StillPoint(l.pc)
    ensures !l.pc.JobCreate?
  {
  }

  lemma IdleWorld(w: World, l: Local, ch: Choice)
    requires l.pc.Idle?
    ensures OwnStep(w, l, ch).0 == w
  {
    hide Continue;
  }

  lemma {:induction false} RunStill(m: System, labels: seq<Label>)
    requires Inv(m) && InStep(m.w, m.l) && Knows(true, m.w, m.l)
    requires Fixed(m.w, m.l.key) && Still(m.w, m.l) && Undisturbed(labels)
    ensures var m' := RunAll(m, labels);
            m'.l.key == m.l.key && OnlyAdminName(m.w, m'.w, m.l.key) && Fixed(m'.w, m.l.key) && Still(m'.w, m'.l)
  {
    hide Apply, Settled, Knows, Still, SelfReferring;
    if labels != [] {
      var front, a := labels[..|labels| - 1], labels[|labels| - 1];
      RunStill(m, front);
      RunKnows(true, m, front);
      KeyStays(RunAll(m, front), a);
      StepStill(RunAll(m, front), a);
    }
  }

  /** From a steady store on, no pass creates, updates or deletes a child: neither a second nor
      any later pass, whether its requests succeed or fail, whichever passwords are drawn. */
  lemma SteadyStaysStill(m: System, labels: seq<Label>)
    requires Inv(m) && m.l.pc.Idle? && Fixed(m.w, m.l.key) && Undisturbed(labels)
    ensures var m' := RunAll(m, labels);
            Fixed(m'.w, m.l.key) && forall id :: id != OdooId(m.l.key) ==> At(m'.w, id) == At(m.w, id)
  {
    hide Apply, Settled;
    RunStill(m, labels);
  }

  /** After a pass that finished, further passes change no child. */
  lemma SecondPassChangesNothing(m: System, pass: seq<Label>, later: seq<Label>)
    requires Inv(m) && m.l.pc.Fetch? && Undisturbed(pass) && Undisturbed(later)
    requires var done := RunAll(m, pass);
             done.l.pc == Idle(false, 0) && HasResource(done.w, m.l.key) &&
             !SelfReferring(m.l.key, StoredSpec(done.w, m.l.key))
    ensures var done := RunAll(m, pass);
            forall id :: id != OdooId(m.l.key) ==> At(RunAll(done, later).w, id) == At(done.w, id)
  {
    hide Apply, Settled, SelfReferring;
    RunKnows(true, m, pass);
    NoLostWakeUp(m, pass);
    SteadyStaysStill(RunAll(m, pass), later);
  }

  // ---- The exit for a missing password ----

  /** The pass holds a password from the moment it has dealt with the admin secret. */
  predicate HoldsAdmin(l: Local) {
    match l.pc
    case AdminPut(_, data) => PASSWORD in data
    case AdminStatus => PASSWORD in l.admin
    case ConfigGet => PASSWORD in l.admin
    case ConfigNoPassword(_) => false
    case DbRead(_, _, _) => PASSWORD in l.admin
    case _ => true
  }

  lemma EarlyHolds(l: Local, r: Response)
    requires HoldsAdmin(l) && (l.pc.AdminGenerate? || l.pc.AdminPut? || l.pc.AdminStatus? || l.pc.ConfigGet?)
    ensures HoldsAdmin(Continue(l, r))
  {
    hide AfterField, AfterServiceGet, AfterDeployGet, AfterJobGet, AfterFetch;
  }

  lemma LaterHolds(l: Local, r: Response)
    requires !l.pc.AdminGenerate? && !l.pc.AdminPut? && !l.pc.AdminStatus? && !l.pc.ConfigGet? && !l.pc.DbRead?
    requires HoldsAdmin(l)
    ensures HoldsAdmin(Continue(l, r))
  {
    hide AfterField;
  }

  lemma FieldHolds(l: Local, i: nat, field: Result<ConnectionDetails, DbError>, found: Option<Stored>)
    requires PASSWORD in l.admin
    ensures HoldsAdmin(AfterField(l, i, field, found))
  {
    hide ConfigData;
  }

  lemma DbReadHolds(l: Local, r: Response)
    requires HoldsAdmin(l) && l.pc.DbRead?
    ensures HoldsAdmin(Continue(l, r))
  {
    hide AfterField, ReadField;
    FieldHolds(l, l.pc.i, ReadField(l, l.pc.i, l.pc.details, r), l.pc.found);
  }

  lemma StepHolds(m: System, a: Label)
    requires HoldsAdmin(m.l)
    ensures HoldsAdmin(Apply(m, a).l)
  {
    hide Continue, CallOf;
    match a
    case Own(ch) =>
      var r := Serve(m.w, CallOf(m.l), ch).1;
      if m.l.pc.DbRead? {
        DbReadHolds(m.l, r);
      } else if m.l.pc.AdminGenerate? || m.l.pc.AdminPut? || m.l.pc.AdminStatus? || m.l.pc.ConfigGet? {
        EarlyHolds(m.l, r);
      } else {
        LaterHolds(m.l, r);
      }
    case _ =>
  }

  /** In every run, whatever others do, the configuration step has a password to work with. */
  lemma {:induction false} MissingPasswordUnreachable(m: System, labels: seq<Label>)
    requires m.l.pc.Idle?
    ensures HoldsAdmin(RunAll(m, labels).l) && !RunAll(m, labels).l.pc.ConfigNoPassword?
  {
    hide Apply;
    if labels != [] {
      var front, a := labels[..|labels| - 1], labels[|labels| - 1];
      MissingPasswordUnreachable(m, front);
      StepHolds(RunAll(m, front), a);
    }
  }
}
