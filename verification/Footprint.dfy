// Everything a pass changes, in any run: which objects, and field by field what it writes.
module Footprint {
  import opened Types
  import opened Text
  import opened Templates
  import opened Api
  import opened Machine
  import opened Safety
  import opened History
  import opened Children
  import opened HonestPass
  import opened Sources

  // ---- What the pass carries to its writes ----

  /** Points behind the admin secret, the configuration and the claim. */
  predicate BehindAdmin(pc: Pc) {
    !pc.Idle? && !pc.Fail? && Phase(pc) <= 20
  }

  predicate BehindConfig(pc: Pc) {
    BehindAdmin(pc) && Phase(pc) <= 15
  }

  predicate BehindClaim(pc: Pc) {
    BehindAdmin(pc) && Phase(pc) <= 12
  }

  predicate NamesKnown(l: Local) {
    (BehindAdmin(l.pc) ==> l.mem.status.adminSecretName == AdminName(l.key, l.mem.spec)) &&
    (BehindConfig(l.pc) ==> l.mem.status.configSecretName == l.key.name + "-config") &&
    (BehindClaim(l.pc) ==> l.mem.status.dataPvcName == l.key.name)
  }

  predicate DataKnown(l: Local) {
    (l.pc.AdminPut? ==> l.pc.data.Keys == {"password"}) &&
    (l.pc.ConfigPut? ==> l.pc.data.Keys == {"odoo.conf"})
  }

  predicate Carries(l: Local) {
    NamesKnown(l) && DataKnown(l)
  }

  lemma AdminCarries(l: Local, r: Response)
    requires Carries(l) && (l.pc.AdminGet? || l.pc.AdminGenerate? || l.pc.AdminPut? || l.pc.Fetch?)
    ensures Carries(Continue(l, r))
  {
    hide AfterField, AfterConfigGet, AfterServiceGet, AfterJobGet, AfterDeployGet;
  }

  lemma ConfigCarries(l: Local, r: Response)
    requires Carries(l) && (l.pc.ConfigGet? || l.pc.ConfigPut? || l.pc.ClaimGet? || l.pc.ClaimCreate?)
    ensures Carries(Continue(l, r))
  {
    hide AfterField, AfterAdminGenerate, AfterServiceGet, AfterJobGet, AfterDeployGet, AfterFetch;
  }

  lemma StoreCarries(l: Local, data: SecretData, found: Option<Stored>)
    requires Carries(l) && l.pc.DbRead? && data.Keys == {"odoo.conf"}
    ensures Carries(StoreConfig(l, data, found))
  {
  }

  lemma OneFile(adminPassword: string, c: OdooConfig, d: ConnectionDetails)
    ensures ConfigData(adminPassword, c, d).Keys == {"odoo.conf"}
  {
    hide ConfOf;
  }

  lemma FieldCarries(l: Local, i: nat, field: Result<ConnectionDetails, DbError>, found: Option<Stored>)
    requires Carries(l) && l.pc.DbRead?
    ensures Carries(AfterField(l, i, field, found))
  {
    hide ConfigData, StoreConfig;
    if field.Ok? && PASSWORD in l.admin {
      OneFile(l.admin[PASSWORD], l.mem.spec.config, field.value);
      StoreCarries(l, ConfigData(l.admin[PASSWORD], l.mem.spec.config, field.value), found);
    }
  }

  lemma DbReadCarries(l: Local, r: Response)
    requires Carries(l) && l.pc.DbRead?
    ensures Carries(Continue(l, r))
  {
    hide AfterField, ReadField;
    FieldCarries(l, l.pc.i, ReadField(l, l.pc.i, l.pc.details, r), l.pc.found);
  }

  lemma JobCarries(l: Local, r: Response)
    requires Carries(l) && (l.pc.JobGet? || l.pc.JobCreate? || l.pc.PodsList? || l.pc.Cleanup?)
    ensures Carries(Continue(l, r))
  {
    hide AfterField, AfterAdminGenerate, AfterServiceGet, AfterDeployGet, AfterFetch, AfterConfigGet;
  }

  lemma WorkloadCarries(l: Local, r: Response)
    requires Carries(l) && (l.pc.DeployGet? || l.pc.DeployPut? || l.pc.ServiceGet? || l.pc.ServicePut?)
    ensures Carries(Continue(l, r))
  {
    hide AfterField, AfterAdminGenerate, AfterFetch, AfterConfigGet, AfterJobGet, DeploymentTemplate, ServiceTemplate;
  }

  lemma StatusCarries(l: Local, r: Response)
    requires Carries(l) && StatusStep(l.pc) && !l.pc.ClaimStatus?
    requires Refreshed(l, r).mem.status == l.mem.status && Refreshed(l, r).mem.spec.config == l.mem.spec.config
    ensures Carries(Continue(l, r))
  {
    hide AfterField, AfterAdminGenerate, AfterFetch, AfterConfigGet, AfterJobGet, AfterDeployGet, AfterServiceGet;
  }

  lemma EntryCarries(l: Local, r: Response)
    requires Carries(l) && l.pc.ClaimStatus?
    requires Refreshed(l, r).mem.status == l.mem.status && Refreshed(l, r).mem.spec.config == l.mem.spec.config
    ensures Carries(Continue(l, r))
  {
    hide AfterField, AfterAdminGenerate, AfterFetch, AfterConfigGet, AfterJobGet, AfterDeployGet, AfterServiceGet;
    hide LocalMissing;
  }

  /** A status write that is accepted brings back the configuration the pass already knew. */
  lemma ConfigStays(m: System, ch: Choice)
    requires InStep(m.w, m.l) && Active(m.l.pc) && CallOf(m.l) == StatusCall(m.l)
    ensures var l' := Refreshed(m.l, Serve(m.w, CallOf(m.l), ch).1);
            l'.mem.status == m.l.mem.status && l'.mem.spec.config == m.l.mem.spec.config
  {
    hide CallOf;
  }

  lemma OwnCarries(m: System, ch: Choice)
    requires InStep(m.w, m.l) && Carries(m.l)
    ensures Carries(Apply(m, Own(ch)).l)
  {
    hide Continue, CallOf, InStep, Carries, Serve, Refreshed;
    var r := Serve(m.w, CallOf(m.l), ch).1;
    PassPoints(m.l.pc);
    if StatusStep(m.l.pc) {
      StatusStepLocal(m.l, r);
      ConfigStays(m, ch);
      if m.l.pc.ClaimStatus? {
        EntryCarries(m.l, r);
      } else {
        StatusCarries(m.l, r);
      }
    } else {
      match m.l.pc
      case Idle(_, _) => IdleStays(m.l, r);
      case Fetch => AdminCarries(m.l, r);
      case AdminGet => AdminCarries(m.l, r);
      case AdminGenerate(_) => AdminCarries(m.l, r);
      case AdminPut(_, _) => AdminCarries(m.l, r);
      case ConfigGet => ConfigCarries(m.l, r);
      case ConfigPut(_, _) => ConfigCarries(m.l, r);
      case ClaimGet => ConfigCarries(m.l, r);
      case ClaimCreate => ConfigCarries(m.l, r);
      case DbRead(_, _, _) => DbReadCarries(m.l, r);
      case DeployGet => WorkloadCarries(m.l, r);
      case DeployPut(_) => WorkloadCarries(m.l, r);
      case ServiceGet(_) => WorkloadCarries(m.l, r);
      case ServicePut(_, _, _) => WorkloadCarries(m.l, r);
      case _ => JobCarries(m.l, r);
    }
  }

  // ---- Services ----

  /** What the pass is about to write over a service has the allocated fields it found there. */
  ghost predicate ServiceSeen(w: World, l: Local) {
    l.pc.ServicePut? && l.pc.write.Over? ==>
      var slot := At(w, ServiceId(l.key, l.pc.service));
      l.pc.write.version <= slot.version &&
      (l.pc.write.version == slot.version ==>
        slot.body.Some? && slot.body.value.ServiceBody? && slot.body.value.service.alloc == l.pc.alloc)
  }

  lemma LookupSees(w: World, l: Local, ch: Choice)
    requires l.pc.ServiceGet?
    ensures var (w', l') := OwnStep(w, l, ch); ServiceSeen(w', l')
  {
    hide AfterField, AfterAdminGenerate, AfterFetch, AfterConfigGet, AfterJobGet, AfterDeployGet, ServiceTemplate;
  }

  lemma FieldSeesNothing(l: Local, i: nat, field: Result<ConnectionDetails, DbError>, found: Option<Stored>)
    ensures !AfterField(l, i, field, found).pc.ServicePut?
  {
    hide ConfigData;
  }

  lemma ElsewhereSeesNothing(l: Local, r: Response)
    requires !l.pc.ServiceGet? && !l.pc.Idle?
    ensures !Continue(l, r).pc.ServicePut?
  {
    hide AfterField, ReadField;
    if l.pc.DbRead? {
      FieldSeesNothing(l, l.pc.i, ReadField(l, l.pc.i, l.pc.details, r), l.pc.found);
    }
  }

  lemma StepSeesService(m: System, a: Label)
    requires ServiceSeen(m.w, m.l)
    ensures ServiceSeen(Apply(m, a).w, Apply(m, a).l)
  {
    hide Continue, CallOf;
    match a
    case Start =>
    case Crash =>
    case Foreign(call, ch) =>
      if m.l.pc.ServicePut? {
        ServeVersions(m.w, call, ch, ServiceId(m.l.key, m.l.pc.service));
      }
    case JobProgress(id, s) =>
    case Own(ch) =>
      if m.l.pc.ServiceGet? {
        LookupSees(m.w, m.l, ch);
      } else if m.l.pc.Idle? {
        IdleStays(m.l, Serve(m.w, CallOf(m.l), ch).1);
      } else {
        ElsewhereSeesNothing(m.l, Serve(m.w, CallOf(m.l), ch).1);
      }
  }

  lemma {:induction false} ReachableServiceSeen(m: System, labels: seq<Label>)
    requires m.l.pc.Idle?
    ensures ServiceSeen(RunAll(m, labels).w, RunAll(m, labels).l)
  {
    hide Apply;
    if labels != [] {
      ReachableServiceSeen(m, labels[..|labels| - 1]);
      StepSeesService(RunAll(m, labels[..|labels| - 1]), labels[|labels| - 1]);
    }
  }

  /** The service stored under an id. */
  function ServiceAt(w: World, id: Id): Option<ServiceSpec> {
    match At(w, id).body
    case Some(ServiceBody(service)) => Some(service)
    case _ => None
  }

  lemma PutKeepsAllocation(w: World, l: Local, ch: Choice)
    requires ServiceSeen(w, l) && l.pc.ServicePut?
    ensures var id := ServiceId(l.key, l.pc.service); var w' := OwnStep(w, l, ch).0;
            ServiceAt(w, id).Some? && ServiceAt(w', id).Some? ==>
              ServiceAt(w', id).value.alloc == ServiceAt(w, id).value.alloc
  {
    hide Continue;
  }

  lemma ServiceTargets(l: Local)
    requires Target(CallOf(l)).Some? && Target(CallOf(l)).value.kind.ServiceKind?
    ensures l.pc.Cleanup? || (l.pc.ServicePut? && Target(CallOf(l)) == Some(ServiceId(l.key, l.pc.service)))
  {
    hide AfterField;
  }

  lemma DeletionLeavesNone(w: World, call: Call, ch: Choice)
    requires call.Delete?
    ensures At(Serve(w, call, ch).0, call.id) == At(w, call.id) || !Exists(Serve(w, call, ch).0, call.id)
  {
  }

  /** In every run, a step of the pass over a service that exists keeps the cluster address, the
      address lists and the family policy the server has given it. */
  lemma ServicesKeepAllocation(m: System, labels: seq<Label>, ch: Choice, id: Id)
    requires m.l.pc.Idle? && id.kind.ServiceKind?
    ensures var n := RunAll(m, labels); var w' := Apply(n, Own(ch)).w;
            ServiceAt(n.w, id).Some? && ServiceAt(w', id).Some? ==>
              var was, now := ServiceAt(n.w, id).value.alloc, ServiceAt(w', id).value.alloc;
              now.clusterIP == was.clusterIP && now.clusterIPs == was.clusterIPs &&
              now.ipFamilies == was.ipFamilies && now.ipFamilyPolicy == was.ipFamilyPolicy
  {
    hide Continue, CallOf, Serve, RunAll, ServiceSeen;
    ReachableServiceSeen(m, labels);
    var n := RunAll(m, labels);
    if Target(CallOf(n.l)) == Some(id) {
      ServiceTargets(n.l);
      if n.l.pc.Cleanup? {
        CleanupDeletes(n.l);
        DeletionLeavesNone(n.w, CallOf(n.l), ch);
      } else {
        PutKeepsAllocation(n.w, n.l, ch);
      }
    } else {
      ServeFrame(n.w, CallOf(n.l), ch, id);
    }
  }

  lemma CleanupDeletes(l: Local)
    requires l.pc.Cleanup?
    ensures CallOf(l).Delete?
  {
    hide AfterField;
  }

  // ---- Passwords ----

  /** The j-th label is the last step of the pass so far, and draws a password. */
  ghost predicate DrawnAt(m: System, labels: seq<Label>, j: int) {
    0 <= j < |labels| && labels[j].Own? && RunAll(m, labels[..j]).l.pc.AdminGenerate? &&
    labels[j].choice.fault.NoFault? && labels[j].choice.password != "" &&
    forall k :: j < k < |labels| ==> !labels[k].Own? && !labels[k].Crash?
  }

  lemma DrawStep(w: World, l: Local, ch: Choice)
    requires OwnStep(w, l, ch).1.pc.AdminPut? && !l.pc.Idle?
    ensures l.pc.AdminGenerate? && ch.fault.NoFault? && ch.password != "" &&
            OwnStep(w, l, ch).1.pc.data == map["password" := ch.password]
  {
    hide Continue, CallOf, Serve;
    var r := Serve(w, CallOf(l), ch).1;
    if l.pc.AdminGenerate? {
      GenerateStep(w, l, ch);
    } else if l.pc.DbRead? {
      DbReadForgets(l, r);
      assert false;
    } else if l.pc.AdminGet? {
      LookupPuts(l, r);
      assert false;
    } else {
      OtherStepsForget(l, r);
      assert false;
    }
  }

  lemma LookupPuts(l: Local, r: Response)
    requires l.pc.AdminGet?
    ensures !Continue(l, r).pc.AdminPut?
  {
    hide AfterField;
  }

  lemma GenerateStep(w: World, l: Local, ch: Choice)
    requires l.pc.AdminGenerate?
    ensures var l' := OwnStep(w, l, ch).1;
            l'.pc.AdminPut? ==>
              ch.fault.NoFault? && ch.password != "" && l'.pc.data == map["password" := ch.password]
  {
    hide AfterField, AfterServiceGet, AfterJobGet, AfterDeployGet, AfterConfigGet, AfterFetch;
  }

  /** A pass about to write a password has just drawn it. */
  lemma {:induction false} AboutToWriteDrawn(m: System, labels: seq<Label>)
    requires m.l.pc.Idle? && RunAll(m, labels).l.pc.AdminPut?
    ensures exists j :: DrawnAt(m, labels, j) &&
                        RunAll(m, labels).l.pc.data == map["password" := labels[j].choice.password]
  {
    hide Continue, CallOf, Serve;
    var front, a := labels[..|labels| - 1], labels[|labels| - 1];
    var n := RunAll(m, front);
    if a.Own? && !n.l.pc.Idle? {
      DrawStep(n.w, n.l, a.choice);
      assert DrawnAt(m, labels, |front|);
    } else {
      if a.Own? {
        IdleStays(n.l, Serve(n.w, CallOf(n.l), a.choice).1);
        assert false;
      }
      AboutToWriteDrawn(m, front);
      var j :| DrawnAt(m, front, j) && n.l.pc.data == map["password" := front[j].choice.password];
      assert front[..j] == labels[..j];
      assert DrawnAt(m, labels, j);
    }
  }

  lemma PasswordWrites(m: System, ch: Choice, id: Id)
    requires Carries(m.l) && !HoldsPassword(m.w, id) && HoldsPassword(OwnStep(m.w, m.l, ch).0, id)
    ensures m.l.pc.AdminPut? && id == AdminId(m.l)
    ensures At(OwnStep(m.w, m.l, ch).0, id).body == Some(SecretBody(m.l.pc.data))
  {
    hide Continue, AfterField, AdminKey;
    assert "password"[0] != "odoo.conf"[0];
  }

  /** In every run, a step of the pass after which a secret holds a password it did not hold before
      stores exactly the text drawn in the step before, and nothing else. */
  lemma StoredPasswordIsDrawn(m: System, labels: seq<Label>, ch: Choice, id: Id)
    requires Inv(m) && m.l.pc.Idle? && ConsiderateRun(m.l.key, labels)
    ensures var n := RunAll(m, labels); var w' := Apply(n, Own(ch)).w;
            !HoldsPassword(n.w, id) && HoldsPassword(w', id) ==>
              id == Id(SecretKind, Key(m.l.key.namespace, AdminName(m.l.key, n.l.mem.spec))) &&
              exists j :: DrawnAt(m, labels, j) &&
                          At(w', id).body == Some(SecretBody(map["password" := labels[j].choice.password]))
  {
    hide Continue, CallOf, Serve, RunAll, Carries, HoldsPassword, Inv;
    var n := RunAll(m, labels);
    ReachableCarries(m, labels);
    if !HoldsPassword(n.w, id) && HoldsPassword(Apply(n, Own(ch)).w, id) {
      PasswordWrites(n, ch, id);
      AboutToWriteDrawn(m, labels);
    }
  }

  lemma {:induction false} ReachableCarries(m: System, labels: seq<Label>)
    requires Inv(m) && m.l.pc.Idle? && ConsiderateRun(m.l.key, labels)
    ensures var n := RunAll(m, labels); Inv(n) && InStep(n.w, n.l) && Carries(n.l) && n.l.key == m.l.key
  {
    hide Apply, Inv, InStep, Carries;
    RunKeepsInv(m, labels);
    if labels == [] {
      IdleCarries(m);
    } else {
      var front, a := labels[..|labels| - 1], labels[|labels| - 1];
      ReachableCarries(m, front);
      StepInStep(RunAll(m, front), a);
      StepCarries(RunAll(m, front), a);
    }
  }

  lemma IdleCarries(m: System)
    requires m.l.pc.Idle?
    ensures InStep(m.w, m.l) && Carries(m.l)
  {
  }

  lemma StepCarries(m: System, a: Label)
    requires InStep(m.w, m.l) && Carries(m.l)
    ensures Carries(Apply(m, a).l)
  {
    hide Continue, CallOf, Serve, InStep;
    if a.Own? {
      OwnCarries(m, a.choice);
    }
  }

  // ---- All writes ----

  /** A pod that runs this resource: its image, its data directory, its claim and its configuration. */
  predicate RunsResource(pod: PodSpec, key: Key, spec: OdooSpec) {
    pod.image == spec.image && pod.pullPolicy == spec.imagePullPolicy && pod.pullSecrets == spec.imagePullSecrets &&
    pod.dataDir == spec.config.dataDir && pod.claimName == key.name && pod.configSecretName == key.name + "-config"
  }

  /** The web server: the user's command with the configuration file, restarted for ever. */
  predicate ServesResource(d: DeploymentSpec, key: Key, spec: OdooSpec) {
    d.replicas == spec.replicas && d.appLabel == key.name && RunsResource(d.pod, key, spec) &&
    d.pod.command == spec.odooCommand + ["-c", "/opt/odoo/odoo.conf"] && d.pod.ports == [8069, 8072] &&
    d.pod.restartPolicy == "Always"
  }

  /** The user's command is told to install these modules and to stop, and serves nothing. */
  predicate TellsToInstall(job: JobSpec, spec: OdooSpec, modules: seq<string>) {
    modules != [] && job.pod.ports == [] &&
    job.pod.command == spec.odooCommand + ["-c", "/opt/odoo/odoo.conf", "--stop-after-init", "--no-http", "--init",
                                           JoinOn(modules, ',')]
  }

  /** A Job that installs these modules for this resource: one pod at a time, two retries. */
  predicate InstallsModules(job: JobSpec, key: Key, spec: OdooSpec, modules: seq<string>) {
    TellsToInstall(job, spec, modules) && RunsResource(job.pod, key, spec) && job.pod.restartPolicy == "Never" &&
    job.parallelism == 1 && job.backoffLimit == 2
  }

  predicate ServesPort(service: ServiceSpec, name: string, key: Key) {
    service.appLabel == key.name &&
    ((name == key.name + "-http" && service.port == 8069) || (name == key.name + "-poll" && service.port == 8072))
  }

  /** What a step of the pass with this memory may make of an object. */
  predicate MayWrite(l: Local, id: Id, was: Option<Body>, now: Option<Body>) {
    var key, spec := l.key, l.mem.spec;
    match id.kind
    case OdooKind =>
      id.key == key && was.Some? && was.value.OdooBody? && now == Some(OdooBody(was.value.spec, l.mem.status))
    case SecretKind =>
      id.key.namespace == key.namespace && now.Some? && now.value.SecretBody? &&
      ((id.key.name == AdminName(key, spec) && now.value.data.Keys == {"password"} &&
        (was.Some? && was.value.SecretBody? ==> "password" !in was.value.data)) ||
       (id.key.name == key.name + "-config" && now.value.data.Keys == {"odoo.conf"}))
    case ClaimKind => id.key == key && was == None && now == Some(ClaimBody(spec.filestore))
    case JobKind =>
      id.key == Key(key.namespace, key.name + "-init") &&
      (now == None ||
       (was == None && now.value.JobBody? && now.value.jobStatus == JobStatus(0, 0, 0) &&
        InstallsModules(now.value.job, key, spec, Missing(spec, l.mem.status))))
    case DeploymentKind =>
      id.key == key && now.Some? && now.value.DeploymentBody? && ServesResource(now.value.deployment, key, spec)
    case ServiceKind =>
      id.key.namespace == key.namespace && now.Some? && now.value.ServiceBody? &&
      ServesPort(now.value.service, id.key.name, key)
    case PodKind => now == None
  }

  lemma StatusMayWrite(m: System, ch: Choice, id: Id)
    requires Inv(m) && CallOf(m.l) == StatusCall(m.l) && At(OwnStep(m.w, m.l, ch).0, id) != At(m.w, id)
    ensures MayWrite(m.l, id, At(m.w, id).body, At(OwnStep(m.w, m.l, ch).0, id).body)
  {
    hide Continue, CallOf, InstallsModules, ServesResource;
  }

  lemma SecretMayWrite(m: System, ch: Choice, id: Id)
    requires Inv(m) && Carries(m.l) && AdminKnown(m.w, m.l) && (m.l.pc.AdminPut? || m.l.pc.ConfigPut?)
    requires At(OwnStep(m.w, m.l, ch).0, id) != At(m.w, id)
    ensures MayWrite(m.l, id, At(m.w, id).body, At(OwnStep(m.w, m.l, ch).0, id).body)
  {
    hide Continue, InstallsModules, ServesResource, AfterField;
  }

  lemma ClaimMayWrite(m: System, ch: Choice, id: Id)
    requires Inv(m) && m.l.pc.ClaimCreate? && At(OwnStep(m.w, m.l, ch).0, id) != At(m.w, id)
    ensures MayWrite(m.l, id, At(m.w, id).body, At(OwnStep(m.w, m.l, ch).0, id).body)
  {
    hide Continue, InstallsModules, ServesResource, AfterField;
  }

  lemma CleanupMayWrite(m: System, ch: Choice, id: Id)
    requires Inv(m) && m.l.pc.Cleanup? && At(OwnStep(m.w, m.l, ch).0, id) != At(m.w, id)
    ensures MayWrite(m.l, id, At(m.w, id).body, At(OwnStep(m.w, m.l, ch).0, id).body)
  {
    hide Continue, InstallsModules, ServesResource, AfterField;
  }

  lemma JobMayWrite(m: System, ch: Choice, id: Id)
    requires Inv(m) && Carries(m.l) && m.l.pc.JobCreate? && At(OwnStep(m.w, m.l, ch).0, id) != At(m.w, id)
    ensures MayWrite(m.l, id, At(m.w, id).body, At(OwnStep(m.w, m.l, ch).0, id).body)
  {
    hide Continue, ServesResource, AfterField, InstallsModules, JobTemplate;
    JobInstalls(m.l);
  }

  lemma JobInstalls(l: Local)
    requires Carries(l) && l.pc.JobCreate? && LocalMissing(l) != []
    ensures InstallsModules(JobTemplate(l.mem.spec, l.mem.status, LocalMissing(l)), l.key, l.mem.spec, LocalMissing(l))
  {
    hide JoinOn, LocalMissing;
    var arg := JoinOn(LocalMissing(l), COMMA);
    assert l.mem.spec.odooCommand + INIT_FLAGS + [arg] ==
      l.mem.spec.odooCommand + ["-c", "/opt/odoo/odoo.conf", "--stop-after-init", "--no-http", "--init", arg];
  }

  lemma DeploymentMayWrite(m: System, ch: Choice, id: Id)
    requires Inv(m) && Carries(m.l) && m.l.pc.DeployPut? && At(OwnStep(m.w, m.l, ch).0, id) != At(m.w, id)
    ensures MayWrite(m.l, id, At(m.w, id).body, At(OwnStep(m.w, m.l, ch).0, id).body)
  {
    hide Continue, InstallsModules, AfterField, ServesResource, DeploymentTemplate;
    DeploymentServes(m.l);
  }

  lemma DeploymentServes(l: Local)
    requires Carries(l) && l.pc.DeployPut?
    ensures ServesResource(DeploymentTemplate(l.key, l.mem.spec, l.mem.status), l.key, l.mem.spec)
  {
  }

  lemma ServiceMayWrite(m: System, ch: Choice, id: Id)
    requires Inv(m) && m.l.pc.ServicePut? && At(OwnStep(m.w, m.l, ch).0, id) != At(m.w, id)
    ensures MayWrite(m.l, id, At(m.w, id).body, At(OwnStep(m.w, m.l, ch).0, id).body)
  {
    hide Continue, InstallsModules, ServesResource, AfterField;
  }

  lemma OnlyReads(l: Local)
    requires Target(CallOf(l)).Some?
    ensures l.pc.AdminPut? || l.pc.ConfigPut? || l.pc.ClaimCreate? || l.pc.Cleanup? || l.pc.JobCreate? ||
            l.pc.DeployPut? || l.pc.ServicePut? || CallOf(l) == StatusCall(l)
  {
    hide AfterField;
  }

  /** In every run, a step of the pass changes nothing but the objects of its resource, and the pods
      of its init Job, and each only as its specification and status say. */
  lemma PassWritesOnly(m: System, labels: seq<Label>, ch: Choice, id: Id)
    requires Inv(m) && m.l.pc.Idle? && ConsiderateRun(m.l.key, labels)
    ensures var n := RunAll(m, labels); var w' := Apply(n, Own(ch)).w;
            At(w', id) != At(n.w, id) ==> MayWrite(n.l, id, At(n.w, id).body, At(w', id).body)
  {
    hide Continue, CallOf, Serve, RunAll, Carries, Inv, MayWrite, AdminKnown;
    ReachableCarries(m, labels);
    ReachableAdminKnown(m, labels);
    var n := RunAll(m, labels);
    if At(Apply(n, Own(ch)).w, id) != At(n.w, id) {
      if Target(CallOf(n.l)) != Some(id) {
        ServeFrame(n.w, CallOf(n.l), ch, id);
      }
      OnlyReads(n.l);
      if CallOf(n.l) == StatusCall(n.l) {
        StatusMayWrite(n, ch, id);
      } else {
        match n.l.pc
        case AdminPut(_, _) => SecretMayWrite(n, ch, id);
        case ConfigPut(_, _) => SecretMayWrite(n, ch, id);
        case ClaimCreate => ClaimMayWrite(n, ch, id);
        case Cleanup(_, _) => CleanupMayWrite(n, ch, id);
        case JobCreate => JobMayWrite(n, ch, id);
        case DeployPut(_) => DeploymentMayWrite(n, ch, id);
        case ServicePut(_, _, _) => ServiceMayWrite(n, ch, id);
        case _ =>
      }
    }
  }

  /** The names a pass has found its children under are in every status it writes from then on. */
  lemma StatusNamesChildren(m: System, labels: seq<Label>, ch: Choice)
    requires Inv(m) && m.l.pc.Idle? && ConsiderateRun(m.l.key, labels)
    ensures var n := RunAll(m, labels); var w' := Apply(n, Own(ch)).w; var key := m.l.key;
            At(w', OdooId(key)) != At(n.w, OdooId(key)) && HasResource(w', key) ==>
              var status := StoredStatus(w', key);
              (BehindAdmin(n.l.pc) ==> status.adminSecretName == AdminName(key, StoredSpec(w', key))) &&
              (BehindConfig(n.l.pc) ==> status.configSecretName == key.name + "-config") &&
              (BehindClaim(n.l.pc) ==> status.dataPvcName == key.name)
  {
    hide Continue, CallOf, Serve, RunAll, Carries, Inv, InStep;
    ReachableCarries(m, labels);
    var n := RunAll(m, labels);
    if At(Apply(n, Own(ch)).w, OdooId(m.l.key)) != At(n.w, OdooId(m.l.key)) {
      if Target(CallOf(n.l)) != Some(OdooId(m.l.key)) {
        ServeFrame(n.w, CallOf(n.l), ch, OdooId(m.l.key));
      }
      OwnTargets(n.l);
      NamesStored(n, ch);
    }
  }

  lemma NamesStored(m: System, ch: Choice)
    requires Inv(m) && InStep(m.w, m.l) && Carries(m.l)
    requires At(OwnStep(m.w, m.l, ch).0, OdooId(m.l.key)) != At(m.w, OdooId(m.l.key))
    requires CallOf(m.l) == StatusCall(m.l) || m.l.pc.Cleanup?
    ensures var w' := OwnStep(m.w, m.l, ch).0; var key := m.l.key;
            HasResource(w', key) ==>
              var status := StoredStatus(w', key);
              (BehindAdmin(m.l.pc) ==> status.adminSecretName == AdminName(key, StoredSpec(w', key))) &&
              (BehindConfig(m.l.pc) ==> status.configSecretName == key.name + "-config") &&
              (BehindClaim(m.l.pc) ==> status.dataPvcName == key.name)
  {
    hide Continue, AfterField, Phase;
  }
}
