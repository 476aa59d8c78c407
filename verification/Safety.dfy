// What every run of the operator keeps, under lost requests, lost answers, crashes, rejected
// status writes and edits by others: installed modules were executed, and the Deployment is
// gated.
module Safety {
  import opened Types
  import opened Text
  import opened ModuleLists
  import opened Templates
  import opened Api
  import opened Machine

  // ---- The installation invariant ----

  ghost predicate LiveJob(w: World, key: Key) {
    Exists(w, JobId(key)) && At(w, JobId(key)).body.value.JobBody?
  }

  ghost function LiveSpec(w: World, key: Key): JobSpec
    requires LiveJob(w, key)
  {
    At(w, JobId(key)).body.value.job
  }

  ghost function LiveStatus(w: World, key: Key): JobStatus
    requires LiveJob(w, key)
  {
    At(w, JobId(key)).body.value.jobStatus
  }

  /** The live Job installs exactly these modules. */
  ghost predicate Covers(w: World, key: Key, modules: seq<string>) {
    modules != [] && LiveJob(w, key) && InitArg(LiveSpec(w, key)) == Some(JoinOn(modules, COMMA))
  }

  /** Installed modules were executed; a record names the one init Job of the resource, and
      lists either exactly its modules or only executed ones. */
  ghost predicate Justified(w: World, key: Key, executed: set<string>, status: OdooStatus) {
    Pieces(status.initModulesInstalled) <= executed &&
    (Named(status.currentInitJob) ==>
      RecordedId(status) == JobId(key) &&
      (Covers(w, key, status.currentInitJob.modules) || Pieces(status.currentInitJob.modules) <= executed))
  }

  ghost predicate SucceededMeansExecuted(w: World, key: Key, executed: set<string>) {
    LiveJob(w, key) && LiveStatus(w, key).succeeded > 0 ==> Ran(LiveSpec(w, key)) <= executed
  }

  predicate Active(pc: Pc) {
    !pc.Idle? && !pc.Fetch?
  }

  predicate HasResource(w: World, key: Key) {
    Exists(w, OdooId(key)) && At(w, OdooId(key)).body.value.OdooBody?
  }

  function StoredSpec(w: World, key: Key): OdooSpec
    requires HasResource(w, key)
  {
    At(w, OdooId(key)).body.value.spec
  }

  function StoredStatus(w: World, key: Key): OdooStatus
    requires HasResource(w, key)
  {
    At(w, OdooId(key)).body.value.status
  }

  /** What holds at particular points of the pass. */
  ghost predicate PcFacts(m: System) {
    match m.l.pc
    case JobGet => Named(m.l.mem.status.currentInitJob)
    case PodsList(job) => CleaningUp(m, job)
    case Cleanup(job, pods) => CleaningUp(m, job) && forall p :: p in pods ==> p.kind.PodKind?
    case JobCreate => LocalMissing(m.l) != []
    case DeployGet => GateOpen(m)
    case DeployPut(_) => GateOpen(m)
    case _ => true
  }

  ghost predicate CleaningUp(m: System, job: Key) {
    Id(JobKind, job) == JobId(m.l.key) && !Named(m.l.mem.status.currentInitJob) &&
    (LiveJob(m.w, m.l.key) ==> LiveStatus(m.w, m.l.key).succeeded > 0)
  }

  /** Every module of the specification the pass acts on has been executed. */
  ghost predicate GateOpen(m: System) {
    Pieces(m.l.mem.spec.modules) <= m.executed
  }

  ghost predicate Inv(m: System) {
    WellTyped(m.w) &&
    SucceededMeansExecuted(m.w, m.l.key, m.executed) &&
    (HasResource(m.w, m.l.key) ==> Justified(m.w, m.l.key, m.executed, StoredStatus(m.w, m.l.key))) &&
    (Active(m.l.pc) ==> Justified(m.w, m.l.key, m.executed, m.l.mem.status)) &&
    PcFacts(m)
  }

  /** Requests by others that respect the operator's objects: they leave the init Job alone
      and do not write the status. They may edit or delete the resource and anything else. */
  predicate Considerate(key: Key, call: Call) {
    Target(call) != Some(JobId(key)) && !(call.UpdateStatus? && call.id == OdooId(key))
  }

  ghost predicate ConsiderateLabel(key: Key, a: Label) {
    a.Foreign? ==> Considerate(key, a.call)
  }

  /** When the live Job succeeded, every justified record lists executed modules only. */
  lemma SuccessSettles(w: World, key: Key, executed: set<string>, status: OdooStatus)
    requires Justified(w, key, executed, status) && SucceededMeansExecuted(w, key, executed)
    requires LiveJob(w, key) ==> LiveStatus(w, key).succeeded > 0
    ensures Named(status.currentInitJob) ==> Pieces(status.currentInitJob.modules) <= executed
  {
    var modules := status.currentInitJob.modules;
    if Covers(w, key, modules) {
      SplitOfJoin(modules, COMMA);
    }
  }

  /** A justified status stays justified when its record is turned into installed modules. */
  lemma RecordingJustified(w: World, key: Key, executed: set<string>, status: OdooStatus)
    requires Justified(w, key, executed, status) && Named(status.currentInitJob)
    requires Pieces(status.currentInitJob.modules) <= executed
    ensures Justified(w, key, executed, Recorded(status))
  {
    PiecesUnion(status.initModulesInstalled, status.currentInitJob.modules);
  }

  /** A status whose record lists executed modules only is justified whatever the Jobs are. */
  lemma ExecutedJustified(w: World, w': World, key: Key, executed: set<string>, status: OdooStatus)
    requires Justified(w, key, executed, status)
    requires Named(status.currentInitJob) ==> Pieces(status.currentInitJob.modules) <= executed
    ensures Justified(w', key, executed, status)
  {
  }

  lemma EmptyJustified(w: World, key: Key, executed: set<string>)
    ensures Justified(w, key, executed, EMPTY_STATUS)
  {
  }

  // ---- One step of the pass ----

  /** What a request of the pass does to the resource and to its init Job. */
  lemma OwnTargets(l: Local)
    ensures Target(CallOf(l)) == Some(OdooId(l.key)) ==> CallOf(l) == StatusCall(l) || l.pc.Cleanup?
    ensures Target(CallOf(l)) == Some(JobId(l.key)) ==> l.pc.JobCreate? || l.pc.Cleanup?
  {
  }

  lemma OwnStored(m: System, ch: Choice)
    requires Inv(m) && m.l.pc != Fetch
    ensures var w' := OwnStep(m.w, m.l, ch).0; var key := m.l.key;
            HasResource(w', key) ==>
              HasResource(m.w, key) &&
              (StoredStatus(w', key) == StoredStatus(m.w, key) ||
               (Active(m.l.pc) && StoredStatus(w', key) == m.l.mem.status))
  {
    OwnTargets(m.l);
    if Target(CallOf(m.l)) != Some(OdooId(m.l.key)) {
      ServeFrame(m.w, CallOf(m.l), ch, OdooId(m.l.key));
    }
  }

  /** Only the creation of the init Job and its deletion touch its slot. */
  lemma OwnJobSlot(m: System, ch: Choice)
    requires Inv(m)
    ensures var w' := OwnStep(m.w, m.l, ch).0; var id := JobId(m.l.key);
            At(w', id) == At(m.w, id) || m.l.pc.JobCreate? || (m.l.pc.Cleanup? && m.l.pc.pods == [])
  {
    OwnTargets(m.l);
    if Target(CallOf(m.l)) != Some(JobId(m.l.key)) {
      ServeFrame(m.w, CallOf(m.l), ch, JobId(m.l.key));
    }
  }

  lemma OwnCreates(m: System, ch: Choice)
    requires Inv(m) && m.l.pc.JobCreate?
    ensures var w' := OwnStep(m.w, m.l, ch).0; var id := JobId(m.l.key); var missing := LocalMissing(m.l);
            At(w', id) == At(m.w, id) ||
            (!Exists(m.w, id) && Exists(w', id) &&
             At(w', id).body.value == JobBody(JobTemplate(m.l.mem.spec, m.l.mem.status, missing), PENDING))
  {
  }

  lemma OwnDeletes(m: System, ch: Choice)
    requires Inv(m) && m.l.pc.Cleanup? && m.l.pc.pods == []
    ensures var w' := OwnStep(m.w, m.l, ch).0; var id := JobId(m.l.key);
            At(w', id) == At(m.w, id) || !Exists(w', id)
  {
  }

  /** Every status justified before an own step is justified after it. */
  lemma OwnKeepsJustified(m: System, ch: Choice, status: OdooStatus)
    requires Inv(m) && Justified(m.w, m.l.key, m.executed, status)
    ensures Justified(OwnStep(m.w, m.l, ch).0, m.l.key, m.executed, status)
  {
    var w' := OwnStep(m.w, m.l, ch).0;
    OwnJobSlot(m, ch);
    if At(w', JobId(m.l.key)) != At(m.w, JobId(m.l.key)) {
      if m.l.pc.JobCreate? {
        OwnCreates(m, ch);
      } else {
        SuccessSettles(m.w, m.l.key, m.executed, status);
      }
      ExecutedJustified(m.w, w', m.l.key, m.executed, status);
    }
  }

  lemma OwnKeepsSuccess(m: System, ch: Choice)
    requires Inv(m)
    ensures SucceededMeansExecuted(OwnStep(m.w, m.l, ch).0, m.l.key, m.executed)
  {
    OwnJobSlot(m, ch);
    if m.l.pc.JobCreate? {
      OwnCreates(m, ch);
    } else if m.l.pc.Cleanup? && m.l.pc.pods == [] {
      OwnDeletes(m, ch);
    }
  }

  // The memory after a step.

  /** What a status write leaves in memory: its own status. */
  lemma RefreshKeepsStatus(l: Local, w: World, ch: Choice)
    requires CallOf(l) == StatusCall(l)
    ensures var r := Serve(w, CallOf(l), ch).1; Refreshed(l, r).mem.status == l.mem.status
  {
  }

  ghost predicate JustifiedMemory(w: World, l: Local, executed: set<string>) {
    Active(l.pc) ==> Justified(w, l.key, executed, l.mem.status)
  }

  /** Names other than the record do not matter to justification. */
  lemma NamesDoNotMatter(w: World, key: Key, executed: set<string>, s: OdooStatus, t: OdooStatus)
    requires Justified(w, key, executed, s)
    requires t.initModulesInstalled == s.initModulesInstalled && t.currentInitJob == s.currentInitJob
    ensures Justified(w, key, executed, t)
  {
  }

  lemma FetchJustified(m: System, ch: Choice)
    requires Inv(m) && m.l.pc.Fetch?
    ensures var (w', l') := OwnStep(m.w, m.l, ch); JustifiedMemory(w', l', m.executed)
  {
  }

  predicate SameRecord(s: OdooStatus, t: OdooStatus) {
    t.initModulesInstalled == s.initModulesInstalled && t.currentInitJob == s.currentInitJob
  }

  /** Points of the pass after which nothing particular is remembered about Jobs. */
  predicate Plain(pc: Pc) {
    !pc.JobGet? && !pc.PodsList? && !pc.Cleanup? && !pc.JobCreate? && !pc.DeployGet? && !pc.DeployPut?
  }

  /** Steps that only deal with secrets, claims, Deployments, services and pods. */
  predicate ChildStep(pc: Pc) {
    pc.AdminGet? || pc.AdminGenerate? || pc.AdminPut? || pc.ConfigGet? || pc.DbRead? || pc.ConfigPut? ||
    pc.ClaimGet? || pc.ClaimCreate? || pc.PodsList? || pc.Cleanup? || pc.DeployGet? || pc.DeployPut? ||
    pc.ServiceGet? || pc.ServicePut?
  }

  /** Such a step leaves key, specification and record in memory as they are. */
  predicate KeepsMemory(l: Local, l': Local) {
    l'.key == l.key && SameRecord(l.mem.status, l'.mem.status) && l'.mem.spec == l.mem.spec &&
    l'.mem.version == l.mem.version
  }

  lemma AdminStepLocal(l: Local, r: Response)
    requires l.pc.AdminGet? || l.pc.AdminGenerate? || l.pc.AdminPut?
    ensures KeepsMemory(l, Continue(l, r)) && Plain(Continue(l, r).pc)
  {
    hide AfterField, AfterServiceGet, AfterJobGet, AfterDeployGet, AfterConfigGet, AfterFetch;
  }

  lemma ConfigStepLocal(l: Local, r: Response)
    requires l.pc.ConfigGet? || l.pc.ConfigPut?
    ensures KeepsMemory(l, Continue(l, r)) && Plain(Continue(l, r).pc)
  {
    hide AfterField, AfterServiceGet, AfterJobGet, AfterDeployGet, AfterFetch;
  }

  lemma StoreConfigLocal(l: Local, data: SecretData, found: Option<Stored>)
    ensures KeepsMemory(l, StoreConfig(l, data, found)) && Plain(StoreConfig(l, data, found).pc)
  {
  }

  lemma FieldLocal(l: Local, i: nat, field: Result<ConnectionDetails, DbError>, found: Option<Stored>)
    ensures KeepsMemory(l, AfterField(l, i, field, found)) && Plain(AfterField(l, i, field, found).pc)
  {
    hide ConfigData;
    if field.Ok? && PASSWORD in l.admin {
      StoreConfigLocal(l, ConfigData(l.admin[PASSWORD], l.mem.spec.config, field.value), found);
    }
  }

  lemma DbReadLocal(l: Local, r: Response)
    requires l.pc.DbRead?
    ensures KeepsMemory(l, Continue(l, r)) && Plain(Continue(l, r).pc)
  {
    hide AfterField, ReadField;
    FieldLocal(l, l.pc.i, ReadField(l, l.pc.i, l.pc.details, r), l.pc.found);
  }

  lemma ClaimOrPodStepLocal(l: Local, r: Response)
    requires l.pc.ClaimGet? || l.pc.ClaimCreate? || l.pc.PodsList? || l.pc.Cleanup?
    ensures KeepsMemory(l, Continue(l, r)) && (Plain(Continue(l, r).pc) || l.pc.PodsList? || l.pc.Cleanup?)
  {
    hide AfterField, AfterServiceGet, AfterJobGet, AfterDeployGet, AfterConfigGet, AfterFetch, AfterAdminGenerate;
  }

  lemma DeployStepLocal(l: Local, r: Response)
    requires l.pc.DeployGet? || l.pc.DeployPut?
    ensures KeepsMemory(l, Continue(l, r)) &&
            (Plain(Continue(l, r).pc) || (l.pc.DeployGet? && Continue(l, r).pc.DeployPut?))
  {
    hide AfterField, AfterServiceGet, AfterJobGet, AfterConfigGet, AfterFetch, AfterAdminGenerate;
  }

  lemma ServiceStepLocal(l: Local, r: Response)
    requires l.pc.ServiceGet? || l.pc.ServicePut?
    ensures KeepsMemory(l, Continue(l, r)) && Plain(Continue(l, r).pc)
  {
    hide AfterField, AfterJobGet, AfterDeployGet, AfterConfigGet, AfterFetch, AfterAdminGenerate;
  }

  lemma ChildStepLocal(l: Local, r: Response)
    requires ChildStep(l.pc)
    ensures KeepsMemory(l, Continue(l, r))
    ensures Plain(Continue(l, r).pc) || l.pc.PodsList? || l.pc.Cleanup? ||
            (l.pc.DeployGet? && Continue(l, r).pc.DeployPut?)
  {
    match l.pc
    case ConfigGet => ConfigStepLocal(l, r);
    case ConfigPut(_, _) => ConfigStepLocal(l, r);
    case DbRead(_, _, _) => DbReadLocal(l, r);
    case DeployGet => DeployStepLocal(l, r);
    case DeployPut(_) => DeployStepLocal(l, r);
    case ServiceGet(_) => ServiceStepLocal(l, r);
    case ServicePut(_, _, _) => ServiceStepLocal(l, r);
    case ClaimGet => ClaimOrPodStepLocal(l, r);
    case ClaimCreate => ClaimOrPodStepLocal(l, r);
    case PodsList(_) => ClaimOrPodStepLocal(l, r);
    case Cleanup(_, _) => ClaimOrPodStepLocal(l, r);
    case _ => AdminStepLocal(l, r);
  }

  lemma ChildrenJustified(m: System, ch: Choice)
    requires Inv(m) && ChildStep(m.l.pc)
    ensures var (w', l') := OwnStep(m.w, m.l, ch); JustifiedMemory(w', l', m.executed)
  {
    OwnKeepsJustified(m, ch, m.l.mem.status);
    ChildStepLocal(m.l, Serve(m.w, CallOf(m.l), ch).1);
  }

  lemma StatusWritesJustified(m: System, ch: Choice)
    requires Inv(m) && m.l.pc != JobGet && CallOf(m.l) == StatusCall(m.l)
    ensures var (w', l') := OwnStep(m.w, m.l, ch); JustifiedMemory(w', l', m.executed)
  {
    hide AfterField;
    OwnKeepsJustified(m, ch, m.l.mem.status);
    RefreshKeepsStatus(m.l, m.w, ch);
    var (w', l') := OwnStep(m.w, m.l, ch);
    NamesDoNotMatter(w', m.l.key, m.executed, m.l.mem.status, l'.mem.status);
  }

  /** What the lookup of the recorded Job can answer. */
  lemma JobGetAnswer(m: System, ch: Choice)
    requires Inv(m) && m.l.pc.JobGet?
    ensures var (w', r) := Serve(m.w, CallOf(m.l), ch);
            w' == m.w && (r.Found? ==> At(m.w, JobId(m.l.key)).body == Some(r.body))
  {
  }

  lemma DecideGate(l: Local, w: World, executed: set<string>)
    requires Pieces(l.mem.status.initModulesInstalled) <= executed
    ensures PcFacts(System(w, Decide(l), executed))
    ensures Decide(l).mem == l.mem && Decide(l).key == l.key && (Decide(l).pc.DeployGet? || Decide(l).pc.JobCreate?)
  {
    DifferenceEmpty(l.mem.spec.modules, l.mem.status.initModulesInstalled);
    if LocalMissing(l) == [] {
      PiecesMonotone(l.mem.spec.modules, l.mem.status.initModulesInstalled);
    }
  }

  lemma JobGetJustified(m: System, ch: Choice)
    requires Inv(m) && m.l.pc.JobGet?
    ensures var (w', l') := OwnStep(m.w, m.l, ch);
            JustifiedMemory(w', l', m.executed) && PcFacts(System(w', l', m.executed))
  {
    JobGetAnswer(m, ch);
    JobGetLocal(m, Serve(m.w, CallOf(m.l), ch).1);
  }

  lemma JobGetLocal(m: System, r: Response)
    requires Inv(m) && m.l.pc.JobGet?
    requires r.Found? ==> At(m.w, JobId(m.l.key)).body == Some(r.body)
    ensures JustifiedMemory(m.w, AfterJobGet(m.l, r), m.executed)
    ensures PcFacts(System(m.w, AfterJobGet(m.l, r), m.executed))
  {
    DecideGate(m.l, m.w, m.executed);
    if r.Found? && r.body.JobBody? && r.body.jobStatus.succeeded > 0 {
      SuccessSettles(m.w, m.l.key, m.executed, m.l.mem.status);
      RecordingJustified(m.w, m.l.key, m.executed, m.l.mem.status);
    }
  }

  lemma JobCreateJustified(m: System, ch: Choice)
    requires Inv(m) && m.l.pc.JobCreate?
    ensures var (w', l') := OwnStep(m.w, m.l, ch); JustifiedMemory(w', l', m.executed)
  {
    OwnKeepsJustified(m, ch, m.l.mem.status);
    var missing := LocalMissing(m.l);
    JobRunsItsModules(m.l.mem.spec, m.l.mem.status, missing);
    var (w', l') := OwnStep(m.w, m.l, ch);
    if l'.pc.JobStatusFirst? {
      assert Covers(w', m.l.key, missing);
    }
  }

  lemma OwnMemoryJustified(m: System, ch: Choice)
    requires Inv(m) && !m.l.pc.Idle?
    ensures var (w', l') := OwnStep(m.w, m.l, ch); JustifiedMemory(w', l', m.executed)
  {
    if m.l.pc.Fetch? {
      FetchJustified(m, ch);
    } else if m.l.pc.JobGet? {
      JobGetJustified(m, ch);
    } else if m.l.pc.JobCreate? {
      JobCreateJustified(m, ch);
    } else if ChildStep(m.l.pc) {
      ChildrenJustified(m, ch);
    } else {
      StatusWritesJustified(m, ch);
    }
  }

  // What is known at each point of the pass.

  lemma CleanupFacts(m: System, ch: Choice)
    requires Inv(m) && (m.l.pc.PodsList? || m.l.pc.Cleanup?)
    ensures var (w', l') := OwnStep(m.w, m.l, ch); PcFacts(System(w', l', m.executed))
  {
    hide AfterField;
    var (w', r) := Serve(m.w, CallOf(m.l), ch);
    OwnJobSlot(m, ch);
    if m.l.pc.PodsList? {
      assert r.Listed? ==> forall p :: p in r.pods ==> p.kind.PodKind?;
    } else if m.l.pc.pods != [] {
      assert forall p :: p in m.l.pc.pods[1..] ==> p in m.l.pc.pods;
    }
  }

  lemma StatusStepPlain(l: Local, r: Response)
    requires CallOf(l) == StatusCall(l) && l.pc != JobGet && !ChildStep(l.pc)
    ensures Plain(Continue(l, r).pc) || l.pc.ClaimStatus?
  {
  }

  lemma OwnPcFacts(m: System, ch: Choice)
    requires Inv(m) && !m.l.pc.Idle?
    ensures var (w', l') := OwnStep(m.w, m.l, ch); PcFacts(System(w', l', m.executed))
  {
    hide AfterField;
    var r := Serve(m.w, CallOf(m.l), ch).1;
    if m.l.pc.JobGet? {
      JobGetJustified(m, ch);
    } else if m.l.pc.PodsList? || m.l.pc.Cleanup? {
      CleanupFacts(m, ch);
    } else if ChildStep(m.l.pc) {
      ChildStepLocal(m.l, r);
    } else if m.l.pc.ClaimStatus? {
      RefreshKeepsStatus(m.l, m.w, ch);
      DecideGate(Refreshed(m.l, r), OwnStep(m.w, m.l, ch).0, m.executed);
    } else if !m.l.pc.Fetch? && !m.l.pc.JobCreate? {
      StatusStepPlain(m.l, r);
    }
  }

  // ---- Every label ----

  lemma OwnKeepsInv(m: System, ch: Choice)
    requires Inv(m)
    ensures Inv(Apply(m, Own(ch)))
  {
    if !m.l.pc.Idle? {
      ServeTyped(m.w, CallOf(m.l), ch);
      OwnKeepsSuccess(m, ch);
      OwnMemoryJustified(m, ch);
      OwnPcFacts(m, ch);
      KeyFixed(m.l, Serve(m.w, CallOf(m.l), ch).1);
      OwnStoredJustified(m, ch);
    }
  }

  lemma KeyFixedElsewhere(l: Local, r: Response)
    requires !ChildStep(l.pc)
    ensures Continue(l, r).key == l.key
  {
  }

  lemma KeyFixed(l: Local, r: Response)
    ensures Continue(l, r).key == l.key
  {
    if ChildStep(l.pc) {
      ChildStepLocal(l, r);
    } else {
      KeyFixedElsewhere(l, r);
    }
  }

  lemma OwnStoredJustified(m: System, ch: Choice)
    requires Inv(m)
    ensures var w' := OwnStep(m.w, m.l, ch).0;
            HasResource(w', m.l.key) ==> Justified(w', m.l.key, m.executed, StoredStatus(w', m.l.key))
  {
    var w' := OwnStep(m.w, m.l, ch).0;
    if HasResource(w', m.l.key) {
      if m.l.pc != Fetch {
        OwnStored(m, ch);
      }
      OwnKeepsJustified(m, ch, StoredStatus(m.w, m.l.key));
      if Active(m.l.pc) {
        OwnKeepsJustified(m, ch, m.l.mem.status);
      }
    }
  }

  /** A change elsewhere that leaves the init Job alone, and leaves or resets the status. */
  lemma OutsideKeepsInv(m: System, w': World)
    requires Inv(m) && WellTyped(w')
    requires At(w', JobId(m.l.key)) == At(m.w, JobId(m.l.key))
    requires HasResource(w', m.l.key) ==>
      StoredStatus(w', m.l.key) == EMPTY_STATUS ||
      (HasResource(m.w, m.l.key) && StoredStatus(w', m.l.key) == StoredStatus(m.w, m.l.key))
    ensures Inv(m.(w := w'))
  {
    EmptyJustified(w', m.l.key, m.executed);
  }

  lemma ForeignStatus(w: World, key: Key, call: Call, ch: Choice)
    requires Considerate(key, call) && WellTyped(w)
    ensures var w' := Serve(w, call, ch).0;
            HasResource(w', key) ==>
              StoredStatus(w', key) == EMPTY_STATUS ||
              (HasResource(w, key) && StoredStatus(w', key) == StoredStatus(w, key))
  {
    if Target(call) != Some(OdooId(key)) {
      ServeFrame(w, call, ch, OdooId(key));
    }
  }

  lemma ForeignKeepsInv(m: System, call: Call, ch: Choice)
    requires Inv(m) && Considerate(m.l.key, call)
    ensures Inv(Apply(m, Foreign(call, ch)))
  {
    ServeTyped(m.w, call, ch);
    ServeFrame(m.w, call, ch, JobId(m.l.key));
    ForeignStatus(m.w, m.l.key, call, ch);
    OutsideKeepsInv(m, Serve(m.w, call, ch).0);
  }

  lemma ProgressKeepsInv(m: System, id: Id, s: JobStatus)
    requires Inv(m)
    ensures Inv(Apply(m, JobProgress(id, s)))
  {
    var m' := Apply(m, JobProgress(id, s));
    if HasResource(m.w, m.l.key) {
      ProgressJustified(m, id, s, StoredStatus(m.w, m.l.key));
    }
    if Active(m.l.pc) {
      ProgressJustified(m, id, s, m.l.mem.status);
    }
  }

  lemma ProgressJustified(m: System, id: Id, s: JobStatus, status: OdooStatus)
    requires Inv(m) && Justified(m.w, m.l.key, m.executed, status)
    ensures var m' := Apply(m, JobProgress(id, s)); Justified(m'.w, m.l.key, m'.executed, status)
  {
  }

  /** Every label keeps the installation invariant. */
  lemma StepKeepsInv(m: System, a: Label)
    requires Inv(m) && ConsiderateLabel(m.l.key, a)
    ensures Inv(Apply(m, a)) && Apply(m, a).l.key == m.l.key
  {
    match a
    case Start =>
    case Own(ch) =>
      OwnKeepsInv(m, ch);
      KeyFixed(m.l, Serve(m.w, CallOf(m.l), ch).1);
    case Crash =>
    case Foreign(call, ch) => ForeignKeepsInv(m, call, ch);
    case JobProgress(id, s) => ProgressKeepsInv(m, id, s);
  }

  ghost predicate ConsiderateRun(key: Key, labels: seq<Label>) {
    forall i :: 0 <= i < |labels| ==> ConsiderateLabel(key, labels[i])
  }

  lemma {:induction false} RunKeepsInv(m: System, labels: seq<Label>)
    requires Inv(m) && ConsiderateRun(m.l.key, labels)
    ensures Inv(RunAll(m, labels)) && RunAll(m, labels).l.key == m.l.key
  {
    if labels != [] {
      var front := labels[..|labels| - 1];
      RunKeepsInv(m, front);
      StepKeepsInv(RunAll(m, front), labels[|labels| - 1]);
    }
  }

  lemma InitialInv(m: System)
    requires Initial(m)
    ensures Inv(m)
  {
  }

  /** In every reachable state, every module the stored status calls installed was run by an
      init Job that succeeded. */
  lemma InstalledWasExecuted(m: System, labels: seq<Label>, x: string)
    requires Initial(m) && ConsiderateRun(m.l.key, labels)
    requires var m' := RunAll(m, labels);
             HasResource(m'.w, m.l.key) && x in StoredStatus(m'.w, m.l.key).initModulesInstalled
    ensures Elements(SplitOn(x, COMMA)) <= RunAll(m, labels).executed
    ensures !Contains(x, COMMA) ==> x in RunAll(m, labels).executed
  {
    InitialInv(m);
    RunKeepsInv(m, labels);
    var m' := RunAll(m, labels);
    var installed := StoredStatus(m'.w, m.l.key).initModulesInstalled;
    forall y | y in SplitOn(x, COMMA) ensures y in m'.executed {
      PieceOrigin(installed, COMMA, y);
    }
  }

  // ---- The gate in front of the Deployment ----

  lemma DeployWrites(m: System)
    requires Inv(m) && Target(CallOf(m.l)) == Some(DeployId(m.l.key))
    ensures m.l.pc.DeployPut?
  {
    hide AfterField;
  }

  /** Whenever the operator creates or changes the Deployment, in any run, every module of
      the specification it acts on has been run by an init Job that succeeded. */
  lemma DeploymentIsGated(m: System, labels: seq<Label>, ch: Choice)
    requires Initial(m) && ConsiderateRun(m.l.key, labels)
    ensures var m' := RunAll(m, labels); var id := DeployId(m.l.key);
            At(Apply(m', Own(ch)).w, id) != At(m'.w, id) ==>
              Pieces(m'.l.mem.spec.modules) <= m'.executed &&
              (PlainNames(m'.l.mem.spec.modules) ==> Elements(m'.l.mem.spec.modules) <= m'.executed)
  {
    InitialInv(m);
    RunKeepsInv(m, labels);
    var m' := RunAll(m, labels);
    if PlainNames(m'.l.mem.spec.modules) {
      PiecesOfPlain(m'.l.mem.spec.modules);
    }
    if Target(CallOf(m'.l)) == Some(DeployId(m.l.key)) {
      DeployWrites(m');
    } else {
      ServeFrame(m'.w, CallOf(m'.l), ch, DeployId(m.l.key));
    }
  }
}
