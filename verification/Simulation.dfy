// The operator against `Convergence`: in a calm run, in which requests do not fail, started
// Jobs succeed and others keep off the operator's objects, every pass acts on the installation
// at one moment, however Job events and requests by others fall between its steps.
module Simulation {
  import opened Types
  import opened ModuleLists
  import opened Templates
  import opened Api
  import opened Machine
  import opened Safety
  import opened History
  import opened Convergence
  import opened Fixpoint
  import Children

  // ---- Where a pass stands ----

  /** Before the init Job, and after it. */
  predicate Before(pc: Pc) {
    pc.AdminGet? || pc.AdminGenerate? || pc.AdminPut? || pc.AdminStatus? || pc.ConfigGet? || pc.DbRead? ||
    pc.ConfigPut? || pc.ConfigStatus? || pc.ClaimGet? || pc.ClaimCreate? || pc.ClaimStatus? || pc.JobGet?
  }

  predicate After(pc: Pc) {
    pc.DeployGet? || pc.DeployPut? || pc.DeployStatus? || pc.ServiceGet? || pc.ServicePut? || pc.FinalStatus?
  }

  /** The moment at which the pass acts on the installation is over. */
  predicate Passed(w: World, l: Local) {
    l.pc.Idle? || l.pc.Fail? || l.pc.JobStatusFirst? || l.pc.JobStatusSecond? || After(l.pc) ||
    (l.pc.JobCreate? && Exists(w, JobId(l.key)))
  }

  /** The installation, with what the pass has done and not yet written. */
  function Current(w: World, l: Local): Track
    requires HasResource(w, l.key)
  {
    if l.pc.JobStatusFirst? || l.pc.JobStatusSecond? then TrackWith(w, l.key, l.mem.status) else TrackOf(w, l.key)
  }

  /** Up to the first status write, which brings the stored specification into memory. */
  predicate Early(pc: Pc) {
    pc.AdminGet? || pc.AdminGenerate? || pc.AdminPut? || pc.AdminStatus?
  }

  /** The status writes of the pass have all been accepted. */
  predicate Synced(w: World, l: Local) {
    HasResource(w, l.key) &&
    (Active(l.pc) ==>
      l.mem.version == At(w, OdooId(l.key)).version &&
      (Early(l.pc) || l.mem.spec == StoredSpec(w, l.key)))
  }

  /** What the pass has looked up and is about to write is still as it was found. */
  predicate Meets(w: World, l: Local) {
    match l.pc
    case AdminGenerate(found) => Slotted(w, AdminId(l), found)
    case AdminPut(write, _) => Fits(w, AdminId(l), write)
    case DbRead(_, _, found) => Slotted(w, ConfigId(l.key), found)
    case ConfigPut(write, _) => Fits(w, ConfigId(l.key), write)
    case ClaimCreate => !Exists(w, ClaimId(l.key))
    case _ => true
  }

  /** The record in memory is the stored one, except while the pass changes it. */
  predicate Aligned(w: World, l: Local)
    requires HasResource(w, l.key)
  {
    var stored := TrackOf(w, l.key);
    var mine := TrackWith(w, l.key, l.mem.status);
    match l.pc
    case Idle(_, _) => true
    case Fetch => true
    case JobStatusFirst(_) => true
    case JobStatusSecond(_) => true
    case PodsList(job) => CleansUp(w, l, job, stored, mine)
    case Cleanup(job, pods) =>
      CleansUp(w, l, job, stored, mine) &&
      (forall p :: p in pods ==> p.kind.PodKind? && Exists(w, p)) &&
      (forall i, j :: 0 <= i < j < |pods| ==> pods[i] != pods[j])
    case JobCreate => mine == stored && !stored.Done()
    case ConfigNoPassword(_) => false
    case _ => mine == stored
  }

  predicate CleansUp(w: World, l: Local, job: Key, stored: Track, mine: Track) {
    stored.Recorded() && stored.job.value.succeeded > 0 && Id(JobKind, job) == JobId(l.key) &&
    mine == stored.(installed := stored.installed + stored.record.value, record := None)
  }

  /** A system in which the pass finds what it counts on. */
  ghost predicate Sound(m: System) {
    Inv(m) && InStep(m.w, m.l) && HoldsAdmin(m.l) && m.l.key.namespace != "" &&
    Synced(m.w, m.l) && Meets(m.w, m.l) && Aligned(m.w, m.l)
  }

  /** The step in which the pass acts. A pass whose configuration cannot be computed never does. */
  ghost predicate Acts(m: System, m': System) {
    !Passed(m.w, m.l) && Passed(m'.w, m'.l) && !m.l.pc.DbRead?
  }

  /** The effect of an own step. */
  ghost predicate Moves(m: System, m': System)
    requires HasResource(m.w, m.l.key)
  {
    Synced(m'.w, m'.l) && Meets(m'.w, m'.l) && Aligned(m'.w, m'.l) &&
    (Passed(m.w, m.l) ==> Passed(m'.w, m'.l)) &&
    Current(m'.w, m'.l) == if Acts(m, m') then Pass(Current(m.w, m.l)) else Current(m.w, m.l)
  }

  // ---- Own steps ----

  lemma TrackFrame(w: World, w': World, key: Key, a: OdooStatus, b: OdooStatus)
    requires HasResource(w, key) && HasResource(w', key) && StoredSpec(w', key) == StoredSpec(w, key)
    requires At(w', JobId(key)) == At(w, JobId(key)) && SameRecord(a, b)
    ensures TrackWith(w', key, b) == TrackWith(w, key, a)
  {
  }

  /** An accepted status write stores the memory and refreshes it. */
  lemma HonestStatus(w: World, l: Local, ch: Choice)
    requires Synced(w, l) && StatusStep(l.pc) && Honest(w, CallOf(l), ch)
    ensures var (w', r) := Serve(w, CallOf(l), ch); var l' := Refreshed(l, r);
            r.Written? && l'.key == l.key && l'.mem.status == l.mem.status && l'.pc == l.pc &&
            HasResource(w', l.key) && StoredSpec(w', l.key) == StoredSpec(w, l.key) &&
            StoredStatus(w', l.key) == l.mem.status && l'.mem.spec == StoredSpec(w, l.key) &&
            l'.mem.version == At(w', OdooId(l.key)).version &&
            (forall id :: id != OdooId(l.key) ==> At(w', id) == At(w, id))
  {
    hide AfterField, CallOf, Continue;
    StatusStepLocal(l, Nothing);
    var w' := Serve(w, CallOf(l), ch).0;
    forall id | id != OdooId(l.key) ensures At(w', id) == At(w, id) {
      ServeFrame(w, CallOf(l), ch, id);
    }
  }

  lemma AdminPoints(w: World, l: Local, ch: Choice)
    requires Meets(w, l) && Honest(w, CallOf(l), ch) && WellTyped(w)
    requires l.pc.AdminGet? || l.pc.AdminGenerate? || l.pc.AdminPut?
    ensures var (w', l') := OwnStep(w, l, ch);
            Meets(w', l') && (l'.pc.AdminGenerate? || l'.pc.AdminPut? || l'.pc.AdminStatus?)
  {
    hide AfterField, AfterConfigGet, AfterServiceGet, AfterJobGet, AfterDeployGet, AfterFetch, AdminKey;
  }

  lemma ConfigPoints(w: World, l: Local, ch: Choice)
    requires Meets(w, l) && HoldsAdmin(l) && Honest(w, CallOf(l), ch) && WellTyped(w)
    requires l.pc.ConfigGet? || l.pc.ConfigPut?
    ensures var (w', l') := OwnStep(w, l, ch);
            Meets(w', l') && (l'.pc.DbRead? || l'.pc.ConfigStatus?)
  {
    hide AfterField, AfterAdminGenerate, AfterServiceGet, AfterJobGet, AfterDeployGet, AfterFetch;
  }

  lemma ClaimPoints(w: World, l: Local, ch: Choice)
    requires Meets(w, l) && Honest(w, CallOf(l), ch) && WellTyped(w)
    requires l.pc.ClaimGet? || l.pc.ClaimCreate?
    ensures var (w', l') := OwnStep(w, l, ch);
            Meets(w', l') && (l'.pc.ClaimCreate? || l'.pc.ClaimStatus?)
  {
    hide AfterField, AfterAdminGenerate, AfterServiceGet, AfterJobGet, AfterDeployGet, AfterFetch, AfterConfigGet;
  }

  /** A field leads to the next one, to the configuration secret, or to failure. */
  lemma FieldPoints(w: World, l: Local, i: nat, field: Result<ConnectionDetails, DbError>, found: Option<Stored>)
    requires Slotted(w, ConfigId(l.key), found)
    ensures var l' := AfterField(l, i, field, found);
            Meets(w, l') && (l'.pc.DbRead? || l'.pc.ConfigPut? || l'.pc.ConfigStatus? || l'.pc.Fail?)
  {
    hide ConfigData;
  }

  lemma DbReadPoints(w: World, l: Local, ch: Choice)
    requires Meets(w, l) && l.pc.DbRead?
    ensures var (w', l') := OwnStep(w, l, ch);
            w' == w && Meets(w', l') && (l'.pc.DbRead? || l'.pc.ConfigPut? || l'.pc.ConfigStatus? || l'.pc.Fail?)
  {
    hide AfterField, ReadField, Slotted;
    var r := Serve(w, CallOf(l), ch).1;
    FieldPoints(w, l, l.pc.i, ReadField(l, l.pc.i, l.pc.details, r), l.pc.found);
  }

  lemma LatePoints(l: Local, r: Response)
    requires l.pc.DeployGet? || l.pc.DeployPut? || l.pc.ServiceGet? || l.pc.ServicePut?
    ensures After(Continue(l, r).pc) || Continue(l, r).pc.Fail?
  {
    hide AfterField, AfterAdminGenerate, AfterFetch, AfterConfigGet, AfterJobGet;
    hide DeploymentTemplate, ServiceTemplate;
  }

  /** Where a step on a child leads. */
  lemma ChildPoints(w: World, l: Local, ch: Choice)
    requires Meets(w, l) && HoldsAdmin(l) && Honest(w, CallOf(l), ch) && WellTyped(w)
    requires ChildStep(l.pc) && !l.pc.PodsList? && !l.pc.Cleanup?
    ensures var (w', l') := OwnStep(w, l, ch);
            Meets(w', l') &&
            (if Before(l.pc) then Before(l'.pc) || (l.pc.DbRead? && l'.pc.Fail?) else After(l'.pc) || l'.pc.Fail?) &&
            Early(l.pc) == Early(l'.pc)
  {
    hide Continue, CallOf, Honest, Slotted, Fits;
    match l.pc
    case AdminGet => AdminPoints(w, l, ch);
    case AdminGenerate(_) => AdminPoints(w, l, ch);
    case AdminPut(_, _) => AdminPoints(w, l, ch);
    case ConfigGet => ConfigPoints(w, l, ch);
    case ConfigPut(_, _) => ConfigPoints(w, l, ch);
    case DbRead(_, _, _) => DbReadPoints(w, l, ch);
    case ClaimGet => ClaimPoints(w, l, ch);
    case ClaimCreate => ClaimPoints(w, l, ch);
    case _ => LatePoints(l, Serve(w, CallOf(l), ch).1);
  }

  lemma ChildMoves(m: System, ch: Choice)
    requires Sound(m) && Honest(m.w, CallOf(m.l), ch)
    requires ChildStep(m.l.pc) && !m.l.pc.PodsList? && !m.l.pc.Cleanup?
    ensures Moves(m, Apply(m, Own(ch)))
  {
    hide Continue, CallOf, Inv, InStep, Meets, Honest, Pass, HoldsAdmin;
    var (w', r) := Serve(m.w, CallOf(m.l), ch);
    var l' := Continue(m.l, r);
    TypedNow(m);
    ChildPoints(m.w, m.l, ch);
    ChildStepLocal(m.l, r);
    ElsewhereFrame(m, ch);
    OwnJobSlot(m, ch);
    hide OwnStep, Serve;
    TrackFrame(m.w, w', m.l.key, m.l.mem.status, l'.mem.status);
    TrackFrame(m.w, w', m.l.key, StoredStatus(m.w, m.l.key), StoredStatus(w', m.l.key));
    hide TrackWith;
  }

  lemma TypedNow(m: System)
    requires Inv(m)
    ensures WellTyped(m.w)
  {
  }

  lemma FetchMoves(m: System, ch: Choice)
    requires Sound(m) && Honest(m.w, CallOf(m.l), ch) && m.l.pc.Fetch?
    ensures Moves(m, Apply(m, Own(ch)))
  {
    hide AfterField, Inv, InStep, Pass;
  }

  lemma IdleMoves(m: System, ch: Choice)
    requires Sound(m) && m.l.pc.Idle?
    ensures Moves(m, Apply(m, Own(ch)))
  {
    hide Continue, Inv, InStep, Pass;
    IdleStays(m.l, Serve(m.w, CallOf(m.l), ch).1);
  }

  /** Deciding what to do when no Job is recorded, or the recorded one tells nothing. */
  lemma DecideMoves(w: World, l: Local)
    requires HasResource(w, l.key) && l.mem.spec == StoredSpec(w, l.key) && WellTyped(w)
    requires TrackWith(w, l.key, l.mem.status) == TrackOf(w, l.key)
    requires var t := TrackOf(w, l.key); t.Recorded() ==> t.job == Some(PENDING)
    ensures var l' := Decide(l); var t := TrackOf(w, l.key);
            Aligned(w, l') && Meets(w, l') && (Passed(w, l') ==> Pass(t) == t)
  {
  }

  lemma EntryMoves(w: World, l: Local)
    requires HasResource(w, l.key) && l.mem.spec == StoredSpec(w, l.key) && WellTyped(w)
    requires TrackWith(w, l.key, l.mem.status) == TrackOf(w, l.key)
    ensures var l' := JobEntry(l); var t := TrackOf(w, l.key);
            Aligned(w, l') && Meets(w, l') && (Passed(w, l') ==> Pass(t) == t) && Active(l'.pc) &&
            l'.key == l.key && l'.mem == l.mem && !l'.pc.JobStatusFirst? && !l'.pc.JobStatusSecond?
  {
    hide TrackOf, Decide;
    DecidePlain(l);
    if !Named(l.mem.status.currentInitJob) {
      DecideMoves(w, l);
    }
  }

  lemma DecidePlain(l: Local)
    ensures var l' := Decide(l); l'.key == l.key && l'.mem == l.mem && (l'.pc.DeployGet? || l'.pc.JobCreate?)
  {
  }

  lemma StatusTracks(m: System, ch: Choice)
    requires Sound(m) && Honest(m.w, CallOf(m.l), ch) && StatusStep(m.l.pc)
    ensures var (w', r) := Serve(m.w, CallOf(m.l), ch); var l' := Refreshed(m.l, r);
            r.Written? && l'.key == m.l.key && l'.pc == m.l.pc && HasResource(w', m.l.key) && WellTyped(w') &&
            l'.mem.spec == StoredSpec(w', m.l.key) && l'.mem.version == At(w', OdooId(m.l.key)).version &&
            TrackOf(w', m.l.key) == TrackWith(m.w, m.l.key, m.l.mem.status) &&
            TrackWith(w', m.l.key, l'.mem.status) == TrackWith(m.w, m.l.key, m.l.mem.status)
  {
    TypedNow(m);
    hide Continue, CallOf, Inv, InStep, Meets, Aligned, Honest, Refreshed, Serve;
    HonestStatus(m.w, m.l, ch);
    ServeTyped(m.w, CallOf(m.l), ch);
    var w' := Serve(m.w, CallOf(m.l), ch).0;
    TrackFrame(m.w, w', m.l.key, m.l.mem.status, m.l.mem.status);
  }

  lemma StatusMoves(m: System, ch: Choice)
    requires Sound(m) && Honest(m.w, CallOf(m.l), ch) && StatusStep(m.l.pc)
    ensures Moves(m, Apply(m, Own(ch)))
  {
    hide AfterField, AfterAdminGenerate, AfterServiceGet, AfterDeployGet, AfterJobGet, AfterFetch, AfterConfigGet;
    hide CallOf, Inv, InStep, Honest, Refreshed, Serve, Pass, JobEntry, TrackOf, TrackWith;
    var (w', r) := Serve(m.w, CallOf(m.l), ch);
    StatusTracks(m, ch);
    if m.l.pc.ClaimStatus? {
      EntryMoves(w', Refreshed(m.l, r));
    }
  }

  /** The lookup answers about the init Job of the resource. */
  lemma JobLookup(m: System, ch: Choice)
    requires Inv(m) && m.l.pc.JobGet? && Honest(m.w, CallOf(m.l), ch)
    ensures var (w', r) := Serve(m.w, CallOf(m.l), ch); var id := JobId(m.l.key);
            w' == m.w && Named(m.l.mem.status.currentInitJob) && RecordedId(m.l.mem.status) == id && WellTyped(w') &&
            (if Exists(m.w, id) then r == Found(At(m.w, id).body.value, At(m.w, id).version) && r.body.JobBody?
             else r == NotFound)
  {
    hide Continue;
  }

  lemma JobGetMoves(m: System, ch: Choice)
    requires Sound(m) && Honest(m.w, CallOf(m.l), ch) && m.l.pc.JobGet?
    ensures Moves(m, Apply(m, Own(ch)))
  {
    hide AfterField, AfterAdminGenerate, AfterServiceGet, AfterDeployGet, AfterFetch, AfterConfigGet, CallOf, Serve;
    hide Inv, InStep, Honest, Decide, HoldsAdmin, Slotted, Fits;
    JobLookup(m, ch);
    DecidePlain(m.l);
    var t := TrackOf(m.w, m.l.key);
    if !t.Recorded() || t.job == Some(PENDING) {
      DecideMoves(m.w, m.l);
    }
  }

  /** The creation succeeds exactly when the name is free. */
  lemma JobCreateAnswer(m: System, ch: Choice)
    requires Inv(m) && m.l.pc.JobCreate? && Honest(m.w, CallOf(m.l), ch)
    ensures var (w', l') := OwnStep(m.w, m.l, ch); var id := JobId(m.l.key); var l := m.l;
            if Exists(m.w, id) then w' == m.w && l' == Failed(l, 0)
            else
              (forall other :: other != id ==> At(w', other) == At(m.w, other)) &&
              At(w', id).body.Some? && At(w', id).body.value.JobBody? && At(w', id).body.value.jobStatus == PENDING &&
              l' == SetStatus(Goto(l, JobStatusFirst(30)),
                              l.mem.status.(currentInitJob :=
                                InitJobRecord(InitJobKey(l.key).name, l.key.namespace, LocalMissing(l))))
  {
    hide AfterField, AfterAdminGenerate, AfterServiceGet, AfterDeployGet, AfterFetch, AfterConfigGet, AfterJobGet;
    hide Difference, JobTemplate;
  }

  lemma JobCreateMoves(m: System, ch: Choice)
    requires Sound(m) && Honest(m.w, CallOf(m.l), ch) && m.l.pc.JobCreate?
    ensures Moves(m, Apply(m, Own(ch)))
  {
    hide OwnStep, CallOf, InStep, Difference, Honest;
    JobCreateAnswer(m, ch);
  }

  lemma PodsListMoves(m: System, ch: Choice)
    requires Sound(m) && Honest(m.w, CallOf(m.l), ch) && m.l.pc.PodsList?
    ensures Moves(m, Apply(m, Own(ch)))
  {
    hide AfterField, AfterAdminGenerate, AfterServiceGet, AfterDeployGet, AfterFetch, AfterConfigGet, AfterJobGet;
    hide InStep, Decide, Inv, TrackOf, Pass;
  }

  lemma DeletePodMoves(m: System, ch: Choice)
    requires Sound(m) && Honest(m.w, CallOf(m.l), ch) && m.l.pc.Cleanup? && m.l.pc.pods != []
    ensures Moves(m, Apply(m, Own(ch)))
  {
    hide AfterField, AfterAdminGenerate, AfterServiceGet, AfterDeployGet, AfterFetch, AfterConfigGet, AfterJobGet;
    hide InStep, Decide, Inv, Pass;
  }

  lemma DeleteJobMoves(m: System, ch: Choice)
    requires Sound(m) && Honest(m.w, CallOf(m.l), ch) && m.l.pc.Cleanup? && m.l.pc.pods == []
    ensures Moves(m, Apply(m, Own(ch)))
  {
    hide AfterField, AfterAdminGenerate, AfterServiceGet, AfterDeployGet, AfterFetch, AfterConfigGet, AfterJobGet;
    hide InStep, Decide, Inv;
  }

  lemma OwnMoves(m: System, ch: Choice)
    requires Sound(m) && Honest(m.w, CallOf(m.l), ch)
    ensures Sound(Apply(m, Own(ch))) && Moves(m, Apply(m, Own(ch)))
  {
    hide Continue, CallOf, Inv, InStep, Meets, Aligned, Honest, Acts, Current, Serve, HoldsAdmin;
    PassPoints(m.l.pc);
    OwnKeepsInv(m, ch);
    StepInStep(m, Own(ch));
    StepHolds(m, Own(ch));
    KeyStays(m, Own(ch));
    hide Apply;
    match m.l.pc
    case Idle(_, _) => IdleMoves(m, ch);
    case Fetch => FetchMoves(m, ch);
    case JobGet => JobGetMoves(m, ch);
    case JobCreate => JobCreateMoves(m, ch);
    case PodsList(_) => PodsListMoves(m, ch);
    case Cleanup(_, pods) =>
      if pods == [] {
        DeleteJobMoves(m, ch);
      } else {
        DeletePodMoves(m, ch);
      }
    case _ =>
      if ChildStep(m.l.pc) {
        ChildMoves(m, ch);
      } else {
        StatusMoves(m, ch);
      }
  }

  // ---- What others may do ----

  /** The secrets a pass over the resource reads. */
  predicate ReadsSecret(key: Key, spec: OdooSpec, secret: Key) {
    secret == AdminKey(key, spec) || secret == ConfigKey(key) ||
    exists i :: 0 <= i < FIELDS && FromSecret(DbRef(spec.database, i)) &&
                secret == Key(key.namespace, DbRef(spec.database, i).name)
  }

  /** Requests that keep off the resource, its init Job and the secrets it reads, and delete no
      pods. They may write everything else, claim, Deployment and services included. */
  predicate Harmless(key: Key, spec: OdooSpec, call: Call) {
    Target(call).Some? ==>
      var id := Target(call).value;
      id != OdooId(key) && id != JobId(key) &&
      !(id.kind.SecretKind? && ReadsSecret(key, spec, id.key)) &&
      !(call.Delete? && id.kind.PodKind?)
  }

  /** The claim is created between the moment the pass misses it and its own request for it. */
  predicate TakesClaim(l: Local, call: Call) {
    l.pc.ClaimCreate? && call.Create? && call.id == ClaimId(l.key)
  }

  /** Why a calm run has none of this: the pass fails, and after a deletion the next one can be
      made to fail in the same way. */
  lemma ClaimRace(m: System, body: Body, a: Choice, b: Choice, c: Choice)
    requires m.l.pc.ClaimCreate? && !Exists(m.w, ClaimId(m.l.key)) && body.ClaimBody?
    requires a.fault.NoFault? && c.fault.NoFault?
    ensures var create, delete := Foreign(Create(ClaimId(m.l.key), body), a), Foreign(Delete(ClaimId(m.l.key)), c);
            var m' := Apply(Apply(Apply(m, create), Own(b)), delete);
            m'.l == Failed(m.l, 15) && forall id :: At(m'.w, id).body == At(m.w, id).body
  {
    hide AfterField, AfterAdminGenerate, AfterServiceGet, AfterDeployGet, AfterFetch, AfterConfigGet, AfterJobGet;
  }

  /** One event of a calm run: requests of the pass do not fail, the counters of the init Job
      change as a succeeding Job makes them change, and others do no harm. */
  ghost predicate Calm(m: System, a: Label) {
    HasResource(m.w, m.l.key) &&
    match a
    case Start => true
    case Own(ch) => Honest(m.w, CallOf(m.l), ch)
    case Crash => false
    case Foreign(call, _) => Harmless(m.l.key, StoredSpec(m.w, m.l.key), call) && !TakesClaim(m.l, call)
    case JobProgress(id, s) =>
      id == JobId(m.l.key) && LiveJob(m.w, m.l.key) ==> Some(s) == Tick(TrackOf(m.w, m.l.key)).job
  }

  /** The events of `Convergence` that a label amounts to. */
  ghost function ActsOf(m: System, a: Label): seq<Act> {
    match a
    case Own(_) => if Acts(m, Apply(m, a)) then [DoPass] else []
    case JobProgress(id, _) => if id == JobId(m.l.key) then [DoTick] else []
    case _ => []
  }

  lemma OnlyCreationBrings(w: World, call: Call, ch: Choice, id: Id)
    ensures Exists(Serve(w, call, ch).0, id) ==> Exists(w, id) || (call.Create? && call.id == id)
  {
  }

  lemma HarmlessFrame(w: World, key: Key, spec: OdooSpec, call: Call, ch: Choice)
    requires Harmless(key, spec, call)
    ensures var w' := Serve(w, call, ch).0;
            At(w', OdooId(key)) == At(w, OdooId(key)) && At(w', JobId(key)) == At(w, JobId(key)) &&
            (Exists(w', ClaimId(key)) ==> Exists(w, ClaimId(key)) || (call.Create? && call.id == ClaimId(key))) &&
            (forall k :: ReadsSecret(key, spec, k) ==> At(w', Id(SecretKind, k)) == At(w, Id(SecretKind, k))) &&
            (forall p: Id :: p.kind.PodKind? && Exists(w, p) ==> Exists(w', p))
  {
    hide Serve, ReadsSecret;
    forall id: Id | Target(call) != Some(id) ensures At(Serve(w, call, ch).0, id) == At(w, id) {
      ServeFrame(w, call, ch, id);
    }
    OnlyCreationBrings(w, call, ch, ClaimId(key));
    forall p: Id | p.kind.PodKind? && Exists(w, p) ensures Exists(Serve(w, call, ch).0, p) {
      Children.OnlyDeletionRemoves(w, call, ch, p);
    }
  }

  /** The admin secret is one of them, also while the specification is deduplicated in memory. */
  lemma AdminIsRead(m: System)
    requires InStep(m.w, m.l) && Synced(m.w, m.l) && Active(m.l.pc)
    ensures ReadsSecret(m.l.key, StoredSpec(m.w, m.l.key), AdminId(m.l).key)
  {
  }

  lemma ForeignMoves(m: System, call: Call, ch: Choice)
    requires Sound(m) && Harmless(m.l.key, StoredSpec(m.w, m.l.key), call) && !TakesClaim(m.l, call)
    ensures var m' := Apply(m, Foreign(call, ch));
            Synced(m'.w, m'.l) && Meets(m'.w, m'.l) && Aligned(m'.w, m'.l) &&
            Current(m'.w, m'.l) == Current(m.w, m.l) && Passed(m'.w, m'.l) == Passed(m.w, m.l)
  {
    hide Serve, Inv, InStep, AdminKey, ReadsSecret, HoldsAdmin;
    var w' := Serve(m.w, call, ch).0;
    HarmlessFrame(m.w, m.l.key, StoredSpec(m.w, m.l.key), call, ch);
    TrackFrame(m.w, w', m.l.key, m.l.mem.status, m.l.mem.status);
    TrackFrame(m.w, w', m.l.key, StoredStatus(m.w, m.l.key), StoredStatus(m.w, m.l.key));
    hide TrackWith, Harmless;
    ConfigIsRead(m.l.key, StoredSpec(m.w, m.l.key));
    if Active(m.l.pc) {
      AdminIsRead(m);
      assert At(w', AdminId(m.l)) == At(m.w, AdminId(m.l));
    }
    assert At(w', ConfigId(m.l.key)) == At(m.w, ConfigId(m.l.key));
  }

  lemma ConfigIsRead(key: Key, spec: OdooSpec)
    ensures ReadsSecret(key, spec, ConfigKey(key))
  {
  }

  lemma TickTrack(w: World, w': World, key: Key, status: OdooStatus)
    requires HasResource(w, key) && HasResource(w', key) && StoredSpec(w', key) == StoredSpec(w, key)
    requires TrackOf(w', key).job == Tick(TrackOf(w, key)).job
    ensures TrackWith(w', key, status) == Tick(TrackWith(w, key, status))
  {
  }

  /** An event of the init Job reaches the pass at any point as the same step of the installation. */
  lemma TickMoves(m: System, w': World)
    requires Sound(m) && forall id :: id != JobId(m.l.key) ==> At(w', id) == At(m.w, id)
    requires Exists(w', JobId(m.l.key)) == Exists(m.w, JobId(m.l.key))
    requires TrackOf(w', m.l.key).job == Tick(TrackOf(m.w, m.l.key)).job
    ensures Synced(w', m.l) && Meets(w', m.l) && Aligned(w', m.l) && Passed(w', m.l) == Passed(m.w, m.l) &&
            Current(w', m.l) == Tick(Current(m.w, m.l))
  {
    hide Inv, InStep, AdminKey, HoldsAdmin;
    TickTrack(m.w, w', m.l.key, m.l.mem.status);
    TickTrack(m.w, w', m.l.key, StoredStatus(m.w, m.l.key));
    hide TrackWith;
  }

  lemma ProgressMoves(m: System, id: Id, s: JobStatus)
    requires Sound(m) && Calm(m, JobProgress(id, s))
    ensures var m' := Apply(m, JobProgress(id, s));
            Synced(m'.w, m'.l) && Meets(m'.w, m'.l) && Aligned(m'.w, m'.l) &&
            Passed(m'.w, m'.l) == Passed(m.w, m.l) &&
            Current(m'.w, m'.l) == if id == JobId(m.l.key) then Tick(Current(m.w, m.l)) else Current(m.w, m.l)
  {
    TypedNow(m);
    ProgressFrame(m, id, s);
    hide Apply, Inv, InStep, HoldsAdmin, Meets, Aligned, Current, Passed;
    var w' := Apply(m, JobProgress(id, s)).w;
    if id == JobId(m.l.key) {
      TickMoves(m, w');
    } else {
      ElsewhereMoves(m, w', id);
    }
  }

  /** A change of another Job goes unnoticed. */
  lemma ElsewhereMoves(m: System, w': World, id: Id)
    requires Sound(m) && id != JobId(m.l.key) && forall other :: other != id ==> At(w', other) == At(m.w, other)
    requires id.kind.JobKind? || w' == m.w
    ensures Synced(w', m.l) && Meets(w', m.l) && Aligned(w', m.l) && Passed(w', m.l) == Passed(m.w, m.l) &&
            Current(w', m.l) == Current(m.w, m.l)
  {
    hide Inv, InStep, AdminKey, HoldsAdmin;
    TrackFrame(m.w, w', m.l.key, m.l.mem.status, m.l.mem.status);
    TrackFrame(m.w, w', m.l.key, StoredStatus(m.w, m.l.key), StoredStatus(m.w, m.l.key));
    hide TrackWith;
  }

  lemma ProgressFrame(m: System, id: Id, s: JobStatus)
    requires WellTyped(m.w)
    ensures var m' := Apply(m, JobProgress(id, s));
            m'.l == m.l && (forall other :: other != id ==> At(m'.w, other) == At(m.w, other)) &&
            (!id.kind.JobKind? ==> m'.w == m.w) &&
            (if Progresses(m.w, id, s) then
               Exists(m'.w, id) && At(m'.w, id).body == Some(At(m.w, id).body.value.(jobStatus := s))
             else m'.w == m.w)
  {
  }

  // ---- Runs ----

  lemma StepMoves(m: System, a: Label)
    requires Sound(m) && Calm(m, a)
    ensures var m' := Apply(m, a);
            m'.l.key == m.l.key && Sound(m') && Current(m'.w, m'.l) == DoAll(Current(m.w, m.l), ActsOf(m, a)) &&
            (!a.Own? && !a.Start? ==> m'.l == m.l && Passed(m'.w, m'.l) == Passed(m.w, m.l)) &&
            (a.Own? && Passed(m.w, m.l) ==> Passed(m'.w, m'.l))
  {
    hide Continue, CallOf, Serve, Inv, InStep, HoldsAdmin, Meets, Aligned, Current, Pass, Tick, Passed;
    KeyStays(m, a);
    match a
    case Start => StartMoves(m);
    case Own(ch) => OwnMoves(m, ch);
    case Crash =>
    case Foreign(call, ch) =>
      StepKeepsInv(m, a);
      StepInStep(m, a);
      StepHolds(m, a);
      ForeignMoves(m, call, ch);
    case JobProgress(id, s) =>
      StepKeepsInv(m, a);
      StepInStep(m, a);
      StepHolds(m, a);
      ProgressMoves(m, id, s);
  }

  lemma StartMoves(m: System)
    requires Sound(m)
    ensures var m' := Apply(m, Start); Sound(m') && Current(m'.w, m'.l) == Current(m.w, m.l)
  {
    StepKeepsInv(m, Start);
    StepInStep(m, Start);
    StepHolds(m, Start);
    hide Inv, InStep, HoldsAdmin;
  }

  predicate NoStart(labels: seq<Label>) {
    forall i :: 0 <= i < |labels| ==> !labels[i].Start?
  }

  ghost predicate CalmRun(m: System, labels: seq<Label>) {
    labels == [] ||
    (CalmRun(m, labels[..|labels| - 1]) && Calm(RunAll(m, labels[..|labels| - 1]), labels[|labels| - 1]))
  }

  ghost function ActsRun(m: System, labels: seq<Label>): seq<Act> {
    if labels == [] then []
    else ActsRun(m, labels[..|labels| - 1]) + ActsOf(RunAll(m, labels[..|labels| - 1]), labels[|labels| - 1])
  }

  /** Every calm run is a schedule of the convergence model: each pass acts once, between its
      first and its last step, and each event of the init Job is a step of its own. */
  lemma {:induction false} RunSimulates(m: System, labels: seq<Label>)
    requires Sound(m) && CalmRun(m, labels)
    ensures var m' := RunAll(m, labels);
            m'.l.key == m.l.key && Sound(m') && Current(m'.w, m'.l) == DoAll(Current(m.w, m.l), ActsRun(m, labels))
  {
    hide Apply, Calm, Current, ActsOf, Sound;
    if labels != [] {
      var front, a := labels[..|labels| - 1], labels[|labels| - 1];
      RunSimulates(m, front);
      SoundHere(RunAll(m, front));
      StepMoves(RunAll(m, front), a);
      SoundHere(RunAll(m, labels));
      SoundHere(m);
      DoAllConcat(Current(m.w, m.l), ActsRun(m, front), ActsOf(RunAll(m, front), a));
    } else {
      SoundHere(m);
    }
  }

  lemma SoundHere(m: System)
    requires Sound(m)
    ensures HasResource(m.w, m.l.key) && Inv(m)
  {
    hide Inv;
  }

  lemma BeginSound(m: System)
    requires Inv(m) && (m.l.pc.Idle? || m.l.pc.Fetch?) && HasResource(m.w, m.l.key) && m.l.key.namespace != ""
    ensures Sound(m) && Current(m.w, m.l) == TrackOf(m.w, m.l.key)
  {
    hide Inv;
  }
}
