// What the operator does to secrets and to the references between its children: a stored
// password is never overwritten, and no pod refers to a claim or secret that does not exist.
module Children {
  import opened Types
  import opened Templates
  import opened Api
  import opened Machine
  import opened Safety
  import opened History

  // ---- Passwords ----

  ghost predicate HoldsPassword(w: World, id: Id) {
    id.kind.SecretKind? && Exists(w, id) && At(w, id).body.value.SecretBody? &&
    PASSWORD in At(w, id).body.value.data
  }

  /** What the pass knows about the admin secret while it decides whether to write it. */
  ghost predicate AdminKnown(w: World, l: Local) {
    match l.pc
    case AdminGenerate(Some(secret)) =>
      secret.version <= At(w, AdminId(l)).version &&
      (secret.version == At(w, AdminId(l)).version ==> At(w, AdminId(l)).body == Some(SecretBody(secret.data)))
    case AdminPut(Over(version), _) =>
      version <= At(w, AdminId(l)).version &&
      (version == At(w, AdminId(l)).version ==> !HoldsPassword(w, AdminId(l)))
    case _ => true
  }

  lemma AdminStepKnown(w: World, l: Local, ch: Choice)
    requires AdminKnown(w, l) && (l.pc.AdminGet? || l.pc.AdminGenerate?)
    ensures var (w', l') := OwnStep(w, l, ch); AdminKnown(w', l')
  {
    hide AfterField, AfterServiceGet, AfterJobGet, AfterDeployGet, AfterConfigGet, AfterFetch;
  }

  /** Only the first two steps lead to a point where something is known. */
  predicate AdminPoint(pc: Pc) {
    pc.AdminGenerate? || pc.AdminPut?
  }

  lemma OtherStepsForget(l: Local, r: Response)
    requires !l.pc.AdminGet? && !l.pc.AdminGenerate? && !l.pc.DbRead? && !l.pc.Idle?
    ensures !AdminPoint(Continue(l, r).pc)
  {
    hide AfterField, AfterAdminGet, AfterAdminGenerate;
  }

  lemma FieldForgets(l: Local, i: nat, field: Result<ConnectionDetails, DbError>, found: Option<Stored>)
    ensures !AdminPoint(AfterField(l, i, field, found).pc)
  {
    hide ConfigData;
  }

  lemma DbReadForgets(l: Local, r: Response)
    requires l.pc.DbRead?
    ensures !AdminPoint(Continue(l, r).pc)
  {
    hide AfterField, ReadField;
    FieldForgets(l, l.pc.i, ReadField(l, l.pc.i, l.pc.details, r), l.pc.found);
  }

  lemma StepAdminKnown(m: System, a: Label)
    requires AdminKnown(m.w, m.l)
    ensures AdminKnown(Apply(m, a).w, Apply(m, a).l)
  {
    hide Continue, CallOf;
    match a
    case Start =>
    case Crash =>
    case Foreign(call, ch) => ServeVersions(m.w, call, ch, AdminId(m.l));
    case JobProgress(id, s) =>
    case Own(ch) =>
      var r := Serve(m.w, CallOf(m.l), ch).1;
      if m.l.pc.AdminGet? || m.l.pc.AdminGenerate? {
        AdminStepKnown(m.w, m.l, ch);
      } else if m.l.pc.DbRead? {
        DbReadForgets(m.l, r);
      } else if m.l.pc.Idle? {
        IdleStays(m.l, r);
      } else {
        OtherStepsForget(m.l, r);
      }
  }

  /** The secrets a pass writes: the admin secret and the configuration secret. */
  lemma SecretTargets(m: System)
    requires Inv(m)
    ensures Target(CallOf(m.l)).Some? && Target(CallOf(m.l)).value.kind.SecretKind? ==>
              m.l.pc.AdminPut? || (m.l.pc.ConfigPut? && Target(CallOf(m.l)).value == ConfigId(m.l.key))
  {
    hide AfterField;
  }

  lemma AdminPutKeeps(w: World, l: Local, ch: Choice, id: Id)
    requires AdminKnown(w, l) && l.pc.AdminPut? && HoldsPassword(w, id)
    ensures At(OwnStep(w, l, ch).0, id) == At(w, id)
  {
    hide Continue;
  }

  /** Although every pass draws a new random password, no step of it changes a secret that
      holds a password, its own configuration secret aside. */
  lemma OwnKeepsPassword(m: System, ch: Choice, id: Id)
    requires Inv(m) && AdminKnown(m.w, m.l) && HoldsPassword(m.w, id) && id != ConfigId(m.l.key)
    ensures At(Apply(m, Own(ch)).w, id) == At(m.w, id)
  {
    hide Continue, CallOf;
    if Target(CallOf(m.l)) == Some(id) {
      SecretTargets(m);
      AdminPutKeeps(m.w, m.l, ch, id);
    } else {
      ServeFrame(m.w, CallOf(m.l), ch, id);
    }
  }

  lemma {:induction false} ReachableAdminKnown(m: System, labels: seq<Label>)
    requires m.l.pc.Idle?
    ensures AdminKnown(RunAll(m, labels).w, RunAll(m, labels).l)
  {
    hide Apply;
    if labels != [] {
      ReachableAdminKnown(m, labels[..|labels| - 1]);
      StepAdminKnown(RunAll(m, labels[..|labels| - 1]), labels[|labels| - 1]);
    }
  }

  /** Requests by others that do not write this object. */
  predicate Spares(id: Id, a: Label) {
    (a.Foreign? ==> Target(a.call) != Some(id)) && (a.JobProgress? ==> a.id != id)
  }

  /** Once a secret holds a password, no run of the operator changes it any more, unless it is
      the configuration secret. */
  lemma {:induction false} PasswordStays(m: System, labels: seq<Label>, id: Id)
    requires Inv(m) && AdminKnown(m.w, m.l) && HoldsPassword(m.w, id) && id != ConfigId(m.l.key)
    requires ConsiderateRun(m.l.key, labels) && forall i :: 0 <= i < |labels| ==> Spares(id, labels[i])
    ensures At(RunAll(m, labels).w, id) == At(m.w, id) && AdminKnown(RunAll(m, labels).w, RunAll(m, labels).l)
  {
    hide Continue, CallOf;
    if labels != [] {
      var front, a := labels[..|labels| - 1], labels[|labels| - 1];
      PasswordStays(m, front, id);
      RunKeepsInv(m, front);
      var n := RunAll(m, front);
      StepAdminKnown(n, a);
      match a
      case Own(ch) => OwnKeepsPassword(n, ch, id);
      case Foreign(call, ch) => ServeFrame(n.w, call, ch, id);
      case _ =>
    }
  }

  /** Exactly one name makes the admin secret and the configuration secret one. */
  lemma AdminIsConfigExactly(key: Key, spec: OdooSpec)
    ensures AdminKey(key, spec) == ConfigKey(key) <==> spec.config.adminPasswordSecretName == key.name + "-config"
  {
    DerivedNamesDistinct(key, key);
    assert key.name + "-config" != "";
  }

  // ---- References ----

  predicate PastConfig(pc: Pc) {
    pc.ConfigStatus? || pc.ClaimGet? || pc.ClaimCreate? || PastClaim(pc)
  }

  predicate PastClaim(pc: Pc) {
    pc.ClaimStatus? || pc.JobGet? || pc.JobCreate? || pc.DeployGet? || pc.DeployPut?
  }

  /** A configuration secret was found earlier in the pass. */
  predicate SawConfig(pc: Pc) {
    (pc.ConfigNoPassword? && pc.found.Some?) || (pc.DbRead? && pc.found.Some?)
  }

  ghost predicate ReferencesReady(w: World, l: Local) {
    (SawConfig(l.pc) ==> Exists(w, ConfigId(l.key))) &&
    (PastConfig(l.pc) ==>
      Exists(w, ConfigId(l.key)) && l.mem.status.configSecretName == ConfigKey(l.key).name) &&
    (PastClaim(l.pc) ==>
      Exists(w, ClaimId(l.key)) && l.mem.status.dataPvcName == l.key.name)
  }

  /** Nobody else deletes the configuration secret or the claim. */
  predicate KeepsChildren(key: Key, a: Label) {
    a.Foreign? && a.call.Delete? ==> a.call.id != ConfigId(key) && a.call.id != ClaimId(key)
  }

  lemma OnlyDeletionRemoves(w: World, call: Call, ch: Choice, id: Id)
    requires Exists(w, id) && !(call.Delete? && call.id == id)
    ensures Exists(Serve(w, call, ch).0, id)
  {
    if Target(call) != Some(id) {
      ServeFrame(w, call, ch, id);
    }
  }

  lemma OwnDeletions(m: System, id: Id)
    requires Inv(m) && CallOf(m.l).Delete? && CallOf(m.l).id == id
    ensures !id.kind.SecretKind? && !id.kind.ClaimKind?
  {
    hide AfterField;
  }

  lemma OwnKeepsChildren(m: System, ch: Choice)
    requires Inv(m)
    ensures var w' := OwnStep(m.w, m.l, ch).0;
            (Exists(m.w, ConfigId(m.l.key)) ==> Exists(w', ConfigId(m.l.key))) &&
            (Exists(m.w, ClaimId(m.l.key)) ==> Exists(w', ClaimId(m.l.key)))
  {
    hide Continue, CallOf;
    forall id | Exists(m.w, id) && (id == ConfigId(m.l.key) || id == ClaimId(m.l.key))
      ensures Exists(OwnStep(m.w, m.l, ch).0, id)
    {
      if CallOf(m.l).Delete? && CallOf(m.l).id == id {
        OwnDeletions(m, id);
      }
      OnlyDeletionRemoves(m.w, CallOf(m.l), ch, id);
    }
  }

  lemma ConfigGetReady(m: System, ch: Choice)
    requires Inv(m) && ReferencesReady(m.w, m.l) && m.l.pc.ConfigGet?
    ensures var (w', l') := OwnStep(m.w, m.l, ch); ReferencesReady(w', l')
  {
    hide AfterField, AfterServiceGet, AfterJobGet, AfterDeployGet, AfterFetch, AfterAdminGenerate;
    OwnKeepsChildren(m, ch);
  }

  lemma ConfigPutReady(m: System, ch: Choice)
    requires Inv(m) && ReferencesReady(m.w, m.l) && m.l.pc.ConfigPut?
    ensures var (w', l') := OwnStep(m.w, m.l, ch); ReferencesReady(w', l')
  {
    hide AfterField, AfterServiceGet, AfterJobGet, AfterDeployGet, AfterFetch, AfterAdminGenerate;
    OwnKeepsChildren(m, ch);
  }

  lemma NamesReady(m: System, ch: Choice)
    requires Inv(m) && ReferencesReady(m.w, m.l)
    requires m.l.pc.ConfigNoPassword? || m.l.pc.ConfigStatus? || m.l.pc.ClaimStatus?
    ensures var (w', l') := OwnStep(m.w, m.l, ch); ReferencesReady(w', l')
  {
    hide AfterField, AfterServiceGet, AfterJobGet, AfterDeployGet, AfterFetch, AfterAdminGenerate, Serve;
    OwnKeepsChildren(m, ch);
    StatusStepLocal(m.l, Nothing);
    StatusAnswer(m.w, m.l, ch);
  }

  lemma StoreReady(w: World, l: Local, data: SecretData, found: Option<Stored>)
    requires found.Some? ==> Exists(w, ConfigId(l.key))
    ensures ReferencesReady(w, StoreConfig(l, data, found))
  {
  }

  lemma FieldReady(w: World, l: Local, i: nat, field: Result<ConnectionDetails, DbError>, found: Option<Stored>)
    requires found.Some? ==> Exists(w, ConfigId(l.key))
    ensures ReferencesReady(w, AfterField(l, i, field, found))
  {
    hide ConfigData;
    if field.Ok? && PASSWORD in l.admin {
      StoreReady(w, l, ConfigData(l.admin[PASSWORD], l.mem.spec.config, field.value), found);
    }
  }

  lemma DbReadReady(m: System, ch: Choice)
    requires Inv(m) && ReferencesReady(m.w, m.l) && m.l.pc.DbRead?
    ensures var (w', l') := OwnStep(m.w, m.l, ch); ReferencesReady(w', l')
  {
    hide AfterField, ReadField;
    OwnKeepsChildren(m, ch);
    var (w', r) := Serve(m.w, CallOf(m.l), ch);
    FieldReady(w', m.l, m.l.pc.i, ReadField(m.l, m.l.pc.i, m.l.pc.details, r), m.l.pc.found);
  }

  lemma ClaimPhaseReady(m: System, ch: Choice)
    requires Inv(m) && ReferencesReady(m.w, m.l)
    requires m.l.pc.ClaimGet? || m.l.pc.ClaimCreate?
    ensures var (w', l') := OwnStep(m.w, m.l, ch); ReferencesReady(w', l')
  {
    hide AfterField, AfterServiceGet, AfterJobGet, AfterDeployGet, AfterFetch, AfterAdminGenerate;
    OwnKeepsChildren(m, ch);
  }

  lemma JobPhaseReady(m: System, ch: Choice)
    requires Inv(m) && ReferencesReady(m.w, m.l)
    requires m.l.pc.JobGet? || m.l.pc.JobCreate? || m.l.pc.DeployGet? || m.l.pc.DeployPut?
    ensures var (w', l') := OwnStep(m.w, m.l, ch); ReferencesReady(w', l')
  {
    hide AfterField, AfterServiceGet, AfterFetch, AfterAdminGenerate, CallOf, Serve;
    OwnKeepsChildren(m, ch);
  }

  /** Elsewhere the pass does not come to a point where references count. */
  lemma ElsewhereReady(l: Local, r: Response)
    requires !l.pc.DbRead? && !PastConfig(l.pc) && !l.pc.ConfigGet? && !l.pc.ConfigNoPassword? && !l.pc.ConfigPut?
    ensures var pc' := Continue(l, r).pc; !SawConfig(pc') && !PastConfig(pc')
  {
    hide AfterField, AfterJobGet, AfterDeployGet, AfterConfigGet;
  }

  lemma OwnReady(m: System, ch: Choice)
    requires Inv(m) && ReferencesReady(m.w, m.l)
    ensures var (w', l') := OwnStep(m.w, m.l, ch); ReferencesReady(w', l')
  {
    hide Continue, CallOf;
    match m.l.pc
    case ConfigGet => ConfigGetReady(m, ch);
    case ConfigNoPassword(_) => NamesReady(m, ch);
    case ConfigPut(_, _) => ConfigPutReady(m, ch);
    case ConfigStatus => NamesReady(m, ch);
    case DbRead(_, _, _) => DbReadReady(m, ch);
    case ClaimGet => ClaimPhaseReady(m, ch);
    case ClaimCreate => ClaimPhaseReady(m, ch);
    case ClaimStatus => NamesReady(m, ch);
    case JobGet => JobPhaseReady(m, ch);
    case JobCreate => JobPhaseReady(m, ch);
    case DeployGet => JobPhaseReady(m, ch);
    case DeployPut(_) => JobPhaseReady(m, ch);
    case _ => ElsewhereReady(m.l, Serve(m.w, CallOf(m.l), ch).1);
  }

  lemma StepReady(m: System, a: Label)
    requires Inv(m) && ReferencesReady(m.w, m.l) && KeepsChildren(m.l.key, a)
    ensures ReferencesReady(Apply(m, a).w, Apply(m, a).l)
  {
    hide Continue, CallOf;
    match a
    case Start =>
    case Own(ch) => OwnReady(m, ch);
    case Crash =>
    case Foreign(call, ch) =>
      if Exists(m.w, ConfigId(m.l.key)) {
        OnlyDeletionRemoves(m.w, call, ch, ConfigId(m.l.key));
      }
      if Exists(m.w, ClaimId(m.l.key)) {
        OnlyDeletionRemoves(m.w, call, ch, ClaimId(m.l.key));
      }
    case JobProgress(id, s) =>
  }

  ghost predicate ChildKeepingRun(key: Key, labels: seq<Label>) {
    forall i :: 0 <= i < |labels| ==> ConsiderateLabel(key, labels[i]) && KeepsChildren(key, labels[i])
  }

  lemma {:induction false} ReachableReady(m: System, labels: seq<Label>)
    requires Initial(m) && ChildKeepingRun(m.l.key, labels)
    ensures ReferencesReady(RunAll(m, labels).w, RunAll(m, labels).l)
  {
    hide Apply;
    if labels != [] {
      var front, a := labels[..|labels| - 1], labels[|labels| - 1];
      ReachableReady(m, front);
      ReachableInStep(m, front);
      StepReady(RunAll(m, front), a);
    }
  }

  /** The pod a request carries, if any. */
  function PodIn(call: Call): Option<PodSpec> {
    match call
    case Create(_, JobBody(job, _)) => Some(job.pod)
    case Create(_, DeploymentBody(d)) => Some(d.pod)
    case Update(_, JobBody(job, _), _) => Some(job.pod)
    case Update(_, DeploymentBody(d), _) => Some(d.pod)
    case _ => None
  }

  lemma PodRequests(m: System)
    requires Inv(m) && PodIn(CallOf(m.l)).Some?
    ensures (m.l.pc.JobCreate? || m.l.pc.DeployPut?) &&
            PodIn(CallOf(m.l)).value.claimName == m.l.mem.status.dataPvcName &&
            PodIn(CallOf(m.l)).value.configSecretName == m.l.mem.status.configSecretName
  {
    hide AfterField;
  }

  /** In every reachable state, whenever the operator asks for a Job or a Deployment, the claim
      and the configuration secret its pod mounts exist in its namespace, even if every status
      write so far has failed. */
  lemma PodsReferToExisting(m: System, labels: seq<Label>)
    requires Initial(m) && ChildKeepingRun(m.l.key, labels)
    requires PodIn(CallOf(RunAll(m, labels).l)).Some?
    ensures var m' := RunAll(m, labels); var pod := PodIn(CallOf(m'.l)).value;
            Exists(m'.w, Id(ClaimKind, Key(m.l.key.namespace, pod.claimName))) &&
            Exists(m'.w, Id(SecretKind, Key(m.l.key.namespace, pod.configSecretName)))
  {
    hide Apply, CallOf, Continue;
    ReachableInStep(m, labels);
    ReachableReady(m, labels);
    PodRequests(RunAll(m, labels));
  }
}
