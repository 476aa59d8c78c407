// The admin password over whole runs: it stays, except exactly when the user names the
// configuration secret as admin secret.
module Passwords {
  import opened Types
  import opened Templates
  import opened Api
  import opened Machine
  import opened Safety
  import opened History
  import opened Children
  import opened Fixpoint
  import opened Simulation
  import opened HonestPass
  import Convergence
  import Liveness
  import SelfReference
  import Watch

  function AdminSecret(key: Key, spec: OdooSpec): Id {
    Id(SecretKind, AdminKey(key, spec))
  }

  /** Where the pass goes before it comes to the write. */
  predicate StillToLose(pc: Pc) {
    Phase(pc) >= 16 && !pc.AdminPut? && !pc.ConfigNoPassword? &&
    (pc.AdminGenerate? ==> pc.found.Some? && PASSWORD in pc.found.value.data)
  }

  /** Up to the write of the configuration the secrets are as at the beginning of the pass, and
      after it the configuration secret holds no password. */
  ghost predicate Losing(m: System, secrets: World, spec: OdooSpec) {
    HasResource(m.w, m.l.key) && StoredSpec(m.w, m.l.key) == spec &&
    if Phase(m.l.pc) >= 16 then Untouched(secrets, m.w, SecretKind) && StillToLose(m.l.pc)
    else !HoldsPassword(m.w, ConfigId(m.l.key))
  }

  /** A resource whose admin secret is its configuration secret, with a password in it and a
      configuration that can be computed. */
  ghost predicate AboutToLose(w: World, key: Key, spec: OdooSpec) {
    AdminKey(key, spec) == ConfigKey(key) && HoldsPassword(w, ConfigId(key)) && Wanted(w, key, spec).Ok?
  }

  lemma SameSecrets(w: World, w': World, key: Key, spec: OdooSpec)
    requires Untouched(w, w', SecretKind) && AboutToLose(w, key, spec)
    ensures AboutToLose(w', key, spec) && Liveness.DetailsIn(w', key, spec).Ok?
  {
    hide DbRef, AdminKey, ConfigData;
    forall k ensures SecretIn(w', k) == SecretIn(w, k) {
      assert At(w', Id(SecretKind, k)) == At(w, Id(SecretKind, k));
    }
    assert At(w', ConfigId(key)) == At(w, ConfigId(key));
    Watch.DetailsDependOnRefs(spec.database, key.namespace, SecretsOf(w), SecretsOf(w'), 0, NO_DETAILS);
  }

  lemma IsSelfReferring(w: World, key: Key, spec: OdooSpec)
    requires AboutToLose(w, key, spec)
    ensures SelfReferring(key, spec)
  {
    hide AdminKey, DbRef;
  }

  // ---- The steps up to the write ----

  lemma LookupLoses(w: World, l: Local, ch: Choice)
    requires l.pc.AdminGet? && Honest(w, CallOf(l), ch) && HoldsPassword(w, AdminId(l))
    ensures var l' := OwnStep(w, l, ch).1;
            l'.pc.AdminGenerate? && l'.pc.found.Some? && PASSWORD in l'.pc.found.value.data
  {
    hide AfterField, AfterConfigGet, AfterServiceGet, AfterJobGet, AfterDeployGet, AfterFetch, AdminKey;
  }

  lemma GenerateLoses(w: World, l: Local, ch: Choice)
    requires l.pc.AdminGenerate? && Honest(w, CallOf(l), ch)
    requires l.pc.found.Some? && PASSWORD in l.pc.found.value.data
    ensures OwnStep(w, l, ch).1.pc.AdminStatus?
  {
    hide AfterField, AfterConfigGet, AfterServiceGet, AfterJobGet, AfterDeployGet, AfterFetch, AdminKey;
  }

  lemma StatusLoses(l: Local, r: Response)
    requires l.pc.AdminStatus?
    ensures Continue(l, r).pc.ConfigGet?
  {
    hide AfterField;
  }

  lemma GetLoses(w: World, l: Local, ch: Choice)
    requires l.pc.ConfigGet? && Honest(w, CallOf(l), ch) && HoldsAdmin(l) && WellTyped(w)
    ensures OwnStep(w, l, ch).1.pc.DbRead?
  {
    hide AfterField, AfterAdminGenerate, AfterServiceGet, AfterJobGet, AfterDeployGet, AfterFetch;
  }

  /** The read of the last field leads to a write: what is stored is never what is wanted. */
  lemma ReadLoses(m: System, ch: Choice)
    requires Sound(m) && Knows(true, m.w, m.l) && m.l.pc.DbRead? && Honest(m.w, CallOf(m.l), ch)
    requires AboutToLose(m.w, m.l.key, m.l.mem.spec) && Liveness.DetailsIn(m.w, m.l.key, m.l.mem.spec).Ok?
    ensures var (w', l') := OwnStep(m.w, m.l, ch); w' == m.w && (l'.pc.DbRead? || l'.pc.ConfigPut?)
  {
    TypedNow(m);
    ReadParts(m);
    IsSelfReferring(m.w, m.l.key, m.l.mem.spec);
    hide Continue, CallOf, Serve, Inv, InStep, Aligned, Synced, Meets, Honest, Knows, Reading, SelfReferring;
    DbReadPoints(m.w, m.l, ch);
    Liveness.ReadGoesOn(m.w, m.l, ch);
    AlsoAmongJobs(m.w, m.l);
    SelfReference.SelfRead(m.w, m.l, ch);
  }

  lemma ReadParts(m: System)
    requires Sound(m) && Knows(true, m.w, m.l) && m.l.pc.DbRead?
    ensures Meets(m.w, m.l) && HoldsAdmin(m.l) && Reading(m.w, m.l, m.l.pc.i, m.l.pc.details)
  {
    hide Inv, InStep, Aligned, Synced, Reading, Slotted;
  }

  lemma AlsoAmongJobs(w: World, l: Local)
    requires Knows(true, w, l) && l.pc.DbRead?
    ensures Knows(false, w, l)
  {
    hide Reading, Slotted, AdminStored;
  }

  lemma WriteLoses(m: System, ch: Choice)
    requires Sound(m) && Knows(true, m.w, m.l) && m.l.pc.ConfigPut? && Honest(m.w, CallOf(m.l), ch)
    ensures var (w', l') := OwnStep(m.w, m.l, ch); l'.pc.ConfigStatus? && !HoldsPassword(w', ConfigId(m.l.key))
  {
    hide AfterField, AfterAdminGenerate, AfterServiceGet, AfterJobGet, AfterDeployGet, AfterFetch, AfterConfigGet;
    hide Inv, InStep, Aligned, Synced, Wanted;
    NoPasswordWanted(m.w, m.l.key, m.l.mem.spec);
  }

  lemma NoPasswordWanted(w: World, key: Key, spec: OdooSpec)
    ensures Wanted(w, key, spec).Ok? ==> PASSWORD !in Wanted(w, key, spec).value
  {
    hide AdminKey, GetDbConnectionDetails;
    assert PASSWORD[0] != CONF_FILE[0];
  }

  // ---- Whole passes ----

  /** Only two steps write secrets. */
  lemma SecretsElsewhere(m: System, ch: Choice)
    requires Inv(m) && !m.l.pc.AdminPut? && !m.l.pc.ConfigPut?
    ensures Untouched(m.w, OwnStep(m.w, m.l, ch).0, SecretKind)
  {
    hide Continue, CallOf, Serve;
    SecretTargets(m);
    StepUntouched(m.w, m.l, ch, SecretKind);
  }

  lemma LaterLoses(m: System, ch: Choice, secrets: World, spec: OdooSpec)
    requires Inv(m) && Losing(m, secrets, spec) && Phase(m.l.pc) < 16
    ensures var (w', l') := OwnStep(m.w, m.l, ch); Phase(l'.pc) < 16 && !HoldsPassword(w', ConfigId(m.l.key))
  {
    hide Continue, CallOf, Serve, Inv;
    SecretsElsewhere(m, ch);
    var (w', r) := Serve(m.w, CallOf(m.l), ch);
    assert At(w', ConfigId(m.l.key)) == At(m.w, ConfigId(m.l.key));
    if m.l.pc.Idle? {
      IdleStays(m.l, r);
    } else {
      StepNearer(m.l, r);
    }
  }

  /** The specification in memory serves as well as the stored one. */
  lemma MemoryServes(m: System)
    requires Sound(m) && Active(m.l.pc)
    ensures AdminKey(m.l.key, m.l.mem.spec) == AdminKey(m.l.key, StoredSpec(m.w, m.l.key))
    ensures !Early(m.l.pc) ==> m.l.mem.spec == StoredSpec(m.w, m.l.key)
  {
    hide Inv, Meets, Aligned, HoldsAdmin;
  }

  lemma AdminPhaseLoses(m: System, ch: Choice)
    requires Sound(m) && Honest(m.w, CallOf(m.l), ch) && StillToLose(m.l.pc)
    requires m.l.pc.Fetch? || m.l.pc.AdminGet? || m.l.pc.AdminGenerate? || m.l.pc.AdminStatus?
    requires Active(m.l.pc) ==> HoldsPassword(m.w, AdminId(m.l))
    ensures StillToLose(OwnStep(m.w, m.l, ch).1.pc)
  {
    hide Continue, CallOf, Serve, Inv, InStep, Aligned, Meets, Honest, HoldsAdmin, Synced, AdminKey, HoldsPassword;
    match m.l.pc
    case Fetch => FetchPoints(m, ch);
    case AdminGet => LookupLoses(m.w, m.l, ch);
    case AdminGenerate(_) => GenerateLoses(m.w, m.l, ch);
    case AdminStatus => StatusLoses(m.l, Serve(m.w, CallOf(m.l), ch).1);
  }

  lemma ConfigPhaseLoses(m: System, ch: Choice)
    requires Sound(m) && Knows(true, m.w, m.l) && Honest(m.w, CallOf(m.l), ch)
    requires m.l.pc.ConfigGet? || m.l.pc.DbRead?
    requires AboutToLose(m.w, m.l.key, m.l.mem.spec) && Liveness.DetailsIn(m.w, m.l.key, m.l.mem.spec).Ok?
    ensures StillToLose(OwnStep(m.w, m.l, ch).1.pc)
  {
    hide Continue, CallOf, Serve, Inv, InStep, Aligned, Meets, Honest, Knows, HoldsAdmin, Synced, AboutToLose;
    TypedNow(m);
    AdminHere(m);
    if m.l.pc.ConfigGet? {
      GetLoses(m.w, m.l, ch);
    } else {
      ReadLoses(m, ch);
    }
  }

  lemma EarlierLoses(m: System, ch: Choice, secrets: World, spec: OdooSpec)
    requires Sound(m) && Knows(true, m.w, m.l) && Honest(m.w, CallOf(m.l), ch)
    requires Losing(m, secrets, spec) && Phase(m.l.pc) >= 16 && AboutToLose(secrets, m.l.key, spec)
    ensures var (w', l') := OwnStep(m.w, m.l, ch);
            if m.l.pc.ConfigPut? then Phase(l'.pc) < 16 && !HoldsPassword(w', ConfigId(m.l.key))
            else Untouched(m.w, w', SecretKind) && StillToLose(l'.pc)
  {
    hide Continue, CallOf, Serve, Sound, Honest, Knows, AdminKey, Wanted, HoldsPassword, Liveness.DetailsIn;
    SoundHere(m);
    SameSecrets(secrets, m.w, m.l.key, spec);
    if Active(m.l.pc) {
      MemoryServes(m);
    }
    if m.l.pc.ConfigPut? {
      WriteLoses(m, ch);
    } else {
      SecretsElsewhere(m, ch);
      if m.l.pc.ConfigGet? || m.l.pc.DbRead? {
        ConfigPhaseLoses(m, ch);
      } else {
        AdminPhaseLoses(m, ch);
      }
    }
  }

  lemma AdminHere(m: System)
    requires Sound(m)
    ensures HoldsAdmin(m.l)
  {
    hide Inv, InStep, Meets, Aligned, HoldsAdmin;
  }

  lemma StepLoses(m: System, ch: Choice, secrets: World, spec: OdooSpec)
    requires Sound(m) && Knows(true, m.w, m.l) && Honest(m.w, CallOf(m.l), ch)
    requires Losing(m, secrets, spec) && AboutToLose(secrets, m.l.key, spec)
    ensures Losing(Apply(m, Own(ch)), secrets, spec)
  {
    hide Continue, CallOf, Serve, Inv, InStep, Aligned, Meets, Honest, Knows, HoldsAdmin, AboutToLose, Phase;
    SoundHere(m);
    InStepHere(m);
    OwnMoves(m, ch);
    KeyStays(m, Own(ch));
    OwnLists(m, ch);
    if Phase(m.l.pc) >= 16 {
      EarlierLoses(m, ch, secrets, spec);
    } else {
      LaterLoses(m, ch, secrets, spec);
    }
  }

  lemma InStepHere(m: System)
    requires Sound(m)
    ensures InStep(m.w, m.l)
  {
    hide Inv, InStep, Meets, Aligned, HoldsAdmin;
  }

  lemma {:induction false} RunLoses(m: System, labels: seq<Label>, spec: OdooSpec)
    requires Sound(m) && m.l.pc.Fetch? && HasResource(m.w, m.l.key) && spec == StoredSpec(m.w, m.l.key)
    requires AboutToLose(m.w, m.l.key, spec) && HonestRun(m, labels)
    ensures Losing(RunAll(m, labels), m.w, spec)
  {
    hide Apply, Sound, Knows, Reasoned, HonestLabel, Losing, AboutToLose;
    if labels == [] {
      LosingBegins(m);
    } else {
      var front, a := labels[..|labels| - 1], labels[|labels| - 1];
      RunLoses(m, front, spec);
      RunReasoned(m, front, Convergence.TrackOf(m.w, m.l.key));
      HonestParts(RunAll(m, front), a);
      StepLoses(RunAll(m, front), a.choice, m.w, spec);
    }
  }

  lemma LosingBegins(m: System)
    requires m.l.pc.Fetch? && HasResource(m.w, m.l.key)
    ensures Losing(m, m.w, StoredSpec(m.w, m.l.key))
  {
  }

  /** If the admin secret is the configuration secret, holds a password, and the configuration can
      be computed, every whole pass without faults ends with the password gone. */
  lemma HonestPassDropsPassword(m: System, labels: seq<Label>)
    requires Inv(m) && m.l.pc.Fetch? && HasResource(m.w, m.l.key) && m.l.key.namespace != ""
    requires StoredSpec(m.w, m.l.key).config.adminPasswordSecretName == m.l.key.name + "-config"
    requires HoldsPassword(m.w, AdminSecret(m.l.key, StoredSpec(m.w, m.l.key)))
    requires Wanted(m.w, m.l.key, StoredSpec(m.w, m.l.key)).Ok?
    requires HonestRun(m, labels) && RunAll(m, labels).l.pc.Idle?
    ensures !HoldsPassword(RunAll(m, labels).w, AdminSecret(m.l.key, StoredSpec(m.w, m.l.key)))
  {
    hide Apply, Sound, HonestRun, RunAll, Inv, Wanted, AdminKey;
    var spec := StoredSpec(m.w, m.l.key);
    AdminIsConfigExactly(m.l.key, spec);
    BeginSound(m);
    RunLoses(m, labels, spec);
    RunReasoned(m, labels, Convergence.TrackOf(m.w, m.l.key));
  }

  /** A run in which others leave the init Job, the status and this secret alone. */
  ghost predicate SparingRun(key: Key, labels: seq<Label>, id: Id) {
    ConsiderateRun(key, labels) && forall i :: 0 <= i < |labels| ==> Spares(id, labels[i])
  }

  lemma {:induction false} HonestSpares(m: System, labels: seq<Label>, key: Key, id: Id)
    requires HonestRun(m, labels)
    ensures SparingRun(key, labels, id)
  {
    hide Apply, RunAll;
    if labels != [] {
      HonestSpares(m, labels[..|labels| - 1], key, id);
    }
  }

  /** The admin secret of a resource that can be configured keeps its password in every run that
      spares it, if and only if the user does not name the configuration secret as admin secret. */
  lemma AdminPasswordStaysExactly(m: System)
    requires Inv(m) && m.l.pc.Fetch? && HasResource(m.w, m.l.key) && m.l.key.namespace != ""
    requires HoldsPassword(m.w, AdminSecret(m.l.key, StoredSpec(m.w, m.l.key)))
    requires Wanted(m.w, m.l.key, StoredSpec(m.w, m.l.key)).Ok?
    ensures var id := AdminSecret(m.l.key, StoredSpec(m.w, m.l.key));
            (forall labels :: SparingRun(m.l.key, labels, id) ==> HoldsPassword(RunAll(m, labels).w, id)) <==>
            StoredSpec(m.w, m.l.key).config.adminPasswordSecretName != m.l.key.name + "-config"
  {
    hide Apply, RunAll, Inv, Wanted, AdminKey, HonestRun, ConsiderateRun;
    var spec := StoredSpec(m.w, m.l.key);
    var id := AdminSecret(m.l.key, spec);
    AdminIsConfigExactly(m.l.key, spec);
    if AdminKey(m.l.key, spec) == ConfigKey(m.l.key) {
      SomeHonestPass(m);
      var labels :| HonestRun(m, labels) && RunAll(m, labels).l.pc.Idle?;
      HonestSpares(m, labels, m.l.key, id);
      HonestPassDropsPassword(m, labels);
      assert !(SparingRun(m.l.key, labels, id) ==> HoldsPassword(RunAll(m, labels).w, id));
    } else {
      forall labels | SparingRun(m.l.key, labels, id) ensures HoldsPassword(RunAll(m, labels).w, id) {
        PasswordStays(m, labels, id);
      }
    }
  }

  // ---- The password that is drawn ----

  lemma {:induction false} HonestAt(m: System, labels: seq<Label>, i: nat)
    requires HonestRun(m, labels) && i < |labels|
    ensures HonestLabel(RunAll(m, labels[..i]), labels[i])
    ensures RunAll(m, labels[..i + 1]) == Apply(RunAll(m, labels[..i]), labels[i])
    decreases |labels|
  {
    hide Apply, HonestLabel;
    var front := labels[..|labels| - 1];
    if i < |labels| - 1 {
      HonestAt(m, front, i);
      assert front[..i] == labels[..i] && front[..i + 1] == labels[..i + 1];
    } else {
      assert labels[..i + 1] == labels;
    }
  }

  /** The first steps of a pass that finds no password. */
  ghost predicate Drawing(w: World, l: Local, key: Key, spec: OdooSpec, drawn: string) {
    var id := AdminSecret(key, spec);
    l.key == key && AdminId(l) == id && WellTyped(w) && !HoldsPassword(w, id) &&
    match l.pc
    case AdminGet => true
    case AdminGenerate(found) => Slotted(w, id, found)
    case AdminPut(write, data) => Fits(w, id, write) && data == map["password" := drawn]
    case _ => false
  }

  lemma FetchDraws(m: System, ch: Choice, drawn: string)
    requires WellTyped(m.w) && HasResource(m.w, m.l.key) && m.l.pc.Fetch? && Honest(m.w, CallOf(m.l), ch)
    requires !HoldsPassword(m.w, AdminSecret(m.l.key, StoredSpec(m.w, m.l.key)))
    ensures var n := Apply(m, Own(ch));
            n.l.pc.AdminGet? && Drawing(n.w, n.l, m.l.key, StoredSpec(m.w, m.l.key), drawn)
  {
    hide AfterField, AfterConfigGet, AfterServiceGet, AfterJobGet, AfterDeployGet;
  }

  lemma LookupDraws(m: System, ch: Choice, spec: OdooSpec, drawn: string)
    requires m.l.pc.AdminGet? && Drawing(m.w, m.l, m.l.key, spec, drawn) && Honest(m.w, CallOf(m.l), ch)
    ensures var n := Apply(m, Own(ch)); n.l.pc.AdminGenerate? && Drawing(n.w, n.l, m.l.key, spec, drawn)
  {
    hide AfterField, AfterConfigGet, AfterServiceGet, AfterJobGet, AfterDeployGet, AfterFetch, AdminKey;
  }

  lemma GenerateDraws(m: System, ch: Choice, spec: OdooSpec)
    requires m.l.pc.AdminGenerate? && Drawing(m.w, m.l, m.l.key, spec, ch.password) && Honest(m.w, CallOf(m.l), ch)
    ensures var n := Apply(m, Own(ch)); n.l.pc.AdminPut? && Drawing(n.w, n.l, m.l.key, spec, ch.password)
  {
    hide AfterField, AfterConfigGet, AfterServiceGet, AfterJobGet, AfterDeployGet, AfterFetch, AdminKey;
  }

  lemma PutDraws(m: System, ch: Choice, spec: OdooSpec, drawn: string)
    requires m.l.pc.AdminPut? && Drawing(m.w, m.l, m.l.key, spec, drawn) && Honest(m.w, CallOf(m.l), ch)
    ensures At(Apply(m, Own(ch)).w, AdminSecret(m.l.key, spec)).body == Some(SecretBody(map["password" := drawn]))
  {
    hide Continue, AdminKey;
  }

  lemma FirstFour(m: System, labels: seq<Label>)
    requires Inv(m) && m.l.pc.Fetch? && HasResource(m.w, m.l.key) && HonestRun(m, labels) && |labels| == 4
    requires !HoldsPassword(m.w, AdminSecret(m.l.key, StoredSpec(m.w, m.l.key)))
    ensures labels[2].Own? &&
            At(RunAll(m, labels).w, AdminSecret(m.l.key, StoredSpec(m.w, m.l.key))).body ==
              Some(SecretBody(map["password" := labels[2].choice.password]))
  {
    hide Apply, RunAll, HonestRun, HoldsPassword, AdminKey, Drawing, Honest, CallOf;
    forall i | 0 <= i < 4
      ensures HonestLabel(RunAll(m, labels[..i]), labels[i])
      ensures RunAll(m, labels[..i + 1]) == Apply(RunAll(m, labels[..i]), labels[i])
    {
      HonestAt(m, labels, i);
    }
    NoLabels(m);
    TypedNow(m);
    assert labels[..0] == [] && labels[..4] == labels;
    HonestParts(RunAll(m, labels[..2]), labels[2]);
    var spec, drawn := StoredSpec(m.w, m.l.key), labels[2].choice.password;
    FetchDraws(m, labels[0].choice, drawn);
    var one, two, three := RunAll(m, labels[..1]), RunAll(m, labels[..2]), RunAll(m, labels[..3]);
    KeyStays(m, labels[0]);
    LookupDraws(one, labels[1].choice, spec, drawn);
    KeyStays(one, labels[1]);
    GenerateDraws(two, labels[2].choice, spec);
    KeyStays(two, labels[2]);
    PutDraws(three, labels[3].choice, spec, drawn);
  }

  lemma NoLabels(m: System)
    ensures RunAll(m, []) == m
  {
  }

  lemma RestSpares(key: Key, first: seq<Label>, rest: seq<Label>, id: Id)
    requires SparingRun(key, first + rest, id)
    ensures SparingRun(key, rest, id)
  {
    forall i | 0 <= i < |rest| ensures ConsiderateLabel(key, rest[i]) && Spares(id, rest[i]) {
      assert (first + rest)[|first| + i] == rest[i];
    }
  }

  /** A pass without faults that finds no password stores exactly the one it draws, in its third step,
      and ends with it in place. */
  lemma DrawnPasswordIsKept(m: System, labels: seq<Label>)
    requires Inv(m) && m.l.pc.Fetch? && HasResource(m.w, m.l.key)
    requires StoredSpec(m.w, m.l.key).config.adminPasswordSecretName != m.l.key.name + "-config"
    requires !HoldsPassword(m.w, AdminSecret(m.l.key, StoredSpec(m.w, m.l.key)))
    requires HonestRun(m, labels) && |labels| >= 4
    ensures labels[2].Own? &&
            At(RunAll(m, labels).w, AdminSecret(m.l.key, StoredSpec(m.w, m.l.key))).body ==
              Some(SecretBody(map["password" := labels[2].choice.password]))
  {
    hide Apply, RunAll, HonestRun, Inv, AdminKey, ConsiderateRun;
    var spec, first, rest := StoredSpec(m.w, m.l.key), labels[..4], labels[4..];
    var id := AdminSecret(m.l.key, spec);
    AdminIsConfigExactly(m.l.key, spec);
    assert first + rest == labels;
    HonestFront(m, labels, 4);
    FirstFour(m, first);
    HonestSpares(m, labels, m.l.key, id);
    HonestSpares(m, first, m.l.key, id);
    RestSpares(m.l.key, first, rest, id);
    RunJoin(m, first, rest);
    RunKeepsInv(m, first);
    FetchedKnown(m, first);
    PasswordStays(RunAll(m, first), rest, id);
  }

  lemma {:induction false} HonestFront(m: System, labels: seq<Label>, i: nat)
    requires HonestRun(m, labels) && i <= |labels|
    ensures HonestRun(m, labels[..i])
    decreases |labels|
  {
    hide Apply, HonestLabel;
    if i < |labels| {
      var front := labels[..|labels| - 1];
      HonestFront(m, front, i);
      assert front[..i] == labels[..i];
    } else {
      assert labels[..i] == labels;
    }
  }

  lemma {:induction false} FetchedKnown(m: System, labels: seq<Label>)
    requires m.l.pc.Fetch?
    ensures AdminKnown(RunAll(m, labels).w, RunAll(m, labels).l)
  {
    hide Apply;
    if labels != [] {
      FetchedKnown(m, labels[..|labels| - 1]);
      StepAdminKnown(RunAll(m, labels[..|labels| - 1]), labels[|labels| - 1]);
    }
  }
}
