// A whole pass whose requests all succeed and during which nobody else acts: what it does to
// the installation, why it can fail, and that it ends.
module HonestPass {
  import opened Types
  import opened ModuleLists
  import opened Templates
  import opened Api
  import opened Machine
  import opened Safety
  import opened History
  import opened Convergence
  import opened Fixpoint
  import opened Simulation
  import Watch

  /** Only the pass acts, and every request is answered without a fault. */
  ghost predicate HonestRun(m: System, labels: seq<Label>) {
    labels == [] ||
    (HonestRun(m, labels[..|labels| - 1]) && HonestLabel(RunAll(m, labels[..|labels| - 1]), labels[|labels| - 1]))
  }

  ghost predicate HonestLabel(m: System, a: Label) {
    a.Own? && Honest(m.w, CallOf(m.l), a.choice)
  }

  lemma HonestParts(m: System, a: Label)
    requires HonestLabel(m, a)
    ensures a == Own(a.choice) && Honest(m.w, CallOf(m.l), a.choice)
  {
  }

  lemma HonestSnoc(m: System, labels: seq<Label>, a: Label)
    requires HonestRun(m, labels) && HonestLabel(RunAll(m, labels), a)
    ensures HonestRun(m, labels + [a])
  {
    hide HonestLabel;
    assert (labels + [a])[..|labels|] == labels;
  }

  lemma {:induction false} HonestIsUndisturbed(m: System, labels: seq<Label>)
    requires HonestRun(m, labels)
    ensures Undisturbed(labels) && Unedited(labels)
  {
    hide Apply, RunAll;
    if labels != [] {
      HonestIsUndisturbed(m, labels[..|labels| - 1]);
    }
  }

  lemma {:induction false} HonestHasNoStart(m: System, labels: seq<Label>)
    requires HonestRun(m, labels)
    ensures NoStart(labels)
  {
    hide Apply, RunAll;
    if labels != [] {
      HonestHasNoStart(m, labels[..|labels| - 1]);
    }
  }

  // ---- Why it can fail ----

  predicate CannotConfigure(w: World, key: Key)
    requires HasResource(w, key)
  {
    Wanted(w, key, StoredSpec(w, key)).Err?
  }

  /** Modules are missing while a Job exists that the pass neither waits for nor cleans up. */
  predicate CannotCreate(t: Track) {
    !t.Done() && t.job.Some? && (t.Recorded() ==> t.job == Some(PENDING))
  }

  /** The pass that began in `t` has acted as `acts` says; where it fails, there is a reason. */
  ghost predicate Reasoned(m: System, t: Track, acts: seq<Act>)
    requires HasResource(m.w, m.l.key)
  {
    Current(m.w, m.l) == DoAll(t, acts) &&
    (m.l.pc.JobCreate? ==>
      !t.Done() && (t.Recorded() ==> t.job == Some(PENDING)) && (Passed(m.w, m.l) ==> t.job.Some?)) &&
    if !Passed(m.w, m.l) then acts == []
    else
      (acts == [DoPass] && (Failing(m.l.pc) ==> CannotCreate(t))) ||
      (acts == [] && Failing(m.l.pc) && CannotConfigure(m.w, m.l.key))
  }

  predicate Failing(pc: Pc) {
    pc.Fail? || (pc.Idle? && pc.failed)
  }

  lemma DeployPoints(w: World, l: Local, ch: Choice)
    requires Knows(true, w, l) && WellTyped(w) && Honest(w, CallOf(l), ch)
    requires l.pc.DeployGet? || l.pc.DeployPut?
    ensures After(OwnStep(w, l, ch).1.pc)
  {
    hide AfterField, AfterAdminGenerate, AfterServiceGet, AfterJobGet, AfterFetch, AfterConfigGet, Prepared, Installed;
    hide DeploymentTemplate;
  }

  lemma ServicePoints(w: World, l: Local, ch: Choice)
    requires Knows(true, w, l) && WellTyped(w) && Honest(w, CallOf(l), ch)
    requires l.pc.ServiceGet? || l.pc.ServicePut?
    ensures After(OwnStep(w, l, ch).1.pc)
  {
    hide AfterField, AfterAdminGenerate, AfterDeployGet, AfterJobGet, AfterFetch, AfterConfigGet, Prepared, Installed;
    hide DeploymentTemplate, ServiceTemplate;
  }

  /** A field cannot be read only if the details cannot be computed. */
  lemma FieldRefused(w: World, l: Local, i: nat, d: ConnectionDetails, field: Result<ConnectionDetails, DbError>,
                     found: Option<Stored>)
    requires AdminStored(w, l) && Reading(w, l, i, d)
    requires var db := l.mem.spec.database;
             field == Field(d, db, i, SecretsOf(w)(Key(l.key.namespace, DbRef(db, i).name)))
    ensures AfterField(l, i, field, found).pc.Fail? ==> Wanted(w, l.key, l.mem.spec).Err?
  {
    hide Field, DbRef, AdminKey, ConfigData;
  }

  lemma DbReadRefused(w: World, l: Local, ch: Choice)
    requires Knows(true, w, l) && WellTyped(w) && Honest(w, CallOf(l), ch) && l.pc.DbRead?
    ensures var (w', l') := OwnStep(w, l, ch); l'.pc.Fail? ==> Wanted(w', l.key, l.mem.spec).Err?
  {
    hide AfterField, ReadField, Field, Reading, AdminStored, Slotted, SecretsOf, DbRef, Wanted;
    var r := Serve(w, CallOf(l), ch).1;
    FieldRead(w, l, ch);
    FieldRefused(w, l, l.pc.i, l.pc.details, ReadField(l, l.pc.i, l.pc.details, r), l.pc.found);
  }

  /** A status write that is accepted leads to no failure. */
  lemma WrittenPoints(l: Local, r: Response)
    requires StatusStep(l.pc) && r.Written? && !l.pc.Fail? && !l.pc.ConfigNoPassword?
    ensures !Failing(Continue(l, r).pc)
  {
    hide AfterField, AfterAdminGenerate, AfterDeployGet, AfterJobGet, AfterFetch, AfterConfigGet, AfterServiceGet;
  }

  lemma FailPoints(l: Local, r: Response)
    requires l.pc.Fail?
    ensures Failing(Continue(l, r).pc)
  {
    hide AfterField, AfterAdminGenerate, AfterDeployGet, AfterJobGet, AfterFetch, AfterConfigGet, AfterServiceGet;
  }

  /** The steps on the way to the Job do not fail, and come to a creation only when no recorded
      Job tells otherwise. */
  lemma LookupPoints(m: System, ch: Choice)
    requires Sound(m) && Honest(m.w, CallOf(m.l), ch) && m.l.pc.JobGet?
    ensures var m' := Apply(m, Own(ch)); var t := TrackOf(m.w, m.l.key);
            !Failing(m'.l.pc) && (m'.l.pc.JobCreate? ==> t.Recorded() ==> t.job == Some(PENDING))
  {
    hide AfterField, AfterAdminGenerate, AfterServiceGet, AfterDeployGet, AfterFetch, AfterConfigGet, CallOf, Serve;
    hide Inv, InStep, HoldsAdmin, Decide, Honest;
    JobLookup(m, ch);
    DecidePlain(m.l);
  }

  lemma EntryPoints(m: System, ch: Choice)
    requires Sound(m) && m.l.pc.ClaimStatus?
    ensures var m' := Apply(m, Own(ch)); var t := TrackOf(m.w, m.l.key);
            !Failing(m'.l.pc) && (m'.l.pc.JobCreate? ==> !t.Recorded())
  {
    hide AfterField, AfterAdminGenerate, AfterServiceGet, AfterDeployGet, AfterFetch, AfterConfigGet, CallOf, Serve;
    hide Inv, InStep, HoldsAdmin, Difference, AfterJobGet;
    StatusStepLocal(m.l, Nothing);
    StatusAnswer(m.w, m.l, ch);
  }

  lemma CleanupPoints(m: System, ch: Choice)
    requires Sound(m) && Honest(m.w, CallOf(m.l), ch) && (m.l.pc.PodsList? || m.l.pc.Cleanup?)
    ensures var pc := Apply(m, Own(ch)).l.pc; !Failing(pc) && !pc.JobCreate?
  {
    hide AfterField, AfterAdminGenerate, AfterServiceGet, AfterDeployGet, AfterFetch, AfterConfigGet, AfterJobGet;
    hide Inv, InStep, HoldsAdmin, Difference;
  }

  lemma FetchPoints(m: System, ch: Choice)
    requires Sound(m) && Honest(m.w, CallOf(m.l), ch) && m.l.pc.Fetch?
    ensures Apply(m, Own(ch)).l.pc.AdminGet?
  {
    hide AfterField, Inv, InStep;
  }

  /** Only from the record does a pass come to a creation. */
  lemma CreateSources(l: Local, r: Response)
    requires StatusStep(l.pc) && !l.pc.ClaimStatus? && !l.pc.ConfigNoPassword?
    ensures !Continue(l, r).pc.JobCreate?
  {
    hide AfterField, AfterAdminGenerate, AfterDeployGet, AfterJobGet, AfterFetch, AfterConfigGet, AfterServiceGet;
  }

  /** A step either keeps the failure it found or fails for a reason of its own. */
  ghost predicate KeepsReason(m: System, m': System)
    requires HasResource(m.w, m.l.key) && HasResource(m'.w, m.l.key)
  {
    (m'.l.pc.JobCreate? ==> var t := TrackOf(m.w, m.l.key); t.Recorded() ==> t.job == Some(PENDING)) &&
    (Failing(m'.l.pc) ==>
      (m.l.pc.DbRead? && CannotConfigure(m'.w, m.l.key)) || (m.l.pc.JobCreate? && Exists(m.w, JobId(m.l.key))) ||
      (Failing(m.l.pc) && (CannotConfigure(m.w, m.l.key) ==> CannotConfigure(m'.w, m.l.key))))
  }

  lemma ChildReasons(m: System, ch: Choice)
    requires Sound(m) && Knows(true, m.w, m.l) && Honest(m.w, CallOf(m.l), ch)
    requires ChildStep(m.l.pc) && !m.l.pc.PodsList? && !m.l.pc.Cleanup?
    ensures var m' := Apply(m, Own(ch)); HasResource(m'.w, m.l.key) && KeepsReason(m, m')
  {
    hide Continue, CallOf, Serve, Inv, InStep, HoldsAdmin, Aligned, Meets, Knows, Wanted, Honest, Difference;
    TypedNow(m);
    ElsewhereFrame(m, ch);
    ChildPoints(m.w, m.l, ch);
    if m.l.pc.DbRead? {
      DbReadRefused(m.w, m.l, ch);
    } else if m.l.pc.DeployGet? || m.l.pc.DeployPut? {
      DeployPoints(m.w, m.l, ch);
    } else if m.l.pc.ServiceGet? || m.l.pc.ServicePut? {
      ServicePoints(m.w, m.l, ch);
    }
  }

  lemma WantedSame(w: World, w': World, key: Key, spec: OdooSpec)
    requires forall id :: id != OdooId(key) ==> At(w', id) == At(w, id)
    ensures Wanted(w', key, spec) == Wanted(w, key, spec)
  {
    hide DbRef;
    forall k ensures SecretIn(w', k) == SecretIn(w, k) {
      assert At(w', Id(SecretKind, k)) == At(w, Id(SecretKind, k));
    }
    Watch.DetailsDependOnRefs(spec.database, key.namespace, SecretsOf(w), SecretsOf(w'), 0, NO_DETAILS);
  }

  lemma StatusReasons(m: System, ch: Choice)
    requires Sound(m) && Honest(m.w, CallOf(m.l), ch) && StatusStep(m.l.pc)
    ensures var m' := Apply(m, Own(ch)); HasResource(m'.w, m.l.key) && KeepsReason(m, m')
  {
    NoPasswordHere(m);
    hide Continue, CallOf, Serve, Inv, InStep, HoldsAdmin, Aligned, Meets, Wanted, Honest, Difference, Refreshed;
    var (w', r) := Serve(m.w, CallOf(m.l), ch);
    HonestStatus(m.w, m.l, ch);
    WantedSame(m.w, w', m.l.key, StoredSpec(m.w, m.l.key));
    if m.l.pc.ClaimStatus? {
      EntryPoints(m, ch);
    } else {
      CreateSources(m.l, r);
      if !m.l.pc.Fail? {
        WrittenPoints(m.l, r);
      }
    }
  }

  lemma NoPasswordHere(m: System)
    requires Sound(m)
    ensures !m.l.pc.ConfigNoPassword?
  {
    hide Inv, InStep, Meets, Aligned;
  }

  lemma CreateReasons(m: System, ch: Choice)
    requires Sound(m) && Honest(m.w, CallOf(m.l), ch) && m.l.pc.JobCreate?
    ensures var m' := Apply(m, Own(ch)); HasResource(m'.w, m.l.key) && KeepsReason(m, m')
  {
    JobCreateAnswer(m, ch);
    hide OwnStep, Inv, InStep, HoldsAdmin, Aligned, Meets, Wanted, Honest, Difference;
  }

  lemma OwnReasons(m: System, ch: Choice)
    requires Sound(m) && Knows(true, m.w, m.l) && Honest(m.w, CallOf(m.l), ch)
    ensures var m' := Apply(m, Own(ch)); HasResource(m.w, m.l.key) && HasResource(m'.w, m.l.key) && KeepsReason(m, m')
  {
    hide Continue, CallOf, Serve, Inv, InStep, HoldsAdmin, Aligned, Meets, Knows, Wanted, Honest, Difference, TrackOf;
    PassPoints(m.l.pc);
    OwnMoves(m, ch);
    KeyStays(m, Own(ch));
    match m.l.pc
    case Idle(_, _) => IdleStays(m.l, Serve(m.w, CallOf(m.l), ch).1); IdleWorld(m.w, m.l, ch);
    case Fetch => FetchPoints(m, ch);
    case JobGet => LookupPoints(m, ch);
    case JobCreate => CreateReasons(m, ch);
    case PodsList(_) => CleanupPoints(m, ch);
    case Cleanup(_, _) => CleanupPoints(m, ch);
    case _ =>
      if ChildStep(m.l.pc) {
        ChildReasons(m, ch);
      } else {
        StatusReasons(m, ch);
      }
  }

  lemma FailingStays(m: System, ch: Choice)
    requires Failing(m.l.pc)
    ensures Failing(Apply(m, Own(ch)).l.pc)
  {
    hide Continue, CallOf, Serve;
    var r := Serve(m.w, CallOf(m.l), ch).1;
    if m.l.pc.Fail? {
      FailPoints(m.l, r);
    } else {
      IdleStays(m.l, r);
    }
  }

  /** What a pass that comes to a creation without having acted knows about the Job. */
  lemma ComesToCreate(m: System, ch: Choice)
    requires Sound(m) && Honest(m.w, CallOf(m.l), ch) && Apply(m, Own(ch)).l.pc.JobCreate?
    requires !m.l.pc.JobStatusFirst? && !m.l.pc.JobStatusSecond?
    ensures var m' := Apply(m, Own(ch)); var t := TrackOf(m.w, m.l.key);
            !t.Done() && (Passed(m'.w, m'.l) ==> t.job.Some?)
  {
    hide Continue, CallOf, Serve, InStep, HoldsAdmin, Meets, Honest, Difference, Pass, PcFacts, Justified;
    OwnMoves(m, ch);
    KeyStays(m, Own(ch));
    OwnJobSlot(m, ch);
    if TrackOf(m.w, m.l.key).Done() {
      DoneStays(TrackOf(m.w, m.l.key), DoPass);
    }
    ComesFrom(m, ch);
  }

  lemma StepReasoned(m: System, ch: Choice, t: Track, acts: seq<Act>)
    requires Sound(m) && Knows(true, m.w, m.l) && Honest(m.w, CallOf(m.l), ch)
    requires HasResource(m.w, m.l.key) && Reasoned(m, t, acts)
    ensures var m' := Apply(m, Own(ch)); HasResource(m'.w, m'.l.key) && Reasoned(m', t, acts + ActsOf(m, Own(ch)))
  {
    hide Apply, Sound, Knows, Honest, CallOf, CannotConfigure, TrackOf, TrackWith, Pass;
    var a := Own(ch);
    var m' := Apply(m, a);
    StepMoves(m, a);
    OwnMoves(m, ch);
    OwnReasons(m, ch);
    if Failing(m.l.pc) {
      FailingStays(m, ch);
    }
    if m'.l.pc.JobCreate? {
      ComesFrom(m, ch);
      ComesToCreate(m, ch);
    }
    if m.l.pc.DbRead? {
      ReadPoints(m, ch);
    }
    DoAllConcat(t, acts, ActsOf(m, a));
    assert acts + [] == acts;
    assert [] + [DoPass] == [DoPass];
  }

  lemma ReadPoints(m: System, ch: Choice)
    requires Sound(m) && m.l.pc.DbRead?
    ensures var m' := Apply(m, Own(ch)); Passed(m'.w, m'.l) ==> m'.l.pc.Fail?
  {
    hide Continue, CallOf, Serve, Inv, InStep, HoldsAdmin, Aligned, Slotted;
    DbReadPoints(m.w, m.l, ch);
  }

  /** Points before a creation. */
  lemma ComesFrom(m: System, ch: Choice)
    requires Apply(m, Own(ch)).l.pc.JobCreate?
    ensures !m.l.pc.JobStatusFirst? && !m.l.pc.JobStatusSecond? && !m.l.pc.JobCreate? && !m.l.pc.Cleanup? &&
            !Passed(m.w, m.l)
  {
    hide AfterField, AfterAdminGenerate, AfterFetch, AfterConfigGet, Serve, CallOf;
  }

  // ---- Whole passes ----

  /** What holds all along an honest run. */
  lemma {:induction false} RunReasoned(m: System, labels: seq<Label>, t: Track)
    requires Sound(m) && m.l.pc.Fetch? && HasResource(m.w, m.l.key) && t == TrackOf(m.w, m.l.key)
    requires HonestRun(m, labels)
    ensures var m' := RunAll(m, labels);
            Sound(m') && Knows(true, m'.w, m'.l) && m'.l.key == m.l.key && HasResource(m'.w, m'.l.key) &&
            Reasoned(m', t, ActsRun(m, labels)) && CalmRun(m, labels)
  {
    hide Apply, Sound, Knows, Honest, CallOf, ActsOf, Reasoned;
    if labels == [] {
      BeginReasoned(m);
    } else {
      var front, a := labels[..|labels| - 1], labels[|labels| - 1];
      var n := RunAll(m, front);
      RunReasoned(m, front, t);
      StepReasoned(n, a.choice, t, ActsRun(m, front));
      HonestIsCalm(n, a);
      HonestKnows(n, a);
    }
  }

  lemma BeginReasoned(m: System)
    requires m.l.pc.Fetch? && HasResource(m.w, m.l.key)
    ensures Knows(true, m.w, m.l) && Reasoned(m, TrackOf(m.w, m.l.key), [])
  {
    hide TrackOf;
  }

  lemma HonestIsCalm(m: System, a: Label)
    requires HonestLabel(m, a) && HasResource(m.w, m.l.key)
    ensures Calm(m, a)
  {
    hide Honest, CallOf;
  }

  lemma HonestKnows(m: System, a: Label)
    requires Sound(m) && Knows(true, m.w, m.l) && HonestLabel(m, a)
    ensures var m' := Apply(m, a); Knows(true, m'.w, m'.l) && m'.l.key == m.l.key && Sound(m')
  {
    hide Knows, Honest, CallOf, Inv, InStep, HoldsAdmin, Meets, Aligned, Synced, Continue, Serve;
    StepKnows(true, m, a);
    KeyStays(m, a);
    OwnMoves(m, a.choice);
  }

  lemma PassEnds(m: System, t: Track, acts: seq<Act>)
    requires Sound(m) && HasResource(m.w, m.l.key) && Reasoned(m, t, acts) && m.l.pc.Idle?
    ensures (TrackOf(m.w, m.l.key) == Pass(t) && (m.l.pc.failed ==> CannotCreate(t))) ||
            (TrackOf(m.w, m.l.key) == t && m.l.pc.failed && CannotConfigure(m.w, m.l.key))
  {
    hide Sound, TrackOf, Pass, Wanted, CannotCreate;
    assert DoAll(t, [DoPass]) == Pass(t);
  }

  /** An uninterrupted pass without faults moves the installation as the convergence model says.
      It fails only if modules are missing while a Job stands in the way, or if the configuration
      cannot be computed, in which case the installation stays as it is. */
  lemma PassSimulates(m: System, labels: seq<Label>)
    requires Inv(m) && m.l.pc.Fetch? && HasResource(m.w, m.l.key) && m.l.key.namespace != ""
    requires HonestRun(m, labels) && RunAll(m, labels).l.pc.Idle?
    ensures var m' := RunAll(m, labels); var t := TrackOf(m.w, m.l.key);
            HasResource(m'.w, m.l.key) &&
            ((TrackOf(m'.w, m.l.key) == Pass(t) && (m'.l.pc.failed ==> CannotCreate(t))) ||
             (TrackOf(m'.w, m.l.key) == t && m'.l.pc.failed && CannotConfigure(m'.w, m.l.key)))
  {
    hide Apply, HonestRun, Sound, Pass, TrackOf, CannotCreate, CannotConfigure, Reasoned, Knows;
    var t := TrackOf(m.w, m.l.key);
    BeginSound(m);
    RunReasoned(m, labels, t);
    PassEnds(RunAll(m, labels), t, ActsRun(m, labels));
  }

  // ---- A second pass finishes ----

  /** In a steady store nothing prevents a pass from finishing. */
  lemma FixedNeverFails(m: System, t: Track)
    requires Inv(m) && Fixed(m.w, m.l.key) && t == TrackOf(m.w, m.l.key)
    ensures HasResource(m.w, m.l.key) && !CannotConfigure(m.w, m.l.key) && !CannotCreate(t)
  {
    hide SelfReferring, Difference, DeploymentReady, ServiceReady, PcFacts, Wanted;
  }

  /** A pass that ends without error asks to be called again as its last status write says. */
  lemma EndOfPass(l: Local, r: Response)
    requires !l.pc.Idle? && Continue(l, r).pc.Idle? && !Continue(l, r).pc.failed
    ensures Continue(l, r).pc.after == if l.pc.JobStatusSecond? then l.pc.after else 0
  {
    hide AfterField;
    if l.pc.DbRead? {
      FieldLocalEnd(l, r);
    }
  }

  lemma FieldLocalEnd(l: Local, r: Response)
    requires l.pc.DbRead?
    ensures !Continue(l, r).pc.Idle?
  {
    hide AfterField, ReadField;
    FieldEnd(l, l.pc.i, ReadField(l, l.pc.i, l.pc.details, r), l.pc.found);
  }

  lemma FieldEnd(l: Local, i: nat, field: Result<ConnectionDetails, DbError>, found: Option<Stored>)
    ensures !AfterField(l, i, field, found).pc.Idle?
  {
    hide ConfigData;
  }

  ghost predicate Finishing(m: System) {
    Fixed(m.w, m.l.key) && Still(m.w, m.l) && (m.l.pc.Idle? && !m.l.pc.failed ==> m.l.pc.after == 0)
  }

  lemma StepFinishing(m: System, ch: Choice)
    requires Inv(m) && InStep(m.w, m.l) && Knows(true, m.w, m.l) && Finishing(m)
    ensures Finishing(Apply(m, Own(ch)))
  {
    hide Continue, CallOf, Knows, Fixed, StillMemory, Inv, InStep;
    StepStill(m, Own(ch));
    KeyStays(m, Own(ch));
    var r := Serve(m.w, CallOf(m.l), ch).1;
    if m.l.pc.Idle? {
      IdleStays(m.l, r);
    } else if Continue(m.l, r).pc.Idle? && !Continue(m.l, r).pc.failed {
      EndOfPass(m.l, r);
    }
  }

  lemma {:induction false} RunFinishing(m: System, labels: seq<Label>, t: Track)
    requires Sound(m) && m.l.pc.Fetch? && HasResource(m.w, m.l.key) && t == TrackOf(m.w, m.l.key)
    requires Finishing(m) && HonestRun(m, labels)
    ensures Finishing(RunAll(m, labels))
  {
    hide Apply, Knows, Fixed, Still, HonestLabel, Inv, InStep, Reasoned, Synced, Meets, Aligned, HoldsAdmin;
    if labels != [] {
      var front, a := labels[..|labels| - 1], labels[|labels| - 1];
      RunFinishing(m, front, t);
      RunReasoned(m, front, t);
      HonestParts(RunAll(m, front), a);
      StepFinishing(RunAll(m, front), a.choice);
    }
  }

  /** From a steady store every pass without faults finishes, and asks for nothing more. */
  lemma SteadyPassFinishes(m: System, labels: seq<Label>)
    requires Inv(m) && m.l.pc.Fetch? && Fixed(m.w, m.l.key) && m.l.key.namespace != ""
    requires HonestRun(m, labels) && RunAll(m, labels).l.pc.Idle?
    ensures RunAll(m, labels).l.pc == Idle(false, 0)
  {
    hide Apply, HonestRun, Sound, Pass, TrackOf, Fixed, Still, CannotCreate, CannotConfigure, Reasoned, Knows, Inv;
    var m' := RunAll(m, labels);
    FixedHasResource(m.w, m.l.key);
    var t := TrackOf(m.w, m.l.key);
    BeginSound(m);
    FetchIsStill(m.w, m.l);
    RunReasoned(m, labels, t);
    RunFinishing(m, labels, t);
    PassEnds(m', t, ActsRun(m, labels));
    FixedNeverFails(m, t);
    SoundHere(m');
    FixedNeverFails(m', TrackOf(m'.w, m.l.key));
  }

  lemma FetchIsStill(w: World, l: Local)
    requires l.pc.Fetch?
    ensures Still(w, l)
  {
  }

  // ---- Every pass ends ----

  lemma {:induction false} SequenceOf(ids: set<Id>)
    ensures exists q: seq<Id> :: Enumerates(q, ids)
  {
    if ids == {} {
      assert Enumerates([], ids);
    } else {
      var id :| id in ids;
      SequenceOf(ids - {id});
      var q :| Enumerates(q, ids - {id});
      assert Enumerates(q + [id], ids);
    }
  }

  ghost predicate Enumerates(q: seq<Id>, ids: set<Id>) {
    (forall id :: id in q <==> id in ids) && forall i, j :: 0 <= i < j < |q| ==> q[i] != q[j]
  }

  lemma SomeHonestChoice(w: World, call: Call)
    ensures exists ch :: Honest(w, call, ch)
  {
    var pods: seq<Id> := [];
    if call.ListPods? {
      SequenceOf(PodsOf(w, call.jobName));
      pods :| Enumerates(pods, PodsOf(w, call.jobName));
    }
    assert Honest(w, call, Choice(NoFault, "x", UNALLOCATED, pods));
  }

  /** How far the pass is from its end. */
  function Phase(pc: Pc): nat {
    match pc
    case Idle(_, _) => 0
    case Fetch => 24
    case AdminGet => 23
    case AdminGenerate(_) => 22
    case AdminPut(_, _) => 21
    case AdminStatus => 20
    case ConfigGet => 19
    case ConfigNoPassword(_) => 18
    case DbRead(_, _, _) => 17
    case ConfigPut(_, _) => 16
    case ConfigStatus => 15
    case ClaimGet => 14
    case ClaimCreate => 13
    case ClaimStatus => 12
    case JobGet => 11
    case PodsList(_) => 10
    case Cleanup(_, _) => 9
    case JobCreate => 9
    case JobStatusFirst(_) => 8
    case JobStatusSecond(_) => 7
    case DeployGet => 8
    case DeployPut(_) => 7
    case DeployStatus => 6
    case ServiceGet(s) => if s.Http? then 5 else 3
    case ServicePut(s, _, _) => if s.Http? then 4 else 2
    case FinalStatus => 1
    case Fail(_, _) => 1
  }

  function Repeats(pc: Pc): nat {
    match pc
    case DbRead(i, _, _) => if i < FIELDS then FIELDS - i else 0
    case Cleanup(_, pods) => |pods|
    case Fail(writes, _) => writes
    case _ => 0
  }

  predicate Nearer(pc': Pc, pc: Pc) {
    Phase(pc') < Phase(pc) || (Phase(pc') == Phase(pc) && Repeats(pc') < Repeats(pc))
  }

  lemma EarlyNearer(l: Local, r: Response)
    requires l.pc.Fetch? || l.pc.AdminGet? || l.pc.AdminGenerate? || l.pc.AdminPut? || l.pc.ConfigGet? ||
             l.pc.ConfigPut? || l.pc.ClaimGet? || l.pc.ClaimCreate?
    ensures Nearer(Continue(l, r).pc, l.pc)
  {
    hide AfterField, AfterServiceGet, AfterDeployGet, AfterJobGet;
  }

  lemma FieldNearer(l: Local, i: nat, field: Result<ConnectionDetails, DbError>, found: Option<Stored>)
    ensures Nearer(AfterField(l, i, field, found).pc, DbRead(i, NO_DETAILS, found))
  {
    hide ConfigData;
  }

  lemma ReadNearer(l: Local, r: Response)
    requires l.pc.DbRead?
    ensures Nearer(Continue(l, r).pc, l.pc)
  {
    hide AfterField, ReadField;
    FieldNearer(l, l.pc.i, ReadField(l, l.pc.i, l.pc.details, r), l.pc.found);
  }

  lemma JobNearer(l: Local, r: Response)
    requires l.pc.JobGet? || l.pc.PodsList? || l.pc.Cleanup? || l.pc.JobCreate?
    ensures Nearer(Continue(l, r).pc, l.pc)
  {
    hide AfterField, AfterFetch, AfterAdminGenerate, AfterConfigGet, AfterDeployGet, AfterServiceGet, Difference;
  }

  lemma WorkloadNearer(l: Local, r: Response)
    requires l.pc.DeployGet? || l.pc.DeployPut? || l.pc.ServiceGet? || l.pc.ServicePut?
    ensures Nearer(Continue(l, r).pc, l.pc)
  {
    hide AfterField, AfterFetch, AfterAdminGenerate, AfterConfigGet, AfterJobGet, DeploymentTemplate, ServiceTemplate;
  }

  lemma EntryNearer(l: Local)
    ensures Phase(JobEntry(l).pc) <= 11
  {
    hide Difference;
  }

  lemma StatusNearer(l: Local, r: Response)
    requires StatusStep(l.pc)
    ensures Nearer(Continue(l, r).pc, l.pc)
  {
    hide AfterField, AfterFetch, AfterAdminGenerate, AfterConfigGet, AfterServiceGet, AfterDeployGet, AfterJobGet;
    hide Refreshed, JobEntry;
    EntryNearer(Refreshed(l, r));
  }

  lemma StepNearer(l: Local, r: Response)
    requires !l.pc.Idle?
    ensures Nearer(Continue(l, r).pc, l.pc)
  {
    hide Continue, Nearer;
    PassPoints(l.pc);
    if StatusStep(l.pc) {
      StatusNearer(l, r);
    } else if l.pc.DbRead? {
      ReadNearer(l, r);
    } else if l.pc.Fetch? || l.pc.AdminGet? || l.pc.AdminGenerate? || l.pc.AdminPut? || l.pc.ConfigGet? ||
              l.pc.ConfigPut? || l.pc.ClaimGet? || l.pc.ClaimCreate? {
      EarlyNearer(l, r);
    } else if l.pc.JobGet? || l.pc.PodsList? || l.pc.Cleanup? || l.pc.JobCreate? {
      JobNearer(l, r);
    } else {
      WorkloadNearer(l, r);
    }
  }

  lemma {:induction false} HonestCons(m: System, a: Label, rest: seq<Label>)
    requires HonestLabel(m, a) && HonestRun(Apply(m, a), rest)
    ensures HonestRun(m, [a] + rest) && RunAll(m, [a] + rest) == RunAll(Apply(m, a), rest)
  {
    hide Apply, HonestLabel;
    RunJoin(m, [a], rest);
    assert [a][..0] == [];
    if rest == [] {
      assert [a] + rest == [a];
    } else {
      var front := rest[..|rest| - 1];
      assert ([a] + rest)[..|[a] + rest| - 1] == [a] + front;
      HonestCons(m, a, front);
    }
  }

  /** From every state there is a run without faults on which the pass comes to its end. */
  lemma {:induction false} SomeHonestPass(m: System)
    ensures exists labels :: HonestRun(m, labels) && RunAll(m, labels).l.pc.Idle?
    decreases Phase(m.l.pc), Repeats(m.l.pc)
  {
    hide Continue, CallOf, Serve, HonestRun, RunAll, Honest;
    if m.l.pc.Idle? {
      NoSteps(m);
    } else {
      SomeHonestChoice(m.w, CallOf(m.l));
      var ch :| Honest(m.w, CallOf(m.l), ch);
      var a := Own(ch);
      StepNearer(m.l, Serve(m.w, CallOf(m.l), ch).1);
      SomeHonestPass(Apply(m, a));
      var rest :| HonestRun(Apply(m, a), rest) && RunAll(Apply(m, a), rest).l.pc.Idle?;
      HonestCons(m, a, rest);
    }
  }

  lemma NoSteps(m: System)
    ensures HonestRun(m, []) && RunAll(m, []) == m
  {
  }
}
