// What a pass without faults reports: whether it failed, and after how many seconds it wants to
// be called again, as a function of the installation it found.
module Reports {
  import opened Types
  import opened ModuleLists
  import opened Templates
  import opened Api
  import opened Machine
  import opened Safety
  import opened History
  import opened Convergence
  import opened Fixpoint
  import opened Simulation
  import opened HonestPass

  /** Failure and number of seconds for a resource that can be configured. */
  function Report(t: Track): (bool, nat) {
    if t.Recorded() && t.job.value.succeeded > 0 then (false, 30)
    else if t.Recorded() && t.job.value.active > 0 then (false, 15)
    else if t.Recorded() && t.job.value.failed > 0 then (false, 0)
    else if t.Done() then (false, 0)
    else if t.job.None? then (false, 30)
    else (true, 0)
  }

  /** What the point the pass has come to says about the report. */
  predicate Tells(pc: Pc, t: Track, acted: bool) {
    match pc
    case PodsList(_) => t.Recorded() && t.job.value.succeeded > 0
    case Cleanup(_, _) => t.Recorded() && t.job.value.succeeded > 0
    case JobStatusFirst(after) => Report(t) == (false, after) && after != 15
    case JobStatusSecond(after) => Report(t) == (false, after)
    case Fail(_, after) => after == if acted then 0 else 15
    case Idle(failed, after) => if failed then after == (if acted then 0 else 15) else Report(t) == (false, after)
    case _ => After(pc) ==> Report(t) == (false, 0)
  }

  lemma LookupTells(m: System, ch: Choice)
    requires Sound(m) && Honest(m.w, CallOf(m.l), ch) && m.l.pc.JobGet?
    ensures Tells(Apply(m, Own(ch)).l.pc, TrackOf(m.w, m.l.key), false)
  {
    hide AfterField, AfterAdminGenerate, AfterServiceGet, AfterDeployGet, AfterFetch, AfterConfigGet, CallOf, Serve;
    hide Inv, InStep, HoldsAdmin, Honest, Difference;
    JobLookup(m, ch);
  }

  lemma EntryTells(w: World, l: Local)
    requires HasResource(w, l.key) && l.mem.spec == StoredSpec(w, l.key) && WellTyped(w)
    requires TrackWith(w, l.key, l.mem.status) == TrackOf(w, l.key)
    ensures Tells(JobEntry(l).pc, TrackOf(w, l.key), false)
  {
    hide Difference;
  }

  lemma ClaimTells(m: System, ch: Choice)
    requires Sound(m) && Honest(m.w, CallOf(m.l), ch) && m.l.pc.ClaimStatus?
    ensures Tells(Apply(m, Own(ch)).l.pc, TrackOf(m.w, m.l.key), false)
  {
    StatusTracks(m, ch);
    hide Continue, CallOf, Inv, InStep, HoldsAdmin, Meets, Honest, Refreshed, Serve, JobEntry, TrackWith, TrackOf;
    hide Tells;
    var (w', r) := Serve(m.w, CallOf(m.l), ch);
    ClaimStatusStep(m.l, r);
    EntryTells(w', Refreshed(m.l, r));
  }

  lemma CreateTells(m: System, ch: Choice)
    requires Sound(m) && Honest(m.w, CallOf(m.l), ch) && m.l.pc.JobCreate?
    ensures Apply(m, Own(ch)).l.pc == if Exists(m.w, JobId(m.l.key)) then Fail(2, 0) else JobStatusFirst(30)
  {
    JobCreateAnswer(m, ch);
    hide OwnStep, Inv, InStep, HoldsAdmin, Aligned, Meets, Honest, Difference;
  }

  lemma CleanupTells(m: System, ch: Choice)
    requires Sound(m) && Honest(m.w, CallOf(m.l), ch) && (m.l.pc.PodsList? || m.l.pc.Cleanup?)
    ensures var pc := Apply(m, Own(ch)).l.pc; pc.Cleanup? || pc == JobStatusFirst(30)
  {
    hide AfterField, AfterAdminGenerate, AfterServiceGet, AfterDeployGet, AfterFetch, AfterConfigGet, AfterJobGet;
    hide Inv, InStep, HoldsAdmin, Difference;
  }

  /** The other status writes hand on what is to be reported. */
  lemma StatusTells(l: Local, r: Response, t: Track, acted: bool)
    requires StatusStep(l.pc) && !l.pc.ClaimStatus? && !l.pc.ConfigNoPassword? && Tells(l.pc, t, acted)
    requires r.Written?
    ensures Tells(Continue(l, r).pc, t, acted)
  {
    hide AfterField, AfterAdminGenerate, AfterServiceGet, AfterDeployGet, AfterFetch, AfterConfigGet, AfterJobGet;
    hide Report, Refreshed;
  }

  lemma FieldTells(l: Local, i: nat, field: Result<ConnectionDetails, DbError>, found: Option<Stored>)
    ensures AfterField(l, i, field, found).pc.Fail? ==> AfterField(l, i, field, found).pc == Fail(2, 15)
  {
    hide ConfigData;
  }

  lemma DbReadTells(l: Local, r: Response)
    requires l.pc.DbRead?
    ensures Continue(l, r).pc.Fail? ==> Continue(l, r).pc == Fail(2, 15)
  {
    hide AfterField, ReadField;
    FieldTells(l, l.pc.i, ReadField(l, l.pc.i, l.pc.details, r), l.pc.found);
  }

  lemma ChildTells(m: System, ch: Choice, t: Track)
    requires Sound(m) && Knows(true, m.w, m.l) && Honest(m.w, CallOf(m.l), ch)
    requires ChildStep(m.l.pc) && !m.l.pc.PodsList? && !m.l.pc.Cleanup? && Tells(m.l.pc, t, After(m.l.pc))
    ensures Tells(Apply(m, Own(ch)).l.pc, t, After(m.l.pc))
  {
    hide Continue, CallOf, Serve, Inv, InStep, HoldsAdmin, Aligned, Meets, Knows, Honest, Report;
    TypedNow(m);
    ChildPoints(m.w, m.l, ch);
    if m.l.pc.DbRead? {
      DbReadTells(m.l, Serve(m.w, CallOf(m.l), ch).1);
    } else if m.l.pc.DeployGet? || m.l.pc.DeployPut? {
      DeployPoints(m.w, m.l, ch);
    } else if m.l.pc.ServiceGet? || m.l.pc.ServicePut? {
      ServicePoints(m.w, m.l, ch);
    }
  }

  lemma FetchTells(m: System, ch: Choice, t: Track)
    requires Sound(m) && Honest(m.w, CallOf(m.l), ch) && m.l.pc.Fetch?
    ensures Tells(Apply(m, Own(ch)).l.pc, t, false)
  {
    hide Inv, InStep, Report, Honest, CallOf, Continue, Sound;
    FetchPoints(m, ch);
  }

  /** Whether the pass has acted matters only once it fails. */
  lemma TellsEither(pc: Pc, t: Track, a: bool, b: bool)
    requires Tells(pc, t, a) && !Failing(pc)
    ensures Tells(pc, t, b)
  {
    hide Report;
  }

  lemma ReasonedActs(m: System, t: Track, acts: seq<Act>)
    requires HasResource(m.w, m.l.key) && Reasoned(m, t, acts)
    ensures !Passed(m.w, m.l) ==> acts == [] && Current(m.w, m.l) == t
    ensures Passed(m.w, m.l) && !Failing(m.l.pc) ==> acts != []
    ensures m.l.pc.JobCreate? ==>
              !t.Done() && (t.Recorded() ==> t.job == Some(PENDING)) && (Passed(m.w, m.l) ==> t.job.Some?)
  {
    hide Current, Pass, CannotCreate, CannotConfigure;
  }

  lemma CreateReports(m: System, t: Track)
    requires HasResource(m.w, m.l.key) && m.l.pc.JobCreate? && Current(m.w, m.l) == t
    requires !t.Done() && (t.Recorded() ==> t.job == Some(PENDING)) && !Exists(m.w, JobId(m.l.key))
    ensures Report(t) == (false, 30)
  {
    hide Difference;
  }

  lemma CreatePoint(m: System, ch: Choice, t: Track, acts: seq<Act>)
    requires Sound(m) && Honest(m.w, CallOf(m.l), ch) && HasResource(m.w, m.l.key) && m.l.pc.JobCreate?
    requires Reasoned(m, t, acts)
    ensures Tells(Apply(m, Own(ch)).l.pc, t, acts + ActsOf(m, Own(ch)) != [])
  {
    hide Apply, Sound, Honest, CallOf, Reasoned, Report, Serve, TrackOf, Current, ActsOf;
    ReasonedActs(m, t, acts);
    CreateTells(m, ch);
    if !Exists(m.w, JobId(m.l.key)) {
      CreateReports(m, t);
    }
  }

  lemma FailurePoint(m: System, ch: Choice, t: Track, acts: seq<Act>)
    requires Sound(m) && Honest(m.w, CallOf(m.l), ch) && HasResource(m.w, m.l.key) && Failing(m.l.pc)
    requires Tells(m.l.pc, t, acts != [])
    ensures Tells(Apply(m, Own(ch)).l.pc, t, acts + ActsOf(m, Own(ch)) != [])
  {
    hide Continue, Sound, Honest, CallOf, Report, Serve, Tells;
    assert acts + [] == acts;
    var r := Serve(m.w, CallOf(m.l), ch).1;
    if m.l.pc.Idle? {
      IdleStays(m.l, r);
    } else {
      WrittenHere(m, ch);
      StatusTells(m.l, r, t, acts != []);
    }
  }

  lemma WrittenHere(m: System, ch: Choice)
    requires Sound(m) && Honest(m.w, CallOf(m.l), ch) && StatusStep(m.l.pc)
    ensures Serve(m.w, CallOf(m.l), ch).1.Written? && !m.l.pc.ConfigNoPassword?
  {
    NoPasswordHere(m);
    hide Inv, InStep, HoldsAdmin, Meets, Aligned, Honest, CallOf, Serve, Refreshed;
    HonestStatus(m.w, m.l, ch);
  }

  lemma CleanedReport(t: Track)
    requires t.Recorded() && t.job.value.succeeded > 0
    ensures Report(t) == (false, 30)
  {
  }

  lemma OtherPoint(m: System, ch: Choice, t: Track, acts: seq<Act>)
    requires Sound(m) && Knows(true, m.w, m.l) && Honest(m.w, CallOf(m.l), ch) && HasResource(m.w, m.l.key)
    requires Reasoned(m, t, acts) && Tells(m.l.pc, t, acts != []) && !Failing(m.l.pc) && !m.l.pc.JobCreate?
    ensures Tells(Apply(m, Own(ch)).l.pc, t, acts != [])
  {
    hide Continue, Sound, Knows, Honest, CallOf, Reasoned, Report, Serve, TrackOf, TrackWith;
    ReasonedActs(m, t, acts);
    PassPoints(m.l.pc);
    match m.l.pc
    case Idle(_, _) => IdleStays(m.l, Serve(m.w, CallOf(m.l), ch).1);
    case Fetch => FetchTells(m, ch, t);
    case JobGet => LookupTells(m, ch);
    case ClaimStatus => ClaimTells(m, ch);
    case PodsList(_) => CleanupTells(m, ch); CleanedReport(t);
    case Cleanup(_, _) => CleanupTells(m, ch); CleanedReport(t);
    case _ =>
      if ChildStep(m.l.pc) {
        ChildTells(m, ch, t);
      } else {
        WrittenHere(m, ch);
        StatusTells(m.l, Serve(m.w, CallOf(m.l), ch).1, t, acts != []);
      }
  }

  /** A pass that is not failing yet and does not create anything fails only over a field. */
  lemma NewFailures(m: System, ch: Choice)
    requires Sound(m) && Knows(true, m.w, m.l) && Honest(m.w, CallOf(m.l), ch)
    requires !Failing(m.l.pc) && !m.l.pc.JobCreate? && Failing(Apply(m, Own(ch)).l.pc)
    ensures ActsOf(m, Own(ch)) == []
  {
    hide Apply, Sound, Knows, Honest, CallOf, TrackOf, CannotConfigure;
    OwnReasons(m, ch);
  }

  lemma StepTells(m: System, ch: Choice, t: Track, acts: seq<Act>)
    requires Sound(m) && Knows(true, m.w, m.l) && Honest(m.w, CallOf(m.l), ch) && HasResource(m.w, m.l.key)
    requires Reasoned(m, t, acts) && Tells(m.l.pc, t, acts != [])
    ensures Tells(Apply(m, Own(ch)).l.pc, t, acts + ActsOf(m, Own(ch)) != [])
  {
    hide Apply, Sound, Knows, Honest, CallOf, Reasoned, Tells, ActsOf;
    if m.l.pc.JobCreate? {
      CreatePoint(m, ch, t, acts);
    } else if Failing(m.l.pc) {
      FailurePoint(m, ch, t, acts);
    } else {
      OtherPoint(m, ch, t, acts);
      assert acts + [] == acts;
      if Failing(Apply(m, Own(ch)).l.pc) {
        NewFailures(m, ch);
      } else {
        TellsEither(Apply(m, Own(ch)).l.pc, t, acts != [], acts + ActsOf(m, Own(ch)) != []);
      }
    }
  }

  lemma {:induction false} RunTells(m: System, labels: seq<Label>, t: Track)
    requires Sound(m) && m.l.pc.Fetch? && HasResource(m.w, m.l.key) && t == TrackOf(m.w, m.l.key)
    requires HonestRun(m, labels)
    ensures Tells(RunAll(m, labels).l.pc, t, ActsRun(m, labels) != [])
  {
    hide Apply, Sound, Knows, Reasoned, HonestLabel, TrackOf, Tells, ActsOf;
    if labels == [] {
      FetchTellsNothing(m.l.pc, t);
    } else {
      var front, a := labels[..|labels| - 1], labels[|labels| - 1];
      RunTells(m, front, t);
      RunReasoned(m, front, t);
      HonestParts(RunAll(m, front), a);
      StepTells(RunAll(m, front), a.choice, t, ActsRun(m, front));
    }
  }

  lemma FetchTellsNothing(pc: Pc, t: Track)
    requires pc.Fetch?
    ensures Tells(pc, t, false)
  {
    hide Report;
  }

  lemma BlockedReport(t: Track)
    requires CannotCreate(t)
    ensures Report(t) == (true, 0)
  {
    hide Difference;
  }

  /** A pass without faults reports what the installation it found calls for: half a minute after a Job
      was started or cleaned up, a quarter while one is at work, no time when there is nothing to
      wait for or nothing it can do; and a quarter, as a failure, if it cannot be configured. */
  lemma PassReports(m: System, labels: seq<Label>)
    requires Inv(m) && m.l.pc.Fetch? && HasResource(m.w, m.l.key) && m.l.key.namespace != ""
    requires HonestRun(m, labels) && RunAll(m, labels).l.pc.Idle?
    ensures var m' := RunAll(m, labels); var (failed, after) := Report(TrackOf(m.w, m.l.key));
            m'.l.pc == Idle(failed, after) ||
            (m'.l.pc == Idle(true, 15) && HasResource(m'.w, m.l.key) && CannotConfigure(m'.w, m.l.key))
  {
    hide Apply, HonestRun, Sound, Pass, TrackOf, CannotCreate, CannotConfigure, Knows, Report;
    var t := TrackOf(m.w, m.l.key);
    BeginSound(m);
    RunReasoned(m, labels, t);
    RunTells(m, labels, t);
    if CannotCreate(t) {
      BlockedReport(t);
    }
  }

  // ---- Status writes ----

  /** How often the status has been written when the pass has come to this point. */
  function Writes(pc: Pc): nat {
    match pc
    case Fetch => 0
    case AdminGet => 0
    case AdminGenerate(_) => 0
    case AdminPut(_, _) => 0
    case AdminStatus => 0
    case ConfigGet => 1
    case ConfigNoPassword(_) => 1
    case DbRead(_, _, _) => 1
    case ConfigPut(_, _) => 1
    case ConfigStatus => 1
    case ClaimGet => 2
    case ClaimCreate => 2
    case ClaimStatus => 2
    case JobStatusSecond(after) => if after == 15 then 3 else 4
    case ServiceGet(_) => 4
    case ServicePut(_, _, _) => 4
    case FinalStatus => 4
    case Fail(left, after) => if left > 2 then 0 else if after == 15 then 3 - left else 5 - left
    case Idle(failed, after) => Total(failed, after)
    case _ => 3
  }

  /** Five writes in all, four if the pass waits for a Job, three if it cannot be configured. */
  function Total(failed: bool, after: nat): nat {
    if after != 15 then 5 else if failed then 3 else 4
  }

  lemma StatusCounts(l: Local, r: Response)
    requires StatusStep(l.pc) && !l.pc.ConfigNoPassword? && r.Written?
    requires l.pc.JobStatusFirst? ==> l.pc.after != 15
    requires l.pc.Fail? ==> 1 <= l.pc.writes <= 2
    ensures Writes(Continue(l, r).pc) == Writes(l.pc) + 1
    ensures Continue(l, r).pc.Fail? ==> 1 <= Continue(l, r).pc.writes <= 2
  {
    hide AfterField, AfterAdminGenerate, AfterServiceGet, AfterDeployGet, AfterFetch, AfterConfigGet, AfterJobGet;
    hide Refreshed, LocalMissing;
  }

  lemma LookupCounts(m: System, ch: Choice)
    requires Sound(m) && Honest(m.w, CallOf(m.l), ch) && m.l.pc.JobGet?
    ensures Writes(Apply(m, Own(ch)).l.pc) == 3 && !Apply(m, Own(ch)).l.pc.Fail?
  {
    hide AfterField, AfterAdminGenerate, AfterServiceGet, AfterDeployGet, AfterFetch, AfterConfigGet, CallOf, Serve;
    hide Inv, InStep, HoldsAdmin, Honest, Difference, TrackOf;
    JobLookup(m, ch);
  }

  lemma AdminCounts(l: Local, r: Response)
    requires l.pc.AdminGet? || l.pc.AdminGenerate? || l.pc.AdminPut?
    ensures Continue(l, r).pc.Fail? || Writes(Continue(l, r).pc) == 0
  {
    hide AfterField;
  }

  lemma ConfigCounts(l: Local, r: Response)
    requires l.pc.ConfigGet? || l.pc.ConfigPut?
    ensures Continue(l, r).pc.Fail? || Writes(Continue(l, r).pc) == 1
  {
    hide AfterField;
  }

  lemma FieldCounts(l: Local, i: nat, field: Result<ConnectionDetails, DbError>, found: Option<Stored>)
    ensures Writes(AfterField(l, i, field, found).pc) == 1
    ensures AfterField(l, i, field, found).pc.Fail? ==> AfterField(l, i, field, found).pc.writes == 2
  {
    hide ConfigData;
  }

  lemma DbReadCounts(l: Local, r: Response)
    requires l.pc.DbRead?
    ensures Writes(Continue(l, r).pc) == 1 && (Continue(l, r).pc.Fail? ==> Continue(l, r).pc.writes == 2)
  {
    hide AfterField, ReadField;
    FieldCounts(l, l.pc.i, ReadField(l, l.pc.i, l.pc.details, r), l.pc.found);
  }

  lemma LateCounts(l: Local, r: Response)
    requires l.pc.ClaimGet? || l.pc.ClaimCreate? || l.pc.DeployGet? || l.pc.DeployPut? || l.pc.ServiceGet? ||
             l.pc.ServicePut?
    ensures Continue(l, r).pc.Fail? || Writes(Continue(l, r).pc) == Writes(l.pc)
  {
    hide AfterField, DeploymentTemplate, ServiceTemplate;
  }

  lemma ChildCounts(m: System, ch: Choice)
    requires Sound(m) && Knows(true, m.w, m.l) && Honest(m.w, CallOf(m.l), ch)
    requires ChildStep(m.l.pc) && !m.l.pc.PodsList? && !m.l.pc.Cleanup?
    ensures var pc := Apply(m, Own(ch)).l.pc; Writes(pc) == Writes(m.l.pc) && (pc.Fail? ==> pc.writes == 2)
  {
    hide Continue, CallOf, Serve, Inv, InStep, HoldsAdmin, Aligned, Meets, Knows, Honest, Writes;
    TypedNow(m);
    ChildPoints(m.w, m.l, ch);
    var r := Serve(m.w, CallOf(m.l), ch).1;
    if m.l.pc.DbRead? {
      DbReadCounts(m.l, r);
      ReadingCounts(m.l.pc);
    } else if m.l.pc.AdminGet? || m.l.pc.AdminGenerate? || m.l.pc.AdminPut? {
      AdminCounts(m.l, r);
      ReadingCounts(m.l.pc);
    } else if m.l.pc.ConfigGet? || m.l.pc.ConfigPut? {
      ConfigCounts(m.l, r);
      ReadingCounts(m.l.pc);
    } else {
      LateCounts(m.l, r);
      if m.l.pc.DeployGet? || m.l.pc.DeployPut? {
        DeployPoints(m.w, m.l, ch);
      } else if m.l.pc.ServiceGet? || m.l.pc.ServicePut? {
        ServicePoints(m.w, m.l, ch);
      }
    }
  }

  lemma ReadingCounts(pc: Pc)
    ensures pc.DbRead? || pc.ConfigGet? || pc.ConfigPut? ==> Writes(pc) == 1
    ensures pc.AdminGet? || pc.AdminGenerate? || pc.AdminPut? ==> Writes(pc) == 0
  {
  }

  lemma StatusBumps(w: World, l: Local, ch: Choice)
    requires Synced(w, l) && StatusStep(l.pc) && Honest(w, CallOf(l), ch)
    ensures At(Serve(w, CallOf(l), ch).0, OdooId(l.key)).version == At(w, OdooId(l.key)).version + 1
  {
    hide AfterField, CallOf, Continue;
    StatusStepLocal(l, Nothing);
  }

  lemma SyncedHere(m: System)
    requires Sound(m)
    ensures Synced(m.w, m.l) && Inv(m)
  {
    hide Inv, InStep, HoldsAdmin, Meets, Aligned;
  }

  /** The version of the resource counts the writes. */
  ghost predicate Counted(m: System, version: nat) {
    At(m.w, OdooId(m.l.key)).version == version + Writes(m.l.pc) && (m.l.pc.Fail? ==> 1 <= m.l.pc.writes <= 2)
  }

  lemma StepCounted(m: System, ch: Choice, t: Track, acted: bool, version: nat)
    requires Sound(m) && Knows(true, m.w, m.l) && Honest(m.w, CallOf(m.l), ch)
    requires Tells(m.l.pc, t, acted) && Counted(m, version)
    ensures Counted(Apply(m, Own(ch)), version)
  {
    hide Continue, Sound, Knows, Honest, CallOf, Serve, Report;
    SyncedHere(m);
    PassPoints(m.l.pc);
    KeyStays(m, Own(ch));
    if StatusStep(m.l.pc) {
      WrittenHere(m, ch);
      StatusBumps(m.w, m.l, ch);
      StatusCounts(m.l, Serve(m.w, CallOf(m.l), ch).1);
    } else {
      ElsewhereFrame(m, ch);
      match m.l.pc
      case Idle(_, _) => IdleStays(m.l, Serve(m.w, CallOf(m.l), ch).1);
      case Fetch => FetchPoints(m, ch);
      case JobGet => LookupCounts(m, ch);
      case JobCreate => CreateTells(m, ch);
      case PodsList(_) => CleanupTells(m, ch);
      case Cleanup(_, _) => CleanupTells(m, ch);
      case _ => ChildCounts(m, ch);
    }
  }

  lemma {:induction false} RunCounted(m: System, labels: seq<Label>, t: Track)
    requires Sound(m) && m.l.pc.Fetch? && HasResource(m.w, m.l.key) && t == TrackOf(m.w, m.l.key)
    requires HonestRun(m, labels)
    ensures Counted(RunAll(m, labels), At(m.w, OdooId(m.l.key)).version)
  {
    hide Apply, Sound, Knows, Reasoned, HonestLabel, TrackOf, Tells, ActsOf;
    if labels != [] {
      var front, a := labels[..|labels| - 1], labels[|labels| - 1];
      RunCounted(m, front, t);
      RunReasoned(m, front, t);
      RunTells(m, front, t);
      HonestParts(RunAll(m, front), a);
      StepCounted(RunAll(m, front), a.choice, t, ActsRun(m, front) != [], At(m.w, OdooId(m.l.key)).version);
    }
  }

  /** A pass without faults writes the status five times: with each of the three names, and twice for
      the rest. It saves one write while it waits for a Job, and stops after three if it cannot be
      configured. */
  lemma PassWritesStatus(m: System, labels: seq<Label>)
    requires Inv(m) && m.l.pc.Fetch? && HasResource(m.w, m.l.key) && m.l.key.namespace != ""
    requires HonestRun(m, labels) && RunAll(m, labels).l.pc.Idle?
    ensures var m' := RunAll(m, labels); var id := OdooId(m.l.key);
            At(m'.w, id).version ==
            At(m.w, id).version + if m'.l.pc.after != 15 then 5 else if m'.l.pc.failed then 3 else 4
  {
    hide Apply, HonestRun, Sound, TrackOf, RunAll;
    BeginSound(m);
    RunCounted(m, labels, TrackOf(m.w, m.l.key));
    RunReasoned(m, labels, TrackOf(m.w, m.l.key));
  }

  // ---- Requests that fail ----

  /** The seconds a pass asks for when a request of this step fails. */
  function RetryAfter(pc: Pc): nat {
    if pc.JobCreate? then 0 else if pc.PodsList? || pc.Cleanup? then 30 else 15
  }

  /** The answer is not what the request is for: it was lost, or the object has another version, exists
      already, or is gone. A lookup may find nothing, but not the secret of a field. */
  predicate Refuses(l: Local, r: Response) {
    match CallOf(l)
    case Get(_) => !r.Found? && (r.NotFound? ==> l.pc.DbRead?)
    case Create(_, _) => !r.Written?
    case Update(_, _, _) => !r.Written?
    case Delete(_) => !r.Deleted?
    case ListPods(_) => !r.Listed?
    case GeneratePassword => !r.Password?
    case _ => false
  }

  lemma EarlyFailure(l: Local, r: Response)
    requires Refuses(l, r)
    requires l.pc.AdminGet? || l.pc.AdminGenerate? || l.pc.AdminPut? || l.pc.ConfigGet? || l.pc.ConfigPut? ||
             l.pc.ClaimGet? || l.pc.ClaimCreate?
    ensures Continue(l, r).pc == Fail(2, 15)
  {
    hide AfterField;
  }

  lemma LateFailure(l: Local, r: Response)
    requires Refuses(l, r)
    requires l.pc.JobGet? || l.pc.JobCreate? || l.pc.PodsList? || l.pc.Cleanup? || l.pc.DeployGet? || l.pc.DeployPut? ||
             l.pc.ServiceGet? || l.pc.ServicePut?
    ensures Continue(l, r).pc == Fail(2, RetryAfter(l.pc))
  {
    hide AfterField;
  }

  lemma FieldFailure(l: Local, r: Response)
    requires l.pc.DbRead? && Refuses(l, r)
    ensures Continue(l, r).pc == Fail(2, 15)
  {
    hide DetailsDone, FieldFromText, FieldFromSpec, DbRef;
  }

  lemma TwoWritesEnd(m: System, a: Choice, b: Choice)
    requires m.l.pc.Fail? && m.l.pc.writes == 2
    ensures Apply(Apply(m, Own(a)), Own(b)).l.pc == Idle(true, m.l.pc.after)
  {
    hide CallOf, Serve, AfterField;
  }

  /** In any state: when a request is refused, the pass writes the status twice and is over, with a
      failure and the time of the step. */
  lemma RefusalReports(m: System, ch: Choice, a: Choice, b: Choice)
    requires Refuses(m.l, Serve(m.w, CallOf(m.l), ch).1) && !StatusStep(m.l.pc) && !m.l.pc.Fetch?
    ensures Apply(Apply(Apply(m, Own(ch)), Own(a)), Own(b)).l.pc == Idle(true, RetryAfter(m.l.pc))
  {
    hide Continue, CallOf, Serve, DbRef, Refuses;
    IdleSkips(m.l, Serve(m.w, CallOf(m.l), ch).1);
    PassPoints(m.l.pc);
    var r := Serve(m.w, CallOf(m.l), ch).1;
    if m.l.pc.DbRead? {
      FieldFailure(m.l, r);
    } else if m.l.pc.AdminGet? || m.l.pc.AdminGenerate? || m.l.pc.AdminPut? || m.l.pc.ConfigGet? || m.l.pc.ConfigPut? ||
              m.l.pc.ClaimGet? || m.l.pc.ClaimCreate? {
      EarlyFailure(m.l, r);
    } else {
      LateFailure(m.l, r);
    }
    TwoWritesEnd(Apply(m, Own(ch)), a, b);
  }

  /** Faults refuse every request. */
  lemma FaultRefuses(w: World, l: Local, ch: Choice)
    requires !ch.fault.NoFault? && CallOf(l) != Skip && !CallOf(l).UpdateStatus?
    ensures Refuses(l, Serve(w, CallOf(l), ch).1)
  {
    hide CallOf;
  }

  /** The first request: a resource that is gone is nothing to do, and a lookup that fails is tried
      again; in both cases nothing is written. */
  lemma FetchReports(m: System, ch: Choice)
    requires WellTyped(m.w) && m.l.pc.Fetch?
    ensures var m' := Apply(m, Own(ch));
            m'.w == m.w &&
            m'.l.pc ==
              if !ch.fault.NoFault? then Idle(true, 15) else if HasResource(m.w, m.l.key) then AdminGet
              else Idle(false, 0)
  {
    hide AfterField;
  }

  lemma IdleSkips(l: Local, r: Response)
    requires Refuses(l, r)
    ensures !l.pc.Idle?
  {
  }

  /** The writes that record names, and the one after the Deployment, may be refused: the pass goes on
      with what it knew. */
  lemma NameWritesMayFail(m: System, ch: Choice)
    requires m.l.pc.AdminStatus? || m.l.pc.ConfigStatus? || m.l.pc.ClaimStatus? || m.l.pc.DeployStatus?
    ensures var r := Serve(m.w, CallOf(m.l), ch).1; var l' := Apply(m, Own(ch)).l;
            !l'.pc.Idle? && !l'.pc.Fail? && HonestPass.Phase(l'.pc) < HonestPass.Phase(m.l.pc) &&
            l'.mem.status == m.l.mem.status &&
            (!r.Written? ==> l'.mem == m.l.mem)
  {
    hide CallOf, Serve, Continue, HonestPass.Phase;
    StatusStepLocal(m.l, Nothing);
    StatusAnswer(m.w, m.l, ch);
    GoesOn(m.l, Serve(m.w, CallOf(m.l), ch).1);
  }

  lemma GoesOn(l: Local, r: Response)
    requires l.pc.AdminStatus? || l.pc.ConfigStatus? || l.pc.ClaimStatus? || l.pc.DeployStatus?
    ensures var l' := Continue(l, r);
            !l'.pc.Idle? && !l'.pc.Fail? && HonestPass.Phase(l'.pc) < HonestPass.Phase(l.pc) &&
            l'.mem == Refreshed(l, r).mem
  {
    hide AfterField, AfterAdminGenerate, AfterServiceGet, AfterDeployGet, AfterFetch, AfterConfigGet, AfterJobGet;
    hide Refreshed, LocalMissing;
  }

  /** The other writes count: if one is refused the pass fails with the time it meant to report, after
      one more write if it is the first of two. */
  lemma LastWritesCount(m: System, a: Choice, b: Choice)
    requires m.l.pc.JobStatusFirst? || m.l.pc.JobStatusSecond? || m.l.pc.FinalStatus?
    requires !Serve(m.w, CallOf(m.l), a).1.Written?
    ensures var n := Apply(m, Own(a));
            if m.l.pc.JobStatusFirst? then !n.l.pc.Idle? && Apply(n, Own(b)).l.pc == Idle(true, m.l.pc.after)
            else n.l.pc == Idle(true, if m.l.pc.JobStatusSecond? then m.l.pc.after else 0)
  {
    hide CallOf, Serve, AfterField;
  }
}
