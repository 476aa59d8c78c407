// How the stored record evolves: installed modules are only ever appended, never installed
// twice, and a job without a record is never adopted.
module History {
  import opened Types
  import opened ModuleLists
  import opened Templates
  import opened Api
  import opened Machine
  import opened Safety

  predicate IsPrefix(a: seq<string>, b: seq<string>) {
    |a| <= |b| && b[..|a|] == a
  }

  /** While nobody else wrote the resource, the memory of the pass extends what is stored,
      and its specification is the stored one up to duplicates. */
  ghost predicate InStep(w: World, l: Local) {
    Active(l.pc) ==>
      l.mem.version <= At(w, OdooId(l.key)).version &&
      (l.mem.version == At(w, OdooId(l.key)).version ==>
        HasResource(w, l.key) &&
        IsPrefix(StoredStatus(w, l.key).initModulesInstalled, l.mem.status.initModulesInstalled) &&
        (l.mem.spec == StoredSpec(w, l.key) ||
         l.mem.spec == StoredSpec(w, l.key).(modules := Dedup(StoredSpec(w, l.key).modules))))
  }

  lemma FetchInStep(w: World, l: Local, ch: Choice)
    requires l.pc.Fetch?
    ensures var (w', l') := OwnStep(w, l, ch); InStep(w', l')
  {
    hide AfterField;
  }

  /** A status write leaves the memory equal to what it stored, or behind it, or untouched. */
  lemma StatusWriteInStep(w: World, l: Local, ch: Choice)
    requires InStep(w, l) && Active(l.pc) && CallOf(l) == StatusCall(l)
    ensures var (w', r) := Serve(w, CallOf(l), ch); var l' := Refreshed(l, r);
            l'.key == l.key && l'.mem.version <= At(w', OdooId(l.key)).version &&
            (l'.mem.version == At(w', OdooId(l.key)).version ==>
              HasResource(w', l.key) &&
              IsPrefix(StoredStatus(w', l.key).initModulesInstalled, l'.mem.status.initModulesInstalled) &&
              (l'.mem.spec == StoredSpec(w', l.key) ||
               l'.mem.spec == StoredSpec(w', l.key).(modules := Dedup(StoredSpec(w', l.key).modules))))
  {
    hide AfterField, CallOf;
  }

  predicate StatusStep(pc: Pc) {
    pc.AdminStatus? || pc.ConfigNoPassword? || pc.ConfigStatus? || pc.ClaimStatus? || pc.JobStatusFirst? ||
    pc.JobStatusSecond? || pc.DeployStatus? || pc.FinalStatus? || pc.Fail?
  }

  /** What the computation after a status write adds to the refresh: names only. */
  lemma StatusStepLocal(l: Local, r: Response)
    requires StatusStep(l.pc)
    ensures CallOf(l) == StatusCall(l) && Active(l.pc)
    ensures KeepsMemory(Refreshed(l, r), Continue(l, r))
  {
    hide AfterField, AfterFetch, AfterAdminGet, AfterAdminGenerate, AfterServiceGet, AfterJobGet, AfterDeployGet;
  }

  lemma PassPoints(pc: Pc)
    ensures pc.Idle? || pc.Fetch? || pc.JobGet? || pc.JobCreate? || ChildStep(pc) || StatusStep(pc)
  {
  }

  lemma JobStepLocal(l: Local, r: Response)
    requires l.pc.JobGet? || l.pc.JobCreate?
    ensures var l' := Continue(l, r);
            l'.key == l.key && l'.mem.version == l.mem.version && l'.mem.spec == l.mem.spec &&
            (l'.mem.status == l.mem.status ||
             (l.pc.JobGet? && l'.mem.status == Recorded(l.mem.status)) ||
             (l.pc.JobCreate? && l'.mem.status.initModulesInstalled == l.mem.status.initModulesInstalled &&
              l'.mem.status.currentInitJob.modules == LocalMissing(l)))
  {
    hide AfterField, AfterFetch, AfterAdminGet, AfterAdminGenerate, AfterServiceGet, AfterDeployGet;
  }

  /** A step that is no status write leaves the stored resource alone. */
  lemma ElsewhereFrame(m: System, ch: Choice)
    requires Inv(m) && !StatusStep(m.l.pc)
    ensures At(OwnStep(m.w, m.l, ch).0, OdooId(m.l.key)) == At(m.w, OdooId(m.l.key))
  {
    hide AfterField;
    OwnTargets(m.l);
    if Target(CallOf(m.l)) != Some(OdooId(m.l.key)) {
      ServeFrame(m.w, CallOf(m.l), ch, OdooId(m.l.key));
    }
  }

  lemma OwnInStep(m: System, ch: Choice)
    requires Inv(m) && InStep(m.w, m.l)
    ensures var (w', l') := OwnStep(m.w, m.l, ch); InStep(w', l')
  {
    hide Continue, CallOf;
    var r := Serve(m.w, CallOf(m.l), ch).1;
    PassPoints(m.l.pc);
    if StatusStep(m.l.pc) {
      StatusStepLocal(m.l, r);
      StatusWriteInStep(m.w, m.l, ch);
    } else if m.l.pc.Fetch? {
      FetchInStep(m.w, m.l, ch);
    } else {
      ElsewhereFrame(m, ch);
      if ChildStep(m.l.pc) {
        ChildStepLocal(m.l, r);
      } else if m.l.pc.Idle? {
        IdleStays(m.l, r);
      } else {
        JobStepLocal(m.l, r);
      }
    }
  }

  lemma IdleStays(l: Local, r: Response)
    requires l.pc.Idle?
    ensures Continue(l, r) == l
  {
    hide AfterField;
  }

  lemma StepInStep(m: System, a: Label)
    requires Inv(m) && InStep(m.w, m.l)
    ensures InStep(Apply(m, a).w, Apply(m, a).l)
  {
    hide Continue, CallOf;
    match a
    case Start =>
    case Own(ch) => OwnInStep(m, ch);
    case Crash =>
    case Foreign(call, ch) => ServeVersions(m.w, call, ch, OdooId(m.l.key));
    case JobProgress(id, s) =>
  }

  // ---- Growth by appending ----

  /** Requests that neither delete nor create the resource. */
  predicate KeepsResource(key: Key, a: Label) {
    a.Foreign? ==> !(a.call.Delete? && a.call.id == OdooId(key)) && !(a.call.Create? && a.call.id == OdooId(key))
  }

  lemma OwnAppends(m: System, ch: Choice)
    requires Inv(m) && InStep(m.w, m.l) && HasResource(m.w, m.l.key)
    ensures var w' := OwnStep(m.w, m.l, ch).0;
            HasResource(w', m.l.key) &&
            IsPrefix(StoredStatus(m.w, m.l.key).initModulesInstalled, StoredStatus(w', m.l.key).initModulesInstalled)
  {
    hide Continue;
    if StatusStep(m.l.pc) {
      StatusStepLocal(m.l, Nothing);
    } else {
      ElsewhereFrame(m, ch);
    }
  }

  lemma StepAppends(m: System, a: Label)
    requires Inv(m) && InStep(m.w, m.l) && HasResource(m.w, m.l.key)
    requires ConsiderateLabel(m.l.key, a) && KeepsResource(m.l.key, a)
    ensures var m' := Apply(m, a);
            HasResource(m'.w, m.l.key) &&
            IsPrefix(StoredStatus(m.w, m.l.key).initModulesInstalled, StoredStatus(m'.w, m.l.key).initModulesInstalled)
  {
    hide Continue, CallOf, OwnStep;
    match a
    case Start =>
    case Own(ch) => OwnAppends(m, ch);
    case Crash =>
    case Foreign(call, ch) => ForeignAppends(m.w, m.l.key, call, ch);
    case JobProgress(id, s) =>
  }

  lemma ForeignAppends(w: World, key: Key, call: Call, ch: Choice)
    requires HasResource(w, key) && WellTyped(w) && Considerate(key, call)
    requires KeepsResource(key, Foreign(call, ch))
    ensures var w' := Serve(w, call, ch).0;
            HasResource(w', key) && StoredStatus(w', key) == StoredStatus(w, key)
  {
    if Target(call) != Some(OdooId(key)) {
      ServeFrame(w, call, ch, OdooId(key));
    }
  }

  ghost predicate KeepingRun(key: Key, labels: seq<Label>) {
    forall i :: 0 <= i < |labels| ==> ConsiderateLabel(key, labels[i]) && KeepsResource(key, labels[i])
  }

  /** From every reachable state on, the stored list of installed modules only grows at its
      end, whatever faults, crashes and edits happen. */
  lemma {:induction false} InstalledOnlyGrows(m: System, labels: seq<Label>)
    requires Inv(m) && InStep(m.w, m.l) && HasResource(m.w, m.l.key) && KeepingRun(m.l.key, labels)
    ensures var m' := RunAll(m, labels);
            Inv(m') && InStep(m'.w, m'.l) && m'.l.key == m.l.key && HasResource(m'.w, m.l.key) &&
            IsPrefix(StoredStatus(m.w, m.l.key).initModulesInstalled, StoredStatus(m'.w, m.l.key).initModulesInstalled)
  {
    hide Continue, CallOf, Apply;
    if labels != [] {
      var front, a := labels[..|labels| - 1], labels[|labels| - 1];
      InstalledOnlyGrows(m, front);
      var n := RunAll(m, front);
      StepKeepsInv(n, a);
      StepInStep(n, a);
      StepAppends(n, a);
    }
  }

  lemma {:induction false} ReachableInStep(m: System, labels: seq<Label>)
    requires Initial(m) && ConsiderateRun(m.l.key, labels)
    ensures var m' := RunAll(m, labels); Inv(m') && InStep(m'.w, m'.l) && m'.l.key == m.l.key
  {
    hide Continue, CallOf, Apply;
    InitialInv(m);
    if labels != [] {
      var front, a := labels[..|labels| - 1], labels[|labels| - 1];
      ReachableInStep(m, front);
      StepKeepsInv(RunAll(m, front), a);
      StepInStep(RunAll(m, front), a);
    }
  }

  /** If, when the Deployment is written, nobody has touched the resource since the pass last
      read or wrote it, all modules the user asks for at that moment have been executed. */
  lemma GateOnStoredSpec(m: System, labels: seq<Label>, ch: Choice)
    requires Initial(m) && ConsiderateRun(m.l.key, labels)
    requires var m' := RunAll(m, labels); var id := DeployId(m.l.key);
             At(Apply(m', Own(ch)).w, id) != At(m'.w, id) &&
             At(m'.w, OdooId(m.l.key)).version == m'.l.mem.version
    ensures var m' := RunAll(m, labels);
            HasResource(m'.w, m.l.key) && Pieces(StoredSpec(m'.w, m.l.key).modules) <= m'.executed &&
            (PlainNames(StoredSpec(m'.w, m.l.key).modules) ==>
              Elements(StoredSpec(m'.w, m.l.key).modules) <= m'.executed)
  {
    hide Continue;
    ReachableInStep(m, labels);
    DeploymentIsGated(m, labels, ch);
    var m' := RunAll(m, labels);
    if Target(CallOf(m'.l)) == Some(DeployId(m.l.key)) {
      DeployWrites(m');
    } else {
      ServeFrame(m'.w, CallOf(m'.l), ch, DeployId(m.l.key));
    }
    var modules := StoredSpec(m'.w, m.l.key).modules;
    DedupSound(modules);
    assert forall x :: x in modules ==> x in Elements(Dedup(modules));
    PiecesMonotone(modules, m'.l.mem.spec.modules);
    if PlainNames(modules) {
      PiecesOfPlain(modules);
    }
  }

  // ---- Nothing is installed twice ----

  predicate Separated(status: OdooStatus) {
    Disjoint(status.initModulesInstalled, status.currentInitJob.modules)
  }

  /** Installed and recorded modules together are free of duplicates. */
  predicate Distinct(status: OdooStatus) {
    NoDup(status.initModulesInstalled + status.currentInitJob.modules)
  }

  lemma RecordedLists(status: OdooStatus)
    ensures Separated(Recorded(status))
    ensures Distinct(status) ==> Distinct(Recorded(status))
  {
    var all := status.initModulesInstalled + status.currentInitJob.modules;
    assert all + [] == all;
  }

  lemma CreatedLists(spec: OdooSpec, status: OdooStatus, status': OdooStatus)
    requires status'.initModulesInstalled == status.initModulesInstalled
    requires status'.currentInitJob.modules == Missing(spec, status)
    ensures Separated(status')
    ensures NoDup(spec.modules) && Distinct(status) ==> Distinct(status')
  {
    var installed, missing := status.initModulesInstalled, Missing(spec, status);
    DifferenceMembers(spec.modules, installed);
    if NoDup(spec.modules) && Distinct(status) {
      DifferenceNoDup(spec.modules, installed);
      var all := installed + status.currentInitJob.modules;
      forall i, j | 0 <= i < j < |installed| ensures installed[i] != installed[j] {
        assert all[i] == installed[i] && all[j] == installed[j];
      }
      forall i, j | 0 <= i < j < |installed + missing| ensures (installed + missing)[i] != (installed + missing)[j] {
        if j >= |installed| {
          assert (installed + missing)[j] in missing;
          if i < |installed| {
            assert (installed + missing)[i] in installed;
          }
        }
      }
    }
  }

  ghost predicate SeparatedEverywhere(m: System) {
    (HasResource(m.w, m.l.key) ==> Separated(StoredStatus(m.w, m.l.key))) &&
    (Active(m.l.pc) ==> Separated(m.l.mem.status))
  }

  /** The user asks for every module once, and the lists are free of duplicates. */
  ghost predicate DistinctEverywhere(m: System) {
    (HasResource(m.w, m.l.key) ==>
      Distinct(StoredStatus(m.w, m.l.key)) && NoDup(StoredSpec(m.w, m.l.key).modules)) &&
    (Active(m.l.pc) ==> Distinct(m.l.mem.status) && NoDup(m.l.mem.spec.modules))
  }

  /** What a step of the pass can do to the lists, in memory and stored. */
  lemma OwnLists(m: System, ch: Choice)
    requires Inv(m)
    ensures var m' := Apply(m, Own(ch)); var key := m.l.key;
            HasResource(m'.w, key) ==>
              HasResource(m.w, key) && StoredSpec(m'.w, key) == StoredSpec(m.w, key) &&
              (StoredStatus(m'.w, key) == StoredStatus(m.w, key) ||
               (Active(m.l.pc) && StoredStatus(m'.w, key) == m.l.mem.status))
  {
    hide Continue;
    if StatusStep(m.l.pc) {
      StatusStepLocal(m.l, Nothing);
    } else {
      ElsewhereFrame(m, ch);
    }
  }

  lemma OwnMemory(m: System, ch: Choice)
    requires Inv(m)
    ensures var m' := Apply(m, Own(ch)); var mem := m.l.mem; var mem' := m'.l.mem;
            Active(m'.l.pc) ==>
              if Active(m.l.pc) then
                (mem'.spec == mem.spec || (HasResource(m.w, m.l.key) && mem'.spec == StoredSpec(m.w, m.l.key))) &&
                (SameRecord(mem.status, mem'.status) || mem'.status == Recorded(mem.status) ||
                 (mem'.spec == mem.spec && mem'.status.initModulesInstalled == mem.status.initModulesInstalled &&
                  mem'.status.currentInitJob.modules == LocalMissing(m.l)))
              else
                HasResource(m.w, m.l.key) && mem'.status == StoredStatus(m.w, m.l.key) &&
                mem'.spec.modules == Dedup(StoredSpec(m.w, m.l.key).modules)
  {
    hide Continue, CallOf;
    var r := Serve(m.w, CallOf(m.l), ch).1;
    PassPoints(m.l.pc);
    if StatusStep(m.l.pc) {
      StatusStepLocal(m.l, r);
      StatusAnswer(m.w, m.l, ch);
    } else if m.l.pc.Fetch? {
      FetchAnswer(m.w, m.l, ch);
    } else if ChildStep(m.l.pc) {
      ChildStepLocal(m.l, r);
    } else if m.l.pc.Idle? {
      IdleStays(m.l, r);
    } else {
      JobStepLocal(m.l, r);
    }
  }

  lemma StatusAnswer(w: World, l: Local, ch: Choice)
    requires CallOf(l) == StatusCall(l)
    ensures var r := Serve(w, CallOf(l), ch).1; var l' := Refreshed(l, r);
            l'.mem.status == l.mem.status &&
            (l'.mem.spec == l.mem.spec || (HasResource(w, l.key) && l'.mem.spec == StoredSpec(w, l.key)))
  {
    hide AfterField, CallOf;
  }

  lemma FetchAnswer(w: World, l: Local, ch: Choice)
    requires l.pc.Fetch?
    ensures var l' := OwnStep(w, l, ch).1;
            Active(l'.pc) ==>
              HasResource(w, l.key) && l'.mem.status == StoredStatus(w, l.key) &&
              l'.mem.spec.modules == Dedup(StoredSpec(w, l.key).modules)
  {
    hide AfterField;
  }

  lemma MemoryLists(m: System, ch: Choice)
    requires Inv(m)
    ensures SeparatedEverywhere(m) && Active(Apply(m, Own(ch)).l.pc) ==> Separated(Apply(m, Own(ch)).l.mem.status)
    ensures DistinctEverywhere(m) && Active(Apply(m, Own(ch)).l.pc) ==>
              Distinct(Apply(m, Own(ch)).l.mem.status) && NoDup(Apply(m, Own(ch)).l.mem.spec.modules)
  {
    hide Apply;
    OwnMemory(m, ch);
    var mem, mem' := m.l.mem, Apply(m, Own(ch)).l.mem;
    RecordedLists(mem.status);
    if mem'.status.initModulesInstalled == mem.status.initModulesInstalled &&
       mem'.status.currentInitJob.modules == LocalMissing(m.l) {
      CreatedLists(mem.spec, mem.status, mem'.status);
    }
    if HasResource(m.w, m.l.key) {
      DedupSound(StoredSpec(m.w, m.l.key).modules);
    }
  }

  lemma KeyStays(m: System, a: Label)
    ensures Apply(m, a).l.key == m.l.key
  {
    hide Continue, CallOf;
    if a.Own? {
      KeyFixed(m.l, Serve(m.w, CallOf(m.l), a.choice).1);
    }
  }

  lemma OwnSeparated(m: System, ch: Choice)
    requires Inv(m) && SeparatedEverywhere(m)
    ensures SeparatedEverywhere(Apply(m, Own(ch)))
  {
    hide Apply;
    KeyStays(m, Own(ch));
    OwnLists(m, ch);
    MemoryLists(m, ch);
  }

  lemma OwnDistinct(m: System, ch: Choice)
    requires Inv(m) && DistinctEverywhere(m)
    ensures DistinctEverywhere(Apply(m, Own(ch)))
  {
    hide Apply;
    KeyStays(m, Own(ch));
    OwnLists(m, ch);
    MemoryLists(m, ch);
  }

  /** Edits of the resource that ask for each module once. */
  predicate AsksOnce(key: Key, a: Label) {
    a.Foreign? && (a.call.Create? || a.call.Update?) && a.call.id == OdooId(key) && a.call.body.OdooBody? ==>
      NoDup(a.call.body.spec.modules)
  }

  lemma ForeignLists(w: World, key: Key, call: Call, ch: Choice)
    requires Considerate(key, call) && WellTyped(w)
    ensures var w' := Serve(w, call, ch).0;
            HasResource(w', key) ==>
              (StoredStatus(w', key) == EMPTY_STATUS ||
               (HasResource(w, key) && StoredStatus(w', key) == StoredStatus(w, key))) &&
              ((HasResource(w, key) && StoredSpec(w', key) == StoredSpec(w, key)) ||
               ((call.Create? || call.Update?) && call.id == OdooId(key) && call.body.OdooBody? &&
                StoredSpec(w', key) == call.body.spec))
  {
    if Target(call) != Some(OdooId(key)) {
      ServeFrame(w, call, ch, OdooId(key));
    }
  }

  lemma StepSeparated(m: System, a: Label)
    requires Inv(m) && SeparatedEverywhere(m) && ConsiderateLabel(m.l.key, a)
    ensures SeparatedEverywhere(Apply(m, a))
  {
    hide OwnStep;
    match a
    case Start =>
    case Own(ch) => OwnSeparated(m, ch);
    case Crash =>
    case Foreign(call, ch) => ForeignLists(m.w, m.l.key, call, ch);
    case JobProgress(id, s) =>
  }

  lemma StepDistinct(m: System, a: Label)
    requires Inv(m) && DistinctEverywhere(m) && ConsiderateLabel(m.l.key, a) && AsksOnce(m.l.key, a)
    ensures DistinctEverywhere(Apply(m, a))
  {
    hide OwnStep;
    match a
    case Start =>
    case Own(ch) => OwnDistinct(m, ch);
    case Crash =>
    case Foreign(call, ch) => ForeignLists(m.w, m.l.key, call, ch);
    case JobProgress(id, s) =>
  }

  /** In every reachable state no installed module is recorded for installation again. */
  lemma {:induction false} NeverRecordedAgain(m: System, labels: seq<Label>)
    requires Initial(m) && ConsiderateRun(m.l.key, labels)
    ensures SeparatedEverywhere(RunAll(m, labels))
  {
    hide Apply, Continue, CallOf;
    if labels != [] {
      var front, a := labels[..|labels| - 1], labels[|labels| - 1];
      NeverRecordedAgain(m, front);
      ReachableInStep(m, front);
      StepSeparated(RunAll(m, front), a);
    }
  }

  /** If the user never asks for a module twice in one specification, no module is ever
      listed twice. */
  lemma {:induction false} NeverListedTwice(m: System, labels: seq<Label>)
    requires Initial(m) && ConsiderateRun(m.l.key, labels)
    requires forall i :: 0 <= i < |labels| ==> AsksOnce(m.l.key, labels[i])
    ensures DistinctEverywhere(RunAll(m, labels))
  {
    hide Apply, Continue, CallOf;
    if labels != [] {
      var front, a := labels[..|labels| - 1], labels[|labels| - 1];
      NeverListedTwice(m, front);
      ReachableInStep(m, front);
      StepDistinct(RunAll(m, front), a);
    }
  }

  /** No status write of the pass has been accepted. */
  ghost predicate Unwritten(m: System, labels: seq<Label>) {
    labels == [] ||
    (var front, a := labels[..|labels| - 1], labels[|labels| - 1];
     var n := RunAll(m, front);
     Unwritten(m, front) &&
     (a.Own? && StatusStep(n.l.pc) ==> !Serve(n.w, CallOf(n.l), a.choice).1.Written?))
  }

  lemma OwnDeduplicated(m: System, ch: Choice)
    requires Active(m.l.pc) ==> NoDup(m.l.mem.spec.modules)
    requires StatusStep(m.l.pc) ==> !Serve(m.w, CallOf(m.l), ch).1.Written?
    ensures var l' := OwnStep(m.w, m.l, ch).1; Active(l'.pc) ==> NoDup(l'.mem.spec.modules)
  {
    hide Continue, CallOf, Serve;
    var r := Serve(m.w, CallOf(m.l), ch).1;
    PassPoints(m.l.pc);
    if StatusStep(m.l.pc) {
      StatusStepLocal(m.l, r);
    } else if m.l.pc.Fetch? {
      FetchAnswer(m.w, m.l, ch);
      if HasResource(m.w, m.l.key) {
        DedupSound(StoredSpec(m.w, m.l.key).modules);
      }
    } else if ChildStep(m.l.pc) {
      ChildStepLocal(m.l, r);
    } else if m.l.pc.Idle? {
      IdleStays(m.l, r);
    } else {
      JobStepLocal(m.l, r);
    }
  }

  /** The deduplication at the beginning of a pass holds until a status write is accepted: a Job the
      pass starts before that lists no module twice. */
  lemma {:induction false} DeduplicatedUntilWritten(m: System, labels: seq<Label>)
    requires m.l.pc.Fetch? && Unwritten(m, labels)
    ensures var l := RunAll(m, labels).l; Active(l.pc) ==> NoDup(l.mem.spec.modules) && NoDup(LocalMissing(l))
  {
    hide Continue, CallOf, Serve;
    if labels != [] {
      var front, a := labels[..|labels| - 1], labels[|labels| - 1];
      DeduplicatedUntilWritten(m, front);
      if a.Own? {
        OwnDeduplicated(RunAll(m, front), a.choice);
      }
    }
    var l := RunAll(m, labels).l;
    if NoDup(l.mem.spec.modules) {
      DifferenceNoDup(l.mem.spec.modules, l.mem.status.initModulesInstalled);
    }
  }

  // ---- A Job without a record ----

  /** The init Job exists and nothing records it, neither stored nor in the running pass. */
  ghost predicate Orphaned(m: System) {
    LiveJob(m.w, m.l.key) &&
    (HasResource(m.w, m.l.key) ==> !Named(StoredStatus(m.w, m.l.key).currentInitJob)) &&
    (Active(m.l.pc) ==>
      !Named(m.l.mem.status.currentInitJob) && !m.l.pc.PodsList? && !m.l.pc.Cleanup?)
  }

  lemma OrphanWorld(m: System, ch: Choice)
    requires Inv(m) && Orphaned(m)
    ensures LiveJob(OwnStep(m.w, m.l, ch).0, m.l.key)
  {
    hide Continue;
    OwnJobSlot(m, ch);
    if m.l.pc.JobCreate? {
      OwnCreates(m, ch);
    }
  }

  lemma OrphanPc(m: System, ch: Choice)
    requires Inv(m) && Orphaned(m)
    ensures var l' := OwnStep(m.w, m.l, ch).1;
            Active(l'.pc) ==> !Named(l'.mem.status.currentInitJob) && !l'.pc.PodsList? && !l'.pc.Cleanup?
  {
    hide Continue, CallOf, Apply;
    var r := Serve(m.w, CallOf(m.l), ch).1;
    PassPoints(m.l.pc);
    if m.l.pc.JobCreate? {
      OrphanCreate(m, ch);
    } else if m.l.pc.Fetch? {
      FetchAnswer(m.w, m.l, ch);
      FetchPoint(m.l, r);
    } else if ChildStep(m.l.pc) {
      ChildStepLocal(m.l, r);
    } else if m.l.pc.Idle? {
      IdleStays(m.l, r);
    } else if StatusStep(m.l.pc) {
      StatusStepLocal(m.l, r);
      StatusAnswer(m.w, m.l, ch);
      StatusPoint(m.l, r);
    }
  }

  lemma FetchPoint(l: Local, r: Response)
    requires l.pc.Fetch?
    ensures !Continue(l, r).pc.PodsList? && !Continue(l, r).pc.Cleanup?
  {
    hide AfterField;
  }

  lemma StatusPoint(l: Local, r: Response)
    requires StatusStep(l.pc)
    ensures !Continue(l, r).pc.PodsList? && !Continue(l, r).pc.Cleanup?
  {
    hide AfterField;
  }

  /** The fixed name makes every further creation fail. */
  lemma OrphanCreate(m: System, ch: Choice)
    requires Inv(m) && Orphaned(m) && m.l.pc.JobCreate?
    ensures OwnStep(m.w, m.l, ch) == (m.w, Failed(m.l, 0))
  {
    hide AfterField;
  }

  lemma StepOrphaned(m: System, a: Label)
    requires Inv(m) && Orphaned(m) && ConsiderateLabel(m.l.key, a)
    ensures Orphaned(Apply(m, a))
  {
    hide Continue, CallOf;
    match a
    case Start =>
    case Own(ch) =>
      KeyStays(m, a);
      OrphanWorld(m, ch);
      OrphanPc(m, ch);
      OwnLists(m, ch);
    case Crash =>
    case Foreign(call, ch) => ForeignLists(m.w, m.l.key, call, ch); ServeFrame(m.w, call, ch, JobId(m.l.key));
    case JobProgress(id, s) =>
  }

  /** An init Job that exists without a record is never adopted and never removed: whatever
      the operator does, and however the specification is edited, it stays. */
  lemma {:induction false} OrphanStays(m: System, labels: seq<Label>)
    requires Inv(m) && Orphaned(m) && ConsiderateRun(m.l.key, labels)
    ensures Orphaned(RunAll(m, labels))
  {
    hide Apply, Continue, CallOf;
    if labels != [] {
      var front, a := labels[..|labels| - 1], labels[|labels| - 1];
      OrphanStays(m, front);
      RunKeepsInv(m, front);
      StepOrphaned(RunAll(m, front), a);
    }
  }
}
