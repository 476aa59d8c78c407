// What calm runs lead to: which states end with everything installed, how many Jobs appear on
// the way, and what a single pass does among the events around it.
module Liveness {
  import opened Types
  import opened ModuleLists
  import opened Templates
  import opened Api
  import opened Machine
  import opened Safety
  import opened History
  import opened Convergence
  import opened Fixpoint
  import opened Simulation
  import Children
  import Watch

  // ---- Runs in pieces ----

  lemma {:induction false} RunConcat(m: System, a: seq<Label>, b: seq<Label>)
    ensures RunAll(m, a + b) == RunAll(RunAll(m, a), b)
    ensures CalmRun(m, a + b) <==> CalmRun(m, a) && CalmRun(RunAll(m, a), b)
    ensures ActsRun(m, a + b) == ActsRun(m, a) + ActsRun(RunAll(m, a), b)
  {
    hide Apply, Calm, ActsOf;
    if b == [] {
      assert a + b == a;
    } else {
      var front := b[..|b| - 1];
      assert (a + b)[..|a + b| - 1] == a + front;
      RunConcat(m, a, front);
    }
  }

  lemma RunOne(m: System, a: Label)
    ensures RunAll(m, [a]) == Apply(m, a) && (CalmRun(m, [a]) <==> Calm(m, a)) && ActsRun(m, [a]) == ActsOf(m, a)
  {
    hide Apply, Calm, ActsOf;
    assert [a][..0] == [];
  }

  // ---- One pass ----

  /** The pass ends because a database field cannot be read. */
  ghost predicate Refused(m: System, a: Label) {
    a.Own? && m.l.pc.DbRead? && Apply(m, a).l.pc.Fail?
  }

  /** Whenever the pass asks for the configuration it can be computed. */
  ghost predicate NeverRefused(m: System, labels: seq<Label>) {
    labels == [] ||
    (NeverRefused(m, labels[..|labels| - 1]) && !Refused(RunAll(m, labels[..|labels| - 1]), labels[|labels| - 1]))
  }

  predicate OnlyTicks(acts: seq<Act>) {
    forall i :: 0 <= i < |acts| ==> acts[i] == DoTick
  }

  /** One pass, with Job events before and after it. */
  ghost predicate OnePass(acts: seq<Act>) {
    exists i :: PassAt(acts, i)
  }

  ghost predicate PassAt(acts: seq<Act>, i: int) {
    0 <= i < |acts| && acts[i] == DoPass && OnlyTicks(acts[..i]) && OnlyTicks(acts[i + 1..])
  }

  lemma ActsGrow(acts: seq<Act>, more: seq<Act>)
    ensures OnlyTicks(acts) && more == [DoPass] ==> OnePass(acts + more)
    ensures OnlyTicks(acts) && OnlyTicks(more) ==> OnlyTicks(acts + more)
    ensures OnePass(acts) && OnlyTicks(more) ==> OnePass(acts + more)
  {
    if OnlyTicks(acts) && more == [DoPass] {
      assert (acts + more)[..|acts|] == acts;
      assert PassAt(acts + more, |acts|);
    }
    if OnePass(acts) && OnlyTicks(more) {
      var i :| PassAt(acts, i);
      assert (acts + more)[..i] == acts[..i];
      assert (acts + more)[i + 1..] == acts[i + 1..] + more;
      assert PassAt(acts + more, i);
    }
  }

  /** What one label adds. */
  lemma ActsOfLabel(m: System, a: Label)
    requires Sound(m) && Calm(m, a) && !a.Start? && !Refused(m, a)
    ensures var m' := Apply(m, a);
            if Passed(m'.w, m'.l) && !Passed(m.w, m.l) then ActsOf(m, a) == [DoPass]
            else Passed(m'.w, m'.l) == Passed(m.w, m.l) && OnlyTicks(ActsOf(m, a))
  {
    hide Apply, Calm, Current, Sound, Continue;
    StepMoves(m, a);
    if a.Own? && m.l.pc.DbRead? {
      RefusedOrNot(m, a);
    }
  }

  /** A field that is read does not end the pass. */
  lemma RefusedOrNot(m: System, a: Label)
    requires Sound(m) && Calm(m, a) && a.Own? && m.l.pc.DbRead? && !Refused(m, a)
    ensures var m' := Apply(m, a); !Passed(m'.w, m'.l)
  {
    hide Continue, CallOf, Serve, Inv, InStep, HoldsAdmin, Aligned, Honest, Slotted;
    DbReadPoints(m.w, m.l, a.choice);
  }

  /** Once the pass has acted it does not act again, and an unfinished pass may still act. */
  lemma {:induction false} PassActsOnce(m: System, labels: seq<Label>)
    requires Sound(m) && m.l.pc.Fetch? && CalmRun(m, labels) && NoStart(labels) && NeverRefused(m, labels)
    ensures var m' := RunAll(m, labels);
            if Passed(m'.w, m'.l) then OnePass(ActsRun(m, labels)) else OnlyTicks(ActsRun(m, labels))
  {
    hide Apply, Calm, ActsOf, Sound, Refused, Passed, OnlyTicks, OnePass;
    if labels == [] {
      NothingYet(m);
    } else {
      var front, a := labels[..|labels| - 1], labels[|labels| - 1];
      PassActsOnce(m, front);
      RunSimulates(m, front);
      ActsOfLabel(RunAll(m, front), a);
      ActsGrow(ActsRun(m, front), ActsOf(RunAll(m, front), a));
    }
  }

  lemma NothingYet(m: System)
    requires m.l.pc.Fetch?
    ensures !Passed(m.w, m.l) && OnlyTicks([])
  {
  }

  lemma IdleHere(m: System)
    requires Sound(m) && m.l.pc.Idle?
    ensures HasResource(m.w, m.l.key) && Inv(m) && Current(m.w, m.l) == TrackOf(m.w, m.l.key) && Passed(m.w, m.l)
  {
    hide Inv;
  }

  /** A pass in a calm run moves the installation as if it happened at one moment: some Job
      events come before that moment, the others after it. */
  lemma PassIsAtomic(m: System, labels: seq<Label>)
    requires Inv(m) && m.l.pc.Fetch? && HasResource(m.w, m.l.key) && m.l.key.namespace != ""
    requires CalmRun(m, labels) && NoStart(labels) && NeverRefused(m, labels) && RunAll(m, labels).l.pc.Idle?
    ensures var m' := RunAll(m, labels);
            HasResource(m'.w, m.l.key) && OnePass(ActsRun(m, labels)) &&
            TrackOf(m'.w, m.l.key) == DoAll(TrackOf(m.w, m.l.key), ActsRun(m, labels))
  {
    hide Apply, CalmRun, NeverRefused, Sound, Passed, Inv, Current, TrackOf;
    BeginSound(m);
    RunSimulates(m, labels);
    PassActsOnce(m, labels);
    IdleHere(RunAll(m, labels));
  }

  // ---- What a pass records ----

  lemma {:induction false} TicksWithoutJob(t: Track, acts: seq<Act>)
    requires t.job.None? && OnlyTicks(acts)
    ensures DoAll(t, acts) == t
    decreases |acts|
  {
    if acts != [] {
      assert acts[0] == DoTick;
      TicksWithoutJob(t, acts[1..]);
    }
  }

  lemma {:induction false} TicksKeepRecord(t: Track, acts: seq<Act>)
    requires OnlyTicks(acts)
    ensures DoAll(t, acts).record == t.record
    decreases |acts|
  {
    if acts != [] {
      assert acts[0] == DoTick;
      TicksKeepRecord(Tick(t), acts[1..]);
    }
  }

  lemma OnePassRecords(t: Track, acts: seq<Act>)
    requires Creates(t) && OnePass(acts)
    ensures DoAll(t, acts).record == Some(t.Missing())
  {
    var i :| PassAt(acts, i);
    assert acts == acts[..i] + ([DoPass] + acts[i + 1..]);
    DoAllConcat(t, acts[..i], [DoPass] + acts[i + 1..]);
    DoAllConcat(t, [DoPass], acts[i + 1..]);
    TicksWithoutJob(t, acts[..i]);
    assert DoAll(t, [DoPass]) == Pass(t);
    TicksKeepRecord(Pass(t), acts[i + 1..]);
  }

  /** After a pass that starts a Job the stored record lists what was missing in the stored
      specification, repeated modules included, although the pass began by removing them from
      memory. It is free of duplicates exactly when every missing module is requested once. */
  lemma RecordAfterPass(m: System, labels: seq<Label>)
    requires Inv(m) && m.l.pc.Fetch? && HasResource(m.w, m.l.key) && m.l.key.namespace != ""
    requires CalmRun(m, labels) && NoStart(labels) && NeverRefused(m, labels) && RunAll(m, labels).l.pc.Idle?
    requires Creates(TrackOf(m.w, m.l.key))
    ensures var m' := RunAll(m, labels); var spec := StoredSpec(m.w, m.l.key); var status := StoredStatus(m.w, m.l.key);
            HasResource(m'.w, m.l.key) &&
            var record := StoredStatus(m'.w, m.l.key).currentInitJob.modules;
            record == Missing(spec, status) &&
            (NoDup(record) <==> RequestedOnce(spec.modules, status.initModulesInstalled))
  {
    hide Apply, CalmRun, NeverRefused, Inv, RunAll, OnePass, Creates, ActsRun, Difference, DoAll;
    PassIsAtomic(m, labels);
    OnePassRecords(TrackOf(m.w, m.l.key), ActsRun(m, labels));
    DifferenceNoDupExactly(StoredSpec(m.w, m.l.key).modules, StoredStatus(m.w, m.l.key).initModulesInstalled);
  }

  /** A module requested twice is recorded twice. */
  lemma RepeatedRequestIsRecordedTwice(m: System, labels: seq<Label>)
    requires Inv(m) && m.l.pc.Fetch? && HasResource(m.w, m.l.key) && m.l.key.namespace != ""
    requires CalmRun(m, labels) && NoStart(labels) && NeverRefused(m, labels) && RunAll(m, labels).l.pc.Idle?
    requires StoredSpec(m.w, m.l.key).modules == ["base", "base"] && StoredStatus(m.w, m.l.key) == EMPTY_STATUS
    requires !Exists(m.w, JobId(m.l.key))
    ensures Dedup(["base", "base"]) == ["base"]
    ensures var m' := RunAll(m, labels);
            HasResource(m'.w, m.l.key) && StoredStatus(m'.w, m.l.key).currentInitJob.modules == ["base", "base"]
  {
    BaseTwice();
    hide Apply, CalmRun, NeverRefused, Inv, RunAll, Difference, Dedup;
    RecordAfterPass(m, labels);
  }

  lemma BaseTwice()
    ensures Dedup(["base", "base"]) == ["base"] && Difference(["base", "base"], []) == ["base", "base"]
  {
    var all, one := ["base", "base"], ["base"];
    var none: set<string> := {};
    assert all[1..] == one && one[1..] == [] && none + {all[0]} == {"base"};
    assert FirstOccurrences(one, {"base"}) == FirstOccurrences([], {"base"});
    assert Difference(one, []) == one;
  }

  // ---- Fair runs ----

  /** Somewhere in the stretch a pass begins and comes to its end; other events may fall between
      its steps. */
  ghost predicate HasPass(m: System, labels: seq<Label>) {
    exists before, pass, rest :: PassWithin(m, labels, before, pass, rest)
  }

  ghost predicate PassWithin(m: System, labels: seq<Label>, before: seq<Label>, pass: seq<Label>, rest: seq<Label>) {
    labels == before + [Start] + pass + rest && NoStart(pass) &&
    var begun := RunAll(m, before + [Start]);
    begun.l.pc.Fetch? && RunAll(begun, pass).l.pc.Idle?
  }

  /** Somewhere in the stretch the init Job makes a step, if it exists then. */
  ghost predicate HasTick(m: System, labels: seq<Label>) {
    exists i :: 0 <= i < |labels| && IsTick(m.l.key, labels[i])
  }

  predicate IsTick(key: Key, a: Label) {
    a.JobProgress? && a.id == JobId(key)
  }

  /** Stretch after stretch, both the operator and the Job controller get their turn. */
  ghost predicate FairRun(m: System, rounds: seq<seq<Label>>)
    decreases |rounds|
  {
    rounds == [] ||
    (CalmRun(m, rounds[0]) && NeverRefused(m, rounds[0]) && HasPass(m, rounds[0]) && HasTick(m, rounds[0]) &&
     FairRun(RunAll(m, rounds[0]), rounds[1..]))
  }

  ghost function RunRounds(m: System, rounds: seq<seq<Label>>): System
    decreases |rounds|
  {
    if rounds == [] then m else RunRounds(RunAll(m, rounds[0]), rounds[1..])
  }

  ghost function RoundActs(m: System, rounds: seq<seq<Label>>): (acts: seq<seq<Act>>)
    ensures |acts| == |rounds|
    decreases |rounds|
  {
    if rounds == [] then [] else [ActsRun(m, rounds[0])] + RoundActs(RunAll(m, rounds[0]), rounds[1..])
  }

  lemma NeverRefusedConcat(m: System, a: seq<Label>, b: seq<Label>)
    requires NeverRefused(m, a + b)
    ensures NeverRefused(m, a) && NeverRefused(RunAll(m, a), b)
  {
    hide Apply, Refused;
    if b == [] {
      assert a + b == a;
    } else {
      var front := b[..|b| - 1];
      assert (a + b)[..|a + b| - 1] == a + front;
      RunConcat(m, a, front);
      NeverRefusedConcat(m, a, front);
    }
  }

  lemma PassCounts(m: System, labels: seq<Label>)
    requires Sound(m) && CalmRun(m, labels) && NeverRefused(m, labels) && HasPass(m, labels)
    ensures DoPass in ActsRun(m, labels)
  {
    hide Apply, Calm, Sound, NeverRefused, Refused, RunAll, CalmRun, ActsRun, OnePass, NoStart;
    var before, pass, rest :| PassWithin(m, labels, before, pass, rest);
    var lead := before + [Start];
    var begun := RunAll(m, lead);
    assert labels == lead + (pass + rest);
    RunConcat(m, lead, pass + rest);
    RunConcat(begun, pass, rest);
    NeverRefusedConcat(m, lead, pass + rest);
    NeverRefusedConcat(begun, pass, rest);
    RunSimulates(m, lead);
    PassActsOnce(begun, pass);
    EndPassed(RunAll(begun, pass));
    OnePassIn(ActsRun(begun, pass));
  }

  lemma EndPassed(m: System)
    requires m.l.pc.Idle?
    ensures Passed(m.w, m.l)
  {
  }

  lemma OnePassIn(acts: seq<Act>)
    requires OnePass(acts)
    ensures DoPass in acts
  {
    var i :| PassAt(acts, i);
    assert acts[i] in acts;
  }

  lemma TickCounts(m: System, labels: seq<Label>)
    requires Sound(m) && CalmRun(m, labels) && HasTick(m, labels)
    ensures DoTick in ActsRun(m, labels)
  {
    hide Apply, Calm, Sound, RunAll, CalmRun, ActsRun;
    var i :| 0 <= i < |labels| && IsTick(m.l.key, labels[i]);
    var lead, rest := labels[..i], labels[i + 1..];
    assert labels == lead + ([labels[i]] + rest);
    RunConcat(m, lead, [labels[i]] + rest);
    RunConcat(RunAll(m, lead), [labels[i]], rest);
    RunOne(RunAll(m, lead), labels[i]);
    RunSimulates(m, lead);
    assert ActsOf(RunAll(m, lead), labels[i]) == [DoTick];
    assert [DoTick][0] in ActsRun(m, labels);
  }

  lemma {:induction false} FairSimulates(m: System, rounds: seq<seq<Label>>)
    requires Sound(m) && FairRun(m, rounds)
    ensures var m' := RunRounds(m, rounds); var acts := RoundActs(m, rounds);
            Sound(m') && m'.l.key == m.l.key && HasResource(m.w, m.l.key) && HasResource(m'.w, m.l.key) &&
            Current(m'.w, m'.l) == DoRounds(Current(m.w, m.l), acts) &&
            forall i :: 0 <= i < |acts| ==> Round(acts[i])
    decreases |rounds|
  {
    hide Apply, Calm, RunAll, CalmRun, ActsRun, Current, HasPass, HasTick, NeverRefused, Sound, DoAll;
    SoundHere(m);
    if rounds != [] {
      var n := RunAll(m, rounds[0]);
      RunSimulates(m, rounds[0]);
      PassCounts(m, rounds[0]);
      TickCounts(m, rounds[0]);
      SoundHere(n);
      FairSimulates(n, rounds[1..]);
    }
  }

  /** Seven stretches of a fair calm run install every module, from exactly the states that are
      not blocked. Job events, harmless requests by others and steps of passes fall in any order. */
  lemma InstallationConverges(m: System, rounds: seq<seq<Label>>)
    requires Inv(m) && m.l.pc.Idle? && HasResource(m.w, m.l.key) && m.l.key.namespace != ""
    requires |rounds| >= 7 && FairRun(m, rounds) && RunRounds(m, rounds).l.pc.Idle?
    ensures var m' := RunRounds(m, rounds); var key := m.l.key;
            HasResource(m'.w, key) &&
            (Missing(StoredSpec(m'.w, key), StoredStatus(m'.w, key)) == [] <==> !Blocked(TrackOf(m.w, key)))
  {
    hide FairRun, RunRounds, Sound, Current, Inv, Blocked;
    BeginSound(m);
    FairSimulates(m, rounds);
    IdleHere(RunRounds(m, rounds));
    ConvergesExactly(TrackOf(m.w, m.l.key), RoundActs(m, rounds));
  }

  // ---- Jobs on the way ----

  /** How often the init Job comes into being during a run. */
  ghost function Appearances(m: System, labels: seq<Label>): nat {
    if labels == [] then 0
    else
      var front := labels[..|labels| - 1];
      Appearances(m, front) +
      (if Appears(RunAll(m, front), labels[|labels| - 1]) then 1 else 0)
  }

  ghost predicate Appears(m: System, a: Label) {
    !Exists(m.w, JobId(m.l.key)) && Exists(Apply(m, a).w, JobId(m.l.key))
  }

  lemma JobSeen(m: System)
    requires Sound(m)
    ensures HasResource(m.w, m.l.key) && (Current(m.w, m.l).job.Some? <==> Exists(m.w, JobId(m.l.key)))
  {
  }

  lemma AppearsIsCreation(m: System, a: Label)
    requires Sound(m) && Calm(m, a)
    ensures HasResource(m.w, m.l.key) &&
            (if Appears(m, a) then 1 else 0) == Creations(Current(m.w, m.l), ActsOf(m, a))
  {
    hide Apply, Calm, Current, Sound, Acts;
    StepMoves(m, a);
    JobSeen(m);
    JobSeen(Apply(m, a));
    var t := Current(m.w, m.l);
    assert DoAll(t, [DoPass]) == Pass(t) && DoAll(t, [DoTick]) == Tick(t);
  }

  lemma {:induction false} AppearancesAreCreations(m: System, labels: seq<Label>)
    requires Sound(m) && CalmRun(m, labels)
    ensures HasResource(m.w, m.l.key) && Appearances(m, labels) == Creations(Current(m.w, m.l), ActsRun(m, labels))
  {
    hide Apply, Calm, Current, Sound, Appears, ActsOf, DoAll;
    SoundHere(m);
    if labels != [] {
      var front, a := labels[..|labels| - 1], labels[|labels| - 1];
      var n := RunAll(m, front);
      AppearancesAreCreations(m, front);
      RunSimulates(m, front);
      AppearsIsCreation(n, a);
      DoAllConcat(Current(m.w, m.l), ActsRun(m, front), ActsOf(n, a));
    }
  }

  /** In a calm run the init Job comes into being at most once, and never in a blocked state. */
  lemma AtMostOneJobAppears(m: System, labels: seq<Label>)
    requires Inv(m) && m.l.pc.Idle? && HasResource(m.w, m.l.key) && m.l.key.namespace != "" && CalmRun(m, labels)
    ensures Appearances(m, labels) <= if Blocked(TrackOf(m.w, m.l.key)) then 0 else 1
  {
    hide Sound, CalmRun, Current, Inv, Blocked, Appearances;
    var t := TrackOf(m.w, m.l.key);
    BeginSound(m);
    AppearancesAreCreations(m, labels);
    if Blocked(t) {
      BlockedCreatesNothing(t, ActsRun(m, labels));
    } else {
      AtMostOneMoreJob(t, ActsRun(m, labels));
    }
  }

  /** A blocked state stays blocked in every calm run: at no idle moment is everything installed. */
  lemma BlockedStaysBlocked(m: System, labels: seq<Label>)
    requires Inv(m) && m.l.pc.Idle? && HasResource(m.w, m.l.key) && m.l.key.namespace != "" && CalmRun(m, labels)
    requires Blocked(TrackOf(m.w, m.l.key)) && RunAll(m, labels).l.pc.Idle?
    ensures var m' := RunAll(m, labels); var key := m.l.key;
            HasResource(m'.w, key) && Blocked(TrackOf(m'.w, key)) &&
            Missing(StoredSpec(m'.w, key), StoredStatus(m'.w, key)) != []
  {
    hide Sound, CalmRun, Current, Inv, RunAll;
    BeginSound(m);
    RunSimulates(m, labels);
    BlockedForever(TrackOf(m.w, m.l.key), ActsRun(m, labels));
    IdleHere(RunAll(m, labels));
  }

  // ---- When the configuration can be computed ----

  predicate RefersTo(spec: OdooSpec, name: string) {
    exists i :: 0 <= i < FIELDS && FromSecret(DbRef(spec.database, i)) && DbRef(spec.database, i).name == name
  }

  function DetailsIn(w: World, key: Key, spec: OdooSpec): Result<ConnectionDetails, (nat, DbError)> {
    GetDbConnectionDetails(spec.database, key.namespace, SecretsOf(w))
  }

  /** The connection details can be computed, not from the configuration secret, and not from an
      admin secret that has yet to get its password. */
  ghost predicate Ready(w: World, key: Key, spec: OdooSpec) {
    !SelfReferring(key, spec) && DetailsIn(w, key, spec).Ok? &&
    (Children.HoldsPassword(w, Id(SecretKind, AdminKey(key, spec))) || !RefersTo(spec, AdminKey(key, spec).name))
  }

  predicate ReadingFor(w: World, l: Local) {
    l.pc.DbRead? ==> Reading(w, l, l.pc.i, l.pc.details)
  }

  ghost predicate ReadyNow(m: System) {
    Sound(m) && Children.AdminKnown(m.w, m.l) && HasResource(m.w, m.l.key) &&
    Ready(m.w, m.l.key, StoredSpec(m.w, m.l.key)) && ReadingFor(m.w, m.l)
  }

  lemma DetailsFrame(w: World, w': World, key: Key, spec: OdooSpec, i: nat, d: ConnectionDetails)
    requires i <= FIELDS
    requires forall j :: 0 <= j < FIELDS && FromSecret(DbRef(spec.database, j)) ==>
      var k := Key(key.namespace, DbRef(spec.database, j).name); At(w', Id(SecretKind, k)) == At(w, Id(SecretKind, k))
    ensures DetailsIn(w', key, spec) == DetailsIn(w, key, spec)
    ensures DetailsFrom(spec.database, key.namespace, SecretsOf(w'), i, d) ==
            DetailsFrom(spec.database, key.namespace, SecretsOf(w), i, d)
  {
    hide DbRef;
    Watch.DetailsDependOnRefs(spec.database, key.namespace, SecretsOf(w'), SecretsOf(w), 0, NO_DETAILS);
    Watch.DetailsDependOnRefs(spec.database, key.namespace, SecretsOf(w'), SecretsOf(w), i, d);
  }

  /** While the secrets the resource reads are left alone, it stays ready. */
  lemma ReadyFrame(w: World, w': World, l: Local, spec: OdooSpec)
    requires Ready(w, l.key, spec) && ReadingFor(w, l) && (l.pc.DbRead? ==> l.mem.spec == spec)
    requires forall k :: ReadsSecret(l.key, spec, k) ==> At(w', Id(SecretKind, k)) == At(w, Id(SecretKind, k))
    ensures Ready(w', l.key, spec) && ReadingFor(w', l)
  {
    hide DbRef, AdminKey, SelfReferring, RefersTo, GetDbConnectionDetails;
    forall j | 0 <= j < FIELDS && FromSecret(DbRef(spec.database, j))
      ensures var k := Key(l.key.namespace, DbRef(spec.database, j).name);
              At(w', Id(SecretKind, k)) == At(w, Id(SecretKind, k))
    {
      assert ReadsSecret(l.key, spec, Key(l.key.namespace, DbRef(spec.database, j).name));
    }
    if l.pc.DbRead? && l.pc.i < FIELDS {
      DetailsFrame(w, w', l.key, spec, l.pc.i, l.pc.details);
    } else {
      DetailsFrame(w, w', l.key, spec, 0, NO_DETAILS);
    }
    assert ReadsSecret(l.key, spec, AdminKey(l.key, spec));
  }

  /** A write of one secret the details do not depend on. */
  lemma ReadyWrite(w: World, w': World, key: Key, spec: OdooSpec, written: Key)
    requires Ready(w, key, spec) && !RefersTo(spec, written.name)
    requires forall k :: k != written ==> At(w', Id(SecretKind, k)) == At(w, Id(SecretKind, k))
    requires Children.HoldsPassword(w, Id(SecretKind, AdminKey(key, spec))) ==>
             Children.HoldsPassword(w', Id(SecretKind, AdminKey(key, spec)))
    ensures Ready(w', key, spec)
  {
    hide DbRef, AdminKey, SelfReferring, GetDbConnectionDetails;
    DetailsFrame(w, w', key, spec, 0, NO_DETAILS);
  }

  lemma ReadySources(l: Local, r: Response)
    requires !l.pc.ConfigGet? && !l.pc.DbRead? && !l.pc.Idle?
    ensures !Continue(l, r).pc.DbRead?
  {
    hide AfterField, AfterConfigGet;
  }

  lemma ReadBegins(w: World, l: Local, r: Response)
    requires l.pc.ConfigGet?
    ensures ReadingFor(w, Continue(l, r))
  {
    hide AfterField, AfterServiceGet, AfterDeployGet, AfterJobGet, AfterFetch, AfterAdminGenerate, DetailsFrom;
  }

  /** With computable details every field can be read. */
  lemma ReadGoesOn(w: World, l: Local, ch: Choice)
    requires l.pc.DbRead? && Reading(w, l, l.pc.i, l.pc.details) && HoldsAdmin(l) && WellTyped(w)
    requires DetailsIn(w, l.key, l.mem.spec).Ok? && Honest(w, CallOf(l), ch)
    ensures var (w', l') := OwnStep(w, l, ch); w' == w && !l'.pc.Fail? && ReadingFor(w', l')
  {
    hide AfterField, ReadField, Field, Honest, CallOf, SecretsOf, DbRef;
    var r := Serve(w, CallOf(l), ch).1;
    ReadLeaves(w, l, ch);
    FieldRead(w, l, ch);
    FieldGoesOn(w, l, l.pc.i, l.pc.details, ReadField(l, l.pc.i, l.pc.details, r), l.pc.found);
  }

  lemma ReadLeaves(w: World, l: Local, ch: Choice)
    requires l.pc.DbRead?
    ensures OwnStep(w, l, ch).0 == w
  {
    hide Continue;
  }

  lemma FieldGoesOn(w: World, l: Local, i: nat, d: ConnectionDetails, field: Result<ConnectionDetails, DbError>,
                    found: Option<Stored>)
    requires Reading(w, l, i, d) && DetailsIn(w, l.key, l.mem.spec).Ok? && PASSWORD in l.admin
    requires var db := l.mem.spec.database;
             field == Field(d, db, i, SecretsOf(w)(Key(l.key.namespace, DbRef(db, i).name)))
    ensures var l' := AfterField(l, i, field, found); !l'.pc.Fail? && ReadingFor(w, l')
  {
    hide Field, DbRef, ConfigData, SecretsOf, GetDbConnectionDetails;
    assert field.Ok?;
  }

  /** The pass writes the admin secret only to give it the password it lacks. */
  lemma AdminPutReady(m: System, ch: Choice)
    requires ReadyNow(m) && m.l.pc.AdminPut?
    ensures Ready(OwnStep(m.w, m.l, ch).0, m.l.key, StoredSpec(m.w, m.l.key))
  {
    hide Continue, Inv, GetDbConnectionDetails, SelfReferring, RefersTo;
    var w' := OwnStep(m.w, m.l, ch).0;
    var spec := StoredSpec(m.w, m.l.key);
    AdminAlike(m);
    forall k | k != AdminKey(m.l.key, spec) ensures At(w', Id(SecretKind, k)) == At(m.w, Id(SecretKind, k)) {
      ServeFrame(m.w, CallOf(m.l), ch, Id(SecretKind, k));
    }
    if w' == m.w {
    } else {
      AdminPutLacks(m, ch);
      hide CallOf, Serve, AdminKey;
      ReadyWrite(m.w, w', m.l.key, spec, AdminKey(m.l.key, spec));
    }
  }

  lemma AdminAlike(m: System)
    requires Sound(m) && Active(m.l.pc)
    ensures AdminKey(m.l.key, m.l.mem.spec) == AdminKey(m.l.key, StoredSpec(m.w, m.l.key))
  {
    hide Inv, Meets, Aligned;
  }

  lemma AdminPutLacks(m: System, ch: Choice)
    requires ReadyNow(m) && m.l.pc.AdminPut? && OwnStep(m.w, m.l, ch).0 != m.w
    ensures !Children.HoldsPassword(m.w, AdminId(m.l)) && Children.HoldsPassword(OwnStep(m.w, m.l, ch).0, AdminId(m.l))
  {
    hide Continue, Inv, Ready, AdminKey, Aligned, Synced, InStep;
  }

  lemma ConfigPutReady(m: System, ch: Choice)
    requires ReadyNow(m) && m.l.pc.ConfigPut?
    ensures Ready(OwnStep(m.w, m.l, ch).0, m.l.key, StoredSpec(m.w, m.l.key))
  {
    hide Continue, Inv, Meets, Aligned, InStep, GetDbConnectionDetails, HoldsAdmin;
    var w' := OwnStep(m.w, m.l, ch).0;
    var spec := StoredSpec(m.w, m.l.key);
    forall k | k != ConfigKey(m.l.key) ensures At(w', Id(SecretKind, k)) == At(m.w, Id(SecretKind, k)) {
      ServeFrame(m.w, CallOf(m.l), ch, Id(SecretKind, k));
    }
    NotSelfReferring(m.l.key, spec);
    hide CallOf, Serve, AdminKey, SelfReferring, RefersTo;
    ReadyWrite(m.w, w', m.l.key, spec, ConfigKey(m.l.key));
  }

  lemma NotSelfReferring(key: Key, spec: OdooSpec)
    requires !SelfReferring(key, spec)
    ensures !RefersTo(spec, ConfigKey(key).name) && AdminKey(key, spec) != ConfigKey(key)
  {
    hide DbRef, AdminKey;
  }

  lemma OwnReady(m: System, ch: Choice)
    requires ReadyNow(m) && Honest(m.w, CallOf(m.l), ch)
    ensures var (w', l') := OwnStep(m.w, m.l, ch);
            Ready(w', m.l.key, StoredSpec(m.w, m.l.key)) && ReadingFor(w', l') && (m.l.pc.DbRead? ==> !l'.pc.Fail?)
  {
    hide Continue, CallOf, Serve, Inv, InStep, Meets, Aligned, Honest, Ready, Reading, HoldsAdmin;
    var (w', r) := Serve(m.w, CallOf(m.l), ch);
    PassPoints(m.l.pc);
    Children.SecretTargets(m);
    TypedNow(m);
    match m.l.pc
    case DbRead(_, _, _) =>
      ReadyDetails(m.w, m.l.key, m.l.mem.spec);
      ReadGoesOn(m.w, m.l, ch);
    case AdminPut(_, _) =>
      AdminPutReady(m, ch);
      ReadySources(m.l, r);
    case ConfigPut(_, _) =>
      ConfigPutReady(m, ch);
      ReadySources(m.l, r);
    case _ =>
      StepUntouched(m.w, m.l, ch, SecretKind);
      UntouchedReady(m.w, w', m.l, StoredSpec(m.w, m.l.key));
      if m.l.pc.ConfigGet? {
        ReadBegins(w', m.l, r);
      } else if m.l.pc.Idle? {
        IdleStays(m.l, r);
      } else {
        ReadySources(m.l, r);
      }
  }

  lemma ReadyDetails(w: World, key: Key, spec: OdooSpec)
    requires Ready(w, key, spec)
    ensures DetailsIn(w, key, spec).Ok?
  {
  }

  lemma UntouchedReady(w: World, w': World, l: Local, spec: OdooSpec)
    requires Ready(w, l.key, spec) && Untouched(w, w', SecretKind)
    ensures Ready(w', l.key, spec)
  {
    hide Ready, AdminKey, SelfReferring;
    ReadyFrame(w, w', l.(pc := Fetch), spec);
  }

  lemma StepReady(m: System, a: Label)
    requires ReadyNow(m) && Calm(m, a)
    ensures ReadyNow(Apply(m, a)) && !Refused(m, a)
  {
    hide Continue, CallOf, Serve, Inv, InStep, Meets, Aligned, Current, Ready, Children.AdminKnown, HoldsAdmin, Reading;
    StepMoves(m, a);
    Children.StepAdminKnown(m, a);
    SoundHere(Apply(m, a));
    match a
    case Own(ch) =>
      OwnReady(m, ch);
      OwnLists(m, ch);
    case Foreign(call, ch) =>
      HarmlessFrame(m.w, m.l.key, StoredSpec(m.w, m.l.key), call, ch);
      ReadyFrame(m.w, Apply(m, a).w, m.l, StoredSpec(m.w, m.l.key));
    case JobProgress(id, s) =>
      TypedNow(m);
      ProgressFrame(m, id, s);
      ReadyFrame(m.w, Apply(m, a).w, m.l, StoredSpec(m.w, m.l.key));
    case _ =>
  }

  lemma {:induction false} RunReady(m: System, labels: seq<Label>)
    requires ReadyNow(m) && CalmRun(m, labels)
    ensures ReadyNow(RunAll(m, labels)) && NeverRefused(m, labels)
  {
    hide Apply, Calm, ReadyNow, Refused;
    if labels != [] {
      var front, a := labels[..|labels| - 1], labels[|labels| - 1];
      RunReady(m, front);
      StepReady(RunAll(m, front), a);
    }
  }

  /** Whether passes can configure the resource can be seen beforehand: once it is ready, it stays
      ready in every calm run, and no pass is refused. */
  lemma ReadyIsNeverRefused(m: System, labels: seq<Label>)
    requires Inv(m) && m.l.pc.Idle? && HasResource(m.w, m.l.key) && m.l.key.namespace != ""
    requires Ready(m.w, m.l.key, StoredSpec(m.w, m.l.key)) && CalmRun(m, labels)
    ensures var m' := RunAll(m, labels);
            NeverRefused(m, labels) && HasResource(m'.w, m'.l.key) &&
            Ready(m'.w, m'.l.key, StoredSpec(m'.w, m'.l.key))
  {
    hide Inv, Sound, Ready, CalmRun, NeverRefused, RunAll;
    BeginSound(m);
    RunReady(m, labels);
  }
}
