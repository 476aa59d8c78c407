// From installation to rest: after a fair calm run one further pass leaves a steady store, and
// from then on no pass changes a child.
module Settling {
  import opened Types
  import opened ModuleLists
  import opened Templates
  import opened Api
  import opened Machine
  import opened Safety
  import opened History
  import opened Convergence
  import opened Fixpoint
  import opened Simulation
  import opened Liveness
  import opened HonestPass

  lemma RestStays(t: Track)
    requires AtRest(t)
    ensures Pass(t) == t && !CannotCreate(t)
  {
  }

  /** Points a pass comes to while nothing is left to install and no Job is at work. */
  predicate RestPoint(pc: Pc) {
    !pc.PodsList? && !pc.Cleanup? && !pc.JobCreate? && (pc.JobStatusFirst? || pc.JobStatusSecond? ==> pc.after == 0) &&
    (pc.Idle? && !pc.failed ==> pc.after == 0)
  }

  lemma RestLookup(m: System, ch: Choice)
    requires Sound(m) && Honest(m.w, CallOf(m.l), ch) && m.l.pc.JobGet? && AtRest(TrackOf(m.w, m.l.key))
    ensures RestPoint(Apply(m, Own(ch)).l.pc)
  {
    hide AfterField, AfterAdminGenerate, AfterServiceGet, AfterDeployGet, AfterFetch, AfterConfigGet, CallOf, Serve;
    hide Inv, InStep, HoldsAdmin, Honest, Difference;
    JobLookup(m, ch);
  }

  lemma RestEntry(w: World, l: Local)
    requires HasResource(w, l.key) && l.mem.spec == StoredSpec(w, l.key)
    requires TrackWith(w, l.key, l.mem.status).Done()
    ensures RestPoint(JobEntry(l).pc)
  {
    hide Difference;
  }

  lemma RestWrite(l: Local, r: Response)
    requires StatusStep(l.pc) && !l.pc.ClaimStatus? && !l.pc.ConfigNoPassword? && RestPoint(l.pc)
    ensures RestPoint(Continue(l, r).pc)
  {
    hide AfterField, AfterAdminGenerate, AfterServiceGet, AfterDeployGet, AfterJobGet, AfterFetch, AfterConfigGet;
    hide Refreshed;
  }

  lemma RestStatus(m: System, ch: Choice)
    requires Sound(m) && Honest(m.w, CallOf(m.l), ch) && StatusStep(m.l.pc)
    requires HasResource(m.w, m.l.key) && AtRest(Current(m.w, m.l)) && RestPoint(m.l.pc)
    ensures RestPoint(Apply(m, Own(ch)).l.pc)
  {
    StatusTracks(m, ch);
    NoPasswordHere(m);
    hide Continue, CallOf, Inv, InStep, HoldsAdmin, Meets, Honest, Refreshed, Serve, JobEntry, TrackWith, Unfinished;
    var (w', r) := Serve(m.w, CallOf(m.l), ch);
    if m.l.pc.ClaimStatus? {
      ClaimStatusStep(m.l, r);
      RestEntry(w', Refreshed(m.l, r));
    } else {
      RestWrite(m.l, r);
    }
  }

  lemma RestChild(m: System, ch: Choice)
    requires Sound(m) && Honest(m.w, CallOf(m.l), ch) && ChildStep(m.l.pc) && RestPoint(m.l.pc)
    ensures RestPoint(Apply(m, Own(ch)).l.pc)
  {
    hide Continue, CallOf, Serve, Inv, InStep, Aligned, Honest, Meets, HoldsAdmin;
    TypedNow(m);
    ChildPoints(m.w, m.l, ch);
  }

  lemma RestStep(m: System, ch: Choice)
    requires Sound(m) && Honest(m.w, CallOf(m.l), ch) && RestPoint(m.l.pc)
    requires HasResource(m.w, m.l.key) && AtRest(Current(m.w, m.l))
    ensures var m' := Apply(m, Own(ch));
            RestPoint(m'.l.pc) && HasResource(m'.w, m'.l.key) && Current(m'.w, m'.l) == Current(m.w, m.l)
  {
    hide Continue, CallOf, Serve, Inv, InStep, Aligned, Honest, Meets, HoldsAdmin, AtRest, Pass;
    OwnMoves(m, ch);
    KeyStays(m, Own(ch));
    RestStays(Current(m.w, m.l));
    PassPoints(m.l.pc);
    match m.l.pc
    case Idle(_, _) => IdleStays(m.l, Serve(m.w, CallOf(m.l), ch).1);
    case Fetch => FetchPoints(m, ch);
    case JobGet => RestLookup(m, ch);
    case _ =>
      if ChildStep(m.l.pc) {
        RestChild(m, ch);
      } else {
        RestStatus(m, ch);
      }
  }

  lemma {:induction false} RunRests(m: System, labels: seq<Label>, t: Track)
    requires Sound(m) && m.l.pc.Fetch? && HasResource(m.w, m.l.key) && t == TrackOf(m.w, m.l.key) && AtRest(t)
    requires HonestRun(m, labels)
    ensures var m' := RunAll(m, labels);
            HasResource(m'.w, m'.l.key) && RestPoint(m'.l.pc) && Current(m'.w, m'.l) == t
  {
    hide Apply, Sound, Knows, Reasoned, HonestLabel, AtRest, TrackOf;
    if labels == [] {
      RestBegins(m);
    } else {
      var front, a := labels[..|labels| - 1], labels[|labels| - 1];
      RunRests(m, front, t);
      RunReasoned(m, front, t);
      HonestParts(RunAll(m, front), a);
      RestStep(RunAll(m, front), a.choice);
    }
  }

  lemma RestBegins(m: System)
    requires m.l.pc.Fetch? && HasResource(m.w, m.l.key)
    ensures RestPoint(m.l.pc) && Current(m.w, m.l) == TrackOf(m.w, m.l.key)
  {
  }

  /** With nothing left to install and a configuration that can be computed, an uninterrupted pass
      without faults ends for good, and leaves a steady store. */
  lemma RestingPassSettles(m: System, labels: seq<Label>)
    requires Inv(m) && m.l.pc.Fetch? && HasResource(m.w, m.l.key) && m.l.key.namespace != ""
    requires AtRest(TrackOf(m.w, m.l.key)) && Ready(m.w, m.l.key, StoredSpec(m.w, m.l.key))
    requires HonestRun(m, labels) && RunAll(m, labels).l.pc.Idle?
    ensures var m' := RunAll(m, labels);
            m'.l.pc == Idle(false, 0) && Inv(m') && m'.l.key == m.l.key && Fixed(m'.w, m.l.key)
  {
    hide Apply, Sound, Inv, RunAll, HonestRun, CalmRun, Ready, AtRest, TrackOf, Knows, Reasoned, Steady, Rested;
    var t := TrackOf(m.w, m.l.key);
    var m' := RunAll(m, labels);
    BeginSound(m);
    RunReasoned(m, labels, t);
    RunRests(m, labels, t);
    ReadyRuns(m, labels);
    HonestHasNoStart(m, labels);
    PassActsOnce(m, labels);
    RestStays(t);
    NotFailing(m', t, ActsRun(m, labels));
    HonestIsUndisturbed(m, labels);
    NoLostWakeUp(m, labels);
    SoundHere(m');
    ReadyNotSelf(m'.w, m.l.key, StoredSpec(m'.w, m.l.key));
    ResourceHere(m'.w, m.l.key);
  }

  lemma ResourceHere(w: World, key: Key)
    requires HasResource(w, key)
    ensures Exists(w, OdooId(key))
  {
  }

  lemma ReadyRuns(m: System, labels: seq<Label>)
    requires Sound(m) && m.l.pc.Fetch? && HasResource(m.w, m.l.key) && CalmRun(m, labels)
    requires Ready(m.w, m.l.key, StoredSpec(m.w, m.l.key))
    ensures var m' := RunAll(m, labels);
            NeverRefused(m, labels) && HasResource(m'.w, m'.l.key) && Ready(m'.w, m'.l.key, StoredSpec(m'.w, m'.l.key))
  {
    hide Sound, Ready, CalmRun, NeverRefused, RunAll;
    RunReady(m, labels);
  }

  lemma ReadyNotSelf(w: World, key: Key, spec: OdooSpec)
    requires Ready(w, key, spec)
    ensures !SelfReferring(key, spec)
  {
  }

  lemma NotFailing(m: System, t: Track, acts: seq<Act>)
    requires HasResource(m.w, m.l.key) && Reasoned(m, t, acts) && m.l.pc.Idle? && !CannotCreate(t)
    requires if Passed(m.w, m.l) then OnePass(acts) else OnlyTicks(acts)
    ensures !m.l.pc.failed
  {
    hide CannotCreate, TrackOf, CannotConfigure;
    if OnePass(acts) {
      OnePassIn(acts);
    }
  }

  // ---- The whole story ----

  lemma {:induction false} FairReady(m: System, rounds: seq<seq<Label>>)
    requires ReadyNow(m) && FairRun(m, rounds)
    ensures ReadyNow(RunRounds(m, rounds))
    decreases |rounds|
  {
    hide ReadyNow, CalmRun, NeverRefused, HasPass, HasTick, RunAll;
    if rounds != [] {
      RunReady(m, rounds[0]);
      FairReady(RunAll(m, rounds[0]), rounds[1..]);
    }
  }

  lemma IdleReady(m: System)
    requires Inv(m) && m.l.pc.Idle? && HasResource(m.w, m.l.key) && m.l.key.namespace != ""
    requires Ready(m.w, m.l.key, StoredSpec(m.w, m.l.key))
    ensures ReadyNow(m)
  {
    hide Inv, Ready;
    BeginSound(m);
  }

  lemma ReadyParts(m: System)
    requires ReadyNow(m)
    ensures Inv(m) && HasResource(m.w, m.l.key) && m.l.key.namespace != "" &&
            Ready(m.w, m.l.key, StoredSpec(m.w, m.l.key))
  {
    hide Inv, Ready;
  }

  lemma StartsPass(m: System)
    requires Inv(m) && m.l.pc.Idle?
    ensures var begun := Apply(m, Start); Inv(begun) && begun.w == m.w && begun.l.key == m.l.key && begun.l.pc.Fetch?
  {
    StepKeepsInv(m, Start);
    hide Inv;
  }

  /** A resource whose configuration can be computed and whose installation is not blocked comes to
      rest: after ten stretches of a fair calm run, one uninterrupted pass without faults leaves a
      steady store, and no later pass, failing or not, changes a child. */
  lemma InstallationSettles(m: System, rounds: seq<seq<Label>>, pass: seq<Label>, later: seq<Label>)
    requires Inv(m) && m.l.pc.Idle? && HasResource(m.w, m.l.key) && m.l.key.namespace != ""
    requires Ready(m.w, m.l.key, StoredSpec(m.w, m.l.key)) && !Blocked(TrackOf(m.w, m.l.key))
    requires |rounds| >= 10 && FairRun(m, rounds) && RunRounds(m, rounds).l.pc.Idle?
    requires var begun := Apply(RunRounds(m, rounds), Start);
             HonestRun(begun, pass) && RunAll(begun, pass).l.pc.Idle?
    requires Undisturbed(later)
    ensures var done := RunAll(Apply(RunRounds(m, rounds), Start), pass);
            done.l.pc == Idle(false, 0) && Steady(done.w, m.l.key) &&
            forall id :: id != OdooId(m.l.key) ==> At(RunAll(done, later).w, id) == At(done.w, id)
  {
    hide FairRun, RunRounds, Sound, Current, Inv, Blocked, Ready, ReadyNow, AtRest, RunAll, HonestRun, Apply;
    BeginSound(m);
    IdleReady(m);
    FairSimulates(m, rounds);
    FairReady(m, rounds);
    var n := RunRounds(m, rounds);
    IdleHere(n);
    ReadyParts(n);
    ComesToRest(TrackOf(m.w, m.l.key), RoundActs(m, rounds));
    StartsPass(n);
    var begun := Apply(n, Start);
    RestingPassSettles(begun, pass);
    SteadyStaysStill(RunAll(begun, pass), later);
  }

  // ---- Such runs exist ----

  /** A step of the init Job, if it exists. */
  ghost function NextTick(m: System): Label
    requires HasResource(m.w, m.l.key)
  {
    var t := TrackOf(m.w, m.l.key);
    JobProgress(JobId(m.l.key), if t.job.Some? then Tick(t).job.value else PENDING)
  }

  lemma TickIsCalm(m: System)
    requires HasResource(m.w, m.l.key) && m.l.pc.Idle?
    ensures Calm(m, NextTick(m)) && IsTick(m.l.key, NextTick(m)) && Apply(m, NextTick(m)).l == m.l
  {
  }

  /** A pass followed by a step of the init Job. */
  lemma SomeFairRound(m: System)
    requires ReadyNow(m) && m.l.pc.Idle?
    ensures exists labels :: FairStretch(m, labels)
  {
    hide ReadyNow, CalmRun, HonestRun, RunAll, Sound, Inv, Knows, Reasoned, Calm, Ready, NextTick, TrackOf, Apply;
    hide NeverRefused;
    ReadyParts(m);
    StartsPass(m);
    var begun := Apply(m, Start);
    SomeHonestPass(begun);
    var pass: seq<Label> :| HonestRun(begun, pass) && RunAll(begun, pass).l.pc.Idle?;
    BeginSound(begun);
    RunReasoned(begun, pass, TrackOf(begun.w, begun.l.key));
    HonestHasNoStart(begun, pass);
    var n := RunAll(begun, pass);
    var tick := NextTick(n);
    TickIsCalm(n);
    StartIsCalm(m);
    RunOne(m, Start);
    RunOne(n, tick);
    RunConcat(m, [Start], pass);
    RunConcat(m, [Start] + pass, [tick]);
    var labels := [Start] + pass + [tick];
    RunReady(m, labels);
    assert [] + [Start] == [Start];
    assert PassWithin(m, labels, [], pass, [tick]);
    assert labels[|labels| - 1] == tick;
    assert FairStretch(m, labels);
  }

  ghost predicate FairStretch(m: System, labels: seq<Label>) {
    CalmRun(m, labels) && NeverRefused(m, labels) && HasPass(m, labels) && HasTick(m, labels) &&
    RunAll(m, labels).l.pc.Idle?
  }

  lemma StartIsCalm(m: System)
    requires HasResource(m.w, m.l.key)
    ensures Calm(m, Start)
  {
  }

  /** From every idle state with a configuration that can be computed there are fair calm runs of
      any length, so an installation that is not blocked can always be completed. */
  lemma {:induction false} SomeFairRun(m: System, n: nat)
    requires ReadyNow(m) && m.l.pc.Idle?
    ensures exists rounds :: |rounds| == n && FairRun(m, rounds) && RunRounds(m, rounds).l.pc.Idle?
    decreases n
  {
    hide ReadyNow, CalmRun, NeverRefused, HasPass, HasTick, RunAll;
    if n == 0 {
      assert FairRun(m, []) && RunRounds(m, []) == m;
    } else {
      SomeFairRound(m);
      var labels: seq<Label> :| FairStretch(m, labels);
      RunReady(m, labels);
      SomeFairRun(RunAll(m, labels), n - 1);
      var rest: seq<seq<Label>> :|
        |rest| == n - 1 && FairRun(RunAll(m, labels), rest) && RunRounds(RunAll(m, labels), rest).l.pc.Idle?;
      assert ([labels] + rest)[1..] == rest;
      assert FairRun(m, [labels] + rest);
    }
  }

  /** What is not blocked can be installed. */
  lemma InstallableExactly(m: System)
    requires Inv(m) && m.l.pc.Idle? && HasResource(m.w, m.l.key) && m.l.key.namespace != ""
    requires Ready(m.w, m.l.key, StoredSpec(m.w, m.l.key))
    ensures (exists labels :: CalmRun(m, labels) && InstalledAfter(m, labels)) <==> !Blocked(TrackOf(m.w, m.l.key))
  {
    hide FairRun, RunRounds, Sound, Inv, Blocked, Ready, ReadyNow, RunAll, CalmRun, TrackOf, InstalledAfter;
    if Blocked(TrackOf(m.w, m.l.key)) {
      forall labels | CalmRun(m, labels) ensures !InstalledAfter(m, labels) {
        NeverInstalled(m, labels);
      }
    } else {
      IdleReady(m);
      SomeFairRun(m, 7);
      var rounds: seq<seq<Label>> :| |rounds| == 7 && FairRun(m, rounds) && RunRounds(m, rounds).l.pc.Idle?;
      InstallationConverges(m, rounds);
      RoundsFlat(m, rounds);
      InstalledHere(m, rounds);
    }
  }

  ghost predicate InstalledAfter(m: System, labels: seq<Label>) {
    var m' := RunAll(m, labels);
    m'.l.pc.Idle? && HasResource(m'.w, m.l.key) &&
    Missing(StoredSpec(m'.w, m.l.key), StoredStatus(m'.w, m.l.key)) == []
  }

  lemma NeverInstalled(m: System, labels: seq<Label>)
    requires Inv(m) && m.l.pc.Idle? && HasResource(m.w, m.l.key) && m.l.key.namespace != "" && CalmRun(m, labels)
    requires Blocked(TrackOf(m.w, m.l.key))
    ensures !InstalledAfter(m, labels)
  {
    hide Inv, CalmRun, Blocked, TrackOf, RunAll;
    if RunAll(m, labels).l.pc.Idle? {
      BlockedStaysBlocked(m, labels);
    }
  }

  function FlattenLabels(rounds: seq<seq<Label>>): seq<Label> {
    if rounds == [] then [] else rounds[0] + FlattenLabels(rounds[1..])
  }

  lemma {:induction false} RoundsFlat(m: System, rounds: seq<seq<Label>>)
    requires FairRun(m, rounds)
    ensures RunAll(m, FlattenLabels(rounds)) == RunRounds(m, rounds) && CalmRun(m, FlattenLabels(rounds))
    decreases |rounds|
  {
    hide RunAll, CalmRun, HasPass, HasTick, NeverRefused;
    if rounds == [] {
      EmptyRun(m);
    } else {
      RoundsFlat(RunAll(m, rounds[0]), rounds[1..]);
      RunConcat(m, rounds[0], FlattenLabels(rounds[1..]));
    }
  }

  lemma EmptyRun(m: System)
    ensures RunAll(m, []) == m && CalmRun(m, [])
  {
  }

  lemma InstalledHere(m: System, rounds: seq<seq<Label>>)
    requires RunAll(m, FlattenLabels(rounds)) == RunRounds(m, rounds) && RunRounds(m, rounds).l.pc.Idle?
    requires var m' := RunRounds(m, rounds);
             HasResource(m'.w, m.l.key) && Missing(StoredSpec(m'.w, m.l.key), StoredStatus(m'.w, m.l.key)) == []
    ensures InstalledAfter(m, FlattenLabels(rounds))
  {
    hide RunAll, RunRounds;
  }
}
