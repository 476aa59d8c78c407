// Liveness of the installation once the specification is frozen, calls stop failing and
// started Jobs succeed: which states reach "everything installed", how fast, and with how
// many further Jobs.
module Convergence {
  import opened Types
  import opened ModuleLists
  import opened Api
  import opened Machine
  import opened Safety

  /** What the installation depends on: the modules asked for, those installed, those recorded
      (if a Job is recorded), and the counters of the init Job (if it exists). */
  datatype Track = Track(modules: seq<string>, installed: seq<string>, record: Option<seq<string>>,
                         job: Option<JobStatus>)
  {
    function Missing(): seq<string> {
      Difference(modules, installed)
    }

    predicate Done() {
      Missing() == []
    }

    predicate Recorded() {
      record.Some? && job.Some?
    }

    /** The recorded modules are all that is missing. */
    predicate Covered() {
      record.Some? && Difference(modules, installed + record.value) == []
    }
  }

  /** The state of the installation, with this status in place of the stored one. */
  function TrackWith(w: World, key: Key, status: OdooStatus): Track
    requires HasResource(w, key)
  {
    Track(StoredSpec(w, key).modules, status.initModulesInstalled,
          if Named(status.currentInitJob) then Some(status.currentInitJob.modules) else None,
          if Exists(w, JobId(key)) && At(w, JobId(key)).body.value.JobBody?
            then Some(At(w, JobId(key)).body.value.jobStatus) else None)
  }

  function TrackOf(w: World, key: Key): Track
    requires HasResource(w, key)
  {
    TrackWith(w, key, StoredStatus(w, key))
  }

  /** One pass whose calls all succeed. */
  function Pass(t: Track): Track {
    if t.Recorded() && t.job.value.succeeded > 0 then
      t.(installed := t.installed + t.record.value, record := None, job := None)
    else if t.Recorded() && (t.job.value.active > 0 || t.job.value.failed > 0) then t
    else if Creates(t) then t.(record := Some(t.Missing()), job := Some(PENDING))
    else t
  }

  /** The pass creates a Job; an existing one makes the creation fail. */
  predicate Creates(t: Track) {
    !t.Done() && t.job.None?
  }

  /** The Job controller when started Jobs succeed: pending, active, succeeded. */
  function Tick(t: Track): Track {
    match t.job
    case None => t
    case Some(s) =>
      if s.succeeded > 0 then t
      else if s.active > 0 then t.(job := Some(JobStatus(0, 1, s.failed)))
      else if s.failed > 0 then t
      else t.(job := Some(JobStatus(1, 0, 0)))
  }

  /** Modules are missing, and the init Job exists without a record or has failed for good. */
  predicate Blocked(t: Track) {
    !t.Done() && t.job.Some? &&
    (t.record.None? || (t.job.value.failed > 0 && t.job.value.active == 0 && t.job.value.succeeded == 0))
  }

  datatype Act = DoPass | DoTick

  function Do(t: Track, a: Act): Track {
    if a.DoPass? then Pass(t) else Tick(t)
  }

  function DoAll(t: Track, acts: seq<Act>): Track
    decreases |acts|
  {
    if acts == [] then t else DoAll(Do(t, acts[0]), acts[1..])
  }

  lemma {:induction false} DoAllConcat(t: Track, a: seq<Act>, b: seq<Act>)
    ensures DoAll(t, a + b) == DoAll(DoAll(t, a), b)
    ensures Creations(t, a + b) == Creations(t, a) + Creations(DoAll(t, a), b)
    decreases |a|
  {
    hide Do, Creates;
    if a == [] {
      assert a + b == b;
    } else {
      assert (a + b)[0] == a[0] && (a + b)[1..] == a[1..] + b;
      DoAllConcat(Do(t, a[0]), a[1..], b);
    }
  }

  function Creations(t: Track, acts: seq<Act>): nat
    decreases |acts|
  {
    if acts == [] then 0
    else (if acts[0].DoPass? && Creates(t) then 1 else 0) + Creations(Do(t, acts[0]), acts[1..])
  }

  // ---- Steps ----

  lemma MoreInstalled(modules: seq<string>, installed: seq<string>, more: seq<string>)
    requires Difference(modules, installed) == []
    ensures Difference(modules, installed + more) == []
  {
    DifferenceEmpty(modules, installed);
    DifferenceEmpty(modules, installed + more);
  }

  lemma DoneStays(t: Track, a: Act)
    requires t.Done()
    ensures Do(t, a).Done() && !Creates(t)
  {
    if t.record.Some? {
      MoreInstalled(t.modules, t.installed, t.record.value);
    }
  }

  lemma BlockedStays(t: Track, a: Act)
    requires Blocked(t)
    ensures Blocked(Do(t, a)) && Do(t, a).Missing() == t.Missing()
  {
  }

  /** Counters of a Job, by how many events separate it from its success. */
  function Phase(s: JobStatus): nat {
    if s.succeeded > 0 then 1 else if s.active > 0 then 2 else 3
  }

  /** Decreases with every event the state is waiting for: first the modules still to be given
      to a Job, then the phase of the Job. */
  function Measure(t: Track): nat {
    if t.Done() then 0
    else match t.job
      case None => 4
      case Some(s) => Phase(s) + (if t.Covered() then 0 else 4)
  }

  /** What the state is waiting for. */
  function Awaited(t: Track): Act {
    if t.job.None? || t.job.value.succeeded > 0 then DoPass else DoTick
  }

  lemma OtherActIdles(t: Track, a: Act)
    requires !t.Done() && !Blocked(t) && a != Awaited(t)
    ensures Do(t, a) == t
  {
  }

  lemma AwaitedActHelps(t: Track)
    requires !t.Done() && !Blocked(t)
    ensures var t' := Do(t, Awaited(t)); !Blocked(t') && Measure(t') < Measure(t)
  {
    if Creates(t) {
      DifferenceClosed(t.modules, t.installed);
    }
  }

  lemma UnblockedStays(t: Track, a: Act)
    requires !Blocked(t)
    ensures !Blocked(Do(t, a)) && Measure(Do(t, a)) <= Measure(t)
  {
    if t.Done() {
      DoneStays(t, a);
    } else if a == Awaited(t) {
      AwaitedActHelps(t);
    } else {
      OtherActIdles(t, a);
    }
  }

  // ---- Schedules ----

  lemma {:induction false} ActsNeverHurt(t: Track, acts: seq<Act>)
    requires !Blocked(t)
    ensures !Blocked(DoAll(t, acts)) && Measure(DoAll(t, acts)) <= Measure(t)
    decreases |acts|
  {
    if acts != [] {
      UnblockedStays(t, acts[0]);
      ActsNeverHurt(Do(t, acts[0]), acts[1..]);
    }
  }

  /** A stretch of the schedule in which both the operator and the Job controller run. */
  predicate Round(acts: seq<Act>) {
    DoPass in acts && DoTick in acts
  }

  lemma {:induction false} RoundHelps(t: Track, acts: seq<Act>)
    requires !t.Done() && !Blocked(t) && Awaited(t) in acts
    ensures !Blocked(DoAll(t, acts)) && Measure(DoAll(t, acts)) < Measure(t)
    decreases |acts|
  {
    if acts[0] == Awaited(t) {
      AwaitedActHelps(t);
      ActsNeverHurt(Do(t, acts[0]), acts[1..]);
    } else {
      OtherActIdles(t, acts[0]);
      RoundHelps(t, acts[1..]);
    }
  }

  function DoRounds(t: Track, rounds: seq<seq<Act>>): Track
    decreases |rounds|
  {
    if rounds == [] then t else DoRounds(DoAll(t, rounds[0]), rounds[1..])
  }

  lemma {:induction false} RoundsHelp(t: Track, rounds: seq<seq<Act>>)
    requires !Blocked(t) && |rounds| >= Measure(t) && forall i :: 0 <= i < |rounds| ==> Round(rounds[i])
    ensures DoRounds(t, rounds).Done()
    decreases |rounds|
  {
    if rounds != [] {
      assert Round(rounds[0]);
      if t.Done() {
        ActsNeverHurt(t, rounds[0]);
      } else {
        RoundHelps(t, rounds[0]);
      }
      RoundsHelp(DoAll(t, rounds[0]), rounds[1..]);
    }
  }

  lemma MeasureBound(t: Track)
    ensures Measure(t) <= 7
  {
  }

  lemma {:induction false} BlockedForever(t: Track, acts: seq<Act>)
    requires Blocked(t)
    ensures Blocked(DoAll(t, acts))
    decreases |acts|
  {
    if acts != [] {
      BlockedStays(t, acts[0]);
      BlockedForever(Do(t, acts[0]), acts[1..]);
    }
  }

  lemma {:induction false} BlockedRounds(t: Track, rounds: seq<seq<Act>>)
    requires Blocked(t)
    ensures Blocked(DoRounds(t, rounds))
    decreases |rounds|
  {
    if rounds != [] {
      BlockedForever(t, rounds[0]);
      BlockedRounds(DoAll(t, rounds[0]), rounds[1..]);
    }
  }

  /** Exactly the states that are not blocked end with everything installed, and seven rounds
      of any fair schedule suffice. */
  lemma ConvergesExactly(t: Track, rounds: seq<seq<Act>>)
    requires |rounds| >= 7 && forall i :: 0 <= i < |rounds| ==> Round(rounds[i])
    ensures DoRounds(t, rounds).Done() <==> !Blocked(t)
  {
    if Blocked(t) {
      BlockedRounds(t, rounds);
    } else {
      MeasureBound(t);
      RoundsHelp(t, rounds);
    }
  }

  // ---- Coming to rest ----

  /** Everything is installed, and no Job is recorded that may still do something. */
  predicate AtRest(t: Track) {
    t.Done() && Unfinished(t) == 0
  }

  /** How many events the recorded Job is away from being recorded as installed. */
  function Unfinished(t: Track): nat {
    if !t.Recorded() then 0
    else if t.job.value.succeeded > 0 then 1
    else if t.job.value.active > 0 then 2
    else if t.job.value.failed > 0 then 0
    else 3
  }

  lemma RestingActs(t: Track, a: Act)
    requires t.Done()
    ensures var t' := Do(t, a);
            t'.Done() && Unfinished(t') <= Unfinished(t) &&
            (Unfinished(t) > 0 && a == Finishes(t) ==> Unfinished(t') < Unfinished(t)) &&
            (a != Finishes(t) ==> Finishes(t') == Finishes(t) || Unfinished(t') < Unfinished(t))
  {
    DoneStays(t, a);
  }

  function Finishes(t: Track): Act {
    if t.job.Some? && t.job.value.succeeded > 0 then DoPass else DoTick
  }

  lemma {:induction false} RestingSchedule(t: Track, acts: seq<Act>)
    requires t.Done()
    ensures var t' := DoAll(t, acts);
            t'.Done() && Unfinished(t') <= Unfinished(t) &&
            (Unfinished(t) > 0 && Finishes(t) in acts ==> Unfinished(t') < Unfinished(t))
    decreases |acts|
  {
    hide Do, Unfinished, Finishes;
    if acts != [] {
      RestingActs(t, acts[0]);
      RestingSchedule(Do(t, acts[0]), acts[1..]);
    }
  }

  lemma {:induction false} RestingRounds(t: Track, rounds: seq<seq<Act>>)
    requires t.Done() && |rounds| >= Unfinished(t) && forall i :: 0 <= i < |rounds| ==> Round(rounds[i])
    ensures AtRest(DoRounds(t, rounds))
    decreases |rounds|
  {
    if rounds != [] {
      assert Round(rounds[0]);
      RestingSchedule(t, rounds[0]);
      RestingRounds(DoAll(t, rounds[0]), rounds[1..]);
    }
  }

  lemma {:induction false} RoundsConcat(t: Track, a: seq<seq<Act>>, b: seq<seq<Act>>)
    ensures DoRounds(t, a + b) == DoRounds(DoRounds(t, a), b)
    decreases |a|
  {
    if a == [] {
      assert a + b == b;
    } else {
      assert (a + b)[0] == a[0] && (a + b)[1..] == a[1..] + b;
      RoundsConcat(DoAll(t, a[0]), a[1..], b);
    }
  }

  /** Ten rounds of any fair schedule bring every state that is not blocked to rest. */
  lemma ComesToRest(t: Track, rounds: seq<seq<Act>>)
    requires !Blocked(t) && |rounds| >= 10 && forall i :: 0 <= i < |rounds| ==> Round(rounds[i])
    ensures AtRest(DoRounds(t, rounds))
  {
    ConvergesExactly(t, rounds[..7]);
    assert rounds == rounds[..7] + rounds[7..];
    RoundsConcat(t, rounds[..7], rounds[7..]);
    RestingRounds(DoRounds(t, rounds[..7]), rounds[7..]);
  }

  /** Jobs still to be created. */
  function Outstanding(t: Track): nat {
    if t.Done() || (t.job.Some? && t.Covered()) then 0 else 1
  }

  lemma CreationCounts(t: Track, a: Act)
    requires !Blocked(t)
    ensures (if a.DoPass? && Creates(t) then 1 else 0) + Outstanding(Do(t, a)) <= Outstanding(t)
  {
    if t.Done() {
      DoneStays(t, a);
    } else if Creates(t) {
      DifferenceClosed(t.modules, t.installed);
    }
  }

  /** On the way at most one further Job is created. */
  lemma {:induction false} AtMostOneMoreJob(t: Track, acts: seq<Act>)
    requires !Blocked(t)
    ensures Creations(t, acts) + Outstanding(DoAll(t, acts)) <= Outstanding(t) <= 1
    decreases |acts|
  {
    if acts != [] {
      CreationCounts(t, acts[0]);
      UnblockedStays(t, acts[0]);
      AtMostOneMoreJob(Do(t, acts[0]), acts[1..]);
    }
  }

  /** A blocked state creates no Job at all. */
  lemma {:induction false} BlockedCreatesNothing(t: Track, acts: seq<Act>)
    requires Blocked(t)
    ensures Creations(t, acts) == 0
    decreases |acts|
  {
    if acts != [] {
      BlockedStays(t, acts[0]);
      BlockedCreatesNothing(Do(t, acts[0]), acts[1..]);
    }
  }
}
