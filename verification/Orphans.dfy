// How the states arise from which the installation does not converge: a crash between the
// creation of the init Job and its record is enough, also in a run from nothing.
module Orphans {
  import opened Types
  import opened ModuleLists
  import opened Templates
  import opened Api
  import opened Machine
  import opened Safety
  import opened History
  import opened Convergence
  import opened Fixpoint
  import opened Simulation
  import opened Liveness
  import opened HonestPass
  import Watch

  /** The installation is blocked by a Job that nothing records. */
  ghost predicate BlockedByOrphan(m: System) {
    Orphaned(m) && HasResource(m.w, m.l.key) && Blocked(TrackOf(m.w, m.l.key))
  }

  /** A request that reaches the server creates the Job; a process that dies then has not recorded
      it. */
  lemma CrashOrphans(m: System, ch: Choice)
    requires Inv(m) && m.l.pc.JobCreate? && HasResource(m.w, m.l.key) && !ch.fault.RequestLost?
    requires !Exists(m.w, JobId(m.l.key)) && !Named(StoredStatus(m.w, m.l.key).currentInitJob)
    requires !TrackOf(m.w, m.l.key).Done()
    ensures BlockedByOrphan(Apply(Apply(m, Own(ch)), Crash))
  {
    CreationStores(m, ch);
    KeyStays(m, Own(ch));
    hide OwnStep, Inv, Difference;
  }

  lemma CreationStores(m: System, ch: Choice)
    requires Inv(m) && m.l.pc.JobCreate? && !ch.fault.RequestLost? && !Exists(m.w, JobId(m.l.key))
    ensures var w' := OwnStep(m.w, m.l, ch).0;
            LiveJob(w', m.l.key) && At(w', OdooId(m.l.key)) == At(m.w, OdooId(m.l.key))
  {
    hide Continue, Difference, JobTemplate;
  }

  /** Where a slot that was empty is not, it was filled on the way. */
  lemma {:induction false} FirstAppearance(m: System, labels: seq<Label>)
    requires !Exists(m.w, JobId(m.l.key)) && Exists(RunAll(m, labels).w, JobId(m.l.key))
    ensures exists i :: 0 <= i < |labels| && AppearsAt(m, labels, i)
  {
    hide Apply;
    if labels != [] {
      var front := labels[..|labels| - 1];
      RunKey(m, front);
      if Exists(RunAll(m, front).w, JobId(m.l.key)) {
        FirstAppearance(m, front);
        var i :| 0 <= i < |front| && AppearsAt(m, front, i);
        assert front[..i] == labels[..i];
        assert AppearsAt(m, labels, i);
      } else {
        assert AppearsAt(m, labels, |front|);
      }
    }
  }

  ghost predicate AppearsAt(m: System, labels: seq<Label>, i: nat)
    requires i < |labels|
  {
    Appears(RunAll(m, labels[..i]), labels[i])
  }

  lemma {:induction false} RunKey(m: System, labels: seq<Label>)
    ensures RunAll(m, labels).l.key == m.l.key
  {
    hide Apply;
    if labels != [] {
      RunKey(m, labels[..|labels| - 1]);
      KeyStays(RunAll(m, labels[..|labels| - 1]), labels[|labels| - 1]);
    }
  }

  lemma {:induction false} HonestPrefix(m: System, labels: seq<Label>, i: nat)
    requires HonestRun(m, labels) && i < |labels|
    ensures HonestRun(m, labels[..i]) && HonestLabel(RunAll(m, labels[..i]), labels[i])
    decreases |labels|
  {
    hide HonestLabel, RunAll;
    if i < |labels| - 1 {
      HonestPrefix(m, labels[..|labels| - 1], i);
      assert labels[..|labels| - 1][..i] == labels[..i];
    }
  }

  /** Only a creation brings the Job into being. */
  lemma AppearsAtCreation(m: System, a: Label)
    requires Sound(m) && HonestLabel(m, a) && Appears(m, a)
    ensures m.l.pc.JobCreate? && a == Own(a.choice) && !a.choice.fault.RequestLost?
  {
    SoundHere(m);
    hide Continue, CallOf, Serve, Inv, InStep, Meets, Aligned;
    OwnJobSlot(m, a.choice);
    if m.l.pc.Cleanup? && m.l.pc.pods == [] {
      OwnDeletes(m, a.choice);
    }
  }

  /** An honest run up to the request that creates the Job. */
  ghost predicate AtCreation(m: System, labels: seq<Label>, ch: Choice) {
    var n := RunAll(m, labels);
    HonestRun(m, labels) && Inv(n) && n.l.pc.JobCreate? && !ch.fault.RequestLost? && n.l.key == m.l.key &&
    HasResource(n.w, n.l.key) && !Exists(n.w, JobId(n.l.key)) &&
    !Named(StoredStatus(n.w, n.l.key).currentInitJob) && !TrackOf(n.w, n.l.key).Done()
  }

  lemma ReachesCreation(m: System)
    requires Inv(m) && m.l.pc.Fetch? && HasResource(m.w, m.l.key) && m.l.key.namespace != ""
    requires Ready(m.w, m.l.key, StoredSpec(m.w, m.l.key))
    requires Creates(TrackOf(m.w, m.l.key)) && TrackOf(m.w, m.l.key).record.None?
    ensures exists labels, ch :: AtCreation(m, labels, ch)
  {
    hide Apply, Sound, Inv, RunAll, HonestRun, HonestLabel, CalmRun, Ready, TrackOf, Knows, Reasoned, Creates, Appears;
    var t := TrackOf(m.w, m.l.key);
    SomeHonestPass(m);
    var labels: seq<Label> :| HonestRun(m, labels) && RunAll(m, labels).l.pc.Idle?;
    BeginSound(m);
    RunReasoned(m, labels, t);
    CreatedInTheEnd(m, labels);
    NoJobYet(m.w, m.l.key);
    FirstAppearance(m, labels);
    var i :| 0 <= i < |labels| && AppearsAt(m, labels, i);
    HonestPrefix(m, labels, i);
    var n := RunAll(m, labels[..i]);
    RunReasoned(m, labels[..i], t);
    AppearsAtCreation(n, labels[i]);
    SoundHere(n);
    NotYetRecorded(n, t, ActsRun(m, labels[..i]), labels[i]);
    assert AtCreation(m, labels[..i], labels[i].choice);
  }

  /** From every state in which the next pass creates a Job, with a configuration that can be
      computed, a single crash at the wrong moment leads to a blocked state. */
  lemma OrphanReachable(m: System)
    requires Inv(m) && m.l.pc.Fetch? && HasResource(m.w, m.l.key) && m.l.key.namespace != ""
    requires Ready(m.w, m.l.key, StoredSpec(m.w, m.l.key))
    requires Creates(TrackOf(m.w, m.l.key)) && TrackOf(m.w, m.l.key).record.None?
    ensures exists labels :: ConsiderateRun(m.l.key, labels) && BlockedByOrphan(RunAll(m, labels))
  {
    hide Apply, Inv, RunAll, HonestRun, Ready, TrackOf, Creates, BlockedByOrphan;
    ReachesCreation(m);
    var labels: seq<Label>, ch: Choice :| AtCreation(m, labels, ch);
    CrashOrphans(RunAll(m, labels), ch);
    var upto := labels + [Own(ch)];
    RunSnoc(m, labels, Own(ch));
    RunSnoc(m, upto, Crash);
    HonestConsiderate(m, labels);
    assert ConsiderateRun(m.l.key, upto + [Crash]);
  }

  lemma {:induction false} HonestConsiderate(m: System, labels: seq<Label>)
    requires HonestRun(m, labels)
    ensures ConsiderateRun(m.l.key, labels)
  {
    hide Apply, RunAll;
    if labels != [] {
      HonestConsiderate(m, labels[..|labels| - 1]);
    }
  }

  lemma NoJobYet(w: World, key: Key)
    requires WellTyped(w) && HasResource(w, key) && Creates(TrackOf(w, key))
    ensures !Exists(w, JobId(key))
  {
  }

  lemma CreatedInTheEnd(m: System, labels: seq<Label>)
    requires Sound(m) && m.l.pc.Fetch? && HasResource(m.w, m.l.key) && CalmRun(m, labels) && HonestRun(m, labels)
    requires Ready(m.w, m.l.key, StoredSpec(m.w, m.l.key)) && Creates(TrackOf(m.w, m.l.key))
    requires RunAll(m, labels).l.pc.Idle?
    ensures Exists(RunAll(m, labels).w, JobId(m.l.key)) && WellTyped(m.w)
  {
    hide Apply, Sound, RunAll, HonestRun, CalmRun, Ready, Knows, Reasoned, NeverRefused, Current;
    var t := TrackOf(m.w, m.l.key);
    SoundHere(m);
    TypedNow(m);
    RunReady(m, labels);
    HonestHasNoStart(m, labels);
    RunReasoned(m, labels, t);
    PassActsOnce(m, labels);
    EndsWithJob(RunAll(m, labels), t, ActsRun(m, labels));
  }

  lemma EndsWithJob(m: System, t: Track, acts: seq<Act>)
    requires HasResource(m.w, m.l.key) && Reasoned(m, t, acts) && m.l.pc.Idle? && Creates(t)
    requires if Passed(m.w, m.l) then OnePass(acts) else OnlyTicks(acts)
    ensures Exists(m.w, JobId(m.l.key))
  {
    hide CannotConfigure;
    if OnePass(acts) {
      OnePassIn(acts);
    }
    assert DoAll(t, [DoPass]) == Pass(t);
  }

  lemma NotYetRecorded(n: System, t: Track, acts: seq<Act>, a: Label)
    requires Sound(n) && HasResource(n.w, n.l.key) && Reasoned(n, t, acts) && n.l.pc.JobCreate? && Appears(n, a)
    requires t.record.None?
    ensures !Exists(n.w, JobId(n.l.key)) && !Named(StoredStatus(n.w, n.l.key).currentInitJob)
    ensures !TrackOf(n.w, n.l.key).Done()
  {
    hide Inv, InStep, Apply, CannotConfigure, CannotCreate;
  }

  // ---- From nothing ----

  const NO_REF := SecretRef("", "")

  /** A resource that takes only the database password from a secret. */
  const PLAIN_SPEC := OdooSpec(
    ["odoo"], 1, "odoo:17", "IfNotPresent", [],
    DatabaseConfig("db", NO_REF, 5432, NO_REF, "odoo", NO_REF, SecretRef("db", "password"), "odoo", NO_REF,
                   false, NO_REF, 64, NO_REF),
    OdooConfig("", false, "/data", true, true, 2, 8192, 120, 60, 1024, 2048, 1, []),
    ["base"], ClaimSpec("standard", ["ReadWriteOnce"], "1Gi"))

  function Plain(key: Key): Watch.Resource {
    Watch.Resource(key, PLAIN_SPEC)
  }

  /** A cluster that holds nothing but the secret with the database password. */
  function PlainWorld(key: Key): World {
    map[Id(SecretKind, Key(key.namespace, "db")) := Slot(Some(SecretBody(Watch.ManyOnes(Plain(key)))), 1)]
  }

  function PlainStart(key: Key): System {
    System(PlainWorld(key), Local(key, Idle(false, 0), Memory(PLAIN_SPEC, EMPTY_STATUS, 0), map[]), {})
  }

  /** The user creates the resource, and a pass begins. */
  function FirstLabels(key: Key): seq<Label> {
    [Foreign(Create(OdooId(key), OdooBody(PLAIN_SPEC, EMPTY_STATUS)), Choice(NoFault, "x", UNALLOCATED, [])), Start]
  }

  lemma PlainBegins(key: Key)
    ensures var m := RunAll(PlainStart(key), FirstLabels(key));
            Initial(PlainStart(key)) && ConsiderateRun(key, FirstLabels(key)) && m.l.key == key && m.l.pc.Fetch? &&
            HasResource(m.w, key) && StoredSpec(m.w, key) == PLAIN_SPEC && StoredStatus(m.w, key) == EMPTY_STATUS &&
            !Exists(m.w, JobId(key)) &&
            At(m.w, Id(SecretKind, Key(key.namespace, "db"))).body == Some(SecretBody(Watch.ManyOnes(Plain(key))))
  {
    hide Watch.ManyOnes;
    var labels := FirstLabels(key);
    RunSnoc(PlainStart(key), [], labels[0]);
    RunSnoc(PlainStart(key), [labels[0]], labels[1]);
    assert [] + [labels[0]] == [labels[0]] && labels == [labels[0]] + [labels[1]];
  }

  lemma PlainReady(w: World, key: Key)
    requires At(w, Id(SecretKind, Key(key.namespace, "db"))).body == Some(SecretBody(Watch.ManyOnes(Plain(key))))
    ensures Ready(w, key, PLAIN_SPEC)
  {
    hide Watch.ManyOnes;
    assert (key.name + "-config")[|key.name|..] == "-config";
    assert (key.name + "-admin-password")[|key.name|..] == "-admin-password";
    Watch.OnesSuffice(Plain(key), SecretsOf(w), 0, NO_DETAILS);
  }

  lemma PlainCreates(w: World, key: Key)
    requires HasResource(w, key) && StoredSpec(w, key) == PLAIN_SPEC && StoredStatus(w, key) == EMPTY_STATUS
    requires !Exists(w, JobId(key))
    ensures Creates(TrackOf(w, key)) && TrackOf(w, key).record.None?
  {
    assert PLAIN_SPEC.modules[0] == "base";
  }

  /** There are runs from nothing, with a single crash and no other fault, after which the
      installation is blocked for good. */
  lemma OrphanFromNothing(key: Key)
    requires key.namespace != ""
    ensures exists m, labels ::
              Initial(m) && m.l.key == key && ConsiderateRun(key, labels) && BlockedByOrphan(RunAll(m, labels))
  {
    hide Apply, RunAll, Ready, TrackOf, Creates, BlockedByOrphan, Inv, Initial, ConsiderateRun, FirstLabels, PlainStart;
    var start, first := PlainStart(key), FirstLabels(key);
    PlainBegins(key);
    var m := RunAll(start, first);
    InitialInv(start);
    InitialKey(key);
    RunKeepsInv(start, first);
    PlainReady(m.w, key);
    PlainCreates(m.w, key);
    OrphanReachable(m);
    var labels: seq<Label> :| ConsiderateRun(key, labels) && BlockedByOrphan(RunAll(m, labels));
    RunJoin(start, first, labels);
    ConsiderateJoin(key, first, labels);
  }

  lemma InitialKey(key: Key)
    ensures PlainStart(key).l.key == key
  {
  }

  lemma ConsiderateJoin(key: Key, a: seq<Label>, b: seq<Label>)
    requires ConsiderateRun(key, a) && ConsiderateRun(key, b)
    ensures ConsiderateRun(key, a + b)
  {
  }
}
