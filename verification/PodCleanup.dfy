// The pods a pass deletes after its init Job succeeded: all that carry the name of the Job, in
// whatever namespace they are.
module PodCleanup {
  import opened Types
  import opened Templates
  import opened Api
  import opened Machine
  import opened Safety
  import opened History
  import opened Convergence
  import opened Fixpoint
  import opened Simulation
  import opened Liveness
  import opened HonestPass

  ghost predicate NoPods(w: World, key: Key) {
    forall p :: !IsPodOf(w, p, InitJobKey(key).name)
  }

  /** What the pass has still to delete. */
  ghost predicate Deleting(m: System) {
    match m.l.pc
    case Cleanup(job, pods) =>
      job == InitJobKey(m.l.key) && forall p :: IsPodOf(m.w, p, InitJobKey(m.l.key).name) ==> p in pods
    case PodsList(job) => job == InitJobKey(m.l.key)
    case JobStatusFirst(_) => NoPods(m.w, m.l.key)
    case JobStatusSecond(_) => NoPods(m.w, m.l.key)
    case Idle(_, _) => NoPods(m.w, m.l.key)
    case Fetch => true
    case _ => Before(m.l.pc)
  }

  lemma PodsFrame(w: World, w': World, key: Key)
    requires Untouched(w, w', PodKind)
    ensures NoPods(w, key) ==> NoPods(w', key)
  {
    forall p | NoPods(w, key) ensures !IsPodOf(w', p, InitJobKey(key).name) {
      assert !IsPodOf(w, p, InitJobKey(key).name);
      if p.kind.PodKind? {
        assert At(w', Id(PodKind, p.key)) == At(w, Id(PodKind, p.key));
      }
    }
  }

  lemma LookupDeletes(m: System, ch: Choice)
    requires Sound(m) && Honest(m.w, CallOf(m.l), ch) && m.l.pc.JobGet?
    requires var t := TrackOf(m.w, m.l.key); t.Recorded() && t.job.value.succeeded > 0
    ensures var pc := Apply(m, Own(ch)).l.pc; pc == PodsList(InitJobKey(m.l.key))
  {
    hide AfterField, AfterAdminGenerate, AfterServiceGet, AfterDeployGet, AfterFetch, AfterConfigGet, CallOf, Serve;
    hide Inv, InStep, HoldsAdmin, Honest, Decide;
    JobLookup(m, ch);
  }

  lemma ListDeletes(m: System, ch: Choice)
    requires Honest(m.w, CallOf(m.l), ch) && m.l.pc.PodsList? && Deleting(m)
    ensures Deleting(Apply(m, Own(ch)))
  {
    hide AfterField, AfterAdminGenerate, AfterServiceGet, AfterDeployGet, AfterFetch, AfterConfigGet, AfterJobGet;
  }

  lemma PodDeletes(m: System, ch: Choice)
    requires Sound(m) && Honest(m.w, CallOf(m.l), ch) && m.l.pc.Cleanup? && m.l.pc.pods != [] && Deleting(m)
    ensures Deleting(Apply(m, Own(ch)))
  {
    hide AfterField, AfterAdminGenerate, AfterServiceGet, AfterDeployGet, AfterFetch, AfterConfigGet, AfterJobGet;
    hide Inv, InStep, HoldsAdmin, TrackOf, TrackWith;
    var m' := Apply(m, Own(ch));
    var pods := m.l.pc.pods;
    forall p | IsPodOf(m'.w, p, InitJobKey(m.l.key).name) ensures p in pods[1..] {
      ServeFrameOr(m.w, CallOf(m.l), ch, p);
      assert p in pods;
    }
  }

  lemma ServeFrameOr(w: World, call: Call, ch: Choice, id: Id)
    ensures Target(call) == Some(id) || At(Serve(w, call, ch).0, id) == At(w, id)
  {
  }

  lemma JobDeletes(m: System, ch: Choice)
    requires Sound(m) && Honest(m.w, CallOf(m.l), ch) && m.l.pc.Cleanup? && m.l.pc.pods == [] && Deleting(m)
    ensures Deleting(Apply(m, Own(ch)))
  {
    hide AfterField, AfterAdminGenerate, AfterServiceGet, AfterDeployGet, AfterFetch, AfterConfigGet, AfterJobGet;
    hide Inv, InStep, HoldsAdmin;
    KeyStays(m, Own(ch));
    StepUntouched(m.w, m.l, ch, PodKind);
    assert NoPods(m.w, m.l.key);
    PodsFrame(m.w, Apply(m, Own(ch)).w, m.l.key);
  }

  lemma StatusPoints(l: Local, r: Response)
    requires StatusStep(l.pc) && !l.pc.ConfigNoPassword? && !l.pc.Fail? && r.Written?
    requires l.pc.ClaimStatus? ==> Named(Refreshed(l, r).mem.status.currentInitJob)
    ensures var pc := Continue(l, r).pc;
            if l.pc.AdminStatus? || l.pc.ConfigStatus? || l.pc.ClaimStatus? then Before(pc)
            else if l.pc.JobStatusFirst? then pc.JobStatusSecond?
            else l.pc.JobStatusSecond? ==> pc.Idle?
  {
    hide AfterField, AfterAdminGenerate, AfterServiceGet, AfterDeployGet, AfterJobGet, AfterFetch, AfterConfigGet;
    hide Refreshed, Decide;
  }

  lemma StatusDeletes(m: System, ch: Choice)
    requires Sound(m) && Honest(m.w, CallOf(m.l), ch) && StatusStep(m.l.pc) && Deleting(m)
    requires m.l.pc.ClaimStatus? ==> TrackOf(m.w, m.l.key).Recorded()
    ensures Deleting(Apply(m, Own(ch)))
  {
    StatusTracks(m, ch);
    NoPasswordHere(m);
    StatusStepLocal(m.l, Nothing);
    KeyStays(m, Own(ch));
    StatusPoints(m.l, Serve(m.w, CallOf(m.l), ch).1);
    hide Continue, CallOf, Inv, InStep, HoldsAdmin, Meets, Honest, Refreshed, Serve, NoPods;
    StepUntouched(m.w, m.l, ch, PodKind);
    PodsFrame(m.w, Apply(m, Own(ch)).w, m.l.key);
  }

  lemma ChildDeletes(m: System, ch: Choice)
    requires Sound(m) && Honest(m.w, CallOf(m.l), ch) && Deleting(m) && !Refused(m, Own(ch))
    requires ChildStep(m.l.pc) && !m.l.pc.PodsList? && !m.l.pc.Cleanup?
    ensures Deleting(Apply(m, Own(ch)))
  {
    hide Continue, CallOf, Serve, Inv, InStep, Aligned, Honest, Meets, HoldsAdmin;
    TypedNow(m);
    ChildPoints(m.w, m.l, ch);
  }

  lemma StepDeletes(m: System, ch: Choice)
    requires Sound(m) && Honest(m.w, CallOf(m.l), ch) && Deleting(m) && !Refused(m, Own(ch))
    requires Before(m.l.pc) ==> var t := TrackOf(m.w, m.l.key); t.Recorded() && t.job.value.succeeded > 0
    requires m.l.pc.Idle? ==> NoPods(m.w, m.l.key)
    ensures Deleting(Apply(m, Own(ch)))
  {
    hide Continue, CallOf, Serve, Inv, InStep, Aligned, Honest, Meets, HoldsAdmin, NoPods, TrackOf, Refused;
    PassPoints(m.l.pc);
    KeyStays(m, Own(ch));
    match m.l.pc
    case Idle(_, _) => IdleStays(m.l, Serve(m.w, CallOf(m.l), ch).1); IdleWorld(m.w, m.l, ch);
    case Fetch => FetchPoints(m, ch);
    case JobGet => LookupDeletes(m, ch);
    case PodsList(_) => ListDeletes(m, ch);
    case Cleanup(_, pods) =>
      if pods == [] {
        JobDeletes(m, ch);
      } else {
        PodDeletes(m, ch);
      }
    case _ =>
      if ChildStep(m.l.pc) {
        ChildDeletes(m, ch);
      } else {
        StatusDeletes(m, ch);
      }
  }

  lemma {:induction false} RunDeletes(m: System, labels: seq<Label>, t: Track)
    requires Sound(m) && m.l.pc.Fetch? && HasResource(m.w, m.l.key) && t == TrackOf(m.w, m.l.key)
    requires t.Recorded() && t.job.value.succeeded > 0 && HonestRun(m, labels) && NeverRefused(m, labels)
    ensures Deleting(RunAll(m, labels))
  {
    hide Apply, Sound, Knows, Reasoned, HonestLabel, Deleting, Refused, TrackOf;
    if labels == [] {
      DeletingBegins(m);
    } else {
      var front, a := labels[..|labels| - 1], labels[|labels| - 1];
      var n := RunAll(m, front);
      RunDeletes(m, front, t);
      RunReasoned(m, front, t);
      HonestParts(n, a);
      TrackBefore(n, t, ActsRun(m, front));
      StepDeletes(n, a.choice);
    }
  }

  lemma DeletingBegins(m: System)
    requires m.l.pc.Fetch?
    ensures Deleting(m)
  {
  }

  lemma TrackBefore(m: System, t: Track, acts: seq<Act>)
    requires HasResource(m.w, m.l.key) && Reasoned(m, t, acts) && Deleting(m)
    ensures Before(m.l.pc) ==> TrackOf(m.w, m.l.key) == t
    ensures m.l.pc.Idle? ==> NoPods(m.w, m.l.key)
  {
    hide TrackOf, NoPods, CannotConfigure;
  }

  /** A whole pass without faults over a resource whose recorded Job has succeeded leaves no pod
      that carries the name of the Job, in any namespace. */
  lemma PassTakesAllPods(m: System, labels: seq<Label>)
    requires Inv(m) && m.l.pc.Fetch? && HasResource(m.w, m.l.key) && m.l.key.namespace != ""
    requires var t := TrackOf(m.w, m.l.key); t.Recorded() && t.job.value.succeeded > 0
    requires HonestRun(m, labels) && NeverRefused(m, labels) && RunAll(m, labels).l.pc.Idle?
    ensures forall p :: !IsPodOf(RunAll(m, labels).w, p, InitJobKey(m.l.key).name)
  {
    hide Apply, Sound, HonestRun, RunAll, NeverRefused, Inv, TrackOf;
    BeginSound(m);
    RunDeletes(m, labels, TrackOf(m.w, m.l.key));
    RunReasoned(m, labels, TrackOf(m.w, m.l.key));
  }

  /** So of two resources of the same name in different namespaces one deletes the pods of the
      other's init Job. */
  lemma SameNameDeletesPods(m: System, labels: seq<Label>, other: Key, pod: Id)
    requires Inv(m) && m.l.pc.Fetch? && HasResource(m.w, m.l.key) && m.l.key.namespace != ""
    requires var t := TrackOf(m.w, m.l.key); t.Recorded() && t.job.value.succeeded > 0
    requires HonestRun(m, labels) && NeverRefused(m, labels) && RunAll(m, labels).l.pc.Idle?
    requires other.name == m.l.key.name && other.namespace != m.l.key.namespace
    requires pod.key.namespace == other.namespace && IsPodOf(m.w, pod, InitJobKey(other).name)
    ensures !IsPodOf(RunAll(m, labels).w, pod, InitJobKey(other).name)
  {
    hide Apply, HonestRun, RunAll, NeverRefused, Inv, TrackOf;
    PassTakesAllPods(m, labels);
    assert InitJobKey(other).name == InitJobKey(m.l.key).name;
  }
}
