// Two workers reconcile two resources at the same time. With distinct names and default admin
// secrets their steps commute, so every interleaving of their passes ends as if one worker
// had done all its work before the other.
module Isolation {
  import opened Types
  import opened Templates
  import opened Api
  import opened Machine
  import opened Safety
  import opened History

  // ---- Requests that commute ----

  /** The object a request reads or writes by id. */
  function Touched(call: Call): Option<Id> {
    match call
    case Get(id) => Some(id)
    case _ => Target(call)
  }

  /** Writing this does not change which pods a listing shows. */
  predicate ListingSafe(w: World, listing: Call, other: Call) {
    listing.ListPods? && Target(other).Some? ==>
      !Target(other).value.kind.PodKind? ||
      (other.Delete? && !IsPodOf(w, Target(other).value, listing.jobName))
  }

  predicate Independent(w: World, c: Call, d: Call) {
    (Touched(c).Some? && Touched(c) == Touched(d) ==>
      (c.Get? && d.Get?) || (c.Delete? && d.Delete? && !Exists(w, Touched(c).value))) &&
    ListingSafe(w, c, d) && ListingSafe(w, d, c)
  }

  /** The answer to a request, and what it stores, depend only on what it touches. */
  lemma ServeLocal(w: World, v: World, c: Call, ch: Choice)
    requires Touched(c).Some? ==> At(w, Touched(c).value) == At(v, Touched(c).value)
    requires c.ListPods? ==> PodsOf(w, c.jobName) == PodsOf(v, c.jobName)
    ensures Serve(w, c, ch).1 == Serve(v, c, ch).1
    ensures Target(c).Some? ==>
      At(Serve(w, c, ch).0, Target(c).value) == At(Serve(v, c, ch).0, Target(c).value) &&
      (Serve(w, c, ch).0 == w <==> Serve(v, c, ch).0 == v)
  {
    if Target(c).Some? {
      PutChanges(w, Target(c).value);
      PutChanges(v, Target(c).value);
    }
  }

  lemma PutChanges(w: World, id: Id)
    ensures forall b: Option<Body> :: Put(w, id, b) != w
  {
    forall b: Option<Body> ensures Put(w, id, b) != w {
      assert At(Put(w, id, b), id).version == At(w, id).version + 1;
    }
  }

  /** The store after a request, as an update of one slot. */
  lemma ServeAsUpdate(w: World, c: Call, ch: Choice)
    ensures var w' := Serve(w, c, ch).0;
            w' == w || (Target(c).Some? && w' == w[Target(c).value := At(w', Target(c).value)])
  {
  }

  lemma OtherSeesSame(w: World, c: Call, ch: Choice, d: Call)
    requires Independent(w, c, d)
    ensures var w' := Serve(w, c, ch).0;
            (Touched(d).Some? ==> At(w', Touched(d).value) == At(w, Touched(d).value)) &&
            (d.ListPods? ==> PodsOf(w', d.jobName) == PodsOf(w, d.jobName))
  {
    var w' := Serve(w, c, ch).0;
    if Touched(d).Some? && Target(c) != Touched(d) {
      ServeFrame(w, c, ch, Touched(d).value);
    }
    if d.ListPods? {
      forall id ensures IsPodOf(w', id, d.jobName) <==> IsPodOf(w, id, d.jobName) {
        if Target(c) != Some(id) {
          ServeFrame(w, c, ch, id);
        }
      }
      assert PodsOf(w', d.jobName) == PodsOf(w, d.jobName);
    }
  }

  /** Independent requests give the same answers and the same store in either order. */
  lemma ServeCommutes(w: World, c: Call, cc: Choice, d: Call, dc: Choice)
    requires Independent(w, c, d)
    ensures Serve(Serve(w, c, cc).0, d, dc).1 == Serve(w, d, dc).1
    ensures Serve(Serve(w, d, dc).0, c, cc).1 == Serve(w, c, cc).1
    ensures Serve(Serve(w, c, cc).0, d, dc).0 == Serve(Serve(w, d, dc).0, c, cc).0
  {
    hide Serve;
    var wc, wd := Serve(w, c, cc).0, Serve(w, d, dc).0;
    OtherSeesSame(w, c, cc, d);
    OtherSeesSame(w, d, dc, c);
    ServeLocal(w, wc, d, dc);
    ServeLocal(w, wd, c, cc);
    ServeAsUpdate(w, c, cc);
    ServeAsUpdate(w, d, dc);
    ServeAsUpdate(wc, d, dc);
    ServeAsUpdate(wd, c, cc);
    if Target(c).Some? && Target(c) == Target(d) {
      AbsentDelete(w, c, cc);
      AbsentDelete(w, d, dc);
      AbsentDelete(wc, d, dc);
      AbsentDelete(wd, c, cc);
    }
  }

  lemma AbsentDelete(w: World, c: Call, ch: Choice)
    ensures c.Delete? && !Exists(w, c.id) ==> Serve(w, c, ch).0 == w
  {
  }

  // ---- What one worker touches ----

  /** The objects that belong to the resource `key` by name. */
  predicate Mine(key: Key, id: Id) {
    match id.kind
    case OdooKind => id.key == key
    case SecretKind => id.key == ConfigKey(key) || id.key == DefaultAdminKey(key)
    case ClaimKind => id.key == key
    case JobKind => id.key == InitJobKey(key)
    case DeploymentKind => id.key == key
    case ServiceKind => id.key == HttpKey(key) || id.key == PollKey(key)
    case PodKind => false
  }

  lemma MineDisjoint(a: Key, b: Key, id: Id)
    requires a.name != b.name
    ensures !(Mine(a, id) && Mine(b, id))
  {
    DerivedNamesDistinct(a, b);
    DerivedNamesDistinct(b, a);
  }

  /** The resource uses the default admin secret, and reads no secret of the other resource. */
  ghost predicate Modest(key: Key, other: Key, spec: OdooSpec) {
    spec.config.adminPasswordSecretName == "" &&
    forall i :: 0 <= i < FIELDS && FromSecret(DbRef(spec.database, i)) ==>
      !Mine(other, Id(SecretKind, Key(key.namespace, DbRef(spec.database, i).name)))
  }

  predicate OwnRecord(key: Key, status: OdooStatus) {
    Named(status.currentInitJob) ==> RecordedId(status) == JobId(key)
  }

  predicate OwnPod(w: World, key: Key, pod: Id) {
    pod.kind.PodKind? && (Exists(w, pod) ==> IsPodOf(w, pod, InitJobKey(key).name))
  }

  ghost predicate OwnPoint(w: World, l: Local) {
    match l.pc
    case JobGet => Named(l.mem.status.currentInitJob)
    case PodsList(job) => job == InitJobKey(l.key)
    case Cleanup(job, pods) => job == InitJobKey(l.key) && forall p :: p in pods ==> OwnPod(w, l.key, p)
    case DbRead(i, _, _) => i < FIELDS
    case _ => true
  }

  /** A worker keeps to its own resource, next to another one. */
  ghost predicate KeepsToItself(w: World, l: Local, other: Key) {
    (HasResource(w, l.key) ==>
      Modest(l.key, other, StoredSpec(w, l.key)) && OwnRecord(l.key, StoredStatus(w, l.key))) &&
    (Active(l.pc) ==> Modest(l.key, other, l.mem.spec) && OwnRecord(l.key, l.mem.status)) &&
    OwnPoint(w, l)
  }

  /** Everything a worker touches is its own, except secrets it reads and pods of its Job. */
  ghost predicate OwnOrRead(w: World, key: Key, other: Key, call: Call) {
    (Touched(call).Some? ==>
      var id := Touched(call).value;
      Mine(key, id) ||
      (call.Get? && id.kind.SecretKind? && !Mine(other, id)) ||
      (call.Delete? && OwnPod(w, key, id))) &&
    (call.ListPods? ==> call.jobName == InitJobKey(key).name)
  }

  lemma CallsOwnOrRead(w: World, l: Local, other: Key)
    requires KeepsToItself(w, l, other)
    ensures OwnOrRead(w, l.key, other, CallOf(l))
  {
    hide AfterField, DeploymentTemplate, JobTemplate;
  }

  lemma OwnCallsIndependent(w: World, a: Key, b: Key, c: Call, d: Call)
    requires a.name != b.name && OwnOrRead(w, a, b, c) && OwnOrRead(w, b, a, d)
    ensures Independent(w, c, d)
  {
    SuffixInjective(a.name, b.name, "-init");
    if Touched(c).Some? && Touched(c) == Touched(d) {
      MineDisjoint(a, b, Touched(c).value);
    }
  }

  // ---- Keeping to oneself is kept ----

  /** The other worker does not disturb. */
  lemma OtherKeepsMine(w: World, l: Local, other: Key, d: Call, ch: Choice)
    requires KeepsToItself(w, l, other) && OwnOrRead(w, other, l.key, d) && l.key.name != other.name
    ensures KeepsToItself(Serve(w, d, ch).0, l, other)
  {
    hide Serve;
    var w' := Serve(w, d, ch).0;
    if Target(d) == Some(OdooId(l.key)) {
      MineDisjoint(l.key, other, OdooId(l.key));
    } else {
      ServeFrame(w, d, ch, OdooId(l.key));
    }
    if l.pc.Cleanup? {
      forall p | p in l.pc.pods ensures OwnPod(w', l.key, p) {
        assert OwnPod(w, l.key, p);
        PodKept(w, l.key, other, d, ch, p);
      }
    }
  }

  lemma PodKept(w: World, key: Key, other: Key, d: Call, ch: Choice, p: Id)
    requires OwnPod(w, key, p) && OwnOrRead(w, other, key, d)
    ensures OwnPod(Serve(w, d, ch).0, key, p)
  {
    if Target(d) != Some(p) {
      ServeFrame(w, d, ch, p);
    }
  }

  lemma OwnStoredKept(w: World, l: Local, other: Key, ch: Choice)
    requires KeepsToItself(w, l, other)
    ensures var w' := OwnStep(w, l, ch).0;
            HasResource(w', l.key) ==>
              HasResource(w, l.key) && StoredSpec(w', l.key) == StoredSpec(w, l.key) &&
              OwnRecord(l.key, StoredStatus(w', l.key))
  {
    hide Continue;
    CallsOwnOrRead(w, l, other);
    if Target(CallOf(l)) == Some(OdooId(l.key)) {
      StatusTarget(w, l);
    } else {
      ServeFrame(w, CallOf(l), ch, OdooId(l.key));
    }
  }

  lemma StatusTarget(w: World, l: Local)
    requires Target(CallOf(l)) == Some(OdooId(l.key)) && OwnPoint(w, l)
    ensures CallOf(l) == StatusCall(l) && Active(l.pc)
  {
    OwnTargets(l);
    CleanupTargets(w, l);
  }

  lemma CleanupTargets(w: World, l: Local)
    requires OwnPoint(w, l)
    ensures l.pc.Cleanup? ==>
              Target(CallOf(l)).Some? &&
              (Target(CallOf(l)).value.kind.PodKind? || Target(CallOf(l)).value.kind.JobKind?)
  {
    if l.pc.Cleanup? && l.pc.pods != [] {
      assert OwnPod(w, l.key, l.pc.pods[0]);
    }
  }

  lemma OwnSelfStep(w: World, l: Local, other: Key, ch: Choice)
    requires KeepsToItself(w, l, other)
    ensures var (w', l') := OwnStep(w, l, ch); l'.key == l.key && KeepsToItself(w', l', other)
  {
    hide Continue, CallOf;
    var (w', r) := Serve(w, CallOf(l), ch);
    OwnStoredKept(w, l, other, ch);
    KeyFixed(l, r);
    SelfMemory(w, l, other, ch);
    SelfPoint(w, l, other, ch);
  }

  lemma SelfMemory(w: World, l: Local, other: Key, ch: Choice)
    requires KeepsToItself(w, l, other)
    ensures var l' := OwnStep(w, l, ch).1;
            Active(l'.pc) ==> Modest(l.key, other, l'.mem.spec) && OwnRecord(l.key, l'.mem.status)
  {
    hide Continue, CallOf;
    var r := Serve(w, CallOf(l), ch).1;
    PassPoints(l.pc);
    if StatusStep(l.pc) {
      StatusStepLocal(l, r);
      StatusAnswer(w, l, ch);
    } else if l.pc.Fetch? {
      FetchModest(w, l, other, ch);
    } else if ChildStep(l.pc) {
      ChildStepLocal(l, r);
    } else if l.pc.Idle? {
      IdleStays(l, r);
    } else {
      JobStepLocal(l, r);
      JobRecordOwn(l, r);
    }
  }

  lemma FetchModest(w: World, l: Local, other: Key, ch: Choice)
    requires l.pc.Fetch? && KeepsToItself(w, l, other)
    ensures var l' := OwnStep(w, l, ch).1;
            Active(l'.pc) ==> Modest(l.key, other, l'.mem.spec) && OwnRecord(l.key, l'.mem.status)
  {
    hide AfterField;
  }

  lemma JobRecordOwn(l: Local, r: Response)
    requires (l.pc.JobGet? || l.pc.JobCreate?) && OwnRecord(l.key, l.mem.status)
    ensures OwnRecord(l.key, Continue(l, r).mem.status)
  {
    hide AfterField, AfterFetch, AfterServiceGet, AfterDeployGet;
  }

  lemma SelfPoint(w: World, l: Local, other: Key, ch: Choice)
    requires KeepsToItself(w, l, other)
    ensures var (w', l') := OwnStep(w, l, ch); OwnPoint(w', l')
  {
    hide Continue, CallOf;
    var (w', r) := Serve(w, CallOf(l), ch);
    PassPoints(l.pc);
    if l.pc.PodsList? || l.pc.Cleanup? {
      CleanupPoint(w, l, other, ch);
    } else if l.pc.JobGet? {
      JobGetPoint(w', l, r);
    } else if l.pc.DbRead? {
      DbReadPoint(w', l, r);
    } else if l.pc.ConfigGet? || l.pc.ClaimStatus? || l.pc.Idle? {
      EntryPoint(w', l, r);
    } else {
      QuietPoint(l, r);
    }
  }

  lemma CleanupPoint(w: World, l: Local, other: Key, ch: Choice)
    requires KeepsToItself(w, l, other) && (l.pc.PodsList? || l.pc.Cleanup?)
    ensures var (w', l') := OwnStep(w, l, ch); OwnPoint(w', l')
  {
    hide AfterField, AfterJobGet, AfterServiceGet, AfterDeployGet, AfterFetch;
    var (w', r) := Serve(w, CallOf(l), ch);
    if l.pc.PodsList? {
      assert r.Listed? ==> forall p :: p in r.pods ==> IsPodOf(w, p, l.pc.job.name);
    } else if l.pc.pods != [] {
      forall p | p in l.pc.pods[1..] ensures OwnPod(w', l.key, p) {
        assert p in l.pc.pods;
        assert OwnPod(w, l.key, p);
        if Target(CallOf(l)) != Some(p) {
          ServeFrame(w, CallOf(l), ch, p);
        }
      }
    }
  }

  lemma JobGetPoint(w: World, l: Local, r: Response)
    requires l.pc.JobGet? && Named(l.mem.status.currentInitJob) && OwnRecord(l.key, l.mem.status)
    ensures OwnPoint(w, Continue(l, r))
  {
    hide AfterField, AfterServiceGet, AfterDeployGet, AfterFetch;
  }

  lemma FieldPoint(w: World, l: Local, i: nat, field: Result<ConnectionDetails, DbError>, found: Option<Stored>)
    ensures OwnPoint(w, AfterField(l, i, field, found))
  {
    hide ConfigData;
  }

  lemma DbReadPoint(w: World, l: Local, r: Response)
    requires l.pc.DbRead?
    ensures OwnPoint(w, Continue(l, r))
  {
    hide AfterField, ReadField;
    FieldPoint(w, l, l.pc.i, ReadField(l, l.pc.i, l.pc.details, r), l.pc.found);
  }

  lemma EntryPoint(w: World, l: Local, r: Response)
    requires l.pc.ConfigGet? || l.pc.ClaimStatus? || l.pc.Idle?
    ensures OwnPoint(w, Continue(l, r))
  {
    hide AfterField, AfterServiceGet, AfterDeployGet, AfterFetch, AfterJobGet;
  }

  lemma QuietPoint(l: Local, r: Response)
    requires !l.pc.PodsList? && !l.pc.Cleanup? && !l.pc.JobGet? && !l.pc.DbRead? && !l.pc.ConfigGet? &&
             !l.pc.ClaimStatus? && !l.pc.Idle?
    ensures var pc' := Continue(l, r).pc; !pc'.PodsList? && !pc'.Cleanup? && !pc'.JobGet? && !pc'.DbRead?
  {
    hide AfterField, AfterConfigGet, AfterJobGet;
  }

  // ---- Interleavings ----

  /** A worker begins a pass, or takes one step of it. */
  datatype Turn = Begin | Step(choice: Choice)

  function Take(w: World, l: Local, t: Turn): (World, Local) {
    match t
    case Begin => (w, if l.pc.Idle? then Goto(l, Fetch) else l)
    case Step(ch) => OwnStep(w, l, ch)
  }

  function TakeAll(w: World, l: Local, turns: seq<Turn>): (World, Local)
    decreases |turns|
  {
    if turns == [] then (w, l)
    else
      var (w', l') := Take(w, l, turns[0]);
      TakeAll(w', l', turns[1..])
  }

  datatype Both = Both(w: World, a: Local, b: Local)

  /** A schedule says whose turn it is, and what the turn does. */
  function Interleave(s: Both, schedule: seq<(bool, Turn)>): Both
    decreases |schedule|
  {
    if schedule == [] then s
    else if schedule[0].0 then
      var (w', a') := Take(s.w, s.a, schedule[0].1);
      Interleave(Both(w', a', s.b), schedule[1..])
    else
      var (w', b') := Take(s.w, s.b, schedule[0].1);
      Interleave(Both(w', s.a, b'), schedule[1..])
  }

  function TurnsOf(schedule: seq<(bool, Turn)>, first: bool): seq<Turn> {
    if schedule == [] then []
    else if schedule[0].0 == first then [schedule[0].1] + TurnsOf(schedule[1..], first)
    else TurnsOf(schedule[1..], first)
  }

  ghost predicate Apart(w: World, a: Local, b: Local) {
    a.key.name != b.key.name && KeepsToItself(w, a, b.key) && KeepsToItself(w, b, a.key)
  }

  lemma TakeKeepsApart(w: World, a: Local, b: Local, t: Turn)
    requires Apart(w, a, b)
    ensures var (w', a') := Take(w, a, t); a'.key == a.key && Apart(w', a', b)
  {
    hide Continue, CallOf;
    if t.Step? {
      OwnSelfStep(w, a, b.key, t.choice);
      CallsOwnOrRead(w, a, b.key);
      OtherKeepsMine(w, b, a.key, CallOf(a), t.choice);
    }
  }

  /** One turn of each worker: the order does not matter. */
  lemma TurnsCommute(w: World, a: Local, t: Turn, b: Local, u: Turn)
    requires Apart(w, a, b)
    ensures var (wa, a') := Take(w, a, t); var (wb, b') := Take(w, b, u);
            Take(wa, b, u) == (Take(wb, a, t).0, b') && Take(wb, a, t).1 == a'
  {
    hide Continue, CallOf, Serve;
    if t.Step? && u.Step? {
      CallsOwnOrRead(w, a, b.key);
      CallsOwnOrRead(w, b, a.key);
      OwnCallsIndependent(w, a.key, b.key, CallOf(a), CallOf(b));
      ServeCommutes(w, CallOf(a), t.choice, CallOf(b), u.choice);
    }
  }

  lemma {:induction false} TurnPastAll(w: World, a: Local, turns: seq<Turn>, b: Local, u: Turn)
    requires Apart(w, a, b)
    ensures var (wb, b') := Take(w, b, u); var (wa, a') := TakeAll(w, a, turns);
            TakeAll(wb, a, turns) == (Take(wa, b, u).0, a') && Take(wa, b, u).1 == b'
    decreases |turns|
  {
    hide Take;
    if turns != [] {
      var (w1, a1) := Take(w, a, turns[0]);
      TurnsCommute(w, a, turns[0], b, u);
      TakeKeepsApart(w, a, b, turns[0]);
      TurnPastAll(w1, a1, turns[1..], b, u);
    }
  }

  /** Any interleaving of any number of passes over the two resources ends in the same store
      and the same memories as all turns of the first worker followed by all turns of the
      second. */
  lemma {:induction false} InterleavingIsSequential(s: Both, schedule: seq<(bool, Turn)>)
    requires Apart(s.w, s.a, s.b)
    ensures var (w1, a1) := TakeAll(s.w, s.a, TurnsOf(schedule, true));
            var (w2, b2) := TakeAll(w1, s.b, TurnsOf(schedule, false));
            Interleave(s, schedule) == Both(w2, a1, b2)
    decreases |schedule|
  {
    hide Take;
    if schedule != [] {
      var t, rest := schedule[0].1, schedule[1..];
      if schedule[0].0 {
        var (w', a') := Take(s.w, s.a, t);
        TakeKeepsApart(s.w, s.a, s.b, t);
        InterleavingIsSequential(Both(w', a', s.b), rest);
        ConsTurn(t, TurnsOf(rest, true));
      } else {
        var (w', b') := Take(s.w, s.b, t);
        TakeKeepsApart(s.w, s.b, s.a, t);
        InterleavingIsSequential(Both(w', s.a, b'), rest);
        TurnPastAll(s.w, s.a, TurnsOf(rest, true), s.b, t);
        ConsTurn(t, TurnsOf(rest, false));
      }
    }
  }

  lemma ConsTurn(t: Turn, turns: seq<Turn>)
    ensures ([t] + turns)[0] == t && ([t] + turns)[1..] == turns
  {
  }

  // ---- Exactly the names matter ----

  /** Two workers that keep to themselves, over these two resources. */
  ghost predicate Beside(w: World, l: Local, o: Local, a: Key, b: Key) {
    l.key == a && o.key == b && KeepsToItself(w, l, b) && KeepsToItself(w, o, a)
  }

  /** One turn of each, in either order. */
  predicate Commute(w: World, l: Local, t: Turn, o: Local, u: Turn) {
    var (wl, l') := Take(w, l, t);
    var (wo, o') := Take(w, o, u);
    Take(wl, o, u) == (Take(wo, l, t).0, o') && Take(wo, l, t).1 == l'
  }

  const NO_REF := SecretRef("", "")

  const BARE_SPEC := OdooSpec(
    [], 1, "", "", [],
    DatabaseConfig("", NO_REF, 0, NO_REF, "", NO_REF, NO_REF, "", NO_REF, false, NO_REF, 0, NO_REF),
    OdooConfig("", false, "", false, false, 0, 0, 0, 0, 0, 0, 0, []),
    [], ClaimSpec("", [], ""))

  function Worker(key: Key, pc: Pc): Local {
    Local(key, pc, Memory(BARE_SPEC, EMPTY_STATUS, 0), map[])
  }

  /** One worker is about to list the pods of its init Job, the other to delete one of its own. */
  lemma SameNameConflicts(a: Key, b: Key)
    requires a.name == b.name && a != b
    ensures exists w, l, t, o, u :: Beside(w, l, o, a, b) && !Commute(w, l, t, o, u)
  {
    var pod := Id(PodKind, b);
    var w: World := map[pod := Slot(Some(PodBody(InitJobKey(b).name)), 0)];
    var l := Worker(a, PodsList(InitJobKey(a)));
    var o := Worker(b, Cleanup(InitJobKey(b), [pod]));
    var t := Step(Choice(NoFault, "x", UNALLOCATED, [pod]));
    var u := Step(Choice(NoFault, "x", UNALLOCATED, []));
    ConflictBeside(a, b, w, pod);
    ListsBefore(w, l, pod, t);
    DeletesPod(w, o, pod, u);
    ListsAfter(Take(w, o, u).0, l, pod, t);
    assert !Commute(w, l, t, o, u);
  }

  lemma ConflictBeside(a: Key, b: Key, w: World, pod: Id)
    requires a.name == b.name && pod == Id(PodKind, b) && w == map[pod := Slot(Some(PodBody(InitJobKey(b).name)), 0)]
    ensures Beside(w, Worker(a, PodsList(InitJobKey(a))), Worker(b, Cleanup(InitJobKey(b), [pod])), a, b)
  {
  }

  lemma ListsBefore(w: World, l: Local, pod: Id, t: Turn)
    requires l.pc.PodsList? && w == map[pod := Slot(Some(PodBody(l.pc.job.name)), 0)] && pod.kind.PodKind?
    requires t == Step(Choice(NoFault, "x", UNALLOCATED, [pod]))
    ensures Take(w, l, t).1.pc.Cleanup?
  {
    hide AfterField, AfterFetch, AfterServiceGet, AfterDeployGet, AfterJobGet, AfterConfigGet, AfterAdminGenerate;
    assert ListingOf(w, l.pc.job.name, [pod]);
  }

  lemma DeletesPod(w: World, o: Local, pod: Id, u: Turn)
    requires o.pc.Cleanup? && o.pc.pods == [pod] && Exists(w, pod)
    requires u == Step(Choice(NoFault, "x", UNALLOCATED, []))
    ensures !Exists(Take(w, o, u).0, pod)
  {
    hide Continue;
  }

  lemma ListsAfter(w: World, l: Local, pod: Id, t: Turn)
    requires l.pc.PodsList? && !Exists(w, pod)
    requires t == Step(Choice(NoFault, "x", UNALLOCATED, [pod]))
    ensures !Take(w, l, t).1.pc.Cleanup?
  {
    hide AfterField, AfterFetch, AfterServiceGet, AfterDeployGet, AfterJobGet, AfterConfigGet, AfterAdminGenerate;
    assert pod in [pod];
    assert !ListingOf(w, l.pc.job.name, [pod]);
  }

  /** Two workers over two resources, each keeping to its own objects by name, can always exchange
      their turns if and only if the names differ; different namespaces are not enough. */
  lemma TurnsCommuteExactly(a: Key, b: Key)
    requires a != b
    ensures (forall w, l, t, o, u :: Beside(w, l, o, a, b) ==> Commute(w, l, t, o, u)) <==> a.name != b.name
  {
    hide Take, KeepsToItself;
    if a.name == b.name {
      SameNameConflicts(a, b);
    } else {
      forall w, l, t, o, u | Beside(w, l, o, a, b) ensures Commute(w, l, t, o, u) {
        TurnsCommute(w, l, t, o, u);
      }
    }
  }
}
