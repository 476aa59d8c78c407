// The client through which a pass talks to the API server, and the in-memory resource that
// the steps of a pass share. Every request must be the one the machine of module `Machine`
// would send, so each execution of the reconcilers is a run of that machine.
module Client {
  import opened Types
  import opened Text
  import opened ModuleLists
  import opened Templates
  import opened Api
  import opened Machine
  import opened Safety
  import opened History
  import opened Fixpoint
  import opened HonestPass

  lemma OwnApplied(m: System, ch: Choice)
    ensures Apply(m, Own(ch)) ==
            var (w', r) := Serve(m.w, CallOf(m.l), ch); m.(w := w', l := Continue(m.l, r))
  {
    hide Serve, CallOf, Continue;
  }

  lemma UndisturbedSnoc(labels: seq<Label>, ch: Choice)
    requires Undisturbed(labels)
    ensures Undisturbed(labels + [Own(ch)])
  {
  }

  /** In this state the request, sent with this label, leads to this store and this answer. */
  ghost predicate AnswersFrom(w: World, call: Call, a: Label, w': World, r: Response) {
    a.Own? && Serve(w, call, a.choice) == (w', r)
  }

  /** The same, whatever others did just before. */
  ghost predicate Answers(call: Call, a: Label, w': World, r: Response) {
    exists w :: AnswersFrom(w, call, a, w', r)
  }

  /** What the answers say about the store and about the password drawn. */
  lemma GetAnswer(w: World, id: Id, a: Label, w': World, r: Response)
    requires AnswersFrom(w, Get(id), a, w', r)
    ensures w' == w
    ensures r.Found? ==> At(w, id) == Slot(Some(r.body), r.version)
    ensures r.NotFound? ==> !Exists(w, id)
    ensures a.choice.fault.NoFault? ==> r.Found? || r.NotFound?
  {
  }

  lemma PasswordAnswer(a: Label, w': World, r: Response)
    requires Answers(GeneratePassword, a, w', r) && r.Password?
    ensures a.Own? && r.text == a.choice.password
  {
  }

  lemma PasswordLeaves(w: World, a: Label, w': World, r: Response)
    requires AnswersFrom(w, GeneratePassword, a, w', r)
    ensures w' == w
  {
  }

  /** The in-memory resource: one object, shared by all steps of a pass. */
  class OdooDeployment {
    const key: Key
    var spec: OdooSpec
    var status: OdooStatus
    var version: nat

    constructor (key: Key, spec: OdooSpec, status: OdooStatus, version: nat)
      ensures this.key == key && View() == Memory(spec, status, version)
    {
      this.key, this.spec, this.status, this.version := key, spec, status, version;
    }

    function View(): Memory
      reads this
    {
      Memory(spec, status, version)
    }

    /** Keeps the first occurrence of every requested module, in order. */
    method DeduplicateModules()
      modifies this`spec
      ensures spec == old(spec).(modules := Dedup(old(spec.modules)))
    {
      var unique := Deduplicate(spec.modules);
      spec := spec.(modules := unique);
    }

    /** The Job for the missing modules, if there are any: the user's command, told to install
        exactly these and to stop. */
    method GetDbInitJobTemplate() returns (job: Option<JobSpec>, modules: seq<string>)
      ensures modules == Missing(spec, status)
      ensures job == if modules == [] then None else Some(JobTemplate(spec, status, modules))
      ensures job.Some? ==> Ran(job.value) == Pieces(modules) && job.value.pod.ports == []
      ensures job.Some? ==>
        job.value.pod.command ==
          spec.odooCommand + ["-c", "/opt/odoo/odoo.conf", "--stop-after-init", "--no-http", "--init",
                              JoinOn(modules, ',')]
    {
      modules := ComputeDifference(spec.modules, status.initModulesInstalled);
      if modules == [] {
        return None, [];
      }
      var arg := InitArgument(modules);
      var pod := PodTemplate(spec, status);
      pod := pod.(command := spec.odooCommand + INIT_FLAGS + [arg]);
      pod := pod.(ports := []);
      pod := pod.(restartPolicy := "Never");
      job := Some(JobSpec(pod, 1, 2));
      JobRunsItsModules(spec, status, modules);
      assert spec.odooCommand + INIT_FLAGS + [arg] ==
        spec.odooCommand + ["-c", "/opt/odoo/odoo.conf", "--stop-after-init", "--no-http", "--init", arg];
    }
  }

  /** A client of the API server. When it is not `quiet`, others send requests and Jobs make
      progress before every request; when it is not `reliable`, requests and answers get lost. */
  class ApiClient {
    const quiet: bool
    const reliable: bool
    var world: World
    ghost var local: Local
    ghost var executed: set<string>
    ghost var begun: System
    ghost var labels: seq<Label>
    ghost var sent: seq<Call>

    constructor (quiet: bool, reliable: bool, world: World, ghost key: Key, ghost executed: set<string>)
      requires WellTyped(world)
      ensures WellTyped(this.world) && Now() == System(world, local, executed) && local.key == key && local.pc.Idle?
      ensures this.quiet == quiet && this.reliable == reliable
    {
      this.quiet, this.reliable, this.world, this.executed := quiet, reliable, world, executed;
      this.local := *;
      this.sent := [];
      new;
      local := local.(key := key, pc := Idle(true, 0));
    }

    ghost function Now(): System
      reads this
    {
      System(world, local, executed)
    }

    /** The state is the one the machine reaches, from the state in which the pass began, by
        the labels recorded since; they say what others did and which requests failed. */
    ghost predicate Valid()
      reads this
    {
      WellTyped(world) && begun.l.pc.Fetch? && RunAll(begun, labels) == Now() &&
      (quiet ==> Undisturbed(labels)) &&
      (quiet && reliable ==> HonestRun(begun, labels))
    }

    /** A pass begins. */
    ghost method Begin()
      requires WellTyped(world) && local.pc.Idle?
      modifies this`local, this`begun, this`labels
      ensures Valid() && labels == [] && begun == Apply(old(Now()), Start)
      ensures local == Goto(old(local), Fetch)
    {
      local := Goto(local, Fetch);
      begun, labels := Now(), [];
    }

    ghost method Record(a: Label)
      requires RunAll(begun, labels) == Now()
      modifies this`labels, this`local, this`executed
      ensures labels == old(labels) + [a]
      ensures var m := Apply(old(Now()), a);
              local == m.l && executed == m.executed && RunAll(begun, labels) == m
    {
      hide Apply, RunAll, ProgressStep, Executes, OwnStep, Serve, Continue, CallOf;
      RunSnoc(begun, labels, a);
      var m := Apply(Now(), a);
      labels, local, executed := labels + [a], m.l, m.executed;
    }

    /** What others do between two requests of the pass. */
    method Interfere()
      requires Valid() && !quiet
      modifies this
      ensures Valid() && local == old(local) && begun == old(begun) && sent == old(sent) && old(labels) <= labels
    {
      var n: int := *;
      while n > 0
        invariant Valid() && local == old(local) && begun == old(begun) && sent == old(sent) && old(labels) <= labels
      {
        if * {
          var call: Call, ch: Choice := *, *;
          Record(Foreign(call, ch));
          ServeTyped(world, call, ch);
          world := Serve(world, call, ch).0;
        } else {
          var id: Id, s: JobStatus := *, *;
          Record(JobProgress(id, s));
          world := ProgressStep(world, id, s);
        }
        n := n - 1;
      }
    }

    method Listing(jobName: string) returns (pods: seq<Id>)
      ensures ListingOf(world, jobName, pods)
    {
      var left := PodsOf(world, jobName);
      pods := [];
      while left != {}
        invariant left <= PodsOf(world, jobName)
        invariant forall id :: id in pods <==> id in PodsOf(world, jobName) - left
        invariant forall i, j :: 0 <= i < j < |pods| ==> pods[i] != pods[j]
        decreases left
      {
        var id :| id in left;
        left := left - {id};
        pods := pods + [id];
      }
    }

    method Choose(call: Call) returns (ch: Choice)
      ensures reliable ==> Honest(world, call, ch)
    {
      ch := *;
      if reliable {
        var pods := [];
        if call.ListPods? {
          pods := Listing(call.jobName);
        }
        ch := ch.(fault := NoFault, password := if ch.password == "" then "x" else ch.password, listing := pods);
      }
    }

    /** Sends one request, which has to be the next one of the machine. */
    method Do(call: Call) returns (r: Response)
      requires Valid() && call == CallOf(local)
      modifies this
      ensures Valid() && local == Continue(old(local), r) && begun == old(begun)
      ensures sent == old(sent) + [call] && |labels| > |old(labels)| && old(labels) <= labels
      ensures Answers(call, labels[|labels| - 1], world, r)
      ensures labels[|labels| - 1].Own? && (reliable ==> labels[|labels| - 1].choice.fault.NoFault?)
      ensures quiet ==> AnswersFrom(old(world), call, labels[|labels| - 1], world, r)
    {
      hide Continue, CallOf, HonestRun, Apply, Serve, RunAll, Undisturbed;
      if !quiet {
        Interfere();
      }
      var ch := Choose(call);
      if quiet {
        UndisturbedSnoc(labels, ch);
        if reliable {
          HonestSnoc(begun, labels, Own(ch));
        }
      }
      OwnApplied(Now(), ch);
      Record(Own(ch));
      ServeTyped(world, call, ch);
      ghost var w := world;
      r := Serve(world, call, ch).1;
      world := Serve(world, call, ch).0;
      sent := sent + [call];
      assert AnswersFrom(w, call, labels[|labels| - 1], world, r);
    }

    /** Writes the status; the server's answer replaces the whole in-memory resource. */
    method UpdateStatus(o: OdooDeployment) returns (r: Response)
      requires Valid() && InSync(this, o) && CallOf(local) == StatusCall(local)
      modifies this, o
      ensures Valid() && local == Continue(old(local), r) && begun == old(begun)
      ensures o.View() == Refreshed(old(local), r).mem && o.status == old(o.status)
      ensures sent == old(sent) + [StatusCall(old(local))]
    {
      hide Continue, CallOf;
      r := Do(Call.UpdateStatus(OdooId(o.key), o.status, o.version));
      if r.Written? && r.body.OdooBody? {
        o.spec, o.status, o.version := r.body.spec, r.body.status, r.version;
      }
    }
  }

  /** The in-memory resource is the one the machine remembers. */
  ghost predicate InSync(client: ApiClient, o: OdooDeployment)
    reads client, o
  {
    client.local.key == o.key && client.local.mem == o.View()
  }

  /** What is known at the end of an undisturbed stretch of a pass. */
  lemma KnowsNow(client: ApiClient)
    requires client.Valid() && client.quiet && Inv(client.begun)
    ensures Inv(client.Now()) && Knows(true, client.world, client.local) && client.local.key == client.begun.l.key
  {
    hide Knows, Inv;
    FetchKnown(client.begun);
    RunKnows(true, client.begun, client.labels);
  }

  lemma FetchKnown(m: System)
    requires m.l.pc.Fetch?
    ensures InStep(m.w, m.l) && Knows(true, m.w, m.l)
  {
  }
}
