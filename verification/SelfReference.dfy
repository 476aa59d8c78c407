// Resources that read their own configuration secret: for exactly these a finished pass does
// not leave the configuration as wanted, and every pass writes it anew.
module SelfReference {
  import opened Types
  import opened Templates
  import opened Api
  import opened Machine
  import opened Safety
  import opened History
  import opened Fixpoint
  import Sources
  import ConfigText
  import Watch

  /** What a finished pass leaves is the wanted configuration exactly if the resource does not
      read its own configuration secret. */
  lemma ConfiguredExactly(m: System, labels: seq<Label>)
    requires Inv(m) && m.l.pc.Fetch? && Unedited(labels)
    requires RunAll(m, labels).l.pc == Idle(false, 0) && HasResource(RunAll(m, labels).w, m.l.key)
    ensures var w' := RunAll(m, labels).w; var spec := StoredSpec(w', m.l.key);
            AsWanted(w', m.l.key, spec) <==> !SelfReferring(m.l.key, spec)
  {
    hide Apply, Served, Wanted, SelfReferring, RunAll;
    NoLostWakeUp(m, labels);
    var w' := RunAll(m, labels).w;
    if SelfReferring(m.l.key, StoredSpec(w', m.l.key)) {
      NeverAsWanted(w', m.l.key, StoredSpec(w', m.l.key));
    }
  }

  lemma NeverAsWanted(w: World, key: Key, spec: OdooSpec)
    requires SelfReferring(key, spec)
    ensures !AsWanted(w, key, spec)
  {
    hide Watch.Desired, Watch.SelfReferring;
    if Wanted(w, key, spec).Ok? {
      Watch.SelfReferenceNeverSettles(Watch.Resource(key, spec), SecretsOf(w));
    }
  }

  /** The stored configuration is one file, which says under each key what the stored admin secret, the
      connection details computed from the stored secrets, and the specification say. */
  ghost predicate StoredFile(w: World, key: Key, spec: OdooSpec) {
    exists data, admin, d :: FileFrom(w, key, spec, data, admin, d)
  }

  ghost predicate FileFrom(w: World, key: Key, spec: OdooSpec, data: SecretData, admin: SecretData,
                           d: ConnectionDetails) {
    SecretIn(w, Key(key.namespace, key.name + "-config")) == Some(data) && data.Keys == {"odoo.conf"} &&
    SecretIn(w, Key(key.namespace, Sources.AdminName(key, spec))) == Some(admin) && "password" in admin &&
    Sources.AllFrom(spec.database, key.namespace, SecretsOf(w), d) &&
    (Sources.OnLines(admin["password"], spec.config, d) ==>
      Sources.Says(ConfigText.Read(data["odoo.conf"]), admin["password"], spec.config, d))
  }

  lemma WantedFile(w: World, key: Key, spec: OdooSpec)
    requires AsWanted(w, key, spec)
    ensures StoredFile(w, key, spec)
  {
    hide Sources.AllFrom, Sources.OnLines, Sources.Says, ConfigText.Read, ConfigData, GetDbConnectionDetails;
    var r, s := Watch.Resource(key, spec), SecretsOf(w);
    var data := Watch.Desired(r, s).value;
    var admin, d := s(AdminKey(key, spec)).value, Watch.Details(r, s).value;
    Sources.DetailsExactly(spec.database, key.namespace, s, d);
    Sources.DesiredFile(r, s, data, admin, d);
    assert FileFrom(w, key, spec, data, admin, d);
  }

  /** A finished pass over any other resource leaves the file it should: every value in it comes from
      the secret or the part of the specification it belongs to. */
  lemma FinishedPassStoresFile(m: System, labels: seq<Label>)
    requires Inv(m) && m.l.pc.Fetch? && Unedited(labels)
    requires RunAll(m, labels).l.pc == Idle(false, 0) && HasResource(RunAll(m, labels).w, m.l.key)
    requires !SelfReferring(m.l.key, StoredSpec(RunAll(m, labels).w, m.l.key))
    ensures var w' := RunAll(m, labels).w; StoredFile(w', m.l.key, StoredSpec(w', m.l.key))
  {
    hide Apply, RunAll, SelfReferring, AsWanted, StoredFile;
    ConfiguredExactly(m, labels);
    WantedFile(RunAll(m, labels).w, m.l.key, StoredSpec(RunAll(m, labels).w, m.l.key));
  }

  /** Points the pass comes to only with its configuration stored. */
  predicate PastConfig(pc: Pc) {
    pc.ConfigStatus? || pc.ClaimGet? || pc.ClaimCreate? || pc.ClaimStatus? || pc.JobGet? || pc.PodsList? ||
    pc.Cleanup? || pc.JobCreate? || pc.JobStatusFirst? || pc.JobStatusSecond? || pc.DeployGet? || pc.DeployPut? ||
    pc.DeployStatus? || pc.ServiceGet? || pc.ServicePut? || pc.FinalStatus? || (pc.Idle? && !pc.failed)
  }

  /** The configuration found is never the one a self-referring resource wants. */
  lemma SelfStores(w: World, l: Local, d: ConnectionDetails, found: Option<Stored>)
    requires SelfReferring(l.key, l.mem.spec) && AdminStored(w, l) && Slotted(w, ConfigId(l.key), found)
    requires GetDbConnectionDetails(l.mem.spec.database, l.key.namespace, SecretsOf(w)) == Ok(d)
    ensures DetailsDone(l, d, found).pc.ConfigPut?
  {
    hide ConfigData, GetDbConnectionDetails, AdminKey, Watch.SelfReferring;
    Watch.SelfReferenceNeverSettles(Watch.Resource(l.key, l.mem.spec), SecretsOf(w));
  }

  lemma SelfField(w: World, l: Local, i: nat, d: ConnectionDetails, field: Result<ConnectionDetails, DbError>,
                  found: Option<Stored>)
    requires SelfReferring(l.key, l.mem.spec) && AdminStored(w, l) && Slotted(w, ConfigId(l.key), found)
    requires Reading(w, l, i, d)
    requires field.Ok? ==>
      field == Field(d, l.mem.spec.database, i, SecretsOf(w)(Key(l.key.namespace, DbRef(l.mem.spec.database, i).name)))
    ensures !PastConfig(AfterField(l, i, field, found).pc)
  {
    hide DetailsDone, GetDbConnectionDetails, Field, DbRef, AdminKey, SecretsOf, SelfReferring;
    if field.Ok? && i + 1 == FIELDS {
      assert DetailsFrom(l.mem.spec.database, l.key.namespace, SecretsOf(w), FIELDS, field.value) == Ok(field.value);
      SelfStores(w, l, field.value, found);
    }
  }

  lemma SelfRead(w: World, l: Local, ch: Choice)
    requires l.pc.DbRead? && Knows(false, w, l) && WellTyped(w) && SelfReferring(l.key, l.mem.spec)
    ensures !PastConfig(OwnStep(w, l, ch).1.pc)
  {
    hide AfterField, ReadField, Field, Reading, AdminStored, Slotted, SecretsOf, DbRef, Rested, SelfReferring;
    var r := Serve(w, CallOf(l), ch).1;
    FieldRead(w, l, ch);
    SelfField(w, l, l.pc.i, l.pc.details, ReadField(l, l.pc.i, l.pc.details, r), l.pc.found);
  }

  /** The first such point is reached by writing, or by finding the configuration as wanted. */
  lemma EntersPastConfig(l: Local, r: Response)
    requires PastConfig(Continue(l, r).pc) && !PastConfig(l.pc)
    ensures l.pc.DbRead? || l.pc.ConfigNoPassword? || l.pc.Fetch? || (l.pc.ConfigPut? && r.Written?)
  {
    hide AfterField, AfterServiceGet, AfterDeployGet, AfterJobGet;
  }

  ghost predicate WroteConfig(m: System, version: nat) {
    HasResource(m.w, m.l.key) && SelfReferring(m.l.key, StoredSpec(m.w, m.l.key)) &&
    (Active(m.l.pc) ==> SelfReferring(m.l.key, m.l.mem.spec)) &&
    At(m.w, ConfigId(m.l.key)).version >= version &&
    (PastConfig(m.l.pc) ==> At(m.w, ConfigId(m.l.key)).version > version)
  }

  lemma OwnWroteSpec(m: System, ch: Choice)
    requires Inv(m) && InStep(m.w, m.l) && WroteConfig(m, 0)
    ensures var m' := Apply(m, Own(ch));
            HasResource(m'.w, m.l.key) && SelfReferring(m.l.key, StoredSpec(m'.w, m.l.key)) &&
            (Active(m'.l.pc) ==> SelfReferring(m.l.key, m'.l.mem.spec))
  {
    hide Continue, CallOf, SelfReferring, PastConfig;
    OwnAppends(m, ch);
    OwnLists(m, ch);
    OwnMemorySpec(m, ch);
  }

  /** The specification in memory is the stored one, up to repeated modules. */
  lemma OwnMemorySpec(m: System, ch: Choice)
    requires Inv(m) && HasResource(m.w, m.l.key)
    requires SelfReferring(m.l.key, StoredSpec(m.w, m.l.key))
    requires Active(m.l.pc) ==> SelfReferring(m.l.key, m.l.mem.spec)
    ensures var l' := OwnStep(m.w, m.l, ch).1; Active(l'.pc) ==> SelfReferring(m.l.key, l'.mem.spec)
  {
    hide Continue, CallOf, Watch.SelfReferring;
    var r := Serve(m.w, CallOf(m.l), ch).1;
    PassPoints(m.l.pc);
    if StatusStep(m.l.pc) {
      StatusStepLocal(m.l, r);
      StatusAnswer(m.w, m.l, ch);
    } else if m.l.pc.Fetch? {
      FetchSpec(m.w, m.l, ch);
    } else if ChildStep(m.l.pc) {
      ChildStepLocal(m.l, r);
    } else if m.l.pc.Idle? {
      IdleStays(m.l, r);
    } else {
      JobStepLocal(m.l, r);
    }
  }

  lemma FetchSpec(w: World, l: Local, ch: Choice)
    requires l.pc.Fetch? && HasResource(w, l.key) && SelfReferring(l.key, StoredSpec(w, l.key))
    ensures var l' := OwnStep(w, l, ch).1; Active(l'.pc) ==> SelfReferring(l.key, l'.mem.spec)
  {
    hide AfterField, DbRef;
  }

  lemma OwnWroteConfig(m: System, ch: Choice, version: nat)
    requires Inv(m) && InStep(m.w, m.l) && Knows(false, m.w, m.l) && WroteConfig(m, version)
    ensures WroteConfig(Apply(m, Own(ch)), version)
  {
    hide Continue, Knows, SelfReferring, PastConfig;
    OwnWroteSpec(m, ch);
    KeyStays(m, Own(ch));
    hide CallOf, Serve;
    var r := Serve(m.w, CallOf(m.l), ch).1;
    ServeVersions(m.w, CallOf(m.l), ch, ConfigId(m.l.key));
    if PastConfig(Continue(m.l, r).pc) && !PastConfig(m.l.pc) {
      EntersPastConfig(m.l, r);
      if m.l.pc.DbRead? {
        SelfRead(m.w, m.l, ch);
      } else if m.l.pc.ConfigPut? {
        ConfigPutWrites(m.w, m.l, ch);
      } else if m.l.pc.Fetch? {
        FetchFinds(m.w, m.l, ch);
      } else {
        NoPasswordNever(false, m.w, m.l);
      }
    }
  }

  lemma ConfigPutWrites(w: World, l: Local, ch: Choice)
    requires l.pc.ConfigPut? && Serve(w, CallOf(l), ch).1.Written?
    ensures At(OwnStep(w, l, ch).0, ConfigId(l.key)).version > At(w, ConfigId(l.key)).version
  {
    hide Continue;
  }

  lemma FetchFinds(w: World, l: Local, ch: Choice)
    requires l.pc.Fetch? && HasResource(w, l.key)
    ensures !PastConfig(OwnStep(w, l, ch).1.pc)
  {
    hide AfterField;
  }

  lemma StepWroteConfig(m: System, a: Label, version: nat)
    requires Inv(m) && InStep(m.w, m.l) && Knows(false, m.w, m.l) && WroteConfig(m, version) && !a.Foreign?
    ensures WroteConfig(Apply(m, a), version)
  {
    hide Continue, CallOf, Knows, SelfReferring, InStep;
    match a
    case Start =>
    case Own(ch) => OwnWroteConfig(m, ch, version);
    case Crash =>
    case JobProgress(id, s) => ProgressLeaves(m.w, id, s);
  }

  lemma {:induction false} RunWroteConfig(m: System, labels: seq<Label>, version: nat)
    requires Inv(m) && InStep(m.w, m.l) && Knows(false, m.w, m.l) && WroteConfig(m, version) && Unedited(labels)
    ensures WroteConfig(RunAll(m, labels), version) && RunAll(m, labels).l.key == m.l.key
  {
    hide Apply, Knows, WroteConfig;
    if labels != [] {
      var front, a := labels[..|labels| - 1], labels[|labels| - 1];
      RunWroteConfig(m, front, version);
      RunKnows(false, m, front);
      KeyStays(RunAll(m, front), a);
      StepWroteConfig(RunAll(m, front), a, version);
    }
  }

  /** A resource that reads its own configuration secret never comes to rest: every pass over it
      that gets past the configuration, and so every pass that ends without error, has written
      the configuration anew. */
  lemma SelfReferringPassWrites(m: System, labels: seq<Label>)
    requires Inv(m) && m.l.pc.Fetch? && HasResource(m.w, m.l.key) && Unedited(labels)
    requires SelfReferring(m.l.key, StoredSpec(m.w, m.l.key))
    ensures var m' := RunAll(m, labels);
            PastConfig(m'.l.pc) ==> At(m'.w, ConfigId(m.l.key)).version > At(m.w, ConfigId(m.l.key)).version
  {
    hide Apply, SelfReferring, RunAll;
    RunWroteConfig(m, labels, At(m.w, ConfigId(m.l.key)).version);
  }
}
