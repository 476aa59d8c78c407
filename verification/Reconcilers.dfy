// The reconcilers as objects that work on a shared in-memory resource. Each method is a
// stretch of the machine of module `Machine`: its contract says from which point to which.
module Reconcilers {
  import opened Types
  import opened ModuleLists
  import opened Templates
  import opened Api
  import opened Machine
  import opened Safety
  import opened Convergence
  import opened Fixpoint
  import opened HonestPass
  import opened Client
  import opened Sources
  import Footprint
  import SelfReference

  /** A step that failed has written the status once and leaves one more write to its caller. */
  ghost predicate GaveUp(client: ApiClient, o: OdooDeployment, after: nat)
    reads client, o
  {
    client.Valid() && InSync(client, o) && client.local.pc == Fail(1, after)
  }

  lemma FailStep(l: Local, r: Response)
    requires l.pc.Fail?
    ensures CallOf(l) == StatusCall(l) && Continue(l, r) == AfterFail(l, l.pc.writes, l.pc.after, r)
  {
    hide AfterField, AfterFail;
  }

  /** The status write with which every failing step ends. */
  method GiveUp(client: ApiClient, o: OdooDeployment, ghost after: nat)
    requires client.Valid() && InSync(client, o) && client.local.pc == Fail(2, after)
    modifies client, o
    ensures GaveUp(client, o, after) && client.begun == old(client.begun) && o.status == old(o.status)
  {
    hide Continue, CallOf, AnswersFrom, ApiClient.Valid;
    FailStep(client.local, Nothing);
    ghost var before := client.local;
    var r := client.UpdateStatus(o);
    FailStep(before, r);
  }

  // ---- The admin password secret ----

  lemma AdminSteps(l: Local, r: Response)
    ensures l.pc.AdminGet? ==> CallOf(l) == Get(AdminId(l)) && Continue(l, r) == AfterAdminGet(l, r)
    ensures l.pc.AdminGenerate? ==>
      CallOf(l) == GeneratePassword && Continue(l, r) == AfterAdminGenerate(l, l.pc.found, r)
    ensures l.pc.AdminPut? ==>
      CallOf(l) == WriteCall(AdminId(l), SecretBody(l.pc.data), l.pc.write) &&
        Continue(l, r) == AfterAdminPut(l, l.pc.data, r)
  {
    hide AfterField, AfterAdminGet, AfterAdminGenerate, AfterAdminPut;
  }

  /** These are the data of a password drawn between the two logs. */
  ghost predicate Drew(before: seq<Label>, labels: seq<Label>, data: SecretData) {
    exists i :: |before| <= i < |labels| && DrewAt(labels, i, data)
  }

  ghost predicate DrewAt(labels: seq<Label>, i: int, data: SecretData) {
    0 <= i < |labels| && labels[i].Own? && data == map["password" := labels[i].choice.password]
  }

  lemma DrewNow(before: seq<Label>, at: seq<Label>, labels: seq<Label>, data: SecretData)
    requires before <= at && |at| > |before| && at <= labels && at[|at| - 1].Own?
    requires data == map["password" := at[|at| - 1].choice.password]
    ensures Drew(before, labels, data)
  {
    assert DrewAt(labels, |at| - 1, data);
  }

  lemma DrewSince(before: seq<Label>, at: seq<Label>, labels: seq<Label>, data: SecretData)
    requires before <= at
    ensures Drew(at, labels, data) ==> Drew(before, labels, data)
  {
  }

  class OdooAdminPasswordSecretReconciler {
    const client: ApiClient
    const odooDeployment: OdooDeployment

    constructor (client: ApiClient, odooDeployment: OdooDeployment)
      ensures this.client == client && this.odooDeployment == odooDeployment
    {
      this.client, this.odooDeployment := client, odooDeployment;
    }

    /** The admin secret as stored, with a password that was there before or was drawn now. */
    method Reconcile() returns (adminSecret: SecretData, failed: bool)
      requires client.Valid() && InSync(client, odooDeployment) && client.local.pc.AdminGet?
      modifies client, odooDeployment
      ensures client.begun == old(client.begun)
      ensures failed ==> GaveUp(client, odooDeployment, 15)
      ensures !failed ==>
        client.Valid() && odooDeployment.View() == old(odooDeployment.View()) &&
        client.local == AdminDone(old(client.local), adminSecret)
      ensures !failed && client.quiet && Inv(client.begun) ==> AdminStored(client.world, client.local)
      ensures !failed ==> "password" in adminSecret
      ensures !failed && client.quiet ==>
        var stored := SecretIn(old(client.world), AdminKey(odooDeployment.key, old(odooDeployment.spec)));
        if stored.Some? && "password" in stored.value then adminSecret == stored.value
        else Drew(old(client.labels), client.labels, adminSecret)
    {
      hide Continue, CallOf, AnswersFrom, ApiClient.Valid, Inv, Knows, AdminKey, AdminStored, Drew;
      var id := Id(SecretKind, AdminKey(odooDeployment.key, odooDeployment.spec));
      var found := None;
      adminSecret := map[];
      ghost var l := client.local;
      AdminSteps(l, Nothing);
      var r := client.Do(Get(id));
      AdminSteps(l, r);
      if client.quiet {
        GetAnswer(old(client.world), id, client.labels[|client.labels| - 1], client.world, r);
      }
      match r {
        case NotFound =>
        case Found(SecretBody(data), version) => found := Some(Stored(data, version));
        case _ =>
          GiveUp(client, odooDeployment, 15);
          return adminSecret, true;
      }
      ghost var labels := client.labels;
      adminSecret, failed := Generate(id, found);
      if !failed {
        AdminKnown();
        DrewSince(old(client.labels), labels, client.labels, adminSecret);
      }
    }

    /** Draws a password, and stores it where none was found. */
    method Generate(id: Id, found: Option<Stored>) returns (adminSecret: SecretData, failed: bool)
      requires client.Valid() && InSync(client, odooDeployment) && client.local.pc == AdminGenerate(found)
      requires id == AdminId(client.local)
      modifies client, odooDeployment
      ensures client.begun == old(client.begun)
      ensures failed ==> GaveUp(client, odooDeployment, 15)
      ensures !failed ==>
        client.Valid() && odooDeployment.View() == old(odooDeployment.View()) &&
        client.local == AdminDone(old(client.local), adminSecret)
      ensures !failed ==>
        if found.Some? && "password" in found.value.data then adminSecret == found.value.data
        else Drew(old(client.labels), client.labels, adminSecret)
      ensures !failed ==> "password" in adminSecret
    {
      hide Continue, CallOf, AnswersFrom, ApiClient.Valid, AdminKey, Drew;
      adminSecret := map[];
      ghost var l := client.local;
      AdminSteps(l, Nothing);
      var r := client.Do(GeneratePassword);
      AdminSteps(l, r);
      if !r.Password? {
        GiveUp(client, odooDeployment, 15);
        return adminSecret, true;
      }
      ghost var drawn := client.labels;
      PasswordAnswer(drawn[|drawn| - 1], client.world, r);
      var newData := map[PASSWORD := r.text];
      if found.Some? && PASSWORD in found.value.data {
        return found.value.data, false;
      }
      adminSecret := newData;
      AdminSteps(client.local, Nothing);
      if found.None? {
        failed := Write(Create(id, SecretBody(adminSecret)));
      } else {
        failed := Write(Update(id, SecretBody(adminSecret), found.value.version));
      }
      if !failed {
        DrewNow(old(client.labels), drawn, client.labels, adminSecret);
      }
    }

    /** Writes the secret. */
    method Write(call: Call) returns (failed: bool)
      requires client.Valid() && InSync(client, odooDeployment) && client.local.pc.AdminPut? &&
        call == CallOf(client.local)
      modifies client, odooDeployment
      ensures client.begun == old(client.begun)
      ensures failed ==> GaveUp(client, odooDeployment, 15)
      ensures !failed ==>
        client.Valid() && odooDeployment.View() == old(odooDeployment.View()) &&
        client.local == AdminDone(old(client.local), old(client.local.pc.data)) && old(client.labels) <= client.labels
    {
      hide Continue, CallOf, AnswersFrom, ApiClient.Valid, AdminKey;
      ghost var l := client.local;
      var r := client.Do(call);
      AdminSteps(l, r);
      failed := !r.Written?;
      if failed {
        GiveUp(client, odooDeployment, 15);
      }
    }

    lemma AdminKnown()
      requires client.Valid() && client.local.pc.AdminStatus?
      ensures client.quiet && Inv(client.begun) ==> AdminStored(client.world, client.local)
    {
      hide ApiClient.Valid, Inv, Steady, Reading;
      if client.quiet && Inv(client.begun) {
        KnowsNow(client);
      }
    }
  }

  // ---- The configuration secret ----

  lemma ConfigSteps(l: Local, r: Response)
    ensures l.pc.ConfigGet? ==> CallOf(l) == Get(ConfigId(l.key)) && Continue(l, r) == AfterConfigGet(l, r)
    ensures l.pc.ConfigNoPassword? ==>
      CallOf(l) == StatusCall(l) && Continue(l, r) == AfterConfigNoPassword(l, l.pc.found, r)
    ensures l.pc.ConfigPut? ==>
      CallOf(l) == WriteCall(ConfigId(l.key), SecretBody(l.pc.data), l.pc.write) &&
        Continue(l, r) == AfterConfigPut(l, r)
  {
    hide AfterField, AfterConfigGet, AfterConfigNoPassword, AfterConfigPut;
  }

  lemma FieldSteps(l: Local, r: Response)
    requires l.pc.DbRead?
    ensures var ref := DbRef(l.mem.spec.database, l.pc.i);
            CallOf(l) == if FromSecret(ref) then Get(Id(SecretKind, Key(l.key.namespace, ref.name))) else Skip
    ensures Continue(l, r) == AfterField(l, l.pc.i, ReadField(l, l.pc.i, l.pc.details, r), l.pc.found)
  {
    hide AfterField, ReadField;
  }

  lemma FieldGoesOn(l: Local, i: nat, field: Result<ConnectionDetails, DbError>, found: Option<Stored>)
    ensures AfterField(l, i, field, found) ==
            if field.Err? then Failed(l, 15)
            else if i + 1 < FIELDS then Goto(l, DbRead(i + 1, field.value, found))
            else DetailsDone(l, field.value, found)
  {
    hide DetailsDone;
  }

  /** The fields before the i-th have been read as the whole computation would read them; an error is
      its error, unless a request was lost. */
  ghost predicate ReadSoFar(reliable: bool, db: DatabaseConfig, namespace: string, w: World, i: nat,
                            d: Result<ConnectionDetails, DbError>)
    requires i <= FIELDS
  {
    var whole := GetDbConnectionDetails(db, namespace, SecretsOf(w));
    match d
    case Ok(c) => whole == DetailsFrom(db, namespace, SecretsOf(w), i, c)
    case Err(e) => reliable ==> whole.Err? && whole.error.1 == e
  }

  lemma ReadOn(reliable: bool, db: DatabaseConfig, namespace: string, w: World, i: nat, d: ConnectionDetails,
               field: Result<ConnectionDetails, DbError>)
    requires i < FIELDS && ReadSoFar(reliable, db, namespace, w, i, Ok(d))
    requires reliable || field.Ok? ==> field == Field(d, db, i, SecretIn(w, Key(namespace, DbRef(db, i).name)))
    ensures ReadSoFar(reliable, db, namespace, w, i + 1, field)
  {
    hide Field, DbRef, SecretIn;
  }

  lemma AllRead(reliable: bool, db: DatabaseConfig, namespace: string, w: World,
                d: Result<ConnectionDetails, DbError>)
    requires ReadSoFar(reliable, db, namespace, w, FIELDS, d)
    ensures d.Ok? ==> AllFrom(db, namespace, SecretsOf(w), d.value)
    ensures reliable && d.Err? ==> FirstProblem(db, namespace, w, d.error)
  {
    hide Field, DbRef, SecretIn, AllFrom, Problems;
    if d.Ok? {
      DetailsExactly(db, namespace, SecretsOf(w), d.value);
    } else if reliable {
      FirstProblemReported(db, namespace, SecretsOf(w),
                           GetDbConnectionDetails(db, namespace, SecretsOf(w)).error.0, d.error);
    }
  }

  /** This is what is wrong with the first field that has no value. */
  ghost predicate FirstProblem(db: DatabaseConfig, namespace: string, w: World, e: DbError) {
    var problems := Problems(db, namespace, SecretsOf(w));
    exists k :: 0 <= k < |problems| && problems[k] == Some(e) && forall j :: 0 <= j < k ==> problems[j] == None
  }

  lemma StartsReading(reliable: bool, db: DatabaseConfig, namespace: string, w: World)
    ensures ReadSoFar(reliable, db, namespace, w, 0, Ok(NO_DETAILS))
  {
  }

  /** What a reference yields is what the store holds. */
  lemma FieldAnswer(w: World, ref: SecretRef, namespace: string, a: Label, w': World, r: Response)
    requires AnswersFrom(w, Get(Id(SecretKind, Key(namespace, ref.name))), a, w', r)
    ensures w' == w
    ensures r.Found? ==> At(w, Id(SecretKind, Key(namespace, ref.name))).body == Some(r.body)
    ensures r.Found? && r.body.SecretBody? ==> SecretIn(w, Key(namespace, ref.name)) == Some(r.body.data)
    ensures a.choice.fault.NoFault? && !(r.Found? && r.body.SecretBody?) ==>
              SecretIn(w, Key(namespace, ref.name)) == None
  {
  }

  lemma SkipAnswer(w: World, a: Label, w': World, r: Response)
    requires AnswersFrom(w, Skip, a, w', r)
    ensures w' == w
  {
  }

  class OdooConfigSecretReconciler {
    const client: ApiClient
    const odooDeployment: OdooDeployment
    const adminSecret: SecretData

    constructor (client: ApiClient, odooDeployment: OdooDeployment, adminSecret: SecretData)
      ensures this.client == client && this.odooDeployment == odooDeployment && this.adminSecret == adminSecret
    {
      this.client, this.odooDeployment, this.adminSecret := client, odooDeployment, adminSecret;
    }

    /** One field of the connection details, from the secret it refers to or from the
        specification. */
    method ReadDbField(i: nat, d: ConnectionDetails) returns (field: Result<ConnectionDetails, DbError>)
      requires client.Valid() && InSync(client, odooDeployment)
      requires client.local.pc.DbRead? && client.local.pc.i == i && client.local.pc.details == d
      modifies client
      ensures client.Valid() && client.begun == old(client.begun)
      ensures client.local == AfterField(old(client.local), i, field, old(client.local.pc.found))
      ensures client.quiet ==>
        client.world == old(client.world) &&
        var db := odooDeployment.spec.database;
        (client.reliable || field.Ok? ==>
          field == Field(d, db, i, SecretIn(client.world, Key(odooDeployment.key.namespace, DbRef(db, i).name))))
    {
      hide Continue, CallOf, AnswersFrom, ApiClient.Valid, AfterField, FieldFromSpec, FieldFromText, SecretIn, DbRef;
      var db := odooDeployment.spec.database;
      var ref := DbRef(db, i);
      ghost var l := client.local;
      FieldSteps(l, Nothing);
      if FromSecret(ref) {
        var r := client.Do(Get(Id(SecretKind, Key(odooDeployment.key.namespace, ref.name))));
        FieldSteps(l, r);
        if client.quiet {
          FieldAnswer(old(client.world), ref, odooDeployment.key.namespace, client.labels[|client.labels| - 1],
                      client.world, r);
        }
        match r {
          case Found(SecretBody(data), _) => field := FieldFromSecret(d, i, ref.key, Some(data));
          case _ => field := Err(SecretNotFound);
        }
      } else {
        var r := client.Do(Skip);
        FieldSteps(l, r);
        if client.quiet {
          SkipAnswer(old(client.world), client.labels[|client.labels| - 1], client.world, r);
        }
        field := FieldFromSpec(d, i, db);
      }
    }

    /** The next field, unless an earlier one failed. */
    method NextDbField(i: nat, d: Result<ConnectionDetails, DbError>)
      returns (field: Result<ConnectionDetails, DbError>)
      requires i < FIELDS && client.Valid() && InSync(client, odooDeployment)
      requires d.Ok? ==> client.local.pc.DbRead? && client.local.pc.i == i && client.local.pc.details == d.value
      requires client.quiet ==>
        ReadSoFar(client.reliable, odooDeployment.spec.database, odooDeployment.key.namespace, client.world, i, d)
      modifies client
      ensures client.quiet ==>
        client.world == old(client.world) &&
        ReadSoFar(client.reliable, odooDeployment.spec.database, odooDeployment.key.namespace, client.world, i + 1,
                  field)
      ensures client.Valid() && client.begun == old(client.begun)
      ensures d.Err? ==> field == d && client.local == old(client.local)
      ensures d.Ok? ==>
        client.local ==
          var l, found := old(client.local), old(client.local.pc.found);
          if field.Err? then Failed(l, 15)
          else if i + 1 < FIELDS then Goto(l, DbRead(i + 1, field.value, found))
          else DetailsDone(l, field.value, found)
    {
      hide Continue, CallOf, AnswersFrom, ApiClient.Valid, AfterField, DetailsDone, ReadSoFar, Field, SecretIn;
      if d.Err? {
        ErrorStays(client, odooDeployment, i, d);
        return d;
      }
      ghost var l := client.local;
      field := ReadDbField(i, d.value);
      FieldGoesOn(l, i, field, l.pc.found);
      if client.quiet {
        ReadOn(client.reliable, odooDeployment.spec.database, odooDeployment.key.namespace, client.world, i, d.value,
               field);
      }
    }

    lemma ErrorStays(client: ApiClient, o: OdooDeployment, i: nat, d: Result<ConnectionDetails, DbError>)
      requires i < FIELDS && d.Err?
      ensures var db, namespace := o.spec.database, o.key.namespace;
              ReadSoFar(client.reliable, db, namespace, client.world, i, d) ==>
                ReadSoFar(client.reliable, db, namespace, client.world, i + 1, d)
    {
    }

    /** The seven fields in order; the first one that fails ends the computation. If nobody else acts,
        each field holds what its own reference or the specification says, and, if no request is
        lost, the error is the first problem there is. */
    method GetDbConnectionDetails() returns (details: Result<ConnectionDetails, DbError>)
      requires client.Valid() && InSync(client, odooDeployment)
      requires client.local.pc.DbRead? && client.local.pc.i == 0 && client.local.pc.details == NO_DETAILS
      modifies client
      ensures client.Valid() && client.begun == old(client.begun)
      ensures client.local ==
        if details.Err? then Failed(old(client.local), 15)
        else DetailsDone(old(client.local), details.value, old(client.local.pc.found))
      ensures client.quiet ==>
        client.world == old(client.world) &&
        var db, namespace := odooDeployment.spec.database, odooDeployment.key.namespace;
        match details
        case Ok(d) => AllFrom(db, namespace, SecretsOf(client.world), d)
        case Err(e) => client.reliable ==> FirstProblem(db, namespace, client.world, e)
    {
      hide Continue, CallOf, AnswersFrom, ApiClient.Valid, AfterField, DetailsDone, ReadSoFar, AllFrom, FirstProblem;
      ghost var db, namespace := odooDeployment.spec.database, odooDeployment.key.namespace;
      StartsReading(client.reliable, db, namespace, client.world);
      details := NextDbField(0, Ok(NO_DETAILS));
      details := NextDbField(1, details);
      details := NextDbField(2, details);
      details := NextDbField(3, details);
      details := NextDbField(4, details);
      details := NextDbField(5, details);
      ghost var pc := client.local.pc;
      details := NextDbField(6, details);
      DetailsForget(old(client.local), pc, details, old(client.local.pc.found));
      if client.quiet {
        AllRead(client.reliable, db, namespace, client.world, details);
      }
    }

    /** The configuration secret holds what the admin password, the specification and the
        connection details say. */
    method Reconcile() returns (failed: bool)
      requires client.Valid() && InSync(client, odooDeployment)
      requires client.local.pc.ConfigGet? && client.local.admin == adminSecret
      modifies client, odooDeployment
      ensures client.begun == old(client.begun)
      ensures failed ==> GaveUp(client, odooDeployment, 15)
      ensures !failed ==>
        client.Valid() && client.local == ConfigDone(old(client.local).(mem := odooDeployment.View()))
      ensures !failed && client.quiet && Inv(client.begun) ==>
        Configured(client.world, odooDeployment.key, client.local.mem.spec, client.local.mem.status) &&
        (AsWanted(client.world, odooDeployment.key, client.local.mem.spec) <==>
         !SelfReferring(odooDeployment.key, client.local.mem.spec))
    {
      hide Continue, CallOf, AnswersFrom, ApiClient.Valid, Inv, Knows, DetailsDone, Configured, AsWanted, SelfReferring;
      var id := ConfigId(odooDeployment.key);
      var createSecret, data, version := false, map[], 0;
      ghost var l := client.local;
      ConfigSteps(l, Nothing);
      var r := client.Do(Get(id));
      ConfigSteps(l, r);
      match r {
        case NotFound => createSecret := true;
        case Found(SecretBody(stored), found) => data, version := stored, found;
        case _ =>
          GiveUp(client, odooDeployment, 15);
          return true;
      }
      if PASSWORD !in adminSecret {
        l := client.local;
        ConfigSteps(l, Nothing);
        r := client.UpdateStatus(odooDeployment);
        ConfigSteps(l, r);
        failed := createSecret || !r.Written?;
      } else {
        failed := Store(if createSecret then None else Some(Stored(data, version)));
      }
      if !failed {
        ConfigKnown();
      }
    }

    /** Computes the configuration and stores it where it differs from what was found. */
    method Store(found: Option<Stored>) returns (failed: bool)
      requires client.Valid() && InSync(client, odooDeployment)
      requires client.local.pc == DbRead(0, NO_DETAILS, found)
      requires PASSWORD in adminSecret && client.local.admin == adminSecret
      modifies client, odooDeployment
      ensures client.begun == old(client.begun)
      ensures failed ==> GaveUp(client, odooDeployment, 15)
      ensures !failed ==>
        client.Valid() && odooDeployment.View() == old(odooDeployment.View()) &&
          client.local == ConfigDone(old(client.local))
    {
      hide Continue, CallOf, AnswersFrom, ApiClient.Valid, DetailsDone;
      ghost var l := client.local;
      var details := GetDbConnectionDetails();
      if details.Err? {
        GiveUp(client, odooDeployment, 15);
        return true;
      }
      var id := ConfigId(odooDeployment.key);
      var newData := ConfigData(adminSecret[PASSWORD], odooDeployment.spec.config, details.value);
      DetailsStored(l, client.local, details.value, found, newData);
      match found
      case None => failed := Write(Create(id, SecretBody(newData)));
      case Some(secret) =>
        if secret.data != newData {
          failed := Write(Update(id, SecretBody(newData), secret.version));
        } else {
          failed := false;
        }
    }

    method Write(call: Call) returns (failed: bool)
      requires client.Valid() && InSync(client, odooDeployment) && client.local.pc.ConfigPut? &&
        call == CallOf(client.local)
      modifies client, odooDeployment
      ensures client.begun == old(client.begun)
      ensures failed ==> GaveUp(client, odooDeployment, 15)
      ensures !failed ==>
        client.Valid() && odooDeployment.View() == old(odooDeployment.View()) &&
          client.local == ConfigDone(old(client.local))
    {
      hide Continue, CallOf, AnswersFrom, ApiClient.Valid;
      ghost var l := client.local;
      ConfigSteps(l, Nothing);
      var r := client.Do(call);
      ConfigSteps(l, r);
      failed := !r.Written?;
      if failed {
        GiveUp(client, odooDeployment, 15);
      }
    }

    lemma ConfigKnown()
      requires client.Valid() && client.local.pc.ConfigStatus?
      ensures client.quiet && Inv(client.begun) ==>
        Configured(client.world, client.local.key, client.local.mem.spec, client.local.mem.status) &&
        (AsWanted(client.world, client.local.key, client.local.mem.spec) <==>
         !SelfReferring(client.local.key, client.local.mem.spec))
    {
      hide ApiClient.Valid, Inv, AsWanted, SelfReferring;
      if client.quiet && Inv(client.begun) {
        KnowsNow(client);
        if SelfReferring(client.local.key, client.local.mem.spec) {
          SelfReference.NeverAsWanted(client.world, client.local.key, client.local.mem.spec);
        }
      }
    }
  }

  /** What happens once all details are known. */
  lemma DetailsStored(l: Local, l': Local, d: ConnectionDetails, found: Option<Stored>, data: SecretData)
    requires PASSWORD in l.admin && data == ConfigData(l.admin[PASSWORD], l.mem.spec.config, d)
    ensures DetailsDone(l, d, found) == StoreConfig(l, data, found)
    ensures l' == StoreConfig(l, data, found) && l'.pc.ConfigPut? ==>
              CallOf(l') == WriteCall(ConfigId(l.key), SecretBody(data), l'.pc.write)
  {
    hide ConfigData;
  }

  /** The point at which the last field was read does not matter. */
  lemma DetailsForget(l: Local, pc: Pc, d: Result<ConnectionDetails, DbError>, found: Option<Stored>)
    ensures d.Ok? ==> DetailsDone(Goto(l, pc), d.value, found) == DetailsDone(l, d.value, found)
    ensures Failed(Goto(l, pc), 15) == Failed(l, 15)
  {
  }

  // ---- The volume claim ----

  lemma ClaimSteps(l: Local, r: Response)
    ensures l.pc.ClaimGet? ==> CallOf(l) == Get(ClaimId(l.key)) && Continue(l, r) == AfterClaimGet(l, r)
    ensures l.pc.ClaimCreate? ==>
      CallOf(l) == Create(ClaimId(l.key), ClaimBody(l.mem.spec.filestore)) && Continue(l, r) == AfterClaimCreate(l, r)
  {
    hide AfterField, AfterClaimGet, AfterClaimCreate;
  }

  class OdooFilestoreReconciler {
    const client: ApiClient
    const odooDeployment: OdooDeployment

    constructor (client: ApiClient, odooDeployment: OdooDeployment)
      ensures this.client == client && this.odooDeployment == odooDeployment
    {
      this.client, this.odooDeployment := client, odooDeployment;
    }

    /** The claim exists; its immutable specification is never updated. */
    method Reconcile() returns (failed: bool)
      requires client.Valid() && InSync(client, odooDeployment) && client.local.pc.ClaimGet?
      modifies client, odooDeployment
      ensures client.begun == old(client.begun)
      ensures failed ==> GaveUp(client, odooDeployment, 15)
      ensures !failed ==>
        client.Valid() && odooDeployment.View() == old(odooDeployment.View()) &&
          client.local == ClaimDone(old(client.local))
      ensures !failed && client.quiet && Inv(client.begun) ==> PreparedFor(client.world, client.local)
    {
      hide Continue, CallOf, AnswersFrom, ApiClient.Valid, Inv, Knows, PreparedFor;
      var id := ClaimId(odooDeployment.key);
      ghost var l := client.local;
      ClaimSteps(l, Nothing);
      var r := client.Do(Get(id));
      ClaimSteps(l, r);
      if r.NotFound? {
        l := client.local;
        ClaimSteps(l, Nothing);
        r := client.Do(Create(id, ClaimBody(odooDeployment.spec.filestore)));
        ClaimSteps(l, r);
        failed := !r.Written?;
      } else {
        failed := !r.Found?;
      }
      if failed {
        GiveUp(client, odooDeployment, 15);
      } else {
        ClaimKnown();
      }
    }

    lemma ClaimKnown()
      requires client.Valid() && client.local.pc.ClaimStatus?
      ensures client.quiet && Inv(client.begun) ==> PreparedFor(client.world, client.local)
    {
      hide ApiClient.Valid, Inv, Prepared;
      if client.quiet && Inv(client.begun) {
        KnowsNow(client);
      }
    }
  }

  // ---- The init Job ----

  lemma JobSteps(l: Local, r: Response)
    ensures l.pc.JobGet? ==> CallOf(l) == Get(RecordedId(l.mem.status)) && Continue(l, r) == AfterJobGet(l, r)
    ensures l.pc.PodsList? ==> CallOf(l) == ListPods(l.pc.job.name) && Continue(l, r) == AfterPodsList(l, l.pc.job, r)
    ensures l.pc.Cleanup? ==>
      CallOf(l) == Delete(if l.pc.pods == [] then Id(JobKind, l.pc.job) else l.pc.pods[0]) &&
      Continue(l, r) == AfterCleanup(l, l.pc.job, l.pc.pods, r)
    ensures l.pc.JobCreate? && LocalMissing(l) != [] ==>
      CallOf(l) == Create(JobId(l.key), JobBody(JobTemplate(l.mem.spec, l.mem.status, LocalMissing(l)), PENDING)) &&
      Continue(l, r) == AfterJobCreate(l, r)
    ensures l.pc.JobStatusFirst? ==>
      CallOf(l) == StatusCall(l) && Continue(l, r) == AfterJobStatusFirst(l, l.pc.after, r)
    ensures l.pc.JobStatusSecond? ==>
      CallOf(l) == StatusCall(l) && Continue(l, r) == AfterJobStatusSecond(l, l.pc.after, r)
  {
    hide AfterField, AfterJobGet, AfterPodsList, AfterCleanup, AfterJobCreate, AfterJobStatusFirst;
    hide AfterJobStatusSecond;
    hide JobTemplate, LocalMissing;
  }

  function Deletions(ids: seq<Id>): seq<Call> {
    seq(|ids|, i requires 0 <= i < |ids| => Delete(ids[i]))
  }

  lemma NoDeletions()
    ensures Deletions([]) == []
  {
  }

  lemma DeletionsSnoc(ids: seq<Id>, i: nat)
    requires i < |ids|
    ensures Deletions(ids[..i + 1]) == Deletions(ids[..i]) + [Delete(ids[i])]
    ensures ids[i..][1..] == ids[i + 1..] && ids[i..][0] == ids[i]
  {
  }

  /** The requests of a cleanup: the listing, the deletion of the listed pods in order, and the
      deletion of the Job. */
  function CleanupCalls(job: Key, pods: seq<Id>): seq<Call> {
    [ListPods(job.name)] + Deletions(pods) + [Delete(Id(JobKind, job))]
  }

  /** The status that records the Job for the missing modules. */
  function Started(key: Key, spec: OdooSpec, status: OdooStatus): OdooStatus {
    status.(currentInitJob := InitJobRecord(InitJobKey(key).name, key.namespace, Missing(spec, status)))
  }

  class OdooDatabaseInitJobReconciler {
    const client: ApiClient
    const odooDeployment: OdooDeployment

    constructor (client: ApiClient, odooDeployment: OdooDeployment)
      ensures this.client == client && this.odooDeployment == odooDeployment
    {
      this.client, this.odooDeployment := client, odooDeployment;
    }

    /** Records a success and cleans up, or waits, or reports a failure, or starts a Job for the
        missing modules; when it does not ask for another pass, nothing is missing. */
    method Reconcile() returns (after: nat, failed: bool, requeue: bool)
      requires client.Valid() && InSync(client, odooDeployment) && client.local == JobEntry(client.local)
      modifies client, odooDeployment
      ensures client.begun == old(client.begun)
      ensures failed ==> requeue && GaveUp(client, odooDeployment, after)
      ensures !failed ==>
        client.Valid() && InSync(client, odooDeployment) &&
        client.local.pc == if requeue then JobStatusSecond(after) else DeployGet
      ensures
        odooDeployment.status in {
          old(odooDeployment.status),
          Recorded(old(odooDeployment.status)),
          Started(odooDeployment.key, old(odooDeployment.spec), old(odooDeployment.status))
        }
      ensures !requeue ==>
        odooDeployment.View() == old(odooDeployment.View()) && Missing(odooDeployment.spec, odooDeployment.status) == []
      ensures !requeue && client.quiet && Inv(client.begun) ==> InstalledFor(true, client.world, client.local)
      ensures !failed && requeue && after == 0 && client.quiet && Inv(client.begun) ==>
        JobFailed(client.world, odooDeployment.status)
    {
      hide Continue, CallOf, AnswersFrom, ApiClient.Valid, Inv, Knows, Difference, JobTemplate, JobFailed, InstalledFor;
      if odooDeployment.status.currentInitJob.name != "" && odooDeployment.status.currentInitJob.namespace != "" {
        var id := RecordedId(odooDeployment.status);
        var currentInitJob := PENDING;
        ghost var l := client.local;
        JobSteps(l, Nothing);
        var r := client.Do(Get(id));
        JobSteps(l, r);
        match r {
          case NotFound =>
          case Found(JobBody(_, jobStatus), _) => currentInitJob := jobStatus;
          case _ =>
            GiveUp(client, odooDeployment, 15);
            return 15, true, true;
        }
        if currentInitJob.succeeded > 0 {
          after, failed := RecordSuccess(id.key);
          return after, failed, true;
        } else if currentInitJob.active > 0 {
          return 15, false, true;
        } else if currentInitJob.failed > 0 {
          failed := WriteStatus(0);
          if !failed {
            FailureKnown();
          }
          return 0, failed, true;
        }
      }
      var missing := ComputeDifference(odooDeployment.spec.modules, odooDeployment.status.initModulesInstalled);
      if |missing| > 0 {
        after, failed := StartJob();
        return after, failed, true;
      }
      InstalledKnown();
      return 0, false, false;
    }

    /** Writes the status at the end of the step. */
    method WriteStatus(ghost after: nat) returns (failed: bool)
      requires client.Valid() && InSync(client, odooDeployment) && client.local.pc == JobStatusFirst(after)
      modifies client, odooDeployment
      ensures client.begun == old(client.begun)
      ensures odooDeployment.status == old(odooDeployment.status)
      ensures client.sent == old(client.sent) + [StatusCall(old(client.local))]
      ensures failed ==> GaveUp(client, odooDeployment, after)
      ensures !failed ==> client.Valid() && InSync(client, odooDeployment) && client.local.pc == JobStatusSecond(after)
    {
      hide Continue, CallOf, AnswersFrom, ApiClient.Valid;
      ghost var l := client.local;
      JobSteps(l, Nothing);
      var r := client.UpdateStatus(odooDeployment);
      JobSteps(l, r);
      failed := !r.Written?;
    }

    /** The recorded modules count as installed; the pods of the Job are deleted, then the Job,
        and last the status is written. */
    method RecordSuccess(job: Key) returns (after: nat, failed: bool)
      requires client.Valid() && client.local.key == odooDeployment.key && client.local.pc == PodsList(job)
      requires client.local.mem == odooDeployment.View().(status := Recorded(odooDeployment.status))
      modifies client, odooDeployment
      ensures client.begun == old(client.begun) && after == 30
      ensures odooDeployment.status == Recorded(old(odooDeployment.status))
      ensures !failed ==>
        exists pods ::
          client.sent == old(client.sent) + CleanupCalls(job, pods) +
            [UpdateStatus(OdooId(odooDeployment.key), odooDeployment.status, old(odooDeployment.version))]
      ensures failed ==> GaveUp(client, odooDeployment, 30)
      ensures !failed ==> client.Valid() && InSync(client, odooDeployment) && client.local.pc == JobStatusSecond(30)
    {
      hide Continue, CallOf, AnswersFrom, ApiClient.Valid;
      after := 30;
      var modules := odooDeployment.status.initModulesInstalled + odooDeployment.status.currentInitJob.modules;
      odooDeployment.status := odooDeployment.status.(initModulesInstalled := modules, currentInitJob := NO_INIT_JOB);
      ghost var pods;
      failed, pods := DeletePodsAndJob(job);
      if !failed {
        failed := WriteStatus(30);
        assert client.sent == old(client.sent) + CleanupCalls(job, pods) +
            [UpdateStatus(OdooId(odooDeployment.key), odooDeployment.status, old(odooDeployment.version))];
      }
    }

    /** Lists the pods, deletes them one by one, and then the Job; the first failure ends it. */
    method DeletePodsAndJob(job: Key) returns (failed: bool, ghost listed: seq<Id>)
      requires client.Valid() && InSync(client, odooDeployment) && client.local.pc == PodsList(job)
      modifies client, odooDeployment
      ensures client.begun == old(client.begun) && odooDeployment.status == old(odooDeployment.status)
      ensures failed ==> GaveUp(client, odooDeployment, 30)
      ensures !failed ==>
        client.Valid() && odooDeployment.View() == old(odooDeployment.View()) && InSync(client, odooDeployment) &&
        client.local.pc == JobStatusFirst(30) && client.sent == old(client.sent) + CleanupCalls(job, listed)
    {
      hide Continue, CallOf, AnswersFrom, ApiClient.Valid, Deletions;
      ghost var l := client.local;
      JobSteps(l, Nothing);
      var r := client.Do(ListPods(job.name));
      JobSteps(l, r);
      listed := [];
      if !r.Listed? {
        GiveUp(client, odooDeployment, 30);
        failed := true;
        return;
      }
      listed := r.pods;
      failed := DeletePods(job, r.pods);
      if !failed {
        failed := DeleteNext(job, []);
      }
    }

    method DeletePods(job: Key, pods: seq<Id>) returns (failed: bool)
      requires client.Valid() && InSync(client, odooDeployment) && client.local.pc == Cleanup(job, pods)
      modifies client, odooDeployment
      ensures client.begun == old(client.begun) && odooDeployment.status == old(odooDeployment.status)
      ensures failed ==> GaveUp(client, odooDeployment, 30)
      ensures !failed ==>
        client.Valid() && odooDeployment.View() == old(odooDeployment.View()) && InSync(client, odooDeployment) &&
        client.local.pc == Cleanup(job, []) && client.sent == old(client.sent) + Deletions(pods)
    {
      hide Continue, CallOf, AnswersFrom, ApiClient.Valid, Deletions;
      failed := false;
      NoDeletions();
      for i := 0 to |pods|
        invariant client.Valid() && InSync(client, odooDeployment) && client.begun == old(client.begun)
        invariant odooDeployment.View() == old(odooDeployment.View())
        invariant client.local.pc == Cleanup(job, pods[i..])
        invariant client.sent == old(client.sent) + Deletions(pods[..i])
      {
        failed := DeleteNext(job, pods[i..]);
        if failed {
          return;
        }
        DeletionsSnoc(pods, i);
      }
      assert pods[..|pods|] == pods;
    }

    /** Deletes the next pod, or the Job if no pod is left. */
    method DeleteNext(job: Key, pods: seq<Id>) returns (failed: bool)
      requires client.Valid() && InSync(client, odooDeployment) && client.local.pc == Cleanup(job, pods)
      modifies client, odooDeployment
      ensures client.begun == old(client.begun) && odooDeployment.status == old(odooDeployment.status)
      ensures failed ==> GaveUp(client, odooDeployment, 30)
      ensures !failed ==>
        client.Valid() && odooDeployment.View() == old(odooDeployment.View()) && InSync(client, odooDeployment) &&
        client.local.pc == (if pods == [] then JobStatusFirst(30) else Cleanup(job, pods[1..])) &&
        client.sent == old(client.sent) + [Delete(if pods == [] then Id(JobKind, job) else pods[0])]
    {
      hide Continue, CallOf, AnswersFrom, ApiClient.Valid;
      ghost var l := client.local;
      JobSteps(l, Nothing);
      var r := client.Do(Delete(if pods == [] then Id(JobKind, job) else pods[0]));
      JobSteps(l, r);
      failed := !r.Deleted?;
      if failed {
        GiveUp(client, odooDeployment, 30);
      }
    }

    /** Creates the Job for the missing modules, then records it. The Job runs exactly these. */
    method StartJob() returns (after: nat, failed: bool)
      requires client.Valid() && InSync(client, odooDeployment) && client.local.pc.JobCreate?
      requires Missing(odooDeployment.spec, odooDeployment.status) != []
      modifies client, odooDeployment
      ensures client.begun == old(client.begun)
      ensures failed ==> GaveUp(client, odooDeployment, after)
      ensures odooDeployment.status ==
        if !failed || after == 30 then Started(odooDeployment.key, old(odooDeployment.spec), old(odooDeployment.status))
        else old(odooDeployment.status)
      ensures !failed ==>
        after == 30 && client.Valid() && InSync(client, odooDeployment) && client.local.pc == JobStatusSecond(after)
      ensures !failed ==>
        exists job ::
          Ran(job) == Pieces(Missing(old(odooDeployment.spec), old(odooDeployment.status))) &&
          Footprint.TellsToInstall(job, old(odooDeployment.spec), odooDeployment.status.currentInitJob.modules) &&
          client.sent == old(client.sent) +
            [Create(JobId(odooDeployment.key), JobBody(job, PENDING)),
             UpdateStatus(OdooId(odooDeployment.key), odooDeployment.status, old(odooDeployment.version))]
    {
      hide Continue, CallOf, AnswersFrom, ApiClient.Valid, JobTemplate, Difference;
      var initJob, modulesToInstall := odooDeployment.GetDbInitJobTemplate();
      ghost var l := client.local;
      JobSteps(l, Nothing);
      var r := client.Do(Create(JobId(odooDeployment.key), JobBody(initJob.value, PENDING)));
      JobSteps(l, r);
      if !r.Written? {
        GiveUp(client, odooDeployment, 0);
        return 0, true;
      }
      var record := InitJobRecord(InitJobKey(odooDeployment.key).name, odooDeployment.key.namespace, modulesToInstall);
      odooDeployment.status := odooDeployment.status.(currentInitJob := record);
      failed := WriteStatus(30);
      after := 30;
      if !failed {
        assert Footprint.TellsToInstall(initJob.value, old(odooDeployment.spec), modulesToInstall);
        assert client.sent == old(client.sent) +
            [Create(JobId(odooDeployment.key), JobBody(initJob.value, PENDING)),
             UpdateStatus(OdooId(odooDeployment.key), odooDeployment.status, old(odooDeployment.version))];
      }
    }

    lemma FailureKnown()
      requires client.Valid() && client.local.pc == JobStatusSecond(0)
      ensures client.quiet && Inv(client.begun) ==> JobFailed(client.world, client.local.mem.status)
    {
      hide ApiClient.Valid, Inv, JobFailed;
      if client.quiet && Inv(client.begun) {
        KnowsNow(client);
      }
    }

    lemma InstalledKnown()
      requires client.Valid() && client.local.pc.DeployGet?
      ensures client.quiet && Inv(client.begun) ==> InstalledFor(true, client.world, client.local)
    {
      hide ApiClient.Valid, Inv, InstalledFor;
      if client.quiet && Inv(client.begun) {
        KnowsNow(client);
      }
    }
  }

  // ---- The Deployment and the services ----

  lemma DeploySteps(l: Local, r: Response)
    ensures l.pc.DeployGet? ==> CallOf(l) == Get(DeployId(l.key)) && Continue(l, r) == AfterDeployGet(l, r)
    ensures l.pc.DeployPut? ==>
      var body := DeploymentBody(DeploymentTemplate(l.key, l.mem.spec, l.mem.status));
      CallOf(l) == WriteCall(DeployId(l.key), body, l.pc.write) &&
      Continue(l, r) == AfterDeployPut(l, r)
    ensures l.pc.ServiceGet? ==>
      CallOf(l) == Get(ServiceId(l.key, l.pc.service)) && Continue(l, r) == AfterServiceGet(l, l.pc.service, r)
    ensures l.pc.ServicePut? ==>
      var s := l.pc.service;
      var body := ServiceBody(ServiceTemplate(l.key, s).(alloc := l.pc.alloc));
      CallOf(l) == WriteCall(ServiceId(l.key, s), body, l.pc.write) &&
      Continue(l, r) == AfterServicePut(l, s, r)
  {
    hide AfterField, AfterDeployGet, AfterDeployPut, AfterServiceGet, AfterServicePut, DeploymentTemplate;
    hide ServiceTemplate;
  }

  class DeploymentReconciler {
    const client: ApiClient
    const odooDeployment: OdooDeployment

    constructor (client: ApiClient, odooDeployment: OdooDeployment)
      ensures this.client == client && this.odooDeployment == odooDeployment
    {
      this.client, this.odooDeployment := client, odooDeployment;
    }

    /** The Deployment exists and matches its template. */
    method Reconcile() returns (failed: bool)
      requires client.Valid() && InSync(client, odooDeployment) && client.local.pc.DeployGet?
      modifies client, odooDeployment
      ensures client.begun == old(client.begun)
      ensures failed ==> GaveUp(client, odooDeployment, 15)
      ensures !failed ==>
        client.Valid() && odooDeployment.View() == old(odooDeployment.View()) &&
          client.local == Goto(old(client.local), DeployStatus)
      ensures !failed && client.quiet && Inv(client.begun) ==> DeployedFor(true, client.world, client.local)
    {
      hide Continue, CallOf, AnswersFrom, ApiClient.Valid, Inv, DeploymentTemplate, DeployedFor;
      var id := DeployId(odooDeployment.key);
      var createDeployment, current, version := false, None, 0;
      ghost var l := client.local;
      DeploySteps(l, Nothing);
      var r := client.Do(Get(id));
      DeploySteps(l, r);
      match r {
        case NotFound => createDeployment := true;
        case Found(DeploymentBody(deployment), found) => current, version := Some(deployment), found;
        case _ =>
          GiveUp(client, odooDeployment, 15);
          return true;
      }
      var template := DeploymentTemplate(odooDeployment.key, odooDeployment.spec, odooDeployment.status);
      l := client.local;
      DeploySteps(l, Nothing);
      failed := false;
      if createDeployment {
        r := client.Do(Create(id, DeploymentBody(template)));
        DeploySteps(l, r);
        failed := !r.Written?;
      } else if current != Some(template) {
        r := client.Do(Update(id, DeploymentBody(template), version));
        DeploySteps(l, r);
        failed := !r.Written?;
      }
      if failed {
        GiveUp(client, odooDeployment, 15);
      } else {
        DeployKnown();
      }
    }

    lemma DeployKnown()
      requires client.Valid() && client.local.pc.DeployStatus?
      ensures client.quiet && Inv(client.begun) ==> DeployedFor(true, client.world, client.local)
    {
      hide ApiClient.Valid, Inv, DeployedFor;
      if client.quiet && Inv(client.begun) {
        KnowsNow(client);
      }
    }
  }

  /** A service that is written is stored as it was sent; a new one gets its allocated fields. */
  lemma ServiceAnswer(w: World, call: Call, service: ServiceSpec, a: Label, w': World, r: Response)
    requires AnswersFrom(w, call, a, w', r) && r.Written?
    requires (call.Create? || call.Update?) && call.body == ServiceBody(service)
    ensures var now := Footprint.ServiceAt(w', call.id);
            now.Some? && (call.Create? ==> !Exists(w, call.id)) &&
            now.value == if call.Create? then service.(alloc := now.value.alloc) else service
  {
  }

  /** The template serves the port of its name. */
  lemma TemplateServes(key: Key, s: Service)
    ensures forall service: ServiceSpec :: service == ServiceTemplate(key, s).(alloc := service.alloc) ==>
              Footprint.ServesPort(service, ServiceId(key, s).key.name, key)
  {
  }

  /** The reconciler of the HTTP service and the one of the poll service. */
  class OdooServiceReconciler {
    const client: ApiClient
    const odooDeployment: OdooDeployment
    const service: Service

    constructor (client: ApiClient, odooDeployment: OdooDeployment, service: Service)
      ensures this.client == client && this.odooDeployment == odooDeployment && this.service == service
    {
      this.client, this.odooDeployment, this.service := client, odooDeployment, service;
    }

    /** The service exists and matches its template, the allocated fields aside; these are kept. */
    method Reconcile() returns (failed: bool)
      requires client.Valid() && InSync(client, odooDeployment) && client.local.pc == ServiceGet(service)
      modifies client, odooDeployment
      ensures client.begun == old(client.begun)
      ensures failed ==> GaveUp(client, odooDeployment, 15)
      ensures !failed ==>
        client.Valid() && odooDeployment.View() == old(odooDeployment.View()) &&
          client.local == ServiceDone(old(client.local), service)
      ensures !failed && client.quiet && Inv(client.begun) ==> ServiceReady(client.world, odooDeployment.key, Http)
      ensures !failed && service.Poll? && client.quiet && Inv(client.begun) ==>
        ServiceReady(client.world, odooDeployment.key, Poll)
      ensures !failed && client.quiet ==>
        var id := ServiceId(odooDeployment.key, service);
        var was, now := Footprint.ServiceAt(old(client.world), id), Footprint.ServiceAt(client.world, id);
        now.Some? && Footprint.ServesPort(now.value, id.key.name, odooDeployment.key) &&
        (was.Some? ==> now.value.alloc == was.value.alloc)
    {
      hide Continue, CallOf, AnswersFrom, ApiClient.Valid, Inv, ServiceTemplate, ServiceReady, Footprint.ServesPort;
      var id := ServiceId(odooDeployment.key, service);
      var createService, version, alloc := false, 0, UNALLOCATED;
      var current := None;
      ghost var l := client.local;
      DeploySteps(l, Nothing);
      var r := client.Do(Get(id));
      DeploySteps(l, r);
      if client.quiet {
        GetAnswer(old(client.world), id, client.labels[|client.labels| - 1], client.world, r);
      }
      match r {
        case NotFound => createService := true;
        case Found(ServiceBody(found), foundVersion) =>
          current, version, alloc := Some(found), foundVersion, found.alloc;
        case _ =>
          GiveUp(client, odooDeployment, 15);
          return true;
      }
      var template := ServiceTemplate(odooDeployment.key, service).(alloc := alloc);
      l := client.local;
      DeploySteps(l, Nothing);
      failed := false;
      if createService {
        failed := Write(Create(id, ServiceBody(template)), template);
      } else if current != Some(template) {
        failed := Write(Update(id, ServiceBody(template), version), template);
      }
      if !failed {
        TemplateServes(odooDeployment.key, service);
        ServicesKnown();
      }
    }

    /** Writes the service. */
    method Write(call: Call, ghost sent: ServiceSpec) returns (failed: bool)
      requires client.Valid() && InSync(client, odooDeployment) && client.local.pc.ServicePut?
      requires client.local.pc.service == service && call == CallOf(client.local)
      requires (call.Create? || call.Update?) && call.body == ServiceBody(sent)
      modifies client, odooDeployment
      ensures client.begun == old(client.begun)
      ensures failed ==> GaveUp(client, odooDeployment, 15)
      ensures !failed ==>
        client.Valid() && odooDeployment.View() == old(odooDeployment.View()) &&
          client.local == ServiceDone(old(client.local), service)
      ensures !failed && client.quiet ==>
        var now := Footprint.ServiceAt(client.world, call.id);
        now.Some? && (call.Create? ==> !Exists(old(client.world), call.id)) &&
        now.value == if call.Create? then sent.(alloc := now.value.alloc) else sent
    {
      hide Continue, CallOf, AnswersFrom, ApiClient.Valid, ServiceTemplate, Footprint.ServiceAt;
      ghost var l := client.local;
      var r := client.Do(call);
      DeploySteps(l, r);
      failed := !r.Written?;
      if failed {
        GiveUp(client, odooDeployment, 15);
      } else if client.quiet {
        ServiceAnswer(old(client.world), call, sent, client.labels[|client.labels| - 1], client.world, r);
      }
    }

    lemma ServicesKnown()
      requires client.Valid() && (client.local.pc == ServiceGet(Poll) || client.local.pc.FinalStatus?)
      ensures client.quiet && Inv(client.begun) ==> ServiceReady(client.world, client.local.key, Http)
      ensures client.quiet && Inv(client.begun) && client.local.pc.FinalStatus? ==>
        ServiceReady(client.world, client.local.key, Poll)
    {
      hide ApiClient.Valid, Inv, ServiceReady, Installed, Prepared, DeploymentReady;
      if client.quiet && Inv(client.begun) {
        KnowsNow(client);
      }
    }
  }

  // ---- The whole pass ----

  lemma StatusSteps(l: Local, r: Response)
    ensures l.pc.AdminStatus? ==> CallOf(l) == StatusCall(l) && Continue(l, r) == Goto(Refreshed(l, r), ConfigGet)
    ensures l.pc.ConfigStatus? ==> CallOf(l) == StatusCall(l) && Continue(l, r) == Goto(Refreshed(l, r), ClaimGet)
    ensures l.pc.ClaimStatus? ==> CallOf(l) == StatusCall(l) && Continue(l, r) == JobEntry(Refreshed(l, r))
    ensures l.pc.DeployStatus? ==>
      CallOf(l) == StatusCall(l) && Continue(l, r) == Goto(Refreshed(l, r), ServiceGet(Http))
    ensures l.pc.FinalStatus? ==>
      CallOf(l) == StatusCall(l) && Continue(l, r) == Goto(Refreshed(l, r), Idle(!r.Written?, 0))
    ensures l.pc.JobStatusSecond? ==> CallOf(l) == StatusCall(l) && Continue(l, r).pc == Idle(!r.Written?, l.pc.after)
  {
    hide AfterField, Refreshed, JobEntry;
  }

  class OdooDeploymentReconciler {
    const client: ApiClient

    constructor (client: ApiClient)
      ensures this.client == client
    {
      this.client := client;
    }

    /** One pass over the resource. Each execution is a run of the machine, and ends. If nobody
        else acts meanwhile, it ends without asking for another pass only in a steady store, and
        from a steady store it changes no child. If no request fails either, it moves the
        installation as the convergence model says, and from a steady store it finishes. */
    method Reconcile(key: Key) returns (after: nat, failed: bool)
      requires WellTyped(client.world) && client.local.pc.Idle? && client.local.key == key
      modifies client
      ensures client.Valid() && client.begun == Apply(old(client.Now()), Start)
      ensures client.local.pc == Idle(failed, after)
      ensures client.quiet && Inv(client.begun) && !failed && after == 0 ==>
        !Exists(client.world, OdooId(key)) || Steady(client.world, key)
      ensures client.quiet && Inv(client.begun) && Fixed(old(client.world), key) ==>
        OnlyAdminName(old(client.world), client.world, key)
      ensures
        client.quiet && client.reliable && Inv(client.begun) && HasResource(old(client.world), key) &&
        key.namespace != "" ==>
        HasResource(client.world, key) &&
        var t := TrackOf(old(client.world), key);
        TrackOf(client.world, key) == Pass(t) ||
        (failed && CannotConfigure(client.world, key) && TrackOf(client.world, key) == t)
      ensures
        key.namespace != "" && client.quiet && client.reliable && Inv(client.begun) && Fixed(old(client.world), key) ==>
        !failed && after == 0
    {
      hide *;
      after, failed := Run(key);
      PassFacts(client, key, old(client.world));
    }

    /** The requests of the pass, in order. */
    method Run(key: Key) returns (after: nat, failed: bool)
      requires WellTyped(client.world) && client.local.pc.Idle? && client.local.key == key
      modifies client
      ensures client.Valid() && client.begun == Apply(old(client.Now()), Start)
      ensures client.local.pc == Idle(failed, after) && client.begun.w == old(client.world) && client.begun.l.key == key
    {
      hide Continue, CallOf, AnswersFrom, ApiClient.Valid, Apply;
      client.Begin();
      BeginFacts(client, key, old(client.Now()));
      FetchStep(client.local, Nothing);
      ghost var l := client.local;
      var r := client.Do(Get(OdooId(key)));
      FetchStep(l, r);
      match r {
        case NotFound => return 0, false;
        case Found(OdooBody(spec, status), version) =>
          var odooDeployment := new OdooDeployment(key, spec, status, version);
          odooDeployment.DeduplicateModules();
          after, failed := ReconcileSecrets(odooDeployment);
        case _ => return 15, true;
      }
    }

    /** Admin password and configuration, then the rest. */
    method ReconcileSecrets(o: OdooDeployment) returns (after: nat, failed: bool)
      requires client.Valid() && InSync(client, o) && client.local.pc.AdminGet?
      modifies client, o
      ensures client.Valid() && client.begun == old(client.begun) && client.local.pc == Idle(failed, after)
    {
      hide Continue, CallOf, AnswersFrom, ApiClient.Valid, Inv, AdminStored, Configured;
      var adminReconciler := new OdooAdminPasswordSecretReconciler(client, o);
      var adminSecret;
      adminSecret, failed := adminReconciler.Reconcile();
      if failed {
        Abandon(o, 15);
        return 15, true;
      }
      o.status := o.status.(adminSecretName := AdminKey(o.key, o.spec).name);
      ghost var l := client.local;
      StatusSteps(l, Nothing);
      var r := client.UpdateStatus(o);
      StatusSteps(l, r);
      var configReconciler := new OdooConfigSecretReconciler(client, o, adminSecret);
      failed := configReconciler.Reconcile();
      if failed {
        Abandon(o, 15);
        return 15, true;
      }
      o.status := o.status.(configSecretName := ConfigKey(o.key).name);
      l := client.local;
      StatusSteps(l, Nothing);
      r := client.UpdateStatus(o);
      StatusSteps(l, r);
      after, failed := ReconcileClaimAndJob(o);
    }

    /** Volume claim and init Job, then the rest if nothing is missing. */
    method ReconcileClaimAndJob(o: OdooDeployment) returns (after: nat, failed: bool)
      requires client.Valid() && InSync(client, o) && client.local.pc.ClaimGet?
      modifies client, o
      ensures client.Valid() && client.begun == old(client.begun) && client.local.pc == Idle(failed, after)
    {
      hide Continue, CallOf, AnswersFrom, ApiClient.Valid, Inv, PreparedFor, InstalledFor, JobFailed, JobEntry;
      var filestoreReconciler := new OdooFilestoreReconciler(client, o);
      failed := filestoreReconciler.Reconcile();
      if failed {
        Abandon(o, 15);
        return 15, true;
      }
      o.status := o.status.(dataPvcName := o.key.name);
      ghost var l := client.local;
      StatusSteps(l, Nothing);
      var r := client.UpdateStatus(o);
      StatusSteps(l, r);
      EntryTwice(Refreshed(l, r));
      var jobReconciler := new OdooDatabaseInitJobReconciler(client, o);
      var requeue;
      after, failed, requeue := jobReconciler.Reconcile();
      if failed {
        Abandon(o, after);
      } else if requeue {
        l := client.local;
        StatusSteps(l, Nothing);
        r := client.UpdateStatus(o);
        StatusSteps(l, r);
        failed := !r.Written?;
      } else {
        after, failed := ReconcileWorkload(o);
      }
    }

    /** The Deployment, then the services. */
    method ReconcileWorkload(o: OdooDeployment) returns (after: nat, failed: bool)
      requires client.Valid() && InSync(client, o) && client.local.pc.DeployGet?
      modifies client, o
      ensures client.Valid() && client.begun == old(client.begun) && client.local.pc == Idle(failed, after)
    {
      hide Continue, CallOf, AnswersFrom, ApiClient.Valid, Inv, DeployedFor, ServiceReady;
      var deploymentReconciler := new DeploymentReconciler(client, o);
      failed := deploymentReconciler.Reconcile();
      if failed {
        Abandon(o, 15);
        return 15, true;
      }
      ghost var l := client.local;
      StatusSteps(l, Nothing);
      var r := client.UpdateStatus(o);
      StatusSteps(l, r);
      after, failed := ReconcileServices(o);
    }

    /** The two services, and the last status write. */
    method ReconcileServices(o: OdooDeployment) returns (after: nat, failed: bool)
      requires client.Valid() && InSync(client, o) && client.local.pc == ServiceGet(Http)
      modifies client, o
      ensures client.Valid() && client.begun == old(client.begun) && client.local.pc == Idle(failed, after)
    {
      hide Continue, CallOf, AnswersFrom, ApiClient.Valid, Inv, ServiceReady;
      var httpServiceReconciler := new OdooServiceReconciler(client, o, Http);
      failed := httpServiceReconciler.Reconcile();
      if failed {
        Abandon(o, 15);
        return 15, true;
      }
      var pollServiceReconciler := new OdooServiceReconciler(client, o, Poll);
      failed := pollServiceReconciler.Reconcile();
      if failed {
        Abandon(o, 15);
        return 15, true;
      }
      ghost var l := client.local;
      StatusSteps(l, Nothing);
      var r := client.UpdateStatus(o);
      StatusSteps(l, r);
      return 0, !r.Written?;
    }

    /** The status write with which the caller of a failed step ends the pass. */
    method Abandon(o: OdooDeployment, ghost after: nat)
      requires GaveUp(client, o, after)
      modifies client, o
      ensures client.Valid() && client.begun == old(client.begun) && client.local.pc == Idle(true, after)
    {
      hide Continue, CallOf, AnswersFrom, ApiClient.Valid;
      FailStep(client.local, Nothing);
      ghost var l := client.local;
      var r := client.UpdateStatus(o);
      FailStep(l, r);
    }
  }

  lemma EntryTwice(l: Local)
    ensures JobEntry(JobEntry(l)) == JobEntry(l) && JobEntry(l).mem == l.mem && JobEntry(l).key == l.key
  {
    hide Difference;
  }

  lemma FetchStep(l: Local, r: Response)
    requires l.pc.Fetch?
    ensures CallOf(l) == Get(OdooId(l.key)) && Continue(l, r) == AfterFetch(l, r)
  {
    hide AfterField, AfterFetch;
  }

  lemma BeginFacts(client: ApiClient, key: Key, before: System)
    requires client.begun == Apply(before, Start) && before.l.pc.Idle? && before.l.key == key
    ensures client.begun.w == before.w && client.begun.l.key == key
  {
    hide OwnStep;
  }

  /** What the machine's theorems say about a pass that is over. */
  lemma PassFacts(client: ApiClient, key: Key, before: World)
    requires client.Valid() && client.begun.w == before && client.begun.l.key == key && client.local.pc.Idle?
    ensures var failed, after := client.local.pc.failed, client.local.pc.after;
      client.quiet && Inv(client.begun) ==>
        (!failed && after == 0 ==> !Exists(client.world, OdooId(key)) || Steady(client.world, key)) &&
        (Fixed(before, key) ==> OnlyAdminName(before, client.world, key)) &&
        (client.reliable && HasResource(before, key) && key.namespace != "" ==>
          HasResource(client.world, key) &&
          var t := TrackOf(before, key);
          TrackOf(client.world, key) == Pass(t) ||
          (failed && CannotConfigure(client.world, key) && TrackOf(client.world, key) == t)) &&
        (client.reliable && Fixed(before, key) && key.namespace != "" ==> !failed && after == 0)
  {
    hide Inv, Steady, Fixed, Pass, TrackOf, CannotConfigure, CannotCreate, HonestRun;
    if client.quiet && Inv(client.begun) {
      NoLostWakeUp(client.begun, client.labels);
      if Fixed(before, key) {
        FetchKnown(client.begun);
        FetchIsStill(before, client.begun.l);
        RunStill(client.begun, client.labels);
      }
      if client.reliable && HasResource(before, key) && key.namespace != "" {
        PassSimulates(client.begun, client.labels);
      }
      if client.reliable && Fixed(before, key) && key.namespace != "" {
        SteadyPassFinishes(client.begun, client.labels);
      }
    }
  }
}
