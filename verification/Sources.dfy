// Where each value the operator stores comes from: the connection details field by field, the
// first field that cannot be read, and the configuration file key by key.
module Sources {
  import opened Types
  import opened Templates
  import opened Watch
  import opened ConfigText
  import opened Numbers
  import opened Text

  // ---- Connection details ----

  /** What a reference to a key of a secret yields. */
  function Said(s: Secrets, namespace: string, ref: SecretRef): Result<string, DbError> {
    match s(Key(namespace, ref.name))
    case None => Err(SecretNotFound)
    case Some(data) => if ref.key in data then Ok(data[ref.key]) else Err(KeyNotFound)
  }

  /** A value is taken from the secret if the reference names both secret and key, and from the
      specification otherwise. */
  predicate TextFrom(s: Secrets, namespace: string, ref: SecretRef, own: string, v: string) {
    if ref.name != "" && ref.key != "" then Said(s, namespace, ref) == Ok(v) else v == own
  }

  predicate NumberFrom(s: Secrets, namespace: string, ref: SecretRef, own: int32, v: int32) {
    if ref.name != "" && ref.key != "" then
      Said(s, namespace, ref).Ok? && Denotes(Said(s, namespace, ref).value, v)
    else v == own
  }

  predicate SwitchFrom(s: Secrets, namespace: string, ref: SecretRef, own: bool, v: bool) {
    if ref.name != "" && ref.key != "" then
      Said(s, namespace, ref).Ok? &&
      Said(s, namespace, ref).value in
        (if v then ["1", "t", "T", "true", "TRUE", "True"] else ["0", "f", "F", "false", "FALSE", "False"])
    else v == own
  }

  /** A password has to come from a secret. */
  predicate PasswordFrom(s: Secrets, namespace: string, ref: SecretRef, v: string) {
    ref.name != "" && ref.key != "" && Said(s, namespace, ref) == Ok(v)
  }

  function TextProblem(s: Secrets, namespace: string, ref: SecretRef): Option<DbError> {
    if ref.name != "" && ref.key != "" then
      match Said(s, namespace, ref)
      case Err(e) => Some(e)
      case Ok(_) => None
    else None
  }

  ghost function NumberProblem(s: Secrets, namespace: string, ref: SecretRef): Option<DbError> {
    if ref.name != "" && ref.key != "" then
      match Said(s, namespace, ref)
      case Err(e) => Some(e)
      case Ok(text) => if exists v: int32 :: Denotes(text, v) then None else Some(BadInteger)
    else None
  }

  function SwitchProblem(s: Secrets, namespace: string, ref: SecretRef): Option<DbError> {
    if ref.name != "" && ref.key != "" then
      match Said(s, namespace, ref)
      case Err(e) => Some(e)
      case Ok(text) =>
        if text in ["1", "t", "T", "true", "TRUE", "True", "0", "f", "F", "false", "FALSE", "False"] then None
        else Some(BadBoolean)
    else None
  }

  function PasswordProblem(s: Secrets, namespace: string, ref: SecretRef): Option<DbError> {
    if ref.name != "" && ref.key != "" then TextProblem(s, namespace, ref) else Some(InfoMissing)
  }

  /** What is wrong with each field, in the order in which they are read. */
  ghost function Problems(db: DatabaseConfig, namespace: string, s: Secrets): (problems: seq<Option<DbError>>)
    ensures |problems| == 7
  {
    [TextProblem(s, namespace, db.hostRef), NumberProblem(s, namespace, db.portRef),
     TextProblem(s, namespace, db.userRef), PasswordProblem(s, namespace, db.passwordRef),
     TextProblem(s, namespace, db.nameRef), SwitchProblem(s, namespace, db.sslRef),
     NumberProblem(s, namespace, db.maxConnRef)]
  }

  /** The details hold what each field says. */
  predicate AllFrom(db: DatabaseConfig, namespace: string, s: Secrets, d: ConnectionDetails) {
    TextFrom(s, namespace, db.hostRef, db.host, d.host) &&
    NumberFrom(s, namespace, db.portRef, db.port, d.port) &&
    TextFrom(s, namespace, db.userRef, db.user, d.user) &&
    PasswordFrom(s, namespace, db.passwordRef, d.password) &&
    TextFrom(s, namespace, db.nameRef, db.name, d.name) &&
    SwitchFrom(s, namespace, db.sslRef, db.ssl, d.ssl) &&
    NumberFrom(s, namespace, db.maxConnRef, db.maxConn, d.maxConn)
  }

  /** The i-th field of the details as a value of its own. */
  datatype Value = TextValue(text: string) | NumberValue(number: int32) | SwitchValue(switch: bool)

  function ValueOf(d: ConnectionDetails, i: nat): Value
    requires i < 7
  {
    match i
    case 0 => TextValue(d.host)
    case 1 => NumberValue(d.port)
    case 2 => TextValue(d.user)
    case 3 => TextValue(d.password)
    case 4 => TextValue(d.name)
    case 5 => SwitchValue(d.ssl)
    case _ => NumberValue(d.maxConn)
  }

  /** The i-th field says this value. */
  predicate FieldFrom(db: DatabaseConfig, namespace: string, s: Secrets, i: nat, v: Value)
    requires i < 7
  {
    match i
    case 0 => v.TextValue? && TextFrom(s, namespace, db.hostRef, db.host, v.text)
    case 1 => v.NumberValue? && NumberFrom(s, namespace, db.portRef, db.port, v.number)
    case 2 => v.TextValue? && TextFrom(s, namespace, db.userRef, db.user, v.text)
    case 3 => v.TextValue? && PasswordFrom(s, namespace, db.passwordRef, v.text)
    case 4 => v.TextValue? && TextFrom(s, namespace, db.nameRef, db.name, v.text)
    case 5 => v.SwitchValue? && SwitchFrom(s, namespace, db.sslRef, db.ssl, v.switch)
    case _ => v.NumberValue? && NumberFrom(s, namespace, db.maxConnRef, db.maxConn, v.number)
  }

  predicate Valued(db: DatabaseConfig, namespace: string, s: Secrets, d: ConnectionDetails) {
    forall j :: 0 <= j < 7 ==> FieldFrom(db, namespace, s, j, ValueOf(d, j))
  }

  lemma NumberTexts(text: string)
    ensures forall v: int32 :: Int32Of(text) == Some(v) <==> Denotes(text, v)
    ensures Int32Of(text) == None <==> !exists v: int32 :: Denotes(text, v)
  {
    Int32Exactly(text);
  }

  lemma SwitchTexts(text: string)
    ensures ParseBool(text) == Some(true) <==> text in ["1", "t", "T", "true", "TRUE", "True"]
    ensures ParseBool(text) == Some(false) <==> text in ["0", "f", "F", "false", "FALSE", "False"]
    ensures ParseBool(text) == None <==>
            text !in ["1", "t", "T", "true", "TRUE", "True", "0", "f", "F", "false", "FALSE", "False"]
  {
  }

  /** The step for the i-th field stores its value and leaves the others as they are. */
  predicate Stores(db: DatabaseConfig, namespace: string, s: Secrets, i: nat, d: ConnectionDetails)
    requires i < 7
  {
    var field := Field(d, db, i, s(Key(namespace, DbRef(db, i).name)));
    field.Ok? && FieldFrom(db, namespace, s, i, ValueOf(field.value, i)) &&
    forall j :: 0 <= j < 7 && j != i ==> ValueOf(field.value, j) == ValueOf(d, j)
  }

  lemma TextStep(db: DatabaseConfig, namespace: string, s: Secrets, i: nat, d: ConnectionDetails)
    requires i in {0, 2, 3, 4}
    ensures match Problems(db, namespace, s)[i]
            case Some(e) => Field(d, db, i, s(Key(namespace, DbRef(db, i).name))) == Err(e)
            case None => Stores(db, namespace, s, i, d)
  {
    hide Int32Of, ParseBool, Denotes, NumberProblem, SwitchProblem, NumberFrom, SwitchFrom;
  }

  lemma SwitchStep(db: DatabaseConfig, namespace: string, s: Secrets, d: ConnectionDetails)
    ensures match Problems(db, namespace, s)[5]
            case Some(e) => Field(d, db, 5, s(Key(namespace, DbRef(db, 5).name))) == Err(e)
            case None => Stores(db, namespace, s, 5, d)
  {
    hide Int32Of, ParseBool, Denotes, TextProblem, NumberProblem, PasswordProblem, TextFrom, NumberFrom, PasswordFrom;
    if Said(s, namespace, db.sslRef).Ok? {
      SwitchTexts(Said(s, namespace, db.sslRef).value);
    }
  }

  lemma NumberStep(db: DatabaseConfig, namespace: string, s: Secrets, i: nat, d: ConnectionDetails)
    requires i in {1, 6}
    ensures match Problems(db, namespace, s)[i]
            case Some(e) => Field(d, db, i, s(Key(namespace, DbRef(db, i).name))) == Err(e)
            case None => Stores(db, namespace, s, i, d)
  {
    hide Int32Of, ParseBool, Denotes, TextProblem, SwitchProblem, PasswordProblem, TextFrom, SwitchFrom, PasswordFrom;
    var ref := if i == 1 then db.portRef else db.maxConnRef;
    if Said(s, namespace, ref).Ok? {
      NumberTexts(Said(s, namespace, ref).value);
    }
  }

  lemma FieldStep(db: DatabaseConfig, namespace: string, s: Secrets, i: nat, d: ConnectionDetails)
    requires i < 7
    ensures match Problems(db, namespace, s)[i]
            case Some(e) => Field(d, db, i, s(Key(namespace, DbRef(db, i).name))) == Err(e)
            case None => Stores(db, namespace, s, i, d)
  {
    hide *;
    if i == 5 {
      SwitchStep(db, namespace, s, d);
    } else if i == 1 || i == 6 {
      NumberStep(db, namespace, s, i, d);
    } else {
      TextStep(db, namespace, s, i, d);
    }
  }

  /** A field with a problem has no value, and any other has one. */
  lemma NoValue(db: DatabaseConfig, namespace: string, s: Secrets, i: nat, v: Value)
    requires i < 7 && Problems(db, namespace, s)[i].Some?
    ensures !FieldFrom(db, namespace, s, i, v)
  {
    hide Denotes;
  }

  lemma {:induction false} DenotesOnce(text: string, v: int, w: int)
    requires Denotes(text, v) && Denotes(text, w)
    ensures v == w
  {
  }

  lemma OneValue(db: DatabaseConfig, namespace: string, s: Secrets, i: nat, v: Value, w: Value)
    requires i < 7 && FieldFrom(db, namespace, s, i, v) && FieldFrom(db, namespace, s, i, w)
    ensures v == w
  {
    hide Denotes;
    if v.NumberValue? && i in {1, 6} {
      var ref := if i == 1 then db.portRef else db.maxConnRef;
      if ref.name != "" && ref.key != "" {
        DenotesOnce(Said(s, namespace, ref).value, v.number, w.number);
      }
    }
  }

  lemma Unrolled(db: DatabaseConfig, namespace: string, s: Secrets, i: nat, d: ConnectionDetails)
    requires i < 7
    ensures var field := Field(d, db, i, s(Key(namespace, DbRef(db, i).name)));
            DetailsFrom(db, namespace, s, i, d) ==
            match field case Err(e) => Err((i, e)) case Ok(d') => DetailsFrom(db, namespace, s, i + 1, d')
  {
    hide Field, DbRef;
  }

  /** The fields from the i-th on: each stored, or the first problem reported. */
  lemma {:induction false} FieldsFrom(db: DatabaseConfig, namespace: string, s: Secrets, i: nat, d: ConnectionDetails)
    requires i <= 7
    requires forall j :: 0 <= j < i ==> FieldFrom(db, namespace, s, j, ValueOf(d, j))
    ensures var problems := Problems(db, namespace, s);
            match DetailsFrom(db, namespace, s, i, d)
            case Ok(e) => Valued(db, namespace, s, e)
            case Err((k, e)) =>
              i <= k < 7 && problems[k] == Some(e) && forall j :: i <= j < k ==> problems[j] == None
    decreases 7 - i
  {
    hide Field, DbRef, FieldFrom, ValueOf, TextProblem, NumberProblem, SwitchProblem, PasswordProblem;
    if i < 7 {
      FieldStep(db, namespace, s, i, d);
      var field := Field(d, db, i, s(Key(namespace, DbRef(db, i).name)));
      Unrolled(db, namespace, s, i, d);
      if field.Ok? {
        FieldsFrom(db, namespace, s, i + 1, field.value);
      }
    } else {
      assert DetailsFrom(db, namespace, s, i, d) == Ok(d);
    }
  }

  lemma AllValues(db: DatabaseConfig, namespace: string, s: Secrets, d: ConnectionDetails)
    ensures AllFrom(db, namespace, s, d) <==> Valued(db, namespace, s, d)
  {
    hide TextFrom, NumberFrom, SwitchFrom, PasswordFrom;
    if Valued(db, namespace, s, d) {
      assert FieldFrom(db, namespace, s, 0, ValueOf(d, 0)) && FieldFrom(db, namespace, s, 1, ValueOf(d, 1));
      assert FieldFrom(db, namespace, s, 2, ValueOf(d, 2)) && FieldFrom(db, namespace, s, 3, ValueOf(d, 3));
      assert FieldFrom(db, namespace, s, 4, ValueOf(d, 4)) && FieldFrom(db, namespace, s, 5, ValueOf(d, 5));
      assert FieldFrom(db, namespace, s, 6, ValueOf(d, 6));
    }
  }

  lemma SameDetails(d: ConnectionDetails, e: ConnectionDetails)
    requires forall j :: 0 <= j < 7 ==> ValueOf(d, j) == ValueOf(e, j)
    ensures d == e
  {
    assert ValueOf(d, 0) == ValueOf(e, 0) && ValueOf(d, 1) == ValueOf(e, 1) && ValueOf(d, 2) == ValueOf(e, 2);
    assert ValueOf(d, 3) == ValueOf(e, 3) && ValueOf(d, 4) == ValueOf(e, 4) && ValueOf(d, 5) == ValueOf(e, 5);
    assert ValueOf(d, 6) == ValueOf(e, 6);
  }

  /** The connection details are computed exactly if every field has a value, and hold, field by
      field, the value in the secret its own reference names or the one in the specification. */
  lemma DetailsExactly(db: DatabaseConfig, namespace: string, s: Secrets, d: ConnectionDetails)
    ensures GetDbConnectionDetails(db, namespace, s) == Ok(d) <==> AllFrom(db, namespace, s, d)
  {
    hide FieldFrom, ValueOf, AllFrom, DetailsFrom, Problems;
    FieldsFrom(db, namespace, s, 0, NO_DETAILS);
    AllValues(db, namespace, s, d);
    assert GetDbConnectionDetails(db, namespace, s) == DetailsFrom(db, namespace, s, 0, NO_DETAILS);
    if AllFrom(db, namespace, s, d) {
      match GetDbConnectionDetails(db, namespace, s)
      case Ok(e) =>
        forall j | 0 <= j < 7 ensures ValueOf(d, j) == ValueOf(e, j) {
          OneValue(db, namespace, s, j, ValueOf(d, j), ValueOf(e, j));
        }
        SameDetails(d, e);
      case Err((k, e)) =>
        NoValue(db, namespace, s, k, ValueOf(d, k));
        assert false;
    }
  }

  /** The error that is reported is the first problem, with the number of its field. */
  lemma FirstProblemReported(db: DatabaseConfig, namespace: string, s: Secrets, k: nat, e: DbError)
    ensures GetDbConnectionDetails(db, namespace, s) == Err((k, e)) <==>
            k < 7 && Problems(db, namespace, s)[k] == Some(e) &&
            forall j :: 0 <= j < k ==> Problems(db, namespace, s)[j] == None
  {
    hide FieldFrom, ValueOf, DetailsFrom, Problems;
    FieldsFrom(db, namespace, s, 0, NO_DETAILS);
    if k < 7 && Problems(db, namespace, s)[k] == Some(e) && GetDbConnectionDetails(db, namespace, s).Ok? {
      var d := GetDbConnectionDetails(db, namespace, s).value;
      NoValue(db, namespace, s, k, ValueOf(d, k));
    }
  }

  /** A resource is woken up by the secrets its fields refer to and by the admin secret it names,
      and by no others. */
  lemma UsesSecretExactly(spec: OdooSpec, secret: string)
    ensures UsesSecret(spec, secret) <==>
            secret == spec.config.adminPasswordSecretName ||
            exists ref ::
              ref in [spec.database.hostRef, spec.database.portRef, spec.database.userRef, spec.database.passwordRef,
                      spec.database.nameRef, spec.database.sslRef, spec.database.maxConnRef] && ref.name == secret
  {
  }

  // ---- The configuration file ----

  /** What a reader of the file finds under each key: the admin password, the connection details
      and the rest of the specification. */
  ghost predicate Says(e: seq<(string, string)>, adminPassword: string, c: OdooConfig, d: ConnectionDetails) {
    Lookup(e, "admin_passwd") == Some(Trim(adminPassword)) &&
    Lookup(e, "data_dir") == Some(Trim(c.dataDir)) &&
    Lookup(e, "db_host") == Some(Trim(d.host)) &&
    Lookup(e, "db_port") == Some(IntText(d.port)) &&
    Lookup(e, "db_user") == Some(Trim(d.user)) &&
    Lookup(e, "db_password") == Some(Trim(d.password)) &&
    Lookup(e, "db_maxconn") == Some(IntText(d.maxConn)) &&
    Lookup(e, "db_name") == Some(Trim(d.name)) &&
    Lookup(e, "debug_mode") == Some(Switch(c.debugMode)) &&
    Lookup(e, "without_demo") == Some(Switch(c.withoutDemo)) &&
    Lookup(e, "proxy_mode") == Some(Switch(c.proxyMode)) &&
    Lookup(e, "workers") == Some(IntText(c.workers)) &&
    Lookup(e, "limit_memory_soft") == Some(IntText(c.limitMemorySoft)) &&
    Lookup(e, "limit_memory_hard") == Some(IntText(c.limitMemoryHard)) &&
    Lookup(e, "limit_request") == Some(IntText(c.limitRequest)) &&
    Lookup(e, "limit_time_cpu") == Some(IntText(c.limitTimeCpu)) &&
    Lookup(e, "limit_time_real") == Some(IntText(c.limitTimeReal)) &&
    Lookup(e, "max_cron_threads") == Some(IntText(c.maxCronThreads)) &&
    Lookup(e, "addons_path") ==
      (if c.extraAddonsPaths == [] then None else Some(Trim(JoinOn(c.extraAddonsPaths, ','))))
  }

  /** The texts of the file stay on their lines. */
  predicate OnLines(adminPassword: string, c: OdooConfig, d: ConnectionDetails) {
    OneLine(adminPassword) && OneLine(c.dataDir) && OneLine(d.host) && OneLine(d.user) && OneLine(d.password) &&
    OneLine(d.name) && DeclaredPaths(c.extraAddonsPaths)
  }

  lemma FileSays(adminPassword: string, c: OdooConfig, d: ConnectionDetails)
    requires OnLines(adminPassword, c, d)
    ensures Says(Read(Serialized(ConfOf(adminPassword, c, d))), adminPassword, c, d)
  {
    hide Read, Serialized, Lookup, Trim, JoinOn, IntText, Switch, OneLine, DeclaredPaths;
    KeyedValues(ConfOf(adminPassword, c, d));
  }

  /** The secret a resource takes its admin password from. */
  function AdminName(key: Key, spec: OdooSpec): string {
    if spec.config.adminPasswordSecretName == "" then key.name + "-admin-password"
    else spec.config.adminPasswordSecretName
  }

  /** The configuration a resource should have is one file. It says under each key what the admin
      secret, the details and the specification say. */
  lemma DesiredFile(r: Resource, s: Secrets, data: SecretData, admin: SecretData, d: ConnectionDetails)
    requires Desired(r, s) == Ok(data) && AllFrom(r.spec.database, r.key.namespace, s, d)
    requires s(Key(r.key.namespace, AdminName(r.key, r.spec))) == Some(admin)
    ensures data.Keys == {"odoo.conf"} && "password" in admin
    ensures OnLines(admin["password"], r.spec.config, d) ==>
              Says(Read(data["odoo.conf"]), admin["password"], r.spec.config, d)
  {
    hide Read, Serialized, AllFrom, GetDbConnectionDetails, Says, OnLines, ConfOf;
    DetailsExactly(r.spec.database, r.key.namespace, s, d);
    if OnLines(admin["password"], r.spec.config, d) {
      FileSays(admin["password"], r.spec.config, d);
    }
  }

  /** There is such a configuration exactly if the admin secret holds a password and every field
      has a value. */
  lemma DesiredExactly(r: Resource, s: Secrets)
    ensures Desired(r, s).Ok? <==>
            (var admin := s(Key(r.key.namespace, AdminName(r.key, r.spec)));
             admin.Some? && "password" in admin.value) &&
            exists d :: AllFrom(r.spec.database, r.key.namespace, s, d)
  {
    hide AllFrom, GetDbConnectionDetails, ConfigData;
    forall d ensures GetDbConnectionDetails(r.spec.database, r.key.namespace, s) == Ok(d) <==>
                     AllFrom(r.spec.database, r.key.namespace, s, d)
    {
      DetailsExactly(r.spec.database, r.key.namespace, s, d);
    }
    if Desired(r, s).Ok? {
      assert AllFrom(r.spec.database, r.key.namespace, s, Details(r, s).value);
    }
  }
}
