// Names, templates and derived values of an OdooDeployment: everything the operator
// computes from the resource without calling the API server.
module Templates {
  import opened Types
  import opened Text
  import opened ModuleLists
  import Numbers
  import ConfigText

  // Names of the children.

  function ConfigKey(key: Key): Key {
    Key(key.namespace, key.name + "-config")
  }

  function DefaultAdminKey(key: Key): Key {
    Key(key.namespace, key.name + "-admin-password")
  }

  function AdminKey(key: Key, spec: OdooSpec): Key {
    if spec.config.adminPasswordSecretName != "" then
      Key(key.namespace, spec.config.adminPasswordSecretName)
    else
      DefaultAdminKey(key)
  }

  function InitJobKey(key: Key): Key {
    Key(key.namespace, key.name + "-init")
  }

  function HttpKey(key: Key): Key {
    Key(key.namespace, key.name + "-http")
  }

  function PollKey(key: Key): Key {
    Key(key.namespace, key.name + "-poll")
  }

  // Pods, Jobs, Deployments and services.

  const CONFIG_FLAGS: seq<string> := ["-c", "/opt/odoo/odoo.conf"]
  const INIT_FLAGS: seq<string> := ["-c", "/opt/odoo/odoo.conf", "--stop-after-init", "--no-http", "--init"]

  function PodTemplate(spec: OdooSpec, status: OdooStatus): PodSpec {
    PodSpec(spec.image, spec.imagePullPolicy, spec.imagePullSecrets, spec.odooCommand + CONFIG_FLAGS,
            [8069, 8072], spec.config.dataDir, status.dataPvcName, status.configSecretName, "Always")
  }

  function Missing(spec: OdooSpec, status: OdooStatus): seq<string> {
    Difference(spec.modules, status.initModulesInstalled)
  }

  /** The Job that installs a list of modules. */
  function JobTemplate(spec: OdooSpec, status: OdooStatus, modules: seq<string>): JobSpec
    requires modules != []
  {
    JobSpec(PodTemplate(spec, status).(
              command := spec.odooCommand + INIT_FLAGS + [JoinOn(modules, COMMA)],
              ports := [],
              restartPolicy := "Never"),
            1, 2)
  }

  /** What a command hands to `--init`: the argument after its last occurrence that has one. */
  function InitValue(command: seq<string>): Option<string> {
    if |command| < 2 then None
    else match InitValue(command[1..])
      case Some(value) => Some(value)
      case None => if command[0] == "--init" then Some(command[1]) else None
  }

  function InitArg(job: JobSpec): Option<string> {
    InitValue(job.pod.command)
  }

  /** The modules a Job installs when it succeeds. */
  ghost function Ran(job: JobSpec): set<string> {
    match InitArg(job)
    case Some(value) => Elements(SplitOn(value, COMMA))
    case None => {}
  }

  lemma {:induction false} LastInit(front: seq<string>, value: string)
    ensures InitValue(front + ["--init", value]) == Some(value)
  {
    var command := front + ["--init", value];
    if front == [] {
      assert command[1..] == [value];
    } else {
      assert command[1..] == front[1..] + ["--init", value];
      LastInit(front[1..], value);
    }
  }

  /** Whatever the user's command is, the Job hands exactly the modules it was built for to
      `--init`, and runs their comma pieces. */
  lemma JobRunsItsModules(spec: OdooSpec, status: OdooStatus, modules: seq<string>)
    requires modules != []
    ensures InitArg(JobTemplate(spec, status, modules)) == Some(JoinOn(modules, COMMA))
    ensures Ran(JobTemplate(spec, status, modules)) == Pieces(modules)
  {
    SplitOfJoin(modules, COMMA);
    var arg := JoinOn(modules, COMMA);
    var front := spec.odooCommand + INIT_FLAGS[..|INIT_FLAGS| - 1];
    assert spec.odooCommand + INIT_FLAGS + [arg] == front + ["--init", arg];
    LastInit(front, arg);
  }

  function DeploymentTemplate(key: Key, spec: OdooSpec, status: OdooStatus): DeploymentSpec {
    DeploymentSpec(spec.replicas, key.name, PodTemplate(spec, status))
  }

  function HttpTemplate(key: Key): ServiceSpec {
    ServiceSpec(key.name, 8069, UNALLOCATED)
  }

  function PollTemplate(key: Key): ServiceSpec {
    ServiceSpec(key.name, 8072, UNALLOCATED)
  }

  // The database connection: seven fields, each from a secret or from the specification.

  const FIELDS := 7

  datatype DbError = SecretNotFound | KeyNotFound | InfoMissing | BadInteger | BadBoolean

  const NO_DETAILS := ConnectionDetails("", 0, "", "", "", false, 0)

  function DbRef(db: DatabaseConfig, i: nat): SecretRef {
    match i
    case 0 => db.hostRef
    case 1 => db.portRef
    case 2 => db.userRef
    case 3 => db.passwordRef
    case 4 => db.nameRef
    case 5 => db.sslRef
    case _ => db.maxConnRef
  }

  predicate FromSecret(ref: SecretRef) {
    ref.name != "" && ref.key != ""
  }

  function FieldFromText(d: ConnectionDetails, i: nat, text: string): Result<ConnectionDetails, DbError> {
    match i
    case 0 => Ok(d.(host := text))
    case 1 => (match Numbers.Int32Of(text) case Some(n) => Ok(d.(port := n)) case None => Err(BadInteger))
    case 2 => Ok(d.(user := text))
    case 3 => Ok(d.(password := text))
    case 4 => Ok(d.(name := text))
    case 5 => (match Numbers.ParseBool(text) case Some(b) => Ok(d.(ssl := b)) case None => Err(BadBoolean))
    case _ => (match Numbers.Int32Of(text) case Some(n) => Ok(d.(maxConn := n)) case None => Err(BadInteger))
  }

  /** The value given in the specification; a password has none. */
  function FieldFromSpec(d: ConnectionDetails, i: nat, db: DatabaseConfig): Result<ConnectionDetails, DbError> {
    match i
    case 0 => Ok(d.(host := db.host))
    case 1 => Ok(d.(port := db.port))
    case 2 => Ok(d.(user := db.user))
    case 3 => Err(InfoMissing)
    case 4 => Ok(d.(name := db.name))
    case 5 => Ok(d.(ssl := db.ssl))
    case _ => Ok(d.(maxConn := db.maxConn))
  }

  function FieldFromSecret(d: ConnectionDetails, i: nat, key: string, secret: Option<SecretData>)
    : Result<ConnectionDetails, DbError>
  {
    match secret
    case None => Err(SecretNotFound)
    case Some(data) => if key in data then FieldFromText(d, i, data[key]) else Err(KeyNotFound)
  }

  function Field(d: ConnectionDetails, db: DatabaseConfig, i: nat, secret: Option<SecretData>)
    : Result<ConnectionDetails, DbError>
  {
    if FromSecret(DbRef(db, i)) then FieldFromSecret(d, i, DbRef(db, i).key, secret) else FieldFromSpec(d, i, db)
  }

  /** The fields from the i-th on, read in order; the first one that fails is the error. */
  function DetailsFrom(db: DatabaseConfig, namespace: string, secrets: Key -> Option<SecretData>, i: nat,
                       d: ConnectionDetails)
    : Result<ConnectionDetails, (nat, DbError)>
    requires i <= FIELDS
    decreases FIELDS - i
  {
    if i == FIELDS then Ok(d)
    else match Field(d, db, i, secrets(Key(namespace, DbRef(db, i).name)))
      case Err(e) => Err((i, e))
      case Ok(d') => DetailsFrom(db, namespace, secrets, i + 1, d')
  }

  function GetDbConnectionDetails(db: DatabaseConfig, namespace: string, secrets: Key -> Option<SecretData>)
    : Result<ConnectionDetails, (nat, DbError)>
  {
    DetailsFrom(db, namespace, secrets, 0, NO_DETAILS)
  }

  // The configuration secret.

  const PASSWORD := "password"
  const CONF_FILE := "odoo.conf"

  function ConfOf(adminPassword: string, c: OdooConfig, d: ConnectionDetails): ConfigText.Conf {
    ConfigText.Conf(adminPassword, c.dataDir, d.host, d.port, d.user, d.password, d.maxConn, d.name,
                    c.debugMode, c.withoutDemo, c.proxyMode, c.workers, c.limitMemorySoft, c.limitMemoryHard,
                    c.limitRequest, c.limitTimeCpu, c.limitTimeReal, c.maxCronThreads, c.extraAddonsPaths)
  }

  function ConfigData(adminPassword: string, c: OdooConfig, d: ConnectionDetails): SecretData {
    map[CONF_FILE := ConfigText.Serialized(ConfOf(adminPassword, c, d))]
  }

  // Which secrets a resource depends on.

  predicate UsesSecret(spec: OdooSpec, secret: string) {
    secret == spec.database.hostRef.name ||
    secret == spec.database.portRef.name ||
    secret == spec.database.userRef.name ||
    secret == spec.database.passwordRef.name ||
    secret == spec.database.nameRef.name ||
    secret == spec.database.sslRef.name ||
    secret == spec.database.maxConnRef.name ||
    secret == spec.config.adminPasswordSecretName
  }

  lemma RefsAreUsed(spec: OdooSpec, i: nat)
    ensures UsesSecret(spec, DbRef(spec.database, i).name)
  {
  }

  // Distinct children have distinct names.

  lemma SuffixInjective(a: string, b: string, suffix: string)
    ensures a + suffix == b + suffix <==> a == b
  {
    if a + suffix == b + suffix {
      assert |a| == |b|;
      assert a == (a + suffix)[..|a|] && b == (b + suffix)[..|b|];
    }
  }

  lemma LastCharDiffers(a: string, b: string, s: string, t: string)
    requires s != "" && t != "" && s[|s| - 1] != t[|t| - 1]
    ensures a + s != b + t
  {
    assert (a + s)[|a + s| - 1] == s[|s| - 1];
    assert (b + t)[|b + t| - 1] == t[|t| - 1];
  }

  /** Within one resource the configuration secret is never the default admin secret, and
      across resources with different names no derived name coincides. */
  lemma DerivedNamesDistinct(a: Key, b: Key)
    ensures ConfigKey(a) != DefaultAdminKey(b)
    ensures HttpKey(a) != PollKey(b)
    ensures a.name != b.name ==>
      ConfigKey(a) != ConfigKey(b) && DefaultAdminKey(a) != DefaultAdminKey(b) &&
      InitJobKey(a) != InitJobKey(b) && HttpKey(a) != HttpKey(b) && PollKey(a) != PollKey(b)
  {
    LastCharDiffers(a.name, b.name, "-config", "-admin-password");
    LastCharDiffers(a.name, b.name, "-http", "-poll");
    SuffixInjective(a.name, b.name, "-config");
    SuffixInjective(a.name, b.name, "-admin-password");
    SuffixInjective(a.name, b.name, "-init");
    SuffixInjective(a.name, b.name, "-http");
    SuffixInjective(a.name, b.name, "-poll");
  }
}
