// Which secret events wake the operator up, and why the others are safe to skip.
module Watch {
  import opened Types
  import opened Templates
  import ConfigText
  import Numbers
  import Text

  // ---- Comparing secret data ----

  lemma SameSizeSubset(a: set<string>, b: set<string>)
    requires a <= b && |a| == |b|
    ensures a == b
  {
    if a != b {
      var x :| x in b && x !in a;
      SubsetSize(a, b - {x});
    }
  }

  lemma {:induction false} SubsetSize(a: set<string>, b: set<string>)
    requires a <= b
    ensures |a| <= |b|
  {
    if a != {} {
      var x :| x in a;
      SubsetSize(a - {x}, b - {x});
    }
  }

  /** Sizes first, then one direction of inclusion: together they decide equality. */
  method EqualSecretData(before: SecretData, after: SecretData) returns (equal: bool)
    ensures equal <==> before == after
  {
    if |before| != |after| {
      return false;
    }
    var keys := before.Keys;
    while keys != {}
      invariant keys <= before.Keys
      invariant forall k :: k in before.Keys - keys ==> k in after && after[k] == before[k]
      decreases keys
    {
      var key :| key in keys;
      if key !in after {
        return false;
      }
      if before[key] != after[key] {
        return false;
      }
      keys := keys - {key};
    }
    assert |before.Keys| == |before| && |after.Keys| == |after|;
    SameSizeSubset(before.Keys, after.Keys);
    return true;
  }

  // ---- Events ----

  /** A secret was created (`before` is `None`), deleted (`after` is `None`) or updated. */
  datatype SecretEvent = SecretEvent(secret: Key, before: Option<SecretData>, after: Option<SecretData>)

  /** The event filter lets everything pass except updates that leave the data alone. */
  method PassesFilter(e: SecretEvent) returns (passes: bool)
    ensures passes <==> !(e.before.Some? && e.after.Some? && e.before == e.after)
  {
    if e.before.Some? && e.after.Some? {
      var equal := EqualSecretData(e.before.value, e.after.value);
      return !equal;
    }
    return true;
  }

  datatype Resource = Resource(key: Key, spec: OdooSpec)

  function Users(resources: seq<Resource>, secret: string): seq<Key> {
    if resources == [] then []
    else
      (if UsesSecret(resources[0].spec, secret) then [resources[0].key] else []) + Users(resources[1..], secret)
  }

  lemma UsersSnoc(resources: seq<Resource>, r: Resource, secret: string)
    ensures Users(resources + [r], secret) ==
            Users(resources, secret) + (if UsesSecret(r.spec, secret) then [r.key] else [])
  {
    if resources == [] {
      var one := [r];
      assert one[1..] == [];
      assert resources + one == one;
    } else {
      assert (resources + [r])[1..] == resources[1..] + [r];
      UsersSnoc(resources[1..], r, secret);
    }
  }

  /** The loop over the listed resources keeps, in order, those that use the secret. */
  method FilterUsingSecret(resources: seq<Resource>, secret: string) returns (requests: seq<Key>)
    ensures requests == Users(resources, secret)
  {
    requests := [];
    for i := 0 to |resources|
      invariant requests == Users(resources[..i], secret)
    {
      UsersSnoc(resources[..i], resources[i], secret);
      assert resources[..i] + [resources[i]] == resources[..i + 1];
      if UsesSecret(resources[i].spec, secret) {
        requests := requests + [resources[i].key];
      }
    }
    assert resources[..|resources|] == resources;
  }

  lemma {:induction false} UsersExactly(resources: seq<Resource>, secret: string, key: Key)
    ensures key in Users(resources, secret) <==>
            exists r :: r in resources && r.key == key && UsesSecret(r.spec, secret)
  {
    if resources != [] {
      UsersExactly(resources[1..], secret, key);
      assert resources == [resources[0]] + resources[1..];
      if r :| r in resources && r.key == key && UsesSecret(r.spec, secret) {
        assert r == resources[0] || r in resources[1..];
      }
    }
  }

  /** The resources an event enqueues: those in the namespace of the secret that use it. */
  method Enqueued(resources: seq<Resource>, e: SecretEvent) returns (requests: seq<Key>)
    requires forall r :: r in resources ==> r.key.namespace == e.secret.namespace
    ensures forall r :: r in resources && Enqueues(e, r) ==> r.key in requests
    ensures forall key :: key in requests ==> exists r :: r in resources && r.key == key && Enqueues(e, r)
  {
    var passes := PassesFilter(e);
    if !passes {
      return [];
    }
    requests := FilterUsingSecret(resources, e.secret.name);
    forall key
      ensures key in requests <==>
              exists r :: r in resources && r.key == key && UsesSecret(r.spec, e.secret.name)
    {
      UsersExactly(resources, e.secret.name, key);
    }
  }

  ghost predicate Enqueues(e: SecretEvent, r: Resource) {
    r.key.namespace == e.secret.namespace &&
    !(e.before.Some? && e.after.Some? && e.before == e.after) &&
    UsesSecret(r.spec, e.secret.name)
  }

  // ---- What a pass would compute from the secrets ----

  type Secrets = Key -> Option<SecretData>

  function Details(r: Resource, secrets: Secrets): Result<ConnectionDetails, (nat, DbError)> {
    GetDbConnectionDetails(r.spec.database, r.key.namespace, secrets)
  }

  datatype ConfigError = NoAdminSecret | NoPassword | Connection(field: nat, error: DbError)

  /** The data of the configuration secret the resource should have. */
  function Desired(r: Resource, secrets: Secrets): Result<SecretData, ConfigError> {
    match secrets(AdminKey(r.key, r.spec))
    case None => Err(NoAdminSecret)
    case Some(data) =>
      if PASSWORD !in data then Err(NoPassword)
      else match Details(r, secrets)
        case Err((i, e)) => Err(Connection(i, e))
        case Ok(d) => Ok(ConfigData(data[PASSWORD], r.spec.config, d))
  }

  /** The store of secrets changed by one event and nothing else. */
  ghost predicate Happened(e: SecretEvent, before: Secrets, after: Secrets) {
    before(e.secret) == e.before && after(e.secret) == e.after &&
    forall k :: k != e.secret ==> before(k) == after(k)
  }

  /** The connection details depend only on the secrets the database section names. */
  lemma {:induction false} DetailsDependOnRefs(db: DatabaseConfig, namespace: string, s: Secrets, t: Secrets, i: nat,
                                               d: ConnectionDetails)
    requires i <= FIELDS
    requires forall j :: i <= j < FIELDS && FromSecret(DbRef(db, j)) ==>
      s(Key(namespace, DbRef(db, j).name)) == t(Key(namespace, DbRef(db, j).name))
    ensures DetailsFrom(db, namespace, s, i, d) == DetailsFrom(db, namespace, t, i, d)
    decreases FIELDS - i
  {
    if i < FIELDS {
      assert FromSecret(DbRef(db, i)) ==>
        s(Key(namespace, DbRef(db, i).name)) == t(Key(namespace, DbRef(db, i).name));
      match Field(d, db, i, s(Key(namespace, DbRef(db, i).name)))
      case Err(_) =>
      case Ok(d') => DetailsDependOnRefs(db, namespace, s, t, i + 1, d');
    }
  }

  /** Connection details, or the very error that prevents them, never change without the
      resource being enqueued. */
  lemma SkippedEventsKeepDetails(r: Resource, e: SecretEvent, before: Secrets, after: Secrets)
    requires Happened(e, before, after) && !Enqueues(e, r)
    ensures Details(r, before) == Details(r, after)
  {
    forall j | 0 <= j < FIELDS && FromSecret(DbRef(r.spec.database, j))
      ensures before(Key(r.key.namespace, DbRef(r.spec.database, j).name)) ==
              after(Key(r.key.namespace, DbRef(r.spec.database, j).name))
    {
      RefsAreUsed(r.spec, j);
    }
    DetailsDependOnRefs(r.spec.database, r.key.namespace, before, after, 0, NO_DETAILS);
  }

  /** Every skipped event was safe to skip: what the configuration secret should hold is the
      same before and after, unless the event is about the default admin secret. */
  lemma SkippedEventsAreSafe(r: Resource, e: SecretEvent, before: Secrets, after: Secrets)
    requires Happened(e, before, after) && !Enqueues(e, r)
    ensures Desired(r, before) == Desired(r, after) ||
            (r.spec.config.adminPasswordSecretName == "" && e.secret == DefaultAdminKey(r.key))
  {
    SkippedEventsKeepDetails(r, e, before, after);
  }

  lemma NamedAdminIsWatched(r: Resource, e: SecretEvent, before: Secrets, after: Secrets)
    requires r.spec.config.adminPasswordSecretName != ""
    requires Happened(e, before, after) && Desired(r, before) != Desired(r, after)
    ensures Enqueues(e, r)
  {
    if !Enqueues(e, r) {
      SkippedEventsAreSafe(r, e, before, after);
    }
  }

  /** All skipped events are safe for a resource exactly if it names its admin secret, or refers to
      the default one somewhere else: otherwise the creation of that secret is skipped. */
  lemma SkippedEventsAreSafeExactly(r: Resource)
    ensures (forall e, before, after :: Happened(e, before, after) && !Enqueues(e, r) ==>
               Desired(r, before) == Desired(r, after)) <==>
            r.spec.config.adminPasswordSecretName != "" || UsesSecret(r.spec, DefaultAdminKey(r.key).name)
  {
    hide UsesSecret, Details;
    if r.spec.config.adminPasswordSecretName != "" || UsesSecret(r.spec, DefaultAdminKey(r.key).name) {
      forall e, before, after | Happened(e, before, after) && !Enqueues(e, r)
        ensures Desired(r, before) == Desired(r, after)
      {
        SkippedEventsAreSafe(r, e, before, after);
        if e.secret == DefaultAdminKey(r.key) && r.spec.config.adminPasswordSecretName == "" {
          assert before(e.secret) == after(e.secret);
          SkippedEventsKeepDetails(r, e, before, after);
        }
      }
    } else {
      var before: Secrets := k => None;
      var after: Secrets := k => if k == DefaultAdminKey(r.key) then Some(map[]) else None;
      var e := SecretEvent(DefaultAdminKey(r.key), None, Some(map[]));
      assert Happened(e, before, after) && !Enqueues(e, r);
      assert Desired(r, before) == Err(NoAdminSecret) && Desired(r, after) == Err(NoPassword);
    }
  }

  /** The exception is real: a changed password in a default admin secret changes the
      configuration, and this mapping does not enqueue the resource for it. */
  lemma DefaultAdminIsNotMapped(r: Resource, p: string, q: string, d: ConnectionDetails, before: Secrets,
                                after: Secrets)
    requires r.spec.config.adminPasswordSecretName == "" && !UsesSecret(r.spec, DefaultAdminKey(r.key).name)
    requires var was, now := map[PASSWORD := p], map[PASSWORD := q];
             Happened(SecretEvent(DefaultAdminKey(r.key), Some(was), Some(now)), before, after)
    requires Details(r, before) == Ok(d) && p != q
    requires ConfigText.DeclaredPaths(r.spec.config.extraAddonsPaths)
    requires var c := ConfOf(p, r.spec.config, d); ConfigText.TextsOneLine(c) && Text.Trimmed(p)
    requires var c := ConfOf(q, r.spec.config, d); ConfigText.TextsOneLine(c) && Text.Trimmed(q)
    ensures Desired(r, before) != Desired(r, after)
    ensures !Enqueues(SecretEvent(DefaultAdminKey(r.key), Some(map[PASSWORD := p]), Some(map[PASSWORD := q])), r)
  {
    hide ConfigText.Serialized, ConfigText.Decode;
    var e := SecretEvent(DefaultAdminKey(r.key), Some(map[PASSWORD := p]), Some(map[PASSWORD := q]));
    SkippedEventsKeepDetails(r, e, before, after);
    var b, c := ConfOf(p, r.spec.config, d), ConfOf(q, r.spec.config, d);
    ConfigText.DecodeSerialized(b);
    ConfigText.DecodeSerialized(c);
    Text.TrimPadded(p);
    Text.TrimPadded(q);
    assert ConfigData(p, r.spec.config, d)[CONF_FILE] == ConfigText.Serialized(b);
    assert ConfigData(q, r.spec.config, d)[CONF_FILE] == ConfigText.Serialized(c);
  }

  // ---- A configuration computed from itself ----

  /** The resource reads its own configuration secret, as admin secret or for a field. */
  predicate SelfReferring(r: Resource) {
    AdminKey(r.key, r.spec) == ConfigKey(r.key) ||
    exists i :: 0 <= i < FIELDS && FromSecret(DbRef(r.spec.database, i)) &&
      DbRef(r.spec.database, i).name == ConfigKey(r.key).name
  }

  /** A field read later leaves the earlier ones as they are. */
  lemma LaterFieldKeeps(d: ConnectionDetails, i: nat, text: string, db: DatabaseConfig, j: nat,
                        secret: Option<SecretData>)
    requires i < j < FIELDS && FieldFromText(d, i, text) == Ok(d) && Field(d, db, j, secret).Ok?
    ensures var d' := Field(d, db, j, secret).value; FieldFromText(d', i, text) == Ok(d')
  {
    hide Numbers.Int32Of, Numbers.ParseBool;
  }

  /** In the computed details, a field with a reference holds what the secret says. */
  lemma {:induction false} FieldHoldsText(db: DatabaseConfig, namespace: string, s: Secrets, i: nat,
                                          d: ConnectionDetails, j: nat)
    requires i <= FIELDS && j < FIELDS && DetailsFrom(db, namespace, s, i, d).Ok?
    requires j < i ==> FieldFromText(d, j, SecretText(db, namespace, s, j)) == Ok(d)
    requires FromSecret(DbRef(db, j))
    ensures var e := DetailsFrom(db, namespace, s, i, d).value;
            FieldFromText(e, j, SecretText(db, namespace, s, j)) == Ok(e)
    decreases FIELDS - i
  {
    hide DbRef, FieldFromSpec;
    if i < FIELDS {
      var secret := s(Key(namespace, DbRef(db, i).name));
      var d' := Field(d, db, i, secret).value;
      if j < i {
        LaterFieldKeeps(d, j, SecretText(db, namespace, s, j), db, i, secret);
      }
      FieldHoldsText(db, namespace, s, i + 1, d', j);
    }
  }

  function SecretText(db: DatabaseConfig, namespace: string, s: Secrets, j: nat): string {
    match s(Key(namespace, DbRef(db, j).name))
    case Some(data) => if DbRef(db, j).key in data then data[DbRef(db, j).key] else ""
    case None => ""
  }

  /** No field is what the file that prints it says. */
  lemma FileIsNoField(p: string, c: OdooConfig, d: ConnectionDetails, j: nat)
    requires j < FIELDS
    ensures FieldFromText(d, j, ConfigText.Serialized(ConfOf(p, c, d))) != Ok(d)
  {
    hide ConfigText.Serialized;
    var conf := ConfOf(p, c, d);
    ConfigText.FileIsNoValue(conf, 2);
    ConfigText.FileIsNoValue(conf, 4);
    ConfigText.FileIsNoValue(conf, 5);
    ConfigText.FileIsNoValue(conf, 7);
    BracketIsNoScalar(ConfigText.Serialized(conf));
  }

  lemma BracketIsNoScalar(text: string)
    requires text != "" && text[0] == '['
    ensures Numbers.Int32Of(text) == None && Numbers.ParseBool(text) == None
  {
  }

  /** A resource that reads its own configuration secret never sees it settle. */
  lemma SelfReferenceNeverSettles(r: Resource, s: Secrets)
    requires SelfReferring(r) && Desired(r, s).Ok?
    ensures s(ConfigKey(r.key)) != Some(Desired(r, s).value)
  {
    hide ConfigText.Serialized, FieldFromText, DbRef, ConfOf;
    var p := s(AdminKey(r.key, r.spec)).value[PASSWORD];
    var d := Details(r, s).value;
    var data := ConfigData(p, r.spec.config, d);
    if s(ConfigKey(r.key)) == Some(data) {
      if AdminKey(r.key, r.spec) != ConfigKey(r.key) {
        var j :| 0 <= j < FIELDS && FromSecret(DbRef(r.spec.database, j)) &&
          DbRef(r.spec.database, j).name == ConfigKey(r.key).name;
        FieldHoldsText(r.spec.database, r.key.namespace, s, 0, NO_DETAILS, j);
        FieldNeedsKey(r, s, j);
        FileIsNoField(p, r.spec.config, d, j);
      }
    }
  }

  /** Details are computed only if every referenced key exists. */
  lemma {:induction false} KeysExist(db: DatabaseConfig, namespace: string, s: Secrets, i: nat, d: ConnectionDetails,
                                     j: nat)
    requires i <= j < FIELDS && DetailsFrom(db, namespace, s, i, d).Ok? && FromSecret(DbRef(db, j))
    ensures var secret := s(Key(namespace, DbRef(db, j).name)); secret.Some? && DbRef(db, j).key in secret.value
    decreases FIELDS - i
  {
    hide FieldFromText, FieldFromSpec, DbRef;
    if i < j {
      KeysExist(db, namespace, s, i + 1, Field(d, db, i, s(Key(namespace, DbRef(db, i).name))).value, j);
    }
  }

  lemma FieldNeedsKey(r: Resource, s: Secrets, j: nat)
    requires Details(r, s).Ok? && j < FIELDS && FromSecret(DbRef(r.spec.database, j))
    requires DbRef(r.spec.database, j).name == ConfigKey(r.key).name
    ensures s(ConfigKey(r.key)).Some? && DbRef(r.spec.database, j).key in s(ConfigKey(r.key)).value
    ensures SecretText(r.spec.database, r.key.namespace, s, j) ==
            s(ConfigKey(r.key)).value[DbRef(r.spec.database, j).key]
  {
    hide DbRef;
    KeysExist(r.spec.database, r.key.namespace, s, 0, NO_DETAILS, j);
  }

  /** Secrets that hold "1" under every key a resource can ask for. */
  function ManyOnes(r: Resource): SecretData {
    map k | k in AskedKeys(r.spec.database) :: "1"
  }

  function AskedKeys(db: DatabaseConfig): set<string> {
    {PASSWORD} + (set i: nat | i < FIELDS :: DbRef(db, i).key)
  }

  /** With such secrets in place the details can be computed; only the password has to come
      from a secret. */
  lemma {:induction false} OnesSuffice(r: Resource, s: Secrets, i: nat, d: ConnectionDetails)
    requires i <= FIELDS && FromSecret(r.spec.database.passwordRef)
    requires forall j :: 0 <= j < FIELDS && FromSecret(DbRef(r.spec.database, j)) ==>
      s(Key(r.key.namespace, DbRef(r.spec.database, j).name)) == Some(ManyOnes(r))
    ensures DetailsFrom(r.spec.database, r.key.namespace, s, i, d).Ok?
    decreases FIELDS - i
  {
    if i < FIELDS {
      OnesRead(r, i, d);
      var secret := s(Key(r.key.namespace, DbRef(r.spec.database, i).name));
      assert FromSecret(DbRef(r.spec.database, i)) ==> secret == Some(ManyOnes(r));
      hide FieldFromText, FieldFromSpec, DbRef, ManyOnes;
      OnesSuffice(r, s, i + 1, Field(d, r.spec.database, i, secret).value);
    }
  }

  lemma OnesRead(r: Resource, i: nat, d: ConnectionDetails)
    requires i < FIELDS && FromSecret(r.spec.database.passwordRef)
    ensures FromSecret(DbRef(r.spec.database, i)) ==>
              DbRef(r.spec.database, i).key in ManyOnes(r) &&
                FieldFromText(d, i, ManyOnes(r)[DbRef(r.spec.database, i).key]).Ok?
    ensures !FromSecret(DbRef(r.spec.database, i)) ==> FieldFromSpec(d, i, r.spec.database).Ok?
  {
    OneIsScalar();
    hide Numbers.Int32Of, Numbers.ParseBool;
  }

  lemma OneIsScalar()
    ensures Numbers.Int32Of("1") == Some(1) && Numbers.ParseBool("1") == Some(true)
  {
    Numbers.Int32RoundTrip(1);
    assert Numbers.IntText(1) == "1";
  }

  /** There are secrets with which the configuration settles exactly if the resource takes the
      database password from a secret and does not read its own configuration secret. */
  lemma SettlesExactly(r: Resource)
    ensures (exists s: Secrets :: Desired(r, s).Ok? && s(ConfigKey(r.key)) == Some(Desired(r, s).value)) <==>
            FromSecret(r.spec.database.passwordRef) && !SelfReferring(r)
  {
    hide ManyOnes, ConfigData;
    forall s: Secrets | Desired(r, s).Ok? && s(ConfigKey(r.key)) == Some(Desired(r, s).value)
      ensures FromSecret(r.spec.database.passwordRef) && !SelfReferring(r)
    {
      PasswordNeedsSecret(r, s);
      if SelfReferring(r) {
        SelfReferenceNeverSettles(r, s);
      }
    }
    if FromSecret(r.spec.database.passwordRef) && !SelfReferring(r) {
      OnesSettle(r);
    }
  }

  lemma PasswordNeedsSecret(r: Resource, s: Secrets)
    requires Desired(r, s).Ok?
    ensures FromSecret(r.spec.database.passwordRef)
  {
    hide FieldFromText, ConfigData;
    PasswordField(r.spec.database, r.key.namespace, s, 0, NO_DETAILS);
  }

  lemma {:induction false} PasswordField(db: DatabaseConfig, namespace: string, s: Secrets, i: nat,
                                         d: ConnectionDetails)
    requires i <= 3 && DetailsFrom(db, namespace, s, i, d).Ok?
    ensures FromSecret(db.passwordRef)
    decreases 3 - i
  {
    hide FieldFromText;
    if i < 3 {
      PasswordField(db, namespace, s, i + 1, Field(d, db, i, s(Key(namespace, DbRef(db, i).name))).value);
    }
  }

  /** "1" everywhere but in the configuration secret. */
  function OnesWith(r: Resource, config: SecretData): Secrets {
    k => Some(if k == ConfigKey(r.key) then config else ManyOnes(r))
  }

  lemma OnesDesired(r: Resource)
    requires FromSecret(r.spec.database.passwordRef)
    ensures Desired(r, OnesWith(r, ManyOnes(r))).Ok?
  {
    hide ConfigData, DbRef, GetDbConnectionDetails;
    OnesDetails(r, OnesWith(r, ManyOnes(r)));
    assert PASSWORD in AskedKeys(r.spec.database);
  }

  lemma OnesSettle(r: Resource)
    requires FromSecret(r.spec.database.passwordRef) && !SelfReferring(r)
    ensures exists s: Secrets :: Desired(r, s).Ok? && s(ConfigKey(r.key)) == Some(Desired(r, s).value)
  {
    hide Desired, SelfReferring, ManyOnes;
    var base := OnesWith(r, ManyOnes(r));
    OnesDesired(r);
    var data := Desired(r, base).value;
    var s := OnesWith(r, data);
    ElsewhereSame(r, base, s);
    assert Desired(r, s).Ok? && s(ConfigKey(r.key)) == Some(Desired(r, s).value);
  }

  lemma OnesDetails(r: Resource, s: Secrets)
    requires FromSecret(r.spec.database.passwordRef) && forall k :: s(k) == Some(ManyOnes(r))
    ensures Details(r, s).Ok?
  {
    OnesSuffice(r, s, 0, NO_DETAILS);
  }

  /** Secrets that differ in the configuration only give the same configuration. */
  lemma ElsewhereSame(r: Resource, s: Secrets, t: Secrets)
    requires !SelfReferring(r) && forall k :: k != ConfigKey(r.key) ==> s(k) == t(k)
    ensures Desired(r, s) == Desired(r, t)
  {
    hide DbRef;
    DetailsDependOnRefs(r.spec.database, r.key.namespace, s, t, 0, NO_DETAILS);
  }
}
