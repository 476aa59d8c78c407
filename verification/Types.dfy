// The custom resource and the objects the operator derives from it.
module Types {

  datatype Option<+T> = None | Some(value: T) {
    predicate IsFailure() {
      None?
    }

    function PropagateFailure<U>(): Option<U>
      requires None?
    {
      None
    }

    function Extract(): T
      requires Some?
    {
      value
    }
  }

  datatype Result<+T, +E> = Ok(value: T) | Err(error: E)

  type int32 = x: int | -0x8000_0000 <= x < 0x8000_0000
  type int64 = x: int | -0x8000_0000_0000_0000 <= x < 0x8000_0000_0000_0000

  /** A namespace and a name inside it. */
  datatype Key = Key(namespace: string, name: string)

  // The specification a user writes.

  datatype SecretRef = SecretRef(name: string, key: string)

  datatype DatabaseConfig = DatabaseConfig(
    host: string, hostRef: SecretRef,
    port: int32, portRef: SecretRef,
    user: string, userRef: SecretRef,
    passwordRef: SecretRef,
    name: string, nameRef: SecretRef,
    ssl: bool, sslRef: SecretRef,
    maxConn: int32, maxConnRef: SecretRef)

  datatype OdooConfig = OdooConfig(
    adminPasswordSecretName: string,
    debugMode: bool,
    dataDir: string,
    withoutDemo: bool,
    proxyMode: bool,
    workers: int32,
    limitRequest: int32,
    limitTimeReal: int32,
    limitTimeCpu: int32,
    limitMemorySoft: int64,
    limitMemoryHard: int64,
    maxCronThreads: int32,
    extraAddonsPaths: seq<string>)

  datatype ClaimSpec = ClaimSpec(storageClass: string, accessModes: seq<string>, size: string)

  datatype OdooSpec = OdooSpec(
    odooCommand: seq<string>,
    replicas: int32,
    image: string,
    imagePullPolicy: string,
    imagePullSecrets: seq<string>,
    database: DatabaseConfig,
    config: OdooConfig,
    modules: seq<string>,
    filestore: ClaimSpec)

  // The status the operator records.

  datatype InitJobRecord = InitJobRecord(name: string, namespace: string, modules: seq<string>)

  const NO_INIT_JOB := InitJobRecord("", "", [])

  datatype OdooStatus = OdooStatus(
    adminSecretName: string,
    configSecretName: string,
    dataPvcName: string,
    initModulesInstalled: seq<string>,
    currentInitJob: InitJobRecord)

  const EMPTY_STATUS := OdooStatus("", "", "", [], NO_INIT_JOB)

  // Children.

  type SecretData = map<string, string>

  /** The parts of a pod that depend on the resource; the constant parts are left out. */
  datatype PodSpec = PodSpec(
    image: string,
    pullPolicy: string,
    pullSecrets: seq<string>,
    command: seq<string>,
    ports: seq<int>,
    dataDir: string,
    claimName: string,
    configSecretName: string,
    restartPolicy: string)

  datatype JobSpec = JobSpec(pod: PodSpec, parallelism: int, backoffLimit: int)

  datatype JobStatus = JobStatus(active: nat, succeeded: nat, failed: nat)

  const PENDING := JobStatus(0, 0, 0)

  datatype DeploymentSpec = DeploymentSpec(replicas: int32, appLabel: string, pod: PodSpec)

  /** The four service fields the API server fills in. */
  datatype Allocation = Allocation(
    clusterIP: string,
    clusterIPs: seq<string>,
    ipFamilies: seq<string>,
    ipFamilyPolicy: Option<string>)

  const UNALLOCATED := Allocation("", [], [], None)

  datatype ServiceSpec = ServiceSpec(appLabel: string, port: int, alloc: Allocation)

  datatype ConnectionDetails = ConnectionDetails(
    host: string, port: int32, user: string, password: string, name: string, ssl: bool, maxConn: int32)
}
