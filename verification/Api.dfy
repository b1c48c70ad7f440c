/** The custom resources and the cluster objects the two controllers read and write. */
module Api {

  datatype Option<+T> = None | Some(value: T)

  /** How one stage (or one API call) ended. A panic unwinds the stage loop past its error branch. */
  datatype Outcome = Ok | Fail(message: string) | Panic

  datatype Status = True | False | Unknown

  datatype Condition = Condition(kind: string, status: Status, reason: string, message: string)

  predicate IsConditionTrue(conditions: seq<Condition>, kind: string) {
    exists i :: 0 <= i < |conditions| && conditions[i].kind == kind && conditions[i].status == True
  }

  /** What CheckAIServiceStatus looks for. */
  predicate IsErrorCondition(c: Condition) {
    c.status == False && c.reason == "Error"
  }

  predicate HasError(conditions: seq<Condition>) {
    exists i :: 0 <= i < |conditions| && IsErrorCondition(conditions[i])
  }

  /** The controller owner reference; other groups and kinds are told apart only by text. */
  datatype Owner = PlatformOwner(name: string) | ServiceOwner(name: string) | OtherOwner(ref: string)

  datatype Meta = Meta(
    uid: nat,
    version: nat,
    deleting: bool,
    finalizers: seq<string>,
    controller: Option<Owner>,
    labels: map<string, string>,
    annotations: map<string, string>)

  // ---- specs ----------------------------------------------------------------------------

  datatype ObjectStorage = ObjectStorage(path: string, endpoint: string, region: string, secretRef: string)

  datatype Mtls = Mtls(enabled: bool, issuerName: string, secretName: string,
                       dnsNames: seq<string>, termination: string)

  datatype SplunkRef = SplunkRef(kind: string, name: string, ns: string)

  datatype Splunk = Splunk(crRef: SplunkRef, secretRefName: string, endpoint: string, token: string,
                           secretSource: string, vaultFilePath: string)

  datatype Feature = Feature(name: string, serviceAccount: string, version: string, scaleFactor: Option<int>)

  datatype Metrics = Metrics(enabled: bool, path: string, port: int)

  datatype VectorDbStorage = VectorDbStorage(pvcName: string, size: string, storageClass: string)

  datatype IngressPath = IngressPath(path: string, pathType: string)
  datatype IngressHost = IngressHost(host: string, paths: seq<IngressPath>)
  datatype IngressTls = IngressTls(hosts: seq<string>, secretName: string)
  datatype Ingress = Ingress(enabled: bool, className: string, hosts: seq<IngressHost>, tls: seq<IngressTls>)

  datatype PlatformSpec = PlatformSpec(
    objectStorage: ObjectStorage,
    features: seq<Feature>,
    splunk: Splunk,
    mtls: Mtls,
    certificateRef: string,
    clusterDomain: string,
    pullSecrets: seq<string>,
    vectorDb: VectorDbStorage,
    ingress: Option<Ingress>,
    otel: bool,
    prometheus: bool,
    cpuScheduling: Option<string>,
    gpuScheduling: Option<string>)

  datatype PlatformStatus = PlatformStatus(
    rayServiceName: string,
    vectorDbServiceName: string,
    rayServiceStatus: string,
    conditions: seq<Condition>)

  datatype Platform = Platform(meta: Meta, spec: PlatformSpec, status: PlatformStatus)

  datatype PlatformRef = PlatformRef(name: string, ns: string)

  datatype ServiceSpec = ServiceSpec(
    feature: Feature,
    version: string,
    platformRef: PlatformRef,
    serviceAccount: string,
    taskVolume: ObjectStorage,
    splunk: Splunk,
    vectorDbUrl: string,
    platformUrl: string,
    replicas: int,
    port: int,
    metrics: Metrics,
    mtls: Mtls,
    pullSecrets: seq<string>,
    clusterDomain: string,
    requests: map<string, string>,
    limits: map<string, string>)

  datatype ServiceStatus = ServiceStatus(schemaJobId: string, conditions: seq<Condition>)

  /** An AIService. */
  datatype Service = Service(meta: Meta, spec: ServiceSpec, status: ServiceStatus)

  // ---- objects the controllers create ---------------------------------------------------

  /** A condition of a Job or Certificate, reduced to what the operator reads. */
  datatype Flag = Flag(kind: string, isTrue: bool)

  datatype Job = Job(flags: seq<Flag>)

  datatype Certificate = Certificate(secretName: string, issuerName: string, dnsNames: seq<string>, flags: seq<Flag>)

  datatype Deployment = Deployment(
    selector: Option<map<string, string>>,
    podLabels: map<string, string>,
    labels: map<string, string>,
    annotations: map<string, string>,
    replicas: int,
    serviceAccount: string,
    tls: Option<string>)

  datatype Claim = Claim(size: string, storageClass: string)

  datatype StatefulSet = StatefulSet(
    selector: map<string, string>,
    serviceName: string,
    claims: seq<Claim>,
    podLabels: map<string, string>,
    pvc: Option<string>,
    replicas: int,
    readyReplicas: int)

  /** One namespace of the API server. */
  datatype Store = Store(
    ns: string,
    uids: nat,
    platforms: map<string, Platform>,
    services: map<string, Service>,
    jobs: map<string, Job>,
    deployments: map<string, Deployment>,
    statefulSets: map<string, StatefulSet>,
    certificates: map<string, Certificate>,
    serviceAccounts: set<string>)

  /** The client calls that can fail on their own, whatever the stored state. */
  datatype Call = ListChildren | UpsertChild(child: string) | DeleteChild(child: string) | UpdateSpec | EnsureAccount
                | EnsureCertificate | GetJob | EnsureJob | EnsureDeployment
                | WeaviateAccount | WeaviateSet | WeaviateService | GetStatefulSet

  /** No stored object is deleting without a finalizer that holds it. */
  predicate NoZombies(s: Store) {
    && (forall n :: n in s.services && s.services[n].meta.deleting ==> s.services[n].meta.finalizers != [])
    && (forall n :: n in s.platforms && s.platforms[n].meta.deleting ==> s.platforms[n].meta.finalizers != [])
  }

  /** The field index behind MatchingFields{".metadata.controller": platform}. */
  predicate OwnedBy(c: Service, platform: string) {
    c.meta.controller == Some(PlatformOwner(platform))
  }

  function Owned(s: Store, platform: string): set<string> {
    set n | n in s.services && OwnedBy(s.services[n], platform)
  }

  /** SetControllerReference refuses an object that another owner controls. */
  predicate Claimable(m: Meta, owner: Owner) {
    m.controller == None || m.controller == Some(owner)
  }
}
