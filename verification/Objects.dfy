/** The Kubernetes objects the operator reads and writes, reduced to the fields its logic uses. */
module Objects {
  import opened Options

  /** A namespaced name. */
  datatype Key = Key(ns: string, name: string)

  type Labels = map<string, string>

  /** The label that ties an object to its workbench, and the operator's finalizer. */
  const LABEL := "workbench"
  const FINALIZER := "default.k8s.chorus-tre.ch/finalizer"

  predicate Matches(labels: Labels, selector: Labels) {
    forall k | k in selector :: k in labels && labels[k] == selector[k]
  }

  predicate Labelled(labels: Labels, name: string) {
    LABEL in labels && labels[LABEL] == name
  }

  // ------------------------------------------------------------- workbench

  datatype AppState = Unset | Running | Stopped | Killed

  datatype Image = Image(registry: string, repository: string, tag: string)

  /** Amounts by resource name: processors in thousandths, memory and storage in bytes. */
  type Amounts = map<string, int>

  datatype Requirements = Requirements(limits: Option<Amounts>, requests: Option<Amounts>)

  datatype App = App(
    name: string,
    version: string,
    state: AppState,
    image: Option<Image>,
    shm: Option<int>,
    resources: Option<Requirements>)

  datatype StorageConfig = StorageConfig(s3: bool, nfs: bool, local: bool)

  datatype Spec = Spec(
    apps: map<string, App>,
    user: string,
    serverVersion: string,
    initVersion: string,
    storage: Option<StorageConfig>)

  datatype PodPhase = Waiting | Starting | Ready | Failing | Restarting | Terminating | Terminated | Unknown

  /** The human-readable health message, kept as an opaque value. */
  datatype Message =
    | Text(text: string)
    | InitWaiting(reason: string, detail: string)
    | InitFailed(code: int, reason: string, detail: string)
    | ServerWaiting(reason: string)
    | ServerTerminated(reason: string)
    | ServerRestarted(times: int)

  datatype PodHealth = PodHealth(status: PodPhase, ready: bool, restarts: int, message: Message)

  datatype ServerPhase = Blank | Running | Progressing | Failed

  datatype ServerStatus = ServerStatus(revision: int, status: ServerPhase, pod: Option<PodHealth>)

  datatype AppPhase = Blank | Unknown | Running | Complete | Progressing | Failed

  datatype AppStatus = AppStatus(revision: int, status: AppPhase)

  datatype Status = Status(server: ServerStatus, apps: map<string, AppStatus>)

  const FRESH_STATUS := Status(ServerStatus(0, ServerPhase.Blank, None), map[])

  datatype Workbench = Workbench(deleting: bool, finalizers: set<string>, spec: Spec, status: Status)

  // ------------------------------------------------------------- workloads

  datatype VolumeSource =
    | EmptyDir
    | SharedMemory(limit: int)
    | ClaimSource(claim: string)
    | NfsSource(server: string, share: string)
    | HostSource(path: string)

  datatype PodVolume = PodVolume(name: string, source: VolumeSource)

  datatype Mount = Mount(volume: string, path: string, subPath: string)

  datatype Resources = Resources(limits: Amounts, requests: Amounts)

  const UNLIMITED := Resources(map[], map[])

  const KI := 1024
  const MI := 1024 * KI
  const GI := 1024 * MI

  datatype Container = Container(name: string, image: string, mounts: seq<Mount>, resources: Resources)

  datatype PodSpec = PodSpec(hostname: string, volumes: seq<PodVolume>, init: seq<Container>, main: seq<Container>)

  datatype JobStatus = JobStatus(active: int, ready: Option<int>, succeeded: int)

  const NEW_JOB_STATUS := JobStatus(0, None, 0)

  datatype Job = Job(labels: Labels, suspend: Option<bool>, pod: PodSpec, status: JobStatus)

  datatype Condition = Condition(kind: string, status: string, reason: string)

  datatype Deployment = Deployment(
    labels: Labels,
    selector: Labels,
    init: seq<Container>,
    main: seq<Container>,
    revision: Option<string>,
    conditions: seq<Condition>)

  datatype Detail = Detail(reason: string, message: string, code: int)

  /** The three optional members of a container state; `running` holds the start time in seconds. */
  datatype ContainerState = ContainerState(waiting: Option<Detail>, running: Option<int>, terminated: Option<Detail>)

  datatype ContainerStatus = ContainerStatus(name: string, ready: bool, restarts: int, state: ContainerState)

  datatype Pod = Pod(
    ns: string,
    labels: Labels,
    created: int,
    deleting: bool,
    init: seq<ContainerStatus>,
    main: seq<ContainerStatus>)

  // --------------------------------------------------------------- storage

  datatype PersistentVolume =
    | CsiVolume(driver: string, handle: string, attributes: map<string, string>, secret: Option<Key>)
    | HostVolume(path: string, ns: string)

  datatype Claim = Claim(labels: Labels, volumeName: string)

  // ---------------------------------------------------------------- config

  datatype Config = Config(
    localEnabled: bool,
    hostPath: string,
    juicefsSecret: Key,
    nfsSecret: Key,
    serverImage: string,
    sidecarImage: string,
    initImage: string)
}
