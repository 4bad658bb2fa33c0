/**
 The Kubernetes API server as the operator sees it.

 Every request consumes one `Tick` of a script. A tick says what the rest of the world did since the
 previous request and whether this request fails: it may be rejected, or it may take effect and lose
 its reply. An exhausted script is quiet: nobody else acts and nothing fails.

 A stored object's resource version is compared by content: a write names the version it read, and is
 refused when the stored object is no longer that one.
 */
module Api {
  import opened Objects

  datatype Cluster = Cluster(
    workbenches: map<Key, Workbench>,
    jobs: map<Key, Job>,
    deployments: map<Key, Deployment>,
    services: set<Key>,
    volumes: map<string, PersistentVolume>,
    claims: map<Key, Claim>,
    pods: seq<Pod>,
    secrets: map<Key, map<string, string>>,
    drivers: set<string>)

  /** What users, admins, the kubelet and the other controllers may do. They never touch the operator's
      finalizer or label, never write a workbench status, and leave volumes and claims to the operator. */
  datatype EnvStep =
    | CreateWorkbench(id: Key, spec: Spec)
    | EditSpec(id: Key, spec: Spec)
    | EditFinalizers(id: Key, finalizers: set<string>)
    | RequestDeletion(id: Key)
    | SetJobStatus(key: Key, status: JobStatus)
    | EditJob(key: Key, job: Job)
    | RemoveJob(key: Key)
    | PutJob(key: Key, job: Job)
    | EditDeployment(key: Key, deployment: Deployment)
    | RemoveDeployment(key: Key)
    | PutDeployment(key: Key, deployment: Deployment)
    | SetServices(services: set<Key>)
    | SetPods(pods: seq<Pod>)
    | SetSecrets(secrets: map<Key, map<string, string>>)
    | SetDrivers(drivers: set<string>)

  /** Labels as others may edit them: all but the operator's. */
  function Relabelled(labels: Labels, next: Labels): Labels {
    (next - {LABEL}) + if LABEL in labels then map[LABEL := labels[LABEL]] else map[]
  }

  /** Storing a workbench: one that is being deleted and has no finalizer left is removed. */
  function Stored(wbs: map<Key, Workbench>, id: Key, wb: Workbench): map<Key, Workbench> {
    if wb.deleting && wb.finalizers == {} then wbs - {id} else wbs[id := wb]
  }

  function Store(c: Cluster, id: Key, wb: Workbench): Cluster {
    c.(workbenches := Stored(c.workbenches, id, wb))
  }

  function ActOnWorkbenches(wbs: map<Key, Workbench>, step: EnvStep): map<Key, Workbench> {
    match step
    case CreateWorkbench(id, spec) =>
      if id in wbs then wbs else wbs[id := Workbench(false, {}, spec, FRESH_STATUS)]
    case EditSpec(id, spec) =>
      if id !in wbs then wbs else wbs[id := wbs[id].(spec := spec)]
    case EditFinalizers(id, finalizers) =>
      if id !in wbs then wbs
      else Stored(wbs, id, wbs[id].(finalizers := (finalizers - {FINALIZER}) + (wbs[id].finalizers * {FINALIZER})))
    case RequestDeletion(id) =>
      if id !in wbs then wbs else Stored(wbs, id, wbs[id].(deleting := true))
    case _ => wbs
  }

  function ActOnJobs(jobs: map<Key, Job>, step: EnvStep): map<Key, Job> {
    match step
    case SetJobStatus(key, status) => if key !in jobs then jobs else jobs[key := jobs[key].(status := status)]
    case EditJob(key, job) =>
      if key !in jobs then jobs else jobs[key := job.(labels := Relabelled(jobs[key].labels, job.labels))]
    case RemoveJob(key) => jobs - {key}
    case PutJob(key, job) => if key in jobs || LABEL in job.labels then jobs else jobs[key := job]
    case _ => jobs
  }

  function ActOnDeployments(deployments: map<Key, Deployment>, step: EnvStep): map<Key, Deployment> {
    match step
    case EditDeployment(key, deployment) =>
      if key !in deployments then deployments
      else deployments[key := deployment.(labels := Relabelled(deployments[key].labels, deployment.labels))]
    case RemoveDeployment(key) => deployments - {key}
    case PutDeployment(key, deployment) =>
      if key in deployments || LABEL in deployment.labels then deployments else deployments[key := deployment]
    case _ => deployments
  }

  function Act(c: Cluster, step: EnvStep): Cluster {
    c.(workbenches := ActOnWorkbenches(c.workbenches, step),
       jobs := ActOnJobs(c.jobs, step),
       deployments := ActOnDeployments(c.deployments, step),
       services := if step.SetServices? then step.services else c.services,
       pods := if step.SetPods? then step.pods else c.pods,
       secrets := if step.SetSecrets? then step.secrets else c.secrets,
       drivers := if step.SetDrivers? then step.drivers else c.drivers)
  }

  function Environment(c: Cluster, steps: seq<EnvStep>): Cluster
    decreases |steps|
  {
    if steps == [] then c else Environment(Act(c, steps[0]), steps[1..])
  }

  datatype Op =
    | GetWorkbench(id: Key)
    | UpdateWorkbench(id: Key, read: Workbench, next: Workbench)
    | UpdateStatus(id: Key, read: Workbench, next: Workbench)
    | GetDeployment(key: Key)
    | CreateDeployment(key: Key, deployment: Deployment)
    | UpdateDeployment(key: Key, prior: Deployment, deployment: Deployment)
    | ListDeployments(owner: string)
    | DeleteDeployments(ns: string, owner: string)
    | GetService(key: Key)
    | CreateService(key: Key)
    | ListPods(ns: string, selector: Labels)
    | GetDriver(name: string)
    | GetSecret(key: Key)
    | GetVolume(name: string)
    | CreateVolume(name: string, volume: PersistentVolume)
    | GetClaim(key: Key)
    | CreateClaim(key: Key, claim: Claim)
    | GetJob(key: Key)
    | CreateJob(key: Key, job: Job)
    | UpdateJob(key: Key, seen: Job, job: Job)
    | ListJobs(owner: string)
    | DeleteJob(key: Key)
    | DeleteJobs(ns: string, owner: string)

  /** Whether the server grants a well-formed request: creations need a free name, updates the version
      they read, a deletion an existing object. Reads are always answered. */
  predicate Accepts(c: Cluster, op: Op) {
    match op
    case UpdateWorkbench(id, read, _) => id in c.workbenches && c.workbenches[id] == read
    case UpdateStatus(id, read, _) => id in c.workbenches && c.workbenches[id] == read
    case CreateDeployment(key, _) => key !in c.deployments
    case UpdateDeployment(key, prior, _) => key in c.deployments && c.deployments[key] == prior
    case CreateService(key) => key !in c.services
    case CreateVolume(name, _) => name !in c.volumes
    case CreateClaim(key, _) => key !in c.claims
    case CreateJob(key, _) => key !in c.jobs
    case UpdateJob(key, seen, _) => key in c.jobs && c.jobs[key] == seen
    case DeleteJob(key) => key in c.jobs
    case _ => true
  }

  /** The keys of the jobs, in every namespace, whose label names a workbench called `owner`. */
  function ListedJobs(c: Cluster, owner: string): set<Key> {
    set k | k in c.jobs && Labelled(c.jobs[k].labels, owner)
  }

  function ListedDeployments(c: Cluster, owner: string): set<Key> {
    set k | k in c.deployments && Labelled(c.deployments[k].labels, owner)
  }

  /** The effect of a granted request. A collection deletion that lost its reply may have `spared` some
      objects. The status is a subresource: an update of the object leaves it alone, and an update of
      the status changes nothing else. */
  function Apply(c: Cluster, op: Op, spared: set<Key>): Cluster
    requires Accepts(c, op)
  {
    match op
    case UpdateWorkbench(id, read, next) => Store(c, id, next.(status := read.status))
    case UpdateStatus(id, read, next) =>
      c.(workbenches := c.workbenches[id := read.(status := next.status)])
    case CreateDeployment(key, deployment) => c.(deployments := c.deployments[key := deployment])
    case UpdateDeployment(key, _, deployment) => c.(deployments := c.deployments[key := deployment])
    case DeleteDeployments(ns, owner) =>
      c.(deployments := c.deployments -
        ((set k | k in ListedDeployments(c, owner) && k.ns == ns) - spared))
    case CreateService(key) => c.(services := c.services + {key})
    case CreateVolume(name, volume) => c.(volumes := c.volumes[name := volume])
    case CreateClaim(key, claim) => c.(claims := c.claims[key := claim])
    case CreateJob(key, job) => c.(jobs := c.jobs[key := job])
    case UpdateJob(key, _, job) => c.(jobs := c.jobs[key := job])
    case DeleteJob(key) => c.(jobs := c.jobs - {key})
    case DeleteJobs(ns, owner) =>
      c.(jobs := c.jobs - ((set k | k in ListedJobs(c, owner) && k.ns == ns) - spared))
    case _ => c
  }

  datatype Fault = NoFault | Rejected | Lost(spared: set<Key>)

  datatype Tick = Tick(env: seq<EnvStep>, fault: Fault)

  /** One served request: the cluster it met, the cluster it left, and whether the client saw success. */
  datatype Event = Event(op: Op, before: Cluster, after: Cluster, ok: bool)

  datatype World = World(cluster: Cluster, script: seq<Tick>, log: seq<Event>)

  function NextTick(w: World): Tick {
    if w.script == [] then Tick([], NoFault) else w.script[0]
  }

  /** The cluster that the next request of `w` meets. */
  function Snapshot(w: World): Cluster {
    Environment(w.cluster, NextTick(w).env)
  }

  /** Whether the client of `op` sees success. */
  predicate Ok(w: World, op: Op) {
    NextTick(w).fault.NoFault? && Accepts(Snapshot(w), op)
  }

  function Outcome(w: World, op: Op): Cluster {
    var c := Snapshot(w);
    if !Accepts(c, op) then c
    else
      match NextTick(w).fault
      case NoFault => Apply(c, op, {})
      case Rejected => c
      case Lost(spared) => Apply(c, op, spared)
  }

  /** The world after the request `op`. */
  function After(w: World, op: Op): World {
    World(Outcome(w, op),
          if w.script == [] then [] else w.script[1..],
          w.log + [Event(op, Snapshot(w), Outcome(w, op), Ok(w, op))])
  }

  /** A computation that issues requests. */
  datatype Step<+T> = Step(w: World, value: T)

  /** The client the reconciler holds. */
  class ApiServer {
    var world: World

    constructor (w: World)
      ensures world == w
    {
      world := w;
    }

    /** Issues one request; `view` is the cluster from which a read is answered. */
    method Call(op: Op) returns (ok: bool, view: Cluster)
      modifies this
      ensures world == After(old(world), op)
      ensures ok == Ok(old(world), op) && view == Snapshot(old(world))
    {
      ok, view := Ok(world, op), Snapshot(world);
      world := After(world, op);
    }
  }

  // --------------------------------------------------- reasoning about calls

  lemma {:induction false} EnvironmentKeeps(c: Cluster, steps: seq<EnvStep>, inv: Cluster -> bool)
    requires inv(c)
    requires forall d, s :: inv(d) ==> inv(Act(d, s))
    ensures inv(Environment(c, steps))
    decreases |steps|
  {
    if steps != [] {
      EnvironmentKeeps(Act(c, steps[0]), steps[1..], inv);
    }
  }

  predicate Quiet(w: World) { w.script == [] }

  lemma QuietCall(w: World, op: Op)
    requires Quiet(w)
    ensures Quiet(After(w, op)) && Snapshot(w) == w.cluster
    ensures Ok(w, op) == Accepts(w.cluster, op)
    ensures After(w, op).cluster == if Ok(w, op) then Apply(w.cluster, op, {}) else w.cluster
  {
  }
}
