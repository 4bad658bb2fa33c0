/**
 What one reconcile pass does, as a function of the world it starts in and of the choices Go leaves
 open: the iteration order of the app map and the order of a job listing.
 */
module Controller {
  import opened Options
  import opened Objects
  import opened Api
  import opened StatusUpdates
  import Deployments
  import Jobs
  import Storage

  datatype Verdict = Done | Requeue(seconds: nat) | Error

  /** A pass under way: `end` is set once it returned. */
  datatype Pass = Pass(w: World, mem: Memory, end: Option<Verdict>)

  datatype Choice = Choice(apps: seq<string>, jobs: seq<Key>, images: Jobs.Images, now: int)

  // -------------------------------------------------------------- deletion

  function DeleteJobsOf(w: World, id: Key): Step<Option<nat>> {
    var list := ListJobs(id.name);
    var w1 := After(w, list);
    var listed := ListedJobs(Snapshot(w), id.name);
    if !Ok(w, list) then Step(w1, None)
    else if listed == {} then Step(w1, Some(0))
    else
      var delete := DeleteJobs(id.ns, id.name);
      Step(After(w1, delete), if Ok(w1, delete) then Some(|listed|) else None)
  }

  function DeleteDeploymentsOf(w: World, id: Key): Step<Option<nat>> {
    var list := ListDeployments(id.name);
    var w1 := After(w, list);
    var listed := ListedDeployments(Snapshot(w), id.name);
    if !Ok(w, list) then Step(w1, None)
    else if listed == {} then Step(w1, Some(0))
    else
      var delete := DeleteDeployments(id.ns, id.name);
      Step(After(w1, delete), if Ok(w1, delete) then Some(|listed|) else None)
  }

  /** First the applications, then the server; the count of what was asked to go, none on error. */
  function DeleteExternal(w: World, id: Key): Step<Option<nat>> {
    var jobs := DeleteJobsOf(w, id);
    if jobs.value != Some(0) then jobs else DeleteDeploymentsOf(jobs.w, id)
  }

  function Teardown(w: World, mem: Memory): Pass {
    if FINALIZER !in mem.now.finalizers then Pass(w, mem, Some(Done))
    else
      var deleted := DeleteExternal(w, mem.id);
      if deleted.value.None? then Pass(deleted.w, mem, Some(Error))
      else if deleted.value.value > 0 then Pass(deleted.w, mem, Some(Requeue(5)))
      else
        var next := mem.now.(finalizers := mem.now.finalizers - {FINALIZER});
        var op := UpdateWorkbench(mem.id, mem.read, next);
        Pass(After(deleted.w, op), mem.(now := next), Some(if Ok(deleted.w, op) then Done else Error))
  }

  // ---------------------------------------------------------------- server

  function EnsureFinalizer(w: World, mem: Memory): Pass {
    if FINALIZER in mem.now.finalizers then Pass(w, mem, None)
    else
      var next := mem.now.(finalizers := mem.now.finalizers + {FINALIZER});
      var op := UpdateWorkbench(mem.id, mem.read, next);
      var stored := next.(status := mem.read.status);
      if Ok(w, op) then Pass(After(w, op), Memory(mem.id, stored, stored), None)
      else Pass(After(w, op), mem.(now := next), Some(Error))
  }

  /** Writes the status; a failure is only logged. */
  function PushStatus(p: Pass): Pass {
    var op := UpdateStatus(p.mem.id, p.mem.read, p.mem.now);
    var stored := p.mem.read.(status := p.mem.now.status);
    p.(w := After(p.w, op), mem := if Ok(p.w, op) then Memory(p.mem.id, stored, stored) else p.mem)
  }

  function PushIf(p: Pass, changed: bool): Pass {
    if changed then PushStatus(p) else p
  }

  function WithServer(mem: Memory, server: ServerStatus): Memory {
    mem.(now := mem.now.(status := mem.now.status.(server := server)))
  }

  function WithApps(mem: Memory, apps: map<string, AppStatus>): Memory {
    mem.(now := mem.now.(status := mem.now.status.(apps := apps)))
  }

  function EnsureDeployment(w: World, key: Key, model: Deployment): Step<Option<Deployment>> {
    var get := GetDeployment(key);
    var w1 := After(w, get);
    if !Ok(w, get) then Step(w1, None)
    else if key in Snapshot(w).deployments then Step(w1, Some(Snapshot(w).deployments[key]))
    else
      var create := CreateDeployment(key, model);
      Step(After(w1, create), if Ok(w1, create) then Some(model) else None)
  }

  function SelectPods(pods: seq<Pod>, ns: string, selector: Labels): seq<Pod> {
    if pods == [] then []
    else
      (if pods[0].ns == ns && Matches(pods[0].labels, selector) then [pods[0]] else []) +
      SelectPods(pods[1..], ns, selector)
  }

  function ObserveHealth(w: World, ns: string, selector: Labels, now: int): Step<PodHealth> {
    var op := ListPods(ns, selector);
    Step(After(w, op),
         if Ok(w, op) then PodsHealth(SelectPods(Snapshot(w).pods, ns, selector), now)
         else Unhealthy(PodPhase.Unknown, "Failed to list pods"))
  }

  function Observe(p: Pass, d: Deployment, now: int): Pass {
    var (server, moved) := FromDeployment(p.mem.now.status.server, d);
    var health := ObserveHealth(p.w, p.mem.id.ns, d.selector, now);
    var (server', changed) := FromHealth(server, health.value);
    PushIf(Pass(health.w, WithServer(p.mem, server'), None), moved || changed)
  }

  /** Makes the found deployment like the model; an empty container list panics. */
  function Correct(p: Pass, key: Key, model: Deployment, found: Deployment): Pass
    requires |model.main| == |model.init| == 1
  {
    match Deployments.Update(model, found)
    case None => p.(end := Some(Error))
    case Some((next, updated)) =>
      if !updated then p
      else
        var op := UpdateDeployment(key, found, next);
        p.(w := After(p.w, op), end := if Ok(p.w, op) then None else Some(Error))
  }

  /** Without a deployment the pass goes on with the health it last recorded. */
  function Server(p: Pass, config: Config, now: int): Pass {
    var key := Deployments.DeploymentKey(p.mem.id);
    var model := Deployments.InitDeployment(p.mem.id, p.mem.now.spec, config);
    var found := EnsureDeployment(p.w, key, model);
    if found.value.None? then p.(w := found.w)
    else Correct(Observe(p.(w := found.w), found.value.value, now), key, model, found.value.value)
  }

  function Service(p: Pass): Pass {
    var get := GetService(p.mem.id);
    var w1 := After(p.w, get);
    if !Ok(p.w, get) then p.(w := w1, end := Some(Error))
    else if p.mem.id in Snapshot(p.w).services then p.(w := w1)
    else
      var create := CreateService(p.mem.id);
      p.(w := After(w1, create), end := if Ok(w1, create) then None else Some(Error))
  }

  function Provision(p: Pass, config: Config): Pass {
    p.(w := Storage.Process(p.w, config, p.mem.id, Storage.EnabledProviders(config, p.mem.now.spec)).w)
  }

  // ------------------------------------------------------------------ apps

  predicate ServerReady(mem: Memory) {
    mem.now.status.server.pod.Some? && mem.now.status.server.pod.value.ready
  }

  datatype Created = CreateFailed | CreateSkipped | CreatedNow | Existing(job: Job)

  /** Creates a missing job, unless it is wanted suspended; returns one that exists. */
  function CreateMissing(w: World, key: Key, job: Job): Step<Created> {
    var get := GetJob(key);
    var w1 := After(w, get);
    if !Ok(w, get) then Step(w1, CreateFailed)
    else if key in Snapshot(w).jobs then Step(w1, Existing(Snapshot(w).jobs[key]))
    else if job.suspend == Some(true) then Step(w1, CreateSkipped)
    else
      var create := CreateJob(key, job);
      Step(After(w1, create), if Ok(w1, create) then CreatedNow else CreateFailed)
  }

  /** The app loop: the pass so far and the job names found or created. */
  datatype Apps = Apps(p: Pass, found: seq<string>)

  /** An existing job: its status is recorded, then its suspension corrected. */
  function Adopt(p: Pass, uid: string, key: Key, job: Job, existing: Job): Pass {
    var (apps, changed) := FromJob(p.mem.now.status.apps, p.mem.now.spec, uid, existing);
    var pushed := PushIf(p.(mem := WithApps(p.mem, apps)), changed);
    var (next, updated) := Jobs.Update(job, existing);
    if !updated then pushed
    else
      var op := UpdateJob(key, existing, next);
      pushed.(w := After(pushed.w, op), end := if Ok(pushed.w, op) then None else Some(Error))
  }

  function MarkFailed(p: Pass, uid: string): Pass {
    var (apps, changed) := FromFailure(p.mem.now.status.apps, uid);
    PushIf(p.(mem := WithApps(p.mem, apps)), changed)
  }

  /** One app, once its job is built or found impossible. */
  function HandleApp(a: Apps, uid: string, key: Key, job: Step<Option<Job>>): Apps {
    if job.value.None? then a.(p := MarkFailed(a.p.(w := job.w), uid))
    else
      var created := CreateMissing(job.w, key, job.value.value);
      var p := a.p.(w := created.w);
      match created.value
      case CreateFailed => a.(p := p.(end := Some(Error)))
      case CreateSkipped => a.(p := p)
      case CreatedNow => Apps(p, a.found + [key.name])
      case Existing(existing) => Apps(Adopt(p, uid, key, job.value.value, existing), a.found + [key.name])
  }

  function AppStep(a: Apps, config: Config, images: Jobs.Images, uid: string): Apps {
    if a.p.end.Some? || uid !in a.p.mem.now.spec.apps then a
    else
      var id, spec := a.p.mem.id, a.p.mem.now.spec;
      var app := spec.apps[uid];
      HandleApp(a, uid, Jobs.JobKey(id, uid, app), Jobs.InitJob(a.p.w, id, config, spec, images, app))
  }

  function AppLoop(a: Apps, config: Config, images: Jobs.Images, order: seq<string>): Apps {
    if order == [] then a
    else
      var n := |order| - 1;
      AppStep(AppLoop(a, config, images, order[..n]), config, images, order[n])
  }

  // ----------------------------------------------------------------- sweep

  function SweepStep(p: Pass, found: seq<string>, listed: set<Key>, key: Key): Pass {
    if p.end.Some? || key !in listed || key.name in found then p
    else
      var op := DeleteJob(key);
      p.(w := After(p.w, op), end := if Ok(p.w, op) then None else Some(Error))
  }

  function SweepLoop(p: Pass, found: seq<string>, listed: set<Key>, order: seq<Key>): Pass {
    if order == [] then p
    else
      var n := |order| - 1;
      SweepStep(SweepLoop(p, found, listed, order[..n]), found, listed, order[n])
  }

  /** Deletes every listed job whose name was not found. */
  function Sweep(p: Pass, found: seq<string>, order: seq<Key>): Pass {
    var op := ListJobs(p.mem.id.name);
    var listed := ListedJobs(Snapshot(p.w), p.mem.id.name);
    if !Ok(p.w, op) then p.(w := After(p.w, op), end := Some(Error))
    else SweepLoop(p.(w := After(p.w, op)), found, listed, order)
  }

  function Applications(p: Pass, config: Config, choice: Choice): Pass {
    if !ServerReady(p.mem) then p.(end := Some(Requeue(2)))
    else
      var a := AppLoop(Apps(p, []), config, choice.images, choice.apps);
      if a.p.end.Some? then a.p else Sweep(a.p, a.found, choice.jobs)
  }

  // ------------------------------------------------------------------ pass

  /** The part of a pass between the server and the applications. */
  function Prepare(p: Pass, config: Config): Pass {
    var served := Service(p);
    if served.end.Some? then served else Provision(served, config)
  }

  /** The part of a pass up to the readiness gate, from the finalizer on. */
  function UpToGate(w: World, mem: Memory, config: Config, now: int): Pass {
    var kept := EnsureFinalizer(w, mem);
    if kept.end.Some? then kept
    else
      var server := Server(kept, config, now);
      if server.end.Some? then server else Prepare(server, config)
  }

  function AfterServer(server: Pass, config: Config, choice: Choice): Pass {
    if server.end.Some? then server
    else
      var prepared := Prepare(server, config);
      if prepared.end.Some? then prepared else Applications(prepared, config, choice)
  }

  function AfterFinalizer(kept: Pass, config: Config, choice: Choice): Pass {
    AfterServer(Server(kept, config, choice.now), config, choice)
  }

  function Converge(w: World, mem: Memory, config: Config, choice: Choice): Pass {
    var kept := EnsureFinalizer(w, mem);
    if kept.end.Some? then kept else AfterFinalizer(kept, config, choice)
  }

  /** The end of a pass; `mem` is what it held in memory, if it got hold of the workbench. */
  datatype Finished = Finished(w: World, verdict: Verdict, mem: Option<Memory>)

  function Finish(p: Pass): Finished {
    Finished(p.w, if p.end.Some? then p.end.value else Done, Some(p.mem))
  }

  function Reconcile(w: World, id: Key, config: Config, choice: Choice): Finished {
    var get := GetWorkbench(id);
    var w1 := After(w, get);
    if !Ok(w, get) then Finished(w1, Error, None)
    else if id !in Snapshot(w).workbenches then Finished(w1, Done, None)
    else
      var wb := Snapshot(w).workbenches[id];
      var mem := Memory(id, wb, wb);
      Finish(if wb.deleting then Teardown(w1, mem) else Converge(w1, mem, config, choice))
  }
}
