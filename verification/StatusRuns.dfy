/**
 The app statuses over whole runs, under any failures: every entry says something definite, its key was a
 key of the spec at some earlier moment, and no request makes a key disappear.
 */
module StatusRuns {
  import opened Options
  import opened Objects
  import opened Api
  import opened StatusUpdates
  import opened Controller
  import opened Traces
  import opened Safety
  import Deployments
  import Jobs
  import Storage

  predicate Definite(phase: AppPhase) {
    phase.Running? || phase.Progressing? || phase.Complete? || phase.Failed?
  }

  predicate GoodApps(apps: map<string, AppStatus>) {
    forall uid | uid in apps :: Definite(apps[uid].status)
  }

  /** The app entries stored for `id`; none when it does not exist. */
  function StoredApps(c: Cluster, id: Key): map<string, AppStatus> {
    if id in c.workbenches then c.workbenches[id].status.apps else map[]
  }

  /** `uid` was in the spec of `id` when one of the first `n` requests was served. */
  ghost predicate WasInSpec(log: seq<Event>, n: nat, id: Key, uid: string) {
    exists j | 0 <= j < n && j < |log| ::
      id in log[j].before.workbenches && uid in log[j].before.workbenches[id].spec.apps
  }

  ghost predicate AllWereInSpec(log: seq<Event>, n: nat, id: Key, apps: map<string, AppStatus>) {
    forall uid | uid in apps :: WasInSpec(log, n, id, uid)
  }

  /** The `i`-th request and its surroundings: definite entries only, with keys that were in the spec by then,
      and as long as the workbench exists none of its keys is lost. */
  ghost predicate GoodEvent(log: seq<Event>, i: nat, id: Key)
    requires i < |log|
  {
    var before, after := StoredApps(log[i].before, id), StoredApps(log[i].after, id);
    && GoodApps(before) && GoodApps(after)
    && AllWereInSpec(log, i, id, before) && AllWereInSpec(log, i + 1, id, after)
    && (id in log[i].after.workbenches ==> before.Keys <= after.Keys)
  }

  ghost predicate StatusTrace(w: World, id: Key) {
    && GoodApps(StoredApps(w.cluster, id)) && AllWereInSpec(w.log, |w.log|, id, StoredApps(w.cluster, id))
    && forall i | 0 <= i < |w.log| :: GoodEvent(w.log, i, id)
  }

  lemma ActStored(c: Cluster, step: EnvStep, id: Key)
    ensures StoredApps(Act(c, step), id) == map[] || StoredApps(Act(c, step), id) == StoredApps(c, id)
  {
  }

  lemma {:induction false} EnvironmentStored(c: Cluster, steps: seq<EnvStep>, id: Key)
    ensures StoredApps(Environment(c, steps), id) == map[] || StoredApps(Environment(c, steps), id) == StoredApps(c, id)
    decreases |steps|
  {
    if steps != [] {
      ActStored(c, steps[0], id);
      EnvironmentStored(Act(c, steps[0]), steps[1..], id);
    }
  }

  /** A status that the pass may write: definite, losing no key of the version it read. */
  ghost predicate GoodWrite(op: Op, log: seq<Event>, id: Key) {
    op.UpdateStatus? && op.id == id ==>
      && GoodApps(op.next.status.apps) && op.read.status.apps.Keys <= op.next.status.apps.Keys
      && AllWereInSpec(log, |log|, id, op.next.status.apps)
  }

  lemma ApplyStored(c: Cluster, op: Op, spared: set<Key>, id: Key)
    requires Accepts(c, op)
    ensures var d := Apply(c, op, spared);
      if op.UpdateStatus? && op.id == id then
        id in d.workbenches && StoredApps(d, id) == op.next.status.apps && StoredApps(c, id) == op.read.status.apps
      else id in d.workbenches ==> StoredApps(d, id) == StoredApps(c, id)
  {
  }

  lemma WasMonotone(log: seq<Event>, n: nat, e: Event, id: Key)
    requires n <= |log|
    ensures forall uid :: WasInSpec(log, n, id, uid) ==>
      WasInSpec(log + [e], n, id, uid) && WasInSpec(log + [e], n + 1, id, uid)
  {
    forall uid | WasInSpec(log, n, id, uid)
      ensures WasInSpec(log + [e], n, id, uid) && WasInSpec(log + [e], n + 1, id, uid)
    {
      var j :| 0 <= j < n && j < |log| && id in log[j].before.workbenches
        && uid in log[j].before.workbenches[id].spec.apps;
      assert (log + [e])[j] == log[j];
    }
  }

  lemma GoodEventMonotone(log: seq<Event>, i: nat, e: Event, id: Key)
    requires i < |log| && GoodEvent(log, i, id)
    ensures GoodEvent(log + [e], i, id)
  {
    WasMonotone(log, i, e, id);
    WasMonotone(log, i + 1, e, id);
    assert (log + [e])[i] == log[i];
  }

  lemma StoredCall(w: World, op: Op, id: Key)
    requires StatusTrace(w, id) && GoodWrite(op, w.log, id)
    ensures var c, d := Snapshot(w), After(w, op).cluster;
      && GoodApps(StoredApps(c, id)) && GoodApps(StoredApps(d, id))
      && AllWereInSpec(w.log, |w.log|, id, StoredApps(c, id)) && AllWereInSpec(w.log, |w.log|, id, StoredApps(d, id))
      && (id in d.workbenches ==> StoredApps(c, id).Keys <= StoredApps(d, id).Keys)
  {
    var tick := NextTick(w);
    EnvironmentStored(w.cluster, tick.env, id);
    if Outcome(w, op) != Snapshot(w) {
      ApplyStored(Snapshot(w), op, if tick.fault.Lost? then tick.fault.spared else {}, id);
    }
  }

  lemma StatusCall(w: World, op: Op, id: Key)
    requires StatusTrace(w, id) && GoodWrite(op, w.log, id)
    ensures StatusTrace(After(w, op), id)
    ensures forall uid :: WasInSpec(w.log, |w.log|, id, uid) ==>
      WasInSpec(After(w, op).log, |After(w, op).log|, id, uid)
  {
    var v := After(w, op);
    var n, e := |w.log|, Event(op, Snapshot(w), v.cluster, Ok(w, op));
    StoredCall(w, op, id);
    WasMonotone(w.log, n, e, id);
    assert v.log == w.log + [e];
    forall i | 0 <= i < |v.log| ensures GoodEvent(v.log, i, id) {
      if i < n {
        GoodEventMonotone(w.log, i, e, id);
      } else {
        assert v.log[i] == e;
      }
    }
  }

  // --------------------------------------------------------------- memory

  /** The pass's memory is fit to be written. */
  ghost predicate GoodMemory(log: seq<Event>, mem: Memory) {
    && GoodApps(mem.now.status.apps) && mem.read.status.apps.Keys <= mem.now.status.apps.Keys
    && AllWereInSpec(log, |log|, mem.id, mem.now.status.apps)
    && mem.now.spec == mem.read.spec && forall uid | uid in mem.now.spec.apps :: WasInSpec(log, |log|, mem.id, uid)
  }

  ghost predicate Fit(p: Pass) { StatusTrace(p.w, p.mem.id) && GoodMemory(p.w.log, p.mem) }

  /** The invariant of the phases that do not write the status of `mem.id`. */
  ghost function Keeping(mem: Memory): World -> bool {
    (x: World) => StatusTrace(x, mem.id) && GoodMemory(x.log, mem)
  }

  lemma KeepingCall(x: World, mem: Memory, op: Op)
    requires Keeping(mem)(x) && !op.UpdateStatus?
    ensures Keeping(mem)(After(x, op))
  {
    StatusCall(x, op, mem.id);
  }

  lemma KeepingKept(mem: Memory)
    ensures KeptByServer(Keeping(mem), mem.id) && Storage.KeptByTurns(Keeping(mem), mem.id)
      && KeptByApps(Keeping(mem), mem.id)
  {
    forall x, op | Keeping(mem)(x) && (ServerOp(op, mem.id) || Storage.TurnOp(op, mem.id) || AppOp(op, mem.id))
      ensures Keeping(mem)(After(x, op))
    {
      KeepingCall(x, mem, op);
    }
  }

  lemma FitPush(p: Pass, changed: bool)
    requires Fit(p)
    ensures Fit(PushIf(p, changed)) && PushIf(p, changed).mem.id == p.mem.id
    ensures PushIf(p, changed).mem.now.spec == p.mem.now.spec && PushIf(p, changed).end == p.end
  {
    StatusCall(p.w, UpdateStatus(p.mem.id, p.mem.read, p.mem.now), p.mem.id);
  }

  lemma FitServer(p: Pass, config: Config, now: int)
    requires Fit(p) && p.end.None?
    ensures Fit(Server(p, config, now)) && Server(p, config, now).mem.id == p.mem.id
  {
    KeepingKept(p.mem);
    var key := Deployments.DeploymentKey(p.mem.id);
    var model := Deployments.InitDeployment(p.mem.id, p.mem.now.spec, config);
    EnsureDeploymentKeeps(p.w, p.mem.id, model, Keeping(p.mem));
    var found := EnsureDeployment(p.w, key, model);
    if found.value.Some? {
      FitObserve(p.(w := found.w), found.value.value, now);
      var o := Observe(p.(w := found.w), found.value.value, now);
      KeepingKept(o.mem);
      CorrectKeeps(o, model, found.value.value, Keeping(o.mem));
    }
  }

  lemma FitObserve(p: Pass, d: Deployment, now: int)
    requires Fit(p)
    ensures Fit(Observe(p, d, now)) && Observe(p, d, now).mem.id == p.mem.id
  {
    var (server, moved) := FromDeployment(p.mem.now.status.server, d);
    KeepingCall(p.w, p.mem, ListPods(p.mem.id.ns, d.selector));
    var health := ObserveHealth(p.w, p.mem.id.ns, d.selector, now);
    var (server', changed) := FromHealth(server, health.value);
    FitPush(Pass(health.w, WithServer(p.mem, server'), None), moved || changed);
  }

  lemma GoodFromJob(apps: map<string, AppStatus>, spec: Spec, uid: string, job: Job)
    requires GoodApps(apps) && uid in spec.apps
    ensures GoodApps(FromJob(apps, spec, uid, job).0)
    ensures apps.Keys <= FromJob(apps, spec, uid, job).0.Keys <= apps.Keys + {uid}
  {
  }

  lemma GoodFromFailure(apps: map<string, AppStatus>, uid: string)
    requires GoodApps(apps)
    ensures GoodApps(FromFailure(apps, uid).0)
    ensures apps.Keys <= FromFailure(apps, uid).0.Keys <= apps.Keys + {uid}
  {
  }

  lemma FitApps(p: Pass, uid: string, apps: map<string, AppStatus>)
    requires Fit(p) && uid in p.mem.now.spec.apps && GoodApps(apps)
    requires p.mem.now.status.apps.Keys <= apps.Keys <= p.mem.now.status.apps.Keys + {uid}
    ensures Fit(p.(mem := WithApps(p.mem, apps)))
  {
  }

  lemma FitAdopt(p: Pass, uid: string, key: Key, job: Job, existing: Job)
    requires Fit(p) && uid in p.mem.now.spec.apps
    ensures var q := Adopt(p, uid, key, job, existing); Fit(q) && q.mem.id == p.mem.id
  {
    var (apps, changed) := FromJob(p.mem.now.status.apps, p.mem.now.spec, uid, existing);
    GoodFromJob(p.mem.now.status.apps, p.mem.now.spec, uid, existing);
    FitApps(p, uid, apps);
    FitPush(p.(mem := WithApps(p.mem, apps)), changed);
    var pushed := PushIf(p.(mem := WithApps(p.mem, apps)), changed);
    KeepingCall(pushed.w, pushed.mem, UpdateJob(key, existing, Jobs.Update(job, existing).0));
  }

  lemma FitFailed(p: Pass, uid: string)
    requires Fit(p) && uid in p.mem.now.spec.apps
    ensures Fit(MarkFailed(p, uid)) && MarkFailed(p, uid).mem.id == p.mem.id
  {
    var (apps, changed) := FromFailure(p.mem.now.status.apps, uid);
    GoodFromFailure(p.mem.now.status.apps, uid);
    FitApps(p, uid, apps);
    FitPush(p.(mem := WithApps(p.mem, apps)), changed);
  }

  lemma FitCreated(p: Pass, uid: string, key: Key, job: Job)
    requires Fit(p) && uid in p.mem.now.spec.apps
    requires key.ns == p.mem.id.ns && Labelled(job.labels, p.mem.id.name) && "app" !in job.labels
    ensures var created := CreateMissing(p.w, key, job);
      && Fit(p.(w := created.w))
      && (created.value.Existing? ==>
            var q := Adopt(p.(w := created.w), uid, key, job, created.value.job); Fit(q) && q.mem.id == p.mem.id)
  {
    KeepingKept(p.mem);
    CreateMissingKeeps(p.w, p.mem.id, key, job, Keeping(p.mem));
    var created := CreateMissing(p.w, key, job);
    if created.value.Existing? {
      FitAdopt(p.(w := created.w), uid, key, job, created.value.job);
    }
  }

  lemma FitInit(p: Pass, config: Config, images: Jobs.Images, app: App)
    requires Fit(p)
    ensures Fit(p.(w := Jobs.InitJob(p.w, p.mem.id, config, p.mem.now.spec, images, app).w))
  {
    KeepingKept(p.mem);
    InitJobKeeps(p.w, p.mem.id, config, p.mem.now.spec, images, app, Keeping(p.mem));
  }

  lemma FitHandled(a: Apps, uid: string, key: Key, job: Step<Option<Job>>)
    requires Fit(a.p.(w := job.w)) && uid in a.p.mem.now.spec.apps
    requires job.value.Some? ==>
      key.ns == a.p.mem.id.ns && Labelled(job.value.value.labels, a.p.mem.id.name) && "app" !in job.value.value.labels
    ensures var b := HandleApp(a, uid, key, job); Fit(b.p) && b.p.mem.id == a.p.mem.id
  {
    if job.value.None? {
      FitFailed(a.p.(w := job.w), uid);
    } else {
      FitCreated(a.p.(w := job.w), uid, key, job.value.value);
    }
  }

  lemma FitAppStep(a: Apps, config: Config, images: Jobs.Images, uid: string)
    requires Fit(a.p)
    ensures var b := AppStep(a, config, images, uid); Fit(b.p) && b.p.mem.id == a.p.mem.id
  {
    hide HandleApp, Fit;
    var id, spec := a.p.mem.id, a.p.mem.now.spec;
    if a.p.end.None? && uid in spec.apps {
      FitInit(a.p, config, images, spec.apps[uid]);
      var job := Jobs.InitJob(a.p.w, id, config, spec, images, spec.apps[uid]);
      FitHandled(a, uid, Jobs.JobKey(id, uid, spec.apps[uid]), job);
    }
  }

  lemma {:induction false} FitAppLoop(a: Apps, config: Config, images: Jobs.Images, order: seq<string>)
    requires Fit(a.p)
    ensures var b := AppLoop(a, config, images, order); Fit(b.p) && b.p.mem.id == a.p.mem.id
    decreases |order|
  {
    if order != [] {
      var n := |order| - 1;
      FitAppLoop(a, config, images, order[..n]);
      FitAppStep(AppLoop(a, config, images, order[..n]), config, images, order[n]);
    }
  }

  lemma FitApplications(p: Pass, config: Config, choice: Choice)
    requires Fit(p)
    ensures Fit(Applications(p, config, choice)) && Applications(p, config, choice).mem.id == p.mem.id
  {
    FitAppLoop(Apps(p, []), config, choice.images, choice.apps);
    var a := AppLoop(Apps(p, []), config, choice.images, choice.apps);
    var list := ListJobs(a.p.mem.id.name);
    KeepingCall(a.p.w, a.p.mem, list);
    KeepingKept(a.p.mem);
    SweepLoopKeeps(a.p.(w := After(a.p.w, list)), a.found, ListedJobs(Snapshot(a.p.w), a.p.mem.id.name), choice.jobs,
                   Keeping(a.p.mem));
  }

  lemma FitActive(kept: Pass, config: Config, choice: Choice)
    requires Fit(kept) && kept.end.None?
    ensures StatusTrace(AfterFinalizer(kept, config, choice).w, kept.mem.id)
  {
    FitServer(kept, config, choice.now);
    var server := Server(kept, config, choice.now);
    if server.end.None? {
      KeepingKept(server.mem);
      PrepareKeeps(server, config, Keeping(server.mem));
      FitApplications(Prepare(server, config), config, choice);
    }
  }

  lemma TeardownStatus(w: World, mem: Memory, id: Key)
    requires StatusTrace(w, id)
    ensures StatusTrace(Teardown(w, mem).w, id)
  {
    var r := mem.id;
    StatusCall(w, ListJobs(r.name), id);
    StatusCall(After(w, ListJobs(r.name)), DeleteJobs(r.ns, r.name), id);
    var jobs := DeleteJobsOf(w, r);
    StatusCall(jobs.w, ListDeployments(r.name), id);
    StatusCall(After(jobs.w, ListDeployments(r.name)), DeleteDeployments(r.ns, r.name), id);
    StatusCall(DeleteExternal(w, r).w, UpdateWorkbench(r, mem.read,
      mem.now.(finalizers := mem.now.finalizers - {FINALIZER})), id);
  }

  /** A pass for another workbench never writes this one's status. */
  lemma OtherActive(kept: Pass, config: Config, choice: Choice, id: Key)
    requires StatusTrace(kept.w, id) && kept.end.None? && id != kept.mem.id
    ensures StatusTrace(AfterFinalizer(kept, config, choice).w, id)
  {
    var inv := (x: World) => StatusTrace(x, id);
    forall x, op | inv(x) && ActiveOp(op, kept.mem.id) ensures inv(After(x, op)) {
      StatusCall(x, op, id);
    }
    var r := kept.mem.id;
    assert KeptByServer(inv, r) && Storage.KeptByTurns(inv, r) && KeptByApps(inv, r) && KeptByPush(inv, r) by {
      assert forall op | ServerOp(op, r) :: ActiveOp(op, r);
      assert forall op | Storage.TurnOp(op, r) :: ActiveOp(op, r);
      assert forall op | AppOp(op, r) :: ActiveOp(op, r);
      assert forall op | PushOp(op, r) :: ActiveOp(op, r);
    }
    ActiveKeeps(kept, config, choice, inv);
  }

  lemma ReconcileStatus(w: World, req: Key, config: Config, choice: Choice, id: Key)
    requires StatusTrace(w, id)
    ensures StatusTrace(Reconcile(w, req, config, choice).w, id)
  {
    hide Teardown, AfterFinalizer;
    var get := GetWorkbench(req);
    StatusCall(w, get, id);
    if Ok(w, get) && req in Snapshot(w).workbenches {
      var wb := Snapshot(w).workbenches[req];
      var mem, w1 := Memory(req, wb, wb), After(w, get);
      TeardownStatus(w1, mem, id);
      var next := wb.(finalizers := wb.finalizers + {FINALIZER});
      StatusCall(w1, UpdateWorkbench(req, wb, next), id);
      var kept := EnsureFinalizer(w1, mem);
      if kept.end.None? {
        if id == req {
          Fetched(w, req);
          if FINALIZER !in wb.finalizers {
            KeepingCall(w1, kept.mem, UpdateWorkbench(req, wb, next));
          }
          FitActive(kept, config, choice);
        } else {
          OtherActive(kept, config, choice, id);
        }
      }
    }
  }

  /** A fetched workbench is fit to be written, before and after the finalizer is added. */
  lemma Fetched(w: World, id: Key)
    requires StatusTrace(w, id) && id in Snapshot(w).workbenches
    ensures var wb, log := Snapshot(w).workbenches[id], After(w, GetWorkbench(id)).log;
      && StatusTrace(After(w, GetWorkbench(id)), id) && GoodMemory(log, Memory(id, wb, wb))
      && forall fs: set<string> :: GoodMemory(log, Memory(id, wb.(finalizers := fs), wb.(finalizers := fs)))
  {
    StatusCall(w, GetWorkbench(id), id);
    var wb, log := Snapshot(w).workbenches[id], After(w, GetWorkbench(id)).log;
    assert log[|w.log|].before == Snapshot(w);
    assert forall uid | uid in wb.spec.apps :: WasInSpec(log, |log|, id, uid);
    assert GoodEvent(log, |w.log|, id);
    assert AllWereInSpec(log, |log|, id, wb.status.apps);
  }

  /** Over every run of the controller, under any failures and any interleaving with the environment. */
  lemma {:induction false} AppStatusInvariant(w: World, visits: seq<Visit>, id: Key)
    requires StatusTrace(w, id)
    ensures StatusTrace(Run(w, visits), id)
    decreases |visits|
  {
    if visits != [] {
      var n := |visits| - 1;
      AppStatusInvariant(w, visits[..n], id);
      var v := visits[n];
      ReconcileStatus(Run(w, visits[..n]).(script := v.script), v.id, v.config, v.choice, id);
    }
  }
}
