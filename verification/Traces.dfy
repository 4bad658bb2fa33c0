/** Which requests each phase of a pass may issue, and what follows for invariants over worlds. */
module Traces {
  import opened Options
  import opened Objects
  import opened Api
  import opened StatusUpdates
  import opened Controller
  import Deployments
  import Jobs
  import Storage

  predicate ServerOp(op: Op, id: Key) {
    match op
    case GetDeployment(_) => true
    case CreateDeployment(key, d) => key.ns == id.ns && Labelled(d.labels, id.name)
    case UpdateDeployment(_, prior, next) => next.labels == prior.labels
    case ListPods(_, _) => true
    case GetService(_) => true
    case CreateService(_) => true
    case _ => false
  }

  predicate AppOp(op: Op, id: Key) {
    match op
    case GetSecret(_) => true
    case GetJob(_) => true
    case CreateJob(key, job) => key.ns == id.ns && Labelled(job.labels, id.name) && "app" !in job.labels
    case UpdateJob(_, seen, next) => next.labels == seen.labels
    case ListJobs(_) => true
    case DeleteJob(_) => true
    case _ => false
  }

  /** The status write of the pass for `id`. */
  predicate PushOp(op: Op, id: Key) { op.UpdateStatus? && op.id == id }

  ghost predicate KeptByPush(inv: World -> bool, id: Key) {
    forall x, op :: inv(x) && PushOp(op, id) ==> inv(After(x, op))
  }

  ghost predicate KeptByServer(inv: World -> bool, id: Key) {
    forall x, op :: inv(x) && ServerOp(op, id) ==> inv(After(x, op))
  }

  ghost predicate KeptByApps(inv: World -> bool, id: Key) {
    forall x, op :: inv(x) && AppOp(op, id) ==> inv(After(x, op))
  }

  lemma PushKeeps(p: Pass, changed: bool, inv: World -> bool)
    requires inv(p.w) && KeptByPush(inv, p.mem.id)
    ensures inv(PushIf(p, changed).w)
    ensures PushIf(p, changed).mem.id == p.mem.id && PushIf(p, changed).end == p.end
    ensures PushIf(p, changed).mem.now.spec == p.mem.now.spec || PushIf(p, changed).mem.now.spec == p.mem.read.spec
  {
  }

  lemma EnsureDeploymentKeeps(w: World, id: Key, model: Deployment, inv: World -> bool)
    requires inv(w) && KeptByServer(inv, id) && Labelled(model.labels, id.name)
    ensures inv(EnsureDeployment(w, Deployments.DeploymentKey(id), model).w)
  {
  }

  lemma ObserveKeeps(p: Pass, d: Deployment, now: int, inv: World -> bool)
    requires inv(p.w) && KeptByServer(inv, p.mem.id) && KeptByPush(inv, p.mem.id)
    ensures inv(Observe(p, d, now).w)
    ensures Observe(p, d, now).mem.id == p.mem.id && Observe(p, d, now).end.None?
  {
  }

  lemma CorrectKeeps(p: Pass, model: Deployment, found: Deployment, inv: World -> bool)
    requires |model.main| == |model.init| == 1
    requires inv(p.w) && KeptByServer(inv, p.mem.id)
    ensures inv(Correct(p, Deployments.DeploymentKey(p.mem.id), model, found).w)
    ensures Correct(p, Deployments.DeploymentKey(p.mem.id), model, found).mem == p.mem
  {
  }

  lemma ServerKeeps(p: Pass, config: Config, now: int, inv: World -> bool)
    requires inv(p.w) && KeptByServer(inv, p.mem.id) && KeptByPush(inv, p.mem.id)
    ensures inv(Server(p, config, now).w)
    ensures Server(p, config, now).mem.id == p.mem.id
  {
    var key := Deployments.DeploymentKey(p.mem.id);
    var model := Deployments.InitDeployment(p.mem.id, p.mem.now.spec, config);
    EnsureDeploymentKeeps(p.w, p.mem.id, model, inv);
    var found := EnsureDeployment(p.w, key, model);
    if found.value.Some? {
      ObserveKeeps(p.(w := found.w), found.value.value, now, inv);
      CorrectKeeps(Observe(p.(w := found.w), found.value.value, now), model, found.value.value, inv);
    }
  }

  lemma ServiceKeeps(p: Pass, inv: World -> bool)
    requires inv(p.w) && KeptByServer(inv, p.mem.id)
    ensures inv(Service(p).w)
    ensures Service(p).mem == p.mem
  {
  }

  lemma PrepareKeeps(p: Pass, config: Config, inv: World -> bool)
    requires inv(p.w) && KeptByServer(inv, p.mem.id) && Storage.KeptByTurns(inv, p.mem.id)
    ensures inv(Prepare(p, config).w)
    ensures Prepare(p, config).mem == p.mem
  {
    ServiceKeeps(p, inv);
    var s := Service(p);
    Storage.ProcessKeeps(s.w, config, p.mem.id, Storage.EnabledProviders(config, p.mem.now.spec), inv);
  }

  lemma InitJobKeeps(w: World, id: Key, config: Config, spec: Spec, images: Jobs.Images, app: App, inv: World -> bool)
    requires inv(w) && KeptByApps(inv, id)
    ensures inv(Jobs.InitJob(w, id, config, spec, images, app).w)
  {
    forall x, key | inv(x) ensures inv(After(x, GetSecret(key))) {
      assert AppOp(GetSecret(key), id);
    }
    Storage.ActiveKeeps(w, config, Storage.EnabledProviders(config, spec), inv);
  }

  lemma CreateMissingKeeps(w: World, id: Key, key: Key, job: Job, inv: World -> bool)
    requires inv(w) && KeptByApps(inv, id)
    requires key.ns == id.ns && Labelled(job.labels, id.name) && "app" !in job.labels
    ensures inv(CreateMissing(w, key, job).w)
  {
  }

  lemma AdoptKeeps(p: Pass, uid: string, key: Key, job: Job, existing: Job, inv: World -> bool)
    requires inv(p.w) && KeptByApps(inv, p.mem.id) && KeptByPush(inv, p.mem.id)
    ensures inv(Adopt(p, uid, key, job, existing).w)
    ensures Adopt(p, uid, key, job, existing).mem.id == p.mem.id
  {
  }

  lemma AppStepKeeps(a: Apps, config: Config, images: Jobs.Images, uid: string, inv: World -> bool)
    requires inv(a.p.w) && KeptByApps(inv, a.p.mem.id) && KeptByPush(inv, a.p.mem.id)
    ensures inv(AppStep(a, config, images, uid).p.w)
    ensures AppStep(a, config, images, uid).p.mem.id == a.p.mem.id
  {
    hide Adopt, CreateMissing, Jobs.PodFor, Jobs.Buildable;
    var id, spec := a.p.mem.id, a.p.mem.now.spec;
    if a.p.end.None? && uid in spec.apps {
      var app := spec.apps[uid];
      InitJobKeeps(a.p.w, id, config, spec, images, app, inv);
      var job := Jobs.InitJob(a.p.w, id, config, spec, images, app);
      if job.value.None? {
        var p := a.p.(w := job.w);
        var (apps, changed) := FromFailure(p.mem.now.status.apps, uid);
        PushKeeps(p.(mem := WithApps(p.mem, apps)), changed, inv);
      } else {
        var key := Jobs.JobKey(id, uid, app);
        CreateMissingKeeps(job.w, id, key, job.value.value, inv);
        var created := CreateMissing(job.w, key, job.value.value);
        if created.value.Existing? {
          AdoptKeeps(a.p.(w := created.w), uid, key, job.value.value, created.value.job, inv);
        }
      }
    }
  }

  lemma {:induction false} AppLoopKeeps(a: Apps, config: Config, images: Jobs.Images, order: seq<string>,
        inv: World -> bool)
    requires inv(a.p.w) && KeptByApps(inv, a.p.mem.id) && KeptByPush(inv, a.p.mem.id)
    ensures inv(AppLoop(a, config, images, order).p.w)
    ensures AppLoop(a, config, images, order).p.mem.id == a.p.mem.id
    decreases |order|
  {
    if order != [] {
      var n := |order| - 1;
      AppLoopKeeps(a, config, images, order[..n], inv);
      AppStepKeeps(AppLoop(a, config, images, order[..n]), config, images, order[n], inv);
    }
  }

  lemma {:induction false} SweepLoopKeeps(p: Pass, found: seq<string>, listed: set<Key>, order: seq<Key>,
        inv: World -> bool)
    requires inv(p.w) && KeptByApps(inv, p.mem.id)
    ensures inv(SweepLoop(p, found, listed, order).w)
    ensures SweepLoop(p, found, listed, order).mem == p.mem
    decreases |order|
  {
    if order != [] {
      var n := |order| - 1;
      SweepLoopKeeps(p, found, listed, order[..n], inv);
      assert AppOp(DeleteJob(order[n]), p.mem.id);
    }
  }

  lemma ApplicationsKeeps(p: Pass, config: Config, choice: Choice, inv: World -> bool)
    requires inv(p.w) && KeptByApps(inv, p.mem.id) && KeptByPush(inv, p.mem.id)
    ensures inv(Applications(p, config, choice).w)
    ensures Applications(p, config, choice).mem.id == p.mem.id
  {
    AppLoopKeeps(Apps(p, []), config, choice.images, choice.apps, inv);
    var a := AppLoop(Apps(p, []), config, choice.images, choice.apps);
    var op := ListJobs(a.p.mem.id.name);
    assert AppOp(op, p.mem.id);
    SweepLoopKeeps(a.p.(w := After(a.p.w, op)), a.found, ListedJobs(Snapshot(a.p.w), a.p.mem.id.name), choice.jobs,
      inv);
  }

  /** What the four kinds of requests keep, the part of a pass behind the finalizer keeps. */
  lemma ActiveKeeps(kept: Pass, config: Config, choice: Choice, inv: World -> bool)
    requires inv(kept.w) && kept.end.None?
    requires KeptByServer(inv, kept.mem.id) && Storage.KeptByTurns(inv, kept.mem.id) && KeptByApps(inv, kept.mem.id)
    requires KeptByPush(inv, kept.mem.id)
    ensures inv(AfterFinalizer(kept, config, choice).w)
  {
    ServerKeeps(kept, config, choice.now, inv);
    var server := Server(kept, config, choice.now);
    PrepareKeeps(server, config, inv);
    ApplicationsKeeps(Prepare(server, config), config, choice, inv);
  }

  // ------------------------------------------------ one spec for the whole pass

  lemma PushKeepsSpec(p: Pass, changed: bool)
    requires p.mem.now.spec == p.mem.read.spec
    ensures var m := PushIf(p, changed).mem; m.now.spec == m.read.spec == p.mem.now.spec && m.id == p.mem.id
  {
  }

  lemma AdoptKeepsSpec(p: Pass, uid: string, key: Key, job: Job, existing: Job)
    requires p.mem.now.spec == p.mem.read.spec
    ensures var m := Adopt(p, uid, key, job, existing).mem;
      m.now.spec == m.read.spec == p.mem.now.spec && m.id == p.mem.id
  {
  }

  lemma HandledKeepsSpec(a: Apps, uid: string, key: Key, job: Step<Option<Job>>)
    requires a.p.mem.now.spec == a.p.mem.read.spec
    ensures var m := HandleApp(a, uid, key, job).p.mem;
      m.now.spec == m.read.spec == a.p.mem.now.spec && m.id == a.p.mem.id
  {
    if job.value.None? {
      var (apps, changed) := FromFailure(a.p.mem.now.status.apps, uid);
      PushKeepsSpec(a.p.(w := job.w, mem := WithApps(a.p.mem, apps)), changed);
    } else {
      var created := CreateMissing(job.w, key, job.value.value);
      if created.value.Existing? {
        AdoptKeepsSpec(a.p.(w := created.w), uid, key, job.value.value, created.value.job);
      }
    }
  }

  lemma StepKeepsSpec(a: Apps, config: Config, images: Jobs.Images, uid: string)
    requires a.p.mem.now.spec == a.p.mem.read.spec
    ensures var m := AppStep(a, config, images, uid).p.mem;
      m.now.spec == m.read.spec == a.p.mem.now.spec && m.id == a.p.mem.id
  {
    var id, spec := a.p.mem.id, a.p.mem.now.spec;
    if uid in spec.apps {
      HandledKeepsSpec(a, uid, Jobs.JobKey(id, uid, spec.apps[uid]),
                       Jobs.InitJob(a.p.w, id, config, spec, images, spec.apps[uid]));
    }
  }

  lemma ServerKeepsSpec(p: Pass, config: Config, now: int)
    requires p.mem.now.spec == p.mem.read.spec
    ensures var m := Server(p, config, now).mem; m.now.spec == m.read.spec == p.mem.now.spec && m.id == p.mem.id
  {
    hide EnsureDeployment, ObserveHealth, FromDeployment, FromHealth, Deployments.Update;
  }

  lemma {:induction false} LoopKeepsSpec(a: Apps, config: Config, images: Jobs.Images, order: seq<string>)
    requires a.p.mem.now.spec == a.p.mem.read.spec
    ensures var m := AppLoop(a, config, images, order).p.mem;
      m.now.spec == m.read.spec == a.p.mem.now.spec && m.id == a.p.mem.id
    decreases |order|
  {
    hide AppStep;
    if order != [] {
      var n := |order| - 1;
      LoopKeepsSpec(a, config, images, order[..n]);
      StepKeepsSpec(AppLoop(a, config, images, order[..n]), config, images, order[n]);
    }
  }
}
