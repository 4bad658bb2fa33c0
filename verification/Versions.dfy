/**
 What a pass bases its requests on, under any script: every write names the version of the object that this very pass
 last saw, and pods are listed by the selector of a deployment it got hold of.
 */
module Versions {
  import opened Options
  import opened Objects
  import opened Api
  import opened StatusUpdates
  import opened Controller
  import Deployments
  import Jobs
  import Storage

  /** What the replies of `past` last said about the workbench: a read, or a write that was acknowledged. */
  function LastSeen(past: seq<Event>, id: Key): Option<Workbench>
    decreases |past|
  {
    if past == [] then None
    else
      var n := |past| - 1;
      var e := past[n];
      if e.ok && e.op == GetWorkbench(id) && id in e.before.workbenches then Some(e.before.workbenches[id])
      else if e.ok && (e.op.UpdateWorkbench? || e.op.UpdateStatus?) && e.op.id == id && id in e.after.workbenches then
        Some(e.after.workbenches[id])
      else LastSeen(past[..n], id)
  }

  /** The pass was given the deployment: it read it, or created it. */
  predicate ShowsDeployment(e: Event, key: Key, d: Deployment) {
    e.ok && (e.op == CreateDeployment(key, d) ||
             (e.op == GetDeployment(key) && key in e.before.deployments && e.before.deployments[key] == d))
  }

  predicate ShowsJob(e: Event, key: Key, job: Job) {
    e.ok && e.op == GetJob(key) && key in e.before.jobs && e.before.jobs[key] == job
  }

  ghost predicate GivenDeployment(past: seq<Event>, key: Key, d: Deployment) {
    exists j | 0 <= j < |past| :: ShowsDeployment(past[j], key, d)
  }

  ghost predicate GivenJob(past: seq<Event>, key: Key, job: Job) {
    exists j | 0 <= j < |past| :: ShowsJob(past[j], key, job)
  }

  /** The request `op` of a pass for `id` rests on what the requests before it were answered. */
  ghost predicate Founded(past: seq<Event>, op: Op, id: Key) {
    match op
    case UpdateWorkbench(k, read, _) => k == id && LastSeen(past, id) == Some(read)
    case UpdateStatus(k, read, _) => k == id && LastSeen(past, id) == Some(read)
    case ListPods(ns, selector) =>
      ns == id.ns && exists d :: GivenDeployment(past, Deployments.DeploymentKey(id), d) && d.selector == selector
    case UpdateDeployment(key, prior, _) =>
      key == Deployments.DeploymentKey(id) && GivenDeployment(past, key, prior)
    case UpdateJob(key, seen, _) => GivenJob(past, key, seen)
    case _ => true
  }

  /** Every request since the log had length `n` is founded, and was granted only on the version it names. */
  ghost predicate AllFounded(w: World, n: nat, id: Key) {
    && n <= |w.log|
    && forall i | n <= i < |w.log| ::
        Founded(w.log[n..i], w.log[i].op, id) && (w.log[i].ok ==> Accepts(w.log[i].before, w.log[i].op))
  }

  /** So far, and `mem` was read from the version last seen. */
  ghost predicate Aware(w: World, n: nat, mem: Memory) {
    AllFounded(w, n, mem.id) && LastSeen(w.log[n..], mem.id) == Some(mem.read)
  }

  lemma FoundedCall(w: World, n: nat, op: Op, id: Key)
    requires AllFounded(w, n, id) && Founded(w.log[n..], op, id)
    ensures AllFounded(After(w, op), n, id)
    ensures After(w, op).log[n..] == w.log[n..] + [Event(op, Snapshot(w), Outcome(w, op), Ok(w, op))]
  {
    var x := After(w, op);
    forall i | n <= i < |x.log|
      ensures Founded(x.log[n..i], x.log[i].op, id) && (x.log[i].ok ==> Accepts(x.log[i].before, x.log[i].op))
    {
      assert x.log[n..i] == w.log[n..i];
      if i == |w.log| {
        assert w.log[n..i] == w.log[n..];
      }
    }
  }

  lemma SeenCall(w: World, n: nat, op: Op, id: Key)
    requires n <= |w.log|
    ensures LastSeen(After(w, op).log[n..], id) ==
      var e := Event(op, Snapshot(w), Outcome(w, op), Ok(w, op));
      if e.ok && e.op == GetWorkbench(id) && id in e.before.workbenches then Some(e.before.workbenches[id])
      else if e.ok && (e.op.UpdateWorkbench? || e.op.UpdateStatus?) && e.op.id == id && id in e.after.workbenches then
        Some(e.after.workbenches[id])
      else LastSeen(w.log[n..], id)
  {
    var e := Event(op, Snapshot(w), Outcome(w, op), Ok(w, op));
    assert After(w, op).log[n..] == w.log[n..] + [e];
    assert (w.log[n..] + [e])[..|w.log[n..]|] == w.log[n..];
  }

  /** A request that rests on nothing and shows nothing of the workbench. */
  predicate Free(op: Op) {
    !op.GetWorkbench? && !op.UpdateWorkbench? && !op.UpdateStatus? && !op.ListPods? && !op.UpdateDeployment?
    && !op.UpdateJob?
  }

  lemma AwareCall(w: World, n: nat, op: Op, mem: Memory)
    requires Aware(w, n, mem) && Founded(w.log[n..], op, mem.id)
    requires !op.GetWorkbench? && !op.UpdateWorkbench? && !op.UpdateStatus?
    ensures Aware(After(w, op), n, mem)
  {
    FoundedCall(w, n, op, mem.id);
    SeenCall(w, n, op, mem.id);
  }

  ghost function AwareOf(n: nat, mem: Memory): World -> bool { (x: World) => Aware(x, n, mem) }

  lemma AwareKept(n: nat, mem: Memory, op: Op)
    requires Free(op)
    ensures forall x | Aware(x, n, mem) :: Aware(After(x, op), n, mem)
  {
    forall x | Aware(x, n, mem) ensures Aware(After(x, op), n, mem) {
      AwareCall(x, n, op, mem);
    }
  }

  lemma GivenLater(w: World, n: nat, op: Op, key: Key, d: Deployment)
    requires n <= |w.log|
    ensures GivenDeployment(w.log[n..], key, d) ==> GivenDeployment(After(w, op).log[n..], key, d)
    ensures ShowsDeployment(Event(op, Snapshot(w), Outcome(w, op), Ok(w, op)), key, d) ==>
      GivenDeployment(After(w, op).log[n..], key, d)
  {
    var e := Event(op, Snapshot(w), Outcome(w, op), Ok(w, op));
    var past := w.log[n..];
    assert After(w, op).log[n..] == past + [e];
    assert (past + [e])[|past|] == e;
    if GivenDeployment(past, key, d) {
      var j :| 0 <= j < |past| && ShowsDeployment(past[j], key, d);
      assert (past + [e])[j] == past[j];
    }
  }

  // ------------------------------------------------------------- the server

  /** A status write that fails leaves the version in memory as it was. */
  lemma PushAware(p: Pass, n: nat, changed: bool)
    requires Aware(p.w, n, p.mem)
    ensures var q := PushIf(p, changed); Aware(q.w, n, q.mem) && q.mem.id == p.mem.id
  {
    var op := UpdateStatus(p.mem.id, p.mem.read, p.mem.now);
    FoundedCall(p.w, n, op, p.mem.id);
    SeenCall(p.w, n, op, p.mem.id);
  }

  lemma EnsureAware(w: World, n: nat, mem: Memory, key: Key, model: Deployment)
    requires Aware(w, n, mem)
    ensures var s := EnsureDeployment(w, key, model);
      Aware(s.w, n, mem) && (s.value.Some? ==> GivenDeployment(s.w.log[n..], key, s.value.value))
  {
    AwareCall(w, n, GetDeployment(key), mem);
    var w1 := After(w, GetDeployment(key));
    AwareCall(w1, n, CreateDeployment(key, model), mem);
    if key in Snapshot(w).deployments {
      GivenLater(w, n, GetDeployment(key), key, Snapshot(w).deployments[key]);
    } else {
      GivenLater(w1, n, CreateDeployment(key, model), key, model);
    }
  }

  lemma ObserveAware(p: Pass, n: nat, d: Deployment, now: int)
    requires Aware(p.w, n, p.mem) && GivenDeployment(p.w.log[n..], Deployments.DeploymentKey(p.mem.id), d)
    ensures var q := Observe(p, d, now); Aware(q.w, n, q.mem) && q.mem.id == p.mem.id
    ensures GivenDeployment(Observe(p, d, now).w.log[n..], Deployments.DeploymentKey(p.mem.id), d)
  {
    hide FromDeployment, FromHealth, PodsHealth, SelectPods;
    var key, list := Deployments.DeploymentKey(p.mem.id), ListPods(p.mem.id.ns, d.selector);
    AwareCall(p.w, n, list, p.mem);
    GivenLater(p.w, n, list, key, d);
    var (server, moved) := FromDeployment(p.mem.now.status.server, d);
    var health := ObserveHealth(p.w, p.mem.id.ns, d.selector, now);
    var (server', changed) := FromHealth(server, health.value);
    var q := Pass(health.w, WithServer(p.mem, server'), None);
    PushAware(q, n, moved || changed);
    GivenLater(q.w, n, UpdateStatus(q.mem.id, q.mem.read, q.mem.now), key, d);
  }

  lemma ServerAware(p: Pass, n: nat, config: Config, now: int)
    requires Aware(p.w, n, p.mem)
    ensures var q := Server(p, config, now); Aware(q.w, n, q.mem) && q.mem.id == p.mem.id
  {
    hide Observe, EnsureDeployment, Aware, GivenDeployment;
    var key := Deployments.DeploymentKey(p.mem.id);
    var model := Deployments.InitDeployment(p.mem.id, p.mem.now.spec, config);
    EnsureAware(p.w, n, p.mem, key, model);
    var found := EnsureDeployment(p.w, key, model);
    if found.value.Some? {
      ObserveAware(p.(w := found.w), n, found.value.value, now);
      CorrectAware(Observe(p.(w := found.w), found.value.value, now), n, key, model, found.value.value);
    }
  }

  lemma CorrectAware(p: Pass, n: nat, key: Key, model: Deployment, found: Deployment)
    requires |model.main| == |model.init| == 1 && key == Deployments.DeploymentKey(p.mem.id)
    requires Aware(p.w, n, p.mem) && GivenDeployment(p.w.log[n..], key, found)
    ensures var q := Correct(p, key, model, found); Aware(q.w, n, q.mem) && q.mem == p.mem
  {
    var updated := Deployments.Update(model, found);
    if updated.Some? {
      AwareCall(p.w, n, UpdateDeployment(key, found, updated.value.0), p.mem);
    }
  }

  lemma PrepareAware(p: Pass, n: nat, config: Config)
    requires Aware(p.w, n, p.mem)
    ensures var q := Prepare(p, config); Aware(q.w, n, q.mem) && q.mem == p.mem
  {
    hide Aware;
    var id := p.mem.id;
    AwareKept(n, p.mem, GetService(id));
    AwareKept(n, p.mem, CreateService(id));
    var s := Service(p);
    if s.end.None? {
      forall op | Storage.TurnOp(op, id) ensures forall x | Aware(x, n, p.mem) :: Aware(After(x, op), n, p.mem) {
        AwareKept(n, p.mem, op);
      }
      Storage.ProcessKeeps(s.w, config, id, Storage.EnabledProviders(config, s.mem.now.spec), AwareOf(n, p.mem));
    }
  }

  // --------------------------------------------------------------- the apps

  lemma InitAware(w: World, n: nat, mem: Memory, config: Config, images: Jobs.Images, app: App)
    requires Aware(w, n, mem)
    ensures Aware(Jobs.InitJob(w, mem.id, config, mem.now.spec, images, app).w, n, mem)
  {
    hide Aware;
    forall key ensures forall x | Aware(x, n, mem) :: Aware(After(x, GetSecret(key)), n, mem) {
      AwareKept(n, mem, GetSecret(key));
    }
    Storage.ActiveKeeps(w, config, Storage.EnabledProviders(config, mem.now.spec), AwareOf(n, mem));
  }

  lemma MissingAware(w: World, n: nat, mem: Memory, key: Key, job: Job)
    requires Aware(w, n, mem)
    ensures var s := CreateMissing(w, key, job);
      Aware(s.w, n, mem) && (s.value.Existing? ==> GivenJob(s.w.log[n..], key, s.value.job))
  {
    var get := GetJob(key);
    AwareCall(w, n, get, mem);
    AwareCall(After(w, get), n, CreateJob(key, job), mem);
    var past := After(w, get).log[n..];
    assert past[|past| - 1] == Event(get, Snapshot(w), Outcome(w, get), Ok(w, get));
  }

  lemma AdoptAware(p: Pass, n: nat, uid: string, key: Key, job: Job, existing: Job)
    requires Aware(p.w, n, p.mem) && GivenJob(p.w.log[n..], key, existing)
    ensures var q := Adopt(p, uid, key, job, existing); Aware(q.w, n, q.mem) && q.mem.id == p.mem.id
  {
    hide FromJob;
    var (apps, changed) := FromJob(p.mem.now.status.apps, p.mem.now.spec, uid, existing);
    var q := p.(mem := WithApps(p.mem, apps));
    PushAware(q, n, changed);
    var pushed := PushIf(q, changed);
    JobStillGiven(q, n, changed, key, existing);
    AwareCall(pushed.w, n, UpdateJob(key, existing, Jobs.Update(job, existing).0), pushed.mem);
  }

  lemma JobStillGiven(p: Pass, n: nat, changed: bool, key: Key, job: Job)
    requires n <= |p.w.log| && GivenJob(p.w.log[n..], key, job)
    ensures n <= |PushIf(p, changed).w.log| && GivenJob(PushIf(p, changed).w.log[n..], key, job)
  {
    var past := p.w.log[n..];
    var j :| 0 <= j < |past| && ShowsJob(past[j], key, job);
    assert PushIf(p, changed).w.log[n..][j] == past[j];
  }

  lemma AwareOfRead(w: World, n: nat, mem: Memory, next: Memory)
    requires Aware(w, n, mem) && next.id == mem.id && next.read == mem.read
    ensures Aware(w, n, next)
  {
  }

  lemma HandledAware(a: Apps, n: nat, uid: string, key: Key, job: Step<Option<Job>>)
    requires Aware(job.w, n, a.p.mem)
    ensures var b := HandleApp(a, uid, key, job); Aware(b.p.w, n, b.p.mem) && b.p.mem.id == a.p.mem.id
  {
    hide Adopt, CreateMissing, FromFailure, Aware;
    if job.value.None? {
      var p := a.p.(w := job.w);
      var (apps, changed) := FromFailure(p.mem.now.status.apps, uid);
      AwareOfRead(p.w, n, p.mem, WithApps(p.mem, apps));
      PushAware(p.(mem := WithApps(p.mem, apps)), n, changed);
    } else {
      MissingAware(job.w, n, a.p.mem, key, job.value.value);
      var created := CreateMissing(job.w, key, job.value.value);
      if created.value.Existing? {
        AdoptAware(a.p.(w := created.w), n, uid, key, job.value.value, created.value.job);
      }
    }
  }

  lemma StepAware(a: Apps, n: nat, config: Config, images: Jobs.Images, uid: string)
    requires Aware(a.p.w, n, a.p.mem)
    ensures var b := AppStep(a, config, images, uid); Aware(b.p.w, n, b.p.mem) && b.p.mem.id == a.p.mem.id
  {
    hide HandleApp, Jobs.PodFor, Jobs.Buildable, Jobs.InitJob, Aware;
    var id, spec := a.p.mem.id, a.p.mem.now.spec;
    if a.p.end.None? && uid in spec.apps {
      InitAware(a.p.w, n, a.p.mem, config, images, spec.apps[uid]);
      HandledAware(a, n, uid, Jobs.JobKey(id, uid, spec.apps[uid]),
                   Jobs.InitJob(a.p.w, id, config, spec, images, spec.apps[uid]));
    }
  }

  lemma {:induction false} LoopAware(p: Pass, n: nat, config: Config, images: Jobs.Images, order: seq<string>)
    requires Aware(p.w, n, p.mem)
    ensures var a := AppLoop(Apps(p, []), config, images, order); Aware(a.p.w, n, a.p.mem) && a.p.mem.id == p.mem.id
    decreases |order|
  {
    hide AppStep, Aware;
    if order != [] {
      var i := |order| - 1;
      LoopAware(p, n, config, images, order[..i]);
      StepAware(AppLoop(Apps(p, []), config, images, order[..i]), n, config, images, order[i]);
    }
  }

  lemma {:induction false} SweepAware(p: Pass, n: nat, found: seq<string>, listed: set<Key>, order: seq<Key>)
    requires Aware(p.w, n, p.mem)
    ensures var q := SweepLoop(p, found, listed, order); Aware(q.w, n, q.mem) && q.mem == p.mem
    decreases |order|
  {
    hide Aware;
    if order != [] {
      var i := |order| - 1;
      SweepAware(p, n, found, listed, order[..i]);
      AwareKept(n, p.mem, DeleteJob(order[i]));
    }
  }

  lemma ApplicationsAware(p: Pass, n: nat, config: Config, choice: Choice)
    requires Aware(p.w, n, p.mem)
    ensures var q := Applications(p, config, choice); Aware(q.w, n, q.mem) && q.mem.id == p.mem.id
  {
    hide Aware;
    LoopAware(p, n, config, choice.images, choice.apps);
    var a := AppLoop(Apps(p, []), config, choice.images, choice.apps);
    var list := ListJobs(a.p.mem.id.name);
    AwareKept(n, a.p.mem, list);
    SweepAware(a.p.(w := After(a.p.w, list)), n, a.found, ListedJobs(Snapshot(a.p.w), a.p.mem.id.name), choice.jobs);
  }

  lemma ActiveAware(kept: Pass, n: nat, config: Config, choice: Choice)
    requires Aware(kept.w, n, kept.mem)
    ensures var v := AfterFinalizer(kept, config, choice); Aware(v.w, n, v.mem) && v.mem.id == kept.mem.id
  {
    hide Server, Prepare, Applications, Aware;
    ServerAware(kept, n, config, choice.now);
    var s := Server(kept, config, choice.now);
    PrepareAware(s, n, config);
    ApplicationsAware(Prepare(s, config), n, config, choice);
  }

  // ----------------------------------------------------------- whole passes

  lemma TeardownFounded(w: World, n: nat, mem: Memory)
    requires Aware(w, n, mem)
    ensures AllFounded(Teardown(w, mem).w, n, mem.id)
  {
    hide Aware, AllFounded;
    var id := mem.id;
    AwareKept(n, mem, ListJobs(id.name));
    AwareKept(n, mem, DeleteJobs(id.ns, id.name));
    AwareKept(n, mem, ListDeployments(id.name));
    AwareKept(n, mem, DeleteDeployments(id.ns, id.name));
    var d := DeleteExternal(w, id);
    AwareUpdate(w, n, mem, mem.now);
    AwareUpdate(d.w, n, mem, mem.now.(finalizers := mem.now.finalizers - {FINALIZER}));
  }

  lemma AwareUpdate(w: World, n: nat, mem: Memory, next: Workbench)
    requires Aware(w, n, mem)
    ensures AllFounded(w, n, mem.id) && AllFounded(After(w, UpdateWorkbench(mem.id, mem.read, next)), n, mem.id)
  {
    FoundedCall(w, n, UpdateWorkbench(mem.id, mem.read, next), mem.id);
  }

  /** Every request of a pass is founded. In particular a write of the workbench is granted only if nobody, the pass
      itself included, has changed the workbench since the pass last saw it, so no write undoes one of others. */
  lemma PassFounded(w: World, id: Key, config: Config, choice: Choice)
    ensures AllFounded(Reconcile(w, id, config, choice).w, |w.log|, id)
  {
    hide Teardown, AfterFinalizer;
    var get, n := GetWorkbench(id), |w.log|;
    FoundedCall(w, n, get, id);
    SeenCall(w, n, get, id);
    if Ok(w, get) && id in Snapshot(w).workbenches {
      var wb := Snapshot(w).workbenches[id];
      var w1, mem := After(w, get), Memory(id, wb, wb);
      TeardownFounded(w1, n, mem);
      if !wb.deleting {
        var op := UpdateWorkbench(id, wb, wb.(finalizers := wb.finalizers + {FINALIZER}));
        FoundedCall(w1, n, op, id);
        SeenCall(w1, n, op, id);
        var kept := EnsureFinalizer(w1, mem);
        if kept.end.None? {
          ActiveAware(kept, n, config, choice);
        }
      }
    }
  }
}
