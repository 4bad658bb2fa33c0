/** Which failing requests end a pass, and how a pass ends, under any script. */
module Failures {
  import opened Options
  import opened Objects
  import opened Api
  import opened StatusUpdates
  import opened Controller
  import Deployments
  import Gate
  import Jobs
  import Storage
  import Traces

  /** A failure of such a request ends the pass. The others are logged and passed over: statuses, the look for the
      deployment and its pods, and all that the storage providers ask for, their setup jobs included. */
  predicate Fatal(op: Op) {
    match op
    case UpdateStatus(_, _, _) => false
    case GetDeployment(_) => false
    case CreateDeployment(_, _) => false
    case ListPods(_, _) => false
    case GetDriver(_) => false
    case GetSecret(_) => false
    case GetVolume(_) => false
    case CreateVolume(_, _) => false
    case GetClaim(_) => false
    case CreateClaim(_, _) => false
    case CreateJob(_, job) => "app" !in job.labels
    case _ => true
  }

  /** Since the log had length `n`, no such failure. */
  ghost predicate Clear(w: World, n: nat) {
    n <= |w.log| && forall i | n <= i < |w.log| :: Fatal(w.log[i].op) ==> w.log[i].ok
  }

  /** One, and it was the last request. */
  ghost predicate Crashed(w: World, n: nat) {
    var m := |w.log| - 1;
    n <= m && Fatal(w.log[m].op) && !w.log[m].ok && forall i | n <= i < m :: Fatal(w.log[i].op) ==> w.log[i].ok
  }

  lemma ClearCall(w: World, op: Op, n: nat)
    requires Clear(w, n)
    ensures if Fatal(op) && !Ok(w, op) then Crashed(After(w, op), n) else Clear(After(w, op), n)
  {
  }

  /** A pass ended in an error exactly if it crashed. */
  ghost predicate Sound(p: Pass, n: nat) {
    if p.end == Some(Error) then Crashed(p.w, n) else Clear(p.w, n)
  }

  // ------------------------------------------------------------- the server

  lemma PushClear(p: Pass, changed: bool, n: nat)
    requires Clear(p.w, n)
    ensures Clear(PushIf(p, changed).w, n) && PushIf(p, changed).end == p.end
  {
    ClearCall(p.w, UpdateStatus(p.mem.id, p.mem.read, p.mem.now), n);
  }

  lemma ObserveClear(p: Pass, d: Deployment, now: int, n: nat)
    requires Clear(p.w, n)
    ensures Clear(Observe(p, d, now).w, n)
  {
    hide FromDeployment, FromHealth, PodsHealth, SelectPods;
    var (server, moved) := FromDeployment(p.mem.now.status.server, d);
    var health := ObserveHealth(p.w, p.mem.id.ns, d.selector, now);
    ClearCall(p.w, ListPods(p.mem.id.ns, d.selector), n);
    var (server', changed) := FromHealth(server, health.value);
    PushClear(Pass(health.w, WithServer(p.mem, server'), None), moved || changed, n);
  }

  lemma EnsureClear(w: World, key: Key, model: Deployment, n: nat)
    requires Clear(w, n)
    ensures Clear(EnsureDeployment(w, key, model).w, n)
  {
    ClearCall(w, GetDeployment(key), n);
    ClearCall(After(w, GetDeployment(key)), CreateDeployment(key, model), n);
  }

  lemma CorrectSound(p: Pass, key: Key, model: Deployment, found: Deployment, n: nat)
    requires |model.main| == |model.init| == 1 && p.end.None? && Clear(p.w, n)
    ensures var q := Correct(p, key, model, found);
      if found.main == [] || found.init == [] then q.end == Some(Error) && Clear(q.w, n)
      else (q.end.None? || q.end == Some(Error)) && Sound(q, n)
  {
    if found.main != [] && found.init != [] {
      var (next, updated) := Deployments.Update(model, found).value;
      ClearCall(p.w, UpdateDeployment(key, found, next), n);
    }
  }

  /** The deployment at hand lacks containers, on which the update panics. */
  predicate Panics(kept: Pass, config: Config) {
    var found := Gate.Obtained(kept, config).value;
    found.Some? && (found.value.main == [] || found.value.init == [])
  }

  lemma ServerSound(p: Pass, config: Config, now: int, n: nat)
    requires p.end.None? && Clear(p.w, n)
    ensures var s := Server(p, config, now);
      if Panics(p, config) then s.end == Some(Error) && Clear(s.w, n)
      else (s.end.None? || s.end == Some(Error)) && Sound(s, n)
  {
    hide Observe, Correct, EnsureDeployment;
    var key := Deployments.DeploymentKey(p.mem.id);
    var model := Gate.Model(p, config);
    EnsureClear(p.w, key, model, n);
    var found := Gate.Obtained(p, config);
    if found.value.Some? {
      var q := p.(w := found.w);
      ObserveClear(q, found.value.value, now, n);
      ObserveGoesOn(q, found.value.value, now);
      CorrectSound(Observe(q, found.value.value, now), key, model, found.value.value, n);
    }
  }

  lemma ObserveGoesOn(p: Pass, d: Deployment, now: int)
    ensures Observe(p, d, now).end.None?
  {
  }

  lemma ServiceSound(p: Pass, n: nat)
    requires p.end.None? && Clear(p.w, n)
    ensures var q := Service(p); (q.end.None? || q.end == Some(Error)) && Sound(q, n)
  {
    ClearCall(p.w, GetService(p.mem.id), n);
    if Ok(p.w, GetService(p.mem.id)) {
      ClearCall(After(p.w, GetService(p.mem.id)), CreateService(p.mem.id), n);
    }
  }

  lemma PrepareSound(p: Pass, config: Config, n: nat)
    requires p.end.None? && Clear(p.w, n)
    ensures var q := Prepare(p, config); (q.end.None? || q.end == Some(Error)) && Sound(q, n)
  {
    ServiceSound(p, n);
    var s := Service(p);
    if s.end.None? {
      var inv := (x: World) => Clear(x, n);
      forall x, op | inv(x) && Storage.TurnOp(op, p.mem.id) ensures inv(After(x, op)) {
        ClearCall(x, op, n);
      }
      Storage.ProcessKeeps(s.w, config, s.mem.id, Storage.EnabledProviders(config, s.mem.now.spec), inv);
    }
  }

  // --------------------------------------------------------------- the apps

  lemma InitClear(w: World, id: Key, config: Config, spec: Spec, images: Jobs.Images, app: App, n: nat)
    requires Clear(w, n)
    ensures Clear(Jobs.InitJob(w, id, config, spec, images, app).w, n)
  {
    var inv := (x: World) => Clear(x, n);
    forall x, key | inv(x) ensures inv(After(x, GetSecret(key))) {
      ClearCall(x, GetSecret(key), n);
    }
    Storage.ActiveKeeps(w, config, Storage.EnabledProviders(config, spec), inv);
  }

  lemma MissingSound(w: World, key: Key, job: Job, n: nat)
    requires Clear(w, n) && "app" !in job.labels
    ensures var s := CreateMissing(w, key, job); if s.value.CreateFailed? then Crashed(s.w, n) else Clear(s.w, n)
  {
    ClearCall(w, GetJob(key), n);
    if Ok(w, GetJob(key)) {
      ClearCall(After(w, GetJob(key)), CreateJob(key, job), n);
    }
  }

  lemma AdoptSound(p: Pass, uid: string, key: Key, job: Job, existing: Job, n: nat)
    requires p.end.None? && Clear(p.w, n)
    ensures var q := Adopt(p, uid, key, job, existing); (q.end.None? || q.end == Some(Error)) && Sound(q, n)
  {
    hide FromJob;
    var (apps, changed) := FromJob(p.mem.now.status.apps, p.mem.now.spec, uid, existing);
    var q := p.(mem := WithApps(p.mem, apps));
    PushClear(q, changed, n);
    ClearCall(PushIf(q, changed).w, UpdateJob(key, existing, Jobs.Update(job, existing).0), n);
  }

  lemma HandledSound(a: Apps, uid: string, key: Key, job: Step<Option<Job>>, n: nat)
    requires a.p.end.None? && Clear(job.w, n) && (job.value.Some? ==> "app" !in job.value.value.labels)
    ensures var b := HandleApp(a, uid, key, job); (b.p.end.None? || b.p.end == Some(Error)) && Sound(b.p, n)
  {
    hide Adopt, CreateMissing, FromFailure;
    if job.value.None? {
      var p := a.p.(w := job.w);
      var (apps, changed) := FromFailure(p.mem.now.status.apps, uid);
      PushClear(p.(mem := WithApps(p.mem, apps)), changed, n);
    } else {
      MissingSound(job.w, key, job.value.value, n);
      var created := CreateMissing(job.w, key, job.value.value);
      if created.value.Existing? {
        AdoptSound(a.p.(w := created.w), uid, key, job.value.value, created.value.job, n);
      }
    }
  }

  lemma StepSound(a: Apps, config: Config, images: Jobs.Images, uid: string, n: nat)
    requires (a.p.end.None? || a.p.end == Some(Error)) && Sound(a.p, n)
    ensures var b := AppStep(a, config, images, uid); (b.p.end.None? || b.p.end == Some(Error)) && Sound(b.p, n)
  {
    hide HandleApp, Jobs.PodFor, Jobs.Buildable;
    var id, spec := a.p.mem.id, a.p.mem.now.spec;
    if a.p.end.None? && uid in spec.apps {
      InitClear(a.p.w, id, config, spec, images, spec.apps[uid], n);
      HandledSound(a, uid, Jobs.JobKey(id, uid, spec.apps[uid]),
                   Jobs.InitJob(a.p.w, id, config, spec, images, spec.apps[uid]), n);
    }
  }

  lemma {:induction false} LoopSound(p: Pass, config: Config, images: Jobs.Images, order: seq<string>, n: nat)
    requires p.end.None? && Clear(p.w, n)
    ensures var a := AppLoop(Apps(p, []), config, images, order);
      (a.p.end.None? || a.p.end == Some(Error)) && Sound(a.p, n)
    decreases |order|
  {
    hide AppStep;
    if order != [] {
      var i := |order| - 1;
      LoopSound(p, config, images, order[..i], n);
      StepSound(AppLoop(Apps(p, []), config, images, order[..i]), config, images, order[i], n);
    }
  }

  lemma {:induction false} SweepLoopSound(p: Pass, found: seq<string>, listed: set<Key>, order: seq<Key>, n: nat)
    requires p.end.None? && Clear(p.w, n)
    ensures var q := SweepLoop(p, found, listed, order); (q.end.None? || q.end == Some(Error)) && Sound(q, n)
    decreases |order|
  {
    if order != [] {
      var i := |order| - 1;
      SweepLoopSound(p, found, listed, order[..i], n);
      var q := SweepLoop(p, found, listed, order[..i]);
      if q.end.None? {
        ClearCall(q.w, DeleteJob(order[i]), n);
      }
    }
  }

  lemma ApplicationsSound(p: Pass, config: Config, choice: Choice, n: nat)
    requires p.end.None? && Clear(p.w, n)
    ensures var q := Applications(p, config, choice);
      (q.end.Some? && !ServerReady(p.mem) ==> q.end == Some(Requeue(2)))
      && (ServerReady(p.mem) ==> q.end.None? || q.end == Some(Error)) && Sound(q, n)
  {
    if ServerReady(p.mem) {
      LoopSound(p, config, choice.images, choice.apps, n);
      var a := AppLoop(Apps(p, []), config, choice.images, choice.apps);
      if a.p.end.None? {
        ClearCall(a.p.w, ListJobs(a.p.mem.id.name), n);
        if Ok(a.p.w, ListJobs(a.p.mem.id.name)) {
          SweepLoopSound(a.p.(w := After(a.p.w, ListJobs(a.p.mem.id.name))), a.found,
                         ListedJobs(Snapshot(a.p.w), a.p.mem.id.name), choice.jobs, n);
        }
      }
    }
  }

  lemma ActiveSound(kept: Pass, config: Config, choice: Choice, n: nat)
    requires kept.end.None? && Clear(kept.w, n)
    ensures var v := AfterFinalizer(kept, config, choice);
      if Panics(kept, config) then v.end == Some(Error) && Clear(v.w, n) else Sound(v, n)
  {
    hide Server, Prepare, Applications, Panics;
    ServerSound(kept, config, choice.now, n);
    var s := Server(kept, config, choice.now);
    if s.end.None? {
      PrepareSound(s, config, n);
      var q := Prepare(s, config);
      if q.end.None? {
        ApplicationsSound(q, config, choice, n);
      }
    }
  }

  // ------------------------------------------------------------ the deletion

  /** The verdict of the deletion branch: five seconds' wait if it had anything deleted. */
  lemma TeardownVerdict(w: World, mem: Memory, n: nat)
    requires Clear(w, n)
    ensures var t := Teardown(w, mem);
      && t.end.Some? && t.end.value in {Done, Error, Requeue(5)} && Sound(t, n)
      && |w.log| <= |t.w.log|
      && (t.end == Some(Requeue(5)) <==> exists i | |w.log| <= i < |t.w.log| :: Emptied(t.w.log[i]))
  {
    if FINALIZER in mem.now.finalizers {
      ExternalVerdict(w, mem.id, n);
      var d := DeleteExternal(w, mem.id);
      var next := mem.now.(finalizers := mem.now.finalizers - {FINALIZER});
      if d.value == Some(0) {
        var op := UpdateWorkbench(mem.id, mem.read, next);
        ClearCall(d.w, op, n);
        assert forall i | |w.log| <= i < |After(d.w, op).log| :: !Emptied(After(d.w, op).log[i]);
      }
    }
  }

  /** A granted deletion of a whole collection. */
  predicate Emptied(e: Event) { e.ok && (e.op.DeleteJobs? || e.op.DeleteDeployments?) }

  lemma CountPositive(keys: set<Key>)
    ensures keys != {} ==> |keys| > 0
  {
  }

  lemma JobsVerdict(w: World, id: Key, n: nat)
    requires Clear(w, n)
    ensures var d := DeleteJobsOf(w, id);
      && |w.log| <= |d.w.log| && (if d.value.None? then Crashed(d.w, n) else Clear(d.w, n))
      && ((d.value.Some? && d.value.value > 0) <==> exists i | |w.log| <= i < |d.w.log| :: Emptied(d.w.log[i]))
      && d.w.log[..|w.log|] == w.log
  {
    var list, delete := ListJobs(id.name), DeleteJobs(id.ns, id.name);
    ClearCall(w, list, n);
    CountPositive(ListedJobs(Snapshot(w), id.name));
    var w1 := After(w, list);
    if Ok(w, list) && ListedJobs(Snapshot(w), id.name) != {} {
      ClearCall(w1, delete, n);
      assert After(w1, delete).log[|w.log| + 1] == Event(delete, Snapshot(w1), Outcome(w1, delete), Ok(w1, delete));
    }
  }

  lemma DeploymentsVerdict(w: World, id: Key, n: nat)
    requires Clear(w, n)
    ensures var d := DeleteDeploymentsOf(w, id);
      && |w.log| <= |d.w.log| && (if d.value.None? then Crashed(d.w, n) else Clear(d.w, n))
      && ((d.value.Some? && d.value.value > 0) <==> exists i | |w.log| <= i < |d.w.log| :: Emptied(d.w.log[i]))
      && d.w.log[..|w.log|] == w.log
  {
    var list, delete := ListDeployments(id.name), DeleteDeployments(id.ns, id.name);
    ClearCall(w, list, n);
    CountPositive(ListedDeployments(Snapshot(w), id.name));
    var w1 := After(w, list);
    if Ok(w, list) && ListedDeployments(Snapshot(w), id.name) != {} {
      ClearCall(w1, delete, n);
      assert After(w1, delete).log[|w.log| + 1] == Event(delete, Snapshot(w1), Outcome(w1, delete), Ok(w1, delete));
    }
  }

  lemma ExternalVerdict(w: World, id: Key, n: nat)
    requires Clear(w, n)
    ensures var d := DeleteExternal(w, id);
      && |w.log| <= |d.w.log| && (if d.value.None? then Crashed(d.w, n) else Clear(d.w, n))
      && ((d.value.Some? && d.value.value > 0) <==> exists i | |w.log| <= i < |d.w.log| :: Emptied(d.w.log[i]))
  {
    hide DeleteJobsOf, DeleteDeploymentsOf, Emptied;
    JobsVerdict(w, id, n);
    var jobs := DeleteJobsOf(w, id);
    if jobs.value == Some(0) {
      DeploymentsVerdict(jobs.w, id, n);
      var d := DeleteDeploymentsOf(jobs.w, id);
      assert forall i | 0 <= i < |jobs.w.log| :: d.w.log[i] == d.w.log[..|jobs.w.log|][i] == jobs.w.log[i];
    }
  }

  // ------------------------------------------------------------ whole passes

  /** How a pass ends, whatever fails: in an error exactly if its last request failed fatally or the deployment at
      hand lacks containers; and no request follows a fatal failure. */
  lemma PassEnds(w: World, id: Key, config: Config, choice: Choice)
    ensures var f, n := Reconcile(w, id, config, choice), |w.log|;
      && n < |f.w.log|
      && (Crashed(f.w, n) || Clear(f.w, n))
      && (f.verdict == Error <==> Crashed(f.w, n) || PanicsAt(w, id, config))
  {
    var get, n := GetWorkbench(id), |w.log|;
    ClearCall(w, get, n);
    if Ok(w, get) && id in Snapshot(w).workbenches {
      var wb := Snapshot(w).workbenches[id];
      if wb.deleting {
        TeardownVerdict(After(w, get), Memory(id, wb, wb), n);
      } else {
        ConvergeSound(After(w, get), Memory(id, wb, wb), config, choice, n);
      }
    }
    PassGrows(w, id, config, choice);
  }

  /** The pass gets as far as the deployment, which lacks containers. */
  predicate PanicsAt(w: World, id: Key, config: Config) {
    Ok(w, GetWorkbench(id)) && id in Snapshot(w).workbenches && !Snapshot(w).workbenches[id].deleting &&
    var wb := Snapshot(w).workbenches[id];
    var kept := EnsureFinalizer(After(w, GetWorkbench(id)), Memory(id, wb, wb));
    kept.end.None? && Panics(kept, config)
  }

  lemma ConvergeSound(w: World, mem: Memory, config: Config, choice: Choice, n: nat)
    requires Clear(w, n)
    ensures var v, kept := Converge(w, mem, config, choice), EnsureFinalizer(w, mem);
      if kept.end.None? && Panics(kept, config) then v.end == Some(Error) && Clear(v.w, n) else Sound(v, n)
  {
    hide AfterFinalizer, Panics;
    ClearCall(w, UpdateWorkbench(mem.id, mem.read, mem.now.(finalizers := mem.now.finalizers + {FINALIZER})), n);
    var kept := EnsureFinalizer(w, mem);
    if kept.end.None? {
      ActiveSound(kept, config, choice, n);
    }
  }

  lemma PassGrows(w: World, id: Key, config: Config, choice: Choice)
    ensures |w.log| < |Reconcile(w, id, config, choice).w.log|
  {
    var n, w1 := |w.log|, After(w, GetWorkbench(id));
    if Ok(w, GetWorkbench(id)) && id in Snapshot(w).workbenches {
      var wb := Snapshot(w).workbenches[id];
      var mem, inv := Memory(id, wb, wb), (x: World) => n < |x.log|;
      var kept := EnsureFinalizer(w1, mem);
      if kept.end.None? {
        Traces.ActiveKeeps(kept, config, choice, inv);
      }
      assert Clear(w1, |w1.log|);
      TeardownVerdict(w1, mem, |w1.log|);
    }
  }

  /** Pods that could not be listed count as unknown: whatever else happens, the pass records that, and leaves the
      apps for another try in two seconds if it does not end in an error before. */
  lemma UnseenPods(p: Pass, config: Config, choice: Choice)
    requires p.end.None? && Gate.Obtained(p, config).value.Some?
    requires var found := Gate.Obtained(p, config); !Ok(found.w, ListPods(p.mem.id.ns, found.value.value.selector))
    ensures var v := AfterFinalizer(p, config, choice);
      && v.mem.now.status.server.pod == Some(PodHealth(PodPhase.Unknown, false, 0, Text("Failed to list pods")))
      && v.end in {Some(Error), Some(Requeue(2))}
  {
    hide EnsureDeployment, Prepare, Deployments.Update, Deployments.InitDeployment, FromDeployment;
    var found := Gate.Obtained(p, config);
    var s := Server(p, config, choice.now);
    var d, q := found.value.value, p.(w := found.w);
    PushRemembers(d, q, choice.now);
    ServerEnds(p, config, choice.now);
    if s.end.None? {
      PrepareMemory(s, config);
    }
  }

  lemma PushRemembers(d: Deployment, q: Pass, now: int)
    requires !Ok(q.w, ListPods(q.mem.id.ns, d.selector))
    ensures Observe(q, d, now).mem.now.status.server.pod ==
      Some(PodHealth(PodPhase.Unknown, false, 0, Text("Failed to list pods")))
  {
    hide FromDeployment;
  }

  lemma ServerEnds(p: Pass, config: Config, now: int)
    requires p.end.None?
    ensures Server(p, config, now).end in {None, Some(Error)}
  {
  }

  lemma PrepareMemory(p: Pass, config: Config)
    requires p.end.None?
    ensures Prepare(p, config).mem == p.mem && Prepare(p, config).end in {None, Some(Error)}
  {
  }

  /** A workbench that is not found needs nothing. */
  lemma NothingToDo(w: World, id: Key, config: Config, choice: Choice)
    requires Ok(w, GetWorkbench(id)) && id !in Snapshot(w).workbenches
    ensures var f := Reconcile(w, id, config, choice); f.verdict == Done && f.w == After(w, GetWorkbench(id))
  {
  }
}
