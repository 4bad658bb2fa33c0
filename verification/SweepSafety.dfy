/** Under any failures, a pass deletes neither a job it found or went to create nor the job of a buildable app. */
module SweepSafety {
  import opened Options
  import opened Objects
  import opened Api
  import opened StatusUpdates
  import opened Controller
  import FullPass
  import Jobs
  import Storage
  import Traces

  /** The pass looked at this job and it existed, or asked for its creation. */
  predicate Claims(e: Event) {
    (e.op.GetJob? && e.ok && e.op.key in e.before.jobs) || e.op.CreateJob?
  }

  /** Since the log had length `n`: what was claimed is among `found`, what was deleted is not; before the
      sweep nothing was deleted. */
  ghost predicate Marked(w: World, n: nat, found: seq<string>, swept: bool) {
    && n <= |w.log|
    && forall i | n <= i < |w.log| ::
         && (Claims(w.log[i]) ==> w.log[i].op.key.name in found)
         && (w.log[i].op.DeleteJob? ==> swept && w.log[i].op.key.name !in found)
  }

  lemma MarkedCall(w: World, op: Op, n: nat, found: seq<string>, swept: bool)
    requires Marked(w, n, found, swept)
    requires Claims(Event(op, Snapshot(w), After(w, op).cluster, Ok(w, op))) ==> op.key.name in found
    requires op.DeleteJob? ==> swept && op.key.name !in found
    ensures Marked(After(w, op), n, found, swept)
  {
  }

  lemma MarkedPush(p: Pass, changed: bool, n: nat, found: seq<string>)
    requires Marked(p.w, n, found, false)
    ensures Marked(PushIf(p, changed).w, n, found, false)
  {
  }

  lemma MarkedInit(w: World, id: Key, config: Config, spec: Spec, images: Jobs.Images, app: App, n: nat,
        found: seq<string>)
    requires Marked(w, n, found, false)
    ensures Marked(Jobs.InitJob(w, id, config, spec, images, app).w, n, found, false)
  {
    var inv := (x: World) => Marked(x, n, found, false);
    forall x, key | inv(x) ensures inv(After(x, GetSecret(key))) {
      MarkedCall(x, GetSecret(key), n, found, false);
    }
    Storage.ActiveKeeps(w, config, Storage.EnabledProviders(config, spec), inv);
  }

  lemma MarkedCreate(w: World, key: Key, job: Job, n: nat, found: seq<string>)
    requires Marked(w, n, found, false)
    ensures var s := CreateMissing(w, key, job);
      && Marked(s.w, n, found + [key.name], false)
      && (s.value.CreateSkipped? ==> Marked(s.w, n, found, false))
  {
    hide Apply, Accepts;
  }

  lemma MarkedAdopt(p: Pass, uid: string, key: Key, job: Job, existing: Job, n: nat, found: seq<string>)
    requires Marked(p.w, n, found, false)
    ensures Marked(Adopt(p, uid, key, job, existing).w, n, found, false)
  {
  }

  /** The loop: still going, it marked what it claimed; ended by an error, it deleted nothing. */
  ghost predicate LoopMarked(a: Apps, n: nat) {
    && (a.p.end.None? ==> Marked(a.p.w, n, a.found, false))
    && n <= |a.p.w.log| && forall i | n <= i < |a.p.w.log| :: !a.p.w.log[i].op.DeleteJob?
  }

  lemma MarkedStep(a: Apps, config: Config, images: Jobs.Images, uid: string, n: nat)
    requires LoopMarked(a, n)
    ensures LoopMarked(AppStep(a, config, images, uid), n)
  {
    var id, spec := a.p.mem.id, a.p.mem.now.spec;
    if a.p.end.None? && uid in spec.apps {
      MarkedInit(a.p.w, id, config, spec, images, spec.apps[uid], n, a.found);
      var job := Jobs.InitJob(a.p.w, id, config, spec, images, spec.apps[uid]);
      if job.value.None? {
        var p := a.p.(w := job.w);
        var (apps, changed) := FromFailure(p.mem.now.status.apps, uid);
        MarkedPush(p.(mem := WithApps(p.mem, apps)), changed, n, a.found);
      } else {
        MarkedBuilt(a, uid, Jobs.JobKey(id, uid, spec.apps[uid]), job.value.value, job.w, n);
      }
    }
  }

  lemma MarkedBuilt(a: Apps, uid: string, key: Key, job: Job, w: World, n: nat)
    requires a.p.end.None? && Marked(w, n, a.found, false)
    ensures var s := CreateMissing(w, key, job);
      && Marked(s.w, n, a.found + [key.name], false)
      && (s.value.CreateSkipped? ==> Marked(s.w, n, a.found, false))
      && (s.value.Existing? ==>
           Marked(Adopt(a.p.(w := s.w), uid, key, job, s.value.job).w, n, a.found + [key.name], false))
  {
    MarkedCreate(w, key, job, n, a.found);
    var s := CreateMissing(w, key, job);
    if s.value.Existing? {
      MarkedAdopt(a.p.(w := s.w), uid, key, job, s.value.job, n, a.found + [key.name]);
    }
  }

  lemma {:induction false} MarkedLoop(a: Apps, config: Config, images: Jobs.Images, order: seq<string>, n: nat)
    requires LoopMarked(a, n)
    ensures LoopMarked(AppLoop(a, config, images, order), n)
    decreases |order|
  {
    if order != [] {
      var k := |order| - 1;
      MarkedLoop(a, config, images, order[..k], n);
      MarkedStep(AppLoop(a, config, images, order[..k]), config, images, order[k], n);
    }
  }

  lemma {:induction false} MarkedSweep(p: Pass, found: seq<string>, listed: set<Key>, order: seq<Key>, n: nat)
    requires Marked(p.w, n, found, true)
    ensures Marked(SweepLoop(p, found, listed, order).w, n, found, true)
    decreases |order|
  {
    if order != [] {
      var k := |order| - 1;
      MarkedSweep(p, found, listed, order[..k], n);
      var q := SweepLoop(p, found, listed, order[..k]);
      if order[k].name !in found {
        MarkedCall(q.w, DeleteJob(order[k]), n, found, true);
      }
    }
  }

  /** The sweep spares what the pass found or went to create, by whatever failures and interleaving: no
      deleted job, of any namespace, bears the name of a claimed one. */
  lemma SweepSpares(p: Pass, config: Config, choice: Choice, i: nat, j: nat)
    requires var log := Applications(p, config, choice).w.log;
      |p.w.log| <= i < |log| && |p.w.log| <= j < |log| && Claims(log[i]) && log[j].op.DeleteJob?
    ensures var log := Applications(p, config, choice).w.log; log[i].op.key.name != log[j].op.key.name
  {
    var n := |p.w.log|;
    if ServerReady(p.mem) {
      MarkedLoop(Apps(p, []), config, choice.images, choice.apps, n);
      var a := AppLoop(Apps(p, []), config, choice.images, choice.apps);
      if a.p.end.None? {
        var list := ListJobs(a.p.mem.id.name);
        MarkedCall(a.p.w, list, n, a.found, false);
        assert Marked(After(a.p.w, list), n, a.found, true);
        MarkedSweep(a.p.(w := After(a.p.w, list)), a.found, ListedJobs(Snapshot(a.p.w), a.p.mem.id.name), choice.jobs,
          n);
      }
    }
  }

  // ---------------------------------------------------------- app by app

  /** The job at `key` is one that a sweep for `id` would list. */
  predicate Listable(c: Cluster, id: Key, key: Key) { key in c.jobs && Labelled(c.jobs[key].labels, id.name) }

  lemma {:induction false} EnvironmentLists(c: Cluster, steps: seq<EnvStep>, id: Key, key: Key)
    requires !Listable(c, id, key)
    ensures !Listable(Environment(c, steps), id, key)
    decreases |steps|
  {
    if steps != [] {
      assert !Listable(Act(c, steps[0]), id, key);
      EnvironmentLists(Act(c, steps[0]), steps[1..], id, key);
    }
  }

  /** Only the creation of that very job makes it listable. */
  lemma CallLists(w: World, op: Op, id: Key, key: Key)
    requires !Listable(w.cluster, id, key) && (Traces.AppOp(op, id) || Traces.PushOp(op, id))
    requires op.CreateJob? ==> op.key != key
    ensures !Listable(Snapshot(w), id, key) && !Listable(After(w, op).cluster, id, key)
  {
    EnvironmentLists(w.cluster, NextTick(w).env, id, key);
  }

  lemma InitLists(w: World, id: Key, config: Config, spec: Spec, images: Jobs.Images, app: App, key: Key)
    requires !Listable(w.cluster, id, key)
    ensures !Listable(Jobs.InitJob(w, id, config, spec, images, app).w.cluster, id, key)
  {
    var inv := (x: World) => !Listable(x.cluster, id, key);
    forall x, secret | inv(x) ensures inv(After(x, GetSecret(secret))) {
      CallLists(x, GetSecret(secret), id, key);
    }
    Storage.ActiveKeeps(w, config, Storage.EnabledProviders(config, spec), inv);
  }

  lemma CreateLists(w: World, id: Key, made: Key, job: Job, key: Key)
    requires !Listable(w.cluster, id, key) && made != key && made.ns == id.ns
    requires Labelled(job.labels, id.name) && "app" !in job.labels
    ensures !Listable(CreateMissing(w, made, job).w.cluster, id, key)
  {
    CallLists(w, GetJob(made), id, key);
    CallLists(After(w, GetJob(made)), CreateJob(made, job), id, key);
  }

  lemma PushLists(p: Pass, changed: bool, key: Key)
    requires !Listable(p.w.cluster, p.mem.id, key)
    ensures !Listable(PushIf(p, changed).w.cluster, p.mem.id, key)
  {
    CallLists(p.w, UpdateStatus(p.mem.id, p.mem.read, p.mem.now), p.mem.id, key);
  }

  lemma AdoptLists(p: Pass, uid: string, made: Key, job: Job, existing: Job, key: Key)
    requires !Listable(p.w.cluster, p.mem.id, key)
    ensures !Listable(Adopt(p, uid, made, job, existing).w.cluster, p.mem.id, key)
  {
    var (apps, changed) := FromJob(p.mem.now.status.apps, p.mem.now.spec, uid, existing);
    var q := p.(mem := WithApps(p.mem, apps));
    PushLists(q, changed, key);
    CallLists(PushIf(q, changed).w, UpdateJob(made, existing, Jobs.Update(job, existing).0), p.mem.id, key);
  }

  /** The job of an app is safe from the sweep: its name was found, or there is nothing to list. */
  predicate Sheltered(a: Apps, id: Key, key: Key) {
    key.name in a.found || !Listable(a.p.w.cluster, id, key)
  }

  /** Once handled, a buildable app is sheltered, or the loop has ended. */
  lemma OwnStepShelters(a: Apps, config: Config, images: Jobs.Images, uid: string)
    requires a.p.end.None? && uid in a.p.mem.now.spec.apps && Jobs.Buildable(images, a.p.mem.now.spec.apps[uid])
    ensures var id := a.p.mem.id;
      var b := AppStep(a, config, images, uid);
      b.p.end.Some? || Sheltered(b, id, Jobs.JobKey(id, uid, a.p.mem.now.spec.apps[uid]))
  {
    var id, spec := a.p.mem.id, a.p.mem.now.spec;
    HandledShelters(a, uid, Jobs.JobKey(id, uid, spec.apps[uid]),
                    Jobs.InitJob(a.p.w, id, config, spec, images, spec.apps[uid]));
  }

  lemma HandledShelters(a: Apps, uid: string, key: Key, job: Step<Option<Job>>)
    requires job.value.Some?
    ensures var b := HandleApp(a, uid, key, job); b.p.end.Some? || Sheltered(b, a.p.mem.id, key)
  {
  }

  /** The steps of the other apps keep it sheltered. */
  lemma OtherStepShelters(a: Apps, config: Config, images: Jobs.Images, uid: string, key: Key)
    requires a.p.end.None? && Sheltered(a, a.p.mem.id, key)
    ensures var b := AppStep(a, config, images, uid); b.p.end.Some? || Sheltered(b, a.p.mem.id, key)
  {
    var id, spec := a.p.mem.id, a.p.mem.now.spec;
    if uid in spec.apps && key.name !in a.found {
      InitLists(a.p.w, id, config, spec, images, spec.apps[uid], key);
      OtherHandled(a, uid, Jobs.JobKey(id, uid, spec.apps[uid]),
                   Jobs.InitJob(a.p.w, id, config, spec, images, spec.apps[uid]), key);
    }
  }

  lemma OtherHandled(a: Apps, uid: string, made: Key, job: Step<Option<Job>>, key: Key)
    requires !Listable(job.w.cluster, a.p.mem.id, key) && made.ns == a.p.mem.id.ns
    requires job.value.Some? ==> Labelled(job.value.value.labels, a.p.mem.id.name) && "app" !in job.value.value.labels
    ensures var b := HandleApp(a, uid, made, job); b.p.end.Some? || Sheltered(b, a.p.mem.id, key)
  {
    if job.value.None? {
      var p := a.p.(w := job.w);
      var (apps, changed) := FromFailure(p.mem.now.status.apps, uid);
      PushLists(p.(mem := WithApps(p.mem, apps)), changed, key);
    } else if made == key {
      HandledShelters(a, uid, made, job);
    } else {
      CreateLists(job.w, a.p.mem.id, made, job.value.value, key);
      var created := CreateMissing(job.w, made, job.value.value);
      if created.value.Existing? {
        AdoptLists(a.p.(w := created.w), uid, made, job.value.value, created.value.job, key);
      }
    }
  }

  lemma {:induction false} LoopShelters(p: Pass, config: Config, images: Jobs.Images, order: seq<string>, uid: string)
    requires p.end.None? && p.mem.now.spec == p.mem.read.spec && uid in order
    requires uid in p.mem.now.spec.apps && Jobs.Buildable(images, p.mem.now.spec.apps[uid])
    ensures var a := AppLoop(Apps(p, []), config, images, order);
      a.p.end.Some? || Sheltered(a, p.mem.id, Jobs.JobKey(p.mem.id, uid, p.mem.now.spec.apps[uid]))
    decreases |order|
  {
    hide HandleApp, Jobs.InitJob, Sheltered;
    var n := |order| - 1;
    var a := AppLoop(Apps(p, []), config, images, order[..n]);
    Traces.LoopKeepsSpec(Apps(p, []), config, images, order[..n]);
    if a.p.end.None? {
      if order[n] == uid {
        OwnStepShelters(a, config, images, uid);
      } else {
        assert uid in order[..n];
        LoopShelters(p, config, images, order[..n], uid);
        OtherStepShelters(a, config, images, order[n], Jobs.JobKey(p.mem.id, uid, p.mem.now.spec.apps[uid]));
      }
    }
  }

  /** A request that deletes the job at `key`. */
  predicate Removes(op: Op, key: Key) { op.DeleteJobs? || (op.DeleteJob? && op.key == key) }

  /** Since the log had length `n`, no request was to delete the job at `key`. */
  ghost predicate Spared(w: World, n: nat, key: Key) {
    n <= |w.log| && forall i | n <= i < |w.log| :: !Removes(w.log[i].op, key)
  }

  ghost function Sparing(n: nat, key: Key): World -> bool { (x: World) => Spared(x, n, key) }

  /** No collection deletion either. */
  ghost function OneByOne(n: nat): World -> bool {
    (x: World) => n <= |x.log| && forall i | n <= i < |x.log| :: !x.log[i].op.DeleteJobs?
  }

  lemma SparedCall(w: World, op: Op, n: nat, key: Key)
    requires Spared(w, n, key) && !Removes(op, key)
    ensures Spared(After(w, op), n, key)
  {
  }

  lemma SparingKept(n: nat, key: Key, id: Key)
    ensures Traces.KeptByServer(Sparing(n, key), id) && Storage.KeptByTurns(Sparing(n, key), id)
    ensures Traces.KeptByPush(Sparing(n, key), id)
  {
  }

  lemma OneByOneKept(n: nat, id: Key)
    ensures Traces.KeptByApps(OneByOne(n), id) && Traces.KeptByPush(OneByOne(n), id)
  {
  }

  lemma LoopSpares(p: Pass, config: Config, images: Jobs.Images, order: seq<string>, n: nat, key: Key)
    requires Spared(p.w, n, key)
    ensures Spared(AppLoop(Apps(p, []), config, images, order).p.w, n, key)
  {
    var m, a := |p.w.log|, AppLoop(Apps(p, []), config, images, order);
    MarkedLoop(Apps(p, []), config, images, order, m);
    OneByOneKept(m, p.mem.id);
    Traces.AppLoopKeeps(Apps(p, []), config, images, order, OneByOne(m));
    LoopGrows(p, config, images, order);
    forall i | n <= i < |a.p.w.log| ensures !Removes(a.p.w.log[i].op, key) {
      if i < m {
        assert a.p.w.log[i] == a.p.w.log[..m][i] == p.w.log[i];
      }
    }
  }

  lemma LoopGrows(p: Pass, config: Config, images: Jobs.Images, order: seq<string>)
    ensures var log := AppLoop(Apps(p, []), config, images, order).p.w.log;
      |p.w.log| <= |log| && log[..|p.w.log|] == p.w.log
  {
    var base := p.w.log;
    var inv := (x: World) => |base| <= |x.log| && x.log[..|base|] == base;
    forall x, op | inv(x) ensures inv(After(x, op)) {
      assert After(x, op).log[..|base|] == x.log[..|base|];
    }
    assert Traces.KeptByApps(inv, p.mem.id) && Traces.KeptByPush(inv, p.mem.id);
    Traces.AppLoopKeeps(Apps(p, []), config, images, order, inv);
  }

  lemma {:induction false} SweepLoopSpares(p: Pass, found: seq<string>, listed: set<Key>, order: seq<Key>, n: nat,
        key: Key)
    requires Spared(p.w, n, key) && (key.name in found || key !in listed)
    ensures Spared(SweepLoop(p, found, listed, order).w, n, key)
    decreases |order|
  {
    if order != [] {
      var i := |order| - 1;
      SweepLoopSpares(p, found, listed, order[..i], n, key);
      if order[i] != key {
        SparedCall(SweepLoop(p, found, listed, order[..i]).w, DeleteJob(order[i]), n, key);
      }
    }
  }

  /** The sweep of an application phase leaves the job of every buildable app alone, whatever fails and whatever
      others do: the app's name was found, or its job carries no label by which it could be listed. */
  lemma PhaseSparesApp(p: Pass, config: Config, choice: Choice, uid: string, n: nat)
    requires p.end.None? && p.mem.now.spec == p.mem.read.spec && uid in choice.apps
    requires uid in p.mem.now.spec.apps && Jobs.Buildable(choice.images, p.mem.now.spec.apps[uid])
    requires Spared(p.w, n, Jobs.JobKey(p.mem.id, uid, p.mem.now.spec.apps[uid]))
    ensures Spared(Applications(p, config, choice).w, n, Jobs.JobKey(p.mem.id, uid, p.mem.now.spec.apps[uid]))
  {
    var key := Jobs.JobKey(p.mem.id, uid, p.mem.now.spec.apps[uid]);
    if ServerReady(p.mem) {
      LoopSpares(p, config, choice.images, choice.apps, n, key);
      LoopShelters(p, config, choice.images, choice.apps, uid);
      Traces.LoopKeepsSpec(Apps(p, []), config, choice.images, choice.apps);
      var a := AppLoop(Apps(p, []), config, choice.images, choice.apps);
      if a.p.end.None? {
        ShelteredSweep(a, choice.jobs, n, key);
      }
    }
  }

  lemma ShelteredSweep(a: Apps, order: seq<Key>, n: nat, key: Key)
    requires Spared(a.p.w, n, key) && Sheltered(a, a.p.mem.id, key)
    ensures Spared(Sweep(a.p, a.found, order).w, n, key)
  {
    var list := ListJobs(a.p.mem.id.name);
    SparedCall(a.p.w, list, n, key);
    if key.name !in a.found {
      CallLists(a.p.w, list, a.p.mem.id, key);
    }
    SweepLoopSpares(a.p.(w := After(a.p.w, list)), a.found, ListedJobs(Snapshot(a.p.w), a.p.mem.id.name), order, n,
      key);
  }

  // ---------------------------------------------------------- whole passes

  lemma KeptSpares(w: World, id: Key, key: Key)
    requires id in Snapshot(w).workbenches
    ensures var wb := Snapshot(w).workbenches[id];
      var kept := EnsureFinalizer(After(w, GetWorkbench(id)), Memory(id, wb, wb));
      && Spared(kept.w, |w.log|, key) && kept.mem.id == id
      && (kept.end.None? ==> kept.mem.now.spec == kept.mem.read.spec == wb.spec)
  {
    var wb, n := Snapshot(w).workbenches[id], |w.log|;
    SparedCall(w, GetWorkbench(id), n, key);
    SparedCall(After(w, GetWorkbench(id)), UpdateWorkbench(id, wb, wb.(finalizers := wb.finalizers + {FINALIZER})), n,
      key);
  }

  /** Up to the gate nothing is deleted, and the spec stays the one that was fetched. */
  lemma BeforeSpares(w: World, id: Key, config: Config, now: int, key: Key)
    requires id in Snapshot(w).workbenches
    ensures var b := FullPass.Before(w, id, config, now);
      && Spared(b.w, |w.log|, key)
      && (b.end.None? ==> b.mem.id == id && b.mem.now.spec == b.mem.read.spec == Snapshot(w).workbenches[id].spec)
  {
    var wb, n := Snapshot(w).workbenches[id], |w.log|;
    var kept := EnsureFinalizer(After(w, GetWorkbench(id)), Memory(id, wb, wb));
    KeptSpares(w, id, key);
    if kept.end.None? {
      SparingKept(n, key, id);
      Traces.ServerKeeps(kept, config, now, Sparing(n, key));
      Traces.ServerKeepsSpec(kept, config, now);
      Traces.PrepareKeeps(Server(kept, config, now), config, Sparing(n, key));
    }
  }

  /** Sweep correctness, app by app and over a whole pass: unless the workbench is being deleted, no request of
      the pass, under any failures and interleaving, is to delete the job of an app that can be built. */
  lemma PassSparesApps(w: World, id: Key, config: Config, choice: Choice, uid: string)
    requires id in Snapshot(w).workbenches && !Snapshot(w).workbenches[id].deleting
    requires var apps := Snapshot(w).workbenches[id].spec.apps; uid in apps && Jobs.Buildable(choice.images, apps[uid])
    ensures FullPass.GoOrders(w, id, config, choice) ==>
      var key := Jobs.JobKey(id, uid, Snapshot(w).workbenches[id].spec.apps[uid]);
      Spared(Reconcile(w, id, config, choice).w, |w.log|, key)
  {
    var wb := Snapshot(w).workbenches[id];
    var key, b := Jobs.JobKey(id, uid, wb.spec.apps[uid]), FullPass.Before(w, id, config, choice.now);
    SparedCall(w, GetWorkbench(id), |w.log|, key);
    if Ok(w, GetWorkbench(id)) && FullPass.GoOrders(w, id, config, choice) {
      BeforeSpares(w, id, config, choice.now, key);
      PassFromGate(w, id, config, choice);
      if b.end.None? && ServerReady(b.mem) {
        assert uid in choice.apps;
        PhaseSparesApp(b, config, choice, uid, |w.log|);
      }
    }
  }

  lemma PassFromGate(w: World, id: Key, config: Config, choice: Choice)
    requires Ok(w, GetWorkbench(id)) && id in Snapshot(w).workbenches && !Snapshot(w).workbenches[id].deleting
    ensures var b := FullPass.Before(w, id, config, choice.now);
      Reconcile(w, id, config, choice).w ==
      if b.end.None? && ServerReady(b.mem) then Applications(b, config, choice).w else b.w
  {
  }
}
