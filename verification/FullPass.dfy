/** Undisturbed passes from end to end: when they get through the gate, where they end, and no lost status change. */
module FullPass {
  import opened Objects
  import opened Api
  import opened StatusUpdates
  import opened Controller
  import opened Convergence
  import opened ClosedForm
  import Deployments
  import Jobs
  import Provisioning
  import Storage

  // ------------------------------------------------ before the applications

  /** A pass over a workbench that is not being deleted, up to the readiness gate. */
  function Before(w: World, id: Key, config: Config, now: int): Pass
    requires id in Snapshot(w).workbenches
  {
    var wb := Snapshot(w).workbenches[id];
    UpToGate(After(w, GetWorkbench(id)), Memory(id, wb, wb), config, now)
  }

  /** In step, whether or not the pass already returned. */
  predicate InStep(p: Pass) { Quiet(p.w) && Synced(p) }

  /** What the phases before the applications leave alone. */
  predicate SameDesire(c: Cluster, d: Cluster, id: Key) {
    && id in c.workbenches && id in d.workbenches
    && SameStores(c, d)
    && d.workbenches[id].spec == c.workbenches[id].spec
    && d.workbenches[id].status.apps == c.workbenches[id].status.apps
    && d.workbenches[id].deleting == c.workbenches[id].deleting
  }

  lemma QuietFinalizer(w: World, id: Key)
    requires Quiet(w) && id in w.cluster.workbenches && !w.cluster.workbenches[id].deleting
    ensures var wb := w.cluster.workbenches[id];
      var k := EnsureFinalizer(w, Memory(id, wb, wb));
      Calm(k) && k.mem.id == id && SameDesire(w.cluster, k.w.cluster, id)
  {
    var wb := w.cluster.workbenches[id];
    QuietCall(w, UpdateWorkbench(id, wb, wb.(finalizers := wb.finalizers + {FINALIZER})));
  }

  lemma QuietEnsureDeployment(w: World, key: Key, model: Deployment)
    requires Quiet(w)
    ensures var e := EnsureDeployment(w, key, model);
      && Quiet(e.w) && e.value.Some? && key in e.w.cluster.deployments && e.w.cluster.deployments[key] == e.value.value
      && e.w.cluster == w.cluster.(deployments := e.w.cluster.deployments)
  {
  }

  lemma QuietObserve(p: Pass, d: Deployment, now: int)
    requires Calm(p)
    ensures var o := Observe(p, d, now);
      && Calm(o) && o.mem.id == p.mem.id && SameDesire(p.w.cluster, o.w.cluster, p.mem.id)
      && o.w.cluster.deployments == p.w.cluster.deployments
  {
  }

  lemma QuietCorrect(p: Pass, key: Key, model: Deployment, found: Deployment)
    requires Calm(p) && |model.main| == |model.init| == 1
    requires key in p.w.cluster.deployments && p.w.cluster.deployments[key] == found
    ensures var q := Correct(p, key, model, found);
      InStep(q) && q.mem == p.mem && SameDesire(p.w.cluster, q.w.cluster, p.mem.id)
  {
    hide Deployments.Update;
  }

  lemma QuietServer(p: Pass, config: Config, now: int)
    requires Calm(p)
    ensures var s := Server(p, config, now);
      InStep(s) && s.mem.id == p.mem.id && SameDesire(p.w.cluster, s.w.cluster, p.mem.id)
  {
    var key := Deployments.DeploymentKey(p.mem.id);
    var model := Deployments.InitDeployment(p.mem.id, p.mem.now.spec, config);
    QuietEnsureDeployment(p.w, key, model);
    var found := EnsureDeployment(p.w, key, model);
    QuietObserve(p.(w := found.w), found.value.value, now);
    QuietCorrect(Observe(p.(w := found.w), found.value.value, now), key, model, found.value.value);
  }

  lemma QuietService(p: Pass)
    requires Calm(p)
    ensures var s := Service(p);
      Calm(s) && s.mem == p.mem && s.w.cluster == p.w.cluster.(services := s.w.cluster.services)
  {
  }

  /** The cluster as an undisturbed storage phase leaves it, starting from `c`. */
  function Supplied(c: Cluster, id: Key, config: Config): Cluster
    requires id in c.workbenches
  {
    Provisioning.ProvidedAll(c, config, id, Storage.EnabledProviders(config, c.workbenches[id].spec))
  }

  /** Between the server and the gate only the storage objects and setup jobs change. */
  predicate Provisioned(c: Cluster, d: Cluster, config: Config, id: Key)
    requires id in c.workbenches
  {
    SameStores(Supplied(c, id, config), d)
  }

  /** The same jobs, storage objects, secrets and drivers: all that provisioning reads and writes. */
  predicate SameStores(c: Cluster, d: Cluster) {
    d.jobs == c.jobs && d.volumes == c.volumes && d.claims == c.claims && d.secrets == c.secrets
      && d.drivers == c.drivers
  }

  lemma ProvidedSameStep(c: Cluster, d: Cluster, config: Config, id: Key, p: Storage.Provider)
    requires SameStores(c, d)
    ensures SameStores(Provisioning.Provided(c, config, id, p), Provisioning.Provided(d, config, id, p))
  {
    hide Storage.SetupKey, Storage.SetupJob, Storage.VolumeFor;
    assert Provisioning.CanProvide(c, config, id, p) == Provisioning.CanProvide(d, config, id, p);
    assert SameStores(Provisioning.WithVolume(c, config, id, p), Provisioning.WithVolume(d, config, id, p));
  }

  lemma {:induction false} ProvidedSame(c: Cluster, d: Cluster, config: Config, id: Key,
        providers: seq<Storage.Provider>)
    requires SameStores(c, d)
    ensures SameStores(Provisioning.ProvidedAll(c, config, id, providers),
      Provisioning.ProvidedAll(d, config, id, providers))
    decreases |providers|
  {
    if providers != [] {
      var n := |providers| - 1;
      ProvidedSame(c, d, config, id, providers[..n]);
      ProvidedSameStep(Provisioning.ProvidedAll(c, config, id, providers[..n]),
                       Provisioning.ProvidedAll(d, config, id, providers[..n]), config, id, providers[n]);
    }
  }

  lemma QuietPrepare(p: Pass, config: Config)
    requires Calm(p)
    ensures var q := Prepare(p, config);
      && Calm(q) && q.mem == p.mem && Provisioned(p.w.cluster, q.w.cluster, config, p.mem.id)
      && q.w.cluster.workbenches == p.w.cluster.workbenches
  {
    QuietService(p);
    var s := Service(p);
    var providers := Storage.EnabledProviders(config, p.mem.now.spec);
    Provisioning.QuietProcess(s.w, config, p.mem.id, providers);
    Provisioning.ProvidedFrame(s.w.cluster, config, p.mem.id, providers);
    ProvidedSame(p.w.cluster, s.w.cluster, config, p.mem.id, providers);
  }

  /** Up to the gate, an undisturbed pass stays in step and, if it gets there, has provisioned the storage. */
  lemma QuietBefore(w: World, id: Key, config: Config, now: int)
    requires Quiet(w) && id in w.cluster.workbenches && !w.cluster.workbenches[id].deleting
    ensures var b := Before(w, id, config, now);
      && InStep(b) && b.mem.id == id
      && b.mem.now.spec == w.cluster.workbenches[id].spec && b.mem.now.status.apps == AppsOf(w.cluster, id)
      && !b.mem.now.deleting
      && (b.end.None? ==> Calm(b) && Provisioned(w.cluster, b.w.cluster, config, id))
  {
    QuietCall(w, GetWorkbench(id));
    var w1 := After(w, GetWorkbench(id));
    QuietFinalizer(w1, id);
    var wb := w.cluster.workbenches[id];
    var kept := EnsureFinalizer(w1, Memory(id, wb, wb));
    QuietServer(kept, config, now);
    var server := Server(kept, config, now);
    if server.end.None? {
      QuietPrepare(server, config);
      ProvidedSame(w.cluster, server.w.cluster, config, id, Storage.EnabledProviders(config, wb.spec));
    }
  }

  lemma ReconcileSplit(w: World, id: Key, config: Config, choice: Choice)
    requires Quiet(w) && id in w.cluster.workbenches && !w.cluster.workbenches[id].deleting
    ensures var b := Before(w, id, config, choice.now);
      Reconcile(w, id, config, choice) == Finish(if b.end.Some? then b else Applications(b, config, choice))
  {
  }

  lemma PassIsApplications(w: World, id: Key, config: Config, choice: Choice)
    requires Quiet(w) && id in w.cluster.workbenches && !w.cluster.workbenches[id].deleting
    ensures var b := Before(w, id, config, choice.now);
      b.end.None? ==> Reconcile(w, id, config, choice) == Finish(Applications(b, config, choice))
  {
    ReconcileSplit(w, id, config, choice);
  }

  // ------------------------------------------------------- no lost status

  lemma {:induction false} SweepInStep(p: Pass, found: seq<string>, listed: set<Key>, order: seq<Key>)
    requires Calm(p)
    ensures InStep(SweepLoop(p, found, listed, order)) && SweepLoop(p, found, listed, order).mem == p.mem
    decreases |order|
  {
    if order != [] {
      var n := |order| - 1;
      SweepInStep(p, found, listed, order[..n]);
      QuietCall(SweepLoop(p, found, listed, order[..n]).w, DeleteJob(order[n]));
    }
  }

  lemma SweepPhaseInStep(p: Pass, found: seq<string>, order: seq<Key>)
    requires Calm(p)
    ensures InStep(Sweep(p, found, order)) && Sweep(p, found, order).mem == p.mem
  {
    var list := ListJobs(p.mem.id.name);
    QuietCall(p.w, list);
    SweepInStep(p.(w := After(p.w, list)), found, ListedJobs(p.w.cluster, p.mem.id.name), order);
  }

  lemma ApplicationsInStep(p: Pass, config: Config, choice: Choice)
    requires Calm(p) && forall uid | uid in choice.apps :: uid in p.mem.now.spec.apps
    ensures InStep(Applications(p, config, choice)) && Applications(p, config, choice).mem.id == p.mem.id
  {
    if ServerReady(p.mem) {
      QuietAppLoop(p, GoalOf(p.w.cluster, p.mem.id, config, choice.images), choice.apps);
      var a := AppLoop(Apps(p, []), config, choice.images, choice.apps);
      SweepPhaseInStep(a.p, a.found, choice.jobs);
    }
  }

  /** No status change is lost: after an undisturbed pass, however it ends, the stored workbench is the one
      in memory. */
  lemma NoLostStatus(w: World, id: Key, config: Config, choice: Choice)
    requires Quiet(w) && id in w.cluster.workbenches && !w.cluster.workbenches[id].deleting
    requires forall uid | uid in choice.apps :: uid in w.cluster.workbenches[id].spec.apps
    ensures var f := Reconcile(w, id, config, choice);
      f.mem.Some? && id in f.w.cluster.workbenches && f.w.cluster.workbenches[id] == f.mem.value.now
  {
    QuietBefore(w, id, config, choice.now);
    ReconcileSplit(w, id, config, choice);
    var b := Before(w, id, config, choice.now);
    if b.end.None? {
      ApplicationsInStep(b, config, choice);
    }
  }

  /** If the pass, undisturbed or not, gets through the gate, its orders are ones that Go may take. */
  ghost predicate GoOrders(w: World, id: Key, config: Config, choice: Choice) {
    Ok(w, GetWorkbench(id)) && id in Snapshot(w).workbenches && !Snapshot(w).workbenches[id].deleting ==>
      var b := Before(w, id, config, choice.now);
      b.end.None? && ServerReady(b.mem) ==> TakesOrders(b, config, choice)
  }

  /** The pass gets through the gate, in orders that Go may take. */
  ghost predicate ReadyPass(w: World, id: Key, config: Config, choice: Choice)
    requires id in Snapshot(w).workbenches
  {
    var b := Before(w, id, config, choice.now);
    b.end.None? && ServerReady(b.mem) && TakesOrders(b, config, choice)
  }

  lemma GoalFromStart(c: Cluster, b: Pass, config: Config, images: Jobs.Images)
    requires Calm(b) && b.mem.id in c.workbenches && b.mem.now.spec == c.workbenches[b.mem.id].spec
    requires Provisioned(c, b.w.cluster, config, b.mem.id)
    ensures var g := GoalOf(c, b.mem.id, config, images);
      Pursues(b, g) && (OrderFree(g, b.w.cluster) <==> OrderFree(g, Supplied(c, b.mem.id, config)))
  {
    var providers := Storage.EnabledProviders(config, b.mem.now.spec);
    Provisioning.ProvidedFrame(c, config, b.mem.id, providers);
    UsableFrame(c, b.w.cluster, config, providers);
  }

  /** At the gate, the pass pursues the goal of the cluster it started from. */
  lemma GoalAtGate(w: World, id: Key, config: Config, images: Jobs.Images, now: int)
    requires Quiet(w) && id in w.cluster.workbenches && !w.cluster.workbenches[id].deleting
    ensures var b, g := Before(w, id, config, now), GoalOf(w.cluster, id, config, images);
      b.end.None? ==> Pursues(b, g) && (OrderFree(g, b.w.cluster) <==> OrderFree(g, Supplied(w.cluster, id, config)))
  {
    QuietBefore(w, id, config, now);
    if Before(w, id, config, now).end.None? {
      GoalFromStart(w.cluster, Before(w, id, config, now), config, images);
    }
  }

  lemma ConvergesFromGate(b: Pass, g: Goal, choice: Choice)
    requires Pursues(b, g) && ServerReady(b.mem) && choice.images == g.images && TakesOrders(b, g.config, choice)
    ensures var f := Finish(Applications(b, g.config, choice));
      f.verdict == Done && (Closed(g, b.w.cluster, f.w.cluster) <==> OrderFree(g, b.w.cluster))
  {
    Converges(b, g, choice);
  }

  /** Convergence of a whole pass: whatever it found, an undisturbed pass that reaches a ready server succeeds,
      and ends in the closed form of the cluster as the storage phase left it exactly if no apps that share a
      job make the order matter. */
  lemma PassConverges(w: World, id: Key, config: Config, choice: Choice)
    requires Quiet(w) && id in w.cluster.workbenches && !w.cluster.workbenches[id].deleting
    ensures ReadyPass(w, id, config, choice) ==>
      var g, b, f := GoalOf(w.cluster, id, config, choice.images), Before(w, id, config, choice.now),
        Reconcile(w, id, config, choice);
      && Provisioned(w.cluster, b.w.cluster, config, id)
      && id in b.w.cluster.workbenches && b.w.cluster.workbenches[id].spec == w.cluster.workbenches[id].spec
      && f.verdict == Done
      && (Closed(g, b.w.cluster, f.w.cluster) <==> OrderFree(g, Supplied(w.cluster, id, config)))
  {
    var b, g := Before(w, id, config, choice.now), GoalOf(w.cluster, id, config, choice.images);
    if ReadyPass(w, id, config, choice) {
      assert Provisioned(w.cluster, b.w.cluster, config, id)
        && id in b.w.cluster.workbenches && b.w.cluster.workbenches[id].spec == w.cluster.workbenches[id].spec by {
        QuietBefore(w, id, config, choice.now);
      }
      GoalAtGate(w, id, config, choice.images, choice.now);
      PassIsApplications(w, id, config, choice);
      ConvergesFromGate(b, g, choice);
    }
  }

  // ------------------------------------------------------------- the gate

  /** The deployment an undisturbed pass works with: the one that exists, or the one it creates. */
  function ServerOf(c: Cluster, id: Key, config: Config): Deployment
    requires id in c.workbenches
  {
    var key := Deployments.DeploymentKey(id);
    if key in c.deployments then c.deployments[key]
    else Deployments.InitDeployment(id, c.workbenches[id].spec, config)
  }

  lemma ServerAtGate(p: Pass, config: Config, now: int)
    requires Calm(p)
    ensures var s, d := Server(p, config, now), ServerOf(p.w.cluster, p.mem.id, config);
      && (s.end.None? <==> d.main != [] && d.init != [])
      && (ServerReady(s.mem) <==> PodsReady(SelectPods(p.w.cluster.pods, p.mem.id.ns, d.selector)))
  {
    var key := Deployments.DeploymentKey(p.mem.id);
    var model := Deployments.InitDeployment(p.mem.id, p.mem.now.spec, config);
    QuietEnsureDeployment(p.w, key, model);
    var found := EnsureDeployment(p.w, key, model);
    var q, d := p.(w := found.w), found.value.value;
    ObservedReady(q, d, now);
    QuietObserve(q, d, now);
    CorrectEnds(Observe(q, d, now), key, model, d);
  }

  lemma ObservedReady(p: Pass, d: Deployment, now: int)
    requires Calm(p)
    ensures ServerReady(Observe(p, d, now).mem) <==> PodsReady(SelectPods(p.w.cluster.pods, p.mem.id.ns, d.selector))
  {
    HealthReady(SelectPods(p.w.cluster.pods, p.mem.id.ns, d.selector), now);
  }

  lemma CorrectEnds(p: Pass, key: Key, model: Deployment, found: Deployment)
    requires Calm(p) && |model.main| == |model.init| == 1
    requires key in p.w.cluster.deployments && p.w.cluster.deployments[key] == found
    ensures Correct(p, key, model, found).end.None? <==> found.main != [] && found.init != []
    ensures Correct(p, key, model, found).mem == p.mem
  {
  }

  /** An undisturbed pass gets through the gate exactly if the deployment has its two kinds of containers and
      the pods it selects are ready. */
  lemma GateReached(w: World, id: Key, config: Config, now: int)
    requires Quiet(w) && id in w.cluster.workbenches && !w.cluster.workbenches[id].deleting
    ensures var b, d := Before(w, id, config, now), ServerOf(w.cluster, id, config);
      b.end.None? && ServerReady(b.mem) <==>
      d.main != [] && d.init != [] && PodsReady(SelectPods(w.cluster.pods, id.ns, d.selector))
  {
    QuietCall(w, GetWorkbench(id));
    var w1, wb := After(w, GetWorkbench(id)), w.cluster.workbenches[id];
    QuietFinalizer(w1, id);
    var kept := EnsureFinalizer(w1, Memory(id, wb, wb));
    assert kept.w.cluster.deployments == w.cluster.deployments && kept.w.cluster.pods == w.cluster.pods;
    ServerAtGate(kept, config, now);
    QuietServer(kept, config, now);
    var server := Server(kept, config, now);
    if server.end.None? {
      QuietPrepare(server, config);
    }
  }
}
