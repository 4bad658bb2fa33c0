/** What an undisturbed pass makes of the server: its deployment, its service, and the recorded status. */
module Servers {
  import opened Options
  import opened Objects
  import opened Api
  import opened StatusUpdates
  import opened Controller
  import opened Convergence
  import opened FullPass
  import Deployments
  import Storage
  import Text
  import Traces

  // ----------------------------------------------------------- the model

  /** Deployments of different workbenches have different keys. */
  lemma DeploymentKeys(id: Key, other: Key)
    ensures Deployments.DeploymentKey(id) == Key(id.ns, id.name + "-server")
    ensures Deployments.DeploymentKey(id) == Deployments.DeploymentKey(other) <==> id == other
  {
    if id.name + "-server" == other.name + "-server" {
      Text.SuffixCancel(id.name, other.name, "-server");
    }
  }

  function ServerImage(spec: Spec, config: Config): string {
    config.serverImage + ":" + if spec.serverVersion == "" then "latest" else spec.serverVersion
  }

  function SidecarImage(config: Config): string {
    if config.sidecarImage == "" then "alpine/socat:latest" else config.sidecarImage
  }

  /** A new deployment: its labels, by which it selects its pods, and its two containers over one shared volume. */
  predicate NewServer(d: Deployment, id: Key, spec: Spec, config: Config) {
    && d.labels == d.selector == map["workbench" := id.name]
    && |d.main| == |d.init| == 1
    && d.main[0].name == "xpra-server" && d.main[0].image == ServerImage(spec, config)
    && d.init[0].name == "xpra-server-bind" && d.init[0].image == SidecarImage(config)
    && d.main[0].mounts == d.init[0].mounts == [Mount("x11-unix", "/tmp/.X11-unix", "")]
    && d.revision.None? && d.conditions == []
  }

  // -------------------------------------------------------- the correction

  /** One container list was wrong: not a single container, or not with this image. */
  predicate Stale(containers: seq<Container>, image: string) { |containers| != 1 || containers[0].image != image }

  /** `d` is `found` with one container of the right image in each list: a lone container keeps everything else,
      any other list becomes the model's. */
  predicate Corrected(found: Deployment, d: Deployment, model: Deployment)
    requires |model.main| == |model.init| == 1
  {
    && d.(main := found.main, init := found.init) == found
    && (if |found.main| == 1 then d.main == [found.main[0].(image := model.main[0].image)] else d.main == model.main)
    && (if |found.init| == 1 then d.init == [found.init[0].(image := model.init[0].image)] else d.init == model.init)
  }

  /** A request that rewrites a deployment. */
  ghost predicate Rewrote(w: World, n: nat) {
    exists i | n <= i < |w.log| :: w.log[i].op.UpdateDeployment?
  }

  ghost predicate NotRewritten(w: World, n: nat) {
    n <= |w.log| && forall i | n <= i < |w.log| :: !w.log[i].op.UpdateDeployment?
  }


  lemma UpdateCorrects(model: Deployment, found: Deployment)
    requires |model.main| == |model.init| == 1 && found.main != [] && found.init != []
    ensures var u := Deployments.Update(model, found);
      && u.Some? && Corrected(found, u.value.0, model)
      && (u.value.1 <==> Stale(found.main, model.main[0].image) || Stale(found.init, model.init[0].image))
      && (!u.value.1 ==> u.value.0 == found)
  {
  }

  /** Correcting a found deployment: it is stored corrected, and written exactly if it was wrong. */
  lemma CorrectStores(p: Pass, key: Key, model: Deployment, found: Deployment, n: nat)
    requires Calm(p) && |model.main| == |model.init| == 1 && NotRewritten(p.w, n)
    requires key in p.w.cluster.deployments && p.w.cluster.deployments[key] == found
    ensures var q := Correct(p, key, model, found);
      if found.main == [] || found.init == [] then
        q.end == Some(Error) && q.w.cluster.deployments == p.w.cluster.deployments && NotRewritten(q.w, n)
      else
        && q.end.None? && key in q.w.cluster.deployments
        && Corrected(found, q.w.cluster.deployments[key], model)
        && q.w.cluster.deployments == p.w.cluster.deployments[key := q.w.cluster.deployments[key]]
        && n <= |q.w.log|
        && (Rewrote(q.w, n) <==> Stale(found.main, model.main[0].image) || Stale(found.init, model.init[0].image))
  {
    if found.main != [] && found.init != [] {
      hide Deployments.Update;
      UpdateCorrects(model, found);
      var (next, updated) := Deployments.Update(model, found).value;
      var op := UpdateDeployment(key, found, next);
      QuietCall(p.w, op);
      if updated {
        assert Correct(p, key, model, found).w == After(p.w, op);
        assert After(p.w, op).log[|p.w.log|].op == op;
      } else {
        assert p.w.cluster.deployments[key := found] == p.w.cluster.deployments;
      }
    }
  }

  /** The deployment as an undisturbed server phase leaves it. */
  ghost predicate ServerDone(before: Cluster, after: Cluster, id: Key, config: Config)
    requires id in before.workbenches
  {
    var key, spec := Deployments.DeploymentKey(id), before.workbenches[id].spec;
    var model := Deployments.InitDeployment(id, spec, config);
    && key in after.deployments
    && after.deployments == before.deployments[key := after.deployments[key]]
    && NewServer(model, id, spec, config)
    && if key !in before.deployments then after.deployments[key] == model
       else if before.deployments[key].main == [] || before.deployments[key].init == [] then
         after.deployments == before.deployments
       else Corrected(before.deployments[key], after.deployments[key], model)
  }

  /** Whether it was wrong. */
  predicate ServerStale(before: Cluster, id: Key, config: Config)
    requires id in before.workbenches
  {
    var key, spec := Deployments.DeploymentKey(id), before.workbenches[id].spec;
    key in before.deployments &&
    var d := before.deployments[key];
    d.main != [] && d.init != [] && (Stale(d.main, ServerImage(spec, config)) || Stale(d.init, SidecarImage(config)))
  }

  lemma ModelServer(id: Key, spec: Spec, config: Config)
    ensures NewServer(Deployments.InitDeployment(id, spec, config), id, spec, config)
  {
  }

  lemma FreshServer(model: Deployment)
    requires |model.main| == |model.init| == 1
    ensures Corrected(model, model, model) && forall d: Deployment :: Corrected(model, d, model) ==> d == model
  {
    forall d: Deployment | Corrected(model, d, model) ensures d == model {
      assert d.main == model.main && d.init == model.init;
    }
  }

  lemma ObserveWrites(p: Pass, d: Deployment, now: int, n: nat)
    requires NotRewritten(p.w, n)
    ensures NotRewritten(Observe(p, d, now).w, n)
  {
  }

  lemma EnsureWrites(w: World, key: Key, model: Deployment, n: nat)
    requires Quiet(w) && NotRewritten(w, n)
    ensures var e := EnsureDeployment(w, key, model);
      && NotRewritten(e.w, n) && Quiet(e.w)
      && e.value == Some(if key in w.cluster.deployments then w.cluster.deployments[key] else model)
      && e.w.cluster == w.cluster.(deployments := w.cluster.deployments[key := e.value.value])
  {
    if key in w.cluster.deployments {
      assert w.cluster.deployments[key := w.cluster.deployments[key]] == w.cluster.deployments;
    }
  }

  lemma ServerPhase(p: Pass, config: Config, now: int, n: nat)
    requires Calm(p) && NotRewritten(p.w, n)
    ensures var s := Server(p, config, now);
      && ServerDone(p.w.cluster, s.w.cluster, p.mem.id, config) && n <= |s.w.log|
      && (Rewrote(s.w, n) <==> ServerStale(p.w.cluster, p.mem.id, config))
  {
    hide Observe, Correct, EnsureDeployment, Deployments.InitDeployment;
    var key := Deployments.DeploymentKey(p.mem.id);
    var model := Deployments.InitDeployment(p.mem.id, p.mem.now.spec, config);
    ModelServer(p.mem.id, p.mem.now.spec, config);
    EnsureWrites(p.w, key, model, n);
    var found := EnsureDeployment(p.w, key, model);
    var q, d := p.(w := found.w), found.value.value;
    QuietObserve(q, d, now);
    ObserveWrites(q, d, now, n);
    CorrectStores(Observe(q, d, now), key, model, d, n);
    FreshServer(model);
  }

  // ----------------------------------------------------------- whole passes

  lemma KeptServer(w: World, id: Key)
    requires Quiet(w) && id in w.cluster.workbenches && !w.cluster.workbenches[id].deleting
    ensures var wb := w.cluster.workbenches[id];
      var kept := EnsureFinalizer(After(w, GetWorkbench(id)), Memory(id, wb, wb));
      && Calm(kept) && kept.mem.id == id && kept.mem.now.spec == wb.spec && NotRewritten(kept.w, |w.log|)
      && kept.w.cluster == w.cluster.(workbenches := kept.w.cluster.workbenches)
  {
    var wb, w1 := w.cluster.workbenches[id], After(w, GetWorkbench(id));
    QuietCall(w, GetWorkbench(id));
    QuietFinalizer(w1, id);
    QuietCall(w1, UpdateWorkbench(id, wb, wb.(finalizers := wb.finalizers + {FINALIZER})));
  }

  /** Behind the server no request touches a deployment. */
  ghost function SameDeployments(c: Cluster, n: nat, rewritten: bool): World -> bool {
    (x: World) => Quiet(x) && n <= |x.log| && x.cluster.deployments == c.deployments && (Rewrote(x, n) <==> rewritten)
  }

  lemma QuietKeeps(x: World, op: Op, c: Cluster, n: nat, rewritten: bool)
    requires SameDeployments(c, n, rewritten)(x)
    requires !op.UpdateDeployment? && !op.CreateDeployment? && !op.DeleteDeployments?
    ensures SameDeployments(c, n, rewritten)(After(x, op))
  {
    var y := After(x, op);
    QuietCall(x, op);
    assert y.log[|x.log|].op == op && forall i | 0 <= i < |x.log| :: y.log[i] == x.log[i];
  }

  lemma ServiceKeepsDeployments(p: Pass, c: Cluster, n: nat, rewritten: bool)
    requires SameDeployments(c, n, rewritten)(p.w)
    ensures SameDeployments(c, n, rewritten)(Service(p).w)
  {
    QuietKeeps(p.w, GetService(p.mem.id), c, n, rewritten);
    QuietKeeps(After(p.w, GetService(p.mem.id)), CreateService(p.mem.id), c, n, rewritten);
  }

  lemma RestKeepsDeployments(p: Pass, config: Config, choice: Choice, c: Cluster, n: nat, rewritten: bool)
    requires p.end.None? && SameDeployments(c, n, rewritten)(p.w)
    ensures SameDeployments(c, n, rewritten)(AfterServer(p, config, choice).w)
  {
    var inv := SameDeployments(c, n, rewritten);
    var id := p.mem.id;
    ServiceKeepsDeployments(p, c, n, rewritten);
    forall x, op | inv(x) && (Storage.TurnOp(op, id) || Traces.AppOp(op, id) || Traces.PushOp(op, id))
      ensures inv(After(x, op))
    {
      QuietKeeps(x, op, c, n, rewritten);
    }
    var served := Service(p);
    assert served.mem == p.mem;
    Storage.ProcessKeeps(served.w, config, id, Storage.EnabledProviders(config, p.mem.now.spec), inv);
    var q := Prepare(p, config);
    assert q.mem == p.mem && inv(q.w);
    Traces.ApplicationsKeeps(q, config, choice, inv);
  }

  lemma ActivePass(w: World, id: Key, config: Config, choice: Choice)
    requires Quiet(w) && id in w.cluster.workbenches && !w.cluster.workbenches[id].deleting
    ensures var wb := w.cluster.workbenches[id];
      var kept := EnsureFinalizer(After(w, GetWorkbench(id)), Memory(id, wb, wb));
      kept.end.None? ==>
        Reconcile(w, id, config, choice).w == AfterServer(Server(kept, config, choice.now), config, choice).w
  {
    QuietCall(w, GetWorkbench(id));
  }

  /** The server after an undisturbed pass, however it ends: a missing deployment was created as the model says, a
      found one has one container of the wanted image in each list and is otherwise as it was, unless it lacked
      containers; it was written exactly if it was wrong; and no other deployment changed. */
  lemma PassCorrectsServer(w: World, id: Key, config: Config, choice: Choice)
    requires Quiet(w) && id in w.cluster.workbenches && !w.cluster.workbenches[id].deleting
    ensures var v := Reconcile(w, id, config, choice).w;
      && ServerDone(w.cluster, v.cluster, id, config)
      && (Rewrote(v, |w.log|) <==> ServerStale(w.cluster, id, config))
  {
    hide Server, AfterServer, EnsureFinalizer, Reconcile, ServerStale;
    var wb, n := w.cluster.workbenches[id], |w.log|;
    var kept := EnsureFinalizer(After(w, GetWorkbench(id)), Memory(id, wb, wb));
    KeptServer(w, id);
    ServerPhase(kept, config, choice.now, n);
    QuietServer(kept, config, choice.now);
    ActivePass(w, id, config, choice);
    var s := Server(kept, config, choice.now);
    AfterServerKeeps(s, config, choice, n);
    SameStart(w.cluster, kept.w.cluster, id, config);
  }

  lemma SameStart(c: Cluster, d: Cluster, id: Key, config: Config)
    requires id in c.workbenches && id in d.workbenches && c.workbenches[id].spec == d.workbenches[id].spec
    requires c.deployments == d.deployments
    ensures ServerStale(c, id, config) == ServerStale(d, id, config)
  {
  }

  lemma AfterServerKeeps(s: Pass, config: Config, choice: Choice, n: nat)
    requires Quiet(s.w) && n <= |s.w.log|
    ensures var v := AfterServer(s, config, choice).w;
      v.cluster.deployments == s.w.cluster.deployments && (Rewrote(v, n) <==> Rewrote(s.w, n))
  {
    if s.end.None? {
      RestKeepsDeployments(s, config, choice, s.w.cluster, n, Rewrote(s.w, n));
    }
  }

  /** So the images follow the spec and the configuration. */
  lemma ImagesFollow(w: World, id: Key, config: Config, choice: Choice)
    requires Quiet(w) && id in w.cluster.workbenches && !w.cluster.workbenches[id].deleting
    ensures var d, e := ServerOf(w.cluster, id, config), Reconcile(w, id, config, choice).w.cluster;
      d.main != [] && d.init != [] ==>
        var key, spec := Key(id.ns, id.name + "-server"), w.cluster.workbenches[id].spec;
        && key in e.deployments && |e.deployments[key].main| == |e.deployments[key].init| == 1
        && e.deployments[key].main[0].image ==
             config.serverImage + ":" + (if spec.serverVersion == "" then "latest" else spec.serverVersion)
        && e.deployments[key].init[0].image ==
             (if config.sidecarImage == "" then "alpine/socat:latest" else config.sidecarImage)
        && e.deployments[key].labels == d.labels && e.deployments[key].selector == d.selector
  {
    hide Reconcile, Deployments.InitDeployment;
    PassCorrectsServer(w, id, config, choice);
    ModelServer(id, w.cluster.workbenches[id].spec, config);
  }

  // ---------------------------------------------------------- the workbench

  ghost function OnlyStatus(wbs: map<Key, Workbench>, id: Key): World -> bool {
    (x: World) => Quiet(x) && SameButStatus(x.cluster.workbenches, wbs, id)
  }

  predicate SameButStatus(now: map<Key, Workbench>, wbs: map<Key, Workbench>, id: Key) {
    id in wbs && id in now && now == wbs[id := wbs[id].(status := now[id].status)]
  }

  lemma OnlyStatusCall(x: World, op: Op, wbs: map<Key, Workbench>, id: Key)
    requires OnlyStatus(wbs, id)(x) && !op.UpdateWorkbench? && (op.UpdateStatus? ==> op.id == id)
    ensures OnlyStatus(wbs, id)(After(x, op))
  {
  }

  /** What an undisturbed pass makes of a workbench that is not being deleted: it has the finalizer, and apart from
      its status nothing else has changed, nor has any other workbench. */
  lemma PassKeepsWorkbenches(w: World, id: Key, config: Config, choice: Choice)
    requires Quiet(w) && id in w.cluster.workbenches && !w.cluster.workbenches[id].deleting
    ensures var wbs, wb := w.cluster.workbenches, w.cluster.workbenches[id];
      var finalizers := wb.finalizers + {"default.k8s.chorus-tre.ch/finalizer"};
      var after := Reconcile(w, id, config, choice).w.cluster.workbenches;
      SameButStatus(after, wbs[id := wb.(finalizers := finalizers)], id)
  {
    hide AfterFinalizer;
    var wb, w1 := w.cluster.workbenches[id], After(w, GetWorkbench(id));
    var wbs := w.cluster.workbenches[id := wb.(finalizers := wb.finalizers + {FINALIZER})];
    QuietCall(w, GetWorkbench(id));
    assert wb.finalizers + {FINALIZER} == wb.finalizers <==> FINALIZER in wb.finalizers;
    assert FINALIZER in wb.finalizers ==> wbs == w.cluster.workbenches;
    var kept := EnsureFinalizer(w1, Memory(id, wb, wb));
    var inv := OnlyStatus(wbs, id);
    forall x: World, op: Op | inv(x) && !op.UpdateWorkbench? && (op.UpdateStatus? ==> op.id == id)
      ensures inv(After(x, op))
    {
      OnlyStatusCall(x, op, wbs, id);
    }
    Traces.ActiveKeeps(kept, config, choice, inv);
  }

  // ------------------------------------------------------------ the service

  ghost function SameServices(services: set<Key>): World -> bool {
    (x: World) => Quiet(x) && x.cluster.services == services
  }

  lemma ServicesKept(x: World, op: Op, services: set<Key>)
    requires SameServices(services)(x) && !op.CreateService?
    ensures SameServices(services)(After(x, op))
  {
  }

  lemma QuietServiceMade(p: Pass)
    requires Calm(p)
    ensures var q := Service(p); q.end.None? && Quiet(q.w) && q.w.cluster.services == p.w.cluster.services + {p.mem.id}
  {
    if p.mem.id in p.w.cluster.services {
      assert p.w.cluster.services + {p.mem.id} == p.w.cluster.services;
    }
  }

  lemma ServerKeepsServices(p: Pass, config: Config, now: int)
    requires Calm(p)
    ensures Server(p, config, now).w.cluster.services == p.w.cluster.services
  {
    var key := Deployments.DeploymentKey(p.mem.id);
    var model := Deployments.InitDeployment(p.mem.id, p.mem.now.spec, config);
    var found := EnsureDeployment(p.w, key, model);
    QuietEnsureDeployment(p.w, key, model);
    var o := Observe(p.(w := found.w), found.value.value, now);
    QuietObserve(p.(w := found.w), found.value.value, now);
    ObserveKeepsServices(p.(w := found.w), found.value.value, now);
    CorrectKeepsServices(o, key, model, found.value.value);
  }

  lemma ObserveKeepsServices(p: Pass, d: Deployment, now: int)
    requires Quiet(p.w)
    ensures Observe(p, d, now).w.cluster.services == p.w.cluster.services
  {
    hide FromDeployment, ObserveHealth, FromHealth;
    var (server, moved) := FromDeployment(p.mem.now.status.server, d);
    var health := ObserveHealth(p.w, p.mem.id.ns, d.selector, now);
    ListKeepsServices(p.w, p.mem.id.ns, d.selector, now);
    var (server', changed) := FromHealth(server, health.value);
    PushKeepsServices(Pass(health.w, WithServer(p.mem, server'), None), moved || changed);
  }

  lemma ListKeepsServices(w: World, ns: string, selector: Labels, now: int)
    requires Quiet(w)
    ensures var h := ObserveHealth(w, ns, selector, now); Quiet(h.w) && h.w.cluster.services == w.cluster.services
  {
  }

  lemma PushKeepsServices(p: Pass, changed: bool)
    requires Quiet(p.w)
    ensures PushIf(p, changed).w.cluster.services == p.w.cluster.services
  {
  }

  lemma CorrectKeepsServices(p: Pass, key: Key, model: Deployment, found: Deployment)
    requires Quiet(p.w) && |model.main| == |model.init| == 1
    ensures Correct(p, key, model, found).w.cluster.services == p.w.cluster.services
  {
    hide Deployments.Update;
  }

  /** An undisturbed pass has the service created if it is missing, unless the deployment lacks containers. */
  lemma PassMakesService(w: World, id: Key, config: Config, choice: Choice)
    requires Quiet(w) && id in w.cluster.workbenches && !w.cluster.workbenches[id].deleting
    ensures var d, e := ServerOf(w.cluster, id, config), Reconcile(w, id, config, choice).w.cluster;
      e.services == if d.main != [] && d.init != [] then w.cluster.services + {id} else w.cluster.services
  {
    hide Server, EnsureFinalizer, Reconcile, AfterServer;
    var wb := w.cluster.workbenches[id];
    var kept := EnsureFinalizer(After(w, GetWorkbench(id)), Memory(id, wb, wb));
    KeptServer(w, id);
    ActivePass(w, id, config, choice);
    ServerAtGate(kept, config, choice.now);
    QuietServer(kept, config, choice.now);
    ServerKeepsServices(kept, config, choice.now);
    AfterServerService(Server(kept, config, choice.now), config, choice);
  }

  lemma AfterServerService(s: Pass, config: Config, choice: Choice)
    requires s.end.None? ==> Calm(s)
    ensures var v := AfterServer(s, config, choice).w;
      v.cluster.services == if s.end.None? then s.w.cluster.services + {s.mem.id} else s.w.cluster.services
  {
    if s.end.None? {
      QuietServiceMade(s);
      var served, id := Service(s), s.mem.id;
      var inv := SameServices(served.w.cluster.services);
      forall x, op | inv(x) && (Storage.TurnOp(op, id) || Traces.AppOp(op, id) || Traces.PushOp(op, id))
        ensures inv(After(x, op))
      {
        ServicesKept(x, op, served.w.cluster.services);
      }
      Storage.ProcessKeeps(served.w, config, id, Storage.EnabledProviders(config, s.mem.now.spec), inv);
      Traces.ApplicationsKeeps(Prepare(s, config), config, choice, inv);
    }
  }

  // ------------------------------------------------------ recorded status

  /** The server status that a deployment and the listed pods give. */
  function ServerSeen(before: ServerStatus, d: Deployment, pods: seq<Pod>, ns: string, now: int): ServerStatus {
    FromDeployment(before, d).0.(pod := Some(PodsHealth(SelectPods(pods, ns, d.selector), now)))
  }

  lemma ObserveRecords(p: Pass, d: Deployment, now: int)
    requires Calm(p)
    ensures Observe(p, d, now).mem.now.status.server ==
      ServerSeen(p.mem.now.status.server, d, p.w.cluster.pods, p.mem.id.ns, now)
  {
    hide PodsHealth, FromDeployment;
  }

  lemma ServerRecords(p: Pass, config: Config, now: int)
    requires Calm(p)
    ensures Server(p, config, now).mem.now.status.server ==
      ServerSeen(p.mem.now.status.server, ServerOf(p.w.cluster, p.mem.id, config), p.w.cluster.pods, p.mem.id.ns, now)
  {
    hide ServerSeen, Observe, Deployments.Update, Deployments.InitDeployment;
    var key := Deployments.DeploymentKey(p.mem.id);
    var model := Deployments.InitDeployment(p.mem.id, p.mem.now.spec, config);
    ModelServer(p.mem.id, p.mem.now.spec, config);
    EnsureWrites(p.w, key, model, |p.w.log|);
    var found := EnsureDeployment(p.w, key, model);
    ObserveRecords(p.(w := found.w), found.value.value, now);
  }

  lemma ApplicationsKeepServer(b: Pass, config: Config, choice: Choice)
    requires Calm(b) && forall uid | uid in choice.apps :: uid in b.mem.now.spec.apps
    ensures Applications(b, config, choice).mem.now.status.server == b.mem.now.status.server
  {
    if ServerReady(b.mem) {
      QuietAppLoop(b, GoalOf(b.w.cluster, b.mem.id, config, choice.images), choice.apps);
      var a := AppLoop(Apps(b, []), config, choice.images, choice.apps);
      SweepPhaseInStep(a.p, a.found, choice.jobs);
    }
  }

  lemma GateRecords(w: World, id: Key, config: Config, now: int)
    requires Quiet(w) && id in w.cluster.workbenches && !w.cluster.workbenches[id].deleting
    ensures Before(w, id, config, now).mem.now.status.server ==
      ServerSeen(w.cluster.workbenches[id].status.server, ServerOf(w.cluster, id, config), w.cluster.pods, id.ns, now)
  {
    hide Server, ServerSeen, EnsureFinalizer, Prepare;
    var wb := w.cluster.workbenches[id];
    var kept := EnsureFinalizer(After(w, GetWorkbench(id)), Memory(id, wb, wb));
    KeptServer(w, id);
    KeptStatus(w, id);
    ServerRecords(kept, config, now);
    QuietServer(kept, config, now);
    var server := Server(kept, config, now);
    if server.end.None? {
      QuietPrepare(server, config);
    }
  }

  lemma KeptStatus(w: World, id: Key)
    requires Quiet(w) && id in w.cluster.workbenches && !w.cluster.workbenches[id].deleting
    ensures var wb := w.cluster.workbenches[id];
      EnsureFinalizer(After(w, GetWorkbench(id)), Memory(id, wb, wb)).mem.now.status == wb.status
  {
  }

  /** After an undisturbed pass, however it ends, the stored server status is what the deployment it found or made
      and the pods it listed say. */
  lemma PassRecordsServer(w: World, id: Key, config: Config, choice: Choice)
    requires Quiet(w) && id in w.cluster.workbenches && !w.cluster.workbenches[id].deleting
    requires forall uid | uid in choice.apps :: uid in w.cluster.workbenches[id].spec.apps
    ensures var e := Reconcile(w, id, config, choice).w.cluster;
      && id in e.workbenches
      && e.workbenches[id].status.server ==
           ServerSeen(w.cluster.workbenches[id].status.server, ServerOf(w.cluster, id, config), w.cluster.pods, id.ns,
             choice.now)
  {
    hide ServerSeen, UpToGate, Applications;
    var b := Before(w, id, config, choice.now);
    NoLostStatus(w, id, config, choice);
    QuietBefore(w, id, config, choice.now);
    GateRecords(w, id, config, choice.now);
    ReconcileSplit(w, id, config, choice);
    if b.end.None? {
      ApplicationsKeepServer(b, config, choice);
    }
  }
}
