/** Concrete passes in which the code does what one would not expect. */
module Witnesses {
  import opened Options
  import opened Objects
  import opened Api
  import opened StatusUpdates
  import opened Controller
  import opened Convergence
  import opened FullPass
  import opened Idempotence
  import Deployments
  import Gate
  import Jobs
  import Names
  import Orders
  import Provisioning
  import Storage
  import Text

  const ID := Key("n", "w")

  const NO_STORAGE := Some(StorageConfig(false, false, false))

  function UpStatus(name: string): ContainerStatus {
    ContainerStatus(name, true, 0, ContainerState(None, None, None))
  }

  const SERVER_UP :=
    Deployment(map[], map[], [Container("bind", "s", [], UNLIMITED)], [Container("server", "x", [], UNLIMITED)], None,
      [])

  const POD_UP := Pod("n", map[], 0, false, [UpStatus(BIND)], [UpStatus(SERVER)])

  /** A cluster whose server is up, with one workbench. */
  function UpCluster(spec: Spec, jobs: map<Key, Job>, secrets: map<Key, map<string, string>>,
        drivers: set<string>): Cluster
  {
    Cluster(map[ID := Workbench(false, {FINALIZER}, spec, FRESH_STATUS)], jobs,
            map[Deployments.DeploymentKey(ID) := SERVER_UP], {}, map[], map[], [POD_UP], secrets, drivers)
  }

  predicate ServerUp(c: Cluster) {
    var key := Deployments.DeploymentKey(ID);
    && ID in c.workbenches && !c.workbenches[ID].deleting
    && key in c.deployments && c.deployments[key] == SERVER_UP && c.pods == [POD_UP]
  }

  /** Wherever that server and pod are, a pass gets through the gate. */
  lemma UpReady(w: World, config: Config, now: int)
    requires Quiet(w) && ServerUp(w.cluster)
    ensures var b := Before(w, ID, config, now); b.end.None? && ServerReady(b.mem)
  {
    var pods := SelectPods([POD_UP], "n", map[]);
    assert pods == [POD_UP] by {
      assert Matches(POD_UP.labels, map[]) && POD_UP.ns == "n";
      assert SelectPods([POD_UP][1..], "n", map[]) == [];
    }
    assert POD_UP.init[0].name == BIND && POD_UP.main[0].name == SERVER;
    assert ReadyIn(POD_UP.init, BIND) && ReadyIn(POD_UP.main, SERVER) && IsLatest(pods, 0);
    GateReached(w, ID, config, now);
  }

  // ------------------------------------------------------- iteration orders

  /** Two apps, one with a hyphen in its uid, that get the same job name. */
  function Colliding(state: AppState): map<string, App> {
    map["a" := Names.Sample("b-c", AppState.Running), "a-b" := Names.Sample("c", state)]
  }

  lemma SampleName()
    ensures Text.LastPart("apps/a", '/') == "a"
  {
    Text.SplitAtSeparator("apps", '/', "a");
    Text.SplitFree("a", '/');
    assert "apps/a" == "apps" + ['/'] + "a";
  }

  lemma SampleJobs(a: App, b: App)
    requires a.name == "b-c" && b.name == "c"
    ensures Jobs.JobKey(ID, "a", a) == Jobs.JobKey(ID, "a-b", b)
  {
    assert Jobs.JobName(ID, "a", a) == "w-a-b-c" == Jobs.JobName(ID, "a-b", b);
  }

  lemma CollidingShare(g: Goal, state: AppState)
    requires g.id == ID && g.images == map[] && g.spec.apps == Colliding(state)
    ensures Share(g, "a", "a-b") && Runs(g, "a")
  {
    SampleName();
    SampleJobs(g.spec.apps["a"], g.spec.apps["a-b"]);
  }

  /** Two whole undisturbed passes over one cluster that differ in nothing but the order of the app map, and
      end in different clusters, whatever the state the second app is wanted in. */
  lemma OrderMatters(config: Config, state: AppState) returns (w: World, one: Choice, two: Choice)
    ensures Quiet(w) && ID in w.cluster.workbenches && w.cluster.workbenches[ID].spec.apps == Colliding(state)
    ensures one.images == two.images && one.now == two.now
    ensures ReadyPass(w, ID, config, one) && ReadyPass(w, ID, config, two)
    ensures Reconcile(w, ID, config, one).w.cluster != Reconcile(w, ID, config, two).w.cluster
  {
    var spec := Spec(Colliding(state), "u", "", "", NO_STORAGE);
    w := World(UpCluster(spec, map[], map[], {}), [], []);
    UpReady(w, config, 0);
    var g := GoalOf(w.cluster, ID, config, map[]);
    CollidingShare(g, state);
    assert Supplied(w.cluster, ID, config) == w.cluster;
    Orders.PassOrderIndependence(w, ID, config, map[], 0);
    var x: Choice, y: Choice :| x.images == y.images == map[] && x.now == y.now == 0 &&
      ReadyPass(w, ID, config, x) && ReadyPass(w, ID, config, y) &&
      Reconcile(w, ID, config, x).w.cluster != Reconcile(w, ID, config, y).w.cluster;
    one, two := x, y;
  }

  // --------------------------------------------------------------- leftovers

  /** How a leftover comes about: the setup job is created, the creation of the volume fails. */
  lemma LeftoverArises(config: Config, id: Key, c: Cluster, log: seq<Event>)
    requires config.localEnabled
    ensures var p, calm := Storage.LocalProvider(), Tick([], NoFault);
      !Provisioning.HasVolume(c, id, p) && Storage.SetupKey(p, id.ns) !in c.jobs ==>
      var t := Storage.Turn(World(c, [calm, calm, Tick([], Rejected)], log), config, id, p);
      t.value == Storage.Broken && Blocked(t.w.cluster, config, id, p)
  {
    var p, calm := Storage.LocalProvider(), Tick([], NoFault);
    if !Provisioning.HasVolume(c, id, p) && Storage.SetupKey(p, id.ns) !in c.jobs {
      SetupThenFailure(World(c, [calm, calm, Tick([], Rejected)], log), config, id,
        Storage.VolumeFor(config, p, id.ns, map[]));
    }
  }

  lemma SetupThenFailure(w: World, config: Config, id: Key, volume: PersistentVolume)
    requires w.script == [Tick([], NoFault), Tick([], NoFault), Tick([], Rejected)]
    requires var p := Storage.LocalProvider();
      !Provisioning.HasVolume(w.cluster, id, p) && Storage.SetupKey(p, id.ns) !in w.cluster.jobs
    ensures var p := Storage.LocalProvider();
      var e := Storage.EnsureVolume(w, config, id, p, volume);
      !e.value && !Provisioning.HasVolume(e.w.cluster, id, p) && Storage.SetupKey(p, id.ns) in e.w.cluster.jobs
  {
    hide After, Snapshot, Ok, Outcome;
    var p := Storage.LocalProvider();
    var name, key := Storage.PersistentVolumeName(p, id.ns), Storage.SetupKey(p, id.ns);
    CalmCall(w, GetVolume(name));
    var w1, op := After(w, GetVolume(name)), CreateJob(key, Storage.SetupJob(config, p, id, map[]));
    CalmCall(w1, op);
    FailedCreation(After(w1, op), name, volume);
    assert Storage.Setup(w1, config, id, p) == Step(After(w1, op), true);
  }

  lemma CalmCall(w: World, op: Op)
    requires w.script != [] && w.script[0] == Tick([], NoFault)
    ensures Snapshot(w) == w.cluster && After(w, op).script == w.script[1..] && Ok(w, op) == Accepts(w.cluster, op)
    ensures After(w, op).cluster == if Ok(w, op) then Apply(w.cluster, op, {}) else w.cluster
  {
  }

  lemma FailedCreation(w: World, name: string, volume: PersistentVolume)
    requires w.script == [Tick([], Rejected)]
    ensures !Ok(w, CreateVolume(name, volume)) && After(w, CreateVolume(name, volume)).cluster == w.cluster
  {
  }

  /** A cluster with such a leftover for the NFS provider. */
  function LeftoverCluster(config: Config): Cluster {
    var p, data := Storage.NfsProvider(config), map["server" := "s", "share" := "/"];
    UpCluster(Spec(map[], "u", "", "", Some(StorageConfig(false, true, false))),
              map[Storage.SetupKey(p, "n") := Storage.SetupJob(config, p, ID, data)],
              map[config.nfsSecret := data], {p.driver})
  }

  lemma LeftoverBlocks(config: Config)
    ensures var c := LeftoverCluster(config);
      var providers := Storage.EnabledProviders(config, c.workbenches[ID].spec);
      !Unblocked(c, config, ID, providers) && Recoverable(GoalOf(c, ID, config, map[]), c)
  {
    var c, p := LeftoverCluster(config), Storage.NfsProvider(config);
    assert Storage.EnabledProviders(config, c.workbenches[ID].spec) == [p];
    assert Blocked(c, config, ID, p) && Sweepable(GoalOf(c, ID, config, map[]), c, p);
    assert p in [p];
  }

  lemma WithoutApps(w: World, config: Config) returns (choice: Choice)
    requires Quiet(w) && ServerUp(w.cluster) && w.cluster.workbenches[ID].spec.apps == map[]
    ensures ReadyPass(w, ID, config, choice) && choice.images == map[] && choice.now == 0
  {
    UpReady(w, config, 0);
    QuietBefore(w, ID, config, 0);
    choice := Orders.ChoiceOf(Before(w, ID, config, 0), config, map[], 0, []);
  }

  /** A pass through the gate, and the world another one may find later with the server still up. */
  lemma FirstPass(w: World, config: Config) returns (one: Choice, v: World)
    requires Quiet(w) && ServerUp(w.cluster) && w.cluster.workbenches[ID].spec.apps == map[]
    ensures ReadyPass(w, ID, config, one) && one.images == map[] && Reconcile(w, ID, config, one).verdict == Done
    ensures var c := Reconcile(w, ID, config, one).w.cluster;
      Resumed(c, v.cluster, ID) && Quiet(v) && ServerUp(v.cluster)
    ensures v.cluster.workbenches[ID].spec.apps == map[]
  {
    one := WithoutApps(w, config);
    PassConverges(w, ID, config, one);
    EndsUndeleted(w, ID, config, one);
    var c := Reconcile(w, ID, config, one).w.cluster;
    v := World(c.(deployments := w.cluster.deployments, pods := w.cluster.pods), [], []);
  }

  lemma WritesAgain(w: World, config: Config) returns (v: World, one: Choice, two: Choice)
    requires Quiet(w) && ServerUp(w.cluster) && w.cluster.workbenches[ID].spec.apps == map[]
    requires !Unblocked(w.cluster, config, ID, Storage.EnabledProviders(config, w.cluster.workbenches[ID].spec))
    requires Recoverable(GoalOf(w.cluster, ID, config, map[]), w.cluster)
    ensures InARow(w, v, ID, config, one, two)
    ensures Reconcile(w, ID, config, one).verdict == Done && !Idle(v, Reconcile(v, ID, config, two).w)
    ensures AtRest(Reconcile(v, ID, config, two).w.cluster, ID, config, one.images)
  {
    one, v := FirstPass(w, config);
    two := WithoutApps(v, config);
    IdempotentExactly(w, v, ID, config, one, two);
    RecoversExactly(w, v, ID, config, one, two);
  }

  /** Two undisturbed passes in a row, both through the gate and both without an error, of which the second
      still writes a job; only then is the workbench at rest. */
  lemma SecondPassWrites(config: Config) returns (w: World, v: World, one: Choice, two: Choice)
    ensures InARow(w, v, ID, config, one, two)
    ensures Reconcile(w, ID, config, one).verdict == Done && !Idle(v, Reconcile(v, ID, config, two).w)
    ensures AtRest(Reconcile(v, ID, config, two).w.cluster, ID, config, one.images)
  {
    w := World(LeftoverCluster(config), [], []);
    LeftoverBlocks(config);
    v, one, two := WritesAgain(w, config);
  }

  // ---------------------------------------------------------------- the gate

  const STALE := Status(
    ServerStatus(1, ServerPhase.Running, Some(PodHealth(PodPhase.Ready, true, 0, Message.Text("Container is ready")))),
    map[])

  const EXTRA := Key("n", "extra")

  /** No pod, no deployment, but a status that still says ready, and a labelled job of no app. */
  function StaleCluster(): Cluster {
    Cluster(map[ID := Workbench(false, {FINALIZER}, Spec(map[], "u", "", "", NO_STORAGE), STALE)],
            map[EXTRA := Job(map[LABEL := "w"], None, PodSpec("", [], [], []), NEW_JOB_STATUS)],
            map[], {ID}, map[], map[], [], map[], {})
  }

  /** After the fetch, the read of the deployment is rejected, and the pass reaches the gate all the same. */
  lemma StaleAtGate(w: World, mem: Memory, config: Config)
    requires w.cluster == StaleCluster() && w.script == [Tick([], Rejected)]
    requires mem == Memory(ID, w.cluster.workbenches[ID], w.cluster.workbenches[ID])
    ensures var b, w1 := UpToGate(w, mem, config, 0), After(w, GetDeployment(Deployments.DeploymentKey(ID)));
      b == Pass(After(w1, GetService(ID)), mem, None) && Quiet(b.w) && b.w.cluster == w.cluster
  {
    var op := GetDeployment(Deployments.DeploymentKey(ID));
    assert !Ok(w, op) && After(w, op).script == [] && After(w, op).cluster == w.cluster;
    assert Storage.EnabledProviders(config, mem.now.spec) == [];
  }

  lemma OnlyOne(p: Pass, listed: set<Key>, key: Key)
    ensures SweepLoop(p, [], listed, [key]) == SweepStep(p, [], listed, key)
  {
    assert SweepLoop(p, [], listed, [key][..0]) == p;
  }

  lemma StaleSweep(p: Pass, config: Config)
    requires p.end.None? && ServerReady(p.mem) && p.mem.id == ID && Ok(p.w, ListJobs("w"))
    requires EXTRA in ListedJobs(Snapshot(p.w), "w")
    ensures Applications(p, config, Choice([], [EXTRA], map[], 0)).w ==
      After(After(p.w, ListJobs("w")), DeleteJob(EXTRA))
  {
    var q := p.(w := After(p.w, ListJobs("w")));
    OnlyOne(q, ListedJobs(Snapshot(p.w), "w"), EXTRA);
  }

  lemma StaleDelete(w: World)
    requires Quiet(w) && w.cluster == StaleCluster()
    ensures var w1, op := After(w, ListJobs("w")), DeleteJob(EXTRA);
      && Ok(w, ListJobs("w")) && EXTRA in ListedJobs(Snapshot(w), "w")
      && Ok(w1, op) && EXTRA !in After(w1, op).cluster.jobs
  {
    QuietCall(w, ListJobs("w"));
  }

  predicate Listless(log: seq<Event>) { forall e | e in log :: !e.op.ListPods? }

  lemma StaleApplications(b: Pass, config: Config)
    requires Quiet(b.w) && b.w.cluster == StaleCluster() && b.end.None? && ServerReady(b.mem) && b.mem.id == ID
    requires Listless(b.w.log)
    ensures var v := Applications(b, config, Choice([], [EXTRA], map[], 0)).w;
      && (exists i | 0 <= i < |v.log| :: v.log[i].op == DeleteJob(EXTRA) && v.log[i].ok)
      && (forall j, d | 0 <= j < |v.log| :: !Gate.SawReady(v.log[j], ID, d))
      && EXTRA !in v.cluster.jobs
  {
    hide Applications, StaleCluster;
    StaleDelete(b.w);
    StaleSweep(b, config);
    var v := Applications(b, config, Choice([], [EXTRA], map[], 0)).w;
    assert v.log[|v.log| - 1].op == DeleteJob(EXTRA) && v.log[|v.log| - 1].ok && Listless(v.log);
  }

  const STALE_WORLD := World(StaleCluster(), [Tick([], NoFault), Tick([], Rejected)], [])

  lemma StaleSplit(config: Config, b: Pass)
    requires var wb := StaleCluster().workbenches[ID];
      b == UpToGate(After(STALE_WORLD, GetWorkbench(ID)), Memory(ID, wb, wb), config, 0) && b.end.None?
    ensures var choice := Choice([], [EXTRA], map[], 0);
      Reconcile(STALE_WORLD, ID, config, choice).w == Applications(b, config, choice).w
  {
  }

  /** A whole pass whose read of the deployment is rejected, and that deletes a job although it lists no pod. */
  lemma StaleGate(config: Config)
    ensures var v := Reconcile(STALE_WORLD, ID, config, Choice([], [EXTRA], map[], 0)).w;
      && (exists i | 0 <= i < |v.log| :: v.log[i].op == DeleteJob(EXTRA) && v.log[i].ok)
      && (forall j, d | 0 <= j < |v.log| :: !Gate.SawReady(v.log[j], ID, d))
      && EXTRA !in v.cluster.jobs
  {
    var w, wb := STALE_WORLD, StaleCluster().workbenches[ID];
    var w1 := After(w, GetWorkbench(ID));
    var b := UpToGate(w1, Memory(ID, wb, wb), config, 0);
    assert Quiet(b.w) && b.w.cluster == StaleCluster() && b.mem == Memory(ID, wb, wb) && b.end.None?
      && Listless(b.w.log) by {
      assert w1.script == [Tick([], Rejected)] && w1.cluster == w.cluster;
      StaleAtGate(w1, Memory(ID, wb, wb), config);
    }
    StaleApplications(b, config);
    StaleSplit(config, b);
  }
}
