/** The readiness gate: with the deployment at hand, no app job is touched before its pods are seen ready. */
module Gate {
  import opened Options
  import opened Objects
  import opened Api
  import opened StatusUpdates
  import opened Controller
  import opened Traces
  import Deployments
  import Storage

  /** A request that creates, suspends, resumes or deletes an application's job. */
  predicate TouchesApps(op: Op) {
    op.UpdateJob? || op.DeleteJob? || op.DeleteJobs? || (op.CreateJob? && "app" !in op.job.labels)
  }

  /** A listing of the pods of deployment `d` that found the server ready. */
  ghost predicate SawReady(e: Event, id: Key, d: Deployment) {
    e.op == ListPods(id.ns, d.selector) && e.ok && PodsReady(SelectPods(e.before.pods, id.ns, d.selector))
  }

  ghost predicate Untouched(w: World, n: nat) {
    n <= |w.log| && forall i | n <= i < |w.log| :: !TouchesApps(w.log[i].op)
  }

  ghost predicate Extends(base: seq<Event>, w: World) {
    |base| <= |w.log| && w.log[..|base|] == base
  }

  lemma UntouchedCall(w: World, op: Op, n: nat)
    requires Untouched(w, n) && !TouchesApps(op)
    ensures Untouched(After(w, op), n)
  {
  }

  lemma ExtendsCall(base: seq<Event>, w: World, op: Op)
    requires Extends(base, w)
    ensures Extends(base, After(w, op))
  {
  }

  ghost function QuietFor(base: seq<Event>, n: nat): World -> bool {
    (x: World) => Untouched(x, n) && Extends(base, x)
  }

  lemma QuietForKept(base: seq<Event>, n: nat, id: Key)
    ensures KeptByServer(QuietFor(base, n), id) && Storage.KeptByTurns(QuietFor(base, n), id)
    ensures KeptByPush(QuietFor(base, n), id)
  {
  }

  ghost function Growing(base: seq<Event>): World -> bool { (x: World) => Extends(base, x) }

  lemma GrowingKept(base: seq<Event>, id: Key)
    ensures KeptByApps(Growing(base), id) && KeptByPush(Growing(base), id)
  {
  }

  function Model(p: Pass, config: Config): Deployment {
    Deployments.InitDeployment(p.mem.id, p.mem.now.spec, config)
  }

  /** What the pass gets hold of: the deployment that exists, or the one it created. */
  function Obtained(p: Pass, config: Config): Step<Option<Deployment>> {
    EnsureDeployment(p.w, Deployments.DeploymentKey(p.mem.id), Model(p, config))
  }

  /** The recorded readiness is the observed one, at the position of the listing in the log. */
  lemma ObserveReady(p: Pass, d: Deployment, now: int)
    ensures var o := Observe(p, d, now);
      |p.w.log| < |o.w.log| && (ServerReady(o.mem) <==> SawReady(o.w.log[|p.w.log|], p.mem.id, d))
  {
    var op := ListPods(p.mem.id.ns, d.selector);
    var pods := SelectPods(Snapshot(p.w).pods, p.mem.id.ns, d.selector);
    HealthReady(pods, now);
    var (server, moved) := FromDeployment(p.mem.now.status.server, d);
    var health := ObserveHealth(p.w, p.mem.id.ns, d.selector, now);
    var (server', changed) := FromHealth(server, health.value);
    var q := Pass(health.w, WithServer(p.mem, server'), None);
    assert q.w.log[|p.w.log|].op == op;
    assert ServerReady(q.mem) <==> SawReady(q.w.log[|p.w.log|], p.mem.id, d);
    PushReady(q, moved || changed);
  }

  lemma PushReady(q: Pass, changed: bool)
    ensures ServerReady(PushIf(q, changed).mem) == ServerReady(q.mem)
    ensures Extends(q.w.log, PushIf(q, changed).w)
  {
  }

  /** The server phase touches no app job, and ends ready exactly when it saw the pods ready. */
  lemma ServerGate(p: Pass, config: Config, now: int)
    requires p.end.None? && Obtained(p, config).value.Some?
    ensures var s, n, d := Server(p, config, now), |p.w.log|, Obtained(p, config).value.value;
      && Untouched(s.w, n)
      && (ServerReady(s.mem) <==> exists j | n <= j < |s.w.log| :: SawReady(s.w.log[j], p.mem.id, d))
  {
    hide Correct, Observe, EnsureDeployment, KeptByServer, KeptByPush;
    var n := |p.w.log|;
    QuietForKept(p.w.log, n, p.mem.id);
    ServerKeeps(p, config, now, QuietFor(p.w.log, n));
    var found := Obtained(p, config);
    ObtainedListsNothing(p, config);
    var q := p.(w := found.w);
    ObserveReady(q, found.value.value, now);
    var o := Observe(q, found.value.value, now);
    var s := Server(p, config, now);
    var j := |found.w.log|;
    assert s == Correct(o, Deployments.DeploymentKey(p.mem.id), Model(p, config), found.value.value);
    CorrectListsNothing(o, Deployments.DeploymentKey(p.mem.id), Model(p, config), found.value.value);
    assert s.w.log[j] == o.w.log[j];
    OnlyListing(p, config, now);
  }

  lemma ObtainedListsNothing(p: Pass, config: Config)
    ensures |p.w.log| <= |Obtained(p, config).w.log|
    ensures forall i | |p.w.log| <= i < |Obtained(p, config).w.log| :: !Obtained(p, config).w.log[i].op.ListPods?
  {
  }

  lemma ObserveListsOnce(p: Pass, d: Deployment, now: int)
    ensures |p.w.log| < |Observe(p, d, now).w.log| && Extends(p.w.log, Observe(p, d, now).w)
    ensures forall i | |p.w.log| < i < |Observe(p, d, now).w.log| :: !Observe(p, d, now).w.log[i].op.ListPods?
  {
  }

  lemma CorrectListsNothing(p: Pass, key: Key, model: Deployment, found: Deployment)
    requires |model.main| == |model.init| == 1
    ensures Extends(p.w.log, Correct(p, key, model, found).w) && Correct(p, key, model, found).mem == p.mem
    ensures forall i | |p.w.log| <= i < |Correct(p, key, model, found).w.log| ::
      !Correct(p, key, model, found).w.log[i].op.ListPods?
  {
  }

  /** The pods are listed once. */
  lemma OnlyListing(p: Pass, config: Config, now: int)
    requires p.end.None? && Obtained(p, config).value.Some?
    ensures var s := Server(p, config, now); forall i | |p.w.log| <= i < |s.w.log| ::
      s.w.log[i].op.ListPods? ==> i == |Obtained(p, config).w.log|
  {
    var found := Obtained(p, config);
    ObtainedListsNothing(p, config);
    var q := p.(w := found.w);
    ObserveListsOnce(q, found.value.value, now);
    var o := Observe(q, found.value.value, now);
    CorrectListsNothing(o, Deployments.DeploymentKey(p.mem.id), Model(p, config), found.value.value);
    var s := Server(p, config, now);
    assert forall i | 0 <= i < |o.w.log| :: s.w.log[i] == s.w.log[..|o.w.log|][i] == o.w.log[i];
    assert forall i | 0 <= i < |found.w.log| :: o.w.log[i] == o.w.log[..|found.w.log|][i] == found.w.log[i];
  }

  lemma RestGate(s: Pass, config: Config, choice: Choice, n: nat)
    requires Untouched(s.w, n)
    ensures var v := AfterServer(s, config, choice);
      && Extends(s.w.log, v.w)
      && (forall i | n <= i < |v.w.log| :: TouchesApps(v.w.log[i].op) ==> ServerReady(s.mem) && |s.w.log| <= i)
      && (!ServerReady(s.mem) ==> v.end.Some?)
  {
    var id := s.mem.id;
    var v := AfterServer(s, config, choice);
    if s.end.None? {
      QuietForKept(s.w.log, n, id);
      PrepareKeeps(s, config, QuietFor(s.w.log, n));
      var q := Prepare(s, config);
      if q.end.None? {
        assert v == Applications(q, config, choice);
        ApplicationsGrow(q, config, choice);
        assert v.w.log[..|s.w.log|] == q.w.log[..|s.w.log|];
      }
    }
  }

  lemma ApplicationsGrow(q: Pass, config: Config, choice: Choice)
    ensures var v := Applications(q, config, choice).w;
      Extends(q.w.log, v) && forall i | 0 <= i < |q.w.log| :: v.log[i] == q.w.log[i]
  {
    GrowingKept(q.w.log, q.mem.id);
    ApplicationsKeeps(q, config, choice, Growing(q.w.log));
    var v := Applications(q, config, choice).w;
    assert forall i | 0 <= i < |q.w.log| :: v.log[i] == v.log[..|q.w.log|][i] == q.w.log[i];
  }

  /** Since the log had length `n`, an app was touched only after a listing showed the pods of `d` ready; without
      such a listing none was, and the pass ended there. */
  ghost predicate Gated(v: Pass, n: nat, id: Key, d: Deployment) {
    && n <= |v.w.log|
    && (forall i | n <= i < |v.w.log| :: TouchesApps(v.w.log[i].op) ==>
         exists j | n <= j < i :: SawReady(v.w.log[j], id, d))
    && ((forall j | n <= j < |v.w.log| :: !SawReady(v.w.log[j], id, d)) ==> Untouched(v.w, n) && v.end.Some?)
  }

  /** End to end: once the deployment is obtained, an app job is touched only after the pods were seen
      ready; otherwise none is, and the pass ends there. */
  lemma ReadinessGate(p: Pass, config: Config, choice: Choice)
    requires p.end.None? && Obtained(p, config).value.Some?
    ensures Gated(AfterFinalizer(p, config, choice), |p.w.log|, p.mem.id, Obtained(p, config).value.value)
  {
    hide Server, AfterServer, Obtained;
    var s := Server(p, config, choice.now);
    ServerGate(p, config, choice.now);
    RestGate(s, config, choice, |p.w.log|);
    GateFrom(s, AfterFinalizer(p, config, choice), |p.w.log|, p.mem.id, Obtained(p, config).value.value);
  }

  /** From the end `s` of the server phase to the end `v` of the pass. */
  lemma GateFrom(s: Pass, v: Pass, n: nat, id: Key, d: Deployment)
    requires ServerReady(s.mem) <==> exists j | n <= j < |s.w.log| :: SawReady(s.w.log[j], id, d)
    requires n <= |s.w.log| && Extends(s.w.log, v.w) && (!ServerReady(s.mem) ==> v.end.Some?)
    requires forall i | n <= i < |v.w.log| :: TouchesApps(v.w.log[i].op) ==> ServerReady(s.mem) && |s.w.log| <= i
    ensures Gated(v, n, id, d)
  {
    if ServerReady(s.mem) {
      SeenEarlier(s.w, v.w, n, id, d);
    }
  }

  lemma SeenEarlier(s: World, v: World, n: nat, id: Key, d: Deployment)
    requires Extends(s.log, v) && exists j | n <= j < |s.log| :: SawReady(s.log[j], id, d)
    ensures exists j | n <= j < |s.log| :: SawReady(v.log[j], id, d)
  {
    var j :| n <= j < |s.log| && SawReady(s.log[j], id, d);
    assert v.log[j] == v.log[..|s.log|][j] == s.log[j];
  }

  /** Without the deployment, a failed read or creation, the gate is the readiness recorded before. */
  lemma GateWithoutDeployment(p: Pass, config: Config, choice: Choice)
    requires p.end.None? && Obtained(p, config).value.None?
    ensures var v, n := AfterFinalizer(p, config, choice), |p.w.log|;
      && n <= |v.w.log|
      && (!ServerReady(p.mem) ==> Untouched(v.w, n) && v.end.Some?)
  {
    var n := |p.w.log|;
    var s := Server(p, config, choice.now);
    QuietForKept(p.w.log, n, p.mem.id);
    ServerKeeps(p, config, choice.now, QuietFor(p.w.log, n));
    assert s.mem == p.mem;
    RestGate(s, config, choice, n);
  }

  /** What may let a pass, from its finalizer on, touch an app at position `i` of the log. */
  ghost predicate Admitted(log: seq<Event>, n: nat, i: nat, kept: Pass, config: Config)
    requires i <= |log|
  {
    if Obtained(kept, config).value.Some? then
      exists j | n <= j < i :: SawReady(log[j], kept.mem.id, Obtained(kept, config).value.value)
    else ServerReady(kept.mem)
  }

  /** The gate of a whole pass over a workbench that is not being deleted: a touched app means pods seen ready
      earlier in the pass or, only if the deployment could not be had, readiness in the fetched status. */
  lemma PassGate(w: World, id: Key, config: Config, choice: Choice)
    requires Ok(w, GetWorkbench(id)) && id in Snapshot(w).workbenches && !Snapshot(w).workbenches[id].deleting
    ensures var wb, v := Snapshot(w).workbenches[id], Reconcile(w, id, config, choice).w;
      var kept := EnsureFinalizer(After(w, GetWorkbench(id)), Memory(id, wb, wb));
      && kept.mem.now.status == wb.status
      && forall i | |w.log| <= i < |v.log| && TouchesApps(v.log[i].op) :: Admitted(v.log, |w.log|, i, kept, config)
  {
    hide AfterFinalizer, Obtained, SawReady;
    var wb, w1 := Snapshot(w).workbenches[id], After(w, GetWorkbench(id));
    var kept := EnsureFinalizer(w1, Memory(id, wb, wb));
    UntouchedCall(w, GetWorkbench(id), |w.log|);
    UntouchedCall(w1, UpdateWorkbench(id, wb, wb.(finalizers := wb.finalizers + {FINALIZER})), |w.log|);
    if kept.end.None? {
      GrowsFromKept(kept, config, choice);
      if Obtained(kept, config).value.Some? {
        ReadinessGate(kept, config, choice);
      } else {
        GateWithoutDeployment(kept, config, choice);
      }
    }
  }

  lemma GrowsFromKept(kept: Pass, config: Config, choice: Choice)
    requires kept.end.None?
    ensures Extends(kept.w.log, AfterFinalizer(kept, config, choice).w)
    ensures forall k | 0 <= k < |kept.w.log| :: AfterFinalizer(kept, config, choice).w.log[k] == kept.w.log[k]
  {
    var base, id := kept.w.log, kept.mem.id;
    GrowingKept(base, id);
    forall x, op | Growing(base)(x) ensures Growing(base)(After(x, op)) {
      ExtendsCall(base, x, op);
    }
    ActiveKeeps(kept, config, choice, Growing(base));
    var v := AfterFinalizer(kept, config, choice).w;
    forall k | 0 <= k < |base| ensures v.log[k] == base[k] {
      assert v.log[..|base|][k] == v.log[k];
    }
  }

  lemma ApplyUntouched(c: Cluster, op: Op, spared: set<Key>, k: Key)
    requires Accepts(c, op) && !TouchesApps(op) && k in c.jobs
    ensures var jobs := Apply(c, op, spared).jobs; k in jobs && jobs[k] == c.jobs[k]
  {
  }

  /** A request that touches no app leaves every existing job as it was. */
  lemma UntouchedJobs(w: World, op: Op, k: Key)
    requires !TouchesApps(op) && k in Snapshot(w).jobs
    ensures k in After(w, op).cluster.jobs && After(w, op).cluster.jobs[k] == Snapshot(w).jobs[k]
  {
    var tick := NextTick(w);
    if Outcome(w, op) != Snapshot(w) {
      ApplyUntouched(Snapshot(w), op, if tick.fault.Lost? then tick.fault.spared else {}, k);
    }
  }
}
