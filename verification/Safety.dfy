/**
 No orphans: over every run, whatever fails and whatever others do between two requests, a job or
 deployment that carries a workbench's label in its namespace has its workbench, with the finalizer.
 */
module Safety {
  import opened Options
  import opened Objects
  import opened Api
  import opened StatusUpdates
  import opened Controller
  import opened Traces
  import Storage

  predicate OwnsJob(c: Cluster, id: Key) {
    exists k | k in c.jobs :: k.ns == id.ns && Labelled(c.jobs[k].labels, id.name)
  }

  predicate OwnsDeployment(c: Cluster, id: Key) {
    exists k | k in c.deployments :: k.ns == id.ns && Labelled(c.deployments[k].labels, id.name)
  }

  predicate Owns(c: Cluster, id: Key) { OwnsJob(c, id) || OwnsDeployment(c, id) }

  predicate Held(c: Cluster, id: Key) {
    id in c.workbenches && FINALIZER in c.workbenches[id].finalizers
  }

  predicate Safe(c: Cluster, id: Key) { Owns(c, id) ==> Held(c, id) }

  /** Safe now, and before and after every request served so far. */
  ghost predicate SafeTrace(w: World, id: Key) {
    Safe(w.cluster, id) && forall e | e in w.log :: Safe(e.before, id) && Safe(e.after, id)
  }

  // ------------------------------------------------------- the environment

  lemma ActHeld(c: Cluster, step: EnvStep, id: Key)
    ensures Held(c, id) ==> Held(Act(c, step), id)
  {
  }

  lemma ActOwns(c: Cluster, step: EnvStep, id: Key)
    ensures OwnsJob(Act(c, step), id) ==> OwnsJob(c, id)
    ensures OwnsDeployment(Act(c, step), id) ==> OwnsDeployment(c, id)
  {
  }

  lemma {:induction false} EnvironmentSafe(c: Cluster, steps: seq<EnvStep>, id: Key)
    ensures Held(c, id) ==> Held(Environment(c, steps), id)
    ensures !OwnsJob(c, id) ==> !OwnsJob(Environment(c, steps), id)
    ensures !OwnsDeployment(c, id) ==> !OwnsDeployment(Environment(c, steps), id)
    ensures Safe(c, id) ==> Safe(Environment(c, steps), id)
    decreases |steps|
  {
    if steps != [] {
      ActHeld(c, steps[0], id);
      ActOwns(c, steps[0], id);
      EnvironmentSafe(Act(c, steps[0]), steps[1..], id);
    }
  }

  // --------------------------------------------------------------- requests

  /** Every request but a finalizer update, and every creation that is labelled for `req` in its namespace. */
  predicate ActiveOp(op: Op, req: Key) {
    ServerOp(op, req) || Storage.TurnOp(op, req) || AppOp(op, req) || PushOp(op, req)
  }

  lemma ApplyHeld(c: Cluster, op: Op, spared: set<Key>, req: Key, id: Key)
    requires Accepts(c, op) && ActiveOp(op, req)
    ensures Held(c, id) ==> Held(Apply(c, op, spared), id)
  {
  }

  lemma ApplyOwns(c: Cluster, op: Op, spared: set<Key>, req: Key, id: Key)
    requires Accepts(c, op) && ActiveOp(op, req)
    ensures id != req && !Owns(c, id) ==> !Owns(Apply(c, op, spared), id)
  {
  }

  /** Behind the finalizer of `req`, a request of its pass keeps every workbench safe. */
  lemma ActiveCall(w: World, op: Op, req: Key, id: Key)
    requires ActiveOp(op, req) && SafeTrace(w, id) && Held(w.cluster, req)
    ensures SafeTrace(After(w, op), id) && Held(After(w, op).cluster, req)
  {
    var tick := NextTick(w);
    EnvironmentSafe(w.cluster, tick.env, id);
    EnvironmentSafe(w.cluster, tick.env, req);
    var c := Snapshot(w);
    if Accepts(c, op) {
      var spared := if tick.fault.Lost? then tick.fault.spared else {};
      ApplyHeld(c, op, spared, req, req);
      ApplyHeld(c, op, spared, req, id);
      ApplyOwns(c, op, spared, req, id);
    }
  }

  /** A request that creates nothing and takes no finalizer away keeps safety, with or without a finalizer. */
  predicate ShrinkingOp(op: Op) {
    match op
    case UpdateWorkbench(_, read, next) => read.finalizers <= next.finalizers
    case ListJobs(_) => true
    case ListDeployments(_) => true
    case DeleteJobs(_, _) => true
    case DeleteDeployments(_, _) => true
    case GetWorkbench(_) => true
    case _ => false
  }

  lemma ApplyShrinking(c: Cluster, op: Op, spared: set<Key>, id: Key)
    requires Accepts(c, op) && ShrinkingOp(op)
    ensures Held(c, id) ==> Held(Apply(c, op, spared), id)
    ensures !OwnsJob(c, id) ==> !OwnsJob(Apply(c, op, spared), id)
    ensures !OwnsDeployment(c, id) ==> !OwnsDeployment(Apply(c, op, spared), id)
  {
  }

  lemma ShrinkingCall(w: World, op: Op, id: Key)
    requires ShrinkingOp(op) && SafeTrace(w, id)
    ensures SafeTrace(After(w, op), id)
    ensures !OwnsJob(w.cluster, id) ==> !OwnsJob(After(w, op).cluster, id)
    ensures !OwnsDeployment(w.cluster, id) ==> !OwnsDeployment(After(w, op).cluster, id)
    ensures !OwnsJob(Snapshot(w), id) ==> !OwnsJob(After(w, op).cluster, id)
    ensures !OwnsDeployment(Snapshot(w), id) ==> !OwnsDeployment(After(w, op).cluster, id)
  {
    var tick := NextTick(w);
    EnvironmentSafe(w.cluster, tick.env, id);
    if Accepts(Snapshot(w), op) {
      ApplyShrinking(Snapshot(w), op, if tick.fault.Lost? then tick.fault.spared else {}, id);
    }
  }

  // ------------------------------------------------------------ the phases

  lemma DeleteExternalSafe(w: World, req: Key, id: Key)
    requires SafeTrace(w, id)
    ensures SafeTrace(DeleteExternal(w, req).w, id)
    ensures DeleteExternal(w, req).value == Some(0) && id == req ==> !Owns(DeleteExternal(w, req).w.cluster, id)
  {
    hide SafeTrace, OwnsDeployment;
    var list := ListJobs(req.name);
    ShrinkingCall(w, list, id);
    var w1 := After(w, list);
    if ListedJobs(Snapshot(w), req.name) == {} {
      assert id == req ==> !OwnsJob(Snapshot(w), id) by {
        assert forall k | k in Snapshot(w).jobs :: k !in ListedJobs(Snapshot(w), req.name);
      }
      DeleteDeploymentsSafe(w1, req, id);
    } else {
      ShrinkingCall(w1, DeleteJobs(req.ns, req.name), id);
      ListedCount(ListedJobs(Snapshot(w), req.name));
      DeleteDeploymentsSafe(DeleteJobsOf(w, req).w, req, id);
    }
  }

  lemma ListedCount(keys: set<Key>)
    requires keys != {}
    ensures |keys| > 0
  {
  }

  lemma DeleteDeploymentsSafe(w: World, req: Key, id: Key)
    requires SafeTrace(w, id)
    ensures SafeTrace(DeleteDeploymentsOf(w, req).w, id)
    ensures !OwnsJob(w.cluster, id) ==> !OwnsJob(DeleteDeploymentsOf(w, req).w.cluster, id)
    ensures DeleteDeploymentsOf(w, req).value == Some(0) && id == req ==>
      !OwnsDeployment(DeleteDeploymentsOf(w, req).w.cluster, id)
  {
    var list := ListDeployments(req.name);
    ShrinkingCall(w, list, id);
    var w1 := After(w, list);
    if ListedDeployments(Snapshot(w), req.name) == {} {
      assert id == req ==> !OwnsDeployment(Snapshot(w), id) by {
        assert forall k | k in Snapshot(w).deployments :: k !in ListedDeployments(Snapshot(w), req.name);
      }
    } else {
      ShrinkingCall(w1, DeleteDeployments(req.ns, req.name), id);
    }
  }

  lemma StoreSafe(c: Cluster, req: Key, wb: Workbench, id: Key)
    requires Safe(c, id) && (id == req ==> !Owns(c, id))
    ensures Safe(Store(c, req, wb), id)
  {
  }

  lemma RemoveFinalizerSafe(w: World, op: Op, id: Key)
    requires op.UpdateWorkbench? && SafeTrace(w, id)
    requires id == op.id ==> !Owns(w.cluster, id)
    ensures SafeTrace(After(w, op), id)
  {
    EnvironmentSafe(w.cluster, NextTick(w).env, id);
    StoreSafe(Snapshot(w), op.id, op.next.(status := op.read.status), id);
  }

  /** The finalizer goes only when nothing labelled is left, and it frees no other workbench. */
  lemma TeardownSafe(w: World, mem: Memory, id: Key)
    requires SafeTrace(w, id)
    ensures SafeTrace(Teardown(w, mem).w, id)
  {
    hide DeleteExternal;
    DeleteExternalSafe(w, mem.id, id);
    var d := DeleteExternal(w, mem.id);
    if d.value == Some(0) {
      var next := mem.now.(finalizers := mem.now.finalizers - {FINALIZER});
      RemoveFinalizerSafe(d.w, UpdateWorkbench(mem.id, mem.read, next), id);
    }
  }

  lemma ActiveSafe(kept: Pass, config: Config, choice: Choice, id: Key)
    requires SafeTrace(kept.w, id) && Held(kept.w.cluster, kept.mem.id) && kept.end.None?
    ensures SafeTrace(AfterFinalizer(kept, config, choice).w, id)
  {
    var req := kept.mem.id;
    var inv := (x: World) => SafeTrace(x, id) && Held(x.cluster, req);
    forall x, op | inv(x) && ActiveOp(op, req) ensures inv(After(x, op)) {
      ActiveCall(x, op, req, id);
    }
    assert KeptByServer(inv, req) && Storage.KeptByTurns(inv, req) && KeptByApps(inv, req) && KeptByPush(inv, req) by {
      assert forall op | ServerOp(op, req) :: ActiveOp(op, req);
      assert forall op | Storage.TurnOp(op, req) :: ActiveOp(op, req);
      assert forall op | AppOp(op, req) :: ActiveOp(op, req);
      assert forall op | PushOp(op, req) :: ActiveOp(op, req);
    }
    Traces.ActiveKeeps(kept, config, choice, inv);
  }

  lemma ConvergeSafe(w: World, mem: Memory, config: Config, choice: Choice, id: Key)
    requires SafeTrace(w, id) && mem.read == mem.now
    requires FINALIZER in mem.now.finalizers ==> Held(w.cluster, mem.id)
    ensures SafeTrace(Converge(w, mem, config, choice).w, id)
  {
    hide AfterFinalizer;
    var kept := EnsureFinalizer(w, mem);
    if FINALIZER !in mem.now.finalizers {
      var next := mem.now.(finalizers := mem.now.finalizers + {FINALIZER});
      ShrinkingCall(w, UpdateWorkbench(mem.id, mem.read, next), id);
    }
    if kept.end.None? {
      ActiveSafe(kept, config, choice, id);
    }
  }

  lemma ReconcileSafe(w: World, req: Key, config: Config, choice: Choice, id: Key)
    requires SafeTrace(w, id)
    ensures SafeTrace(Reconcile(w, req, config, choice).w, id)
  {
    var get := GetWorkbench(req);
    ShrinkingCall(w, get, id);
    var c := Snapshot(w);
    if Ok(w, get) && req in c.workbenches {
      var wb := c.workbenches[req];
      var mem := Memory(req, wb, wb);
      TeardownSafe(After(w, get), mem, id);
      ConvergeSafe(After(w, get), mem, config, choice, id);
    }
  }

  // ------------------------------------------------------------------ runs

  /** One turn of the controller's work queue: whose pass, its configuration and choices, and its script. */
  datatype Visit = Visit(id: Key, config: Config, choice: Choice, script: seq<Tick>)

  /** The visits in turn. What happens between two of them is in the first tick of the later one. */
  function Run(w: World, visits: seq<Visit>): World {
    if visits == [] then w
    else
      var n := |visits| - 1;
      var v := visits[n];
      Reconcile(Run(w, visits[..n]).(script := v.script), v.id, v.config, v.choice).w
  }

  /** Safety over whole runs, for every workbench at once, at every request. */
  lemma {:induction false} NoOrphans(w: World, visits: seq<Visit>, id: Key)
    requires SafeTrace(w, id)
    ensures SafeTrace(Run(w, visits), id)
    decreases |visits|
  {
    if visits != [] {
      var n := |visits| - 1;
      NoOrphans(w, visits[..n], id);
      var v := visits[n];
      ReconcileSafe(Run(w, visits[..n]).(script := v.script), v.id, v.config, v.choice, id);
    }
  }

  /** Once the workbench is gone, none of its jobs and deployments remain, in any state a run went through. */
  lemma GoneMeansClean(c: Cluster, visits: seq<Visit>, id: Key, i: nat)
    requires !Owns(c, id)
    requires i < |Run(World(c, [], []), visits).log|
    ensures var e := Run(World(c, [], []), visits).log[i];
      (id !in e.before.workbenches ==> !Owns(e.before, id)) && (id !in e.after.workbenches ==> !Owns(e.after, id))
  {
    NoOrphans(World(c, [], []), visits, id);
    var log := Run(World(c, [], []), visits).log;
    assert log[i] in log;
  }
}
