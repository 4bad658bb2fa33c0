/** The deletion protocol: jobs, then deployments, then the finalizer; and when it comes to an end. */
module Deletion {
  import opened Options
  import opened Objects
  import opened Api
  import opened StatusUpdates
  import opened Controller
  import opened Safety

  function OwnJobs(c: Cluster, id: Key): set<Key> { set k | k in ListedJobs(c, id.name) && k.ns == id.ns }

  function OwnDeployments(c: Cluster, id: Key): set<Key> {
    set k | k in ListedDeployments(c, id.name) && k.ns == id.ns
  }

  /** No component of the measure (labelled jobs, labelled deployments, finalizer) grew from `c` to `d`. */
  predicate Shrunk(c: Cluster, d: Cluster, id: Key) {
    OwnJobs(d, id) <= OwnJobs(c, id) && OwnDeployments(d, id) <= OwnDeployments(c, id) && (Held(d, id) ==> Held(c, id))
  }

  lemma ActShrinks(c: Cluster, step: EnvStep, id: Key)
    ensures Shrunk(c, Act(c, step), id)
  {
  }

  lemma {:induction false} EnvironmentShrinks(c: Cluster, steps: seq<EnvStep>, id: Key)
    ensures Shrunk(c, Environment(c, steps), id)
    decreases |steps|
  {
    if steps != [] {
      ActShrinks(c, steps[0], id);
      EnvironmentShrinks(Act(c, steps[0]), steps[1..], id);
    }
  }

  predicate Creates(op: Op) {
    op.CreateJob? || op.CreateDeployment? || op.CreateService? || op.CreateVolume? || op.CreateClaim?
  }

  /** The requests of a pass over a workbench that is being deleted. */
  predicate TeardownOp(op: Op, id: Key) {
    match op
    case GetWorkbench(_) => true
    case ListJobs(_) => true
    case ListDeployments(_) => true
    case DeleteJobs(ns, owner) => ns == id.ns && owner == id.name
    case DeleteDeployments(ns, owner) => ns == id.ns && owner == id.name
    case UpdateWorkbench(key, read, next) => key == id && next == read.(finalizers := read.finalizers - {FINALIZER})
    case _ => false
  }

  /** In order: a deployment collection goes only when no labelled job is left, the finalizer only when
      neither is. */
  ghost predicate InOrder(e: Event, id: Key) {
    && TeardownOp(e.op, id) && Shrunk(e.before, e.after, id)
    && (e.op.DeleteDeployments? ==> !OwnsJob(e.before, id))
    && (e.op.UpdateWorkbench? ==> !Owns(e.before, id))
  }

  /** Everything served since the log had length `n` went in order, and nothing grew since `start`. */
  ghost predicate Draining(w: World, n: nat, start: Cluster, id: Key) {
    && n <= |w.log| && Shrunk(start, w.cluster, id)
    && forall i | n <= i < |w.log| :: InOrder(w.log[i], id) && Shrunk(start, w.log[i].after, id)
  }

  lemma TeardownCall(w: World, op: Op, n: nat, start: Cluster, id: Key)
    requires Draining(w, n, start, id) && TeardownOp(op, id)
    requires op.DeleteDeployments? ==> !OwnsJob(w.cluster, id)
    requires op.UpdateWorkbench? ==> !Owns(w.cluster, id)
    ensures Draining(After(w, op), n, start, id)
    ensures !OwnsJob(w.cluster, id) || !OwnsJob(Snapshot(w), id) ==> !OwnsJob(After(w, op).cluster, id)
    ensures !OwnsDeployment(w.cluster, id) || !OwnsDeployment(Snapshot(w), id) ==>
      !OwnsDeployment(After(w, op).cluster, id)
  {
    EnvironmentShrinks(w.cluster, NextTick(w).env, id);
    EnvironmentSafe(w.cluster, NextTick(w).env, id);
    OutcomeShrinks(w, op, id);
    ShrunkOn(start, w.cluster, Snapshot(w), id);
    ShrunkOn(start, Snapshot(w), Outcome(w, op), id);
    DrainingOn(w, op, n, start, id);
  }

  lemma OutcomeShrinks(w: World, op: Op, id: Key)
    requires TeardownOp(op, id)
    ensures var c, d := Snapshot(w), Outcome(w, op);
      Shrunk(c, d, id) && (!OwnsJob(c, id) ==> !OwnsJob(d, id)) && (!OwnsDeployment(c, id) ==> !OwnsDeployment(d, id))
  {
    var tick := NextTick(w);
    if Accepts(Snapshot(w), op) {
      ApplyTeardown(Snapshot(w), op, if tick.fault.Lost? then tick.fault.spared else {}, id);
    }
  }

  lemma ShrunkOn(c: Cluster, d: Cluster, e: Cluster, id: Key)
    requires Shrunk(c, d, id) && Shrunk(d, e, id)
    ensures Shrunk(c, e, id)
  {
  }

  lemma DrainingOn(w: World, op: Op, n: nat, start: Cluster, id: Key)
    requires Draining(w, n, start, id) && Shrunk(start, Outcome(w, op), id)
    requires InOrder(Event(op, Snapshot(w), Outcome(w, op), Ok(w, op)), id)
    ensures Draining(After(w, op), n, start, id)
  {
  }

  lemma ApplyTeardown(c: Cluster, op: Op, spared: set<Key>, id: Key)
    requires Accepts(c, op) && TeardownOp(op, id)
    ensures Shrunk(c, Apply(c, op, spared), id)
    ensures !OwnsJob(c, id) ==> !OwnsJob(Apply(c, op, spared), id)
    ensures !OwnsDeployment(c, id) ==> !OwnsDeployment(Apply(c, op, spared), id)
  {
  }

  lemma NoneListed(c: Cluster, id: Key)
    ensures ListedJobs(c, id.name) == {} ==> !OwnsJob(c, id)
    ensures ListedDeployments(c, id.name) == {} ==> !OwnsDeployment(c, id)
  {
    assert forall k | k in c.jobs && Labelled(c.jobs[k].labels, id.name) :: k in ListedJobs(c, id.name);
    assert forall k | k in c.deployments && Labelled(c.deployments[k].labels, id.name) ::
      k in ListedDeployments(c, id.name);
  }

  lemma DeleteJobsOrder(w: World, n: nat, start: Cluster, id: Key)
    requires Draining(w, n, start, id)
    ensures Draining(DeleteJobsOf(w, id).w, n, start, id)
    ensures DeleteJobsOf(w, id).value == Some(0) ==> !OwnsJob(DeleteJobsOf(w, id).w.cluster, id)
  {
    var list := ListJobs(id.name);
    TeardownCall(w, list, n, start, id);
    NoneListed(Snapshot(w), id);
    if Ok(w, list) && ListedJobs(Snapshot(w), id.name) != {} {
      TeardownCall(After(w, list), DeleteJobs(id.ns, id.name), n, start, id);
    }
  }

  lemma DeleteDeploymentsOrder(w: World, n: nat, start: Cluster, id: Key)
    requires Draining(w, n, start, id) && !OwnsJob(w.cluster, id)
    ensures Draining(DeleteDeploymentsOf(w, id).w, n, start, id)
    ensures DeleteDeploymentsOf(w, id).value == Some(0) ==> !Owns(DeleteDeploymentsOf(w, id).w.cluster, id)
  {
    var list := ListDeployments(id.name);
    TeardownCall(w, list, n, start, id);
    NoneListed(Snapshot(w), id);
    if Ok(w, list) && ListedDeployments(Snapshot(w), id.name) != {} {
      TeardownCall(After(w, list), DeleteDeployments(id.ns, id.name), n, start, id);
    }
  }

  lemma TeardownOrder(w: World, mem: Memory, n: nat, start: Cluster)
    requires Draining(w, n, start, mem.id) && mem.read == mem.now
    ensures Draining(Teardown(w, mem).w, n, start, mem.id)
  {
    var id := mem.id;
    if FINALIZER in mem.now.finalizers {
      DeleteJobsOrder(w, n, start, id);
      var jobs := DeleteJobsOf(w, id);
      if jobs.value == Some(0) {
        DeleteDeploymentsOrder(jobs.w, n, start, id);
        var all := DeleteDeploymentsOf(jobs.w, id);
        if all.value == Some(0) {
          var next := mem.now.(finalizers := mem.now.finalizers - {FINALIZER});
          TeardownCall(all.w, UpdateWorkbench(id, mem.read, next), n, start, id);
        }
      }
    }
  }

  /** A pass that sees the deletion mark creates nothing and, whatever fails, works in order and lets no
      component of the measure grow. */
  lemma DeletionPass(w: World, id: Key, config: Config, choice: Choice)
    requires Ok(w, GetWorkbench(id)) && id in Snapshot(w).workbenches && Snapshot(w).workbenches[id].deleting
    ensures var v := Reconcile(w, id, config, choice).w;
      && |w.log| <= |v.log| && Shrunk(w.cluster, v.cluster, id)
      && forall i | |w.log| <= i < |v.log| ::
           !Creates(v.log[i].op) && InOrder(v.log[i], id) && Shrunk(w.cluster, v.log[i].after, id)
  {
    var get, wb := GetWorkbench(id), Snapshot(w).workbenches[id];
    TeardownCall(w, get, |w.log|, w.cluster, id);
    TeardownOrder(After(w, get), Memory(id, wb, wb), |w.log|, w.cluster);
  }

  // ------------------------------------------------------------ termination

  /** A labelled object outside the workbench's namespace: listed, counted, and never deleted. */
  predicate Stuck(c: Cluster, id: Key) {
    exists k | k in ListedJobs(c, id.name) + ListedDeployments(c, id.name) :: k.ns != id.ns
  }

  /** What an undisturbed deletion pass does to the cluster. */
  function Drained(c: Cluster, id: Key): Cluster {
    if !Held(c, id) then c
    else if ListedJobs(c, id.name) != {} then c.(jobs := c.jobs - OwnJobs(c, id))
    else if ListedDeployments(c, id.name) != {} then c.(deployments := c.deployments - OwnDeployments(c, id))
    else
      var wb := c.workbenches[id];
      Store(c, id, wb.(finalizers := wb.finalizers - {FINALIZER}))
  }

  predicate Deleting(c: Cluster, id: Key) { id in c.workbenches ==> c.workbenches[id].deleting }

  lemma QuietDeleteJobs(w: World, id: Key)
    requires Quiet(w)
    ensures var d, listed := DeleteJobsOf(w, id), ListedJobs(w.cluster, id.name);
      && Quiet(d.w) && d.value == Some(|listed|)
      && d.w.cluster == if listed == {} then w.cluster else w.cluster.(jobs := w.cluster.jobs - OwnJobs(w.cluster, id))
  {
    QuietCall(w, ListJobs(id.name));
    var w1 := After(w, ListJobs(id.name));
    QuietCall(w1, DeleteJobs(id.ns, id.name));
    assert OwnJobs(w.cluster, id) - {} == OwnJobs(w.cluster, id);
  }

  lemma QuietDeleteDeployments(w: World, id: Key)
    requires Quiet(w)
    ensures var d, listed := DeleteDeploymentsOf(w, id), ListedDeployments(w.cluster, id.name);
      && Quiet(d.w) && d.value == Some(|listed|)
      && d.w.cluster == if listed == {} then w.cluster
                        else w.cluster.(deployments := w.cluster.deployments - OwnDeployments(w.cluster, id))
  {
    QuietCall(w, ListDeployments(id.name));
    var w1 := After(w, ListDeployments(id.name));
    QuietCall(w1, DeleteDeployments(id.ns, id.name));
    assert OwnDeployments(w.cluster, id) - {} == OwnDeployments(w.cluster, id);
  }

  lemma QuietTeardown(w: World, id: Key, config: Config, choice: Choice)
    requires Quiet(w) && Deleting(w.cluster, id)
    ensures var v := Reconcile(w, id, config, choice).w;
      Quiet(v) && v.cluster == Drained(w.cluster, id) && Deleting(v.cluster, id)
    ensures Reconcile(w, id, config, choice).verdict ==
      if Held(w.cluster, id) && (ListedJobs(w.cluster, id.name) != {} || ListedDeployments(w.cluster, id.name) != {})
      then Requeue(5) else Done
  {
    var get := GetWorkbench(id);
    QuietCall(w, get);
    if Held(w.cluster, id) {
      var wb := w.cluster.workbenches[id];
      var w1 := After(w, get);
      QuietDeleteJobs(w1, id);
      var jobs := DeleteJobsOf(w1, id);
      if jobs.value == Some(0) {
        QuietDeleteDeployments(jobs.w, id);
        var all := DeleteDeploymentsOf(jobs.w, id);
        QuietCall(all.w, UpdateWorkbench(id, wb, wb.(finalizers := wb.finalizers - {FINALIZER})));
      }
      assert Reconcile(w, id, config, choice).w == Teardown(w1, Memory(id, wb, wb)).w;
    }
  }

  /** `n` undisturbed passes in a row. */
  function Passes(w: World, id: Key, config: Config, choice: Choice, n: nat): World {
    if n == 0 then w else Reconcile(Passes(w, id, config, choice, n - 1), id, config, choice).w
  }

  lemma StuckStep(c: Cluster, id: Key)
    requires Held(c, id) && Stuck(c, id)
    ensures Held(Drained(c, id), id) && Stuck(Drained(c, id), id)
  {
  }

  /** The same on clusters. */
  function DrainedTimes(c: Cluster, id: Key, n: nat): Cluster {
    if n == 0 then c else Drained(DrainedTimes(c, id, n - 1), id)
  }

  lemma {:induction false} QuietPasses(w: World, id: Key, config: Config, choice: Choice, n: nat)
    requires Quiet(w) && Deleting(w.cluster, id)
    ensures var v := Passes(w, id, config, choice, n);
      Quiet(v) && Deleting(v.cluster, id) && v.cluster == DrainedTimes(w.cluster, id, n)
  {
    if n > 0 {
      QuietPasses(w, id, config, choice, n - 1);
      QuietTeardown(Passes(w, id, config, choice, n - 1), id, config, choice);
    }
  }

  lemma {:induction false} StuckForever(c: Cluster, id: Key, n: nat)
    requires Held(c, id) && Stuck(c, id)
    ensures Held(DrainedTimes(c, id, n), id) && Stuck(DrainedTimes(c, id, n), id)
  {
    if n > 0 {
      StuckForever(c, id, n - 1);
      StuckStep(DrainedTimes(c, id, n - 1), id);
    }
  }

  /** How far an undisturbed deletion has come. */
  predicate Gone(c: Cluster, id: Key, n: nat) {
    && !Stuck(c, id)
    && (n >= 1 && Held(c, id) ==> ListedJobs(c, id.name) == {})
    && (n >= 2 && Held(c, id) ==> ListedDeployments(c, id.name) == {})
    && (n >= 3 ==> !Held(c, id))
  }

  lemma DrainedJobs(c: Cluster, id: Key)
    requires !Stuck(c, id) && Held(c, id) && ListedJobs(c, id.name) != {}
    ensures ListedJobs(Drained(c, id), id.name) == {}
  {
    DrainedUnstuck(c, id);
  }

  lemma DrainedDeployments(c: Cluster, id: Key)
    requires !Stuck(c, id) && Held(c, id) && ListedJobs(c, id.name) == {} && ListedDeployments(c, id.name) != {}
    ensures ListedJobs(Drained(c, id), id.name) == {} && ListedDeployments(Drained(c, id), id.name) == {}
  {
    DrainedUnstuck(c, id);
  }

  lemma DrainedFinalizer(c: Cluster, id: Key)
    requires Held(c, id) ==> ListedJobs(c, id.name) == {} && ListedDeployments(c, id.name) == {}
    ensures !Held(Drained(c, id), id)
  {
  }

  lemma GoneStep(c: Cluster, id: Key, n: nat)
    requires n > 0 && Gone(c, id, n - 1)
    ensures Gone(Drained(c, id), id, n)
  {
    DrainedUnstuck(c, id);
    if Held(c, id) && ListedJobs(c, id.name) != {} {
      DrainedJobs(c, id);
    } else if Held(c, id) && ListedDeployments(c, id.name) != {} {
      DrainedDeployments(c, id);
    } else {
      DrainedFinalizer(c, id);
    }
  }

  lemma DrainedUnstuck(c: Cluster, id: Key)
    requires !Stuck(c, id)
    ensures OwnJobs(c, id) == ListedJobs(c, id.name) && OwnDeployments(c, id) == ListedDeployments(c, id.name)
    ensures !Stuck(Drained(c, id), id)
  {
    assert forall k | k in ListedJobs(c, id.name) + ListedDeployments(c, id.name) :: k.ns == id.ns;
    assert ListedJobs(Drained(c, id), id.name) <= ListedJobs(c, id.name);
    assert ListedDeployments(Drained(c, id), id.name) <= ListedDeployments(c, id.name);
  }

  /** Gone as far as `n` steps of draining go. */
  ghost predicate GoneBy(c: Cluster, id: Key, n: nat) { Gone(DrainedTimes(c, id, n), id, n) }

  lemma GoneByStep(c: Cluster, id: Key, n: nat)
    requires n > 0 && GoneBy(c, id, n - 1)
    ensures GoneBy(c, id, n)
  {
    GoneStep(DrainedTimes(c, id, n - 1), id, n);
  }

  lemma {:induction false} GoneForever(c: Cluster, id: Key, n: nat)
    requires !Stuck(c, id)
    ensures GoneBy(c, id, n)
  {
    if n == 0 {
      assert Gone(c, id, 0);
    } else {
      GoneForever(c, id, n - 1);
      GoneByStep(c, id, n);
    }
  }

  /** Undisturbed, three passes remove the finalizer, and otherwise no number of them does: the difference
      is a labelled object in another namespace. */
  lemma DeletionEnds(w: World, id: Key, config: Config, choice: Choice, n: nat)
    requires Quiet(w) && Deleting(w.cluster, id) && Held(w.cluster, id) && n >= 3
    ensures !Held(Passes(w, id, config, choice, n).cluster, id) <==> !Stuck(w.cluster, id)
  {
    QuietPasses(w, id, config, choice, n);
    if Stuck(w.cluster, id) {
      StuckForever(w.cluster, id, n);
    } else {
      GoneForever(w.cluster, id, n);
    }
  }
}
