/** Whole passes: exactly when a second undisturbed pass writes no job, and that a third writes no app status. */
module Idempotence {
  import opened Objects
  import opened Api
  import opened StatusUpdates
  import opened Controller
  import opened Convergence
  import opened ClosedForm
  import opened FullPass
  import opened Rest
  import opened Writes
  import Isolation
  import Jobs
  import Provisioning
  import Storage
  import Traces

  // -------------------------------------------------------- storage at rest

  /** No enabled provider has to set up a volume. */
  predicate Stocked(c: Cluster, config: Config, id: Key, providers: seq<Storage.Provider>) {
    forall p | p in providers :: Provisioning.StockedFor(c, config, id, p)
  }

  /** The provider would set up its volume, but a leftover setup job is in its way. */
  predicate Blocked(c: Cluster, config: Config, id: Key, p: Storage.Provider) {
    && Provisioning.DriverPresent(c, config, p) && Provisioning.SecretUsable(c, config, p)
    && !Provisioning.VolumePossible(c, id, p)
  }

  /** The storage phase meets no error. */
  predicate Unblocked(c: Cluster, config: Config, id: Key, providers: seq<Storage.Provider>) {
    forall p | p in providers :: !Blocked(c, config, id, p)
  }

  /** An undisturbed storage phase leaves the volumes in stock exactly if no provider was blocked. */
  lemma StockedAfter(c: Cluster, config: Config, id: Key, spec: Spec)
    ensures var providers := Storage.EnabledProviders(config, spec);
      Stocked(Provisioning.ProvidedAll(c, config, id, providers), config, id, providers) <==>
      Unblocked(c, config, id, providers)
  {
    var providers := Storage.EnabledProviders(config, spec);
    Isolation.EnabledDistinct(config, spec);
    Provisioning.ProvidedFrame(c, config, id, providers);
    var d := Provisioning.ProvidedAll(c, config, id, providers);
    forall p | p in providers ensures Provisioning.StockedFor(d, config, id, p) <==> !Blocked(c, config, id, p) {
      var i :| 0 <= i < |providers| && providers[i] == p;
      Provisioning.VolumeAfter(c, config, id, providers, i);
    }
  }

  lemma DetectionClean(w: World, config: Config, id: Key, p: Storage.Provider, n: nat)
    requires Clean(w, n, false)
    ensures Clean(Storage.HasDriver(w, config, p).w, n, false)
    ensures Clean(Storage.HasSecret(w, config, p).w, n, false)
    ensures Clean(Storage.BuildVolume(w, config, p, id.ns).w, n, false)
  {
  }

  lemma EnsuredClean(w: World, config: Config, id: Key, p: Storage.Provider, volume: PersistentVolume, n: nat)
    requires Quiet(w) && Clean(w, n, false) && (p.storage == Storage.S3 || Provisioning.HasVolume(w.cluster, id, p))
    ensures var e := Storage.EnsureVolume(w, config, id, p, volume); e.value && Clean(e.w, n, false)
  {
  }

  lemma ClaimClean(w: World, id: Key, p: Storage.Provider, n: nat)
    requires Clean(w, n, false)
    ensures Clean(Storage.EnsureClaim(w, id, p).w, n, false)
  {
  }

  lemma TurnClean(w: World, config: Config, id: Key, p: Storage.Provider, n: nat)
    requires Quiet(w) && Clean(w, n, false) && Stocked(w.cluster, config, id, [p])
    ensures Clean(Storage.Turn(w, config, id, p).w, n, false)
  {
    assert p in [p];
    Provisioning.QuietDetection(w, config, id, p);
    DetectionClean(w, config, id, p, n);
    var driver := Storage.HasDriver(w, config, p);
    Provisioning.QuietDetection(driver.w, config, id, p);
    DetectionClean(driver.w, config, id, p, n);
    var secret := Storage.HasSecret(driver.w, config, p);
    Provisioning.QuietDetection(secret.w, config, id, p);
    DetectionClean(secret.w, config, id, p, n);
    var volume := Storage.BuildVolume(secret.w, config, p, id.ns);
    if driver.value && secret.value {
      EnsuredClean(volume.w, config, id, p, volume.value.value, n);
      ClaimClean(Storage.EnsureVolume(volume.w, config, id, p, volume.value.value).w, id, p, n);
    }
  }

  lemma StockedStep(c: Cluster, config: Config, id: Key, providers: seq<Storage.Provider>, q: Storage.Provider)
    requires Stocked(c, config, id, providers)
    ensures Stocked(Provisioning.Provided(c, config, id, q), config, id, providers)
  {
  }

  lemma {:induction false} ProcessClean(w: World, config: Config, id: Key, all: seq<Storage.Provider>, k: nat, n: nat)
    requires Quiet(w) && Clean(w, n, false) && Stocked(w.cluster, config, id, all) && k <= |all|
    ensures var p := Storage.Process(w, config, id, all[..k]);
      Quiet(p.w) && Clean(p.w, n, false) && Stocked(p.w.cluster, config, id, all)
    decreases k
  {
    if k > 0 {
      ProcessClean(w, config, id, all, k - 1, n);
      assert all[..k][..k - 1] == all[..k - 1];
      var earlier := Storage.Process(w, config, id, all[..k - 1]);
      assert all[k - 1] in all;
      TurnClean(earlier.w, config, id, all[k - 1], n);
      Provisioning.QuietTurn(earlier.w, config, id, all[k - 1]);
      StockedStep(earlier.w.cluster, config, id, all, all[k - 1]);
    }
  }

  /** With its finalizer, a pass has written no job yet and met no change of plan. */
  lemma KeptClean(w: World, id: Key)
    requires Quiet(w) && id in w.cluster.workbenches && !w.cluster.workbenches[id].deleting
    ensures var wb := w.cluster.workbenches[id];
      var kept := EnsureFinalizer(After(w, GetWorkbench(id)), Memory(id, wb, wb));
      Calm(kept) && kept.mem.id == id && SameDesire(w.cluster, kept.w.cluster, id) && Clean(kept.w, |w.log|, false)
  {
    var wb, n := w.cluster.workbenches[id], |w.log|;
    QuietCall(w, GetWorkbench(id));
    CleanCall(w, GetWorkbench(id), n, false);
    var w1 := After(w, GetWorkbench(id));
    CleanCall(w1, UpdateWorkbench(id, wb, wb.(finalizers := wb.finalizers + {FINALIZER})), n, false);
    QuietFinalizer(w1, id);
  }

  /** Up to the gate, a stocked pass writes no job. */
  lemma BeforeClean(w: World, id: Key, config: Config, now: int)
    requires Quiet(w) && id in w.cluster.workbenches && !w.cluster.workbenches[id].deleting
    requires Stocked(w.cluster, config, id, Storage.EnabledProviders(config, w.cluster.workbenches[id].spec))
    ensures Clean(Before(w, id, config, now).w, |w.log|, false)
  {
    hide Server, Prepare, EnsureFinalizer;
    var n := |w.log|;
    var inv := (x: World) => Clean(x, n, false);
    forall x, op | inv(x) && (Traces.ServerOp(op, id) || Traces.PushOp(op, id)) ensures inv(After(x, op)) {
      CleanCall(x, op, n, false);
    }
    var wb := w.cluster.workbenches[id];
    KeptClean(w, id);
    var kept := EnsureFinalizer(After(w, GetWorkbench(id)), Memory(id, wb, wb));
    QuietServer(kept, config, now);
    Traces.ServerKeeps(kept, config, now, inv);
    var server := Server(kept, config, now);
    if server.end.None? {
      PrepareClean(server, config, n);
    }
  }

  lemma PrepareClean(p: Pass, config: Config, n: nat)
    requires Calm(p) && Clean(p.w, n, false)
    requires Stocked(p.w.cluster, config, p.mem.id, Storage.EnabledProviders(config, p.mem.now.spec))
    ensures Clean(Prepare(p, config).w, n, false)
  {
    var inv := (x: World) => Clean(x, n, false);
    forall x, op | inv(x) && Traces.ServerOp(op, p.mem.id) ensures inv(After(x, op)) {
      CleanCall(x, op, n, false);
    }
    Traces.ServiceKeeps(p, inv);
    QuietService(p);
    var providers := Storage.EnabledProviders(config, p.mem.now.spec);
    ProcessClean(Service(p).w, config, p.mem.id, providers, |providers|, n);
    assert providers[..|providers|] == providers;
  }

  // ------------------------------------------------------------ whole passes

  /** What the environment may do between the passes: anything to pods, deployments, services, job statuses
      and other workbenches; the spec, the storage objects, secrets and drivers stay. */
  predicate Resumed(c: Cluster, d: Cluster, id: Key) {
    && id in c.workbenches && id in d.workbenches && !d.workbenches[id].deleting
    && d.workbenches[id].spec == c.workbenches[id].spec
    && SameButStatus(c.jobs, d.jobs)
    && d.volumes == c.volumes && d.secrets == c.secrets && d.drivers == c.drivers
  }

  /** A cluster at rest: settled towards the goal, and stocked. */
  ghost predicate AtRest(c: Cluster, id: Key, config: Config, images: Jobs.Images) {
    && id in c.workbenches && !c.workbenches[id].deleting
    && Settled(GoalOf(c, id, config, images), c)
    && Stocked(c, config, id, Storage.EnabledProviders(config, c.workbenches[id].spec))
  }

  /** From the gate on: the end is at rest exactly if the jobs are settled and no provider was blocked. */
  lemma RestFromGate(start: Cluster, c: Cluster, g: Goal, e: Cluster)
    requires g.id in start.workbenches && g.id in c.workbenches && g.id in e.workbenches
    requires g == GoalOf(start, g.id, g.config, g.images) && c.workbenches[g.id].spec == g.spec
      && !c.workbenches[g.id].deleting
    requires Provisioned(start, c, g.config, g.id)
    requires e == WithStatus(c, g.id, AppsOf(e, g.id)).(jobs := e.jobs)
    ensures GoalOf(e, g.id, g.config, g.images) == g
    ensures AtRest(e, g.id, g.config, g.images) <==>
      Settled(g, e) && Unblocked(start, g.config, g.id, Storage.EnabledProviders(g.config, g.spec))
  {
    var providers := Storage.EnabledProviders(g.config, g.spec);
    StockedAfter(start, g.config, g.id, g.spec);
    Provisioning.ProvidedFrame(start, g.config, g.id, providers);
    UsableFrame(start, e, g.config, providers);
    SameStocked(Supplied(start, g.id, g.config), e, g.config, g.id, providers);
  }

  lemma SameStocked(c: Cluster, d: Cluster, config: Config, id: Key, providers: seq<Storage.Provider>)
    requires c.volumes == d.volumes && c.secrets == d.secrets && c.drivers == d.drivers
    ensures Stocked(c, config, id, providers) <==> Stocked(d, config, id, providers)
  {
    assert forall p :: Provisioning.StockedFor(c, config, id, p) == Provisioning.StockedFor(d, config, id, p);
  }

  /** When rest is reached: an undisturbed pass that gets through the gate ends at rest if and only if no
      provider was blocked by a leftover setup job and apps that share a job agree on it. */
  lemma PassReachesRest(w: World, id: Key, config: Config, choice: Choice)
    requires Quiet(w) && id in w.cluster.workbenches && !w.cluster.workbenches[id].deleting
    ensures ReadyPass(w, id, config, choice) ==>
      (AtRest(Reconcile(w, id, config, choice).w.cluster, id, config, choice.images) <==>
       && Unblocked(w.cluster, config, id, Storage.EnabledProviders(config, w.cluster.workbenches[id].spec))
       && Agreed(GoalOf(w.cluster, id, config, choice.images)))
  {
    if ReadyPass(w, id, config, choice) {
      var b, g := Before(w, id, config, choice.now), GoalOf(w.cluster, id, config, choice.images);
      QuietBefore(w, id, config, choice.now);
      GoalAtGate(w, id, config, choice.images, choice.now);
      PassIsApplications(w, id, config, choice);
      PhaseSettles(b, g, choice);
      RestFromGate(w.cluster, b.w.cluster, g, Reconcile(w, id, config, choice).w.cluster);
    }
  }

  lemma RestResumes(c: Cluster, d: Cluster, id: Key, config: Config, images: Jobs.Images)
    requires Resumed(c, d, id) && !c.workbenches[id].deleting
    ensures GoalOf(c, id, config, images) == GoalOf(d, id, config, images)
    ensures AtRest(c, id, config, images) <==> AtRest(d, id, config, images)
  {
    var providers := Storage.EnabledProviders(config, c.workbenches[id].spec);
    UsableFrame(c, d, config, providers);
    var g := GoalOf(c, id, config, images);
    SameStocked(c, d, config, id, providers);
    if Settled(g, c) {
      StatusMoves(g, c, d);
    }
    if Settled(g, d) {
      StatusMoves(g, d, c);
    }
  }

  lemma RestAtGate(w: World, id: Key, config: Config, images: Jobs.Images, now: int)
    requires Quiet(w) && AtRest(w.cluster, id, config, images)
    ensures var b, g := Before(w, id, config, now), GoalOf(w.cluster, id, config, images);
      && Clean(b.w, |w.log|, false) && b.w.cluster.jobs == w.cluster.jobs
      && (b.end.None? ==> Pursues(b, g) && Settled(g, b.w.cluster))
  {
    BeforeClean(w, id, config, now);
    QuietBefore(w, id, config, now);
    BeforeJobs(w, id, config, now);
    var b, g := Before(w, id, config, now), GoalOf(w.cluster, id, config, images);
    if b.end.None? {
      Provisioning.ProvidedFrame(w.cluster, config, id, Storage.EnabledProviders(config, g.spec));
      UsableFrame(w.cluster, b.w.cluster, config, Storage.EnabledProviders(config, g.spec));
      SameJobsSettled(g, w.cluster, b.w.cluster);
    }
  }

  /** The pass that led from `w` to `v` wrote no job. */
  ghost predicate Idle(w: World, v: World) {
    |w.log| <= |v.log| && forall i | |w.log| <= i < |v.log| :: !JobWrite(v.log[i].op)
  }

  /** Idempotence: a pass over a cluster at rest creates, updates and deletes no job, in whatever order it
      iterates and whether or not the server is ready. */
  lemma SecondPass(w: World, id: Key, config: Config, choice: Choice)
    requires Quiet(w) && AtRest(w.cluster, id, config, choice.images)
    requires Enumerates(choice.apps, w.cluster.workbenches[id].spec.apps.Keys)
    ensures var v := Reconcile(w, id, config, choice).w; Idle(w, v) && v.cluster.jobs == w.cluster.jobs
  {
    RestAtGate(w, id, config, choice.images, choice.now);
    ReconcileSplit(w, id, config, choice);
    var b := Before(w, id, config, choice.now);
    if b.end.None? {
      PhaseAtRest(b, GoalOf(w.cluster, id, config, choice.images), choice, |w.log|, false);
    }
  }

  lemma SameJobsSettled(g: Goal, c: Cluster, d: Cluster)
    requires Settled(g, c) && c.jobs == d.jobs
    ensures Settled(g, d)
  {
  }

  /** A pass that writes no job up to the gate leaves the jobs alone up to there. */
  lemma BeforeJobs(w: World, id: Key, config: Config, now: int)
    requires Quiet(w) && id in w.cluster.workbenches && !w.cluster.workbenches[id].deleting
    requires Stocked(w.cluster, config, id, Storage.EnabledProviders(config, w.cluster.workbenches[id].spec))
    ensures Before(w, id, config, now).w.cluster.jobs == w.cluster.jobs
  {
    hide Server, Prepare, EnsureFinalizer;
    var wb := w.cluster.workbenches[id];
    KeptClean(w, id);
    var kept := EnsureFinalizer(After(w, GetWorkbench(id)), Memory(id, wb, wb));
    QuietServer(kept, config, now);
    var server := Server(kept, config, now);
    if server.end.None? {
      QuietPrepare(server, config);
      var providers := Storage.EnabledProviders(config, wb.spec);
      StockedJobs(server.w.cluster, config, id, providers, |providers|);
      assert providers[..|providers|] == providers;
    }
  }

  lemma {:induction false} StockedJobs(c: Cluster, config: Config, id: Key, all: seq<Storage.Provider>, k: nat)
    requires Stocked(c, config, id, all) && k <= |all|
    ensures var d := Provisioning.ProvidedAll(c, config, id, all[..k]); d.jobs == c.jobs && Stocked(d, config, id, all)
    decreases k
  {
    if k > 0 {
      StockedJobs(c, config, id, all, k - 1);
      assert all[..k][..k - 1] == all[..k - 1];
      assert all[k - 1] in all;
      StockedStep(Provisioning.ProvidedAll(c, config, id, all[..k - 1]), config, id, all, all[k - 1]);
    }
  }

  lemma SameEntriesSettled(g: Goal, c: Cluster, d: Cluster)
    requires g.id in c.workbenches && g.id in d.workbenches && StatusSettled(g, c)
    requires c.jobs == d.jobs && AppsOf(c, g.id) == AppsOf(d, g.id)
    ensures StatusSettled(g, d)
  {
  }

  /** A second pass that reaches a ready server stays at rest and settles the status too. */
  lemma SecondPassSettles(w: World, id: Key, config: Config, choice: Choice)
    requires Quiet(w) && AtRest(w.cluster, id, config, choice.images)
    ensures ReadyPass(w, id, config, choice) ==>
      var c := Reconcile(w, id, config, choice).w.cluster;
      AtRest(c, id, config, choice.images) && StatusSettled(GoalOf(c, id, config, choice.images), c)
  {
    if ReadyPass(w, id, config, choice) {
      var b, g := Before(w, id, config, choice.now), GoalOf(w.cluster, id, config, choice.images);
      RestAtGate(w, id, config, choice.images, choice.now);
      QuietBefore(w, id, config, choice.now);
      SettledOrderFree(g, b.w.cluster);
      GoalAtGate(w, id, config, choice.images, choice.now);
      PassConverges(w, id, config, choice);
      SecondFromGate(w.cluster, b.w.cluster, g, Reconcile(w, id, config, choice).w.cluster);
    }
  }

  lemma SecondFromGate(start: Cluster, c: Cluster, g: Goal, e: Cluster)
    requires AtRest(start, g.id, g.config, g.images) && g == GoalOf(start, g.id, g.config, g.images)
    requires g.id in c.workbenches && c.workbenches[g.id].spec == g.spec && !c.workbenches[g.id].deleting
    requires Provisioned(start, c, g.config, g.id) && Settled(g, c) && Closed(g, c, e)
    ensures AtRest(e, g.id, g.config, g.images) && StatusSettled(GoalOf(e, g.id, g.config, g.images), e)
  {
    SettledCloses(g, c, e);
    SameJobsSettled(g, c, e);
    RestFromGate(start, c, g, e);
  }

  /** Idempotence of the status: with the job statuses frozen since the second pass, a third one writes no job
      and no app status; from the gate on it only reads. */
  lemma ThirdPass(w: World, id: Key, config: Config, choice: Choice)
    requires Quiet(w) && AtRest(w.cluster, id, config, choice.images)
    requires StatusSettled(GoalOf(w.cluster, id, config, choice.images), w.cluster)
    requires Enumerates(choice.apps, w.cluster.workbenches[id].spec.apps.Keys)
    ensures var v, b := Reconcile(w, id, config, choice).w, Before(w, id, config, choice.now).w;
      && v.cluster.jobs == w.cluster.jobs
      && id in v.cluster.workbenches && AppsOf(v.cluster, id) == AppsOf(w.cluster, id)
      && |b.log| <= |v.log| && forall i | |b.log| <= i < |v.log| :: IsRead(v.log[i].op)
  {
    QuietBefore(w, id, config, choice.now);
    RestAtGate(w, id, config, choice.images, choice.now);
    ReconcileSplit(w, id, config, choice);
    var b, g := Before(w, id, config, choice.now), GoalOf(w.cluster, id, config, choice.images);
    if b.end.None? {
      SameEntriesSettled(g, w.cluster, b.w.cluster);
      PhaseAtRest(b, g, choice, |b.w.log|, true);
    }
  }

  // ------------------------------------------------- exactly when it rests

  /** A pass that has to set up a volume writes a job before the gate. */
  lemma BeforeWrites(w: World, id: Key, config: Config, now: int)
    requires Quiet(w) && id in w.cluster.workbenches && !w.cluster.workbenches[id].deleting
    requires !Stocked(w.cluster, config, id, Storage.EnabledProviders(config, w.cluster.workbenches[id].spec))
    ensures Before(w, id, config, now).end.None? ==> Wrote(Before(w, id, config, now).w, |w.log|)
  {
    var n, wb := |w.log|, w.cluster.workbenches[id];
    KeptClean(w, id);
    var kept := EnsureFinalizer(After(w, GetWorkbench(id)), Memory(id, wb, wb));
    QuietServer(kept, config, now);
    KeptThroughout(n, id);
    Traces.ServerKeeps(kept, config, now, Longer(n));
    var server := Server(kept, config, now);
    var providers := Storage.EnabledProviders(config, wb.spec);
    if server.end.None? {
      SameStocked(w.cluster, server.w.cluster, config, id, providers);
      PrepareWrites(server, config, n);
    }
  }

  lemma PrepareWrites(p: Pass, config: Config, n: nat)
    requires Calm(p) && n <= |p.w.log|
    requires !Stocked(p.w.cluster, config, p.mem.id, Storage.EnabledProviders(config, p.mem.now.spec))
    ensures Wrote(Prepare(p, config).w, n)
  {
    KeptThroughout(n, p.mem.id);
    Traces.ServiceKeeps(p, Longer(n));
    QuietService(p);
    var s := Service(p);
    var providers := Storage.EnabledProviders(config, p.mem.now.spec);
    SameStocked(p.w.cluster, s.w.cluster, config, p.mem.id, providers);
    Isolation.EnabledDistinct(config, p.mem.now.spec);
    ProcessWrites(s.w, config, p.mem.id, providers, n);
  }

  lemma ApplicationsKeepWriting(b: Pass, config: Config, choice: Choice, n: nat)
    requires Wrote(b.w, n)
    ensures Wrote(Applications(b, config, choice).w, n)
  {
    KeptThroughout(n, b.mem.id);
    Traces.ApplicationsKeeps(b, config, choice, Writing(n));
  }

  /** Rest, exactly: an undisturbed pass that gets through the gate writes no job if and only if it started at
      rest. */
  lemma IdleExactlyAtRest(w: World, id: Key, config: Config, choice: Choice)
    requires Quiet(w) && id in w.cluster.workbenches && !w.cluster.workbenches[id].deleting
    ensures ReadyPass(w, id, config, choice) ==>
      (Idle(w, Reconcile(w, id, config, choice).w) <==> AtRest(w.cluster, id, config, choice.images))
  {
    if ReadyPass(w, id, config, choice) {
      QuietBefore(w, id, config, choice.now);
      if AtRest(w.cluster, id, config, choice.images) {
        SecondPass(w, id, config, choice);
      } else {
        RestlessWrites(w, id, config, choice);
      }
    }
  }

  lemma RestlessWrites(w: World, id: Key, config: Config, choice: Choice)
    requires Quiet(w) && id in w.cluster.workbenches && !w.cluster.workbenches[id].deleting
    requires !AtRest(w.cluster, id, config, choice.images)
    ensures ReadyPass(w, id, config, choice) ==> Wrote(Reconcile(w, id, config, choice).w, |w.log|)
  {
    var b, g, n := Before(w, id, config, choice.now), GoalOf(w.cluster, id, config, choice.images), |w.log|;
    PassIsApplications(w, id, config, choice);
    if !ReadyPass(w, id, config, choice) {
    } else if !Stocked(w.cluster, config, id, Storage.EnabledProviders(config, w.cluster.workbenches[id].spec)) {
      BeforeWrites(w, id, config, choice.now);
      ApplicationsKeepWriting(b, config, choice, n);
    } else {
      GoalAtGate(w, id, config, choice.images, choice.now);
      BeforeJobs(w, id, config, choice.now);
      BeforeClean(w, id, config, choice.now);
      PhaseWrites(b, g, choice, n);
      if Settled(g, b.w.cluster) {
        SameJobsSettled(g, b.w.cluster, w.cluster);
      }
    }
  }

  /** Two ready passes in a row, the second after what the environment may do in between. */
  ghost predicate InARow(w: World, v: World, id: Key, config: Config, one: Choice, two: Choice) {
    && Quiet(w) && id in w.cluster.workbenches && !w.cluster.workbenches[id].deleting && ReadyPass(w, id, config, one)
    && Quiet(v) && one.images == two.images && Resumed(Reconcile(w, id, config, one).w.cluster, v.cluster, id)
    && ReadyPass(v, id, config, two)
  }

  lemma EndsUndeleted(w: World, id: Key, config: Config, choice: Choice)
    requires Quiet(w) && id in w.cluster.workbenches && !w.cluster.workbenches[id].deleting
    ensures ReadyPass(w, id, config, choice) ==>
      var c := Reconcile(w, id, config, choice).w.cluster;
      && id in c.workbenches && !c.workbenches[id].deleting
      && GoalOf(c, id, config, choice.images) == GoalOf(w.cluster, id, config, choice.images)
  {
    if ReadyPass(w, id, config, choice) {
      var b, g := Before(w, id, config, choice.now), GoalOf(w.cluster, id, config, choice.images);
      QuietBefore(w, id, config, choice.now);
      GoalAtGate(w, id, config, choice.images, choice.now);
      PassIsApplications(w, id, config, choice);
      PhaseSettles(b, g, choice);
      RestFromGate(w.cluster, b.w.cluster, g, Reconcile(w, id, config, choice).w.cluster);
    }
  }

  /** Idempotence, exactly: the second of two ready passes writes no job if and only if the first met no leftover
      setup job in a provider's way and apps that share a job agree on it. */
  lemma IdempotentExactly(w: World, v: World, id: Key, config: Config, one: Choice, two: Choice)
    ensures InARow(w, v, id, config, one, two) ==>
      (Idle(v, Reconcile(v, id, config, two).w) <==>
       && Unblocked(w.cluster, config, id, Storage.EnabledProviders(config, w.cluster.workbenches[id].spec))
       && Agreed(GoalOf(w.cluster, id, config, one.images)))
  {
    if InARow(w, v, id, config, one, two) {
      var c := Reconcile(w, id, config, one).w.cluster;
      EndsUndeleted(w, id, config, one);
      PassReachesRest(w, id, config, one);
      RestResumes(c, v.cluster, id, config, one.images);
      IdleExactlyAtRest(v, id, config, two);
    }
  }

  // --------------------------------------------------------------- recovery

  /** The leftover setup job of `p` is one that the sweep removes: labelled, and no app's. */
  ghost predicate Sweepable(g: Goal, c: Cluster, p: Storage.Provider) {
    var k := Storage.SetupKey(p, g.id.ns);
    k in c.jobs && Labelled(c.jobs[k].labels, g.id.name) && !IsAppKey(g, k)
  }

  /** Every leftover in a provider's way can be swept. */
  ghost predicate Recoverable(g: Goal, c: Cluster) {
    forall p | p in Storage.EnabledProviders(g.config, g.spec) && Blocked(c, g.config, g.id, p) :: Sweepable(g, c, p)
  }

  /** What a whole ready pass makes of every job that is no buildable app's: as the application phase would from
      the cluster the storage phase leaves. */
  lemma PassOtherJobs(w: World, id: Key, config: Config, choice: Choice, k: Key)
    requires Quiet(w) && id in w.cluster.workbenches && !w.cluster.workbenches[id].deleting
    requires !IsAppKey(GoalOf(w.cluster, id, config, choice.images), k)
    ensures ReadyPass(w, id, config, choice) ==>
      Lookup(Reconcile(w, id, config, choice).w.cluster.jobs, k) ==
      TargetOther(GoalOf(w.cluster, id, config, choice.images), Supplied(w.cluster, id, config), k)
  {
    var b, g := Before(w, id, config, choice.now), GoalOf(w.cluster, id, config, choice.images);
    if ReadyPass(w, id, config, choice) {
      QuietBefore(w, id, config, choice.now);
      GoalAtGate(w, id, config, choice.images, choice.now);
      PassIsApplications(w, id, config, choice);
      OtherJobs(b, g, choice, k);
      SameJobsKept(g, b.w.cluster, Supplied(w.cluster, id, config), k);
    }
  }

  lemma SameJobsKept(g: Goal, c: Cluster, d: Cluster, k: Key)
    requires c.jobs == d.jobs
    ensures TargetOther(g, c, k) == TargetOther(g, d, k)
  {
    assert forall uid | uid in g.spec.apps && Builds(g, uid) :: TargetJob(g, c, uid) == TargetJob(g, d, uid);
  }

  /** What a ready pass leaves of volumes, secrets and drivers, and which of the workbench's own jobs. */
  lemma ReadyPassStores(w: World, id: Key, config: Config, choice: Choice, k: Key)
    requires Quiet(w) && id in w.cluster.workbenches && !w.cluster.workbenches[id].deleting
    ensures ReadyPass(w, id, config, choice) ==>
      var d, e := Supplied(w.cluster, id, config), Reconcile(w, id, config, choice).w.cluster;
      && e.volumes == d.volumes && e.secrets == d.secrets && e.drivers == d.drivers
      && (k in d.jobs && k.ns == id.ns ==> (k in e.jobs <==>
            IsAppKey(GoalOf(w.cluster, id, config, choice.images), k) || !Labelled(d.jobs[k].labels, id.name)))
  {
    var b, g := Before(w, id, config, choice.now), GoalOf(w.cluster, id, config, choice.images);
    if ReadyPass(w, id, config, choice) {
      QuietBefore(w, id, config, choice.now);
      GoalAtGate(w, id, config, choice.images, choice.now);
      PassIsApplications(w, id, config, choice);
      PhaseSettles(b, g, choice);
      if k in b.w.cluster.jobs && k.ns == id.ns {
        OwnJobStays(b, g, choice, k);
      }
    }
  }

  /** What a ready pass does for a provider: afterwards it is blocked exactly if it was before, by a leftover
      that cannot be swept. */
  lemma StillBlocked(w: World, id: Key, config: Config, choice: Choice, i: nat)
    requires Quiet(w) && id in w.cluster.workbenches && !w.cluster.workbenches[id].deleting
    requires i < |Storage.EnabledProviders(config, w.cluster.workbenches[id].spec)|
    ensures ReadyPass(w, id, config, choice) ==>
      var c, g := w.cluster, GoalOf(w.cluster, id, config, choice.images);
      var p := Storage.EnabledProviders(config, c.workbenches[id].spec)[i];
      Blocked(Reconcile(w, id, config, choice).w.cluster, config, id, p) <==>
      Blocked(c, config, id, p) && !Sweepable(g, c, p)
  {
    hide Reconcile, ReadyPass;
    var c, g := w.cluster, GoalOf(w.cluster, id, config, choice.images);
    var providers := Storage.EnabledProviders(config, c.workbenches[id].spec);
    var p := providers[i];
    Isolation.EnabledDistinct(config, c.workbenches[id].spec);
    ReadyPassStores(w, id, config, choice, Storage.SetupKey(p, id.ns));
    Provisioning.ProvidedFrame(c, config, id, providers);
    Provisioning.VolumeAfter(c, config, id, providers, i);
    if Blocked(c, config, id, p) {
      Provisioning.LeftoverAfter(c, config, id, providers, i);
    }
  }

  lemma UnblockedResumed(c: Cluster, d: Cluster, id: Key, config: Config, providers: seq<Storage.Provider>)
    requires Resumed(c, d, id)
    ensures Unblocked(c, config, id, providers) <==> Unblocked(d, config, id, providers)
  {
    assert forall p :: Blocked(c, config, id, p) == Blocked(d, config, id, p);
  }

  /** After a ready pass no provider is blocked exactly if every leftover could be swept. */
  lemma UnblocksExactly(w: World, id: Key, config: Config, choice: Choice)
    requires Quiet(w) && id in w.cluster.workbenches && !w.cluster.workbenches[id].deleting
    ensures ReadyPass(w, id, config, choice) ==>
      var providers := Storage.EnabledProviders(config, w.cluster.workbenches[id].spec);
      Unblocked(Reconcile(w, id, config, choice).w.cluster, config, id, providers) <==>
      Recoverable(GoalOf(w.cluster, id, config, choice.images), w.cluster)
  {
    var c, g := Reconcile(w, id, config, choice).w.cluster, GoalOf(w.cluster, id, config, choice.images);
    var providers := Storage.EnabledProviders(config, w.cluster.workbenches[id].spec);
    forall p | p in providers && ReadyPass(w, id, config, choice)
      ensures Blocked(c, config, id, p) <==> Blocked(w.cluster, config, id, p) && !Sweepable(g, w.cluster, p)
    {
      var i :| 0 <= i < |providers| && providers[i] == p;
      StillBlocked(w, id, config, choice, i);
    }
  }

  /** Recovery, exactly: the second of two ready passes ends at rest if and only if the first met no leftover in
      a provider's way but such as the sweep removes, and apps that share a job agree on it. */
  lemma RecoversExactly(w: World, v: World, id: Key, config: Config, one: Choice, two: Choice)
    ensures InARow(w, v, id, config, one, two) ==>
      var g := GoalOf(w.cluster, id, config, one.images);
      AtRest(Reconcile(v, id, config, two).w.cluster, id, config, one.images) <==>
        Recoverable(g, w.cluster) && Agreed(g)
  {
    if InARow(w, v, id, config, one, two) {
      var c := Reconcile(w, id, config, one).w.cluster;
      EndsUndeleted(w, id, config, one);
      RestResumes(c, v.cluster, id, config, one.images);
      PassReachesRest(v, id, config, two);
      UnblocksExactly(w, id, config, one);
      UnblockedResumed(c, v.cluster, id, config, Storage.EnabledProviders(config, w.cluster.workbenches[id].spec));
    }
  }
}
