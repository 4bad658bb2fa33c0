/** When a pass does write a job: an app's job that is not as wanted, a labelled job without an app, or a
    volume that has to be set up always shows in the log. */
module Writes {
  import opened Options
  import opened Objects
  import opened Api
  import opened Controller
  import opened Convergence
  import opened ClosedForm
  import opened Rest
  import Isolation
  import Jobs
  import Provisioning
  import Storage
  import Traces

  /** Since the log had length `n`, a job was written. */
  ghost predicate Wrote(w: World, n: nat) {
    exists i | n <= i < |w.log| :: JobWrite(w.log[i].op)
  }

  lemma WroteKept(w: World, op: Op, n: nat)
    requires Wrote(w, n)
    ensures Wrote(After(w, op), n)
  {
    var i :| n <= i < |w.log| && JobWrite(w.log[i].op);
    assert After(w, op).log[i] == w.log[i];
  }

  lemma WroteNow(w: World, op: Op, n: nat)
    requires JobWrite(op) && n <= |w.log|
    ensures Wrote(After(w, op), n)
  {
    assert After(w, op).log[|w.log|].op == op;
  }

  ghost function Writing(n: nat): World -> bool { (x: World) => Wrote(x, n) }

  ghost function Longer(n: nat): World -> bool { (x: World) => n <= |x.log| }

  lemma KeptThroughout(n: nat, id: Key)
    ensures Traces.KeptByServer(Writing(n), id) && Traces.KeptByApps(Writing(n), id)
    ensures Traces.KeptByPush(Writing(n), id) && Storage.KeptByTurns(Writing(n), id)
    ensures Traces.KeptByServer(Longer(n), id) && Traces.KeptByApps(Longer(n), id)
    ensures Traces.KeptByPush(Longer(n), id) && Storage.KeptByTurns(Longer(n), id)
  {
    forall x, op | Writing(n)(x) ensures Writing(n)(After(x, op)) {
      WroteKept(x, op, n);
    }
  }

  // ------------------------------------------------------------------ apps

  lemma MissingWrites(w: World, key: Key, job: Job, n: nat)
    requires Quiet(w) && n <= |w.log| && key !in w.cluster.jobs && job.suspend != Some(true)
    ensures Wrote(CreateMissing(w, key, job).w, n)
  {
    WroteNow(After(w, GetJob(key)), CreateJob(key, job), n);
  }

  lemma AdoptWrites(p: Pass, uid: string, key: Key, job: Job, existing: Job, n: nat)
    requires n <= |p.w.log| && Jobs.Update(job, existing).1
    ensures Wrote(Adopt(p, uid, key, job, existing).w, n)
  {
    var pushed := Recorded(p, uid, existing);
    WroteNow(pushed.w, UpdateJob(key, existing, Jobs.Update(job, existing).0), n);
  }

  /** An app whose job is not as wanted has it written. */
  lemma MisfitWrites(a: Apps, g: Goal, uid: string, n: nat)
    requires Pursues(a.p, g) && uid in g.spec.apps && !Fits(g, a.p.w.cluster, uid) && n <= |a.p.w.log|
    ensures Wrote(AppStep(a, g.config, g.images, uid).p.w, n)
  {
    JobCalled(a, g, uid, |a.p.w.log|, false);
    MisfitHandled(a, g, uid, JobCall(a, g, uid), n);
  }

  lemma MisfitHandled(a: Apps, g: Goal, uid: string, job: Step<Option<Job>>, n: nat)
    requires a.p.mem.now.spec == g.spec && !Fits(g, a.p.w.cluster, uid)
    requires job.value == Some(JobOf(g, uid)) && Quiet(job.w) && job.w.cluster == a.p.w.cluster && n <= |job.w.log|
    ensures Wrote(HandleApp(a, uid, KeyOf(g, uid), job).p.w, n)
  {
    hide Wrote, Adopt;
    var k := KeyOf(g, uid);
    if k in job.w.cluster.jobs {
      QuietCall(job.w, GetJob(k));
      AdoptWrites(a.p.(w := After(job.w, GetJob(k))), uid, k, JobOf(g, uid), job.w.cluster.jobs[k], n);
    } else {
      MissingWrites(job.w, k, JobOf(g, uid), n);
    }
  }

  /** A step writes a job, keeps what was written, or leaves the jobs as they are. */
  lemma StepWrites(a: Apps, g: Goal, uid: string, n: nat)
    requires Pursues(a.p, g) && uid in g.spec.apps && (Wrote(a.p.w, n) || n <= |a.p.w.log|)
    ensures var w := AppStep(a, g.config, g.images, uid).p.w;
      || Wrote(w, n)
      || (!Wrote(a.p.w, n) && n <= |w.log| && w.cluster.jobs == a.p.w.cluster.jobs && Fits(g, a.p.w.cluster, uid))
  {
    KeptThroughout(n, g.id);
    if Wrote(a.p.w, n) {
      Traces.AppStepKeeps(a, g.config, g.images, uid, Writing(n));
    } else if !Fits(g, a.p.w.cluster, uid) {
      MisfitWrites(a, g, uid, n);
    } else {
      Traces.AppStepKeeps(a, g.config, g.images, uid, Longer(n));
      QuietAppStep(a, g, uid);
      SettledEffect(g, a.p.w.cluster, uid);
    }
  }

  /** The loop wrote a job, or found the job of every app as wanted. */
  lemma {:induction false} LoopWrites(p: Pass, g: Goal, order: seq<string>, n: nat)
    requires Pursues(p, g) && n <= |p.w.log| && forall uid | uid in order :: uid in g.spec.apps
    ensures var w := AppLoop(Apps(p, []), g.config, g.images, order).p.w;
      || Wrote(w, n)
      || (n <= |w.log| && w.cluster.jobs == p.w.cluster.jobs && forall uid | uid in order :: Fits(g, p.w.cluster, uid))
    decreases |order|
  {
    hide Wrote, AppStep, Effects, Found;
    if order != [] {
      var i := |order| - 1;
      LoopWrites(p, g, order[..i], n);
      QuietAppLoop(p, g, order[..i]);
      StepWrites(AppLoop(Apps(p, []), g.config, g.images, order[..i]), g, order[i], n);
      assert order == order[..i] + [order[i]];
      assert Fits(g, AppLoop(Apps(p, []), g.config, g.images, order[..i]).p.w.cluster, order[i]) ==>
        Wrote(AppLoop(Apps(p, []), g.config, g.images, order[..i]).p.w, n) || Fits(g, p.w.cluster, order[i]);
    }
  }

  /** The sweep loop wrote a job, or met no listed job whose name was not found. */
  lemma {:induction false} SweepWrites(p: Pass, found: seq<string>, listed: set<Key>, order: seq<Key>, n: nat)
    requires p.end.None? && n <= |p.w.log|
    ensures var q := SweepLoop(p, found, listed, order);
      Wrote(q.w, n) || (q == p && forall k | k in order && k in listed :: k.name in found)
    decreases |order|
  {
    if order != [] {
      var i := |order| - 1;
      SweepWrites(p, found, listed, order[..i], n);
      var q := SweepLoop(p, found, listed, order[..i]);
      if Wrote(q.w, n) {
        WroteKept(q.w, DeleteJob(order[i]), n);
      } else if Deletes(listed, found, order[i]) {
        WroteNow(q.w, DeleteJob(order[i]), n);
      }
      assert order == order[..i] + [order[i]];
    }
  }

  lemma SweepPhaseWrites(p: Pass, found: seq<string>, order: seq<Key>, n: nat)
    requires Calm(p) && n <= |p.w.log| && Enumerates(order, ListedJobs(p.w.cluster, p.mem.id.name))
    ensures Wrote(Sweep(p, found, order).w, n) ||
      forall k | k in ListedJobs(p.w.cluster, p.mem.id.name) :: k.name in found
  {
    var list := ListJobs(p.mem.id.name);
    QuietCall(p.w, list);
    SweepWrites(p.(w := After(p.w, list)), found, ListedJobs(p.w.cluster, p.mem.id.name), order, n);
  }

  /** An undisturbed application phase behind a ready server writes a job unless the cluster is settled. */
  lemma PhaseWrites(p: Pass, g: Goal, choice: Choice, n: nat)
    requires Pursues(p, g) && ServerReady(p.mem) && choice.images == g.images && TakesOrders(p, g.config, choice)
    requires n <= |p.w.log|
    ensures Wrote(Applications(p, g.config, choice).w, n) || Settled(g, p.w.cluster)
  {
    QuietAppLoop(p, g, choice.apps);
    LoopWrites(p, g, choice.apps, n);
    var a := AppLoop(Apps(p, []), g.config, g.images, choice.apps);
    if Wrote(a.p.w, n) {
      KeptThroughout(n, g.id);
      SweepKeepsWriting(a, choice.jobs, n);
    } else {
      SweepPhaseWrites(a.p, a.found, choice.jobs, n);
      if !Wrote(Sweep(a.p, a.found, choice.jobs).w, n) {
        forall k | k in ListedJobs(p.w.cluster, g.id.name) ensures KeptName(g, p.w.cluster, k.name) {
          FoundNames(g, p.w.cluster, choice.apps, k.name);
          var uid :| uid in choice.apps && Builds(g, uid) && KeyOf(g, uid).name == k.name
            && KeyOf(g, uid) in a.p.w.cluster.jobs;
          assert TargetJob(g, p.w.cluster, uid).Some?;
        }
      }
    }
  }

  lemma SweepKeepsWriting(a: Apps, order: seq<Key>, n: nat)
    requires Wrote(a.p.w, n)
    ensures Wrote(Sweep(a.p, a.found, order).w, n)
  {
    var list := ListJobs(a.p.mem.id.name);
    WroteKept(a.p.w, list, n);
    KeptThroughout(n, a.p.mem.id);
    Traces.SweepLoopKeeps(a.p.(w := After(a.p.w, list)), a.found, ListedJobs(Snapshot(a.p.w), a.p.mem.id.name), order,
      Writing(n));
  }

  // --------------------------------------------------------------- storage

  lemma SetupWrites(w: World, config: Config, id: Key, p: Storage.Provider, n: nat)
    requires Quiet(w) && p.storage != Storage.S3 && Provisioning.SecretUsable(w.cluster, config, p) && n <= |w.log|
    ensures Wrote(Storage.Setup(w, config, id, p).w, n)
  {
    if p.storage == Storage.NFS {
      var s := Storage.SecretConfig(w, p);
      WroteNow(s.w, CreateJob(Storage.SetupKey(p, id.ns), Storage.SetupJob(config, p, id, s.value.value)), n);
    } else {
      WroteNow(w, CreateJob(Storage.SetupKey(p, id.ns), Storage.SetupJob(config, p, id, map[])), n);
    }
  }

  lemma EnsureWrites(w: World, config: Config, id: Key, p: Storage.Provider, volume: PersistentVolume, n: nat)
    requires Quiet(w) && p.storage != Storage.S3 && Provisioning.SecretUsable(w.cluster, config, p) && n <= |w.log|
    requires !Provisioning.HasVolume(w.cluster, id, p)
    ensures Wrote(Storage.EnsureVolume(w, config, id, p, volume).w, n)
    ensures Wrote(Storage.EnsureClaim(Storage.EnsureVolume(w, config, id, p, volume).w, id, p).w, n)
  {
    hide Storage.Setup, Storage.EnsureClaim;
    var get := GetVolume(Storage.PersistentVolumeName(p, id.ns));
    QuietCall(w, get);
    SetupWrites(After(w, get), config, id, p, n);
    KeptThroughout(n, id);
    var setup := Storage.Setup(After(w, get), config, id, p);
    WroteKept(setup.w, CreateVolume(Storage.PersistentVolumeName(p, id.ns), volume), n);
    Storage.EnsureClaimKeeps(Storage.EnsureVolume(w, config, id, p, volume).w, id, p, Writing(n));
  }

  /** A turn that has to set up a volume writes a job, whether or not it succeeds. */
  lemma TurnWrites(w: World, config: Config, id: Key, p: Storage.Provider, n: nat)
    requires Quiet(w) && !Provisioning.StockedFor(w.cluster, config, id, p) && n <= |w.log|
    ensures Wrote(Storage.Turn(w, config, id, p).w, n)
  {
    Provisioning.QuietDetection(w, config, id, p);
    var driver := Storage.HasDriver(w, config, p);
    Provisioning.QuietDetection(driver.w, config, id, p);
    var secret := Storage.HasSecret(driver.w, config, p);
    Provisioning.QuietDetection(secret.w, config, id, p);
    var volume := Storage.BuildVolume(secret.w, config, p, id.ns);
    EnsureWrites(volume.w, config, id, p, volume.value.value, n);
  }

  /** The storage phase wrote a job, or every provider had its volume. */
  lemma {:induction false} ProcessWrites(w: World, config: Config, id: Key, providers: seq<Storage.Provider>, n: nat)
    requires Quiet(w) && Isolation.Distinct(providers) && n <= |w.log|
    ensures Wrote(Storage.Process(w, config, id, providers).w, n) ||
      forall p | p in providers :: Provisioning.StockedFor(w.cluster, config, id, p)
    decreases |providers|
  {
    hide Wrote, Storage.Turn, Provisioning.StockedFor;
    if providers != [] {
      var i := |providers| - 1;
      var p := providers[i];
      ProcessWrites(w, config, id, providers[..i], n);
      KeptThroughout(n, id);
      Storage.ProcessKeeps(w, config, id, providers[..i], Longer(n));
      var met := Storage.Process(w, config, id, providers[..i]).w;
      if Wrote(met, n) {
        Storage.TurnKeeps(met, config, id, p, Writing(n));
      } else {
        StockedUnmoved(w, config, id, providers);
        if !Provisioning.StockedFor(met.cluster, config, id, p) {
          TurnWrites(met, config, id, p, n);
        }
      }
      assert providers == providers[..i] + [p];
    }
  }

  /** A provider meets its volume, driver and secret as they were. */
  lemma StockedUnmoved(w: World, config: Config, id: Key, providers: seq<Storage.Provider>)
    requires Quiet(w) && providers != [] && Isolation.Distinct(providers)
    ensures var i := |providers| - 1;
      var met := Storage.Process(w, config, id, providers[..i]).w;
      Quiet(met) && (Provisioning.StockedFor(met.cluster, config, id, providers[i]) <==>
        Provisioning.StockedFor(w.cluster, config, id, providers[i]))
  {
    var i := |providers| - 1;
    Provisioning.QuietProcess(w, config, id, providers[..i]);
    Provisioning.ProvidedFrame(w.cluster, config, id, providers[..i]);
    Provisioning.EarlierOthers(providers, i);
    Provisioning.OthersOnly(w.cluster, config, id, providers[..i], providers[i]);
  }
}
