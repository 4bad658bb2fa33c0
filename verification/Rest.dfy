/** Settled clusters: when an application phase reaches one, and that it then finds nothing to do. */
module Rest {
  import opened Options
  import opened Objects
  import opened Api
  import opened StatusUpdates
  import opened Controller
  import opened Convergence
  import opened ClosedForm
  import Jobs
  import Provisioning
  import Storage

  predicate JobWrite(op: Op) { op.CreateJob? || op.UpdateJob? || op.DeleteJob? || op.DeleteJobs? }

  predicate IsRead(op: Op) { op.GetSecret? || op.GetJob? || op.ListJobs? }

  /** Since the log had length `n`, no job was written; if `strict`, nothing was. */
  ghost predicate Clean(w: World, n: nat, strict: bool) {
    n <= |w.log| && forall i | n <= i < |w.log| :: !JobWrite(w.log[i].op) && (strict ==> IsRead(w.log[i].op))
  }

  lemma CleanCall(w: World, op: Op, n: nat, strict: bool)
    requires Clean(w, n, strict) && !JobWrite(op) && (strict ==> IsRead(op))
    ensures Clean(After(w, op), n, strict)
  {
  }

  /** The job of an app is as wanted already. */
  predicate Fits(g: Goal, c: Cluster, uid: string) {
    Builds(g, uid) ==> Lookup(c.jobs, KeyOf(g, uid)) == TargetJob(g, c, uid)
  }

  /** Every buildable app's job is as wanted already, and every labelled job has a name that is kept. */
  ghost predicate Settled(g: Goal, c: Cluster) {
    && (forall uid | uid in g.spec.apps :: Fits(g, c, uid))
    && (forall k | k in ListedJobs(c, g.id.name) :: KeptName(g, c, k.name))
  }

  /** Every entry the loop would write is there already. */
  ghost predicate StatusSettled(g: Goal, c: Cluster)
    requires g.id in c.workbenches
  {
    forall uid | uid in g.spec.apps :: Lookup(AppsOf(c, g.id), uid) == TargetEntry(g, c, uid)
  }

  // ------------------------------------------------------- reaching rest

  /** A settled cluster has apps that share a job agree, so no order is better than another. */
  lemma SettledOrderFree(g: Goal, c: Cluster)
    requires Settled(g, c)
    ensures OrderFree(g, c)
  {
    forall u, v | Share(g, u, v)
      ensures Runs(g, u) == Runs(g, v) && (Runs(g, u) ==> KeyOf(g, u) in c.jobs)
    {
      assert Fits(g, c, u) && Fits(g, c, v);
    }
  }

  lemma FitsStep(g: Goal, d: Cluster, u: string, last: string)
    requires g.id in d.workbenches && u in g.spec.apps && last in g.spec.apps && Agreed(g) && Fits(g, d, u)
    ensures Fits(g, Effect(g, d, last), u) && Fits(g, Effect(g, d, last), last)
  {
    if Builds(g, u) && Builds(g, last) && KeyOf(g, u) == KeyOf(g, last) {
      assert u == last || Share(g, u, last);
    }
  }

  /** After the loop the job of every app is as wanted, if apps that share a job agree. */
  lemma {:induction false} LoopFits(g: Goal, c: Cluster, order: seq<string>)
    requires g.id in c.workbenches && Agreed(g) && forall uid | uid in order :: uid in g.spec.apps
    ensures forall uid | uid in order :: Fits(g, Effects(g, c, order), uid)
    decreases |order|
  {
    if order != [] {
      var n := |order| - 1;
      LoopFits(g, c, order[..n]);
      var d := Effects(g, c, order[..n]);
      forall uid | uid in order ensures Fits(g, Effect(g, d, order[n]), uid) {
        if uid in order[..n] {
          FitsStep(g, d, uid, order[n]);
        } else {
          OwnFits(g, d, order[n]);
        }
      }
    }
  }

  lemma OwnFits(g: Goal, d: Cluster, uid: string)
    requires g.id in d.workbenches && uid in g.spec.apps
    ensures Fits(g, Effect(g, d, uid), uid)
  {
  }

  /** The sweep after such a loop leaves a settled cluster. */
  lemma SweptSettles(g: Goal, d: Cluster, e: Cluster, order: seq<string>, found: seq<string>)
    requires Enumerates(order, g.spec.apps.Keys) && forall uid | uid in order :: Fits(g, d, uid)
    requires forall name :: name in found <==> Present(g, d, order, name)
    requires e == d.(jobs := d.jobs - (set j | j in ListedJobs(d, g.id.name) && j.name !in found))
    ensures Settled(g, e)
  {
    forall uid | uid in g.spec.apps ensures Fits(g, e, uid) {
      assert Fits(g, d, uid);
      if Builds(g, uid) && KeyOf(g, uid) in d.jobs {
        assert Present(g, d, order, KeyOf(g, uid).name);
      }
    }
    forall k | k in ListedJobs(e, g.id.name) ensures KeptName(g, e, k.name) {
      assert k in ListedJobs(d, g.id.name) && k.name in found;
      var uid :| uid in order && Builds(g, uid) && KeyOf(g, uid).name == k.name && KeyOf(g, uid) in d.jobs;
      assert Present(g, d, order, k.name) && KeyOf(g, uid) in e.jobs;
      assert TargetJob(g, e, uid).Some?;
    }
  }

  /** An undisturbed application phase behind a ready server settles the jobs exactly if apps that share a job
      agree on it. */
  lemma PhaseSettles(p: Pass, g: Goal, choice: Choice)
    requires Pursues(p, g) && ServerReady(p.mem) && choice.images == g.images && TakesOrders(p, g.config, choice)
    ensures var q := Applications(p, g.config, choice);
      && Calm(q) && q.mem.id == g.id
      && q.w.cluster == WithStatus(p.w.cluster, g.id, AppsOf(q.w.cluster, g.id)).(jobs := q.w.cluster.jobs)
      && (Settled(g, q.w.cluster) <==> Agreed(g))
  {
    QuietAppLoop(p, g, choice.apps);
    var a := AppLoop(Apps(p, []), g.config, g.images, choice.apps);
    var q := Applications(p, g.config, choice);
    QuietSweep(a.p, a.found, choice.jobs);
    EffectsFrame(g, p.w.cluster, choice.apps);
    if Agreed(g) {
      LoopFits(g, p.w.cluster, choice.apps);
      forall name ensures name in a.found <==> Present(g, a.p.w.cluster, choice.apps, name) {
        FoundNames(g, p.w.cluster, choice.apps, name);
      }
      SweptSettles(g, a.p.w.cluster, q.w.cluster, choice.apps, a.found);
    }
    if Settled(g, q.w.cluster) {
      SettledOrderFree(g, q.w.cluster);
    }
  }

  /** A running buildable app among `order` has its job at `k`. */
  predicate RunsAt(g: Goal, order: seq<string>, k: Key) {
    exists uid | uid in order :: Builds(g, uid) && Runs(g, uid) && KeyOf(g, uid) == k
  }

  lemma NextKeys(g: Goal, jobs: map<Key, Job>, uid: string, k: Key)
    requires uid in g.spec.apps
    ensures var after := NextJobs(g, jobs, uid);
      && (k in after <==> k in jobs || (Builds(g, uid) && Runs(g, uid) && KeyOf(g, uid) == k))
      && (!(Builds(g, uid) && KeyOf(g, uid) == k) ==> Lookup(after, k) == Lookup(jobs, k))
  {
  }

  /** After the loop there are the jobs from before and those of the running apps; the jobs of no app are as
      they were. */
  lemma {:induction false} LoopKeys(g: Goal, c: Cluster, order: seq<string>, k: Key)
    requires g.id in c.workbenches && forall uid | uid in order :: uid in g.spec.apps
    ensures var jobs := Effects(g, c, order).jobs;
      (k in jobs <==> k in c.jobs || RunsAt(g, order, k))
        && (!IsKey(g, order, k) ==> Lookup(jobs, k) == Lookup(c.jobs, k))
    decreases |order|
  {
    hide Effect, NextJobs, KeyOf, Runs;
    if order != [] {
      var n := |order| - 1;
      LoopKeys(g, c, order[..n], k);
      LastEffect(g, c, order);
      NextKeys(g, Effects(g, c, order[..n]).jobs, order[n], k);
      assert order == order[..n] + [order[n]];
    }
  }

  /** The names found are those that some app keeps, whatever the apps share. */
  lemma FoundKept(g: Goal, c: Cluster, order: seq<string>, name: string)
    requires g.id in c.workbenches && Enumerates(order, g.spec.apps.Keys)
    ensures name in Found(g, c, order) <==> KeptName(g, c, name)
  {
    FoundNames(g, c, order, name);
    forall uid | uid in order && Builds(g, uid)
      ensures KeyOf(g, uid) in Effects(g, c, order).jobs <==> KeyOf(g, uid) in c.jobs || RunsAt(g, order, KeyOf(g, uid))
    {
      LoopKeys(g, c, order, KeyOf(g, uid));
    }
    if name in Found(g, c, order) {
      var uid :| uid in order && Builds(g, uid) && KeyOf(g, uid).name == name
        && KeyOf(g, uid) in Effects(g, c, order).jobs;
      if KeyOf(g, uid) !in c.jobs {
        var v :| v in order && Builds(g, v) && Runs(g, v) && KeyOf(g, v) == KeyOf(g, uid);
        assert TargetJob(g, c, v).Some?;
      } else {
        assert TargetJob(g, c, uid).Some?;
      }
    }
  }

  /** What becomes of every job that is no buildable app's, in whatever namespace and whatever the apps share:
      with the label it stays exactly under a name that some app keeps, without it always, and never changes. */
  lemma OtherJobs(p: Pass, g: Goal, choice: Choice, k: Key)
    requires Pursues(p, g) && ServerReady(p.mem) && choice.images == g.images && TakesOrders(p, g.config, choice)
    requires !IsAppKey(g, k)
    ensures Lookup(Applications(p, g.config, choice).w.cluster.jobs, k) == TargetOther(g, p.w.cluster, k)
  {
    QuietAppLoop(p, g, choice.apps);
    var a := AppLoop(Apps(p, []), g.config, g.images, choice.apps);
    QuietSweep(a.p, a.found, choice.jobs);
    assert !IsKey(g, choice.apps, k);
    LoopKeys(g, p.w.cluster, choice.apps, k);
    FoundKept(g, p.w.cluster, choice.apps, k.name);
  }

  /** What becomes of the job of a buildable app: it is there afterwards exactly if it was before or one of the
      apps it belongs to is to run. */
  lemma AppJobs(p: Pass, g: Goal, choice: Choice, k: Key)
    requires Pursues(p, g) && ServerReady(p.mem) && choice.images == g.images && TakesOrders(p, g.config, choice)
    requires IsAppKey(g, k)
    ensures k in Applications(p, g.config, choice).w.cluster.jobs <==>
      k in p.w.cluster.jobs || exists uid | uid in g.spec.apps :: Builds(g, uid) && Runs(g, uid) && KeyOf(g, uid) == k
  {
    QuietAppLoop(p, g, choice.apps);
    var a := AppLoop(Apps(p, []), g.config, g.images, choice.apps);
    QuietSweep(a.p, a.found, choice.jobs);
    LoopKeys(g, p.w.cluster, choice.apps, k);
    FoundNames(g, p.w.cluster, choice.apps, k.name);
    var uid :| uid in g.spec.apps && Builds(g, uid) && KeyOf(g, uid) == k;
    assert k in a.p.w.cluster.jobs ==> Present(g, a.p.w.cluster, choice.apps, k.name);
  }

  /** A labelled job of another namespace, say of a workbench with the same name, survives, unchanged, exactly if
      its name is one that some app here keeps. */
  lemma ForeignJobs(p: Pass, g: Goal, choice: Choice, k: Key)
    requires Pursues(p, g) && ServerReady(p.mem) && choice.images == g.images && TakesOrders(p, g.config, choice)
    requires k in p.w.cluster.jobs && k.ns != g.id.ns && Labelled(p.w.cluster.jobs[k].labels, g.id.name)
    ensures var jobs := Applications(p, g.config, choice).w.cluster.jobs;
      (k in jobs <==> KeptName(g, p.w.cluster, k.name)) && (k in jobs ==> jobs[k] == p.w.cluster.jobs[k])
  {
    OtherJobs(p, g, choice, k);
  }

  /** A job in the workbench's own namespace stays exactly if it is an app's or does not carry the label. */
  lemma OwnJobStays(p: Pass, g: Goal, choice: Choice, k: Key)
    requires Pursues(p, g) && ServerReady(p.mem) && choice.images == g.images && TakesOrders(p, g.config, choice)
    requires k in p.w.cluster.jobs && k.ns == g.id.ns
    ensures k in Applications(p, g.config, choice).w.cluster.jobs <==>
      IsAppKey(g, k) || !Labelled(p.w.cluster.jobs[k].labels, g.id.name)
  {
    if IsAppKey(g, k) {
      AppJobs(p, g, choice, k);
    } else {
      OtherJobs(p, g, choice, k);
      assert !KeptName(g, p.w.cluster, k.name);
    }
  }

  /** Afterwards the workbench has no labelled job in its own namespace but those of its buildable apps. */
  lemma OwnJobsAreApps(p: Pass, g: Goal, choice: Choice, k: Key)
    requires Pursues(p, g) && ServerReady(p.mem) && choice.images == g.images && TakesOrders(p, g.config, choice)
    ensures var jobs := Applications(p, g.config, choice).w.cluster.jobs;
      k in jobs && k.ns == g.id.ns && Labelled(jobs[k].labels, g.id.name) ==> IsAppKey(g, k)
  {
    if !IsAppKey(g, k) {
      OtherJobs(p, g, choice, k);
      if k in p.w.cluster.jobs && k.ns == g.id.ns {
        OwnJobStays(p, g, choice, k);
      }
    }
  }

  /** So the setup job of a storage provider, which carries the label, does not survive the application phase of
      the very pass that created it, unless an app has its name. */
  lemma SetupJobsSwept(p: Pass, g: Goal, choice: Choice, provider: Storage.Provider)
    requires Pursues(p, g) && ServerReady(p.mem) && choice.images == g.images && TakesOrders(p, g.config, choice)
    requires var k := Storage.SetupKey(provider, g.id.ns);
      k in p.w.cluster.jobs && Labelled(p.w.cluster.jobs[k].labels, g.id.name)
    ensures var k := Storage.SetupKey(provider, g.id.ns);
      k in Applications(p, g.config, choice).w.cluster.jobs <==> IsAppKey(g, k)
  {
    OwnJobStays(p, g, choice, Storage.SetupKey(provider, g.id.ns));
  }

  /** From a settled cluster the closed form changes no job, and settles the status as well. */
  lemma SettledCloses(g: Goal, c: Cluster, e: Cluster)
    requires g.id in c.workbenches && Closed(g, c, e) && Settled(g, c)
    ensures e.jobs == c.jobs && StatusSettled(g, e)
  {
    forall k: Key ensures Lookup(e.jobs, k) == Lookup(c.jobs, k) {
      if IsAppKey(g, k) {
        var uid :| uid in g.spec.apps && Builds(g, uid) && KeyOf(g, uid) == k;
      } else {
        assert Lookup(e.jobs, k) == TargetOther(g, c, k);
        assert k in c.jobs && Labelled(c.jobs[k].labels, g.id.name) ==> k in ListedJobs(c, g.id.name);
      }
    }
    SameLookups(e.jobs, c.jobs);
    forall uid | uid in g.spec.apps ensures Lookup(AppsOf(e, g.id), uid) == TargetEntry(g, e, uid) {
      assert Lookup(AppsOf(e, g.id), uid) == TargetEntry(g, c, uid);
    }
  }

  /** The jobs are the same but for their statuses. */
  predicate SameButStatus(jobs: map<Key, Job>, other: map<Key, Job>) {
    jobs.Keys == other.Keys && forall k | k in jobs :: other[k].(status := jobs[k].status) == jobs[k]
  }

  /** Job statuses may move without unsettling anything. */
  lemma StatusMoves(g: Goal, c: Cluster, d: Cluster)
    requires Settled(g, c) && SameButStatus(c.jobs, d.jobs)
    ensures Settled(g, d)
  {
  }

  // ------------------------------------------------------ passes at rest

  lemma CleanInit(w: World, g: Goal, app: App, n: nat, strict: bool)
    requires Clean(w, n, strict)
    ensures Clean(Jobs.InitJob(w, g.id, g.config, g.spec, g.images, app).w, n, strict)
  {
    var inv := (x: World) => Clean(x, n, strict);
    forall x, key | inv(x) ensures inv(After(x, GetSecret(key))) {
      CleanCall(x, GetSecret(key), n, strict);
    }
    Storage.ActiveKeeps(w, g.config, Storage.EnabledProviders(g.config, g.spec), inv);
  }

  lemma CleanPush(p: Pass, changed: bool, n: nat, strict: bool)
    requires Clean(p.w, n, strict) && (strict ==> !changed)
    ensures Clean(PushIf(p, changed).w, n, strict)
  {
  }

  lemma CleanFailure(a: Apps, g: Goal, uid: string, n: nat, strict: bool)
    requires Pursues(a.p, g) && uid in g.spec.apps && !Builds(g, uid) && Clean(a.p.w, n, strict)
    requires strict ==> Lookup(AppsOf(a.p.w.cluster, g.id), uid) == TargetEntry(g, a.p.w.cluster, uid)
    ensures Clean(AppStep(a, g.config, g.images, uid).p.w, n, strict)
  {
    CleanInit(a.p.w, g, g.spec.apps[uid], n, strict);
    var job := Jobs.InitJob(a.p.w, g.id, g.config, g.spec, g.images, g.spec.apps[uid]);
    var p := a.p.(w := job.w);
    var apps := p.mem.now.status.apps;
    var (next, changed) := FromFailure(apps, uid);
    FailureFlag(apps, uid);
    EntryUnmoved(apps, next, uid);
    CleanPush(p.(mem := WithApps(p.mem, next)), changed, n, strict);
  }

  lemma CleanMissing(w: World, key: Key, job: Job, n: nat, strict: bool)
    requires Quiet(w) && Clean(w, n, strict) && (key in w.cluster.jobs || job.suspend == Some(true))
    ensures var s := CreateMissing(w, key, job);
      && Clean(s.w, n, strict) && s.w == After(w, GetJob(key))
      && s.value == if key in w.cluster.jobs then Existing(w.cluster.jobs[key]) else CreateSkipped
  {
  }

  function JobCall(a: Apps, g: Goal, uid: string): Step<Option<Job>>
    requires uid in g.spec.apps
  {
    Jobs.InitJob(a.p.w, g.id, g.config, g.spec, g.images, g.spec.apps[uid])
  }

  lemma JobCalled(a: Apps, g: Goal, uid: string, n: nat, strict: bool)
    requires Pursues(a.p, g) && Builds(g, uid) && Clean(a.p.w, n, strict)
    ensures var job := JobCall(a, g, uid);
      && job.value == Some(JobOf(g, uid)) && Clean(job.w, n, strict)
      && Quiet(job.w) && job.w.cluster == a.p.w.cluster
  {
    CleanInit(a.p.w, g, g.spec.apps[uid], n, strict);
    Provisioning.QuietActive(a.p.w, g.config, Storage.EnabledProviders(g.config, g.spec));
  }

  lemma CleanJob(a: Apps, g: Goal, uid: string, n: nat, strict: bool)
    requires Pursues(a.p, g) && Builds(g, uid) && Clean(a.p.w, n, strict)
    requires Fits(g, a.p.w.cluster, uid)
    requires strict ==> Lookup(AppsOf(a.p.w.cluster, g.id), uid) == TargetEntry(g, a.p.w.cluster, uid)
    ensures Clean(AppStep(a, g.config, g.images, uid).p.w, n, strict)
  {
    JobCalled(a, g, uid, n, strict);
    CleanHandled(a, g, uid, n, strict, JobCall(a, g, uid));
  }

  lemma CleanHandled(a: Apps, g: Goal, uid: string, n: nat, strict: bool, job: Step<Option<Job>>)
    requires Calm(a.p) && a.p.mem.id == g.id && a.p.mem.now.spec == g.spec && Builds(g, uid)
    requires job.value == Some(JobOf(g, uid)) && Clean(job.w, n, strict) && Quiet(job.w)
      && job.w.cluster == a.p.w.cluster
    requires Fits(g, a.p.w.cluster, uid)
    requires strict ==> Lookup(AppsOf(a.p.w.cluster, g.id), uid) == TargetEntry(g, a.p.w.cluster, uid)
    ensures Clean(HandleApp(a, uid, KeyOf(g, uid), job).p.w, n, strict)
  {
    var k := KeyOf(g, uid);
    CleanMissing(job.w, k, JobOf(g, uid), n, strict);
    if k in job.w.cluster.jobs {
      QuietCall(job.w, GetJob(k));
      CleanAdopt(g, a.p.(w := After(job.w, GetJob(k))), uid, n, strict);
    }
  }

  /** A settled app's effect on the cluster. */
  lemma SettledEffect(g: Goal, c: Cluster, uid: string)
    requires g.id in c.workbenches && uid in g.spec.apps
    requires Fits(g, c, uid)
    ensures Effect(g, c, uid).jobs == c.jobs
    ensures Lookup(AppsOf(c, g.id), uid) == TargetEntry(g, c, uid) ==> Effect(g, c, uid) == c
  {
  }

  /** A settled app's step writes no job; with its entry settled too, it writes nothing. */
  lemma CleanStep(a: Apps, g: Goal, uid: string, n: nat, strict: bool)
    requires Pursues(a.p, g) && uid in g.spec.apps && Clean(a.p.w, n, strict)
    requires Fits(g, a.p.w.cluster, uid)
    requires strict ==> Lookup(AppsOf(a.p.w.cluster, g.id), uid) == TargetEntry(g, a.p.w.cluster, uid)
    ensures var b := AppStep(a, g.config, g.images, uid);
      && Clean(b.p.w, n, strict) && b.p.w.cluster.jobs == a.p.w.cluster.jobs
      && (strict ==> b.p.w.cluster == a.p.w.cluster)
  {
    QuietAppStep(a, g, uid);
    SettledEffect(g, a.p.w.cluster, uid);
    if Builds(g, uid) {
      CleanJob(a, g, uid, n, strict);
    } else {
      CleanFailure(a, g, uid, n, strict);
    }
  }

  lemma EntryUnmoved(apps: map<string, AppStatus>, next: map<string, AppStatus>, uid: string)
    requires forall v | v != uid :: Lookup(apps, v) == Lookup(next, v)
    ensures Lookup(apps, uid) == Lookup(next, uid) ==> apps == next
  {
    if Lookup(apps, uid) == Lookup(next, uid) {
      SameLookups(apps, next);
    }
  }

  lemma CleanAdopt(g: Goal, p: Pass, uid: string, n: nat, strict: bool)
    requires Calm(p) && p.mem.id == g.id && p.mem.now.spec == g.spec && Builds(g, uid) && Clean(p.w, n, strict)
    requires KeyOf(g, uid) in p.w.cluster.jobs
    requires Fits(g, p.w.cluster, uid)
    requires strict ==> Lookup(AppsOf(p.w.cluster, g.id), uid) == TargetEntry(g, p.w.cluster, uid)
    ensures var k := KeyOf(g, uid);
      var q := Adopt(p, uid, k, JobOf(g, uid), p.w.cluster.jobs[k]);
      && Clean(q.w, n, strict) && q.w.cluster.jobs == p.w.cluster.jobs
      && (strict ==> q.w.cluster == p.w.cluster)
  {
  }

  lemma {:induction false} CleanLoop(p: Pass, g: Goal, order: seq<string>, n: nat, strict: bool)
    requires Pursues(p, g) && Settled(g, p.w.cluster) && Clean(p.w, n, strict)
    requires forall uid | uid in order :: uid in g.spec.apps
    requires strict ==> StatusSettled(g, p.w.cluster)
    ensures var b := AppLoop(Apps(p, []), g.config, g.images, order);
      && Pursues(b.p, g) && Clean(b.p.w, n, strict) && b.p.w.cluster.jobs == p.w.cluster.jobs
      && (strict ==> b.p.w.cluster == p.w.cluster)
    decreases |order|
  {
    if order != [] {
      var i := |order| - 1;
      CleanLoop(p, g, order[..i], n, strict);
      QuietAppLoop(p, g, order[..i]);
      var a := AppLoop(Apps(p, []), g.config, g.images, order[..i]);
      QuietAppStep(a, g, order[i]);
      assert Fits(g, p.w.cluster, order[i]);
      CleanStep(a, g, order[i], n, strict);
    }
  }

  lemma {:induction false} NothingToSweep(p: Pass, found: seq<string>, listed: set<Key>, order: seq<Key>)
    requires forall k | k in listed :: k.name in found
    ensures SweepLoop(p, found, listed, order) == p
    decreases |order|
  {
    if order != [] {
      NothingToSweep(p, found, listed, order[..|order| - 1]);
    }
  }

  /** Over a settled cluster the loop finds every labelled job's name. */
  lemma AllFound(p: Pass, g: Goal, order: seq<string>, k: Key)
    requires Pursues(p, g) && Settled(g, p.w.cluster) && Enumerates(order, g.spec.apps.Keys)
    requires AppLoop(Apps(p, []), g.config, g.images, order).p.w.cluster.jobs == p.w.cluster.jobs
    requires k in ListedJobs(p.w.cluster, g.id.name)
    ensures k.name in AppLoop(Apps(p, []), g.config, g.images, order).found
  {
    QuietAppLoop(p, g, order);
    FoundNames(g, p.w.cluster, order, k.name);
    var uid :| uid in g.spec.apps && Builds(g, uid) && TargetJob(g, p.w.cluster, uid).Some?
      && KeyOf(g, uid).name == k.name;
    assert Fits(g, p.w.cluster, uid);
  }

  lemma CleanSweep(p: Pass, found: seq<string>, order: seq<Key>, n: nat, strict: bool)
    requires Calm(p) && Clean(p.w, n, strict)
    requires forall k | k in ListedJobs(p.w.cluster, p.mem.id.name) :: k.name in found
    ensures var q := Sweep(p, found, order); Clean(q.w, n, strict) && q.w.cluster == p.w.cluster
  {
    var list := ListJobs(p.mem.id.name);
    QuietCall(p.w, list);
    CleanCall(p.w, list, n, strict);
    NothingToSweep(p.(w := After(p.w, list)), found, ListedJobs(p.w.cluster, p.mem.id.name), order);
  }

  /** The application phase over a settled cluster: no job is written; once the status is settled too, the
      phase only reads. */
  lemma PhaseAtRest(p: Pass, g: Goal, choice: Choice, n: nat, strict: bool)
    requires Pursues(p, g) && Settled(g, p.w.cluster) && choice.images == g.images
    requires Enumerates(choice.apps, g.spec.apps.Keys) && Clean(p.w, n, strict)
    requires strict ==> StatusSettled(g, p.w.cluster)
    ensures var q := Applications(p, g.config, choice);
      && Clean(q.w, n, strict) && q.w.cluster.jobs == p.w.cluster.jobs
      && (strict ==> q.w.cluster == p.w.cluster)
  {
    if ServerReady(p.mem) {
      CleanLoop(p, g, choice.apps, n, strict);
      var a := AppLoop(Apps(p, []), g.config, g.images, choice.apps);
      forall k | k in ListedJobs(a.p.w.cluster, g.id.name) ensures k.name in a.found {
        assert k in ListedJobs(p.w.cluster, g.id.name);
        AllFound(p, g, choice.apps, k);
      }
      CleanSweep(a.p, a.found, choice.jobs, n, strict);
    }
  }
}
