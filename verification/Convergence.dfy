/**
 The app loop of an undisturbed pass, app by app, and what it adds up to for every job and every status
 entry, as long as apps that share a job do not make its order matter.
 */
module Convergence {
  import opened Options
  import opened Objects
  import opened Api
  import opened StatusUpdates
  import opened Controller
  import Jobs
  import Names
  import Provisioning
  import Storage
  import Text

  function Lookup<K, V>(m: map<K, V>, k: K): Option<V> { if k in m then Some(m[k]) else None }

  predicate NoRepeats<T(==)>(s: seq<T>) { forall i, j | 0 <= i < j < |s| :: s[i] != s[j] }

  /** `order` lists the elements of `keys`, each once. */
  ghost predicate Enumerates<T(!new)>(order: seq<T>, keys: set<T>) {
    NoRepeats(order) && forall x :: x in order <==> x in keys
  }

  /** Some order of a set, as Go's map ranges and the API's listings give one. */
  lemma {:induction false} SomeOrder<T(!new)>(s: set<T>) returns (order: seq<T>)
    ensures Enumerates(order, s)
    decreases s
  {
    if s == {} {
      order := [];
    } else {
      var x :| x in s;
      var rest := SomeOrder(s - {x});
      order := rest + [x];
    }
  }

  lemma Extended<T(!new)>(done: seq<T>, seen: set<T>, rest: seq<T>, remaining: set<T>)
    requires Enumerates(done, seen) && Enumerates(rest, remaining) && seen !! remaining
    ensures Enumerates(done + rest, seen + remaining)
  {
    var all := done + rest;
    forall i, j | 0 <= i < j < |all| ensures all[i] != all[j] {
      assert all[i] == if i < |done| then done[i] else rest[i - |done|];
      assert all[j] == if j < |done| then done[j] else rest[j - |done|];
      if i < |done| <= j {
        assert done[i] in done && rest[j - |done|] in rest;
      }
    }
  }

  /** The orders taken are those of Go: each enumerates what is iterated over. */
  ghost predicate TakesOrders(p: Pass, config: Config, choice: Choice) {
    var a := AppLoop(Apps(p, []), config, choice.images, choice.apps);
    && Enumerates(choice.apps, p.mem.now.spec.apps.Keys)
    && (a.p.end.None? ==> Enumerates(choice.jobs, ListedJobs(Snapshot(a.p.w), p.mem.id.name)))
  }

  /** What the pass aims at: the spec, and what the jobs are built from. */
  datatype Goal = Goal(id: Key, config: Config, images: Jobs.Images, spec: Spec, active: seq<Storage.Provider>)

  function GoalOf(c: Cluster, id: Key, config: Config, images: Jobs.Images): Goal
    requires id in c.workbenches
  {
    var spec := c.workbenches[id].spec;
    Goal(id, config, images, spec, Provisioning.Usable(c, config, Storage.EnabledProviders(config, spec)))
  }

  predicate Builds(g: Goal, uid: string) { uid in g.spec.apps && Jobs.Buildable(g.images, g.spec.apps[uid]) }

  function KeyOf(g: Goal, uid: string): Key
    requires uid in g.spec.apps
  {
    Jobs.JobKey(g.id, uid, g.spec.apps[uid])
  }

  function JobOf(g: Goal, uid: string): Job
    requires Builds(g, uid)
  {
    Jobs.JobFor(g.id, g.config, g.spec, g.spec.apps[uid], g.active)
  }

  predicate Runs(g: Goal, uid: string)
    requires uid in g.spec.apps
  {
    Jobs.WantsRunning(g.spec.apps[uid])
  }

  /** Two different buildable apps are after the same job. */
  predicate Share(g: Goal, u: string, v: string) {
    u != v && Builds(g, u) && Builds(g, v) && KeyOf(g, u) == KeyOf(g, v)
  }

  /** Apps that share a job want the same of it. */
  ghost predicate Agreed(g: Goal) {
    forall u, v | Share(g, u, v) :: Runs(g, u) == Runs(g, v)
  }

  /** Apps that share a job want the same of it, and none of them would have to create it. */
  ghost predicate OrderFree(g: Goal, c: Cluster) {
    Agreed(g) && forall u, v | Share(g, u, v) && Runs(g, u) :: KeyOf(g, u) in c.jobs
  }

  /** Uids that cannot share a job name, whatever the apps are called, make every order as good as another. */
  lemma SeparateUids(g: Goal, c: Cluster)
    requires forall u, v | u in g.spec.apps && v in g.spec.apps && u != v :: !Names.Mixable(u, v)
    ensures OrderFree(g, c)
  {
    forall u, v ensures !Share(g, u, v) {
      if Share(g, u, v) {
        Names.JobNames(g.id, u, g.spec.apps[u], v, g.spec.apps[v]);
      }
    }
  }

  /** Apps that share a job key have different names, so the jobs they would create differ: each pod is
      called after its app. */
  lemma SharersDiffer(g: Goal, u: string, v: string)
    requires Share(g, u, v)
    ensures JobOf(g, u).pod != JobOf(g, v).pod
  {
    var a, b := g.spec.apps[u].name, g.spec.apps[v].name;
    if a == b {
      var tail := "-" + a;
      assert Jobs.JobName(g.id, u, g.spec.apps[u]) == (g.id.name + "-" + u) + tail;
      assert Jobs.JobName(g.id, v, g.spec.apps[v]) == (g.id.name + "-" + v) + tail;
      Text.SuffixCancel(g.id.name + "-" + u, g.id.name + "-" + v, tail);
      Text.PrefixCancel(g.id.name + "-", u, v);
    }
  }

  // ------------------------------------------------------------- closed form

  /** The job a buildable app ends up with: an existing one with its suspension set right, a new one if it
      is to run, none otherwise. */
  function TargetJob(g: Goal, c: Cluster, uid: string): Option<Job>
    requires Builds(g, uid)
  {
    var k := KeyOf(g, uid);
    if k in c.jobs then Some(c.jobs[k].(suspend := Some(!Runs(g, uid))))
    else if Runs(g, uid) then Some(JobOf(g, uid))
    else None
  }

  function AppsOf(c: Cluster, id: Key): map<string, AppStatus>
    requires id in c.workbenches
  {
    c.workbenches[id].status.apps
  }

  /** The status entry an app of the spec ends up with. */
  function TargetEntry(g: Goal, c: Cluster, uid: string): Option<AppStatus>
    requires g.id in c.workbenches && uid in g.spec.apps
  {
    var apps := AppsOf(c, g.id);
    if !Builds(g, uid) then Lookup(FromFailure(apps, uid).0, uid)
    else if KeyOf(g, uid) in c.jobs then Lookup(FromJob(apps, g.spec, uid, c.jobs[KeyOf(g, uid)]).0, uid)
    else Lookup(apps, uid)
  }

  function WithStatus(c: Cluster, id: Key, apps: map<string, AppStatus>): Cluster
    requires id in c.workbenches
  {
    var wb := c.workbenches[id];
    c.(workbenches := c.workbenches[id := wb.(status := wb.status.(apps := apps))])
  }

  /** One app's effect on the jobs. */
  function NextJobs(g: Goal, jobs: map<Key, Job>, uid: string): map<Key, Job>
    requires uid in g.spec.apps
  {
    if !Builds(g, uid) then jobs
    else
      var k := KeyOf(g, uid);
      if k in jobs then jobs[k := jobs[k].(suspend := Some(!Runs(g, uid)))]
      else if Runs(g, uid) then jobs[k := JobOf(g, uid)]
      else jobs
  }

  /** One app's effect on the entries. */
  function NextApps(g: Goal, c: Cluster, uid: string): map<string, AppStatus>
    requires g.id in c.workbenches && uid in g.spec.apps
  {
    var apps := AppsOf(c, g.id);
    if !Builds(g, uid) then FromFailure(apps, uid).0
    else if KeyOf(g, uid) in c.jobs then FromJob(apps, g.spec, uid, c.jobs[KeyOf(g, uid)]).0
    else apps
  }

  /** One app's effect on the cluster. */
  function Effect(g: Goal, c: Cluster, uid: string): Cluster
    requires g.id in c.workbenches && uid in g.spec.apps
  {
    WithStatus(c, g.id, NextApps(g, c, uid)).(jobs := NextJobs(g, c.jobs, uid))
  }

  lemma SameStatus(c: Cluster, id: Key)
    requires id in c.workbenches
    ensures WithStatus(c, id, AppsOf(c, id)) == c
  {
    assert c.workbenches[id := c.workbenches[id]] == c.workbenches;
  }

  /** In step: the stored workbench, the version read, and the object in memory agree. */
  predicate Synced(p: Pass) {
    && p.mem.id in p.w.cluster.workbenches
    && p.w.cluster.workbenches[p.mem.id] == p.mem.read == p.mem.now
  }

  predicate Calm(p: Pass) { p.end.None? && Quiet(p.w) && Synced(p) }

  lemma QuietPushApps(p: Pass, apps: map<string, AppStatus>, changed: bool)
    requires Calm(p) && (!changed ==> apps == p.mem.now.status.apps)
    ensures var q := PushIf(p.(mem := WithApps(p.mem, apps)), changed);
      && Calm(q) && q.mem.id == p.mem.id && q.mem.now.spec == p.mem.now.spec
      && q.mem.now.status.server == p.mem.now.status.server
      && q.w.cluster == WithStatus(p.w.cluster, p.mem.id, apps)
  {
  }

  /** Setting the suspension of a job that exists, if it is not set so already. */
  lemma QuietSuspend(p: Pass, key: Key, job: Job)
    requires Calm(p) && key in p.w.cluster.jobs && job.suspend.Some?
    ensures var existing := p.w.cluster.jobs[key];
      var (next, updated) := Jobs.Update(job, existing);
      var w := After(p.w, UpdateJob(key, existing, next));
      && next == existing.(suspend := job.suspend)
      && Ok(p.w, UpdateJob(key, existing, next)) && Calm(p.(w := w))
      && w.cluster == p.w.cluster.(jobs := p.w.cluster.jobs[key := next])
      && (!updated ==> p.w.cluster == p.w.cluster.(jobs := p.w.cluster.jobs[key := next]))
  {
  }

  /** The pass once the status of an existing job is recorded. */
  function Recorded(p: Pass, uid: string, existing: Job): Pass {
    var (apps, changed) := FromJob(p.mem.now.status.apps, p.mem.now.spec, uid, existing);
    PushIf(p.(mem := WithApps(p.mem, apps)), changed)
  }

  lemma QuietRecord(p: Pass, uid: string, existing: Job)
    requires Calm(p) && uid in p.mem.now.spec.apps
    ensures var q := Recorded(p, uid, existing);
      && Calm(q) && q.mem.id == p.mem.id && q.mem.now.spec == p.mem.now.spec
      && q.mem.now.status.server == p.mem.now.status.server
      && q.w.cluster ==
        WithStatus(p.w.cluster, p.mem.id, FromJob(p.mem.now.status.apps, p.mem.now.spec, uid, existing).0)
  {
    var (apps, changed) := FromJob(p.mem.now.status.apps, p.mem.now.spec, uid, existing);
    JobFlag(p.mem.now.status.apps, p.mem.now.spec, uid, existing);
    QuietPushApps(p, apps, changed);
  }

  lemma QuietAdopt(g: Goal, p: Pass, uid: string)
    requires Calm(p) && p.mem.id == g.id && p.mem.now.spec == g.spec && Builds(g, uid)
      && KeyOf(g, uid) in p.w.cluster.jobs
    ensures var k := KeyOf(g, uid);
      var q := Adopt(p, uid, k, JobOf(g, uid), p.w.cluster.jobs[k]);
      && Calm(q) && q.mem.id == g.id && q.mem.now.spec == g.spec
      && q.mem.now.status.server == p.mem.now.status.server
      && q.w.cluster == Effect(g, p.w.cluster, uid)
  {
    var k := KeyOf(g, uid);
    var existing := p.w.cluster.jobs[k];
    QuietRecord(p, uid, existing);
    QuietSuspend(Recorded(p, uid, existing), k, JobOf(g, uid));
  }

  lemma QuietCreateMissing(w: World, key: Key, job: Job)
    requires Quiet(w)
    ensures var s := CreateMissing(w, key, job);
      && Quiet(s.w) && !s.value.CreateFailed?
      && (key in w.cluster.jobs ==> s.value == Existing(w.cluster.jobs[key]) && s.w.cluster == w.cluster)
      && (key !in w.cluster.jobs && job.suspend == Some(true) ==> s.value == CreateSkipped && s.w.cluster == w.cluster)
      && (key !in w.cluster.jobs && job.suspend != Some(true) ==>
            s.value == CreatedNow && s.w.cluster == w.cluster.(jobs := w.cluster.jobs[key := job]))
  {
  }

  /** The goal and the pass are about the same thing. */
  predicate Pursues(p: Pass, g: Goal) {
    && Calm(p) && p.mem.id == g.id && p.mem.now.spec == g.spec
    && Provisioning.Usable(p.w.cluster, g.config, Storage.EnabledProviders(g.config, g.spec)) == g.active
  }

  lemma UsableFrame(c: Cluster, d: Cluster, config: Config, providers: seq<Storage.Provider>)
    requires c.secrets == d.secrets
    ensures Provisioning.Usable(c, config, providers) == Provisioning.Usable(d, config, providers)
    decreases |providers|
  {
  }

  /** One undisturbed step of the app loop. */
  lemma QuietAppStep(a: Apps, g: Goal, uid: string)
    requires Pursues(a.p, g) && uid in g.spec.apps
    ensures var b := AppStep(a, g.config, g.images, uid);
      && Pursues(b.p, g) && b.p.w.cluster == Effect(g, a.p.w.cluster, uid)
      && b.p.mem.now.status.server == a.p.mem.now.status.server
      && b.found == a.found +
        if Builds(g, uid) && TargetJob(g, a.p.w.cluster, uid).Some? then [KeyOf(g, uid).name] else []
  {
    var providers := Storage.EnabledProviders(g.config, g.spec);
    Provisioning.QuietActive(a.p.w, g.config, providers);
    var job := Jobs.InitJob(a.p.w, g.id, g.config, g.spec, g.images, g.spec.apps[uid]);
    var p := a.p.(w := job.w);
    assert Calm(p);
    SameStatus(a.p.w.cluster, g.id);
    var b := AppStep(a, g.config, g.images, uid);
    if !Builds(g, uid) {
      var (apps, changed) := FromFailure(p.mem.now.status.apps, uid);
      FailureFlag(p.mem.now.status.apps, uid);
      QuietPushApps(p, apps, changed);
      UsableFrame(a.p.w.cluster, b.p.w.cluster, g.config, providers);
    } else {
      QuietCreateMissing(job.w, KeyOf(g, uid), JobOf(g, uid));
      if KeyOf(g, uid) in a.p.w.cluster.jobs {
        var created := CreateMissing(job.w, KeyOf(g, uid), JobOf(g, uid));
        QuietAdopt(g, a.p.(w := created.w), uid);
      }
      UsableFrame(a.p.w.cluster, b.p.w.cluster, g.config, providers);
    }
  }

  function Effects(g: Goal, c: Cluster, order: seq<string>): (d: Cluster)
    requires g.id in c.workbenches && forall uid | uid in order :: uid in g.spec.apps
    ensures g.id in d.workbenches
  {
    if order == [] then c
    else Effect(g, Effects(g, c, order[..|order| - 1]), order[|order| - 1])
  }

  lemma LastEffect(g: Goal, c: Cluster, order: seq<string>)
    requires g.id in c.workbenches && order != [] && forall uid | uid in order :: uid in g.spec.apps
    ensures var n := |order| - 1; Effects(g, c, order).jobs == NextJobs(g, Effects(g, c, order[..n]).jobs, order[n])
  {
    hide NextJobs, NextApps, Builds, KeyOf;
  }

  /** The job names that the loop finds or creates. */
  function Found(g: Goal, c: Cluster, order: seq<string>): seq<string>
    requires g.id in c.workbenches && forall uid | uid in order :: uid in g.spec.apps
  {
    if order == [] then []
    else
      var n := |order| - 1;
      Found(g, c, order[..n]) +
      if Builds(g, order[n]) && TargetJob(g, Effects(g, c, order[..n]), order[n]).Some?
      then [KeyOf(g, order[n]).name] else []
  }

  lemma {:induction false} QuietAppLoop(p: Pass, g: Goal, order: seq<string>)
    requires Pursues(p, g) && forall uid | uid in order :: uid in g.spec.apps
    ensures var b := AppLoop(Apps(p, []), g.config, g.images, order);
      && Pursues(b.p, g) && b.p.w.cluster == Effects(g, p.w.cluster, order) && b.found == Found(g, p.w.cluster, order)
      && b.p.mem.now.status.server == p.mem.now.status.server
    decreases |order|
  {
    if order != [] {
      var n := |order| - 1;
      QuietAppLoop(p, g, order[..n]);
      QuietAppStep(AppLoop(Apps(p, []), g.config, g.images, order[..n]), g, order[n]);
    }
  }

  // -------------------------------------------------- the loop, key by key

  /** `k` is the job key of a buildable app among `order`. */
  predicate IsKey(g: Goal, order: seq<string>, k: Key) {
    exists uid | uid in order :: Builds(g, uid) && KeyOf(g, uid) == k
  }

  ghost predicate JobsWorked(g: Goal, c: Cluster, d: Cluster, order: seq<string>) {
    && (forall uid | uid in order && Builds(g, uid) :: Lookup(d.jobs, KeyOf(g, uid)) == TargetJob(g, c, uid))
    && (forall k: Key | !IsKey(g, order, k) :: Lookup(d.jobs, k) == Lookup(c.jobs, k))
  }

  ghost predicate EntriesWorked(g: Goal, c: Cluster, d: Cluster, order: seq<string>)
    requires g.id in c.workbenches && g.id in d.workbenches && forall uid | uid in order :: uid in g.spec.apps
  {
    && (forall uid | uid in order :: Lookup(AppsOf(d, g.id), uid) == TargetEntry(g, c, uid))
    && (forall uid | uid !in order :: Lookup(AppsOf(d, g.id), uid) == Lookup(AppsOf(c, g.id), uid))
  }

  lemma WithStatusTwice(c: Cluster, id: Key, apps: map<string, AppStatus>, jobs: map<Key, Job>,
        more: map<string, AppStatus>)
    requires id in c.workbenches
    ensures WithStatus(WithStatus(c, id, apps).(jobs := jobs), id, more) == WithStatus(c, id, more).(jobs := jobs)
  {
  }

  /** The loop changes nothing but jobs and app entries. */
  lemma {:induction false} EffectsFrame(g: Goal, c: Cluster, order: seq<string>)
    requires g.id in c.workbenches && forall uid | uid in order :: uid in g.spec.apps
    ensures var d := Effects(g, c, order); d == WithStatus(c, g.id, AppsOf(d, g.id)).(jobs := d.jobs)
    decreases |order|
  {
    if order == [] {
      SameStatus(c, g.id);
    } else {
      var n := |order| - 1;
      var d := Effects(g, c, order[..n]);
      EffectsFrame(g, c, order[..n]);
      WithStatusTwice(c, g.id, AppsOf(d, g.id), d.jobs, NextApps(g, d, order[n]));
    }
  }

  lemma Snoc(order: seq<string>)
    requires order != [] && NoRepeats(order)
    ensures var n := |order| - 1;
      && NoRepeats(order[..n]) && order[n] !in order[..n]
      && forall uid :: uid in order <==> uid in order[..n] || uid == order[n]
  {
  }

  /** Nothing was done for `uid` yet, or another app that shares its job did it all. */
  predicate Ripe(g: Goal, c: Cluster, d: Cluster, uid: string)
    requires Builds(g, uid)
  {
    var k := KeyOf(g, uid);
    || Lookup(d.jobs, k) == Lookup(c.jobs, k)
    || (Lookup(d.jobs, k) == TargetJob(g, c, uid) && (Runs(g, uid) ==> k in c.jobs))
  }

  lemma Ripens(g: Goal, c: Cluster, d: Cluster, earlier: seq<string>, uid: string)
    requires OrderFree(g, c) && JobsWorked(g, c, d, earlier) && Builds(g, uid) && uid !in earlier
    ensures Ripe(g, c, d, uid)
  {
    if IsKey(g, earlier, KeyOf(g, uid)) {
      var u :| u in earlier && Builds(g, u) && KeyOf(g, u) == KeyOf(g, uid);
      assert Share(g, u, uid);
    }
  }

  /** The loop, whenever no order is better than another, stated for every job and every entry on its own. */
  lemma {:induction false} EffectsWorked(g: Goal, c: Cluster, order: seq<string>)
    requires g.id in c.workbenches && forall uid | uid in order :: uid in g.spec.apps
    requires OrderFree(g, c) && NoRepeats(order)
    ensures JobsWorked(g, c, Effects(g, c, order), order) && EntriesWorked(g, c, Effects(g, c, order), order)
    decreases |order|
  {
    if order != [] {
      var n := |order| - 1;
      var d := Effects(g, c, order[..n]);
      Snoc(order);
      EffectsWorked(g, c, order[..n]);
      if Builds(g, order[n]) {
        Ripens(g, c, d, order[..n], order[n]);
      }
      StepJobs(g, c, d, order);
      StepEntries(g, c, d, order);
    }
  }

  /** One effect on the jobs, at its own key and elsewhere. */
  lemma EffectJobs(g: Goal, c: Cluster, d: Cluster, uid: string)
    requires uid in g.spec.apps && (Builds(g, uid) ==> Ripe(g, c, d, uid))
    ensures var jobs := NextJobs(g, d.jobs, uid);
      && (Builds(g, uid) ==> Lookup(jobs, KeyOf(g, uid)) == TargetJob(g, c, uid))
      && forall k: Key | !(Builds(g, uid) && KeyOf(g, uid) == k) :: Lookup(jobs, k) == Lookup(d.jobs, k)
  {
  }

  /** One effect on the entries leaves those of the other uids alone. */
  lemma OtherEntries(g: Goal, d: Cluster, uid: string)
    requires g.id in d.workbenches && uid in g.spec.apps
    ensures forall u | u != uid :: Lookup(NextApps(g, d, uid), u) == Lookup(AppsOf(d, g.id), u)
  {
  }

  /** One effect on its own entry. */
  lemma OwnEntry(g: Goal, c: Cluster, d: Cluster, uid: string)
    requires g.id in c.workbenches && g.id in d.workbenches && uid in g.spec.apps
    requires Builds(g, uid) ==> Ripe(g, c, d, uid)
    requires Lookup(AppsOf(d, g.id), uid) == Lookup(AppsOf(c, g.id), uid)
    ensures Lookup(NextApps(g, d, uid), uid) == TargetEntry(g, c, uid)
  {
  }

  lemma StepJobs(g: Goal, c: Cluster, d: Cluster, order: seq<string>)
    requires g.id in d.workbenches && order != [] && NoRepeats(order)
    requires forall uid | uid in order :: uid in g.spec.apps
    requires OrderFree(g, c) && JobsWorked(g, c, d, order[..|order| - 1])
    requires var last := order[|order| - 1]; Builds(g, last) ==> Ripe(g, c, d, last)
    ensures JobsWorked(g, c, Effect(g, d, order[|order| - 1]), order)
  {
    var n := |order| - 1;
    var last, earlier := order[n], order[..n];
    var e := Effect(g, d, last);
    Snoc(order);
    EffectJobs(g, c, d, last);
    forall uid | uid in order && Builds(g, uid) ensures Lookup(e.jobs, KeyOf(g, uid)) == TargetJob(g, c, uid) {
      if uid != last {
        assert uid in earlier;
        SharedTarget(g, c, uid, last);
      }
    }
    forall k: Key | !IsKey(g, order, k) ensures Lookup(e.jobs, k) == Lookup(c.jobs, k) {
      assert !IsKey(g, earlier, k);
    }
  }

  lemma SharedTarget(g: Goal, c: Cluster, u: string, v: string)
    requires OrderFree(g, c)
    ensures Share(g, u, v) ==> TargetJob(g, c, u) == TargetJob(g, c, v)
  {
  }

  lemma StepEntries(g: Goal, c: Cluster, d: Cluster, order: seq<string>)
    requires g.id in c.workbenches && g.id in d.workbenches && order != []
    requires forall uid | uid in order :: uid in g.spec.apps
    requires NoRepeats(order)
    requires EntriesWorked(g, c, d, order[..|order| - 1])
    requires var last := order[|order| - 1]; Builds(g, last) ==> Ripe(g, c, d, last)
    ensures EntriesWorked(g, c, Effect(g, d, order[|order| - 1]), order)
  {
    Snoc(order);
    OtherEntries(g, d, order[|order| - 1]);
    OwnEntry(g, c, d, order[|order| - 1]);
  }
}
