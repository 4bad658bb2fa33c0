/** The iteration orders: exactly when they show in the end of a pass. */
module Orders {
  import opened Options
  import opened Objects
  import opened Api
  import opened StatusUpdates
  import opened Controller
  import opened Convergence
  import opened ClosedForm
  import opened FullPass
  import Jobs

  /** Whatever the orders, the application phase leaves the same cluster. */
  ghost predicate OneEnd(p: Pass, config: Config, images: Jobs.Images) {
    forall one: Choice, two: Choice | one.images == two.images == images &&
      TakesOrders(p, config, one) && TakesOrders(p, config, two) ::
      Applications(p, config, one).w.cluster == Applications(p, config, two).w.cluster
  }

  // --------------------------------------------------- orders to compare

  /** Any order of the apps can be taken, at any time. */
  lemma ChoiceOf(p: Pass, config: Config, images: Jobs.Images, now: int, apps: seq<string>) returns (choice: Choice)
    requires Enumerates(apps, p.mem.now.spec.apps.Keys)
    ensures TakesOrders(p, config, choice) && choice.apps == apps && choice.images == images && choice.now == now
  {
    var a := AppLoop(Apps(p, []), config, images, apps);
    var jobs := SomeOrder(ListedJobs(Snapshot(a.p.w), p.mem.id.name));
    choice := Choice(apps, jobs, images, now);
  }

  lemma UidFirst(keys: set<string>, u: string) returns (order: seq<string>)
    requires u in keys
    ensures Enumerates(order, keys) && order != [] && order[0] == u
  {
    var rest := SomeOrder(keys - {u});
    Extended([u], {u}, rest, keys - {u});
    assert {u} + (keys - {u}) == keys;
    order := [u] + rest;
  }

  lemma UidsLast(keys: set<string>, u: string, v: string) returns (order: seq<string>)
    requires u in keys && v in keys && u != v
    ensures Enumerates(order, keys) && |order| >= 2 && order[|order| - 2] == u && order[|order| - 1] == v
  {
    var rest := SomeOrder(keys - {u, v});
    Extended(rest, keys - {u, v}, [u, v], {u, v});
    assert keys - {u, v} + {u, v} == keys;
    order := rest + [u, v];
  }

  // ------------------------------------------------- what an order decides

  lemma NextPod(g: Goal, jobs: map<Key, Job>, uid: string, k: Key)
    requires uid in g.spec.apps && k in jobs
    ensures var after := NextJobs(g, jobs, uid); k in after && after[k].pod == jobs[k].pod
  {
  }

  /** The app that creates a shared job gives its pod for good. */
  lemma {:induction false} CreatorDecides(g: Goal, c: Cluster, order: seq<string>)
    requires g.id in c.workbenches && order != [] && forall uid | uid in order :: uid in g.spec.apps
    requires Builds(g, order[0]) && Runs(g, order[0]) && KeyOf(g, order[0]) !in c.jobs
    ensures var k, jobs := KeyOf(g, order[0]), Effects(g, c, order).jobs;
      k in jobs && jobs[k].pod == JobOf(g, order[0]).pod
    decreases |order|
  {
    var n := |order| - 1;
    if n == 0 {
      assert Effects(g, c, order[..n]) == c;
    } else {
      CreatorDecides(g, c, order[..n]);
      NextPod(g, Effects(g, c, order[..n]).jobs, order[n], KeyOf(g, order[0]));
    }
  }

  /** Whoever follows the creator finds a job that has not started, and is marked Failed. */
  lemma FollowerFails(g: Goal, c: Cluster, u: string, v: string)
    requires g.id in c.workbenches && Share(g, u, v) && Runs(g, u) && KeyOf(g, u) !in c.jobs
    ensures var apps := AppsOf(Effect(g, Effect(g, c, u), v), g.id); v in apps && apps[v].status.Failed?
  {
    var d := Effect(g, c, u);
    assert d.jobs[KeyOf(g, v)] == JobOf(g, u);
    JobFlag(AppsOf(d, g.id), g.spec, v, JobOf(g, u));
  }

  lemma SetsSuspension(g: Goal, jobs: map<Key, Job>, uid: string)
    requires Builds(g, uid) && (Runs(g, uid) || KeyOf(g, uid) in jobs)
    ensures var after, k := NextJobs(g, jobs, uid), KeyOf(g, uid); k in after && after[k].suspend == Some(!Runs(g, uid))
  {
  }

  lemma RunnerMet(g: Goal, c: Cluster, order: seq<string>)
    requires g.id in c.workbenches && order != [] && forall uid | uid in order :: uid in g.spec.apps
    requires var last := order[|order| - 1]; Builds(g, last) && Runs(g, last)
    ensures KeyOf(g, order[|order| - 1]) in Effects(g, c, order).jobs
  {
    var n := |order| - 1;
    LastEffect(g, c, order);
    SetsSuspension(g, Effects(g, c, order[..n]).jobs, order[n]);
  }

  /** The app met last decides whether a shared job is suspended. */
  lemma LastDecides(g: Goal, c: Cluster, order: seq<string>)
    requires g.id in c.workbenches && |order| >= 2 && forall uid | uid in order :: uid in g.spec.apps
    requires var u, v := order[|order| - 2], order[|order| - 1]; Share(g, u, v) && (Runs(g, u) || Runs(g, v))
    ensures var last, jobs := order[|order| - 1], Effects(g, c, order).jobs;
      KeyOf(g, last) in jobs && jobs[KeyOf(g, last)].suspend == Some(!Runs(g, last))
  {
    var n := |order| - 1;
    if Runs(g, order[n - 1]) {
      RunnerMet(g, c, order[..n]);
    }
    LastEffect(g, c, order);
    SetsSuspension(g, Effects(g, c, order[..n]).jobs, order[n]);
  }

  /** The sweep leaves the jobs of the apps alone. */
  lemma AppJobStays(p: Pass, g: Goal, choice: Choice, uid: string)
    requires Pursues(p, g) && ServerReady(p.mem) && choice.images == g.images && TakesOrders(p, g.config, choice)
    requires Builds(g, uid) && KeyOf(g, uid) in Effects(g, p.w.cluster, choice.apps).jobs
    ensures Lookup(Applications(p, g.config, choice).w.cluster.jobs, KeyOf(g, uid)) ==
      Lookup(Effects(g, p.w.cluster, choice.apps).jobs, KeyOf(g, uid))
  {
    QuietAppLoop(p, g, choice.apps);
    var a := AppLoop(Apps(p, []), g.config, g.images, choice.apps);
    QuietSweep(a.p, a.found, choice.jobs);
    FoundNames(g, p.w.cluster, choice.apps, KeyOf(g, uid).name);
    assert Present(g, a.p.w.cluster, choice.apps, KeyOf(g, uid).name);
  }

  /** Two apps that disagree about a job: the one met last wins. */
  lemma Disagreement(p: Pass, g: Goal, u: string, v: string)
    requires Pursues(p, g) && ServerReady(p.mem) && Share(g, u, v) && Runs(g, u) != Runs(g, v)
    ensures !OneEnd(p, g.config, g.images)
  {
    var first := UidsLast(g.spec.apps.Keys, u, v);
    var second := UidsLast(g.spec.apps.Keys, v, u);
    var one := ChoiceOf(p, g.config, g.images, 0, first);
    var two := ChoiceOf(p, g.config, g.images, 0, second);
    LastDecides(g, p.w.cluster, first);
    LastDecides(g, p.w.cluster, second);
    AppJobStays(p, g, one, v);
    AppJobStays(p, g, two, u);
  }

  /** Two apps that would both create a job: the one met first does. */
  lemma Rivalry(p: Pass, g: Goal, u: string, v: string)
    requires Pursues(p, g) && ServerReady(p.mem) && Share(g, u, v) && Runs(g, u) && Runs(g, v)
    requires KeyOf(g, u) !in p.w.cluster.jobs
    ensures !OneEnd(p, g.config, g.images)
  {
    var first := UidFirst(g.spec.apps.Keys, u);
    var second := UidFirst(g.spec.apps.Keys, v);
    var one := ChoiceOf(p, g.config, g.images, 0, first);
    var two := ChoiceOf(p, g.config, g.images, 0, second);
    CreatorDecides(g, p.w.cluster, first);
    CreatorDecides(g, p.w.cluster, second);
    AppJobStays(p, g, one, u);
    AppJobStays(p, g, two, v);
    SharersDiffer(g, u, v);
  }

  /** Order independence, exactly: all orders of the app map and of the listing leave the same cluster if and
      only if apps that share a job key agree on running and, if they run, find the job there. */
  lemma OrderIndependence(p: Pass, g: Goal)
    requires Pursues(p, g) && ServerReady(p.mem)
    ensures OneEnd(p, g.config, g.images) <==> OrderFree(g, p.w.cluster)
  {
    if OrderFree(g, p.w.cluster) {
      forall one: Choice, two: Choice | one.images == two.images == g.images &&
        TakesOrders(p, g.config, one) && TakesOrders(p, g.config, two)
        ensures Applications(p, g.config, one).w.cluster == Applications(p, g.config, two).w.cluster
      {
        Converges(p, g, one);
        Converges(p, g, two);
        ClosedUnique(g, p.w.cluster, Applications(p, g.config, one).w.cluster,
          Applications(p, g.config, two).w.cluster);
      }
    } else if !Agreed(g) {
      var u, v :| Share(g, u, v) && Runs(g, u) != Runs(g, v);
      Disagreement(p, g, u, v);
    } else {
      var u, v :| Share(g, u, v) && Runs(g, u) && KeyOf(g, u) !in p.w.cluster.jobs;
      Rivalry(p, g, u, v);
    }
  }

  // ---------------------------------------------------------- whole passes

  /** Whatever the orders, an undisturbed pass that gets through the gate leaves the same cluster. */
  ghost predicate PassOneEnd(w: World, id: Key, config: Config, images: Jobs.Images, now: int)
    requires id in Snapshot(w).workbenches
  {
    forall one: Choice, two: Choice | one.images == two.images == images && one.now == two.now == now &&
      ReadyPass(w, id, config, one) && ReadyPass(w, id, config, two) ::
      Reconcile(w, id, config, one).w.cluster == Reconcile(w, id, config, two).w.cluster
  }

  /** The time of day does not matter behind the gate. */
  lemma AtTime(w: World, id: Key, config: Config, choice: Choice, now: int)
    requires Quiet(w) && id in w.cluster.workbenches && !w.cluster.workbenches[id].deleting
    ensures var b, later := Before(w, id, config, now), choice.(now := now);
      b.end.None? && ServerReady(b.mem) && TakesOrders(b, config, choice) ==>
        ReadyPass(w, id, config, later) && Reconcile(w, id, config, later).w == Applications(b, config, choice).w
  {
    PassIsApplications(w, id, config, choice.(now := now));
  }

  /** Order independence of a whole pass, exactly, as a condition on the cluster it starts from. */
  lemma PassOrderIndependence(w: World, id: Key, config: Config, images: Jobs.Images, now: int)
    requires Quiet(w) && id in w.cluster.workbenches && !w.cluster.workbenches[id].deleting
    ensures var b := Before(w, id, config, now);
      b.end.None? && ServerReady(b.mem) ==>
        (PassOneEnd(w, id, config, images, now) <==>
         OrderFree(GoalOf(w.cluster, id, config, images), Supplied(w.cluster, id, config)))
  {
    var b, g := Before(w, id, config, now), GoalOf(w.cluster, id, config, images);
    if b.end.None? && ServerReady(b.mem) {
      GoalAtGate(w, id, config, images, now);
      OrderIndependence(b, g);
      PassesEnd(w, id, config, images, now);
    }
  }

  /** At the gate, the ends of the pass are those of its application phase. */
  lemma PassesEnd(w: World, id: Key, config: Config, images: Jobs.Images, now: int)
    requires Quiet(w) && id in w.cluster.workbenches && !w.cluster.workbenches[id].deleting
    ensures var b := Before(w, id, config, now);
      b.end.None? && ServerReady(b.mem) ==> (PassOneEnd(w, id, config, images, now) <==> OneEnd(b, config, images))
  {
    var b := Before(w, id, config, now);
    if b.end.Some? || !ServerReady(b.mem) {
    } else if OneEnd(b, config, images) {
      forall one: Choice, two: Choice | one.images == two.images == images && one.now == two.now == now &&
        ReadyPass(w, id, config, one) && ReadyPass(w, id, config, two)
        ensures Reconcile(w, id, config, one).w.cluster == Reconcile(w, id, config, two).w.cluster
      {
        PassIsApplications(w, id, config, one);
        PassIsApplications(w, id, config, two);
      }
    } else {
      var x: Choice, y: Choice :| x.images == y.images == images &&
        TakesOrders(b, config, x) && TakesOrders(b, config, y) &&
        Applications(b, config, x).w.cluster != Applications(b, config, y).w.cluster;
      AtTime(w, id, config, x, now);
      AtTime(w, id, config, y, now);
    }
  }
}
