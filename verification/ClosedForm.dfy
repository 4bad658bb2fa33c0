/** The end of an undisturbed application phase: a closed form of the cluster it started from. */
module ClosedForm {
  import opened Options
  import opened Objects
  import opened Api
  import opened Controller
  import opened Convergence

  // ------------------------------------------------------------------ sweep

  /** The listed keys among `order` that the sweep deletes. */
  function Extra(order: seq<Key>, listed: set<Key>, found: seq<string>): set<Key> {
    set k | k in order && k in listed && k.name !in found
  }

  predicate Deletes(listed: set<Key>, found: seq<string>, key: Key) { key in listed && key.name !in found }

  lemma QuietSweepStep(p: Pass, found: seq<string>, listed: set<Key>, key: Key)
    requires Calm(p) && (Deletes(listed, found, key) ==> key in p.w.cluster.jobs)
    ensures var q := SweepStep(p, found, listed, key);
      && Calm(q) && q.mem == p.mem
      && q.w.cluster == p.w.cluster.(jobs := p.w.cluster.jobs - if Deletes(listed, found, key) then {key} else {})
  {
  }

  lemma ExtraSnoc(order: seq<Key>, listed: set<Key>, found: seq<string>)
    requires order != [] && NoRepeats(order)
    ensures var n := |order| - 1;
      && Extra(order, listed, found) ==
        Extra(order[..n], listed, found) + (if Deletes(listed, found, order[n]) then {order[n]} else {})
      && order[n] !in Extra(order[..n], listed, found)
  {
  }

  lemma {:induction false} QuietSweepLoop(p: Pass, found: seq<string>, listed: set<Key>, order: seq<Key>)
    requires Calm(p) && NoRepeats(order) && listed <= p.w.cluster.jobs.Keys
    ensures var q := SweepLoop(p, found, listed, order);
      && Calm(q) && q.mem == p.mem
      && q.w.cluster == p.w.cluster.(jobs := p.w.cluster.jobs - Extra(order, listed, found))
    decreases |order|
  {
    var jobs := p.w.cluster.jobs;
    if order == [] {
      assert jobs - {} == jobs;
    } else {
      var n := |order| - 1;
      QuietSweepLoop(p, found, listed, order[..n]);
      ExtraSnoc(order, listed, found);
      var q := SweepLoop(p, found, listed, order[..n]);
      QuietSweepStep(q, found, listed, order[n]);
      var last := if Deletes(listed, found, order[n]) then {order[n]} else {};
      assert jobs - Extra(order[..n], listed, found) - last == jobs - Extra(order, listed, found);
    }
  }

  // ------------------------------------------------------------ closed form

  /** `k` is the job key of a buildable app of the spec. */
  predicate IsAppKey(g: Goal, k: Key) {
    exists uid | uid in g.spec.apps :: Builds(g, uid) && KeyOf(g, uid) == k
  }

  /** Some buildable app ends up with a job of this name. */
  predicate KeptName(g: Goal, c: Cluster, name: string) {
    exists uid | uid in g.spec.apps :: Builds(g, uid) && TargetJob(g, c, uid).Some? && KeyOf(g, uid).name == name
  }

  /** What becomes of a job that belongs to no buildable app: if it carries the label, in whatever namespace,
      it stays only under a name that some app keeps. */
  function TargetOther(g: Goal, c: Cluster, k: Key): Option<Job> {
    if k in c.jobs && Labelled(c.jobs[k].labels, g.id.name) && !KeptName(g, c, k.name) then None
    else Lookup(c.jobs, k)
  }

  /** The closed form: `e` is where an undisturbed application phase takes `c`. */
  ghost predicate Closed(g: Goal, c: Cluster, e: Cluster)
    requires g.id in c.workbenches
  {
    && g.id in e.workbenches && e == WithStatus(c, g.id, AppsOf(e, g.id)).(jobs := e.jobs)
    && (forall uid | uid in g.spec.apps && Builds(g, uid) :: Lookup(e.jobs, KeyOf(g, uid)) == TargetJob(g, c, uid))
    && (forall k: Key | !IsAppKey(g, k) :: Lookup(e.jobs, k) == TargetOther(g, c, k))
    && (forall uid | uid in g.spec.apps :: Lookup(AppsOf(e, g.id), uid) == TargetEntry(g, c, uid))
    && (forall uid | uid !in g.spec.apps :: Lookup(AppsOf(e, g.id), uid) == Lookup(AppsOf(c, g.id), uid))
  }

  lemma SameLookups<K(!new), V>(m: map<K, V>, n: map<K, V>)
    requires forall k :: Lookup(m, k) == Lookup(n, k)
    ensures m == n
  {
    assert forall k :: (k in m) == Lookup(m, k).Some? == Lookup(n, k).Some? == (k in n);
    assert forall k | k in m :: Some(m[k]) == Lookup(m, k) == Lookup(n, k) == Some(n[k]);
  }

  /** The closed form leaves nothing open. */
  lemma ClosedUnique(g: Goal, c: Cluster, d: Cluster, e: Cluster)
    requires g.id in c.workbenches && Closed(g, c, d) && Closed(g, c, e)
    ensures d == e
  {
    forall k: Key ensures Lookup(d.jobs, k) == Lookup(e.jobs, k) {
      if IsAppKey(g, k) {
        var uid :| uid in g.spec.apps && Builds(g, uid) && KeyOf(g, uid) == k;
      }
    }
    SameLookups(d.jobs, e.jobs);
    forall uid: string ensures Lookup(AppsOf(d, g.id), uid) == Lookup(AppsOf(e, g.id), uid) {
      if uid in g.spec.apps {
        assert Lookup(AppsOf(d, g.id), uid) == TargetEntry(g, c, uid);
      }
    }
    SameLookups(AppsOf(d, g.id), AppsOf(e, g.id));
  }

  /** An app of `order` whose job, of this name, is there. */
  predicate Present(g: Goal, d: Cluster, order: seq<string>, name: string) {
    exists uid | uid in order :: Builds(g, uid) && KeyOf(g, uid).name == name && KeyOf(g, uid) in d.jobs
  }

  lemma PresentStep(g: Goal, d: Cluster, order: seq<string>, name: string)
    requires g.id in d.workbenches && order != [] && forall uid | uid in order :: uid in g.spec.apps
    ensures var n := |order| - 1;
      var last := order[n];
      Present(g, Effect(g, d, last), order, name) <==>
        Present(g, d, order[..n], name)
          || (Builds(g, last) && TargetJob(g, d, last).Some? && KeyOf(g, last).name == name)
  {
    var n := |order| - 1;
    var e := Effect(g, d, order[n]);
    assert order == order[..n] + [order[n]];
    assert forall k: Key :: k in e.jobs <==>
      k in d.jobs || (Builds(g, order[n]) && TargetJob(g, d, order[n]).Some? && k == KeyOf(g, order[n]));
  }

  /** The names found by the loop are those of the apps whose job is there after it, whatever the apps share. */
  lemma {:induction false} FoundNames(g: Goal, c: Cluster, order: seq<string>, name: string)
    requires g.id in c.workbenches && forall uid | uid in order :: uid in g.spec.apps
    ensures name in Found(g, c, order) <==> Present(g, Effects(g, c, order), order, name)
    decreases |order|
  {
    if order != [] {
      var n := |order| - 1;
      FoundNames(g, c, order[..n], name);
      PresentStep(g, Effects(g, c, order[..n]), order, name);
    }
  }

  /** The jobs once the loop and then the sweep are done. */
  lemma SweptJobs(g: Goal, c: Cluster, d: Cluster, found: seq<string>, k: Key)
    requires g.id in c.workbenches
    requires forall uid | uid in g.spec.apps && Builds(g, uid) :: Lookup(d.jobs, KeyOf(g, uid)) == TargetJob(g, c, uid)
    requires forall k: Key | !IsAppKey(g, k) :: Lookup(d.jobs, k) == Lookup(c.jobs, k)
    requires forall name :: name in found <==> KeptName(g, c, name)
    ensures var jobs := d.jobs - (set j | j in ListedJobs(d, g.id.name) && j.name !in found);
      && (!IsAppKey(g, k) ==> Lookup(jobs, k) == TargetOther(g, c, k))
      && (forall uid | uid in g.spec.apps && Builds(g, uid) && KeyOf(g, uid) == k ::
           Lookup(jobs, k) == TargetJob(g, c, uid))
  {
  }

  /** The undisturbed sweep deletes the listed jobs that were not found. */
  lemma QuietSweep(p: Pass, found: seq<string>, order: seq<Key>)
    requires Calm(p) && Enumerates(order, ListedJobs(p.w.cluster, p.mem.id.name))
    ensures var q, c := Sweep(p, found, order), p.w.cluster;
      && Calm(q) && q.mem == p.mem
      && q.w.cluster == c.(jobs := c.jobs - (set j | j in ListedJobs(c, p.mem.id.name) && j.name !in found))
  {
    var list, listed := ListJobs(p.mem.id.name), ListedJobs(p.w.cluster, p.mem.id.name);
    QuietCall(p.w, list);
    QuietSweepLoop(p.(w := After(p.w, list)), found, listed, order);
    assert Extra(order, listed, found) == set j | j in listed && j.name !in found;
  }

  /** From the loop and the sweep, each described on its own, to the closed form. */
  lemma Assemble(g: Goal, c: Cluster, d: Cluster, e: Cluster, order: seq<string>, found: seq<string>)
    requires g.id in c.workbenches && Enumerates(order, g.spec.apps.Keys) && OrderFree(g, c)
    requires d == Effects(g, c, order) && found == Found(g, c, order)
    requires e == d.(jobs := d.jobs - (set j | j in ListedJobs(d, g.id.name) && j.name !in found))
    ensures Closed(g, c, e)
  {
    EffectsFrame(g, c, order);
    EffectsWorked(g, c, order);
    forall name ensures name in found <==> KeptName(g, c, name) {
      FoundNames(g, c, order, name);
    }
    forall k: Key | !IsAppKey(g, k) ensures Lookup(d.jobs, k) == Lookup(c.jobs, k) {
      assert !IsKey(g, order, k);
    }
    forall k: Key
      ensures !IsAppKey(g, k) ==> Lookup(e.jobs, k) == TargetOther(g, c, k)
      ensures forall uid | uid in g.spec.apps && Builds(g, uid) && KeyOf(g, uid) == k ::
        Lookup(e.jobs, k) == TargetJob(g, c, uid)
    {
      SweptJobs(g, c, d, found, k);
    }
    assert AppsOf(e, g.id) == AppsOf(d, g.id);
  }

  /** Apps that share a job and disagree, or would both create it, cannot all have the job the form gives them. */
  lemma ClosedOrderFree(g: Goal, c: Cluster, e: Cluster)
    requires g.id in c.workbenches && Closed(g, c, e)
    ensures OrderFree(g, c)
  {
    forall u, v | Share(g, u, v)
      ensures Runs(g, u) == Runs(g, v) && (Runs(g, u) ==> KeyOf(g, u) in c.jobs)
    {
      assert TargetJob(g, c, u) == Lookup(e.jobs, KeyOf(g, u)) == TargetJob(g, c, v);
      SharersDiffer(g, u, v);
    }
  }

  /** Convergence: with a ready server an undisturbed application phase succeeds, and it ends in the closed form
      if and only if no apps that share a job make the order matter. */
  lemma Converges(p: Pass, g: Goal, choice: Choice)
    requires Pursues(p, g) && ServerReady(p.mem) && choice.images == g.images && TakesOrders(p, g.config, choice)
    ensures var q := Applications(p, g.config, choice);
      Calm(q) && q.mem.id == g.id && (Closed(g, p.w.cluster, q.w.cluster) <==> OrderFree(g, p.w.cluster))
  {
    QuietAppLoop(p, g, choice.apps);
    var a := AppLoop(Apps(p, []), g.config, g.images, choice.apps);
    QuietSweep(a.p, a.found, choice.jobs);
    var e := Applications(p, g.config, choice).w.cluster;
    if OrderFree(g, p.w.cluster) {
      Assemble(g, p.w.cluster, a.p.w.cluster, e, choice.apps, a.found);
    }
    if Closed(g, p.w.cluster, e) {
      ClosedOrderFree(g, p.w.cluster, e);
    }
  }
}
