/** What a ready pass makes of one app, by the state it is wanted in and the job it finds. */
module AppOutcomes {
  import opened Options
  import opened Objects
  import opened Api
  import opened StatusUpdates
  import opened StatusTables
  import opened Controller
  import opened Convergence
  import opened ClosedForm
  import opened FullPass
  import BuiltJobs
  import Jobs
  import Orders
  import Provisioning
  import Storage

  /** No other buildable app is after the same job. */
  ghost predicate Alone(g: Goal, uid: string) { forall v :: !Share(g, uid, v) }

  // ----------------------------------------------------------------- the loop

  /** The loop gives an app that is alone the job it is to have, whatever the other apps share. */
  lemma {:induction false} AloneJob(g: Goal, c: Cluster, order: seq<string>, uid: string)
    requires g.id in c.workbenches && (forall v | v in order :: v in g.spec.apps) && Builds(g, uid) && Alone(g, uid)
    ensures Lookup(Effects(g, c, order).jobs, KeyOf(g, uid)) ==
      if uid in order then TargetJob(g, c, uid) else Lookup(c.jobs, KeyOf(g, uid))
    decreases |order|
  {
    if order != [] {
      var n := |order| - 1;
      AloneJob(g, c, order[..n], uid);
      LastEffect(g, c, order);
      AloneStep(g, c, Effects(g, c, order[..n]).jobs, uid, order[n]);
      assert order == order[..n] + [order[n]];
    }
  }

  lemma AloneStep(g: Goal, c: Cluster, jobs: map<Key, Job>, uid: string, v: string)
    requires Builds(g, uid) && Alone(g, uid) && v in g.spec.apps
    requires Lookup(jobs, KeyOf(g, uid)) in {Lookup(c.jobs, KeyOf(g, uid)), TargetJob(g, c, uid)}
    ensures Lookup(NextJobs(g, jobs, v), KeyOf(g, uid)) ==
      if v == uid then TargetJob(g, c, uid) else Lookup(jobs, KeyOf(g, uid))
  {
    assert v != uid ==> !Share(g, uid, v);
  }

  /** A job that was there keeps its status through the loop. */
  lemma {:induction false} StatusStays(g: Goal, c: Cluster, order: seq<string>, k: Key)
    requires g.id in c.workbenches && k in c.jobs && forall v | v in order :: v in g.spec.apps
    ensures var jobs := Effects(g, c, order).jobs; k in jobs && jobs[k].status == c.jobs[k].status
    decreases |order|
  {
    if order != [] {
      var n := |order| - 1;
      StatusStays(g, c, order[..n], k);
      LastEffect(g, c, order);
      NextStatus(g, Effects(g, c, order[..n]).jobs, order[n], k);
    }
  }

  lemma NextStatus(g: Goal, jobs: map<Key, Job>, uid: string, k: Key)
    requires uid in g.spec.apps && k in jobs
    ensures var after := NextJobs(g, jobs, uid); k in after && after[k].status == jobs[k].status
  {
  }

  /** What the entry of an app is to say: failed if it cannot be built, else what its job says, else what it said. */
  ghost predicate EntryIs(g: Goal, c: Cluster, d: Cluster, uid: string)
    requires g.id in c.workbenches && g.id in d.workbenches && uid in g.spec.apps
  {
    var was, got := Lookup(AppsOf(c, g.id), uid), Lookup(AppsOf(d, g.id), uid);
    if !Builds(g, uid) then got == Some(AppStatus(if was.Some? then was.value.revision else -1, AppPhase.Failed))
    else if KeyOf(g, uid) in c.jobs then
      && got.Some? && Reflects(got.value.status, c.jobs[KeyOf(g, uid)].status)
      && got.value.revision == (if was.Some? then was.value.revision else 0)
    else got == was
  }

  lemma OwnStep(g: Goal, c: Cluster, d: Cluster, uid: string)
    requires g.id in c.workbenches && g.id in d.workbenches && uid in g.spec.apps
    requires Lookup(AppsOf(d, g.id), uid) == Lookup(AppsOf(c, g.id), uid)
    requires Builds(g, uid) ==>
      (KeyOf(g, uid) in d.jobs <==> KeyOf(g, uid) in c.jobs)
      && (KeyOf(g, uid) in c.jobs ==> d.jobs[KeyOf(g, uid)].status == c.jobs[KeyOf(g, uid)].status)
    ensures EntryIs(g, c, Effect(g, d, uid), uid)
  {
    if !Builds(g, uid) {
      FailureEntry(AppsOf(d, g.id), uid);
    } else if KeyOf(g, uid) in d.jobs {
      JobEntry(AppsOf(d, g.id), g.spec, uid, d.jobs[KeyOf(g, uid)]);
    }
  }

  lemma OtherStep(g: Goal, d: Cluster, v: string, uid: string)
    requires g.id in d.workbenches && v in g.spec.apps && v != uid
    ensures Lookup(AppsOf(Effect(g, d, v), g.id), uid) == Lookup(AppsOf(d, g.id), uid)
  {
    OtherEntries(g, d, v);
  }

  /** The loop writes the entry of an app, at its own turn, unless a sharing app creates the job before. */
  lemma {:induction false} LoopEntry(g: Goal, c: Cluster, order: seq<string>, uid: string)
    requires g.id in c.workbenches && NoRepeats(order) && (forall v | v in order :: v in g.spec.apps)
    requires uid in g.spec.apps && (Builds(g, uid) ==> Alone(g, uid) || KeyOf(g, uid) in c.jobs)
    ensures var d := Effects(g, c, order);
      if uid in order then EntryIs(g, c, d, uid) else Lookup(AppsOf(d, g.id), uid) == Lookup(AppsOf(c, g.id), uid)
    decreases |order|
  {
    if order != [] {
      var n := |order| - 1;
      var d := Effects(g, c, order[..n]);
      Snoc(order);
      LoopEntry(g, c, order[..n], uid);
      if order[n] == uid {
        if Builds(g, uid) {
          if KeyOf(g, uid) in c.jobs {
            StatusStays(g, c, order[..n], KeyOf(g, uid));
          } else {
            AloneJob(g, c, order[..n], uid);
          }
        }
        OwnStep(g, c, d, uid);
      } else {
        OtherStep(g, d, order[n], uid);
      }
    }
  }

  // --------------------------------------------------------------- the phase

  lemma PhaseOutcome(p: Pass, g: Goal, choice: Choice, uid: string)
    requires Pursues(p, g) && ServerReady(p.mem) && choice.images == g.images && TakesOrders(p, g.config, choice)
    requires uid in g.spec.apps
    ensures var e := Applications(p, g.config, choice).w.cluster;
      && g.id in e.workbenches
      && (Builds(g, uid) && Alone(g, uid) ==> Lookup(e.jobs, KeyOf(g, uid)) == TargetJob(g, p.w.cluster, uid))
      && ((Builds(g, uid) ==> Alone(g, uid) || KeyOf(g, uid) in p.w.cluster.jobs) ==> EntryIs(g, p.w.cluster, e, uid))
  {
    QuietAppLoop(p, g, choice.apps);
    var a := AppLoop(Apps(p, []), g.config, g.images, choice.apps);
    QuietSweep(a.p, a.found, choice.jobs);
    if Builds(g, uid) && Alone(g, uid) {
      AloneJob(g, p.w.cluster, choice.apps, uid);
      if KeyOf(g, uid) in a.p.w.cluster.jobs {
        Orders.AppJobStays(p, g, choice, uid);
      }
    }
    if Builds(g, uid) ==> Alone(g, uid) || KeyOf(g, uid) in p.w.cluster.jobs {
      LoopEntry(g, p.w.cluster, choice.apps, uid);
    }
  }

  // ------------------------------------------------------------ whole passes

  /** No other app of the spec that can be built has a job of this name. */
  ghost predicate OwnJob(spec: Spec, images: Jobs.Images, id: Key, uid: string)
    requires uid in spec.apps
  {
    forall v | v in spec.apps && v != uid && Jobs.Buildable(images, spec.apps[v]) ::
      Jobs.JobKey(id, v, spec.apps[v]) != Jobs.JobKey(id, uid, spec.apps[uid])
  }

  /** From the jobs `before` to the jobs `after`, at the key of an app of this state. */
  ghost predicate Obeys(state: AppState, before: map<Key, Job>, after: map<Key, Job>, k: Key) {
    match state
    case Stopped =>
      if k in before then k in after && after[k] == before[k].(suspend := Some(true)) else k !in after
    case Killed =>
      if k in before then k in after && after[k] == before[k].(suspend := Some(true)) else k !in after
    case Running =>
      k in after && after[k].suspend == Some(false) && (k in before ==> after[k] == before[k].(suspend := Some(false)))
    case Unset =>
      k in after && after[k].suspend == Some(false) && (k in before ==> after[k] == before[k].(suspend := Some(false)))
  }

  lemma AtGate(w: World, id: Key, config: Config, choice: Choice, uid: string)
    requires Quiet(w) && id in w.cluster.workbenches && !w.cluster.workbenches[id].deleting
    requires uid in w.cluster.workbenches[id].spec.apps
    ensures ReadyPass(w, id, config, choice) ==>
      var g := GoalOf(w.cluster, id, config, choice.images);
      var b, e := Before(w, id, config, choice.now).w.cluster, Reconcile(w, id, config, choice).w.cluster;
      && id in b.workbenches && id in e.workbenches
      && b.jobs == Supplied(w.cluster, id, config).jobs && AppsOf(b, id) == AppsOf(w.cluster, id)
      && (Builds(g, uid) && Alone(g, uid) ==> Lookup(e.jobs, KeyOf(g, uid)) == TargetJob(g, b, uid))
      && ((Builds(g, uid) ==> Alone(g, uid) || KeyOf(g, uid) in b.jobs) ==> EntryIs(g, b, e, uid))
  {
    hide EntryIs, TargetJob, Alone;
    if ReadyPass(w, id, config, choice) {
      var b, g := Before(w, id, config, choice.now), GoalOf(w.cluster, id, config, choice.images);
      QuietBefore(w, id, config, choice.now);
      GoalAtGate(w, id, config, choice.images, choice.now);
      PassIsApplications(w, id, config, choice);
      PhaseOutcome(b, g, choice, uid);
    }
  }

  /** The wanted state decides: after an undisturbed pass behind a ready server, the job of a buildable app that
      shares it with no other is suspended or absent if the app is stopped or killed, and there to run otherwise. */
  lemma StateDecides(w: World, id: Key, config: Config, choice: Choice, uid: string)
    requires Quiet(w) && id in w.cluster.workbenches && !w.cluster.workbenches[id].deleting
    requires var spec := w.cluster.workbenches[id].spec;
      uid in spec.apps && Jobs.Buildable(choice.images, spec.apps[uid]) && OwnJob(spec, choice.images, id, uid)
    ensures ReadyPass(w, id, config, choice) ==>
      var app := w.cluster.workbenches[id].spec.apps[uid];
      Obeys(app.state, Supplied(w.cluster, id, config).jobs, Reconcile(w, id, config, choice).w.cluster.jobs,
            Jobs.JobKey(id, uid, app))
  {
    var g := GoalOf(w.cluster, id, config, choice.images);
    AtGate(w, id, config, choice, uid);
    if ReadyPass(w, id, config, choice) {
      var b, e := Before(w, id, config, choice.now).w.cluster, Reconcile(w, id, config, choice).w.cluster;
      TargetObeys(g, b, uid, e.jobs);
    }
  }

  lemma TargetObeys(g: Goal, c: Cluster, uid: string, after: map<Key, Job>)
    requires Builds(g, uid)
    ensures Lookup(after, KeyOf(g, uid)) == TargetJob(g, c, uid) ==>
      Obeys(g.spec.apps[uid].state, c.jobs, after, KeyOf(g, uid))
  {
  }

  /** The job that such a pass creates has the content of an app's job over the providers with a usable secret. */
  lemma CreatedContent(w: World, id: Key, config: Config, choice: Choice, uid: string)
    requires Quiet(w) && id in w.cluster.workbenches && !w.cluster.workbenches[id].deleting
    requires var spec := w.cluster.workbenches[id].spec;
      uid in spec.apps && Jobs.Buildable(choice.images, spec.apps[uid]) && OwnJob(spec, choice.images, id, uid)
    ensures ReadyPass(w, id, config, choice) ==>
      var c, spec, e := w.cluster, w.cluster.workbenches[id].spec, Reconcile(w, id, config, choice).w.cluster;
      var k := Jobs.JobKey(id, uid, spec.apps[uid]);
      k !in Supplied(c, id, config).jobs && k in e.jobs ==>
        BuiltJobs.JobOfApp(e.jobs[k], id, config, spec, spec.apps[uid],
                           Provisioning.Usable(c, config, Storage.EnabledProviders(config, spec)))
  {
    var g := GoalOf(w.cluster, id, config, choice.images);
    AtGate(w, id, config, choice, uid);
    if ReadyPass(w, id, config, choice) {
      BuiltJobs.Content(id, config, g.spec, g.spec.apps[uid], g.active);
    }
  }

  /** The entry of an app after such a pass. An app that cannot be built is Failed. One whose job was there is
      Running exactly if the job is active and ready, Progressing exactly if active and not ready, Complete exactly
      if inactive with a success, and Failed otherwise. One without a job, and that shares none, is left alone. */
  lemma EntryDecides(w: World, id: Key, config: Config, choice: Choice, uid: string)
    requires Quiet(w) && id in w.cluster.workbenches && !w.cluster.workbenches[id].deleting
    requires uid in w.cluster.workbenches[id].spec.apps
    ensures ReadyPass(w, id, config, choice) ==>
      var spec, e := w.cluster.workbenches[id].spec, Reconcile(w, id, config, choice).w.cluster;
      var k, jobs := Jobs.JobKey(id, uid, spec.apps[uid]), Supplied(w.cluster, id, config).jobs;
      && id in e.workbenches
      && var was, got := Lookup(AppsOf(w.cluster, id), uid), Lookup(AppsOf(e, id), uid);
      && (!Jobs.Buildable(choice.images, spec.apps[uid]) ==>
            got == Some(AppStatus(if was.Some? then was.value.revision else -1, AppPhase.Failed)))
      && (Jobs.Buildable(choice.images, spec.apps[uid]) && k in jobs ==>
            && got.Some? && Reflects(got.value.status, jobs[k].status)
            && got.value.revision == (if was.Some? then was.value.revision else 0))
      && (Jobs.Buildable(choice.images, spec.apps[uid]) && k !in jobs && OwnJob(spec, choice.images, id, uid) ==>
           got == was)
  {
    hide Reconcile, Supplied, ReadyPass;
    AtGate(w, id, config, choice, uid);
    var g := GoalOf(w.cluster, id, config, choice.images);
    OwnJobAlone(w.cluster, id, config, choice.images, uid);
  }

  lemma OwnJobAlone(c: Cluster, id: Key, config: Config, images: Jobs.Images, uid: string)
    requires id in c.workbenches && uid in c.workbenches[id].spec.apps
    ensures OwnJob(c.workbenches[id].spec, images, id, uid) ==> Alone(GoalOf(c, id, config, images), uid)
  {
  }
}
