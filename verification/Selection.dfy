/** Which pods the readiness gate looks at, and what the gate therefore means for whole passes. */
module Selection {
  import opened Options
  import opened Objects
  import opened Api
  import opened StatusUpdates
  import opened Controller
  import opened FullPass
  import Gate
  import Traces

  /** `pod` is in the namespace and carries every label of the selector with its value. */
  predicate Selected(pod: Pod, ns: string, selector: Labels) {
    pod.ns == ns && forall k | k in selector :: k in pod.labels && pod.labels[k] == selector[k]
  }

  /** `at` lists the positions of the selected pods, each once and in order. */
  ghost predicate Positions(pods: seq<Pod>, ns: string, selector: Labels, at: seq<int>) {
    && Ascending(at)
    && (forall k :: k in at <==> 0 <= k < |pods| && Selected(pods[k], ns, selector))
  }

  /** `picked` are the pods at those positions. */
  predicate Picks(pods: seq<Pod>, at: seq<int>, picked: seq<Pod>) {
    |picked| == |at| && forall i | 0 <= i < |at| :: 0 <= at[i] < |pods| && picked[i] == pods[at[i]]
  }

  /** The selection is the listing at exactly the positions of the selected pods, in order. */
  lemma {:induction false} SelectionAt(pods: seq<Pod>, ns: string, selector: Labels) returns (at: seq<int>)
    ensures Positions(pods, ns, selector, at) && Picks(pods, at, SelectPods(pods, ns, selector))
    decreases |pods|
  {
    if pods == [] {
      at := [];
    } else {
      var rest := SelectionAt(pods[1..], ns, selector);
      at := First(pods, ns, selector) + Moved(rest);
      PositionsStep(pods, ns, selector, rest);
      PicksStep(pods, ns, selector, rest);
    }
  }

  function First(pods: seq<Pod>, ns: string, selector: Labels): seq<int>
    requires pods != []
  {
    if Selected(pods[0], ns, selector) then [0] else []
  }

  lemma PositionsStep(pods: seq<Pod>, ns: string, selector: Labels, rest: seq<int>)
    requires pods != [] && Positions(pods[1..], ns, selector, rest)
    ensures Positions(pods, ns, selector, First(pods, ns, selector) + Moved(rest))
  {
    var at := First(pods, ns, selector) + Moved(rest);
    MovedOrder(First(pods, ns, selector), rest);
    forall k ensures k in at <==> 0 <= k < |pods| && Selected(pods[k], ns, selector) {
      MovedMembers(rest, k);
      assert k in at <==> k in First(pods, ns, selector) || k in Moved(rest);
      assert 1 <= k < |pods| ==> pods[1..][k - 1] == pods[k];
    }
  }

  lemma PicksStep(pods: seq<Pod>, ns: string, selector: Labels, rest: seq<int>)
    requires pods != [] && Picks(pods[1..], rest, SelectPods(pods[1..], ns, selector))
    ensures Picks(pods, First(pods, ns, selector) + Moved(rest), SelectPods(pods, ns, selector))
  {
    var tail := SelectPods(pods[1..], ns, selector);
    SelectFirst(pods, ns, selector);
    assert forall i | 0 <= i < |rest| :: tail[i] == pods[1..][rest[i]] == pods[rest[i] + 1];
  }

  lemma SelectFirst(pods: seq<Pod>, ns: string, selector: Labels)
    requires pods != []
    ensures SelectPods(pods, ns, selector) ==
      (if Selected(pods[0], ns, selector) then [pods[0]] else []) + SelectPods(pods[1..], ns, selector)
  {
  }

  function Moved(rest: seq<int>): seq<int> { seq(|rest|, i requires 0 <= i < |rest| => rest[i] + 1) }

  lemma MovedMembers(rest: seq<int>, k: int)
    ensures k in Moved(rest) <==> k - 1 in rest
  {
    if k - 1 in rest {
      var i :| 0 <= i < |rest| && rest[i] == k - 1;
      assert Moved(rest)[i] == k;
    }
  }

  predicate Ascending(at: seq<int>) { forall i, j | 0 <= i < j < |at| :: at[i] < at[j] }

  lemma MovedOrder(first: seq<int>, rest: seq<int>)
    requires (first == [] || first == [0]) && Ascending(rest) && forall k | k in rest :: k >= 0
    ensures Ascending(first + Moved(rest))
  {
    var at, d := first + Moved(rest), |first|;
    forall i, j | 0 <= i < j < |at| ensures at[i] < at[j] {
      assert at[j] == rest[j - d] + 1 && rest[j - d] in rest;
      assert i >= d ==> at[i] == rest[i - d] + 1;
    }
  }

  /** The pod at `l` runs the server: of the selected ones it is the first of maximal creation time, it stays, and
      both its containers are ready. */
  ghost predicate Running(pods: seq<Pod>, ns: string, selector: Labels, l: int) {
    && 0 <= l < |pods| && Selected(pods[l], ns, selector) && !pods[l].deleting
    && (forall j | 0 <= j < l && Selected(pods[j], ns, selector) :: pods[j].created < pods[l].created)
    && (forall j | l < j < |pods| && Selected(pods[j], ns, selector) :: pods[j].created <= pods[l].created)
    && ReadyIn(pods[l].init, "xpra-server-bind") && ReadyIn(pods[l].main, "xpra-server")
  }

  ghost predicate ServerRuns(pods: seq<Pod>, ns: string, selector: Labels) {
    exists l | 0 <= l < |pods| :: Running(pods, ns, selector, l)
  }

  /** The gate's readiness is that of the selected pods of the listing itself. */
  lemma ReadySelection(pods: seq<Pod>, ns: string, selector: Labels)
    ensures PodsReady(SelectPods(pods, ns, selector)) <==> ServerRuns(pods, ns, selector)
  {
    var at := SelectionAt(pods, ns, selector);
    var selection := SelectPods(pods, ns, selector);
    if PodsReady(selection) {
      var i :| IsLatest(selection, i) && !selection[i].deleting && ReadyIn(selection[i].init, BIND)
        && ReadyIn(selection[i].main, SERVER);
      LatestSelected(pods, ns, selector, at, i);
      assert at[i] in at && Running(pods, ns, selector, at[i]);
    }
    if ServerRuns(pods, ns, selector) {
      var l :| 0 <= l < |pods| && Running(pods, ns, selector, l);
      assert l in at;
      var i :| 0 <= i < |at| && at[i] == l;
      SelectedLatest(pods, ns, selector, at, i);
    }
  }

  lemma LatestSelected(pods: seq<Pod>, ns: string, selector: Labels, at: seq<int>, i: int)
    requires Positions(pods, ns, selector, at)
    requires Picks(pods, at, SelectPods(pods, ns, selector)) && IsLatest(SelectPods(pods, ns, selector), i)
    ensures forall j | 0 <= j < at[i] && Selected(pods[j], ns, selector) :: pods[j].created < pods[at[i]].created
    ensures forall j | at[i] < j < |pods| && Selected(pods[j], ns, selector) :: pods[j].created <= pods[at[i]].created
  {
    var selection := SelectPods(pods, ns, selector);
    forall j | 0 <= j < |pods| && Selected(pods[j], ns, selector)
      ensures j < at[i] ==> pods[j].created < pods[at[i]].created
      ensures at[i] < j ==> pods[j].created <= pods[at[i]].created
    {
      assert j in at;
      var k :| 0 <= k < |at| && at[k] == j;
      assert selection[k] == pods[j];
    }
  }

  lemma SelectedLatest(pods: seq<Pod>, ns: string, selector: Labels, at: seq<int>, i: int)
    requires Positions(pods, ns, selector, at) && 0 <= i < |at| && Running(pods, ns, selector, at[i])
    requires Picks(pods, at, SelectPods(pods, ns, selector))
    ensures IsLatest(SelectPods(pods, ns, selector), i)
  {
    forall k | 0 <= k < |at|
      ensures k < i ==> pods[at[k]].created < pods[at[i]].created
      ensures i < k ==> pods[at[k]].created <= pods[at[i]].created
    {
      assert at[k] in at;
    }
  }

  // ---------------------------------------------------------- whole passes

  /** How an undisturbed pass over a workbench that is not being deleted ends: in an error if the deployment lacks
      containers, with another try in two seconds if its server does not run, and well otherwise. */
  lemma PassVerdict(w: World, id: Key, config: Config, choice: Choice)
    requires Quiet(w) && id in w.cluster.workbenches && !w.cluster.workbenches[id].deleting
    ensures GoOrders(w, id, config, choice) ==>
      var d := ServerOf(w.cluster, id, config);
      Reconcile(w, id, config, choice).verdict ==
        if d.main == [] || d.init == [] then Error
        else if ServerRuns(w.cluster.pods, id.ns, d.selector) then Done
        else Requeue(2)
  {
    if GoOrders(w, id, config, choice) {
      var d := ServerOf(w.cluster, id, config);
      QuietCall(w, GetWorkbench(id));
      ReadySelection(w.cluster.pods, id.ns, d.selector);
      GateReached(w, id, config, choice.now);
      GateVerdict(w, id, config, choice.now);
      ReconcileSplit(w, id, config, choice);
      PassConverges(w, id, config, choice);
    }
  }

  /** Up to the gate only a deployment without containers ends an undisturbed pass. */
  lemma GateVerdict(w: World, id: Key, config: Config, now: int)
    requires Quiet(w) && id in w.cluster.workbenches && !w.cluster.workbenches[id].deleting
    ensures var b, d := Before(w, id, config, now), ServerOf(w.cluster, id, config);
      (b.end.None? <==> d.main != [] && d.init != []) && (b.end.Some? ==> b.end == Some(Error))
  {
    var w1, wb := After(w, GetWorkbench(id)), w.cluster.workbenches[id];
    QuietCall(w, GetWorkbench(id));
    QuietFinalizer(w1, id);
    var kept := EnsureFinalizer(w1, Memory(id, wb, wb));
    ServerAtGate(kept, config, now);
    QuietServer(kept, config, now);
    var server := Server(kept, config, now);
    ServerEnds(kept, config, now);
    if server.end.None? {
      QuietPrepare(server, config);
    }
  }

  lemma ServerEnds(p: Pass, config: Config, now: int)
    requires p.end.None?
    ensures Server(p, config, now).end.None? || Server(p, config, now).end == Some(Error)
  {
  }

  /** The server of another workbench does not count: unless some pod of the namespace carries this one's label,
      a pass that works with the operator's own selector touches no app and tries again. */
  lemma OthersDoNotCount(w: World, id: Key, config: Config, choice: Choice)
    requires Quiet(w) && id in w.cluster.workbenches && !w.cluster.workbenches[id].deleting
    requires var d := ServerOf(w.cluster, id, config);
      d.main != [] && d.init != [] && "workbench" in d.selector && d.selector["workbench"] == id.name
    requires forall pod | pod in w.cluster.pods ::
      pod.ns == id.ns && "workbench" in pod.labels ==> pod.labels["workbench"] != id.name
    ensures GoOrders(w, id, config, choice) ==>
      var f := Reconcile(w, id, config, choice);
      && f.verdict == Requeue(2) && |w.log| <= |f.w.log|
      && forall i | |w.log| <= i < |f.w.log| :: !Gate.TouchesApps(f.w.log[i].op)
  {
    var d := ServerOf(w.cluster, id, config);
    forall l | 0 <= l < |w.cluster.pods| ensures !Running(w.cluster.pods, id.ns, d.selector, l) {
      assert w.cluster.pods[l] in w.cluster.pods;
    }
    PassVerdict(w, id, config, choice);
    if GoOrders(w, id, config, choice) {
      QuietCall(w, GetWorkbench(id));
      ClosedGate(w, id, config, choice);
    }
  }

  /** Behind a closed gate an undisturbed pass touches no app. */
  lemma ClosedGate(w: World, id: Key, config: Config, choice: Choice)
    requires Quiet(w) && id in w.cluster.workbenches && !w.cluster.workbenches[id].deleting
    requires !ServerRuns(w.cluster.pods, id.ns, ServerOf(w.cluster, id, config).selector)
    ensures Gate.Untouched(Reconcile(w, id, config, choice).w, |w.log|)
  {
    var d, n := ServerOf(w.cluster, id, config), |w.log|;
    ReadySelection(w.cluster.pods, id.ns, d.selector);
    GateReached(w, id, config, choice.now);
    ReconcileSplit(w, id, config, choice);
    UntouchedBefore(w, id, config, choice.now);
  }

  lemma UntouchedBefore(w: World, id: Key, config: Config, now: int)
    requires Quiet(w) && id in w.cluster.workbenches
    ensures Gate.Untouched(Before(w, id, config, now).w, |w.log|)
  {
    var wb, w1, n := w.cluster.workbenches[id], After(w, GetWorkbench(id)), |w.log|;
    QuietCall(w, GetWorkbench(id));
    Gate.UntouchedCall(w, GetWorkbench(id), n);
    Gate.UntouchedCall(w1, UpdateWorkbench(id, wb, wb.(finalizers := wb.finalizers + {FINALIZER})), n);
    var kept := EnsureFinalizer(w1, Memory(id, wb, wb));
    if kept.end.None? {
      var inv := (x: World) => Gate.Untouched(x, n);
      Traces.ServerKeeps(kept, config, now, inv);
      Traces.PrepareKeeps(Server(kept, config, now), config, inv);
    }
  }
}
