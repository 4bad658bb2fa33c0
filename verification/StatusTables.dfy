/** What the recorded statuses say, row by row, in terms of deployments, jobs, pods and container states. */
module StatusTables {
  import opened Options
  import opened Objects
  import opened StatusUpdates
  import Text

  /** The server entry once a deployment has been taken into account. */
  lemma ServerEntry(s: ServerStatus, d: Deployment)
    ensures var t := FromDeployment(s, d).0;
      && t.pod == s.pod
      && (d.revision.None? ==> t.revision == -1)
      && (d.revision.Some? && Text.Atoi(d.revision.value).None? ==> t.revision == -1)
      && (forall n | Text.MIN_INT <= n <= Text.MAX_INT && d.revision == Some(Text.Decimal(n)) :: t.revision == n)
    ensures var phase := FromDeployment(s, d).0.status;
      if d.conditions == [] then phase.Progressing?
      else
        var c := d.conditions[0];
        var moving := c.kind == "Progressing" && c.status == "True";
        && (phase.Running? <==> c.kind == "Available" || (moving && c.reason == "NewReplicaSetAvailable"))
        && (phase.Progressing? <==> moving && c.reason != "NewReplicaSetAvailable")
        && (phase.Blank? <==> c.kind == "ReplicaFailure")
        && (phase.Failed? <==> c.kind !in {"Available", "ReplicaFailure"} && !moving)
  {
    forall n | Text.MIN_INT <= n <= Text.MAX_INT && d.revision == Some(Text.Decimal(n))
      ensures FromDeployment(s, d).0.revision == n
    {
      Text.AtoiDecimal(n);
    }
  }

  /** The entry of a spec app once its job has been seen: its phase reflects the job, its revision stays, and
      the other entries are left alone. */
  lemma JobEntry(apps: map<string, AppStatus>, spec: Spec, uid: string, job: Job)
    requires uid in spec.apps
    ensures var next := FromJob(apps, spec, uid, job).0;
      && uid in next && Reflects(next[uid].status, job.status)
      && next[uid].revision == (if uid in apps then apps[uid].revision else 0)
      && next.Keys == apps.Keys + {uid} && forall v | v in apps && v != uid :: next[v] == apps[v]
  {
  }

  /** The entry of an app whose job could not be built. */
  lemma FailureEntry(apps: map<string, AppStatus>, uid: string)
    ensures var next := FromFailure(apps, uid).0;
      && uid in next && next[uid] == AppStatus(if uid in apps then apps[uid].revision else -1, AppPhase.Failed)
      && next.Keys == apps.Keys + {uid} && forall v | v in apps && v != uid :: next[v] == apps[v]
  {
  }

  // ------------------------------------------------------------ server pods

  /** `i` is the first status called `name`. */
  predicate FirstCalled(statuses: seq<ContainerStatus>, name: string, i: int) {
    0 <= i < |statuses| && statuses[i].name == name && forall j | 0 <= j < i :: statuses[j].name != name
  }

  predicate NoneCalled(statuses: seq<ContainerStatus>, name: string) {
    forall j | 0 <= j < |statuses| :: statuses[j].name != name
  }

  lemma FirstCalledAt(statuses: seq<ContainerStatus>, name: string, i: int)
    ensures FirstCalled(statuses, name, i) ==> FirstNamed(statuses, name) == i
    ensures NoneCalled(statuses, name) ==> FirstNamed(statuses, name) == |statuses|
  {
    var k := FirstNamed(statuses, name);
    assert k < |statuses| ==> statuses[k].name == name;
  }

  /** No pod, a pod on its way out, or one without the two statuses. */
  lemma NoServer(pods: seq<Pod>, now: int, l: int)
    ensures pods == [] ==> PodsHealth(pods, now) == PodHealth(PodPhase.Unknown, false, 0, Message.Text("No pods found"))
    ensures IsLatest(pods, l) && pods[l].deleting ==>
      PodsHealth(pods, now) == PodHealth(PodPhase.Terminating, false, 0, Message.Text("Pod is terminating"))
    ensures IsLatest(pods, l) && !pods[l].deleting && NoneCalled(pods[l].init, "xpra-server-bind") ==>
      PodsHealth(pods, now) ==
        PodHealth(PodPhase.Unknown, false, 0, Message.Text("xpra-server-bind init container not found"))
    ensures IsLatest(pods, l) && !pods[l].deleting ==>
      !NoneCalled(pods[l].init, "xpra-server-bind") && NoneCalled(pods[l].main, "xpra-server") ==>
      PodsHealth(pods, now) == PodHealth(PodPhase.Unknown, false, 0, Message.Text("xpra-server container not found"))
  {
    if IsLatest(pods, l) {
      LatestUnique(pods, l, Latest(pods));
      FirstCalledAt(pods[l].init, BIND, 0);
      FirstCalledAt(pods[l].main, SERVER, 0);
    }
  }

  /** The latest pod `l` is there to stay, with `b` and `m` its first statuses of the sidecar and the server. */
  predicate Serves(pods: seq<Pod>, l: int, b: int, m: int) {
    && IsLatest(pods, l) && !pods[l].deleting
    && FirstCalled(pods[l].init, "xpra-server-bind", b) && FirstCalled(pods[l].main, "xpra-server", m)
  }

  lemma ServesHealth(pods: seq<Pod>, now: int, l: int, b: int, m: int)
    requires Serves(pods, l, b, m)
    ensures PodsHealth(pods, now) == DetermineHealth(pods[l].init[b], pods[l].main[m], now)
  {
    LatestUnique(pods, l, Latest(pods));
    FirstCalledAt(pods[l].init, BIND, b);
    FirstCalledAt(pods[l].main, SERVER, m);
  }

  /** As long as the sidecar is not ready, its state is what counts. */
  lemma SidecarRows(pods: seq<Pod>, now: int, l: int, b: int, m: int)
    requires Serves(pods, l, b, m) && !pods[l].init[b].ready
    ensures var h, bind := PodsHealth(pods, now), pods[l].init[b];
      var s := bind.state;
      && !h.ready && h.restarts == bind.restarts
      && (h.status.Waiting? <==> s.waiting.Some?)
      && (h.status.Starting? <==> s.waiting.None? && s.running.Some?)
      && (h.status.Failing? <==> s.waiting.None? && s.running.None? && s.terminated.Some?)
      && (h.status.Unknown? <==> s.waiting.None? && s.running.None? && s.terminated.None?)
      && (h.status.Waiting? ==> h.message == InitWaiting(s.waiting.value.reason, s.waiting.value.message))
      && (h.status.Failing? ==>
            h.message == InitFailed(s.terminated.value.code, s.terminated.value.reason, s.terminated.value.message))
      && (h.status.Starting? ==> h.message == Message.Text("Init container starting"))
      && (h.status.Unknown? ==> h.message == Message.Text("Init container state unknown"))
  {
    ServesHealth(pods, now, l, b, m);
  }

  /** Behind a ready sidecar the server's own state counts: a running server is restarting for five minutes after
      a restart; without one it is given two minutes to become ready. */
  lemma ServerRows(pods: seq<Pod>, now: int, l: int, b: int, m: int)
    requires Serves(pods, l, b, m) && pods[l].init[b].ready
    ensures var h, main := PodsHealth(pods, now), pods[l].main[m];
      var s := main.state;
      && h.ready == main.ready && h.restarts == main.restarts
      && (h.status.Waiting? <==> s.waiting.Some?)
      && (h.status.Terminated? <==> s.waiting.None? && s.terminated.Some?)
      && (h.status.Unknown? <==> s.waiting.None? && s.terminated.None? && s.running.None?)
      && (s.waiting.None? && s.terminated.None? && s.running.Some? ==>
            var age := now - s.running.value;
            && (h.status.Restarting? <==> main.restarts > 0 && age < 300)
            && (h.status.Ready? <==> main.ready && !(main.restarts > 0 && age < 300))
            && (h.status.Starting? <==> !main.ready && main.restarts == 0 && age < 120)
            && (h.status.Failing? <==>
                  !main.ready && !(main.restarts > 0 && age < 300) && !(main.restarts == 0 && age < 120)))
      && (h.status.Waiting? ==> h.message == ServerWaiting(s.waiting.value.reason))
      && (h.status.Terminated? ==> h.message == ServerTerminated(s.terminated.value.reason))
      && (h.status.Restarting? ==> h.message == ServerRestarted(main.restarts))
      && (h.status.Unknown? ==> h.message == Message.Text("Container state unknown"))
      && (h.status.Ready? ==> h.message == Message.Text("Container is ready"))
      && (h.status.Starting? ==> h.message == Message.Text("Container starting up"))
      && (h.status.Failing? ==> h.message == Message.Text("Readiness probe failing"))
  {
    ServesHealth(pods, now, l, b, m);
  }
}
