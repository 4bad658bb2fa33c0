/**
 The workbench status: the values computed from a deployment, a job and the server pods, and the
 in-memory workbench whose methods keep it up to date and say whether it changed.
 */
module StatusUpdates {
  import opened Options
  import opened Objects
  import Text

  /** The in-memory workbench: what it now holds, and the stored version it was last in step with. */
  datatype Memory = Memory(id: Key, read: Workbench, now: Workbench)

  // ------------------------------------------------------ from a deployment

  function Revision(d: Deployment): int {
    match d.revision
    case None => -1
    case Some(text) =>
      match Text.Atoi(text)
      case None => -1
      case Some(n) => n
  }

  /** A `ReplicaFailure` condition leaves the phase blank. */
  function ConditionPhase(c: Condition): ServerPhase {
    if c.kind == "Available" then ServerPhase.Running
    else if c.kind == "Progressing" then
      if c.status != "True" then ServerPhase.Failed
      else if c.reason == "NewReplicaSetAvailable" then ServerPhase.Running
      else ServerPhase.Progressing
    else if c.kind == "ReplicaFailure" then ServerPhase.Blank
    else ServerPhase.Failed
  }

  /** The server status once `d` has been taken into account, with the "changed" flag. */
  function FromDeployment(s: ServerStatus, d: Deployment): (ServerStatus, bool) {
    var moved := Revision(d) != s.revision;
    if d.conditions == [] then
      (s.(revision := Revision(d), status := ServerPhase.Progressing), true)
    else
      var phase := ConditionPhase(d.conditions[0]);
      (s.(revision := Revision(d), status := phase), moved || phase != s.status)
  }

  /** The flag never hides a change; it is raised without one exactly when there is no condition yet. */
  lemma DeploymentFlag(s: ServerStatus, d: Deployment)
    ensures FromDeployment(s, d).1 <==> FromDeployment(s, d).0 != s || d.conditions == []
    ensures FromDeployment(s, d).0.pod == s.pod
  {
  }

  // ------------------------------------------------------------- from a job

  function JobPhase(s: JobStatus): AppPhase {
    if s.active == 1 then
      if s.ready.Some? && s.ready.value >= 1 then AppPhase.Running else AppPhase.Progressing
    else if s.succeeded >= 1 then AppPhase.Complete
    else AppPhase.Failed
  }

  /** What an app status says of the job it was taken from. */
  ghost predicate Reflects(phase: AppPhase, s: JobStatus) {
    && (phase.Running? <==> s.active == 1 && s.ready.Some? && s.ready.value >= 1)
    && (phase.Progressing? <==> s.active == 1 && (s.ready.None? || s.ready.value < 1))
    && (phase.Complete? <==> s.active != 1 && s.succeeded >= 1)
    && (phase.Failed? <==> s.active != 1 && s.succeeded < 1)
  }

  /** The app entries once `job` has been seen for `uid`. It is the spec, not the status, that is
      searched for `uid` before the entry is reset. */
  function FromJob(apps: map<string, AppStatus>, spec: Spec, uid: string, job: Job): (map<string, AppStatus>, bool) {
    var grown := if uid in spec.apps then apps else apps[uid := AppStatus(-1, AppPhase.Unknown)];
    var entry := if uid in grown then grown[uid] else AppStatus(0, AppPhase.Blank);
    var phase := JobPhase(job.status);
    if phase != entry.status then (grown[uid := entry.(status := phase)], true) else (grown, false)
  }

  function FromFailure(apps: map<string, AppStatus>, uid: string): (map<string, AppStatus>, bool) {
    var entry := if uid in apps then apps[uid] else AppStatus(-1, AppPhase.Blank);
    if entry.status != AppPhase.Failed then (apps[uid := entry.(status := AppPhase.Failed)], true)
    else (apps, false)
  }

  /** A lowered flag means an unchanged map; for an app of the spec the flag is exact. */
  lemma JobFlag(apps: map<string, AppStatus>, spec: Spec, uid: string, job: Job)
    ensures !FromJob(apps, spec, uid, job).1 ==> FromJob(apps, spec, uid, job).0 == apps
    ensures uid in spec.apps ==>
      (FromJob(apps, spec, uid, job).1 <==> FromJob(apps, spec, uid, job).0 != apps)
  {
  }

  lemma FailureFlag(apps: map<string, AppStatus>, uid: string)
    ensures FromFailure(apps, uid).1 <==> FromFailure(apps, uid).0 != apps
    ensures uid in FromFailure(apps, uid).0 && FromFailure(apps, uid).0[uid].status == AppPhase.Failed
  {
  }

  /** A first entry of a spec app starts from revision 0 when its job is seen, from -1 when it fails; only an
      app outside the spec would be grown with -1 by its job. */
  lemma NewEntries(apps: map<string, AppStatus>, spec: Spec, uid: string, job: Job)
    requires uid !in apps
    ensures FromJob(apps, spec, uid, job).0[uid] ==
      AppStatus(if uid in spec.apps then 0 else -1, JobPhase(job.status))
    ensures FromFailure(apps, uid).0[uid] == AppStatus(-1, AppPhase.Failed)
  {
  }

  // ------------------------------------------------------------ server pods

  /** Health while the bind sidecar is not ready. */
  function InitHealth(init: ContainerStatus): PodHealth {
    var s := init.state;
    if s.waiting.Some? then
      PodHealth(PodPhase.Waiting, false, init.restarts, InitWaiting(s.waiting.value.reason, s.waiting.value.message))
    else if s.running.Some? then
      PodHealth(PodPhase.Starting, false, init.restarts, Message.Text("Init container starting"))
    else if s.terminated.Some? then
      var t := s.terminated.value;
      PodHealth(PodPhase.Failing, false, init.restarts, InitFailed(t.code, t.reason, t.message))
    else
      PodHealth(PodPhase.Unknown, false, init.restarts, Message.Text("Init container state unknown"))
  }

  const RESTART_WINDOW := 5 * 60
  const START_WINDOW := 2 * 60

  function ContainerHealth(main: ContainerStatus, now: int): PodHealth {
    var s := main.state;
    var health := (phase: PodPhase, message: Message) => PodHealth(phase, main.ready, main.restarts, message);
    if s.waiting.Some? then health(PodPhase.Waiting, ServerWaiting(s.waiting.value.reason))
    else if s.terminated.Some? then health(PodPhase.Terminated, ServerTerminated(s.terminated.value.reason))
    else if s.running.None? then health(PodPhase.Unknown, Message.Text("Container state unknown"))
    else if main.restarts > 0 && now - s.running.value < RESTART_WINDOW then
      health(PodPhase.Restarting, ServerRestarted(main.restarts))
    else if main.ready then health(PodPhase.Ready, Message.Text("Container is ready"))
    else if main.restarts == 0 && now - s.running.value < START_WINDOW then
      health(PodPhase.Starting, Message.Text("Container starting up"))
    else health(PodPhase.Failing, Message.Text("Readiness probe failing"))
  }

  function DetermineHealth(init: ContainerStatus, main: ContainerStatus, now: int): PodHealth {
    if init.ready then ContainerHealth(main, now) else InitHealth(init)
  }

  function Unhealthy(phase: PodPhase, text: string): PodHealth {
    PodHealth(phase, false, 0, Message.Text(text))
  }

  const BIND := "xpra-server-bind"
  const SERVER := "xpra-server"

  /** Position of the first status called `name`, or the length. */
  function FirstNamed(statuses: seq<ContainerStatus>, name: string): (i: nat)
    ensures i <= |statuses|
    ensures i < |statuses| ==> statuses[i].name == name
    ensures forall j | 0 <= j < i :: statuses[j].name != name
  {
    if statuses == [] || statuses[0].name == name then 0
    else 1 + FirstNamed(statuses[1..], name)
  }

  /** `i` is the first of the pods with the latest creation time. */
  predicate IsLatest(pods: seq<Pod>, i: int) {
    && 0 <= i < |pods|
    && (forall j | 0 <= j < i :: pods[j].created < pods[i].created)
    && (forall j | i < j < |pods| :: pods[j].created <= pods[i].created)
  }

  /** The latest of a non-empty list of pods, found left to right. */
  function Latest(pods: seq<Pod>): (i: nat)
    requires pods != []
    ensures IsLatest(pods, i)
  {
    var n := |pods| - 1;
    if n == 0 then 0
    else
      var i := Latest(pods[..n]);
      if pods[n].created > pods[i].created then n else i
  }

  function PodsHealth(pods: seq<Pod>, now: int): PodHealth {
    if pods == [] then Unhealthy(PodPhase.Unknown, "No pods found")
    else
      var pod := pods[Latest(pods)];
      var i, m := FirstNamed(pod.init, BIND), FirstNamed(pod.main, SERVER);
      if pod.deleting then Unhealthy(PodPhase.Terminating, "Pod is terminating")
      else if i == |pod.init| then Unhealthy(PodPhase.Unknown, "xpra-server-bind init container not found")
      else if m == |pod.main| then Unhealthy(PodPhase.Unknown, "xpra-server container not found")
      else DetermineHealth(pod.init[i], pod.main[m], now)
  }

  /** `name` is ready: its first status says so. */
  ghost predicate ReadyIn(statuses: seq<ContainerStatus>, name: string) {
    exists i | 0 <= i < |statuses| ::
      statuses[i].name == name && statuses[i].ready && forall j | 0 <= j < i :: statuses[j].name != name
  }

  /** The server is up: the first pod of maximal creation time stays, and both its containers are ready. */
  ghost predicate PodsReady(pods: seq<Pod>) {
    exists i ::
      IsLatest(pods, i) && !pods[i].deleting && ReadyIn(pods[i].init, BIND) && ReadyIn(pods[i].main, SERVER)
  }

  lemma LatestUnique(pods: seq<Pod>, i: int, j: int)
    requires IsLatest(pods, i) && IsLatest(pods, j)
    ensures i == j
  {
    var a, b := pods[i].created, pods[j].created;
    assert !(i < j) && !(j < i);
  }

  lemma ReadyInFirst(statuses: seq<ContainerStatus>, name: string)
    ensures ReadyIn(statuses, name) <==>
      FirstNamed(statuses, name) < |statuses| && statuses[FirstNamed(statuses, name)].ready
  {
  }

  /** The recorded readiness is the declared one, whatever the container states and times. */
  lemma HealthReady(pods: seq<Pod>, now: int)
    ensures PodsHealth(pods, now).ready <==> PodsReady(pods)
  {
    if pods != [] {
      var l := Latest(pods);
      ReadyInFirst(pods[l].init, BIND);
      ReadyInFirst(pods[l].main, SERVER);
      if PodsReady(pods) {
        var i :| IsLatest(pods, i) && !pods[i].deleting && ReadyIn(pods[i].init, BIND) && ReadyIn(pods[i].main, SERVER);
        LatestUnique(pods, i, l);
      }
    }
  }

  function FromHealth(s: ServerStatus, health: PodHealth): (ServerStatus, bool) {
    (s.(pod := Some(health)), s.pod != Some(health))
  }

  // --------------------------------------------------- the in-memory object

  class WorkbenchObject {
    const id: Key
    var read: Workbench
    var deleting: bool
    var finalizers: set<string>
    var spec: Spec
    var status: Status

    ghost function Value(): Memory
      reads this
    {
      Memory(id, read, Workbench(deleting, finalizers, spec, status))
    }

    constructor (id: Key, wb: Workbench)
      ensures Value() == Memory(id, wb, wb)
    {
      this.id, read := id, wb;
      deleting, finalizers, spec, status := wb.deleting, wb.finalizers, wb.spec, wb.status;
    }

    /** Takes over the object that the server returned. */
    method Refresh(wb: Workbench)
      modifies this
      ensures Value() == Memory(id, wb, wb)
    {
      read, deleting, finalizers, spec, status := wb, wb.deleting, wb.finalizers, wb.spec, wb.status;
    }

    method UpdateStatusFromDeployment(d: Deployment) returns (updated: bool)
      modifies `status
      ensures (status.server, updated) == FromDeployment(old(status.server), d)
      ensures status.apps == old(status.apps)
    {
      updated := false;
      var text := if d.revision.Some? then d.revision.value else "-1";
      var number := Text.Atoi(text);
      var revision := if number.Some? then number.value else -1;
      assert revision == Revision(d) by {
        Text.AtoiDecimal(-1);
        assert Text.Decimal(-1) == "-1";
      }
      if revision != status.server.revision {
        status := status.(server := status.server.(revision := revision));
        updated := true;
      }
      if |d.conditions| == 0 {
        status := status.(server := status.server.(status := ServerPhase.Progressing));
        return true;
      }
      var phase := ConditionPhase(d.conditions[0]);
      if phase != status.server.status {
        status := status.(server := status.server.(status := phase));
        updated := true;
      }
    }

    method UpdateStatusFromJob(uid: string, job: Job) returns (updated: bool)
      modifies `status
      ensures (status.apps, updated) == FromJob(old(status.apps), spec, uid, job)
      ensures uid in spec.apps ==> uid in status.apps && Reflects(status.apps[uid].status, job.status)
      ensures status.server == old(status.server)
    {
      if uid !in spec.apps {
        status := status.(apps := status.apps[uid := AppStatus(-1, AppPhase.Unknown)]);
      }
      var app := if uid in status.apps then status.apps[uid] else AppStatus(0, AppPhase.Blank);
      var phase := app.status;
      if job.status.active == 1 {
        if job.status.ready.Some? && job.status.ready.value >= 1 {
          phase := AppPhase.Running;
        } else {
          phase := AppPhase.Progressing;
        }
      } else {
        if job.status.succeeded >= 1 {
          phase := AppPhase.Complete;
        } else {
          phase := AppPhase.Failed;
        }
      }
      if phase != app.status {
        app := app.(status := phase);
        status := status.(apps := status.apps[uid := app]);
        return true;
      }
      return false;
    }

    method SetAppStatusFailed(uid: string) returns (updated: bool)
      modifies `status
      ensures (status.apps, updated) == FromFailure(old(status.apps), uid)
      ensures status.server == old(status.server)
    {
      var app := AppStatus(-1, AppPhase.Blank);
      if uid in status.apps {
        app := status.apps[uid];
      }
      if app.status != AppPhase.Failed {
        app := app.(status := AppPhase.Failed);
        status := status.(apps := status.apps[uid := app]);
        return true;
      }
      return false;
    }

    method SetServerPodHealth(health: PodHealth) returns (changed: bool)
      modifies `status
      ensures (status.server, changed) == FromHealth(old(status.server), health)
      ensures status.apps == old(status.apps)
    {
      if status.server.pod == None {
        status := status.(server := status.server.(pod := Some(health)));
        return true;
      }
      var current := status.server.pod.value;
      changed := current.status != health.status || current.ready != health.ready ||
        current.restarts != health.restarts || current.message != health.message;
      if changed {
        status := status.(server := status.server.(pod := Some(health)));
      }
    }
  }

  /** The latest pod, by the scan the reconciler makes. */
  method FindLatest(pods: seq<Pod>) returns (latest: Option<Pod>)
    ensures latest.None? <==> pods == []
    ensures forall i :: IsLatest(pods, i) ==> latest == Some(pods[i])
  {
    latest := None;
    ghost var at := -1;
    for i := 0 to |pods|
      invariant latest.None? <==> i == 0
      invariant i > 0 ==> IsLatest(pods[..i], at) && latest == Some(pods[at])
    {
      if latest.None? || pods[i].created > latest.value.created {
        latest := Some(pods[i]);
        at := i;
      }
    }
    assert pods[..|pods|] == pods;
    if pods != [] {
      forall i | IsLatest(pods, i) ensures i == at {
        LatestUnique(pods, i, at);
      }
    }
  }

  /** The first status called `name`. */
  method FindStatus(statuses: seq<ContainerStatus>, name: string) returns (found: Option<ContainerStatus>)
    ensures var i := FirstNamed(statuses, name);
      found == if i < |statuses| then Some(statuses[i]) else None
  {
    found := None;
    for i := 0 to |statuses|
      invariant found.None?
      invariant forall j | 0 <= j < i :: statuses[j].name != name
    {
      if statuses[i].name == name {
        found := Some(statuses[i]);
        assert FirstNamed(statuses, name) == i;
        break;
      }
    }
  }
}
