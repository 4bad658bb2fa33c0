/**
 The reconciler itself: the methods that call the API server, loop, append and update in place. Each is
 proved to do what the corresponding function of Storage, Jobs and Controller says.
 */
module Reconciler {
  import opened Options
  import opened Objects
  import opened Api
  import opened StatusUpdates
  import opened Controller
  import Convergence
  import Deployments
  import FullPass
  import Isolation
  import Jobs
  import Passwd
  import Sorting
  import Storage
  import Traces

  // ------------------------------------------------------ iteration orders

  lemma {:induction false} LoopEnded(a: Apps, config: Config, images: Jobs.Images, done: seq<string>, rest: seq<string>)
    requires AppLoop(a, config, images, done).p.end.Some?
    ensures AppLoop(a, config, images, done + rest) == AppLoop(a, config, images, done)
    decreases |rest|
  {
    if rest == [] {
      assert done + rest == done;
    } else {
      var n := |rest| - 1;
      LoopEnded(a, config, images, done, rest[..n]);
      assert (done + rest)[..|done| + n] == done + rest[..n];
    }
  }

  /** An ended loop's order, completed to an order of all the keys. */
  lemma FullOrder(a: Apps, config: Config, images: Jobs.Images, done: seq<string>, keys: set<string>,
        remaining: set<string>)
    returns (order: seq<string>)
    requires AppLoop(a, config, images, done).p.end.Some?
    requires remaining <= keys && Convergence.Enumerates(done, keys - remaining)
    ensures Convergence.Enumerates(order, keys)
    ensures AppLoop(a, config, images, order) == AppLoop(a, config, images, done)
  {
    var rest := Convergence.SomeOrder(remaining);
    Convergence.Extended(done, keys - remaining, rest, remaining);
    LoopEnded(a, config, images, done, rest);
    order := done + rest;
    assert keys - remaining + remaining == keys;
  }

  lemma {:induction false} SweepEnded(p: Pass, found: seq<string>, listed: set<Key>, done: seq<Key>, rest: seq<Key>)
    requires SweepLoop(p, found, listed, done).end.Some?
    ensures SweepLoop(p, found, listed, done + rest) == SweepLoop(p, found, listed, done)
    decreases |rest|
  {
    if rest == [] {
      assert done + rest == done;
    } else {
      var n := |rest| - 1;
      SweepEnded(p, found, listed, done, rest[..n]);
      assert (done + rest)[..|done| + n] == done + rest[..n];
    }
  }

  method Filter(pods: seq<Pod>, ns: string, selector: Labels) returns (selected: seq<Pod>)
    ensures selected == SelectPods(pods, ns, selector)
  {
    selected := [];
    for i := |pods| downto 0
      invariant selected == SelectPods(pods[i..], ns, selector)
    {
      if pods[i].ns == ns && Matches(pods[i].labels, selector) {
        selected := [pods[i]] + selected;
      }
      assert pods[i..] == [pods[i]] + pods[i + 1..];
    }
    assert pods[0..] == pods;
  }

  /** The health of the latest of the selected pods, found by scanning pods and container statuses. */
  method LatestHealth(pods: seq<Pod>, now: int) returns (health: PodHealth)
    ensures health == PodsHealth(pods, now)
  {
    var latest := FindLatest(pods);
    if latest.None? {
      return Unhealthy(PodPhase.Unknown, "No pods found");
    }
    assert latest == Some(pods[Latest(pods)]);
    if latest.value.deleting {
      return Unhealthy(PodPhase.Terminating, "Pod is terminating");
    }
    var init := FindStatus(latest.value.init, BIND);
    if init.None? {
      return Unhealthy(PodPhase.Unknown, "xpra-server-bind init container not found");
    }
    var main := FindStatus(latest.value.main, SERVER);
    if main.None? {
      return Unhealthy(PodPhase.Unknown, "xpra-server container not found");
    }
    return DetermineHealth(init.value, main.value, now);
  }

  class WorkbenchReconciler {
    const api: ApiServer
    const config: Config

    constructor (api: ApiServer, config: Config)
      ensures this.api == api && this.config == config
    {
      this.api, this.config := api, config;
    }

    // -------------------------------------------------------------- deletion

    method DeleteJobs(id: Key) returns (count: Option<nat>)
      modifies api
      ensures Step(api.world, count) == DeleteJobsOf(old(api.world), id)
    {
      var ok, view := api.Call(ListJobs(id.name));
      if !ok {
        return None;
      }
      var items := ListedJobs(view, id.name);
      if |items| == 0 {
        return Some(0);
      }
      ok, view := api.Call(Op.DeleteJobs(id.ns, id.name));
      count := if ok then Some(|items|) else None;
    }

    method DeleteDeployments(id: Key) returns (count: Option<nat>)
      modifies api
      ensures Step(api.world, count) == DeleteDeploymentsOf(old(api.world), id)
    {
      var ok, view := api.Call(ListDeployments(id.name));
      if !ok {
        return None;
      }
      var items := ListedDeployments(view, id.name);
      if |items| == 0 {
        return Some(0);
      }
      ok, view := api.Call(Op.DeleteDeployments(id.ns, id.name));
      count := if ok then Some(|items|) else None;
    }

    method DeleteExternalResources(id: Key) returns (count: Option<nat>)
      modifies api
      ensures Step(api.world, count) == DeleteExternal(old(api.world), id)
    {
      count := DeleteJobs(id);
      if count.None? || count.value > 0 {
        return;
      }
      count := DeleteDeployments(id);
    }

    method Finalize(wb: WorkbenchObject) returns (verdict: Verdict)
      modifies api, wb
      ensures Pass(api.world, wb.Value(), Some(verdict)) == Teardown(old(api.world), old(wb.Value()))
    {
      if FINALIZER in wb.finalizers {
        var count := DeleteExternalResources(wb.id);
        if count.None? {
          return Error;
        }
        if count.value > 0 {
          return Requeue(5);
        }
        wb.finalizers := wb.finalizers - {FINALIZER};
        var ok, _ := api.Call(UpdateWorkbench(wb.id, wb.read,
          Workbench(wb.deleting, wb.finalizers, wb.spec, wb.status)));
        if !ok {
          return Error;
        }
      }
      return Done;
    }

    // ---------------------------------------------------------------- server

    method AddFinalizer(wb: WorkbenchObject) returns (end: Option<Verdict>)
      modifies api, wb
      ensures Pass(api.world, wb.Value(), end) == EnsureFinalizer(old(api.world), old(wb.Value()))
    {
      end := None;
      if FINALIZER !in wb.finalizers {
        wb.finalizers := wb.finalizers + {FINALIZER};
        var next := Workbench(wb.deleting, wb.finalizers, wb.spec, wb.status);
        var ok, _ := api.Call(UpdateWorkbench(wb.id, wb.read, next));
        if !ok {
          return Some(Error);
        }
        wb.Refresh(next.(status := wb.read.status));
      }
    }

    method UpdateStatus(wb: WorkbenchObject)
      modifies api, wb
      ensures Pass(api.world, wb.Value(), None) == PushStatus(Pass(old(api.world), old(wb.Value()), None))
    {
      var now := Workbench(wb.deleting, wb.finalizers, wb.spec, wb.status);
      var ok, _ := api.Call(Op.UpdateStatus(wb.id, wb.read, now));
      if ok {
        wb.Refresh(wb.read.(status := wb.status));
      }
    }

    method CreateDeployment(key: Key, deployment: Deployment) returns (found: Option<Deployment>)
      modifies api
      ensures Step(api.world, found) == EnsureDeployment(old(api.world), key, deployment)
    {
      var ok, view := api.Call(GetDeployment(key));
      if !ok {
        return None;
      }
      if key in view.deployments {
        return Some(view.deployments[key]);
      }
      ok, view := api.Call(Op.CreateDeployment(key, deployment));
      found := if ok then Some(deployment) else None;
    }

    method UpdateServerPodHealth(wb: WorkbenchObject, deployment: Deployment, now: int) returns (changed: bool)
      modifies api, wb
      ensures var health := ObserveHealth(old(api.world), wb.id.ns, deployment.selector, now);
        var (server, c) := FromHealth(old(wb.Value()).now.status.server, health.value);
        api.world == health.w && changed == c && wb.Value() == WithServer(old(wb.Value()), server)
    {
      var ok, view := api.Call(ListPods(wb.id.ns, deployment.selector));
      if !ok {
        changed := wb.SetServerPodHealth(Unhealthy(PodPhase.Unknown, "Failed to list pods"));
        return;
      }
      var pods := Filter(view.pods, wb.id.ns, deployment.selector);
      var health := LatestHealth(pods, now);
      changed := wb.SetServerPodHealth(health);
    }

    method ObserveServer(wb: WorkbenchObject, deployment: Deployment, now: int)
      modifies api, wb
      ensures Pass(api.world, wb.Value(), None) == Observe(Pass(old(api.world), old(wb.Value()), None), deployment, now)
    {
      var statusUpdated := wb.UpdateStatusFromDeployment(deployment);
      assert wb.Value() == WithServer(old(wb.Value()), FromDeployment(old(wb.Value()).now.status.server, deployment).0);
      var serverHealthUpdated := UpdateServerPodHealth(wb, deployment, now);
      statusUpdated := statusUpdated || serverHealthUpdated;
      if statusUpdated {
        UpdateStatus(wb);
      }
    }

    /** The slices of the found deployment are updated in place, then the object is written. */
    method CorrectDeployment(key: Key, model: Deployment, found: Deployment) returns (end: Option<Verdict>)
      requires |model.main| == |model.init| == 1
      modifies api
      ensures forall mem: Memory ::
        Pass(api.world, mem, end) == Correct(Pass(old(api.world), mem, None), key, model, found)
    {
      end := None;
      if |found.main| == 0 || |found.init| == 0 {
        return Some(Error); // an index out of range panics
      }
      var main := new Container[|found.main|](i requires 0 <= i < |found.main| => found.main[i]);
      var init := new Container[|found.init|](i requires 0 <= i < |found.init| => found.init[i]);
      var sourceMain := new Container[1](_ => model.main[0]);
      var sourceInit := new Container[1](_ => model.init[0]);
      var source := new Deployments.PodTemplate(sourceMain, sourceInit);
      var destination := new Deployments.PodTemplate(main, init);
      assert main[..] == found.main && init[..] == found.init;
      assert sourceMain[..] == model.main && sourceInit[..] == model.init;
      var updated := Deployments.UpdateInPlace(source, destination);
      if updated {
        var next := found.(main := destination.main[..], init := destination.init[..]);
        var ok, _ := api.Call(UpdateDeployment(key, found, next));
        if !ok {
          return Some(Error);
        }
      }
    }

    method ReconcileServer(wb: WorkbenchObject, now: int) returns (end: Option<Verdict>)
      modifies api, wb
      ensures Pass(api.world, wb.Value(), end) == Server(Pass(old(api.world), old(wb.Value()), None), config, now)
    {
      end := None;
      var key := Deployments.DeploymentKey(wb.id);
      var model := Deployments.InitDeployment(wb.id, wb.spec, config);
      var found := CreateDeployment(key, model);
      if found.Some? {
        ObserveServer(wb, found.value, now);
        end := CorrectDeployment(key, model, found.value);
      }
    }

    method CreateService(id: Key) returns (ok: bool)
      modifies api
      ensures forall mem: Memory | mem.id == id ::
        Pass(api.world, mem, if ok then None else Some(Error)) == Service(Pass(old(api.world), mem, None))
    {
      var view;
      ok, view := api.Call(GetService(id));
      if ok && id !in view.services {
        ok, view := api.Call(Op.CreateService(id));
      }
    }

    // --------------------------------------------------------------- storage

    method GetEnabledProviders(spec: Spec) returns (enabled: seq<Storage.Provider>)
      ensures enabled == Storage.EnabledProviders(config, spec)
    {
      enabled := [];
      var wanted := Storage.Wanted(spec);
      var providers := Storage.Manager(config);
      if wanted.s3 && Storage.S3 in providers {
        enabled := enabled + [providers[Storage.S3]];
      }
      if wanted.nfs && Storage.NFS in providers {
        enabled := enabled + [providers[Storage.NFS]];
      }
      if wanted.local && Storage.Local in providers {
        enabled := enabled + [providers[Storage.Local]];
      }
    }

    method GetSecretConfig(p: Storage.Provider) returns (data: Option<map<string, string>>)
      modifies api
      ensures Step(api.world, data) == Storage.SecretConfig(old(api.world), p)
    {
      var ok, view := api.Call(GetSecret(p.secret));
      if !ok || p.secret !in view.secrets {
        return None;
      }
      var secret := view.secrets[p.secret];
      for i := 0 to |p.required|
        invariant forall j | 0 <= j < i :: Storage.Field(secret, p.required[j]) != ""
      {
        if Storage.Field(secret, p.required[i]) == "" {
          assert p.required[i] in p.required;
          return None;
        }
      }
      return Some(secret);
    }

    method HasDriver(p: Storage.Provider) returns (present: bool)
      modifies api
      ensures Step(api.world, present) == Storage.HasDriver(old(api.world), config, p)
    {
      if p.storage == Storage.Local {
        return config.localEnabled;
      }
      var ok, view := api.Call(GetDriver(p.driver));
      present := ok && p.driver in view.drivers;
    }

    method HasSecret(p: Storage.Provider) returns (present: bool)
      modifies api
      ensures Step(api.world, present) == Storage.HasSecret(old(api.world), config, p)
    {
      if p.storage == Storage.Local {
        return config.localEnabled;
      }
      var data := GetSecretConfig(p);
      present := data.Some?;
    }

    method CreatePV(p: Storage.Provider, ns: string) returns (volume: Option<PersistentVolume>)
      modifies api
      ensures Step(api.world, volume) == Storage.BuildVolume(old(api.world), config, p, ns)
    {
      if p.storage == Storage.Local {
        return Some(Storage.VolumeFor(config, p, ns, map[]));
      }
      var data := GetSecretConfig(p);
      volume := if data.Some? then Some(Storage.VolumeFor(config, p, ns, data.value)) else None;
    }

    method Setup(id: Key, p: Storage.Provider) returns (ok: bool)
      modifies api
      ensures Step(api.world, ok) == Storage.Setup(old(api.world), config, id, p)
    {
      ok := true;
      var data := map[];
      if p.storage == Storage.S3 {
        return;
      }
      if p.storage == Storage.NFS {
        var secret := GetSecretConfig(p);
        if secret.None? {
          return false;
        }
        data := secret.value;
      }
      var view;
      ok, view := api.Call(Op.CreateJob(Storage.SetupKey(p, id.ns), Storage.SetupJob(config, p, id, data)));
    }

    method EnsurePV(id: Key, p: Storage.Provider, volume: PersistentVolume) returns (ok: bool)
      modifies api
      ensures Step(api.world, ok) == Storage.EnsureVolume(old(api.world), config, id, p, volume)
    {
      var name := Storage.PersistentVolumeName(p, id.ns);
      var view;
      ok, view := api.Call(GetVolume(name));
      if !ok || name in view.volumes {
        return;
      }
      ok := Setup(id, p);
      if !ok {
        return;
      }
      ok, view := api.Call(CreateVolume(name, volume));
    }

    method EnsurePVC(id: Key, p: Storage.Provider) returns (ok: bool)
      modifies api
      ensures Step(api.world, ok) == Storage.EnsureClaim(old(api.world), id, p)
    {
      var key := Storage.ClaimKey(p, id);
      var view;
      ok, view := api.Call(GetClaim(key));
      if !ok || key in view.claims {
        return;
      }
      ok, view := api.Call(CreateClaim(key, Storage.ClaimFor(p, id.ns)));
    }

    method ProcessStorageProvider(id: Key, p: Storage.Provider) returns (result: Storage.Result)
      modifies api
      ensures Step(api.world, result) == Storage.Turn(old(api.world), config, id, p)
    {
      var driver := HasDriver(p);
      if !driver {
        return Storage.Skipped;
      }
      var secret := HasSecret(p);
      if !secret {
        return Storage.Skipped;
      }
      var volume := CreatePV(p, id.ns);
      if volume.None? {
        return Storage.Broken;
      }
      var ok := EnsurePV(id, p, volume.value);
      if !ok {
        return Storage.Broken;
      }
      ok := EnsurePVC(id, p);
      result := if ok then Storage.Provided(Storage.ClaimName(p, id.ns)) else Storage.Broken;
    }

    method ProcessEnabledStorage(id: Key, spec: Spec) returns (claims: map<Storage.StorageType, string>)
      modifies api
      ensures Step(api.world, claims) ==
        Storage.Process(old(api.world), config, id, Storage.EnabledProviders(config, spec))
    {
      claims := map[];
      var providers := GetEnabledProviders(spec);
      for i := 0 to |providers|
        invariant Step(api.world, claims) == Storage.Process(old(api.world), config, id, providers[..i])
      {
        Isolation.ProcessTake(old(api.world), config, id, providers, i);
        var result := ProcessStorageProvider(id, providers[i]);
        if result.Provided? {
          claims := claims[providers[i].storage := result.claim];
        }
      }
      assert providers[..|providers|] == providers;
    }

    method GetVolumeAndMountSpecs(id: Key, spec: Spec)
      returns (volumes: seq<PodVolume>, mounts: seq<Mount>, ghost active: seq<Storage.Provider>)
      modifies api
      ensures Step(api.world, active) == Storage.Active(old(api.world), config, Storage.EnabledProviders(config, spec))
      ensures volumes == Storage.VolumesOf(active, id.ns) && mounts == Storage.MountsOf(active, spec.user, id.ns)
    {
      volumes, mounts, active := [], [], [];
      var providers := GetEnabledProviders(spec);
      for i := 0 to |providers|
        invariant Step(api.world, active) == Storage.Active(old(api.world), config, providers[..i])
        invariant volumes == Storage.VolumesOf(active, id.ns) && mounts == Storage.MountsOf(active, spec.user, id.ns)
      {
        Storage.ActiveTake(old(api.world), config, providers, i);
        var p := providers[i];
        var usable := HasSecret(p);
        if usable {
          Storage.OneMore(active, p, spec.user, id.ns);
          volumes := volumes + [Storage.VolumeSpec(p, Storage.ClaimName(p, id.ns))];
          mounts := mounts + Storage.MountSpecs(p, spec.user, id.ns);
          active := active + [p];
        }
      }
      assert providers[..|providers|] == providers;
    }

    // ------------------------------------------------------------------ apps

    method ValidateAppImage(images: Jobs.Images, image: string) returns (valid: bool)
      ensures valid == Jobs.ValidImage(images, image)
    {
      if image !in images {
        return true;
      }
      var collisions := Passwd.CollectCollisions(images[image]);
      valid := |collisions| == 0;
    }

    method AssemblePod(id: Key, spec: Spec, app: App, volumes: seq<PodVolume>, storageMounts: seq<Mount>,
                       ghost active: seq<Storage.Provider>)
      returns (pod: PodSpec)
      requires app.image.Some?
      requires storageMounts == Storage.MountsOf(active, spec.user, id.ns)
      requires volumes == Jobs.OwnVolumes(app) + Storage.VolumesOf(active, id.ns)
      ensures pod == Jobs.PodFor(id, config, spec, app, active)
    {
      var mounts := [];
      if app.shm.Some? {
        mounts := mounts + [Mount("shm", "/dev/shm", "")];
      }
      mounts := mounts + [Mount("home", "/home", "")];
      mounts := mounts + storageMounts;
      var initMounts := [Mount("home", "/home", "")];
      initMounts := initMounts + storageMounts;
      ghost var model := Jobs.PodFor(id, config, spec, app, active);
      assert mounts == model.main[0].mounts;
      var resources := Jobs.DEFAULT_RESOURCES;
      if app.resources.Some? {
        var custom := app.resources.value;
        if custom.limits.Some? {
          resources := resources.(limits := custom.limits.value);
        }
        if custom.requests.Some? {
          resources := resources.(requests := custom.requests.value);
          if custom.limits.None? {
            resources := resources.(limits := custom.requests.value);
          }
        }
      }
      pod := PodSpec(app.name, volumes,
                     [Container("app-init", Jobs.InitImage(config, spec), initMounts, Jobs.INIT_RESOURCES)],
                     [Container(Jobs.AppName(app), Jobs.ImageName(app.image.value), mounts, resources)]);
    }

    method InitJob(id: Key, spec: Spec, images: Jobs.Images, app: App) returns (job: Option<Job>)
      modifies api
      ensures Step(api.world, job) == Jobs.InitJob(old(api.world), id, config, spec, images, app)
    {
      var volumes := [];
      if app.shm.Some? {
        volumes := volumes + [PodVolume("shm", SharedMemory(app.shm.value))];
      }
      volumes := volumes + [PodVolume("home", EmptyDir)];
      assert volumes == Jobs.OwnVolumes(app);
      ghost var active;
      var storageVolumes, storageMounts;
      storageVolumes, storageMounts, active := GetVolumeAndMountSpecs(id, spec);
      volumes := volumes + storageVolumes;

      if app.image.None? {
        return None;
      }
      var valid := ValidateAppImage(images, Jobs.ImageName(app.image.value));
      if !valid || Jobs.AppName(app) == "" {
        return None;
      }
      var pod := AssemblePod(id, spec, app, volumes, storageMounts, active);
      var suspend := !(app.state.Unset? || app.state.Running?);
      job := Some(Job(map[LABEL := id.name], Some(suspend), pod, NEW_JOB_STATUS));
    }

    method CreateJob(key: Key, job: Job) returns (created: Created)
      modifies api
      ensures Step(api.world, created) == CreateMissing(old(api.world), key, job)
    {
      var ok, view := api.Call(GetJob(key));
      if !ok {
        return CreateFailed;
      }
      if key !in view.jobs {
        if job.suspend == Some(true) {
          return CreateSkipped;
        }
        ok, view := api.Call(Op.CreateJob(key, job));
        return if ok then CreatedNow else CreateFailed;
      }
      return Existing(view.jobs[key]);
    }

    method AdoptJob(wb: WorkbenchObject, uid: string, key: Key, job: Job, existing: Job) returns (end: Option<Verdict>)
      modifies api, wb
      ensures Pass(api.world, wb.Value(), end) ==
        Adopt(Pass(old(api.world), old(wb.Value()), None), uid, key, job, existing)
    {
      end := None;
      var statusUpdated := wb.UpdateStatusFromJob(uid, existing);
      if statusUpdated {
        UpdateStatus(wb);
      }
      var next := existing;
      if job.suspend.Some? && (next.suspend.None? || next.suspend.value != job.suspend.value) {
        next := next.(suspend := job.suspend);
        var ok, _ := api.Call(UpdateJob(key, existing, next));
        if !ok {
          end := Some(Error);
        }
      }
    }

    method ReconcileApp(wb: WorkbenchObject, images: Jobs.Images, uid: string, found: seq<string>)
      returns (end: Option<Verdict>, found': seq<string>)
      requires uid in wb.spec.apps
      modifies api, wb
      ensures Apps(Pass(api.world, wb.Value(), end), found') ==
        AppStep(Apps(Pass(old(api.world), old(wb.Value()), None), found), config, images, uid)
    {
      end, found' := None, found;
      var app := wb.spec.apps[uid];
      var job := InitJob(wb.id, wb.spec, images, app);
      if job.None? {
        var updated := wb.SetAppStatusFailed(uid);
        if updated {
          UpdateStatus(wb);
        }
        return;
      }
      var key := Jobs.JobKey(wb.id, uid, app);
      var created := CreateJob(key, job.value);
      if created.CreateSkipped? {
        return;
      }
      if created.CreateFailed? {
        return Some(Error), found;
      }
      found' := found' + [key.name];
      if created.Existing? {
        end := AdoptJob(wb, uid, key, job.value, created.job);
      }
    }

    /** The loop over the app map, in an order of Go's choosing. */
    method ReconcileApps(wb: WorkbenchObject, images: Jobs.Images)
      returns (end: Option<Verdict>, found: seq<string>, ghost order: seq<string>)
      requires wb.read.spec == wb.spec
      modifies api, wb
      ensures Convergence.Enumerates(order, old(wb.spec).apps.Keys)
      ensures Apps(Pass(api.world, wb.Value(), end), found) ==
        AppLoop(Apps(Pass(old(api.world), old(wb.Value()), None), []), config, images, order)
    {
      end, found, order := None, [], [];
      ghost var start := Apps(Pass(api.world, wb.Value(), None), []);
      var spec := wb.spec;
      var remaining := spec.apps.Keys;
      while remaining != {}
        invariant end.None? && remaining <= spec.apps.Keys && wb.spec == wb.read.spec == spec
        invariant Convergence.Enumerates(order, spec.apps.Keys - remaining)
        invariant Apps(Pass(api.world, wb.Value(), None), found) == AppLoop(start, config, images, order)
        decreases remaining
      {
        var uid :| uid in remaining;
        label before:
        end, found := ReconcileApp(wb, images, uid, found);
        assert (order + [uid])[..|order|] == order;
        Traces.StepKeepsSpec(AppLoop(start, config, images, order), config, images, uid);
        remaining := remaining - {uid};
        order := order + [uid];
        assert Convergence.Enumerates(order, spec.apps.Keys - remaining);
        if end.Some? {
          order := FullOrder(start, config, images, order, spec.apps.Keys, remaining);
          return;
        }
      }
      assert spec.apps.Keys - remaining == spec.apps.Keys;
    }

    /** Deletes the listed jobs that were not found, by binary search in the sorted names. */
    method SweepJobs(wb: WorkbenchObject, found: seq<string>) returns (end: Option<Verdict>, ghost order: seq<Key>)
      modifies api
      ensures Pass(api.world, wb.Value(), end) == Sweep(Pass(old(api.world), wb.Value(), None), found, order)
      ensures Convergence.Enumerates(order, ListedJobs(Snapshot(old(api.world)), wb.id.name))
    {
      end, order := None, [];
      var ok, view := api.Call(ListJobs(wb.id.name));
      var items := ListedJobs(view, wb.id.name);
      if !ok {
        order := Convergence.SomeOrder(items);
        end := Some(Error);
        return;
      }
      var names := Sorting.Sort(found);
      assert forall name :: name in names <==> name in multiset(names) <==> name in multiset(found) <==> name in found;
      ghost var start := Pass(api.world, wb.Value(), None);
      var remaining := items;
      while remaining != {}
        invariant end.None? && remaining <= items
        invariant Convergence.Enumerates(order, items - remaining)
        invariant Pass(api.world, wb.Value(), None) == SweepLoop(start, found, items, order)
        decreases remaining
      {
        var key :| key in remaining;
        assert (order + [key])[..|order|] == order;
        remaining := remaining - {key};
        order := order + [key];
        assert Convergence.Enumerates(order, items - remaining);
        var _, known := Sorting.BinarySearch(names, key.name);
        if known {
          continue;
        }
        ok, view := api.Call(DeleteJob(key));
        if !ok {
          end := Some(Error);
          ghost var rest := Convergence.SomeOrder(remaining);
          Convergence.Extended(order, items - remaining, rest, remaining);
          SweepEnded(start, found, items, order, rest);
          order := order + rest;
          assert items - remaining + remaining == items;
          return;
        }
      }
      assert items - remaining == items;
    }

    method ReconcileApplications(wb: WorkbenchObject, images: Jobs.Images)
      returns (end: Option<Verdict>, ghost apps: seq<string>, ghost jobs: seq<Key>)
      requires wb.read.spec == wb.spec
      modifies api, wb
      ensures forall now: int ::
        (Pass(api.world, wb.Value(), end) ==
         Applications(Pass(old(api.world), old(wb.Value()), None), config, Choice(apps, jobs, images, now)))
      ensures ServerReady(old(wb.Value())) ==> forall now: int ::
        Convergence.TakesOrders(Pass(old(api.world), old(wb.Value()), None), config, Choice(apps, jobs, images, now))
    {
      apps, jobs := [], [];
      var ready := wb.status.server.pod.Some? && wb.status.server.pod.value.ready;
      if !ready {
        return Some(Requeue(2)), apps, jobs;
      }
      var found;
      end, found, apps := ReconcileApps(wb, images);
      if end.Some? {
        return;
      }
      end, jobs := SweepJobs(wb, found);
    }

    // ------------------------------------------------------------------ pass

    /** One pass. `choice` records the orders that were taken. */
    method Reconcile(id: Key, images: Jobs.Images, now: int) returns (verdict: Verdict, ghost choice: Choice)
      modifies api
      ensures api.world == Controller.Reconcile(old(api.world), id, config, choice).w
      ensures verdict == Controller.Reconcile(old(api.world), id, config, choice).verdict
      ensures choice.images == images && choice.now == now
      ensures FullPass.GoOrders(old(api.world), id, config, choice)
    {
      choice := Choice([], [], images, now);
      var ok, view := api.Call(GetWorkbench(id));
      if !ok {
        return Error, choice;
      }
      if id !in view.workbenches {
        return Done, choice;
      }
      var wb := new WorkbenchObject(id, view.workbenches[id]);
      if wb.deleting {
        verdict := Finalize(wb);
        return;
      }
      ghost var order, jobs;
      var end;
      end, order, jobs := ReconcileActive(wb, images, now);
      choice := choice.(apps := order, jobs := jobs);
      verdict := if end.Some? then end.value else Done;
    }

    method ReconcileActive(wb: WorkbenchObject, images: Jobs.Images, now: int)
      returns (end: Option<Verdict>, ghost order: seq<string>, ghost jobs: seq<Key>)
      requires wb.read.spec == wb.spec
      modifies api, wb
      ensures Pass(api.world, wb.Value(), end) ==
        Converge(old(api.world), old(wb.Value()), config, Choice(order, jobs, images, now))
      ensures var b := UpToGate(old(api.world), old(wb.Value()), config, now);
        b.end.None? && ServerReady(b.mem) ==> Convergence.TakesOrders(b, config, Choice(order, jobs, images, now))
    {
      order, jobs := [], [];
      end := AddFinalizer(wb);
      if end.Some? {
        return;
      }
      ghost var kept := Pass(api.world, wb.Value(), None);
      end := ReconcileServer(wb, now);
      Traces.ServerKeepsSpec(kept, config, now);
      if end.Some? {
        return;
      }
      ghost var server := Pass(api.world, wb.Value(), None);
      var ok := CreateService(wb.id);
      if !ok {
        return Some(Error), order, jobs;
      }
      var _ := ProcessEnabledStorage(wb.id, wb.spec);
      assert Pass(api.world, wb.Value(), None) == Prepare(server, config);
      end, order, jobs := ReconcileApplications(wb, images);
    }
  }
}
