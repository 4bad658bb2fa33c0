/**
 The storage protocol: what is backed by what in every state of every run, that providers do not affect
 one another, and exactly which claims an undisturbed pass leaves behind.
 */
module StorageProofs {
  import opened Objects
  import opened Api
  import opened StatusUpdates
  import opened Controller
  import opened Storage
  import opened Safety
  import Traces

  // ------------------------------------------------------- over whole runs

  /** Every claim names a volume that exists. */
  predicate ClaimsBacked(c: Cluster) {
    forall k | k in c.claims :: c.claims[k].volumeName in c.volumes
  }

  ghost predicate Submap<K, V>(m: map<K, V>, n: map<K, V>) {
    forall k | k in m :: k in n && n[k] == m[k]
  }

  predicate IsSetup(op: Op) { op.CreateJob? && "app" in op.job.labels }

  /** The volume whose directories a setup job prepares. */
  function SetupVolume(op: Op): string
    requires IsSetup(op)
  {
    if op.job.labels["app"] == "nfs-directory-creator" then op.key.ns + "-scratch-pv" else op.key.ns + "-local-pv"
  }

  /** One served request: a claim is created over an existing volume, a setup runs only while its volume is
      absent, and volumes and claims never go. */
  ghost predicate StorageEvent(e: Event) {
    && (e.op.CreateClaim? ==> e.op.claim.volumeName in e.before.volumes)
    && (IsSetup(e.op) ==> SetupVolume(e.op) !in e.before.volumes)
    && Submap(e.before.volumes, e.after.volumes) && Submap(e.before.claims, e.after.claims)
    && ClaimsBacked(e.before) && ClaimsBacked(e.after)
  }

  ghost predicate StorageTrace(w: World) {
    ClaimsBacked(w.cluster) && forall e | e in w.log :: StorageEvent(e)
  }

  lemma ActStorage(c: Cluster, step: EnvStep)
    ensures Act(c, step).volumes == c.volumes && Act(c, step).claims == c.claims
  {
  }

  lemma {:induction false} EnvironmentStorage(c: Cluster, steps: seq<EnvStep>)
    ensures Environment(c, steps).volumes == c.volumes && Environment(c, steps).claims == c.claims
    decreases |steps|
  {
    if steps != [] {
      ActStorage(c, steps[0]);
      EnvironmentStorage(Act(c, steps[0]), steps[1..]);
    }
  }

  lemma ApplyStorage(c: Cluster, op: Op, spared: set<Key>)
    requires Accepts(c, op) && ClaimsBacked(c)
    requires op.CreateClaim? ==> op.claim.volumeName in c.volumes
    ensures var d := Apply(c, op, spared);
      && ClaimsBacked(d) && Submap(c.volumes, d.volumes) && Submap(c.claims, d.claims)
      && (!op.CreateVolume? ==> d.volumes == c.volumes)
  {
  }

  lemma BackedAlike(c: Cluster, d: Cluster)
    requires c.volumes == d.volumes && c.claims == d.claims
    ensures ClaimsBacked(c) <==> ClaimsBacked(d)
  {
  }

  lemma StorageCall(w: World, op: Op)
    requires StorageTrace(w)
    requires op.CreateClaim? ==> op.claim.volumeName in w.cluster.volumes
    requires IsSetup(op) ==> SetupVolume(op) !in w.cluster.volumes
    ensures StorageTrace(After(w, op))
    ensures Submap(w.cluster.volumes, After(w, op).cluster.volumes)
    ensures !op.CreateVolume? ==> After(w, op).cluster.volumes == w.cluster.volumes
    ensures Snapshot(w).volumes == w.cluster.volumes
    ensures op.CreateVolume? && Ok(w, op) ==> op.name in After(w, op).cluster.volumes
  {
    hide ClaimsBacked, SetupVolume;
    EnvironmentStorage(w.cluster, NextTick(w).env);
    var c, tick := Snapshot(w), NextTick(w);
    BackedAlike(w.cluster, c);
    if Accepts(c, op) {
      ApplyStorage(c, op, {});
      ApplyStorage(c, op, if tick.fault.Lost? then tick.fault.spared else {});
    }
  }

  /** The three providers as the manager builds them. */
  predicate Known(p: Provider, config: Config) {
    p == S3Provider(config) || p == NfsProvider(config) || p == LocalProvider()
  }

  lemma EnabledKnown(config: Config, spec: Spec)
    ensures forall p | p in EnabledProviders(config, spec) :: Known(p, config)
  {
  }

  lemma SetupNames(config: Config, id: Key, p: Provider, data: map<string, string>)
    requires Known(p, config) && p.storage != S3
    ensures var op := CreateJob(SetupKey(p, id.ns), SetupJob(config, p, id, data));
      IsSetup(op) && SetupVolume(op) == PersistentVolumeName(p, id.ns)
  {
    var labels := SetupJob(config, p, id, data).labels;
    if p.storage == NFS {
      assert labels["app"] == "nfs-directory-creator" && p.mountType == "scratch";
      Hyphens(id.ns, "scratch", "-scratch-pv");
    } else {
      assert labels["app"] == "local-directory-creator" && p.mountType == "local";
      assert labels["app"][0] == 'l' && "nfs-directory-creator"[0] == 'n';
      Hyphens(id.ns, "local", "-local-pv");
    }
  }

  lemma Hyphens(ns: string, mountType: string, suffix: string)
    requires suffix == "-" + mountType + "-pv"
    ensures ns + suffix == ns + "-" + mountType + "-pv"
  {
    assert ns + ("-" + mountType + "-pv") == ns + "-" + mountType + "-pv";
  }

  lemma SetupStorage(w: World, config: Config, id: Key, p: Provider)
    requires StorageTrace(w) && Known(p, config) && PersistentVolumeName(p, id.ns) !in w.cluster.volumes
    ensures StorageTrace(Setup(w, config, id, p).w)
  {
    if p.storage == NFS {
      var s := SecretConfig(w, p);
      StorageCall(w, GetSecret(p.secret));
      if s.value.Some? {
        SetupNames(config, id, p, s.value.value);
        StorageCall(s.w, CreateJob(SetupKey(p, id.ns), SetupJob(config, p, id, s.value.value)));
      }
    } else if p.storage == Local {
      SetupNames(config, id, p, map[]);
      StorageCall(w, CreateJob(SetupKey(p, id.ns), SetupJob(config, p, id, map[])));
    }
  }

  lemma EnsureVolumeStorage(w: World, config: Config, id: Key, p: Provider, volume: PersistentVolume)
    requires StorageTrace(w) && Known(p, config)
    ensures var e := EnsureVolume(w, config, id, p, volume);
      StorageTrace(e.w) && (e.value ==> PersistentVolumeName(p, id.ns) in e.w.cluster.volumes)
  {
    var name := PersistentVolumeName(p, id.ns);
    StorageCall(w, GetVolume(name));
    var w1 := After(w, GetVolume(name));
    if name !in w1.cluster.volumes {
      SetupStorage(w1, config, id, p);
      var setup := Setup(w1, config, id, p);
      StorageCall(setup.w, CreateVolume(name, volume));
    }
  }

  lemma EnsureClaimStorage(w: World, id: Key, p: Provider)
    requires StorageTrace(w) && PersistentVolumeName(p, id.ns) in w.cluster.volumes
    ensures StorageTrace(EnsureClaim(w, id, p).w)
  {
    var key := ClaimKey(p, id);
    StorageCall(w, GetClaim(key));
    StorageCall(After(w, GetClaim(key)), CreateClaim(key, ClaimFor(p, id.ns)));
  }

  lemma DetectionStorage(w: World, config: Config, id: Key, p: Provider)
    requires StorageTrace(w)
    ensures StorageTrace(HasDriver(w, config, p).w)
    ensures StorageTrace(HasSecret(w, config, p).w)
    ensures StorageTrace(BuildVolume(w, config, p, id.ns).w)
  {
    StorageCall(w, GetDriver(p.driver));
    StorageCall(w, GetSecret(p.secret));
  }

  lemma TurnStorage(w: World, config: Config, id: Key, p: Provider)
    requires StorageTrace(w) && Known(p, config)
    ensures StorageTrace(Turn(w, config, id, p).w)
  {
    DetectionStorage(w, config, id, p);
    var driver := HasDriver(w, config, p);
    DetectionStorage(driver.w, config, id, p);
    var secret := HasSecret(driver.w, config, p);
    DetectionStorage(secret.w, config, id, p);
    var volume := BuildVolume(secret.w, config, p, id.ns);
    if volume.value.Some? {
      EnsureVolumeStorage(volume.w, config, id, p, volume.value.value);
      var ensured := EnsureVolume(volume.w, config, id, p, volume.value.value);
      if ensured.value {
        EnsureClaimStorage(ensured.w, id, p);
      }
    }
  }

  lemma {:induction false} ProcessStorage(w: World, config: Config, id: Key, providers: seq<Provider>)
    requires StorageTrace(w) && forall p | p in providers :: Known(p, config)
    ensures StorageTrace(Process(w, config, id, providers).w)
    decreases |providers|
  {
    if providers != [] {
      var n := |providers| - 1;
      ProcessStorage(w, config, id, providers[..n]);
      TurnStorage(Process(w, config, id, providers[..n]).w, config, id, providers[n]);
    }
  }

  ghost function Backed(): World -> bool { (x: World) => StorageTrace(x) }

  lemma OtherPhases(id: Key)
    ensures Traces.KeptByServer(Backed(), id) && Traces.KeptByApps(Backed(), id) && Traces.KeptByPush(Backed(), id)
  {
    forall x, op | Backed()(x) && (Traces.ServerOp(op, id) || Traces.AppOp(op, id) || Traces.PushOp(op, id))
      ensures Backed()(After(x, op))
    {
      StorageCall(x, op);
    }
  }

  lemma TeardownStorage(w: World, mem: Memory)
    requires StorageTrace(w)
    ensures StorageTrace(Teardown(w, mem).w)
  {
    var id := mem.id;
    StorageCall(w, ListJobs(id.name));
    StorageCall(After(w, ListJobs(id.name)), DeleteJobs(id.ns, id.name));
    var jobs := DeleteJobsOf(w, id);
    StorageCall(jobs.w, ListDeployments(id.name));
    StorageCall(After(jobs.w, ListDeployments(id.name)), DeleteDeployments(id.ns, id.name));
    var all := DeleteExternal(w, id);
    StorageCall(all.w, UpdateWorkbench(id, mem.read, mem.now.(finalizers := mem.now.finalizers - {FINALIZER})));
  }

  lemma ActiveStorage(kept: Pass, config: Config, choice: Choice)
    requires StorageTrace(kept.w) && kept.end.None?
    ensures StorageTrace(AfterFinalizer(kept, config, choice).w)
  {
    var id := kept.mem.id;
    OtherPhases(id);
    Traces.ServerKeeps(kept, config, choice.now, Backed());
    var server := Server(kept, config, choice.now);
    Traces.ServiceKeeps(server, Backed());
    var served := Service(server);
    EnabledKnown(config, served.mem.now.spec);
    ProcessStorage(served.w, config, id, EnabledProviders(config, served.mem.now.spec));
    Traces.ApplicationsKeeps(Prepare(server, config), config, choice, Backed());
  }

  lemma ReconcileStorage(w: World, id: Key, config: Config, choice: Choice)
    requires StorageTrace(w)
    ensures StorageTrace(Reconcile(w, id, config, choice).w)
  {
    var get := GetWorkbench(id);
    StorageCall(w, get);
    if Ok(w, get) && id in Snapshot(w).workbenches {
      var wb := Snapshot(w).workbenches[id];
      var mem := Memory(id, wb, wb);
      var w1 := After(w, get);
      TeardownStorage(w1, mem);
      StorageCall(w1, UpdateWorkbench(id, wb, wb.(finalizers := wb.finalizers + {FINALIZER})));
      var kept := EnsureFinalizer(w1, mem);
      if kept.end.None? {
        ActiveStorage(kept, config, choice);
      }
    }
  }

  /** Over every run, under any failures: claims stay backed, each claim was made over its volume, setups ran
      only for absent volumes, and no volume or claim was ever removed. */
  lemma {:induction false} StorageSafe(w: World, visits: seq<Visit>)
    requires StorageTrace(w)
    ensures StorageTrace(Run(w, visits))
    decreases |visits|
  {
    if visits != [] {
      var n := |visits| - 1;
      StorageSafe(w, visits[..n]);
      var v := visits[n];
      ReconcileStorage(Run(w, visits[..n]).(script := v.script), v.id, v.config, v.choice);
    }
  }
}
