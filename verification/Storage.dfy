/**
 The storage manager: the providers, the names they build, and the create-once protocol that gives a
 workbench namespace one volume and one claim per provider.
 */
module Storage {
  import opened Options
  import opened Objects
  import opened Api

  datatype StorageType = S3 | NFS | Local

  /** A provider's constants. `required` are the fields its secret must fill; `appData` says whether it
      also mounts the application data. */
  datatype Provider = Provider(
    storage: StorageType,
    driver: string,
    secret: Key,
    required: seq<string>,
    mountType: string,
    claimLabel: string,
    appData: bool)

  function S3Provider(config: Config): Provider {
    Provider(S3, "csi.juicefs.com", config.juicefsSecret, ["name"], "archive", "use-juicefs", true)
  }

  function NfsProvider(config: Config): Provider {
    Provider(NFS, "nfs.csi.k8s.io", config.nfsSecret, ["server", "share"], "scratch", "", false)
  }

  function LocalProvider(): Provider {
    Provider(Local, "", Key("", ""), [], "local", "", true)
  }

  /** The manager's providers; the local one exists only when the operator enables it. */
  function Manager(config: Config): map<StorageType, Provider> {
    map[S3 := S3Provider(config), NFS := NfsProvider(config)] +
      if config.localEnabled then map[Local := LocalProvider()] else map[]
  }

  /** A missing storage section means S3 and NFS. */
  function Wanted(spec: Spec): StorageConfig {
    if spec.storage.Some? then spec.storage.value else StorageConfig(true, true, false)
  }

  function EnabledProviders(config: Config, spec: Spec): seq<Provider> {
    var wanted, providers := Wanted(spec), Manager(config);
    (if wanted.s3 && S3 in providers then [providers[S3]] else []) +
    (if wanted.nfs && NFS in providers then [providers[NFS]] else []) +
    (if wanted.local && Local in providers then [providers[Local]] else [])
  }

  // ----------------------------------------------------------------- names

  function VolumeName(p: Provider): string { "workspace-" + p.mountType }

  function ClaimName(p: Provider, ns: string): string { ns + "-" + p.mountType + "-pvc" }

  function ClaimKey(p: Provider, id: Key): Key { Key(id.ns, ClaimName(p, id.ns)) }

  function PersistentVolumeName(p: Provider, ns: string): string { ns + "-" + p.mountType + "-pv" }

  function VolumeHandle(p: Provider, ns: string): string { ns + "-" + p.mountType }

  function DataPath(ns: string): string { "workspaces/" + ns + "/data" }

  function AppDataPath(ns: string, user: string): string { "workspaces/" + ns + "/app_data/" + user }

  function VolumeSpec(p: Provider, claim: string): PodVolume {
    PodVolume(VolumeName(p), ClaimSource(claim))
  }

  function MountSpecs(p: Provider, user: string, ns: string): seq<Mount> {
    [Mount(VolumeName(p), "/mnt/workspace-" + p.mountType, DataPath(ns))] +
    if p.appData then [Mount(VolumeName(p), "/mnt/app_data", AppDataPath(ns, user))] else []
  }

  // ------------------------------------------------------------- detection

  function Field(data: map<string, string>, field: string): string {
    if field in data then data[field] else ""
  }

  /** A secret with all the fields the provider needs. */
  predicate Filled(p: Provider, data: map<string, string>) {
    forall f | f in p.required :: Field(data, f) != ""
  }

  function SecretConfig(w: World, p: Provider): Step<Option<map<string, string>>> {
    var op := GetSecret(p.secret);
    var secrets := Snapshot(w).secrets;
    Step(After(w, op),
         if Ok(w, op) && p.secret in secrets && Filled(p, secrets[p.secret]) then Some(secrets[p.secret]) else None)
  }

  function HasDriver(w: World, config: Config, p: Provider): Step<bool> {
    if p.storage == Local then Step(w, config.localEnabled)
    else
      var op := GetDriver(p.driver);
      Step(After(w, op), Ok(w, op) && p.driver in Snapshot(w).drivers)
  }

  function HasSecret(w: World, config: Config, p: Provider): Step<bool> {
    if p.storage == Local then Step(w, config.localEnabled)
    else
      var s := SecretConfig(w, p);
      Step(s.w, s.value.Some?)
  }

  // -------------------------------------------------------------- creation

  function HostPath(config: Config): string {
    if config.hostPath == "" then "/tmp/workbench-local-storage" else config.hostPath
  }

  /** The volume a provider would create from its secret. */
  function VolumeFor(config: Config, p: Provider, ns: string, data: map<string, string>): PersistentVolume {
    match p.storage
    case S3 =>
      CsiVolume(p.driver, VolumeHandle(p, ns), map["name" := Field(data, "name"), "path" := "/"], Some(p.secret))
    case NFS =>
      CsiVolume(p.driver, VolumeHandle(p, ns),
                map["server" := Field(data, "server"), "share" := Field(data, "share")], None)
    case Local => HostVolume(HostPath(config), ns)
  }

  function BuildVolume(w: World, config: Config, p: Provider, ns: string): Step<Option<PersistentVolume>> {
    if p.storage == Local then Step(w, Some(VolumeFor(config, p, ns, map[])))
    else
      var s := SecretConfig(w, p);
      Step(s.w, if s.value.Some? then Some(VolumeFor(config, p, ns, s.value.value)) else None)
  }

  function ClaimFor(p: Provider, ns: string): Claim {
    Claim(if p.claimLabel != "" then map[p.claimLabel := "true"] else map[], PersistentVolumeName(p, ns))
  }

  function SetupKey(p: Provider, ns: string): Key {
    Key(ns, (if p.storage == NFS then "nfs-mkdir-" else "local-mkdir-") + ns)
  }

  const SETUP_RESOURCES :=
    Resources(map["cpu" := 100, "memory" := 64 * MI], map["cpu" := 10, "memory" := 16 * MI])

  /** The job that makes the directories of a new volume. It carries the workbench label. */
  function SetupJob(config: Config, p: Provider, id: Key, data: map<string, string>): Job {
    var nfs := p.storage == NFS;
    var volume := if nfs then "nfs-volume" else "local-volume";
    var source := if nfs then NfsSource(Field(data, "server"), Field(data, "share")) else HostSource(HostPath(config));
    var path := if nfs then "/nfs" else "/local";
    Job(map["app" := if nfs then "nfs-directory-creator" else "local-directory-creator", LABEL := id.name],
        None,
        PodSpec("", [PodVolume(volume, source)], [],
                [Container("mkdir", "busybox:latest", [Mount(volume, path, "")], SETUP_RESOURCES)]),
        NEW_JOB_STATUS)
  }

  function Setup(w: World, config: Config, id: Key, p: Provider): Step<bool> {
    match p.storage
    case S3 => Step(w, true)
    case NFS =>
      var s := SecretConfig(w, p);
      if s.value.None? then Step(s.w, false)
      else
        var op := CreateJob(SetupKey(p, id.ns), SetupJob(config, p, id, s.value.value));
        Step(After(s.w, op), Ok(s.w, op))
    case Local =>
      var op := CreateJob(SetupKey(p, id.ns), SetupJob(config, p, id, map[]));
      Step(After(w, op), Ok(w, op))
  }

  function EnsureVolume(w: World, config: Config, id: Key, p: Provider, volume: PersistentVolume): Step<bool> {
    var name := PersistentVolumeName(p, id.ns);
    var get := GetVolume(name);
    var w1 := After(w, get);
    if !Ok(w, get) then Step(w1, false)
    else if name in Snapshot(w).volumes then Step(w1, true)
    else
      var setup := Setup(w1, config, id, p);
      if !setup.value then setup
      else
        var create := CreateVolume(name, volume);
        Step(After(setup.w, create), Ok(setup.w, create))
  }

  function EnsureClaim(w: World, id: Key, p: Provider): Step<bool> {
    var key := ClaimKey(p, id);
    var get := GetClaim(key);
    var w1 := After(w, get);
    if !Ok(w, get) then Step(w1, false)
    else if key in Snapshot(w).claims then Step(w1, true)
    else
      var create := CreateClaim(key, ClaimFor(p, id.ns));
      Step(After(w1, create), Ok(w1, create))
  }

  datatype Result = Skipped | Broken | Provided(claim: string)

  /** One provider's turn. */
  function Turn(w: World, config: Config, id: Key, p: Provider): Step<Result> {
    var driver := HasDriver(w, config, p);
    if !driver.value then Step(driver.w, Skipped)
    else
      var secret := HasSecret(driver.w, config, p);
      if !secret.value then Step(secret.w, Skipped)
      else
        var volume := BuildVolume(secret.w, config, p, id.ns);
        if volume.value.None? then Step(volume.w, Broken)
        else
          var ensured := EnsureVolume(volume.w, config, id, p, volume.value.value);
          if !ensured.value then Step(ensured.w, Broken)
          else
            var claimed := EnsureClaim(ensured.w, id, p);
            Step(claimed.w, if claimed.value then Provided(ClaimName(p, id.ns)) else Broken)
  }

  /** All the turns, in order; a broken one does not stop the next. */
  function Process(w: World, config: Config, id: Key, providers: seq<Provider>): Step<map<StorageType, string>> {
    if providers == [] then Step(w, map[])
    else
      var n := |providers| - 1;
      var earlier := Process(w, config, id, providers[..n]);
      var turn := Turn(earlier.w, config, id, providers[n]);
      Step(turn.w,
           if turn.value.Provided? then earlier.value[providers[n].storage := turn.value.claim] else earlier.value)
  }

  /** The enabled providers whose secret is usable now. Neither driver nor claim is looked at. */
  function Active(w: World, config: Config, providers: seq<Provider>): Step<seq<Provider>> {
    if providers == [] then Step(w, [])
    else
      var n := |providers| - 1;
      var earlier := Active(w, config, providers[..n]);
      var secret := HasSecret(earlier.w, config, providers[n]);
      Step(secret.w, if secret.value then earlier.value + [providers[n]] else earlier.value)
  }

  function VolumesOf(providers: seq<Provider>, ns: string): seq<PodVolume> {
    if providers == [] then []
    else
      var n := |providers| - 1;
      VolumesOf(providers[..n], ns) + [VolumeSpec(providers[n], ClaimName(providers[n], ns))]
  }

  function MountsOf(providers: seq<Provider>, user: string, ns: string): seq<Mount> {
    if providers == [] then []
    else
      var n := |providers| - 1;
      MountsOf(providers[..n], user, ns) + MountSpecs(providers[n], user, ns)
  }

  lemma OneMore(providers: seq<Provider>, p: Provider, user: string, ns: string)
    ensures VolumesOf(providers + [p], ns) == VolumesOf(providers, ns) + [VolumeSpec(p, ClaimName(p, ns))]
    ensures MountsOf(providers + [p], user, ns) == MountsOf(providers, user, ns) + MountSpecs(p, user, ns)
  {
    assert (providers + [p])[..|providers|] == providers;
  }

  lemma ActiveTake(w: World, config: Config, providers: seq<Provider>, i: nat)
    requires i < |providers|
    ensures var earlier := Active(w, config, providers[..i]);
      var secret := HasSecret(earlier.w, config, providers[i]);
      Active(w, config, providers[..i + 1]) ==
      Step(secret.w, if secret.value then earlier.value + [providers[i]] else earlier.value)
  {
    assert providers[..i + 1][..i] == providers[..i];
  }

  /** The requests a turn may issue. */
  predicate TurnOp(op: Op, id: Key) {
    match op
    case GetDriver(_) => true
    case GetSecret(_) => true
    case GetVolume(_) => true
    case CreateVolume(_, _) => true
    case GetClaim(_) => true
    case CreateClaim(_, _) => true
    case CreateJob(key, job) => key.ns == id.ns && Labelled(job.labels, id.name) && "app" in job.labels
    case _ => false
  }

  /** An invariant that those requests keep. */
  ghost predicate KeptByTurns(inv: World -> bool, id: Key) {
    forall x, op :: inv(x) && TurnOp(op, id) ==> inv(After(x, op))
  }

  lemma SetupKeeps(w: World, config: Config, id: Key, p: Provider, inv: World -> bool)
    requires inv(w) && KeptByTurns(inv, id)
    ensures inv(Setup(w, config, id, p).w)
  {
    hide Ok, Snapshot, Filled;
  }

  lemma EnsureVolumeKeeps(w: World, config: Config, id: Key, p: Provider, volume: PersistentVolume, inv: World -> bool)
    requires inv(w) && KeptByTurns(inv, id)
    ensures inv(EnsureVolume(w, config, id, p, volume).w)
  {
    var get := GetVolume(PersistentVolumeName(p, id.ns));
    assert inv(After(w, get)) by { assert TurnOp(get, id); }
    SetupKeeps(After(w, get), config, id, p, inv);
    assert TurnOp(CreateVolume(PersistentVolumeName(p, id.ns), volume), id);
  }

  lemma EnsureClaimKeeps(w: World, id: Key, p: Provider, inv: World -> bool)
    requires inv(w) && KeptByTurns(inv, id)
    ensures inv(EnsureClaim(w, id, p).w)
  {
  }

  /** Whatever those requests keep, a turn keeps. */
  lemma TurnKeeps(w: World, config: Config, id: Key, p: Provider, inv: World -> bool)
    requires inv(w) && KeptByTurns(inv, id)
    ensures inv(Turn(w, config, id, p).w)
  {
    var driver := HasDriver(w, config, p);
    assert inv(driver.w) by { assert TurnOp(GetDriver(p.driver), id); }
    assert TurnOp(GetSecret(p.secret), id);
    var secret := HasSecret(driver.w, config, p);
    assert inv(secret.w);
    var volume := BuildVolume(secret.w, config, p, id.ns);
    assert inv(volume.w);
    if volume.value.Some? {
      EnsureVolumeKeeps(volume.w, config, id, p, volume.value.value, inv);
      EnsureClaimKeeps(EnsureVolume(volume.w, config, id, p, volume.value.value).w, id, p, inv);
    }
  }

  lemma {:induction false} ProcessKeeps(w: World, config: Config, id: Key, providers: seq<Provider>, inv: World -> bool)
    requires inv(w) && KeptByTurns(inv, id)
    ensures inv(Process(w, config, id, providers).w)
    decreases |providers|
  {
    if providers != [] {
      var n := |providers| - 1;
      ProcessKeeps(w, config, id, providers[..n], inv);
      TurnKeeps(Process(w, config, id, providers[..n]).w, config, id, providers[n], inv);
    }
  }

  lemma {:induction false} ActiveKeeps(w: World, config: Config, providers: seq<Provider>, inv: World -> bool)
    requires inv(w)
    requires forall x, key :: inv(x) ==> inv(After(x, GetSecret(key)))
    ensures inv(Active(w, config, providers).w)
    decreases |providers|
  {
    if providers != [] {
      var n := |providers| - 1;
      ActiveKeeps(w, config, providers[..n], inv);
      var earlier := Active(w, config, providers[..n]);
      assert inv(After(earlier.w, GetSecret(providers[n].secret)));
    }
  }
}
