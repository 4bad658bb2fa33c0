/** Well-formedness of the built jobs: volumes, mounts, and when two mounts meet at one path. */
module JobShape {
  import opened Api
  import opened Objects
  import opened Storage
  import Isolation
  import Jobs
  import Names
  import Text

  predicate Unique(s: seq<string>) { forall i, j | 0 <= i < j < |s| :: s[i] != s[j] }

  function VolumeNames(volumes: seq<PodVolume>): seq<string> {
    seq(|volumes|, i requires 0 <= i < |volumes| => volumes[i].name)
  }

  function Paths(mounts: seq<Mount>): seq<string> {
    seq(|mounts|, i requires 0 <= i < |mounts| => mounts[i].path)
  }

  lemma UniqueSnoc(s: seq<string>, x: string)
    ensures Unique(s + [x]) <==> Unique(s) && x !in s
  {
    var t := s + [x];
    assert t[|s|] == x && forall i | 0 <= i < |s| :: t[i] == s[i] && s[i] in s;
    if Unique(t) {
      forall i | 0 <= i < |s| ensures s[i] != x {
        assert t[i] != t[|s|];
      }
    }
  }

  lemma UniqueCons(x: string, s: seq<string>)
    ensures Unique([x] + s) <==> x !in s && Unique(s)
  {
    var t := [x] + s;
    assert t[0] == x && forall i | 0 <= i < |s| :: t[i + 1] == s[i] && s[i] in s;
    if Unique(t) {
      forall i | 0 <= i < |s| ensures s[i] != x {
        assert t[0] != t[i + 1];
      }
      forall i, j | 0 <= i < j < |s| ensures s[i] != s[j] {
        assert t[i + 1] != t[j + 1];
      }
    }
  }

  predicate DistinctMountTypes(providers: seq<Provider>) {
    forall i, j | 0 <= i < j < |providers| :: providers[i].mountType != providers[j].mountType
  }

  const APP_DATA := "/mnt/app_data"

  function DataMountPath(p: Provider): string { "/mnt/workspace-" + p.mountType }

  /** How many of the providers mount the application data. */
  function AppDataCount(providers: seq<Provider>): nat {
    if providers == [] then 0
    else AppDataCount(providers[..|providers| - 1]) + if providers[|providers| - 1].appData then 1 else 0
  }

  function MountedVolumes(mounts: seq<Mount>): set<string> { set m | m in mounts :: m.volume }

  function Declared(volumes: seq<PodVolume>): set<string> { set v | v in volumes :: v.name }

  /** The storage volumes: one per provider, named after its mount type. */
  lemma {:induction false} StorageVolumes(providers: seq<Provider>, ns: string)
    requires DistinctMountTypes(providers)
    ensures |VolumesOf(providers, ns)| == |providers|
    ensures forall i | 0 <= i < |providers| :: VolumesOf(providers, ns)[i].name == VolumeName(providers[i])
    ensures Unique(VolumeNames(VolumesOf(providers, ns)))
  {
    if providers != [] {
      var n := |providers| - 1;
      StorageVolumes(providers[..n], ns);
      var names := VolumeNames(VolumesOf(providers[..n], ns));
      assert VolumeNames(VolumesOf(providers, ns)) == names + [VolumeName(providers[n])];
      forall i | 0 <= i < n ensures names[i] != VolumeName(providers[n]) {
        Names.ProviderNamesDistinct(providers[i], providers[n], ns);
      }
      UniqueSnoc(names, VolumeName(providers[n]));
    }
  }

  /** Every storage mount names its provider's volume; its path is the provider's own or the shared one. */
  lemma {:induction false} StorageMounts(providers: seq<Provider>, user: string, ns: string)
    ensures forall m | m in MountsOf(providers, user, ns) ::
      exists p | p in providers :: m.volume == VolumeName(p) && (m.path == DataMountPath(p) || m.path == APP_DATA)
  {
    if providers != [] {
      var n := |providers| - 1;
      var p, earlier := providers[n], MountsOf(providers[..n], user, ns);
      StorageMounts(providers[..n], user, ns);
      var all := MountsOf(providers, user, ns);
      assert all == earlier + MountSpecs(p, user, ns);
      forall m | m in all
        ensures exists q | q in providers ::
          m.volume == VolumeName(q) && (m.path == DataMountPath(q) || m.path == APP_DATA)
      {
        if m in earlier {
          var q :| q in providers[..n] && m.volume == VolumeName(q)
            && (m.path == DataMountPath(q) || m.path == APP_DATA);
          assert q in providers;
        } else {
          assert m in MountSpecs(p, user, ns) && p in providers;
        }
      }
    }
  }

  function SpecPaths(p: Provider): seq<string> {
    [DataMountPath(p)] + if p.appData then [APP_DATA] else []
  }

  lemma PathsStep(providers: seq<Provider>, user: string, ns: string)
    requires providers != []
    ensures var n := |providers| - 1;
      Paths(MountsOf(providers, user, ns)) == Paths(MountsOf(providers[..n], user, ns)) + SpecPaths(providers[n])
  {
  }

  lemma {:induction false} AppDataMounted(providers: seq<Provider>, user: string, ns: string)
    ensures APP_DATA in Paths(MountsOf(providers, user, ns)) <==> AppDataCount(providers) > 0
  {
    if providers != [] {
      var n := |providers| - 1;
      AppDataMounted(providers[..n], user, ns);
      PathsStep(providers, user, ns);
      DataIsNotAppData(providers[n]);
      assert APP_DATA in SpecPaths(providers[n]) <==> providers[n].appData;
    }
  }

  lemma DataIsNotAppData(p: Provider)
    ensures DataMountPath(p) != APP_DATA
  {
  }

  lemma FreshDataPath(providers: seq<Provider>, user: string, ns: string, p: Provider)
    requires forall q | q in providers :: q.mountType != p.mountType
    ensures DataMountPath(p) !in Paths(MountsOf(providers, user, ns))
  {
    StorageMounts(providers, user, ns);
    var mounts := MountsOf(providers, user, ns);
    DataIsNotAppData(p);
    forall i | 0 <= i < |mounts| ensures mounts[i].path != DataMountPath(p) {
      assert mounts[i] in mounts;
      var q :| q in providers && (mounts[i].path == DataMountPath(q) || mounts[i].path == APP_DATA);
      if mounts[i].path == DataMountPath(p) {
        assert DataMountPath(p) == DataMountPath(q);
        assert "/mnt/workspace-" + p.mountType == "/mnt/workspace-" + q.mountType;
        Text.PrefixCancel("/mnt/workspace-", p.mountType, q.mountType);
      }
    }
  }

  /** The storage mounts lie at different paths exactly if at most one provider mounts the application data. */
  lemma {:induction false} StoragePaths(providers: seq<Provider>, user: string, ns: string)
    requires DistinctMountTypes(providers)
    ensures Unique(Paths(MountsOf(providers, user, ns))) <==> AppDataCount(providers) <= 1
  {
    if providers != [] {
      var n := |providers| - 1;
      var p, earlier := providers[n], Paths(MountsOf(providers[..n], user, ns));
      StoragePaths(providers[..n], user, ns);
      AppDataMounted(providers[..n], user, ns);
      forall q | q in providers[..n] ensures q.mountType != p.mountType {
        var i :| 0 <= i < n && providers[i] == q;
      }
      FreshDataPath(providers[..n], user, ns, p);
      PathsStep(providers, user, ns);
      AddSpecPaths(earlier, p);
    }
  }

  lemma AddSpecPaths(earlier: seq<string>, p: Provider)
    requires DataMountPath(p) !in earlier
    ensures Unique(earlier + SpecPaths(p)) <==> Unique(earlier) && (p.appData ==> APP_DATA !in earlier)
  {
    UniqueSnoc(earlier, DataMountPath(p));
    UniqueSnoc(earlier + [DataMountPath(p)], APP_DATA);
    DataIsNotAppData(p);
    if p.appData {
      assert earlier + SpecPaths(p) == earlier + [DataMountPath(p)] + [APP_DATA];
    } else {
      assert earlier + SpecPaths(p) == earlier + [DataMountPath(p)];
    }
  }

  lemma OwnPathsFree(providers: seq<Provider>, user: string, ns: string)
    ensures "/home" !in Paths(MountsOf(providers, user, ns)) && "/dev/shm" !in Paths(MountsOf(providers, user, ns))
  {
    StorageMounts(providers, user, ns);
    var mounts := MountsOf(providers, user, ns);
    forall i | 0 <= i < |mounts| ensures mounts[i].path != "/home" && mounts[i].path != "/dev/shm" {
      assert mounts[i] in mounts;
      assert |mounts[i].path| > 8;
    }
  }

  lemma OwnPaths(storage: seq<string>, shm: bool)
    requires "/home" !in storage && "/dev/shm" !in storage
    ensures Unique(["/home"] + storage) <==> Unique(storage)
    ensures Unique(["/dev/shm"] + (["/home"] + storage)) <==> Unique(storage)
  {
    UniqueCons("/home", storage);
    UniqueCons("/dev/shm", ["/home"] + storage);
  }

  lemma ContainerPaths(id: Key, config: Config, spec: Spec, app: App, active: seq<Provider>)
    requires app.image.Some?
    ensures var pod := Jobs.PodFor(id, config, spec, app, active);
      var storage := Paths(MountsOf(active, spec.user, id.ns));
      && Paths(pod.init[0].mounts) == ["/home"] + storage
      && Paths(pod.main[0].mounts) ==
        if app.shm.Some? then ["/dev/shm"] + (["/home"] + storage) else ["/home"] + storage
  {
    hide MountsOf, VolumesOf;
  }

  /** The job of an app, for any active providers with distinct mount types: every mount names a declared
      volume, volumes have different names, and each container's mounts lie at different paths exactly if
      at most one provider mounts the application data. */
  lemma JobWellFormed(id: Key, config: Config, spec: Spec, app: App, active: seq<Provider>)
    requires app.image.Some? && DistinctMountTypes(active)
    ensures var pod := Jobs.PodFor(id, config, spec, app, active);
      && |pod.init| == |pod.main| == 1
      && MountedVolumes(pod.main[0].mounts) + MountedVolumes(pod.init[0].mounts) <= Declared(pod.volumes)
      && Unique(VolumeNames(pod.volumes))
      && (Unique(Paths(pod.main[0].mounts)) <==> AppDataCount(active) <= 1)
      && (Unique(Paths(pod.init[0].mounts)) <==> AppDataCount(active) <= 1)
  {
    JobMounts(id, config, spec, app, active);
    JobVolumes(id, config, spec, app, active);
    StoragePaths(active, spec.user, id.ns);
    OwnPathsFree(active, spec.user, id.ns);
    OwnPaths(Paths(MountsOf(active, spec.user, id.ns)), app.shm.Some?);
    ContainerPaths(id, config, spec, app, active);
  }

  lemma JobMounts(id: Key, config: Config, spec: Spec, app: App, active: seq<Provider>)
    requires app.image.Some? && DistinctMountTypes(active)
    ensures var pod := Jobs.PodFor(id, config, spec, app, active);
      MountedVolumes(pod.main[0].mounts) + MountedVolumes(pod.init[0].mounts) <= Declared(pod.volumes)
  {
    var pod := Jobs.PodFor(id, config, spec, app, active);
    var storage, volumes := MountsOf(active, spec.user, id.ns), VolumesOf(active, id.ns);
    StorageMounts(active, spec.user, id.ns);
    StorageVolumes(active, id.ns);
    assert PodVolume("home", EmptyDir) in pod.volumes;
    forall m | m in storage ensures m.volume in Declared(pod.volumes) {
      var p :| p in active && m.volume == VolumeName(p);
      var i :| 0 <= i < |active| && active[i] == p;
      assert volumes[i] in pod.volumes;
    }
    if app.shm.Some? {
      assert PodVolume("shm", SharedMemory(app.shm.value)) in pod.volumes;
    }
    assert forall m | m in pod.init[0].mounts :: m in storage || m.volume == "home";
    assert forall m | m in pod.main[0].mounts ::
      m in storage || m.volume == "home" || (app.shm.Some? && m.volume == "shm");
  }

  lemma JobVolumes(id: Key, config: Config, spec: Spec, app: App, active: seq<Provider>)
    requires app.image.Some? && DistinctMountTypes(active)
    ensures Unique(VolumeNames(Jobs.PodFor(id, config, spec, app, active).volumes))
  {
    var volumes := VolumesOf(active, id.ns);
    StorageVolumes(active, id.ns);
    var names := VolumeNames(volumes);
    forall i | 0 <= i < |names| ensures names[i] != "home" && names[i] != "shm" {
      assert names[i] == VolumeName(active[i]) && |names[i]| >= 10;
    }
    UniqueCons("home", names);
    UniqueCons("shm", ["home"] + names);
    var all := VolumeNames(Jobs.PodFor(id, config, spec, app, active).volumes);
    if app.shm.Some? {
      assert all == ["shm"] + (["home"] + names);
    } else {
      assert all == ["home"] + names;
    }
  }

  // ------------------------------------------------- the jobs a pass builds

  predicate Has(providers: seq<Provider>, storage: StorageType) {
    exists p | p in providers :: p.storage == storage
  }

  /** As the manager builds them, all but the NFS provider mount the application data. */
  predicate MountsAsBuilt(providers: seq<Provider>) {
    forall p | p in providers :: p.appData <==> p.storage != NFS
  }

  lemma EnabledMounts(config: Config, spec: Spec)
    ensures MountsAsBuilt(EnabledProviders(config, spec))
  {
  }

  /** The active providers are among the enabled ones, each once. */
  lemma {:induction false} ActiveAmong(w: World, config: Config, providers: seq<Provider>)
    requires Isolation.Distinct(providers)
    ensures var active := Active(w, config, providers).value;
      Isolation.Distinct(active) && forall p | p in active :: p in providers
    decreases |providers|
  {
    if providers != [] {
      var n := |providers| - 1;
      var earlier := Active(w, config, providers[..n]).value;
      ActiveAmong(w, config, providers[..n]);
      assert forall p | p in earlier :: p in providers;
      forall i | 0 <= i < |earlier|
        ensures earlier[i].mountType != providers[n].mountType && earlier[i].storage != providers[n].storage
      {
        assert earlier[i] in providers[..n];
      }
    }
  }

  /** Only S3 and local storage count. */
  lemma {:induction false} CountByKind(active: seq<Provider>)
    requires Isolation.Distinct(active) && MountsAsBuilt(active)
    ensures AppDataCount(active) == (if Has(active, S3) then 1 else 0) + (if Has(active, Local) then 1 else 0)
    decreases |active|
  {
    if active != [] {
      var n := |active| - 1;
      CountByKind(active[..n]);
      assert active == active[..n] + [active[n]];
      forall s: StorageType ensures Has(active, s) <==> Has(active[..n], s) || active[n].storage == s {
        if Has(active[..n], s) {
          var p :| p in active[..n] && p.storage == s;
          assert p in active;
        }
        assert active[n] in active;
      }
      assert !Has(active[..n], active[n].storage);
    }
  }

  /** The job that a pass builds for an app, whatever it meets when it looks the secrets up: every mount names a
      declared volume, volumes have different names, and mounts meet at one path exactly if both S3 and local
      storage are active. */
  lemma BuiltJobWellFormed(w: World, id: Key, config: Config, spec: Spec, images: Jobs.Images, app: App)
    ensures var job := Jobs.InitJob(w, id, config, spec, images, app).value;
      var active := Active(w, config, EnabledProviders(config, spec)).value;
      job.Some? ==>
        var pod := job.value.pod;
        && |pod.init| == |pod.main| == 1
        && MountedVolumes(pod.main[0].mounts) + MountedVolumes(pod.init[0].mounts) <= Declared(pod.volumes)
        && Unique(VolumeNames(pod.volumes))
        && (Unique(Paths(pod.main[0].mounts)) <==> !(Has(active, S3) && Has(active, Local)))
        && (Unique(Paths(pod.init[0].mounts)) <==> !(Has(active, S3) && Has(active, Local)))
  {
    var providers := EnabledProviders(config, spec);
    var active := Active(w, config, providers).value;
    Isolation.EnabledDistinct(config, spec);
    EnabledMounts(config, spec);
    ActiveAmong(w, config, providers);
    CountByKind(active);
    if Jobs.Buildable(images, app) {
      JobWellFormed(id, config, spec, app, active);
    }
  }
}
