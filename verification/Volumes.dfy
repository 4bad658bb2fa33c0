/** What each kind of provider stores, field by field, in an undisturbed turn. */
module Volumes {
  import opened Options
  import opened Objects
  import opened Api
  import opened Storage
  import opened Provisioning

  /** The enabled providers: S3 and NFS unless the spec says otherwise, local storage only if the operator offers
      it as well. */
  lemma EnabledExactly(config: Config, spec: Spec)
    ensures spec.storage.None? ==> EnabledProviders(config, spec) == [S3Provider(config), NfsProvider(config)]
    ensures spec.storage.Some? ==>
      var s := spec.storage.value;
      EnabledProviders(config, spec) ==
        (if s.s3 then [S3Provider(config)] else []) + (if s.nfs then [NfsProvider(config)] else [])
        + (if s.local && config.localEnabled then [LocalProvider()] else [])
  {
  }

  /** A secret that exists with all of these fields filled. */
  predicate SecretHolds(c: Cluster, secret: Key, fields: set<string>) {
    secret in c.secrets && forall f | f in fields :: f in c.secrets[secret] && c.secrets[secret][f] != ""
  }

  /** The claim on a volume: over the whole namespace, bound to the volume by name. */
  predicate ClaimMade(c: Cluster, d: Cluster, key: Key, claim: Claim) {
    d.claims == if key in c.claims then c.claims else c.claims[key := claim]
  }

  predicate NothingElse(c: Cluster, d: Cluster) {
    d == c.(jobs := d.jobs, volumes := d.volumes, claims := d.claims)
  }

  /** The S3 provider, in an undisturbed turn: with the JuiceFS driver and a secret that names the file system it
      stores, unless there is one, a volume over that file system's root that refers to the secret, and a labelled
      claim on it; otherwise it changes nothing. */
  predicate S3Stored(c: Cluster, d: Cluster, config: Config, id: Key, provided: bool) {
    var name := id.ns + "-archive-pv";
    var can := "csi.juicefs.com" in c.drivers && SecretHolds(c, config.juicefsSecret, {"name"});
    && NothingElse(c, d) && (provided <==> can) && (!can ==> d == c)
    && (can ==>
          && d.jobs == c.jobs
          && d.volumes == (if name in c.volumes then c.volumes else c.volumes[name :=
               CsiVolume("csi.juicefs.com", id.ns + "-archive",
                         map["name" := c.secrets[config.juicefsSecret]["name"], "path" := "/"],
                         Some(config.juicefsSecret))])
          && ClaimMade(c, d, Key(id.ns, id.ns + "-archive-pvc"), Claim(map["use-juicefs" := "true"], name)))
  }

  /** ... and that is what its turn does. */
  lemma S3Turn(w: World, config: Config, id: Key)
    requires Quiet(w)
    ensures var t := Turn(w, config, id, S3Provider(config));
      S3Stored(w.cluster, t.w.cluster, config, id, t.value.Provided?)
  {
    var c, p := w.cluster, S3Provider(config);
    QuietTurn(w, config, id, p);
    Archive(id.ns);
    assert p.required == ["name"];
    assert SecretUsable(c, config, p) <==> SecretHolds(c, config.juicefsSecret, {"name"}) by {
      assert "name" in p.required && "name" in {"name"};
    }
    assert c == c.(jobs := c.jobs, volumes := c.volumes, claims := c.claims);
  }

  lemma Archive(ns: string)
    ensures ns + "-archive-pv" == ns + "-" + "archive" + "-pv"
    ensures ns + "-archive-pvc" == ns + "-" + "archive" + "-pvc"
    ensures ns + "-archive" == ns + "-" + "archive"
  {
    assert "-archive-pv" == "-" + "archive" + "-pv" && "-archive-pvc" == "-" + "archive" + "-pvc";
    assert "-archive" == "-" + "archive";
    Joined(ns, "archive", "-pv");
    Joined(ns, "archive", "-pvc");
  }

  lemma Joined(ns: string, mountType: string, suffix: string)
    ensures ns + ("-" + mountType + suffix) == ns + "-" + mountType + suffix
  {
    assert ns + ("-" + mountType + suffix) == ns + "-" + mountType + suffix;
  }

  lemma Scratch(ns: string)
    ensures ns + "-scratch-pv" == ns + "-" + "scratch" + "-pv"
    ensures ns + "-scratch-pvc" == ns + "-" + "scratch" + "-pvc"
    ensures ns + "-scratch" == ns + "-" + "scratch"
  {
    assert "-scratch-pv" == "-" + "scratch" + "-pv" && "-scratch-pvc" == "-" + "scratch" + "-pvc";
    assert "-scratch" == "-" + "scratch";
    Joined(ns, "scratch", "-pv");
    Joined(ns, "scratch", "-pvc");
  }

  lemma LocalNames(ns: string)
    ensures ns + "-local-pv" == ns + "-" + "local" + "-pv"
    ensures ns + "-local-pvc" == ns + "-" + "local" + "-pvc"
  {
    assert "-local-pv" == "-" + "local" + "-pv" && "-local-pvc" == "-" + "local" + "-pvc";
    Joined(ns, "local", "-pv");
    Joined(ns, "local", "-pvc");
  }

  /** A job that makes directories: one container with one mount of the one volume, labelled for the workbench. */
  predicate MakesDirectories(job: Job, id: Key, app: string, volume: string, source: VolumeSource, path: string) {
    && job.labels == map["app" := app, "workbench" := id.name] && job.suspend.None?
    && job.pod.volumes == [PodVolume(volume, source)] && job.pod.init == [] && |job.pod.main| == 1
    && job.pod.main[0].name == "mkdir" && job.pod.main[0].image == "busybox:latest"
    && job.pod.main[0].mounts == [Mount(volume, path, "")] && job.status == NEW_JOB_STATUS
    && job.pod.main[0].resources == Resources(map["cpu" := 100, "memory" := 64 * 1024 * 1024],
                                              map["cpu" := 10, "memory" := 16 * 1024 * 1024])
  }

  /** The volume and the setup job of a provider: both are there already, or both are made. */
  predicate VolumeMade(c: Cluster, d: Cluster, name: string, volume: PersistentVolume, key: Key) {
    if name in c.volumes then d.volumes == c.volumes && d.jobs == c.jobs
    else d.volumes == c.volumes[name := volume] && key in d.jobs && d.jobs == c.jobs[key := d.jobs[key]]
  }

  /** The NFS provider: with its driver, a secret that names server and share, and a volume that exists or can be
      set up, it stores a volume of that server and share without a reference to the secret, and a claim without a
      label. */
  predicate NfsStored(c: Cluster, d: Cluster, config: Config, id: Key, provided: bool) {
    var name, key := id.ns + "-scratch-pv", Key(id.ns, "nfs-mkdir-" + id.ns);
    var can := "nfs.csi.k8s.io" in c.drivers && SecretHolds(c, config.nfsSecret, {"server", "share"})
      && (name in c.volumes || key !in c.jobs);
    && NothingElse(c, d) && (provided <==> can) && (!can ==> d == c)
    && (can ==>
          var server, share := c.secrets[config.nfsSecret]["server"], c.secrets[config.nfsSecret]["share"];
          && VolumeMade(c, d, name, CsiVolume("nfs.csi.k8s.io", id.ns + "-scratch",
                                              map["server" := server, "share" := share], None), key)
          && (name !in c.volumes ==>
                MakesDirectories(d.jobs[key], id, "nfs-directory-creator", "nfs-volume",
                                 NfsSource(server, share), "/nfs"))
          && ClaimMade(c, d, Key(id.ns, id.ns + "-scratch-pvc"), Claim(map[], name)))
  }

  /** ... and that is what its turn does. */
  lemma NfsTurn(w: World, config: Config, id: Key)
    requires Quiet(w)
    ensures var t := Turn(w, config, id, NfsProvider(config));
      NfsStored(w.cluster, t.w.cluster, config, id, t.value.Provided?)
  {
    hide Turn, SetupJob, MakesDirectories, SecretHolds, SecretUsable, SecretData, VolumeFor, SetupKey;
    var c, p := w.cluster, NfsProvider(config);
    QuietTurn(w, config, id, p);
    Scratch(id.ns);
    NfsSecret(c, config);
    assert c == c.(jobs := c.jobs, volumes := c.volumes, claims := c.claims);
    NfsNames(config, id.ns);
    if SecretHolds(c, config.nfsSecret, {"server", "share"}) {
      NfsSetup(config, id, SecretData(c, p));
    }
  }

  lemma NfsSecret(c: Cluster, config: Config)
    ensures SecretUsable(c, config, NfsProvider(config)) <==> SecretHolds(c, config.nfsSecret, {"server", "share"})
    ensures SecretHolds(c, config.nfsSecret, {"server", "share"}) ==>
      config.nfsSecret in c.secrets && SecretData(c, NfsProvider(config)) == c.secrets[config.nfsSecret]
      && "server" in c.secrets[config.nfsSecret] && "share" in c.secrets[config.nfsSecret]
  {
    var required := NfsProvider(config).required;
    assert required[0] in required && required[1] in required;
    assert "server" in {"server", "share"} && "share" in {"server", "share"};
  }

  lemma NfsNames(config: Config, ns: string)
    ensures SetupKey(NfsProvider(config), ns) == Key(ns, "nfs-mkdir-" + ns)
  {
  }

  lemma NfsSetup(config: Config, id: Key, data: map<string, string>)
    requires "server" in data && "share" in data
    ensures MakesDirectories(SetupJob(config, NfsProvider(config), id, data), id, "nfs-directory-creator", "nfs-volume",
                             NfsSource(data["server"], data["share"]), "/nfs")
    ensures VolumeFor(config, NfsProvider(config), id.ns, data) ==
      CsiVolume("nfs.csi.k8s.io", id.ns + "-scratch", map["server" := data["server"], "share" := data["share"]], None)
  {
    Scratch(id.ns);
  }

  function LocalPath(config: Config): string {
    if config.hostPath != "" then config.hostPath else "/tmp/workbench-local-storage"
  }

  /** The local provider: needs neither driver nor secret, and stores a volume over the host path. */
  predicate LocalStored(c: Cluster, d: Cluster, config: Config, id: Key, provided: bool) {
    var name, key := id.ns + "-local-pv", Key(id.ns, "local-mkdir-" + id.ns);
    var can := config.localEnabled && (name in c.volumes || key !in c.jobs);
    && NothingElse(c, d) && (provided <==> can) && (!can ==> d == c)
    && (can ==>
          && VolumeMade(c, d, name, HostVolume(LocalPath(config), id.ns), key)
          && (name !in c.volumes ==>
                MakesDirectories(d.jobs[key], id, "local-directory-creator", "local-volume",
                                 HostSource(LocalPath(config)), "/local"))
          && ClaimMade(c, d, Key(id.ns, id.ns + "-local-pvc"), Claim(map[], name)))
  }

  /** ... and that is what its turn does. */
  lemma LocalTurn(w: World, config: Config, id: Key)
    requires Quiet(w)
    ensures var t := Turn(w, config, id, LocalProvider());
      LocalStored(w.cluster, t.w.cluster, config, id, t.value.Provided?)
  {
    var c, p := w.cluster, LocalProvider();
    QuietTurn(w, config, id, p);
    LocalNames(id.ns);
    assert c == c.(jobs := c.jobs, volumes := c.volumes, claims := c.claims);
    LocalSetup(config, id, SecretData(c, p));
  }

  lemma LocalSetup(config: Config, id: Key, data: map<string, string>)
    ensures MakesDirectories(SetupJob(config, LocalProvider(), id, data), id, "local-directory-creator", "local-volume",
                             HostSource(LocalPath(config)), "/local")
    ensures SetupKey(LocalProvider(), id.ns) == Key(id.ns, "local-mkdir-" + id.ns)
  {
  }
}
