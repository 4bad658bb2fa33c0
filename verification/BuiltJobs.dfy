/** The job of an app, field by field, and which apps get one. */
module BuiltJobs {
  import opened Options
  import opened Objects
  import opened Api
  import Jobs
  import Passwd
  import Storage
  import Text

  // ------------------------------------------------------- buildable apps

  /** A repository whose last path component is not empty. */
  predicate NamesAnApp(repository: string) { repository != "" && repository[|repository| - 1] != '/' }

  lemma {:induction false} LastPartOf(s: string)
    ensures Text.LastPart(s, '/') != "" <==> NamesAnApp(s)
    decreases |s|
  {
    var parts := Text.Split(s, '/');
    if s == "" {
      assert parts == [""];
    } else {
      LastPartOf(s[1..]);
      if |s| == 1 {
        assert Text.Split(s[1..], '/') == [""];
      }
    }
  }

  /** The last component itself. */
  lemma LastComponent(path: string, last: string)
    requires '/' !in last
    ensures Text.LastPart(path + "/" + last, '/') == last && Text.LastPart(last, '/') == last
  {
    Text.SplitFree(last, '/');
    LastOfSplit(path, last);
  }

  lemma {:induction false} LastOfSplit(path: string, last: string)
    requires '/' !in last
    ensures |Text.Split(path + "/" + last, '/')| >= 2 && Text.LastPart(path + "/" + last, '/') == last
    decreases |path|
  {
    var s := path + "/" + last;
    if path == "" {
      assert s[1..] == last;
      Text.SplitFree(last, '/');
    } else {
      assert s[1..] == path[1..] + "/" + last;
      LastOfSplit(path[1..], last);
    }
  }

  function ImageOf(image: Image): string {
    image.registry + "/" + image.repository + ":" + if image.tag != "" then image.tag else "latest"
  }

  /** No line of the image's passwd file, if it could be read, reserves an id of the platform. */
  ghost predicate Compatible(images: Jobs.Images, image: string) {
    image in images ==> forall line | line in Text.Split(images[image], '\n') :: !Passwd.Offends(line)
  }

  /** An app gets a job exactly if it has an image, the image names an app, and its users do not collide. */
  lemma BuildableExactly(images: Jobs.Images, app: App)
    ensures Jobs.Buildable(images, app) <==>
      && app.image.Some? && NamesAnApp(app.image.value.repository) && Compatible(images, ImageOf(app.image.value))
  {
    if app.image.Some? {
      LastPartOf(app.image.value.repository);
      if ImageOf(app.image.value) in images {
        Passwd.ScanEmpty(images[ImageOf(app.image.value)]);
      }
    }
  }

  // ------------------------------------------------------------ the content

  function ClaimVolume(p: Storage.Provider, ns: string): PodVolume {
    PodVolume("workspace-" + p.mountType, ClaimSource(ns + "-" + p.mountType + "-pvc"))
  }

  function DataMount(p: Storage.Provider, ns: string): Mount {
    Mount("workspace-" + p.mountType, "/mnt/workspace-" + p.mountType, "workspaces/" + ns + "/data")
  }

  function AppDataMount(p: Storage.Provider, user: string, ns: string): Mount {
    Mount("workspace-" + p.mountType, "/mnt/app_data", "workspaces/" + ns + "/app_data/" + user)
  }

  /** The storage volumes are the claims of the providers, in order. */
  lemma {:induction false} ClaimVolumes(active: seq<Storage.Provider>, ns: string)
    ensures var volumes := Storage.VolumesOf(active, ns);
      |volumes| == |active| && forall i | 0 <= i < |active| :: volumes[i] == ClaimVolume(active[i], ns)
  {
    if active != [] {
      ClaimVolumes(active[..|active| - 1], ns);
    }
  }

  /** The mounts of a provider are among the storage mounts. */
  predicate MountedFor(mount: Mount, p: Storage.Provider, user: string, ns: string) {
    mount == DataMount(p, ns) || (p.appData && mount == AppDataMount(p, user, ns))
  }

  /** The storage mounts are the data of every provider and the application data of those that offer it. */
  lemma {:induction false} ProviderMounts(active: seq<Storage.Provider>, user: string, ns: string, mount: Mount)
    ensures mount in Storage.MountsOf(active, user, ns) <==> exists p | p in active :: MountedFor(mount, p, user, ns)
  {
    if active != [] {
      var n := |active| - 1;
      ProviderMounts(active[..n], user, ns, mount);
      assert active == active[..n] + [active[n]];
      OwnMounts(active[n], user, ns, mount);
    }
  }

  lemma OwnMounts(p: Storage.Provider, user: string, ns: string, mount: Mount)
    ensures mount in Storage.MountSpecs(p, user, ns) <==> MountedFor(mount, p, user, ns)
  {
    assert "workspaces/" + ns + "/app_data/" + user == Storage.AppDataPath(ns, user);
  }

  const HOME := Mount("home", "/home", "")
  const SHM := Mount("shm", "/dev/shm", "")

  /** A stopped or killed app has its job suspended. */
  predicate Halted(state: AppState) {
    match state
    case Unset => false
    case Running => false
    case Stopped => true
    case Killed => true
  }

  /** The job of an app over these providers. */
  ghost predicate JobOfApp(job: Job, id: Key, config: Config, spec: Spec, app: App, active: seq<Storage.Provider>)
    requires app.image.Some?
  {
    && job.labels == map["workbench" := id.name] && job.suspend == Some(Halted(app.state))
    && job.status == JobStatus(0, None, 0) && job.pod.hostname == app.name
    && |job.pod.init| == |job.pod.main| == 1
    && (var own := (if app.shm.Some? then [PodVolume("shm", SharedMemory(app.shm.value))] else []) +
          [PodVolume("home", EmptyDir)];
        |job.pod.volumes| == |own| + |active| && job.pod.volumes[..|own|] == own &&
        forall i | 0 <= i < |active| :: job.pod.volumes[|own| + i] == ClaimVolume(active[i], id.ns))
    && (var main := job.pod.main[0];
        && main.name == Text.LastPart(app.image.value.repository, '/') && main.image == ImageOf(app.image.value)
        && forall mount :: mount in main.mounts <==>
             (app.shm.Some? && mount == SHM) || mount == HOME ||
             exists p | p in active :: MountedFor(mount, p, spec.user, id.ns))
    && (var init := job.pod.init[0];
        && init.name == "app-init"
        && init.resources == Resources(
             map["cpu" := 100, "memory" := 64 * 1024 * 1024, "ephemeral-storage" := 1024 * 1024 * 1024],
             map["cpu" := 10, "memory" := 16 * 1024 * 1024, "ephemeral-storage" := 100 * 1024 * 1024])
        && init.image == config.initImage + ":" + (if spec.initVersion != "" then spec.initVersion else "latest")
        && forall mount :: mount in init.mounts <==>
             mount == HOME || exists p | p in active :: MountedFor(mount, p, spec.user, id.ns))
  }

  /** What is built is that job, and it is built for the buildable apps. */
  lemma JobContent(w: World, id: Key, config: Config, spec: Spec, images: Jobs.Images, app: App)
    ensures var job := Jobs.InitJob(w, id, config, spec, images, app).value;
      var active := Storage.Active(w, config, Storage.EnabledProviders(config, spec)).value;
      && (job.Some? <==> Jobs.Buildable(images, app))
      && (job.Some? ==> app.image.Some? && JobOfApp(job.value, id, config, spec, app, active))
  {
    hide Storage.Active, Storage.EnabledProviders;
    var active := Storage.Active(w, config, Storage.EnabledProviders(config, spec)).value;
    if Jobs.Buildable(images, app) {
      Content(id, config, spec, app, active);
    }
  }

  lemma Content(id: Key, config: Config, spec: Spec, app: App, active: seq<Storage.Provider>)
    requires app.image.Some?
    ensures JobOfApp(Jobs.JobFor(id, config, spec, app, active), id, config, spec, app, active)
  {
    hide Text.LastPart, Storage.MountsOf, Storage.VolumesOf, ClaimVolume, MountedFor, Jobs.ResourcesFor;
    var job := Jobs.JobFor(id, config, spec, app, active);
    ClaimVolumes(active, id.ns);
    forall mount: Mount
      ensures mount in Storage.MountsOf(active, spec.user, id.ns) <==>
        exists p | p in active :: MountedFor(mount, p, spec.user, id.ns)
    {
      ProviderMounts(active, spec.user, id.ns, mount);
    }
    assert job.pod.volumes == Jobs.OwnVolumes(app) + Storage.VolumesOf(active, id.ns);
  }

  /** The name of the job. */
  lemma JobKeyOf(id: Key, uid: string, app: App)
    ensures Jobs.JobKey(id, uid, app) == Key(id.ns, id.name + "-" + uid + "-" + app.name)
  {
  }

  /** The resources of its container: each side the app's own, else, for limits, the app's requests, else the
      defaults. */
  lemma ResourcesOf(app: App)
    ensures var r := Jobs.ResourcesFor(app);
      var own := if app.resources.Some? then app.resources.value else Requirements(None, None);
      && (own.limits.Some? ==> r.limits == own.limits.value)
           && (own.requests.Some? ==> r.requests == own.requests.value)
      && (own.limits.None? && own.requests.Some? ==> r.limits == own.requests.value)
      && (own.limits.None? && own.requests.None? ==>
            r.limits == map["cpu" := 150, "memory" := 192 * 1024 * 1024,
              "ephemeral-storage" := 10 * 1024 * 1024 * 1024])
      && (own.requests.None? ==>
            r.requests == map["cpu" := 1, "memory" := 1024, "ephemeral-storage" := 1024 * 1024 * 1024])
    ensures app.image.Some? ==> forall id, config, spec, active ::
      Jobs.PodFor(id, config, spec, app, active).main[0].resources == Jobs.ResourcesFor(app)
  {
  }
}
