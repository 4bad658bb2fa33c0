/** The batch jobs of the applications. */
module Jobs {
  import opened Options
  import opened Objects
  import opened Api
  import Passwd
  import Storage
  import Text

  /** The app name comes first in the image: the last part of its repository. */
  function AppName(app: App): string {
    if app.image.None? then "" else Text.LastPart(app.image.value.repository, '/')
  }

  function ImageName(image: Image): string {
    image.registry + "/" + image.repository + ":" + if image.tag == "" then "latest" else image.tag
  }

  /** What `cat /etc/passwd` prints in each image that can be run here. */
  type Images = map<string, string>

  /** An image that cannot be inspected passes. */
  predicate ValidImage(images: Images, image: string) {
    image in images ==> Passwd.Scan(images[image]) == []
  }

  function JobName(id: Key, uid: string, app: App): string { id.name + "-" + uid + "-" + app.name }

  function JobKey(id: Key, uid: string, app: App): Key { Key(id.ns, JobName(id, uid, app)) }

  predicate WantsRunning(app: App) { app.state.Unset? || app.state.Running? }

  /** The jobs an app may get: its image is set, names an app, and passes validation. */
  predicate Buildable(images: Images, app: App) {
    app.image.Some? && AppName(app) != "" && ValidImage(images, ImageName(app.image.value))
  }

  function InitImage(config: Config, spec: Spec): string {
    config.initImage + ":" + if spec.initVersion == "" then "latest" else spec.initVersion
  }

  /** The volumes every app brings itself. */
  function OwnVolumes(app: App): seq<PodVolume> {
    (if app.shm.Some? then [PodVolume("shm", SharedMemory(app.shm.value))] else []) + [PodVolume("home", EmptyDir)]
  }

  const DEFAULT_RESOURCES := Resources(
    map["cpu" := 150, "memory" := 192 * MI, "ephemeral-storage" := 10 * GI],
    map["cpu" := 1, "memory" := KI, "ephemeral-storage" := GI])

  const INIT_RESOURCES := Resources(
    map["cpu" := 100, "memory" := 64 * MI, "ephemeral-storage" := GI],
    map["cpu" := 10, "memory" := 16 * MI, "ephemeral-storage" := 100 * MI])

  /** Limits and requests replace the defaults one by one; requests without limits serve as limits too. */
  function ResourcesFor(app: App): Resources {
    match app.resources
    case None => DEFAULT_RESOURCES
    case Some(Requirements(limits, requests)) =>
      Resources(
        if limits.Some? then limits.value
        else if requests.Some? then requests.value
        else DEFAULT_RESOURCES.limits,
        if requests.Some? then requests.value else DEFAULT_RESOURCES.requests)
  }

  /** No resource is requested beyond its limit, which the API server demands. */
  predicate WithinLimits(r: Resources) {
    forall k | k in r.requests && k in r.limits :: r.requests[k] <= r.limits[k]
  }

  /** The requests stay within the limits exactly if each limit the app sets admits the app's own request or,
      when it sets no requests, one thousandth of a processor, 1 KiB of memory and 1 GiB of storage. */
  lemma ResourcesFit(app: App)
    ensures WithinLimits(ResourcesFor(app)) <==>
      (app.resources.Some? && app.resources.value.limits.Some? ==>
        var limits, own := app.resources.value.limits.value, app.resources.value.requests;
        if own.Some? then forall k | k in own.value && k in limits :: own.value[k] <= limits[k]
        else
          && ("cpu" in limits ==> limits["cpu"] >= 1)
          && ("memory" in limits ==> limits["memory"] >= 1024)
          && ("ephemeral-storage" in limits ==> limits["ephemeral-storage"] >= 1024 * 1024 * 1024))
  {
    if app.resources.Some? && app.resources.value.limits.Some? && app.resources.value.requests.None? {
      var r := ResourcesFor(app);
      assert r.requests.Keys == {"cpu", "memory", "ephemeral-storage"};
      assert r.requests["cpu"] == 1 && r.requests["memory"] == 1024
        && r.requests["ephemeral-storage"] == 1024 * 1024 * 1024;
    }
  }

  /** So half a gibibyte of storage is a limit that an app cannot set alone. */
  lemma SmallStorageLimit(app: App)
    requires app.resources == Some(Requirements(Some(map["ephemeral-storage" := 512 * MI]), None))
    ensures !WithinLimits(ResourcesFor(app))
  {
    ResourcesFit(app);
  }

  function PodFor(id: Key, config: Config, spec: Spec, app: App, active: seq<Storage.Provider>): PodSpec
    requires app.image.Some?
  {
    var shm := app.shm.Some?;
    var storage := Storage.MountsOf(active, spec.user, id.ns);
    PodSpec(
      app.name,
      OwnVolumes(app) + Storage.VolumesOf(active, id.ns),
      [Container("app-init", InitImage(config, spec), [Mount("home", "/home", "")] + storage, INIT_RESOURCES)],
      [Container(AppName(app), ImageName(app.image.value),
                 (if shm then [Mount("shm", "/dev/shm", "")] else []) + [Mount("home", "/home", "")] + storage,
                 ResourcesFor(app))])
  }

  function JobFor(id: Key, config: Config, spec: Spec, app: App, active: seq<Storage.Provider>): Job
    requires app.image.Some?
  {
    Job(map[LABEL := id.name], Some(!WantsRunning(app)), PodFor(id, config, spec, app, active), NEW_JOB_STATUS)
  }

  /** The job of an app, or nothing when it cannot be built; the secrets are looked up either way. */
  function InitJob(w: World, id: Key, config: Config, spec: Spec, images: Images, app: App): Step<Option<Job>> {
    var active := Storage.Active(w, config, Storage.EnabledProviders(config, spec));
    Step(active.w, if Buildable(images, app) then Some(JobFor(id, config, spec, app, active.value)) else None)
  }

  /** Suspension is the only thing that may change in a found job. */
  function Update(source: Job, destination: Job): (Job, bool) {
    if source.suspend.Some? && destination.suspend != source.suspend
    then (destination.(suspend := source.suspend), true)
    else (destination, false)
  }

  /** An image whose passwd file can be read is rejected exactly if one of its users has a reserved id. */
  lemma RejectedImages(images: Images, image: string, entries: seq<Passwd.Entry>)
    requires forall e | e in entries :: Passwd.Plain(e)
    requires image in images && images[image] == Passwd.Print(entries)
    ensures ValidImage(images, image) <==> forall e | e in entries :: !Passwd.Reserved(e.uid)
  {
    Passwd.ScanPrint(entries);
    Passwd.ExpectedEmpty(entries);
  }
}
