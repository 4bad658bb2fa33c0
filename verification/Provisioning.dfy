/** What an undisturbed storage phase does, exactly, and when it leaves no claim dangling. */
module Provisioning {
  import opened Options
  import opened Objects
  import opened Api
  import opened Storage
  import Isolation
  import Names

  predicate DriverPresent(c: Cluster, config: Config, p: Provider) {
    if p.storage == Local then config.localEnabled else p.driver in c.drivers
  }

  predicate SecretUsable(c: Cluster, config: Config, p: Provider) {
    if p.storage == Local then config.localEnabled else p.secret in c.secrets && Filled(p, c.secrets[p.secret])
  }

  /** Whether the volume is there or can be made: a leftover setup job blocks a new one. */
  predicate VolumePossible(c: Cluster, id: Key, p: Provider) {
    PersistentVolumeName(p, id.ns) in c.volumes || p.storage == S3 || SetupKey(p, id.ns) !in c.jobs
  }

  predicate CanProvide(c: Cluster, config: Config, id: Key, p: Provider) {
    DriverPresent(c, config, p) && SecretUsable(c, config, p) && VolumePossible(c, id, p)
  }

  /** `p`'s volume exists. */
  predicate HasVolume(c: Cluster, id: Key, p: Provider) { PersistentVolumeName(p, id.ns) in c.volumes }

  /** A provider whose volume, if it can ask for one, does not have to be set up by a job. */
  predicate StockedFor(c: Cluster, config: Config, id: Key, p: Provider) {
    p.storage != S3 && DriverPresent(c, config, p) && SecretUsable(c, config, p) ==>
      HasVolume(c, id, p)
  }

  /** The job that was left behind by an earlier setup for `p`. */
  function LeftoverOf(c: Cluster, id: Key, p: Provider): Option<Job> {
    if p.storage != S3 && SetupKey(p, id.ns) in c.jobs then Some(c.jobs[SetupKey(p, id.ns)]) else None
  }

  function SecretData(c: Cluster, p: Provider): map<string, string> {
    if p.storage != Local && p.secret in c.secrets then c.secrets[p.secret] else map[]
  }

  /** The cluster once `p` has its volume: an absent one is set up, then created. */
  function WithVolume(c: Cluster, config: Config, id: Key, p: Provider): Cluster {
    var name, data := PersistentVolumeName(p, id.ns), SecretData(c, p);
    if name in c.volumes then c
    else
      c.(jobs := if p.storage == S3 then c.jobs else c.jobs[SetupKey(p, id.ns) := SetupJob(config, p, id, data)],
         volumes := c.volumes[name := VolumeFor(config, p, id.ns, data)])
  }

  function WithClaim(c: Cluster, id: Key, p: Provider): Cluster {
    var key := ClaimKey(p, id);
    if key in c.claims then c else c.(claims := c.claims[key := ClaimFor(p, id.ns)])
  }

  function Provided(c: Cluster, config: Config, id: Key, p: Provider): Cluster {
    if CanProvide(c, config, id, p) then WithClaim(WithVolume(c, config, id, p), id, p) else c
  }

  lemma QuietDetection(w: World, config: Config, id: Key, p: Provider)
    requires Quiet(w)
    ensures var d := HasDriver(w, config, p);
      Quiet(d.w) && d.w.cluster == w.cluster && d.value == DriverPresent(w.cluster, config, p)
    ensures var s := HasSecret(w, config, p);
      Quiet(s.w) && s.w.cluster == w.cluster && s.value == SecretUsable(w.cluster, config, p)
    ensures var v := BuildVolume(w, config, p, id.ns);
      && Quiet(v.w) && v.w.cluster == w.cluster
      && (SecretUsable(w.cluster, config, p) ==>
            v.value == Some(VolumeFor(config, p, id.ns, SecretData(w.cluster, p))))
  {
  }

  lemma QuietSetup(w: World, config: Config, id: Key, p: Provider)
    requires Quiet(w) && SecretUsable(w.cluster, config, p)
    ensures var s, key := Setup(w, config, id, p), SetupKey(p, id.ns);
      && Quiet(s.w) && (s.value <==> p.storage == S3 || key !in w.cluster.jobs)
      && s.w.cluster == (if p.storage == S3 || !s.value then w.cluster
           else w.cluster.(jobs := w.cluster.jobs[key := SetupJob(config, p, id, SecretData(w.cluster, p))]))
  {
    hide SetupJob, SetupKey, Filled;
    if p.storage == NFS {
      QuietCall(w, GetSecret(p.secret));
      var s := SecretConfig(w, p);
      QuietCall(s.w, CreateJob(SetupKey(p, id.ns), SetupJob(config, p, id, s.value.value)));
    } else if p.storage == Local {
      QuietCall(w, CreateJob(SetupKey(p, id.ns), SetupJob(config, p, id, map[])));
    }
  }

  lemma QuietEnsureVolume(w: World, config: Config, id: Key, p: Provider)
    requires Quiet(w) && SecretUsable(w.cluster, config, p)
    ensures var e := EnsureVolume(w, config, id, p, VolumeFor(config, p, id.ns, SecretData(w.cluster, p)));
      && Quiet(e.w) && e.value == VolumePossible(w.cluster, id, p)
      && e.w.cluster == if e.value then WithVolume(w.cluster, config, id, p) else w.cluster
  {
    var name := PersistentVolumeName(p, id.ns);
    QuietCall(w, GetVolume(name));
    if name !in w.cluster.volumes {
      QuietSetUp(After(w, GetVolume(name)), config, id, p);
    }
  }

  /** Setting up and creating a volume that is absent. */
  lemma QuietSetUp(w: World, config: Config, id: Key, p: Provider)
    requires Quiet(w) && SecretUsable(w.cluster, config, p) && !HasVolume(w.cluster, id, p)
    ensures var s := Setup(w, config, id, p);
      Quiet(s.w) && s.value == VolumePossible(w.cluster, id, p) && (!s.value ==> s.w.cluster == w.cluster)
    ensures var s, volume := Setup(w, config, id, p), VolumeFor(config, p, id.ns, SecretData(w.cluster, p));
      var create := CreateVolume(PersistentVolumeName(p, id.ns), volume);
      var after := After(s.w, create);
      s.value ==> Ok(s.w, create) && Quiet(after) && after.cluster == WithVolume(w.cluster, config, id, p)
  {
    var volume := VolumeFor(config, p, id.ns, SecretData(w.cluster, p));
    QuietSetup(w, config, id, p);
    QuietCall(Setup(w, config, id, p).w, CreateVolume(PersistentVolumeName(p, id.ns), volume));
  }

  lemma QuietEnsureClaim(w: World, id: Key, p: Provider)
    requires Quiet(w)
    ensures var e := EnsureClaim(w, id, p);
      Quiet(e.w) && e.value && e.w.cluster == WithClaim(w.cluster, id, p)
  {
  }

  /** An undisturbed turn provides exactly when it can, and otherwise changes nothing. */
  lemma QuietTurn(w: World, config: Config, id: Key, p: Provider)
    requires Quiet(w)
    ensures var t := Turn(w, config, id, p);
      && Quiet(t.w) && t.w.cluster == Provided(w.cluster, config, id, p)
      && (t.value.Provided? <==> CanProvide(w.cluster, config, id, p))
  {
    QuietDetection(w, config, id, p);
    var driver := HasDriver(w, config, p);
    QuietDetection(driver.w, config, id, p);
    var secret := HasSecret(driver.w, config, p);
    QuietDetection(secret.w, config, id, p);
    var volume := BuildVolume(secret.w, config, p, id.ns);
    if driver.value && secret.value {
      QuietEnsureVolume(volume.w, config, id, p);
      QuietEnsureClaim(EnsureVolume(volume.w, config, id, p, volume.value.value).w, id, p);
    }
  }

  function ProvidedAll(c: Cluster, config: Config, id: Key, providers: seq<Provider>): Cluster {
    if providers == [] then c
    else
      var n := |providers| - 1;
      Provided(ProvidedAll(c, config, id, providers[..n]), config, id, providers[n])
  }

  lemma {:induction false} QuietProcess(w: World, config: Config, id: Key, providers: seq<Provider>)
    requires Quiet(w)
    ensures var p := Process(w, config, id, providers);
      Quiet(p.w) && p.w.cluster == ProvidedAll(w.cluster, config, id, providers)
    decreases |providers|
  {
    if providers != [] {
      var n := |providers| - 1;
      QuietProcess(w, config, id, providers[..n]);
      QuietTurn(Process(w, config, id, providers[..n]).w, config, id, providers[n]);
    }
  }

  lemma {:induction false} QuietActive(w: World, config: Config, providers: seq<Provider>)
    requires Quiet(w)
    ensures var a := Active(w, config, providers);
      Quiet(a.w) && a.w.cluster == w.cluster && a.value == Usable(w.cluster, config, providers)
    decreases |providers|
  {
    if providers != [] {
      var n := |providers| - 1;
      QuietActive(w, config, providers[..n]);
      QuietDetection(Active(w, config, providers[..n]).w, config, Key("", ""), providers[n]);
    }
  }

  /** The providers whose secret is usable, in order. */
  function Usable(c: Cluster, config: Config, providers: seq<Provider>): seq<Provider> {
    if providers == [] then []
    else
      var n := |providers| - 1;
      Usable(c, config, providers[..n]) + if SecretUsable(c, config, providers[n]) then [providers[n]] else []
  }

  // --------------------------------------------------------- dangling claims

  /** `p`'s claim exists. */
  predicate HasClaim(c: Cluster, id: Key, p: Provider) { ClaimKey(p, id) in c.claims }

  /** Everything but the storage objects and the setup jobs is left alone. */
  predicate StorageOnly(c: Cluster, d: Cluster) {
    d.secrets == c.secrets && d.drivers == c.drivers && d.pods == c.pods && d.services == c.services &&
    d.deployments == c.deployments && d.workbenches == c.workbenches
  }

  lemma {:induction false} ProvidedFrame(c: Cluster, config: Config, id: Key, providers: seq<Provider>)
    ensures StorageOnly(c, ProvidedAll(c, config, id, providers))
    decreases |providers|
  {
    if providers != [] {
      ProvidedFrame(c, config, id, providers[..|providers| - 1]);
    }
  }

  lemma SetupKeysDiffer(p: Provider, q: Provider, ns: string)
    requires p.storage != q.storage && p.storage != S3 && q.storage != S3
    ensures SetupKey(p, ns) != SetupKey(q, ns)
  {
    assert SetupKey(p, ns).name[0] != SetupKey(q, ns).name[0];
  }

  lemma OtherClaim(c: Cluster, config: Config, id: Key, p: Provider, q: Provider)
    requires p.mountType != q.mountType
    ensures HasClaim(Provided(c, config, id, q), id, p) == HasClaim(c, id, p)
  {
    Names.ProviderNamesDistinct(p, q, id.ns);
  }

  lemma OtherVolume(c: Cluster, config: Config, id: Key, p: Provider, q: Provider)
    requires p.mountType != q.mountType && p.storage != q.storage
    ensures HasVolume(Provided(c, config, id, q), id, p) == HasVolume(c, id, p)
    ensures LeftoverOf(Provided(c, config, id, q), id, p) == LeftoverOf(c, id, p)
  {
    hide SetupJob, VolumeFor, ClaimFor;
    Names.ProviderNamesDistinct(p, q, id.ns);
    if p.storage != S3 && q.storage != S3 {
      SetupKeysDiffer(p, q, id.ns);
    }
  }

  /** `p` has the same claim, volume and leftover, and can do the same, in both clusters. */
  predicate SameChances(c: Cluster, d: Cluster, config: Config, id: Key, p: Provider) {
    && HasClaim(d, id, p) == HasClaim(c, id, p) && HasVolume(d, id, p) == HasVolume(c, id, p)
    && LeftoverOf(d, id, p) == LeftoverOf(c, id, p) && CanProvide(d, config, id, p) == CanProvide(c, config, id, p)
  }

  /** Another provider's turn changes neither `p`'s claim, volume and leftover nor what `p` can do. */
  lemma ProvidedOther(c: Cluster, config: Config, id: Key, p: Provider, q: Provider)
    requires p.mountType != q.mountType && p.storage != q.storage
    ensures SameChances(c, Provided(c, config, id, q), config, id, p)
  {
    OtherClaim(c, config, id, p, q);
    OtherVolume(c, config, id, p, q);
    ProvidedSources(c, config, id, q);
  }

  lemma ProvidedSources(c: Cluster, config: Config, id: Key, q: Provider)
    ensures Provided(c, config, id, q).secrets == c.secrets && Provided(c, config, id, q).drivers == c.drivers
  {
  }

  lemma ProvidedOwn(c: Cluster, config: Config, id: Key, p: Provider)
    ensures HasClaim(Provided(c, config, id, p), id, p) <==> HasClaim(c, id, p) || CanProvide(c, config, id, p)
  {
  }

  lemma {:induction false} OthersOnly(c: Cluster, config: Config, id: Key, providers: seq<Provider>, p: Provider)
    requires forall q | q in providers :: q.mountType != p.mountType && q.storage != p.storage
    ensures SameChances(c, ProvidedAll(c, config, id, providers), config, id, p)
    decreases |providers|
  {
    if providers != [] {
      var n := |providers| - 1;
      OthersOnly(c, config, id, providers[..n], p);
      ProvidedOther(ProvidedAll(c, config, id, providers[..n]), config, id, p, providers[n]);
    }
  }

  /** The providers before the `i`-th are others. */
  lemma EarlierOthers(providers: seq<Provider>, i: nat)
    requires Isolation.Distinct(providers) && i < |providers|
    ensures forall q | q in providers[..i] :: q.mountType != providers[i].mountType && q.storage != providers[i].storage
  {
  }

  /** After an undisturbed storage phase a provider's claim exists exactly if it did before or the provider
      could provide at the start. */
  lemma {:induction false} ClaimAfter(c: Cluster, config: Config, id: Key, providers: seq<Provider>, i: nat)
    requires Isolation.Distinct(providers) && i < |providers|
    ensures var p := providers[i];
      HasClaim(ProvidedAll(c, config, id, providers), id, p) <==> HasClaim(c, id, p) || CanProvide(c, config, id, p)
    decreases |providers|
  {
    var n := |providers| - 1;
    if i < n {
      ClaimAfter(c, config, id, providers[..n], i);
      ProvidedOther(ProvidedAll(c, config, id, providers[..n]), config, id, providers[i], providers[n]);
    } else {
      EarlierOthers(providers, n);
      OthersOnly(c, config, id, providers[..n], providers[n]);
      ProvidedOwn(ProvidedAll(c, config, id, providers[..n]), config, id, providers[n]);
    }
  }

  /** ... and likewise its volume. */
  lemma {:induction false} VolumeAfter(c: Cluster, config: Config, id: Key, providers: seq<Provider>, i: nat)
    requires Isolation.Distinct(providers) && i < |providers|
    ensures var p := providers[i];
      HasVolume(ProvidedAll(c, config, id, providers), id, p) <==> HasVolume(c, id, p) || CanProvide(c, config, id, p)
    decreases |providers|
  {
    var n := |providers| - 1;
    if i < n {
      VolumeAfter(c, config, id, providers[..n], i);
      ProvidedOther(ProvidedAll(c, config, id, providers[..n]), config, id, providers[i], providers[n]);
    } else {
      EarlierOthers(providers, n);
      OthersOnly(c, config, id, providers[..n], providers[n]);
    }
  }

  /** A leftover setup job stays through the storage phase when its provider cannot provide. */
  lemma {:induction false} LeftoverAfter(c: Cluster, config: Config, id: Key, providers: seq<Provider>, i: nat)
    requires Isolation.Distinct(providers) && i < |providers| && !CanProvide(c, config, id, providers[i])
    ensures LeftoverOf(ProvidedAll(c, config, id, providers), id, providers[i]) == LeftoverOf(c, id, providers[i])
    decreases |providers|
  {
    var n := |providers| - 1;
    if i < n {
      LeftoverAfter(c, config, id, providers[..n], i);
      ProvidedOther(ProvidedAll(c, config, id, providers[..n]), config, id, providers[i], providers[n]);
    } else {
      EarlierOthers(providers, n);
      OthersOnly(c, config, id, providers[..n], providers[n]);
    }
  }

  lemma {:induction false} UsableMembers(c: Cluster, config: Config, providers: seq<Provider>, p: Provider)
    ensures p in Usable(c, config, providers) <==> p in providers && SecretUsable(c, config, p)
    decreases |providers|
  {
    if providers != [] {
      var n := |providers| - 1;
      UsableMembers(c, config, providers[..n], p);
      assert providers == providers[..n] + [providers[n]];
    }
  }

  /** Job volumes name claims by secret alone. After an undisturbed storage phase none of them dangles,
      exactly if every enabled provider with a usable secret had its claim already, or has its driver and a
      volume it can get. */
  lemma NoDanglingClaims(w: World, config: Config, id: Key, spec: Spec)
    requires Quiet(w)
    ensures var providers := EnabledProviders(config, spec);
      var after := Process(w, config, id, providers).w;
      (forall p | p in Active(after, config, providers).value :: HasClaim(after.cluster, id, p)) <==>
      (forall p | p in providers && SecretUsable(w.cluster, config, p) ::
        HasClaim(w.cluster, id, p) || (DriverPresent(w.cluster, config, p) && VolumePossible(w.cluster, id, p)))
  {
    var c, providers := w.cluster, EnabledProviders(config, spec);
    Isolation.EnabledDistinct(config, spec);
    QuietProcess(w, config, id, providers);
    var after := Process(w, config, id, providers).w;
    QuietActive(after, config, providers);
    ProvidedFrame(c, config, id, providers);
    forall p ensures p in Usable(after.cluster, config, providers) <==> p in providers && SecretUsable(c, config, p) {
      UsableMembers(after.cluster, config, providers, p);
    }
    forall p | p in providers
      ensures HasClaim(after.cluster, id, p) <==> HasClaim(c, id, p) || CanProvide(c, config, id, p)
    {
      var i :| 0 <= i < |providers| && providers[i] == p;
      ClaimAfter(c, config, id, providers, i);
    }
  }
}
