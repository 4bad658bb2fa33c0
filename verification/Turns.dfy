/** A provider's turn under any script: which answer each of its requests rests on, and what its result tells. */
module Turns {
  import opened Objects
  import opened Api
  import opened Storage

  /** The answer `e` lets the turn of `p` go on with the request `op`. */
  predicate Follows(e: Event, op: Op, p: Provider, id: Key) {
    var volume := id.ns + "-" + p.mountType + "-pv";
    var claim := Key(id.ns, id.ns + "-" + p.mountType + "-pvc");
    e.ok &&
    match op
    case GetDriver(_) => false
    case GetSecret(key) =>
      key == p.secret &&
      ((e.op == GetDriver(p.driver) && p.driver in e.before.drivers) || Usable(e, p)
       || (e.op == GetVolume(volume) && volume !in e.before.volumes && p.storage == NFS))
    case GetVolume(name) => name == volume && Usable(e, p)
    case CreateJob(_, _) =>
      (p.storage == NFS && Usable(e, p))
      || (p.storage == Local && e.op == GetVolume(volume) && volume !in e.before.volumes)
    case CreateVolume(name, _) =>
      name == volume &&
      (e.op.CreateJob? || (p.storage == S3 && e.op == GetVolume(volume) && volume !in e.before.volumes))
    case GetClaim(key) =>
      key == claim &&
      ((e.op.CreateVolume? && e.op.name == volume) || (e.op == GetVolume(volume) && volume in e.before.volumes))
    case CreateClaim(key, c) => key == claim && c.volumeName == volume && e.op == GetClaim(claim)
      && claim !in e.before.claims
    case _ => false
  }

  /** The secret, with all required fields filled. */
  predicate Usable(e: Event, p: Provider) {
    e.op == GetSecret(p.secret) && p.secret in e.before.secrets &&
    forall f | f in p.required :: f in e.before.secrets[p.secret] && e.before.secrets[p.secret][f] != ""
  }

  predicate Starts(op: Op, p: Provider, id: Key) {
    if p.storage == Local then op == GetVolume(id.ns + "-" + p.mountType + "-pv") else op == GetDriver(p.driver)
  }

  /** From the start of the turn, when the log had length `n`, every request follows from the answer before it. */
  ghost predicate Chain(w: World, n: nat, p: Provider, id: Key) {
    && n <= |w.log|
    && (n < |w.log| ==> Starts(w.log[n].op, p, id))
    && forall i | n < i < |w.log| :: Follows(w.log[i - 1], w.log[i].op, p, id)
  }

  function Last(w: World): Event
    requires w.log != []
  {
    w.log[|w.log| - 1]
  }

  lemma ChainCall(w: World, n: nat, op: Op, p: Provider, id: Key)
    requires Chain(w, n, p, id)
    requires if |w.log| == n then Starts(op, p, id) else Follows(Last(w), op, p, id)
    ensures Chain(After(w, op), n, p, id)
    ensures Last(After(w, op)) == Event(op, Snapshot(w), Outcome(w, op), Ok(w, op)) && |After(w, op).log| == |w.log| + 1
  {
  }

  /** The claim is there, or was made. */
  predicate ShowsClaim(e: Event, key: Key) {
    e.ok && ((e.op == GetClaim(key) && key in e.before.claims) || (e.op.CreateClaim? && e.op.key == key))
  }

  predicate ShowsVolume(e: Event, name: string) {
    e.ok && ((e.op == GetVolume(name) && name in e.before.volumes) || (e.op.CreateVolume? && e.op.name == name))
  }

  /** Every request of the turn follows from the one before. It provides exactly if its last answer shows the claim;
      it is skipped exactly if the driver or the secret is not there at first, and broken otherwise. */
  lemma TurnFollows(w: World, config: Config, id: Key, p: Provider)
    ensures var t, n := Turn(w, config, id, p), |w.log|;
      var claim := id.ns + "-" + p.mountType + "-pvc";
      && Chain(t.w, n, p, id)
      && (t.value.Provided? <==> n < |t.w.log| && ShowsClaim(Last(t.w), Key(id.ns, claim)))
      && (t.value.Provided? ==> t.value.claim == claim)
      && (t.value.Skipped? <==> if p.storage == Local then !config.localEnabled else |t.w.log| <= n + 2)
  {
    hide EnsureVolume, EnsureClaim, VolumeFor, Follows, Ok, Snapshot;
    var n := |w.log|;
    DetectionFollows(w, config, id, p);
    var driver := HasDriver(w, config, p);
    var secret := HasSecret(driver.w, config, p);
    if driver.value && secret.value {
      var volume := BuildVolume(secret.w, config, p, id.ns);
      if volume.value.Some? {
        VolumeFollows(volume.w, n, config, id, p, volume.value.value);
        var ensured := EnsureVolume(volume.w, config, id, p, volume.value.value);
        if ensured.value {
          ClaimFollows(ensured.w, n, id, p);
        }
      }
    }
  }

  /** The lookups, up to the volume that is to be made. */
  lemma DetectionFollows(w: World, config: Config, id: Key, p: Provider)
    ensures var n, driver := |w.log|, HasDriver(w, config, p);
      && Chain(driver.w, n, p, id) && (p.storage == Local ==> driver.w == w && driver.value == config.localEnabled)
      && (p.storage != Local ==> |driver.w.log| == n + 1 && Last(driver.w).op.GetDriver?)
      && (driver.value ==>
        var secret := HasSecret(driver.w, config, p);
        && Chain(secret.w, n, p, id) && (p.storage == Local ==> secret.w == w && secret.value)
        && (p.storage != Local ==> |secret.w.log| == n + 2 && Last(secret.w).op.GetSecret?)
        && (secret.value ==>
          var volume := BuildVolume(secret.w, config, p, id.ns);
          && Chain(volume.w, n, p, id) && (p.storage == Local ==> volume.w == w && volume.value.Some?)
          && (p.storage != Local ==>
            |volume.w.log| == n + 3 && Last(volume.w).op.GetSecret?
            && (volume.value.Some? <==> Last(volume.w).ok && Usable(Last(volume.w), p)))))
  {
    hide Ok, Snapshot, Outcome, VolumeFor;
    var n := |w.log|;
    if p.storage != Local {
      ChainCall(w, n, GetDriver(p.driver), p, id);
      var driver := HasDriver(w, config, p);
      if driver.value {
        SecretFollows(driver.w, n, p, id);
        var secret := SecretConfig(driver.w, p);
        if secret.value.Some? {
          SecretFollows(secret.w, n, p, id);
        }
      }
    }
  }

  lemma SecretFollows(w: World, n: nat, p: Provider, id: Key)
    requires Chain(w, n, p, id) && |w.log| > n && Follows(Last(w), GetSecret(p.secret), p, id)
    ensures var s := SecretConfig(w, p);
      && Chain(s.w, n, p, id) && |s.w.log| == |w.log| + 1 && Last(s.w).op == GetSecret(p.secret)
      && (s.value.Some? <==> Last(s.w).ok && Usable(Last(s.w), p))
  {
    ChainCall(w, n, GetSecret(p.secret), p, id);
  }

  lemma VolumeFollows(w: World, n: nat, config: Config, id: Key, p: Provider, volume: PersistentVolume)
    requires Chain(w, n, p, id)
    requires if p.storage == Local then |w.log| == n else |w.log| > n && Last(w).ok && Usable(Last(w), p)
    ensures var e := EnsureVolume(w, config, id, p, volume);
      && Chain(e.w, n, p, id) && |e.w.log| > |w.log| && !Last(e.w).op.GetClaim? && !Last(e.w).op.CreateClaim?
      && (e.value <==> ShowsVolume(Last(e.w), PersistentVolumeName(p, id.ns)))
  {
    hide Ok, Snapshot, Outcome, Setup;
    var name := PersistentVolumeName(p, id.ns);
    ChainCall(w, n, GetVolume(name), p, id);
    var w1 := After(w, GetVolume(name));
    if Ok(w, GetVolume(name)) && name !in Snapshot(w).volumes {
      SetupFollows(w1, n, config, id, p);
      var setup := Setup(w1, config, id, p);
      if setup.value {
        ChainCall(setup.w, n, CreateVolume(name, volume), p, id);
      }
    }
  }

  lemma SetupFollows(w: World, n: nat, config: Config, id: Key, p: Provider)
    requires Chain(w, n, p, id) && |w.log| > n && Last(w).ok
    requires var name := PersistentVolumeName(p, id.ns);
      Last(w).op == GetVolume(name) && name !in Last(w).before.volumes
    ensures var s, volume := Setup(w, config, id, p), PersistentVolumeName(p, id.ns);
      && Chain(s.w, n, p, id) && |s.w.log| >= |w.log|
      && (s.value <==> Last(s.w).ok && (Last(s.w).op.CreateJob? || p.storage == S3))
      && (p.storage == S3 ==> s.w == w)
      && (p.storage != S3 ==> Last(s.w).op.CreateJob? || Last(s.w).op.GetSecret?)
  {
    hide Ok, Snapshot, Outcome;
    if p.storage == NFS {
      SecretFollows(w, n, p, id);
      var s := SecretConfig(w, p);
      if s.value.Some? {
        ChainCall(s.w, n, CreateJob(SetupKey(p, id.ns), SetupJob(config, p, id, s.value.value)), p, id);
      }
    } else if p.storage == Local {
      ChainCall(w, n, CreateJob(SetupKey(p, id.ns), SetupJob(config, p, id, map[])), p, id);
    }
  }

  lemma ClaimFollows(w: World, n: nat, id: Key, p: Provider)
    requires Chain(w, n, p, id) && |w.log| > n && ShowsVolume(Last(w), PersistentVolumeName(p, id.ns))
    ensures var c := EnsureClaim(w, id, p);
      && Chain(c.w, n, p, id) && |c.w.log| > |w.log| && (c.value <==> ShowsClaim(Last(c.w), ClaimKey(p, id)))
  {
    var key := ClaimKey(p, id);
    ChainCall(w, n, GetClaim(key), p, id);
    if Ok(w, GetClaim(key)) && key !in Snapshot(w).claims {
      ChainCall(After(w, GetClaim(key)), n, CreateClaim(key, ClaimFor(p, id.ns)), p, id);
    }
  }
}
