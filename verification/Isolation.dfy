/**
 Storage providers do not affect one another. A provider's turn depends only on its own footprint and on
 what happens during the turn, touches nothing of another provider's, and decides its own key of the result.
 */
module Isolation {
  import opened Options
  import opened Objects
  import opened Api
  import opened Storage
  import Names
  import StorageProofs

  // ---------------------------------------------------------- a turn's reach

  function VolumeOf(c: Cluster, id: Key, p: Provider): Option<PersistentVolume> {
    var name := PersistentVolumeName(p, id.ns);
    if name in c.volumes then Some(c.volumes[name]) else None
  }

  function ClaimOf(c: Cluster, id: Key, p: Provider): Option<Claim> {
    if ClaimKey(p, id) in c.claims then Some(c.claims[ClaimKey(p, id)]) else None
  }

  /** `c` and `d` look the same to `p`. */
  predicate SameFor(c: Cluster, d: Cluster, id: Key, p: Provider) {
    && c.secrets == d.secrets && c.drivers == d.drivers
    && VolumeOf(c, id, p) == VolumeOf(d, id, p) && ClaimOf(c, id, p) == ClaimOf(d, id, p)
    && (p.storage != S3 ==> (SetupKey(p, id.ns) in c.jobs <==> SetupKey(p, id.ns) in d.jobs))
  }

  predicate Agree(x: World, y: World, id: Key, p: Provider) {
    x.script == y.script && SameFor(x.cluster, y.cluster, id, p)
  }

  /** The requests of `p`'s own turn. */
  predicate OwnOp(op: Op, id: Key, p: Provider) {
    match op
    case GetDriver(_) => true
    case GetSecret(_) => true
    case GetVolume(_) => true
    case CreateVolume(name, _) => name == PersistentVolumeName(p, id.ns)
    case GetClaim(_) => true
    case CreateClaim(key, _) => key == ClaimKey(p, id)
    case CreateJob(key, _) => p.storage != S3 && key == SetupKey(p, id.ns)
    case _ => false
  }

  lemma ActSame(c: Cluster, d: Cluster, step: EnvStep, id: Key, p: Provider)
    requires SameFor(c, d, id, p)
    ensures SameFor(Act(c, step), Act(d, step), id, p)
  {
  }

  lemma {:induction false} EnvironmentSame(c: Cluster, d: Cluster, steps: seq<EnvStep>, id: Key, p: Provider)
    requires SameFor(c, d, id, p)
    ensures SameFor(Environment(c, steps), Environment(d, steps), id, p)
    decreases |steps|
  {
    if steps != [] {
      ActSame(c, d, steps[0], id, p);
      EnvironmentSame(Act(c, steps[0]), Act(d, steps[0]), steps[1..], id, p);
    }
  }

  lemma ApplySame(c: Cluster, d: Cluster, op: Op, spared: set<Key>, id: Key, p: Provider)
    requires SameFor(c, d, id, p) && OwnOp(op, id, p)
    ensures Accepts(c, op) == Accepts(d, op)
    ensures Accepts(c, op) ==> SameFor(Apply(c, op, spared), Apply(d, op, spared), id, p)
  {
  }

  lemma CallSame(x: World, y: World, op: Op, id: Key, p: Provider)
    requires Agree(x, y, id, p) && OwnOp(op, id, p)
    ensures Agree(After(x, op), After(y, op), id, p) && Ok(x, op) == Ok(y, op)
    ensures SameFor(Snapshot(x), Snapshot(y), id, p)
  {
    EnvironmentSame(x.cluster, y.cluster, NextTick(x).env, id, p);
    var tick := NextTick(x);
    ApplySame(Snapshot(x), Snapshot(y), op, {}, id, p);
    ApplySame(Snapshot(x), Snapshot(y), op, if tick.fault.Lost? then tick.fault.spared else {}, id, p);
  }

  lemma DetectionSame(x: World, y: World, config: Config, id: Key, p: Provider)
    requires Agree(x, y, id, p)
    ensures Agree(HasDriver(x, config, p).w, HasDriver(y, config, p).w, id, p)
    ensures HasDriver(x, config, p).value == HasDriver(y, config, p).value
    ensures Agree(SecretConfig(x, p).w, SecretConfig(y, p).w, id, p)
    ensures SecretConfig(x, p).value == SecretConfig(y, p).value
  {
    CallSame(x, y, GetDriver(p.driver), id, p);
    CallSame(x, y, GetSecret(p.secret), id, p);
  }

  lemma SetupSame(x: World, y: World, config: Config, id: Key, p: Provider)
    requires Agree(x, y, id, p)
    ensures Agree(Setup(x, config, id, p).w, Setup(y, config, id, p).w, id, p)
    ensures Setup(x, config, id, p).value == Setup(y, config, id, p).value
  {
    if p.storage == NFS {
      DetectionSame(x, y, config, id, p);
      var s, t := SecretConfig(x, p), SecretConfig(y, p);
      if s.value.Some? {
        CallSame(s.w, t.w, CreateJob(SetupKey(p, id.ns), SetupJob(config, p, id, s.value.value)), id, p);
      }
    } else if p.storage == Local {
      CallSame(x, y, CreateJob(SetupKey(p, id.ns), SetupJob(config, p, id, map[])), id, p);
    }
  }

  lemma EnsureVolumeSame(x: World, y: World, config: Config, id: Key, p: Provider, volume: PersistentVolume)
    requires Agree(x, y, id, p)
    ensures Agree(EnsureVolume(x, config, id, p, volume).w, EnsureVolume(y, config, id, p, volume).w, id, p)
    ensures EnsureVolume(x, config, id, p, volume).value == EnsureVolume(y, config, id, p, volume).value
  {
    var get := GetVolume(PersistentVolumeName(p, id.ns));
    CallSame(x, y, get, id, p);
    var x1, y1 := After(x, get), After(y, get);
    assert (VolumeOf(Snapshot(x), id, p).Some?) == (VolumeOf(Snapshot(y), id, p).Some?);
    SetupSame(x1, y1, config, id, p);
    CallSame(Setup(x1, config, id, p).w, Setup(y1, config, id, p).w,
             CreateVolume(PersistentVolumeName(p, id.ns), volume), id, p);
  }

  lemma EnsureClaimSame(x: World, y: World, id: Key, p: Provider)
    requires Agree(x, y, id, p)
    ensures Agree(EnsureClaim(x, id, p).w, EnsureClaim(y, id, p).w, id, p)
    ensures EnsureClaim(x, id, p).value == EnsureClaim(y, id, p).value
  {
    var get := GetClaim(ClaimKey(p, id));
    CallSame(x, y, get, id, p);
    assert (ClaimOf(Snapshot(x), id, p).Some?) == (ClaimOf(Snapshot(y), id, p).Some?);
    CallSame(After(x, get), After(y, get), CreateClaim(ClaimKey(p, id), ClaimFor(p, id.ns)), id, p);
  }

  lemma SecretSame(x: World, y: World, config: Config, id: Key, p: Provider)
    requires Agree(x, y, id, p)
    ensures Agree(HasSecret(x, config, p).w, HasSecret(y, config, p).w, id, p)
    ensures HasSecret(x, config, p).value == HasSecret(y, config, p).value
    ensures Agree(BuildVolume(x, config, p, id.ns).w, BuildVolume(y, config, p, id.ns).w, id, p)
    ensures BuildVolume(x, config, p, id.ns).value == BuildVolume(y, config, p, id.ns).value
  {
    DetectionSame(x, y, config, id, p);
  }

  lemma EnsuresSame(x: World, y: World, config: Config, id: Key, p: Provider, volume: PersistentVolume)
    requires Agree(x, y, id, p)
    ensures var xe, ye := EnsureVolume(x, config, id, p, volume), EnsureVolume(y, config, id, p, volume);
      && Agree(xe.w, ye.w, id, p) && xe.value == ye.value
      && Agree(EnsureClaim(xe.w, id, p).w, EnsureClaim(ye.w, id, p).w, id, p)
      && EnsureClaim(xe.w, id, p).value == EnsureClaim(ye.w, id, p).value
  {
    EnsureVolumeSame(x, y, config, id, p, volume);
    EnsureClaimSame(EnsureVolume(x, config, id, p, volume).w, EnsureVolume(y, config, id, p, volume).w, id, p);
  }

  /** A turn depends only on the provider's own footprint and on the script it meets: whatever else
      differs, the result is the same, and so are its volume and its claim afterwards. */
  lemma TurnFootprint(x: World, y: World, config: Config, id: Key, p: Provider)
    requires Agree(x, y, id, p)
    ensures Turn(x, config, id, p).value == Turn(y, config, id, p).value
    ensures Agree(Turn(x, config, id, p).w, Turn(y, config, id, p).w, id, p)
  {
    DetectionSame(x, y, config, id, p);
    var xd, yd := HasDriver(x, config, p), HasDriver(y, config, p);
    SecretSame(xd.w, yd.w, config, id, p);
    var xs, ys := HasSecret(xd.w, config, p), HasSecret(yd.w, config, p);
    SecretSame(xs.w, ys.w, config, id, p);
    var xv, yv := BuildVolume(xs.w, config, p, id.ns), BuildVolume(ys.w, config, p, id.ns);
    if xv.value.Some? {
      EnsuresSame(xv.w, yv.w, config, id, p, xv.value.value);
    }
  }

  // ------------------------------------------------------- the others' turns

  /** Providers that can stand in one list: their mount types and storage types differ. */
  predicate Distinct(providers: seq<Provider>) {
    forall i, j | 0 <= i < j < |providers| ::
      providers[i].mountType != providers[j].mountType && providers[i].storage != providers[j].storage
  }

  lemma EnabledDistinct(config: Config, spec: Spec)
    ensures Distinct(EnabledProviders(config, spec))
  {
  }

  /** `p`'s volume and claim are those of `c`. */
  ghost function Holding(c: Cluster, id: Key, p: Provider): World -> bool {
    (x: World) => VolumeOf(x.cluster, id, p) == VolumeOf(c, id, p) && ClaimOf(x.cluster, id, p) == ClaimOf(c, id, p)
  }

  lemma OtherCall(x: World, op: Op, c: Cluster, id: Key, p: Provider, q: Provider)
    requires p.mountType != q.mountType && OwnOp(op, id, q) && Holding(c, id, p)(x)
    ensures Holding(c, id, p)(After(x, op))
  {
    Names.ProviderNamesDistinct(p, q, id.ns);
    StorageProofs.EnvironmentStorage(x.cluster, NextTick(x).env);
  }

  /** What the requests of `q`'s own turn keep, its turn keeps. */
  lemma OwnOpsKeep(x: World, config: Config, id: Key, q: Provider, inv: World -> bool)
    requires inv(x)
    requires forall y, op | inv(y) && OwnOp(op, id, q) :: inv(After(y, op))
    ensures inv(Turn(x, config, id, q).w)
  {
    var driver := HasDriver(x, config, q);
    assert inv(driver.w) by { assert OwnOp(GetDriver(q.driver), id, q); }
    assert OwnOp(GetSecret(q.secret), id, q);
    var secret := HasSecret(driver.w, config, q);
    assert inv(secret.w);
    var volume := BuildVolume(secret.w, config, q, id.ns);
    assert inv(volume.w);
    if volume.value.Some? {
      OtherEnsure(volume.w, config, id, q, volume.value.value, inv);
    }
  }

  lemma OtherTurn(x: World, config: Config, id: Key, p: Provider, q: Provider, c: Cluster)
    requires p.mountType != q.mountType && Holding(c, id, p)(x)
    ensures Holding(c, id, p)(Turn(x, config, id, q).w)
  {
    var inv := Holding(c, id, p);
    forall y, op | inv(y) && OwnOp(op, id, q) ensures inv(After(y, op)) {
      OtherCall(y, op, c, id, p, q);
    }
    OwnOpsKeep(x, config, id, q, inv);
  }

  lemma OtherEnsure(x: World, config: Config, id: Key, q: Provider, volume: PersistentVolume, inv: World -> bool)
    requires inv(x)
    requires forall y, op | inv(y) && OwnOp(op, id, q) :: inv(After(y, op))
    ensures inv(EnsureVolume(x, config, id, q, volume).w)
    ensures inv(EnsureClaim(EnsureVolume(x, config, id, q, volume).w, id, q).w)
  {
    var name, key := PersistentVolumeName(q, id.ns), ClaimKey(q, id);
    assert OwnOp(GetVolume(name), id, q) && OwnOp(CreateVolume(name, volume), id, q);
    var x1 := After(x, GetVolume(name));
    assert inv(x1);
    OtherSetup(x1, config, id, q, inv);
    var ensured := EnsureVolume(x, config, id, q, volume);
    assert inv(ensured.w);
    assert OwnOp(GetClaim(key), id, q) && OwnOp(CreateClaim(key, ClaimFor(q, id.ns)), id, q);
    assert inv(After(ensured.w, GetClaim(key)));
  }

  lemma OtherSetup(x: World, config: Config, id: Key, q: Provider, inv: World -> bool)
    requires inv(x)
    requires forall y, op | inv(y) && OwnOp(op, id, q) :: inv(After(y, op))
    ensures inv(Setup(x, config, id, q).w)
  {
    hide Ok, Snapshot, SetupJob;
  }

  lemma {:induction false} KeysAreProviders(w: World, config: Config, id: Key, providers: seq<Provider>)
    ensures forall s | s in Process(w, config, id, providers).value ::
      exists j | 0 <= j < |providers| :: providers[j].storage == s
    decreases |providers|
  {
    if providers != [] {
      var n := |providers| - 1;
      KeysAreProviders(w, config, id, providers[..n]);
      forall s | s in Process(w, config, id, providers).value
        ensures exists j | 0 <= j < |providers| :: providers[j].storage == s
      {
        if s in Process(w, config, id, providers[..n]).value {
          var j :| 0 <= j < n && providers[..n][j].storage == s;
          assert providers[j].storage == s;
        } else {
          assert providers[n].storage == s;
        }
      }
    }
  }

  lemma NoEarlierKey(w: World, config: Config, id: Key, earlier: seq<Provider>, s: StorageType)
    requires forall j | 0 <= j < |earlier| :: earlier[j].storage != s
    ensures s !in Process(w, config, id, earlier).value
  {
  }

  lemma TurnClaim(w: World, config: Config, id: Key, p: Provider)
    ensures Turn(w, config, id, p).value.Provided? ==> Turn(w, config, id, p).value.claim == ClaimName(p, id.ns)
  {
  }

  lemma ProcessTake(w: World, config: Config, id: Key, providers: seq<Provider>, i: nat)
    requires i < |providers|
    ensures var turn := Turn(Process(w, config, id, providers[..i]).w, config, id, providers[i]);
      var taken, earlier := Process(w, config, id, providers[..i + 1]), Process(w, config, id, providers[..i]);
      && taken.w == turn.w
      && taken.value ==
        if turn.value.Provided? then earlier.value[providers[i].storage := turn.value.claim] else earlier.value
  {
    assert providers[..i + 1][..i] == providers[..i];
  }

  /** What the result of the first `k` turns says of `s`. */
  function Entry(w: World, config: Config, id: Key, providers: seq<Provider>, s: StorageType, k: int): Option<string> {
    if 0 <= k <= |providers| then
      var result := Process(w, config, id, providers[..k]).value;
      if s in result then Some(result[s]) else None
    else None
  }

  lemma EntryStep(w: World, config: Config, id: Key, providers: seq<Provider>, s: StorageType, k: nat)
    requires k < |providers| && providers[k].storage != s
    ensures Entry(w, config, id, providers, s, k) == Entry(w, config, id, providers, s, k + 1)
  {
    ProcessTake(w, config, id, providers, k);
  }

  lemma {:induction false} Constant<T(!new)>(f: int -> T, i: int, k: int)
    requires i <= k && forall j | i <= j < k :: f(j) == f(j + 1)
    ensures f(i) == f(k)
    decreases k - i
  {
    if i < k {
      Constant(f, i, k - 1);
    }
  }

  /** Later turns do not touch an earlier provider's key. */
  lemma EntryPersists(w: World, config: Config, id: Key, providers: seq<Provider>, i: nat)
    requires Distinct(providers) && i < |providers|
    ensures var s := providers[i].storage;
      Entry(w, config, id, providers, s, i + 1) == Entry(w, config, id, providers, s, |providers|)
  {
    var s := providers[i].storage;
    var f := (k: int) => Entry(w, config, id, providers, s, k);
    forall j | i + 1 <= j < |providers| ensures f(j) == f(j + 1) {
      EntryStep(w, config, id, providers, s, j);
    }
    Constant(f, i + 1, |providers|);
  }

  /** The keys returned are exactly the providers whose own turn provided, with their claim names. */
  lemma ResultKeys(w: World, config: Config, id: Key, providers: seq<Provider>, i: nat)
    requires Distinct(providers) && i < |providers|
    ensures var turn, result := Turn(Process(w, config, id, providers[..i]).w, config, id, providers[i]).value,
                                Process(w, config, id, providers).value;
      && (providers[i].storage in result <==> turn.Provided?)
      && (turn.Provided? ==> result[providers[i].storage] == ClaimName(providers[i], id.ns))
  {
    EntryPersists(w, config, id, providers, i);
    assert providers[..|providers|] == providers;
    ProcessTake(w, config, id, providers, i);
    NoEarlierKey(w, config, id, providers[..i], providers[i].storage);
    TurnClaim(Process(w, config, id, providers[..i]).w, config, id, providers[i]);
  }

  /** Until a provider's turn, and after it, its volume and claim stay put, whatever fails for the others. */
  lemma {:induction false} OnlyOwnTurn(w: World, config: Config, id: Key, providers: seq<Provider>, p: Provider)
    requires forall j | 0 <= j < |providers| :: providers[j].mountType != p.mountType
    ensures Holding(w.cluster, id, p)(Process(w, config, id, providers).w)
    decreases |providers|
  {
    if providers != [] {
      var n := |providers| - 1;
      OnlyOwnTurn(w, config, id, providers[..n], p);
      OtherTurn(Process(w, config, id, providers[..n]).w, config, id, p, providers[n], w.cluster);
    }
  }

  /** The worlds of the turns `i` to `k`, started from `mid`. */
  function Onward(mid: World, config: Config, id: Key, providers: seq<Provider>, i: nat, k: nat): World
    requires i <= k <= |providers|
  {
    Process(mid, config, id, providers[i..k]).w
  }

  lemma OnwardStep(mid: World, config: Config, id: Key, providers: seq<Provider>, i: nat, k: nat)
    requires i < k <= |providers|
    ensures Onward(mid, config, id, providers, i, k) ==
      Turn(Onward(mid, config, id, providers, i, k - 1), config, id, providers[k - 1]).w
  {
    var part := providers[i..k];
    assert part[..|part| - 1] == providers[i..k - 1] && part[|part| - 1] == providers[k - 1];
  }

  lemma {:induction false} OnwardJoins(w: World, config: Config, id: Key, providers: seq<Provider>, i: nat, k: nat)
    requires i <= k <= |providers|
    ensures Onward(w, config, id, providers, 0, k) ==
      Onward(Onward(w, config, id, providers, 0, i), config, id, providers, i, k)
    decreases k
  {
    var mid := Onward(w, config, id, providers, 0, i);
    if k > i {
      OnwardJoins(w, config, id, providers, i, k - 1);
      OnwardStep(w, config, id, providers, 0, k);
      OnwardStep(mid, config, id, providers, i, k);
    } else {
      assert providers[i..i] == [];
    }
  }

  lemma ProcessCut(w: World, config: Config, id: Key, providers: seq<Provider>, i: nat)
    requires i <= |providers|
    ensures Process(w, config, id, providers).w ==
      Process(Process(w, config, id, providers[..i]).w, config, id, providers[i..]).w
  {
    OnwardJoins(w, config, id, providers, i, |providers|);
    assert providers[0..i] == providers[..i] && providers[i..|providers|] == providers[i..];
    assert providers[0..|providers|] == providers;
  }

  lemma HeldBefore(w: World, config: Config, id: Key, providers: seq<Provider>, i: nat)
    requires Distinct(providers) && i < |providers|
    ensures Holding(w.cluster, id, providers[i])(Process(w, config, id, providers[..i]).w)
  {
    OnlyOwnTurn(w, config, id, providers[..i], providers[i]);
  }

  lemma HeldAfter(left: World, config: Config, id: Key, providers: seq<Provider>, i: nat)
    requires Distinct(providers) && i < |providers|
    ensures Holding(left.cluster, id, providers[i])(Process(left, config, id, providers[i + 1..]).w)
  {
    OnlyOwnTurn(left, config, id, providers[i + 1..], providers[i]);
  }

  /** Provider isolation: a provider meets its own volume and claim as they were at the start, and leaves
      them as they will be at the end, whatever the other providers' turns ran into. */
  lemma ProviderIsolation(w: World, config: Config, id: Key, providers: seq<Provider>, i: nat)
    requires Distinct(providers) && i < |providers|
    ensures var p, met := providers[i], Process(w, config, id, providers[..i]).w;
      && Holding(w.cluster, id, p)(met)
      && Holding(Turn(met, config, id, p).w.cluster, id, p)(Process(w, config, id, providers).w)
  {
    HeldBefore(w, config, id, providers, i);
    var left := Turn(Process(w, config, id, providers[..i]).w, config, id, providers[i]).w;
    assert left == Process(w, config, id, providers[..i + 1]).w by {
      ProcessTake(w, config, id, providers, i);
    }
    HeldAfter(left, config, id, providers, i);
    ProcessCut(w, config, id, providers, i + 1);
  }

  // ------------------------------------------- one outcome, whoever else fails

  /** A step of the environment that `p` would not notice. */
  predicate Unnoticed(step: EnvStep, id: Key, p: Provider) {
    match step
    case SetSecrets(_) => false
    case SetDrivers(_) => false
    case RemoveJob(key) => p.storage == S3 || key != SetupKey(p, id.ns)
    case PutJob(key, _) => p.storage == S3 || key != SetupKey(p, id.ns)
    case _ => true
  }

  /** Before its last `n` ticks the script holds any failures, but nothing of the environment that `p` would
      notice. */
  predicate Faults(script: seq<Tick>, n: nat, id: Key, p: Provider) {
    forall i, j | 0 <= i < |script| - n && 0 <= j < |script[i].env| :: Unnoticed(script[i].env[j], id, p)
  }

  /** As long as those last ticks are to come, `p` would notice no difference to `c`. */
  ghost function Spared(c: Cluster, n: nat, id: Key, p: Provider): World -> bool {
    (x: World) => n <= |x.script| ==> SameFor(c, x.cluster, id, p) && Faults(x.script, n, id, p)
  }

  lemma {:induction false} UnnoticedSame(c: Cluster, d: Cluster, steps: seq<EnvStep>, id: Key, p: Provider)
    requires SameFor(c, d, id, p) && forall j | 0 <= j < |steps| :: Unnoticed(steps[j], id, p)
    ensures SameFor(c, Environment(d, steps), id, p)
    decreases |steps|
  {
    if steps != [] {
      assert Unnoticed(steps[0], id, p);
      assert SameFor(c, Act(d, steps[0]), id, p);
      UnnoticedSame(c, Act(d, steps[0]), steps[1..], id, p);
    }
  }

  lemma OtherApply(c: Cluster, d: Cluster, op: Op, spared: set<Key>, id: Key, p: Provider, q: Provider)
    requires p.mountType != q.mountType && p.storage != q.storage && OwnOp(op, id, q) && SameFor(c, d, id, p)
    requires Accepts(d, op)
    ensures SameFor(c, Apply(d, op, spared), id, p)
  {
    Names.ProviderNamesDistinct(p, q, id.ns);
    if p.storage != S3 && q.storage != S3 {
      assert SetupKey(p, id.ns).name[0] != SetupKey(q, id.ns).name[0];
    }
  }

  lemma SparedCall(x: World, op: Op, c: Cluster, n: nat, id: Key, p: Provider, q: Provider)
    requires p.mountType != q.mountType && p.storage != q.storage && OwnOp(op, id, q) && Spared(c, n, id, p)(x)
    ensures Spared(c, n, id, p)(After(x, op))
  {
    var tick, d := NextTick(x), Snapshot(x);
    if n <= |After(x, op).script| {
      UnnoticedSame(c, x.cluster, tick.env, id, p);
      if Accepts(d, op) {
        OtherApply(c, d, op, {}, id, p, q);
        OtherApply(c, d, op, if tick.fault.Lost? then tick.fault.spared else {}, id, p, q);
      }
    }
  }

  lemma {:induction false} SparedTurns(x: World, config: Config, id: Key, providers: seq<Provider>, p: Provider,
        c: Cluster, n: nat)
    requires forall j | 0 <= j < |providers| ::
      providers[j].mountType != p.mountType && providers[j].storage != p.storage
    requires Spared(c, n, id, p)(x)
    ensures Spared(c, n, id, p)(Process(x, config, id, providers).w)
    decreases |providers|
  {
    if providers != [] {
      var k := |providers| - 1;
      var inv, q := Spared(c, n, id, p), providers[k];
      SparedTurns(x, config, id, providers[..k], p, c, n);
      forall y, op | inv(y) && OwnOp(op, id, q) ensures inv(After(y, op)) {
        SparedCall(y, op, c, n, id, p, q);
      }
      OwnOpsKeep(Process(x, config, id, providers[..k]).w, config, id, q, inv);
    }
  }

  /** Two runs meet a provider's turn alike: same footprint at the start, same script from the turn on, and
      before it only failures and what the provider would not notice. */
  ghost predicate MeetAlike(x: World, y: World, config: Config, id: Key, xs: seq<Provider>, i: nat, ys: seq<Provider>,
        j: nat)
    requires i < |xs| && j < |ys|
  {
    var p, script := xs[i], Process(x, config, id, xs[..i]).w.script;
    && ys[j] == p && SameFor(x.cluster, y.cluster, id, p)
    && Process(y, config, id, ys[..j]).w.script == script
    && Faults(x.script, |script|, id, p) && Faults(y.script, |script|, id, p)
  }

  lemma AgreeAtTurn(x: World, y: World, config: Config, id: Key, xs: seq<Provider>, i: nat, ys: seq<Provider>, j: nat)
    requires Distinct(xs) && Distinct(ys) && i < |xs| && j < |ys| && MeetAlike(x, y, config, id, xs, i, ys, j)
    ensures Agree(Process(x, config, id, xs[..i]).w, Process(y, config, id, ys[..j]).w, id, xs[i])
  {
    var n := |Process(x, config, id, xs[..i]).w.script|;
    SparedTurns(x, config, id, xs[..i], xs[i], x.cluster, n);
    SparedTurns(y, config, id, ys[..j], xs[i], x.cluster, n);
  }

  /** Provider isolation, end to end: a provider's result, volume and claim at the end of the storage phase are
      the same in both runs, whichever other providers are enabled and whatever their turns ran into. */
  lemma SameOutcome(x: World, y: World, config: Config, id: Key, xs: seq<Provider>, i: nat, ys: seq<Provider>, j: nat)
    requires Distinct(xs) && Distinct(ys) && i < |xs| && j < |ys| && MeetAlike(x, y, config, id, xs, i, ys, j)
    ensures var p, a, b := xs[i], Process(x, config, id, xs), Process(y, config, id, ys);
      && (p.storage in a.value <==> p.storage in b.value)
      && (p.storage in a.value ==> a.value[p.storage] == b.value[p.storage] == ClaimName(p, id.ns))
      && VolumeOf(a.w.cluster, id, p) == VolumeOf(b.w.cluster, id, p)
      && ClaimOf(a.w.cluster, id, p) == ClaimOf(b.w.cluster, id, p)
  {
    var p := xs[i];
    AgreeAtTurn(x, y, config, id, xs, i, ys, j);
    TurnFootprint(Process(x, config, id, xs[..i]).w, Process(y, config, id, ys[..j]).w, config, id, p);
    ProviderIsolation(x, config, id, xs, i);
    ProviderIsolation(y, config, id, ys, j);
    ResultKeys(x, config, id, xs, i);
    ResultKeys(y, config, id, ys, j);
  }
}
