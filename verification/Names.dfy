/** The names and paths the operator builds: which parts they determine, and where they collide. */
module Names {
  import opened Options
  import opened Objects
  import opened Text
  import Jobs
  import Storage

  // ---------------------------------------------------------------- storage

  predicate HyphenFree(s: string) { '-' !in s }

  /** The cluster-scoped names and handles determine the namespace and the mount type. */
  lemma VolumeNamesInjective(p: Storage.Provider, ns: string, q: Storage.Provider, ms: string)
    requires HyphenFree(p.mountType) && HyphenFree(q.mountType)
    ensures Storage.PersistentVolumeName(p, ns) == Storage.PersistentVolumeName(q, ms) <==>
      ns == ms && p.mountType == q.mountType
    ensures Storage.VolumeHandle(p, ns) == Storage.VolumeHandle(q, ms) <==> ns == ms && p.mountType == q.mountType
  {
    var a, b := ns + "-" + p.mountType, ms + "-" + q.mountType;
    if a + "-pv" == b + "-pv" {
      SuffixCancel(a, b, "-pv");
    }
    if a == b {
      assert ns + ['-'] + p.mountType == ms + ['-'] + q.mountType;
      LastSeparator(ns, p.mountType, ms, q.mountType, '-');
    }
  }

  /** Within one namespace, any two mount types are told apart. */
  lemma ProviderNamesDistinct(p: Storage.Provider, q: Storage.Provider, ns: string)
    requires p.mountType != q.mountType
    ensures Storage.PersistentVolumeName(p, ns) != Storage.PersistentVolumeName(q, ns)
    ensures Storage.ClaimName(p, ns) != Storage.ClaimName(q, ns)
    ensures Storage.VolumeName(p) != Storage.VolumeName(q)
  {
    var a, b := ns + "-" + p.mountType, ns + "-" + q.mountType;
    if a == b {
      PrefixCancel(ns + "-", p.mountType, q.mountType);
    }
    if a + "-pv" == b + "-pv" {
      SuffixCancel(a, b, "-pv");
    }
    if a + "-pvc" == b + "-pvc" {
      SuffixCancel(a, b, "-pvc");
    }
    if Storage.VolumeName(p) == Storage.VolumeName(q) {
      PrefixCancel("workspace-", p.mountType, q.mountType);
    }
  }

  predicate SlashFree(s: string) { '/' !in s }

  /** The paths inside the volumes determine the namespace and the user, and never meet. */
  lemma PathsInjective(ns: string, user: string, ms: string, other: string)
    requires SlashFree(ns) && SlashFree(ms)
    ensures Storage.DataPath(ns) == Storage.DataPath(ms) <==> ns == ms
    ensures Storage.AppDataPath(ns, user) == Storage.AppDataPath(ms, other) <==> ns == ms && user == other
    ensures Storage.DataPath(ns) != Storage.AppDataPath(ms, other)
  {
    var root := "workspaces/";
    var app := "app_data/";
    assert |app + other| > |"data"|;
    assert Storage.DataPath(ns) == root + (ns + ['/'] + "data");
    assert Storage.DataPath(ms) == root + (ms + ['/'] + "data");
    assert Storage.AppDataPath(ns, user) == root + (ns + ['/'] + (app + user));
    assert Storage.AppDataPath(ms, other) == root + (ms + ['/'] + (app + other));
    if Storage.DataPath(ns) == Storage.DataPath(ms) {
      PrefixCancel(root, ns + ['/'] + "data", ms + ['/'] + "data");
      FirstSeparator(ns, "data", ms, "data", '/');
    }
    if Storage.AppDataPath(ns, user) == Storage.AppDataPath(ms, other) {
      PrefixCancel(root, ns + ['/'] + (app + user), ms + ['/'] + (app + other));
      FirstSeparator(ns, app + user, ms, app + other, '/');
      PrefixCancel(app, user, other);
    }
    if Storage.DataPath(ns) == Storage.AppDataPath(ms, other) {
      PrefixCancel(root, ns + ['/'] + "data", ms + ['/'] + (app + other));
      FirstSeparator(ns, "data", ms, app + other, '/');
    }
  }

  // ------------------------------------------------------------------- jobs

  /** One name followed by a hyphen begins the other. */
  predicate Mixable(u: string, v: string) { u + "-" <= v || v + "-" <= u }

  /** Two texts that begin with different names, each followed by a hyphen, are equal only if the names mix. */
  lemma MixedTexts(u: string, a: string, v: string, b: string)
    requires u != v && u + "-" + a == v + "-" + b
    ensures Mixable(u, v)
  {
    var s := u + "-" + a;
    assert u == s[..|u|] && v == s[..|v|];
    assert u + "-" == s[..|u| + 1] && v + "-" == s[..|v| + 1];
    if |u| < |v| {
      assert u + "-" == v[..|u| + 1];
    } else {
      assert v + "-" == u[..|v| + 1];
    }
  }

  /** For one workbench, the job name determines the uid and the app name unless the uids mix. */
  lemma JobNames(id: Key, uid: string, app: App, vid: string, other: App)
    requires !Mixable(uid, vid)
    ensures Jobs.JobKey(id, uid, app) == Jobs.JobKey(id, vid, other) <==> uid == vid && app.name == other.name
  {
    var prefix := id.name + "-";
    assert Jobs.JobName(id, uid, app) == prefix + (uid + "-" + app.name);
    assert Jobs.JobName(id, vid, other) == prefix + (vid + "-" + other.name);
    if Jobs.JobName(id, uid, app) == Jobs.JobName(id, vid, other) {
      PrefixCancel(prefix, uid + "-" + app.name, vid + "-" + other.name);
      if uid != vid {
        MixedTexts(uid, app.name, vid, other.name);
      }
      PrefixCancel(uid + "-", app.name, other.name);
    }
  }

  /** Uids without hyphens do not mix, and neither do uids of one length, such as UUIDs. */
  lemma SeparateUids(u: string, v: string)
    ensures (HyphenFree(u) && HyphenFree(v)) || |u| == |v| ==> !Mixable(u, v)
  {
    assert (u + "-")[|u|] == '-' == (v + "-")[|v|];
    if u + "-" <= v {
      assert v[|u|] == (u + "-")[|u|];
    }
    if v + "-" <= u {
      assert u[|v|] == (v + "-")[|v|];
    }
  }

  /** The longest app name that the API server admits. */
  const MAX_NAME := 30

  predicate Admitted(app: App) { 1 <= |app.name| <= MAX_NAME }

  function Sample(name: string, state: AppState): App {
    App(name, "", state, Some(Image("r", "apps/a", "")), None, None)
  }

  /** `u` followed by a hyphen begins `v`, whose rest leaves room for more of an app name. */
  predicate Extends(u: string, v: string) { u + "-" <= v && |v| - |u| < MAX_NAME }

  /** Two uids of one workbench get the same job name for some admitted apps. */
  ghost predicate UidsMeet(id: Key, u: string, v: string) {
    exists a: App, b: App :: Jobs.JobKey(id, u, a) == Jobs.JobKey(id, v, b) && Admitted(a) && Admitted(b)
  }

  /** They do exactly if one extends the other. */
  lemma UidsCollide(id: Key, u: string, v: string)
    requires u != v
    ensures UidsMeet(id, u, v) <==> Extends(u, v) || Extends(v, u)
  {
    if Extends(u, v) {
      UidCollision(id, u, v);
    } else if Extends(v, u) {
      UidCollision(id, v, u);
    } else if UidsMeet(id, u, v) {
      var a: App, b: App :| Jobs.JobKey(id, u, a) == Jobs.JobKey(id, v, b) && Admitted(a) && Admitted(b);
      UidNames(id, u, a, v, b);
    }
  }

  lemma UidNames(id: Key, u: string, a: App, v: string, b: App)
    requires u != v && Admitted(a) && Admitted(b) && Jobs.JobKey(id, u, a) == Jobs.JobKey(id, v, b)
    ensures Extends(u, v) || Extends(v, u)
  {
    var prefix := id.name + "-";
    assert Jobs.JobName(id, u, a) == prefix + (u + "-" + a.name);
    assert Jobs.JobName(id, v, b) == prefix + (v + "-" + b.name);
    PrefixCancel(prefix, u + "-" + a.name, v + "-" + b.name);
    MixedTexts(u, a.name, v, b.name);
    assert |u + "-" + a.name| == |v + "-" + b.name|;
  }

  lemma UidCollision(id: Key, u: string, v: string)
    requires Extends(u, v)
    ensures UidsMeet(id, u, v) && UidsMeet(id, v, u)
  {
    var rest := v[|u| + 1..];
    assert v == u + "-" + rest;
    var a, b := Sample(rest + "-" + "x", AppState.Running), Sample("x", AppState.Running);
    assert Jobs.JobName(id, u, a) == Jobs.JobName(id, v, b);
    assert Jobs.JobKey(id, u, a) == Jobs.JobKey(id, v, b);
  }

  /** Two workbenches of one namespace get the same job name for some uids and admitted apps. */
  ghost predicate WorkbenchesMeet(ns: string, w: string, x: string, hyphenFree: bool) {
    exists u: string, a: App, v: string, b: App ::
      Jobs.JobKey(Key(ns, w), u, a) == Jobs.JobKey(Key(ns, x), v, b) && Admitted(a) && Admitted(b) &&
      (hyphenFree ==> HyphenFree(u) && HyphenFree(v))
  }

  /** `w` followed by a hyphen begins `x`, and what follows the next hyphen in `x` leaves room for more of an
      app name. */
  predicate Reaches(w: string, x: string) {
    w + "-" <= x && |FirstPart(x[|w| + 1..] + "-").1| + 2 <= MAX_NAME
  }

  /** They do exactly if their names mix. */
  lemma WorkbenchesCollide(ns: string, w: string, x: string)
    requires w != x
    ensures WorkbenchesMeet(ns, w, x, false) <==> Mixable(w, x)
  {
    if w + "-" <= x {
      WorkbenchCollision(ns, w, x);
    } else if x + "-" <= w {
      WorkbenchCollision(ns, x, w);
    } else if WorkbenchesMeet(ns, w, x, false) {
      var u: string, a: App, v: string, b: App :| Jobs.JobKey(Key(ns, w), u, a) == Jobs.JobKey(Key(ns, x), v, b);
      WorkbenchNames(ns, w, u, a, x, v, b);
    }
  }

  /** With hyphen-free uids they do exactly if one name reaches the other. */
  lemma HyphenFreeCollide(ns: string, w: string, x: string)
    requires w != x
    ensures WorkbenchesMeet(ns, w, x, true) <==> Reaches(w, x) || Reaches(x, w)
  {
    if Reaches(w, x) {
      HyphenFreeCollision(ns, w, x);
    } else if Reaches(x, w) {
      HyphenFreeCollision(ns, x, w);
    } else if WorkbenchesMeet(ns, w, x, true) {
      var u: string, a: App, v: string, b: App :|
        Jobs.JobKey(Key(ns, w), u, a) == Jobs.JobKey(Key(ns, x), v, b) && Admitted(a) && Admitted(b) &&
        HyphenFree(u) && HyphenFree(v);
      HyphenFreeReach(ns, w, u, a, x, v, b);
    }
  }

  lemma WorkbenchNames(ns: string, w: string, u: string, a: App, x: string, v: string, b: App)
    requires w != x && Jobs.JobKey(Key(ns, w), u, a) == Jobs.JobKey(Key(ns, x), v, b)
    ensures Mixable(w, x)
  {
    assert Jobs.JobName(Key(ns, w), u, a) == w + "-" + (u + "-" + a.name);
    assert Jobs.JobName(Key(ns, x), v, b) == x + "-" + (v + "-" + b.name);
    MixedTexts(w, u + "-" + a.name, x, v + "-" + b.name);
  }

  lemma HyphenFreeReach(ns: string, w: string, u: string, a: App, x: string, v: string, b: App)
    requires w != x && HyphenFree(u) && HyphenFree(v) && Admitted(a) && Admitted(b)
    requires Jobs.JobKey(Key(ns, w), u, a) == Jobs.JobKey(Key(ns, x), v, b)
    ensures Reaches(w, x) || Reaches(x, w)
  {
    WorkbenchNames(ns, w, u, a, x, v, b);
    if w + "-" <= x {
      Reach(ns, w, u, a, x, v, b);
    } else {
      Reach(ns, x, v, b, w, u, a);
    }
  }

  lemma Reach(ns: string, w: string, u: string, a: App, x: string, v: string, b: App)
    requires w + "-" <= x && HyphenFree(u) && Admitted(a) && Admitted(b)
    requires Jobs.JobKey(Key(ns, w), u, a) == Jobs.JobKey(Key(ns, x), v, b)
    ensures Reaches(w, x)
  {
    var rest := x[|w| + 1..];
    assert x == w + "-" + rest;
    var (first, tail) := FirstPart(rest + "-");
    var more := tail + (v + "-" + b.name);
    assert Jobs.JobName(Key(ns, w), u, a) == w + "-" + (u + ['-'] + a.name);
    assert Jobs.JobName(Key(ns, x), v, b) == w + "-" + (first + ['-'] + more) by {
      assert first + ['-'] + more == (rest + "-") + (v + "-" + b.name);
    }
    PrefixCancel(w + "-", u + ['-'] + a.name, first + ['-'] + more);
    FirstSeparator(u, a.name, first, more, '-');
  }

  lemma WorkbenchCollision(ns: string, w: string, x: string)
    requires w + "-" <= x
    ensures WorkbenchesMeet(ns, w, x, false) && WorkbenchesMeet(ns, x, w, false)
  {
    var rest, a := x[|w| + 1..], Sample("x", AppState.Running);
    var u := rest + "-v";
    assert x == w + "-" + rest;
    assert Jobs.JobName(Key(ns, w), u, a) == Jobs.JobName(Key(ns, x), "v", a);
    Meet(ns, w, u, a, x, "v", a, false);
  }

  lemma Meet(ns: string, w: string, u: string, a: App, x: string, v: string, b: App, hyphenFree: bool)
    requires Jobs.JobName(Key(ns, w), u, a) == Jobs.JobName(Key(ns, x), v, b) && Admitted(a) && Admitted(b)
    requires hyphenFree ==> HyphenFree(u) && HyphenFree(v)
    ensures WorkbenchesMeet(ns, w, x, hyphenFree) && WorkbenchesMeet(ns, x, w, hyphenFree)
  {
    assert Jobs.JobKey(Key(ns, w), u, a) == Jobs.JobKey(Key(ns, x), v, b);
  }

  lemma HyphenFreeCollision(ns: string, w: string, x: string)
    requires Reaches(w, x)
    ensures WorkbenchesMeet(ns, w, x, true) && WorkbenchesMeet(ns, x, w, true)
  {
    var rest, b := x[|w| + 1..], Sample("x", AppState.Running);
    var (u, tail) := FirstPart(rest + "-");
    var a := Sample(tail + "-x", AppState.Running);
    assert x == w + "-" + rest;
    assert Jobs.JobName(Key(ns, w), u, a) == w + "-" + (u + "-" + tail) + "-x";
    assert Jobs.JobName(Key(ns, x), "", b) == w + "-" + (rest + "-") + "-x";
    Meet(ns, w, u, a, x, "", b, true);
  }

  /** A text with a hyphen, cut at the first one. */
  function FirstPart(s: string): (cut: (string, string))
    requires '-' in s
    ensures HyphenFree(cut.0) && s == cut.0 + "-" + cut.1
  {
    if s[0] == '-' then ("", s[1..])
    else
      var (a, b) := FirstPart(s[1..]);
      ([s[0]] + a, b)
  }
}
