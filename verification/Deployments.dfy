/** The Xpra server deployment: its model, and the update that makes a found one like it. */
module Deployments {
  import opened Options
  import opened Objects

  function DeploymentKey(id: Key): Key { Key(id.ns, id.name + "-server") }

  const SOCKET := [Mount("x11-unix", "/tmp/.X11-unix", "")]

  function InitDeployment(id: Key, spec: Spec, config: Config): Deployment {
    var labels := map[LABEL := id.name];
    var sidecar := if config.sidecarImage == "" then "alpine/socat:latest" else config.sidecarImage;
    var version := if spec.serverVersion == "" then "latest" else spec.serverVersion;
    Deployment(
      labels,
      labels,
      [Container("xpra-server-bind", sidecar, SOCKET, UNLIMITED)],
      [Container("xpra-server", config.serverImage + ":" + version, SOCKET, UNLIMITED)],
      None,
      [])
  }

  /** One container list of the destination made like the source's, and whether that was needed. Only
      the image of a lone container is corrected; any other list is replaced. */
  function Merge(source: seq<Container>, destination: seq<Container>): (seq<Container>, bool)
    requires |source| == 1
  {
    var image := source[0].image;
    if |destination| != 1 then (source, true)
    else if destination[0].image != image then ([destination[0].(image := image)], true)
    else (destination, false)
  }

  /** The update indexes both old lists at 0, so it panics, here `None`, on an empty one. */
  function Update(source: Deployment, destination: Deployment): Option<(Deployment, bool)>
    requires |source.main| == |source.init| == 1
  {
    if destination.main == [] || destination.init == [] then None
    else
      var (main, a) := Merge(source.main, destination.main);
      var (init, b) := Merge(source.init, destination.init);
      Some((destination.(main := main, init := init), a || b))
  }

  /** An update succeeds exactly on non-empty lists; then each list is one container with the source's
      image, the flag is exact, nothing else moves, and updating again changes nothing. */
  lemma UpdateConverges(source: Deployment, destination: Deployment)
    requires |source.main| == |source.init| == 1
    ensures Update(source, destination).Some? <==> destination.main != [] && destination.init != []
    ensures var u := Update(source, destination); u.Some? ==>
      var (d, updated) := u.value;
      && |d.main| == |d.init| == 1
      && d.main[0].image == source.main[0].image && d.init[0].image == source.init[0].image
      && (|destination.main| == 1 ==> d.main[0].name == destination.main[0].name)
      && (|destination.init| == 1 ==> d.init[0].name == destination.init[0].name)
      && d.(main := destination.main, init := destination.init) == destination
      && (updated <==> d != destination)
      && Update(source, d) == Some((d, false))
  {
  }

  /** The two container slices of a pod template: references to arrays that may be shared. */
  class PodTemplate {
    var main: array<Container>
    var init: array<Container>

    constructor (main: array<Container>, init: array<Container>)
      ensures this.main == main && this.init == init
    {
      this.main, this.init := main, init;
    }
  }

  /** The source's in-place update. The destination may share its arrays with the source, before and
      after the call; the source's containers never change. */
  method UpdateInPlace(source: PodTemplate, destination: PodTemplate) returns (updated: bool)
    requires source != destination
    requires source.main.Length == source.init.Length == 1
    requires destination.main.Length > 0 && destination.init.Length > 0
    requires {source.main, destination.main} !! {source.init, destination.init}
    modifies destination, destination.main, destination.init, source.main, source.init
    ensures var (main, a) := Merge(old(source.main[..]), old(destination.main[..]));
      var (init, b) := Merge(old(source.init[..]), old(destination.init[..]));
      destination.main[..] == main && destination.init[..] == init && (updated <==> a || b)
    ensures source.main == old(source.main) && source.init == old(source.init)
    ensures source.main[..] == old(source.main[..]) && source.init[..] == old(source.init[..])
    ensures destination.main == (if old(destination.main.Length) != 1 then source.main else old(destination.main))
    ensures destination.init == (if old(destination.init.Length) != 1 then source.init else old(destination.init))
  {
    updated := false;

    var containers := destination.main;
    if containers.Length != 1 {
      destination.main := source.main;
      updated := true;
    }
    var serverImage := source.main[0].image;
    if containers[0].image != serverImage {
      destination.main[0] := destination.main[0].(image := serverImage);
      updated := true;
    }
    assert source.main[..] == old(source.main[..]);

    var initContainers := destination.init;
    if initContainers.Length != 1 {
      destination.init := source.init;
      updated := true;
    }
    var sidecarImage := source.init[0].image;
    if initContainers[0].image != sidecarImage {
      destination.init[0] := destination.init[0].(image := sidecarImage);
      updated := true;
    }
    assert source.init[..] == old(source.init[..]);
  }
}
