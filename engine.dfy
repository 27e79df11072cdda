/**
 * An abstract Docker engine: the inventory of images and containers that the docker-py
 * client calls read and change, the log of the state-changing calls the commands issue,
 * and the lines the commands print.
 *
 * A call that the real engine would refuse (a name conflict, an unknown container, removing
 * a running container, creating from an image that was never pulled) changes nothing but
 * the call log and reports failure; the commands treat that as the exception that aborts them.
 */
module Engine {
  import opened Util
  import opened Messages

  /** An entry of `images()`: only its `RepoTags` matter here. */
  datatype Image = Image(repoTags: seq<string>)

  /** An entry of `containers(all=True)`: `Names` carry a leading '/' as the engine reports them. */
  datatype Container = Container(
    names: seq<string>,
    image: string,
    env: map<string, string>,
    running: bool,
    restartPolicy: string,
    portBindings: map<int, string>)

  /** The state-changing engine calls, as issued (successful or not). */
  datatype Call =
    | PullCall(image: string)
    | CreateCall(name: string, image: string, env: map<string, string>)
    | StartCall(name: string, restartPolicy: string, portBindings: map<int, string>)
    | StopCall(name: string)
    | RemoveCall(name: string)

  /** Everything a command can observe or change: inventory, call log, printed lines. */
  datatype World = World(images: seq<Image>, containers: seq<Container>, calls: seq<Call>, out: seq<Line>)

  /** `containers()` without `all=True`: the running containers, in listing order. */
  function RunningOnly(cs: seq<Container>): (r: seq<Container>)
    ensures |r| <= |cs|
    ensures forall c :: c in r <==> c in cs && c.running
  {
    if cs == [] then []
    else
      var init := cs[..|cs| - 1];
      assert cs == init + [cs[|cs| - 1]];
      RunningOnly(init) + (if cs[|cs| - 1].running then [cs[|cs| - 1]] else [])
  }

  predicate HasTag(images: seq<Image>, tag: string) {
    exists i :: 0 <= i < |images| && tag in images[i].repoTags
  }

  predicate HasName(cs: seq<Container>, name: string) {
    exists i :: 0 <= i < |cs| && "/" + name in cs[i].names
  }

  /** The engine keeps container names unique. */
  predicate UniqueNames(cs: seq<Container>) {
    forall i, j, n :: 0 <= i < |cs| && 0 <= j < |cs| && n in cs[i].names && n in cs[j].names ==> i == j
  }

  /** The container a call addressed by `name` acts on. */
  function Lookup(cs: seq<Container>, name: string): (r: Option<nat>)
    ensures r.None? ==> forall j :: 0 <= j < |cs| ==> "/" + name !in cs[j].names
    ensures r.Some? ==> r.value < |cs| && "/" + name in cs[r.value].names
    ensures r.Some? <==> HasName(cs, name)
  {
    if cs == [] then None
    else if "/" + name in cs[0].names then Some(0)
    else
      match Lookup(cs[1..], name)
      case Some(i) => Some(i + 1)
      case None => None
  }

  function Say(w: World, line: Line): World {
    w.(out := w.out + [line])
  }

  /** `pull(tag)`: afterwards some image carries the tag (image digests are not modelled). */
  function PullEffect(w: World, tag: string): (w': World)
    ensures HasTag(w'.images, tag)
  {
    var w1 := w.(calls := w.calls + [PullCall(tag)]);
    if HasTag(w.images, tag) then w1
    else
      var images := w.images + [Image([tag])];
      assert tag in images[|w.images|].repoTags;
      w1.(images := images)
  }

  /** `create_container(name=..., image=..., environment=...)`: a new, stopped container. */
  function CreateEffect(w: World, name: string, image: string, env: map<string, string>): (World, bool)
  {
    var w1 := w.(calls := w.calls + [CreateCall(name, image, env)]);
    if HasName(w.containers, name) || !HasTag(w.images, image) then (w1, false)
    else (w1.(containers := w.containers + [Container(["/" + name], image, env, false, "", map[])]), true)
  }

  /** `start(container=name, restart_policy=..., port_bindings=...)`. */
  function StartEffect(w: World, name: string, policy: string, bindings: map<int, string>): (World, bool)
  {
    var w1 := w.(calls := w.calls + [StartCall(name, policy, bindings)]);
    match Lookup(w.containers, name)
    case None => (w1, false)
    case Some(i) =>
      var c := w.containers[i];
      (w1.(containers := w.containers[i := c.(running := true, restartPolicy := policy, portBindings := bindings)]), true)
  }

  /** `stop(container=name)`. */
  function StopEffect(w: World, name: string): (World, bool)
  {
    var w1 := w.(calls := w.calls + [StopCall(name)]);
    match Lookup(w.containers, name)
    case None => (w1, false)
    case Some(i) => (w1.(containers := w.containers[i := w.containers[i].(running := false)]), true)
  }

  /** `remove_container(container=name)`: refused for an unknown or a running container. */
  function RemoveEffect(w: World, name: string): (World, bool)
  {
    var w1 := w.(calls := w.calls + [RemoveCall(name)]);
    match Lookup(w.containers, name)
    case None => (w1, false)
    case Some(i) =>
      if w.containers[i].running then (w1, false)
      else (w1.(containers := w.containers[..i] + w.containers[i + 1..]), true)
  }

  /** Every engine call keeps container names unique. */
  lemma EffectsKeepUniqueNames(w: World, name: string, image: string, env: map<string, string>,
                               policy: string, bindings: map<int, string>)
    requires UniqueNames(w.containers)
    ensures UniqueNames(CreateEffect(w, name, image, env).0.containers)
    ensures UniqueNames(StartEffect(w, name, policy, bindings).0.containers)
    ensures UniqueNames(StopEffect(w, name).0.containers)
    ensures UniqueNames(RemoveEffect(w, name).0.containers)
  {
    CreateKeepsUniqueNames(w, name, image, env);
    RemoveKeepsUniqueNames(w, name);
  }

  lemma CreateKeepsUniqueNames(w: World, name: string, image: string, env: map<string, string>)
    requires UniqueNames(w.containers)
    ensures UniqueNames(CreateEffect(w, name, image, env).0.containers)
  {
    var cr := CreateEffect(w, name, image, env).0.containers;
    if cr != w.containers {
      forall i, j, n | 0 <= i < |cr| && 0 <= j < |cr| && n in cr[i].names && n in cr[j].names
        ensures i == j
      {
      }
    }
  }

  lemma RemoveKeepsUniqueNames(w: World, name: string)
    requires UniqueNames(w.containers)
    ensures UniqueNames(RemoveEffect(w, name).0.containers)
  {
    var cs := w.containers;
    var cd := RemoveEffect(w, name).0.containers;
    if cd != cs {
      var k := Lookup(cs, name).value;
      forall i, j, n | 0 <= i < |cd| && 0 <= j < |cd| && n in cd[i].names && n in cd[j].names
        ensures i == j
      {
        var i' := if i < k then i else i + 1;
        var j' := if j < k then j else j + 1;
        assert cd[i] == cs[i'] && cd[j] == cs[j'];
      }
    }
  }

  /** The docker-py client, standing in for the engine it talks to. */
  class Client {
    var images: seq<Image>
    var containers: seq<Container>
    var calls: seq<Call>
    var out: seq<Line>

    constructor (images: seq<Image>, containers: seq<Container>)
      ensures Snapshot() == World(images, containers, [], [])
    {
      this.images := images;
      this.containers := containers;
      this.calls := [];
      this.out := [];
    }

    function Snapshot(): World
      reads this
    {
      World(images, containers, calls, out)
    }

    /** `images()` */
    method Images() returns (r: seq<Image>)
      ensures r == images
    {
      r := images;
    }

    /** `containers()` (running only) and `containers(all=True)` */
    method Containers(all: bool) returns (r: seq<Container>)
      ensures r == if all then containers else RunningOnly(containers)
    {
      r := if all then containers else RunningOnly(containers);
    }

    /** `print(line)` */
    method Print(line: Line)
      modifies this
      ensures Snapshot() == Say(old(Snapshot()), line)
    {
      out := out + [line];
    }

    method Pull(tag: string)
      modifies this
      ensures Snapshot() == PullEffect(old(Snapshot()), tag)
    {
      calls := calls + [PullCall(tag)];
      if !HasTag(images, tag) {
        images := images + [Image([tag])];
      }
    }

    method CreateContainer(name: string, image: string, env: map<string, string>) returns (ok: bool)
      modifies this
      ensures (Snapshot(), ok) == CreateEffect(old(Snapshot()), name, image, env)
    {
      calls := calls + [CreateCall(name, image, env)];
      ok := !HasName(containers, name) && HasTag(images, image);
      if ok {
        containers := containers + [Container(["/" + name], image, env, false, "", map[])];
      }
    }

    method Start(name: string, policy: string, bindings: map<int, string>) returns (ok: bool)
      modifies this
      ensures (Snapshot(), ok) == StartEffect(old(Snapshot()), name, policy, bindings)
    {
      calls := calls + [StartCall(name, policy, bindings)];
      match Lookup(containers, name)
      case None => ok := false;
      case Some(i) =>
        containers := containers[i := containers[i].(running := true, restartPolicy := policy, portBindings := bindings)];
        ok := true;
    }

    method Stop(name: string) returns (ok: bool)
      modifies this
      ensures (Snapshot(), ok) == StopEffect(old(Snapshot()), name)
    {
      calls := calls + [StopCall(name)];
      match Lookup(containers, name)
      case None => ok := false;
      case Some(i) =>
        containers := containers[i := containers[i].(running := false)];
        ok := true;
    }

    method RemoveContainer(name: string) returns (ok: bool)
      modifies this
      ensures (Snapshot(), ok) == RemoveEffect(old(Snapshot()), name)
    {
      calls := calls + [RemoveCall(name)];
      match Lookup(containers, name)
      case None => ok := false;
      case Some(i) =>
        if containers[i].running {
          ok := false;
        } else {
          containers := containers[..i] + containers[i + 1..];
          ok := true;
        }
    }
  }
}
