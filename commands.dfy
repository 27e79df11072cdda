/**
 * The `tethys docker` subcommands: each one resolves its selection (every catalog input when
 * none is given) and chains the reconciliation steps of `Lifecycle` on one client.
 *
 * As in `Lifecycle`, each command is a function on the engine state with a method on the
 * client proved equal to it; the lemmas state what the composition achieves.
 */
module Commands {
  import opened Util
  import opened Messages
  import opened Catalog
  import opened Engine
  import opened Inventory
  import opened Readings
  import opened Lifecycle

  /** A missing `containers` argument selects every catalog input. */
  function Selection(containers: Option<seq<string>>): seq<string> {
    match containers
    case None => AllDockerInputs
    case Some(sel) => sel
  }

  // ---------------------------------------------------------------------------------------
  // Pulling images.

  /** One `pull` per tag, in order. */
  function PullAll(w: World, tags: seq<string>): World
    decreases |tags|
  {
    if tags == [] then w
    else PullEffect(PullAll(w, tags[..|tags| - 1]), tags[|tags| - 1])
  }

  /** The pull calls for a list of tags, in order. */
  function PullCalls(tags: seq<string>): (r: seq<Call>)
    ensures |r| == |tags| && forall i :: 0 <= i < |tags| ==> r[i] == PullCall(tags[i])
  {
    if tags == [] then [] else PullCalls(tags[..|tags| - 1]) + [PullCall(tags[|tags| - 1])]
  }

  /** Pulling a list of tags logs one pull per tag, touches no container and prints nothing. */
  lemma {:induction false} PullAllEffect(w: World, tags: seq<string>)
    ensures PullAll(w, tags).containers == w.containers
    ensures PullAll(w, tags).out == w.out
    ensures PullAll(w, tags).calls == w.calls + PullCalls(tags)
    decreases |tags|
  {
    if tags != [] {
      var init := tags[..|tags| - 1];
      var y := tags[|tags| - 1];
      assert tags == init + [y];
      PullAllEffect(w, init);
      var w0 := PullAll(w, init);
      assert PullAll(w, tags) == PullEffect(w0, y);
      assert PullCalls(init) + [PullCall(y)] == PullCalls(tags);
      assert (w.calls + PullCalls(init)) + [PullCall(y)] == w.calls + (PullCalls(init) + [PullCall(y)]);
    }
  }

  /** The tags present after pulling a list: those present before and the pulled ones. */
  lemma {:induction false} PullAllTags(w: World, tags: seq<string>)
    ensures forall t :: HasTag(PullAll(w, tags).images, t) <==> HasTag(w.images, t) || t in tags
    decreases |tags|
  {
    if tags != [] {
      var init := tags[..|tags| - 1];
      var y := tags[|tags| - 1];
      assert tags == init + [y];
      PullAllTags(w, init);
      PullTags(PullAll(w, init), y);
    }
  }

  /** After one pull, a tag is present iff it was present or is the pulled one. */
  lemma {:induction false} PullTags(w: World, tag: string)
    ensures forall t :: HasTag(PullEffect(w, tag).images, t) <==> HasTag(w.images, t) || t == tag
  {
    forall t ensures HasTag(PullEffect(w, tag).images, t) <==> HasTag(w.images, t) || t == tag {
      if !HasTag(w.images, tag) {
        var images := w.images + [Image([tag])];
        assert PullEffect(w, tag).images == images;
        if HasTag(images, t) {
          var i :| 0 <= i < |images| && t in images[i].repoTags;
          if i < |w.images| {
            assert HasTag(w.images, t);
          }
        }
        if HasTag(w.images, t) {
          var i :| 0 <= i < |w.images| && t in w.images[i].repoTags;
          assert images[i] == w.images[i];
        }
      }
    }
  }

  /** Pulling two lists one after the other is pulling their concatenation. */
  lemma {:induction false} PullAllAppend(w: World, a: seq<string>, b: seq<string>)
    ensures PullAll(PullAll(w, a), b) == PullAll(w, a + b)
    decreases |b|
  {
    if b == [] {
      assert a + b == a;
    } else {
      var init := b[..|b| - 1];
      PullAllAppend(w, a, init);
      assert (a + b)[..|a + b| - 1] == a + init;
    }
  }

  /** The pull loop: one `pull` per tag. */
  method PullImages(client: Client, tags: seq<string>)
    modifies client
    ensures client.Snapshot() == PullAll(old(client.Snapshot()), tags)
  {
    for i := 0 to |tags|
      invariant client.Snapshot() == PullAll(old(client.Snapshot()), tags[..i])
    {
      assert tags[..i + 1][..i] == tags[..i];
      client.Pull(tags[i]);
    }
    assert tags[..|tags|] == tags;
  }

  // ---------------------------------------------------------------------------------------
  // docker_init.

  /**
   * `docker_init` with `defaults=True`: announce, pull the images the diff reports missing,
   * then install without `force`.
   */
  function InitSpec(w: World, sel: seq<string>): Run {
    var missing := ImagesToInstall(w.images, sel);
    var w1 := Say(w, if |missing| < 1 then ImagesAlreadyPulled else PullingImages);
    InstallSpec(PullAll(w1, missing), false, sel)
  }

  /**
   * After `docker_init` every requested image is present and none was lost; the engine was
   * first asked to pull exactly the images the diff reported, in order, and the first line
   * printed says whether there were any.
   */
  lemma {:induction false} InitPullsMissing(w: World, sel: seq<string>)
    ensures forall x :: x in sel && ImageFor(x).Some? ==> HasTag(InitSpec(w, sel).world.images, ImageFor(x).value)
    ensures forall t :: HasTag(w.images, t) ==> HasTag(InitSpec(w, sel).world.images, t)
    ensures w.calls + PullCalls(ImagesToInstall(w.images, sel)) <= InitSpec(w, sel).world.calls
    ensures |InitSpec(w, sel).world.out| > |w.out|
    ensures InitSpec(w, sel).world.out[|w.out|] == ImagesAlreadyPulled <==> ImagesToInstall(w.images, sel) == []
  {
    var missing := ImagesToInstall(w.images, sel);
    var w1 := Say(w, if |missing| < 1 then ImagesAlreadyPulled else PullingImages);
    var w2 := PullAll(w1, missing);
    PullAllEffect(w1, missing);
    PullAllTags(w1, missing);
    ImagesToInstallKeepsMissing(w.images, sel);
    forall x | x in sel && ImageFor(x).Some? ensures HasTag(w2.images, ImageFor(x).value) {
      var i :| 0 <= i < |sel| && sel[i] == x;
      CollectMembers(sel, ImageFor, ImageFor(x).value);
    }
    var pending := ContainersToCreate(w2.containers, sel);
    var added := InstallCalls(w2, false, pending);
    assert InitSpec(w, sel).world.calls == w.calls + PullCalls(missing) + added;
    assert InitSpec(w, sel).world.out[|w.out|] == w1.out[|w.out|];
  }

  /**
   * `docker_init` never creates GeoServer: a pending GeoServer sends the install to
   * `exit(0)` first, so GeoServer reads after the command as it did before, and the command
   * completes only when GeoServer was not pending.
   */
  lemma {:induction false} InitLeavesGeoserver(w: World, sel: seq<string>)
    requires UniqueNames(w.containers)
    ensures StateOf(InitSpec(w, sel).world.containers, GeoserverContainer) == StateOf(w.containers, GeoserverContainer)
    ensures InitSpec(w, sel).outcome == Completed ==> GeoserverContainer !in ContainersToCreate(w.containers, sel)
  {
    var missing := ImagesToInstall(w.images, sel);
    var w1 := Say(w, if |missing| < 1 then ImagesAlreadyPulled else PullingImages);
    var w2 := PullAll(w1, missing);
    PullAllEffect(w1, missing);
    PullAllTags(w1, missing);
    var pending := ContainersToCreate(w2.containers, sel);
    InstallCreatesPostgis(w2, false, pending);
    if InitSpec(w, sel).outcome == Completed {
      InstallCompletedReports(w2, false, pending);
    }
  }

  /**
   * `docker_init` on an engine with no images and no containers: it pulls the three images,
   * creates PostGIS and stops at `exit(0)` in the GeoServer branch, so GeoServer and WPS are
   * never created.
   */
  lemma InitOnEmptyEngine()
    ensures InitSpec(World([], [], [], []), AllDockerInputs).outcome == Exited
    ensures InitSpec(World([], [], [], []), AllDockerInputs).world.calls ==
      PullCalls(RequiredDockerImages) + [CreatePostgis]
    ensures StateOf(InitSpec(World([], [], [], []), AllDockerInputs).world.containers, PostgisContainer) == Stopped
    ensures StateOf(InitSpec(World([], [], [], []), AllDockerInputs).world.containers, GeoserverContainer) == NotInstalled
    ensures StateOf(InitSpec(World([], [], [], []), AllDockerInputs).world.containers, N52WpsContainer) == NotInstalled
  {
    var w := World([], [], [], []);
    var sel := AllDockerInputs;
    CollectAllInputs();
    EmptyEngineDiffs(w.images, w.containers, sel);
    var w1 := Say(w, PullingImages);
    var w2 := PullAll(w1, RequiredDockerImages);
    PullAllEffect(w1, RequiredDockerImages);
    PullAllTags(w1, RequiredDockerImages);
    assert w1.containers == [] && w1.calls == [];
    EmptyLogPull(w1.calls, PullCalls(RequiredDockerImages));
    EmptyEngineDiffs([], w2.containers, sel);
    assert InitSpec(w, sel) == Install(w2, false, RequiredDockerContainers);
    InstallOnFreshEngine(w2);
  }

  /**
   * The install on an engine with no containers but the PostGIS image: PostGIS is created,
   * then `exit(0)` in the GeoServer branch.
   */
  lemma InstallOnFreshEngine(w: World)
    requires w.containers == [] && HasTag(w.images, PostgisImage)
    ensures Install(w, false, RequiredDockerContainers).outcome == Exited
    ensures Install(w, false, RequiredDockerContainers).world.calls == w.calls + [CreatePostgis]
    ensures StateOf(Install(w, false, RequiredDockerContainers).world.containers, PostgisContainer) == Stopped
    ensures StateOf(Install(w, false, RequiredDockerContainers).world.containers, GeoserverContainer) == NotInstalled
    ensures StateOf(Install(w, false, RequiredDockerContainers).world.containers, N52WpsContainer) == NotInstalled
  {
    var cp := Container(["/" + PostgisContainer], PostgisImage, PostgisEnv, false, "", map[]);
    var p := CreateEffect(Say(w, Installing(Postgis.title)), PostgisContainer, PostgisImage, PostgisEnv);
    assert p.1 && p.0.containers == [cp] && p.0.calls == w.calls + [CreatePostgis];
    assert Install(w, false, RequiredDockerContainers) == Run(Say(p.0, Installing(Geoserver.title)), Exited);
    CreatedCount();
    AppendFrame([], cp, PostgisContainer);
    StateAt([], GeoserverContainer);
    StateAt([], N52WpsContainer);
  }

  /** An empty log extended by some calls is those calls. */
  lemma EmptyLogPull(log: seq<Call>, calls: seq<Call>)
    requires log == []
    ensures log + calls == calls
  {
  }

  /** `docker_init` with `defaults=True`. */
  method DockerInit(client: Client, containers: Option<seq<string>>) returns (outcome: Outcome)
    modifies client
    ensures Run(client.Snapshot(), outcome) == InitSpec(old(client.Snapshot()), Selection(containers))
  {
    var sel := Selection(containers);
    var missing := GetImagesToInstall(client, sel);
    if |missing| < 1 {
      client.Print(ImagesAlreadyPulled);
    } else {
      client.Print(PullingImages);
    }
    PullImages(client, missing);
    outcome := InstallDockerContainers(client, false, sel);
  }

  // ---------------------------------------------------------------------------------------
  // docker_start, docker_stop, docker_restart, docker_remove.

  method DockerStart(client: Client, containers: Option<seq<string>>)
    modifies client
    ensures client.Snapshot() == StartAll(old(client.Snapshot()), Selection(containers))
  {
    StartDockerContainers(client, Selection(containers));
  }

  method DockerStop(client: Client, containers: Option<seq<string>>)
    modifies client
    ensures client.Snapshot() == StopAll(old(client.Snapshot()), false, Selection(containers))
  {
    StopDockerContainers(client, false, Selection(containers));
  }

  /** `docker_restart`: stop, then start, the same selection. */
  function RestartSpec(w: World, sel: seq<string>): World {
    StartAll(StopAll(w, false, sel), sel)
  }

  /** After a restart every requested service that was installed reads Running. */
  lemma {:induction false} RestartRunsInstalled(w: World, sel: seq<string>, x: string)
    requires UniqueNames(w.containers)
    requires x in sel && ServiceFor(x).Some? && StateOf(w.containers, ServiceFor(x).value.container) != NotInstalled
    ensures StateOf(RestartSpec(w, sel).containers, ServiceFor(x).value.container) == Running
  {
    StopAllKeeps(w, false, sel);
    StartAllRuns(StopAll(w, false, sel), sel, x);
  }

  /**
   * A restart installs and uninstalls nothing, keeps the images, and leaves every service it
   * does not request as it was.
   */
  lemma {:induction false} RestartFrame(w: World, sel: seq<string>, k: string)
    requires UniqueNames(w.containers)
    ensures (StateOf(RestartSpec(w, sel).containers, k) == NotInstalled) == (StateOf(w.containers, k) == NotInstalled)
    ensures RestartSpec(w, sel).images == w.images
    ensures (forall x :: x in sel ==> ContainerFor(x) != Some(k)) ==>
      StateOf(RestartSpec(w, sel).containers, k) == StateOf(w.containers, k)
  {
    var w1 := StopAll(w, false, sel);
    StopAllKeeps(w, false, sel);
    StartAllKeeps(w1, sel);
    if forall x :: x in sel ==> ContainerFor(x) != Some(k) {
      StopAllFrame(w, false, sel, k);
      StartAllFrame(w1, sel, k);
    }
  }

  method DockerRestart(client: Client, containers: Option<seq<string>>)
    modifies client
    ensures client.Snapshot() == RestartSpec(old(client.Snapshot()), Selection(containers))
  {
    var sel := Selection(containers);
    StopDockerContainers(client, false, sel);
    StartDockerContainers(client, sel);
  }

  /** `docker_remove`: stop, then remove, the same selection. */
  function RemoveSpec(w: World, sel: seq<string>): Run {
    RemoveAll(StopAll(w, false, sel), sel)
  }

  /**
   * Removing distinct inputs whose services are all installed completes: the stop pass
   * leaves them Stopped, so each removal is accepted. Each requested service ends Not
   * Installed, one removal is issued per recognised input, and every other service is as it was.
   */
  lemma {:induction false} RemoveUninstallsSelection(w: World, sel: seq<string>)
    requires UniqueNames(w.containers) && NoDuplicates(sel)
    requires forall x :: x in sel && ServiceFor(x).Some? ==> StateOf(w.containers, ServiceFor(x).value.container) != NotInstalled
    ensures RemoveSpec(w, sel).outcome == Completed
    ensures StopAll(w, false, sel).calls + RemoveCalls(Collect(sel, ContainerFor)) == RemoveSpec(w, sel).world.calls
    ensures forall x :: x in sel && ServiceFor(x).Some? ==>
      StateOf(RemoveSpec(w, sel).world.containers, ServiceFor(x).value.container) == NotInstalled
    ensures forall k :: (forall x :: x in sel ==> ContainerFor(x) != Some(k)) ==>
      StateOf(RemoveSpec(w, sel).world.containers, k) == StateOf(w.containers, k)
  {
    var w1 := StopAll(w, false, sel);
    StopAllKeeps(w, false, sel);
    forall x | x in sel && ServiceFor(x).Some?
      ensures StateOf(w1.containers, ServiceFor(x).value.container) == Stopped
    {
      StopAllStops(w, false, sel, x);
    }
    forall k | forall x :: x in sel ==> ContainerFor(x) != Some(k)
      ensures StateOf(w1.containers, k) == StateOf(w.containers, k)
    {
      StopAllFrame(w, false, sel, k);
    }
    RemoveAllStopped(w1, sel);
  }

  method DockerRemove(client: Client, containers: Option<seq<string>>) returns (outcome: Outcome)
    modifies client
    ensures Run(client.Snapshot(), outcome) == RemoveSpec(old(client.Snapshot()), Selection(containers))
  {
    var sel := Selection(containers);
    StopDockerContainers(client, false, sel);
    outcome := RemoveDockerContainers(client, sel);
  }

  // ---------------------------------------------------------------------------------------
  // docker_status.

  /** One line of `docker_status`: the service's heading and its three-way reading. */
  function StatusLine(heading: string, status: map<string, bool>, name: string): Line {
    StatusReport(heading, match Reading(status, name)
      case Running => "Running"
      case Stopped => "Stopped"
      case NotInstalled => "Not Installed")
  }

  function StatusLines(cs: seq<Container>): seq<Line> {
    var status := Status(cs);
    [StatusLine("PostGIS/Database", status, PostgisContainer),
     StatusLine("GeoServer", status, GeoserverContainer),
     StatusLine("52 North WPS", status, N52WpsContainer)]
  }

  /**
   * Each line of `docker_status` reads Running iff a running container counts for the
   * service, Not Installed iff no container counts for it, and Stopped otherwise.
   */
  lemma {:induction false} StatusLineMeaning(heading: string, cs: seq<Container>, k: string)
    ensures StatusLine(heading, Status(cs), k) == StatusReport(heading, "Running") <==>
      exists c :: c in cs && c.running && FirstMatch(c.names) == Some(k)
    ensures StatusLine(heading, Status(cs), k) == StatusReport(heading, "Not Installed") <==> !Installed(k, cs)
    ensures StatusLine(heading, Status(cs), k) == StatusReport(heading, "Stopped") <==>
      Installed(k, cs) && !exists c :: c in cs && c.running && FirstMatch(c.names) == Some(k)
  {
    StateOfMeaning(cs, k);
    if Installed(k, RunningOnly(cs)) {
      var c :| c in RunningOnly(cs) && FirstMatch(c.names) == Some(k);
      assert c in cs && c.running;
    }
    if exists c :: c in cs && c.running && FirstMatch(c.names) == Some(k) {
      var c :| c in cs && c.running && FirstMatch(c.names) == Some(k);
      assert c in RunningOnly(cs);
    }
    assert "Running"[0] == 'R' && "Stopped"[0] == 'S' && "Not Installed"[0] == 'N';
  }

  /** `docker_status`: reads the status map once and prints one line per service. */
  method DockerStatus(client: Client)
    modifies client
    ensures client.Snapshot() == old(client.Snapshot()).(out := old(client.Snapshot()).out + StatusLines(old(client.containers)))
  {
    var status := GetDockerContainerStatus(client);
    client.Print(StatusLine("PostGIS/Database", status, PostgisContainer));
    client.Print(StatusLine("GeoServer", status, GeoserverContainer));
    client.Print(StatusLine("52 North WPS", status, N52WpsContainer));
  }

  // ---------------------------------------------------------------------------------------
  // docker_update.

  /** The images `docker_update` force-pulls for one input: all three for the empty input. */
  function UpdatePullList(input: string): (r: seq<string>)
    ensures forall t :: t in r <==> (input == "" && t in RequiredDockerImages) || ImageFor(input) == Some(t)
    ensures |r| <= |RequiredDockerImages|
  {
    if input == "" then RequiredDockerImages
    else match ImageFor(input)
      case Some(image) => [image]
      case None => []
  }

  /** The force-pull lists of a selection, concatenated in input order. */
  function UpdatePulls(sel: seq<string>): seq<string>
    decreases |sel|
  {
    if sel == [] then [] else UpdatePulls(sel[..|sel| - 1]) + UpdatePullList(sel[|sel| - 1])
  }

  lemma {:induction false} UpdatePullsMembers(sel: seq<string>, t: string)
    ensures t in UpdatePulls(sel) <==> exists x :: x in sel && t in UpdatePullList(x)
    decreases |sel|
  {
    if sel != [] {
      var init := sel[..|sel| - 1];
      var y := sel[|sel| - 1];
      assert sel == init + [y];
      UpdatePullsMembers(init, t);
      if exists x :: x in sel && t in UpdatePullList(x) {
        var x :| x in sel && t in UpdatePullList(x);
        if x != y {
          assert x in init;
        }
      }
    }
  }

  /** The second half of `docker_update`: force-pull the images of each input, then install with `force`. */
  function Reinstall(w: World, sel: seq<string>): Run {
    InstallSpec(PullAll(w, UpdatePulls(sel)), true, sel)
  }

  /**
   * `docker_update`: stop and remove the selection (a refused removal raises and ends the
   * command), then reinstall it.
   */
  function UpdateSpec(w: World, sel: seq<string>): Run {
    var r := RemoveAll(StopAll(w, false, sel), sel);
    if r.outcome == Aborted then r else Reinstall(r.world, sel)
  }

  /** Installing with `force` always reaches the GeoServer branch, so an update never completes. */
  lemma {:induction false} UpdateNeverCompletes(w: World, sel: seq<string>)
    ensures UpdateSpec(w, sel).outcome != Completed
  {
    var r := RemoveAll(StopAll(w, false, sel), sel);
    if r.outcome != Aborted {
      var w2 := PullAll(r.world, UpdatePulls(sel));
      InstallNeverCompletes(w2, true, ContainersToCreate(w2.containers, sel));
    }
  }

  /**
   * An update whose selection leaves PostGIS out, while PostGIS is installed, aborts: the stop
   * and removal do not touch PostGIS, so the forced PostGIS create meets its name and is
   * refused before the GeoServer branch. The selected services stay removed.
   */
  lemma {:induction false} UpdateKeepingPostgisAborts(w: World, sel: seq<string>)
    requires UniqueNames(w.containers) && NoDuplicates(sel) && PostgisInput !in sel
    requires StateOf(w.containers, PostgisContainer) != NotInstalled
    requires forall x :: x in sel && ServiceFor(x).Some? ==> StateOf(w.containers, ServiceFor(x).value.container) != NotInstalled
    ensures UpdateSpec(w, sel).outcome == Aborted
    ensures forall x :: x in sel && ServiceFor(x).Some? ==>
      StateOf(UpdateSpec(w, sel).world.containers, ServiceFor(x).value.container) == NotInstalled
  {
    RemoveUninstallsSelection(w, sel);
    var r := RemoveSpec(w, sel);
    assert forall x :: x in sel ==> ContainerFor(x) != Some(PostgisContainer);
    InstalledIsNamed(r.world.containers, PostgisContainer);
    ReinstallOverPostgis(r.world, sel);
  }

  /** A reinstall on an engine that still carries the PostGIS name aborts and changes no container. */
  lemma {:induction false} ReinstallOverPostgis(w: World, sel: seq<string>)
    requires HasName(w.containers, PostgisContainer)
    ensures Reinstall(w, sel).outcome == Aborted
    ensures Reinstall(w, sel).world.containers == w.containers
  {
    var w2 := PullAll(w, UpdatePulls(sel));
    PullAllEffect(w, UpdatePulls(sel));
    InstallPostgisRefused(w2, true, ContainersToCreate(w2.containers, sel));
  }

  /** The reinstall pulls every image on its list, present or not, and each is present afterwards. */
  lemma {:induction false} ReinstallRepulls(w: World, sel: seq<string>)
    ensures forall t :: t in UpdatePulls(sel) ==> PullCall(t) in Reinstall(w, sel).world.calls
    ensures forall t :: t in UpdatePulls(sel) ==> HasTag(Reinstall(w, sel).world.images, t)
  {
    var tags := UpdatePulls(sel);
    var w2 := PullAll(w, tags);
    PullAllEffect(w, tags);
    PullAllTags(w, tags);
    var pending := ContainersToCreate(w2.containers, sel);
    assert Reinstall(w, sel) == Install(w2, true, pending);
    var added := InstallCalls(w2, true, pending);
    PulledLogged(w.calls, tags, added);
  }

  /** A log holding the pulls of some tags holds a pull of each of them. */
  lemma {:induction false} PulledLogged(log: seq<Call>, tags: seq<string>, added: seq<Call>)
    ensures forall t :: t in tags ==> PullCall(t) in log + PullCalls(tags) + added
  {
    var calls := log + PullCalls(tags) + added;
    forall t | t in tags ensures PullCall(t) in calls {
      var i :| 0 <= i < |tags| && tags[i] == t;
      assert calls[|log| + i] == PullCall(t);
    }
  }

  /**
   * Once the removal goes through, the update pulls every image its inputs name (all three
   * for the empty input) whether or not it is present, and each is present afterwards.
   */
  lemma {:induction false} UpdateRepulls(w: World, sel: seq<string>)
    requires RemoveAll(StopAll(w, false, sel), sel).outcome != Aborted
    ensures forall x, t :: x in sel && t in UpdatePullList(x) ==> PullCall(t) in UpdateSpec(w, sel).world.calls
    ensures forall x, t :: x in sel && t in UpdatePullList(x) ==> HasTag(UpdateSpec(w, sel).world.images, t)
  {
    ReinstallRepulls(RemoveAll(StopAll(w, false, sel), sel).world, sel);
    forall x, t | x in sel && t in UpdatePullList(x) ensures t in UpdatePulls(sel) {
      UpdatePullsMembers(sel, t);
    }
  }

  /** `docker_update` with `defaults=True`. */
  method DockerUpdate(client: Client, containers: Option<seq<string>>) returns (outcome: Outcome)
    modifies client
    ensures Run(client.Snapshot(), outcome) == UpdateSpec(old(client.Snapshot()), Selection(containers))
  {
    var sel := Selection(containers);
    StopDockerContainers(client, false, sel);
    outcome := RemoveDockerContainers(client, sel);
    if outcome == Aborted {
      return;
    }
    ForcePull(client, sel);
    outcome := InstallDockerContainers(client, true, sel);
  }

  /** The pull loop of `docker_update`: each input's images are pulled whether present or not. */
  method ForcePull(client: Client, sel: seq<string>)
    modifies client
    ensures client.Snapshot() == PullAll(old(client.Snapshot()), UpdatePulls(sel))
  {
    for i := 0 to |sel|
      invariant client.Snapshot() == PullAll(old(client.Snapshot()), UpdatePulls(sel[..i]))
    {
      assert sel[..i + 1][..i] == sel[..i];
      var images: seq<string>;
      if sel[i] == "" {
        images := RequiredDockerImages;
      } else if sel[i] == PostgisInput {
        images := [PostgisImage];
      } else if sel[i] == GeoserverInput {
        images := [GeoserverImage];
      } else if sel[i] == N52WpsInput {
        images := [N52WpsImage];
      } else {
        images := [];
      }
      assert images == UpdatePullList(sel[i]);
      PullImages(client, images);
      PullAllAppend(old(client.Snapshot()), UpdatePulls(sel[..i]), images);
    }
    assert sel[..|sel|] == sel;
  }
}
