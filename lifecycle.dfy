/**
 * The per-service state machine NotInstalled -> Stopped -> Running driven by
 * `start_docker_containers`, `stop_docker_containers`, `remove_docker_containers` and
 * `install_docker_containers` (the `defaults=True` path).
 *
 * Each command is first a function from the engine state before to the engine state after
 * (with the call log and the printed lines), then a method on the client proved equal to it;
 * the lemmas read the effect of each command through the three-way reading `StateOf`.
 */
module Lifecycle {
  import opened Util
  import opened Messages
  import opened Catalog
  import opened Engine
  import opened Inventory
  import opened Readings

  /** How a command ends: normally, at an `exit(0)`, or by an exception from an engine call. */
  datatype Outcome = Completed | Exited | Aborted

  datatype Run = Run(world: World, outcome: Outcome)

  /** The single port binding a service is started with: container port to default host port. */
  function PortBindings(s: Service): map<int, string> {
    map[s.containerPort := s.hostPort]
  }

  // ---------------------------------------------------------------------------------------
  // Start.

  /**
   * One `try` block of `start_docker_containers` for service `s`, given the status map of the
   * current iteration. A missing key is the `KeyError` branch. `emptyReadsRunning` and
   * `emptyReadsMissing` are the `not container` tests the GeoServer `elif` and the WPS
   * `except` add for an empty input.
   */
  function StartBlock(w: World, status: map<string, bool>, input: string, s: Service,
                      emptyReadsRunning: bool, emptyReadsMissing: bool): World
  {
    if s.container !in status then
      if input == s.input || (emptyReadsMissing && input == "") then Say(w, ContainerMissing(s.title))
      else w
    else if !status[s.container] && input == s.input then
      StartEffect(Say(w, Starting(s.title)), s.container, "always", PortBindings(s)).0
    else if input == s.input || (emptyReadsRunning && input == "") then Say(w, AlreadyRunning(s.title))
    else w
  }

  /** One iteration of `start_docker_containers`: status is fetched again, then the three blocks run. */
  function StartStep(w: World, input: string): World {
    var status := Status(w.containers);
    var w1 := StartBlock(w, status, input, Postgis, false, false);
    var w2 := StartBlock(w1, status, input, Geoserver, true, false);
    StartBlock(w2, status, input, N52Wps, false, true)
  }

  function StartAll(w: World, inputs: seq<string>): World
    decreases |inputs|
  {
    if inputs == [] then w
    else StartStep(StartAll(w, inputs[..|inputs| - 1]), inputs[|inputs| - 1])
  }

  /** For a recognised input only the block of its own service acts. */
  lemma {:induction false} StartStepIsBlock(w: World, x: string)
    requires ServiceFor(x).Some?
    ensures StartStep(w, x) == StartBlock(w, Status(w.containers), x, ServiceFor(x).value, false, false)
  {
  }

  /** The block of service `s` run on its own input. */
  function StartOwn(w: World, s: Service): World {
    StartBlock(w, Status(w.containers), s.input, s, false, false)
  }

  /** The line the start block of `s` prints on its own input, by the reading of `s`. */
  function StartLine(s: Service, st: ServiceState): Line {
    match st
    case Stopped => Starting(s.title)
    case Running => AlreadyRunning(s.title)
    case NotInstalled => ContainerMissing(s.title)
  }

  /**
   * The block of service `s` on its own input: a start call with policy "always" and the
   * service's port binding is issued iff the service reads Stopped; afterwards it reads
   * Running unless it was Not Installed, and every other reading is unchanged.
   */
  lemma {:induction false} StartBlockEffect(w: World, s: Service)
    requires s.input != "" && UniqueNames(w.containers)
    ensures StartOwn(w, s).images == w.images
    ensures UniqueNames(StartOwn(w, s).containers)
    ensures StartOwn(w, s).calls == w.calls +
      (if StateOf(w.containers, s.container) == Stopped then [StartCall(s.container, "always", PortBindings(s))] else [])
    ensures StartOwn(w, s).out == w.out + [StartLine(s, StateOf(w.containers, s.container))]
    ensures StateOf(w.containers, s.container) != Stopped ==> StartOwn(w, s).containers == w.containers
    ensures StateOf(StartOwn(w, s).containers, s.container) ==
      (if StateOf(w.containers, s.container) == NotInstalled then NotInstalled else Running)
    ensures forall k :: k != s.container ==> StateOf(StartOwn(w, s).containers, k) == StateOf(w.containers, k)
  {
    if StateOf(w.containers, s.container) == Stopped {
      StartStopped(w, s);
    } else {
      assert StartOwn(w, s).containers == w.containers;
    }
  }

  /** Starting a stopped service flips its container to running and changes no other reading. */
  lemma {:induction false} StartStopped(w: World, s: Service)
    requires s.input != "" && UniqueNames(w.containers) && StateOf(w.containers, s.container) == Stopped
    ensures UniqueNames(StartOwn(w, s).containers)
    ensures StateOf(StartOwn(w, s).containers, s.container) == Running
    ensures forall k :: k != s.container ==> StateOf(StartOwn(w, s).containers, k) == StateOf(w.containers, k)
  {
    var cs := w.containers;
    StateAt(cs, s.container);
    var i := CountedAt(cs, s.container);
    StartOwnFlips(w, s, i);
    FlagFrame(cs, StartOwn(w, s).containers, i, s.container);
  }

  /** The start block of a stopped service sets the flag, policy and bindings of its container. */
  lemma {:induction false} StartOwnFlips(w: World, s: Service, i: nat)
    requires s.input != "" && UniqueNames(w.containers) && StateOf(w.containers, s.container) == Stopped
    requires Lookup(w.containers, s.container) == Some(i)
    ensures UniqueNames(StartOwn(w, s).containers)
    ensures StartOwn(w, s).containers ==
      w.containers[i := w.containers[i].(running := true, restartPolicy := "always", portBindings := PortBindings(s))]
  {
    var w1 := Say(w, Starting(s.title));
    assert StartOwn(w, s) == StartEffect(w1, s.container, "always", PortBindings(s)).0;
    EffectsKeepUniqueNames(w1, s.container, "", map[], "always", PortBindings(s));
  }

  /** A name that is a key of the status map is carried by some container, so the engine finds it. */
  lemma {:induction false} StatusKeyFound(cs: seq<Container>, name: string)
    requires name in Status(cs)
    ensures Lookup(cs, name).Some?
  {
    StatusMapMeaning(cs, RunningOnly(cs), name);
    assert Installed(name, cs);
    var c :| c in cs && FirstMatch(c.names) == Some(name);
    var i :| 0 <= i < |cs| && cs[i] == c;
    assert "/" + name in cs[i].names;
  }

  /**
   * The `start` call of a start block is never refused: it is issued only for a status key, and
   * a key names a container the engine finds.
   */
  lemma {:induction false} StartAccepted(w: World, s: Service)
    requires s.container in Status(w.containers) && !Status(w.containers)[s.container]
    ensures StartEffect(Say(w, Starting(s.title)), s.container, "always", PortBindings(s)).1
  {
    StatusKeyFound(w.containers, s.container);
  }

  /** `StartBlockEffect` read at the level of one iteration. */
  lemma {:induction false} StartStepEffect(w: World, x: string)
    requires ServiceFor(x).Some? && UniqueNames(w.containers)
    ensures StartStep(w, x) == StartOwn(w, ServiceFor(x).value)
    ensures StartStep(w, x).images == w.images
    ensures UniqueNames(StartStep(w, x).containers)
    ensures StateOf(w.containers, ServiceFor(x).value.container) != Stopped ==> StartStep(w, x).containers == w.containers
    ensures StateOf(w.containers, ServiceFor(x).value.container) != Stopped ==> StartStep(w, x).calls == w.calls
    ensures StateOf(StartStep(w, x).containers, ServiceFor(x).value.container) ==
      (if StateOf(w.containers, ServiceFor(x).value.container) == NotInstalled then NotInstalled else Running)
    ensures forall k :: k != ServiceFor(x).value.container ==> StateOf(StartStep(w, x).containers, k) == StateOf(w.containers, k)
  {
    StartStepIsBlock(w, x);
    StartBlockEffect(w, ServiceFor(x).value);
  }

  /** An unrecognised input (including the empty one) issues no call and changes no container. */
  lemma {:induction false} StartStepIgnores(w: World, x: string)
    requires ServiceFor(x).None?
    ensures StartStep(w, x).containers == w.containers
    ensures StartStep(w, x).calls == w.calls && StartStep(w, x).images == w.images
  {
  }

  /**
   * The empty input starts nothing, yet the GeoServer block reports "already running" whenever
   * GeoServer is installed (running or not) and the WPS block reports "not installed".
   */
  lemma {:induction false} StartEmptyInput(w: World)
    ensures var g := StateOf(w.containers, GeoserverContainer);
      var n := StateOf(w.containers, N52WpsContainer);
      StartStep(w, "").out == w.out
        + (if g != NotInstalled then [AlreadyRunning(Geoserver.title)] else [])
        + (if n == NotInstalled then [ContainerMissing(N52Wps.title)] else [])
  {
  }

  /**
   * Starting a selection keeps names unique and the images, installs and uninstalls nothing,
   * and stops nothing that runs.
   */
  lemma {:induction false} StartAllKeeps(w: World, inputs: seq<string>)
    requires UniqueNames(w.containers)
    ensures var w' := StartAll(w, inputs);
      && UniqueNames(w'.containers)
      && w'.images == w.images
      && (forall k :: (StateOf(w'.containers, k) == NotInstalled) == (StateOf(w.containers, k) == NotInstalled))
      && (forall k :: StateOf(w.containers, k) == Running ==> StateOf(w'.containers, k) == Running)
    decreases |inputs|
  {
    if inputs != [] {
      var init := inputs[..|inputs| - 1];
      var y := inputs[|inputs| - 1];
      StartAllKeeps(w, init);
      var w0 := StartAll(w, init);
      if ServiceFor(y).Some? {
        StartStepEffect(w0, y);
      } else {
        StartStepIgnores(w0, y);
      }
    }
  }

  /** Starting a selection leaves every service it does not request as it was. */
  lemma {:induction false} StartAllFrame(w: World, inputs: seq<string>, k: string)
    requires UniqueNames(w.containers)
    requires forall x :: x in inputs ==> ContainerFor(x) != Some(k)
    ensures StateOf(StartAll(w, inputs).containers, k) == StateOf(w.containers, k)
    decreases |inputs|
  {
    if inputs != [] {
      var init := inputs[..|inputs| - 1];
      var y := inputs[|inputs| - 1];
      assert y in inputs;
      assert forall x :: x in init ==> x in inputs;
      StartAllFrame(w, init, k);
      StartAllKeeps(w, init);
      var w0 := StartAll(w, init);
      if ServiceFor(y).Some? {
        StartStepEffect(w0, y);
      } else {
        StartStepIgnores(w0, y);
      }
    }
  }

  /** After starting a selection, every requested service that is installed reads Running. */
  lemma {:induction false} StartAllRuns(w: World, inputs: seq<string>, x: string)
    requires UniqueNames(w.containers)
    requires x in inputs && ServiceFor(x).Some? && StateOf(w.containers, ServiceFor(x).value.container) != NotInstalled
    ensures StateOf(StartAll(w, inputs).containers, ServiceFor(x).value.container) == Running
    decreases |inputs|
  {
    var init := inputs[..|inputs| - 1];
    var y := inputs[|inputs| - 1];
    var k := ServiceFor(x).value.container;
    assert inputs == init + [y];
    StartAllKeeps(w, init);
    var w0 := StartAll(w, init);
    if x in init {
      StartAllRuns(w, init, x);
    }
    if ServiceFor(y).Some? {
      StartStepEffect(w0, y);
    } else {
      StartStepIgnores(w0, y);
    }
  }

  /** Once no requested service reads Stopped, starting changes nothing but the printed lines. */
  lemma {:induction false} StartAllIdle(w: World, inputs: seq<string>)
    requires UniqueNames(w.containers)
    requires forall x :: x in inputs && ServiceFor(x).Some? ==> StateOf(w.containers, ServiceFor(x).value.container) != Stopped
    ensures StartAll(w, inputs).containers == w.containers
    ensures StartAll(w, inputs).calls == w.calls && StartAll(w, inputs).images == w.images
    decreases |inputs|
  {
    if inputs != [] {
      var init := inputs[..|inputs| - 1];
      var y := inputs[|inputs| - 1];
      assert y in inputs;
      assert forall x :: x in init ==> x in inputs;
      StartAllIdle(w, init);
      var w0 := StartAll(w, init);
      if ServiceFor(y).Some? {
        StartStepEffect(w0, y);
      } else {
        StartStepIgnores(w0, y);
      }
    }
  }

  /** Starting the same selection twice: the second run issues no engine call and changes no container. */
  lemma {:induction false} StartTwice(w: World, inputs: seq<string>)
    requires UniqueNames(w.containers)
    ensures var w1 := StartAll(w, inputs);
      StartAll(w1, inputs).calls == w1.calls && StartAll(w1, inputs).containers == w1.containers
  {
    StartAllKeeps(w, inputs);
    var w1 := StartAll(w, inputs);
    forall x | x in inputs && ServiceFor(x).Some?
      ensures StateOf(w1.containers, ServiceFor(x).value.container) != Stopped
    {
      if StateOf(w.containers, ServiceFor(x).value.container) != NotInstalled {
        StartAllRuns(w, inputs, x);
      }
    }
    StartAllIdle(w1, inputs);
  }

  // ---------------------------------------------------------------------------------------
  // Stop.

  /** One `try` block of `stop_docker_containers` for service `s`. */
  function StopBlock(w: World, status: map<string, bool>, silent: bool, input: string, s: Service): World {
    if s.container !in status then
      if input == "" || input == s.input then Say(w, ContainerMissing(s.title)) else w
    else if status[s.container] && input == s.input then
      StopEffect(if silent then w else Say(w, Stopping(s.title)), s.container).0
    else if !silent && input == s.input then Say(w, AlreadyStopped(s.title))
    else w
  }

  function StopStep(w: World, silent: bool, input: string): World {
    var status := Status(w.containers);
    var w1 := StopBlock(w, status, silent, input, Postgis);
    var w2 := StopBlock(w1, status, silent, input, Geoserver);
    StopBlock(w2, status, silent, input, N52Wps)
  }

  function StopAll(w: World, silent: bool, inputs: seq<string>): World
    decreases |inputs|
  {
    if inputs == [] then w
    else StopStep(StopAll(w, silent, inputs[..|inputs| - 1]), silent, inputs[|inputs| - 1])
  }

  lemma {:induction false} StopStepIsBlock(w: World, silent: bool, x: string)
    requires ServiceFor(x).Some?
    ensures StopStep(w, silent, x) == StopBlock(w, Status(w.containers), silent, x, ServiceFor(x).value)
  {
  }

  function StopOwn(w: World, silent: bool, s: Service): World {
    StopBlock(w, Status(w.containers), silent, s.input, s)
  }

  /** What the stop block of `s` prints on its own input: `silent` hides all but "not installed". */
  function StopLines(s: Service, silent: bool, st: ServiceState): seq<Line> {
    if st == NotInstalled then [ContainerMissing(s.title)]
    else if silent then []
    else if st == Running then [Stopping(s.title)]
    else [AlreadyStopped(s.title)]
  }

  /**
   * The block of service `s` on its own input: a stop call is issued iff the service reads
   * Running; afterwards it reads Stopped unless it was Not Installed; `silent` hides the
   * "Stopping" and "already stopped" lines but not "not installed".
   */
  lemma {:induction false} StopBlockEffect(w: World, silent: bool, s: Service)
    requires s.input != "" && UniqueNames(w.containers)
    ensures StopOwn(w, silent, s).images == w.images
    ensures UniqueNames(StopOwn(w, silent, s).containers)
    ensures StopOwn(w, silent, s).calls == w.calls +
      (if StateOf(w.containers, s.container) == Running then [StopCall(s.container)] else [])
    ensures StopOwn(w, silent, s).out == w.out + StopLines(s, silent, StateOf(w.containers, s.container))
    ensures StateOf(w.containers, s.container) != Running ==> StopOwn(w, silent, s).containers == w.containers
    ensures StateOf(StopOwn(w, silent, s).containers, s.container) ==
      (if StateOf(w.containers, s.container) == NotInstalled then NotInstalled else Stopped)
    ensures forall k :: k != s.container ==> StateOf(StopOwn(w, silent, s).containers, k) == StateOf(w.containers, k)
  {
    if StateOf(w.containers, s.container) == Running {
      StopRunning(w, silent, s);
    } else {
      assert StopOwn(w, silent, s).containers == w.containers;
    }
  }

  /** Stopping a running service flips its container to stopped and changes no other reading. */
  lemma {:induction false} StopRunning(w: World, silent: bool, s: Service)
    requires s.input != "" && UniqueNames(w.containers) && StateOf(w.containers, s.container) == Running
    ensures UniqueNames(StopOwn(w, silent, s).containers)
    ensures StateOf(StopOwn(w, silent, s).containers, s.container) == Stopped
    ensures forall k :: k != s.container ==> StateOf(StopOwn(w, silent, s).containers, k) == StateOf(w.containers, k)
  {
    var cs := w.containers;
    StateAt(cs, s.container);
    var i := CountedAt(cs, s.container);
    StopOwnFlips(w, silent, s, i);
    FlagFrame(cs, StopOwn(w, silent, s).containers, i, s.container);
  }

  /** The stop block of a running service clears the flag of its container. */
  lemma {:induction false} StopOwnFlips(w: World, silent: bool, s: Service, i: nat)
    requires s.input != "" && UniqueNames(w.containers) && StateOf(w.containers, s.container) == Running
    requires Lookup(w.containers, s.container) == Some(i)
    ensures UniqueNames(StopOwn(w, silent, s).containers)
    ensures StopOwn(w, silent, s).containers == w.containers[i := w.containers[i].(running := false)]
  {
    var w1 := if silent then w else Say(w, Stopping(s.title));
    assert w1.containers == w.containers;
    assert StopOwn(w, silent, s) == StopEffect(w1, s.container).0;
    EffectsKeepUniqueNames(w1, s.container, "", map[], "", map[]);
  }

  /** The `stop` call of a stop block is never refused, for the same reason as `StartAccepted`. */
  lemma {:induction false} StopAccepted(w: World, silent: bool, s: Service)
    requires s.container in Status(w.containers) && Status(w.containers)[s.container]
    ensures StopEffect(if silent then w else Say(w, Stopping(s.title)), s.container).1
  {
    StatusKeyFound(w.containers, s.container);
  }

  lemma {:induction false} StopStepEffect(w: World, silent: bool, x: string)
    requires ServiceFor(x).Some? && UniqueNames(w.containers)
    ensures StopStep(w, silent, x) == StopOwn(w, silent, ServiceFor(x).value)
    ensures StopStep(w, silent, x).images == w.images
    ensures UniqueNames(StopStep(w, silent, x).containers)
    ensures StateOf(w.containers, ServiceFor(x).value.container) != Running ==> StopStep(w, silent, x).containers == w.containers
    ensures StateOf(StopStep(w, silent, x).containers, ServiceFor(x).value.container) ==
      (if StateOf(w.containers, ServiceFor(x).value.container) == NotInstalled then NotInstalled else Stopped)
    ensures forall k :: k != ServiceFor(x).value.container ==> StateOf(StopStep(w, silent, x).containers, k) == StateOf(w.containers, k)
  {
    StopStepIsBlock(w, silent, x);
    StopBlockEffect(w, silent, ServiceFor(x).value);
  }

  lemma {:induction false} StopStepIgnores(w: World, silent: bool, x: string)
    requires ServiceFor(x).None?
    ensures StopStep(w, silent, x).containers == w.containers
    ensures StopStep(w, silent, x).calls == w.calls && StopStep(w, silent, x).images == w.images
  {
  }

  /** The empty input stops nothing and reports "not installed" for each service that is not. */
  lemma {:induction false} StopEmptyInput(w: World, silent: bool)
    ensures var p := StateOf(w.containers, PostgisContainer);
      var g := StateOf(w.containers, GeoserverContainer);
      var n := StateOf(w.containers, N52WpsContainer);
      StopStep(w, silent, "").out == w.out
        + (if p == NotInstalled then [ContainerMissing(Postgis.title)] else [])
        + (if g == NotInstalled then [ContainerMissing(Geoserver.title)] else [])
        + (if n == NotInstalled then [ContainerMissing(N52Wps.title)] else [])
  {
  }

  /**
   * Stopping a selection keeps names unique and the images, installs and uninstalls nothing,
   * and starts nothing that is stopped.
   */
  lemma {:induction false} StopAllKeeps(w: World, silent: bool, inputs: seq<string>)
    requires UniqueNames(w.containers)
    ensures var w' := StopAll(w, silent, inputs);
      && UniqueNames(w'.containers)
      && w'.images == w.images
      && (forall k :: (StateOf(w'.containers, k) == NotInstalled) == (StateOf(w.containers, k) == NotInstalled))
      && (forall k :: StateOf(w.containers, k) == Stopped ==> StateOf(w'.containers, k) == Stopped)
    decreases |inputs|
  {
    if inputs != [] {
      var init := inputs[..|inputs| - 1];
      var y := inputs[|inputs| - 1];
      StopAllKeeps(w, silent, init);
      var w0 := StopAll(w, silent, init);
      if ServiceFor(y).Some? {
        StopStepEffect(w0, silent, y);
      } else {
        StopStepIgnores(w0, silent, y);
      }
    }
  }

  /** Stopping a selection leaves every service it does not request as it was. */
  lemma {:induction false} StopAllFrame(w: World, silent: bool, inputs: seq<string>, k: string)
    requires UniqueNames(w.containers)
    requires forall x :: x in inputs ==> ContainerFor(x) != Some(k)
    ensures StateOf(StopAll(w, silent, inputs).containers, k) == StateOf(w.containers, k)
    decreases |inputs|
  {
    if inputs != [] {
      var init := inputs[..|inputs| - 1];
      var y := inputs[|inputs| - 1];
      assert y in inputs;
      assert forall x :: x in init ==> x in inputs;
      StopAllFrame(w, silent, init, k);
      StopAllKeeps(w, silent, init);
      var w0 := StopAll(w, silent, init);
      if ServiceFor(y).Some? {
        StopStepEffect(w0, silent, y);
      } else {
        StopStepIgnores(w0, silent, y);
      }
    }
  }

  /** After stopping a selection, every requested service that is installed reads Stopped. */
  lemma {:induction false} StopAllStops(w: World, silent: bool, inputs: seq<string>, x: string)
    requires UniqueNames(w.containers)
    requires x in inputs && ServiceFor(x).Some? && StateOf(w.containers, ServiceFor(x).value.container) != NotInstalled
    ensures StateOf(StopAll(w, silent, inputs).containers, ServiceFor(x).value.container) == Stopped
    decreases |inputs|
  {
    var init := inputs[..|inputs| - 1];
    var y := inputs[|inputs| - 1];
    assert inputs == init + [y];
    StopAllKeeps(w, silent, init);
    var w0 := StopAll(w, silent, init);
    if x in init {
      StopAllStops(w, silent, init, x);
    }
    if ServiceFor(y).Some? {
      StopStepEffect(w0, silent, y);
    } else {
      StopStepIgnores(w0, silent, y);
    }
  }

  /** The world without its printed lines. */
  function Quiet(w: World): World {
    w.(out := [])
  }

  /** A silent and a talkative block issue the same calls with the same effect. */
  lemma {:induction false} StopBlockQuiet(a: World, b: World, status: map<string, bool>, x: string, s: Service)
    requires Quiet(a) == Quiet(b)
    ensures Quiet(StopBlock(a, status, true, x, s)) == Quiet(StopBlock(b, status, false, x, s))
  {
    assert a.containers == b.containers && a.calls == b.calls;
  }

  /** `silent` changes only what is printed, never which engine calls are issued or their effect. */
  lemma {:induction false} StopSilentSameCalls(w1: World, w2: World, inputs: seq<string>)
    requires Quiet(w1) == Quiet(w2)
    ensures Quiet(StopAll(w1, true, inputs)) == Quiet(StopAll(w2, false, inputs))
    decreases |inputs|
  {
    if inputs != [] {
      var init := inputs[..|inputs| - 1];
      var y := inputs[|inputs| - 1];
      StopSilentSameCalls(w1, w2, init);
      var a, b := StopAll(w1, true, init), StopAll(w2, false, init);
      assert a.containers == b.containers by { assert Quiet(a).containers == Quiet(b).containers; }
      var status := Status(a.containers);
      StopBlockQuiet(a, b, status, y, Postgis);
      var a1, b1 := StopBlock(a, status, true, y, Postgis), StopBlock(b, status, false, y, Postgis);
      StopBlockQuiet(a1, b1, status, y, Geoserver);
      var a2, b2 := StopBlock(a1, status, true, y, Geoserver), StopBlock(b1, status, false, y, Geoserver);
      StopBlockQuiet(a2, b2, status, y, N52Wps);
    }
  }

  // ---------------------------------------------------------------------------------------
  // Remove.

  /** One iteration of `remove_docker_containers`; a refused removal raises and aborts the command. */
  function RemoveStep(w: World, input: string): Run {
    match ServiceFor(input)
    case None => Run(w, Completed)
    case Some(s) =>
      var r := RemoveEffect(Say(w, Removing(s.title)), s.container);
      Run(r.0, if r.1 then Completed else Aborted)
  }

  function RemoveAll(w: World, inputs: seq<string>): Run
    decreases |inputs|
  {
    if inputs == [] then Run(w, Completed)
    else
      var r := RemoveAll(w, inputs[..|inputs| - 1]);
      if r.outcome == Aborted then r else RemoveStep(r.world, inputs[|inputs| - 1])
  }

  /** The remove calls for a list of container names, in order. */
  function RemoveCalls(names: seq<string>): (r: seq<Call>)
    ensures |r| == |names| && forall i :: 0 <= i < |names| ==> r[i] == RemoveCall(names[i])
  {
    if names == [] then [] else [RemoveCall(names[0])] + RemoveCalls(names[1..])
  }

  /**
   * For a recognised input the removal is attempted whatever the status. It is refused for a
   * running service and for an absent name, and then changes no container; a stopped service
   * ends Not Installed with no other reading changed; a successful removal installs nothing.
   */
  lemma {:induction false} RemoveStepEffect(w: World, x: string)
    requires ServiceFor(x).Some? && UniqueNames(w.containers)
    ensures var s := ServiceFor(x).value;
      var st := StateOf(w.containers, s.container);
      var r := RemoveStep(w, x);
      && r.world.calls == w.calls + [RemoveCall(s.container)]
      && r.world.out == w.out + [Removing(s.title)]
      && r.world.images == w.images
      && (st == Running ==> r.outcome == Aborted)
      && (!HasName(w.containers, s.container) ==> r.outcome == Aborted)
      && (r.outcome == Aborted ==> r.world.containers == w.containers)
      && (st == Stopped ==> r.outcome == Completed)
      && (st == Stopped ==> forall k :: k != s.container ==> StateOf(r.world.containers, k) == StateOf(w.containers, k))
      && (r.outcome == Completed ==> UniqueNames(r.world.containers))
      && (r.outcome == Completed ==> StateOf(r.world.containers, s.container) == NotInstalled)
      && (r.outcome == Completed ==>
            forall k :: StateOf(w.containers, k) == NotInstalled ==> StateOf(r.world.containers, k) == NotInstalled)
  {
    RemoveStepReading(w, x);
    RemoveStepDone(w, x);
  }

  /** A Running service makes the removal abort; a Stopped one is removed and nothing else changes. */
  lemma {:induction false} RemoveStepReading(w: World, x: string)
    requires ServiceFor(x).Some? && UniqueNames(w.containers)
    ensures var s := ServiceFor(x).value;
      var st := StateOf(w.containers, s.container);
      var r := RemoveStep(w, x);
      && (st == Running ==> r.outcome == Aborted)
      && (st == Stopped ==> r.outcome == Completed)
      && (st == Stopped ==> forall k :: k != s.container ==> StateOf(r.world.containers, k) == StateOf(w.containers, k))
  {
    var s := ServiceFor(x).value;
    var cs := w.containers;
    StateAt(cs, s.container);
    if CountsAt(cs, s.container) {
      var i := CountedAt(cs, s.container);
      if !cs[i].running {
        assert RemoveStep(w, x).world.containers == cs[..i] + cs[i + 1..];
        forall k | k != s.container ensures StateOf(cs[..i] + cs[i + 1..], k) == StateOf(cs, k) {
          DropKeeps(cs, i, k);
        }
      }
    }
  }

  /** A completed removal keeps names unique, uninstalls the service and installs nothing. */
  lemma {:induction false} RemoveStepDone(w: World, x: string)
    requires ServiceFor(x).Some? && UniqueNames(w.containers)
    ensures var s := ServiceFor(x).value;
      var r := RemoveStep(w, x);
      && (r.outcome == Completed ==> UniqueNames(r.world.containers))
      && (r.outcome == Completed ==> StateOf(r.world.containers, s.container) == NotInstalled)
      && (r.outcome == Completed ==>
            forall k :: StateOf(w.containers, k) == NotInstalled ==> StateOf(r.world.containers, k) == NotInstalled)
  {
    var s := ServiceFor(x).value;
    var cs := w.containers;
    var w1 := Say(w, Removing(s.title));
    EffectsKeepUniqueNames(w1, s.container, "", map[], "", map[]);
    if HasName(cs, s.container) {
      CountingContainer(cs, s.container);
      var i := Lookup(cs, s.container).value;
      if !cs[i].running {
        assert RemoveStep(w, x).world.containers == cs[..i] + cs[i + 1..];
        DropUninstalls(cs, i, s.container);
        forall k | StateOf(cs, k) == NotInstalled ensures StateOf(cs[..i] + cs[i + 1..], k) == NotInstalled {
          DropNeverInstalls(cs, i, k);
        }
      }
    }
  }

  /** An unrecognised input removes nothing and issues no call. */
  lemma {:induction false} RemoveStepIgnores(w: World, x: string)
    requires ServiceFor(x).None?
    ensures RemoveStep(w, x) == Run(w, Completed)
  {
  }

  /** Once a prefix of the inputs aborts the removal, the whole removal ends there. */
  lemma {:induction false} RemoveAllAbortStays(w: World, inputs: seq<string>, n: nat)
    requires n <= |inputs| && RemoveAll(w, inputs[..n]).outcome == Aborted
    ensures RemoveAll(w, inputs) == RemoveAll(w, inputs[..n])
    decreases |inputs| - n
  {
    if n < |inputs| {
      assert inputs[..n + 1][..n] == inputs[..n];
      RemoveAllAbortStays(w, inputs, n + 1);
    } else {
      assert inputs[..n] == inputs;
    }
  }

  /** Collecting over a list split at its last element. */
  lemma {:induction false} CollectLast(inputs: seq<string>)
    requires inputs != []
    ensures Collect(inputs, ContainerFor) == Collect(inputs[..|inputs| - 1], ContainerFor)
      + (match ContainerFor(inputs[|inputs| - 1]) case Some(n) => [n] case None => [])
  {
  }

  /**
   * Removing distinct inputs whose services all read Stopped completes, issues one removal per
   * recognised input in order, leaves each of them Not Installed and every other service as it was.
   */
  lemma {:induction false} RemoveAllStopped(w: World, inputs: seq<string>)
    requires UniqueNames(w.containers) && NoDuplicates(inputs)
    requires forall x :: x in inputs && ServiceFor(x).Some? ==> StateOf(w.containers, ServiceFor(x).value.container) == Stopped
    ensures RemoveAll(w, inputs).outcome == Completed
    ensures UniqueNames(RemoveAll(w, inputs).world.containers)
    ensures RemoveAll(w, inputs).world.calls == w.calls + RemoveCalls(Collect(inputs, ContainerFor))
    ensures forall x :: x in inputs && ServiceFor(x).Some? ==>
      StateOf(RemoveAll(w, inputs).world.containers, ServiceFor(x).value.container) == NotInstalled
    ensures forall k :: (forall x :: x in inputs ==> ContainerFor(x) != Some(k)) ==>
      StateOf(RemoveAll(w, inputs).world.containers, k) == StateOf(w.containers, k)
    decreases |inputs|
  {
    if inputs != [] {
      var init := inputs[..|inputs| - 1];
      NoDuplicatesLast(inputs);
      RemoveAllStopped(w, init);
      SplitLast(inputs);
      RemoveAllStoppedExtend(w, init, inputs[|inputs| - 1]);
    }
  }

  /** The inductive step of `RemoveAllStopped`: its conclusion for `init` extends to `init + [y]`. */
  lemma {:induction false} RemoveAllStoppedExtend(w: World, init: seq<string>, y: string)
    requires y !in init
    requires forall x :: x in init + [y] && ServiceFor(x).Some? ==> StateOf(w.containers, ServiceFor(x).value.container) == Stopped
    requires RemoveAll(w, init).outcome == Completed
    requires UniqueNames(RemoveAll(w, init).world.containers)
    requires RemoveAll(w, init).world.calls == w.calls + RemoveCalls(Collect(init, ContainerFor))
    requires forall x :: x in init && ServiceFor(x).Some? ==>
      StateOf(RemoveAll(w, init).world.containers, ServiceFor(x).value.container) == NotInstalled
    requires forall k :: (forall x :: x in init ==> ContainerFor(x) != Some(k)) ==>
      StateOf(RemoveAll(w, init).world.containers, k) == StateOf(w.containers, k)
    ensures RemoveAll(w, init + [y]).outcome == Completed
    ensures UniqueNames(RemoveAll(w, init + [y]).world.containers)
    ensures RemoveAll(w, init + [y]).world.calls == w.calls + RemoveCalls(Collect(init + [y], ContainerFor))
    ensures forall x :: x in init + [y] && ServiceFor(x).Some? ==>
      StateOf(RemoveAll(w, init + [y]).world.containers, ServiceFor(x).value.container) == NotInstalled
    ensures forall k :: (forall x :: x in init + [y] ==> ContainerFor(x) != Some(k)) ==>
      StateOf(RemoveAll(w, init + [y]).world.containers, k) == StateOf(w.containers, k)
  {
    var inputs := init + [y];
    AppendLast(init, y);
    var r0 := RemoveAll(w, init);
    assert RemoveAll(w, inputs) == RemoveStep(r0.world, y);
    RemoveStoppedStep(w, r0.world, init, y);
    RemoveCallsLast(inputs);
    var a := RemoveCalls(Collect(init, ContainerFor));
    var added := match ContainerFor(y) case Some(n) => [RemoveCall(n)] case None => [];
    assert RemoveStep(r0.world, y).world.calls == (w.calls + a) + added;
    AppendAssoc(w.calls, a, added);
    var cs := RemoveStep(r0.world, y).world.containers;
    forall x | x in inputs && ServiceFor(x).Some? ensures StateOf(cs, ServiceFor(x).value.container) == NotInstalled {
      if x != y {
        assert x in init;
      }
    }
    forall k | forall x :: x in inputs ==> ContainerFor(x) != Some(k) ensures StateOf(cs, k) == StateOf(w.containers, k) {
      assert ContainerFor(y) != Some(k);
      assert forall x :: x in init ==> ContainerFor(x) != Some(k);
    }
  }

  /** The removals for a list of inputs split at its last input. */
  lemma {:induction false} RemoveCallsLast(inputs: seq<string>)
    requires inputs != []
    ensures RemoveCalls(Collect(inputs, ContainerFor)) == RemoveCalls(Collect(inputs[..|inputs| - 1], ContainerFor))
      + match ContainerFor(inputs[|inputs| - 1]) case Some(n) => [RemoveCall(n)] case None => []
  {
    CollectLast(inputs);
    var a := Collect(inputs[..|inputs| - 1], ContainerFor);
    var added := match ContainerFor(inputs[|inputs| - 1]) case Some(n) => [RemoveCall(n)] case None => [];
    assert RemoveCalls(a) + added == RemoveCalls(Collect(inputs, ContainerFor));
  }

  /**
   * The last step of `RemoveAllStopped`: removing the stopped service of an input not seen
   * before completes and uninstalls it, and changes no other reading.
   */
  lemma {:induction false} RemoveStoppedStep(w: World, w0: World, init: seq<string>, y: string)
    requires UniqueNames(w0.containers) && y !in init
    requires ServiceFor(y).Some? ==> StateOf(w.containers, ServiceFor(y).value.container) == Stopped
    requires forall k :: (forall x :: x in init ==> ContainerFor(x) != Some(k)) ==>
      StateOf(w0.containers, k) == StateOf(w.containers, k)
    ensures RemoveStep(w0, y).outcome == Completed
    ensures UniqueNames(RemoveStep(w0, y).world.containers)
    ensures RemoveStep(w0, y).world.calls ==
      w0.calls + match ContainerFor(y) case Some(n) => [RemoveCall(n)] case None => []
    ensures ServiceFor(y).Some? ==> StateOf(RemoveStep(w0, y).world.containers, ServiceFor(y).value.container) == NotInstalled
    ensures forall k :: ContainerFor(y) != Some(k) ==> StateOf(RemoveStep(w0, y).world.containers, k) == StateOf(w0.containers, k)
    ensures forall k :: StateOf(w0.containers, k) == NotInstalled ==> StateOf(RemoveStep(w0, y).world.containers, k) == NotInstalled
  {
    if ServiceFor(y).Some? {
      var s := ServiceFor(y).value;
      forall x | x in init ensures ContainerFor(x) != Some(s.container) {
        CatalogInjective(x, y);
      }
      RemoveStepEffect(w0, y);
    } else {
      RemoveStepIgnores(w0, y);
    }
  }

  // ---------------------------------------------------------------------------------------
  // Install (the `defaults=True` path).

  const PostgisEnv: map<string, string> :=
    map["TETHYS_DEFAULT_PASS" := "pass", "TETHYS_DB_MANAGER_PASS" := "pass", "TETHYS_SUPER_PASS" := "pass"]

  const N52WpsEnv: map<string, string> :=
    map["NAME" := "NONE", "POSITION" := "NONE", "ADDRESS" := "NONE", "CITY" := "NONE", "STATE" := "NONE",
        "COUNTRY" := "NONE", "POSTAL_CODE" := "NONE", "EMAIL" := "NONE", "PHONE" := "NONE", "FAX" := "NONE",
        "USERNAME" := "wps", "PASSWORD" := "wps"]

  const CreatePostgis: Call := CreateCall(PostgisContainer, PostgisImage, PostgisEnv)
  const CreateN52Wps: Call := CreateCall(N52WpsContainer, N52WpsImage, N52WpsEnv)

  /** `install_docker_containers` with `defaults=True` on the engine state `w`. */
  function InstallSpec(w: World, force: bool, inputs: seq<string>): Run {
    Install(w, force, ContainersToCreate(w.containers, inputs))
  }

  /**
   * The install once the diff `pending` is known: PostGIS is created iff it is pending or
   * `force` is set; the GeoServer branch ends the process at `exit(0)` before its create (both
   * sides of the `"cluster"` test do); WPS is reached only when GeoServer is skipped.
   */
  function Install(w: World, force: bool, pending: seq<string>): Run {
    if PostgisContainer in pending || force then
      var r := CreateEffect(Say(w, Installing(Postgis.title)), PostgisContainer, PostgisImage, PostgisEnv);
      if r.1 then InstallRest(r.0, force, pending) else Run(r.0, Aborted)
    else InstallRest(Say(w, AlreadyInstalled(Postgis.title)), force, pending)
  }

  /** The GeoServer and WPS parts of the install, after PostGIS. */
  function InstallRest(w: World, force: bool, pending: seq<string>): Run {
    if GeoserverContainer in pending || force then
      Run(Say(w, Installing(Geoserver.title)), Exited)
    else
      var w1 := Say(w, AlreadyInstalled(Geoserver.title));
      if N52WpsContainer in pending || force then
        var r := CreateEffect(Say(w1, Installing(N52Wps.title)), N52WpsContainer, N52WpsImage, N52WpsEnv);
        if r.1 then Run(Say(r.0, InstallSucceeded), Completed)
        else Run(r.0, Aborted)
      else
        Run(Say(Say(w1, AlreadyInstalled(N52Wps.title)),
                InstallSucceeded), Completed)
  }

  /** The calls the GeoServer and WPS part adds: a WPS create only when GeoServer is skipped. */
  lemma {:induction false} InstallRestCalls(w: World, force: bool, pending: seq<string>)
    ensures InstallRest(w, force, pending).world.calls == w.calls +
      (if !(GeoserverContainer in pending || force) && N52WpsContainer in pending then [CreateN52Wps] else [])
    ensures InstallRest(w, force, pending).world.images == w.images
    ensures w.out <= InstallRest(w, force, pending).world.out
  {
  }

  /**
   * The calls an install adds: only creates, PostGIS among them iff pending or forced, WPS
   * only when neither `force` nor a pending GeoServer sends the install to `exit(0)`, and
   * GeoServer never.
   */
  lemma {:induction false} InstallCalls(w: World, force: bool, pending: seq<string>) returns (added: seq<Call>)
    ensures Install(w, force, pending).world.calls == w.calls + added
    ensures forall c :: c in added ==> c == CreatePostgis || c == CreateN52Wps
    ensures CreatePostgis in added <==> PostgisContainer in pending || force
    ensures CreateN52Wps in added ==> !force && GeoserverContainer !in pending && N52WpsContainer in pending
    ensures Install(w, force, pending).world.images == w.images
    ensures w.out <= Install(w, force, pending).world.out
  {
    var r := Install(w, force, pending);
    var wps := !(GeoserverContainer in pending || force) && N52WpsContainer in pending;
    var tail := if wps then [CreateN52Wps] else [];
    assert CreatePostgis != CreateN52Wps by { assert CreatePostgis.image != CreateN52Wps.image; }
    if PostgisContainer in pending || force {
      var p := CreateEffect(Say(w, Installing(Postgis.title)), PostgisContainer, PostgisImage, PostgisEnv);
      assert p.0.calls == w.calls + [CreatePostgis];
      if p.1 {
        InstallRestCalls(p.0, force, pending);
        added := [CreatePostgis] + tail;
      } else {
        added := [CreatePostgis];
      }
    } else {
      InstallRestCalls(Say(w, AlreadyInstalled(Postgis.title)), force, pending);
      added := tail;
    }
  }

  /** With `force`, or with GeoServer pending, the install never completes. */
  lemma {:induction false} InstallNeverCompletes(w: World, force: bool, pending: seq<string>)
    requires GeoserverContainer in pending || force
    ensures Install(w, force, pending).outcome != Completed
    ensures Install(w, force, pending).outcome == Exited <==>
      !((PostgisContainer in pending || force) && (HasName(w.containers, PostgisContainer) || !HasTag(w.images, PostgisImage)))
  {
  }

  /** A PostGIS create the engine refuses (name taken, image not pulled) aborts the install. */
  lemma {:induction false} InstallPostgisRefused(w: World, force: bool, pending: seq<string>)
    requires PostgisContainer in pending || force
    requires HasName(w.containers, PostgisContainer) || !HasTag(w.images, PostgisImage)
    ensures Install(w, force, pending).outcome == Aborted
    ensures Install(w, force, pending).world.containers == w.containers
  {
  }

  /** A completed install ends by reporting success. */
  lemma {:induction false} InstallCompletedReports(w: World, force: bool, pending: seq<string>)
    requires Install(w, force, pending).outcome == Completed
    ensures Install(w, force, pending).world.out[|Install(w, force, pending).world.out| - 1] ==
      InstallSucceeded
    ensures !force && GeoserverContainer !in pending
  {
  }

  /** `force` makes the install ignore the requested selection altogether. */
  lemma {:induction false} ForceIgnoresSelection(w: World, pending1: seq<string>, pending2: seq<string>)
    ensures Install(w, true, pending1) == Install(w, true, pending2)
  {
  }

  /** The containers the install creates count for the name they are created under. */
  lemma CreatedCount()
    ensures FirstMatch(["/" + PostgisContainer]) == Some(PostgisContainer)
    ensures FirstMatch(["/" + N52WpsContainer]) == Some(N52WpsContainer)
  {
    assert "/" + PostgisContainer in ["/" + PostgisContainer];
    assert ("/" + PostgisContainer)[8] != ("/" + N52WpsContainer)[8];
    assert ("/" + GeoserverContainer)[8] != ("/" + N52WpsContainer)[8];
    assert "/" + N52WpsContainer in ["/" + N52WpsContainer];
  }

  /**
   * An accepted PostGIS create leaves PostGIS Stopped with the default environment as its
   * record, and no other reading changes (WPS aside).
   */
  lemma {:induction false} InstallCreatesPostgis(w: World, force: bool, pending: seq<string>)
    requires UniqueNames(w.containers)
    ensures UniqueNames(Install(w, force, pending).world.containers)
    ensures Install(w, force, pending).outcome != Aborted && (PostgisContainer in pending || force) ==>
      && StateOf(Install(w, force, pending).world.containers, PostgisContainer) == Stopped
      && PostgisContainer in Dicts(Install(w, force, pending).world.containers)
      && Dicts(Install(w, force, pending).world.containers)[PostgisContainer].env == PostgisEnv
    ensures forall k :: k != PostgisContainer && k != N52WpsContainer ==>
      StateOf(Install(w, force, pending).world.containers, k) == StateOf(w.containers, k)
  {
    var cs0 := w.containers;
    var postgis := PostgisContainer in pending || force;
    var w0 := if postgis then Say(w, Installing(Postgis.title))
              else Say(w, AlreadyInstalled(Postgis.title));
    var cp := Container(["/" + PostgisContainer], PostgisImage, PostgisEnv, false, "", map[]);
    CreatedCount();
    EffectsKeepUniqueNames(w0, PostgisContainer, PostgisImage, PostgisEnv, "", map[]);
    var p := CreateEffect(w0, PostgisContainer, PostgisImage, PostgisEnv);
    if postgis && p.1 {
      assert p.0.containers == cs0 + [cp];
      AppendFrame(cs0, cp, PostgisContainer);
      DictsLast(cs0, cp, PostgisContainer);
    }
    if !(postgis && !p.1) {
      var afterPostgis := if postgis then p.0 else w0;
      assert Install(w, force, pending) == InstallRest(afterPostgis, force, pending);
      InstallCreatesN52Wps(afterPostgis, force, pending);
      var cn := Container(["/" + N52WpsContainer], N52WpsImage, N52WpsEnv, false, "", map[]);
      DictsKeep(afterPostgis.containers, cn, PostgisContainer);
    }
  }

  /** An accepted WPS create leaves WPS Stopped with the default environment as its record. */
  lemma {:induction false} InstallCreatesN52Wps(w: World, force: bool, pending: seq<string>)
    requires UniqueNames(w.containers)
    ensures UniqueNames(InstallRest(w, force, pending).world.containers)
    ensures InstallRest(w, force, pending).outcome == Completed && N52WpsContainer in pending ==>
      && InstallRest(w, force, pending).world.containers ==
           w.containers + [Container(["/" + N52WpsContainer], N52WpsImage, N52WpsEnv, false, "", map[])]
      && StateOf(InstallRest(w, force, pending).world.containers, N52WpsContainer) == Stopped
      && N52WpsContainer in Dicts(InstallRest(w, force, pending).world.containers)
      && Dicts(InstallRest(w, force, pending).world.containers)[N52WpsContainer].env == N52WpsEnv
    ensures InstallRest(w, force, pending).outcome != Completed || N52WpsContainer !in pending ==>
      InstallRest(w, force, pending).world.containers == w.containers
    ensures forall k :: k != N52WpsContainer ==>
      StateOf(InstallRest(w, force, pending).world.containers, k) == StateOf(w.containers, k)
  {
    var w1 := Say(Say(w, AlreadyInstalled(Geoserver.title)), Installing(N52Wps.title));
    var cn := Container(["/" + N52WpsContainer], N52WpsImage, N52WpsEnv, false, "", map[]);
    CreatedCount();
    EffectsKeepUniqueNames(w1, N52WpsContainer, N52WpsImage, N52WpsEnv, "", map[]);
    var n := CreateEffect(w1, N52WpsContainer, N52WpsImage, N52WpsEnv);
    if !(GeoserverContainer in pending || force) && N52WpsContainer in pending && n.1 {
      assert n.0.containers == w.containers + [cn];
      AppendFrame(w.containers, cn, N52WpsContainer);
      DictsLast(w.containers, cn, N52WpsContainer);
    }
  }

  /** The record of a freshly appended container is that container. */
  lemma {:induction false} DictsLast(cs: seq<Container>, c: Container, name: string)
    requires FirstMatch(c.names) == Some(name)
    ensures name in Dicts(cs + [c]) && Dicts(cs + [c])[name] == c
  {
    assert (cs + [c])[..|cs + [c]| - 1] == cs;
  }

  /** Appending a container that counts for another name keeps an existing record. */
  lemma {:induction false} DictsKeep(cs: seq<Container>, c: Container, k: string)
    requires FirstMatch(c.names) != Some(k)
    ensures k in Dicts(cs) ==> k in Dicts(cs + [c]) && Dicts(cs + [c])[k] == Dicts(cs)[k]
  {
    assert (cs + [c])[..|cs + [c]| - 1] == cs;
  }

  // ---------------------------------------------------------------------------------------
  // The client-side implementations.

  method StartService(client: Client, status: map<string, bool>, input: string, s: Service,
                      emptyReadsRunning: bool, emptyReadsMissing: bool)
    modifies client
    ensures client.Snapshot() == StartBlock(old(client.Snapshot()), status, input, s, emptyReadsRunning, emptyReadsMissing)
  {
    if s.container !in status {
      if input == s.input || (emptyReadsMissing && input == "") {
        client.Print(ContainerMissing(s.title));
      }
    } else if !status[s.container] && input == s.input {
      client.Print(Starting(s.title));
      var _ := client.Start(s.container, "always", PortBindings(s));
    } else if input == s.input || (emptyReadsRunning && input == "") {
      client.Print(AlreadyRunning(s.title));
    }
  }

  /** `start_docker_containers` */
  method StartDockerContainers(client: Client, inputs: seq<string>)
    modifies client
    ensures client.Snapshot() == StartAll(old(client.Snapshot()), inputs)
  {
    for i := 0 to |inputs|
      invariant client.Snapshot() == StartAll(old(client.Snapshot()), inputs[..i])
    {
      assert inputs[..i + 1][..i] == inputs[..i];
      var status := GetDockerContainerStatus(client);
      StartService(client, status, inputs[i], Postgis, false, false);
      StartService(client, status, inputs[i], Geoserver, true, false);
      StartService(client, status, inputs[i], N52Wps, false, true);
    }
    assert inputs[..|inputs|] == inputs;
  }

  method StopService(client: Client, status: map<string, bool>, silent: bool, input: string, s: Service)
    modifies client
    ensures client.Snapshot() == StopBlock(old(client.Snapshot()), status, silent, input, s)
  {
    if s.container !in status {
      if input == "" || input == s.input {
        client.Print(ContainerMissing(s.title));
      }
    } else if status[s.container] && input == s.input {
      if !silent {
        client.Print(Stopping(s.title));
      }
      var _ := client.Stop(s.container);
    } else if !silent && input == s.input {
      client.Print(AlreadyStopped(s.title));
    }
  }

  /** `stop_docker_containers` */
  method StopDockerContainers(client: Client, silent: bool, inputs: seq<string>)
    modifies client
    ensures client.Snapshot() == StopAll(old(client.Snapshot()), silent, inputs)
  {
    for i := 0 to |inputs|
      invariant client.Snapshot() == StopAll(old(client.Snapshot()), silent, inputs[..i])
    {
      assert inputs[..i + 1][..i] == inputs[..i];
      var status := GetDockerContainerStatus(client);
      StopService(client, status, silent, inputs[i], Postgis);
      StopService(client, status, silent, inputs[i], Geoserver);
      StopService(client, status, silent, inputs[i], N52Wps);
    }
    assert inputs[..|inputs|] == inputs;
  }

  /** `remove_docker_containers`; `container_check` computes the diff and discards it. */
  method RemoveDockerContainers(client: Client, inputs: seq<string>) returns (outcome: Outcome)
    modifies client
    ensures Run(client.Snapshot(), outcome) == RemoveAll(old(client.Snapshot()), inputs)
  {
    var _ := GetContainersToCreate(client, inputs);
    for i := 0 to |inputs|
      invariant RemoveAll(old(client.Snapshot()), inputs[..i]) == Run(client.Snapshot(), Completed)
    {
      assert inputs[..i + 1][..i] == inputs[..i];
      var ok := RemoveInput(client, inputs[i]);
      if !ok {
        RemoveAllAbortStays(old(client.Snapshot()), inputs, i + 1);
        assert inputs[..|inputs|] == inputs;
        return Aborted;
      }
    }
    assert inputs[..|inputs|] == inputs;
    outcome := Completed;
  }

  /** One iteration of the removal loop: the `try` block of the input's service, if any. */
  method RemoveInput(client: Client, input: string) returns (ok: bool)
    modifies client
    ensures RemoveStep(old(client.Snapshot()), input) == Run(client.Snapshot(), if ok then Completed else Aborted)
  {
    match ServiceFor(input)
    case None =>
      ok := true;
    case Some(s) =>
      client.Print(Removing(s.title));
      ok := client.RemoveContainer(s.container);
  }

  /** `install_docker_containers` with `defaults=True`. */
  method InstallDockerContainers(client: Client, force: bool, inputs: seq<string>) returns (outcome: Outcome)
    modifies client
    ensures Run(client.Snapshot(), outcome) == InstallSpec(old(client.Snapshot()), force, inputs)
  {
    var pending := GetContainersToCreate(client, inputs);
    if PostgisContainer in pending || force {
      client.Print(Installing(Postgis.title));
      var ok := client.CreateContainer(PostgisContainer, PostgisImage, PostgisEnv);
      if !ok {
        return Aborted;
      }
    } else {
      client.Print(AlreadyInstalled(Postgis.title));
    }
    if GeoserverContainer in pending || force {
      client.Print(Installing(Geoserver.title));
      return Exited;
    }
    client.Print(AlreadyInstalled(Geoserver.title));
    if N52WpsContainer in pending || force {
      client.Print(Installing(N52Wps.title));
      var ok := client.CreateContainer(N52WpsContainer, N52WpsImage, N52WpsEnv);
      if !ok {
        return Aborted;
      }
    } else {
      client.Print(AlreadyInstalled(N52Wps.title));
    }
    client.Print(InstallSucceeded);
    outcome := Completed;
  }
}
