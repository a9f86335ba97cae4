/** Provisioning and teardown of game-server containers
    (`docker_helper.ts`). Docker and the HTTP calls are not executed: what
    they report back is a `Runtime` value given as input, and what the code
    asks of them is returned as a list of steps. */
module DockerHelper {
  import opened Wrappers
  import opened Decimal
  import opened Js
  import opened Upstream
  import opened Tables
  import opened ContainerDb
  import GhostHost

  /** One entry of a `PortBindings` list. */
  datatype PortBinding = PortBinding(hostPort: string)

  /** The options passed to `docker.createContainer`. */
  datatype ContainerConfig = ContainerConfig(
    env: seq<string>,
    exposedPorts: set<string>,
    portBindings: map<string, seq<PortBinding>>,
    networkMode: Option<string>,
    attachStdout: bool,
    image: string)

  /** The Docker key `${port}/tcp`. */
  function PortKey(port: int): string {
    ShowInt(port) + "/tcp"
  }

  /** Distinct ports give distinct keys, so the two bindings never
      overwrite each other. */
  lemma PortKeyInjective(p: int, q: int)
    requires PortKey(p) == PortKey(q)
    ensures p == q
  {
    assert ShowInt(p) == PortKey(p)[..|PortKey(p)| - 4];
    assert ShowInt(q) == PortKey(q)[..|PortKey(q)| - 4];
    if p != q {
      ShowIntInjective(p, q);
    }
  }

  /** The container configuration for a primary port and a websocket port;
      `networkMode` is `Some("bridge")` here and absent in the older router. */
  function ContainerConfigFor(port: int, wsPort: int, networkMode: Option<string>): ContainerConfig {
    ContainerConfig(
      ["PORT=" + ShowInt(port), "WS_PORT=" + ShowInt(wsPort)],
      {PortKey(port), PortKey(wsPort)},
      map[PortKey(port) := [PortBinding(ShowInt(port))], PortKey(wsPort) := [PortBinding(ShowInt(wsPort))]],
      networkMode,
      true,
      "ghost-server-hoster")
  }

  function CreateConfig(port: int, wsPort: int): ContainerConfig {
    ContainerConfigFor(port, wsPort, Some("bridge"))
  }

  /** The environment hands the host its two ports, and the host's unary
      `+` reads each back as the number it was. */
  lemma EnvCarriesPorts(port: int, wsPort: int, networkMode: Option<string>)
    ensures var env := ContainerConfigFor(port, wsPort, networkMode).env;
      && |env| == 2
      && "PORT=" <= env[0] && ToNumber(env[0][5..]) == Num(port)
      && "WS_PORT=" <= env[1] && ToNumber(env[1][8..]) == Num(wsPort)
  {
    var env := ContainerConfigFor(port, wsPort, networkMode).env;
    assert env[0][5..] == ShowInt(port);
    assert env[1][8..] == ShowInt(wsPort);
    ToNumberShowInt(port);
    ToNumberShowInt(wsPort);
  }

  /** Exactly the two ports are exposed, each bound to the host port of the
      same number, and with distinct ports the two entries are distinct. */
  lemma ConfigBindsPortsToThemselves(port: int, wsPort: int, networkMode: Option<string>)
    ensures var c := ContainerConfigFor(port, wsPort, networkMode);
      && c.exposedPorts == c.portBindings.Keys
      && (forall p :: PortKey(p) in c.exposedPorts <==> p == port || p == wsPort)
      && (forall p :: PortKey(p) in c.portBindings ==>
            c.portBindings[PortKey(p)] == [PortBinding(ShowInt(p))]
            && ToNumber(c.portBindings[PortKey(p)][0].hostPort) == Num(p))
      && (port != wsPort ==> |c.exposedPorts| == 2)
  {
    var c := ContainerConfigFor(port, wsPort, networkMode);
    forall p ensures PortKey(p) in c.exposedPorts <==> p == port || p == wsPort {
      if PortKey(p) == PortKey(port) { PortKeyInjective(p, port); }
      if PortKey(p) == PortKey(wsPort) { PortKeyInjective(p, wsPort); }
    }
    forall p | PortKey(p) in c.portBindings
      ensures c.portBindings[PortKey(p)] == [PortBinding(ShowInt(p))]
      ensures ToNumber(c.portBindings[PortKey(p)][0].hostPort) == Num(p)
    {
      if PortKey(p) == PortKey(port) { PortKeyInjective(p, port); }
      if PortKey(p) == PortKey(wsPort) { PortKeyInjective(p, wsPort); }
      ToNumberShowInt(p);
    }
    if port != wsPort {
      if PortKey(port) == PortKey(wsPort) { PortKeyInjective(port, wsPort); }
    }
  }

  /** The text the readiness listener looks for. */
  const ReadyMarker := "Server listening on port"

  // The listener's regular expression is optional white space, the marker,
  // then any characters; both ends may match nothing, so the test holds
  // exactly when the marker occurs in the chunk.
  predicate IsReadyChunk(chunk: string) {
    Contains(chunk, ReadyMarker)
  }

  /** What `container.attach` gives the callback: an error, or a stream
      whose `data` events carry these chunks in order. */
  datatype Attach = AttachError | Attached(chunks: seq<string>)

  /** How the promise of `waitForContainerStart` settles: rejected, resolved
      by the chunk at `index`, or never. */
  datatype Readiness = Rejected | ResolvedAt(index: nat) | Waiting

  /** The first ready chunk, if any. */
  function FirstReadyChunk(chunks: seq<string>): (r: Option<nat>)
    ensures r.None? <==> forall i :: 0 <= i < |chunks| ==> !IsReadyChunk(chunks[i])
    ensures r.Some? ==> (r.value < |chunks| && IsReadyChunk(chunks[r.value])
      && forall i :: 0 <= i < r.value ==> !IsReadyChunk(chunks[i]))
  {
    if chunks == [] then None
    else if IsReadyChunk(chunks[0]) then Some(0)
    else
      match FirstReadyChunk(chunks[1..])
      case None => None
      case Some(k) => Some(k + 1)
  }

  /** The specification of `waitForContainerStart`. */
  function ReadinessOf(attach: Attach): Readiness {
    match attach
    case AttachError => Rejected
    case Attached(chunks) =>
      match FirstReadyChunk(chunks)
      case None => Waiting
      case Some(i) => ResolvedAt(i)
  }

  /** `waitForContainerStart`: the listener runs on each chunk while it is
      attached and detaches itself at the first ready chunk, so `resolve` is
      called at most once and later chunks are never examined. */
  method WaitForContainerStart(attach: Attach) returns (readiness: Readiness, resolutions: nat)
    ensures readiness == ReadinessOf(attach)
    ensures resolutions <= 1 && (resolutions == 1 <==> readiness.ResolvedAt?)
  {
    if attach.AttachError? {
      return Rejected, 0;
    }
    var chunks := attach.chunks;
    var listening := true;
    readiness, resolutions := Waiting, 0;
    var i := 0;
    while i < |chunks|
      invariant 0 <= i <= |chunks|
      invariant listening ==> (readiness == Waiting && resolutions == 0
        && forall j :: 0 <= j < i ==> !IsReadyChunk(chunks[j]))
      invariant !listening ==> (resolutions == 1 && readiness.ResolvedAt?
        && readiness.index < |chunks| && IsReadyChunk(chunks[readiness.index])
        && forall j :: 0 <= j < readiness.index ==> !IsReadyChunk(chunks[j]))
    {
      if listening && IsReadyChunk(chunks[i]) {
        listening := false;
        readiness := ResolvedAt(i);
        resolutions := resolutions + 1;
      }
      i := i + 1;
    }
  }

  /** Chunks arriving after the ready one do not change the outcome. */
  lemma {:induction false} ReadinessIgnoresLaterChunks(chunks: seq<string>, later: seq<string>)
    requires FirstReadyChunk(chunks).Some?
    ensures FirstReadyChunk(chunks + later) == FirstReadyChunk(chunks)
  {
    if !IsReadyChunk(chunks[0]) {
      assert (chunks + later)[1..] == chunks[1..] + later;
      ReadinessIgnoresLaterChunks(chunks[1..], later);
    }
  }

  /** The line the host prints once it listens is a ready chunk when it
      arrives whole. */
  lemma HostListenLineIsReady(portEnv: Option<string>)
    ensures IsReadyChunk(GhostHost.ListenLine(portEnv))
  {
    var line := GhostHost.ListenLine(portEnv);
    assert line[0..|ReadyMarker|] == ReadyMarker;
    assert OccursAt(line, ReadyMarker, 0);
  }

  /** The listener tests each chunk on its own, so a marker split over two
      chunks is never seen, although the stream as a whole carries it. */
  lemma SplitMarkerIsMissed(a: string, b: string)
    requires !IsReadyChunk(a) && !IsReadyChunk(b) && IsReadyChunk(a + b)
    ensures ReadinessOf(Attached([a, b])) == Waiting
  {
  }

  /** Such a split exists: the host's listen line cut after "listening ". */
  lemma SplitMarkerExample()
    ensures var a, b := "Server listening ", "on port 8080\n";
      !IsReadyChunk(a) && !IsReadyChunk(b) && IsReadyChunk(a + b)
  {
    var a, b := "Server listening ", "on port 8080\n";
    assert forall i: nat :: !OccursAt(a, ReadyMarker, i);
    assert forall i: nat :: !OccursAt(b, ReadyMarker, i);
    assert OccursAt(a + b, ReadyMarker, 0);
  }

  /** What the provisioning code asks of Docker and of the container. */
  datatype DockerStep =
    | CreateStep(config: ContainerConfig)
    | StartStep
    | AttachStep
    | DelayStep(ms: int)
    | Http(request: UpstreamRequest)
    | DockerStop(containerId: string)
    | DockerRemove(containerId: string)

  /** What Docker and the container report back while provisioning. */
  datatype Runtime = Runtime(
    created: bool,
    dockerId: string,
    started: bool,
    attach: Attach,
    startServerAnswered: bool)

  /** How `createContainer`'s promise settles: the Docker id, a rejection,
      or never (readiness never came). */
  datatype Provision = Provisioned(dockerId: string) | ProvisionFailed | ProvisionPending

  datatype ProvisionRun = ProvisionRun(outcome: Provision, steps: seq<DockerStep>)

  function StartServerRequest(port: int): UpstreamRequest {
    UpstreamRequest(LocalUrl(port, "/startServer"), Get, None)
  }

  function StopServerRequest(port: int): UpstreamRequest {
    UpstreamRequest(LocalUrl(port, "/stopServer"), Get, None)
  }

  /** create, start, wait for readiness, wait 2000 ms, request
      `/startServer`, then hand back the Docker id; each `await` that
      rejects ends the run there. */
  function Provisioning(config: ContainerConfig, port: int, rt: Runtime): (run: ProvisionRun)
    ensures run.outcome.Provisioned? ==> run.outcome.dockerId == rt.dockerId
    ensures forall k :: 0 <= k < |run.steps| && run.steps[k] == Http(StartServerRequest(port)) ==>
      k == 4 && run.steps[2] == AttachStep && run.steps[3] == DelayStep(2000)
      && ReadinessOf(rt.attach).ResolvedAt?
    ensures run.outcome.Provisioned? <==> (rt.created && rt.started
      && ReadinessOf(rt.attach).ResolvedAt? && rt.startServerAnswered)
    ensures run.outcome.ProvisionPending? <==> (rt.created && rt.started
      && ReadinessOf(rt.attach) == Waiting)
  {
    if !rt.created then ProvisionRun(ProvisionFailed, [CreateStep(config)])
    else if !rt.started then ProvisionRun(ProvisionFailed, [CreateStep(config), StartStep])
    else
      var waited := [CreateStep(config), StartStep, AttachStep];
      match ReadinessOf(rt.attach)
      case Rejected => ProvisionRun(ProvisionFailed, waited)
      case Waiting => ProvisionRun(ProvisionPending, waited)
      case ResolvedAt(_) =>
        var asked := waited + [DelayStep(2000), Http(StartServerRequest(port))];
        if rt.startServerAnswered then ProvisionRun(Provisioned(rt.dockerId), asked)
        else ProvisionRun(ProvisionFailed, asked)
  }

  /** `createContainer(port, wsPort)`. */
  function CreateContainer(port: int, wsPort: int, rt: Runtime): ProvisionRun {
    Provisioning(CreateConfig(port, wsPort), port, rt)
  }

  /** A successful run creates the container with the configuration for its
      ports and asks for `/startServer` on the primary port as its last
      step. */
  lemma CreateContainerSucceeds(port: int, wsPort: int, rt: Runtime)
    requires CreateContainer(port, wsPort, rt).outcome.Provisioned?
    ensures var steps := CreateContainer(port, wsPort, rt).steps;
      && steps[0] == CreateStep(CreateConfig(port, wsPort))
      && steps[|steps| - 1] == Http(StartServerRequest(port))
  {
  }

  /** `stopContainer(port, updateDatabase)`: GET `/stopServer`; once that is
      answered, the table is reconciled when `updateDatabase` is set.
      `running` is the Docker list at that moment. */
  method StopContainer(table: ContainerTable, port: int, updateDatabase: bool, answered: bool, running: seq<string>)
    returns (sent: UpstreamRequest, stopped: bool)
    requires table.Valid()
    modifies table`rows
    ensures table.Valid()
    ensures sent == StopServerRequest(port) && stopped == answered
    ensures table.rows == if answered && updateDatabase && table.isOpen then Reconciled(old(table.rows), running) else old(table.rows)
  {
    sent := StopServerRequest(port);
    stopped := answered;
    if answered && updateDatabase {
      table.UpdateDatabase(running);
    }
  }

  /** The steps of stopping one container: the `/stopServer` request, and,
      in the older router, `docker stop` and `docker rm` once it is
      answered. */
  function StopSteps(c: Container, answered: bool, dockerTeardown: bool): seq<DockerStep> {
    [Http(StopServerRequest(c.port))]
      + (if answered && dockerTeardown then [DockerStop(c.containerId), DockerRemove(c.containerId)] else [])
  }

  /** The steps of stopping each container in turn. */
  function TeardownSteps(cs: seq<Container>, unreachable: set<int>, dockerTeardown: bool): seq<DockerStep> {
    if cs == [] then []
    else
      var last := cs[|cs| - 1];
      TeardownSteps(cs[..|cs| - 1], unreachable, dockerTeardown) + StopSteps(last, last.id !in unreachable, dockerTeardown)
  }

  /** The ids of the containers whose stop succeeded. */
  function StoppedIds(cs: seq<Container>, unreachable: set<int>): set<int> {
    if cs == [] then {}
    else
      var last := cs[|cs| - 1];
      StoppedIds(cs[..|cs| - 1], unreachable) + (if last.id in unreachable then {} else {last.id})
  }

  /** An id is stopped exactly when some container has it and it is
      reachable. */
  lemma {:induction false} StoppedIdsMembers(cs: seq<Container>, unreachable: set<int>, x: int)
    ensures x in StoppedIds(cs, unreachable) <==> x !in unreachable && exists c :: c in cs && c.id == x
  {
    if cs != [] {
      var last := cs[|cs| - 1];
      StoppedIdsMembers(cs[..|cs| - 1], unreachable, x);
      assert forall c :: c in cs <==> c in cs[..|cs| - 1] || c == last by {
        assert cs == cs[..|cs| - 1] + [last];
      }
    }
  }

  /** The `forEach` over a user's containers, run one after another: each
      container is stopped, and its row deleted once its `/stopServer`
      request is answered. `unreachable` holds the row ids whose request
      fails. */
  method StopAndDeleteEach(table: ContainerTable, cs: seq<Container>, unreachable: set<int>, dockerTeardown: bool)
    returns (steps: seq<DockerStep>, allStopped: bool)
    requires table.isOpen && table.Valid()
    modifies table`rows
    ensures table.Valid()
    ensures table.rows == WithoutIds(old(table.rows), StoppedIds(cs, unreachable))
    ensures steps == TeardownSteps(cs, unreachable, dockerTeardown)
    ensures allStopped <==> forall c :: c in cs ==> c.id !in unreachable
  {
    ghost var start := table.rows;
    ghost var deleted: set<int> := {};
    WithoutNoIds(start);
    assert cs[..0] == [];
    steps, allStopped := [], true;
    var i := 0;
    while i < |cs|
      invariant 0 <= i <= |cs|
      invariant table.isOpen && table.Valid()
      invariant deleted == StoppedIds(cs[..i], unreachable)
      invariant table.rows == WithoutIds(start, StoppedIds(cs[..i], unreachable))
      invariant steps == TeardownSteps(cs[..i], unreachable, dockerTeardown)
      invariant allStopped <==> forall x :: x in cs[..i] ==> x.id !in unreachable
    {
      var c := cs[i];
      TeardownPrefixStep(cs, i, unreachable, dockerTeardown);
      var answered := c.id !in unreachable;
      var more, stopped := StopAndDeleteOne(table, c, answered, dockerTeardown);
      steps := steps + more;
      if stopped {
        WithoutIdsStep(start, deleted, c.id);
        deleted := deleted + {c.id};
      } else {
        allStopped := false;
      }
      i := i + 1;
    }
    assert cs[..|cs|] == cs;
  }

  /** One round of the `forEach`: stop the container, then delete its row
      once the stop is answered. */
  method StopAndDeleteOne(table: ContainerTable, c: Container, answered: bool, dockerTeardown: bool)
    returns (steps: seq<DockerStep>, stopped: bool)
    requires table.isOpen && table.Valid()
    modifies table`rows
    ensures table.Valid()
    ensures stopped == answered && steps == StopSteps(c, answered, dockerTeardown)
    ensures table.rows == if answered then WithoutId(old(table.rows), c.id) else old(table.rows)
  {
    var _, ok := StopContainer(table, c.port, false, answered, []);
    steps, stopped := StopSteps(c, ok, dockerTeardown), ok;
    if ok {
      table.DeleteContainer(c.id);
    }
  }

  /** One more container in the prefix adds its stop steps and, when it is
      reachable, its id. */
  lemma {:induction false} TeardownPrefixStep(cs: seq<Container>, i: int, unreachable: set<int>, dockerTeardown: bool)
    requires 0 <= i < |cs|
    ensures TeardownSteps(cs[..i + 1], unreachable, dockerTeardown)
      == TeardownSteps(cs[..i], unreachable, dockerTeardown) + StopSteps(cs[i], cs[i].id !in unreachable, dockerTeardown)
    ensures cs[i].id in unreachable ==> StoppedIds(cs[..i + 1], unreachable) == StoppedIds(cs[..i], unreachable)
    ensures cs[i].id !in unreachable ==> StoppedIds(cs[..i + 1], unreachable) == StoppedIds(cs[..i], unreachable) + {cs[i].id}
    ensures forall x :: x in cs[..i + 1] <==> x in cs[..i] || x == cs[i]
  {
    assert cs[..i + 1][..i] == cs[..i];
    assert cs[..i + 1] == cs[..i] + [cs[i]];
  }

  /** `deleteAllContainersFromUser(userId)`: reconcile against the running
      list, stop and delete each of the user's remaining containers, and,
      when every stop succeeded, reconcile again against the list Docker
      reports then (stopped hosts exit, so their containers are gone from
      it). Nothing here opens the table: without a handle the first
      reconcile is modelled as skipped, as `updateDatabase`'s `db?.` is,
      and the lookup throws, so nothing is stopped or deleted and the
      promise rejects. */
  method DeleteAllContainersFromUser(table: ContainerTable, userId: int, runningBefore: seq<string>,
                                     unreachable: set<int>, runningAfter: seq<string>)
    returns (steps: seq<DockerStep>, completed: bool)
    requires table.Valid()
    modifies table`rows
    ensures table.Valid()
    ensures !table.isOpen ==> steps == [] && !completed && table.rows == old(table.rows)
    ensures table.isOpen ==>
      var mine := Containers(RowsOfUser(Reconciled(old(table.rows), runningBefore), userId));
      var left := WithoutIds(Reconciled(old(table.rows), runningBefore), StoppedIds(mine, unreachable));
      && steps == TeardownSteps(mine, unreachable, false)
      && (completed <==> forall c :: c in mine ==> c.id !in unreachable)
      && table.rows == if completed then Reconciled(left, runningAfter) else left
  {
    table.UpdateDatabase(runningBefore);
    if !table.isOpen {
      return [], false;
    }
    ghost var reconciled := table.rows;
    assert reconciled == Reconciled(old(table.rows), runningBefore);
    var mine := table.ContainersForUser(userId);
    assert mine == Containers(RowsOfUser(reconciled, userId));
    steps, completed := StopAndDeleteEach(table, mine, unreachable, false);
    if completed {
      table.UpdateDatabase(runningAfter);
    }
  }

  /** After the teardown loop over a user's containers, the table holds
      exactly the rows it held except the user's rows whose stop
      succeeded: other users' rows are all kept. */
  lemma TeardownRemovesOnlyStoppedUserRows(rows: seq<Row>, userId: int, unreachable: set<int>)
    requires IdsIncreasing(rows)
    ensures var left := WithoutIds(rows, StoppedIds(Containers(RowsOfUser(rows, userId)), unreachable));
      forall r :: r in left <==> r in rows && !(r.user_id == userId && r.id !in unreachable)
  {
    var mine := RowsOfUser(rows, userId);
    var cs := Containers(mine);
    forall r | r in rows
      ensures r.id in StoppedIds(cs, unreachable) <==> r.user_id == userId && r.id !in unreachable
    {
      if r.user_id == userId && r.id !in unreachable {
        var i :| 0 <= i < |mine| && mine[i] == r;
        assert cs[i] in cs && cs[i].id == r.id;
      }
      StoppedIdsMembers(cs, unreachable, r.id);
      if r.id in StoppedIds(cs, unreachable) {
        var c :| c in cs && c.id == r.id;
        var i :| 0 <= i < |cs| && cs[i] == c;
        assert mine[i] in rows && mine[i].id == r.id;
        IdsIncreasingUnique(rows, mine[i], r);
      }
    }
  }
}
