/** The older instance router (`api_router.ts`, not mounted by the
    application): the same cap and port draw as `ServerRouter`, provisioning
    without a network mode, a name that defaults to "", and teardown that
    also stops and removes the Docker container. It never opens the table
    itself: the handle is open only if another router left it open, and
    without it the first unguarded table call throws, the handler's promise
    rejects and nothing is answered or changed. */
module ApiRouter {
  import opened Wrappers
  import opened Upstream
  import opened ContainerDb
  import opened PortAllocator
  import opened DockerHelper
  import ContainerProxy

  /** The instance name: the `name` query parameter, or "". */
  function InstanceName(query: map<string, string>): string {
    if "name" in query then query["name"] else ""
  }

  /** POST /create: as `ServerRouter.Create`, with bare 507 replies and the
      provisioning steps written out in the handler. */
  method Create(table: ContainerTable, userId: int, query: map<string, string>, rt: Runtime)
    returns (reply: Reply<string>, ports: Option<(int, int)>, run: Option<ProvisionRun>)
    requires table.Valid()
    modifies table`rows, table`nextId
    ensures table.Valid()
    ensures !table.isOpen ==>
      reply.NoReply? && ports.None? && run.None? && table.rows == old(table.rows) && table.nextId == old(table.nextId)
    ensures table.isOpen && |old(table.rows)| >= 10 ==>
      reply == Respond(507, "") && ports.None? && run.None? && table.rows == old(table.rows)
    ensures table.isOpen && ports.None? ==> run.None? && table.rows == old(table.rows) && reply == Respond(507, "")
    ensures ports.Some? ==>
      |old(table.rows)| < 10
      && PortMin <= ports.value.0 < PortMax && WsPortMin <= ports.value.1 < WsPortMax
      && run == Some(Provisioning(ContainerConfigFor(ports.value.0, ports.value.1, None), ports.value.0, rt))
    ensures reply == Respond(201, "") <==> run.Some? && run.value.outcome.Provisioned?
    ensures reply == Respond(201, "") ==>
      table.rows == old(table.rows) + [Row(old(table.nextId), run.value.outcome.dockerId, ports.value.0, ports.value.1, userId, InstanceName(query))]
      && table.nextId == old(table.nextId) + 1
    ensures reply != Respond(201, "") ==> table.rows == old(table.rows) && table.nextId == old(table.nextId)
  {
    if !table.isOpen {
      return NoReply, None, None;
    }
    var taken := table.AllColumnValues(PortColumn);
    if |taken| >= 10 {
      return Respond(507, ""), None, None;
    }
    var wsTaken := table.AllColumnValues(WsPortColumn);
    var port := RandomRangeNotIn(PortMin, PortMax, taken);
    var wsPort := RandomRangeNotIn(WsPortMin, WsPortMax, wsTaken);
    if port.None? || wsPort.None? {
      return Respond(507, ""), None, None;
    }
    ports := Some((port.value, wsPort.value));
    var provisioning := Provisioning(ContainerConfigFor(port.value, wsPort.value, None), port.value, rt);
    run := Some(provisioning);
    if !provisioning.outcome.Provisioned? {
      return NoReply, ports, run;
    }
    table.InsertContainer(provisioning.outcome.dockerId, port.value, wsPort.value, userId, InstanceName(query));
    reply := Respond(201, "");
  }

  /** The row is written only after the whole provisioning run succeeded:
      its last step is the `/startServer` request. */
  lemma RowOnlyAfterStartServer(port: int, wsPort: int, rt: Runtime)
    requires Provisioning(ContainerConfigFor(port, wsPort, None), port, rt).outcome.Provisioned?
    ensures var steps := Provisioning(ContainerConfigFor(port, wsPort, None), port, rt).steps;
      |steps| == 5 && steps[4] == Http(StartServerRequest(port)) && steps[3] == DelayStep(2000)
  {
  }

  /** GET /list (`updateDb`, then the caller's containers). */
  method List(table: ContainerTable, userId: int, running: seq<string>) returns (reply: Reply<seq<Container>>)
    requires table.Valid()
    modifies table`rows
    ensures table.Valid()
    ensures !table.isOpen ==> reply.NoReply? && table.rows == old(table.rows)
    ensures table.isOpen ==> table.rows == Reconciled(old(table.rows), running)
    ensures table.isOpen ==>
      reply.Respond? && reply.status == 200
      && forall c :: c in reply.body <==> exists r :: r in table.rows && r.user_id == userId && c == FromRow(r)
  {
    table.UpdateDatabase(running);
    if !table.isOpen {
      return NoReply;
    }
    reply := Respond(200, table.ContainersForUser(userId));
  }

  /** What the Docker daemon and the host report while one container is
      stopped. */
  datatype StopReport = StopReport(stopServerAnswered: bool, dockerStopped: bool, dockerRemoved: bool)

  /** The steps of `stopContainer(containerId, port)`: `/stopServer`, then
      `docker stop`, then `docker rm`, each only once the one before it
      succeeded. */
  function StopContainerSteps(c: Container, report: StopReport): (steps: seq<DockerStep>)
    ensures 1 <= |steps| <= 3 && steps[0] == Http(StopServerRequest(c.port))
    ensures DockerRemove(c.containerId) in steps ==> DockerStop(c.containerId) in steps
  {
    [Http(StopServerRequest(c.port))]
      + (if report.stopServerAnswered then [DockerStop(c.containerId)] else [])
      + (if report.stopServerAnswered && report.dockerStopped then [DockerRemove(c.containerId)] else [])
  }

  function StopSucceeded(report: StopReport): bool {
    report.stopServerAnswered && report.dockerStopped && report.dockerRemoved
  }

  /** GET /delete: the row of the container the container middleware put
      in the request is deleted first, then the container is stopped and
      removed; 200 once all of that succeeded. */
  method Delete(table: ContainerTable, c: Container, report: StopReport)
    returns (reply: Reply<string>, steps: seq<DockerStep>)
    requires table.Valid()
    modifies table`rows
    ensures table.Valid()
    ensures !table.isOpen ==> reply.NoReply? && steps == [] && table.rows == old(table.rows)
    ensures table.isOpen ==> table.rows == WithoutId(old(table.rows), c.id)
    ensures table.isOpen ==> steps == StopContainerSteps(c, report)
    ensures table.isOpen ==> reply == if StopSucceeded(report) then Respond(200, "") else NoReply
  {
    if !table.isOpen {
      return NoReply, [];
    }
    table.DeleteContainer(c.id);
    steps := StopContainerSteps(c, report);
    reply := if StopSucceeded(report) then Respond(200, "") else NoReply;
  }

  /** GET /validateContainerId: the container middleware (whose rule is not
      part of this model) has accepted the request and put the container
      on it; the route answers 200 with that container. */
  function ValidateContainerId(c: Container): (r: Reply<Container>)
    ensures r.Respond? && r.status == 200 && r.body == c
  {
    Respond(200, c)
  }

  /** The older router's validation answers as the live router's `/:id`
      does for the same container: 200 and the container itself. */
  lemma ValidationAgreesWithInfoRoute(c: Container, outcome: UpstreamOutcome)
    ensures var info := ContainerProxy.Handle(ContainerProxy.GetInfo, Some(c), outcome).reply;
      && info.Respond? && info.status == ValidateContainerId(c).status
      && info.body == ContainerProxy.ContainerJson(ValidateContainerId(c).body)
  {
  }

  /** `deleteAllContainersFromUser(userId)`: reconcile, then stop, remove
      and delete each of the user's containers; no final reconcile.
      `unreachable` holds the row ids whose stop fails. Without a handle the
      reconcile is skipped (`db?.`) and the lookup throws: nothing is
      stopped and the promise rejects. */
  method DeleteAllContainersFromUser(table: ContainerTable, userId: int, running: seq<string>, unreachable: set<int>)
    returns (steps: seq<DockerStep>, completed: bool)
    requires table.Valid()
    modifies table`rows
    ensures table.Valid()
    ensures !table.isOpen ==> steps == [] && !completed && table.rows == old(table.rows)
    ensures table.isOpen ==> var mine := Containers(RowsOfUser(Reconciled(old(table.rows), running), userId));
      && steps == TeardownSteps(mine, unreachable, true)
      && (completed <==> forall c :: c in mine ==> c.id !in unreachable)
      && table.rows == WithoutIds(Reconciled(old(table.rows), running), StoppedIds(mine, unreachable))
  {
    table.UpdateDatabase(running);
    if !table.isOpen {
      return [], false;
    }
    ghost var reconciled := table.rows;
    assert reconciled == Reconciled(old(table.rows), running);
    var mine := table.ContainersForUser(userId);
    assert mine == Containers(RowsOfUser(reconciled, userId));
    steps, completed := StopAndDeleteEach(table, mine, unreachable, true);
  }

  /** A request that matches no route reaches `router.use(closeDatabase)`:
      the handle is closed, or the hook rejects when it was never opened,
      and the request is never answered. */
  method UnmatchedRoute(table: ContainerTable) returns (reply: Reply<string>, closed: bool)
    modifies table`isOpen
    ensures !table.isOpen && reply.NoReply?
    ensures closed == old(table.isOpen)
    ensures table.rows == old(table.rows)
  {
    closed := table.CloseDatabase();
    reply := NoReply;
  }
}
