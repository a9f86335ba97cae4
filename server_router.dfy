/** The live instance router (`server_router.ts`): create, list, look up and
    delete game-server instances over the container table, and the
    per-container proxy routes of `ContainerProxy`. The Docker list, the
    container lookup by route parameter and the Docker and host answers are
    inputs. */
module ServerRouter {
  import opened Wrappers
  import opened Js
  import opened Upstream
  import opened ContainerDb
  import opened PortAllocator
  import opened DockerHelper
  import opened ContainerProxy
  import AccountManager

  /** The account role; only `Admin` is told apart. */
  datatype Role = Admin | Regular

  /** `req.body.user` as the authentication middleware sets it. */
  datatype Caller = Caller(id: int, role: Role)

  const MaxGhostServers := 10

  /** The instance name: the `name` query parameter, or "Ghost Server". */
  function InstanceName(query: map<string, string>): string {
    if "name" in query then query["name"] else "Ghost Server"
  }

  /** POST /create. Opens the table, refuses at 10 rows, draws a primary
      port in [5000, 10000) and a websocket port in [45000, 50000),
      provisions the container and records it under the caller. A
      provisioning run that rejects or never settles leaves no reply and no
      row. */
  method Create(table: ContainerTable, caller: Caller, query: map<string, string>, rt: Runtime)
    returns (reply: Reply<string>, ports: Option<(int, int)>, run: Option<ProvisionRun>)
    requires table.Valid()
    modifies table`isOpen, table`rows, table`nextId
    ensures table.isOpen && table.Valid()
    ensures |old(table.rows)| >= MaxGhostServers ==>
      reply == Respond(507, "Max number of concurrent ghost servers") && ports.None? && run.None?
      && table.rows == old(table.rows)
    ensures |old(table.rows)| < MaxGhostServers && ports.None? ==> reply == Respond(507, "No available ports")
    ensures ports.None? ==>
      run.None? && table.rows == old(table.rows) && table.nextId == old(table.nextId)
      && reply.Respond? && reply.status == 507
    ensures ports.Some? ==>
      |old(table.rows)| < MaxGhostServers
      && PortMin <= ports.value.0 < PortMax && WsPortMin <= ports.value.1 < WsPortMax
      && run == Some(CreateContainer(ports.value.0, ports.value.1, rt))
    ensures reply == Respond(201, "") <==> run.Some? && run.value.outcome.Provisioned?
    ensures reply == Respond(201, "") ==>
      table.rows == old(table.rows) + [Row(old(table.nextId), run.value.outcome.dockerId, ports.value.0, ports.value.1, caller.id, InstanceName(query))]
      && table.nextId == old(table.nextId) + 1
    ensures reply.NoReply? ==> table.rows == old(table.rows) && table.nextId == old(table.nextId)
  {
    table.OpenDatabase();
    var taken := table.AllColumnValues(PortColumn);
    if |taken| >= MaxGhostServers {
      return Respond(507, "Max number of concurrent ghost servers"), None, None;
    }
    var wsTaken := table.AllColumnValues(WsPortColumn);
    var port := RandomRangeNotIn(PortMin, PortMax, taken);
    var wsPort := RandomRangeNotIn(WsPortMin, WsPortMax, wsTaken);
    if port.None? || wsPort.None? {
      return Respond(507, "No available ports"), None, None;
    }
    ports := Some((port.value, wsPort.value));
    var provisioning := CreateContainer(port.value, wsPort.value, rt);
    run := Some(provisioning);
    if !provisioning.outcome.Provisioned? {
      return NoReply, ports, run;
    }
    table.InsertContainer(provisioning.outcome.dockerId, port.value, wsPort.value, caller.id, InstanceName(query));
    reply := Respond(201, "");
  }

  /** At most ten rows can reach the port draw, so both draws always
      succeed: "No available ports" is never answered. */
  lemma PortsAvailableBelowCap(rows: seq<Row>)
    requires |rows| < MaxGhostServers
    ensures |ColumnValues(rows, PortColumn)| < PortMax - PortMin
    ensures |ColumnValues(rows, WsPortColumn)| < WsPortMax - WsPortMin
  {
  }

  /** What the exclusion lists returned by the table rule out: nothing, as
      they hold row objects and `indexOf` compares numbers with `===`. A
      port in use by a row can be drawn again. */
  lemma UsedPortCanBeDrawnAgain(rows: seq<Row>, r: Row)
    requires r in rows
    ensures IndexOfValue(ColumnValues(rows, PortColumn), Number(r.port)) == -1
  {
    ColumnValuesHoldNoNumber(rows, PortColumn, r.port);
  }

  /** The containers GET /list shows: all of them to an admin asking with
      `showAll=1`, otherwise the caller's own. */
  function Visible(rows: seq<Row>, caller: Caller, query: map<string, string>): seq<Container> {
    if caller.role == Admin && "showAll" in query && query["showAll"] == "1" then Containers(rows)
    else Containers(RowsOfUser(rows, caller.id))
  }

  /** Nobody but an admin asking with `showAll=1` sees another user's
      container, and everyone sees all of their own. */
  lemma VisibleIsOwnUnlessShowAll(rows: seq<Row>, caller: Caller, query: map<string, string>)
    ensures !(caller.role == Admin && "showAll" in query && query["showAll"] == "1") ==>
      forall c :: c in Visible(rows, caller, query) ==> c.userId == caller.id
    ensures forall r :: r in rows && r.user_id == caller.id ==> FromRow(r) in Visible(rows, caller, query)
    ensures caller.role == Admin && "showAll" in query && query["showAll"] == "1" ==>
      forall r :: r in rows ==> FromRow(r) in Visible(rows, caller, query)
  {
    var cs := Visible(rows, caller, query);
    var mine := RowsOfUser(rows, caller.id);
    if !(caller.role == Admin && "showAll" in query && query["showAll"] == "1") {
      forall c | c in cs ensures c.userId == caller.id {
        var i :| 0 <= i < |cs| && cs[i] == c;
        assert mine[i] in mine;
      }
      forall r | r in rows && r.user_id == caller.id ensures FromRow(r) in cs {
        var i :| 0 <= i < |mine| && mine[i] == r;
        assert cs[i] == FromRow(r);
      }
    } else {
      forall r | r in rows ensures FromRow(r) in cs {
        var i :| 0 <= i < |rows| && rows[i] == r;
        assert cs[i] == FromRow(r);
      }
    }
  }

  /** GET /list: reconcile against the running list first, then answer
      with the visible containers. */
  method List(table: ContainerTable, caller: Caller, query: map<string, string>, running: seq<string>)
    returns (reply: Reply<seq<Container>>)
    requires table.Valid()
    modifies table`isOpen, table`rows
    ensures table.isOpen && table.Valid()
    ensures table.rows == Reconciled(old(table.rows), running)
    ensures reply == Respond(200, Visible(table.rows, caller, query))
  {
    table.OpenDatabase();
    table.UpdateDatabase(running);
    if caller.role == Admin && "showAll" in query && query["showAll"] == "1" {
      reply := Respond(200, Containers(table.rows));
    } else {
      reply := Respond(200, table.ContainersForUser(caller.id));
    }
  }

  /** The proxy routes and GET /:id: open the table, then decide as
      `ContainerProxy.Handle`; no row changes. */
  method Proxy(table: ContainerTable, call: ProxyCall, lookup: Option<Container>, outcome: UpstreamOutcome)
    returns (result: Proxied)
    modifies table`isOpen
    ensures table.isOpen && table.rows == old(table.rows)
    ensures result == Handle(call, lookup, outcome)
  {
    table.OpenDatabase();
    result := Handle(call, lookup, outcome);
  }

  /** DELETE /:id: 400 for an unknown container; otherwise delete its row,
      then stop its host and reconcile, and answer 200 once that is done. */
  method Delete(table: ContainerTable, lookup: Option<Container>, stopAnswered: bool, running: seq<string>)
    returns (reply: Reply<ProxyBody>, sent: Option<UpstreamRequest>)
    requires table.Valid()
    modifies table`isOpen, table`rows
    ensures table.isOpen && table.Valid()
    ensures lookup.None? ==> reply == InvalidContainer && sent.None? && table.rows == old(table.rows)
    ensures lookup.Some? ==>
      sent == Some(StopServerRequest(lookup.value.port))
      && table.rows == (var left := WithoutId(old(table.rows), lookup.value.id);
                        if stopAnswered then Reconciled(left, running) else left)
      && reply == (if stopAnswered then Respond(200, NoBody) else NoReply)
  {
    table.OpenDatabase();
    if lookup.None? {
      return InvalidContainer, None;
    }
    var c := lookup.value;
    table.DeleteContainer(c.id);
    var request, stopped := StopContainer(table, c.port, true, stopAnswered, running);
    sent := Some(request);
    reply := if stopped then Respond(200, NoBody) else NoReply;
  }

  /** An authenticated request that matches no route (`GET /1/foo`, say)
      falls through to the router's last hook, `db.closeDatabase`. Nothing
      opened the table for it, so the handle is whatever earlier requests
      left: every handler opens it and none closes it. The hook closes the
      handle, or rejects when it is unset, and never calls `next`, so
      `user_db.closeDatabase` after it never runs and the request is never
      answered. */
  method UnmatchedRoute(table: ContainerTable, store: AccountManager.AccountStore)
    returns (reply: Reply<ProxyBody>, closed: bool)
    modifies table`isOpen
    ensures !table.isOpen && reply.NoReply?
    ensures closed == old(table.isOpen)
    ensures table.rows == old(table.rows) && store.isOpen == old(store.isOpen)
  {
    closed := table.CloseDatabase();
    reply := NoReply;
  }
}
