/** The per-container routes of the manager (`/:id`, `/:id/listPlayers`,
    `/:id/settings`, `/:id/startCountdown`, `/:id/serverMessage`,
    `/:id/banPlayer`, `/:id/disconnectPlayer`), written once in
    `container_router.ts` and again in `server_router.ts`. Each handler is a
    decision on the container lookup and on what the container's host
    answered; the lookup and the host's answer are inputs. */
module ContainerProxy {
  import opened Wrappers
  import opened Upstream
  import opened ContainerDb

  /** What the manager sends back. */
  datatype ProxyBody = NoBody | Message(text: string) | Data(payload: Payload) | ContainerJson(container: Container)

  /** The routes, with the parts of the request each one reads. */
  datatype ProxyCall =
    | GetInfo
    | ListPlayers
    | GetSettings
    | PutSettings(body: Fields)
    | StartCountdown
    | ServerMessage(query: map<string, string>)
    | BanPlayer(body: Fields)
    | DisconnectPlayer(body: Fields)

  /** The manager's reply and the request it made to the container, if
      any. */
  datatype Proxied = Proxied(reply: Reply<ProxyBody>, sent: Option<UpstreamRequest>)

  const InvalidContainer := Respond(400, Message("Invalid container ID"))

  /** `sendToContainer(container, route, method, data)`. */
  function SendToContainer(c: Container, route: string, verb: HttpMethod, data: Option<Fields>): (r: UpstreamRequest)
    ensures r.url == LocalUrl(c.port, route) && r.verb == verb && r.data == data
  {
    UpstreamRequest(LocalUrl(c.port, route), verb, data)
  }

  /** The request a route makes once its container is known; `None` for
      `/:id`, which makes none. */
  function RequestFor(call: ProxyCall, c: Container): Option<UpstreamRequest> {
    match call
    case GetInfo => None
    case ListPlayers => Some(SendToContainer(c, "/listPlayers", Get, None))
    case GetSettings => Some(SendToContainer(c, "/settings", Get, None))
    case PutSettings(body) => Some(SendToContainer(c, "/settings", Put, Some(body - {"user"})))
    case StartCountdown => Some(SendToContainer(c, "/startCountdown", Put, None))
    case ServerMessage(query) =>
      Some(SendToContainer(c, "/serverMessage?message=" + (if "message" in query then query["message"] else ""), Put, None))
    case BanPlayer(body) => Some(SendToContainer(c, "/banPlayer", Put, Some(body)))
    case DisconnectPlayer(body) => Some(SendToContainer(c, "/disconnectPlayer", Put, Some(body)))
  }

  /** The reply once the container answered `outcome`. A rejected request
      (`Failed`) is an unhandled rejection in the async handler: no reply. */
  function ReplyFor(call: ProxyCall, outcome: UpstreamOutcome): Reply<ProxyBody> {
    match outcome
    case Failed => NoReply
    case Answered(status, data) =>
      match call
      case ListPlayers => Respond(200, Data(data))
      case GetSettings => Respond(200, Data(data))
      case BanPlayer(_) => if status != 200 then Respond(status, Data(data)) else Respond(200, NoBody)
      case DisconnectPlayer(_) => if status != 200 then Respond(status, Data(data)) else Respond(200, NoBody)
      case _ => Respond(200, NoBody)
  }

  /** One route: `serverMessage` first requires `message` in the query;
      then the lookup decides between 400 and the container request. */
  function Handle(call: ProxyCall, lookup: Option<Container>, outcome: UpstreamOutcome): (r: Proxied)
    ensures r.sent.Some? ==> lookup.Some? && Some(r.sent.value) == RequestFor(call, lookup.value)
    ensures lookup.None? ==> r.sent.None? && r.reply.Respond? && r.reply.status == 400
    ensures r.reply.Respond? && r.reply.status == 200 ==> lookup.Some?
  {
    if call.ServerMessage? && "message" !in call.query then Proxied(Respond(400, NoBody), None)
    else
      match lookup
      case None => Proxied(InvalidContainer, None)
      case Some(c) =>
        if call.GetInfo? then Proxied(Respond(200, ContainerJson(c)), None)
        else Proxied(ReplyFor(call, outcome), RequestFor(call, c))
  }

  /** A failed lookup answers 400 "Invalid container ID" and sends nothing,
      whatever the route (a `serverMessage` with its `message`). */
  lemma UnknownContainerIsRejected(call: ProxyCall, outcome: UpstreamOutcome)
    requires call.ServerMessage? ==> "message" in call.query
    ensures Handle(call, None, outcome) == Proxied(InvalidContainer, None)
  {
  }

  /** `serverMessage` without `message` answers 400 before the lookup, so
      even an unknown container is not reported. */
  lemma MissingMessageCheckedFirst(query: map<string, string>, lookup: Option<Container>, outcome: UpstreamOutcome)
    requires "message" !in query
    ensures Handle(ServerMessage(query), lookup, outcome) == Proxied(Respond(400, NoBody), None)
  {
  }

  /** `/:id` answers with the container itself. */
  lemma InfoRepliesWithContainer(c: Container, outcome: UpstreamOutcome)
    ensures Handle(GetInfo, Some(c), outcome) == Proxied(Respond(200, ContainerJson(c)), None)
  {
  }

  /** listPlayers and GET settings answer 200 with the host's data whatever
      its 2xx status. */
  lemma ReadRoutesRelayData(call: ProxyCall, c: Container, status: SuccessStatus, data: Payload)
    requires call.ListPlayers? || call.GetSettings?
    ensures Handle(call, Some(c), Answered(status, data)).reply == Respond(200, Data(data))
  {
  }

  /** ban/disconnect pass a 2xx status other than 200 through with its
      data, and answer a bare 200 for a 200. A 4xx or 5xx from the host
      rejects the request, so the `status !== 200` branch never sees one:
      that request gets no reply at all. */
  lemma PlayerRoutesPassThrough(call: ProxyCall, c: Container, status: SuccessStatus, data: Payload)
    requires call.BanPlayer? || call.DisconnectPlayer?
    ensures var reply := Handle(call, Some(c), Answered(status, data)).reply;
      && (status != 200 ==> reply == Respond(status, Data(data)) && 200 < reply.status < 300)
      && (status == 200 ==> reply == Respond(200, NoBody))
    ensures Handle(call, Some(c), Failed).reply == NoReply
  {
  }

  /** Once the container is found, no route replies with a status outside
      2xx: every non-2xx answer of the host ends in no reply. */
  lemma FoundContainerRepliesSuccess(call: ProxyCall, c: Container, outcome: UpstreamOutcome)
    ensures var reply := Handle(call, Some(c), outcome).reply;
      reply.Respond? ==> 200 <= reply.status < 300 || (call.ServerMessage? && "message" !in call.query)
    ensures !call.GetInfo? && !(call.ServerMessage? && "message" !in call.query) && outcome.Failed? ==>
      Handle(call, Some(c), outcome).reply.NoReply?
  {
  }

  /** PUT settings forwards the body without the caller's `user` field and
      with every other field unchanged. */
  lemma SettingsForwardWithoutUser(body: Fields, c: Container, outcome: UpstreamOutcome)
    ensures var sent := Handle(PutSettings(body), Some(c), outcome).sent;
      && sent.Some? && sent.value.data.Some?
      && "user" !in sent.value.data.value
      && forall k :: k in body && k != "user" ==> k in sent.value.data.value && sent.value.data.value[k] == body[k]
  {
  }

  /** Every request goes to the looked-up container's own port, and two
      containers on different ports never receive each other's request. */
  lemma RequestsReachTheirContainer(call: ProxyCall, c: Container, d: Container)
    requires RequestFor(call, c).Some? && RequestFor(call, d).Some?
    requires RequestFor(call, c).value.url == RequestFor(call, d).value.url
    ensures c.port == d.port
  {
    var route := match call
      case ListPlayers => "/listPlayers"
      case GetSettings => "/settings"
      case PutSettings(_) => "/settings"
      case StartCountdown => "/startCountdown"
      case ServerMessage(query) => "/serverMessage?message=" + (if "message" in query then query["message"] else "")
      case BanPlayer(_) => "/banPlayer"
      case DisconnectPlayer(_) => "/disconnectPlayer"
      case GetInfo => "/";
    LocalUrlInjective(c.port, route, d.port, route);
  }
}
