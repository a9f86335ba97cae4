/** The game-server host (`Ghost-Server-Host/src/index.ts`): the HTTP surface
    inside each container. Three module-level settings are overwritten by
    its handlers; every other handler forwards to the native ghost-server
    addon, recorded here as a log of addon calls. */
module GhostHost {
  import opened Wrappers
  import opened Decimal

  /** `req.query` with single-valued parameters. */
  type Query = map<string, string>

  datatype Settings = Settings(preCommands: string, postCommands: string, duration: JsNumber)

  /** Calls into the native addon, in the order the handlers make them. */
  datatype AddonCall =
    | StartServer(wsPort: JsNumber)
    | Exit
    | StartCountdown(preCommands: string, postCommands: string, duration: JsNumber)
    | ServerMessage(message: string)
    | ListPlayers
    | DisconnectId(id: JsNumber)
    | DisconnectName(name: string)
    | BanId(id: JsNumber)
    | BanName(name: string)
    | SetAcceptingPlayers(value: Option<bool>)
    | GetAcceptingPlayers
    | SetAcceptingSpectators(value: Option<bool>)
    | GetAcceptingSpectators

  datatype Body = Empty | Text(text: string) | SettingsJson(settings: Settings) | AddonJson(json: string)

  /** The settings the host starts with. */
  const InitialSettings := Settings("", "", Num(1))

  /** PUT /settings: each of `preCommands`, `postCommands` and `duration`
      present in the query replaces its setting (`duration` through unary
      `+`); the others stay. */
  function ApplySettingsQuery(s: Settings, q: Query): Settings {
    Settings(
      if "preCommands" in q then q["preCommands"] else s.preCommands,
      if "postCommands" in q then q["postCommands"] else s.postCommands,
      if "duration" in q then ToNumber(q["duration"]) else s.duration)
  }

  /** A settings update changes exactly the fields its query names. */
  lemma SettingsUpdateIsPartial(s: Settings, q: Query)
    ensures var t := ApplySettingsQuery(s, q);
      && ("preCommands" !in q ==> t.preCommands == s.preCommands)
      && ("postCommands" !in q ==> t.postCommands == s.postCommands)
      && ("duration" !in q ==> t.duration == s.duration)
      && ("preCommands" in q ==> t.preCommands == q["preCommands"])
      && ("postCommands" in q ==> t.postCommands == q["postCommands"])
      && ("duration" in q ==> t.duration == ToNumber(q["duration"]))
  {
  }

  /** Repeating an update, or sending one with no settings fields, changes
      nothing more. */
  lemma SettingsUpdateIdempotent(s: Settings, q: Query)
    ensures ApplySettingsQuery(ApplySettingsQuery(s, q), q) == ApplySettingsQuery(s, q)
    ensures "preCommands" !in q && "postCommands" !in q && "duration" !in q ==> ApplySettingsQuery(s, q) == s
  {
  }

  /** Whom `/disconnectPlayer` and `/banPlayer` act on. */
  datatype Target = ById(idText: string) | ByName(name: string)

  /** `id` wins over `name`; with neither the handler answers 400. */
  function PlayerTarget(q: Query): (t: Option<Target>)
    ensures t.None? <==> "id" !in q && "name" !in q
    ensures "id" in q ==> t == Some(ById(q["id"]))
    ensures "id" !in q && "name" in q ==> t == Some(ByName(q["name"]))
  {
    if "id" in q then Some(ById(q["id"]))
    else if "name" in q then Some(ByName(q["name"]))
    else None
  }

  /** `value = req.query.value === "1"` when `value` is in the query,
      undefined otherwise. */
  function ParseFlag(q: Query): (v: Option<bool>)
    ensures v.None? <==> "value" !in q
    ensures v == Some(true) <==> "value" in q && q["value"] == "1"
  {
    if "value" in q then Some(q["value"] == "1") else None
  }

  /** `${value || true}`: `false` and `undefined` are falsy, so `true` is
      printed in their place. */
  function OrTrueText(v: Option<bool>): string {
    match v
    case Some(true) => "true"
    case _ => "true"
  }

  /** The acceptingPlayers/acceptingSpectators reply says "true" whatever
      the value set. */
  lemma AcceptingReplyIgnoresValue(v: Option<bool>)
    ensures "acceptingPlayers set to " + OrTrueText(v) == "acceptingPlayers set to true"
  {
  }

  /** The line `app.listen`'s callback prints (`PORT` unset or empty falls
      back to 80), followed by console.log's newline. */
  function ListenLine(portEnv: Option<string>): string {
    var port := if portEnv.Some? && portEnv.value != "" then portEnv.value else "80";
    "Server listening on port " + port + "\n"
  }

  class Host {
    var preCountdownCommands: string
    var postCountdownCommands: string
    var countdownDuration: JsNumber
    /** The addon calls made so far. */
    var addonCalls: seq<AddonCall>
    /** `process.exit()` was called. */
    var exited: bool

    function CurrentSettings(): Settings
      reads this
    {
      Settings(preCountdownCommands, postCountdownCommands, countdownDuration)
    }

    constructor ()
      ensures CurrentSettings() == InitialSettings && addonCalls == [] && !exited
    {
      preCountdownCommands := "";
      postCountdownCommands := "";
      countdownDuration := Num(1);
      addonCalls := [];
      exited := false;
    }

    /** GET /startServer: starts the websocket server on `+WS_PORT`. */
    method StartServerRoute(wsPortEnv: string) returns (reply: Reply<Body>)
      modifies this`addonCalls
      ensures addonCalls == old(addonCalls) + [StartServer(ToNumber(wsPortEnv))]
      ensures reply == Respond(200, Text("Ghost server started!"))
    {
      addonCalls := addonCalls + [StartServer(ToNumber(wsPortEnv))];
      reply := Respond(200, Text("Ghost server started!"));
    }

    /** GET /stopServer: stops the addon, answers, then ends the process. */
    method StopServerRoute() returns (reply: Reply<Body>)
      modifies this`addonCalls, this`exited
      ensures addonCalls == old(addonCalls) + [Exit] && exited
      ensures reply == Respond(200, Text("Ghost server stopped!"))
    {
      addonCalls := addonCalls + [Exit];
      reply := Respond(200, Text("Ghost server stopped!"));
      exited := true;
    }

    /** GET /settings: exactly the three current values. */
    method GetSettings() returns (reply: Reply<Body>)
      ensures reply == Respond(200, SettingsJson(Settings(preCountdownCommands, postCountdownCommands, countdownDuration)))
    {
      reply := Respond(200, SettingsJson(CurrentSettings()));
    }

    /** PUT /settings: a partial update from the query; always 200. */
    method PutSettings(q: Query) returns (reply: Reply<Body>)
      modifies this`preCountdownCommands, this`postCountdownCommands, this`countdownDuration
      ensures CurrentSettings() == ApplySettingsQuery(old(CurrentSettings()), q)
      ensures reply == Respond(200, Text("Settings updated!"))
    {
      if "preCommands" in q { preCountdownCommands := q["preCommands"]; }
      if "postCommands" in q { postCountdownCommands := q["postCommands"]; }
      if "duration" in q { countdownDuration := ToNumber(q["duration"]); }
      reply := Respond(200, Text("Settings updated!"));
    }

    /** PUT /startCountdown: the countdown runs with the current settings. */
    method StartCountdownRoute() returns (reply: Reply<Body>)
      modifies this`addonCalls
      ensures addonCalls == old(addonCalls) + [StartCountdown(preCountdownCommands, postCountdownCommands, countdownDuration)]
      ensures reply == Respond(200, Text("Countdown started"))
    {
      addonCalls := addonCalls + [StartCountdown(preCountdownCommands, postCountdownCommands, countdownDuration)];
      reply := Respond(200, Text("Countdown started"));
    }

    /** PUT /serverMessage: 400 and no addon call without `message`. */
    method ServerMessageRoute(q: Query) returns (reply: Reply<Body>)
      modifies this`addonCalls
      ensures "message" !in q ==> addonCalls == old(addonCalls) && reply == Respond(400, Text("Please specify a message"))
      ensures "message" in q ==> addonCalls == old(addonCalls) + [ServerMessage(q["message"])] && reply == Respond(200, Empty)
    {
      if "message" !in q {
        reply := Respond(400, Text("Please specify a message"));
        return;
      }
      addonCalls := addonCalls + [ServerMessage(q["message"])];
      reply := Respond(200, Empty);
    }

    /** GET /listPlayers: the addon's list, as JSON. */
    method ListPlayersRoute(listed: string) returns (reply: Reply<Body>)
      modifies this`addonCalls
      ensures addonCalls == old(addonCalls) + [ListPlayers]
      ensures reply == Respond(200, AddonJson(listed))
    {
      addonCalls := addonCalls + [ListPlayers];
      reply := Respond(200, AddonJson(listed));
    }

    /** PUT /disconnectPlayer: by id when `id` is given, else by name, else
        400 with no addon call. */
    method DisconnectPlayerRoute(q: Query) returns (reply: Reply<Body>)
      modifies this`addonCalls
      ensures PlayerTarget(q).None? ==> (addonCalls == old(addonCalls)
        && reply == Respond(400, Text("Please specify either 'id' or 'name'")))
      ensures "id" in q ==> (addonCalls == old(addonCalls) + [DisconnectId(ToNumber(q["id"]))]
        && reply == Respond(200, Text("Player with id " + q["id"] + " disconnected!")))
      ensures "id" !in q && "name" in q ==> (addonCalls == old(addonCalls) + [DisconnectName(q["name"])]
        && reply == Respond(200, Text("Player with name " + q["name"] + " disconnected!")))
    {
      match PlayerTarget(q)
      case Some(ById(id)) =>
        addonCalls := addonCalls + [DisconnectId(ToNumber(id))];
        reply := Respond(200, Text("Player with id " + id + " disconnected!"));
      case Some(ByName(name)) =>
        addonCalls := addonCalls + [DisconnectName(name)];
        reply := Respond(200, Text("Player with name " + name + " disconnected!"));
      case None =>
        reply := Respond(400, Text("Please specify either 'id' or 'name'"));
    }

    /** PUT /banPlayer: the same dispatch as /disconnectPlayer. */
    method BanPlayerRoute(q: Query) returns (reply: Reply<Body>)
      modifies this`addonCalls
      ensures PlayerTarget(q).None? ==> (addonCalls == old(addonCalls)
        && reply == Respond(400, Text("Please specify either 'id' or 'name'")))
      ensures "id" in q ==> (addonCalls == old(addonCalls) + [BanId(ToNumber(q["id"]))]
        && reply == Respond(200, Text("Player with id " + q["id"] + " banned!")))
      ensures "id" !in q && "name" in q ==> (addonCalls == old(addonCalls) + [BanName(q["name"])]
        && reply == Respond(200, Text("Player with name " + q["name"] + " banned!")))
    {
      match PlayerTarget(q)
      case Some(ById(id)) =>
        addonCalls := addonCalls + [BanId(ToNumber(id))];
        reply := Respond(200, Text("Player with id " + id + " banned!"));
      case Some(ByName(name)) =>
        addonCalls := addonCalls + [BanName(name)];
        reply := Respond(200, Text("Player with name " + name + " banned!"));
      case None =>
        reply := Respond(400, Text("Please specify either 'id' or 'name'"));
    }

    /** PUT /acceptingPlayers: sets the flag parsed from `value`. */
    method SetAcceptingPlayersRoute(q: Query) returns (reply: Reply<Body>)
      modifies this`addonCalls
      ensures addonCalls == old(addonCalls) + [SetAcceptingPlayers(ParseFlag(q))]
      ensures reply == Respond(200, Text("acceptingPlayers set to " + OrTrueText(ParseFlag(q))))
    {
      var value := ParseFlag(q);
      addonCalls := addonCalls + [SetAcceptingPlayers(value)];
      reply := Respond(200, Text("acceptingPlayers set to " + OrTrueText(value)));
    }

    /** GET /acceptingPlayers: the addon's current flag. */
    method GetAcceptingPlayersRoute(current: bool) returns (reply: Reply<Body>)
      modifies this`addonCalls
      ensures addonCalls == old(addonCalls) + [GetAcceptingPlayers]
      ensures reply == Respond(200, AddonJson(if current then "true" else "false"))
    {
      addonCalls := addonCalls + [GetAcceptingPlayers];
      reply := Respond(200, AddonJson(if current then "true" else "false"));
    }

    /** PUT /acceptingSpectators: sets the flag parsed from `value`; its
        reply text names acceptingPlayers. */
    method SetAcceptingSpectatorsRoute(q: Query) returns (reply: Reply<Body>)
      modifies this`addonCalls
      ensures addonCalls == old(addonCalls) + [SetAcceptingSpectators(ParseFlag(q))]
      ensures reply == Respond(200, Text("acceptingPlayers set to " + OrTrueText(ParseFlag(q))))
    {
      var value := ParseFlag(q);
      addonCalls := addonCalls + [SetAcceptingSpectators(value)];
      reply := Respond(200, Text("acceptingPlayers set to " + OrTrueText(value)));
    }

    /** GET /acceptingSpectators: the addon's current flag. */
    method GetAcceptingSpectatorsRoute(current: bool) returns (reply: Reply<Body>)
      modifies this`addonCalls
      ensures addonCalls == old(addonCalls) + [GetAcceptingSpectators]
      ensures reply == Respond(200, AddonJson(if current then "true" else "false"))
    {
      addonCalls := addonCalls + [GetAcceptingSpectators];
      reply := Respond(200, AddonJson(if current then "true" else "false"));
    }
  }

  /** A client's view: after PUT /settings, GET /settings reports the
      updated values and no addon call was made. */
  method PutThenGet(h: Host, q: Query) returns (reply: Reply<Body>)
    modifies h
    ensures reply == Respond(200, SettingsJson(ApplySettingsQuery(old(h.CurrentSettings()), q)))
    ensures h.addonCalls == old(h.addonCalls)
  {
    var _ := h.PutSettings(q);
    reply := h.GetSettings();
  }
}
