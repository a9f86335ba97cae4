# Portal 2 Ghost Server Hoster — a Dafny model of its core

The Ghost Server Hoster runs Portal 2 "ghost servers" for its users. Each
ghost server lives in its own Docker container. The **manager**
(`Ghost-Server-Manager`) is an Express application. It keeps a sqlite table
of containers, allocates two host ports per instance, provisions and tears
down containers, and proxies control requests to each container. Users
authenticate with tokens kept in an account store. The **host**
(`Ghost-Server-Host`) is the small Express server inside each container. It
holds the countdown settings and forwards commands to a native addon. A
browser **web interface** reads the token from the cookie and builds the
proxied URLs.

This project models that core in Dafny and proves properties of the model:

- `PortAllocator`: `randomRangeNotIn`, the rejection-sampling port allocator. It is a `while` loop over a nondeterministic draw, with a pigeonhole lemma that proves it terminates.
- `ContainerDb`: the `containers` table, as the class `ContainerTable`. It holds rows in insertion order and an AUTOINCREMENT counter. The open database handle is a flag.
- `DockerHelper`: the container configuration and the readiness listener. The listener is a loop over stdout chunks. Also the provisioning sequence, and teardown of one container or of all of a user's containers.
- `ServerRouter` and `ApiRouter`: the live and the older instance routers. They cover create (the cap of 10, port draws, insert), list (reconcile first, the admin `showAll` branch), delete, and the proxy routes. The older router never opens the table itself. Without an open handle its handlers throw and answer nothing.
- `ContainerProxy`: the per-container proxy decisions shared by `container_router.ts` and `server_router.ts`.
- `GhostHost`: the host's three mutable settings and its query dispatch. Calls into the native addon are recorded as a log.
- `AccountManager`: the `users` and `auth_tokens` tables, as the class `AccountStore`.
- `AuthMiddleware`: cutting the token out of the `Authorization` header, and the 400/401 decision.
- `AuthRouter`: `/register`, `/generateAuthToken` and `/user`.
- `WebAuth`: `getAuthToken` and `fetchAuthenticated` in the browser.
- `WebInterface`: the cached container id, the proxied URL and `validateContainerId`.

Helper modules: `Wrappers` holds `Option` and `Reply` (a response, or no response when a handler's promise rejects). `Decimal` holds the decimal text of integers and unary `+` on integer texts. `Js` holds `indexOf`, `substring`, `trim` and `split` on strings, and strict-equality `indexOf` on arrays. `Tables` holds SQL `WHERE` as filter and first match. `Upstream` holds the axios requests the manager sends to a container.

Docker, the HTTP calls, sqlite, the clock, randomness and the cryptographic functions are not executed. What they report back is an input: a `Runtime` record, an `UpstreamOutcome`, the list of running container ids, `now`, the random token, and a hash function fixed when the store is made. What the code asks of them is an output: a list of `DockerStep`s, an `UpstreamRequest`, or the host's log of `AddonCall`s.

## Model

| member | source | states |
|---|---|---|
| PortAllocator.RandomRangeNotIn | Ghost-Server-Manager/src/api/server_router.ts:207-217 | Returns nothing exactly when `numbers` is at least as long as `[min, max)`. Otherwise the result is in `[min, max)` and strict-equality `indexOf` does not find it in `numbers`. The loop terminates. The same function is at api_router.ts:122-132. |
| PortAllocator.FreeValueExists | Ghost-Server-Manager/src/api/server_router.ts:210-216 | Pigeonhole: a set of fewer than `max - min` taken values leaves a free value in `[min, max)`. This is why the draw loop can end. |
| PortAllocator.FindableNumbers | Ghost-Server-Manager/src/api/server_router.ts:214 | The integers `indexOf` can find in a list are exactly its numeric members, and there are no more of them than list entries. |
| PortAllocator.PortRangesDisjoint | Ghost-Server-Manager/src/api/server_router.ts:29-35 | A port from `[5000, 10000)` and a websocket port from `[45000, 50000)` always differ. |
| ContainerDb.FromRow | Ghost-Server-Manager/src/api/container_db_manager.ts:26-28 | `container_id`, `ws_port` and `user_id` become `containerId`, `wsPort` and `userId`; `id`, `port` and `name` are copied. |
| ContainerDb.FromRowInjective | Ghost-Server-Manager/src/api/container_db_manager.ts:26-28 | `fromRow` loses no column: equal containers come from equal rows. |
| ContainerDb.Containers | Ghost-Server-Manager/src/api/container_db_manager.ts:68 | The mapped list has one container per row, in row order, each built by `fromRow`. |
| ContainerDb.Reconciled | Ghost-Server-Manager/src/api/container_db_manager.ts:50-52 | A row is kept exactly when it was in the table and its `container_id` is in the running list. |
| ContainerDb.ReconcileIdempotent | Ghost-Server-Manager/src/api/container_db_manager.ts:50-52 | Reconciling twice against the same running list equals reconciling once. |
| ContainerDb.WithoutId | Ghost-Server-Manager/src/api/container_db_manager.ts:90-92 | Deleting by id keeps exactly the rows with another id. |
| ContainerDb.DeleteAbsentIsNoOp | Ghost-Server-Manager/src/api/container_db_manager.ts:90-92 | Deleting an id that no row has leaves the table unchanged, order included. |
| ContainerDb.DeleteUndoesInsert | Ghost-Server-Manager/src/api/container_db_manager.ts:54-64 | Deleting the id an insert has just handed out gives back the table as it was before the insert. |
| ContainerDb.WithoutIds | Ghost-Server-Manager/src/api/docker_helper.ts:85-88 | After one deletion per id of a batch, exactly the rows whose id is outside the batch are left. |
| ContainerDb.WithoutIdsStep | Ghost-Server-Manager/src/api/docker_helper.ts:85-88 | One more single-id deletion after a batch equals deleting the larger batch, row order included. |
| ContainerDb.RowsOfUser | Ghost-Server-Manager/src/api/container_db_manager.ts:67 | `WHERE user_id = ?` keeps exactly the table's rows with that user id. |
| ContainerDb.ColumnValues | Ghost-Server-Manager/src/api/container_db_manager.ts:85-88 | `SELECT <column>` gives one single-column row object per row, not bare numbers. |
| ContainerDb.ColumnValuesHoldNoNumber | Ghost-Server-Manager/src/api/container_db_manager.ts:85-88 | Strict-equality `indexOf` finds no number in that list, whatever the table holds. |
| ContainerDb.LookupAfterInsert | Ghost-Server-Manager/src/api/container_db_manager.ts:54-83 | With increasing ids, looking up the id just inserted finds the inserted row. |
| ContainerDb.ContainerTable.constructor | Ghost-Server-Manager/src/api/container_db_manager.ts:35-42 | A fresh table is empty, its ids start at 1, and it has no handle yet. |
| ContainerDb.ContainerTable.OpenDatabase | Ghost-Server-Manager/src/api/container_db_manager.ts:31-43 | The handle is open afterwards. `CREATE TABLE IF NOT EXISTS` keeps the rows. |
| ContainerDb.ContainerTable.CloseDatabase | Ghost-Server-Manager/src/api/container_db_manager.ts:45-48 | The handle is unset afterwards. The call resolves exactly when a handle was open; without one `db.close()` throws and the promise rejects. |
| ContainerDb.ContainerTable.UpdateDatabase | Ghost-Server-Manager/src/api/container_db_manager.ts:50-52 | With a handle, the table becomes its reconciliation against the running list. Without one, nothing changes. Increasing ids are kept. |
| ContainerDb.ContainerTable.InsertContainer | Ghost-Server-Manager/src/api/container_db_manager.ts:54-64 | Exactly one row is appended, carrying the next AUTOINCREMENT id and the given columns; the name defaults to "". Earlier rows are unchanged and the counter moves on by one. |
| ContainerDb.ContainerTable.ContainersForUser | Ghost-Server-Manager/src/api/container_db_manager.ts:66-69 | The result holds exactly the containers of that user's rows. |
| ContainerDb.ContainerTable.GetContainer | Ghost-Server-Manager/src/api/container_db_manager.ts:71-76 | Undefined exactly when no row has that Docker id. Otherwise it is the container of such a row. |
| ContainerDb.ContainerTable.GetContainerById | Ghost-Server-Manager/src/api/container_db_manager.ts:78-83 | Undefined exactly when no row has that id. Otherwise it is the container of that row. |
| ContainerDb.ContainerTable.AllColumnValues | Ghost-Server-Manager/src/api/container_db_manager.ts:85-88 | One value per row, so its length is the row count that the cap check reads. |
| ContainerDb.ContainerTable.DeleteContainer | Ghost-Server-Manager/src/api/container_db_manager.ts:90-92 | Only the row with that id is removed. |
| DockerHelper.PortKeyInjective | Ghost-Server-Manager/src/api/docker_helper.ts:13-25 | Different ports give different `<port>/tcp` keys, so the two bindings never overwrite each other. |
| DockerHelper.EnvCarriesPorts | Ghost-Server-Manager/src/api/docker_helper.ts:12 | The environment is `PORT=<port>` and `WS_PORT=<wsPort>`. Unary `+` in the host reads each value back as the same number. |
| DockerHelper.ConfigBindsPortsToThemselves | Ghost-Server-Manager/src/api/docker_helper.ts:13-25 | Exactly the two ports are exposed as tcp. Each is bound to the host port of the same number. With distinct ports there are two entries. |
| DockerHelper.FirstReadyChunk | Ghost-Server-Manager/src/api/docker_helper.ts:53-58 | The index of the first chunk that contains the marker, with none before it, or nothing when no chunk contains it. |
| DockerHelper.WaitForContainerStart | Ghost-Server-Manager/src/api/docker_helper.ts:44-64 | An attach error rejects. Otherwise the loop over chunks resolves at the first ready chunk, or waits forever. `resolve` is called at most once, and exactly once when it resolves. |
| DockerHelper.ReadinessIgnoresLaterChunks | Ghost-Server-Manager/src/api/docker_helper.ts:57-58 | Chunks after the first ready one do not change the outcome. |
| DockerHelper.HostListenLineIsReady | Ghost-Server-Host/src/index.ts:110-111 | The line the host prints when it starts listening is a ready chunk when it arrives whole. |
| DockerHelper.SplitMarkerIsMissed | Ghost-Server-Manager/src/api/docker_helper.ts:56 | For any two chunks that each lack the marker while their concatenation holds it, the promise never resolves. |
| DockerHelper.SplitMarkerExample | Ghost-Server-Manager/src/api/docker_helper.ts:56 | The host's listen line cut after "listening " is such a split. |
| DockerHelper.Provisioning | Ghost-Server-Manager/src/api/docker_helper.ts:8-41 | The steps are create, start, attach and readiness, the 2000 ms delay, then `/startServer`. Each failing `await` ends the run. `/startServer` is asked only as step 5, after readiness and the delay. The Docker id is returned exactly when every step succeeded. The run stays pending exactly when readiness never comes. |
| DockerHelper.CreateContainerSucceeds | Ghost-Server-Manager/src/api/docker_helper.ts:11-40 | A successful run begins by creating the container with the configuration for its ports. Its last step is `/startServer` on the primary port. |
| DockerHelper.StopContainer | Ghost-Server-Manager/src/api/docker_helper.ts:70-73 | GET `/stopServer` on the port. The table is reconciled only once that is answered and `updateDatabase` is set. |
| DockerHelper.StoppedIdsMembers | Ghost-Server-Manager/src/api/docker_helper.ts:85-88 | A container's row id counts as stopped exactly when the container is in the list and its stop request succeeded. |
| DockerHelper.StopAndDeleteEach | Ghost-Server-Manager/src/api/docker_helper.ts:84-91 | Across the loop over containers, exactly the rows of the stopped containers are deleted, and the steps are the concatenated stop steps. It reports success exactly when every stop succeeded. |
| DockerHelper.StopAndDeleteOne | Ghost-Server-Manager/src/api/docker_helper.ts:86-88 | The container is stopped without reconciling. Its row is deleted once the stop is answered. |
| DockerHelper.TeardownPrefixStep | Ghost-Server-Manager/src/api/docker_helper.ts:85-89 | One more container in the loop adds its stop steps, and adds its id when it is reachable. |
| DockerHelper.DeleteAllContainersFromUser | Ghost-Server-Manager/src/api/docker_helper.ts:79-93 | Without an open handle nothing is stopped or deleted and the call does not complete. With one: reconcile, then stop each of the user's remaining containers and delete its row. When every stop succeeded, reconcile again against the list Docker reports then. |
| DockerHelper.TeardownRemovesOnlyStoppedUserRows | Ghost-Server-Manager/src/api/docker_helper.ts:79-93 | After the loop, the rows left are exactly the earlier rows, less the user's rows whose stop succeeded. Other users' rows are all kept. |
| ServerRouter.Create | Ghost-Server-Manager/src/api/server_router.ts:15-43 | The table is opened first. At 10 or more rows the reply is 507 "Max number of concurrent ghost servers" and nothing is drawn or created. Below the cap a failed draw is 507 "No available ports". The ports come from the two ranges. A 201 reply comes exactly when provisioning succeeded. It appends one row with those ports, the caller's id and the name (default "Ghost Server"), and advances the id counter by one. Otherwise neither the rows nor the counter change. |
| ServerRouter.PortsAvailableBelowCap | Ghost-Server-Manager/src/api/server_router.ts:20-35 | Below the cap both exclusion lists are shorter than their ranges, so "No available ports" is never answered. |
| ServerRouter.UsedPortCanBeDrawnAgain | Ghost-Server-Manager/src/api/server_router.ts:29-30 | The exclusion list excludes no port, so a port a row already uses can be drawn again. |
| ServerRouter.VisibleIsOwnUnlessShowAll | Ghost-Server-Manager/src/api/server_router.ts:47-57 | Only an admin asking with `showAll=1` sees other users' containers, and then sees all of them. Everyone sees all of their own. |
| ServerRouter.List | Ghost-Server-Manager/src/api/server_router.ts:45-58 | The table is reconciled against the running list first. Then the reply is 200 with the visible containers. |
| ServerRouter.Proxy | Ghost-Server-Manager/src/api/server_router.ts:60-194 | The table is opened and no row changes. The reply and the request are the proxy decision. |
| ServerRouter.Delete | Ghost-Server-Manager/src/api/server_router.ts:71-86 | An unknown container gets 400 and the table is unchanged. Otherwise its row is deleted, `/stopServer` is sent to its port, the table is reconciled once that is answered, and the reply is 200. |
| ServerRouter.UnmatchedRoute | Ghost-Server-Manager/src/api/server_router.ts:205 | An authenticated request matching no route closes the table, or rejects when no handle was open. It is never answered. No row changes, and the account store's handle is untouched, because the hook never calls `next`. |
| ApiRouter.Create | Ghost-Server-Manager/src/api/api_router.ts:16-72 | Without an open handle nothing is answered or changed. With one: the same cap, ranges and 507 as the live router, with no network mode. The row is appended, and the id counter advanced, only after the whole provisioning run succeeded. The name defaults to "". |
| ApiRouter.RowOnlyAfterStartServer | Ghost-Server-Manager/src/api/api_router.ts:58-69 | A successful run has five steps: readiness, then the 2000 ms delay, then `/startServer` last, before the insert. |
| ApiRouter.List | Ghost-Server-Manager/src/api/api_router.ts:97-102 | Without an open handle nothing is answered and no row changes. With one, the table is reconciled against the running ids (`updateDb`), then the reply is exactly the caller's containers. |
| ApiRouter.StopContainerSteps | Ghost-Server-Manager/src/api/api_router.ts:134-140 | `/stopServer` comes first. `docker rm` is never asked without `docker stop` before it. |
| ApiRouter.Delete | Ghost-Server-Manager/src/api/api_router.ts:104-113 | Without an open handle nothing is answered, stopped or deleted. With one, the row is deleted first, then the container is stopped and removed. The reply is 200 only when all of that succeeded. |
| ApiRouter.DeleteAllContainersFromUser | Ghost-Server-Manager/src/api/api_router.ts:147-160 | Without an open handle nothing is stopped or deleted and the call does not complete. With one: reconcile, then stop, remove and delete each of the user's containers. There is no final reconcile. |
| ApiRouter.ValidateContainerId | Ghost-Server-Manager/src/api/api_router.ts:115-118 | 200 with the container the container middleware accepted. |
| ApiRouter.ValidationAgreesWithInfoRoute | Ghost-Server-Manager/src/api/api_router.ts:115-118 | The answer is the live `/:id` route's answer for the same container: 200 and that container. |
| ApiRouter.UnmatchedRoute | Ghost-Server-Manager/src/api/api_router.ts:120 | A request matching no route closes the table, or rejects when no handle was open. It is never answered, and no row changes. |
| ContainerProxy.SendToContainer | Ghost-Server-Manager/src/api/container_router.ts:132-139 | The request goes to `http://localhost:<container port><route>` with the given method and data. |
| ContainerProxy.Handle | Ghost-Server-Manager/src/api/container_router.ts:13-130 | A request is sent only to the looked-up container, and it is that route's request. A failed lookup gets 400 and no request. A 200 reply needs a found container. |
| ContainerProxy.UnknownContainerIsRejected | Ghost-Server-Manager/src/api/container_router.ts:15-19 | Every route answers an unknown container with 400 "Invalid container ID" and sends nothing. |
| ContainerProxy.MissingMessageCheckedFirst | Ghost-Server-Manager/src/api/container_router.ts:75-78 | serverMessage without `message` answers 400 before the lookup. |
| ContainerProxy.InfoRepliesWithContainer | Ghost-Server-Manager/src/api/container_router.ts:13-22 | `/:id` answers 200 with the container itself and sends nothing. |
| ContainerProxy.ReadRoutesRelayData | Ghost-Server-Manager/src/api/container_router.ts:24-46 | listPlayers and GET settings answer 200 with the host's data, whatever 2xx status the host gave. |
| ContainerProxy.PlayerRoutesPassThrough | Ghost-Server-Manager/src/api/container_router.ts:90-130 | ban and disconnect pass a 2xx status other than 200 through with its data, and answer a bare 200 for a 200. A 4xx or 5xx from the host rejects the awaited request, so the request gets no reply. |
| ContainerProxy.FoundContainerRepliesSuccess | Ghost-Server-Manager/src/api/container_router.ts:13-139 | Once the container is found, every reply is 2xx, except `serverMessage`'s 400 for a missing `message`. A rejected host request leaves every route except `/:id` without a reply. |
| ContainerProxy.SettingsForwardWithoutUser | Ghost-Server-Manager/src/api/container_router.ts:48-59 | PUT settings forwards the body without `user` and with every other field unchanged. |
| ContainerProxy.RequestsReachTheirContainer | Ghost-Server-Manager/src/api/container_router.ts:132-139 | If two containers' requests for a route have the same URL, the containers have the same port. |
| Upstream.LocalUrlInjective | Ghost-Server-Manager/src/api/container_router.ts:134 | A `http://localhost:<port><route>` URL determines both its port and its route. |
| GhostHost.SettingsUpdateIsPartial | Ghost-Server-Host/src/index.ts:30-35 | PUT /settings overwrites exactly the fields named in the query. `duration` goes through unary `+`. |
| GhostHost.SettingsUpdateIdempotent | Ghost-Server-Host/src/index.ts:30-35 | Repeating an update changes nothing more. A query with no settings fields changes nothing. |
| GhostHost.PlayerTarget | Ghost-Server-Host/src/index.ts:56-84 | `id` wins over `name`. With neither, there is no target. |
| GhostHost.ParseFlag | Ghost-Server-Host/src/index.ts:87-88 | The flag is undefined exactly when `value` is absent, and true exactly when `value` is "1". |
| GhostHost.AcceptingReplyIgnoresValue | Ghost-Server-Host/src/index.ts:91 | `value \|\| true` makes the reply say "true" whatever the flag is. |
| GhostHost.Host.constructor | Ghost-Server-Host/src/index.ts:7-9 | The settings start as "", "" and 1. No addon call has been made. |
| GhostHost.Host.StartServerRoute | Ghost-Server-Host/src/index.ts:11-14 | The addon's websocket server starts on `+WS_PORT`. |
| GhostHost.Host.StopServerRoute | Ghost-Server-Host/src/index.ts:16-20 | The addon exits, the reply is sent, then the process exits. |
| GhostHost.Host.GetSettings | Ghost-Server-Host/src/index.ts:22-28 | The reply is exactly the three current values. |
| GhostHost.Host.PutSettings | Ghost-Server-Host/src/index.ts:30-35 | The new settings are the partial update of the old ones, and the reply is always 200. |
| GhostHost.Host.StartCountdownRoute | Ghost-Server-Host/src/index.ts:37-40 | The countdown starts with the current settings. |
| GhostHost.Host.ServerMessageRoute | Ghost-Server-Host/src/index.ts:42-50 | Without `message` the reply is 400 and no addon call is made. Otherwise the message is sent to the addon. |
| GhostHost.Host.ListPlayersRoute | Ghost-Server-Host/src/index.ts:52-54 | The reply is the addon's list. |
| GhostHost.Host.DisconnectPlayerRoute | Ghost-Server-Host/src/index.ts:56-69 | The player is disconnected by id when `id` is given, else by name. With neither, the reply is 400 and no addon call is made. |
| GhostHost.Host.BanPlayerRoute | Ghost-Server-Host/src/index.ts:71-84 | The same dispatch as disconnect, with a ban. |
| GhostHost.Host.SetAcceptingPlayersRoute | Ghost-Server-Host/src/index.ts:86-92 | The addon receives the parsed flag, and the reply prints `value \|\| true`. |
| GhostHost.Host.GetAcceptingPlayersRoute | Ghost-Server-Host/src/index.ts:94-96 | The reply is the addon's current flag. |
| GhostHost.Host.SetAcceptingSpectatorsRoute | Ghost-Server-Host/src/index.ts:98-104 | The addon receives the parsed flag. The reply text names acceptingPlayers. |
| GhostHost.Host.GetAcceptingSpectatorsRoute | Ghost-Server-Host/src/index.ts:106-108 | The reply is the addon's current flag. |
| GhostHost.PutThenGet | Ghost-Server-Host/src/index.ts:22-35 | GET after PUT /settings reports the updated values, and no addon call is made. |
| AccountManager.UserFromRow | Ghost-Server-Manager/src/auth/account_manager.ts:21-23 | The user keeps the row's id and email, and not its password hash. |
| AccountManager.FindByCredentials | Ghost-Server-Manager/src/auth/account_manager.ts:92-93 | Undefined exactly when no user has both the email and the digest. Otherwise it is such a row of the table. |
| AccountManager.Unexpired | Ghost-Server-Manager/src/auth/account_manager.ts:107 | The purge keeps exactly the tokens with `expirationDate >= now`. |
| AccountManager.Resolve | Ghost-Server-Manager/src/auth/account_manager.ts:109-120 | A token that no row carries resolves to no one. A resolved user comes from a user row whose id is the token row's `user_id`. |
| AccountManager.ExpiredTokenNeverResolves | Ghost-Server-Manager/src/auth/account_manager.ts:107-110 | After the purge, a token whose rows have all expired resolves to no one. |
| AccountManager.MissingUserRowResolvesToNoOne | Ghost-Server-Manager/src/auth/account_manager.ts:118-120 | A token row whose user row is missing resolves to no one. |
| AccountManager.IssuedTokenResolves | Ghost-Server-Manager/src/auth/account_manager.ts:95-120 | A fresh, unexpired token just issued for a user resolves to that user. |
| AccountManager.RegisteredUserIsFound | Ghost-Server-Manager/src/auth/account_manager.ts:80-93 | A user who has just registered is found again by the same email and password digest. |
| AccountManager.AccountStore.constructor | Ghost-Server-Manager/src/auth/account_manager.ts:26-43 | An empty store with ids starting at 1 and no handle. |
| AccountManager.AccountStore.OpenDatabase | Ghost-Server-Manager/src/auth/account_manager.ts:26-43 | The handle is open afterwards. When it already was, the call does nothing. |
| AccountManager.AccountStore.CloseDatabase | Ghost-Server-Manager/src/auth/account_manager.ts:45-48 | The handle is unset afterwards. The call resolves exactly when a handle was open; without one `db.close()` throws and the promise rejects. |
| AccountManager.AccountStore.CreateUser | Ghost-Server-Manager/src/auth/account_manager.ts:69-84 | Undefined exactly without a handle. False, with nothing inserted, exactly when the email is taken. Otherwise the promise rejects, with nothing inserted, exactly when the email contains a quote, which breaks the interpolated INSERT. Otherwise one row with the password's digest is appended and the result is true. Emails stay unique. |
| AccountManager.AccountStore.GenerateAuthToken | Ghost-Server-Manager/src/auth/account_manager.ts:86-101 | Undefined exactly when there is no handle or no user matches both the email and the digest, and then nothing changes. Otherwise one token row for that user is appended and `[token, expiration]` is returned. |
| AccountManager.AccountStore.GetUser | Ghost-Server-Manager/src/auth/account_manager.ts:103-121 | Undefined, with nothing changed, when there is no handle. Otherwise expired tokens are purged first, then the token is resolved. |
| AuthMiddleware.ExtractToken | Ghost-Server-Manager/src/util/middleware.ts:10 | A token exists exactly when the header is longer than 7 characters. The header is its first 7 characters followed by the token. |
| AuthMiddleware.SchemeIsNotChecked | Ghost-Server-Manager/src/util/middleware.ts:10 | Any 7-character scheme is accepted. |
| AuthMiddleware.Decide | Ghost-Server-Manager/src/util/middleware.ts:11-29 | No token gives 400. An unresolved token gives 401. The request passes exactly when both exist. |
| AuthMiddleware.Authenticate | Ghost-Server-Manager/src/util/middleware.ts:7-30 | Only the header is read. Without a token the reply is 400 and the store is untouched. Otherwise the store is opened and purged, and the decision is taken on the resolved user. A refusal sends the reply and does not call `next`. A pass sets `req.body.user` and `res.locals.authToken` and calls `next` exactly once. |
| AuthMiddleware.Exchange.constructor | Ghost-Server-Manager/src/util/middleware.ts:7 | Nothing is set, sent or called yet. |
| AuthRouter.LoginCookieAsWritten | Ghost-Server-Manager/src/auth/auth_router.ts:65 | The cookie carries `[token, expiration]` with maxAge `7*24*60*60`. |
| AuthRouter.LoginCookie | Ghost-Server-Manager/src/auth/auth_router.ts:65 | The cookie `authToken` carries `[token, expiration]` and is httpOnly, secure and lax, with a maxAge of a week in milliseconds. |
| AuthRouter.CookieAsWrittenExpiresLongBeforeToken | Ghost-Server-Manager/src/auth/auth_router.ts:65 | As written, the cookie lapses within 11 minutes, while the token is valid for about a week. |
| AuthRouter.CookieLivesAsLongAsToken | Ghost-Server-Manager/src/auth/auth_router.ts:65 | The corrected maxAge is the written number read as milliseconds, a week. The cookie then lives as long as the token, to within the daylight-saving hour. |
| AuthRouter.Register | Ghost-Server-Manager/src/auth/auth_router.ts:13-37 | The store is opened first. A missing `email`, then a missing `password`, gives 400 and no change. 409 is answered exactly when the email is taken, and nothing changes. A new email containing a quote makes the awaited `createUser` reject: no reply and no change. Otherwise one row is appended and the reply is 201. |
| AuthRouter.GenerateToken | Ghost-Server-Manager/src/auth/auth_router.ts:39-66 | The credentials are read from the body. Missing ones give 400. No matching user gives 404, with no change. Otherwise one token row is appended and the reply is 200 with the login cookie. |
| AuthRouter.UserRouteAsWritten | Ghost-Server-Manager/src/auth/auth_router.ts:68-70 | The reply is 200 with the query's `user`. It is absent unless the client sent one. |
| AuthRouter.UserRouteIgnoresCaller | Ghost-Server-Manager/src/auth/auth_router.ts:68-70 | As written, two different authenticated users get the same reply. |
| AuthRouter.UserRoute | Ghost-Server-Manager/src/auth/auth_router.ts:68-70 | The corrected route answers 200 with the user the middleware put on the request. |
| AuthRouter.UserRouteAnswersResolvedUser | Ghost-Server-Manager/src/auth/auth_router.ts:68-70 | A caller who passes the middleware is answered with the registered user their token resolves to. |
| AuthRouter.UnmatchedRoute | Ghost-Server-Manager/src/auth/auth_router.ts:72 | After the open hook, which calls `next`, a request matching no route closes the account store. It is never answered, and no user or token row changes. |
| WebAuth.GetAuthToken | Ghost-Server-Manager/web/authHelper.js:30-40 | Only the first `;` segment counts, trimmed. There is a token exactly when that segment starts with `authToken=`, and the token is the rest of it. |
| WebAuth.LacksPrefixIff | Ghost-Server-Manager/web/authHelper.js:33-34 | `indexOf("authToken=") !== 0` on the trimmed segment holds exactly when the segment does not start with the prefix. |
| WebAuth.SegmentTokenRoundTrip | Ghost-Server-Manager/web/authHelper.js:31-36 | A first segment `authToken=<t>`, with blanks before it, gives back `t`. |
| WebAuth.CookieTokenRoundTrip | Ghost-Server-Manager/web/authHelper.js:31-36 | A cookie string whose first segment is `authToken=<t>` gives back `t`, whatever follows. |
| WebAuth.LaterSegmentsIgnored | Ghost-Server-Manager/web/authHelper.js:32-36 | Whatever follows the first `;` is ignored, including a token in a later segment. |
| WebAuth.EmptyValueIsEmptyToken | Ghost-Server-Manager/web/authHelper.js:36 | An empty value, with blanks before it, gives the empty token, not "no token". |
| WebAuth.BasicHeaderAsWritten | Ghost-Server-Manager/web/authHelper.js:23 | The header is six characters followed by the token. |
| WebAuth.BearerHeader | Ghost-Server-Manager/web/authHelper.js:23 | The corrected header is seven characters, the length the middleware drops, followed by the token. |
| WebAuth.BasicHeaderLosesFirstCharacter | Ghost-Server-Manager/web/authHelper.js:23 | With `Basic `, the middleware reads the token without its first character, or no token when the token is one character long. |
| WebAuth.BasicHeaderIsRefused | Ghost-Server-Manager/web/authHelper.js:23 | So an issued token is refused with 401 unless some live token equals its tail. |
| WebAuth.BearerHeaderRoundTrip | Ghost-Server-Manager/web/authHelper.js:23 | With `Bearer `, the middleware reads back exactly the token sent. |
| WebAuth.FetchAuthenticated | Ghost-Server-Manager/web/authHelper.js:12-28 | A request is made exactly when the token is present and not empty, and it carries the token in the header the middleware reads. Otherwise nothing is sent: with `redirect` the page goes to the login page with its own location as target, and without it the result is undefined. |
| WebAuth.IssuedCookieAuthenticates | Ghost-Server-Manager/web/authHelper.js:12-36 | Given a cookie string whose first segment is `authToken=<token>`, for a token just issued, the token is sent, read back by the middleware, and passes as the user it was issued for. The login route's own cookie does not take this form (see Left out). |
| WebInterface.ParamSeparator | Ghost-Server-Manager/web/webinterface/util.js:19 | The id parameter opens with '?' when the URL has no '?', and with '&' otherwise. |
| WebInterface.ContainerUrlShape | Ghost-Server-Manager/web/webinterface/util.js:19 | The URL is `/container<url>?id=<id>` or `/container<url>&id=<id>`. |
| WebInterface.OneQueryString | Ghost-Server-Manager/web/webinterface/util.js:19 | The built URL has exactly one '?' whenever the route had at most one. |
| WebInterface.IdReadsBack | Ghost-Server-Manager/web/webinterface/util.js:19 | The id is the URL's last parameter and reads back as the same number. |
| WebInterface.ValidationOf | Ghost-Server-Manager/web/webinterface/util.js:9-12 | 200 resolves to the body. On 401 the helper redirects and gives undefined, reading its `status` throws, and the promise rejects. Any other status resolves to null. |
| WebInterface.CachedAfter | Ghost-Server-Manager/web/webinterface/util.js:22-32 | A cached id stays. Otherwise the page's `id` parameter decides, through unary `+`. |
| WebInterface.ContainerIdCache.constructor | Ghost-Server-Manager/web/webinterface/util.js:3 | The cache starts empty. |
| WebInterface.ContainerIdCache.GetContainerId | Ghost-Server-Manager/web/webinterface/util.js:22-32 | With an id cached it returns undefined and changes nothing. An absent parameter leaves the cache empty and returns undefined. A present one is converted, cached and returned. |
| WebInterface.ContainerIdCache.SendToContainer | Ghost-Server-Manager/web/webinterface/util.js:15-20 | Without a container id nothing is sent. Otherwise the request goes to the container URL with the given method and `redirect`. |
| WebInterface.ContainerIdCache.ValidateContainerId | Ghost-Server-Manager/web/webinterface/util.js:5-13 | Without a container id it returns undefined and sends nothing. Otherwise it sends GET `/api/validateContainerId?id=<id>`, and the answer decides the result. |

## Left out

- Docker, axios, sqlite and the network are not executed. Their answers are inputs: `Runtime`, `UpstreamOutcome`, `StopReport` and the running-id lists. Requests and Docker calls are returned as values.
- `Math.random` and `Math.floor` are replaced by a nondeterministic choice. Each redraw picks a value not rejected before. A redraw that repeats a rejected value changes nothing, so this covers every run that ends.
- Concurrency is not modelled. The `Promise.all` teardown runs its rounds one after another. The un-awaited insert in the live router's create is treated as done before the reply. Nothing locks the span from the cap check to the insert, and no race-freedom is claimed.
- Port uniqueness across rows is not claimed. The exclusion lists hold row objects, so the draw excludes nothing (`ServerRouter.UsedPortCanBeDrawnAgain`).
- The 2000 ms delay is a step of the provisioning run, not a clock.
- A rejected `await` in an async handler leaves the request unanswered (`NoReply`). Logging is not modelled.
- The native addon is a log of `AddonCall`s. Its effects are not modelled, and the values it returns are inputs.
- SHA-256 (`getPasswordHash`) is a function fixed when the account store is made. `randomBytes` is the `freshToken` input. The clock and the date-fns `addDays` result are the `now` and `expiration` inputs, so no exact 7-day delta is asserted.
- Decimal.ToNumber: unary `+` is modelled only for optional-minus decimal integer texts (the empty text is 0). Every other text is NaN here, including leading or trailing blanks, fractions, exponents and hex, which JavaScript would read as numbers.
- Decimal.ToNumber: the result is the exact integer. A JavaScript number is a double, so beyond 2^53 JavaScript rounds (`+"9007199254740993"` is 9007199254740992) and the model does not. This reaches the host's `id` and `duration` query values (`GhostHost.Host.BanPlayerRoute`, `GhostHost.Host.DisconnectPlayerRoute`, `GhostHost.Host.PutSettings`) and the page's container id (`WebInterface.CachedAfter`).
- Decimal.NumberText: integers are printed digit by digit at any size. JavaScript prints 10^21 and above in exponent form (`1e+21`), so `WebInterface.ContainerIdCache.SendToContainer` and `WebInterface.IdReadsBack` hold as stated only for ids below 10^21.
- ContainerDb.ContainerTable.InsertContainer: values are stored as typed columns. The SQL string interpolation is not modelled: a name containing a quote would break the statement. Both routers call it without `await`, so the reply would not change, but the row would be missing. sqlite's type affinity for the quoted port texts is not modelled either.
- AccountManager.AccountStore.CreateUser: every quote in a new email is taken to break the interpolated INSERT. An email whose quotes still form valid SQL is not modelled. Examples are a doubled quote, which stores the email with one quote, and a crafted value that closes the literal and supplies its own values (SQL injection).
- The host reads the ban and disconnect target from the query string (`Ghost-Server-Host/src/index.ts`:57-83). The manager forwards these parameters in the JSON body of a request to `/banPlayer` or `/disconnectPlayer`, with no query string. The host's answer is an `UpstreamOutcome` input, so the model does not derive that this answer is always 400, and so always `Failed`.
- Request query and body values are single strings. Array-valued parameters are not modelled. The forwarded JSON bodies are maps from field to JSON text.
- `getContainerFromParameter`, `removeContainersNotRunning`, `getAllContainers`, `db.createContainer`, `user_db.Role` and `containerAuthMiddleware` have no definitions among these files. The container lookup is an input. `removeContainersNotRunning` is modelled as reconciling against a running-id input, as `api_router.ts` does with `updateDb`, and, like `updateDatabase`, as doing nothing without a handle. `getAllContainers` is every row through `fromRow`. `db.createContainer` is `insertContainer`. Only `Admin` is told apart among roles. No owner-or-admin rule is assumed.
- ApiRouter.DeleteAllContainersFromUser: a failed `docker stop` or `docker rm` is folded into the single `unreachable` set of containers whose teardown fails.
- `dumpDatabase` in the account manager only logs, so it is not modelled. The router-level `closeDatabase` hooks are reached only by requests that match no route (`AuthRouter.UnmatchedRoute`, `ServerRouter.UnmatchedRoute`, `ApiRouter.UnmatchedRoute`), because no route handler calls `next`. `container_router.ts` ends with the same hooks as `server_router.ts`.
- Cookie serialization is not modelled. Express writes the array value as `j:` JSON, and an httpOnly cookie is invisible to `document.cookie`. `GetAuthToken` reads the cookie string as given.
- The middleware reads only the `Authorization` header, although its doc comment promises cookies as well. The model follows the code.
- The DOM, jQuery and page navigation are not modelled. This covers `authenticate()` in `util.js`, `getUser()` in `web/authHelper.js` and the other pages. `encodeURIComponent(window.location.href)` is the `encodedLocation` input. The `fetchAuthenticated` used by `util.js` (in `web/util/authHelper.js`) is not part of this model, except for its 401 answer in `WebInterface.ValidationOf`.
- The listen callback and the process exit in the host are recorded as a printed line and a flag.
- WebAuth.FetchAuthenticated: sends the corrected `Bearer ` header, not the `Basic ` header as written. The as-written header is `WebAuth.BasicHeaderAsWritten` (see Findings).
- AuthRouter.GenerateToken: sets the corrected cookie with maxAge in milliseconds. The as-written cookie is `AuthRouter.LoginCookieAsWritten` (see Findings).

## Findings

| source | as written | input that shows it | evidently intended | confidence | as-written member | corrected member |
|---|---|---|---|---|---|---|
| Ghost-Server-Manager/web/authHelper.js:23 | The client sends `Basic <token>`, a 6-character scheme, but `middleware.ts:10` drops 7 characters | token "abc" is sent as "Basic abc"; the middleware reads "bc" and answers 401 | `Bearer <token>`, so the middleware reads back the token sent | high (not executed) | WebAuth.BasicHeaderLosesFirstCharacter | WebAuth.BearerHeaderRoundTrip |
| Ghost-Server-Manager/src/auth/auth_router.ts:65 | `maxAge: 7*24*60*60` is a week in seconds, but Express reads maxAge in milliseconds | a login at time T sets a cookie that lapses at T + 604800 ms, about 10 minutes, while the token is valid until about T + 7 days | a maxAge of 7*24*60*60*1000 | high (not executed) | AuthRouter.CookieAsWrittenExpiresLongBeforeToken | AuthRouter.CookieLivesAsLongAsToken |
| Ghost-Server-Manager/src/auth/auth_router.ts:69 | GET /user replies `req.query.user`, not the `req.body.user` the middleware sets | an authenticated request to /user with no query parameters gets an empty 200 reply | reply with the authenticated user | medium (not executed) | AuthRouter.UserRouteIgnoresCaller | AuthRouter.UserRouteAnswersResolvedUser |
