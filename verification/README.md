# rust-hyper-server request-serving core, modelled in Dafny

This project models three parts of a small HTTP server written in Rust on
hyper and tokio, and proves properties of them:

- **The static-file cache-policy engine** (`src/static_file.rs`). It holds an
  ordered list of cache rules. Each rule is a path pattern with a policy:
  `FixedTime(d)` or `ModTimePlusDelta(d)`. For a resolved file, the first
  rule whose pattern matches the path gives the `Cache-Control` max-age.
  When no rule matches, there is no cache directive. Building the engine
  from configuration fails as a whole when any pattern does not compile.
- **The connection-introspection handler** (`src/handlers/connection.rs`).
  `GET connection_info` maps every tracked connection to a DTO and sorts the
  list in place by connection id.
- **The connection-serving state machine** (`src/server/connection.rs`). The
  protocol engine (HTTP/1 or HTTP/2) is chosen once. Every request that
  reaches the service is counted on the connection and gets a fresh request
  id. The connection is raced against the timers `[max_lifetime,
  graceful_shutdown_timeout]`: each timer that fires first asks the engine for
  one graceful shutdown, and the connection finishing ends the loop.

Files:

| file | contents |
|---|---|
| `types.dfy` | `Option`, `Result`, and `Duration`/`SystemTime` as natural numbers of nanoseconds |
| `config.dfy` | `ServerProtocol`, `ServerSocketType`, `ServerConfiguration` |
| `connection.dfy` | `ConnectionID`, `ConnectionInfo` and the `ConnectionGuard` request counter |
| `static_file.dfy` | module `StaticFile`: cache rules, the rule service, its construction |
| `introspection_handler.dfy` | module `IntrospectionHandler`: DTO mapping, in-place sort, `Handle`, `CreateRoutes` |
| `server_connection.dfy` | module `ServerConnection`: request-id factory, protocol dispatch, service, timeout loop |

Code outside the model becomes a parameter:

- The regex engine becomes `compiles: string -> bool` (does `Regex::new`
  accept the pattern?) and `isMatch: (string, string) -> bool`
  (`Regex::is_match`).
- `SystemTime::now()` becomes the parameter `now`.
- The tracker's `get_all_connections()` becomes the snapshot passed to
  `Handle`.
- `local_date_time_to_string` becomes the parameter `format`.
- The request handler (the router) becomes a function stored in the
  `ConnectionHandler`.
- Each `tokio::select!` race becomes the oracle `race: nat -> RaceOutcome`.
  For each loop iteration it says whether the connection finished (with
  `Ok` or an error) or the timer fired.
- hyper's HTTP/1 and HTTP/2 engines are reduced to the number of
  graceful-shutdown requests each has received. Their poll results are
  parameters of `Poll`.

A path that is not valid UTF-8 is the constructor `NonUtf8Path`.
`Path::to_str` has no answer for it.

## Model

| member | source | states |
|---|---|---|
| `StaticFile.DurationSince` | src/static_file.rs:76-77 | `duration_since` is defined exactly when `now` is not after the expiration, and then `now` plus the result is the expiration |
| `StaticFile.CacheRule.Matches` | src/static_file.rs:36-38 | A rule matches a path exactly when the regex engine matches the rule's pattern against that path |
| `StaticFile.MatchingIgnoresRuleKind` | src/static_file.rs:61-63 | A modification-time rule matches exactly the paths a fixed-time rule with the same pattern matches: the kind and the duration play no part |
| `StaticFile.CacheRule.BuildCacheHeader` | src/static_file.rs:35-87 | Both rule kinds always answer `Some`. A fixed-time rule gives its duration. A mod-time rule gives 0 when the mtime is unknown. Otherwise it gives 0 exactly when `mtime + d <= now`, a positive result ends exactly at `mtime + d`, and the result is at most `d` when `mtime <= now`. |
| `StaticFile.FindFirstMatch` | src/static_file.rs:133-135 | `find` returns the first rule whose pattern matches: it matches and no earlier rule does. `None` means that no rule matches. |
| `StaticFile.MatchedPath` | src/static_file.rs:131 | The rules are matched against the path's text, or against "" when the path is not UTF-8 |
| `StaticFile.StaticFileRulesService.BuildCacheHeader` | src/static_file.rs:127-138 | There is a cache directive exactly when some rule matches. When rule `i` is the first match, the answer is rule `i`'s answer. |
| `StaticFile.NewStaticFileRulesService` | src/static_file.rs:96-125 | Construction succeeds exactly when every pattern compiles. On success there is one rule per configured rule, in the same order, with the configured pattern, kind and duration. On failure the error names the first pattern that does not compile. |
| `StaticFile.LaterRulesNotConsulted` | src/static_file.rs:133-137 | Once some rule of a list matches, appending more rules does not change the answer |
| `StaticFile.NoRulesNoHeader` | src/static_file.rs:133-137 | An empty rule list never gives a cache directive |
| `StaticFile.NonUtf8PathMatchedAsEmpty` | src/static_file.rs:131 | A file whose path is not UTF-8 gets the same answer as a file whose path is "" |
| `StaticFile.FixedTimeIgnoresModificationTime` | src/static_file.rs:40-42 | When the first matching rule is fixed-time, the service answers `Some` of that rule's duration, whatever the modification time is |
| `IntrospectionHandler.ToDTO` | src/handlers/connection.rs:26-34 | The DTO copies the connection id and the protocol unchanged, and it formats the creation time |
| `IntrospectionHandler.SortByConnectionId` | src/handlers/connection.rs:64 | The in-place sort leaves the array ascending by connection id and a permutation of what it was |
| `IntrospectionHandler.Handle` | src/handlers/connection.rs:55-69 | The response has one entry per tracked connection. It is sorted ascending by id, and it is a permutation of the mapped snapshot. |
| `IntrospectionHandler.CreateRoutes` | src/handlers/connection.rs:72-78 | Exactly one route: `GET` on the path suffix `connection_info`, handled by the connection-info handler |
| `IntrospectionHandler.ResponseReportsExactlyTheSnapshot` | src/handlers/connection.rs:56-64 | Every response entry is the DTO of some tracked connection, and every tracked connection has an entry |
| `IntrospectionHandler.SortedArrangementIsUnique` | src/handlers/connection.rs:64 | With distinct ids, two id-sorted permutations of the same entries are equal, so the response order is determined |
| `IntrospectionHandler.ReportsIdsThreeAndOneInOrder` | src/handlers/connection.rs:64 | Connections with ids 3 and 1 are reported as `[1, 3]` |
| `ServerConnection.RequestIDFactory.NewRequestId` | src/server/connection.rs:89 | Each draw returns an id that was never handed out before and advances the counter by one |
| `ServerConnection.WrappedHyperConnection.Poll` | src/server/connection.rs:164-172 | Polling an `H1` connection goes to the HTTP/1 engine, and polling an `H2` connection goes to the HTTP/2 engine |
| `ServerConnection.WrappedHyperConnection.GracefulShutdown` | src/server/connection.rs:182-187 | A shutdown request keeps the variant and reaches the engine inside it exactly once |
| `ServerConnection.ServeConnection` | src/server/connection.rs:96-105 | `Http1` gives `H1`, `Http2` gives `H2`, and no shutdown has been requested yet |
| `ServerConnection.ShutdownsKeepEngine` | src/server/connection.rs:107-122 | After `n` shutdown requests the connection still wraps its protocol's engine, and that engine has received exactly `n` requests |
| `ServerConnection.DispatchFixedAtConstruction` | src/server/connection.rs:168-171 | After any number of shutdown requests, polling still goes to the engine chosen from the protocol |
| `ServerConnection.EscalateFrom` | src/server/connection.rs:109-124 | The loop stops at the end of the timer list. The fired timers are a contiguous run of the list, in order, and each of them won its race. A recorded completion is the race outcome of the next iteration. Without a completion, every timer fired. |
| `ServerConnection.Escalate` | src/server/connection.rs:109-124 | The whole loop, `EscalateFrom` from iteration 0. The fired timers are a prefix of the timer list and each won its race. A completion is the outcome of the race right after the last fired timer. Without a completion, every timer fired. |
| `ServerConnection.EscalateAfterTimers` | src/server/connection.rs:109-124 | After `i` fired timers, the loop has sent the shutdowns for the first `i` timers and goes on as the loop from iteration `i` does |
| `ServerConnection.AtMostOneIterationPerTimer` | src/server/connection.rs:109 | Fired timers plus the finishing iteration are at most the number of timers |
| `ServerConnection.NeverFinishingConnectionGetsEveryShutdown` | src/server/connection.rs:109-126 | When the connection does not finish in any iteration the loop runs, one shutdown is sent per timer, in list order, and the loop ends without a completion |
| `ServerConnection.NoShutdownAfterCompletion` | src/server/connection.rs:112-118 | When the connection finishes in iteration `k`, exactly the first `k` timers caused shutdowns, and the loop ends with that result, `Ok` or an error |
| `ServerConnection.TwoStageEscalation` | src/server/connection.rs:40-43 | With the timers `[max_lifetime, graceful_shutdown_timeout]` there are three cases. Finishing in stage 1 sends no shutdown. Finishing in stage 2 sends one shutdown, after `max_lifetime`. Never finishing sends two shutdowns, in that order. |
| `ServerConnection.ConnectionHandler.constructor` | src/server/connection.rs:34-55 | The timer list is exactly `[connection_max_lifetime, connection_graceful_shutdown_timeout]` |
| `ServerConnection.ConnectionHandler.HandleRequest` | src/server/connection.rs:58-72 | Request handling always succeeds. The result is the handler's response to the request, tagged with its connection and request ids. |
| `ServerConnection.ConnectionHandler.Service` | src/server/connection.rs:86-94 | Each request raises the connection's request count by exactly one and draws exactly one fresh request id. It answers with `HandleRequest` for that id. |
| `ServerConnection.ConnectionHandler.HandleConnection` | src/server/connection.rs:79-127 | The timeout loop's fired timers and ending are those of `Escalate`. The engine is the one for the connection's protocol and has received one shutdown request per fired timer. |

## Left out

- IntrospectionHandler.SortByConnectionId: states sortedness and permutation but not the stability of `sort_by_key`. Under distinct ids the order is fully determined anyway (`SortedArrangementIsUnique`).
- `create_rules_service_instance` and `rules_service_instance` (src/static_file.rs:141-155) are not modelled. They store the built service in a process-wide set-once cell and add no logic of their own.
- The regex engine, the clock, the tracker, the time formatter and the request router are not modelled: each is a parameter (see above). The tracker module, the ID factories' module and the router are not part of this model.
- Logging (`debug!`, `info!`, `warn!`) and the `#[instrument]` spans are not modelled.
- JSON serialisation of the introspection response (`build_json_response`) is not modelled. `Handle` returns the DTO list.
- Integer widths are not modelled. Times and durations are unbounded nanosecond counts. In Rust, `modified + duration` panics on overflow, and connection ids are `u64`. A `SystemTime` before the Unix epoch is not modelled.
- hyper's engines are not modelled beyond the graceful-shutdown requests they receive. How an engine calls the service while it is polled is not modelled either: `Service` is one such call, and the loop does not tie requests to races.
- tokio's scheduling and timers, `TokioExecutor`'s task spawning and `pin_project` are not modelled. The race outcome is the oracle `race`.
- Deregistering the connection when the guard is dropped is not modelled, because the guard's module is not part of this model.
- The listener code in `src/server.rs` and `src/server/tcp.rs` (binding, accepting, `set_nodelay`) is not modelled. `tcp.rs` calls `handle_connection` with four arguments, but the signature at `src/server/connection.rs:79-83` takes two. The model follows that signature.
- The request-id factory (`src/request.rs`) is not modelled; the model starts its counter at 0.
- `src/handlers/static_file.rs` (a wrapper over `hyper_staticfile::Resolver`/`ResponseBuilder` that unwraps their results) is not modelled.
