# gotify-webhook relay, modelled in Dafny

This project models the message relay of gotify-webhook, a Gotify server plugin. The plugin
holds a websocket stream open to the Gotify server. It forwards every message it reads to the
webhooks configured for the message's application id, for example chat platforms.

The model covers four parts, as pure functions over immutable data:

- **Connector** (`connection.dfy`). `CreateWebsocketConnection` makes at most three dial
  attempts. After a failed attempt with zero-based index i it sleeps i + 1 seconds, including
  after the third failure. It then panics with the last dial error. The dialer is a parameter:
  a function from the URL and the attempt index to `Dialed(conn)` or `DialFailed(err)`. Sleeps
  are recorded as data, in seconds.
- **Dispatch loop** (`dispatch.dfy`). `processMessages` becomes a fold over an ordered trace of
  events: `Disable`, `Interrupt`, `Closed` and `Frame(bytes)`. The Go code keeps one
  `currentMessage` for the whole loop and decodes every frame into it. So decoding is
  modelled as a merge: the decoder reports which members a frame wrote and whether it
  succeeded. The written members overwrite the previous values, and a member the frame omits
  keeps the previous frame's value. A failed decode is skipped. Its written members stay in
  `currentMessage`, because Go's decoder keeps the other members when one member has the
  wrong type.
- **Router and delivery** (`router.dfy`, `delivery.dfy`). `processWebhooks` scans the table in
  order and makes one send attempt per webhook whose application id matches. `sendToWebhook`
  posts a body whose only member is the message text. A transport error, or any status of 400
  or above, is a failure. The scan records a failure and moves on. The HTTP requester is a
  parameter: a function from URL and body to `Response(status)` or `TransportError`.
- **Plugin entry** (`plugin.dfy`). `Enable` refuses an empty Gotify host and starts nothing;
  otherwise it starts the handler. The handler builds the stream URL as host +
  `/stream?token=` + client token. It then connects and runs the dispatch loop from the zero
  message over the configured table.

`types.dfy` mirrors the data shapes (`Config`, `Webhook`, `Message`, `PluginMessage`).
`scenarios.dfy` states the worked scenarios: fan-out to two of three rules, an unknown
application, a 500 answer, and a malformed frame followed by a good one.

Two behaviours of the code are worth stating plainly:

- `Enable` checks only that the Gotify host is non-empty. It does not check the client token or the application ids.
- The webhook body carries the content only, never a title.

## Model

| member | source | states |
|---|---|---|
| Delivery.Classify | plugin.go:154-163 | An outcome is a success exactly when it is a response with status below 400, redirects included. A transport error keeps its reason; a status of 400 or above becomes an unexpected-status error with that code. |
| Delivery.SendToWebhook | plugin.go:151-164 | The attempt goes to the webhook's URL. The body's content is the message text. The attempt fails exactly when the requester reports a transport error or a status of 400 or above for that URL and body. |
| Delivery.SendIgnoresOtherMembers | plugin.go:152 | Two messages with the same text give the same attempt: title, priority and application id never reach the webhook. |
| Router.Matching | plugin.go:141-143 | A webhook is selected exactly when it is in the table and its application id equals the message's. No more webhooks are selected than the table holds. |
| Router.MatchingAppend | plugin.go:141-148 | Selection over a concatenated table is the selection over each part, in order, so table order is kept. |
| Router.MatchingCount | plugin.go:141-144 | The number of selected webhooks equals the number of table positions whose application id matches. |
| Router.ProcessWebhooks | plugin.go:140-149 | The scan makes one attempt per matching webhook, in table order. The i-th attempt is the send to the i-th matching webhook, whatever earlier attempts returned. |
| Router.AttemptCount | plugin.go:141-144 | The number of send attempts equals the number of configured webhooks with the message's application id. |
| Router.NoMatchNoAttempt | plugin.go:141-148 | When no webhook has the message's application id, there are no attempts and nothing is reported. |
| Router.FanOutIsolation | plugin.go:143-147 | Under any two requesters, the same webhooks are attempted with the same bodies: a failing webhook never stops later matching webhooks from being attempted. |
| Router.ProcessWebhooksAppend | plugin.go:141-148 | Routing over a concatenated table is routing over the first part followed by routing over the second. |
| Dispatch.Merge | plugin.go:115-129 | Decoding into the reused message: each written member takes the decoded value, and each absent member keeps the previous frame's value. |
| Dispatch.RepeatedFrameRoutedAlike | plugin.go:115-135 | A decodable frame delivered twice in a row is routed twice as the same message. |
| Dispatch.MergeComplete | plugin.go:129 | A frame that writes every member leaves nothing of the previous message. |
| Dispatch.ProcessMessages | plugin.go:114-138 | The loop consumes no more events than the trace holds. It stops at the first Disable, Interrupt or Closed event, with the matching reason. It keeps waiting only when every event is a frame. It routes at most one message per consumed event. A trace that starts with a terminal event routes nothing and consumes only that event. |
| Dispatch.ShutdownRoutesNothingMore | plugin.go:116-128 | After a run of frames, a Disable, Interrupt or Closed event routes nothing, and neither does anything after it. The routed messages are those of the frames alone, and the stop reason is that event's. |
| Dispatch.LaterEventsIgnored | plugin.go:116-128 | Once the loop has stopped, appending any events to the trace changes nothing: no later event is decoded or routed. |
| Dispatch.TerminalEventEndsLoop | plugin.go:118-128 | A Disable, Interrupt or Closed event ends the loop right there, whatever follows it. |
| Dispatch.FrameStep | plugin.go:124-135 | A frame is merged into the current message and, when decoding succeeded, routed before anything the rest of the trace routes. |
| Dispatch.FramesInOrder | plugin.go:116-137 | A run of frames followed by more events routes the frames' messages first and then those of the rest, started from the message state the frames left. The stop reason is that of the rest. |
| Dispatch.UndecodableFrameSkipped | plugin.go:129-132 | A frame that fails to decode is not routed, and the loop carries on with the next event. |
| Dispatch.DecodedFrameRoutedFirst | plugin.go:115-135 | A decoded frame is routed first, as the merged message; a frame that omits the application id is routed with the previous one. |
| Connection.ConnectLoop | internal/connection/connection.go:24-35 | From attempt i, a connection is the first successful dial, and every dial before it failed. It panics exactly when all remaining dials fail, with the last dial's error. The pauses taken are 1, 2, ... seconds, one per failed dial. |
| Connection.CreateWebsocketConnection | internal/connection/connection.go:21-36 | A connection comes from the first successful dial, within 3 attempts, after pauses of 1..k-1 seconds. It panics exactly when all 3 dials fail, with the third dial's error, after pauses of 1, 2 and 3 seconds. |
| Connection.ConnectLoopUsesOnlyItsDials | internal/connection/connection.go:24-35 | From attempt i, dialers that agree on the attempts the result accounts for give the same result. |
| Connection.NoDialAfterResult | internal/connection/connection.go:24-30 | At most 3 dials are made, and none after the first success: only those dials decide the result. |
| Connection.Backoff | internal/connection/connection.go:25 | The pause schedule is linear: the first pause is one second, and each later pause is one second longer than the one before. |
| Connection.BackoffStrictlyIncreasing | internal/connection/connection.go:25 | Each pause is strictly longer than the one before it. |
| Connection.BackoffTotal | internal/connection/connection.go:25-32 | After n failed dials the pauses add up to 1 + 2 + ... + n seconds. |
| Connection.ConnectSleepTotal | internal/connection/connection.go:24-35 | The total pause is 1 + ... + (k-1) seconds before a success on attempt k, and 6 seconds before the panic. |
| Plugin.StreamUrl | plugin.go:89 | The stream URL is the host, then `/stream?token=`, then the client token, each at its own position. |
| Plugin.StreamUrlDeterminesToken | plugin.go:89 | For a fixed host, equal stream URLs mean equal client tokens. |
| Plugin.HandleMessages | plugin.go:85-95 | The handler dials the stream URL. It runs the loop from the zero message exactly when the connection succeeded. Each routed message is handed to the router exactly once, in routing order, over the configured table. Without a connection nothing is delivered. |
| Plugin.DeliveryOutcomesDoNotReachLoop | plugin.go:143-147 | What the loop consumes, routes and stops on is the same whatever the webhooks answer: delivery failures never reach the loop. |
| Plugin.Enable | plugin.go:44-58 | Enable refuses with "gotify host is required" exactly when the host is empty, and then starts nothing. Otherwise it starts the message handler. |
| Plugin.NoDeliveryWithoutConnection | internal/connection/connection.go:35 | When all three dials fail, the session panics, and no message is routed or delivered. |
| Scenarios.TwoMatchingHooks | plugin.go:140-152 | An application-5 message in a table with two rules for 5 and one for 9 gives exactly two attempts, to the two rules for 5 in order. Each body's content is "hi". |
| Scenarios.UnknownApplication | plugin.go:141-148 | A message of an application without a rule produces no attempt. |
| Scenarios.RejectedDeliveryIsAbsorbed | plugin.go:135-163 | In a connected session over the three-rule table, the first message's attempt to hook/a gets a 500 and is recorded as an unexpected-status failure. hook/b is still attempted for the same message, and the loop stops on Closed. The next frame is still routed and handed to the router. When that frame carries application 5 or no application id (keeping 5 from the first frame), it is delivered to hook/a and hook/b. |
| Scenarios.MalformedFrameThenGoodFrame | plugin.go:129-135 | A malformed frame that writes nothing is skipped, and the following frame is routed. |

## Left out

- The websocket reader goroutine (`readMessages`) and its connection close. Its output is the `Frame` events of the trace, and its end is the `Closed` event.
- The Go `select`'s random choice among ready cases, and `signal.Notify`. The model takes the events in the order the loop selected them. A trace that ends without a terminal event stands for a loop still waiting.
- The requester's internals: JSON encoding of the body, the `Content-Type` header, the 5-second timeout and reading the response body. The requester is a function parameter.
- Delivery.SendToWebhook: the requester is a function of URL and body. Two webhooks with the same URL therefore get the same outcome for one message, which a real server need not give.
- JSON decoding itself. The decoder is a function parameter that reports the members written and success. The `extras` member and the other host message members are not modelled, and neither is the 64-bit range of `appid`.
- Real time and logging. Sleeps are recorded as durations in seconds; log lines are dropped.
- Plugin-host glue: `GetGotifyPluginInfo`, `NewGotifyPluginInstance`, `DefaultConfig`, `ValidateAndSetConfig` (it checks nothing), `Disable`'s channel close, the package-level requester and connector, and `main`.
- Null webhook entries. The configuration holds pointers to webhooks. A null entry panics in `Enable` when it is logged (plugin.go:52) and again in `processWebhooks` (plugin.go:142). The model's table holds only real entries, and `Plugin.Enable` reports `Started` where the code would panic.
- Replacing the configuration during a session. `processWebhooks` re-reads the configured table for every message, and `ValidateAndSetConfig` can swap the configuration at any time. `Plugin.HandleMessages` uses one table for the whole session.
- What a panic does to the host process: the model records it as a `Panicked` result with no run.
