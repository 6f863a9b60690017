# Sample Slack bot: credential lifecycle and webhook dispatch

This project models the decision logic of a small Slack bot written in Go. The bot has three HTTP endpoints:

- **`AppInstallation`** receives the OAuth redirect. It exchanges the `code` for a token pair, stores the new workspace (team) record in Redis, and redirects the browser to the app's About tab.
- **`Events`** receives Events API webhooks. It echoes a URL-verification challenge and ignores events written by bots. Otherwise it looks the team up and runs the token refresh check. It then replies according to the event type: it publishes the home tab, or it quotes a message back, in a thread or not.
- **`Interactive`** receives block actions. It looks the team up and handles each action in order: toggle the home tab's text, open the topic modal, or re-render the modal for the chosen topic.

The model is written as follows:

- The Redis database is a `map` from team ID to a decoded `TeamRecord`. The `RedisStorage` class holds it and reassigns it.
- Go's `*SlackTeam` is the `SlackTeam` class. The refresh check assigns its token fields in place.
- Nothing from outside is executed. Each Redis round trip's fault, each Slack API response and each decoder result is a parameter of the handler that would receive it.
- Every Slack API call a handler makes is returned as a `SlackCall` value, in call order. This lets the contracts state which calls happen, with which arguments, and that no other calls happen.
- What the handler writes back to its HTTP caller is a `Response`.

Each handler's contract pins down the response, the Slack calls and the new database for every path through the code. The refresh check is specified by the function `Server.RefreshIfRequired`, and the lemmas beside it state what each probe outcome leads to. The pure pieces carry contracts and lemmas of their own: the home-tab versions, the modal, the reply texts, the error envelope and the redirect link. The most important ones are the toggle round trip, the action-list homomorphism, the envelope round trip and the injectivity of the redirect link.

Files: `results.dfy` (Option/Result), `text.dfy` (`strings.Contains`), `storage.dfy` (storage/), `slack.dfy` (the Slack API surface used), `models.dfy` (server/models.go), `http.dfy` (replies, `url.Values`), `views.dfy` (the Block Kit views and identifiers), `server.dfy` (server/server.go), `events.dfy`, `interactive.dfy`, `installation.dfy`.

## Model

| member | source | states |
|---|---|---|
| Storage.WithTokens | storage/redis.go:45-46 | only the two token fields change; ID and AppID are kept |
| Storage.Lookup | storage/redis.go:25-38 | a get succeeds exactly when the GET answers and the key is present, and then returns the stored record; `ErrNotFound` exactly when the GET answers and the key is absent |
| Storage.UpdateTokens | storage/redis.go:40-52 | an update succeeds exactly when both round trips answer and the key is present; on success the result is the old record with the new tokens, and only that key is rewritten; on failure nothing is written |
| Storage.RedisStorage.SetSlackTeam | storage/redis.go:54-63 | writes exactly the key `team.ID` with the team's record, or nothing and the wrapped Redis error |
| Storage.RedisStorage.AddSlackTeam | storage/redis.go:11-23 | returns a new team equal to the four inputs and stores it under `teamID`, overwriting; on a SET fault it returns the wrapped error and the database is unchanged |
| Storage.RedisStorage.GetSlackTeam | storage/redis.go:25-38 | returns a fresh copy of the stored record, `ErrNotFound`, or the wrapped GET error, as `Lookup` says; changes nothing |
| Storage.RedisStorage.UpdateSlackTeamTokens | storage/redis.go:40-52 | read-modify-write: the new database and the result are those of `UpdateTokens`; the keyed-by-ID invariant is kept |
| Storage.GetAfterAdd | storage/redis.go:11-38 | after an add, a get of that ID returns exactly the added record |
| Storage.AddLeavesOtherKeys | storage/redis.go:59 | an add changes what no other key reads |
| Storage.GetAbsentIsNotFound | storage/redis.go:26-30 | a get of an absent key is `ErrNotFound` |
| Storage.UpdateAbsentIsNotFound | storage/redis.go:41-44 | an update of an absent key is `ErrNotFound` and writes nothing |
| Storage.UpdateThenGet | storage/redis.go:40-52 | after a successful update, a get returns what the update returned; ID and AppID are unchanged; other keys read as before |
| Storage.UpdateIdempotent | storage/redis.go:40-52 | repeating an update with the same tokens changes nothing further |
| Text.ContainsIffOccurs | server/server.go:53 | the substring test holds exactly when the substring occurs at some offset |
| Text.ContainsInContext | server/server.go:53 | a string containing the marker is detected whatever surrounds it |
| Models.NewHttpError | server/models.go:28-36 | the message is copied verbatim; the detail is empty for a nil error and the error's text otherwise |
| Models.Encode | server/models.go:23-26 | with `omitempty`, a field appears in the serialised envelope exactly when it is non-empty |
| Models.EnvelopeRoundTrip | server/models.go:23-26 | decoding the serialised envelope gives back the envelope |
| Views.HomeTabViewFor | server/events.go:87-124 | version 1 shows "Version 1 of toggled text!" with button value "version-1"; any other version shows the version-2 text and "version-2"; the actions block holds the toggle and open-modal buttons |
| Views.TopicOptions | server/interactive.go:76-89 | three options, with values `option-1`, `option-2` and `option-3` in that order |
| Views.NewModalView | server/interactive.go:71-130 | always one input block `modal-topic-select` whose select has action ID `action-modal-topic-select` and the three options; `option-k` pre-fills option k and adds "You have selected Option k!" as a second block; any other topic gives no pre-filled option and one block |
| Views.SelectingAnOptionPrefillsIt | server/interactive.go:92-102 | choosing any offered option pre-fills exactly that option |
| Views.UnknownTopicGivesBareModal | server/interactive.go:92-102 | a topic that no option has gives the same modal as the empty topic |
| Views.RerenderIsStable | server/interactive.go:57-62 | re-rendering a modal from its own pre-filled option gives the same modal |
| Server.RefreshIfRequired | server/server.go:49-72 | ID and AppID never change; the probe is the first call; a refresh call is made exactly when the probe error contains `token_expired`; no call shows anything to users; any error leaves the team and the store unchanged; success iff the probe passes or the refresh and the update both succeed; after a refresh the store and the team hold the same new pair |
| Server.Server.RefreshTeamTokensIfRequired | server/server.go:49-72 | the error, the calls, the in-memory team and the database afterwards are those of `RefreshIfRequired` |
| Server.LiveTokenChangesNothing | server/server.go:50-51 | a passing probe: no error, no refresh call, team and store unchanged |
| Server.OtherProbeErrorIsFatal | server/server.go:53-55 | a probe error without `token_expired` is returned wrapped, without a refresh and without changes |
| Server.FailedRefreshChangesNothing | server/server.go:57-60 | a failed refresh call is returned wrapped; team and store unchanged |
| Server.FailedUpdateKeepsOldTokens | server/server.go:62-65 | a failed token update is returned wrapped; the team keeps its old tokens |
| Server.ExpiredTokenIsRefreshed | server/server.go:57-68 | exactly one refresh call, with the stored refresh token; store and team both hold the new pair; no other key changes |
| Server.ExpiryMarkerAnywhere | server/server.go:53 | any error text with `token_expired` in it triggers the refresh |
| Events.DirectReplyText | server/events.go:138 | the reply is the fixed prefix, the message text verbatim, then the closing fence |
| Events.ThreadReplyText | server/events.go:152 | the thread reply is its own prefix, the message text verbatim, then the closing fence |
| Events.RepliesTellMessagesApart | server/events.go:138-152 | different messages get different replies, and a direct reply never equals a thread reply |
| Events.PublishHomeView | server/events.go:87-131 | a home-view publish to the given user with the given token, showing the version's text |
| Events.HandleDirectMessage | server/events.go:133-145 | one unthreaded message to the event's channel quoting its text |
| Events.HandleThreadMessage | server/events.go:147-160 | one message to the event's channel, threaded on its `thread_ts`, quoting its text |
| Events.Dispatch | server/events.go:67-81 | at most one call, made with the given token; `app_home_opened` publishes version 1 to the event's user; `message` replies in the channel, threaded exactly when `thread_ts` is non-empty; any other type makes no call |
| Events.LookupErrorReply | server/events.go:51-59 | 404 with "team with ID '<id>' not found" for `ErrNotFound`, 500 with "failed to find team with ID '<id>'" otherwise; the error text is the detail |
| Events.Events | server/events.go:24-82 | 400 for an unparsable body; a challenge is echoed verbatim even with a bot profile; bot events get an empty 200; in these three cases there is no lookup, no call and no write; a failed lookup gives its 404/500 with no call; then the refresh check; on its failure a 500 and only its calls; otherwise an empty 200, with the replies sent using the token the check left |
| Events.RefreshFailureSendsNothing | server/events.go:62-65 | a failed refresh makes no call that users would see; replies after a passing check use the checked token |
| Interactive.ParseInteractivePayload | server/interactive.go:132-161 | succeeds exactly when the body reads, is form-encoded, has a non-empty `payload` and that payload decodes; every failure is a 400; an empty payload gives an envelope with no error detail |
| Interactive.ToggleVersion | server/interactive.go:47-52 | the value "version-1" selects version 2; any other value selects version 1 |
| Interactive.ActionCall | server/interactive.go:46-65 | at most one call per action, with the team's token; the toggle publishes to the user, the open-modal action opens the empty-topic modal on the trigger ID, and the topic select updates the callback's view with the modal for the chosen option; unknown IDs make no call |
| Interactive.ActionCalls | server/interactive.go:44-67 | no more calls than actions, each with the team's token and shown to users |
| Interactive.ActionCallsAppend | server/interactive.go:45-66 | the calls for two action lists are the calls of the first, then those of the second: actions are handled in order and independently |
| Interactive.UnknownActionIsSkipped | server/interactive.go:63-65 | an unrecognised action makes no call and does not stop later actions |
| Interactive.ToggleRoundTrip | server/interactive.go:47-52 | clicking the toggle publishes the other text, and clicking again brings back the first view |
| Interactive.Interactive | server/interactive.go:27-69 | a parse failure is replied as parsed and makes no calls; a failed lookup gives the same 404/500 as the event handler, with no action handled; otherwise an empty 200 and exactly the calls of the actions, in list order, with the stored token |
| Installation.RedirectURL | server/app_installation.go:38 | the link is `slack://app?team=`, the team ID, `&id=`, the app ID, `&tab=about` |
| Installation.RedirectURLInjective | server/app_installation.go:38 | for team IDs without `&`, the link determines the team and the app |
| Installation.AmpersandMakesRedirectAmbiguous | server/app_installation.go:38 | a team ID containing `&` can give the same link as a different install |
| Installation.AppInstallation | server/app_installation.go:16-39 | an empty `code` gives 400 before any call or write; a failed exchange gives 500, store unchanged; a failed write gives 500 and no redirect; on success the store holds the new record under the response's team ID and the reply is a 302 to the About-tab link; every non-redirect leaves the store unchanged |

## Left out

- HTTP routing and `ListenAndServe` (server/server.go:35-47), `main.go`, and the configuration loading in `server/config.go` are left out: they are process wiring. `Config` keeps only the OAuth client ID and secret, which the handlers pass to Slack.
- `NewServer` and `NewRedisStorage` are left out: they connect and ping Redis. The model's constructors take the database contents instead. They only require that every record sits under its own ID.
- The `Storage` interface has no counterpart, because the model has one implementation. `RedisStorage` is used directly.
- JSON encoding of stored records is the identity. So the "failed to json-marshal team object" and "error unmarshaling team value" branches (storage/redis.go:34-36, 55-58) cannot occur. A Redis GET fault is checked before key presence, as it is in Redis. A failed SET is modelled as writing nothing.
- Decoding request bodies is not modelled. This covers `parseRequestBody`, `url.ParseQuery`, `r.URL.Query()` and `json.Unmarshal` into callbacks. Their outcomes are parameters, with error texts already formatted.
- For `writeJsonResponse`, only the status and the envelope are modelled. Its Content-Type header and its fallback when marshalling fails are left out, since marshalling an envelope of two strings cannot fail.
- The branch where writing the challenge back fails (server/events.go:36-38) is left out. It is response-writer I/O, and an envelope written after a failed write cannot reach the caller.
- `detailedSlackError` is left out because it depends on the SDK's error type. The Slack error texts given as parameters are the ones it would produce.
- Slack API outcomes are only logged for `PublishView`, `SendMessage`, `OpenView` and `UpdateView`. So the model records these calls and ignores what Slack answers.
- Block Kit layout is left out, except the texts, values, identifiers and block structure the code decides. Left out are the header and description texts, labels, placeholder, modal title and buttons, `ClearOnClose` and `DispatchAction`.
- Logging is left out.
- Concurrent requests are left out, including last-writer-wins updates of the same key, because each handler is modelled as one sequential run.
- Interactive.Interactive reads the team's access token once before the action loop, where the code reads `team.AccessToken` in each iteration. Nothing assigns the team in between, so the calls are the same.
