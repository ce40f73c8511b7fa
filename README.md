# wechat_sdk core, modelled in Dafny

This project models the core of the Go SDK `morgine/wechat_sdk`, a client for the WeChat Open Platform. A third-party platform (the "component") uses it on behalf of the public accounts that authorized it (the "tenants").

The core covers:

- **Credential cache** (`src/open_client.go`, `src/storage.go`, `src/access.go`): it caches the platform access token and each tenant's authorizer token in a key-value backend, under keys prefixed by the component appid. Tokens are refreshed when they expire.
- **Tenant registry**: it keeps tenants' app info, reacts to authorization notifications, memoises one public client per tenant, and reconciles local tenants with the platform's authorizer list (`MigrateApps`).
- **Webhook dispatch** (`src/dispatcher.go`, `src/response.go`, `ListenMessage` in `src/public_client.go`): handlers subscribe per event or for text messages and share one per-request context. The passive reply is sent at most once.
- **Statistics** (`src/public_client.go`): date ranges are split into windows, per-window results are concatenated, and user summaries and cumulates are aggregated per date.
- **Small loops**: the customer-message fan-out (`src/customer.go`), subscriber paging (`pkg/users/subscribers.go`), the advertising statistics query and error gate (`pkg/statistics/advert.go`), and random strings (`pkg/rand.go`).

## How it is modelled

Each core file is one module:

| file | module |
|---|---|
| `errors.dfy` | `Errors`, the shared Option, Result and error values |
| `access.dfy` | `Access` |
| `storage.dfy` | `Storage` |
| `platform.dfy` | `Platform`, the remote API as an oracle plus a request log |
| `open_client.dfy` | `Open` |
| `dispatcher.dfy` | `Dispatch` |
| `response.dfy` | `Replies` |
| `public_client.dfy` | `Public` |
| `customer.dfy` | `Customer` |
| `advert.dfy` | `Advert` |
| `subscribers.dfy` | `Subscribers` |
| `rand.dfy` | `Rand` |

Where the Go code changes state, the model is a class with the same fields: the backend, the app store, the client registry, the context, the handler table, the reply writer and the sender. Each method is proved against a pure function on a snapshot of that state. For example, `OpenClient.GetAppAccessToken` ensures `(r, Snapshot()) == AppTokenOutcome(Config(), old(Snapshot()), ...)`. The lemmas state what the source promises about those functions.

Loops are `while` loops proved by invariants, except where noted. That covers the fan-out, the cursor walk, the window splitter, the statistics aggregation, the per-window concatenation, the article conversion and `randBy`. The inputs the Go program gets from its surroundings are parameters:

- the clock: `now`, and the real clock `wallNow` against which the backend TTL is computed;
- "midnight of yesterday": `yesterday`;
- the platform's answers: oracle functions;
- the random draws: `draws`.

## Model

| member | source | states |
|---|---|---|
| Open.ExpiryAt | src/open_client.go:103-106 | A token minted at `now` expires at `now + ExpiresIn - ExpiresIn/8`. For `ExpiresIn >= 0` this lies in `[now, now + ExpiresIn]` and keeps at least 7/8 of the lifetime. For `ExpiresIn >= 8` it is strictly earlier than the full lifetime. |
| Open.CachedComponentToken | src/open_client.go:86-91 | A stored platform token with `ExpiredAt >= now` is returned, and the state is unchanged: no ticket read, no remote request, no save. |
| Open.EmptyTicketNoRefresh | src/open_client.go:92-98 | When a refresh is needed and the stored verify ticket is empty, the result is the "verify ticket is empty" error and nothing changes. |
| Open.MintedComponentToken | src/open_client.go:99-112 | A needed refresh requests a token with the stored ticket (exactly one request is logged). It stores the token with expiry `ExpiryAt(now, ExpiresIn)` and returns it. A second call at the same instant is served from the store. |
| Open.ComponentTokenKeepsTenants | src/open_client.go:85-113 | Getting the platform token leaves unchanged every tenant token, the verify ticket, the app store and the client registry. |
| Open.ComponentTokenOutcome | src/open_client.go:85-113 | Getting the platform token changes only backend entries and the request log. The log only grows, and never by an authorizer-list request. |
| Open.OpenClient.GetComponentAccessToken | src/open_client.go:85-113 | The method's result and new state are those of `ComponentTokenOutcome`. |
| Open.PreAuthCodeSwallowsTokenError | src/open_client.go:123-126 | A platform-token failure yields an empty pre-auth code and no error. |
| Open.PreAuthCodeOutcome | src/open_client.go:116-131 | Getting a pre-auth code changes only the backend and the request log. |
| Open.OpenClient.GetPreAuthCode | src/open_client.go:116-131 | The method's result and new state are those of `PreAuthCodeOutcome`. |
| Open.MissingTenantUnauthorized | src/open_client.go:186-191 | A tenant without a stored refresh token gets the "unauthorized or access token missing" error, with no remote request and no save. |
| Open.CachedTenantToken | src/open_client.go:193-213 | An unexpired tenant token is returned as stored and nothing changes. |
| Open.ExpiredTenantTokenRefreshed | src/open_client.go:194-213 | An expired tenant token is refreshed. The request uses the stored refresh token and the platform token, and is the one request after the platform-token step. The new token is saved with expiry `ExpiryAt(now, ExpiresIn)`, reads back, and its access token is returned. |
| Open.AppTokenOutcome | src/open_client.go:185-215 | Getting a tenant token changes only backend entries and the request log. |
| Open.OpenClient.GetAppAccessToken | src/open_client.go:185-215 | The method's result and new state are those of `AppTokenOutcome`. |
| Open.EmptyLoginCodeIgnored | src/open_client.go:161-181 | An empty authorization code returns nil and changes nothing. |
| Open.LoginPageStoresTenantToken | src/open_client.go:162-181 | A non-empty code is exchanged. When the reply carries the token fields, the tenant's token is saved under the tenant named in the reply with expiry `ExpiryAt(now, ExpiresIn)`, and it reads back afterwards. |
| Open.LoginReplyWithoutTokenPanics | src/open_client.go:167-172 | A reply with a nil `authorization_info` or a nil embedded token makes the callback dereference nil. It stops there with `NilDereference`, after the platform-token step and the one request, and saves nothing. |
| Open.LoginPageOutcome | src/open_client.go:160-182 | The login-page callback changes only the backend and the request log. |
| Open.OpenClient.ListenLoginPage | src/open_client.go:160-182 | The method's result and new state are those of `LoginPageOutcome`, including the nil-reply and nil-token branches. |
| Open.RefreshAppInfoStores | src/open_client.go:218-233 | After a successful refresh, the app store holds exactly the info returned. |
| Open.RefreshAppInfoKeepsTenantTokens | src/open_client.go:218-233 | Refreshing app info changes no tenant token and no client. |
| Open.RefreshAppInfoOutcome | src/open_client.go:218-233 | Refreshing app info changes only backend entries, the request log and the stored infos. The log gains no authorizer-list request. |
| Open.OpenClient.RefreshAppInfo | src/open_client.go:218-233 | The method's result and new state are those of `RefreshAppInfoOutcome`. |
| Open.TicketNotifySavesTicket | src/open_client.go:66-67 | A ticket notification writes exactly its ticket, as raw bytes with no expiration, and changes nothing else. A failed write changes nothing. A saved ticket reads back. |
| Open.AuthorizedNotifyRefreshesInfo | src/open_client.go:68-72 | An authorized or updateauthorized notification has exactly the effect of refreshing that tenant's app info. It succeeds exactly when the refresh does, and then the info is stored. |
| Open.UnauthorizedNotifyForgetsTenant | src/open_client.go:73-77 | An unauthorized notification removes the tenant from the client registry even when the delete fails. It deletes the tenant's app info and nothing else; the result is nil exactly when the delete succeeds. |
| Open.UnknownNotifyIgnored | src/open_client.go:78-79 | Any other notification type returns nil and changes nothing. |
| Open.OpenClient.SetNotify | src/open_client.go:64-82 | The method's result and new state are those of `SetNotifyOutcome`. |
| Open.VerifyTicketAnswer | src/open_client.go:50-62 | "success" is written exactly when the notification decodes and is handled without error; otherwise nothing is written. An undecodable notification changes nothing. |
| Open.OpenClient.ListenVerifyTicket | src/open_client.go:50-62 | The response body gains what `VerifyTicketOutcome` says; the state becomes its new state. |
| Open.GetClientCaching | src/open_client.go:236-265 | A registry hit returns the cached entry, nil included, and changes nothing. A miss caches what the app store says: nil for an unknown tenant, otherwise a client bound to that tenant and its stored info. A store error leaves the registry unchanged. |
| Open.GetClientIdempotent | src/open_client.go:236-265 | Repeating a successful `GetClient` gives the same answer and changes nothing. |
| Open.OpenClient.GetClient | src/open_client.go:236-265 | The method's result and new state are those of `GetClientOutcome`. |
| Open.GetAppInfoSettles | src/open_client.go:278-288 | Stored info is returned as stored. Missing info is fetched exactly as `refreshAppInfo` does. After a success the returned info is stored. |
| Open.OpenClient.GetAppInfo | src/open_client.go:278-288 | The method's result and new state are those of `GetAppInfoOutcome`. |
| Open.MigrateItem | src/open_client.go:345-358 | Processing one listed tenant changes only backend entries, the request log and the stored infos. |
| Open.MigrateItemStep | src/open_client.go:346-358 | Processing one listed tenant stores its refresh-only token. Tenants processed before keep theirs. |
| Open.MigrateItemsIds | src/open_client.go:345-360 | A page processed without error appends its tenants' appids, in list order. |
| Open.MigrateItemsFrame | src/open_client.go:345-360 | Processing a page never sweeps and leaves the backend's read faults alone. Its requests are not list requests. |
| Open.MigrateItemsTokens | src/open_client.go:345-360 | After a page processed without error, every tenant collected so far has a refresh-only token. |
| Open.MigratePagesStep | src/open_client.go:336-361 | A non-empty page is processed and the loop goes on at the next offset; an error stops it. |
| Open.MigratePagesSweep | src/open_client.go:336-362 | From any offset, the sweep happens at most once and receives exactly the collected appids followed by those of the rest of the list. A successful run always sweeps. |
| Open.MigratePagesOffsets | src/open_client.go:336-344 | A successful paging loop requests the list at the offsets `PageOffsets` gives. |
| Open.MigratePagesTokens | src/open_client.go:336-361 | A successful paging loop leaves every listed tenant with a refresh-only token. |
| Open.PageOffsets | src/open_client.go:334-344 | The requested offsets are `offset + 100*i`. All but the last lie inside the list, and the last lies past its end. |
| Open.MigrateSweepsComplete | src/open_client.go:327-363 | `DelAppInfoNotIn` is called at most once. `DelAppInfoNotIn` only ever receives every listed appid in page order, so any earlier error aborts before deletion. A successful run always calls it. |
| Open.MigrateRequestsEveryPage | src/open_client.go:334-344 | A successful run requested the authorizer list at offsets 0, 100, 200, … up to the first offset past the list. |
| Open.MigrateStoresRefreshTokensOnly | src/open_client.go:346-350 | After a successful run, every listed tenant's stored token has an empty access token and `ExpireAt` 0, so its first use refreshes it. A token whose refresh token is empty reads as nil. |
| Open.OpenClient.MigrateApps | src/open_client.go:327-363 | The method's result and new state are those of `MigrateOutcome`. |
| Open.OpenClient.constructor | src/open_client.go:31-43 | A new client holds its configuration and an empty client registry. |
| Storage.KvSet | src/storage.go:21-24 | A backend write succeeds exactly when the key is writable, and then sets exactly that key to the value and expiration. A failed write changes nothing, and only the entries ever change. |
| Storage.KeysDistinct | src/storage.go:51-98 | The ticket key, the platform-token key and the tenant-token keys of one component never coincide. |
| Storage.AppAccessTokenKeyInjective | src/storage.go:98-103 | Distinct tenants get distinct token keys. |
| Storage.StrField | src/storage.go:138 | Decoding a string field keeps the old value when the document does not name the field, takes the document's string, and fails on a number. |
| Storage.IntField | src/storage.go:138 | Decoding an integer field keeps the old value when the field is absent, takes the number, and fails on a string. |
| Storage.ExpireDataRoundTrip | src/storage.go:122-139 | Decoding the JSON encoding of an `ExpireData` gives it back, whatever record it decodes into. |
| Storage.AppAccessTokenRoundTrip | src/storage.go:122-139 | Decoding the JSON encoding of an `AppAccessToken` gives it back, whatever record it decodes into. |
| Storage.LoadDoc | src/storage.go:130-139 | Reading fails exactly on a read fault or on non-empty bytes that are not JSON. An absent key reads as nothing to fill. |
| Storage.VerifyTicketIn | src/storage.go:54-61 | An absent ticket reads as the empty string. |
| Storage.AccessTokenIn | src/storage.go:67-78 | The platform token reads as nil when nothing is stored. Any token returned has a non-empty Value. |
| Storage.AppAccessTokenIn | src/storage.go:101-112 | A tenant token reads as nil when nothing is stored. Any token returned has a non-empty refresh token. |
| Storage.StoredExpirations | src/storage.go:50-99 | The ticket is stored without expiration, the platform token with TTL `ExpiredAt - now`, and tenant tokens without expiration. |
| Storage.VerifyTicketRoundTrip | src/storage.go:50-61 | On a readable backend, a saved ticket reads back unchanged. |
| Storage.AccessTokenRoundTrip | src/storage.go:63-78 | A saved platform token reads back unchanged. One with an empty Value reads back as nil. |
| Storage.StoredAppAccessTokenRoundTrip | src/storage.go:97-112 | A saved tenant token reads back unchanged when its refresh token is non-empty, and as nil otherwise. |
| Storage.SaveAppAccessTokenFrame | src/storage.go:97-99 | Saving one tenant's token changes no other tenant's token, nor the ticket or the platform token. |
| Storage.FailedSaveChangesNothing | src/storage.go:97-116 | A write the backend refuses returns its error and leaves the backend as it was. |
| Storage.AccessStorage.Set | src/storage.go:21-24 | The in-memory backend's write is `KvSet`. |
| Storage.ComponentStorage.constructor | src/storage.go:43-48 | The key prefix is the component appid followed by `_`. |
| Storage.ComponentStorage.SaveVerifyTicket | src/storage.go:50-52 | Writes the ticket as `SaveVerifyTicketIn` says. |
| Storage.ComponentStorage.GetVerifyTicket | src/storage.go:54-61 | Reads the ticket as `VerifyTicketIn` says. |
| Storage.ComponentStorage.SaveAccessToken | src/storage.go:63-65 | Writes the platform token as `SaveAccessTokenIn` says. |
| Storage.ComponentStorage.GetAccessToken | src/storage.go:67-78 | Reads the platform token as `AccessTokenIn` says. |
| Storage.ComponentStorage.SaveAppAccessToken | src/storage.go:97-99 | Writes a tenant token as `SaveAppAccessTokenIn` says. |
| Storage.ComponentStorage.GetAppAccessToken | src/storage.go:101-112 | Reads a tenant token as `AppAccessTokenIn` says. |
| Storage.ComponentStorage.Set | src/storage.go:114-116 | Every write goes to the prefixed key. |
| Storage.ComponentStorage.Get | src/storage.go:118-120 | Every read goes to the prefixed key. |
| Storage.ComponentStorage.MarshalJson | src/storage.go:122-128 | The encoded document is written under the prefixed key. |
| Storage.ComponentStorage.UnmarshalJson | src/storage.go:130-139 | Reading a document is `LoadDoc`: empty bytes fill nothing. |
| Storage.SaveAppInfoIn | src/storage.go:32 | Saving sets exactly this tenant's info, and a failure changes nothing. |
| Storage.AppInfoIn | src/storage.go:33 | The stored info, or nil when the store holds none for the tenant. |
| Storage.DelAppInfoIn | src/storage.go:34 | A delete succeeds exactly when the store can serve the tenant. It then removes exactly that tenant, and every other tenant keeps its info. A failure changes nothing. |
| Storage.DelAppInfoNotInIn | src/storage.go:35 | The sweep is recorded. After success exactly the listed tenants that were stored remain, each with its old info. A failed sweep keeps every info. |
| Storage.AppStore.SaveAppInfo | src/storage.go:32 | The in-memory app store's save is `SaveAppInfoIn`. |
| Storage.AppStore.DelAppInfo | src/storage.go:34 | The in-memory app store's delete is `DelAppInfoIn`. |
| Storage.AppStore.DelAppInfoNotIn | src/storage.go:35 | The in-memory app store's sweep is `DelAppInfoNotInIn`. |
| Platform.AuthorizerListPage | pkg/open_platform.go:353 | A page holds at most `count` entries, the authorizers from `offset` on in list order. It is empty exactly past the end of the list, and a short page is the last. |
| Platform.RemotePlatform.GetComponentAccessToken | pkg/open_platform.go:59 | The request is logged and answered by the platform. |
| Platform.RemotePlatform.CreatePreAuthCode | pkg/open_platform.go:81 | The request is logged and answered by the platform. |
| Platform.RemotePlatform.GetAuthorizationInfo | pkg/open_platform.go:178-190 | The request is logged and answered by the platform. A reply without `authorization_info` is nil. |
| Platform.RemotePlatform.RefreshAuthorizerToken | pkg/open_platform.go:203 | The request is logged and answered by the platform. |
| Platform.RemotePlatform.GetAuthorizerInfo | pkg/open_platform.go:275 | The request is logged and answered by the platform. |
| Platform.RemotePlatform.GetAuthorizerList | pkg/open_platform.go:353 | The request is logged and answered with `AuthorizerListPage`. |
| Dispatch.NewContext | src/dispatcher.go:16-29 | A new context has an empty value map, no memoised app or sender, and the request's writer. |
| Dispatch.Context.constructor | src/dispatcher.go:16-29 | The new context's state is `NewContext` of its writer. |
| Dispatch.Lookup | src/dispatcher.go:31-34 | `Get` finds a value exactly when the key was set, and returns that value. |
| Dispatch.Context.Get | src/dispatcher.go:31-34 | `Get` finds a value exactly when the key is in the value map, and returns it. |
| Dispatch.Context.Set | src/dispatcher.go:36-38 | `Set` changes only the value under its key. |
| Dispatch.LastSetWins | src/dispatcher.go:31-38 | After a run of `Set`s, `Get(k)` gives the value of the last `Set(k, v)`, or what was there before. |
| Dispatch.AppInfoMemo | src/dispatcher.go:40-50 | A memoised app is returned without calling the getter. Otherwise the getter is called once and its answer returned. Only a successful answer is memoised; a nil answer leaves the memo empty. |
| Dispatch.AppInfoRetriedAfterFailure | src/dispatcher.go:40-50 | After a failed lookup the next `AppInfo` asks the getter again. |
| Dispatch.Context.AppInfo | src/dispatcher.go:40-50 | The method does what `AppInfoStep` says. |
| Dispatch.SenderFetchedOnce | src/dispatcher.go:52-57 | Over a whole request, a sender getter that returns a sender is called at most once. |
| Dispatch.Context.CustomerMsgSender | src/dispatcher.go:52-57 | The method does what `SenderStep` says. |
| Dispatch.RunStep | src/dispatcher.go:112-113 | No context operation changes the log of handlers run. |
| Dispatch.RunSteps | src/dispatcher.go:112-113 | No run of context operations changes the log of handlers run. |
| Dispatch.Context.Perform | src/dispatcher.go:31-57 | One context operation changes the context as `RunStep` says. |
| Dispatch.Context.Run | src/dispatcher.go:112-113 | Running one handler logs it, then applies its operations in order. |
| Dispatch.HandlersRunInOrder | src/dispatcher.go:112-125 | Every handler runs exactly once, in the order given. |
| Dispatch.HandlersShareContext | src/dispatcher.go:110-125 | All handlers act on one context: running a list is running each handler on the previous one's result. |
| Dispatch.RunHandlersAnsweredOnce | src/dispatcher.go:112-125 | Whatever the handlers do, the request's body keeps at most one reply. |
| Dispatch.RunStepAnsweredOnce | src/dispatcher.go:31-57 | One context operation keeps "the body holds at most the one kept reply". |
| Dispatch.RunStepsAnsweredOnce | src/dispatcher.go:112-113 | One handler's operations keep "the body holds at most the one kept reply". |
| Dispatch.RunStepsSenderMemo | src/dispatcher.go:52-57 | One handler's operations keep the sender memo: the getter has been called at most once, and only the memo holds its answer. |
| Dispatch.RunHandlersSenderMemo | src/dispatcher.go:52-125 | A list of handlers keeps the sender memo. |
| Dispatch.Dispatcher.constructor | src/dispatcher.go:83-85 | A new dispatcher has no handlers. |
| Dispatch.HandlersFor | src/dispatcher.go:111 | An event nobody subscribed to has no handlers. |
| Dispatch.Subscribe | src/dispatcher.go:88-90 | Subscribing appends the handler to that event's list and leaves every other event's list unchanged. |
| Dispatch.Dispatcher.SubscribeEvent | src/dispatcher.go:88-90 | The handler table becomes `Subscribe`'s, and the text handlers are unchanged. |
| Dispatch.Dispatcher.SubscribeTextMsg | src/dispatcher.go:93-95 | The handler is appended to the text-handler list, and the event handlers are unchanged. |
| Dispatch.Dispatcher.RunAll | src/dispatcher.go:112-125 | The loop runs the handlers in order on the one context. |
| Dispatch.EventRunsSubscribers | src/dispatcher.go:105-115 | An event runs exactly its subscribers, in order, once each, on a fresh context. An event with no subscribers runs nothing and returns nil. |
| Dispatch.TextRunsAllTextHandlers | src/dispatcher.go:116-127 | A text message runs every text handler, in order, on a fresh context, and returns nil. |
| Dispatch.TextUnparsedWithoutHandlers | src/dispatcher.go:117 | Without text handlers a text message returns nil, and the outcome does not depend on the parse. |
| Dispatch.ParseErrorRunsNothing | src/dispatcher.go:106-121 | A parse error is returned before any context exists or any handler runs. |
| Dispatch.OtherTypesIgnored | src/dispatcher.go:104-129 | Other message types run nothing and return nil. |
| Dispatch.TriggerAnswersOnce | src/dispatcher.go:97-130 | However many handlers reply, the body holds at most one reply. |
| Dispatch.Dispatcher.Trigger | src/dispatcher.go:97-130 | The error and the final context state are `TriggerOutcome`'s. When no context is created, the writer is untouched. |
| Replies.TextMessage | src/response.go:27-32 | A text reply carries exactly the text, and its type is text. |
| Replies.ImageMessage | src/response.go:34-39 | An image reply carries exactly the media id, and its type is image. |
| Replies.VoiceMessage | src/response.go:41-46 | A voice reply carries exactly the media id, and its type is voice. |
| Replies.VideoMessage | src/response.go:48-57 | A video reply carries the media id, title and description verbatim, and its type is video. |
| Replies.MusicMessage | src/response.go:59-70 | A music reply copies all five music fields verbatim, and its type is music. |
| Replies.ToResArticle | src/response.go:76-81 | A reply article copies the four article fields. |
| Replies.ToResArticles | src/response.go:72-82 | The reply articles have the length and order of the input articles. |
| Replies.NewsMessage | src/response.go:83-86 | A news reply carries the converted articles in order, and its type is news. |
| Replies.FirstResponseRecorded | src/response.go:92-98 | A first reply is kept in `history` stamped with `now`. It is kept even when the send fails, and then nothing is written and the send error is returned. |
| Replies.LaterResponseRefused | src/response.go:90-91 | A later reply returns the "already response" error and changes nothing. |
| Replies.RespondKeepsAnsweredOnce | src/response.go:89-101 | One reply attempt preserves "the body holds at most the one kept reply". |
| Replies.RespondAll | src/response.go:89-101 | A run of reply attempts gives one result per attempt. |
| Replies.AnsweredKeepsRefusing | src/response.go:90-91 | Once a reply is kept, every further attempt is refused and changes nothing. |
| Replies.OnlyFirstReplyCounts | src/response.go:89-101 | Over any run of attempts on a fresh writer, only the first is kept and, unless sending fails, written; every later one is refused. |
| Replies.ResponseBody.constructor | src/public_client.go:47 | A fresh HTTP response body is empty. |
| Replies.ResponseBody.Write | src/public_client.go:53-79 | A write appends its data to the body. |
| Replies.ResponseWriter.constructor | src/public_client.go:59-64 | A new reply writer has an empty `history` and writes to the request's body. |
| Replies.ResponseWriter.Response | src/response.go:89-101 | The writer's `response` does what `Respond` says. |
| Replies.ResponseWriter.ResponseText | src/response.go:27-32 | Replies with `TextMessage(text)`. |
| Replies.ResponseWriter.ResponseImage | src/response.go:34-39 | Replies with `ImageMessage(mediaId)`. |
| Replies.ResponseWriter.ResponseVoice | src/response.go:41-46 | Replies with `VoiceMessage(mediaId)`. |
| Replies.ResponseWriter.ResponseVideo | src/response.go:48-57 | Replies with `VideoMessage(...)`. |
| Replies.ResponseWriter.ResponseMusic | src/response.go:59-70 | Replies with `MusicMessage(music)`. |
| Replies.ResponseWriter.ResponseArticles | src/response.go:72-87 | The index loop fills an array with exactly `ToResArticles(articles)`; the writer then replies with `NewsMessage(articles)`. |
| Public.NormalizeIgnoresOrder | src/public_client.go:238-240 | The order of the two instants does not matter. |
| Public.NormalizeSteps | src/public_client.go:237-255 | After normalisation:<br>- the end is clamped to yesterday;<br>- a span under one day is widened to one day back from the end;<br>- a span over `maxRange` is cut to `maxRange` from the begin;<br>- otherwise the begin and end are kept;<br>- the span is at most `maxRange`, and at least one day when `maxRange` allows. |
| Public.WindowsEnds | src/public_client.go:256-276 | The windows are empty exactly for an empty range. Otherwise the first begins at the range's begin and the last ends at its end. |
| Public.WindowsContiguous | src/public_client.go:256-276 | Each window begins where the previous one ended. |
| Public.WindowsLengths | src/public_client.go:258-271 | Every window is non-empty and at most `split` long, and all but the last are exactly `split` long. |
| Public.SplitScenario | src/public_client_test.go:21-43 | 2020-11-01 to two months later, weeks, at most five weeks, run on 2021-11-01: exactly five one-week windows from the begin. |
| Public.Split | src/public_client.go:236-255 | The method's normalisation and windows are `SplitDateTimeRange`'s. |
| Public.CutWindows | src/public_client.go:256-276 | The loop produces exactly `Windows`. |
| Public.Parts | src/public_client.go:190-196 | There is one part per window, holding what that window's request returned. |
| Public.Gather | src/public_client.go:188-218 | It succeeds exactly when every window's request succeeds, and then is the concatenation of their lists in window order. Otherwise it is the error of the first window that failed. |
| Public.CollectWindows | src/public_client.go:190-217 | The loop's result is `Gather`. |
| Public.Latest | src/public_client.go:326-328 | The kept index lies among the entries seen. |
| Public.LatestIsFirstGreatest | src/public_client.go:308-328 | The kept entry has the greatest date by Go string order, and is the first entry with that date. |
| Public.SummariesOn | src/public_client.go:316-321 | The summaries kept for a date are summaries of that date. |
| Public.NewUsersOverMatching | src/public_client.go:316-319 | A day's new users are the total over exactly the summaries of that date. |
| Public.CancelUsersOverMatching | src/public_client.go:316-320 | A day's cancelled users are the total over exactly the summaries of that date. |
| Public.StatisticsDays | src/public_client.go:307-323 | There is one output day per cumulate, in order. Each copies its date and total and sums exactly the summaries of its date. |
| Public.StatisticsTotals | src/public_client.go:324-325 | The overall new and cancelled users are the sums over the output days. |
| Public.StatisticsLatest | src/public_client.go:308-332 | The overall total is that of the greatest date, the first on ties, and 0 without cumulates. |
| Public.AggregateDay | src/public_client.go:310-322 | The inner loop builds exactly the aggregated day. |
| Public.Aggregate | src/public_client.go:307-333 | The outer loop builds exactly `Statistics` of the two lists. |
| Public.EchoSkipsDispatch | src/public_client.go:52-53 | A non-empty echo string is written and nothing is dispatched. |
| Public.ListenAnswersOnce | src/public_client.go:55-80 | After dispatch the body gains exactly one thing: the empty body when no handler replied, or else the one reply kept (or nothing if sending it failed). |
| Public.PublicClient.constructor | src/public_client.go:33-44 | A new client holds its configuration. |
| Public.PublicClient.ListenMessage | src/public_client.go:47-84 | The body becomes what `ListenOutcome` says. |
| Public.PublicClient.GetUserSummary | src/public_client.go:183-200 | A token error is returned first. Otherwise the result is `Gather` over the week windows. |
| Public.PublicClient.GetUserCumulate | src/public_client.go:203-220 | A token error is returned first. Otherwise the result is `Gather` over the week windows. |
| Public.PublicClient.GetUserStatistics | src/public_client.go:295-334 | The first error of the summaries, then of the cumulates, is returned. Otherwise the result is `Statistics` of the two lists. |
| Customer.LogOf | src/customer.go:42-43 | A failure is logged exactly when it is neither a break nor a common error. |
| Customer.Fanout | src/customer.go:36-46 | The fan-out sends to no more recipients than given. |
| Customer.FanoutFacts | src/customer.go:36-47 | The fan-out:<br>- sends to a prefix of the recipients, in order;<br>- returns an error exactly when some answer is a break, and that error is the first break;<br>- sends to nobody after the first break;<br>- sends to everyone when no answer is a break;<br>- logs exactly the non-break, non-common failures of the recipients it sent to. |
| Customer.FanoutBreak | src/customer.go:38-41 | A break at the first recipient stops the fan-out there with that error. |
| Customer.FanoutCons | src/customer.go:36-46 | Past a non-break answer, the fan-out goes on with the rest. |
| Customer.Deliveries | src/customer.go:37 | One request per recipient, in order, each with the card. |
| Customer.CustomerMsgSender.constructor | src/customer.go:20-25 | A new sender has sent and logged nothing. |
| Customer.CustomerMsgSender.SendMiniProgramPage | src/customer.go:27-48 | A token error is returned before anything is sent. Otherwise the result, the requests and the log are `Fanout`'s. |
| Customer.CustomerMsgSender.Deliver | src/customer.go:36-47 | The loop's result, requests and log are `Fanout`'s. |
| Customer.CustomerMsgResponser.constructor | src/customer.go:63-68 | The responder is bound to its user and sender. |
| Customer.CustomerMsgResponser.ResponseMiniProgramPage | src/customer.go:59-61 | The card is sent to exactly the bound user. Only a break error is returned, and a failure that is not common is logged. |
| Advert.NatToDecimalRoundTrip | pkg/statistics/advert.go:61-62 | The decimal rendering has only digits and no leading zero, and reads back as the number. |
| Advert.IntToDecimalRoundTrip | pkg/statistics/advert.go:61-62 | `strconv.Itoa` reads back as the number, with a minus sign exactly for negatives. |
| Advert.ClampPageSize | pkg/statistics/advert.go:41-57 | The page size is at most 90. It is unchanged up to 90 and 90 above. |
| Advert.ToUrl | pkg/statistics/advert.go:54-68 | `ad_slot` is present exactly when the slot is non-empty, with the slot as its value. Every key has one value. |
| Advert.ToUrlCommonKeys | pkg/statistics/advert.go:58-68 | The keys are exactly the six common ones plus `ad_slot` for a non-empty slot. Action, token and dates are carried verbatim, and `page` reads back as the page. |
| Advert.ToUrlClampsPageSize | pkg/statistics/advert.go:55-62 | The `page_size` sent reads back as the clamped size. |
| Advert.KnownText | pkg/statistics/advert.go:81-89 | Exactly the codes 45009, 45010, 1701 and 2009 have their own texts. |
| Advert.RetMessage | pkg/statistics/advert.go:83 | Every error message starts with `ret: `. |
| Advert.IsErrorAsWritten | pkg/statistics/advert.go:77-94 | As written: an error exactly when `Ret != 0`, and then always a message. |
| Advert.IsError | pkg/statistics/advert.go:77-94 | Corrected: an error exactly when `Ret != 0`, and then always a message. |
| Advert.KnownCodesReported | pkg/statistics/advert.go:81-89 | Both versions agree on the four known codes, which get their own texts. For example 45009 gives `ret: 45009, err msg: 请求过于频繁, 请稍后尝试`. |
| Advert.IsErrorReportsCode | pkg/statistics/advert.go:77-94 | Corrected: every error message starts with `ret: ` and the code, which reads back. |
| Advert.IsErrorKeepsPlatformMessage | pkg/statistics/advert.go:90-91 | Corrected: an unknown code's message ends with the platform's own `err_msg`. |
| Advert.AsWrittenLosesCode | pkg/statistics/advert.go:90-91 | As written, code 40001 yields a message without the code: `%` stands where the corrected version has `4`. |
| Advert.Gate | pkg/statistics/advert.go:126-134 | It succeeds exactly when the fetch succeeds with `Ret` 0, and then returns the body. A fetch error passes through. A non-zero `Ret` gives its `IsError` message. |
| Advert.AdPosGeneralQuery | pkg/statistics/advert.go:124 | The ad-position query names its action and carries `ad_slot` exactly for a non-empty slot. |
| Advert.SlotlessQuery | pkg/statistics/advert.go:163-201 | The CPS and settlement queries name their action and never carry `ad_slot`. |
| Advert.GetPublisherAdPosGeneral | pkg/statistics/advert.go:123-135 | It succeeds exactly when the fetch succeeds with `Ret` 0. |
| Advert.GetPublisherCpsGeneral | pkg/statistics/advert.go:162-174 | It succeeds exactly when the fetch succeeds with `Ret` 0. |
| Advert.GetPublisherSettlement | pkg/statistics/advert.go:200-212 | It succeeds exactly when the fetch succeeds with `Ret` 0. |
| Advert.NonZeroRetRejected | pkg/statistics/advert.go:130-209 | A non-zero `Ret` always gives the `IsError` error and no response object, at all three endpoints. |
| Advert.GateAgainstAsWritten | pkg/statistics/advert.go:77-94 | The gate rejects exactly the replies the as-written `IsError` rejects. For the four known codes the message is the as-written one. |
| Subscribers.NextSubscribersUri | pkg/users/subscribers.go:29-33 | The URL is the base URL and token, plus `&next_openid=` and the cursor exactly when the cursor is non-empty. |
| Subscribers.GetNextSubscribers | pkg/users/subscribers.go:29-41 | Fetches exactly the page at `NextSubscribersUri`. |
| Subscribers.Walk | pkg/users/subscribers.go:8-27 | The first request uses the starting cursor. |
| Subscribers.WalkBoundIrrelevant | pkg/users/subscribers.go:10-26 | The walk depends only on the cursor chain, not on the bound within which it ends. |
| Subscribers.WalkChained | pkg/users/subscribers.go:9-22 | The first request uses the empty cursor. Each later request uses the previous page's non-empty `NextOpenid`, made after that page was fetched and walked without error. |
| Subscribers.WalkWalkedInOrder | pkg/users/subscribers.go:11-15 | Every fetched page's openids go to `walk` exactly once, in fetch order. Only a failed last fetch is not walked. |
| Subscribers.WalkEndsAtLast | pkg/users/subscribers.go:12-20 | A fetch error is returned without walking. A walk error is returned with no further fetch. Nil is returned only right after walking a page without a next cursor. |
| Subscribers.GetSubscribers | pkg/users/subscribers.go:8-27 | The loop's error, requests and walked pages are `Walk`'s from the empty cursor. |
| Rand.Range | pkg/rand.go:9 | A run of consecutive ASCII codes. |
| Rand.SourceAlphanumeric | pkg/rand.go:9 | The alphabet has 62 letters, all alphanumeric: digits, then lower case, then upper case. |
| Rand.PickedFromSource | pkg/rand.go:15 | Every picked letter is from the alphabet, so an alphanumeric alphabet gives an alphanumeric string. |
| Rand.RandBy | pkg/rand.go:11-18 | Given `bits >= 0`, the result has length `bits`, each letter is from the alphabet, and it is the letters the draws pick. An empty alphabet admits only `bits == 0`, which gives the empty string. |
| Rand.RandStr | pkg/rand.go:21-23 | The result has length `bits`, is alphanumeric, and is drawn from the fixed alphabet. |

## Left out

**Scope**
- Concurrency: `OpenClient.mu` is read as making each method atomic. The code has no single-flight refresh, and none is claimed.
- Commented-out code is dead and not modelled: pre-auth-code caching and the multi-app statistics.
- `ComponentLoginPage` (src/open_client.go:145-157) is left out. It is `getPreAuthCode` (modelled) followed by a URL builder of pkg/open_platform.go.
- The open-app bind wrappers (src/open_client.go:291-324) are left out; they are token pass-throughs.
- `OpenClient.ListenMessage` (src/open_client.go:268-275) is left out. It is `GetClient` followed by the tenant client's `ListenMessage`, and both are modelled.
- The token-getter pass-throughs of src/public_client.go are left out: the material, tag and advert wrappers, and `GetAppInfo`. The advert endpoints themselves are modelled with the token as a parameter.
- The REST wrappers of pkg/open_platform.go and pkg/statistics/user.go are oracles: the `Api` record, and `summaryApi`/`cumulateApi`. Their HTTP and JSON layers are not modelled.

**Foreign code and I/O**
- Foreign message code (`WXBizMsgCrypt`, `CheckSignature`, `ReadServerMessage`, `MarshalEvent`/`MarshalTextMessage`, `message.Response`) is not shown. Its outcomes are parameters: `echo`, `incoming`, `decoded`, `data`, and `sendFault` (a failed send writes nothing).
- The message customer-send call is the oracle `send`, and `IsBreakError`/`IsCMsgCommonError` are the error's kind.
- Logger output is not modelled. Errors that are only logged (decryption, `CheckSignature`, `trigger`, `ListenVerifyTicket`) have no effect in the model. The customer sender's log is a field listing the failures.
- `NewPublicClient`'s creation of a default logger (src/public_client.go:34-40) is left out with the logger; the model's constructor cannot fail.
- JSON encoding is modelled as structured documents: field name to string or integer. `json.Unmarshal` fills the fields a document names and fails on a type mismatch; the text form and its parser are not modelled.
- The query of the advert endpoints is the `url.Values` map before `Encode`. Percent-encoding and the `https://api.weixin.qq.com/publisher/stat?` prefix are not modelled.
- Dates in advert queries are the strings `Format("2006-01-02")` yields.

**Time**
- Instants are whole Unix seconds on unbounded integers. Go works in `int64` seconds and `time.Duration` nanoseconds; the bounds this drops are listed under "Weaker contracts".
- Each operation reads one clock value `now`. The Go code calls `Now()` again in several places (for example src/open_client.go:173,205), and those are read as that same instant.
- The TTL of `SaveAccessToken` uses the real clock, modelled as `wallNow`.
- The calendar computation of "midnight of yesterday" (src/public_client.go:242-244) is the parameter `yesterday`.

**Simplifications**
- Context values are strings. Handlers are Go closures; they are modelled as named scripts of context operations (`Put`, `Copy`, `AskApp`, `AskSender`, `Reply`).
- Each client's token getter is a fixed answer, `token`, for the duration of one call.
- `LexLess` compares `char` sequences. Go compares the UTF-8 bytes, and the two agree on the ASCII dates the platform returns.
- Float fields of the advert and statistics records are omitted, and so is `BusinessInfo` of `AuthorizerInfo`.
- The AppStorage interface has no implementation in the source. The model is an in-memory store that follows its comments, with a set of failing tenants and a failing sweep.

- A Go panic on a nil dereference is modelled as the error `NilDereference(field)` returned at the point of the panic. Unwinding and the HTTP server's recovery are not modelled.

**Code that does not compile, modelled as intended**
- src/open_client.go:248-259 builds `PublicClientConfigs` with fields and a return arity that src/public_client.go:19-26,33 do not have. It is modelled as a client bound to the tenant, its info and the message token.
- `EvtUpdateAuthorized` (src/open_client.go:68) is declared as `EvtUpdateauthorized`; it is the string "updateauthorized".
- src/public_client.go:69-72 passes a responder getter where the context expects a sender getter. It is modelled as the responder bound to the sender of the message.

**Weaker contracts**
- Storage.VerifyTicketRoundTrip, Storage.AccessTokenRoundTrip, Storage.StoredAppAccessTokenRoundTrip: they require the key to be readable. A faithful backend is assumed; a failing read is the backend's own error.
- Open.MigrateStoresRefreshTokensOnly: it requires every listed tenant's key to be readable, for the same reason.
- Dispatch.SenderFetchedOnce: it holds only when the getter returns a sender. A nil answer is asked for again on the next call (src/dispatcher.go:53), so the getter may then be called more than once.
- Subscribers.GetSubscribers: it is modelled only on cursor chains that end within a ghost bound `n` (`Ends`). The Go loop has no bound and does not terminate on a cyclic chain of cursors.
- Storage.VerifyTicketIn: a ticket key holding a JSON document reads as `DecodeFault`. Go returns its bytes as text (src/storage.go:59), but documents have no text form in this model. Through `ComponentStorage` the ticket key only receives raw bytes (`SaveVerifyTicketIn`), and `KeysDistinct` keeps the JSON writers off it.
- Storage.ComponentStorage.GetVerifyTicket: the same gap as `VerifyTicketIn`, which it follows.
- Open.ExpiryAt: computed on unbounded integers. Go's `Now().Unix() + ExpiresIn - (ExpiresIn >> 3)` (src/open_client.go:105,173,205) is `int64`, and it wraps only when `ExpiresIn` is near 2^63. The model does not capture that wrap.
- Storage.ComponentStorage.SaveAccessToken: the TTL is `ExpiredAt - wallNow` seconds, unbounded. Go's `time.Unix(ExpiredAt, 0).Sub(time.Now())` (src/storage.go:64) is a `time.Duration` that saturates about 292 years from now, and the nanosecond precision of the wall clock is dropped.
- Storage.StoredExpirations: the same unbounded TTL as `SaveAccessToken`.
- Platform.AuthorizerListPage: the platform's authorizer list is one fixed sequence that every page slices by offset. Go pages over whatever the platform answers (pkg/open_platform.go:353), and the list may change between requests.
- Open.OpenClient.MigrateApps: its loop ends because the list is a fixed, finite snapshot (`decreases |authorizers| - offset`). The Go loop (src/open_client.go:336-344) has no bound and stops only at an empty page. If pages never run out, it does not stop. If the list changes mid-walk, the swept ids are not a snapshot. Neither case is modelled.
- Open.MigrateSweepsComplete: rests on the same fixed-list snapshot as `MigrateApps`.
- Open.MigrateRequestsEveryPage: rests on the same fixed-list snapshot as `MigrateApps`.
- Advert.Gate: uses the corrected `IsError` (see "## Findings"). For an unknown non-zero code the Go endpoints return the as-written message instead. Which replies are rejected, and the message for the four known codes, are the same: `GateAgainstAsWritten`.
- Advert.GetPublisherAdPosGeneral: rejects through the corrected `Gate`, so an unknown code's message is the corrected one.
- Advert.GetPublisherCpsGeneral: rejects through the corrected `Gate`, so an unknown code's message is the corrected one.
- Advert.GetPublisherSettlement: rejects through the corrected `Gate`, so an unknown code's message is the corrected one.
- Advert.NonZeroRetRejected: states the corrected message. The as-written message for unknown codes is that of `IsErrorAsWritten`.
- Rand.RandBy: the shared generator is the sequence `draws` of its answers. Its seeding and its distribution are not modelled.

## Findings

| source | as written | input that shows it | evidently intended | confidence | as-written member | corrected member |
|---|---|---|---|---|---|---|
| pkg/statistics/advert.go:90-91 | The default branch of `IsError` passes the string `ErrMsg` to the `%d` verb and reuses the text of code 2009. The message reads `ret: %!d(string=…), err msg: 无效的流量主` and loses both the code and the platform's message. | `BaseResp{ErrMsg: "invalid credential", Ret: 40001}` | `fmt.Errorf("ret: %d, err msg: %s", br.Ret, br.ErrMsg)` | not executed | Advert.IsErrorAsWritten, Advert.AsWrittenLosesCode | Advert.IsError, Advert.IsErrorReportsCode, Advert.IsErrorKeepsPlatformMessage |
