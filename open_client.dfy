/**
 * src/open_client.go: the third-party platform client.  It caches the
 * platform access token and the tenants' authorizer tokens in the component
 * storage, keeps the tenants' app info in the app store, reacts to
 * authorization notifications, memoises one public client per tenant, and
 * reconciles the local tenants with the platform's authorizer list.
 *
 * Every operation is specified by a pure function from a snapshot of the
 * state it touches (`World`) to its result and the next snapshot; the class
 * `OpenClient` at the end implements each one imperatively and is proved to
 * agree with it.  The clock is the parameter `now` (Unix seconds), the real
 * clock that the backend TTL is computed against is `wallNow`.
 */
module Open {
  import opened Errors
  import opened Access
  import opened Storage
  import opened Platform
  import opened Replies

  /** The per-tenant public client GetClient builds (its token getter is getAppAccessToken for `appid`). */
  datatype TenantClient = TenantClient(appid: string, info: AuthorizerInfo, msgVerifyToken: string)

  /** The configuration: component appid and secret, message token, storage key prefix, the remote platform. */
  datatype Env = Env(appid: string, secret: string, msgVerifyToken: string, prefix: string, api: Api)

  /** The state the client reads and writes: backend, remote request log, app store, client registry. */
  datatype World = World(kv: Kv, calls: seq<Call>, apps: Apps, clients: map<string, Option<TenantClient>>)

  /** A token's expiry: its lifetime shortened by an eighth (Go's `ExpiresIn >> 3` is floor division by 8). */
  function ExpiryAt(now: int, expiresIn: int): (t: int)
    ensures expiresIn >= 0 ==> now <= t <= now + expiresIn
    ensures expiresIn >= 0 ==> 8 * (t - now) >= 7 * expiresIn
    ensures expiresIn >= 8 ==> t < now + expiresIn
  {
    now + expiresIn - expiresIn / 8
  }

  /**
   * `after` is `before` followed by requests other than authorizer-list
   * requests.
   */
  ghost predicate Extends(before: seq<Call>, after: seq<Call>)
  {
    && |before| <= |after| && after[..|before|] == before
    && forall i :: |before| <= i < |after| ==> !after[i].AuthorizerListCall?
  }

  // ---------------------------------------------------------------------------
  // The operations, on snapshots.

  /** getComponentAccessToken: reuse the stored token unless it is missing or expired. */
  function ComponentTokenOutcome(env: Env, w: World, now: int, wallNow: int): (r: (Result<string>, World))
    ensures r.1 == w.(kv := r.1.kv, calls := r.1.calls)
    ensures r.1.kv == w.kv.(entries := r.1.kv.entries)
    ensures Extends(w.calls, r.1.calls)
  {
    match AccessTokenIn(env.prefix, w.kv)
    case Err(e) => (Err(e), w)
    case Ok(token) =>
      if token.Some? && token.value.expiredAt >= now then (Ok(token.value.value), w)
      else match VerifyTicketIn(env.prefix, w.kv)
        case Err(e) => (Err(e), w)
        case Ok(ticket) =>
          if ticket == "" then (Err(TicketEmpty(env.appid)), w)
          else
            var w1 := w.(calls := w.calls + [ComponentTokenCall(env.appid, env.secret, ticket)]);
            match env.api.componentToken(env.appid, env.secret, ticket)
            case Err(e) => (Err(e), w1)
            case Ok(reply) =>
              var renewed := ExpireData(reply.token, ExpiryAt(now, reply.expiresIn));
              var saved := SaveAccessTokenIn(env.prefix, w1.kv, renewed, wallNow);
              match saved.0
              case Some(e) => (Err(e), w1)
              case None => (Ok(renewed.value), w1.(kv := saved.1))
  }

  /** getPreAuthCode: a platform-token failure is swallowed and yields an empty code. */
  function PreAuthCodeOutcome(env: Env, w: World, now: int, wallNow: int): (r: (Result<string>, World))
    ensures r.1 == w.(kv := r.1.kv, calls := r.1.calls)
  {
    var (token, w1) := ComponentTokenOutcome(env, w, now, wallNow);
    if token.Err? then (Ok(""), w1)
    else
      var w2 := w1.(calls := w1.calls + [PreAuthCodeCall(env.appid, token.value)]);
      match env.api.preAuthCode(env.appid, token.value)
      case Err(e) => (Err(e), w2)
      case Ok(code) => (Ok(code.preAuthCode), w2)
  }

  /** ListenLoginPage: exchange a non-empty authorization code for the tenant's tokens and store them. */
  function LoginPageOutcome(env: Env, w: World, now: int, wallNow: int, code: string): (r: (Option<Error>, World))
    ensures r.1 == w.(kv := r.1.kv, calls := r.1.calls)
  {
    if code == "" then (None, w)
    else
      var (token, w1) := ComponentTokenOutcome(env, w, now, wallNow);
      if token.Err? then (Some(token.error), w1)
      else
        var w2 := w1.(calls := w1.calls + [AuthorizationInfoCall(env.appid, code, token.value)]);
        match env.api.authorization(env.appid, code, token.value)
        case Err(e) => (Some(e), w2)
        case Ok(None) => (Some(NilDereference("authorization_info")), w2)
        case Ok(Some(auth)) =>
          match auth.token
          case None => (Some(NilDereference("authorizer_token")), w2)
          case Some(tok) =>
            var t := AppAccessToken(tok.authorizerAccessToken, ExpiryAt(now, tok.expiresIn), tok.authorizerRefreshToken);
            var (err, kv) := SaveAppAccessTokenIn(env.prefix, w2.kv, auth.authorizerAppid, t);
            if err.Some? then (err, w2) else (None, w2.(kv := kv))
  }

  /** getAppAccessToken: a tenant without a stored refresh token is unauthorized; an expired token is refreshed. */
  function AppTokenOutcome(env: Env, w: World, now: int, wallNow: int, appid: string): (r: (Result<string>, World))
    ensures r.1 == w.(kv := r.1.kv, calls := r.1.calls)
    ensures r.1.kv == w.kv.(entries := r.1.kv.entries)
  {
    match AppAccessTokenIn(env.prefix, w.kv, appid)
    case Err(e) => (Err(e), w)
    case Ok(None) => (Err(Unauthorized(appid)), w)
    case Ok(Some(t)) =>
      if t.expireAt >= now then (Ok(t.accessToken), w)
      else
        var (token, w1) := ComponentTokenOutcome(env, w, now, wallNow);
        if token.Err? then (Err(token.error), w1)
        else
          var w2 := w1.(calls := w1.calls + [RefreshTokenCall(env.appid, appid, t.refreshToken, token.value)]);
          match env.api.refreshToken(env.appid, appid, t.refreshToken, token.value)
          case Err(e) => (Err(e), w2)
          case Ok(reply) =>
            var renewed := AppAccessToken(reply.authorizerAccessToken, ExpiryAt(now, reply.expiresIn),
                                        reply.authorizerRefreshToken);
            var (err, kv) := SaveAppAccessTokenIn(env.prefix, w2.kv, appid, renewed);
            if err.Some? then (Err(err.value), w2) else (Ok(renewed.accessToken), w2.(kv := kv))
  }

  /** refreshAppInfo: fetch the tenant's info from the platform and save it in the app store. */
  function RefreshAppInfoOutcome(env: Env, w: World, now: int, wallNow: int, appid: string)
    : (r: (Result<AuthorizerInfo>, World))
    ensures r.1 == w.(kv := r.1.kv, calls := r.1.calls, apps := r.1.apps)
    ensures r.1.kv == w.kv.(entries := r.1.kv.entries)
    ensures r.1.apps == w.apps.(infos := r.1.apps.infos)
    ensures Extends(w.calls, r.1.calls)
  {
    var (token, w1) := ComponentTokenOutcome(env, w, now, wallNow);
    if token.Err? then (Err(token.error), w1)
    else
      var w2 := w1.(calls := w1.calls + [AuthorizerInfoCall(env.appid, appid, token.value)]);
      match env.api.authorizerInfo(env.appid, appid, token.value)
      case Err(e) => (Err(e), w2)
      case Ok(info) =>
        var (err, apps) := SaveAppInfoIn(w2.apps, appid, info);
        if err.Some? then (Err(err.value), w2) else (Ok(info), w2.(apps := apps))
  }

  /** setNotify: the authorization-notification state machine. */
  function SetNotifyOutcome(env: Env, w: World, now: int, wallNow: int, notify: AuthorizationNotify)
    : (r: (Option<Error>, World))
  {
    if notify.infoType == EvtComponentVerifyTicket then
      var (err, kv) := SaveVerifyTicketIn(env.prefix, w.kv, notify.componentVerifyTicket);
      (err, w.(kv := kv))
    else if notify.infoType == EvtAuthorized || notify.infoType == EvtUpdateAuthorized then
      var (info, w1) := RefreshAppInfoOutcome(env, w, now, wallNow, notify.authorizerAppid);
      (if info.Err? then Some(info.error) else None, w1)
    else if notify.infoType == EvtUnauthorized then
      var (err, apps) := DelAppInfoIn(w.apps, notify.authorizerAppid);
      (err, w.(clients := w.clients - {notify.authorizerAppid}, apps := apps))
    else (None, w)
  }

  /**
   * ListenVerifyTicket: what it writes to the HTTP response, given the outcome
   * of decrypting the notification.  Failures are only logged.
   */
  function VerifyTicketOutcome(env: Env, w: World, now: int, wallNow: int, decoded: Result<AuthorizationNotify>)
    : (r: (seq<Chunk>, World))
  {
    match decoded
    case Err(_) => ([], w)
    case Ok(notify) =>
      var (err, w1) := SetNotifyOutcome(env, w, now, wallNow, notify);
      (if err.None? then [Plain("success")] else [], w1)
  }

  /** GetClient: the memoised public client of a tenant; nil is memoised too. */
  function GetClientOutcome(env: Env, w: World, appid: string): (r: (Result<Option<TenantClient>>, World))
  {
    if appid in w.clients then (Ok(w.clients[appid]), w)
    else match AppInfoIn(w.apps, appid)
      case Err(e) => (Err(e), w)
      case Ok(info) =>
        var client := if info.None? then None else Some(TenantClient(appid, info.value, env.msgVerifyToken));
        (Ok(client), w.(clients := w.clients[appid := client]))
  }

  /** GetAppInfo: the stored info, fetched from the platform when the store has none. */
  function GetAppInfoOutcome(env: Env, w: World, now: int, wallNow: int, appid: string)
    : (r: (Result<AuthorizerInfo>, World))
  {
    match AppInfoIn(w.apps, appid)
    case Err(e) => (Err(e), w)
    case Ok(None) => RefreshAppInfoOutcome(env, w, now, wallNow, appid)
    case Ok(Some(info)) => (Ok(info), w)
  }

  /** The page size of MigrateApps. */
  const MigrateLimit := 100

  /** MigrateApps. */
  function MigrateOutcome(env: Env, w: World, now: int, wallNow: int): (r: (Option<Error>, World))
  {
    var (token, w1) := ComponentTokenOutcome(env, w, now, wallNow);
    if token.Err? then (Some(token.error), w1)
    else MigratePages(env, w1, now, wallNow, token.value, 0, [])
  }

  /** The paging loop of MigrateApps from `offset` on, with the appids collected so far. */
  function MigratePages(env: Env, w: World, now: int, wallNow: int, token: string, offset: nat, appids: seq<string>)
    : (r: (Option<Error>, World))
    decreases |env.api.authorizers| - offset
  {
    var w1 := w.(calls := w.calls + [AuthorizerListCall(token, env.appid, offset, MigrateLimit)]);
    match AuthorizerListPage(env.api, offset, MigrateLimit)
    case Err(e) => (Some(e), w1)
    case Ok(list) =>
      if list == [] then
        var (err, apps) := DelAppInfoNotInIn(w1.apps, appids);
        (err, w1.(apps := apps))
      else
        var (err, w2, appids2) := MigrateItems(env, w1, now, wallNow, list, appids);
        if err.Some? then (err, w2)
        else MigratePages(env, w2, now, wallNow, token, offset + MigrateLimit, appids2)
  }

  /** The inner loop of MigrateApps over one page, collecting the appids of the tenants it processed. */
  function MigrateItems(env: Env, w: World, now: int, wallNow: int, items: seq<AuthorizerInformation>,
                        appids: seq<string>): (r: (Option<Error>, World, seq<string>))
    decreases |items|
  {
    if items == [] then (None, w, appids)
    else
      var step := MigrateItem(env, w, now, wallNow, items[0]);
      if step.0.Some? then (step.0, step.1, appids)
      else MigrateItems(env, step.1, now, wallNow, items[1..], appids + [items[0].authorizerAppid])
  }

  /** One tenant of the list: store its refresh token alone, then refresh its app info. */
  function MigrateItem(env: Env, w: World, now: int, wallNow: int, x: AuthorizerInformation)
    : (r: (Option<Error>, World))
    ensures r.1 == w.(kv := r.1.kv, calls := r.1.calls, apps := r.1.apps)
    ensures r.1.kv == w.kv.(entries := r.1.kv.entries)
    ensures r.1.apps == w.apps.(infos := r.1.apps.infos)
    ensures Extends(w.calls, r.1.calls)
  {
    var saved := SaveAppAccessTokenIn(env.prefix, w.kv, x.authorizerAppid, AppAccessToken("", 0, x.refreshToken));
    match saved.0
    case Some(e) => (Some(e), w)
    case None =>
      var refreshed := RefreshAppInfoOutcome(env, w.(kv := saved.1), now, wallNow, x.authorizerAppid);
      (if refreshed.0.Err? then Some(refreshed.0.error) else None, refreshed.1)
  }

  // ---------------------------------------------------------------------------
  // The platform token.

  /** A stored, unexpired platform token is returned with no ticket read, remote call or save. */
  lemma CachedComponentToken(env: Env, w: World, now: int, wallNow: int, t: ExpireData)
    requires AccessTokenIn(env.prefix, w.kv) == Ok(Some(t)) && t.expiredAt >= now
    ensures ComponentTokenOutcome(env, w, now, wallNow) == (Ok(t.value), w)
  {
  }

  /** The platform token must be (re)fetched: nothing usable is stored. */
  ghost predicate NeedsComponentToken(env: Env, w: World, now: int)
  {
    AccessTokenIn(env.prefix, w.kv).Ok? &&
    (AccessTokenIn(env.prefix, w.kv).value.None? || AccessTokenIn(env.prefix, w.kv).value.value.expiredAt < now)
  }

  /** A refresh without a verify ticket fails with the ticket error and saves nothing. */
  lemma EmptyTicketNoRefresh(env: Env, w: World, now: int, wallNow: int)
    requires NeedsComponentToken(env, w, now)
    requires VerifyTicketIn(env.prefix, w.kv) == Ok("")
    ensures ComponentTokenOutcome(env, w, now, wallNow) == (Err(TicketEmpty(env.appid)), w)
  {
  }

  /**
   * A minted platform token is requested with the stored ticket, stored with
   * expiry ExpiryAt(now, ExpiresIn), returned, and served from the store to a
   * second request at the same instant.
   */
  lemma MintedComponentToken(env: Env, w: World, now: int, wallNow: int, ticket: string, reply: ComponentAccessToken)
    requires NeedsComponentToken(env, w, now)
    requires VerifyTicketIn(env.prefix, w.kv) == Ok(ticket) && ticket != ""
    requires env.api.componentToken(env.appid, env.secret, ticket) == Ok(reply)
    requires env.prefix + AccessTokenKey !in w.kv.writeFaults && env.prefix + AccessTokenKey !in w.kv.readFaults
    ensures var (r, w1) := ComponentTokenOutcome(env, w, now, wallNow);
      && r == Ok(reply.token)
      && w1.calls == w.calls + [ComponentTokenCall(env.appid, env.secret, ticket)]
      && AccessTokenIn(env.prefix, w1.kv) ==
           Ok(if reply.token != "" then Some(ExpireData(reply.token, ExpiryAt(now, reply.expiresIn))) else None)
      && (reply.token != "" && reply.expiresIn >= 0 ==> ComponentTokenOutcome(env, w1, now, wallNow) == (r, w1))
  {
    AccessTokenRoundTrip(env.prefix, w.kv, ExpireData(reply.token, ExpiryAt(now, reply.expiresIn)), wallNow);
  }

  /** Fetching the platform token touches no tenant token, no ticket, no app info and no client. */
  lemma ComponentTokenKeepsTenants(env: Env, w: World, now: int, wallNow: int, appid: string)
    ensures var w1 := ComponentTokenOutcome(env, w, now, wallNow).1;
      && AppAccessTokenIn(env.prefix, w1.kv, appid) == AppAccessTokenIn(env.prefix, w.kv, appid)
      && VerifyTicketIn(env.prefix, w1.kv) == VerifyTicketIn(env.prefix, w.kv)
      && w1.apps == w.apps && w1.clients == w.clients
  {
    KeysDistinct(env.prefix, appid);
  }

  /** getPreAuthCode reports a platform-token failure as an empty code and no error. */
  lemma PreAuthCodeSwallowsTokenError(env: Env, w: World, now: int, wallNow: int)
    requires ComponentTokenOutcome(env, w, now, wallNow).0.Err?
    ensures PreAuthCodeOutcome(env, w, now, wallNow) == (Ok(""), ComponentTokenOutcome(env, w, now, wallNow).1)
  {
  }

  // ---------------------------------------------------------------------------
  // Tenant tokens.

  /** A tenant without a stored refresh token is unauthorized; nothing is requested or saved. */
  lemma MissingTenantUnauthorized(env: Env, w: World, now: int, wallNow: int, appid: string)
    requires AppAccessTokenIn(env.prefix, w.kv, appid) == Ok(None)
    ensures AppTokenOutcome(env, w, now, wallNow, appid) == (Err(Unauthorized(appid)), w)
  {
  }

  /** An unexpired tenant token is returned as stored. */
  lemma CachedTenantToken(env: Env, w: World, now: int, wallNow: int, appid: string, t: AppAccessToken)
    requires AppAccessTokenIn(env.prefix, w.kv, appid) == Ok(Some(t)) && t.expireAt >= now
    ensures AppTokenOutcome(env, w, now, wallNow, appid) == (Ok(t.accessToken), w)
  {
  }

  /**
   * An expired tenant token is refreshed with its stored refresh token; the
   * new token is saved with expiry ExpiryAt(now, ExpiresIn) and returned.
   */
  lemma ExpiredTenantTokenRefreshed(env: Env, w: World, now: int, wallNow: int, appid: string,
                                    t: AppAccessToken, reply: AuthorizerToken)
    requires AppAccessTokenIn(env.prefix, w.kv, appid) == Ok(Some(t)) && t.expireAt < now
    requires ComponentTokenOutcome(env, w, now, wallNow).0.Ok?
    requires env.api.refreshToken(env.appid, appid, t.refreshToken,
                                  ComponentTokenOutcome(env, w, now, wallNow).0.value) == Ok(reply)
    requires env.prefix + AppAccessTokenKey(appid) !in w.kv.writeFaults
    requires env.prefix + AppAccessTokenKey(appid) !in w.kv.readFaults
    ensures var (token, w1) := ComponentTokenOutcome(env, w, now, wallNow);
      var (r, w2) := AppTokenOutcome(env, w, now, wallNow, appid);
      var renewed := AppAccessToken(reply.authorizerAccessToken, ExpiryAt(now, reply.expiresIn),
                                    reply.authorizerRefreshToken);
      && r == Ok(reply.authorizerAccessToken)
      && w2.calls == w1.calls + [RefreshTokenCall(env.appid, appid, t.refreshToken, token.value)]
      && AppAccessTokenIn(env.prefix, w2.kv, appid) ==
           Ok(if reply.authorizerRefreshToken != "" then Some(renewed) else None)
  {
    var w1 := ComponentTokenOutcome(env, w, now, wallNow).1;
    StoredAppAccessTokenRoundTrip(env.prefix, w1.kv, appid,
      AppAccessToken(reply.authorizerAccessToken, ExpiryAt(now, reply.expiresIn), reply.authorizerRefreshToken));
  }

  /** ListenLoginPage with an empty code does nothing. */
  lemma EmptyLoginCodeIgnored(env: Env, w: World, now: int, wallNow: int)
    ensures LoginPageOutcome(env, w, now, wallNow, "") == (None, w)
  {
  }

  /** ListenLoginPage stores the tenant's tokens, with expiry ExpiryAt(now, ExpiresIn). */
  lemma LoginPageStoresTenantToken(env: Env, w: World, now: int, wallNow: int, code: string, auth: AuthorizationInfo,
                                   tok: AuthorizerToken)
    requires code != ""
    requires ComponentTokenOutcome(env, w, now, wallNow).0.Ok?
    requires env.api.authorization(env.appid, code, ComponentTokenOutcome(env, w, now, wallNow).0.value) == Ok(Some(auth))
    requires auth.token == Some(tok)
    requires env.prefix + AppAccessTokenKey(auth.authorizerAppid) !in w.kv.writeFaults
    requires env.prefix + AppAccessTokenKey(auth.authorizerAppid) !in w.kv.readFaults
    ensures var (err, w2) := LoginPageOutcome(env, w, now, wallNow, code);
      var t := AppAccessToken(tok.authorizerAccessToken, ExpiryAt(now, tok.expiresIn), tok.authorizerRefreshToken);
      && err.None?
      && AppAccessTokenIn(env.prefix, w2.kv, auth.authorizerAppid) ==
           Ok(if tok.authorizerRefreshToken != "" then Some(t) else None)
  {
    var w1 := ComponentTokenOutcome(env, w, now, wallNow).1;
    StoredAppAccessTokenRoundTrip(env.prefix, w1.kv, auth.authorizerAppid,
      AppAccessToken(tok.authorizerAccessToken, ExpiryAt(now, tok.expiresIn), tok.authorizerRefreshToken));
  }

  /**
   * A reply without `authorization_info`, or without the token fields, makes
   * ListenLoginPage dereference nil: it stops there, after the
   * platform token step and the request, and saves nothing.
   */
  lemma LoginReplyWithoutTokenPanics(env: Env, w: World, now: int, wallNow: int, code: string)
    requires code != ""
    requires ComponentTokenOutcome(env, w, now, wallNow).0.Ok?
    ensures var (token, w1) := ComponentTokenOutcome(env, w, now, wallNow);
      var reply := env.api.authorization(env.appid, code, token.value);
      var (err, w2) := LoginPageOutcome(env, w, now, wallNow, code);
      && (reply == Ok(None) ==> err == Some(NilDereference("authorization_info")))
      && (reply.Ok? && reply.value.Some? && reply.value.value.token.None? ==>
            err == Some(NilDereference("authorizer_token")))
      && (reply.Ok? && (reply.value.None? || reply.value.value.token.None?) ==>
            w2 == w1.(calls := w1.calls + [AuthorizationInfoCall(env.appid, code, token.value)]))
  {
  }

  // ---------------------------------------------------------------------------
  // App info and notifications.

  /** A successful refresh leaves the fetched info in the app store. */
  lemma RefreshAppInfoStores(env: Env, w: World, now: int, wallNow: int, appid: string)
    ensures var (r, w1) := RefreshAppInfoOutcome(env, w, now, wallNow, appid);
      r.Ok? ==> AppInfoIn(w1.apps, appid) == Ok(Some(r.value))
  {
  }

  /** Refreshing app info touches no tenant token and no client. */
  lemma RefreshAppInfoKeepsTenantTokens(env: Env, w: World, now: int, wallNow: int, appid: string, other: string)
    ensures var w1 := RefreshAppInfoOutcome(env, w, now, wallNow, appid).1;
      AppAccessTokenIn(env.prefix, w1.kv, other) == AppAccessTokenIn(env.prefix, w.kv, other)
      && w1.clients == w.clients
  {
    ComponentTokenKeepsTenants(env, w, now, wallNow, other);
  }

  /** GetAppInfo returns stored info as is and fetches it otherwise; after a success it is stored. */
  lemma GetAppInfoSettles(env: Env, w: World, now: int, wallNow: int, appid: string)
    ensures var (r, w1) := GetAppInfoOutcome(env, w, now, wallNow, appid);
      && (AppInfoIn(w.apps, appid).Ok? && AppInfoIn(w.apps, appid).value.Some? ==>
            (r, w1) == (Ok(AppInfoIn(w.apps, appid).value.value), w))
      && (AppInfoIn(w.apps, appid) == Ok(None) ==> (r, w1) == RefreshAppInfoOutcome(env, w, now, wallNow, appid))
      && (r.Ok? ==> AppInfoIn(w1.apps, appid) == Ok(Some(r.value)))
  {
    RefreshAppInfoStores(env, w, now, wallNow, appid);
  }

  /** A ticket notification saves exactly its ticket, with no expiration, and nothing else. */
  lemma TicketNotifySavesTicket(env: Env, w: World, now: int, wallNow: int, notify: AuthorizationNotify)
    requires notify.infoType == EvtComponentVerifyTicket
    ensures var (err, w1) := SetNotifyOutcome(env, w, now, wallNow, notify);
      && w1 == w.(kv := w1.kv)
      && (env.prefix + TicketKey in w.kv.writeFaults ==> err.Some? && w1 == w)
      && (env.prefix + TicketKey !in w.kv.writeFaults ==>
            && err.None?
            && w1.kv.entries == w.kv.entries[env.prefix + TicketKey := Entry(Raw(notify.componentVerifyTicket), 0)]
            && (env.prefix + TicketKey !in w.kv.readFaults ==>
                  VerifyTicketIn(env.prefix, w1.kv) == Ok(notify.componentVerifyTicket)))
  {
  }

  /** An authorized or updateauthorized notification refreshes the tenant's app info. */
  lemma AuthorizedNotifyRefreshesInfo(env: Env, w: World, now: int, wallNow: int, notify: AuthorizationNotify)
    requires notify.infoType == EvtAuthorized || notify.infoType == EvtUpdateAuthorized
    ensures var (err, w1) := SetNotifyOutcome(env, w, now, wallNow, notify);
      var (info, w2) := RefreshAppInfoOutcome(env, w, now, wallNow, notify.authorizerAppid);
      && w1 == w2
      && (err.None? <==> info.Ok?)
      && (err.None? ==> AppInfoIn(w1.apps, notify.authorizerAppid) == Ok(Some(info.value)))
  {
    RefreshAppInfoStores(env, w, now, wallNow, notify.authorizerAppid);
  }

  /**
   * An unauthorized notification forgets the tenant's client, whether or not
   * deleting its app info then fails, and deletes the app info.
   */
  lemma UnauthorizedNotifyForgetsTenant(env: Env, w: World, now: int, wallNow: int, notify: AuthorizationNotify)
    requires notify.infoType == EvtUnauthorized
    ensures var (err, w1) := SetNotifyOutcome(env, w, now, wallNow, notify);
      && w1.clients == w.clients - {notify.authorizerAppid}
      && w1.kv == w.kv && w1.calls == w.calls
      && (err.None? <==> notify.authorizerAppid !in w.apps.failing)
      && (err.None? ==> w1.apps.infos.Keys == w.apps.infos.Keys - {notify.authorizerAppid})
      && (err.Some? ==> w1.apps == w.apps)
  {
  }

  /** Any other notification type is ignored. */
  lemma UnknownNotifyIgnored(env: Env, w: World, now: int, wallNow: int, notify: AuthorizationNotify)
    requires notify.infoType !in {EvtComponentVerifyTicket, EvtAuthorized, EvtUpdateAuthorized, EvtUnauthorized}
    ensures SetNotifyOutcome(env, w, now, wallNow, notify) == (None, w)
  {
  }

  /** "success" is written exactly when the notification decodes and is handled without error. */
  lemma VerifyTicketAnswer(env: Env, w: World, now: int, wallNow: int, decoded: Result<AuthorizationNotify>)
    ensures var (body, w1) := VerifyTicketOutcome(env, w, now, wallNow, decoded);
      && (body == [Plain("success")] <==> decoded.Ok? && SetNotifyOutcome(env, w, now, wallNow, decoded.value).0.None?)
      && (body != [Plain("success")] ==> body == [])
      && (decoded.Err? ==> w1 == w)
  {
  }

  // ---------------------------------------------------------------------------
  // The client registry.

  /**
   * A hit returns the memoised entry, nil included, and touches nothing; a
   * miss memoises what the app store says, nil for an unknown tenant; a store
   * error memoises nothing.
   */
  lemma GetClientCaching(env: Env, w: World, appid: string)
    ensures var (r, w1) := GetClientOutcome(env, w, appid);
      && (appid in w.clients ==> r == Ok(w.clients[appid]) && w1 == w)
      && (appid !in w.clients && r.Ok? ==>
            && w1 == w.(clients := w.clients[appid := r.value])
            && (r.value.None? <==> AppInfoIn(w.apps, appid) == Ok(None))
            && (r.value.Some? ==> r.value.value.appid == appid && Ok(Some(r.value.value.info)) == AppInfoIn(w.apps, appid)))
      && (r.Err? ==> w1 == w && AppInfoIn(w.apps, appid) == Err(r.error))
  {
  }

  /** Asking again for a client one has just obtained gives the same answer and changes nothing. */
  lemma GetClientIdempotent(env: Env, w: World, appid: string)
    ensures var (r, w1) := GetClientOutcome(env, w, appid);
      r.Ok? ==> GetClientOutcome(env, w1, appid) == (r, w1)
  {
  }

  // ---------------------------------------------------------------------------
  // MigrateApps.

  /** The appids of a list of authorizers, in order. */
  function Ids(xs: seq<AuthorizerInformation>): (ids: seq<string>)
    ensures |ids| == |xs| && forall i :: 0 <= i < |xs| ==> ids[i] == xs[i].authorizerAppid
  {
    seq(|xs|, i requires 0 <= i < |xs| => xs[i].authorizerAppid)
  }

  lemma IdsAppend(xs: seq<AuthorizerInformation>, ys: seq<AuthorizerInformation>)
    ensures Ids(xs + ys) == Ids(xs) + Ids(ys)
  {
  }

  /** The authorizers from `offset` on. */
  function Rest(xs: seq<AuthorizerInformation>, offset: nat): seq<AuthorizerInformation>
  {
    if offset <= |xs| then xs[offset..] else []
  }

  /** The offsets of the authorizer-list requests among `calls`, in order. */
  function ListOffsets(calls: seq<Call>): seq<int>
  {
    if calls == [] then []
    else (if calls[0].AuthorizerListCall? then [calls[0].offset] else []) + ListOffsets(calls[1..])
  }

  lemma {:induction false} ListOffsetsAppend(a: seq<Call>, b: seq<Call>)
    ensures ListOffsets(a + b) == ListOffsets(a) + ListOffsets(b)
  {
    if a != [] {
      assert (a + b)[1..] == a[1..] + b;
      ListOffsetsAppend(a[1..], b);
    } else {
      assert a + b == b;
    }
  }

  lemma {:induction false} ListOffsetsNone(b: seq<Call>)
    requires forall i :: 0 <= i < |b| ==> !b[i].AuthorizerListCall?
    ensures ListOffsets(b) == []
  {
    if b != [] {
      ListOffsetsNone(b[1..]);
    }
  }

  lemma ListOffsetsExtends(a: seq<Call>, b: seq<Call>)
    requires Extends(a, b)
    ensures ListOffsets(b) == ListOffsets(a)
  {
    assert b == a + b[|a|..];
    ListOffsetsAppend(a, b[|a|..]);
    ListOffsetsNone(b[|a|..]);
  }

  /** The offsets MigrateApps requests from `offset` on: steps of the page size up to the first past the list. */
  function PageOffsets(offset: nat, n: nat): (r: seq<int>)
    ensures |r| >= 1 && r[|r| - 1] >= n
    ensures forall i :: 0 <= i < |r| ==> r[i] == offset + MigrateLimit * i
    ensures forall i :: 0 <= i < |r| - 1 ==> r[i] < n
    decreases n - offset
  {
    if offset >= n then [offset] else [offset] + PageOffsets(offset + MigrateLimit, n)
  }

  /** A tenant token as MigrateApps stores it: only the refresh token is set. */
  ghost predicate RefreshOnly(r: Result<Option<AppAccessToken>>)
  {
    r == Ok(None) || (r.Ok? && r.value.Some? && r.value.value.accessToken == "" && r.value.value.expireAt == 0)
  }

  /** Every tenant in `ids` has a refresh-only token. */
  ghost predicate AllRefreshOnly(prefix: string, kv: Kv, ids: seq<string>)
  {
    forall a :: a in ids ==> RefreshOnly(AppAccessTokenIn(prefix, kv, a))
  }

  /** The backend can read every one of these tenants' token keys. */
  ghost predicate Readable(prefix: string, kv: Kv, ids: seq<string>)
  {
    forall a :: a in ids ==> prefix + AppAccessTokenKey(a) !in kv.readFaults
  }

  lemma ReadableSplit(prefix: string, kv: Kv, xs: seq<string>, ys: seq<string>)
    requires Readable(prefix, kv, xs + ys)
    ensures Readable(prefix, kv, xs) && Readable(prefix, kv, ys)
  {
    forall a | a in xs ensures prefix + AppAccessTokenKey(a) !in kv.readFaults {
      assert a in xs + ys;
    }
    forall a | a in ys ensures prefix + AppAccessTokenKey(a) !in kv.readFaults {
      assert a in xs + ys;
    }
  }

  lemma ExtendsTransitive(a: seq<Call>, b: seq<Call>, c: seq<Call>)
    requires Extends(a, b) && Extends(b, c)
    ensures Extends(a, c)
  {
    assert c[..|a|] == c[..|b|][..|a|];
  }

  /** One tenant of the list keeps every collected tenant's token refresh-only and adds its own. */
  lemma MigrateItemStep(env: Env, w: World, now: int, wallNow: int, x: AuthorizerInformation, appids: seq<string>)
    requires AllRefreshOnly(env.prefix, w.kv, appids)
    requires env.prefix + AppAccessTokenKey(x.authorizerAppid) !in w.kv.readFaults
    ensures var step := MigrateItem(env, w, now, wallNow, x);
      step.0.None? ==> AllRefreshOnly(env.prefix, step.1.kv, appids + [x.authorizerAppid])
  {
    var t := AppAccessToken("", 0, x.refreshToken);
    var saved := SaveAppAccessTokenIn(env.prefix, w.kv, x.authorizerAppid, t);
    if saved.0.None? {
      var w1 := w.(kv := saved.1);
      forall a | a in appids + [x.authorizerAppid]
        ensures RefreshOnly(AppAccessTokenIn(env.prefix, RefreshAppInfoOutcome(env, w1, now, wallNow, x.authorizerAppid).1.kv, a))
      {
        RefreshAppInfoKeepsTenantTokens(env, w1, now, wallNow, x.authorizerAppid, a);
        if a == x.authorizerAppid {
          StoredAppAccessTokenRoundTrip(env.prefix, w.kv, x.authorizerAppid, t);
        } else {
          SaveAppAccessTokenFrame(env.prefix, w.kv, x.authorizerAppid, t, a);
        }
      }
    }
  }

  lemma {:induction false} MigrateItemsIds(env: Env, w: World, now: int, wallNow: int,
                                           items: seq<AuthorizerInformation>, appids: seq<string>)
    ensures var r := MigrateItems(env, w, now, wallNow, items, appids);
      r.0.None? ==> r.2 == appids + Ids(items)
    decreases |items|
  {
    if items != [] {
      var step := MigrateItem(env, w, now, wallNow, items[0]);
      if step.0.None? {
        MigrateItemsIds(env, step.1, now, wallNow, items[1..], appids + [items[0].authorizerAppid]);
        assert Ids(items) == [items[0].authorizerAppid] + Ids(items[1..]);
      }
    }
  }

  lemma {:induction false} MigrateItemsFrame(env: Env, w: World, now: int, wallNow: int,
                                             items: seq<AuthorizerInformation>, appids: seq<string>)
    ensures var w1 := MigrateItems(env, w, now, wallNow, items, appids).1;
      && Extends(w.calls, w1.calls)
      && w1.apps.sweeps == w.apps.sweeps
      && w1.kv.readFaults == w.kv.readFaults
    decreases |items|
  {
    if items != [] {
      var step := MigrateItem(env, w, now, wallNow, items[0]);
      if step.0.None? {
        var w1 := MigrateItems(env, step.1, now, wallNow, items[1..], appids + [items[0].authorizerAppid]).1;
        MigrateItemsFrame(env, step.1, now, wallNow, items[1..], appids + [items[0].authorizerAppid]);
        ExtendsTransitive(w.calls, step.1.calls, w1.calls);
      }
    }
  }

  lemma {:induction false} MigrateItemsTokens(env: Env, w: World, now: int, wallNow: int,
                                              items: seq<AuthorizerInformation>, appids: seq<string>)
    requires AllRefreshOnly(env.prefix, w.kv, appids)
    requires Readable(env.prefix, w.kv, Ids(items))
    ensures var r := MigrateItems(env, w, now, wallNow, items, appids);
      r.0.None? ==> AllRefreshOnly(env.prefix, r.1.kv, r.2)
    decreases |items|
  {
    if items != [] {
      var step := MigrateItem(env, w, now, wallNow, items[0]);
      if step.0.None? {
        assert Ids(items) == [items[0].authorizerAppid] + Ids(items[1..]);
        MigrateItemStep(env, w, now, wallNow, items[0], appids);
        MigrateItemsTokens(env, step.1, now, wallNow, items[1..], appids + [items[0].authorizerAppid]);
      }
    }
  }

  /** The authorizer list from `offset` on is the page at `offset` followed by the list from the next offset. */
  lemma PageSplit(api: Api, offset: nat)
    requires AuthorizerListPage(api, offset, MigrateLimit).Ok?
    ensures var page := AuthorizerListPage(api, offset, MigrateLimit).value;
      page != [] ==> Ids(Rest(api.authorizers, offset)) == Ids(page) + Ids(Rest(api.authorizers, offset + MigrateLimit))
    ensures AuthorizerListPage(api, offset, MigrateLimit).value == [] ==> Rest(api.authorizers, offset) == []
  {
    var page := AuthorizerListPage(api, offset, MigrateLimit).value;
    if page != [] {
      assert Rest(api.authorizers, offset) == page + Rest(api.authorizers, offset + MigrateLimit);
      IdsAppend(page, Rest(api.authorizers, offset + MigrateLimit));
    }
  }

  lemma {:induction false} MigratePagesSweep(env: Env, w: World, now: int, wallNow: int, token: string,
                                             offset: nat, appids: seq<string>)
    ensures var r := MigratePages(env, w, now, wallNow, token, offset, appids);
      var all := appids + Ids(Rest(env.api.authorizers, offset));
      && (r.1.apps.sweeps == w.apps.sweeps || r.1.apps.sweeps == w.apps.sweeps + [all])
      && (r.0.None? ==> r.1.apps.sweeps == w.apps.sweeps + [all])
    decreases |env.api.authorizers| - offset
  {
    var w1 := w.(calls := w.calls + [AuthorizerListCall(token, env.appid, offset, MigrateLimit)]);
    var page := AuthorizerListPage(env.api, offset, MigrateLimit);
    if page.Ok? {
      PageSplit(env.api, offset);
      if page.value == [] {
        assert appids + Ids([]) == appids;
      } else {
        var r := MigrateItems(env, w1, now, wallNow, page.value, appids);
        if r.0.None? {
          MigrateItemsIds(env, w1, now, wallNow, page.value, appids);
          MigrateItemsFrame(env, w1, now, wallNow, page.value, appids);
          MigratePagesSweep(env, r.1, now, wallNow, token, offset + MigrateLimit, r.2);
          assert r.2 + Ids(Rest(env.api.authorizers, offset + MigrateLimit))
              == appids + Ids(Rest(env.api.authorizers, offset));
        } else {
          MigrateItemsFrame(env, w1, now, wallNow, page.value, appids);
        }
      }
    }
  }

  /** One non-empty page of MigrateApps: process its items, then go on at the next offset. */
  lemma MigratePagesStep(env: Env, w: World, now: int, wallNow: int, token: string, offset: nat, appids: seq<string>)
    requires AuthorizerListPage(env.api, offset, MigrateLimit).Ok?
    requires AuthorizerListPage(env.api, offset, MigrateLimit).value != []
    ensures var w1 := w.(calls := w.calls + [AuthorizerListCall(token, env.appid, offset, MigrateLimit)]);
      var r := MigrateItems(env, w1, now, wallNow, AuthorizerListPage(env.api, offset, MigrateLimit).value, appids);
      && (r.0.Some? ==> MigratePages(env, w, now, wallNow, token, offset, appids) == (r.0, r.1))
      && (r.0.None? ==> MigratePages(env, w, now, wallNow, token, offset, appids)
                        == MigratePages(env, r.1, now, wallNow, token, offset + MigrateLimit, r.2))
  {
  }

  lemma ListOffsetsStep(before: seq<Call>, call: Call, mid: seq<Call>, final: seq<Call>, offset: nat, n: nat)
    requires call.AuthorizerListCall? && call.offset == offset && offset < n
    requires Extends(before + [call], mid)
    requires ListOffsets(final) == ListOffsets(mid) + PageOffsets(offset + MigrateLimit, n)
    ensures ListOffsets(final) == ListOffsets(before) + PageOffsets(offset, n)
  {
    ListOffsetsExtends(before + [call], mid);
    ListOffsetsAppend(before, [call]);
    assert ListOffsets([call]) == [offset];
  }

  lemma ListOffsetsLast(before: seq<Call>, call: Call, offset: nat, n: nat)
    requires call.AuthorizerListCall? && call.offset == offset && offset >= n
    ensures ListOffsets(before + [call]) == ListOffsets(before) + PageOffsets(offset, n)
  {
    ListOffsetsAppend(before, [call]);
    assert ListOffsets([call]) == [offset];
  }

  lemma {:induction false} MigratePagesOffsets(env: Env, w: World, now: int, wallNow: int, token: string,
                                               offset: nat, appids: seq<string>)
    ensures var r := MigratePages(env, w, now, wallNow, token, offset, appids);
      r.0.None? ==> ListOffsets(r.1.calls) == ListOffsets(w.calls) + PageOffsets(offset, |env.api.authorizers|)
    decreases |env.api.authorizers| - offset
  {
    var call := AuthorizerListCall(token, env.appid, offset, MigrateLimit);
    var w1 := w.(calls := w.calls + [call]);
    var page := AuthorizerListPage(env.api, offset, MigrateLimit);
    if page.Ok? {
      if page.value == [] {
        ListOffsetsLast(w.calls, call, offset, |env.api.authorizers|);
      } else {
        var r := MigrateItems(env, w1, now, wallNow, page.value, appids);
        MigratePagesStep(env, w, now, wallNow, token, offset, appids);
        if r.0.None? {
          MigrateItemsFrame(env, w1, now, wallNow, page.value, appids);
          MigratePagesOffsets(env, r.1, now, wallNow, token, offset + MigrateLimit, r.2);
          var final := MigratePages(env, r.1, now, wallNow, token, offset + MigrateLimit, r.2);
          if final.0.None? {
            ListOffsetsStep(w.calls, call, r.1.calls, final.1.calls, offset, |env.api.authorizers|);
          }
        }
      }
    }
  }

  lemma {:induction false} MigratePagesTokens(env: Env, w: World, now: int, wallNow: int, token: string,
                                              offset: nat, appids: seq<string>)
    requires AllRefreshOnly(env.prefix, w.kv, appids)
    requires Readable(env.prefix, w.kv, Ids(Rest(env.api.authorizers, offset)))
    ensures var r := MigratePages(env, w, now, wallNow, token, offset, appids);
      r.0.None? ==> AllRefreshOnly(env.prefix, r.1.kv, appids + Ids(Rest(env.api.authorizers, offset)))
    decreases |env.api.authorizers| - offset
  {
    var w1 := w.(calls := w.calls + [AuthorizerListCall(token, env.appid, offset, MigrateLimit)]);
    var page := AuthorizerListPage(env.api, offset, MigrateLimit);
    if page.Ok? {
      PageSplit(env.api, offset);
      if page.value == [] {
        assert appids + Ids([]) == appids;
      } else {
        var r := MigrateItems(env, w1, now, wallNow, page.value, appids);
        MigratePagesStep(env, w, now, wallNow, token, offset, appids);
        if r.0.None? {
          var rest := Ids(Rest(env.api.authorizers, offset + MigrateLimit));
          ReadableSplit(env.prefix, w.kv, Ids(page.value), rest);
          MigrateItemsIds(env, w1, now, wallNow, page.value, appids);
          MigrateItemsFrame(env, w1, now, wallNow, page.value, appids);
          MigrateItemsTokens(env, w1, now, wallNow, page.value, appids);
          MigratePagesTokens(env, r.1, now, wallNow, token, offset + MigrateLimit, r.2);
          assert r.2 + rest == appids + Ids(Rest(env.api.authorizers, offset));
        }
      }
    }
  }

  /**
   * MigrateApps deletes local app info only after every page was read and
   * processed, and then keeps exactly the authorizers' appids, in page order.
   */
  lemma MigrateSweepsComplete(env: Env, w: World, now: int, wallNow: int)
    ensures var (r, w1) := MigrateOutcome(env, w, now, wallNow);
      && (w1.apps.sweeps == w.apps.sweeps || w1.apps.sweeps == w.apps.sweeps + [Ids(env.api.authorizers)])
      && (r.None? ==> w1.apps.sweeps == w.apps.sweeps + [Ids(env.api.authorizers)])
  {
    var (token, w1) := ComponentTokenOutcome(env, w, now, wallNow);
    if token.Ok? {
      MigratePagesSweep(env, w1, now, wallNow, token.value, 0, []);
      assert [] + Ids(Rest(env.api.authorizers, 0)) == Ids(env.api.authorizers);
    }
  }

  /** A successful MigrateApps requested the list at offsets 0, 100, 200, ... up to the first empty page. */
  lemma MigrateRequestsEveryPage(env: Env, w: World, now: int, wallNow: int)
    ensures var (r, w1) := MigrateOutcome(env, w, now, wallNow);
      r.None? ==> ListOffsets(w1.calls) == ListOffsets(w.calls) + PageOffsets(0, |env.api.authorizers|)
  {
    var (token, w1) := ComponentTokenOutcome(env, w, now, wallNow);
    ListOffsetsExtends(w.calls, w1.calls);
    if token.Ok? {
      MigratePagesOffsets(env, w1, now, wallNow, token.value, 0, []);
    }
  }

  /**
   * After a successful MigrateApps every listed tenant's stored token holds
   * only the refresh token, with ExpireAt 0, so its first use refreshes it.
   */
  lemma MigrateStoresRefreshTokensOnly(env: Env, w: World, now: int, wallNow: int)
    requires Readable(env.prefix, w.kv, Ids(env.api.authorizers))
    ensures var (r, w1) := MigrateOutcome(env, w, now, wallNow);
      r.None? ==> AllRefreshOnly(env.prefix, w1.kv, Ids(env.api.authorizers))
  {
    var (token, w1) := ComponentTokenOutcome(env, w, now, wallNow);
    if token.Ok? {
      MigratePagesTokens(env, w1, now, wallNow, token.value, 0, []);
      assert [] + Ids(Rest(env.api.authorizers, 0)) == Ids(env.api.authorizers);
    }
  }

  // ---------------------------------------------------------------------------
  // The client object.

  /** OpenClient: its configuration, the three stores it uses, and the client registry it mutates. */
  class OpenClient {
    const appid: string
    const secret: string
    const msgVerifyToken: string
    const storage: ComponentStorage
    const appStore: AppStore
    const remote: RemotePlatform
    var publicClients: map<string, Option<TenantClient>>

    constructor (appid: string, secret: string, msgVerifyToken: string, storage: ComponentStorage,
                 appStore: AppStore, remote: RemotePlatform)
      ensures this.appid == appid && this.secret == secret && this.msgVerifyToken == msgVerifyToken
      ensures this.storage == storage && this.appStore == appStore && this.remote == remote
      ensures publicClients == map[]
    {
      this.appid := appid;
      this.secret := secret;
      this.msgVerifyToken := msgVerifyToken;
      this.storage := storage;
      this.appStore := appStore;
      this.remote := remote;
      publicClients := map[];
    }

    function Config(): Env
    {
      Env(appid, secret, msgVerifyToken, storage.keyPrefix, remote.api)
    }

    function Snapshot(): World
      reads this, storage.client, appStore, remote
    {
      World(storage.client.Snapshot(), remote.calls, appStore.Snapshot(), publicClients)
    }

    method GetComponentAccessToken(now: int, wallNow: int) returns (r: Result<string>)
      modifies storage.client, remote
      ensures (r, Snapshot()) == ComponentTokenOutcome(Config(), old(Snapshot()), now, wallNow)
    {
      var token := storage.GetAccessToken();
      if token.Err? {
        return Err(token.error);
      }
      if token.value.None? || token.value.value.expiredAt < now {
        var ticket := storage.GetVerifyTicket();
        if ticket.Err? {
          return Err(ticket.error);
        }
        if ticket.value == "" {
          return Err(TicketEmpty(appid));
        }
        var reply := remote.GetComponentAccessToken(appid, secret, ticket.value);
        if reply.Err? {
          return Err(reply.error);
        }
        var renewed := ExpireData(reply.value.token, ExpiryAt(now, reply.value.expiresIn));
        var err := storage.SaveAccessToken(renewed, wallNow);
        if err.Some? {
          return Err(err.value);
        }
        return Ok(renewed.value);
      }
      return Ok(token.value.value.value);
    }

    method GetPreAuthCode(now: int, wallNow: int) returns (r: Result<string>)
      modifies storage.client, remote
      ensures (r, Snapshot()) == PreAuthCodeOutcome(Config(), old(Snapshot()), now, wallNow)
    {
      var token := GetComponentAccessToken(now, wallNow);
      if token.Err? {
        return Ok("");
      }
      var code := remote.CreatePreAuthCode(appid, token.value);
      if code.Err? {
        return Err(code.error);
      }
      return Ok(code.value.preAuthCode);
    }

    method ListenLoginPage(now: int, wallNow: int, code: string) returns (err: Option<Error>)
      modifies storage.client, remote
      ensures (err, Snapshot()) == LoginPageOutcome(Config(), old(Snapshot()), now, wallNow, code)
    {
      if code == "" {
        return None;
      }
      var token := GetComponentAccessToken(now, wallNow);
      if token.Err? {
        return Some(token.error);
      }
      var auth := remote.GetAuthorizationInfo(appid, code, token.value);
      if auth.Err? {
        return Some(auth.error);
      }
      if auth.value.None? {
        return Some(NilDereference("authorization_info"));
      }
      var info := auth.value.value;
      if info.token.None? {
        return Some(NilDereference("authorizer_token"));
      }
      var tok := info.token.value;
      var t := AppAccessToken(tok.authorizerAccessToken, ExpiryAt(now, tok.expiresIn), tok.authorizerRefreshToken);
      err := storage.SaveAppAccessToken(info.authorizerAppid, t);
    }

    method GetAppAccessToken(now: int, wallNow: int, tenant: string) returns (r: Result<string>)
      modifies storage.client, remote
      ensures (r, Snapshot()) == AppTokenOutcome(Config(), old(Snapshot()), now, wallNow, tenant)
    {
      var stored := storage.GetAppAccessToken(tenant);
      if stored.Err? {
        return Err(stored.error);
      }
      if stored.value.None? {
        return Err(Unauthorized(tenant));
      }
      var t := stored.value.value;
      if t.expireAt < now {
        var token := GetComponentAccessToken(now, wallNow);
        if token.Err? {
          return Err(token.error);
        }
        var reply := remote.RefreshAuthorizerToken(appid, tenant, t.refreshToken, token.value);
        if reply.Err? {
          return Err(reply.error);
        }
        t := AppAccessToken(reply.value.authorizerAccessToken, ExpiryAt(now, reply.value.expiresIn),
                            reply.value.authorizerRefreshToken);
        var err := storage.SaveAppAccessToken(tenant, t);
        if err.Some? {
          return Err(err.value);
        }
      }
      return Ok(t.accessToken);
    }

    method RefreshAppInfo(now: int, wallNow: int, tenant: string) returns (r: Result<AuthorizerInfo>)
      modifies storage.client, remote, appStore
      ensures (r, Snapshot()) == RefreshAppInfoOutcome(Config(), old(Snapshot()), now, wallNow, tenant)
    {
      var token := GetComponentAccessToken(now, wallNow);
      if token.Err? {
        return Err(token.error);
      }
      var info := remote.GetAuthorizerInfo(appid, tenant, token.value);
      if info.Err? {
        return Err(info.error);
      }
      var err := appStore.SaveAppInfo(tenant, info.value);
      if err.Some? {
        return Err(err.value);
      }
      return Ok(info.value);
    }

    method SetNotify(now: int, wallNow: int, notify: AuthorizationNotify) returns (err: Option<Error>)
      modifies this, storage.client, remote, appStore
      ensures (err, Snapshot()) == SetNotifyOutcome(Config(), old(Snapshot()), now, wallNow, notify)
    {
      if notify.infoType == EvtComponentVerifyTicket {
        err := storage.SaveVerifyTicket(notify.componentVerifyTicket);
      } else if notify.infoType == EvtAuthorized || notify.infoType == EvtUpdateAuthorized {
        var info := RefreshAppInfo(now, wallNow, notify.authorizerAppid);
        err := if info.Err? then Some(info.error) else None;
      } else if notify.infoType == EvtUnauthorized {
        publicClients := publicClients - {notify.authorizerAppid};
        err := appStore.DelAppInfo(notify.authorizerAppid);
      } else {
        err := None;
      }
    }

    /** `decoded` is the outcome of reading and decrypting the notification request. */
    method ListenVerifyTicket(now: int, wallNow: int, decoded: Result<AuthorizationNotify>, w: ResponseBody)
      modifies this, storage.client, remote, appStore, w
      ensures var (body, after) := VerifyTicketOutcome(Config(), old(Snapshot()), now, wallNow, decoded);
        w.written == old(w.written) + body && Snapshot() == after
    {
      if decoded.Ok? {
        var err := SetNotify(now, wallNow, decoded.value);
        if err.None? {
          w.Write(Plain("success"));
        }
      }
    }

    method GetClient(tenant: string) returns (r: Result<Option<TenantClient>>)
      modifies this
      ensures (r, Snapshot()) == GetClientOutcome(Config(), old(Snapshot()), tenant)
    {
      if tenant in publicClients {
        return Ok(publicClients[tenant]);
      }
      var app := appStore.GetAppInfo(tenant);
      if app.Err? {
        return Err(app.error);
      }
      var client := if app.value.None? then None else Some(TenantClient(tenant, app.value.value, msgVerifyToken));
      publicClients := publicClients[tenant := client];
      return Ok(client);
    }

    method GetAppInfo(now: int, wallNow: int, tenant: string) returns (r: Result<AuthorizerInfo>)
      modifies storage.client, remote, appStore
      ensures (r, Snapshot()) == GetAppInfoOutcome(Config(), old(Snapshot()), now, wallNow, tenant)
    {
      var app := appStore.GetAppInfo(tenant);
      if app.Err? {
        return Err(app.error);
      }
      if app.value.None? {
        r := RefreshAppInfo(now, wallNow, tenant);
      } else {
        r := Ok(app.value.value);
      }
    }

    method MigrateApps(now: int, wallNow: int) returns (err: Option<Error>)
      modifies storage.client, remote, appStore
      ensures (err, Snapshot()) == MigrateOutcome(Config(), old(Snapshot()), now, wallNow)
    {
      var token := GetComponentAccessToken(now, wallNow);
      if token.Err? {
        return Some(token.error);
      }
      ghost var goal := MigratePages(Config(), Snapshot(), now, wallNow, token.value, 0, []);
      var appids: seq<string> := [];
      var offset: nat := 0;
      while true
        invariant MigratePages(Config(), Snapshot(), now, wallNow, token.value, offset, appids) == goal
        decreases |remote.api.authorizers| - offset
      {
        var list := remote.GetAuthorizerList(token.value, appid, offset, MigrateLimit);
        if list.Err? {
          return Some(list.error);
        }
        if list.value == [] {
          err := appStore.DelAppInfoNotIn(appids);
          return;
        }
        ghost var page := Snapshot();
        ghost var collected := appids;
        offset := offset + MigrateLimit;
        var i := 0;
        while i < |list.value|
          invariant 0 <= i <= |list.value|
          invariant MigrateItems(Config(), page, now, wallNow, list.value, collected)
                 == MigrateItems(Config(), Snapshot(), now, wallNow, list.value[i..], appids)
        {
          var x := list.value[i];
          err := storage.SaveAppAccessToken(x.authorizerAppid, AppAccessToken("", 0, x.refreshToken));
          if err.Some? {
            return;
          }
          var info := RefreshAppInfo(now, wallNow, x.authorizerAppid);
          if info.Err? {
            return Some(info.error);
          }
          appids := appids + [x.authorizerAppid];
          i := i + 1;
        }
      }
    }
  }
}
