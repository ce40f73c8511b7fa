/**
 * The remote platform API of pkg/open_platform.go as seen by the core: the
 * notification and reply records it exchanges, and a recorder of the requests
 * made to it.  What the platform answers is fixed per request by `Api`; the
 * HTTP and JSON layers underneath are not modelled.
 */
module Platform {
  import opened Errors
  import opened Storage

  // The InfoType values of authorization notifications.
  const EvtComponentVerifyTicket := "component_verify_ticket"
  const EvtUnauthorized := "unauthorized"
  const EvtUpdateAuthorized := "updateauthorized"
  const EvtAuthorized := "authorized"

  /** A decrypted authorization notification. */
  datatype AuthorizationNotify = AuthorizationNotify(
    appId: string, createTime: int, infoType: string, componentVerifyTicket: string,
    authorizerAppid: string, authorizationCode: string, authorizationCodeExpiredTime: int,
    preAuthCode: string)

  datatype ComponentAccessToken = ComponentAccessToken(token: string, expiresIn: int)

  datatype PreAuthCode = PreAuthCode(preAuthCode: string, expiresIn: int)

  datatype AuthorizerToken = AuthorizerToken(
    authorizerAccessToken: string, expiresIn: int, authorizerRefreshToken: string)

  /**
   * The platform returns the embedded token fields only when the tenant granted
   * API permission; otherwise the embedded `*AuthorizerToken` is nil.
   */
  datatype AuthorizationInfo = AuthorizationInfo(authorizerAppid: string, token: Option<AuthorizerToken>)

  /** One entry of the authorizer list. */
  datatype AuthorizerInformation = AuthorizerInformation(
    authorizerAppid: string, refreshToken: string, authTime: int)

  /** A request made to the remote platform, with the arguments that vary. */
  datatype Call =
    | ComponentTokenCall(componentAppid: string, secret: string, ticket: string)
    | PreAuthCodeCall(componentAppid: string, componentToken: string)
    | AuthorizationInfoCall(componentAppid: string, code: string, componentToken: string)
    | RefreshTokenCall(componentAppid: string, authorizerAppid: string, refreshToken: string,
                       componentToken: string)
    | AuthorizerInfoCall(componentAppid: string, authorizerAppid: string, componentToken: string)
    | AuthorizerListCall(componentToken: string, componentAppid: string, offset: int, count: int)

  /**
   * The platform's answer to each request.  An authorization reply without
   * `authorization_info` decodes to nil (`None`).  The authorizer list is the
   * platform's current list of authorized tenants; a list request at an offset
   * in `listFaults` fails.
   */
  datatype Api = Api(
    componentToken: (string, string, string) -> Result<ComponentAccessToken>,
    preAuthCode: (string, string) -> Result<PreAuthCode>,
    authorization: (string, string, string) -> Result<Option<AuthorizationInfo>>,
    refreshToken: (string, string, string, string) -> Result<AuthorizerToken>,
    authorizerInfo: (string, string, string) -> Result<AuthorizerInfo>,
    authorizers: seq<AuthorizerInformation>,
    listFaults: set<int>)

  /** The page of the authorizer list starting at `offset`, at most `count` long. */
  function AuthorizerListPage(api: Api, offset: nat, count: nat): (r: Result<seq<AuthorizerInformation>>)
    ensures r.Ok? ==> |r.value| <= count
    ensures r.Ok? ==> (r.value == [] <==> (count == 0 || offset >= |api.authorizers|))
    ensures r.Ok? && r.value != [] ==>
      offset + |r.value| <= |api.authorizers| && r.value == api.authorizers[offset..offset + |r.value|]
    ensures r.Ok? && |r.value| < count ==> offset + |r.value| >= |api.authorizers|
  {
    if offset in api.listFaults then Err(RemoteFault(-1, "api_get_authorizer_list"))
    else if offset >= |api.authorizers| then Ok([])
    else Ok(api.authorizers[offset..if offset + count <= |api.authorizers| then offset + count else |api.authorizers|])
  }

  /** The remote platform: it answers by `api` and records every request in `calls`. */
  class RemotePlatform {
    const api: Api
    var calls: seq<Call>

    constructor (api: Api)
      ensures this.api == api && calls == []
    {
      this.api := api;
      calls := [];
    }

    method GetComponentAccessToken(appid: string, secret: string, ticket: string)
      returns (r: Result<ComponentAccessToken>)
      modifies this
      ensures calls == old(calls) + [ComponentTokenCall(appid, secret, ticket)]
      ensures r == api.componentToken(appid, secret, ticket)
    {
      calls := calls + [ComponentTokenCall(appid, secret, ticket)];
      r := api.componentToken(appid, secret, ticket);
    }

    method CreatePreAuthCode(appid: string, token: string) returns (r: Result<PreAuthCode>)
      modifies this
      ensures calls == old(calls) + [PreAuthCodeCall(appid, token)]
      ensures r == api.preAuthCode(appid, token)
    {
      calls := calls + [PreAuthCodeCall(appid, token)];
      r := api.preAuthCode(appid, token);
    }

    method GetAuthorizationInfo(appid: string, code: string, token: string) returns (r: Result<Option<AuthorizationInfo>>)
      modifies this
      ensures calls == old(calls) + [AuthorizationInfoCall(appid, code, token)]
      ensures r == api.authorization(appid, code, token)
    {
      calls := calls + [AuthorizationInfoCall(appid, code, token)];
      r := api.authorization(appid, code, token);
    }

    method RefreshAuthorizerToken(appid: string, authorizer: string, refreshToken: string, token: string)
      returns (r: Result<AuthorizerToken>)
      modifies this
      ensures calls == old(calls) + [RefreshTokenCall(appid, authorizer, refreshToken, token)]
      ensures r == api.refreshToken(appid, authorizer, refreshToken, token)
    {
      calls := calls + [RefreshTokenCall(appid, authorizer, refreshToken, token)];
      r := api.refreshToken(appid, authorizer, refreshToken, token);
    }

    method GetAuthorizerInfo(appid: string, authorizer: string, token: string) returns (r: Result<AuthorizerInfo>)
      modifies this
      ensures calls == old(calls) + [AuthorizerInfoCall(appid, authorizer, token)]
      ensures r == api.authorizerInfo(appid, authorizer, token)
    {
      calls := calls + [AuthorizerInfoCall(appid, authorizer, token)];
      r := api.authorizerInfo(appid, authorizer, token);
    }

    method GetAuthorizerList(token: string, appid: string, offset: nat, count: nat)
      returns (r: Result<seq<AuthorizerInformation>>)
      modifies this
      ensures calls == old(calls) + [AuthorizerListCall(token, appid, offset, count)]
      ensures r == AuthorizerListPage(api, offset, count)
    {
      calls := calls + [AuthorizerListCall(token, appid, offset, count)];
      r := AuthorizerListPage(api, offset, count);
    }
  }
}
