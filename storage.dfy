/**
 * src/storage.go: the component storage that keeps the verify ticket, the
 * platform access token and the per-tenant authorizer tokens in a key-value
 * backend, under keys prefixed by the component appid, and the app-info store
 * interface.
 *
 * The backend values are bytes; JSON documents written by `marshalJSON` are
 * modelled as structured documents (`Json(doc)`) rather than as their text, and
 * `json.Unmarshal` as filling, from such a document, the fields it names.
 */
module Storage {
  import opened Errors
  import opened Access

  datatype JsonValue = JStr(str: string) | JInt(num: int)

  /** A JSON object: field name to value. */
  type Doc = map<string, JsonValue>

  /** What the backend holds under a key: raw bytes, or the bytes of a JSON document. */
  datatype Blob = Raw(bytes: string) | Json(doc: Doc)

  /** A stored value and the expiration it was written with (0: none). */
  datatype Entry = Entry(value: Blob, expiration: int)

  /** A snapshot of the key-value backend: its entries, and the keys on which reads and writes fail. */
  datatype Kv = Kv(entries: map<string, Entry>, readFaults: set<string>, writeFaults: set<string>)

  // ---------------------------------------------------------------------------
  // The backend contract (AccessStorage): an absent key reads as empty bytes.

  function KvGet(kv: Kv, key: string): Result<Blob>
  {
    if key in kv.readFaults then Err(StoreFault(key))
    else if key in kv.entries then Ok(kv.entries[key].value)
    else Ok(Raw(""))
  }

  function KvSet(kv: Kv, key: string, value: Blob, expiration: int): (r: (Option<Error>, Kv))
    ensures r.1 == kv.(entries := r.1.entries)
    ensures r.0.None? <==> key !in kv.writeFaults
    ensures r.0.None? ==> r.1.entries == kv.entries[key := Entry(value, expiration)]
    ensures r.0.Some? ==> r.1 == kv
  {
    if key in kv.writeFaults then (Some(StoreFault(key)), kv)
    else (None, kv.(entries := kv.entries[key := Entry(value, expiration)]))
  }

  // ---------------------------------------------------------------------------
  // The key scheme.

  const TicketKey := "ticket"
  const AccessTokenKey := "access_token"
  const AppAccessTokenKeyBase := "app_access_token_"

  /** Every key of one component starts with its appid and an underscore. */
  function KeyPrefix(component: string): string
  {
    component + "_"
  }

  function AppAccessTokenKey(appid: string): string
  {
    AppAccessTokenKeyBase + appid
  }

  /** The three kinds of key one component writes never coincide. */
  lemma KeysDistinct(prefix: string, appid: string)
    ensures prefix + TicketKey != prefix + AccessTokenKey
    ensures prefix + TicketKey != prefix + AppAccessTokenKey(appid)
    ensures prefix + AccessTokenKey != prefix + AppAccessTokenKey(appid)
  {
    assert |prefix + TicketKey| == |prefix| + 6;
    assert |prefix + AccessTokenKey| == |prefix| + 12;
    assert |prefix + AppAccessTokenKey(appid)| == |prefix| + 17 + |appid|;
  }

  /** Distinct tenants get distinct authorizer-token keys. */
  lemma {:induction false} AppAccessTokenKeyInjective(prefix: string, a: string, b: string)
    requires prefix + AppAccessTokenKey(a) == prefix + AppAccessTokenKey(b)
    ensures a == b
  {
    var n := |prefix| + |AppAccessTokenKeyBase|;
    assert a == (prefix + AppAccessTokenKey(a))[n..];
    assert b == (prefix + AppAccessTokenKey(b))[n..];
  }

  // ---------------------------------------------------------------------------
  // JSON encoding of the two records (field names are the Go field names).

  function MarshalExpireData(d: ExpireData): Doc
  {
    map["Value" := JStr(d.value), "ExpiredAt" := JInt(d.expiredAt)]
  }

  function MarshalAppAccessToken(t: AppAccessToken): Doc
  {
    map["AccessToken" := JStr(t.accessToken), "ExpireAt" := JInt(t.expireAt),
        "RefreshToken" := JStr(t.refreshToken)]
  }

  /** The value of a string field, `keep` when the document does not name it, None on a type mismatch. */
  function StrField(doc: Doc, name: string, keep: string): (r: Option<string>)
    ensures name !in doc ==> r == Some(keep)
    ensures name in doc && doc[name].JStr? ==> r == Some(doc[name].str)
    ensures name in doc && doc[name].JInt? ==> r == None
  {
    if name !in doc then Some(keep)
    else match doc[name]
      case JStr(s) => Some(s)
      case JInt(_) => None
  }

  function IntField(doc: Doc, name: string, keep: int): (r: Option<int>)
    ensures name !in doc ==> r == Some(keep)
    ensures name in doc && doc[name].JInt? ==> r == Some(doc[name].num)
    ensures name in doc && doc[name].JStr? ==> r == None
  {
    if name !in doc then Some(keep)
    else match doc[name]
      case JInt(n) => Some(n)
      case JStr(_) => None
  }

  /** json.Unmarshal into an ExpireData that already holds `into`. */
  function FillExpireData(doc: Doc, into: ExpireData): Option<ExpireData>
  {
    var v := StrField(doc, "Value", into.value);
    var e := IntField(doc, "ExpiredAt", into.expiredAt);
    if v.Some? && e.Some? then Some(ExpireData(v.value, e.value)) else None
  }

  /** json.Unmarshal into an AppAccessToken that already holds `into`. */
  function FillAppAccessToken(doc: Doc, into: AppAccessToken): Option<AppAccessToken>
  {
    var a := StrField(doc, "AccessToken", into.accessToken);
    var e := IntField(doc, "ExpireAt", into.expireAt);
    var r := StrField(doc, "RefreshToken", into.refreshToken);
    if a.Some? && e.Some? && r.Some? then Some(AppAccessToken(a.value, e.value, r.value)) else None
  }

  /** Decoding what was encoded gives the record back, whatever it was decoded into. */
  lemma ExpireDataRoundTrip(d: ExpireData, into: ExpireData)
    ensures FillExpireData(MarshalExpireData(d), into) == Some(d)
  {
  }

  lemma AppAccessTokenRoundTrip(t: AppAccessToken, into: AppAccessToken)
    ensures FillAppAccessToken(MarshalAppAccessToken(t), into) == Some(t)
  {
  }

  // ---------------------------------------------------------------------------
  // componentStorage's reads and writes, on a backend snapshot.

  /** unmarshalJSON's read: None when the key holds no bytes, which leaves the record at its zero value. */
  function LoadDoc(prefix: string, kv: Kv, key: string): (r: Result<Option<Doc>>)
    ensures r.Err? <==> (prefix + key in kv.readFaults ||
      (prefix + key in kv.entries && kv.entries[prefix + key].value.Raw? && kv.entries[prefix + key].value.bytes != ""))
    ensures prefix + key !in kv.readFaults && prefix + key !in kv.entries ==> r == Ok(None)
  {
    match KvGet(kv, prefix + key)
    case Err(e) => Err(e)
    case Ok(Raw(b)) => if b == "" then Ok(None) else Err(DecodeFault(prefix + key))
    case Ok(Json(doc)) => Ok(Some(doc))
  }

  /** GetVerifyTicket: the stored bytes; an absent ticket reads as the empty string. */
  function VerifyTicketIn(prefix: string, kv: Kv): (r: Result<string>)
    ensures prefix + TicketKey !in kv.readFaults && prefix + TicketKey !in kv.entries ==> r == Ok("")
  {
    match KvGet(kv, prefix + TicketKey)
    case Err(e) => Err(e)
    case Ok(Raw(b)) => Ok(b)
    case Ok(Json(_)) => Err(DecodeFault(prefix + TicketKey))
  }

  /** GetAccessToken: nil when nothing is stored or the stored Value is empty. */
  function AccessTokenIn(prefix: string, kv: Kv): (r: Result<Option<ExpireData>>)
    ensures r.Ok? && r.value.Some? ==> r.value.value.value != ""
    ensures prefix + AccessTokenKey !in kv.readFaults && prefix + AccessTokenKey !in kv.entries ==> r == Ok(None)
  {
    match LoadDoc(prefix, kv, AccessTokenKey)
    case Err(e) => Err(e)
    case Ok(doc) =>
      var filled := if doc.None? then Some(ZeroExpireData) else FillExpireData(doc.value, ZeroExpireData);
      if filled.None? then Err(DecodeFault(prefix + AccessTokenKey))
      else if filled.value.value != "" then Ok(Some(filled.value))
      else Ok(None)
  }

  /** GetAppAccessToken: nil whenever the refresh token is empty, even if an access token is present. */
  function AppAccessTokenIn(prefix: string, kv: Kv, appid: string): (r: Result<Option<AppAccessToken>>)
    ensures r.Ok? && r.value.Some? ==> r.value.value.refreshToken != ""
    ensures prefix + AppAccessTokenKey(appid) !in kv.readFaults && prefix + AppAccessTokenKey(appid) !in kv.entries ==> r == Ok(None)
  {
    match LoadDoc(prefix, kv, AppAccessTokenKey(appid))
    case Err(e) => Err(e)
    case Ok(doc) =>
      var filled := if doc.None? then Some(ZeroAppAccessToken) else FillAppAccessToken(doc.value, ZeroAppAccessToken);
      if filled.None? then Err(DecodeFault(prefix + AppAccessTokenKey(appid)))
      else if filled.value.refreshToken != "" then Ok(Some(filled.value))
      else Ok(None)
  }

  /** SaveVerifyTicket: raw bytes, no expiration. */
  function SaveVerifyTicketIn(prefix: string, kv: Kv, ticket: string): (Option<Error>, Kv)
  {
    KvSet(kv, prefix + TicketKey, Raw(ticket), 0)
  }

  /** SaveAccessToken: a JSON document that the backend keeps until the token's expiry instant. */
  function SaveAccessTokenIn(prefix: string, kv: Kv, data: ExpireData, wallNow: int): (Option<Error>, Kv)
  {
    KvSet(kv, prefix + AccessTokenKey, Json(MarshalExpireData(data)), data.expiredAt - wallNow)
  }

  /** SaveAppAccessToken: a JSON document with no expiration. */
  function SaveAppAccessTokenIn(prefix: string, kv: Kv, appid: string, token: AppAccessToken): (Option<Error>, Kv)
  {
    KvSet(kv, prefix + AppAccessTokenKey(appid), Json(MarshalAppAccessToken(token)), 0)
  }

  // ---------------------------------------------------------------------------
  // Properties of the component storage.

  /** The ticket and the authorizer tokens are stored without expiration; the platform token with TTL ExpiredAt - now. */
  lemma StoredExpirations(prefix: string, kv: Kv, ticket: string, data: ExpireData, wallNow: int,
                          appid: string, token: AppAccessToken)
    ensures var w := SaveVerifyTicketIn(prefix, kv, ticket);
      w.0.None? ==> w.1.entries[prefix + TicketKey] == Entry(Raw(ticket), 0)
    ensures var w := SaveAccessTokenIn(prefix, kv, data, wallNow);
      w.0.None? ==> w.1.entries[prefix + AccessTokenKey].expiration == data.expiredAt - wallNow
    ensures var w := SaveAppAccessTokenIn(prefix, kv, appid, token);
      w.0.None? ==> w.1.entries[prefix + AppAccessTokenKey(appid)].expiration == 0
  {
  }

  /** On a backend that can read the key back, a saved verify ticket reads back unchanged. */
  lemma VerifyTicketRoundTrip(prefix: string, kv: Kv, ticket: string)
    requires prefix + TicketKey !in kv.readFaults
    ensures var w := SaveVerifyTicketIn(prefix, kv, ticket);
      w.0.None? ==> VerifyTicketIn(prefix, w.1) == Ok(ticket)
  {
  }

  /** A saved platform token reads back unchanged unless its Value is empty (then as nil). */
  lemma AccessTokenRoundTrip(prefix: string, kv: Kv, data: ExpireData, wallNow: int)
    requires prefix + AccessTokenKey !in kv.readFaults
    ensures var w := SaveAccessTokenIn(prefix, kv, data, wallNow);
      w.0.None? ==> AccessTokenIn(prefix, w.1) == Ok(if data.value != "" then Some(data) else None)
  {
    ExpireDataRoundTrip(data, ZeroExpireData);
  }

  /** A saved authorizer token reads back unchanged unless its refresh token is empty (then as nil). */
  lemma StoredAppAccessTokenRoundTrip(prefix: string, kv: Kv, appid: string, token: AppAccessToken)
    requires prefix + AppAccessTokenKey(appid) !in kv.readFaults
    ensures var w := SaveAppAccessTokenIn(prefix, kv, appid, token);
      w.0.None? ==> AppAccessTokenIn(prefix, w.1, appid) == Ok(if token.refreshToken != "" then Some(token) else None)
  {
    AppAccessTokenRoundTrip(token, ZeroAppAccessToken);
  }

  /** Saving one tenant's token changes no other tenant's token, nor the ticket or the platform token. */
  lemma SaveAppAccessTokenFrame(prefix: string, kv: Kv, appid: string, token: AppAccessToken, other: string)
    requires other != appid
    ensures var w := SaveAppAccessTokenIn(prefix, kv, appid, token);
      && AppAccessTokenIn(prefix, w.1, other) == AppAccessTokenIn(prefix, kv, other)
      && VerifyTicketIn(prefix, w.1) == VerifyTicketIn(prefix, kv)
      && AccessTokenIn(prefix, w.1) == AccessTokenIn(prefix, kv)
  {
    KeysDistinct(prefix, appid);
    if prefix + AppAccessTokenKey(appid) == prefix + AppAccessTokenKey(other) {
      AppAccessTokenKeyInjective(prefix, appid, other);
    }
  }

  /** A failed write leaves the backend as it was. */
  lemma FailedSaveChangesNothing(prefix: string, kv: Kv, appid: string, token: AppAccessToken)
    requires prefix + AppAccessTokenKey(appid) in kv.writeFaults
    ensures SaveAppAccessTokenIn(prefix, kv, appid, token) == (Some(StoreFault(prefix + AppAccessTokenKey(appid))), kv)
  {
  }

  // ---------------------------------------------------------------------------
  // The objects.

  /** An in-memory key-value backend (the AccessStorage interface). */
  class AccessStorage {
    var entries: map<string, Entry>
    const readFaults: set<string>
    const writeFaults: set<string>

    constructor (readFaults: set<string>, writeFaults: set<string>)
      ensures entries == map[] && this.readFaults == readFaults && this.writeFaults == writeFaults
    {
      entries := map[];
      this.readFaults := readFaults;
      this.writeFaults := writeFaults;
    }

    function Snapshot(): Kv
      reads this
    {
      Kv(entries, readFaults, writeFaults)
    }

    method Set(key: string, value: Blob, expiration: int) returns (err: Option<Error>)
      modifies this
      ensures (err, Snapshot()) == KvSet(old(Snapshot()), key, value, expiration)
    {
      if key in writeFaults {
        err := Some(StoreFault(key));
      } else {
        entries := entries[key := Entry(value, expiration)];
        err := None;
      }
    }

    function Get(key: string): Result<Blob>
      reads this
    {
      KvGet(Snapshot(), key)
    }
  }

  /** componentStorage: a key prefix and the backend it writes. */
  class ComponentStorage {
    const keyPrefix: string
    const client: AccessStorage

    constructor (appid: string, storage: AccessStorage)
      ensures keyPrefix == KeyPrefix(appid) && client == storage
    {
      keyPrefix := KeyPrefix(appid);
      client := storage;
    }

    method SaveVerifyTicket(ticket: string) returns (err: Option<Error>)
      modifies client
      ensures (err, client.Snapshot()) == SaveVerifyTicketIn(keyPrefix, old(client.Snapshot()), ticket)
    {
      err := Set(TicketKey, Raw(ticket), 0);
    }

    function GetVerifyTicket(): (r: Result<string>)
      reads client
      ensures r == VerifyTicketIn(keyPrefix, client.Snapshot())
    {
      match Get(TicketKey)
      case Err(e) => Err(e)
      case Ok(Raw(b)) => Ok(b)
      case Ok(Json(_)) => Err(DecodeFault(keyPrefix + TicketKey))
    }

    method SaveAccessToken(data: ExpireData, wallNow: int) returns (err: Option<Error>)
      modifies client
      ensures (err, client.Snapshot()) == SaveAccessTokenIn(keyPrefix, old(client.Snapshot()), data, wallNow)
    {
      err := MarshalJson(AccessTokenKey, MarshalExpireData(data), data.expiredAt - wallNow);
    }

    function GetAccessToken(): (r: Result<Option<ExpireData>>)
      reads client
      ensures r == AccessTokenIn(keyPrefix, client.Snapshot())
    {
      match UnmarshalJson(AccessTokenKey)
      case Err(e) => Err(e)
      case Ok(doc) =>
        var filled := if doc.None? then Some(ZeroExpireData) else FillExpireData(doc.value, ZeroExpireData);
        if filled.None? then Err(DecodeFault(keyPrefix + AccessTokenKey))
        else if filled.value.value != "" then Ok(Some(filled.value))
        else Ok(None)
    }

    method SaveAppAccessToken(appid: string, token: AppAccessToken) returns (err: Option<Error>)
      modifies client
      ensures (err, client.Snapshot()) == SaveAppAccessTokenIn(keyPrefix, old(client.Snapshot()), appid, token)
    {
      err := MarshalJson(AppAccessTokenKey(appid), MarshalAppAccessToken(token), 0);
    }

    function GetAppAccessToken(appid: string): (r: Result<Option<AppAccessToken>>)
      reads client
      ensures r == AppAccessTokenIn(keyPrefix, client.Snapshot(), appid)
    {
      match UnmarshalJson(AppAccessTokenKey(appid))
      case Err(e) => Err(e)
      case Ok(doc) =>
        var filled := if doc.None? then Some(ZeroAppAccessToken) else FillAppAccessToken(doc.value, ZeroAppAccessToken);
        if filled.None? then Err(DecodeFault(keyPrefix + AppAccessTokenKey(appid)))
        else if filled.value.refreshToken != "" then Ok(Some(filled.value))
        else Ok(None)
    }

    /** set: every key is written under the component's prefix. */
    method Set(key: string, value: Blob, expiration: int) returns (err: Option<Error>)
      modifies client
      ensures (err, client.Snapshot()) == KvSet(old(client.Snapshot()), keyPrefix + key, value, expiration)
    {
      err := client.Set(keyPrefix + key, value, expiration);
    }

    function Get(key: string): (r: Result<Blob>)
      reads client
      ensures r == KvGet(client.Snapshot(), keyPrefix + key)
    {
      client.Get(keyPrefix + key)
    }

    method MarshalJson(key: string, doc: Doc, expiration: int) returns (err: Option<Error>)
      modifies client
      ensures (err, client.Snapshot()) == KvSet(old(client.Snapshot()), keyPrefix + key, Json(doc), expiration)
    {
      err := Set(key, Json(doc), expiration);
    }

    function UnmarshalJson(key: string): (r: Result<Option<Doc>>)
      reads client
      ensures r == LoadDoc(keyPrefix, client.Snapshot(), key)
    {
      match Get(key)
      case Err(e) => Err(e)
      case Ok(Raw(b)) => if b == "" then Ok(None) else Err(DecodeFault(keyPrefix + key))
      case Ok(Json(doc)) => Ok(Some(doc))
    }
  }

  // ---------------------------------------------------------------------------
  // The app-info store (the AppStorage interface), as an in-memory store.

  /** Descriptive metadata of a tenant (open_platform.AuthorizerInfo, without BusinessInfo). */
  datatype AuthorizerInfo = AuthorizerInfo(
    nickName: string, headImg: string, serviceTypeInfo: int, verifyTypeInfo: int,
    userName: string, principalName: string, alias: string, qrcodeUrl: string,
    idc: int, signature: string)

  /**
   * A snapshot of the app-info store: the stored infos, the tenants on which it
   * fails, whether a sweep fails, and the arguments of every DelAppInfoNotIn.
   */
  datatype Apps = Apps(infos: map<string, AuthorizerInfo>, failing: set<string>, sweepFails: bool,
                       sweeps: seq<seq<string>>)

  function SaveAppInfoIn(apps: Apps, appid: string, info: AuthorizerInfo): (r: (Option<Error>, Apps))
    ensures r.0.None? ==> r.1.infos == apps.infos[appid := info]
    ensures r.0.Some? ==> r.1 == apps
    ensures r.1 == apps.(infos := r.1.infos)
  {
    if appid in apps.failing then (Some(AppStoreFault(appid)), apps)
    else (None, apps.(infos := apps.infos[appid := info]))
  }

  /** GetAppInfo: nil when the store holds nothing for the tenant. */
  function AppInfoIn(apps: Apps, appid: string): (r: Result<Option<AuthorizerInfo>>)
    ensures appid !in apps.failing ==> r == Ok(if appid in apps.infos then Some(apps.infos[appid]) else None)
  {
    if appid in apps.failing then Err(AppStoreFault(appid))
    else if appid in apps.infos then Ok(Some(apps.infos[appid]))
    else Ok(None)
  }

  function DelAppInfoIn(apps: Apps, appid: string): (r: (Option<Error>, Apps))
    ensures r.0.None? <==> appid !in apps.failing
    ensures r.0.None? ==> r.1 == apps.(infos := r.1.infos) && r.1.infos == apps.infos - {appid}
    ensures r.0.Some? ==> r.1 == apps
  {
    if appid in apps.failing then (Some(AppStoreFault(appid)), apps)
    else (None, apps.(infos := map k | k in apps.infos && k != appid :: apps.infos[k]))
  }

  /** DelAppInfoNotIn: keeps exactly the tenants named in `appids`. */
  function DelAppInfoNotInIn(apps: Apps, appids: seq<string>): (r: (Option<Error>, Apps))
    ensures r.1.sweeps == apps.sweeps + [appids]
    ensures r.0.None? <==> !apps.sweepFails
    ensures r.1 == apps.(infos := r.1.infos, sweeps := r.1.sweeps)
    ensures r.0.None? ==> r.1.infos.Keys == apps.infos.Keys * set a | a in appids
    ensures r.0.None? ==> forall k :: k in r.1.infos ==> r.1.infos[k] == apps.infos[k]
    ensures r.0.Some? ==> r.1.infos == apps.infos
  {
    if apps.sweepFails then (Some(AppStoreFault("")), apps.(sweeps := apps.sweeps + [appids]))
    else (None, apps.(infos := map k | k in apps.infos && k in appids :: apps.infos[k], sweeps := apps.sweeps + [appids]))
  }

  class AppStore {
    var infos: map<string, AuthorizerInfo>
    var sweeps: seq<seq<string>>
    const failing: set<string>
    const sweepFails: bool

    constructor (failing: set<string>, sweepFails: bool)
      ensures infos == map[] && sweeps == [] && this.failing == failing && this.sweepFails == sweepFails
    {
      infos := map[];
      sweeps := [];
      this.failing := failing;
      this.sweepFails := sweepFails;
    }

    function Snapshot(): Apps
      reads this
    {
      Apps(infos, failing, sweepFails, sweeps)
    }

    method SaveAppInfo(appid: string, info: AuthorizerInfo) returns (err: Option<Error>)
      modifies this
      ensures (err, Snapshot()) == SaveAppInfoIn(old(Snapshot()), appid, info)
    {
      if appid in failing {
        err := Some(AppStoreFault(appid));
      } else {
        infos := infos[appid := info];
        err := None;
      }
    }

    function GetAppInfo(appid: string): Result<Option<AuthorizerInfo>>
      reads this
    {
      AppInfoIn(Snapshot(), appid)
    }

    method DelAppInfo(appid: string) returns (err: Option<Error>)
      modifies this
      ensures (err, Snapshot()) == DelAppInfoIn(old(Snapshot()), appid)
    {
      if appid in failing {
        err := Some(AppStoreFault(appid));
      } else {
        infos := map k | k in infos && k != appid :: infos[k];
        err := None;
      }
    }

    method DelAppInfoNotIn(appids: seq<string>) returns (err: Option<Error>)
      modifies this
      ensures (err, Snapshot()) == DelAppInfoNotInIn(old(Snapshot()), appids)
    {
      sweeps := sweeps + [appids];
      if sweepFails {
        err := Some(AppStoreFault(""));
      } else {
        infos := map k | k in infos && k in appids :: infos[k];
        err := None;
      }
    }
  }
}
