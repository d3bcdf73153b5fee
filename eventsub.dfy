/**
 * The EventSub section of the Helix client: every operation first validates
 * its arguments, throwing `BadParameterException` (here a `Failure`), and
 * otherwise builds the request it hands to the HTTP layer. The HTTP layer is
 * not modelled: a built `Request` is what would be sent, and the status code a
 * delete receives is an input.
 */
module EventSub {
  import opened Wrappers
  import opened Text
  import opened Http

  const SubscriptionsPath := "/eventsub/subscriptions"
  const ConduitsPath := "/eventsub/conduits"
  const ShardsPath := "/eventsub/conduits/shards"

  datatype Verb = Get | Post | Patch | Delete

  /** A request handed to the HTTP layer; the body is the object that
      would be serialised to JSON. */
  datatype Request = Request(verb: Verb, path: string, params: seq<Param>, body: Option<Body>)

  datatype Body =
    | SubscriptionBody(eventType: string, version: string, condition: map<string, string>, transport: Transport)
    | CreateConduitsBody(create: CreateConduitsRequest)
    | UpdateConduitsBody(update: UpdateConduitsRequest)
    | UpdateShardsBody(shards: UpdateConduitShardsRequest)

  // ===== Subscriptions =====================================================

  /** `EventSubTransportMethod`. */
  datatype TransportMethod = Webhook | Websocket | Conduit

  /** The enum member's name, as `ToString()` spells it. */
  function MethodName(m: TransportMethod): string {
    match m
    case Webhook => "Webhook"
    case Websocket => "Websocket"
    case Conduit => "Conduit"
  }

  /** The `transport` object of a subscription body. Each transport method has
      its own shape, holding the method name and that method's fields only. */
  datatype Transport =
    | WebhookTransport(methodName: string, callback: string, secret: string)
    | WebsocketTransport(methodName: string, sessionId: string)
    | ConduitTransport(methodName: string, conduitId: string)

  /** The JSON property names a transport object serialises to. */
  function TransportKeys(t: Transport): set<string> {
    match t
    case WebhookTransport(_, _, _) => {"method", "callback", "secret"}
    case WebsocketTransport(_, _) => {"method", "session_id"}
    case ConduitTransport(_, _) => {"method", "conduit_id"}
  }

  /** The properties that belong to one transport method alone. */
  function OwnKeys(m: TransportMethod): set<string> {
    match m
    case Webhook => {"callback", "secret"}
    case Websocket => {"session_id"}
    case Conduit => {"conduit_id"}
  }

  const TypeMissing := "type must be set"
  const VersionMissing := "version must be set"
  const ConditionMissing := "condition must be set"
  const CallbackMissing := "webhookCallback must be set"
  const SecretInvalid := "webhookSecret must be set, and be between 10 (inclusive) and 100 (inclusive)"
  const SessionIdMissing := "websocketSessionId must be set"
  const ConduitIdMissing := "conduitId must be set"

  /** The `switch (method)` of `CreateEventSubSubscriptionAsync`: checks the
      arguments the chosen method needs and builds its transport object. */
  function BuildTransport(m: TransportMethod, websocketSessionId: Option<string>, webhookCallback: Option<string>,
                          webhookSecret: Option<string>, conduitId: Option<string>): (r: Result<Transport, Error>)
    ensures m == Webhook ==>
      (r.Success? <==> !IsNullOrWhiteSpace(webhookCallback) && webhookSecret.Some? && 10 <= Utf16Length(webhookSecret.value) <= 100)
    ensures m == Websocket ==> (r.Success? <==> !IsNullOrWhiteSpace(websocketSessionId))
    ensures m == Conduit ==> (r.Success? <==> !IsNullOrWhiteSpace(conduitId))
    ensures r.Failure? ==> r.error == BadParameter(
      match m
      case Webhook => if IsNullOrWhiteSpace(webhookCallback) then CallbackMissing else SecretInvalid
      case Websocket => SessionIdMissing
      case Conduit => ConduitIdMissing)
    ensures r.Success? ==> r.value.methodName == Lower(MethodName(m)) && TransportKeys(r.value) == {"method"} + OwnKeys(m)
    ensures r.Success? && m == Webhook ==> r.value.WebhookTransport? && r.value.callback == webhookCallback.value && r.value.secret == webhookSecret.value
    ensures r.Success? && m == Websocket ==> r.value.WebsocketTransport? && r.value.sessionId == websocketSessionId.value
    ensures r.Success? && m == Conduit ==> r.value.ConduitTransport? && r.value.conduitId == conduitId.value
  {
    var name := Lower(MethodName(m));
    match m
    case Webhook =>
      if IsNullOrWhiteSpace(webhookCallback) then Failure(BadParameter(CallbackMissing))
      else if webhookSecret.None? || Utf16Length(webhookSecret.value) < 10 || Utf16Length(webhookSecret.value) > 100 then Failure(BadParameter(SecretInvalid))
      else Success(WebhookTransport(name, webhookCallback.value, webhookSecret.value))
    case Websocket =>
      if IsNullOrWhiteSpace(websocketSessionId) then Failure(BadParameter(SessionIdMissing))
      else Success(WebsocketTransport(name, websocketSessionId.value))
    case Conduit =>
      if IsNullOrWhiteSpace(conduitId) then Failure(BadParameter(ConduitIdMissing))
      else Success(ConduitTransport(name, conduitId.value))
  }

  /** `CreateEventSubSubscriptionAsync`: the request it sends, or the
      `BadParameterException` it throws first. */
  function CreateSubscription(eventType: Option<string>, version: Option<string>, condition: Option<map<string, string>>,
                              m: TransportMethod, websocketSessionId: Option<string>, webhookCallback: Option<string>,
                              webhookSecret: Option<string>, conduitId: Option<string>): (r: Result<Request, Error>)
    ensures IsNullOrEmpty(eventType) ==> r == Failure(BadParameter(TypeMissing))
    ensures !IsNullOrEmpty(eventType) && IsNullOrEmpty(version) ==> r == Failure(BadParameter(VersionMissing))
    ensures !IsNullOrEmpty(eventType) && !IsNullOrEmpty(version) && (condition.None? || |condition.value| == 0) ==>
      r == Failure(BadParameter(ConditionMissing))
    ensures r.Success? <==>
      !IsNullOrEmpty(eventType) && !IsNullOrEmpty(version) && condition.Some? && |condition.value| > 0
      && BuildTransport(m, websocketSessionId, webhookCallback, webhookSecret, conduitId).Success?
    ensures (!IsNullOrEmpty(eventType) && !IsNullOrEmpty(version) && condition.Some? && |condition.value| > 0
             && BuildTransport(m, websocketSessionId, webhookCallback, webhookSecret, conduitId).Failure?) ==>
      r == Failure(BuildTransport(m, websocketSessionId, webhookCallback, webhookSecret, conduitId).error)
    ensures r.Success? ==>
      r.value.verb == Post && r.value.path == SubscriptionsPath && r.value.params == []
      && r.value.body.Some? && r.value.body.value.SubscriptionBody?
      && r.value.body.value.eventType == eventType.value
      && r.value.body.value.version == version.value
      && r.value.body.value.condition == condition.value
      && r.value.body.value.transport == BuildTransport(m, websocketSessionId, webhookCallback, webhookSecret, conduitId).value
  {
    if IsNullOrEmpty(eventType) then Failure(BadParameter(TypeMissing))
    else if IsNullOrEmpty(version) then Failure(BadParameter(VersionMissing))
    else if condition.None? || |condition.value| == 0 then Failure(BadParameter(ConditionMissing))
    else
      match BuildTransport(m, websocketSessionId, webhookCallback, webhookSecret, conduitId)
      case Failure(e) => Failure(e)
      case Success(t) => Success(Request(Post, SubscriptionsPath, [], Some(SubscriptionBody(eventType.value, version.value, condition.value, t))))
  }

  /** The transport method names the subscription body carries. */
  lemma MethodNameLowered(m: TransportMethod)
    ensures Lower(MethodName(m)) == match m
      case Webhook => "webhook"
      case Websocket => "websocket"
      case Conduit => "conduit"
  {
    match m
    case Webhook => LowerCapitalised("Webhook", "webhook");
    case Websocket => LowerCapitalised("Websocket", "websocket");
    case Conduit => LowerCapitalised("Conduit", "conduit");
  }

  lemma LowerCapitalised(s: string, t: string)
    requires |s| == |t| > 0 && 'A' <= s[0] <= 'Z' && t[0] == (s[0] as int + 32) as char
    requires forall i :: 1 <= i < |s| ==> !('A' <= s[i] <= 'Z') && t[i] == s[i]
    ensures Lower(s) == t
  {
  }

  /** A webhook secret of 10 or 100 UTF-16 code units is accepted, one of 9 or
      101 is not; the callback and the secret are the only arguments that matter. */
  lemma WebhookSecretBoundaries(callback: Option<string>, secret: string, ws: Option<string>, cid: Option<string>)
    requires !IsNullOrWhiteSpace(callback)
    ensures Utf16Length(secret) == 10 || Utf16Length(secret) == 100 ==> BuildTransport(Webhook, ws, callback, Some(secret), cid).Success?
    ensures Utf16Length(secret) == 9 || Utf16Length(secret) == 101 ==>
      BuildTransport(Webhook, ws, callback, Some(secret), cid) == Failure(BadParameter(SecretInvalid))
    ensures BuildTransport(Webhook, ws, callback, None, cid) == Failure(BadParameter(SecretInvalid))
  {
  }

  /** The bound is on code units, not characters: five U+1F600 characters
      make a secret of length 10, which is accepted, and a secret of 60 such
      characters is rejected although it has fewer than 100 characters. */
  lemma SurrogatePairsCountTwice(callback: Option<string>, ws: Option<string>, cid: Option<string>)
    requires !IsNullOrWhiteSpace(callback)
    ensures BuildTransport(Webhook, ws, callback, Some(seq(5, _ => '\U{1F600}')), cid).Success?
    ensures BuildTransport(Webhook, ws, callback, Some(seq(60, _ => '\U{1F600}')), cid) == Failure(BadParameter(SecretInvalid))
  {
    var five := seq(5, _ => '\U{1F600}');
    var sixty := seq(60, _ => '\U{1F600}');
    assert Utf16Length(five) == 10;
    assert Utf16Length(sixty) == 120;
  }

  /** The arguments of the other transport methods are ignored. */
  lemma OtherArgumentsIgnored(m: TransportMethod, ws: Option<string>, cb: Option<string>, sec: Option<string>, cid: Option<string>,
                              ws': Option<string>, cb': Option<string>, sec': Option<string>, cid': Option<string>)
    ensures m == Webhook && cb == cb' && sec == sec' ==> BuildTransport(m, ws, cb, sec, cid) == BuildTransport(m, ws', cb', sec', cid')
    ensures m == Websocket && ws == ws' ==> BuildTransport(m, ws, cb, sec, cid) == BuildTransport(m, ws', cb', sec', cid')
    ensures m == Conduit && cid == cid' ==> BuildTransport(m, ws, cb, sec, cid) == BuildTransport(m, ws', cb', sec', cid')
  {
  }

  /** A built transport object never carries a property of another method. */
  lemma {:induction false} NoFieldsOfOtherMethods(m: TransportMethod, ws: Option<string>, cb: Option<string>,
                                                  sec: Option<string>, cid: Option<string>, other: TransportMethod)
    requires BuildTransport(m, ws, cb, sec, cid).Success? && other != m
    ensures TransportKeys(BuildTransport(m, ws, cb, sec, cid).value) !! OwnKeys(other)
  {
    var t := BuildTransport(m, ws, cb, sec, cid).value;
    assert TransportKeys(t) == {"method"} + OwnKeys(m);
    assert "method" !in OwnKeys(other);
    match m
    case Webhook =>
    case Websocket =>
    case Conduit =>
  }

  // ===== Listing and deleting subscriptions ==============================

  /** The query parameters `GetEventSubSubscriptionsAsync` may send, in order. */
  const SubscriptionFilters := ["status", "type", "user_id", "after"]

  /** A filter that is sent only when it is not null or white space. */
  lemma NonBlankParam(key: string, s: Option<string>)
    ensures Optional(key, NonBlank(s)) == if IsNullOrWhiteSpace(s) then [] else [Param(key, s.value)]
  {
  }

  /** The listing filters as sent: each one that is not null or white space,
      in the order of `SubscriptionFilters`. */
  function SubscriptionParams(status: Option<string>, eventType: Option<string>, userId: Option<string>,
                              after: Option<string>): seq<Param> {
    Optional("status", NonBlank(status)) + Optional("type", NonBlank(eventType))
    + Optional("user_id", NonBlank(userId)) + Optional("after", NonBlank(after))
  }

  /** The listing filters carry exactly the filters that are set, keys in
      order, each with its value. */
  lemma SubscriptionParamsCarried(status: Option<string>, eventType: Option<string>, userId: Option<string>,
                                  after: Option<string>)
    ensures Carries(SubscriptionParams(status, eventType, userId, after), SubscriptionFilters,
                    [NonBlank(status), NonBlank(eventType), NonBlank(userId), NonBlank(after)])
  {
    FiltersDistinct();
    CarriesFour(SubscriptionFilters, [NonBlank(status), NonBlank(eventType), NonBlank(userId), NonBlank(after)]);
  }

  /** `GetEventSubSubscriptionsAsync`: each filter that is not null or white
      space becomes a query parameter, in a fixed order. */
  method GetSubscriptions(status: Option<string>, eventType: Option<string>, userId: Option<string>, after: Option<string>)
    returns (r: Request)
    ensures r.verb == Get && r.path == SubscriptionsPath && r.body.None?
    ensures r.params == SubscriptionParams(status, eventType, userId, after)
  {
    var getParams: seq<Param> := [];
    if !IsNullOrWhiteSpace(status) {
      getParams := getParams + [Param("status", status.value)];
    }
    ghost var sent := getParams;
    assert sent == Optional("status", NonBlank(status)) by { NonBlankParam("status", status); }
    if !IsNullOrWhiteSpace(eventType) {
      getParams := getParams + [Param("type", eventType.value)];
    }
    assert getParams == sent + Optional("type", NonBlank(eventType)) by { NonBlankParam("type", eventType); }
    sent := getParams;
    if !IsNullOrWhiteSpace(userId) {
      getParams := getParams + [Param("user_id", userId.value)];
    }
    assert getParams == sent + Optional("user_id", NonBlank(userId)) by { NonBlankParam("user_id", userId); }
    sent := getParams;
    if !IsNullOrWhiteSpace(after) {
      getParams := getParams + [Param("after", after.value)];
    }
    assert getParams == sent + Optional("after", NonBlank(after)) by { NonBlankParam("after", after); }
    r := Request(Get, SubscriptionsPath, getParams, None);
  }

  lemma FiltersDistinct()
    ensures Distinct(SubscriptionFilters) && Distinct(ShardFilters)
  {
  }

  /** `DeleteEventSubSubscriptionAsync`: the request it sends, and its answer
      for the status code the send returns. */
  function DeleteSubscription(id: string, status: int): (r: (Request, bool))
    ensures r.0.verb == Delete && r.0.path == SubscriptionsPath && r.0.params == [Param("id", id)] && r.0.body.None?
    ensures r.1 <==> status == StatusNoContent
  {
    (Request(Delete, SubscriptionsPath, [Param("id", id)], None), status == StatusNoContent)
  }

  // ===== Conduits ==========================================================

  /** `CreateConduitsRequest`: the field the client reads. */
  datatype CreateConduitsRequest = CreateConduitsRequest(shardCount: int)

  /** `UpdateConduitsRequest`: the conduit and its new shard count. */
  datatype UpdateConduitsRequest = UpdateConduitsRequest(id: string, shardCount: int)

  const MaxShardCount := 20000
  const ShardCountInvalid := "request.ShardCount must be greater than 0 and less or equal than 20000"

  /** `CreateConduitsAsync`. */
  function CreateConduits(request: CreateConduitsRequest): (r: Result<Request, Error>)
    ensures r.Success? <==> 1 <= request.shardCount <= 20000
    ensures r.Failure? ==> r.error == BadParameter(ShardCountInvalid)
    ensures r.Success? ==> r.value == Request(Post, ConduitsPath, [], Some(CreateConduitsBody(request)))
  {
    if request.shardCount <= 0 || request.shardCount > MaxShardCount then Failure(BadParameter(ShardCountInvalid))
    else Success(Request(Post, ConduitsPath, [], Some(CreateConduitsBody(request))))
  }

  /** `UpdateConduitsAsync`. */
  function UpdateConduits(request: UpdateConduitsRequest): (r: Result<Request, Error>)
    ensures r.Success? <==> 1 <= request.shardCount <= 20000
    ensures r.Failure? ==> r.error == BadParameter(ShardCountInvalid)
    ensures r.Success? ==> r.value == Request(Patch, ConduitsPath, [], Some(UpdateConduitsBody(request)))
  {
    if request.shardCount <= 0 || request.shardCount > MaxShardCount then Failure(BadParameter(ShardCountInvalid))
    else Success(Request(Patch, ConduitsPath, [], Some(UpdateConduitsBody(request))))
  }

  lemma ShardCountBoundaries(id: string)
    ensures CreateConduits(CreateConduitsRequest(0)).Failure? && CreateConduits(CreateConduitsRequest(20001)).Failure?
    ensures CreateConduits(CreateConduitsRequest(1)).Success? && CreateConduits(CreateConduitsRequest(20000)).Success?
    ensures UpdateConduits(UpdateConduitsRequest(id, 0)).Failure? && UpdateConduits(UpdateConduitsRequest(id, 20001)).Failure?
    ensures UpdateConduits(UpdateConduitsRequest(id, 1)).Success? && UpdateConduits(UpdateConduitsRequest(id, 20000)).Success?
  {
  }

  /** `DeleteConduitAsync`: the request it sends, and its answer for the status
      code the send returns. */
  function DeleteConduit(id: string, status: int): (r: (Request, bool))
    ensures r.0.verb == Delete && r.0.path == ConduitsPath && r.0.params == [Param("id", id)] && r.0.body.None?
    ensures r.1 <==> status == StatusNoContent
  {
    (Request(Delete, ConduitsPath, [Param("id", id)], None), status == StatusNoContent)
  }

  /** The optional query parameters of `GetConduitShardsAsync`, in order. */
  const ShardFilters := ["status", "after"]

  /** `GetConduitShardsAsync`: `conduit_id` first, then each filter that is
      not null or white space. */
  method GetConduitShards(conduitId: string, status: Option<string>, after: Option<string>) returns (r: Request)
    ensures r.verb == Get && r.path == ShardsPath && r.body.None?
    ensures |r.params| >= 1 && r.params[0] == Param("conduit_id", conduitId)
    ensures r.params[1..] == Optional("status", NonBlank(status)) + Optional("after", NonBlank(after))
    ensures Carries(r.params[1..], ShardFilters, [NonBlank(status), NonBlank(after)])
  {
    var getParams := [Param("conduit_id", conduitId)];
    if !IsNullOrWhiteSpace(status) {
      getParams := getParams + [Param("status", status.value)];
    }
    if !IsNullOrWhiteSpace(after) {
      getParams := getParams + [Param("after", after.value)];
    }
    r := Request(Get, ShardsPath, getParams, None);
    assert getParams[1..] == Optional("status", NonBlank(status)) + Optional("after", NonBlank(after));
    FiltersDistinct();
    CarriesTwo(ShardFilters, [NonBlank(status), NonBlank(after)]);
  }

  // ===== Shard batch update ================================================

  /** A shard's transport in `UpdateConduitShardsRequest`: the properties the
      client checks, each possibly null. */
  datatype ShardTransport = ShardTransport(methodName: Option<string>, callback: Option<string>,
                                           secret: Option<string>, sessionId: Option<string>)
  datatype Shard = Shard(id: string, transport: ShardTransport)
  datatype UpdateConduitShardsRequest = UpdateConduitShardsRequest(conduitId: string, shards: seq<Shard>)

  const ValidMethods := ["webhook", "websocket"]
  const SecretMinLength := 10
  const SecretMaxLength := 100
  const ShardMethodInvalid := "request.Shards.Transport.Method valid values: webhook, websocket"
  const ShardSecretInvalid := "request.Shards.Transport.Secret must be greater than or equal to 10 and less than or equal to 100"

  /** `validMethods.Contains(method)`: an ordinal, case-sensitive match. */
  predicate MethodAccepted(m: Option<string>) {
    m.Some? && m.value in ValidMethods
  }

  /** A secret is optional, but when present its length is bounded. */
  predicate SecretAccepted(s: Option<string>) {
    s.None? || SecretMinLength <= Utf16Length(s.value) <= SecretMaxLength
  }

  predicate ShardAccepted(s: Shard) {
    MethodAccepted(s.transport.methodName) && SecretAccepted(s.transport.secret)
  }

  /** The exception thrown for a shard that is not accepted. */
  function ShardError(s: Shard): Error {
    if !MethodAccepted(s.transport.methodName) then BadParameter(ShardMethodInvalid) else BadParameter(ShardSecretInvalid)
  }

  /** `k` is the first shard of the batch that is not accepted. */
  predicate FirstRejected(shards: seq<Shard>, k: int) {
    0 <= k < |shards| && !ShardAccepted(shards[k]) && forall j :: 0 <= j < k ==> ShardAccepted(shards[j])
  }

  /** `UpdateConduitShardsAsync`: the batch is sent only when every shard is
      accepted; otherwise the first rejected shard's error is thrown and
      nothing is sent. */
  method UpdateConduitShards(request: UpdateConduitShardsRequest) returns (r: Result<Request, Error>)
    ensures r.Success? <==> forall i :: 0 <= i < |request.shards| ==> ShardAccepted(request.shards[i])
    ensures r.Success? ==> r.value == Request(Patch, ShardsPath, [], Some(UpdateShardsBody(request)))
    ensures r.Failure? ==> exists k :: FirstRejected(request.shards, k) && r.error == ShardError(request.shards[k])
  {
    var i := 0;
    while i < |request.shards|
      invariant 0 <= i <= |request.shards|
      invariant forall j :: 0 <= j < i ==> ShardAccepted(request.shards[j])
    {
      var shard := request.shards[i];
      if !(shard.transport.methodName.Some? && shard.transport.methodName.value in ValidMethods) {
        assert FirstRejected(request.shards, i);
        return Failure(BadParameter(ShardMethodInvalid));
      }
      if shard.transport.secret.Some?
         && (Utf16Length(shard.transport.secret.value) < SecretMinLength || Utf16Length(shard.transport.secret.value) > SecretMaxLength) {
        assert FirstRejected(request.shards, i);
        return Failure(BadParameter(ShardSecretInvalid));
      }
      i := i + 1;
    }
    r := Success(Request(Patch, ShardsPath, [], Some(UpdateShardsBody(request))));
  }

  /** The method names a subscription transport carries are accepted for a
      shard exactly when they are not "conduit"; the check is case-sensitive,
      so the enum's own spelling is refused. */
  lemma {:induction false} ShardMethodsAgainstSubscriptionMethods(m: TransportMethod)
    ensures MethodAccepted(Some(Lower(MethodName(m)))) <==> m != Conduit
    ensures !MethodAccepted(Some(MethodName(m)))
  {
    MethodNameLowered(m);
    assert MethodName(m) != ValidMethods[0] && MethodName(m) != ValidMethods[1];
    assert "conduit" != ValidMethods[0] && "conduit" != ValidMethods[1];
  }
}
