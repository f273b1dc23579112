/** Classification of inbound messages (`handleMessage`). A message is
    judged by its shape alone, in a fixed order; responses are not matched
    to the requests that caused them. */
module Inbound {
  import opened JsonModel
  import opened Rpc

  /** An inbound text frame after `json::parse`: a value, or text that did
      not parse. */
  datatype Message = Unparseable | Parsed(response: Json)

  /** The exceptions the message handler catches and reports. */
  datatype Exception = ParseError | TypeError

  /** What the handler does with a message. */
  datatype Event =
    | AuthSuccess(token: string)                     // stores the token, sets the flag
    | SubscriptionUpdate(channel: string, data: Json)  // push update of a channel
    | RemoteError(message: Json)                     // the `message` of an `error` member
    | PlainResult(result: Json)                      // any other `result`
    | Ignored                                        // none of the shapes above
    | Caught(exception: Exception)                   // reported as an error, nothing else happens
    | Undefined                                      // a missing member read through the const operator[]

  const SubscriptionMethod: string := "subscription"

  /** A response whose `result` contains an `access_token`. */
  predicate CarriesToken(response: Json) {
    Contains(response, "result") && Contains(Get(response, "result"), AccessTokenKey)
  }

  /** A message whose `method` is "subscription". */
  predicate IsPush(response: Json) {
    Contains(response, "method") && Get(response, "method") == Str(SubscriptionMethod)
  }

  /** `handleSubscriptionUpdate`, which reads its `params` through the const
      `operator[]`: `channel` is read first and must be a string, then
      `data` is read. A params value that is not an object throws a type
      error, and an object without the member being read has undefined
      behaviour, which the handler's `catch` does not cover. */
  function PushEvent(params: Json): (e: Event)
    ensures e.SubscriptionUpdate? || e.Undefined? || e == Caught(TypeError)
    ensures e.SubscriptionUpdate? <==>
      Contains(params, "channel") && Get(params, "channel").Str? && Contains(params, "data")
    ensures e.SubscriptionUpdate? ==> e.channel == Get(params, "channel").s && e.data == Get(params, "data")
    ensures e.Undefined? <==>
      params.Obj? && (!Contains(params, "channel") || (Get(params, "channel").Str? && !Contains(params, "data")))
  {
    match ConstSubscript(params, "channel")
    case Found(Str(channel)) =>
      (match ConstSubscript(params, "data")
       case Found(data) => SubscriptionUpdate(channel, data)
       case _ => Undefined)
    case Missing => Undefined
    case _ => Caught(TypeError)
  }

  /** `handleMessage`, as a decision on the message's shape: an
      authentication result first, then a push update, then an error, then a
      plain result; anything else is ignored. A message that does not parse,
      or whose matching member has the wrong type, is caught and reported.
      A push update whose params object lacks `channel` or `data` has
      undefined behaviour. */
  function Classify(m: Message): (e: Event)
    ensures e == Caught(ParseError) <==> m.Unparseable?
    ensures e.AuthSuccess? <==>
      m.Parsed? && CarriesToken(m.response) && Get(Get(m.response, "result"), AccessTokenKey).Str?
    ensures e.AuthSuccess? ==> Get(Get(m.response, "result"), AccessTokenKey) == Str(e.token)
    ensures m.Parsed? && CarriesToken(m.response) ==> e.AuthSuccess? || e == Caught(TypeError)
    ensures e.SubscriptionUpdate? ==> m.Parsed? && !CarriesToken(m.response) && IsPush(m.response)
    ensures m.Parsed? && !CarriesToken(m.response) && IsPush(m.response) ==>
      e.SubscriptionUpdate? || e.Undefined? || e == Caught(TypeError)
    ensures m.Parsed? && !CarriesToken(m.response) && IsPush(m.response) ==>
      e == PushEvent(if Contains(m.response, "params") then Get(m.response, "params") else Null)
    ensures e.Undefined? ==> m.Parsed? && !CarriesToken(m.response) && IsPush(m.response)
    ensures e.RemoteError? ==>
      m.Parsed? && !CarriesToken(m.response) && !IsPush(m.response) && Contains(m.response, "error")
    ensures m.Parsed? && !CarriesToken(m.response) && !IsPush(m.response) && Contains(m.response, "error") ==>
      && (e.RemoteError? || e == Caught(TypeError))
      && (e.RemoteError? <==> Subscript(Get(m.response, "error"), "message").Found?)
    ensures e.RemoteError? ==>
      m.Parsed? && Contains(m.response, "error") && Subscript(Get(m.response, "error"), "message") == Found(e.message)
    ensures e.PlainResult? <==>
      m.Parsed? && !CarriesToken(m.response) && !IsPush(m.response)
      && !Contains(m.response, "error") && Contains(m.response, "result")
    ensures e.PlainResult? ==> e.result == Get(m.response, "result")
    ensures e.Ignored? <==>
      m.Parsed? && !IsPush(m.response) && !Contains(m.response, "error") && !Contains(m.response, "result")
  {
    match m
    case Unparseable => Caught(ParseError)
    case Parsed(response) =>
      if CarriesToken(response) then
        match Get(Get(response, "result"), AccessTokenKey)
        case Str(token) => AuthSuccess(token)
        case _ => Caught(TypeError)
      else if IsPush(response) then
        PushEvent(if Contains(response, "params") then Get(response, "params") else Null)
      else if Contains(response, "error") then
        match Subscript(Get(response, "error"), "message")
        case Found(message) => RemoteError(message)
        case _ => Caught(TypeError)
      else if Contains(response, "result") then
        PlainResult(Get(response, "result"))
      else
        Ignored
  }

  /** A success response as the exchange sends it, for any request id. */
  function Response(id: int, result: Json): Json {
    Obj(map["jsonrpc" := Str(Version), "id" := Int(id), "result" := result])
  }

  /** An error response as the exchange sends it. */
  function ErrorResponse(id: int, code: int, message: string): Json {
    Obj(map["jsonrpc" := Str(Version), "id" := Int(id),
            "error" := Obj(map["code" := Int(code), "message" := Str(message)])])
  }

  /** A push notification on a subscribed channel. */
  function Notification(channel: string, data: Json): Json {
    Obj(map["jsonrpc" := Str(Version), "method" := Str(SubscriptionMethod),
            "params" := Obj(map["channel" := Str(channel), "data" := data])])
  }

  /** A result carrying a string token authenticates the session, whatever
      request id the response names. */
  lemma ClassifyAuthResponse(id: int, result: Json, token: string)
    requires Contains(result, AccessTokenKey) && Get(result, AccessTokenKey) == Str(token)
    ensures Classify(Parsed(Response(id, result))) == AuthSuccess(token)
  {
  }

  /** Any other result is reported as a plain result, unchanged. */
  lemma ClassifyResultResponse(id: int, result: Json)
    requires !Contains(result, AccessTokenKey)
    ensures Classify(Parsed(Response(id, result))) == PlainResult(result)
  {
  }

  /** An error response reports its message. */
  lemma ClassifyErrorResponse(id: int, code: int, message: string)
    ensures Classify(Parsed(ErrorResponse(id, code, message))) == RemoteError(Str(message))
  {
  }

  /** A notification is a push update of its channel with its data. */
  lemma ClassifyNotification(channel: string, data: Json)
    ensures Classify(Parsed(Notification(channel, data))) == SubscriptionUpdate(channel, data)
  {
  }

  /** The request id of a message plays no part in what the handler does
      with it: responses are not correlated with requests. */
  lemma ClassifyIgnoresId(fields: map<string, Json>, a: Json, b: Json)
    ensures Classify(Parsed(Obj(fields["id" := a]))) == Classify(Parsed(Obj(fields["id" := b])))
  {
  }

  /** A push whose params carry a channel but no data reaches undefined
      behaviour instead of being caught. */
  lemma ClassifyPushWithoutData(channel: string)
    ensures Classify(Parsed(Obj(map["method" := Str(SubscriptionMethod),
                                    "params" := Obj(map["channel" := Str(channel)])]))) == Undefined
  {
  }

  /** So does a push whose params object has no channel. */
  lemma ClassifyPushWithoutChannel(data: Json)
    ensures Classify(Parsed(Obj(map["method" := Str(SubscriptionMethod),
                                    "params" := Obj(map["data" := data])]))) == Undefined
  {
  }

  /** A push without params, or with params that are not an object, throws
      a type error that the handler catches. */
  lemma ClassifyPushWithoutParams()
    ensures Classify(Parsed(Obj(map["method" := Str(SubscriptionMethod)]))) == Caught(TypeError)
  {
  }
}
