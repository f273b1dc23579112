/** The session state of the client (`DeribitFullTrader`): the request
    counter, the authentication state, the subscription registry and the
    envelopes handed to the transport. Each operation runs as one atomic
    step; the locks and condition variables that order them are not
    modelled. */
module Session {
  import opened Wrappers
  import opened JsonModel
  import opened Rpc
  import opened Api
  import opened Inbound
  import opened Registry
  import opened Cli

  const NotAuthenticated: string := "Not authenticated"
  const SendFailed: string := "Failed to send request"

  class Trader {
    /** The id the next request gets. */
    var requestId: int
    var accessToken: string
    var isAuthenticated: bool
    /** Channel name to active flag; entries are never erased. */
    var subscriptions: map<string, bool>
    /** The transport seen as an append-only outbox: every envelope it
        accepted, oldest first. */
    var outbox: seq<Envelope>
    /** How many sends the transport refused. */
    ghost var refused: nat

    /** Ids: the n-th send attempt gets id n, so the ids in the outbox are
        positive, strictly increasing and below the next id, and they are
        1, 2, 3, ... as long as no send was refused. */
    ghost predicate Valid()
      reads this
    {
      && requestId == 1 + |outbox| + refused
      && (forall i :: 0 <= i < |outbox| ==> 1 <= outbox[i].id < requestId)
      && (forall i, j :: 0 <= i < j < |outbox| ==> outbox[i].id < outbox[j].id)
      && (refused == 0 ==> forall i :: 0 <= i < |outbox| ==> outbox[i].id == i + 1)
    }

    /** The authentication gate: no private method was sent before the
        session authenticated, and every private method sent carries an
        access token. */
    ghost predicate Gated()
      reads this
    {
      && (!isAuthenticated ==> forall i :: 0 <= i < |outbox| ==> !IsPrivateMethod(outbox[i].rpcMethod))
      && (forall i :: 0 <= i < |outbox| && IsPrivateMethod(outbox[i].rpcMethod) ==>
            Contains(outbox[i].params, AccessTokenKey))
    }

    constructor ()
      ensures Valid() && Gated()
      ensures requestId == 1 && accessToken == "" && !isAuthenticated
      ensures subscriptions == map[] && outbox == []
    {
      requestId := 1;
      accessToken := "";
      isAuthenticated := false;
      subscriptions := map[];
      outbox := [];
      refused := 0;
    }

    /** `checkAuthentication`: fails with "Not authenticated" unless the
        session has authenticated. */
    method CheckAuthentication() returns (r: Outcome)
      ensures r.Pass? <==> isAuthenticated
      ensures r.Fail? ==> r.error == NotAuthenticated
    {
      if !isAuthenticated {
        return Fail(NotAuthenticated);
      }
      r := Pass;
    }

    /** `sendRequest`: wraps the call in an envelope with the next id and
        hands it to the transport; `accepted` is whether the transport took
        it. The id is used up either way. */
    method SendRequest(rpcMethod: string, params: Json, accepted: bool) returns (r: Outcome)
      requires Valid()
      modifies this`requestId, this`outbox, this`refused
      ensures Valid()
      ensures requestId == old(requestId) + 1
      ensures r == if accepted then Pass else Fail(SendFailed)
      ensures outbox == if accepted then old(outbox) + [Envelope(old(requestId), rpcMethod, params)] else old(outbox)
      ensures accepted ==>
        var sent := Encode(outbox[|outbox| - 1]);
        && Get(sent, "jsonrpc") == Str(Version) && Get(sent, "id") == Int(old(requestId))
        && Decode(sent) == Some(Envelope(old(requestId), rpcMethod, params))
      ensures old(Gated()) && (IsPrivateMethod(rpcMethod) ==> isAuthenticated && Contains(params, AccessTokenKey)) ==>
        Gated()
    {
      var request := Envelope(requestId, rpcMethod, params);
      requestId := requestId + 1;
      if accepted {
        outbox := outbox + [request];
        DecodeEncode(request);
        r := Pass;
      } else {
        refused := refused + 1;
        r := Fail(SendFailed);
      }
    }

    /** `sendPrivateRequest`: sends the caller's parameters with the
        session's access token added. */
    method SendPrivateRequest(rpcMethod: string, params: Json, accepted: bool) returns (r: Outcome)
      requires Valid()
      requires params.Obj? || params.Null?
      modifies this`requestId, this`outbox, this`refused
      ensures Valid()
      ensures requestId == old(requestId) + 1
      ensures r == if accepted then Pass else Fail(SendFailed)
      ensures outbox ==
        if accepted then old(outbox) + [Envelope(old(requestId), rpcMethod, WithToken(params, accessToken))]
        else old(outbox)
      ensures old(Gated()) && (IsPrivateMethod(rpcMethod) ==> isAuthenticated) ==> Gated()
    {
      r := SendRequest(rpcMethod, WithToken(params, accessToken), accepted);
    }

    /** `addSubscription`: marks the channel active. */
    method AddSubscription(channel: string)
      modifies this`subscriptions
      ensures subscriptions == old(subscriptions)[channel := true]
      ensures ActiveChannels(subscriptions) == ActiveChannels(old(subscriptions)) + {channel}
    {
      AddSubscriptionEffect(subscriptions, channel);
      subscriptions := subscriptions[channel := true];
    }

    /** `removeSubscription`: marks the channel inactive and keeps its
        entry. */
    method RemoveSubscription(channel: string)
      modifies this`subscriptions
      ensures subscriptions == old(subscriptions)[channel := false]
      ensures channel in subscriptions
      ensures ActiveChannels(subscriptions) == ActiveChannels(old(subscriptions)) - {channel}
    {
      RemoveSubscriptionEffect(subscriptions, channel);
      subscriptions := subscriptions[channel := false];
    }

    /** `listActiveSubscriptions`: the active channels in the order of the
        registry's keys, each once. */
    method ListActiveSubscriptions() returns (channels: seq<string>)
      ensures forall c :: c in channels <==> c in subscriptions && subscriptions[c]
      ensures forall i, j :: 0 <= i < j < |channels| ==> Less(channels[i], channels[j])
      ensures forall i, j :: 0 <= i < j < |channels| ==> channels[i] != channels[j]
    {
      channels := [];
      var remaining := subscriptions.Keys;
      while remaining != {}
        invariant remaining <= subscriptions.Keys
        invariant forall c :: c in channels ==> c in subscriptions && subscriptions[c] && c !in remaining
        invariant forall c :: c in subscriptions && subscriptions[c] && c !in remaining ==> c in channels
        invariant forall i, j :: 0 <= i < j < |channels| ==> Less(channels[i], channels[j])
        invariant forall i, d :: 0 <= i < |channels| && d in remaining ==> Less(channels[i], d)
        decreases |remaining|
      {
        LeastExists(remaining);
        var channel :| IsLeast(channel, remaining);
        if subscriptions[channel] {
          channels := channels + [channel];
        }
        remaining := remaining - {channel};
      }
      forall i, j | 0 <= i < j < |channels|
        ensures channels[i] != channels[j]
      {
        LessIrreflexive(channels[i]);
      }
    }

    /** `authenticate`: sends the client-credentials request. The wait for
        the answer is left to `HandleMessage`. */
    method Authenticate(clientId: string, clientSecret: string, accepted: bool) returns (r: Outcome)
      requires Valid() && Gated()
      modifies this`requestId, this`outbox, this`refused
      ensures Valid() && Gated()
      ensures requestId == old(requestId) + 1
      ensures r == if accepted then Pass else Fail(SendFailed)
      ensures outbox ==
        if accepted then old(outbox) + [Envelope(old(requestId), AuthMethod, AuthParams(clientId, clientSecret))]
        else old(outbox)
    {
      assert AuthMethod[1] != PrivatePrefix[1];
      r := SendRequest(AuthMethod, AuthParams(clientId, clientSecret), accepted);
    }

    /** What calling one API method does: a private method called before
        authentication fails with "Not authenticated" and changes nothing;
        otherwise the request is sent with the next id (with the token added
        when it is private), and a trades or ticker subscription that went
        out records its channel as active. */
    twostate predicate Invoked(req: Request, accepted: bool, r: Outcome)
      reads this
    {
      if IsPrivate(req) && !old(isAuthenticated) then
        && r == Fail(NotAuthenticated)
        && requestId == old(requestId)
        && outbox == old(outbox)
        && subscriptions == old(subscriptions)
      else
        && requestId == old(requestId) + 1
        && r == (if accepted then Pass else Fail(SendFailed))
        && outbox == (if accepted then old(outbox) + [Envelope(old(requestId), RpcMethod(req), SentParams(req, old(accessToken)))]
                      else old(outbox))
        && subscriptions == (if accepted && RegisteredChannel(req).Some?
                             then old(subscriptions)[RegisteredChannel(req).value := true]
                             else old(subscriptions))
    }

    /** One of the public, private or subscription methods of the client. */
    method Invoke(req: Request, accepted: bool) returns (r: Outcome)
      requires Valid() && Gated()
      modifies this`requestId, this`outbox, this`refused, this`subscriptions
      ensures Valid() && Gated()
      ensures Invoked(req, accepted, r)
    {
      if IsPrivate(req) {
        r := CheckAuthentication();
        if r.Fail? {
          return;
        }
        r := SendPrivateRequest(RpcMethod(req), Params(req), accepted);
      } else {
        r := SendRequest(RpcMethod(req), Params(req), accepted);
        if r.Pass? && RegisteredChannel(req).Some? {
          AddSubscription(RegisteredChannel(req).value);
        }
      }
    }

    /** `handleMessage`: classifies an inbound message; an authentication
        result stores the token and sets the flag, and nothing else changes
        any state. The flag is never cleared. */
    method HandleMessage(msg: Message) returns (e: Event)
      requires Valid() && Gated()
      modifies this`accessToken, this`isAuthenticated
      ensures Valid() && Gated()
      ensures e == Classify(msg)
      ensures e.AuthSuccess? ==> accessToken == e.token && isAuthenticated
      ensures !e.AuthSuccess? ==> accessToken == old(accessToken) && isAuthenticated == old(isAuthenticated)
      ensures old(isAuthenticated) ==> isAuthenticated
    {
      e := Classify(msg);
      if e.AuthSuccess? {
        accessToken := e.token;
        isAuthenticated := true;
      }
    }

    /** `processCommand`: splits the line, chooses the action and performs
        it. `accepted` stands for the transport's answer to a send; `listed`
        is what "list subs" shows. */
    method ProcessCommand(line: string, accepted: bool) returns (cmd: Command, r: Outcome, listed: seq<string>)
      requires Valid() && Gated()
      modifies this`requestId, this`outbox, this`refused, this`subscriptions
      ensures Valid() && Gated()
      ensures cmd == Parse(Words(line))
      ensures cmd.Issue? ==> Invoked(cmd.request, accepted, r)
      ensures !cmd.Issue? ==>
        && r == Pass
        && requestId == old(requestId) && outbox == old(outbox) && subscriptions == old(subscriptions)
      ensures cmd == ListSubs ==> forall c :: c in listed <==> c in ActiveChannels(subscriptions)
      ensures cmd == ListSubs ==> forall i, j :: 0 <= i < j < |listed| ==> Less(listed[i], listed[j])
    {
      var tokens := SplitCommand(line);
      cmd := Parse(tokens);
      r, listed := Pass, [];
      match cmd {
        case Issue(req) =>
          r := Invoke(req, accepted);
        case ListSubs =>
          listed := ListActiveSubscriptions();
        case _ =>
      }
    }
  }
}
