# Deribit JSON-RPC client: verified model of the session core

This project models the deterministic core of `DeribitFullTrader`, a
command-line client for the Deribit exchange. The client talks JSON-RPC 2.0
over one WebSocket connection. The model covers:

- **Outbound requests** (`rpc.dfy`, `api.dfy`, `session.dfy`). Every API
  method becomes a `Request` value. `Api.Params` builds its parameters and
  `Api.RpcMethod` names its JSON-RPC method. `Session.Trader.SendRequest`
  wraps a call in a JSON-RPC 2.0 envelope carrying the next request id. The
  transport is an append-only outbox of envelopes. `SendPrivateRequest` adds
  the session's `access_token` to the parameters. `CheckAuthentication`
  stops every private method before anything is sent.
- **Inbound classification** (`inbound.dfy`). `Inbound.Classify` judges a
  message by its shape alone, in a fixed order: an authentication result,
  then a subscription push, then an error, then a plain result; anything
  else is ignored. A parse failure, or a member of the wrong JSON type, is
  caught and reported. Responses are not matched to requests by id.
- **Subscription registry** (`registry.dfy`, `session.dfy`). It maps
  channel names to an active flag. Subscribing sets the flag and
  unsubscribing clears it; entries are never erased. Listing gives the
  active channels in key order, each once.
- **Command line** (`cli.dfy`). `SplitCommand` splits a line on whitespace.
  `Parse` is `processCommand`'s choice of action from the first word and
  the word count.

JSON is modelled as values (`JsonModel.Json`), never as text. The model
follows nlohmann::json's rules:

- `contains` is true only for an object that has the key.
- The non-const `operator[]` reads a null value as null.
- The non-const `operator[]` throws a type error on any other non-object.
- The const `operator[]`, which `handleSubscriptionUpdate` uses because it
  takes its parameters as `const json&`, throws a type error on a
  non-object. On an object without the key it has undefined behaviour: an
  assertion fails in a debug build, and the handler's `catch` does not
  apply. The model names that outcome `Undefined`.

The transport's answer to each send is an input parameter (`accepted`). A
refused send still uses up its id, because `request_id_++` runs before
`client_.send`. It also skips the subscription registration that would
follow the send.

Behaviours of the code that the model keeps as written:

- `subscribeToOrderbook` subscribes to `book.<instrument>.100ms` but does
  not record it in the registry. Only the trades and ticker subscriptions
  are recorded.
- `processCommand` tests `list subs` twice (lines 513 and 610). The second
  test can never be reached.
- The code does not correlate responses with requests by id. It has no
  timeouts, no closed-session state and no "authenticating" state. A design
  with those features would behave differently. This model follows the code:
  any response whose `result` carries a string `access_token`
  authenticates the session, whatever its id (`Inbound.ClassifyIgnoresId`,
  `Inbound.ClassifyAuthResponse`).

## Model

| member | source | states |
|---|---|---|
| `Rpc.Encode` | deribit_trading.cpp:325-331 | every request object carries `jsonrpc` = "2.0" and the id it was given |
| `Rpc.DecodeEncode` | deribit_trading.cpp:325-331 | reading back an encoded request gives the same id, method and parameters |
| `Rpc.EncodeDecode` | deribit_trading.cpp:325-331 | a request object that reads back is exactly the encoding of what it reads as, so the encoding is one to one |
| `Rpc.WithToken` | deribit_trading.cpp:341-345 | private parameters are the caller's parameters plus `access_token` set to the token; no other key is added, dropped or changed; null parameters become an object |
| `Api.RpcMethod` | deribit_trading.cpp:79-252 | a request calls a "private/" method exactly when it is one of the private API methods |
| `Api.OrderParams` | deribit_trading.cpp:135-181 | a market order has exactly instrument, amount and `type` = "market", with no price; any other type gives a limit order with `price`, `time_in_force` = "good_til_cancelled", `post_only` = false and `reduce_only` = false |
| `Api.InstrumentFilter` | deribit_trading.cpp:208-224 | the open-orders and history parameters hold `instrument_name` exactly when the name is non-empty, and nothing else |
| `Api.AuthParams` | deribit_trading.cpp:68-77 | authentication sends the `client_credentials` grant with the client id and secret |
| `Api.SubscribeParams` | deribit_trading.cpp:227-252 | a subscribe call sends exactly one channel, as a one-element `channels` list |
| `Api.InstrumentOfChannelName` | deribit_trading.cpp:230-246 | the instrument can be read back from the channel name `prefix + instrument + ".100ms"` |
| `Api.ChannelNameOfInstrument` | deribit_trading.cpp:230-246 | a channel name that yields an instrument is that instrument's channel name, so names and instruments correspond one to one |
| `Api.RegisteredChannel` | deribit_trading.cpp:227-252 | only the trades and ticker subscriptions record a channel, and it is the channel they subscribe to; the order-book subscription records nothing |
| `Api.Params` | deribit_trading.cpp:79-252 | every API method builds an object, or null for an unfiltered order query; it never holds `access_token`; subscriptions send the channel their name gives |
| `Api.SentParams` | deribit_trading.cpp:117-224 | what goes on the wire holds `access_token` exactly for private methods, set to the session's token, and keeps every parameter the method built; its keys are exactly the built keys, plus `access_token` for a private method |
| `Inbound.PushEvent` | deribit_trading.cpp:357-361 | a push update needs an object with a string `channel` and a `data` member, and carries both; an object missing `channel`, or missing `data` after a string `channel`, is undefined behaviour; any other shape is a caught type error |
| `Inbound.Classify` | deribit_trading.cpp:363-395 | the fixed order: parse failure is caught; a string token in `result` authenticates; otherwise `method` = "subscription" is a push, classified exactly as `PushEvent` classifies its `params` (null when absent), and never an error or result; then `error` before `result`, where an error reports exactly the `message` that the non-const `operator[]` reads from it, or a caught type error when `error` is not an object or null; otherwise ignored |
| `Inbound.ClassifyAuthResponse` | deribit_trading.cpp:367-376 | a response whose result carries a string token authenticates, whatever its id |
| `Inbound.ClassifyResultResponse` | deribit_trading.cpp:388-390 | any other result response is reported as a plain result, unchanged |
| `Inbound.ClassifyErrorResponse` | deribit_trading.cpp:384-387 | an error response reports its message |
| `Inbound.ClassifyNotification` | deribit_trading.cpp:378-382 | a subscription notification is a push update of its channel with its data |
| `Inbound.ClassifyPushWithoutData` | deribit_trading.cpp:357-361 | a push whose params hold a channel but no data reaches undefined behaviour, not the handler's `catch` |
| `Inbound.ClassifyPushWithoutChannel` | deribit_trading.cpp:357-361 | a push whose params object has no channel reaches undefined behaviour |
| `Inbound.ClassifyPushWithoutParams` | deribit_trading.cpp:378-382 | a push without params reads them as null, and reading `channel` from null throws a type error that is caught |
| `Inbound.ClassifyIgnoresId` | deribit_trading.cpp:363-395 | the handler's decision does not depend on the message's id: responses are not correlated with requests |
| `Registry.AddSubscriptionEffect` | deribit_trading.cpp:346-350 | marking a channel active adds exactly that channel to the active set; doing it twice equals doing it once |
| `Registry.RemoveSubscriptionEffect` | deribit_trading.cpp:352-356 | marking a channel inactive removes exactly that channel from the active set and keeps its entry |
| `Registry.LeastExists` | deribit_trading.cpp:633-641 | every non-empty set of channel names has a least name in key order, which is the order the registry is listed in |
| `Cli.SplitCommand` | deribit_trading.cpp:623-631 | the loop returns exactly the words of the line; every word is non-empty and free of whitespace; together they are the line with its whitespace removed |
| `Cli.WordsAreWords` | deribit_trading.cpp:623-631 | the words of any line are non-empty and free of whitespace, and their concatenation is the line without whitespace |
| `Cli.WordsOfJoin` | deribit_trading.cpp:623-631 | splitting words joined by spaces gives the same words back |
| `Cli.OrderOf` | deribit_trading.cpp:530-571 | "buy" and "sell" with a fourth word give a market order when it is "market" (price 0) and otherwise a limit order at that price |
| `Cli.Parse` | deribit_trading.cpp:498-621 | no words means no action; private calls come only from the trading and account commands; an order-book subscription comes only from "sub book" |
| `Cli.ParseRender` | deribit_trading.cpp:498-621 | every command the line can express is chosen again from its canonical words |
| `Cli.ParseLine` | deribit_trading.cpp:498-631 | a command typed as its canonical line is chosen again after splitting |
| `Session.Trader.constructor` | deribit_trading.cpp:22-29 | a new session starts at id 1, unauthenticated, with an empty token, registry and outbox |
| `Session.Trader.CheckAuthentication` | deribit_trading.cpp:319-323 | it passes exactly when authenticated, and otherwise fails with "Not authenticated" |
| `Session.Trader.SendRequest` | deribit_trading.cpp:325-339 | it appends the envelope with the current id when the transport accepts it; the id goes up by one either way; the request object put on the wire has `jsonrpc` = "2.0" and that id, and reads back as the method and parameters sent; ids stay strictly increasing and are 1, 2, 3, ... while no send fails |
| `Session.Trader.SendPrivateRequest` | deribit_trading.cpp:341-345 | it sends the caller's parameters with the current token injected |
| `Session.Trader.AddSubscription` | deribit_trading.cpp:346-350 | the channel maps to true; every other entry is unchanged |
| `Session.Trader.RemoveSubscription` | deribit_trading.cpp:352-356 | the channel maps to false; its entry stays; every other entry is unchanged |
| `Session.Trader.ListActiveSubscriptions` | deribit_trading.cpp:633-641 | it lists exactly the channels mapped to true, strictly in key order, with no duplicates |
| `Session.Trader.Authenticate` | deribit_trading.cpp:68-77 | it sends `public/auth` with the client-credentials parameters under the next id |
| `Session.Trader.Invoke` | deribit_trading.cpp:79-252 | unauthenticated private calls fail with "Not authenticated" and change nothing; other calls send one envelope with the next id (with the token if private); sent trades and ticker subscriptions are recorded; no private method is ever sent before authentication |
| `Session.Trader.HandleMessage` | deribit_trading.cpp:363-395 | only an authentication result changes state: it stores the token and sets the flag; the flag is never cleared; a parse failure changes nothing |
| `Session.Trader.ProcessCommand` | deribit_trading.cpp:498-621 | the line's words choose the command; calls behave as `Invoke`; every other command leaves the session unchanged; "list subs" shows exactly the active channels, strictly in key order |

## Left out

- The WebSocket connection, the TLS setup, the `client_.run()` thread, `connect`, `disconnect` and `setupClient` (lines 32-65 and 285-307) are not modelled. They are I/O through a library. Whether the transport accepted a send is an input to the model.
- `waitForConnection` and `waitForAuthentication` (lines 309-317) are not modelled, and neither are the mutexes. They only order concurrent steps; the model runs each operation as one atomic step.
- Session.Trader.Authenticate: returns once the request is sent. It does not block until `handleMessage` sees the token.
- Session.Trader.HandleMessage: on an `Undefined` event (a push missing `channel` or `data`) the model leaves the state unchanged. The C++ has undefined behaviour there, and a debug build aborts on a failed assertion.
- `json::parse` and `dump` (the JSON text) are not modelled. A message is either a parsed value or `Unparseable`.
- Session.Trader.SendRequest: the text of the transport's exception is not kept, only the "Failed to send request" prefix.
- `double` amounts and prices, and `std::stod`, are not modelled. Numeric words are kept as their text (`Decimal`).
- Cli.Parse: a number word that `std::stod` rejects would throw inside `processCommand`. That exception is caught at line 618 and is not modelled.
- Session.Trader.SendRequest: `request_id_` is a 32-bit `int`. Its overflow after 2^31 - 1 requests is undefined behaviour in C++, and the model's ids are unbounded.
- The `display*` functions, `displayHelp`, all console output, the `startCLI` read loop, `exit(0)` and `main` are not modelled. They are user-interface I/O. `Quit` is returned as a command.
- The fields `subscription_handlers_` and `show_subscription_updates_` are not modelled. Nothing in the code reads them.
- Registry.Less: it compares characters by code point, while `std::string` compares bytes. The two agree on ASCII channel names.
- The nested initialiser `{"channels", {channel}}` is modelled as a one-element array. That is the shape the exchange expects for `public/subscribe`.
