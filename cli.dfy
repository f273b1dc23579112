/** The command line: `splitCommand` cuts an input line into words and
    `processCommand` chooses an action from the first word and the number of
    words. */
module Cli {
  import opened JsonModel
  import opened Api

  /** The characters `std::isspace` accepts in the "C" locale: space, tab,
      line feed, vertical tab, form feed and carriage return. */
  predicate IsSpace(c: char) {
    c == ' ' || '\t' <= c <= '\r'
  }

  /** A word: non-empty and free of whitespace. */
  predicate IsWord(t: string) {
    t != "" && forall i :: 0 <= i < |t| ==> !IsSpace(t[i])
  }

  /** The words read so far, as a list: none for an empty buffer. */
  function Flush(token: string): seq<string> {
    if token == "" then [] else [token]
  }

  /** The words of `s` when `token` holds the characters of a word that
      has begun and not yet ended. */
  function SplitFrom(s: string, token: string): seq<string>
    decreases |s|
  {
    if s == [] then Flush(token)
    else if IsSpace(s[0]) then Flush(token) + SplitFrom(s[1..], "")
    else SplitFrom(s[1..], token + [s[0]])
  }

  /** The words `ss >> token` reads from a line, in order. */
  function Words(s: string): seq<string> {
    SplitFrom(s, "")
  }

  function Concat(ts: seq<string>): string {
    if ts == [] then "" else ts[0] + Concat(ts[1..])
  }

  /** `s` with every whitespace character removed. */
  function Squeeze(s: string): string {
    if s == [] then ""
    else if IsSpace(s[0]) then Squeeze(s[1..])
    else [s[0]] + Squeeze(s[1..])
  }

  lemma {:induction false} ConcatAppend(a: seq<string>, b: seq<string>)
    ensures Concat(a + b) == Concat(a) + Concat(b)
    decreases |a|
  {
    if a == [] {
      assert a + b == b;
    } else {
      assert (a + b)[0] == a[0] && (a + b)[1..] == a[1..] + b;
      ConcatAppend(a[1..], b);
    }
  }

  /** Reading from a buffer that holds a word yields only words. */
  lemma {:induction false} SplitFromAreWords(s: string, token: string)
    requires token == "" || IsWord(token)
    ensures forall i :: 0 <= i < |SplitFrom(s, token)| ==> IsWord(SplitFrom(s, token)[i])
    decreases |s|
  {
    if s == [] {
    } else if IsSpace(s[0]) {
      SplitFromAreWords(s[1..], "");
      assert SplitFrom(s, token) == Flush(token) + SplitFrom(s[1..], "");
    } else {
      var t := token + [s[0]];
      assert IsWord(t);
      SplitFromAreWords(s[1..], t);
      assert SplitFrom(s, token) == SplitFrom(s[1..], t);
    }
  }

  /** The words read from a buffer and the rest of the line put together
      give the buffer and the line without its whitespace. */
  lemma {:induction false} SplitFromConcat(s: string, token: string)
    ensures Concat(SplitFrom(s, token)) == token + Squeeze(s)
    decreases |s|
  {
    if s == [] {
      assert Concat(Flush(token)) == token;
    } else if IsSpace(s[0]) {
      SplitFromConcat(s[1..], "");
      ConcatAppend(Flush(token), SplitFrom(s[1..], ""));
      assert Concat(Flush(token)) == token;
      assert Squeeze(s) == Squeeze(s[1..]);
    } else {
      var t := token + [s[0]];
      SplitFromConcat(s[1..], t);
      assert Squeeze(s) == [s[0]] + Squeeze(s[1..]);
      assert t + Squeeze(s[1..]) == token + Squeeze(s);
    }
  }

  /** Every word is non-empty and free of whitespace, and the words put
      together give back the line without its whitespace. */
  lemma WordsAreWords(s: string)
    ensures forall i :: 0 <= i < |Words(s)| ==> IsWord(Words(s)[i])
    ensures Concat(Words(s)) == Squeeze(s)
  {
    SplitFromAreWords(s, "");
    SplitFromConcat(s, "");
  }

  /** `splitCommand`: reads the words of a line one character at a time. */
  method SplitCommand(cmd: string) returns (tokens: seq<string>)
    ensures tokens == Words(cmd)
    ensures forall i :: 0 <= i < |tokens| ==> IsWord(tokens[i])
    ensures Concat(tokens) == Squeeze(cmd)
  {
    tokens := [];
    var token := "";
    var i := 0;
    while i < |cmd|
      invariant 0 <= i <= |cmd|
      invariant tokens + SplitFrom(cmd[i..], token) == Words(cmd)
    {
      assert cmd[i..][1..] == cmd[i + 1..];
      if IsSpace(cmd[i]) {
        if token != "" {
          tokens := tokens + [token];
          token := "";
        }
      } else {
        token := token + [cmd[i]];
      }
      i := i + 1;
    }
    if token != "" {
      tokens := tokens + [token];
    }
    WordsAreWords(cmd);
  }

  /** Words separated by single spaces. */
  function Join(ts: seq<string>): string {
    if ts == [] then ""
    else if |ts| == 1 then ts[0]
    else ts[0] + " " + Join(ts[1..])
  }

  lemma {:induction false} SplitFromWord(w: string, rest: string, token: string)
    requires forall i :: 0 <= i < |w| ==> !IsSpace(w[i])
    ensures SplitFrom(w + rest, token) == SplitFrom(rest, token + w)
    decreases |w|
  {
    if w == [] {
      assert w + rest == rest && token + w == token;
    } else {
      assert (w + rest)[0] == w[0] && (w + rest)[1..] == w[1..] + rest;
      SplitFromWord(w[1..], rest, token + [w[0]]);
      assert token + [w[0]] + w[1..] == token + w;
    }
  }

  /** Splitting words joined by spaces gives the words back. */
  lemma {:induction false} WordsOfJoin(ts: seq<string>)
    requires forall i :: 0 <= i < |ts| ==> IsWord(ts[i])
    ensures Words(Join(ts)) == ts
    decreases |ts|
  {
    if |ts| == 1 {
      assert ts[0] + "" == ts[0] && "" + ts[0] == ts[0];
      SplitFromWord(ts[0], "", "");
    } else if |ts| > 1 {
      var rest := Join(ts[1..]);
      assert Join(ts) == ts[0] + (" " + rest);
      SplitFromWord(ts[0], " " + rest, "");
      assert "" + ts[0] == ts[0];
      assert (" " + rest)[0] == ' ' && (" " + rest)[1..] == rest;
      WordsOfJoin(ts[1..]);
      assert [ts[0]] + ts[1..] == ts;
    }
  }

  /** What `processCommand` does with a list of words. */
  datatype Command =
    | Empty            // no words: returns at once
    | Help             // shows the help text
    | Quit             // ends the process
    | ListSubs         // lists the active subscriptions
    | Issue(request: Request)  // calls one API method
    | BuyUsage         // "buy" with an instrument and amount only
    | SellUsage        // "sell" with an instrument and amount only
    | NoAction         // "sub" with an unknown subscription type
    | Invalid          // anything else

  /** The default order-book depth of `getOrderbook`. */
  const DefaultDepth: int := 5

  /** The price `processCommand` passes with a market order. */
  const MarketPrice: Decimal := "0"

  /** The order placed by "buy" or "sell" words with four or more words:
      a market order when the fourth word is "market", otherwise a limit
      order at the price the fourth word gives. */
  function OrderOf(buy: bool, tokens: seq<string>): (r: Request)
    requires |tokens| >= 4
    ensures r.PlaceBuyOrder? <==> buy
    ensures r.PlaceBuyOrder? || r.PlaceSellOrder?
    ensures r.instrumentName == tokens[1] && r.amount == tokens[2]
    ensures tokens[3] == MarketType ==> r.orderType == MarketType && r.price == MarketPrice
    ensures tokens[3] != MarketType ==> r.orderType == "limit" && r.price == tokens[3]
  {
    var (price, orderType) := if tokens[3] == MarketType then (MarketPrice, MarketType) else (tokens[3], "limit");
    if buy then PlaceBuyOrder(tokens[1], tokens[2], price, orderType)
    else PlaceSellOrder(tokens[1], tokens[2], price, orderType)
  }

  /** `processCommand`'s choice of action, test by test in the order the
      client makes them. */
  function Parse(tokens: seq<string>): (c: Command)
    ensures c == Empty <==> tokens == []
    ensures c.Issue? && IsPrivate(c.request) ==>
      tokens[0] in {"buy", "sell", "cancel", "cancelall", "modify", "positions", "balance", "orders", "history"}
    ensures c.Issue? && c.request.SubscribeToOrderbook? ==> |tokens| >= 3 && tokens[0] == "sub" && tokens[1] == "book"
  {
    if tokens == [] then Empty
    else
      var command, n := tokens[0], |tokens|;
      if command == "help" then Help
      else if command == "quit" then Quit
      else if command == "list" && n == 2 && tokens[1] == "subs" then ListSubs
      else if command == "book" && n == 2 then Issue(GetOrderbook(tokens[1], DefaultDepth))
      else if command == "instruments" && n == 3 then Issue(GetInstruments(tokens[1], tokens[2]))
      else if command == "currencies" then Issue(GetCurrencies)
      else if command == "time" then Issue(GetTime)
      else if command == "buy" && n >= 3 then
        if n >= 4 then Issue(OrderOf(true, tokens)) else BuyUsage
      else if command == "sell" && n >= 3 then
        if n >= 4 then Issue(OrderOf(false, tokens)) else SellUsage
      else if command == "cancel" && n == 2 then Issue(CancelOrder(tokens[1]))
      else if command == "cancelall" then Issue(CancelAllOrders)
      else if command == "modify" && n == 4 then Issue(ModifyOrder(tokens[1], tokens[2], tokens[3]))
      else if command == "positions" && n == 2 then Issue(GetPositions(tokens[1]))
      else if command == "balance" && n == 2 then Issue(GetAccountSummary(tokens[1]))
      else if command == "orders" then Issue(GetOpenOrders(if n > 1 then tokens[1] else ""))
      else if command == "history" then Issue(GetOrderHistory(if n > 1 then tokens[1] else ""))
      else if command == "sub" && n >= 3 then
        if tokens[1] == "book" then Issue(SubscribeToOrderbook(tokens[2]))
        else if tokens[1] == "trades" then Issue(SubscribeToTrades(tokens[2]))
        else if tokens[1] == "ticker" then Issue(SubscribeToInstrument(tokens[2]))
        else NoAction
      // the client tests "list subs" a second time here; the first test has already taken it
      else if command == "list" && n == 2 && tokens[1] == "subs" then ListSubs
      else Invalid
  }

  /** The requests a command line can express, with words as arguments. */
  predicate Expressible(r: Request) {
    match r
    case GetTime => true
    case GetInstruments(currency, kind) => IsWord(currency) && IsWord(kind)
    case GetCurrencies => true
    case GetOrderbook(name, depth) => IsWord(name) && depth == DefaultDepth
    case GetTradingviewChartData(_, _, _, _) => false
    case GetAccountSummary(currency) => IsWord(currency)
    case GetPositions(currency) => IsWord(currency)
    case PlaceBuyOrder(name, amount, price, orderType) => ExpressibleOrder(name, amount, price, orderType)
    case PlaceSellOrder(name, amount, price, orderType) => ExpressibleOrder(name, amount, price, orderType)
    case CancelOrder(orderId) => IsWord(orderId)
    case CancelAllOrders => true
    case ModifyOrder(orderId, amount, price) => IsWord(orderId) && IsWord(amount) && IsWord(price)
    case GetOpenOrders(name) => name == "" || IsWord(name)
    case GetOrderHistory(name) => name == "" || IsWord(name)
    case SubscribeToOrderbook(name) => IsWord(name)
    case SubscribeToTrades(name) => IsWord(name)
    case SubscribeToInstrument(name) => IsWord(name)
  }

  predicate ExpressibleOrder(name: string, amount: Decimal, price: Decimal, orderType: string) {
    && IsWord(name) && IsWord(amount)
    && ((orderType == MarketType && price == MarketPrice) || (orderType == "limit" && IsWord(price) && price != MarketType))
  }

  predicate ExpressibleCommand(c: Command) {
    c.Issue? ==> Expressible(c.request)
  }

  /** The canonical words of a command. */
  function Render(c: Command): seq<string>
    requires ExpressibleCommand(c)
  {
    match c
    case Empty => []
    case Help => ["help"]
    case Quit => ["quit"]
    case ListSubs => ["list", "subs"]
    case BuyUsage => ["buy", "?", "?"]
    case SellUsage => ["sell", "?", "?"]
    case NoAction => ["sub", "?", "?"]
    case Invalid => ["?"]
    case Issue(r) =>
      match r
      case GetTime => ["time"]
      case GetInstruments(currency, kind) => ["instruments", currency, kind]
      case GetCurrencies => ["currencies"]
      case GetOrderbook(name, _) => ["book", name]
      case GetAccountSummary(currency) => ["balance", currency]
      case GetPositions(currency) => ["positions", currency]
      case PlaceBuyOrder(name, amount, price, orderType) =>
        ["buy", name, amount, if orderType == MarketType then MarketType else price]
      case PlaceSellOrder(name, amount, price, orderType) =>
        ["sell", name, amount, if orderType == MarketType then MarketType else price]
      case CancelOrder(orderId) => ["cancel", orderId]
      case CancelAllOrders => ["cancelall"]
      case ModifyOrder(orderId, amount, price) => ["modify", orderId, amount, price]
      case GetOpenOrders(name) => if name == "" then ["orders"] else ["orders", name]
      case GetOrderHistory(name) => if name == "" then ["history"] else ["history", name]
      case SubscribeToOrderbook(name) => ["sub", "book", name]
      case SubscribeToTrades(name) => ["sub", "trades", name]
      case SubscribeToInstrument(name) => ["sub", "ticker", name]
  }

  /** Every expressible command is chosen by its canonical words. */
  lemma ParseRender(c: Command)
    requires ExpressibleCommand(c)
    ensures Parse(Render(c)) == c
  {
    match c
    case Issue(r) => {
      match r
      case GetTime =>
      case GetInstruments(_, _) =>
      case GetCurrencies =>
      case GetOrderbook(_, _) =>
      case GetAccountSummary(_) =>
      case GetPositions(_) =>
      case PlaceBuyOrder(_, _, _, _) =>
      case PlaceSellOrder(_, _, _, _) =>
      case CancelOrder(_) =>
      case CancelAllOrders =>
      case ModifyOrder(_, _, _) =>
      case GetOpenOrders(_) =>
      case GetOrderHistory(_) =>
      case SubscribeToOrderbook(_) =>
      case SubscribeToTrades(_) =>
      case SubscribeToInstrument(_) =>
    }
    case _ =>
  }

  /** The canonical words are words. */
  lemma RenderWords(c: Command)
    requires ExpressibleCommand(c)
    ensures forall i :: 0 <= i < |Render(c)| ==> IsWord(Render(c)[i])
  {
    KeywordsAreWords();
    match c
    case Issue(r) => {
      match r
      case GetTime =>
      case GetInstruments(_, _) =>
      case GetCurrencies =>
      case GetOrderbook(_, _) =>
      case GetAccountSummary(_) =>
      case GetPositions(_) =>
      case PlaceBuyOrder(_, _, _, _) =>
      case PlaceSellOrder(_, _, _, _) =>
      case CancelOrder(_) =>
      case CancelAllOrders =>
      case ModifyOrder(_, _, _) =>
      case GetOpenOrders(_) =>
      case GetOrderHistory(_) =>
      case SubscribeToOrderbook(_) =>
      case SubscribeToTrades(_) =>
      case SubscribeToInstrument(_) =>
    }
    case _ =>
  }

  lemma KeywordsAreWords()
    ensures forall k :: k in Keywords ==> IsWord(k)
  {
  }

  const Keywords: set<string> := {
    "help", "quit", "list", "subs", "book", "instruments", "currencies", "time", "buy", "sell",
    "cancel", "cancelall", "modify", "positions", "balance", "orders", "history", "sub",
    "trades", "ticker", "market", "?"}

  /** A command typed as its canonical line, words separated by single
      spaces, is chosen again. */
  lemma ParseLine(c: Command)
    requires ExpressibleCommand(c)
    ensures Parse(Words(Join(Render(c)))) == c
  {
    RenderWords(c);
    WordsOfJoin(Render(c));
    ParseRender(c);
  }
}
