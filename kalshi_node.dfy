/** The node's `execute`: for each input item, build the request its
    resource and operation call for, dispatch it, and collect the response,
    or, when the workflow continues on failure, an `{error}` entry. */
module KalshiNode {
  import opened JsValues
  import opened GenericFunctions

  /** The node parameters `execute` reads for one item (each operation reads
      only its own). */
  datatype ItemParams = ItemParams(
    ticker: string,
    eventTicker: string,
    filters: Dict,
    historyOptions: Dict,
    depth: int,
    tradesOptions: Dict,
    action: string,
    side: string,
    orderType: string,
    count: int,
    price: int,
    orderOptions: Dict,
    orderId: string,
    reduceBy: int,
    orders: string,
    orderIds: string)

  const MarketsPath := "/trade-api/v2/markets"
  const EventsPath := "/trade-api/v2/events"
  const OrdersPath := "/trade-api/v2/portfolio/orders"
  const BatchesPath := "/trade-api/v2/portfolio/orders/batches"
  const PositionsPath := "/trade-api/v2/portfolio/positions"
  const BalancePath := "/trade-api/v2/portfolio/balance"
  const FillsPath := "/trade-api/v2/portfolio/fills"
  const StatusPath := "/trade-api/v2/exchange/status"
  const SchedulePath := "/trade-api/v2/exchange/schedule"

  // ---------------------------------------------------------------------
  // Copying the truthy entries of a collection
  // ---------------------------------------------------------------------

  /** The entries of `src` under `keys` whose values are truthy. */
  function TruthyPart(src: Dict, keys: set<string>): Dict {
    map k | k in keys && k in src && Truthy(src[k]) :: src[k]
  }

  /** `dst` after `Object.keys(src).forEach(k => { if (src[k]) dst[k] = src[k]; })`. */
  function WithTruthy(dst: Dict, src: Dict): (r: Dict)
    ensures r.Keys == dst.Keys + set k | k in src && Truthy(src[k])
    ensures forall k :: k in r ==> r[k] == if k in src && Truthy(src[k]) then src[k] else dst[k]
  {
    dst + TruthyPart(src, src.Keys)
  }

  /** The forEach callback that copies a collection's truthy entries into a
      query or body object: the result has exactly the keys of `dst` and the
      keys of `src` whose values are truthy (`0`, `''`, `false`, `null` and
      `undefined` are dropped), with the values of `src` where it wrote and
      of `dst` elsewhere. */
  method CopyTruthy(dst: Dict, src: Dict) returns (r: Dict)
    ensures r == WithTruthy(dst, src)
  {
    r := dst;
    var todo := src.Keys;
    while todo != {}
      invariant todo <= src.Keys
      invariant r == dst + TruthyPart(src, src.Keys - todo)
      decreases todo
    {
      var k :| k in todo;
      TruthyPartGrows(dst, src, src.Keys - todo, k);
      if Truthy(src[k]) {
        r := r[k := src[k]];
      }
      todo := todo - {k};
      assert src.Keys - todo == (src.Keys - (todo + {k})) + {k};
    }
    assert src.Keys - todo == src.Keys;
  }

  /** Visiting one more key of `src` writes it when its value is truthy. */
  lemma TruthyPartGrows(dst: Dict, src: Dict, done: set<string>, k: string)
    requires k in src
    ensures dst + TruthyPart(src, done + {k})
         == if Truthy(src[k]) then (dst + TruthyPart(src, done))[k := src[k]] else dst + TruthyPart(src, done)
  {
  }

  // ---------------------------------------------------------------------
  // Splitting and trimming the ids of a batch cancel
  // ---------------------------------------------------------------------

  function Occurrences(s: string, c: char): nat {
    if s == [] then 0 else (if s[0] == c then 1 else 0) + Occurrences(s[1..], c)
  }

  /** The parts joined back with the separator between them. */
  function Join(parts: seq<string>, sep: char): string {
    if parts == [] then ""
    else if |parts| == 1 then parts[0]
    else parts[0] + [sep] + Join(parts[1..], sep)
  }

  /** `s.split(sep)`: the pieces between separators, one more than there are
      separators; no piece holds the separator and joining them back gives `s`. */
  function Split(s: string, sep: char): (parts: seq<string>)
    ensures |parts| == Occurrences(s, sep) + 1
    ensures forall i :: 0 <= i < |parts| ==> sep !in parts[i]
    ensures Join(parts, sep) == s
    decreases |s|
  {
    if s == [] then [""]
    else
      var rest := Split(s[1..], sep);
      if s[0] == sep then [""] + rest
      else
        assert Join([[s[0]] + rest[0]] + rest[1..], sep) == [s[0]] + Join(rest, sep) by {
          if |rest| > 1 {
            assert ([[s[0]] + rest[0]] + rest[1..])[1..] == rest[1..];
          }
        }
        [[s[0]] + rest[0]] + rest[1..]
  }

  /** Split undoes Join when no part holds the separator. */
  lemma {:induction false} SplitJoin(parts: seq<string>, sep: char)
    requires |parts| >= 1
    requires forall i :: 0 <= i < |parts| ==> sep !in parts[i]
    ensures Split(Join(parts, sep), sep) == parts
    decreases |parts|, |parts[0]|
  {
    if |parts| == 1 {
      SplitNoSeparator(parts[0], sep);
    } else if parts[0] == [] {
      var rest := parts[1..];
      assert Join(parts, sep) == [sep] + Join(rest, sep);
      SplitJoin(rest, sep);
      assert ([sep] + Join(rest, sep))[1..] == Join(rest, sep);
    } else {
      var head := parts[0];
      var shorter := [head[1..]] + parts[1..];
      DropFirstChar(parts, sep);
      SplitJoin(shorter, sep);
      assert shorter[1..] == parts[1..];
      assert Join(parts, sep) == [head[0]] + Join(shorter, sep);
      assert ([head[0]] + Join(shorter, sep))[1..] == Join(shorter, sep);
      assert head[0] != sep;
      assert [head[0]] + head[1..] == head;
    }
  }

  lemma DropFirstChar(parts: seq<string>, sep: char)
    requires |parts| >= 1 && parts[0] != []
    requires forall i :: 0 <= i < |parts| ==> sep !in parts[i]
    ensures var shorter := [parts[0][1..]] + parts[1..];
      forall i :: 0 <= i < |shorter| ==> sep !in shorter[i]
  {
    var shorter := [parts[0][1..]] + parts[1..];
    forall i | 0 <= i < |shorter| ensures sep !in shorter[i] {
      if i == 0 {
        assert forall c :: c in parts[0][1..] ==> c in parts[0];
      } else {
        assert shorter[i] == parts[i];
      }
    }
  }

  lemma {:induction false} SplitNoSeparator(s: string, sep: char)
    requires sep !in s
    ensures Split(s, sep) == [s]
    decreases |s|
  {
    if s != [] {
      assert forall c :: c in s[1..] ==> c in s;
      SplitNoSeparator(s[1..], sep);
      assert [s[0]] + s[1..] == s;
    }
  }

  /** White space and line terminators of ECMAScript, listed one by one. */
  const WhiteSpace: set<char> := {
    ' ', '\t', '\n', '\r', '\U{000B}', '\U{000C}', '\U{00A0}', '\U{1680}',
    '\U{2000}', '\U{2001}', '\U{2002}', '\U{2003}', '\U{2004}', '\U{2005}',
    '\U{2006}', '\U{2007}', '\U{2008}', '\U{2009}', '\U{200A}',
    '\U{2028}', '\U{2029}', '\U{202F}', '\U{205F}', '\U{3000}', '\U{FEFF}'}

  /** The characters `String.prototype.trim` removes: white space and line
      terminators; the comma is not one of them. */
  predicate IsSpace(c: char)
    ensures IsSpace(c) <==> c in WhiteSpace
  {
    || c == ' ' || c == '\t' || c == '\n' || c == '\r'
    || c == '\U{000B}' || c == '\U{000C}' || c == '\U{00A0}' || c == '\U{1680}'
    || ('\U{2000}' <= c <= '\U{200A}')
    || c == '\U{2028}' || c == '\U{2029}' || c == '\U{202F}' || c == '\U{205F}'
    || c == '\U{3000}' || c == '\U{FEFF}'
  }

  // The trimming functions take the class of characters they remove as a
  // parameter: `String.prototype.trim` uses IsSpace.

  /** How many characters of class `space` `s` starts with. */
  function LeadingSpaces(s: string, space: char -> bool): (n: nat)
    ensures n <= |s|
    ensures forall i :: 0 <= i < n ==> space(s[i])
    ensures n < |s| ==> !space(s[n])
    decreases |s|
  {
    if s == [] || !space(s[0]) then 0
    else
      var n := 1 + LeadingSpaces(s[1..], space);
      assert forall i :: 1 <= i < n ==> s[i] == s[1..][i - 1];
      n
  }

  /** How many characters of class `space` `s` ends with. */
  function TrailingSpaces(s: string, space: char -> bool): (n: nat)
    ensures n <= |s|
    ensures forall i :: |s| - n <= i < |s| ==> space(s[i])
    ensures n < |s| ==> !space(s[|s| - n - 1])
    decreases |s|
  {
    if s == [] || !space(s[|s| - 1]) then 0
    else
      var n := 1 + TrailingSpaces(s[..|s| - 1], space);
      assert forall i :: |s| - n <= i < |s| - 1 ==> s[i] == s[..|s| - 1][i];
      n
  }

  /** `s.trim()`: the slice of `s` left once the characters of class `space`
      at both ends are gone; it neither starts nor ends with one. */
  function Trim(s: string, space: char -> bool): (r: string)
    ensures var lead := LeadingSpaces(s, space);
      && lead + |r| <= |s|
      && r == s[lead..lead + |r|]
      && (forall i :: 0 <= i < lead ==> space(s[i]))
      && (forall i :: lead + |r| <= i < |s| ==> space(s[i]))
      && (r != [] ==> !space(r[0]) && !space(r[|r| - 1]))
  {
    var lead := LeadingSpaces(s, space);
    var rest := s[lead..];
    var trail := TrailingSpaces(rest, space);
    assert forall i :: lead + |rest| - trail <= i < |s| ==> s[i] == rest[i - lead];
    s[lead..|s| - trail]
  }

  /** Trim is the unique such slice: any string made of characters of class
      `space`, a core that neither starts nor ends with one, and characters
      of the class again trims to that core. */
  lemma TrimFindsCore(lead: string, core: string, trail: string, space: char -> bool)
    requires forall i :: 0 <= i < |lead| ==> space(lead[i])
    requires forall i :: 0 <= i < |trail| ==> space(trail[i])
    requires core != [] ==> !space(core[0]) && !space(core[|core| - 1])
    ensures Trim(lead + core + trail, space) == core
  {
    var s := lead + core + trail;
    if core == [] {
      assert s == (lead + trail) + [];
      AllSpaces(lead, trail, space);
      LeadingOfPrefix(lead + trail, [], space);
      assert s[|s|..] == [];
    } else {
      assert s == lead + (core + trail);
      LeadingOfPrefix(lead, core + trail, space);
      assert s[|lead|..] == core + trail;
      TrailingOfSuffix(core, trail, space);
      assert s[|lead|..|s| - |trail|] == core;
    }
  }

  lemma AllSpaces(a: string, b: string, space: char -> bool)
    requires forall i :: 0 <= i < |a| ==> space(a[i])
    requires forall i :: 0 <= i < |b| ==> space(b[i])
    ensures forall i :: 0 <= i < |a + b| ==> space((a + b)[i])
  {
    forall i | 0 <= i < |a + b| ensures space((a + b)[i]) {
      if i >= |a| {
        assert (a + b)[i] == b[i - |a|];
      }
    }
  }

  /** A run of characters of class `space` followed by a string that does
      not start with one: the run is exactly the leading part. */
  lemma LeadingOfPrefix(lead: string, rest: string, space: char -> bool)
    requires forall i :: 0 <= i < |lead| ==> space(lead[i])
    requires rest != [] ==> !space(rest[0])
    ensures LeadingSpaces(lead + rest, space) == |lead|
  {
    var s := lead + rest;
    assert forall i :: 0 <= i < |lead| ==> s[i] == lead[i];
    assert rest != [] ==> s[|lead|] == rest[0];
  }

  /** A string that does not end with a character of class `space` followed
      by a run of them: the run is exactly the trailing part. */
  lemma TrailingOfSuffix(rest: string, trail: string, space: char -> bool)
    requires forall i :: 0 <= i < |trail| ==> space(trail[i])
    requires rest != [] ==> !space(rest[|rest| - 1])
    ensures TrailingSpaces(rest + trail, space) == |trail|
  {
    var s := rest + trail;
    assert forall i :: |rest| <= i < |s| ==> s[i] == trail[i - |rest|];
    assert rest != [] ==> s[|rest| - 1] == rest[|rest| - 1];
  }

  /** The ids of a batch cancel: the input split at every comma, each piece
      trimmed. */
  function BatchIds(orderIds: string): (ids: seq<string>)
    ensures |ids| == Occurrences(orderIds, ',') + 1
    ensures forall i :: 0 <= i < |ids| ==> ids[i] == Trim(Split(orderIds, ',')[i], IsSpace)
  {
    var pieces := Split(orderIds, ',');
    seq(|pieces|, i requires 0 <= i < |pieces| => Trim(pieces[i], IsSpace))
  }

  function Strings(ss: seq<string>): (v: seq<JsValue>)
    ensures |v| == |ss| && forall i :: 0 <= i < |ss| ==> v[i] == Str(ss[i])
  {
    seq(|ss|, i requires 0 <= i < |ss| => Str(ss[i]))
  }

  /** An empty input still sends one id, the empty string. */
  lemma EmptyIdsSendOneEmptyId()
    ensures BatchIds("") == [""]
  {
    assert Trim("", IsSpace) == "";
  }

  // ---------------------------------------------------------------------
  // The request of each operation
  // ---------------------------------------------------------------------

  /** The resource/operation pairs `execute` acts on; every other pair
      produces nothing for the item. */
  predicate Recognised(resource: string, operation: string) {
    || (resource == "market" && operation in {"get", "getAll", "getHistory", "getOrderbook", "getTrades"})
    || (resource == "event" && operation in {"get", "getAll"})
    || (resource == "order" && operation in {"create", "cancel", "decrease", "get", "getAll", "batchCreate", "batchCancel"})
    || (resource == "position" && operation == "getAll")
    || (resource == "portfolio" && operation in {"getBalance", "getFills"})
    || (resource == "exchange" && operation in {"getStatus", "getSchedule"})
  }

  /** The fixed fields of an order. */
  function OrderBase(p: ItemParams): Dict {
    map["ticker" := Str(p.ticker), "action" := Str(p.action), "side" := Str(p.side),
        "type" := Str(p.orderType), "count" := Num(p.count)]
  }

  const BaseKeys: set<string> := {"ticker", "action", "side", "type", "count"}

  /** The body of an order create: the fixed fields, `yes_price` for a limit
      order, then every truthy option written over them. */
  function OrderBody(p: ItemParams): (b: Dict)
    ensures BaseKeys <= b.Keys
    ensures forall k :: k in p.orderOptions && Truthy(p.orderOptions[k]) ==> k in b && b[k] == p.orderOptions[k]
  {
    var base := if p.orderType == "limit" then OrderBase(p)["yes_price" := Num(p.price)] else OrderBase(p);
    WithTruthy(base, p.orderOptions)
  }

  /** The body holds the five fixed fields; it holds `yes_price` exactly for
      a limit order or when a truthy option supplies it; it holds every
      truthy option with its value and nothing else; a fixed field no option
      overrides keeps its parameter's value. */
  lemma OrderBodyFields(p: ItemParams)
    ensures var b := OrderBody(p);
      && BaseKeys <= b.Keys
      && ("yes_price" in b <==> p.orderType == "limit" || ("yes_price" in p.orderOptions && Truthy(p.orderOptions["yes_price"])))
      && (forall k :: k in p.orderOptions && Truthy(p.orderOptions[k]) ==> k in b && b[k] == p.orderOptions[k])
      && (forall k :: k in b ==> k in BaseKeys || k == "yes_price" || (k in p.orderOptions && Truthy(p.orderOptions[k])))
      && (forall k :: k in BaseKeys && !(k in p.orderOptions && Truthy(p.orderOptions[k])) ==> b[k] == OrderBase(p)[k])
      && (p.orderType == "limit" && !("yes_price" in p.orderOptions && Truthy(p.orderOptions["yes_price"])) ==> b["yes_price"] == Num(p.price))
  {
  }

  /** The option keys the parameter catalog offers for an order. */
  const OrderOptionKeys: set<string> := {"expiration_ts", "client_order_id", "sell_position_floor"}

  /** With the catalog's options, the body's keys are exactly the fixed
      fields, `yes_price` iff the order is a limit order, and the truthy
      options. */
  lemma CatalogOrderBody(p: ItemParams)
    requires p.orderOptions.Keys <= OrderOptionKeys
    ensures OrderBody(p).Keys == BaseKeys + (if p.orderType == "limit" then {"yes_price"} else {})
                                  + set k | k in p.orderOptions && Truthy(p.orderOptions[k])
  {
    var b := OrderBody(p);
    OrderBodyFields(p);
    assert "yes_price" !in p.orderOptions;
    var expected := BaseKeys + (if p.orderType == "limit" then {"yes_price"} else {})
                    + set k | k in p.orderOptions && Truthy(p.orderOptions[k]);
    forall k | k in expected ensures k in b {
    }
    forall k | k in b ensures k in expected {
    }
  }

  /** A GET with no body and the truthy entries of `filters` as its query. */
  function Listing(path: string, filters: Dict): (c: Option<Call>)
    ensures c.Some? && c.value.httpMethod == GET && c.value.endpoint == path && OmitsBody(GET, c.value.body)
    ensures c.value.qs.Keys == (set k | k in filters && Truthy(filters[k]))
    ensures forall k :: k in c.value.qs ==> c.value.qs[k] == filters[k]
  {
    Some(Call(GET, path, map[], WithTruthy(map[], filters)))
  }

  function Fetch(httpMethod: HttpMethod, path: string): Option<Call> {
    Some(Call(httpMethod, path, map[], map[]))
  }

  /** The call an item makes: None for an unrecognised resource/operation,
      an error when the batch of orders does not parse. */
  function CallFor(resource: string, operation: string, p: ItemParams, parse: string -> Result<JsValue>): (c: Result<Option<Call>>)
    ensures c == Ok(None) <==> !Recognised(resource, operation)
    ensures c.Err? <==> resource == "order" && operation == "batchCreate" && parse(p.orders).Err?
  {
    if resource == "market" then
      if operation == "get" then Ok(Fetch(GET, MarketsPath + "/" + p.ticker))
      else if operation == "getAll" then Ok(Listing(MarketsPath, p.filters))
      else if operation == "getHistory" then Ok(Listing(MarketsPath + "/" + p.ticker + "/history", p.historyOptions))
      else if operation == "getOrderbook" then Ok(Some(Call(GET, MarketsPath + "/" + p.ticker + "/orderbook", map[], map["depth" := Num(p.depth)])))
      else if operation == "getTrades" then Ok(Listing(MarketsPath + "/" + p.ticker + "/trades", p.tradesOptions))
      else Ok(None)
    else if resource == "event" then
      if operation == "get" then Ok(Fetch(GET, EventsPath + "/" + p.eventTicker))
      else if operation == "getAll" then Ok(Listing(EventsPath, p.filters))
      else Ok(None)
    else if resource == "order" then
      if operation == "create" then Ok(Some(Call(POST, OrdersPath, OrderBody(p), map[])))
      else if operation == "cancel" then Ok(Fetch(DELETE, OrdersPath + "/" + p.orderId))
      else if operation == "decrease" then Ok(Some(Call(POST, OrdersPath + "/" + p.orderId + "/decrease", map["reduce_by" := Num(p.reduceBy)], map[])))
      else if operation == "get" then Ok(Fetch(GET, OrdersPath + "/" + p.orderId))
      else if operation == "getAll" then Ok(Listing(OrdersPath, p.filters))
      else if operation == "batchCreate" then
        match parse(p.orders)
        case Err(e) => Err(e)
        case Ok(orders) => Ok(Some(Call(POST, BatchesPath, map["orders" := orders], map[])))
      else if operation == "batchCancel" then Ok(Some(Call(DELETE, BatchesPath, map["ids" := Arr(Strings(BatchIds(p.orderIds)))], map[])))
      else Ok(None)
    else if resource == "position" then
      if operation == "getAll" then Ok(Listing(PositionsPath, p.filters))
      else Ok(None)
    else if resource == "portfolio" then
      if operation == "getBalance" then Ok(Fetch(GET, BalancePath))
      else if operation == "getFills" then Ok(Listing(FillsPath, p.filters))
      else Ok(None)
    else if resource == "exchange" then
      if operation == "getStatus" then Ok(Fetch(GET, StatusPath))
      else if operation == "getSchedule" then Ok(Fetch(GET, SchedulePath))
      else Ok(None)
    else Ok(None)
  }

  /** Every listing is one GET of its path with no body and with exactly the
      truthy filters as its query: none of them pages through results. */
  lemma ListingsSendTruthyFilters(resource: string, operation: string, p: ItemParams, parse: string -> Result<JsValue>)
    requires (resource, operation) in {("market", "getAll"), ("event", "getAll"), ("order", "getAll"), ("position", "getAll"), ("portfolio", "getFills")}
    ensures var c := CallFor(resource, operation, p, parse);
      && c.Ok? && c.value.Some?
      && c.value.value.httpMethod == GET
      && OmitsBody(GET, c.value.value.body)
      && c.value.value.qs.Keys == (set k | k in p.filters && Truthy(p.filters[k]))
      && (forall k :: k in c.value.value.qs ==> c.value.value.qs[k] == p.filters[k])
  {
    var path := if resource == "market" then MarketsPath
                else if resource == "event" then EventsPath
                else if resource == "order" then OrdersPath
                else if resource == "position" then PositionsPath
                else FillsPath;
    assert CallFor(resource, operation, p, parse) == Ok(Listing(path, p.filters));
  }

  /** The order id is spliced into the paths of cancel, get and decrease
      verbatim: it is exactly what lies between the orders path and the
      suffix. A decrease posts `{reduce_by}` and nothing else. */
  lemma OrderIdInPath(operation: string, p: ItemParams, parse: string -> Result<JsValue>)
    requires operation in {"cancel", "get", "decrease"}
    ensures var c := CallFor("order", operation, p, parse);
      var suffix := if operation == "decrease" then "/decrease" else "";
      var e := c.value.value.endpoint;
      && c.Ok? && c.value.Some?
      && |e| == |OrdersPath| + 1 + |p.orderId| + |suffix|
      && e[..|OrdersPath| + 1] == OrdersPath + "/"
      && e[|OrdersPath| + 1..|e| - |suffix|] == p.orderId
      && e[|e| - |suffix|..] == suffix
      && c.value.value.httpMethod == (if operation == "cancel" then DELETE else if operation == "get" then GET else POST)
      && (operation == "decrease" ==> c.value.value.body == map["reduce_by" := Num(p.reduceBy)])
  {
    var c := CallFor("order", operation, p, parse);
    var e := c.value.value.endpoint;
    var suffix := if operation == "decrease" then "/decrease" else "";
    assert e == OrdersPath + "/" + p.orderId + suffix;
  }

  /** Market tickers are spliced into their paths verbatim, between the
      markets path and the operation's suffix; every market read is a GET
      without body. The order book sends `{depth}` whatever its value, zero
      included; history and trades send exactly the truthy entries of their
      own options. */
  lemma MarketTickerInPath(operation: string, p: ItemParams, parse: string -> Result<JsValue>)
    requires operation in {"get", "getHistory", "getOrderbook", "getTrades"}
    ensures var c := CallFor("market", operation, p, parse);
      var suffix := if operation == "getHistory" then "/history"
                    else if operation == "getOrderbook" then "/orderbook"
                    else if operation == "getTrades" then "/trades" else "";
      var e := c.value.value.endpoint;
      && c.Ok? && c.value.Some?
      && c.value.value.httpMethod == GET && OmitsBody(GET, c.value.value.body)
      && |e| == |MarketsPath| + 1 + |p.ticker| + |suffix|
      && e[..|MarketsPath| + 1] == MarketsPath + "/"
      && e[|MarketsPath| + 1..|e| - |suffix|] == p.ticker
      && e[|e| - |suffix|..] == suffix
      && (operation == "get" ==> c.value.value.qs == map[])
      && (operation == "getOrderbook" ==> c.value.value.qs == map["depth" := Num(p.depth)])
      && (operation == "getHistory" ==> c.value.value.qs.Keys == (set k | k in p.historyOptions && Truthy(p.historyOptions[k]))
                                        && forall k :: k in c.value.value.qs ==> c.value.value.qs[k] == p.historyOptions[k])
      && (operation == "getTrades" ==> c.value.value.qs.Keys == (set k | k in p.tradesOptions && Truthy(p.tradesOptions[k]))
                                       && forall k :: k in c.value.value.qs ==> c.value.value.qs[k] == p.tradesOptions[k])
  {
    var c := CallFor("market", operation, p, parse);
    var e := c.value.value.endpoint;
    var suffix := if operation == "getHistory" then "/history"
                  else if operation == "getOrderbook" then "/orderbook"
                  else if operation == "getTrades" then "/trades" else "";
    assert e == MarketsPath + "/" + p.ticker + suffix;
  }

  /** An event ticker is spliced verbatim after the events path; the read is
      a GET with no body and no query. */
  lemma EventTickerInPath(p: ItemParams, parse: string -> Result<JsValue>)
    ensures var c := CallFor("event", "get", p, parse);
      var e := c.value.value.endpoint;
      && c.Ok? && c.value.Some?
      && c.value.value.httpMethod == GET && OmitsBody(GET, c.value.value.body) && c.value.value.qs == map[]
      && |e| == |EventsPath| + 1 + |p.eventTicker|
      && e[..|EventsPath| + 1] == EventsPath + "/"
      && e[|EventsPath| + 1..] == p.eventTicker
  {
    var e := CallFor("event", "get", p, parse).value.value.endpoint;
    assert e == EventsPath + "/" + p.eventTicker;
  }

  /** A batch cancel sends DELETE with `{ids}`: one id per comma plus one,
      each the trimmed piece, so an empty input sends `['']`. */
  lemma BatchCancelIds(p: ItemParams, parse: string -> Result<JsValue>)
    ensures var c := CallFor("order", "batchCancel", p, parse);
      && c.Ok? && c.value.Some?
      && c.value.value.httpMethod == DELETE
      && !OmitsBody(DELETE, c.value.value.body)
      && "ids" in c.value.value.body
      && var ids := c.value.value.body["ids"];
         && ids.Arr?
         && |ids.elems| == Occurrences(p.orderIds, ',') + 1
         && forall i :: 0 <= i < |ids.elems| ==> ids.elems[i] == Str(Trim(Split(p.orderIds, ',')[i], IsSpace))
  {
  }

  /** The imperative construction of an item's call, as `execute` performs
      it: parameters read, query and body objects filled in place. */
  method PrepareCall(resource: string, operation: string, p: ItemParams, parse: string -> Result<JsValue>)
    returns (c: Result<Option<Call>>)
    ensures c == CallFor(resource, operation, p, parse)
  {
    c := Ok(None);
    if resource == "market" {
      if operation == "get" {
        c := Ok(Fetch(GET, MarketsPath + "/" + p.ticker));
      }
      if operation == "getAll" {
        var qs := CopyTruthy(map[], p.filters);
        c := Ok(Some(Call(GET, MarketsPath, map[], qs)));
      }
      if operation == "getHistory" {
        var qs := CopyTruthy(map[], p.historyOptions);
        c := Ok(Some(Call(GET, MarketsPath + "/" + p.ticker + "/history", map[], qs)));
      }
      if operation == "getOrderbook" {
        c := Ok(Some(Call(GET, MarketsPath + "/" + p.ticker + "/orderbook", map[], map["depth" := Num(p.depth)])));
      }
      if operation == "getTrades" {
        var qs := CopyTruthy(map[], p.tradesOptions);
        c := Ok(Some(Call(GET, MarketsPath + "/" + p.ticker + "/trades", map[], qs)));
      }
    }
    if resource == "event" {
      if operation == "get" {
        c := Ok(Fetch(GET, EventsPath + "/" + p.eventTicker));
      }
      if operation == "getAll" {
        var qs := CopyTruthy(map[], p.filters);
        c := Ok(Some(Call(GET, EventsPath, map[], qs)));
      }
    }
    if resource == "order" {
      c := PrepareOrderCall(operation, p, parse);
    }
    if resource == "position" {
      if operation == "getAll" {
        var qs := CopyTruthy(map[], p.filters);
        c := Ok(Some(Call(GET, PositionsPath, map[], qs)));
      }
    }
    if resource == "portfolio" {
      if operation == "getBalance" {
        c := Ok(Fetch(GET, BalancePath));
      }
      if operation == "getFills" {
        var qs := CopyTruthy(map[], p.filters);
        c := Ok(Some(Call(GET, FillsPath, map[], qs)));
      }
    }
    if resource == "exchange" {
      if operation == "getStatus" {
        c := Ok(Fetch(GET, StatusPath));
      }
      if operation == "getSchedule" {
        c := Ok(Fetch(GET, SchedulePath));
      }
    }
  }

  /** The order operations of PrepareCall. */
  method PrepareOrderCall(operation: string, p: ItemParams, parse: string -> Result<JsValue>)
    returns (c: Result<Option<Call>>)
    ensures c == CallFor("order", operation, p, parse)
  {
    c := Ok(None);
    if operation == "create" {
      var body := OrderBase(p);
      if p.orderType == "limit" {
        body := body["yes_price" := Num(p.price)];
      }
      body := CopyTruthy(body, p.orderOptions);
      c := Ok(Some(Call(POST, OrdersPath, body, map[])));
    }
    if operation == "cancel" {
      c := Ok(Fetch(DELETE, OrdersPath + "/" + p.orderId));
    }
    if operation == "decrease" {
      c := Ok(Some(Call(POST, OrdersPath + "/" + p.orderId + "/decrease", map["reduce_by" := Num(p.reduceBy)], map[])));
    }
    if operation == "get" {
      c := Ok(Fetch(GET, OrdersPath + "/" + p.orderId));
    }
    if operation == "getAll" {
      var qs := CopyTruthy(map[], p.filters);
      c := Ok(Some(Call(GET, OrdersPath, map[], qs)));
    }
    if operation == "batchCreate" {
      var orders := parse(p.orders);
      if orders.Err? {
        return Err(orders.error);
      }
      c := Ok(Some(Call(POST, BatchesPath, map["orders" := orders.value], map[])));
    }
    if operation == "batchCancel" {
      var ids := BatchIds(p.orderIds);
      c := Ok(Some(Call(DELETE, BatchesPath, map["ids" := Arr(Strings(ids))], map[])));
    }
  }

  // ---------------------------------------------------------------------
  // The item loop
  // ---------------------------------------------------------------------

  /** What one item came to. */
  datatype ItemResult = Skipped | Answered(response: JsValue) | Failed(error: Error)

  /** The entry `continueOnFail` records for a failed item. */
  function ErrorEntry(e: Error): (v: JsValue)
    ensures v.Obj? && v.props.Keys == {"error"} && v.props["error"] == Str(e.message)
  {
    Obj(map["error" := Str(e.message)])
  }

  /** The entries an item adds to the output. */
  function Entries(trace: seq<ItemResult>): (es: seq<JsValue>)
    ensures |es| <= |trace|
  {
    if trace == [] then []
    else
      (match trace[0]
       case Skipped => []
       case Answered(v) => [v]
       case Failed(e) => [ErrorEntry(e)]) + Entries(trace[1..])
  }

  /** How an item's call is built from its parameters. */
  type CallBuilder = ItemParams -> Result<Option<Call>>

  /** The builder of `execute`: `resource` and `operation` are read once,
      from item 0, and the same pair applies to every item. */
  function CallsFor(resource: string, operation: string, parse: string -> Result<JsValue>): CallBuilder {
    p => CallFor(resource, operation, p, parse)
  }

  /** A builder that never yields "nothing to do". */
  ghost predicate NeverSkips(calls: CallBuilder) {
    forall p :: calls(p) != Ok(None)
  }

  /** A recognised resource/operation builds a call, or fails, for every item. */
  lemma RecognisedNeverSkips(resource: string, operation: string, parse: string -> Result<JsValue>)
    requires Recognised(resource, operation)
    ensures NeverSkips(CallsFor(resource, operation, parse))
  {
    forall p ensures CallsFor(resource, operation, parse)(p) != Ok(None) {
      assert CallsFor(resource, operation, parse)(p) == CallFor(resource, operation, p, parse);
    }
  }

  /** One item: dispatch its call, if it has one. A build error fails the
      item without a request; an item without a call changes nothing; a
      call is dispatched once and the item fails exactly when the dispatch
      does. */
  function RunItem(st: State, dispatch: Dispatcher, call: Result<Option<Call>>): (r: Step<ItemResult>)
    ensures r.result.Skipped? <==> call == Ok(None)
    ensures call.Err? ==> r == Step(Failed(call.error), st)
    ensures call == Ok(None) ==> r.after == st
    ensures call.Ok? && call.value.Some? ==>
      var d := dispatch(st, call.value.value);
      && r.after == d.after
      && (r.result.Failed? <==> d.result.Err?)
      && (d.result.Ok? ==> r.result == Answered(d.result.value))
      && (d.result.Err? ==> r.result == Failed(d.result.error))
  {
    match call
    case Err(e) => Step(Failed(e), st)
    case Ok(None) => Step(Skipped, st)
    case Ok(Some(c)) =>
      var d := dispatch(st, c);
      Step(if d.result.Ok? then Answered(d.result.value) else Failed(d.result.error), d.after)
  }

  /** The outcome of `execute`: its result, the state afterwards, and what
      each item it reached came to. */
  datatype Run = Run(result: Result<seq<JsValue>>, after: State, trace: seq<ItemResult>)

  /** The item loop over `items`: a failure is recorded as an entry under
      `continueOnFail` and otherwise rethrown, ending the loop. */
  function ExecuteFrom(st: State, dispatch: Dispatcher, calls: CallBuilder, items: seq<ItemParams>, continueOnFail: bool): (run: Run)
    ensures |run.trace| <= |items|
    ensures run.result.Err? ==> !continueOnFail && |run.trace| >= 1 && run.trace[|run.trace| - 1] == Failed(run.result.error)
    decreases |items|
  {
    if items == [] then Run(Ok([]), st, [])
    else
      var item := RunItem(st, dispatch, calls(items[0]));
      if item.result.Failed? && !continueOnFail then Run(Err(item.result.error), item.after, [item.result])
      else
        var rest := ExecuteFrom(item.after, dispatch, calls, items[1..], continueOnFail);
        Run(Prepend(Entries([item.result]), rest.result), rest.after, [item.result] + rest.trace)
  }

  lemma {:induction false} EntriesAppend(a: seq<ItemResult>, b: seq<ItemResult>)
    ensures Entries(a + b) == Entries(a) + Entries(b)
  {
    if a == [] {
      assert a + b == b;
    } else {
      assert (a + b)[1..] == a[1..] + b;
      EntriesAppend(a[1..], b);
    }
  }

  /** A successful run outputs the entries of its trace, in item order; under
      `continueOnFail` the run always succeeds and reaches every item; and
      when no item is skipped (a recognised resource/operation) there is
      exactly one entry per item, the k-th entry coming from the k-th item. */
  lemma {:induction false} ExecuteOneEntryPerItem(st: State, dispatch: Dispatcher, calls: CallBuilder,
                                                  items: seq<ItemParams>, continueOnFail: bool)
    ensures var run := ExecuteFrom(st, dispatch, calls, items, continueOnFail);
      && (run.result.Ok? ==> |run.trace| == |items| && run.result.value == Entries(run.trace))
      && (continueOnFail ==> run.result.Ok?)
      && (NeverSkips(calls) ==> forall k :: 0 <= k < |run.trace| ==> !run.trace[k].Skipped?)
      && (run.result.Ok? && NeverSkips(calls) ==> |run.result.value| == |items|)
    decreases |items|
  {
    var run := ExecuteFrom(st, dispatch, calls, items, continueOnFail);
    if items != [] {
      var item := RunItem(st, dispatch, calls(items[0]));
      if !(item.result.Failed? && !continueOnFail) {
        var rest := ExecuteFrom(item.after, dispatch, calls, items[1..], continueOnFail);
        ExecuteOneEntryPerItem(item.after, dispatch, calls, items[1..], continueOnFail);
        assert run.trace == [item.result] + rest.trace;
        EntriesAppend([item.result], rest.trace);
        if NeverSkips(calls) {
          assert calls(items[0]) != Ok(None);
          forall k | 0 <= k < |run.trace| ensures !run.trace[k].Skipped? {
            if k > 0 {
              assert run.trace[k] == rest.trace[k - 1];
            }
          }
          if run.result.Ok? {
            EntriesOfAnswers(run.trace);
          }
        }
      } else if NeverSkips(calls) {
        assert run.trace == [item.result];
      }
    }
  }

  /** Without Skipped items there is one entry per item. */
  lemma {:induction false} EntriesOfAnswers(trace: seq<ItemResult>)
    requires forall k :: 0 <= k < |trace| ==> !trace[k].Skipped?
    ensures |Entries(trace)| == |trace|
  {
    if trace != [] {
      EntriesOfAnswers(trace[1..]);
    }
  }

  /** Without `continueOnFail` the first failure is rethrown: the run fails
      exactly when some item failed, with the error of the last item it
      reached, and every item before that one succeeded. */
  lemma {:induction false} ExecuteRethrowsFirstFailure(st: State, dispatch: Dispatcher, calls: CallBuilder, items: seq<ItemParams>)
    ensures var run := ExecuteFrom(st, dispatch, calls, items, false);
      && (run.result.Err? <==> exists k :: 0 <= k < |run.trace| && run.trace[k].Failed?)
      && (run.result.Err? ==>
            && |run.trace| >= 1
            && run.trace[|run.trace| - 1] == Failed(run.result.error)
            && forall k :: 0 <= k < |run.trace| - 1 ==> !run.trace[k].Failed?)
    decreases |items|
  {
    var run := ExecuteFrom(st, dispatch, calls, items, false);
    if items != [] {
      var item := RunItem(st, dispatch, calls(items[0]));
      if item.result.Failed? {
        assert run.trace[0].Failed?;
      } else {
        var rest := ExecuteFrom(item.after, dispatch, calls, items[1..], false);
        ExecuteRethrowsFirstFailure(item.after, dispatch, calls, items[1..]);
        assert run.trace == [item.result] + rest.trace;
        if rest.result.Err? {
          var k :| 0 <= k < |rest.trace| && rest.trace[k].Failed?;
          assert run.trace[k + 1].Failed?;
          forall j | 0 <= j < |run.trace| - 1 ensures !run.trace[j].Failed? {
            if j > 0 {
              assert run.trace[j] == rest.trace[j - 1];
            }
          }
        } else {
          forall k | 0 <= k < |run.trace| ensures !run.trace[k].Failed? {
            if k > 0 {
              assert run.trace[k] == rest.trace[k - 1];
            }
          }
        }
      }
    }
  }

  /** The entry a reached item adds, if any. */
  function EntryOf(r: ItemResult): (v: seq<JsValue>)
    ensures r.Skipped? ==> v == []
    ensures r.Answered? ==> v == [r.response]
    ensures r.Failed? ==> v == [ErrorEntry(r.error)]
  {
    Entries([r])
  }

  /** One iteration of the item loop: the first item's outcome stops the
      loop when it failed and `continueOnFail` is off; otherwise its entry
      comes first and the rest of the items follow from the state it left. */
  lemma ExecuteStep(st: State, dispatch: Dispatcher, calls: CallBuilder, items: seq<ItemParams>, continueOnFail: bool)
    requires items != []
    ensures var item := RunItem(st, dispatch, calls(items[0]));
      var run := ExecuteFrom(st, dispatch, calls, items, continueOnFail);
      var rest := ExecuteFrom(item.after, dispatch, calls, items[1..], continueOnFail);
      && (item.result.Failed? && !continueOnFail ==> run == Run(Err(item.result.error), item.after, [item.result]))
      && (!(item.result.Failed? && !continueOnFail) ==>
            run == Run(Prepend(Entries([item.result]), rest.result), rest.after, [item.result] + rest.trace))
  {
  }

  /** Items are handled in input order: the k-th result of a run is what the
      k-th item comes to in the state the first k items left, and those k
      items ran without stopping the loop and produced the first k results. */
  lemma {:induction false} ExecuteInInputOrder(st: State, dispatch: Dispatcher, calls: CallBuilder,
                                               items: seq<ItemParams>, continueOnFail: bool, k: nat)
    requires k < |ExecuteFrom(st, dispatch, calls, items, continueOnFail).trace|
    ensures k < |items|
    ensures var run := ExecuteFrom(st, dispatch, calls, items, continueOnFail);
      var pre := ExecuteFrom(st, dispatch, calls, items[..k], continueOnFail);
      && pre.result.Ok? && pre.trace == run.trace[..k]
      && run.trace[k] == RunItem(pre.after, dispatch, calls(items[k])).result
    decreases k
  {
    var run := ExecuteFrom(st, dispatch, calls, items, continueOnFail);
    ExecuteStep(st, dispatch, calls, items, continueOnFail);
    var item := RunItem(st, dispatch, calls(items[0]));
    if k == 0 {
      assert items[..0] == [];
    } else {
      var rest := ExecuteFrom(item.after, dispatch, calls, items[1..], continueOnFail);
      ExecuteInInputOrder(item.after, dispatch, calls, items[1..], continueOnFail, k - 1);
      var preRest := ExecuteFrom(item.after, dispatch, calls, items[1..][..k - 1], continueOnFail);
      var prefix := items[..k];
      assert prefix[0] == items[0] && prefix[1..] == items[1..][..k - 1];
      ExecuteStep(st, dispatch, calls, prefix, continueOnFail);
      assert items[1..][k - 1] == items[k];
      var pre := ExecuteFrom(st, dispatch, calls, prefix, continueOnFail);
      PrefixStep(run.trace, rest.trace, pre.trace, preRest.trace, item.result, k);
    }
  }

  lemma PrefixStep(trace: seq<ItemResult>, rest: seq<ItemResult>, pre: seq<ItemResult>, preRest: seq<ItemResult>,
                   first: ItemResult, k: nat)
    requires 1 <= k && k - 1 < |rest|
    requires trace == [first] + rest && pre == [first] + preRest && preRest == rest[..k - 1]
    ensures pre == trace[..k] && trace[k] == rest[k - 1]
  {
  }

  /** Without skipped items, the k-th entry is the k-th item's entry. */
  lemma {:induction false} EntriesPointwise(trace: seq<ItemResult>)
    requires forall k :: 0 <= k < |trace| ==> !trace[k].Skipped?
    ensures |Entries(trace)| == |trace|
    ensures forall k :: 0 <= k < |trace| ==> [Entries(trace)[k]] == EntryOf(trace[k])
  {
    if trace != [] {
      EntriesPointwise(trace[1..]);
      assert Entries(trace) == EntryOf(trace[0]) + Entries(trace[1..]);
      forall k | 0 <= k < |trace| ensures [Entries(trace)[k]] == EntryOf(trace[k]) {
        if k > 0 {
          assert trace[k] == trace[1..][k - 1];
        }
      }
    }
  }

  /** Under `continueOnFail`, for a builder that never skips, the output's
      k-th entry is the response, or the `{error}` entry, of the k-th input
      item, run in the state the items before it left. */
  lemma KthEntryIsKthItem(st: State, dispatch: Dispatcher, calls: CallBuilder, items: seq<ItemParams>, k: nat)
    requires NeverSkips(calls) && k < |items|
    ensures var run := ExecuteFrom(st, dispatch, calls, items, true);
      var pre := ExecuteFrom(st, dispatch, calls, items[..k], true);
      var outcome := RunItem(pre.after, dispatch, calls(items[k])).result;
      && run.result.Ok? && |run.result.value| == |items|
      && (outcome.Answered? ==> run.result.value[k] == outcome.response)
      && (outcome.Failed? ==> run.result.value[k] == ErrorEntry(outcome.error))
  {
    var run := ExecuteFrom(st, dispatch, calls, items, true);
    ExecuteOneEntryPerItem(st, dispatch, calls, items, true);
    var trace := run.trace;
    assert |trace| == |items| && run.result.value == Entries(trace);
    assert forall j :: 0 <= j < |trace| ==> !trace[j].Skipped?;
    ExecuteInInputOrder(st, dispatch, calls, items, true, k);
    EntriesPointwise(trace);
    assert [Entries(trace)[k]] == EntryOf(trace[k]);
  }

  /** One pass of the loop body: the item's call is built and, if there is
      one, sent through the session. */
  method RunOne(session: Session, clock: nat -> int, resource: string, operation: string, p: ItemParams,
                parse: string -> Result<JsValue>)
    returns (outcome: ItemResult)
    modifies session
    ensures Step(outcome, session.Snapshot())
         == RunItem(old(session.Snapshot()), DispatcherFor(session.credentials, clock), CallFor(resource, operation, p, parse))
  {
    var call := PrepareCall(resource, operation, p, parse);
    outcome := Skipped;
    match call {
      case Err(e) =>
        outcome := Failed(e);
      case Ok(None) =>
      case Ok(Some(c)) =>
        var response := session.ApiRequest(clock, c);
        outcome := if response.Ok? then Answered(response.value) else Failed(response.error);
    }
  }

  /** `execute`: the items are run in order through the session, each
      response (or, under `continueOnFail`, each error entry) appended to
      the output. */
  method Execute(session: Session, clock: nat -> int, resource: string, operation: string, items: seq<ItemParams>,
                 parse: string -> Result<JsValue>, continueOnFail: bool)
    returns (r: Result<seq<JsValue>>)
    modifies session
    ensures var run := ExecuteFrom(old(session.Snapshot()), DispatcherFor(session.credentials, clock),
                                   CallsFor(resource, operation, parse), items, continueOnFail);
      r == run.result && session.Snapshot() == run.after
  {
    var dispatch := DispatcherFor(session.credentials, clock);
    var calls := CallsFor(resource, operation, parse);
    ghost var whole := ExecuteFrom(session.Snapshot(), dispatch, calls, items, continueOnFail);
    var returnData: seq<JsValue> := [];
    for i := 0 to |items|
      invariant var rest := ExecuteFrom(session.Snapshot(), dispatch, calls, items[i..], continueOnFail);
        whole.result == Prepend(returnData, rest.result) && whole.after == rest.after
    {
      ghost var before := session.Snapshot();
      ghost var gathered := returnData;
      assert items[i..][1..] == items[i + 1..];
      assert calls(items[i]) == CallFor(resource, operation, items[i], parse);
      var outcome := RunOne(session, clock, resource, operation, items[i], parse);
      if outcome.Failed? && !continueOnFail {
        assert whole.after == session.Snapshot();
        return Err(outcome.error);
      }
      returnData := returnData + Entries([outcome]);
      PrependPrepend(gathered, Entries([outcome]),
                   ExecuteFrom(session.Snapshot(), dispatch, calls, items[i + 1..], continueOnFail).result);
    }
    assert items[|items|..] == [];
    assert returnData + [] == returnData;
    r := Ok(returnData);
  }
}
