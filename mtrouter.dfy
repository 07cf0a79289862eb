/** The MT (mobile terminated) routing table view (rest_api/views/mtrouter.py): the
    `mtrouter -l` listing, the lookup by order, flushing, creation through the
    interactive keys, and the one-shot actions. */
module MtRouter {
  import opened Text
  import opened Exceptions
  import opened Session
  import opened Tools
  import opened Dialect

  /** The console lines of the router commands. */
  const ListLine := "mtrouter -l"
  const AddLine := "mtrouter -a"
  const FlushLine := "mtrouter -f"

  /** The two route types `create` treats specially, as the lower-cased type names. */
  const RoundRobin := "randomroundrobinmtroute"
  const DefaultRoute := "defaultroute"

  /** The details of the errors with a fixed text. */
  const TooFewConnectors := "RandomRoundrobinMTRoute requires at least two connectors"
  const NotOneConnector := "One and only one connector is required for this router type"
  const ListingFailed := "Error listing MT routers"

  datatype Route = Route(order: string, rtype: string, rate: string,
                         connectors: seq<string>, filters: seq<string>)

  // ---------------------------------------------------------------------------
  // The listing

  /** The route a listing row describes; a row of fewer than four columns makes the
      comprehension index past its end. The filters are the columns from the fifth on,
      joined with spaces and split at commas. */
  function RouteOf(row: seq<string>): (r: Option<Route>)
    ensures r.Some? <==> |row| >= 4
  {
    if |row| < 4 then None
    else Some(Route(OrderOf(row[0]), row[1], row[2], ItemsOf(row[3]),
                    if |row| > 4 then ItemsOf(Join(" ", row[4..])) else []))
  }

  /** The routes of the rows, in order, or the IndexError of the first short row. */
  function RoutesOf(rows: seq<seq<string>>): (r: Result<seq<Route>>)
    ensures r.Ok? ==> |r.value| == |rows|
    ensures r.Err? ==> r.failure == Crash("IndexError")
  {
    if rows == [] then Ok([])
    else if |rows[0]| < 4 then Err(Crash("IndexError"))
    else
      var rest := RoutesOf(rows[1..]);
      if rest.Err? then rest
      else Ok([RouteOf(rows[0]).value] + rest.value)
  }

  /** The rows parse exactly when every one has the four route columns, and then the i-th
      route is the i-th row's. */
  lemma {:induction false} RoutesOfRows(rows: seq<seq<string>>)
    ensures RoutesOf(rows).Ok? <==> forall i :: 0 <= i < |rows| ==> |rows[i]| >= 4
    ensures RoutesOf(rows).Ok? ==>
      forall i :: 0 <= i < |rows| ==> RouteOf(rows[i]) == Some(RoutesOf(rows).value[i])
  {
    if rows != [] {
      RoutesOfRows(rows[1..]);
      if |rows[0]| >= 4 && RoutesOf(rows[1..]).Ok? {
        var rs := RoutesOf(rows).value;
        var rest := RoutesOf(rows[1..]).value;
        assert rs == [RouteOf(rows[0]).value] + rest;
        forall i | 1 <= i < |rows| ensures RouteOf(rows[i]) == Some(rs[i]) {
          assert rows[i] == rows[1..][i - 1] && rs[i] == rest[i - 1];
        }
      } else if |rows[0]| >= 4 {
        var i :| 0 <= i < |rows[1..]| && |rows[1..][i]| < 4;
        assert rows[i + 1] == rows[1..][i];
      }
    }
  }

  /** What `_list` makes of the reply to `mtrouter -l`. */
  function Routes(text: string): (r: Result<seq<Route>>)
    ensures |TableLines(text)| < 5 ==> r == Ok([])
  {
    RoutesOf(CleanRows(text))
  }

  /** _list: `mtrouter -l`, one wait, and the routes of the reply. */
  function ListRun(script: seq<Reply>, at: nat): (r: Run<seq<Route>>)
    ensures r.lines == [ListLine] && r.consumed == 1 && !r.synced
    ensures r.result.Ok? <==> ReplyAt(script, at).Match? && Routes(ReplyAt(script, at).text).Ok?
    ensures ReplyAt(script, at).Match? ==> r.result == Routes(ReplyAt(script, at).text)
    ensures !ReplyAt(script, at).Match? ==> r.result == Err(WaitFailure(ReplyAt(script, at)))
  {
    var reply := ReplyAt(script, at);
    Run([ListLine], 1, false,
      match reply
      case Match(_, t) => Routes(t)
      case _ => Err(WaitFailure(reply)))
  }

  method List(c: Console) returns (res: Result<seq<Route>>)
    modifies c`sent, c`read
    ensures Advanced(old(c.sent), old(c.read), c, ListRun(c.script, old(c.read)))
    ensures res == ListRun(c.script, old(c.read)).result
  {
    var r := Command(c, ListLine);
    if !r.Match? {
      return Err(WaitFailure(r));
    }
    var lines := TableLines(r.text);
    if |lines| < 3 {
      return Ok([]);
    }
    var rows := SplitCols(Cleaned(Body(lines)));
    res := RoutesOf(rows);
  }

  /** The `list` handler: any failure becomes UnknownError. */
  method ListView(c: Console) returns (res: Result<seq<Route>>)
    modifies c`sent, c`read
    ensures Advanced(old(c.sent), old(c.read), c, ListRun(c.script, old(c.read)))
    ensures var r := ListRun(c.script, old(c.read)).result;
      if r.Ok? then res == r else res == Err(Api(UnknownError, ListingFailed))
  {
    res := List(c);
    if res.Err? {
      res := Err(Api(UnknownError, ListingFailed));
    }
  }

  // ---------------------------------------------------------------------------
  // Lookup by order

  /** The first route with the given order. */
  function Find(routes: seq<Route>, order: string): (r: Option<Route>)
    ensures r.Some? ==> r.value in routes && r.value.order == order
    ensures r.None? <==> forall i :: 0 <= i < |routes| ==> routes[i].order != order
    ensures r.Some? ==> exists i :: 0 <= i < |routes| && routes[i] == r.value &&
                                    forall j :: 0 <= j < i ==> routes[j].order != order
  {
    if routes == [] then None
    else if routes[0].order == order then Some(routes[0])
    else
      var r := Find(routes[1..], order);
      if r.Some? then
        ghost var i :| 0 <= i < |routes[1..]| && routes[1..][i] == r.value &&
          forall j :: 0 <= j < i ==> routes[1..][j].order != order;
        assert routes[i + 1] == r.value;
        assert forall j :: 1 <= j < i + 1 ==> routes[j] == routes[1..][j - 1];
        r
      else
        assert forall i :: 1 <= i < |routes| ==> routes[i] == routes[1..][i - 1];
        r
  }

  function GetRouterRun(order: string, script: seq<Reply>, at: nat): (r: Run<Route>)
    ensures r.lines == [ListLine] && r.consumed == 1 && !r.synced
    ensures r.result.Ok? ==> r.result.value.order == order
    ensures ListRun(script, at).result.Ok? && Find(ListRun(script, at).result.value, order).None? ==>
      r.result == Err(Api(ObjectNotFoundError, "No MTRouter with order: " + order))
    ensures ListRun(script, at).result.Ok? && Find(ListRun(script, at).result.value, order).Some? ==>
      r.result == Ok(Find(ListRun(script, at).result.value, order).value)
    ensures ListRun(script, at).result.Err? ==> r.result == Err(ListRun(script, at).result.failure)
  {
    var l := ListRun(script, at);
    if l.result.Err? then Stop(l)
    else
      match Find(l.result.value, order)
      case Some(route) => Run(l.lines, l.consumed, false, Ok(route))
      case None => Failed(l.lines, l.consumed, Api(ObjectNotFoundError, "No MTRouter with order: " + order))
  }

  method GetRouter(c: Console, order: string) returns (res: Result<Route>)
    modifies c`sent, c`read
    ensures Advanced(old(c.sent), old(c.read), c, GetRouterRun(order, c.script, old(c.read)))
    ensures res == GetRouterRun(order, c.script, old(c.read)).result
  {
    var routes := List(c);
    if routes.Err? {
      return Err(routes.failure);
    }
    var found := Find(routes.value, order);
    if found.None? {
      return Err(Api(ObjectNotFoundError, "No MTRouter with order: " + order));
    }
    res := Ok(found.value);
  }

  /** The `retrieve` handler: a missing route is reported as UnknownError. */
  method Retrieve(c: Console, order: string) returns (res: Result<Route>)
    modifies c`sent, c`read
    ensures Advanced(old(c.sent), old(c.read), c, GetRouterRun(order, c.script, old(c.read)))
    ensures var r := GetRouterRun(order, c.script, old(c.read)).result;
      if r.Err? && r.failure.Api? && r.failure.kind == ObjectNotFoundError
      then res == Err(Api(UnknownError, r.failure.detail)) else res == r
  {
    res := GetRouter(c, order);
    if res.Err? && res.failure.Api? && res.failure.kind == ObjectNotFoundError {
      res := Err(Api(UnknownError, res.failure.detail));
    }
  }

  // ---------------------------------------------------------------------------
  // Flush

  function FlushRun(replicated: bool, script: seq<Reply>, at: nat): (r: Run<()>)
    ensures r.result.Ok? ==> r.lines == [FlushLine, PersistLine] && r.synced == replicated
    ensures !ReplyAt(script, at).Match? ==> r.lines == [FlushLine] && r.result.Err?
  {
    AndThen(StepRun(FlushLine, script, at), PersistRun(script, at + 1, replicated))
  }

  method Flush(c: Console, replicas: seq<Console>, replicated: bool) returns (res: Result<()>)
    requires c !in replicas
    modifies c`sent, c`read, replicas
    ensures Advanced(old(c.sent), old(c.read), c, FlushRun(replicated, c.script, old(c.read)))
    ensures Fanned(replicas, FlushRun(replicated, c.script, old(c.read)).synced)
    ensures res == FlushRun(replicated, c.script, old(c.read)).result
  {
    res := Step(c, FlushLine);
    if res.Ok? {
      res := Persist(c, replicas, replicated);
    }
  }

  // ---------------------------------------------------------------------------
  // Create

  /** The connector list of a request: smppc(...) pieces then http(...) pieces. */
  function RequestConnectors(data: map<string, string>): seq<string>
  {
    Connectors("smppc", Get(data, "smppconnectors", "")) + Connectors("http", Get(data, "httpconnectors", ""))
  }

  /** The filters and order keys of a route that is not the default route. */
  function RoutingKeys(data: map<string, string>, rtype: string, order: string)
    : (r: Result<seq<(string, string)>>)
    ensures r.Ok? <==> rtype == DefaultRoute || "filters" in data
    ensures r.Ok? ==> Names(r.value) == (if rtype == DefaultRoute then [] else ["filters", "order"])
    ensures r.Err? ==> r.failure == Api(MissingKeyError, rtype + " router requires filters")
  {
    if rtype == DefaultRoute then Ok([])
    else if "filters" !in data then Err(Api(MissingKeyError, rtype + " router requires filters"))
    else Ok([("filters", Join(";", ItemsOf(data["filters"]))), ("order", order)])
  }

  /** The connector key for the requested connectors `conns`: a round-robin route takes
      two or more, ';'-joined, every other route exactly one. */
  function ConnectorKey(conns: seq<string>, rtype: string): (r: Result<(string, string)>)
    ensures r.Ok? <==> (if rtype == RoundRobin then |conns| >= 2 else |conns| == 1)
    ensures r.Ok? ==> r.value.0 == (if rtype == RoundRobin then "connectors" else "connector")
    ensures r.Ok? && rtype != RoundRobin ==> r.value.1 == conns[0]
    ensures r.Err? ==> r.failure.Api?
    ensures r.Err? ==>
      r.failure.kind == (if rtype == RoundRobin then MultipleValuesRequiredKeyError
                         else MissingKeyError)
  {
    if rtype == RoundRobin then
      if |conns| < 2 then
        Err(Api(MultipleValuesRequiredKeyError, TooFewConnectors))
      else Ok(("connectors", Join(";", conns)))
    else if |conns| != 1 then
      Err(Api(MissingKeyError, NotOneConnector))
    else Ok(("connector", conns[0]))
  }

  /** The interactive keys `create` sets, in order, or why it gives up: the type, the
      routing keys, the connector key, the rate. */
  function Keys(data: map<string, string>, rtype: string, order: string, rate: string)
    : (r: Result<seq<(string, string)>>)
    ensures r.Ok? <==> RoutingKeys(data, rtype, order).Ok? && ConnectorKey(RequestConnectors(data), rtype).Ok?
    ensures r.Err? && RoutingKeys(data, rtype, order).Err? ==> r.failure == RoutingKeys(data, rtype, order).failure
    ensures r.Err? && RoutingKeys(data, rtype, order).Ok? ==> r.failure == ConnectorKey(RequestConnectors(data), rtype).failure
    ensures r.Ok? ==> r.value == [("type", rtype)] + RoutingKeys(data, rtype, order).value +
                                 [ConnectorKey(RequestConnectors(data), rtype).value, ("rate", rate)]
  {
    var routing := RoutingKeys(data, rtype, order);
    if routing.Err? then Err(routing.failure)
    else
      var conn := ConnectorKey(RequestConnectors(data), rtype);
      if conn.Err? then Err(conn.failure)
      else Ok([("type", rtype)] + routing.value + [conn.value, ("rate", rate)])
  }

  /** The key names `create` sends, in order, whatever the route type. */
  lemma KeysOrder(data: map<string, string>, rtype: string, order: string, rate: string)
    requires Keys(data, rtype, order, rate).Ok?
    ensures Names(Keys(data, rtype, order, rate).value) ==
      ["type"] + (if rtype == DefaultRoute then [] else ["filters", "order"]) +
      [if rtype == RoundRobin then "connectors" else "connector", "rate"]
  {
    var ks := Keys(data, rtype, order, rate).value;
    var routing := RoutingKeys(data, rtype, order).value;
    var conn := ConnectorKey(RequestConnectors(data), rtype).value;
    assert ks == [("type", rtype)] + routing + [conn, ("rate", rate)];
    NamesAppend([("type", rtype)] + routing, [conn, ("rate", rate)]);
    NamesAppend([("type", rtype)], routing);
    assert Names([conn, ("rate", rate)]) == [conn.0, "rate"];
    assert Names([("type", rtype)]) == ["type"];
  }

  /** The filters key splits back at ';' into the request's filters, each stripped, with
      empty items kept. */
  lemma FiltersRoundTrip(data: map<string, string>, rtype: string, order: string)
    requires RoutingKeys(data, rtype, order).Ok? && rtype != DefaultRoute
    requires forall i :: 0 <= i < |ItemsOf(data["filters"])| ==> ';' !in ItemsOf(data["filters"])[i]
    ensures var ks := RoutingKeys(data, rtype, order).value;
      ks[0].0 == "filters" && SplitOn(ks[0].1, ';') == ItemsOf(data["filters"])
  {
    SplitOnJoin(ItemsOf(data["filters"]), ';');
  }

  /** A round-robin route's connectors key splits back at ';' into the connector list. */
  lemma ConnectorsRoundTrip(conns: seq<string>)
    requires ConnectorKey(conns, RoundRobin).Ok?
    requires forall i :: 0 <= i < |conns| ==> ';' !in conns[i]
    ensures SplitOn(ConnectorKey(conns, RoundRobin).value.1, ';') == conns
  {
    SplitOnJoin(conns, ';');
  }

  /** persist, the fan-out, then the lookup of the route: how every write that answers
      with the route ends. */
  function PersistedRouteRun(order: string, replicated: bool, script: seq<Reply>, at: nat)
    : (r: Run<Route>)
    ensures r.lines != [] && r.lines[0] == PersistLine
    ensures ReplyAt(script, at).Match? ==> r.lines == [PersistLine, ListLine]
    ensures r.result.Ok? ==> r.lines == [PersistLine, ListLine] && r.synced == replicated &&
                             r.result.value.order == order
  {
    AndThen(PersistRun(script, at, replicated), GetRouterRun(order, script, at + 1))
  }

  method PersistedRoute(c: Console, replicas: seq<Console>, order: string, replicated: bool)
    returns (res: Result<Route>)
    requires c !in replicas
    modifies c`sent, c`read, replicas
    ensures Advanced(old(c.sent), old(c.read), c, PersistedRouteRun(order, replicated, c.script, old(c.read)))
    ensures Fanned(replicas, PersistedRouteRun(order, replicated, c.script, old(c.read)).synced)
    ensures res == PersistedRouteRun(order, replicated, c.script, old(c.read)).result
  {
    var persisted := Persist(c, replicas, replicated);
    if persisted.Err? {
      return Err(persisted.failure);
    }
    res := GetRouter(c, order);
  }

  /** The interactive keys, then persist, the fan-out and the lookup of the new route. */
  function KeyedRun(keys: seq<(string, string)>, order: string, replicated: bool,
                    script: seq<Reply>, at: nat): (r: Run<Route>)
  {
    var s := IkeysRun(keys, script, at);
    AndThen(s, PersistedRouteRun(order, replicated, script, at + s.consumed))
  }

  method Keyed(c: Console, replicas: seq<Console>, keys: seq<(string, string)>, order: string,
               replicated: bool) returns (res: Result<Route>)
    requires c !in replicas
    modifies c`sent, c`read, replicas
    ensures Advanced(old(c.sent), old(c.read), c, KeyedRun(keys, order, replicated, c.script, old(c.read)))
    ensures Fanned(replicas, KeyedRun(keys, order, replicated, c.script, old(c.read)).synced)
    ensures res == KeyedRun(keys, order, replicated, c.script, old(c.read)).result
  {
    var keyed := SetIkeys(c, keys);
    if keyed.Err? {
      return Err(keyed.failure);
    }
    res := PersistedRoute(c, replicas, order, replicated);
  }

  /** What `create` does once the required keys are present: `mtrouter -a`, then the key
      checks (whose outcome is `keys`), the interactive keys, persist, the fan-out and the
      lookup of the new route. */
  function OpenedRun(keys: Result<seq<(string, string)>>, order: string, replicated: bool,
                     script: seq<Reply>, at: nat): (r: Run<Route>)
  {
    AndThen(StepRun(AddLine, script, at),
      match keys
      case Err(f) => Failed([], 0, f)
      case Ok(ks) => KeyedRun(ks, order, replicated, script, at + 1))
  }

  method Opened(c: Console, replicas: seq<Console>, keys: Result<seq<(string, string)>>,
                order: string, replicated: bool) returns (res: Result<Route>)
    requires c !in replicas
    modifies c`sent, c`read, replicas
    ensures Advanced(old(c.sent), old(c.read), c, OpenedRun(keys, order, replicated, c.script, old(c.read)))
    ensures Fanned(replicas, OpenedRun(keys, order, replicated, c.script, old(c.read)).synced)
    ensures res == OpenedRun(keys, order, replicated, c.script, old(c.read)).result
  {
    ghost var sent0, read0 := c.sent, c.read;
    var began := Step(c, AddLine);
    if began.Err? {
      return Err(began.failure);
    }
    if keys.Err? {
      return Err(keys.failure);
    }
    res := Keyed(c, replicas, keys.value, order, replicated);
    Chain(c, sent0, read0, StepRun(AddLine, c.script, read0),
          KeyedRun(keys.value, order, replicated, c.script, read0 + 1));
  }

  /** The keys `create` reads before touching the console. */
  const CreateRequired := ["type", "order", "rate"]

  /** What `create` does: the required keys are read first (no console line), then the
      dialogue of `OpenedRun`. The rate is passed through as given. */
  function CreateRun(data: map<string, string>, replicated: bool, script: seq<Reply>, at: nat)
    : (r: Run<Route>)
  {
    match FirstMissing(data, CreateRequired)
    case Some(k) => Failed([], 0, Api(MissingKeyError, "Missing parameter: " + k + " is required"))
    case None =>
      OpenedRun(Keys(data, Lower(data["type"]), data["order"], data["rate"]), data["order"],
                replicated, script, at)
  }

  /** A missing key is reported before anything is sent. */
  lemma CreateMissing(data: map<string, string>, replicated: bool, script: seq<Reply>, at: nat)
    requires FirstMissing(data, CreateRequired).Some?
    ensures CreateRun(data, replicated, script, at).lines == []
    ensures CreateRun(data, replicated, script, at).result ==
      Err(Api(MissingKeyError, "Missing parameter: " + FirstMissing(data, CreateRequired).value + " is required"))
  {
  }

  /** Once the required keys are present the dialogue opens with `mtrouter -a`. */
  lemma OpenedOpens(keys: Result<seq<(string, string)>>, order: string, replicated: bool,
                    script: seq<Reply>, at: nat)
    ensures OpenedRun(keys, order, replicated, script, at).lines != []
    ensures OpenedRun(keys, order, replicated, script, at).lines[0] == AddLine
  {
  }

  /** A route the dialogue answers with has the requested order, and the configuration
      was fanned out when asked to be. */
  lemma {:induction false} OpenedAnswers(keys: Result<seq<(string, string)>>, order: string,
                                         replicated: bool, script: seq<Reply>, at: nat)
    requires OpenedRun(keys, order, replicated, script, at).result.Ok?
    ensures OpenedRun(keys, order, replicated, script, at).synced == replicated
    ensures OpenedRun(keys, order, replicated, script, at).result.value.order == order
  {
    var o := StepRun(AddLine, script, at);
    assert o.result.Ok? && keys.Ok?;
    var ks := keys.value;
    var k := KeyedRun(ks, order, replicated, script, at + 1);
    assert OpenedRun(keys, order, replicated, script, at).result == k.result;
    assert OpenedRun(keys, order, replicated, script, at).synced == k.synced;
    KeyedAnswers(ks, order, replicated, script, at + 1);
  }

  /** The same for the dialogue after `mtrouter -a`. */
  lemma KeyedAnswers(keys: seq<(string, string)>, order: string, replicated: bool,
                     script: seq<Reply>, at: nat)
    requires KeyedRun(keys, order, replicated, script, at).result.Ok?
    ensures KeyedRun(keys, order, replicated, script, at).synced == replicated
    ensures KeyedRun(keys, order, replicated, script, at).result.value.order == order
  {
    var s := IkeysRun(keys, script, at);
    IkeysUnsynced(keys, script, at);
  }

  /** The cardinality and filter checks run after `mtrouter -a` and before any key line. */
  lemma CreateChecksAfterOpen(data: map<string, string>, replicated: bool, script: seq<Reply>, at: nat)
    requires FirstMissing(data, CreateRequired).None?
    requires ReplyAt(script, at).Match?
    requires Keys(data, Lower(data["type"]), data["order"], data["rate"]).Err?
    ensures CreateRun(data, replicated, script, at).lines == [AddLine]
    ensures CreateRun(data, replicated, script, at).result ==
      Err(Keys(data, Lower(data["type"]), data["order"], data["rate"]).failure)
  {
  }

  /** With every key accepted the dialogue after `mtrouter -a` is one line per key in
      order, `ok`, `persist`, and the listing. */
  lemma {:induction false} KeyedAllAccepted(keys: seq<(string, string)>, order: string, replicated: bool,
                         script: seq<Reply>, at: nat)
    requires forall i :: at <= i < at + |keys| ==> Accepted(script, i)
    requires CommitVerdict(ReplyAt(script, at + |keys|)).Ok?
    requires ReplyAt(script, at + 1 + |keys|).Match?
    ensures KeyedRun(keys, order, replicated, script, at).lines ==
      KeyLines(keys) + [CommitLine, PersistLine, ListLine]
  {
    IkeysAllAccepted(keys, script, at);
    var s := IkeysRun(keys, script, at);
    assert s.lines + [PersistLine, ListLine] == KeyLines(keys) + [CommitLine, PersistLine, ListLine];
  }

  /** With every key accepted the dialogue is `mtrouter -a`, one line per key in order,
      `ok`, `persist`, and the listing that finds the new route. */
  lemma {:induction false} CreateAllAccepted(keys: seq<(string, string)>, order: string, replicated: bool,
                          script: seq<Reply>, at: nat)
    requires ReplyAt(script, at).Match?
    requires forall i :: at + 1 <= i < at + 1 + |keys| ==> Accepted(script, i)
    requires CommitVerdict(ReplyAt(script, at + 1 + |keys|)).Ok?
    requires ReplyAt(script, at + 2 + |keys|).Match?
    ensures OpenedRun(Ok(keys), order, replicated, script, at).lines ==
      [AddLine] + KeyLines(keys) + [CommitLine, PersistLine, ListLine]
  {
    KeyedAllAccepted(keys, order, replicated, script, at + 1);
    var tail := [CommitLine, PersistLine, ListLine];
    assert [AddLine] + (KeyLines(keys) + tail) == [AddLine] + KeyLines(keys) + tail;
  }

  method Create(c: Console, replicas: seq<Console>, data: map<string, string>, replicated: bool)
    returns (res: Result<Route>)
    requires c !in replicas
    modifies c`sent, c`read, replicas
    ensures Advanced(old(c.sent), old(c.read), c, CreateRun(data, replicated, c.script, old(c.read)))
    ensures Fanned(replicas, CreateRun(data, replicated, c.script, old(c.read)).synced)
    ensures res == CreateRun(data, replicated, c.script, old(c.read)).result
  {
    var missing := FirstMissing(data, CreateRequired);
    if missing.Some? {
      return Err(Api(MissingKeyError, "Missing parameter: " + missing.value + " is required"));
    }
    var keys := Keys(data, Lower(data["type"]), data["order"], data["rate"]);
    res := Opened(c, replicas, keys, data["order"], replicated);
  }

  // ---------------------------------------------------------------------------
  // One-shot actions

  /** What an action answers with: the route after the action, or just its order. */
  datatype Answer = Shown(route: Route) | Ordered(order: string)

  /** After a successful action: persist, the fan-out, then the route or just its order. */
  function SucceededRun(order: string, returnRoute: bool, replicated: bool, script: seq<Reply>, at: nat)
    : (r: Run<Answer>)
    ensures r.lines != [] && r.lines[0] == PersistLine
    ensures r.result.Ok? ==> r.synced == replicated
    ensures r.result.Ok? ==> if returnRoute then r.result.value.Shown? && r.result.value.route.order == order
                             else r.result.value == Ordered(order) && r.lines == [PersistLine]
  {
    if returnRoute then
      var g := PersistedRouteRun(order, replicated, script, at);
      Run(g.lines, g.consumed, g.synced, if g.result.Ok? then Ok(Shown(g.result.value)) else Err(g.result.failure))
    else AndThen(PersistRun(script, at, replicated), Done(Ordered(order)))
  }

  method Succeeded(c: Console, replicas: seq<Console>, order: string, returnRoute: bool, replicated: bool)
    returns (res: Result<Answer>)
    requires c !in replicas
    modifies c`sent, c`read, replicas
    ensures Advanced(old(c.sent), old(c.read), c, SucceededRun(order, returnRoute, replicated, c.script, old(c.read)))
    ensures Fanned(replicas, SucceededRun(order, returnRoute, replicated, c.script, old(c.read)).synced)
    ensures res == SucceededRun(order, returnRoute, replicated, c.script, old(c.read)).result
  {
    if returnRoute {
      var g := PersistedRoute(c, replicas, order, replicated);
      res := if g.Ok? then Ok(Shown(g.value)) else Err(g.failure);
    } else {
      var persisted := Persist(c, replicas, replicated);
      res := if persisted.Ok? then Ok(Ordered(order)) else Err(persisted.failure);
    }
  }

  /** simple_mtrouter_action: `mtrouter -<action> <order>`, then pattern 0 (success)
      persists, fans out and answers; 1 is an unknown route; anything else is a Jasmin
      error carrying the capture. */
  function ActionRun(action: string, order: string, returnRoute: bool, replicated: bool,
                     script: seq<Reply>, at: nat): (r: Run<Answer>)
    ensures r.lines != [] && r.lines[0] == "mtrouter -" + action + " " + order
    ensures var reply := ReplyAt(script, at); reply.Match? && reply.index == 1 ==>
      r.lines == ["mtrouter -" + action + " " + order] &&
      r.result == Err(Api(UnknownError, "No router: " + order))
    ensures var reply := ReplyAt(script, at); reply.Match? && reply.index >= 2 ==>
      r.lines == ["mtrouter -" + action + " " + order] &&
      r.result == Err(Api(JasminError, ErrorText(reply.text)))
    ensures var reply := ReplyAt(script, at); reply.Match? && reply.index == 0 ==>
      |r.lines| >= 2 && r.lines[1] == PersistLine
    ensures r.result.Ok? ==> ReplyAt(script, at).Match? && ReplyAt(script, at).index == 0
    ensures r.result.Ok? && !returnRoute ==> r.result.value == Ordered(order)
  {
    var reply := ReplyAt(script, at);
    AndThen(CommandRun("mtrouter -" + action + " " + order, script, at),
      match reply
      case Match(i, t) =>
        if i == 0 then SucceededRun(order, returnRoute, replicated, script, at + 1)
        else if i == 1 then Failed([], 0, Api(UnknownError, "No router: " + order))
        else Failed([], 0, Api(JasminError, ErrorText(t)))
      case _ => Failed([], 0, WaitFailure(reply)))
  }

  method Action(c: Console, replicas: seq<Console>, action: string, order: string,
                returnRoute: bool, replicated: bool) returns (res: Result<Answer>)
    requires c !in replicas
    modifies c`sent, c`read, replicas
    ensures Advanced(old(c.sent), old(c.read), c, ActionRun(action, order, returnRoute, replicated, c.script, old(c.read)))
    ensures Fanned(replicas, ActionRun(action, order, returnRoute, replicated, c.script, old(c.read)).synced)
    ensures res == ActionRun(action, order, returnRoute, replicated, c.script, old(c.read)).result
  {
    var r := Command(c, "mtrouter -" + action + " " + order);
    if r.Match? && r.index == 0 {
      res := Succeeded(c, replicas, order, returnRoute, replicated);
    } else if r.Match? && r.index == 1 {
      res := Err(Api(UnknownError, "No router: " + order));
    } else if r.Match? {
      res := Err(Api(JasminError, ErrorText(r.text)));
    } else {
      res := Err(WaitFailure(r));
    }
  }

  /** The `destroy` handler reads `request.telnet_list` before anything is sent; a request
      that has none (a single-host deployment) fails there with AttributeError. */
  method Destroy(c: Console, replicaList: Option<seq<Console>>, order: string, replicated: bool)
    returns (res: Result<Answer>)
    requires replicaList.Some? ==> c !in replicaList.value
    modifies c`sent, c`read, if replicaList.Some? then replicaList.value else []
    ensures replicaList.None? ==>
      res == Err(Crash("AttributeError")) && c.sent == old(c.sent) && c.read == old(c.read)
    ensures replicaList.Some? ==>
      Advanced(old(c.sent), old(c.read), c, ActionRun("r", order, false, replicated, c.script, old(c.read))) &&
      Fanned(replicaList.value, ActionRun("r", order, false, replicated, c.script, old(c.read)).synced) &&
      res == ActionRun("r", order, false, replicated, c.script, old(c.read)).result
  {
    if replicaList.None? {
      return Err(Crash("AttributeError"));
    }
    res := Action(c, replicaList.value, "r", order, false, replicated);
  }
}
