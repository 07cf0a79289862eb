/** The HTTP client connector manager (httpccm): the merged listing of the connectors, one
    connector, creation, and removal. */
module Httpccm {
  import opened Text
  import opened Exceptions
  import opened Session
  import opened Tools
  import opened Dialect

  const Cmd := "httpccm"
  const ListLine := Cmd + " -l"
  const AddLine := Cmd + " -a"
  /** The listing columns merged into a detail page. */
  const CidKey := "cid"
  const TypeKey := "type"
  const MethodKey := "method"
  const UrlKey := "url"

  /** A connector as its detail page describes it, with the listing's columns merged in. */
  type Connector = map<string, string>

  // ---------------------------------------------------------------------------
  // list

  /** A connector carries the id and the type, method and url columns of its listing
      row. */
  predicate Merged(m: Connector, row: seq<string>)
  {
    |row| >= 4 && CidKey in m && m[CidKey] == CidOf(row) && TypeKey in m && m[TypeKey] == row[1] &&
    MethodKey in m && m[MethodKey] == row[2] && UrlKey in m && m[UrlKey] == row[3]
  }

  /** The connector a listing row adds once its detail page was asked for: none when the
      page is missing; otherwise the page (even an empty one) with the row's id, type,
      method and url merged in, an IndexError when the row has fewer than four fields. */
  function ListedOf(found: Option<Connector>, row: seq<string>): (r: Result<seq<Connector>>)
    ensures found.None? ==> r == Ok([])
    ensures found.Some? ==> (r.Ok? <==> |row| >= 4)
    ensures r.Ok? && found.Some? ==> |r.value| == 1 && Merged(r.value[0], row)
    ensures r.Ok? && found.Some? ==> forall k :: k in found.value && k !in {CidKey, TypeKey, MethodKey, UrlKey} ==>
      k in r.value[0] && r.value[0][k] == found.value[k]
  {
    if found.Some? then
      if |row| < 4 then Err(Crash("IndexError"))
      else Ok([found.value[CidKey := CidOf(row)][TypeKey := row[1]][MethodKey := row[2]][UrlKey := row[3]]])
    else Ok([])
  }

  /** One lookup of the listing after the earlier ones succeeded. */
  function LookUpRun(p: Run<seq<Connector>>, row: seq<string>, script: seq<Reply>, at: nat): (r: Run<seq<Connector>>)
    requires p.result.Ok?
    ensures r.lines == p.lines + [Cmd + " -s " + CidOf(row)] && r.consumed == p.consumed + 1 && !r.synced
    ensures r.result.Ok? ==> |r.result.value| <= |p.result.value| + 1
  {
    var g := ShowRun(Cmd, CidOf(row), true, script, at + p.consumed);
    if g.result.Err? then Run(p.lines + g.lines, p.consumed + g.consumed, false, Err(g.result.failure))
    else
      var l := ListedOf(g.result.value, row);
      if l.Err? then Run(p.lines + g.lines, p.consumed + g.consumed, false, Err(l.failure))
      else Run(p.lines + g.lines, p.consumed + g.consumed, false, Ok(p.result.value + l.value))
  }

  /** The lookups of the listing, one `httpccm -s` per row, in order, until one fails. */
  function ConnectorsRun(rows: seq<seq<string>>, script: seq<Reply>, at: nat): (r: Run<seq<Connector>>)
    ensures !r.synced && r.consumed <= |rows| && |r.lines| == r.consumed
    ensures r.result.Ok? ==> r.consumed == |rows| && |r.result.value| <= |rows|
  {
    if rows == [] then Run([], 0, false, Ok([]))
    else
      var p := ConnectorsRun(rows[..|rows| - 1], script, at);
      if p.result.Err? then p else LookUpRun(p, rows[|rows| - 1], script, at)
  }

  /** One `httpccm -s` per row, in order. */
  function ShowLines(rows: seq<seq<string>>): (ls: seq<string>)
    ensures |ls| == |rows|
    ensures forall i :: 0 <= i < |rows| ==> ls[i] == Cmd + " -s " + CidOf(rows[i])
  {
    if rows == [] then []
    else ShowLines(rows[..|rows| - 1]) + [Cmd + " -s " + CidOf(rows[|rows| - 1])]
  }

  /** A listing whose lookups all succeed asks for the page of every row, in order. */
  lemma {:induction false} ConnectorsLines(rows: seq<seq<string>>, script: seq<Reply>, at: nat)
    requires ConnectorsRun(rows, script, at).result.Ok?
    ensures ConnectorsRun(rows, script, at).lines == ShowLines(rows)
  {
    if rows != [] {
      ConnectorsLines(rows[..|rows| - 1], script, at);
    }
  }

  /** Every connector a listing answers with carries the id and the columns of the
      listing row it was looked up for. */
  lemma {:induction false} ConnectorsMerged(rows: seq<seq<string>>, script: seq<Reply>, at: nat)
    requires ConnectorsRun(rows, script, at).result.Ok?
    ensures forall k :: 0 <= k < |ConnectorsRun(rows, script, at).result.value| ==>
      exists i :: 0 <= i < |rows| && Merged(ConnectorsRun(rows, script, at).result.value[k], rows[i])
  {
    if rows != [] {
      var init := rows[..|rows| - 1];
      var p := ConnectorsRun(init, script, at);
      ConnectorsMerged(init, script, at);
      var r := ConnectorsRun(rows, script, at);
      var row := rows[|rows| - 1];
      var g := ShowRun(Cmd, CidOf(row), true, script, at + p.consumed);
      var l := ListedOf(g.result.value, row);
      assert r.result.value == p.result.value + l.value;
      forall k | 0 <= k < |r.result.value|
        ensures exists i :: 0 <= i < |rows| && Merged(r.result.value[k], rows[i])
      {
        if k < |p.result.value| {
          var i :| 0 <= i < |init| && Merged(p.result.value[k], init[i]);
          assert init[i] == rows[i];
        } else {
          assert Merged(r.result.value[k], rows[|rows| - 1]);
        }
      }
    }
  }

  /** The reply at position j is a detail page (pattern 2). */
  predicate PageFound(script: seq<Reply>, j: nat)
  {
    ReplyAt(script, j).Match? && ReplyAt(script, j).index == 2
  }

  /** A lookup whose page is found, for a row with its four columns, adds exactly one
      connector, merged with that row. */
  lemma LookUpFound(p: Run<seq<Connector>>, row: seq<string>, script: seq<Reply>, at: nat) returns (x: Connector)
    requires p.result.Ok? && |row| >= 4 && PageFound(script, at + p.consumed)
    ensures LookUpRun(p, row, script, at).result == Ok(p.result.value + [x]) && Merged(x, row)
  {
    var g := ShowRun(Cmd, CidOf(row), true, script, at + p.consumed);
    assert g.result.Ok? && g.result.value.Some?;
    x := ListedOf(g.result.value, row).value[0];
  }

  /** A listing where every detail page is found, and every row has its four columns,
      answers with exactly one connector per row, in the order of the rows. */
  lemma {:induction false} ConnectorsAllFound(rows: seq<seq<string>>, script: seq<Reply>, at: nat)
    requires forall i :: 0 <= i < |rows| ==> |rows[i]| >= 4
    requires forall j :: at <= j < at + |rows| ==> PageFound(script, j)
    ensures ConnectorsRun(rows, script, at).result.Ok?
    ensures |ConnectorsRun(rows, script, at).result.value| == |rows|
    ensures forall i :: 0 <= i < |rows| ==> Merged(ConnectorsRun(rows, script, at).result.value[i], rows[i])
  {
    if rows != [] {
      var n := |rows| - 1;
      var init := rows[..n];
      ConnectorsAllFound(init, script, at);
      var p := ConnectorsRun(init, script, at);
      assert PageFound(script, at + p.consumed);
      var x := LookUpFound(p, rows[n], script, at);
      var cs := ConnectorsRun(rows, script, at).result.value;
      assert cs == p.result.value + [x];
      forall i | 0 <= i < |rows| ensures Merged(cs[i], rows[i]) {
        if i < n {
          assert cs[i] == p.result.value[i] && init[i] == rows[i];
        }
      }
    }
  }

  /** A page that is missing (any pattern but 2) adds no connector for its row. */
  lemma MissAddsNothing(p: Run<seq<Connector>>, row: seq<string>, script: seq<Reply>, at: nat)
    requires p.result.Ok?
    requires ReplyAt(script, at + p.consumed).Match? && ReplyAt(script, at + p.consumed).index != 2
    ensures LookUpRun(p, row, script, at).result == p.result
  {
    var g := ShowRun(Cmd, CidOf(row), true, script, at + p.consumed);
    assert g.result == Ok(None);
    assert p.result.value + [] == p.result.value;
  }

  /** What `list` sends and answers: the listing, then one lookup per row. */
  function ListRun(script: seq<Reply>, at: nat): (r: Run<seq<Connector>>)
    ensures r.lines != [] && r.lines[0] == ListLine && !r.synced
  {
    var l := ListingRun(Cmd, script, at);
    if l.result.Err? then Failed(l.lines, l.consumed, l.result.failure)
    else AndThen(Run(l.lines, l.consumed, false, Ok(())), ConnectorsRun(l.result.value, script, at + 1))
  }

  /** One lookup of the listing loop. */
  method LookUpOne(c: Console, connectors: seq<Connector>, row: seq<string>,
                   ghost p: Run<seq<Connector>>, ghost at: nat)
    returns (res: Result<seq<Connector>>)
    requires p.result == Ok(connectors) && c.read == at + p.consumed
    modifies c`sent, c`read
    ensures c.sent == old(c.sent) + [Cmd + " -s " + CidOf(row)] && c.read == old(c.read) + 1
    ensures res == LookUpRun(p, row, c.script, at).result
  {
    var found := Show(c, Cmd, CidOf(row), true);
    if found.Err? {
      return Err(found.failure);
    }
    var l := ListedOf(found.value, row);
    if l.Err? {
      return Err(l.failure);
    }
    res := Ok(connectors + l.value);
  }

  /** The lookup loop of `list`. */
  method LookUp(c: Console, rows: seq<seq<string>>) returns (res: Result<seq<Connector>>)
    modifies c`sent, c`read
    ensures Advanced(old(c.sent), old(c.read), c, ConnectorsRun(rows, c.script, old(c.read)))
    ensures res == ConnectorsRun(rows, c.script, old(c.read)).result
  {
    ghost var at := c.read;
    var connectors: seq<Connector> := [];
    for i := 0 to |rows|
      invariant ConnectorsRun(rows[..i], c.script, at).result == Ok(connectors)
      invariant Advanced(old(c.sent), at, c, ConnectorsRun(rows[..i], c.script, at))
    {
      ghost var p := ConnectorsRun(rows[..i], c.script, at);
      assert rows[..i + 1][..i] == rows[..i];
      var next := LookUpOne(c, connectors, rows[i], p, at);
      ghost var q := ConnectorsRun(rows[..i + 1], c.script, at);
      assert q.lines == p.lines + [Cmd + " -s " + CidOf(rows[i])];
      assert q.result == next;
      if next.Err? {
        ConnectorsPrefixErr(rows, i + 1, c.script, at);
        return next;
      }
      connectors := next.value;
    }
    assert rows[..|rows|] == rows;
    res := Ok(connectors);
  }

  /** A lookup that failed ends the listing: the later rows are not looked up. */
  lemma {:induction false} ConnectorsPrefixErr(rows: seq<seq<string>>, k: nat, script: seq<Reply>, at: nat)
    requires k <= |rows| && ConnectorsRun(rows[..k], script, at).result.Err?
    ensures ConnectorsRun(rows, script, at) == ConnectorsRun(rows[..k], script, at)
    decreases |rows| - k
  {
    if k == |rows| {
      assert rows[..k] == rows;
    } else {
      var init := rows[..|rows| - 1];
      assert init[..k] == rows[..k];
      ConnectorsPrefixErr(init, k, script, at);
    }
  }

  /** The `list` handler. */
  method List(c: Console) returns (res: Result<seq<Connector>>)
    modifies c`sent, c`read
    ensures Advanced(old(c.sent), old(c.read), c, ListRun(c.script, old(c.read)))
    ensures res == ListRun(c.script, old(c.read)).result
  {
    ghost var sent0, read0 := c.sent, c.read;
    var rows := Listing(c, Cmd);
    if rows.Err? {
      return Err(rows.failure);
    }
    res := LookUp(c, rows.value);
    Chain(c, sent0, read0, Run([ListLine], 1, false, Ok(())), ConnectorsRun(rows.value, c.script, read0 + 1));
  }

  // ---------------------------------------------------------------------------
  // retrieve

  /** The page merged with the row of the listing that names the connector. */
  function RowMerged(page: Connector, rows: seq<seq<string>>, cid: string): (r: Result<Connector>)
    ensures r.Ok? ==> exists row :: row in rows && row != [] && row[0] == "#" + cid && Merged(r.value, row)
    ensures FindRow(rows, "#" + cid).None? ==> r == Err(Api(ObjectNotFoundError, "Unknown connector: " + cid))
    ensures FindRow(rows, "#" + cid).Some? ==> (r.Ok? <==> |FindRow(rows, "#" + cid).value| >= 4)
  {
    var found := FindRow(rows, "#" + cid);
    if found.None? then Err(Api(ObjectNotFoundError, "Unknown connector: " + cid))
    else
      var row := found.value;
      if |row| < 4 then Err(Crash("IndexError"))
      else Ok(page[CidKey := cid][TypeKey := row[1]][MethodKey := row[2]][UrlKey := row[3]])
  }

  /** retrieve: the detail page (a miss is an error), then the listing, then the row
      whose first field is '#' followed by the id. */
  function RetrieveRun(cid: string, script: seq<Reply>, at: nat): (r: Run<Connector>)
    ensures r.lines != [] && r.lines[0] == Cmd + " -s " + cid && !r.synced
    ensures r.result.Ok? ==> r.lines == [Cmd + " -s " + cid, ListLine] && r.consumed == 2
    ensures r.result.Ok? ==> PageRun(Cmd, cid, script, at).result.Ok? && ListingRun(Cmd, script, at + 1).result.Ok?
    ensures r.result.Ok? ==> r.result == RowMerged(PageRun(Cmd, cid, script, at).result.value,
                                                   ListingRun(Cmd, script, at + 1).result.value, cid)
    ensures PageRun(Cmd, cid, script, at).result.Ok? && ListingRun(Cmd, script, at + 1).result.Ok? ==>
      r.result == RowMerged(PageRun(Cmd, cid, script, at).result.value,
                            ListingRun(Cmd, script, at + 1).result.value, cid)
  {
    var s := PageRun(Cmd, cid, script, at);
    if s.result.Err? then Failed(s.lines, s.consumed, s.result.failure)
    else
      var l := ListingRun(Cmd, script, at + 1);
      if l.result.Err? then Failed(s.lines + l.lines, 2, l.result.failure)
      else Run(s.lines + l.lines, 2, false, RowMerged(s.result.value, l.result.value, cid))
  }

  /** A connector whose detail page is missing is unknown, and the listing is never
      asked for. */
  lemma RetrieveUnknown(cid: string, script: seq<Reply>, at: nat)
    requires ReplyAt(script, at).Match? && ReplyAt(script, at).index != 2
    ensures RetrieveRun(cid, script, at).lines == [Cmd + " -s " + cid]
    ensures RetrieveRun(cid, script, at).result == Err(Api(ObjectNotFoundError, "Unknown connector: " + cid))
  {
  }

  /** A connector the detail page knows but the listing does not is unknown. */
  lemma RetrieveUnlisted(cid: string, script: seq<Reply>, at: nat)
    requires PageRun(Cmd, cid, script, at).result.Ok? && ListingRun(Cmd, script, at + 1).result.Ok?
    requires forall row :: row in ListingRun(Cmd, script, at + 1).result.value ==> row[0] != "#" + cid
    ensures RetrieveRun(cid, script, at).result == Err(Api(ObjectNotFoundError, "Unknown connector: " + cid))
  {
    var rows := ListingRun(Cmd, script, at + 1).result.value;
    assert forall i :: 0 <= i < |rows| ==> rows[i] in rows;
  }

  method Retrieve(c: Console, cid: string) returns (res: Result<Connector>)
    modifies c`sent, c`read
    ensures Advanced(old(c.sent), old(c.read), c, RetrieveRun(cid, c.script, old(c.read)))
    ensures res == RetrieveRun(cid, c.script, old(c.read)).result
  {
    var page := Page(c, Cmd, cid);
    if page.Err? {
      return Err(page.failure);
    }
    var rows := Listing(c, Cmd);
    if rows.Err? {
      return Err(rows.failure);
    }
    res := RowMerged(page.value, rows.value, cid);
  }

  // ---------------------------------------------------------------------------
  // create

  /** The value of the first entry of the request body with that key: `request.data[key]`.
      A request body has one entry per key, as `QueryDict.items()` and a JSON object give
      it; the sequence type does not enforce this, and with a repeated key this answers
      the first value where Django answers the last. */
  function Lookup(data: seq<(string, string)>, key: string): (v: Option<string>)
    ensures v.Some? ==> (key, v.value) in data
    ensures v.None? <==> forall i :: 0 <= i < |data| ==> data[i].0 != key
  {
    if data == [] then None
    else if data[0].0 == key then Some(data[0].1)
    else Lookup(data[1..], key)
  }

  /** The lines create sends before its only wait: `httpccm -a`, one "key value" line
      per entry of the body in order, and "ok". */
  function CreateLines(data: seq<(string, string)>): seq<string>
  {
    [AddLine] + KeyLines(data) + [CommitLine]
  }

  /** `httpccm -a` first, then one "key value" line per entry in order, and "ok" last. */
  lemma CreateLinesShape(data: seq<(string, string)>)
    ensures var ls := CreateLines(data);
      |ls| == |data| + 2 && ls[0] == AddLine && ls[|ls| - 1] == CommitLine &&
      forall i :: 0 <= i < |data| ==> ls[i + 1] == KeyLine(data[i])
  {
    var ls := CreateLines(data);
    forall i | 0 <= i < |data| ensures ls[i + 1] == KeyLine(data[i]) {
      assert ls[i + 1] == KeyLines(data)[i];
    }
  }

  /** What the answer to "ok" leads to: pattern 2 (the interactive prompt) persists and
      fans out, then answers with the body's cid, a KeyError when it has none; any other
      pattern is a syntax error carrying its capture with the blanks collapsed. */
  function CreatedRun(reply: Reply, data: seq<(string, string)>, replicated: bool, script: seq<Reply>, at: nat)
    : (r: Run<string>)
  {
    match reply
    case Match(i, t) =>
      if i != 2 then Failed([], 0, Api(JasminSyntaxError, Collapse(t)))
      else
        var cid := Lookup(data, "cid");
        AndThen(PersistRun(script, at, replicated),
                if cid.Some? then Done(cid.value) else Run([], 0, false, Err(Crash("KeyError"))))
    case _ => Failed([], 0, WaitFailure(reply))
  }

  /** create: every line of the dialogue is sent before the single wait. */
  function CreateRun(data: seq<(string, string)>, replicated: bool, script: seq<Reply>, at: nat): (r: Run<string>)
  {
    AndThen(Run(CreateLines(data), 1, false, Ok(())), CreatedRun(ReplyAt(script, at), data, replicated, script, at + 1))
  }

  /** A connector that is created was accepted (pattern 2), persisted, and answers with
      the body's cid; the configuration was fanned out when asked to be. */
  lemma CreateAnswers(data: seq<(string, string)>, replicated: bool, script: seq<Reply>, at: nat)
    requires CreateRun(data, replicated, script, at).result.Ok?
    ensures ReplyAt(script, at).Match? && ReplyAt(script, at).index == 2
    ensures CreateRun(data, replicated, script, at).lines == CreateLines(data) + [PersistLine]
    ensures Lookup(data, "cid") == Some(CreateRun(data, replicated, script, at).result.value)
    ensures CreateRun(data, replicated, script, at).synced == replicated
  {
    assert PersistRun(script, at + 1, replicated).result.Ok?;
  }

  /** A body Jasmin refuses (any pattern but 2) is a syntax error carrying the collapsed
      capture; nothing is persisted or fanned out. */
  lemma CreateRejected(data: seq<(string, string)>, replicated: bool, script: seq<Reply>, at: nat)
    requires ReplyAt(script, at).Match? && ReplyAt(script, at).index != 2
    ensures CreateRun(data, replicated, script, at).lines == CreateLines(data)
    ensures CreateRun(data, replicated, script, at).result ==
      Err(Api(JasminSyntaxError, Collapse(ReplyAt(script, at).text)))
    ensures !CreateRun(data, replicated, script, at).synced
  {
  }

  /** A body without a cid is still persisted and fanned out when Jasmin accepts it; only
      the answer fails, with a KeyError. */
  lemma CreateWithoutCid(data: seq<(string, string)>, replicated: bool, script: seq<Reply>, at: nat)
    requires forall i :: 0 <= i < |data| ==> data[i].0 != "cid"
    requires ReplyAt(script, at).Match? && ReplyAt(script, at).index == 2
    requires ReplyAt(script, at + 1).Match?
    ensures CreateRun(data, replicated, script, at).lines == CreateLines(data) + [PersistLine]
    ensures CreateRun(data, replicated, script, at).result == Err(Crash("KeyError"))
    ensures CreateRun(data, replicated, script, at).synced == replicated
  {
    assert Lookup(data, "cid").None?;
  }

  /** Send the "key value" line of every entry, in order, without waiting. */
  method SendEntries(c: Console, data: seq<(string, string)>)
    modifies c`sent
    ensures c.sent == old(c.sent) + KeyLines(data)
  {
    for i := 0 to |data|
      invariant c.sent == old(c.sent) + KeyLines(data[..i])
    {
      KeyLinesPrefix(data, i);
      c.SendLine(KeyLine(data[i]));
    }
    assert data[..|data|] == data;
  }

  /** Send every line create sends before its wait. */
  method SendAll(c: Console, data: seq<(string, string)>)
    modifies c`sent
    ensures c.sent == old(c.sent) + CreateLines(data)
  {
    c.SendLine(AddLine);
    SendEntries(c, data);
    c.SendLine(CommitLine);
  }

  /** Send every line and wait once. */
  method Begin(c: Console, data: seq<(string, string)>) returns (r: Reply)
    modifies c`sent, c`read
    ensures Advanced(old(c.sent), old(c.read), c, Run(CreateLines(data), 1, false, Ok(())))
    ensures r == ReplyAt(c.script, old(c.read))
  {
    SendAll(c, data);
    r := c.Expect();
  }

  method Created(c: Console, replicas: seq<Console>, reply: Reply, data: seq<(string, string)>, replicated: bool)
    returns (res: Result<string>)
    requires c !in replicas
    modifies c`sent, c`read, replicas
    ensures Advanced(old(c.sent), old(c.read), c, CreatedRun(reply, data, replicated, c.script, old(c.read)))
    ensures Fanned(replicas, CreatedRun(reply, data, replicated, c.script, old(c.read)).synced)
    ensures res == CreatedRun(reply, data, replicated, c.script, old(c.read)).result
  {
    if !reply.Match? {
      return Err(WaitFailure(reply));
    }
    if reply.index != 2 {
      return Err(Api(JasminSyntaxError, Collapse(reply.text)));
    }
    var persisted := Persist(c, replicas, replicated);
    if persisted.Err? {
      return Err(persisted.failure);
    }
    var cid := Lookup(data, "cid");
    res := if cid.Some? then Ok(cid.value) else Err(Crash("KeyError"));
  }

  method Create(c: Console, replicas: seq<Console>, data: seq<(string, string)>, replicated: bool)
    returns (res: Result<string>)
    requires c !in replicas
    modifies c`sent, c`read, replicas
    ensures Advanced(old(c.sent), old(c.read), c, CreateRun(data, replicated, c.script, old(c.read)))
    ensures Fanned(replicas, CreateRun(data, replicated, c.script, old(c.read)).synced)
    ensures res == CreateRun(data, replicated, c.script, old(c.read)).result
  {
    ghost var sent0, read0 := c.sent, c.read;
    var r := Begin(c, data);
    res := Created(c, replicas, r, data, replicated);
    Chain(c, sent0, read0, Run(CreateLines(data), 1, false, Ok(())),
          CreatedRun(r, data, replicated, c.script, read0 + 1));
  }

  // ---------------------------------------------------------------------------
  // simple_httpccm_action and destroy

  function ActionLine(action: string, cid: string): string
  {
    Cmd + " -" + action + " " + cid
  }

  /** What the answer to an action line leads to: pattern 0 persists, fans out and answers
      with the id; 1 is an unknown connector; anything else a failed action carrying the
      capture as it is. */
  function ActedRun(reply: Reply, cid: string, replicated: bool, script: seq<Reply>, at: nat): (r: Run<string>)
  {
    match reply
    case Match(i, t) =>
      if i == 0 then AndThen(PersistRun(script, at, replicated), Done(cid))
      else if i == 1 then Failed([], 0, Api(ObjectNotFoundError, "Unknown HTTP Connector: " + cid))
      else Failed([], 0, Api(ActionFailed, t))
    case _ => Failed([], 0, WaitFailure(reply))
  }

  function ActionRun(action: string, cid: string, replicated: bool, script: seq<Reply>, at: nat): (r: Run<string>)
    ensures r.lines != [] && r.lines[0] == ActionLine(action, cid)
    ensures var reply := ReplyAt(script, at); reply.Match? && reply.index == 1 ==>
      r.lines == [ActionLine(action, cid)] && !r.synced &&
      r.result == Err(Api(ObjectNotFoundError, "Unknown HTTP Connector: " + cid))
    ensures var reply := ReplyAt(script, at); reply.Match? && reply.index >= 2 ==>
      r.lines == [ActionLine(action, cid)] && !r.synced && r.result == Err(Api(ActionFailed, reply.text))
  {
    AndThen(CommandRun(ActionLine(action, cid), script, at), ActedRun(ReplyAt(script, at), cid, replicated, script, at + 1))
  }

  /** An action that completes succeeded on the primary (pattern 0), sent persist, and
      answers with the connector's id; the configuration was fanned out when asked to
      be. */
  lemma {:induction false} ActionAnswers(action: string, cid: string, replicated: bool, script: seq<Reply>, at: nat)
    requires ActionRun(action, cid, replicated, script, at).result.Ok?
    ensures ReplyAt(script, at).Match? && ReplyAt(script, at).index == 0
    ensures ActionRun(action, cid, replicated, script, at).lines == [ActionLine(action, cid), PersistLine]
    ensures ActionRun(action, cid, replicated, script, at).result.value == cid
    ensures ActionRun(action, cid, replicated, script, at).synced == replicated
  {
    var reply := ReplyAt(script, at);
    assert reply.Match? && reply.index == 0;
    var p := PersistRun(script, at + 1, replicated);
    assert p.result.Ok?;
  }

  method Acted(c: Console, replicas: seq<Console>, reply: Reply, cid: string, replicated: bool)
    returns (res: Result<string>)
    requires c !in replicas
    modifies c`sent, c`read, replicas
    ensures Advanced(old(c.sent), old(c.read), c, ActedRun(reply, cid, replicated, c.script, old(c.read)))
    ensures Fanned(replicas, ActedRun(reply, cid, replicated, c.script, old(c.read)).synced)
    ensures res == ActedRun(reply, cid, replicated, c.script, old(c.read)).result
  {
    if !reply.Match? {
      return Err(WaitFailure(reply));
    }
    if reply.index == 0 {
      var persisted := Persist(c, replicas, replicated);
      if persisted.Err? {
        return Err(persisted.failure);
      }
      res := Ok(cid);
    } else if reply.index == 1 {
      res := Err(Api(ObjectNotFoundError, "Unknown HTTP Connector: " + cid));
    } else {
      res := Err(Api(ActionFailed, reply.text));
    }
  }

  method Action(c: Console, replicas: seq<Console>, action: string, cid: string, replicated: bool)
    returns (res: Result<string>)
    requires c !in replicas
    modifies c`sent, c`read, replicas
    ensures Advanced(old(c.sent), old(c.read), c, ActionRun(action, cid, replicated, c.script, old(c.read)))
    ensures Fanned(replicas, ActionRun(action, cid, replicated, c.script, old(c.read)).synced)
    ensures res == ActionRun(action, cid, replicated, c.script, old(c.read)).result
  {
    ghost var sent0, read0 := c.sent, c.read;
    var r := Command(c, ActionLine(action, cid));
    res := Acted(c, replicas, r, cid, replicated);
    Chain(c, sent0, read0, CommandRun(ActionLine(action, cid), c.script, read0),
          ActedRun(r, cid, replicated, c.script, read0 + 1));
  }

  /** destroy: `httpccm -r <cid>` on the primary console, with no fan-out. */
  method Destroy(c: Console, cid: string) returns (res: Result<string>)
    modifies c`sent, c`read
    ensures Advanced(old(c.sent), old(c.read), c, ActionRun("r", cid, false, c.script, old(c.read)))
    ensures res == ActionRun("r", cid, false, c.script, old(c.read)).result
  {
    res := Action(c, [], "r", cid, false);
  }
}
