/** The SMPP client connector manager (smppccm): the detail page and the listing of the
    connectors, the status of every connector on every console, the merged listing, one
    connector, creation, the interactive update and the one-shot actions. */
module Smppccm {
  import opened Text
  import opened Exceptions
  import opened Session
  import opened Tools
  import opened Dialect

  const Cmd := "smppccm"
  const ListLine := Cmd + " -l"
  const AddLine := Cmd + " -a"

  const MissingCid := "Missing cid (connector identifier)"
  const NotADictionary := "Updates should be a non-empty key-value dictionary"

  /** A connector as its detail page describes it, with the listing's columns merged in
      where the handler does so. */
  type Connector = map<string, string>

  // ---------------------------------------------------------------------------
  // list_smppc_status

  /** One row of the status listing. */
  datatype Status = Status(cid: string, status: string, session: string)

  /** The statuses of the rows, in order: a row whose first field starts with '#' gives the
      id after the '#', its second and third fields; an empty row or a marked row with
      fewer than three fields is an IndexError. */
  function StatusesOf(rows: seq<seq<string>>): (r: Result<seq<Status>>)
    ensures r.Ok? ==> |r.value| <= |rows|
  {
    if rows == [] then Ok([])
    else
      var p := StatusesOf(rows[..|rows| - 1]);
      var row := rows[|rows| - 1];
      if p.Err? then p
      else if row == [] then Err(Crash("IndexError"))
      else if !StartsWith(row[0], "#") then p
      else if |row| < 3 then Err(Crash("IndexError"))
      else Ok(p.value + [Status(Rest(row[0]), row[1], row[2])])
  }

  /** On the rows a listing gives (each marked with '#'), the statuses exist exactly when
      every row has three fields, and then there is one per row, in order, made of the id
      after the '#' and the next two fields. */
  lemma {:induction false} StatusesOfRows(rows: seq<seq<string>>)
    requires forall i :: 0 <= i < |rows| ==> IsDataRow(rows[i])
    ensures StatusesOf(rows).Ok? <==> forall i :: 0 <= i < |rows| ==> |rows[i]| >= 3
    ensures StatusesOf(rows).Ok? ==> |StatusesOf(rows).value| == |rows|
    ensures StatusesOf(rows).Ok? ==> forall i :: 0 <= i < |rows| ==>
      StatusesOf(rows).value[i] == Status(Rest(rows[i][0]), rows[i][1], rows[i][2])
  {
    if rows != [] {
      var init := rows[..|rows| - 1];
      StatusesOfRows(init);
      if StatusesOf(rows).Ok? {
        assert forall i :: 0 <= i < |init| ==> init[i] == rows[i];
      }
      if forall i :: 0 <= i < |rows| ==> |rows[i]| >= 3 {
        assert forall i :: 0 <= i < |init| ==> init[i] == rows[i];
      }
    }
  }

  /** The loop of list_smppc_status over the rows of one console. */
  method Statuses(rows: seq<seq<string>>) returns (res: Result<seq<Status>>)
    ensures res == StatusesOf(rows)
  {
    var connectors: seq<Status> := [];
    for i := 0 to |rows|
      invariant StatusesOf(rows[..i]) == Ok(connectors)
    {
      assert rows[..i + 1][..i] == rows[..i];
      var row := rows[i];
      if row == [] {
        StatusesPrefixErr(rows, i + 1);
        return Err(Crash("IndexError"));
      }
      if StartsWith(row[0], "#") {
        if |row| < 3 {
          StatusesPrefixErr(rows, i + 1);
          return Err(Crash("IndexError"));
        }
        connectors := connectors + [Status(Rest(row[0]), row[1], row[2])];
      }
    }
    assert rows[..|rows|] == rows;
    res := Ok(connectors);
  }

  /** A row that fails ends the loop: the later rows change nothing. */
  lemma {:induction false} StatusesPrefixErr(rows: seq<seq<string>>, k: nat)
    requires k <= |rows| && StatusesOf(rows[..k]).Err?
    ensures StatusesOf(rows) == StatusesOf(rows[..k])
    decreases |rows| - k
  {
    if k == |rows| {
      assert rows[..k] == rows;
    } else {
      var init := rows[..|rows| - 1];
      assert init[..k] == rows[..k];
      StatusesPrefixErr(init, k);
    }
  }

  /** The statuses one console reports: its listing, then the rows' statuses. */
  function InstanceRun(script: seq<Reply>, at: nat): (r: Run<seq<Status>>)
    ensures r.lines == [ListLine] && r.consumed == 1 && !r.synced
  {
    var l := ListingRun(Cmd, script, at);
    Run(l.lines, l.consumed, false, if l.result.Err? then Err(l.result.failure) else StatusesOf(l.result.value))
  }

  method Instance(c: Console) returns (res: Result<seq<Status>>)
    modifies c`sent, c`read
    ensures Advanced(old(c.sent), old(c.read), c, InstanceRun(c.script, old(c.read)))
    ensures res == InstanceRun(c.script, old(c.read)).result
  {
    var rows := Listing(c, Cmd);
    if rows.Err? {
      return Err(rows.failure);
    }
    res := Statuses(rows.value);
  }

  /** Where each console stands: its script and how many replies it has read. */
  function Views(sessions: seq<Console>): (vs: seq<(seq<Reply>, nat)>)
    reads sessions
    ensures |vs| == |sessions|
    ensures forall i :: 0 <= i < |sessions| ==> vs[i] == (sessions[i].script, sessions[i].read)
  {
    if sessions == [] then []
    else Views(sessions[..|sessions| - 1]) + [(sessions[|sessions| - 1].script, sessions[|sessions| - 1].read)]
  }

  /** What each console answers to its status listing, in order. */
  function Answers(views: seq<(seq<Reply>, nat)>): (a: seq<Result<seq<Status>>>)
    ensures |a| == |views|
  {
    if views == [] then []
    else Answers(views[..|views| - 1]) + [InstanceRun(views[|views| - 1].0, views[|views| - 1].1).result]
  }

  /** A survey every console answered holds their status lists, in order. */
  lemma {:induction false} SurveyAllOk(answers: seq<Result<seq<Status>>>, instances: seq<seq<Status>>)
    requires |instances| == |answers|
    requires forall j :: 0 <= j < |answers| ==> answers[j] == Ok(instances[j])
    ensures SurveyOf(answers) == Survey(|answers|, Ok(instances))
  {
    if answers != [] {
      var n := |answers| - 1;
      SurveyAllOk(answers[..n], instances[..n]);
      assert instances[..n] + [instances[n]] == instances;
    }
  }

  /** A survey stops at the first console that fails, and answers its failure. */
  lemma {:induction false} SurveyFirstErr(answers: seq<Result<seq<Status>>>, i: nat)
    requires i < |answers| && answers[i].Err?
    requires forall j :: 0 <= j < i ==> answers[j].Ok?
    ensures SurveyOf(answers) == Survey(i + 1, Err(answers[i].failure))
  {
    SurveyAllOk(answers[..i], seq(i, j requires 0 <= j < i => answers[j].value));
    assert answers[..i + 1][..i] == answers[..i];
    SurveyPrefixErr(answers, i + 1);
  }

  /** The i-th answer is what the i-th console reports. */
  lemma {:induction false} AnswersAt(views: seq<(seq<Reply>, nat)>, i: nat)
    requires i < |views|
    ensures Answers(views)[i] == InstanceRun(views[i].0, views[i].1).result
  {
    if i < |views| - 1 {
      AnswersAt(views[..|views| - 1], i);
    }
  }

  /** How far a status survey of several consoles got, and what it answers. */
  datatype Survey = Survey(reached: nat, result: Result<seq<seq<Status>>>)

  /** The consoles' answers taken in order, until one fails. */
  function SurveyOf(answers: seq<Result<seq<Status>>>): (s: Survey)
    ensures s.reached <= |answers|
    ensures s.result.Ok? ==> s.reached == |answers| && |s.result.value| == |answers|
    ensures s.result.Err? ==> 0 < s.reached && answers[s.reached - 1] == Err(s.result.failure)
  {
    if answers == [] then Survey(0, Ok([]))
    else
      var p := SurveyOf(answers[..|answers| - 1]);
      var one := answers[|answers| - 1];
      if p.result.Err? then p
      else if one.Err? then Survey(|answers|, Err(one.failure))
      else Survey(|answers|, Ok(p.result.value + [one.value]))
  }

  /** A survey that answers holds, for each console in order, the status list that console
      reports; one that fails stopped at the first console that failed. */
  lemma {:induction false} SurveyInstances(answers: seq<Result<seq<Status>>>)
    ensures SurveyOf(answers).result.Ok? ==> forall i :: 0 <= i < |answers| ==>
      answers[i] == Ok(SurveyOf(answers).result.value[i])
    ensures forall i :: 0 <= i < SurveyOf(answers).reached - 1 ==> answers[i].Ok?
  {
    if answers != [] {
      var init := answers[..|answers| - 1];
      SurveyInstances(init);
      assert forall i :: 0 <= i < |init| ==> init[i] == answers[i];
    }
  }

  /** A survey that failed changes nothing by going on. */
  lemma {:induction false} SurveyPrefixErr(answers: seq<Result<seq<Status>>>, k: nat)
    requires k <= |answers| && SurveyOf(answers[..k]).result.Err?
    ensures SurveyOf(answers) == SurveyOf(answers[..k])
    decreases |answers| - k
  {
    if k == |answers| {
      assert answers[..k] == answers;
    } else {
      var init := answers[..|answers| - 1];
      assert init[..k] == answers[..k];
      SurveyPrefixErr(init, k);
    }
  }

  /** One console's status list, handed over as the answer the survey expects of it. */
  method Poll(c: Console, ghost answer: Result<seq<Status>>) returns (one: Result<seq<Status>>)
    requires answer == InstanceRun(c.script, c.read).result
    modifies c`sent, c`read
    ensures c.sent == old(c.sent) + [ListLine] && c.read == old(c.read) + 1
    ensures one == answer
  {
    one := Instance(c);
  }

  /** The i-th console of the survey polled: it answers what the survey expects of it. */
  method PollAt(c: Console, ghost i: nat, ghost views: seq<(seq<Reply>, nat)>) returns (one: Result<seq<Status>>)
    requires i < |views| && views[i] == (c.script, c.read)
    modifies c`sent, c`read
    ensures c.sent == old(c.sent) + [ListLine] && c.read == old(c.read) + 1
    ensures one == Answers(views)[i]
  {
    AnswersAt(views, i);
    one := Poll(c, Answers(views)[i]);
  }

  /** A console that was sent `smppccm -l` and read its one reply. */
  twostate predicate Polled(c: Console)
    reads c
  {
    c.sent == old(c.sent) + [ListLine] && c.read == old(c.read) + 1
  }

  /** A console that was not asked. */
  twostate predicate Idle(c: Console)
    reads c
  {
    c.sent == old(c.sent) && c.read == old(c.read)
  }

  /** list_smppc_status over the primary followed by the replicas (`sessions`, seen at the
      start as `views`): one `smppccm -l` to each console in order until one fails; the
      consoles after it are not asked. */
  method ListStatus(sessions: seq<Console>, ghost views: seq<(seq<Reply>, nat)>)
    returns (res: Result<seq<seq<Status>>>, ghost reached: nat)
    requires Distinct(sessions)
    requires |views| == |sessions| && forall j :: 0 <= j < |sessions| ==> views[j] == (sessions[j].script, sessions[j].read)
    modifies sessions`sent, sessions`read
    ensures res == SurveyOf(Answers(views)).result
    ensures reached == SurveyOf(Answers(views)).reached
    ensures forall j :: 0 <= j < reached ==> Polled(sessions[j])
    ensures forall j :: reached <= j < |sessions| ==> Idle(sessions[j])
  {
    ghost var answers := Answers(views);
    var instances: seq<seq<Status>> := [];
    for i := 0 to |sessions|
      invariant |instances| == i
      invariant forall j :: 0 <= j < i ==> answers[j] == Ok(instances[j])
      invariant forall j :: 0 <= j < i ==> Polled(sessions[j])
      invariant forall j :: i <= j < |sessions| ==> Idle(sessions[j])
      invariant forall j :: i <= j < |sessions| ==> views[j] == (sessions[j].script, sessions[j].read)
    {
      DistinctApart(sessions, i);
      label before:
      var one := PollAt(sessions[i], i, views);
      assert forall j :: 0 <= j < |sessions| && j != i ==>
        sessions[j].sent == old@before(sessions[j].sent) && sessions[j].read == old@before(sessions[j].read);
      if one.Err? {
        SurveyFirstErr(answers, i);
        return Err(one.failure), i + 1;
      }
      instances := instances + [one.value];
    }
    SurveyAllOk(answers, instances);
    res, reached := Ok(instances), |sessions|;
  }

  // ---------------------------------------------------------------------------
  // list

  /** The connector a listing row adds once its detail page was asked for: none when the
      page is missing or empty; otherwise the page with the row's id, status, session,
      starts and stops merged in, an IndexError when the row has fewer than five
      fields. */
  function ListedOf(found: Option<Connector>, row: seq<string>): (r: Result<seq<Connector>>)
    ensures found.None? || found.value == map[] ==> r == Ok([])
    ensures found.Some? && found.value != map[] ==> (r.Ok? <==> |row| >= 5)
    ensures r.Ok? && r.value != [] ==> |r.value| == 1 && Merged(r.value[0], row)
    ensures r.Ok? && found.Some? && found.value != map[] ==> r.value != []
    ensures r.Ok? && r.value != [] ==>
      forall k :: k in found.value && k !in {"cid", "status", "session", "starts", "stops"} ==>
        k in r.value[0] && r.value[0][k] == found.value[k]
  {
    if found.Some? && found.value != map[] then
      if |row| < 5 then Err(Crash("IndexError"))
      else Ok([found.value["cid" := CidOf(row)]["status" := row[1]]["session" := row[2]]
                          ["starts" := row[3]]["stops" := row[4]]])
    else Ok([])
  }

  /** A connector carries the id and the four status columns of its listing row. */
  predicate Merged(m: Connector, row: seq<string>)
  {
    |row| >= 5 && "cid" in m && m["cid"] == CidOf(row) && "status" in m && m["status"] == row[1] &&
    "session" in m && m["session"] == row[2] && "starts" in m && m["starts"] == row[3] &&
    "stops" in m && m["stops"] == row[4]
  }

  /** One lookup of the listing after the earlier ones succeeded. */
  function LookUpRun(p: Run<seq<Connector>>, row: seq<string>, script: seq<Reply>, at: nat): (r: Run<seq<Connector>>)
    requires p.result.Ok?
    ensures r.lines == p.lines + [Cmd + " -s " + CidOf(row)] && r.consumed == p.consumed + 1 && !r.synced
    ensures r.result.Ok? ==> |r.result.value| <= |p.result.value| + 1
  {
    var g := ShowRun(Cmd, CidOf(row), true, script, at + p.consumed);
    if g.result.Err? then Run(p.lines + g.lines, p.consumed + g.consumed, false, Err(g.result.failure))
    else
      var l := ListedOf(g.result.value, row);
      if l.Err? then Run(p.lines + g.lines, p.consumed + g.consumed, false, Err(l.failure))
      else Run(p.lines + g.lines, p.consumed + g.consumed, false, Ok(p.result.value + l.value))
  }

  /** The lookups of the listing, one `smppccm -s` per row, in order, until one fails. */
  function ConnectorsRun(rows: seq<seq<string>>, script: seq<Reply>, at: nat): (r: Run<seq<Connector>>)
    ensures !r.synced && r.consumed <= |rows| && |r.lines| == r.consumed
    ensures r.result.Ok? ==> r.consumed == |rows| && |r.result.value| <= |rows|
  {
    if rows == [] then Run([], 0, false, Ok([]))
    else
      var p := ConnectorsRun(rows[..|rows| - 1], script, at);
      if p.result.Err? then p else LookUpRun(p, rows[|rows| - 1], script, at)
  }

  /** One `smppccm -s` per row, in order. */
  function ShowLines(rows: seq<seq<string>>): (ls: seq<string>)
    ensures |ls| == |rows|
    ensures forall i :: 0 <= i < |rows| ==> ls[i] == Cmd + " -s " + CidOf(rows[i])
  {
    if rows == [] then []
    else ShowLines(rows[..|rows| - 1]) + [Cmd + " -s " + CidOf(rows[|rows| - 1])]
  }

  /** A listing whose lookups all succeed asks for the page of every row, in order. */
  lemma {:induction false} ConnectorsLines(rows: seq<seq<string>>, script: seq<Reply>, at: nat)
    requires ConnectorsRun(rows, script, at).result.Ok?
    ensures ConnectorsRun(rows, script, at).lines == ShowLines(rows)
  {
    if rows != [] {
      ConnectorsLines(rows[..|rows| - 1], script, at);
    }
  }

  /** Every connector a listing answers with carries the id and the status columns of the
      listing row it was looked up for, in the order of the rows. */
  lemma {:induction false} ConnectorsMerged(rows: seq<seq<string>>, script: seq<Reply>, at: nat)
    requires ConnectorsRun(rows, script, at).result.Ok?
    ensures forall k :: 0 <= k < |ConnectorsRun(rows, script, at).result.value| ==>
      exists i :: 0 <= i < |rows| && Merged(ConnectorsRun(rows, script, at).result.value[k], rows[i])
  {
    if rows != [] {
      var init := rows[..|rows| - 1];
      var p := ConnectorsRun(init, script, at);
      ConnectorsMerged(init, script, at);
      var r := ConnectorsRun(rows, script, at);
      var row := rows[|rows| - 1];
      var g := ShowRun(Cmd, CidOf(row), true, script, at + p.consumed);
      var l := ListedOf(g.result.value, row);
      assert r.result.value == p.result.value + l.value;
      forall k | 0 <= k < |r.result.value|
        ensures exists i :: 0 <= i < |rows| && Merged(r.result.value[k], rows[i])
      {
        if k < |p.result.value| {
          var i :| 0 <= i < |init| && Merged(p.result.value[k], init[i]);
          assert init[i] == rows[i];
        } else {
          assert Merged(r.result.value[k], rows[|rows| - 1]);
        }
      }
    }
  }

  /** The detail page read at position j was found (pattern 2) and holds at least one
      key/value line, so `if connector:` keeps it. */
  predicate PageFilled(script: seq<Reply>, j: nat)
  {
    ReplyAt(script, j).Match? && ReplyAt(script, j).index == 2 &&
    KeyValues(Pieces(ReplyAt(script, j).text, LineBreaks)) != map[]
  }

  /** A lookup whose page is found and non-empty, for a row with its five columns, adds
      exactly one connector, merged with that row. */
  lemma LookUpFound(p: Run<seq<Connector>>, row: seq<string>, script: seq<Reply>, at: nat) returns (x: Connector)
    requires p.result.Ok? && |row| >= 5 && PageFilled(script, at + p.consumed)
    ensures LookUpRun(p, row, script, at).result == Ok(p.result.value + [x]) && Merged(x, row)
  {
    var g := ShowRun(Cmd, CidOf(row), true, script, at + p.consumed);
    assert g.result.Ok? && g.result.value.Some? && g.result.value.value != map[];
    x := ListedOf(g.result.value, row).value[0];
  }

  /** A listing where every detail page is found and non-empty, and every row has its
      five columns, answers with exactly one connector per row, in the order of the rows. */
  lemma {:induction false} ConnectorsAllFound(rows: seq<seq<string>>, script: seq<Reply>, at: nat)
    requires forall i :: 0 <= i < |rows| ==> |rows[i]| >= 5
    requires forall j :: at <= j < at + |rows| ==> PageFilled(script, j)
    ensures ConnectorsRun(rows, script, at).result.Ok?
    ensures |ConnectorsRun(rows, script, at).result.value| == |rows|
    ensures forall i :: 0 <= i < |rows| ==> Merged(ConnectorsRun(rows, script, at).result.value[i], rows[i])
  {
    if rows != [] {
      var n := |rows| - 1;
      var init := rows[..n];
      ConnectorsAllFound(init, script, at);
      var p := ConnectorsRun(init, script, at);
      assert PageFilled(script, at + p.consumed);
      var x := LookUpFound(p, rows[n], script, at);
      var cs := ConnectorsRun(rows, script, at).result.value;
      assert cs == p.result.value + [x];
      forall i | 0 <= i < |rows| ensures Merged(cs[i], rows[i]) {
        if i < n {
          assert cs[i] == p.result.value[i] && init[i] == rows[i];
        }
      }
    }
  }

  /** A page that is missing (any pattern but 2) adds no connector for its row. */
  lemma MissAddsNothing(p: Run<seq<Connector>>, row: seq<string>, script: seq<Reply>, at: nat)
    requires p.result.Ok?
    requires ReplyAt(script, at + p.consumed).Match? && ReplyAt(script, at + p.consumed).index != 2
    ensures LookUpRun(p, row, script, at).result == p.result
  {
    var g := ShowRun(Cmd, CidOf(row), true, script, at + p.consumed);
    assert g.result == Ok(None);
    assert p.result.value + [] == p.result.value;
  }

  /** What `list` sends and answers: the listing, then one lookup per row. */
  function ListRun(script: seq<Reply>, at: nat): (r: Run<seq<Connector>>)
    ensures r.lines != [] && r.lines[0] == ListLine && !r.synced
  {
    var l := ListingRun(Cmd, script, at);
    if l.result.Err? then Failed(l.lines, l.consumed, l.result.failure)
    else AndThen(Run(l.lines, l.consumed, false, Ok(())), ConnectorsRun(l.result.value, script, at + 1))
  }

  /** One lookup of the listing loop. */
  method LookUpOne(c: Console, connectors: seq<Connector>, row: seq<string>,
                   ghost p: Run<seq<Connector>>, ghost at: nat)
    returns (res: Result<seq<Connector>>)
    requires p.result == Ok(connectors) && c.read == at + p.consumed
    modifies c`sent, c`read
    ensures c.sent == old(c.sent) + [Cmd + " -s " + CidOf(row)] && c.read == old(c.read) + 1
    ensures res == LookUpRun(p, row, c.script, at).result
  {
    var found := Show(c, Cmd, CidOf(row), true);
    if found.Err? {
      return Err(found.failure);
    }
    var l := ListedOf(found.value, row);
    if l.Err? {
      return Err(l.failure);
    }
    res := Ok(connectors + l.value);
  }

  /** The lookup loop of `list`. */
  method LookUp(c: Console, rows: seq<seq<string>>) returns (res: Result<seq<Connector>>)
    modifies c`sent, c`read
    ensures Advanced(old(c.sent), old(c.read), c, ConnectorsRun(rows, c.script, old(c.read)))
    ensures res == ConnectorsRun(rows, c.script, old(c.read)).result
  {
    ghost var at := c.read;
    var connectors: seq<Connector> := [];
    for i := 0 to |rows|
      invariant ConnectorsRun(rows[..i], c.script, at).result == Ok(connectors)
      invariant Advanced(old(c.sent), at, c, ConnectorsRun(rows[..i], c.script, at))
    {
      ghost var p := ConnectorsRun(rows[..i], c.script, at);
      assert rows[..i + 1][..i] == rows[..i];
      var next := LookUpOne(c, connectors, rows[i], p, at);
      ghost var q := ConnectorsRun(rows[..i + 1], c.script, at);
      assert q.lines == p.lines + [Cmd + " -s " + CidOf(rows[i])];
      assert q.result == next;
      if next.Err? {
        ConnectorsPrefixErr(rows, i + 1, c.script, at);
        return next;
      }
      connectors := next.value;
    }
    assert rows[..|rows|] == rows;
    res := Ok(connectors);
  }

  /** A lookup that failed ends the listing: the later rows are not looked up. */
  lemma {:induction false} ConnectorsPrefixErr(rows: seq<seq<string>>, k: nat, script: seq<Reply>, at: nat)
    requires k <= |rows| && ConnectorsRun(rows[..k], script, at).result.Err?
    ensures ConnectorsRun(rows, script, at) == ConnectorsRun(rows[..k], script, at)
    decreases |rows| - k
  {
    if k == |rows| {
      assert rows[..k] == rows;
    } else {
      var init := rows[..|rows| - 1];
      assert init[..k] == rows[..k];
      ConnectorsPrefixErr(init, k, script, at);
    }
  }

  /** The `list` handler. */
  method List(c: Console) returns (res: Result<seq<Connector>>)
    modifies c`sent, c`read
    ensures Advanced(old(c.sent), old(c.read), c, ListRun(c.script, old(c.read)))
    ensures res == ListRun(c.script, old(c.read)).result
  {
    ghost var sent0, read0 := c.sent, c.read;
    var rows := Listing(c, Cmd);
    if rows.Err? {
      return Err(rows.failure);
    }
    res := LookUp(c, rows.value);
    Chain(c, sent0, read0, Run([ListLine], 1, false, Ok(())), ConnectorsRun(rows.value, c.script, read0 + 1));
  }

  // ---------------------------------------------------------------------------
  // retrieve

  /** The page merged with the row of the listing that names the connector. */
  function RowMerged(page: Connector, rows: seq<seq<string>>, cid: string): (r: Result<Connector>)
    ensures r.Ok? ==> exists row :: row in rows && row != [] && row[0] == "#" + cid && Merged(r.value, row)
    ensures FindRow(rows, "#" + cid).None? ==> r == Err(Api(ObjectNotFoundError, "Unknown connector: " + cid))
    ensures FindRow(rows, "#" + cid).Some? ==> (r.Ok? <==> |FindRow(rows, "#" + cid).value| >= 5)
  {
    var found := FindRow(rows, "#" + cid);
    if found.None? then Err(Api(ObjectNotFoundError, "Unknown connector: " + cid))
    else
      var row := found.value;
      if |row| < 5 then Err(Crash("IndexError"))
      else Ok(page["cid" := cid]["status" := row[1]]["session" := row[2]]["starts" := row[3]]["stops" := row[4]])
  }

  /** retrieve: the detail page (a miss is an error), then the listing, then the row
      whose first field is '#' followed by the id. */
  function RetrieveRun(cid: string, script: seq<Reply>, at: nat): (r: Run<Connector>)
    ensures r.lines != [] && r.lines[0] == Cmd + " -s " + cid && !r.synced
    ensures r.result.Ok? ==> r.lines == [Cmd + " -s " + cid, ListLine] && r.consumed == 2
    ensures r.result.Ok? ==> PageRun(Cmd, cid, script, at).result.Ok? && ListingRun(Cmd, script, at + 1).result.Ok?
    ensures r.result.Ok? ==> r.result == RowMerged(PageRun(Cmd, cid, script, at).result.value,
                                                   ListingRun(Cmd, script, at + 1).result.value, cid)
    ensures PageRun(Cmd, cid, script, at).result.Ok? && ListingRun(Cmd, script, at + 1).result.Ok? ==>
      r.result == RowMerged(PageRun(Cmd, cid, script, at).result.value,
                            ListingRun(Cmd, script, at + 1).result.value, cid)
  {
    var s := PageRun(Cmd, cid, script, at);
    if s.result.Err? then Failed(s.lines, s.consumed, s.result.failure)
    else
      var l := ListingRun(Cmd, script, at + 1);
      if l.result.Err? then Failed(s.lines + l.lines, 2, l.result.failure)
      else Run(s.lines + l.lines, 2, false, RowMerged(s.result.value, l.result.value, cid))
  }

  /** A connector the detail page knows but the listing does not is unknown. */
  lemma RetrieveUnlisted(cid: string, script: seq<Reply>, at: nat)
    requires PageRun(Cmd, cid, script, at).result.Ok? && ListingRun(Cmd, script, at + 1).result.Ok?
    requires forall row :: row in ListingRun(Cmd, script, at + 1).result.value ==> row[0] != "#" + cid
    ensures RetrieveRun(cid, script, at).result == Err(Api(ObjectNotFoundError, "Unknown connector: " + cid))
  {
    var rows := ListingRun(Cmd, script, at + 1).result.value;
    assert forall i :: 0 <= i < |rows| ==> rows[i] in rows;
  }

  method Retrieve(c: Console, cid: string) returns (res: Result<Connector>)
    modifies c`sent, c`read
    ensures Advanced(old(c.sent), old(c.read), c, RetrieveRun(cid, c.script, old(c.read)))
    ensures res == RetrieveRun(cid, c.script, old(c.read)).result
  {
    var page := Page(c, Cmd, cid);
    if page.Err? {
      return Err(page.failure);
    }
    var rows := Listing(c, Cmd);
    if rows.Err? {
      return Err(rows.failure);
    }
    res := RowMerged(page.value, rows.value, cid);
  }

  // ---------------------------------------------------------------------------
  // create

  /** After `smppccm -a` and its prompt: the cid key, persist and the fan-out. */
  function KeyedRun(cid: string, replicated: bool, script: seq<Reply>, at: nat): (r: Run<string>)
  {
    var s := IkeysRun([("cid", cid)], script, at);
    AndThen(s, AndThen(PersistRun(script, at + s.consumed, replicated), Done(cid)))
  }

  method Keyed(c: Console, replicas: seq<Console>, cid: string, replicated: bool) returns (res: Result<string>)
    requires c !in replicas
    modifies c`sent, c`read, replicas
    ensures Advanced(old(c.sent), old(c.read), c, KeyedRun(cid, replicated, c.script, old(c.read)))
    ensures Fanned(replicas, KeyedRun(cid, replicated, c.script, old(c.read)).synced)
    ensures res == KeyedRun(cid, replicated, c.script, old(c.read)).result
  {
    var keyed := SetIkeys(c, [("cid", cid)]);
    if keyed.Err? {
      return Err(keyed.failure);
    }
    var persisted := Persist(c, replicas, replicated);
    if persisted.Err? {
      return Err(persisted.failure);
    }
    res := Ok(cid);
  }

  /** create: a missing or empty cid is refused before any line; otherwise `smppccm -a`,
      one wait, then the cid key, persist and the fan-out; the answer is the cid. */
  function CreateRun(data: map<string, string>, replicated: bool, script: seq<Reply>, at: nat): (r: Run<string>)
  {
    var cid := Get(data, "cid", "");
    if cid == "" then Failed([], 0, Api(MissingKeyError, MissingCid))
    else AndThen(StepRun(AddLine, script, at), KeyedRun(cid, replicated, script, at + 1))
  }

  /** Without a non-empty cid nothing is sent and the request is refused. */
  lemma CreateMissing(data: map<string, string>, replicated: bool, script: seq<Reply>, at: nat)
    requires "cid" !in data || data["cid"] == ""
    ensures CreateRun(data, replicated, script, at) == Failed([], 0, Api(MissingKeyError, MissingCid))
  {
  }

  /** A connector that is created had a non-empty cid, and the answer is that cid; the
      configuration was fanned out when asked to be. */
  lemma {:induction false} CreateAnswers(data: map<string, string>, replicated: bool, script: seq<Reply>, at: nat)
    requires CreateRun(data, replicated, script, at).result.Ok?
    ensures "cid" in data && data["cid"] != ""
    ensures CreateRun(data, replicated, script, at).result.value == data["cid"]
    ensures CreateRun(data, replicated, script, at).synced == replicated
  {
    var cid := data["cid"];
    var s := IkeysRun([("cid", cid)], script, at + 1);
    assert s.result.Ok?;
    IkeysUnsynced([("cid", cid)], script, at + 1);
  }

  /** With the cid accepted, the dialogue is `smppccm -a`, the cid key line, "ok" and
      persist. */
  lemma {:induction false} CreateAllAccepted(data: map<string, string>, replicated: bool, script: seq<Reply>, at: nat)
    requires "cid" in data && data["cid"] != ""
    requires ReplyAt(script, at).Match? && Accepted(script, at + 1)
    requires CommitVerdict(ReplyAt(script, at + 2)).Ok?
    ensures CreateRun(data, replicated, script, at).lines == [AddLine, KeyLine(("cid", data["cid"])), CommitLine, PersistLine]
  {
    var cid := data["cid"];
    IkeysAllAccepted([("cid", cid)], script, at + 1);
    assert KeyLines([("cid", cid)]) == [KeyLine(("cid", cid))];
  }

  method Create(c: Console, replicas: seq<Console>, data: map<string, string>, replicated: bool)
    returns (res: Result<string>)
    requires c !in replicas
    modifies c`sent, c`read, replicas
    ensures Advanced(old(c.sent), old(c.read), c, CreateRun(data, replicated, c.script, old(c.read)))
    ensures Fanned(replicas, CreateRun(data, replicated, c.script, old(c.read)).synced)
    ensures res == CreateRun(data, replicated, c.script, old(c.read)).result
  {
    ghost var sent0, read0 := c.sent, c.read;
    var cid := Get(data, "cid", "");
    if cid == "" {
      return Err(Api(MissingKeyError, MissingCid));
    }
    var added := Step(c, AddLine);
    if added.Err? {
      return Err(added.failure);
    }
    res := Keyed(c, replicas, cid, replicated);
    Chain(c, sent0, read0, StepRun(AddLine, c.script, read0), KeyedRun(cid, replicated, c.script, read0 + 1));
  }

  // ---------------------------------------------------------------------------
  // custom_partial_update

  /** The request body of an update: a dictionary, as its entries in order, or anything
      else. */
  datatype Patch = Entries(items: seq<(string, string)>) | NotADict

  /** The line each entry is sent as: key, a space, the value and a newline. */
  function PatchLine(entry: (string, string)): string
  {
    KeyLine(entry) + "\n"
  }

  function PatchLines(items: seq<(string, string)>): (ls: seq<string>)
    ensures |ls| == |items| && forall i :: 0 <= i < |items| ==> ls[i] == PatchLine(items[i])
  {
    if items == [] then [] else [PatchLine(items[0])] + PatchLines(items[1..])
  }

  lemma {:induction false} PatchLinesPrefix(items: seq<(string, string)>, i: nat)
    requires i < |items|
    ensures PatchLines(items[..i + 1]) == PatchLines(items[..i]) + [PatchLine(items[i])]
  {
    var a := PatchLines(items[..i + 1]);
    var b := PatchLines(items[..i]) + [PatchLine(items[i])];
    assert |a| == |b|;
    forall k | 0 <= k < |a| ensures a[k] == b[k] {
      assert items[..i + 1][k] == items[k];
      if k < i {
        assert items[..i][k] == items[k];
      }
    }
  }

  /** The entries and the closing "ok\n": each entry is sent and answered in turn, and the
      first rejected line ends the dialogue. */
  function EntriesRun(items: seq<(string, string)>, script: seq<Reply>, at: nat): (r: Run<()>)
    ensures !r.synced && r.consumed <= |items| + 1 && |r.lines| == r.consumed
    decreases |items|
  {
    if items == [] then Run([UpdateCommitLine], 1, false, UpdateCommitVerdict(ReplyAt(script, at)))
    else
      var v := UpdateVerdict(ReplyAt(script, at));
      if v.Err? then Failed([PatchLine(items[0])], 1, v.failure)
      else
        var rest := EntriesRun(items[1..], script, at + 1);
        Run([PatchLine(items[0])] + rest.lines, 1 + rest.consumed, false, rest.result)
  }

  /** Every entry accepted: one line per entry in order, then exactly one "ok\n", whose
      reply decides the outcome. */
  lemma {:induction false} EntriesAllTaken(items: seq<(string, string)>, script: seq<Reply>, at: nat)
    requires forall i :: at <= i < at + |items| ==> Taken(script, i)
    ensures EntriesRun(items, script, at).lines == PatchLines(items) + [UpdateCommitLine]
    ensures EntriesRun(items, script, at).consumed == |items| + 1
    ensures EntriesRun(items, script, at).result == UpdateCommitVerdict(ReplyAt(script, at + |items|))
    decreases |items|
  {
    if items != [] {
      assert Taken(script, at);
      EntriesAllTaken(items[1..], script, at + 1);
    }
  }

  /** The first rejected entry ends the dialogue: the entries before it and it were sent,
      no later entry and no "ok\n" were, and its error is the reply's. */
  lemma {:induction false} EntriesFirstRejected(items: seq<(string, string)>, script: seq<Reply>, at: nat, k: nat)
    requires k < |items|
    requires forall i :: at <= i < at + k ==> Taken(script, i)
    requires !Taken(script, at + k)
    ensures EntriesRun(items, script, at).lines == PatchLines(items[..k + 1])
    ensures EntriesRun(items, script, at).result == UpdateVerdict(ReplyAt(script, at + k))
    decreases k
  {
    if k > 0 {
      assert Taken(script, at);
      EntriesFirstRejected(items[1..], script, at + 1, k - 1);
      assert items[1..][..k] == items[..k + 1][1..];
    } else {
      assert items[..1] == [items[0]];
    }
  }

  /** A dialogue that completes had every entry accepted and sent "ok\n". */
  lemma {:induction false} EntriesSucceed(items: seq<(string, string)>, script: seq<Reply>, at: nat)
    requires EntriesRun(items, script, at).result.Ok?
    ensures forall i :: at <= i < at + |items| ==> Taken(script, i)
    ensures EntriesRun(items, script, at).consumed == |items| + 1
    decreases |items|
  {
    if items != [] {
      EntriesSucceed(items[1..], script, at + 1);
    }
  }

  /** One entry and its reply. */
  method SendEntry(c: Console, entry: (string, string)) returns (res: Result<()>)
    modifies c`sent, c`read
    ensures c.sent == old(c.sent) + [PatchLine(entry)] && c.read == old(c.read) + 1
    ensures res == UpdateVerdict(ReplyAt(c.script, old(c.read)))
  {
    var r := Command(c, PatchLine(entry));
    res := UpdateVerdict(r);
  }

  /** The entry loop of custom_partial_update and the closing "ok\n". */
  method SendEntries(c: Console, items: seq<(string, string)>) returns (res: Result<()>)
    modifies c`sent, c`read
    ensures Advanced(old(c.sent), old(c.read), c, EntriesRun(items, c.script, old(c.read)))
    ensures res == EntriesRun(items, c.script, old(c.read)).result
  {
    ghost var at := c.read;
    var i := 0;
    while i < |items|
      invariant 0 <= i <= |items| && c.read == at + i
      invariant c.sent == old(c.sent) + PatchLines(items[..i])
      invariant forall j :: at <= j < at + i ==> Taken(c.script, j)
    {
      var v := SendEntry(c, items[i]);
      PatchLinesPrefix(items, i);
      if v.Err? {
        EntriesFirstRejected(items, c.script, at, i);
        return v;
      }
      i := i + 1;
    }
    assert items[..i] == items;
    EntriesAllTaken(items, c.script, at);
    c.SendLine(UpdateCommitLine);
    var r := c.Expect();
    res := UpdateCommitVerdict(r);
  }

  /** Once the update session is open: the body is checked, then the entries, persist,
      the fan-out and the detail page of the connector. */
  function PatchedRun(patch: Patch, cid: string, replicated: bool, script: seq<Reply>, at: nat)
    : (r: Run<Connector>)
    ensures patch.NotADict? || patch.items == [] ==>
      r.lines == [] && r.result == Err(Api(JasminSyntaxError, NotADictionary))
  {
    if patch.NotADict? || patch.items == [] then Failed([], 0, Api(JasminSyntaxError, NotADictionary))
    else
      var e := EntriesRun(patch.items, script, at);
      AndThen(e, PersistedRun(cid, replicated, script, at + e.consumed))
  }

  /** persist, the fan-out, then the detail page of the connector. */
  function PersistedRun(cid: string, replicated: bool, script: seq<Reply>, at: nat): (r: Run<Connector>)
    ensures r.lines != [] && r.lines[0] == PersistLine
    ensures r.result.Ok? ==> r.synced == replicated
    ensures r.result.Ok? ==> PageRun(Cmd, cid, script, at + 1).result == r.result
  {
    AndThen(PersistRun(script, at, replicated), PageRun(Cmd, cid, script, at + 1))
  }

  method Persisted(c: Console, replicas: seq<Console>, cid: string, replicated: bool)
    returns (res: Result<Connector>)
    requires c !in replicas
    modifies c`sent, c`read, replicas
    ensures Advanced(old(c.sent), old(c.read), c, PersistedRun(cid, replicated, c.script, old(c.read)))
    ensures Fanned(replicas, PersistedRun(cid, replicated, c.script, old(c.read)).synced)
    ensures res == PersistedRun(cid, replicated, c.script, old(c.read)).result
  {
    var persisted := Persist(c, replicas, replicated);
    if persisted.Err? {
      return Err(persisted.failure);
    }
    res := Page(c, Cmd, cid);
  }

  method Patched(c: Console, replicas: seq<Console>, patch: Patch, cid: string, replicated: bool)
    returns (res: Result<Connector>)
    requires c !in replicas
    modifies c`sent, c`read, replicas
    ensures Advanced(old(c.sent), old(c.read), c, PatchedRun(patch, cid, replicated, c.script, old(c.read)))
    ensures Fanned(replicas, PatchedRun(patch, cid, replicated, c.script, old(c.read)).synced)
    ensures res == PatchedRun(patch, cid, replicated, c.script, old(c.read)).result
  {
    if patch.NotADict? || patch.items == [] {
      return Err(Api(JasminSyntaxError, NotADictionary));
    }
    var sent := SendEntries(c, patch.items);
    if sent.Err? {
      return Err(sent.failure);
    }
    res := Persisted(c, replicas, cid, replicated);
  }

  /** The line that opens the interactive update of one connector. */
  function PatchOpenLine(cid: string): string
  {
    "smppccm -u " + cid
  }

  /** custom_partial_update: `smppccm -u <cid>`, then pattern 0 opens the update session;
      1 is an unknown connector; any other pattern is a Jasmin error carrying the whole
      match with its whitespace collapsed. */
  function PartialUpdateRun(cid: string, patch: Patch, replicated: bool, script: seq<Reply>, at: nat)
    : (r: Run<Connector>)
    ensures r.lines != [] && r.lines[0] == PatchOpenLine(cid)
    ensures var reply := ReplyAt(script, at); reply.Match? && reply.index == 1 ==>
      r.lines == [PatchOpenLine(cid)] && r.result == Err(Api(UnknownError, "Unknown connector: " + cid))
    ensures var reply := ReplyAt(script, at); reply.Match? && reply.index >= 2 ==>
      r.lines == [PatchOpenLine(cid)] && r.result == Err(Api(JasminError, Collapse(reply.text)))
    ensures var reply := ReplyAt(script, at); reply.Match? && reply.index == 0 && (patch.NotADict? || patch.items == []) ==>
      r.lines == [PatchOpenLine(cid)] && r.result == Err(Api(JasminSyntaxError, NotADictionary))
  {
    AndThen(CommandRun(PatchOpenLine(cid), script, at), OpenedRun(ReplyAt(script, at), patch, cid, replicated, script, at + 1))
  }

  /** What the answer to the opening line leads to. */
  function OpenedRun(reply: Reply, patch: Patch, cid: string, replicated: bool, script: seq<Reply>, at: nat)
    : (r: Run<Connector>)
  {
    match reply
    case Match(i, t) =>
      if i == 1 then Failed([], 0, Api(UnknownError, "Unknown connector: " + cid))
      else if i != 0 then Failed([], 0, Api(JasminError, Collapse(t)))
      else PatchedRun(patch, cid, replicated, script, at)
    case _ => Failed([], 0, WaitFailure(reply))
  }

  method Opened(c: Console, replicas: seq<Console>, reply: Reply, patch: Patch, cid: string, replicated: bool)
    returns (res: Result<Connector>)
    requires c !in replicas
    modifies c`sent, c`read, replicas
    ensures Advanced(old(c.sent), old(c.read), c, OpenedRun(reply, patch, cid, replicated, c.script, old(c.read)))
    ensures Fanned(replicas, OpenedRun(reply, patch, cid, replicated, c.script, old(c.read)).synced)
    ensures res == OpenedRun(reply, patch, cid, replicated, c.script, old(c.read)).result
  {
    if !reply.Match? {
      return Err(WaitFailure(reply));
    }
    if reply.index == 1 {
      return Err(Api(UnknownError, "Unknown connector: " + cid));
    }
    if reply.index != 0 {
      return Err(Api(JasminError, Collapse(reply.text)));
    }
    res := Patched(c, replicas, patch, cid, replicated);
  }

  /** Once the session is open, an update that completes had a non-empty dictionary whose
      every entry was accepted, and answers with the detail page shown after "ok\n" and
      persist; the configuration was fanned out when asked to be. */
  lemma {:induction false} PatchedAnswers(patch: Patch, cid: string, replicated: bool, script: seq<Reply>, at: nat)
    requires PatchedRun(patch, cid, replicated, script, at).result.Ok?
    ensures patch.Entries? && patch.items != []
    ensures forall i :: at <= i < at + |patch.items| ==> Taken(script, i)
    ensures PatchedRun(patch, cid, replicated, script, at).synced == replicated
    ensures PageRun(Cmd, cid, script, at + |patch.items| + 2).result == PatchedRun(patch, cid, replicated, script, at).result
  {
    assert patch.Entries? && patch.items != [];
    var e := EntriesRun(patch.items, script, at);
    assert e.result.Ok?;
    EntriesSucceed(patch.items, script, at);
    assert e.consumed == |patch.items| + 1;
  }

  /** An update that completes opened the session (pattern 0) and went on to a session
      that completes (see PatchedAnswers); it answers with the detail page shown at the
      end. */
  lemma {:induction false} PartialUpdateAnswers(cid: string, patch: Patch, replicated: bool, script: seq<Reply>, at: nat)
    requires PartialUpdateRun(cid, patch, replicated, script, at).result.Ok?
    ensures ReplyAt(script, at).Match? && ReplyAt(script, at).index == 0
    ensures PatchedRun(patch, cid, replicated, script, at + 1).result.Ok?
    ensures patch.Entries? && patch.items != []
    ensures PartialUpdateRun(cid, patch, replicated, script, at).synced == replicated
    ensures PageRun(Cmd, cid, script, at + |patch.items| + 3).result == PartialUpdateRun(cid, patch, replicated, script, at).result
  {
    var reply := ReplyAt(script, at);
    var r := PartialUpdateRun(cid, patch, replicated, script, at);
    var rest := PatchedRun(patch, cid, replicated, script, at + 1);
    assert reply.Match? && reply.index == 0;
    assert r.result == rest.result && r.synced == rest.synced;
    PatchedAnswers(patch, cid, replicated, script, at + 1);
  }

  /** With the session open and every entry accepted, the dialogue is `smppccm -u <cid>`,
      one line per entry in order, "ok\n", persist and `smppccm -s <cid>`. */
  lemma {:induction false} PartialUpdateAllTaken(cid: string, items: seq<(string, string)>, replicated: bool,
                                         script: seq<Reply>, at: nat)
    requires items != []
    requires ReplyAt(script, at).Match? && ReplyAt(script, at).index == 0
    requires forall i :: at + 1 <= i < at + 1 + |items| ==> Taken(script, i)
    requires UpdateCommitVerdict(ReplyAt(script, at + 1 + |items|)).Ok?
    requires ReplyAt(script, at + 2 + |items|).Match?
    ensures PartialUpdateRun(cid, Entries(items), replicated, script, at).lines ==
      [PatchOpenLine(cid)] + PatchLines(items) + [UpdateCommitLine, PersistLine, Cmd + " -s " + cid]
  {
    EntriesAllTaken(items, script, at + 1);
    var e := EntriesRun(items, script, at + 1);
    assert e.result.Ok?;
    var p := PersistedRun(cid, replicated, script, at + 1 + e.consumed);
    assert p.lines == [PersistLine, Cmd + " -s " + cid];
    assert PatchedRun(Entries(items), cid, replicated, script, at + 1).lines == e.lines + p.lines;
    var tail := [UpdateCommitLine, PersistLine, Cmd + " -s " + cid];
    assert [PatchOpenLine(cid)] + (e.lines + p.lines) == [PatchOpenLine(cid)] + PatchLines(items) + tail;
  }

  method PartialUpdate(c: Console, replicas: seq<Console>, cid: string, patch: Patch, replicated: bool)
    returns (res: Result<Connector>)
    requires c !in replicas
    modifies c`sent, c`read, replicas
    ensures Advanced(old(c.sent), old(c.read), c, PartialUpdateRun(cid, patch, replicated, c.script, old(c.read)))
    ensures Fanned(replicas, PartialUpdateRun(cid, patch, replicated, c.script, old(c.read)).synced)
    ensures res == PartialUpdateRun(cid, patch, replicated, c.script, old(c.read)).result
  {
    ghost var sent0, read0 := c.sent, c.read;
    var r := Command(c, PatchOpenLine(cid));
    res := Opened(c, replicas, r, patch, cid, replicated);
    Chain(c, sent0, read0, CommandRun(PatchOpenLine(cid), c.script, read0),
          OpenedRun(r, patch, cid, replicated, c.script, read0 + 1));
  }

  // ---------------------------------------------------------------------------
  // simple_smppccm_action: destroy, start, stop

  datatype Op = Remove | Start | Stop

  /** The flag of each action: remove `r`, start `1`, stop `0`. */
  function Flag(op: Op): string
  {
    match op
    case Remove => "r"
    case Start => "1"
    case Stop => "0"
  }

  function ActionLine(op: Op, cid: string): string
  {
    "smppccm -" + Flag(op) + " " + cid
  }

  /** What the answer to an action line leads to: pattern 0 persists, fans out and answers
      with the id; 1 is an unknown connector; anything else a failed action. */
  function ActedRun(reply: Reply, cid: string, replicated: bool, script: seq<Reply>, at: nat): (r: Run<string>)
  {
    match reply
    case Match(i, t) =>
      if i == 0 then AndThen(PersistRun(script, at, replicated), Done(cid))
      else if i == 1 then Failed([], 0, Api(ObjectNotFoundError, "Unknown SMPP Connector: " + cid))
      else Failed([], 0, Api(ActionFailed, ErrorText(t)))
    case _ => Failed([], 0, WaitFailure(reply))
  }

  function ActionRun(op: Op, cid: string, replicated: bool, script: seq<Reply>, at: nat): (r: Run<string>)
    ensures r.lines != [] && r.lines[0] == ActionLine(op, cid)
    ensures var reply := ReplyAt(script, at); reply.Match? && reply.index == 1 ==>
      r.lines == [ActionLine(op, cid)] && r.result == Err(Api(ObjectNotFoundError, "Unknown SMPP Connector: " + cid))
    ensures var reply := ReplyAt(script, at); reply.Match? && reply.index >= 2 ==>
      r.lines == [ActionLine(op, cid)] && r.result == Err(Api(ActionFailed, ErrorText(reply.text)))
  {
    AndThen(CommandRun(ActionLine(op, cid), script, at), ActedRun(ReplyAt(script, at), cid, replicated, script, at + 1))
  }

  /** An action that completes succeeded on the primary (pattern 0), sent persist, and
      answers with the connector's id; the configuration was fanned out when asked to
      be. */
  lemma {:induction false} ActionAnswers(op: Op, cid: string, replicated: bool, script: seq<Reply>, at: nat)
    requires ActionRun(op, cid, replicated, script, at).result.Ok?
    ensures ReplyAt(script, at).Match? && ReplyAt(script, at).index == 0
    ensures ActionRun(op, cid, replicated, script, at).lines == [ActionLine(op, cid), PersistLine]
    ensures ActionRun(op, cid, replicated, script, at).result.value == cid
    ensures ActionRun(op, cid, replicated, script, at).synced == replicated
  {
    var reply := ReplyAt(script, at);
    assert reply.Match? && reply.index == 0;
    var p := PersistRun(script, at + 1, replicated);
    assert p.result.Ok?;
  }

  method Acted(c: Console, replicas: seq<Console>, reply: Reply, cid: string, replicated: bool)
    returns (res: Result<string>)
    requires c !in replicas
    modifies c`sent, c`read, replicas
    ensures Advanced(old(c.sent), old(c.read), c, ActedRun(reply, cid, replicated, c.script, old(c.read)))
    ensures Fanned(replicas, ActedRun(reply, cid, replicated, c.script, old(c.read)).synced)
    ensures res == ActedRun(reply, cid, replicated, c.script, old(c.read)).result
  {
    if !reply.Match? {
      return Err(WaitFailure(reply));
    }
    if reply.index == 0 {
      var persisted := Persist(c, replicas, replicated);
      if persisted.Err? {
        return Err(persisted.failure);
      }
      res := Ok(cid);
    } else if reply.index == 1 {
      res := Err(Api(ObjectNotFoundError, "Unknown SMPP Connector: " + cid));
    } else {
      res := Err(Api(ActionFailed, ErrorText(reply.text)));
    }
  }

  method Action(c: Console, replicas: seq<Console>, op: Op, cid: string, replicated: bool)
    returns (res: Result<string>)
    requires c !in replicas
    modifies c`sent, c`read, replicas
    ensures Advanced(old(c.sent), old(c.read), c, ActionRun(op, cid, replicated, c.script, old(c.read)))
    ensures Fanned(replicas, ActionRun(op, cid, replicated, c.script, old(c.read)).synced)
    ensures res == ActionRun(op, cid, replicated, c.script, old(c.read)).result
  {
    ghost var sent0, read0 := c.sent, c.read;
    var r := Command(c, ActionLine(op, cid));
    res := Acted(c, replicas, r, cid, replicated);
    Chain(c, sent0, read0, CommandRun(ActionLine(op, cid), c.script, read0),
          ActedRun(r, cid, replicated, c.script, read0 + 1));
  }
}
