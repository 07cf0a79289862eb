/** What the resource views (the modules under rest_api/views) share: the shape of a listing reply,
    the connector-list notation of the routers, the "key value" detail pages of the
    connectors, the request-data lookups, and the dialogue steps every write ends with. */
module Dialect {
  import opened Text
  import opened Exceptions
  import opened Session
  import opened Tools

  /** The line that writes the running configuration to disk. */
  const PersistLine := "persist\n"

  // ---------------------------------------------------------------------------
  // Listing replies

  /** The lines of a listing reply: the whole match stripped, carriage returns removed,
      then split at each newline. */
  function TableLines(text: string): (ls: seq<string>)
    ensures |ls| >= 1
  {
    SplitOn(Replace(Strip(text), "\r", ""), '\n')
  }

  /** Joining the table lines back with newlines gives the stripped reply without its
      carriage returns: the split loses nothing. */
  lemma TableLinesJoin(text: string)
    ensures Join("\n", TableLines(text)) == Replace(Strip(text), "\r", "")
  {
    JoinSplitOn(Replace(Strip(text), "\r", ""), '\n');
  }

  /** Every table line is a single line. */
  lemma TableLinesSingle(text: string)
    ensures NoneOf(TableLines(text), {'\n'})
  {
    PiecesFree(Replace(Strip(text), "\r", ""), {'\n'});
  }

  /** The listing without its two header and two footer lines. */
  function Body(lines: seq<string>): (b: seq<string>)
    ensures |lines| < 4 ==> b == []
    ensures |lines| >= 4 ==> |b| == |lines| - 4 && forall i :: 0 <= i < |b| ==> b[i] == lines[i + 2]
  {
    if |lines| < 4 then [] else lines[2..|lines| - 2]
  }

  /** A listing line with the blank after each comma and every "(!)" marker removed. */
  function CleanLine(l: string): string
  {
    Replace(Replace(l, ", ", ","), "(!)", "")
  }

  /** Empty lines dropped, the others cleaned, in order. */
  function Cleaned(lines: seq<string>): (cs: seq<string>)
    ensures |cs| <= |lines|
  {
    if lines == [] then []
    else (if lines[0] == "" then [] else [CleanLine(lines[0])]) + Cleaned(lines[1..])
  }

  lemma {:induction false} CleanedAppend(a: seq<string>, b: seq<string>)
    ensures Cleaned(a + b) == Cleaned(a) + Cleaned(b)
  {
    if a != [] {
      assert (a + b)[1..] == a[1..] + b;
      CleanedAppend(a[1..], b);
    } else {
      assert a + b == b;
    }
  }

  /** The rows a cleaned listing gives: when the reply has fewer than three lines there
      are none, otherwise they are the data rows of the cleaned body. */
  function CleanRows(text: string): (rows: seq<seq<string>>)
    ensures |TableLines(text)| < 5 ==> rows == []
    ensures forall i :: 0 <= i < |rows| ==> IsDataRow(rows[i])
  {
    var lines := TableLines(text);
    if |lines| < 3 then [] else DataRows(Cleaned(Body(lines)))
  }

  /** The rows a raw listing gives (the connector managers do not clean the lines). */
  function RawRows(text: string): (rows: seq<seq<string>>)
    ensures |TableLines(text)| < 5 ==> rows == []
    ensures forall i :: 0 <= i < |rows| ==> IsDataRow(rows[i])
  {
    var lines := TableLines(text);
    if |lines| < 3 then [] else DataRows(Body(lines))
  }

  /** The text an error carries when the capture group may be empty: the stripped
      capture, or "Unknown error" when nothing was captured. */
  function ErrorText(t: string): (d: string)
    ensures t == "" ==> d == "Unknown error"
    ensures t != "" ==> d == Strip(t)
  {
    if t == "" then "Unknown error" else Strip(t)
  }

  // ---------------------------------------------------------------------------
  // Routing table cells

  /** The order column: stripped, then its leading '#' markers dropped. */
  function OrderOf(cell: string): (o: string)
    ensures |o| <= |Strip(cell)|
  {
    LStripChars(Strip(cell), {'#'})
  }

  /** A comma-separated column as a list of stripped items. */
  function ItemsOf(cell: string): (xs: seq<string>)
    ensures |xs| >= 1
  {
    StripAll(SplitOn(cell, ','))
  }

  /** The order of a data row is its '#' marker run dropped: what is dropped is all '#',
      and the order does not start with '#'. */
  lemma RouteOrder(cell: string)
    requires IsWord(cell)
    ensures var o := OrderOf(cell);
      |o| <= |cell| && cell == cell[..|cell| - |o|] + o &&
      (forall i :: 0 <= i < |cell| - |o| ==> cell[i] == '#') &&
      (o == [] || o[0] != '#')
  {
    StripWord(cell);
    LStripCharsShape(cell, {'#'});
  }

  /** A space-free comma-separated column joined back with ',' gives itself. */
  lemma ItemsRoundTrip(cell: string)
    requires IsWord(cell)
    ensures Join([','], ItemsOf(cell)) == cell
  {
    StripAllPiecesOfWord(cell, ',');
    JoinSplitOn(cell, ',');
  }

  // ---------------------------------------------------------------------------
  // Request data

  /** The value the request data holds under `key`, or `default` when it has none. */
  function Get(data: map<string, string>, key: string, default: string): (v: string)
    ensures key in data ==> v == data[key]
    ensures key !in data ==> v == default
  {
    if key in data then data[key] else default
  }

  /** The keys of an ordered list of interactive keys. */
  function Names(pairs: seq<(string, string)>): (ns: seq<string>)
    ensures |ns| == |pairs| && forall i :: 0 <= i < |pairs| ==> ns[i] == pairs[i].0
  {
    if pairs == [] then [] else [pairs[0].0] + Names(pairs[1..])
  }

  /** The names of two runs of pairs are the names of the first, then of the second. */
  lemma NamesAppend(a: seq<(string, string)>, b: seq<(string, string)>)
    ensures Names(a + b) == Names(a) + Names(b)
  {
    assert |Names(a + b)| == |Names(a) + Names(b)|;
    forall i | 0 <= i < |a + b| ensures Names(a + b)[i] == (Names(a) + Names(b))[i] {
      if i >= |a| {
        assert (a + b)[i] == b[i - |a|];
      }
    }
  }

  /** The first of `keys` the data lacks: the KeyError a chain of data[...] reads raises. */
  function FirstMissing(data: map<string, string>, keys: seq<string>): (m: Option<string>)
    ensures m.None? <==> forall i :: 0 <= i < |keys| ==> keys[i] in data
    ensures m.None? ==> forall k :: k in keys ==> k in data
    ensures m.Some? ==> exists i :: 0 <= i < |keys| && keys[i] == m.value && keys[i] !in data &&
                                    forall j :: 0 <= j < i ==> keys[j] in data
  {
    if keys == [] then None
    else if keys[0] !in data then Some(keys[0])
    else
      var rest := FirstMissing(data, keys[1..]);
      if rest.Some? then
        ghost var i :| 0 <= i < |keys[1..]| && keys[1..][i] == rest.value && keys[1..][i] !in data &&
          forall j :: 0 <= j < i ==> keys[1..][j] in data;
        assert keys[i + 1] == rest.value;
        rest
      else rest
  }

  datatype Option<+T> = None | Some(value: T)

  // ---------------------------------------------------------------------------
  // Connector lists of the routers

  /** The non-blank items of a split list, each stripped, in order. */
  function Ids(items: seq<string>): (ids: seq<string>)
    ensures |ids| <= |items|
    ensures forall i :: 0 <= i < |ids| ==> ids[i] != "" && ids[i] in StripAll(items)
  {
    NonEmpty(StripAll(items))
  }

  /** Each id wrapped as kind(id). */
  function Wrapped(kind: string, xs: seq<string>): (cs: seq<string>)
    ensures |cs| == |xs| && forall i :: 0 <= i < |cs| ==> cs[i] == kind + "(" + xs[i] + ")"
  {
    if xs == [] then [] else [kind + "(" + xs[0] + ")"] + Wrapped(kind, xs[1..])
  }

  /** The comma-separated ids, stripped, blanks dropped, each wrapped as kind(id). */
  function Connectors(kind: string, ids: string): (cs: seq<string>)
  {
    Wrapped(kind, Ids(SplitOn(ids, ',')))
  }

  /** An id is kept exactly when it is the non-blank strip of some item of the list. */
  lemma IdsMembers(items: seq<string>, x: string)
    ensures x in Ids(items) <==> x != "" && x in StripAll(items)
  {
    NonEmptyMembers(StripAll(items), x);
  }

  // ---------------------------------------------------------------------------
  // "key value" detail pages (smppccm -s, httpccm -s)

  /** The pair a detail line gives: exactly two whitespace-separated tokens. */
  function Entry(line: string): (e: Option<(string, string)>)
    ensures e.Some? <==> |Words(line)| == 2
  {
    var parts := Words(line);
    if |parts| == 2 then Some((parts[0], parts[1])) else None
  }

  /** The dictionary the loop over the lines builds: later lines overwrite earlier ones. */
  function KeyValues(lines: seq<string>): map<string, string>
  {
    if lines == [] then map[]
    else
      var m := KeyValues(lines[..|lines| - 1]);
      match Entry(lines[|lines| - 1])
      case Some(kv) => m[kv.0 := kv.1]
      case None => m
  }

  /** A key is present exactly when some line is a pair with that key. */
  lemma {:induction false} KeyValuesDomain(lines: seq<string>, k: string)
    ensures k in KeyValues(lines) <==>
      exists i :: 0 <= i < |lines| && Entry(lines[i]).Some? && Entry(lines[i]).value.0 == k
  {
    if lines != [] {
      var init := lines[..|lines| - 1];
      KeyValuesDomain(init, k);
      if exists i :: 0 <= i < |init| && Entry(init[i]).Some? && Entry(init[i]).value.0 == k {
        var i :| 0 <= i < |init| && Entry(init[i]).Some? && Entry(init[i]).value.0 == k;
        assert lines[i] == init[i];
      }
      if exists i :: 0 <= i < |lines| && Entry(lines[i]).Some? && Entry(lines[i]).value.0 == k {
        var i :| 0 <= i < |lines| && Entry(lines[i]).Some? && Entry(lines[i]).value.0 == k;
        if i < |init| {
          assert init[i] == lines[i];
        }
      }
    }
  }

  /** The value of a key is the one on the last line that sets it. */
  lemma {:induction false} KeyValuesLastWins(lines: seq<string>, i: nat)
    requires i < |lines| && Entry(lines[i]).Some?
    requires forall j :: i < j < |lines| && Entry(lines[j]).Some? ==>
      Entry(lines[j]).value.0 != Entry(lines[i]).value.0
    ensures Entry(lines[i]).value.0 in KeyValues(lines)
    ensures KeyValues(lines)[Entry(lines[i]).value.0] == Entry(lines[i]).value.1
    decreases |lines|
  {
    if i < |lines| - 1 {
      var init := lines[..|lines| - 1];
      assert init[i] == lines[i];
      forall j | i < j < |init| && Entry(init[j]).Some?
        ensures Entry(init[j]).value.0 != Entry(init[i]).value.0
      {
        assert init[j] == lines[j];
      }
      KeyValuesLastWins(init, i);
    }
  }

  /** The detail page parser: the lines of the capture, one pair per two-token line. */
  method ParseKeyValues(text: string) returns (m: map<string, string>)
    ensures m == KeyValues(Pieces(text, LineBreaks))
  {
    var lines := Pieces(text, LineBreaks);
    m := map[];
    for i := 0 to |lines|
      invariant m == KeyValues(lines[..i])
    {
      assert lines[..i + 1][..i] == lines[..i];
      var parts := Words(lines[i]);
      if |parts| == 2 {
        m := m[parts[0] := parts[1]];
      }
    }
    assert lines[..|lines|] == lines;
  }

  /** The dialogue of get_smppccm / get_httpccm: `cmd -s id`, then the index of the first
      matching pattern: 0 unknown connector, 1 usage error, 2 the detail page. A miss is
      None when silent and ObjectNotFoundError otherwise. */
  function ShowRun(cmd: string, id: string, silent: bool, script: seq<Reply>, at: nat)
    : (r: Run<Option<map<string, string>>>)
    ensures r.lines == [cmd + " -s " + id] && r.consumed == 1 && !r.synced
    ensures r.result.Ok? && r.result.value.Some? ==>
      ReplyAt(script, at).Match? && ReplyAt(script, at).index == 2
    ensures ReplyAt(script, at).Match? && ReplyAt(script, at).index != 2 ==>
      r.result == (if silent then Ok(None) else Err(Api(ObjectNotFoundError, "Unknown connector: " + id)))
    ensures r.result.Ok? && !silent ==> r.result.value.Some?
  {
    var reply := ReplyAt(script, at);
    var res :=
      match reply
      case Match(i, t) =>
        if i != 2 then
          (if silent then Ok(None) else Err(Api(ObjectNotFoundError, "Unknown connector: " + id)))
        else Ok(Some(KeyValues(Pieces(t, LineBreaks))))
      case _ => Err(WaitFailure(reply));
    Run([cmd + " -s " + id], 1, false, res)
  }

  method Show(c: Console, cmd: string, id: string, silent: bool)
    returns (res: Result<Option<map<string, string>>>)
    modifies c`sent, c`read
    ensures Advanced(old(c.sent), old(c.read), c, ShowRun(cmd, id, silent, c.script, old(c.read)))
    ensures res == ShowRun(cmd, id, silent, c.script, old(c.read)).result
  {
    var r := Command(c, cmd + " -s " + id);
    match r
    case Match(i, t) =>
      if i != 2 {
        if silent {
          res := Ok(None);
        } else {
          res := Err(Api(ObjectNotFoundError, "Unknown connector: " + id));
        }
      } else {
        var m := ParseKeyValues(t);
        res := Ok(Some(m));
      }
    case _ =>
      res := Err(WaitFailure(r));
  }

  /** The detail page of a connector that must exist: `cmd -s id`; pattern 2 is the page,
      anything else an unknown connector. */
  function PageRun(cmd: string, id: string, script: seq<Reply>, at: nat): (r: Run<map<string, string>>)
    ensures r.lines == [cmd + " -s " + id] && r.consumed == 1 && !r.synced
    ensures r.result.Ok? <==> ReplyAt(script, at).Match? && ReplyAt(script, at).index == 2
    ensures r.result.Ok? ==> r.result.value == KeyValues(Pieces(ReplyAt(script, at).text, LineBreaks))
    ensures ReplyAt(script, at).Match? && ReplyAt(script, at).index != 2 ==>
      r.result == Err(Api(ObjectNotFoundError, "Unknown connector: " + id))
  {
    var s := ShowRun(cmd, id, false, script, at);
    Run(s.lines, s.consumed, false, if s.result.Ok? then Ok(s.result.value.value) else Err(s.result.failure))
  }

  method Page(c: Console, cmd: string, id: string) returns (res: Result<map<string, string>>)
    modifies c`sent, c`read
    ensures Advanced(old(c.sent), old(c.read), c, PageRun(cmd, id, c.script, old(c.read)))
    ensures res == PageRun(cmd, id, c.script, old(c.read)).result
  {
    var found := Show(c, cmd, id, false);
    res := if found.Ok? then Ok(found.value.value) else Err(found.failure);
  }

  // ---------------------------------------------------------------------------
  // Connector listings (smppccm -l, httpccm -l)

  /** The dialogue of get_connector_list: `cmd -l`, one wait, and the raw rows of the
      reply; a wait that fails ends it. */
  function ListingRun(cmd: string, script: seq<Reply>, at: nat): (r: Run<seq<seq<string>>>)
    ensures r.lines == [cmd + " -l"] && r.consumed == 1 && !r.synced
    ensures r.result.Ok? <==> ReplyAt(script, at).Match?
    ensures r.result.Ok? ==> r.result.value == RawRows(ReplyAt(script, at).text)
  {
    var reply := ReplyAt(script, at);
    Run([cmd + " -l"], 1, false, if reply.Match? then Ok(RawRows(reply.text)) else Err(WaitFailure(reply)))
  }

  method Listing(c: Console, cmd: string) returns (res: Result<seq<seq<string>>>)
    modifies c`sent, c`read
    ensures Advanced(old(c.sent), old(c.read), c, ListingRun(cmd, c.script, old(c.read)))
    ensures res == ListingRun(cmd, c.script, old(c.read)).result
  {
    var r := Command(c, cmd + " -l");
    if !r.Match? {
      return Err(WaitFailure(r));
    }
    var lines := TableLines(r.text);
    if |lines| < 3 {
      return Ok([]);
    }
    var rows := SplitCols(Body(lines));
    res := Ok(rows);
  }

  /** The id of a listing row: its first field without the '#' (listing rows are never
      empty). */
  function CidOf(row: seq<string>): string
  {
    if row == [] then "" else Rest(row[0])
  }

  /** The first row whose first field is `key`. */
  function FindRow(rows: seq<seq<string>>, key: string): (r: Option<seq<string>>)
    ensures r.Some? ==> r.value in rows && r.value != [] && r.value[0] == key
    ensures r.None? <==> forall i :: 0 <= i < |rows| ==> rows[i] == [] || rows[i][0] != key
  {
    if rows == [] then None
    else if rows[0] != [] && rows[0][0] == key then Some(rows[0])
    else FindRow(rows[1..], key)
  }

  /** No row before position i has `key` as its first field. */
  predicate Unkeyed(rows: seq<seq<string>>, i: nat, key: string)
    requires i <= |rows|
  {
    forall j :: 0 <= j < i ==> rows[j] == [] || rows[j][0] != key
  }

  /** The row FindRow picks comes before every other row with that key. */
  lemma {:induction false} FindRowFirst(rows: seq<seq<string>>, key: string)
    requires FindRow(rows, key).Some?
    ensures exists i :: 0 <= i < |rows| && rows[i] == FindRow(rows, key).value && Unkeyed(rows, i, key)
  {
    if rows[0] != [] && rows[0][0] == key {
      assert rows[0] == FindRow(rows, key).value;
    } else {
      FindRowFirst(rows[1..], key);
      var i :| 0 <= i < |rows[1..]| && rows[1..][i] == FindRow(rows[1..], key).value && Unkeyed(rows[1..], i, key);
      assert rows[i + 1] == FindRow(rows, key).value;
      forall j | 0 <= j < i + 1 ensures rows[j] == [] || rows[j][0] != key {
        if j > 0 {
          assert rows[j] == rows[1..][j - 1];
        }
      }
      assert Unkeyed(rows, i + 1, key);
    }
  }

  // ---------------------------------------------------------------------------
  // Interactive updates (user -u, smppccm -u)

  /** The line that closes the partial update; unlike set_ikeys' "ok" it carries its own "\n". */
  const UpdateCommitLine := "ok\n"

  /** How the reply to one update line is classified: pattern 2 (the interactive prompt
      again) accepts it; any other pattern is a syntax error carrying its capture. */
  function UpdateVerdict(r: Reply): (v: Result<()>)
    ensures v.Ok? <==> r.Match? && r.index == 2
    ensures r.Match? && r.index != 2 ==> v == Err(Api(JasminSyntaxError, ErrorText(r.text)))
  {
    match r
    case Match(i, t) => if i == 2 then Ok(()) else Err(Api(JasminSyntaxError, ErrorText(t)))
    case _ => Err(WaitFailure(r))
  }

  /** How the reply to the closing "ok\n" is classified: pattern 0 is a validation error. */
  function UpdateCommitVerdict(r: Reply): (v: Result<()>)
    ensures v.Ok? <==> r.Match? && r.index != 0
    ensures r.Match? && r.index == 0 ==> v == Err(Api(JasminSyntaxError, Strip(r.text)))
  {
    match r
    case Match(i, t) => if i == 0 then Err(Api(JasminSyntaxError, Strip(t))) else Ok(())
    case _ => Err(WaitFailure(r))
  }

  /** The reply at position i accepts an update line. */
  predicate Taken(script: seq<Reply>, i: nat)
  {
    UpdateVerdict(ReplyAt(script, i)).Ok?
  }

  // ---------------------------------------------------------------------------
  // Steps every write ends with

  /** Send a line without waiting for any reply. */
  function SendRun(line: string): (r: Run<()>)
    ensures r.lines == [line] && r.consumed == 0 && !r.synced && r.result.Ok?
  {
    Run([line], 0, false, Ok(()))
  }

  /** The configuration fan-out: no console line on the primary, the replicas reloaded
      when the deployment has them. */
  function SyncRun(replicated: bool): (r: Run<()>)
    ensures r.lines == [] && r.consumed == 0 && r.synced == replicated && r.result.Ok?
  {
    Run([], 0, replicated, Ok(()))
  }

  /** A dialogue that returns `v` without touching any console. */
  function Done<T>(v: T): (r: Run<T>)
    ensures r.lines == [] && r.consumed == 0 && !r.synced && r.result == Ok(v)
  {
    Run([], 0, false, Ok(v))
  }

  /** "persist\n", await the ready prompt, then the fan-out. */
  function PersistRun(script: seq<Reply>, at: nat, replicated: bool): (r: Run<()>)
    ensures r.lines == [PersistLine] && r.consumed == 1
    ensures r.result.Ok? <==> ReplyAt(script, at).Match?
    ensures r.result.Ok? ==> r.synced == replicated
    ensures r.result.Err? ==> !r.synced
  {
    var p := StepRun(PersistLine, script, at);
    if p.result.Err? then p else Then(p, SyncRun(replicated))
  }

  method Persist(c: Console, replicas: seq<Console>, replicated: bool) returns (res: Result<()>)
    requires c !in replicas
    modifies c`sent, c`read, replicas
    ensures Advanced(old(c.sent), old(c.read), c, PersistRun(c.script, old(c.read), replicated))
    ensures Fanned(replicas, PersistRun(c.script, old(c.read), replicated).synced)
    ensures res == PersistRun(c.script, old(c.read), replicated).result
  {
    res := Step(c, PersistLine);
    if res.Ok? {
      SyncIf(replicated, replicas);
    }
  }
}
