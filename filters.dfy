/** The filters view (rest_api/views/filters.py): the `filter -l` listing, the lookup by
    fid, creation with the per-type parameter key, and removal. */
module Filters {
  import opened Text
  import opened Exceptions
  import opened Session
  import opened Tools
  import opened Dialect

  /** The console lines of the filter commands. */
  const ListLine := "filter -l"
  const AddLine := "filter -a"

  /** The one filter type that takes no parameter, as the lower-cased type name. */
  const Transparent := "transparentfilter"

  const ListingFailed := "Error listing filters"
  const MissingTypeOrFid := "Missing parameter: type or fid is required"

  datatype Filter = Filter(fid: string, ftype: string, routes: string, description: string)

  // ---------------------------------------------------------------------------
  // The listing

  /** The filter a listing row describes; a row of fewer than four columns makes the
      comprehension index past its end. The routes are the third and fourth columns
      with a space between, the description the remaining columns space-joined. */
  function FilterOf(row: seq<string>): (r: Option<Filter>)
    ensures r.Some? <==> |row| >= 4
  {
    if |row| < 4 then None
    else Some(Filter(OrderOf(row[0]), row[1], row[2] + " " + row[3], Join(" ", row[4..])))
  }

  /** The filters of the rows, in order, or the IndexError of the first short row. */
  function FiltersOf(rows: seq<seq<string>>): (r: Result<seq<Filter>>)
    ensures r.Ok? ==> |r.value| == |rows|
    ensures r.Err? ==> r.failure == Crash("IndexError")
  {
    if rows == [] then Ok([])
    else if |rows[0]| < 4 then Err(Crash("IndexError"))
    else
      var rest := FiltersOf(rows[1..]);
      if rest.Err? then rest
      else Ok([FilterOf(rows[0]).value] + rest.value)
  }

  /** The rows parse exactly when every one has the four filter columns, and then the
      i-th filter is the i-th row's. */
  lemma {:induction false} FiltersOfRows(rows: seq<seq<string>>)
    ensures FiltersOf(rows).Ok? <==> forall i :: 0 <= i < |rows| ==> |rows[i]| >= 4
    ensures FiltersOf(rows).Ok? ==>
      forall i :: 0 <= i < |rows| ==> FilterOf(rows[i]) == Some(FiltersOf(rows).value[i])
  {
    if rows != [] {
      FiltersOfRows(rows[1..]);
      if |rows[0]| >= 4 && FiltersOf(rows[1..]).Ok? {
        var fs := FiltersOf(rows).value;
        var rest := FiltersOf(rows[1..]).value;
        assert fs == [FilterOf(rows[0]).value] + rest;
        forall i | 1 <= i < |rows| ensures FilterOf(rows[i]) == Some(fs[i]) {
          assert rows[i] == rows[1..][i - 1] && fs[i] == rest[i - 1];
        }
      } else if |rows[0]| >= 4 {
        var i :| 0 <= i < |rows[1..]| && |rows[1..][i]| < 4;
        assert rows[i + 1] == rows[1..][i];
      }
    }
  }

  /** The listing's cells come back out of a filter: splitting the routes and the
      description at whitespace gives the third and fourth cells and the rest. */
  lemma FilterCells(row: seq<string>)
    requires |row| >= 4
    requires forall i :: 0 <= i < |row| ==> IsWord(row[i])
    ensures Words(FilterOf(row).value.routes) == row[2..4]
    ensures Words(FilterOf(row).value.description) == row[4..]
  {
    assert row[2..4] == [row[2], row[3]];
    WordsOfJoin(row[2..4]);
    assert Join(" ", row[2..4]) == row[2] + " " + row[3];
    WordsOfJoin(row[4..]);
  }

  /** What `_list` makes of the reply to `filter -l`. */
  function Listing(text: string): (r: Result<seq<Filter>>)
    ensures |TableLines(text)| < 5 ==> r == Ok([])
  {
    FiltersOf(CleanRows(text))
  }

  /** _list: `filter -l`, one wait, and the filters of the reply. */
  function ListRun(script: seq<Reply>, at: nat): (r: Run<seq<Filter>>)
    ensures r.lines == [ListLine] && r.consumed == 1 && !r.synced
    ensures r.result.Ok? <==> ReplyAt(script, at).Match? && Listing(ReplyAt(script, at).text).Ok?
    ensures ReplyAt(script, at).Match? ==> r.result == Listing(ReplyAt(script, at).text)
    ensures !ReplyAt(script, at).Match? ==> r.result == Err(WaitFailure(ReplyAt(script, at)))
  {
    var reply := ReplyAt(script, at);
    Run([ListLine], 1, false,
      match reply
      case Match(_, t) => Listing(t)
      case _ => Err(WaitFailure(reply)))
  }

  method List(c: Console) returns (res: Result<seq<Filter>>)
    modifies c`sent, c`read
    ensures Advanced(old(c.sent), old(c.read), c, ListRun(c.script, old(c.read)))
    ensures res == ListRun(c.script, old(c.read)).result
  {
    var r := Command(c, ListLine);
    if !r.Match? {
      return Err(WaitFailure(r));
    }
    var lines := TableLines(r.text);
    if |lines| < 3 {
      return Ok([]);
    }
    var rows := SplitCols(Cleaned(Body(lines)));
    res := FiltersOf(rows);
  }

  /** The `list` handler: any failure becomes UnknownError. */
  method ListView(c: Console) returns (res: Result<seq<Filter>>)
    modifies c`sent, c`read
    ensures Advanced(old(c.sent), old(c.read), c, ListRun(c.script, old(c.read)))
    ensures var r := ListRun(c.script, old(c.read)).result;
      if r.Ok? then res == r else res == Err(Api(UnknownError, ListingFailed))
  {
    res := List(c);
    if res.Err? {
      res := Err(Api(UnknownError, ListingFailed));
    }
  }

  // ---------------------------------------------------------------------------
  // Lookup by fid

  /** The first filter with the given fid. */
  function Find(filters: seq<Filter>, fid: string): (r: Option<Filter>)
    ensures r.Some? ==> r.value in filters && r.value.fid == fid
    ensures r.None? <==> forall i :: 0 <= i < |filters| ==> filters[i].fid != fid
    ensures r.Some? ==> exists i :: 0 <= i < |filters| && filters[i] == r.value &&
                                    forall j :: 0 <= j < i ==> filters[j].fid != fid
  {
    if filters == [] then None
    else if filters[0].fid == fid then Some(filters[0])
    else
      var r := Find(filters[1..], fid);
      if r.Some? then
        ghost var i :| 0 <= i < |filters[1..]| && filters[1..][i] == r.value &&
          forall j :: 0 <= j < i ==> filters[1..][j].fid != fid;
        assert filters[i + 1] == r.value;
        assert forall j :: 1 <= j < i + 1 ==> filters[j] == filters[1..][j - 1];
        r
      else
        assert forall i :: 1 <= i < |filters| ==> filters[i] == filters[1..][i - 1];
        r
  }

  /** get_filter: the listing, then the filter with the fid or ObjectNotFoundError. */
  function GetFilterRun(fid: string, script: seq<Reply>, at: nat): (r: Run<Filter>)
    ensures r.lines == [ListLine] && r.consumed == 1 && !r.synced
    ensures r.result.Ok? ==> r.result.value.fid == fid
    ensures ListRun(script, at).result.Ok? && Find(ListRun(script, at).result.value, fid).None? ==>
      r.result == Err(Api(ObjectNotFoundError, "No Filter with fid: " + fid))
    ensures ListRun(script, at).result.Ok? && Find(ListRun(script, at).result.value, fid).Some? ==>
      r.result == Ok(Find(ListRun(script, at).result.value, fid).value)
    ensures ListRun(script, at).result.Err? ==> r.result == Err(ListRun(script, at).result.failure)
  {
    var l := ListRun(script, at);
    if l.result.Err? then Stop(l)
    else
      match Find(l.result.value, fid)
      case Some(f) => Run(l.lines, l.consumed, false, Ok(f))
      case None => Failed(l.lines, l.consumed, Api(ObjectNotFoundError, "No Filter with fid: " + fid))
  }

  method GetFilter(c: Console, fid: string) returns (res: Result<Filter>)
    modifies c`sent, c`read
    ensures Advanced(old(c.sent), old(c.read), c, GetFilterRun(fid, c.script, old(c.read)))
    ensures res == GetFilterRun(fid, c.script, old(c.read)).result
  {
    var filters := List(c);
    if filters.Err? {
      return Err(filters.failure);
    }
    var found := Find(filters.value, fid);
    if found.None? {
      return Err(Api(ObjectNotFoundError, "No Filter with fid: " + fid));
    }
    res := Ok(found.value);
  }

  /** The `retrieve` handler: a missing filter is reported as UnknownError with the same
      detail; other failures pass through. */
  method Retrieve(c: Console, fid: string) returns (res: Result<Filter>)
    modifies c`sent, c`read
    ensures Advanced(old(c.sent), old(c.read), c, GetFilterRun(fid, c.script, old(c.read)))
    ensures var r := GetFilterRun(fid, c.script, old(c.read)).result;
      if r.Err? && r.failure.Api? && r.failure.kind == ObjectNotFoundError
      then res == Err(Api(UnknownError, r.failure.detail)) else res == r
  {
    res := GetFilter(c, fid);
    if res.Err? && res.failure.Api? && res.failure.kind == ObjectNotFoundError {
      res := Err(Api(UnknownError, res.failure.detail));
    }
  }

  // ---------------------------------------------------------------------------
  // Create

  /** The interactive key that carries the parameter of each parametrised filter type. */
  const ParamKeys: map<string, string> := map[
    "connectorfilter" := "cid",
    "userfilter" := "uid",
    "groupfilter" := "gid",
    "sourceaddrfilter" := "source_addr",
    "destinationaddrfilter" := "destination_addr",
    "shortmessagefilter" := "short_message",
    "dateintervalfilter" := "dateInterval",
    "timeintervalfilter" := "timeInterval",
    "tagfilter" := "tag",
    "evalpyfilter" := "pyCode"
  ]

  /** The interactive keys of a new filter, in order, or why `create` gives up once
      `filter -a` is sent: type and fid, then for every type but the transparent filter
      its parameter under the type's key. A missing parameter is reported before an
      unknown type. */
  function Keys(data: map<string, string>, ftype: string, fid: string): (r: Result<seq<(string, string)>>)
    ensures ftype == Transparent ==> r == Ok([("type", ftype), ("fid", fid)])
    ensures ftype != Transparent && "parameter" !in data ==>
      r == Err(Api(MissingKeyError, ftype + " filter requires parameter"))
    ensures ftype != Transparent && "parameter" in data && ftype !in ParamKeys ==>
      r == Err(Api(JasminError, "Unsupported filter type: " + ftype))
    ensures ftype != Transparent && "parameter" in data && ftype in ParamKeys ==>
      r == Ok([("type", ftype), ("fid", fid), (ParamKeys[ftype], data["parameter"])])
  {
    if ftype == Transparent then Ok([("type", ftype), ("fid", fid)])
    else if "parameter" !in data then Err(Api(MissingKeyError, ftype + " filter requires parameter"))
    else if ftype in ParamKeys then Ok([("type", ftype), ("fid", fid), (ParamKeys[ftype], data["parameter"])])
    else Err(Api(JasminError, "Unsupported filter type: " + ftype))
  }

  /** The keys are distinct, so the ordered dictionary `create` fills holds exactly these
      entries in this order: no parameter key is "type" or "fid". */
  lemma KeysDistinct(data: map<string, string>, ftype: string, fid: string)
    requires Keys(data, ftype, fid).Ok?
    ensures var ns := Names(Keys(data, ftype, fid).value);
      forall i, j :: 0 <= i < j < |ns| ==> ns[i] != ns[j]
  {
    if ftype != Transparent {
      var k := ParamKeys[ftype];
      assert k in ParamKeys.Values;
      assert k != "type" && k != "fid";
    }
  }

  /** persist, the fan-out, then the lookup of the filter. */
  function PersistedFilterRun(fid: string, replicated: bool, script: seq<Reply>, at: nat)
    : (r: Run<Filter>)
    ensures r.lines != [] && r.lines[0] == PersistLine
    ensures ReplyAt(script, at).Match? ==> r.lines == [PersistLine, ListLine]
    ensures r.result.Ok? ==> r.lines == [PersistLine, ListLine] && r.synced == replicated &&
                             r.result.value.fid == fid
  {
    AndThen(PersistRun(script, at, replicated), GetFilterRun(fid, script, at + 1))
  }

  method PersistedFilter(c: Console, replicas: seq<Console>, fid: string, replicated: bool)
    returns (res: Result<Filter>)
    requires c !in replicas
    modifies c`sent, c`read, replicas
    ensures Advanced(old(c.sent), old(c.read), c, PersistedFilterRun(fid, replicated, c.script, old(c.read)))
    ensures Fanned(replicas, PersistedFilterRun(fid, replicated, c.script, old(c.read)).synced)
    ensures res == PersistedFilterRun(fid, replicated, c.script, old(c.read)).result
  {
    var persisted := Persist(c, replicas, replicated);
    if persisted.Err? {
      return Err(persisted.failure);
    }
    res := GetFilter(c, fid);
  }

  /** The interactive keys, then persist, the fan-out and the lookup of the new filter. */
  function KeyedRun(keys: seq<(string, string)>, fid: string, replicated: bool,
                    script: seq<Reply>, at: nat): (r: Run<Filter>)
  {
    var s := IkeysRun(keys, script, at);
    AndThen(s, PersistedFilterRun(fid, replicated, script, at + s.consumed))
  }

  method Keyed(c: Console, replicas: seq<Console>, keys: seq<(string, string)>, fid: string,
               replicated: bool) returns (res: Result<Filter>)
    requires c !in replicas
    modifies c`sent, c`read, replicas
    ensures Advanced(old(c.sent), old(c.read), c, KeyedRun(keys, fid, replicated, c.script, old(c.read)))
    ensures Fanned(replicas, KeyedRun(keys, fid, replicated, c.script, old(c.read)).synced)
    ensures res == KeyedRun(keys, fid, replicated, c.script, old(c.read)).result
  {
    var keyed := SetIkeys(c, keys);
    if keyed.Err? {
      return Err(keyed.failure);
    }
    res := PersistedFilter(c, replicas, fid, replicated);
  }

  /** What `create` does once type and fid are present: `filter -a`, then the parameter
      checks (whose outcome is `keys`) and the dialogue of `KeyedRun`. */
  function OpenedRun(keys: Result<seq<(string, string)>>, fid: string, replicated: bool,
                     script: seq<Reply>, at: nat): (r: Run<Filter>)
  {
    AndThen(StepRun(AddLine, script, at),
      match keys
      case Err(f) => Failed([], 0, f)
      case Ok(ks) => KeyedRun(ks, fid, replicated, script, at + 1))
  }

  method Opened(c: Console, replicas: seq<Console>, keys: Result<seq<(string, string)>>,
                fid: string, replicated: bool) returns (res: Result<Filter>)
    requires c !in replicas
    modifies c`sent, c`read, replicas
    ensures Advanced(old(c.sent), old(c.read), c, OpenedRun(keys, fid, replicated, c.script, old(c.read)))
    ensures Fanned(replicas, OpenedRun(keys, fid, replicated, c.script, old(c.read)).synced)
    ensures res == OpenedRun(keys, fid, replicated, c.script, old(c.read)).result
  {
    ghost var sent0, read0 := c.sent, c.read;
    var began := Step(c, AddLine);
    if began.Err? {
      return Err(began.failure);
    }
    if keys.Err? {
      return Err(keys.failure);
    }
    res := Keyed(c, replicas, keys.value, fid, replicated);
    Chain(c, sent0, read0, StepRun(AddLine, c.script, read0),
          KeyedRun(keys.value, fid, replicated, c.script, read0 + 1));
  }

  /** What `create` does: type and fid are read first (no console line), then the
      dialogue of `OpenedRun` with the lower-cased type. */
  function CreateRun(data: map<string, string>, replicated: bool, script: seq<Reply>, at: nat)
    : (r: Run<Filter>)
  {
    if "type" !in data || "fid" !in data then Failed([], 0, Api(MissingKeyError, MissingTypeOrFid))
    else OpenedRun(Keys(data, Lower(data["type"]), data["fid"]), data["fid"], replicated, script, at)
  }

  /** A missing type or fid is reported before anything is sent. */
  lemma CreateMissing(data: map<string, string>, replicated: bool, script: seq<Reply>, at: nat)
    requires "type" !in data || "fid" !in data
    ensures CreateRun(data, replicated, script, at).lines == []
    ensures CreateRun(data, replicated, script, at).result == Err(Api(MissingKeyError, MissingTypeOrFid))
  {
  }

  /** The parameter checks run after `filter -a` and before any key line. */
  lemma CreateChecksAfterOpen(data: map<string, string>, replicated: bool, script: seq<Reply>, at: nat)
    requires "type" in data && "fid" in data
    requires ReplyAt(script, at).Match?
    requires Keys(data, Lower(data["type"]), data["fid"]).Err?
    ensures CreateRun(data, replicated, script, at).lines == [AddLine]
    ensures CreateRun(data, replicated, script, at).result ==
      Err(Keys(data, Lower(data["type"]), data["fid"]).failure)
  {
  }

  /** A filter the dialogue answers with has the requested fid, and the configuration
      was fanned out when asked to be. */
  lemma {:induction false} OpenedAnswers(keys: Result<seq<(string, string)>>, fid: string,
                                         replicated: bool, script: seq<Reply>, at: nat)
    requires OpenedRun(keys, fid, replicated, script, at).result.Ok?
    ensures OpenedRun(keys, fid, replicated, script, at).synced == replicated
    ensures OpenedRun(keys, fid, replicated, script, at).result.value.fid == fid
  {
    var o := StepRun(AddLine, script, at);
    assert o.result.Ok? && keys.Ok?;
    var ks := keys.value;
    var k := KeyedRun(ks, fid, replicated, script, at + 1);
    assert OpenedRun(keys, fid, replicated, script, at).result == k.result;
    assert OpenedRun(keys, fid, replicated, script, at).synced == k.synced;
    KeyedAnswers(ks, fid, replicated, script, at + 1);
  }

  /** The same for the dialogue after `filter -a`. */
  lemma {:induction false} KeyedAnswers(keys: seq<(string, string)>, fid: string, replicated: bool,
                                        script: seq<Reply>, at: nat)
    requires KeyedRun(keys, fid, replicated, script, at).result.Ok?
    ensures KeyedRun(keys, fid, replicated, script, at).synced == replicated
    ensures KeyedRun(keys, fid, replicated, script, at).result.value.fid == fid
  {
    IkeysUnsynced(keys, script, at);
  }

  /** With every key accepted the dialogue after `filter -a` is one line per key in
      order, `ok`, `persist`, and the listing. */
  lemma {:induction false} KeyedAllAccepted(keys: seq<(string, string)>, fid: string, replicated: bool,
                                            script: seq<Reply>, at: nat)
    requires forall i :: at <= i < at + |keys| ==> Accepted(script, i)
    requires CommitVerdict(ReplyAt(script, at + |keys|)).Ok?
    requires ReplyAt(script, at + 1 + |keys|).Match?
    ensures KeyedRun(keys, fid, replicated, script, at).lines ==
      KeyLines(keys) + [CommitLine, PersistLine, ListLine]
  {
    IkeysAllAccepted(keys, script, at);
    var s := IkeysRun(keys, script, at);
    assert s.lines + [PersistLine, ListLine] == KeyLines(keys) + [CommitLine, PersistLine, ListLine];
  }

  /** With every key accepted the dialogue is `filter -a`, one line per key in order,
      `ok`, `persist`, and the listing that finds the new filter. */
  lemma {:induction false} CreateAllAccepted(keys: seq<(string, string)>, fid: string, replicated: bool,
                                             script: seq<Reply>, at: nat)
    requires ReplyAt(script, at).Match?
    requires forall i :: at + 1 <= i < at + 1 + |keys| ==> Accepted(script, i)
    requires CommitVerdict(ReplyAt(script, at + 1 + |keys|)).Ok?
    requires ReplyAt(script, at + 2 + |keys|).Match?
    ensures OpenedRun(Ok(keys), fid, replicated, script, at).lines ==
      [AddLine] + KeyLines(keys) + [CommitLine, PersistLine, ListLine]
  {
    KeyedAllAccepted(keys, fid, replicated, script, at + 1);
    var tail := [CommitLine, PersistLine, ListLine];
    assert [AddLine] + (KeyLines(keys) + tail) == [AddLine] + KeyLines(keys) + tail;
  }

  method Create(c: Console, replicas: seq<Console>, data: map<string, string>, replicated: bool)
    returns (res: Result<Filter>)
    requires c !in replicas
    modifies c`sent, c`read, replicas
    ensures Advanced(old(c.sent), old(c.read), c, CreateRun(data, replicated, c.script, old(c.read)))
    ensures Fanned(replicas, CreateRun(data, replicated, c.script, old(c.read)).synced)
    ensures res == CreateRun(data, replicated, c.script, old(c.read)).result
  {
    if "type" !in data || "fid" !in data {
      return Err(Api(MissingKeyError, MissingTypeOrFid));
    }
    var keys := Keys(data, Lower(data["type"]), data["fid"]);
    res := Opened(c, replicas, keys, data["fid"], replicated);
  }

  // ---------------------------------------------------------------------------
  // One-shot actions

  /** What an action answers with: the filter after the action, or just its fid. */
  datatype Answer = Shown(filter: Filter) | Named(fid: string)

  /** After a successful action: persist, the fan-out, then the filter or just its fid. */
  function SucceededRun(fid: string, returnFilter: bool, replicated: bool, script: seq<Reply>, at: nat)
    : (r: Run<Answer>)
    ensures r.lines != [] && r.lines[0] == PersistLine
    ensures r.result.Ok? ==> r.synced == replicated
    ensures r.result.Ok? ==> if returnFilter then r.result.value.Shown? && r.result.value.filter.fid == fid
                             else r.result.value == Named(fid) && r.lines == [PersistLine]
  {
    if returnFilter then
      var g := PersistedFilterRun(fid, replicated, script, at);
      Run(g.lines, g.consumed, g.synced, if g.result.Ok? then Ok(Shown(g.result.value)) else Err(g.result.failure))
    else AndThen(PersistRun(script, at, replicated), Done(Named(fid)))
  }

  method Succeeded(c: Console, replicas: seq<Console>, fid: string, returnFilter: bool, replicated: bool)
    returns (res: Result<Answer>)
    requires c !in replicas
    modifies c`sent, c`read, replicas
    ensures Advanced(old(c.sent), old(c.read), c, SucceededRun(fid, returnFilter, replicated, c.script, old(c.read)))
    ensures Fanned(replicas, SucceededRun(fid, returnFilter, replicated, c.script, old(c.read)).synced)
    ensures res == SucceededRun(fid, returnFilter, replicated, c.script, old(c.read)).result
  {
    if returnFilter {
      var g := PersistedFilter(c, replicas, fid, replicated);
      res := if g.Ok? then Ok(Shown(g.value)) else Err(g.failure);
    } else {
      var persisted := Persist(c, replicas, replicated);
      res := if persisted.Ok? then Ok(Named(fid)) else Err(persisted.failure);
    }
  }

  /** simple_filter_action: `filter -<action> <fid>`, then pattern 0 (success) persists,
      fans out and answers; 1 is an unknown filter; anything else is a Jasmin error
      carrying the capture exactly as matched. */
  function ActionRun(action: string, fid: string, returnFilter: bool, replicated: bool,
                     script: seq<Reply>, at: nat): (r: Run<Answer>)
    ensures r.lines != [] && r.lines[0] == "filter -" + action + " " + fid
    ensures var reply := ReplyAt(script, at); reply.Match? && reply.index == 1 ==>
      r.lines == ["filter -" + action + " " + fid] &&
      r.result == Err(Api(UnknownError, "No filter: " + fid))
    ensures var reply := ReplyAt(script, at); reply.Match? && reply.index >= 2 ==>
      r.lines == ["filter -" + action + " " + fid] &&
      r.result == Err(Api(JasminError, reply.text))
    ensures var reply := ReplyAt(script, at); reply.Match? && reply.index == 0 ==>
      |r.lines| >= 2 && r.lines[1] == PersistLine
    ensures r.result.Ok? ==> ReplyAt(script, at).Match? && ReplyAt(script, at).index == 0
    ensures r.result.Ok? && !returnFilter ==> r.result.value == Named(fid)
  {
    var reply := ReplyAt(script, at);
    AndThen(CommandRun("filter -" + action + " " + fid, script, at),
      match reply
      case Match(i, t) =>
        if i == 0 then SucceededRun(fid, returnFilter, replicated, script, at + 1)
        else if i == 1 then Failed([], 0, Api(UnknownError, "No filter: " + fid))
        else Failed([], 0, Api(JasminError, t))
      case _ => Failed([], 0, WaitFailure(reply)))
  }

  method Action(c: Console, replicas: seq<Console>, action: string, fid: string,
                returnFilter: bool, replicated: bool) returns (res: Result<Answer>)
    requires c !in replicas
    modifies c`sent, c`read, replicas
    ensures Advanced(old(c.sent), old(c.read), c, ActionRun(action, fid, returnFilter, replicated, c.script, old(c.read)))
    ensures Fanned(replicas, ActionRun(action, fid, returnFilter, replicated, c.script, old(c.read)).synced)
    ensures res == ActionRun(action, fid, returnFilter, replicated, c.script, old(c.read)).result
  {
    var r := Command(c, "filter -" + action + " " + fid);
    if r.Match? && r.index == 0 {
      res := Succeeded(c, replicas, fid, returnFilter, replicated);
    } else if r.Match? && r.index == 1 {
      res := Err(Api(UnknownError, "No filter: " + fid));
    } else if r.Match? {
      res := Err(Api(JasminError, r.text));
    } else {
      res := Err(WaitFailure(r));
    }
  }

  /** The `destroy` handler reads `request.telnet_list` before anything is sent; a request
      that has none (a single-host deployment) fails there with AttributeError. */
  method Destroy(c: Console, replicaList: Option<seq<Console>>, fid: string, replicated: bool)
    returns (res: Result<Answer>)
    requires replicaList.Some? ==> c !in replicaList.value
    modifies c`sent, c`read, if replicaList.Some? then replicaList.value else []
    ensures replicaList.None? ==>
      res == Err(Crash("AttributeError")) && c.sent == old(c.sent) && c.read == old(c.read)
    ensures replicaList.Some? ==>
      Advanced(old(c.sent), old(c.read), c, ActionRun("r", fid, false, replicated, c.script, old(c.read))) &&
      Fanned(replicaList.value, ActionRun("r", fid, false, replicated, c.script, old(c.read)).synced) &&
      res == ActionRun("r", fid, false, replicated, c.script, old(c.read)).result
  {
    if replicaList.None? {
      return Err(Crash("AttributeError"));
    }
    res := Action(c, replicaList.value, "r", fid, false, replicated);
  }
}
