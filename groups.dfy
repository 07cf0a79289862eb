/** The user-group view (rest_api/views/groups.py): the `group -l` listing, creation with
    the single `gid` key, and the remove, enable and disable actions. */
module Groups {
  import opened Text
  import opened Exceptions
  import opened Session
  import opened Tools
  import opened Dialect

  const ListLine := "group -l"
  const AddLine := "group -a"

  /** The line `create` persists with: unlike every other write it has no trailing "\n". */
  const BarePersistLine := "persist"

  const MissingGid := "Missing gid (group identifier)"

  /** The characters a listing line's name is stripped of at its front. */
  const Markers: set<char> := {'!', '#'}

  datatype Group = Group(name: string, enabled: bool)

  // ---------------------------------------------------------------------------
  // The listing

  /** The group one body line describes: the stripped line without its leading '!' and
      '#' markers, disabled exactly when the line's second character is '!'. A line of
      fewer than two characters (a blank line among them) makes that test index past
      its end. */
  function GroupOf(line: string): (g: Option<Group>)
    ensures g.Some? <==> |line| >= 2
    ensures g.Some? ==> (g.value.enabled <==> line[1] != '!')
  {
    if |line| < 2 then None
    else Some(Group(LStripChars(Strip(line), Markers), line[1] != '!'))
  }

  /** A group's name is what remains of the stripped line once its marker run is gone:
      nothing but '!' and '#' was dropped, and the name does not start with either. */
  lemma GroupName(line: string)
    requires |line| >= 2
    ensures var s := Strip(line); var n := GroupOf(line).value.name;
      |n| <= |s| && s == s[..|s| - |n|] + n &&
      (forall i :: 0 <= i < |s| - |n| ==> s[i] in Markers) &&
      (n == [] || n[0] !in Markers)
  {
    LStripCharsShape(Strip(line), Markers);
  }

  /** The groups of the body lines, in order, or the IndexError of the first short line. */
  function GroupsOf(lines: seq<string>): (r: Result<seq<Group>>)
    ensures r.Ok? ==> |r.value| == |lines|
    ensures r.Err? ==> r.failure == Crash("IndexError")
  {
    if lines == [] then Ok([])
    else if |lines[0]| < 2 then Err(Crash("IndexError"))
    else
      var rest := GroupsOf(lines[1..]);
      if rest.Err? then rest
      else Ok([GroupOf(lines[0]).value] + rest.value)
  }

  /** The lines parse exactly when every one has two characters, and then the i-th group
      is the i-th line's. */
  lemma {:induction false} GroupsOfLines(lines: seq<string>)
    ensures GroupsOf(lines).Ok? <==> forall i :: 0 <= i < |lines| ==> |lines[i]| >= 2
    ensures GroupsOf(lines).Ok? ==>
      forall i :: 0 <= i < |lines| ==> GroupOf(lines[i]) == Some(GroupsOf(lines).value[i])
  {
    if lines != [] {
      GroupsOfLines(lines[1..]);
      if |lines[0]| >= 2 && GroupsOf(lines[1..]).Ok? {
        var gs := GroupsOf(lines).value;
        var rest := GroupsOf(lines[1..]).value;
        assert gs == [GroupOf(lines[0]).value] + rest;
        forall i | 1 <= i < |lines| ensures GroupOf(lines[i]) == Some(gs[i]) {
          assert lines[i] == lines[1..][i - 1] && gs[i] == rest[i - 1];
        }
      } else if |lines[0]| >= 2 {
        var i :| 0 <= i < |lines[1..]| && |lines[1..][i]| < 2;
        assert lines[i + 1] == lines[1..][i];
      }
    }
  }

  /** What `list` makes of the reply to `group -l`: the body lines as they are, neither
      cleaned nor split into columns, and no groups when the reply has fewer than three
      lines. */
  function Listing(text: string): (r: Result<seq<Group>>)
    ensures |TableLines(text)| < 5 ==> r == Ok([])
  {
    var lines := TableLines(text);
    if |lines| < 3 then Ok([]) else GroupsOf(Body(lines))
  }

  function ListRun(script: seq<Reply>, at: nat): (r: Run<seq<Group>>)
    ensures r.lines == [ListLine] && r.consumed == 1 && !r.synced
    ensures r.result.Ok? <==> ReplyAt(script, at).Match? && Listing(ReplyAt(script, at).text).Ok?
    ensures ReplyAt(script, at).Match? ==> r.result == Listing(ReplyAt(script, at).text)
    ensures !ReplyAt(script, at).Match? ==> r.result == Err(WaitFailure(ReplyAt(script, at)))
  {
    var reply := ReplyAt(script, at);
    Run([ListLine], 1, false,
      match reply
      case Match(_, t) => Listing(t)
      case _ => Err(WaitFailure(reply)))
  }

  /** The `list` handler. */
  method List(c: Console) returns (res: Result<seq<Group>>)
    modifies c`sent, c`read
    ensures Advanced(old(c.sent), old(c.read), c, ListRun(c.script, old(c.read)))
    ensures res == ListRun(c.script, old(c.read)).result
  {
    var r := Command(c, ListLine);
    if !r.Match? {
      return Err(WaitFailure(r));
    }
    var lines := TableLines(r.text);
    if |lines| < 3 {
      return Ok([]);
    }
    res := GroupsOf(Body(lines));
  }

  // ---------------------------------------------------------------------------
  // Create

  /** The bare `persist` with its wait, the fan-out, and the gid as the new group's name. */
  function PersistedRun(gid: string, replicated: bool, script: seq<Reply>, at: nat): (r: Run<string>)
    ensures r.lines == [BarePersistLine] && r.consumed == 1
    ensures r.result.Ok? <==> ReplyAt(script, at).Match?
    ensures r.result.Ok? ==> r.result.value == gid && r.synced == replicated
  {
    AndThen(StepRun(BarePersistLine, script, at), AndThen(SyncRun(replicated), Done(gid)))
  }

  method Persisted(c: Console, replicas: seq<Console>, gid: string, replicated: bool)
    returns (res: Result<string>)
    requires c !in replicas
    modifies c`sent, c`read, replicas
    ensures Advanced(old(c.sent), old(c.read), c, PersistedRun(gid, replicated, c.script, old(c.read)))
    ensures Fanned(replicas, PersistedRun(gid, replicated, c.script, old(c.read)).synced)
    ensures res == PersistedRun(gid, replicated, c.script, old(c.read)).result
  {
    var persisted := Step(c, BarePersistLine);
    if persisted.Err? {
      return Err(persisted.failure);
    }
    SyncIf(replicated, replicas);
    res := Ok(gid);
  }

  /** After `group -a` and its prompt: the gid check, the one interactive key, then the
      dialogue of `PersistedRun`. */
  function OpenedRun(data: map<string, string>, replicated: bool, script: seq<Reply>, at: nat)
    : (r: Run<string>)
    ensures "gid" !in data ==> r.lines == [] && r.result == Err(Api(MissingKeyError, MissingGid))
    ensures r.result.Ok? ==> "gid" in data && r.result.value == data["gid"]
  {
    if "gid" !in data then Failed([], 0, Api(MissingKeyError, MissingGid))
    else
      var s := IkeysRun([("gid", data["gid"])], script, at);
      AndThen(s, PersistedRun(data["gid"], replicated, script, at + s.consumed))
  }

  method Opened(c: Console, replicas: seq<Console>, data: map<string, string>, replicated: bool)
    returns (res: Result<string>)
    requires c !in replicas
    modifies c`sent, c`read, replicas
    ensures Advanced(old(c.sent), old(c.read), c, OpenedRun(data, replicated, c.script, old(c.read)))
    ensures Fanned(replicas, OpenedRun(data, replicated, c.script, old(c.read)).synced)
    ensures res == OpenedRun(data, replicated, c.script, old(c.read)).result
  {
    if "gid" !in data {
      return Err(Api(MissingKeyError, MissingGid));
    }
    var keyed := SetIkeys(c, [("gid", data["gid"])]);
    if keyed.Err? {
      return Err(keyed.failure);
    }
    res := Persisted(c, replicas, data["gid"], replicated);
  }

  /** The `create` handler: `group -a`, one wait, then the dialogue of `OpenedRun`. */
  function CreateRun(data: map<string, string>, replicated: bool, script: seq<Reply>, at: nat)
    : (r: Run<string>)
  {
    AndThen(StepRun(AddLine, script, at), OpenedRun(data, replicated, script, at + 1))
  }

  /** `group -a` goes out before the gid is checked, so a missing gid costs one line. */
  lemma CreateMissing(data: map<string, string>, replicated: bool, script: seq<Reply>, at: nat)
    requires "gid" !in data && ReplyAt(script, at).Match?
    ensures CreateRun(data, replicated, script, at).lines == [AddLine]
    ensures CreateRun(data, replicated, script, at).result == Err(Api(MissingKeyError, MissingGid))
  {
  }

  /** A created group is named by its gid, and the configuration was fanned out when
      asked to be, after exactly `group -a`, the gid line, `ok` and the bare `persist`. */
  lemma {:induction false} CreateAnswers(data: map<string, string>, replicated: bool, script: seq<Reply>, at: nat)
    requires CreateRun(data, replicated, script, at).result.Ok?
    ensures "gid" in data
    ensures CreateRun(data, replicated, script, at).result.value == data["gid"]
    ensures CreateRun(data, replicated, script, at).synced == replicated
    ensures CreateRun(data, replicated, script, at).lines ==
      [AddLine, "gid " + data["gid"], CommitLine, BarePersistLine]
  {
    var keys := [("gid", data["gid"])];
    var s := IkeysRun(keys, script, at + 1);
    assert s.result.Ok?;
    IkeysUnsynced(keys, script, at + 1);
    IkeysSucceedsIff(keys, script, at + 1);
    IkeysAllAccepted(keys, script, at + 1);
    assert KeyLines(keys) == [KeyLine(keys[0])];
    assert KeyLine(keys[0]) == "gid " + data["gid"];
  }

  method Create(c: Console, replicas: seq<Console>, data: map<string, string>, replicated: bool)
    returns (res: Result<string>)
    requires c !in replicas
    modifies c`sent, c`read, replicas
    ensures Advanced(old(c.sent), old(c.read), c, CreateRun(data, replicated, c.script, old(c.read)))
    ensures Fanned(replicas, CreateRun(data, replicated, c.script, old(c.read)).synced)
    ensures res == CreateRun(data, replicated, c.script, old(c.read)).result
  {
    ghost var sent0, read0 := c.sent, c.read;
    var began := Step(c, AddLine);
    if began.Err? {
      return Err(began.failure);
    }
    res := Opened(c, replicas, data, replicated);
    Chain(c, sent0, read0, StepRun(AddLine, c.script, read0), OpenedRun(data, replicated, c.script, read0 + 1));
  }

  // ---------------------------------------------------------------------------
  // Actions

  /** The three actions the view exposes. */
  datatype Op = Remove | Enable | Disable

  /** The `group` command flag of each action. */
  function Flag(op: Op): (f: string)
    ensures |f| == 1
    ensures f == "r" <==> op == Remove
    ensures f == "e" <==> op == Enable
    ensures f == "d" <==> op == Disable
  {
    match op
    case Remove => "r"
    case Enable => "e"
    case Disable => "d"
  }

  /** Distinct actions send distinct flags: destroy, enable and disable cannot be
      confused on the console. */
  lemma FlagInjective(a: Op, b: Op)
    ensures Flag(a) == Flag(b) <==> a == b
  {
  }

  /** simple_group_action: `group -<flag> <gid>`, then pattern 0 (success) sends
      "persist\n" without waiting for its prompt, fans out and answers with the gid;
      1 is an unknown group; anything else fails with the capture as matched. */
  function ActionRun(op: Op, gid: string, replicated: bool, script: seq<Reply>, at: nat)
    : (r: Run<string>)
    ensures var reply := ReplyAt(script, at); reply.Match? && reply.index == 0 ==>
      r.lines == ["group -" + Flag(op) + " " + gid, PersistLine] && r.consumed == 1 &&
      r.synced == replicated && r.result == Ok(gid)
    ensures var reply := ReplyAt(script, at); reply.Match? && reply.index == 1 ==>
      r.lines == ["group -" + Flag(op) + " " + gid] && !r.synced &&
      r.result == Err(Api(ObjectNotFoundError, "Unknown group: " + gid))
    ensures var reply := ReplyAt(script, at); reply.Match? && reply.index >= 2 ==>
      r.lines == ["group -" + Flag(op) + " " + gid] && !r.synced &&
      r.result == Err(Api(ActionFailed, reply.text))
    ensures !ReplyAt(script, at).Match? ==> r.result == Err(WaitFailure(ReplyAt(script, at)))
  {
    var reply := ReplyAt(script, at);
    AndThen(CommandRun("group -" + Flag(op) + " " + gid, script, at),
      match reply
      case Match(i, t) =>
        if i == 0 then AndThen(SendRun(PersistLine), AndThen(SyncRun(replicated), Done(gid)))
        else if i == 1 then Failed([], 0, Api(ObjectNotFoundError, "Unknown group: " + gid))
        else Failed([], 0, Api(ActionFailed, t))
      case _ => Failed([], 0, WaitFailure(reply)))
  }

  /** The destroy, enable and disable handlers: each reads `request.telnet_list` before
      anything is sent, which fails with AttributeError on a request that has none. */
  method Act(c: Console, replicaList: Option<seq<Console>>, op: Op, gid: string, replicated: bool)
    returns (res: Result<string>)
    requires replicaList.Some? ==> c !in replicaList.value
    modifies c`sent, c`read, if replicaList.Some? then replicaList.value else []
    ensures replicaList.None? ==>
      res == Err(Crash("AttributeError")) && c.sent == old(c.sent) && c.read == old(c.read)
    ensures replicaList.Some? ==>
      Advanced(old(c.sent), old(c.read), c, ActionRun(op, gid, replicated, c.script, old(c.read))) &&
      Fanned(replicaList.value, ActionRun(op, gid, replicated, c.script, old(c.read)).synced) &&
      res == ActionRun(op, gid, replicated, c.script, old(c.read)).result
  {
    if replicaList.None? {
      return Err(Crash("AttributeError"));
    }
    var replicas := replicaList.value;
    var r := Command(c, "group -" + Flag(op) + " " + gid);
    if r.Match? && r.index == 0 {
      c.SendLine(PersistLine);
      SyncIf(replicated, replicas);
      res := Ok(gid);
    } else if r.Match? && r.index == 1 {
      res := Err(Api(ObjectNotFoundError, "Unknown group: " + gid));
    } else if r.Match? {
      res := Err(Api(ActionFailed, r.text));
    } else {
      res := Err(WaitFailure(r));
    }
  }
}
