/** The helpers every resource view shares (rest_api/tools.py): the interactive-key
    sub-protocol, the table-row filter, and the configuration fan-out to replicas. */
module Tools {
  import opened Text
  import opened Exceptions
  import opened Session

  /** The line that closes an interactive session and commits its keys. */
  const CommitLine := "ok"

  // ---------------------------------------------------------------------------
  // set_ikeys: "key value" lines inside an interactive session, then "ok"

  /** The console line that sets one key: f"{key} {val}". */
  function KeyLine(pair: (string, string)): string
  {
    pair.0 + " " + pair.1
  }

  function KeyLines(pairs: seq<(string, string)>): (ls: seq<string>)
    ensures |ls| == |pairs|
    ensures forall i :: 0 <= i < |pairs| ==> ls[i] == KeyLine(pairs[i])
  {
    if pairs == [] then [] else [KeyLine(pairs[0])] + KeyLines(pairs[1..])
  }

  lemma KeyLinesPrefix(pairs: seq<(string, string)>, i: nat)
    requires i < |pairs|
    ensures KeyLines(pairs[..i + 1]) == KeyLines(pairs[..i]) + [KeyLine(pairs[i])]
  {
    assert KeyLines(pairs[..i + 1]) == KeyLines(pairs[..i]) + [KeyLine(pairs[i])];
  }

  /** How the reply to one "key value" line is classified, by the index of the first of
      the five patterns that matched: an unknown key, a key that cannot be modified, the
      interactive prompt again (accepted), an unknown SMPP client key, an error that
      dropped back to the ready prompt. */
  function KeyVerdict(r: Reply): (v: Result<()>)
    ensures v.Ok? <==> r.Match? && r.index != 0 && r.index != 1 && r.index != 3 && r.index != 4
  {
    match r
    case Match(i, t) =>
      if i == 0 then Err(Api(UnknownError, Strip(t)))
      else if i == 1 then Err(Api(CanNotModifyError, Strip(t)))
      else if i == 3 || i == 4 then Err(Api(JasminSyntaxError, Collapse(Strip(t))))
      else Ok(())
    case _ => Err(WaitFailure(r))
  }

  /** How the reply to the closing "ok" is classified: pattern 0 is the validation
      error "... syntax is invalid" before the interactive prompt. */
  function CommitVerdict(r: Reply): (v: Result<()>)
    ensures v.Ok? <==> r.Match? && r.index != 0
  {
    match r
    case Match(i, t) => if i == 0 then Err(Api(JasminSyntaxError, Collapse(t))) else Ok(())
    case _ => Err(WaitFailure(r))
  }

  /** The dialogue of set_ikeys(telnet, pairs), the console's replies read from
      `script` starting at position `at`. */
  function IkeysRun(pairs: seq<(string, string)>, script: seq<Reply>, at: nat): Run<()>
    decreases |pairs|
  {
    if pairs == [] then Run([CommitLine], 1, false, CommitVerdict(ReplyAt(script, at)))
    else
      var line := KeyLine(pairs[0]);
      match KeyVerdict(ReplyAt(script, at))
      case Err(f) => Failed([line], 1, f)
      case Ok(_) =>
        var rest := IkeysRun(pairs[1..], script, at + 1);
        Run([line] + rest.lines, 1 + rest.consumed, false, rest.result)
  }

  /** set_ikeys never fans the configuration out. */
  lemma {:induction false} IkeysUnsynced(pairs: seq<(string, string)>, script: seq<Reply>, at: nat)
    ensures !IkeysRun(pairs, script, at).synced
    decreases |pairs|
  {
    if pairs != [] && KeyVerdict(ReplyAt(script, at)).Ok? {
      IkeysUnsynced(pairs[1..], script, at + 1);
    }
  }

  /** The reply at position i of the script accepts a key. */
  predicate Accepted(script: seq<Reply>, i: nat)
  {
    KeyVerdict(ReplyAt(script, i)).Ok?
  }

  /** Every key accepted: one line per pair in the given order, then exactly one "ok",
      and the commit reply decides the outcome. */
  lemma {:induction false} IkeysAllAccepted(pairs: seq<(string, string)>, script: seq<Reply>, at: nat)
    requires forall i :: at <= i < at + |pairs| ==> Accepted(script, i)
    ensures var r := IkeysRun(pairs, script, at);
      r.lines == KeyLines(pairs) + [CommitLine] && r.consumed == |pairs| + 1 && !r.synced &&
      r.result == CommitVerdict(ReplyAt(script, at + |pairs|))
  {
    if pairs != [] {
      assert Accepted(script, at);
      IkeysAllAccepted(pairs[1..], script, at + 1);
    }
  }

  /** The first rejected key ends the dialogue: its line is the last one sent, no later
      pair and no "ok" is sent, and its classification is the outcome. */
  lemma {:induction false} IkeysFirstRejected(pairs: seq<(string, string)>, script: seq<Reply>, at: nat, k: nat)
    requires k < |pairs|
    requires forall i :: at <= i < at + k ==> Accepted(script, i)
    requires !Accepted(script, at + k)
    ensures var r := IkeysRun(pairs, script, at);
      r.lines == KeyLines(pairs[..k + 1]) && r.consumed == k + 1 && !r.synced &&
      r.result == KeyVerdict(ReplyAt(script, at + k))
  {
    if k == 0 {
      assert KeyLines(pairs[..1]) == [KeyLine(pairs[0])];
    } else {
      assert Accepted(script, at);
      IkeysFirstRejected(pairs[1..], script, at + 1, k - 1);
      assert pairs[1..][..k] == pairs[1..k + 1];
      assert pairs[..k + 1][1..] == pairs[1..k + 1];
    }
  }

  /** set_ikeys returns normally exactly when every key was accepted and the commit
      reply was not the "syntax is invalid" error. */
  lemma {:induction false} IkeysSucceedsIff(pairs: seq<(string, string)>, script: seq<Reply>, at: nat)
    ensures IkeysRun(pairs, script, at).result.Ok? <==>
      (forall i :: at <= i < at + |pairs| ==> Accepted(script, i)) &&
      CommitVerdict(ReplyAt(script, at + |pairs|)).Ok?
  {
    if pairs != [] && Accepted(script, at) {
      IkeysSucceedsIff(pairs[1..], script, at + 1);
      assert IkeysRun(pairs, script, at).result == IkeysRun(pairs[1..], script, at + 1).result;
    }
  }

  /** One "key value" line and the classification of its reply. */
  method SendKey(c: Console, pair: (string, string)) returns (res: Result<()>)
    modifies c`sent, c`read
    ensures c.sent == old(c.sent) + [KeyLine(pair)] && c.read == old(c.read) + 1
    ensures res == KeyVerdict(ReplyAt(c.script, old(c.read)))
  {
    c.SendLine(KeyLine(pair));
    var r := c.Expect();
    res := KeyVerdict(r);
  }

  /** The "ok" line and the classification of its reply. */
  method SendCommit(c: Console) returns (res: Result<()>)
    modifies c`sent, c`read
    ensures c.sent == old(c.sent) + [CommitLine] && c.read == old(c.read) + 1
    ensures res == CommitVerdict(ReplyAt(c.script, old(c.read)))
  {
    c.SendLine(CommitLine);
    var r := c.Expect();
    res := CommitVerdict(r);
  }

  method SetIkeys(c: Console, pairs: seq<(string, string)>) returns (res: Result<()>)
    modifies c`sent, c`read
    ensures Advanced(old(c.sent), old(c.read), c, IkeysRun(pairs, c.script, old(c.read)))
    ensures res == IkeysRun(pairs, c.script, old(c.read)).result
  {
    ghost var sent0, at, script := c.sent, c.read, c.script;
    var i := 0;
    while i < |pairs|
      invariant 0 <= i <= |pairs| && c.read == at + i && c.script == script
      invariant c.sent == sent0 + KeyLines(pairs[..i])
      invariant forall j :: at <= j < at + i ==> Accepted(script, j)
    {
      res := SendKey(c, pairs[i]);
      KeyLinesPrefix(pairs, i);
      if res.Err? {
        assert Advanced(sent0, at, c, IkeysRun(pairs, script, at)) && res == IkeysRun(pairs, script, at).result by {
          IkeysFirstRejected(pairs, script, at, i);
        }
        return;
      }
      i := i + 1;
    }
    res := SendCommit(c);
    assert Advanced(sent0, at, c, IkeysRun(pairs, script, at)) && res == IkeysRun(pairs, script, at).result by {
      IkeysAllAccepted(pairs, script, at);
      assert pairs[..|pairs|] == pairs;
    }
  }

  // ---------------------------------------------------------------------------
  // split_cols: keep the table rows whose first field starts with '#'

  /** A whitespace-split line that split_cols keeps. */
  predicate IsDataRow(fields: seq<string>)
  {
    fields != [] && StartsWith(fields[0], "#")
  }

  /** What split_cols(lines) returns, one line at a time. */
  function DataRows(lines: seq<string>): (rows: seq<seq<string>>)
    ensures |rows| <= |lines|
    ensures forall i :: 0 <= i < |rows| ==> IsDataRow(rows[i])
    ensures forall i, j :: 0 <= i < |rows| && 0 <= j < |rows[i]| ==> IsWord(rows[i][j])
  {
    if lines == [] then []
    else
      var fields := Words(lines[|lines| - 1]);
      DataRows(lines[..|lines| - 1]) + (if IsDataRow(fields) then [fields] else [])
  }

  /** The rows of two blocks of lines are the rows of the first followed by those of the
      second: the input order is kept. */
  lemma {:induction false} DataRowsAppend(a: seq<string>, b: seq<string>)
    ensures DataRows(a + b) == DataRows(a) + DataRows(b)
    decreases |b|
  {
    if b == [] {
      assert a + b == a;
    } else {
      var b' := b[..|b| - 1];
      assert (a + b)[..|a + b| - 1] == a + b';
      DataRowsAppend(a, b');
    }
  }

  /** A single line gives its whitespace split when its first field starts with '#',
      and nothing otherwise (a blank line has no first field). */
  lemma DataRowsOfLine(line: string)
    ensures DataRows([line]) == if IsDataRow(Words(line)) then [Words(line)] else []
  {
    assert [line][..0] == [];
  }

  /** The whitespace split of every line, in order. */
  function Splits(lines: seq<string>): (ss: seq<seq<string>>)
    ensures |ss| == |lines| && forall i :: 0 <= i < |lines| ==> ss[i] == Words(lines[i])
  {
    if lines == [] then [] else Splits(lines[..|lines| - 1]) + [Words(lines[|lines| - 1])]
  }

  /** A row is kept exactly when it is the split of some input line and its first field
      starts with '#'. */
  lemma {:induction false} DataRowsMembers(lines: seq<string>, fields: seq<string>)
    ensures fields in DataRows(lines) <==> IsDataRow(fields) && fields in Splits(lines)
  {
    if lines != [] {
      DataRowsMembers(lines[..|lines| - 1], fields);
    }
  }

  method SplitCols(lines: seq<string>) returns (parsed: seq<seq<string>>)
    ensures parsed == DataRows(lines)
  {
    parsed := [];
    for i := 0 to |lines|
      invariant parsed == DataRows(lines[..i])
    {
      var rawSplit := Words(lines[i]);
      assert lines[..i + 1][..i] == lines[..i];
      if IsDataRow(rawSplit) {
        parsed := parsed + [rawSplit];
      }
    }
    assert lines[..|lines|] == lines;
  }

  // ---------------------------------------------------------------------------
  // sync_conf_instances: "load" on every replica, failures swallowed

  /** How many times `c` occurs in `sessions`. */
  function Occurrences(sessions: seq<Console>, c: Console): (n: nat)
    ensures n <= |sessions|
    ensures c !in sessions ==> n == 0
  {
    if sessions == [] then 0
    else Occurrences(sessions[..|sessions| - 1], c) + (if sessions[|sessions| - 1] == c then 1 else 0)
  }

  /** In a list without repetitions every member occurs once. */
  lemma {:induction false} OccurrencesDistinct(sessions: seq<Console>, c: Console)
    requires forall i, j :: 0 <= i < j < |sessions| ==> sessions[i] != sessions[j]
    requires c in sessions
    ensures Occurrences(sessions, c) == 1
  {
    var init := sessions[..|sessions| - 1];
    if sessions[|sessions| - 1] == c {
      assert c !in init;
    } else {
      OccurrencesDistinct(init, c);
    }
  }

  /** n copies of the reload directive. */
  function Loads(n: nat): (ls: seq<string>)
    ensures |ls| == n && forall i :: 0 <= i < n ==> ls[i] == "load\n"
  {
    if n == 0 then [] else Loads(n - 1) + ["load\n"]
  }

  /** Every replica was sent "load" once per occurrence in the list, waited on as often,
      and nothing else about it changed. */
  twostate predicate Synced(replicas: seq<Console>)
    reads replicas
  {
    forall r :: r in replicas ==>
      r.sent == old(r.sent) + Loads(Occurrences(replicas, r)) &&
      r.read == old(r.read) + Occurrences(replicas, r) && r.killed == old(r.killed)
  }

  /** Send "load" to each replica in list order and wait for its prompt; a wait that
      fails is swallowed and the next replica is still tried. */
  method SyncConfInstances(replicas: seq<Console>)
    modifies replicas
    ensures Synced(replicas)
  {
    for i := 0 to |replicas|
      invariant forall r :: r in replicas ==>
        r.sent == old(r.sent) + Loads(Occurrences(replicas[..i], r)) &&
        r.read == old(r.read) + Occurrences(replicas[..i], r) && r.killed == old(r.killed)
    {
      var t := replicas[i];
      assert replicas[..i + 1][..i] == replicas[..i];
      t.SendLine("load\n");
      var _ := t.Expect();
    }
    assert replicas[..|replicas|] == replicas;
  }

  /** The replicas after a dialogue: fanned out to when `synced`, untouched otherwise. */
  twostate predicate Fanned(replicas: seq<Console>, synced: bool)
    reads replicas
  {
    if synced then Synced(replicas)
    else forall r :: r in replicas ==>
      r.sent == old(r.sent) && r.read == old(r.read) && r.killed == old(r.killed)
  }

  /** Fan-out when the deployment has replicas (JASMIN_DOCKER or JASMIN_K8S), a no-op
      otherwise. */
  method SyncIf(replicated: bool, replicas: seq<Console>)
    modifies replicas
    ensures Fanned(replicas, replicated)
  {
    if replicated {
      SyncConfInstances(replicas);
    }
  }
}
