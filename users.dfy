/** The Jasmin user view (rest_api/views/users.py): the `user -s` detail parser, the
    listing that looks every user up, creation, the partial update, and the one-shot
    actions. */
module Users {
  import opened Text
  import opened Exceptions
  import opened Session
  import opened Tools
  import opened Dialect

  const ListLine := "user -l"
  const AddLine := "user -a"
  const NotAListOfLists := "Updates should be a non-empty list of lists."

  // ---------------------------------------------------------------------------
  // The user record of `user -s`

  /** A value of the user record: a plain setting, or a section of subsections of
      settings (`mt_messaging_cred authorization smpps_send False`). */
  datatype Value = Flat(text: string) | Nested(sections: map<string, map<string, string>>)

  type Record = map<string, Value>

  /** One detail line, as its whitespace tokens, applied to the record built so far. A
      two-token line sets a plain value; a four-token line sets a nested one, and fails
      with TypeError when its first token already holds a plain value (the code then
      indexes into a string); any other line is ignored. */
  function ApplyLine(u: Record, parts: seq<string>): (r: Result<Record>)
    ensures r.Err? <==> |parts| == 4 && parts[0] in u && u[parts[0]].Flat?
    ensures r.Err? ==> r.failure == Crash("TypeError")
  {
    if |parts| == 2 then Ok(u[parts[0] := Flat(parts[1])])
    else if |parts| == 4 then
      if parts[0] in u && u[parts[0]].Flat? then Err(Crash("TypeError"))
      else
        var m := if parts[0] in u then u[parts[0]].sections else map[];
        var inner := if parts[1] in m then m[parts[1]] else map[];
        Ok(u[parts[0] := Nested(m[parts[1] := inner[parts[2] := parts[3]]])])
    else Ok(u)
  }

  /** The record the loop over the detail lines builds, line by line. */
  function RecordOf(lines: seq<string>): Result<Record>
  {
    if lines == [] then Ok(map[])
    else
      var r := RecordOf(lines[..|lines| - 1]);
      if r.Err? then r else ApplyLine(r.value, Words(lines[|lines| - 1]))
  }

  /** A failure on a prefix of the lines is the failure of all of them. */
  lemma {:induction false} RecordOfPrefixErr(lines: seq<string>, k: nat)
    requires k <= |lines| && RecordOf(lines[..k]).Err?
    ensures RecordOf(lines) == RecordOf(lines[..k])
    decreases |lines| - k
  {
    if k == |lines| {
      assert lines[..k] == lines;
    } else {
      var init := lines[..|lines| - 1];
      assert init[..k] == lines[..k];
      RecordOfPrefixErr(init, k);
    }
  }

  /** Line i sets the plain value of key x. */
  predicate FlatAt(lines: seq<string>, i: int, x: string)
  {
    0 <= i < |lines| && |Words(lines[i])| == 2 && Words(lines[i])[0] == x
  }

  /** Line i sets a plain or a nested value of key x. */
  predicate KeyAt(lines: seq<string>, i: int, x: string)
  {
    0 <= i < |lines| && (|Words(lines[i])| == 2 || |Words(lines[i])| == 4) && Words(lines[i])[0] == x
  }

  /** Line j nests under a key that the earlier line i set a plain value for. */
  predicate Clash(lines: seq<string>, i: int, j: int)
  {
    0 <= i < j < |lines| && |Words(lines[j])| == 4 && FlatAt(lines, i, Words(lines[j])[0])
  }

  /** The parse fails exactly when a four-token line follows a two-token line with the
      same first token. */
  lemma {:induction false} RecordFails(lines: seq<string>)
    ensures RecordOf(lines).Err? <==> exists i, j :: Clash(lines, i, j)
  {
    if lines != [] {
      var n := |lines| - 1;
      var init := lines[..n];
      RecordFails(init);
      var r := RecordOf(init);
      var parts := Words(lines[n]);
      if r.Err? {
        var i, j :| Clash(init, i, j);
        assert lines[i] == init[i] && lines[j] == init[j];
        assert Clash(lines, i, j);
      } else if |parts| == 4 && parts[0] in r.value && r.value[parts[0]].Flat? {
        RecordFlat(init);
        var i :| FlatAt(init, i, parts[0]);
        assert lines[i] == init[i];
        assert Clash(lines, i, n);
      } else {
        forall i, j | Clash(lines, i, j) ensures false {
          assert lines[i] == init[i];
          if j < n {
            assert lines[j] == init[j];
            assert Clash(init, i, j);
          } else {
            RecordFlat(init);
            assert FlatAt(init, i, parts[0]);
          }
        }
      }
    }
  }

  /** When the parse succeeds, its keys are the first tokens of the two- and four-token
      lines. */
  lemma {:induction false} RecordKeys(lines: seq<string>)
    requires RecordOf(lines).Ok?
    ensures forall x :: x in RecordOf(lines).value <==> exists i :: KeyAt(lines, i, x)
  {
    if lines != [] {
      var n := |lines| - 1;
      var init := lines[..n];
      RecordKeys(init);
      var u := RecordOf(init).value;
      var v := RecordOf(lines).value;
      forall x ensures x in v <==> exists i :: KeyAt(lines, i, x) {
        if x in v && x !in u {
          assert KeyAt(lines, n, x);
        }
        if x in u {
          var i :| KeyAt(init, i, x);
          assert lines[i] == init[i];
          assert KeyAt(lines, i, x);
        }
        if exists i :: KeyAt(lines, i, x) {
          var i :| KeyAt(lines, i, x);
          if i < n {
            assert lines[i] == init[i];
            assert KeyAt(init, i, x);
          }
        }
      }
    }
  }

  /** When the parse succeeds, a key holds a plain value exactly when some two-token line
      sets it. */
  lemma {:induction false} RecordFlat(lines: seq<string>)
    requires RecordOf(lines).Ok?
    ensures forall x :: (x in RecordOf(lines).value && RecordOf(lines).value[x].Flat?) <==> exists i :: FlatAt(lines, i, x)
  {
    if lines != [] {
      var n := |lines| - 1;
      var init := lines[..n];
      RecordFlat(init);
      var u := RecordOf(init).value;
      var v := RecordOf(lines).value;
      forall x ensures (x in v && v[x].Flat?) <==> exists i :: FlatAt(lines, i, x) {
        if x in v && v[x].Flat? && !(x in u && u[x].Flat?) {
          assert FlatAt(lines, n, x);
        }
        if x in u && u[x].Flat? {
          var i :| FlatAt(init, i, x);
          assert lines[i] == init[i];
          assert FlatAt(lines, i, x);
        }
        if exists i :: FlatAt(lines, i, x) {
          var i :| FlatAt(lines, i, x);
          if i < n {
            assert lines[i] == init[i];
            assert FlatAt(init, i, x);
          }
        }
      }
    }
  }

  /** The detail lines of a `user -s` capture: its non-empty lines after the first. */
  function DetailLines(text: string): seq<string>
  {
    var ls := NonEmptyLines(text);
    if ls == [] then [] else ls[1..]
  }

  /** The nested assignment of one four-token line, in the handler's steps: create the
      section, then the subsection, then set the value; a section that holds a plain value
      cannot be indexed. */
  method Nest(u: Record, parts: seq<string>) returns (res: Result<Record>)
    requires |parts| == 4
    ensures res == ApplyLine(u, parts)
  {
    var v := u;
    if parts[0] !in v {
      v := v[parts[0] := Nested(map[])];
    }
    if v[parts[0]].Flat? {
      return Err(Crash("TypeError"));
    }
    ghost var m0: map<string, map<string, string>> := if parts[0] in u then u[parts[0]].sections else map[];
    var m := v[parts[0]].sections;
    assert m == m0;
    ghost var inner: map<string, string> := if parts[1] in m then m[parts[1]] else map[];
    if parts[1] !in m {
      m := m[parts[1] := map[]];
    }
    assert m[parts[1]] == inner;
    ghost var m1 := m0[parts[1] := inner[parts[2] := parts[3]]];
    assert m[parts[1] := m[parts[1]][parts[2] := parts[3]]] == m1;
    v := v[parts[0] := Nested(m[parts[1] := m[parts[1]][parts[2] := parts[3]]])];
    assert v == u[parts[0] := Nested(m1)];
    res := Ok(v);
  }

  /** The record parser of get_user: a loop over the detail lines that adds each to a
      dictionary, leaving at the first TypeError. */
  method ParseRecord(text: string) returns (res: Result<Record>)
    ensures res == RecordOf(DetailLines(text))
  {
    var lines := DetailLines(text);
    var u: Record := map[];
    for i := 0 to |lines|
      invariant RecordOf(lines[..i]) == Ok(u)
    {
      assert lines[..i + 1][..i] == lines[..i];
      var parts := Words(lines[i]);
      if |parts| == 2 {
        u := u[parts[0] := Flat(parts[1])];
      } else if |parts| == 4 {
        var next := Nest(u, parts);
        if next.Err? {
          RecordOfPrefixErr(lines, i + 1);
          return next;
        }
        u := next.value;
      }
    }
    assert lines[..|lines|] == lines;
    res := Ok(u);
  }

  /** The line that shows one user. */
  function ShowLine(uid: string): string
  {
    "user -s " + uid
  }

  /** get_user: `user -s <uid>`, then pattern 2 is the detail page; any other pattern is
      an unknown user, None when silent and ObjectNotFoundError otherwise. */
  function GetUserRun(uid: string, silent: bool, script: seq<Reply>, at: nat): (r: Run<Option<Record>>)
    ensures r.lines == [ShowLine(uid)] && r.consumed == 1 && !r.synced
    ensures r.result.Ok? && r.result.value.Some? ==>
      ReplyAt(script, at).Match? && ReplyAt(script, at).index == 2 &&
      RecordOf(DetailLines(ReplyAt(script, at).text)) == Ok(r.result.value.value)
    ensures r.result.Ok? && r.result.value.None? ==> silent
    ensures var reply := ReplyAt(script, at); reply.Match? && reply.index == 2 ==>
      (r.result.Ok? <==> RecordOf(DetailLines(reply.text)).Ok?) &&
      (RecordOf(DetailLines(reply.text)).Ok? ==> r.result == Ok(Some(RecordOf(DetailLines(reply.text)).value)))
    ensures var reply := ReplyAt(script, at); reply.Match? && reply.index != 2 ==>
      r.result == if silent then Ok(None) else Err(Api(ObjectNotFoundError, "Unknown user: " + uid))
  {
    var reply := ReplyAt(script, at);
    Run([ShowLine(uid)], 1, false,
      match reply
      case Match(i, t) =>
        if i != 2 then (if silent then Ok(None) else Err(Api(ObjectNotFoundError, "Unknown user: " + uid)))
        else
          var u := RecordOf(DetailLines(t));
          if u.Err? then Err(u.failure) else Ok(Some(u.value))
      case _ => Err(WaitFailure(reply)))
  }

  method GetUser(c: Console, uid: string, silent: bool) returns (res: Result<Option<Record>>)
    modifies c`sent, c`read
    ensures Advanced(old(c.sent), old(c.read), c, GetUserRun(uid, silent, c.script, old(c.read)))
    ensures res == GetUserRun(uid, silent, c.script, old(c.read)).result
  {
    var r := Command(c, ShowLine(uid));
    if !r.Match? {
      return Err(WaitFailure(r));
    }
    if r.index != 2 {
      if silent {
        return Ok(None);
      }
      return Err(Api(ObjectNotFoundError, "Unknown user: " + uid));
    }
    var u := ParseRecord(r.text);
    res := if u.Err? then Err(u.failure) else Ok(Some(u.value));
  }

  /** get_user when not silent: the record, or why there is none. */
  function UserRun(uid: string, script: seq<Reply>, at: nat): (r: Run<Record>)
    ensures r.lines == [ShowLine(uid)] && r.consumed == 1 && !r.synced
    ensures r.result.Ok? ==> GetUserRun(uid, false, script, at).result == Ok(Some(r.result.value))
    ensures r.result.Err? ==> GetUserRun(uid, false, script, at).result == Err(r.result.failure)
  {
    var g := GetUserRun(uid, false, script, at);
    Run(g.lines, g.consumed, false,
      match g.result
      case Err(f) => Err(f)
      case Ok(found) => if found.Some? then Ok(found.value) else Err(Api(ObjectNotFoundError, "Unknown user: " + uid)))
  }

  method User(c: Console, uid: string) returns (res: Result<Record>)
    modifies c`sent, c`read
    ensures Advanced(old(c.sent), old(c.read), c, UserRun(uid, c.script, old(c.read)))
    ensures res == UserRun(uid, c.script, old(c.read)).result
  {
    var g := GetUser(c, uid, false);
    if g.Err? {
      return Err(g.failure);
    }
    res := if g.value.Some? then Ok(g.value.value) else Err(Api(ObjectNotFoundError, "Unknown user: " + uid));
  }

  /** The `retrieve` handler: an unknown user is reported as UnknownError with the same
      detail; other failures pass through. */
  method Retrieve(c: Console, uid: string) returns (res: Result<Record>)
    modifies c`sent, c`read
    ensures Advanced(old(c.sent), old(c.read), c, UserRun(uid, c.script, old(c.read)))
    ensures var r := UserRun(uid, c.script, old(c.read)).result;
      if r.Err? && r.failure.Api? && r.failure.kind == ObjectNotFoundError
      then res == Err(Api(UnknownError, r.failure.detail)) else res == r
  {
    res := User(c, uid);
    if res.Err? && res.failure.Api? && res.failure.kind == ObjectNotFoundError {
      res := Err(Api(UnknownError, res.failure.detail));
    }
  }

  // ---------------------------------------------------------------------------
  // The listing

  /** The annotated uid of a listing line: its first whitespace token without the
      leading '#'. A line of blanks only has no token and raises IndexError. */
  function AnnotatedUid(line: string): (a: Option<string>)
    ensures a.Some? <==> Words(line) != []
    ensures a.Some? ==> |a.value| == |Words(line)[0]| - 1
  {
    var ws := Words(line);
    if ws == [] then None else Some(ws[0][1..])
  }

  /** The annotated uids of the listing's body lines, in order. */
  function AnnotatedUids(lines: seq<string>): (r: Result<seq<string>>)
    ensures r.Ok? <==> forall i :: 0 <= i < |lines| ==> Words(lines[i]) != []
    ensures r.Ok? ==> |r.value| == |lines|
    ensures r.Ok? ==> forall i :: 0 <= i < |lines| ==> AnnotatedUid(lines[i]) == Some(r.value[i])
    ensures r.Err? ==> r.failure == Crash("IndexError")
  {
    if lines == [] then Ok([])
    else
      var a := AnnotatedUid(lines[0]);
      var rest := AnnotatedUids(lines[1..]);
      if a.None? then Err(Crash("IndexError"))
      else if rest.Err? then rest
      else
        assert forall i :: 1 <= i < |lines| ==> lines[i] == lines[1..][i - 1];
        Ok([a.value] + rest.value)
  }

  /** The uid to look up and whether the user is enabled: a leading '!' marks a disabled
      user and is not part of the uid. */
  function Annotation(auid: string): (r: (string, bool))
    ensures r.1 <==> !StartsWith(auid, "!")
    ensures auid == (if r.1 then "" else "!") + r.0
  {
    if StartsWith(auid, "!") then (auid[1..], false) else (auid, true)
  }

  /** What the listing adds for one lookup: a non-empty record with its status set, or
      nothing for an unknown user or an empty record. */
  function Listed(found: Option<Record>, enabled: bool): (us: seq<Record>)
    ensures found.None? || found.value == map[] ==> us == []
    ensures found.Some? && found.value != map[] ==> |us| == 1
    ensures us != [] ==> "status" in us[0] && us[0]["status"] == Flat(if enabled then "enabled" else "disabled")
  {
    if found.Some? && found.value != map[] then
      [found.value["status" := Flat(if enabled then "enabled" else "disabled")]]
    else []
  }

  /** A listed user is the looked-up record with only its status added or replaced:
      every other attribute of the record is kept as it was. */
  lemma ListedKeeps(found: Option<Record>, enabled: bool)
    requires Listed(found, enabled) != []
    ensures Listed(found, enabled)[0].Keys == found.value.Keys + {"status"}
    ensures forall k :: k in found.value && k != "status" ==> Listed(found, enabled)[0][k] == found.value[k]
  {
  }

  /** Every user of `us` carries its status, enabled or disabled. */
  predicate Statused(us: seq<Record>)
  {
    forall k :: 0 <= k < |us| ==> "status" in us[k] && us[k]["status"] in {Flat("enabled"), Flat("disabled")}
  }

  lemma StatusedAppend(a: seq<Record>, b: seq<Record>)
    ensures Statused(a) && Statused(b) ==> Statused(a + b)
  {
    if Statused(a) && Statused(b) {
      forall k | 0 <= k < |a + b|
        ensures "status" in (a + b)[k] && (a + b)[k]["status"] in {Flat("enabled"), Flat("disabled")}
      {
        if k >= |a| {
          assert (a + b)[k] == b[k - |a|];
        } else {
          assert (a + b)[k] == a[k];
        }
      }
    }
  }

  /** One lookup of the listing after the earlier ones succeeded. */
  function LookUpRun(p: Run<seq<Record>>, auid: string, script: seq<Reply>, at: nat): (r: Run<seq<Record>>)
    requires p.result.Ok?
    ensures r.lines == p.lines + [ShowLine(Annotation(auid).0)] && r.consumed == p.consumed + 1 && !r.synced
    ensures r.result.Ok? ==> |r.result.value| <= |p.result.value| + 1
    ensures r.result.Ok? && Statused(p.result.value) ==> Statused(r.result.value)
  {
    var a := Annotation(auid);
    var g := GetUserRun(a.0, true, script, at + p.consumed);
    if g.result.Err? then Run(p.lines + g.lines, p.consumed + g.consumed, false, Err(g.result.failure))
    else
      var l := Listed(g.result.value, a.1);
      StatusedAppend(p.result.value, l);
      Run(p.lines + g.lines, p.consumed + g.consumed, false, Ok(p.result.value + l))
  }

  /** The lookups of the listing, one `user -s` per annotated uid, in order, until one
      fails; every user they list carries its status, enabled or disabled. */
  function UsersRun(auids: seq<string>, script: seq<Reply>, at: nat): (r: Run<seq<Record>>)
    ensures !r.synced && r.consumed <= |auids| && |r.lines| == r.consumed
    ensures r.result.Ok? ==> r.consumed == |auids| && |r.result.value| <= |auids|
    ensures r.result.Ok? ==> Statused(r.result.value)
  {
    if auids == [] then Run([], 0, false, Ok([]))
    else
      var p := UsersRun(auids[..|auids| - 1], script, at);
      if p.result.Err? then p else LookUpRun(p, auids[|auids| - 1], script, at)
  }

  /** The detail page read at position j was found (pattern 2) and parses to `rec`, which
      holds at least one attribute, so `if udata:` keeps it. */
  predicate UserFound(script: seq<Reply>, j: nat, rec: Record)
  {
    ReplyAt(script, j).Match? && ReplyAt(script, j).index == 2 &&
    RecordOf(DetailLines(ReplyAt(script, j).text)) == Ok(rec) && rec != map[]
  }

  /** The user the listing shows for a found record and an annotated uid: the record
      with the status the annotation gives. */
  function ListedUser(rec: Record, auid: string): Record
  {
    rec["status" := Flat(if Annotation(auid).1 then "enabled" else "disabled")]
  }

  /** A lookup whose page is found adds exactly that user, with the status its
      annotation gives: `disabled` for a '!' uid, `enabled` otherwise. */
  lemma LookUpFound(p: Run<seq<Record>>, auid: string, script: seq<Reply>, at: nat, rec: Record)
    requires p.result.Ok? && UserFound(script, at + p.consumed, rec)
    ensures LookUpRun(p, auid, script, at).result == Ok(p.result.value + [ListedUser(rec, auid)])
  {
  }

  /** A lookup whose page is missing (any pattern but 2) adds nobody. */
  lemma MissAddsNothing(p: Run<seq<Record>>, auid: string, script: seq<Reply>, at: nat)
    requires p.result.Ok?
    requires ReplyAt(script, at + p.consumed).Match? && ReplyAt(script, at + p.consumed).index != 2
    ensures LookUpRun(p, auid, script, at).result == p.result
  {
    var g := GetUserRun(Annotation(auid).0, true, script, at + p.consumed);
    assert g.result == Ok(None);
    assert p.result.value + [] == p.result.value;
  }

  /** A listing whose earlier lookups answered, and whose last page is found with `rec`,
      ends with that record listed. */
  lemma UsersStep(auids: seq<string>, rec: Record, script: seq<Reply>, at: nat)
    requires auids != [] && UsersRun(auids[..|auids| - 1], script, at).result.Ok?
    requires UserFound(script, at + |auids| - 1, rec)
    ensures UsersRun(auids, script, at).result ==
      Ok(UsersRun(auids[..|auids| - 1], script, at).result.value + [ListedUser(rec, auids[|auids| - 1])])
  {
    var p := UsersRun(auids[..|auids| - 1], script, at);
    LookUpFound(p, auids[|auids| - 1], script, at, rec);
  }

  /** The pages read from position `at` on are found, the i-th with record recs[i]. */
  predicate AllFound(script: seq<Reply>, at: nat, recs: seq<Record>)
  {
    recs == [] || (AllFound(script, at, recs[..|recs| - 1]) && UserFound(script, at + |recs| - 1, recs[|recs| - 1]))
  }

  /** The users a listing of `auids` holds when the i-th page is found with recs[i]. */
  function ListedUsers(recs: seq<Record>, auids: seq<string>): seq<Record>
    requires |recs| == |auids|
  {
    if auids == [] then []
    else ListedUsers(recs[..|recs| - 1], auids[..|auids| - 1]) + [ListedUser(recs[|recs| - 1], auids[|auids| - 1])]
  }

  /** One user per uid, in order: the i-th record with the i-th uid's status. */
  lemma {:induction false} ListedUsersAt(recs: seq<Record>, auids: seq<string>)
    requires |recs| == |auids|
    ensures |ListedUsers(recs, auids)| == |auids|
    ensures forall i :: 0 <= i < |auids| ==> ListedUsers(recs, auids)[i] == ListedUser(recs[i], auids[i])
  {
    if auids != [] {
      var n := |auids| - 1;
      var init, inits := auids[..n], recs[..n];
      ListedUsersAt(inits, init);
      var ps, us := ListedUsers(inits, init), ListedUsers(recs, auids);
      assert us == ps + [ListedUser(recs[n], auids[n])];
      forall i | 0 <= i < |auids| ensures us[i] == ListedUser(recs[i], auids[i]) {
        if i < n {
          assert ps[i] == ListedUser(inits[i], init[i]);
          assert init[i] == auids[i] && inits[i] == recs[i];
        }
      }
    }
  }

  /** A listing where the i-th page is found with record recs[i] lists ListedUsers. */
  lemma {:induction false} UsersAllListed(auids: seq<string>, recs: seq<Record>, script: seq<Reply>, at: nat)
    requires |recs| == |auids| && AllFound(script, at, recs)
    ensures UsersRun(auids, script, at).result == Ok(ListedUsers(recs, auids))
  {
    if auids != [] {
      var init, inits := auids[..|auids| - 1], recs[..|recs| - 1];
      assert AllFound(script, at, inits) && UserFound(script, at + |recs| - 1, recs[|recs| - 1]);
      UsersAllListed(init, inits, script, at);
      UsersStep(auids, recs[|recs| - 1], script, at);
    }
  }

  /** A listing where the i-th page is found with record recs[i], for every annotated
      uid, lists exactly one user per uid, in order: the i-th record with the i-th uid's
      status. */
  lemma UsersAllFound(auids: seq<string>, recs: seq<Record>, script: seq<Reply>, at: nat)
    requires |recs| == |auids| && AllFound(script, at, recs)
    ensures UsersRun(auids, script, at).result.Ok?
    ensures |UsersRun(auids, script, at).result.value| == |auids|
    ensures forall i :: 0 <= i < |auids| ==> UsersRun(auids, script, at).result.value[i] == ListedUser(recs[i], auids[i])
  {
    UsersAllListed(auids, recs, script, at);
    ListedUsersAt(recs, auids);
  }

  /** One `user -s` per annotated uid, in order, without the '!' marker. */
  function ShowLines(auids: seq<string>): (ls: seq<string>)
    ensures |ls| == |auids|
    ensures forall i :: 0 <= i < |auids| ==> ls[i] == ShowLine(Annotation(auids[i]).0)
  {
    if auids == [] then []
    else ShowLines(auids[..|auids| - 1]) + [ShowLine(Annotation(auids[|auids| - 1]).0)]
  }

  /** A listing whose lookups all succeed sends one `user -s` per annotated uid. */
  lemma {:induction false} UsersLines(auids: seq<string>, script: seq<Reply>, at: nat)
    requires UsersRun(auids, script, at).result.Ok?
    ensures UsersRun(auids, script, at).lines == ShowLines(auids)
  {
    if auids != [] {
      UsersLines(auids[..|auids| - 1], script, at);
    }
  }

  /** What `list` sends and answers: `user -l`, one wait; fewer than three characters in
      the stripped reply lists nobody; otherwise one lookup per annotated uid of the body
      lines (the non-empty lines without two header and two footer lines). */
  function ListRun(script: seq<Reply>, at: nat): (r: Run<seq<Record>>)
    ensures r.lines != [] && r.lines[0] == ListLine && !r.synced
    ensures ReplyAt(script, at).Match? && |Strip(ReplyAt(script, at).text)| < 3 ==>
      r.lines == [ListLine] && r.result == Ok([])
  {
    var reply := ReplyAt(script, at);
    match reply
    case Match(_, t) =>
      var result := Strip(t);
      if |result| < 3 then Run([ListLine], 1, false, Ok([]))
      else
        var auids := AnnotatedUids(Body(NonEmptyLines(result)));
        if auids.Err? then Failed([ListLine], 1, auids.failure)
        else AndThen(Run([ListLine], 1, false, Ok(())), UsersRun(auids.value, script, at + 1))
    case _ => Failed([ListLine], 1, WaitFailure(reply))
  }

  /** The outcome of one lookup, given the answer of its `user -s`. */
  lemma LookUpAnswer(p: Run<seq<Record>>, auid: string, script: seq<Reply>, at: nat, found: Result<Option<Record>>)
    requires p.result.Ok?
    requires found == GetUserRun(Annotation(auid).0, true, script, at + p.consumed).result
    ensures found.Err? ==> LookUpRun(p, auid, script, at).result == Err(found.failure)
    ensures found.Ok? ==> LookUpRun(p, auid, script, at).result == Ok(p.result.value + Listed(found.value, Annotation(auid).1))
  {
  }

  /** One lookup of the listing loop. */
  method LookUpOne(c: Console, users: seq<Record>, auid: string, ghost p: Run<seq<Record>>, ghost at: nat)
    returns (res: Result<seq<Record>>)
    requires p.result == Ok(users) && c.read == at + p.consumed
    modifies c`sent, c`read
    ensures c.sent == old(c.sent) + [ShowLine(Annotation(auid).0)] && c.read == old(c.read) + 1
    ensures res == LookUpRun(p, auid, c.script, at).result
  {
    var a := Annotation(auid);
    var found := GetUser(c, a.0, true);
    LookUpAnswer(p, auid, c.script, at, found);
    if found.Err? {
      return Err(found.failure);
    }
    res := Ok(users + Listed(found.value, a.1));
  }

  /** One more uid looked up after a listing that went well so far. */
  lemma UsersPrefixStep(auids: seq<string>, i: nat, script: seq<Reply>, at: nat)
    requires i < |auids| && UsersRun(auids[..i], script, at).result.Ok?
    ensures UsersRun(auids[..i + 1], script, at).lines ==
      UsersRun(auids[..i], script, at).lines + [ShowLine(Annotation(auids[i]).0)]
    ensures UsersRun(auids[..i + 1], script, at).result ==
      LookUpRun(UsersRun(auids[..i], script, at), auids[i], script, at).result
  {
    assert auids[..i + 1][..i] == auids[..i];
  }

  /** Iteration i of the lookup loop, stated against the listing of the first i + 1 uids. */
  method LookUpNext(c: Console, users: seq<Record>, auids: seq<string>, i: nat,
                    ghost sent0: seq<string>, ghost at: nat) returns (next: Result<seq<Record>>)
    requires i < |auids|
    requires UsersRun(auids[..i], c.script, at).result == Ok(users)
    requires Advanced(sent0, at, c, UsersRun(auids[..i], c.script, at))
    modifies c`sent, c`read
    ensures Advanced(sent0, at, c, UsersRun(auids[..i + 1], c.script, at))
    ensures next == UsersRun(auids[..i + 1], c.script, at).result
  {
    ghost var p := UsersRun(auids[..i], c.script, at);
    next := LookUpOne(c, users, auids[i], p, at);
    UsersPrefixStep(auids, i, c.script, at);
  }

  /** The lookup loop of `list`. */
  method LookUp(c: Console, auids: seq<string>) returns (res: Result<seq<Record>>)
    modifies c`sent, c`read
    ensures Advanced(old(c.sent), old(c.read), c, UsersRun(auids, c.script, old(c.read)))
    ensures res == UsersRun(auids, c.script, old(c.read)).result
  {
    ghost var sent0, at := c.sent, c.read;
    var users: seq<Record> := [];
    for i := 0 to |auids|
      invariant UsersRun(auids[..i], c.script, at).result == Ok(users)
      invariant Advanced(sent0, at, c, UsersRun(auids[..i], c.script, at))
    {
      var next := LookUpNext(c, users, auids, i, sent0, at);
      if next.Err? {
        UsersPrefixErr(auids, i + 1, c.script, at);
        return next;
      }
      users := next.value;
    }
    assert auids[..|auids|] == auids;
    res := Ok(users);
  }

  /** A lookup that failed ends the listing: the rest of the uids are not looked up. */
  lemma {:induction false} UsersPrefixErr(auids: seq<string>, k: nat, script: seq<Reply>, at: nat)
    requires k <= |auids| && UsersRun(auids[..k], script, at).result.Err?
    ensures UsersRun(auids, script, at) == UsersRun(auids[..k], script, at)
    decreases |auids| - k
  {
    if k == |auids| {
      assert auids[..k] == auids;
    } else {
      var init := auids[..|auids| - 1];
      assert init[..k] == auids[..k];
      UsersPrefixErr(init, k, script, at);
    }
  }

  /** The `list` handler. */
  method List(c: Console) returns (res: Result<seq<Record>>)
    modifies c`sent, c`read
    ensures Advanced(old(c.sent), old(c.read), c, ListRun(c.script, old(c.read)))
    ensures res == ListRun(c.script, old(c.read)).result
  {
    ghost var sent0, read0 := c.sent, c.read;
    var r := Command(c, ListLine);
    if !r.Match? {
      return Err(WaitFailure(r));
    }
    var result := Strip(r.text);
    if |result| < 3 {
      return Ok([]);
    }
    var auids := AnnotatedUids(Body(NonEmptyLines(result)));
    if auids.Err? {
      return Err(auids.failure);
    }
    res := LookUp(c, auids.value);
    Chain(c, sent0, read0, Run([ListLine], 1, false, Ok(())), UsersRun(auids.value, c.script, read0 + 1));
  }

  // ---------------------------------------------------------------------------
  // Writes: persist, the fan-out, then the user as `user -s` shows it

  /** persist, the fan-out, then the lookup of the user: how every write that answers
      with the user ends. */
  function PersistedUserRun(uid: string, replicated: bool, script: seq<Reply>, at: nat): (r: Run<Record>)
    ensures r.lines != [] && r.lines[0] == PersistLine
    ensures ReplyAt(script, at).Match? ==> r.lines == [PersistLine, ShowLine(uid)] && r.consumed == 2
    ensures r.result.Ok? ==> r.synced == replicated
    ensures r.result.Ok? ==> UserRun(uid, script, at + 1).result == r.result
  {
    AndThen(PersistRun(script, at, replicated), UserRun(uid, script, at + 1))
  }

  method PersistedUser(c: Console, replicas: seq<Console>, uid: string, replicated: bool)
    returns (res: Result<Record>)
    requires c !in replicas
    modifies c`sent, c`read, replicas
    ensures Advanced(old(c.sent), old(c.read), c, PersistedUserRun(uid, replicated, c.script, old(c.read)))
    ensures Fanned(replicas, PersistedUserRun(uid, replicated, c.script, old(c.read)).synced)
    ensures res == PersistedUserRun(uid, replicated, c.script, old(c.read)).result
  {
    ghost var sent0, read0 := c.sent, c.read;
    var persisted := Persist(c, replicas, replicated);
    ghost var pr := PersistRun(c.script, read0, replicated);
    if persisted.Err? {
      assert PersistedUserRun(uid, replicated, c.script, read0).result == Err(persisted.failure);
      return Err(persisted.failure);
    }
    res := User(c, uid);
    ghost var u := UserRun(uid, c.script, read0 + 1);
    Chain(c, sent0, read0, pr, u);
    assert PersistedUserRun(uid, replicated, c.script, read0).result == u.result;
  }

  // ---------------------------------------------------------------------------
  // create

  /** Every field a new user needs is present. */
  predicate Complete(data: map<string, string>)
  {
    "uid" in data && "gid" in data && "username" in data && "password" in data
  }

  /** The KeyError of `create`'s four reads, uid, gid, username and password in that
      order: the first of them the data lacks. */
  function MissingKey(data: map<string, string>): (m: Option<string>)
    ensures m.None? <==> Complete(data)
    ensures m.Some? ==> m.value !in data && m.value in ["uid", "gid", "username", "password"]
    ensures m == FirstMissing(data, ["uid", "gid", "username", "password"])
  {
    if "uid" !in data then Some("uid")
    else if "gid" !in data then Some("gid")
    else if "username" !in data then Some("username")
    else if "password" !in data then Some("password")
    else None
  }

  /** The interactive keys of a new user, in the order the handler sets them. */
  function CreateKeys(data: map<string, string>): seq<(string, string)>
    requires Complete(data)
  {
    [("uid", data["uid"]), ("gid", data["gid"]), ("username", data["username"]), ("password", data["password"])]
  }

  /** After `user -a` and its prompt: the interactive keys, persist, the fan-out and the
      lookup of the new user. */
  function KeyedRun(keys: seq<(string, string)>, uid: string, replicated: bool, script: seq<Reply>, at: nat)
    : (r: Run<Record>)
  {
    var s := IkeysRun(keys, script, at);
    AndThen(s, PersistedUserRun(uid, replicated, script, at + s.consumed))
  }

  method Keyed(c: Console, replicas: seq<Console>, keys: seq<(string, string)>, uid: string, replicated: bool)
    returns (res: Result<Record>)
    requires c !in replicas
    modifies c`sent, c`read, replicas
    ensures Advanced(old(c.sent), old(c.read), c, KeyedRun(keys, uid, replicated, c.script, old(c.read)))
    ensures Fanned(replicas, KeyedRun(keys, uid, replicated, c.script, old(c.read)).synced)
    ensures res == KeyedRun(keys, uid, replicated, c.script, old(c.read)).result
  {
    ghost var sent0, read0 := c.sent, c.read;
    var keyed := SetIkeys(c, keys);
    ghost var s := IkeysRun(keys, c.script, read0);
    IkeysUnsynced(keys, c.script, read0);
    if keyed.Err? {
      assert KeyedRun(keys, uid, replicated, c.script, read0).result == Err(keyed.failure);
      return Err(keyed.failure);
    }
    res := PersistedUser(c, replicas, uid, replicated);
    ghost var p := PersistedUserRun(uid, replicated, c.script, read0 + s.consumed);
    Chain(c, sent0, read0, s, p);
    assert KeyedRun(keys, uid, replicated, c.script, read0).result == p.result;
  }

  /** A user the keyed dialogue answers with is what `user -s <uid>` shows once every key,
      `ok` and `persist` were answered, and the configuration was fanned out when asked
      to be. */
  lemma {:induction false} KeyedAnswers(keys: seq<(string, string)>, uid: string, replicated: bool, script: seq<Reply>, at: nat)
    requires KeyedRun(keys, uid, replicated, script, at).result.Ok?
    ensures KeyedRun(keys, uid, replicated, script, at).synced == replicated
    ensures UserRun(uid, script, at + |keys| + 2).result == KeyedRun(keys, uid, replicated, script, at).result
  {
    var s := IkeysRun(keys, script, at);
    var p := PersistedUserRun(uid, replicated, script, at + s.consumed);
    assert s.result.Ok?;
    IkeysUnsynced(keys, script, at);
    IkeysSucceedsIff(keys, script, at);
    IkeysAllAccepted(keys, script, at);
    assert s.consumed == |keys| + 1;
  }

  /** With every key accepted the keyed dialogue is one line per key in order, `ok`,
      `persist`, and the lookup of the user. */
  lemma {:induction false} KeyedAllAccepted(keys: seq<(string, string)>, uid: string, replicated: bool,
                                            script: seq<Reply>, at: nat)
    requires forall i :: at <= i < at + |keys| ==> Accepted(script, i)
    requires CommitVerdict(ReplyAt(script, at + |keys|)).Ok?
    requires ReplyAt(script, at + 1 + |keys|).Match?
    ensures KeyedRun(keys, uid, replicated, script, at).lines ==
      KeyLines(keys) + [CommitLine, PersistLine, ShowLine(uid)]
  {
    IkeysAllAccepted(keys, script, at);
    var s := IkeysRun(keys, script, at);
    var p := PersistedUserRun(uid, replicated, script, at + 1 + |keys|);
    assert s.result.Ok? && s.consumed == 1 + |keys| && p.lines == [PersistLine, ShowLine(uid)];
    assert s.lines + p.lines == KeyLines(keys) + [CommitLine, PersistLine, ShowLine(uid)];
  }

  /** `user -a`, one wait, then the keyed dialogue. */
  function OpenedRun(keys: seq<(string, string)>, uid: string, replicated: bool, script: seq<Reply>, at: nat)
    : (r: Run<Record>)
  {
    AndThen(StepRun(AddLine, script, at), KeyedRun(keys, uid, replicated, script, at + 1))
  }

  method Opened(c: Console, replicas: seq<Console>, keys: seq<(string, string)>, uid: string, replicated: bool)
    returns (res: Result<Record>)
    requires c !in replicas
    modifies c`sent, c`read, replicas
    ensures Advanced(old(c.sent), old(c.read), c, OpenedRun(keys, uid, replicated, c.script, old(c.read)))
    ensures Fanned(replicas, OpenedRun(keys, uid, replicated, c.script, old(c.read)).synced)
    ensures res == OpenedRun(keys, uid, replicated, c.script, old(c.read)).result
  {
    ghost var sent0, read0 := c.sent, c.read;
    var began := Step(c, AddLine);
    if began.Err? {
      return Err(began.failure);
    }
    res := Keyed(c, replicas, keys, uid, replicated);
    Chain(c, sent0, read0, StepRun(AddLine, c.script, read0), KeyedRun(keys, uid, replicated, c.script, read0 + 1));
  }

  /** What `create` does: the four required keys are read first (no console line), then
      the dialogue of `OpenedRun`. */
  function CreateRun(data: map<string, string>, replicated: bool, script: seq<Reply>, at: nat)
    : (r: Run<Record>)
  {
    match MissingKey(data)
    case Some(k) => Failed([], 0, Api(MissingKeyError, "Missing parameter: " + k + " is required"))
    case None => OpenedRun(CreateKeys(data), data["uid"], replicated, script, at)
  }

  /** A missing key is reported before anything is sent. */
  lemma CreateMissing(data: map<string, string>, replicated: bool, script: seq<Reply>, at: nat)
    requires MissingKey(data).Some?
    ensures CreateRun(data, replicated, script, at).lines == []
    ensures CreateRun(data, replicated, script, at).result ==
      Err(Api(MissingKeyError, "Missing parameter: " + MissingKey(data).value + " is required"))
  {
  }

  /** A created user is what `user -s <uid>` shows after `user -a`, the four keys, `ok`
      and `persist` were answered, and the configuration was fanned out when asked to be. */
  lemma {:induction false} CreateAnswers(data: map<string, string>, replicated: bool, script: seq<Reply>, at: nat)
    requires CreateRun(data, replicated, script, at).result.Ok?
    ensures Complete(data)
    ensures CreateRun(data, replicated, script, at).synced == replicated
    ensures UserRun(data["uid"], script, at + 7).result == CreateRun(data, replicated, script, at).result
  {
    var keys := CreateKeys(data);
    assert StepRun(AddLine, script, at).result.Ok?;
    KeyedAnswers(keys, data["uid"], replicated, script, at + 1);
  }

  /** The lines of the four interactive keys of a new user. */
  lemma CreateKeyLines(data: map<string, string>)
    requires Complete(data)
    ensures KeyLines(CreateKeys(data)) ==
      ["uid " + data["uid"], "gid " + data["gid"], "username " + data["username"], "password " + data["password"]]
  {
    var ls := KeyLines(CreateKeys(data));
    assert ls[0] == "uid " + data["uid"] && ls[1] == "gid " + data["gid"];
    assert ls[2] == "username " + data["username"] && ls[3] == "password " + data["password"];
  }

  /** A complete `create` whose `user -a` was answered goes on with the keyed dialogue. */
  lemma CreateLines(data: map<string, string>, replicated: bool, script: seq<Reply>, at: nat)
    requires Complete(data)
    requires ReplyAt(script, at).Match?
    ensures CreateRun(data, replicated, script, at).lines ==
      [AddLine] + KeyedRun(CreateKeys(data), data["uid"], replicated, script, at + 1).lines
  {
    assert MissingKey(data).None? && StepRun(AddLine, script, at).result.Ok?;
  }

  /** With every key accepted the dialogue is `user -a`, the uid, gid, username and
      password lines in that order, `ok`, `persist`, and the lookup of the new user. */
  lemma {:induction false} CreateAllAccepted(data: map<string, string>, replicated: bool, script: seq<Reply>, at: nat)
    requires Complete(data)
    requires ReplyAt(script, at).Match?
    requires forall i :: at + 1 <= i < at + 5 ==> Accepted(script, i)
    requires CommitVerdict(ReplyAt(script, at + 5)).Ok?
    requires ReplyAt(script, at + 6).Match?
    ensures CreateRun(data, replicated, script, at).lines ==
      [AddLine, "uid " + data["uid"], "gid " + data["gid"], "username " + data["username"],
       "password " + data["password"], CommitLine, PersistLine, ShowLine(data["uid"])]
  {
    KeyedAllAccepted(CreateKeys(data), data["uid"], replicated, script, at + 1);
    CreateKeyLines(data);
    CreateLines(data, replicated, script, at);
  }

  method Create(c: Console, replicas: seq<Console>, data: map<string, string>, replicated: bool)
    returns (res: Result<Record>)
    requires c !in replicas
    modifies c`sent, c`read, replicas
    ensures Advanced(old(c.sent), old(c.read), c, CreateRun(data, replicated, c.script, old(c.read)))
    ensures Fanned(replicas, CreateRun(data, replicated, c.script, old(c.read)).synced)
    ensures res == CreateRun(data, replicated, c.script, old(c.read)).result
  {
    var missing := MissingKey(data);
    if missing.Some? {
      return Err(Api(MissingKeyError, "Missing parameter: " + missing.value + " is required"));
    }
    res := Opened(c, replicas, CreateKeys(data), data["uid"], replicated);
  }

  // ---------------------------------------------------------------------------
  // partial_update

  /** One item of the JSON update list: a list of string arguments, or anything else,
      known by its printed form. */
  datatype Update = Args(args: seq<string>) | NotList(repr: string)

  /** The JSON body of a partial update: a list of items, or anything else. */
  datatype UpdateBody = Updates(items: seq<Update>) | NotAList

  /** An item the loop sends: a non-empty list. */
  predicate Sendable(u: Update)
  {
    u.Args? && u.args != []
  }

  /** The printed form of an item the loop refuses (an empty list prints as "[]"). */
  function Printed(u: Update): string
  {
    if u.Args? then "[]" else u.repr
  }

  /** The console line of one update: its arguments joined by single spaces, then a
      newline of its own. */
  function UpdateLine(u: Update): string
    requires Sendable(u)
  {
    Join(" ", u.args) + "\n"
  }

  /** The update loop and the closing "ok\n": each item is checked, sent and answered in
      turn, and the first refused item or rejected line ends the dialogue. */
  function UpdatesRun(items: seq<Update>, script: seq<Reply>, at: nat): (r: Run<()>)
    ensures !r.synced
    decreases |items|
  {
    if items == [] then Run([UpdateCommitLine], 1, false, UpdateCommitVerdict(ReplyAt(script, at)))
    else if !Sendable(items[0]) then Failed([], 0, Api(JasminSyntaxError, "Invalid update format: " + Printed(items[0])))
    else
      var line := UpdateLine(items[0]);
      match UpdateVerdict(ReplyAt(script, at))
      case Err(f) => Failed([line], 1, f)
      case Ok(_) =>
        var rest := UpdatesRun(items[1..], script, at + 1);
        Run([line] + rest.lines, 1 + rest.consumed, false, rest.result)
  }

  /** The lines of a run of sendable items. */
  function UpdateLines(items: seq<Update>): (ls: seq<string>)
    requires forall i :: 0 <= i < |items| ==> Sendable(items[i])
    ensures |ls| == |items|
  {
    if items == [] then [] else [UpdateLine(items[0])] + UpdateLines(items[1..])
  }

  /** One line per item, in order. */
  lemma {:induction false} UpdateLinesAt(items: seq<Update>)
    requires forall i :: 0 <= i < |items| ==> Sendable(items[i])
    ensures forall i :: 0 <= i < |items| ==> UpdateLines(items)[i] == UpdateLine(items[i])
  {
    if items != [] {
      UpdateLinesAt(items[1..]);
      forall i | 0 <= i < |items| ensures UpdateLines(items)[i] == UpdateLine(items[i]) {
        if i > 0 {
          assert items[i] == items[1..][i - 1];
        }
      }
    }
  }

  /** Every item sendable and accepted: one line per item in order, then exactly one
      "ok\n", whose reply decides the outcome. */
  lemma {:induction false} UpdatesAllTaken(items: seq<Update>, script: seq<Reply>, at: nat)
    requires forall i :: 0 <= i < |items| ==> Sendable(items[i])
    requires forall i :: at <= i < at + |items| ==> Taken(script, i)
    ensures var r := UpdatesRun(items, script, at);
      r.lines == UpdateLines(items) + [UpdateCommitLine] && r.consumed == |items| + 1 &&
      r.result == UpdateCommitVerdict(ReplyAt(script, at + |items|))
  {
    if items != [] {
      assert Sendable(items[0]) && Taken(script, at);
      UpdatesAllTaken(items[1..], script, at + 1);
    }
  }

  /** The first item that is not a non-empty list ends the dialogue with a syntax error
      before anything is sent for it: only the accepted items before it were sent. */
  lemma {:induction false} UpdatesFirstRefused(items: seq<Update>, script: seq<Reply>, at: nat, k: nat)
    requires k < |items| && !Sendable(items[k])
    requires forall i :: 0 <= i < k ==> Sendable(items[i])
    requires forall i :: at <= i < at + k ==> Taken(script, i)
    ensures var r := UpdatesRun(items, script, at);
      r.lines == UpdateLines(items[..k]) && r.consumed == k &&
      r.result == Err(Api(JasminSyntaxError, "Invalid update format: " + Printed(items[k])))
  {
    if k == 0 {
    } else {
      assert Sendable(items[0]) && Taken(script, at);
      UpdatesFirstRefused(items[1..], script, at + 1, k - 1);
      assert items[1..][..k - 1] == items[1..k];
      assert items[..k][1..] == items[1..k];
    }
  }

  /** The first rejected line ends the dialogue: it is the last line sent, and its
      classification is the outcome. */
  lemma {:induction false} UpdatesFirstRejected(items: seq<Update>, script: seq<Reply>, at: nat, k: nat)
    requires k < |items|
    requires forall i :: 0 <= i <= k ==> Sendable(items[i])
    requires forall i :: at <= i < at + k ==> Taken(script, i)
    requires !Taken(script, at + k)
    ensures var r := UpdatesRun(items, script, at);
      r.lines == UpdateLines(items[..k + 1]) && r.consumed == k + 1 &&
      r.result == UpdateVerdict(ReplyAt(script, at + k))
  {
    if k == 0 {
      assert UpdateLines(items[..1]) == [UpdateLine(items[0])];
    } else {
      assert Sendable(items[0]) && Taken(script, at);
      UpdatesFirstRejected(items[1..], script, at + 1, k - 1);
      assert items[1..][..k] == items[1..k + 1];
      assert items[..k + 1][1..] == items[1..k + 1];
    }
  }

  lemma {:induction false} UpdateLinesPrefix(items: seq<Update>, i: nat)
    requires i < |items| && forall j :: 0 <= j <= i ==> Sendable(items[j])
    ensures UpdateLines(items[..i + 1]) == UpdateLines(items[..i]) + [UpdateLine(items[i])]
  {
    var a, b := items[..i + 1], items[..i];
    UpdateLinesAt(a);
    UpdateLinesAt(b);
    forall j | 0 <= j < i + 1 ensures UpdateLines(a)[j] == (UpdateLines(b) + [UpdateLine(items[i])])[j] {
      if j < i {
        assert a[j] == b[j];
      }
    }
  }

  /** One update line and the classification of its reply. */
  method SendUpdate(c: Console, u: Update) returns (res: Result<()>)
    requires Sendable(u)
    modifies c`sent, c`read
    ensures c.sent == old(c.sent) + [UpdateLine(u)] && c.read == old(c.read) + 1
    ensures res == UpdateVerdict(ReplyAt(c.script, old(c.read)))
  {
    c.SendLine(UpdateLine(u));
    var r := c.Expect();
    res := UpdateVerdict(r);
  }

  /** The update loop of partial_update. */
  method SendUpdates(c: Console, items: seq<Update>) returns (res: Result<()>)
    modifies c`sent, c`read
    ensures Advanced(old(c.sent), old(c.read), c, UpdatesRun(items, c.script, old(c.read)))
    ensures res == UpdatesRun(items, c.script, old(c.read)).result
  {
    ghost var at := c.read;
    var i := 0;
    while i < |items|
      invariant 0 <= i <= |items| && c.read == at + i
      invariant forall j :: 0 <= j < i ==> Sendable(items[j])
      invariant c.sent == old(c.sent) + UpdateLines(items[..i])
      invariant forall j :: at <= j < at + i ==> Taken(c.script, j)
    {
      if !Sendable(items[i]) {
        UpdatesFirstRefused(items, c.script, at, i);
        return Err(Api(JasminSyntaxError, "Invalid update format: " + Printed(items[i])));
      }
      res := SendUpdate(c, items[i]);
      UpdateLinesPrefix(items, i);
      if res.Err? {
        UpdatesFirstRejected(items, c.script, at, i);
        return;
      }
      i := i + 1;
    }
    UpdatesAllTaken(items, c.script, at);
    assert items[..|items|] == items;
    c.SendLine(UpdateCommitLine);
    var r := c.Expect();
    res := UpdateCommitVerdict(r);
  }

  /** A dialogue that completes went through every item, each sendable and accepted, and
      through "ok\n": one reply per item and one for "ok\n". */
  lemma {:induction false} UpdatesSucceed(items: seq<Update>, script: seq<Reply>, at: nat)
    requires UpdatesRun(items, script, at).result.Ok?
    ensures forall i :: 0 <= i < |items| ==> Sendable(items[i])
    ensures forall i :: at <= i < at + |items| ==> Taken(script, i)
    ensures UpdatesRun(items, script, at).consumed == |items| + 1
    decreases |items|
  {
    if items != [] {
      assert Sendable(items[0]) && Taken(script, at);
      UpdatesSucceed(items[1..], script, at + 1);
      forall i | 0 <= i < |items| ensures Sendable(items[i]) {
        if i > 0 {
          assert items[i] == items[1..][i - 1];
        }
      }
    }
  }

  /** The line that opens the interactive update of one user. */
  function UpdateOpenLine(uid: string): string
  {
    "user -u " + uid
  }

  /** Once the update session is open: the body is checked, then the update loop,
      persist, the fan-out and the lookup of the user. */
  function UpdatingRun(body: UpdateBody, uid: string, replicated: bool, script: seq<Reply>, at: nat)
    : (r: Run<Record>)
    ensures body.NotAList? || body.items == [] ==>
      r.lines == [] && r.result == Err(Api(JasminSyntaxError, NotAListOfLists))
  {
    if body.NotAList? || body.items == [] then Failed([], 0, Api(JasminSyntaxError, NotAListOfLists))
    else
      var u := UpdatesRun(body.items, script, at);
      AndThen(u, PersistedUserRun(uid, replicated, script, at + u.consumed))
  }

  method Updating(c: Console, replicas: seq<Console>, body: UpdateBody, uid: string, replicated: bool)
    returns (res: Result<Record>)
    requires c !in replicas
    modifies c`sent, c`read, replicas
    ensures Advanced(old(c.sent), old(c.read), c, UpdatingRun(body, uid, replicated, c.script, old(c.read)))
    ensures Fanned(replicas, UpdatingRun(body, uid, replicated, c.script, old(c.read)).synced)
    ensures res == UpdatingRun(body, uid, replicated, c.script, old(c.read)).result
  {
    if body.NotAList? || body.items == [] {
      return Err(Api(JasminSyntaxError, NotAListOfLists));
    }
    var updated := SendUpdates(c, body.items);
    if updated.Err? {
      return Err(updated.failure);
    }
    res := PersistedUser(c, replicas, uid, replicated);
  }

  /** partial_update: `user -u <uid>`, then pattern 0 opens the update session; 1 is an
      unknown user; any other pattern is a Jasmin error carrying the stripped capture. */
  function PartialUpdateRun(uid: string, body: UpdateBody, replicated: bool, script: seq<Reply>, at: nat)
    : (r: Run<Record>)
    ensures r.lines != [] && r.lines[0] == UpdateOpenLine(uid)
    ensures var reply := ReplyAt(script, at); reply.Match? && reply.index == 1 ==>
      r.lines == [UpdateOpenLine(uid)] && r.result == Err(Api(UnknownError, "Unknown user: " + uid))
    ensures var reply := ReplyAt(script, at); reply.Match? && reply.index >= 2 ==>
      r.lines == [UpdateOpenLine(uid)] && r.result == Err(Api(JasminError, Strip(reply.text)))
    ensures var reply := ReplyAt(script, at); reply.Match? && reply.index == 0 && (body.NotAList? || body.items == []) ==>
      r.lines == [UpdateOpenLine(uid)] && r.result == Err(Api(JasminSyntaxError, NotAListOfLists))
  {
    var reply := ReplyAt(script, at);
    AndThen(CommandRun(UpdateOpenLine(uid), script, at),
      match reply
      case Match(i, t) =>
        if i == 1 then Failed([], 0, Api(UnknownError, "Unknown user: " + uid))
        else if i != 0 then Failed([], 0, Api(JasminError, Strip(t)))
        else UpdatingRun(body, uid, replicated, script, at + 1)
      case _ => Failed([], 0, WaitFailure(reply)))
  }

  /** Once the session is open, an update that completes had a non-empty list of items,
      each sendable and accepted, and answers with what `user -s <uid>` shows after "ok\n"
      and persist; the configuration was fanned out when asked to be. */
  lemma {:induction false} UpdatingAnswers(body: UpdateBody, uid: string, replicated: bool,
                                           script: seq<Reply>, at: nat)
    requires UpdatingRun(body, uid, replicated, script, at).result.Ok?
    ensures body.Updates? && body.items != []
    ensures forall i :: 0 <= i < |body.items| ==> Sendable(body.items[i])
    ensures forall i :: at <= i < at + |body.items| ==> Taken(script, i)
    ensures UpdatingRun(body, uid, replicated, script, at).synced == replicated
    ensures UserRun(uid, script, at + |body.items| + 2).result == UpdatingRun(body, uid, replicated, script, at).result
  {
    assert body.Updates? && body.items != [];
    var u := UpdatesRun(body.items, script, at);
    assert u.result.Ok?;
    UpdatesSucceed(body.items, script, at);
    assert u.consumed == |body.items| + 1;
  }

  /** An update that completes opened the session (pattern 0) and answers as the session
      after it does, fanning out as it does; UpdatingAnswers says what that session went
      through. */
  lemma {:induction false} PartialUpdateOpened(uid: string, body: UpdateBody, replicated: bool,
                                               script: seq<Reply>, at: nat)
    requires PartialUpdateRun(uid, body, replicated, script, at).result.Ok?
    ensures ReplyAt(script, at).Match? && ReplyAt(script, at).index == 0
    ensures PartialUpdateRun(uid, body, replicated, script, at).result == UpdatingRun(body, uid, replicated, script, at + 1).result
    ensures PartialUpdateRun(uid, body, replicated, script, at).synced == UpdatingRun(body, uid, replicated, script, at + 1).synced
  {
    var reply := ReplyAt(script, at);
    assert reply.Match? && reply.index == 0;
  }

  /** Inside the session, with every item sendable and accepted and "ok\n" and persist
      answered: one line per item in order, "ok\n", persist and `user -s <uid>`. */
  lemma {:induction false} UpdatingAllTaken(uid: string, items: seq<Update>, replicated: bool,
                                            script: seq<Reply>, at: nat)
    requires items != [] && forall i :: 0 <= i < |items| ==> Sendable(items[i])
    requires forall i :: at <= i < at + |items| ==> Taken(script, i)
    requires UpdateCommitVerdict(ReplyAt(script, at + |items|)).Ok?
    requires ReplyAt(script, at + 1 + |items|).Match?
    ensures UpdatingRun(Updates(items), uid, replicated, script, at).lines ==
      UpdateLines(items) + [UpdateCommitLine, PersistLine, ShowLine(uid)]
  {
    UpdatesAllTaken(items, script, at);
    var u := UpdatesRun(items, script, at);
    assert u.result.Ok?;
    var p := PersistedUserRun(uid, replicated, script, at + u.consumed);
    assert UpdatingRun(Updates(items), uid, replicated, script, at).lines == u.lines + p.lines;
  }

  /** With every item sendable and accepted, and "ok\n" and persist answered, the dialogue
      is `user -u <uid>`, one line per item in order, "ok\n", persist and `user -s <uid>`. */
  lemma {:induction false} PartialUpdateAllTaken(uid: string, items: seq<Update>, replicated: bool,
                                                 script: seq<Reply>, at: nat)
    requires items != [] && forall i :: 0 <= i < |items| ==> Sendable(items[i])
    requires ReplyAt(script, at).Match? && ReplyAt(script, at).index == 0
    requires forall i :: at + 1 <= i < at + 1 + |items| ==> Taken(script, i)
    requires UpdateCommitVerdict(ReplyAt(script, at + 1 + |items|)).Ok?
    requires ReplyAt(script, at + 2 + |items|).Match?
    ensures PartialUpdateRun(uid, Updates(items), replicated, script, at).lines ==
      [UpdateOpenLine(uid)] + UpdateLines(items) + [UpdateCommitLine, PersistLine, ShowLine(uid)]
  {
    UpdatingAllTaken(uid, items, replicated, script, at + 1);
    var rest := UpdatingRun(Updates(items), uid, replicated, script, at + 1);
    assert PartialUpdateRun(uid, Updates(items), replicated, script, at).lines == [UpdateOpenLine(uid)] + rest.lines;
  }

  method PartialUpdate(c: Console, replicas: seq<Console>, uid: string, body: UpdateBody, replicated: bool)
    returns (res: Result<Record>)
    requires c !in replicas
    modifies c`sent, c`read, replicas
    ensures Advanced(old(c.sent), old(c.read), c, PartialUpdateRun(uid, body, replicated, c.script, old(c.read)))
    ensures Fanned(replicas, PartialUpdateRun(uid, body, replicated, c.script, old(c.read)).synced)
    ensures res == PartialUpdateRun(uid, body, replicated, c.script, old(c.read)).result
  {
    ghost var sent0, read0 := c.sent, c.read;
    var r := Command(c, UpdateOpenLine(uid));
    if !r.Match? {
      return Err(WaitFailure(r));
    }
    if r.index == 1 {
      return Err(Api(UnknownError, "Unknown user: " + uid));
    }
    if r.index != 0 {
      return Err(Api(JasminError, Strip(r.text)));
    }
    res := Updating(c, replicas, body, uid, replicated);
    ghost var u := UpdatingRun(body, uid, replicated, c.script, read0 + 1);
    Chain(c, sent0, read0, CommandRun(UpdateOpenLine(uid), c.script, read0), u);
    assert PartialUpdateRun(uid, body, replicated, c.script, read0).result == u.result;
    assert PartialUpdateRun(uid, body, replicated, c.script, read0).synced == u.synced;
  }

  // ---------------------------------------------------------------------------
  // One-shot actions (simple_user_action)

  datatype Op = Enable | Disable | SmppUnbind | SmppBan

  /** The flag of each action: `user -e`, `user -d`, `user --smpp-unbind`,
      `user --smpp-ban`. */
  function Flag(op: Op): string
  {
    match op
    case Enable => "e"
    case Disable => "d"
    case SmppUnbind => "-smpp-unbind"
    case SmppBan => "-smpp-ban"
  }

  function ActionLine(op: Op, uid: string): string
  {
    "user -" + Flag(op) + " " + uid
  }

  /** What an action answers with: the user after the action, or just its uid. */
  datatype Answer = Shown(user: Record) | Named(uid: string)

  /** One more wait for the ready prompt, then the lookup of the user. */
  function ReshownRun(uid: string, script: seq<Reply>, at: nat): (r: Run<Answer>)
    ensures r.lines == (if ReplyAt(script, at).Match? then [ShowLine(uid)] else []) && !r.synced
    ensures r.result.Ok? ==> ReplyAt(script, at).Match?
    ensures r.result.Ok? ==> r.result.value.Shown?
    ensures r.result.Ok? ==> UserRun(uid, script, at + 1).result == Ok(r.result.value.user)
  {
    var w := Run([], 1, false, Awaited(ReplyAt(script, at)));
    var g := UserRun(uid, script, at + 1);
    AndThen(w, Run(g.lines, g.consumed, false, if g.result.Ok? then Ok(Shown(g.result.value)) else Err(g.result.failure)))
  }

  method Reshown(c: Console, uid: string) returns (res: Result<Answer>)
    modifies c`sent, c`read
    ensures Advanced(old(c.sent), old(c.read), c, ReshownRun(uid, c.script, old(c.read)))
    ensures res == ReshownRun(uid, c.script, old(c.read)).result
  {
    ghost var read0 := c.read;
    var r := c.Expect();
    if !r.Match? {
      assert ReshownRun(uid, c.script, read0).result == Err(WaitFailure(r));
      return Err(WaitFailure(r));
    }
    var u := User(c, uid);
    res := if u.Ok? then Ok(Shown(u.value)) else Err(u.failure);
    ghost var g := UserRun(uid, c.script, read0 + 1);
    assert u == g.result;
    assert ReshownRun(uid, c.script, read0).consumed == 1 + g.consumed;
    assert ReshownRun(uid, c.script, read0).result == res;
  }

  /** What follows persist: by default another wait and the user, otherwise just its
      uid. */
  function AnswerRun(uid: string, returnUser: bool, script: seq<Reply>, at: nat): (r: Run<Answer>)
    ensures !r.synced
    ensures !returnUser ==> r.lines == [] && r.consumed == 0 && r.result == Ok(Named(uid))
  {
    if returnUser then ReshownRun(uid, script, at) else Done(Named(uid))
  }

  method Answered(c: Console, uid: string, returnUser: bool) returns (res: Result<Answer>)
    modifies c`sent, c`read
    ensures Advanced(old(c.sent), old(c.read), c, AnswerRun(uid, returnUser, c.script, old(c.read)))
    ensures res == AnswerRun(uid, returnUser, c.script, old(c.read)).result
  {
    if returnUser {
      res := Reshown(c, uid);
    } else {
      res := Ok(Named(uid));
    }
  }

  /** After a successful action: persist, the fan-out, then the answer. */
  function SucceededRun(uid: string, returnUser: bool, replicated: bool, script: seq<Reply>, at: nat)
    : (r: Run<Answer>)
    ensures r.lines != [] && r.lines[0] == PersistLine
    ensures r.result.Ok? ==> r.synced == replicated
    ensures r.result.Err? ==> r.synced == (replicated && ReplyAt(script, at).Match?)
  {
    AndThen(PersistRun(script, at, replicated), AnswerRun(uid, returnUser, script, at + 1))
  }

  method Succeeded(c: Console, replicas: seq<Console>, uid: string, returnUser: bool, replicated: bool)
    returns (res: Result<Answer>)
    requires c !in replicas
    modifies c`sent, c`read, replicas
    ensures Advanced(old(c.sent), old(c.read), c, SucceededRun(uid, returnUser, replicated, c.script, old(c.read)))
    ensures Fanned(replicas, SucceededRun(uid, returnUser, replicated, c.script, old(c.read)).synced)
    ensures res == SucceededRun(uid, returnUser, replicated, c.script, old(c.read)).result
  {
    var persisted := Persist(c, replicas, replicated);
    if persisted.Err? {
      return Err(persisted.failure);
    }
    res := Answered(c, uid, returnUser);
  }
  /** simple_user_action: the action line, then pattern 0 (success) persists, fans out and
      answers; 1 is an unknown user; anything else is a Jasmin error carrying its
      capture. */
  function ActionRun(op: Op, uid: string, returnUser: bool, replicated: bool, script: seq<Reply>, at: nat)
    : (r: Run<Answer>)
    ensures r.lines != [] && r.lines[0] == ActionLine(op, uid)
    ensures var reply := ReplyAt(script, at); reply.Match? && reply.index == 1 ==>
      r.lines == [ActionLine(op, uid)] && r.result == Err(Api(UnknownError, "No user: " + uid))
    ensures var reply := ReplyAt(script, at); reply.Match? && reply.index >= 2 ==>
      r.lines == [ActionLine(op, uid)] && r.result == Err(Api(JasminError, ErrorText(reply.text)))
    ensures var reply := ReplyAt(script, at); reply.Match? && reply.index == 0 ==>
      |r.lines| >= 2 && r.lines[1] == PersistLine
  {
    AndThen(CommandRun(ActionLine(op, uid), script, at),
            ActedRun(ReplyAt(script, at), uid, returnUser, replicated, script, at + 1))
  }

  /** What the answer to the action line leads to. */
  function ActedRun(reply: Reply, uid: string, returnUser: bool, replicated: bool, script: seq<Reply>, at: nat)
    : (r: Run<Answer>)
  {
    match reply
    case Match(i, t) =>
      if i == 0 then SucceededRun(uid, returnUser, replicated, script, at)
      else if i == 1 then Failed([], 0, Api(UnknownError, "No user: " + uid))
      else Failed([], 0, Api(JasminError, ErrorText(t)))
    case _ => Failed([], 0, WaitFailure(reply))
  }

  method Acted(c: Console, replicas: seq<Console>, reply: Reply, uid: string, returnUser: bool, replicated: bool)
    returns (res: Result<Answer>)
    requires c !in replicas
    modifies c`sent, c`read, replicas
    ensures Advanced(old(c.sent), old(c.read), c, ActedRun(reply, uid, returnUser, replicated, c.script, old(c.read)))
    ensures Fanned(replicas, ActedRun(reply, uid, returnUser, replicated, c.script, old(c.read)).synced)
    ensures res == ActedRun(reply, uid, returnUser, replicated, c.script, old(c.read)).result
  {
    if !reply.Match? {
      return Err(WaitFailure(reply));
    }
    if reply.index == 0 {
      res := Succeeded(c, replicas, uid, returnUser, replicated);
    } else if reply.index == 1 {
      res := Err(Api(UnknownError, "No user: " + uid));
    } else {
      res := Err(Api(JasminError, ErrorText(reply.text)));
    }
  }

  /** An action that completes succeeded on the primary and persisted; by default it
      answers with what `user -s <uid>` shows after one more wait, otherwise with the uid;
      the configuration was fanned out when asked to be. */
  lemma {:induction false} ActionAnswers(op: Op, uid: string, returnUser: bool, replicated: bool,
                                         script: seq<Reply>, at: nat)
    requires ActionRun(op, uid, returnUser, replicated, script, at).result.Ok?
    ensures ReplyAt(script, at).Match? && ReplyAt(script, at).index == 0
    ensures ActionRun(op, uid, returnUser, replicated, script, at).synced == replicated
    ensures var r := ActionRun(op, uid, returnUser, replicated, script, at);
      if returnUser then
        r.lines == [ActionLine(op, uid), PersistLine, ShowLine(uid)] && r.result.value.Shown? &&
        UserRun(uid, script, at + 3).result == Ok(r.result.value.user)
      else r.lines == [ActionLine(op, uid), PersistLine] && r.result.value == Named(uid)
  {
    var reply := ReplyAt(script, at);
    assert reply.Match? && reply.index == 0;
    var p := PersistRun(script, at + 1, replicated);
    assert p.result.Ok?;
  }

  method Action(c: Console, replicas: seq<Console>, op: Op, uid: string, returnUser: bool, replicated: bool)
    returns (res: Result<Answer>)
    requires c !in replicas
    modifies c`sent, c`read, replicas
    ensures Advanced(old(c.sent), old(c.read), c, ActionRun(op, uid, returnUser, replicated, c.script, old(c.read)))
    ensures Fanned(replicas, ActionRun(op, uid, returnUser, replicated, c.script, old(c.read)).synced)
    ensures res == ActionRun(op, uid, returnUser, replicated, c.script, old(c.read)).result
  {
    ghost var sent0, read0 := c.sent, c.read;
    var r := Command(c, ActionLine(op, uid));
    res := Acted(c, replicas, r, uid, returnUser, replicated);
    ghost var a := ActedRun(r, uid, returnUser, replicated, c.script, read0 + 1);
    Chain(c, sent0, read0, CommandRun(ActionLine(op, uid), c.script, read0), a);
    assert ActionRun(op, uid, returnUser, replicated, c.script, read0).result == a.result;
    assert ActionRun(op, uid, returnUser, replicated, c.script, read0).synced == a.synced;
  }
}
