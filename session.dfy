/** The console session: one telnet connection to a Jasmin command-line interface (jcli),
    driven line by line. The remote side is a scripted sequence of replies, one per wait. */
module Session {
  import opened Exceptions

  /** The ready prompt and the interactive prompt of the console. */
  const StandardPrompt := "jcli : "
  const InteractivePrompt := "> "

  datatype Endpoint = Endpoint(host: string, port: int)

  /** What one wait on the console yields: the index of the first pattern that matched
      together with the text of the capture group the caller reads, or the end of the
      stream, or the wait running out of time. */
  datatype Reply = Match(index: nat, text: string) | Eof | Timeout

  /** The i-th reply of a script; a console that has nothing more to say times out. */
  function ReplyAt(script: seq<Reply>, i: nat): Reply
  {
    if i < |script| then script[i] else Timeout
  }

  /** The pexpect exception a wait that matched nothing raises. */
  function WaitFailure(r: Reply): (f: Failure)
    requires !r.Match?
    ensures f == PexpectEof || f == PexpectTimeout
  {
    if r.Eof? then PexpectEof else PexpectTimeout
  }

  /** A wait whose matched pattern is not inspected: any match lets the dialogue go on. */
  function Awaited(r: Reply): (res: Result<()>)
    ensures res.Ok? <==> r.Match?
  {
    if r.Match? then Ok(()) else Err(WaitFailure(r))
  }

  class Console {
    const endpoint: Endpoint
    /** Every reply the remote side will give, in order. */
    const script: seq<Reply>
    /** Every line sent so far, as passed to sendline. */
    var sent: seq<string>
    /** How many replies have been waited for. */
    var read: nat
    var killed: bool

    /** Open a connection: `pexpect.spawn("telnet host port")`. */
    constructor Spawn(endpoint: Endpoint, script: seq<Reply>)
      ensures this.endpoint == endpoint && this.script == script
      ensures sent == [] && read == 0 && !killed
    {
      this.endpoint := endpoint;
      this.script := script;
      sent := [];
      read := 0;
      killed := false;
    }

    method SendLine(line: string)
      modifies this`sent
      ensures sent == old(sent) + [line]
    {
      sent := sent + [line];
    }

    /** Wait for the next reply. */
    method Expect() returns (r: Reply)
      modifies this`read
      ensures r == ReplyAt(script, old(read)) && read == old(read) + 1
    {
      r := ReplyAt(script, read);
      read := read + 1;
    }

    method Kill()
      modifies this`killed
      ensures killed
    {
      killed := true;
    }
  }

  /** The effect of a dialogue on the primary console: the lines it sends, the number of
      replies it waits for, whether it fanned the configuration out to the replicas, and
      what it returns or raises. */
  datatype Run<+T> = Run(lines: seq<string>, consumed: nat, synced: bool, result: Result<T>)

  /** A dialogue that failed after sending `lines` and waiting `consumed` times. */
  function Failed<T>(lines: seq<string>, consumed: nat, f: Failure): (r: Run<T>)
    ensures r.result.Err? && !r.synced
  {
    Run(lines, consumed, false, Err(f))
  }

  /** Run `a`, which succeeded, then `b`. */
  function Then<U, T>(a: Run<U>, b: Run<T>): (r: Run<T>)
    requires a.result.Ok?
    ensures r.lines == a.lines + b.lines && r.consumed == a.consumed + b.consumed
    ensures r.synced == (a.synced || b.synced) && r.result == b.result
  {
    Run(a.lines + b.lines, a.consumed + b.consumed, a.synced || b.synced, b.result)
  }

  /** Run `a`, which failed: its failure ends the dialogue. */
  function Stop<U, T>(a: Run<U>): (r: Run<T>)
    requires a.result.Err?
    ensures r.lines == a.lines && r.consumed == a.consumed && r.synced == a.synced
    ensures r.result == Err(a.result.failure)
  {
    Run(a.lines, a.consumed, a.synced, Err(a.result.failure))
  }

  /** Run `a`, then `b` when `a` succeeded: a failure ends the dialogue. */
  function AndThen<U, T>(a: Run<U>, b: Run<T>): (r: Run<T>)
    ensures a.result.Err? ==> r.lines == a.lines && r.consumed == a.consumed &&
                              r.synced == a.synced && r.result == Err(a.result.failure)
    ensures a.result.Ok? ==> r.lines == a.lines + b.lines && r.consumed == a.consumed + b.consumed &&
                             r.synced == (a.synced || b.synced) && r.result == b.result
  {
    if a.result.Err? then Stop(a) else Then(a, b)
  }

  /** The console moved on from `sent0` lines sent and `read0` replies read exactly as
      `r` says. */
  predicate Advanced<T>(sent0: seq<string>, read0: nat, c: Console, r: Run<T>)
    reads c
  {
    c.sent == sent0 + r.lines && c.read == read0 + r.consumed
  }

  /** A console that moved on by `a` and then by `b` moved on by their sequence. */
  lemma Chain<U, T>(c: Console, sent0: seq<string>, read0: nat, a: Run<U>, b: Run<T>)
    requires a.result.Ok?
    requires Advanced(sent0 + a.lines, read0 + a.consumed, c, b)
    ensures Advanced(sent0, read0, c, AndThen(a, b))
  {
    assert sent0 + a.lines + b.lines == sent0 + (a.lines + b.lines);
  }

  /** Send one line and wait for the reply (a single-shot command). */
  function CommandRun(line: string, script: seq<Reply>, at: nat): (r: Run<Reply>)
    ensures r.lines == [line] && r.consumed == 1 && !r.synced
    ensures r.result == Ok(ReplyAt(script, at))
  {
    Run([line], 1, false, Ok(ReplyAt(script, at)))
  }

  method Command(c: Console, line: string) returns (r: Reply)
    modifies c`sent, c`read
    ensures Advanced(old(c.sent), old(c.read), c, CommandRun(line, c.script, old(c.read)))
    ensures Ok(r) == CommandRun(line, c.script, old(c.read)).result
  {
    c.SendLine(line);
    r := c.Expect();
  }

  /** Send one line and wait for any reply, failing only when the wait does. */
  function StepRun(line: string, script: seq<Reply>, at: nat): (r: Run<()>)
    ensures r.lines == [line] && r.consumed == 1 && !r.synced
    ensures r.result.Ok? <==> ReplyAt(script, at).Match?
  {
    Run([line], 1, false, Awaited(ReplyAt(script, at)))
  }

  method Step(c: Console, line: string) returns (res: Result<()>)
    modifies c`sent, c`read
    ensures Advanced(old(c.sent), old(c.read), c, StepRun(line, c.script, old(c.read)))
    ensures res == StepRun(line, c.script, old(c.read)).result
  {
    c.SendLine(line);
    var r := c.Expect();
    res := Awaited(r);
  }

  /** No console appears twice. */
  predicate Distinct(sessions: seq<Console>)
  {
    sessions == [] || (sessions[|sessions| - 1] !in sessions[..|sessions| - 1] && Distinct(sessions[..|sessions| - 1]))
  }

  /** In a list without repetitions, each console differs from every other one. */
  lemma {:induction false} DistinctApart(sessions: seq<Console>, i: nat)
    requires Distinct(sessions) && i < |sessions|
    ensures forall j :: 0 <= j < |sessions| && j != i ==> sessions[j] != sessions[i]
  {
    var n := |sessions| - 1;
    var init := sessions[..n];
    if i < n {
      DistinctApart(init, i);
      assert forall j :: 0 <= j < n ==> init[j] == sessions[j];
      assert sessions[i] in init;
    } else {
      assert forall j :: 0 <= j < n ==> sessions[j] in init;
    }
  }
}
