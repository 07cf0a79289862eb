/** The session middleware: for every request under /api/ it logs in to one console per
    Jasmin instance the deployment has (a list of Docker ports, the Kubernetes pods, or a
    single host), keeps the first as the primary and the others as replicas, and says
    `quit` to all of them once the response is ready. */
module Middleware {
  import opened Text
  import opened Exceptions
  import opened Session

  const ApiPrefix := "/api/"
  const QuitLine := "quit"

  const PodsUnavailable := "Failed to list pods from Kubernetes."
  const NoPods := "No Jasmin pods found in Kubernetes."

  /** The settings the middleware reads: JASMIN_DOCKER, JASMIN_K8S, TELNET_HOST,
      TELNET_PORT, JASMIN_DOCKER_PORTS, TELNET_USERNAME and TELNET_PW. */
  datatype Settings = Settings(docker: bool, k8s: bool, host: string, port: int, dockerPorts: seq<int>,
                               user: string, password: string)

  datatype Mode = Docker | Kubernetes | Single

  /** The deployment: Docker wins over Kubernetes, which wins over a single host. */
  function ModeOf(s: Settings): (m: Mode)
    ensures m == Docker <==> s.docker
    ensures m == Kubernetes <==> !s.docker && s.k8s
    ensures m == Single <==> !s.docker && !s.k8s
  {
    if s.docker then Docker else if s.k8s then Kubernetes else Single
  }

  // ---------------------------------------------------------------------------
  // set_telnet_list

  /** A pod as the Kubernetes API describes it: whether it has a status, and the pod IP
      of that status ("" when it has none). */
  datatype Pod = Pod(hasStatus: bool, podIp: string)

  /** What asking Kubernetes for the pods labelled "jasmin" gives: the pods, or an
      exception of the API client. */
  datatype PodListing = Listed(pods: seq<Pod>) | ApiException

  /** A pod with a status and a non-empty IP. */
  predicate Reachable(p: Pod)
  {
    p.hasStatus && p.podIp != ""
  }

  /** The IPs of the reachable pods, in the order of the listing. */
  function PodIps(pods: seq<Pod>): (ips: seq<string>)
    ensures |ips| <= |pods|
  {
    if pods == [] then []
    else (if Reachable(pods[0]) then [pods[0].podIp] else []) + PodIps(pods[1..])
  }

  /** An IP is kept exactly when some reachable pod has it. */
  lemma {:induction false} PodIpsMembers(pods: seq<Pod>, ip: string)
    ensures ip in PodIps(pods) <==> exists i :: 0 <= i < |pods| && Reachable(pods[i]) && pods[i].podIp == ip
  {
    if pods != [] {
      PodIpsMembers(pods[1..], ip);
      if ip in PodIps(pods[1..]) {
        var i :| 0 <= i < |pods[1..]| && Reachable(pods[1..][i]) && pods[1..][i].podIp == ip;
        assert pods[i + 1] == pods[1..][i];
      }
      if exists i :: 0 <= i < |pods| && Reachable(pods[i]) && pods[i].podIp == ip {
        var i :| 0 <= i < |pods| && Reachable(pods[i]) && pods[i].podIp == ip;
        if i > 0 {
          assert pods[1..][i - 1] == pods[i];
        }
      }
    }
  }

  /** Filtering keeps the order of the listing: the IPs of two listings one after the
      other are the IPs of the first followed by those of the second. */
  lemma {:induction false} PodIpsAppend(a: seq<Pod>, b: seq<Pod>)
    ensures PodIps(a + b) == PodIps(a) + PodIps(b)
  {
    if a != [] {
      assert (a + b)[0] == a[0];
      assert (a + b)[1..] == a[1..] + b;
      PodIpsAppend(a[1..], b);
      var head := if Reachable(a[0]) then [a[0].podIp] else [];
      assert PodIps(a + b) == head + (PodIps(a[1..]) + PodIps(b));
      assert PodIps(a) == head + PodIps(a[1..]);
      assert head + (PodIps(a[1..]) + PodIps(b)) == (head + PodIps(a[1..])) + PodIps(b);
    } else {
      assert a + b == b;
    }
  }

  /** The pod IPs the Kubernetes deployment logs in to: an API exception is an unexpected
      response, and a listing without a reachable pod a failed login. */
  function SetTelnetList(listing: PodListing): (r: Result<seq<string>>)
    ensures listing.ApiException? ==> r == Err(Api(TelnetUnexpectedResponse, PodsUnavailable))
    ensures listing.Listed? && PodIps(listing.pods) == [] ==> r == Err(Api(TelnetLoginFailed, NoPods))
    ensures r.Ok? ==> listing.Listed? && r.value != [] && r.value == PodIps(listing.pods)
  {
    match listing
    case ApiException => Err(Api(TelnetUnexpectedResponse, PodsUnavailable))
    case Listed(pods) =>
      var ips := PodIps(pods);
      if ips == [] then Err(Api(TelnetLoginFailed, NoPods)) else Ok(ips)
  }

  // ---------------------------------------------------------------------------
  // The endpoints of each deployment

  /** One endpoint per port of the host, in order. */
  function AtPorts(host: string, ports: seq<int>): (es: seq<Endpoint>)
    ensures |es| == |ports| && forall i :: 0 <= i < |ports| ==> es[i] == Endpoint(host, ports[i])
  {
    if ports == [] then [] else [Endpoint(host, ports[0])] + AtPorts(host, ports[1..])
  }

  /** One endpoint per host on the port, in order. */
  function AtHosts(hosts: seq<string>, port: int): (es: seq<Endpoint>)
    ensures |es| == |hosts| && forall i :: 0 <= i < |hosts| ==> es[i] == Endpoint(hosts[i], port)
  {
    if hosts == [] then [] else [Endpoint(hosts[0], port)] + AtHosts(hosts[1..], port)
  }

  /** The endpoints a deployment logs in to, in order, or why there are none: Docker uses
      TELNET_HOST on every JASMIN_DOCKER_PORTS entry, Kubernetes every reachable pod on
      TELNET_PORT, and a single host TELNET_HOST on TELNET_PORT. */
  function Targets(s: Settings, listing: PodListing): (r: Result<seq<Endpoint>>)
    ensures ModeOf(s) == Docker ==> r == Ok(AtPorts(s.host, s.dockerPorts))
    ensures ModeOf(s) == Kubernetes ==> (r.Ok? <==> SetTelnetList(listing).Ok?)
    ensures ModeOf(s) == Kubernetes && r.Ok? ==> r.value == AtHosts(SetTelnetList(listing).value, s.port)
    ensures ModeOf(s) == Kubernetes && r.Err? ==> r.failure == SetTelnetList(listing).failure
    ensures ModeOf(s) == Single ==> r == Ok([Endpoint(s.host, s.port)])
  {
    match ModeOf(s)
    case Docker => Ok(AtPorts(s.host, s.dockerPorts))
    case Kubernetes =>
      var ips := SetTelnetList(listing);
      if ips.Err? then Err(ips.failure) else Ok(AtHosts(ips.value, s.port))
    case Single => Ok([Endpoint(s.host, s.port)])
  }

  /** The pod listing matters only to Kubernetes: with Docker on, its ports are used
      whatever the listing and whether or not JASMIN_K8S is set. */
  lemma DockerFirst(s: Settings, l1: PodListing, l2: PodListing)
    requires s.docker
    ensures Targets(s, l1) == Targets(s, l2) == Targets(s.(k8s := !s.k8s), l1)
  {
  }

  // ---------------------------------------------------------------------------
  // telnet_request: the login cues

  /** A login wait that saw neither cue: EOF is an unexpected response, a timeout a
      connection timeout. */
  function LoginFailure(r: Reply): (f: Failure)
    requires !r.Match?
    ensures r.Eof? ==> f == Raise(TelnetUnexpectedResponse)
    ensures r.Timeout? ==> f == Raise(TelnetConnectionTimeout)
  {
    if r.Eof? then Raise(TelnetUnexpectedResponse) else Raise(TelnetConnectionTimeout)
  }

  /** On a freshly spawned console: await "Username: ", send the user, await
      "Password: ", send the password. */
  function LoginRun(user: string, password: string, script: seq<Reply>): (r: Run<()>)
    ensures !r.synced
    ensures r.result.Ok? <==> ReplyAt(script, 0).Match? && ReplyAt(script, 1).Match?
    ensures r.result.Ok? ==> r.lines == [user, password] && r.consumed == 2
    ensures !ReplyAt(script, 0).Match? ==>
      r.lines == [] && r.consumed == 1 && r.result == Err(LoginFailure(ReplyAt(script, 0)))
    ensures ReplyAt(script, 0).Match? && !ReplyAt(script, 1).Match? ==>
      r.lines == [user] && r.consumed == 2 && r.result == Err(LoginFailure(ReplyAt(script, 1)))
  {
    var first := ReplyAt(script, 0);
    if !first.Match? then Run([], 1, false, Err(LoginFailure(first)))
    else
      var second := ReplyAt(script, 1);
      if !second.Match? then Run([user], 2, false, Err(LoginFailure(second)))
      else Run([user, password], 2, false, Ok(()))
  }

  /** The ready-prompt wait after the login: EOF is a failed login; a timeout is not
      caught and escapes as pexpect's TIMEOUT. */
  function ReadyRun(script: seq<Reply>, at: nat): (r: Run<()>)
    ensures r.lines == [] && r.consumed == 1 && !r.synced
    ensures r.result.Ok? <==> ReplyAt(script, at).Match?
    ensures ReplyAt(script, at).Eof? ==> r.result == Err(Raise(TelnetLoginFailed))
    ensures ReplyAt(script, at).Timeout? ==> r.result == Err(PexpectTimeout)
  {
    var reply := ReplyAt(script, at);
    Run([], 1, false,
        match reply
        case Match(_, _) => Ok(())
        case Eof => Err(Raise(TelnetLoginFailed))
        case Timeout => Err(PexpectTimeout))
  }

  /** One endpoint's session: the login, then the ready prompt. */
  function OpenRun(user: string, password: string, script: seq<Reply>): (r: Run<()>)
  {
    var login := LoginRun(user, password, script);
    AndThen(login, ReadyRun(script, login.consumed))
  }

  /** A session opens exactly when all three waits see their cue; it has then sent the
      user and the password and nothing else. */
  lemma OpenAnswers(user: string, password: string, script: seq<Reply>)
    ensures OpenRun(user, password, script).result.Ok? <==>
      ReplyAt(script, 0).Match? && ReplyAt(script, 1).Match? && ReplyAt(script, 2).Match?
    ensures OpenRun(user, password, script).result.Ok? ==>
      OpenRun(user, password, script).lines == [user, password] && OpenRun(user, password, script).consumed == 3
  {
  }

  /** Which failure a session that does not open raises: the login's when a cue is
      missing, otherwise a failed login on EOF at the ready prompt and pexpect's TIMEOUT
      when the prompt never comes. */
  lemma {:induction false} OpenFailures(user: string, password: string, script: seq<Reply>)
    requires OpenRun(user, password, script).result.Err?
    ensures var f := OpenRun(user, password, script).result.failure;
      if !ReplyAt(script, 0).Match? then f == LoginFailure(ReplyAt(script, 0))
      else if !ReplyAt(script, 1).Match? then f == LoginFailure(ReplyAt(script, 1))
      else if ReplyAt(script, 2).Eof? then f == Raise(TelnetLoginFailed)
      else f == PexpectTimeout
  {
    var login := LoginRun(user, password, script);
    if login.result.Ok? {
      assert login.consumed == 2;
    }
  }

  /** telnet_request: spawn the console of the endpoint and log in. */
  method TelnetRequest(e: Endpoint, user: string, password: string, script: seq<Reply>)
    returns (c: Console, res: Result<()>)
    ensures fresh(c) && c.endpoint == e && c.script == script && !c.killed
    ensures c.sent == LoginRun(user, password, script).lines && c.read == LoginRun(user, password, script).consumed
    ensures res == LoginRun(user, password, script).result
  {
    c := new Console.Spawn(e, script);
    var first := c.Expect();
    if !first.Match? {
      return c, Err(LoginFailure(first));
    }
    c.SendLine(user);
    var second := c.Expect();
    if !second.Match? {
      return c, Err(LoginFailure(second));
    }
    c.SendLine(password);
    res := Ok(());
  }

  /** telnet_request followed by the ready-prompt wait of process_request. */
  method Open(e: Endpoint, user: string, password: string, script: seq<Reply>)
    returns (c: Console, res: Result<()>)
    ensures fresh(c) && c.endpoint == e && c.script == script && !c.killed
    ensures c.sent == OpenRun(user, password, script).lines && c.read == OpenRun(user, password, script).consumed
    ensures res == OpenRun(user, password, script).result
  {
    var login;
    c, login := TelnetRequest(e, user, password, script);
    if login.Err? {
      return c, login;
    }
    var ready := c.Expect();
    res := match ready
      case Match(_, _) => Ok(())
      case Eof => Err(Raise(TelnetLoginFailed))
      case Timeout => Err(PexpectTimeout);
  }

  // ---------------------------------------------------------------------------
  // The pool of sessions

  /** What opening a session on each endpoint in turn gives, for a remote side that
      answers an endpoint with `remote(e)`. */
  function Openings(eps: seq<Endpoint>, remote: Endpoint -> seq<Reply>, user: string, password: string)
    : (os: seq<Result<()>>)
    ensures |os| == |eps|
  {
    if eps == [] then []
    else Openings(eps[..|eps| - 1], remote, user, password) + [OpenRun(user, password, remote(eps[|eps| - 1])).result]
  }

  lemma {:induction false} OpeningsAt(eps: seq<Endpoint>, remote: Endpoint -> seq<Reply>, user: string, password: string, i: nat)
    requires i < |eps|
    ensures Openings(eps, remote, user, password)[i] == OpenRun(user, password, remote(eps[i])).result
  {
    if i < |eps| - 1 {
      OpeningsAt(eps[..|eps| - 1], remote, user, password, i);
    }
  }

  /** The first failure among the outcomes, or success when there is none. */
  function Foremost(os: seq<Result<()>>): (r: Result<()>)
    ensures r.Ok? <==> forall i :: 0 <= i < |os| ==> os[i].Ok?
    ensures r.Ok? ==> r == Ok(())
  {
    if os == [] then Ok(())
    else if os[0].Err? then os[0]
    else Foremost(os[1..])
  }

  lemma {:induction false} ForemostFirst(os: seq<Result<()>>, i: nat)
    requires i < |os| && os[i].Err?
    requires forall j :: 0 <= j < i ==> os[j].Ok?
    ensures Foremost(os) == os[i]
  {
    if i > 0 {
      ForemostFirst(os[1..], i - 1);
    }
  }

  /** The verdict on a pool: no endpoint at all is a failed login; otherwise the first
      endpoint that does not open decides, and the pool stands when every one opens. */
  function PoolOf(os: seq<Result<()>>): (r: Result<()>)
    ensures r.Ok? <==> os != [] && forall i :: 0 <= i < |os| ==> os[i].Ok?
    ensures os == [] ==> r == Err(Raise(TelnetLoginFailed))
  {
    if os == [] then Err(Raise(TelnetLoginFailed)) else Foremost(os)
  }

  /** A session that logged in to `e` and saw the ready prompt. */
  predicate Opened(c: Console, e: Endpoint, remote: Endpoint -> seq<Reply>, user: string, password: string)
    reads c
  {
    c.endpoint == e && c.script == remote(e) && c.sent == [user, password] && c.read == 3 && !c.killed
  }

  class Request {
    const path: string
    /** The primary session (null before the middleware ran, or outside /api/). */
    var telnet: Console?
    /** The replicas; meaningful only when `hasTelnetList` (Docker and Kubernetes). */
    var telnetList: seq<Console>
    var hasTelnetList: bool

    constructor (path: string)
      ensures this.path == path && telnet == null && telnetList == [] && !hasTelnetList
    {
      this.path := path;
      telnet := null;
      telnetList := [];
      hasTelnetList := false;
    }

    /** No session is both primary and replica, and no replica is listed twice. */
    predicate Valid()
      reads this
    {
      hasTelnetList ==> Distinct(telnetList) && (telnet != null ==> telnet !in telnetList)
    }
  }

  /** The pool of the request is the endpoints' sessions: the first is the primary, the
      others the replicas in order. */
  predicate Pooled(req: Request, eps: seq<Endpoint>, remote: Endpoint -> seq<Reply>, user: string, password: string)
    reads req, req.telnet, req.telnetList
  {
    |eps| >= 1 && req.telnet != null && Opened(req.telnet, eps[0], remote, user, password) &&
    |req.telnetList| == |eps| - 1 &&
    forall j :: 0 <= j < |req.telnetList| ==> Opened(req.telnetList[j], eps[j + 1], remote, user, password)
  }

  /** The login loop of Docker and Kubernetes: open a session on every endpoint in order;
      the first becomes the primary and the others are appended to the replicas; a
      session that does not open aborts the request. */
  method Connect(req: Request, eps: seq<Endpoint>, remote: Endpoint -> seq<Reply>, user: string, password: string)
    returns (res: Result<()>)
    requires req.telnet == null && req.telnetList == [] && req.hasTelnetList
    modifies req`telnet, req`telnetList
    ensures res == PoolOf(Openings(eps, remote, user, password))
    ensures res.Ok? ==> req.Valid() && Pooled(req, eps, remote, user, password)
  {
    ghost var os := Openings(eps, remote, user, password);
    for i := 0 to |eps|
      invariant forall j :: 0 <= j < i ==> os[j].Ok?
      invariant i == 0 ==> req.telnet == null && req.telnetList == []
      invariant i > 0 ==> req.telnet != null && Opened(req.telnet, eps[0], remote, user, password)
      invariant i > 0 ==> |req.telnetList| == i - 1 && forall j :: 0 <= j < i - 1 ==>
        Opened(req.telnetList[j], eps[j + 1], remote, user, password)
      invariant req.Valid()
    {
      var c, one := Open(eps[i], user, password, remote(eps[i]));
      OpeningsAt(eps, remote, user, password, i);
      if one.Err? {
        ForemostFirst(os, i);
        return one;
      }
      OpenAnswers(user, password, remote(eps[i]));
      if req.telnet == null {
        req.telnet := c;
      } else {
        req.telnetList := req.telnetList + [c];
      }
    }
    if req.telnet == null {
      return Err(Raise(TelnetLoginFailed));
    }
    res := Ok(());
  }

  /** The verdict of process_request on an /api/ path. */
  function Outcome(s: Settings, listing: PodListing, remote: Endpoint -> seq<Reply>): (r: Result<()>)
  {
    var t := Targets(s, listing);
    if t.Err? then Err(t.failure) else PoolOf(Openings(t.value, remote, s.user, s.password))
  }

  /** An /api/ request succeeds exactly when the deployment has endpoints and every one of
      them opens; with Docker on the pod listing plays no part. */
  lemma OutcomeOk(s: Settings, listing: PodListing, remote: Endpoint -> seq<Reply>)
    ensures Outcome(s, listing, remote).Ok? <==>
      Targets(s, listing).Ok? && Targets(s, listing).value != [] &&
      forall i :: 0 <= i < |Targets(s, listing).value| ==> OpenRun(s.user, s.password, remote(Targets(s, listing).value[i])).result.Ok?
  {
    var t := Targets(s, listing);
    if t.Ok? {
      forall i | 0 <= i < |t.value| {
        OpeningsAt(t.value, remote, s.user, s.password, i);
      }
    }
  }

  /** Docker without ports, and Kubernetes without a reachable pod, are failed logins. */
  lemma NoEndpoints(s: Settings, listing: PodListing, remote: Endpoint -> seq<Reply>)
    requires (s.docker && s.dockerPorts == []) ||
             (!s.docker && s.k8s && listing.Listed? && PodIps(listing.pods) == [])
    ensures Outcome(s, listing, remote) == Err(Raise(TelnetLoginFailed)) ||
            Outcome(s, listing, remote) == Err(Api(TelnetLoginFailed, NoPods))
    ensures Outcome(s, listing, remote).Err? && Outcome(s, listing, remote).failure.Api? &&
            Outcome(s, listing, remote).failure.kind == TelnetLoginFailed
  {
  }

  /** process_request: outside /api/ nothing happens; otherwise the sessions of the
      deployment are opened and attached to the request. The request is one the
      middleware has not seen yet, so it has no replica list. */
  method ProcessRequest(req: Request, s: Settings, listing: PodListing, remote: Endpoint -> seq<Reply>)
    returns (res: Result<()>)
    requires !req.hasTelnetList
    modifies req
    ensures !StartsWith(req.path, ApiPrefix) ==> res == Ok(()) && unchanged(req)
    ensures StartsWith(req.path, ApiPrefix) ==> res == Outcome(s, listing, remote)
    ensures StartsWith(req.path, ApiPrefix) ==> req.hasTelnetList == (ModeOf(s) != Single)
    ensures StartsWith(req.path, ApiPrefix) && res.Ok? ==> req.Valid() && req.telnet != null
    ensures StartsWith(req.path, ApiPrefix) && res.Ok? && ModeOf(s) != Single ==>
      Pooled(req, Targets(s, listing).value, remote, s.user, s.password)
    ensures StartsWith(req.path, ApiPrefix) && res.Ok? && ModeOf(s) == Single ==>
      Opened(req.telnet, Endpoint(s.host, s.port), remote, s.user, s.password)
  {
    if !StartsWith(req.path, ApiPrefix) {
      return Ok(());
    }
    req.telnet := null;
    var mode := ModeOf(s);
    if mode != Single {
      req.telnetList := [];
      req.hasTelnetList := true;
      var t := Targets(s, listing);
      if t.Err? {
        return Err(t.failure);
      }
      res := Connect(req, t.value, remote, s.user, s.password);
      return;
    }
    var e := Endpoint(s.host, s.port);
    var c, one := Open(e, s.user, s.password, remote(e));
    OpeningsAt([e], remote, s.user, s.password, 0);
    if one.Err? {
      return one;
    }
    OpenAnswers(s.user, s.password, remote(e));
    req.telnet := c;
    res := Ok(());
  }

  // ---------------------------------------------------------------------------
  // process_response

  /** A session was told `quit`, waited on once, and killed when that wait failed. */
  twostate predicate Quitted(c: Console)
    reads c
  {
    c.sent == old(c.sent) + [QuitLine] && c.read == old(c.read) + 1 &&
    c.killed == (old(c.killed) || !ReplyAt(c.script, old(c.read)).Match?)
  }

  /** A session nothing happened to. */
  twostate predicate Untouched(c: Console)
    reads c
  {
    c.sent == old(c.sent) && c.read == old(c.read) && c.killed == old(c.killed)
  }

  method Quit(c: Console)
    modifies c`sent, c`read, c`killed
    ensures Quitted(c)
  {
    c.SendLine(QuitLine);
    var r := c.Expect();
    if !r.Match? {
      c.Kill();
    }
  }

  /** Say `quit` to every replica, in order. */
  method QuitAll(sessions: seq<Console>)
    requires Distinct(sessions)
    modifies sessions
    ensures forall j :: 0 <= j < |sessions| ==> Quitted(sessions[j])
  {
    for i := 0 to |sessions|
      invariant forall j :: 0 <= j < i ==> Quitted(sessions[j])
      invariant forall j :: i <= j < |sessions| ==> Untouched(sessions[j])
    {
      DistinctApart(sessions, i);
      Quit(sessions[i]);
    }
  }

  /** process_response: `quit` to the primary and then to each replica, killing a session
      whose wait fails; the response goes out unchanged. */
  method ProcessResponse<R>(req: Request, response: R) returns (out: R)
    requires req.Valid()
    modifies req.telnet, req.telnetList
    ensures out == response
    ensures req.telnet != null ==> Quitted(req.telnet)
    ensures req.hasTelnetList ==> forall j :: 0 <= j < |req.telnetList| ==> Quitted(req.telnetList[j])
    ensures !req.hasTelnetList ==> forall j :: 0 <= j < |req.telnetList| ==>
      Untouched(req.telnetList[j]) || req.telnetList[j] == req.telnet
  {
    if req.telnet != null {
      Quit(req.telnet);
    }
    if req.hasTelnetList {
      QuitAll(req.telnetList);
    }
    out := response;
  }
}
