/** The syncer: its configuration defaults, the request it sends, the rules
    that turn a response into a document or an error, and the snapshot it
    publishes at start-up and on every tick of its background loop. */
module Sync {
  import opened Wrappers
  import opened RegistryTypes
  import opened Registry

  /** Durations are counted in nanoseconds, as Go's time.Duration is. */
  const Second: int := 1_000_000_000

  const DefaultPath := "claims/registry.yaml"
  const DefaultBranch := "main"
  const DefaultInterval: int := 60 * Second
  const DefaultBaseURL := "https://raw.githubusercontent.com"

  /** The only status a fetch accepts. */
  const StatusOK := 200

  /** Where the registry file lives and how often to poll it. */
  datatype Config = Config(
    repo: string,
    path: string,
    branch: string,
    token: string,
    interval: int,
    baseURL: string)

  /** The configuration NewSyncer keeps: every unset field takes its
      default, every set field is kept. An empty repo is not rejected, and
      only a zero interval is replaced (a negative one stays). */
  function WithDefaults(cfg: Config): (c: Config)
    ensures c.repo == cfg.repo && c.token == cfg.token
    ensures c.path != "" && c.branch != "" && c.interval != 0 && c.baseURL != ""
    ensures cfg.path != "" ==> c.path == cfg.path
    ensures cfg.branch != "" ==> c.branch == cfg.branch
    ensures cfg.interval != 0 ==> c.interval == cfg.interval
    ensures cfg.baseURL != "" ==> c.baseURL == cfg.baseURL
    ensures cfg.path == "" ==> c.path == DefaultPath
    ensures cfg.branch == "" ==> c.branch == DefaultBranch
    ensures cfg.interval == 0 ==> c.interval == DefaultInterval
    ensures cfg.baseURL == "" ==> c.baseURL == DefaultBaseURL
  {
    Config(
      cfg.repo,
      if cfg.path == "" then DefaultPath else cfg.path,
      if cfg.branch == "" then DefaultBranch else cfg.branch,
      cfg.token,
      if cfg.interval == 0 then DefaultInterval else cfg.interval,
      if cfg.baseURL == "" then DefaultBaseURL else cfg.baseURL)
  }

  /** Filling in defaults a second time changes nothing. */
  lemma {:induction false} WithDefaultsIdempotent(cfg: Config)
    ensures WithDefaults(WithDefaults(cfg)) == WithDefaults(cfg)
  {
    var c := WithDefaults(cfg);
    assert c.path != "" && c.branch != "" && c.interval != 0 && c.baseURL != "";
  }

  /** The raw-content address of the registry file: base, repository,
      branch and path joined by single slashes. */
  function RawURL(cfg: Config): (u: string)
    ensures |u| == |cfg.baseURL| + |cfg.repo| + |cfg.branch| + |cfg.path| + 3
    ensures u[..|cfg.baseURL| + 1] == cfg.baseURL + "/"
    ensures u[|cfg.baseURL| + 1..|cfg.baseURL| + 1 + |cfg.repo| + 1] == cfg.repo + "/"
    ensures u[|u| - |cfg.path| - 1..] == "/" + cfg.path
  {
    cfg.baseURL + "/" + cfg.repo + "/" + cfg.branch + "/" + cfg.path
  }

  /** The text before the first '/' of `s` (all of `s` when it has none). */
  function UpToSlash(s: string): (t: string)
    ensures '/' !in t
    ensures t <= s
  {
    if |s| == 0 || s[0] == '/' then "" else [s[0]] + UpToSlash(s[1..])
  }

  /** A segment without '/' is read back from in front of its separator. */
  lemma {:induction false} UpToSlashOfSegment(segment: string, rest: string)
    requires '/' !in segment
    ensures UpToSlash(segment + "/" + rest) == segment
  {
    if |segment| > 0 {
      assert (segment + "/" + rest)[1..] == segment[1..] + "/" + rest;
      UpToSlashOfSegment(segment[1..], rest);
    }
  }

  /** Two sequences with a common prefix are equal when the rest is. */
  lemma {:induction false} CancelPrefix(prefix: string, t1: string, t2: string)
    requires prefix + t1 == prefix + t2
    ensures t1 == t2
  {
    assert t1 == (prefix + t1)[|prefix|..];
    assert t2 == (prefix + t2)[|prefix|..];
  }

  /** `branch/path` is split back unambiguously when the branch has no '/'. */
  lemma {:induction false} BranchAndPathSplit(b1: string, p1: string, b2: string, p2: string)
    requires '/' !in b1 && '/' !in b2
    requires b1 + "/" + p1 == b2 + "/" + p2
    ensures b1 == b2 && p1 == p2
  {
    UpToSlashOfSegment(b1, p1);
    UpToSlashOfSegment(b2, p2);
    CancelPrefix(b1 + "/", p1, p2);
  }

  /** The address as a prefix fixed by base and repository, then
      `branch/path`. */
  lemma RawURLSplit(cfg: Config)
    ensures RawURL(cfg) == (cfg.baseURL + "/" + cfg.repo + "/") + (cfg.branch + "/" + cfg.path)
  {
    var prefix := cfg.baseURL + "/" + cfg.repo + "/";
    assert prefix + cfg.branch + "/" + cfg.path == prefix + (cfg.branch + "/" + cfg.path);
  }

  /** For a fixed base and repository, a branch without '/' is read back
      from the address unambiguously, and so is the path after it. */
  lemma RawURLDeterminesBranchAndPath(c1: Config, c2: Config)
    requires c1.baseURL == c2.baseURL && c1.repo == c2.repo
    requires '/' !in c1.branch && '/' !in c2.branch
    requires RawURL(c1) == RawURL(c2)
    ensures c1.branch == c2.branch && c1.path == c2.path
  {
    var prefix := c1.baseURL + "/" + c1.repo + "/";
    var t1 := c1.branch + "/" + c1.path;
    var t2 := c2.branch + "/" + c2.path;
    RawURLSplit(c1);
    RawURLSplit(c2);
    CancelPrefix(prefix, t1, t2);
    BranchAndPathSplit(c1.branch, c1.path, c2.branch, c2.path);
  }

  /** The HTTP request a fetch sends. */
  datatype Request = Request(httpMethod: string, url: string, authorization: Option<string>)

  /** The request for the registry file: a GET of RawURL(cfg), carrying
      `Authorization: token <Token>` exactly when a token is configured. */
  function BuildRequest(cfg: Config): (req: Request)
    ensures req.httpMethod == "GET" && req.url == RawURL(cfg)
    ensures req.authorization.Some? <==> cfg.token != ""
    ensures req.authorization.Some? ==> req.authorization.value == "token " + cfg.token
  {
    Request("GET", RawURL(cfg), if cfg.token != "" then Some("token " + cfg.token) else None)
  }

  /** The header carries the configured token verbatim after its scheme word. */
  lemma TokenRecoverable(cfg: Config)
    requires cfg.token != ""
    ensures BuildRequest(cfg).authorization.value[|"token "|..] == cfg.token
  {
  }

  /** What reading a response body produced. */
  datatype BodyRead = ReadOk(data: seq<bv8>) | ReadFailed(cause: string)

  /** What the transport answered: a failure below HTTP (DNS, refused
      connection, timeout, cancellation) or a response with a status. */
  datatype Exchange = TransportFailed(cause: string) | Responded(statusCode: int, body: BodyRead)

  /** Everything a fetch depends on outside this model: whether the request
      can be constructed for a URL, the network round trip, and YAML decoding. */
  datatype Environment = Environment(
    requestError: string -> Option<string>,
    roundTrip: Request -> Exchange,
    unmarshal: seq<bv8> -> Result<ClaimRegistry, string>)

  /** Why a fetch produced no document; each case is one error return of fetch. */
  datatype FetchError =
    | CreatingRequest(cause: string)
    | Fetching(cause: string)
    | UnexpectedStatus(code: int, url: string)
    | ReadingBody(cause: string)
    | Parsing(error: ParseError)

  /** The error InitialSync reports: the fetch error, wrapped. */
  datatype StartupError = InitialSyncFailed(cause: FetchError)

  /** One fetch: build the request, send it, accept only status 200, read
      the body, and only then decode it. */
  function Fetch(cfg: Config, env: Environment): (r: Result<ClaimRegistry, FetchError>)
    ensures r.Success? ==>
      var x := env.roundTrip(BuildRequest(cfg));
      && env.requestError(RawURL(cfg)).None?
      && x.Responded? && x.statusCode == StatusOK && x.body.ReadOk?
      && env.unmarshal(x.body.data) == Success(r.value)
    ensures
      var x := env.roundTrip(BuildRequest(cfg));
      (env.requestError(RawURL(cfg)).None? && x.Responded? && x.statusCode != StatusOK)
        ==> r == Failure(UnexpectedStatus(x.statusCode, RawURL(cfg)))
    ensures r.Failure? && r.error.Parsing? ==>
      var x := env.roundTrip(BuildRequest(cfg));
      x.Responded? && x.statusCode == StatusOK && x.body.ReadOk?
    ensures env.requestError(RawURL(cfg)).Some? ==>
      r == Failure(CreatingRequest(env.requestError(RawURL(cfg)).value))
    ensures
      var x := env.roundTrip(BuildRequest(cfg));
      (env.requestError(RawURL(cfg)).None? && x.TransportFailed?)
        ==> r == Failure(Fetching(x.cause))
    ensures
      var x := env.roundTrip(BuildRequest(cfg));
      (env.requestError(RawURL(cfg)).None? && x.Responded? && x.statusCode == StatusOK && x.body.ReadFailed?)
        ==> r == Failure(ReadingBody(x.body.cause))
    ensures
      var x := env.roundTrip(BuildRequest(cfg));
      (&& env.requestError(RawURL(cfg)).None? && x.Responded? && x.statusCode == StatusOK && x.body.ReadOk?
       && env.unmarshal(x.body.data).Success?)
        ==> r == Success(env.unmarshal(x.body.data).value)
    ensures
      var x := env.roundTrip(BuildRequest(cfg));
      (&& env.requestError(RawURL(cfg)).None? && x.Responded? && x.statusCode == StatusOK && x.body.ReadOk?
       && env.unmarshal(x.body.data).Failure?)
        ==> r == Failure(Parsing(ParsingRegistryData(env.unmarshal(x.body.data).error)))
  {
    var url := RawURL(cfg);
    match env.requestError(url)
    case Some(cause) => Failure(CreatingRequest(cause))
    case None =>
      match env.roundTrip(BuildRequest(cfg))
      case TransportFailed(cause) => Failure(Fetching(cause))
      case Responded(code, body) =>
        if code != StatusOK then Failure(UnexpectedStatus(code, url))
        else
          match body
          case ReadFailed(cause) => Failure(ReadingBody(cause))
          case ReadOk(data) =>
            match ParseData(data, env.unmarshal)
            case Success(reg) => Success(reg)
            case Failure(e) => Failure(Parsing(e))
  }

  // ---------------------------------------------------------------------
  // The published snapshot across sync cycles
  // ---------------------------------------------------------------------

  /** The snapshot after one cycle: a fetched document replaces it whole, a
      failed cycle leaves it as it was. */
  function NextSnapshot(snap: Option<ClaimRegistry>, outcome: Result<ClaimRegistry, FetchError>)
    : (r: Option<ClaimRegistry>)
    ensures outcome.Success? ==> r == Some(outcome.value)
    ensures outcome.Failure? ==> r == snap
  {
    if outcome.Success? then Some(outcome.value) else snap
  }

  /** The snapshot after a run of cycles, applied in completion order. */
  function SnapshotAfter(snap: Option<ClaimRegistry>, outcomes: seq<Result<ClaimRegistry, FetchError>>)
    : (r: Option<ClaimRegistry>)
    ensures r != snap ==> r.Some? && exists i :: 0 <= i < |outcomes| && outcomes[i] == Success(r.value)
  {
    if |outcomes| == 0 then snap
    else NextSnapshot(SnapshotAfter(snap, outcomes[..|outcomes| - 1]), outcomes[|outcomes| - 1])
  }

  /** Failed cycles never change what readers see. */
  lemma {:induction false} FailedCyclesKeepSnapshot(
    snap: Option<ClaimRegistry>, outcomes: seq<Result<ClaimRegistry, FetchError>>)
    requires forall i :: 0 <= i < |outcomes| ==> outcomes[i].Failure?
    ensures SnapshotAfter(snap, outcomes) == snap
  {
    if |outcomes| > 0 {
      FailedCyclesKeepSnapshot(snap, outcomes[..|outcomes| - 1]);
    }
  }

  /** Readers see exactly the document of the last successful cycle. */
  lemma {:induction false} LastGoodFetchWins(
    snap: Option<ClaimRegistry>, outcomes: seq<Result<ClaimRegistry, FetchError>>, i: int)
    requires 0 <= i < |outcomes| && outcomes[i].Success?
    requires forall j :: i < j < |outcomes| ==> outcomes[j].Failure?
    ensures SnapshotAfter(snap, outcomes) == Some(outcomes[i].value)
  {
    if i < |outcomes| - 1 {
      LastGoodFetchWins(snap, outcomes[..|outcomes| - 1], i);
    }
  }

  /** Once a document is published, no run of cycles makes it absent again. */
  lemma {:induction false} SnapshotNeverCleared(
    snap: Option<ClaimRegistry>, outcomes: seq<Result<ClaimRegistry, FetchError>>)
    requires snap.Some?
    ensures SnapshotAfter(snap, outcomes).Some?
  {
    if |outcomes| > 0 {
      SnapshotNeverCleared(snap, outcomes[..|outcomes| - 1]);
    }
  }

  /** What the background loop's select receives next: the context's
      cancellation, or a tick of the ticker (with the world the fetch meets). */
  datatype Event = Cancelled | TickerFired(env: Environment)

  predicate AllTicks(events: seq<Event>) {
    forall j :: 0 <= j < |events| ==> events[j].TickerFired?
  }

  /** The fetch outcomes of the cycles the loop runs on `events`: one per
      tick, up to the first cancellation. */
  function Cycles(cfg: Config, events: seq<Event>): (r: seq<Result<ClaimRegistry, FetchError>>)
    ensures |r| <= |events|
  {
    if |events| == 0 then []
    else
      match events[0]
      case Cancelled => []
      case TickerFired(env) => [Fetch(cfg, env)] + Cycles(cfg, events[1..])
  }

  /** A further tick after ticks only adds one cycle. */
  lemma {:induction false} CyclesSnoc(cfg: Config, events: seq<Event>, env: Environment)
    requires AllTicks(events)
    ensures Cycles(cfg, events + [TickerFired(env)]) == Cycles(cfg, events) + [Fetch(cfg, env)]
  {
    if |events| == 0 {
      assert events + [TickerFired(env)] == [TickerFired(env)];
    } else {
      assert (events + [TickerFired(env)])[1..] == events[1..] + [TickerFired(env)];
      CyclesSnoc(cfg, events[1..], env);
    }
  }

  /** Nothing after the first cancellation runs. */
  lemma {:induction false} CyclesStopAtCancel(cfg: Config, events: seq<Event>, i: int)
    requires 0 <= i < |events| && events[i].Cancelled?
    requires AllTicks(events[..i])
    ensures Cycles(cfg, events) == Cycles(cfg, events[..i])
  {
    if i > 0 {
      assert events[..i][0] == events[0];
      assert events[..i][1..] == events[1..][..i - 1];
      CyclesStopAtCancel(cfg, events[1..], i - 1);
    }
  }

  /** Whether the background loop has been started and whether it has exited:
      Idle (no cancel function yet), Running (goroutine alive), Exited (its
      done channel closed), or Crashed (the goroutine panicked, which ends
      the whole process; no later call has any effect). */
  datatype LoopState = Idle | Running | Exited | Crashed

  /** Holds the configuration and the current snapshot. */
  class Syncer {
    const cfg: Config
    var registry: Option<ClaimRegistry>
    var loop: LoopState

    /** NewSyncer: fill in the defaults field by field; nothing is loaded yet. */
    constructor (config: Config)
      ensures cfg == WithDefaults(config)
      ensures registry == None && loop == Idle
    {
      var c := config;
      if c.path == "" {
        c := c.(path := DefaultPath);
      }
      if c.branch == "" {
        c := c.(branch := DefaultBranch);
      }
      if c.interval == 0 {
        c := c.(interval := DefaultInterval);
      }
      if c.baseURL == "" {
        c := c.(baseURL := DefaultBaseURL);
      }
      cfg := c;
      registry := None;
      loop := Idle;
    }

    /** The snapshot readers see: the last published document, or none. */
    function GetRegistry(): (r: Option<ClaimRegistry>)
      reads this
      ensures r.None? <==> registry.None?
      ensures r.Some? ==> r.value == registry.value
    {
      registry
    }

    /** The start-up fetch: publish the document, or report the failure and
      leave the snapshot as it was. */
    method InitialSync(env: Environment) returns (err: Outcome<StartupError>)
      modifies this`registry
      ensures Fetch(cfg, env).Success? ==> err == Pass && registry == Some(Fetch(cfg, env).value)
      ensures Fetch(cfg, env).Failure? ==>
        err == Fail(InitialSyncFailed(Fetch(cfg, env).error)) && registry == old(registry)
    {
      var outcome := Fetch(cfg, env);
      match outcome {
        case Failure(e) =>
          return Fail(InitialSyncFailed(e));
        case Success(reg) =>
          registry := Some(reg);
          return Pass;
      }
    }

    /** Start: hand the loop a cancel function; the goroutine is now alive. */
    method Start()
      requires loop == Idle
      modifies this`loop
      ensures loop == Running
    {
      loop := Running;
    }

    /** One tick of the loop: fetch; on success replace the snapshot whole,
      on failure log the error, keep the snapshot and carry on. */
    method Tick(env: Environment) returns (logged: Option<FetchError>)
      requires loop == Running
      modifies this`registry
      ensures registry == NextSnapshot(old(registry), Fetch(cfg, env))
      ensures logged.Some? <==> Fetch(cfg, env).Failure?
      ensures logged.Some? ==> logged.value == Fetch(cfg, env).error
    {
      var outcome := Fetch(cfg, env);
      if outcome.Failure? {
        return Some(outcome.error);
      }
      registry := Some(outcome.value);
      return None;
    }

    /** The background goroutine: serve ticks until the context is cancelled,
      then exit (closing its done channel). */
    method RunLoop(events: seq<Event>)
      requires loop == Running
      modifies this
      ensures cfg.interval <= 0 ==> registry == old(registry) && loop == Crashed
      ensures cfg.interval > 0 ==> registry == SnapshotAfter(old(registry), Cycles(cfg, events))
      ensures cfg.interval > 0 ==> loop == (if AllTicks(events) then Running else Exited)
    {
      if cfg.interval <= 0 {
        // time.NewTicker panics on a duration that is not positive
        loop := Crashed;
        return;
      }
      var i := 0;
      while i < |events|
        invariant 0 <= i <= |events|
        invariant loop == Running
        invariant AllTicks(events[..i])
        invariant registry == SnapshotAfter(old(registry), Cycles(cfg, events[..i]))
      {
        match events[i] {
          case Cancelled =>
            CyclesStopAtCancel(cfg, events, i);
            loop := Exited;
            return;
          case TickerFired(env) =>
            var logged := Tick(env);
            CyclesSnoc(cfg, events[..i], env);
            assert events[..i + 1] == events[..i] + [TickerFired(env)];
        }
        i := i + 1;
      }
      assert events[..i] == events;
    }

    /** Stop: if the loop was ever started, cancel it and wait until it has
      exited; on a syncer never started, do nothing. */
    method Stop()
      modifies this`loop
      ensures old(loop) == Idle ==> loop == Idle
      ensures old(loop) == Crashed ==> loop == Crashed
      ensures old(loop) == Running || old(loop) == Exited ==> loop == Exited
    {
      if loop == Running || loop == Exited {
        loop := Exited;
      }
    }
  }
}
