/** The repository's test cases, restated over the model: the three-claim
    test document, its lookups and filters, the two endpoints over it, and
    the syncer's defaults, request and start-up behaviour. */
module Scenarios {
  import opened Wrappers
  import opened RegistryTypes
  import opened Registry
  import opened Sync
  import Api

  const Hacky := ClaimEntry("hacky", "volumeclaim", "cli", "default", "2026-02-05T10:58:33Z",
    "patrick", "cli", "stuttgart-things/harvester", "claims/cli/hacky.yaml", "active")
  const Martin := ClaimEntry("harvestervm-developer-martin", "harvestervm", "cli", "default",
    "2026-02-05T17:57:18Z", "patrick", "cli", "stuttgart-things/harvester",
    "claims/cli/harvestervm-developer-martin.yaml", "active")
  const DemoProject := ClaimEntry("demo-project", "harborproject", "infra", "harbor",
    "2026-02-07T20:17:19Z", "cli", "gitops", "stuttgart-things/harvester",
    "claims/infra/demo-project.yaml", "inactive")

  /** The test document: two cli claims, then one infra claim. */
  const TestDocument := ClaimRegistry(DefaultAPIVersion, DefaultKind, [Hacky, Martin, DemoProject])

  /** Lookups on the test document: a known name and an unknown one. */
  lemma FindOnTestDocument()
    ensures FirstMatch(TestDocument.claims, "hacky") == Some(0)
    ensures TestDocument.claims[0].template == "volumeclaim"
    ensures FirstMatch(TestDocument.claims, "nonexistent") == None
  {
    FirstMatchIsEarliest(TestDocument.claims, "hacky", 0);
  }

  /** A document may repeat a name; the lookup answers with the first. */
  lemma DuplicateNamesFirstWins()
    ensures var claims := [Hacky, Martin.(name := "hacky"), Hacky.(status := "inactive")];
      FirstMatch(claims, "hacky") == Some(0)
  {
    var claims := [Hacky, Martin.(name := "hacky"), Hacky.(status := "inactive")];
    FirstMatchIsEarliest(claims, "hacky", 0);
  }

  /** Filtering three claims, spelled out claim by claim. */
  lemma FilterOfThree(a: ClaimEntry, b: ClaimEntry, c: ClaimEntry, q: Query)
    ensures Filter([a, b, c], q)
         == (if Matches(a, q) then [a] else []) + (if Matches(b, q) then [b] else [])
          + (if Matches(c, q) then [c] else [])
  {
    var pick := (e: ClaimEntry) => if Matches(e, q) then [e] else [];
    assert [c][1..] == [];
    assert Filter([c], q) == pick(c);
    assert [b, c][1..] == [c];
    assert Filter([b, c], q) == pick(b) + pick(c);
    assert [a, b, c][1..] == [b, c];
    assert Filter([a, b, c], q) == pick(a) + (pick(b) + pick(c));
  }

  /** No criterion: all three claims, in file order. */
  lemma FilterNothingSet()
    ensures Filter(TestDocument.claims, Everything) == [Hacky, Martin, DemoProject]
  {
    FilterEverything(TestDocument.claims);
  }

  /** category=cli: the two cli claims. */
  lemma FilterByCategory()
    ensures Filter(TestDocument.claims, Query("cli", "", "", "")) == [Hacky, Martin]
  {
    FilterOfThree(Hacky, Martin, DemoProject, Query("cli", "", "", ""));
  }

  /** template=volumeclaim: only hacky. */
  lemma FilterByTemplate()
    ensures Filter(TestDocument.claims, Query("", "volumeclaim", "", "")) == [Hacky]
  {
    FilterOfThree(Hacky, Martin, DemoProject, Query("", "volumeclaim", "", ""));
  }

  /** status=inactive: only demo-project. */
  lemma FilterByStatus()
    ensures Filter(TestDocument.claims, Query("", "", "inactive", "")) == [DemoProject]
  {
    FilterOfThree(Hacky, Martin, DemoProject, Query("", "", "inactive", ""));
  }

  /** source=gitops: only demo-project. */
  lemma FilterBySource()
    ensures Filter(TestDocument.claims, Query("", "", "", "gitops")) == [DemoProject]
  {
    FilterOfThree(Hacky, Martin, DemoProject, Query("", "", "", "gitops"));
  }

  /** All four criteria at once: only harvestervm-developer-martin. */
  lemma FilterByAllFour()
    ensures Filter(TestDocument.claims, Query("cli", "harvestervm", "active", "cli")) == [Martin]
  {
    FilterOfThree(Hacky, Martin, DemoProject, Query("cli", "harvestervm", "active", "cli"));
  }

  /** cli and inactive together: no claim, an empty result. */
  lemma FilterWithoutMatch()
    ensures Filter(TestDocument.claims, Query("cli", "", "inactive", "")) == []
  {
    FilterOfThree(Hacky, Martin, DemoProject, Query("cli", "", "inactive", ""));
  }

  /** The list endpoint over the loaded test document, without parameters
      and with one category. */
  lemma ListEndpointOnTestDocument()
    ensures var r := Api.ListClaims(Some(TestDocument), map[]);
      r.status == 200 && r.body.list.apiVersion == "claim-registry.io/v1alpha1"
      && r.body.list.kind == "ClaimList" && |r.body.list.items| == 3
    ensures |Api.ListClaims(Some(TestDocument), map["category" := ["cli"]]).body.list.items| == 2
  {
    Api.MissingParametersListEverything(TestDocument, map[]);
    FilterByCategory();
  }

  /** The list endpoint with narrower parameters: two criteria, a status,
      and a category no claim has. */
  lemma ListEndpointNarrowed()
    ensures Api.ListClaims(Some(TestDocument), map["category" := ["cli"], "template" := ["volumeclaim"]]).body.list.items
         == [Hacky]
    ensures Api.ListClaims(Some(TestDocument), map["status" := ["inactive"]]).body.list.items == [DemoProject]
    ensures var r := Api.ListClaims(Some(TestDocument), map["category" := ["nonexistent"]]);
      r.status == 200 && r.body.list.items == []
  {
    FilterByStatus();
    FilterOfThree(Hacky, Martin, DemoProject, Query("cli", "volumeclaim", "", ""));
    assert Api.CriteriaOf(map["category" := ["cli"], "template" := ["volumeclaim"]]) == Query("cli", "volumeclaim", "", "");
    Api.NoMatchIsEmptyList(TestDocument, map["category" := ["nonexistent"]]);
  }

  /** The single-claim endpoint: a known name and an unknown one. */
  lemma GetEndpointOnTestDocument()
    ensures var r := Api.GetClaim(Some(TestDocument), map["name" := "hacky"]);
      r.status == 200 && r.body == Api.EntryBody(Hacky) && r.body.entry.template == "volumeclaim"
    ensures var r := Api.GetClaim(Some(TestDocument), map["name" := "nonexistent"]);
      r.status == 404 && r.body == Api.ErrorBody("claim not found")
  {
    FindOnTestDocument();
  }

  /** NewSyncer with only a repository set takes every default. */
  lemma DefaultConfig()
    ensures var c := WithDefaults(Config("test/repo", "", "", "", 0, ""));
      && c.path == "claims/registry.yaml" && c.branch == "main"
      && c.interval == 60 * Second && c.baseURL == "https://raw.githubusercontent.com"
  {
  }

  // The literal addresses below are joined one piece at a time, each join
  // in a lemma of its own, so that no single proof compares long literals.

  lemma DefaultAddressSteps1()
    ensures "https://raw.githubusercontent.com" + "/" == "https://raw.githubusercontent.com/"
    ensures "https://raw.githubusercontent.com/" + "test/repo" == "https://raw.githubusercontent.com/test/repo"
  {
  }

  lemma DefaultAddressSteps2()
    ensures "https://raw.githubusercontent.com/test/repo" + "/" == "https://raw.githubusercontent.com/test/repo/"
    ensures "https://raw.githubusercontent.com/test/repo/" + "main" == "https://raw.githubusercontent.com/test/repo/main"
  {
  }

  lemma DefaultAddressSteps3()
    ensures "https://raw.githubusercontent.com/test/repo/main" + "/" == "https://raw.githubusercontent.com/test/repo/main/"
  {
  }

  lemma DefaultAddressSteps4()
    ensures "https://raw.githubusercontent.com/test/repo/main/" + "claims/registry.yaml"
         == "https://raw.githubusercontent.com/test/repo/main/claims/registry.yaml"
  {
  }

  /** The address fetched with the default base, branch and path. */
  lemma DefaultRawURL()
    ensures RawURL(Config("test/repo", DefaultPath, DefaultBranch, "", DefaultInterval, DefaultBaseURL))
         == "https://raw.githubusercontent.com/test/repo/main/claims/registry.yaml"
  {
    DefaultAddressSteps1();
    DefaultAddressSteps2();
    DefaultAddressSteps3();
    DefaultAddressSteps4();
  }

  /** A configured token reaches the server as `token <Token>`. */
  lemma TokenHeader()
    ensures BuildRequest(WithDefaults(Config("test/repo", "", "", "ghp_test123", 0, TestServer))).authorization
         == Some("token ghp_test123")
  {
    var c := WithDefaults(Config("test/repo", "", "", "ghp_test123", 0, TestServer));
    assert c.token == "ghp_test123";
    assert BuildRequest(c).authorization == Some("token " + "ghp_test123");
    assert "token " + "ghp_test123" == "token ghp_test123";
  }

  /** The address of the stand-in test server. */
  const TestServer := "http://127.0.0.1:8080"

  /** A server that answers every request with `status` and a body that the
      decoder reads as `doc`. */
  function Serving(status: int, doc: ClaimRegistry): (env: Environment) {
    Environment(_ => None, _ => Responded(status, ReadOk([])), _ => Success(doc))
  }

  /** The document the syncer's tests serve: two claims with only name,
      template, category and status set. */
  const SyncDocument := ClaimRegistry(DefaultAPIVersion, DefaultKind, [
    ClaimEntry("hacky", "volumeclaim", "cli", "", "", "", "", "", "", "active"),
    ClaimEntry("demo", "harborproject", "infra", "", "", "", "", "", "", "inactive")])

  /** The configuration NewSyncer builds for the stand-in test server. */
  const TestConfig := Config("test/repo", DefaultPath, DefaultBranch, "", DefaultInterval, TestServer)

  lemma TestAddressSteps1()
    ensures "http://127.0.0.1:8080" + "/" == "http://127.0.0.1:8080/"
    ensures "http://127.0.0.1:8080/" + "test/repo" == "http://127.0.0.1:8080/test/repo"
    ensures "http://127.0.0.1:8080/test/repo" + "/" == "http://127.0.0.1:8080/test/repo/"
  {
  }

  lemma TestAddressSteps2()
    ensures "http://127.0.0.1:8080/test/repo/" + "main" == "http://127.0.0.1:8080/test/repo/main"
    ensures "http://127.0.0.1:8080/test/repo/main" + "/" == "http://127.0.0.1:8080/test/repo/main/"
  {
  }

  lemma TestAddressSteps3()
    ensures "http://127.0.0.1:8080/test/repo/main/" + "claims/registry.yaml"
         == "http://127.0.0.1:8080/test/repo/main/claims/registry.yaml"
  {
  }

  /** The address fetched from the stand-in test server. */
  lemma TestServerURL()
    ensures RawURL(TestConfig) == "http://127.0.0.1:8080/test/repo/main/claims/registry.yaml"
  {
    TestAddressSteps1();
    TestAddressSteps2();
    TestAddressSteps3();
  }

  /** A 404 on start-up: InitialSync fails with the status and the address,
      and the syncer still has no snapshot. */
  method InitialSyncNotFound() returns (err: Outcome<StartupError>, snapshot: Option<ClaimRegistry>)
    ensures err == Fail(InitialSyncFailed(UnexpectedStatus(404, "http://127.0.0.1:8080/test/repo/main/claims/registry.yaml")))
    ensures snapshot == None
  {
    var s := new Syncer(Config("test/repo", "", "", "", 0, TestServer));
    assert s.cfg == TestConfig;
    TestServerURL();
    var env := Serving(404, SyncDocument);
    assert Fetch(s.cfg, env) == Failure(UnexpectedStatus(404, RawURL(TestConfig)));
    err := s.InitialSync(env);
    snapshot := s.GetRegistry();
  }

  /** A 200 on start-up publishes the served document: two claims, the
      first named "hacky". */
  method InitialSyncServes() returns (err: Outcome<StartupError>, snapshot: Option<ClaimRegistry>)
    ensures err == Pass
    ensures snapshot.Some? && |snapshot.value.claims| == 2 && snapshot.value.claims[0].name == "hacky"
  {
    var s := new Syncer(Config("test/repo", "", "", "", 0, TestServer));
    var env := Serving(200, SyncDocument);
    assert Fetch(s.cfg, env) == Success(SyncDocument);
    err := s.InitialSync(env);
    snapshot := s.GetRegistry();
  }

  /** Start-up, two ticks of the loop and Stop: the server is asked three
      times, the served document stays published and the loop has exited. */
  method BackgroundSync() returns (fetches: nat, snapshot: Option<ClaimRegistry>, stopped: bool)
    ensures fetches >= 3
    ensures snapshot == Some(SyncDocument)
    ensures stopped
  {
    var s := new Syncer(Config("test/repo", "", "", "", 50_000_000, TestServer));
    var env := Serving(200, SyncDocument);
    assert Fetch(s.cfg, env) == Success(SyncDocument);
    var err := s.InitialSync(env);
    fetches := 1;
    s.Start();
    ghost var before := s.registry;
    var events := [TickerFired(env), TickerFired(env), Cancelled];
    s.RunLoop(events);
    assert events[1..] == [TickerFired(env), Cancelled];
    assert events[1..][1..] == [Cancelled];
    assert Cycles(s.cfg, [Cancelled]) == [];
    assert Cycles(s.cfg, events[1..]) == [Fetch(s.cfg, env)] + Cycles(s.cfg, [Cancelled]);
    assert Cycles(s.cfg, events) == [Success(SyncDocument), Success(SyncDocument)];
    LastGoodFetchWins(before, Cycles(s.cfg, events), 1);
    fetches := fetches + |Cycles(s.cfg, events)|;
    s.Stop();
    snapshot := s.GetRegistry();
    stopped := s.loop == Exited;
  }

  /** A good tick then a failing one (status 500): the failure is logged and
      the document of the good tick stays published. */
  method FailedPollKeepsDocument() returns (snapshot: Option<ClaimRegistry>, stopped: bool)
    ensures snapshot == Some(SyncDocument)
    ensures stopped
  {
    var s := new Syncer(Config("test/repo", "", "", "", 50_000_000, TestServer));
    var good, bad := Serving(200, SyncDocument), Serving(500, SyncDocument);
    s.Start();
    ghost var before := s.registry;
    var events := [TickerFired(good), TickerFired(bad), Cancelled];
    s.RunLoop(events);
    assert events[1..] == [TickerFired(bad), Cancelled];
    assert events[1..][1..] == [Cancelled];
    assert Cycles(s.cfg, [Cancelled]) == [];
    assert Cycles(s.cfg, events[1..]) == [Fetch(s.cfg, bad)] + Cycles(s.cfg, [Cancelled]);
    assert Fetch(s.cfg, good) == Success(SyncDocument);
    assert Fetch(s.cfg, bad).Failure?;
    assert Cycles(s.cfg, events) == [Success(SyncDocument), Fetch(s.cfg, bad)];
    LastGoodFetchWins(before, Cycles(s.cfg, events), 0);
    s.Stop();
    snapshot := s.GetRegistry();
    stopped := s.loop == Exited;
  }

  /** A negative interval passes NewSyncer, but the loop's ticker panics:
      no tick runs and the start-up document is all that was published. */
  method NegativeIntervalCrashes() returns (snapshot: Option<ClaimRegistry>, crashed: bool)
    ensures snapshot == Some(SyncDocument)
    ensures crashed
  {
    var s := new Syncer(Config("test/repo", "", "", "", -Second, TestServer));
    var env := Serving(200, SyncDocument);
    assert Fetch(s.cfg, env) == Success(SyncDocument);
    var err := s.InitialSync(env);
    s.Start();
    s.RunLoop([TickerFired(Serving(200, TestDocument)), Cancelled]);
    snapshot := s.GetRegistry();
    crashed := s.loop == Crashed;
  }
}
