/**
 The rows of the shipitscript task test tables, stated over the model:
 the fixture task and configuration, and the expected outcome per row.
 */
module TaskTestTables {
  import opened Outcomes
  import opened Scopes
  import opened Hosts
  import opened ShipItTask

  /** The fixture instance, with the `api_root` a row sets. */
  function FixtureInstance(apiRoot: string): Instance
  {
    Instance(apiRoot, 1, "some-username", "some-password")
  }

  /** The fixture configuration: one instance with an empty `api_root`. */
  const FixtureConfig: Config := Config([FixtureInstance("")])

  /** The fixture configuration once a row has set the instance's `api_root`. */
  function RowConfig(apiRoot: string): (c: Config)
    ensures c.shipItInstances == [FixtureInstance(apiRoot)]
  {
    WithApiRoot(FixtureConfig, apiRoot)
  }

  const FixtureTask: Task := Task(["someTaskId"], Payload("Firefox-59.0b3-build1"), ["project:releng:ship-it:dev"])

  /** The fixture task passes the schema check; the same task with no scopes fails it. */
  lemma ValidateTaskRows()
    ensures ValidateTaskSchema(FixtureTask) == Pass
    ensures ValidateTaskSchema(FixtureTask.(scopes := [])) == Fail(TaskVerificationError)
  {
  }

  /** The rows where the configured backend fits the scope: the instance comes back unchanged. */
  lemma ResolveInstanceAcceptedRows()
    ensures ResolveInstance(RowConfig("http://localhost:5000"), ["project:releng:ship-it:dev"])
            == Ok(FixtureInstance("http://localhost:5000"))
    ensures ResolveInstance(RowConfig("http://some-ship-it.url"), ["project:releng:ship-it:dev"])
            == Ok(FixtureInstance("http://some-ship-it.url"))
    ensures ResolveInstance(RowConfig("https://ship-it-dev.allizom.org"), ["project:releng:ship-it:staging"])
            == Ok(FixtureInstance("https://ship-it-dev.allizom.org"))
    ensures ResolveInstance(RowConfig("https://ship-it-dev.allizom.org/"), ["project:releng:ship-it:staging"])
            == Ok(FixtureInstance("https://ship-it-dev.allizom.org/"))
    ensures ResolveInstance(RowConfig("https://ship-it.mozilla.org"), ["project:releng:ship-it:production"])
            == Ok(FixtureInstance("https://ship-it.mozilla.org"))
    ensures ResolveInstance(RowConfig("https://ship-it.mozilla.org/"), ["project:releng:ship-it:production"])
            == Ok(FixtureInstance("https://ship-it.mozilla.org/"))
  {
    SingleScopeResolves(["project:releng:ship-it:dev"]);
    SingleScopeResolves(["project:releng:ship-it:staging"]);
    SingleScopeResolves(["project:releng:ship-it:production"]);
    StripIgnoresAppendedSlash(StagingRoot);
    StripIgnoresAppendedSlash(ProductionRoot);
    assert "https://ship-it-dev.allizom.org/" == StagingRoot + "/";
    assert "https://ship-it.mozilla.org/" == ProductionRoot + "/";
  }

  /** The rows where the backend belongs to another environment. */
  lemma ResolveInstanceRejectedRows()
    ensures ResolveInstance(RowConfig("https://some-ship-it.url"), ["project:releng:ship-it:production"])
            == Err(BadInstanceConfigurationError)
    ensures ResolveInstance(RowConfig("https://some-ship-it.url"), ["project:releng:ship-it:staging"])
            == Err(BadInstanceConfigurationError)
    ensures ResolveInstance(RowConfig("https://ship-it-dev.allizom.org"), ["project:releng:ship-it:dev"])
            == Err(BadInstanceConfigurationError)
    ensures ResolveInstance(RowConfig("https://ship-it.mozilla.org"), ["project:releng:ship-it:dev"])
            == Err(BadInstanceConfigurationError)
  {
    SingleScopeResolves(["project:releng:ship-it:dev"]);
    SingleScopeResolves(["project:releng:ship-it:staging"]);
    SingleScopeResolves(["project:releng:ship-it:production"]);
    StripIgnoresAppendedSlash("https://some-ship-it.url");
    StripIgnoresAppendedSlash(StagingRoot);
    StripIgnoresAppendedSlash(ProductionRoot);
    assert EnvOfRoot("https://some-ship-it.url") == Dev;
    assert EnvOfRoot(StagingRoot) == Staging;
    assert EnvOfRoot(ProductionRoot) == Production;
  }

  /** The scope-extraction rows: one recognised scope comes back, the rest fail. */
  lemma GetScopeRows()
    ensures GetScope(["project:releng:ship-it:dev"]) == Ok("project:releng:ship-it:dev")
    ensures GetScope(["project:releng:ship-it:staging"]) == Ok("project:releng:ship-it:staging")
    ensures GetScope(["project:releng:ship-it:production"]) == Ok("project:releng:ship-it:production")
    ensures GetScope(["project:releng:ship-it:dev", "project:releng:ship-it:production"]) == Err(TaskVerificationError)
    ensures GetScope(["project:releng:ship-it:unkown_scope"]) == Err(TaskVerificationError)
    ensures GetScope(["some:random:scope"]) == Err(TaskVerificationError)
  {
  }
}
