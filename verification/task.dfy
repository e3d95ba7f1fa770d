/**
 The task checks of shipitscript: validating the task's shape, and
 resolving the task's single ship-it scope to the configured backend
 instance while keeping environments from crossing.
 */
module ShipItTask {
  import opened Outcomes
  import opened Scopes
  import opened Hosts

  /** Connection details of one ship-it backend; credentials are opaque. */
  datatype Instance = Instance(apiRoot: string, timeoutInSeconds: int, username: string, password: string)

  /** The worker configuration: the configured ship-it instances, in order. */
  datatype Config = Config(shipItInstances: seq<Instance>)

  datatype Payload = Payload(releaseName: string)

  /** A task as the worker hands it over; only `scopes` drives the checks. */
  datatype Task = Task(dependencies: seq<string>, payload: Payload, scopes: seq<string>)

  /**
   Schema check of a task. Payload and dependencies are typed fields, so
   their presence is structural; what remains is that scopes is non-empty.
   */
  function ValidateTaskSchema(task: Task): (r: Outcome)
    ensures r.Pass? <==> |task.scopes| > 0
    ensures r.Fail? ==> r.error == TaskVerificationError
  {
    if |task.scopes| == 0 then Fail(TaskVerificationError) else Pass
  }

  /** A task whose scope resolves always passes the schema check. */
  lemma ResolvableScopePassesSchema(task: Task)
    requires GetScope(task.scopes).Ok?
    ensures ValidateTaskSchema(task) == Pass
  {
  }

  /**
   The configured instance for the task's scope. The scope is extracted
   first (task verification errors win); the first configured instance is
   then checked against the scope's environment and returned unchanged.
   */
  function ResolveInstance(config: Config, scopes: seq<string>): (r: Result<Instance>)
    ensures r.Ok? ==> |config.shipItInstances| > 0 && r.value == config.shipItInstances[0]
    ensures r.Ok? ==> GetScope(scopes) == Ok(ScopeFor(EnvOfRoot(r.value.apiRoot)))
    ensures GetScope(scopes).Err? ==> r == Err(TaskVerificationError)
    ensures GetScope(scopes).Ok? && |config.shipItInstances| == 0 ==> r == Err(MissingInstance)
    ensures GetScope(scopes).Ok? && |config.shipItInstances| > 0 &&
            GetScope(scopes).value != ScopeFor(EnvOfRoot(config.shipItInstances[0].apiRoot))
            ==> r == Err(BadInstanceConfigurationError)
  {
    match GetScope(scopes)
    case Err(e) => Err(e)
    case Ok(scope) =>
      if |config.shipItInstances| == 0 then Err(MissingInstance)
      else
        var instance := config.shipItInstances[0];
        ScopeEnvIffRecognised(scope);
        var env := ScopeEnv(scope).value;
        HostAllowedIffOwner(env, instance.apiRoot);
        if HostAllowed(env, instance.apiRoot) then Ok(instance)
        else Err(BadInstanceConfigurationError)
  }

  /** Resolution succeeds exactly when the task's one scope is the one for the instance's host. */
  lemma ResolveSucceedsIffScopeMatchesHost(config: Config, scopes: seq<string>)
    requires |config.shipItInstances| > 0
    ensures var instance := config.shipItInstances[0];
      ResolveInstance(config, scopes) == Ok(instance)
      <==> GetScope(scopes) == Ok(ScopeFor(EnvOfRoot(instance.apiRoot)))
  {
  }

  /**
   Non-crossing: with a dev scope, resolution never yields a URL equal to the
   staging or production root once trailing '/' characters are dropped.
   */
  lemma DevScopeNeverReachesReservedHost(config: Config, scopes: seq<string>)
    requires GetScope(scopes) == Ok(ScopeFor(Dev))
    ensures var r := ResolveInstance(config, scopes);
      r.Ok? ==> StripTrailingSlash(r.value.apiRoot) != StagingRoot &&
                StripTrailingSlash(r.value.apiRoot) != ProductionRoot
    ensures |config.shipItInstances| > 0 &&
            StripTrailingSlash(config.shipItInstances[0].apiRoot) in {StagingRoot, ProductionRoot}
            ==> ResolveInstance(config, scopes) == Err(BadInstanceConfigurationError)
  {
  }

  /** Staging and production scopes reach their own backend and nothing else. */
  lemma ReservedScopeOnlyReachesOwnHost(config: Config, scopes: seq<string>)
    ensures GetScope(scopes) == Ok(ScopeFor(Staging)) && ResolveInstance(config, scopes).Ok?
            ==> StripTrailingSlash(ResolveInstance(config, scopes).value.apiRoot) == StagingRoot
    ensures GetScope(scopes) == Ok(ScopeFor(Production)) && ResolveInstance(config, scopes).Ok?
            ==> StripTrailingSlash(ResolveInstance(config, scopes).value.apiRoot) == ProductionRoot
  {
  }

  /** The configuration with the first instance's `api_root` replaced. */
  function WithApiRoot(config: Config, apiRoot: string): (c: Config)
    requires |config.shipItInstances| > 0
    ensures |c.shipItInstances| == |config.shipItInstances|
    ensures c.shipItInstances[0] == config.shipItInstances[0].(apiRoot := apiRoot)
    ensures c.shipItInstances[1..] == config.shipItInstances[1..]
  {
    Config(config.shipItInstances[0 := config.shipItInstances[0].(apiRoot := apiRoot)])
  }

  /** A trailing '/' on the configured `api_root` does not change whether resolution succeeds. */
  lemma ResolveIgnoresTrailingSlash(config: Config, scopes: seq<string>, apiRoot: string)
    requires |config.shipItInstances| > 0
    ensures ResolveInstance(WithApiRoot(config, apiRoot + "/"), scopes).Ok?
            <==> ResolveInstance(WithApiRoot(config, apiRoot), scopes).Ok?
  {
  }
}
