# shipitscript: scope-to-instance resolution, modelled in Dafny

shipitscript is a release-automation worker that talks to a ship-it backend.
Before it does anything, it checks the task it was handed:

- `validate_task_schema` rejects a malformed task. The modelled rule is that the `scopes` list must not be empty.
- `_get_scope` picks out the task's single ship-it scope. A scope is recognised only if it is exactly one of
  `project:releng:ship-it:dev`, `project:releng:ship-it:staging` and `project:releng:ship-it:production`.
  The task fails with `TaskVerificationError` when it holds none of them, or more than one.
- `get_ship_it_instance_config_from_scope` takes the environment named by that scope and checks the
  configured instance's `api_root` against it:
  - staging accepts only `https://ship-it-dev.allizom.org`;
  - production accepts only `https://ship-it.mozilla.org`;
  - dev accepts any other URL (the tables show two such URLs accepted and the two reserved ones rejected);
  - trailing `/` characters are ignored.
  On success the instance record comes back unchanged. Otherwise it fails with `BadInstanceConfigurationError`.
  The safety invariant is non-crossing: with a dev scope, resolution never yields a URL equal to the staging or
  production root once trailing `/` characters are dropped.

The implementation module `shipitscript/task.py` is not part of this model. The behaviour modelled is the one
that the parametrised tables of `shipitscript/test/test_task.py` pin down row by row. Every row of those tables
is an ensures clause of a lemma in `test_tables.dfy`.

Files and modules:

- `outcomes.dfy` (`Outcomes`): the error kinds, plus `Result`, `Option` and `Outcome` used instead of exceptions.
- `scopes.dfy` (`Scopes`): the `Env` enumeration, the scope strings, reading the environment back from a scope,
  and `GetScope`.
- `hosts.dfy` (`Hosts`): the two reserved backend URLs, `StripTrailingSlash`, and the allow-list of each
  environment. `EnvOfRoot` is an independent classifier of URLs that the allow-list is proved to agree with.
- `task.dfy` (`ShipItTask`): the `Instance`, `Config` and `Task` records, `ValidateTaskSchema` and
  `ResolveInstance`, with the non-crossing and trailing-slash lemmas.
- `test_tables.dfy` (`TaskTestTables`): the test fixture and every table row.

All operations are pure functions, so calling one twice on the same inputs gives the same result.

## Model

| member | source | states |
|---|---|---|
| Scopes.GetScope | shipitscript/test/test_task.py:71-88 | succeeds exactly when one position of the scope list holds a recognised scope, and then returns that scope; otherwise fails with TaskVerificationError |
| Scopes.IsRecognised | shipitscript/test/test_task.py:71-77 | a scope is recognised iff it is the scope string of one of the three environments; carrying the ship-it prefix is necessary but not enough |
| Scopes.RecognisedScopes | shipitscript/test/test_task.py:71-78 | a string is in the result iff it is in the list and recognised; the result is never longer than the list |
| Scopes.RecognisedScopesCounts | shipitscript/test/test_task.py:71-78 | the result keeps every occurrence of a recognised scope: each recognised string occurs as often as in the list, every other string not at all |
| Scopes.SingleScopeResolves | shipitscript/test/test_task.py:72-74 | a list of one recognised scope resolves to `scopes[0]` |
| Scopes.TwoRecognisedFail | shipitscript/test/test_task.py:75 | two positions holding recognised scopes, even equal ones, fail with TaskVerificationError |
| Scopes.NoRecognisedFails | shipitscript/test/test_task.py:76-77 | a list with no recognised scope fails with TaskVerificationError, so a ship-it prefix with an unknown environment is not enough |
| Scopes.ScopeEnv | shipitscript/test/test_task.py:41-53 | the environment read off a scope is one whose scope string is exactly that scope |
| Scopes.ScopeEnvRoundTrip | shipitscript/test/test_task.py:41-53 | reading the environment back from the scope of environment e gives e |
| Scopes.ScopeEnvIffRecognised | shipitscript/test/test_task.py:41-53 | a scope names an environment iff it is recognised, and then it is that environment's scope |
| Hosts.StripTrailingSlash | shipitscript/test/test_task.py:44-47 | the result is a prefix of the URL that does not end in `/`, and every character of the URL after it is `/` |
| Hosts.StripIgnoresAppendedSlash | shipitscript/test/test_task.py:44-47 | normalising `url + "/"` gives the same as normalising `url`; normalising is idempotent; a URL without a trailing `/` is left as it is |
| Hosts.HostAllowed | shipitscript/test/test_task.py:41-53 | read per URL: the staging root may be used only by staging, the production root only by production, and any other URL only by dev |
| Hosts.HostAllowedIffOwner | shipitscript/test/test_task.py:41-53 | an environment's allow-list accepts a URL iff the URL belongs to that environment, so every URL is accepted by exactly one environment |
| Hosts.TrailingSlashIgnored | shipitscript/test/test_task.py:44-47 | appending a `/` never changes whether an environment accepts a URL |
| ShipItTask.ValidateTaskSchema | shipitscript/test/test_task.py:32-38 | passes iff the task has at least one scope; fails with TaskVerificationError otherwise |
| ShipItTask.ResolvableScopePassesSchema | shipitscript/test/test_task.py:32-38 | a task whose scope resolves always passes the schema check |
| ShipItTask.ResolveInstance | shipitscript/test/test_task.py:55-68 | on success returns the first configured instance unchanged, and the task's one scope is the scope of that instance's environment; scope errors come first as TaskVerificationError; a scope for another environment fails with BadInstanceConfigurationError |
| ShipItTask.ResolveSucceedsIffScopeMatchesHost | shipitscript/test/test_task.py:41-68 | resolution returns the instance iff the task's scope is the scope of the environment the instance's `api_root` belongs to |
| ShipItTask.DevScopeNeverReachesReservedHost | shipitscript/test/test_task.py:51-53 | with a dev scope, a successful result never has a URL equal to the staging or production root once trailing `/` are dropped, and such a configured URL fails with BadInstanceConfigurationError |
| ShipItTask.ReservedScopeOnlyReachesOwnHost | shipitscript/test/test_task.py:49-50 | with a staging (production) scope, a successful result has a URL equal to the staging (production) root once trailing `/` are dropped |
| ShipItTask.WithApiRoot | shipitscript/test/test_task.py:56 | setting the first instance's `api_root` changes that field of that instance only; the other instances and their number stay the same |
| ShipItTask.ResolveIgnoresTrailingSlash | shipitscript/test/test_task.py:44-47 | appending a `/` to the configured `api_root` does not change whether resolution succeeds |
| TaskTestTables.RowConfig | shipitscript/test/test_task.py:15-20 | the fixture configuration after a row sets `api_root` holds exactly the one fixture instance with that URL |
| TaskTestTables.ValidateTaskRows | shipitscript/test/test_task.py:32-38 | the fixture task passes validation, and the same task with `scopes = []` fails |
| TaskTestTables.ResolveInstanceAcceptedRows | shipitscript/test/test_task.py:42-47 | each accepted row returns the fixture instance with the row's `api_root`, credentials and timeout unchanged |
| TaskTestTables.ResolveInstanceRejectedRows | shipitscript/test/test_task.py:49-53 | each rejected row fails with BadInstanceConfigurationError |
| TaskTestTables.GetScopeRows | shipitscript/test/test_task.py:71-77 | the three single recognised scopes come back; the dev+production pair, the unknown environment and the random scope fail with TaskVerificationError |

## Left out

- The scriptworker `Context`, `get_default_config` and the exception class hierarchy are not modelled. They belong to
  the worker framework. The errors are the tagged `Outcomes.Error` values instead.
- The validation test expects `ScriptWorkerTaskException`, the base class. The model reports its subclass,
  TaskVerificationError.
- The JSON schema behind `validate_task_schema` is not modelled beyond the empty-scopes rule. `payload`
  (with `release_name`) and `dependencies` are typed record fields, so a task cannot lack them. Their contents are
  not checked.
- URLs are opaque strings. Real URL parsing and host extraction are not modelled. The only normalisation is
  dropping trailing `/` characters, followed by string equality against the two reserved URLs.
- ShipItTask.DevScopeNeverReachesReservedHost: covers only URLs equal to a reserved root after trailing `/` are
  dropped. Other spellings of the reserved hosts, such as `https://ship-it.mozilla.org/api`, a port or a different
  letter case, count as dev URLs, because URLs are not parsed.
- Hosts.StripTrailingSlash: removes every trailing `/`. The tables only exercise a single slash. Whether the
  implementation strips more than one is not known, because `shipitscript/task.py` is not part of this model.
- Hosts.HostAllowed: that dev accepts every URL other than the two reserved roots (for example
  `https://evil.example`) is an extrapolation. The tables accept two dev URLs and reject the two reserved ones.
- Credentials and the timeout are opaque values that are carried through unchanged. Nothing talks to a backend.
- An empty `ship_it_instances` list is assumed to be a plain lookup failure, on the assumption that the
  implementation reads entry 0 as the test does at shipitscript/test/test_task.py:56. The model reports it as
  `MissingInstance` instead of raising.
- Only the first configured instance is ever consulted, as in the fixture. The model does not search other entries.
- The test at shipitscript/test/test_task.py:35 mutates the fixture through an alias. This incidental detail is not
  modelled. The empty-scopes task is built as a fresh value.
- Scopes.GetScope: recognition is membership in the three exact strings, which is consistent with rows 76-77.
  Those rows are one-element lists, so a prefix filter on `project:releng:ship-it:` followed by an environment
  check would also pass every row, but would make `[dev, project:releng:ship-it:unkown_scope]` ambiguous. This
  model returns dev for that list. The answer for mixed lists is an extrapolation that no row decides.
- Host checks are equality after normalisation, not substring containment.
