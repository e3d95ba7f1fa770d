/**
 Ship-it scopes: the three recognised scope strings, the environment each
 one names, and the extraction of the single recognised scope of a task.
 */
module Scopes {
  import opened Outcomes

  /** The deployment environments a ship-it scope can name. */
  datatype Env = Dev | Staging | Production

  const ScopePrefix: string := "project:releng:ship-it:"

  function EnvName(e: Env): string
  {
    match e
    case Dev => "dev"
    case Staging => "staging"
    case Production => "production"
  }

  /** The scope string that grants access to environment `e`. */
  function ScopeFor(e: Env): string
  {
    ScopePrefix + EnvName(e)
  }

  /** Recognition is membership in the three exact scope strings, not a prefix match. */
  predicate IsRecognised(scope: string)
    ensures IsRecognised(scope) <==> exists e :: ScopeFor(e) == scope
    ensures IsRecognised(scope) ==> ScopePrefix <= scope
  {
    scope == ScopeFor(Dev) || scope == ScopeFor(Staging) || scope == ScopeFor(Production)
  }

  function EnvNamed(name: string): (r: Option<Env>)
    ensures r.Some? ==> EnvName(r.value) == name
  {
    if name == "dev" then Some(Dev)
    else if name == "staging" then Some(Staging)
    else if name == "production" then Some(Production)
    else None
  }

  /**
   The environment named by a scope: the segment after the ship-it prefix,
   when it is one of the three environment names.
   */
  function ScopeEnv(scope: string): (r: Option<Env>)
    ensures r.Some? ==> ScopeFor(r.value) == scope
  {
    if ScopePrefix <= scope then
      var name := scope[|ScopePrefix|..];
      var e := EnvNamed(name);
      if e.Some? then
        assert scope == ScopePrefix + name;
        e
      else None
    else None
  }

  /** Reading the environment back from the scope that grants it gives the environment. */
  lemma ScopeEnvRoundTrip(e: Env)
    ensures ScopeEnv(ScopeFor(e)) == Some(e)
  {
  }

  /** A scope names an environment exactly when it is one of the recognised scopes. */
  lemma ScopeEnvIffRecognised(scope: string)
    ensures ScopeEnv(scope).Some? <==> IsRecognised(scope)
    ensures IsRecognised(scope) ==> ScopeFor(ScopeEnv(scope).value) == scope
  {
  }

  /** The recognised scopes of `scopes`, in order, duplicates kept. */
  function RecognisedScopes(scopes: seq<string>): (r: seq<string>)
    ensures |r| <= |scopes|
    ensures forall x :: x in r <==> x in scopes && IsRecognised(x)
  {
    if |scopes| == 0 then []
    else if IsRecognised(scopes[0]) then [scopes[0]] + RecognisedScopes(scopes[1..])
    else RecognisedScopes(scopes[1..])
  }

  /** The filter keeps every occurrence of a recognised scope, so duplicates are counted. */
  lemma {:induction false} RecognisedScopesCounts(scopes: seq<string>)
    ensures forall x :: multiset(RecognisedScopes(scopes))[x]
                        == (if IsRecognised(x) then multiset(scopes)[x] else 0)
    decreases |scopes|
  {
    if |scopes| > 0 {
      assert scopes == [scopes[0]] + scopes[1..];
      RecognisedScopesCounts(scopes[1..]);
    }
  }

  /** Position `i` holds a recognised scope and no other position does. */
  ghost predicate OnlyRecognisedAt(scopes: seq<string>, i: int)
  {
    && 0 <= i < |scopes|
    && IsRecognised(scopes[i])
    && forall j :: 0 <= j < |scopes| && j != i ==> !IsRecognised(scopes[j])
  }

  ghost predicate ExactlyOneRecognised(scopes: seq<string>)
  {
    exists i :: OnlyRecognisedAt(scopes, i)
  }

  lemma {:induction false} NoneRecognisedFiltersEmpty(scopes: seq<string>)
    requires forall k :: 0 <= k < |scopes| ==> !IsRecognised(scopes[k])
    ensures RecognisedScopes(scopes) == []
    decreases |scopes|
  {
    if |scopes| > 0 {
      var rest := scopes[1..];
      assert forall k :: 0 <= k < |rest| ==> rest[k] == scopes[k + 1];
      NoneRecognisedFiltersEmpty(rest);
    }
  }

  lemma {:induction false} OnlyRecognisedAtFilters(scopes: seq<string>, i: int)
    requires OnlyRecognisedAt(scopes, i)
    ensures RecognisedScopes(scopes) == [scopes[i]]
    decreases |scopes|
  {
    var rest := scopes[1..];
    if i == 0 {
      forall k | 0 <= k < |rest|
        ensures !IsRecognised(rest[k])
      {
        assert rest[k] == scopes[k + 1];
      }
      NoneRecognisedFiltersEmpty(rest);
    } else {
      assert !IsRecognised(scopes[0]);
      assert forall j :: 0 <= j < |rest| ==> rest[j] == scopes[j + 1];
      assert OnlyRecognisedAt(rest, i - 1);
      OnlyRecognisedAtFilters(rest, i - 1);
    }
  }

  lemma {:induction false} SingleFilteredIsOnly(scopes: seq<string>)
    requires |RecognisedScopes(scopes)| == 1
    ensures exists i :: OnlyRecognisedAt(scopes, i) && scopes[i] == RecognisedScopes(scopes)[0]
    decreases |scopes|
  {
    var rest := scopes[1..];
    assert forall j :: 0 <= j < |rest| ==> rest[j] == scopes[j + 1];
    if IsRecognised(scopes[0]) {
      assert |RecognisedScopes(rest)| == 0;
      forall j | 0 < j < |scopes|
        ensures !IsRecognised(scopes[j])
      {
        assert scopes[j] == rest[j - 1];
        assert scopes[j] in rest;
      }
      assert OnlyRecognisedAt(scopes, 0);
    } else {
      SingleFilteredIsOnly(rest);
      var i :| OnlyRecognisedAt(rest, i) && rest[i] == RecognisedScopes(rest)[0];
      assert OnlyRecognisedAt(scopes, i + 1);
    }
  }

  /** The filter keeps exactly one scope precisely when exactly one position is recognised. */
  lemma SingleFilteredIffExactlyOne(scopes: seq<string>)
    ensures |RecognisedScopes(scopes)| == 1 <==> ExactlyOneRecognised(scopes)
    ensures |RecognisedScopes(scopes)| == 1 ==>
      exists i :: OnlyRecognisedAt(scopes, i) && scopes[i] == RecognisedScopes(scopes)[0]
  {
    if |RecognisedScopes(scopes)| == 1 {
      SingleFilteredIsOnly(scopes);
    }
    if ExactlyOneRecognised(scopes) {
      var i :| OnlyRecognisedAt(scopes, i);
      OnlyRecognisedAtFilters(scopes, i);
    }
  }

  /**
   The single recognised scope of a task. Fails with a task verification
   error when there is none, or more than one, among `scopes`.
   */
  function GetScope(scopes: seq<string>): (r: Result<string>)
    ensures r.Ok? <==> ExactlyOneRecognised(scopes)
    ensures r.Ok? ==> exists i :: OnlyRecognisedAt(scopes, i) && r.value == scopes[i]
    ensures r.Ok? ==> IsRecognised(r.value) && r.value in scopes
    ensures r.Err? ==> r.error == TaskVerificationError
  {
    SingleFilteredIffExactlyOne(scopes);
    var found := RecognisedScopes(scopes);
    if |found| == 1 then Ok(found[0]) else Err(TaskVerificationError)
  }

  /** A task holding only one recognised scope gets that scope back. */
  lemma SingleScopeResolves(scopes: seq<string>)
    requires |scopes| == 1 && IsRecognised(scopes[0])
    ensures GetScope(scopes) == Ok(scopes[0])
  {
  }

  /** Two recognised scopes at different positions (even equal ones) make the task ambiguous. */
  lemma TwoRecognisedFail(scopes: seq<string>, i: int, j: int)
    requires 0 <= i < |scopes| && 0 <= j < |scopes| && i != j
    requires IsRecognised(scopes[i]) && IsRecognised(scopes[j])
    ensures GetScope(scopes) == Err(TaskVerificationError)
  {
  }

  /** A task with no recognised scope at all fails. */
  lemma NoRecognisedFails(scopes: seq<string>)
    requires forall j :: 0 <= j < |scopes| ==> !IsRecognised(scopes[j])
    ensures GetScope(scopes) == Err(TaskVerificationError)
  {
  }
}
