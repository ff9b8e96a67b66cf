/** The per-user output store of framework/utils/dataStore.js: values produced
    by output steps, kept as user -> testcase -> scenario -> key -> value. The
    user id is the only isolation between tenants. */
module OutputStore {
  import opened Wrappers
  import opened Js
  import opened Errors

  /** user -> testcase -> scenario -> key -> value */
  type Outputs = map<string, map<string, map<string, map<string, Value>>>>

  /** The stored value at a path, `undefined` when any level is missing
      (the optional chaining of `getScenarioOutput`). */
  function Lookup(o: Outputs, u: string, t: string, s: string, k: string): Value
  {
    if u in o && t in o[u] && s in o[u][t] && k in o[u][t][s] then o[u][t][s][k] else Undefined
  }

  /** `ensureContainer` for a truthy user id: the three levels exist afterwards
      and existing containers are kept. */
  function WithContainer(o: Outputs, u: string, t: string, s: string): (r: Outputs)
    ensures u in r && t in r[u] && s in r[u][t]
    ensures r.Keys == o.Keys + {u}
    ensures forall u', t', s', k' :: Lookup(r, u', t', s', k') == Lookup(o, u', t', s', k')
  {
    WithScenario(WithTestcase(WithUser(o, u), u, t), u, t, s)
  }

  function WithUser(o: Outputs, u: string): (r: Outputs)
    ensures u in r
    ensures r.Keys == o.Keys + {u}
    ensures forall u', t', s', k' :: Lookup(r, u', t', s', k') == Lookup(o, u', t', s', k')
  {
    if u in o then o else o[u := map[]]
  }

  function WithTestcase(o: Outputs, u: string, t: string): (r: Outputs)
    requires u in o
    ensures u in r && t in r[u]
    ensures r.Keys == o.Keys
    ensures forall u', t', s', k' :: Lookup(r, u', t', s', k') == Lookup(o, u', t', s', k')
  {
    if t in o[u] then o else o[u := o[u][t := map[]]]
  }

  function WithScenario(o: Outputs, u: string, t: string, s: string): (r: Outputs)
    requires u in o && t in o[u]
    ensures u in r && t in r[u] && s in r[u][t]
    ensures r.Keys == o.Keys
    ensures forall u', t', s', k' :: Lookup(r, u', t', s', k') == Lookup(o, u', t', s', k')
  {
    if s in o[u][t] then o
    else
      NewScenarioReadsNothing(o, u, t, s);
      o[u := o[u][t := o[u][t][s := map[]]]]
  }

  lemma NewScenarioReadsNothing(o: Outputs, u: string, t: string, s: string)
    requires u in o && t in o[u] && s !in o[u][t]
    ensures forall u', t', s', k' :: Lookup(o[u := o[u][t := o[u][t][s := map[]]]], u', t', s', k') == Lookup(o, u', t', s', k')
  {
    var r := o[u := o[u][t := o[u][t][s := map[]]]];
    forall u', t', s', k' ensures Lookup(r, u', t', s', k') == Lookup(o, u', t', s', k') {
      if u' == u && t' == t && s' == s {
        assert Lookup(r, u', t', s', k') == Undefined;
      }
    }
  }

  /** `setScenarioOutput` for a truthy user id. */
  function Stored(o: Outputs, u: string, t: string, s: string, k: string, v: Value): Outputs
  {
    var c := WithContainer(o, u, t, s);
    c[u := c[u][t := c[u][t][s := c[u][t][s][k := v]]]]
  }

  /** `getScenarioAll`: the scenario's outputs, or an empty object. */
  function ScenarioAll(o: Outputs, u: string, t: string, s: string): map<string, Value>
  {
    if u in o && t in o[u] && s in o[u][t] then o[u][t][s] else map[]
  }

  /** `getTestcaseAll`: the testcase's outputs by scenario, or an empty object. */
  function TestcaseAll(o: Outputs, u: string, t: string): map<string, map<string, Value>>
  {
    if u in o && t in o[u] then o[u][t] else map[]
  }

  /** `resolvePlaceholder`: the stored value, or a MissingOutput error naming
      the reference when it is `undefined`. */
  function ResolvePlaceholder(o: Outputs, u: string, t: string, s: string, k: string): (r: Result<Value, Error>)
    ensures r.Ok? <==> Lookup(o, u, t, s, k) != Undefined
    ensures r.Ok? ==> r.value == Lookup(o, u, t, s, k)
    ensures r.Err? ==> r.error == MissingOutput(u, t, s, k)
  {
    var v := Lookup(o, u, t, s, k);
    if v == Undefined then Err(MissingOutput(u, t, s, k)) else Ok(v)
  }

  /** `resetUser` for a truthy user id. */
  function ResetUserSpec(o: Outputs, u: string): Outputs
  {
    o[u := map[]]
  }

  /** A read after a write of the same path returns the written value,
      whatever was there before. */
  lemma GetAfterSet(o: Outputs, u: string, t: string, s: string, k: string, v: Value)
    ensures Lookup(Stored(o, u, t, s, k, v), u, t, s, k) == v
  {
  }

  /** A write changes no other path: other users, testcases, scenarios and keys
      read as before. */
  lemma SetChangesOnlyItsPath(o: Outputs, u: string, t: string, s: string, k: string, v: Value,
                              u': string, t': string, s': string, k': string)
    requires (u', t', s', k') != (u, t, s, k)
    ensures Lookup(Stored(o, u, t, s, k, v), u', t', s', k') == Lookup(o, u', t', s', k')
  {
    var c := WithContainer(o, u, t, s);
    var r := c[u := c[u][t := c[u][t][s := c[u][t][s][k := v]]]];
    assert Lookup(c, u', t', s', k') == Lookup(o, u', t', s', k');
    if u' == u && t' == t && s' == s {
      assert k' != k;
      assert r[u][t][s] == c[u][t][s][k := v];
    } else if u' == u && t' == t {
      assert r[u][t] == c[u][t][s := c[u][t][s][k := v]];
    } else if u' == u {
      assert r[u] == c[u][t := c[u][t][s := c[u][t][s][k := v]]];
    }
  }

  /** Resetting a user empties that user's outputs and leaves every other
      user's container exactly as it was. */
  lemma ResetUserIsolates(o: Outputs, u: string)
    ensures forall t, s, k :: Lookup(ResetUserSpec(o, u), u, t, s, k) == Undefined
    ensures forall u' :: u' != u ==> (u' in ResetUserSpec(o, u) <==> u' in o)
    ensures forall u' :: u' != u && u' in o ==> ResetUserSpec(o, u)[u'] == o[u']
  {
  }

  /** `getScenarioAll` reports exactly the defined entries `getScenarioOutput`
      reads, and is empty when the scenario has no container. */
  lemma ScenarioAllAgreesWithLookup(o: Outputs, u: string, t: string, s: string)
    ensures forall k :: k in ScenarioAll(o, u, t, s) ==> ScenarioAll(o, u, t, s)[k] == Lookup(o, u, t, s, k)
    ensures forall k :: Lookup(o, u, t, s, k) != Undefined ==> k in ScenarioAll(o, u, t, s)
    ensures !(u in o && t in o[u] && s in o[u][t]) ==> ScenarioAll(o, u, t, s) == map[]
  {
  }

  /** `getTestcaseAll` is empty for an absent testcase and otherwise holds every
      scenario container `getScenarioAll` reads. */
  lemma TestcaseAllAgreesWithScenarioAll(o: Outputs, u: string, t: string)
    ensures !(u in o && t in o[u]) ==> TestcaseAll(o, u, t) == map[]
    ensures forall s :: s in TestcaseAll(o, u, t) ==> TestcaseAll(o, u, t)[s] == ScenarioAll(o, u, t, s)
  {
  }

  class DataStore {
    var userOutputs: Outputs

    constructor ()
      ensures userOutputs == map[]
    {
      userOutputs := map[];
    }

    method EnsureContainer(u: string, t: string, s: string) returns (r: Outcome<Error>)
      modifies this
      ensures r == if u == "" then Fail(UserIdRequired) else Pass
      ensures userOutputs == if u == "" then old(userOutputs) else WithContainer(old(userOutputs), u, t, s)
    {
      if u == "" {
        return Fail(UserIdRequired);
      }
      if u !in userOutputs {
        userOutputs := userOutputs[u := map[]];
      }
      assert userOutputs == WithUser(old(userOutputs), u);
      if t !in userOutputs[u] {
        userOutputs := userOutputs[u := userOutputs[u][t := map[]]];
      }
      assert userOutputs == WithTestcase(WithUser(old(userOutputs), u), u, t);
      if s !in userOutputs[u][t] {
        userOutputs := userOutputs[u := userOutputs[u][t := userOutputs[u][t][s := map[]]]];
      }
      r := Pass;
    }

    method SetScenarioOutput(u: string, t: string, s: string, k: string, v: Value) returns (r: Outcome<Error>)
      modifies this
      ensures r == if u == "" then Fail(UserIdRequired) else Pass
      ensures userOutputs == if u == "" then old(userOutputs) else Stored(old(userOutputs), u, t, s, k, v)
    {
      r := EnsureContainer(u, t, s);
      if r.Fail? {
        return;
      }
      userOutputs := userOutputs[u := userOutputs[u][t := userOutputs[u][t][s := userOutputs[u][t][s][k := v]]]];
    }

    function GetScenarioOutput(u: string, t: string, s: string, k: string): Value
      reads this
    {
      Lookup(userOutputs, u, t, s, k)
    }

    function GetScenarioAll(u: string, t: string, s: string): map<string, Value>
      reads this
    {
      ScenarioAll(userOutputs, u, t, s)
    }

    function GetTestcaseAll(u: string, t: string): map<string, map<string, Value>>
      reads this
    {
      TestcaseAll(userOutputs, u, t)
    }

    function Resolve(u: string, t: string, s: string, k: string): Result<Value, Error>
      reads this
    {
      ResolvePlaceholder(userOutputs, u, t, s, k)
    }

    method ResetUser(u: string) returns (r: Outcome<Error>)
      modifies this
      ensures r == if u == "" then Fail(UserIdRequired) else Pass
      ensures userOutputs == if u == "" then old(userOutputs) else ResetUserSpec(old(userOutputs), u)
    {
      if u == "" {
        return Fail(UserIdRequired);
      }
      userOutputs := userOutputs[u := map[]];
      r := Pass;
    }

    method ResetAll()
      modifies this
      ensures userOutputs == map[]
      ensures forall u, t, s, k :: GetScenarioOutput(u, t, s, k) == Undefined
    {
      userOutputs := map[];
    }
  }
}
