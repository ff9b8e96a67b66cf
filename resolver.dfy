/** The placeholder resolver of framework/utils/resolveScenarioData.js: before a
    scenario runs, every field whose value is exactly `{scenarioId.key}` is
    replaced by the output stored for that scenario and key in the current
    testcase; every other field is copied as it is. */
module Resolver {
  import opened Wrappers
  import opened Js
  import opened Errors
  import opened OutputStore
  import opened Placeholder

  // ---------------------------------------------------------------------
  // resolveScenarioData
  // ---------------------------------------------------------------------

  /** How one field value is resolved. */
  function ResolveField(o: Outputs, u: string, t: string, v: Value): Result<Value, Error>
  {
    if !v.Str? then Ok(v)
    else
      match MatchPlaceholder(v.s)
      case None => Ok(v)
      case Some((sid, key)) => ResolvePlaceholder(o, u, t, sid, key)
  }

  /** `Object.entries` of an object or an array (index keys). */
  function EntriesOf(v: Value): seq<(string, Value)>
    requires v.Obj? || v.Arr?
  {
    if v.Obj? then v.fields
    else seq(|v.items|, i requires 0 <= i < |v.items| => (DecimalString(i), v.items[i]))
  }

  /** The loop over the entries, filling `acc` (the `resolved` object) and
      stopping at the first failing field. */
  function ResolveEntries(o: Outputs, u: string, t: string, entries: seq<(string, Value)>,
                          acc: seq<(string, Value)>): Result<seq<(string, Value)>, Error>
    decreases |entries|
  {
    if entries == [] then Ok(acc)
    else
      match ResolveField(o, u, t, entries[0].1)
      case Err(e) => Err(e)
      case Ok(x) => ResolveEntries(o, u, t, entries[1..], Put(acc, entries[0].0, x))
  }

  /** `resolveScenarioData(userId, testCaseId, scenarioData)`. */
  function ResolveData(o: Outputs, u: string, t: string, data: Value): Result<Value, Error>
  {
    if !(data.Obj? || data.Arr?) then Ok(data)
    else
      match ResolveEntries(o, u, t, EntriesOf(data), [])
      case Err(e) => Err(e)
      case Ok(r) => Ok(Obj(r))
  }

  method ResolveScenarioData(store: DataStore, u: string, t: string, data: Value) returns (r: Result<Value, Error>)
    ensures r == ResolveData(store.userOutputs, u, t, data)
  {
    if !(data.Obj? || data.Arr?) {
      return Ok(data);
    }
    var resolved := ResolveAll(store, u, t, EntriesOf(data));
    if resolved.Err? {
      return Err(resolved.error);
    }
    r := Ok(Obj(resolved.value));
  }

  /** The loop over `Object.entries`, filling a fresh `resolved` object. */
  method ResolveAll(store: DataStore, u: string, t: string, entries: seq<(string, Value)>) returns (r: Result<seq<(string, Value)>, Error>)
    ensures r == ResolveEntries(store.userOutputs, u, t, entries, [])
  {
    var resolved: seq<(string, Value)> := [];
    var i := 0;
    while i < |entries|
      invariant 0 <= i <= |entries|
      invariant ResolveEntries(store.userOutputs, u, t, entries[i..], resolved)
             == ResolveEntries(store.userOutputs, u, t, entries, [])
    {
      var (fieldId, value) := entries[i];
      var x := ResolveValue(store, u, t, value);
      ResolveEntriesStep(store.userOutputs, u, t, entries, i, resolved);
      if x.Err? {
        return Err(x.error);
      }
      resolved := Put(resolved, fieldId, x.value);
      i := i + 1;
    }
    assert entries[i..] == [];
    r := Ok(resolved);
  }

  /** One turn of the loop: the field at `i` fails the whole or is added. */
  lemma ResolveEntriesStep(o: Outputs, u: string, t: string, entries: seq<(string, Value)>, i: nat, acc: seq<(string, Value)>)
    requires i < |entries|
    ensures var x := ResolveField(o, u, t, entries[i].1);
            ResolveEntries(o, u, t, entries[i..], acc) ==
              if x.Err? then Err(x.error) else ResolveEntries(o, u, t, entries[i + 1..], Put(acc, entries[i].0, x.value))
  {
    assert entries[i..][0] == entries[i];
    assert entries[i..][1..] == entries[i + 1..];
  }

  /** One field of the loop: a value that is not a string, or a string that
      is not exactly a placeholder, is kept; a placeholder is read from the
      store. */
  method ResolveValue(store: DataStore, u: string, t: string, value: Value) returns (r: Result<Value, Error>)
    ensures r == ResolveField(store.userOutputs, u, t, value)
  {
    if !value.Str? {
      return Ok(value);
    }
    var m := MatchPlaceholder(value.s);
    if m.None? {
      return Ok(value);
    }
    r := store.Resolve(u, t, m.value.0, m.value.1);
  }

  // ---------------------------------------------------------------------
  // Properties
  // ---------------------------------------------------------------------

  /** Reference definition: each field resolved on its own, in order, the
      first failure failing the whole. */
  function ResolvedPairs(o: Outputs, u: string, t: string, e: seq<(string, Value)>): Result<seq<(string, Value)>, Error>
  {
    if e == [] then Ok([])
    else
      match ResolveField(o, u, t, e[0].1)
      case Err(err) => Err(err)
      case Ok(x) =>
        match ResolvedPairs(o, u, t, e[1..])
        case Err(err) => Err(err)
        case Ok(rest) => Ok([(e[0].0, x)] + rest)
  }

  /** Keys of `acc` that clash with none of `e`'s. */
  ghost predicate Disjoint(acc: seq<(string, Value)>, e: seq<(string, Value)>)
  {
    forall i, j :: 0 <= i < |acc| && 0 <= j < |e| ==> acc[i].0 != e[j].0
  }

  lemma PutFresh(acc: seq<(string, Value)>, k: string, x: Value)
    requires forall i :: 0 <= i < |acc| ==> acc[i].0 != k
    ensures Put(acc, k, x) == acc + [(k, x)]
  {
    assert Find(acc, k) == |acc|;
  }

  lemma DisjointStep(acc: seq<(string, Value)>, e: seq<(string, Value)>, x: Value)
    requires e != [] && UniqueKeys(e) && Disjoint(acc, e)
    ensures UniqueKeys(e[1..]) && Disjoint(acc + [(e[0].0, x)], e[1..])
  {
    var acc' := acc + [(e[0].0, x)];
    forall i, j | 0 <= i < |acc'| && 0 <= j < |e[1..]| ensures acc'[i].0 != e[1..][j].0 {
      assert e[1..][j] == e[j + 1];
      if i < |acc| {
        assert acc'[i] == acc[i];
      }
    }
  }

  /** `acc` followed by the pairs of a successful result. */
  function WithPrefix(acc: seq<(string, Value)>, r: Result<seq<(string, Value)>, Error>): Result<seq<(string, Value)>, Error>
  {
    match r
    case Err(err) => Err(err)
    case Ok(p) => Ok(acc + p)
  }

  /** For an object (distinct keys), the loop computes the reference
      definition after whatever `acc` already holds. */
  lemma {:induction false} ResolveEntriesIsPointwise(o: Outputs, u: string, t: string,
                                                      e: seq<(string, Value)>, acc: seq<(string, Value)>)
    requires UniqueKeys(e) && Disjoint(acc, e)
    ensures ResolveEntries(o, u, t, e, acc) == WithPrefix(acc, ResolvedPairs(o, u, t, e))
  {
    if e == [] {
      assert acc + [] == acc;
    } else {
      var f := ResolveField(o, u, t, e[0].1);
      if f.Ok? {
        var acc' := acc + [(e[0].0, f.value)];
        PutFresh(acc, e[0].0, f.value);
        DisjointStep(acc, e, f.value);
        ResolveEntriesIsPointwise(o, u, t, e[1..], acc');
        PrefixStep(acc, e[0].0, f.value, ResolvedPairs(o, u, t, e[1..]));
      }
    }
  }

  lemma PrefixStep(acc: seq<(string, Value)>, k: string, x: Value, rest: Result<seq<(string, Value)>, Error>)
    ensures WithPrefix(acc + [(k, x)], rest)
         == WithPrefix(acc, match rest case Err(err) => Err(err) case Ok(p) => Ok([(k, x)] + p))
  {
    if rest.Ok? {
      assert acc + [(k, x)] + rest.value == acc + ([(k, x)] + rest.value);
    }
  }

  /** `resolveScenarioData` on an object is the reference definition. */
  lemma ResolveDataObject(o: Outputs, u: string, t: string, fields: seq<(string, Value)>)
    requires UniqueKeys(fields)
    ensures ResolveData(o, u, t, Obj(fields))
         == match ResolvedPairs(o, u, t, fields) case Err(err) => Err(err) case Ok(p) => Ok(Obj(p))
  {
    ResolveEntriesIsPointwise(o, u, t, fields, []);
    var r := ResolvedPairs(o, u, t, fields);
    if r.Ok? {
      assert [] + r.value == r.value;
    }
  }

  /** The reference definition keeps every field id in place and resolves each
      value by `ResolveField`; it fails exactly when some field fails, with the
      first failing field's error. */
  lemma ResolvedPairsShape(o: Outputs, u: string, t: string, e: seq<(string, Value)>)
    ensures ResolvedPairs(o, u, t, e).Ok? ==>
              var p := ResolvedPairs(o, u, t, e).value;
              |p| == |e| && forall i :: 0 <= i < |e| ==> p[i].0 == e[i].0 && ResolveField(o, u, t, e[i].1) == Ok(p[i].1)
    ensures ResolvedPairs(o, u, t, e).Ok? <==> forall i :: 0 <= i < |e| ==> ResolveField(o, u, t, e[i].1).Ok?
    ensures ResolvedPairs(o, u, t, e).Err? ==> exists i :: FailsFirstAt(o, u, t, e, i, ResolvedPairs(o, u, t, e).error)
  {
    ResolvedPairsPointwise(o, u, t, e);
    ResolvedPairsOk(o, u, t, e);
    ResolvedPairsFirstError(o, u, t, e);
  }

  lemma {:induction false} ResolvedPairsPointwise(o: Outputs, u: string, t: string, e: seq<(string, Value)>)
    ensures ResolvedPairs(o, u, t, e).Ok? ==>
              var p := ResolvedPairs(o, u, t, e).value;
              |p| == |e| && forall i :: 0 <= i < |e| ==> p[i].0 == e[i].0 && ResolveField(o, u, t, e[i].1) == Ok(p[i].1)
  {
    if e != [] {
      ResolvedPairsPointwise(o, u, t, e[1..]);
      assert forall i :: 1 <= i < |e| ==> e[1..][i - 1] == e[i];
    }
  }

  lemma {:induction false} ResolvedPairsOk(o: Outputs, u: string, t: string, e: seq<(string, Value)>)
    ensures ResolvedPairs(o, u, t, e).Ok? <==> forall i :: 0 <= i < |e| ==> ResolveField(o, u, t, e[i].1).Ok?
  {
    if e != [] {
      ResolvedPairsOk(o, u, t, e[1..]);
      assert forall i :: 1 <= i < |e| ==> e[1..][i - 1] == e[i];
    }
  }

  /** Field `i` of `e` fails with `err` and every field before it resolves. */
  ghost predicate FailsFirstAt(o: Outputs, u: string, t: string, e: seq<(string, Value)>, i: int, err: Error)
  {
    0 <= i < |e| && ResolveField(o, u, t, e[i].1) == Err(err)
    && forall j :: 0 <= j < i ==> ResolveField(o, u, t, e[j].1).Ok?
  }

  lemma {:induction false} ResolvedPairsFirstErrorAt(o: Outputs, u: string, t: string, e: seq<(string, Value)>)
    returns (i: int)
    requires ResolvedPairs(o, u, t, e).Err?
    ensures FailsFirstAt(o, u, t, e, i, ResolvedPairs(o, u, t, e).error)
  {
    var f := ResolveField(o, u, t, e[0].1);
    if f.Err? {
      i := 0;
    } else {
      var rest := ResolvedPairs(o, u, t, e[1..]);
      assert rest.Err?;
      var k := ResolvedPairsFirstErrorAt(o, u, t, e[1..]);
      assert forall j :: 1 <= j < k + 1 ==> e[1..][j - 1] == e[j];
      assert e[1..][k] == e[k + 1];
      i := k + 1;
    }
  }

  lemma ResolvedPairsFirstError(o: Outputs, u: string, t: string, e: seq<(string, Value)>)
    ensures ResolvedPairs(o, u, t, e).Err? ==> exists i :: FailsFirstAt(o, u, t, e, i, ResolvedPairs(o, u, t, e).error)
  {
    if ResolvedPairs(o, u, t, e).Err? {
      var i := ResolvedPairsFirstErrorAt(o, u, t, e);
    }
  }

  /** For an object: on success the result has the same field ids in the same
      order, and each value is the field resolved on its own (copied when it is
      not a placeholder, the stored output when it is). */
  lemma ResolveKeepsFields(o: Outputs, u: string, t: string, fields: seq<(string, Value)>)
    requires UniqueKeys(fields)
    ensures ResolveData(o, u, t, Obj(fields)).Ok? ==>
              var r := ResolveData(o, u, t, Obj(fields)).value;
              r.Obj? && KeysOf(r.fields) == KeysOf(fields)
              && forall i :: 0 <= i < |fields| ==> ResolveField(o, u, t, fields[i].1) == Ok(r.fields[i].1)
  {
    ResolveDataObject(o, u, t, fields);
    ResolvedPairsShape(o, u, t, fields);
  }

  /** All or nothing: the call fails exactly when some field is a placeholder
      whose output is undefined, and the error names such a reference (the
      first one, by `ResolvedPairsFirstError`). */
  lemma ResolveFailsOnMissingOutput(o: Outputs, u: string, t: string, fields: seq<(string, Value)>)
    requires UniqueKeys(fields)
    ensures ResolveData(o, u, t, Obj(fields)).Err? <==>
              exists i, sid, key :: 0 <= i < |fields| && fields[i].1.Str? && MatchPlaceholder(fields[i].1.s) == Some((sid, key))
                                 && Lookup(o, u, t, sid, key) == Undefined
    ensures ResolveData(o, u, t, Obj(fields)).Err? ==>
              exists i, sid, key :: 0 <= i < |fields| && fields[i].1.Str? && MatchPlaceholder(fields[i].1.s) == Some((sid, key))
                                 && Lookup(o, u, t, sid, key) == Undefined
                                 && ResolveData(o, u, t, Obj(fields)).error == MissingOutput(u, t, sid, key)
  {
    ResolveDataObject(o, u, t, fields);
    ResolvedPairsShape(o, u, t, fields);
    if ResolveData(o, u, t, Obj(fields)).Err? {
      var i :| 0 <= i < |fields| && ResolveField(o, u, t, fields[i].1) == Err(ResolvedPairs(o, u, t, fields).error);
      var sid, key := MatchPlaceholder(fields[i].1.s).value.0, MatchPlaceholder(fields[i].1.s).value.1;
      assert Lookup(o, u, t, sid, key) == Undefined;
    }
  }

  /** Idempotence: an object none of whose values is a placeholder-shaped string
      resolves to itself. */
  lemma ResolveLiteralIsIdentity(o: Outputs, u: string, t: string, fields: seq<(string, Value)>)
    requires UniqueKeys(fields)
    requires forall i :: 0 <= i < |fields| && fields[i].1.Str? ==> MatchPlaceholder(fields[i].1.s) == None
    ensures ResolveData(o, u, t, Obj(fields)) == Ok(Obj(fields))
  {
    ResolveDataObject(o, u, t, fields);
    ResolvedPairsShape(o, u, t, fields);
    var p := ResolvedPairs(o, u, t, fields).value;
    assert p == fields;
  }

  /** A value that is not an object (null, undefined, a string, a number) is
      returned as it is. */
  lemma NonObjectUnchanged(o: Outputs, u: string, t: string, data: Value)
    requires !data.Obj? && !data.Arr?
    ensures ResolveData(o, u, t, data) == Ok(data)
  {
  }
}
