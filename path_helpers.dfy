/** `getNodeByPath(schema, path)`: follows `path` one key at a time from
    `schema`, giving `undefined` as soon as a value on the way is falsy. */
module PathHelpers {
  import opened Wrappers
  import opened Json

  /** `path.reduce((acc, seg) => acc ? acc[seg] : undefined, schema)`. */
  function GetNodeByPath(schema: Json, path: seq<string>): (r: Json)
    ensures path == [] ==> r == schema
    decreases |path|
  {
    if path == [] then schema
    else
      var acc := GetNodeByPath(schema, path[..|path| - 1]);
      if Truthy(acc) then Get(acc, path[|path| - 1]) else Undef
  }

  /** The same reduce with every step evaluated as JavaScript does, where reading
      a property of `undefined` or `null` throws. */
  function ReduceSteps(schema: Json, path: seq<string>): Result<Json, JsError>
    decreases |path|
  {
    if path == [] then Ok(schema)
    else
      var acc :- ReduceSteps(schema, path[..|path| - 1]);
      if Truthy(acc) then Read(acc, path[|path| - 1]) else Ok(Undef)
  }

  /** The truthiness guard makes the lookup total: it never throws, whatever the
      tree and the path. */
  lemma {:induction false} NeverThrows(schema: Json, path: seq<string>)
    ensures ReduceSteps(schema, path) == Ok(GetNodeByPath(schema, path))
    decreases |path|
  {
    if path != [] {
      NeverThrows(schema, path[..|path| - 1]);
    }
  }

  /** One more segment reads one more property of a truthy node. */
  lemma SnocPath(schema: Json, path: seq<string>, seg: string)
    ensures Truthy(GetNodeByPath(schema, path)) ==>
      GetNodeByPath(schema, path + [seg]) == Get(GetNodeByPath(schema, path), seg)
    ensures !Truthy(GetNodeByPath(schema, path)) ==> GetNodeByPath(schema, path + [seg]) == Undef
  {
    assert (path + [seg])[..|path|] == path;
  }

  /** Once a node on the way is falsy, the rest of the path gives `undefined`. */
  lemma {:induction false} FalsyStops(schema: Json, path: seq<string>, rest: seq<string>)
    requires !Truthy(GetNodeByPath(schema, path)) && rest != []
    ensures GetNodeByPath(schema, path + rest) == Undef
    decreases |rest|
  {
    var n := |rest| - 1;
    assert path + rest == (path + rest[..n]) + [rest[n]];
    if n > 0 {
      FalsyStops(schema, path, rest[..n]);
    } else {
      assert path + rest[..n] == path;
    }
    SnocPath(schema, path + rest[..n], rest[n]);
  }

  /** The lookup read from the front: the first segment is read from the tree,
      and the rest of the path from what it gives. */
  lemma {:induction false} ConsPath(schema: Json, seg: string, path: seq<string>)
    ensures GetNodeByPath(schema, [seg] + path) ==
      if Truthy(schema) then GetNodeByPath(Get(schema, seg), path) else Undef
    decreases |path|
  {
    if path == [] {
      SnocPath(schema, [], seg);
    } else {
      var n := |path| - 1;
      assert [seg] + path == ([seg] + path[..n]) + [path[n]];
      ConsPath(schema, seg, path[..n]);
      SnocPath(schema, [seg] + path[..n], path[n]);
      if Truthy(schema) {
        SnocPath(Get(schema, seg), path[..n], path[n]);
        assert path[..n] + [path[n]] == path;
      }
    }
  }
}
