/** `Config.get` of the configuration singleton: a dotted key such as
    `"engine.strategy"` walks the loaded JSON document one dictionary level
    per component. */
module Configuration {
  import opened Wrappers
  import PyText

  /** A JSON value as far as the lookup cares: a dictionary, or anything
      else (a number, a string, a list, null), kept as its text. */
  datatype JsonValue = Atom(text: string) | Dict(entries: map<string, JsonValue>)

  /** The value reached by following `path` from `cur`, or `None` when a
      component is missing or the value reached so far is not a
      dictionary. */
  function At(cur: JsonValue, path: seq<string>): Option<JsonValue>
    decreases |path|
  {
    if path == [] then Some(cur)
    else if cur.Dict? && path[0] in cur.entries then At(cur.entries[path[0]], path[1..])
    else None
  }

  /** Following a path in two legs is following it at once. */
  lemma {:induction false} AtConcat(cur: JsonValue, p: seq<string>, q: seq<string>)
    ensures At(cur, p + q) == if At(cur, p).Some? then At(At(cur, p).value, q) else None
    decreases |p|
  {
    if p == [] {
      assert p + q == q;
    } else {
      assert (p + q)[0] == p[0] && (p + q)[1..] == p[1..] + q;
      if cur.Dict? && p[0] in cur.entries {
        AtConcat(cur.entries[p[0]], p[1..], q);
      }
    }
  }

  /** `get` on the document `data`. */
  function Lookup(data: JsonValue, key: string, default: JsonValue): JsonValue {
    At(data, PyText.Split(key, '.')).GetOr(default)
  }

  /** A key without a dot is looked up in the top-level dictionary: its
      value as stored, a nested dictionary included, or the default. */
  lemma LookupPlain(data: JsonValue, key: string, default: JsonValue)
    requires '.' !in key
    ensures Lookup(data, key, default) ==
      if data.Dict? && key in data.entries then data.entries[key] else default
  {
    assert PyText.Split(key, '.') == [key];
    if data.Dict? && key in data.entries {
      assert At(data, [key]) == At(data.entries[key], []);
    }
  }

  /** `get("a.rest")` is `get("rest")` inside the dictionary under `a`; if
      `a` is missing or the document is not a dictionary the default comes
      back without looking further. */
  lemma {:induction false} LookupDotted(data: JsonValue, head: string, rest: string, default: JsonValue)
    requires '.' !in head
    ensures Lookup(data, head + "." + rest, default) ==
      if data.Dict? && head in data.entries then Lookup(data.entries[head], rest, default) else default
  {
    PyText.SplitCons(head, rest, '.');
  }

  /** The configuration singleton, after `load` has read `data`. */
  class Config {
    var data: JsonValue

    constructor (data: JsonValue)
      ensures this.data == data
    {
      this.data := data;
    }

    /** `get`: descend one component at a time; the first component that
        cannot be followed gives the default. */
    method Get(key: string, default: JsonValue) returns (r: JsonValue)
      ensures r == Lookup(data, key, default)
    {
      var parts := PyText.Split(key, '.');
      var cur := data;
      for i := 0 to |parts|
        invariant At(data, parts[..i]) == Some(cur)
      {
        AtConcat(data, parts[..i], [parts[i]]);
        assert parts[..i] + [parts[i]] == parts[..i + 1];
        if cur.Dict? && parts[i] in cur.entries {
          cur := cur.entries[parts[i]];
        } else {
          AtConcat(data, parts[..i + 1], parts[i + 1..]);
          assert parts[..i + 1] + parts[i + 1..] == parts;
          return default;
        }
      }
      assert parts[..|parts|] == parts;
      return cur;
    }
  }
}
