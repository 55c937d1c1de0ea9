/**
 * Decoded JSON payloads as the device returns them, and the descent into a
 * payload along a `/`-separated path (TStat.py:147-150).
 */
module Json {

  /** A decoded JSON document. Numbers are one kind, as `1 == 1.0` in Python. */
  datatype Json =
    | Obj(fields: map<string, Json>)
    | Arr(items: seq<Json>)
    | Str(text: string)
    | Num(number: real)
    | Bool(flag: bool)
    | Null

  /** Why one step of the descent failed: a `KeyError` or a `TypeError` in the source. */
  datatype PathError =
    | MissingKey(key: string)   // the current value is an object without this key
    | NotAnObject(key: string)  // the current value is not an object at all

  datatype Result<+T> = Ok(value: T) | Err(error: PathError)

  /** `s.split("/")`: the segments between slashes, empty ones included. */
  function Split(s: string): (parts: seq<string>)
    ensures |parts| >= 1
    ensures forall i :: 0 <= i < |parts| ==> '/' !in parts[i]
  {
    if s == [] then [""]
    else
      var rest := Split(s[1..]);
      if s[0] == '/' then [""] + rest
      else [[s[0]] + rest[0]] + rest[1..]
  }

  /** `"/".join(parts)`, the inverse of Split. */
  function Join(parts: seq<string>): string
    requires |parts| >= 1
  {
    if |parts| == 1 then parts[0] else parts[0] + "/" + Join(parts[1..])
  }

  lemma {:induction false} JoinSplit(s: string)
    ensures Join(Split(s)) == s
    decreases |s|
  {
    if s != [] {
      JoinSplit(s[1..]);
      var rest := Split(s[1..]);
      if s[0] == '/' {
        assert ([""] + rest)[1..] == rest;
      } else if |rest| > 1 {
        var head := [s[0]] + rest[0];
        assert ([head] + rest[1..])[1..] == rest[1..];
        assert Join(rest) == rest[0] + "/" + Join(rest[1..]);
        assert head + "/" + Join(rest[1..]) == [s[0]] + (rest[0] + "/" + Join(rest[1..]));
        assert s == [s[0]] + s[1..];
      } else {
        assert s == [s[0]] + s[1..];
      }
    }
  }

  /** A slash-free string is a single segment: `"fmode"` descends one level. */
  lemma {:induction false} SplitNoSlash(p: string)
    requires '/' !in p
    ensures Split(p) == [p]
    decreases |p|
  {
    if p != [] {
      assert '/' !in p[1..] by {
        forall c | c in p[1..] ensures c != '/' { assert c in p; }
      }
      SplitNoSlash(p[1..]);
      assert [p[0]] + p[1..] == p;
    }
  }

  lemma {:induction false} SplitPrefix(p: string, t: string)
    requires '/' !in p
    ensures Split(p + "/" + t) == [p] + Split(t)
    decreases |p|
  {
    if p == [] {
      assert p + "/" + t == "/" + t;
      assert ("/" + t)[1..] == t;
    } else {
      assert '/' !in p[1..] by {
        forall c | c in p[1..] ensures c != '/' { assert c in p; }
      }
      SplitPrefix(p[1..], t);
      var s := p + "/" + t;
      assert s[0] == p[0];
      assert s[1..] == p[1..] + "/" + t;
      assert [p[0]] + p[1..] == p;
    }
  }

  lemma {:induction false} SplitJoin(parts: seq<string>)
    requires |parts| >= 1
    requires forall i :: 0 <= i < |parts| ==> '/' !in parts[i]
    ensures Split(Join(parts)) == parts
    decreases |parts|
  {
    if |parts| == 1 {
      SplitNoSlash(parts[0]);
    } else {
      SplitJoin(parts[1..]);
      SplitPrefix(parts[0], Join(parts[1..]));
      assert [parts[0]] + parts[1..] == parts;
    }
  }

  /** Descends one level per segment; a missing or non-object level is an error. */
  function Lookup(v: Json, path: seq<string>): (r: Result<Json>)
    ensures r.Err? ==> r.error.key in path
    ensures path == [] ==> r == Ok(v)
    decreases |path|
  {
    if path == [] then Ok(v)
    else match v
      case Obj(m) =>
        if path[0] in m then Lookup(m[path[0]], path[1..]) else Err(MissingKey(path[0]))
      case _ => Err(NotAnObject(path[0]))
  }

  /** The result of a descent so far allows one more step along `key`. */
  predicate CanStep(r: Result<Json>, key: string)
  {
    r.Ok? && r.value.Obj? && key in r.value.fields
  }

  /** Descending along `a + b` is descending along `a`, then along `b`. */
  lemma {:induction false} LookupAppend(v: Json, a: seq<string>, b: seq<string>)
    ensures Lookup(v, a + b) ==
      match Lookup(v, a)
      case Ok(u) => Lookup(u, b)
      case Err(e) => Err(e)
    decreases |a|
  {
    if a == [] {
      assert a + b == b;
    } else {
      assert (a + b)[0] == a[0];
      assert (a + b)[1..] == a[1..] + b;
      match v
      case Obj(m) =>
        if a[0] in m { LookupAppend(m[a[0]], a[1..], b); }
      case _ =>
    }
  }

  /** A descent succeeds exactly when every level is an object holding the next segment. */
  lemma {:induction false} LookupSucceedsIff(v: Json, path: seq<string>)
    ensures Lookup(v, path).Ok? <==>
      forall i :: 0 <= i < |path| ==> CanStep(Lookup(v, path[..i]), path[i])
    decreases |path|
  {
    if path != [] {
      var n := |path| - 1;
      var p := path[..n];
      var k := path[n];
      assert path == p + [k];
      LookupAppend(v, p, [k]);
      LookupSucceedsIff(v, p);
      assert forall i :: 0 <= i < n ==> p[..i] == path[..i] && p[i] == path[i];
      if Lookup(v, path).Ok? {
        assert Lookup(v, p).Ok?;
        assert CanStep(Lookup(v, p), k);
      } else if Lookup(v, p).Ok? {
        assert !CanStep(Lookup(v, path[..n]), path[n]);
      } else {
        var i :| 0 <= i < n && !CanStep(Lookup(v, p[..i]), p[i]);
        assert !CanStep(Lookup(v, path[..i]), path[i]);
      }
    }
  }

  /** The descent loop of TStat.py:149-150, rebinding `response` one segment at a time. */
  method Descend(payload: Json, path: seq<string>) returns (r: Result<Json>)
    ensures r == Lookup(payload, path)
  {
    var response := payload;
    var i := 0;
    while i < |path|
      invariant 0 <= i <= |path|
      invariant Lookup(payload, path) == Lookup(response, path[i..])
    {
      var key := path[i];
      assert path[i..][0] == key && path[i..][1..] == path[i + 1..];
      if !response.Obj? {
        return Err(NotAnObject(key));
      }
      if key !in response.fields {
        return Err(MissingKey(key));
      }
      response := response.fields[key];
      i := i + 1;
    }
    return Ok(response);
  }

  /** The nested-path example: `today/heat_runtime`. */
  lemma NestedPathScenario()
    ensures Lookup(Obj(map["today" := Obj(map["heat_runtime" := Num(42.0)])]),
                   Split("today/heat_runtime")) == Ok(Num(42.0))
    ensures Lookup(Obj(map["today" := Obj(map[])]), Split("today/heat_runtime"))
            == Err(MissingKey("heat_runtime"))
  {
    SplitJoin(["today", "heat_runtime"]);
    assert Join(["today", "heat_runtime"]) == "today/heat_runtime";
  }
}
