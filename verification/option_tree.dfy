/** Dotted option paths and the nested option objects they build: `path.split('.')`
    and the inner reduce of `ChartElement.connectedCallback` that walks down the path,
    creating empty objects where a part is missing. */
module OptionTree {
  import opened Js

  /** `s.split('.')`: the pieces between dots, never an empty list. */
  function Split(s: string): (parts: seq<string>)
    ensures |parts| >= 1
    ensures forall p :: p in parts ==> '.' !in p
  {
    if |s| == 0 then [""]
    else
      var rest := Split(s[1..]);
      if s[0] == '.' then [""] + rest
      else [[s[0]] + rest[0]] + rest[1..]
  }

  /** `parts.join('.')`. */
  function Join(parts: seq<string>): string
    requires |parts| >= 1
  {
    if |parts| == 1 then parts[0] else parts[0] + "." + Join(parts[1..])
  }

  lemma {:induction false} JoinSplit(s: string)
    ensures Join(Split(s)) == s
  {
    if |s| == 0 {
    } else {
      var rest := Split(s[1..]);
      JoinSplit(s[1..]);
      if s[0] == '.' {
        assert ([""] + rest)[1..] == rest;
      } else {
        var parts := [[s[0]] + rest[0]] + rest[1..];
        if |rest| > 1 {
          assert parts[1..] == rest[1..];
          assert Join(rest) == rest[0] + "." + Join(rest[1..]);
        }
        assert s == [s[0]] + s[1..];
      }
    }
  }

  lemma {:induction false} SplitDotFree(p: string)
    requires '.' !in p
    ensures Split(p) == [p]
  {
    if |p| > 0 {
      assert '.' !in p[1..] by { assert forall c :: c in p[1..] ==> c in p; }
      SplitDotFree(p[1..]);
      assert p == [p[0]] + p[1..];
    }
  }

  lemma {:induction false} SplitAfterPiece(p: string, t: string)
    requires '.' !in p
    ensures Split(p + "." + t) == [p] + Split(t)
  {
    if |p| == 0 {
      assert p + "." + t == ['.'] + t;
      assert (['.'] + t)[1..] == t;
    } else {
      assert '.' !in p[1..] by { assert forall c :: c in p[1..] ==> c in p; }
      SplitAfterPiece(p[1..], t);
      assert (p + "." + t)[1..] == p[1..] + "." + t;
      assert p == [p[0]] + p[1..];
    }
  }

  /** Splitting undoes joining dot-free pieces. */
  lemma {:induction false} SplitJoin(parts: seq<string>)
    requires |parts| >= 1
    requires forall p :: p in parts ==> '.' !in p
    ensures Split(Join(parts)) == parts
  {
    if |parts| == 1 {
      SplitDotFree(parts[0]);
    } else {
      assert forall p :: p in parts[1..] ==> p in parts;
      SplitJoin(parts[1..]);
      SplitAfterPiece(parts[0], Join(parts[1..]));
      assert parts == [parts[0]] + parts[1..];
    }
  }

  /** The first piece is the text before the first dot. */
  lemma {:induction false} SplitFirstIsPrefix(s: string)
    ensures |Split(s)[0]| <= |s| && Split(s)[0] == s[..|Split(s)[0]|]
  {
    if |s| > 0 {
      SplitFirstIsPrefix(s[1..]);
    }
  }

  /** The value found by following `path` through nested plain objects. */
  function Lookup(t: JsValue, path: seq<string>): Option<JsValue>
    decreases |path|
  {
    if |path| == 0 then Some(t)
    else if t.Obj? && path[0] in t.fields then Lookup(t.fields[path[0]], path[1..])
    else None
  }

  /** `q` leaves `p` at some position: neither path is a prefix of the other. */
  predicate Diverge(p: seq<string>, q: seq<string>) {
    exists k :: 0 <= k < |p| && k < |q| && p[k] != q[k]
  }

  /** The inner reduce followed by `leaf[key] = value`: walk `parents` from `t`, create
      `{}` for each missing part, and assign `key` on the object reached. In a module
      (strict mode) `part in obj` and the final assignment throw a TypeError when the
      object reached is a primitive. */
  function SetPath(t: JsValue, parents: seq<string>, key: string, v: JsValue): (r: Result<JsValue>)
    decreases |parents|
    ensures r.Ok? ==> r.value.Obj?
  {
    if !t.Obj? then Err(TypeError)
    else if |parents| == 0 then Ok(Obj(t.fields[key := v]))
    else
      var child := if parents[0] in t.fields then t.fields[parents[0]] else Obj(map[]);
      match SetPath(child, parents[1..], key, v)
      case Err(e) => Err(e)
      case Ok(c) => Ok(Obj(t.fields[parents[0] := c]))
  }

  /** Something that is not a plain object sits on the way down `parents`. */
  ghost predicate Blocked(t: JsValue, parents: seq<string>) {
    exists i :: 0 <= i <= |parents| && Lookup(t, parents[..i]).Some? && !Lookup(t, parents[..i]).value.Obj?
  }

  lemma {:induction false} LookupStep(t: JsValue, parents: seq<string>, i: nat)
    requires t.Obj? && |parents| > 0 && parents[0] in t.fields && 1 <= i <= |parents|
    ensures Lookup(t, parents[..i]) == Lookup(t.fields[parents[0]], parents[1..][..i - 1])
  {
    assert parents[..i][1..] == parents[1..][..i - 1];
  }

  /** After a successful placement the value sits at the path. */
  lemma {:induction false} SetPathPlaces(t: JsValue, parents: seq<string>, key: string, v: JsValue)
    requires SetPath(t, parents, key, v).Ok?
    ensures Lookup(SetPath(t, parents, key, v).value, parents + [key]) == Some(v)
    decreases |parents|
  {
    if |parents| > 0 {
      var child := if parents[0] in t.fields then t.fields[parents[0]] else Obj(map[]);
      SetPathPlaces(child, parents[1..], key, v);
      assert (parents + [key])[1..] == parents[1..] + [key];
    }
  }

  /** A placement touches no path that leaves the placed path. */
  lemma {:induction false} SetPathFrame(t: JsValue, parents: seq<string>, key: string, v: JsValue, q: seq<string>)
    requires SetPath(t, parents, key, v).Ok?
    requires Diverge(parents + [key], q)
    ensures Lookup(SetPath(t, parents, key, v).value, q) == Lookup(t, q)
    decreases |parents|
  {
    var p := parents + [key];
    var k :| 0 <= k < |p| && k < |q| && p[k] != q[k];
    if k > 0 && |parents| > 0 && parents[0] == q[0] {
      var child := if parents[0] in t.fields then t.fields[parents[0]] else Obj(map[]);
      assert p[1..] == parents[1..] + [key];
      assert p[1..][k - 1] != q[1..][k - 1];
      SetPathFrame(child, parents[1..], key, v, q[1..]);
      if parents[0] !in t.fields {
        assert |q[1..]| > 0;
        assert q[1..][0] !in child.fields;
      }
    } else if |parents| == 0 {
      assert k == 0;
    }
  }

  /** The placement fails exactly when a primitive value blocks the way. */
  lemma {:induction false} SetPathFailsIffBlocked(t: JsValue, parents: seq<string>, key: string, v: JsValue)
    ensures SetPath(t, parents, key, v).Err? <==> Blocked(t, parents)
    decreases |parents|
  {
    assert parents[..0] == [];
    if !t.Obj? {
      assert Lookup(t, parents[..0]) == Some(t);
    } else if |parents| == 0 {
    } else if parents[0] in t.fields {
      var child := t.fields[parents[0]];
      SetPathFailsIffBlocked(child, parents[1..], key, v);
      if Blocked(child, parents[1..]) {
        var i :| 0 <= i <= |parents[1..]| && Lookup(child, parents[1..][..i]).Some? && !Lookup(child, parents[1..][..i]).value.Obj?;
        LookupStep(t, parents, i + 1);
      }
      if Blocked(t, parents) {
        var i :| 0 <= i <= |parents| && Lookup(t, parents[..i]).Some? && !Lookup(t, parents[..i]).value.Obj?;
        assert i > 0;
        LookupStep(t, parents, i);
      }
    } else {
      var child := Obj(map[]);
      SetPathFailsIffBlocked(child, parents[1..], key, v);
      assert parents[1..][..0] == [];
      forall i | 1 <= i <= |parents[1..]| ensures Lookup(child, parents[1..][..i]) == None {
        assert parents[1..][..i][0] !in child.fields;
      }
      forall i | 1 <= i <= |parents| ensures Lookup(t, parents[..i]) == None {
        assert parents[..i][0] == parents[0];
      }
    }
  }
}
