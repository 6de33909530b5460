/** The three lodash path helpers the key utilities delegate to, `_.get`,
    `_.set` and `_.unset`, for paths given as a sequence of property names
    (the parts of a dot-separated string). */
module Lodash {
  import opened Json

  type Path = seq<string>

  /** `v[k]` for an own property; every other lookup gives undefined. */
  function Property(v: Value, k: string): Value
  {
    if v.Obj? && k in v.fields then v.fields[k] else Undefined
  }

  /** `_.get(v, path)`: follow the path one property at a time; once a step
      reaches null, undefined or a primitive, the result is undefined. */
  function Get(v: Value, path: Path): (r: Value)
    ensures |path| >= 1 && !v.Obj? ==> r == Undefined
    ensures |path| >= 1 && v.Obj? && path[0] !in v.fields ==> r == Undefined
    decreases |path|
  {
    if |path| == 0 then v else Get(Property(v, path[0]), path[1..])
  }

  /** The container `_.set` walks into: an existing object is reused, any
      other value is replaced by a fresh empty object. */
  function Container(v: Value): (c: Value)
    ensures c.Obj?
    ensures v.Obj? ==> c == v
  {
    if v.Obj? then v else Obj(map[])
  }

  /** `_.set(v, path, x)`: null and primitives are returned untouched; on an
      object, every step but the last reuses or creates an object, and the
      last step assigns `x`. */
  function Set(v: Value, path: Path, x: Value): (r: Value)
    requires |path| >= 1
    ensures r.Obj? <==> v.Obj?
    ensures !v.Obj? ==> r == v
    decreases |path|
  {
    if !v.Obj? then v
    else if |path| == 1 then Obj(v.fields[path[0] := x])
    else Obj(v.fields[path[0] := Set(Container(Property(v, path[0])), path[1..], x)])
  }

  /** `_.unset(v, path)`: find the parent of the last property by `_.get`
      and delete that property from it; nothing changes when the parent is
      missing, null or a primitive. */
  function Unset(v: Value, path: Path): (r: Value)
    requires |path| >= 1
    ensures r.Obj? <==> v.Obj?
    ensures !v.Obj? ==> r == v
    decreases |path|
  {
    if !v.Obj? then v
    else if |path| == 1 then Obj(v.fields - {path[0]})
    else if path[0] in v.fields then Obj(v.fields[path[0] := Unset(v.fields[path[0]], path[1..])])
    else v
  }

  /** Neither path is a prefix of the other: they part ways at some step. */
  predicate Disjoint(p: Path, q: Path)
    decreases |p|
  {
    |p| > 0 && |q| > 0 && (p[0] != q[0] || Disjoint(p[1..], q[1..]))
  }

  /** Reading a path that starts with `p` is reading the rest of it from
      what `p` leads to. */
  lemma {:induction false} GetAppend(v: Value, p: Path, q: Path)
    ensures Get(v, p + q) == Get(Get(v, p), q)
    decreases |p|
  {
    if |p| == 0 {
      assert p + q == q;
    } else {
      assert (p + q)[0] == p[0];
      assert (p + q)[1..] == p[1..] + q;
      GetAppend(Property(v, p[0]), p[1..], q);
    }
  }

  /** After setting `x` at `p` in an object, `p` leads to `x` and every path
      below `p` reads from `x`. */
  lemma {:induction false} SetThenGet(v: Value, p: Path, x: Value, q: Path)
    requires v.Obj? && |p| >= 1
    ensures Get(Set(v, p, x), p) == x
    ensures Get(Set(v, p, x), p + q) == Get(x, q)
    decreases |p|
  {
    var r := Set(v, p, x);
    assert Property(r, p[0]) == if |p| == 1 then x else Set(Container(Property(v, p[0])), p[1..], x);
    if |p| > 1 {
      SetThenGet(Container(Property(v, p[0])), p[1..], x, q);
    }
    GetAppend(r, p, q);
  }

  /** Setting at `p` leaves every path disjoint from `p` unchanged. */
  lemma {:induction false} SetFrame(v: Value, p: Path, x: Value, q: Path)
    requires |p| >= 1 && Disjoint(p, q)
    ensures Get(Set(v, p, x), q) == Get(v, q)
    decreases |p|
  {
    if v.Obj? {
      var r := Set(v, p, x);
      if p[0] != q[0] {
        assert Property(r, q[0]) == Property(v, q[0]);
      } else {
        var child := Property(v, p[0]);
        SetFrame(Container(child), p[1..], x, q[1..]);
      }
    }
  }

  /** On an object, every proper prefix of the target leads to an object
      after a set: the intermediate containers exist. */
  lemma {:induction false} SetCreatesContainers(v: Value, p: Path, x: Value, i: nat)
    requires v.Obj? && 0 < i < |p|
    ensures Get(Set(v, p, x), p[..i]).Obj?
    decreases |p|
  {
    var r := Set(v, p, x);
    var child := Container(Property(v, p[0]));
    assert Property(r, p[0]) == Set(child, p[1..], x);
    assert p[..i][0] == p[0] && p[..i][1..] == p[1..][..i - 1];
    if i > 1 {
      SetCreatesContainers(child, p[1..], x, i - 1);
    }
  }

  /** Setting the same value twice is the same as setting it once. */
  lemma {:induction false} SetIdempotent(v: Value, p: Path, x: Value)
    requires |p| >= 1
    ensures Set(Set(v, p, x), p, x) == Set(v, p, x)
    decreases |p|
  {
    if v.Obj? && |p| > 1 {
      var child := Container(Property(v, p[0]));
      SetIdempotent(child, p[1..], x);
      var r := Set(v, p, x);
      assert Container(Property(r, p[0])) == Set(child, p[1..], x);
      assert r.fields[p[0] := Set(Set(child, p[1..], x), p[1..], x)] == r.fields;
    }
  }

  /** After unsetting `p`, `p` and every path below it read undefined. */
  lemma {:induction false} UnsetThenGet(v: Value, p: Path, q: Path)
    requires |p| >= 1
    ensures Get(Unset(v, p), p) == Undefined
    ensures Get(Unset(v, p), p + q) == Undefined
    decreases |p|
  {
    var r := Unset(v, p);
    if v.Obj? && |p| == 1 {
      assert Property(r, p[0]) == Undefined;
    } else if v.Obj? && p[0] in v.fields {
      assert Property(r, p[0]) == Unset(v.fields[p[0]], p[1..]);
      UnsetThenGet(v.fields[p[0]], p[1..], q);
    }
    GetAppend(r, p, q);
    assert Get(Undefined, q) == Undefined;
  }

  /** Unsetting `p` leaves every path disjoint from `p` unchanged. */
  lemma {:induction false} UnsetFrame(v: Value, p: Path, q: Path)
    requires |p| >= 1 && Disjoint(p, q)
    ensures Get(Unset(v, p), q) == Get(v, q)
    decreases |p|
  {
    if v.Obj? {
      var r := Unset(v, p);
      if p[0] != q[0] {
        assert Property(r, q[0]) == Property(v, q[0]);
      } else if p[0] in v.fields {
        UnsetFrame(v.fields[p[0]], p[1..], q[1..]);
      }
    }
  }

  /** Unsetting twice is the same as unsetting once. */
  lemma {:induction false} UnsetIdempotent(v: Value, p: Path)
    requires |p| >= 1
    ensures Unset(Unset(v, p), p) == Unset(v, p)
    decreases |p|
  {
    if v.Obj? && |p| > 1 && p[0] in v.fields {
      UnsetIdempotent(v.fields[p[0]], p[1..]);
    }
  }
}
