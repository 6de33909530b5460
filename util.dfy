/** The static helpers of the `Util` class in src/Util.js: key parsing, the
    three data resolvers that read, write and remove a value at the nested
    target of a key, and the prefix filter and sort behind `startsWith`. */
module Util {
  import opened Json
  import opened Strings
  import opened Lodash
  import opened Sorting

  /** The error the data resolvers throw: "Cannot target non-object.", of
      kind SyntaxError. */
  datatype Error = CannotTargetNonObject

  datatype Result<T> = Ok(value: T) | Err(error: Error)

  /** A value that may be undefined. */
  datatype Option<T> = None | Some(value: T)

  /** What `parseKey` returns: `{ key, target }`, either of which may be
      undefined. */
  datatype ParsedKey = ParsedKey(key: Option<string>, target: Option<string>)

  /** `isKey(str)`: only strings are keys, and every key may also be
      stored as a value. */
  predicate IsKey(v: Value): (b: bool)
    ensures b ==> IsValue(v) && !IsObjectType(v)
  {
    v.Text?
  }

  /** `isValue(data)`: the two infinities and undefined are rejected, so the
      values that may be stored are exactly null, the booleans, the finite
      numbers, the strings and the objects. */
  predicate IsValue(v: Value): (b: bool)
    ensures b <==> IsObjectType(v) || v.Bool? || v.Num? || v.Text?
  {
    if v == Infinity(false) || v == Infinity(true) then false
    else if v.Undefined? then false
    else true
  }

  // ---------------------------------------------------------------------
  // parseKey

  /** `parseKey(key)`: a non-empty string key is cut at its first dot into
      the record key and the nested target; anything else has neither. */
  function ParseKey(k: Value): (r: ParsedKey)
    ensures r.key.Some? <==> IsKey(k) && k.s != ""
    ensures r.target.Some? <==> r.key.Some? && '.' in k.s
    ensures r.key.Some? && r.target.None? ==> r.key.value == k.s
    ensures r.target.Some? ==> '.' !in r.key.value && r.key.value + "." + r.target.value == k.s
  {
    if !k.Text? || k.s == "" then ParsedKey(None, None)
    else if '.' in k.s then
      var spl := Split(k.s, '.');
      JoinSplit(k.s, '.');
      ParsedKey(Some(spl[0]), Some(Join(spl[1..], '.')))
    else ParsedKey(Some(k.s), None)
  }

  /** For a key with a dot, `key` is exactly the text before the first dot
      and `target` exactly the text after it (later dots stay in the
      target). */
  lemma ParseKeyFirstDot(s: string)
    requires '.' in s
    ensures ParseKey(Text(s)) == ParsedKey(Some(s[..IndexOf(s, '.')]), Some(s[IndexOf(s, '.') + 1..]))
  {
    var i := IndexOf(s, '.');
    SplitAtFirst(s, '.');
    JoinSplit(s[i + 1..], '.');
  }

  /** The converse: a dot-free record key joined to any target by a dot
      parses back into that key and that target. */
  lemma ParseKeyRoundTrip(key: string, target: string)
    requires '.' !in key
    ensures ParseKey(Text(key + "." + target)) == ParsedKey(Some(key), Some(target))
  {
    var s := key + "." + target;
    assert s[|key|] == '.';
    assert forall j :: 0 <= j < |key| ==> s[j] == key[j];
    assert IndexOf(s, '.') == |key|;
    assert s[..|key|] == key && s[|key| + 1..] == target;
    ParseKeyFirstDot(s);
  }

  /** `parsed.target` is truthy: present and not the empty string (so a key
      ending in its only dot, such as "user.", has no target). */
  predicate HasTarget(p: ParsedKey): (b: bool)
    ensures b <==> p.target.Some? && Truthy(Text(p.target.value))
  {
    p.target.Some? && p.target.value != ""
  }

  /** The property path lodash follows for a target: its dot-separated
      parts, which join back into the target. */
  function TargetPath(p: ParsedKey): (path: Path)
    requires HasTarget(p)
    ensures |path| >= 1
    ensures forall i :: 0 <= i < |path| ==> '.' !in path[i]
    ensures Join(path, '.') == p.target.value
  {
    JoinSplit(p.target.value, '.');
    Split(p.target.value, '.')
  }

  /** A key has a non-empty target exactly when its text after the first
      dot is non-empty. */
  lemma HasTargetIff(s: string)
    ensures HasTarget(ParseKey(Text(s))) <==> '.' in s && IndexOf(s, '.') + 1 < |s|
  {
    if '.' in s {
      ParseKeyFirstDot(s);
    }
  }

  // ---------------------------------------------------------------------
  // setData, unsetData, getData

  /** `setData(key, data, value)` as a value: the object `data` becomes
      when a target is given, the error for a target on a non-object, and
      `data` itself otherwise. `null` counts as an object (`typeof null`),
      and `_.set` leaves it as it is. */
  function SetDataResult(k: Value, data: Value, x: Value): (r: Result<Value>)
    ensures r.Err? <==> HasTarget(ParseKey(k)) && !IsObjectType(data)
    ensures !HasTarget(ParseKey(k)) ==> r == Ok(data)
    ensures r.Ok? ==> (r.value.Obj? <==> data.Obj?)
  {
    var parsed := ParseKey(k);
    if IsObjectType(data) && HasTarget(parsed) then Ok(Set(data, TargetPath(parsed), x))
    else if HasTarget(parsed) then Err(CannotTargetNonObject)
    else Ok(data)
  }

  /** `unsetData(key, data)` as a value: what `data` becomes, or the error
      for a target on a non-object. */
  function UnsetDataResult(k: Value, data: Value): (r: Result<Value>)
    ensures r.Err? <==> HasTarget(ParseKey(k)) && !IsObjectType(data)
    ensures !HasTarget(ParseKey(k)) ==> r == Ok(data)
    ensures r.Ok? ==> (r.value.Obj? <==> data.Obj?)
  {
    var parsed := ParseKey(k);
    if IsObjectType(data) && HasTarget(parsed) then Ok(Unset(data, TargetPath(parsed)))
    else if HasTarget(parsed) then Err(CannotTargetNonObject)
    else Ok(data)
  }

  /** `getData(key, data)`: the value at the key's target, or `data` itself
      when there is no target. Below null or a primitive every target reads
      undefined. */
  function GetData(k: Value, data: Value): (r: Value)
    ensures !HasTarget(ParseKey(k)) ==> r == data
    ensures HasTarget(ParseKey(k)) && !data.Obj? ==> r == Undefined
  {
    var parsed := ParseKey(k);
    if HasTarget(parsed) then Get(data, TargetPath(parsed)) else data
  }

  /** Set then get: on an object and a key with a target, `setData`
      succeeds, `getData` with the same key reads `value` back, and every
      path below the target reads from `value`. */
  lemma SetThenGetData(k: Value, data: Value, x: Value, below: Path)
    requires data.Obj? && HasTarget(ParseKey(k))
    ensures SetDataResult(k, data, x).Ok?
    ensures GetData(k, SetDataResult(k, data, x).value) == x
    ensures Get(SetDataResult(k, data, x).value, TargetPath(ParseKey(k)) + below) == Get(x, below)
  {
    SetThenGet(data, TargetPath(ParseKey(k)), x, below);
  }

  /** Nothing else changes: after `setData`, every path that neither leads
      to nor lies below the target reads as before. */
  lemma SetDataFrame(k: Value, data: Value, x: Value, other: Path)
    requires HasTarget(ParseKey(k)) && Disjoint(TargetPath(ParseKey(k)), other)
    ensures SetDataResult(k, data, x).Ok? ==> Get(SetDataResult(k, data, x).value, other) == Get(data, other)
  {
    SetFrame(data, TargetPath(ParseKey(k)), x, other);
  }

  /** Writing into `null` raises no error and is lost: `setData` returns
      null, and the target still reads undefined. */
  lemma SetDataOnNull(k: Value, x: Value)
    requires HasTarget(ParseKey(k))
    ensures SetDataResult(k, Null, x) == Ok(Null)
    ensures GetData(k, Null) == Undefined
  {
  }

  /** Unset then get: after `unsetData` on an object (or null), the target
      and every path below it read undefined, which `isValue` rejects. */
  lemma UnsetThenGetData(k: Value, data: Value, below: Path)
    requires IsObjectType(data) && HasTarget(ParseKey(k))
    ensures UnsetDataResult(k, data).Ok?
    ensures GetData(k, UnsetDataResult(k, data).value) == Undefined
    ensures !IsValue(GetData(k, UnsetDataResult(k, data).value))
    ensures Get(UnsetDataResult(k, data).value, TargetPath(ParseKey(k)) + below) == Undefined
  {
    UnsetThenGet(data, TargetPath(ParseKey(k)), below);
  }

  /** Nothing else changes: after `unsetData`, every path that neither
      leads to nor lies below the target reads as before. */
  lemma UnsetDataFrame(k: Value, data: Value, other: Path)
    requires HasTarget(ParseKey(k)) && Disjoint(TargetPath(ParseKey(k)), other)
    ensures UnsetDataResult(k, data).Ok? ==> Get(UnsetDataResult(k, data).value, other) == Get(data, other)
  {
    UnsetFrame(data, TargetPath(ParseKey(k)), other);
  }

  /** The `data` argument as its caller holds it: `setData` and
      `unsetData` change the object it refers to in place. */
  class DataRef {
    var value: Value

    constructor (v: Value)
      ensures value == v
    {
      value := v;
    }
  }

  /** `setData(key, data, value)`: writes through to the caller's object
      and returns that same object. */
  method SetData(k: Value, data: DataRef, x: Value) returns (r: Result<Value>)
    modifies data
    ensures r == SetDataResult(k, old(data.value), x)
    ensures data.value == if r.Ok? then r.value else old(data.value)
    ensures old(data.value).Obj? && HasTarget(ParseKey(k)) ==> GetData(k, data.value) == x
  {
    var parsed := ParseKey(k);
    if IsObjectType(data.value) && HasTarget(parsed) {
      if data.value.Obj? {
        SetThenGetData(k, data.value, x, []);
      }
      data.value := Set(data.value, TargetPath(parsed), x);
      return Ok(data.value);
    } else if HasTarget(parsed) {
      return Err(CannotTargetNonObject);
    }
    return Ok(data.value);
  }

  /** `unsetData(key, data)`: removes the target from the caller's object
      and returns undefined. */
  method UnsetData(k: Value, data: DataRef) returns (r: Result<Value>)
    modifies data
    ensures r == if UnsetDataResult(k, old(data.value)).Ok? then Ok(Undefined) else Err(CannotTargetNonObject)
    ensures data.value == if r.Ok? then UnsetDataResult(k, old(data.value)).value else old(data.value)
    ensures IsObjectType(old(data.value)) && HasTarget(ParseKey(k)) ==> GetData(k, data.value) == Undefined
  {
    var parsed := ParseKey(k);
    if IsObjectType(data.value) && HasTarget(parsed) {
      UnsetThenGetData(k, data.value, []);
      data.value := Unset(data.value, TargetPath(parsed));
    } else if HasTarget(parsed) {
      return Err(CannotTargetNonObject);
    }
    return Ok(Undefined);
  }

  // ---------------------------------------------------------------------
  // sort

  /** A stored row, `{ ID, data }`. */
  datatype Record = Record(ID: string, data: Value)

  /** The `data` argument of `sort`: an array of rows, or anything else. */
  datatype Collection = NotAnArray | ArrayOf(items: seq<Record>)

  /** `data.filter(i => i.ID.startsWith(key))`. */
  function FilterByPrefix(rows: seq<Record>, key: string): (r: seq<Record>)
    ensures |r| <= |rows|
    ensures (forall i :: 0 <= i < |rows| ==> StartsWith(rows[i].ID, key)) ==> r == rows
    ensures (forall i :: 0 <= i < |rows| ==> !StartsWith(rows[i].ID, key)) ==> r == []
  {
    if |rows| == 0 then []
    else
      assert rows == [rows[0]] + rows[1..];
      (if StartsWith(rows[0].ID, key) then [rows[0]] else []) + FilterByPrefix(rows[1..], key)
  }

  /** The filter keeps exactly the rows whose ID starts with the prefix,
      each as often as it occurs in the input. */
  lemma {:induction false} FilterByPrefixSelects(rows: seq<Record>, key: string)
    ensures forall x :: x in FilterByPrefix(rows, key) ==> StartsWith(x.ID, key)
    ensures forall x :: multiset(FilterByPrefix(rows, key))[x] ==
                        (if StartsWith(x.ID, key) then multiset(rows)[x] else 0)
  {
    if |rows| > 0 {
      FilterByPrefixSelects(rows[1..], key);
      assert rows == [rows[0]] + rows[1..];
      var r := FilterByPrefix(rows, key);
      forall x | x in r
        ensures StartsWith(x.ID, key)
      {
        assert x in multiset(r);
      }
    }
  }

  /** The filter keeps input order: filtering a concatenation concatenates
      the filtered parts. */
  lemma {:induction false} FilterByPrefixAppend(a: seq<Record>, b: seq<Record>, key: string)
    ensures FilterByPrefix(a + b, key) == FilterByPrefix(a, key) + FilterByPrefix(b, key)
  {
    if |a| == 0 {
      assert a + b == b;
    } else {
      var head := if StartsWith(a[0].ID, key) then [a[0]] else [];
      assert (a + b)[0] == a[0] && (a + b)[1..] == a[1..] + b;
      FilterByPrefixAppend(a[1..], b, key);
      calc {
        FilterByPrefix(a + b, key);
        head + FilterByPrefix(a[1..] + b, key);
        head + (FilterByPrefix(a[1..], key) + FilterByPrefix(b, key));
        (head + FilterByPrefix(a[1..], key)) + FilterByPrefix(b, key);
        FilterByPrefix(a, key) + FilterByPrefix(b, key);
      }
    }
  }

  /** The object `_.sortBy` sees for a row. */
  function RecordValue(r: Record): (v: Value)
    ensures Get(v, ["ID"]) == Text(r.ID)
    ensures Get(v, ["data"]) == r.data
  {
    Obj(map["ID" := Text(r.ID), "data" := r.data])
  }

  /** What a `sort` option holds: the value the caller gave, or the array
      of path parts that `sort` writes back in its place. */
  datatype SortSpec = Given(v: Value) | Segments(path: Path)

  /** The `ops` argument of `sort`; only its `sort` property is used. */
  class SortOptions {
    var sort: SortSpec

    constructor (v: Value)
      ensures sort == Given(v)
    {
      sort := Given(v);
    }
  }

  /** `ops.sort && typeof ops.sort === 'string'`. */
  predicate SortsBy(spec: SortSpec): (b: bool)
    ensures b <==> spec.Given? && Truthy(spec.v) && spec.v.Text?
  {
    spec.Given? && spec.v.Text? && spec.v.s != ""
  }

  /** The sort path of an option string: one leading dot dropped, the rest
      split on dots. */
  function SortPath(s: string): (path: Path)
    ensures |path| >= 1
    ensures forall i :: 0 <= i < |path| ==> '.' !in path[i]
    ensures Join(path, '.') == if StartsWith(s, ".") then s[1..] else s
  {
    var stripped := if StartsWith(s, ".") then s[1..] else s;
    JoinSplit(stripped, '.');
    Split(stripped, '.')
  }

  /** Ordering of rows by the value at the sort path: `rank` stands for
      lodash's comparison of the values found there. */
  function NestedCriteria(path: Path, rank: Value -> int): Record -> seq<int>
  {
    (r: Record) => [SortValue(r, path, rank)]
  }

  /** `sort(key, data, ops)` as a value, given what `ops.sort` held: the
      rows whose ID starts with `key`, in input order, or, when a sort
      option is given, in the reverse of their ascending order by the
      value at the sort path. */
  function SortResult(key: string, data: Collection, spec: SortSpec, rank: Value -> int): (r: seq<Record>)
    ensures key == "" || data.NotAnArray? ==> r == []
  {
    if key == "" || data.NotAnArray? then []
    else
      var arb := FilterByPrefix(data.items, key);
      if SortsBy(spec) then Reverse(SortBy(arb, NestedCriteria(SortPath(spec.v.s), rank))) else arb
  }

  /** `sort` returns exactly the rows whose ID starts with `key`, each as
      often as it occurs in the input, and nothing for an empty key or a
      non-array. */
  lemma SortSelects(key: string, data: Collection, spec: SortSpec, rank: Value -> int)
    ensures multiset(SortResult(key, data, spec, rank)) ==
      if key == "" || data.NotAnArray? then multiset{} else multiset(FilterByPrefix(data.items, key))
    ensures forall x :: x in SortResult(key, data, spec, rank) <==>
      key != "" && data.ArrayOf? && x in data.items && StartsWith(x.ID, key)
    ensures multiset(SortResultAsWritten(key, data, spec, rank)) == multiset(SortResult(key, data, spec, rank))
  {
    var r := SortResult(key, data, spec, rank);
    if key != "" && data.ArrayOf? {
      var arb := FilterByPrefix(data.items, key);
      FilterByPrefixSelects(data.items, key);
      if SortsBy(spec) {
        var nested, flat := NestedCriteria(SortPath(spec.v.s), rank), PropertyCriteria(SortPath(spec.v.s), rank);
        SortByPermutation(arb, nested);
        ReversePermutation(SortBy(arb, nested));
        SortByPermutation(arb, flat);
        ReversePermutation(SortBy(arb, flat));
      }
      forall x
        ensures x in r <==> x in data.items && StartsWith(x.ID, key)
      {
        assert x in r <==> x in multiset(r);
        assert x in data.items <==> x in multiset(data.items);
      }
    }
  }

  /** The rank of the value a row holds at a path. */
  function SortValue(r: Record, path: Path, rank: Value -> int): int
  {
    rank(Get(RecordValue(r), path))
  }

  /** With a sort option, the rows come in descending order of the value at
      the sort path. */
  lemma SortOrdered(key: string, items: seq<Record>, s: string, rank: Value -> int)
    requires key != "" && s != ""
    ensures var r := SortResult(key, ArrayOf(items), Given(Text(s)), rank);
      forall i, j :: 0 <= i < j < |r| ==> SortValue(r[j], SortPath(s), rank) <= SortValue(r[i], SortPath(s), rank)
  {
    var path := SortPath(s);
    var criteria := NestedCriteria(path, rank);
    var sorted := SortBy(FilterByPrefix(items, key), criteria);
    var r := Reverse(sorted);
    assert r == SortResult(key, ArrayOf(items), Given(Text(s)), rank);
    SortByAscending(FilterByPrefix(items, key), criteria);
    ReverseDescending(sorted, criteria);
    forall i, j | 0 <= i < j < |r|
      ensures SortValue(r[j], path, rank) <= SortValue(r[i], path, rank)
    {
      assert LexLeq(criteria(r[j]), criteria(r[i]));
      LexSingle(SortValue(r[j], path, rank), SortValue(r[i], path, rank));
    }
  }

  /** With a sort option, rows whose values at the sort path tie come in
      the reverse of their input order. */
  lemma SortTiesReversed(key: string, items: seq<Record>, s: string, rank: Value -> int, tie: int)
    requires key != "" && s != ""
    ensures var criteria := NestedCriteria(SortPath(s), rank);
      Ties(SortResult(key, ArrayOf(items), Given(Text(s)), rank), criteria, [tie])
      == Reverse(Ties(FilterByPrefix(items, key), criteria, [tie]))
  {
    var criteria := NestedCriteria(SortPath(s), rank);
    var arb := FilterByPrefix(items, key);
    var sorted := SortBy(arb, criteria);
    assert Reverse(sorted) == SortResult(key, ArrayOf(items), Given(Text(s)), rank);
    ReverseTies(sorted, criteria, [tie]);
    SortByStable(arb, criteria, [tie]);
  }

  // The order `_.sortBy(arb, ops.sort)` produces as written. lodash
  // flattens its iteratee arguments one level, so the array of path parts
  // becomes one criterion per part, each a top-level property of the row,
  // and the path is never followed into `data`.

  /** The ranks of the top-level properties named by the path parts. */
  function PropertyRanks(v: Value, path: Path, rank: Value -> int): (c: seq<int>)
    ensures |c| == |path|
    ensures forall i :: 0 <= i < |path| ==> c[i] == rank(Property(v, path[i]))
  {
    if |path| == 0 then [] else [rank(Property(v, path[0]))] + PropertyRanks(v, path[1..], rank)
  }

  function PropertyCriteria(path: Path, rank: Value -> int): Record -> seq<int>
  {
    (r: Record) => PropertyRanks(RecordValue(r), path, rank)
  }

  /** `sort` as written: like SortResult, but ordered by the flattened
      criteria. */
  function SortResultAsWritten(key: string, data: Collection, spec: SortSpec, rank: Value -> int): (r: seq<Record>)
    ensures key == "" || data.NotAnArray? ==> r == []
  {
    if key == "" || data.NotAnArray? then []
    else
      var arb := FilterByPrefix(data.items, key);
      if SortsBy(spec) then Reverse(SortBy(arb, PropertyCriteria(SortPath(spec.v.s), rank))) else arb
  }

  /** Compares numbers by value and every object, and undefined, as equal,
      as lodash's comparison does for the values in the example below. */
  function NumberRank(v: Value): (n: int)
    ensures v.Num? ==> n == v.n
  {
    if v.Num? then v.n else 0
  }

  /** Two rows of the example below, with scores 1 and 2 under `data`. */
  const LowRow := Record("p1", Obj(map["score" := Num(1)]))
  const HighRow := Record("p2", Obj(map["score" := Num(2)]))

  /** An option of the form ".a.b" sorts by the path `a`, `b`. */
  lemma SortPathTwoParts(a: string, b: string)
    requires '.' !in a && '.' !in b
    ensures SortPath(['.'] + a + ['.'] + b) == [a, b]
  {
    var option := ['.'] + a + ['.'] + b;
    var stripped := a + ['.'] + b;
    assert StartsWith(option, ".") && option[1..] == stripped;
    IndexOfAfter(a, '.', b);
    CutAt(stripped, '.', |a|);
    assert stripped[..|a|] == a && stripped[|a| + 1..] == b;
    calc {
      Split(stripped, '.');
      [stripped[..|a|]] + Split(stripped[|a| + 1..], '.');
      [a] + Split(b, '.');
      [a, b];
    }
  }

  lemma ExampleSortPath()
    ensures SortPath(".data.score") == ["data", "score"]
  {
    assert ".data.score" == ['.'] + "data" + ['.'] + "score";
    SortPathTwoParts("data", "score");
  }

  lemma ExampleFilter()
    ensures FilterByPrefix([HighRow, LowRow], "p") == [HighRow, LowRow]
  {
    assert StartsWith(LowRow.ID, "p") && StartsWith(HighRow.ID, "p");
    assert [HighRow, LowRow][1..] == [LowRow];
    assert [LowRow][1..] == [];
    assert FilterByPrefix([LowRow], "p") == [LowRow] + FilterByPrefix([], "p");
    assert FilterByPrefix([HighRow, LowRow], "p") == [HighRow] + FilterByPrefix([LowRow], "p");
  }

  lemma ExampleCriteria()
    ensures PropertyCriteria(["data", "score"], NumberRank)(LowRow) == [0, 0]
    ensures PropertyCriteria(["data", "score"], NumberRank)(HighRow) == [0, 0]
    ensures NestedCriteria(["data", "score"], NumberRank)(LowRow) == [1]
    ensures NestedCriteria(["data", "score"], NumberRank)(HighRow) == [2]
  {
    var path: Path := ["data", "score"];
    assert path[1..] == ["score"] && path[1..][1..] == [];
    assert Get(RecordValue(LowRow), path) == Num(1);
    assert Get(RecordValue(HighRow), path) == Num(2);
    assert NestedCriteria(path, NumberRank)(LowRow) == [NumberRank(Get(RecordValue(LowRow), path))];
    assert NestedCriteria(path, NumberRank)(HighRow) == [NumberRank(Get(RecordValue(HighRow), path))];
  }

  lemma ExampleSorts()
    ensures SortBy([HighRow, LowRow], PropertyCriteria(["data", "score"], NumberRank)) == [HighRow, LowRow]
    ensures SortBy([HighRow, LowRow], NestedCriteria(["data", "score"], NumberRank)) == [LowRow, HighRow]
  {
    ExampleCriteria();
    var path: Path := ["data", "score"];
    var flat := PropertyCriteria(path, NumberRank);
    var nested := NestedCriteria(path, NumberRank);
    assert [HighRow, LowRow][1..] == [LowRow];
    assert SortBy([LowRow], flat) == [LowRow];
    assert SortBy([LowRow], nested) == [LowRow];
    assert LexLeq(flat(HighRow), flat(LowRow)) by { LexReflexive([0, 0]); }
    assert !LexLeq(nested(HighRow), nested(LowRow));
    assert Insert(HighRow, [], nested) == [HighRow];
    assert Insert(HighRow, [LowRow], nested) == [LowRow, HighRow];
  }

  lemma ExampleAsWritten()
    ensures SortResultAsWritten("p", ArrayOf([HighRow, LowRow]), Given(Text(".data.score")), NumberRank)
      == [LowRow, HighRow]
  {
    var option := Given(Text(".data.score"));
    var flat := PropertyCriteria(["data", "score"], NumberRank);
    calc {
      SortResultAsWritten("p", ArrayOf([HighRow, LowRow]), option, NumberRank);
      { assert SortsBy(option); }
      Reverse(SortBy(FilterByPrefix([HighRow, LowRow], "p"), PropertyCriteria(SortPath(".data.score"), NumberRank)));
      { ExampleSortPath(); }
      Reverse(SortBy(FilterByPrefix([HighRow, LowRow], "p"), flat));
      { ExampleFilter(); }
      Reverse(SortBy([HighRow, LowRow], flat));
      { ExampleSorts(); }
      Reverse([HighRow, LowRow]);
      { assert [HighRow, LowRow][1..] == [LowRow]; }
      [LowRow, HighRow];
    }
  }

  lemma ExampleNested()
    ensures SortResult("p", ArrayOf([HighRow, LowRow]), Given(Text(".data.score")), NumberRank)
      == [HighRow, LowRow]
  {
    var option := Given(Text(".data.score"));
    var nested := NestedCriteria(["data", "score"], NumberRank);
    calc {
      SortResult("p", ArrayOf([HighRow, LowRow]), option, NumberRank);
      { assert SortsBy(option); }
      Reverse(SortBy(FilterByPrefix([HighRow, LowRow], "p"), NestedCriteria(SortPath(".data.score"), NumberRank)));
      { ExampleSortPath(); }
      Reverse(SortBy(FilterByPrefix([HighRow, LowRow], "p"), nested));
      { ExampleFilter(); }
      Reverse(SortBy([HighRow, LowRow], nested));
      { ExampleSorts(); }
      Reverse([LowRow, HighRow]);
      { assert [LowRow, HighRow][1..] == [HighRow]; }
      [HighRow, LowRow];
    }
  }

  /** The rows with scores 2 and 1 under `data.score`, in that order,
      sorted with the option ".data.score": as written they come out in
      ascending order of score, because both criteria (`row.data`, two
      objects, and `row.score`, undefined) tie and the reversal turns the
      input order around; the descending order by the nested score puts
      the higher score first. */
  lemma SortAsWrittenMisorders()
    ensures var option := Given(Text(".data.score"));
      && SortResultAsWritten("p", ArrayOf([HighRow, LowRow]), option, NumberRank) == [LowRow, HighRow]
      && SortResult("p", ArrayOf([HighRow, LowRow]), option, NumberRank) == [HighRow, LowRow]
      && SortValue(LowRow, SortPath(".data.score"), NumberRank) == 1
      && SortValue(HighRow, SortPath(".data.score"), NumberRank) == 2
  {
    ExampleAsWritten();
    ExampleNested();
    ExampleSortPath();
    ExampleCriteria();
  }

  /** A one-part path reads the same top-level property both ways. */
  lemma OnePartCriteria(path: Path, rank: Value -> int, r: Record)
    requires |path| == 1
    ensures PropertyCriteria(path, rank)(r) == NestedCriteria(path, rank)(r)
  {
    var v := RecordValue(r);
    assert path[1..] == [];
    assert PropertyRanks(v, path, rank) == [rank(Property(v, path[0]))];
    assert Get(v, path) == Get(Property(v, path[0]), []);
  }

  /** For a one-part sort path, such as ".data", the two orders agree. */
  lemma SortAsWrittenOnePart(key: string, data: Collection, s: string, rank: Value -> int)
    requires |SortPath(s)| == 1
    ensures SortResultAsWritten(key, data, Given(Text(s)), rank) == SortResult(key, data, Given(Text(s)), rank)
  {
    var path := SortPath(s);
    var flat, nested := PropertyCriteria(path, rank), NestedCriteria(path, rank);
    forall r: Record
      ensures flat(r) == nested(r)
    {
      OnePartCriteria(path, rank, r);
    }
    if key != "" && data.ArrayOf? {
      SortBySameCriteria(FilterByPrefix(data.items, key), flat, nested);
    }
  }

  /** Without a usable sort option the rows keep their input order. Since
      `sort` overwrites a string option with its array of path parts, a
      second call with the same options object does not sort again. */
  lemma SortUnordered(key: string, items: seq<Record>, spec: SortSpec, rank: Value -> int)
    requires key != "" && !SortsBy(spec)
    ensures SortResult(key, ArrayOf(items), spec, rank) == FilterByPrefix(items, key)
  {
  }

  /** `sort(key, data, ops)`: filters by prefix and, when `ops.sort` is a
      non-empty string, replaces it in the caller's options by its path
      parts and sorts by them. `ops` is only read once the key is
      non-empty and `data` is an array. */
  method Sort(key: string, data: Collection, ops: SortOptions?, rank: Value -> int) returns (r: seq<Record>)
    requires key != "" && data.ArrayOf? ==> ops != null
    modifies ops
    ensures ops == null ==> r == []
    ensures ops != null ==> r == SortResult(key, data, old(ops.sort), rank)
    ensures ops != null ==>
      ops.sort == (if key != "" && data.ArrayOf? && SortsBy(old(ops.sort))
                   then Segments(SortPath(old(ops.sort).v.s)) else old(ops.sort))
  {
    if key == "" || data.NotAnArray? {
      return [];
    }
    var arb := FilterByPrefix(data.items, key);
    if SortsBy(ops.sort) {
      var option := ops.sort.v.s;
      if StartsWith(option, ".") {
        ops.sort := Given(Text(option[1..]));
      }
      ops.sort := Segments(Split(ops.sort.v.s, '.'));
      arb := Reverse(SortBy(arb, NestedCriteria(ops.sort.path, rank)));
    }
    return arb;
  }
}
