# quickmongo key utilities in Dafny

This project models the static helpers of quickmongo's `Util` class
(`src/Util.js`). These helpers sit between the database facade and its
dot-notation keys.

- `parseKey` cuts a key such as `user.items.0` at its first dot into the
  record key (`user`) and the nested target (`items.0`).
- `setData`, `unsetData` and `getData` write, remove and read the value at
  that target inside a record's data, through lodash's `_.set`, `_.unset`
  and `_.get`. The first two refuse a target on a non-object with the error
  "Cannot target non-object.".
- `sort` keeps the rows `{ ID, data }` whose `ID` starts with a prefix. When
  `ops.sort` is a non-empty string, it splits it into path parts, and
  lodash orders the rows by one top-level property of the row per part.
  The result is then reversed. For a path of two or more parts this is not
  the nested value the path names (see Findings).
- `isKey` and `isValue` are the two validity predicates.

Files, one module each:

- `json.dfy` (`Json`): JavaScript values. These are undefined, null,
  booleans, integers, the two infinities, strings, and objects as maps from
  property names to values. It also defines `typeof v === "object"`, which
  holds for null as well.
- `strings.dfy` (`Strings`): `split` and `join` on one separator character,
  and `startsWith`. Split and join are proved inverse in both directions.
- `lodash.dfy` (`Lodash`): `_.get`, `_.set` and `_.unset` on paths of
  property names. It proves set-then-get, unset-then-get, that paths off the
  target are unchanged, that missing containers are created, and
  idempotence.
- `sorting.dfy` (`Sorting`): `_.sortBy`, a stable ascending sort on lists of
  criteria compared lexicographically, and `reverse`. It proves the sort is
  ascending, is a permutation and is stable. It also proves that reversal
  turns ascending into descending.
- `util.dfy` (`Util`): the helpers themselves.
  - The pure ones are functions: `ParseKey`, `GetData`, and the
    specification functions `SetDataResult`, `UnsetDataResult` and
    `SortResult`.
  - `setData` and `unsetData` change the caller's object in place. They are
    methods that modify a `DataRef`, the caller's handle on `data`.
  - `sort` overwrites the caller's `ops.sort` with the array of path parts.
    It is a method that modifies a `SortOptions` object.

Behaviour of the code that the model keeps:

- `typeof null === "object"`, so `setData` and `unsetData` on `null` with a
  target raise no error. `_.set` and `_.unset` leave `null` as it is, so the
  write is lost (`Util.SetDataOnNull`). A target on `null` might be expected
  to fail like one on any other non-object. The code lets `null` through,
  and the model follows the code.
- A key whose only dot is its last character (`"user."`) has the empty
  target. The empty target is falsy, so such a key behaves like a key with
  no target: no error, and the data is returned unchanged.
- The doc comment of `parseKey` says `parseKey("myitem.items")` gives
  `"myitems"` as the key. The code gives `"myitem"`, which is what
  `Util.ParseKeyRoundTrip` states.
- After a sorting call, `ops.sort` holds an array, which is not a string. A
  second `sort` with the same options object therefore does not sort.
- `sort` dereferences `ops` only when the key is non-empty and `data` is an
  array. `Util.Sort` requires `ops` to be non-null only in that case.

The comparison lodash applies to the values it sorts by is a parameter
`rank: Value -> int`. Rows are ordered by the rank of the value at the sort
path. Ties are broken as lodash's stable sort breaks them.

## Model

| member | source | states |
|---|---|---|
| `Strings.Split` | src/Util.js:39 | `split` gives at least one part; no part contains the separator; there is one part exactly when the separator does not occur |
| `Strings.Join` | src/Util.js:41 | `join` begins with the first part, followed by the separator when more parts come; `Strings.JoinSplit` and `Strings.SplitJoin` make it the inverse of `split` |
| `Strings.StartsWith` | src/Util.js:55-57 | `startsWith` holds exactly when the string agrees with the prefix at each of its positions, and then the string is the prefix followed by the rest |
| `Strings.JoinSplit` | src/Util.js:39-41 | joining the parts of a split on the same separator gives back the string |
| `Strings.SplitJoin` | src/Util.js:39-41 | splitting a join of separator-free parts gives back the parts |
| `Lodash.Get` | src/Util.js:99 | `_.get` with a non-empty path is undefined below null, undefined or a primitive, and below an object that lacks the first property |
| `Lodash.Set` | src/Util.js:73 | `_.set` returns an object exactly when it was given one; null and primitives come back untouched |
| `Lodash.Unset` | src/Util.js:87 | `_.unset` leaves an object an object and leaves null and primitives untouched |
| `Lodash.SetThenGet` | src/Util.js:73 | after `_.set(v, p, x)` on an object, `_.get` at `p` is `x`, and every path below `p` reads from `x` |
| `Lodash.SetFrame` | src/Util.js:73 | `_.set` at `p` leaves every path disjoint from `p` (neither a prefix of the other) reading as before |
| `Lodash.SetCreatesContainers` | src/Util.js:73 | after `_.set` on an object, every proper prefix of the path leads to an object |
| `Lodash.SetIdempotent` | src/Util.js:73 | setting the same value at the same path twice equals setting it once |
| `Lodash.UnsetThenGet` | src/Util.js:87 | after `_.unset` at `p`, `p` and every path below it read undefined |
| `Lodash.UnsetFrame` | src/Util.js:87 | `_.unset` at `p` leaves every path disjoint from `p` reading as before |
| `Lodash.UnsetIdempotent` | src/Util.js:87 | unsetting twice equals unsetting once |
| `Sorting.SortBy` | src/Util.js:59 | `_.sortBy` returns as many elements as it is given |
| `Sorting.Reverse` | src/Util.js:59 | `reverse` keeps the length, and its k-th element is the k-th from the end |
| `Sorting.SortByAscending` | src/Util.js:59 | `_.sortBy` output is in ascending order of its criteria |
| `Sorting.SortByPermutation` | src/Util.js:59 | `_.sortBy` output is a permutation of its input |
| `Sorting.SortByStable` | src/Util.js:59 | elements with equal criteria keep their input order in `_.sortBy` |
| `Sorting.ReversePermutation` | src/Util.js:59 | `reverse` is a permutation |
| `Sorting.ReverseDescending` | src/Util.js:59 | the reverse of an ascending sequence is descending |
| `Sorting.ReverseTies` | src/Util.js:59 | reversing reverses the order within every class of equal criteria |
| `Util.IsKey` | src/Util.js:15-17 | a key is a string, so it is a storable value and not of type "object" |
| `Util.IsValue` | src/Util.js:24-28 | a value may be stored exactly when it is null, a boolean, a finite number, a string or an object: undefined and both infinities are rejected |
| `Util.ParseKey` | src/Util.js:36-45 | key is defined iff the input is a key (`isKey`) and non-empty; target is defined iff additionally the input contains a dot; a dot-free key comes back unchanged with no target; otherwise the key has no dot and `key + "." + target` is the input |
| `Util.ParseKeyFirstDot` | src/Util.js:38-42 | for a key with a dot, `key` is exactly the text before the first dot and `target` exactly the text after it |
| `Util.ParseKeyRoundTrip` | src/Util.js:38-42 | a dot-free key joined by a dot to any target parses back into exactly that key and target |
| `Util.TargetPath` | src/Util.js:73 | the property path lodash follows has at least one part, no part holds a dot, and the parts join back into the target: by `Strings.SplitJoin`, exactly the dot-split of the target |
| `Util.HasTarget` | src/Util.js:72 | the test `parsed.target`: the target is defined and truthy |
| `Util.HasTargetIff` | src/Util.js:72 | a key has a truthy target exactly when it has a dot and some text after the first dot |
| `Util.SetDataResult` | src/Util.js:70-76 | `setData` fails iff the key has a target and `data` is not of type "object"; without a target it returns `data` unchanged; the result is an object iff `data` was |
| `Util.UnsetDataResult` | src/Util.js:84-90 | `unsetData` fails iff the key has a target and `data` is not of type "object"; without a target `data` is unchanged |
| `Util.GetData` | src/Util.js:97-101 | without a target `getData` returns `data` unchanged; with one, below null or a primitive it is undefined |
| `Util.SetThenGetData` | src/Util.js:70-75 | on an object with a target, `setData` succeeds, `getData` with the same key reads the value back, and paths below the target read from the value |
| `Util.SetDataFrame` | src/Util.js:70-75 | after `setData`, every path that is neither a prefix of the target nor on or below it reads as before |
| `Util.SetDataOnNull` | src/Util.js:72-73 | on null with a target, `setData` returns null without error and the target still reads undefined |
| `Util.UnsetThenGetData` | src/Util.js:84-89 | after `unsetData` on an object or null, the target and every path below it read undefined, which `isValue` rejects |
| `Util.UnsetDataFrame` | src/Util.js:84-89 | after `unsetData`, every path that is neither a prefix of the target nor on or below it reads as before |
| `Util.SetData` | src/Util.js:70-76 | the caller's data becomes `SetDataResult`'s value, which is also returned; on error it is unchanged; on an object with a target the key then reads the value |
| `Util.UnsetData` | src/Util.js:84-90 | the caller's data becomes `UnsetDataResult`'s value and undefined is returned; on error it is unchanged; on an object with a target the key then reads undefined |
| `Util.FilterByPrefix` | src/Util.js:55 | the filter keeps at most the input's rows; it keeps them all when every ID starts with the prefix and none when no ID does |
| `Util.FilterByPrefixSelects` | src/Util.js:55 | every kept row's ID starts with the prefix, and each such row is kept exactly as often as it occurs |
| `Util.FilterByPrefixAppend` | src/Util.js:55 | the filter keeps input order: filtering a concatenation concatenates the filtered parts |
| `Util.SortsBy` | src/Util.js:56 | the test `ops.sort && typeof ops.sort === 'string'`: the option is truthy and a string |
| `Util.SortPath` | src/Util.js:57-58 | the sort path has at least one part, no part holds a dot, and the parts join back into the option with one leading dot removed: exactly the dot-split of the stripped option |
| `Util.SortResult` | src/Util.js:54 | `sort` returns nothing for an empty key or a non-array |
| `Util.SortSelects` | src/Util.js:54-59 | `sort` returns a permutation of the rows whose ID starts with the key; a row is in the result iff it is in the input and its ID starts with the key; the order as written holds the same rows the same number of times |
| `Util.SortPathTwoParts` | src/Util.js:57-58 | an option ".a.b" with dot-free `a` and `b` gives the sort path `a`, `b` |
| `Util.SortOrdered` | src/Util.js:56-59 | with a sort option, the rows come in descending order of the value at the sort path |
| `Util.SortTiesReversed` | src/Util.js:56-59 | with a sort option, rows whose values at the sort path tie come in the reverse of their input order |
| `Util.SortUnordered` | src/Util.js:56-61 | without a non-empty string option, the rows keep their input order |
| `Util.Sort` | src/Util.js:53-62 | returns `SortResult` for the option held on entry; replaces a non-empty string option by its path parts and otherwise leaves `ops` alone; needs `ops` only for a non-empty key and an array |
| `Util.SortResultAsWritten` | src/Util.js:53-62 | the order lodash actually produces from the flattened path parts; empty for an empty key or a non-array |
| `Util.SortAsWrittenMisorders` | src/Util.js:58-59 | on two rows with `data.score` 2 and 1 and the option ".data.score", the code as written returns the lower score first, while the intended order returns the higher first |
| `Util.SortAsWrittenOnePart` | src/Util.js:58-59 | for a one-part sort path such as ".data", the order as written and the intended order coincide |

## Findings

| source | as written | input that shows it | evidently intended | confidence | as-written member | corrected member |
|---|---|---|---|---|---|---|
| src/Util.js:58-59 | `_.sortBy(arb, ops.sort)` receives the split path as one array argument. lodash flattens it into one iteratee per part, each reading a top-level property of the row, so `".data.score"` sorts by `row.data` and then by `row.score` | rows `{ID:"p2", data:{score:2}}`, `{ID:"p1", data:{score:1}}`, key `"p"`, `ops.sort` `".data.score"`: both criteria tie, and the result is p1 then p2 | descending order of `row.data.score`: p2 then p1 | medium; not executed | `Util.SortAsWrittenMisorders` | `Util.SortOrdered` |

`Util.SortResult` and `Util.Sort` use the intended order: rows are compared
by the value at the whole path. `Util.SortResultAsWritten` keeps the order
as written for comparison.

## Left out

- The `Util` constructor, which always throws, is not modelled. The `Error`
  class is reduced to the single error value `CannotTargetNonObject`.
- Util.SortResult: for sort paths of two or more parts, the model orders by
  the nested value, not by the flattened top-level properties the code
  uses (see Findings). `Util.SortResultAsWritten` models the code's order.
- Util.Sort: returns `Util.SortResult`, so for sort paths of two or more
  parts it gives the corrected nested order, not the code's order. The
  rows it returns are the same as written (`Util.SortSelects`).
- Values: arrays, functions, symbols, NaN and non-integer numbers are not
  represented. Numbers are integers plus the two infinities, which is all
  `isValue` tells apart.
- lodash paths: bracket and quoted segments, and the shortcut that reads a
  literal own property such as `"a.b"`, are not modelled. `_.set` creates
  an array, not an object, for a numeric next segment; the model always
  creates an object. The guard of recent lodash versions against
  `__proto__`, `constructor` and `prototype` segments is not modelled.
- Property lookup sees only own properties of objects. Properties of
  primitives (such as a string's `length`) and inherited properties read
  undefined.
- In-place update is modelled at the level of the caller's reference to
  `data` (`DataRef`). Other references to nested objects inside `data`,
  which JavaScript would also see change, are not modelled. Nor is a
  `value` that is or contains `data` itself: `setData("k.self", d, d)`
  makes a cyclic object in JavaScript, while the model stores a copy of
  the old `d`. There, paths below the target do not read from `value`
  as `Util.SetThenGetData` states.
- lodash's comparison of arbitrary values in `_.sortBy` is the `rank`
  parameter, a total preorder through integers. lodash's special placement
  of undefined, null and NaN is not modelled.
- `sort` with a non-string key, which `startsWith` would convert to a
  string, and rows without a string `ID`, on which the code throws, are
  not modelled: the key is a string and rows have a string `ID`.
- The `limit` sort option declared in the type definitions is not read by
  `sort`, and is not modelled.
- The database facade, the in-memory store, connection and event handling,
  and file import and export are I/O around these helpers and are not part
  of this model.
