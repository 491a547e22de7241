# vue-router route table and route values, in Dafny

This project models two pieces of vue-router's routing core and proves
properties about them.

- **The route table builder** (`src/create-route-map.js`).
  - `createRouteMap` compiles a nested list of route configurations into three caller-owned tables:
    - `pathList`: match priority;
    - `pathMap`: path to record;
    - `nameMap`: name to record.
  - For each configuration, `addRouteRecord` does the following in order:
    1. normalizes the path;
    2. builds a record;
    3. adds the children first;
    4. registers the record's path;
    5. expands every alias into a record that carries `matchAs`;
    6. registers the name.
  - A final loop moves every `'*'` entry to the end of `pathList`.
  - Module `RouteMap` (`route_map.dfy`) gives the builder twice:
    - the function `AddRoute` over a `Tables` value, where the table properties are proved;
    - the class `RouteTable`, whose methods update `pathList`, `pathMap` and `nameMap` in place as the source does. Each method is proved to end in the state the functions describe. This includes the splice-and-push wildcard loop with its `i--`/`l--` steps.
- **The route value model** (`src/util/route.js`).
  - Module `Route` (`route.dfy`) holds:
    - `createRoute`, `formatMatch`, `getFullPath` and the `START` sentinel;
    - `isSameRoute` and `isIncludedRoute`;
    - `queryIncludes`, a `for ... in` loop with early return.
  - Module `QueryValues` (`query.dfy`) holds the JSON-like query values, `String(...)` coercion, `isObjectEqual` and `clone`.
  - Module `Entered` (`entered.dfy`) holds `handleRouteEntered`, a consume-once dispatcher. It runs on a `ViewRegistry` class holding every record's `instances` and `enteredCbs` tables.
- **Support modules.**
  - `Optional` (`optional.dfy`): optional values and JavaScript truthiness of strings.
  - `Paths` (`paths.dfy`): the trailing-slash regular expressions, `indexOf`, and `cleanPath`. `cleanPath` lives in `src/util/path.js`, which is not part of this model. It is ASSUMED to collapse every run of `/` into one `/` and change nothing else.

Identity:
- Record identity is an explicit `id`, drawn from a counter in the tables.
- A record holds its parent record by value, so `formatMatch` walks the parent links directly.
- `START` is the only route with `start == true`. This stands for the identity comparison `b === START`.

## Model

| member | source | states |
|---|---|---|
| Paths.CleanPath | src/create-route-map.js:240 | (assumed role of `cleanPath`) the result has no `//`, is no longer than the input, keeps its first character, and a path without `//` is unchanged |
| Paths.CleanPathIdempotent | src/create-route-map.js:240 | cleaning a cleaned path changes nothing |
| Paths.CleanPathKeepsPrefix | src/create-route-map.js:153 | joining onto a clean prefix and cleaning keeps that prefix, so joined child paths start with the parent (or `matchAs`) path |
| Paths.JoinUnderClean | src/create-route-map.js:240 | `cleanPath(parent + '/' + path)` under a clean parent starts with the parent followed by one `/`, and is absolute when the parent is |
| Paths.StripTrailingSlash | src/util/route.js:92 | `replace(/\/?$/, '')`: a trailing slash is removed, and a path without one is unchanged |
| Paths.EnsureTrailingSlash | src/util/route.js:134-136 | `replace(/\/?$/, '/')`: the result ends in `/`, and is the stripped path plus one `/` |
| Paths.IndexOf | src/util/route.js:134-136 | `indexOf`: the result is -1 exactly when the needle occurs nowhere, and otherwise is the first position where it occurs |
| Paths.IndexOfZeroIsPrefix | src/util/route.js:134-136 | `indexOf(x) === 0` holds exactly when `x` is a prefix |
| Paths.SlashPrefixAtBoundary | src/util/route.js:134-136 | a slash-terminated target that is a prefix of the slash-terminated current path is either the same path or ends at a segment boundary |
| RouteMap.EffectiveOptions | src/create-route-map.js:90-98 | a boolean `caseSensitive` overrides `sensitive`; otherwise the options pass through unchanged (`{}` when absent); `strict` and `end` always pass through |
| RouteMap.NormalizePath | src/create-route-map.js:228-241 | outside strict mode one trailing `/` is stripped first; an absolute path or a path without a parent is then returned as is; a relative path under a parent without `//` gives a path without `//` that starts with the parent's path plus one `/`, and is absolute when the parent is |
| RouteMap.NormalizeNestsUnderParent | src/create-route-map.js:238-240 | a relative path under a clean parent gives a clean path that starts with the parent path plus `/`, and it is absolute when the parent is |
| RouteMap.NormalizePathExamples | src/create-route-map.js:228-241 | under `/a`: `b` and `b/` give `/a/b`, strict `b/` gives `/a/b/`, and `/b` stays `/b`; with no parent `b` stays `b` |
| RouteMap.MakeRecord | src/create-route-map.js:100-126 | record defaults: `components` is `{default: component}` unless given; `alias` is `[s]` for a non-empty string, the array itself, or `[]`; `props` is `{}` when absent, passed through with `components`, else `{default: props}`; `meta` is `{}` when absent; the regex is compiled from the normalized path and the effective options |
| RouteMap.RecordAlias | src/create-route-map.js:107-111 | the `alias` stored on the record: `[s]` for a non-empty string, the array itself, `[]` for an absent or empty alias (definition; used by `MakeRecord`) |
| RouteMap.RecordProps | src/create-route-map.js:120-125 | the stored `props`: `{}` for none, as given alongside `components`, else `{default: props}` (definition; stated in `MakeRecord`'s contract) |
| RouteMap.ExpandedAliases | src/create-route-map.js:166-167 | the aliases the loop expands: every alias that is not `undefined`, a single string becoming a one-element list, so `alias: ''` is expanded although the record stores `[]` (definition) |
| RouteMap.SkipsAlias | src/create-route-map.js:170-177 | outside production an alias equal to the route's own un-normalized path is skipped; in production it is expanded (definition) |
| RouteMap.ChildMatchAsExtends | src/create-route-map.js:151-156 | a child gets `matchAs` exactly when the current one is truthy, and then it is a clean path extending the current `matchAs` |
| RouteMap.ChildMatchAs | src/create-route-map.js:152-154 | a child's `matchAs`: `cleanPath(matchAs + '/' + child.path)` when the current one is truthy, else none (definition; properties in `ChildMatchAsExtends`) |
| RouteMap.AliasMatchAs | src/create-route-map.js:190 | the `matchAs` given to alias records: `record.path \|\| '/'` (definition; used in `AliasRegisteredUnderSameParent`) |
| RouteMap.RegisterPath | src/create-route-map.js:159-163 | a path is appended to `pathList` and mapped exactly when it is absent from `pathMap`; an existing entry is never replaced; the table invariant is kept |
| RouteMap.RegisterName | src/create-route-map.js:195-207 | a truthy name is mapped only while unused; the first registration wins and `pathList`/`pathMap` are untouched |
| RouteMap.AddRoute | src/create-route-map.js:61-208 | `addRouteRecord` on table values: build the record, add the children, register the path, expand the aliases, register the name (definition; properties in `AddRouteExtends`, `ChildrenBeforeParent`, `AliasRegisteredUnderSameParent`) |
| RouteMap.ChildrenPhase | src/create-route-map.js:101-157 | the tables once the record has its identity and all children are added (definition; properties in `ChildrenPhaseExtends`) |
| RouteMap.AddChildren | src/create-route-map.js:151-156 | the children `forEach` from the `i`-th child on, each child under the record with its derived `matchAs` (definition; properties in `AddChildrenExtends`) |
| RouteMap.AddAliases | src/create-route-map.js:166-193 | the alias loop from the `i`-th alias on, one `AliasStep` per alias (definition; properties in `AddAliasesExtends`, `AliasRegisteredUnderSameParent`) |
| RouteMap.AliasStep | src/create-route-map.js:169-191 | one turn of the alias loop: unless `SkipsAlias`, `{path: alias, children: route.children}` is added under the route's own parent with `matchAs = record.path \|\| '/'` (definition) |
| RouteMap.AddRoutes | src/create-route-map.js:29-31 | the top-level `forEach` from the `i`-th route on (definition; properties in `AddRoutesExtends`) |
| RouteMap.AddRouteExtends | src/create-route-map.js:61-208 | `addRouteRecord` only appends: the old `pathList` is a prefix of the new one, no map entry is removed or replaced, at least one record is created, and the `pathList`/`pathMap` one-to-one invariant is preserved |
| RouteMap.ChildrenPhaseExtends | src/create-route-map.js:128-157 | creating the record and adding all children extends the tables and keeps them valid |
| RouteMap.AddChildrenExtends | src/create-route-map.js:151-156 | the children loop extends the tables and keeps them valid |
| RouteMap.AddAliasesExtends | src/create-route-map.js:165-193 | the alias loop extends the tables and keeps them valid |
| RouteMap.AddRoutesExtends | src/create-route-map.js:29-31 | adding the top-level routes in turn extends the tables and keeps them valid |
| RouteMap.ChildrenBeforeParent | src/create-route-map.js:150-163 | the children's entries come first; when the record's own path is new, it comes right after them, before any alias entries, and maps to the record |
| RouteMap.AliasRegisteredUnderSameParent | src/create-route-map.js:165-193 | a non-skipped alias becomes a nameless record under the route's own parent, with `matchAs` equal to `record.path \|\| '/'`, and that entry stays once registered |
| RouteMap.AliasExample | src/create-route-map.js:165-193 | `{path: '/a', alias: '/x'}` gives `pathList == ['/a', '/x']`, where `/x` matches as `/a` and `/a` has no `matchAs` |
| RouteMap.DuplicatePathFirstWins | src/create-route-map.js:159-163 | two routes with path `/a` give one entry, holding the first route's component |
| RouteMap.WildcardsLastAtEnd | src/create-route-map.js:33-40 | after the wildcard pass no non-`'*'` entry follows a `'*'` entry |
| RouteMap.WildcardsLastPermutes | src/create-route-map.js:33-40 | the wildcard pass keeps the length and the multiset of entries |
| RouteMap.WildcardsLastStable | src/create-route-map.js:33-40 | the wildcard pass keeps the relative order of the non-`'*'` entries |
| RouteMap.WildcardsLast | src/create-route-map.js:33-40 | the `pathList` the final loop leaves: the non-`'*'` entries in order, then the `'*'` entries (definition; properties in `WildcardsLastAtEnd`, `WildcardsLastPermutes`, `WildcardsLastStable`, and `MoveWildcardsToEnd` is proved to compute it) |
| RouteMap.LayoutStep | src/create-route-map.js:34-39 | one turn of the loop: a `'*'` at `i` is spliced out and pushed, anything else is stepped over, and the list stays as kept entries, then unvisited entries, then moved wildcards |
| RouteMap.ReorderKeepsValid | src/create-route-map.js:33-40 | reordering `pathList` without changing its entries keeps the tables valid |
| RouteMap.BuildTable | src/create-route-map.js:7-59 | `createRouteMap` leaves the wildcards at the end, keeps valid tables valid, and gives the same maps, the same entries and the same non-wildcard order as adding the routes one by one |
| RouteMap.RouteTable.constructor | src/create-route-map.js:20-26 | fresh tables are empty and valid |
| RouteMap.RouteTable.AddRouteRecord | src/create-route-map.js:61-208 | the recursive in-place procedure ends in the state `AddRoute` describes |
| RouteMap.RouteTable.RegisterRecord | src/create-route-map.js:159-207 | after the children, the in-place path registration, alias loop and name registration end in `RegisterName` of `AddAliases` of `RegisterPath` of the old tables |
| RouteMap.RouteTable.RegisterRecordPath | src/create-route-map.js:160-163 | in-place path registration is `RegisterPath` |
| RouteMap.RouteTable.RegisterRecordName | src/create-route-map.js:196-207 | in-place name registration is `RegisterName` |
| RouteMap.RouteTable.AddChildRecords | src/create-route-map.js:151-156 | the in-place children loop ends in the state `AddChildren` describes |
| RouteMap.RouteTable.AddAliasRecords | src/create-route-map.js:166-193 | the in-place alias loop, skipping an alias equal to the path outside production, ends in the state `AddAliases` describes |
| RouteMap.RouteTable.AddAliasRecord | src/create-route-map.js:169-191 | one in-place turn of the alias loop ends in the state `AliasStep` describes |
| RouteMap.RouteTable.MoveWildcardsToEnd | src/create-route-map.js:34-40 | the splice-and-push loop with `l--`/`i--` leaves exactly the non-wildcard entries in order followed by the wildcards |
| RouteMap.RouteTable.AddRouteRecords | src/create-route-map.js:29-31 | the in-place loop over the top-level routes ends in the state `AddRoutes` describes |
| RouteMap.RouteTable.CreateRouteMap | src/create-route-map.js:7-59 | the in-place `createRouteMap` ends in `BuildTable` of the old tables, with the wildcards at the end and valid tables kept valid |
| QueryValues.Get | src/util/route.js:117-121 | `v[key]` is present exactly for the keys `Object.keys` lists; for an object it is the entry, for an array the element at the index whose numeral is `key` |
| QueryValues.NatToStringInjective | src/util/route.js:112-118 | distinct indices have distinct numerals, so an array key names exactly one element |
| QueryValues.JsString | src/util/route.js:128 | `String(v)`: strings as is, integers as decimal numerals, booleans, `null`, `undefined`, arrays joined by `,`, objects as `[object Object]` (definition; exact for safe integers only) |
| QueryValues.Join | src/util/route.js:128 | `Array.prototype.join(',')` as `String` applies it, with `null`/`undefined` elements written as `''` (definition; used in `ValueEqualNotTransitive`) |
| QueryValues.ValueEqual | src/util/route.js:122-128 | one comparison inside `every`: nullish only equals the identical value, two objects compare recursively, anything else compares by `String` (definition; properties in `ValueEqualReflexive`, `ValueEqualSymmetric`, `NullishEqualsOnlyItself`) |
| QueryValues.ObjectEqual | src/util/route.js:112-129 | equal key sets (the sorted key lists) and `ValueEqual` values under each key (definition; properties in `IsObjectEqualSameKeys`) |
| QueryValues.IsObjectEqual | src/util/route.js:109-130 | `isObjectEqual` on two query objects (definition; reflexive and symmetric by the lemmas below) |
| QueryValues.ValueEqualReflexive | src/util/route.js:109-130 | every value is `isObjectEqual`-equal to itself, nested objects included |
| QueryValues.ValueEqualSymmetric | src/util/route.js:109-130 | the comparison does not depend on argument order, at any depth |
| QueryValues.IsObjectEqualReflexive | src/util/route.js:109-130 | `isObjectEqual(a, a)` for every query object |
| QueryValues.IsObjectEqualSymmetric | src/util/route.js:109-130 | `isObjectEqual(a, b) == isObjectEqual(b, a)` |
| QueryValues.IsObjectEqualSameKeys | src/util/route.js:112-116 | equal objects have the same key set |
| QueryValues.NullishEqualsOnlyItself | src/util/route.js:122-123 | `null`/`undefined` equals only the identical nullish value, on either side |
| QueryValues.NumberEqualsNumeral | src/util/route.js:128 | a safe integer (absolute value at most 2^53 - 1) equals its decimal string (`1` equals `"1"`), also as an entry of a query |
| QueryValues.ArrayEqualsIndexObject | src/util/route.js:112-128 | `['a']` equals `{0: 'a'}`: array keys are index numerals |
| QueryValues.ValueEqualNotTransitive | src/util/route.js:125-128 | coercion makes equality intransitive: `['1,2']` equals `'1,2'`, which equals `[1, 2]`, yet `['1,2']` does not equal `[1, 2]` |
| QueryValues.ShortArrayKeys | src/util/route.js:112-113 | one- and two-element arrays have the keys `{'0'}` and `{'0', '1'}` |
| QueryValues.Clone | src/util/route.js:50-62 | `clone` returns a structurally equal value |
| QueryValues.CloneQuery | src/util/route.js:18-22 | the cloned query equals the location's query |
| Route.AncestryIsParentChain | src/util/route.js:69-76 | the chain is empty exactly for no record; otherwise it ends with the record, starts at a root, and each element's parent is its predecessor |
| Route.Ancestry | src/util/route.js:69-76 | the root-first chain of parent links: empty exactly without a record, and ending with the record |
| Route.FormatMatch | src/util/route.js:69-76 | the `unshift` loop over parent links returns the root-first ancestor chain |
| Route.GetFullPath | src/util/route.js:78-84 | the full path is non-empty, starts with `path \|\| '/'` and ends with the hash |
| Route.CreateRoute | src/util/route.js:8-48 | path defaults to `/` and hash to `''`; the query is the location's (cloned) or `{}`, params likewise; `fullPath` is path + serialized query + hash; the location name wins over the record's; `meta` comes from the record or is `{}`; `matched` is the record's root-first ancestor chain, empty exactly without a record; `redirectedFrom` is present exactly when a redirect location is given and is its full path; the route is not `START` |
| Route.Start | src/util/route.js:64-67 | `START` is the tagged route to `/` with empty hash, query and params, nothing matched, and full path `'/' + stringify({})` |
| Route.IsSameRoute | src/util/route.js:86-107 | no absent `b` matches; away from `START`, a match by path agrees on the path up to one trailing slash, a match without both paths agrees on a truthy name, a full match agrees on hash and query, and a full match by name also agrees on params |
| Route.IsSameRouteSentinels | src/util/route.js:86-90 | when `b` is `START` the result is true exactly when `a` is `START`; an absent `b` gives false |
| Route.IsSameRouteReflexive | src/util/route.js:86-107 | a route with a path or a name is the same as itself, with or without `onlyPath` |
| Route.CreatedRouteIsSameAsItself | src/util/route.js:86-107 | every route `createRoute` builds is the same as itself |
| Route.IsSameRouteSymmetric | src/util/route.js:86-107 | away from `START` the comparison is symmetric |
| Route.StartIsAsymmetric | src/util/route.js:86-94 | `isSameRoute(START, r)` holds for a fresh route `r` to `/`, but `isSameRoute(r, START)` does not |
| Route.OnlyPathIsWeaker | src/util/route.js:91-103 | whatever is the same in full is the same with `onlyPath` |
| Route.TrailingSlashIgnored | src/util/route.js:91-94 | `/p/` and `/p` are the same route when hash and query agree |
| Route.QueryIncludes | src/util/route.js:142-149 | the early-return loop answers true exactly when every target key is a key of the current query, whatever the values |
| Route.IsIncludedRoute | src/util/route.js:132-140 | `isIncludedRoute`: the `indexOf(...) === 0` test is proved to be a prefix test, so inclusion holds exactly when the slash-terminated target path is a prefix of the slash-terminated current path, the target hash is empty or equal, and the target's query keys are among the current ones |
| Route.IncludedAtSegmentBoundary | src/util/route.js:132-136 | a target path without a trailing slash includes only itself and the paths below it at a `/` |
| Route.IncludedExamples | src/util/route.js:132-136 | `/a/b` is included in `/a`; `/ab` is not |
| Route.IsIncludedRouteReflexive | src/util/route.js:132-140 | every route includes itself |
| Route.SameRouteIsIncluded | src/util/route.js:91-94 | if `a` is the same as `b` by path, in full, then `isIncludedRoute(a, b)` |
| Entered.Calls | src/util/route.js:159-161 | the innermost loop: every callback in order on the instance, none when it is being destroyed (definition; `RunCallbacks` is proved to compute it) |
| Entered.SlotStep | src/util/route.js:155-161 | one view: skipped without an instance or a pending list, otherwise the list is deleted and then run (definition) |
| Entered.EnterSlots | src/util/route.js:154-162 | the view loop of one record over its first `n` views (definition; properties in `EnterSlotsConsumes`, `EnterSlotsRunsOnlyPending`, `EnterSlotsRunsAllPending`, `EnterSlotsIdle`) |
| Entered.EnterRecord | src/util/route.js:153-162 | one matched record: its views' pass written back into its `enteredCbs` (definition; `EnterRecordSlots` is proved to compute it) |
| Entered.EnterAll | src/util/route.js:152-163 | the record loop over the first `n` matched records (definition; properties in `EnterAllSettles`, `EnterAllIdle`) |
| Entered.HandleAll | src/util/route.js:151-164 | `handleRouteEntered` over all of `route.matched` (definition; properties in `HandleRouteEnteredTwice`, and `HandleRouteEntered` is proved to compute it) |
| Entered.EnterSlotsConsumes | src/util/route.js:154-158 | a record's pass deletes exactly the pending lists of views that have an instance; other pending lists stay |
| Entered.EnterSlotsRunsOnlyPending | src/util/route.js:155-161 | every callback run was pending for its view, runs on that view's instance, and that instance was not being destroyed |
| Entered.EnterSlotsRunsAllPending | src/util/route.js:155-161 | conversely, a view with an instance whose list is still pending runs that whole list, in order, as one contiguous block right after the earlier views' calls; on an instance not being destroyed every one of its callbacks is invoked |
| Entered.EnterSlotsIdle | src/util/route.js:157 | when no pending list belongs to a view with an instance, a record's pass does nothing |
| Entered.EnterAllSettles | src/util/route.js:151-164 | after the pass every matched record has no pending list left for a view with an instance, and no list was added |
| Entered.EnterAllIdle | src/util/route.js:151-164 | from settled records the pass runs nothing and changes nothing |
| Entered.HandleRouteEnteredTwice | src/util/route.js:151-164 | consume once: a second `handleRouteEntered` on the same route runs no callback and changes no pending list |
| Entered.ViewRegistry.constructor | src/create-route-map.js:112-113 | records start with empty `instances` and `enteredCbs` |
| Entered.ViewRegistry.HandleRouteEntered | src/util/route.js:151-164 | the in-place nested loops leave the pending lists and the call log described by `HandleAll`, root record first |
| Entered.ViewRegistry.EnterRecordSlots | src/util/route.js:154-162 | the slot loop of one record deletes each consumed list before running it, as `EnterRecord` describes |
| Entered.ViewRegistry.RunCallbacks | src/util/route.js:159-161 | the callbacks run in order on the instance, or not at all when it is being destroyed |

## Left out

- `cleanPath` (`src/util/path.js`) is not part of this model. `Paths.CleanPath` gives it one assumed role: collapsing runs of `/`. Whitespace handling and anything else it might do are not modelled.
- Development-only warnings are logging only and are not modelled. These are:
  - the non-ASCII path check;
  - the default-child warning;
  - the duplicate-name warning;
  - the duplicate-param-key check;
  - the missing-leading-slash report at the end of `createRouteMap`.
  The alias-equal-to-path skip does change the tables, so it is modelled through the `production` flag.
- `compileRouteRegex` and `path-to-regexp` are an external library. The compiled regex is an opaque value made of the path and the effective options.
- `route.pathToRegexpOptions` is written in place by `caseSensitive`. The model computes new options and does not model the change to the caller's configuration object.
- The two development-only assertions of `addRouteRecord` (src/create-route-map.js:70-76) throw: one for a missing `path`, one for a `component` given as a string id. `RouteConfig.path` is a `string` and the component type has no string id, so neither input can be written and neither error is modelled.
- A `null` alias and non-string alias entries cannot be represented in the configuration type.
- `stringifyQuery` (`src/util/query.js`) and the `router` argument of `createRoute` are not modelled. The serializer is a function parameter.
- The `try`/`catch` around `clone` and `Object.freeze` are not modelled. Model values are immutable and cloning cannot fail.
- Query values are strings, integers, booleans, `null`, `undefined`, arrays and plain objects. Non-integer numbers, functions and symbols are not represented.
- QueryValues.Num: a number is an unbounded integer that `String` writes as its exact decimal numeral. JavaScript numbers are doubles, so from 2^53 on the source rounds, and from 1e21 on it uses exponent form: `isObjectEqual({k: 2**64}, {k: '18446744073709552000'})` and `isObjectEqual({k: 1e21}, {k: '1e+21'})` are true in the source but false in the model. `NumberEqualsNumeral` is therefore stated only for safe integers (`IsSafeInteger`).
- Route.GetFullPath: `None` stands for both `undefined` and `null`. The default parameters `query = {}` and `hash = ''` replace only `undefined`, so in the source a `null` hash is written as `'null'` and a `null` query reaches the serializer as `null`. The model writes both like `undefined`. Locations are normalized before they reach `createRoute`, so this case does not arise from the router itself.
- `isObjectEqual` compares sorted key lists. The model compares key sets, which is the same decision because keys are distinct.
- `isObjectEqual`'s top-level `!a || !b` branch is not modelled. Route queries and params are always objects once `createRoute` has built them.
- `queryIncludes` uses `key in current`. That also sees inherited properties such as `toString`; the model checks own keys only.
- Route.FormatMatch: `createRoute` uses the function `Ancestry`, which the method is proved equal to.
- Callbacks and component instances in `handleRouteEntered` are identifiers, and a run is an entry in the returned log. What a callback does is not modelled, including destroying an instance mid-dispatch; `_isBeingDestroyed` is taken as fixed during one dispatch. A callback that throws is not modelled either: the source deletes a view's pending list (src/util/route.js:158) before running it (159-161), so a throw there loses the callbacks after it in that list, while the model always runs the whole list.
- Filling `instances` and `enteredCbs` is not modelled: router-view components and `beforeRouteEnter` guards do that.
- The `instances` and `enteredCbs` tables live in `Entered.ViewRegistry`, keyed by record identity, rather than on the record objects.
- `src/install.js` (plugin installation and Vue mixins) is not part of this model.

## Notes on the code's behaviour

The model follows the code as written. In particular:

- A name already in `nameMap` is never overwritten, including from inside an alias subtree. Only the warning depends on `matchAs` (`RouteMap.RegisterName`).
- An alias equal to the route's own path is skipped only outside production. In production it is expanded like any other alias (`RouteMap.SkipsAlias`).
- `isSameRoute(START, createRoute(null, {path: '/'}))` is true: the identity test applies only when `START` is the second argument (`Route.StartIsAsymmetric`).
- `alias: ''` stores `[]` as the record's `alias`, yet the empty string is still expanded as an alias (`RouteMap.RecordAlias`, `RouteMap.ExpandedAliases`).
