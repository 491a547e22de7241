/** The route values of src/util/route.js: `createRoute` and its helpers
    `formatMatch` and `getFullPath`, the `START` route, and the comparators
    `isSameRoute`, `isIncludedRoute` and `queryIncludes`.

    `stringifyQuery` (src/util/query.js, not part of this model) is a
    parameter: whichever serializer the router was configured with, or the
    default one where no router is involved (`Start`). */
module Route {
  import opened Optional
  import opened Paths
  import opened QueryValues
  import opened RouteMap

  /** A resolved location: every field may be absent. */
  datatype Location = Location(
    name: Option<string>,
    path: Option<string>,
    hash: Option<string>,
    query: Option<Query>,
    params: Option<Query>)

  /** A route snapshot. `start` marks the one `START` object: the source
      compares it by identity, which structural equality cannot express. */
  datatype Route = Route(
    name: Option<string>,
    meta: map<string, Payload>,
    path: string,
    hash: string,
    query: Query,
    params: Query,
    fullPath: string,
    matched: seq<RouteRecord>,
    redirectedFrom: Option<string>,
    start: bool)

  // ---------------------------------------------------------------------------
  // formatMatch
  // ---------------------------------------------------------------------------

  /** The ancestor chain of `record`, root first, ending with the record itself. */
  function Ancestry(record: Option<RouteRecord>): (r: seq<RouteRecord>)
    ensures r == [] <==> record.None?
    ensures record.Some? ==> r[|r| - 1] == record.value
    decreases record
  {
    if record.None? then [] else Ancestry(record.value.parent) + [record.value]
  }

  /** The chain is exactly the parent links: empty for no record, it ends
      with the record, starts at a root, and each element is the parent of
      the next. */
  lemma {:induction false} AncestryIsParentChain(record: Option<RouteRecord>)
    ensures var res := Ancestry(record);
      && (res == [] <==> record.None?)
      && (record.Some? ==> res[|res| - 1] == record.value && res[0].parent.None?)
      && (forall i :: 0 < i < |res| ==> res[i].parent == Some(res[i - 1]))
    decreases record
  {
    if record.Some? {
      var r := record.value;
      AncestryIsParentChain(r.parent);
      var before := Ancestry(r.parent);
      var res := before + [r];
      forall i | 0 < i < |res|
        ensures res[i].parent == Some(res[i - 1])
      {
        if i == |res| - 1 {
          assert before[|before| - 1] == r.parent.value;
        }
      }
    }
  }

  /** `formatMatch(record)`: walk up the parent links, `unshift`-ing each
      record onto the result. */
  method FormatMatch(record: Option<RouteRecord>) returns (res: seq<RouteRecord>)
    ensures res == Ancestry(record)
  {
    res := [];
    var current := record;
    while current.Some?
      invariant Ancestry(current) + res == Ancestry(record)
      decreases current
    {
      res := [current.value] + res;
      current := current.value.parent;
    }
  }

  // ---------------------------------------------------------------------------
  // getFullPath, createRoute, START
  // ---------------------------------------------------------------------------

  /** `getFullPath({ path, query = {}, hash = '' }, stringify)`. */
  function GetFullPath(location: Location, stringify: Query -> string): (r: string)
    ensures |r| > 0
    ensures OrElse(location.path, "/") <= r
    ensures |location.hash.GetOr("")| <= |r| && location.hash.GetOr("") == r[|r| - |location.hash.GetOr("")|..]
  {
    var prefix := OrElse(location.path, "/") + stringify(location.query.GetOr(map[]));
    var r := prefix + location.hash.GetOr("");
    assert r[..|OrElse(location.path, "/")|] == OrElse(location.path, "/");
    assert r[|prefix|..] == location.hash.GetOr("");
    r
  }

  /** `createRoute(record, location, redirectedFrom, router)`. */
  function CreateRoute(record: Option<RouteRecord>, location: Location, redirectedFrom: Option<Location>, stringify: Query -> string): (r: Route)
    ensures r.path != "" && r.path == OrElse(location.path, "/")
    ensures r.hash == OrElse(location.hash, "")
    ensures r.query == location.query.GetOr(map[]) && r.params == location.params.GetOr(map[])
    ensures r.fullPath == r.path + stringify(r.query) + r.hash
    ensures Truthy(location.name) ==> r.name == location.name
    ensures !Truthy(location.name) ==> r.name == (if record.Some? then record.value.name else None)
    ensures r.meta == (if record.Some? then record.value.meta else map[])
    ensures r.matched == [] <==> record.None?
    ensures record.Some? ==> r.matched[|r.matched| - 1] == record.value && r.matched[0].parent.None?
    ensures forall i :: 0 < i < |r.matched| ==> r.matched[i].parent == Some(r.matched[i - 1])
    ensures r.redirectedFrom.Some? <==> redirectedFrom.Some?
    ensures redirectedFrom.Some? ==> r.redirectedFrom == Some(GetFullPath(redirectedFrom.value, stringify))
    ensures !r.start
  {
    AncestryIsParentChain(record);
    Route(
      if Truthy(location.name) then location.name else if record.Some? then record.value.name else None,
      if record.Some? then record.value.meta else map[],
      OrElse(location.path, "/"),
      OrElse(location.hash, ""),
      CloneQuery(location.query.GetOr(map[])),
      location.params.GetOr(map[]),
      GetFullPath(location, stringify),
      Ancestry(record),
      if redirectedFrom.Some? then Some(GetFullPath(redirectedFrom.value, stringify)) else None,
      false)
  }

  /** `START = createRoute(null, { path: '/' })`, the one route carrying the
      identity tag. It is built without a router, so `stringify` here stands
      for the default `stringifyQuery`, never a router's own serializer. */
  function Start(stringify: Query -> string): (r: Route)
    ensures r.start
    ensures r.path == "/" && r.hash == "" && r.query == map[] && r.params == map[]
    ensures r.fullPath == "/" + stringify(map[])
    ensures r.name.None? && r.matched == [] && r.redirectedFrom.None?
  {
    CreateRoute(None, Location(None, Some("/"), None, None, None), None, stringify).(start := true)
  }

  // ---------------------------------------------------------------------------
  // isSameRoute
  // ---------------------------------------------------------------------------

  /** `isSameRoute(a, b, onlyPath)`: `START` as `b` is compared by identity;
      otherwise two routes with paths compare their paths up to one trailing
      slash, and two routes without both paths compare their (truthy) names;
      unless `onlyPath`, hash and query (and, by name, params) must agree too. */
  function IsSameRoute(a: Route, b: Option<Route>, onlyPath: bool): (r: bool)
    ensures b.None? ==> !r
    ensures r && b.Some? && !b.value.start && a.path != "" && b.value.path != "" ==>
      StripTrailingSlash(a.path) == StripTrailingSlash(b.value.path)
    ensures r && b.Some? && !b.value.start && (a.path == "" || b.value.path == "") ==>
      Truthy(a.name) && a.name == b.value.name
    ensures r && !onlyPath && b.Some? && !b.value.start ==>
      a.hash == b.value.hash && IsObjectEqual(a.query, b.value.query)
    ensures r && !onlyPath && b.Some? && !b.value.start && (a.path == "" || b.value.path == "") ==>
      IsObjectEqual(a.params, b.value.params)
  {
    if b.Some? && b.value.start then a.start
    else if b.None? then false
    else if a.path != "" && b.value.path != "" then
      && StripTrailingSlash(a.path) == StripTrailingSlash(b.value.path)
      && (onlyPath || (a.hash == b.value.hash && IsObjectEqual(a.query, b.value.query)))
    else if Truthy(a.name) && Truthy(b.value.name) then
      && a.name == b.value.name
      && (onlyPath || (a.hash == b.value.hash && IsObjectEqual(a.query, b.value.query)
                       && IsObjectEqual(a.params, b.value.params)))
    else false
  }

  /** Against `START` only `START` itself matches; an absent route matches nothing. */
  lemma IsSameRouteSentinels(a: Route, b: Option<Route>, onlyPath: bool)
    ensures b.Some? && b.value.start ==> (IsSameRoute(a, b, onlyPath) <==> a.start)
    ensures b.None? ==> !IsSameRoute(a, b, onlyPath)
  {
  }

  /** A route with a path or a name is the same as itself. */
  lemma IsSameRouteReflexive(a: Route, onlyPath: bool)
    requires a.path != "" || Truthy(a.name)
    ensures IsSameRoute(a, Some(a), onlyPath)
  {
    IsObjectEqualReflexive(a.query);
    IsObjectEqualReflexive(a.params);
  }

  /** Every route `createRoute` builds has a path, so is the same as itself. */
  lemma CreatedRouteIsSameAsItself(record: Option<RouteRecord>, location: Location, redirectedFrom: Option<Location>, stringify: Query -> string, onlyPath: bool)
    ensures var r := CreateRoute(record, location, redirectedFrom, stringify);
      IsSameRoute(r, Some(r), onlyPath)
  {
    IsSameRouteReflexive(CreateRoute(record, location, redirectedFrom, stringify), onlyPath);
  }

  /** Away from `START`, the comparison is symmetric. */
  lemma IsSameRouteSymmetric(a: Route, b: Route, onlyPath: bool)
    requires !a.start && !b.start
    ensures IsSameRoute(a, Some(b), onlyPath) == IsSameRoute(b, Some(a), onlyPath)
  {
    IsObjectEqualSymmetric(a.query, b.query);
    IsObjectEqualSymmetric(a.params, b.params);
  }

  /** `START` breaks symmetry: it is the same as a fresh route to `/`, but
      that route is not the same as `START`. */
  lemma StartIsAsymmetric(stringify: Query -> string)
    ensures var home := CreateRoute(None, Location(None, Some("/"), None, None, None), None, stringify);
      IsSameRoute(Start(stringify), Some(home), false) && !IsSameRoute(home, Some(Start(stringify)), false)
  {
    IsObjectEqualReflexive(map[]);
  }

  /** Comparing paths only accepts every pair the full comparison accepts. */
  lemma OnlyPathIsWeaker(a: Route, b: Option<Route>)
    ensures IsSameRoute(a, b, false) ==> IsSameRoute(a, b, true)
  {
  }

  /** One trailing slash makes no difference. */
  lemma TrailingSlashIgnored(a: Route, b: Route)
    requires !b.start && b.path != "" && !EndsWithSlash(b.path) && a.path == b.path + "/"
    requires a.hash == b.hash && a.query == b.query
    ensures IsSameRoute(a, Some(b), false)
  {
    IsObjectEqualReflexive(a.query);
  }

  // ---------------------------------------------------------------------------
  // isIncludedRoute, queryIncludes
  // ---------------------------------------------------------------------------

  /** What `queryIncludes(current, target)` decides: every key of `target`
      is a key of `current`, whatever the values. */
  predicate KeysIncluded(current: Query, target: Query) {
    target.Keys <= current.Keys
  }

  /** `queryIncludes(current, target)`: a `for ... in` over the target's
      keys that returns `false` at the first one missing from `current`. */
  method QueryIncludes(current: Query, target: Query) returns (b: bool)
    ensures b <==> KeysIncluded(current, target)
  {
    var keys := target.Keys;
    while keys != {}
      invariant keys <= target.Keys
      invariant forall k :: k in target.Keys && k !in keys ==> k in current
      decreases |keys|
    {
      var key :| key in keys;
      if key !in current {
        return false;
      }
      keys := keys - {key};
    }
    return true;
  }

  /** `isIncludedRoute(current, target)`. The `indexOf(...) === 0` test is a
      prefix test on the slash-terminated paths. */
  function IsIncludedRoute(current: Route, target: Route): (r: bool)
    ensures r <==>
      && EnsureTrailingSlash(target.path) <= EnsureTrailingSlash(current.path)
      && (target.hash == "" || current.hash == target.hash)
      && target.query.Keys <= current.query.Keys
  {
    IndexOfZeroIsPrefix(EnsureTrailingSlash(current.path), EnsureTrailingSlash(target.path));
    && IndexOf(EnsureTrailingSlash(current.path), EnsureTrailingSlash(target.path)) == 0
    && (target.hash == "" || current.hash == target.hash)
    && KeysIncluded(current.query, target.query)
  }

  /** Inclusion respects segment boundaries: a target path not ending in a
      slash includes only itself and the paths below it. */
  lemma IncludedAtSegmentBoundary(current: Route, target: Route)
    requires !EndsWithSlash(target.path)
    requires IsIncludedRoute(current, target)
    ensures current.path == target.path || target.path + "/" <= current.path
  {
    SlashPrefixAtBoundary(current.path, target.path);
  }

  /** `/a/b` is included in `/a`, but `/ab` is not. */
  lemma IncludedExamples(current: Route, target: Route)
    requires target.path == "/a" && target.hash == "" && target.query == map[]
    ensures current.path == "/a/b" ==> IsIncludedRoute(current, target)
    ensures current.path == "/ab" ==> !IsIncludedRoute(current, target)
  {
    if current.path == "/ab" {
      assert EnsureTrailingSlash(current.path)[2] != EnsureTrailingSlash(target.path)[2];
    }
  }

  /** Every route includes itself. */
  lemma IsIncludedRouteReflexive(r: Route)
    ensures IsIncludedRoute(r, r)
  {
  }

  /** A route the full comparison finds the same by path is also included. */
  lemma SameRouteIsIncluded(a: Route, b: Route)
    requires !b.start && a.path != "" && b.path != ""
    requires IsSameRoute(a, Some(b), false)
    ensures IsIncludedRoute(a, b)
  {
    IsObjectEqualSameKeys(a.query, b.query);
    assert EnsureTrailingSlash(a.path) == EnsureTrailingSlash(b.path);
  }
}
