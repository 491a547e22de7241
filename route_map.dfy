/** The route table builder of src/create-route-map.js.

    A nested list of route configurations is compiled into three caller-owned
    tables: `pathList` (match priority), `pathMap` (path to record) and
    `nameMap` (name to record). The recursion of `addRouteRecord` is given
    twice: as the function `AddRoute` over a `Tables` value, where its
    properties are proved, and as the method `RouteTable.AddRouteRecord`,
    which updates the tables in place as the source does and is proved to
    end in the state `AddRoute` describes. */
module RouteMap {
  import opened Optional
  import opened Paths

  // ---------------------------------------------------------------------------
  // Data model
  // ---------------------------------------------------------------------------

  /** A passthrough payload the builder never looks into (a component object,
      a redirect target, a `beforeEnter` guard, a `meta` value). */
  datatype Payload = Payload(id: nat)

  /** A view component; `Missing` is `undefined`. A component given as a
      string id is rejected by an assertion in the source and has no value here. */
  datatype Component = Missing | Defined(payload: Payload)

  /** The `props` option: an opaque value (a boolean, a function, ...) or a
      plain object with one entry per view. */
  datatype Props = OpaqueProps(payload: Payload) | PropsObject(fields: map<string, Props>)

  /** The `alias` option: absent, a single string, or an array of strings. */
  datatype Alias = NoAlias | OneAlias(path: string) | AliasArray(paths: seq<string>)

  /** `pathToRegexpOptions`; an absent flag is `undefined`. */
  datatype RegexpOptions = RegexpOptions(sensitive: Option<bool>, strict: Option<bool>, end: Option<bool>)

  const NoOptions := RegexpOptions(None, None, None)

  /** The compiled matcher, kept opaque: it is identified by the path and
      the options it was compiled from. */
  datatype RouteRegExp = RouteRegExp(source: string, options: RegexpOptions)

  /** One node of the user's configuration tree. An absent `children` is `[]`. */
  datatype RouteConfig = RouteConfig(
    path: string,
    name: Option<string>,
    component: Component,
    components: Option<map<string, Component>>,
    children: seq<RouteConfig>,
    alias: Alias,
    redirect: Option<Payload>,
    beforeEnter: Option<Payload>,
    meta: Option<map<string, Payload>>,
    props: Option<Props>,
    pathToRegexpOptions: Option<RegexpOptions>,
    caseSensitive: Option<bool>)

  /** A compiled record. `id` stands for the object's identity (two records
      built from equal configurations are still two objects); `parent` is
      the parent record itself, so the ancestor chain needs no table lookup. */
  datatype RouteRecord = RouteRecord(
    id: nat,
    path: string,
    regex: RouteRegExp,
    components: map<string, Component>,
    alias: seq<string>,
    name: Option<string>,
    parent: Option<RouteRecord>,
    matchAs: Option<string>,
    redirect: Option<Payload>,
    beforeEnter: Option<Payload>,
    meta: map<string, Payload>,
    props: Props)

  /** The three shared tables, plus the number of records created so far
      (the source of fresh record identities). */
  datatype Tables = Tables(
    pathList: seq<string>,
    pathMap: map<string, RouteRecord>,
    nameMap: map<string, RouteRecord>,
    created: nat)

  const EmptyTables := Tables([], map[], map[], 0)

  /** The wildcard path that must sort last. */
  const Wildcard := "*"

  // ---------------------------------------------------------------------------
  // Table invariants
  // ---------------------------------------------------------------------------

  ghost predicate NoDuplicates(s: seq<string>) {
    forall x :: multiset(s)[x] <= 1
  }

  /** `pathList` and the keys of `pathMap` are the same paths, each listed
      once; every record sits under its own path (and name); every record
      identity was handed out by the tables. */
  ghost predicate Valid(t: Tables) {
    && NoDuplicates(t.pathList)
    && (forall p :: p in t.pathList <==> p in t.pathMap)
    && (forall p :: p in t.pathMap ==> t.pathMap[p].path == p && t.pathMap[p].id < t.created)
    && (forall n :: n in t.nameMap ==> t.nameMap[n].name == Some(n) && t.nameMap[n].id < t.created)
  }

  /** `u` is `t` after appending only: the old priority list is a prefix,
      and no entry of either map has been removed or overwritten. */
  ghost predicate Extends(t: Tables, u: Tables) {
    && t.pathList <= u.pathList
    && (forall p :: p in t.pathMap ==> p in u.pathMap && u.pathMap[p] == t.pathMap[p])
    && (forall n :: n in t.nameMap ==> n in u.nameMap && u.nameMap[n] == t.nameMap[n])
    && t.created <= u.created
  }

  lemma ExtendsTransitive(t: Tables, u: Tables, v: Tables)
    requires Extends(t, u) && Extends(u, v)
    ensures Extends(t, v)
  {
  }

  // ---------------------------------------------------------------------------
  // Building one record
  // ---------------------------------------------------------------------------

  /** `route.pathToRegexpOptions || {}`, with a boolean `caseSensitive`
      written over `sensitive`. */
  function EffectiveOptions(route: RouteConfig): (o: RegexpOptions)
    ensures route.caseSensitive.Some? ==> o.sensitive == route.caseSensitive
    ensures route.caseSensitive.None? ==> o == route.pathToRegexpOptions.GetOr(NoOptions)
    ensures o.strict == route.pathToRegexpOptions.GetOr(NoOptions).strict
    ensures o.end == route.pathToRegexpOptions.GetOr(NoOptions).end
  {
    var given := route.pathToRegexpOptions.GetOr(NoOptions);
    if route.caseSensitive.Some? then given.(sensitive := route.caseSensitive) else given
  }

  /** `normalizePath(path, parent, strict)`: outside strict mode one
      trailing slash is dropped; an absolute path, or any path without a
      parent, is then kept as it is, and a relative one is joined under the
      parent's path. */
  function NormalizePath(path: string, parent: Option<RouteRecord>, strict: bool): (r: string)
    ensures var p := if strict then path else StripTrailingSlash(path);
      && (StartsWithSlash(p) || parent.None? ==> r == p)
      && (parent.Some? && !StartsWithSlash(p) && NoDoubleSlash(parent.value.path) ==>
            && NoDoubleSlash(r)
            && EnsureTrailingSlash(parent.value.path) <= r
            && (StartsWithSlash(parent.value.path) ==> StartsWithSlash(r)))
  {
    var p := if strict then path else StripTrailingSlash(path);
    if StartsWithSlash(p) then p
    else if parent.None? then p
    else
      var r := CleanPath(parent.value.path + "/" + p);
      if NoDoubleSlash(parent.value.path) then JoinUnderClean(parent.value.path, p); r else r
  }

  /** A relative path under a parent is nested under it: the result is
      clean and begins with the parent's (clean) path followed by a slash,
      so it is absolute whenever the parent's path is. */
  lemma NormalizeNestsUnderParent(path: string, parent: RouteRecord, strict: bool)
    requires NoDoubleSlash(parent.path)
    requires !StartsWithSlash(if strict then path else StripTrailingSlash(path))
    ensures var r := NormalizePath(path, Some(parent), strict);
      && NoDoubleSlash(r)
      && EnsureTrailingSlash(parent.path) <= r
      && (StartsWithSlash(parent.path) ==> StartsWithSlash(r))
  {
    var p := if strict then path else StripTrailingSlash(path);
    assert NormalizePath(path, Some(parent), strict) == CleanPath(parent.path + "/" + p);
    JoinUnderClean(parent.path, p);
  }

  /** `alias` as stored on the record: `[alias]` for a non-empty string,
      the array itself, and `[]` for an absent or empty alias. */
  function RecordAlias(a: Alias): seq<string> {
    match a
    case NoAlias => []
    case OneAlias(s) => if s == "" then [] else [s]
    case AliasArray(xs) => xs
  }

  /** The aliases that are expanded into records: every alias that is not
      `undefined`, a single string becoming a one-element list. */
  function ExpandedAliases(a: Alias): seq<string> {
    match a
    case NoAlias => []
    case OneAlias(s) => [s]
    case AliasArray(xs) => xs
  }

  /** The `props` stored on the record. */
  function RecordProps(route: RouteConfig): Props {
    if route.props.None? then PropsObject(map[])
    else if route.components.Some? then route.props.value
    else PropsObject(map["default" := route.props.value])
  }

  /** The record `addRouteRecord` builds for `route` before it looks at the
      children, given a fresh identity. */
  function MakeRecord(route: RouteConfig, parent: Option<RouteRecord>, matchAs: Option<string>, id: nat): (r: RouteRecord)
    ensures r.id == id && r.parent == parent && r.matchAs == matchAs && r.name == route.name
    ensures r.path == NormalizePath(route.path, parent, EffectiveOptions(route).strict == Some(true))
    ensures r.regex == RouteRegExp(r.path, EffectiveOptions(route))
    ensures route.components.None? ==> r.components == map["default" := route.component]
    ensures route.components.Some? ==> r.components == route.components.value
    ensures r.alias == RecordAlias(route.alias)
    ensures route.props.None? ==> r.props == PropsObject(map[])
    ensures route.props.Some? && route.components.Some? ==> r.props == route.props.value
    ensures route.props.Some? && route.components.None? ==> r.props == PropsObject(map["default" := route.props.value])
    ensures r.meta == route.meta.GetOr(map[])
    ensures r.redirect == route.redirect && r.beforeEnter == route.beforeEnter
  {
    var options := EffectiveOptions(route);
    var path := NormalizePath(route.path, parent, options.strict == Some(true));
    RouteRecord(
      id, path, RouteRegExp(path, options),
      route.components.GetOr(map["default" := route.component]),
      RecordAlias(route.alias), route.name, parent, matchAs,
      route.redirect, route.beforeEnter, route.meta.GetOr(map[]), RecordProps(route))
  }

  /** The `matchAs` handed to a child: the current `matchAs` joined with the
      child's path, or `undefined` outside an alias subtree. */
  function ChildMatchAs(matchAs: Option<string>, childPath: string): Option<string> {
    if Truthy(matchAs) then Some(CleanPath(matchAs.value + "/" + childPath)) else None
  }

  /** Inside an alias subtree a child's `matchAs` is a clean path extending
      the alias target's; outside it there is none. */
  lemma ChildMatchAsExtends(matchAs: Option<string>, childPath: string)
    ensures !Truthy(matchAs) <==> ChildMatchAs(matchAs, childPath).None?
    ensures Truthy(matchAs) && NoDoubleSlash(matchAs.value) ==>
      var m := ChildMatchAs(matchAs, childPath).value;
      NoDoubleSlash(m) && matchAs.value <= m
  {
    if Truthy(matchAs) && NoDoubleSlash(matchAs.value) {
      assert matchAs.value + "/" + childPath == matchAs.value + ("/" + childPath);
      CleanPathKeepsPrefix(matchAs.value, "/" + childPath);
    }
  }

  /** The `matchAs` given to alias records: `record.path || '/'`. */
  function AliasMatchAs(rec: RouteRecord): string {
    if rec.path == "" then "/" else rec.path
  }

  /** `{ path: alias, children: route.children }`. */
  function AliasRoute(alias: string, children: seq<RouteConfig>): RouteConfig {
    RouteConfig(alias, None, Missing, None, children, NoAlias, None, None, None, None, None, None)
  }

  // ---------------------------------------------------------------------------
  // Registration steps
  // ---------------------------------------------------------------------------

  /** `if (!pathMap[record.path]) { pathList.push(record.path); pathMap[record.path] = record }`:
      the path is appended exactly when it is absent, and an existing entry
      is never replaced. */
  function RegisterPath(t: Tables, rec: RouteRecord): (r: Tables)
    ensures rec.path in t.pathMap ==> r == t
    ensures rec.path !in t.pathMap ==>
      r == t.(pathList := t.pathList + [rec.path], pathMap := t.pathMap[rec.path := rec])
    ensures Extends(t, r) && rec.path in r.pathMap
    ensures Valid(t) && rec.id < t.created ==> Valid(r)
  {
    if rec.path in t.pathMap then t
    else t.(pathList := t.pathList + [rec.path], pathMap := t.pathMap[rec.path := rec])
  }

  /** `if (name) { if (!nameMap[name]) nameMap[name] = record }`: a name is
      registered only while unused; the first registration is kept. */
  function RegisterName(t: Tables, name: Option<string>, rec: RouteRecord): (r: Tables)
    ensures Extends(t, r) && r.pathList == t.pathList && r.pathMap == t.pathMap
    ensures Truthy(name) ==> name.value in r.nameMap
    ensures Truthy(name) && name.value !in t.nameMap ==> r.nameMap == t.nameMap[name.value := rec]
    ensures !Truthy(name) || name.value in t.nameMap ==> r == t
    ensures Valid(t) && rec.name == name && rec.id < t.created ==> Valid(r)
  {
    if Truthy(name) && name.value !in t.nameMap then t.(nameMap := t.nameMap[name.value := rec])
    else t
  }

  // ---------------------------------------------------------------------------
  // addRouteRecord, as a function
  // ---------------------------------------------------------------------------

  /** The height of a forest of configurations: the recursion measure. An
      alias route has the same children, hence the same measure, as the
      route it comes from. */
  function ForestHeight(cs: seq<RouteConfig>): (h: nat)
    ensures forall i :: 0 <= i < |cs| ==> ForestHeight(cs[i].children) < h
  {
    if cs == [] then 0
    else
      var first := 1 + ForestHeight(cs[0].children);
      var rest := ForestHeight(cs[1..]);
      if first < rest then rest else first
  }

  function AliasRank(route: RouteConfig): nat {
    if route.alias.NoAlias? then 0 else 1
  }

  /** `addRouteRecord(pathList, pathMap, nameMap, route, parent, matchAs)`:
      build the record, add the children, register the path, expand the
      aliases, register the name. Tables are only ever extended. */
  function AddRoute(t: Tables, route: RouteConfig, parent: Option<RouteRecord>, matchAs: Option<string>, production: bool): Tables
    decreases ForestHeight(route.children), AliasRank(route), 2, 0
  {
    var rec := MakeRecord(route, parent, matchAs, t.created);
    var afterChildren := ChildrenPhase(t, route, parent, matchAs, production);
    var afterPath := RegisterPath(afterChildren, rec);
    var afterAliases :=
      if route.alias.NoAlias? then afterPath
      else AddAliases(afterPath, route, rec, parent, production, 0);
    RegisterName(afterAliases, route.name, rec)
  }

  /** The tables once the record has been created and all of its children
      have been added (everything `AddRoute` does before registering the
      record's own path). */
  function ChildrenPhase(t: Tables, route: RouteConfig, parent: Option<RouteRecord>, matchAs: Option<string>, production: bool): Tables
    decreases ForestHeight(route.children), 0, 1, 0
  {
    var rec := MakeRecord(route, parent, matchAs, t.created);
    AddChildren(t.(created := t.created + 1), route, rec, matchAs, production, 0)
  }

  /** `route.children.forEach(child => addRouteRecord(..., child, record, childMatchAs))`,
      from the `i`-th child on. */
  function AddChildren(t: Tables, route: RouteConfig, rec: RouteRecord, matchAs: Option<string>, production: bool, i: nat): Tables
    requires i <= |route.children|
    decreases ForestHeight(route.children), 0, 0, |route.children| - i
  {
    if i == |route.children| then t
    else
      var child := route.children[i];
      var next := AddRoute(t, child, Some(rec), ChildMatchAs(matchAs, child.path), production);
      AddChildren(next, route, rec, matchAs, production, i + 1)
  }

  /** Whether the alias loop skips `alias`: outside production, an alias
      equal to the route's own (un-normalized) path is ignored. */
  predicate SkipsAlias(route: RouteConfig, alias: string, production: bool) {
    !production && alias == route.path
  }

  /** One turn of the alias loop: unless skipped, `{ path: alias, children:
      route.children }` is added under the same parent with
      `matchAs = record.path || '/'`. */
  function AliasStep(t: Tables, route: RouteConfig, alias: string, rec: RouteRecord, parent: Option<RouteRecord>, production: bool): Tables
    requires !route.alias.NoAlias?
    decreases ForestHeight(route.children), AliasRank(route), 0, 0
  {
    if SkipsAlias(route, alias, production) then t
    else AddRoute(t, AliasRoute(alias, route.children), parent, Some(AliasMatchAs(rec)), production)
  }

  /** The alias loop from the `i`-th alias on. */
  function AddAliases(t: Tables, route: RouteConfig, rec: RouteRecord, parent: Option<RouteRecord>, production: bool, i: nat): Tables
    requires i <= |ExpandedAliases(route.alias)|
    decreases ForestHeight(route.children), AliasRank(route), 0, |ExpandedAliases(route.alias)| - i
  {
    var aliases := ExpandedAliases(route.alias);
    if i == |aliases| then t
    else AddAliases(AliasStep(t, route, aliases[i], rec, parent, production), route, rec, parent, production, i + 1)
  }

  /** `addRouteRecord` only appends: no path or name already in the tables
      is removed, moved or overwritten, and the table invariant is kept. */
  lemma {:induction false} AddRouteExtends(t: Tables, route: RouteConfig, parent: Option<RouteRecord>, matchAs: Option<string>, production: bool)
    ensures var r := AddRoute(t, route, parent, matchAs, production);
      Extends(t, r) && r.created > t.created && (Valid(t) ==> Valid(r))
    decreases ForestHeight(route.children), AliasRank(route), 2, 0
  {
    var rec := MakeRecord(route, parent, matchAs, t.created);
    var afterChildren := ChildrenPhase(t, route, parent, matchAs, production);
    ChildrenPhaseExtends(t, route, parent, matchAs, production);
    var afterPath := RegisterPath(afterChildren, rec);
    var afterAliases :=
      if route.alias.NoAlias? then afterPath
      else AddAliases(afterPath, route, rec, parent, production, 0);
    if !route.alias.NoAlias? {
      AddAliasesExtends(afterPath, route, rec, parent, production, 0);
    }
    var r := RegisterName(afterAliases, route.name, rec);
    ExtendsTransitive(t, afterChildren, afterPath);
    ExtendsTransitive(t, afterPath, afterAliases);
    ExtendsTransitive(t, afterAliases, r);
  }

  lemma {:induction false} ChildrenPhaseExtends(t: Tables, route: RouteConfig, parent: Option<RouteRecord>, matchAs: Option<string>, production: bool)
    ensures var r := ChildrenPhase(t, route, parent, matchAs, production);
      Extends(t, r) && r.created > t.created && (Valid(t) ==> Valid(r))
    decreases ForestHeight(route.children), 0, 1, 0
  {
    var rec := MakeRecord(route, parent, matchAs, t.created);
    var t1 := t.(created := t.created + 1);
    var r := AddChildren(t1, route, rec, matchAs, production, 0);
    assert ChildrenPhase(t, route, parent, matchAs, production) == r;
    CreatingKeepsValid(t);
    AddChildrenExtends(t1, route, rec, matchAs, production, 0);
    ExtendsTransitive(t, t1, r);
  }

  /** Handing out one record identity extends the tables and keeps them valid. */
  lemma CreatingKeepsValid(t: Tables)
    ensures Extends(t, t.(created := t.created + 1))
    ensures Valid(t) ==> Valid(t.(created := t.created + 1))
  {
  }

  lemma {:induction false} AddChildrenExtends(t: Tables, route: RouteConfig, rec: RouteRecord, matchAs: Option<string>, production: bool, i: nat)
    requires i <= |route.children|
    ensures var r := AddChildren(t, route, rec, matchAs, production, i);
      Extends(t, r) && (Valid(t) ==> Valid(r))
    decreases ForestHeight(route.children), 0, 0, |route.children| - i
  {
    if i < |route.children| {
      var child := route.children[i];
      var next := AddRoute(t, child, Some(rec), ChildMatchAs(matchAs, child.path), production);
      AddRouteExtends(t, child, Some(rec), ChildMatchAs(matchAs, child.path), production);
      AddChildrenExtends(next, route, rec, matchAs, production, i + 1);
      ExtendsTransitive(t, next, AddChildren(t, route, rec, matchAs, production, i));
    }
  }

  lemma {:induction false} AddAliasesExtends(t: Tables, route: RouteConfig, rec: RouteRecord, parent: Option<RouteRecord>, production: bool, i: nat)
    requires i <= |ExpandedAliases(route.alias)|
    ensures var r := AddAliases(t, route, rec, parent, production, i);
      Extends(t, r) && (Valid(t) ==> Valid(r))
    decreases ForestHeight(route.children), AliasRank(route), 0, |ExpandedAliases(route.alias)| - i
  {
    var aliases := ExpandedAliases(route.alias);
    if i < |aliases| {
      var next := AliasStep(t, route, aliases[i], rec, parent, production);
      if SkipsAlias(route, aliases[i], production) {
        assert next == t;
      } else {
        var aliasRoute := AliasRoute(aliases[i], route.children);
        assert next == AddRoute(t, aliasRoute, parent, Some(AliasMatchAs(rec)), production);
        AddRouteExtends(t, aliasRoute, parent, Some(AliasMatchAs(rec)), production);
      }
      var r := AddAliases(next, route, rec, parent, production, i + 1);
      assert AddAliases(t, route, rec, parent, production, i) == r;
      AddAliasesExtends(next, route, rec, parent, production, i + 1);
      ExtendsTransitive(t, next, r);
    }
  }

  lemma {:induction false} AddRoutesExtends(t: Tables, routes: seq<RouteConfig>, parentRoute: Option<RouteRecord>, production: bool, i: nat)
    requires i <= |routes|
    ensures var r := AddRoutes(t, routes, parentRoute, production, i);
      Extends(t, r) && (Valid(t) ==> Valid(r))
    decreases |routes| - i
  {
    if i < |routes| {
      var next := AddRoute(t, routes[i], parentRoute, None, production);
      AddRouteExtends(t, routes[i], parentRoute, None, production);
      AddRoutesExtends(next, routes, parentRoute, production, i + 1);
      ExtendsTransitive(t, next, AddRoutes(t, routes, parentRoute, production, i));
    }
  }

  /** `AddRoute` is its four phases in sequence. */
  lemma AddRouteUnfold(t: Tables, route: RouteConfig, parent: Option<RouteRecord>, matchAs: Option<string>, production: bool, afterAliases: Tables)
    requires var rec := MakeRecord(route, parent, matchAs, t.created);
      var afterPath := RegisterPath(ChildrenPhase(t, route, parent, matchAs, production), rec);
      afterAliases == if route.alias.NoAlias? then afterPath else AddAliases(afterPath, route, rec, parent, production, 0)
    ensures AddRoute(t, route, parent, matchAs, production)
         == RegisterName(afterAliases, route.name, MakeRecord(route, parent, matchAs, t.created))
  {
  }

  lemma AddChildrenDone(t: Tables, route: RouteConfig, rec: RouteRecord, matchAs: Option<string>, production: bool)
    ensures AddChildren(t, route, rec, matchAs, production, |route.children|) == t
  {
  }

  lemma AddAliasesDone(t: Tables, route: RouteConfig, rec: RouteRecord, parent: Option<RouteRecord>, production: bool)
    ensures AddAliases(t, route, rec, parent, production, |ExpandedAliases(route.alias)|) == t
  {
  }

  lemma AddChildrenStep(t: Tables, route: RouteConfig, rec: RouteRecord, matchAs: Option<string>, production: bool, i: nat)
    requires i < |route.children|
    ensures AddChildren(t, route, rec, matchAs, production, i)
         == AddChildren(AddRoute(t, route.children[i], Some(rec), ChildMatchAs(matchAs, route.children[i].path), production),
                        route, rec, matchAs, production, i + 1)
  {
  }

  lemma AddAliasesStep(t: Tables, route: RouteConfig, rec: RouteRecord, parent: Option<RouteRecord>, production: bool, i: nat)
    requires i < |ExpandedAliases(route.alias)|
    ensures !route.alias.NoAlias?
    ensures AddAliases(t, route, rec, parent, production, i)
         == AddAliases(AliasStep(t, route, ExpandedAliases(route.alias)[i], rec, parent, production), route, rec, parent, production, i + 1)
  {
  }

  /** Children come first: whatever the children added keeps its place, and
      when the record's own path is new it comes right after them, ahead of
      anything its aliases add. */
  lemma ChildrenBeforeParent(t: Tables, route: RouteConfig, parent: Option<RouteRecord>, matchAs: Option<string>, production: bool)
    ensures var children := ChildrenPhase(t, route, parent, matchAs, production);
      var r := AddRoute(t, route, parent, matchAs, production);
      var own := MakeRecord(route, parent, matchAs, t.created).path;
      && t.pathList <= children.pathList <= r.pathList
      && (own !in children.pathMap ==>
            |children.pathList| < |r.pathList| && r.pathList[|children.pathList|] == own
            && own in r.pathMap && r.pathMap[own] == MakeRecord(route, parent, matchAs, t.created))
  {
    var rec := MakeRecord(route, parent, matchAs, t.created);
    var children := ChildrenPhase(t, route, parent, matchAs, production);
    var afterPath := RegisterPath(children, rec);
    var afterAliases :=
      if route.alias.NoAlias? then afterPath
      else AddAliases(afterPath, route, rec, parent, production, 0);
    ChildrenPhaseExtends(t, route, parent, matchAs, production);
    if !route.alias.NoAlias? {
      AddAliasesExtends(afterPath, route, rec, parent, production, 0);
    }
    if rec.path !in children.pathMap {
      assert afterPath.pathList[|children.pathList|] == rec.path;
    }
  }

  /** An alias that is not skipped becomes a record under the route's own
      parent whose `matchAs` is the aliased record's path (or `/`); when its
      path is new once its children are in, that entry stays. */
  lemma AliasRegisteredUnderSameParent(t: Tables, route: RouteConfig, rec: RouteRecord, parent: Option<RouteRecord>, production: bool, i: nat)
    requires i < |ExpandedAliases(route.alias)|
    requires !SkipsAlias(route, ExpandedAliases(route.alias)[i], production)
    ensures var aliasRoute := AliasRoute(ExpandedAliases(route.alias)[i], route.children);
      var own := MakeRecord(aliasRoute, parent, Some(AliasMatchAs(rec)), t.created);
      var r := AddAliases(t, route, rec, parent, production, i);
      own.path !in ChildrenPhase(t, aliasRoute, parent, Some(AliasMatchAs(rec)), production).pathMap ==>
        && own.path in r.pathMap && r.pathMap[own.path] == own
        && own.parent == parent && own.matchAs == Some(if rec.path == "" then "/" else rec.path)
        && own.name.None?
  {
    var aliasRoute := AliasRoute(ExpandedAliases(route.alias)[i], route.children);
    var matchAs := Some(AliasMatchAs(rec));
    AddAliasesStep(t, route, rec, parent, production, i);
    assert AliasStep(t, route, ExpandedAliases(route.alias)[i], rec, parent, production)
        == AddRoute(t, aliasRoute, parent, matchAs, production);
    ChildrenBeforeParent(t, aliasRoute, parent, matchAs, production);
    AddAliasesExtends(AddRoute(t, aliasRoute, parent, matchAs, production), route, rec, parent, production, i + 1);
  }

  // ---------------------------------------------------------------------------
  // createRouteMap
  // ---------------------------------------------------------------------------

  /** `routes.forEach(route => addRouteRecord(..., route, parentRoute))`, from the `i`-th route on. */
  function AddRoutes(t: Tables, routes: seq<RouteConfig>, parentRoute: Option<RouteRecord>, production: bool, i: nat): Tables
    requires i <= |routes|
    decreases |routes| - i
  {
    if i == |routes| then t
    else AddRoutes(AddRoute(t, routes[i], parentRoute, None, production), routes, parentRoute, production, i + 1)
  }

  lemma AddRoutesStep(t: Tables, routes: seq<RouteConfig>, parentRoute: Option<RouteRecord>, production: bool, i: nat)
    requires i < |routes|
    ensures AddRoutes(t, routes, parentRoute, production, i)
         == AddRoutes(AddRoute(t, routes[i], parentRoute, None, production), routes, parentRoute, production, i + 1)
  {
  }

  /** The entries of `s` that are not the wildcard, in order. */
  function NonWildcards(s: seq<string>): (r: seq<string>)
    ensures forall i :: 0 <= i < |r| ==> r[i] != Wildcard
  {
    if s == [] then []
    else NonWildcards(s[..|s| - 1]) + (if s[|s| - 1] == Wildcard then [] else [s[|s| - 1]])
  }

  /** The wildcard entries of `s`. */
  function Wildcards(s: seq<string>): (r: seq<string>)
    ensures forall i :: 0 <= i < |r| ==> r[i] == Wildcard
  {
    if s == [] then []
    else Wildcards(s[..|s| - 1]) + (if s[|s| - 1] == Wildcard then [Wildcard] else [])
  }

  /** What the final loop of `createRouteMap` leaves in `pathList`: a stable
      partition with the wildcard entries moved to the end. */
  function WildcardsLast(s: seq<string>): seq<string> {
    NonWildcards(s) + Wildcards(s)
  }

  /** No entry other than the wildcard follows a wildcard. */
  ghost predicate WildcardsAtEnd(s: seq<string>) {
    forall i, j :: 0 <= i < j < |s| && s[i] == Wildcard ==> s[j] == Wildcard
  }

  lemma WildcardsLastAtEnd(s: seq<string>)
    ensures WildcardsAtEnd(WildcardsLast(s))
  {
    var a, b := NonWildcards(s), Wildcards(s);
    var r := a + b;
    forall i, j | 0 <= i < j < |r| && r[i] == Wildcard
      ensures r[j] == Wildcard
    {
      assert r[j] == b[j - |a|];
    }
  }

  /** The final loop only reorders: same entries, same multiplicities, same length. */
  lemma {:induction false} WildcardsLastPermutes(s: seq<string>)
    ensures multiset(WildcardsLast(s)) == multiset(s)
    ensures |WildcardsLast(s)| == |s|
    decreases |s|
  {
    if s != [] {
      var init, last := s[..|s| - 1], s[|s| - 1];
      assert s == init + [last];
      WildcardsLastPermutes(init);
    }
    assert |multiset(WildcardsLast(s))| == |WildcardsLast(s)|;
  }

  lemma {:induction false} NonWildcardsAppend(a: seq<string>, b: seq<string>)
    ensures NonWildcards(a + b) == NonWildcards(a) + NonWildcards(b)
    decreases |b|
  {
    if b != [] {
      assert (a + b)[..|a + b| - 1] == a + b[..|b| - 1];
      NonWildcardsAppend(a, b[..|b| - 1]);
    } else {
      assert a + b == a;
    }
  }

  lemma {:induction false} NonWildcardsOfClean(s: seq<string>)
    requires forall i :: 0 <= i < |s| ==> s[i] != Wildcard
    ensures NonWildcards(s) == s
    decreases |s|
  {
    if s != [] {
      NonWildcardsOfClean(s[..|s| - 1]);
      assert s == s[..|s| - 1] + [s[|s| - 1]];
    }
  }

  lemma {:induction false} NonWildcardsOfWild(s: seq<string>)
    requires forall i :: 0 <= i < |s| ==> s[i] == Wildcard
    ensures NonWildcards(s) == []
    decreases |s|
  {
    if s != [] {
      NonWildcardsOfWild(s[..|s| - 1]);
    }
  }

  /** The final loop keeps the relative order of the other entries. */
  lemma WildcardsLastStable(s: seq<string>)
    ensures NonWildcards(WildcardsLast(s)) == NonWildcards(s)
  {
    NonWildcardsAppend(NonWildcards(s), Wildcards(s));
    NonWildcardsOfClean(NonWildcards(s));
    NonWildcardsOfWild(Wildcards(s));
  }

  /** The state of `pathList` after the final loop has looked at the first
      `done` entries of `s`: those kept so far, the entries not yet looked
      at, then the wildcards moved so far. */
  function Layout(s: seq<string>, done: nat): seq<string>
    requires done <= |s|
  {
    NonWildcards(s[..done]) + s[done..] + Wildcards(s[..done])
  }

  /** One turn of the final loop, at `i = |NonWildcards(s[..done])|`: a
      wildcard is spliced out and pushed, anything else is stepped over. */
  lemma LayoutStep(s: seq<string>, done: nat)
    requires done < |s|
    ensures var cur, i := Layout(s, done), |NonWildcards(s[..done])|;
      && i < |cur| && cur[i] == s[done]
      && (s[done] == Wildcard ==>
            cur[..i] + cur[i + 1..] + [cur[i]] == Layout(s, done + 1)
            && |NonWildcards(s[..done + 1])| == i)
      && (s[done] != Wildcard ==>
            cur == Layout(s, done + 1) && |NonWildcards(s[..done + 1])| == i + 1)
  {
    var n, w := NonWildcards(s[..done]), Wildcards(s[..done]);
    assert s[..done + 1][..done] == s[..done];
    assert s[done..] == [s[done]] + s[done + 1..];
    var cur := Layout(s, done);
    assert cur == n + [s[done]] + s[done + 1..] + w;
    assert cur[..|n|] == n;
    assert cur[|n| + 1..] == s[done + 1..] + w;
  }

  lemma LayoutDone(s: seq<string>)
    ensures Layout(s, |s|) == WildcardsLast(s)
  {
    assert s[..|s|] == s;
  }

  /** Reordering `pathList` without changing its entries keeps the tables valid. */
  lemma ReorderKeepsValid(t: Tables, s: seq<string>)
    requires multiset(s) == multiset(t.pathList)
    ensures Valid(t) ==> Valid(t.(pathList := s))
  {
    forall p | Valid(t)
      ensures p in s <==> p in t.pathMap
    {
      assert p in s <==> p in multiset(s);
      assert p in t.pathList <==> p in multiset(t.pathList);
    }
  }

  /** `createRouteMap(routes, pathList, pathMap, nameMap, parentRoute)`. */
  function BuildTable(t: Tables, routes: seq<RouteConfig>, parentRoute: Option<RouteRecord>, production: bool): (r: Tables)
    ensures WildcardsAtEnd(r.pathList)
    ensures Valid(t) ==> Valid(r)
    ensures var added := AddRoutes(t, routes, parentRoute, production, 0);
      r.pathMap == added.pathMap && r.nameMap == added.nameMap
      && multiset(r.pathList) == multiset(added.pathList)
      && NonWildcards(r.pathList) == NonWildcards(added.pathList)
  {
    var added := AddRoutes(t, routes, parentRoute, production, 0);
    AddRoutesExtends(t, routes, parentRoute, production, 0);
    WildcardsLastAtEnd(added.pathList);
    WildcardsLastPermutes(added.pathList);
    WildcardsLastStable(added.pathList);
    ReorderKeepsValid(added, WildcardsLast(added.pathList));
    added.(pathList := WildcardsLast(added.pathList))
  }

  // ---------------------------------------------------------------------------
  // Examples
  // ---------------------------------------------------------------------------

  /** A configuration with just a path and a component. */
  function Leaf(path: string, component: nat): RouteConfig {
    RouteConfig(path, None, Defined(Payload(component)), None, [], NoAlias, None, None, None, None, None, None)
  }

  /** Relative paths nest under the parent, absolute ones do not, and one
      trailing slash goes unless the options are strict. */
  lemma NormalizePathExamples(parent: RouteRecord)
    requires parent.path == "/a"
    ensures NormalizePath("b", Some(parent), false) == "/a/b"
    ensures NormalizePath("b/", Some(parent), false) == "/a/b"
    ensures NormalizePath("b/", Some(parent), true) == "/a/b/"
    ensures NormalizePath("/b", Some(parent), false) == "/b"
    ensures NormalizePath("b", None, false) == "b"
  {
    JoinExample(parent, "b", false);
    JoinExample(parent, "b/", false);
    JoinExample(parent, "b/", true);
  }

  /** `b` and `b/` joined under `/a`, with and without strict mode. */
  lemma JoinExample(parent: RouteRecord, path: string, strict: bool)
    requires parent.path == "/a" && path in {"b", "b/"}
    ensures NormalizePath(path, Some(parent), strict) == if strict then "/a/" + path else "/a/b"
  {
    var p := if strict then path else StripTrailingSlash(path);
    assert p == if strict then path else "b";
    assert NoDoubleSlash(parent.path + "/" + p);
  }

  /** Two routes with the same path: one entry, and it is the first one's. */
  lemma DuplicatePathFirstWins()
    ensures var t := BuildTable(EmptyTables, [Leaf("/a", 1), Leaf("/a", 2)], None, true);
      t.pathList == ["/a"] && "/a" in t.pathMap && t.pathMap["/a"].components == map["default" := Defined(Payload(1))]
  {
    var one := AddRoute(EmptyTables, Leaf("/a", 1), None, None, true);
    assert one.pathList == ["/a"];
    var two := AddRoute(one, Leaf("/a", 2), None, None, true);
    assert two.pathMap == one.pathMap && two.pathList == ["/a"];
  }

  /** `{ path: '/a', alias: '/x' }` gives `/a`, then `/x` matching as `/a`. */
  lemma AliasExample()
    ensures var t := AddRoute(EmptyTables, Leaf("/a", 1).(alias := OneAlias("/x")), None, None, false);
      && t.pathList == ["/a", "/x"] && "/a" in t.pathMap && "/x" in t.pathMap
      && t.pathMap["/x"].matchAs == Some("/a") && t.pathMap["/a"].matchAs.None?
  {
    var route := Leaf("/a", 1).(alias := OneAlias("/x"));
    var rec := MakeRecord(route, None, None, 0);
    assert rec.path == "/a";
    var children := ChildrenPhase(EmptyTables, route, None, None, false);
    assert children == EmptyTables.(created := 1);
    var afterPath := RegisterPath(children, rec);
    assert afterPath.pathList == ["/a"];
    var aliasRoute := AliasRoute("/x", []);
    var aliasRec := MakeRecord(aliasRoute, None, Some("/a"), 1);
    assert aliasRec.path == "/x";
    var aliasChildren := ChildrenPhase(afterPath, aliasRoute, None, Some("/a"), false);
    assert aliasChildren == afterPath.(created := 2);
    var added := AddRoute(afterPath, aliasRoute, None, Some("/a"), false);
    assert added.pathList == ["/a", "/x"] && added.pathMap["/x"] == aliasRec;
    AddAliasesStep(afterPath, route, rec, None, false, 0);
    assert AliasStep(afterPath, route, "/x", rec, None, false) == added;
    AddRouteUnfold(EmptyTables, route, None, None, false, added);
  }

  // ---------------------------------------------------------------------------
  // The tables as the source holds them: mutated in place
  // ---------------------------------------------------------------------------

  /** The caller-owned `pathList`, `pathMap` and `nameMap`, updated in place
      by `addRouteRecord` and `createRouteMap`. Passing existing tables to
      `createRouteMap` is calling `CreateRouteMap` again on the same object. */
  class RouteTable {
    var pathList: seq<string>
    var pathMap: map<string, RouteRecord>
    var nameMap: map<string, RouteRecord>
    var created: nat

    function Snapshot(): Tables
      reads this
    {
      Tables(pathList, pathMap, nameMap, created)
    }

    /** `oldPathList || []`, `oldPathMap || Object.create(null)`, ... */
    constructor ()
      ensures Snapshot() == EmptyTables && Valid(Snapshot())
    {
      pathList, pathMap, nameMap, created := [], map[], map[], 0;
    }

    /** `addRouteRecord(pathList, pathMap, nameMap, route, parent, matchAs)`. */
    method AddRouteRecord(route: RouteConfig, parent: Option<RouteRecord>, matchAs: Option<string>, production: bool)
      modifies this
      ensures Snapshot() == AddRoute(old(Snapshot()), route, parent, matchAs, production)
      decreases ForestHeight(route.children), AliasRank(route), 2, 0
    {
      ghost var start := Snapshot();
      var rec := MakeRecord(route, parent, matchAs, created);
      created := created + 1;
      AddChildRecords(route, rec, matchAs, production);
      ghost var afterChildren := Snapshot();
      assert afterChildren == ChildrenPhase(start, route, parent, matchAs, production);
      RegisterRecord(route, rec, parent, production);
      ghost var afterPath := RegisterPath(afterChildren, rec);
      AddRouteUnfold(start, route, parent, matchAs, production,
        if route.alias.NoAlias? then afterPath else AddAliases(afterPath, route, rec, parent, production, 0));
    }

    /** What `addRouteRecord` does once the children are in: register the
        record's path, expand its aliases, register its name. */
    method RegisterRecord(route: RouteConfig, rec: RouteRecord, parent: Option<RouteRecord>, production: bool)
      modifies this
      ensures var afterPath := RegisterPath(old(Snapshot()), rec);
        Snapshot() == RegisterName(
          if route.alias.NoAlias? then afterPath else AddAliases(afterPath, route, rec, parent, production, 0),
          route.name, rec)
      decreases ForestHeight(route.children), AliasRank(route), 1, 1
    {
      RegisterRecordPath(rec);
      ghost var afterPath := Snapshot();
      if !route.alias.NoAlias? {
        AddAliasRecords(route, rec, parent, production);
        assert Snapshot() == AddAliases(afterPath, route, rec, parent, production, 0);
      }
      ghost var afterAliases := Snapshot();
      RegisterRecordName(route.name, rec);
      assert Snapshot() == RegisterName(afterAliases, route.name, rec);
    }

    /** `if (!pathMap[record.path]) { pathList.push(record.path); pathMap[record.path] = record }` */
    method RegisterRecordPath(rec: RouteRecord)
      modifies this`pathList, this`pathMap
      ensures Snapshot() == RegisterPath(old(Snapshot()), rec)
    {
      if rec.path !in pathMap {
        pathList := pathList + [rec.path];
        pathMap := pathMap[rec.path := rec];
      }
    }

    /** `if (name) { if (!nameMap[name]) nameMap[name] = record }` */
    method RegisterRecordName(name: Option<string>, rec: RouteRecord)
      modifies this`nameMap
      ensures Snapshot() == RegisterName(old(Snapshot()), name, rec)
    {
      if Truthy(name) && name.value !in nameMap {
        nameMap := nameMap[name.value := rec];
      }
    }

    /** The children loop of `addRouteRecord`: each child is added under
        `rec`, with its `matchAs` derived from the current one. */
    method AddChildRecords(route: RouteConfig, rec: RouteRecord, matchAs: Option<string>, production: bool)
      modifies this
      ensures Snapshot() == AddChildren(old(Snapshot()), route, rec, matchAs, production, 0)
      decreases ForestHeight(route.children), 0, 0, |route.children|
    {
      ghost var start := Snapshot();
      var i := 0;
      while i < |route.children|
        invariant 0 <= i <= |route.children|
        invariant AddChildren(Snapshot(), route, rec, matchAs, production, i)
               == AddChildren(start, route, rec, matchAs, production, 0)
      {
        var child := route.children[i];
        ghost var before := Snapshot();
        ghost var next := AddRoute(before, child, Some(rec), ChildMatchAs(matchAs, child.path), production);
        AddChildrenStep(before, route, rec, matchAs, production, i);
        assert AddChildren(before, route, rec, matchAs, production, i)
            == AddChildren(next, route, rec, matchAs, production, i + 1);
        AddRouteRecord(child, Some(rec), ChildMatchAs(matchAs, child.path), production);
        assert Snapshot() == next;
        i := i + 1;
      }
      AddChildrenDone(Snapshot(), route, rec, matchAs, production);
    }

    /** The alias loop of `addRouteRecord`: each alias not skipped becomes a
        route with the same children, added under the same parent. */
    method AddAliasRecords(route: RouteConfig, rec: RouteRecord, parent: Option<RouteRecord>, production: bool)
      modifies this
      ensures Snapshot() == AddAliases(old(Snapshot()), route, rec, parent, production, 0)
      decreases ForestHeight(route.children), AliasRank(route), 1, 0
    {
      ghost var start := Snapshot();
      var aliases := ExpandedAliases(route.alias);
      var j := 0;
      while j < |aliases|
        invariant 0 <= j <= |aliases|
        invariant AddAliases(Snapshot(), route, rec, parent, production, j)
               == AddAliases(start, route, rec, parent, production, 0)
      {
        ghost var before := Snapshot();
        AddAliasesStep(before, route, rec, parent, production, j);
        AddAliasRecord(route, aliases[j], rec, parent, production);
        j := j + 1;
      }
      AddAliasesDone(Snapshot(), route, rec, parent, production);
    }

    /** One turn of the alias loop. */
    method AddAliasRecord(route: RouteConfig, alias: string, rec: RouteRecord, parent: Option<RouteRecord>, production: bool)
      requires !route.alias.NoAlias?
      modifies this
      ensures Snapshot() == AliasStep(old(Snapshot()), route, alias, rec, parent, production)
      decreases ForestHeight(route.children), AliasRank(route), 0, 0
    {
      if !SkipsAlias(route, alias, production) {
        var aliasRoute := AliasRoute(alias, route.children);
        assert aliasRoute.children == route.children && AliasRank(aliasRoute) < AliasRank(route);
        AddRouteRecord(aliasRoute, parent, Some(AliasMatchAs(rec)), production);
      }
    }

    /** The final loop of `createRouteMap`: every `'*'` entry is spliced out
        and pushed onto the end, `i` and `l` stepping back after each move. */
    method MoveWildcardsToEnd()
      modifies this`pathList
      ensures pathList == WildcardsLast(old(pathList))
    {
      ghost var before := pathList;
      ghost var done := 0;
      var i := 0;
      var l := |pathList|;
      while i < l
        invariant 0 <= done <= |before|
        invariant pathList == Layout(before, done)
        invariant i == |NonWildcards(before[..done])| && l == i + |before| - done
        decreases l - i
      {
        LayoutStep(before, done);
        ghost var cur := pathList;
        ghost var kept := |NonWildcards(before[..done + 1])|;
        if pathList[i] == Wildcard {
          pathList := pathList[..i] + pathList[i + 1..] + [pathList[i]];
          assert pathList == cur[..i] + cur[i + 1..] + [cur[i]];
          l := l - 1;
          i := i - 1;
        }
        i := i + 1;
        done := done + 1;
        assert pathList == Layout(before, done) && i == kept;
      }
      LayoutDone(before);
    }

    /** `createRouteMap(routes, pathList, pathMap, nameMap, parentRoute)` on
        this object's tables: add every route, then move each wildcard entry
        to the end of `pathList` with the source's splice-and-push loop. */
    method CreateRouteMap(routes: seq<RouteConfig>, parentRoute: Option<RouteRecord>, production: bool)
      modifies this
      ensures Snapshot() == BuildTable(old(Snapshot()), routes, parentRoute, production)
      ensures WildcardsAtEnd(pathList)
      ensures Valid(old(Snapshot())) ==> Valid(Snapshot())
    {
      ghost var start := Snapshot();
      AddRouteRecords(routes, parentRoute, production);
      ghost var added := Snapshot();
      MoveWildcardsToEnd();
      assert Snapshot() == added.(pathList := WildcardsLast(added.pathList));
      assert Snapshot() == BuildTable(start, routes, parentRoute, production);
    }

    /** `routes.forEach(route => addRouteRecord(pathList, pathMap, nameMap, route, parentRoute))` */
    method AddRouteRecords(routes: seq<RouteConfig>, parentRoute: Option<RouteRecord>, production: bool)
      modifies this
      ensures Snapshot() == AddRoutes(old(Snapshot()), routes, parentRoute, production, 0)
    {
      ghost var start := Snapshot();
      var k := 0;
      while k < |routes|
        invariant 0 <= k <= |routes|
        invariant AddRoutes(Snapshot(), routes, parentRoute, production, k)
               == AddRoutes(start, routes, parentRoute, production, 0)
      {
        AddRoutesStep(Snapshot(), routes, parentRoute, production, k);
        AddRouteRecord(routes[k], parentRoute, None, production);
        k := k + 1;
      }
    }
  }
}
