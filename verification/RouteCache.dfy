/**
 The third-party route cache against the table of providers. A user's cache entry is a hash
 from model names to encoded routes; it appears as a whole on the first lookup, is dropped by
 every change to the user's providers, and expires by itself. Operations run one after another.
 */
module RouteCache {
  import opened Wrappers

  const ENABLED := 1
  const LOADED := "__loaded__"

  datatype Provider = Provider(id: int, userId: int, name: string, openAiUrl: string, anthropicUrl: string,
                               key: string, format: string, scheme: string, models: seq<string>, status: int)

  datatype Route = Route(providerId: int, name: string, openAiUrl: string, anthropicUrl: string,
                         key: string, format: string, scheme: string)

  /** A hash value: a route encoded as text, or the marker of an entry without routes, which
      does not decode to a route. */
  datatype Cached = Encoded(route: Route) | Marker

  function RouteOf(p: Provider): Route {
    Route(p.id, p.name, p.openAiUrl, p.anthropicUrl, p.key, p.format, p.scheme)
  }

  predicate Active(p: Provider, user: int) { p.userId == user && p.status == ENABLED }

  /** The provider answers for the model now. */
  ghost predicate Serves(rows: seq<Provider>, user: int, p: Provider, m: string) {
    p in rows && Active(p, user) && m in p.models
  }

  ghost predicate Served(rows: seq<Provider>, user: int, m: string) {
    exists p :: Serves(rows, user, p, m)
  }

  /** The entry lists exactly the models served now, each with a current route. */
  ghost predicate Current(rows: seq<Provider>, user: int, entry: map<string, Cached>) {
    && (forall m | m in entry && entry[m].Encoded? ::
          exists p :: Serves(rows, user, p, m) && RouteOf(p) == entry[m].route)
    && (forall p, m | Serves(rows, user, p, m) :: m in entry && entry[m].Encoded?)
  }

  ghost predicate Coherent(rows: seq<Provider>, cache: map<int, map<string, Cached>>) {
    forall user | user in cache :: Current(rows, user, cache[user])
  }

  ghost predicate UniqueIds(rows: seq<Provider>) {
    forall i, j | 0 <= i < j < |rows| :: rows[i].id != rows[j].id
  }

  // ----- Filling an entry -----

  function FillModels(entry: map<string, Route>, models: seq<string>, route: Route): map<string, Route> {
    if models == [] then entry
    else FillModels(entry, models[..|models| - 1], route)[models[|models| - 1] := route]
  }

  /** When two providers list a model, the later one wins. */
  function Fill(list: seq<Provider>): map<string, Route> {
    if list == [] then map[]
    else FillModels(Fill(list[..|list| - 1]), list[|list| - 1].models, RouteOf(list[|list| - 1]))
  }

  lemma {:induction false} FillModelsMeaning(entry: map<string, Route>, models: seq<string>, route: Route)
    ensures FillModels(entry, models, route).Keys == entry.Keys + set m | m in models
    ensures forall m | m in FillModels(entry, models, route) ::
              FillModels(entry, models, route)[m] == if m in models then route else entry[m]
    decreases |models|
  {
    if models != [] {
      var n := |models| - 1;
      FillModelsMeaning(entry, models[..n], route);
      assert models == models[..n] + [models[n]];
    }
  }

  ghost predicate Lists(list: seq<Provider>, p: Provider, m: string) { p in list && m in p.models }

  lemma {:induction false} FillMeaning(list: seq<Provider>)
    ensures forall p, m | Lists(list, p, m) :: m in Fill(list)
    ensures forall m | m in Fill(list) :: exists p :: Lists(list, p, m) && RouteOf(p) == Fill(list)[m]
    decreases |list|
  {
    if list != [] {
      var n := |list| - 1;
      var init, last := list[..n], list[n];
      FillMeaning(init);
      assert list == init + [last];
      FillModelsMeaning(Fill(init), last.models, RouteOf(last));
      forall m | m in Fill(list) ensures exists p :: Lists(list, p, m) && RouteOf(p) == Fill(list)[m] {
        if m in last.models {
          assert Lists(list, last, m);
        } else {
          var p :| Lists(init, p, m) && RouteOf(p) == Fill(init)[m];
          assert Lists(list, p, m);
        }
      }
      forall p, m | Lists(list, p, m) ensures m in Fill(list) {
        if p != last { assert Lists(init, p, m); }
      }
    }
  }

  function Encode(routes: map<string, Route>): map<string, Cached> { map m | m in routes :: Encoded(routes[m]) }

  function EntryOf(routes: map<string, Route>): map<string, Cached> {
    if routes != map[] then Encode(routes) else map[LOADED := Marker]
  }

  /** An entry filled from all active providers, in whatever order they were listed, is current. */
  lemma FilledIsCurrent(rows: seq<Provider>, user: int, list: seq<Provider>)
    requires forall p :: p in list <==> p in rows && Active(p, user)
    ensures Current(rows, user, EntryOf(Fill(list)))
  {
    FillMeaning(list);
    var routes := Fill(list);
    var entry := EntryOf(routes);
    forall m | m in entry && entry[m].Encoded?
      ensures exists p :: Serves(rows, user, p, m) && RouteOf(p) == entry[m].route
    {
      var p :| Lists(list, p, m) && RouteOf(p) == routes[m];
      assert Serves(rows, user, p, m);
    }
    forall p, m | Serves(rows, user, p, m) ensures m in entry && entry[m].Encoded? {
      assert Lists(list, p, m);
    }
  }

  /** What a lookup in a current entry finds. */
  lemma LookupIsCurrent(rows: seq<Provider>, user: int, entry: map<string, Cached>, m: string)
    requires Current(rows, user, entry)
    ensures m in entry && entry[m].Encoded? <==> Served(rows, user, m)
    ensures m in entry && entry[m].Encoded? ==> exists p :: Serves(rows, user, p, m) && RouteOf(p) == entry[m].route
  {
    hide Serves, RouteOf;
  }

  /** The provider's own row has all there is in a route, field by field. */
  ghost predicate RouteFrom(route: Route, p: Provider) {
    && route.providerId == p.id && route.name == p.name
    && route.openAiUrl == p.openAiUrl && route.anthropicUrl == p.anthropicUrl
    && route.key == p.key && route.format == p.format && route.scheme == p.scheme
  }

  lemma ServedMeans(rows: seq<Provider>, user: int, m: string)
    ensures Served(rows, user, m) <==> exists p :: p in rows && p.userId == user && p.status == 1 && m in p.models
    ensures forall p :: Serves(rows, user, p, m) ==>
              && p in rows && p.userId == user && p.status == 1 && m in p.models && RouteFrom(RouteOf(p), p)
  {
    if p :| p in rows && p.userId == user && p.status == 1 && m in p.models { assert Serves(rows, user, p, m); }
  }

  // ----- Changes -----

  /** No model is offered by two active providers of the user. */
  ghost predicate Disjoint(rows: seq<Provider>, user: int) {
    forall p, q, m | Serves(rows, user, p, m) && Serves(rows, user, q, m) :: p == q
  }

  /** Some active provider, other than number `except`, offers one of the models. */
  ghost predicate Conflict(rows: seq<Provider>, user: int, models: seq<string>, except: int) {
    exists p, m :: Serves(rows, user, p, m) && m in models && p.id != except
  }

  predicate UrlsFit(format: string, openAiUrl: string, anthropicUrl: string) {
    match format
    case "openai" => openAiUrl != ""
    case "anthropic" => anthropicUrl != ""
    case "all" => openAiUrl != "" && anthropicUrl != ""
    case _ => true
  }

  function NormalizeAuthScheme(s: string): string { if s in {"bearer", "x-api-key"} then s else "auto" }

  ghost predicate NameTaken(rows: seq<Provider>, user: int, name: string, except: int) {
    exists p | p in rows :: p.userId == user && p.name == name && (except > 0 ==> p.id != except)
  }

  /** The fields an update request carries. */
  datatype Change = Change(name: Option<string>, openAiUrl: Option<string>, anthropicUrl: Option<string>,
                           apiKey: Option<string>, models: Option<seq<string>>, format: Option<string>,
                           scheme: Option<string>, status: Option<int>)

  function Patched(p: Provider, c: Change, key: string): Provider {
    Provider(p.id, p.userId, c.name.GetOr(p.name), c.openAiUrl.GetOr(p.openAiUrl), c.anthropicUrl.GetOr(p.anthropicUrl),
             key, c.format.GetOr(p.format),
             if c.scheme.Some? then NormalizeAuthScheme(c.scheme.value) else p.scheme,
             c.models.GetOr(p.models), c.status.GetOr(p.status))
  }

  /** An empty key in the request means no change. */
  predicate NewKey(c: Change) { c.apiKey.Some? && c.apiKey.value != "" }

  /** The change may be made to this row. */
  ghost predicate ChangeFits(rows: seq<Provider>, row: Provider, c: Change, encrypt: string -> Option<string>) {
    && (c.name.Some? ==> !NameTaken(rows, row.userId, c.name.value, row.id))
    && (c.models.Some? ==> !Conflict(rows, row.userId, c.models.value, row.id))
    && (NewKey(c) ==> encrypt(c.apiKey.value).Some?)
    && UrlsFit(c.format.GetOr(row.format), c.openAiUrl.GetOr(row.openAiUrl), c.anthropicUrl.GetOr(row.anthropicUrl))
  }

  function KeyAfter(p: Provider, c: Change, encrypt: string -> Option<string>): string {
    if NewKey(c) then encrypt(c.apiKey.value).GetOr("") else p.key
  }

  /** The addresses a format asks for. */
  lemma UrlsFitMeans(format: string, openAiUrl: string, anthropicUrl: string)
    ensures UrlsFit(format, openAiUrl, anthropicUrl) <==>
            && (format == "openai" || format == "all" ==> openAiUrl != "")
            && (format == "anthropic" || format == "all" ==> anthropicUrl != "")
  {
  }

  /** A change fits exactly when no other provider of the user has the new name, no other active
      one has any of the new models, a new key can be encrypted, and the addresses the format
      asks for are there after the change. */
  lemma ChangeFitsMeans(rows: seq<Provider>, row: Provider, c: Change, encrypt: string -> Option<string>)
    requires row.id > 0
    ensures ChangeFits(rows, row, c, encrypt) <==>
        && (c.name.Some? ==>
              forall p | p in rows && p.userId == row.userId && p.id != row.id :: p.name != c.name.value)
        && (c.models.Some? ==>
              forall p, m | p in rows && p.userId == row.userId && p.status == 1 && p.id != row.id && m in p.models ::
                m !in c.models.value)
        && (c.apiKey.Some? && c.apiKey.value != "" ==> encrypt(c.apiKey.value).Some?)
        && var q := Patched(row, c, "");
           && (q.format == "openai" || q.format == "all" ==> q.openAiUrl != "")
           && (q.format == "anthropic" || q.format == "all" ==> q.anthropicUrl != "")
  {
    hide UrlsFit;
    UrlsFitMeans(c.format.GetOr(row.format), c.openAiUrl.GetOr(row.openAiUrl), c.anthropicUrl.GetOr(row.anthropicUrl));
    if c.models.Some? {
      forall p, m ensures Serves(rows, row.userId, p, m) <==>
          p in rows && p.userId == row.userId && p.status == 1 && m in p.models { }
    }
  }

  /** Each field a change carries is replaced by what it carries, the others stay. */
  lemma PatchedFields(p: Provider, c: Change, encrypt: string -> Option<string>)
    ensures var q := Patched(p, c, KeyAfter(p, c, encrypt));
      && q.id == p.id && q.userId == p.userId
      && (c.name.None? ==> q.name == p.name) && (c.name.Some? ==> q.name == c.name.value)
      && (c.openAiUrl.None? ==> q.openAiUrl == p.openAiUrl)
      && (c.openAiUrl.Some? ==> q.openAiUrl == c.openAiUrl.value)
      && (c.anthropicUrl.None? ==> q.anthropicUrl == p.anthropicUrl)
      && (c.anthropicUrl.Some? ==> q.anthropicUrl == c.anthropicUrl.value)
      && (c.apiKey.None? || c.apiKey.value == "" ==> q.key == p.key)
      && (c.apiKey.Some? && c.apiKey.value != "" && encrypt(c.apiKey.value).Some? ==>
            q.key == encrypt(c.apiKey.value).value)
      && (c.models.None? ==> q.models == p.models) && (c.models.Some? ==> q.models == c.models.value)
      && (c.format.None? ==> q.format == p.format) && (c.format.Some? ==> q.format == c.format.value)
      && (c.status.None? ==> q.status == p.status) && (c.status.Some? ==> q.status == c.status.value)
      && (c.scheme.None? ==> q.scheme == p.scheme)
      && (c.scheme.Some? && (c.scheme.value == "bearer" || c.scheme.value == "x-api-key") ==>
            q.scheme == c.scheme.value)
      && (c.scheme.Some? && c.scheme.value != "bearer" && c.scheme.value != "x-api-key" ==> q.scheme == "auto")
  {
  }

  /** No two providers of the user share a name. */
  ghost predicate NamesApart(rows: seq<Provider>, user: int) {
    forall i, j | 0 <= i < j < |rows| && rows[i].userId == user && rows[j].userId == user ::
      rows[i].name != rows[j].name
  }

  /** The name check of a creation is exactly what keeps the names apart. */
  lemma CreateKeepsNamesApartIff(rows: seq<Provider>, p: Provider)
    requires NamesApart(rows, p.userId)
    ensures NamesApart(rows + [p], p.userId) <==> !NameTaken(rows, p.userId, p.name, 0)
  {
    var rows' := rows + [p];
    if q :| q in rows && q.userId == p.userId && q.name == p.name {
      var i :| 0 <= i < |rows| && rows[i] == q;
      assert rows'[i] == q && rows'[|rows|] == p;
    }
  }

  /** So is the name check of an update. */
  lemma ReplaceKeepsNamesApartIff(rows: seq<Provider>, at: nat, p: Provider)
    requires UniqueIds(rows) && at < |rows| && p.id == rows[at].id > 0 && p.userId == rows[at].userId
    requires NamesApart(rows, p.userId)
    ensures NamesApart(rows[at := p], p.userId) <==> !NameTaken(rows, p.userId, p.name, p.id)
  {
    var rows' := rows[at := p];
    if q :| q in rows && q.userId == p.userId && q.name == p.name && q.id != p.id {
      var i :| 0 <= i < |rows| && rows[i] == q;
      assert rows'[i] == q && rows'[at] == p;
    } else {
      forall i, j | 0 <= i < j < |rows'| && rows'[i].userId == p.userId && rows'[j].userId == p.userId
        ensures rows'[i].name != rows'[j].name
      {
        assert rows[i] in rows && rows[j] in rows;
      }
    }
  }

  /** Dropping the user's entry makes the cache coherent with any change of the user's rows. */
  lemma DroppedIsCoherent(rows: seq<Provider>, rows': seq<Provider>, cache: map<int, map<string, Cached>>, user: int)
    requires Coherent(rows, cache)
    requires forall p: Provider | p.userId != user :: p in rows' <==> p in rows
    ensures Coherent(rows', cache - {user})
  {
    forall other | other in cache && other != user ensures Current(rows', other, cache[other]) {
      assert Current(rows, other, cache[other]);
      forall p, m ensures Serves(rows', other, p, m) <==> Serves(rows, other, p, m) { }
    }
  }

  class ProviderService {
    var rows: seq<Provider>
    var cache: map<int, map<string, Cached>>

    ghost predicate Valid()
      reads this
    {
      UniqueIds(rows) && Coherent(rows, cache) && forall p | p in rows :: 0 < p.id
    }

    lemma IdsPositive()
      requires Valid()
      ensures forall p | p in rows :: 0 < p.id
    {
    }

    constructor ()
      ensures Valid() && rows == [] && cache == map[]
    {
      rows, cache := [], map[];
    }

    /** The database names no order for the active providers: nothing but their set is promised. */
    method ListActiveProviders(user: int) returns (list: seq<Provider>)
      ensures forall p :: p in list <==> p in rows && Active(p, user)
    {
      list := [];
      for i := 0 to |rows|
        invariant forall p :: p in list <==> p in rows[..i] && Active(p, user)
      {
        if Active(rows[i], user) { list := list + [rows[i]]; }
      }
    }

    method FillRouteMap(list: seq<Provider>, modelName: string)
        returns (routeMap: map<string, Route>, matched: Option<Route>)
      ensures routeMap == Fill(list)
      ensures matched == if modelName in routeMap then Some(routeMap[modelName]) else None
    {
      routeMap, matched := map[], None;
      assert list[..0] == [];
      for i := 0 to |list|
        invariant routeMap == Fill(list[..i])
        invariant matched == if modelName in routeMap then Some(routeMap[modelName]) else None
      {
        var p := list[i];
        var info := RouteOf(p);
        ghost var before := routeMap;
        assert p.models[..0] == [];
        for j := 0 to |p.models|
          invariant routeMap == FillModels(before, p.models[..j], info)
          invariant matched == if modelName in routeMap then Some(routeMap[modelName]) else None
        {
          assert p.models[..j + 1][..j] == p.models[..j];
          routeMap := routeMap[p.models[j] := info];
          if p.models[j] == modelName { matched := Some(info); }
        }
        assert p.models[..|p.models|] == p.models;
        assert list[..i + 1][..i] == list[..i];
      }
      assert list[..|list|] == list;
    }

    /** A model resolves exactly when an active provider of the user lists it, and then to the
        current data of such a provider; the cache cannot be noticed. */
    method ResolveThirdPartyModel(user: int, modelName: string) returns (r: Option<Route>)
      requires Valid()
      modifies this`cache
      ensures Valid()
      ensures r.Some? <==>
                exists p :: p in rows && p.userId == user && p.status == 1 && modelName in p.models
      ensures r.Some? ==>
                exists p :: p in rows && p.userId == user && p.status == 1 && modelName in p.models
                            && r.value.providerId == p.id && r.value.name == p.name
                            && r.value.openAiUrl == p.openAiUrl && r.value.anthropicUrl == p.anthropicUrl
                            && r.value.key == p.key && r.value.format == p.format && r.value.scheme == p.scheme
      ensures user in cache && forall other | other != user ::
                (other in cache <==> other in old(cache)) && (other in cache ==> cache[other] == old(cache)[other])
    {
      hide Current, Serves, Served, RouteOf, Fill, UniqueIds;
      ServedMeans(rows, user, modelName);
      if user in cache {
        LookupIsCurrent(rows, user, cache[user], modelName);
        if modelName in cache[user] && cache[user][modelName].Encoded? { return Some(cache[user][modelName].route); }
        return None;
      }
      var providers := ListActiveProviders(user);
      var routeMap, matched := FillRouteMap(providers, modelName);
      FilledIsCurrent(rows, user, providers);
      if |routeMap| > 0 {
        cache := cache[user := Encode(routeMap)];
      } else {
        cache := cache[user := map[LOADED := Marker]];
      }
      assert cache[user] == EntryOf(routeMap);
      LookupIsCurrent(rows, user, cache[user], modelName);
      return matched;
    }

    method InvalidateRouteCache(user: int)
      modifies this`cache
      ensures cache == old(cache) - {user}
    {
      cache := cache - {user};
    }

    /** Expiry of an entry changes nothing that matters. */
    method Expire(user: int)
      requires Valid()
      modifies this`cache
      ensures Valid() && cache == old(cache) - {user}
    {
      cache := cache - {user};
    }

    method CheckModelConflict(user: int, models: seq<string>, except: int) returns (ok: bool)
      ensures ok <==> !Conflict(rows, user, models, except)
    {
      var existing := ListActiveProviders(user);
      var usedModels: set<string> := {};
      for i := 0 to |existing|
        invariant forall m :: m in usedModels <==>
                    exists j | 0 <= j < i :: existing[j].id != except && m in existing[j].models
      {
        if existing[i].id == except { continue; }
        usedModels := usedModels + set m | m in existing[i].models;
      }
      for i := 0 to |models|
        invariant forall j | 0 <= j < i :: models[j] !in usedModels
      {
        if models[i] in usedModels {
          var j :| 0 <= j < |existing| && existing[j].id != except && models[i] in existing[j].models;
          assert Serves(rows, user, existing[j], models[i]);
          return false;
        }
      }
      forall p, m | Serves(rows, user, p, m) && p.id != except ensures m in usedModels {
        assert p in existing;
      }
      return true;
    }

    method ExistsProviderName(user: int, name: string, except: int) returns (taken: bool)
      ensures taken <==> NameTaken(rows, user, name, except)
    {
      for i := 0 to |rows|
        invariant forall j | 0 <= j < i ::
            !(rows[j].userId == user && rows[j].name == name && (except > 0 ==> rows[j].id != except))
      {
        if rows[i].userId == user && rows[i].name == name && (except <= 0 || rows[i].id != except) { return true; }
      }
      return false;
    }

    /** `encrypt` may fail; ids grow. */
    method CreateProvider(user: int, name: string, openAiUrl: string, anthropicUrl: string, apiKey: string,
                          format: string, scheme: string, models: seq<string>, newId: int,
                          encrypt: string -> Option<string>)
      returns (r: Result<Provider, string>)
      requires Valid() && forall p | p in rows :: p.id < newId
      requires newId > 0
      modifies this
      ensures Valid()
      ensures r.Ok? <==> UrlsFit(format, openAiUrl, anthropicUrl) && !NameTaken(old(rows), user, name, 0)
                         && !Conflict(old(rows), user, models, 0) && encrypt(apiKey).Some?
      ensures r.Ok? ==> r.value == Provider(newId, user, name, openAiUrl, anthropicUrl, encrypt(apiKey).value, format,
                                            if scheme == "bearer" || scheme == "x-api-key" then scheme else "auto",
                                            models, 1)
                        && rows == old(rows) + [r.value] && cache == old(cache) - {user}
      ensures r.Err? ==> rows == old(rows) && cache == old(cache)
    {
      if !UrlsFit(format, openAiUrl, anthropicUrl) { return Err("base URL is required"); }
      var exists_ := ExistsProviderName(user, name, 0);
      if exists_ { return Err("provider name exists"); }
      var free := CheckModelConflict(user, models, 0);
      if !free { return Err("model is already used"); }
      var encrypted := encrypt(apiKey);
      if encrypted.None? { return Err("internal error"); }
      var provider := Provider(newId, user, name, openAiUrl, anthropicUrl, encrypted.value, format,
                               NormalizeAuthScheme(scheme), models, ENABLED);
      DroppedIsCoherent(rows, rows + [provider], cache, user);
      rows := rows + [provider];
      InvalidateRouteCache(user);
      return Ok(provider);
    }

    method GetProviderByID(id: int) returns (i: Option<nat>)
      ensures i.Some? ==> i.value < |rows| && rows[i.value].id == id
      ensures i.None? ==> forall p | p in rows :: p.id != id
    {
      for k := 0 to |rows|
        invariant forall j | 0 <= j < k :: rows[j].id != id
      {
        if rows[k].id == id { return Some(k); }
      }
      return None;
    }

    /** Replaces one row by another with the same id and owner. */
    method Save(i: nat, p: Provider)
      requires Valid() && i < |rows| && p.id == rows[i].id && p.userId == rows[i].userId
      modifies this
      ensures Valid()
      ensures rows == old(rows)[i := p] && cache == old(cache) - {p.userId}
    {
      var rows' := rows[i := p];
      forall q: Provider | q.userId != p.userId ensures q in rows' <==> q in rows {
        if q in rows { var j :| 0 <= j < |rows| && rows[j] == q; assert rows'[j] == q; }
        if q in rows' { var j :| 0 <= j < |rows'| && rows'[j] == q; assert rows[j] == q; }
      }
      DroppedIsCoherent(rows, rows', cache, p.userId);
      rows := rows';
      InvalidateRouteCache(p.userId);
    }

    /** The checks and changes of an update, field by field, on a copy of the row. */
    method ApplyChange(row: Provider, c: Change, encrypt: string -> Option<string>)
        returns (r: Result<Provider, string>)
      requires row.id > 0
      ensures r.Ok? <==> ChangeFits(rows, row, c, encrypt)
      ensures r.Ok? ==> r.value == Patched(row, c, KeyAfter(row, c, encrypt))
    {
      hide Conflict, NameTaken, UrlsFit, NormalizeAuthScheme;
      var user, id, provider := row.userId, row.id, row;
      if c.name.Some? {
        var taken := ExistsProviderName(user, c.name.value, id);
        if taken { return Err("provider name exists"); }
        provider := provider.(name := c.name.value);
      }
      provider := provider.(openAiUrl := c.openAiUrl.GetOr(provider.openAiUrl),
                            anthropicUrl := c.anthropicUrl.GetOr(provider.anthropicUrl));
      if c.apiKey.Some? && c.apiKey.value != "" {
        var encrypted := encrypt(c.apiKey.value);
        if encrypted.None? { return Err("internal error"); }
        provider := provider.(key := encrypted.value);
      }
      if c.models.Some? {
        var free := CheckModelConflict(user, c.models.value, id);
        if !free { return Err("model is already used"); }
        provider := provider.(models := c.models.value);
      }
      provider := provider.(format := c.format.GetOr(provider.format), status := c.status.GetOr(provider.status),
                            scheme := if c.scheme.Some? then NormalizeAuthScheme(c.scheme.value) else provider.scheme);
      if !UrlsFit(provider.format, provider.openAiUrl, provider.anthropicUrl) { return Err("base URL is required"); }
      return Ok(provider);
    }

    /** An update is refused for an unknown or foreign provider and for a change that does not
        fit, and then nothing changes. */
    method UpdateProvider(id: int, user: int, c: Change, encrypt: string -> Option<string>)
        returns (r: Result<(), string>, ghost at: nat)
      requires Valid()
      modifies this
      ensures Valid()
      ensures if exists p :: p in old(rows) && p.id == id
              then at < |old(rows)| && old(rows)[at].id == id else at == |old(rows)|
      ensures r.Ok? <==>
                at < |old(rows)| && old(rows)[at].userId == user && ChangeFits(old(rows), old(rows)[at], c, encrypt)
      ensures r.Err? ==> rows == old(rows) && cache == old(cache)
      ensures r.Ok? ==> rows == old(rows)[at := Patched(old(rows)[at], c, KeyAfter(old(rows)[at], c, encrypt))]
                        && cache == old(cache) - {user}
    {
      hide Valid, ChangeFits, KeyAfter;
      IdsPositive();
      at := |rows|;
      var i := GetProviderByID(id);
      if i.None? { return Err("record not found"), at; }
      at := i.value;
      assert rows[at] in rows;
      if rows[i.value].userId != user { return Err("forbidden"), at; }
      var changed := ApplyChange(rows[i.value], c, encrypt);
      if changed.Err? { return Err(changed.error), at; }
      Save(i.value, changed.value);
      return Ok(()), at;
    }

    method UpdateProviderStatus(id: int, user: int, status: int) returns (r: Result<(), string>, ghost at: nat)
      requires Valid()
      modifies this
      ensures Valid()
      ensures r.Err? ==> rows == old(rows) && cache == old(cache)
      ensures r.Err? ==> forall p | p in rows :: !(p.id == id && p.userId == user)
      ensures r.Ok? ==> at < |old(rows)| && old(rows)[at].id == id && old(rows)[at].userId == user
                        && rows == old(rows)[at := old(rows)[at].(status := status)] && cache == old(cache) - {user}
    {
      at := 0;
      var i := GetProviderByID(id);
      if i.None? { return Err("record not found"), at; }
      at := i.value;
      if rows[i.value].userId != user { return Err("forbidden"), at; }
      Save(i.value, rows[i.value].(status := status));
      return Ok(()), at;
    }

    method DeleteProvider(id: int, user: int) returns (r: Result<(), string>, ghost at: nat)
      requires Valid()
      modifies this
      ensures Valid()
      ensures r.Err? ==> rows == old(rows) && cache == old(cache)
      ensures r.Err? ==> forall p | p in rows :: !(p.id == id && p.userId == user)
      ensures r.Ok? ==> at < |old(rows)| && old(rows)[at].id == id && old(rows)[at].userId == user
                        && rows == old(rows)[..at] + old(rows)[at + 1..] && cache == old(cache) - {user}
    {
      at := 0;
      var i := GetProviderByID(id);
      if i.None? { return Err("record not found"), at; }
      at := i.value;
      if rows[i.value].userId != user { return Err("forbidden"), at; }
      var rows' := rows[..i.value] + rows[i.value + 1..];
      forall q: Provider | q.userId != user ensures q in rows' <==> q in rows {
        assert rows == rows[..at] + [rows[at]] + rows[at + 1..];
      }
      DroppedIsCoherent(rows, rows', cache, user);
      rows := rows';
      InvalidateRouteCache(user);
      return Ok(()), at;
    }
  }

  // ----- Which changes keep models apart -----

  /** Creation keeps the models of the active providers apart: its check is enough. */
  lemma CreateKeepsDisjoint(rows: seq<Provider>, p: Provider, user: int)
    requires Disjoint(rows, user) && !Conflict(rows, p.userId, p.models, 0)
    requires forall q | q in rows :: 0 < q.id
    ensures Disjoint(rows + [p], user)
  {
    var rows' := rows + [p];
    forall q, r, m | Serves(rows', user, q, m) && Serves(rows', user, r, m) ensures q == r {
      if q in rows && r in rows {
        assert Serves(rows, user, q, m) && Serves(rows, user, r, m);
      } else if q in rows {
        assert Serves(rows, user, q, m) && m in p.models;
      } else if r in rows {
        assert Serves(rows, user, r, m) && m in p.models;
      }
    }
  }

  /** Replacing a row keeps the models apart exactly when the new row is not active or offers
      nothing that another active provider offers. New models are checked; enabling is not. */
  lemma ReplaceKeepsDisjointIff(rows: seq<Provider>, at: nat, p: Provider)
    requires UniqueIds(rows) && at < |rows| && p.id == rows[at].id && p.userId == rows[at].userId
    requires Disjoint(rows, p.userId)
    ensures Disjoint(rows[at := p], p.userId) <==> p.status != ENABLED || !Conflict(rows, p.userId, p.models, p.id)
  {
    var rows', user := rows[at := p], p.userId;
    assert rows'[at] == p;
    forall q ensures q in rows' <==> q == p || (q in rows && q.id != p.id) {
      if q in rows' { var j :| 0 <= j < |rows'| && rows'[j] == q; assert j != at ==> q == rows[j]; }
      if q in rows && q.id != p.id { var j :| 0 <= j < |rows| && rows[j] == q; assert rows'[j] == q; }
    }
    if p.status == ENABLED && Conflict(rows, user, p.models, p.id) {
      var q, m :| Serves(rows, user, q, m) && m in p.models && q.id != p.id;
      assert Serves(rows', user, q, m) && Serves(rows', user, p, m);
    } else {
      forall q, r, m | Serves(rows', user, q, m) && Serves(rows', user, r, m) ensures q == r {
        if q != p && r != p { assert Serves(rows, user, q, m) && Serves(rows, user, r, m); }
        if q != p && r == p { assert Serves(rows, user, q, m); }
        if q == p && r != p { assert Serves(rows, user, r, m); }
      }
    }
  }

  /** When the models are kept apart, the route does not depend on the order of the list. */
  lemma OrderIrrelevant(rows: seq<Provider>, user: int, list: seq<Provider>, other: seq<Provider>)
    requires Disjoint(rows, user)
    requires forall p :: p in list <==> p in rows && Active(p, user)
    requires forall p :: p in other <==> p in rows && Active(p, user)
    ensures Fill(list) == Fill(other)
  {
    FillMeaning(list);
    FillMeaning(other);
    forall p, m ensures Lists(list, p, m) <==> Serves(rows, user, p, m) { }
    forall p, m ensures Lists(other, p, m) <==> Serves(rows, user, p, m) { }
    forall m ensures m in Fill(list) <==> m in Fill(other) { }
    forall m | m in Fill(list) ensures Fill(list)[m] == Fill(other)[m] {
      var p :| Lists(list, p, m) && RouteOf(p) == Fill(list)[m];
      var q :| Lists(other, q, m) && RouteOf(q) == Fill(other)[m];
      assert p == q;
    }
  }

  /** A provider is created and disabled, another one is created for the same model, and the
      first is enabled again: every step succeeds, and both offer the model. */
  method EnablingOverlaps(user: int, m: string) returns (service: ProviderService)
    ensures fresh(service) && service.Valid() && !Disjoint(service.rows, user)
  {
    service := new ProviderService();
    var p := service.CreateProvider(user, "first", "https://one", "", "key", "openai", "", [m], 1, key => Some(key));
    var first := Provider(1, user, "first", "https://one", "", "key", "openai", "auto", [m], ENABLED);
    assert service.rows == [first];
    var off, i := service.UpdateProviderStatus(1, user, 0);
    assert service.rows == [first.(status := 0)];
    var q := service.CreateProvider(user, "second", "https://two", "", "key", "openai", "", [m], 2, key => Some(key));
    var second := Provider(2, user, "second", "https://two", "", "key", "openai", "auto", [m], ENABLED);
    assert service.rows == [first.(status := 0), second];
    var on, j := service.UpdateProviderStatus(1, user, ENABLED);
    assert service.rows == [first, second];
    assert Serves(service.rows, user, first, m) && Serves(service.rows, user, second, m);
  }
}
