/** The `GET /api/custom` handler: the custom-category query endpoint.

    The handler checks the session, reads the `query` parameter, routes it either to
    the first source whose key it names or to every source as a search term, merges the
    per-source lists in source order, drops items whose type label contains a blocked
    word, and picks the response. Calls into sources are not executed here: each call
    is represented by the outcome it settles with, supplied by the `search` parameter,
    and a call that throws or loses its race against the timer settles as `Failed`. */
module CustomRoute {
  import opened Common

  /** One search result item. Only the type label matters to the handler; it is
      optional in the source's data (`type_name` may be missing). */
  datatype Item = Item(id: string, title: string, typeName: Option<string>)

  /** A configured source (a resource site); the handler looks sources up by `key`. */
  datatype ApiSite = ApiSite(key: string, name: string)

  /** How one call to a source settled. */
  datatype SearchOutcome = Ok(items: seq<Item>) | Failed

  /** A call the handler made: which source, with which search term. */
  datatype Call = Call(site: ApiSite, term: string)

  /** The session read from the cookie; its `username` may be missing. */
  datatype AuthInfo = AuthInfo(username: Option<string>)

  datatype SiteConfig = SiteConfig(disableYellowFilter: bool)

  /** What the handler reads from its collaborators: the sources available to a
      user, the site configuration, the blocked words and the cache duration. */
  datatype Env = Env(
    sitesFor: string -> seq<ApiSite>,
    config: SiteConfig,
    yellowWords: seq<string>,
    cacheTime: int)

  /** The cache directives attached to a cached response. */
  datatype CacheHeaders = CacheHeaders(
    maxAge: int, sMaxAge: int, cdnSMaxAge: int, vercelCdnSMaxAge: int, netlifyVary: string)

  datatype Body = ErrorBody(error: string) | ResultsBody(results: seq<Item>)

  datatype Response = Response(status: int, body: Body, headers: Option<CacheHeaders>)

  /** The response together with every source call made while producing it. */
  datatype Handled = Handled(response: Response, calls: seq<Call>)

  /** The merged, not yet filtered results of the routing step, with its calls. */
  datatype Gathered = Gathered(results: seq<Item>, calls: seq<Call>)

  // ---------------------------------------------------------------------------
  // JavaScript truthiness of an optional string

  /** An optional string is truthy when it is present and not empty; `undefined`,
      `null` and `''` are all falsy. */
  predicate Truthy(s: Option<string>)
  {
    s.Some? && s.value != ""
  }

  /** `s || ''`: the string itself when truthy, otherwise the empty string. */
  function OrEmpty(s: Option<string>): (t: string)
    ensures Truthy(s) ==> t == s.value
    ensures t == "" <==> !Truthy(s)
  {
    match s
    case Some(v) => v
    case None => ""
  }

  // ---------------------------------------------------------------------------
  // Substring test and blocked-word filter

  predicate OccursAt(s: string, w: string, i: nat)
  {
    i + |w| <= |s| && s[i..i + |w|] == w
  }

  /** `s.includes(w)`: true exactly when `w` occurs in `s` at some position
      (so the empty word occurs in every string). */
  function Includes(s: string, w: string): (r: bool)
    ensures r <==> exists i: nat :: OccursAt(s, w, i)
    decreases |s|
  {
    if OccursAt(s, w, 0) then true
    else if s == [] then false
    else
      var rest := Includes(s[1..], w);
      assert forall i: nat :: OccursAt(s[1..], w, i) <==> OccursAt(s, w, i + 1);
      assert forall i: nat :: OccursAt(s, w, i) ==> i == 0 || OccursAt(s[1..], w, i - 1);
      rest
  }

  /** `r.type_name || ''`. */
  function TypeNameOf(item: Item): (t: string)
    ensures Truthy(item.typeName) ==> t == item.typeName.value
    ensures !Truthy(item.typeName) ==> t == ""
  {
    OrEmpty(item.typeName)
  }

  /** `yellowWords.some(w => typeName.includes(w))`, tried word by word in order:
      true exactly when some blocked word occurs in the label. */
  function Blocked(typeName: string, words: seq<string>): (b: bool)
    ensures b <==> exists w :: w in words && Includes(typeName, w)
  {
    if words == [] then false
    else if Includes(typeName, words[0]) then
      assert words[0] in words;
      true
    else
      var rest := Blocked(typeName, words[1..]);
      assert forall w :: w in words[1..] ==> w in words;
      assert forall w :: w in words ==> w == words[0] || w in words[1..];
      rest
  }

  /** The filter's test for one item: no blocked word occurs in its type label,
      a missing label counting as the empty one. */
  function Passes(item: Item, words: seq<string>): (ok: bool)
    ensures ok <==> forall w :: w in words ==> !Includes(TypeNameOf(item), w)
    ensures !Truthy(item.typeName) ==> (ok <==> "" !in words)
  {
    assert !Truthy(item.typeName) ==> forall w :: Includes("", w) ==> w == "" by {
      forall w | Includes("", w) ensures w == "" {
        var i: nat :| OccursAt("", w, i);
      }
    }
    assert Includes("", "") by { assert OccursAt("", "", 0); }
    !Blocked(TypeNameOf(item), words)
  }

  /** The sensitive-category filter: keeps, in order, the items that pass. */
  function FilterBlocked(items: seq<Item>, words: seq<string>): (r: seq<Item>)
    ensures IsSubsequence(r, items)
    ensures forall x :: x in r ==> x in items && Passes(x, words)
    ensures forall x :: x in items && Passes(x, words) ==> x in r
  {
    if items == [] then []
    else if Passes(items[0], words) then [items[0]] + FilterBlocked(items[1..], words)
    else FilterBlocked(items[1..], words)
  }

  lemma {:induction false} FilterKeepsPassingItems(items: seq<Item>, words: seq<string>)
    requires forall x :: x in items ==> Passes(x, words)
    ensures FilterBlocked(items, words) == items
  {
    if items != [] {
      FilterKeepsPassingItems(items[1..], words);
    }
  }

  /** Filtering twice is filtering once. */
  lemma {:induction false} FilterIdempotent(items: seq<Item>, words: seq<string>)
    ensures FilterBlocked(FilterBlocked(items, words), words) == FilterBlocked(items, words)
  {
    FilterKeepsPassingItems(FilterBlocked(items, words), words);
  }

  /** With no blocked words the filter keeps everything. */
  lemma {:induction false} FilterNoWords(items: seq<Item>)
    ensures FilterBlocked(items, []) == items
  {
    FilterKeepsPassingItems(items, []);
  }

  /** The filter works item by item, so it distributes over concatenation. */
  lemma {:induction false} FilterAppend(a: seq<Item>, b: seq<Item>, words: seq<string>)
    ensures FilterBlocked(a + b, words) == FilterBlocked(a, words) + FilterBlocked(b, words)
  {
    if a != [] {
      var head, tail := a[0], a[1..];
      assert (a + b)[0] == head;
      assert (a + b)[1..] == tail + b;
      FilterAppend(tail, b, words);
      if Passes(head, words) {
        calc {
          FilterBlocked(a + b, words);
          [head] + FilterBlocked(tail + b, words);
          [head] + (FilterBlocked(tail, words) + FilterBlocked(b, words));
          ([head] + FilterBlocked(tail, words)) + FilterBlocked(b, words);
        }
      }
    } else {
      assert a + b == b;
    }
  }

  /** An empty blocked word occurs in every label, so it removes every item. */
  lemma EmptyWordBlocksAll(items: seq<Item>, words: seq<string>)
    requires "" in words
    ensures FilterBlocked(items, words) == []
  {
  }

  // ---------------------------------------------------------------------------
  // Merging the per-source outcomes

  /** A settled call's items; a failure or timeout contributes nothing. */
  function ItemsOf(o: SearchOutcome): (items: seq<Item>)
  {
    match o
    case Ok(items) => items
    case Failed => []
  }

  /** The sum of the lengths of the successful outcomes. */
  function SucceededCount(outs: seq<SearchOutcome>): nat
  {
    if outs == [] then 0 else |ItemsOf(outs[0])| + SucceededCount(outs[1..])
  }

  /** The `.filter(fulfilled).map(value).flat()` step: the items of every outcome,
      outcome after outcome, in the order of `outs`. */
  function Flatten(outs: seq<SearchOutcome>): (r: seq<Item>)
    ensures |r| == SucceededCount(outs)
  {
    if outs == [] then [] else ItemsOf(outs[0]) + Flatten(outs[1..])
  }

  lemma {:induction false} FlattenAppend(a: seq<SearchOutcome>, b: seq<SearchOutcome>)
    ensures Flatten(a + b) == Flatten(a) + Flatten(b)
  {
    if a != [] {
      assert (a + b)[0] == a[0];
      assert (a + b)[1..] == a[1..] + b;
      FlattenAppend(a[1..], b);
    } else {
      assert a + b == b;
    }
  }

  /** Order is by source position, not arrival: the items of the `i`-th outcome sit,
      unchanged and contiguous, right after those of all earlier outcomes. */
  lemma FlattenSourceOrder(outs: seq<SearchOutcome>, i: nat)
    requires i < |outs|
    ensures var start := |Flatten(outs[..i])|;
      start + |ItemsOf(outs[i])| <= |Flatten(outs)| &&
      Flatten(outs)[start..start + |ItemsOf(outs[i])|] == ItemsOf(outs[i])
  {
    var before, here, after := outs[..i], [outs[i]], outs[i + 1..];
    assert outs == before + (here + after);
    FlattenAppend(before, here + after);
    FlattenAppend(here, after);
    assert Flatten(here) == ItemsOf(outs[i]) by {
      assert here[1..] == [];
    }
    var a, b, c := Flatten(before), ItemsOf(outs[i]), Flatten(after);
    assert Flatten(outs) == a + (b + c);
    assert (a + (b + c))[|a|..|a| + |b|] == b;
  }

  /** An item is in the merged list exactly when some successful source returned it. */
  lemma {:induction false} FlattenMembership(outs: seq<SearchOutcome>, x: Item)
    ensures x in Flatten(outs) <==> exists i :: 0 <= i < |outs| && x in ItemsOf(outs[i])
  {
    if outs != [] {
      FlattenMembership(outs[1..], x);
      if x in Flatten(outs[1..]) {
        var i :| 0 <= i < |outs[1..]| && x in ItemsOf(outs[1..][i]);
        assert x in ItemsOf(outs[i + 1]);
      }
      if i :| 0 <= i < |outs| && x in ItemsOf(outs[i]) {
        if i > 0 {
          assert x in ItemsOf(outs[1..][i - 1]);
        }
      }
    }
  }

  // ---------------------------------------------------------------------------
  // Routing

  predicate HasKey(query: string, s: ApiSite)
  {
    s.key == query
  }

  /** `apiSites.find(s => s.key === query)`. */
  function FindSite(sites: seq<ApiSite>, query: string): (r: Option<nat>)
    ensures r.Some? ==> r.value < |sites| && sites[r.value].key == query
    ensures r.Some? ==> forall j :: 0 <= j < r.value ==> sites[j].key != query
    ensures r.None? <==> forall j :: 0 <= j < |sites| ==> sites[j].key != query
  {
    FindFirst(sites, s => HasKey(query, s))
  }

  /** The outcome of each source's race, in source order. */
  function FanOut(sites: seq<ApiSite>, query: string, search: (ApiSite, string) -> SearchOutcome)
    : (outs: seq<SearchOutcome>)
  {
    seq(|sites|, j requires 0 <= j < |sites| => search(sites[j], query))
  }

  /** The routing step: a query naming a source's key calls that source alone with an
      empty term; any other query is searched on every source. */
  function Gather(sites: seq<ApiSite>, query: string, search: (ApiSite, string) -> SearchOutcome)
    : (g: Gathered)
    ensures forall c :: c in g.calls ==> c.site in sites && (c.term == "" || c.term == query)
    ensures forall x :: x in g.results ==> exists c :: c in g.calls && x in ItemsOf(search(c.site, c.term))
  {
    match FindSite(sites, query)
    case Some(i) =>
      Gathered(ItemsOf(search(sites[i], "")), [Call(sites[i], "")])
    case None =>
      var outs := FanOut(sites, query, search);
      var calls := seq(|sites|, j requires 0 <= j < |sites| => Call(sites[j], query));
      assert forall x :: x in Flatten(outs) ==>
          exists c :: c in calls && x in ItemsOf(search(c.site, c.term)) by {
        forall x | x in Flatten(outs)
          ensures exists c :: c in calls && x in ItemsOf(search(c.site, c.term))
        {
          FlattenMembership(outs, x);
          var i :| 0 <= i < |outs| && x in ItemsOf(outs[i]);
          assert calls[i] in calls;
        }
      }
      Gathered(Flatten(outs), calls)
  }

  // ---------------------------------------------------------------------------
  // The handler

  /** `authInfo && authInfo.username`: a session whose username is truthy. */
  function Authorized(auth: Option<AuthInfo>): (ok: bool)
  {
    match auth
    case None => false
    case Some(info) => Truthy(info.username)
  }

  /** `!query`: the parameter is absent or empty. */
  function NoQuery(query: Option<string>): (none: bool)
  {
    !Truthy(query)
  }

  /** The four cache headers: browser and shared caches, the CDN and Vercel's CDN
      all keep the response for `cacheTime` seconds, and Netlify varies on `query`. */
  function CacheHeadersFor(cacheTime: int): (h: CacheHeaders)
  {
    CacheHeaders(cacheTime, cacheTime, cacheTime, cacheTime, "query")
  }

  /** Applies the blocked-word filter unless the site configuration disables it. */
  function ApplyFilter(results: seq<Item>, env: Env): (r: seq<Item>)
    ensures IsSubsequence(r, results)
    ensures env.config.disableYellowFilter || env.yellowWords == [] ==> r == results
    ensures !env.config.disableYellowFilter ==>
      r == FilterBlocked(results, env.yellowWords) && forall x :: x in r ==> Passes(x, env.yellowWords)
  {
    FilterNoWords(results);
    if env.config.disableYellowFilter then results else FilterBlocked(results, env.yellowWords)
  }

  /** The whole `GET` handler. */
  function Get(auth: Option<AuthInfo>, query: Option<string>, env: Env,
               search: (ApiSite, string) -> SearchOutcome): (h: Handled)
    ensures h.response.status == (if Authorized(auth) then 200 else 401)
    ensures !Authorized(auth) ==>
      h.response.body == ErrorBody("Unauthorized") && h.response.headers.None? && h.calls == []
    ensures Authorized(auth) ==> h.response.body.ResultsBody?
    ensures Authorized(auth) && NoQuery(query) ==>
      h.response.body.results == [] &&
      h.response.headers == Some(CacheHeadersFor(env.cacheTime)) && h.calls == []
    ensures Authorized(auth) && !NoQuery(query) ==>
      (h.response.headers.Some? <==> h.response.body.results != [])
    ensures h.response.headers.Some? ==>
      h.response.headers.value.maxAge == env.cacheTime &&
      h.response.headers.value.sMaxAge == env.cacheTime
    ensures Authorized(auth) && !env.config.disableYellowFilter ==>
      forall x :: x in h.response.body.results ==> Passes(x, env.yellowWords)
  {
    if !Authorized(auth) then
      Handled(Response(401, ErrorBody("Unauthorized"), None), [])
    else if NoQuery(query) then
      Handled(Response(200, ResultsBody([]), Some(CacheHeadersFor(env.cacheTime))), [])
    else
      var g := Gather(env.sitesFor(auth.value.username.value), query.value, search);
      var results := ApplyFilter(g.results, env);
      if results == [] then
        Handled(Response(200, ResultsBody([]), None), g.calls)
      else
        Handled(Response(200, ResultsBody(results), Some(CacheHeadersFor(env.cacheTime))), g.calls)
  }

  // ---------------------------------------------------------------------------
  // Properties of the handler

  /** A query equal to a source's key makes exactly one call, to the first source
      with that key, with the empty term; a failure of that call leaves nothing. */
  lemma KeyQueryCallsOnlyThatSite(auth: Option<AuthInfo>, q: string, env: Env,
                                  search: (ApiSite, string) -> SearchOutcome, i: nat)
    requires Authorized(auth) && q != ""
    requires var sites := env.sitesFor(auth.value.username.value);
      i < |sites| && sites[i].key == q && forall j :: 0 <= j < i ==> sites[j].key != q
    ensures var sites := env.sitesFor(auth.value.username.value);
      var h := Get(auth, Some(q), env, search);
      h.calls == [Call(sites[i], "")] &&
      Gather(sites, q, search).results == ItemsOf(search(sites[i], "")) &&
      (search(sites[i], "").Failed? ==>
        h.response == Response(200, ResultsBody([]), None))
  {
  }

  /** A query that names no source is searched on every source, in source order; the
      merged list concatenates the successful lists, so its length is their sum. */
  lemma FreeTextQueryCallsEverySite(auth: Option<AuthInfo>, q: string, env: Env,
                                    search: (ApiSite, string) -> SearchOutcome)
    requires Authorized(auth) && q != ""
    requires var sites := env.sitesFor(auth.value.username.value);
      forall j :: 0 <= j < |sites| ==> sites[j].key != q
    ensures var sites := env.sitesFor(auth.value.username.value);
      var h := Get(auth, Some(q), env, search);
      var g := Gather(sites, q, search);
      |h.calls| == |sites| &&
      (forall j :: 0 <= j < |sites| ==> h.calls[j] == Call(sites[j], q)) &&
      g.results == Flatten(FanOut(sites, q, search)) &&
      |g.results| == SucceededCount(FanOut(sites, q, search))
  {
  }

  /** With the filter switched off, or no blocked words, the merged list is returned
      unchanged (a non-empty one with its cache headers). */
  lemma UnfilteredPassThrough(auth: Option<AuthInfo>, q: string, env: Env,
                              search: (ApiSite, string) -> SearchOutcome)
    requires Authorized(auth) && q != ""
    requires env.config.disableYellowFilter || env.yellowWords == []
    ensures var g := Gather(env.sitesFor(auth.value.username.value), q, search);
      Get(auth, Some(q), env, search).response ==
        if g.results == [] then Response(200, ResultsBody([]), None)
        else Response(200, ResultsBody(g.results), Some(CacheHeadersFor(env.cacheTime)))
  {
  }

  /** With the filter on, the response lists exactly the merged items that pass, in
      merged order, and re-filtering it would change nothing. */
  lemma FilteredResults(auth: Option<AuthInfo>, q: string, env: Env,
                        search: (ApiSite, string) -> SearchOutcome)
    requires Authorized(auth) && q != "" && !env.config.disableYellowFilter
    ensures var g := Gather(env.sitesFor(auth.value.username.value), q, search);
      var results := Get(auth, Some(q), env, search).response.body.results;
      results == FilterBlocked(g.results, env.yellowWords) &&
      IsSubsequence(results, g.results) &&
      FilterBlocked(results, env.yellowWords) == results
  {
    var g := Gather(env.sitesFor(auth.value.username.value), q, search);
    FilterIdempotent(g.results, env.yellowWords);
  }

  /** Three sources, the second of which times out: the result is the first
      source's items followed by the third's. */
  lemma {:induction false} TimedOutSourceIsSkipped(a: ApiSite, b: ApiSite, c: ApiSite,
                                                   x: Item, y: Item, z: Item, q: string)
    requires a.key != q && b.key != q && c.key != q
    requires a != b && b != c && a != c
    ensures var search := (s: ApiSite, t: string) =>
        if s == a then Ok([x, y]) else if s == b then Failed else Ok([z]);
      Gather([a, b, c], q, search).results == [x, y, z]
  {
    var search := (s: ApiSite, t: string) =>
        if s == a then Ok([x, y]) else if s == b then Failed else Ok([z]);
    var outs := FanOut([a, b, c], q, search);
    assert FindSite([a, b, c], q).None?;
    assert outs == [Ok([x, y]), Failed, Ok([z])];
    assert outs[1..] == [Failed, Ok([z])];
    assert outs[1..][1..] == [Ok([z])];
    assert Flatten([Ok([z])]) == [z] by {
      assert [Ok([z])][1..] == [];
    }
    assert Flatten(outs[1..]) == [z];
  }
}
