/** The offline cache controller: the service worker's `install`, `activate`,
    `fetch` and `message` handlers, each as one sequential step over the
    cache storage and two host flags (`skipWaiting` called, clients claimed).

    The network, `caches.open` and `cache.put` are outcomes given as
    parameters. Cache keys are absolute URLs; a path `p` of the site resolves
    to `origin + p`. */
module ServiceWorker {
  import opened Wrappers
  import opened Text
  import opened CacheApi

  /** The cache version the worker is shipped with. */
  const ShippedVersion: string := "v2"

  /** The precache name, `kam-precache-<version>`. */
  function PrecacheName(version: string): (r: string)
    ensures StartsWith(r, "kam-precache-") && |r| == 13 + |version| && r[13..] == version
  {
    "kam-precache-" + version
  }

  /** The runtime cache name, `kam-runtime-<version>`. */
  function RuntimeName(version: string): (r: string)
    ensures StartsWith(r, "kam-runtime-") && |r| == 12 + |version| && r[12..] == version
  {
    "kam-runtime-" + version
  }

  /** The two current caches are distinct, whatever the two versions are. */
  lemma CacheNamesDiffer(v: string, w: string)
    ensures PrecacheName(v) != RuntimeName(w)
  {
    assert PrecacheName(v)[4] == 'p';
    assert RuntimeName(w)[4] == 'r';
  }

  /** The caches of another version have other names, so `activate` treats
      them as stale. */
  lemma VersionsGiveOtherNames(v: string, w: string)
    requires v != w
    ensures PrecacheName(v) != PrecacheName(w) && RuntimeName(v) != RuntimeName(w)
  {
    assert PrecacheName(v)[13..] != PrecacheName(w)[13..];
    assert RuntimeName(v)[12..] != RuntimeName(w)[12..];
  }

  /** The names the shipped worker uses. */
  lemma ShippedNames()
    ensures PrecacheName(ShippedVersion) == "kam-precache-v2"
    ensures RuntimeName(ShippedVersion) == "kam-runtime-v2"
  {
  }

  /** The five site paths precached at install: the base itself, the index
      page, the icon, the placeholder icon and the stylesheet. */
  function PrecachePaths(base: string): (r: seq<string>)
    ensures |r| == 5 && r[0] == base
    ensures forall i :: 0 <= i < 5 ==> StartsWith(r[i], base)
  {
    [base, base + "index.html", base + "favicon.ico", base + "vite.svg", base + "src/assets/main.css"]
  }

  /** The page served for any navigation. */
  function IndexPath(base: string): (r: string)
    ensures r == PrecachePaths(base)[1]
  {
    base + "index.html"
  }

  /** Absolute URLs of site paths. */
  function KeysOf(origin: string, paths: seq<string>): (r: seq<string>)
    ensures |r| == |paths| && forall i :: 0 <= i < |paths| ==> r[i] == origin + paths[i]
  {
    seq(|paths|, i requires 0 <= i < |paths| => origin + paths[i])
  }

  /** The five precached URLs are pairwise different, so each is its own
      entry in the precache. */
  lemma {:induction false} PrecacheKeysDistinct(origin: string, base: string)
    ensures forall i, j :: 0 <= i < j < 5 ==> KeysOf(origin, PrecachePaths(base))[i] != KeysOf(origin, PrecachePaths(base))[j]
  {
    var keys := KeysOf(origin, PrecachePaths(base));
    assert |keys[0]| == |origin| + |base|;
    assert |keys[1]| == |origin| + |base| + 10;
    assert |keys[2]| == |origin| + |base| + 11;
    assert |keys[3]| == |origin| + |base| + 8;
    assert |keys[4]| == |origin| + |base| + 19;
  }

  /** What `install` leaves in storage once the precache is open: the result
      of the bulk `addAll` when it succeeds, otherwise the result of adding the
      URLs one by one, in list order. */
  function Installed(st: Storage, name: string, keys: seq<string>, bulk: string -> NetResult, single: string -> NetResult): (r: Storage)
    ensures Names(r) == Names(Open(st, name))
  {
    var withCache := Open(st, name);
    var all := AddAll(withCache, name, keys, bulk);
    if all.Some? then all.value
    else
      var s := AddEach(withCache, name, keys, single);
      assert Names(s) == Names(withCache);
      s
  }

  /** After `install`, the precache holds every URL with its bulk response
      when `addAll` succeeded; otherwise exactly the URLs whose own `add`
      succeeded, a failure never keeping a later URL out; every other cache
      is untouched. */
  lemma InstalledEntries(st: Storage, name: string, keys: seq<string>, bulk: string -> NetResult, single: string -> NetResult, k: string)
    ensures name in Names(Installed(st, name, keys, bulk, single))
    ensures var before := EntriesOf(Open(st, name), name).value;
            var after := EntriesOf(Installed(st, name, keys, bulk, single), name).value;
      if k in keys && AllAddable(keys, bulk) then
        k in after && after[k] == bulk(k).response
      else if k in keys && Addable(single(k)) then
        k in after && after[k] == single(k).response
      else
        (k in after <==> k in before) && (k in before ==> after[k] == before[k])
    ensures forall other :: other != name ==> EntriesOf(Installed(st, name, keys, bulk, single), other) == EntriesOf(st, other)
  {
    var withCache := Open(st, name);
    forall other | other != name
      ensures EntriesOf(Installed(st, name, keys, bulk, single), other) == EntriesOf(st, other)
    {
      AddEachOthers(withCache, name, keys, if AllAddable(keys, bulk) then bulk else single, other);
      if name !in Names(st) {
        assert withCache == st + [NamedCache(name, map[])];
        EntriesOfAppendOther(st, NamedCache(name, map[]), other);
      }
    }
    if AllAddable(keys, bulk) {
      AddEachEntries(withCache, name, keys, bulk, k);
    } else {
      AddEachEntries(withCache, name, keys, single, k);
    }
  }

  /** Appending a cache under another name does not change what a name finds. */
  lemma {:induction false} EntriesOfAppendOther(st: Storage, c: NamedCache, other: string)
    requires c.name != other
    ensures EntriesOf(st + [c], other) == EntriesOf(st, other)
  {
    if st != [] {
      assert (st + [c])[1..] == st[1..] + [c];
      EntriesOfAppendOther(st[1..], c, other);
    }
  }

  /** After `activate`, only kept names are left; and when no deletion of a
      stale cache was rejected, only the current names. */
  lemma {:induction false} ActivatedNames(st: Storage, current: set<string>, failing: set<string>)
    ensures forall n :: n in Names(KeepNamed(st, current + failing)) ==> n in current + failing
    ensures !DeletionRejected(st, current, failing) ==>
      forall n :: n in Names(KeepNamed(st, current + failing)) ==> n in current
  {
    KeptNames(st, current + failing);
    if !DeletionRejected(st, current, failing) {
      NoRejectionKeepsCurrent(st, current, failing);
      KeptNames(st, current);
    }
  }

  lemma {:induction false} KeptNames(st: Storage, keep: set<string>)
    ensures forall n :: n in Names(KeepNamed(st, keep)) ==> n in keep
  {
    var r := KeepNamed(st, keep);
    KeepNamedMembers(st, keep);
    forall n | n in Names(r) ensures n in keep {
      var i :| 0 <= i < |r| && Names(r)[i] == n;
      assert r[i] in r;
    }
  }

  /** With no rejected deletion, the failing set makes no difference: only
      the current caches survive. */
  lemma {:induction false} NoRejectionKeepsCurrent(st: Storage, current: set<string>, failing: set<string>)
    requires !DeletionRejected(st, current, failing)
    ensures KeepNamed(st, current + failing) == KeepNamed(st, current)
  {
    if st != [] {
      assert !(st[0].name !in current && st[0].name in failing);
      var rest := st[1..];
      forall j | 0 <= j < |rest| ensures !(rest[j].name !in current && rest[j].name in failing) {
        assert rest[j] == st[j + 1];
      }
      NoRejectionKeepsCurrent(rest, current, failing);
    }
  }

  /** A second `activate` right after one in which no deletion was rejected
      deletes nothing, whichever deletions would fail this time. */
  lemma {:induction false} ActivateTwice(st: Storage, current: set<string>, failing: set<string>, failingAgain: set<string>)
    requires !DeletionRejected(st, current, failing)
    ensures KeepNamed(KeepNamed(st, current + failing), current + failingAgain) == KeepNamed(st, current + failing)
  {
    NoRejectionKeepsCurrent(st, current, failing);
    KeepCurrentAgain(st, current, failingAgain);
  }

  lemma {:induction false} KeepCurrentAgain(st: Storage, current: set<string>, failing: set<string>)
    ensures KeepNamed(KeepNamed(st, current), current + failing) == KeepNamed(st, current)
  {
    if st != [] {
      KeepCurrentAgain(st[1..], current, failing);
      if st[0].name in current {
        assert ([st[0]] + KeepNamed(st[1..], current))[1..] == KeepNamed(st[1..], current);
      }
    }
  }

  /** Keeping a subset of the caches keeps their names distinct. */
  lemma {:induction false} KeepNamedDistinct(st: Storage, keep: set<string>)
    requires DistinctNames(st)
    ensures DistinctNames(KeepNamed(st, keep))
  {
    if st != [] {
      KeepNamedDistinct(st[1..], keep);
      KeepNamedMembers(st[1..], keep);
      var rest := KeepNamed(st[1..], keep);
      forall c | c in rest ensures c.name != st[0].name {
        var i :| 0 <= i < |st[1..]| && st[1..][i] == c;
      }
    }
  }

  /** A request as the worker sees it. `urlOrigin` is the origin of its URL. */
  datatype Request = Request(verb: string, url: string, urlOrigin: string, mode: string, accept: Option<string>)

  /** The four ways the worker treats a request. */
  datatype Kind = NotGet | Navigation | SameOrigin | CrossOrigin

  /** A page load: navigate mode, or an Accept header that asks for HTML. */
  predicate IsNavigation(req: Request) {
    req.mode == "navigate" || (req.accept.Some? && Contains(req.accept.value, "text/html"))
  }

  /** How the `fetch` handler treats `req`; the navigation test comes before
      the origin test. */
  function Classify(req: Request, origin: string): (k: Kind)
    ensures k == NotGet <==> req.verb != "GET"
    ensures k == Navigation <==> req.verb == "GET" && IsNavigation(req)
    ensures k == SameOrigin <==> req.verb == "GET" && !IsNavigation(req) && req.urlOrigin == origin
    ensures k == CrossOrigin <==> req.verb == "GET" && !IsNavigation(req) && req.urlOrigin != origin
  {
    if req.verb != "GET" then NotGet
    else if IsNavigation(req) then Navigation
    else if req.urlOrigin == origin then SameOrigin
    else CrossOrigin
  }

  /** A same-origin GET that asks for HTML takes the navigation path, and so
      does one from another origin. */
  lemma HtmlRequestIsNavigation(req: Request, origin: string, rest: string)
    requires req.verb == "GET" && req.accept == Some("text/html" + rest)
    ensures Classify(req, origin) == Navigation
  {
    assert OccursAt(req.accept.value, "text/html", 0);
  }

  /** The page returned when a navigation fails and no index page is cached. */
  function OfflinePage(): (r: Response)
    ensures r.status == 503 && r.contentType == Some("text/html") && r.body.Some?
  {
    Response(503, "Service Unavailable", Some("text/html"),
      Some("<h1>Offline</h1><p>The application is offline and not cached.</p>"))
  }

  /** The bodyless 503 returned when a sub-resource is neither fetched nor cached. */
  function Unavailable(): (r: Response)
    ensures r.status == 503 && r.body.None? && r.contentType.None?
  {
    Response(503, "Service Unavailable", None, None)
  }

  /** The cross-origin strategy: network first, then any cache, then 503. It
      reads the caches and never writes them. */
  function CrossOriginResponse(st: Storage, req: Request, net: NetResult): (r: Response)
    ensures net.NetOk? ==> r == net.response
    ensures net.NetFail? && Match(st, req.url).Some? ==> r == Match(st, req.url).value
    ensures net.NetFail? && Match(st, req.url).None? ==> r == Unavailable()
  {
    match net
    case NetOk(response) => response
    case NetFail => Match(st, req.url).GetOr(Unavailable())
  }

  /** An empty cache appended by `open` does not change what a key finds. */
  lemma {:induction false} MatchAfterOpen(st: Storage, name: string, key: string)
    ensures Match(Open(st, name), key) == Match(st, key)
  {
    if name !in Names(st) {
      MatchAppendEmpty(st, name, key);
    }
  }

  lemma {:induction false} MatchAppendEmpty(st: Storage, name: string, key: string)
    ensures Match(st + [NamedCache(name, map[])], key) == Match(st, key)
  {
    if st != [] {
      assert (st + [NamedCache(name, map[])])[1..] == st[1..] + [NamedCache(name, map[])];
      MatchAppendEmpty(st[1..], name, key);
    }
  }

  /** After a miss and a successful network fetch whose runtime put went
      through, the next request for the same URL is a cache hit with the
      fetched response. */
  lemma MissThenHit(st: Storage, runtime: string, key: string, resp: Response)
    requires Match(st, key).None?
    ensures Match(Put(Open(st, runtime), runtime, key, resp), key) == Some(resp)
  {
    MatchAfterOpen(st, runtime, key);
    MatchAfterPut(Open(st, runtime), runtime, key, resp);
  }

  /** After an online navigation whose put went through, the index page is
      cached, so a later offline navigation does not get the offline page. */
  lemma {:induction false} OnlineNavigationCachesIndex(st: Storage, runtime: string, key: string, resp: Response)
    ensures Match(Put(Open(st, runtime), runtime, key, resp), key).Some?
  {
    var withCache := Open(st, runtime);
    if Match(withCache, key).None? {
      MatchAfterPut(withCache, runtime, key, resp);
    } else {
      var r := Put(withCache, runtime, key, resp);
      var i :| 0 <= i < |withCache| && key in withCache[i].entries;
      assert key in r[i].entries;
    }
  }

  /** The data of a `message` event: `None` for absent or falsy data, else its
      `type` property if that is a string. */
  datatype MessageData = MessageData(kind: Option<string>)

  /** What the handlers produce for a fetch: nothing (the browser goes to the
      network itself) or a response. */
  datatype FetchOutcome = Passthrough | Respond(response: Response)

  class Worker {
    const origin: string
    const base: string
    const version: string
    var storage: Storage
    var skipWaitingCalled: bool
    var clientsClaimed: bool

    ghost predicate Valid()
      reads this
    {
      DistinctNames(storage)
    }

    function Precache(): string {
      PrecacheName(version)
    }

    function Runtime(): string {
      RuntimeName(version)
    }

    function IndexKey(): string {
      origin + IndexPath(base)
    }

    function PrecacheKeys(): seq<string> {
      KeysOf(origin, PrecachePaths(base))
    }

    /** A worker starting over the caches an earlier version left behind. */
    constructor (origin: string, base: string, version: string, storage: Storage)
      requires DistinctNames(storage)
      ensures Valid()
      ensures this.origin == origin && this.base == base && this.version == version
      ensures this.storage == storage && !skipWaitingCalled && !clientsClaimed
    {
      this.origin := origin;
      this.base := base;
      this.version := version;
      this.storage := storage;
      skipWaitingCalled := false;
      clientsClaimed := false;
    }

    /** The `install` handler. `openOk` is whether `caches.open` resolves,
        `bulk` the fetches made by `addAll`, `single` those made by the
        one-by-one fallback. */
    method Install(openOk: bool, bulk: string -> NetResult, single: string -> NetResult)
      requires Valid()
      modifies this`storage, this`skipWaitingCalled
      ensures Valid()
      ensures !openOk ==> storage == old(storage) && skipWaitingCalled == old(skipWaitingCalled)
      ensures openOk ==> skipWaitingCalled && storage == Installed(old(storage), Precache(), PrecacheKeys(), bulk, single)
    {
      if !openOk {
        return;
      }
      var name, keys := Precache(), PrecacheKeys();
      OpenKeepsDistinct(storage, name);
      storage := Open(storage, name);
      var all := AddAll(storage, name, keys, bulk);
      if all.Some? {
        SameNamesDistinct(storage, all.value);
        storage := all.value;
      } else {
        AddOneByOne(name, keys, single);
      }
      skipWaitingCalled := true;
    }

    /** The fallback of `install`: `cache.add` for each URL in list order, a
        failed add being logged and skipped. */
    method AddOneByOne(name: string, keys: seq<string>, single: string -> NetResult)
      requires Valid()
      modifies this`storage
      ensures Valid()
      ensures storage == AddEach(old(storage), name, keys, single)
    {
      ghost var start := storage;
      var i := 0;
      while i < |keys|
        invariant 0 <= i <= |keys|
        invariant storage == AddEach(start, name, keys[..i], single)
      {
        var key := keys[i];
        assert keys[..i + 1][..i] == keys[..i];
        if Addable(single(key)) {
          storage := Put(storage, name, key, single(key).response);
        }
        i := i + 1;
      }
      assert keys[..|keys|] == keys;
      SameNamesDistinct(start, storage);
    }

    /** The `activate` handler. `failing` names the caches whose deletion is
        rejected; any rejection makes `Promise.all` reject, so clients are
        then not claimed. */
    method Activate(failing: set<string>)
      requires Valid()
      modifies this`storage, this`clientsClaimed
      ensures Valid()
      ensures storage == KeepNamed(old(storage), {Precache(), Runtime()} + failing)
      ensures clientsClaimed == (old(clientsClaimed) || !DeletionRejected(old(storage), {Precache(), Runtime()}, failing))
    {
      var rejected;
      rejected := DeleteStale(failing);
      if !rejected {
        clientsClaimed := true;
      }
    }

    /** The deletions of `activate`: every cache named in the snapshot of
        names that is not current is deleted, unless its deletion is
        rejected. Returns whether any was. */
    method DeleteStale(failing: set<string>) returns (rejected: bool)
      requires Valid()
      modifies this`storage
      ensures Valid()
      ensures storage == KeepNamed(old(storage), {Precache(), Runtime()} + failing)
      ensures rejected == DeletionRejected(old(storage), {Precache(), Runtime()}, failing)
    {
      var snapshot := storage;
      var current := {Precache(), Runtime()};
      ghost var keep := current + failing;
      rejected := false;
      var i := 0;
      while i < |snapshot|
        invariant 0 <= i <= |snapshot|
        invariant storage == KeepNamed(snapshot[..i], keep) + snapshot[i..]
        invariant rejected == RejectedBefore(snapshot, i, current, failing)
      {
        var key := snapshot[i].name;
        ActivateStep(snapshot, i, keep);
        RejectedStep(snapshot, i, current, failing);
        if key !in current {
          if key in failing {
            rejected := true;
          } else {
            storage := Delete(storage, key);
          }
        }
        i := i + 1;
      }
      assert snapshot[..|snapshot|] == snapshot && snapshot[|snapshot|..] == [];
      KeepNamedDistinct(snapshot, keep);
    }

    /** The `fetch` handler. `net` is the outcome of fetching `req`, `openOk`
        whether `caches.open` resolves, `putOk` whether the runtime put goes
        through. `fetched` says whether the network was asked. */
    method Fetch(req: Request, net: NetResult, openOk: bool, putOk: bool) returns (out: FetchOutcome, fetched: bool)
      requires Valid()
      modifies this`storage
      ensures Valid()
      ensures Classify(req, origin) == NotGet ==> out == Passthrough && !fetched && storage == old(storage)
      ensures Classify(req, origin) == Navigation ==> (
        fetched && out.Respond? &&
        if net.NetOk? && openOk then
          out.response == net.response &&
          storage == (if putOk then Put(Open(old(storage), Runtime()), Runtime(), IndexKey(), net.response) else Open(old(storage), Runtime()))
        else
          out.response == Match(old(storage), IndexKey()).GetOr(OfflinePage()) && storage == old(storage))
      ensures Classify(req, origin) == SameOrigin ==> (
        out.Respond? &&
        if Match(old(storage), req.url).Some? then
          !fetched && out.response == Match(old(storage), req.url).value && storage == old(storage)
        else if net.NetOk? && openOk then
          fetched && out.response == net.response &&
          storage == (if putOk then Put(Open(old(storage), Runtime()), Runtime(), req.url, net.response) else Open(old(storage), Runtime()))
        else
          fetched && out.response == Unavailable() && storage == old(storage))
      ensures Classify(req, origin) == CrossOrigin ==>
        fetched && out == Respond(CrossOriginResponse(old(storage), req, net)) && storage == old(storage)
    {
      match Classify(req, origin)
      case NotGet =>
        out, fetched := Passthrough, false;
      case Navigation =>
        var resp := HandleNavigation(net, openOk, putOk);
        out, fetched := Respond(resp), true;
      case SameOrigin =>
        var resp;
        resp, fetched := HandleSameOrigin(req, net, openOk, putOk);
        out := Respond(resp);
      case CrossOrigin =>
        out, fetched := Respond(CrossOriginResponse(storage, req, net)), true;
    }

    /** Network first for page loads: the live page is returned and kept as
        the index page; offline, the cached index page or the offline page. */
    method HandleNavigation(net: NetResult, openOk: bool, putOk: bool) returns (resp: Response)
      requires Valid()
      modifies this`storage
      ensures Valid()
      ensures net.NetOk? && openOk ==> (
        resp == net.response &&
        storage == (if putOk then Put(Open(old(storage), Runtime()), Runtime(), IndexKey(), net.response) else Open(old(storage), Runtime())))
      ensures !(net.NetOk? && openOk) ==> resp == Match(old(storage), IndexKey()).GetOr(OfflinePage()) && storage == old(storage)
    {
      if net.NetOk? && openOk {
        OpenKeepsDistinct(storage, Runtime());
        storage := Open(storage, Runtime());
        if putOk {
          PutKeepsNames(storage, Runtime(), IndexKey(), net.response);
          storage := Put(storage, Runtime(), IndexKey(), net.response);
        }
        return net.response;
      }
      var cached := Match(storage, IndexKey());
      if cached.Some? {
        return cached.value;
      }
      return OfflinePage();
    }

    /** Cache first for the site's own files: a hit is returned without a
        fetch; a miss is fetched and kept in the runtime cache; offline, the
        caches are asked again, then a bodyless 503. */
    method HandleSameOrigin(req: Request, net: NetResult, openOk: bool, putOk: bool) returns (resp: Response, fetched: bool)
      requires Valid()
      modifies this`storage
      ensures Valid()
      ensures Match(old(storage), req.url).Some? ==>
        !fetched && resp == Match(old(storage), req.url).value && storage == old(storage)
      ensures Match(old(storage), req.url).None? && net.NetOk? && openOk ==>
        fetched && resp == net.response &&
        storage == (if putOk then Put(Open(old(storage), Runtime()), Runtime(), req.url, net.response) else Open(old(storage), Runtime()))
      ensures Match(old(storage), req.url).None? && !(net.NetOk? && openOk) ==>
        fetched && resp == Unavailable() && storage == old(storage)
    {
      var cachedResponse := Match(storage, req.url);
      if cachedResponse.Some? {
        return cachedResponse.value, false;
      }
      fetched := true;
      if net.NetOk? && openOk {
        OpenKeepsDistinct(storage, Runtime());
        storage := Open(storage, Runtime());
        if putOk {
          PutKeepsNames(storage, Runtime(), req.url, net.response);
          storage := Put(storage, Runtime(), req.url, net.response);
        }
        return net.response, fetched;
      }
      var fallback := Match(storage, req.url);
      resp := fallback.GetOr(Unavailable());
    }

    /** The `message` handler: a message of type "SKIP_WAITING" calls
        `skipWaiting`; no data or any other type changes nothing. */
    method Message(data: Option<MessageData>)
      modifies this`skipWaitingCalled
      ensures skipWaitingCalled == (old(skipWaitingCalled) || (data.Some? && data.value.kind == Some("SKIP_WAITING")))
    {
      if data.None? {
        return;
      }
      if data.value.kind == Some("SKIP_WAITING") {
        skipWaitingCalled := true;
      }
    }
  }

  /** Some stale cache (one not current) among `names` has a rejected deletion. */
  predicate DeletionRejected(st: Storage, current: set<string>, failing: set<string>) {
    RejectedBefore(st, |st|, current, failing)
  }

  /** Some stale cache among the first `n` has a rejected deletion. */
  predicate RejectedBefore(st: Storage, n: int, current: set<string>, failing: set<string>) {
    exists j :: 0 <= j < n && j < |st| && st[j].name !in current && st[j].name in failing
  }

  lemma RejectedStep(st: Storage, n: int, current: set<string>, failing: set<string>)
    requires 0 <= n < |st|
    ensures RejectedBefore(st, n + 1, current, failing)
      == (RejectedBefore(st, n, current, failing) || (st[n].name !in current && st[n].name in failing))
  {
  }

  /** One step of `activate` over the caches in order: a kept cache stays, any
      other is deleted from the remaining list. */
  lemma ActivateStep(st: Storage, i: int, keep: set<string>)
    requires DistinctNames(st) && 0 <= i < |st|
    ensures st[i].name in keep ==> KeepNamed(st[..i + 1], keep) + st[i + 1..] == KeepNamed(st[..i], keep) + st[i..]
    ensures st[i].name !in keep ==> KeepNamed(st[..i + 1], keep) + st[i + 1..] == Delete(KeepNamed(st[..i], keep) + st[i..], st[i].name)
  {
    assert st[..i + 1] == st[..i] + [st[i]];
    KeepNamedAppend(st[..i], [st[i]], keep);
    assert [st[i]][1..] == [];
    if st[i].name in keep {
      assert KeepNamed([st[i]], keep) == [st[i]];
      assert st[i..] == [st[i]] + st[i + 1..];
    } else {
      assert KeepNamed([st[i]], keep) == [];
      KeepNamedMembers(st[..i], keep);
      DeleteOne(KeepNamed(st[..i], keep), st, i, keep);
    }
  }

  /** The activate step that deletes `st[i]`: it is not among the caches kept
      so far (all of which are kept names) nor among the later ones. */
  lemma DeleteOne(kept: Storage, st: Storage, i: int, keep: set<string>)
    requires DistinctNames(st) && 0 <= i < |st| && st[i].name !in keep
    requires forall c :: c in kept ==> c.name in keep
    ensures Delete(kept + st[i..], st[i].name) == kept + st[i + 1..]
  {
    var n, later := st[i].name, st[i + 1..];
    assert st[i..] == [st[i]] + later;
    assert kept + st[i..] == kept + [st[i]] + later;
    forall k | 0 <= k < |kept| ensures Names(kept)[k] != n {
      assert kept[k] in kept;
    }
    forall k | 0 <= k < |later| ensures Names(later)[k] != n {
      assert later[k] == st[i + 1 + k];
    }
    DeleteMiddle(kept, st[i], later);
  }

  /** Deleting the one cache with a given name from the middle of the list. */
  lemma DeleteMiddle(a: Storage, x: NamedCache, b: Storage)
    requires x.name !in Names(a) && x.name !in Names(b)
    ensures Delete(a + [x] + b, x.name) == a + b
  {
    var n := x.name;
    assert [x][1..] == [];
    assert Delete([x], n) == [];
    DeleteAppend(a, [x], n);
    DeleteAbsent(a, n);
    assert Delete(a + [x], n) == a;
    DeleteAppend(a + [x], b, n);
    DeleteAbsent(b, n);
  }
}
