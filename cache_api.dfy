/** The part of the host's Cache API the service worker relies on (section 5.4,
    `Cache`, and section 5.5, `CacheStorage`, of the W3C Service Workers
    specification), as functions over an ordered list of named caches.

    A cache maps a request key (an absolute URL) to a response. The list is in
    creation order, which is the order `CacheStorage.keys` reports and the
    order `CacheStorage.match` searches. */
module CacheApi {
  import opened Wrappers

  /** An HTTP response, reduced to what the worker inspects or creates. */
  datatype Response = Response(status: int, statusText: string, contentType: Option<string>, body: Option<string>)

  /** The outcome of `fetch`: a response of any status, or a rejected promise. */
  datatype NetResult = NetOk(response: Response) | NetFail

  /** An ok status (200-299). */
  predicate IsOk(r: Response) {
    200 <= r.status <= 299
  }

  /** `cache.add(url)` would store this outcome: a response with an ok status
      other than 206 (Partial Content), which `addAll` rejects. */
  predicate Addable(n: NetResult) {
    n.NetOk? && IsOk(n.response) && n.response.status != 206
  }

  datatype NamedCache = NamedCache(name: string, entries: map<string, Response>)

  type Storage = seq<NamedCache>

  /** `caches.keys()`: the cache names in creation order. */
  function Names(st: Storage): (r: seq<string>)
    ensures |r| == |st| && forall i :: 0 <= i < |st| ==> r[i] == st[i].name
  {
    if st == [] then [] else [st[0].name] + Names(st[1..])
  }

  /** No two caches share a name. */
  predicate DistinctNames(st: Storage) {
    forall i, j :: 0 <= i < j < |st| ==> st[i].name != st[j].name
  }

  lemma SameNamesDistinct(st: Storage, other: Storage)
    requires DistinctNames(st) && Names(other) == Names(st)
    ensures DistinctNames(other)
  {
    forall i, j | 0 <= i < j < |other| ensures other[i].name != other[j].name {
      assert Names(other)[i] == Names(st)[i] && Names(other)[j] == Names(st)[j];
    }
  }

  /** The entries of the cache called `name`, if there is one. */
  function EntriesOf(st: Storage, name: string): (r: Option<map<string, Response>>)
    ensures r.None? <==> name !in Names(st)
    ensures r.Some? ==> exists i :: 0 <= i < |st| && st[i].name == name && st[i].entries == r.value
  {
    if st == [] then None
    else if st[0].name == name then Some(st[0].entries)
    else EntriesOf(st[1..], name)
  }

  /** `caches.open(name)`: an existing cache is reused, otherwise an empty
      one is created after the others. */
  function Open(st: Storage, name: string): (r: Storage)
    ensures name in Names(r)
    ensures name in Names(st) ==> r == st
    ensures name !in Names(st) ==> r == st + [NamedCache(name, map[])]
  {
    if name in Names(st) then st
    else
      var r := st + [NamedCache(name, map[])];
      assert Names(r)[|st|] == name;
      r
  }

  lemma OpenKeepsDistinct(st: Storage, name: string)
    requires DistinctNames(st)
    ensures DistinctNames(Open(st, name))
    ensures Names(Open(st, name)) == if name in Names(st) then Names(st) else Names(st) + [name]
  {
    var r := Open(st, name);
    if name !in Names(st) {
      forall i | 0 <= i < |st| ensures r[i].name != name {
        assert Names(st)[i] == st[i].name;
      }
    }
  }

  /** `cache.put(key, response)` on the cache called `name`; nothing changes
      when there is no such cache. */
  function Put(st: Storage, name: string, key: string, resp: Response): (r: Storage)
    ensures |r| == |st|
    ensures forall i :: 0 <= i < |st| ==> r[i].name == st[i].name
    ensures forall i :: 0 <= i < |st| ==> r[i].entries == if st[i].name == name then st[i].entries[key := resp] else st[i].entries
  {
    if st == [] then []
    else
      var c := st[0];
      [if c.name == name then NamedCache(c.name, c.entries[key := resp]) else c] + Put(st[1..], name, key, resp)
  }

  lemma PutKeepsNames(st: Storage, name: string, key: string, resp: Response)
    ensures Names(Put(st, name, key, resp)) == Names(st)
    ensures DistinctNames(st) ==> DistinctNames(Put(st, name, key, resp))
  {
  }

  /** After a put, the named cache holds the response under the key, and every
      other key and every other cache is as before. */
  lemma PutEntries(st: Storage, name: string, key: string, resp: Response)
    ensures EntriesOf(Put(st, name, key, resp), name) == if name in Names(st) then Some(EntriesOf(st, name).value[key := resp]) else None
    ensures forall other :: other != name ==> EntriesOf(Put(st, name, key, resp), other) == EntriesOf(st, other)
  {
    PutKeepsNames(st, name, key, resp);
    if st != [] {
      PutEntries(st[1..], name, key, resp);
    }
  }

  /** `caches.delete(name)`: the cache called `name` is removed, the others
      stay in order. */
  function Delete(st: Storage, name: string): (r: Storage)
    ensures |r| <= |st|
  {
    if st == [] then []
    else if st[0].name == name then Delete(st[1..], name)
    else [st[0]] + Delete(st[1..], name)
  }

  /** Exactly the caches called `name` are gone, so the name is gone. */
  lemma {:induction false} DeleteMembers(st: Storage, name: string)
    ensures forall c :: c in Delete(st, name) <==> c in st && c.name != name
    ensures name !in Names(Delete(st, name))
  {
    if st != [] {
      DeleteMembers(st[1..], name);
      assert forall c :: c in st <==> c == st[0] || c in st[1..];
    }
    var r := Delete(st, name);
    forall k | 0 <= k < |r| ensures Names(r)[k] != name {
      assert r[k] in r;
    }
  }

  /** Deleting a name that is not there changes nothing. */
  lemma {:induction false} DeleteAbsent(st: Storage, name: string)
    requires name !in Names(st)
    ensures Delete(st, name) == st
  {
    if st != [] {
      assert Names(st)[0] == st[0].name;
      assert Names(st[1..]) == Names(st)[1..];
      DeleteAbsent(st[1..], name);
    }
  }

  lemma {:induction false} DeleteAppend(a: Storage, b: Storage, name: string)
    ensures Delete(a + b, name) == Delete(a, name) + Delete(b, name)
  {
    if a == [] {
      assert a + b == b;
    } else {
      assert (a + b)[1..] == a[1..] + b;
      DeleteAppend(a[1..], b, name);
    }
  }

  /** `caches.match(key)`: the response stored under `key` in the first cache,
      in creation order, that has one. */
  function Match(st: Storage, key: string): (r: Option<Response>)
    ensures r.None? <==> forall i :: 0 <= i < |st| ==> key !in st[i].entries
    ensures r.Some? ==> exists i :: 0 <= i < |st| && key in st[i].entries && st[i].entries[key] == r.value
                                    && forall j :: 0 <= j < i ==> key !in st[j].entries
  {
    if st == [] then None
    else if key in st[0].entries then Some(st[0].entries[key])
    else
      Match(st[1..], key)
  }

  /** A key that no cache held is found, after it is put into a cache that
      exists, with exactly the response put. */
  lemma {:induction false} MatchAfterPut(st: Storage, name: string, key: string, resp: Response)
    requires Match(st, key).None? && name in Names(st)
    ensures Match(Put(st, name, key, resp), key) == Some(resp)
  {
    var r := Put(st, name, key, resp);
    if st[0].name == name {
      assert key in r[0].entries;
    } else {
      assert Names(st)[0] == st[0].name;
      assert Names(st[1..]) == Names(st)[1..];
      assert r[1..] == Put(st[1..], name, key, resp);
      MatchAfterPut(st[1..], name, key, resp);
    }
  }

  /** A put under one key does not change what another key finds. */
  lemma MatchOtherKey(st: Storage, name: string, key: string, other: string, resp: Response)
    requires other != key
    ensures Match(Put(st, name, key, resp), other) == Match(st, other)
  {
    if st != [] {
      MatchOtherKey(st[1..], name, key, other, resp);
      assert Put(st, name, key, resp)[1..] == Put(st[1..], name, key, resp);
    }
  }

  /** `cache.add(url)` for each key in turn, into the cache called `name`; a
      key whose fetch fails or is not ok is skipped, the others are stored. */
  function AddEach(st: Storage, name: string, keys: seq<string>, net: string -> NetResult): (r: Storage)
    ensures |r| == |st|
    ensures forall i :: 0 <= i < |st| ==> r[i].name == st[i].name
    decreases |keys|
  {
    if keys == [] then st
    else
      var before := AddEach(st, name, keys[..|keys| - 1], net);
      var key := keys[|keys| - 1];
      if Addable(net(key)) then Put(before, name, key, net(key).response) else before
  }

  /** What the named cache holds after `AddEach`: exactly the keys whose own
      fetch succeeded with an ok status are added, each with its response; the
      other keys are as before, whatever happened to the keys around them. */
  lemma {:induction false} AddEachEntries(st: Storage, name: string, keys: seq<string>, net: string -> NetResult, k: string)
    requires name in Names(st)
    ensures name in Names(AddEach(st, name, keys, net))
    ensures var e, e' := EntriesOf(st, name).value, EntriesOf(AddEach(st, name, keys, net), name).value;
      if k in keys && Addable(net(k)) then k in e' && e'[k] == net(k).response
      else (k in e' <==> k in e) && (k in e ==> e'[k] == e[k])
    decreases |keys|
  {
    var r := AddEach(st, name, keys, net);
    assert Names(r) == Names(st);
    if keys != [] {
      var init, key := keys[..|keys| - 1], keys[|keys| - 1];
      assert keys == init + [key];
      AddEachEntries(st, name, init, net, k);
      var before := AddEach(st, name, init, net);
      if Addable(net(key)) {
        PutEntries(before, name, key, net(key).response);
      }
    }
  }

  /** Caches other than `name` are left alone by `AddEach`. */
  lemma {:induction false} AddEachOthers(st: Storage, name: string, keys: seq<string>, net: string -> NetResult, other: string)
    requires other != name
    ensures EntriesOf(AddEach(st, name, keys, net), other) == EntriesOf(st, other)
    decreases |keys|
  {
    if keys != [] {
      var init, key := keys[..|keys| - 1], keys[|keys| - 1];
      AddEachOthers(st, name, init, net, other);
      if Addable(net(key)) {
        PutEntries(AddEach(st, name, init, net), name, key, net(key).response);
      }
    }
  }

  /** Every key's fetch succeeded with an ok status. */
  predicate AllAddable(keys: seq<string>, net: string -> NetResult) {
    forall i :: 0 <= i < |keys| ==> Addable(net(keys[i]))
  }

  /** `cache.addAll(keys)`: all-or-nothing. `None` is a rejected promise, and
      then no cache has changed. */
  function AddAll(st: Storage, name: string, keys: seq<string>, net: string -> NetResult): (r: Option<Storage>)
    ensures r.Some? <==> AllAddable(keys, net)
    ensures r.Some? ==> Names(r.value) == Names(st)
  {
    if AllAddable(keys, net) then
      var r := AddEach(st, name, keys, net);
      assert Names(r) == Names(st);
      Some(r)
    else None
  }

  /** A partial response is never stored: `addAll` rejects as a whole, and a
      one-by-one add leaves that key as it was. */
  lemma PartialContentRejected(st: Storage, name: string, keys: seq<string>, net: string -> NetResult, i: int)
    requires name in Names(st) && 0 <= i < |keys| && net(keys[i]).NetOk? && net(keys[i]).response.status == 206
    ensures AddAll(st, name, keys, net).None?
    ensures var e, e' := EntriesOf(st, name).value, EntriesOf(AddEach(st, name, keys, net), name).value;
      (keys[i] in e' <==> keys[i] in e) && (keys[i] in e ==> e'[keys[i]] == e[keys[i]])
  {
    assert !Addable(net(keys[i]));
    AddEachEntries(st, name, keys, net, keys[i]);
  }

  /** When `addAll` succeeds, every key is in the named cache with its response. */
  lemma AddAllStoresEvery(st: Storage, name: string, keys: seq<string>, net: string -> NetResult, i: int)
    requires name in Names(st) && AllAddable(keys, net) && 0 <= i < |keys|
    ensures var e := EntriesOf(AddAll(st, name, keys, net).value, name).value;
      keys[i] in e && e[keys[i]] == net(keys[i]).response
  {
    AddEachEntries(st, name, keys, net, keys[i]);
  }

  /** The caches whose names are in `keep`, in their original order. */
  function KeepNamed(st: Storage, keep: set<string>): (r: Storage)
    ensures |r| <= |st|
  {
    if st == [] then []
    else if st[0].name in keep then [st[0]] + KeepNamed(st[1..], keep)
    else KeepNamed(st[1..], keep)
  }

  /** Exactly the caches with a kept name are kept. */
  lemma {:induction false} KeepNamedMembers(st: Storage, keep: set<string>)
    ensures forall c :: c in KeepNamed(st, keep) <==> c in st && c.name in keep
  {
    if st != [] {
      KeepNamedMembers(st[1..], keep);
      assert forall c :: c in st <==> c == st[0] || c in st[1..];
    }
  }

  lemma {:induction false} KeepNamedAppend(a: Storage, b: Storage, keep: set<string>)
    ensures KeepNamed(a + b, keep) == KeepNamed(a, keep) + KeepNamed(b, keep)
  {
    if a == [] {
      assert a + b == b;
    } else {
      assert (a + b)[1..] == a[1..] + b;
      KeepNamedAppend(a[1..], b, keep);
    }
  }

  /** Keeping is idempotent. */
  lemma {:induction false} KeepNamedIdempotent(st: Storage, keep: set<string>)
    ensures KeepNamed(KeepNamed(st, keep), keep) == KeepNamed(st, keep)
  {
    if st != [] {
      KeepNamedIdempotent(st[1..], keep);
    }
  }

  /** A kept cache keeps its entries; a cache not kept is gone. */
  lemma KeepNamedEntries(st: Storage, keep: set<string>, name: string)
    ensures EntriesOf(KeepNamed(st, keep), name) == if name in keep then EntriesOf(st, name) else None
  {
    if st != [] {
      KeepNamedEntries(st[1..], keep, name);
    }
  }
}
