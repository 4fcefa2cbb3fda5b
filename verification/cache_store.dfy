/** The host's CacheStorage (the `caches` global): named caches, each a map
    from request URL to stored response. The names are kept in creation
    order, which is the order `caches.keys()` reports and `caches.match`
    searches in. */
module CacheStore {
  import opened Http

  /** The entries of one named cache, keyed by request URL. */
  type Entries = map<string, Response>

  /** A snapshot of CacheStorage. */
  datatype Store = Store(names: seq<string>, caches: map<string, Entries>)

  predicate Distinct(xs: seq<string>)
  {
    forall i, j :: 0 <= i < j < |xs| ==> xs[i] != xs[j]
  }

  /** Each cache name is listed once, and the listed names are exactly the
      existing caches. */
  ghost predicate Wf(s: Store)
  {
    Distinct(s.names) && forall n :: n in s.caches <==> n in s.names
  }

  predicate HoldsIn(caches: map<string, Entries>, name: string, url: string)
  {
    name in caches && url in caches[name]
  }

  /** The cache `name` exists and has an entry for `url`. */
  predicate Holds(s: Store, name: string, url: string)
  {
    HoldsIn(s.caches, name, url)
  }

  /** Every stored response is one the Cache API accepts. */
  ghost predicate StoredOk(s: Store)
  {
    forall n, u :: HoldsIn(s.caches, n, u) ==> Storable(s.caches[n][u])
  }

  function LookupIn(names: seq<string>, caches: map<string, Entries>, url: string): Option<Response>
  {
    if names == [] then None
    else if HoldsIn(caches, names[0], url) then Some(caches[names[0]][url])
    else LookupIn(names[1..], caches, url)
  }

  /** `caches.match(url)`: the entry of the first cache, in creation order,
      that holds `url`. */
  function Lookup(s: Store, url: string): Option<Response>
  {
    LookupIn(s.names, s.caches, url)
  }

  /** `caches.open(name)`: an existing cache is left as it is; a missing one
      is created empty and listed last. */
  function Opened(s: Store, name: string): Store
  {
    if name in s.caches then s
    else Store(s.names + [name], s.caches[name := map[]])
  }

  /** `cache.put(url, resp)` on the cache `name`: replaces the entry for
      `url`; a 206 response is refused and changes nothing. */
  function Written(s: Store, name: string, url: string, resp: Response): Store
    requires name in s.caches
  {
    if resp.status == 206 then s
    else Store(s.names, s.caches[name := s.caches[name][url := resp]])
  }

  function Without(xs: seq<string>, x: string): seq<string>
  {
    if xs == [] then []
    else (if xs[0] == x then [] else [xs[0]]) + Without(xs[1..], x)
  }

  /** `caches.delete(name)`. */
  function Deleted(s: Store, name: string): Store
  {
    Store(Without(s.names, name), s.caches - {name})
  }

  /** The entries `cache.addAll(keys)` would add, given the fetch outcome of
      each key: none at all (the promise rejects) when a fetch fails, a
      response is not storable, or a key is listed twice. */
  function Batch(keys: seq<string>, outcomes: seq<NetOutcome>): Option<Entries>
    requires |keys| == |outcomes|
    decreases |keys|
  {
    if keys == [] then Some(map[])
    else
      var n := |keys| - 1;
      var prev := Batch(keys[..n], outcomes[..n]);
      if prev.None? || outcomes[n].NetError? || !Storable(outcomes[n].resp) || keys[n] in prev.value
      then None
      else Some(prev.value[keys[n] := outcomes[n].resp])
  }

  /** The entries of a successful `addAll` joined to the cache `name`. */
  function Merged(s: Store, name: string, added: Entries): Store
    requires name in s.caches
  {
    Store(s.names, s.caches[name := s.caches[name] + added])
  }

  // ---------------------------------------------------------------------
  // Lookup

  /** A lookup finds the entry of the first listed cache holding the URL,
      and finds nothing exactly when no listed cache holds it. */
  lemma {:induction false} LookupInFirst(names: seq<string>, caches: map<string, Entries>, url: string)
    ensures LookupIn(names, caches, url).None? <==>
            forall i :: 0 <= i < |names| ==> !HoldsIn(caches, names[i], url)
    ensures LookupIn(names, caches, url).Some? ==>
            exists i :: 0 <= i < |names| && HoldsIn(caches, names[i], url)
              && LookupIn(names, caches, url).value == caches[names[i]][url]
              && forall j :: 0 <= j < i ==> !HoldsIn(caches, names[j], url)
  {
    if names != [] && !HoldsIn(caches, names[0], url) {
      LookupInFirst(names[1..], caches, url);
      if LookupIn(names, caches, url).Some? {
        var i :| 0 <= i < |names[1..]| && HoldsIn(caches, names[1..][i], url)
                 && LookupIn(names, caches, url).value == caches[names[1..][i]][url]
                 && forall j :: 0 <= j < i ==> !HoldsIn(caches, names[1..][j], url);
        assert forall j :: 0 <= j < i + 1 ==> !HoldsIn(caches, names[j], url) by {
          forall j | 0 <= j < i + 1 ensures !HoldsIn(caches, names[j], url) {
            if j > 0 { assert names[j] == names[1..][j - 1]; }
          }
        }
        assert names[i + 1] == names[1..][i];
      }
      forall i | 0 <= i < |names[1..]| ensures names[1..][i] == names[i + 1] { }
    } else if names != [] {
      assert HoldsIn(caches, names[0], url);
    }
  }

  /** Two stores that agree, on every listed cache, about `url` give the same
      lookup for it. */
  lemma {:induction false} LookupInAgree(names: seq<string>, c1: map<string, Entries>, c2: map<string, Entries>, url: string)
    requires forall n :: n in names ==>
               HoldsIn(c1, n, url) == HoldsIn(c2, n, url)
               && (HoldsIn(c1, n, url) ==> c1[n][url] == c2[n][url])
    ensures LookupIn(names, c1, url) == LookupIn(names, c2, url)
  {
    if names != [] {
      assert names[0] in names;
      LookupInAgree(names[1..], c1, c2, url);
    }
  }

  lemma {:induction false} LookupInOnly(names: seq<string>, caches: map<string, Entries>, name: string, url: string)
    requires name in names && HoldsIn(caches, name, url)
    requires forall n :: n in names && n != name ==> !HoldsIn(caches, n, url)
    ensures LookupIn(names, caches, url) == Some(caches[name][url])
  {
    if names[0] != name {
      LookupInOnly(names[1..], caches, name, url);
    }
  }

  /** Opening a cache never changes what a lookup finds. */
  lemma LookupOpened(s: Store, name: string, url: string)
    requires Wf(s)
    ensures Lookup(Opened(s, name), url) == Lookup(s, url)
  {
    if name !in s.caches {
      var c := s.caches[name := map[]];
      LookupInAgree(s.names, c, s.caches, url);
      LookupInAppend(s.names, name, c, url);
    }
  }

  lemma {:induction false} LookupInAppend(names: seq<string>, name: string, caches: map<string, Entries>, url: string)
    requires !HoldsIn(caches, name, url)
    ensures LookupIn(names + [name], caches, url) == LookupIn(names, caches, url)
  {
    if names == [] {
      assert LookupIn([name][1..], caches, url) == None;
    } else {
      assert (names + [name])[1..] == names[1..] + [name];
      LookupInAppend(names[1..], name, caches, url);
    }
  }

  /** A write to one cache changes only the lookup of the URL it writes, and
      a URL no cache held is found with the written response afterwards. */
  lemma LookupWritten(s: Store, name: string, url: string, resp: Response, other: string)
    requires Wf(s) && name in s.caches
    ensures other != url ==> Lookup(Written(s, name, url, resp), other) == Lookup(s, other)
    ensures Lookup(s, url).None? && resp.status != 206 ==>
            Lookup(Written(s, name, url, resp), url) == Some(resp)
  {
    var w := Written(s, name, url, resp);
    if other != url {
      LookupInAgree(s.names, w.caches, s.caches, other);
    }
    if Lookup(s, url).None? && resp.status != 206 {
      LookupInFirst(s.names, s.caches, url);
      forall n | n in s.names && n != name
        ensures !HoldsIn(w.caches, n, url)
      {
        var i :| 0 <= i < |s.names| && s.names[i] == n;
      }
      LookupInOnly(s.names, w.caches, name, url);
    }
  }

  // ---------------------------------------------------------------------
  // addAll

  /** Every fetch of an `addAll` produced a response the cache accepts. */
  predicate AllStorable(outcomes: seq<NetOutcome>)
  {
    forall i :: 0 <= i < |outcomes| ==> outcomes[i].NetResponse? && Storable(outcomes[i].resp)
  }

  lemma DistinctSnoc(xs: seq<string>, x: string)
    ensures Distinct(xs + [x]) <==> Distinct(xs) && x !in xs
  {
    var ys := xs + [x];
    if Distinct(ys) {
      forall i, j | 0 <= i < j < |xs| ensures xs[i] != xs[j] {
        assert xs[i] == ys[i] && xs[j] == ys[j];
      }
      forall i | 0 <= i < |xs| ensures xs[i] != x {
        assert xs[i] == ys[i] && x == ys[|xs|];
      }
    }
    if Distinct(xs) && x !in xs {
      forall i, j | 0 <= i < j < |ys| ensures ys[i] != ys[j] {
        assert ys[i] == xs[i];
        if j < |xs| {
          assert ys[j] == xs[j];
        }
      }
    }
  }

  /** `addAll` succeeds exactly when every fetch produced a storable
      response and no key is listed twice, and then adds exactly the keys. */
  lemma {:induction false} BatchSucceeds(keys: seq<string>, outcomes: seq<NetOutcome>)
    requires |keys| == |outcomes|
    ensures Batch(keys, outcomes).Some? <==> Distinct(keys) && AllStorable(outcomes)
    ensures Batch(keys, outcomes).Some? ==> forall k :: k in Batch(keys, outcomes).value <==> k in keys
    decreases |keys|
  {
    if keys != [] {
      var n := |keys| - 1;
      var ks, os := keys[..n], outcomes[..n];
      BatchSucceeds(ks, os);
      assert keys == ks + [keys[n]];
      DistinctSnoc(ks, keys[n]);
      assert AllStorable(outcomes) <==> AllStorable(os) && outcomes[n].NetResponse? && Storable(outcomes[n].resp) by {
        assert forall i :: 0 <= i < n ==> os[i] == outcomes[i];
      }
    }
  }

  /** A successful `addAll` adds every key with its own response. */
  lemma {:induction false} BatchEntries(keys: seq<string>, outcomes: seq<NetOutcome>)
    requires |keys| == |outcomes|
    ensures Batch(keys, outcomes).Some? ==>
            forall i :: 0 <= i < |keys| ==>
              keys[i] in Batch(keys, outcomes).value && outcomes[i].NetResponse?
              && Batch(keys, outcomes).value[keys[i]] == outcomes[i].resp
    decreases |keys|
  {
    if keys != [] {
      var n := |keys| - 1;
      var ks, os := keys[..n], outcomes[..n];
      BatchEntries(ks, os);
      var result := Batch(keys, outcomes);
      if result.Some? {
        forall i | 0 <= i < |keys|
          ensures keys[i] in result.value && outcomes[i].NetResponse? && result.value[keys[i]] == outcomes[i].resp
        {
          if i < n {
            assert ks[i] == keys[i] && os[i] == outcomes[i];
          }
        }
      }
    }
  }

  /** `caches.open(name).then(cache => cache.addAll(keys))`: the cache is
      opened in any case; the entries are added only if `addAll` succeeds. */
  function OpenedAndAdded(s: Store, name: string, keys: seq<string>, outcomes: seq<NetOutcome>): Store
    requires |keys| == |outcomes|
  {
    var withName := Opened(s, name);
    var added := Batch(keys, outcomes);
    if added.Some? then Merged(withName, name, added.value) else withName
  }

  /** Opening and adding always leaves the cache `name` in place, touches no
      other cache, keeps the store well formed and adds only storable
      responses. */
  lemma AddAllFrame(s: Store, name: string, keys: seq<string>, outcomes: seq<NetOutcome>)
    requires Wf(s) && |keys| == |outcomes|
    ensures Wf(OpenedAndAdded(s, name, keys, outcomes)) && name in OpenedAndAdded(s, name, keys, outcomes).caches
    ensures forall n :: n in s.caches && n != name ==>
            n in OpenedAndAdded(s, name, keys, outcomes).caches
            && OpenedAndAdded(s, name, keys, outcomes).caches[n] == s.caches[n]
    ensures StoredOk(s) ==> StoredOk(OpenedAndAdded(s, name, keys, outcomes))
  {
    var withName := Opened(s, name);
    var result := OpenedAndAdded(s, name, keys, outcomes);
    forall n | n in s.caches && n != name
      ensures n in result.caches && result.caches[n] == s.caches[n]
    {
      assert n in withName.caches && withName.caches[n] == s.caches[n];
    }
    WfKept(s, name, "", Response(0, ""), map[]);
    if Batch(keys, outcomes).Some? {
      WfKept(withName, name, "", Response(0, ""), Batch(keys, outcomes).value);
    }
    if StoredOk(s) {
      StoredOkKept(s, name, "", Response(0, ""), [], []);
      StoredOkKept(withName, name, "", Response(0, ""), keys, outcomes);
    }
  }

  /** When every fetch gave a storable response and no key is repeated,
      each key is found in the cache `name` with its own response and the
      cache's other entries are kept; otherwise the cache is only opened and
      nothing is added. */
  lemma AddAllAllOrNothing(s: Store, name: string, keys: seq<string>, outcomes: seq<NetOutcome>)
    requires |keys| == |outcomes|
    ensures Distinct(keys) && AllStorable(outcomes) ==>
            (forall i :: 0 <= i < |keys| ==>
               Holds(OpenedAndAdded(s, name, keys, outcomes), name, keys[i])
               && OpenedAndAdded(s, name, keys, outcomes).caches[name][keys[i]] == outcomes[i].resp)
            && (forall u :: Holds(s, name, u) && u !in keys ==>
                 Holds(OpenedAndAdded(s, name, keys, outcomes), name, u)
                 && OpenedAndAdded(s, name, keys, outcomes).caches[name][u] == s.caches[name][u])
    ensures !(Distinct(keys) && AllStorable(outcomes)) ==> OpenedAndAdded(s, name, keys, outcomes) == Opened(s, name)
  {
    BatchSucceeds(keys, outcomes);
    BatchEntries(keys, outcomes);
  }

  // ---------------------------------------------------------------------
  // What the host lets into a cache

  /** Only storable responses ever enter the store through open, put and
      addAll. */
  lemma StoredOkKept(s: Store, name: string, url: string, resp: Response, keys: seq<string>, outcomes: seq<NetOutcome>)
    requires StoredOk(s)
    ensures StoredOk(Opened(s, name))
    ensures name in s.caches && Ok(resp) ==> StoredOk(Written(s, name, url, resp))
    ensures name in s.caches && |keys| == |outcomes| && Batch(keys, outcomes).Some? ==>
            StoredOk(Merged(s, name, Batch(keys, outcomes).value))
  {
    if name in s.caches && |keys| == |outcomes| && Batch(keys, outcomes).Some? {
      BatchSucceeds(keys, outcomes);
      BatchEntries(keys, outcomes);
      var added := Batch(keys, outcomes).value;
      forall k | k in added ensures Storable(added[k]) {
        var i :| 0 <= i < |keys| && keys[i] == k;
      }
    }
  }

  /** Open, put, a merge and delete keep the store well formed. */
  lemma WfKept(s: Store, name: string, url: string, resp: Response, added: Entries)
    requires Wf(s)
    ensures Wf(Opened(s, name))
    ensures name in s.caches ==> Wf(Written(s, name, url, resp)) && Wf(Merged(s, name, added))
    ensures Wf(Deleted(s, name))
  {
    WithoutSpec(s.names, name);
    if name !in s.caches {
      var t := Opened(s, name);
      assert forall i :: 0 <= i < |s.names| ==> t.names[i] == s.names[i];
      assert t.names[|s.names|] == name;
    }
  }

  // ---------------------------------------------------------------------
  // Removing a name from the list

  lemma {:induction false} WithoutSpec(xs: seq<string>, x: string)
    ensures forall y :: y in Without(xs, x) <==> y in xs && y != x
    ensures Distinct(xs) ==> Distinct(Without(xs, x))
  {
    if xs != [] {
      WithoutSpec(xs[1..], x);
      if Distinct(xs) {
        assert Distinct(xs[1..]) by {
          forall i, j | 0 <= i < j < |xs[1..]| ensures xs[1..][i] != xs[1..][j] {
            assert xs[1..][i] == xs[i + 1] && xs[1..][j] == xs[j + 1];
          }
        }
        assert xs[0] !in xs[1..] by {
          forall i | 0 <= i < |xs[1..]| ensures xs[1..][i] != xs[0] {
            assert xs[1..][i] == xs[i + 1];
          }
        }
      }
    }
  }

  lemma {:induction false} WithoutConcat(a: seq<string>, b: seq<string>, x: string)
    ensures Without(a + b, x) == Without(a, x) + Without(b, x)
  {
    if a != [] {
      assert (a + b)[1..] == a[1..] + b;
      WithoutConcat(a[1..], b, x);
    } else {
      assert a + b == b;
    }
  }

  lemma {:induction false} WithoutAbsent(xs: seq<string>, x: string)
    requires x !in xs
    ensures Without(xs, x) == xs
  {
    if xs != [] {
      WithoutAbsent(xs[1..], x);
      assert xs == [xs[0]] + xs[1..];
    }
  }

  /** Removing a name listed once, between names that differ from it, leaves
      exactly those names. */
  lemma WithoutDrop(a: seq<string>, x: string, b: seq<string>)
    requires x !in a && x !in b
    ensures Without(a + ([x] + b), x) == a + b
  {
    WithoutConcat(a, [x] + b, x);
    WithoutConcat([x], b, x);
    WithoutAbsent(a, x);
    WithoutAbsent(b, x);
    assert [x][1..] == [];
    assert Without([x], x) == [];
    assert Without([x] + b, x) == b;
  }

  // ---------------------------------------------------------------------

  /** The host's CacheStorage, updated in place by the worker's handlers. */
  class CacheStorage {
    var names: seq<string>
    var caches: map<string, Entries>

    function Snapshot(): Store
      reads this
    {
      Store(names, caches)
    }

    ghost predicate Valid()
      reads this
    {
      Wf(Snapshot())
    }

    constructor ()
      ensures Valid() && Snapshot() == Store([], map[])
    {
      names := [];
      caches := map[];
    }

    /** `caches.match(url)`: searches the caches in creation order. */
    method Match(url: string) returns (r: Option<Response>)
      ensures r == Lookup(Snapshot(), url)
    {
      var i := 0;
      while i < |names|
        invariant 0 <= i <= |names|
        invariant LookupIn(names, caches, url) == LookupIn(names[i..], caches, url)
      {
        var name := names[i];
        if name in caches && url in caches[name] {
          return Some(caches[name][url]);
        }
        assert names[i..][1..] == names[i + 1..];
        i := i + 1;
      }
      return None;
    }

    /** `caches.open(name)`. */
    method Open(name: string)
      requires Valid()
      modifies this
      ensures Valid()
      ensures Snapshot() == Opened(old(Snapshot()), name)
    {
      if name !in caches {
        names := names + [name];
        caches := caches[name := map[]];
      }
    }

    /** `cache.put(url, resp)` on the cache `name`; `stored` is false when the
        host refuses the response. */
    method Put(name: string, url: string, resp: Response) returns (stored: bool)
      requires Valid() && name in caches
      modifies this
      ensures Valid()
      ensures stored == (resp.status != 206)
      ensures Snapshot() == Written(old(Snapshot()), name, url, resp)
    {
      stored := resp.status != 206;
      if stored {
        caches := caches[name := caches[name][url := resp]];
      }
    }

    /** `caches.delete(name)`; `existed` is the promise's value. */
    method Delete(name: string) returns (existed: bool)
      requires Valid()
      modifies this
      ensures Valid()
      ensures existed == (name in old(caches))
      ensures Snapshot() == Deleted(old(Snapshot()), name)
    {
      WithoutSpec(names, name);
      existed := name in caches;
      names := Without(names, name);
      caches := caches - {name};
    }

    /** `cache.addAll(keys)` on the cache `name`, given each key's fetch
        outcome: all entries are added, or none and `ok` is false. */
    method AddAll(name: string, keys: seq<string>, outcomes: seq<NetOutcome>) returns (ok: bool)
      requires Valid() && name in caches && |keys| == |outcomes|
      modifies this
      ensures Valid()
      ensures ok == Batch(keys, outcomes).Some?
      ensures Snapshot() == if ok then Merged(old(Snapshot()), name, Batch(keys, outcomes).value)
                            else old(Snapshot())
    {
      var added: Entries := map[];
      ok := true;
      var i := 0;
      while i < |keys|
        invariant 0 <= i <= |keys|
        invariant Batch(keys[..i], outcomes[..i]) == if ok then Some(added) else None
      {
        assert keys[..i + 1][..i] == keys[..i] && outcomes[..i + 1][..i] == outcomes[..i];
        if ok {
          match outcomes[i]
          case NetError =>
            ok := false;
          case NetResponse(r) =>
            if !Storable(r) || keys[i] in added {
              ok := false;
            } else {
              added := added[keys[i] := r];
            }
        }
        i := i + 1;
      }
      assert keys[..i] == keys && outcomes[..i] == outcomes;
      if ok {
        caches := caches[name := caches[name] + added];
      }
    }
  }
}
