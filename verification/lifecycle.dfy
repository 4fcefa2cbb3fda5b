/** The install and activate handlers: installation fills the current cache
    with the app shell, all or nothing; activation deletes every other cache
    generation. */
module Lifecycle {
  import opened Http
  import opened Config
  import opened CacheStore

  /** The store after installation: the current cache exists, and holds the
      manifest's responses when every one of them could be added. The
      per-URL outcomes of the no-cache fetches are inputs. */
  function Installed(s: Store, scope: Scope, outcomes: seq<NetOutcome>): Store
    requires |outcomes| == |CACHE_URLS|
  {
    OpenedAndAdded(s, CACHE_NAME, Resolved(scope, CACHE_URLS), outcomes)
  }

  /** The install handler; `populated` is false when `addAll` rejected, a
      failure the handler swallows. */
  method Install(cs: CacheStorage, scope: Scope, outcomes: seq<NetOutcome>) returns (populated: bool)
    requires cs.Valid() && |outcomes| == |CACHE_URLS|
    modifies cs
    ensures cs.Valid()
    ensures populated == Batch(Resolved(scope, CACHE_URLS), outcomes).Some?
    ensures cs.Snapshot() == Installed(old(cs.Snapshot()), scope, outcomes)
  {
    cs.Open(CACHE_NAME);
    populated := cs.AddAll(CACHE_NAME, Resolved(scope, CACHE_URLS), outcomes);
    if !populated {
      // the failure handler opens the cache once more, which changes nothing
      cs.Open(CACHE_NAME);
    }
  }

  // ---------------------------------------------------------------------

  /** The store after activation: only the current generation is left. */
  function Pruned(s: Store, keep: string): Store
  {
    Store(KeptOf(s.names, keep),
          if keep in s.caches then map[keep := s.caches[keep]] else map[])
  }

  /** The name `keep`, if it is among `names`, and nothing else. */
  function KeptOf(names: seq<string>, keep: string): seq<string>
  {
    if keep in names then [keep] else []
  }

  /** Every cache of `a` is a cache of `b` with the same entries. */
  ghost predicate SubMap(a: map<string, Entries>, b: map<string, Entries>)
  {
    forall n :: n in a ==> n in b && a[n] == b[n]
  }

  /** The state of the activate loop once it has visited `names[..i]`:
      those of them other than `keep` are deleted, and every cache left is
      one of the original caches, unchanged. */
  ghost predicate ActivateInv(before: Store, cur: Store, names: seq<string>, i: nat, keep: string)
  {
    i <= |names| && names == before.names && Wf(before) && Wf(cur)
    && cur.names == KeptOf(names[..i], keep) + names[i..]
    && SubMap(cur.caches, before.caches)
  }

  lemma ActivateDeleteStep(names: seq<string>, i: nat, keep: string)
    requires Distinct(names) && i < |names| && names[i] != keep
    ensures Without(KeptOf(names[..i], keep) + names[i..], names[i]) == KeptOf(names[..i + 1], keep) + names[i + 1..]
  {
    var name := names[i];
    var rest := names[i + 1..];
    assert names[..i + 1] == names[..i] + [name];
    assert names[i..] == [name] + rest;
    assert name !in rest by {
      forall k | 0 <= k < |rest| ensures rest[k] != name {
        assert rest[k] == names[i + 1 + k];
      }
    }
    WithoutDrop(KeptOf(names[..i], keep), name, rest);
  }

  lemma ActivateKeepStep(names: seq<string>, i: nat, keep: string)
    requires Distinct(names) && i < |names| && names[i] == keep
    ensures KeptOf(names[..i], keep) + names[i..] == KeptOf(names[..i + 1], keep) + names[i + 1..]
  {
    assert names[..i + 1] == names[..i] + [keep];
    assert names[i..] == [keep] + names[i + 1..];
    assert keep !in names[..i] by {
      forall k | 0 <= k < i ensures names[..i][k] != keep { }
    }
  }

  /** Before the activate loop has visited any name, nothing is deleted. */
  lemma ActivateStart(before: Store, keep: string)
    requires Wf(before)
    ensures ActivateInv(before, before, before.names, 0, keep)
  {
    assert before.names[..0] == [] && before.names[0..] == before.names;
  }

  /** One turn of the activate loop keeps its invariant. */
  lemma ActivateTurn(before: Store, cur: Store, names: seq<string>, i: nat, keep: string)
    requires ActivateInv(before, cur, names, i, keep) && i < |names|
    ensures names[i] != keep ==> ActivateInv(before, Deleted(cur, names[i]), names, i + 1, keep)
    ensures names[i] == keep ==> ActivateInv(before, cur, names, i + 1, keep)
  {
    if names[i] != keep {
      ActivateDeleteStep(names, i, keep);
      WfKept(cur, names[i], "", Response(0, ""), map[]);
    } else {
      ActivateKeepStep(names, i, keep);
    }
  }

  /** When the loop has visited every name, the store is pruned. */
  lemma ActivateDone(before: Store, cur: Store, names: seq<string>, keep: string)
    requires ActivateInv(before, cur, names, |names|, keep)
    ensures cur == Pruned(before, keep)
  {
    var pruned := Pruned(before, keep);
    assert names[..|names|] == names && names[|names|..] == [];
    assert cur.names == pruned.names;
    forall n ensures n in cur.caches <==> n in pruned.caches {
      assert n in cur.caches <==> n in cur.names;
    }
    assert cur.caches == pruned.caches;
  }

  /** The activate handler: deletes every cache generation but the current
      one. */
  method Activate(cs: CacheStorage)
    requires cs.Valid()
    modifies cs
    ensures cs.Valid()
    ensures cs.Snapshot() == Pruned(old(cs.Snapshot()), CACHE_NAME)
  {
    DeleteAllBut(cs, CACHE_NAME);
  }

  /** The loop of the activate handler: every cache whose name is not `keep`
      is deleted, one by one in the order `caches.keys()` lists them. */
  method DeleteAllBut(cs: CacheStorage, keep: string)
    requires cs.Valid()
    modifies cs
    ensures cs.Valid()
    ensures cs.Snapshot() == Pruned(old(cs.Snapshot()), keep)
  {
    var cacheNames := cs.names;
    ghost var before := cs.Snapshot();
    ActivateStart(before, keep);
    var i := 0;
    while i < |cacheNames|
      invariant 0 <= i <= |cacheNames|
      invariant ActivateInv(before, cs.Snapshot(), cacheNames, i, keep)
    {
      DeleteIfOld(cs, before, cacheNames, i, keep);
      i := i + 1;
    }
    ActivateDone(before, cs.Snapshot(), cacheNames, keep);
  }

  /** The callback the activate loop applies to the cache name
      `cacheNames[i]`: an old generation is deleted, the kept one is left
      alone. */
  method DeleteIfOld(cs: CacheStorage, ghost before: Store, cacheNames: seq<string>, i: nat, keep: string)
    requires i < |cacheNames| && cs.Valid() && ActivateInv(before, cs.Snapshot(), cacheNames, i, keep)
    modifies cs
    ensures cs.Valid() && ActivateInv(before, cs.Snapshot(), cacheNames, i + 1, keep)
  {
    ActivateTurn(before, cs.Snapshot(), cacheNames, i, keep);
    var cacheName := cacheNames[i];
    if cacheName != keep {
      var _ := cs.Delete(cacheName);
    }
  }

  /** After activation the cache names are the old ones intersected with
      {keep}, the kept cache keeps its entries, a lookup searches the kept
      cache alone, nothing stored is lost from it, and a second activation
      changes nothing. */
  lemma ActivateKeepsOnlyCurrent(s: Store, keep: string)
    requires Wf(s)
    ensures Wf(Pruned(s, keep))
    ensures (set n | n in Pruned(s, keep).names) == (set n | n in s.names) * {keep}
    ensures keep in s.caches ==>
            keep in Pruned(s, keep).caches && Pruned(s, keep).caches[keep] == s.caches[keep]
    ensures forall u :: Lookup(Pruned(s, keep), u) ==
                        if Holds(s, keep, u) then Some(s.caches[keep][u]) else None
    ensures StoredOk(s) ==> StoredOk(Pruned(s, keep))
    ensures Pruned(Pruned(s, keep), keep) == Pruned(s, keep)
  {
    var p := Pruned(s, keep);
    forall u ensures Lookup(p, u) == if Holds(s, keep, u) then Some(s.caches[keep][u]) else None {
      if keep in s.names {
        assert p.names == [keep] && p.names[1..] == [];
        assert LookupIn(p.names, p.caches, u) ==
               if HoldsIn(p.caches, keep, u) then Some(p.caches[keep][u]) else LookupIn([], p.caches, u);
      }
    }
  }
}
