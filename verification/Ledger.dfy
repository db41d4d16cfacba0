/** Capsules and the backing buffers they own. */
module Ledgers {
  import opened Wrappers
  import opened Blob
  import opened Memory

  /** A core-owned copy of one region, and the live region it came from unless loaded. */
  datatype RegionStore = RegionStore(backing: nat, origin: Option<Region>, bytes: nat)

  datatype Capsule = Capsule(stores: seq<RegionStore>, meta: seq<byte>, fingerprint: nat, tier: int, hasOrigin: bool)

  const CAP_DEV: nat := 0
  const CAP_HOST: nat := 1

  function SpaceOfTier(tier: int): nat {
    if tier == TIER_GPU then CAP_DEV else CAP_HOST
  }

  ghost function Backings(stores: seq<RegionStore>): set<nat> {
    set i | 0 <= i < |stores| :: stores[i].backing
  }

  /** The backing buffers of all live capsules. */
  ghost function Held(capsules: map<nat, Capsule>): set<nat> {
    set h, i | h in capsules && 0 <= i < |capsules[h].stores| :: capsules[h].stores[i].backing
  }

  ghost predicate Distinct(stores: seq<RegionStore>) {
    forall i, j :: 0 <= i < j < |stores| ==> stores[i].backing != stores[j].backing
  }

  /** Each store has a buffer of its own size. */
  ghost predicate Backed(mem: Mem, stores: seq<RegionStore>) {
    && Distinct(stores)
    && forall i :: 0 <= i < |stores| ==>
         stores[i].backing in mem && |mem[stores[i].backing]| == stores[i].bytes
  }

  /** Where a capsule came from is still there: regions of the application's buffers. */
  ghost predicate Rooted(mem: Mem, external: set<nat>, cap: Capsule) {
    cap.hasOrigin ==> forall i :: 0 <= i < |cap.stores| ==>
      var s := cap.stores[i];
      s.origin.Some? && s.origin.value.bytes == s.bytes && s.origin.value.buf in external && Within(mem, s.origin.value)
  }

  /** The live buffers are the application's and the capsules' backings, none shared. */
  ghost predicate Ledger(mem: Mem, external: set<nat>, capsules: map<nat, Capsule>) {
    && mem.Keys == external + Held(capsules)
    && external !! Held(capsules)
    && (forall h :: h in capsules ==> Backed(mem, capsules[h].stores) && Rooted(mem, external, capsules[h]))
    && (forall h, g :: h in capsules && g in capsules && h != g ==>
          Backings(capsules[h].stores) !! Backings(capsules[g].stores))
  }

  function Contents(mem: Mem, stores: seq<RegionStore>): (datas: seq<seq<byte>>)
    requires forall i :: 0 <= i < |stores| ==> stores[i].backing in mem
    ensures |datas| == |stores|
  {
    seq(|stores|, i requires 0 <= i < |stores| => mem[stores[i].backing])
  }

  /** A capsule's contents, as a value. */
  function ImageOf(mem: Mem, cap: Capsule): Image
    requires forall i :: 0 <= i < |cap.stores| ==> cap.stores[i].backing in mem
  {
    Image(cap.fingerprint, cap.tier, cap.meta, Contents(mem, cap.stores))
  }

  function Origins(stores: seq<RegionStore>): seq<Region>
    requires forall i :: 0 <= i < |stores| ==> stores[i].origin.Some?
  {
    seq(|stores|, i requires 0 <= i < |stores| => stores[i].origin.value)
  }

  /** What these buffers hold is the same before and after. */
  ghost predicate Agree(a: Mem, b: Mem, bufs: set<nat>) {
    forall k :: k in bufs ==> k in a && k in b && a[k] == b[k]
  }

  // ---- capsules under construction -------------------------------------------

  /** mem is mem0 with one new buffer for each store, and nothing else. */
  ghost predicate Grown(mem0: Mem, mem: Mem, stores: seq<RegionStore>) {
    && mem.Keys == mem0.Keys + Backings(stores) && mem0.Keys !! Backings(stores)
    && Backed(mem, stores)
    && Agree(mem0, mem, mem0.Keys)
  }

  lemma GrowOne(mem0: Mem, mem: Mem, stores: seq<RegionStore>, store: RegionStore, data: seq<byte>)
    requires Grown(mem0, mem, stores) && store.backing !in mem && |data| == store.bytes
    ensures var mem', stores' := mem[store.backing := data], stores + [store];
      Grown(mem0, mem', stores') && Contents(mem', stores') == Contents(mem, stores) + [data]
  {
    var stores' := stores + [store];
    assert forall i :: 0 <= i < |stores| ==> stores'[i] == stores[i];
    assert stores'[|stores|] == store;
    forall k ensures k in Backings(stores') <==> k in Backings(stores) || k == store.backing {
      if k in Backings(stores) {
        var i :| 0 <= i < |stores| && stores[i].backing == k;
        assert stores'[i].backing == k;
      }
      if k == store.backing {
        assert stores'[|stores|].backing == k;
      }
    }
    forall i | 0 <= i < |stores| ensures stores[i].backing in mem && stores[i].backing != store.backing {
    }
  }

  /** Giving the new buffers back leaves the memory as it was. */
  lemma ShrinkAll(mem0: Mem, mem: Mem, stores: seq<RegionStore>)
    requires Grown(mem0, mem, stores)
    ensures mem - Backings(stores) == mem0
  {
  }

  lemma HeldAdds(capsules: map<nat, Capsule>, h: nat, cap: Capsule)
    requires h !in capsules
    ensures Held(capsules[h := cap]) == Held(capsules) + Backings(cap.stores)
  {
    var after := capsules[h := cap];
    forall b ensures b in Held(after) <==> b in Held(capsules) || b in Backings(cap.stores) {
      if b in Held(capsules) {
        var g, i :| g in capsules && 0 <= i < |capsules[g].stores| && capsules[g].stores[i].backing == b;
        assert g in after && after[g].stores[i].backing == b;
      }
      if b in Backings(cap.stores) {
        var i :| 0 <= i < |cap.stores| && cap.stores[i].backing == b;
        assert h in after && after[h].stores[i].backing == b;
      }
    }
  }

  /** A finished capsule enters the ledger with its buffers. */
  lemma LedgerAdds(mem0: Mem, mem: Mem, external: set<nat>, capsules: map<nat, Capsule>, h: nat, cap: Capsule)
    requires Ledger(mem0, external, capsules) && h !in capsules
    requires Grown(mem0, mem, cap.stores) && Rooted(mem, external, cap)
    ensures Ledger(mem, external, capsules[h := cap])
    ensures forall g :: g in capsules ==> Contents(mem, capsules[g].stores) == Contents(mem0, capsules[g].stores)
  {
    HeldAdds(capsules, h, cap);
    forall g | g in capsules
      ensures Backings(capsules[g].stores) <= mem0.Keys
      ensures Backed(mem, capsules[g].stores) && Rooted(mem, external, capsules[g])
    {
      forall i | 0 <= i < |capsules[g].stores| ensures capsules[g].stores[i].backing in mem0 {
        assert capsules[g].stores[i].backing in Held(capsules);
      }
    }
  }

  /** A dropped capsule leaves with its buffers, and no other is affected. */
  lemma LedgerDrops(mem: Mem, external: set<nat>, capsules: map<nat, Capsule>, h: nat)
    requires Ledger(mem, external, capsules) && h in capsules
    ensures var mem' := mem - Backings(capsules[h].stores);
      Ledger(mem', external, capsules - {h}) && Agree(mem, mem', external)
      && forall g :: g in capsules && g != h ==> Agree(mem, mem', Backings(capsules[g].stores))
  {
    var after := capsules - {h};
    HeldAdds(after, h, capsules[h]);
    assert after[h := capsules[h]] == capsules;
    forall b | b in Held(after) ensures b !in Backings(capsules[h].stores) {
      var g, i :| g in after && 0 <= i < |after[g].stores| && after[g].stores[i].backing == b;
      assert b in Backings(capsules[g].stores);
    }
    var mem' := mem - Backings(capsules[h].stores);
    forall g | g in after
      ensures Agree(mem, mem', Backings(capsules[g].stores))
      ensures Backed(mem', after[g].stores) && Rooted(mem', external, after[g])
    {
      forall i | 0 <= i < |after[g].stores| ensures after[g].stores[i].backing in mem' {
        assert after[g].stores[i].backing in Held(after);
      }
    }
  }

  /** Writes to the application's buffers that keep their sizes do not touch the ledger. */
  lemma LedgerIgnores(mem: Mem, mem': Mem, external: set<nat>, capsules: map<nat, Capsule>)
    requires Ledger(mem, external, capsules) && SameShape(mem, mem') && Agree(mem, mem', Held(capsules))
    ensures Ledger(mem', external, capsules)
    ensures forall h :: h in capsules ==> Contents(mem', capsules[h].stores) == Contents(mem, capsules[h].stores)
  {
    forall h, i | h in capsules && 0 <= i < |capsules[h].stores|
      ensures mem'[capsules[h].stores[i].backing] == mem[capsules[h].stores[i].backing]
    {
      assert capsules[h].stores[i].backing in Held(capsules);
    }
  }

  /** A capsule with region i kept in buffer nb instead. */
  function Moved(cap: Capsule, i: nat, nb: nat): Capsule
    requires i < |cap.stores|
  {
    cap.(stores := cap.stores[i := cap.stores[i].(backing := nb)])
  }

  /** Buffer nb takes the place of `gone`, with its contents. */
  function Swapped(mem: Mem, gone: nat, nb: nat): Mem
    requires gone in mem
  {
    mem[nb := mem[gone]] - {gone}
  }

  /** One region of a capsule moves to a new buffer with the same bytes. */
  lemma LedgerMoves(mem: Mem, external: set<nat>, capsules: map<nat, Capsule>, h: nat, i: nat, nb: nat)
    requires Ledger(mem, external, capsules) && h in capsules && i < |capsules[h].stores| && nb !in mem
    ensures var cap' := Moved(capsules[h], i, nb); var mem' := Swapped(mem, capsules[h].stores[i].backing, nb);
      && Ledger(mem', external, capsules[h := cap']) && Agree(mem, mem', external)
      && Contents(mem', cap'.stores) == Contents(mem, capsules[h].stores)
  {
    var stores := capsules[h].stores;
    MovedIsGrown(mem, stores, i, nb);
    MovedIsRooted(mem, external, capsules, h, i, nb);
    LedgerReplaces(mem, external, capsules, h, Swapped(mem, stores[i].backing, nb), Moved(capsules[h], i, nb));
  }

  /** One capsule gives way to another with buffers of its own. */
  lemma LedgerReplaces(mem: Mem, external: set<nat>, capsules: map<nat, Capsule>, h: nat, mem': Mem, cap': Capsule)
    requires Ledger(mem, external, capsules) && h in capsules
    requires Grown(mem - Backings(capsules[h].stores), mem', cap'.stores) && Rooted(mem', external, cap')
    ensures Ledger(mem', external, capsules[h := cap'])
  {
    LedgerDrops(mem, external, capsules, h);
    LedgerAdds(mem - Backings(capsules[h].stores), mem', external, capsules - {h}, h, cap');
    assert (capsules - {h})[h := cap'] == capsules[h := cap'];
  }

  lemma MovedIsRooted(mem: Mem, external: set<nat>, capsules: map<nat, Capsule>, h: nat, i: nat, nb: nat)
    requires Ledger(mem, external, capsules) && h in capsules && i < |capsules[h].stores| && nb !in mem
    ensures var mem' := Swapped(mem, capsules[h].stores[i].backing, nb);
      Agree(mem, mem', external) && Rooted(mem', external, Moved(capsules[h], i, nb))
  {
    assert capsules[h].stores[i].backing in Held(capsules);
  }

  lemma MovedIsGrown(mem: Mem, stores: seq<RegionStore>, i: nat, nb: nat)
    requires Backed(mem, stores) && i < |stores| && nb !in mem
    ensures var stores', mem' := stores[i := stores[i].(backing := nb)], Swapped(mem, stores[i].backing, nb);
      Grown(mem - Backings(stores), mem', stores') && Contents(mem', stores') == Contents(mem, stores)
  {
    var gone := stores[i].backing;
    var stores', mem' := stores[i := stores[i].(backing := nb)], mem[nb := mem[gone]] - {gone};
    assert nb !in Backings(stores) && gone in Backings(stores);
    BackingsSwap(stores, i, nb);
    forall k | 0 <= k < |stores| && k != i ensures stores[k].backing != gone && stores[k].backing != nb {
    }
    var rest := mem - Backings(stores);
    assert forall b :: b in Backings(stores) ==> b in mem;
    assert mem'.Keys == rest.Keys + Backings(stores');
  }

  lemma BackingsSwap(stores: seq<RegionStore>, i: nat, nb: nat)
    requires Distinct(stores) && i < |stores| && nb !in Backings(stores)
    ensures var stores' := stores[i := stores[i].(backing := nb)];
      Backings(stores') == Backings(stores) - {stores[i].backing} + {nb} && Distinct(stores')
  {
    var stores' := stores[i := stores[i].(backing := nb)];
    forall b ensures b in Backings(stores') <==> (b in Backings(stores) && b != stores[i].backing) || b == nb {
      if b in Backings(stores) && b != stores[i].backing {
        var k :| 0 <= k < |stores| && stores[k].backing == b;
        assert stores'[k].backing == b;
      }
      if b == nb {
        assert stores'[i].backing == b;
      }
      if b in Backings(stores') {
        var k :| 0 <= k < |stores'| && stores'[k].backing == b;
        assert k != i ==> stores[k].backing == b;
      }
    }
    forall j, k | 0 <= j < k < |stores| ensures stores'[j].backing != stores'[k].backing {
      assert stores[j].backing in Backings(stores) && stores[k].backing in Backings(stores);
    }
  }
}
