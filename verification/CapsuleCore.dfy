/** The capsule core over one backend: snapshot, restore, move, serialize, load and drop,
    with every backend call free to fail. */
module CapsuleCores {
  import opened Wrappers
  import opened Blob
  import opened Memory
  import opened Ledgers

  /** One of these backend calls failed. */
  ghost predicate FaultIn(faults: nat -> bool, from: nat, to: nat) {
    exists k: nat :: from <= k < to && faults(k)
  }

  lemma FaultInNext(faults: nat -> bool, from: nat, to: nat)
    requires from <= to
    ensures FaultIn(faults, from, to + 1) <==> FaultIn(faults, from, to) || faults(to)
  {
  }

  lemma FaultInJoins(faults: nat -> bool, from: nat, mid: nat, to: nat)
    requires from <= mid <= to
    ensures FaultIn(faults, from, to) <==> FaultIn(faults, from, mid) || FaultIn(faults, mid, to)
  {
  }

  class Context {
    /** The backend: which calls fail, its identity, and the buffers it has out. */
    const faults: nat -> bool
    var asked: nat
    var identity: nat
    var mem: Mem
    var place: map<nat, nat>
    var nextBuffer: nat
    /** The application's own buffers. */
    const external: set<nat>
    var capsules: map<nat, Capsule>
    var nextCapsule: nat

    ghost predicate Valid()
      reads this
    {
      && Ledger(mem, external, capsules)
      && (forall b :: b in mem ==> b < nextBuffer)
      && (forall h :: h in capsules ==> h < nextCapsule)
    }

    ghost predicate Faulted(since: nat)
      reads this
    {
      FaultIn(faults, since, asked)
    }

    constructor (faults: nat -> bool, identity: nat, buffers: Mem, next: nat)
      requires forall b :: b in buffers ==> b < next
      ensures Valid() && mem == buffers && external == buffers.Keys && capsules == map[]
      ensures this.identity == identity && this.faults == faults
    {
      this.faults, this.identity, mem, external, nextBuffer := faults, identity, buffers, buffers.Keys, next;
      asked, place, capsules, nextCapsule := 0, map[], map[], 0;
    }

    /** The image of a live capsule. */
    ghost function ImageOf(h: nat): Image
      requires Valid() && h in capsules
      reads this
    {
      Ledgers.ImageOf(mem, capsules[h])
    }

    // ---- the backend -----------------------------------------------------------

    /** Ask the backend for something; it may refuse. */
    method Ask() returns (ok: bool)
      modifies `asked
      ensures asked == old(asked) + 1 && ok == !faults(old(asked))
    {
      ok := !faults(asked);
      asked := asked + 1;
    }

    method BufferAlloc(bytes: nat, space: nat) returns (b: Option<nat>)
      requires forall k :: k in mem ==> k < nextBuffer
      modifies `asked, `mem, `place, `nextBuffer
      ensures asked == old(asked) + 1 && b.None? == faults(old(asked))
      ensures b.None? ==> mem == old(mem) && place == old(place) && nextBuffer == old(nextBuffer)
      ensures b.Some? ==>
        && b.value == old(nextBuffer) && nextBuffer == b.value + 1 && place == old(place)[b.value := space]
        && exists data: seq<byte> :: |data| == bytes && mem == old(mem)[b.value := data]
    {
      var ok := Ask();
      if !ok {
        return None;
      }
      var data: seq<byte> := seq(bytes, _ => 0);
      mem := mem[nextBuffer := data];
      assert |data| == bytes && mem == old(mem)[old(nextBuffer) := data];
      place := place[nextBuffer := space];
      b := Some(nextBuffer);
      nextBuffer := nextBuffer + 1;
    }

    method BufferFree(b: nat)
      modifies `mem
      ensures mem == old(mem) - {b}
    {
      mem := mem - {b};
    }

    /** Put data into a region; a call that fails may leave anything there. */
    method BufferWrite(dst: Region, data: seq<byte>) returns (ok: bool, ghost left: seq<byte>)
      requires Within(mem, dst) && |data| == dst.bytes
      modifies `asked, `mem
      ensures asked == old(asked) + 1 && ok == !faults(old(asked))
      ensures |left| == dst.bytes && mem == Write(old(mem), dst, left) && (ok ==> left == data)
    {
      ok := Ask();
      if ok {
        left := data;
        mem := Write(mem, dst, data);
      } else {
        var debris: seq<byte> := seq(dst.bytes, _ => 0);
        left := debris;
        mem := Write(mem, dst, debris);
      }
    }

    method BufferCopy(dst: Region, src: Region) returns (ok: bool, ghost left: seq<byte>)
      requires Within(mem, dst) && Within(mem, src) && src.bytes == dst.bytes
      modifies `asked, `mem
      ensures asked == old(asked) + 1 && ok == !faults(old(asked))
      ensures |left| == dst.bytes && mem == Write(old(mem), dst, left) && (ok ==> left == Read(old(mem), src))
    {
      ok, left := BufferWrite(dst, Read(mem, src));
    }

    // ---- capsules under construction -------------------------------------------

    /** Give the buffers of these stores back. */
    method FreeStores(stores: seq<RegionStore>)
      modifies `mem
      ensures mem == old(mem) - Backings(stores)
    {
      var i := 0;
      assert Backings(stores[..0]) == {};
      while i < |stores|
        invariant 0 <= i <= |stores|
        invariant mem == old(mem) - Backings(stores[..i])
      {
        assert Backings(stores[..i + 1]) == Backings(stores[..i]) + {stores[i].backing} by {
          BackingsNext(stores, i);
        }
        BufferFree(stores[i].backing);
        i := i + 1;
      }
      assert stores[..i] == stores;
    }

    /** A new backing buffer filled with data, or none at all. Only a load skips the call
        that fills a buffer of no bytes. */
    method Fill(data: seq<byte>, space: nat, skipEmpty: bool) returns (rc: int, b: nat)
      requires forall k :: k in mem ==> k < nextBuffer
      modifies `asked, `mem, `place, `nextBuffer
      ensures asked > old(asked) && (rc != CAP_OK <==> FaultIn(faults, old(asked), asked))
      ensures rc == CAP_OK || rc == CAP_ERR_NOMEM || rc == CAP_ERR_BACKEND
      ensures rc != CAP_OK ==> mem == old(mem) && nextBuffer >= old(nextBuffer)
      ensures rc == CAP_OK ==>
        old(nextBuffer) <= b < nextBuffer && mem == old(mem)[b := data] && b in place && place[b] == space
      ensures forall k :: k in old(mem) && k in old(place) ==> k in place && place[k] == old(place[k])
    {
      var backing := BufferAlloc(|data|, space);
      if backing.None? {
        return CAP_ERR_NOMEM, 0;
      }
      b := backing.value;
      if skipEmpty && |data| == 0 {
        return CAP_OK, b;
      }
      ghost var blank := mem;
      var ok, left := BufferWrite(Region(b, 0, |data|), data);
      WholeBuffer(blank, b, left);
      if !ok {
        BufferFree(b);
        return CAP_ERR_BACKEND, b;
      }
      rc := CAP_OK;
    }

    /** One more region for a capsule under construction. When the backend fails, everything
        allocated for it so far is given back. */
    method Grow(ghost mem0: Mem, stores: seq<RegionStore>, data: seq<byte>, origin: Option<Region>, space: nat,
                skipEmpty: bool)
      returns (r: Option<seq<RegionStore>>)
      requires Grown(mem0, mem, stores) && AllIn(place, stores, space)
      requires forall k :: k in mem ==> k < nextBuffer
      modifies `asked, `mem, `place, `nextBuffer
      ensures asked >= old(asked) && (r.None? <==> Faulted(old(asked)))
      ensures nextBuffer >= old(nextBuffer) && forall k :: k in mem ==> k < nextBuffer
      ensures r.None? ==> mem == mem0
      ensures r.Some? ==>
        && |r.value| == |stores| + 1 && r.value[..|stores|] == stores
        && r.value[|stores|].origin == origin && r.value[|stores|].bytes == |data|
        && Grown(mem0, mem, r.value) && AllIn(place, r.value, space)
        && Contents(mem, r.value) == Contents(old(mem), stores) + [data]
    {
      var rc, b := Fill(data, space, skipEmpty);
      if rc != CAP_OK {
        FreeStores(stores);
        ShrinkAll(mem0, old(mem), stores);
        return None;
      }
      var store := RegionStore(b, origin, |data|);
      GrowOne(mem0, old(mem), stores, store, data);
      r := Some(stores + [store]);
    }

    /** A finished capsule becomes a live one. */
    method Adopt(ghost mem0: Mem, cap: Capsule) returns (h: nat)
      requires Ledger(mem0, external, capsules) && Grown(mem0, mem, cap.stores) && Rooted(mem, external, cap)
      requires (forall g :: g in capsules ==> g < nextCapsule) && forall k :: k in mem ==> k < nextBuffer
      modifies `capsules, `nextCapsule
      ensures Valid() && h !in old(capsules) && capsules == old(capsules)[h := cap]
      ensures Undisturbed(mem0, old(capsules), mem, capsules, external)
    {
      h := nextCapsule;
      LedgerAdds(mem0, mem, external, capsules, h, cap);
      GrownIsUndisturbed(mem0, mem, cap.stores, external, capsules, h, cap);
      capsules, nextCapsule := capsules[h := cap], h + 1;
    }

    // ---- the verbs -------------------------------------------------------------

    /** Copy each region into a backing buffer of its own, or none of them. */
    method FreezeAll(regions: seq<Region>, space: nat) returns (r: Option<seq<RegionStore>>)
      requires AllWithin(mem, regions) && forall k :: k in mem ==> k < nextBuffer
      modifies `asked, `mem, `place, `nextBuffer
      ensures asked >= old(asked) && (r.None? <==> FaultIn(faults, old(asked), asked))
      ensures forall k :: k in mem ==> k < nextBuffer
      ensures r.None? ==> mem == old(mem)
      ensures r.Some? ==>
        && Grown(old(mem), mem, r.value) && AllIn(place, r.value, space)
        && |r.value| == |regions| && StoresFrom(r.value, regions)
        && Contents(mem, r.value) == ReadAll(old(mem), regions)
    {
      var stores: seq<RegionStore> := [];
      while |stores| < |regions|
        invariant Frozen(old(mem), mem, place, stores, regions, space)
        invariant forall k :: k in mem ==> k < nextBuffer
        invariant asked >= old(asked) && !FaultIn(faults, old(asked), asked)
        decreases |regions| - |stores|
      {
        ghost var mem1, before := mem, asked;
        FrozenReads(old(mem), mem, place, stores, regions, space);
        var grown := Grow(old(mem), stores, Read(mem, regions[|stores|]), Some(regions[|stores|]), space, false);
        FaultInJoins(faults, old(asked), before, asked);
        if grown.None? {
          return None;
        }
        FrozenStep(old(mem), mem1, mem, place, stores, grown.value, regions, space);
        stores := grown.value;
      }
      FrozenEnds(old(mem), mem, place, stores, regions, space);
      r := Some(stores);
    }

    /** Freeze the regions. Either the capsule holds their bytes as they are now, or nothing
        has changed and nothing is kept; the latter exactly when a backend call failed. */
    method Snapshot(regions: seq<Region>, meta: seq<byte>, tier: int) returns (h: Option<nat>)
      requires Valid() && forall i :: 0 <= i < |regions| ==> regions[i].buf in external && Within(mem, regions[i])
      modifies this
      ensures Valid() && identity == old(identity)
      ensures h.None? <==> Faulted(old(asked))
      ensures h.None? ==> mem == old(mem) && capsules == old(capsules)
      ensures h.Some? ==>
        && h.value !in old(capsules) && capsules.Keys == old(capsules.Keys) + {h.value}
        && Undisturbed(old(mem), old(capsules), mem, capsules, external)
        && ImageOf(h.value) == Image(identity, tier, meta, ReadAll(old(mem), regions))
        && ComesFrom(capsules[h.value], regions) && AllIn(place, capsules[h.value].stores, SpaceOfTier(tier))
    {
      var stores := FreezeAll(regions, SpaceOfTier(tier));
      if stores.None? {
        return None;
      }
      var handle := Adopt(old(mem), Capsule(stores.value, meta, identity, tier, true));
      h := Some(handle);
    }

    /** Write the i-th region of a capsule over a region of the application's buffers. */
    method Overwrite(ghost mem0: Mem, rs: seq<Region>, stores: seq<RegionStore>, i: nat) returns (ok: bool)
      requires i < |rs| == |stores| && Backed(mem0, stores) && Apart(rs, stores)
      requires rs[i].bytes == stores[i].bytes && Within(mem0, rs[i])
      requires Progress(mem0, mem, rs, Contents(mem0, stores), i)
      modifies `asked, `mem
      ensures asked == old(asked) + 1 && ok == !faults(old(asked))
      ensures ok ==> Progress(mem0, mem, rs, Contents(mem0, stores), i + 1)
      ensures OnlyIn(mem0, mem, rs[..i + 1])
    {
      ghost var datas := Contents(mem0, stores);
      WriteAllApart(mem0, rs[..i], datas[..i], stores[i].backing);
      var src := Region(stores[i].backing, 0, stores[i].bytes);
      assert Within(mem, src) && Read(mem, src) == datas[i];
      ghost var left;
      ok, left := BufferCopy(rs[i], src);
      ProgressStep(mem0, old(mem), rs, datas, i, left);
    }

    /** Write the stores over the regions in turn, up to the first failure. */
    method WriteBack(rs: seq<Region>, stores: seq<RegionStore>) returns (ok: bool)
      requires |rs| == |stores| && Backed(mem, stores) && Apart(rs, stores) && AllWithin(mem, rs)
      requires forall i :: 0 <= i < |rs| ==> rs[i].bytes == stores[i].bytes
      modifies `asked, `mem
      ensures asked >= old(asked) && ok == !FaultIn(faults, old(asked), asked)
      ensures OnlyIn(old(mem), mem, rs)
      ensures ok ==> mem == WriteAll(old(mem), rs, Contents(old(mem), stores))
    {
      ghost var datas := Contents(mem, stores);
      var i := 0;
      while i < |rs|
        invariant 0 <= i <= |rs|
        invariant asked >= old(asked) && !FaultIn(faults, old(asked), asked)
        invariant Progress(old(mem), mem, rs, datas, i)
      {
        FaultInNext(faults, old(asked), asked);
        assert Within(old(mem), rs[i]);
        ok := Overwrite(old(mem), rs, stores, i);
        if !ok {
          CoveredByMore(rs[..i + 1], rs);
          return;
        }
        i := i + 1;
      }
      ProgressEnds(old(mem), mem, rs, datas);
      ok := true;
    }

    /** Write a capsule back where it came from. */
    method Restore(h: nat) returns (rc: int)
      requires Valid() && h in capsules
      modifies `asked, `mem
      ensures Valid() && Agree(old(mem), mem, Held(capsules))
      ensures rc == if !capsules[h].hasOrigin then CAP_ERR_ARG
                    else if capsules[h].fingerprint != identity then CAP_ERR_FINGERPRINT
                    else if Faulted(old(asked)) then CAP_ERR_BACKEND else CAP_OK
      ensures rc == CAP_ERR_ARG || rc == CAP_ERR_FINGERPRINT ==> mem == old(mem)
      ensures capsules[h].hasOrigin ==>
        var stores := capsules[h].stores; var rs := Origins(stores);
        && OnlyIn(old(mem), mem, rs)
        && (rc == CAP_OK ==> AllWithin(old(mem), rs) && mem == WriteAll(old(mem), rs, Contents(old(mem), stores)))
    {
      var cap := capsules[h];
      if !cap.hasOrigin {
        return CAP_ERR_ARG;
      }
      if cap.fingerprint != identity {
        return CAP_ERR_FINGERPRINT;
      }
      var rs := Origins(cap.stores);
      RootsApart(mem, external, capsules, h, rs);
      var ok := WriteBack(rs, cap.stores);
      LedgerSurvives(old(mem), mem, external, capsules, rs);
      rc := if ok then CAP_OK else CAP_ERR_BACKEND;
    }

    /** Write a capsule over other regions of the application's buffers. A region that is too
        small is noticed only when its turn comes: the regions before it are then written. */
    method RestoreInto(h: nat, dst: seq<Region>) returns (rc: int, ghost done: nat)
      requires Valid() && h in capsules
      requires forall i :: 0 <= i < |dst| ==> dst[i].buf in external && Within(mem, dst[i])
      modifies `asked, `mem
      ensures Valid() && Agree(old(mem), mem, Held(capsules)) && OnlyIn(old(mem), mem, dst)
      ensures IntoResult(old(mem), mem, identity, capsules[h], dst, rc, done)
      ensures rc == CAP_ERR_BACKEND <==> Faulted(old(asked))
    {
      var cap := capsules[h];
      if |dst| != |cap.stores| {
        return CAP_ERR_ARG, 0;
      }
      if cap.fingerprint != identity {
        return CAP_ERR_FINGERPRINT, 0;
      }
      RootsApart(mem, external, capsules, h, dst);
      rc, done := WriteInto(dst, cap.stores);
      LedgerSurvives(old(mem), mem, external, capsules, dst);
    }

    method WriteInto(dst: seq<Region>, stores: seq<RegionStore>) returns (rc: int, ghost done: nat)
      requires |dst| == |stores| && Backed(mem, stores) && Apart(dst, stores) && AllWithin(mem, dst)
      modifies `asked, `mem
      ensures asked >= old(asked) && (rc == CAP_ERR_BACKEND <==> FaultIn(faults, old(asked), asked))
      ensures OnlyIn(old(mem), mem, dst)
      ensures WrittenInto(old(mem), mem, dst, stores, rc, done)
    {
      ghost var datas := Contents(mem, stores);
      var rs := Trimmed(dst, stores);
      var i := 0;
      while i < |dst|
        invariant 0 <= i <= |dst|
        invariant asked >= old(asked) && !FaultIn(faults, old(asked), asked)
        invariant Progress(old(mem), mem, rs, datas, i)
        invariant forall k :: 0 <= k < i ==> stores[k].bytes <= dst[k].bytes
      {
        if dst[i].bytes < stores[i].bytes {
          OnlyInWritten(old(mem), rs[..i], datas[..i]);
          TrimmedOnly(old(mem), mem, dst, stores, i);
          return CAP_ERR_ARG, i;
        }
        FaultInNext(faults, old(asked), asked);
        assert Within(old(mem), dst[i]);
        var ok := Overwrite(old(mem), rs, stores, i);
        if !ok {
          TrimmedOnly(old(mem), mem, dst, stores, i + 1);
          return CAP_ERR_BACKEND, i;
        }
        i := i + 1;
      }
      OnlyInWritten(old(mem), rs[..i], datas[..i]);
      TrimmedOnly(old(mem), mem, dst, stores, i);
      rc, done := CAP_OK, i;
    }

    /** Give a capsule and its buffers up. */
    method Drop(h: nat)
      requires Valid() && h in capsules
      modifies `mem, `capsules
      ensures Valid() && capsules == old(capsules) - {h}
      ensures mem == old(mem) - Backings(old(capsules)[h].stores)
      ensures Undisturbed(old(mem), capsules, mem, capsules, external)
    {
      LedgerDrops(mem, external, capsules, h);
      FreeStores(capsules[h].stores);
      capsules := capsules - {h};
    }

    /** Move one region of a capsule to a buffer in another space. */
    method MoveRegion(h: nat, i: nat, space: nat) returns (rc: int)
      requires Valid() && h in capsules && i < |capsules[h].stores|
      modifies `asked, `mem, `place, `nextBuffer, `capsules
      ensures asked >= old(asked) && (rc != CAP_OK <==> FaultIn(faults, old(asked), asked))
      ensures rc == CAP_OK || rc == CAP_ERR_NOMEM || rc == CAP_ERR_BACKEND
      ensures Valid()
      ensures rc == CAP_OK ==>
        MovedOne(old(mem), old(capsules), old(place), mem, capsules, place, external, h, i, space)
      ensures rc != CAP_OK ==> mem == old(mem) && capsules == old(capsules)
    {
      var cap := capsules[h];
      var s := cap.stores[i];
      var b;
      rc, b := Fill(mem[s.backing], space, false);
      if rc != CAP_OK {
        return;
      }
      Relocate(old(mem), old(place), h, i, b, space);
    }

    /** The copy in buffer b takes the place of region i's old buffer. */
    method Relocate(ghost mem0: Mem, ghost place0: map<nat, nat>, h: nat, i: nat, b: nat, ghost space: nat)
      requires Ledger(mem0, external, capsules) && h in capsules && i < |capsules[h].stores|
      requires b !in mem0 && mem == mem0[b := mem0[capsules[h].stores[i].backing]]
      requires b in place && place[b] == space
      requires forall k :: k in mem0 && k in place0 ==> k in place && place[k] == place0[k]
      requires (forall k :: k in mem ==> k < nextBuffer) && forall g :: g in capsules ==> g < nextCapsule
      modifies `mem, `capsules
      ensures Valid() && MovedOne(mem0, old(capsules), place0, mem, capsules, place, external, h, i, space)
    {
      MovedUndisturbs(mem0, external, capsules, place0, place, h, i, b, space);
      BufferFree(capsules[h].stores[i].backing);
      capsules := capsules[h := Moved(capsules[h], i, b)];
    }

    /** Move a capsule between device and host memory. Its contents are the same whatever
        happens; when the backend fails midway the capsule keeps its tier, with the regions
        moved so far in the new space. */
    method TierMove(h: nat, tier: int) returns (rc: int)
      requires Valid() && h in capsules
      modifies this
      ensures Valid() && SameButFor(old(mem), old(capsules), mem, capsules, external, h)
      ensures capsules[h].tier == if rc == CAP_OK then tier else old(capsules[h].tier)
      ensures rc != CAP_OK <==> Faulted(old(asked))
      ensures tier == old(capsules[h].tier) ==> rc == CAP_OK && mem == old(mem) && capsules == old(capsules)
      ensures rc == CAP_OK && tier != old(capsules[h].tier) ==> AllIn(place, capsules[h].stores, SpaceOfTier(tier))
    {
      SameAtFirst(mem, external, capsules, h);
      if tier == capsules[h].tier {
        return CAP_OK;
      }
      rc := MoveAll(h, SpaceOfTier(tier));
      if rc == CAP_OK {
        LedgerRetiers(mem, external, capsules, h, tier);
        SameRetiers(old(mem), old(capsules), mem, capsules, external, h, tier);
        capsules := capsules[h := capsules[h].(tier := tier)];
      }
    }

    method MoveAll(h: nat, space: nat) returns (rc: int)
      requires Valid() && h in capsules
      modifies `asked, `mem, `place, `nextBuffer, `capsules
      ensures Valid() && SameButFor(old(mem), old(capsules), mem, capsules, external, h)
      ensures capsules[h].tier == old(capsules[h].tier)
      ensures asked >= old(asked) && (rc != CAP_OK <==> FaultIn(faults, old(asked), asked))
      ensures rc == CAP_OK ==> AllIn(place, capsules[h].stores, space)
    {
      var i, n := 0, |capsules[h].stores|;
      SameAtFirst(mem, external, capsules, h);
      while i < n
        invariant 0 <= i <= n && Valid()
        invariant Moving(old(mem), old(capsules), mem, capsules, place, external, h, i, n, space)
        invariant asked >= old(asked) && !FaultIn(faults, old(asked), asked)
      {
        ghost var before, mem1, capsules1, place1 := asked, mem, capsules, place;
        rc := MoveRegion(h, i, space);
        FaultInJoins(faults, old(asked), before, asked);
        if rc != CAP_OK {
          return;
        }
        MovingStep(old(mem), old(capsules), mem1, capsules1, place1, mem, capsules, place, external, h, i, n, space);
        i := i + 1;
      }
      assert capsules[h].stores[..n] == capsules[h].stores;
      rc := CAP_OK;
    }

    method BufferDownload(src: Region) returns (ok: bool, data: seq<byte>)
      requires Within(mem, src)
      modifies `asked
      ensures asked == old(asked) + 1 && ok == !faults(old(asked))
      ensures |data| == src.bytes && (ok ==> data == Read(mem, src))
    {
      ok := Ask();
      data := if ok then Read(mem, src) else seq(src.bytes, _ => 0);
    }

    method SerializedLength(cap: Capsule) returns (total: nat)
      requires Backed(mem, cap.stores)
      ensures total == |Encode(Ledgers.ImageOf(mem, cap))|
    {
      ghost var datas := Contents(mem, cap.stores);
      total := HEADER + 8 * |cap.stores| + |cap.meta|;
      var i := 0;
      while i < |cap.stores|
        invariant 0 <= i <= |cap.stores|
        invariant total == HEADER + 8 * |cap.stores| + |cap.meta| + Total(datas[..i])
      {
        OneMore(datas[..i], datas[i]);
        assert datas[..i + 1] == datas[..i] + [datas[i]];
        total, i := total + cap.stores[i].bytes, i + 1;
      }
      assert datas[..i] == datas;
      EncodedLength(Ledgers.ImageOf(mem, cap));
    }

    /** Write a capsule out. Without a place to write to, only say how long it would be. */
    method Serialize(h: nat, out: array?<byte>, len: nat) returns (rc: int, written: nat)
      requires Valid() && h in capsules && (out != null ==> len <= out.Length)
      modifies `asked, if out == null then {} else {out}
      ensures Valid()
      ensures var image := Encode(ImageOf(h));
        if out == null then rc == CAP_OK && written == |image|
        else if len < |image| then rc == CAP_ERR_ARG && written == len && out[..] == old(out[..])
        else
          && (rc == if Faulted(old(asked)) then CAP_ERR_BACKEND else CAP_OK)
          && (rc == CAP_OK ==> written == |image| && out[..written] == image)
          && (rc != CAP_OK ==> written == len)
          && (forall k :: |image| <= k < out.Length ==> out[k] == old(out[k]))
    {
      var cap := capsules[h];
      var total := SerializedLength(cap);
      if out == null {
        return CAP_OK, total;
      }
      if len < total {
        return CAP_ERR_ARG, len;
      }
      rc := WriteBlob(cap, out, total);
      written := if rc == CAP_OK then total else len;
    }

    method WriteBlob(cap: Capsule, out: array<byte>, ghost total: nat) returns (rc: int)
      requires Backed(mem, cap.stores) && total == |Encode(Ledgers.ImageOf(mem, cap))| <= out.Length
      modifies `asked, out
      ensures asked >= old(asked) && rc == if FaultIn(faults, old(asked), asked) then CAP_ERR_BACKEND else CAP_OK
      ensures forall k :: total <= k < out.Length ==> out[k] == old(out[k])
      ensures rc == CAP_OK ==> out[..total] == Encode(Ledgers.ImageOf(mem, cap))
    {
      ghost var datas := Contents(mem, cap.stores);
      ghost var lead := Head(cap.fingerprint, cap.tier, |cap.stores|, |cap.meta|);
      EncodedLength(Ledgers.ImageOf(mem, cap));
      var p := Poke(out, 0, Put(MAGIC, 4) + Put(VERSION, 4) + Put(cap.fingerprint, 8));
      p := Poke(out, p, Put(cap.tier % U32, 4) + Put(|cap.stores|, 4) + Put(|cap.meta|, 8));
      assert out[..p] == lead;
      p := WriteLengths(cap.stores, datas, out, p);
      p := Poke(out, p, cap.meta);
      lead := lead + PutLengths(datas) + cap.meta;
      rc := WriteRegions(cap.stores, datas, out, p, total);
    }

    method WriteLengths(stores: seq<RegionStore>, ghost datas: seq<seq<byte>>, out: array<byte>,
                        start: nat) returns (p: nat)
      requires |datas| == |stores| && start + 8 * |stores| <= out.Length
      requires forall i :: 0 <= i < |stores| ==> |datas[i]| == stores[i].bytes
      modifies out
      ensures p == start + 8 * |stores|
      ensures out[..p] == old(out[..start]) + PutLengths(datas)
      ensures forall k :: p <= k < out.Length ==> out[k] == old(out[k])
    {
      var i := 0;
      p := start;
      assert datas[..0] == [];
      while i < |stores|
        invariant 0 <= i <= |stores| && p == start + 8 * i
        invariant out[..p] == old(out[..start]) + PutLengths(datas[..i])
        invariant forall k :: p <= k < out.Length ==> out[k] == old(out[k])
      {
        OneMore(datas[..i], datas[i]);
        assert datas[..i + 1] == datas[..i] + [datas[i]];
        p := Poke(out, p, Put(stores[i].bytes, 8));
        i := i + 1;
      }
      assert datas[..i] == datas;
    }

    method WriteRegions(stores: seq<RegionStore>, ghost datas: seq<seq<byte>>, out: array<byte>, start: nat,
                        ghost total: nat)
      returns (rc: int)
      requires Backed(mem, stores) && datas == Contents(mem, stores) && start + Total(datas) == total <= out.Length
      modifies `asked, out
      ensures asked >= old(asked) && rc == if FaultIn(faults, old(asked), asked) then CAP_ERR_BACKEND else CAP_OK
      ensures forall k :: total <= k < out.Length ==> out[k] == old(out[k])
      ensures rc == CAP_OK ==> out[..total] == old(out[..start]) + Flat(datas)
    {
      var i, p := 0, start;
      WritesNone(out[..], start, datas, total);
      while i < |stores|
        invariant 0 <= i <= |stores|
        invariant asked >= old(asked) && !FaultIn(faults, old(asked), asked)
        invariant WritesOn(old(out[..]), out[..], start, datas, i, p, total)
      {
        FaultInNext(faults, old(asked), asked);
        var src := Region(stores[i].backing, 0, stores[i].bytes);
        assert Within(mem, src) && Read(mem, src) == datas[i];
        ghost var was := out[..];
        TotalSplits(datas, i);
        var ok, data := BufferDownload(src);
        p := Poke(out, p, data);
        if !ok {
          return CAP_ERR_BACKEND;
        }
        WritesMore(old(out[..]), was, out[..], start, datas, i, p, total);
        i := i + 1;
      }
      assert datas[..i] == datas;
      rc := CAP_OK;
    }

    /** Read a blob that nobody vouches for. It becomes a capsule exactly when it is of the
        stated form and the backend does not fail; otherwise nothing is kept. */
    method Load(blob: seq<byte>) returns (h: Option<nat>)
      requires Valid()
      modifies this
      ensures Valid() && identity == old(identity)
      ensures h.Some? <==> Parse(blob, identity).Some? && !Faulted(old(asked))
      ensures h.None? ==> mem == old(mem) && capsules == old(capsules)
      ensures h.Some? ==>
        && h.value !in old(capsules) && capsules.Keys == old(capsules.Keys) + {h.value}
        && Undisturbed(old(mem), old(capsules), mem, capsules, external)
        && Parse(blob, identity) == Some(ImageOf(h.value)) && !capsules[h.value].hasOrigin
        && AllIn(place, capsules[h.value].stores, CAP_HOST)
    {
      if |blob| < HEADER {
        return None;
      }
      var magic, version, fingerprint := Get(blob[..4]), Get(blob[4..8]), Get(blob[8..16]);
      var n, metaLen := Get(blob[20..24]), Get(blob[24..32]);
      if magic != MAGIC || version != VERSION || fingerprint != identity || n > MAX_REGIONS {
        return None;
      }
      h := LoadBody(blob, n, metaLen);
    }

    /** What follows the header: table, meta and regions. */
    method LoadBody(blob: seq<byte>, n: nat, metaLen: nat) returns (h: Option<nat>)
      requires Valid() && |blob| >= HEADER
      modifies `asked, `mem, `place, `nextBuffer, `capsules, `nextCapsule
      ensures Valid()
      ensures h.Some? <==> ParseBody(identity, blob[HEADER..], n, metaLen).Some? && !Faulted(old(asked))
      ensures h.None? ==> mem == old(mem) && capsules == old(capsules)
      ensures h.Some? ==>
        && h.value !in old(capsules) && capsules.Keys == old(capsules.Keys) + {h.value}
        && Undisturbed(old(mem), old(capsules), mem, capsules, external)
        && ParseBody(identity, blob[HEADER..], n, metaLen) == Some(ImageOf(h.value)) && !capsules[h.value].hasOrigin
        && AllIn(place, capsules[h.value].stores, CAP_HOST)
    {
      var p, avail := HEADER, |blob| - HEADER;
      if 8 * n > avail {
        return None;
      }
      var sizes := ReadLengths(blob, p, n);
      p, avail := p + 8 * n, avail - 8 * n;
      if metaLen > avail {
        return None;
      }
      var meta := blob[p..p + metaLen];
      p, avail := p + metaLen, avail - metaLen;
      BodyCuts(blob, identity, n, metaLen);
      h := LoadRegions(blob, p, avail, sizes, meta);
    }

    /** The regions, and a capsule of them. */
    method LoadRegions(blob: seq<byte>, p: nat, avail: nat, sizes: seq<nat>, meta: seq<byte>) returns (h: Option<nat>)
      requires Valid() && p + avail == |blob|
      modifies `asked, `mem, `place, `nextBuffer, `capsules, `nextCapsule
      ensures Valid()
      ensures h.Some? <==> Cut(blob[p..], sizes).Some? && !Faulted(old(asked))
      ensures h.None? ==> mem == old(mem) && capsules == old(capsules)
      ensures h.Some? ==>
        && h.value !in old(capsules) && capsules.Keys == old(capsules.Keys) + {h.value}
        && Undisturbed(old(mem), old(capsules), mem, capsules, external)
        && ImageOf(h.value) == Image(identity, TIER_HOST, meta, Cut(blob[p..], sizes).value)
        && !capsules[h.value].hasOrigin && AllIn(place, capsules[h.value].stores, CAP_HOST)
    {
      var stores := LoadAll(blob, p, avail, sizes);
      if stores.None? {
        return None;
      }
      var handle := Adopt(old(mem), Capsule(stores.value, meta, identity, TIER_HOST, false));
      h := Some(handle);
    }

    /** The first regions of a blob's data, up to position p, are in buffers of their own. */
    ghost predicate Loading(mem0: Mem, blob: seq<byte>, start: nat, sizes: seq<nat>, stores: seq<RegionStore>, p: nat)
      reads this
    {
      && Grown(mem0, mem, stores) && AllIn(place, stores, CAP_HOST) && (forall k :: k in mem ==> k < nextBuffer)
      && CutUpTo(blob, start, sizes, Contents(mem, stores), p)
    }

    /** Read every region into a backing buffer of its own, or none of them. */
    method LoadAll(blob: seq<byte>, start: nat, left: nat, sizes: seq<nat>) returns (r: Option<seq<RegionStore>>)
      requires start + left == |blob| && forall k :: k in mem ==> k < nextBuffer
      modifies `asked, `mem, `place, `nextBuffer
      ensures asked >= old(asked) && forall k :: k in mem ==> k < nextBuffer
      ensures r.Some? <==> Cut(blob[start..], sizes).Some? && !FaultIn(faults, old(asked), asked)
      ensures r.None? ==> mem == old(mem)
      ensures r.Some? ==>
        && Grown(old(mem), mem, r.value) && AllIn(place, r.value, CAP_HOST)
        && Cut(blob[start..], sizes) == Some(Contents(mem, r.value))
    {
      var stores: seq<RegionStore>, p, avail := [], start, left;
      JoinedEnds([], blob[start..], sizes);
      while |stores| < |sizes|
        invariant |stores| <= |sizes| && 0 <= avail && p == |blob| - avail
        invariant asked >= old(asked) && !FaultIn(faults, old(asked), asked)
        invariant Loading(old(mem), blob, start, sizes, stores, p)
        decreases |sizes| - |stores|
      {
        ghost var before := asked;
        var size := sizes[|stores|];
        r := LoadOne(old(mem), blob, start, sizes, stores, p, avail);
        FaultInJoins(faults, old(asked), before, asked);
        if r.None? {
          return;
        }
        stores, p, avail := r.value, p + size, avail - size;
      }
      CutEnds(blob, start, sizes, Contents(mem, stores), p);
      if avail != 0 {
        ShrinkAll(old(mem), mem, stores);
        FreeStores(stores);
        return None;
      }
      r := Some(stores);
    }

    /** Read the next region, if that many bytes are left. */
    method LoadOne(ghost mem0: Mem, blob: seq<byte>, ghost start: nat, sizes: seq<nat>, stores: seq<RegionStore>,
                   p: nat, avail: nat)
      returns (r: Option<seq<RegionStore>>)
      requires Loading(mem0, blob, start, sizes, stores, p) && |stores| < |sizes| && p + avail == |blob|
      modifies `asked, `mem, `place, `nextBuffer
      ensures asked >= old(asked) && forall k :: k in mem ==> k < nextBuffer
      ensures r.None? <==> sizes[|stores|] > avail || FaultIn(faults, old(asked), asked)
      ensures r.None? ==> mem == mem0
      ensures sizes[|stores|] > avail ==> Cut(blob[start..], sizes) == None && asked == old(asked)
      ensures r.Some? ==>
        |r.value| == |stores| + 1 && Loading(mem0, blob, start, sizes, r.value, p + sizes[|stores|])
    {
      var size := sizes[|stores|];
      if size > avail {
        CutFails(blob, start, sizes, Contents(mem, stores), p);
        ShrinkAll(mem0, mem, stores);
        FreeStores(stores);
        return None;
      }
      CutStep(blob, start, sizes, Contents(mem, stores), p);
      r := Grow(mem0, stores, blob[p..p + size], None, CAP_HOST, true);
    }
  }

  /** Cutting has come to position p, with `front` cut off already. */
  ghost predicate CutUpTo(blob: seq<byte>, start: nat, sizes: seq<nat>, front: seq<seq<byte>>, p: nat) {
    && start <= p <= |blob| && |front| <= |sizes|
    && Cut(blob[start..], sizes) == Joined(front, Cut(blob[p..], sizes[|front|..]))
  }

  lemma CutStep(blob: seq<byte>, start: nat, sizes: seq<nat>, front: seq<seq<byte>>, p: nat)
    requires CutUpTo(blob, start, sizes, front, p) && |front| < |sizes| && p + sizes[|front|] <= |blob|
    ensures CutUpTo(blob, start, sizes, front + [blob[p..p + sizes[|front|]]], p + sizes[|front|])
  {
    var i, rest := |front|, blob[p..];
    CutOne(front, rest, sizes[i..]);
    assert rest[..sizes[i]] == blob[p..p + sizes[i]] && rest[sizes[i]..] == blob[p + sizes[i]..];
    assert sizes[i..][1..] == sizes[i + 1..];
  }

  lemma CutFails(blob: seq<byte>, start: nat, sizes: seq<nat>, front: seq<seq<byte>>, p: nat)
    requires CutUpTo(blob, start, sizes, front, p) && |front| < |sizes| && sizes[|front|] > |blob| - p
    ensures Cut(blob[start..], sizes) == None
  {
  }

  lemma CutEnds(blob: seq<byte>, start: nat, sizes: seq<nat>, front: seq<seq<byte>>, p: nat)
    requires CutUpTo(blob, start, sizes, front, p) && |front| == |sizes|
    ensures Cut(blob[start..], sizes) == if p == |blob| then Some(front) else None
  {
    JoinedEnds(front, blob[p..], sizes[|front|..]);
  }

  /** Copy bytes to a position of the output; the next position. */
  method Poke(out: array<byte>, p: nat, data: seq<byte>) returns (next: nat)
    requires p + |data| <= out.Length
    modifies out
    ensures next == p + |data|
    ensures out[..next] == old(out[..p]) + data && forall k :: next <= k < out.Length ==> out[k] == old(out[k])
  {
    var i := 0;
    while i < |data|
      invariant 0 <= i <= |data|
      invariant out[..p + i] == old(out[..p]) + data[..i]
      invariant forall k :: p + i <= k < out.Length ==> out[k] == old(out[k])
    {
      out[p + i] := data[i];
      i := i + 1;
      assert data[..i] == data[..i - 1] + [data[i - 1]];
    }
    next := p + i;
  }

  /** The lengths read so far, and those still to read, make the table. */
  ghost predicate TableUpTo(blob: seq<byte>, start: nat, n: nat, i: nat, sizes: seq<nat>) {
    && i <= n && start + 8 * n <= |blob|
    && sizes + GetLengths(blob[start + 8 * i..start + 8 * n]) == GetLengths(blob[start..start + 8 * n])
  }

  lemma TableNext(blob: seq<byte>, start: nat, n: nat, i: nat, sizes: seq<nat>)
    requires TableUpTo(blob, start, n, i, sizes) && i < n
    ensures TableUpTo(blob, start, n, i + 1, sizes + [Get(blob[start + 8 * i..start + 8 * i + 8])])
  {
    var rest, next := blob[start + 8 * i..start + 8 * n], blob[start + 8 * (i + 1)..start + 8 * n];
    assert rest[..8] == blob[start + 8 * i..start + 8 * i + 8] && rest[8..] == next;
    assert sizes + ([Get(rest[..8])] + GetLengths(next)) == sizes + [Get(rest[..8])] + GetLengths(next);
  }

  method ReadLengths(blob: seq<byte>, start: nat, n: nat) returns (sizes: seq<nat>)
    requires start + 8 * n <= |blob|
    ensures sizes == GetLengths(blob[start..start + 8 * n])
  {
    sizes := [];
    var i := 0;
    assert sizes + GetLengths(blob[start..start + 8 * n]) == GetLengths(blob[start..start + 8 * n]);
    while i < n
      invariant TableUpTo(blob, start, n, i, sizes)
    {
      TableNext(blob, start, n, i, sizes);
      sizes := sizes + [Get(blob[start + 8 * i..start + 8 * i + 8])];
      i := i + 1;
    }
    assert GetLengths(blob[start + 8 * n..start + 8 * n]) == [];
  }

  /** The first i regions follow what was there before start; nothing past total differs. */
  ghost predicate WritesOn(was: seq<byte>, now: seq<byte>, start: nat, datas: seq<seq<byte>>, i: nat, p: nat,
                        total: nat) {
    && i <= |datas| && p == start + Total(datas[..i]) <= total <= |now| == |was|
    && now[..p] == was[..start] + Flat(datas[..i])
    && forall k :: total <= k < |now| ==> now[k] == was[k]
  }

  lemma WritesNone(was: seq<byte>, start: nat, datas: seq<seq<byte>>, total: nat)
    requires start <= total <= |was|
    ensures WritesOn(was, was, start, datas, 0, start, total)
  {
    assert datas[..0] == [];
  }

  lemma WritesMore(was: seq<byte>, mid: seq<byte>, now: seq<byte>, start: nat, datas: seq<seq<byte>>, i: nat, p: nat,
                   total: nat)
    requires i < |datas| && p >= |datas[i]| && WritesOn(was, mid, start, datas, i, p - |datas[i]|, total)
    requires p <= total && |now| == |mid| && now[..p] == mid[..p - |datas[i]|] + datas[i]
    requires forall k :: p <= k < |now| ==> now[k] == mid[k]
    ensures WritesOn(was, now, start, datas, i + 1, p, total)
  {
    OneMoreFlat(datas[..i], datas[i]);
    OneMoreTotal(datas[..i], datas[i]);
    assert datas[..i + 1] == datas[..i] + [datas[i]];
    assert was[..start] + Flat(datas[..i]) + datas[i] == was[..start] + (Flat(datas[..i]) + datas[i]);
  }

  lemma {:induction false} TotalSplits(datas: seq<seq<byte>>, i: nat)
    requires i < |datas|
    ensures Total(datas[..i]) + |datas[i]| <= Total(datas)
  {
    if i > 0 {
      assert datas[..i][1..] == datas[1..][..i - 1];
      TotalSplits(datas[1..], i - 1);
    }
  }

  /** Past the header, table and meta, a blob is accepted when its data can be cut. */
  lemma BodyCuts(blob: seq<byte>, identity: nat, n: nat, metaLen: nat)
    requires HEADER + 8 * n + metaLen <= |blob|
    ensures ParseBody(identity, blob[HEADER..], n, metaLen) ==
      match Cut(blob[HEADER + 8 * n + metaLen..], GetLengths(blob[HEADER..HEADER + 8 * n]))
      case None => None
      case Some(pieces) => Some(Image(identity, TIER_HOST, blob[HEADER + 8 * n..HEADER + 8 * n + metaLen], pieces))
  {
    var rest := blob[HEADER..];
    assert rest[..8 * n] == blob[HEADER..HEADER + 8 * n];
    assert rest[8 * n..8 * n + metaLen] == blob[HEADER + 8 * n..HEADER + 8 * n + metaLen];
    assert rest[8 * n + metaLen..] == blob[HEADER + 8 * n + metaLen..];
  }

  /** One region of a capsule has moved into this space. */
  ghost predicate MovedOne(mem0: Mem, capsules0: map<nat, Capsule>, place0: map<nat, nat>, mem: Mem,
                           capsules: map<nat, Capsule>, place: map<nat, nat>, external: set<nat>, h: nat, i: nat,
                           space: nat) {
    && SameButFor(mem0, capsules0, mem, capsules, external, h)
    && h in capsules0 && i < |capsules0[h].stores| == |capsules[h].stores|
    && capsules[h].tier == capsules0[h].tier
    && (forall k :: k in mem0 && k in place0 ==> k in place && place[k] == place0[k])
    && capsules[h].stores[i].backing in place && place[capsules[h].stores[i].backing] == space
    && (forall k :: 0 <= k < i ==> capsules[h].stores[k] == capsules0[h].stores[k])
  }

  /** The first i of a capsule's n regions have moved. */
  ghost predicate Moving(mem0: Mem, capsules0: map<nat, Capsule>, mem: Mem, capsules: map<nat, Capsule>,
                         place: map<nat, nat>, external: set<nat>, h: nat, i: nat, n: nat, space: nat) {
    && SameButFor(mem0, capsules0, mem, capsules, external, h)
    && h in capsules0 && i <= n == |capsules[h].stores| && capsules[h].tier == capsules0[h].tier
    && AllIn(place, capsules[h].stores[..i], space)
  }

  lemma MovingStep(mem0: Mem, capsules0: map<nat, Capsule>, mem1: Mem, capsules1: map<nat, Capsule>,
                   place1: map<nat, nat>, mem: Mem, capsules: map<nat, Capsule>, place: map<nat, nat>,
                   external: set<nat>, h: nat, i: nat, n: nat, space: nat)
    requires Moving(mem0, capsules0, mem1, capsules1, place1, external, h, i, n, space) && i < n
    requires MovedOne(mem1, capsules1, place1, mem, capsules, place, external, h, i, space)
    ensures Moving(mem0, capsules0, mem, capsules, place, external, h, i + 1, n, space)
  {
    SameJoins(mem0, capsules0, mem1, capsules1, mem, capsules, external, h);
    forall k | 0 <= k < i + 1
      ensures capsules[h].stores[k].backing in place && place[capsules[h].stores[k].backing] == space
    {
      if k < i {
        assert capsules1[h].stores[..i][k] == capsules1[h].stores[k];
      }
    }
  }

  lemma SameAtFirst(mem: Mem, external: set<nat>, capsules: map<nat, Capsule>, h: nat)
    requires Ledger(mem, external, capsules) && h in capsules
    ensures SameButFor(mem, capsules, mem, capsules, external, h)
  {
    forall g, b | g in capsules && b in Backings(capsules[g].stores) ensures b in mem {
      var i :| 0 <= i < |capsules[g].stores| && capsules[g].stores[i].backing == b;
    }
  }

  lemma SameRetiers(mem0: Mem, capsules0: map<nat, Capsule>, mem: Mem, capsules: map<nat, Capsule>,
                    external: set<nat>, h: nat, tier: int)
    requires SameButFor(mem0, capsules0, mem, capsules, external, h)
    ensures SameButFor(mem0, capsules0, mem, capsules[h := capsules[h].(tier := tier)], external, h)
  {
  }

  lemma LedgerRetiers(mem: Mem, external: set<nat>, capsules: map<nat, Capsule>, h: nat, tier: int)
    requires Ledger(mem, external, capsules) && h in capsules
    ensures Ledger(mem, external, capsules[h := capsules[h].(tier := tier)])
  {
    var cap' := capsules[h].(tier := tier);
    HeldAdds(capsules - {h}, h, capsules[h]);
    HeldAdds(capsules - {h}, h, cap');
    assert (capsules - {h})[h := capsules[h]] == capsules && (capsules - {h})[h := cap'] == capsules[h := cap'];
  }

  /** The regions cut to the sizes of the stores. */
  function Trimmed(dst: seq<Region>, stores: seq<RegionStore>): (rs: seq<Region>)
    requires |dst| == |stores|
    ensures |rs| == |dst|
  {
    seq(|dst|, i requires 0 <= i < |dst| => dst[i].(bytes := stores[i].bytes))
  }

  /** These regions are not in the buffers of these stores. */
  ghost predicate Apart(rs: seq<Region>, stores: seq<RegionStore>) {
    forall i, k :: 0 <= i < |rs| && 0 <= k < |stores| ==> rs[i].buf != stores[k].backing
  }

  lemma RootsApart(mem: Mem, external: set<nat>, capsules: map<nat, Capsule>, h: nat, rs: seq<Region>)
    requires Ledger(mem, external, capsules) && h in capsules
    requires forall i :: 0 <= i < |rs| ==> rs[i].buf in external
    ensures Apart(rs, capsules[h].stores)
  {
    forall i, k | 0 <= i < |rs| && 0 <= k < |capsules[h].stores| ensures rs[i].buf != capsules[h].stores[k].backing {
      assert capsules[h].stores[k].backing in Held(capsules);
    }
  }

  /** Writing regions of the application's buffers leaves every capsule alone. */
  lemma LedgerSurvives(mem0: Mem, mem: Mem, external: set<nat>, capsules: map<nat, Capsule>, rs: seq<Region>)
    requires Ledger(mem0, external, capsules) && OnlyIn(mem0, mem, rs)
    requires forall i :: 0 <= i < |rs| ==> rs[i].buf in external
    ensures Ledger(mem, external, capsules) && Agree(mem0, mem, Held(capsules))
  {
    forall b | b in Held(capsules) ensures b in mem && mem[b] == mem0[b] {
      forall pos: nat | pos < |mem0[b]| ensures !Covered(rs, b, pos) {
      }
      assert forall pos: nat :: pos < |mem0[b]| ==> mem[b][pos] == mem0[b][pos];
    }
    LedgerIgnores(mem0, mem, external, capsules);
  }

  lemma ProgressEnds(mem0: Mem, mem: Mem, rs: seq<Region>, datas: seq<seq<byte>>)
    requires Progress(mem0, mem, rs, datas, |rs|)
    ensures AllWithin(mem0, rs) && Fit(rs, datas) && mem == WriteAll(mem0, rs, datas) && OnlyIn(mem0, mem, rs)
  {
    assert rs[..|rs|] == rs && datas[..|rs|] == datas;
    OnlyInWritten(mem0, rs, datas);
  }

  /** The application's buffers, and the earlier capsules with theirs, are as they were. */
  ghost predicate Undisturbed(mem0: Mem, capsules0: map<nat, Capsule>, mem: Mem, capsules: map<nat, Capsule>,
                        external: set<nat>) {
    && Agree(mem0, mem, external)
    && (forall g :: g in capsules0 ==>
          (g in capsules && capsules[g] == capsules0[g] && Agree(mem0, mem, Backings(capsules0[g].stores))))
  }

  /** As before, but for where capsule h keeps its regions, and for its tier. */
  ghost predicate SameButFor(mem0: Mem, capsules0: map<nat, Capsule>, mem: Mem, capsules: map<nat, Capsule>,
                        external: set<nat>, h: nat) {
    && capsules.Keys == capsules0.Keys && Agree(mem0, mem, external)
    && (forall g :: g in capsules0 && g != h ==>
          capsules[g] == capsules0[g] && Agree(mem0, mem, Backings(capsules0[g].stores)))
    && h in capsules && SameContents(mem0, capsules0[h], mem, capsules[h])
  }

  /** The same capsule with the same bytes, kept elsewhere. */
  ghost predicate SameContents(mem0: Mem, cap0: Capsule, mem: Mem, cap: Capsule) {
    && cap.fingerprint == cap0.fingerprint && cap.meta == cap0.meta && cap.hasOrigin == cap0.hasOrigin
    && |cap.stores| == |cap0.stores|
    && forall i :: 0 <= i < |cap.stores| ==>
         && cap.stores[i].backing in mem && cap0.stores[i].backing in mem0
         && mem[cap.stores[i].backing] == mem0[cap0.stores[i].backing]
         && cap.stores[i].origin == cap0.stores[i].origin && cap.stores[i].bytes == cap0.stores[i].bytes
  }

  lemma SameJoins(mem0: Mem, capsules0: map<nat, Capsule>, mem1: Mem, capsules1: map<nat, Capsule>, mem2: Mem,
                  capsules2: map<nat, Capsule>, external: set<nat>, h: nat)
    requires SameButFor(mem0, capsules0, mem1, capsules1, external, h)
    requires SameButFor(mem1, capsules1, mem2, capsules2, external, h)
    ensures SameButFor(mem0, capsules0, mem2, capsules2, external, h)
  {
  }

  lemma MovedUndisturbs(mem: Mem, external: set<nat>, capsules: map<nat, Capsule>, place0: map<nat, nat>,
                        place: map<nat, nat>, h: nat, i: nat, nb: nat, space: nat)
    requires Ledger(mem, external, capsules) && h in capsules && i < |capsules[h].stores| && nb !in mem
    requires nb in place && place[nb] == space
    requires forall k :: k in mem && k in place0 ==> k in place && place[k] == place0[k]
    ensures var mem', capsules' :=
        Swapped(mem, capsules[h].stores[i].backing, nb), capsules[h := Moved(capsules[h], i, nb)];
      && Ledger(mem', external, capsules')
      && MovedOne(mem, capsules, place0, mem', capsules', place, external, h, i, space)
  {
    LedgerMoves(mem, external, capsules, h, i, nb);
    MovedSame(mem, external, capsules, h, i, nb);
  }

  lemma MovedSame(mem: Mem, external: set<nat>, capsules: map<nat, Capsule>, h: nat, i: nat, nb: nat)
    requires Ledger(mem, external, capsules) && h in capsules && i < |capsules[h].stores| && nb !in mem
    ensures var gone := capsules[h].stores[i].backing;
      SameButFor(mem, capsules, Swapped(mem, gone, nb), capsules[h := Moved(capsules[h], i, nb)], external, h)
  {
    var mem' := Swapped(mem, capsules[h].stores[i].backing, nb);
    MovedIsRooted(mem, external, capsules, h, i, nb);
    MovedContents(mem, capsules[h], i, nb);
    forall g | g in capsules && g != h ensures Agree(mem, mem', Backings(capsules[g].stores)) {
      MovedElsewhere(mem, external, capsules, h, i, nb, g);
    }
  }

  lemma MovedContents(mem: Mem, cap: Capsule, i: nat, nb: nat)
    requires Backed(mem, cap.stores) && i < |cap.stores| && nb !in mem
    ensures SameContents(mem, cap, Swapped(mem, cap.stores[i].backing, nb), Moved(cap, i, nb))
  {
    forall k | 0 <= k < |cap.stores| && k != i
      ensures cap.stores[k].backing != cap.stores[i].backing && cap.stores[k].backing != nb
    {
    }
  }

  lemma MovedElsewhere(mem: Mem, external: set<nat>, capsules: map<nat, Capsule>, h: nat, i: nat, nb: nat, g: nat)
    requires Ledger(mem, external, capsules) && h in capsules && i < |capsules[h].stores| && nb !in mem
    requires g in capsules && g != h
    ensures Agree(mem, Swapped(mem, capsules[h].stores[i].backing, nb), Backings(capsules[g].stores))
  {
    var gone := capsules[h].stores[i].backing;
    assert gone in Backings(capsules[h].stores);
    forall b | b in Backings(capsules[g].stores) ensures b in mem && b != gone && b != nb {
      var k :| 0 <= k < |capsules[g].stores| && capsules[g].stores[k].backing == b;
    }
  }

  lemma GrownIsUndisturbed(mem0: Mem, mem: Mem, stores: seq<RegionStore>, external: set<nat>,
                           capsules: map<nat, Capsule>, h: nat, cap: Capsule)
    requires Ledger(mem0, external, capsules) && Grown(mem0, mem, stores) && h !in capsules
    ensures Undisturbed(mem0, capsules, mem, capsules[h := cap], external)
  {
    forall g, b | g in capsules && b in Backings(capsules[g].stores) ensures b in mem0 {
      var i :| 0 <= i < |capsules[g].stores| && capsules[g].stores[i].backing == b;
      assert b in Held(capsules);
    }
  }

  /** These buffers are in this space. */
  ghost predicate AllIn(place: map<nat, nat>, stores: seq<RegionStore>, space: nat) {
    forall i :: 0 <= i < |stores| ==> stores[i].backing in place && place[stores[i].backing] == space
  }

  /** The first of the regions are where these stores came from. */
  ghost predicate StoresFrom(stores: seq<RegionStore>, regions: seq<Region>) {
    && |stores| <= |regions|
    && forall i :: 0 <= i < |stores| ==> stores[i].origin == Some(regions[i]) && stores[i].bytes == regions[i].bytes
  }

  /** The first of the regions have been copied into the stores. */
  ghost predicate Frozen(mem0: Mem, mem: Mem, place: map<nat, nat>, stores: seq<RegionStore>, regions: seq<Region>,
                        space: nat) {
    && AllWithin(mem0, regions) && Grown(mem0, mem, stores)
    && AllIn(place, stores, space) && StoresFrom(stores, regions)
    && Contents(mem, stores) == ReadAll(mem0, regions)[..|stores|]
  }

  lemma FrozenReads(mem0: Mem, mem: Mem, place: map<nat, nat>, stores: seq<RegionStore>, regions: seq<Region>,
                    space: nat)
    requires Frozen(mem0, mem, place, stores, regions, space) && |stores| < |regions|
    ensures var r := regions[|stores|]; Within(mem0, r) && Within(mem, r) && Read(mem, r) == Read(mem0, r)
    ensures Grown(mem0, mem, stores) && AllIn(place, stores, space)
  {
    assert Within(mem0, regions[|stores|]);
  }

  lemma FrozenStep(mem0: Mem, mem1: Mem, mem: Mem, place: map<nat, nat>, stores: seq<RegionStore>,
                   more: seq<RegionStore>, regions: seq<Region>, space: nat)
    requires |stores| < |regions| && AllWithin(mem0, regions)
    requires Grown(mem0, mem1, stores) && StoresFrom(stores, regions)
    requires Contents(mem1, stores) == ReadAll(mem0, regions)[..|stores|]
    requires |more| == |stores| + 1 && more[..|stores|] == stores && more[|stores|].origin == Some(regions[|stores|])
    requires Within(mem0, regions[|stores|]) && more[|stores|].bytes == regions[|stores|].bytes
    requires Grown(mem0, mem, more) && AllIn(place, more, space)
    requires Contents(mem, more) == Contents(mem1, stores) + [Read(mem0, regions[|stores|])]
    ensures Frozen(mem0, mem, place, more, regions, space)
  {
    forall i | 0 <= i < |stores| ensures more[i] == stores[i] {
      assert more[..|stores|][i] == stores[i];
    }
    var datas := ReadAll(mem0, regions);
    assert datas[..|more|] == datas[..|stores|] + [datas[|stores|]];
  }

  lemma FrozenEnds(mem0: Mem, mem: Mem, place: map<nat, nat>, stores: seq<RegionStore>, regions: seq<Region>,
                   space: nat)
    requires Frozen(mem0, mem, place, stores, regions, space) && |stores| == |regions|
    ensures Contents(mem, stores) == ReadAll(mem0, regions)
  {
  }

  ghost predicate ComesFrom(cap: Capsule, regions: seq<Region>) {
    cap.hasOrigin && |cap.stores| == |regions| && StoresFrom(cap.stores, regions)
  }

  lemma WholeBuffer(mem: Mem, b: nat, data: seq<byte>)
    requires b in mem && |mem[b]| == |data|
    ensures Write(mem, Region(b, 0, |data|), data) == mem[b := data]
  {
    assert mem[b][..0] + data + mem[b][|data|..] == data;
  }

  lemma BackingsNext(stores: seq<RegionStore>, i: nat)
    requires i < |stores|
    ensures Backings(stores[..i + 1]) == Backings(stores[..i]) + {stores[i].backing}
  {
    var next := stores[..i + 1];
    forall b | b in Backings(stores[..i]) + {stores[i].backing} ensures b in Backings(next) {
      if b in Backings(stores[..i]) {
        var k :| 0 <= k < i && stores[..i][k].backing == b;
        assert next[k].backing == b;
      } else {
        assert next[i].backing == b;
      }
    }
    forall b | b in Backings(next) ensures b in Backings(stores[..i]) + {stores[i].backing} {
      var k :| 0 <= k < |next| && next[k].backing == b;
      if k < i {
        assert stores[..i][k].backing == b;
      }
    }
  }

  /** The first i regions have been written, and nothing else. */
  ghost predicate Progress(mem0: Mem, mem: Mem, rs: seq<Region>, datas: seq<seq<byte>>, i: nat) {
    && i <= |rs| == |datas| && AllWithin(mem0, rs[..i]) && Fit(rs[..i], datas[..i])
    && mem == WriteAll(mem0, rs[..i], datas[..i])
  }

  lemma ProgressStep(mem0: Mem, mem: Mem, rs: seq<Region>, datas: seq<seq<byte>>, i: nat, left: seq<byte>)
    requires Progress(mem0, mem, rs, datas, i) && i < |rs| && Within(mem0, rs[i])
    requires |left| == |datas[i]| == rs[i].bytes
    ensures Within(mem, rs[i]) && OnlyIn(mem0, Write(mem, rs[i], left), rs[..i + 1])
    ensures left == datas[i] ==> Progress(mem0, Write(mem, rs[i], left), rs, datas, i + 1)
  {
    assert rs[..i + 1][..i] == rs[..i] && datas[..i + 1][..i] == datas[..i];
    OnlyInWritten(mem0, rs[..i], datas[..i]);
    CoveredByMore(rs[..i], rs[..i + 1]);
    OnlyInBroken(mem0, mem, rs[..i + 1], i, left);
  }

  lemma CoveredByMore(some: seq<Region>, rs: seq<Region>)
    requires some <= rs
    ensures forall buf: nat, pos: nat :: Covered(some, buf, pos) ==> Covered(rs, buf, pos)
  {
    forall buf: nat, pos: nat | Covered(some, buf, pos) ensures Covered(rs, buf, pos) {
      var k :| 0 <= k < |some| && InRegion(some[k], buf, pos);
      assert InRegion(rs[k], buf, pos);
    }
  }

  /** Regions cut to sizes that fit cover nothing new. */
  lemma TrimmedOnly(mem0: Mem, mem: Mem, dst: seq<Region>, stores: seq<RegionStore>, i: nat)
    requires |dst| == |stores| && i <= |dst| && forall k :: 0 <= k < i ==> stores[k].bytes <= dst[k].bytes
    requires OnlyIn(mem0, mem, Trimmed(dst, stores)[..i])
    ensures OnlyIn(mem0, mem, dst)
  {
    var some := Trimmed(dst, stores)[..i];
    forall buf: nat, pos: nat | Covered(some, buf, pos) ensures Covered(dst, buf, pos) {
      var k :| 0 <= k < i && InRegion(some[k], buf, pos);
      assert InRegion(dst[k], buf, pos);
    }
  }

  /** How far writing into other regions came: to the end, to a region too small, or to a
      failure of the backend. */
  ghost predicate WrittenInto(mem0: Mem, mem: Mem, dst: seq<Region>, stores: seq<RegionStore>, rc: int, done: nat)
    requires |dst| == |stores| && forall i :: 0 <= i < |stores| ==> stores[i].backing in mem0
  {
    && done <= |dst| && (rc == CAP_OK || rc == CAP_ERR_ARG || rc == CAP_ERR_BACKEND)
    && (forall k :: 0 <= k < done ==> stores[k].bytes <= dst[k].bytes)
    && (rc == CAP_OK ==> done == |dst|)
    && (rc == CAP_ERR_ARG ==> done < |dst| && dst[done].bytes < stores[done].bytes)
    && (rc == CAP_OK || rc == CAP_ERR_ARG ==> Progress(mem0, mem, Trimmed(dst, stores), Contents(mem0, stores), done))
  }

  ghost predicate IntoResult(mem0: Mem, mem: Mem, identity: nat, cap: Capsule, dst: seq<Region>, rc: int, done: nat)
    requires forall i :: 0 <= i < |cap.stores| ==> cap.stores[i].backing in mem0
  {
    if |dst| != |cap.stores| then rc == CAP_ERR_ARG && mem == mem0
    else if cap.fingerprint != identity then rc == CAP_ERR_FINGERPRINT && mem == mem0
    else WrittenInto(mem0, mem, dst, cap.stores, rc, done)
  }
}
