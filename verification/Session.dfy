/** The embedded session's store of named capsules over one capsule core. */
module Sessions {
  import opened Wrappers
  import opened Blob
  import opened Memory
  import opened Ledgers
  import opened CapsuleCores

  /** A named capsule, and whether it is restored to where it came from. */
  datatype CapsuleRec = CapsuleRec(cap: nat, originRestore: bool)

  /** A snapshot or a load that succeeded: what the name holds from then on. */
  datatype Saved = Saved(name: string, image: Image, fromLive: bool)

  function Latest(trace: seq<Saved>, name: string): Option<Saved> {
    if trace == [] then None
    else if trace[|trace| - 1].name == name then Some(trace[|trace| - 1])
    else Latest(trace[..|trace| - 1], name)
  }

  /** Every live capsule has exactly one name. */
  ghost predicate Table(names: map<string, CapsuleRec>, capsules: map<nat, Capsule>) {
    && (forall n :: n in names ==> names[n].cap in capsules)
    && (forall n, m :: n in names && m in names && n != m ==> names[n].cap != names[m].cap)
    && (forall h :: h in capsules ==> exists n :: n in names && names[n].cap == h)
  }

  /** What the name holds is what was last saved under it. */
  ghost predicate Holds(rec: CapsuleRec, saved: Option<Saved>, mem: Mem, capsules: map<nat, Capsule>,
                        regions: seq<Region>) {
    && saved.Some? && rec.cap in capsules
    && var cap := capsules[rec.cap];
       && rec.originRestore == saved.value.fromLive == cap.hasOrigin
       && (cap.hasOrigin ==> ComesFrom(cap, regions) && Consistent(regions, saved.value.image.regions))
       && Backed(mem, cap.stores) && ImageOf(mem, cap) == saved.value.image
  }

  ghost predicate AllHold(names: map<string, CapsuleRec>, trace: seq<Saved>, mem: Mem, capsules: map<nat, Capsule>,
                        regions: seq<Region>) {
    && (forall n: string :: Latest(trace, n).Some? ==> n in names)
    && (forall n :: n in names ==> Holds(names[n], Latest(trace, n), mem, capsules, regions))
  }

  ghost predicate LiveRegions(mem: Mem, external: set<nat>, regions: seq<Region>) {
    forall i :: 0 <= i < |regions| ==> regions[i].buf in external && Within(mem, regions[i])
  }

  lemma LatestAdds(trace: seq<Saved>, event: Saved, name: string)
    ensures Latest(trace + [event], name) == if event.name == name then Some(event) else Latest(trace, name)
  {
    assert (trace + [event])[..|trace|] == trace;
  }

  lemma TableAdds(names: map<string, CapsuleRec>, capsules: map<nat, Capsule>, name: string, rec: CapsuleRec)
    requires rec.cap in capsules && Table(names, capsules - {rec.cap}) && name !in names
    ensures Table(names[name := rec], capsules)
  {
    var more := names[name := rec];
    forall h | h in capsules ensures exists n :: n in more && more[n].cap == h {
      if h == rec.cap {
        assert name in more && more[name].cap == h;
      } else {
        assert h in capsules - {rec.cap};
        var n :| n in names && names[n].cap == h;
        assert n in more && more[n].cap == h;
      }
    }
  }

  lemma TableRemoves(names: map<string, CapsuleRec>, capsules: map<nat, Capsule>, name: string)
    requires Table(names, capsules) && name in names
    ensures Table(names - {name}, capsules - {names[name].cap})
  {
    var less := names - {name};
    forall h | h in capsules - {names[name].cap} ensures exists n :: n in less && less[n].cap == h {
      var n :| n in names && names[n].cap == h;
      assert n in less && less[n].cap == h;
    }
  }

  /** A capsule whose buffers were not touched still holds what it held. */
  lemma HoldsSurvives(rec: CapsuleRec, saved: Option<Saved>, mem0: Mem, capsules0: map<nat, Capsule>,
                      mem: Mem, capsules: map<nat, Capsule>, regions: seq<Region>)
    requires Holds(rec, saved, mem0, capsules0, regions)
    requires rec.cap in capsules && capsules[rec.cap] == capsules0[rec.cap]
    requires Agree(mem0, mem, Backings(capsules0[rec.cap].stores))
    ensures Holds(rec, saved, mem, capsules, regions)
  {
    var stores := capsules[rec.cap].stores;
    forall i | 0 <= i < |stores| ensures stores[i].backing in mem && mem[stores[i].backing] == mem0[stores[i].backing] {
      assert stores[i].backing in Backings(stores);
    }
    assert Contents(mem, stores) == Contents(mem0, stores);
  }

  /** These capsules and their buffers are as they were. */
  ghost predicate Survive(names: map<string, CapsuleRec>, mem0: Mem, capsules0: map<nat, Capsule>, mem: Mem,
                        capsules: map<nat, Capsule>) {
    forall n :: n in names ==>
      && names[n].cap in capsules && names[n].cap in capsules0 && capsules[names[n].cap] == capsules0[names[n].cap]
      && Agree(mem0, mem, Backings(capsules[names[n].cap].stores))
  }

  lemma LiveRegionsStay(mem0: Mem, mem: Mem, external: set<nat>, regions: seq<Region>)
    requires LiveRegions(mem0, external, regions) && Agree(mem0, mem, external)
    ensures LiveRegions(mem, external, regions)
  {
  }

  /** Every other name still holds what it held, after one was put in place. */
  lemma Replaced(names: map<string, CapsuleRec>, trace: seq<Saved>, mem0: Mem, capsules0: map<nat, Capsule>,
                 mem: Mem, capsules: map<nat, Capsule>, regions: seq<Region>, event: Saved, h: nat)
    requires AllHold(names, trace, mem0, capsules0, regions)
    requires Survive(names - {event.name}, mem0, capsules0, mem, capsules)
    requires Holds(CapsuleRec(h, event.fromLive), Some(event), mem, capsules, regions)
    ensures AllHold(names[event.name := CapsuleRec(h, event.fromLive)], trace + [event], mem, capsules, regions)
  {
    var more := names[event.name := CapsuleRec(h, event.fromLive)];
    forall n: string ensures Latest(trace + [event], n).Some? ==> n in more {
      LatestAdds(trace, event, n);
    }
    forall n | n in more ensures Holds(more[n], Latest(trace + [event], n), mem, capsules, regions) {
      LatestAdds(trace, event, n);
      if n != event.name {
        assert n in names - {event.name};
        HoldsSurvives(names[n], Latest(trace, n), mem0, capsules0, mem, capsules, regions);
      }
    }
  }

  /** The regions cut to the sizes of what is written to them. */
  function CutTo(regions: seq<Region>, datas: seq<seq<byte>>): (rs: seq<Region>)
    requires |regions| == |datas|
    ensures Fit(rs, datas)
  {
    seq(|regions|, i requires 0 <= i < |regions| => regions[i].(bytes := |datas[i]|))
  }

  /** Each piece fits its region. */
  predicate HaveRoom(regions: seq<Region>, datas: seq<seq<byte>>) {
    |regions| == |datas| && forall i :: 0 <= i < |datas| ==> |datas[i]| <= regions[i].bytes
  }

  /** mem is mem0 with these pieces written to the regions, each of which has room. */
  ghost predicate Rewrites(mem0: Mem, mem: Mem, regions: seq<Region>, datas: seq<seq<byte>>) {
    && HaveRoom(regions, datas) && AllWithin(mem0, CutTo(regions, datas))
    && mem == WriteAll(mem0, CutTo(regions, datas), datas)
  }

  /** Pieces of the regions' own sizes can all be read back once written, exactly when they
      agree where regions overlap. */
  lemma RewritesReadBack(mem0: Mem, mem: Mem, regions: seq<Region>, datas: seq<seq<byte>>)
    requires Rewrites(mem0, mem, regions, datas) && Fit(regions, datas)
    ensures AllWithin(mem, regions) && (ReadAll(mem, regions) == datas <==> Consistent(regions, datas))
    ensures OnlyIn(mem0, mem, regions)
  {
    assert CutTo(regions, datas) == regions;
    ReadsBack(mem0, regions, datas);
    OnlyInWritten(mem0, regions, datas);
  }

  lemma RewritesRead(mem0: Mem, mem: Mem, regions: seq<Region>, datas: seq<seq<byte>>)
    requires Rewrites(mem0, mem, regions, datas)
    ensures Consistent(regions, datas) ==> AllWithin(mem, regions) && ReadAll(mem, regions) == datas
  {
    if Fit(regions, datas) {
      RewritesReadBack(mem0, mem, regions, datas);
    }
  }

  /** Bytes that one session serialized are what another with the same identity loads. */
  lemma ShippedRegions(img: Image, identity: nat)
    requires Wire(img) && img.fingerprint == identity && |img.regions| <= MAX_REGIONS
    ensures Parse(Encode(img), identity).Some? && Parse(Encode(img), identity).value.regions == img.regions
  {
    RoundTrip(img, identity);
  }

  /** What a snapshot of these regions saves. */
  function Snapped(identity: nat, mem: Mem, regions: seq<Region>): Image
    requires AllWithin(mem, regions)
  {
    Image(identity, TIER_HOST, [], ReadAll(mem, regions))
  }

  /** Whether a restore gets as far as writing: something was saved under the name, for this
      identity, and a loaded capsule has as many regions as are declared. */
  ghost predicate Restorable(saved: Option<Saved>, identity: nat, regions: seq<Region>) {
    && saved.Some? && saved.value.image.fingerprint == identity
    && (saved.value.fromLive || |saved.value.image.regions| == |regions|)
  }

  /** How a restore ends: refused, or failed by the backend, or stopped at a region without
      room, or as the wait for the streams ends. */
  ghost function RestoreStatus(saved: Option<Saved>, identity: nat, regions: seq<Region>, faulted: bool,
                               synced: int): int {
    if !Restorable(saved, identity, regions) then
      if saved.None? || (!saved.value.fromLive && |saved.value.image.regions| != |regions|) then CAP_ERR_ARG
      else CAP_ERR_FINGERPRINT
    else if faulted then CAP_ERR_BACKEND
    else if !HaveRoom(regions, saved.value.image.regions) then CAP_ERR_ARG
    else synced
  }

  class Session {
    const core: Context
    /** The model's declared state. */
    const regions: seq<Region>
    /** Whether every stage is a captured graph and there is declared state at all. */
    const stateful: bool
    var names: map<string, CapsuleRec>
    ghost var trace: seq<Saved>

    ghost predicate Valid()
      reads this, core
    {
      && core.Valid() && LiveRegions(core.mem, core.external, regions)
      && Table(names, core.capsules)
      && AllHold(names, trace, core.mem, core.capsules, regions)
      && (names != map[] ==> stateful)
    }

    constructor (core: Context, regions: seq<Region>, stateful: bool)
      requires core.Valid() && core.capsules == map[] && LiveRegions(core.mem, core.external, regions)
      ensures Valid() && this.core == core && this.regions == regions && this.stateful == stateful
      ensures names == map[] && trace == []
    {
      this.core, this.regions, this.stateful := core, regions, stateful;
      names, trace := map[], [];
    }

    /** Put a new capsule under a name, in place of the one that had it. */
    method Install(name: string, h: nat, originRestore: bool, ghost image: Image)
      requires core.Valid() && LiveRegions(core.mem, core.external, regions) && stateful
      requires h in core.capsules && Table(names, core.capsules - {h})
      requires AllHold(names, trace, core.mem, core.capsules, regions)
      requires Holds(CapsuleRec(h, originRestore), Some(Saved(name, image, originRestore)), core.mem, core.capsules,
                     regions)
      modifies this, core`mem, core`capsules
      ensures Valid() && trace == old(trace) + [Saved(name, image, originRestore)]
      ensures Agree(old(core.mem), core.mem, core.external)
    {
      ghost var names0, mem0, capsules0 := names, core.mem, core.capsules;
      Evict(name, h);
      var rec := CapsuleRec(h, originRestore);
      TableAdds(names, core.capsules, name, rec);
      HoldsSurvives(rec, Some(Saved(name, image, originRestore)), mem0, capsules0, core.mem, core.capsules, regions);
      Replaced(names0, trace, mem0, capsules0, core.mem, core.capsules, regions, Saved(name, image, originRestore), h);
      LiveRegionsStay(mem0, core.mem, core.external, regions);
      assert names0[name := rec] == names[name := rec];
      names := names[name := rec];
      trace := trace + [Saved(name, image, originRestore)];
    }

    /** Drop the capsule of this name, if there is one, but keep the one that is to come. */
    method Evict(name: string, ghost h: nat)
      requires core.Valid() && h in core.capsules && Table(names, core.capsules - {h})
      modifies `names, core`mem, core`capsules
      ensures core.Valid() && names == old(names) - {name}
      ensures h in core.capsules && core.capsules[h] == old(core.capsules)[h] && Table(names, core.capsules - {h})
      ensures Survive(names, old(core.mem), old(core.capsules), core.mem, core.capsules)
      ensures Agree(old(core.mem), core.mem, core.external)
      ensures Agree(old(core.mem), core.mem, Backings(core.capsules[h].stores))
    {
      UndisturbedAtFirst(core.mem, core.external, core.capsules);
      if name in names {
        var gone := names[name].cap;
        TableRemoves(names, core.capsules - {h}, name);
        assert core.capsules - {h} - {gone} == core.capsules - {gone} - {h};
        core.Drop(gone);
        names := names - {name};
      }
    }

    /** Freeze the declared state under a name. `synced` is how the wait for the streams
        ended. A snapshot that fails leaves every name as it was. */
    method Snapshot(name: string, synced: int) returns (rc: int)
      requires Valid()
      modifies this, core
      ensures Valid() && Agree(old(core.mem), core.mem, core.external)
      ensures rc == if !stateful then CAP_ERR_ARG else if core.Faulted(old(core.asked)) then CAP_ERR else synced
      ensures rc != CAP_OK ==> trace == old(trace) && names == old(names) && core.mem == old(core.mem)
      ensures rc == CAP_OK ==>
        && AllWithin(old(core.mem), regions) && core.identity == old(core.identity)
        && trace == old(trace) + [Saved(name, Snapped(core.identity, old(core.mem), regions), true)]
    {
      if !stateful {
        return CAP_ERR_ARG;
      }
      var h := core.Snapshot(regions, [], TIER_HOST);
      if h.None? {
        return CAP_ERR;
      }
      LiveRegionsStay(old(core.mem), core.mem, core.external, regions);
      if synced != CAP_OK {
        ghost var mem1, capsules1 := core.mem, core.capsules;
        GoneAgain(old(core.mem), old(core.capsules), core.mem, core.capsules, core.external, h.value);
        core.Drop(h.value);
        SameAgain(old(core.mem), mem1, core.mem, core.external, core.capsules, capsules1);
        return synced;
      }
      AllHoldGrows(names, trace, old(core.mem), old(core.capsules), core.mem, core.capsules, core.external, regions,
                   h.value);
      ReadIsConsistent(old(core.mem), regions);
      Install(name, h.value, true, Snapped(core.identity, old(core.mem), regions));
      rc := CAP_OK;
    }

    /** Take a capsule out of a blob and put it under a name. */
    method Load(name: string, blob: seq<byte>) returns (rc: int)
      requires Valid()
      modifies this, core
      ensures Valid() && Agree(old(core.mem), core.mem, core.external) && core.identity == old(core.identity)
      ensures rc == if blob == [] || !stateful then CAP_ERR_ARG
                    else if Parse(blob, core.identity).None? || core.Faulted(old(core.asked)) then CAP_ERR_FORMAT
                    else CAP_OK
      ensures rc != CAP_OK ==> trace == old(trace) && names == old(names) && core.mem == old(core.mem)
      ensures rc == CAP_OK ==> trace == old(trace) + [Saved(name, Parse(blob, core.identity).value, false)]
    {
      if blob == [] || !stateful {
        return CAP_ERR_ARG;
      }
      var h := core.Load(blob);
      if h.None? {
        return CAP_ERR_FORMAT;
      }
      LiveRegionsStay(old(core.mem), core.mem, core.external, regions);
      AllHoldGrows(names, trace, old(core.mem), old(core.capsules), core.mem, core.capsules, core.external, regions,
                   h.value);
      Install(name, h.value, false, Parse(blob, core.identity).value);
      rc := CAP_OK;
    }

    /** Write the named capsule over the live state. What it restores is what was last saved
        under the name: every region then reads as it was saved, by a snapshot always, by a
        load when the pieces are of the regions' sizes and agree where regions overlap. */
    method Restore(name: string, synced: int) returns (rc: int)
      requires Valid()
      modifies core`asked, core`mem
      ensures Valid() && OnlyIn(old(core.mem), core.mem, regions)
      ensures rc == RestoreStatus(Latest(trace, name), core.identity, regions, core.Faulted(old(core.asked)), synced)
      ensures !Restorable(Latest(trace, name), core.identity, regions) ==> core.mem == old(core.mem)
      ensures rc == CAP_OK ==> Rewrites(old(core.mem), core.mem, regions, Latest(trace, name).value.image.regions)
      ensures rc == CAP_OK ==>
        Latest(trace, name).value.fromLive || Consistent(regions, Latest(trace, name).value.image.regions) ==>
          AllWithin(core.mem, regions) && ReadAll(core.mem, regions) == Latest(trace, name).value.image.regions
    {
      if name !in names {
        return CAP_ERR_ARG;
      }
      var rec := names[name];
      if rec.originRestore {
        OriginsAre(core.capsules[rec.cap], regions);
        rc := core.Restore(rec.cap);
        OriginRewrites(old(core.mem), regions, Contents(old(core.mem), core.capsules[rec.cap].stores));
      } else {
        ghost var done;
        rc, done := core.RestoreInto(rec.cap, regions);
        if rc == CAP_OK {
          IntoRewrites(old(core.mem), core.mem, regions, core.capsules[rec.cap].stores, done);
        }
      }
      LiveRegionsHold(old(core.mem), core.mem, core.external, regions);
      AllHoldStays(names, trace, old(core.mem), core.mem, core.capsules, regions);
      if rc == CAP_OK {
        RewritesRead(old(core.mem), core.mem, regions, Latest(trace, name).value.image.regions);
        rc := synced;
      }
    }

    /** Write the named capsule out as bytes: the encoding of what was last saved under the
        name. Without a place to write to, only say how long it would be. */
    method Serialize(name: string, out: array?<byte>, len: nat) returns (rc: int, written: nat)
      requires Valid() && (out != null ==> len <= out.Length)
      modifies core`asked, if out == null then {} else {out}
      ensures Valid()
      ensures Latest(trace, name).None? ==>
        rc == CAP_ERR_ARG && written == len && (out != null ==> out[..] == old(out[..]))
      ensures Latest(trace, name).Some? ==>
        var blob := Encode(Latest(trace, name).value.image);
        if out == null then rc == CAP_OK && written == |blob|
        else if len < |blob| then rc == CAP_ERR_ARG && written == len && out[..] == old(out[..])
        else
          && (rc == if core.Faulted(old(core.asked)) then CAP_ERR_BACKEND else CAP_OK)
          && (rc == CAP_OK ==> written == |blob| && out[..written] == blob)
          && (rc != CAP_OK ==> written == len)
          && (forall k :: |blob| <= k < out.Length ==> out[k] == old(out[k]))
    {
      if name !in names {
        return CAP_ERR_ARG, len;
      }
      assert core.ImageOf(names[name].cap) == Latest(trace, name).value.image;
      rc, written := core.Serialize(names[name].cap, out, len);
    }

    /** Everything else a session does to the live state: inputs, swaps and ticks write the
        application's buffers as they please, and no capsule is affected. */
    method Overwrite(live: Mem)
      requires Valid() && SameShape(core.mem, live) && Agree(core.mem, live, Held(core.capsules))
      modifies core`mem
      ensures Valid() && core.mem == live
    {
      LedgerIgnores(core.mem, live, core.external, core.capsules);
      LiveRegionsHold(core.mem, live, core.external, regions);
      AllHoldStays(names, trace, core.mem, live, core.capsules, regions);
      core.mem := live;
    }

    method Forget(name: string)
      requires core.Valid() && Table(names, core.capsules) && name in names
      modifies `names, core`mem, core`capsules
      ensures core.Valid() && Table(names, core.capsules) && names == old(names) - {name}
      ensures Agree(old(core.mem), core.mem, core.external)
    {
      TableRemoves(names, core.capsules, name);
      core.Drop(names[name].cap);
      names := names - {name};
    }

    /** Drop every capsule. The buffers that are left are the application's, untouched. */
    method Close()
      requires Valid()
      modifies `names, core`mem, core`capsules
      ensures names == map[] && core.capsules == map[] && core.Valid()
      ensures core.mem.Keys == core.external && Agree(old(core.mem), core.mem, core.external)
    {
      while names != map[]
        invariant core.Valid() && Table(names, core.capsules)
        invariant Agree(old(core.mem), core.mem, core.external)
        modifies `names, core`mem, core`capsules
        decreases names.Keys
      {
        var name :| name in names;
        Forget(name);
      }
      NothingLeft(names, core.mem, core.external, core.capsules);
    }
  }

  lemma NothingLeft(names: map<string, CapsuleRec>, mem: Mem, external: set<nat>, capsules: map<nat, Capsule>)
    requires Table(names, capsules) && names == map[] && Ledger(mem, external, capsules)
    ensures capsules == map[] && mem.Keys == external
  {
    assert forall h :: h in capsules ==> false;
    assert capsules.Keys == {} && Held(capsules) == {};
  }

  lemma AllHoldGrows(names: map<string, CapsuleRec>, trace: seq<Saved>, mem0: Mem, capsules0: map<nat, Capsule>,
                     mem: Mem, capsules: map<nat, Capsule>, external: set<nat>, regions: seq<Region>, h: nat)
    requires Table(names, capsules0) && AllHold(names, trace, mem0, capsules0, regions)
    requires Undisturbed(mem0, capsules0, mem, capsules, external)
    requires h !in capsules0 && capsules.Keys == capsules0.Keys + {h}
    ensures Table(names, capsules - {h}) && AllHold(names, trace, mem, capsules, regions)
  {
    assert (capsules - {h}).Keys == capsules0.Keys;
    forall n | n in names ensures Holds(names[n], Latest(trace, n), mem, capsules, regions) {
      HoldsSurvives(names[n], Latest(trace, n), mem0, capsules0, mem, capsules, regions);
    }
  }

  lemma AllHoldStays(names: map<string, CapsuleRec>, trace: seq<Saved>, mem0: Mem, mem: Mem,
                     capsules: map<nat, Capsule>, regions: seq<Region>)
    requires AllHold(names, trace, mem0, capsules, regions) && Agree(mem0, mem, Held(capsules))
    ensures AllHold(names, trace, mem, capsules, regions)
  {
    forall n | n in names ensures Holds(names[n], Latest(trace, n), mem, capsules, regions) {
      var stores := capsules[names[n].cap].stores;
      forall i | 0 <= i < |stores| ensures stores[i].backing in Held(capsules) {
      }
      assert Agree(mem0, mem, Backings(stores));
      HoldsSurvives(names[n], Latest(trace, n), mem0, capsules, mem, capsules, regions);
    }
  }

  lemma LiveRegionsHold(mem0: Mem, mem: Mem, external: set<nat>, regions: seq<Region>)
    requires LiveRegions(mem0, external, regions) && SameShape(mem0, mem)
    ensures LiveRegions(mem, external, regions)
  {
  }

  /** Without the capsule that was added, the table of capsules is as it was. */
  lemma GoneAgain(mem0: Mem, capsules0: map<nat, Capsule>, mem: Mem, capsules: map<nat, Capsule>, external: set<nat>,
                  h: nat)
    requires Undisturbed(mem0, capsules0, mem, capsules, external)
    requires h !in capsules0 && capsules.Keys == capsules0.Keys + {h}
    ensures capsules - {h} == capsules0
  {
  }

  /** A capsule came and went, and everything is as it was. */
  lemma SameAgain(mem0: Mem, mem1: Mem, mem: Mem, external: set<nat>, capsules: map<nat, Capsule>,
                  capsules1: map<nat, Capsule>)
    requires Ledger(mem0, external, capsules) && Ledger(mem, external, capsules)
    requires Undisturbed(mem0, capsules, mem1, capsules1, external)
    requires Undisturbed(mem1, capsules, mem, capsules, external)
    ensures mem == mem0
  {
    assert mem.Keys == mem0.Keys;
    forall b | b in mem ensures mem[b] == mem0[b] {
      if b !in external {
        var g, i :| g in capsules && 0 <= i < |capsules[g].stores| && capsules[g].stores[i].backing == b;
        assert b in Backings(capsules[g].stores);
      }
    }
  }

  lemma OriginsAre(cap: Capsule, regions: seq<Region>)
    requires ComesFrom(cap, regions)
    ensures (forall i :: 0 <= i < |cap.stores| ==> cap.stores[i].origin.Some?) && Origins(cap.stores) == regions
  {
  }

  lemma OriginRewrites(mem0: Mem, regions: seq<Region>, datas: seq<seq<byte>>)
    requires Fit(regions, datas) && AllWithin(mem0, regions)
    ensures Rewrites(mem0, WriteAll(mem0, regions, datas), regions, datas)
  {
    assert CutTo(regions, datas) == regions;
  }

  lemma IntoRewrites(mem0: Mem, mem: Mem, regions: seq<Region>, stores: seq<RegionStore>, done: nat)
    requires |regions| == |stores| && Backed(mem0, stores) && AllWithin(mem0, regions)
    requires WrittenInto(mem0, mem, regions, stores, CAP_OK, done)
    ensures Rewrites(mem0, mem, regions, Contents(mem0, stores))
  {
    var datas := Contents(mem0, stores);
    assert Trimmed(regions, stores) == CutTo(regions, datas);
    ProgressEnds(mem0, mem, CutTo(regions, datas), datas);
  }

  lemma UndisturbedAtFirst(mem: Mem, external: set<nat>, capsules: map<nat, Capsule>)
    requires Ledger(mem, external, capsules)
    ensures Undisturbed(mem, capsules, mem, capsules, external)
  {
    forall g, b | g in capsules && b in Backings(capsules[g].stores) ensures b in mem {
      var i :| 0 <= i < |capsules[g].stores| && capsules[g].stores[i].backing == b;
    }
  }
}
