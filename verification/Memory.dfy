/** Buffers, regions of them that may overlap, and what writing a list of regions does. */
module Memory {
  import opened Blob

  /** Every live buffer and its bytes. */
  type Mem = map<nat, seq<byte>>

  datatype Region = Region(buf: nat, off: nat, bytes: nat)

  predicate Within(m: Mem, r: Region) {
    r.buf in m && r.off + r.bytes <= |m[r.buf]|
  }

  ghost predicate AllWithin(m: Mem, rs: seq<Region>) {
    forall i :: 0 <= i < |rs| ==> Within(m, rs[i])
  }

  predicate InRegion(r: Region, buf: nat, pos: nat) {
    r.buf == buf && r.off <= pos < r.off + r.bytes
  }

  ghost predicate Covered(rs: seq<Region>, buf: nat, pos: nat) {
    exists i :: 0 <= i < |rs| && InRegion(rs[i], buf, pos)
  }

  function Read(m: Mem, r: Region): (data: seq<byte>)
    requires Within(m, r)
    ensures |data| == r.bytes
  {
    m[r.buf][r.off..r.off + r.bytes]
  }

  function Write(m: Mem, r: Region, data: seq<byte>): Mem
    requires Within(m, r) && |data| == r.bytes
  {
    m[r.buf := m[r.buf][..r.off] + data + m[r.buf][r.off + r.bytes..]]
  }

  /** The same buffers with the same sizes. */
  ghost predicate SameShape(a: Mem, b: Mem) {
    a.Keys == b.Keys && forall k :: k in a ==> |a[k]| == |b[k]|
  }

  function ReadAll(m: Mem, rs: seq<Region>): (datas: seq<seq<byte>>)
    requires AllWithin(m, rs)
    ensures |datas| == |rs|
  {
    seq(|rs|, i requires 0 <= i < |rs| => Read(m, rs[i]))
  }

  ghost predicate Fit(rs: seq<Region>, datas: seq<seq<byte>>) {
    |rs| == |datas| && forall i :: 0 <= i < |rs| ==> |datas[i]| == rs[i].bytes
  }

  /** Write the regions one after another, so that a later one wins where two overlap. */
  ghost function WriteAll(m: Mem, rs: seq<Region>, datas: seq<seq<byte>>): (r: Mem)
    requires AllWithin(m, rs) && Fit(rs, datas)
    ensures SameShape(r, m)
    decreases |rs|
  {
    if rs == [] then m
    else
      var last := |rs| - 1;
      var front := WriteAll(m, rs[..last], datas[..last]);
      assert Within(m, rs[last]);
      Write(front, rs[last], datas[last])
  }

  /** A buffer without a region is not written. */
  lemma {:induction false} WriteAllApart(m: Mem, rs: seq<Region>, datas: seq<seq<byte>>, buf: nat)
    requires AllWithin(m, rs) && Fit(rs, datas) && buf in m
    requires forall i :: 0 <= i < |rs| ==> rs[i].buf != buf
    ensures WriteAll(m, rs, datas)[buf] == m[buf]
    decreases |rs|
  {
    if rs != [] {
      WriteAllApart(m, rs[..|rs| - 1], datas[..|rs| - 1], buf);
    }
  }

  /** Nothing outside these regions differs. */
  ghost predicate OnlyIn(m: Mem, w: Mem, rs: seq<Region>) {
    SameShape(m, w)
    && forall buf: nat, pos: nat :: buf in m && pos < |m[buf]| && !Covered(rs, buf, pos) ==> w[buf][pos] == m[buf][pos]
  }

  lemma OnlyInWritten(m: Mem, rs: seq<Region>, datas: seq<seq<byte>>)
    requires AllWithin(m, rs) && Fit(rs, datas)
    ensures OnlyIn(m, WriteAll(m, rs, datas), rs)
  {
    forall buf: nat, pos: nat | buf in m && pos < |m[buf]| && !Covered(rs, buf, pos)
      ensures WriteAll(m, rs, datas)[buf][pos] == m[buf][pos]
    {
      WriteAllElsewhere(m, rs, datas, buf, pos);
    }
  }

  /** Also when the last of the writes went wrong. */
  lemma OnlyInBroken(m: Mem, w: Mem, rs: seq<Region>, i: nat, left: seq<byte>)
    requires OnlyIn(m, w, rs) && i < |rs| && Within(w, rs[i]) && |left| == rs[i].bytes
    ensures OnlyIn(m, Write(w, rs[i], left), rs)
  {
    forall buf: nat, pos: nat | buf in m && pos < |m[buf]| && !Covered(rs, buf, pos)
      ensures Write(w, rs[i], left)[buf][pos] == m[buf][pos]
    {
      WriteByte(w, rs[i], left, buf, pos);
      assert !InRegion(rs[i], buf, pos);
    }
  }

  lemma WriteByte(m: Mem, r: Region, data: seq<byte>, buf: nat, pos: nat)
    requires Within(m, r) && |data| == r.bytes && buf in m && pos < |m[buf]|
    ensures var w := Write(m, r, data);
      buf in w && |w[buf]| == |m[buf]|
      && w[buf][pos] == if InRegion(r, buf, pos) then data[pos - r.off] else m[buf][pos]
  {
  }

  /** Only the regions are written. */
  lemma {:induction false} WriteAllElsewhere(m: Mem, rs: seq<Region>, datas: seq<seq<byte>>, buf: nat, pos: nat)
    requires AllWithin(m, rs) && Fit(rs, datas) && buf in m && pos < |m[buf]| && !Covered(rs, buf, pos)
    ensures WriteAll(m, rs, datas)[buf][pos] == m[buf][pos]
    decreases |rs|
  {
    if rs != [] {
      var last := |rs| - 1;
      assert !InRegion(rs[last], buf, pos);
      forall i | 0 <= i < last ensures !InRegion(rs[..last][i], buf, pos) {
        assert !InRegion(rs[i], buf, pos);
      }
      WriteAllElsewhere(m, rs[..last], datas[..last], buf, pos);
      WriteByte(WriteAll(m, rs[..last], datas[..last]), rs[last], datas[last], buf, pos);
    }
  }

  lemma ShapeKeepsWithin(a: Mem, b: Mem, rs: seq<Region>)
    requires AllWithin(a, rs) && SameShape(a, b)
    ensures AllWithin(b, rs)
  {
    forall i | 0 <= i < |rs| ensures Within(b, rs[i]) { assert Within(a, rs[i]); }
  }

  lemma CoveredByLast(rs: seq<Region>, buf: nat, pos: nat)
    requires rs != []
    ensures Covered(rs, buf, pos) <==> InRegion(rs[|rs| - 1], buf, pos) || Covered(rs[..|rs| - 1], buf, pos)
  {
    var front := rs[..|rs| - 1];
    if i :| 0 <= i < |front| && InRegion(front[i], buf, pos) {
      assert InRegion(rs[i], buf, pos);
    }
    if i :| 0 <= i < |rs| && InRegion(rs[i], buf, pos) {
      if i < |front| {
        assert InRegion(front[i], buf, pos);
      }
    }
  }

  /** A snapshot of the regions written back over whatever the buffers hold by then: every
      byte of a declared region is as it was at the snapshot, every other byte is left as it
      is, however the regions overlap. */
  lemma {:induction false} RestoreIsExact(past: Mem, now: Mem, rs: seq<Region>, buf: nat, pos: nat)
    requires AllWithin(past, rs) && SameShape(past, now) && buf in now && pos < |now[buf]|
    ensures AllWithin(now, rs)
    ensures WriteAll(now, rs, ReadAll(past, rs))[buf][pos] ==
      if Covered(rs, buf, pos) then past[buf][pos] else now[buf][pos]
    decreases |rs|
  {
    ShapeKeepsWithin(past, now, rs);
    if rs != [] {
      var last := |rs| - 1;
      var datas := ReadAll(past, rs);
      assert ReadAll(past, rs[..last]) == datas[..last];
      RestoreIsExact(past, now, rs[..last], buf, pos);
      CoveredByLast(rs, buf, pos);
      assert Within(past, rs[last]);
      WriteByte(WriteAll(now, rs[..last], datas[..last]), rs[last], datas[last], buf, pos);
    }
  }

  /** The pieces agree wherever their regions overlap. */
  ghost predicate Consistent(rs: seq<Region>, datas: seq<seq<byte>>) {
    Fit(rs, datas)
    && forall i: nat, j: nat, buf: nat, pos: nat ::
         i < |rs| && j < |rs| && InRegion(rs[i], buf, pos) && InRegion(rs[j], buf, pos) ==>
           datas[i][pos - rs[i].off] == datas[j][pos - rs[j].off]
  }

  /** What is read from one memory is consistent. */
  lemma ReadIsConsistent(past: Mem, rs: seq<Region>)
    requires AllWithin(past, rs)
    ensures Consistent(rs, ReadAll(past, rs))
  {
    forall i: nat, j: nat, buf: nat, pos: nat |
      i < |rs| && j < |rs| && InRegion(rs[i], buf, pos) && InRegion(rs[j], buf, pos)
      ensures ReadAll(past, rs)[i][pos - rs[i].off] == ReadAll(past, rs)[j][pos - rs[j].off]
    {
      assert Within(past, rs[i]) && Within(past, rs[j]);
    }
  }

  lemma ConsistentFront(rs: seq<Region>, datas: seq<seq<byte>>, n: nat)
    requires Consistent(rs, datas) && n <= |rs|
    ensures Consistent(rs[..n], datas[..n])
  {
    forall i: nat, j: nat, buf: nat, pos: nat |
      i < n && j < n && InRegion(rs[..n][i], buf, pos) && InRegion(rs[..n][j], buf, pos)
      ensures datas[..n][i][pos - rs[..n][i].off] == datas[..n][j][pos - rs[..n][j].off]
    {
      assert InRegion(rs[i], buf, pos) && InRegion(rs[j], buf, pos);
    }
  }

  /** Consistent pieces are all there once they are written. */
  lemma {:induction false} WrittenByte(m: Mem, rs: seq<Region>, datas: seq<seq<byte>>, i: nat, pos: nat)
    requires AllWithin(m, rs) && Consistent(rs, datas) && i < |rs| && InRegion(rs[i], rs[i].buf, pos)
    ensures AllWithin(WriteAll(m, rs, datas), rs)
    ensures WriteAll(m, rs, datas)[rs[i].buf][pos] == datas[i][pos - rs[i].off]
    decreases |rs|
  {
    var last := |rs| - 1;
    ShapeKeepsWithin(m, WriteAll(m, rs, datas), rs);
    assert Within(m, rs[i]) && Within(m, rs[last]);
    WriteByte(WriteAll(m, rs[..last], datas[..last]), rs[last], datas[last], rs[i].buf, pos);
    if !InRegion(rs[last], rs[i].buf, pos) {
      ConsistentFront(rs, datas, last);
      WrittenByte(m, rs[..last], datas[..last], i, pos);
    }
  }

  /** Pieces written in turn can all be read back exactly when they are consistent. */
  lemma ReadsBack(m: Mem, rs: seq<Region>, datas: seq<seq<byte>>)
    requires AllWithin(m, rs) && Fit(rs, datas)
    ensures AllWithin(WriteAll(m, rs, datas), rs)
    ensures ReadAll(WriteAll(m, rs, datas), rs) == datas <==> Consistent(rs, datas)
  {
    var w := WriteAll(m, rs, datas);
    ShapeKeepsWithin(m, w, rs);
    if Consistent(rs, datas) {
      forall i | 0 <= i < |rs| ensures ReadAll(w, rs)[i] == datas[i] {
        ReadsBackOne(m, rs, datas, i);
      }
    } else if ReadAll(w, rs) == datas {
      ReadIsConsistent(w, rs);
    }
  }

  lemma ReadsBackOne(m: Mem, rs: seq<Region>, datas: seq<seq<byte>>, i: nat)
    requires AllWithin(m, rs) && Consistent(rs, datas) && i < |rs|
    ensures Within(WriteAll(m, rs, datas), rs[i]) && Read(WriteAll(m, rs, datas), rs[i]) == datas[i]
  {
    var w, r := WriteAll(m, rs, datas), rs[i];
    assert Within(m, r);
    forall k | 0 <= k < r.bytes ensures Read(w, r)[k] == datas[i][k] {
      WrittenByte(m, rs, datas, i, r.off + k);
    }
  }

  /** So after a snapshot, any writes and a restore, each region reads as it did. */
  lemma RestoredRegions(past: Mem, now: Mem, rs: seq<Region>)
    requires AllWithin(past, rs) && AllWithin(now, rs)
    ensures AllWithin(WriteAll(now, rs, ReadAll(past, rs)), rs)
    ensures ReadAll(WriteAll(now, rs, ReadAll(past, rs)), rs) == ReadAll(past, rs)
  {
    ReadIsConsistent(past, rs);
    ReadsBack(now, rs, ReadAll(past, rs));
  }
}
