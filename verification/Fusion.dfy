/** Weighted means over the chunks that cover one controller step, and the fact that
    makes a bounded chunk ring enough: dropping old chunks changes no mean. */
module Fusion {
  type Row = seq<real>
  type Chunk = seq<Row>

  /** `length` rows of `dim` scalars each. */
  ghost predicate Rectangular(rows: Chunk, length: nat, dim: nat) {
    |rows| == length && forall i :: 0 <= i < |rows| ==> |rows[i]| == dim
  }

  /** A chunk that reached the fusion stage: row j of `rows` is meant for step start + j. */
  datatype Landed = Landed(start: nat, rows: Chunk)

  ghost predicate AllRectangular(h: seq<Landed>, length: nat, dim: nat) {
    forall i :: 0 <= i < |h| ==> Rectangular(h[i].rows, length, dim)
  }

  predicate Covers(l: Landed, step: nat, length: nat) {
    l.start <= step < l.start + length
  }

  /** The newest at most `max` chunks of `h` that cover `step`, newest first.
      `h` is ordered from oldest to newest. */
  function Newest(h: seq<Landed>, step: nat, length: nat, max: nat): seq<Landed> {
    if max == 0 || h == [] then []
    else
      var last := h[|h| - 1];
      if Covers(last, step, length) then [last] + Newest(h[..|h| - 1], step, length, max - 1)
      else Newest(h[..|h| - 1], step, length, max)
  }

  /** Looking one chunk further back. */
  lemma NewestStep(h: seq<Landed>, r: nat, step: nat, length: nat, max: nat)
    requires r < |h| && max > 0
    ensures Newest(h[..r + 1], step, length, max)
      == if Covers(h[r], step, length) then [h[r]] + Newest(h[..r], step, length, max - 1)
         else Newest(h[..r], step, length, max)
  {
    assert h[..r + 1][..r] == h[..r];
  }

  lemma {:induction false} NewestFusable(h: seq<Landed>, step: nat, length: nat, max: nat, dim: nat)
    requires AllRectangular(h, length, dim)
    ensures |Newest(h, step, length, max)| <= max
    ensures AllRectangular(Newest(h, step, length, max), length, dim)
    ensures forall i :: 0 <= i < |Newest(h, step, length, max)| ==>
      Covers(Newest(h, step, length, max)[i], step, length)
  {
    if max > 0 && h != [] {
      var m := if Covers(h[|h| - 1], step, length) then max - 1 else max;
      NewestFusable(h[..|h| - 1], step, length, m, dim);
    }
  }

  predicate Monotone(h: seq<Landed>) {
    forall i, j :: 0 <= i < j < |h| ==> h[i].start <= h[j].start
  }

  function Distance(a: nat, b: nat): nat {
    if a >= b then a - b else b - a
  }

  /** What fusing needs to index the weight table and the rows safely. */
  ghost predicate Fusable(cs: seq<Landed>, start: nat, step: nat, length: nat, dim: nat, w: seq<real>) {
    && |w| == length
    && start <= step < start + length
    && (forall i :: 0 <= i < |cs| ==> Covers(cs[i], step, length))
    && AllRectangular(cs, length, dim)
  }

  /** Weight of chunk `l` in the row for `step` of a window that begins at `start`: the
      table entry at the distance between the row's index in `l` and in the window. */
  function Weight(l: Landed, start: nat, step: nat, w: seq<real>): real
    requires l.start <= step && start <= step && Distance(l.start, start) < |w|
  {
    w[Distance(step - l.start, step - start)]
  }

  ghost function WeightSum(cs: seq<Landed>, start: nat, step: nat, length: nat, dim: nat, w: seq<real>): real
    requires Fusable(cs, start, step, length, dim, w)
  {
    if cs == [] then 0.0
    else
      var last := cs[|cs| - 1];
      WeightSum(cs[..|cs| - 1], start, step, length, dim, w) + Weight(last, start, step, w)
  }

  /** Sum over `cs` of weight times column `k` of the row meant for `step`. */
  ghost function WeightedSum(cs: seq<Landed>, start: nat, step: nat, length: nat, dim: nat, w: seq<real>, k: nat): real
    requires Fusable(cs, start, step, length, dim, w) && k < dim
  {
    if cs == [] then 0.0
    else
      var last := cs[|cs| - 1];
      WeightedSum(cs[..|cs| - 1], start, step, length, dim, w, k)
        + Weight(last, start, step, w) * last.rows[step - last.start][k]
  }

  ghost predicate Positive(w: seq<real>) {
    forall i :: 0 <= i < |w| ==> w[i] > 0.0
  }

  lemma {:induction false} WeightSumPositive(cs: seq<Landed>, start: nat, step: nat, length: nat, dim: nat,
                        w: seq<real>)
    requires Fusable(cs, start, step, length, dim, w) && Positive(w)
    ensures WeightSum(cs, start, step, length, dim, w) >= 0.0
    ensures cs != [] ==> WeightSum(cs, start, step, length, dim, w) > 0.0
  {
    if cs != [] {
      WeightSumPositive(cs[..|cs| - 1], start, step, length, dim, w);
    }
  }

  /** The weighted mean, column by column, of the rows that `cs` holds for `step`. */
  ghost function Mean(cs: seq<Landed>, start: nat, step: nat, length: nat, dim: nat, w: seq<real>): (row: Row)
    requires Fusable(cs, start, step, length, dim, w) && Positive(w) && cs != []
    ensures |row| == dim
  {
    WeightSumPositive(cs, start, step, length, dim, w);
    seq(dim, k requires 0 <= k < dim =>
      WeightedSum(cs, start, step, length, dim, w, k) / WeightSum(cs, start, step, length, dim, w))
  }

  /** If every chunk of `h` covers the step, the newest `max` are just the last `max`. */
  lemma {:induction false} NewestOfCovering(h: seq<Landed>, n: nat, step: nat, length: nat, max: nat)
    requires n <= |h| && |h| - n >= max
    requires forall i :: n <= i < |h| ==> Covers(h[i], step, length)
    ensures Newest(h, step, length, max) == Newest(h[n..], step, length, max)
  {
    if max > 0 {
      var init := h[..|h| - 1];
      NewestOfCovering(init, n, step, length, max - 1);
      var tail := h[n..];
      assert tail[..|tail| - 1] == init[n..];
      assert tail[|tail| - 1] == h[|h| - 1] && Covers(h[|h| - 1], step, length);
      assert Newest(h, step, length, max) == [h[|h| - 1]] + Newest(init, step, length, max - 1);
    }
  }

  /** Chunks that do not cover the step can be dropped from the front. */
  lemma {:induction false} NewestSkipsPrefix(h: seq<Landed>, n: nat, step: nat, length: nat, max: nat)
    requires n <= |h|
    requires forall i :: 0 <= i < n ==> !Covers(h[i], step, length)
    ensures Newest(h, step, length, max) == Newest(h[n..], step, length, max)
  {
    if max > 0 && |h| > 0 {
      var init := h[..|h| - 1];
      if n < |h| {
        assert h[n..][..|h[n..]| - 1] == init[n..];
        var m := if Covers(h[|h| - 1], step, length) then max - 1 else max;
        NewestSkipsPrefix(init, n, step, length, m);
      } else {
        NewestSkipsPrefix(init, n - 1, step, length, max);
        assert init[n - 1..] == h[n..] == [];
      }
    }
  }

  /** The retention theorem. `h` is everything that ever landed, oldest first, with start
      steps that never decrease and never exceed `step`; the ring still holds `h[n..]`. If
      the youngest chunk that was dropped either ended at or before `step` or left at least
      `max` newer chunks behind, then fusing from the ring is fusing from all of `h`. */
  lemma RetentionIsExact(h: seq<Landed>, n: nat, step: nat, length: nat, max: nat)
    requires n <= |h| && Monotone(h)
    requires forall i :: 0 <= i < |h| ==> h[i].start <= step
    requires n > 0 ==> h[n - 1].start + length <= step || |h| - n >= max
    ensures Newest(h, step, length, max) == Newest(h[n..], step, length, max)
  {
    if n > 0 && Covers(h[n - 1], step, length) {
      NewestOfCovering(h, n, step, length, max);
    } else {
      NewestSkipsPrefix(h, n, step, length, max);
    }
  }
}
