/** What a fused row is, said without the order in which it is computed: a sum over the
    positions of the whole history, in which a chunk counts if it covers the row's step and
    fewer than fusionMax later ones do. */
module FusionMeaning {
  import opened Fusion
  import opened ActionChunkSpec

  /** How many chunks of `h` from position j on cover the step `at`. */
  ghost function Later(h: seq<Landed>, at: nat, length: nat, j: nat): nat
    requires j <= |h|
    decreases |h| - j
  {
    if j == |h| then 0 else Later(h, at, length, j + 1) + if Covers(h[j], at, length) then 1 else 0
  }

  /** Chunk j is among the newest `max` that cover the step `at`. */
  ghost predicate Chosen(h: seq<Landed>, at: nat, length: nat, max: nat, j: nat)
    requires j < |h|
  {
    Covers(h[j], at, length) && Later(h, at, length, j + 1) < max
  }

  /** A row meant for step `at`, in a window that begins at `start`. */
  ghost predicate InWindow(c: Config, h: seq<Landed>, start: nat, at: nat) {
    |c.weights| == c.chunkLength && start <= at < start + c.chunkLength && LandedOk(c, h)
  }

  /** What chunk j weighs in the row for `at`: the table entry at the distance between its
      start and that of the window, whichever row it is; nothing if it is not chosen. */
  ghost function Share(c: Config, h: seq<Landed>, start: nat, at: nat, max: nat, j: nat): real
    requires InWindow(c, h, start, at) && j < |h|
  {
    if !Chosen(h, at, c.chunkLength, max, j) then 0.0
    else if h[j].start <= start then c.weights[start - h[j].start]
    else c.weights[h[j].start - start]
  }

  /** The share of chunk j times column k of its row for `at`. */
  ghost function Part(c: Config, h: seq<Landed>, start: nat, at: nat, max: nat, k: nat, j: nat): real
    requires InWindow(c, h, start, at) && j < |h| && k < c.actionDim
  {
    if !Chosen(h, at, c.chunkLength, max, j) then 0.0
    else Share(c, h, start, at, max, j) * h[j].rows[at - h[j].start][k]
  }

  /** The shares of the first n chunks together. */
  ghost function Shares(c: Config, h: seq<Landed>, start: nat, at: nat, max: nat, n: nat): real
    requires InWindow(c, h, start, at) && n <= |h|
  {
    if n == 0 then 0.0 else Shares(c, h, start, at, max, n - 1) + Share(c, h, start, at, max, n - 1)
  }

  ghost function Parts(c: Config, h: seq<Landed>, start: nat, at: nat, max: nat, k: nat, n: nat): real
    requires InWindow(c, h, start, at) && n <= |h| && k < c.actionDim
  {
    if n == 0 then 0.0 else Parts(c, h, start, at, max, k, n - 1) + Part(c, h, start, at, max, k, n - 1)
  }

  /** `x` is the mean of column k of the chosen chunks' rows for row i of the window of the
      newest chunk of `h`, weighted by their shares, which add up to more than nothing. */
  ghost predicate MeanAt(c: Config, h: seq<Landed>, i: nat, k: nat, x: real)
    requires FusionOk(c) && LandedOk(c, h) && h != [] && i < c.chunkLength && k < c.actionDim
  {
    var start := h[|h| - 1].start;
    && Shares(c, h, start, start + i, c.fusionMax, |h|) > 0.0
    && x * Shares(c, h, start, start + i, c.fusionMax, |h|) == Parts(c, h, start, start + i, c.fusionMax, k, |h|)
  }

  /** `row` is that mean in every column. */
  ghost predicate IsMean(c: Config, h: seq<Landed>, i: nat, row: Row)
    requires FusionOk(c) && LandedOk(c, h) && h != [] && i < c.chunkLength
  {
    |row| == c.actionDim && forall k :: 0 <= k < |row| ==> MeanAt(c, h, i, k, row[k])
  }

  // ---- one chunk less --------------------------------------------------------

  /** What is left of the bound once the newest chunk has been looked at. */
  function Rest(l: Landed, at: nat, length: nat, max: nat): nat {
    if max > 0 && Covers(l, at, length) then max - 1 else max
  }

  lemma {:induction false} LaterInit(h: seq<Landed>, at: nat, length: nat, j: nat)
    requires h != [] && j < |h|
    ensures Later(h, at, length, j)
      == Later(h[..|h| - 1], at, length, j) + if Covers(h[|h| - 1], at, length) then 1 else 0
    decreases |h| - j
  {
    if j < |h| - 1 {
      LaterInit(h, at, length, j + 1);
    }
  }

  lemma ChosenInit(h: seq<Landed>, at: nat, length: nat, max: nat, j: nat)
    requires j < |h| - 1
    ensures Chosen(h, at, length, max, j)
      <==> Chosen(h[..|h| - 1], at, length, Rest(h[|h| - 1], at, length, max), j)
  {
    LaterInit(h, at, length, j + 1);
  }

  lemma {:induction false} SumsInit(c: Config, h: seq<Landed>, start: nat, at: nat, max: nat, k: nat, n: nat)
    requires InWindow(c, h, start, at) && n < |h| && k < c.actionDim
    ensures InWindow(c, h[..|h| - 1], start, at)
    ensures var init, m := h[..|h| - 1], Rest(h[|h| - 1], at, c.chunkLength, max);
      && Shares(c, h, start, at, max, n) == Shares(c, init, start, at, m, n)
      && Parts(c, h, start, at, max, k, n) == Parts(c, init, start, at, m, k, n)
  {
    if n > 0 {
      SumsInit(c, h, start, at, max, k, n - 1);
      ChosenInit(h, at, c.chunkLength, max, n - 1);
    }
  }

  // ---- the computed mean -----------------------------------------------------

  /** Weight and weighted entry of the newest chunk can be split off in front, too. */
  lemma {:induction false} SumsHead(c: Config, cs: seq<Landed>, start: nat, at: nat, k: nat)
    requires Fusable(cs, start, at, c.chunkLength, c.actionDim, c.weights) && cs != [] && k < c.actionDim
    ensures Fusable(cs[1..], start, at, c.chunkLength, c.actionDim, c.weights)
    ensures WeightSum(cs, start, at, c.chunkLength, c.actionDim, c.weights)
      == Weight(cs[0], start, at, c.weights) + WeightSum(cs[1..], start, at, c.chunkLength, c.actionDim, c.weights)
    ensures WeightedSum(cs, start, at, c.chunkLength, c.actionDim, c.weights, k)
      == Weight(cs[0], start, at, c.weights) * cs[0].rows[at - cs[0].start][k]
         + WeightedSum(cs[1..], start, at, c.chunkLength, c.actionDim, c.weights, k)
  {
    if |cs| > 1 {
      var init := cs[..|cs| - 1];
      SumsHead(c, init, start, at, k);
      assert init[1..] == cs[1..][..|cs| - 2];
    } else {
      assert cs[..0] == cs[1..] == [];
    }
  }

  /** The sums over the chunks `cs` are those over the whole history. */
  ghost predicate SameSums(c: Config, h: seq<Landed>, cs: seq<Landed>, start: nat, at: nat, max: nat, k: nat)
    requires InWindow(c, h, start, at) && k < c.actionDim
  {
    && Fusable(cs, start, at, c.chunkLength, c.actionDim, c.weights)
    && WeightSum(cs, start, at, c.chunkLength, c.actionDim, c.weights) == Shares(c, h, start, at, max, |h|)
    && WeightedSum(cs, start, at, c.chunkLength, c.actionDim, c.weights, k) == Parts(c, h, start, at, max, k, |h|)
  }

  /** The newest chunk, if it is selected, weighs on both sides the same. */
  lemma NewestShare(c: Config, h: seq<Landed>, start: nat, at: nat, max: nat, k: nat)
    requires h != [] && InWindow(c, h, start, at) && k < c.actionDim
    requires max > 0 && Covers(h[|h| - 1], at, c.chunkLength)
    ensures var last := h[|h| - 1];
      && Distance(last.start, start) < |c.weights| && at - last.start < |last.rows|
      && |last.rows[at - last.start]| == c.actionDim
      && Share(c, h, start, at, max, |h| - 1) == Weight(last, start, at, c.weights)
      && Part(c, h, start, at, max, k, |h| - 1)
         == Weight(last, start, at, c.weights) * last.rows[at - last.start][k]
  {
    assert Later(h, at, c.chunkLength, |h|) == 0;
  }

  /** A chunk that is selected joins the sums on both sides. */
  lemma JoinsSums(c: Config, h: seq<Landed>, cs: seq<Landed>, start: nat, at: nat, max: nat, k: nat)
    requires h != [] && InWindow(c, h, start, at) && InWindow(c, h[..|h| - 1], start, at) && k < c.actionDim
    requires max > 0 && Covers(h[|h| - 1], at, c.chunkLength)
    requires SameSums(c, h[..|h| - 1], cs, start, at, max - 1, k)
    ensures SameSums(c, h, [h[|h| - 1]] + cs, start, at, max, k)
  {
    var last := h[|h| - 1];
    SumsInit(c, h, start, at, max, k, |h| - 1);
    NewestShare(c, h, start, at, max, k);
    var w, part := Weight(last, start, at, c.weights), Part(c, h, start, at, max, k, |h| - 1);
    SplitOff(c, last, cs, start, at, k, part);
    assert Shares(c, h, start, at, max, |h|) == Shares(c, h, start, at, max, |h| - 1) + w;
    assert Parts(c, h, start, at, max, k, |h|) == Parts(c, h, start, at, max, k, |h| - 1) + part;
  }

  lemma SplitOff(c: Config, last: Landed, cs: seq<Landed>, start: nat, at: nat, k: nat, part: real)
    requires Fusable(cs, start, at, c.chunkLength, c.actionDim, c.weights) && k < c.actionDim
    requires Covers(last, at, c.chunkLength) && RowsOk(c, last.rows)
    requires part == Weight(last, start, at, c.weights) * last.rows[at - last.start][k]
    ensures Fusable([last] + cs, start, at, c.chunkLength, c.actionDim, c.weights)
    ensures WeightSum([last] + cs, start, at, c.chunkLength, c.actionDim, c.weights)
      == WeightSum(cs, start, at, c.chunkLength, c.actionDim, c.weights) + Weight(last, start, at, c.weights)
    ensures WeightedSum([last] + cs, start, at, c.chunkLength, c.actionDim, c.weights, k)
      == WeightedSum(cs, start, at, c.chunkLength, c.actionDim, c.weights, k) + part
  {
    SumsHead(c, [last] + cs, start, at, k);
    assert ([last] + cs)[1..] == cs;
  }

  /** A chunk that is not selected adds nothing. */
  lemma LeavesSums(c: Config, h: seq<Landed>, cs: seq<Landed>, start: nat, at: nat, max: nat, k: nat)
    requires h != [] && InWindow(c, h, start, at) && InWindow(c, h[..|h| - 1], start, at) && k < c.actionDim
    requires max == 0 || !Covers(h[|h| - 1], at, c.chunkLength)
    requires SameSums(c, h[..|h| - 1], cs, start, at, max, k)
    ensures SameSums(c, h, cs, start, at, max, k)
  {
    SumsInit(c, h, start, at, max, k, |h| - 1);
  }

  /** The sums over the selected chunks are the sums over the whole history. */
  lemma {:induction false} SumsAgree(c: Config, h: seq<Landed>, start: nat, at: nat, max: nat, k: nat)
    requires InWindow(c, h, start, at) && k < c.actionDim
    ensures SameSums(c, h, Newest(h, at, c.chunkLength, max), start, at, max, k)
    decreases |h|
  {
    if h != [] {
      var init, m := h[..|h| - 1], Rest(h[|h| - 1], at, c.chunkLength, max);
      SumsAgree(c, init, start, at, m, k);
      if max > 0 && Covers(h[|h| - 1], at, c.chunkLength) {
        JoinsSums(c, h, Newest(init, at, c.chunkLength, m), start, at, max, k);
      } else {
        LeavesSums(c, h, Newest(init, at, c.chunkLength, m), start, at, max, k);
        if max == 0 {
          assert Newest(init, at, c.chunkLength, 0) == [];
        }
      }
    }
  }

  /** Column k of the mean of the selected chunks. */
  lemma MeanColumn(c: Config, cs: seq<Landed>, start: nat, at: nat, k: nat, x: real)
    requires Fusable(cs, start, at, c.chunkLength, c.actionDim, c.weights) && Positive(c.weights) && cs != []
    requires k < c.actionDim && x == Mean(cs, start, at, c.chunkLength, c.actionDim, c.weights)[k]
    ensures WeightSum(cs, start, at, c.chunkLength, c.actionDim, c.weights) > 0.0
    ensures x * WeightSum(cs, start, at, c.chunkLength, c.actionDim, c.weights)
      == WeightedSum(cs, start, at, c.chunkLength, c.actionDim, c.weights, k)
  {
    WeightSumPositive(cs, start, at, c.chunkLength, c.actionDim, c.weights);
    Quotient(WeightedSum(cs, start, at, c.chunkLength, c.actionDim, c.weights, k),
             WeightSum(cs, start, at, c.chunkLength, c.actionDim, c.weights));
  }

  lemma Quotient(a: real, b: real)
    requires b > 0.0
    ensures (a / b) * b == a
  {
  }

  lemma FusedColumn(c: Config, h: seq<Landed>, i: nat, k: nat, x: real)
    requires FusionOk(c) && LandedOk(c, h) && h != [] && i < c.chunkLength && k < c.actionDim
    requires x == FusedRow(c, h, i)[k]
    ensures MeanAt(c, h, i, k, x)
  {
    var start := h[|h| - 1].start;
    var cs := Newest(h, start + i, c.chunkLength, c.fusionMax);
    SumsAgree(c, h, start, start + i, c.fusionMax, k);
    MeanColumn(c, cs, start, start + i, k, x);
  }

  /** A fused row is the weighted mean over all of the history, column by column. */
  lemma FusedRowIsMean(c: Config, h: seq<Landed>, i: nat)
    requires FusionOk(c) && LandedOk(c, h) && h != [] && i < c.chunkLength
    ensures IsMean(c, h, i, FusedRow(c, h, i))
  {
    forall k | 0 <= k < c.actionDim ensures MeanAt(c, h, i, k, FusedRow(c, h, i)[k]) {
      FusedColumn(c, h, i, k, FusedRow(c, h, i)[k]);
    }
  }

  /** Two chunks that start d steps apart and both cover the row: the newer one counts with
      the first weight of the table, the older one with the one at distance d. */
  lemma TwoChunks(c: Config, older: Landed, newer: Landed, i: nat, k: nat)
    requires FusionOk(c) && c.fusionMax >= 2 && k < c.actionDim
    requires RowsOk(c, older.rows) && RowsOk(c, newer.rows)
    requires i < c.chunkLength && older.start <= newer.start && newer.start + i < older.start + c.chunkLength
    ensures var d := newer.start - older.start;
      FusedRow(c, [older, newer], i)[k] * (c.weights[0] + c.weights[d])
      == c.weights[0] * newer.rows[i][k] + c.weights[d] * older.rows[d + i][k]
  {
    var h, at := [older, newer], newer.start + i;
    FusedColumn(c, h, i, k, FusedRow(c, h, i)[k]);
    assert Later(h, at, c.chunkLength, 2) == 0 && Later(h, at, c.chunkLength, 1) == 1;
    assert Chosen(h, at, c.chunkLength, c.fusionMax, 0) && Chosen(h, at, c.chunkLength, c.fusionMax, 1);
    var d := newer.start - older.start;
    assert Shares(c, h, newer.start, at, c.fusionMax, 1) == c.weights[d];
    assert Shares(c, h, newer.start, at, c.fusionMax, 2) == c.weights[0] + c.weights[d];
    assert Parts(c, h, newer.start, at, c.fusionMax, k, 1) == c.weights[d] * older.rows[d + i][k];
    assert Part(c, h, newer.start, at, c.fusionMax, k, 1) == c.weights[0] * newer.rows[i][k];
  }
}
