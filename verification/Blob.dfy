/** The serialized form of a capsule: what the core writes and exactly what it accepts. */
module Blob {
  import opened Wrappers

  type byte = b: int | 0 <= b < 256

  const MAGIC: nat := 0x43415053
  const VERSION: nat := 1
  const HEADER: nat := 32
  const MAX_REGIONS: nat := 0x10_0000
  const U32: nat := 0x1_0000_0000
  const U64: nat := 0x1_0000_0000_0000_0000

  const TIER_GPU: int := 0
  const TIER_HOST: int := 1

  /** A capsule by its contents. */
  datatype Image = Image(fingerprint: nat, tier: int, meta: seq<byte>, regions: seq<seq<byte>>)

  /** What fits the fields of the header: 64-bit fingerprint and lengths, 32-bit count. */
  ghost predicate Wire(img: Image) {
    && img.fingerprint < U64 && |img.meta| < U64 && |img.regions| < U32
    && forall i :: 0 <= i < |img.regions| ==> |img.regions[i]| < U64
  }

  /** The low n bytes of v, the lowest first. */
  function Put(v: nat, n: nat): (s: seq<byte>)
    ensures |s| == n
  {
    if n == 0 then [] else [v % 256] + Put(v / 256, n - 1)
  }

  function Get(s: seq<byte>): nat {
    if s == [] then 0 else s[0] + 256 * Get(s[1..])
  }

  function PutLengths(regions: seq<seq<byte>>): (s: seq<byte>)
    ensures |s| == 8 * |regions|
  {
    if regions == [] then [] else Put(|regions[0]|, 8) + PutLengths(regions[1..])
  }

  function Flat(regions: seq<seq<byte>>): seq<byte> {
    if regions == [] then [] else regions[0] + Flat(regions[1..])
  }

  function Lengths(regions: seq<seq<byte>>): seq<nat> {
    seq(|regions|, i requires 0 <= i < |regions| => |regions[i]|)
  }

  function Head(fingerprint: nat, tier: int, n: nat, metaLen: nat): (s: seq<byte>)
    ensures |s| == HEADER
  {
    Put(MAGIC, 4) + Put(VERSION, 4) + Put(fingerprint, 8) + Put(tier % U32, 4) + Put(n, 4) + Put(metaLen, 8)
  }

  function Encode(img: Image): seq<byte> {
    Head(img.fingerprint, img.tier, |img.regions|, |img.meta|) + PutLengths(img.regions) + img.meta + Flat(img.regions)
  }

  /** A table of 64-bit lengths. */
  function GetLengths(s: seq<byte>): (table: seq<nat>)
    requires |s| % 8 == 0
    ensures |table| == |s| / 8
  {
    if s == [] then [] else [Get(s[..8])] + GetLengths(s[8..])
  }

  /** Cut data into pieces of the given lengths, with nothing missing and nothing left. */
  function Cut(data: seq<byte>, table: seq<nat>): Option<seq<seq<byte>>> {
    if table == [] then (if data == [] then Some([]) else None)
    else if table[0] > |data| then None
    else match Cut(data[table[0]..], table[1..])
      case None => None
      case Some(rest) => Some([data[..table[0]]] + rest)
  }

  /** What follows the header: n lengths, the meta bytes, and the regions. */
  function ParseBody(identity: nat, rest: seq<byte>, n: nat, metaLen: nat): Option<Image> {
    if 8 * n > |rest| || metaLen > |rest| - 8 * n then None
    else match Cut(rest[8 * n + metaLen..], GetLengths(rest[..8 * n]))
      case None => None
      case Some(regions) => Some(Image(identity, TIER_HOST, rest[8 * n..8 * n + metaLen], regions))
  }

  /** What a load makes of a blob. */
  function Parse(blob: seq<byte>, identity: nat): Option<Image> {
    if |blob| < HEADER then None
    else if Get(blob[..4]) != MAGIC || Get(blob[4..8]) != VERSION then None
    else if Get(blob[8..16]) != identity then None
    else if Get(blob[20..24]) > MAX_REGIONS then None
    else ParseBody(identity, blob[HEADER..], Get(blob[20..24]), Get(blob[24..32]))
  }

  // ---- numbers ---------------------------------------------------------------

  function Pow256(n: nat): nat {
    if n == 0 then 1 else 256 * Pow256(n - 1)
  }

  lemma {:induction false} GetOfPut(v: nat, n: nat)
    requires v < Pow256(n)
    ensures Get(Put(v, n)) == v
  {
    if n > 0 {
      assert v / 256 < Pow256(n - 1);
      GetOfPut(v / 256, n - 1);
      assert Put(v, n)[1..] == Put(v / 256, n - 1);
    }
  }

  lemma {:induction false} PutOfGet(s: seq<byte>)
    ensures Put(Get(s), |s|) == s && Get(s) < Pow256(|s|)
  {
    if s != [] {
      PutOfGet(s[1..]);
      assert (s[0] + 256 * Get(s[1..])) % 256 == s[0];
      assert (s[0] + 256 * Get(s[1..])) / 256 == Get(s[1..]);
    }
  }

  lemma Widths()
    ensures Pow256(4) == U32 && Pow256(8) == U64
  {
    assert Pow256(2) == 0x1_0000;
    assert Pow256(4) == U32;
    assert Pow256(6) == 0x1_0000_0000_0000;
  }

  // ---- the table and the pieces ----------------------------------------------

  lemma {:induction false} LengthsOfPut(regions: seq<seq<byte>>)
    requires forall i :: 0 <= i < |regions| ==> |regions[i]| < U64
    ensures GetLengths(PutLengths(regions)) == Lengths(regions)
  {
    if regions != [] {
      var first := Put(|regions[0]|, 8);
      LengthsOfPut(regions[1..]);
      Widths();
      GetOfPut(|regions[0]|, 8);
      assert PutLengths(regions)[..8] == first && PutLengths(regions)[8..] == PutLengths(regions[1..]);
      assert Lengths(regions) == [|regions[0]|] + Lengths(regions[1..]);
    }
  }

  /** A table is what writing the lengths of any such pieces gives. */
  lemma {:induction false} PutOfLengths(s: seq<byte>, regions: seq<seq<byte>>)
    requires |s| % 8 == 0 && GetLengths(s) == Lengths(regions)
    ensures PutLengths(regions) == s && forall i :: 0 <= i < |regions| ==> |regions[i]| < U64
  {
    if s != [] {
      assert Lengths(regions)[1..] == Lengths(regions[1..]);
      assert GetLengths(s)[1..] == GetLengths(s[8..]);
      PutOfLengths(s[8..], regions[1..]);
      PutOfGet(s[..8]);
      Widths();
      assert Lengths(regions)[0] == GetLengths(s)[0] == Get(s[..8]);
      assert s == s[..8] + s[8..];
    }
  }

  /** Cutting by lengths succeeds exactly on the pieces laid end to end. */
  lemma {:induction false} CutIsExact(data: seq<byte>, table: seq<nat>, regions: seq<seq<byte>>)
    ensures Cut(data, table) == Some(regions) <==> Flat(regions) == data && Lengths(regions) == table
  {
    if table == [] {
      assert Lengths(regions) == [] <==> regions == [];
    } else if regions == [] {
      assert Lengths(regions) != table;
    } else {
      assert Lengths(regions) == [|regions[0]|] + Lengths(regions[1..]);
      if table[0] > |data| {
      } else {
        CutIsExact(data[table[0]..], table[1..], regions[1..]);
        assert Lengths(regions) == table <==> |regions[0]| == table[0] && Lengths(regions[1..]) == table[1..];
        assert |regions[0]| == table[0] ==>
          (Flat(regions) == data <==> regions[0] == data[..table[0]] && Flat(regions[1..]) == data[table[0]..]);
        assert regions == [regions[0]] + regions[1..];
      }
    }
  }

  // ---- the header ------------------------------------------------------------

  /** The fields of a header, read where they were written. */
  ghost predicate HeadIs(blob: seq<byte>, fingerprint: nat, tier: nat, n: nat, metaLen: nat) {
    && |blob| >= HEADER
    && Get(blob[..4]) == MAGIC && Get(blob[4..8]) == VERSION && Get(blob[8..16]) == fingerprint
    && Get(blob[16..20]) == tier && Get(blob[20..24]) == n && Get(blob[24..32]) == metaLen
  }

  lemma HeadReads(fingerprint: nat, tier: int, n: nat, metaLen: nat, rest: seq<byte>)
    requires fingerprint < U64 && n < U32 && metaLen < U64
    ensures HeadIs(Head(fingerprint, tier, n, metaLen) + rest, fingerprint, tier % U32, n, metaLen)
  {
    Widths();
    GetOfPut(MAGIC, 4);
    GetOfPut(VERSION, 4);
    GetOfPut(fingerprint, 8);
    GetOfPut(tier % U32, 4);
    GetOfPut(n, 4);
    GetOfPut(metaLen, 8);
    HeadParts(Put(MAGIC, 4), Put(VERSION, 4), Put(fingerprint, 8), Put(tier % U32, 4), Put(n, 4), Put(metaLen, 8),
              rest);
  }

  lemma HeadParts(a: seq<byte>, b: seq<byte>, c: seq<byte>, d: seq<byte>, e: seq<byte>, f: seq<byte>, rest: seq<byte>)
    requires |a| == 4 && |b| == 4 && |c| == 8 && |d| == 4 && |e| == 4 && |f| == 8
    ensures var blob := a + b + c + d + e + f + rest;
      && blob[..4] == a && blob[4..8] == b && blob[8..16] == c
      && blob[16..20] == d && blob[20..24] == e && blob[24..32] == f
  {
  }

  /** A field of n bytes that reads as v was written as v. */
  lemma FieldWritten(field: seq<byte>, n: nat, v: nat)
    requires |field| == n && Get(field) == v
    ensures field == Put(v, n) && v < Pow256(n)
  {
    PutOfGet(field);
  }

  /** The fields of a header, as they were written. */
  ghost predicate HeadPut(blob: seq<byte>, fingerprint: nat, tier: nat, n: nat, metaLen: nat) {
    && |blob| >= HEADER
    && blob[..4] == Put(MAGIC, 4) && blob[4..8] == Put(VERSION, 4) && blob[8..16] == Put(fingerprint, 8)
    && blob[16..20] == Put(tier, 4) && blob[20..24] == Put(n, 4) && blob[24..32] == Put(metaLen, 8)
  }

  lemma FieldsWritten(blob: seq<byte>, fingerprint: nat, tier: nat, n: nat, metaLen: nat)
    requires HeadIs(blob, fingerprint, tier, n, metaLen)
    ensures HeadPut(blob, fingerprint, tier, n, metaLen)
    ensures fingerprint < U64 && tier < U32 && n < U32 && metaLen < U64
  {
    Widths();
    FieldWritten(blob[..4], 4, MAGIC);
    FieldWritten(blob[4..8], 4, VERSION);
    FieldWritten(blob[8..16], 8, fingerprint);
    FieldWritten(blob[16..20], 4, tier);
    FieldWritten(blob[20..24], 4, n);
    FieldWritten(blob[24..32], 8, metaLen);
  }

  lemma HeadJoins(blob: seq<byte>, fingerprint: nat, tier: nat, n: nat, metaLen: nat)
    requires HeadPut(blob, fingerprint, tier, n, metaLen) && tier < U32
    ensures blob[..HEADER] == Head(fingerprint, tier, n, metaLen)
  {
    HeadSplits(blob);
  }

  /** A blob whose fields read so begins with that header. */
  lemma HeadWritten(blob: seq<byte>, fingerprint: nat, tier: nat, n: nat, metaLen: nat)
    requires HeadIs(blob, fingerprint, tier, n, metaLen)
    ensures blob[..HEADER] == Head(fingerprint, tier, n, metaLen)
    ensures fingerprint < U64 && tier < U32 && n < U32 && metaLen < U64
  {
    FieldsWritten(blob, fingerprint, tier, n, metaLen);
    HeadJoins(blob, fingerprint, tier, n, metaLen);
  }

  lemma HeadSplits(blob: seq<byte>)
    requires |blob| >= HEADER
    ensures blob[..HEADER] == blob[..4] + blob[4..8] + blob[8..16] + blob[16..20] + blob[20..24] + blob[24..32]
  {
  }

  // ---- the language ----------------------------------------------------------

  /** Loading what was serialized gives back the fingerprint, meta, region sizes and bytes,
      in host memory; unless the fingerprint is another or there are too many regions, which
      serializing does not check. */
  lemma RoundTrip(img: Image, identity: nat)
    requires Wire(img)
    ensures Parse(Encode(img), identity) ==
      if img.fingerprint == identity && |img.regions| <= MAX_REGIONS then Some(img.(tier := TIER_HOST)) else None
  {
    var n, metaLen := |img.regions|, |img.meta|;
    var rest := PutLengths(img.regions) + img.meta + Flat(img.regions);
    var blob := Encode(img);
    assert blob == Head(img.fingerprint, img.tier, n, metaLen) + rest;
    HeadReads(img.fingerprint, img.tier, n, metaLen, rest);
    assert blob[HEADER..] == rest;
    assert rest[..8 * n] == PutLengths(img.regions) && rest[8 * n..8 * n + metaLen] == img.meta;
    assert rest[8 * n + metaLen..] == Flat(img.regions);
    LengthsOfPut(img.regions);
    CutIsExact(Flat(img.regions), Lengths(img.regions), img.regions);
  }

  /** A table and the data it cuts into pieces are what the pieces are written as. */
  lemma PartsWritten(table: seq<byte>, data: seq<byte>, regions: seq<seq<byte>>)
    requires |table| % 8 == 0 && Cut(data, GetLengths(table)) == Some(regions)
    ensures 8 * |regions| == |table| && forall i :: 0 <= i < |regions| ==> |regions[i]| < U64
    ensures table == PutLengths(regions) && data == Flat(regions)
  {
    CutIsExact(data, GetLengths(table), regions);
    PutOfLengths(table, regions);
  }

  lemma SplitsInThree(rest: seq<byte>, i: nat, j: nat)
    requires i <= j <= |rest|
    ensures rest == rest[..i] + rest[i..j] + rest[j..]
  {
  }

  /** What follows the header, split as the header says, is what the pieces are written as. */
  lemma BodyWritten(rest: seq<byte>, n: nat, metaLen: nat, regions: seq<seq<byte>>)
    requires 8 * n + metaLen <= |rest|
    requires Cut(rest[8 * n + metaLen..], GetLengths(rest[..8 * n])) == Some(regions)
    ensures |regions| == n && forall i :: 0 <= i < n ==> |regions[i]| < U64
    ensures rest == PutLengths(regions) + rest[8 * n..8 * n + metaLen] + Flat(regions)
  {
    PartsWritten(rest[..8 * n], rest[8 * n + metaLen..], regions);
    SplitsInThree(rest, 8 * n, 8 * n + metaLen);
  }

  lemma EncodeParts(img: Image)
    ensures Encode(img) == Head(img.fingerprint, img.tier, |img.regions|, |img.meta|)
      + (PutLengths(img.regions) + img.meta + Flat(img.regions))
  {
  }

  lemma Rewritten(blob: seq<byte>, img: Image)
    requires img.tier >= 0 && HeadIs(blob, img.fingerprint, img.tier, |img.regions|, |img.meta|)
    requires blob[HEADER..] == PutLengths(img.regions) + img.meta + Flat(img.regions)
    ensures blob == Encode(img) && img.tier < U32
  {
    HeadWritten(blob, img.fingerprint, img.tier, |img.regions|, |img.meta|);
    EncodeParts(img);
    assert blob == blob[..HEADER] + blob[HEADER..];
  }

  /** An accepted blob is what serializing the loaded capsule writes, but for its tier. */
  lemma AcceptedIsEncoded(blob: seq<byte>, identity: nat)
    requires Parse(blob, identity).Some?
    ensures var img := Parse(blob, identity).value;
      && Wire(img) && img.fingerprint == identity && img.tier == TIER_HOST && |img.regions| <= MAX_REGIONS
      && Get(blob[16..20]) < U32 && blob == Encode(img.(tier := Get(blob[16..20])))
  {
    var img := Parse(blob, identity).value;
    var n, metaLen, rest := Get(blob[20..24]), Get(blob[24..32]), blob[HEADER..];
    HeadWritten(blob, identity, Get(blob[16..20]), n, metaLen);
    BodyWritten(rest, n, metaLen, img.regions);
    Rewritten(blob, img.(tier := Get(blob[16..20])));
  }

  /** Exactly the blobs of the stated layout are accepted, with matching magic, version,
      fingerprint, region bound and total length, and each as the capsule it describes. */
  lemma ExactLanguage(blob: seq<byte>, identity: nat, img: Image)
    ensures Parse(blob, identity) == Some(img) <==>
      && Wire(img) && img.fingerprint == identity && img.tier == TIER_HOST && |img.regions| <= MAX_REGIONS
      && exists tier: nat :: tier < U32 && blob == Encode(img.(tier := tier))
  {
    if Parse(blob, identity) == Some(img) {
      AcceptedIsEncoded(blob, identity);
    } else if Wire(img) && img.fingerprint == identity && img.tier == TIER_HOST && |img.regions| <= MAX_REGIONS {
      forall tier: nat | tier < U32 ensures blob != Encode(img.(tier := tier)) {
        RoundTrip(img.(tier := tier), identity);
      }
    }
  }

  /** Serializing a loaded capsule again gives the same bytes exactly when the blob's tier
      field is HOST; nothing else can differ. */
  lemma SerializesAgain(blob: seq<byte>, identity: nat)
    requires Parse(blob, identity).Some?
    ensures var again := Encode(Parse(blob, identity).value);
      && |again| == |blob| && again[..16] == blob[..16] && again[20..] == blob[20..]
      && (again == blob <==> Get(blob[16..20]) == TIER_HOST)
  {
    AcceptedIsEncoded(blob, identity);
    var img := Parse(blob, identity).value;
    OnlyTierDiffers(img.(tier := Get(blob[16..20])), TIER_HOST);
  }

  lemma OnlyTierDiffers(img: Image, tier: int)
    requires Wire(img)
    ensures var blob, again := Encode(img), Encode(img.(tier := tier));
      && |again| == |blob| && again[..16] == blob[..16] && again[20..] == blob[20..]
      && Get(blob[16..20]) == img.tier % U32 && Get(again[16..20]) == tier % U32
  {
    var n, metaLen := |img.regions|, |img.meta|;
    var rest := PutLengths(img.regions) + img.meta + Flat(img.regions);
    EncodeParts(img);
    EncodeParts(img.(tier := tier));
    HeadReads(img.fingerprint, img.tier, n, metaLen, rest);
    HeadReads(img.fingerprint, tier, n, metaLen, rest);
    HeadSlices(img.fingerprint, img.tier, n, metaLen, rest);
    HeadSlices(img.fingerprint, tier, n, metaLen, rest);
  }

  /** Two headers that differ in the tier differ nowhere else. */
  lemma HeadSlices(fingerprint: nat, tier: int, n: nat, metaLen: nat, rest: seq<byte>)
    ensures var blob := Head(fingerprint, tier, n, metaLen) + rest;
      && blob[..16] == Put(MAGIC, 4) + Put(VERSION, 4) + Put(fingerprint, 8)
      && blob[20..] == Put(n, 4) + Put(metaLen, 8) + rest
  {
    var head := Head(fingerprint, tier, n, metaLen);
    assert (head + rest)[..16] == head[..16] && (head + rest)[20..] == head[20..] + rest;
  }

  /** The shortest blob of a given shape: what serialize reports as its length. */
  lemma {:induction false} EncodedLength(img: Image)
    ensures |Encode(img)| == HEADER + 8 * |img.regions| + |img.meta| + Total(img.regions)
  {
    FlatLength(img.regions);
  }

  function Total(regions: seq<seq<byte>>): nat {
    if regions == [] then 0 else |regions[0]| + Total(regions[1..])
  }

  lemma {:induction false} FlatLength(regions: seq<seq<byte>>)
    ensures |Flat(regions)| == Total(regions)
  {
    if regions != [] {
      FlatLength(regions[1..]);
    }
  }

  // ---- one region at a time --------------------------------------------------

  lemma {:induction false} OneMoreLength(regions: seq<seq<byte>>, data: seq<byte>)
    ensures PutLengths(regions + [data]) == PutLengths(regions) + Put(|data|, 8)
  {
    var more := regions + [data];
    if regions == [] {
      assert more == [data] && more[1..] == [];
    } else {
      assert more[0] == regions[0] && more[1..] == regions[1..] + [data];
      OneMoreLength(regions[1..], data);
    }
  }

  lemma {:induction false} OneMoreFlat(regions: seq<seq<byte>>, data: seq<byte>)
    ensures Flat(regions + [data]) == Flat(regions) + data
  {
    var more := regions + [data];
    if regions == [] {
      assert more == [data] && more[1..] == [];
    } else {
      assert more[0] == regions[0] && more[1..] == regions[1..] + [data];
      OneMoreFlat(regions[1..], data);
    }
  }

  lemma {:induction false} OneMoreTotal(regions: seq<seq<byte>>, data: seq<byte>)
    ensures Total(regions + [data]) == Total(regions) + |data|
  {
    var more := regions + [data];
    if regions == [] {
      assert more == [data] && more[1..] == [];
    } else {
      assert more[0] == regions[0] && more[1..] == regions[1..] + [data];
      OneMoreTotal(regions[1..], data);
    }
  }

  lemma OneMore(regions: seq<seq<byte>>, data: seq<byte>)
    ensures PutLengths(regions + [data]) == PutLengths(regions) + Put(|data|, 8)
    ensures Flat(regions + [data]) == Flat(regions) + data
    ensures Total(regions + [data]) == Total(regions) + |data|
  {
    OneMoreLength(regions, data);
    OneMoreFlat(regions, data);
    OneMoreTotal(regions, data);
  }

  /** What is cut already, and what the rest is cut into. */
  function Joined(front: seq<seq<byte>>, rest: Option<seq<seq<byte>>>): Option<seq<seq<byte>>> {
    match rest
    case None => None
    case Some(pieces) => Some(front + pieces)
  }

  lemma JoinedEnds(front: seq<seq<byte>>, data: seq<byte>, table: seq<nat>)
    ensures Joined([], Cut(data, table)) == Cut(data, table)
    ensures table == [] ==> Joined(front, Cut(data, table)) == if data == [] then Some(front) else None
  {
    match Cut(data, table)
    case None =>
    case Some(pieces) => assert [] + pieces == pieces && (table == [] ==> front + pieces == front);
  }

  lemma CutOne(front: seq<seq<byte>>, data: seq<byte>, table: seq<nat>)
    requires table != [] && table[0] <= |data|
    ensures Joined(front, Cut(data, table)) == Joined(front + [data[..table[0]]], Cut(data[table[0]..], table[1..]))
  {
    var rest := Cut(data[table[0]..], table[1..]);
    if rest.Some? {
      assert front + ([data[..table[0]]] + rest.value) == front + [data[..table[0]]] + rest.value;
    }
  }

  // ---- byte by byte ----------------------------------------------------------

  /** The j-th base-256 digit of v, the lowest first. */
  function Digit(v: nat, j: nat): byte {
    if j == 0 then v % 256 else Digit(v / 256, j - 1)
  }

  /** The number v is written with its lowest byte at `at`, in n bytes. */
  ghost predicate NumberAt(blob: seq<byte>, at: nat, n: nat, v: nat) {
    at + n <= |blob| && forall j :: 0 <= j < n ==> blob[at + j] == Digit(v, j)
  }

  lemma {:induction false} PutDigits(v: nat, n: nat)
    ensures NumberAt(Put(v, n), 0, n, v)
  {
    if n > 0 {
      PutDigits(v / 256, n - 1);
      assert forall j :: 0 < j < n ==> Put(v, n)[j] == Put(v / 256, n - 1)[j - 1];
    }
  }

  lemma NumberIn(blob: seq<byte>, at: nat, n: nat, v: nat)
    requires at + n <= |blob| && blob[at..at + n] == Put(v, n)
    ensures NumberAt(blob, at, n, v)
  {
    PutDigits(v, n);
    forall j | 0 <= j < n ensures blob[at + j] == Digit(v, j) {
      assert blob[at..at + n][j] == blob[at + j];
    }
  }

  /** Where every byte of a serialized capsule is: magic number, version, fingerprint, tier,
      number of regions and length of the meta bytes at 0, 4, 8, 16, 20 and 24, then the
      lengths of the regions, the meta bytes, and the regions one behind the other. */
  lemma Layout(img: Image, i: nat)
    requires i < |img.regions|
    ensures var blob, n := Encode(img), |img.regions|; var body := HEADER + 8 * n;
      && NumberAt(blob, 0, 4, 0x43415053) && NumberAt(blob, 4, 4, 1) && NumberAt(blob, 8, 8, img.fingerprint)
      && NumberAt(blob, 16, 4, img.tier % U32) && NumberAt(blob, 20, 4, n) && NumberAt(blob, 24, 8, |img.meta|)
      && NumberAt(blob, 32 + 8 * i, 8, |img.regions[i]|)
      && body + |img.meta| <= |blob| && blob[body..body + |img.meta|] == img.meta
      && var at := body + |img.meta| + Total(img.regions[..i]);
         at + |img.regions[i]| <= |blob| && blob[at..at + |img.regions[i]|] == img.regions[i]
  {
    HeaderLayout(img);
    LengthLayout(img, i);
    DataLayout(img, i);
  }

  lemma HeaderLayout(img: Image)
    ensures var blob := Encode(img);
      && NumberAt(blob, 0, 4, 0x43415053) && NumberAt(blob, 4, 4, 1) && NumberAt(blob, 8, 8, img.fingerprint)
      && NumberAt(blob, 16, 4, img.tier % U32) && NumberAt(blob, 20, 4, |img.regions|)
      && NumberAt(blob, 24, 8, |img.meta|)
  {
    var rest := PutLengths(img.regions) + img.meta + Flat(img.regions);
    var n, m, blob := |img.regions|, |img.meta|, Encode(img);
    EncodeParts(img);
    HeadParts(Put(MAGIC, 4), Put(VERSION, 4), Put(img.fingerprint, 8), Put(img.tier % U32, 4), Put(n, 4), Put(m, 8),
              rest);
    NumberIn(blob, 0, 4, MAGIC);
    NumberIn(blob, 4, 4, VERSION);
    NumberIn(blob, 8, 8, img.fingerprint);
    NumberIn(blob, 16, 4, img.tier % U32);
    NumberIn(blob, 20, 4, n);
    NumberIn(blob, 24, 8, m);
  }

  lemma {:induction false} LengthIn(regions: seq<seq<byte>>, i: nat)
    requires i < |regions|
    ensures PutLengths(regions)[8 * i..8 * i + 8] == Put(|regions[i]|, 8)
  {
    if i > 0 {
      LengthIn(regions[1..], i - 1);
      var rest := PutLengths(regions[1..]);
      assert PutLengths(regions)[8 * i..8 * i + 8] == rest[8 * (i - 1)..8 * (i - 1) + 8];
    }
  }

  lemma {:induction false} DataIn(regions: seq<seq<byte>>, i: nat)
    requires i < |regions|
    ensures var at := Total(regions[..i]);
      at + |regions[i]| <= |Flat(regions)| && Flat(regions)[at..at + |regions[i]|] == regions[i]
  {
    if i > 0 {
      DataIn(regions[1..], i - 1);
      assert regions[..i][1..] == regions[1..][..i - 1];
      var at := Total(regions[1..][..i - 1]);
      assert Flat(regions)[|regions[0]| + at..|regions[0]| + at + |regions[i]|]
          == Flat(regions[1..])[at..at + |regions[i]|];
    }
  }

  /** A piece of the body is where it is in its part. */
  lemma BodyPieces(head: seq<byte>, table: seq<byte>, meta: seq<byte>, data: seq<byte>, i: nat, j: nat)
    ensures var blob := head + table + meta + data;
      && (i <= j <= |table| ==> blob[|head| + i..|head| + j] == table[i..j])
      && blob[|head| + |table|..|head| + |table| + |meta|] == meta
      && (i <= j <= |data| ==>
            blob[|head| + |table| + |meta| + i..|head| + |table| + |meta| + j] == data[i..j])
  {
  }

  lemma LengthLayout(img: Image, i: nat)
    requires i < |img.regions|
    ensures NumberAt(Encode(img), HEADER + 8 * i, 8, |img.regions[i]|)
  {
    LengthIn(img.regions, i);
    BodyPieces(Head(img.fingerprint, img.tier, |img.regions|, |img.meta|), PutLengths(img.regions), img.meta,
               Flat(img.regions), 8 * i, 8 * i + 8);
    NumberIn(Encode(img), HEADER + 8 * i, 8, |img.regions[i]|);
  }

  lemma DataLayout(img: Image, i: nat)
    requires i < |img.regions|
    ensures var blob, body := Encode(img), HEADER + 8 * |img.regions|;
      && body + |img.meta| <= |blob| && blob[body..body + |img.meta|] == img.meta
      && var at := body + |img.meta| + Total(img.regions[..i]);
         at + |img.regions[i]| <= |blob| && blob[at..at + |img.regions[i]|] == img.regions[i]
  {
    DataIn(img.regions, i);
    var at := Total(img.regions[..i]);
    BodyPieces(Head(img.fingerprint, img.tier, |img.regions|, |img.meta|), PutLengths(img.regions), img.meta,
               Flat(img.regions), at, at + |img.regions[i]|);
  }
}
