// The legacy subnet distributor of the VPC component
// (awsx/ec2/subnetDistributorLegacy.ts). The VPC block is cut into equal
// zone blocks; inside each zone the private, then the public, then the
// isolated specs are placed one after the other, each at the slot the
// `cidrSubnetV4` arithmetic proposes unless that slot overlaps the subnet
// placed just before, in which case at the next boundary after it.
//
// Addresses follow the `ip-address` library: an `Ip4` keeps the address as
// written (host bits included) with its prefix; its range runs from the
// address with host bits cleared to the last address of that block.
// Arithmetic is on unbounded integers, as with the library's big integers.
module SubnetDistributorLegacy {
  import opened Wrappers
  import opened Cidr
  import opened Text
  import opened SubnetTypes

  datatype Ip4 = Ip4(addr: int, mask: PrefixLength)

  /**
   * `startAddress()`: the address with its host bits cleared. The value sits
   * a few recursive steps down (`MaskedStart`), so that proofs which only
   * compare ranges do not unfold the division behind it; `StartOfIs` states
   * it for the proofs that need it.
   */
  function StartOf(a: Ip4): int
  {
    MaskedStart(a, 3)
  }

  function MaskedStart(a: Ip4, steps: nat): int
    decreases steps
  {
    if steps == 0 then Align(a.addr, a.mask) else MaskedStart(a, steps - 1)
  }

  lemma StartOfIs(a: Ip4)
    ensures StartOf(a) == Align(a.addr, a.mask)
  {
    assert MaskedStart(a, 0) == Align(a.addr, a.mask);
    assert MaskedStart(a, 1) == MaskedStart(a, 0);
    assert MaskedStart(a, 2) == MaskedStart(a, 1);
  }

  /** `endAddress()`: the last address of the block. */
  function EndOf(a: Ip4): int
  {
    StartOf(a) + BlockSize(a.mask) - 1
  }

  /** A subnet produced by the legacy distributor. */
  datatype LegacySpec = LegacySpec(cidr: Ip4, subnetType: SubnetType, azName: string, subnetName: string)

  // ---------------------------------------------------------------------
  // Block arithmetic

  /** The error `cidrSubnetV4` throws when the new prefix would exceed 32. */
  function TooManyBits(newBits: int, mask: PrefixLength): string
  {
    "Requested " + IntToString(newBits) + " new bits, but only " + IntToString(32 - mask) + " are available."
  }

  /**
   * `cidrSubnetV4(range, newBits, netNum)`: the netNum-th block of prefix
   * range.mask + newBits counted from range's address as written.
   */
  function CidrSubnetV4(range: Ip4, newBits: int, netNum: nat): (r: Result<Ip4>)
    ensures range.mask + newBits > 32 ==> r == Fail(TooManyBits(newBits, range.mask))
    ensures r.Ok? <==> 0 <= range.mask + newBits <= 32
    ensures r.Ok? ==> r.value.mask == range.mask + newBits
  {
    var newSubnetMask := range.mask + newBits;
    if newSubnetMask > 32 then
      Fail(TooManyBits(newBits, range.mask))
    else if newSubnetMask < 0 then
      Fail("Invalid subnet mask: /" + IntToString(newSubnetMask))
    else
      Ok(Ip4(range.addr + netNum * BlockSize(newSubnetMask), newSubnetMask))
  }

  /** The piece starts netNum blocks of the new prefix after range's address as written. */
  lemma CidrSubnetV4Addr(range: Ip4, newBits: int, netNum: nat)
    requires 0 <= range.mask + newBits <= 32
    ensures CidrSubnetV4(range, newBits, netNum) == Ok(Ip4(range.addr + netNum * BlockSize(range.mask + newBits), range.mask + newBits))
  {
  }

  /** Piece netNum of prefix range.mask + newBits of an aligned block. */
  lemma SplitInside(range: Ip4, newBits: nat, netNum: nat)
    requires range.mask + newBits <= 32
    requires range.addr % BlockSize(range.mask) == 0
    requires netNum < Pow2(newBits)
    ensures (range.addr + netNum * BlockSize(range.mask + newBits)) % BlockSize(range.mask + newBits) == 0
    ensures 0 <= netNum * BlockSize(range.mask + newBits)
    ensures netNum * BlockSize(range.mask + newBits) + BlockSize(range.mask + newBits) <= BlockSize(range.mask)
  {
    var m := range.mask + newBits;
    assert (range.addr + netNum * BlockSize(m)) % BlockSize(m) == 0 by {
      SizeDivides(range.mask, m);
      PieceAligned(range.addr, BlockSize(range.mask), BlockSize(m), netNum);
    }
    assert 0 <= netNum * BlockSize(m) && netNum * BlockSize(m) + BlockSize(m) <= BlockSize(range.mask) by {
      BlockSizeSplit(range.mask, newBits);
      PieceFits(netNum, Pow2(newBits), BlockSize(m), BlockSize(range.mask));
    }
  }

  /** Piece n of size s of a block aligned to a multiple of s is aligned to s. */
  lemma PieceAligned(addr: int, big: nat, s: nat, n: nat)
    requires s > 0 && big > 0 && big % s == 0 && addr % big == 0
    ensures (addr + n * s) % s == 0
  {
    ModTransitive(addr, big, s);
    AlignedAdd(addr, n, s);
  }

  /** Piece n of p pieces of size s lies inside the p * s addresses. */
  lemma PieceFits(n: nat, p: nat, s: nat, big: nat)
    requires n < p && big == p * s
    ensures 0 <= n * s && n * s + s <= big
  {
    MulLe(0, n, s);
    PieceBound(n, p, s);
  }

  /** A block of prefix m holds 2^k blocks of prefix m + k. */
  lemma BlockSizeSplit(m: PrefixLength, k: nat)
    requires m + k <= 32
    ensures BlockSize(m) == Pow2(k) * BlockSize(m + k)
  {
    var e := 32 - (m + k);
    Pow2Add(k, e);
    assert BlockSize(m) == Pow2(k + e);
    assert BlockSize(m + k) == Pow2(e);
  }

  lemma MulSucc(n: int, s: int)
    ensures (n + 1) * s == n * s + s
  {
  }

  lemma PieceBound(n: nat, p: nat, s: nat)
    requires n < p
    ensures n * s + s <= p * s
  {
    MulLe(n + 1, p, s);
    Distrib(n + 1, n, s);
  }

  /**
   * Splitting an aligned block: with netNum below 2^newBits the piece lies
   * inside the block and starts on its own boundary.
   */
  lemma CidrSubnetInside(range: Ip4, newBits: nat, netNum: nat)
    requires range.mask + newBits <= 32
    requires range.addr % BlockSize(range.mask) == 0
    requires netNum < Pow2(newBits)
    ensures CidrSubnetV4(range, newBits, netNum).Ok?
    ensures CidrSubnetV4(range, newBits, netNum).value.addr % BlockSize(range.mask + newBits) == 0
    ensures StartOf(CidrSubnetV4(range, newBits, netNum).value) == CidrSubnetV4(range, newBits, netNum).value.addr
    ensures StartOf(range) <= StartOf(CidrSubnetV4(range, newBits, netNum).value)
    ensures EndOf(CidrSubnetV4(range, newBits, netNum).value) <= EndOf(range)
  {
    var m := range.mask + newBits;
    var offset := netNum * BlockSize(m);
    var r := Ip4(range.addr + offset, m);
    assert CidrSubnetV4(range, newBits, netNum) == Ok(r) by {
      CidrSubnetV4Addr(range, newBits, netNum);
    }
    assert r.addr % BlockSize(m) == 0 && 0 <= offset && offset + BlockSize(m) <= BlockSize(range.mask) by {
      SplitInside(range, newBits, netNum);
    }
    assert StartOf(r) == r.addr by {
      AlignAligned(r.addr, r.mask);
      StartOfIs(r);
    }
    assert StartOf(range) == range.addr by {
      AlignAligned(range.addr, range.mask);
      StartOfIs(range);
    }
    PieceAtOffset(range, r, offset);
  }

  /** A block that starts `offset` addresses into another, both on their own boundaries, and fits, lies inside it. */
  lemma PieceAtOffset(range: Ip4, r: Ip4, offset: int)
    requires r.addr == range.addr + offset && 0 <= offset && offset + BlockSize(r.mask) <= BlockSize(range.mask)
    requires StartOf(r) == r.addr && StartOf(range) == range.addr
    ensures StartOf(range) <= StartOf(r) && EndOf(r) <= EndOf(range)
  {
  }

  /** Address x lies in a's range. */
  predicate InRange(a: Ip4, x: int)
  {
    StartOf(a) <= x <= EndOf(a)
  }

  /**
   * `isOverlapping(a, b)`: each range starts before the other ends. Like
   * `StartOf`, the comparison sits a few recursive steps down (`Overlap`);
   * `IsOverlappingIs` states it.
   */
  predicate IsOverlapping(a: Ip4, b: Ip4)
  {
    Overlap(a, b, 3)
  }

  predicate Overlap(a: Ip4, b: Ip4, steps: nat)
    decreases steps
  {
    if steps == 0 then StartOf(a) <= EndOf(b) && StartOf(b) <= EndOf(a) else Overlap(a, b, steps - 1)
  }

  lemma IsOverlappingIs(a: Ip4, b: Ip4)
    ensures IsOverlapping(a, b) <==> StartOf(a) <= EndOf(b) && StartOf(b) <= EndOf(a)
  {
    assert Overlap(a, b, 1) == Overlap(a, b, 0);
    assert Overlap(a, b, 2) == Overlap(a, b, 1);
  }

  lemma OverlapMeansCommonAddress(a: Ip4, b: Ip4)
    ensures IsOverlapping(a, b) == IsOverlapping(b, a)
    ensures IsOverlapping(a, b) <==> exists x :: InRange(a, x) && InRange(b, x)
  {
    IsOverlappingIs(a, b);
    IsOverlappingIs(b, a);
    if IsOverlapping(a, b) {
      var x := if StartOf(a) <= StartOf(b) then StartOf(b) else StartOf(a);
      assert InRange(a, x) && InRange(b, x);
    }
  }

  /**
   * `nextBlock(previous, m)`: the block of prefix m that starts right after
   * the prefix-m block holding previous's last address.
   */
  function NextBlock(previous: Ip4, m: PrefixLength): Ip4
  {
    var lastAddress := EndOf(previous);
    var lastAddressInNewMask := Ip4(lastAddress, m);
    var nextAddressNumber := EndOf(lastAddressInNewMask) + 1;
    Ip4(nextAddressNumber, m)
  }

  /**
   * The next block is the first prefix-m boundary after previous's last
   * address: aligned, past that address, and less than one block beyond it.
   * Hence it does not overlap the previous block.
   */
  lemma NextBlockClear(previous: Ip4, m: PrefixLength)
    ensures NextBlock(previous, m).mask == m && NextBlock(previous, m).addr % BlockSize(m) == 0
    ensures EndOf(previous) < NextBlock(previous, m).addr <= EndOf(previous) + BlockSize(m)
    ensures StartOf(NextBlock(previous, m)) == NextBlock(previous, m).addr
    ensures !IsOverlapping(previous, NextBlock(previous, m))
  {
    var lastAddress := EndOf(previous);
    var r := NextBlock(previous, m);
    StartOfIs(Ip4(lastAddress, m));
    AlignedAdd(Align(lastAddress, m), 1, BlockSize(m));
    AlignAligned(r.addr, m);
    StartOfIs(r);
    IsOverlappingIs(previous, r);
  }

  /** The candidate, or the next block after `current` when the candidate overlaps it. */
  function Place(current: Ip4, candidate: Ip4): (r: Ip4)
  {
    if IsOverlapping(current, candidate) then NextBlock(current, candidate.mask) else candidate
  }

  lemma PlaceClear(current: Ip4, candidate: Ip4)
    ensures Place(current, candidate).mask == candidate.mask
    ensures !IsOverlapping(current, Place(current, candidate))
    ensures !IsOverlapping(current, candidate) ==> Place(current, candidate) == candidate
  {
    NextBlockClear(current, candidate.mask);
  }

  // ---------------------------------------------------------------------
  // Powers of two

  /** Smallest k with 2^k >= n. */
  function Log2Ceil(n: nat): (k: nat)
    ensures Pow2(k) >= n
    ensures k > 0 ==> Pow2(k - 1) < n
    decreases n
  {
    if n <= 1 then 0 else 1 + Log2Ceil((n + 1) / 2)
  }

  /** `Math.log2` of an exact power of two. */
  function Log2Floor(x: nat): nat
    decreases x
  {
    if x <= 1 then 0 else 1 + Log2Floor(x / 2)
  }

  lemma {:induction false} Log2OfPow2(k: nat)
    ensures Log2Floor(Pow2(k)) == k
  {
    if k > 0 {
      Log2OfPow2(k - 1);
      assert Pow2(k) / 2 == Pow2(k - 1);
    }
  }

  /** Two exponents whose powers both bracket n the same way are equal. */
  lemma Pow2Bracket(j: nat, k: nat, n: nat)
    requires Pow2(j) >= n && (j > 0 ==> Pow2(j - 1) < n)
    requires Pow2(k) >= n && (k > 0 ==> Pow2(k - 1) < n)
    ensures j == k
  {
    if j < k {
      Pow2Monotone(j, k - 1);
    } else if k < j {
      Pow2Monotone(k, j - 1);
    }
  }

  /**
   * `nextPow2(n)`: 1 for 0, otherwise the least power of two at or above n.
   * The source smears the bits of n - 1 with shifts; the model doubles.
   */
  method NextPow2(n: nat) returns (r: nat)
    ensures r == Pow2(Log2Ceil(n))
    ensures r >= n && r >= 1
  {
    r := 1;
    ghost var k := 0;
    while r < n
      invariant r == Pow2(k)
      invariant k > 0 ==> Pow2(k - 1) < n
      decreases n - r
    {
      r := 2 * r;
      k := k + 1;
    }
    Pow2Bracket(k, Log2Ceil(n), n);
  }

  // ---------------------------------------------------------------------
  // Placing the specs of one type in one zone

  /** The block placed last, or `start` when none has been placed. */
  function LastOr(start: Ip4, blocks: seq<Ip4>): Ip4
  {
    if blocks == [] then start else blocks[|blocks| - 1]
  }

  /**
   * The blocks one loop of `getSubnetSpecsLegacy` places: block j is the
   * j-th block of its prefix counted from `splitBase`, moved past the block
   * placed before it (`start` for the first) when the two overlap.
   */
  function RunBlocks(start: Ip4, splitBase: Ip4, masks: seq<int>): (r: Result<seq<Ip4>>)
    ensures r.Ok? ==> |r.value| == |masks|
    decreases |masks|
  {
    if masks == [] then Ok([])
    else
      var n := |masks| - 1;
      match RunBlocks(start, splitBase, masks[..n])
      case Fail(e) => Fail(e)
      case Ok(blocks) =>
        match CidrSubnetV4(splitBase, masks[n] - splitBase.mask, n)
        case Fail(e) => Fail(e)
        case Ok(candidate) => Ok(blocks + [Place(LastOr(start, blocks), candidate)])
  }

  /** Consecutive blocks (the first against `start`) never overlap. */
  ghost predicate ChainClear(start: Ip4, blocks: seq<Ip4>)
  {
    forall j :: 0 <= j < |blocks| ==> !IsOverlapping(LastOr(start, blocks[..j]), blocks[j])
  }

  /** Every prefix lies between 0 and 32. */
  ghost predicate MasksValid(masks: seq<int>)
  {
    forall j :: 0 <= j < |masks| ==> 0 <= masks[j] <= 32
  }

  /** Block j has prefix masks[j]. */
  ghost predicate MasksKept(blocks: seq<Ip4>, masks: seq<int>)
  {
    |blocks| == |masks| && forall j :: 0 <= j < |masks| ==> blocks[j].mask == masks[j]
  }

  lemma ChainSnoc(start: Ip4, blocks: seq<Ip4>, b: Ip4)
    requires ChainClear(start, blocks) && !IsOverlapping(LastOr(start, blocks), b)
    ensures ChainClear(start, blocks + [b])
  {
    var all := blocks + [b];
    forall j | 0 <= j < |all|
      ensures !IsOverlapping(LastOr(start, all[..j]), all[j])
    {
      assert all[..j] == blocks[..j];
    }
  }

  lemma MasksSnoc(blocks: seq<Ip4>, masks: seq<int>, b: Ip4)
    requires |masks| > 0 && MasksKept(blocks, masks[..|masks| - 1]) && b.mask == masks[|masks| - 1]
    ensures MasksKept(blocks + [b], masks)
  {
  }

  lemma MasksValidSnoc(masks: seq<int>)
    requires |masks| > 0
    ensures MasksValid(masks) <==> MasksValid(masks[..|masks| - 1]) && 0 <= masks[|masks| - 1] <= 32
  {
    assert forall j :: 0 <= j < |masks| - 1 ==> masks[..|masks| - 1][j] == masks[j];
  }

  /**
   * A loop succeeds exactly when every prefix is between 0 and 32; then
   * block j has prefix masks[j] and does not overlap the block before it.
   */
  lemma {:induction false} RunBlocksSpec(start: Ip4, splitBase: Ip4, masks: seq<int>)
    ensures RunBlocks(start, splitBase, masks).Ok? <==> MasksValid(masks)
    ensures RunBlocks(start, splitBase, masks).Ok? ==>
      MasksKept(RunBlocks(start, splitBase, masks).value, masks) && ChainClear(start, RunBlocks(start, splitBase, masks).value)
    decreases |masks|
  {
    if masks != [] {
      var n := |masks| - 1;
      RunBlocksSpec(start, splitBase, masks[..n]);
      MasksValidSnoc(masks);
      var prefix := RunBlocks(start, splitBase, masks[..n]);
      var piece := CidrSubnetV4(splitBase, masks[n] - splitBase.mask, n);
      assert piece.Ok? <==> 0 <= masks[n] <= 32;
      if prefix.Fail? {
        assert RunBlocks(start, splitBase, masks).Fail?;
      } else if piece.Fail? {
        assert RunBlocks(start, splitBase, masks).Fail?;
      } else {
        var b := Place(LastOr(start, prefix.value), piece.value);
        assert RunBlocks(start, splitBase, masks) == Ok(prefix.value + [b]);
        PlaceClear(LastOr(start, prefix.value), piece.value);
        ChainSnoc(start, prefix.value, b);
        MasksSnoc(prefix.value, masks, b);
      }
    }
  }

  /** One loop of the zone: places the blocks and returns them with the new current block. */
  method PlaceRun(start: Ip4, splitBase: Ip4, masks: seq<int>) returns (r: Result<seq<Ip4>>)
    ensures r == RunBlocks(start, splitBase, masks)
  {
    var blocks: seq<Ip4> := [];
    var currentAddress := start;
    var j := 0;
    while j < |masks|
      invariant 0 <= j <= |masks|
      invariant RunBlocks(start, splitBase, masks[..j]) == Ok(blocks)
      invariant currentAddress == LastOr(start, blocks)
    {
      var newBits := masks[j] - splitBase.mask;
      var candidate := CidrSubnetV4(splitBase, newBits, j);
      RunBlocksNext(start, splitBase, masks, j);
      if candidate.Fail? {
        RunBlocksFailSticks(start, splitBase, masks, j + 1);
        return Fail(candidate.error);
      }
      var nextAddress := PlaceNext(currentAddress, candidate.value);
      blocks := blocks + [nextAddress];
      currentAddress := nextAddress;
      j := j + 1;
    }
    assert masks[..|masks|] == masks;
    return Ok(blocks);
  }

  /** Keeps the candidate unless it overlaps the current block, then takes the next block after it. */
  method PlaceNext(currentAddress: Ip4, candidate: Ip4) returns (nextAddress: Ip4)
    ensures nextAddress == Place(currentAddress, candidate)
  {
    nextAddress := candidate;
    if IsOverlapping(currentAddress, nextAddress) {
      nextAddress := NextBlock(currentAddress, nextAddress.mask);
    }
  }

  /** One more prefix: the loop places one more block, or stops with the split's error. */
  lemma RunBlocksNext(start: Ip4, splitBase: Ip4, masks: seq<int>, j: nat)
    requires j < |masks| && RunBlocks(start, splitBase, masks[..j]).Ok?
    ensures var blocks := RunBlocks(start, splitBase, masks[..j]).value;
      var candidate := CidrSubnetV4(splitBase, masks[j] - splitBase.mask, j);
      RunBlocks(start, splitBase, masks[..j + 1])
        == if candidate.Fail? then Fail(candidate.error) else Ok(blocks + [Place(LastOr(start, blocks), candidate.value)])
  {
    assert masks[..j + 1][..j] == masks[..j];
  }

  lemma {:induction false} RunBlocksFailSticks(start: Ip4, splitBase: Ip4, masks: seq<int>, k: nat)
    requires k <= |masks| && RunBlocks(start, splitBase, masks[..k]).Fail?
    ensures RunBlocks(start, splitBase, masks) == RunBlocks(start, splitBase, masks[..k])
    decreases |masks| - k
  {
    if k < |masks| {
      assert masks[..k + 1][..k] == masks[..k];
      RunBlocksFailSticks(start, splitBase, masks, k + 1);
    } else {
      assert masks[..k] == masks;
    }
  }

  // ---------------------------------------------------------------------
  // One zone

  /** The specs of one type, in input order (`filter` on the lower-cased type). */
  function OfType(specs: seq<SubnetSpecInput>, t: SubnetType): (r: seq<SubnetSpecInput>)
    ensures forall j :: 0 <= j < |r| ==> r[j].subnetType == t
    ensures |r| <= |specs|
  {
    if specs == [] then []
    else (if specs[0].subnetType == t then [specs[0]] else []) + OfType(specs[1..], t)
  }

  /** The specs in the order a zone lays them out: private, then public, then isolated. */
  function Arranged(specs: seq<SubnetSpecInput>): seq<SubnetSpecInput>
  {
    OfType(specs, Private) + OfType(specs, Public) + OfType(specs, Isolated)
  }

  /** The three filters split the specs: each spec lands in exactly one of them, as often as it occurs. */
  lemma {:induction false} ArrangedPermutes(specs: seq<SubnetSpecInput>)
    ensures multiset(Arranged(specs)) == multiset(specs)
    ensures |Arranged(specs)| == |specs|
  {
    if specs != [] {
      var x, rest := specs[0], specs[1..];
      ArrangedPermutes(rest);
      assert specs == [x] + rest;
      var privates, publics, isolated := OfType(rest, Private), OfType(rest, Public), OfType(rest, Isolated);
      MoveToFront(x, privates, publics, isolated);
      match x.subnetType
      case Private =>
        assert OfType(specs, Private) == [x] + privates;
        assert OfType(specs, Public) == publics && OfType(specs, Isolated) == isolated;
      case Public =>
        assert OfType(specs, Public) == [x] + publics;
        assert OfType(specs, Private) == privates && OfType(specs, Isolated) == isolated;
      case Isolated =>
        assert OfType(specs, Isolated) == [x] + isolated;
        assert OfType(specs, Private) == privates && OfType(specs, Public) == publics;
      assert multiset(Arranged(specs)) == multiset([x] + Arranged(rest));
    }
  }

  /** An element added to any one of three lists is, counted, an element added in front of all three. */
  lemma MoveToFront<T>(x: T, a: seq<T>, b: seq<T>, c: seq<T>)
    ensures multiset(([x] + a) + b + c) == multiset([x] + (a + b + c))
    ensures multiset(a + ([x] + b) + c) == multiset([x] + (a + b + c))
    ensures multiset(a + b + ([x] + c)) == multiset([x] + (a + b + c))
    ensures |([x] + a) + b + c| == |a + ([x] + b) + c| == |a + b + ([x] + c)| == |[x] + (a + b + c)|
  {
  }

  /** Each spec's prefix: its own, or the default for its type. */
  function MasksOf(specs: seq<SubnetSpecInput>, defaultMask: int): (r: seq<int>)
    ensures |r| == |specs|
    ensures forall j :: 0 <= j < |specs| ==> r[j] == specs[j].cidrMask.GetOr(defaultMask)
  {
    seq(|specs|, j requires 0 <= j < |specs| => specs[j].cidrMask.GetOr(defaultMask))
  }

  /** `${vpcName}-${name ?? type}-${azNum}` with the type in lower case. */
  function LegacyName(vpcName: string, spec: SubnetSpecInput, azNum: nat): string
  {
    vpcName + "-" + spec.name.GetOr(LowerTypeName(spec.subnetType)) + "-" + NatToString(azNum)
  }

  /** The descriptors for placed blocks of one type. */
  function Labelled(vpcName: string, azName: string, azNum: nat, t: SubnetType, specs: seq<SubnetSpecInput>, blocks: seq<Ip4>): (r: seq<LegacySpec>)
    requires |blocks| == |specs|
    ensures |r| == |specs|
  {
    seq(|specs|, j requires 0 <= j < |specs| => LegacySpec(blocks[j], t, azName, LegacyName(vpcName, specs[j], azNum)))
  }

  /** `cidrSubnetV4(b, 0, 1)`: the block right after b, of the same size. */
  function Advance(b: Ip4): (r: Ip4)
    ensures CidrSubnetV4(b, 0, 1) == Ok(r)
  {
    Ip4(b.addr + BlockSize(b.mask), b.mask)
  }

  /** Where the next type's blocks are counted from: after the last placed block, or the zone base. */
  function SplitBase(azBase: Ip4, last: Option<Ip4>): Ip4
  {
    match last
    case None => azBase
    case Some(b) => Advance(b)
  }

  function LastBlock(blocks: seq<Ip4>, earlier: Option<Ip4>): Option<Ip4>
  {
    if blocks == [] then earlier else Some(blocks[|blocks| - 1])
  }

  /** The default prefixes for private, public and isolated specs. */
  datatype Defaults = Defaults(privateMask: int, publicMask: int, isolatedMask: int)

  function DefaultsFor(baseSubnetMask: int, newBitsPerSubnet: nat): Defaults
  {
    Defaults(Max(baseSubnetMask + newBitsPerSubnet, 19), Max(baseSubnetMask + newBitsPerSubnet, 20), Max(baseSubnetMask + newBitsPerSubnet, 24))
  }

  function TypeDefault(defaults: Defaults, t: SubnetType): int
  {
    match t
    case Private => defaults.privateMask
    case Public => defaults.publicMask
    case Isolated => defaults.isolatedMask
  }

  function Max(a: int, b: int): int
  {
    if a >= b then a else b
  }

  /** The three per-type placements of one zone, private first. */
  datatype ZoneRuns = ZoneRuns(privates: seq<Ip4>, publics: seq<Ip4>, isolateds: seq<Ip4>)

  /**
   * The blocks of one zone. As with `StartOf`, the placement sits a few
   * recursive steps down (`ZoneSteps`), so that proofs about the list of
   * zones do not unfold three runs of placements; `ZoneBlocksIs` states it
   * for the proofs that need it.
   */
  function ZoneBlocks(azBase: Ip4, defaults: Defaults, specs: seq<SubnetSpecInput>): (r: Result<ZoneRuns>)
    ensures r.Ok? ==> (|r.value.privates| == |OfType(specs, Private)|
      && |r.value.publics| == |OfType(specs, Public)| && |r.value.isolateds| == |OfType(specs, Isolated)|)
  {
    ZoneSteps(azBase, defaults, specs, 3)
  }

  function ZoneSteps(azBase: Ip4, defaults: Defaults, specs: seq<SubnetSpecInput>, steps: nat): (r: Result<ZoneRuns>)
    ensures r.Ok? ==> (|r.value.privates| == |OfType(specs, Private)|
      && |r.value.publics| == |OfType(specs, Public)| && |r.value.isolateds| == |OfType(specs, Isolated)|)
    decreases steps
  {
    if steps == 0 then ZonePlacement(azBase, defaults, specs) else ZoneSteps(azBase, defaults, specs, steps - 1)
  }

  lemma ZoneBlocksIs(azBase: Ip4, defaults: Defaults, specs: seq<SubnetSpecInput>)
    ensures ZoneBlocks(azBase, defaults, specs) == ZonePlacement(azBase, defaults, specs)
  {
    assert ZoneSteps(azBase, defaults, specs, 0) == ZonePlacement(azBase, defaults, specs);
    assert ZoneSteps(azBase, defaults, specs, 1) == ZoneSteps(azBase, defaults, specs, 0);
    assert ZoneSteps(azBase, defaults, specs, 2) == ZoneSteps(azBase, defaults, specs, 1);
  }

  /** The private run from the zone's base, then the public and the isolated runs, each after the last block so far. */
  function ZonePlacement(azBase: Ip4, defaults: Defaults, specs: seq<SubnetSpecInput>): (r: Result<ZoneRuns>)
    ensures r.Ok? ==> (|r.value.privates| == |OfType(specs, Private)|
      && |r.value.publics| == |OfType(specs, Public)| && |r.value.isolateds| == |OfType(specs, Isolated)|)
  {
    var start := Ip4(StartOf(azBase) - 1, 32);
    match RunBlocks(start, azBase, MasksOf(OfType(specs, Private), defaults.privateMask))
    case Fail(e) => Fail(e)
    case Ok(priv) =>
      var lastPriv := LastBlock(priv, None);
      match RunBlocks(LastOr(start, priv), SplitBase(azBase, lastPriv), MasksOf(OfType(specs, Public), defaults.publicMask))
      case Fail(e) => Fail(e)
      case Ok(pub) =>
        var lastPub := LastBlock(pub, lastPriv);
        match RunBlocks(LastOr(LastOr(start, priv), pub), SplitBase(azBase, lastPub), MasksOf(OfType(specs, Isolated), defaults.isolatedMask))
        case Fail(e) => Fail(e)
        case Ok(iso) => Ok(ZoneRuns(priv, pub, iso))
  }

  /** The descriptors of one zone: its private, then public, then isolated subnets. */
  function ZoneSpecs(vpcName: string, azName: string, azNum: nat, azBase: Ip4, defaults: Defaults, specs: seq<SubnetSpecInput>): Result<seq<LegacySpec>>
  {
    match ZoneBlocks(azBase, defaults, specs)
    case Fail(e) => Fail(e)
    case Ok(runs) =>
      Ok(Labelled(vpcName, azName, azNum, Private, OfType(specs, Private), runs.privates)
        + Labelled(vpcName, azName, azNum, Public, OfType(specs, Public), runs.publics)
        + Labelled(vpcName, azName, azNum, Isolated, OfType(specs, Isolated), runs.isolateds))
  }

  /**
   * The body of the zone loop of `getSubnetSpecsLegacy`: three loops, each
   * counting its blocks from just after the last block placed so far.
   */
  method LayOutZoneLegacy(vpcName: string, azName: string, azNum: nat, azBase: Ip4, defaults: Defaults, specs: seq<SubnetSpecInput>)
    returns (r: Result<seq<LegacySpec>>)
    ensures r == ZoneSpecs(vpcName, azName, azNum, azBase, defaults, specs)
  {
    var privateSubnetsIn := OfType(specs, Private);
    var publicSubnetsIn := OfType(specs, Public);
    var isolatedSubnetsIn := OfType(specs, Isolated);
    ZoneBlocksIs(azBase, defaults, specs);
    var start := Ip4(StartOf(azBase) - 1, 32);
    var priv := PlaceRun(start, azBase, MasksOf(privateSubnetsIn, defaults.privateMask));
    if priv.Fail? {
      return Fail(priv.error);
    }
    var lastPriv := LastBlock(priv.value, None);
    var pub := PlaceRun(LastOr(start, priv.value), SplitBase(azBase, lastPriv), MasksOf(publicSubnetsIn, defaults.publicMask));
    if pub.Fail? {
      return Fail(pub.error);
    }
    var lastPub := LastBlock(pub.value, lastPriv);
    var iso := PlaceRun(LastOr(LastOr(start, priv.value), pub.value), SplitBase(azBase, lastPub), MasksOf(isolatedSubnetsIn, defaults.isolatedMask));
    if iso.Fail? {
      return Fail(iso.error);
    }
    return Ok(Labelled(vpcName, azName, azNum, Private, privateSubnetsIn, priv.value)
      + Labelled(vpcName, azName, azNum, Public, publicSubnetsIn, pub.value)
      + Labelled(vpcName, azName, azNum, Isolated, isolatedSubnetsIn, iso.value));
  }

  /**
   * `out` describes the specs `arranged` one for one: same type, the name
   * built from the spec, the spec's prefix (or its type's default), and the
   * zone's name.
   */
  ghost predicate Describes(out: seq<LegacySpec>, arranged: seq<SubnetSpecInput>, vpcName: string, azName: string, azNum: nat, defaults: Defaults)
  {
    |out| == |arranged|
    && forall k :: 0 <= k < |out| ==>
      out[k].azName == azName && out[k].subnetType == arranged[k].subnetType
      && out[k].subnetName == LegacyName(vpcName, arranged[k], azNum)
      && out[k].cidr.mask == arranged[k].cidrMask.GetOr(TypeDefault(defaults, arranged[k].subnetType))
  }

  lemma DescribesConcat(o1: seq<LegacySpec>, a1: seq<SubnetSpecInput>, o2: seq<LegacySpec>, a2: seq<SubnetSpecInput>, vpcName: string, azName: string, azNum: nat, defaults: Defaults)
    requires Describes(o1, a1, vpcName, azName, azNum, defaults) && Describes(o2, a2, vpcName, azName, azNum, defaults)
    ensures Describes(o1 + o2, a1 + a2, vpcName, azName, azNum, defaults)
  {
    forall k | |o1| <= k < |o1 + o2|
      ensures (o1 + o2)[k] == o2[k - |o1|] && (a1 + a2)[k] == a2[k - |o1|]
    {
    }
  }

  lemma LabelledDescribes(vpcName: string, azName: string, azNum: nat, t: SubnetType, group: seq<SubnetSpecInput>, blocks: seq<Ip4>, defaults: Defaults)
    requires forall j :: 0 <= j < |group| ==> group[j].subnetType == t
    requires MasksKept(blocks, MasksOf(group, TypeDefault(defaults, t)))
    ensures Describes(Labelled(vpcName, azName, azNum, t, group, blocks), group, vpcName, azName, azNum, defaults)
  {
  }

  /** A zone's private, public and isolated blocks, in that order, never overlap their predecessor. */
  lemma ZoneRunsClear(azBase: Ip4, defaults: Defaults, specs: seq<SubnetSpecInput>)
    requires ZoneBlocks(azBase, defaults, specs).Ok?
    ensures var runs := ZoneBlocks(azBase, defaults, specs).value;
      ConsecutiveClear(runs.privates + runs.publics + runs.isolateds)
  {
    ZoneRunsAre(azBase, defaults, specs);
    var start := Ip4(StartOf(azBase) - 1, 32);
    var runs := ZoneBlocks(azBase, defaults, specs).value;
    ChainsJoin(start, runs.privates, runs.publics, runs.isolateds);
  }

  /** The three runs of a zone, each a run of `RunBlocks` from the last block before it. */
  lemma ZoneRunsAre(azBase: Ip4, defaults: Defaults, specs: seq<SubnetSpecInput>)
    requires ZoneBlocks(azBase, defaults, specs).Ok?
    ensures var runs := ZoneBlocks(azBase, defaults, specs).value;
      var start := Ip4(StartOf(azBase) - 1, 32);
      var lastPriv := LastBlock(runs.privates, None);
      && RunBlocks(start, azBase, MasksOf(OfType(specs, Private), defaults.privateMask)) == Ok(runs.privates)
      && RunBlocks(LastOr(start, runs.privates), SplitBase(azBase, lastPriv), MasksOf(OfType(specs, Public), defaults.publicMask)) == Ok(runs.publics)
      && RunBlocks(LastOr(LastOr(start, runs.privates), runs.publics), SplitBase(azBase, LastBlock(runs.publics, lastPriv)), MasksOf(OfType(specs, Isolated), defaults.isolatedMask))
        == Ok(runs.isolateds)
      && MasksKept(runs.privates, MasksOf(OfType(specs, Private), defaults.privateMask))
      && MasksKept(runs.publics, MasksOf(OfType(specs, Public), defaults.publicMask))
      && MasksKept(runs.isolateds, MasksOf(OfType(specs, Isolated), defaults.isolatedMask))
      && ChainClear(start, runs.privates)
      && ChainClear(LastOr(start, runs.privates), runs.publics)
      && ChainClear(LastOr(LastOr(start, runs.privates), runs.publics), runs.isolateds)
  {
    ZoneBlocksIs(azBase, defaults, specs);
    var start := Ip4(StartOf(azBase) - 1, 32);
    var priv := RunBlocks(start, azBase, MasksOf(OfType(specs, Private), defaults.privateMask));
    RunBlocksSpec(start, azBase, MasksOf(OfType(specs, Private), defaults.privateMask));
    assert priv.Ok?;
    var lastPriv := LastBlock(priv.value, None);
    var pub := RunBlocks(LastOr(start, priv.value), SplitBase(azBase, lastPriv), MasksOf(OfType(specs, Public), defaults.publicMask));
    RunBlocksSpec(LastOr(start, priv.value), SplitBase(azBase, lastPriv), MasksOf(OfType(specs, Public), defaults.publicMask));
    assert pub.Ok?;
    var iso := RunBlocks(LastOr(LastOr(start, priv.value), pub.value), SplitBase(azBase, LastBlock(pub.value, lastPriv)), MasksOf(OfType(specs, Isolated), defaults.isolatedMask));
    RunBlocksSpec(LastOr(LastOr(start, priv.value), pub.value), SplitBase(azBase, LastBlock(pub.value, lastPriv)), MasksOf(OfType(specs, Isolated), defaults.isolatedMask));
    assert iso.Ok?;
    assert ZoneBlocks(azBase, defaults, specs).value == ZoneRuns(priv.value, pub.value, iso.value);
  }

  /**
   * A zone lays out every spec exactly once, private first, then public,
   * then isolated, each in input order: descriptor k describes spec k of
   * that arrangement, which is a permutation of the input specs.
   */
  lemma ZoneDescribesSpecs(vpcName: string, azName: string, azNum: nat, azBase: Ip4, defaults: Defaults, specs: seq<SubnetSpecInput>)
    requires ZoneSpecs(vpcName, azName, azNum, azBase, defaults, specs).Ok?
    ensures multiset(Arranged(specs)) == multiset(specs)
    ensures Describes(ZoneSpecs(vpcName, azName, azNum, azBase, defaults, specs).value, Arranged(specs), vpcName, azName, azNum, defaults)
    ensures |ZoneSpecs(vpcName, azName, azNum, azBase, defaults, specs).value| == |specs|
  {
    ArrangedPermutes(specs);
    var runs := ZoneBlocks(azBase, defaults, specs).value;
    ZoneRunsAre(azBase, defaults, specs);
    LabelledDescribes(vpcName, azName, azNum, Private, OfType(specs, Private), runs.privates, defaults);
    LabelledDescribes(vpcName, azName, azNum, Public, OfType(specs, Public), runs.publics, defaults);
    LabelledDescribes(vpcName, azName, azNum, Isolated, OfType(specs, Isolated), runs.isolateds, defaults);
    DescribesConcat(Labelled(vpcName, azName, azNum, Private, OfType(specs, Private), runs.privates), OfType(specs, Private),
      Labelled(vpcName, azName, azNum, Public, OfType(specs, Public), runs.publics), OfType(specs, Public), vpcName, azName, azNum, defaults);
    DescribesConcat(Labelled(vpcName, azName, azNum, Private, OfType(specs, Private), runs.privates) + Labelled(vpcName, azName, azNum, Public, OfType(specs, Public), runs.publics),
      OfType(specs, Private) + OfType(specs, Public),
      Labelled(vpcName, azName, azNum, Isolated, OfType(specs, Isolated), runs.isolateds), OfType(specs, Isolated), vpcName, azName, azNum, defaults);
  }

  /** The arrangement puts the private specs first, then the public ones, then the isolated ones. */
  lemma ArrangedOrder(specs: seq<SubnetSpecInput>, k: nat)
    requires k < |Arranged(specs)|
    ensures var p, q := |OfType(specs, Private)|, |OfType(specs, Public)|;
      Arranged(specs)[k].subnetType == (if k < p then Private else if k < p + q then Public else Isolated)
  {
  }

  /** The cidr blocks of the descriptors, in order. */
  function Cidrs(out: seq<LegacySpec>): (r: seq<Ip4>)
    ensures |r| == |out| && forall k :: 0 <= k < |out| ==> r[k] == out[k].cidr
  {
    seq(|out|, k requires 0 <= k < |out| => out[k].cidr)
  }

  /** No block overlaps the one listed right before it. */
  ghost predicate ConsecutiveClear(blocks: seq<Ip4>)
  {
    forall k :: 0 < k < |blocks| ==> !IsOverlapping(blocks[k - 1], blocks[k])
  }

  /** Within a zone, no subnet overlaps the subnet listed right before it. */
  lemma ZoneClear(vpcName: string, azName: string, azNum: nat, azBase: Ip4, defaults: Defaults, specs: seq<SubnetSpecInput>)
    requires ZoneSpecs(vpcName, azName, azNum, azBase, defaults, specs).Ok?
    ensures ConsecutiveClear(Cidrs(ZoneSpecs(vpcName, azName, azNum, azBase, defaults, specs).value))
  {
    var runs := ZoneBlocks(azBase, defaults, specs).value;
    var priv, pub, iso := runs.privates, runs.publics, runs.isolateds;
    ZoneRunsClear(azBase, defaults, specs);
    var l1 := Labelled(vpcName, azName, azNum, Private, OfType(specs, Private), priv);
    var l2 := Labelled(vpcName, azName, azNum, Public, OfType(specs, Public), pub);
    var l3 := Labelled(vpcName, azName, azNum, Isolated, OfType(specs, Isolated), iso);
    assert ZoneSpecs(vpcName, azName, azNum, azBase, defaults, specs).value == l1 + l2 + l3;
    CidrsConcat(l1, l2);
    CidrsConcat(l1 + l2, l3);
    CidrsLabelled(vpcName, azName, azNum, Private, OfType(specs, Private), priv);
    CidrsLabelled(vpcName, azName, azNum, Public, OfType(specs, Public), pub);
    CidrsLabelled(vpcName, azName, azNum, Isolated, OfType(specs, Isolated), iso);
  }

  lemma CidrsLabelled(vpcName: string, azName: string, azNum: nat, t: SubnetType, group: seq<SubnetSpecInput>, blocks: seq<Ip4>)
    requires |blocks| == |group|
    ensures Cidrs(Labelled(vpcName, azName, azNum, t, group, blocks)) == blocks
  {
  }

  lemma CidrsConcat(a: seq<LegacySpec>, b: seq<LegacySpec>)
    ensures Cidrs(a + b) == Cidrs(a) + Cidrs(b)
  {
  }

  /** Three clear chains, each starting from the last block of the one before, form one clear chain. */
  lemma ChainsJoin(start: Ip4, a: seq<Ip4>, b: seq<Ip4>, c: seq<Ip4>)
    requires ChainClear(start, a) && ChainClear(LastOr(start, a), b) && ChainClear(LastOr(LastOr(start, a), b), c)
    ensures ConsecutiveClear(a + b + c)
  {
    ChainAppend(start, a, b);
    LastOrConcat(start, a, b);
    ChainAppend(start, a + b, c);
    ChainConsecutive(start, a + b + c);
  }

  lemma LastOrConcat(start: Ip4, a: seq<Ip4>, b: seq<Ip4>)
    ensures LastOr(LastOr(start, a), b) == LastOr(start, a + b)
  {
  }

  /** A clear chain never overlaps its predecessor within the list. */
  lemma ChainConsecutive(start: Ip4, all: seq<Ip4>)
    requires ChainClear(start, all)
    ensures ConsecutiveClear(all)
  {
    forall k | 0 < k < |all|
      ensures !IsOverlapping(all[k - 1], all[k])
    {
      assert all[..k] != [] && LastOr(start, all[..k]) == all[k - 1];
    }
  }

  lemma ChainAppend(start: Ip4, a: seq<Ip4>, b: seq<Ip4>)
    requires ChainClear(start, a) && ChainClear(LastOr(start, a), b)
    ensures ChainClear(start, a + b)
  {
    var ab := a + b;
    forall j | 0 <= j < |ab|
      ensures !IsOverlapping(LastOr(start, ab[..j]), ab[j])
    {
      if j < |a| {
        assert ab[..j] == a[..j];
      } else {
        var i := j - |a|;
        assert ab[..j] == a + b[..i];
        assert LastOr(start, a + b[..i]) == LastOr(LastOr(start, a), b[..i]);
      }
    }
  }

  /** A zone is laid out exactly when every spec's prefix (its own or its type's default) is between 0 and 32. */
  lemma ZoneAcceptsIff(vpcName: string, azName: string, azNum: nat, azBase: Ip4, defaults: Defaults, specs: seq<SubnetSpecInput>)
    ensures ZoneSpecs(vpcName, azName, azNum, azBase, defaults, specs).Ok?
      <==> forall x :: x in specs ==> 0 <= x.cidrMask.GetOr(TypeDefault(defaults, x.subnetType)) <= 32
  {
    ZoneBlocksAccepts(azBase, defaults, specs);
    GroupValid(specs, Private, defaults);
    GroupValid(specs, Public, defaults);
    GroupValid(specs, Isolated, defaults);
  }

  /** The three runs of a zone are placed exactly when every prefix of every run is between 0 and 32. */
  lemma ZoneBlocksAccepts(azBase: Ip4, defaults: Defaults, specs: seq<SubnetSpecInput>)
    ensures ZoneBlocks(azBase, defaults, specs).Ok?
      <==> (MasksValid(MasksOf(OfType(specs, Private), defaults.privateMask))
        && MasksValid(MasksOf(OfType(specs, Public), defaults.publicMask))
        && MasksValid(MasksOf(OfType(specs, Isolated), defaults.isolatedMask)))
  {
    ZoneBlocksIs(azBase, defaults, specs);
    var start := Ip4(StartOf(azBase) - 1, 32);
    var privMasks := MasksOf(OfType(specs, Private), defaults.privateMask);
    var pubMasks := MasksOf(OfType(specs, Public), defaults.publicMask);
    var isoMasks := MasksOf(OfType(specs, Isolated), defaults.isolatedMask);
    var priv := RunBlocks(start, azBase, privMasks);
    RunBlocksOk(start, azBase, privMasks);
    if priv.Fail? {
      assert ZonePlacement(azBase, defaults, specs).Fail?;
    } else {
      var lastPriv := LastBlock(priv.value, None);
      var pub := RunBlocks(LastOr(start, priv.value), SplitBase(azBase, lastPriv), pubMasks);
      RunBlocksOk(LastOr(start, priv.value), SplitBase(azBase, lastPriv), pubMasks);
      if pub.Fail? {
        assert ZonePlacement(azBase, defaults, specs).Fail?;
      } else {
        var iso := RunBlocks(LastOr(LastOr(start, priv.value), pub.value), SplitBase(azBase, LastBlock(pub.value, lastPriv)), isoMasks);
        RunBlocksOk(LastOr(LastOr(start, priv.value), pub.value), SplitBase(azBase, LastBlock(pub.value, lastPriv)), isoMasks);
        assert ZonePlacement(azBase, defaults, specs).Ok? <==> iso.Ok?;
      }
    }
  }

  /** A run of placements succeeds exactly when its prefixes are between 0 and 32. */
  lemma RunBlocksOk(start: Ip4, splitBase: Ip4, masks: seq<int>)
    ensures RunBlocks(start, splitBase, masks).Ok? <==> MasksValid(masks)
  {
    RunBlocksSpec(start, splitBase, masks);
  }

  /** The prefixes of one type's specs are all between 0 and 32 exactly when those of the specs of that type are. */
  lemma {:induction false} GroupValid(specs: seq<SubnetSpecInput>, t: SubnetType, defaults: Defaults)
    ensures MasksValid(MasksOf(OfType(specs, t), TypeDefault(defaults, t)))
      <==> forall x :: x in specs && x.subnetType == t ==> 0 <= x.cidrMask.GetOr(TypeDefault(defaults, t)) <= 32
  {
    if specs != [] {
      GroupValid(specs[1..], t, defaults);
      assert specs == [specs[0]] + specs[1..];
      var rest := OfType(specs[1..], t);
      var d := TypeDefault(defaults, t);
      if specs[0].subnetType == t {
        assert OfType(specs, t) == [specs[0]] + rest;
        assert MasksOf(OfType(specs, t), d) == [specs[0].cidrMask.GetOr(d)] + MasksOf(rest, d);
        MasksValidCons(specs[0].cidrMask.GetOr(d), MasksOf(rest, d));
      } else {
        assert OfType(specs, t) == rest;
      }
    }
  }

  lemma MasksValidCons(h: int, tail: seq<int>)
    ensures MasksValid([h] + tail) <==> 0 <= h <= 32 && MasksValid(tail)
  {
    assert ([h] + tail)[0] == h;
    assert forall j :: 0 <= j < |tail| ==> ([h] + tail)[j + 1] == tail[j];
    assert forall j :: 1 <= j < |[h] + tail| ==> ([h] + tail)[j] == tail[j - 1];
  }

  // ---------------------------------------------------------------------
  // All zones

  /** Zone i's block: the i-th block of the zone prefix counted from the VPC's address. */
  function AzBases(vpcCidr: Ip4, newBitsPerAz: int, azCount: nat): (r: Result<seq<Ip4>>)
    ensures r.Ok? <==> azCount == 0 || 0 <= vpcCidr.mask + newBitsPerAz <= 32
    ensures r.Ok? ==> (|r.value| == azCount
      && forall i :: 0 <= i < azCount ==> r.value[i] == CidrSubnetV4(vpcCidr, newBitsPerAz, i).value)
    decreases azCount
  {
    if azCount == 0 then Ok([])
    else
      match AzBases(vpcCidr, newBitsPerAz, azCount - 1)
      case Fail(e) => Fail(e)
      case Ok(bases) =>
        match CidrSubnetV4(vpcCidr, newBitsPerAz, azCount - 1)
        case Fail(e) => Fail(e)
        case Ok(b) => Ok(bases + [b])
  }

  /**
   * With the default zone bits on an aligned VPC block, the zone blocks are
   * aligned, lie inside the VPC block, and come in address order without
   * overlapping.
   */
  lemma ZoneBasesInsideVpc(vpcCidr: Ip4, azCount: nat, i: nat, j: nat)
    requires vpcCidr.addr % BlockSize(vpcCidr.mask) == 0
    requires vpcCidr.mask + Log2Ceil(azCount) <= 32
    requires i < j < azCount
    ensures AzBases(vpcCidr, Log2Ceil(azCount), azCount).Ok?
    ensures var bases := AzBases(vpcCidr, Log2Ceil(azCount), azCount).value;
      StartOf(vpcCidr) <= StartOf(bases[i]) && EndOf(bases[j]) <= EndOf(vpcCidr)
      && EndOf(bases[i]) < StartOf(bases[j])
  {
    var bits := Log2Ceil(azCount);
    var bases := AzBases(vpcCidr, bits, azCount).value;
    CidrSubnetInside(vpcCidr, bits, i);
    CidrSubnetInside(vpcCidr, bits, j);
    IsOverlappingIs(bases[i], bases[j]);
    PieceBound(i, j, BlockSize(vpcCidr.mask + bits));
  }

  /** Bits per zone: from the explicit zone prefix, or enough to number the zones. */
  function NewBitsPerAz(vpcCidr: Ip4, azCount: nat, azCidrMask: Option<int>): int
  {
    match azCidrMask
    case Some(m) => m - vpcCidr.mask
    case None => Log2Ceil(azCount)
  }

  /** Position of element k of part i when every part has `width` elements. */
  function Position(i: nat, k: nat, width: nat): nat
  {
    i * width + k
  }

  /** The parts joined in order; the first part that failed decides the error. */
  function Flatten<T>(parts: seq<Result<seq<T>>>): Result<seq<T>>
    decreases |parts|
  {
    if parts == [] then Ok([])
    else
      var n := |parts| - 1;
      match Flatten(parts[..n])
      case Fail(e) => Fail(e)
      case Ok(before) =>
        match parts[n]
        case Fail(e) => Fail(e)
        case Ok(part) => Ok(before + part)
  }

  /** Parts of length `width` each, all succeeding, join into part i's element k at i * width + k. */
  lemma {:induction false} FlattenAt<T>(parts: seq<Result<seq<T>>>, width: nat, i: nat, k: nat)
    requires Flatten(parts).Ok? && i < |parts| && k < width
    requires forall j :: 0 <= j < |parts| ==> parts[j].Ok? ==> |parts[j].value| == width
    ensures parts[i].Ok? && |Flatten(parts).value| == |parts| * width
    ensures Position(i, k, width) < |parts| * width
    ensures Flatten(parts).value[Position(i, k, width)] == parts[i].value[k]
    decreases |parts|
  {
    var n := |parts| - 1;
    FlattenLength(parts, width);
    FlattenLength(parts[..n], width);
    MulLe(i + 1, n + 1, width);
    if i < n {
      FlattenAt(parts[..n], width, i, k);
      MulLe(i + 1, n, width);
    }
  }

  lemma {:induction false} FlattenLength<T>(parts: seq<Result<seq<T>>>, width: nat)
    requires Flatten(parts).Ok?
    requires forall j :: 0 <= j < |parts| ==> parts[j].Ok? ==> |parts[j].value| == width
    ensures forall j :: 0 <= j < |parts| ==> parts[j].Ok?
    ensures |Flatten(parts).value| == |parts| * width
    decreases |parts|
  {
    if parts != [] {
      var n := |parts| - 1;
      FlattenLength(parts[..n], width);
      MulSucc(n, width);
    }
  }

  lemma FlattenNext<T>(parts: seq<Result<seq<T>>>, i: nat)
    requires i < |parts| && Flatten(parts[..i]).Ok?
    ensures Flatten(parts[..i + 1])
      == if parts[i].Fail? then Fail(parts[i].error) else Ok(Flatten(parts[..i]).value + parts[i].value)
  {
    assert parts[..i + 1][..i] == parts[..i];
  }

  lemma {:induction false} FlattenFailSticks<T>(parts: seq<Result<seq<T>>>, k: nat)
    requires k <= |parts| && Flatten(parts[..k]).Fail?
    ensures Flatten(parts) == Flatten(parts[..k])
    decreases |parts| - k
  {
    if k < |parts| {
      assert parts[..k + 1][..k] == parts[..k];
      FlattenFailSticks(parts, k + 1);
    } else {
      assert parts[..k] == parts;
    }
  }

  /** Each zone's descriptors, or the error laying it out. */
  function ZoneParts(vpcName: string, azNames: seq<string>, bases: seq<Ip4>, defaults: Defaults, specs: seq<SubnetSpecInput>): (r: seq<Result<seq<LegacySpec>>>)
    requires |bases| == |azNames|
    ensures |r| == |azNames|
  {
    seq(|azNames|, i requires 0 <= i < |azNames| => ZoneSpecs(vpcName, azNames[i], i + 1, bases[i], defaults, specs))
  }

  /** The concatenation of the zones' descriptors, zone by zone. */
  function AllZones(vpcName: string, azNames: seq<string>, bases: seq<Ip4>, defaults: Defaults, specs: seq<SubnetSpecInput>): Result<seq<LegacySpec>>
    requires |bases| == |azNames|
  {
    Flatten(ZoneParts(vpcName, azNames, bases, defaults, specs))
  }

  lemma ZonePartsAt(vpcName: string, azNames: seq<string>, bases: seq<Ip4>, defaults: Defaults, specs: seq<SubnetSpecInput>, i: nat)
    requires |bases| == |azNames| && i < |azNames|
    ensures ZoneParts(vpcName, azNames, bases, defaults, specs)[i] == ZoneSpecs(vpcName, azNames[i], i + 1, bases[i], defaults, specs)
  {
  }

  /** Every zone laid out lists one descriptor per spec. */
  lemma ZonePartsWidth(vpcName: string, azNames: seq<string>, bases: seq<Ip4>, defaults: Defaults, specs: seq<SubnetSpecInput>)
    requires |bases| == |azNames|
    ensures var parts := ZoneParts(vpcName, azNames, bases, defaults, specs);
      forall j :: 0 <= j < |parts| ==> parts[j].Ok? ==> |parts[j].value| == |specs|
  {
    var parts := ZoneParts(vpcName, azNames, bases, defaults, specs);
    forall j | 0 <= j < |parts| && parts[j].Ok?
      ensures |parts[j].value| == |specs|
    {
      ZoneDescribesSpecs(vpcName, azNames[j], j + 1, bases[j], defaults, specs);
    }
  }

  /**
   * Zone i's descriptors sit at positions i * |specs| onwards: the zones come
   * in order, each contributing one descriptor per spec.
   */
  lemma AllZonesAt(vpcName: string, azNames: seq<string>, bases: seq<Ip4>, defaults: Defaults, specs: seq<SubnetSpecInput>, i: nat, k: nat)
    requires |bases| == |azNames| && AllZones(vpcName, azNames, bases, defaults, specs).Ok?
    requires i < |azNames| && k < |specs|
    ensures ZoneSpecs(vpcName, azNames[i], i + 1, bases[i], defaults, specs).Ok?
    ensures |ZoneSpecs(vpcName, azNames[i], i + 1, bases[i], defaults, specs).value| == |specs|
    ensures |AllZones(vpcName, azNames, bases, defaults, specs).value| == |azNames| * |specs|
    ensures Position(i, k, |specs|) < |azNames| * |specs|
    ensures AllZones(vpcName, azNames, bases, defaults, specs).value[Position(i, k, |specs|)]
      == ZoneSpecs(vpcName, azNames[i], i + 1, bases[i], defaults, specs).value[k]
  {
    var parts := ZoneParts(vpcName, azNames, bases, defaults, specs);
    ZonePartsAt(vpcName, azNames, bases, defaults, specs, i);
    ZonePartsWidth(vpcName, azNames, bases, defaults, specs);
    FlattenAt(parts, |specs|, i, k);
  }

  /** The zone loop of `getSubnetSpecsLegacy`. */
  method LayOutZones(vpcName: string, azNames: seq<string>, bases: seq<Ip4>, defaults: Defaults, specs: seq<SubnetSpecInput>)
    returns (r: Result<seq<LegacySpec>>)
    requires |bases| == |azNames|
    ensures r == AllZones(vpcName, azNames, bases, defaults, specs)
  {
    ghost var parts := ZoneParts(vpcName, azNames, bases, defaults, specs);
    var subnetsOut: seq<LegacySpec> := [];
    var i := 0;
    while i < |azNames|
      invariant 0 <= i <= |azNames|
      invariant Flatten(parts[..i]) == Ok(subnetsOut)
    {
      var zone := LayOutZoneLegacy(vpcName, azNames[i], i + 1, bases[i], defaults, specs);
      FlattenNext(parts, i);
      if zone.Fail? {
        FlattenFailSticks(parts, i + 1);
        return Fail(zone.error);
      }
      subnetsOut := subnetsOut + zone.value;
      i := i + 1;
    }
    assert parts[..|azNames|] == parts;
    return Ok(subnetsOut);
  }

  // ---------------------------------------------------------------------
  // The default layout

  /**
   * Each block split in two with `cidrSubnetV4(b, 1, 0)`, after first moving
   * to the next block of the same size when `advance` is set.
   */
  function SplitEach(blocks: seq<Ip4>, advance: bool): (r: Result<seq<Ip4>>)
    ensures r.Ok? ==> |r.value| == |blocks|
    decreases |blocks|
  {
    if blocks == [] then Ok([])
    else
      var n := |blocks| - 1;
      match SplitEach(blocks[..n], advance)
      case Fail(e) => Fail(e)
      case Ok(before) =>
        match CidrSubnetV4(if advance then Advance(blocks[n]) else blocks[n], 1, 0)
        case Fail(e) => Fail(e)
        case Ok(piece) => Ok(before + [piece])
  }

  /** Splitting succeeds exactly when every block is wider than a single address; piece i is the first half. */
  lemma {:induction false} SplitEachSpec(blocks: seq<Ip4>, advance: bool)
    ensures SplitEach(blocks, advance).Ok? <==> forall i :: 0 <= i < |blocks| ==> blocks[i].mask < 32
    ensures SplitEach(blocks, advance).Ok? ==> forall i :: 0 <= i < |blocks| ==>
      SplitEach(blocks, advance).value[i]
        == Ip4((if advance then Advance(blocks[i]) else blocks[i]).addr, blocks[i].mask + 1)
    decreases |blocks|
  {
    if blocks != [] {
      var n := |blocks| - 1;
      SplitEachSpec(blocks[..n], advance);
      assert forall i :: 0 <= i < n ==> blocks[..n][i] == blocks[i];
    }
  }

  /** One loop of `generateDefaultSubnets`. */
  method SplitAll(blocks: seq<Ip4>, advance: bool) returns (r: Result<seq<Ip4>>)
    ensures r == SplitEach(blocks, advance)
  {
    var out: seq<Ip4> := [];
    var i := 0;
    while i < |blocks|
      invariant 0 <= i <= |blocks|
      invariant SplitEach(blocks[..i], advance) == Ok(out)
    {
      assert blocks[..i + 1][..i] == blocks[..i];
      var splitBase := if advance then CidrSubnetV4(blocks[i], 0, 1).value else blocks[i];
      var piece := CidrSubnetV4(splitBase, 1, 0);
      if piece.Fail? {
        SplitEachFailSticks(blocks, advance, i + 1);
        return Fail(piece.error);
      }
      out := out + [piece.value];
      i := i + 1;
    }
    assert blocks[..|blocks|] == blocks;
    return Ok(out);
  }

  lemma {:induction false} SplitEachFailSticks(blocks: seq<Ip4>, advance: bool, k: nat)
    requires k <= |blocks| && SplitEach(blocks[..k], advance).Fail?
    ensures SplitEach(blocks, advance) == SplitEach(blocks[..k], advance)
    decreases |blocks| - k
  {
    if k < |blocks| {
      assert blocks[..k + 1][..k] == blocks[..k];
      SplitEachFailSticks(blocks, advance, k + 1);
    } else {
      assert blocks[..k] == blocks;
    }
  }

  /** The descriptors of one type in the default layout, zone by zone. */
  function Named(vpcName: string, azNames: seq<string>, t: SubnetType, infix: string, blocks: seq<Ip4>): (r: seq<LegacySpec>)
    requires |blocks| == |azNames|
    ensures |r| == |azNames|
  {
    seq(|azNames|, i requires 0 <= i < |azNames| =>
      LegacySpec(blocks[i], t, azNames[i], vpcName + infix + NatToString(i + 1)))
  }

  /** `generateDefaultSubnets`: every zone's first half as a private subnet, then the next quarter as a public one. */
  function DefaultLayout(vpcName: string, azNames: seq<string>, bases: seq<Ip4>): Result<seq<LegacySpec>>
    requires |bases| == |azNames|
  {
    match SplitEach(bases, false)
    case Fail(e) => Fail(e)
    case Ok(privs) =>
      match SplitEach(privs, true)
      case Fail(e) => Fail(e)
      case Ok(pubs) => Ok(Named(vpcName, azNames, Private, "-private-", privs) + Named(vpcName, azNames, Public, "-public-", pubs))
  }

  method GenerateDefaultSubnets(vpcName: string, azNames: seq<string>, azBases: seq<Ip4>) returns (r: Result<seq<LegacySpec>>)
    requires |azBases| == |azNames|
    ensures r == DefaultLayout(vpcName, azNames, azBases)
  {
    var privateSubnets := SplitAll(azBases, false);
    if privateSubnets.Fail? {
      return Fail(privateSubnets.error);
    }
    var publicSubnets := SplitAll(privateSubnets.value, true);
    if publicSubnets.Fail? {
      return Fail(publicSubnets.error);
    }
    return Ok(Named(vpcName, azNames, Private, "-private-", privateSubnets.value) + Named(vpcName, azNames, Public, "-public-", publicSubnets.value));
  }

  /** The default layout exists exactly when every zone block is /30 or wider. */
  lemma DefaultLayoutAccepts(vpcName: string, azNames: seq<string>, bases: seq<Ip4>)
    requires |bases| == |azNames|
    ensures DefaultLayout(vpcName, azNames, bases).Ok? <==> forall z :: 0 <= z < |bases| ==> bases[z].mask <= 30
  {
    SplitEachSpec(bases, false);
    var privs := SplitEach(bases, false);
    if privs.Ok? {
      SplitEachSpec(privs.value, true);
      assert (forall z :: 0 <= z < |bases| ==> privs.value[z].mask < 32) <==> (forall z :: 0 <= z < |bases| ==> bases[z].mask <= 30);
    } else {
      var z :| 0 <= z < |bases| && bases[z].mask >= 32;
    }
  }

  /**
   * Zone i's private subnet is the first half of its block, listed at i; its
   * public subnet is the quarter after that half, listed at |zones| + i; the
   * two do not overlap and, for an aligned zone block, both lie inside it.
   */
  lemma DefaultLayoutAt(vpcName: string, azNames: seq<string>, bases: seq<Ip4>, i: nat)
    requires |bases| == |azNames| && i < |azNames|
    requires DefaultLayout(vpcName, azNames, bases).Ok?
    ensures var out := DefaultLayout(vpcName, azNames, bases).value;
      var m := bases[i].mask;
      m <= 30 && |out| == 2 * |azNames|
      && out[i] == LegacySpec(Ip4(bases[i].addr, m + 1), Private, azNames[i], vpcName + "-private-" + NatToString(i + 1))
      && out[|azNames| + i] == LegacySpec(Ip4(bases[i].addr + BlockSize(m + 1), m + 2), Public, azNames[i], vpcName + "-public-" + NatToString(i + 1))
      && !IsOverlapping(out[i].cidr, out[|azNames| + i].cidr)
      && (bases[i].addr % BlockSize(m) == 0 ==>
        StartOf(bases[i]) <= StartOf(out[i].cidr) && EndOf(out[|azNames| + i].cidr) <= EndOf(bases[i]))
  {
    DefaultLayoutIs(vpcName, azNames, bases);
    var privs := SplitEach(bases, false).value;
    var pubs := SplitEach(privs, true).value;
    SplitEachAt(bases, false, i);
    SplitEachAt(privs, true, i);
    var out := DefaultLayout(vpcName, azNames, bases).value;
    assert out[i] == Named(vpcName, azNames, Private, "-private-", privs)[i];
    assert out[|azNames| + i] == Named(vpcName, azNames, Public, "-public-", pubs)[i];
    DefaultHalves(bases[i]);
  }

  lemma DefaultLayoutIs(vpcName: string, azNames: seq<string>, bases: seq<Ip4>)
    requires |bases| == |azNames| && DefaultLayout(vpcName, azNames, bases).Ok?
    ensures SplitEach(bases, false).Ok? && SplitEach(SplitEach(bases, false).value, true).Ok?
    ensures DefaultLayout(vpcName, azNames, bases).value
      == Named(vpcName, azNames, Private, "-private-", SplitEach(bases, false).value)
        + Named(vpcName, azNames, Public, "-public-", SplitEach(SplitEach(bases, false).value, true).value)
  {
  }

  lemma SplitEachAt(blocks: seq<Ip4>, advance: bool, i: nat)
    requires i < |blocks| && SplitEach(blocks, advance).Ok?
    ensures blocks[i].mask < 32
    ensures SplitEach(blocks, advance).value[i] == Ip4((if advance then Advance(blocks[i]) else blocks[i]).addr, blocks[i].mask + 1)
  {
    SplitEachSpec(blocks, advance);
  }

  /** The first half and the following quarter of a block: disjoint, and inside the block when it is aligned. */
  lemma DefaultHalves(b: Ip4)
    requires b.mask <= 30
    ensures var priv, pub := Ip4(b.addr, b.mask + 1), Ip4(b.addr + BlockSize(b.mask + 1), b.mask + 2);
      !IsOverlapping(priv, pub)
      && (b.addr % BlockSize(b.mask) == 0 ==> StartOf(b) <= StartOf(priv) && EndOf(pub) <= EndOf(b))
  {
    var m := b.mask;
    var priv, pub := Ip4(b.addr, m + 1), Ip4(b.addr + BlockSize(m + 1), m + 2);
    StartOfIs(priv);
    StartOfIs(pub);
    IsOverlappingIs(priv, pub);
    AlignAfter(b.addr, m + 1);
    if b.addr % BlockSize(m) == 0 {
      DefaultHalvesInside(b);
    }
  }

  lemma DefaultHalvesInside(b: Ip4)
    requires b.mask <= 30 && b.addr % BlockSize(b.mask) == 0
    ensures StartOf(b) == b.addr == StartOf(Ip4(b.addr, b.mask + 1))
    ensures EndOf(Ip4(b.addr + BlockSize(b.mask + 1), b.mask + 2)) <= EndOf(b)
  {
    var m := b.mask;
    var s1, s2 := BlockSize(m + 1), BlockSize(m + 2);
    BlockSizeStep(m);
    BlockSizeStep(m + 1);
    SizeDivides(m, m + 1);
    SizeDivides(m, m + 2);
    ModTransitive(b.addr, BlockSize(m), s1);
    ModTransitive(b.addr, BlockSize(m), s2);
    AlignedAdd(b.addr, 2, s2);
    StartOfIs(b);
    StartOfIs(Ip4(b.addr, m + 1));
    StartOfIs(Ip4(b.addr + s1, m + 2));
    AlignAligned(b.addr, m);
    AlignAligned(b.addr, m + 1);
    AlignAligned(b.addr + s1, m + 2);
  }

  /** Moving one block of prefix m forward lands at or past the end of the prefix-m block, at the next finer prefix. */
  lemma AlignAfter(a: int, m: PrefixLength)
    requires m < 32
    ensures Align(a, m) + BlockSize(m) <= Align(a + BlockSize(m), m + 1)
  {
    var s, h := BlockSize(m), BlockSize(m + 1);
    SizeDivides(m, m + 1);
    var x := Align(a, m) + s;
    AlignedAdd(Align(a, m), 1, s);
    ModTransitive(x, s, h);
    var y := Align(a + s, m + 1);
    if y < x {
      MultiplesApart(y, x, h);
    }
  }

  // ---------------------------------------------------------------------
  // The whole distributor

  /** What `getSubnetSpecsLegacy` returns or throws. */
  function LegacyLayout(vpcName: string, vpcCidr: Ip4, azNames: seq<string>, subnetInputs: Option<seq<SubnetSpecInput>>, azCidrMask: Option<int>): Result<seq<LegacySpec>>
  {
    match AzBases(vpcCidr, NewBitsPerAz(vpcCidr, |azNames|, azCidrMask), |azNames|)
    case Fail(e) => Fail(e)
    case Ok(bases) =>
      match subnetInputs
      case None => DefaultLayout(vpcName, azNames, bases)
      case Some(specs) =>
        if azNames == [] then Fail("No availability zone to take the base subnet mask from")
        else AllZones(vpcName, azNames, bases, DefaultsFor(bases[0].mask, Log2Ceil(|specs|)), specs)
  }

  /** `Math.log2(nextPow2(n))`: the bits needed to number n items. */
  method BitsFor(n: nat) returns (bits: nat)
    ensures bits == Log2Ceil(n)
  {
    var p := NextPow2(n);
    Log2OfPow2(Log2Ceil(n));
    bits := Log2Floor(p);
  }

  /** The loop of `getSubnetSpecsLegacy` that splits the VPC block between the zones. */
  method SplitVpc(vpcCidr: Ip4, newBitsPerAZ: int, azCount: nat) returns (r: Result<seq<Ip4>>)
    ensures r == AzBases(vpcCidr, newBitsPerAZ, azCount)
  {
    var azBases: seq<Ip4> := [];
    var i := 0;
    while i < azCount
      invariant 0 <= i <= azCount
      invariant AzBases(vpcCidr, newBitsPerAZ, i) == Ok(azBases)
    {
      var b := CidrSubnetV4(vpcCidr, newBitsPerAZ, i);
      if b.Fail? {
        AzBasesFailSticks(vpcCidr, newBitsPerAZ, i + 1, azCount);
        return Fail(b.error);
      }
      azBases := azBases + [b.value];
      i := i + 1;
    }
    return Ok(azBases);
  }

  /**
   * `getSubnetSpecsLegacy`: zone blocks first, then either the default
   * layout or, zone by zone, the given specs.
   */
  method GetSubnetSpecsLegacy(vpcName: string, vpcCidr: Ip4, azNames: seq<string>, subnetInputs: Option<seq<SubnetSpecInput>>, azCidrMask: Option<int>)
    returns (r: Result<seq<LegacySpec>>)
    ensures r == LegacyLayout(vpcName, vpcCidr, azNames, subnetInputs, azCidrMask)
  {
    var newBitsPerAZ: int;
    if azCidrMask.Some? {
      newBitsPerAZ := azCidrMask.value - vpcCidr.mask;
    } else {
      newBitsPerAZ := BitsFor(|azNames|);
    }
    var azBases := SplitVpc(vpcCidr, newBitsPerAZ, |azNames|);
    if azBases.Fail? {
      return Fail(azBases.error);
    }
    if subnetInputs.None? {
      r := GenerateDefaultSubnets(vpcName, azNames, azBases.value);
      return;
    }
    if |azNames| == 0 {
      return Fail("No availability zone to take the base subnet mask from");
    }
    var baseSubnetMask := azBases.value[0].mask;
    var newBitsPerSubnet := BitsFor(|subnetInputs.value|);
    r := LayOutZones(vpcName, azNames, azBases.value, DefaultsFor(baseSubnetMask, newBitsPerSubnet), subnetInputs.value);
  }

  lemma {:induction false} AzBasesFailSticks(vpcCidr: Ip4, newBitsPerAz: int, k: nat, n: nat)
    requires k <= n && AzBases(vpcCidr, newBitsPerAz, k).Fail?
    ensures AzBases(vpcCidr, newBitsPerAz, n) == AzBases(vpcCidr, newBitsPerAz, k)
    decreases n - k
  {
    if k < n {
      AzBasesFailSticks(vpcCidr, newBitsPerAz, k + 1, n);
    }
  }

  /**
   * Zone i laid out on its own: the given specs in the i-th block of the
   * zone prefix counted from the VPC address, with the defaults taken from
   * that prefix.
   */
  function SpecsZone(vpcName: string, vpcCidr: Ip4, azNames: seq<string>, specs: seq<SubnetSpecInput>, azCidrMask: Option<int>, i: nat): Result<seq<LegacySpec>>
    requires i < |azNames|
  {
    var bits := NewBitsPerAz(vpcCidr, |azNames|, azCidrMask);
    ZoneOnBlock(vpcName, vpcCidr, azNames, specs, i, bits, CidrSubnetV4(vpcCidr, bits, i))
  }

  /** Zone i's specs laid out on the block computed for it, or the error computing it gave. */
  function ZoneOnBlock(vpcName: string, vpcCidr: Ip4, azNames: seq<string>, specs: seq<SubnetSpecInput>, i: nat, bits: int,
                       block: Result<Ip4>): Result<seq<LegacySpec>>
    requires i < |azNames|
  {
    match block
    case Fail(e) => Fail(e)
    case Ok(base) => ZoneSpecs(vpcName, azNames[i], i + 1, base, DefaultsFor(vpcCidr.mask + bits, Log2Ceil(|specs|)), specs)
  }

  /**
   * With specs and at least one zone, descriptor i * |specs| + k is the
   * k-th descriptor of zone i laid out on its own.
   */
  lemma LegacyLayoutAt(vpcName: string, vpcCidr: Ip4, azNames: seq<string>, specs: seq<SubnetSpecInput>, azCidrMask: Option<int>, i: nat, k: nat)
    requires LegacyLayout(vpcName, vpcCidr, azNames, Some(specs), azCidrMask).Ok?
    requires i < |azNames| && k < |specs|
    ensures var zone := SpecsZone(vpcName, vpcCidr, azNames, specs, azCidrMask, i);
      var out := LegacyLayout(vpcName, vpcCidr, azNames, Some(specs), azCidrMask);
      zone.Ok? && |zone.value| == |specs| && out.Ok? && |out.value| == |azNames| * |specs|
      && Position(i, k, |specs|) < |out.value| && out.value[Position(i, k, |specs|)] == zone.value[k]
  {
    var bits := NewBitsPerAz(vpcCidr, |azNames|, azCidrMask);
    LegacyWithSpecs(vpcName, vpcCidr, azNames, specs, azCidrMask);
    ZonesAt(vpcName, vpcCidr, azNames, specs, azCidrMask, AzBases(vpcCidr, bits, |azNames|).value, i, k);
  }

  lemma ZonesAt(vpcName: string, vpcCidr: Ip4, azNames: seq<string>, specs: seq<SubnetSpecInput>, azCidrMask: Option<int>,
                bases: seq<Ip4>, i: nat, k: nat)
    requires |bases| == |azNames| && i < |azNames| && k < |specs|
    requires CidrSubnetV4(vpcCidr, NewBitsPerAz(vpcCidr, |azNames|, azCidrMask), i).Ok?
    requires bases[i] == CidrSubnetV4(vpcCidr, NewBitsPerAz(vpcCidr, |azNames|, azCidrMask), i).value
    requires AllZones(vpcName, azNames, bases,
      DefaultsFor(vpcCidr.mask + NewBitsPerAz(vpcCidr, |azNames|, azCidrMask), Log2Ceil(|specs|)), specs).Ok?
    ensures var zone := SpecsZone(vpcName, vpcCidr, azNames, specs, azCidrMask, i);
      var out := AllZones(vpcName, azNames, bases,
        DefaultsFor(vpcCidr.mask + NewBitsPerAz(vpcCidr, |azNames|, azCidrMask), Log2Ceil(|specs|)), specs);
      zone.Ok? && |zone.value| == |specs| && |out.value| == |azNames| * |specs|
      && Position(i, k, |specs|) < |out.value| && out.value[Position(i, k, |specs|)] == zone.value[k]
  {
    var bits := NewBitsPerAz(vpcCidr, |azNames|, azCidrMask);
    var defaults := DefaultsFor(vpcCidr.mask + bits, Log2Ceil(|specs|));
    AllZonesAt(vpcName, azNames, bases, defaults, specs, i, k);
    SpecsZoneIs(vpcName, vpcCidr, azNames, specs, azCidrMask, i, bits, bases[i]);
  }

  /** With specs, a layout that succeeds is the zones laid out on the zone blocks, with the defaults of the zone prefix. */
  lemma LegacyWithSpecs(vpcName: string, vpcCidr: Ip4, azNames: seq<string>, specs: seq<SubnetSpecInput>, azCidrMask: Option<int>)
    requires LegacyLayout(vpcName, vpcCidr, azNames, Some(specs), azCidrMask).Ok?
    ensures var bits := NewBitsPerAz(vpcCidr, |azNames|, azCidrMask);
      var bases := AzBases(vpcCidr, bits, |azNames|);
      azNames != [] && bases.Ok? && |bases.value| == |azNames|
      && (forall i :: 0 <= i < |azNames| ==> bases.value[i] == CidrSubnetV4(vpcCidr, bits, i).value)
      && LegacyLayout(vpcName, vpcCidr, azNames, Some(specs), azCidrMask)
        == AllZones(vpcName, azNames, bases.value, DefaultsFor(vpcCidr.mask + bits, Log2Ceil(|specs|)), specs)
  {
  }

  // ---------------------------------------------------------------------
  // Checking a layout

  /** `address` of a block written as `a.b.c.d/m`. */
  function CidrText(a: Ip4): string
  {
    Dotted(a.addr) + "/" + NatToString(a.mask)
  }

  /** A block with the range it covers. */
  function RangeText(a: Ip4): string
  {
    CidrText(a) + " (from " + Dotted(StartOf(a)) + " to " + Dotted(EndOf(a)) + ")"
  }

  /** The overlap error as written: the second block is shown with the first block's range. */
  function OverlapMessageAsWritten(previous: Ip4, current: Ip4): string
  {
    "Subnet ranges must not overlap. " + RangeText(previous) + " and " + CidrText(current)
      + " (from " + Dotted(StartOf(previous)) + " to " + Dotted(EndOf(previous)) + ") overlap.)"
  }

  /** The overlap error with each block shown with its own range. */
  function OverlapMessage(previous: Ip4, current: Ip4): string
  {
    "Subnet ranges must not overlap. " + RangeText(previous) + " and " + RangeText(current) + " overlap.)"
  }

  /** The dotted quad of an address in 10.0.0.0/24 is seven characters plus the last number's digits. */
  lemma DottedTenLength(x: int)
    requires 167772160 <= x < 167772416
    ensures |Dotted(x)| == 7 + |NatToString(x - 167772160)|
  {
    assert x % AddressSpace == x;
    assert x / 16777216 == 10 && x / 65536 % 256 == 0 && x / 256 % 256 == 0 && x % 256 == x - 167772160;
    assert |NatToString(1)| == 1;
    assert |NatToString(10)| == 2;
  }

  lemma DigitCounts()
    ensures |NatToString(0)| == 1 && |NatToString(128)| == 3 && |NatToString(255)| == 3
  {
    assert |NatToString(1)| == 1 && |NatToString(2)| == 1;
    assert |NatToString(12)| == 2 && |NatToString(25)| == 2;
  }

  /**
   * 10.0.0.0/24 and 10.0.0.128/25 overlap and start at different addresses,
   * yet the message as written shows the second with the first's range
   * (10.0.0.0 to 10.0.0.255): it is two characters shorter than the
   * corrected message, which shows 10.0.0.128 to 10.0.0.255.
   */
  lemma OverlapMessageMisreports()
    ensures IsOverlapping(Ip4(167772160, 24), Ip4(167772288, 25))
    ensures StartOf(Ip4(167772160, 24)) == 167772160 && StartOf(Ip4(167772288, 25)) == 167772288
    ensures |OverlapMessageAsWritten(Ip4(167772160, 24), Ip4(167772288, 25))| + 2
      == |OverlapMessage(Ip4(167772160, 24), Ip4(167772288, 25))|
    ensures OverlapMessageAsWritten(Ip4(167772160, 24), Ip4(167772288, 25))
      != OverlapMessage(Ip4(167772160, 24), Ip4(167772288, 25))
  {
    var p, c := Ip4(167772160, 24), Ip4(167772288, 25);
    SmallBlockSizes();
    AlignAligned(167772160, 24);
    AlignAligned(167772288, 25);
    StartOfIs(p);
    StartOfIs(c);
    IsOverlappingIs(p, c);
    DigitCounts();
    DottedTenLength(StartOf(p));
    DottedTenLength(StartOf(c));
    DottedTenLength(EndOf(p));
    DottedTenLength(EndOf(c));
    assert EndOf(c) == EndOf(p);
    assert StartOf(c) - 167772160 == 128 && StartOf(p) - 167772160 == 0;
    assert |Dotted(StartOf(c))| == 10;
    assert |Dotted(StartOf(p))| == 8;
    assert |RangeText(c)| == |CidrText(c)| + |" (from "| + |Dotted(StartOf(c))| + |" to "| + |Dotted(EndOf(c))| + |")"|;
  }

  /** The position of the first block that overlaps the block listed right before it. */
  function FirstClash(blocks: seq<Ip4>, k: nat): (r: Option<nat>)
    requires 1 <= k
    ensures r.Some? ==> (k <= r.value < |blocks| && IsOverlapping(blocks[r.value - 1], blocks[r.value]))
    decreases |blocks| - k
  {
    if k >= |blocks| then None
    else if IsOverlapping(blocks[k - 1], blocks[k]) then Some(k)
    else FirstClash(blocks, k + 1)
  }

  /** No clash is found from k on exactly when no block from k on overlaps its predecessor. */
  lemma {:induction false} FirstClashSpec(blocks: seq<Ip4>, k: nat)
    requires 1 <= k
    ensures FirstClash(blocks, k).None? <==> forall j :: k <= j < |blocks| ==> !IsOverlapping(blocks[j - 1], blocks[j])
    decreases |blocks| - k
  {
    if k < |blocks| {
      FirstClashSpec(blocks, k + 1);
    }
  }

  /** A clash found is the first one from k on. */
  lemma {:induction false} FirstClashIsFirst(blocks: seq<Ip4>, k: nat)
    requires 1 <= k && FirstClash(blocks, k).Some?
    ensures forall j :: k <= j < FirstClash(blocks, k).value ==> !IsOverlapping(blocks[j - 1], blocks[j])
    decreases |blocks| - k
  {
    if IsOverlapping(blocks[k - 1], blocks[k]) {
      assert FirstClash(blocks, k) == Some(k);
    } else {
      assert FirstClash(blocks, k) == FirstClash(blocks, k + 1);
      FirstClashIsFirst(blocks, k + 1);
    }
  }

  /** `validateRanges`: a pass, or the overlap error for the first clashing neighbours. */
  function RangesOutcome(blocks: seq<Ip4>): Outcome
  {
    match FirstClash(blocks, 1)
    case None => Pass
    case Some(k) => Reject(OverlapMessage(blocks[k - 1], blocks[k]))
  }

  /** A layout passes exactly when no block overlaps the block listed right before it. */
  lemma RangesOutcomeSpec(blocks: seq<Ip4>)
    ensures RangesOutcome(blocks).Pass? <==> ConsecutiveClear(blocks)
  {
    FirstClashSpec(blocks, 1);
  }

  /** `validateRanges` over the blocks of a layout, walking neighbour pairs. */
  method ValidateRanges(blocks: seq<Ip4>) returns (r: Outcome)
    ensures r == RangesOutcome(blocks)
  {
    if |blocks| == 0 {
      return Pass;
    }
    var previous := blocks[0];
    var k := 1;
    while k < |blocks|
      invariant 1 <= k <= |blocks|
      invariant previous == blocks[k - 1]
      invariant FirstClash(blocks, 1) == FirstClash(blocks, k)
    {
      var current := blocks[k];
      if IsOverlapping(previous, current) {
        return Reject(OverlapMessage(previous, current));
      }
      previous := current;
      k := k + 1;
    }
    return Pass;
  }

  /** A single zone's layout always passes `validateRanges`. */
  lemma SingleZonePasses(vpcName: string, vpcCidr: Ip4, azName: string, specs: seq<SubnetSpecInput>, azCidrMask: Option<int>)
    requires LegacyLayout(vpcName, vpcCidr, [azName], Some(specs), azCidrMask).Ok?
    ensures RangesOutcome(Cidrs(LegacyLayout(vpcName, vpcCidr, [azName], Some(specs), azCidrMask).value)) == Pass
  {
    SingleZoneLayout(vpcName, vpcCidr, azName, specs, azCidrMask);
    var bits := NewBitsPerAz(vpcCidr, 1, azCidrMask);
    var base := CidrSubnetV4(vpcCidr, bits, 0).value;
    ZoneClear(vpcName, azName, 1, base, DefaultsFor(vpcCidr.mask + bits, Log2Ceil(|specs|)), specs);
    RangesOutcomeSpec(Cidrs(LegacyLayout(vpcName, vpcCidr, [azName], Some(specs), azCidrMask).value));
  }

  /** With one zone, the layout is that zone's layout. */
  lemma SingleZoneLayout(vpcName: string, vpcCidr: Ip4, azName: string, specs: seq<SubnetSpecInput>, azCidrMask: Option<int>)
    requires LegacyLayout(vpcName, vpcCidr, [azName], Some(specs), azCidrMask).Ok?
    ensures LegacyLayout(vpcName, vpcCidr, [azName], Some(specs), azCidrMask) == SpecsZone(vpcName, vpcCidr, [azName], specs, azCidrMask, 0)
  {
    OneZoneLayout(vpcName, vpcCidr, [azName], specs, azCidrMask);
  }

  lemma OneZoneLayout(vpcName: string, vpcCidr: Ip4, azNames: seq<string>, specs: seq<SubnetSpecInput>, azCidrMask: Option<int>)
    requires |azNames| == 1 && LegacyLayout(vpcName, vpcCidr, azNames, Some(specs), azCidrMask).Ok?
    ensures LegacyLayout(vpcName, vpcCidr, azNames, Some(specs), azCidrMask) == SpecsZone(vpcName, vpcCidr, azNames, specs, azCidrMask, 0)
  {
    var bits := NewBitsPerAz(vpcCidr, |azNames|, azCidrMask);
    var defaults := DefaultsFor(vpcCidr.mask + bits, Log2Ceil(|specs|));
    var bases := OneZoneBases(vpcName, vpcCidr, azNames, specs, azCidrMask);
    assert AllZones(vpcName, azNames, bases, defaults, specs) == ZoneSpecs(vpcName, azNames[0], 1, bases[0], defaults, specs) by {
      AllZonesSingle(vpcName, azNames, bases, defaults, specs);
    }
    assert SpecsZone(vpcName, vpcCidr, azNames, specs, azCidrMask, 0) == ZoneSpecs(vpcName, azNames[0], 1, bases[0], defaults, specs) by {
      SpecsZoneIs(vpcName, vpcCidr, azNames, specs, azCidrMask, 0, bits, bases[0]);
    }
  }

  /** The single block of a one-zone layout, and the layout as the zones laid out on it. */
  lemma OneZoneBases(vpcName: string, vpcCidr: Ip4, azNames: seq<string>, specs: seq<SubnetSpecInput>, azCidrMask: Option<int>)
      returns (bases: seq<Ip4>)
    requires |azNames| == 1 && LegacyLayout(vpcName, vpcCidr, azNames, Some(specs), azCidrMask).Ok?
    ensures |bases| == 1
    ensures CidrSubnetV4(vpcCidr, NewBitsPerAz(vpcCidr, |azNames|, azCidrMask), 0) == Ok(bases[0])
    ensures LegacyLayout(vpcName, vpcCidr, azNames, Some(specs), azCidrMask)
      == AllZones(vpcName, azNames, bases, DefaultsFor(vpcCidr.mask + NewBitsPerAz(vpcCidr, |azNames|, azCidrMask), Log2Ceil(|specs|)), specs)
  {
    LegacyWithSpecs(vpcName, vpcCidr, azNames, specs, azCidrMask);
    bases := AzBases(vpcCidr, NewBitsPerAz(vpcCidr, |azNames|, azCidrMask), |azNames|).value;
  }

  /** Zone i of a layout with specs is the specs laid out on zone block i. */
  lemma SpecsZoneIs(vpcName: string, vpcCidr: Ip4, azNames: seq<string>, specs: seq<SubnetSpecInput>, azCidrMask: Option<int>,
                    i: nat, bits: int, base: Ip4)
    requires i < |azNames| && bits == NewBitsPerAz(vpcCidr, |azNames|, azCidrMask)
    requires CidrSubnetV4(vpcCidr, bits, i) == Ok(base)
    ensures SpecsZone(vpcName, vpcCidr, azNames, specs, azCidrMask, i)
      == ZoneSpecs(vpcName, azNames[i], i + 1, base, DefaultsFor(vpcCidr.mask + bits, Log2Ceil(|specs|)), specs)
  {
  }

  lemma AllZonesSingle(vpcName: string, azNames: seq<string>, bases: seq<Ip4>, defaults: Defaults, specs: seq<SubnetSpecInput>)
    requires |bases| == |azNames| == 1
    ensures AllZones(vpcName, azNames, bases, defaults, specs) == ZoneSpecs(vpcName, azNames[0], 1, bases[0], defaults, specs)
  {
    ZonePartsAt(vpcName, azNames, bases, defaults, specs, 0);
    FlattenSingle(ZoneParts(vpcName, azNames, bases, defaults, specs));
  }

  lemma FlattenSingle<T>(parts: seq<Result<seq<T>>>)
    requires |parts| == 1
    ensures Flatten(parts) == parts[0]
  {
    assert parts[..0] == [];
    if parts[0].Ok? {
      assert [] + parts[0].value == parts[0].value;
    }
  }
}
