// The current subnet distributor of the VPC component
// (awsx/ec2/subnetDistributorNew.ts): it splits a VPC block into one block
// per availability zone and lays the subnet specs out inside each zone,
// every subnet starting at the next boundary of its own size.
//
// The `netmask` library's blocks are `CidrBlock`s whose address is already
// aligned; its `size`, `last` and `next()` are modelled below.
module SubnetDistributorNew {
  import opened Wrappers
  import opened Cidr
  import opened Text
  import opened SubnetTypes

  // ---------------------------------------------------------------------
  // newBits

  /** `newBits(count)`: 0 for no zones, otherwise ceil(log2(count)). */
  function NewBits(count: nat): (r: nat)
    ensures Pow2(r) >= count
    ensures r > 0 ==> Pow2(r - 1) < count
  {
    if count <= 1 then 0 else 1 + NewBits((count + 1) / 2)
  }

  // ---------------------------------------------------------------------
  // The netmask library

  /** A block as the netmask library holds it: valid prefix, aligned base. */
  predicate IsNetmask(b: CidrBlock)
  {
    ValidMask(b) && b.addr % BlockSize(b.mask) == 0
  }

  /** `new Netmask(addr, bitmask)`: throws on a prefix outside 0..32, else masks the address. */
  function NewNetmask(addr: Address, bitmask: int): (r: Result<CidrBlock>)
    ensures r.Ok? <==> 0 <= bitmask <= 32
    ensures r.Ok? ==> IsNetmask(r.value) && r.value.mask == bitmask
    ensures r.Ok? ==> r.value.addr <= addr <= End(r.value)
  {
    if 0 <= bitmask <= 32 then Ok(CidrBlock(Align(addr, bitmask), bitmask))
    else Fail("Invalid mask for ip4: " + IntToString(bitmask))
  }

  /** `Netmask.last`: the broadcast address is excluded for prefixes up to /30. */
  function Last(b: CidrBlock): (r: Address)
    requires IsNetmask(b)
    ensures b.addr <= r <= End(b)
    ensures b.mask >= 31 ==> r == End(b)
    ensures b.mask <= 30 ==> r == End(b) - 1
  {
    AlignedBlockInSpace(b.addr, b.mask);
    if b.mask <= 30 then b.addr + BlockSize(b.mask) - 2 else b.addr + BlockSize(b.mask) - 1
  }

  /** `Netmask.next()`: the following block of the same size; addresses wrap modulo 2^32. */
  function Next(b: CidrBlock): (r: CidrBlock)
    requires IsNetmask(b)
    ensures IsNetmask(r) && r.mask == b.mask
    ensures b.addr + BlockSize(b.mask) < AddressSpace ==> r.addr == b.addr + BlockSize(b.mask)
  {
    AlignedAdd(b.addr, 1, BlockSize(b.mask));
    ModOfMultiple(b.addr + BlockSize(b.mask), BlockSize(b.mask), AddressSpace);
    CidrBlock((b.addr + BlockSize(b.mask)) % AddressSpace, b.mask)
  }

  /** nextNetmask for a valid prefix: re-size the last address, then step to the next block. */
  function Advance(previous: CidrBlock, m: PrefixLength): (r: CidrBlock)
    requires IsNetmask(previous)
    ensures IsNetmask(r) && r.mask == m
  {
    Next(CidrBlock(Align(Last(previous), m), m))
  }

  /** `nextNetmask(previous, nextBitmask)`. */
  function NextNetmask(previous: CidrBlock, nextBitmask: int): (r: Result<CidrBlock>)
    requires IsNetmask(previous)
    ensures r.Ok? <==> 0 <= nextBitmask <= 32
    ensures r.Ok? ==> r.value == Advance(previous, nextBitmask)
  {
    match NewNetmask(Last(previous), nextBitmask)
    case Ok(b) => Ok(Next(b))
    case Fail(e) => Fail(e)
  }

  /** Where `nextNetmask` would start before wrapping modulo 2^32. */
  function Unwrapped(previous: CidrBlock, m: PrefixLength): int
    requires IsNetmask(previous)
  {
    Align(Last(previous), m) + BlockSize(m)
  }

  /**
   * nextNetmask places the new block at the first boundary of its own size
   * after the previous block, unless a /32 follows a block of /30 or wider
   * (then `last` stops one short of the block's end) or the address wraps.
   */
  lemma NextNetmaskAfter(previous: CidrBlock, m: PrefixLength)
    requires IsNetmask(previous)
    requires m <= 31 || previous.mask >= 31
    requires Unwrapped(previous, m) < AddressSpace
    ensures Advance(previous, m).addr == Unwrapped(previous, m)
    ensures Advance(previous, m).addr > End(previous)
    ensures Advance(previous, m).addr - BlockSize(m) <= End(previous)
  {
    var p, n := previous.addr, previous.mask;
    var sp, sm := BlockSize(n), BlockSize(m);
    var last := Last(previous);
    if m <= n {
      AlignInside(p, n, m, last);
      BlockContains(p, n, m);
    } else {
      SizeDivides(n, m);
      ModTransitive(p, sp, sm);
      ModTransitive(sp, sp, sm) by { MulMod(1, sp); }
      AlignedAdd(p, 1, sp);
      ModTransitive(p + sp, sp, sm);
      AlignedAdd(p + sp, -1, sm);
      assert sm >= 2 || n >= 31;
      AlignIs(p + sp - sm, last, m);
    }
  }

  // ---------------------------------------------------------------------
  // Default subnet inputs

  function DefaultSubnetInputsBare(): (r: seq<SubnetSpecInput>)
  {
    [PlainSpec(Private), PlainSpec(Public)]
  }

  function Max(a: int, b: int): int
  {
    if a >= b then a else b
  }

  /** `defaultSubnetInputs(azBitmask)`: a private and a public subnet sized from the zone. */
  function DefaultSubnetInputs(azBitmask: int): (r: Result<seq<SubnetSpecInput>>)
    ensures r.Ok? <==> azBitmask <= 26
    ensures r.Ok? ==> |r.value| == 2
    ensures r.Ok? ==> r.value[0].subnetType == Private && r.value[1].subnetType == Public
    ensures r.Ok? ==> r.value[0].cidrMask == Some(Max(azBitmask, 16) + 1)
    ensures r.Ok? ==> r.value[1].cidrMask == Some(Max(azBitmask, 16) + 2)
    ensures r.Ok? ==> forall i :: 0 <= i < 2 ==> r.value[i].name.None? && r.value[i].size.None? && r.value[i].cidrBlocks.None?
  {
    if azBitmask > 26 then
      Fail("Automatic subnet creation requires a VPC with at least /26 available per AZ, but only /"
        + IntToString(azBitmask) + " is available."
        + "If you do need very small subnets, please specify them explicitly.")
    else
      var maxBitmask := Max(azBitmask, 16);
      var bare := DefaultSubnetInputsBare();
      Ok(seq(2, i requires 0 <= i < 2 => bare[i].(cidrMask := Some(maxBitmask + i + 1))))
  }

  /** Sum of the sizes of blocks with the given prefixes. */
  function TotalSize(masks: seq<PrefixLength>): nat
  {
    if masks == [] then 0 else BlockSize(masks[0]) + TotalSize(masks[1..])
  }

  /**
   * The default private and public subnets fit in their zone and leave at
   * least a quarter of it unallocated.
   */
  lemma DefaultSubnetsFit(azBitmask: PrefixLength)
    requires azBitmask <= 26
    ensures var d := DefaultSubnetInputs(azBitmask);
      d.Ok? && 4 * TotalSize([d.value[0].cidrMask.value, d.value[1].cidrMask.value]) <= 3 * BlockSize(azBitmask)
  {
    var mx := Max(azBitmask, 16);
    var b0, b1, b2 := BlockSize(mx), BlockSize(mx + 1), BlockSize(mx + 2);
    BlockSizeStep(mx);
    BlockSizeStep(mx + 1);
    SizeDivides(azBitmask, mx);
    TotalSizeTwo(mx + 1, mx + 2);
  }

  lemma TotalSizeTwo(a: PrefixLength, b: PrefixLength)
    ensures TotalSize([a, b]) == BlockSize(a) + BlockSize(b)
  {
    assert [a, b][1..] == [b];
    assert [b][1..] == [];
    assert TotalSize([b]) == BlockSize(b) + TotalSize([]);
  }

  // ---------------------------------------------------------------------
  // Names

  /** `subnetName`: `${vpcName}-${name ?? type.toLowerCase()}-${azNum}`. */
  function SubnetName(vpcName: string, spec: SubnetSpecInput, azNum: nat): string
  {
    vpcName + "-" + spec.name.GetOr(LowerTypeName(spec.subnetType)) + "-" + NatToString(azNum)
  }

  // ---------------------------------------------------------------------
  // Allocation

  /** The checked inputs of an allocation: the first zone block and one prefix per spec. */
  datatype Plan = Plan(azBlock: CidrBlock, masks: seq<PrefixLength>)

  function MaskOf(spec: SubnetSpecInput, defaultMask: int): int
  {
    spec.cidrMask.GetOr(defaultMask)
  }

  /**
   * The `reduce` over the specs' sizes: each prefix is checked by
   * `new Netmask`, and the first invalid one throws.
   */
  function CheckedMasks(specs: seq<SubnetSpecInput>, defaultMask: int): (r: Result<seq<PrefixLength>>)
    ensures r.Ok? <==> forall i :: 0 <= i < |specs| ==> 0 <= MaskOf(specs[i], defaultMask) <= 32
    ensures r.Ok? ==> |r.value| == |specs| && forall i :: 0 <= i < |specs| ==> r.value[i] == MaskOf(specs[i], defaultMask)
  {
    if specs == [] then Ok([])
    else
      var m := MaskOf(specs[0], defaultMask);
      if !(0 <= m <= 32) then Fail("Invalid mask for ip4: " + IntToString(m))
      else
        match CheckedMasks(specs[1..], defaultMask)
        case Fail(e) => Fail(e)
        case Ok(rest) => Ok([m] + rest)
  }

  /** The specs allocation uses: the given ones, or the defaults for the zone size. */
  function SpecsFor(subnetInputs: Option<seq<SubnetSpecInput>>, azBitmask: int): Result<seq<SubnetSpecInput>>
  {
    match subnetInputs
    case Some(s) => Ok(s)
    case None => DefaultSubnetInputs(azBitmask)
  }

  /** The zone prefix: the given one, or the VPC prefix plus enough bits to number the zones. */
  function AzBitmask(vpc: CidrBlock, azCount: nat, azCidrMask: Option<int>): int
  {
    azCidrMask.GetOr(vpc.mask + NewBits(azCount))
  }

  /** The checks `allocateSubnetCidrBlocks` makes before it lays anything out. */
  function PlanAllocation(vpcCidr: CidrBlock, azCount: nat, subnetInputs: Option<seq<SubnetSpecInput>>, azCidrMask: Option<int>): (r: Result<Plan>)
    ensures subnetInputs == Some([]) && ValidMask(vpcCidr) ==> r == Fail("No subnets specified")
    ensures r.Ok? ==> ValidMask(vpcCidr) && IsNetmask(r.value.azBlock)
    ensures r.Ok? ==> r.value.azBlock.addr == Align(Align(vpcCidr.addr, vpcCidr.mask), r.value.azBlock.mask)
    ensures r.Ok? ==> r.value.azBlock.mask == AzBitmask(CidrBlock(Align(vpcCidr.addr, vpcCidr.mask), vpcCidr.mask), azCount, azCidrMask)
    ensures r.Ok? ==> 1 <= |r.value.masks| && TotalSize(r.value.masks) <= BlockSize(r.value.azBlock.mask)
    ensures r.Ok? && subnetInputs.Some? ==> |r.value.masks| == |subnetInputs.value|
    ensures r.Ok? && subnetInputs.None? ==> |r.value.masks| == 2
  {
    match NewNetmask(vpcCidr.addr, vpcCidr.mask)
    case Fail(e) => Fail(e)
    case Ok(vpc) =>
      var azBitmask := AzBitmask(vpc, azCount, azCidrMask);
      match SpecsFor(subnetInputs, azBitmask)
      case Fail(e) => Fail(e)
      case Ok(specs) =>
        if |specs| == 0 then Fail("No subnets specified")
        else
          var defaultMask := azBitmask + NewBits(|specs|);
          match NewNetmask(vpc.addr, azBitmask)
          case Fail(e) => Fail(e)
          case Ok(az) =>
            match SizedMasks(specs, defaultMask, BlockSize(az.mask))
            case Fail(e) => Fail(e)
            case Ok(masks) => Ok(Plan(az, masks))
  }

  /** The specs' prefixes, checked one by one, then the size check against one zone. */
  function SizedMasks(specs: seq<SubnetSpecInput>, defaultMask: int, azSize: nat): (r: Result<seq<PrefixLength>>)
    ensures r.Ok? ==> |r.value| == |specs| && TotalSize(r.value) <= azSize
    ensures r.Ok? <==> CheckedMasks(specs, defaultMask).Ok? && TotalSize(CheckedMasks(specs, defaultMask).value) <= azSize
  {
    match CheckedMasks(specs, defaultMask)
    case Fail(e) => Fail(e)
    case Ok(masks) =>
      var total := TotalSize(masks);
      if total > azSize then
        Fail("Subnets are too large for VPC. VPC has " + NatToString(azSize)
          + " addresses, but subnets require " + NatToString(total) + " addresses.")
      else
        Ok(masks)
  }

  /** Zone i's block: the first zone block advanced i times with `next()`. */
  function AzBlock(first: CidrBlock, i: nat): (r: CidrBlock)
    requires IsNetmask(first)
    ensures IsNetmask(r) && r.mask == first.mask
  {
    if i == 0 then first else Next(AzBlock(first, i - 1))
  }

  /** The k-th subnet of a zone whose block starts at azBase, as the loop places it. */
  function PlaceSubnet(azBase: Address, masks: seq<PrefixLength>, k: nat): (b: CidrBlock)
    requires k < |masks|
    ensures IsNetmask(b) && b.mask == masks[k]
  {
    if k == 0 then CidrBlock(Align(azBase, masks[0]), masks[0])
    else Advance(PlaceSubnet(azBase, masks, k - 1), masks[k])
  }

  /** The inner loop of `allocateSubnetCidrBlocks`: one zone's subnets, each placed after the previous. */
  method LayOutZone(azBlock: CidrBlock, masks: seq<PrefixLength>) returns (row: seq<CidrBlock>)
    ensures IsZoneLayout(row, azBlock.addr, masks)
  {
    row := [];
    var current: Option<CidrBlock> := None;
    var k := 0;
    while k < |masks|
      invariant 0 <= k <= |masks|
      invariant IsPlacedPrefix(row, azBlock.addr, masks, k)
      invariant current.None? <==> k == 0
      invariant k > 0 ==> current.value == PlaceSubnet(azBlock.addr, masks, k - 1)
    {
      var next: CidrBlock;
      if current.None? {
        next := NewNetmask(azBlock.addr, masks[k]).value;
      } else {
        next := NextNetmask(current.value, masks[k]).value;
      }
      assert next == PlaceSubnet(azBlock.addr, masks, k);
      current := Some(next);
      PlacedPrefixExtends(row, azBlock.addr, masks, k);
      row := row + [next];
      k := k + 1;
    }
  }

  lemma PlacedPrefixExtends(row: seq<CidrBlock>, azBase: Address, masks: seq<PrefixLength>, k: nat)
    requires k < |masks| && IsPlacedPrefix(row, azBase, masks, k)
    ensures IsPlacedPrefix(row + [PlaceSubnet(azBase, masks, k)], azBase, masks, k + 1)
  {
    var row' := row + [PlaceSubnet(azBase, masks, k)];
    forall j | 0 <= j < k + 1
      ensures row'[j] == PlaceSubnet(azBase, masks, j)
    {
      if j < k {
        assert row'[j] == row[j];
      }
    }
  }

  /** `row` is the zone layout of `masks` in the zone starting at azBase. */
  ghost predicate IsZoneLayout(row: seq<CidrBlock>, azBase: Address, masks: seq<PrefixLength>)
  {
    IsPlacedPrefix(row, azBase, masks, |masks|)
  }

  /** The first k subnets of the layout as written. */
  ghost predicate IsPlacedPrefix(row: seq<CidrBlock>, azBase: Address, masks: seq<PrefixLength>, k: nat)
    requires k <= |masks|
  {
    |row| == k && forall j {:trigger row[j]} :: 0 <= j < k ==> row[j] == PlaceSubnet(azBase, masks, j)
  }

  /**
   * `allocateSubnetCidrBlocks` as written. The allocation record, keyed by
   * `${subnetName}#${index}`, is given here as one row per zone holding one
   * block per spec.
   */
  method AllocateSubnetCidrBlocks(vpcCidr: CidrBlock, azNames: seq<string>, subnetInputs: Option<seq<SubnetSpecInput>>, azCidrMask: Option<int>)
    returns (r: Result<seq<seq<CidrBlock>>>)
    ensures var plan := PlanAllocation(vpcCidr, |azNames|, subnetInputs, azCidrMask);
      plan.Fail? ==> r == Fail(plan.error)
    ensures var plan := PlanAllocation(vpcCidr, |azNames|, subnetInputs, azCidrMask);
      plan.Ok? ==> (r.Ok? && |r.value| == |azNames|
        && forall i :: 0 <= i < |azNames| ==> IsZoneLayout(r.value[i], AzBlock(plan.value.azBlock, i).addr, plan.value.masks))
  {
    var plan := PlanAllocation(vpcCidr, |azNames|, subnetInputs, azCidrMask);
    if plan.Fail? {
      return Fail(plan.error);
    }
    var rows := LayOutZones(plan.value.azBlock, plan.value.masks, |azNames|);
    return Ok(rows);
  }

  /** The zone loop of `allocateSubnetCidrBlocks`: zone i's row is laid out from the i-th zone block. */
  method LayOutZones(first: CidrBlock, masks: seq<PrefixLength>, azCount: nat) returns (allocation: seq<seq<CidrBlock>>)
    requires IsNetmask(first)
    ensures |allocation| == azCount
    ensures forall i :: 0 <= i < azCount ==> IsZoneLayout(allocation[i], AzBlock(first, i).addr, masks)
  {
    allocation := [];
    var currentAz := first;
    var azIndex := 0;
    while azIndex < azCount
      invariant 0 <= azIndex <= azCount
      invariant currentAz == AzBlock(first, azIndex)
      invariant |allocation| == azIndex
      invariant PlacedRows(allocation, first, masks)
    {
      var row := LayOutZone(currentAz, masks);
      assert ZoneRowPlaced(row, first, masks, azIndex);
      PlacedRowsSnoc(allocation, row, first, masks);
      allocation := allocation + [row];
      currentAz := Next(currentAz);
      azIndex := azIndex + 1;
    }
  }

  /** Row i is the layout as written of zone i. */
  ghost predicate ZoneRowPlaced(row: seq<CidrBlock>, first: CidrBlock, masks: seq<PrefixLength>, i: nat)
    requires IsNetmask(first)
  {
    IsZoneLayout(row, AzBlock(first, i).addr, masks)
  }

  ghost predicate PlacedRows(rows: seq<seq<CidrBlock>>, first: CidrBlock, masks: seq<PrefixLength>)
    requires IsNetmask(first)
  {
    forall i :: 0 <= i < |rows| ==> ZoneRowPlaced(rows[i], first, masks, i)
  }

  lemma PlacedRowsSnoc(rows: seq<seq<CidrBlock>>, row: seq<CidrBlock>, first: CidrBlock, masks: seq<PrefixLength>)
    requires IsNetmask(first) && PlacedRows(rows, first, masks) && ZoneRowPlaced(row, first, masks, |rows|)
    ensures PlacedRows(rows + [row], first, masks)
  {
    forall i | 0 <= i < |rows| + 1
      ensures ZoneRowPlaced((rows + [row])[i], first, masks, i)
    {
      if i < |rows| {
        assert (rows + [row])[i] == rows[i];
      }
    }
  }

  /**
   * The layout never wraps past the top of the address space and never puts
   * a /32 right after a block of /30 or wider.
   */
  ghost predicate SteadyLayout(azBase: Address, masks: seq<PrefixLength>)
  {
    forall k :: 0 < k < |masks| ==> SteadyStep(azBase, masks, k)
  }

  ghost predicate SteadyStep(azBase: Address, masks: seq<PrefixLength>, k: nat)
    requires 0 < k < |masks|
  {
    (masks[k] <= 31 || masks[k - 1] >= 31) && Unwrapped(PlaceSubnet(azBase, masks, k - 1), masks[k]) < AddressSpace
  }

  lemma NetmaskStart(b: CidrBlock)
    requires IsNetmask(b)
    ensures Start(b) == b.addr
  {
    AlignAligned(b.addr, b.mask);
  }

  lemma NetmaskEnd(b: CidrBlock)
    requires IsNetmask(b)
    ensures Start(b) == b.addr && End(b) == b.addr + BlockSize(b.mask) - 1
  {
    AlignAligned(b.addr, b.mask);
  }

  /** One step of the layout: the k-th subnet starts after the (k-1)-th ends. */
  lemma PlaceStep(azBase: Address, masks: seq<PrefixLength>, k: nat)
    requires SteadyLayout(azBase, masks)
    requires 0 < k < |masks|
    ensures End(PlaceSubnet(azBase, masks, k - 1)) < Start(PlaceSubnet(azBase, masks, k))
  {
    assert SteadyStep(azBase, masks, k);
    NextNetmaskAfter(PlaceSubnet(azBase, masks, k - 1), masks[k]);
    NetmaskEnd(PlaceSubnet(azBase, masks, k));
  }

  /**
   * Within one zone, every subnet lies wholly after each earlier one, so
   * none overlap, as long as the layout is steady.
   */
  lemma ZoneSubnetsAscend(row: seq<CidrBlock>, azBase: Address, masks: seq<PrefixLength>)
    requires IsZoneLayout(row, azBase, masks)
    requires SteadyLayout(azBase, masks)
    ensures Ascending(row)
  {
    forall k | 0 < k < |row|
      ensures End(row[k - 1]) < Start(row[k])
    {
      PlaceStep(azBase, masks, k);
    }
    ChainAscending(row);
  }

  // ---------------------------------------------------------------------
  // The two discrepancies in the allocation as written, and the corrected allocation.

  /**
   * `nextNetmask` starts from `Netmask.last`, the last HOST address, not the
   * last address of the block: a /32 after 10.0.0.0/24 lands on 10.0.0.255,
   * inside the previous block.
   */
  lemma NextNetmaskReusesBroadcast()
    ensures var previous := CidrBlock(167772160, 24);
      IsNetmask(previous) && NextNetmask(previous, 32) == Ok(CidrBlock(167772415, 32))
      && Start(previous) <= 167772415 <= End(previous)
  {
    var previous := CidrBlock(167772160, 24);
    SmallBlockSizes();
    assert previous.addr == 655360 * 256;
    MulMod(655360, 256);
    NetmaskEnd(previous);
    assert Last(previous) == 167772414;
    AlignAligned(167772414, 32);
    assert NewNetmask(167772414, 32) == Ok(CidrBlock(167772414, 32));
  }

  /**
   * The first address after `e` at which a block of prefix m can start: the
   * least multiple of the block size above e.
   */
  function BoundaryAfter(e: int, m: PrefixLength): (r: int)
    ensures r > e && r - BlockSize(m) <= e
    ensures r % BlockSize(m) == 0
  {
    AlignedAdd(Align(e, m), 1, BlockSize(m));
    Align(e, m) + BlockSize(m)
  }

  /** Where the as-written placement does not hit the broadcast case or wrap, both agree. */
  lemma NextBlockAfterAgrees(previous: CidrBlock, m: PrefixLength)
    requires IsNetmask(previous)
    requires m <= 31 || previous.mask >= 31
    requires Unwrapped(previous, m) < AddressSpace
    ensures Advance(previous, m).addr == BoundaryAfter(End(previous), m)
  {
    NextNetmaskAfter(previous, m);
    AlignedAdd(Align(Last(previous), m), 1, BlockSize(m));
    BoundaryUnique(Unwrapped(previous, m), BoundaryAfter(End(previous), m), End(previous), BlockSize(m));
  }

  /**
   * The size check passes for 10.0.0.0/22 split over four zones with subnets
   * of /27, /25 and /26: each /24 zone has 256 addresses and the subnets
   * need 224.
   */
  lemma SpillPlan()
    ensures PlanAllocation(CidrBlock(167772160, 22), 4, Some(SpillSpecs()), None)
      == Ok(Plan(CidrBlock(167772160, 24), SpillMasks()))
  {
    SpillBlocks();
    SpillBits();
    SpillChecked();
    SpillTotal();
    SpillPlanFrom(CidrBlock(167772160, 22));
  }

  lemma SpillPlanFrom(vpc: CidrBlock)
    requires vpc.mask == 22 && NewNetmask(vpc.addr, vpc.mask) == Ok(vpc)
    requires NewNetmask(vpc.addr, 24) == Ok(CidrBlock(vpc.addr, 24))
    requires NewBits(3) == 2 && NewBits(4) == 2
    requires CheckedMasks(SpillSpecs(), 26) == Ok(SpillMasks())
    requires TotalSize(SpillMasks()) <= BlockSize(24)
    ensures PlanAllocation(vpc, 4, Some(SpillSpecs()), None) == Ok(Plan(CidrBlock(vpc.addr, 24), SpillMasks()))
  {
    assert AzBitmask(vpc, 4, None) == 24;
    assert SpecsFor(Some(SpillSpecs()), 24) == Ok(SpillSpecs());
    assert 24 + NewBits(|SpillSpecs()|) == 26;
    assert SizedMasks(SpillSpecs(), 26, BlockSize(24)) == Ok(SpillMasks());
  }

  lemma SpillBits()
    ensures NewBits(3) == 2 && NewBits(4) == 2
  {
    assert NewBits(1) == 0;
    assert NewBits(2) == 1;
  }

  lemma SpillBlocks()
    ensures NewNetmask(167772160, 22) == Ok(CidrBlock(167772160, 22))
    ensures NewNetmask(167772160, 24) == Ok(CidrBlock(167772160, 24))
  {
    SmallBlockSizes();
  }

  lemma SpillTotal()
    ensures TotalSize(SpillMasks()) == 224 <= BlockSize(24)
  {
    SmallBlockSizes();
    var masks := SpillMasks();
    assert masks[1..] == [25, 26] && masks[2..] == [26] && masks[3..] == [];
  }

  function SpillMasks(): seq<PrefixLength>
  {
    [27, 25, 26]
  }

  lemma SpillChecked()
    ensures CheckedMasks(SpillSpecs(), 26) == Ok(SpillMasks())
  {
    var checked := CheckedMasks(SpillSpecs(), 26);
    assert checked.Ok?;
    assert checked.value == SpillMasks();
  }

  function SpillSpecs(): seq<SubnetSpecInput>
  {
    [SpecWithMask(27), SpecWithMask(25), SpecWithMask(26)]
  }

  function SpecWithMask(m: int): SubnetSpecInput
  {
    SubnetSpecInput(Private, None, Some(m), None, None)
  }

  /**
   * Yet alignment padding pushes the third subnet of zone 1 to 10.0.1.0/26,
   * the first address of zone 2, where zone 2's first subnet 10.0.1.0/27
   * starts too.
   */
  lemma SizeCheckAdmitsSpill()
    ensures AzBlock(CidrBlock(167772160, 24), 1).addr == 167772416
    ensures PlaceSubnet(167772160, SpillMasks(), 2) == CidrBlock(167772416, 26)
    ensures PlaceSubnet(167772416, SpillMasks(), 0) == CidrBlock(167772416, 27)
  {
    var masks := SpillMasks();
    SmallBlockSizes();
    var p0 := PlaceSubnet(167772160, masks, 0);
    assert p0 == CidrBlock(167772160, 27);
    assert Last(p0) == 167772190;
    var p1 := PlaceSubnet(167772160, masks, 1);
    assert p1 == CidrBlock(167772288, 25);
    assert Last(p1) == 167772414;
  }

  // ---------------------------------------------------------------------
  // The corrected allocation

  /**
   * Where the corrected layout starts a zone's k-th subnet: the first at the
   * zone's start aligned to its own size, every later one at the first
   * boundary of its own size after the previous one ends. No wrap-around.
   */
  function FittedStart(azBase: Address, masks: seq<PrefixLength>, k: nat): (r: int)
    requires k < |masks|
    ensures r >= 0 && r % BlockSize(masks[k]) == 0
  {
    if k == 0 then Align(azBase, masks[0])
    else BoundaryAfter(FittedStart(azBase, masks, k - 1) + BlockSize(masks[k - 1]) - 1, masks[k])
  }

  /** The k-th subnet of the corrected layout lies inside the zone block. */
  ghost predicate FitsZone(az: CidrBlock, masks: seq<PrefixLength>, k: nat)
    requires IsNetmask(az) && k < |masks|
  {
    az.addr <= FittedStart(az.addr, masks, k)
    && FittedStart(az.addr, masks, k) + BlockSize(masks[k]) <= az.addr + BlockSize(az.mask)
  }

  ghost predicate ZoneFits(az: CidrBlock, masks: seq<PrefixLength>)
    requires IsNetmask(az)
  {
    forall k :: 0 <= k < |masks| ==> FitsZone(az, masks, k)
  }

  /** `row` holds the corrected layout of `masks` in zone `az`. */
  ghost predicate IsFittedLayout(row: seq<CidrBlock>, az: CidrBlock, masks: seq<PrefixLength>)
    requires IsNetmask(az)
  {
    IsFittedPrefix(row, az, masks, |masks|)
  }

  /** One zone of the corrected allocation: fails as soon as a subnet would leave the zone block. */
  method LayOutZoneFitted(az: CidrBlock, masks: seq<PrefixLength>) returns (r: Option<seq<CidrBlock>>)
    requires IsNetmask(az)
    ensures r.Some? <==> ZoneFits(az, masks)
    ensures r.Some? ==> IsFittedLayout(r.value, az, masks)
  {
    AlignedBlockInSpace(az.addr, az.mask);
    var row: seq<CidrBlock> := [];
    var free := 0;
    var k := 0;
    while k < |masks|
      invariant 0 <= k <= |masks|
      invariant IsFittedPrefix(row, az, masks, k)
      invariant forall j :: 0 <= j < k ==> FitsZone(az, masks, j)
      invariant k > 0 ==> free == FittedStart(az.addr, masks, k - 1) + BlockSize(masks[k - 1])
    {
      var m := masks[k];
      var start := if k == 0 then Align(az.addr, m) else BoundaryAfter(free - 1, m);
      FittedNext(az.addr, masks, k, free, start);
      if !(az.addr <= start && start + BlockSize(m) <= az.addr + BlockSize(az.mask)) {
        assert !FitsZone(az, masks, k);
        return None;
      }
      FittedPrefixExtends(row, az, masks, k, start);
      row := row + [CidrBlock(start, m)];
      free := start + BlockSize(m);
      k := k + 1;
    }
    return Some(row);
  }

  /** The first k subnets of the corrected layout. */
  ghost predicate IsFittedPrefix(row: seq<CidrBlock>, az: CidrBlock, masks: seq<PrefixLength>, k: nat)
    requires IsNetmask(az) && k <= |masks|
  {
    |row| == k
    && forall j {:trigger row[j]} :: 0 <= j < k ==> row[j].mask == masks[j] && row[j].addr == FittedStart(az.addr, masks, j)
  }

  lemma FittedNext(azBase: Address, masks: seq<PrefixLength>, k: nat, free: int, start: int)
    requires k < |masks|
    requires k > 0 ==> free == FittedStart(azBase, masks, k - 1) + BlockSize(masks[k - 1])
    requires start == if k == 0 then Align(azBase, masks[k]) else BoundaryAfter(free - 1, masks[k])
    ensures start == FittedStart(azBase, masks, k)
  {
  }

  lemma FittedPrefixExtends(row: seq<CidrBlock>, az: CidrBlock, masks: seq<PrefixLength>, k: nat, start: Address)
    requires IsNetmask(az) && k < |masks|
    requires IsFittedPrefix(row, az, masks, k)
    requires start == FittedStart(az.addr, masks, k)
    ensures IsFittedPrefix(row + [CidrBlock(start, masks[k])], az, masks, k + 1)
  {
    var row' := row + [CidrBlock(start, masks[k])];
    forall j | 0 <= j < k + 1
      ensures row'[j].mask == masks[j] && row'[j].addr == FittedStart(az.addr, masks, j)
    {
      if j < k {
        assert row'[j] == row[j];
      }
    }
  }

  /**
   * The corrected `allocateSubnetCidrBlocks`: the same checks and the same
   * zone blocks, each subnet placed at the first boundary of its own size
   * after the previous one ends, and a failure when a subnet would leave its
   * zone's block.
   */
  method AllocateSubnetCidrBlocksFitted(vpcCidr: CidrBlock, azNames: seq<string>, subnetInputs: Option<seq<SubnetSpecInput>>, azCidrMask: Option<int>)
    returns (r: Result<seq<seq<CidrBlock>>>)
    ensures var plan := PlanAllocation(vpcCidr, |azNames|, subnetInputs, azCidrMask);
      plan.Fail? ==> r == Fail(plan.error)
    ensures var plan := PlanAllocation(vpcCidr, |azNames|, subnetInputs, azCidrMask);
      plan.Ok? ==> (r.Ok? <==> AllZonesFit(plan.value.azBlock, plan.value.masks, |azNames|))
    ensures var plan := PlanAllocation(vpcCidr, |azNames|, subnetInputs, azCidrMask);
      plan.Ok? && r.Ok? ==> |r.value| == |azNames| && FittedRows(r.value, plan.value.azBlock, plan.value.masks)
  {
    r := LayOutPlanFitted(PlanAllocation(vpcCidr, |azNames|, subnetInputs, azCidrMask), |azNames|);
  }

  /** The corrected allocation of a checked plan, or the plan's failure. */
  method LayOutPlanFitted(plan: Result<Plan>, azCount: nat) returns (r: Result<seq<seq<CidrBlock>>>)
    requires plan.Ok? ==> IsNetmask(plan.value.azBlock)
    ensures plan.Fail? ==> r == Fail(plan.error)
    ensures plan.Ok? ==> (r.Ok? <==> AllZonesFit(plan.value.azBlock, plan.value.masks, azCount))
    ensures plan.Ok? && r.Ok? ==> |r.value| == azCount && FittedRows(r.value, plan.value.azBlock, plan.value.masks)
  {
    if plan.Fail? {
      return Fail(plan.error);
    }
    var first := plan.value.azBlock;
    var rows := LayOutZonesFitted(first, plan.value.masks, azCount);
    if rows.None? {
      return Fail("Subnets do not fit in their availability zone's block of " + NatToString(BlockSize(first.mask)) + " addresses.");
    }
    return Ok(rows.value);
  }

  /** The zone loop of the corrected allocation. */
  method LayOutZonesFitted(first: CidrBlock, masks: seq<PrefixLength>, azCount: nat) returns (r: Option<seq<seq<CidrBlock>>>)
    requires IsNetmask(first)
    ensures r.Some? <==> AllZonesFit(first, masks, azCount)
    ensures r.Some? ==> |r.value| == azCount && FittedRows(r.value, first, masks)
  {
    var allocation: seq<seq<CidrBlock>> := [];
    var currentAz := first;
    var azIndex := 0;
    while azIndex < azCount
      invariant 0 <= azIndex <= azCount
      invariant currentAz == AzBlock(first, azIndex)
      invariant |allocation| == azIndex
      invariant FittedRows(allocation, first, masks)
      invariant AllZonesFit(first, masks, azIndex)
    {
      var row := LayOutZoneFitted(currentAz, masks);
      if row.None? {
        assert !ZoneFits(AzBlock(first, azIndex), masks);
        return None;
      }
      assert ZoneRowFitted(row.value, first, masks, azIndex);
      allocation := allocation + [row.value];
      currentAz := Next(currentAz);
      azIndex := azIndex + 1;
    }
    return Some(allocation);
  }

  /** Row i is the corrected layout of zone i, and the zone fits. */
  ghost predicate ZoneRowFitted(row: seq<CidrBlock>, first: CidrBlock, masks: seq<PrefixLength>, i: nat)
    requires IsNetmask(first)
  {
    ZoneFits(AzBlock(first, i), masks) && IsFittedLayout(row, AzBlock(first, i), masks)
  }

  /** The first n zones all fit. */
  ghost predicate AllZonesFit(first: CidrBlock, masks: seq<PrefixLength>, n: nat)
    requires IsNetmask(first)
  {
    forall i :: 0 <= i < n ==> ZoneFits(AzBlock(first, i), masks)
  }

  ghost predicate FittedRows(rows: seq<seq<CidrBlock>>, first: CidrBlock, masks: seq<PrefixLength>)
    requires IsNetmask(first)
  {
    forall i :: 0 <= i < |rows| ==> ZoneRowFitted(rows[i], first, masks, i)
  }

  /** Each subnet of the corrected layout starts after the previous one ends. */
  lemma FittedStep(azBase: Address, masks: seq<PrefixLength>, k: nat)
    requires 0 < k < |masks|
    ensures FittedStart(azBase, masks, k - 1) + BlockSize(masks[k - 1]) <= FittedStart(azBase, masks, k)
  {
  }

  /** In the corrected layout each subnet ends before every later one starts. */
  lemma {:induction false} FittedAscend(azBase: Address, masks: seq<PrefixLength>, k: nat, l: nat)
    requires k < l < |masks|
    ensures FittedStart(azBase, masks, k) + BlockSize(masks[k]) <= FittedStart(azBase, masks, l)
  {
    FittedStep(azBase, masks, l);
    if k < l - 1 {
      FittedAscend(azBase, masks, k, l - 1);
    }
  }

  /** A subnet of a fitted zone is a proper block inside the zone block. */
  lemma FittedSubnetInZone(row: seq<CidrBlock>, az: CidrBlock, masks: seq<PrefixLength>, k: nat)
    requires IsNetmask(az) && ZoneFits(az, masks) && IsFittedLayout(row, az, masks)
    requires k < |row|
    ensures IsNetmask(row[k])
    ensures Start(az) <= Start(row[k]) && End(row[k]) <= End(az)
  {
    assert FitsZone(az, masks, k);
    NetmaskEnd(az);
    NetmaskEnd(row[k]);
  }

  /** The VPC block holds 2^newBits(azCount) zone blocks, at least one per zone. */
  lemma ZoneSlotsFit(vpcMask: PrefixLength, azCount: nat, z: nat)
    requires vpcMask + NewBits(azCount) <= 32
    requires z < azCount
    ensures (z + 1) * BlockSize(vpcMask + NewBits(azCount)) <= BlockSize(vpcMask)
  {
    var nb := NewBits(azCount);
    var zs := BlockSize(vpcMask + nb);
    Pow2Add(nb, 32 - vpcMask - nb);
    assert BlockSize(vpcMask) == Pow2(nb) * zs;
    MulLe(z + 1, Pow2(nb), zs);
  }

  /**
   * Zones derived from the VPC prefix (no explicit zone prefix) tile the VPC
   * block: zone z starts z zone sizes after the VPC's start and ends inside it.
   */
  lemma {:induction false} ZoneInsideVpc(vpcStart: Address, vpcMask: PrefixLength, azCount: nat, z: nat)
    requires vpcMask + NewBits(azCount) <= 32
    requires IsNetmask(CidrBlock(vpcStart, vpcMask)) && IsNetmask(CidrBlock(vpcStart, vpcMask + NewBits(azCount)))
    requires z < azCount
    ensures AzBlock(CidrBlock(vpcStart, vpcMask + NewBits(azCount)), z).addr == vpcStart + z * BlockSize(vpcMask + NewBits(azCount))
    ensures vpcStart + (z + 1) * BlockSize(vpcMask + NewBits(azCount)) <= vpcStart + BlockSize(vpcMask)
  {
    var first := CidrBlock(vpcStart, vpcMask + NewBits(azCount));
    var zs := BlockSize(first.mask);
    ZoneSlotsFit(vpcMask, azCount, z);
    Distrib(z + 1, z, zs);
    if z > 0 {
      ZoneInsideVpc(vpcStart, vpcMask, azCount, z - 1);
      AlignedBlockInSpace(vpcStart, vpcMask);
      var prev := AzBlock(first, z - 1);
      Distrib(z, z - 1, zs);
      assert prev.addr + zs == vpcStart + z * zs;
      assert vpcStart + z * zs + zs <= vpcStart + BlockSize(vpcMask) <= AddressSpace;
      assert AzBlock(first, z) == Next(prev);
    }
  }

  /** Two blocks share no address. */
  ghost predicate Disjoint(a: CidrBlock, b: CidrBlock)
    requires ValidMask(a) && ValidMask(b)
  {
    End(a) < Start(b) || End(b) < Start(a)
  }

  /** Where row i of a fitted allocation puts its k-th subnet. */
  lemma FittedAt(rows: seq<seq<CidrBlock>>, first: CidrBlock, masks: seq<PrefixLength>, i: nat, k: nat)
    requires IsNetmask(first) && FittedRows(rows, first, masks)
    requires i < |rows| && k < |rows[i]|
    ensures k < |masks| && rows[i][k] == CidrBlock(rows[i][k].addr, masks[k])
    ensures rows[i][k].addr == FittedStart(AzBlock(first, i).addr, masks, k)
  {
    assert ZoneRowFitted(rows[i], first, masks, i);
  }

  /**
   * A subnet of zone i lies in the i-th zone-sized slot of the VPC block,
   * when the zone prefix is derived from the VPC prefix.
   */
  lemma SubnetInZoneSlot(vpcStart: Address, vpcMask: PrefixLength, masks: seq<PrefixLength>, rows: seq<seq<CidrBlock>>, i: nat, k: nat)
    requires vpcMask + NewBits(|rows|) <= 32
    requires IsNetmask(CidrBlock(vpcStart, vpcMask)) && IsNetmask(CidrBlock(vpcStart, vpcMask + NewBits(|rows|)))
    requires FittedRows(rows, CidrBlock(vpcStart, vpcMask + NewBits(|rows|)), masks)
    requires i < |rows| && k < |rows[i]|
    ensures IsNetmask(rows[i][k])
    ensures vpcStart + i * BlockSize(vpcMask + NewBits(|rows|)) <= Start(rows[i][k])
    ensures End(rows[i][k]) < vpcStart + (i + 1) * BlockSize(vpcMask + NewBits(|rows|))
    ensures vpcStart + (i + 1) * BlockSize(vpcMask + NewBits(|rows|)) <= vpcStart + BlockSize(vpcMask)
  {
    assert ZoneRowFitted(rows[i], CidrBlock(vpcStart, vpcMask + NewBits(|rows|)), masks, i);
    SubnetInSlot(vpcStart, vpcMask, |rows|, masks, rows[i], i, k);
  }

  /** The slot argument for one fitted row, zone i of azCount. */
  lemma SubnetInSlot(vpcStart: Address, vpcMask: PrefixLength, azCount: nat, masks: seq<PrefixLength>, row: seq<CidrBlock>, i: nat, k: nat)
    requires vpcMask + NewBits(azCount) <= 32
    requires IsNetmask(CidrBlock(vpcStart, vpcMask)) && IsNetmask(CidrBlock(vpcStart, vpcMask + NewBits(azCount)))
    requires i < azCount && k < |row|
    requires ZoneRowFitted(row, CidrBlock(vpcStart, vpcMask + NewBits(azCount)), masks, i)
    ensures IsNetmask(row[k])
    ensures vpcStart + i * BlockSize(vpcMask + NewBits(azCount)) <= Start(row[k])
    ensures End(row[k]) < vpcStart + (i + 1) * BlockSize(vpcMask + NewBits(azCount))
    ensures vpcStart + (i + 1) * BlockSize(vpcMask + NewBits(azCount)) <= vpcStart + BlockSize(vpcMask)
  {
    var first := CidrBlock(vpcStart, vpcMask + NewBits(azCount));
    var zone := AzBlock(first, i);
    FittedSubnetInZone(row, zone, masks, k);
    ZoneInsideVpc(vpcStart, vpcMask, azCount, i);
    NetmaskEnd(zone);
    var zs := BlockSize(first.mask);
    assert zone.addr == vpcStart + i * zs;
    assert End(zone) == vpcStart + i * zs + zs - 1;
    assert vpcStart + i * zs + zs == vpcStart + (i + 1) * zs;
  }

  /**
   * With the zone prefix derived from the VPC, the corrected allocation puts
   * every subnet inside the VPC block, and no two subnets, in the same zone
   * or in different zones, share an address.
   */
  lemma FittedAllocationDisjoint(vpcCidr: CidrBlock, subnetInputs: Option<seq<SubnetSpecInput>>, rows: seq<seq<CidrBlock>>,
                                 i: nat, k: nat, j: nat, l: nat)
    requires var plan := PlanAllocation(vpcCidr, |rows|, subnetInputs, None);
      plan.Ok? && FittedRows(rows, plan.value.azBlock, plan.value.masks)
    requires i < |rows| && j < |rows| && k < |rows[i]| && l < |rows[j]|
    requires (i, k) != (j, l)
    ensures ValidMask(vpcCidr) && ValidMask(rows[i][k]) && ValidMask(rows[j][l])
    ensures Start(vpcCidr) <= Start(rows[i][k]) && End(rows[i][k]) <= End(vpcCidr)
    ensures Disjoint(rows[i][k], rows[j][l])
  {
    var plan := PlanAllocation(vpcCidr, |rows|, subnetInputs, None);
    VpcHoldsFirstZone(vpcCidr, |rows|, subnetInputs);
    TiledSubnetsDisjoint(plan.value.azBlock.addr, vpcCidr.mask, plan.value.masks, rows, i, k, j, l);
  }

  /** The disjointness argument for zones tiling the VPC block from vpcStart. */
  lemma TiledSubnetsDisjoint(vpcStart: Address, vpcMask: PrefixLength, masks: seq<PrefixLength>, rows: seq<seq<CidrBlock>>,
                             i: nat, k: nat, j: nat, l: nat)
    requires vpcMask + NewBits(|rows|) <= 32
    requires IsNetmask(CidrBlock(vpcStart, vpcMask)) && IsNetmask(CidrBlock(vpcStart, vpcMask + NewBits(|rows|)))
    requires FittedRows(rows, CidrBlock(vpcStart, vpcMask + NewBits(|rows|)), masks)
    requires i < |rows| && j < |rows| && k < |rows[i]| && l < |rows[j]|
    requires (i, k) != (j, l)
    ensures ValidMask(rows[i][k]) && ValidMask(rows[j][l])
    ensures vpcStart <= Start(rows[i][k]) && End(rows[i][k]) < vpcStart + BlockSize(vpcMask)
    ensures Disjoint(rows[i][k], rows[j][l])
  {
    SubnetInZoneSlot(vpcStart, vpcMask, masks, rows, i, k);
    SubnetInZoneSlot(vpcStart, vpcMask, masks, rows, j, l);
    var zs := BlockSize(vpcMask + NewBits(|rows|));
    MulLe(0, i, zs);
    if i < j {
      SlotsApart(vpcStart, zs, i, j, End(rows[i][k]), Start(rows[j][l]));
    } else if j < i {
      SlotsApart(vpcStart, zs, j, i, End(rows[j][l]), Start(rows[i][k]));
    } else {
      SameZoneDisjoint(CidrBlock(vpcStart, vpcMask + NewBits(|rows|)), masks, rows, i, k, l);
    }
  }

  /** Whatever ends inside slot i ends before whatever starts inside a later slot j. */
  lemma SlotsApart(base: int, zs: nat, i: nat, j: nat, end: int, start: int)
    requires i < j
    requires end < base + (i + 1) * zs && base + j * zs <= start
    ensures end < start
  {
    MulLe(i + 1, j, zs);
  }

  lemma SameZoneDisjoint(first: CidrBlock, masks: seq<PrefixLength>, rows: seq<seq<CidrBlock>>, i: nat, k: nat, l: nat)
    requires IsNetmask(first) && FittedRows(rows, first, masks)
    requires i < |rows| && k < |rows[i]| && l < |rows[i]| && k != l
    ensures ValidMask(rows[i][k]) && ValidMask(rows[i][l])
    ensures Disjoint(rows[i][k], rows[i][l])
  {
    FittedAt(rows, first, masks, i, k);
    FittedAt(rows, first, masks, i, l);
    NetmaskEnd(rows[i][k]);
    NetmaskEnd(rows[i][l]);
    if k < l {
      FittedAscend(AzBlock(first, i).addr, masks, k, l);
    } else {
      FittedAscend(AzBlock(first, i).addr, masks, l, k);
    }
  }

  /** Without an explicit zone prefix, the first zone starts at the VPC's start with the derived prefix. */
  lemma VpcHoldsFirstZone(vpcCidr: CidrBlock, azCount: nat, subnetInputs: Option<seq<SubnetSpecInput>>)
    requires PlanAllocation(vpcCidr, azCount, subnetInputs, None).Ok?
    ensures var first := PlanAllocation(vpcCidr, azCount, subnetInputs, None).value.azBlock;
      ValidMask(vpcCidr) && first.mask == vpcCidr.mask + NewBits(azCount) && first.addr == Align(vpcCidr.addr, vpcCidr.mask)
      && IsNetmask(CidrBlock(first.addr, vpcCidr.mask)) && IsNetmask(first)
  {
    var first := PlanAllocation(vpcCidr, azCount, subnetInputs, None).value.azBlock;
    FirstZoneAtStart(vpcCidr, azCount, first);
  }

  /** A zone block aligned inside the VPC's aligned start, with the derived prefix, starts there. */
  lemma FirstZoneAtStart(vpcCidr: CidrBlock, azCount: nat, first: CidrBlock)
    requires ValidMask(vpcCidr) && IsNetmask(first)
    requires first.addr == Align(Align(vpcCidr.addr, vpcCidr.mask), first.mask)
    requires first.mask == vpcCidr.mask + NewBits(azCount)
    ensures first.addr == Align(vpcCidr.addr, vpcCidr.mask) && IsNetmask(CidrBlock(first.addr, vpcCidr.mask))
  {
    var vpcStart := Align(vpcCidr.addr, vpcCidr.mask);
    SizeDivides(vpcCidr.mask, first.mask);
    ModTransitive(vpcStart, BlockSize(vpcCidr.mask), BlockSize(first.mask));
    AlignAligned(vpcStart, first.mask);
  }
}
