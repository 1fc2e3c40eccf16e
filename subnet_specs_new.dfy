// The subnet descriptors the current distributor hands to the VPC component
// (awsx/ec2/subnetDistributorNew.ts, `getSubnetSpecs` and
// `getSubnetSpecsExplicit`): one descriptor per zone and spec, zone-major,
// named after the VPC, the spec and the one-based zone number.
module SubnetSpecsNew {
  import opened Wrappers
  import opened Cidr
  import opened SubnetTypes
  import opened SubnetDistributorNew

  /** Position of zone i's j-th subnet in a zone-major list with n specs per zone. */
  function Slot(i: nat, j: nat, n: nat): nat
  {
    i * n + j
  }

  /** Rows of blocks, one row per zone, each with one block per spec. */
  ghost predicate RowsMatch(zoneCount: nat, specCount: nat, rows: seq<seq<CidrBlock>>)
  {
    |rows| == zoneCount && forall i :: 0 <= i < |rows| ==> |rows[i]| == specCount
  }

  /** The descriptors of one zone, in spec order. */
  function ZoneSubnets(vpcName: string, azName: string, azNum: nat, specs: seq<SubnetSpecInput>, row: seq<CidrBlock>): seq<SubnetSpec>
    requires |row| == |specs|
  {
    seq(|specs|, j requires 0 <= j < |specs| => SubnetSpec(row[j], specs[j].subnetType, azName, SubnetName(vpcName, specs[j], azNum)))
  }

  /** The `flatMap` over zones of the per-zone descriptors. */
  function ZoneMajor(vpcName: string, azNames: seq<string>, specs: seq<SubnetSpecInput>, rows: seq<seq<CidrBlock>>): seq<SubnetSpec>
    requires RowsMatch(|azNames|, |specs|, rows)
    decreases |azNames|
  {
    if |azNames| == 0 then []
    else
      var n := |azNames| - 1;
      ZoneMajor(vpcName, azNames[..n], specs, rows[..n]) + ZoneSubnets(vpcName, azNames[n], n + 1, specs, rows[n])
  }

  lemma {:induction false} ZoneMajorLength(vpcName: string, azNames: seq<string>, specs: seq<SubnetSpecInput>, rows: seq<seq<CidrBlock>>)
    requires RowsMatch(|azNames|, |specs|, rows)
    ensures |ZoneMajor(vpcName, azNames, specs, rows)| == |azNames| * |specs|
    decreases |azNames|
  {
    if |azNames| > 0 {
      var n := |azNames| - 1;
      ZoneMajorLength(vpcName, azNames[..n], specs, rows[..n]);
      Distrib(n + 1, n, |specs|);
    }
  }

  /**
   * The list holds |zones| x |specs| descriptors, and the one at zone i,
   * spec j has zone i's j-th block, spec j's type, zone i's name and the
   * name for zone number i + 1.
   */
  lemma {:induction false} ZoneMajorAt(vpcName: string, azNames: seq<string>, specs: seq<SubnetSpecInput>, rows: seq<seq<CidrBlock>>, i: nat, j: nat)
    requires RowsMatch(|azNames|, |specs|, rows)
    requires i < |azNames| && j < |specs|
    ensures |ZoneMajor(vpcName, azNames, specs, rows)| == |azNames| * |specs|
    ensures Slot(i, j, |specs|) < |azNames| * |specs|
    ensures ZoneMajor(vpcName, azNames, specs, rows)[Slot(i, j, |specs|)]
      == SubnetSpec(rows[i][j], specs[j].subnetType, azNames[i], SubnetName(vpcName, specs[j], i + 1))
    decreases |azNames|
  {
    var n := |azNames| - 1;
    ZoneMajorLength(vpcName, azNames, specs, rows);
    ZoneMajorLength(vpcName, azNames[..n], specs, rows[..n]);
    MulLe(i + 1, n + 1, |specs|);
    if i < n {
      ZoneMajorAt(vpcName, azNames[..n], specs, rows[..n], i, j);
      MulLe(i + 1, n, |specs|);
    }
  }

  /** Zone i's j-th descriptor under the corrected layout of the plan (first zone, prefixes). */
  ghost function FittedSubnet(vpcName: string, azNames: seq<string>, specs: seq<SubnetSpecInput>, first: CidrBlock, masks: seq<PrefixLength>, i: nat, j: nat): SubnetSpec
    requires IsNetmask(first) && i < |azNames| && j < |specs| == |masks|
    requires ZoneFits(AzBlock(first, i), masks)
  {
    assert FitsZone(AzBlock(first, i), masks, j);
    AlignedBlockInSpace(AzBlock(first, i).addr, AzBlock(first, i).mask);
    SubnetSpec(CidrBlock(FittedStart(AzBlock(first, i).addr, masks, j), masks[j]),
      specs[j].subnetType, azNames[i], SubnetName(vpcName, specs[j], i + 1))
  }

  /** `subnets` lists, zone-major, the descriptor of every zone and spec under the corrected layout. */
  ghost predicate FittedSubnets(subnets: seq<SubnetSpec>, vpcName: string, azNames: seq<string>, specs: seq<SubnetSpecInput>, first: CidrBlock, masks: seq<PrefixLength>)
    requires IsNetmask(first) && |specs| == |masks|
  {
    |subnets| == |azNames| * |specs|
    && AllZonesFit(first, masks, |azNames|)
    && forall i, j {:trigger Slot(i, j, |specs|)} :: 0 <= i < |azNames| && 0 <= j < |specs| ==>
      Slot(i, j, |specs|) < |subnets| && subnets[Slot(i, j, |specs|)] == FittedSubnet(vpcName, azNames, specs, first, masks, i, j)
  }

  /** Zone-major descriptors over a corrected allocation are the fitted descriptors. */
  lemma ZoneMajorFitted(vpcName: string, azNames: seq<string>, specs: seq<SubnetSpecInput>, first: CidrBlock, masks: seq<PrefixLength>, rows: seq<seq<CidrBlock>>)
    requires IsNetmask(first) && |specs| == |masks|
    requires |rows| == |azNames| && FittedRows(rows, first, masks)
    ensures RowsMatch(|azNames|, |specs|, rows)
    ensures FittedSubnets(ZoneMajor(vpcName, azNames, specs, rows), vpcName, azNames, specs, first, masks)
  {
    forall i | 0 <= i < |rows|
      ensures |rows[i]| == |specs|
    {
      assert ZoneRowFitted(rows[i], first, masks, i);
    }
    ZoneMajorLength(vpcName, azNames, specs, rows);
    forall i, j | 0 <= i < |azNames| && 0 <= j < |specs|
      ensures Slot(i, j, |specs|) < |azNames| * |specs|
      ensures ZoneMajor(vpcName, azNames, specs, rows)[Slot(i, j, |specs|)] == FittedSubnet(vpcName, azNames, specs, first, masks, i, j)
    {
      ZoneMajorAt(vpcName, azNames, specs, rows, i, j);
      FittedAt(rows, first, masks, i, j);
    }
  }

  /**
   * `getSubnetSpecs`, over the corrected allocation: the descriptors of the
   * given specs (or the bare private/public defaults), zone-major, each with
   * the block the corrected layout gives it.
   */
  method GetSubnetSpecs(vpcName: string, vpcCidr: CidrBlock, azNames: seq<string>, subnetInputs: Option<seq<SubnetSpecInput>>, azCidrMask: Option<int>)
    returns (r: Result<seq<SubnetSpec>>)
    ensures var plan := PlanAllocation(vpcCidr, |azNames|, subnetInputs, azCidrMask);
      plan.Fail? ==> r == Fail(plan.error)
    ensures var plan := PlanAllocation(vpcCidr, |azNames|, subnetInputs, azCidrMask);
      plan.Ok? ==> (r.Ok? <==> AllZonesFit(plan.value.azBlock, plan.value.masks, |azNames|))
    ensures var plan := PlanAllocation(vpcCidr, |azNames|, subnetInputs, azCidrMask);
      var specs := subnetInputs.GetOr(DefaultSubnetInputsBare());
      r.Ok? ==> (plan.Ok? && |specs| == |plan.value.masks|
        && FittedSubnets(r.value, vpcName, azNames, specs, plan.value.azBlock, plan.value.masks))
  {
    var plan := PlanAllocation(vpcCidr, |azNames|, subnetInputs, azCidrMask);
    var alloc := AllocateSubnetCidrBlocksFitted(vpcCidr, azNames, subnetInputs, azCidrMask);
    if alloc.Fail? {
      return Fail(alloc.error);
    }
    var specs := subnetInputs.GetOr(DefaultSubnetInputsBare());
    ZoneMajorFitted(vpcName, azNames, specs, plan.value.azBlock, plan.value.masks, alloc.value);
    return Ok(ZoneMajor(vpcName, azNames, specs, alloc.value));
  }

  /** The blocks of explicit specs, rearranged zone-major: zone i, spec j takes spec j's i-th block. */
  function ExplicitRows(specs: seq<SubnetSpecInput>, azCount: nat): (rows: seq<seq<CidrBlock>>)
    requires forall j :: 0 <= j < |specs| ==> specs[j].cidrBlocks.Some? && |specs[j].cidrBlocks.value| >= azCount
    ensures RowsMatch(azCount, |specs|, rows)
  {
    seq(azCount, i requires 0 <= i < azCount =>
      seq(|specs|, j requires 0 <= j < |specs| => specs[j].cidrBlocks.value[i]))
  }

  /**
   * `getSubnetSpecsExplicit`: for every zone in order and every spec in
   * order, a descriptor with the spec's block for that zone.
   */
  method GetSubnetSpecsExplicit(vpcName: string, azNames: seq<string>, subnetInputs: seq<SubnetSpecInput>)
    returns (subnets: seq<SubnetSpec>)
    requires forall j :: 0 <= j < |subnetInputs| ==> subnetInputs[j].cidrBlocks.Some? && |subnetInputs[j].cidrBlocks.value| >= |azNames|
    ensures subnets == ZoneMajor(vpcName, azNames, subnetInputs, ExplicitRows(subnetInputs, |azNames|))
  {
    ghost var rows := ExplicitRows(subnetInputs, |azNames|);
    subnets := [];
    var azIndex := 0;
    while azIndex < |azNames|
      invariant 0 <= azIndex <= |azNames|
      invariant subnets == ZoneMajor(vpcName, azNames[..azIndex], subnetInputs, rows[..azIndex])
    {
      var azName := azNames[azIndex];
      var azNum := azIndex + 1;
      ghost var before := subnets;
      var k := 0;
      while k < |subnetInputs|
        invariant 0 <= k <= |subnetInputs|
        invariant subnets == before + ZoneSubnets(vpcName, azName, azNum, subnetInputs, rows[azIndex])[..k]
      {
        var subnetSpec := subnetInputs[k];
        var subnetCidr := subnetSpec.cidrBlocks.value[azIndex];
        subnets := subnets + [SubnetSpec(subnetCidr, subnetSpec.subnetType, azName, SubnetName(vpcName, subnetSpec, azNum))];
        k := k + 1;
      }
      assert azNames[..azIndex + 1][..azIndex] == azNames[..azIndex];
      assert rows[..azIndex + 1][..azIndex] == rows[..azIndex];
      azIndex := azIndex + 1;
    }
    assert azNames[..|azNames|] == azNames;
    assert rows[..|azNames|] == rows;
  }

  /** The explicit descriptor at zone i, spec j carries spec j's i-th block. */
  lemma ExplicitSubnetAt(vpcName: string, azNames: seq<string>, specs: seq<SubnetSpecInput>, i: nat, j: nat)
    requires forall k :: 0 <= k < |specs| ==> specs[k].cidrBlocks.Some? && |specs[k].cidrBlocks.value| >= |azNames|
    requires i < |azNames| && j < |specs|
    ensures var subnets := ZoneMajor(vpcName, azNames, specs, ExplicitRows(specs, |azNames|));
      |subnets| == |azNames| * |specs| && Slot(i, j, |specs|) < |subnets|
      && subnets[Slot(i, j, |specs|)] == SubnetSpec(specs[j].cidrBlocks.value[i], specs[j].subnetType, azNames[i], SubnetName(vpcName, specs[j], i + 1))
  {
    ZoneMajorAt(vpcName, azNames, specs, ExplicitRows(specs, |azNames|), i, j);
  }
}
