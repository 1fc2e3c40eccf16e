// Checking and normalising the user's subnet specs before allocation
// (awsx/ec2/subnetDistributorNew.ts, `validateAndNormalizeSubnetInputs` and
// `validSubnetSizes`). Every problem found is collected as one issue line;
// any issue makes the whole check fail with all of them listed.
module SubnetInputsNew {
  import opened Wrappers
  import opened Cidr
  import opened Text
  import opened SubnetTypes

  /** `validSubnetSizes`: entry i is the number of addresses of a /i block, for /0 to /30. */
  const ValidSubnetSizes: seq<int> := [
      4294967296, 2147483648, 1073741824, 536870912, 268435456, 134217728, 67108864, 33554432,
      16777216, 8388608, 4194304, 2097152, 1048576, 524288, 262144, 131072,
      65536, 32768, 16384, 8192, 4096, 2048, 1024, 512,
      256, 128, 64, 32, 16, 8, 4]

  lemma ValidSubnetSizesArePowers()
    ensures |ValidSubnetSizes| == 31
    ensures forall i :: 0 <= i < 31 ==> ValidSubnetSizes[i] == BlockSize(i)
  {
    forall i | 0 <= i < 31
      ensures ValidSubnetSizes[i] == BlockSize(i)
    {
      if i < 16 {
        LargeSizesArePowers(i);
      } else {
        SmallSizesArePowers(i);
      }
    }
  }

  lemma LargeSizesArePowers(i: nat)
    requires i < 16
    ensures ValidSubnetSizes[i] == BlockSize(i)
  {
    LargeBlockSizes();
    // one case per entry of the literal table
    if i == 0 {
    } else if i == 1 {
    } else if i == 2 {
    } else if i == 3 {
    } else if i == 4 {
    } else if i == 5 {
    } else if i == 6 {
    } else if i == 7 {
    } else if i == 8 {
    } else if i == 9 {
    } else if i == 10 {
    } else if i == 11 {
    } else if i == 12 {
    } else if i == 13 {
    } else if i == 14 {
    }
  }

  lemma SmallSizesArePowers(i: nat)
    requires 16 <= i < 31
    ensures ValidSubnetSizes[i] == BlockSize(i)
  {
    SmallBlockSizes();
    // one case per entry of the literal table
    if i == 16 {
    } else if i == 17 {
    } else if i == 18 {
    } else if i == 19 {
    } else if i == 20 {
    } else if i == 21 {
    } else if i == 22 {
    } else if i == 23 {
    } else if i == 24 {
    } else if i == 25 {
    } else if i == 26 {
    } else if i == 27 {
    } else if i == 28 {
    } else if i == 29 {
    }
  }

  /** `validSubnetSizes.indexOf(size)`: the first index holding `size`, or -1. */
  function IndexOf(size: int): (r: int)
    ensures -1 <= r < |ValidSubnetSizes|
    ensures r == -1 <==> size !in ValidSubnetSizes
    ensures r >= 0 ==> ValidSubnetSizes[r] == size && forall k :: 0 <= k < r ==> ValidSubnetSizes[k] != size
  {
    IndexFrom(ValidSubnetSizes, size, 0)
  }

  /** The first index at or after k where `table` holds `x`, or -1. */
  function IndexFrom(table: seq<int>, x: int, k: nat): (r: int)
    requires k <= |table|
    ensures r == -1 || k <= r < |table|
    ensures r == -1 <==> x !in table[k..]
    ensures r >= 0 ==> table[r] == x && forall j :: k <= j < r ==> table[j] != x
    decreases |table| - k
  {
    if k == |table| then -1
    else if table[k] == x then k
    else
      assert table[k..] == [table[k]] + table[k + 1..];
      IndexFrom(table, x, k + 1)
  }

  /** The size of a /m block, for m from 0 to 30, is found at index m: mask and size determine each other. */
  lemma IndexOfBlockSize(m: int)
    requires 0 <= m <= 30
    ensures IndexOf(BlockSize(m)) == m
  {
    ValidSubnetSizesArePowers();
    var r := IndexOf(BlockSize(m));
    assert ValidSubnetSizes[m] == BlockSize(m);
    if r < m {
      BlockSizeStrict(r, m);
    }
  }

  /** Sizes outside the table are exactly the ones that are not the size of a /0 to /30 block. */
  lemma ValidSizeIsBlockSize(size: int)
    ensures size in ValidSubnetSizes <==> exists m :: 0 <= m <= 30 && size == BlockSize(m)
  {
    if size in ValidSubnetSizes {
      var m := IndexOf(size);
      ValidSizeAt(m);
    }
    if exists m :: 0 <= m <= 30 && size == BlockSize(m) {
      var m :| 0 <= m <= 30 && size == BlockSize(m);
      ValidSizeAt(m);
    }
  }

  lemma ValidSizeAt(m: int)
    requires 0 <= m <= 30
    ensures ValidSubnetSizes[m] == BlockSize(m)
    ensures BlockSize(m) in ValidSubnetSizes
  {
    ValidSubnetSizesArePowers();
  }

  // ---------------------------------------------------------------------
  // Issues

  /** The checked specs: the given ones (explicit layout), or the ones with prefix and size filled in. */
  datatype Normalized = Implicit(specs: seq<SubnetSpecInput>) | Explicit(specs: seq<SubnetSpecInput>)

  /** `validSubnetSizes.join(", ")`, written out. */
  const ValidSizesText: string :=
    "4294967296, 2147483648, 1073741824, 536870912, 268435456, 134217728, 67108864, 33554432, 16777216, 8388608, 4194304, 2097152, 1048576, 524288, 262144, 131072, 65536, 32768, 16384, 8192, 4096, 2048, 1024, 512, 256, 128, 64, 32, 16, 8, 4"

  /** The sizes given that are not valid, in spec order. */
  function InvalidSizes(specs: seq<SubnetSpecInput>): (r: seq<int>)
    ensures forall x :: x in r ==> x !in ValidSubnetSizes
    ensures forall i :: 0 <= i < |specs| && specs[i].size.Some? && specs[i].size.value !in ValidSubnetSizes ==> specs[i].size.value in r
  {
    if specs == [] then []
    else
      var rest := InvalidSizes(specs[1..]);
      assert forall i :: 1 <= i < |specs| ==> specs[i] == specs[1..][i - 1];
      if specs[0].size.Some? && specs[0].size.value !in ValidSubnetSizes then [specs[0].size.value] + rest else rest
  }

  function IntsToStrings(xs: seq<int>): seq<string>
  {
    if xs == [] then [] else [IntToString(xs[0])] + IntsToStrings(xs[1..])
  }

  /** The issue about invalid sizes: none, or one line listing them and the valid sizes. */
  function SizesIssue(specs: seq<SubnetSpecInput>): (r: seq<string>)
    ensures |r| <= 1
    ensures r == [] <==> InvalidSizes(specs) == []
  {
    var invalid := InvalidSizes(specs);
    if invalid == [] then []
    else ["The following subnet sizes are invalid: " + Join(IntsToStrings(invalid), ", ")
      + ". Valid sizes are: " + ValidSizesText + "."]
  }

  predicate HasExplicitLayouts(specs: seq<SubnetSpecInput>)
  {
    exists i :: 0 <= i < |specs| && specs[i].cidrBlocks.Some?
  }

  /** The first block whose prefix the `netmask` parser rejects. */
  function FirstInvalidMask(blocks: seq<CidrBlock>): (r: Option<int>)
    ensures r.None? <==> forall i :: 0 <= i < |blocks| ==> ValidMask(blocks[i])
    ensures r.Some? ==> !(0 <= r.value <= 32)
  {
    if blocks == [] then None
    else if !ValidMask(blocks[0]) then Some(blocks[0].mask)
    else
      assert forall i :: 1 <= i < |blocks| ==> blocks[i] == blocks[1..][i - 1];
      FirstInvalidMask(blocks[1..])
  }

  predicate AllMasks(blocks: seq<CidrBlock>, m: int)
  {
    forall i :: 0 <= i < |blocks| ==> blocks[i].mask == m
  }

  predicate AllSizes(blocks: seq<CidrBlock>, size: int)
  {
    forall i :: 0 <= i < |blocks| ==> ValidMask(blocks[i]) && BlockSize(blocks[i].mask) == size
  }

  const AllExplicitIssue := "If any subnet spec has explicit cidrBlocks, all subnets must have explicit cidrBlocks."

  /**
   * The check of spec `index` of an explicit layout: an issue, no issue, or
   * the parse error a block with an impossible prefix raises.
   */
  function ExplicitCheck(spec: SubnetSpecInput, index: nat, azCount: nat): (r: Result<Option<string>>)
    ensures r == Ok(None) <==>
      (spec.cidrBlocks.Some? && |spec.cidrBlocks.value| == azCount
       && (forall i :: 0 <= i < azCount ==> ValidMask(spec.cidrBlocks.value[i]))
       && (spec.cidrMask.Some? ==> AllMasks(spec.cidrBlocks.value, spec.cidrMask.value))
       && (spec.size.Some? ==> AllSizes(spec.cidrBlocks.value, spec.size.value)))
  {
    match spec.cidrBlocks
    case None => Ok(Some(AllExplicitIssue))
    case Some(blocks) =>
      if |blocks| != azCount then
        Ok(Some("The number of CIDR blocks in subnetSpecs[" + NatToString(index)
          + "] must match the number of availability zones (" + NatToString(azCount) + ")."))
      else
        match FirstInvalidMask(blocks)
        case Some(m) => Fail("Invalid mask for ip4: " + IntToString(m))
        case None =>
          if spec.cidrMask.Some? && !AllMasks(blocks, spec.cidrMask.value) then
            Ok(Some("The cidrMask in subnetSpecs[" + NatToString(index) + "] must match all cidrBlocks or be left undefined."))
          else if spec.size.Some? && !AllSizes(blocks, spec.size.value) then
            Ok(Some("The size in subnetSpecs[" + NatToString(index) + "] must match all cidrBlocks or be left undefined."))
          else
            Ok(None)
  }

  /** The loop over an explicit layout: the issues found and the specs that passed, or the parse error. */
  function ExplicitPass(specs: seq<SubnetSpecInput>, azCount: nat): Result<(seq<string>, seq<SubnetSpecInput>)>
    decreases |specs|
  {
    if specs == [] then Ok(([], []))
    else
      var n := |specs| - 1;
      match ExplicitPass(specs[..n], azCount)
      case Fail(e) => Fail(e)
      case Ok(acc) =>
        match ExplicitCheck(specs[n], n, azCount)
        case Fail(e) => Fail(e)
        case Ok(None) => Ok((acc.0, acc.1 + [specs[n]]))
        case Ok(Some(issue)) => Ok((acc.0 + [issue], acc.1))
  }

  /** `cidrMask ?? (size ? indexOf(size) : undefined)`: a size of 0 is falsy and resolves nothing. */
  function ResolvedMask(spec: SubnetSpecInput): Option<int>
  {
    if spec.cidrMask.Some? then spec.cidrMask
    else if spec.size.Some? && spec.size.value != 0 then Some(IndexOf(spec.size.value))
    else None
  }

  /** `cidrMask ? validSubnetSizes[cidrMask] : undefined`: a prefix of 0 or outside the table gives no size. */
  function ExpectedSize(mask: Option<int>): Option<int>
  {
    if mask.Some? && mask.value != 0 && 0 <= mask.value < |ValidSubnetSizes| then Some(ValidSubnetSizes[mask.value])
    else None
  }

  function ImplicitIssue(spec: SubnetSpecInput): Option<string>
  {
    var mask := ResolvedMask(spec);
    var expected := ExpectedSize(mask);
    if spec.size.Some? && expected.Some? && expected.value != spec.size.value then
      Some("Subnet size " + IntToString(spec.size.value) + " does not match the expected size for a /"
        + IntToString(mask.value) + " subnet (" + IntToString(expected.value) + ").")
    else None
  }

  /** The spec with both prefix and size set to the resolved values. */
  function Normalize(spec: SubnetSpecInput): SubnetSpecInput
  {
    var mask := ResolvedMask(spec);
    spec.(cidrMask := mask, size := ExpectedSize(mask))
  }

  function ImplicitIssues(specs: seq<SubnetSpecInput>): (r: seq<string>)
    ensures r == [] <==> forall i :: 0 <= i < |specs| ==> ImplicitIssue(specs[i]).None?
  {
    if specs == [] then []
    else
      assert forall i :: 1 <= i < |specs| ==> specs[i] == specs[1..][i - 1];
      (match ImplicitIssue(specs[0]) case Some(issue) => [issue] case None => [])
        + ImplicitIssues(specs[1..])
  }

  function InvalidMessage(issues: seq<string>): string
  {
    "Invalid subnet specifications:\n - " + Join(issues, "\n - ")
  }

  function Conclude(issues: seq<string>, normalized: Normalized): Result<Option<Normalized>>
  {
    if issues == [] then Ok(Some(normalized)) else Fail(InvalidMessage(issues))
  }

  /** What `validateAndNormalizeSubnetInputs` returns or throws. */
  function Validated(subnetArgs: Option<seq<SubnetSpecInput>>, azCount: nat): Result<Option<Normalized>>
  {
    match subnetArgs
    case None => Ok(None)
    case Some(args) =>
      var sizeIssues := SizesIssue(args);
      if HasExplicitLayouts(args) then
        match ExplicitPass(args, azCount)
        case Fail(e) => Fail(e)
        case Ok(acc) => Conclude(sizeIssues + acc.0, Explicit(acc.1))
      else
        Conclude(sizeIssues + ImplicitIssues(args), Implicit(seq(|args|, i requires 0 <= i < |args| => Normalize(args[i]))))
  }

  // ---------------------------------------------------------------------
  // The check itself

  /** `validateAndNormalizeSubnetInputs`. */
  method ValidateAndNormalizeSubnetInputs(subnetArgs: Option<seq<SubnetSpecInput>>, availabilityZoneCount: nat)
    returns (r: Result<Option<Normalized>>)
    ensures r == Validated(subnetArgs, availabilityZoneCount)
  {
    if subnetArgs.None? {
      return Ok(None);
    }
    var args := subnetArgs.value;
    var issues := SizesIssue(args);
    if HasExplicitLayouts(args) {
      var pass := CheckExplicitSpecs(args, availabilityZoneCount);
      if pass.Fail? {
        return Fail(pass.error);
      }
      issues := issues + pass.value.0;
      if issues == [] {
        return Ok(Some(Explicit(pass.value.1)));
      }
    } else {
      var normalizedSpecs := seq(|args|, i requires 0 <= i < |args| => Normalize(args[i]));
      issues := issues + ImplicitIssues(args);
      if issues == [] {
        return Ok(Some(Implicit(normalizedSpecs)));
      }
    }
    return Fail(InvalidMessage(issues));
  }

  /**
   * The explicit-layout loop: the issues found and the specs that passed,
   * stopping at the first parse error.
   */
  method CheckExplicitSpecs(args: seq<SubnetSpecInput>, availabilityZoneCount: nat)
    returns (r: Result<(seq<string>, seq<SubnetSpecInput>)>)
    ensures r == ExplicitPass(args, availabilityZoneCount)
  {
    var issues: seq<string> := [];
    var explicitSpecs: seq<SubnetSpecInput> := [];
    var specIndex := 0;
    while specIndex < |args|
      invariant 0 <= specIndex <= |args|
      invariant ExplicitPass(args[..specIndex], availabilityZoneCount) == Ok((issues, explicitSpecs))
    {
      var check := CheckExplicitSpec(args[specIndex], specIndex, availabilityZoneCount);
      ExplicitPassNext(args, specIndex, availabilityZoneCount);
      if check.Fail? {
        ExplicitPassFailSticks(args, specIndex + 1, availabilityZoneCount);
        return Fail(check.error);
      }
      if check.value.Some? {
        issues := issues + [check.value.value];
      } else {
        explicitSpecs := explicitSpecs + [args[specIndex]];
      }
      specIndex := specIndex + 1;
    }
    assert args[..|args|] == args;
    return Ok((issues, explicitSpecs));
  }

  /**
   * The body of the explicit-layout loop for one spec: the first issue it
   * finds (after which the loop continues with the next spec), none, or the
   * error `new Netmask` raises on a block with an impossible prefix.
   */
  method CheckExplicitSpec(spec: SubnetSpecInput, specIndex: nat, availabilityZoneCount: nat) returns (r: Result<Option<string>>)
    ensures r == ExplicitCheck(spec, specIndex, availabilityZoneCount)
  {
    if spec.cidrBlocks.None? {
      return Ok(Some(AllExplicitIssue));
    }
    var cidrBlocks := spec.cidrBlocks.value;
    if |cidrBlocks| != availabilityZoneCount {
      return Ok(Some("The number of CIDR blocks in subnetSpecs[" + NatToString(specIndex)
        + "] must match the number of availability zones (" + NatToString(availabilityZoneCount) + ")."));
    }
    var invalidMask := FirstInvalidMask(cidrBlocks);
    if invalidMask.Some? {
      return Fail("Invalid mask for ip4: " + IntToString(invalidMask.value));
    }
    if spec.cidrMask.Some? && !AllMasks(cidrBlocks, spec.cidrMask.value) {
      return Ok(Some("The cidrMask in subnetSpecs[" + NatToString(specIndex) + "] must match all cidrBlocks or be left undefined."));
    }
    if spec.size.Some? && !AllSizes(cidrBlocks, spec.size.value) {
      return Ok(Some("The size in subnetSpecs[" + NatToString(specIndex) + "] must match all cidrBlocks or be left undefined."));
    }
    return Ok(None);
  }

  lemma ExplicitPassNext(specs: seq<SubnetSpecInput>, k: nat, azCount: nat)
    requires k < |specs| && ExplicitPass(specs[..k], azCount).Ok?
    ensures var acc := ExplicitPass(specs[..k], azCount).value;
      ExplicitPass(specs[..k + 1], azCount) == match ExplicitCheck(specs[k], k, azCount)
        case Fail(e) => Fail(e)
        case Ok(None) => Ok((acc.0, acc.1 + [specs[k]]))
        case Ok(Some(issue)) => Ok((acc.0 + [issue], acc.1))
  {
    assert specs[..k + 1][..k] == specs[..k];
  }

  /** Once a prefix of the specs raises the parse error, the whole pass does. */
  lemma {:induction false} ExplicitPassFailSticks(specs: seq<SubnetSpecInput>, k: nat, azCount: nat)
    requires k <= |specs|
    requires ExplicitPass(specs[..k], azCount).Fail?
    ensures ExplicitPass(specs, azCount) == ExplicitPass(specs[..k], azCount)
    decreases |specs| - k
  {
    if k < |specs| {
      assert specs[..k + 1][..k] == specs[..k];
      ExplicitPassFailSticks(specs, k + 1, azCount);
    } else {
      assert specs[..k] == specs;
    }
  }

  // ---------------------------------------------------------------------
  // What the check guarantees

  lemma ExplicitPassSpec(specs: seq<SubnetSpecInput>, azCount: nat)
    ensures ExplicitPass(specs, azCount).Ok? ==> forall i :: 0 <= i < |specs| ==> ExplicitCheck(specs[i], i, azCount).Ok?
    ensures ExplicitPass(specs, azCount).Ok? ==>
      (ExplicitPass(specs, azCount).value.0 == [] <==> forall i :: 0 <= i < |specs| ==> ExplicitCheck(specs[i], i, azCount) == Ok(None))
    ensures ExplicitPass(specs, azCount).Ok? && ExplicitPass(specs, azCount).value.0 == [] ==> ExplicitPass(specs, azCount).value.1 == specs
  {
    ExplicitPassChecks(specs, azCount);
  }

  /** Every spec passed the parse step of `ExplicitCheck`. */
  ghost predicate ChecksParse(specs: seq<SubnetSpecInput>, azCount: nat)
  {
    forall i :: 0 <= i < |specs| ==> ExplicitCheck(specs[i], i, azCount).Ok?
  }

  /** Every spec passed `ExplicitCheck` without an issue. */
  ghost predicate ChecksClean(specs: seq<SubnetSpecInput>, azCount: nat)
  {
    forall i :: 0 <= i < |specs| ==> ExplicitCheck(specs[i], i, azCount) == Ok(None)
  }

  lemma ChecksSnoc(specs: seq<SubnetSpecInput>, azCount: nat)
    requires specs != []
    ensures var n := |specs| - 1;
      ChecksParse(specs, azCount) <==> ChecksParse(specs[..n], azCount) && ExplicitCheck(specs[n], n, azCount).Ok?
    ensures var n := |specs| - 1;
      ChecksClean(specs, azCount) <==> ChecksClean(specs[..n], azCount) && ExplicitCheck(specs[n], n, azCount) == Ok(None)
  {
    var n := |specs| - 1;
    assert forall i :: 0 <= i < n ==> specs[..n][i] == specs[i];
  }

  lemma {:induction false} ExplicitPassChecks(specs: seq<SubnetSpecInput>, azCount: nat)
    ensures var r := ExplicitPass(specs, azCount);
      r.Ok? ==>
        && ChecksParse(specs, azCount)
        && (r.value.0 == [] <==> ChecksClean(specs, azCount))
        && (r.value.0 == [] ==> r.value.1 == specs)
    decreases |specs|
  {
    if specs != [] {
      var n := |specs| - 1;
      var init := specs[..n];
      ExplicitPassChecks(init, azCount);
      if ExplicitPass(init, azCount).Ok? {
        var acc := ExplicitPass(init, azCount).value;
        var check := ExplicitCheck(specs[n], n, azCount);
        var r := ExplicitPass(specs, azCount);
        ExplicitPassNext(specs, n, azCount);
        assert specs[..n + 1] == specs;
        ChecksSnoc(specs, azCount);
        if check.Fail? {
          assert r.Fail?;
        } else if check.value.None? {
          assert r == Ok((acc.0, acc.1 + [specs[n]]));
          assert init + [specs[n]] == specs;
        } else {
          assert r == Ok((acc.0 + [check.value.value], acc.1));
        }
      }
    }
  }

  /** An invalid size anywhere makes the check fail. */
  lemma InvalidSizeRejected(args: seq<SubnetSpecInput>, azCount: nat, i: nat)
    requires i < |args| && args[i].size.Some? && args[i].size.value !in ValidSubnetSizes
    ensures Validated(Some(args), azCount).Fail?
  {
    assert args[i].size.value in InvalidSizes(args);
  }

  /**
   * In an explicit layout (some spec lists blocks), a spec without blocks, or
   * with a block count other than the zone count, makes the check fail.
   */
  lemma ExplicitLayoutRejects(args: seq<SubnetSpecInput>, azCount: nat, j: nat)
    requires HasExplicitLayouts(args) && j < |args|
    requires args[j].cidrBlocks.None? || |args[j].cidrBlocks.value| != azCount
    ensures Validated(Some(args), azCount).Fail?
  {
    ExplicitPassSpec(args, azCount);
    assert ExplicitCheck(args[j], j, azCount) != Ok(None);
  }

  /**
   * An accepted explicit layout is the input unchanged, and every spec lists
   * one valid block per zone, agreeing with its prefix and its size when
   * those are given.
   */
  lemma ExplicitAccepted(args: seq<SubnetSpecInput>, azCount: nat, specs: seq<SubnetSpecInput>)
    requires Validated(Some(args), azCount) == Ok(Some(Explicit(specs)))
    ensures specs == args
    ensures forall i :: 0 <= i < |args| ==> ExplicitCheck(args[i], i, azCount) == Ok(None)
  {
    ExplicitPassSpec(args, azCount);
  }

  /**
   * An accepted implicit layout is the input with prefix and size resolved,
   * spec by spec, and no spec has a size that disagrees with its prefix.
   */
  lemma ImplicitAccepted(args: seq<SubnetSpecInput>, azCount: nat, specs: seq<SubnetSpecInput>)
    requires Validated(Some(args), azCount) == Ok(Some(Implicit(specs)))
    ensures !HasExplicitLayouts(args) && |specs| == |args|
    ensures forall i :: 0 <= i < |args| ==> specs[i] == Normalize(args[i]) && ImplicitIssue(args[i]).None?
  {
  }

  /**
   * Resolving one spec: a size is kept only with a prefix from /1 to /30
   * and then is that prefix's block size; a valid size alone gives its
   * prefix; a prefix alone gives its size; a given size that disagrees with
   * the prefix is an issue.
   */
  lemma NormalizeAgrees(spec: SubnetSpecInput)
    ensures var n := Normalize(spec);
      n.subnetType == spec.subnetType && n.name == spec.name && n.cidrBlocks == spec.cidrBlocks
    ensures var n := Normalize(spec);
      n.size.Some? ==> n.cidrMask.Some? && 1 <= n.cidrMask.value <= 30 && n.size.value == BlockSize(n.cidrMask.value)
    ensures forall m :: 1 <= m <= 30 && spec.cidrMask.None? && spec.size == Some(BlockSize(m)) ==>
      Normalize(spec).cidrMask == Some(m) && Normalize(spec).size == Some(BlockSize(m)) && ImplicitIssue(spec).None?
    ensures forall m :: 1 <= m <= 30 && spec.cidrMask == Some(m) ==>
      Normalize(spec).size == Some(BlockSize(m))
      && (ImplicitIssue(spec).None? <==> spec.size.None? || spec.size.value == BlockSize(m))
  {
    ValidSubnetSizesArePowers();
    forall m | 1 <= m <= 30 && spec.cidrMask.None? && spec.size == Some(BlockSize(m))
      ensures Normalize(spec).cidrMask == Some(m)
    {
      IndexOfBlockSize(m);
    }
  }
}
