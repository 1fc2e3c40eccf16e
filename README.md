# pulumi-awsx rule engines in Dafny

This project models the deterministic rule engines under Pulumi's AWS
extensions (awsx): the TypeScript, Python and Go code that turns a few
arguments into concrete resource arguments, before the provisioning engine
sees them. Cloud resources and `pulumi.Output` values are plain values here.
Lookups, hashing and the AWS SDK are function parameters, and every `throw`
is the `Fail` case of a `Result` (see `wrappers.dfy`).

The model covers seven groups of rules:

- **IPv4 subnet allocation** (`subnet_*.dfy`, `vpc_component.dfy`, on
  top of `cidr.dfy`). The new and legacy subnet distributors split a VPC's
  CIDR block (section 3.1 of RFC 4632) among availability zones and subnet
  specs. They align blocks, detect overlaps, validate sizes and masks, and
  name the subnets. The awsx `Vpc` component validates the subnet layout,
  the elastic IPs and the NAT gateway strategy, sorts subnets by type, and
  decides where NAT gateways and routes go.
- **Network and VPC topology builders** (`python_network.dfy`,
  `infra_network.dfy`, `legacy_network.dfy`, `infra_vpc.dfy`,
  `awsx_vpc.dfy`). These cover:
  - the zone count (1 to 4);
  - the fixed blocks `10.10.i.0/24` and `10.10.(i+64).0/24`;
  - the subnet-id lists;
  - round-robin NAT routing;
  - the per-process default-network caches, which are classes with the
    cache as a field.
- **Numeric policies** (`step_scaling.dfy`, `awsx_fargate_service.dfy`,
  `infra_fargate_service.dfy`, `autoscaling.dfy`,
  `launch_configuration.dfy`). Step-scaling steps become threshold
  intervals. Fargate CPU and memory are sized, with cost scaled to
  integers. The auto-scaling template and user data get their defaults.
- **Load balancers** (`lb_application.dfy`, `lb_network.dfy`,
  `infra_elb_network.dfy`, `infra_ecs_load_balancer.dfy`,
  `infra_cluster.dfy`). Protocols are inferred from ports, listeners and
  target groups get their defaults, and "exactly one of" arguments are
  checked.
- **ECS containers, task definitions and services** (`ecs_*.dfy`,
  `legacy_ecs_*.dfy`, `infra_container_definition.dfy`,
  `*task_definition.dfy`, `*service.dfy`). The rules modelled are:
  - port-mapping normalisation and the exclusivity errors;
  - null / given / undefined defaults for log groups and roles;
  - the single load-balanced container;
  - service-discovery variables;
  - placement constraints;
  - the request `run` sends to ECS.
- **API Gateway** (`apigateway_api.dfy`, `lambda_authorizer.dfy`). This
  builds the Swagger 2.0 document: method tokens, paths, default gateway
  responses, authorizer naming and conflicts, and identity sources.
- **Small validators**. These are:
  - CloudWatch widget bounds and defaults (`cloudwatch_widgets.dfy`);
  - security-group rules (`security_group_rule.dfy`);
  - the RDS and S3 metric helpers (`metric_change.dfy`, `rds_metrics.dfy`,
    `s3_metrics.dfy`);
  - the Go code generator's reference renaming and schema merging
    (`provider_schema.dfy`).

Code that works by changing state is imperative Dafny. Examples are the
subnet loops, the `VpcData`, `Vpc` and Swagger-builder classes, the NAT
routing loop, the step sort and the schema merge. Each method is proved
against a function that specifies it. Pure code is functions and lemmas.

Three behaviours of the code are worth stating outright:

- A requested zone count of 0 is falsy in JavaScript (`||`) and Python
  (`or`), so it is replaced by the default 2 and not rejected
  (`InfraNetwork.ZoneCount`, `PythonNetwork.ZoneCount`).
- The Node `Network` tests its VPC id for truthiness. An empty id therefore
  builds a new network even when the other ids are given. When the id is
  set, a missing id list makes `map` throw; no validation message is
  produced (`InfraNetwork.Plan`, `InfraNetwork.CopyExisting`).
- The awsx `Vpc` calls `addInternetGateway` unconditionally, although a
  comment says it is called only when there are public subnets
  (`AwsxVpc.VpcData.Partition`).

## Model

| member | source | states |
|---|---|---|
| SubnetDistributorNew.NewBits | awsx/ec2/subnetDistributorNew.ts:196-201 | the result is the least number of bits b with 2^b >= count, which is 0 for no zones |
| SubnetDistributorNew.NewNetmask | awsx/ec2/subnetDistributorNew.ts:192 | `new Netmask(addr, bits)` fails outside /0../32; otherwise it gives an aligned block of that prefix that contains the address |
| SubnetDistributorNew.Last | awsx/ec2/subnetDistributorNew.ts:190 | `Netmask.last` lies inside the block; it is the block's end for /31 and /32 and one address short of the end for /30 and wider |
| SubnetDistributorNew.Next | awsx/ec2/subnetDistributorNew.ts:155 | `next()` keeps the prefix and, when it does not wrap, starts one block size after the block's start |
| SubnetDistributorNew.NextNetmask | awsx/ec2/subnetDistributorNew.ts:188-194 | fails exactly when the new prefix is outside /0../32; otherwise re-sizes the previous block's `last` and steps to the following block |
| SubnetDistributorNew.NextNetmaskAfter | awsx/ec2/subnetDistributorNew.ts:188-194 | short of wrap-around and the /32-after-/30 case, the next block starts after the previous block ends, at the first boundary of its own size |
| SubnetDistributorNew.DefaultSubnetInputs | awsx/ec2/subnetDistributorNew.ts:165-186 | fails exactly for a zone prefix longer than /26; otherwise gives a Private then a Public spec with masks max(zone,16)+1 and +2 and nothing else set |
| SubnetDistributorNew.DefaultSubnetsFit | awsx/ec2/subnetDistributorNew.ts:166-185 | the two default subnets fit in one zone and leave at least a quarter of it free |
| SubnetDistributorNew.CheckedMasks | awsx/ec2/subnetDistributorNew.ts:117-120 | the reduce succeeds exactly when every spec's mask (its own or the default) is within /0../32, and then lists those masks in order |
| SubnetDistributorNew.PlanAllocation | awsx/ec2/subnetDistributorNew.ts:104-128 | an empty spec list fails with "No subnets specified"; on success the zone block is the VPC base aligned to the zone prefix and the masks fit one zone |
| SubnetDistributorNew.SizedMasks | awsx/ec2/subnetDistributorNew.ts:116-126 | succeeds exactly when the masks are valid and their total size is at most the zone size |
| SubnetDistributorNew.AzBlock | awsx/ec2/subnetDistributorNew.ts:128 | zone i's block is the first zone block advanced i times and keeps its prefix (also line 155) |
| SubnetDistributorNew.PlaceSubnet | awsx/ec2/subnetDistributorNew.ts:134-145 | the k-th subnet of a zone is a valid block with the k-th spec's mask |
| SubnetDistributorNew.LayOutZone | awsx/ec2/subnetDistributorNew.ts:132-153 | the inner loop gives one block per spec: the first at the zone base, each later one by `nextNetmask` from the one before |
| SubnetDistributorNew.AllocateSubnetCidrBlocks | awsx/ec2/subnetDistributorNew.ts:97-159 | fails with the plan's error when a check fails; otherwise gives one row per zone, each laid out from that zone's block |
| SubnetDistributorNew.PlaceStep | awsx/ec2/subnetDistributorNew.ts:141-144 | in a steady layout each subnet starts after the previous one ends |
| SubnetDistributorNew.ZoneSubnetsAscend | awsx/ec2/subnetDistributorNew.ts:130-156 | the subnets of one zone are in ascending order and do not overlap |
| SubnetDistributorNew.NextNetmaskReusesBroadcast | awsx/ec2/subnetDistributorNew.ts:188-194 | a /32 after 10.0.0.0/24 comes out as 10.0.0.255/32, inside the previous block |
| SubnetDistributorNew.BoundaryAfter | awsx/ec2/subnetDistributorNew.ts:191-193 | the least multiple of the block size above an address: it is aligned, and no aligned start in between is skipped |
| SubnetDistributorNew.NextBlockAfterAgrees | awsx/ec2/subnetDistributorNew.ts:188-194 | outside the broadcast case and wrap-around, `nextNetmask` equals the first boundary after the previous block |
| SubnetDistributorNew.SpillPlan | awsx/ec2/subnetDistributorNew.ts:116-126 | the size check admits 10.0.0.0/22 over four zones with /27, /25 and /26 subnets (224 of 256 addresses per zone) |
| SubnetDistributorNew.SizeCheckAdmitsSpill | awsx/ec2/subnetDistributorNew.ts:128-156 | alignment puts zone 1's third subnet at 10.0.1.0/26, where zone 2's first subnet 10.0.1.0/27 also starts |
| SubnetDistributorNew.FittedStart | awsx/ec2/subnetDistributorNew.ts:134-145 | in the corrected layout each subnet starts on a boundary of its own size |
| SubnetDistributorNew.LayOutZoneFitted | awsx/ec2/subnetDistributorNew.ts:132-153 | the corrected inner loop succeeds exactly when every subnet fits in the zone block, and then gives the fitted layout |
| SubnetDistributorNew.AllocateSubnetCidrBlocksFitted | awsx/ec2/subnetDistributorNew.ts:97-159 | the corrected allocation: the same checks and errors; it succeeds exactly when every zone fits, giving one fitted row per zone |
| SubnetDistributorNew.LayOutPlanFitted | awsx/ec2/subnetDistributorNew.ts:129-158 | the zone loop of the corrected allocation: a failed plan passes its error on; otherwise it succeeds exactly when every zone's aligned subnets fit its block, with one fitted row per zone |
| SubnetDistributorNew.LayOutZonesFitted | awsx/ec2/subnetDistributorNew.ts:130-156 | the corrected zone loop succeeds exactly when every zone fits, giving one row per zone |
| SubnetDistributorNew.FittedStep | awsx/ec2/subnetDistributorNew.ts:141-144 | in the corrected layout each subnet starts after the previous one ends |
| SubnetDistributorNew.FittedAscend | awsx/ec2/subnetDistributorNew.ts:134-153 | in the corrected layout each subnet ends before every later one starts |
| SubnetDistributorNew.FittedSubnetInZone | awsx/ec2/subnetDistributorNew.ts:134-153 | a subnet of a fitted zone is a valid block inside the zone's block |
| SubnetDistributorNew.ZoneSlotsFit | awsx/ec2/subnetDistributorNew.ts:128-156 | the VPC block holds 2^newBits(zones) zone blocks, so at least one per zone (also line 106) |
| SubnetDistributorNew.ZoneInsideVpc | awsx/ec2/subnetDistributorNew.ts:128-156 | with the derived zone prefix, zone z starts z zone sizes after the VPC start and ends inside the VPC (also line 106) |
| SubnetDistributorNew.SubnetInZoneSlot | awsx/ec2/subnetDistributorNew.ts:128-156 | a subnet of zone i lies in the i-th zone-sized slot of the VPC block |
| SubnetDistributorNew.FittedAllocationDisjoint | awsx/ec2/subnetDistributorNew.ts:97-159 | the corrected allocation puts every subnet inside the VPC, and no two subnets share an address, in the same zone or in different zones |
| SubnetDistributorNew.TiledSubnetsDisjoint | awsx/ec2/subnetDistributorNew.ts:128-156 | subnets of zones that tile the VPC block lie inside it and are pairwise disjoint |
| SubnetDistributorNew.SameZoneDisjoint | awsx/ec2/subnetDistributorNew.ts:132-153 | two different subnets of one fitted zone are disjoint |
| SubnetDistributorNew.VpcHoldsFirstZone | awsx/ec2/subnetDistributorNew.ts:106 | without an explicit zone prefix, the first zone starts at the VPC start with the derived prefix (also line 128) |
| SubnetTypes.ChainAscending | awsx/ec2/subnetDistributorNew.ts:134-153 | blocks that each start after the previous one ends are pairwise disjoint and in order |
| SubnetInputsNew.ValidSubnetSizesArePowers | awsx/ec2/subnetDistributorNew.ts:345-350 | the table has 31 entries and entry m is the size of a /m block |
| SubnetInputsNew.IndexOf | awsx/ec2/subnetDistributorNew.ts:322 | `indexOf` gives -1 exactly when the size is not in the table, and otherwise the first index holding it |
| SubnetInputsNew.IndexFrom | awsx/ec2/subnetDistributorNew.ts:322 | the first index at or after k holding the value, or -1 exactly when there is none |
| SubnetInputsNew.IndexOfBlockSize | awsx/ec2/subnetDistributorNew.ts:345-350 | the size of a /m block, for m from 0 to 30, is found at index m |
| SubnetInputsNew.ValidSizeIsBlockSize | awsx/ec2/subnetDistributorNew.ts:345-350 | a size is valid exactly when it is the size of a /0 to /30 block (also lines 254-256) |
| SubnetInputsNew.InvalidSizes | awsx/ec2/subnetDistributorNew.ts:254-256 | the filter keeps exactly the given sizes that are not in the table, in spec order |
| SubnetInputsNew.SizesIssue | awsx/ec2/subnetDistributorNew.ts:257-263 | at most one issue, and none exactly when no size is invalid |
| SubnetInputsNew.FirstInvalidMask | awsx/ec2/subnetDistributorNew.ts:290 | no result exactly when every block's prefix is within /0../32; otherwise a prefix outside that range |
| SubnetInputsNew.ExplicitCheck | awsx/ec2/subnetDistributorNew.ts:270-312 | one spec of an explicit layout passes exactly when it has blocks, one per zone, all parseable and agreeing with its prefix and size when given |
| SubnetInputsNew.ImplicitIssues | awsx/ec2/subnetDistributorNew.ts:319-335 | no issues exactly when no spec has a size that disagrees with its resolved prefix |
| SubnetInputsNew.ValidateAndNormalizeSubnetInputs | awsx/ec2/subnetDistributorNew.ts:243-343 | the method's loops compute the validation function `Validated`, the error path included |
| SubnetInputsNew.CheckExplicitSpecs | awsx/ec2/subnetDistributorNew.ts:267-311 | the explicit-layout loop collects each spec's issue or keeps the spec, in order, and stops with the parse error a bad block raises, exactly as the pass `ExplicitPass` defines |
| SubnetInputsNew.CheckExplicitSpec | awsx/ec2/subnetDistributorNew.ts:270-308 | one spec's loop body gives the first issue it finds, none, or the parse error, as `ExplicitCheck` defines |
| SubnetInputsNew.ExplicitPassFailSticks | awsx/ec2/subnetDistributorNew.ts:269-313 | once a prefix of the specs raises the parse error, the whole pass does |
| SubnetInputsNew.ExplicitPassSpec | awsx/ec2/subnetDistributorNew.ts:269-317 | an issue-free pass means every spec checked clean and the explicit specs are the input |
| SubnetInputsNew.InvalidSizeRejected | awsx/ec2/subnetDistributorNew.ts:254-263 | an invalid size anywhere makes validation fail (also line 342) |
| SubnetInputsNew.ExplicitLayoutRejects | awsx/ec2/subnetDistributorNew.ts:273-287 | in an explicit layout, a spec without blocks or with the wrong block count makes validation fail (also line 342) |
| SubnetInputsNew.ExplicitAccepted | awsx/ec2/subnetDistributorNew.ts:309-317 | an accepted explicit layout is the input unchanged, and every spec checks clean |
| SubnetInputsNew.ImplicitAccepted | awsx/ec2/subnetDistributorNew.ts:318-339 | an accepted implicit layout is the input resolved spec by spec, with no disagreeing size |
| SubnetInputsNew.NormalizeAgrees | awsx/ec2/subnetDistributorNew.ts:319-334 | resolving a spec: a valid size alone gives its prefix, a prefix alone gives its size, and a disagreeing size is an issue |
| SubnetSpecsNew.ZoneMajorLength | awsx/ec2/subnetDistributorNew.ts:39-52 | the flattened list holds one descriptor per zone and spec |
| SubnetSpecsNew.ZoneMajorAt | awsx/ec2/subnetDistributorNew.ts:39-52 | the descriptor at zone i, spec j has zone i's j-th block, spec j's type, zone i's name and the name for zone number i+1 |
| SubnetSpecsNew.ZoneMajorFitted | awsx/ec2/subnetDistributorNew.ts:24-53 | zone-major descriptors over a corrected allocation are the fitted descriptors |
| SubnetSpecsNew.GetSubnetSpecs | awsx/ec2/subnetDistributorNew.ts:24-53 | over the corrected allocation: the plan's error on failure, otherwise the zone-major descriptors each carrying its fitted block |
| SubnetSpecsNew.ExplicitRows | awsx/ec2/subnetDistributorNew.ts:215-216 | zone i, spec j takes spec j's i-th block, with one row per zone |
| SubnetSpecsNew.GetSubnetSpecsExplicit | awsx/ec2/subnetDistributorNew.ts:206-228 | the nested loops give the zone-major descriptors of the explicit blocks |
| SubnetSpecsNew.ExplicitSubnetAt | awsx/ec2/subnetDistributorNew.ts:212-224 | the explicit descriptor at zone i, spec j carries spec j's i-th block |
| SubnetDistributorLegacy.CidrSubnetV4 | awsx/ec2/subnetDistributorLegacy.ts:220-240 | fails with the "Requested n new bits" message exactly when the new prefix passes /32; otherwise the piece has prefix mask + newBits |
| SubnetDistributorLegacy.CidrSubnetV4Addr | awsx/ec2/subnetDistributorLegacy.ts:232-239 | the piece starts netNum blocks of the new prefix after the range's address as written, without masking |
| SubnetDistributorLegacy.CidrSubnetInside | awsx/ec2/subnetDistributorLegacy.ts:220-240 | splitting an aligned block with netNum below 2^newBits gives a piece on its own boundary, inside the block |
| SubnetDistributorLegacy.BlockSizeSplit | awsx/ec2/subnetDistributorLegacy.ts:233 | a block of prefix m holds 2^k blocks of prefix m + k |
| SubnetDistributorLegacy.OverlapMeansCommonAddress | awsx/ec2/subnetDistributorLegacy.ts:265-272 | `isOverlapping` is symmetric and holds exactly when the two ranges share an address |
| SubnetDistributorLegacy.NextBlockClear | awsx/ec2/subnetDistributorLegacy.ts:274-289 | `nextBlock` is aligned to its prefix, starts past the previous block's end and within one block of it, so it does not overlap the previous block |
| SubnetDistributorLegacy.PlaceClear | awsx/ec2/subnetDistributorLegacy.ts:95-98 | the placed block keeps the candidate's prefix, never overlaps the current block, and is the candidate itself when that does not overlap |
| SubnetDistributorLegacy.Log2Ceil | awsx/ec2/subnetDistributorLegacy.ts:53 | the least k with 2^k >= n (also line 74) |
| SubnetDistributorLegacy.NextPow2 | awsx/ec2/subnetDistributorLegacy.ts:291-309 | the least power of two at or above n, and 1 for 0 |
| SubnetDistributorLegacy.RunBlocks | awsx/ec2/subnetDistributorLegacy.ts:86-107 | one run places one block per prefix |
| SubnetDistributorLegacy.RunBlocksSpec | awsx/ec2/subnetDistributorLegacy.ts:86-179 | a run succeeds exactly when every prefix is within /0../32; then block j has prefix masks[j] and does not overlap the block before it |
| SubnetDistributorLegacy.PlaceRun | awsx/ec2/subnetDistributorLegacy.ts:86-107 | the loop over one type's specs computes `RunBlocks` |
| SubnetDistributorLegacy.PlaceNext | awsx/ec2/subnetDistributorLegacy.ts:95-98 | keeps the candidate unless it overlaps the current block, and then takes `nextBlock` after it |
| SubnetDistributorLegacy.RunBlocksFailSticks | awsx/ec2/subnetDistributorLegacy.ts:86-107 | once a run fails on a prefix of its specs, the whole run fails the same way |
| SubnetDistributorLegacy.OfType | awsx/ec2/subnetDistributorLegacy.ts:67-69 | the filter keeps only specs of the type, no more of them than the input has |
| SubnetDistributorLegacy.ArrangedPermutes | awsx/ec2/subnetDistributorLegacy.ts:67-69 | the private, public and isolated filters together are a permutation of the input specs (also line 181) |
| SubnetDistributorLegacy.MasksOf | awsx/ec2/subnetDistributorLegacy.ts:87-88 | each spec's prefix is its own, or the default for its type (also lines 121-122, 163-164) |
| SubnetDistributorLegacy.Advance | awsx/ec2/subnetDistributorLegacy.ts:120 | `cidrSubnetV4(b, 0, 1)` is the block right after b, of the same size (also line 158) |
| SubnetDistributorLegacy.ZoneBlocks | awsx/ec2/subnetDistributorLegacy.ts:76-182 | a zone gives as many private, public and isolated blocks as there are specs of each type |
| SubnetDistributorLegacy.ZonePlacement | awsx/ec2/subnetDistributorLegacy.ts:81-179 | the private run starts from the zone base, the public and isolated runs after the last block so far, with the block counts of each type |
| SubnetDistributorLegacy.LayOutZoneLegacy | awsx/ec2/subnetDistributorLegacy.ts:76-182 | the body of the zone loop (three loops) computes `ZoneSpecs` |
| SubnetDistributorLegacy.ZoneRunsClear | awsx/ec2/subnetDistributorLegacy.ts:81-179 | a zone's private, public and isolated blocks, in that order, never overlap their predecessor |
| SubnetDistributorLegacy.ZoneRunsAre | awsx/ec2/subnetDistributorLegacy.ts:109-179 | each of the three runs starts from the last block placed before it |
| SubnetDistributorLegacy.ZoneDescribesSpecs | awsx/ec2/subnetDistributorLegacy.ts:76-182 | a zone lays out every spec exactly once, privates first, then publics, then isolated, each in input order |
| SubnetDistributorLegacy.ArrangedOrder | awsx/ec2/subnetDistributorLegacy.ts:181 | the arrangement puts the private specs first, then the public ones, then the isolated ones |
| SubnetDistributorLegacy.Cidrs | awsx/ec2/subnetDistributorLegacy.ts:243-244 | the cidr blocks of the descriptors, one per descriptor, in order |
| SubnetDistributorLegacy.ZoneClear | awsx/ec2/subnetDistributorLegacy.ts:76-182 | within a zone no subnet overlaps the subnet listed just before it |
| SubnetDistributorLegacy.ChainsJoin | awsx/ec2/subnetDistributorLegacy.ts:181 | three clear runs, each starting from the last block of the one before, form one clear run |
| SubnetDistributorLegacy.ZoneAcceptsIff | awsx/ec2/subnetDistributorLegacy.ts:76-182 | a zone is laid out exactly when every spec's prefix (its own or its type's default) is within /0../32 (also lines 226-230) |
| SubnetDistributorLegacy.ZoneBlocksAccepts | awsx/ec2/subnetDistributorLegacy.ts:86-179 | the three runs are placed exactly when every prefix of every run is within /0../32 |
| SubnetDistributorLegacy.GroupValid | awsx/ec2/subnetDistributorLegacy.ts:67-69 | the prefixes of one type are all valid exactly when those of the specs of that type are |
| SubnetDistributorLegacy.AzBases | awsx/ec2/subnetDistributorLegacy.ts:55-58 | the zone blocks exist exactly when there are no zones or the zone prefix is within /0../32; zone i is the i-th block counted from the VPC address |
| SubnetDistributorLegacy.ZoneBasesInsideVpc | awsx/ec2/subnetDistributorLegacy.ts:50-58 | with the default zone bits on an aligned VPC block, the zone blocks are aligned, inside the VPC block, ascending and disjoint |
| SubnetDistributorLegacy.FlattenAt | awsx/ec2/subnetDistributorLegacy.ts:181 | zones of equal width joined together put zone i's k-th element at i*width + k |
| SubnetDistributorLegacy.FlattenFailSticks | awsx/ec2/subnetDistributorLegacy.ts:76-182 | a zone that fails makes the whole layout fail with its error |
| SubnetDistributorLegacy.ZoneParts | awsx/ec2/subnetDistributorLegacy.ts:76-182 | one part per zone |
| SubnetDistributorLegacy.ZonePartsWidth | awsx/ec2/subnetDistributorLegacy.ts:76-182 | every zone that is laid out lists one descriptor per spec |
| SubnetDistributorLegacy.AllZonesAt | awsx/ec2/subnetDistributorLegacy.ts:76-184 | zone i's descriptors sit from position i times the number of specs on: zones in order, one descriptor per spec each |
| SubnetDistributorLegacy.LayOutZones | awsx/ec2/subnetDistributorLegacy.ts:76-184 | the zone loop computes `AllZones` |
| SubnetDistributorLegacy.SplitEach | awsx/ec2/subnetDistributorLegacy.ts:195-215 | one split block per block |
| SubnetDistributorLegacy.SplitEachSpec | awsx/ec2/subnetDistributorLegacy.ts:195-215 | splitting succeeds exactly when every block is wider than /32, and piece i is the first half of block i |
| SubnetDistributorLegacy.SplitAll | awsx/ec2/subnetDistributorLegacy.ts:195-215 | each loop of `generateDefaultSubnets` computes `SplitEach` |
| SubnetDistributorLegacy.Named | awsx/ec2/subnetDistributorLegacy.ts:196-213 | one descriptor per zone |
| SubnetDistributorLegacy.GenerateDefaultSubnets | awsx/ec2/subnetDistributorLegacy.ts:187-218 | the two loops compute the default layout, the error path included |
| SubnetDistributorLegacy.DefaultLayoutAccepts | awsx/ec2/subnetDistributorLegacy.ts:187-218 | the default layout exists exactly when every zone block is /30 or wider |
| SubnetDistributorLegacy.DefaultLayoutAt | awsx/ec2/subnetDistributorLegacy.ts:187-218 | zone i's private subnet is the first half of its block, at position i; its public subnet is the quarter after it, at position zones + i; they are disjoint and inside an aligned zone block |
| SubnetDistributorLegacy.DefaultHalves | awsx/ec2/subnetDistributorLegacy.ts:198 | the first half and the quarter after it are disjoint, and inside an aligned block (also lines 207, 211) |
| SubnetDistributorLegacy.BitsFor | awsx/ec2/subnetDistributorLegacy.ts:53 | `Math.log2(nextPow2(n))` is the least k with 2^k >= n (also line 74) |
| SubnetDistributorLegacy.SplitVpc | awsx/ec2/subnetDistributorLegacy.ts:55-58 | the loop splitting the VPC block computes `AzBases` |
| SubnetDistributorLegacy.GetSubnetSpecsLegacy | awsx/ec2/subnetDistributorLegacy.ts:33-185 | the whole function computes `LegacyLayout`: the zone blocks, then the default layout or the specs zone by zone |
| SubnetDistributorLegacy.AzBasesFailSticks | awsx/ec2/subnetDistributorLegacy.ts:55-58 | once the split fails for some zone count, it fails the same way for every larger count |
| SubnetDistributorLegacy.LegacyLayoutAt | awsx/ec2/subnetDistributorLegacy.ts:60-184 | with specs and at least one zone, descriptor number i times the number of specs plus k is the k-th descriptor of zone i laid out alone |
| SubnetDistributorLegacy.OverlapMessageMisreports | awsx/ec2/subnetDistributorLegacy.ts:253-259 | for 10.0.0.0/24 and 10.0.0.128/25 the message as written gives the second block the first block's range, so it is two characters shorter than the corrected message |
| SubnetDistributorLegacy.FirstClash | awsx/ec2/subnetDistributorLegacy.ts:250-262 | a clash found is a block that overlaps the block listed just before it |
| SubnetDistributorLegacy.FirstClashSpec | awsx/ec2/subnetDistributorLegacy.ts:250-262 | no clash is found exactly when no block overlaps its predecessor |
| SubnetDistributorLegacy.FirstClashIsFirst | awsx/ec2/subnetDistributorLegacy.ts:250-262 | the clash found is the first one |
| SubnetDistributorLegacy.RangesOutcomeSpec | awsx/ec2/subnetDistributorLegacy.ts:242-263 | `validateRanges` passes exactly when no block overlaps the block listed just before it |
| SubnetDistributorLegacy.ValidateRanges | awsx/ec2/subnetDistributorLegacy.ts:242-263 | the walk over neighbouring pairs computes `RangesOutcome`, with the corrected message |
| SubnetDistributorLegacy.SingleZonePasses | awsx/ec2/subnetDistributorLegacy.ts:33-185 | a single zone's layout always passes `validateRanges` (also lines 242-263) |
| SubnetDistributorLegacy.SingleZoneLayout | awsx/ec2/subnetDistributorLegacy.ts:60-184 | with one zone, the layout is that zone's layout |
| VpcComponent.ParseStrategyName | awsx/ec2/vpc.ts:316-339 | each strategy's schema spelling, lower-cased, parses back to that strategy |
| VpcComponent.ValidateEips | awsx/ec2/vpc.ts:304-341 | passes exactly for a known strategy whose allocation ids fit it: none for "None" (the `?? 0 !== 0` test is truthy for a non-empty list), at most one for "Single", none or one per zone for "OnePerAz" |
| VpcComponent.AnyOfType | awsx/ec2/vpc.ts:352-353 | true exactly when some subnet of the list has the type |
| VpcComponent.ValidateNatGatewayStrategy | awsx/ec2/vpc.ts:343-365 | passes exactly for "None", or for "OnePerAz"/"Single" with both a public and a private subnet |
| VpcComponent.NatWanted | awsx/ec2/vpc.ts:372-378 | a gateway is wanted exactly when fewer exist than the strategy asks for by this zone |
| VpcComponent.ShouldCreateNatGateway | awsx/ec2/vpc.ts:367-382 | fails exactly for an unknown strategy; otherwise true exactly when fewer gateways exist than the strategy wants |
| VpcComponent.CompareSubnetSpecs | awsx/ec2/vpc.ts:384-404 | the sign of the comparison agrees with the type ranks (public, private, isolated): zero exactly for equal types |
| VpcComponent.CompareIsOrder | awsx/ec2/vpc.ts:384-404 | the comparator is antisymmetric and transitive |
| VpcComponent.OfType | awsx/ec2/vpc.ts:173-179 | keeps only subnets of the type, no more than the input has |
| VpcComponent.InZone | awsx/ec2/vpc.ts:152-153 | keeps only subnets of the zone, no more than the input has |
| VpcComponent.OfTypePartition | awsx/ec2/vpc.ts:152-155 | the three type groups together hold every subnet once |
| VpcComponent.OfTypeCount | awsx/ec2/vpc.ts:152-155 | filtering keeps every copy of a subnet of the type and no other subnet |
| VpcComponent.ZoneOrderSorted | awsx/ec2/vpc.ts:154 | the sorted zone list is ordered by the comparator |
| VpcComponent.ZoneOrderPermutes | awsx/ec2/vpc.ts:154 | the sorted zone list is a permutation of the zone's subnets |
| VpcComponent.ZoneOrderStable | awsx/ec2/vpc.ts:154 | the sort is stable: within each type the input order is kept |
| VpcComponent.ZoneOrderStartsPublic | awsx/ec2/vpc.ts:251-252 | a zone that has a public subnet starts with one (also line 154) |
| VpcComponent.SharedInside | awsx/ec2/vpc.ts:414-419 | of two blocks that share an address, the one with the longer prefix lies in the other |
| VpcComponent.OverlapsIffRangesMeet | awsx/ec2/vpc.ts:414-419 | two blocks overlap in `isInSubnet`'s sense exactly when their address ranges meet |
| VpcComponent.GetOverlappingSubnets | awsx/ec2/vpc.ts:411-422 | keeps exactly the subnets that overlap a subnet at another position, and is non-empty exactly when one does |
| VpcComponent.ValidateSubnets | awsx/ec2/vpc.ts:424-439 | rejects exactly when some subnet overlaps another, with the header and one numbered line per overlapping subnet |
| VpcComponent.GetDefaultAzs | awsx/ec2/vpc.ts:292-301 | fails exactly when the region has fewer than `azCount ?? 3` zones; otherwise the first that many zones, in order |
| VpcComponent.Configure | awsx/ec2/vpc.ts:65-85 | both zone arguments fail; otherwise the zones, the strategy (default "OnePerAz"), allocation ids that `validateEips` accepts, and the given zone names when present |
| VpcComponent.ZoneStepsFailStays | awsx/ec2/vpc.ts:155-272 | once a zone's subnets fail, the later subnets of the zone change nothing |
| VpcComponent.LayoutFailStays | awsx/ec2/vpc.ts:151-273 | once a zone fails, the later zones change nothing |
| VpcComponent.Names | awsx/ec2/vpc.ts:156-157 | the subnets' names, one per subnet, in order |
| VpcComponent.StepShape | awsx/ec2/vpc.ts:172-179 | a subnet that succeeds is appended, and its name to the id list of its type |
| VpcComponent.StepFollows | awsx/ec2/vpc.ts:172-179 | a successful step keeps each id list in line with the subnets of its type |
| VpcComponent.ZoneStepsFollow | awsx/ec2/vpc.ts:155-272 | a zone laid out without error appends its subnets and keeps the id lists in line |
| VpcComponent.LayoutFollows | awsx/ec2/vpc.ts:151-273 | a successful layout created each zone's subnets in turn, sorted with public ones first, and each id list names the subnets of its type in creation order |
| VpcComponent.EipNames | awsx/ec2/vpc.ts:212-213 | gateway g's elastic IP is named `${name}-${g + 1}` |
| VpcComponent.StepPlanned | awsx/ec2/vpc.ts:205-269 | one subnet: a public subnet leaves the zone's gateway in place, and any other subnet finds it there |
| VpcComponent.ZoneStepsPlanned | awsx/ec2/vpc.ts:155-272 | a zone that starts with a public subnet whenever it hosts a gateway lays out without error, with the gateway in place from the first subnet |
| VpcComponent.LayoutSucceeds | awsx/ec2/vpc.ts:151-273 | with a public subnet in every hosting zone and allocation ids that fit, no missing gateway or elastic IP is read: one gateway per hosting zone, gateway g named `${name}-${g + 1}` |
| VpcComponent.LayOutZone | awsx/ec2/vpc.ts:152-272 | the `forEach` over one zone's sorted subnets computes `ZoneSteps` |
| VpcComponent.LayOutSubnet | awsx/ec2/vpc.ts:155-271 | one pass of the `forEach` body: the subnet, its route table and, by its type, its internet or NAT route, or the read of an undefined gateway; the result is `Step`'s |
| VpcComponent.LayOutZones | awsx/ec2/vpc.ts:151-273 | the zone loop computes `Layout` |
| VpcComponent.Initialize | awsx/ec2/vpc.ts:60-290 | fails with the first error of configuration, overlap check, strategy check or layout, and otherwise yields the layout's resource lists |
| LegacyNetwork.OctetBlockRange | python/pulumi_aws_infra/network.py:133 | 10.10.k.0/24 spans the 256 addresses from 10.10.k.0 on, all inside 10.10.0.0/16 (also line 150) |
| LegacyNetwork.OctetBlockText | nodejs/aws-infra/network.ts:204 | the block is written `10.10.${k}.0/24` (also line 221) |
| LegacyNetwork.OctetBlocksDisjoint | python/pulumi_aws_infra/network.py:133 | distinct third octets give disjoint blocks (also line 150) |
| LegacyNetwork.Givens | python/pulumi_aws_infra/network.py:62-66 | given ids are kept one for one, in order |
| LegacyNetwork.Nth | nodejs/aws-infra/network.ts:98-99 | `ids[k]` is the k-th id, or undefined exactly when k is past the end |
| LegacyNetwork.Zones | python/pulumi_aws_infra/network.py:126-205 | the layouts of zones 0 to n-1, zone i at position i |
| LegacyNetwork.ZonesDisjoint | python/pulumi_aws_infra/network.py:126-205 | every subnet of every zone lies in 10.10.0.0/16 and no two positions of the layout (zone, subnet of the zone) hold subnets that share an address, so no block is used twice |
| LegacyNetwork.ZoneSubnets | python/pulumi_aws_infra/network.py:130-156 | zone i's subnet is 10.10.i.0/24 with public IPs exactly without private subnets; its NAT subnet is 10.10.(i+64).0/24 and always gets public IPs |
| LegacyNetwork.ZoneRouting | python/pulumi_aws_infra/network.py:141-203 | without private subnets a zone uses the public route table; with them, the NAT route table leads to the zone's NAT gateway in the NAT subnet, which uses the public route table |
| LegacyNetwork.SubnetIds | python/pulumi_aws_infra/network.py:205 | one id per zone, the zone's own subnet, in zone order |
| LegacyNetwork.PublicSubnetIds | python/pulumi_aws_infra/network.py:164 | one id per zone, the zone's public subnet, in zone order (also line 198) |
| LegacyNetwork.IdLists | nodejs/aws-infra/network.ts:195-279 | `subnetIds` names `${name}-${i}` per zone; `publicSubnetIds` names the NAT subnet with private subnets and the zone's own subnet otherwise |
| LegacyNetwork.BuildZones | python/pulumi_aws_infra/network.py:124-205 | the zone loop builds the zones and appends exactly the subnet ids and public subnet ids above |
| LegacyNetwork.BuildZone | python/pulumi_aws_infra/network.py:127-205 | one pass of the zone loop builds exactly `Zone` of the index, and the id appended to the public list is its public subnet's |
| LegacyNetwork.CreatedStateShape | python/pulumi_aws_infra/network.py:87-212 | a network built with n zones exposes its own VPC and default security group, one subnet id and one public subnet id per zone, and no two positions of the layout holding subnets that share an address (SubnetsDisjoint) |
| PythonNetwork.ZoneCount | python/pulumi_aws_infra/network.py:87-89 | an omitted or zero count means 2; any other count is kept; outside 1 to 4 it fails with the count in the message |
| PythonNetwork.CheckExisting | python/pulumi_aws_infra/network.py:68-76 | passes exactly when all three lists are given; the first missing one, in source order, names the error |
| PythonNetwork.Plan | python/pulumi_aws_infra/network.py:68-212 | with a VPC id: succeeds exactly when the checks pass and creates nothing; without one: succeeds exactly for an accepted zone count and creates a VPC with zones |
| PythonNetwork.PlanAttaches | python/pulumi_aws_infra/network.py:62-85 | an existing network keeps exactly the ids it is given and creates nothing |
| PythonNetwork.PlanCreates | python/pulumi_aws_infra/network.py:87-212 | without a VPC id and with an accepted count n: n zones, zone i's subnet `${name}-${i}` listed in `subnet_ids`, private subnets only when asked, and no two positions of the n zones holding subnets that share an address |
| PythonNetwork.CheckFromVpc | python/pulumi_aws_infra/network.py:252-262 | passes exactly when every argument is given; the first missing one, in source order, names the error |
| PythonNetwork.Network.Attach | python/pulumi_aws_infra/network.py:62-85 | the existing-network path keeps the given ids and creates nothing |
| PythonNetwork.Network.Create | python/pulumi_aws_infra/network.py:87-212 | the new-network path ends in the state `CreatedState` describes |
| PythonNetwork.Network.New | python/pulumi_aws_infra/network.py:30-212 | the constructor succeeds exactly when `Plan` does, with its error, and the new object's state is the plan's |
| PythonNetwork.Network.FromVpc | python/pulumi_aws_infra/network.py:239-270 | succeeds exactly when every argument is given, with the first missing one's error otherwise, and then attaches to the given ids |
| PythonNetwork.NetworkClass.constructor | python/pulumi_aws_infra/network.py:28 | the cache starts empty |
| PythonNetwork.NetworkClass.GetDefault | python/pulumi_aws_infra/network.py:214-237 | the first call builds the default network and stores it; every later call returns that same object |
| InfraNetwork.ZoneCount | nodejs/aws-infra/network.ts:155-159 | a missing or zero count means 2; any other count is kept; outside 1 to 4 it fails with the count in the message |
| InfraNetwork.CopyExisting | nodejs/aws-infra/network.ts:145-151 | attaches exactly when all three lists are there; a missing one throws on `map` of undefined |
| InfraNetwork.Plan | nodejs/aws-infra/network.ts:134-280 | a truthy VPC id attaches; otherwise (no id or an empty one) it succeeds exactly for an accepted zone count, with its error, and builds a VPC |
| InfraNetwork.PlanCreates | nodejs/aws-infra/network.ts:154-280 | without a truthy VPC id and with an accepted count n: n zones, zone i's subnet `${name}-${i}` in `subnetIds`, private subnets only when asked, and no two positions of the n zones holding subnets that share an address |
| InfraNetwork.CheckFromVpc | nodejs/aws-infra/network.ts:116-128 | passes exactly for a truthy VPC id and all lists given; the first failing check, in source order, names the error |
| InfraNetwork.FromVpcAttaches | nodejs/aws-infra/network.ts:116-151 | whatever `fromVpc`'s checks let through, the constructor attaches without throwing |
| InfraNetwork.Network.Attach | nodejs/aws-infra/network.ts:145-151 | the existing-network path keeps the given ids and creates nothing |
| InfraNetwork.Network.Create | nodejs/aws-infra/network.ts:154-280 | the new-network path ends in the state `CreatedState` describes |
| InfraNetwork.Network.New | nodejs/aws-infra/network.ts:133-280 | the constructor succeeds exactly when `Plan` does, with its error, and the new object's state is the plan's |
| InfraNetwork.Network.FromVpc | nodejs/aws-infra/network.ts:116-131 | succeeds exactly when the checks pass, with the first failing check's error otherwise, and then attaches |
| InfraNetwork.NetworkClass.constructor | nodejs/aws-infra/network.ts:85 | the cache starts empty |
| InfraNetwork.NetworkClass.GetDefault | nodejs/aws-infra/network.ts:92-111 | the first call builds the default network from the lookups and stores it; every later call returns that same object |
| InfraVpc.ParseKind | nodejs/aws-infra/ec2/vpc.ts:95-101 | exactly "public", "private" and "isolated" are subnet types, each read back as itself |
| InfraVpc.Configure | nodejs/aws-infra/ec2/vpc.ts:60-83 | accepted exactly when the NAT gateway count (defaulting to the zone count, itself defaulting to 2) is at most the zone count, with both counts in the error otherwise; defaults 10.0.0.0/16, DNS hostnames and support on, default tenancy, one public and one private subnet per zone |
| InfraVpc.InternetRoutes | nodejs/aws-infra/ec2/vpc.ts:163-171 | one "ig" route per public subnet, in order, each to the internet gateway |
| InfraVpc.NatPlan | nodejs/aws-infra/ec2/vpc.ts:182-212 | succeeds exactly when a public subnet exists at every position the gateways read, and then makes one gateway per count |
| InfraVpc.NatPlanPlacement | nodejs/aws-infra/ec2/vpc.ts:182-212 | with no more gateways than zones, gateway i is `nat-${i}` in public subnet i |
| InfraVpc.RoundRobin | nodejs/aws-infra/ec2/vpc.ts:227-229 | the corrected counter, taken modulo the gateway count, always names an existing gateway |
| InfraVpc.PrivateRoutes | nodejs/aws-infra/ec2/vpc.ts:214-238 | a successful run over p positions has one route per position and reads only existing private subnets |
| InfraVpc.PrivateRoutesFailed | nodejs/aws-infra/ec2/vpc.ts:218-238 | once a position throws, every longer run fails with that same error |
| InfraVpc.PrivateRoutesPrefix | nodejs/aws-infra/ec2/vpc.ts:218-238 | a successful shorter run is a prefix of every successful longer run |
| InfraVpc.PrivateRoutesStep | nodejs/aws-infra/ec2/vpc.ts:226-236 | one more position appends the route of that subnet to the gateway it picks, or fails when that gateway is missing |
| InfraVpc.RouteStep | nodejs/aws-infra/ec2/vpc.ts:225-236 | position p in zone j advances the round-robin counter exactly when the zone has no gateway of its own, and appends the route or fails as the reads dictate |
| InfraVpc.ChunkEnd | nodejs/aws-infra/ec2/vpc.ts:218 | the chunk loop stops at the first multiple of the zone count at or past the number of private subnets |
| InfraVpc.ChunkZone | nodejs/aws-infra/ec2/vpc.ts:218-226 | position j of a chunk starting at a multiple of the zone count is in zone j, and the next chunk starts at a multiple again |
| InfraVpc.RoutesCorrected | nodejs/aws-infra/ec2/vpc.ts:214-238 | with the corrected counter, every private subnet gets one route, to its zone's gateway when the zone has one and to some existing gateway otherwise |
| InfraVpc.CorrectedLoopSucceeds | nodejs/aws-infra/ec2/vpc.ts:214-238 | with the corrected counter and whole rows of private subnets the loop never throws |
| InfraVpc.UnwrappedCounterFails | nodejs/aws-infra/ec2/vpc.ts:214-238 | as written, three zones with one gateway throw on reading gateway 1; the corrected loop routes all three |
| InfraVpc.ExistingSubnets | nodejs/aws-infra/ec2/vpc.ts:241-255 | input i becomes subnet `${vpcName}-${type}-${i}` with id input i, in order |
| InfraVpc.Ids | nodejs/aws-infra/ec2/vpc.ts:28-30 | the id lists hold the ids of the subnet lists, position by position |
| InfraVpc.Construct | nodejs/aws-infra/ec2/vpc.ts:53-93 | an existing VPC is wrapped as it is; a new one fails exactly as `Configure` does and otherwise gets the VPC named after the component with its settings |
| InfraVpc.Assemble | nodejs/aws-infra/ec2/vpc.ts:85-89 | a new VPC with subnets keeps the component's VPC and settings once gateways and routes are added |
| InfraVpc.ZonalNatGateways | nodejs/aws-infra/ec2/vpc.ts:79-89 | with gateways and whole rows of public and private subnets: gateway i in zone i's public subnet, every public subnet routed to the internet gateway, every private subnet routed once, to its own zone's gateway where there is one |
| InfraVpc.ExistingState | nodejs/aws-infra/ec2/vpc.ts:139-149 | `fromExistingIds` creates nothing and keeps the given ids per type |
| InfraVpc.Vpc.GetSubnets | nodejs/aws-infra/ec2/vpc.ts:95-102 | the subnets of a known type, and "Unexpected subnet type: " plus the type for any other |
| InfraVpc.Vpc.SubnetIdsMatch | nodejs/aws-infra/ec2/vpc.ts:95-111 | `getSubnetIds` fails exactly when `getSubnets` does, with the same error, and otherwise gives the ids of its subnets |
| InfraVpc.Vpc.Existing | nodejs/aws-infra/ec2/vpc.ts:56-59 | an existing VPC starts with no subnets, gateways or routes |
| InfraVpc.Vpc.Created | nodejs/aws-infra/ec2/vpc.ts:68-83 | a new VPC starts with the subnets its topology made and no gateways or routes |
| InfraVpc.Vpc.CreateSubnets | nodejs/aws-infra/ec2/vpc.ts:241-255 | the subnets of the inputs are appended to their type's lists; all else is unchanged |
| InfraVpc.Vpc.AppendSubnet | nodejs/aws-infra/ec2/vpc.ts:252-253 | one subnet is appended to its type's subnet and id lists; all else is unchanged |
| InfraVpc.Vpc.CreateInternetGateway | nodejs/aws-infra/ec2/vpc.ts:152-174 | no gateway and no routes without public subnets; otherwise a gateway named after the VPC and the internet routes of all public subnets |
| InfraVpc.Vpc.PlaceNatGateways | nodejs/aws-infra/ec2/vpc.ts:182-212 | the gateways pushed are exactly `NatPlan`'s, and it fails exactly when `NatPlan` does |
| InfraVpc.Vpc.RouteChunk | nodejs/aws-infra/ec2/vpc.ts:225-237 | one chunk extends the routes as `PrivateRoutes` does and moves the counter as the corrected loop does |
| InfraVpc.Vpc.RoutePrivateSubnets | nodejs/aws-infra/ec2/vpc.ts:214-238 | the routes added are those of `PrivateRoutes` up to the chunk end, with the corrected counter |
| InfraVpc.Vpc.CreateNatGateways | nodejs/aws-infra/ec2/vpc.ts:176-239 | nothing happens without private subnets, gateways to make or public subnets; otherwise the gateways then the private routes |
| InfraVpc.Vpc.Build | nodejs/aws-infra/ec2/vpc.ts:85-89 | the state after the gateways and routes is `Assemble`'s |
| InfraVpc.Vpc.New | nodejs/aws-infra/ec2/vpc.ts:53-93 | succeeds exactly when `Construct` does, with its error, and the new object's state is `Construct`'s |
| InfraVpc.Vpc.FromExistingIds | nodejs/aws-infra/ec2/vpc.ts:139-149 | the new VPC's state is `ExistingState` of the given ids, absent lists read as empty |
| InfraVpc.VpcClass.constructor | nodejs/aws-infra/ec2/vpc.ts:23 | no default VPC is cached at first |
| InfraVpc.VpcClass.GetDefault | nodejs/aws-infra/ec2/vpc.ts:118-137 | the first call wraps the default VPC with its first two subnets as public ones and caches it; later calls return the cached object |
| AwsxVpc.RequestedZones | nodejs/awsx/ec2/vpc.ts:330 | the requested zones win over the zone count, which wins over the default of two zones |
| AwsxVpc.Describe | nodejs/awsx/ec2/vpc.ts:515 | zone i pairs the i-th name with the i-th zone id |
| AwsxVpc.SliceEnd | nodejs/awsx/ec2/vpc.ts:528 | `slice(0, end)` keeps end items when 0 <= end <= length, all for a larger end, and counts back from the length for a negative one |
| AwsxVpc.FilterZones | nodejs/awsx/ec2/vpc.ts:520 | keeps exactly the region's zones whose names were asked for, in region order |
| AwsxVpc.GetAvailabilityZones | nodejs/awsx/ec2/vpc.ts:504-531 | mismatched name and id counts fail with "mismatched names and ids"; a list of names keeps the matching zones or fails with "did not match"; "all" keeps every zone; a count keeps a prefix |
| AwsxVpc.FilterCount | nodejs/awsx/ec2/vpc.ts:520-521 | with distinct zone names, the filter finds one zone per wanted name the region has |
| AwsxVpc.NamedZonesFound | nodejs/awsx/ec2/vpc.ts:517-525 | with distinct names on both sides, a list request succeeds exactly when the region has every zone named |
| AwsxVpc.FilterMatches | nodejs/awsx/ec2/vpc.ts:520-521 | the filter finds as many zones as were named exactly when every named zone is the region's |
| AwsxVpc.WantedNamesAre | nodejs/awsx/ec2/vpc.ts:520 | the wanted names found are those that are zone names of the region |
| AwsxVpc.RepeatedNameRejected | nodejs/awsx/ec2/vpc.ts:517-525 | a request naming a zone twice always fails |
| AwsxVpc.ParseKind | nodejs/awsx/ec2/vpc.ts:197-205 | exactly "public", "private" and "isolated" are subnet types, each read back as itself |
| AwsxVpc.CreatedSubnet | nodejs/awsx/ec2/vpc.ts:152-161 | the subnet keeps the zone name as given and carries the zone id only when the zone name is not truthy, so never both |
| AwsxVpc.SubnetsOfKindStep | nodejs/awsx/ec2/vpc.ts:148-164 | one more description adds its subnet to its own type's list only |
| AwsxVpc.SubnetsOfKindMembers | nodejs/awsx/ec2/vpc.ts:148-164 | the subnets of a type are exactly those created from descriptions of that type |
| AwsxVpc.FindSubnet | nodejs/awsx/ec2/vpc.ts:167 | `find` returns the first subnet of that name, and nothing exactly when none has it (also line 176) |
| AwsxVpc.FindGateway | nodejs/awsx/ec2/vpc.ts:181 | `find` returns the first gateway of that name, and nothing exactly when none has it |
| AwsxVpc.GatewayFor | nodejs/awsx/ec2/vpc.ts:166-173 | a gateway is placed exactly when a public subnet of its name exists, in the first such subnet; otherwise "Could not find public subnet named" and the name |
| AwsxVpc.RouteFor | nodejs/awsx/ec2/vpc.ts:175-187 | a route is made exactly when its private subnet and gateway exist, the subnet checked first, with the matching "Could not find" error otherwise |
| AwsxVpc.NatGatewaysFor | nodejs/awsx/ec2/vpc.ts:166-173 | a successful run makes one gateway per description |
| AwsxVpc.NatRoutesFor | nodejs/awsx/ec2/vpc.ts:175-187 | a successful run makes one route per description |
| AwsxVpc.NatGatewaysStep | nodejs/awsx/ec2/vpc.ts:166-173 | one more description appends its gateway or fails with its error |
| AwsxVpc.NatRoutesStep | nodejs/awsx/ec2/vpc.ts:175-187 | one more description appends its route or fails with its error |
| AwsxVpc.NatGatewaysPrefixFails | nodejs/awsx/ec2/vpc.ts:166-173 | once a prefix throws, the whole loop fails with that error |
| AwsxVpc.NatRoutesPrefixFails | nodejs/awsx/ec2/vpc.ts:175-187 | once a prefix throws, the whole loop fails with that error |
| AwsxVpc.NatGatewaysMade | nodejs/awsx/ec2/vpc.ts:166-173 | the gateways are made exactly when every description's public subnet exists, gateway i then being description i's |
| AwsxVpc.NatGatewaysFailure | nodejs/awsx/ec2/vpc.ts:166-173 | a failure names the public subnet of the first description whose subnet is missing |
| AwsxVpc.NatRoutesMade | nodejs/awsx/ec2/vpc.ts:175-187 | the routes are made exactly when every description resolves, route i then leaving description i's private subnet for its gateway |
| AwsxVpc.NatRoutesFailure | nodejs/awsx/ec2/vpc.ts:175-187 | a failure names what the first unresolved description lacks, its private subnet before its gateway |
| AwsxVpc.InternetRoutes | nodejs/awsx/ec2/vpc.ts:236-239 | one "ig" route per subnet, in order, to the internet gateway |
| AwsxVpc.Defaults | nodejs/awsx/ec2/vpc.ts:104-126 | 10.0.0.0/16, one NAT gateway per zone, no IPv6 block, DNS hostnames and support on, default tenancy, one public and one private subnet per zone; given fields are kept |
| AwsxVpc.Ids | nodejs/awsx/ec2/vpc.ts:31-35 | the id lists hold the ids of the subnet lists, position by position |
| AwsxVpc.ExistingSubnets | nodejs/awsx/ec2/vpc.ts:533-546 | input i becomes subnet `${vpcName}-${type}-${i}` with id input i |
| AwsxVpc.ExistingGateways | nodejs/awsx/ec2/vpc.ts:93-101 | id i becomes NAT gateway `${name}-nat-${i}` |
| AwsxVpc.ExistingIdsState | nodejs/awsx/ec2/vpc.ts:76-101 | the given subnets of each type, an internet gateway `${name}-ig` exactly when its id is truthy, the given NAT gateways, no routes |
| AwsxVpc.WithInternetGateway | nodejs/awsx/ec2/vpc.ts:224-242 | fails with "Cannot add InternetGateway" exactly when a gateway exists; otherwise sets it and appends one "ig" route per subnet given, the public ones by default, changing nothing else |
| AwsxVpc.CreatedStateSucceeds | nodejs/awsx/ec2/vpc.ts:103-134 | a new VPC is built exactly when the topology succeeds and every NAT gateway and route resolves |
| AwsxVpc.CreatedStateContents | nodejs/awsx/ec2/vpc.ts:103-134 | a new VPC holds exactly the topology's subnets, gateways and routes, always an internet gateway, and the NAT routes followed by one "ig" route per public subnet |
| AwsxVpc.DefaultVpcIdArgs | nodejs/awsx/ec2/vpc.ts:311-325 | the default VPC uses at most its first two subnets, as public ones, and nothing else |
| AwsxVpc.EmptyVpcIdCreates | nodejs/awsx/ec2/vpc.ts:675-677 | arguments with an empty VPC id are not taken as existing ids, so a new VPC is built |
| AwsxVpc.VpcData.GetSubnets | nodejs/awsx/ec2/vpc.ts:197-205 | the subnets of a known type, and "Unexpected subnet type: " plus the type for any other |
| AwsxVpc.VpcData.SubnetIdsMatch | nodejs/awsx/ec2/vpc.ts:197-215 | `getSubnetIds` fails exactly when `getSubnets` does, with the same error, and otherwise gives the ids of its subnets |
| AwsxVpc.VpcData.Empty | nodejs/awsx/ec2/vpc.ts:67-75 | a VPC starts with no subnets, gateways or routes |
| AwsxVpc.VpcData.AddSubnet | nodejs/awsx/ec2/vpc.ts:191-195 | the subnet is appended to its own type's lists only; all else is unchanged |
| AwsxVpc.VpcData.GetExistingSubnets | nodejs/awsx/ec2/vpc.ts:533-546 | the wrapped inputs are appended to their type's lists; all else is unchanged |
| AwsxVpc.VpcData.AddInternetGateway | nodejs/awsx/ec2/vpc.ts:224-242 | the new state is `WithInternetGateway`'s, and a refusal leaves the state unchanged |
| AwsxVpc.VpcData.AddNatGateway | nodejs/awsx/ec2/vpc.ts:253-257 | the gateway is pushed last; all else is unchanged |
| AwsxVpc.VpcData.AddLayoutSubnets | nodejs/awsx/ec2/vpc.ts:148-164 | every type's list grows by the subnets of that type's descriptions |
| AwsxVpc.VpcData.AddLayoutGateways | nodejs/awsx/ec2/vpc.ts:166-173 | the gateways pushed are exactly `NatGatewaysFor`'s, and it fails exactly when that does |
| AwsxVpc.VpcData.AddLayoutRoutes | nodejs/awsx/ec2/vpc.ts:175-187 | the routes added are exactly `NatRoutesFor`'s, and it fails exactly when that does |
| AwsxVpc.VpcData.Partition | nodejs/awsx/ec2/vpc.ts:138-188 | the new state is `Partitioned`'s, with its error on failure |
| AwsxVpc.VpcData.AddExistingNatGateways | nodejs/awsx/ec2/vpc.ts:93-101 | the wrapped gateways are appended in order; all else is unchanged |
| AwsxVpc.VpcData.FromIds | nodejs/awsx/ec2/vpc.ts:76-101 | the new data's state is `ExistingIdsState` |
| AwsxVpc.VpcData.GetAllExistingSubnets | nodejs/awsx/ec2/vpc.ts:80-82 | the public, private and isolated lists become `ExistingSubnets` of their given ids; nothing else changes |
| AwsxVpc.VpcData.Create | nodejs/awsx/ec2/vpc.ts:103-134 | succeeds exactly when `CreatedState` does, with its error, and the new data's state is `CreatedState`'s |
| AwsxVpc.VpcData.Initialize | nodejs/awsx/ec2/vpc.ts:282-336 | dispatches on the argument shape and succeeds exactly when `InitialState` does, with its state or error |
| AwsxVpc.GetProvider | nodejs/awsx/ec2/vpc.ts:338-345 | the explicit provider, else the parent's "aws" provider, else none |
| AwsxVpc.DefaultVpcName | nodejs/awsx/ec2/vpc.ts:390 | "default-" and the provider's name, or "default-vpc" without a provider |
| AwsxVpc.DefaultAliases | nodejs/awsx/ec2/vpc.ts:395-402 | the very first default VPC also gets the alias "default-vpc"; every one gets "default-" and its id |
| AwsxVpc.Vpc.constructor | nodejs/awsx/ec2/vpc.ts:273-280 | the component keeps its name and aliases and its data is `InitialState`'s |
| AwsxVpc.DefaultVpcs.constructor | nodejs/awsx/ec2/vpc.ts:382-413 | no default VPC is cached at first |
| AwsxVpc.DefaultVpcs.GetDefault | nodejs/awsx/ec2/vpc.ts:382-413 | a provider seen before gets its cached VPC and the cache is unchanged; a new provider gets a new VPC, named and aliased as above, which is cached under it |
| StepScaling.Insert | nodejs/awsx/autoscaling/stepScaling.ts:350 | one step placed before the first step of larger or equal value, the list growing by one; that it adds exactly that step and keeps the order is `InsertPermutes` and `InsertAscending` |
| StepScaling.SortByValue | nodejs/awsx/autoscaling/stepScaling.ts:345-351 | the sort by ascending value that the comparator defines, keeping the length; that it is an ascending permutation is `SortByValueSorts` |
| StepScaling.InsertPermutes | nodejs/awsx/autoscaling/stepScaling.ts:350 | inserting a step adds exactly that step to the multiset of steps |
| StepScaling.InsertAscending | nodejs/awsx/autoscaling/stepScaling.ts:350 | inserting into an ascending list keeps it ascending |
| StepScaling.SortByValueSorts | nodejs/awsx/autoscaling/stepScaling.ts:345-351 | sorting gives a permutation of the steps, ascending by value |
| StepScaling.SortedFixed | nodejs/awsx/autoscaling/stepScaling.ts:345-351 | an ascending list is left exactly as it is |
| StepScaling.SortTwice | nodejs/awsx/autoscaling/stepScaling.ts:285 | sorting an already sorted list again changes nothing (also lines 307, 356) |
| StepScaling.SortSteps | nodejs/awsx/autoscaling/stepScaling.ts:345-351 | the array is sorted in place into `SortByValue` of its old contents |
| StepScaling.FirstRepeat | nodejs/awsx/autoscaling/stepScaling.ts:327-331 | the first position whose step shares its value with the next one, and none exactly when no neighbours do |
| StepScaling.NoRepeatStrict | nodejs/awsx/autoscaling/stepScaling.ts:327-331 | on an ascending list, no neighbours share a value exactly when no two steps do (also lines 375-379) |
| StepScaling.UpperConverted | nodejs/awsx/autoscaling/stepScaling.ts:305-343 | empty fails with "must be non-empty", a repeated value with "two steps with the same [value]"; otherwise the threshold is the smallest value and step i runs from its value to the next step's, relative to the threshold |
| StepScaling.LowerConverted | nodejs/awsx/autoscaling/stepScaling.ts:354-391 | empty fails with "must be non-empty", a repeated value with "two steps with the same [value]"; otherwise the threshold is the largest value and step i runs from the previous step's value to its own, relative to the threshold |
| StepScaling.Reached | nodejs/awsx/autoscaling/stepScaling.ts:320-340 | the last step of an ascending list whose value a metric value has reached |
| StepScaling.UpperIntervals | nodejs/awsx/autoscaling/stepScaling.ts:320-340 | every metric value at or above the threshold lies in exactly one upper interval, that of the last step it has reached |
| StepScaling.FirstAbove | nodejs/awsx/autoscaling/stepScaling.ts:369-388 | the first step of an ascending list whose value a metric value is below |
| StepScaling.LowerIntervals | nodejs/awsx/autoscaling/stepScaling.ts:369-388 | every metric value below the threshold lies in exactly one lower interval, that of the first step above it |
| StepScaling.UpperShape | nodejs/awsx/autoscaling/stepScaling.ts:320-340 | the first upper interval starts at 0, the last is open above, each ends where the next begins, and each adjustment is its step's |
| StepScaling.LowerShape | nodejs/awsx/autoscaling/stepScaling.ts:369-388 | the first lower interval is open below, the last ends at 0, each ends where the next begins, and each adjustment is its step's |
| StepScaling.DuplicatesRejected | nodejs/awsx/autoscaling/stepScaling.ts:323-331 | on a non-empty sorted list, each conversion fails exactly when two steps share a value (also lines 372-379) |
| StepScaling.ConvertUpper | nodejs/awsx/autoscaling/stepScaling.ts:322-342 | the loop returns `UpperConverted` of the sorted list, throwing at the first repeated value |
| StepScaling.ConvertLower | nodejs/awsx/autoscaling/stepScaling.ts:371-390 | the loop returns `LowerConverted` of the sorted list, throwing at the first repeated value |
| StepScaling.UpperStepsConverted | nodejs/awsx/autoscaling/stepScaling.ts:305-311 | an absent list converts to nothing; a given one is sorted, then converted |
| StepScaling.LowerStepsConverted | nodejs/awsx/autoscaling/stepScaling.ts:354-360 | an absent list converts to nothing; a given one is sorted, then converted |
| StepScaling.StepsConverted | nodejs/awsx/autoscaling/stepScaling.ts:283-302 | the upper list is converted, then the lower, the first error winning; with both lists, a largest lower value at or above the smallest upper value fails with "cannot overlap" |
| StepScaling.StepsConvertedKeepSteps | nodejs/awsx/autoscaling/stepScaling.ts:283-302 | success keeps one adjustment per step, those of the sorted steps, and puts the lower threshold below the upper one |
| StepScaling.UpperThresholdIsSmallest | nodejs/awsx/autoscaling/stepScaling.ts:320 | the upper threshold is the smallest value among the given upper steps |
| StepScaling.LowerThresholdIsLargest | nodejs/awsx/autoscaling/stepScaling.ts:369 | the lower threshold is the largest value among the given lower steps |
| StepScaling.OverlapRejected | nodejs/awsx/autoscaling/stepScaling.ts:293-299 | once both lists convert, `convertSteps` fails exactly when some lower value reaches some upper value |
| StepScaling.SortGiven | nodejs/awsx/autoscaling/stepScaling.ts:345-351 | a given array is sorted in place; an absent one is left alone |
| StepScaling.ConvertUpperSteps | nodejs/awsx/autoscaling/stepScaling.ts:305-343 | the caller's array ends sorted and the result is `UpperStepsConverted` of the old contents |
| StepScaling.ConvertLowerSteps | nodejs/awsx/autoscaling/stepScaling.ts:354-391 | the caller's array ends sorted and the result is `LowerStepsConverted` of the old contents |
| StepScaling.SortedStepsTwice | nodejs/awsx/autoscaling/stepScaling.ts:285 | sorting the array again inside `convertUpperSteps`/`convertLowerSteps` leaves it as it is (also line 307) |
| StepScaling.ConvertSteps | nodejs/awsx/autoscaling/stepScaling.ts:283-302 | both arrays end sorted, even when they are the same array, and the result is `StepsConverted` of their old contents |
| StepScaling.NewStepScalingPolicy | nodejs/awsx/autoscaling/stepScaling.ts:213-273 | fails without any steps, on a conversion error, or on a statistic other than Minimum, Maximum or Average; otherwise `${name}-upper`/`${name}-lower` policies exist exactly for the given lists, with alarms at or above the upper threshold and at or below the lower one, one evaluation period by default |
| AwsxFargateService.MemoryRange | nodejs/awsx/ecs/fargateService.ts:109-111 | every whole GB from low to high, in order, in MiB; empty when low > high |
| AwsxFargateService.FargateConfigs | nodejs/awsx/ecs/fargateService.ts:119-121 | one size per memory value, in order, each priced at 0.04048 per vCPU plus 0.004445 per GB (scaled) |
| AwsxFargateService.MakeMemoryConfigs | nodejs/awsx/ecs/fargateService.ts:101-112 | a low bound under 1 fails with "Invalid low", then a high bound over 30 with "Invalid high"; otherwise `MemoryRange` |
| AwsxFargateService.MakeFargateConfigs | nodejs/awsx/ecs/fargateService.ts:114-122 | a vCPU count outside [.25, 4] fails with "Invalid vcpu"; otherwise `FargateConfigs` |
| AwsxFargateService.GetAllFargateConfigs | nodejs/awsx/ecs/fargateService.ts:78-100 | the generator never throws and yields the whole table |
| AwsxFargateService.MemoryRangeMember | nodejs/awsx/ecs/fargateService.ts:109-111 | a memory value is in the range exactly when it is a whole GB between the bounds |
| AwsxFargateService.FargateConfigsMember | nodejs/awsx/ecs/fargateService.ts:119-121 | the sizes of one vCPU count are exactly its memory values, each priced |
| AwsxFargateService.AllConfigsSupported | nodejs/awsx/ecs/fargateService.ts:78-100 | the table holds exactly the fifty supported Fargate sizes, each priced |
| AwsxFargateService.TotalsAppend | nodejs/awsx/ecs/fargateService.ts:160-179 | the summed requests of two groups of containers add up |
| AwsxFargateService.GetRequestedCpuAndMemory | nodejs/awsx/ecs/fargateService.ts:160-188 | the loop sums each container's CPU and its memory reservation, else its memory |
| AwsxFargateService.FittingConfigs | nodejs/awsx/ecs/fargateService.ts:140 | keeps exactly the sizes that cover the CPU and memory asked for |
| AwsxFargateService.CheapestIndex | nodejs/awsx/ecs/fargateService.ts:147-148 | the first position of a lowest cost, which a stable sort by cost puts first |
| AwsxFargateService.LargestFits | nodejs/awsx/ecs/fargateService.ts:132-143 | after capping, 4 vCPU with 30 GB covers every request, so "Could not find fargate config" is never raised |
| AwsxFargateService.ChosenConfig | nodejs/awsx/ecs/fargateService.ts:125-158 | the chosen size is in the table, covers the request, and costs no more than any other that does |
| AwsxFargateService.ChosenMonotone | nodejs/awsx/ecs/fargateService.ts:125-158 | asking for no more CPU and memory never yields a dearer size |
| AwsxFargateService.FargateSizeFor | nodejs/awsx/ecs/fargateService.ts:125-158 | the size for a set of containers is a supported size covering their summed requests |
| AwsxFargateService.ComputeFargateMemoryAndCpu | nodejs/awsx/ecs/fargateService.ts:125-158 | the method returns `FargateSizeFor` of the containers |
| AwsxFargateService.FittingCapped | nodejs/awsx/ecs/fargateService.ts:130-140 | capping the request at 4 vCPU and 30 GB leaves the filter's result unchanged |
| AwsxFargateService.ContainersOf | nodejs/awsx/ecs/fargateService.ts:27-31 | no containers exactly when neither `container` nor `containers` is given; `containers` wins |
| AwsxFargateService.TaskDefinitionFor | nodejs/awsx/ecs/fargateService.ts:22-51 | fails with "Either [container] or [containers]" exactly when neither is given; otherwise Fargate-only on awsvpc, the caller's memory and CPU winning over the computed size |
| AwsxFargateService.NewFargateTaskDefinition | nodejs/awsx/ecs/fargateService.ts:22-51 | the constructor run gives `TaskDefinitionFor` |
| AwsxFargateService.GetSubnets | nodejs/awsx/ecs/fargateService.ts:234-247 | given subnets win; otherwise the public subnets when a public IP is assigned, else the private ones |
| AwsxFargateService.ServiceFor | nodejs/awsx/ecs/fargateService.ts:192-232 | fails with "Either [taskDefinition] or [taskDefinitionArgs]" exactly when neither is given; a given task definition is used; otherwise the default cluster, a public IP unless told otherwise, the cluster's security groups and launch type FARGATE |
| AwsxFargateService.NewFargateService | nodejs/awsx/ecs/fargateService.ts:192-232 | the constructor run gives `ServiceFor` |
| AwsxFargateService.CreateService | nodejs/awsx/ecs/fargateService.ts:56-70 | a given task definition or task definition arguments are refused with their messages; otherwise the service runs this task definition |
| InfraFargateService.WholeGb | nodejs/aws-infra/experimental/fargateService.ts:99-101 | the least whole number of GB that holds the memory, at least 1 |
| InfraFargateService.BaseCpu | nodejs/aws-infra/experimental/fargateService.ts:107 | the power of two of CPU units is at least 256 and at least the request |
| InfraFargateService.SizeAsWritten | nodejs/aws-infra/experimental/fargateService.ts:93-124 | the size covers the summed requests, with at least 0.5 GB and 256 units, and at least the CPU the memory band requires |
| InfraFargateService.ComputeFargateMemoryAndCpu | nodejs/aws-infra/experimental/fargateService.ts:73-126 | the method returns `SizeAsWritten` of the summed container requests (memory reservation, else memory) |
| InfraFargateService.CpuSizes | nodejs/aws-infra/experimental/fargateService.ts:107 | the powers of two from 256 to 4096 are exactly the five Fargate CPU sizes |
| InfraFargateService.SizeAsWrittenLeast | nodejs/aws-infra/experimental/fargateService.ts:93-124 | the memory is the least whole GB (or 0.5 GB) covering the request, the CPU the least power of two covering the request and the memory band, and the memory text matches the memory |
| InfraFargateService.CpuInSizes | nodejs/aws-infra/experimental/fargateService.ts:107-118 | up to four vCPU requested, the CPU chosen is one of the five Fargate sizes |
| InfraFargateService.SupportedWhen | nodejs/aws-infra/experimental/fargateService.ts:93-118 | a CPU size with whole-GB memory between what the CPU needs and what it can serve is a size Fargate offers |
| InfraFargateService.AsWrittenUnsupported | nodejs/aws-infra/experimental/fargateService.ts:93-118 | between two and four vCPU with at most 0.5 GB, the source picks 0.5 GB with 4096 units, which Fargate does not offer |
| InfraFargateService.CorrectedSize | nodejs/aws-infra/experimental/fargateService.ts:93-118 | the corrected size still covers the request |
| InfraFargateService.CorrectedSupported | nodejs/aws-infra/experimental/fargateService.ts:93-118 | within 4 vCPU and 30 GB the corrected size is always offered, and equals the source's size wherever that one is offered |
| InfraFargateService.TaskDefinitionFor | nodejs/aws-infra/experimental/fargateService.ts:22-49 | fails with "Either [container] or [containers]" exactly when neither is given; otherwise Fargate-only on awsvpc with the caller's memory and CPU winning over the corrected size |
| InfraFargateService.NewFargateTaskDefinition | nodejs/aws-infra/experimental/fargateService.ts:22-49 | the constructor run gives `TaskDefinitionFor` |
| InfraFargateService.ServiceFor | nodejs/aws-infra/experimental/fargateService.ts:128-152 | fails with "Either [taskDefinition] or [taskDefinitionArgs]" exactly when neither is given; otherwise launch type FARGATE on the network's subnets and the cluster's security groups, with a public IP exactly when the network does not use private subnets |
| InfraFargateService.NewFargateService | nodejs/aws-infra/experimental/fargateService.ts:128-152 | the constructor run gives `ServiceFor` |
| InfraFargateService.CreateService | nodejs/aws-infra/experimental/fargateService.ts:54-68 | a given task definition or task definition arguments are refused with their messages; otherwise the service runs this task definition |
| ApiGateway.SwaggerMethod | nodejs/awsx/apigateway/api.ts:1313-1328 | the seven standard methods map to their lower-case spelling, "any" to "x-amazon-apigateway-any-method", ignoring case; anything else fails with "Method not supported: " and the method |
| ApiGateway.SwaggerMethodIgnoresCase | nodejs/awsx/apigateway/api.ts:1313-1328 | an accepted method and its lower-case spelling give the same token |
| ApiGateway.SwaggerMethodInjective | nodejs/awsx/apigateway/api.ts:1313-1328 | two accepted methods share a token exactly when they agree up to case |
| ApiGateway.SafeS3BucketName | nodejs/awsx/apigateway/api.ts:1344-1346 | the result holds only lower-case letters, digits and "-", and is no longer than the name |
| ApiGateway.SafeS3BucketNameKeeps | nodejs/awsx/apigateway/api.ts:1344-1346 | a name already made of those characters is kept as it is |
| ApiGateway.SafeS3BucketNameIdempotent | nodejs/awsx/apigateway/api.ts:1344-1346 | making a name safe twice changes nothing more |
| ApiGateway.WithTrailingSlash | nodejs/awsx/apigateway/api.ts:1236 | the path ends in "/", unchanged when it already did and with one "/" added otherwise (also line 1091) |
| ApiGateway.TrailingSlashIdempotent | nodejs/awsx/apigateway/api.ts:1236 | adding the slash twice changes nothing more, and the path stays a prefix |
| ApiGateway.WithLeadingSlash | nodejs/awsx/apigateway/api.ts:735-737 | the path starts with "/", unchanged when it already did and with one "/" put in front otherwise |
| ApiGateway.LeadingSlashIdempotent | nodejs/awsx/apigateway/api.ts:735-737 | normalising a normalised path changes nothing |
| ApiGateway.GatewayResponses | nodejs/awsx/apigateway/api.ts:780-799 | the caller's responses are kept, and MISSING_AUTHENTICATION_TOKEN and ACCESS_DENIED get the 404 response exactly where absent |
| ApiGateway.GatewayResponsesIdempotent | nodejs/awsx/apigateway/api.ts:780-799 | filling in the defaults again changes nothing |
| ApiGateway.WithOperation | nodejs/awsx/apigateway/api.ts:801-807 | the operation is set at its path and method, the path being created if new |
| ApiGateway.WithOperationKeeps | nodejs/awsx/apigateway/api.ts:801-807 | every other path and method keeps its operation |
| ApiGateway.WithApiKey | nodejs/awsx/apigateway/api.ts:881-888 | fails with "Defined a non-apikey security definition" exactly when "api_key" holds another definition; otherwise sets "api_key" and keeps every other entry |
| ApiGateway.WithApiKeyIdempotent | nodejs/awsx/apigateway/api.ts:881-888 | requiring the API key twice is the same as once |
| ApiGateway.AuthorizerName | nodejs/awsx/apigateway/api.ts:909-911 | an authorizer with no name, or an empty one, is named `${title}-authorizer-${n}` with n the number of security definitions so far |
| ApiGateway.DefinitionFor | nodejs/awsx/apigateway/api.ts:921-933 | a new name gets an apiKey definition, in the header with type "cognito_user_pools" for a Cognito authorizer |
| ApiGateway.WithAuthorizer | nodejs/awsx/apigateway/api.ts:908-939 | one step records the authorizer's name with its methods to authorize |
| ApiGateway.AuthorizersLoop | nodejs/awsx/apigateway/api.ts:897-942 | a successful loop gives one record per authorizer |
| ApiGateway.AuthorizersKeepDefinitions | nodejs/awsx/apigateway/api.ts:921-933 | a definition written under a name is never replaced by a later authorizer |
| ApiGateway.WithAuthorizerRegisters | nodejs/awsx/apigateway/api.ts:913-919 | a successful step registers its authorizer under its name and keeps every earlier registration |
| ApiGateway.AuthorizersRegistered | nodejs/awsx/apigateway/api.ts:897-942 | every authorizer of a successful loop is registered under its name, with a security definition |
| ApiGateway.AuthorizersPrefixFails | nodejs/awsx/apigateway/api.ts:908-940 | once a prefix throws, the whole loop fails with that error |
| ApiGateway.AuthorizersKeepRest | nodejs/awsx/apigateway/api.ts:897-942 | authorizers change only the security definitions and the registrations |
| ApiGateway.SameNameRejected | nodejs/awsx/apigateway/api.ts:915-919 | two different authorizers with the same name fail with "Two different authorizers using the same name: " and the name |
| ApiGateway.SameAuthorizerReused | nodejs/awsx/apigateway/api.ts:909-933 | the same authorizer object on a second route keeps its name and adds no definition |
| ApiGateway.RequiredParametersOf | nodejs/awsx/apigateway/api.ts:1023-1028 | each required parameter becomes a required entry of the same name and location |
| ApiGateway.WithRequiredParameters | nodejs/awsx/apigateway/api.ts:1022-1033 | the parameters are appended in order, the list being created only when there is one; nothing else changes |
| ApiGateway.WithSecurity | nodejs/awsx/apigateway/api.ts:1015-1020 | the security list exists afterwards and ends with the records; nothing else changes |
| ApiGateway.ApiKeyRouteSecured | nodejs/awsx/apigateway/api.ts:875-878 | a route that requires the API key leaves the API-key definition and an "api_key" entry on its operation |
| ApiGateway.BasePathOptionsKeepIntegration | nodejs/awsx/apigateway/api.ts:858-879 | the options never change the operation's integration, the paths, the Lambdas or the bucket |
| ApiGateway.WithBucket | nodejs/awsx/apigateway/api.ts:743-747 | static routes use the given bucket, else one created under the safe API name |
| ApiGateway.ProxyUri | nodejs/awsx/apigateway/api.ts:1253-1265 | the URI gets a trailing "/" and, for the greedy path, "{proxy}" |
| ApiGateway.IntegrationRoutePaths | nodejs/awsx/apigateway/api.ts:1225-1247 | an integration route answers any method at the path with a trailing "/" and at that path plus "{proxy+}" |
| ApiGateway.ProxyUrisAgree | nodejs/awsx/apigateway/api.ts:1249-1299 | the greedy route's URI is the root URI followed by "{proxy}", and the root URI ends in "/" |
| ApiGateway.RouteAdded | nodejs/awsx/apigateway/api.ts:730-758 | a route without a path fails with "Route missing required [path] property" |
| ApiGateway.RoutesPrefixFails | nodejs/awsx/apigateway/api.ts:730-758 | once a prefix of the routes throws, the whole loop fails with that error |
| ApiGateway.AdditionalRoutesPrefixFails | nodejs/awsx/apigateway/api.ts:760-767 | once a prefix of the additional routes throws, the whole loop fails with that error |
| ApiGateway.AddRequiredParametersToOperation | nodejs/awsx/apigateway/api.ts:1022-1033 | the loop gives `WithRequiredParameters` |
| ApiGateway.AddAuthorizersToOperation | nodejs/awsx/apigateway/api.ts:1015-1020 | the loop gives `WithSecurity` |
| ApiGateway.SwaggerBuilder.constructor | nodejs/awsx/apigateway/api.ts:689-699 | a builder starts on the empty document state |
| ApiGateway.SwaggerBuilder.AddSwaggerOperation | nodejs/awsx/apigateway/api.ts:801-807 | the paths become `WithOperation`'s; nothing else changes |
| ApiGateway.SwaggerBuilder.AddApiKeyToSecurityDefinitions | nodejs/awsx/apigateway/api.ts:881-888 | the definitions become `WithApiKey`'s; a refusal leaves the state unchanged |
| ApiGateway.SwaggerBuilder.AddAuthorizersToSwagger | nodejs/awsx/apigateway/api.ts:897-942 | the state and records are those of the authorizer loop, and it fails exactly when that does |
| ApiGateway.SwaggerBuilder.AddBasePathOptions | nodejs/awsx/apigateway/api.ts:858-879 | the state and operation are `WithBasePathOptions`'s, and it fails exactly when that does |
| ApiGateway.SwaggerBuilder.AddEventHandlerRoute | nodejs/awsx/apigateway/api.ts:815-856 | the new state is `EventHandlerRouteAdded`'s, and it fails exactly when that does |
| ApiGateway.SwaggerBuilder.AddStaticRoute | nodejs/awsx/apigateway/api.ts:1035-1223 | the new state is `StaticRouteAdded`'s, and it fails exactly when that does |
| ApiGateway.SwaggerBuilder.AddStaticFile | nodejs/awsx/apigateway/api.ts:1078-1087 | a file route adds the "get" operation on the object keyed by the name and the path's hash, with the base-path options; the new state is `StaticFileAdded`'s, and it fails exactly when that does |
| ApiGateway.SwaggerBuilder.AddStaticDirectory | nodejs/awsx/apigateway/api.ts:1089-1222 | a directory route adds the index operation at the directory path when there is an index, then the greedy `{proxy+}` operation; the new state is `StaticDirectoryAdded`'s, and it fails exactly when that does |
| ApiGateway.SwaggerBuilder.AddIntegrationRoute | nodejs/awsx/apigateway/api.ts:1225-1300 | the new state is `IntegrationRouteAdded`'s, and it fails exactly when that does |
| ApiGateway.SwaggerBuilder.AddRawDataRoute | nodejs/awsx/apigateway/api.ts:1302-1311 | the new state is `RawDataRouteAdded`'s, and it fails exactly when that does |
| ApiGateway.SwaggerBuilder.AddRoute | nodejs/awsx/apigateway/api.ts:730-758 | the new state is `RouteAdded`'s, and it fails exactly when that does |
| ApiGateway.SwaggerBuilder.AddAdditionalRoute | nodejs/awsx/apigateway/api.ts:771-777 | the new state is `AdditionalRouteAdded`'s, and it fails exactly when that does |
| ApiGateway.SwaggerBuilder.AddRoutes | nodejs/awsx/apigateway/api.ts:730-758 | the loop's state is `RoutesAdded`'s, stopping at the first error |
| ApiGateway.SwaggerBuilder.AddAdditionalRoutes | nodejs/awsx/apigateway/api.ts:760-767 | the loop's state is `AdditionalRoutesAdded`'s, stopping at the first error |
| ApiGateway.InitialDocument | nodejs/awsx/apigateway/api.ts:686-717 | Swagger "2.0", the API name as title, version "1.0", no paths, binary media "*/*", the default gateway responses, the API key source defaulting to "HEADER", and a request validator exactly when one is given |
| ApiGateway.EmptySpec | nodejs/awsx/apigateway/api.ts:676-769 | an API with no routes gets the bare document, no Lambdas and no bucket |
| ApiGateway.CreateSwaggerSpec | nodejs/awsx/apigateway/api.ts:676-778 | the builder run gives `SwaggerSpec` |
| ApiGateway.Url | nodejs/awsx/apigateway/api.ts:581 | the URL starts with the invoke URL and ends with the stage name and "/" |
| ApiGateway.StageName | nodejs/awsx/apigateway/api.ts:545 | the given stage name unless empty, else "stage"; never empty |
| ApiGateway.NewApi | nodejs/awsx/apigateway/api.ts:510-593 | with neither Swagger text nor routes it fails with "API must specify either [swaggerString]"; given Swagger text wins; otherwise the routes' document; the REST API is named after the title unless a name is given |
| ApiGateway.ResolvesUnique | nodejs/awsx/apigateway/api.ts:609-631 | `getFunction` has at most one answer |
| ApiGateway.ResolutionSelects | nodejs/awsx/apigateway/api.ts:609-649 | any answer comes from the route the request names, whose methods must pick one |
| ApiGateway.ResolvesAt | nodejs/awsx/apigateway/api.ts:609-631 | a method the named route selects is the answer |
| ApiGateway.GetMethods | nodejs/awsx/apigateway/api.ts:633-649 | without a route: "no routes to any Functions" for none, "[route] must be provided" for several, the only route's methods for one; with a route, its methods if any |
| ApiGateway.GetFunction | nodejs/awsx/apigateway/api.ts:609-631 | returns the one Lambda the route and method resolve to whenever there is one, with the source's errors for no methods, several methods without a method, or a missing method |
| ApiGateway.EventHandlerRouteResolves | nodejs/awsx/apigateway/api.ts:815-840 | an event-handler route's Lambda is what `getFunction` returns for its path and method |
| LambdaAuthorizer.IdentitySource | nodejs/awsx/apigateway/lambdaauthorizer.ts:128-133 | "" without sources; a single source as it is |
| LambdaAuthorizer.IdentitySourceLength | nodejs/awsx/apigateway/lambdaauthorizer.ts:128-133 | the joined text holds every source and one ", " between neighbours |
| LambdaAuthorizer.TokenHeader | nodejs/awsx/apigateway/lambdaauthorizer.ts:232 | the header given unless absent or empty, else "Authorization"; never empty |
| LambdaAuthorizer.TokenAuthorizer | nodejs/awsx/apigateway/lambdaauthorizer.ts:231-243 | a token authorizer in the header, type "oauth2", named after the header, with identity source "method.request.header." plus the header |
| LambdaAuthorizer.Length | nodejs/awsx/apigateway/lambdaauthorizer.ts:319-324 | an absent list has length 0, a given one its own length |
| LambdaAuthorizer.GetLocation | nodejs/awsx/apigateway/lambdaauthorizer.ts:339-347 | "header" when there are headers, else "query" when there are query parameters, else "Could not determine parameter location" |
| LambdaAuthorizer.ParameterName | nodejs/awsx/apigateway/lambdaauthorizer.ts:327-336 | the single parameter when there is exactly one, whichever list holds it; "Unused" otherwise |
| LambdaAuthorizer.ParameterNameAgrees | nodejs/awsx/apigateway/lambdaauthorizer.ts:327-336 | the source's choice agrees with `ParameterName` except when the query list is given but empty |
| LambdaAuthorizer.ParameterNameAsWrittenLosesHeader | nodejs/awsx/apigateway/lambdaauthorizer.ts:327-336 | with an empty query list and one header the source returns undefined where the header's name is meant |
| LambdaAuthorizer.Prefixed | nodejs/awsx/apigateway/lambdaauthorizer.ts:353-361 | every name with the prefix, in order |
| LambdaAuthorizer.ParametersToIdentitySources | nodejs/awsx/apigateway/lambdaauthorizer.ts:350-364 | the loops give the header sources, then the query-string sources |
| LambdaAuthorizer.PrefixesDiffer | nodejs/awsx/apigateway/lambdaauthorizer.ts:354 | a header source never reads as a query-string source, nor the other way (also line 360) |
| LambdaAuthorizer.UnprefixedInverts | nodejs/awsx/apigateway/lambdaauthorizer.ts:350-364 | stripping a prefix undoes adding it, and picks up nothing under the other prefix |
| LambdaAuthorizer.IdentitySourcesRoundTrip | nodejs/awsx/apigateway/lambdaauthorizer.ts:350-364 | the identity sources give back the header names and the query names, each list intact |
| LambdaAuthorizer.RequestAuthorizer | nodejs/awsx/apigateway/lambdaauthorizer.ts:292-317 | fails with "were both empty" exactly when there are no parameters; otherwise type "custom", in the header exactly when there are headers, named by `ParameterName` |
| LambdaAuthorizer.RequestAuthorizerAsWritten | nodejs/awsx/apigateway/lambdaauthorizer.ts:292-317 | as written, it fails exactly when `RequestAuthorizer` does and takes the source's parameter name |
| LambdaAuthorizer.RequestAuthorizerAsWrittenLosesHeader | nodejs/awsx/apigateway/lambdaauthorizer.ts:292-336 | with one header and an empty query list the as-written authorizer has no parameter name |
| LambdaAuthorizer.TokenIsSingleHeaderRequest | nodejs/awsx/apigateway/lambdaauthorizer.ts:350-364 | a token authorizer on a header has the identity source of a request authorizer on that header alone (also lines 231-243) |
| LambdaAuthorizer.MakeAuthorizerResponse | nodejs/awsx/apigateway/lambdaauthorizer.ts:168-183 | one statement, policy version "2012-10-17", the principal, context and API key as given |
| LambdaAuthorizer.AuthorizerResponseGrants | nodejs/awsx/apigateway/lambdaauthorizer.ts:168-183 | the response grants invoking exactly the named resource, and only when the effect is Allow |
| AppLoadBalancer.InferPort | awsx-legacy/lb/application.ts:157-163 | HTTP gives 80 and HTTPS 443; any other protocol fails with "Could not automatically determine port for protocol " and the protocol |
| AppLoadBalancer.InferProtocol | awsx-legacy/lb/application.ts:170-176 | ports 80, 8000, 8008 and 8080 give HTTP, 443 and 8443 HTTPS; any other port fails with "Could not automatically determine protocol" |
| AppLoadBalancer.InferRoundTrip | awsx-legacy/lb/application.ts:157-176 | the protocol inferred from a protocol's inferred port is that protocol |
| AppLoadBalancer.ComputePortInfo | awsx-legacy/lb/application.ts:145-180 | neither half fails with "At least one of [port] or [protocol]"; a given half is kept and a missing one is inferred from the other, failing exactly when that inference does |
| AppLoadBalancer.InferredInfoConsistent | awsx-legacy/lb/application.ts:145-180 | an inferred pair is consistent: each half infers the other |
| AppLoadBalancer.NewTargetGroup | awsx-legacy/lb/application.ts:102-124 | a group wrapping an existing one has no port or protocol; otherwise it succeeds exactly when `computePortInfo` does, with its port and protocol |
| AppLoadBalancer.ArgCount | awsx-legacy/lb/application.ts:193-195 | zero exactly when none of the three default arguments is given |
| AppLoadBalancer.DefaultActions | awsx-legacy/lb/application.ts:260-304 | `defaultActions` win, then `defaultAction`, then the given target group, then a new group on the listener's port and protocol, which the listener forwards to |
| AppLoadBalancer.ExternalRules | awsx-legacy/lb/application.ts:237-249 | one ingress and one egress rule per security group, named `${name}-external-${i}-ingress/-egress`, opening the listener's TCP port to any IPv4 address |
| AppLoadBalancer.ListenerSetup | awsx-legacy/lb/application.ts:189-212 | two or more default arguments fail with "Only provide one of"; otherwise the port and protocol of `computePortInfo` and the default actions for them |
| AppLoadBalancer.ListenerCreatesItsGroup | awsx-legacy/lb/application.ts:277-304 | a listener with no default arguments forwards to a group it creates on its own port and protocol |
| AppLoadBalancer.ApplicationLoadBalancer.constructor | awsx-legacy/lb/application.ts:40-61 | a missing security-group list gets one default group named after the balancer; a given list, even empty, is kept; no listeners or groups yet |
| AppLoadBalancer.ApplicationLoadBalancer.CreateTargetGroup | awsx-legacy/lb/application.ts:78-83 | the group is `NewTargetGroup`'s and is appended to the balancer's groups only on success (also line 121) |
| AppLoadBalancer.ApplicationLoadBalancer.CreateListener | awsx-legacy/lb/application.ts:189-252 | succeeds exactly when `ListenerSetup` does; a created default group is registered, then the listener, whose rules are, when it opens them, exactly the ingress and egress rule pairs of `ExternalRules` for the balancer's security groups on its port; a failure changes nothing (also lines 67-72) |
| NetLoadBalancer.NewTargetGroup | nodejs/awsx/lb/network.ts:83-102 | the protocol defaults to TCP; name and port as given |
| NetLoadBalancer.ArgCount | nodejs/awsx/lb/network.ts:136-138 | zero exactly when none of the three default arguments is given |
| NetLoadBalancer.DefaultActions | nodejs/awsx/lb/network.ts:190-233 | `defaultActions` win, then `defaultAction`, then a given group, then a new group from the group's arguments (named by them or the listener) or on the listener's port, which the listener forwards to |
| NetLoadBalancer.NewListener | nodejs/awsx/lb/network.ts:132-168 | fails with "Only provide one of" exactly when two or more default arguments are given; otherwise its default actions and TCP unless told otherwise |
| NetLoadBalancer.Target | nodejs/awsx/lb/network.ts:175-187 | the integration target is `http://${hostname}:${port}/`, an http_proxy over the VPC link |
| NetLoadBalancer.TargetUrisThroughRoute | nodejs/awsx/lb/network.ts:175-187 | an integration route to the listener forwards `p/` to the listener's URI and `p/{proxy+}` to it plus "{proxy}" |
| NetLoadBalancer.NetworkLoadBalancer.constructor | nodejs/awsx/lb/network.ts:31-44 | no listeners or target groups yet |
| NetLoadBalancer.NetworkLoadBalancer.CreateTargetGroup | nodejs/awsx/lb/network.ts:53-58 | the group is `NewTargetGroup`'s and is appended to the balancer's groups (also line 99) |
| NetLoadBalancer.NetworkLoadBalancer.CreateListener | nodejs/awsx/lb/network.ts:132-168 | succeeds exactly when at most one default argument is given; a created group is registered, then the listener; a failure changes nothing (also lines 46-51) |
| InfraElbNetwork.TargetGroupSourceFor | nodejs/aws-infra/experimental/elasticloadbalancingv2/network.ts:146-167 | fails with "One of [targetGroup] or [args.targetGroupArgs] or [args.port]" exactly when all three are missing; a given group wins, then the group arguments, then a group on the port (also lines 100-103) |
| InfraElbNetwork.ListenerPort | nodejs/aws-infra/experimental/elasticloadbalancingv2/network.ts:121 | the listener's own port, else its target group's |
| InfraElbNetwork.PortOnlyListenerMatchesGroup | nodejs/aws-infra/experimental/elasticloadbalancingv2/network.ts:121 | a listener built from a port alone listens on the port its new group connects to (also line 163) |
| InfraElbNetwork.NetworkLoadBalancer.constructor | nodejs/aws-infra/experimental/elasticloadbalancingv2/network.ts:30-45 | no listeners or target groups yet |
| InfraElbNetwork.NetworkLoadBalancer.CreateTargetGroup | nodejs/aws-infra/experimental/elasticloadbalancingv2/network.ts:63-81 | a new TCP group on the balancer, appended to its groups (also lines 52-55) |
| InfraElbNetwork.NetworkLoadBalancer.CreateBalancerListener | nodejs/aws-infra/experimental/elasticloadbalancingv2/network.ts:95-135 | fails exactly when neither group arguments nor a port are given, changing nothing; otherwise a new group and the listener are registered (also lines 47-50) |
| InfraElbNetwork.NetworkTargetGroup.constructor | nodejs/aws-infra/experimental/elasticloadbalancingv2/network.ts:63-81 | always TCP; the group appends itself to its balancer's groups |
| InfraElbNetwork.NetworkTargetGroup.CreateListenerForGroup | nodejs/aws-infra/experimental/elasticloadbalancingv2/network.ts:95-135 | the listener uses this group, so the balancer check passes, and is appended to both the group's and the balancer's listeners (also lines 83-86) |
| InfraElbNetwork.NetworkListener.constructor | nodejs/aws-infra/experimental/elasticloadbalancingv2/network.ts:110-125 | TCP, the port of `ListenerPort`, and the given default action or a forward to its group |
| InfraElbNetwork.CreateListener | nodejs/aws-infra/experimental/elasticloadbalancingv2/network.ts:95-135 | fails when no group can be found or made, or with "was not the same as its [targetGroup]'s load balancer" for a foreign group, changing nothing; otherwise registers the listener with both |
| InfraCluster.InstanceSecurityGroup | nodejs/aws-infra/cluster2.ts:262-293 | the instance group opens SSH (22) and TCP 0-65535 to 0.0.0.0/0 and lets all traffic out, in the network's VPC |
| InfraCluster.NewCluster | nodejs/aws-infra/cluster2.ts:247-300 | fails with "Expected a valid Network" exactly when no network is given; otherwise the caller's instance group wins over a created one |
| InfraCluster.FileSystemSecurityGroup | nodejs/aws-infra/cluster2.ts:307-320 | the `${name}-fs` group admits NFS (TCP 2049) only from the cluster's instance group and has no egress |
| InfraCluster.CreateFileSystem | nodejs/aws-infra/cluster2.ts:302-333 | the caller's group or the `-fs` group, and one mount target per subnet (the caller's, else the network's), the `i`th named `${name}-${i}` on the `i`th subnet |
| InfraCluster.MountTargetNamesDistinct | nodejs/aws-infra/cluster2.ts:325 | two different indexes never give the same mount-target name |
| InfraCluster.MountTargetsDistinct | nodejs/aws-infra/cluster2.ts:323-330 | a file system's mount targets have pairwise distinct names |
| InfraCluster.CloudFormationTemplate | nodejs/aws-infra/cluster2.ts:664-714 | sizes default to 2 and 100 only when undefined; desired capacity, signal count and instances in service all equal the minimum; the other settings are fixed |
| InfraCluster.StringOr | nodejs/aws-infra/cluster2.ts:368 | the fallback operator on strings: a missing or empty string gives the fallback, any other string itself (also line 372) |
| InfraCluster.LaunchConfigurationFor | nodejs/aws-infra/cluster2.ts:354-380 | t2.micro and tenancy "default" unless given non-empty, monitoring unless set, the default disks, and the cluster's instance group unless groups are given |
| InfraCluster.ComputeLoadBalancerInfo | nodejs/aws-infra/cluster2.ts:460-492 | the protocol defaults to tcp; https without a certificate and any unknown protocol fail with their messages; https, http and tcp give their listener and target protocols |
| InfraCluster.LoadBalancerInfoConsistent | nodejs/aws-infra/cluster2.ts:460-492 | an application balancer exactly when the listener is not TCP; the target speaks HTTP behind HTTPS and the listener's protocol otherwise; a certificate exactly for HTTPS |
| InfraCluster.TargetPort | nodejs/aws-infra/cluster2.ts:429 | the target port or else the port: a missing or zero target port gives the port |
| InfraCluster.Internal | nodejs/aws-infra/cluster2.ts:408 | internal exactly when the network uses private subnets and `external` is not true |
| InfraCluster.PortResources | nodejs/aws-infra/cluster2.ts:400-450 | the balancer and group are named by the hash of `${name}-${port}`, the balancer sits in the public subnets with security groups only when it is an application one, the group targets `TargetPort`, and the listener forwards to it |
| InfraCluster.NewClusterLoadBalancer | nodejs/aws-infra/cluster2.ts:396-457 | fails exactly when `computeLoadBalancerInfo` does, with its error; otherwise the port's resources with the cluster's instance group |
| InfraCluster.ClusterLoadBalancerSsl | nodejs/aws-infra/cluster2.ts:441-449 | the listener has the SSL policy exactly for https, then with the caller's certificate and an HTTP target group; security groups exactly on an application balancer |
| InfraEcsLoadBalancer.InfoPortMappings | nodejs/aws-infra/experimental/ecs/loadBalancer.ts:105-111 | one port mapping per target-group info, in order; the host port defaults to the container port |
| InfraEcsLoadBalancer.InfoLoadBalancers | nodejs/aws-infra/experimental/ecs/loadBalancer.ts:113-117 | one load-balancer entry per info, in order, with its group and container port |
| InfraEcsLoadBalancer.InfoViewsAgree | nodejs/aws-infra/experimental/ecs/loadBalancer.ts:102-118 | the `i`th port mapping and the `i`th load-balancer entry name the same container port |
| InfraEcsLoadBalancer.NewPortInfoLoadBalancer | nodejs/aws-infra/experimental/ecs/loadBalancer.ts:131-230 | fails exactly when `computeLoadBalancerInfo` does; otherwise the port's resources with the cluster's groups, and one mapping and one entry on the target port or else the port (also lines 232-264) |
| InfraEcsLoadBalancer.PortInfoTargetsItsGroup | nodejs/aws-infra/experimental/ecs/loadBalancer.ts:172-212 | the advertised container port is the target group's port, and the entry names the group the listener forwards to |
| AwsxAutoScaling.CollapseLine | nodejs/awsx/autoscaling/autoscaling.ts:238-249 | a line with `automaticallyIndent` false is kept verbatim; any other starts with twelve spaces and the contents and ends with a newline, adding at most that one character |
| AwsxAutoScaling.CollapsedAppend | nodejs/awsx/autoscaling/autoscaling.ts:235-253 | rendering a concatenation of line lists is the concatenation of their renderings |
| AwsxAutoScaling.CollapseLines | nodejs/awsx/autoscaling/autoscaling.ts:235-253 | the loop's result is the rendering of the lines in order |
| AwsxAutoScaling.AdditionalLines | nodejs/awsx/autoscaling/autoscaling.ts:255-269 | a missing member gives no lines, a function its lines, and a truthy non-function fails as calling it would |
| AwsxAutoScaling.InstanceUserData | nodejs/awsx/autoscaling/autoscaling.ts:175-233 | a given value that is not a user-data object is used verbatim; otherwise the generated cloud-config with the extra boot and run lines and the stack name, failing only when a member cannot be called |
| AwsxAutoScaling.TextUserDataPassesThrough | nodejs/awsx/autoscaling/autoscaling.ts:675-679 | plain text user data is always used unchanged (also lines 180-182) |
| AwsxAutoScaling.LaunchConfigurationWith | nodejs/awsx/autoscaling/autoscaling.ts:43-70 | stack name the stack name or else the bucket, the caller's profile or a created one, the groups' ids, and each `ifUndefined` default; fails exactly when the user data does |
| AwsxAutoScaling.NewLaunchConfigurationAsWritten | nodejs/awsx/autoscaling/autoscaling.ts:34-72 | a missing `securityGroups` fails with "args.securityGroups must be an array."; a given list builds the configuration |
| AwsxAutoScaling.NewLaunchConfiguration | nodejs/awsx/autoscaling/autoscaling.ts:39-41 | the corrected check: a missing list means no groups, and a given list builds what the code as written builds (also line 56) |
| AwsxAutoScaling.DefaultLaunchConfigurationRefused | nodejs/awsx/autoscaling/autoscaling.ts:39-41 | as written, a group given neither a launch configuration nor its arguments always fails; the corrected constructor builds one with no groups (also lines 295-296) |
| AwsxAutoScaling.SuspendTextIsJoin | nodejs/awsx/autoscaling/autoscaling.ts:337-345 | the suspended-process block is the prefixed process names joined by newlines |
| AwsxAutoScaling.Prefixed | nodejs/awsx/autoscaling/autoscaling.ts:344 | each process name gets the twenty-space list prefix, in order |
| AwsxAutoScaling.SuspendProcessesString | nodejs/awsx/autoscaling/autoscaling.ts:337-345 | the loop's result is the newline-joined prefixed names |
| AwsxAutoScaling.CloudFormationTemplate | nodejs/awsx/autoscaling/autoscaling.ts:320-386 | each parameter falls back only when undefined (2, 100, 300, 120, "EC2", ScheduledActions); desired capacity, signal count and instances in service equal the minimum size |
| AwsxAutoScaling.MatchesClusterTemplate | nodejs/awsx/autoscaling/autoscaling.ts:320-386 | with only the sizes set this template is aws-infra's cluster template |
| AwsxAutoScaling.NewAutoScalingGroup | nodejs/awsx/autoscaling/autoscaling.ts:280-312 | a given launch configuration is kept; otherwise one is built in the VPC (the default one unless given); the stack's template uses the group's name, the configuration and the subnets (the VPC's private ones unless given) |
| AwsxLaunchConfiguration.NewLaunchConfiguration | nodejs/awsx/autoscaling/launchConfiguration.ts:34-67 | stack name `stackName ? stackName : bucket`, the caller's profile or a created one, the caller's image or the AMI lookup, no security-group check, and the `ifUndefined` defaults; fails exactly when the user data does |
| AwsxLaunchConfiguration.UserDataFailsOnlyOnNonFunction | nodejs/awsx/autoscaling/launchConfiguration.ts:164-260 | user data fails exactly for an object with one function member whose other member is truthy but not a function (also lines 433-437) |
| AwsxLaunchConfiguration.DefaultLaunchConfigurationBuilt | nodejs/awsx/autoscaling/launchConfiguration.ts:34-67 | without arguments the configuration is always built, with no groups and generated user data |
| AwsxLaunchConfiguration.UserDataTestIsNarrower | nodejs/awsx/autoscaling/launchConfiguration.ts:433-437 | every user-data object here is one for the auto-scaling module; an object with truthy non-function members is one only there |
| AwsxLaunchConfiguration.AgreesWithAutoScaling | nodejs/awsx/autoscaling/launchConfiguration.ts:34-67 | with security groups given, no image and no non-function members, both constructors build the same configuration |
| EcsTypes.AwsLogs | nodejs/awsx/ecs/container.ts:57-64 | the awslogs driver with exactly three options: the log group, the region and the container's name as stream prefix |
| EcsContainer.CombineArrays | nodejs/awsx/ecs/container.ts:38-40 | a missing list counts as empty, and two missing lists give none |
| EcsContainer.ImageAndEnvironment | nodejs/awsx/ecs/container.ts:34-40 | an image provider supplies the image and its environment after the container's own; any other image is used with the container's environment |
| EcsContainer.Converted | nodejs/awsx/ecs/container.ts:145-169 | one mapping per mapping, in order, with the same container port; a given host port is kept and a missing one becomes the container port |
| EcsContainer.ConvertedIdempotent | nodejs/awsx/ecs/container.ts:145-169 | converting converted mappings changes nothing |
| EcsContainer.ConvertMappings | nodejs/awsx/ecs/container.ts:145-169 | the copying loop yields the converted mappings |
| EcsContainer.EntryMappings | nodejs/awsx/ecs/container.ts:97-101 | one mapping per port-mapping entry, in order, a provider's own mapping for a provider |
| EcsContainer.ResolvedListener | nodejs/awsx/ecs/container.ts:115-134 | a given listener is used as it is; listener arguments make a new listener of that kind named after the task |
| EcsContainer.PortMappings | nodejs/awsx/ecs/container.ts:73-143 | fails with "supplied [applicationListener] and [networkListener]" or "supplied [portMappings] and load balancer info" exactly in those cases; no port information gives none; otherwise the converted mappings of the entries or of the listener |
| EcsContainer.PortMappingsNone | nodejs/awsx/ecs/container.ts:85-88 | no mappings exactly when neither mappings nor a listener is given |
| EcsContainer.Put | nodejs/awsx/ecs/container.ts:104 | a present value is stored under the key and nothing else changes; an absent one changes nothing (also line 107) |
| EcsContainer.RecordEntriesKeepsLast | nodejs/awsx/ecs/container.ts:97-109 | recording the entries leaves, per kind, the last listener of that kind under the task name, the records untouched where there is none |
| EcsContainer.ContainerDefinitionFor | nodejs/awsx/ecs/container.ts:24-71 | fails exactly when the port mappings do; otherwise the container's name, the image and environment `ImageAndEnvironment` resolves (a provider's image, its environment after the container's own), its mappings, the awslogs configuration whenever there is a log group and the container's own log configuration otherwise |
| EcsContainer.ListenerRecords.constructor | nodejs/awsx/ecs/container.ts:30-31 | both listener records start empty |
| EcsContainer.ListenerRecords.GetPortMappings | nodejs/awsx/ecs/container.ts:73-143 | returns `PortMappings` and leaves the records as `RecordsAfter` says |
| EcsContainer.ListenerRecords.ComputeContainerDefinition | nodejs/awsx/ecs/container.ts:24-71 | returns `ContainerDefinitionFor` and records the listeners as `GetPortMappings` does |
| EcsContainer.ListenerContainerRecorded | nodejs/awsx/ecs/container.ts:111-134 | a container with a listener records exactly that listener, under the task name, in its kind's record only |
| EcsContainer.MappingEntriesRecorded | nodejs/awsx/ecs/container.ts:96-110 | mapping entries record the last listener of each kind and give one mapping per entry |
| LegacyEcsContainer.LegacyPortMappings | sdk/nodejs/legacy/ecs/container.ts:73-160 | the awsx rules with "supplied [portMappings] and a listener" as the second message, plus the "[vpc] must be supplied" error for a listener to be created without a VPC |
| LegacyEcsContainer.LegacyPortMappingsNone | sdk/nodejs/legacy/ecs/container.ts:86-89 | no mappings exactly when neither mappings nor a listener is given |
| LegacyEcsContainer.AgreesWithAwsxOnSuccess | sdk/nodejs/legacy/ecs/container.ts:95-122 | whenever the legacy layer accepts a container it yields awsx's mappings |
| LegacyEcsContainer.PossibleListener | sdk/nodejs/legacy/ecs/container.ts:97-113 | the last mapping entry, else the listener the container gives or makes |
| LegacyEcsContainer.LegacyGetPortMappings | sdk/nodejs/legacy/ecs/container.ts:73-122 | returns `LegacyPortMappings` and records only `possibleListener`, under the container's name and by its own kind |
| LegacyEcsContainer.LegacyComputeContainerDefinition | sdk/nodejs/legacy/ecs/container.ts:24-71 | fails exactly when the mappings do, with their error; the awslogs configuration is added only when there is a log group and the container has none of its own |
| LegacyEcsContainer.OnlyLastEntryRecorded | sdk/nodejs/legacy/ecs/container.ts:97-120 | a listener entry followed by a plain mapping is recorded by awsx but not here |
| LegacyEcsContainer.RecordedByOwnKind | sdk/nodejs/legacy/ecs/container.ts:115-120 | a given network listener passed as `applicationListener` is recorded as a network listener here and as an application one by awsx |
| InfraContainerDefinition.PortMappingsFor | nodejs/aws-infra/experimental/containerDefinition.ts:152-171 | no load-balancer port gives no mappings; otherwise one mapping with the target port or else the port as both container and host port |
| InfraContainerDefinition.ServiceEnvName | nodejs/aws-infra/experimental/containerDefinition.ts:232-234 | same length; each "-" becomes "_" and every other character is upper-cased |
| InfraContainerDefinition.ServiceEnvNameNormal | nodejs/aws-infra/experimental/containerDefinition.ts:232-234 | the name has no "-" and no lower-case letter, and naming it again changes nothing |
| InfraContainerDefinition.Assign | nodejs/aws-infra/experimental/containerDefinition.ts:206-214 | `env[name] = value`: the name then has the value, every other name keeps its own, a new name goes last and an existing one keeps its place |
| InfraContainerDefinition.DiscoveryNames | nodejs/aws-infra/experimental/containerDefinition.ts:206-214 | the seven variable names, each the service's environment name followed by its suffix |
| InfraContainerDefinition.DiscoverySuffixesDistinct | nodejs/aws-infra/experimental/containerDefinition.ts:206-214 | the seven suffixes are pairwise different |
| InfraContainerDefinition.DiscoveryNamesDistinct | nodejs/aws-infra/experimental/containerDefinition.ts:206-214 | the seven names are pairwise different, so no assignment overwrites another |
| InfraContainerDefinition.AddServiceDiscovery | nodejs/aws-infra/experimental/containerDefinition.ts:184-215 | each of the seven variables gets its value (host, port, `proto://host:port`, protocol defaulting to tcp) and every other variable keeps its value |
| InfraContainerDefinition.ArgsSignatureAppend | nodejs/aws-infra/experimental/containerDefinition.ts:334-338 | signing more build arguments appends their signature |
| InfraContainerDefinition.BuildSignatureOfContext | nodejs/aws-infra/experimental/containerDefinition.ts:326-331 | a build given by its context alone signs as that context, and an empty one as "." |
| InfraContainerDefinition.BuildSignatureStartsWithContext | nodejs/aws-infra/experimental/containerDefinition.ts:330-338 | the signature starts with the context (or ".") and each further argument appends `;arg[k]=v` |
| InfraContainerDefinition.ComputeBuildSignature | nodejs/aws-infra/experimental/containerDefinition.ts:325-339 | the signing loop yields `BuildSignature` |
| InfraContainerDefinition.BuildImageName | nodejs/aws-infra/experimental/containerDefinition.ts:323-342 | the name starts with the hashed signature and ends with `-container-` and the service name |
| InfraContainerDefinition.NewRepository | nodejs/aws-infra/experimental/containerDefinition.ts:351-373 | a repository named by the lower-cased image name whose lifecycle policy keeps one untagged image |
| InfraContainerDefinition.ImageSourceOf | nodejs/aws-infra/experimental/containerDefinition.ts:217-228 | a build wins, then a non-empty image, then a function; with none of them it fails with "`image`, `build`, or `function` must be provided" |
| InfraContainerDefinition.ImageCaches.constructor | nodejs/aws-infra/experimental/containerDefinition.ts:345 | all caches start empty |
| InfraContainerDefinition.ImageCaches.GetOrCreateRepository | nodejs/aws-infra/experimental/containerDefinition.ts:348-377 | a cached repository is returned unchanged; otherwise a new one is created, cached and recorded; the build caches are untouched |
| InfraContainerDefinition.ImageCaches.BuiltImage | nodejs/aws-infra/experimental/containerDefinition.ts:275-321 | a cached image name is returned without building; otherwise it is built once, cached and recorded; the repositories are untouched |
| InfraContainerDefinition.ImageCaches.ComputeImage | nodejs/aws-infra/experimental/containerDefinition.ts:173-229 | fails exactly when there is no image source and then changes nothing; otherwise the image of the first source and the container's environment plus service discovery (also lines 254-273) |
| InfraContainerDefinition.ContainerEnvironment | nodejs/aws-infra/experimental/containerDefinition.ts:179-214 | the environment `computeImage` passes on: the container's own entries, the seven service-discovery variables when a port is exposed, and the function's source under PULUMI_SRC |
| InfraContainerDefinition.ImageCaches.BuildAndCache | nodejs/aws-infra/experimental/containerDefinition.ts:254-270 | the image name's repository is reused or created, and its image is the cached one or a new build; each cache grows only at the image name |
| InfraContainerDefinition.ImageCaches.ComputeContainerDefinition | nodejs/aws-infra/experimental/containerDefinition.ts:108-150 | fails exactly when the image does; otherwise the container's name, the load-balancer port's mapping, and the container's log configuration or else awslogs into the task's log group |
| InfraContainerDefinition.BuildTwiceBuildsOnce | nodejs/aws-infra/experimental/containerDefinition.ts:284-314 | asking twice for one image name builds it once and gives the same image both times |
| EcsxFargateTaskDefinition.ContainersOf | nodejs/awsx/ecsx/fargateTaskDefinition.ts:119-129 | fails with "Exactly one of [container] or [containers]" exactly when both or neither are given; otherwise `containers` as given or `{container: container}` |
| EcsxFargateTaskDefinition.ResolveMapping | nodejs/awsx/ecsx/fargateTaskDefinition.ts:266-283 | the host port is the target group's port when known, else the mapping's; the container port is the mapping's, else the host port; the protocol is kept |
| EcsxFargateTaskDefinition.ResolveMappingStable | nodejs/awsx/ecsx/fargateTaskDefinition.ts:272-278 | resolving a resolved mapping again changes nothing |
| EcsxFargateTaskDefinition.ContainerDefinitionFor | nodejs/awsx/ecsx/fargateTaskDefinition.ts:260-308 | the container under its name with each mapping resolved; its own log configuration wins, else awslogs into the log group when there is one, else none |
| EcsxFargateTaskDefinition.ComputeContainerDefinitions | nodejs/awsx/ecsx/fargateTaskDefinition.ts:237-258 | one definition per container, in the record's order |
| EcsxFargateTaskDefinition.ChosenLoadBalancers | nodejs/awsx/ecsx/fargateTaskDefinition.ts:341-358 | `choose` keeps only mappings whose target group has both an ARN and a port, so never more than there are mappings |
| EcsxFargateTaskDefinition.ChosenMember | nodejs/awsx/ecsx/fargateTaskDefinition.ts:341-358 | a load balancer is chosen exactly when some mapping yields it |
| EcsxFargateTaskDefinition.LoadBalancersMember | nodejs/awsx/ecsx/fargateTaskDefinition.ts:310-362 | a load balancer is computed exactly when some container's mapping has a target group with an ARN and a port, naming that container, port and ARN |
| EcsxFargateTaskDefinition.LoadBalancerFromMapping | nodejs/awsx/ecsx/fargateTaskDefinition.ts:310-362 | every computed load balancer comes from some container's mapping with a known ARN and port |
| EcsxFargateTaskDefinition.FargateTaskDefinitionArgs.constructor | nodejs/awsx/ecsx/fargateTaskDefinition.ts:28-88 | the caller's `cpu`, `memory` and `family` as given |
| EcsxFargateTaskDefinition.DefaultFamily | nodejs/awsx/ecsx/fargateTaskDefinition.ts:218-223 | the default family is the name, "-", then the hash of the stack and the definitions' JSON |
| EcsxFargateTaskDefinition.BuildTaskDefinitionArgs | nodejs/awsx/ecsx/fargateTaskDefinition.ts:189-235 | a missing `cpu` or `memory` is computed and written back into the caller's arguments; Fargate, awsvpc, the role ARNs, and the family or its default |
| EcsxFargateTaskDefinition.NewFargateTaskDefinition | nodejs/awsx/ecsx/fargateTaskDefinition.ts:111-179 | fails exactly when `ContainersOf` does, changing nothing; otherwise the definitions per container, the computed load balancers, the caller's `cpu` and `memory` or the computed ones (also written back into the caller's arguments), Fargate and awsvpc, the role ARNs, the container JSON, and the caller's family or the hashed default |
| AwsxEcsTaskDefinition.Choose | nodejs/awsx/ecs/taskDefinition.ts:57-68 | `arg === null ? undefined : arg ? arg : created`: null gives none, a given value itself, undefined the created one |
| AwsxEcsTaskDefinition.LogGroupFor | nodejs/awsx/ecs/taskDefinition.ts:57-60 | null gives no log group, a given one is kept, and otherwise a new one keeps logs for one day |
| AwsxEcsTaskDefinition.TaskRoleFor | nodejs/awsx/ecs/taskDefinition.ts:99-110 | null gives no task role, a given one is kept, and otherwise `${name}-task` with the Lambda and ECS full-access policies (also lines 62-64, 148-155) |
| AwsxEcsTaskDefinition.ExecutionRoleFor | nodejs/awsx/ecs/taskDefinition.ts:119-130 | corrected: the execution role follows its own argument, null giving none, a given one kept, otherwise `${name}-execution` (also lines 66-68, 158-160) |
| AwsxEcsTaskDefinition.ExecutionRoleFollowsTaskRole | nodejs/awsx/ecs/taskDefinition.ts:66-68 | as written, a null task role drops a given execution role and a null execution role still creates one; the corrected rule does neither |
| AwsxEcsTaskDefinition.ExecutionRoleAgreesUnlessNull | nodejs/awsx/ecs/taskDefinition.ts:66-68 | with a non-null task role and a non-null execution role, the code as written and the corrected rule agree |
| AwsxEcsTaskDefinition.DefaultFamilyIgnoresContainers | nodejs/awsx/ecs/taskDefinition.ts:77-78 | as written, the hash covers the text of the Output rather than the JSON, so every set of definitions gets the same default family |
| AwsxEcsTaskDefinition.DefaultFamilyDistinguishes | nodejs/awsx/ecs/taskDefinition.ts:77-78 | with the JSON hashed, different definitions give different families for a collision-free hash |
| AwsxEcsTaskDefinition.AllDefinitionsOk | nodejs/awsx/ecs/taskDefinition.ts:249-269 | the definitions exist exactly when every container's port information is accepted |
| AwsxEcsTaskDefinition.AllDefinitionsInOrder | nodejs/awsx/ecs/taskDefinition.ts:249-269 | accepted definitions come one per container, in the containers' order |
| AwsxEcsTaskDefinition.FirstRefusalStops | nodejs/awsx/ecs/taskDefinition.ts:260-266 | once a prefix of the containers is refused, the whole list is refused with the same error |
| AwsxEcsTaskDefinition.ComputeContainerDefinitions | nodejs/awsx/ecs/taskDefinition.ts:249-269 | the loop yields `AllDefinitions`, and on success the listener records hold every container's listeners |
| AwsxEcsTaskDefinition.AllListeners | nodejs/awsx/ecs/taskDefinition.ts:75 | every listener of either kind under its name, a network listener winning a shared name |
| AwsxEcsTaskDefinition.NewTaskDefinition | nodejs/awsx/ecs/taskDefinition.ts:52-90 | succeeds exactly when every container is accepted; the log group, roles, definitions, listeners and family as their rules say; a role ARN exactly when there is that role |
| AwsxEcsTaskDefinition.RunRequest | nodejs/awsx/ecs/taskDefinition.ts:221-247 | FARGATE or EC2; without the caller's network, a public IP exactly for Fargate in the cluster's groups and public subnets; the cluster replaced by its ARN |
| ClassicEcsTaskDefinition.TaskRoleFor | sdk/nodejs/classic/ecs/taskDefinition.ts:148-155 | null gives no task role, a given one is kept, otherwise `${name}-task` with the newer Lambda and ECS full-access policies (also lines 63-65) |
| ClassicEcsTaskDefinition.ExecutionRoleFor | sdk/nodejs/classic/ecs/taskDefinition.ts:158-162 | the execution role follows its own argument: null gives none, a given one is kept, otherwise `${name}-execution` with the execution and Lambda basic-execution policies (also lines 67-69) |
| ClassicEcsTaskDefinition.ExecutionRoleDiffersFromAwsx | sdk/nodejs/classic/ecs/taskDefinition.ts:67-69 | where awsx drops a given execution role for a null task role, this layer keeps it; with a non-null task role both agree |
| ClassicEcsTaskDefinition.DefinitionsInOrder | sdk/nodejs/classic/ecs/taskDefinition.ts:256-276 | one definition per container, in order, exactly when every container is accepted |
| ClassicEcsTaskDefinition.FirstRefusalStops | sdk/nodejs/classic/ecs/taskDefinition.ts:267-273 | once a prefix is refused, the whole list is refused with the same error |
| ClassicEcsTaskDefinition.ComputeContainerDefinitions | sdk/nodejs/classic/ecs/taskDefinition.ts:256-276 | the loop yields `DefinitionsOf` |
| ClassicEcsTaskDefinition.NewTaskDefinition | sdk/nodejs/classic/ecs/taskDefinition.ts:53-90 | succeeds exactly when every container is accepted; each of the log group and roles follows its own argument; the family defaults as in awsx as written; a role ARN exactly when that argument is not null |
| ClassicEcsTaskDefinition.GroupIds | sdk/nodejs/classic/ecs/taskDefinition.ts:232 | the ids of the cluster's security groups, one per group, in order |
| ClassicEcsTaskDefinition.RunRequest | sdk/nodejs/classic/ecs/taskDefinition.ts:224-253 | FARGATE or EC2; without the caller's network, a public IP exactly for Fargate, in the ids of the cluster's groups and its VPC's public subnets; the cluster replaced by its ARN |
| ClassicEcsTaskDefinition.RunMatchesAwsx | sdk/nodejs/classic/ecs/taskDefinition.ts:224-253 | the classic `run` sends what awsx's `run` sends for a cluster with the same ARN, group ids and public subnets |
| EcsService.ExplicitLoadBalancers | nodejs/awsx/ecs/service.ts:81-88 | one load balancer per caller entry, in order, a provider's answer for a provider |
| EcsService.AssignNames | nodejs/awsx/ecs/service.ts:101 | setting a name in the provider map keeps its names, adding a new one last (also line 110) |
| EcsService.AssignKeepsDistinct | nodejs/awsx/ecs/service.ts:101 | a map without repeated names keeps none repeated after a set (also line 110) |
| EcsService.LastProvider | nodejs/awsx/ecs/service.ts:99-103 | a container has a provider exactly when one of its port mappings is one |
| EcsService.AddProvidersLookup | nodejs/awsx/ecs/service.ts:99-103 | the container's last provider wins, and other containers keep theirs |
| EcsService.ContainerProvidersLookup | nodejs/awsx/ecs/service.ts:93-104 | each container maps to its last port-mapping provider, a name that is no container maps to nothing, and no container appears twice |
| EcsService.ListenerFor | nodejs/awsx/ecs/service.ts:108-112 | a container's registered listener, found exactly when one is registered under its name |
| EcsService.WithListenersLookup | nodejs/awsx/ecs/service.ts:108-112 | a listener never replaces a provider; it only fills in a container that has none |
| EcsService.ProviderLoadBalancers | nodejs/awsx/ecs/service.ts:114-126 | one load balancer per provider entry, the provider's answer labelled with its container |
| EcsService.LoadBalancersShape | nodejs/awsx/ecs/service.ts:77-127 | the caller's load balancers come first in order; after them no container has two, and a container's comes from its last provider, else from its listener |
| EcsService.CollectContainerProviders | nodejs/awsx/ecs/service.ts:93-104 | the loop over the containers' mappings fills the provider map as `ContainerProviders` says |
| EcsService.GetLoadBalancers | nodejs/awsx/ecs/service.ts:77-127 | the procedure yields `LoadBalancers` |
| EcsService.ResolveExplicit | nodejs/awsx/ecs/service.ts:80-88 | the loop over the caller's load balancers yields `ExplicitLoadBalancers`: one per entry, in order, a provider asked for its own |
| EcsService.AddListenerProviders | nodejs/awsx/ecs/service.ts:107-112 | the loop over the listeners yields `WithListeners`: a container gets its listener only when it has no provider yet |
| EcsService.MakeProviderLoadBalancers | nodejs/awsx/ecs/service.ts:114-126 | the loop over the provider map yields `ProviderLoadBalancers`: one load balancer per entry, labelled with its container |
| EcsService.Service.constructor | nodejs/awsx/ecs/service.ts:22-45 | no cluster, listeners or service yet |
| EcsService.Service.Initialize | nodejs/awsx/ecs/service.ts:48-74 | the caller's cluster or the default one, the task definition's listeners, and a service with those load balancers, desired count 1, launch type EC2 and steady-state waiting unless given, depending on the cluster's auto-scaling stacks |
| EcsService.NewService | nodejs/awsx/ecs/service.ts:37-45 | construction fails with "Do not construct a Service directly" exactly when the version is not a number |
| LegacyEcsService.PairsOf | sdk/nodejs/legacy/ecs/service.ts:92-96 | a container's pairs are exactly its port-mapping providers, each with the container's name |
| LegacyEcsService.ContainerPairsMember | sdk/nodejs/legacy/ecs/service.ts:86-97 | every provider of every container is kept as its own pair, and nothing else is |
| LegacyEcsService.WithListenerPairsShape | sdk/nodejs/legacy/ecs/service.ts:101-106 | the pairs so far stay in front, exactly the listener pairs are added, and no pair is added twice |
| LegacyEcsService.PairLoadBalancers | sdk/nodejs/legacy/ecs/service.ts:108-120 | one load balancer per pair, the provider's answer labelled with its container |
| LegacyEcsService.GetLoadBalancers | sdk/nodejs/legacy/ecs/service.ts:70-121 | the procedure yields `LoadBalancers` |
| LegacyEcsService.AddListenerPairs | sdk/nodejs/legacy/ecs/service.ts:101-106 | the loop over the listeners yields `WithListenerPairs`: a (container, listener) pair is pushed unless that same pair is already there |
| LegacyEcsService.MakePairLoadBalancers | sdk/nodejs/legacy/ecs/service.ts:108-120 | the loop over the pairs yields `PairLoadBalancers`: one load balancer per pair, in order |
| LegacyEcsService.CollectContainerPairs | sdk/nodejs/legacy/ecs/service.ts:86-97 | the loop pushes the pairs `ContainerPairs` lists |
| LegacyEcsService.Service.constructor | sdk/nodejs/legacy/ecs/service.ts:39-67 | the caller's cluster or the default one, the task definition's listeners, and a service with those load balancers, desired count 1 and steady-state waiting unless given, depending on the cluster's auto-scaling stacks |
| InfraClusterService.ContainerPort | nodejs/aws-infra/clusterMod/clusterService.ts:124 | the target port or else the port: a missing or zero target port gives the port |
| InfraClusterService.CreateLoadBalancers | nodejs/aws-infra/clusterMod/clusterService.ts:114-129 | no load balancer gives none; otherwise one entry for the single load-balanced container on `ContainerPort`, sending to the balancer's target group |
| InfraClusterService.ResourceOptions.constructor | nodejs/aws-infra/clusterMod/clusterService.ts:78-81 | the options keep the caller's dependency |
| InfraClusterService.ResourceOptions.DependsOnList | nodejs/aws-infra/clusterMod/clusterService.ts:99-101 | no dependency gives an empty list, a single one a one-element list, and a list itself |
| InfraClusterService.ResourceOptions.AddDependency | nodejs/aws-infra/clusterMod/clusterService.ts:98-105 | the auto-scaling group is appended to the dependencies, which become a list |
| InfraClusterService.NewClusterService | nodejs/aws-infra/clusterMod/clusterService.ts:78-111 | at most one load balancer, none exactly without a load-balanced container; desired count 1 only when undefined; EC2 when the launch type is missing or empty; waiting unless told otherwise; the auto-scaling group appended to the dependencies when given |
| AwsxEc2Service.Ec2TaskDefinitionFor | nodejs/awsx/ecs/ec2Service.ts:22-43 | fails with "Either [container] or [containers] must be provided" exactly when neither is given; EC2-only, awsvpc unless another network mode is given |
| AwsxEc2Service.Ec2NetworkConfiguration | nodejs/awsx/ecs/ec2Service.ts:89-102 | a network configuration exactly under awsvpc, never with a public IP |
| AwsxEc2Service.ServiceFor | nodejs/awsx/ecs/ec2Service.ts:68-106 | fails without a task definition or its arguments; otherwise the cluster's groups and the VPC's public subnets unless given, launch type EC2, and `Ec2NetworkConfiguration` for the task's network mode |
| AwsxEc2Service.DefaultNetworkIsAwsvpc | nodejs/awsx/ecs/ec2Service.ts:89-102 | a service built from task arguments without a network mode has a network configuration without a public IP (also line 36) |
| AwsxEc2Service.CreateService | nodejs/awsx/ecs/ec2Service.ts:49-62 | fails when the caller passes a task definition or its arguments; otherwise the service runs this task definition |
| ClassicCapacityProviderService.NewCapacityProviderService | sdk/nodejs/classic/ecs/capacityProviderService.ts:28-80 | fails with "The [taskDefinition] must be provided" exactly without one; a Fargate task gets a public IP unless told otherwise and `getSubnets`' subnets; an EC2 task gets a configuration only under awsvpc, on the public subnets unless given |
| ClassicCapacityProviderService.NetworkMatchesServices | sdk/nodejs/classic/ecs/capacityProviderService.ts:46-70 | the network a task gets here is the one the Fargate or EC2 service computes for the same arguments |
| InfraEcsTaskDefinition.LogGroupFor | nodejs/aws-infra/experimental/ecs/taskDefinition.ts:66-68 | the caller's log group, or a new one keeping logs for one day |
| InfraEcsTaskDefinition.ContainerToEnvironment | nodejs/aws-infra/experimental/ecs/taskDefinition.ts:106-114 | one entry per container name, holding its environment or an empty list |
| InfraEcsTaskDefinition.PlacementConstraints | nodejs/aws-infra/experimental/ecs/taskDefinition.ts:262-273 | none exactly for Fargate; otherwise one memberOf constraint on the host OS, `linux` when missing or empty |
| InfraEcsTaskDefinition.RunContainerName | nodejs/aws-infra/experimental/ecs/taskDefinition.ts:219-222 | the given non-empty name, else the first container's name if non-empty; never an empty name |
| InfraEcsTaskDefinition.RunRequest | nodejs/aws-infra/experimental/ecs/taskDefinition.ts:209-254 | fails with "No valid container name found" exactly when there is no name; otherwise the container's environment then the caller's, sent to "container", a public IP exactly for Fargate without private subnets, and the placement constraints |
| InfraEcsTaskDefinition.StartOutcome | nodejs/aws-infra/experimental/ecs/taskDefinition.ts:255-258 | the task fails with "Failed to start task:" and the failures' JSON exactly when ECS reports a non-empty failure list |
| InfraEcsTaskDefinition.NewTaskDefinition | nodejs/aws-infra/experimental/ecs/taskDefinition.ts:60-131 | the caller's log group and roles or new ones, the family as written (the same for all definitions), and both role ARNs always set |
| InfraClusterTaskDefinition.ContainersFor | nodejs/aws-infra/clusterMod/clusterTaskDefinition.ts:171-175 | fails with "Either [container] or [containers] must be provided" exactly when neither is given; `containers` wins over `{container}` |
| InfraClusterTaskDefinition.PortHolders | nodejs/aws-infra/clusterMod/clusterTaskDefinition.ts:353-363 | the containers that ask for a load-balancer port, in order, drawn from the containers |
| InfraClusterTaskDefinition.PortHoldersComplete | nodejs/aws-infra/clusterMod/clusterTaskDefinition.ts:353-363 | every container with a load-balancer port is among the holders |
| InfraClusterTaskDefinition.SingleContainerWithLoadBalancerPort | nodejs/aws-infra/clusterMod/clusterTaskDefinition.ts:349-366 | fails with "Only a single container can specify a [loadBalancerPort]" exactly when two or more do; none when none does; otherwise the one that does |
| InfraClusterTaskDefinition.TruthyEntries | nodejs/aws-infra/clusterMod/clusterTaskDefinition.ts:325-330 | the entries with a non-empty value, in order |
| InfraClusterTaskDefinition.TruthyEntriesMember | nodejs/aws-infra/clusterMod/clusterTaskDefinition.ts:325-330 | an entry is passed on exactly when it is in the environment with a non-empty value |
| InfraClusterTaskDefinition.AddEnvironmentVariables | nodejs/aws-infra/clusterMod/clusterTaskDefinition.ts:323-332 | the loop appends exactly the non-empty entries of a given environment |
| InfraClusterTaskDefinition.RunContainerName | nodejs/aws-infra/clusterMod/clusterTaskDefinition.ts:278-281 | the given non-empty name, else the first container's name if non-empty |
| InfraClusterTaskDefinition.Find | nodejs/aws-infra/clusterMod/clusterTaskDefinition.ts:283 | the container of that name, found exactly when there is one |
| InfraClusterTaskDefinition.ChosenContainer | nodejs/aws-infra/clusterMod/clusterTaskDefinition.ts:278-283 | the named or first container, present only when that name is a container |
| InfraClusterTaskDefinition.Run | nodejs/aws-infra/clusterMod/clusterTaskDefinition.ts:274-321 | fails without a usable container; otherwise the container's non-empty entries then the caller's, sent to "container", in the cluster's instance group, a public IP exactly for Fargate without private subnets |
| InfraClusterTaskDefinition.RunEnvironmentTruthy | nodejs/aws-infra/clusterMod/clusterTaskDefinition.ts:323-332 | no passed entry has an empty value, and every non-empty entry of the caller's is passed (also lines 286-288) |
| InfraClusterTaskDefinition.ComputeContainerDefinitions | nodejs/aws-infra/clusterMod/clusterTaskDefinition.ts:368-381 | throws the TypeError of `Object.keys` when only `container` was given and the ReferenceError of the undeclared `computeContainerDefinition` at the first container; succeeds, with no definitions, exactly for an empty `containers` map |
| InfraClusterTaskDefinition.NewClusterTaskDefinition | nodejs/aws-infra/clusterMod/clusterTaskDefinition.ts:168-262 | fails with the no-containers error, then with the several-ports error, then with the container-definitions error, in that order; succeeds exactly for an empty `containers` map, with no load-balanced container, the caller's log group and roles or new ones, and the family set to the name |
| InfraClusterTaskDefinition.NewFargateTaskDefinition | nodejs/aws-infra/clusterMod/clusterTaskDefinition.ts:468-482 | the Fargate subclass always fails with "Set memory and cpu" |
| InfraClusterTaskDefinition.NewEc2TaskDefinition | nodejs/aws-infra/clusterMod/clusterTaskDefinition.ts:484-499 | the EC2 subclass always fails with "Should we set the networking mode?" |
| SecurityGroupRules.CreateArgs | nodejs/awsx/ec2/securityGroupRule.ts:142-152 | the location's fields and the protocol and start port as given, the end port defaulting to the start port, the description, and nothing else set |
| SecurityGroupRules.SinglePortRange | nodejs/awsx/ec2/securityGroupRule.ts:67-71 | a range given without an end port admits its start port and no other (also line 149) |
| SecurityGroupRules.AllPortsRange | nodejs/awsx/ec2/securityGroupRule.ts:74-93 | the all-TCP and all-UDP ranges admit exactly ports 0 to 65535, under their own protocol |
| SecurityGroupRules.AllTrafficAnywhere | nodejs/awsx/ec2/securityGroupRule.ts:57-65 | all traffic is protocol "-1" on ports 0 to 0; the IPv4 location is 0.0.0.0/0 and the IPv6 one is ::/0 with no IPv4 blocks (also lines 102-106) |
| SecurityGroupRules.ResolvedArgs | nodejs/awsx/ec2/securityGroupRule.ts:303-306 | inputs with a location and ports go through `createArgs`; any other input is taken unchanged (also lines 186-188, 204-206) |
| SecurityGroupRules.SecurityGroupRule.Egress | nodejs/awsx/ec2/securityGroupRule.ts:181-197 | an egress rule on the group's id with the resolved arguments, appended to the group's egress rules, the ingress rules unchanged (also lines 113-126) |
| SecurityGroupRules.SecurityGroupRule.Ingress | nodejs/awsx/ec2/securityGroupRule.ts:199-215 | an ingress rule on the group's id with the resolved arguments, appended to the group's ingress rules, the egress rules unchanged (also lines 113-126) |
| SecurityGroupRules.SimpleMatchesDirect | nodejs/awsx/ec2/securityGroupRule.ts:128-140 | a rule made from a location and ports gets the same arguments as one made from `egressArgs` or `ingressArgs` of them (also lines 186-188, 204-206) |
| SecurityGroupRules.Egress | nodejs/awsx/ec2/securityGroupRule.ts:154-165 | `SecurityGroupRule.egress` appends one egress rule built from `egressArgs` and leaves the ingress rules alone |
| SecurityGroupRules.Ingress | nodejs/awsx/ec2/securityGroupRule.ts:167-178 | `SecurityGroupRule.ingress` appends one ingress rule built from `ingressArgs` and leaves the egress rules alone |
| CloudwatchWidgets.CheckSize | awsx-classic/cloudwatch/widgets_simple.ts:48-59 | passes exactly when a given width is within 1..24 and a given height within 1..1000; the width error is reported first |
| CloudwatchWidgets.FlattenArray | awsx-classic/cloudwatch/widgets_simple.ts:212-214 | an array stays as it is, a single value becomes a one-element array, and a missing value becomes the empty array |
| CloudwatchWidgets.Width | awsx-classic/cloudwatch/widgets_simple.ts:61-63 | the given width, else 6 |
| CloudwatchWidgets.Height | awsx-classic/cloudwatch/widgets_simple.ts:65-67 | the given height, else 2 for alarm and log widgets and 6 for text and metric widgets (also lines 134-136, 393-395) |
| CloudwatchWidgets.CheckedSizeInRange | awsx-classic/cloudwatch/widgets_simple.ts:48-67 | a widget that passed the checks has a width in 1..24 and a height in 1..1000 |
| CloudwatchWidgets.NewSimpleWidget | awsx-classic/cloudwatch/widgets_simple.ts:48-59 | an alarm, text or log widget is made exactly when the size passes, and then its size is in range; otherwise the check's error (also lines 128-132, 387-391) |
| CloudwatchWidgets.TextWidgetOf | awsx-classic/cloudwatch/widgets_simple.ts:194-201 | a text widget from markdown alone is a valid 6 by 6 widget of type "text" |
| CloudwatchWidgets.NewMetricWidget | awsx-classic/cloudwatch/widgets_simple.ts:291-309 | fails on a bad size, or with "[args.metrics] must be provided..." exactly when there are no annotations, no metrics and no alarm; otherwise the flattened metrics, and the flattened annotations followed by an alarm annotation when an alarm is given |
| CloudwatchWidgets.StatisticString | awsx-classic/cloudwatch/widgets_simple.ts:415-423 | fails exactly when both a statistic and an extended statistic are given; otherwise "p" followed by the extended statistic, else the statistic (also lines 318-325) |
| CloudwatchWidgets.JsonOf | awsx-classic/cloudwatch/widgets_simple.ts:328-342 | one JSON entry per annotation or metric, in order |
| CloudwatchWidgets.WriteAll | awsx-classic/cloudwatch/widgets_simple.ts:331-333 | the loop writes the same entries as `JsonOf` (also lines 339-341) |
| CloudwatchWidgets.ComputeMetricProperties | awsx-classic/cloudwatch/widgets_simple.ts:317-363 | fails exactly on both statistics or a period that is not a multiple of 60 (300 by default), naming the period; otherwise the statistic, the annotations and metrics present exactly when non-empty and written in order, the title, and the widget's or else the stack's region |
| CloudwatchWidgets.WidgetJsons.AddWidgetJson | awsx-classic/cloudwatch/widgets_simple.ts:75-86 | a simple widget appends exactly one entry, at the offsets, with its width, height and type |
| CloudwatchWidgets.NewSpaceWidget | awsx-classic/cloudwatch/widgets_simple.ts:160-171 | a space widget from a width and a height keeps both; one from widget arguments defaults each to 6 |
| CloudwatchWidgets.AddSpaceWidgetJson | awsx-classic/cloudwatch/widgets_simple.ts:176-178 | a space widget adds no entry |
| MetricChanges.Spread | nodejs/awsx/rds/metrics.ts:198 | in `{ ...defaults, ...change }` each of period, statistic and unit that the change gives wins, and the others keep the default |
| MetricChanges.SpreadLaws | nodejs/awsx/rds/metrics.ts:198 | spreading has the empty change as its unit on both sides, is associative and idempotent, and repeating the change changes nothing (also line 278) |
| RdsMetrics.DimensionKeysDistinct | nodejs/awsx/rds/metrics.ts:163-182 | distinct filters set distinct dimension keys |
| RdsMetrics.DimensionListed | nodejs/awsx/rds/metrics.ts:147-162 | every filter is one of the six documented dimensions |
| RdsMetrics.Dimensions | nodejs/awsx/rds/metrics.ts:163-182 | a dimension key is present exactly when the change gives its filter, and it holds that filter's value |
| RdsMetrics.Metric | nodejs/awsx/rds/metrics.ts:163-189 | an "AWS/RDS" metric of the given name, carrying the change's fields and exactly its dimensions; no change counts as the empty one |
| RdsMetrics.DefaultsFor | nodejs/awsx/rds/metrics.ts:197-857 | each helper's default unit, no default statistic, and a period of 60 only for failed SQL Server Agent jobs |
| RdsMetrics.WithDefaults | nodejs/awsx/rds/metrics.ts:197-857 | the caller's filters kept as given, and the metric fields spread over the helper's defaults |
| RdsMetrics.HelperMetric | nodejs/awsx/rds/metrics.ts:197-857 | each exported helper gives the "AWS/RDS" metric of its own name; the caller's period, statistic and unit each win over the helper's default, which stands where the caller gives none, and the dimensions are exactly the caller's filters (also lines 163-189) |
| RdsMetrics.FixedDefaults | nodejs/awsx/rds/metrics.ts:215-217 | failed SQL Server Agent jobs count over 60-second periods; CPU utilization is in percent (also lines 277-279) |
| S3Metrics.Dimensions | sdk/nodejs/legacy/s3/metrics.ts:180-192 | a dimension key (bucket, storage type, filter id) is present exactly when the change gives that filter, and it holds that value |
| S3Metrics.Metric | sdk/nodejs/legacy/s3/metrics.ts:180-199 | an "AWS/S3" metric of the given name, carrying the change's fields and exactly its dimensions |
| S3Metrics.ListRequestsUnitAsWritten | sdk/nodejs/legacy/s3/metrics.ts:345-353 | as written, list requests is the one request count whose default unit is Bytes rather than Count |
| S3Metrics.DefaultsFor | sdk/nodejs/legacy/s3/metrics.ts:213-430 | each helper's defaults, with list requests in Count as documented, and no default period |
| S3Metrics.RequestCountsSumCounts | sdk/nodejs/legacy/s3/metrics.ts:240-353 | every request count defaults to Sum in Count units, and only request counts default a statistic |
| S3Metrics.WithDefaults | sdk/nodejs/legacy/s3/metrics.ts:213-430 | the caller's filters kept as given, and the metric fields spread over the helper's defaults |
| S3Metrics.HelperMetric | sdk/nodejs/legacy/s3/metrics.ts:213-430 | each exported helper gives the "AWS/S3" metric of its own name; the caller's period, statistic and unit each win over the helper's default, which stands where the caller gives none, and the dimensions are exactly the caller's filters (also lines 180-199) |
| ProviderSchema.AwsRef | provider/pkg/gen/schema.go:29-36 | the reference prefixed by "/aws/v4.37.1/schema.json", recoverable from the result |
| ProviderSchema.AwsRefInjective | provider/pkg/gen/schema.go:34-36 | distinct references stay distinct once resolved |
| ProviderSchema.FirstIndex | provider/pkg/gen/schema.go:436 | the first position at or after the start where the pattern occurs, or none when it occurs nowhere there (also line 451) |
| ProviderSchema.ReplaceFirst | provider/pkg/gen/schema.go:436 | `strings.Replace(s, old, new, 1)`: the string unchanged when the pattern does not occur, otherwise the first occurrence replaced and the rest kept (also line 451) |
| ProviderSchema.ReplaceFirstUnchanged | provider/pkg/gen/schema.go:436 | a replacement leaves a string as it was exactly when the pattern is absent or replaced by itself (also line 451) |
| ProviderSchema.RenameRefs | provider/pkg/gen/schema.go:449-462 | each reference of a list renamed, in place |
| ProviderSchema.RenameRefsConcat | provider/pkg/gen/schema.go:449-462 | renaming a list piecewise renames the whole |
| ProviderSchema.RenameTypeSpecRefs | provider/pkg/gen/schema.go:449-462 | the type's shape is kept, and its own non-empty reference gets its first occurrence replaced; map values and items recursively likewise |
| ProviderSchema.RenameTypeSpecRefsInOrder | provider/pkg/gen/schema.go:449-462 | the references of the renamed type are those of the type, each renamed, in the same order |
| ProviderSchema.RenameWithoutOccurrence | provider/pkg/gen/schema.go:449-462 | a type none of whose references contains the pattern is left unchanged |
| ProviderSchema.RenamePropertyRefs | provider/pkg/gen/schema.go:434-447 | a property keeps its description, and its type is renamed as `renameTypeSpecRefs` does |
| ProviderSchema.RenamePropertiesRefs | provider/pkg/gen/schema.go:426-432 | the same key set, with each property renamed |
| ProviderSchema.RenameComplexRefs | provider/pkg/gen/schema.go:421-424 | only the properties are renamed; the type and description stay |
| ProviderSchema.Clash | provider/pkg/gen/schema.go:464-486 | the first kind, in the order resources, types, functions, under which an extension redefines a key; none exactly when no kind overlaps |
| ProviderSchema.ExtendAll | provider/pkg/gen/schema.go:464-489 | the extensions merged in order, stopping at the first extension that redefines a key of the schema so far |
| ProviderSchema.ClashStops | provider/pkg/gen/schema.go:465-486 | once a prefix of the extensions clashes, later extensions change nothing |
| ProviderSchema.ExtendAllSucceeds | provider/pkg/gen/schema.go:464-489 | merging succeeds exactly when no extension redefines a key of the schema or of an earlier extension |
| ProviderSchema.MergeIncludesBoth | provider/pkg/gen/schema.go:466-485 | a merge without a clash keeps every entry of both sides |
| ProviderSchema.IncludesTransitive | provider/pkg/gen/schema.go:464-489 | inclusion of schemas is transitive |
| ProviderSchema.ExtendAllKeepsEntries | provider/pkg/gen/schema.go:464-489 | a successful merge keeps every entry of the schema and of every extension |
| ProviderSchema.MergeEntries | provider/pkg/gen/schema.go:466-471 | the loop over one kind's entries stops exactly on a key already present, one in both maps; otherwise the union |
| ProviderSchema.PackageSpec.ExtendSchemas | provider/pkg/gen/schema.go:464-489 | the spec ends up as the merge of all extensions exactly when none clashes; otherwise a fatal error naming the first clashing kind and key |
| ProviderSchema.PackageSpec.ExtendOne | provider/pkg/gen/schema.go:466-485 | one extension's resources, types and functions are written in unless a key is already defined, which is reported with its kind |
| ProviderSchema.RoleWithPolicyProperties | provider/pkg/gen/schema.go:388-410 | the role's input properties without `assumeRolePolicy`, the inline policies' item reference resolved against the AWS schema, and a plain string-array `policyArns`; fails when there is no inline-policies item to resolve |
| ProviderSchema.CopyProperties | provider/pkg/gen/schema.go:390-393 | the loop copies the property map exactly |
| ProviderSchema.RoleWithPolicyArgs | provider/pkg/gen/schema.go:388-418 | the role-with-policy type is an object type with exactly those properties, and fails exactly when they do |

## Left out

- Generated SDK argument classes and example programs: they hold no logic.
- `pulumi.Output` and promises are plain values. Asynchrony and the order in which outputs resolve are not modelled.
- Resource registration, parents, `dependsOn`, `opts` and resource options are not modelled. Resources are records of their arguments.
- Availability-zone lookups, the AWS SDK (`ecs.runTask`, `describeTasks`), AMI lookups, Docker builds, `sha1hash`, `fs` and directory walks, and fetching the AWS provider schema over HTTP are function parameters or input values.
- `JSON.stringify` and JSON parsing are parameters. Map key order for integer-like keys is not modelled.
- Floating point is scaled to integers: Fargate vCPU and cost, and memory in MiB. CloudWatch widget sizes and periods are integers.
- JavaScript's `%` and Python's `or` are written out where they matter. A JavaScript object spread does not distinguish an explicitly-undefined field from an absent one.
- The legacy `ip-address` arithmetic uses unbounded integers. The new distributor's `netmask` arithmetic wraps modulo 2^32, as the library does.
- Step-scaling values are integers. The comparator `s1.value - s2.value` is not modelled on fractional or NaN values.
- `InfraVpc.Construct`: requires `RoutingTerminates`, which excludes zone counts below 1 with a negative NAT count. The source loops forever there.
- `InfraVpc.Vpc.New`: requires `RoutingTerminates`, for the same reason as `InfraVpc.Construct`.
- `VpcComponent.Initialize`: requires every subnet spec the distributor returns to be valid. The distributor that dispatches between the new and legacy layouts (`subnetDistributor.ts`) is a total function parameter, so its errors (such as the new distributor's size check) do not reach `Initialize`'s result.
- `VpcComponent.LayoutSucceeds`: relies on the source's own comment that the NAT gateway for a zone already exists, stated as a precondition on the elastic-IP count and on public subnets.
- `SubnetSpecsNew.GetSubnetSpecsExplicit`: requires every explicit spec to carry a block per zone, which the spec type and `validateAndNormalizeSubnetInputs` guarantee. A shorter list would make the source read `undefined`.
- `InfraClusterService.NewClusterService`: requires the single load-balanced container to have load-balancer information, where the source applies the non-null assertion `!`.
- `InfraClusterService.CreateLoadBalancers`: requires the same as `InfraClusterService.NewClusterService`, for the same reason.
- `createLoadBalancer`'s use of the module-level `name` in the aws-infra `clusterMod` is not modelled.
- `nodejs/aws-infra/experimental/ecs/container.ts`, `utils.ts`, `fargateMemoryAndCpu.ts`, `logGroup.ts`, `role.ts` and the classic `ecs/container.ts` are not part of this model. Their results (container definitions, computed CPU and memory, log-group ids and role ARNs) are inputs.
- The classic `getSubnets` is taken to be the awsx one that it copies.
- The unreachable "Could not find fargate config" error in the awsx Fargate sizing is shown unreachable (`AwsxFargateService.LargestFits`) rather than modelled as a branch.
- The `aws.iam` managed-policy ARNs are a datatype of named policies, not their literal ARN strings.
- The CloudWatch `Metric` class and `withDimensions` are not part of this model. A metric is its namespace, name, period, statistic, unit and dimension map.
- `MetricChanges.Spread`: spreads only the period, statistic and unit, the fields the helpers default. The other `MetricChange` fields pass through unchanged in the source and are not modelled.
- `CloudwatchWidgets.NewMetricWidget`: an alarm given as an ARN output that resolves to the empty string is treated as absent. The JSON that annotations and metrics write is a parameter.
- Security-group rule `opts`, parents and the `aws.ec2.SecurityGroupRule` resource itself are not modelled. `isSimpleSecurityGroupRuleArgs` is the tag of a sum type.
- The Go generator's `GenerateSchema` literal, `getAwsSpec` and `getSpecFromUrl` (HTTP) are not modelled. `log.Fatalf` is a `Reject` outcome. The partly written spec left behind by a fatal clash is not described.
- `ProviderSchema.RoleWithPolicyArgs`: Go map aliasing between the copied property map and the AWS spec's is not modelled. `%q` quoting is plain quotes.
- The user-data cloud-config text is one fixed constant (`user_data_text.dfy`). The generated user data is a record of its boot commands, run commands and stack name.
- `InfraVpc.Construct`: routes private subnets with the wrapped round-robin counter, the corrected half of the first Findings row. With three zones, one NAT gateway and three private subnets it succeeds, routing every zone through gateway 0; the source throws there (nodejs/aws-infra/ec2/vpc.ts:227-229).
- `InfraVpc.Assemble`: follows the wrapped counter, as `InfraVpc.Construct` does, and differs from the source on the same input.
- `InfraVpc.Vpc.New`: follows the wrapped counter, as `InfraVpc.Construct` does, and differs from the source on the same input.
- `InfraVpc.Vpc.Build`: follows the wrapped counter, as `InfraVpc.Construct` does, and differs from the source on the same input.
- `InfraVpc.Vpc.CreateNatGateways`: follows the wrapped counter, as `InfraVpc.Construct` does, and differs from the source on the same input.
- `InfraFargateService.TaskDefinitionFor`: sizes the task with `CorrectedSize`, the corrected half of the Fargate Findings row. For containers asking for 3000 CPU units and 256 MiB it gives 4096 units with 8 GB; the source gives 4096 units with 0.5 GB (nodejs/aws-infra/experimental/fargateService.ts:93-118).
- `InfraFargateService.NewFargateTaskDefinition`: sizes the task as `InfraFargateService.TaskDefinitionFor` does, and differs from the source on the same input.
- `InfraFargateService.ServiceFor`: a service built from task-definition arguments is sized as `InfraFargateService.TaskDefinitionFor` does, and differs from the source on the same input.
- `InfraFargateService.NewFargateService`: gives `InfraFargateService.ServiceFor`, and differs from the source on the same input.
- `AwsxAutoScaling.NewAutoScalingGroup`: builds its default launch configuration with the corrected `NewLaunchConfiguration`. Given neither a launch configuration nor its arguments, it succeeds; the source throws (nodejs/awsx/autoscaling/autoscaling.ts:39-41).
- `AwsxEcsTaskDefinition.NewTaskDefinition`: uses the corrected `ExecutionRoleFor` and the default family that hashes the container JSON. With a null task role and a given execution role it keeps the execution role, which the source drops (nodejs/awsx/ecs/taskDefinition.ts:66-68); with a null execution role and a task role it has none, where the source creates one. Two task definitions with different containers in one stack get different default families; the source gives both the same (line 78).
- `S3Metrics.DefaultsFor`: gives `listRequests` the unit Count; the source gives Bytes (sdk/nodejs/legacy/s3/metrics.ts:351-353).
- `SubnetSpecsNew.GetSubnetSpecs`: uses the fitted allocation. On VPC 10.0.0.0/22 with four zones and /27, /25 and /26 subnets it fails with the fit error; the source returns overlapping blocks (awsx/ec2/subnetDistributorNew.ts:24-53).
- `SubnetDistributorLegacy.ValidateRanges`: prints each overlapping block with its own address range. For 10.0.0.0/24 then 10.0.0.128/25 it reports 10.0.0.128 to 10.0.0.255; the source reports the previous block's 10.0.0.0 to 10.0.0.255 (awsx/ec2/subnetDistributorLegacy.ts:253-258).
- `SubnetDistributorLegacy.CidrSubnetV4`: a negative new mask (a zone mask wider than the VPC's) is refused with a message of the model's own. The source goes on and returns the text `a.b.c.d/-n`, whose later parsing is not modelled.
- `SubnetDistributorNew.NewNetmask`: a prefix of 0 gives a /0 block. The netmask library treats a falsy mask as absent and gives /32. The distributors never ask for /0.
- `CloudwatchWidgets.NewMetricWidget`: returns a fresh annotation list. The source pushes the alarm annotation onto the caller's own `annotations` array (awsx-classic/cloudwatch/widgets_simple.ts:294, 303), so the caller sees its array change; that aliasing is not modelled.
- `ApiGateway.NewApi`: any given swagger text counts as given. A `swaggerString` given as the plain empty string is falsy in the source and falls through to the routes; one given as an output is truthy whatever it holds, as here.
- Resource `tags` arguments pass through the components unchanged and are not modelled.

## Findings

| source | as written | input that shows it | evidently intended | confidence | as-written member | corrected member |
|---|---|---|---|---|---|---|
| nodejs/aws-infra/ec2/vpc.ts:214-238 | the round-robin index into the NAT gateways moves on after each zone and is never wrapped | three zones with one private subnet each and one NAT gateway: zone 2 reads gateway 1, which does not exist | wrap the index modulo the number of gateways, so that zone 2 routes through gateway 0 | not executed | InfraVpc.UnwrappedCounterFails | InfraVpc.Vpc.RoutePrivateSubnets |
| awsx/ec2/subnetDistributorNew.ts:117-156 | the size check adds up the subnet sizes but ignores the padding that aligning each subnet adds | VPC 10.0.0.0/22, four zones, subnets /27, /25 and /26: zone 1's third subnet lands on 10.0.1.0/26, where zone 2's first subnet 10.0.1.0/27 starts | refuse a layout whose aligned subnets do not fit in the zone's block | not executed | SubnetDistributorNew.SizeCheckAdmitsSpill | SubnetDistributorNew.FittedAllocationDisjoint |
| awsx/ec2/subnetDistributorNew.ts:188-194 | `nextNetmask` starts the next block from `Netmask.last`, the last host address, not the block's last address | 10.0.0.0/24 followed by a /32: the /32 is 10.0.0.255, inside the previous block | start after the previous block's last address | not executed | SubnetDistributorNew.NextNetmaskReusesBroadcast | SubnetDistributorNew.NextBlockAfterAgrees |
| awsx/ec2/subnetDistributorLegacy.ts:253-258 | the overlap error prints the current block with the previous block's address range | 10.0.0.0/24 then 10.0.0.128/25: the second is reported as 10.0.0.0 to 10.0.0.255 | print each block with its own range (10.0.0.128 to 10.0.0.255) | not executed | SubnetDistributorLegacy.OverlapMessageMisreports | SubnetDistributorLegacy.RangesOutcomeSpec |
| nodejs/aws-infra/experimental/fargateService.ts:93-118 | memory is chosen from the requested memory alone and never raised to what the chosen CPU needs | more than 2 and at most 4 vCPU with at most 0.5 GB: 4096 CPU units with 0.5 GB, which Fargate does not offer | raise the memory to the smallest amount the CPU supports | not executed | InfraFargateService.AsWrittenUnsupported | InfraFargateService.CorrectedSupported |
| nodejs/awsx/apigateway/lambdaauthorizer.ts:327-336 | the parameter name is taken from the query parameters whenever that list is given, even when it is empty | no query parameters (`[]`) and one header `Auth`: the parameter name is undefined | use the single header when the query list is empty | not executed | LambdaAuthorizer.RequestAuthorizerAsWrittenLosesHeader | LambdaAuthorizer.RequestAuthorizer |
| nodejs/awsx/autoscaling/autoscaling.ts:39-41 | the launch configuration throws unless `securityGroups` is an array, though the argument is optional | an `AutoScalingGroup` given neither a launch configuration nor its arguments always throws | treat absent security groups as none, as the empty-list fallback on line 56 does | not executed | AwsxAutoScaling.DefaultLaunchConfigurationRefused | AwsxAutoScaling.NewLaunchConfiguration |
| nodejs/awsx/ecs/taskDefinition.ts:77-78 | the default family hashes the text of the `containerString` output instead of its value `s` (likewise experimental/ecs/taskDefinition.ts:96 and the classic layer's line 78) | any two different sets of container definitions in one stack: both get the same default family | hash the container-definition JSON, so that different definitions get different families | not executed | AwsxEcsTaskDefinition.DefaultFamilyIgnoresContainers | AwsxEcsTaskDefinition.DefaultFamilyDistinguishes |
| nodejs/awsx/ecs/taskDefinition.ts:66-68 | the execution role tests `args.taskRole === null` instead of `args.executionRole === null` | task role null with an execution role given: the given execution role is dropped | test the execution role's own argument, as the classic layer does | not executed | AwsxEcsTaskDefinition.ExecutionRoleFollowsTaskRole | AwsxEcsTaskDefinition.ExecutionRoleFor |
| sdk/nodejs/legacy/s3/metrics.ts:351-353 | `listRequests` defaults its unit to Bytes | `listRequests()` with no change: the metric's unit is Bytes | Count, as its documentation (lines 345-350) and every other request count say | not executed | S3Metrics.ListRequestsUnitAsWritten | S3Metrics.RequestCountsSumCounts |
