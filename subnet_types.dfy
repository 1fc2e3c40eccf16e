// Subnet kinds, subnet inputs and the subnet descriptors shared by the
// VPC component (awsx/ec2) and both of its subnet distributors.
module SubnetTypes {
  import opened Wrappers
  import opened Cidr
  import opened Text

  datatype SubnetType = Public | Private | Isolated

  /** The type as it is spelled in inputs and tags ("Public", ...). */
  function TypeName(t: SubnetType): string
  {
    match t
    case Public => "Public"
    case Private => "Private"
    case Isolated => "Isolated"
  }

  /** `type.toLowerCase()`. */
  function LowerTypeName(t: SubnetType): string
  {
    match t
    case Public => "public"
    case Private => "private"
    case Isolated => "isolated"
  }

  /**
   * A CIDR string "a.b.c.d/m" once parsed: the address as written (host bits
   * are kept) and the prefix length as written (not yet range-checked).
   */
  datatype CidrBlock = CidrBlock(addr: Address, mask: int)

  predicate ValidMask(b: CidrBlock)
  {
    0 <= b.mask <= 32
  }

  /** First address of the block (the address with host bits cleared). */
  function Start(b: CidrBlock): int
    requires ValidMask(b)
  {
    Align(b.addr, b.mask)
  }

  /** Last address of the block. */
  function End(b: CidrBlock): int
    requires ValidMask(b)
  {
    Start(b) + BlockSize(b.mask) - 1
  }

  /** Dotted-quad text of an address. */
  function Dotted(x: int): string
  {
    var v := x % AddressSpace;
    NatToString(v / 16777216) + "." + NatToString(v / 65536 % 256) + "." + NatToString(v / 256 % 256) + "." + NatToString(v % 256)
  }

  /** A block written as `a.b.c.d/m`, as the CIDR strings of the source are. */
  function CidrString(b: CidrBlock): string
  {
    Dotted(b.addr) + "/" + IntToString(b.mask)
  }

  /** One user-supplied subnet specification (tags pass through unchanged and are not modelled). */
  datatype SubnetSpecInput = SubnetSpecInput(
    subnetType: SubnetType,
    name: Option<string>,
    cidrMask: Option<int>,
    size: Option<int>,
    cidrBlocks: Option<seq<CidrBlock>>)

  function PlainSpec(t: SubnetType): SubnetSpecInput
  {
    SubnetSpecInput(t, None, None, None, None)
  }

  /** A subnet to create: its block, kind, availability zone and resource name. */
  datatype SubnetSpec = SubnetSpec(cidrBlock: CidrBlock, subnetType: SubnetType, azName: string, subnetName: string)

  /** Every block of the sequence lies wholly before every later one. */
  ghost predicate Ascending(blocks: seq<CidrBlock>)
  {
    (forall k :: 0 <= k < |blocks| ==> ValidMask(blocks[k]))
    && forall j, k :: 0 <= j < k < |blocks| ==> End(blocks[j]) < Start(blocks[k])
  }

  /** Blocks each starting after its predecessor ends are pairwise disjoint and ordered. */
  lemma {:induction false} ChainAscending(blocks: seq<CidrBlock>)
    requires forall k :: 0 <= k < |blocks| ==> ValidMask(blocks[k])
    requires forall k :: 0 < k < |blocks| ==> End(blocks[k - 1]) < Start(blocks[k])
    ensures Ascending(blocks)
  {
    if |blocks| > 1 {
      var n := |blocks| - 1;
      var init := blocks[..n];
      ChainAscending(init);
      StartBeforeEnd(blocks[n - 1]);
      assert forall j :: 0 <= j < n ==> init[j] == blocks[j];
      assert forall j :: 0 <= j < n - 1 ==> End(blocks[j]) < Start(blocks[n - 1]);
      assert forall j :: 0 <= j < n ==> End(blocks[j]) < Start(blocks[n]);
    }
  }

  lemma StartBeforeEnd(b: CidrBlock)
    requires ValidMask(b)
    ensures Start(b) <= End(b)
  {
  }
}
