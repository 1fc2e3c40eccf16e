// The schema helpers of the provider's code generator
// (provider/pkg/gen/schema.go): references into the AWS provider's schema,
// renaming of type references throughout a spec, the role-with-policy
// argument type, and the merging of extension schemas into the package.
module ProviderSchema {
  import opened Wrappers

  const AwsVersion: string := "v4.37.1"

  /** `awsRef`: a reference resolved against the pinned AWS provider schema. */
  function AwsRef(ref: string): (r: string)
    ensures r == "/aws/" + AwsVersion + "/schema.json" + ref
    ensures |r| == 24 + |ref| && r[24..] == ref
  {
    "/aws/" + AwsVersion + "/schema.json" + ref
  }

  /** Distinct references stay distinct once resolved. */
  lemma AwsRefInjective(a: string, b: string)
    ensures AwsRef(a) == AwsRef(b) ==> a == b
  {
    if AwsRef(a) == AwsRef(b) {
      assert a == AwsRef(a)[24..];
    }
  }

  /** `pattern` occurs in `s` at index `i`. */
  predicate OccursAt(s: string, pattern: string, i: int)
  {
    0 <= i && i + |pattern| <= |s| && s[i..i + |pattern|] == pattern
  }

  /** The first index at or after `start` where `pattern` occurs in `s`. */
  function FirstIndex(s: string, pattern: string, start: nat): (r: Option<nat>)
    ensures r.Some? ==> start <= r.value && OccursAt(s, pattern, r.value)
    ensures r.Some? ==> forall j :: start <= j < r.value ==> !OccursAt(s, pattern, j)
    ensures r.None? ==> forall j :: start <= j ==> !OccursAt(s, pattern, j)
    decreases |s| - start
  {
    if start + |pattern| > |s| then None
    else if s[start..start + |pattern|] == pattern then Some(start)
    else FirstIndex(s, pattern, start + 1)
  }

  /**
   * `strings.Replace(s, pattern, replacement, 1)`: the first occurrence of `pattern`, if
   * any, becomes `replacement`; an empty `pattern` occurs first at the start.
   */
  function ReplaceFirst(s: string, pattern: string, replacement: string): (r: string)
    ensures FirstIndex(s, pattern, 0).None? ==> r == s
    ensures FirstIndex(s, pattern, 0).Some? ==>
      var i := FirstIndex(s, pattern, 0).value;
      r == s[..i] + replacement + s[i + |pattern|..]
  {
    var i := FirstIndex(s, pattern, 0);
    if i.None? then s else s[..i.value] + replacement + s[i.value + |pattern|..]
  }

  /** A replacement leaves a string as it was exactly when `pattern` does not occur in it or is replaced by itself. */
  lemma ReplaceFirstUnchanged(s: string, pattern: string, replacement: string)
    ensures ReplaceFirst(s, pattern, replacement) == s <==> FirstIndex(s, pattern, 0).None? || pattern == replacement
  {
    var i := FirstIndex(s, pattern, 0);
    if i.Some? && pattern != replacement {
      var r := ReplaceFirst(s, pattern, replacement);
      if |replacement| == |pattern| {
        assert r[i.value..i.value + |replacement|] == replacement;
        assert s[i.value..i.value + |pattern|] == pattern;
      } else {
        assert |r| != |s|;
      }
    } else if i.Some? {
      assert s == s[..i.value] + s[i.value..i.value + |pattern|] + s[i.value + |pattern|..];
    }
  }

  /** A schema type: a primitive type or a reference, with map values and array items of their own. */
  datatype TypeSpec = TypeSpec(
    typ: string, ref: string, additionalProperties: Option<TypeSpec>, items: Option<TypeSpec>, plain: bool)

  /** The shape of a type with every reference blanked out. */
  function Erase(t: TypeSpec): TypeSpec
  {
    TypeSpec(t.typ, "",
             if t.additionalProperties.Some? then Some(Erase(t.additionalProperties.value)) else None,
             if t.items.Some? then Some(Erase(t.items.value)) else None,
             t.plain)
  }

  /** The references of a type, the type's own first, then its map values', then its items'. */
  function Refs(t: TypeSpec): seq<string>
  {
    [t.ref]
    + (if t.additionalProperties.Some? then Refs(t.additionalProperties.value) else [])
    + (if t.items.Some? then Refs(t.items.value) else [])
  }

  /** A reference after renaming: a non-empty one has its first `pattern` replaced. */
  function RenameRef(ref: string, pattern: string, replacement: string): string
  {
    if ref != "" then ReplaceFirst(ref, pattern, replacement) else ref
  }

  /** Every reference of a list renamed. */
  function RenameRefs(refs: seq<string>, pattern: string, replacement: string): (r: seq<string>)
    ensures |r| == |refs| && forall i :: 0 <= i < |refs| ==> r[i] == RenameRef(refs[i], pattern, replacement)
  {
    if |refs| == 0 then [] else [RenameRef(refs[0], pattern, replacement)] + RenameRefs(refs[1..], pattern, replacement)
  }

  /** Renaming a list piecewise renames the whole. */
  lemma RenameRefsConcat(a: seq<string>, b: seq<string>, pattern: string, replacement: string)
    ensures RenameRefs(a + b, pattern, replacement) == RenameRefs(a, pattern, replacement) + RenameRefs(b, pattern, replacement)
  {
    var whole, left, right := RenameRefs(a + b, pattern, replacement), RenameRefs(a, pattern, replacement), RenameRefs(b, pattern, replacement);
    forall i | 0 <= i < |a + b|
      ensures whole[i] == (left + right)[i]
    {
      if i < |a| {
        assert (a + b)[i] == a[i];
      } else {
        assert (a + b)[i] == b[i - |a|];
      }
    }
  }

  /**
   * `renameTypeSpecRefs`: the type's own reference, when set, and those of
   * its map values and items, recursively, get their first `pattern` replaced;
   * the shape of the type does not change.
   */
  function RenameTypeSpecRefs(t: TypeSpec, pattern: string, replacement: string): (r: TypeSpec)
    ensures Erase(r) == Erase(t)
    ensures r.ref == RenameRef(t.ref, pattern, replacement)
  {
    t.(ref := RenameRef(t.ref, pattern, replacement),
       additionalProperties :=
         if t.additionalProperties.Some? then Some(RenameTypeSpecRefs(t.additionalProperties.value, pattern, replacement)) else None,
       items := if t.items.Some? then Some(RenameTypeSpecRefs(t.items.value, pattern, replacement)) else None)
  }

  /** Renaming a type renames each of its references, in place and in order. */
  lemma {:induction false} RenameTypeSpecRefsInOrder(t: TypeSpec, pattern: string, replacement: string)
    ensures Refs(RenameTypeSpecRefs(t, pattern, replacement)) == RenameRefs(Refs(t), pattern, replacement)
  {
    var r := RenameTypeSpecRefs(t, pattern, replacement);
    var additional := if t.additionalProperties.Some? then Refs(t.additionalProperties.value) else [];
    var items := if t.items.Some? then Refs(t.items.value) else [];
    if t.additionalProperties.Some? {
      RenameTypeSpecRefsInOrder(t.additionalProperties.value, pattern, replacement);
    }
    if t.items.Some? {
      RenameTypeSpecRefsInOrder(t.items.value, pattern, replacement);
    }
    assert Refs(t) == [t.ref] + additional + items;
    RenameRefsConcat([t.ref] + additional, items, pattern, replacement);
    RenameRefsConcat([t.ref], additional, pattern, replacement);
    assert Refs(r) == [r.ref] + RenameRefs(additional, pattern, replacement) + RenameRefs(items, pattern, replacement);
  }

  /** A type none of whose references contains `pattern` is left as it is. */
  lemma {:induction false} RenameWithoutOccurrence(t: TypeSpec, pattern: string, replacement: string)
    requires forall ref :: ref in Refs(t) ==> FirstIndex(ref, pattern, 0).None?
    ensures RenameTypeSpecRefs(t, pattern, replacement) == t
  {
    assert t.ref in Refs(t);
    if t.additionalProperties.Some? {
      assert forall ref :: ref in Refs(t.additionalProperties.value) ==> ref in Refs(t);
      RenameWithoutOccurrence(t.additionalProperties.value, pattern, replacement);
    }
    if t.items.Some? {
      assert forall ref :: ref in Refs(t.items.value) ==> ref in Refs(t);
      RenameWithoutOccurrence(t.items.value, pattern, replacement);
    }
  }

  /** A property: a described type. */
  datatype PropertySpec = PropertySpec(description: string, typeSpec: TypeSpec)

  /**
   * `renamePropertyRefs`: the same renaming on a property's own reference,
   * map values and items; the description stays.
   */
  function RenamePropertyRefs(p: PropertySpec, pattern: string, replacement: string): (r: PropertySpec)
    ensures r.description == p.description
    ensures r.typeSpec == RenameTypeSpecRefs(p.typeSpec, pattern, replacement)
  {
    var t := p.typeSpec;
    var renamed := t.(ref := if t.ref != "" then ReplaceFirst(t.ref, pattern, replacement) else t.ref);
    var withAdditional := renamed.(additionalProperties :=
      if t.additionalProperties.Some? then Some(RenameTypeSpecRefs(t.additionalProperties.value, pattern, replacement)) else None);
    var withItems := withAdditional.(items :=
      if t.items.Some? then Some(RenameTypeSpecRefs(t.items.value, pattern, replacement)) else None);
    p.(typeSpec := withItems)
  }

  /** `renamePropertiesRefs`: a replacement map with the same keys, each property renamed. */
  function RenamePropertiesRefs(properties: map<string, PropertySpec>, pattern: string, replacement: string)
    : (r: map<string, PropertySpec>)
    ensures r.Keys == properties.Keys
    ensures forall k :: k in r ==> r[k] == RenamePropertyRefs(properties[k], pattern, replacement)
  {
    map k | k in properties :: RenamePropertyRefs(properties[k], pattern, replacement)
  }

  /** An object type of the schema. */
  datatype ComplexTypeSpec = ComplexTypeSpec(typ: string, description: string, properties: map<string, PropertySpec>)

  /** `renameComplexRefs`: the type's properties renamed, the rest as it was. */
  function RenameComplexRefs(spec: ComplexTypeSpec, pattern: string, replacement: string): (r: ComplexTypeSpec)
    ensures r.typ == spec.typ && r.description == spec.description
    ensures r.properties == RenamePropertiesRefs(spec.properties, pattern, replacement)
  {
    spec.(properties := RenamePropertiesRefs(spec.properties, pattern, replacement))
  }

  /** A resource of the schema, through the part the generator reads. */
  datatype ResourceSpec = ResourceSpec(isComponent: bool, inputProperties: map<string, PropertySpec>)

  /** A function of the schema, through its description. */
  datatype FunctionSpec = FunctionSpec(description: string)

  /** The resources, types and functions of a schema. */
  datatype Schema = Schema(
    resources: map<string, ResourceSpec>, types: map<string, ComplexTypeSpec>, functions: map<string, FunctionSpec>)

  /** The three kinds of entry, in the order `extendSchemas` merges them. */
  datatype Category = Resources | Types | Functions

  /** The fatal message for a key already defined. */
  function Message(category: Category, key: string): string
  {
    var kind := match category
      case Resources => "resource"
      case Types => "type"
      case Functions => "function";
    kind + " already defined \"" + key + "\""
  }

  /** The keys of one kind that an extension shares with a schema. */
  function Overlap(schema: Schema, extension: Schema, category: Category): set<string>
  {
    match category
    case Resources => schema.resources.Keys * extension.resources.Keys
    case Types => schema.types.Keys * extension.types.Keys
    case Functions => schema.functions.Keys * extension.functions.Keys
  }

  /** The first kind, in merge order, under which an extension redefines a key of the schema. */
  function Clash(schema: Schema, extension: Schema): (r: Option<Category>)
    ensures r.None? <==> forall c :: Overlap(schema, extension, c) == {}
    ensures r.Some? ==> Overlap(schema, extension, r.value) != {}
    ensures r == Some(Types) ==> Overlap(schema, extension, Resources) == {}
    ensures r == Some(Functions) ==> Overlap(schema, extension, Resources) == {} && Overlap(schema, extension, Types) == {}
  {
    if Overlap(schema, extension, Resources) != {} then Some(Resources)
    else if Overlap(schema, extension, Types) != {} then Some(Types)
    else if Overlap(schema, extension, Functions) != {} then Some(Functions)
    else
      assert forall c :: Overlap(schema, extension, c) == {};
      None
  }

  /** A schema with an extension's entries added. */
  function Merge(schema: Schema, extension: Schema): Schema
  {
    Schema(schema.resources + extension.resources, schema.types + extension.types, schema.functions + extension.functions)
  }

  /** What merging a list of extensions comes to: the merged schema, or the first extension that redefines a key. */
  datatype ExtendResult = Extended(schema: Schema) | Clashed(extension: nat, category: Category)

  /** `extendSchemas` as a value: the extensions merged in order, stopping at the first redefinition. */
  function ExtendAll(schema: Schema, extensions: seq<Schema>): (r: ExtendResult)
    ensures r.Clashed? ==> r.extension < |extensions|
    ensures r.Clashed? ==>
      && ExtendAll(schema, extensions[..r.extension]).Extended?
      && Clash(ExtendAll(schema, extensions[..r.extension]).schema, extensions[r.extension]) == Some(r.category)
  {
    if |extensions| == 0 then Extended(schema)
    else
      var prefix := extensions[..|extensions| - 1];
      var before := ExtendAll(schema, prefix);
      if before.Clashed? then
        assert extensions[..before.extension] == prefix[..before.extension];
        before
      else
        var clash := Clash(before.schema, extensions[|extensions| - 1]);
        if clash.Some? then Clashed(|extensions| - 1, clash.value)
        else Extended(Merge(before.schema, extensions[|extensions| - 1]))
  }

  /** Once a prefix of the extensions clashes, the merge of them all stops at that clash. */
  lemma {:induction false} ClashStops(schema: Schema, extensions: seq<Schema>, n: nat)
    requires n <= |extensions| && ExtendAll(schema, extensions[..n]).Clashed?
    ensures ExtendAll(schema, extensions) == ExtendAll(schema, extensions[..n])
    decreases |extensions| - n
  {
    if n < |extensions| {
      assert extensions[..n + 1][..n] == extensions[..n];
      ClashStops(schema, extensions, n + 1);
    } else {
      assert extensions[..n] == extensions;
    }
  }

  /** The `i`-th extension merges cleanly into the merge of those before it. */
  predicate StepSucceeds(schema: Schema, extensions: seq<Schema>, i: nat)
    requires i < |extensions|
  {
    var before := ExtendAll(schema, extensions[..i]);
    before.Extended? && Clash(before.schema, extensions[i]).None?
  }

  /** Merging succeeds exactly when no extension redefines a key of the schema or of an earlier extension. */
  lemma {:induction false} ExtendAllSucceeds(schema: Schema, extensions: seq<Schema>)
    ensures ExtendAll(schema, extensions).Extended? <==>
      forall i :: 0 <= i < |extensions| ==> StepSucceeds(schema, extensions, i)
  {
    if |extensions| > 0 {
      var n := |extensions| - 1;
      var prefix := extensions[..n];
      ExtendAllSucceeds(schema, prefix);
      assert extensions[..n] == prefix;
      forall i | 0 <= i < n
        ensures StepSucceeds(schema, extensions, i) == StepSucceeds(schema, prefix, i)
      {
        assert extensions[..i] == prefix[..i];
      }
      assert ExtendAll(schema, extensions).Extended? <==> StepSucceeds(schema, extensions, n);
    }
  }

  /** Every entry of `part` is in `whole`, with the same definition. */
  predicate Includes(whole: Schema, part: Schema)
  {
    && (forall k :: k in part.resources ==> k in whole.resources && whole.resources[k] == part.resources[k])
    && (forall k :: k in part.types ==> k in whole.types && whole.types[k] == part.types[k])
    && (forall k :: k in part.functions ==> k in whole.functions && whole.functions[k] == part.functions[k])
  }

  /** Without a clash, a merge keeps the entries of both sides. */
  lemma MergeIncludesBoth(schema: Schema, extension: Schema)
    requires Clash(schema, extension).None?
    ensures Includes(Merge(schema, extension), schema) && Includes(Merge(schema, extension), extension)
  {
    assert Overlap(schema, extension, Resources) == {};
    assert Overlap(schema, extension, Types) == {};
    assert Overlap(schema, extension, Functions) == {};
    DisjointUnion(schema.resources, extension.resources);
    DisjointUnion(schema.types, extension.types);
    DisjointUnion(schema.functions, extension.functions);
  }

  /** The union of two maps without a common key holds the entries of both. */
  lemma DisjointUnion<V>(left: map<string, V>, right: map<string, V>)
    requires left.Keys * right.Keys == {}
    ensures forall k :: k in left ==> k in left + right && (left + right)[k] == left[k]
    ensures forall k :: k in right ==> k in left + right && (left + right)[k] == right[k]
  {
    forall k | k in left
      ensures k in left + right && (left + right)[k] == left[k]
    {
      assert k in left.Keys && k !in left.Keys * right.Keys;
      assert k !in right.Keys;
    }
  }

  /** Inclusion of schemas is transitive. */
  lemma IncludesTransitive(whole: Schema, middle: Schema, part: Schema)
    requires Includes(whole, middle) && Includes(middle, part)
    ensures Includes(whole, part)
  {
  }

  /** A merged schema keeps every entry of the schema and of every extension. */
  lemma {:induction false} ExtendAllKeepsEntries(schema: Schema, extensions: seq<Schema>)
    ensures ExtendAll(schema, extensions).Extended? ==>
      && Includes(ExtendAll(schema, extensions).schema, schema)
      && forall i :: 0 <= i < |extensions| ==> Includes(ExtendAll(schema, extensions).schema, extensions[i])
  {
    if |extensions| > 0 && ExtendAll(schema, extensions).Extended? {
      var n := |extensions| - 1;
      var prefix := extensions[..n];
      ExtendAllKeepsEntries(schema, prefix);
      var before := ExtendAll(schema, prefix).schema;
      var r := ExtendAll(schema, extensions).schema;
      MergeIncludesBoth(before, extensions[n]);
      assert r == Merge(before, extensions[n]);
      IncludesTransitive(r, before, schema);
      forall i | 0 <= i < n
        ensures Includes(r, extensions[i])
      {
        assert extensions[i] == prefix[i];
        IncludesTransitive(r, before, prefix[i]);
      }
    }
  }

  /**
   * The loop over one kind of an extension's entries: each key is looked up
   * in the entries so far, and a key already there stops the merge.
   */
  method MergeEntries<V>(existing: map<string, V>, added: map<string, V>) returns (merged: map<string, V>, clash: Option<string>)
    ensures clash.None? <==> existing.Keys !! added.Keys
    ensures clash.None? ==> merged == existing + added
    ensures clash.Some? ==> clash.value in existing && clash.value in added
  {
    merged := existing;
    var remaining := added.Keys;
    while remaining != {}
      invariant remaining <= added.Keys
      invariant forall k :: k in added && k !in remaining ==> k !in existing
      invariant merged.Keys == existing.Keys + (added.Keys - remaining)
      invariant forall k :: k in existing ==> merged[k] == existing[k]
      invariant forall k :: k in added && k !in remaining ==> merged[k] == added[k]
      decreases remaining
    {
      var k :| k in remaining;
      if k in merged {
        assert k in existing;
        return merged, Some(k);
      }
      merged := merged[k := added[k]];
      remaining := remaining - {k};
    }
    assert existing.Keys !! added.Keys;
    assert merged == existing + added by {
      assert merged.Keys == (existing + added).Keys;
      assert forall k :: k in merged ==> merged[k] == (existing + added)[k];
    }
    clash := None;
  }

  /** A package spec, whose maps `extendSchemas` writes into. */
  class PackageSpec {
    var resources: map<string, ResourceSpec>
    var types: map<string, ComplexTypeSpec>
    var functions: map<string, FunctionSpec>

    constructor(schema: Schema)
      ensures Contents() == schema
    {
      resources := schema.resources;
      types := schema.types;
      functions := schema.functions;
    }

    /** The spec's entries. */
    function Contents(): Schema
      reads this
    {
      Schema(resources, types, functions)
    }

    /**
     * `extendSchemas`: every extension's resources, types and functions are
     * written into this spec, extension by extension; a key already defined
     * is fatal, reported with the first clashing kind of the first clashing
     * extension.
     */
    method ExtendSchemas(extensions: seq<Schema>) returns (outcome: Outcome)
      modifies this
      ensures outcome.Pass? <==> ExtendAll(old(Contents()), extensions).Extended?
      ensures outcome.Pass? ==> Contents() == ExtendAll(old(Contents()), extensions).schema
      ensures outcome.Reject? ==>
        var c := ExtendAll(old(Contents()), extensions);
        var before := ExtendAll(old(Contents()), extensions[..c.extension]).schema;
        exists k :: k in Overlap(before, extensions[c.extension], c.category) && outcome.error == Message(c.category, k)
    {
      ghost var start := Contents();
      var i := 0;
      while i < |extensions|
        invariant 0 <= i <= |extensions|
        invariant ExtendAll(start, extensions[..i]) == Extended(Contents())
      {
        assert extensions[..i + 1][..i] == extensions[..i];
        var clash := ExtendOne(extensions[i]);
        if clash.Some? {
          assert ExtendAll(start, extensions[..i + 1]) == Clashed(i, clash.value.0);
          ClashStops(start, extensions, i + 1);
          return Reject(Message(clash.value.0, clash.value.1));
        }
        i := i + 1;
      }
      assert extensions[..i] == extensions;
      outcome := Pass;
    }

    /**
     * One extension of `extendSchemas`: its resources, then its types, then
     * its functions are written in; the first key already defined stops it.
     */
    method ExtendOne(extension: Schema) returns (clash: Option<(Category, string)>)
      modifies this
      ensures clash.None? <==> Clash(old(Contents()), extension).None?
      ensures clash.None? ==> Contents() == Merge(old(Contents()), extension)
      ensures clash.Some? ==> clash.value.0 == Clash(old(Contents()), extension).value
      ensures clash.Some? ==> clash.value.1 in Overlap(old(Contents()), extension, clash.value.0)
    {
      ghost var before := Contents();
      var mergedResources, clashKey := MergeEntries(resources, extension.resources);
      if clashKey.Some? {
        assert clashKey.value in Overlap(before, extension, Resources);
        return Some((Resources, clashKey.value));
      }
      resources := mergedResources;
      var mergedTypes;
      mergedTypes, clashKey := MergeEntries(types, extension.types);
      if clashKey.Some? {
        assert clashKey.value in Overlap(before, extension, Types);
        return Some((Types, clashKey.value));
      }
      types := mergedTypes;
      var mergedFunctions;
      mergedFunctions, clashKey := MergeEntries(functions, extension.functions);
      if clashKey.Some? {
        assert clashKey.value in Overlap(before, extension, Functions);
        return Some((Functions, clashKey.value));
      }
      functions := mergedFunctions;
      clash := None;
    }
  }

  const RoleToken: string := "aws:iam/role:Role"

  /** The `policyArns` property added to the role's arguments: a plain array of plain strings. */
  const PolicyArnsProperty: PropertySpec := PropertySpec(
    "ARNs of the policies to attach to the created role.",
    TypeSpec("array", "", None, Some(TypeSpec("string", "", None, None, true)), true))

  /** The zero value Go reads for a missing resource: no input properties. */
  function InputPropertiesOf(awsResources: map<string, ResourceSpec>): map<string, PropertySpec>
  {
    if RoleToken in awsResources then awsResources[RoleToken].inputProperties else map[]
  }

  /**
   * The properties of the role-with-policy type: the AWS role's inputs
   * without `assumeRolePolicy`, with the inline policies' item reference
   * resolved against the AWS schema and `policyArns` added. Without inline
   * policies with items, reaching their item reference dereferences nil.
   */
  function RoleWithPolicyProperties(awsResources: map<string, ResourceSpec>): (r: Result<map<string, PropertySpec>>)
    ensures var inputs := InputPropertiesOf(awsResources);
      r.Ok? <==> "inlinePolicies" in inputs && inputs["inlinePolicies"].typeSpec.items.Some?
    ensures r.Ok? ==>
      var inputs := InputPropertiesOf(awsResources);
      && r.value.Keys == inputs.Keys - {"assumeRolePolicy"} + {"policyArns"}
      && r.value["policyArns"] == PolicyArnsProperty
      && (forall k :: k in inputs && k !in {"assumeRolePolicy", "inlinePolicies", "policyArns"} ==> r.value[k] == inputs[k])
      && var items := inputs["inlinePolicies"].typeSpec.items.value;
         r.value["inlinePolicies"] == inputs["inlinePolicies"].(typeSpec :=
           inputs["inlinePolicies"].typeSpec.(items := Some(items.(ref := AwsRef(items.ref)))))
  {
    var inputs := InputPropertiesOf(awsResources);
    if "inlinePolicies" !in inputs || inputs["inlinePolicies"].typeSpec.items.None? then Fail("nil dereference")
    else
      var inline := inputs["inlinePolicies"];
      var items := inline.typeSpec.items.value;
      var withInline := inline.(typeSpec := inline.typeSpec.(items := Some(items.(ref := AwsRef(items.ref)))));
      Ok((inputs - {"assumeRolePolicy"})["inlinePolicies" := withInline]["policyArns" := PolicyArnsProperty])
  }

  /** The loop copying a property map key by key into a new map. */
  method CopyProperties(properties: map<string, PropertySpec>) returns (copy: map<string, PropertySpec>)
    ensures copy == properties
  {
    copy := map[];
    var remaining := properties.Keys;
    while remaining != {}
      invariant remaining <= properties.Keys
      invariant copy.Keys == properties.Keys - remaining
      invariant forall k :: k in copy ==> copy[k] == properties[k]
      decreases remaining
    {
      var k :| k in remaining;
      copy := copy[k := properties[k]];
      remaining := remaining - {k};
    }
  }

  const RoleWithPolicyDescription: string := "The set of arguments for constructing a Role resource and Policy attachments."

  /**
   * `roleWithPolicyArgs`: copies the AWS role's input properties into a replacement
   * map, deletes `assumeRolePolicy`, resolves the inline policies' item
   * reference and adds `policyArns`; the result is an object type.
   */
  method RoleWithPolicyArgs(awsResources: map<string, ResourceSpec>) returns (r: Result<ComplexTypeSpec>)
    ensures RoleWithPolicyProperties(awsResources).Fail? <==> r.Fail?
    ensures r.Ok? ==> r.value == ComplexTypeSpec("object",
      RoleWithPolicyDescription,
      RoleWithPolicyProperties(awsResources).value)
  {
    var role := if RoleToken in awsResources then awsResources[RoleToken] else ResourceSpec(false, map[]);
    assert role.inputProperties == InputPropertiesOf(awsResources);
    var properties := CopyProperties(role.inputProperties);
    properties := properties - {"assumeRolePolicy"};
    if "inlinePolicies" !in properties || properties["inlinePolicies"].typeSpec.items.None? {
      return Fail("nil dereference");
    }
    var inline := properties["inlinePolicies"];
    var items := inline.typeSpec.items.value;
    properties := properties["inlinePolicies" := inline.(typeSpec := inline.typeSpec.(items := Some(items.(ref := AwsRef(items.ref)))))];
    properties := properties["policyArns" := PolicyArnsProperty];
    assert RoleWithPolicyProperties(awsResources) == Ok(properties);
    r := Ok(ComplexTypeSpec("object", RoleWithPolicyDescription, properties));
  }
}
