/**
  The Texture property node: samples a texture at a UV that is either wired
  into its UV input or, when unwired, taken from the mesh's first UV channel,
  and exposes the sample as RGBA plus one scalar output per channel.
 */
module TextureNodes {

  import opened Wrappers
  import opened Graphing
  import opened Generation

  const UvSlotId: int := 0
  const OutputSlotRgbaId: int := 1
  const OutputSlotRId: int := 2
  const OutputSlotGId: int := 3
  const OutputSlotBId: int := 4
  const OutputSlotAId: int := 5

  /** The UV the node samples at when nothing is wired into its UV input. */
  const MeshUv: string := "IN.meshUV0.xy"

  datatype TextureNode = TextureNode(
    guid: Guid,
    name: string,
    slots: SlotMap,
    exposed: bool,
    textureType: TextureType,
    texture: TextureToken)

  /** The slots the node adds on every rebuild, in the order it adds them. */
  function DeclaredSlots(): seq<Slot>
  {
    [ Slot(OutputSlotRgbaId, "RGBA", Output, Vector4),
      Slot(OutputSlotRId, "R", Output, Vector1),
      Slot(OutputSlotGId, "G", Output, Vector1),
      Slot(OutputSlotBId, "B", Output, Vector1),
      Slot(OutputSlotAId, "A", Output, Vector1),
      Slot(UvSlotId, "UV", Input, Vector2) ]
  }

  /** The ids that survive a rebuild (`validSlots`): the declared slots' ids, in the same order. */
  function ValidSlots(): (r: seq<int>)
    ensures ListsIds(r, DeclaredSlots())
  {
    [OutputSlotRgbaId, OutputSlotRId, OutputSlotGId, OutputSlotBId, OutputSlotAId, UvSlotId]
  }

  /**
    The slot set every rebuild ends with: UV (0) the only input, a Vector2;
    RGBA (1) a Vector4 output; R, G, B, A (2 to 5) Vector1 outputs.
   */
  const RebuiltSlotMap: SlotMap :=
    map[ 0 := Slot(0, "UV", Input, Vector2),
         1 := Slot(1, "RGBA", Output, Vector4),
         2 := Slot(2, "R", Output, Vector1),
         3 := Slot(3, "G", Output, Vector1),
         4 := Slot(4, "B", Output, Vector1),
         5 := Slot(5, "A", Output, Vector1) ]

  lemma DeclaredSlotsWellFormed()
    ensures DistinctIds(DeclaredSlots())
    ensures ListsIds(ValidSlots(), DeclaredSlots())
  {
  }

  /** Whatever the prior slots, adding the declared slots and pruning to the valid ids yields exactly them. */
  lemma RebuiltSlots(m: SlotMap)
    ensures UpdateSlots(m, DeclaredSlots(), ValidSlots()) == RebuiltSlotMap
  {
    RebuiltKeys(m);
    RebuiltEntries(m);
    SlotMapIsRebuilt(UpdateSlots(m, DeclaredSlots(), ValidSlots()));
  }

  lemma RebuiltKeys(m: SlotMap)
    ensures UpdateSlots(m, DeclaredSlots(), ValidSlots()).Keys == RebuiltSlotMap.Keys
  {
    RebuiltKeysValid(m);
    assert ValidSlots() == [1, 2, 3, 4, 5, 0];
  }

  lemma RebuiltKeysValid(m: SlotMap)
    ensures forall id :: id in UpdateSlots(m, DeclaredSlots(), ValidSlots()) <==> id in ValidSlots()
    ensures DistinctIds(DeclaredSlots()) && ListsIds(ValidSlots(), DeclaredSlots())
  {
    DeclaredSlotsWellFormed();
    UpdateSlotsExact(m, DeclaredSlots(), ValidSlots());
  }

  lemma RebuiltEntries(m: SlotMap)
    ensures var r := UpdateSlots(m, DeclaredSlots(), ValidSlots());
            && r[0] == Slot(0, "UV", Input, Vector2) && r[1] == Slot(1, "RGBA", Output, Vector4)
            && r[2] == Slot(2, "R", Output, Vector1) && r[3] == Slot(3, "G", Output, Vector1)
            && r[4] == Slot(4, "B", Output, Vector1) && r[5] == Slot(5, "A", Output, Vector1)
  {
    DeclaredSlotsWellFormed();
    UpdateSlotsExact(m, DeclaredSlots(), ValidSlots());
    var r := UpdateSlots(m, DeclaredSlots(), ValidSlots());
    var d := DeclaredSlots();
    assert r[d[0].id] == d[0] && r[d[1].id] == d[1] && r[d[2].id] == d[2];
    assert r[d[3].id] == d[3] && r[d[4].id] == d[4] && r[d[5].id] == d[5];
  }

  /** Six matching entries and no other key make the rebuilt slot map. */
  lemma SlotMapIsRebuilt(r: SlotMap)
    requires r.Keys == RebuiltSlotMap.Keys
    requires r[0] == Slot(0, "UV", Input, Vector2) && r[1] == Slot(1, "RGBA", Output, Vector4)
    requires r[2] == Slot(2, "R", Output, Vector1) && r[3] == Slot(3, "G", Output, Vector1)
    requires r[4] == Slot(4, "B", Output, Vector1) && r[5] == Slot(5, "A", Output, Vector1)
    ensures r == RebuiltSlotMap
  {
  }

  /**
    Rebuilds the slot set: exactly ids 0 to 5, where 0 (UV) is the only input
    and a Vector2, 1 (RGBA) is a Vector4 output, and 2 to 5 (R, G, B, A) are
    Vector1 outputs. Nothing but the slots changes.
   */
  function UpdateNodeAfterDeserialization(n: TextureNode): (r: TextureNode)
    ensures r.slots == RebuiltSlotMap
    ensures forall id :: id in r.slots <==> id in ValidSlots()
    ensures WellKeyed(r.slots)
    ensures r == n.(slots := r.slots)
  {
    RebuiltSlots(n.slots);
    RebuiltKeysValid(n.slots);
    UpdateSlotsExact(n.slots, DeclaredSlots(), ValidSlots());
    n.(slots := UpdateSlots(n.slots, DeclaredSlots(), ValidSlots()))
  }

  /** Rebuilding twice is rebuilding once; the prior slots never matter. */
  lemma RebuildIdempotent(n: TextureNode, m: SlotMap)
    ensures UpdateNodeAfterDeserialization(UpdateNodeAfterDeserialization(n))
            == UpdateNodeAfterDeserialization(n)
    ensures UpdateNodeAfterDeserialization(n.(slots := m)).slots
            == UpdateNodeAfterDeserialization(n).slots
  {
    RebuiltSlots(n.slots);
    RebuiltSlots(m);
    RebuiltSlots(RebuiltSlotMap);
  }

  /** A freshly constructed node: named "Texture", slots rebuilt from none. */
  function New(guid: Guid, exposed: bool, textureType: TextureType, texture: TextureToken): (r: TextureNode)
    ensures r.guid == guid && r.exposed == exposed && r.textureType == textureType && r.texture == texture
    ensures r.name == "Texture"
    ensures r.slots == RebuiltSlotMap
    ensures FindInputSlot(r.slots, UvSlotId) == Some(Slot(UvSlotId, "UV", Input, Vector2))
  {
    UpdateNodeAfterDeserialization(TextureNode(guid, "Texture", map[], exposed, textureType, texture))
  }

  function PropertyTypeOf(n: TextureNode): (r: PropertyType)
    ensures r == Texture2D
  {
    Texture2D
  }

  function HasPreview(n: TextureNode): (r: bool)
    ensures r
  {
    true
  }

  /** The `textureType` setter: only the texture type changes. */
  function SetTextureType(n: TextureNode, t: TextureType): (r: TextureNode)
    ensures r.textureType == t
    ensures r.(textureType := n.textureType) == n
  {
    n.(textureType := t)
  }

  /**
    The swizzle of an output slot: the node variable for RGBA, the UV slot and
    any other id, and that variable with `.r`, `.g`, `.b` or `.a` appended for
    the R, G, B and A slots.
   */
  function GetVariableNameForSlot(ctx: Context, n: TextureNode, slotId: int): (r: string)
    ensures 2 <= slotId <= 5 ==> r == ctx.variableName(n.guid) + ['.', "rgba"[slotId - 2]]
    ensures !(2 <= slotId <= 5) ==> r == ctx.variableName(n.guid)
  {
    var slotOutput :=
      match slotId
      case 2 => ".r"
      case 3 => ".g"
      case 4 => ".b"
      case 5 => ".a"
      case _ => "";
    ctx.variableName(n.guid) + slotOutput
  }

  /** ASCII upper case to lower case; other characters unchanged. */
  function LowerAscii(c: char): char
  {
    if 'A' <= c <= 'Z' then (c as int + 32) as char else c
  }

  /**
    On the rebuilt slots, a slot's variable is swizzled exactly when the slot
    is a scalar output, and the swizzle is the slot's own channel name in
    lower case.
   */
  lemma SwizzleFollowsSlots(ctx: Context, n: TextureNode, id: int)
    requires id in RebuiltSlotMap
    ensures GetVariableNameForSlot(ctx, n, id) != ctx.variableName(n.guid)
            <==> RebuiltSlotMap[id].valueType == Vector1 && RebuiltSlotMap[id].slotType == Output
    ensures RebuiltSlotMap[id].valueType == Vector1 ==>
              GetVariableNameForSlot(ctx, n, id)
              == ctx.variableName(n.guid) + "." + [LowerAscii(RebuiltSlotMap[id].name[0])]
  {
    var base := ctx.variableName(n.guid);
    if id == 0 || id == 1 {
      assert GetVariableNameForSlot(ctx, n, id) == base;
    } else {
      assert 2 <= id <= 5;
      assert GetVariableNameForSlot(ctx, n, id) != base by {
        assert |GetVariableNameForSlot(ctx, n, id)| == |base| + 2;
      }
    }
  }

  /** Distinct channel slots read distinct variables. */
  lemma ChannelVariablesDistinct(ctx: Context, n: TextureNode, id: int, other: int)
    requires 2 <= id <= 5 && 2 <= other <= 5 && id != other
    ensures GetVariableNameForSlot(ctx, n, id) != GetVariableNameForSlot(ctx, n, other)
  {
    var base := ctx.variableName(n.guid);
    assert GetVariableNameForSlot(ctx, n, id)[|base| + 1] == "rgba"[id - 2];
    assert GetVariableNameForSlot(ctx, n, other)[|base| + 1] == "rgba"[other - 2];
  }

  /** Where the sampled UV comes from. */
  datatype UvSource = MeshChannel | Wired(from: SlotReference)

  /**
    Reference reading of the UV input: absent when the node has no UV input
    slot, the mesh channel when the slot has no edges, otherwise the output
    slot at the far end of its first edge.
   */
  function ResolveUv(g: Graph, n: TextureNode): (r: Option<UvSource>)
    ensures r.None? <==> UvSlotId !in n.slots || n.slots[UvSlotId].id != UvSlotId
                         || n.slots[UvSlotId].slotType != Input
    ensures r.Some? ==>
              var edges := g.getEdges(SlotReference(n.guid, UvSlotId));
              && (r.value == MeshChannel <==> edges == [])
              && (edges != [] ==> r.value == Wired(edges[0].outputSlot))
  {
    match FindInputSlot(n.slots, UvSlotId)
    case None => None
    case Some(uvSlot) =>
      var edges := g.getEdges(SlotRef(n.guid, uvSlot));
      if edges == [] then Some(MeshChannel) else Some(Wired(edges[0].outputSlot))
  }

  /** The shader expression of a UV source: the mesh UV, or the wired source adapted to a Vector2. */
  function UvExpression(g: Graph, src: UvSource): (r: string)
    ensures src == MeshChannel ==> r == MeshUv
    ensures src.Wired? ==> r == g.adaptToVector2(src.from)
  {
    match src
    case MeshChannel => MeshUv
    case Wired(from) => g.adaptToVector2(from)
  }

  /** The sample expression at `uv`, unpacked as a normal for bump textures. */
  function Sample(ctx: Context, n: TextureNode, uv: string): (r: string)
    ensures n.textureType != Bump ==> r == "tex2D (" + ctx.propertyName(n.guid, n.exposed) + ", " + uv + ")"
    ensures n.textureType == Bump ==>
              r == ctx.precision(n.guid) + "4(UnpackNormal(tex2D (" + ctx.propertyName(n.guid, n.exposed)
                   + ", " + uv + ")), 0)"
  {
    var body := "tex2D (" + ctx.propertyName(n.guid, n.exposed) + ", " + uv + ")";
    if n.textureType == Bump then ctx.precision(n.guid) + "4(UnpackNormal(" + body + "), 0)" else body
  }

  /** A bump texture wraps exactly the plain sample in a normal unpack. */
  lemma BumpWrapsPlainSample(ctx: Context, n: TextureNode, uv: string)
    requires n.textureType != Bump
    ensures Sample(ctx, n.(textureType := Bump), uv)
            == ctx.precision(n.guid) + "4(UnpackNormal(" + Sample(ctx, n, uv) + "), 0)"
  {
  }

  /**
    Nothing without a UV input slot; otherwise one declaration
    `float4 <var> = <sample>;` sampling at the mesh UV when the slot is
    unwired and at the first edge's source adapted to a Vector2 when wired.
   */
  function GenerateNodeCode(ctx: Context, g: Graph, n: TextureNode, mode: GenerationMode): (r: seq<string>)
    ensures ResolveUv(g, n).None? <==> r == []
    ensures ResolveUv(g, n).Some? ==>
              |r| == 1 && r[0] == Declaration("float4", ctx.variableName(n.guid),
                                              " = " + Sample(ctx, n, UvExpression(g, ResolveUv(g, n).value)))
  {
    match FindInputSlot(n.slots, UvSlotId)
    case None => []
    case Some(uvSlot) =>
      var edges := g.getEdges(SlotRef(n.guid, uvSlot));
      var uvName := if |edges| > 0 then g.adaptToVector2(edges[0].outputSlot) else MeshUv;
      var body := "tex2D (" + ctx.propertyName(n.guid, n.exposed) + ", " + uvName + ")";
      var body' := if n.textureType == Bump then ctx.precision(n.guid) + "4(UnpackNormal(" + body + "), 0)" else body;
      ["float4 " + ctx.variableName(n.guid) + " = " + body' + ";"]
  }

  /** The UV interpolant, only when the UV slot exists and is unwired. */
  function GenerateVertexToFragmentBlock(ctx: Context, g: Graph, n: TextureNode, mode: GenerationMode): (r: seq<string>)
    ensures r == (if ResolveUv(g, n) == Some(MeshChannel) then ctx.uvVertexToFragment(mode) else [])
  {
    match FindInputSlot(n.slots, UvSlotId)
    case None => []
    case Some(uvSlot) =>
      var edges := g.getEdges(SlotRef(n.guid, uvSlot));
      if |edges| == 0 then ctx.uvVertexToFragment(mode) else []
  }

  /** The UV vertex-shader code, only when the UV slot exists and is unwired. */
  function GenerateVertexShaderBlock(ctx: Context, g: Graph, n: TextureNode, mode: GenerationMode): (r: seq<string>)
    ensures r == (if ResolveUv(g, n) == Some(MeshChannel) then ctx.uvVertexShader else [])
  {
    match FindInputSlot(n.slots, UvSlotId)
    case None => []
    case Some(uvSlot) =>
      var edges := g.getEdges(SlotRef(n.guid, uvSlot));
      if |edges| == 0 then ctx.uvVertexShader else []
  }

  /**
    The vertex stage carries the mesh UV only for a node whose body samples at
    the mesh UV; a node whose UV is wired samples at its first edge and adds
    nothing to either vertex block.
   */
  lemma InterpolantOnlyForMeshUv(ctx: Context, g: Graph, n: TextureNode, mode: GenerationMode)
    ensures GenerateVertexToFragmentBlock(ctx, g, n, mode) != [] || GenerateVertexShaderBlock(ctx, g, n, mode) != []
            ==> GenerateNodeCode(ctx, g, n, mode)
                == ["float4 " + ctx.variableName(n.guid) + " = " + Sample(ctx, n, MeshUv) + ";"]
    ensures ResolveUv(g, n).Some? && ResolveUv(g, n).value.Wired? ==>
              && GenerateVertexToFragmentBlock(ctx, g, n, mode) == []
              && GenerateVertexShaderBlock(ctx, g, n, mode) == []
              && GenerateNodeCode(ctx, g, n, mode)
                 == ["float4 " + ctx.variableName(n.guid) + " = "
                     + Sample(ctx, n, g.adaptToVector2(ResolveUv(g, n).value.from)) + ";"]
  {
  }

  /**
    The generated body depends on the graph only through the UV's first edge
    and the adapted output of the node at that edge's source, and on the node
    only through its guid, texture type and property name: not on the mode,
    and not on the exposed flag except through the property name.
   */
  lemma NodeCodeDependsOnFirstEdgeOnly(ctx: Context, g1: Graph, g2: Graph, n1: TextureNode, n2: TextureNode,
                                       m1: GenerationMode, m2: GenerationMode)
    requires n1.guid == n2.guid && n1.textureType == n2.textureType
    requires ctx.propertyName(n1.guid, n1.exposed) == ctx.propertyName(n2.guid, n2.exposed)
    requires ResolveUv(g1, n1) == ResolveUv(g2, n2)
    requires ResolveUv(g1, n1).Some? && ResolveUv(g1, n1).value.Wired? ==>
               var from := ResolveUv(g1, n1).value.from;
               g1.adaptToVector2(from) == g2.adaptToVector2(from)
    ensures GenerateNodeCode(ctx, g1, n1, m1) == GenerateNodeCode(ctx, g2, n2, m2)
  {
  }

  /** Text around equal context is equal only when the texts in between are. */
  lemma {:induction false} InfixDetermined(p: string, a: string, b: string, q: string)
    requires p + a + q == p + b + q
    ensures a == b
  {
    assert |a| == |b|;
    forall i | 0 <= i < |a|
      ensures a[i] == b[i]
    {
      assert (p + a + q)[|p| + i] == a[i];
      assert (p + b + q)[|p| + i] == b[i];
    }
  }

  /** The text of a sample before its UV. */
  function SamplePrefix(ctx: Context, n: TextureNode): string
  {
    (if n.textureType == Bump then ctx.precision(n.guid) + "4(UnpackNormal(" else "")
    + "tex2D (" + ctx.propertyName(n.guid, n.exposed) + ", "
  }

  /** The text of a sample after its UV. */
  function SampleSuffix(n: TextureNode): string
  {
    if n.textureType == Bump then ")), 0)" else ")"
  }

  /** A sample is its UV between a prefix and a suffix that do not depend on the UV. */
  lemma SampleAroundUv(ctx: Context, n: TextureNode, uv: string)
    ensures Sample(ctx, n, uv) == SamplePrefix(ctx, n) + uv + SampleSuffix(n)
  {
  }

  /**
    The adapted output at the first edge's source reaches the body text: two
    graphs with the same first edge whose nodes adapt that output differently
    give different body code.
   */
  lemma NodeCodeReadsAdaptedSource(ctx: Context, g1: Graph, g2: Graph, n: TextureNode, mode: GenerationMode)
    requires ResolveUv(g1, n) == ResolveUv(g2, n)
    requires ResolveUv(g1, n).Some? && ResolveUv(g1, n).value.Wired?
    requires g1.adaptToVector2(ResolveUv(g1, n).value.from) != g2.adaptToVector2(ResolveUv(g1, n).value.from)
    ensures GenerateNodeCode(ctx, g1, n, mode) != GenerateNodeCode(ctx, g2, n, mode)
  {
    var from := ResolveUv(g1, n).value.from;
    var uv1 := g1.adaptToVector2(from);
    var uv2 := g2.adaptToVector2(from);
    var head := "float4 " + ctx.variableName(n.guid) + " = ";
    var pre := head + SamplePrefix(ctx, n);
    var post := SampleSuffix(n) + ";";
    CodeAroundUv(ctx, g1, n, mode, uv1);
    CodeAroundUv(ctx, g2, n, mode, uv2);
    if GenerateNodeCode(ctx, g1, n, mode) == GenerateNodeCode(ctx, g2, n, mode) {
      InfixDetermined(pre, uv1, uv2, post);
    }
  }

  /** The body chunk of a node with a UV input is its sampled UV between a fixed head and tail. */
  lemma CodeAroundUv(ctx: Context, g: Graph, n: TextureNode, mode: GenerationMode, uv: string)
    requires ResolveUv(g, n).Some? && uv == UvExpression(g, ResolveUv(g, n).value)
    ensures GenerateNodeCode(ctx, g, n, mode)
            == [("float4 " + ctx.variableName(n.guid) + " = " + SamplePrefix(ctx, n)) + uv + (SampleSuffix(n) + ";")]
  {
    var head := "float4 " + ctx.variableName(n.guid) + " = ";
    SampleAroundUv(ctx, n, uv);
    assert GenerateNodeCode(ctx, g, n, mode)[0] == head + Sample(ctx, n, uv) + ";";
    assert head + (SamplePrefix(ctx, n) + uv + SampleSuffix(n)) + ";"
           == (head + SamplePrefix(ctx, n)) + uv + (SampleSuffix(n) + ";");
  }

  /** One texture material property carrying the node's exposed flag and texture type. */
  function GeneratePropertyBlock(ctx: Context, n: TextureNode, mode: GenerationMode): (r: seq<PropertyChunk>)
    ensures |r| == 1
    ensures r[0].TextureProperty?
    ensures r[0].name == ctx.propertyName(n.guid, n.exposed)
    ensures r[0].description == ctx.description(n.guid, n.exposed)
    ensures r[0].exposed == n.exposed && r[0].textureType == n.textureType
    ensures r[0].defaultTexture == n.texture && !r[0].hidden
  {
    [TextureProperty(ctx.propertyName(n.guid, n.exposed), ctx.description(n.guid, n.exposed),
                     n.texture, n.textureType, false, n.exposed)]
  }

  /** The sampler `sampler2D <propertyName>;`, in every mode. */
  function GeneratePropertyUsages(ctx: Context, n: TextureNode, mode: GenerationMode): (r: seq<string>)
    ensures |r| == 1 && r[0] == Declaration("sampler2D", ctx.propertyName(n.guid, n.exposed), "")
  {
    ["sampler2D " + ctx.propertyName(n.guid, n.exposed) + ";"]
  }

  /**
    The sampler the body code reads is the one the property usages declare,
    and the usages are the same in every mode.
   */
  lemma SamplerDeclaredForBody(ctx: Context, g: Graph, n: TextureNode, mode: GenerationMode)
    ensures DeclaresIn(GeneratePropertyUsages(ctx, n, mode), ctx.propertyName(n.guid, n.exposed))
    ensures GeneratePropertyUsages(ctx, n, mode) == GeneratePropertyUsages(ctx, n, ForReals)
    ensures GenerateNodeCode(ctx, g, n, mode) != [] ==>
              exists uv :: GenerateNodeCode(ctx, g, n, mode)[0]
                           == "float4 " + ctx.variableName(n.guid) + " = " + Sample(ctx, n, uv) + ";"
  {
    var usages := GeneratePropertyUsages(ctx, n, mode);
    assert IsInitializer("");
    assert IsDeclarationOf(usages[0], ctx.propertyName(n.guid, n.exposed));
    if GenerateNodeCode(ctx, g, n, mode) != [] {
      var uv := UvExpression(g, ResolveUv(g, n).value);
      assert GenerateNodeCode(ctx, g, n, mode)[0]
             == "float4 " + ctx.variableName(n.guid) + " = " + Sample(ctx, n, uv) + ";";
    }
  }
}
