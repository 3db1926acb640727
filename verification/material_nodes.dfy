/**
  The three node kinds as one closed set of variants, and what each kind
  generates through each hook.

  Body code, the vertex-to-fragment block and the vertex-shader block are
  interfaces a class declares, so a kind that does not declare one yields
  `None` for it:
  - body code: Texture and Vector 1;
  - vertex-to-fragment block: Texture and World Pos;
  - vertex-shader block: Texture only.
  The property block and property usages are virtual methods every node
  has: Texture and Vector 1 override them, and World Pos inherits the base
  class's version, assumed to emit nothing.
 */
module MaterialNodes {

  import opened Wrappers
  import opened Graphing
  import opened Generation
  import TextureNodes
  import Vector1Nodes
  import WorldPosNodes

  datatype MaterialNode =
    | TextureNode(texture: TextureNodes.TextureNode)
    | Vector1Node(vector1: Vector1Nodes.Vector1Node)
    | WorldPosNode(worldPos: WorldPosNodes.WorldPosNode)

  function SlotsOf(n: MaterialNode): SlotMap
  {
    match n
    case TextureNode(t) => t.slots
    case Vector1Node(v) => v.slots
    case WorldPosNode(w) => w.slots
  }

  /** The ids a node keeps on a rebuild. */
  function ValidSlots(n: MaterialNode): seq<int>
  {
    match n
    case TextureNode(_) => TextureNodes.ValidSlots()
    case Vector1Node(_) => Vector1Nodes.ValidSlots()
    case WorldPosNode(_) => WorldPosNodes.ValidSlots()
  }

  /** Property nodes publish a material property. */
  predicate IsPropertyNode(n: MaterialNode)
  {
    n.TextureNode? || n.Vector1Node?
  }

  /**
    Rebuilds any node's slots: afterwards its slot ids are exactly its valid
    ids, every slot is stored under its own id, and the kind is unchanged.
   */
  function UpdateNodeAfterDeserialization(n: MaterialNode): (r: MaterialNode)
    ensures r.TextureNode? == n.TextureNode? && r.Vector1Node? == n.Vector1Node?
    ensures forall id :: id in SlotsOf(r) <==> id in ValidSlots(n)
    ensures WellKeyed(SlotsOf(r))
  {
    match n
    case TextureNode(t) => TextureNode(TextureNodes.UpdateNodeAfterDeserialization(t))
    case Vector1Node(v) => Vector1Node(Vector1Nodes.UpdateNodeAfterDeserialization(v))
    case WorldPosNode(w) => WorldPosNode(WorldPosNodes.UpdateNodeAfterDeserialization(w))
  }

  /** The material property type of a property node. */
  function PropertyTypeOf(n: MaterialNode): (r: Option<PropertyType>)
    ensures r.Some? <==> IsPropertyNode(n)
    ensures n.TextureNode? ==> r == Some(Texture2D)
    ensures n.Vector1Node? ==> r == Some(Float)
  {
    match n
    case TextureNode(t) => Some(TextureNodes.PropertyTypeOf(t))
    case Vector1Node(v) => Some(Vector1Nodes.PropertyTypeOf(v))
    case WorldPosNode(_) => None
  }

  /** The body-code hook: Texture's code when it has a UV input, Vector 1's constant when unpublished. */
  function GenerateNodeCode(ctx: Context, g: Graph, n: MaterialNode, mode: GenerationMode): (r: Option<seq<string>>)
    ensures r.Some? <==> !n.WorldPosNode?
    ensures n.TextureNode? ==> (r.value == [] <==> TextureNodes.ResolveUv(g, n.texture).None?)
    ensures n.Vector1Node? ==> (r.value == [] <==> n.vector1.exposed || ctx.isPreview(mode))
  {
    match n
    case TextureNode(t) => Some(TextureNodes.GenerateNodeCode(ctx, g, t, mode))
    case Vector1Node(v) => Some(Vector1Nodes.GenerateNodeCode(ctx, v, mode))
    case WorldPosNode(_) => None
  }

  /** The vertex-to-fragment hook: World Pos always declares its interpolant. */
  function GenerateVertexToFragmentBlock(ctx: Context, g: Graph, n: MaterialNode, mode: GenerationMode)
    : (r: Option<seq<string>>)
    ensures r.Some? <==> !n.Vector1Node?
    ensures n.WorldPosNode? ==> |r.value| == 1
  {
    match n
    case TextureNode(t) => Some(TextureNodes.GenerateVertexToFragmentBlock(ctx, g, t, mode))
    case Vector1Node(_) => None
    case WorldPosNode(w) => Some(WorldPosNodes.GenerateVertexToFragmentBlock(ctx, w, mode))
  }

  /** The vertex-shader hook. */
  function GenerateVertexShaderBlock(ctx: Context, g: Graph, n: MaterialNode, mode: GenerationMode)
    : (r: Option<seq<string>>)
    ensures r.Some? <==> n.TextureNode?
  {
    match n
    case TextureNode(t) => Some(TextureNodes.GenerateVertexShaderBlock(ctx, g, t, mode))
    case _ => None
  }

  /**
    The property-block hook: a Texture node always publishes one property, a
    Vector 1 node one exactly when exposed, a World Pos node none.
   */
  function GeneratePropertyBlock(ctx: Context, n: MaterialNode, mode: GenerationMode): (r: seq<PropertyChunk>)
    ensures |r| <= 1
    ensures r != [] <==> n.TextureNode? || (n.Vector1Node? && n.vector1.exposed)
  {
    match n
    case TextureNode(t) => TextureNodes.GeneratePropertyBlock(ctx, t, mode)
    case Vector1Node(v) => Vector1Nodes.GeneratePropertyBlock(ctx, v, mode)
    case WorldPosNode(_) => []
  }

  /**
    The property-usages hook: a Texture node always declares its sampler, a
    Vector 1 node its uniform when exposed or previewing, a World Pos node
    nothing.
   */
  function GeneratePropertyUsages(ctx: Context, n: MaterialNode, mode: GenerationMode): (r: seq<string>)
    ensures |r| <= 1
    ensures r != [] <==> n.TextureNode? || (n.Vector1Node? && (n.vector1.exposed || ctx.isPreview(mode)))
  {
    match n
    case TextureNode(t) => TextureNodes.GeneratePropertyUsages(ctx, t, mode)
    case Vector1Node(v) => Vector1Nodes.GeneratePropertyUsages(ctx, v, mode)
    case WorldPosNode(_) => []
  }

  /**
    Every material property a node publishes is backed by a shader symbol:
    the usages declare the name of each published property chunk.
   */
  lemma PublishedPropertiesAreDeclared(ctx: Context, n: MaterialNode, mode: GenerationMode)
    ensures forall c :: c in GeneratePropertyBlock(ctx, n, mode) ==>
              DeclaresIn(GeneratePropertyUsages(ctx, n, mode), c.name)
  {
    assert IsInitializer("");
    match n
    case TextureNode(t) =>
      var u := TextureNodes.GeneratePropertyUsages(ctx, t, mode);
      assert IsDeclarationOf(u[0], ctx.propertyName(t.guid, t.exposed));
    case Vector1Node(v) =>
      var u := Vector1Nodes.GeneratePropertyUsages(ctx, v, mode);
      if Vector1Nodes.GeneratePropertyBlock(ctx, v, mode) != [] {
        assert u[0] == Declaration("float", ctx.propertyName(v.guid, v.exposed), "");
        assert IsDeclarationOf(u[0], ctx.propertyName(v.guid, v.exposed));
      }
    case WorldPosNode(_) =>
  }
}
