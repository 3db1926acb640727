# Material Graph node code generation, modelled in Dafny

This project models the per-node shader code-generation contracts of three
runtime nodes of the Unity Material Graph: the Texture node, the Vector 1
node and the World Pos node. Each node

- rebuilds its slot set from a fixed list of valid slot ids
  (`UpdateNodeAfterDeserialization`);
- maps slot ids to shader variable names, with `.r`/`.g`/`.b`/`.a` swizzles
  on the Texture node's channel outputs (`GetVariableNameForSlot`);
- decides which shader text chunks to emit into each generator block
  (`GenerateNodeCode`, `GenerateVertexToFragmentBlock`,
  `GenerateVertexShaderBlock`, `GeneratePropertyBlock`,
  `GeneratePropertyUsages`), from the `exposed` flag, the generation mode, the
  texture type and the edges on the UV input.

Every generator is a pure function returning the sequence of chunks it
appends to its sink, so generating twice from the same inputs yields the same
text by construction.

The two property nodes treat the `exposed` flag differently.
`TextureNode.GeneratePropertyBlock` emits its texture property whether or not
the node is exposed, and passes the flag inside the chunk. `Vector1Node`
emits its float property only when exposed.

Modules:

- `Wrappers` (`wrappers.dfy`): `Option`.
- `Graphing` (`graphing.dfy`): slots, slot references, edges, the graph
  reduced to what a node asks of it, and the slot map with the ASSUMED
  semantics of the base-class operations: `AddSlot` inserts or replaces a
  slot by id; `RemoveSlotsNameNotMatching` keeps exactly the slots whose id
  is valid; `FindInputSlot` returns the slot with that id when it is an input
  slot. The rebuild lemmas are proved from these assumptions. A node asks
  its graph for two things: the edges at a slot reference (`GetEdges`), and
  the Vector2 adaptation of an edge's source output
  (`ShaderGenerator.AdaptNodeOutput` of the node `GetNodeFromGuid` finds).
  Both are uninterpreted functions held by the graph, so the adaptation
  depends on the graph's nodes as well as on the slot reference.
- `Generation` (`generation.dfy`): the generation mode, property chunks, and
  a `Context` record holding, as uninterpreted function values, every
  collaborator whose definition lies outside the three node files:
  `precision`, `propertyName`, `description`, `GetVariableNameForNode()`,
  `GenerationMode.IsPreview()`, the UV node's static
  vertex-to-fragment and vertex-shader generators, and the rendering of a
  float into shader text. Also the shape of a shader declaration
  (`<type> <name>;` or `<type> <name> = <value>;`) used to state what a chunk
  declares.
- `TextureNodes`, `Vector1Nodes`, `WorldPosNodes`: one module per node file.
- `MaterialNodes` (`material_nodes.dfy`): the three nodes as one closed set
  of variants, and what each kind generates through each hook. Body code,
  the vertex-to-fragment block and the vertex-shader block are interfaces a
  class declares, so a kind without one yields `None`. The property block and
  usages are virtual methods: Texture and Vector 1 override them, and World
  Pos inherits the base class's version, assumed to emit nothing.

## Model

| member | source | states |
|---|---|---|
| Graphing.AddSlot | MaterialGraphProject/Assets/UnityShaderEditor/Runtime/Nodes/TextureNode.cs:83-89 | (assumed) the slot is stored under its id, replacing any previous slot with that id; other ids are untouched |
| Graphing.RemoveSlotsNameNotMatching | MaterialGraphProject/Assets/UnityShaderEditor/Runtime/Nodes/TextureNode.cs:90 | (assumed) exactly the slots whose id is valid remain, with their contents unchanged |
| Graphing.UpdateSlotsExact | MaterialGraphProject/Assets/UnityShaderEditor/Runtime/Nodes/TextureNode.cs:81-96 | when the valid list names exactly the declared slots, a rebuild leaves exactly the declared slots, each under its own id, whatever the node had before |
| Graphing.UpdateSlotsForgetsPrior | MaterialGraphProject/Assets/UnityShaderEditor/Runtime/Nodes/TextureNode.cs:81-96 | a rebuild does not depend on the prior slots, and rebuilding twice equals rebuilding once |
| Graphing.FindInputSlot | MaterialGraphProject/Assets/UnityShaderEditor/Runtime/Nodes/TextureNode.cs:101-103 | (assumed) the UV lookup finds a slot exactly when a slot carrying that id is present and is an input slot |
| TextureNodes.UpdateNodeAfterDeserialization | MaterialGraphProject/Assets/UnityShaderEditor/Runtime/Nodes/TextureNode.cs:81-91 | whatever the prior slots, the slots become exactly: UV (0) the only input, a Vector2; RGBA (1) a Vector4 output; R, G, B, A (2-5) Vector1 outputs; every slot under its own id, and no field other than the slots changes |
| TextureNodes.ValidSlots | MaterialGraphProject/Assets/UnityShaderEditor/Runtime/Nodes/TextureNode.cs:93-96 | the valid ids are the ids of the declared slots, one for one and in the order the slots are added |
| TextureNodes.RebuildIdempotent | MaterialGraphProject/Assets/UnityShaderEditor/Runtime/Nodes/TextureNode.cs:81-96 | rebuilding a rebuilt node changes nothing; the prior slots never affect the result |
| TextureNodes.New | MaterialGraphProject/Assets/UnityShaderEditor/Runtime/Nodes/TextureNode.cs:75-79 | a new node is named "Texture" and its slots are exactly the six rebuilt slots (UV input Vector2 under 0, RGBA Vector4 output under 1, R, G, B, A Vector1 outputs under 2-5); its UV input slot is found |
| TextureNodes.PropertyTypeOf | MaterialGraphProject/Assets/UnityShaderEditor/Runtime/Nodes/TextureNode.cs:209 | the property type is Texture2D |
| TextureNodes.HasPreview | MaterialGraphProject/Assets/UnityShaderEditor/Runtime/Nodes/TextureNode.cs:32 | the node always has a preview |
| TextureNodes.SetTextureType | MaterialGraphProject/Assets/UnityShaderEditor/Runtime/Nodes/TextureNode.cs:69-73 | setting the texture type changes it and nothing else |
| TextureNodes.GetVariableNameForSlot | MaterialGraphProject/Assets/UnityShaderEditor/Runtime/Nodes/TextureNode.cs:123-145 | ids 2-5 give the node variable followed by `.` and the id's letter of "rgba"; every other id, RGBA and UV included, gives the bare node variable |
| TextureNodes.SwizzleFollowsSlots | MaterialGraphProject/Assets/UnityShaderEditor/Runtime/Nodes/TextureNode.cs:123-145 | among the rebuilt slots, a variable is swizzled exactly when its slot is a scalar output, and the swizzle is that slot's channel name in lower case |
| TextureNodes.ChannelVariablesDistinct | MaterialGraphProject/Assets/UnityShaderEditor/Runtime/Nodes/TextureNode.cs:128-139 | two different channel slots never read the same variable |
| TextureNodes.ResolveUv | MaterialGraphProject/Assets/UnityShaderEditor/Runtime/Nodes/TextureNode.cs:101-115 | no UV source without a UV input slot; otherwise the mesh channel exactly when the UV slot has no edges, and the output slot of its first edge when it has some |
| TextureNodes.UvExpression | MaterialGraphProject/Assets/UnityShaderEditor/Runtime/Nodes/TextureNode.cs:105-113 | the mesh channel reads `IN.meshUV0.xy`; a wired UV reads the graph's Vector2 adaptation of the edge's source output |
| TextureNodes.Sample | MaterialGraphProject/Assets/UnityShaderEditor/Runtime/Nodes/TextureNode.cs:117-119 | a non-Bump texture samples as `tex2D (<propertyName>, <uv>)`; a Bump texture wraps that sample as `<precision>4(UnpackNormal(...), 0)` |
| TextureNodes.GenerateNodeCode | MaterialGraphProject/Assets/UnityShaderEditor/Runtime/Nodes/TextureNode.cs:99-121 | nothing exactly when the UV input slot is absent; otherwise exactly one declaration `float4 <var> = <sample>;` sampling at the resolved UV |
| TextureNodes.BumpWrapsPlainSample | MaterialGraphProject/Assets/UnityShaderEditor/Runtime/Nodes/TextureNode.cs:117-119 | a Bump texture's sample is the plain `tex2D` sample wrapped in `<precision>4(UnpackNormal(...), 0)` |
| TextureNodes.NodeCodeDependsOnFirstEdgeOnly | MaterialGraphProject/Assets/UnityShaderEditor/Runtime/Nodes/TextureNode.cs:99-121 | two nodes with the same guid, texture type and property name give the same body code in any two modes when their graphs agree on the UV source (no edges, or the same first edge) and, for a wired UV, on the adapted output at that edge's source |
| TextureNodes.NodeCodeReadsAdaptedSource | MaterialGraphProject/Assets/UnityShaderEditor/Runtime/Nodes/TextureNode.cs:107-120 | with the same first edge, two graphs whose nodes adapt that edge's source output differently give different body code |
| TextureNodes.GenerateVertexToFragmentBlock | MaterialGraphProject/Assets/UnityShaderEditor/Runtime/Nodes/TextureNode.cs:147-156 | the UV node's interpolant chunks exactly when the UV source is the mesh channel; nothing when the slot is absent or wired |
| TextureNodes.GenerateVertexShaderBlock | MaterialGraphProject/Assets/UnityShaderEditor/Runtime/Nodes/TextureNode.cs:158-167 | the UV node's vertex-shader chunks exactly when the UV source is the mesh channel; nothing otherwise |
| TextureNodes.InterpolantOnlyForMeshUv | MaterialGraphProject/Assets/UnityShaderEditor/Runtime/Nodes/TextureNode.cs:147-167 | whenever a vertex block is emitted the body samples at `IN.meshUV0.xy`; when the UV is wired, both vertex blocks are empty and the body samples at the first edge's adapted output |
| TextureNodes.GeneratePropertyBlock | MaterialGraphProject/Assets/UnityShaderEditor/Runtime/Nodes/TextureNode.cs:170-173 | exactly one texture property, not gated on `exposed`, carrying the property name, description, texture, texture type, the exposed flag, and the literal `false` flag |
| TextureNodes.GeneratePropertyUsages | MaterialGraphProject/Assets/UnityShaderEditor/Runtime/Nodes/TextureNode.cs:175-178 | exactly one chunk, the declaration `sampler2D <propertyName>;` |
| TextureNodes.SamplerDeclaredForBody | MaterialGraphProject/Assets/UnityShaderEditor/Runtime/Nodes/TextureNode.cs:117-178 | the usages declare the property name that the body's sample reads, and the usages are the same in every mode |
| Vector1Nodes.UpdateNodeAfterDeserialization | MaterialGraphProject/Assets/UnityShaderEditor/Runtime/Nodes/Vector1Node.cs:20-24 | the slot set is exactly one Vector1 output named "Value" under id 0; nothing else changes |
| Vector1Nodes.New | MaterialGraphProject/Assets/UnityShaderEditor/Runtime/Nodes/Vector1Node.cs:14-18 | a new node is named "V1Node", has value 0, and its slots are exactly the Vector1 output "Value" under id 0 |
| Vector1Nodes.PropertyTypeOf | MaterialGraphProject/Assets/UnityShaderEditor/Runtime/Nodes/Vector1Node.cs:26-29 | the property type is Float |
| Vector1Nodes.Value | MaterialGraphProject/Assets/UnityShaderEditor/Runtime/Nodes/Vector1Node.cs:33 | the getter returns the stored value: writing it back leaves the node unchanged |
| Vector1Nodes.SetValue | MaterialGraphProject/Assets/UnityShaderEditor/Runtime/Nodes/Vector1Node.cs:31-35 | after setting, the getter returns the value set, and guid, name, slots and exposed are unchanged |
| Vector1Nodes.SetThenGet | MaterialGraphProject/Assets/UnityShaderEditor/Runtime/Nodes/Vector1Node.cs:31-35 | set-then-get returns the value; setting the current value is a no-op; the last set wins |
| Vector1Nodes.GeneratePropertyBlock | MaterialGraphProject/Assets/UnityShaderEditor/Runtime/Nodes/Vector1Node.cs:37-41 | one float property (name, description, value, the literal `false` flag) when exposed, nothing otherwise |
| Vector1Nodes.GeneratePropertyUsages | MaterialGraphProject/Assets/UnityShaderEditor/Runtime/Nodes/Vector1Node.cs:43-47 | the declaration `float <propertyName>;` if and only if exposed or previewing, nothing otherwise |
| Vector1Nodes.GenerateNodeCode | MaterialGraphProject/Assets/UnityShaderEditor/Runtime/Nodes/Vector1Node.cs:49-55 | the declaration `<precision> <propertyName> = <value>;` if and only if neither exposed nor previewing |
| Vector1Nodes.ExactlyOneDeclaration | MaterialGraphProject/Assets/UnityShaderEditor/Runtime/Nodes/Vector1Node.cs:43-55 | for every exposed flag and mode, exactly one of the property usages and the node code declares the property name: never both, never neither |
| Vector1Nodes.ConstantIffUnpublished | MaterialGraphProject/Assets/UnityShaderEditor/Runtime/Nodes/Vector1Node.cs:37-55 | the value is folded into a constant exactly when no property is published and the mode is not a preview; a published property always has its uniform usage |
| WorldPosNodes.UpdateNodeAfterDeserialization | MaterialGraphProject/Assets/UnityShaderEditor/Runtime/Nodes/WorldPosNode.cs:24-28 | the slot set is exactly one Vector3 output named "WorldPos" under id 0; guid and name unchanged |
| WorldPosNodes.New | MaterialGraphProject/Assets/UnityShaderEditor/Runtime/Nodes/WorldPosNode.cs:18-22 | a new node is named "WorldPos" and its slots are exactly the Vector3 output "WorldPos" under id 0 |
| WorldPosNodes.HasPreview | MaterialGraphProject/Assets/UnityShaderEditor/Runtime/Nodes/WorldPosNode.cs:11 | the node always has a preview |
| WorldPosNodes.PreviewModeOf | MaterialGraphProject/Assets/UnityShaderEditor/Runtime/Nodes/WorldPosNode.cs:13-16 | the preview mode is Preview3D |
| WorldPosNodes.GetVariableNameForSlot | MaterialGraphProject/Assets/UnityShaderEditor/Runtime/Nodes/WorldPosNode.cs:30-33 | every slot id reads `IN.` followed by the world-position interpolant |
| WorldPosNodes.GenerateVertexToFragmentBlock | MaterialGraphProject/Assets/UnityShaderEditor/Runtime/Nodes/WorldPosNode.cs:35-38 | exactly one chunk, the declaration `<precision>3 worldPos;` |
| WorldPosNodes.VertexToFragmentDependsOnPrecisionOnly | MaterialGraphProject/Assets/UnityShaderEditor/Runtime/Nodes/WorldPosNode.cs:35-38 | two generations with the same precision give identical chunks, whatever the modes and the nodes' slots |
| WorldPosNodes.SlotsReadDeclaredInterpolant | MaterialGraphProject/Assets/UnityShaderEditor/Runtime/Nodes/WorldPosNode.cs:30-38 | the field every slot reads (`IN.<field>`) is the field the vertex-to-fragment chunk declares |
| MaterialNodes.UpdateNodeAfterDeserialization | MaterialGraphProject/Assets/UnityShaderEditor/Runtime/Nodes/Vector1Node.cs:20-24 | for every node kind (the rebuilds at Vector1Node.cs:20-24, TextureNode.cs:81-91 and WorldPosNode.cs:24-28), the slot ids after a rebuild are exactly that kind's valid ids, each slot under its own id |
| MaterialNodes.PropertyTypeOf | MaterialGraphProject/Assets/UnityShaderEditor/Runtime/Nodes/Vector1Node.cs:26-29 | property nodes have a property type (Texture2D for Texture, Float for Vector 1); World Pos has none |
| MaterialNodes.GenerateNodeCode | MaterialGraphProject/Assets/UnityShaderEditor/Runtime/Nodes/Vector1Node.cs:6 | Texture and Vector 1 generate body code (they declare the interface at TextureNode.cs:10 and Vector1Node.cs:6) and World Pos does not; Texture's is empty exactly without a UV input slot (TextureNode.cs:99-103), Vector 1's exactly when exposed or previewing |
| MaterialNodes.GenerateVertexToFragmentBlock | MaterialGraphProject/Assets/UnityShaderEditor/Runtime/Nodes/WorldPosNode.cs:6 | Texture and World Pos generate a vertex-to-fragment block and Vector 1 does not; World Pos's is always one chunk |
| MaterialNodes.GenerateVertexShaderBlock | MaterialGraphProject/Assets/UnityShaderEditor/Runtime/Nodes/TextureNode.cs:10 | only Texture generates a vertex-shader block |
| MaterialNodes.GeneratePropertyBlock | MaterialGraphProject/Assets/UnityShaderEditor/Runtime/Nodes/Vector1Node.cs:37-41 | at most one property; one exactly for a Texture node, or for a Vector 1 node that is exposed; none for World Pos |
| MaterialNodes.GeneratePropertyUsages | MaterialGraphProject/Assets/UnityShaderEditor/Runtime/Nodes/Vector1Node.cs:43-47 | at most one chunk; one exactly for a Texture node, or for a Vector 1 node that is exposed or previewing; none for World Pos |
| MaterialNodes.PublishedPropertiesAreDeclared | MaterialGraphProject/Assets/UnityShaderEditor/Runtime/Nodes/Vector1Node.cs:37-47 | for every node kind and mode, the usages declare the name of every property chunk the node publishes |

## Left out

- The node base class (`AbstractMaterialNode`, `PropertyNode`) is not part of this model: `AddSlot`, `RemoveSlotsNameNotMatching` and `FindInputSlot` carry the assumed semantics stated above. Under them a rebuild replaces every declared slot, so slot state on retained ids does not survive a rebuild; whether the real `AddSlot` preserves a slot's current value is not known from the node files.
- Slots keep a single `name`; the source passes the same constant as display name and shader output name, and a `Vector4.zero` default value that no modelled operation reads.
- `TextureType` is assumed to be White, Black, Gray or Bump; its declaration is not part of this model and only Bump changes the generated code.
- `defaultTexture` (asset GUID and path resolution through the editor's asset database, and the white texture outside the editor) is reduced to an opaque texture token stored on the node.
- `GetPreviewProperty` of both property nodes carries texture objects and float values for editor previews; it is not modelled.
- The commented-out `DrawSlotDefaultInput` and the UV node presenter are editor GUI.
- `AddShaderChunk`'s second argument (deduplication within a block) is not modelled: a sink is the plain sequence of appended chunks.
- `GetNodeFromGuid` returning no node is not modelled. The adapted UV expression is an uninterpreted function the graph holds, taking the edge's source slot reference, so the failure the source would hit inside `AdaptNodeOutput` does not appear.
- The definitions of `precision`, `propertyName`, `description`, `GetVariableNameForNode`, `IsPreview`, `AdaptNodeOutput`, the UV node's static generators and float rendering are uninterpreted; contracts are stated in terms of them (for instance "previewing" means `IsPreview(mode)`).
- `m_Value` is a real number, not a 32-bit float. The model does not round stored values, so the getter and the float property chunk (Vector1Node.cs line 40) can hold values such as 0.1 that no float holds, and NaN and the infinities do not exist (in the source, set-then-get compared with `==` fails for NaN, which `Vector1Nodes.SetThenGet` does not reflect). The text of the constant in the node code comes only from the uninterpreted rendering function.
- Vector1Node's `hasPreview`, `previewMode` and `GetVariableNameForSlot` are inherited from the base class and not modelled.
- Whole-graph compilation (traversal, ordering, cycle detection, assembling blocks into a shader) is not part of the node files and is not modelled.
- The definitions of `propertyName` and `description` may read the node's `exposed` flag, so the model gives them the guid and that flag. `precision` and `GetVariableNameForNode()` are assumed to depend on the node's guid alone.
- MaterialNodes.GeneratePropertyBlock: World Pos declares no property hooks of its own; the base-class versions it inherits are not part of this model and are assumed to emit nothing. MaterialNodes.GeneratePropertyUsages rests on the same assumption.
- `owner.GetEdges` is called without a null check on `owner` at TextureNode.cs lines 107, 153 and 164. The model always has a graph, so the failure of a node without an owner does not appear.
- The base class keeps its slots in an ordered collection. The model's slot map is keyed by id and has no order, so slot order after a rebuild is not modelled.
- TextureNodes.New: the constructor sets only the name. `m_TextureType` has no initializer, and `exposed` and the texture GUID come from the base class or serialization. The model takes these three as free parameters rather than fixing their defaults. Vector1Nodes.New takes `exposed` as a parameter for the same reason.
- The literal `false` that `TexturePropertyChunk` (TextureNode.cs line 172) and `FloatPropertyChunk` (Vector1Node.cs line 40) receive is stored in a field named `hidden`. The chunk classes are not part of this model, so that parameter name is a guess; the contracts state only that the flag is `false`.
