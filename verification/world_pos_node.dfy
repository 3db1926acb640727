/**
  The World Pos node: one Vector3 output that reads the world position the
  vertex stage passes to the fragment stage through the `worldPos`
  interpolant.
 */
module WorldPosNodes {

  import opened Graphing
  import opened Generation

  const OutputSlotId: int := 0
  const OutputSlotName: string := "WorldPos"

  /** The interpolant the node declares and reads. */
  const InterpolantField: string := "worldPos"

  datatype WorldPosNode = WorldPosNode(guid: Guid, name: string, slots: SlotMap)

  /** The slots the node adds on every rebuild. */
  function DeclaredSlots(): seq<Slot>
  {
    [Slot(OutputSlotId, OutputSlotName, Output, Vector3)]
  }

  /** The ids that survive a rebuild. */
  function ValidSlots(): seq<int>
  {
    [OutputSlotId]
  }

  /** Rebuilds the slot set to the single Vector3 output; nothing else changes. */
  function UpdateNodeAfterDeserialization(n: WorldPosNode): (r: WorldPosNode)
    ensures r.slots.Keys == {OutputSlotId}
    ensures r.slots[OutputSlotId] == Slot(0, "WorldPos", Output, Vector3)
    ensures WellKeyed(r.slots)
    ensures r.guid == n.guid && r.name == n.name
  {
    UpdateSlotsExact(n.slots, DeclaredSlots(), ValidSlots());
    n.(slots := UpdateSlots(n.slots, DeclaredSlots(), ValidSlots()))
  }

  /** A freshly constructed node: named "WorldPos", slots rebuilt from none. */
  function New(guid: Guid): (r: WorldPosNode)
    ensures r.guid == guid && r.name == "WorldPos"
    ensures r.slots == map[OutputSlotId := Slot(OutputSlotId, "WorldPos", Output, Vector3)]
  {
    UpdateNodeAfterDeserialization(WorldPosNode(guid, "WorldPos", map[]))
  }

  function HasPreview(n: WorldPosNode): (r: bool)
    ensures r
  {
    true
  }

  function PreviewModeOf(n: WorldPosNode): (r: PreviewMode)
    ensures r == Preview3D
  {
    Preview3D
  }

  /** Every slot reads the world-position interpolant. */
  function GetVariableNameForSlot(n: WorldPosNode, slotId: int): (r: string)
    ensures r == "IN." + InterpolantField
  {
    "IN.worldPos"
  }

  /** One interpolant declaration `<precision>3 worldPos;`, in every mode. */
  function GenerateVertexToFragmentBlock(ctx: Context, n: WorldPosNode, mode: GenerationMode): (r: seq<string>)
    ensures |r| == 1
    ensures r[0] == Declaration(ctx.precision(n.guid) + "3", InterpolantField, "")
  {
    [ctx.precision(n.guid) + "3 worldPos;"]
  }

  /**
    The interpolant block depends on nothing but the node's precision: not on
    the mode, and not on which slots the node has. Repeating the generation
    therefore repeats the text.
   */
  lemma VertexToFragmentDependsOnPrecisionOnly(ctx1: Context, ctx2: Context, n1: WorldPosNode, n2: WorldPosNode,
                                               m1: GenerationMode, m2: GenerationMode)
    requires ctx1.precision(n1.guid) == ctx2.precision(n2.guid)
    ensures GenerateVertexToFragmentBlock(ctx1, n1, m1) == GenerateVertexToFragmentBlock(ctx2, n2, m2)
  {
  }

  /** What every slot reads is exactly the interpolant the node declares. */
  lemma SlotsReadDeclaredInterpolant(ctx: Context, n: WorldPosNode, mode: GenerationMode, slotId: int)
    ensures exists field ::
              && GetVariableNameForSlot(n, slotId) == "IN." + field
              && IsDeclarationOf(GenerateVertexToFragmentBlock(ctx, n, mode)[0], field)
  {
    var chunk := GenerateVertexToFragmentBlock(ctx, n, mode)[0];
    assert IsInitializer("");
    assert chunk == Declaration(ctx.precision(n.guid) + "3", InterpolantField, "");
    assert IsDeclarationOf(chunk, InterpolantField);
  }
}
