/**
  The Vector 1 property node: one float output whose value is either a
  material property (exposed, or bound as a uniform for previews) or a
  constant folded into the node code.
 */
module Vector1Nodes {

  import opened Graphing
  import opened Generation

  const OutputSlotId: int := 0
  const OutputSlotName: string := "Value"

  datatype Vector1Node = Vector1Node(guid: Guid, name: string, slots: SlotMap, exposed: bool, value: real)

  /** The slots the node adds on every rebuild. */
  function DeclaredSlots(): seq<Slot>
  {
    [Slot(OutputSlotId, OutputSlotName, Output, Vector1)]
  }

  /** The ids that survive a rebuild. */
  function ValidSlots(): seq<int>
  {
    [OutputSlotId]
  }

  /** Rebuilds the slot set; nothing but the slots changes. */
  function UpdateNodeAfterDeserialization(n: Vector1Node): (r: Vector1Node)
    ensures r.slots.Keys == {OutputSlotId}
    ensures r.slots[OutputSlotId] == Slot(0, "Value", Output, Vector1)
    ensures WellKeyed(r.slots)
    ensures r.guid == n.guid && r.name == n.name && r.exposed == n.exposed && r.value == n.value
  {
    UpdateSlotsExact(n.slots, DeclaredSlots(), ValidSlots());
    n.(slots := UpdateSlots(n.slots, DeclaredSlots(), ValidSlots()))
  }

  /** A freshly constructed node: named "V1Node", value 0, slots rebuilt. */
  function New(guid: Guid, exposed: bool): (r: Vector1Node)
    ensures r.guid == guid && r.exposed == exposed
    ensures r.name == "V1Node" && r.value == 0.0
    ensures r.slots == map[OutputSlotId := Slot(OutputSlotId, "Value", Output, Vector1)]
  {
    UpdateNodeAfterDeserialization(Vector1Node(guid, "V1Node", map[], exposed, 0.0))
  }

  /** The property type a Vector 1 node exposes. */
  function PropertyTypeOf(n: Vector1Node): (r: PropertyType)
    ensures r == Float
  {
    Float
  }

  /** The `value` getter: the stored value, which storing back leaves the node unchanged. */
  function Value(n: Vector1Node): (r: real)
    ensures n.(value := r) == n
  {
    n.value
  }

  /** The `value` setter: the value is replaced and nothing else changes. */
  function SetValue(n: Vector1Node, v: real): (r: Vector1Node)
    ensures Value(r) == v
    ensures r.guid == n.guid && r.name == n.name && r.slots == n.slots && r.exposed == n.exposed
  {
    n.(value := v)
  }

  /** Setting then getting returns the value set; setting the current value is a no-op. */
  lemma SetThenGet(n: Vector1Node, v: real, w: real)
    ensures Value(SetValue(n, v)) == v
    ensures SetValue(n, Value(n)) == n
    ensures SetValue(SetValue(n, v), w) == SetValue(n, w)
  {
  }

  /** An exposed node publishes one float material property; an unexposed node none. */
  function GeneratePropertyBlock(ctx: Context, n: Vector1Node, mode: GenerationMode): (r: seq<PropertyChunk>)
    ensures |r| == (if n.exposed then 1 else 0)
    ensures forall c :: c in r ==>
              c == FloatProperty(ctx.propertyName(n.guid, n.exposed), ctx.description(n.guid, n.exposed), n.value, false)
  {
    if n.exposed then
      [FloatProperty(ctx.propertyName(n.guid, n.exposed), ctx.description(n.guid, n.exposed), n.value, false)]
    else
      []
  }

  /** The uniform `float <propertyName>;`, declared when exposed or previewing. */
  function GeneratePropertyUsages(ctx: Context, n: Vector1Node, mode: GenerationMode): (r: seq<string>)
    ensures |r| <= 1
    ensures r != [] <==> n.exposed || ctx.isPreview(mode)
    ensures forall c :: c in r ==> c == Declaration("float", ctx.propertyName(n.guid, n.exposed), "")
  {
    if n.exposed || ctx.isPreview(mode) then
      ["float " + ctx.propertyName(n.guid, n.exposed) + ";"]
    else
      []
  }

  /** The constant `<precision> <propertyName> = <value>;`, only when neither exposed nor previewing. */
  function GenerateNodeCode(ctx: Context, n: Vector1Node, mode: GenerationMode): (r: seq<string>)
    ensures |r| <= 1
    ensures r != [] <==> !n.exposed && !ctx.isPreview(mode)
    ensures forall c :: c in r ==>
              c == Declaration(ctx.precision(n.guid), ctx.propertyName(n.guid, n.exposed), " = " + ctx.renderFloat(n.value))
  {
    if n.exposed || ctx.isPreview(mode) then
      []
    else
      [ctx.precision(n.guid) + " " + ctx.propertyName(n.guid, n.exposed) + " = " + ctx.renderFloat(n.value) + ";"]
  }

  /**
    For every exposed flag and mode, the property name is declared by exactly
    one of the property usages and the node code: never both, never neither.
   */
  lemma ExactlyOneDeclaration(ctx: Context, n: Vector1Node, mode: GenerationMode)
    ensures |GeneratePropertyUsages(ctx, n, mode)| + |GenerateNodeCode(ctx, n, mode)| == 1
    ensures DeclaresIn(GeneratePropertyUsages(ctx, n, mode), ctx.propertyName(n.guid, n.exposed))
            != DeclaresIn(GenerateNodeCode(ctx, n, mode), ctx.propertyName(n.guid, n.exposed))
  {
    var p := ctx.propertyName(n.guid, n.exposed);
    var usages := GeneratePropertyUsages(ctx, n, mode);
    var code := GenerateNodeCode(ctx, n, mode);
    if usages != [] {
      assert usages[0] == Declaration("float", p, "");
      assert IsInitializer("");
      assert IsDeclarationOf(usages[0], p);
    } else {
      var init := " = " + ctx.renderFloat(n.value);
      assert init[..3] == " = ";
      assert code[0] == Declaration(ctx.precision(n.guid), p, init);
      assert IsDeclarationOf(code[0], p);
    }
  }

  /**
    The value is folded into a constant exactly when no material property is
    published and the mode is not a preview; a published property is always
    matched by its uniform declaration.
   */
  lemma ConstantIffUnpublished(ctx: Context, n: Vector1Node, mode: GenerationMode)
    ensures GenerateNodeCode(ctx, n, mode) != []
            <==> GeneratePropertyBlock(ctx, n, mode) == [] && !ctx.isPreview(mode)
    ensures GeneratePropertyBlock(ctx, n, mode) != [] ==> GeneratePropertyUsages(ctx, n, mode) != []
  {
  }
}
