/**
  Slots, slot references, edges and the graph as the material nodes see them.

  The node base class that owns the slot collection is not part of this model.
  Its two slot-editing operations are given an explicit, assumed semantics:
  - `AddSlot` inserts a slot, replacing any slot that already has its id;
  - `RemoveSlotsNameNotMatching` drops every slot whose id is not listed as valid.
  The graph is reduced to what a node asks of it: the (possibly empty)
  ordered sequence of edges touching a slot reference, and the shader
  expression of an output slot adapted to a Vector2, which reads the node the
  graph holds under the slot's guid.
 */
module Graphing {

  import opened Wrappers

  /** Stable node identity; only ever compared and passed on. */
  type Guid = string

  datatype SlotType = Input | Output

  /** The vector arity of a slot's value. */
  datatype SlotValueType = Vector1 | Vector2 | Vector3 | Vector4

  /** A material slot: stable id, name, direction and value type. */
  datatype Slot = Slot(id: int, name: string, slotType: SlotType, valueType: SlotValueType)

  /** Names one slot of one node. */
  datatype SlotReference = SlotReference(nodeGuid: Guid, slotId: int)

  /** A connection from an output slot to an input slot. */
  datatype Edge = Edge(outputSlot: SlotReference, inputSlot: SlotReference)

  /**
    The owning graph, as far as a node consults it: `getEdges` gives the edges
    at a slot reference; `adaptToVector2` is `ShaderGenerator.AdaptNodeOutput`
    to a Vector2 of the output slot of the node `GetNodeFromGuid` finds for
    the reference's guid, so it depends on the graph's nodes as well as on
    the reference.
   */
  datatype Graph = Graph(getEdges: SlotReference -> seq<Edge>, adaptToVector2: SlotReference -> string)

  /** A node's slots, keyed by slot id (only one slot per id). */
  type SlotMap = map<int, Slot>

  /** Every entry is stored under its own id. */
  ghost predicate WellKeyed(m: SlotMap)
  {
    forall id :: id in m ==> m[id].id == id
  }

  /** The reference a node's slot is addressed by in the graph. */
  function SlotRef(owner: Guid, s: Slot): SlotReference
  {
    SlotReference(owner, s.id)
  }

  /** Assumed semantics: insert `s`, replacing the slot that had its id. */
  function AddSlot(m: SlotMap, s: Slot): (r: SlotMap)
    ensures r.Keys == m.Keys + {s.id}
    ensures r[s.id] == s
    ensures forall id :: id in m && id != s.id ==> r[id] == m[id]
    ensures WellKeyed(m) ==> WellKeyed(r)
  {
    m[s.id := s]
  }

  /** Assumed semantics: keep exactly the slots whose id is listed in `valid`. */
  function RemoveSlotsNameNotMatching(m: SlotMap, valid: seq<int>): (r: SlotMap)
    ensures forall id :: id in r <==> id in m && id in valid
    ensures forall id :: id in r ==> r[id] == m[id]
    ensures WellKeyed(m) ==> WellKeyed(r)
  {
    map id | id in m && id in valid :: m[id]
  }

  /** `AddSlot` applied to each slot of `slots`, first to last. */
  function AddSlots(m: SlotMap, slots: seq<Slot>): SlotMap
    decreases |slots|
  {
    if slots == [] then m else AddSlots(AddSlot(m, slots[0]), slots[1..])
  }

  ghost predicate DistinctIds(slots: seq<Slot>)
  {
    forall i, j :: 0 <= i < j < |slots| ==> slots[i].id != slots[j].id
  }

  /** Some slot of `slots` carries `id`. */
  ghost predicate HasSlotWithId(slots: seq<Slot>, id: int)
  {
    exists j :: 0 <= j < |slots| && slots[j].id == id
  }

  /** `valid` lists the ids of `declared`, in the same order. */
  ghost predicate ListsIds(valid: seq<int>, declared: seq<Slot>)
  {
    |valid| == |declared| && forall i :: 0 <= i < |declared| ==> valid[i] == declared[i].id
  }

  /** Adding slots never touches an id none of them carries. */
  lemma {:induction false} AddSlotsUntouched(m: SlotMap, slots: seq<Slot>, id: int)
    requires forall j :: 0 <= j < |slots| ==> slots[j].id != id
    ensures id in AddSlots(m, slots) <==> id in m
    ensures id in m ==> AddSlots(m, slots)[id] == m[id]
    decreases |slots|
  {
    if slots != [] {
      var tail := slots[1..];
      assert forall j :: 0 <= j < |tail| ==> tail[j] == slots[j + 1];
      AddSlotsUntouched(AddSlot(m, slots[0]), tail, id);
    }
  }

  /** After adding slots, the keys are the old keys plus every added id. */
  lemma {:induction false} AddSlotsKeys(m: SlotMap, slots: seq<Slot>)
    ensures forall id :: id in AddSlots(m, slots) <==> id in m || HasSlotWithId(slots, id)
    decreases |slots|
  {
    if slots != [] {
      var tail := slots[1..];
      AddSlotsKeys(AddSlot(m, slots[0]), tail);
      forall id | HasSlotWithId(slots, id) && id != slots[0].id
        ensures HasSlotWithId(tail, id)
      {
        var j :| 0 <= j < |slots| && slots[j].id == id;
        assert tail[j - 1] == slots[j];
      }
      forall id | HasSlotWithId(tail, id)
        ensures HasSlotWithId(slots, id)
      {
        var j :| 0 <= j < |tail| && tail[j].id == id;
        assert slots[j + 1] == tail[j];
      }
    }
  }

  /** With distinct ids, every added slot is found under its id afterwards. */
  lemma {:induction false} AddSlotsLookup(m: SlotMap, slots: seq<Slot>, i: int)
    requires DistinctIds(slots)
    requires 0 <= i < |slots|
    ensures slots[i].id in AddSlots(m, slots)
    ensures AddSlots(m, slots)[slots[i].id] == slots[i]
    decreases |slots|
  {
    var tail := slots[1..];
    assert forall j :: 0 <= j < |tail| ==> tail[j] == slots[j + 1];
    if i == 0 {
      AddSlotsUntouched(AddSlot(m, slots[0]), tail, slots[0].id);
    } else {
      AddSlotsLookup(AddSlot(m, slots[0]), tail, i - 1);
    }
  }

  /**
    The rebuild every node performs after deserialization: add each declared
    slot, then drop every slot whose id is not valid.
   */
  function UpdateSlots(m: SlotMap, declared: seq<Slot>, valid: seq<int>): SlotMap
  {
    RemoveSlotsNameNotMatching(AddSlots(m, declared), valid)
  }

  /**
    When the valid ids are exactly the declared ones, the rebuilt slot set is
    exactly the declared slots, whatever slots the node had before.
   */
  lemma {:induction false} UpdateSlotsExact(m: SlotMap, declared: seq<Slot>, valid: seq<int>)
    requires DistinctIds(declared)
    requires ListsIds(valid, declared)
    ensures forall id :: id in UpdateSlots(m, declared, valid) <==> id in valid
    ensures forall i :: 0 <= i < |declared| ==>
              UpdateSlots(m, declared, valid)[declared[i].id] == declared[i]
    ensures WellKeyed(UpdateSlots(m, declared, valid))
  {
    var added := AddSlots(m, declared);
    var r := UpdateSlots(m, declared, valid);
    AddSlotsKeys(m, declared);
    forall i | 0 <= i < |declared|
      ensures r[declared[i].id] == declared[i]
    {
      AddSlotsLookup(m, declared, i);
      assert declared[i].id in valid;
    }
    forall id | id in r
      ensures r[id].id == id
    {
      var i :| 0 <= i < |valid| && valid[i] == id;
      assert r[declared[i].id] == declared[i];
    }
  }

  /** The rebuild forgets the prior slot map entirely, so it is idempotent. */
  lemma UpdateSlotsForgetsPrior(m1: SlotMap, m2: SlotMap, declared: seq<Slot>, valid: seq<int>)
    requires DistinctIds(declared)
    requires ListsIds(valid, declared)
    ensures UpdateSlots(m1, declared, valid) == UpdateSlots(m2, declared, valid)
    ensures UpdateSlots(UpdateSlots(m1, declared, valid), declared, valid)
            == UpdateSlots(m1, declared, valid)
  {
    var r1 := UpdateSlots(m1, declared, valid);
    var r2 := UpdateSlots(m2, declared, valid);
    UpdateSlotsExact(m1, declared, valid);
    UpdateSlotsExact(m2, declared, valid);
    UpdateSlotsExact(r1, declared, valid);
    forall id | id in r1
      ensures r1[id] == r2[id]
    {
      var i :| 0 <= i < |valid| && valid[i] == id;
    }
  }

  /**
    Assumed semantics: the slot with this id, provided it is an input slot.
    Only a slot that carries the id counts, as in a collection searched by id.
   */
  function FindInputSlot(m: SlotMap, id: int): (r: Option<Slot>)
    ensures r.Some? <==> id in m && m[id].id == id && m[id].slotType == Input
    ensures r.Some? ==> r.value == m[id] && r.value.id == id
  {
    if id in m && m[id].id == id && m[id].slotType == Input then Some(m[id]) else None
  }
}
