/** The older slot-management page (src/app/dashboard/page.js): a slot
    list driven by create (append), update (replace by `_id`) and delete
    (remove by `_id`), each applied only when the server accepts it. */
module LegacyDashboard {

  import opened Common

  /** A slot as `/api/slots` returns it. */
  datatype DashSlot = DashSlot(id: string, slotNumber: string, isAvailable: bool)

  const SlotsUrl := "http://localhost:5000/api/slots"

  // ---------------------------------------------------------------------
  // The list updates.

  /** `slots.map((slot) => (slot._id === id ? data : slot))` */
  function ReplaceById(slots: seq<DashSlot>, id: string, data: DashSlot): (r: seq<DashSlot>)
    ensures |r| == |slots|
  {
    seq(|slots|, k requires 0 <= k < |slots| => if slots[k].id == id then data else slots[k])
  }

  function IdIsNot(id: string): DashSlot -> bool
  {
    (s: DashSlot) => s.id != id
  }

  /** `slots.filter((slot) => slot._id !== id)` */
  function RemoveById(slots: seq<DashSlot>, id: string): (r: seq<DashSlot>)
    ensures forall s :: s in r <==> s in slots && s.id != id
    ensures |r| <= |slots|
  {
    FilterMembers(slots, IdIsNot(id));
    Filter(slots, IdIsNot(id))
  }

  /** Replacing changes exactly the positions holding that id, each to the
      server's record, and leaves every other position as it was. */
  lemma ReplaceByIdSpec(slots: seq<DashSlot>, id: string, data: DashSlot)
    ensures forall k :: 0 <= k < |slots| && slots[k].id == id ==> ReplaceById(slots, id, data)[k] == data
    ensures forall k :: 0 <= k < |slots| && slots[k].id != id ==> ReplaceById(slots, id, data)[k] == slots[k]
    ensures (forall k :: 0 <= k < |slots| ==> slots[k].id != id) ==> ReplaceById(slots, id, data) == slots
  {
  }

  /** When the server keeps the id, replacing twice is replacing once. */
  lemma ReplaceByIdIdempotent(slots: seq<DashSlot>, id: string, data: DashSlot)
    requires data.id == id
    ensures ReplaceById(ReplaceById(slots, id, data), id, data) == ReplaceById(slots, id, data)
  {
  }

  /** Removal drops exactly the slots with that id and keeps the others,
      with their multiplicities and in order. */
  lemma {:induction false} RemoveByIdSpec(slots: seq<DashSlot>, id: string)
    ensures forall s :: multiset(RemoveById(slots, id))[s] == if s.id != id then multiset(slots)[s] else 0
    ensures forall s :: s in RemoveById(slots, id) <==> s in slots && s.id != id
    ensures Embeds(RemoveById(slots, id), slots)
  {
    FilterCount(slots, IdIsNot(id));
    FilterMembers(slots, IdIsNot(id));
    FilterEmbeds(slots, IdIsNot(id));
  }

  /** Deleting a slot after updating it is deleting it, as long as the
      server's record keeps the id. */
  lemma {:induction false} RemoveAfterReplace(slots: seq<DashSlot>, id: string, data: DashSlot)
    requires data.id == id
    ensures RemoveById(ReplaceById(slots, id, data), id) == RemoveById(slots, id)
  {
    if slots != [] {
      var r := ReplaceById(slots, id, data);
      assert r[1..] == ReplaceById(slots[1..], id, data);
      RemoveAfterReplace(slots[1..], id, data);
    }
  }

  /** A newly created slot is the last one, and only the new slot is added. */
  lemma AppendSpec(slots: seq<DashSlot>, data: DashSlot)
    ensures (slots + [data])[|slots|] == data
    ensures multiset(slots + [data]) == multiset(slots) + multiset{data}
  {
  }

  // ---------------------------------------------------------------------
  // The page component.

  class Dashboard {
    var slots: seq<DashSlot>
    var slotNumber: string
    var editingSlot: Option<DashSlot>
    var updatedSlotNumber: string

    constructor ()
      ensures slots == [] && slotNumber == "" && editingSlot.None? && updatedSlotNumber == ""
    {
      slots, slotNumber, editingSlot, updatedSlotNumber := [], "", None, "";
    }

    /** The mount effect: `getSlots().then(setSlots)`. */
    method Load(reply: Reply<seq<DashSlot>>) returns (toast: Option<Toast>)
      modifies this`slots
      ensures reply.Ok? ==> slots == reply.data && toast.None?
      ensures reply.NotOk? ==> slots == old(slots) && toast == Some(ErrorToast("Failed to fetch slots"))
    {
      if reply.Ok? {
        slots, toast := reply.data, None;
      } else {
        toast := Some(ErrorToast("Failed to fetch slots"));
      }
    }

    /** `handleCreateSlot`: on success the returned slot is appended and the
        input cleared. A rejection without a message shows an empty error,
        since `new Error(undefined)` has the message "". */
    method CreateSlot(reply: Reply<DashSlot>) returns (sentNumber: string, toast: Toast)
      modifies this`slots, this`slotNumber
      ensures sentNumber == old(slotNumber)
      ensures reply.Ok? ==>
        slots == old(slots) + [reply.data] && slotNumber == ""
        && toast == SuccessToast("Slot created successfully!")
      ensures reply.NotOk? ==>
        slots == old(slots) && slotNumber == old(slotNumber)
        && toast == ErrorToast(MessageOr(reply.message, ""))
    {
      sentNumber := slotNumber;
      if reply.Ok? {
        slots, slotNumber := slots + [reply.data], "";
        toast := SuccessToast("Slot created successfully!");
      } else {
        toast := ErrorToast(MessageOr(reply.message, ""));
      }
    }

    /** `handleUpdateSlot` (reachable only from the edit form): PUT the new
        number; on success the edited slot is replaced by the server's
        record and edit mode ends. A failure reports the literal text
        "data.message". */
    method UpdateSlot(reply: Reply<DashSlot>) returns (url: string, sentNumber: string, toast: Toast)
      requires editingSlot.Some?
      modifies this`slots, this`editingSlot, this`updatedSlotNumber
      ensures url == SlotsUrl + "/" + old(editingSlot).value.id && sentNumber == old(updatedSlotNumber)
      ensures reply.Ok? ==>
        slots == ReplaceById(old(slots), old(editingSlot).value.id, reply.data)
        && editingSlot.None? && updatedSlotNumber == "" && toast == SuccessToast("Slot updated successfully!")
      ensures reply.NotOk? ==>
        slots == old(slots) && editingSlot == old(editingSlot)
        && updatedSlotNumber == old(updatedSlotNumber) && toast == ErrorToast("data.message")
    {
      var id := editingSlot.value.id;
      url, sentNumber := SlotsUrl + "/" + id, updatedSlotNumber;
      if reply.Ok? {
        slots, editingSlot, updatedSlotNumber := ReplaceById(slots, id, reply.data), None, "";
        toast := SuccessToast("Slot updated successfully!");
      } else {
        toast := ErrorToast("data.message");
      }
    }

    /** `handleDeleteSlot`: on success the slots with that id are removed. */
    method DeleteSlot(slotId: string, reply: Reply<()>) returns (url: string, toast: Toast)
      modifies this`slots
      ensures url == SlotsUrl + "/" + slotId
      ensures reply.Ok? ==> slots == RemoveById(old(slots), slotId) && toast == SuccessToast("Slot deleted successfully!")
      ensures reply.NotOk? ==> slots == old(slots) && toast == ErrorToast("Failed to delete slot")
    {
      url := SlotsUrl + "/" + slotId;
      if reply.Ok? {
        slots := RemoveById(slots, slotId);
        toast := SuccessToast("Slot deleted successfully!");
      } else {
        toast := ErrorToast("Failed to delete slot");
      }
    }

    /** The Edit button: edit mode for `slot`, pre-filled with its number. */
    method StartEdit(slot: DashSlot)
      modifies this`editingSlot, this`updatedSlotNumber
      ensures editingSlot == Some(slot) && updatedSlotNumber == slot.slotNumber
    {
      editingSlot, updatedSlotNumber := Some(slot), slot.slotNumber;
    }

    /** The Cancel button of the edit form. */
    method CancelEdit()
      modifies this`editingSlot
      ensures editingSlot.None?
    {
      editingSlot := None;
    }
  }
}
