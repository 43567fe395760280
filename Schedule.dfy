/**
 * The dashboard's schedule tab: the attraction form (new or edit), its save
 * decision, and the delete confirmation modal.
 */
module Schedule {
  import opened Wrappers
  import opened Domain

  /** The `newAttraction` form object; `kind` is the record's `type`. */
  datatype AttractionDraft = AttractionDraft(name: string, time: string, kind: string, isFeatured: bool)

  const EmptyDraft := AttractionDraft("", "", "banda", false)

  /** What a submit of the form sends to the attractions table. */
  datatype SaveAction = Refused | Update(id: string, draft: AttractionDraft) | Insert(draft: AttractionDraft)

  /**
   * The decision of `handleAddAttraction`: refused while the name or the
   * time is empty, an update of the edited record when `editingId` is
   * truthy, an insert otherwise.
   */
  function SaveDecision(draft: AttractionDraft, editingId: Option<string>): (r: SaveAction)
    ensures r.Refused? <==> draft.name == "" || draft.time == ""
    ensures r.Update? <==> draft.name != "" && draft.time != "" && Truthy(editingId)
    ensures r.Update? ==> r == Update(editingId.value, draft)
    ensures r.Insert? ==> r == Insert(draft) && !Truthy(editingId)
  {
    if draft.name == "" || draft.time == "" then Refused
    else if Truthy(editingId) then Update(editingId.value, draft)
    else Insert(draft)
  }

  /** The draft `handleEditClick` loads: the record's fields with `!!is_featured`. */
  function LoadDraft(a: Attraction): (r: AttractionDraft)
    ensures r.name == a.name && r.time == a.time && r.kind == a.kind
    ensures r.isFeatured <==> a.is_featured == Some(true)
  {
    AttractionDraft(a.name, a.time, a.kind, a.is_featured == Some(true))
  }

  /** `attr.id || null`: an empty id becomes null. */
  function IdOrNull(id: Option<string>): (r: Option<string>)
    ensures r.Some? <==> Truthy(id)
    ensures r.Some? ==> r == id
  {
    if Truthy(id) then id else None
  }

  /**
   * The form cannot save the same draft twice in a row: after a successful
   * save the reset form is refused until a name and a time are typed again.
   */
  lemma ResetFormRefused(editingId: Option<string>)
    ensures SaveDecision(EmptyDraft, editingId) == Refused
  {
  }

  /**
   * Loading a stored attraction and saving it unchanged updates that very
   * record when it has an id, and inserts a copy when it has none.
   */
  lemma EditThenSave(a: Attraction)
    requires a.name != "" && a.time != ""
    ensures Truthy(a.id) ==> SaveDecision(LoadDraft(a), IdOrNull(a.id)) == Update(a.id.value, LoadDraft(a))
    ensures !Truthy(a.id) ==> SaveDecision(LoadDraft(a), IdOrNull(a.id)) == Insert(LoadDraft(a))
  {
  }

  /** The `deleteModal` state object. */
  datatype DeleteModal = DeleteModal(isOpen: bool, id: Option<string>, name: Option<string>)

  const ClosedModal := DeleteModal(false, None, None)

  class AttractionEditor {
    var draft: AttractionDraft
    var editingId: Option<string>
    var deleteModal: DeleteModal

    /** The initial `useState` values. */
    constructor ()
      ensures draft == EmptyDraft && editingId == None && deleteModal == ClosedModal
    {
      draft, editingId, deleteModal := EmptyDraft, None, ClosedModal;
    }

    /** Any of the four inputs: `setNewAttraction({ ...newAttraction, field })`. */
    method Type(d: AttractionDraft)
      modifies this
      ensures draft == d && editingId == old(editingId) && deleteModal == old(deleteModal)
    {
      draft := d;
    }

    /**
     * A submit. A refused save changes nothing. Otherwise the returned
     * action is sent; when it succeeds the form resets to the empty draft and
     * leaves edit mode, and when it fails the form keeps what was typed.
     */
    method Save(ok: bool) returns (action: SaveAction)
      modifies this
      ensures action == SaveDecision(old(draft), old(editingId))
      ensures !action.Refused? && ok ==> draft == EmptyDraft && editingId == None
      ensures action.Refused? || !ok ==> draft == old(draft) && editingId == old(editingId)
      ensures deleteModal == old(deleteModal)
    {
      action := SaveDecision(draft, editingId);
      if !action.Refused? && ok {
        draft, editingId := EmptyDraft, None;
      }
    }

    /** The pencil on a schedule row: load the record into the form and enter edit mode. */
    method EditClick(a: Attraction)
      modifies this
      ensures draft == LoadDraft(a) && editingId == IdOrNull(a.id) && deleteModal == old(deleteModal)
    {
      draft := LoadDraft(a);
      editingId := IdOrNull(a.id);
    }

    /** "Cancelar" beside the save button, shown in edit mode. */
    method CancelEdit()
      modifies this
      ensures draft == EmptyDraft && editingId == None && deleteModal == old(deleteModal)
    {
      editingId, draft := None, EmptyDraft;
    }

    /** The bin on a schedule row: open the confirmation with that record's id and name. */
    method OpenDelete(a: Attraction)
      modifies this
      ensures deleteModal == DeleteModal(true, IdOrNull(a.id), Some(a.name))
      ensures draft == old(draft) && editingId == old(editingId)
    {
      deleteModal := DeleteModal(true, IdOrNull(a.id), Some(a.name));
    }

    /** "Cancelar" in the confirmation. */
    method CancelDelete()
      modifies this
      ensures deleteModal == ClosedModal && draft == old(draft) && editingId == old(editingId)
    {
      deleteModal := ClosedModal;
    }

    /**
     * "Excluir" in the confirmation: without an id nothing is sent and
     * nothing changes; otherwise the delete of that id is sent, and the
     * modal closes only when it succeeds.
     */
    method ConfirmDelete(ok: bool) returns (deleted: Option<string>)
      modifies this
      ensures deleted.Some? <==> Truthy(old(deleteModal).id)
      ensures deleted.Some? ==> deleted == old(deleteModal).id
      ensures deleteModal == (if deleted.Some? && ok then ClosedModal else old(deleteModal))
      ensures draft == old(draft) && editingId == old(editingId)
    {
      if !Truthy(deleteModal.id) {
        return None;
      }
      deleted := deleteModal.id;
      if ok {
        deleteModal := ClosedModal;
      }
    }
  }
}
