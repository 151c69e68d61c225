/** The coach's records view: a joined initial load of all records and all
    routines, a modal that buffers a record's two coach-owned fields, and a
    confirm-then-apply save of those fields. */
module GetRecords {
  import opened Common

  const LoadFallbackMessage := "Error al cargar la información"
  const UpdatedText := "Registro actualizado correctamente"
  const UpdateFailedText := "Error al actualizar el registro"

  datatype MessageKind = SuccessKind | ErrorKind

  /** The message shown inside the edit modal. */
  datatype UpdateMessage = UpdateMessage(kind: MessageKind, text: string)

  /** The body of the partial update: only the two coach-owned fields. */
  datatype UpdatePayload = UpdatePayload(observations: string, activeRoutine: string)

  /** One call of `updatePhysicalRecord(id, payload)`. */
  datatype UpdateRequest = UpdateRequest(id: string, payload: UpdatePayload)

  /** `Promise.all` over the two initial fetches: it succeeds only when both
      do. When both reject, the rejection that settles first wins, which
      `recordsRejectFirst` says. */
  function JoinFetches(
    records: Outcome<seq<PhysicalRecord>>,
    routines: Outcome<seq<Routine>>,
    recordsRejectFirst: bool): (r: Outcome<(seq<PhysicalRecord>, seq<Routine>)>)
    ensures r.Success? <==> records.Success? && routines.Success?
    ensures r.Success? ==> r.value == (records.value, routines.value)
    ensures records.Failure? && routines.Success? ==> r == Failure(records.message)
    ensures records.Success? && routines.Failure? ==> r == Failure(routines.message)
    ensures r.Failure? ==> (records.Failure? && r.message == records.message)
                           || (routines.Failure? && r.message == routines.message)
  {
    match (records, routines)
    case (Success(rs), Success(ros)) => Success((rs, ros))
    case (Failure(m), Success(_)) => Failure(m)
    case (Success(_), Failure(m)) => Failure(m)
    case (Failure(m1), Failure(m2)) => Failure(if recordsRejectFirst then m1 else m2)
  }

  /** Two records agree on every field a coach cannot edit. */
  predicate SameFixedFields(a: PhysicalRecord, b: PhysicalRecord)
  {
    a.(observations := b.observations, activeRoutine := b.activeRoutine) == b
  }

  /** `{ ...rec, observations, activeRoutine }`. */
  function WithEdits(rec: PhysicalRecord, observations: string, activeRoutine: string): (r: PhysicalRecord)
  {
    rec.(observations := Some(observations), activeRoutine := Some(activeRoutine))
  }

  /** `records.map(rec => rec.id === id ? {...rec, observations, activeRoutine} : rec)`:
      the list keeps its length and order; every record with the edited id
      gets exactly the two buffered fields, every other record is unchanged. */
  function ApplyUpdate(records: seq<PhysicalRecord>, id: string, observations: string, activeRoutine: string)
    : (r: seq<PhysicalRecord>)
    ensures |r| == |records|
    ensures forall i | 0 <= i < |r| :: SameFixedFields(r[i], records[i])
    ensures forall i | 0 <= i < |r| && records[i].id == id ::
              r[i].observations == Some(observations) && r[i].activeRoutine == Some(activeRoutine)
    ensures forall i | 0 <= i < |r| && records[i].id != id :: r[i] == records[i]
  {
    if records == [] then []
    else
      [if records[0].id == id then WithEdits(records[0], observations, activeRoutine) else records[0]]
      + ApplyUpdate(records[1..], id, observations, activeRoutine)
  }

  /** Applying the same confirmed update twice is the same as once. */
  lemma ApplyUpdateIdempotent(records: seq<PhysicalRecord>, id: string, obs: string, routine: string)
    ensures ApplyUpdate(ApplyUpdate(records, id, obs, routine), id, obs, routine) == ApplyUpdate(records, id, obs, routine)
  {
  }

  /** An update whose id no record carries leaves the list as it was. */
  lemma ApplyUpdateUnknownId(records: seq<PhysicalRecord>, id: string, obs: string, routine: string)
    requires forall i | 0 <= i < |records| :: records[i].id != id
    ensures ApplyUpdate(records, id, obs, routine) == records
  {
  }

  /** Opening the editor on a record whose two fields are set and saving the
      untouched buffers changes no record, provided every record carrying
      that id is that record. */
  lemma SaveUntouchedBuffers(records: seq<PhysicalRecord>, rec: PhysicalRecord)
    requires rec.observations.Some? && rec.activeRoutine.Some?
    requires forall i | 0 <= i < |records| && records[i].id == rec.id :: records[i] == rec
    ensures ApplyUpdate(records, rec.id, OrElse(rec.observations, ""), OrElse(rec.activeRoutine, "")) == records
  {
  }

  /** The other side: a record with an absent field opens with '' in that
      buffer, so saving the untouched buffers stores `Some("")` there and the
      list does change. */
  lemma SaveUntouchedAbsentField(records: seq<PhysicalRecord>, i: nat)
    requires i < |records|
    requires records[i].observations.None? || records[i].activeRoutine.None?
    ensures var rec := records[i];
            var r := ApplyUpdate(records, rec.id, OrElse(rec.observations, ""), OrElse(rec.activeRoutine, ""));
            r[i].observations == Some(OrElse(rec.observations, ""))
            && r[i].activeRoutine == Some(OrElse(rec.activeRoutine, ""))
            && r != records
  {
    var rec := records[i];
    var r := ApplyUpdate(records, rec.id, OrElse(rec.observations, ""), OrElse(rec.activeRoutine, ""));
    assert r[i] != records[i];
  }

  datatype RecordsSnapshot = RecordsSnapshot(
    loading: bool,
    error: Option<string>,
    records: seq<PhysicalRecord>,
    editingRecord: Option<PhysicalRecord>,
    observations: string,
    activeRoutine: string,
    routines: seq<Routine>,
    isEditModalOpen: bool,
    updateMessage: Option<UpdateMessage>,
    pendingCloses: nat)

  /** The `GetRecords` component's state. `pendingCloses` counts the
      scheduled "close the modal" steps that have not run yet. */
  class RecordsController {
    var loading: bool
    var error: Option<string>
    var records: seq<PhysicalRecord>
    var editingRecord: Option<PhysicalRecord>
    var observations: string
    var activeRoutine: string
    var routines: seq<Routine>
    var isEditModalOpen: bool
    var updateMessage: Option<UpdateMessage>
    var pendingCloses: nat

    function Snapshot(): (s: RecordsSnapshot)
      reads this
    {
      RecordsSnapshot(loading, error, records, editingRecord, observations, activeRoutine,
                      routines, isEditModalOpen, updateMessage, pendingCloses)
    }

    constructor ()
      ensures Snapshot() == RecordsSnapshot(true, None, [], None, "", "", [], false, None, 0)
    {
      loading := true;
      error := None;
      records := [];
      editingRecord := None;
      observations := "";
      activeRoutine := "";
      routines := [];
      isEditModalOpen := false;
      updateMessage := None;
      pendingCloses := 0;
    }

    /** `fetchData` with the outcomes of the two fetches it joins: both lists
      are set when both fetches succeed and neither otherwise, which sets the
      error text instead; loading ends either way. */
    method FetchData(
      recordsResult: Outcome<seq<PhysicalRecord>>,
      routinesResult: Outcome<seq<Routine>>,
      recordsRejectFirst: bool)
      modifies this
      ensures recordsResult.Success? && routinesResult.Success? ==>
                Snapshot() == old(Snapshot()).(
                  records := recordsResult.value, routines := routinesResult.value, loading := false)
      ensures !(recordsResult.Success? && routinesResult.Success?) ==>
                Snapshot() == old(Snapshot()).(
                  error := Some(OrElse(JoinFetches(recordsResult, routinesResult, recordsRejectFirst).message,
                                       LoadFallbackMessage)),
                  loading := false)
    {
      var joined := JoinFetches(recordsResult, routinesResult, recordsRejectFirst);
      match joined {
        case Success((rs, ros)) =>
          records := rs;
          routines := ros;
        case Failure(m) =>
          error := Some(OrElse(m, LoadFallbackMessage));
      }
      loading := false;
    }

    /** `handleEditRecord`: opens the modal on `rec` with its two fields
      copied into the buffers ('' for an absent or empty field). Its button
      exists only on the records list. */
    method HandleEditRecord(rec: PhysicalRecord)
      requires View().ContentScreen?
      modifies this
      ensures Snapshot() == old(Snapshot()).(
                editingRecord := Some(rec),
                observations := OrElse(rec.observations, ""),
                activeRoutine := OrElse(rec.activeRoutine, ""),
                isEditModalOpen := true)
      ensures ModalVisible()
    {
      editingRecord := Some(rec);
      observations := OrElse(rec.observations, "");
      activeRoutine := OrElse(rec.activeRoutine, "");
      isEditModalOpen := true;
    }

    /** The observations text area's change handler. */
    method SetObservations(text: string)
      modifies this
      ensures Snapshot() == old(Snapshot()).(observations := text)
    {
      observations := text;
    }

    /** The routine selector's change handler; its options carry routine
      names, and "" for no routine. */
    method SetActiveRoutine(name: string)
      modifies this
      ensures Snapshot() == old(Snapshot()).(activeRoutine := name)
    {
      activeRoutine := name;
    }

    /** `handleCloseEditModal`: the buffers are left as they are. */
    method HandleCloseEditModal()
      modifies this
      ensures Snapshot() == old(Snapshot()).(isEditModalOpen := false, editingRecord := None, updateMessage := None)
      ensures !ModalVisible()
    {
      isEditModalOpen := false;
      editingRecord := None;
      updateMessage := None;
    }

    /** `handleSaveChanges` with the outcome of the update call. Without a
      record being edited nothing is sent and nothing changes. Otherwise the
      two buffers are sent for the edited id; only a confirmed update is
      applied to the list (and schedules the modal's closing), a rejected one
      leaves the list and the modal as they were and shows the error. */
    method HandleSaveChanges(response: Outcome<PhysicalRecord>) returns (sent: Option<UpdateRequest>)
      modifies this
      ensures old(editingRecord).None? ==> sent.None? && Snapshot() == old(Snapshot())
      ensures old(editingRecord).Some? ==>
                sent == Some(UpdateRequest(old(editingRecord).value.id, UpdatePayload(old(observations), old(activeRoutine))))
      ensures old(editingRecord).Some? && response.Success? ==>
                Snapshot() == old(Snapshot()).(
                  records := ApplyUpdate(old(records), old(editingRecord).value.id, old(observations), old(activeRoutine)),
                  updateMessage := Some(UpdateMessage(SuccessKind, UpdatedText)),
                  pendingCloses := old(pendingCloses) + 1)
      ensures old(editingRecord).Some? && response.Failure? ==>
                Snapshot() == old(Snapshot()).(updateMessage := Some(UpdateMessage(ErrorKind, UpdateFailedText)))
    {
      if editingRecord.None? {
        return None;
      }
      var id := editingRecord.value.id;
      sent := Some(UpdateRequest(id, UpdatePayload(observations, activeRoutine)));
      match response {
        case Success(_) =>
          records := ApplyUpdate(records, id, observations, activeRoutine);
          updateMessage := Some(UpdateMessage(SuccessKind, UpdatedText));
          pendingCloses := pendingCloses + 1;
        case Failure(_) =>
          updateMessage := Some(UpdateMessage(ErrorKind, UpdateFailedText));
      }
    }

    /** A scheduled close runs two seconds after its save: it closes whatever
      modal is open by then. */
    method CloseTimerFires()
      requires pendingCloses > 0
      modifies this
      ensures Snapshot() == old(Snapshot()).(
                isEditModalOpen := false, editingRecord := None, updateMessage := None,
                pendingCloses := old(pendingCloses) - 1)
    {
      pendingCloses := pendingCloses - 1;
      HandleCloseEditModal();
    }

    /** What the page shows: loading, then a truthy error, then the list. */
    function View(): (v: Screen<PhysicalRecord>)
      reads this
      ensures v.LoadingScreen? <==> loading
      ensures v.ErrorScreen? <==> !loading && Truthy(error)
      ensures v.ErrorScreen? ==> error == Some(v.message)
      ensures v.ContentScreen? ==> v.items == records
    {
      RenderScreen(loading, error, records)
    }

    /** The edit modal belongs to the records list: it is drawn only on that
      screen, never over the loading or error screen, and only while open on
      a record. */
    predicate ModalVisible(): (shown: bool)
      reads this
      ensures shown ==> View().ContentScreen? && editingRecord.Some?
      ensures !isEditModalOpen ==> !shown
    {
      View().ContentScreen? && isEditModalOpen && editingRecord.Some?
    }
  }
}
