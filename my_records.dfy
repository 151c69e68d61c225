/** The student's own records page: reads the user id from storage, fetches
    that user's history and shows loading, an error, or the list. */
module MyRecords {
  import opened Common

  const MissingUserIdMessage := "No se encontró el ID de usuario"
  const LoadFallbackMessage := "Error al cargar los registros de usuario"

  datatype MyRecordsSnapshot = MyRecordsSnapshot(
    loading: bool,
    error: Option<string>,
    records: seq<PhysicalRecord>,
    userId: string)

  /** The `MyRecords` component's state. */
  class MyRecordsPage {
    var loading: bool
    var error: Option<string>
    var records: seq<PhysicalRecord>
    var userId: string

    function Snapshot(): (s: MyRecordsSnapshot)
      reads this
    {
      MyRecordsSnapshot(loading, error, records, userId)
    }

    constructor ()
      ensures Snapshot() == MyRecordsSnapshot(true, None, [], "")
    {
      loading := true;
      error := None;
      records := [];
      userId := "";
    }

    /** `fetchUserRecords` with the storage and the outcome of the history
      fetch. A missing or empty `userId` throws before any fetch: nothing is
      requested and the fixed message is the error. Otherwise the id is kept
      and requested; its records are shown on success, the message (or the
      fallback) on failure. Loading ends in every case. */
    method FetchUserRecords(store: Storage, response: Outcome<seq<PhysicalRecord>>)
      returns (requested: Option<string>)
      modifies this
      ensures requested.Some? <==> Truthy(GetItem(store, "userId"))
      ensures requested.Some? ==> requested.value == store["userId"]
      ensures requested.None? ==>
                Snapshot() == old(Snapshot()).(error := Some(MissingUserIdMessage), loading := false)
      ensures requested.Some? && response.Success? ==>
                Snapshot() == old(Snapshot()).(userId := store["userId"], records := response.value, loading := false)
      ensures requested.Some? && response.Failure? ==>
                Snapshot() == old(Snapshot()).(
                  userId := store["userId"], error := Some(OrElse(response.message, LoadFallbackMessage)),
                  loading := false)
    {
      var stored := GetItem(store, "userId");
      if !Truthy(stored) {
        requested := None;
        error := Some(MissingUserIdMessage);
        loading := false;
        return;
      }
      userId := stored.value;
      requested := Some(stored.value);
      match response {
        case Success(rs) =>
          records := rs;
        case Failure(m) =>
          error := Some(OrElse(m, LoadFallbackMessage));
      }
      loading := false;
    }

    /** What the page shows: loading, then a truthy error, then the list. */
    function View(): (v: Screen<PhysicalRecord>)
      reads this
      ensures v.LoadingScreen? <==> loading
      ensures v.ErrorScreen? <==> !loading && Truthy(error)
      ensures v.ErrorScreen? ==> error == Some(v.message)
      ensures v.ContentScreen? ==> v.items == records
    {
      RenderScreen(loading, error, records)
    }
  }
}
