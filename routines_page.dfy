/** The coach's routine catalogue: fetches all routines, shows them as a
    grid, and opens or closes the details of one. */
module RoutinesPage {
  import opened Common

  const LoadFailedMessage := "No se pudieron cargar las rutinas. Por favor, intente de nuevo más tarde."

  datatype RoutinesSnapshot = RoutinesSnapshot(
    routines: seq<Routine>,
    loading: bool,
    error: Option<string>,
    selectedRoutine: Option<Routine>)

  /** The `RoutinesPage` component's state. */
  class RoutineListPage {
    var routines: seq<Routine>
    var loading: bool
    var error: Option<string>
    var selectedRoutine: Option<Routine>

    function Snapshot(): (s: RoutinesSnapshot)
      reads this
    {
      RoutinesSnapshot(routines, loading, error, selectedRoutine)
    }

    constructor ()
      ensures Snapshot() == RoutinesSnapshot([], true, None, None)
    {
      routines := [];
      loading := true;
      error := None;
      selectedRoutine := None;
    }

    /** `fetchRoutines` with the outcome of `getAllRoutines`: the list on
      success (the error untouched), the fixed message on failure (the list
      untouched); loading ends either way. */
    method FetchRoutines(response: Outcome<seq<Routine>>)
      modifies this
      ensures response.Success? ==> Snapshot() == old(Snapshot()).(routines := response.value, loading := false)
      ensures response.Failure? ==> Snapshot() == old(Snapshot()).(error := Some(LoadFailedMessage), loading := false)
    {
      loading := true;
      match response {
        case Success(data) =>
          routines := data;
          loading := false;
        case Failure(_) =>
          error := Some(LoadFailedMessage);
          loading := false;
      }
    }

    method HandleRoutineClick(r: Routine)
      modifies this
      ensures Snapshot() == old(Snapshot()).(selectedRoutine := Some(r))
    {
      selectedRoutine := Some(r);
    }

    method CloseRoutineDetails()
      modifies this
      ensures Snapshot() == old(Snapshot()).(selectedRoutine := None)
    {
      selectedRoutine := None;
    }

    /** What the page shows: loading, then a truthy error, then the grid. */
    function View(): (v: Screen<Routine>)
      reads this
      ensures v.LoadingScreen? <==> loading
      ensures v.ErrorScreen? <==> !loading && Truthy(error)
      ensures v.ErrorScreen? ==> error == Some(v.message)
      ensures v.ContentScreen? ==> v.items == routines
    {
      RenderScreen(loading, error, routines)
    }

    /** The details overlay is drawn with the grid, for the selected routine. */
    function DetailsShown(): (shown: Option<Routine>)
      reads this
      ensures shown.Some? ==> !loading && !Truthy(error) && shown == selectedRoutine
      ensures selectedRoutine.Some? && View().ContentScreen? ==> shown == selectedRoutine
    {
      if View().ContentScreen? then selectedRoutine else None
    }
  }
}
