/** Shared vocabulary of the client: optional values, the abstract outcome of a
    backend call, the browser's key/value storage, the entities the pages show,
    and the loading/error/content precedence every list page renders with. */
module Common {

  datatype Option<T> = None | Some(value: T)

  /** Outcome of one backend call: the decoded value, or a rejection that may
      carry an error message (`err.message`). */
  datatype Outcome<T> = Success(value: T) | Failure(message: Option<string>)

  /** The contents of `localStorage`: string keys to string values. */
  type Storage = map<string, string>

  /** `localStorage.getItem(key)`: the stored string, or null when absent. */
  function GetItem(store: Storage, key: string): (r: Option<string>)
    ensures r.Some? <==> key in store
    ensures r.Some? ==> r.value == store[key]
  {
    if key in store then Some(store[key]) else None
  }

  /** JavaScript truthiness of a `string | null`: null and "" are falsy. */
  predicate Truthy(s: Option<string>): (t: bool)
    ensures t ==> s.Some? && |s.value| > 0
    ensures s == None || s == Some("") ==> !t
  {
    s.Some? && s.value != ""
  }

  /** `s || fallback` on an optional string (`err.message || 'Error ...'`,
      `record.observations || ''`): the string when it is non-empty, the
      fallback otherwise. */
  function OrElse(s: Option<string>, fallback: string): (r: string)
    ensures fallback != "" ==> r != ""
    ensures r == fallback || (s.Some? && r == s.value)
    ensures Truthy(s) ==> r == s.value
    ensures !Truthy(s) ==> r == fallback
  {
    if Truthy(s) then s.value else fallback
  }

  /** The browser's persistent storage, shared by every page. */
  class LocalStorage {
    var items: Storage

    constructor (initial: Storage)
      ensures items == initial
    {
      items := initial;
    }

    /** `localStorage.setItem(key, value)`. */
    method SetItem(key: string, value: string)
      modifies this
      ensures items == old(items)[key := value]
    {
      items := items[key := value];
    }
  }

  /** One exercise of a routine (`ExerciseDTO`). */
  datatype Exercise = Exercise(
    name: string,
    description: string,
    sets: int,
    repetitions: int,
    instructions: string)

  /** A routine as the backend returns it. */
  datatype Routine = Routine(
    id: string,
    name: string,
    objective: string,
    description: string,
    duration: string,
    frequency: string,
    exercises: seq<Exercise>)

  /** A physical record as the backend returns it; `observations` and
      `activeRoutine` are the two fields a coach may edit. The registration
      date is kept as the server's text (its formatting is not modelled). */
  datatype PhysicalRecord = PhysicalRecord(
    id: string,
    userName: string,
    userId: Option<string>,
    role: Option<string>,
    registrationDate: string,
    weight: real,
    bodyMeasurements: map<string, real>,
    physicalGoal: string,
    observations: Option<string>,
    activeRoutine: Option<string>)

  /** The five measurement keys the client knows about. */
  const KnownMeasurementKeys: set<string> := {"chest", "waist", "hips", "arms", "legs"}

  /** Display label of a measurement key: Spanish for the five known keys,
      the key itself for any other. */
  function MeasurementLabel(key: string): (text: string)
    ensures text != key <==> key in KnownMeasurementKeys
    ensures key !in KnownMeasurementKeys ==> text == key
  {
    if key == "chest" then "Pecho"
    else if key == "waist" then "Cintura"
    else if key == "hips" then "Cadera"
    else if key == "arms" then "Brazos"
    else if key == "legs" then "Piernas"
    else key
  }

  /** The five labels are pairwise distinct, and no label is itself one of
      the five keys, so a shown label never reads as a raw key. */
  lemma MeasurementLabelSpec(key: string)
    ensures MeasurementLabel(key) !in KnownMeasurementKeys
    ensures forall k1, k2 :: k1 in KnownMeasurementKeys && k2 in KnownMeasurementKeys && k1 != k2
              ==> MeasurementLabel(k1) != MeasurementLabel(k2)
  {
  }

  /** What a list page shows. */
  datatype Screen<T> = LoadingScreen | ErrorScreen(message: string) | ContentScreen(items: seq<T>)

  /** Render precedence of the list pages: while loading only the loading
      text, then a truthy error, and only then the list. */
  function RenderScreen<T>(loading: bool, error: Option<string>, items: seq<T>): (s: Screen<T>)
    ensures s.LoadingScreen? <==> loading
    ensures s.ErrorScreen? <==> !loading && Truthy(error)
    ensures s.ErrorScreen? ==> s.message == error.value
    ensures s.ContentScreen? <==> !loading && !Truthy(error)
    ensures s.ContentScreen? ==> s.items == items
  {
    if loading then LoadingScreen
    else if Truthy(error) then ErrorScreen(error.value)
    else ContentScreen(items)
  }
}
