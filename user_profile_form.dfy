/** The student's profile form: text inputs for weight, goal and five body
    measurements, and a submit that builds the physical-record DTO with only
    the measurements that were filled in. */
module UserProfileForm {
  import opened Common
  import App

  const DefaultUserName := "Usuario"
  const SubmitFallbackMessage := "Error al enviar los datos al servidor"
  const AfterSubmitPath := "/Estadisticas"

  /** The five measurement inputs, by their `name` attribute. */
  datatype MeasurementKey = Chest | Waist | Hips | Arms | Legs

  /** The key the backend uses for a measurement. */
  function KeyName(k: MeasurementKey): (name: string)
    ensures name in KnownMeasurementKeys
  {
    match k
    case Chest => "chest"
    case Waist => "waist"
    case Hips => "hips"
    case Arms => "arms"
    case Legs => "legs"
  }

  /** The raw text of the five measurement inputs. */
  datatype MeasurementInputs = MeasurementInputs(chest: string, waist: string, hips: string, arms: string, legs: string)
  {
    function Get(k: MeasurementKey): (v: string)
    {
      match k
      case Chest => chest
      case Waist => waist
      case Hips => hips
      case Arms => arms
      case Legs => legs
    }

    /** `{ ...bodyMeasurements, [name]: value }`: only the named input changes. */
    function Set(k: MeasurementKey, value: string): (r: MeasurementInputs)
      ensures r.Get(k) == value
      ensures forall j | j != k :: r.Get(j) == Get(j)
    {
      match k
      case Chest => this.(chest := value)
      case Waist => this.(waist := value)
      case Hips => this.(hips := value)
      case Arms => this.(arms := value)
      case Legs => this.(legs := value)
    }
  }

  /** The top-level text fields `handleChange` can set; the user name input
      is read-only and has no change handler. */
  datatype ProfileField = Weight | PersonalGoals

  /** The form's data (`formData`). */
  datatype ProfileData = ProfileData(
    username: string,
    weight: string,
    bodyMeasurements: MeasurementInputs,
    personalGoals: string)

  function FieldValue(d: ProfileData, f: ProfileField): (v: string)
  {
    match f
    case Weight => d.weight
    case PersonalGoals => d.personalGoals
  }

  /** `handleChange`: the named field takes the value; the other fields and
      every measurement are unchanged. */
  function SetField(d: ProfileData, f: ProfileField, value: string): (r: ProfileData)
    ensures FieldValue(r, f) == value
    ensures forall g | g != f :: FieldValue(r, g) == FieldValue(d, g)
    ensures r.username == d.username
    ensures r.bodyMeasurements == d.bodyMeasurements
  {
    match f
    case Weight => d.(weight := value)
    case PersonalGoals => d.(personalGoals := value)
  }

  /** `handleMeasurementChange`: only the named measurement changes. */
  function SetMeasurement(d: ProfileData, k: MeasurementKey, value: string): (r: ProfileData)
    ensures r.bodyMeasurements.Get(k) == value
    ensures forall j | j != k :: r.bodyMeasurements.Get(j) == d.bodyMeasurements.Get(j)
    ensures r == d.(bodyMeasurements := r.bodyMeasurements)
  {
    d.(bodyMeasurements := d.bodyMeasurements.Set(k, value))
  }

  /** The initial user name: the stored `username` when it is a non-empty
      string, "Usuario" otherwise. */
  function InitialUserName(store: Storage): (name: string)
    ensures "username" in store && store["username"] != "" ==> name == store["username"]
    ensures !("username" in store && store["username"] != "") ==> name == DefaultUserName
  {
    OrElse(GetItem(store, "username"), DefaultUserName)
  }

  /** The body sent to `createPhysicalRecord`. */
  datatype RecordDTO = RecordDTO(
    userName: string,
    weight: real,
    bodyMeasurements: map<string, real>,
    physicalGoal: string)

  /** The measurement dictionary of the DTO, built one conditional assignment
      per input: its keys are among the five known ones, a key is present
      exactly when its input text is non-empty, and it maps to the parse of
      that text. `parseFloat` is passed in uninterpreted. */
  method BuildBodyMeasurements(inputs: MeasurementInputs, parseFloat: string -> real)
    returns (m: map<string, real>)
    ensures m.Keys <= KnownMeasurementKeys
    ensures m.Keys == set k | inputs.Get(k) != "" :: KeyName(k)
    ensures forall k :: KeyName(k) in m <==> inputs.Get(k) != ""
    ensures forall k | KeyName(k) in m :: m[KeyName(k)] == parseFloat(inputs.Get(k))
  {
    m := map[];
    if inputs.chest != "" { m := m["chest" := parseFloat(inputs.chest)]; }
    if inputs.waist != "" { m := m["waist" := parseFloat(inputs.waist)]; }
    if inputs.hips != "" { m := m["hips" := parseFloat(inputs.hips)]; }
    if inputs.arms != "" { m := m["arms" := parseFloat(inputs.arms)]; }
    if inputs.legs != "" { m := m["legs" := parseFloat(inputs.legs)]; }
    FilledKeySet(m.Keys, inputs);
  }

  /** A set of known keys holding exactly the keys of the filled-in inputs is
      the image of those inputs under `KeyName`. */
  lemma FilledKeySet(keys: set<string>, inputs: MeasurementInputs)
    requires keys <= KnownMeasurementKeys
    requires forall k :: KeyName(k) in keys <==> inputs.Get(k) != ""
    ensures keys == set k | inputs.Get(k) != "" :: KeyName(k)
  {
    var filled := set k | inputs.Get(k) != "" :: KeyName(k);
    forall x | x in keys ensures x in filled {
      var k := if x == "chest" then Chest else if x == "waist" then Waist
               else if x == "hips" then Hips else if x == "arms" then Arms else Legs;
      assert KeyName(k) == x;
    }
  }

  /** With a valid session, the page reached after a successful submit is
      the statistics page. */
  lemma AfterSubmitShowsStatistics(store: Storage)
    requires App.IsAuthenticated(store)
    ensures App.Resolve(AfterSubmitPath, store) == App.Show(App.GraphsPage)
  {
  }

  datatype ProfileSnapshot = ProfileSnapshot(loading: bool, error: Option<string>, formData: ProfileData)

  /** The `UserProfileForm` component's state. */
  class ProfileForm {
    var loading: bool
    var error: Option<string>
    var formData: ProfileData

    function Snapshot(): (s: ProfileSnapshot)
      reads this
    {
      ProfileSnapshot(loading, error, formData)
    }

    /** The first render: empty inputs, idle, no error. */
    constructor ()
      ensures Snapshot() == ProfileSnapshot(false, None, ProfileData("", "", MeasurementInputs("", "", "", "", ""), ""))
    {
      loading := false;
      error := None;
      formData := ProfileData("", "", MeasurementInputs("", "", "", "", ""), "");
    }

    /** The mount effect: takes the user name from storage. */
    method LoadUserName(store: Storage)
      modifies this
      ensures Snapshot() == old(Snapshot()).(formData := old(formData).(username := InitialUserName(store)))
    {
      formData := formData.(username := OrElse(GetItem(store, "username"), DefaultUserName));
    }

    method HandleChange(f: ProfileField, value: string)
      modifies this
      ensures Snapshot() == old(Snapshot()).(formData := SetField(old(formData), f, value))
    {
      formData := SetField(formData, f, value);
    }

    method HandleMeasurementChange(k: MeasurementKey, value: string)
      modifies this
      ensures Snapshot() == old(Snapshot()).(formData := SetMeasurement(old(formData), k, value))
    {
      formData := SetMeasurement(formData, k, value);
    }

    /** `handleSubmit` with the outcome of `createPhysicalRecord`: the DTO is
      always sent (the handler itself makes no check); a success navigates to
      the statistics page, a failure sets the message or the fallback; loading
      is off afterwards either way and the form data is kept. */
    method HandleSubmit(parseFloat: string -> real, response: Outcome<PhysicalRecord>)
      returns (sent: RecordDTO, target: Option<string>)
      modifies this
      ensures sent.userName == old(formData).username
      ensures sent.physicalGoal == old(formData).personalGoals
      ensures sent.weight == parseFloat(old(formData).weight)
      ensures sent.bodyMeasurements.Keys <= KnownMeasurementKeys
      ensures sent.bodyMeasurements.Keys == set k | old(formData).bodyMeasurements.Get(k) != "" :: KeyName(k)
      ensures forall k :: KeyName(k) in sent.bodyMeasurements <==> old(formData).bodyMeasurements.Get(k) != ""
      ensures forall k | KeyName(k) in sent.bodyMeasurements ::
                sent.bodyMeasurements[KeyName(k)] == parseFloat(old(formData).bodyMeasurements.Get(k))
      ensures response.Success? ==> target == Some(AfterSubmitPath) && Snapshot() == old(Snapshot()).(loading := false, error := None)
      ensures response.Failure? ==> target.None? && Snapshot() == old(Snapshot()).(
                loading := false, error := Some(OrElse(response.message, SubmitFallbackMessage)))
    {
      loading := true;
      error := None;
      var measurements := BuildBodyMeasurements(formData.bodyMeasurements, parseFloat);
      sent := RecordDTO(formData.username, parseFloat(formData.weight), measurements, formData.personalGoals);
      match response {
        case Success(_) =>
          target := Some(AfterSubmitPath);
        case Failure(m) =>
          target := None;
          error := Some(OrElse(m, SubmitFallbackMessage));
      }
      loading := false;
    }
  }
}
