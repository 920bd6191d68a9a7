/**
 * The booking wizard of the form component as a state machine on values.
 * `FormState` holds the component's state variables, `Step` says what each
 * handler does to them, and `Enabled` says when the rendered page offers the
 * control that fires it. Host services stay outside: parsing a date is a
 * parameter, and the booking request's outcome is part of the submit event.
 */
module WizardSpec {
  import opened Wrappers
  import opened Vehicles

  /** A date field: `null` until its input is used, then the input's text (possibly `""`). */
  type DateInput = Option<string>

  /** A parsed date, as `toISOString()` writes it into the booking request. */
  type IsoInstant = string

  const NameMissing := "Please enter your first and last name."
  const WheelsMissing := "Please select the number of wheels."
  const TypeMissing := "Please select the type of vehicle."
  const ModelMissing := "Please select a specific vehicle model."
  const DatesMissing := "Please enter both the start and end dates."
  const DatesInvalid := "Please enter valid start and end dates."
  const SubmissionFailed := "Error occurred during form submission. Please try again."

  /** The number of the page shown after a successful booking (one past the review page). */
  const SubmittedStage := 7

  datatype FormState = FormState(
    formStage: int,
    firstName: string,
    lastName: string,
    wheels: string,
    selectedVehicleType: string,
    selectedVehicleModel: string,
    vehicles: seq<Vehicle>,
    startDate: DateInput,
    endDate: DateInput,
    formSubmitted: bool)

  /** The state when the component mounts. */
  function Initial(): (s: FormState)
    ensures s.formStage == 1 && !s.formSubmitted && s.vehicles == []
    ensures DraftCleared(s)
  {
    FormState(1, "", "", "", "", "", [], None, None, false)
  }

  /** The seven fields of the booking draft. */
  datatype Field = FirstName | LastName | Wheels | VehicleType | VehicleModel | StartDate | EndDate

  /** JavaScript falsiness of a date field: `null` or the empty text. */
  predicate DateBlank(d: DateInput) {
    d.None? || d.value == ""
  }

  /** A draft field is falsy, that is missing for the wizard's checks. */
  predicate Blank(s: FormState, f: Field) {
    match f
    case FirstName => s.firstName == ""
    case LastName => s.lastName == ""
    case Wheels => s.wheels == ""
    case VehicleType => s.selectedVehicleType == ""
    case VehicleModel => s.selectedVehicleModel == ""
    case StartDate => DateBlank(s.startDate)
    case EndDate => DateBlank(s.endDate)
  }

  /** Which draft fields each page asks for before the user may leave it forwards. */
  function RequiredFields(stage: int): set<Field> {
    if stage == 1 then {FirstName, LastName}
    else if stage == 2 then {Wheels}
    else if stage == 3 then {VehicleType}
    else if stage == 4 then {VehicleModel}
    else if stage == 5 then {StartDate, EndDate}
    else {}
  }

  /** The alert each page shows when one of its required fields is missing. */
  function StageMessage(stage: int): string {
    if stage == 1 then NameMissing
    else if stage == 2 then WheelsMissing
    else if stage == 3 then TypeMissing
    else if stage == 4 then ModelMissing
    else DatesMissing
  }

  /** Every field the page asks for is filled in. */
  ghost predicate StageFilled(s: FormState, stage: int) {
    forall f :: f in RequiredFields(stage) ==> !Blank(s, f)
  }

  /** The draft after a successful booking: every text `""`, both dates `null`. */
  predicate DraftCleared(s: FormState) {
    s.firstName == "" && s.lastName == "" && s.wheels == ""
    && s.selectedVehicleType == "" && s.selectedVehicleModel == ""
    && s.startDate == None && s.endDate == None
  }

  /**
   * The check run by "Next": an alert when the current page's fields are
   * missing, none otherwise (and none on a page without fields).
   */
  function ValidationError(s: FormState): (r: Option<string>)
    ensures r.Some? <==> 1 <= s.formStage <= 5 && !StageFilled(s, s.formStage)
    ensures r.Some? ==> r.value == StageMessage(s.formStage)
  {
    if s.formStage == 1 && (s.firstName == "" || s.lastName == "") then
      assert !Blank(s, FirstName) ==> Blank(s, LastName);
      Some(NameMissing)
    else if s.formStage == 2 && s.wheels == "" then
      assert Blank(s, Wheels);
      Some(WheelsMissing)
    else if s.formStage == 3 && s.selectedVehicleType == "" then
      assert Blank(s, VehicleType);
      Some(TypeMissing)
    else if s.formStage == 4 && s.selectedVehicleModel == "" then
      assert Blank(s, VehicleModel);
      Some(ModelMissing)
    else if s.formStage == 5 && (DateBlank(s.startDate) || DateBlank(s.endDate)) then
      assert !Blank(s, StartDate) ==> Blank(s, EndDate);
      Some(DatesMissing)
    else
      None
  }

  /** The body of the booking request. */
  datatype BookingRequest = BookingRequest(
    firstName: string,
    lastName: string,
    vehicleType: string,
    model: string,
    wheels: string,
    startDate: IsoInstant,
    endDate: IsoInstant)

  /** What the submit handler does before any request: give up on a bad date, or send. */
  datatype SubmitPlan = RejectDates | Send(request: BookingRequest)

  /**
   * The date gate of "Submit": when either date does not parse nothing is
   * sent; otherwise the request carries the current draft and both parsed dates.
   */
  function PlanSubmission(s: FormState, parse: DateInput -> Option<IsoInstant>): (r: SubmitPlan)
    ensures r.RejectDates? <==> parse(s.startDate).None? || parse(s.endDate).None?
    ensures r.Send? ==>
      r.request.firstName == s.firstName && r.request.lastName == s.lastName
      && r.request.vehicleType == s.selectedVehicleType && r.request.model == s.selectedVehicleModel
      && r.request.wheels == s.wheels
      && Some(r.request.startDate) == parse(s.startDate) && Some(r.request.endDate) == parse(s.endDate)
  {
    var start := parse(s.startDate);
    var end := parse(s.endDate);
    if start.None? || end.None? then RejectDates
    else Send(BookingRequest(s.firstName, s.lastName, s.selectedVehicleType, s.selectedVehicleModel,
                             s.wheels, start.value, end.value))
  }

  /** Why a booking request failed: the server answered with an error, or no answer came. */
  datatype BookingError =
    | ServerError(message: Option<string>)  // the `message` of the response body, when it has one
    | RequestError

  datatype BookingOutcome = Booked | Rejected(error: BookingError)

  /**
   * The alert for a failed request: the server's own message when it answered
   * (an absent message is `undefined`, which `alert` shows as the text "undefined"), the fixed text otherwise.
   */
  function FailureAlert(e: BookingError): (m: string)
    ensures e.ServerError? && e.message.Some? ==> m == e.message.value
    ensures e.ServerError? && e.message.None? ==> m == "undefined"
    ensures e.RequestError? ==> m == SubmissionFailed
  {
    match e
    case ServerError(message) => message.GetOr("undefined")
    case RequestError => SubmissionFailed
  }

  /** The state after the booking succeeded: the draft cleared, the submitted page shown. */
  function AfterBooking(s: FormState): (r: FormState)
    ensures DraftCleared(r) && r.formSubmitted && r.formStage == s.formStage + 1
    ensures r.vehicles == s.vehicles
  {
    s.(firstName := "", lastName := "", wheels := "", selectedVehicleType := "",
       selectedVehicleModel := "", startDate := None, endDate := None,
       formSubmitted := true, formStage := s.formStage + 1)
  }

  /** The user actions and the one asynchronous arrival the component reacts to. */
  datatype Event =
    | NextClicked
    | BackClicked
    | SubmitClicked(parse: DateInput -> Option<IsoInstant>, outcome: BookingOutcome)
    | StartOverClicked
    | FirstNameTyped(text: string)
    | LastNameTyped(text: string)
    | WheelsPicked(value: string)
    | TypePicked(vehicleType: string)
    | ModelPicked(model: string)
    | StartDateTyped(text: string)
    | EndDateTyped(text: string)
    | VehiclesFetched(list: seq<Vehicle>)

  /** The new state, the alert shown (if any) and the booking request sent (if any). */
  datatype Transition = Transition(state: FormState, alert: Option<string>, request: Option<BookingRequest>)

  /** The new state, with no alert and no request. */
  function Quiet(s: FormState): Transition {
    Transition(s, None, None)
  }

  /**
   * What each handler does. The handlers check nothing beyond what is written
   * here. Only "Next" and "Submit" alert, only "Submit" sends a request, only
   * the inventory's arrival changes the inventory, and only "Submit" and
   * "Start Over" change the submitted flag.
   */
  function Step(s: FormState, e: Event): (r: Transition)
    ensures r.alert.Some? ==> e.NextClicked? || e.SubmitClicked?
    ensures r.request.Some? ==> e.SubmitClicked?
    ensures r.state.vehicles != s.vehicles ==> e.VehiclesFetched?
    ensures r.state.formSubmitted != s.formSubmitted ==> e.SubmitClicked? || e.StartOverClicked?
  {
    match e
    case NextClicked =>
      var error := ValidationError(s);
      if error.Some? then Transition(s, error, None) else Quiet(s.(formStage := s.formStage + 1))
    case BackClicked => Quiet(s.(formStage := s.formStage - 1))
    case SubmitClicked(parse, outcome) =>
      (match PlanSubmission(s, parse)
       case RejectDates => Transition(s, Some(DatesInvalid), None)
       case Send(request) =>
         match outcome
         case Booked => Transition(AfterBooking(s), None, Some(request))
         case Rejected(error) => Transition(s, Some(FailureAlert(error)), Some(request)))
    case StartOverClicked => Quiet(s.(formSubmitted := false, formStage := 1))
    case FirstNameTyped(text) => Quiet(s.(firstName := text))
    case LastNameTyped(text) => Quiet(s.(lastName := text))
    case WheelsPicked(value) => Quiet(s.(wheels := value))
    case TypePicked(t) => Quiet(s.(selectedVehicleType := t, selectedVehicleModel := ""))
    case ModelPicked(m) => Quiet(s.(selectedVehicleModel := m))
    case StartDateTyped(text) => Quiet(s.(startDate := Some(text)))
    case EndDateTyped(text) => Quiet(s.(endDate := Some(text)))
    case VehiclesFetched(list) => Quiet(s.(vehicles := list))
  }

  /** The page is one of the six wizard pages (the submitted page hides them all). */
  predicate OnPage(s: FormState, stage: int) {
    !s.formSubmitted && s.formStage == stage
  }

  /**
   * When the rendered page offers the control behind the event: "Next" on
   * pages 1 to 5 (disabled on page 5 while a date is missing), "Back" on
   * pages 2 to 6, "Submit" on page 6, "Start Over" after a booking, each input
   * on its own page, a radio choice only among the values on offer. The
   * inventory may arrive at any time.
   */
  ghost predicate Enabled(s: FormState, e: Event)
    ensures Enabled(s, e) && e.StartOverClicked? ==> s.formSubmitted
    ensures Enabled(s, e) && !e.StartOverClicked? && !e.VehiclesFetched? ==> !s.formSubmitted && 1 <= s.formStage <= 6
  {
    match e
    case NextClicked =>
      !s.formSubmitted && 1 <= s.formStage <= 5
      && (s.formStage == 5 ==> !DateBlank(s.startDate) && !DateBlank(s.endDate))
    case BackClicked => !s.formSubmitted && 2 <= s.formStage <= 6
    case SubmitClicked(_, _) => OnPage(s, 6)
    case StartOverClicked => s.formSubmitted
    case FirstNameTyped(_) => OnPage(s, 1)
    case LastNameTyped(_) => OnPage(s, 1)
    case WheelsPicked(value) => OnPage(s, 2) && (value == "2" || value == "4")
    case TypePicked(t) =>
      OnPage(s, 3) && exists v :: v in TypeOptions(s.vehicles, s.wheels) && v.vehicleType == t
    case ModelPicked(m) =>
      OnPage(s, 4)
      && exists v :: v in ModelOptions(s.vehicles, s.wheels, s.selectedVehicleType) && v.model == m
    case StartDateTyped(_) => OnPage(s, 5)
    case EndDateTyped(_) => OnPage(s, 5)
    case VehiclesFetched(_) => true
  }

  /**
   * What holds of every state the page can reach: before a booking the page
   * number is 1 to 6 and every earlier page's fields are filled in; after one,
   * the page number is 7 and the draft is empty; the wheel count is only ever
   * empty or one of the two radio values.
   */
  ghost predicate Invariant(s: FormState)
    ensures Invariant(s) && s.formSubmitted ==>
              s == Initial().(vehicles := s.vehicles, formStage := SubmittedStage, formSubmitted := true)
  {
    (s.wheels == "" || s.wheels == "2" || s.wheels == "4")
    && (!s.formSubmitted ==> 1 <= s.formStage <= 6
                              && forall k :: 1 <= k < s.formStage ==> StageFilled(s, k))
    && (s.formSubmitted ==> s.formStage == SubmittedStage && DraftCleared(s))
  }

  /** Applies the events in order. */
  function Run(s: FormState, events: seq<Event>): FormState
    decreases |events|
  {
    if events == [] then s else Run(Step(s, events[0]).state, events[1..])
  }

  /** Every event of the sequence is offered by the page at the moment it happens. */
  ghost predicate EnabledTrace(s: FormState, events: seq<Event>)
    decreases |events|
  {
    events == [] || (Enabled(s, events[0]) && EnabledTrace(Step(s, events[0]).state, events[1..]))
  }
}
