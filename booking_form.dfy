/**
 * The form component itself: its state variables as fields, its handlers as
 * methods that update them in place. Each method is proved to do what
 * `WizardSpec.Step` says of its event, and to keep `WizardSpec.Invariant`
 * whenever the rendered page offers the control behind it.
 */
module BookingForm {
  import opened Wrappers
  import opened Vehicles
  import opened WizardSpec
  import WizardProperties

  class Wizard {
    var formStage: int
    var firstName: string
    var lastName: string
    var wheels: string
    var selectedVehicleType: string
    var selectedVehicleModel: string
    var vehicles: seq<Vehicle>
    var startDate: DateInput
    var endDate: DateInput
    var formSubmitted: bool

    /** The fields as one value. */
    function State(): FormState
      reads this
    {
      FormState(formStage, firstName, lastName, wheels, selectedVehicleType, selectedVehicleModel,
                vehicles, startDate, endDate, formSubmitted)
    }

    ghost predicate Valid()
      reads this
    {
      Invariant(State())
    }

    /** Mounting: the initial values of every state variable. */
    constructor ()
      ensures State() == Initial() && Valid()
    {
      formStage := 1;
      firstName, lastName, wheels := "", "", "";
      selectedVehicleType, selectedVehicleModel := "", "";
      vehicles := [];
      startDate, endDate := None, None;
      formSubmitted := false;
    }

    /** The inventory request answered: the list replaces the inventory. */
    method SetVehicles(list: seq<Vehicle>)
      modifies this
      ensures State() == Step(old(State()), VehiclesFetched(list)).state
      ensures old(Valid()) ==> Valid()
    {
      vehicles := list;
      if old(Valid()) {
        WizardProperties.StepPreservesInvariant(old(State()), VehiclesFetched(list));
      }
    }

    /** "Next": the current page's check, then one page forward. */
    method NextStep() returns (alert: Option<string>)
      modifies this
      ensures State() == Step(old(State()), NextClicked).state
      ensures alert == Step(old(State()), NextClicked).alert
      ensures old(Valid() && Enabled(State(), NextClicked)) ==> Valid()
    {
      alert := None;
      if formStage == 1 && (firstName == "" || lastName == "") {
        alert := Some(NameMissing);
      } else if formStage == 2 && wheels == "" {
        alert := Some(WheelsMissing);
      } else if formStage == 3 && selectedVehicleType == "" {
        alert := Some(TypeMissing);
      } else if formStage == 4 && selectedVehicleModel == "" {
        alert := Some(ModelMissing);
      } else if formStage == 5 && (DateBlank(startDate) || DateBlank(endDate)) {
        alert := Some(DatesMissing);
      }
      if alert.None? {
        formStage := formStage + 1;
      }
      if old(Valid() && Enabled(State(), NextClicked)) {
        WizardProperties.StepPreservesInvariant(old(State()), NextClicked);
      }
    }

    /** "Back": one page back, unchecked. */
    method PrevStep()
      modifies this
      ensures State() == Step(old(State()), BackClicked).state
      ensures old(Valid() && Enabled(State(), BackClicked)) ==> Valid()
    {
      formStage := formStage - 1;
      if old(Valid() && Enabled(State(), BackClicked)) {
        WizardProperties.StepPreservesInvariant(old(State()), BackClicked);
      }
    }

    method SetFirstName(text: string)
      modifies this
      ensures State() == Step(old(State()), FirstNameTyped(text)).state
      ensures old(Valid() && Enabled(State(), FirstNameTyped(text))) ==> Valid()
    {
      firstName := text;
      if old(Valid() && Enabled(State(), FirstNameTyped(text))) {
        WizardProperties.StepPreservesInvariant(old(State()), FirstNameTyped(text));
      }
    }

    method SetLastName(text: string)
      modifies this
      ensures State() == Step(old(State()), LastNameTyped(text)).state
      ensures old(Valid() && Enabled(State(), LastNameTyped(text))) ==> Valid()
    {
      lastName := text;
      if old(Valid() && Enabled(State(), LastNameTyped(text))) {
        WizardProperties.StepPreservesInvariant(old(State()), LastNameTyped(text));
      }
    }

    /** A wheel-count radio button: `"2"` or `"4"`. */
    method SetWheels(value: string)
      modifies this
      ensures State() == Step(old(State()), WheelsPicked(value)).state
      ensures old(Valid() && Enabled(State(), WheelsPicked(value))) ==> Valid()
    {
      wheels := value;
      if old(Valid() && Enabled(State(), WheelsPicked(value))) {
        WizardProperties.StepPreservesInvariant(old(State()), WheelsPicked(value));
      }
    }

    /** A vehicle-type radio button: records the type and clears the chosen model. */
    method SelectVehicleType(t: string)
      modifies this
      ensures State() == Step(old(State()), TypePicked(t)).state
      ensures old(Valid() && Enabled(State(), TypePicked(t))) ==> Valid()
    {
      selectedVehicleType := t;
      selectedVehicleModel := "";
      if old(Valid() && Enabled(State(), TypePicked(t))) {
        WizardProperties.StepPreservesInvariant(old(State()), TypePicked(t));
      }
    }

    method SelectVehicleModel(m: string)
      modifies this
      ensures State() == Step(old(State()), ModelPicked(m)).state
      ensures old(Valid() && Enabled(State(), ModelPicked(m))) ==> Valid()
    {
      selectedVehicleModel := m;
      if old(Valid() && Enabled(State(), ModelPicked(m))) {
        WizardProperties.StepPreservesInvariant(old(State()), ModelPicked(m));
      }
    }

    method SetStartDate(text: string)
      modifies this
      ensures State() == Step(old(State()), StartDateTyped(text)).state
      ensures old(Valid() && Enabled(State(), StartDateTyped(text))) ==> Valid()
    {
      startDate := Some(text);
      if old(Valid() && Enabled(State(), StartDateTyped(text))) {
        WizardProperties.StepPreservesInvariant(old(State()), StartDateTyped(text));
      }
    }

    method SetEndDate(text: string)
      modifies this
      ensures State() == Step(old(State()), EndDateTyped(text)).state
      ensures old(Valid() && Enabled(State(), EndDateTyped(text))) ==> Valid()
    {
      endDate := Some(text);
      if old(Valid() && Enabled(State(), EndDateTyped(text))) {
        WizardProperties.StepPreservesInvariant(old(State()), EndDateTyped(text));
      }
    }

    /** The success callback of the booking request: clear the draft, show the submitted page. */
    method OnBookingSuccess()
      modifies this
      ensures State() == AfterBooking(old(State()))
    {
      firstName, lastName, wheels := "", "", "";
      selectedVehicleType, selectedVehicleModel := "", "";
      startDate, endDate := None, None;
      formSubmitted := true;
      formStage := formStage + 1;
    }

    /**
     * "Submit": the date gate, then the booking request, whose outcome is
     * given; returns the alert shown and the request sent.
     */
    method Submit(parse: DateInput -> Option<IsoInstant>, outcome: BookingOutcome)
      returns (alert: Option<string>, request: Option<BookingRequest>)
      modifies this
      ensures State() == Step(old(State()), SubmitClicked(parse, outcome)).state
      ensures alert == Step(old(State()), SubmitClicked(parse, outcome)).alert
      ensures request == Step(old(State()), SubmitClicked(parse, outcome)).request
      ensures old(Valid() && Enabled(State(), SubmitClicked(parse, outcome))) ==> Valid()
    {
      var plan := PlanSubmission(State(), parse);
      if plan.RejectDates? {
        alert, request := Some(DatesInvalid), None;
      } else {
        request := Some(plan.request);
        match outcome {
          case Booked =>
            OnBookingSuccess();
            alert := None;
          case Rejected(error) =>
            alert := Some(FailureAlert(error));
        }
      }
      if old(Valid() && Enabled(State(), SubmitClicked(parse, outcome))) {
        WizardProperties.StepPreservesInvariant(old(State()), SubmitClicked(parse, outcome));
      }
    }

    /** "Start Over": back to page 1, the submitted flag lowered. */
    method ResetForm()
      modifies this
      ensures State() == Step(old(State()), StartOverClicked).state
      ensures old(Valid() && Enabled(State(), StartOverClicked)) ==> Valid()
    {
      formSubmitted := false;
      formStage := 1;
      if old(Valid() && Enabled(State(), StartOverClicked)) {
        WizardProperties.StepPreservesInvariant(old(State()), StartOverClicked);
      }
    }
  }
}
