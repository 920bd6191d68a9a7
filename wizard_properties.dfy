/**
 * What the wizard's handlers guarantee, stated on `WizardSpec.Step`, and the
 * invariant of every state the page can reach.
 */
module WizardProperties {
  import opened Wrappers
  import opened Vehicles
  import opened WizardSpec

  /**
   * "Next" alerts exactly when the page is one of the five checked pages and a
   * field that page asks for is missing; the alert is that page's message and
   * nothing changes. Otherwise the page number goes up by one and nothing else
   * changes. No request is sent either way.
   */
  lemma NextStepOutcome(s: FormState)
    ensures Step(s, NextClicked).alert.Some?
            <==> 1 <= s.formStage <= 5 && exists f :: f in RequiredFields(s.formStage) && Blank(s, f)
    ensures Step(s, NextClicked).alert.Some? ==>
              Step(s, NextClicked).alert.value == StageMessage(s.formStage) && Step(s, NextClicked).state == s
    ensures Step(s, NextClicked).alert.None? ==>
              Step(s, NextClicked).state.formStage == s.formStage + 1
              && Step(s, NextClicked).state.(formStage := s.formStage) == s
    ensures Step(s, NextClicked).request.None?
  {
  }

  /** Which fields each page asks for, written out page by page. */
  lemma NextStepBlocksOnMissingFields(s: FormState)
    ensures var alert := Step(s, NextClicked).alert;
      && (s.formStage == 1 ==> (alert == Some(NameMissing) <==> s.firstName == "" || s.lastName == ""))
      && (s.formStage == 2 ==> (alert == Some(WheelsMissing) <==> s.wheels == ""))
      && (s.formStage == 3 ==> (alert == Some(TypeMissing) <==> s.selectedVehicleType == ""))
      && (s.formStage == 4 ==> (alert == Some(ModelMissing) <==> s.selectedVehicleModel == ""))
      && (s.formStage == 5 ==> (alert == Some(DatesMissing) <==> DateBlank(s.startDate) || DateBlank(s.endDate)))
  {
  }

  /** "Back" lowers the page number by one and changes nothing else. */
  lemma PrevStepOutcome(s: FormState)
    ensures Step(s, BackClicked).state.formStage == s.formStage - 1
    ensures Step(s, BackClicked).state.(formStage := s.formStage) == s
    ensures Step(s, BackClicked).alert.None? && Step(s, BackClicked).request.None?
  {
  }

  /** Choosing a vehicle type records it and clears the chosen model; nothing else changes. */
  lemma TypePickClearsModel(s: FormState, t: string)
    ensures Step(s, TypePicked(t)).state.selectedVehicleType == t
    ensures Step(s, TypePicked(t)).state.selectedVehicleModel == ""
    ensures Step(s, TypePicked(t)).state.(selectedVehicleType := s.selectedVehicleType,
                                          selectedVehicleModel := s.selectedVehicleModel) == s
  {
  }

  /**
   * Each input and the inventory's arrival write their one field (a date input
   * its text as a set date), alert nothing, send nothing and change nothing else.
   */
  lemma InputsSetOneField(s: FormState, text: string, list: seq<Vehicle>)
    ensures Step(s, FirstNameTyped(text)) == Transition(s.(firstName := text), None, None)
    ensures Step(s, LastNameTyped(text)) == Transition(s.(lastName := text), None, None)
    ensures Step(s, WheelsPicked(text)) == Transition(s.(wheels := text), None, None)
    ensures Step(s, ModelPicked(text)) == Transition(s.(selectedVehicleModel := text), None, None)
    ensures Step(s, StartDateTyped(text)) == Transition(s.(startDate := Some(text)), None, None)
    ensures Step(s, EndDateTyped(text)) == Transition(s.(endDate := Some(text)), None, None)
    ensures Step(s, VehiclesFetched(list)) == Transition(s.(vehicles := list), None, None)
  {
  }

  /** A date that does not parse stops "Submit": its alert, no request, no change. */
  lemma SubmitRejectsBadDates(s: FormState, parse: DateInput -> Option<IsoInstant>, outcome: BookingOutcome)
    requires parse(s.startDate).None? || parse(s.endDate).None?
    ensures Step(s, SubmitClicked(parse, outcome)) == Transition(s, Some(DatesInvalid), None)
  {
  }

  /**
   * With both dates parsed, "Submit" sends the current draft; on success the
   * draft is cleared and the submitted page follows, on failure nothing
   * changes and the failure's alert shows.
   */
  lemma SubmitSendsDraft(s: FormState, parse: DateInput -> Option<IsoInstant>, outcome: BookingOutcome)
    requires parse(s.startDate).Some? && parse(s.endDate).Some?
    ensures Step(s, SubmitClicked(parse, outcome)).request
            == Some(BookingRequest(s.firstName, s.lastName, s.selectedVehicleType, s.selectedVehicleModel,
                                   s.wheels, parse(s.startDate).value, parse(s.endDate).value))
    ensures outcome.Booked? ==>
              var r := Step(s, SubmitClicked(parse, outcome)).state;
              DraftCleared(r) && r.formSubmitted && r.formStage == s.formStage + 1 && r.vehicles == s.vehicles
              && Step(s, SubmitClicked(parse, outcome)).alert.None?
    ensures outcome.Rejected? ==>
              Step(s, SubmitClicked(parse, outcome)).state == s
              && Step(s, SubmitClicked(parse, outcome)).alert == Some(FailureAlert(outcome.error))
  {
  }

  /** "Start Over" leaves the submitted page for page 1 and does not touch the draft. */
  lemma StartOverOutcome(s: FormState)
    ensures !Step(s, StartOverClicked).state.formSubmitted && Step(s, StartOverClicked).state.formStage == 1
    ensures Step(s, StartOverClicked).state.(formSubmitted := s.formSubmitted, formStage := s.formStage) == s
  {
  }

  /**
   * From any reachable submitted page, "Start Over" gives the state of a fresh
   * mount except for the inventory already loaded: the draft was cleared when
   * the booking succeeded.
   */
  lemma StartOverBeginsEmpty(s: FormState)
    requires Invariant(s) && s.formSubmitted
    ensures Step(s, StartOverClicked).state == Initial().(vehicles := s.vehicles)
  {
  }

  /** Each event the page offers keeps the invariant. */
  lemma StepPreservesInvariant(s: FormState, e: Event)
    requires Invariant(s) && Enabled(s, e)
    ensures Invariant(Step(s, e).state)
  {
    var r := Step(s, e).state;
    match e {
      case NextClicked =>
        if ValidationError(s).None? {
          forall k | 1 <= k < r.formStage
            ensures StageFilled(r, k)
          {
            assert StageFilled(s, k);
          }
        }
      case BackClicked =>
        forall k | 1 <= k < r.formStage
          ensures StageFilled(r, k)
        {
          assert StageFilled(s, k);
        }
      case WheelsPicked(_) =>
        assert StageFilled(s, 1);
      case TypePicked(_) =>
        assert StageFilled(s, 1) && StageFilled(s, 2);
      case ModelPicked(_) =>
        assert StageFilled(s, 1) && StageFilled(s, 2) && StageFilled(s, 3);
      case StartDateTyped(_) =>
        assert StageFilled(s, 1) && StageFilled(s, 2) && StageFilled(s, 3) && StageFilled(s, 4);
      case EndDateTyped(_) =>
        assert StageFilled(s, 1) && StageFilled(s, 2) && StageFilled(s, 3) && StageFilled(s, 4);
      case VehiclesFetched(_) =>
        forall k | 1 <= k < r.formStage && !r.formSubmitted
          ensures StageFilled(r, k)
        {
          assert StageFilled(s, k);
        }
      case _ =>
    }
  }

  /** Any sequence of offered events keeps the invariant. */
  lemma {:induction false} RunPreservesInvariant(s: FormState, events: seq<Event>)
    requires Invariant(s) && EnabledTrace(s, events)
    ensures Invariant(Run(s, events))
    decreases |events|
  {
    if events != [] {
      StepPreservesInvariant(s, events[0]);
      RunPreservesInvariant(Step(s, events[0]).state, events[1..]);
    }
  }

  /**
   * Every state reachable from mounting by the controls the page offers keeps
   * the page number in 1..6 before a booking and at 7 after one.
   */
  lemma ReachableStages(events: seq<Event>)
    requires EnabledTrace(Initial(), events)
    ensures var s := Run(Initial(), events);
            (!s.formSubmitted ==> 1 <= s.formStage <= 6) && (s.formSubmitted ==> s.formStage == SubmittedStage)
  {
    RunPreservesInvariant(Initial(), events);
  }

  /**
   * On a reachable review page every draft field is filled in and the wheel
   * count is one of the radio values, so every request "Submit" sends from it
   * names a person, a type, a model and a wheel count.
   */
  lemma ReviewedRequestComplete(s: FormState, parse: DateInput -> Option<IsoInstant>, outcome: BookingOutcome)
    requires Invariant(s) && Enabled(s, SubmitClicked(parse, outcome))
    ensures forall f :: !Blank(s, f)
    ensures var req := Step(s, SubmitClicked(parse, outcome)).request;
            req.Some? ==>
              req.value.firstName != "" && req.value.lastName != ""
              && req.value.vehicleType != "" && req.value.model != ""
              && (req.value.wheels == "2" || req.value.wheels == "4")
  {
    assert StageFilled(s, 1) && StageFilled(s, 2) && StageFilled(s, 3) && StageFilled(s, 4) && StageFilled(s, 5);
    forall f ensures !Blank(s, f) {
      match f {
        case FirstName => assert f in RequiredFields(1);
        case LastName => assert f in RequiredFields(1);
        case Wheels => assert f in RequiredFields(2);
        case VehicleType => assert f in RequiredFields(3);
        case VehicleModel => assert f in RequiredFields(4);
        case StartDate => assert f in RequiredFields(5);
        case EndDate => assert f in RequiredFields(5);
      }
    }
    var plan := PlanSubmission(s, parse);
    if plan.Send? {
      assert Step(s, SubmitClicked(parse, outcome)).request == Some(plan.request);
      assert !Blank(s, FirstName) && !Blank(s, LastName) && !Blank(s, Wheels);
      assert !Blank(s, VehicleType) && !Blank(s, VehicleModel);
    }
  }

  /** Running `a` then `b` is running `a + b`, and both must be offered in turn. */
  lemma {:induction false} RunAppend(s: FormState, a: seq<Event>, b: seq<Event>)
    ensures Run(s, a + b) == Run(Run(s, a), b)
    ensures EnabledTrace(s, a + b) <==> EnabledTrace(s, a) && EnabledTrace(Run(s, a), b)
    decreases |a|
  {
    if a == [] {
      assert a + b == b;
    } else {
      assert (a + b)[0] == a[0] && (a + b)[1..] == a[1..] + b;
      RunAppend(Step(s, a[0]).state, a[1..], b);
    }
  }

  /** Two offered traces, the second starting where the first ends, make one. */
  lemma ChainTraces(s: FormState, a: seq<Event>, mid: FormState, b: seq<Event>, end: FormState)
    requires EnabledTrace(s, a) && Run(s, a) == mid
    requires EnabledTrace(mid, b) && Run(mid, b) == end
    ensures EnabledTrace(s, a + b) && Run(s, a + b) == end
  {
    RunAppend(s, a, b);
  }

  /** A two-vehicle inventory: a two-wheeled cruiser and a four-wheeled SUV. */
  const Bike := Vehicle("Cruiser", "Bullet", 2)
  const Suv := Vehicle("SUV", "X5", 4)
  const SampleVehicles := [Bike, Suv]

  /** Page 3 after entering a name and choosing four wheels. */
  const FourWheelsChosen := FormState(3, "A", "B", "4", "", "", SampleVehicles, None, None, false)
  /** Back on page 2 with the SUV and its model still chosen, now with two wheels. */
  const TwoWheelsOverSuv := FormState(2, "A", "B", "2", "SUV", "X5", SampleVehicles, None, None, false)
  /** The review page reached from there. */
  const StaleReview := FormState(6, "A", "B", "2", "SUV", "X5", SampleVehicles,
                               Some("2024-06-01"), Some("2024-06-05"), false)

  /** What the sample inventory offers on steps 3 and 4. */
  lemma SampleOptions()
    ensures TypeOptions(SampleVehicles, "4") == [Suv]
    ensures ModelOptions(SampleVehicles, "4", "SUV") == [Suv]
    ensures TypeOptions(SampleVehicles, "2") == [Bike]
  {
    ShowsWheelsRadioValue(Bike);
    ShowsWheelsRadioValue(Suv);
    assert SampleVehicles[1..] == [Suv] && [Suv][1..] == [];
    assert Filter([Suv], HasWheels("4")) == [Suv];
    assert Filter([Suv], HasWheelsAndType("4", "SUV")) == [Suv];
    assert Filter([Suv], HasWheels("2")) == [];
  }

  /** Load the inventory, enter a name, choose four wheels: page 3. */
  lemma NameAndFourWheels()
    ensures EnabledTrace(Initial(), NameAndFourWheelsEvents())
            && Run(Initial(), NameAndFourWheelsEvents()) == FourWheelsChosen
  {
  }

  function NameAndFourWheelsEvents(): seq<Event> {
    [VehiclesFetched(SampleVehicles), FirstNameTyped("A"), LastNameTyped("B"), NextClicked,
     WheelsPicked("4"), NextClicked]
  }

  /** Choose the SUV and its model, go back to page 2 and switch to two wheels. */
  lemma SuvThenTwoWheels()
    ensures EnabledTrace(FourWheelsChosen, SuvThenTwoWheelsEvents())
            && Run(FourWheelsChosen, SuvThenTwoWheelsEvents()) == TwoWheelsOverSuv
  {
    SampleOptions();
  }

  function SuvThenTwoWheelsEvents(): seq<Event> {
    [TypePicked("SUV"), NextClicked, ModelPicked("X5"), BackClicked, BackClicked, WheelsPicked("2")]
  }

  /** Go forward to the dates, enter them and reach the review page. */
  lemma ForwardToReview()
    ensures EnabledTrace(TwoWheelsOverSuv, ForwardToReviewEvents())
            && Run(TwoWheelsOverSuv, ForwardToReviewEvents()) == StaleReview
  {
  }

  function ForwardToReviewEvents(): seq<Event> {
    [NextClicked, NextClicked, NextClicked,
     StartDateTyped("2024-06-01"), EndDateTyped("2024-06-05"), NextClicked]
  }

  /** A chosen type no longer offered for the chosen wheel count. */
  ghost predicate StaleChoice(s: FormState) {
    OnPage(s, 6) && s.selectedVehicleType != ""
    && forall v :: v in TypeOptions(s.vehicles, s.wheels) ==> v.vehicleType != s.selectedVehicleType
  }

  /**
   * Changing the wheel count keeps the chosen type and model, so the review
   * page, and the request it sends, can carry a type the inventory does not
   * offer for the chosen wheels. The invariant therefore cannot promise more
   * than that those fields are filled in.
   */
  lemma StaleChoiceReachable()
    ensures exists events :: EnabledTrace(Initial(), events) && StaleChoice(Run(Initial(), events))
  {
    NameAndFourWheels();
    SuvThenTwoWheels();
    ForwardToReview();
    var ab := NameAndFourWheelsEvents() + SuvThenTwoWheelsEvents();
    ChainTraces(Initial(), NameAndFourWheelsEvents(), FourWheelsChosen, SuvThenTwoWheelsEvents(), TwoWheelsOverSuv);
    var all := ab + ForwardToReviewEvents();
    ChainTraces(Initial(), ab, TwoWheelsOverSuv, ForwardToReviewEvents(), StaleReview);
    StaleReviewIsStale();
  }

  /** The review page of the trace holds the SUV, which two wheels do not offer. */
  lemma StaleReviewIsStale()
    ensures StaleChoice(StaleReview)
  {
    SampleOptions();
  }
}
