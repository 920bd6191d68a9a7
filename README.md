# Vehicle booking wizard, modelled in Dafny

This project models the booking wizard of the React component `Form` in
`src/components/Form.js`. The component collects a renter's name, a wheel
count, a vehicle type and model, and a date range over six pages. It loads a
vehicle inventory and sends a booking request.

The model has six modules:

- `WizardSpec` (`wizard_spec.dfy`) is the wizard as a state machine on values.
  - `FormState` holds the component's state variables.
  - `Step` says what each handler does to them: "Next", "Back", "Submit", "Start Over", the inputs, and the arrival of the inventory.
  - `Enabled` says when the rendered page offers the control that fires an event.
  - `Invariant` is what every reachable state satisfies.
- `WizardProperties` (`wizard_properties.dfy`) holds the lemmas about `Step`. These are the guards, what each handler changes and leaves alone, the submit date gate, and booking success and failure. It also proves the invariant over every trace of offered events, and gives a reachable trace in which the chosen type no longer matches the chosen wheel count.
- `BookingForm` (`booking_form.dfy`) is the component as a class.
  - Its fields are the component's state variables, and its methods update them in place.
  - Each method is proved to produce the state (and the alert and request) that `Step` gives for its event.
  - Each method keeps `Invariant` whenever its control is on screen. The handlers have no guards of their own, so the methods have no preconditions.
- `Vehicles` (`vehicles.dfy`) covers the two option lists. They are `vehicles.filter(...)` with the step-3 condition (wheel count) and the step-4 condition (wheel count and type). It proves that they keep the inventory's order and duplicates, drop nothing else, and that the step-4 list is the step-3 list narrowed to the chosen type.
- `Decimal` (`decimal.dfy`) covers `Number.prototype.toString()` on integers, `padStart` with a one-character fill, and reading decimal digits back.
- `DateFormat` (`date_format.dfy`) covers `getCurrentDate` without the clock: year, zero-based month and day become `YYYY-MM-DD`. A parser proves that the text reads back.

External effects are inputs:

- The host's date parsing (`new Date`, `isNaN`, `toISOString`) is a parameter `parse: DateInput -> Option<IsoInstant>`.
- The outcome of the booking request is part of the submit event: `Booked`, or `Rejected` with a server error (with or without a `message`) or a request error.
- Alerts and the request sent are returned values.

Three behaviours of the code worth noting:

- The option lists keep duplicate entries: a type or model listed twice in the inventory is offered twice.
- "Start Over" (`resetForm`) does not clear the draft. The success callback clears it. `StartOverBeginsEmpty` proves that the reset page nevertheless always shows an empty draft.
- No handler compares the end date with the start date. The date bounds exist only as `min`/`max` attributes of the inputs. So "Submit" sends any pair of dates that parse (`SubmitSendsDraft`).

## Model

| member | source | states |
|---|---|---|
| `WizardSpec.Initial` | src/components/Form.js:5-14 | the mounted state is page 1, not submitted, with an empty inventory and an empty draft |
| `BookingForm.Wizard.constructor` | src/components/Form.js:5-14 | the fields start at the mounted state, which satisfies the invariant |
| `BookingForm.Wizard.SetVehicles` | src/components/Form.js:16-28 | the fetched list replaces the inventory; nothing else changes; the invariant is kept |
| `WizardSpec.Step` | src/components/Form.js:30-113 | only "Next" and "Submit" alert, only "Submit" sends a request, only the inventory's arrival changes the inventory, and only "Submit" and "Start Over" change the submitted flag; what each handler does is stated by the `WizardProperties` lemmas below |
| `WizardSpec.ValidationError` | src/components/Form.js:31-43 | there is an alert exactly when the page is 1 to 5 and one of that page's required fields (from the `RequiredFields` table) is falsy; the alert is that page's message |
| `WizardProperties.NextStepOutcome` | src/components/Form.js:30-52 | "Next" alerts exactly when a required field of pages 1 to 5 is missing, and then changes nothing; otherwise the page number rises by one and nothing else changes; no request is sent |
| `WizardProperties.NextStepBlocksOnMissingFields` | src/components/Form.js:33-43 | page by page: names (1), wheels (2), type (3), model (4), both dates (5) give that page's alert exactly when missing |
| `BookingForm.Wizard.NextStep` | src/components/Form.js:30-52 | the new fields and the alert are those of `Step` for "Next"; the invariant is kept when "Next" is on screen |
| `WizardProperties.PrevStepOutcome` | src/components/Form.js:54-56 | "Back" lowers the page number by one, changes nothing else, alerts nothing and sends nothing |
| `BookingForm.Wizard.PrevStep` | src/components/Form.js:54-56 | the new fields are those of `Step` for "Back"; the invariant is kept when "Back" is on screen |
| `WizardSpec.PlanSubmission` | src/components/Form.js:60-76 | nothing is sent exactly when either date fails to parse; otherwise the request carries the current names, type, model, wheels and both parsed dates |
| `WizardProperties.SubmitRejectsBadDates` | src/components/Form.js:60-66 | with a date that does not parse, "Submit" shows the invalid-dates alert, sends nothing and changes nothing |
| `WizardSpec.FailureAlert` | src/components/Form.js:96-106 | a server error shows the server's message, or the text "undefined" when the body has no `message`; a request with no response shows the fixed retry text |
| `WizardSpec.AfterBooking` | src/components/Form.js:84-94 | after a booking the seven draft fields are cleared, the submitted flag is set, the page number rises by one and the inventory is kept |
| `WizardProperties.SubmitSendsDraft` | src/components/Form.js:68-106 | with both dates parsed, "Submit" sends the current draft; on success the draft is cleared and the submitted page follows; on failure nothing changes and the failure's alert shows |
| `BookingForm.Wizard.OnBookingSuccess` | src/components/Form.js:82-95 | the fields become `AfterBooking` of the old fields |
| `BookingForm.Wizard.Submit` | src/components/Form.js:58-108 | the new fields, the alert and the request sent are those of `Step` for "Submit"; the invariant is kept when "Submit" is on screen |
| `WizardProperties.StartOverOutcome` | src/components/Form.js:110-113 | "Start Over" lowers the submitted flag, returns to page 1 and does not touch the draft |
| `WizardProperties.StartOverBeginsEmpty` | src/components/Form.js:110-113 | from any reachable submitted page, "Start Over" gives the mounted state with the loaded inventory |
| `BookingForm.Wizard.ResetForm` | src/components/Form.js:110-113 | the new fields are those of `Step` for "Start Over"; the invariant is kept when the button is on screen |
| `BookingForm.Wizard.SetFirstName` | src/components/Form.js:149 | the typed text becomes the first name; the invariant is kept on page 1 |
| `BookingForm.Wizard.SetLastName` | src/components/Form.js:155 | the typed text becomes the last name; the invariant is kept on page 1 |
| `BookingForm.Wizard.SetWheels` | src/components/Form.js:165-183 | the radio value becomes the wheel count; the invariant is kept on page 2 for the values "2" and "4" |
| `WizardProperties.TypePickClearsModel` | src/components/Form.js:203-206 | choosing a type records it, clears the chosen model and changes nothing else |
| `WizardProperties.InputsSetOneField` | src/components/Form.js:149-261 | each input handler (lines 149, 155, 170, 181, 233, 252, 261), and the arrival of the inventory (line 20), writes only its own field (a date input sets its date to the typed text), alerts nothing and sends nothing |
| `BookingForm.Wizard.SelectVehicleType` | src/components/Form.js:203-206 | the new fields are those of `Step` for a type choice; the invariant is kept on page 3 |
| `BookingForm.Wizard.SelectVehicleModel` | src/components/Form.js:233 | the chosen model is recorded; the invariant is kept on page 4 |
| `BookingForm.Wizard.SetStartDate` | src/components/Form.js:252 | the input's text becomes the start date; the invariant is kept on page 5 |
| `BookingForm.Wizard.SetEndDate` | src/components/Form.js:261 | the input's text becomes the end date; the invariant is kept on page 5 |
| `Vehicles.Filter` | src/components/Form.js:194-195 | the filtered list is no longer than the input and every element satisfies the condition |
| `Vehicles.FilterCount` | src/components/Form.js:194-195 | each element occurs in the filtered list as often as in the input when it satisfies the condition, otherwise never |
| `Vehicles.FilterAppend` | src/components/Form.js:194-195 | filtering a concatenation concatenates the filtered parts, so order is kept |
| `Vehicles.FilterTwice` | src/components/Form.js:220-225 | filtering by one condition and then another is filtering by both |
| `Vehicles.FilterNone` | src/components/Form.js:194-195 | a condition nothing satisfies leaves an empty list |
| `Vehicles.FilterMember` | src/components/Form.js:194-195 | an element is in the filtered list exactly when it is in the input and satisfies the condition |
| `Vehicles.TypeOptions` | src/components/Form.js:194-195 | a vehicle is offered on step 3 exactly when it is in the inventory and its wheel count reads as the chosen value |
| `Vehicles.ModelOptions` | src/components/Form.js:220-225 | a vehicle is offered on step 4 exactly when it is in the inventory and matches both the wheel count and the type |
| `Vehicles.TypeOptionsSpec` | src/components/Form.js:194-195 | step 3 offers exactly the vehicles whose wheel count reads as the chosen value, each as often as in the inventory, in inventory order |
| `Vehicles.ModelOptionsSpec` | src/components/Form.js:220-225 | step 4 offers exactly the vehicles matching both the wheel count and the type, each as often as in the inventory, in inventory order |
| `Vehicles.ModelOptionsWithinTypeOptions` | src/components/Form.js:220-225 | the step-4 list is the step-3 list narrowed to the chosen type |
| `Vehicles.NoTypeOptionsWithoutWheels` | src/components/Form.js:194-195 | with no wheel count chosen, step 3 offers nothing |
| `Vehicles.ShowsWheelsRadioValue` | src/components/Form.js:164-195 | the radio values "2" and "4" select exactly the vehicles with 2 and 4 wheels |
| `Decimal.NatToDecimal` | src/components/Form.js:195 | the text of a natural number is non-empty, all digits, one digit exactly below 10, and has no leading zero |
| `Decimal.IntToString` | src/components/Form.js:195 | the text starts with a minus sign exactly for negative numbers, and is all digits otherwise |
| `Decimal.DigitsValueOfDecimal` | src/components/Form.js:195 | reading the text of a number back gives the number |
| `Decimal.IntToStringInjective` | src/components/Form.js:195 | different wheel counts never have the same text |
| `Decimal.PadStart` | src/components/Form.js:118-119 | the padded text has the target width (or its own length if longer), ends with the original text and is filled before it |
| `Decimal.DigitsValueZeroPadded` | src/components/Form.js:118-119 | zero-padding keeps the digits' value |
| `DateFormat.CurrentDateText` | src/components/Form.js:117-120 | the date text is at least six characters longer than the year's text (two padded fields and two dashes); its exact shape is stated by `CurrentDateTextRoundTrip` |
| `DateFormat.TwoDigitField` | src/components/Form.js:118-119 | a month or day below 100 becomes two digits that read back as it |
| `DateFormat.CurrentDateTextRoundTrip` | src/components/Form.js:115-121 | for a four-digit year the date text has ten characters and parses back to the year, the one-based month and the day |
| `WizardSpec.Enabled` | src/components/Form.js:135-285 | "Start Over" is offered only after a booking; every other control (apart from the inventory's arrival) only before one, on pages 1 to 6 |
| `WizardSpec.Invariant` | src/components/Form.js:135-285 | a state satisfying the invariant after a booking is the mounted state with page 7, the submitted flag and the loaded inventory; its preservation is stated by the lemmas below |
| `WizardProperties.StepPreservesInvariant` | src/components/Form.js:135-285 | every event whose control the page shows keeps the invariant |
| `WizardProperties.RunPreservesInvariant` | src/components/Form.js:135-285 | every sequence of shown controls keeps the invariant |
| `WizardProperties.ReachableStages` | src/components/Form.js:135-285 | every reachable state has page 1 to 6 before a booking and page 7 after one |
| `WizardProperties.ReviewedRequestComplete` | src/components/Form.js:274-283 | on a reachable review page every draft field is filled, so every request sent names a person, a type, a model and a wheel count of "2" or "4" |
| `WizardProperties.StaleChoiceReachable` | src/components/Form.js:161-242 | a reachable review page can hold a type that the inventory does not offer for the chosen wheel count, because changing the wheels keeps the chosen type and model |

## Left out

- The inventory GET and the booking POST are network I/O. The fetched list is the `VehiclesFetched` event, and the POST's outcome is an input of "Submit". A failed fetch only logs, so it has no event.
- `alert`, `console.log` and `console.error`: the alert text is returned, and logging is dropped.
- Rendering is modelled only as far as it decides which control is on screen (`Enabled`). Labels, headings and the `toDateString` display of a vehicle's booked dates are left out, as are the booked-dates fields of an inventory entry.
- `new Date(...)`, `isNaN` and `toISOString` are host behaviour. They are the `parse` parameter; a date text that parses is taken to have an ISO form.
- `getMaxEndDate` is left out because its result depends on the host's time zone. The `min`/`max` attributes of the date inputs are left out too: no handler checks them, and typed text is not bounded by them in the model.
- `getCurrentDate` reads the clock. The clock is replaced by its three parts.
- Overlapping requests (a second "Submit" before the first one answers) are not modelled. Each completion, the inventory's arrival included, is applied as one step between user events, so the success callback's captured page number equals the current one. The inventory may arrive on any page.
- `Decimal.IntToString`: does not model JavaScript's exponent notation for numbers of 1e21 and above, or non-integer wheel counts. Wheel counts are integers.
- `WizardSpec.FailureAlert`: a server `message` that is a non-string value (a number, `null`), and a response with no body (where reading `message` throws), are not modelled. A missing `message` is modelled; it is `undefined`, which `alert` shows as the text "undefined".
