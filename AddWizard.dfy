/** The booking wizard of the add form: a step counter and the draft values, both held
    in the private temp store `appointment_add_form`, driven by the Next, Previous and
    Modifier buttons; step 6 saves a pending appointment. */
module AddWizard {

  import opened Wrappers
  import opened PhpValues
  import opened Validation
  import opened Records

  const FinalStep := 7

  /** The form keys that the submit of `step` copies into the draft values. */
  function StepKeys(step: int): seq<Key> {
    match step
    case 1 => [SelectedAgency]
    case 2 => [SelectedType]
    case 3 => [SelectedAdvisor]
    case 4 => [StartDate, EndDate]
    case 5 => [CustomerFirstName, CustomerLastName, CustomerEmail, CustomerPhone, AcceptTerms]
    case _ => []
  }

  /** The step whose submit writes `k`; 0 for keys the add form never writes. */
  function StepOf(k: Key): (step: int)
    ensures 0 <= step <= 5
    ensures 1 <= step ==> k in StepKeys(step)
  {
    match k
    case SelectedAgency => 1
    case SelectedType => 2
    case SelectedAdvisor => 3
    case StartDate | EndDate => 4
    case CustomerFirstName | CustomerLastName | CustomerEmail | CustomerPhone | AcceptTerms => 5
    case _ => 0
  }

  /** The draft values after the submit of `step` copied its keys from the submitted form. */
  function Submitted(values: Fields, step: int, input: Fields): (r: Fields)
    ensures forall k :: Lookup(r, k) == if 1 <= step && StepOf(k) == step then Lookup(input, k) else Lookup(values, k)
  {
    var keys := StepKeys(step);
    assert forall k :: k in keys <==> 1 <= step && StepOf(k) == step;
    Assign(values, keys, input)
  }

  function Assign(values: Fields, keys: seq<Key>, input: Fields): (r: Fields)
    ensures forall k :: Lookup(r, k) == if k in keys then Lookup(input, k) else Lookup(values, k)
    decreases |keys|
  {
    if keys == [] then values
    else Assign(values[keys[0] := Lookup(input, keys[0])], keys[1..], input)
  }

  /** No key is written by two different steps. */
  lemma StepKeysDisjoint(i: int, j: int, k: Key)
    requires i != j && k in StepKeys(i)
    ensures k !in StepKeys(j)
  {
  }

  /** `validateStep`: the selection steps require their selection, step 4 requires a
      start and then an end, step 5 applies the customer checks; other steps accept.
      Every error is set on a field that the same step submits. */
  function ValidateStep(step: int, input: Fields, emailValid: bool): (errors: seq<FormError>)
    ensures step == 1 ==>
              && (errors == [] <==> !Empty(Lookup(input, SelectedAgency)))
              && (errors != [] ==> errors == [AgencyMissing])
    ensures step == 2 ==>
              && (errors == [] <==> !Empty(Lookup(input, SelectedType)))
              && (errors != [] ==> errors == [TypeMissing])
    ensures step == 3 ==>
              && (errors == [] <==> !Empty(Lookup(input, SelectedAdvisor)))
              && (errors != [] ==> errors == [AdvisorMissing])
    ensures step == 4 ==>
              && (errors == [] <==> !Empty(Lookup(input, StartDate)) && !Empty(Lookup(input, EndDate)))
              && (StartMissing in errors <==> Empty(Lookup(input, StartDate)))
              && (EndMissing in errors <==> !Empty(Lookup(input, StartDate)) && Empty(Lookup(input, EndDate)))
              && (forall e :: e in errors ==> e == StartMissing || e == EndMissing)
              && |errors| <= 1
    ensures step == 5 ==> errors == CustomerErrors(input, emailValid)
    ensures (step < 1 || step > 5) ==> errors == []
    ensures forall e :: e in errors ==> ErrorField(e) in StepKeys(step)
  {
    match step
    case 1 => if Empty(Lookup(input, SelectedAgency)) then [AgencyMissing] else []
    case 2 => if Empty(Lookup(input, SelectedType)) then [TypeMissing] else []
    case 3 => if Empty(Lookup(input, SelectedAdvisor)) then [AdvisorMissing] else []
    case 4 =>
      if Empty(Lookup(input, StartDate)) then [StartMissing]
      else if Empty(Lookup(input, EndDate)) then [EndMissing]
      else []
    case 5 =>
      CustomerErrorsFields(input, emailValid);
      CustomerErrors(input, emailValid)
    case _ => []
  }

  /** What a step needs to pass, stated without the error list: every field the step
      submits except the terms checkbox is non-empty, and at step 5 the email is valid
      and the phone matches the digits pattern. */
  predicate StepComplete(step: int, input: Fields, emailValid: bool) {
    && (forall k :: k in StepKeys(step) && k != AcceptTerms ==> !Empty(Lookup(input, k)))
    && (step == 5 ==> emailValid && PhonePatternMatches(PhpString(Lookup(input, CustomerPhone))))
  }

  /** `validateStep` lets a step through exactly when the step is complete, so the
      draft values a submit copies are never empty (the terms checkbox aside). */
  lemma ValidateStepAccepts(step: int, input: Fields, emailValid: bool)
    ensures ValidateStep(step, input, emailValid) == [] <==> StepComplete(step, input, emailValid)
  {
    if step == 5 {
      CustomerErrorsNone(input, emailValid);
      assert StepKeys(5) == [CustomerFirstName, CustomerLastName, CustomerEmail, CustomerPhone, AcceptTerms];
    } else if 1 <= step <= 4 {
      assert StepKeys(step)[0] in StepKeys(step);
      assert StepKeys(step)[|StepKeys(step)| - 1] in StepKeys(step);
    }
  }

  /** The pending record step 6 creates from the draft values and the computed title. */
  function NewAppointment(title: string, values: Fields): (r: Appointment)
    ensures r.status == Pending && r.title == title
    ensures r.agency == Lookup(values, SelectedAgency) && r.appointmentType == Lookup(values, SelectedType)
    ensures r.adviser == Lookup(values, SelectedAdvisor)
    ensures r.startDate == Lookup(values, StartDate) && r.endDate == Lookup(values, EndDate)
    ensures r.customerFirstName == Lookup(values, CustomerFirstName)
    ensures r.customerLastName == Lookup(values, CustomerLastName)
    ensures r.customerEmail == Lookup(values, CustomerEmail)
    ensures r.customerPhone == Lookup(values, CustomerPhone)
  {
    Appointment(title, Lookup(values, SelectedAgency), Lookup(values, SelectedType),
                Lookup(values, SelectedAdvisor), Lookup(values, StartDate), Lookup(values, EndDate),
                Lookup(values, CustomerFirstName), Lookup(values, CustomerLastName),
                Lookup(values, CustomerEmail), Lookup(values, CustomerPhone), Pending)
  }

  /** The temp store of the add form: `step` and `values`, each possibly absent. */
  class AddForm {
    var step: Option<int>
    var values: Option<Fields>

    constructor()
      ensures step == None && values == None
    {
      step := None;
      values := None;
    }

    /** `get('step') ?? 1`. */
    function CurrentStep(): int
      reads this
    {
      step.GetOr(1)
    }

    /** `get('values') ?? []`. */
    function CurrentValues(): Fields
      reads this
    {
      values.GetOr(map[])
    }

    /** The step bookkeeping of `buildForm`: it shows the current step, and showing
        step 7 deletes the step so that the next build starts over at step 1. */
    method BuildForm() returns (shown: int)
      modifies this
      ensures shown == old(CurrentStep())
      ensures step == (if shown == FinalStep then None else old(step))
      ensures values == old(values)
    {
      shown := CurrentStep();
      if shown == FinalStep {
        step := None;
      }
    }

    /** The effect of `submitForm`. At steps 1..5 it records that step's keys and
        advances. At step 6 `title` is the title computed before the save (absent when
        computing it fails, which aborts the request) and `saveOk` says whether the save
        succeeds: a successful save adds one pending record, deletes the values and moves
        to step 7; a failing save leaves everything as it was. Other steps change nothing. */
    twostate predicate SubmitEffect(input: Fields, title: Option<string>, saveOk: bool, store: AppointmentStore)
      reads this, store
    {
      && store.Valid()
      && (1 <= old(CurrentStep()) <= 5 ==>
            && values == Some(Submitted(old(CurrentValues()), old(CurrentStep()), input))
            && step == Some(old(CurrentStep()) + 1)
            && unchanged(store))
      && (old(CurrentStep()) == 6 && title.Some? && saveOk ==>
            && store.records == old(store.records)[old(store.nextId) := NewAppointment(title.value, old(CurrentValues()))]
            && store.nextId == old(store.nextId) + 1
            && values == None && step == Some(FinalStep))
      && (old(CurrentStep()) == 6 && !(title.Some? && saveOk) ==> unchanged(this) && unchanged(store))
      && ((old(CurrentStep()) < 1 || old(CurrentStep()) > 6) ==> unchanged(this) && unchanged(store))
    }

    /** `submitForm`. */
    method SubmitForm(input: Fields, title: Option<string>, saveOk: bool, store: AppointmentStore)
      requires store.Valid()
      modifies this, store
      ensures SubmitEffect(input, title, saveOk, store)
    {
      var s, vals := CurrentStep(), CurrentValues();
      if 1 <= s <= 5 {
        values := Some(Submitted(vals, s, input));
        step := Some(s + 1);
      } else if s == 6 {
        if title.None? {
          return;
        }
        if saveOk {
          var _ := store.Create(NewAppointment(title.value, vals));
          values := None;
          step := Some(FinalStep);
        }
      }
    }

    /** `submitPrevious`: no validation, the stored step minus one (an absent step reads
        as null, and null - 1 is -1). */
    method SubmitPrevious()
      modifies this
      ensures step == Some(old(step).GetOr(0) - 1)
      ensures values == old(values)
    {
      step := Some(step.GetOr(0) - 1);
    }

    /** `modifierProfile`: back to the customer step. */
    method ModifierProfile()
      modifies this
      ensures step == Some(5) && values == old(values)
    {
      step := Some(5);
    }

    /** `modifierDate`: back to the calendar step. */
    method ModifierDate()
      modifies this
      ensures step == Some(4) && values == old(values)
    {
      step := Some(4);
    }

    /** The Next button: `validateStep`, then `submitForm` only when no error was set. */
    method Next(input: Fields, emailValid: bool, title: Option<string>, saveOk: bool, store: AppointmentStore)
      returns (errors: seq<FormError>)
      requires store.Valid()
      modifies this, store
      ensures store.Valid()
      ensures errors == ValidateStep(old(CurrentStep()), input, emailValid)
      ensures errors != [] ==> unchanged(this) && unchanged(store)
      ensures errors == [] ==> SubmitEffect(input, title, saveOk, store)
    {
      errors := ValidateStep(CurrentStep(), input, emailValid);
      if errors == [] {
        SubmitForm(input, title, saveOk, store);
      }
    }
  }

  /** Steps 1..3 of a booking on a fresh temp store, each with a selection. */
  method ChooseSelections(agency: Value, appointmentType: Value, advisor: Value)
    returns (form: AddForm, store: AppointmentStore)
    requires !Empty(agency) && !Empty(appointmentType) && !Empty(advisor)
    ensures fresh(form) && fresh(store) && store.Valid() && store.records == map[] && store.nextId == 1
    ensures form.CurrentStep() == 4
    ensures var v := form.CurrentValues();
            && Lookup(v, SelectedAgency) == agency && Lookup(v, SelectedType) == appointmentType
            && Lookup(v, SelectedAdvisor) == advisor
  {
    store := new AppointmentStore();
    form := new AddForm();
    var errors := form.Next(map[SelectedAgency := agency], true, None, false, store);
    errors := form.Next(map[SelectedType := appointmentType], true, None, false, store);
    errors := form.Next(map[SelectedAdvisor := advisor], true, None, false, store);
  }

  /** Step 4 with a start and an end. */
  method ChooseSlot(form: AddForm, store: AppointmentStore, start: Value, end: Value)
    requires form.CurrentStep() == 4 && store.Valid()
    requires !Empty(start) && !Empty(end)
    modifies form, store
    ensures unchanged(store)
    ensures form.CurrentStep() == 5
    ensures form.CurrentValues() == Submitted(old(form.CurrentValues()), 4, map[StartDate := start, EndDate := end])
  {
    var errors := form.Next(map[StartDate := start, EndDate := end], true, None, false, store);
  }

  /** Step 5 with valid customer information. */
  method EnterCustomer(form: AddForm, store: AppointmentStore, customer: Fields)
    requires form.CurrentStep() == 5 && store.Valid()
    requires CustomerErrors(customer, true) == []
    modifies form, store
    ensures unchanged(store)
    ensures form.CurrentStep() == 6
    ensures form.CurrentValues() == Submitted(old(form.CurrentValues()), 5, customer)
  {
    var errors := form.Next(customer, true, None, false, store);
  }

  /** The record the customer's booking is saved as. */
  function BookedRecord(title: string, agency: Value, appointmentType: Value, advisor: Value, start: Value, end: Value,
                        customer: Fields): Appointment
  {
    Appointment(title, agency, appointmentType, advisor, start, end,
                Lookup(customer, CustomerFirstName), Lookup(customer, CustomerLastName),
                Lookup(customer, CustomerEmail), Lookup(customer, CustomerPhone), Pending)
  }

  /** Steps 1..5 with valid input, on a fresh temp store and an empty storage. */
  method FillDraft(agency: Value, appointmentType: Value, advisor: Value, start: Value, end: Value,
                   customer: Fields, title: string)
    returns (form: AddForm, store: AppointmentStore)
    requires !Empty(agency) && !Empty(appointmentType) && !Empty(advisor) && !Empty(start) && !Empty(end)
    requires CustomerErrors(customer, true) == []
    ensures fresh(form) && fresh(store) && store.Valid() && store.records == map[] && store.nextId == 1
    ensures form.CurrentStep() == 6
    ensures NewAppointment(title, form.CurrentValues()) == BookedRecord(title, agency, appointmentType, advisor, start, end, customer)
  {
    form, store := ChooseSelections(agency, appointmentType, advisor);
    ChooseSlot(form, store, start, end);
    var v4 := form.CurrentValues();
    assert Lookup(v4, SelectedAgency) == agency && Lookup(v4, SelectedType) == appointmentType;
    assert Lookup(v4, SelectedAdvisor) == advisor && Lookup(v4, StartDate) == start && Lookup(v4, EndDate) == end;
    EnterCustomer(form, store, customer);
    var v5 := form.CurrentValues();
    assert Lookup(v5, SelectedAgency) == agency && Lookup(v5, SelectedType) == appointmentType;
    assert Lookup(v5, SelectedAdvisor) == advisor && Lookup(v5, StartDate) == start && Lookup(v5, EndDate) == end;
    assert Lookup(v5, CustomerFirstName) == Lookup(customer, CustomerFirstName);
    assert Lookup(v5, CustomerLastName) == Lookup(customer, CustomerLastName);
    assert Lookup(v5, CustomerEmail) == Lookup(customer, CustomerEmail);
    assert Lookup(v5, CustomerPhone) == Lookup(customer, CustomerPhone);
  }

  /** A whole booking from a fresh temp store and an empty storage: Next at steps 1..5
      with valid input, Submit at step 6 with a successful save, then the step-7 build.
      Exactly one pending record exists afterwards, carrying the submitted values, and
      the wizard starts over at step 1. */
  method CompleteBooking(agency: Value, appointmentType: Value, advisor: Value, start: Value, end: Value,
                         customer: Fields, title: string)
    returns (records: map<int, Appointment>, shown: int, restartsAt: int)
    requires !Empty(agency) && !Empty(appointmentType) && !Empty(advisor) && !Empty(start) && !Empty(end)
    requires CustomerErrors(customer, true) == []
    ensures records == map[1 := Appointment(title, agency, appointmentType, advisor, start, end,
                                            Lookup(customer, CustomerFirstName), Lookup(customer, CustomerLastName),
                                            Lookup(customer, CustomerEmail), Lookup(customer, CustomerPhone), Pending)]
    ensures shown == FinalStep && restartsAt == 1
  {
    var form, store := FillDraft(agency, appointmentType, advisor, start, end, customer, title);
    form.SubmitForm(map[], Some(title), true, store);
    shown := form.BuildForm();
    restartsAt := form.CurrentStep();
    records := store.records;
  }
}
