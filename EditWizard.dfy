/** The edit wizard: the link to an appointment starts a session in the private temp
    store `appointment_edit_form` holding the step, the draft values and a six-character
    verification code mailed to the customer; after the code is entered, the customer
    information is edited and written back to the record. */
module EditWizard {

  import opened Wrappers
  import opened PhpValues
  import opened Validation
  import opened Records

  /** A code from `Random::name(6, TRUE)`: six characters. */
  type Code6 = s: string | |s| == 6 witness "aaaaaa"

  /** The verification mail: recipient and code. */
  datatype Mail = Mail(to: Value, code: Option<Code6>)

  /** What a build does: report an invalid appointment, or show a step, possibly after
      mailing a code. */
  datatype Build = InvalidAppointment | Shown(step: int, mail: Option<Mail>)

  const SuccessStep := 5

  /** The temp store of the edit form. */
  class EditForm {
    var step: Option<int>
    var values: Option<Fields>
    var verificationCode: Option<Code6>

    constructor()
      ensures step == None && values == None && verificationCode == None
    {
      step := None;
      values := None;
      verificationCode := None;
    }

    function CurrentStep(): int
      reads this
    {
      step.GetOr(1)
    }

    function CurrentValues(): Fields
      reads this
    {
      values.GetOr(map[])
    }

    /** The state bookkeeping of `buildForm`. A numeric argument naming no record shows
        the error and changes nothing. At step 1 with no stored identifier and a loaded
        record, it stores the identifier and the fresh `code`, mails the code to the
        record's email and moves to step 2. Showing step 5 deletes the step and the
        values (the code is kept). */
    method BuildForm(appointment: Value, code: Code6, store: AppointmentStore) returns (built: Build)
      modifies this
      ensures IsNumeric(appointment) && store.Load(appointment).None? <==> built == InvalidAppointment
      ensures built == InvalidAppointment ==> unchanged(this)
      ensures var starts := old(CurrentStep()) == 1 && Empty(Lookup(old(CurrentValues()), AppointmentId))
                            && IsNumeric(appointment) && store.Load(appointment).Some?;
              && (starts ==>
                    && built == Shown(2, Some(Mail(store.Load(appointment).value.customerEmail, Some(code))))
                    && values == Some(old(CurrentValues())[AppointmentId := Int(IdOf(appointment).value)])
                    && verificationCode == Some(code) && step == Some(2))
              && (!starts && built.Shown? ==>
                    && built == Shown(old(CurrentStep()), None)
                    && verificationCode == old(verificationCode)
                    && (if built.step == SuccessStep then step == None && values == None
                        else step == old(step) && values == old(values)))
    {
      var shown, vals := CurrentStep(), CurrentValues();
      var loaded: Option<Appointment> := None;
      if IsNumeric(appointment) {
        loaded := store.Load(appointment);
        if loaded.None? {
          return InvalidAppointment;
        }
      }
      var mail: Option<Mail> := None;
      if shown == 1 && Empty(Lookup(vals, AppointmentId)) && loaded.Some? {
        values := Some(vals[AppointmentId := Int(IdOf(appointment).value)]);
        verificationCode := Some(code);
        mail := Some(Mail(loaded.value.customerEmail, Some(code)));
        step := Some(2);
        shown := 2;
      }
      if shown == SuccessStep {
        step := None;
        values := None;
      }
      built := Shown(shown, mail);
    }

    /** `validateForm`: step 2 demands a non-empty code strictly equal to the stored one,
        step 3 applies the customer checks; other steps accept. */
    function ValidateForm(input: Fields, emailValid: bool): (errors: seq<FormError>)
      reads this
      ensures CurrentStep() == 2 ==>
                (errors == [] <==> verificationCode.Some? && Lookup(input, VerificationCode) == Str(verificationCode.value))
      ensures CurrentStep() == 2 ==> (errors == [CodeMissing] <==> Empty(Lookup(input, VerificationCode)))
      ensures CurrentStep() == 2 ==>
                (errors == [CodeIncorrect] <==>
                   !Empty(Lookup(input, VerificationCode))
                   && (verificationCode.None? || Lookup(input, VerificationCode) != Str(verificationCode.value)))
      ensures CurrentStep() == 3 ==> errors == CustomerErrors(input, emailValid)
      ensures CurrentStep() != 2 && CurrentStep() != 3 ==> errors == []
    {
      match CurrentStep()
      case 2 =>
        var entered := Lookup(input, VerificationCode);
        if Empty(entered) then [CodeMissing]
        else if verificationCode.None? || entered != Str(verificationCode.value) then [CodeIncorrect]
        else []
      case 3 => CustomerErrors(input, emailValid)
      case _ => []
    }

    /** The effect of `submitForm`. Step 2 moves to step 3. Step 3 stores the four
        customer fields and moves to step 4. Step 4 writes exactly those four fields to
        the stored record when `saveOk`, then moves to step 5 when the confirmation
        mails go out (`mailOk`); when the mail service throws an uncaught `Error` the
        record stays saved but the step stays at 4. A failing save leaves everything as
        it was, and a missing record aborts the request. Other steps change nothing.
        The code is never touched. */
    twostate predicate SubmitEffect(input: Fields, saveOk: bool, mailOk: bool, store: AppointmentStore)
      reads this, store
    {
      && store.Valid() && verificationCode == old(verificationCode)
      && (old(CurrentStep()) == 2 ==> step == Some(3) && values == old(values) && unchanged(store))
      && (old(CurrentStep()) == 3 ==>
            && values == Some(old(CurrentValues())[CustomerFirstName := Lookup(input, CustomerFirstName)]
                                                  [CustomerLastName := Lookup(input, CustomerLastName)]
                                                  [CustomerEmail := Lookup(input, CustomerEmail)]
                                                  [CustomerPhone := Lookup(input, CustomerPhone)])
            && step == Some(4) && unchanged(store))
      && (old(CurrentStep()) == 4 ==>
            var v := old(CurrentValues());
            var record := old(store.Load(Lookup(v, AppointmentId)));
            if record.Some? && saveOk then
              && store.records == old(store.records)[IdOf(Lookup(v, AppointmentId)).value :=
                   record.value.WithCustomer(Lookup(v, CustomerFirstName), Lookup(v, CustomerLastName),
                                             Lookup(v, CustomerEmail), Lookup(v, CustomerPhone))]
              && store.nextId == old(store.nextId)
              && step == (if mailOk then Some(SuccessStep) else old(step)) && values == old(values)
            else unchanged(this) && unchanged(store))
      && (old(CurrentStep()) !in {2, 3, 4} ==> unchanged(this) && unchanged(store))
    }

    /** `submitForm`. */
    method SubmitForm(input: Fields, saveOk: bool, mailOk: bool, store: AppointmentStore)
      requires store.Valid()
      modifies this, store
      ensures SubmitEffect(input, saveOk, mailOk, store)
    {
      var s, vals := CurrentStep(), CurrentValues();
      if s == 2 {
        step := Some(3);
      } else if s == 3 {
        values := Some(vals[CustomerFirstName := Lookup(input, CustomerFirstName)]
                           [CustomerLastName := Lookup(input, CustomerLastName)]
                           [CustomerEmail := Lookup(input, CustomerEmail)]
                           [CustomerPhone := Lookup(input, CustomerPhone)]);
        step := Some(4);
      } else if s == 4 {
        var id := Lookup(vals, AppointmentId);
        var record := store.Load(id);
        if record.None? {
          return;
        }
        if saveOk {
          var updated := record.value.WithCustomer(Lookup(vals, CustomerFirstName), Lookup(vals, CustomerLastName),
                                                   Lookup(vals, CustomerEmail), Lookup(vals, CustomerPhone));
          store.Update(IdOf(id).value, updated);
          if mailOk {
            step := Some(SuccessStep);
          }
        }
      }
    }

    /** `resendVerificationCode`: mails the stored code again to the record's email,
        changing nothing; without a loadable record the request aborts (no mail). */
    method ResendVerificationCode(store: AppointmentStore) returns (mail: Option<Mail>)
      ensures var record := store.Load(Lookup(CurrentValues(), AppointmentId));
              mail == if record.None? then None else Some(Mail(record.value.customerEmail, verificationCode))
    {
      var record := store.Load(Lookup(CurrentValues(), AppointmentId));
      if record.None? {
        return None;
      }
      mail := Some(Mail(record.value.customerEmail, verificationCode));
    }

    /** `modifierProfile`: back to the customer step. */
    method ModifierProfile()
      modifies this
      ensures step == Some(3) && values == old(values) && verificationCode == old(verificationCode)
    {
      step := Some(3);
    }

    /** `modifierDate`: also back to the customer step. */
    method ModifierDate()
      modifies this
      ensures step == Some(3) && values == old(values) && verificationCode == old(verificationCode)
    {
      step := Some(3);
    }

    /** A submit button with validation: `validateForm`, then `submitForm` only when no
        error was set. */
    method Next(input: Fields, emailValid: bool, saveOk: bool, mailOk: bool, store: AppointmentStore)
      returns (errors: seq<FormError>)
      requires store.Valid()
      modifies this, store
      ensures store.Valid()
      ensures errors == old(ValidateForm(input, emailValid))
      ensures errors != [] ==> unchanged(this) && unchanged(store)
      ensures errors == [] ==> SubmitEffect(input, saveOk, mailOk, store)
    {
      errors := ValidateForm(input, emailValid);
      if errors == [] {
        SubmitForm(input, saveOk, mailOk, store);
      }
    }
  }

  /** Opening the edit link of a stored record on a fresh temp store, then entering the
      mailed code. */
  method OpenAndVerify(record: Appointment, code: Code6)
    returns (form: EditForm, store: AppointmentStore, id: int, built: Build, errors: seq<FormError>)
    ensures fresh(form) && fresh(store) && store.Valid() && store.records == map[id := record]
    ensures built == Shown(2, Some(Mail(record.customerEmail, Some(code))))
    ensures errors == [] && form.CurrentStep() == 3 && Lookup(form.CurrentValues(), AppointmentId) == Int(id)
  {
    store := new AppointmentStore();
    id := store.Create(record);
    form := new EditForm();
    assert IsNumeric(Int(id)) && IdOf(Int(id)) == Some(id);
    assert store.Load(Int(id)) == Some(record);
    assert form.CurrentStep() == 1 && Lookup(form.CurrentValues(), AppointmentId) == Null;
    built := form.BuildForm(Int(id), code, store);
    assert form.verificationCode == Some(code) && form.CurrentStep() == 2;
    assert Lookup(form.CurrentValues(), AppointmentId) == Int(id);
    var entered := map[VerificationCode := Str(code)];
    assert Lookup(entered, VerificationCode) == Str(code);
    errors := form.Next(entered, true, true, true, store);
  }

  /** Steps 3 and 4: valid customer information, then a successful save and mail. */
  method SaveCustomer(form: EditForm, store: AppointmentStore, id: int, customer: Fields)
    requires store.Valid() && id in store.records
    requires form.CurrentStep() == 3 && Lookup(form.CurrentValues(), AppointmentId) == Int(id)
    requires CustomerErrors(customer, true) == []
    modifies form, store
    ensures store.Valid() && store.records.Keys == old(store.records.Keys)
    ensures store.records[id] == old(store.records[id]).WithCustomer(
              Lookup(customer, CustomerFirstName), Lookup(customer, CustomerLastName),
              Lookup(customer, CustomerEmail), Lookup(customer, CustomerPhone))
    ensures form.CurrentStep() == SuccessStep
  {
    var errors := form.Next(customer, true, true, true, store);
    var v := form.CurrentValues();
    assert Lookup(v, AppointmentId) == Int(id);
    assert Lookup(v, CustomerFirstName) == Lookup(customer, CustomerFirstName);
    assert Lookup(v, CustomerLastName) == Lookup(customer, CustomerLastName);
    assert Lookup(v, CustomerEmail) == Lookup(customer, CustomerEmail);
    assert Lookup(v, CustomerPhone) == Lookup(customer, CustomerPhone);
    assert store.Load(Int(id)) == Some(store.records[id]);
    errors := form.Next(map[], true, true, true, store);
  }

  /** A whole edit: open the link, enter the mailed code, submit valid customer
      information, save, and show the success step. The record gains exactly the new
      customer fields, and the wizard's step and values are cleared. */
  method CompleteEdit(record: Appointment, code: Code6, customer: Fields)
    returns (mailed: Build, updated: Appointment, step: Option<int>, values: Option<Fields>)
    requires CustomerErrors(customer, true) == []
    ensures mailed == Shown(2, Some(Mail(record.customerEmail, Some(code))))
    ensures updated == record.WithCustomer(Lookup(customer, CustomerFirstName), Lookup(customer, CustomerLastName),
                                           Lookup(customer, CustomerEmail), Lookup(customer, CustomerPhone))
    ensures step == None && values == None
  {
    var form, store, id, built, errors := OpenAndVerify(record, code);
    mailed := built;
    SaveCustomer(form, store, id, customer);
    updated := store.records[id];
    built := form.BuildForm(Null, code, store);
    step, values := form.step, form.values;
  }
}
