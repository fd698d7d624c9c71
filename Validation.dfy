/** The validation rules shared by the add form's step 5 and the edit form's step 3:
    the four customer fields, the email validator's verdict and the digits-only
    phone pattern. */
module Validation {

  import opened Decimal
  import opened PhpValues

  /** The errors the forms set, one constructor per message. */
  datatype FormError =
    | AgencyMissing | TypeMissing | AdvisorMissing
    | StartMissing | EndMissing
    | FirstNameMissing | LastNameMissing
    | EmailMissing | EmailInvalid
    | PhoneMissing | PhoneInvalid
    | CodeMissing | CodeIncorrect

  /** The form element each error is set on with `setErrorByName`. */
  function ErrorField(e: FormError): Key {
    match e
    case AgencyMissing => SelectedAgency
    case TypeMissing => SelectedType
    case AdvisorMissing => SelectedAdvisor
    case StartMissing => StartDate
    case EndMissing => EndDate
    case FirstNameMissing => CustomerFirstName
    case LastNameMissing => CustomerLastName
    case EmailMissing | EmailInvalid => CustomerEmail
    case PhoneMissing | PhoneInvalid => CustomerPhone
    case CodeMissing | CodeIncorrect => VerificationCode
  }

  /** The four customer fields, in the order the checks visit them. */
  const CustomerFields: seq<Key> := [CustomerFirstName, CustomerLastName, CustomerEmail, CustomerPhone]

  /** The phone check: one or more digits from start to end, on the string form of the
      value. Without the `D` modifier PCRE's `$` also matches just before a final
      newline, so one trailing "\n" after the digits is accepted. */
  predicate PhonePatternMatches(s: string) {
    || (|s| >= 1 && AllDigits(s))
    || (|s| >= 2 && s[|s| - 1] == '\n' && AllDigits(s[..|s| - 1]))
  }

  /** The pattern accepts exactly a non-empty run of digits, optionally followed by one newline. */
  lemma PhonePatternSpec(s: string)
    ensures PhonePatternMatches(s) <==>
              exists d :: |d| >= 1 && AllDigits(d) && (s == d || s == d + "\n")
  {
    if |s| >= 2 && s[|s| - 1] == '\n' && AllDigits(s[..|s| - 1]) {
      assert s == s[..|s| - 1] + "\n";
    }
    if exists d :: |d| >= 1 && AllDigits(d) && (s == d || s == d + "\n") {
      var d :| |d| >= 1 && AllDigits(d) && (s == d || s == d + "\n");
      if s == d + "\n" {
        assert s[..|s| - 1] == d;
      }
    }
  }

  lemma PhonePatternExamples()
    ensures PhonePatternMatches("0612345678")
    ensures PhonePatternMatches("0612345678\n")
    ensures !PhonePatternMatches("+33612345678")
    ensures !PhonePatternMatches("06 12")
    ensures !PhonePatternMatches("")
  {
    assert "0612345678\n"[..10] == "0612345678";
    assert "+33612345678"[0] == '+';
    assert "06 12"[2] == ' ';
  }

  /** The customer-information checks: each field is required; a non-empty email must
      pass the validator (`emailValid`, its verdict on that value); a non-empty phone
      must match the digits pattern. */
  function CustomerErrors(input: Fields, emailValid: bool): (errors: seq<FormError>)
    ensures FirstNameMissing in errors <==> Empty(Lookup(input, CustomerFirstName))
    ensures LastNameMissing in errors <==> Empty(Lookup(input, CustomerLastName))
    ensures EmailMissing in errors <==> Empty(Lookup(input, CustomerEmail))
    ensures EmailInvalid in errors <==> !Empty(Lookup(input, CustomerEmail)) && !emailValid
    ensures PhoneMissing in errors <==> Empty(Lookup(input, CustomerPhone))
    ensures PhoneInvalid in errors <==>
              !Empty(Lookup(input, CustomerPhone)) && !PhonePatternMatches(PhpString(Lookup(input, CustomerPhone)))
  {
    var email, phone := Lookup(input, CustomerEmail), Lookup(input, CustomerPhone);
    Required(Lookup(input, CustomerFirstName), FirstNameMissing)
    + Required(Lookup(input, CustomerLastName), LastNameMissing)
    + Checked(email, emailValid, EmailMissing, EmailInvalid)
    + Checked(phone, PhonePatternMatches(PhpString(phone)), PhoneMissing, PhoneInvalid)
  }

  /** A required field: `missing` when the value is empty. */
  function Required(v: Value, missing: FormError): (errors: seq<FormError>)
    ensures errors == [] <==> !Empty(v)
    ensures errors != [] ==> errors == [missing]
  {
    if Empty(v) then [missing] else []
  }

  /** A required field with a format check: `missing` when empty, else `invalid` when
      the check fails. */
  function Checked(v: Value, ok: bool, missing: FormError, invalid: FormError): (errors: seq<FormError>)
    ensures errors == [] <==> !Empty(v) && ok
    ensures errors != [] ==> errors == [if Empty(v) then missing else invalid]
  {
    if Empty(v) then [missing] else if !ok then [invalid] else []
  }

  /** The position of a key among the customer fields; 4 for any other key. */
  function FieldRank(k: Key): nat {
    match k
    case CustomerFirstName => 0
    case CustomerLastName => 1
    case CustomerEmail => 2
    case CustomerPhone => 3
    case _ => 4
  }

  /** The errors are set on fields in strictly increasing field order. */
  predicate InFieldOrder(errors: seq<FormError>) {
    forall i, j :: 0 <= i < j < |errors| ==> FieldRank(ErrorField(errors[i])) < FieldRank(ErrorField(errors[j]))
  }

  lemma AppendInFieldOrder(errors: seq<FormError>, next: seq<FormError>, n: nat)
    requires InFieldOrder(errors) && |next| <= 1
    requires forall i :: 0 <= i < |errors| ==> FieldRank(ErrorField(errors[i])) < n
    requires forall e :: e in next ==> FieldRank(ErrorField(e)) == n
    ensures InFieldOrder(errors + next)
    ensures forall i :: 0 <= i < |errors + next| ==> FieldRank(ErrorField((errors + next)[i])) <= n
  {
    if |next| == 1 {
      assert next[0] in next;
    }
  }

  /** The customer checks report nothing but customer errors, at most one per field, in
      the order first name, last name, email, phone. */
  lemma CustomerErrorsFields(input: Fields, emailValid: bool)
    ensures var errors := CustomerErrors(input, emailValid);
            && (forall e :: e in errors ==> ErrorField(e) in CustomerFields)
            && InFieldOrder(errors)
            && (forall i, j :: 0 <= i < j < |errors| ==> ErrorField(errors[i]) != ErrorField(errors[j]))
  {
    var email, phone := Lookup(input, CustomerEmail), Lookup(input, CustomerPhone);
    FieldsInOrder(Required(Lookup(input, CustomerFirstName), FirstNameMissing),
                  Required(Lookup(input, CustomerLastName), LastNameMissing),
                  Checked(email, emailValid, EmailMissing, EmailInvalid),
                  Checked(phone, PhonePatternMatches(PhpString(phone)), PhoneMissing, PhoneInvalid));
  }

  /** Four pieces of at most one error each, on the four customer fields in turn, make
      a list in field order. */
  lemma FieldsInOrder(first: seq<FormError>, last: seq<FormError>, mail: seq<FormError>, tel: seq<FormError>)
    requires |first| <= 1 && |last| <= 1 && |mail| <= 1 && |tel| <= 1
    requires forall e :: e in first ==> ErrorField(e) == CustomerFirstName
    requires forall e :: e in last ==> ErrorField(e) == CustomerLastName
    requires forall e :: e in mail ==> ErrorField(e) == CustomerEmail
    requires forall e :: e in tel ==> ErrorField(e) == CustomerPhone
    ensures var errors := first + last + mail + tel;
            && (forall e :: e in errors ==> ErrorField(e) in CustomerFields)
            && InFieldOrder(errors)
            && (forall i, j :: 0 <= i < j < |errors| ==> ErrorField(errors[i]) != ErrorField(errors[j]))
  {
    AppendInFieldOrder([], first, 0);
    AppendInFieldOrder(first, last, 1);
    AppendInFieldOrder(first + last, mail, 2);
    AppendInFieldOrder(first + last + mail, tel, 3);
    RankedAreCustomer(first + last + mail + tel);
  }

  lemma RankedAreCustomer(errors: seq<FormError>)
    requires forall i :: 0 <= i < |errors| ==> FieldRank(ErrorField(errors[i])) <= 3
    ensures forall e :: e in errors ==> ErrorField(e) in CustomerFields
  {
    forall e | e in errors
      ensures ErrorField(e) in CustomerFields
    {
      var i :| 0 <= i < |errors| && errors[i] == e;
    }
  }

  /** The customer checks pass iff all four fields are present, the email is valid and
      the phone is digits. */
  lemma CustomerErrorsNone(input: Fields, emailValid: bool)
    ensures CustomerErrors(input, emailValid) == [] <==>
              && !Empty(Lookup(input, CustomerFirstName))
              && !Empty(Lookup(input, CustomerLastName))
              && !Empty(Lookup(input, CustomerEmail)) && emailValid
              && !Empty(Lookup(input, CustomerPhone))
              && PhonePatternMatches(PhpString(Lookup(input, CustomerPhone)))
  {
    var errors := CustomerErrors(input, emailValid);
    if errors != [] {
      assert errors[0] in errors;
    }
  }
}
