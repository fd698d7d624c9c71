/** The PHP values that travel through the wizards' form state and temp store:
    `null`, strings, integers and booleans, with PHP's `empty()` and string
    conversion. */
module PhpValues {

  import opened Decimal

  datatype Value = Null | Str(s: string) | Int(i: int) | Bool(b: bool)

  /** PHP `empty($v)`: null, "", "0", 0 and false are empty. */
  predicate Empty(v: Value) {
    match v
    case Null => true
    case Str(s) => s == "" || s == "0"
    case Int(i) => i == 0
    case Bool(b) => !b
  }

  /** PHP's conversion of a scalar to a string, as `str_pad` and `preg_match` apply it. */
  function PhpString(v: Value): string {
    match v
    case Null => ""
    case Str(s) => s
    case Int(i) => if i >= 0 then NatToString(i) else "-" + NatToString(-i)
    case Bool(b) => if b then "1" else ""
  }

  /** A string converts to itself; a non-negative integer converts to decimal digits
      that read back as it. */
  lemma PhpStringSpec(v: Value)
    ensures v.Str? ==> PhpString(v) == v.s
    ensures v.Int? && v.i >= 0 ==> AllDigits(PhpString(v)) && ParseDigits(PhpString(v)) == v.i
  {
    if v.Int? && v.i >= 0 {
      ParseNatToString(v.i);
    }
  }

  /** The array keys the wizards read and write: form element names, which are also
      the keys of the draft `values`. */
  datatype Key =
    | SelectedAgency | SelectedType | SelectedAdvisor
    | StartDate | EndDate
    | CustomerFirstName | CustomerLastName | CustomerEmail | CustomerPhone | AcceptTerms
    | AppointmentId | VerificationCode

  /** A PHP array over those keys, as the temp store's `values` and the submitted form values. */
  type Fields = map<Key, Value>

  /** `$fields[$key]`, which reads as null when the key is absent. */
  function Lookup(fields: Fields, key: Key): (r: Value)
    ensures key !in fields ==> r == Null
  {
    if key in fields then fields[key] else Null
  }
}
