/** The customer step of the insurance wizard (frontend/src/pages/CustomerForm.js): the
    customer fields kept in the wizard's state, the per-field error messages, the +/-
    buttons that clamp the numeric fields, and the validation run on submit. */
module CustomerForm {
  import opened Wrappers
  import opened Models

  // ---------------------------------------------------------------------------------
  // String.prototype.trim
  // ---------------------------------------------------------------------------------

  /** The white space JavaScript's `trim` removes and regular expressions match with `\s`:
      the ECMAScript WhiteSpace and LineTerminator characters. */
  predicate IsSpace(c: char) {
    || c == '\t' || c == '\n' || c == '\U{000B}' || c == '\U{000C}' || c == '\r' || c == ' '
    || c == '\U{00A0}' || c == '\U{1680}' || ('\U{2000}' <= c <= '\U{200A}')
    || c == '\U{2028}' || c == '\U{2029}' || c == '\U{202F}' || c == '\U{205F}'
    || c == '\U{3000}' || c == '\U{FEFF}'
  }

  /** The text without its leading white space. */
  function TrimStart(s: string): (r: string)
    decreases |s|
  {
    if s != [] && IsSpace(s[0]) then TrimStart(s[1..]) else s
  }

  /** The text without its trailing white space. */
  function TrimEnd(s: string): (r: string)
    decreases |s|
  {
    if s != [] && IsSpace(s[|s| - 1]) then TrimEnd(s[..|s| - 1]) else s
  }

  /** `trim`: the text without white space at either end. */
  function Trim(s: string): (r: string)
    ensures |r| <= |s|
    ensures r != [] ==> !IsSpace(r[0]) && !IsSpace(r[|r| - 1])
  {
    TrimStartSpec(s);
    TrimEndSpec(TrimStart(s));
    var t := TrimStart(s);
    var r := TrimEnd(t);
    assert r != [] ==> r[0] == t[0];
    r
  }

  /** `TrimStart` drops a prefix of white space and stops at the first other character. */
  lemma {:induction false} TrimStartSpec(s: string)
    ensures |TrimStart(s)| <= |s| && TrimStart(s) == s[|s| - |TrimStart(s)|..]
    ensures TrimStart(s) != [] ==> !IsSpace(TrimStart(s)[0])
    ensures forall i :: 0 <= i < |s| - |TrimStart(s)| ==> IsSpace(s[i])
    decreases |s|
  {
    if s != [] && IsSpace(s[0]) {
      TrimStartSpec(s[1..]);
      assert forall i :: 1 <= i < |s| ==> s[i] == s[1..][i - 1];
    }
  }

  /** `TrimEnd` drops a suffix of white space and stops at the last other character. */
  lemma {:induction false} TrimEndSpec(s: string)
    ensures |TrimEnd(s)| <= |s| && TrimEnd(s) == s[..|TrimEnd(s)|]
    ensures TrimEnd(s) != [] ==> !IsSpace(TrimEnd(s)[|TrimEnd(s)| - 1])
    ensures forall i :: |TrimEnd(s)| <= i < |s| ==> IsSpace(s[i])
    decreases |s|
  {
    if s != [] && IsSpace(s[|s| - 1]) {
      TrimEndSpec(s[..|s| - 1]);
    }
  }

  /** The trimmed text is a slice of the text with white space, and only white space,
      cut off at both ends. */
  lemma TrimSpec(s: string)
    ensures var t := TrimStart(s);
            && |t| <= |s| && |Trim(s)| <= |t|
            && Trim(s) == s[|s| - |t|..|s| - |t| + |Trim(s)|]
            && (forall i :: 0 <= i < |s| - |t| ==> IsSpace(s[i]))
            && (forall i :: |s| - |t| + |Trim(s)| <= i < |s| ==> IsSpace(s[i]))
    ensures Trim(s) != [] ==> !IsSpace(Trim(s)[0]) && !IsSpace(Trim(s)[|Trim(s)| - 1])
  {
    var t := TrimStart(s);
    TrimStartSpec(s);
    TrimEndSpec(t);
    var k := |s| - |t|;
    forall i | k + |Trim(s)| <= i < |s|
      ensures IsSpace(s[i])
    {
      assert s[i] == t[i - k];
    }
    if Trim(s) != [] {
      assert Trim(s)[0] == t[0];
    }
  }

  /** A text trims to nothing exactly when it is all white space. */
  lemma TrimBlank(s: string)
    ensures Trim(s) == "" <==> forall i :: 0 <= i < |s| ==> IsSpace(s[i])
  {
    TrimSpec(s);
    var t := TrimStart(s);
    if Trim(s) != "" {
      assert Trim(s)[0] == s[|s| - |t|];
    }
  }

  /** Trimming twice is trimming once. */
  lemma TrimIdempotent(s: string)
    ensures Trim(Trim(s)) == Trim(s)
  {
    TrimSpec(s);
    var r := Trim(s);
    if r != [] {
      assert TrimStart(r) == r;
      assert TrimEnd(r) == r;
    }
  }

  /** Left blank: nothing but white space. */
  predicate Blank(s: string) {
    Trim(s) == ""
  }

  // ---------------------------------------------------------------------------------
  // The phone and e-mail patterns
  // ---------------------------------------------------------------------------------

  predicate IsDigit(c: char) { '0' <= c <= '9' }

  predicate AllDigits(s: string) {
    forall i :: 0 <= i < |s| ==> IsDigit(s[i])
  }

  /** `/^\+?[0-9]{10,15}$/`: ten to fifteen digits, optionally after one leading `+`. */
  predicate PhoneMatches(t: string): (b: bool)
    ensures b <==> && |t| > 0
                   && 10 <= |t| - (if t[0] == '+' then 1 else 0) <= 15
                   && forall i :: 0 <= i < |t| ==> IsDigit(t[i]) || (i == 0 && t[i] == '+')
  {
    assert |t| > 0 && t[0] == '+' ==> forall i :: 1 <= i < |t| ==> t[i] == t[1..][i - 1];
    || (10 <= |t| <= 15 && AllDigits(t))
    || (|t| > 0 && t[0] == '+' && 10 <= |t| - 1 <= 15 && AllDigits(t[1..]))
  }

  /** A phone number matching the pattern is neither blank nor changed by trimming. */
  lemma PhoneMatchIsTrimmed(t: string)
    requires PhoneMatches(t)
    ensures !Blank(t) && Trim(t) == t
  {
    assert !IsSpace(t[0]) && !IsSpace(t[|t| - 1]) by {
      if t[0] != '+' {
        assert IsDigit(t[0]);
      }
      assert IsDigit(t[|t| - 1]) by {
        if t[0] == '+' && AllDigits(t[1..]) {
          assert t[|t| - 1] == t[1..][|t| - 2];
        }
      }
    }
    assert TrimStart(t) == t;
    assert TrimEnd(t) == t;
  }

  /** One part of the e-mail pattern, `[^\s@]+`: non-empty, with no white space and no `@`. */
  predicate Atom(s: string) {
    |s| > 0 && forall k :: 0 <= k < |s| ==> !IsSpace(s[k]) && s[k] != '@'
  }

  /** A split of the text as `/^[^\s@]+@[^\s@]+\.[^\s@]+$/` reads it: a local part, `@` at
      `i`, a domain head, `.` at `j` and a domain tail. */
  predicate EmailSplit(t: string, i: int, j: int) {
    && 0 <= i < j < |t| && t[i] == '@' && t[j] == '.'
    && Atom(t[..i]) && Atom(t[i + 1..j]) && Atom(t[j + 1..])
  }

  /** The same pattern by characters: no white space, exactly one `@`, at least one
      character before it, and a `.` after it that is neither the first nor the last
      character of the domain. */
  predicate EmailShape(t: string) {
    && (forall k :: 0 <= k < |t| ==> !IsSpace(t[k]))
    && exists i :: 0 < i < |t| && t[i] == '@'
                   && (forall k :: 0 <= k < |t| && k != i ==> t[k] != '@')
                   && (exists j :: i + 1 < j < |t| - 1 && t[j] == '.')
  }

  /** Every split the pattern finds has exactly one `@` and a `.` inside the domain. */
  lemma SplitIsShaped(t: string, i: int, j: int)
    requires EmailSplit(t, i, j)
    ensures EmailShape(t)
  {
    forall k | 0 <= k < |t|
      ensures !IsSpace(t[k]) && (k != i ==> t[k] != '@')
    {
      if k < i {
        assert t[k] == t[..i][k];
      } else if i < k < j {
        assert t[k] == t[i + 1..j][k - i - 1];
      } else if j < k {
        assert t[k] == t[j + 1..][k - j - 1];
      }
    }
    assert i + 1 < j < |t| - 1;
  }

  /** A text of that shape splits as the pattern requires, at its `@` and such a `.`. */
  lemma ShapeHasSplit(t: string)
    requires EmailShape(t)
    ensures exists i, j | 0 <= i < j < |t| :: EmailSplit(t, i, j)
  {
    var i :| 0 < i < |t| && t[i] == '@'
             && (forall k :: 0 <= k < |t| && k != i ==> t[k] != '@')
             && (exists j :: i + 1 < j < |t| - 1 && t[j] == '.');
    var j :| i + 1 < j < |t| - 1 && t[j] == '.';
    assert Atom(t[..i]);
    assert Atom(t[i + 1..j]);
    assert Atom(t[j + 1..]);
    assert EmailSplit(t, i, j);
  }

  /** `/^[^\s@]+@[^\s@]+\.[^\s@]+$/.test`: the text splits as the pattern reads it, which
      is exactly when it has the shape described by characters. */
  predicate EmailMatches(t: string): (b: bool)
    ensures b <==> EmailShape(t)
  {
    assert (exists i, j | 0 <= i < j < |t| :: EmailSplit(t, i, j)) <==> EmailShape(t) by {
      if exists i, j | 0 <= i < j < |t| :: EmailSplit(t, i, j) {
        var i, j :| EmailSplit(t, i, j);
        SplitIsShaped(t, i, j);
      }
      if EmailShape(t) {
        ShapeHasSplit(t);
      }
    }
    exists i, j | 0 <= i < j < |t| :: EmailSplit(t, i, j)
  }

  // ---------------------------------------------------------------------------------
  // validateForm
  // ---------------------------------------------------------------------------------

  const NameRequired := "Please, enter name"
  const SurnameRequired := "Please, enter surname"
  const AddressRequired := "Please, enter address"
  const PhoneRequired := "Please, enter phone number"
  const PhoneInvalid := "Please, enter correct phone number"
  const EmailInvalid := "Please, enter correct mail"

  /** The text inputs the form edits through `handleChange`, by their `name` attribute. */
  datatype TextField = NameField | SurnameField | AddressField | PhoneField | EmailField

  /** The e-mail is optional: only a non-blank one has to match the pattern. */
  predicate EmailAcceptable(email: string) {
    Blank(email) || EmailMatches(Trim(email))
  }

  /** The error map from the outcome of each check, built key by key in the order the
      form checks: a blank phone gets the "enter" message, a malformed one the "correct" one. */
  function ErrorMap(nameBlank: bool, surnameBlank: bool, addressBlank: bool,
                    phoneBlank: bool, phoneBad: bool, emailBad: bool): (e: map<TextField, string>)
    ensures NameField in e <==> nameBlank
    ensures SurnameField in e <==> surnameBlank
    ensures AddressField in e <==> addressBlank
    ensures PhoneField in e <==> phoneBlank || phoneBad
    ensures PhoneField in e ==> e[PhoneField] == (if phoneBlank then PhoneRequired else PhoneInvalid)
    ensures EmailField in e <==> emailBad
  {
    var e0 := if nameBlank then map[NameField := NameRequired] else map[];
    var e1 := if surnameBlank then e0[SurnameField := SurnameRequired] else e0;
    var e2 := if addressBlank then e1[AddressField := AddressRequired] else e1;
    var e3 := if phoneBlank then e2[PhoneField := PhoneRequired]
              else if phoneBad then e2[PhoneField := PhoneInvalid]
              else e2;
    if emailBad then e3[EmailField := EmailInvalid] else e3
  }

  /** The map the form builds by its conditional updates, one check after another. */
  lemma ErrorMapBySteps(nameBlank: bool, surnameBlank: bool, addressBlank: bool,
                        phoneBlank: bool, phoneBad: bool, emailBad: bool)
    ensures var e0: map<TextField, string> := map[];
            var e1 := if nameBlank then e0[NameField := NameRequired] else e0;
            var e2 := if surnameBlank then e1[SurnameField := SurnameRequired] else e1;
            var e3 := if addressBlank then e2[AddressField := AddressRequired] else e2;
            var e4 := if phoneBlank then e3[PhoneField := PhoneRequired]
                      else if phoneBad then e3[PhoneField := PhoneInvalid]
                      else e3;
            var e5 := if emailBad then e4[EmailField := EmailInvalid] else e4;
            e5 == ErrorMap(nameBlank, surnameBlank, addressBlank, phoneBlank, phoneBad, emailBad)
  {
  }

  /** The errors of a customer, field by field: each field is in the map exactly when it
      is wrong, with the message for what is wrong with it. */
  function FormErrors(c: Customer): (e: map<TextField, string>)
    ensures NameField in e <==> Blank(c.name)
    ensures SurnameField in e <==> Blank(c.surname)
    ensures AddressField in e <==> Blank(c.address)
    ensures PhoneField in e <==> !PhoneMatches(Trim(c.phone))
    ensures PhoneField in e ==> e[PhoneField] == (if Blank(c.phone) then PhoneRequired else PhoneInvalid)
    ensures EmailField in e <==> !EmailAcceptable(c.email)
  {
    var phone := Trim(c.phone);
    assert phone == "" ==> !PhoneMatches(phone);
    ErrorMap(Blank(c.name), Blank(c.surname), Blank(c.address),
             phone == "", !PhoneMatches(phone), !Blank(c.email) && !EmailMatches(Trim(c.email)))
  }

  /** FormErrors in the terms the form computes: each text trimmed once. */
  lemma FormErrorsByChecks(c: Customer)
    ensures FormErrors(c)
         == ErrorMap(Trim(c.name) == "", Trim(c.surname) == "", Trim(c.address) == "",
                     Trim(c.phone) == "", !PhoneMatches(Trim(c.phone)),
                     Trim(c.email) != "" && !EmailMatches(Trim(c.email)))
  {
  }

  /** The form is valid exactly when every required field is filled in, the phone matches
      its pattern and the e-mail, if given, matches its pattern. */
  lemma ValidIff(c: Customer)
    ensures FormErrors(c) == map[]
        <==> !Blank(c.name) && !Blank(c.surname) && !Blank(c.address)
             && PhoneMatches(Trim(c.phone)) && EmailAcceptable(c.email)
  {
    var e := FormErrors(c);
    if e != map[] {
      var k :| k in e;
      assert k.NameField? || k.SurnameField? || k.AddressField? || k.PhoneField? || k.EmailField?;
    }
  }

  // ---------------------------------------------------------------------------------
  // handleNumberChange
  // ---------------------------------------------------------------------------------

  function Min(a: int, b: int): (r: int) { if a <= b then a else b }
  function Max(a: int, b: int): (r: int) { if a >= b then a else b }

  /** `Math.min(Math.max(value, lo), hi)`. */
  function Clamp(value: int, lo: int, hi: int): (r: int)
    ensures lo <= hi ==> lo <= r <= hi
    ensures lo <= value <= hi ==> r == value
    ensures lo <= hi && value < lo ==> r == lo
    ensures value > hi ==> r == hi
  {
    Min(Max(value, lo), hi)
  }

  /** Clamping twice is clamping once. */
  lemma ClampIdempotent(value: int, lo: int, hi: int)
    ensures Clamp(Clamp(value, lo, hi), lo, hi) == Clamp(value, lo, hi)
  {
  }

  /** The numeric fields the +/- buttons change. */
  datatype NumberField = BirthYearField | DrivingExperienceField | AccidentsCountField

  /** The range of a numeric field: a birth year from 1900 to the current year, every other
      count from 0 to 50. */
  function Bounds(field: NumberField, currentYear: int): (b: (int, int))
    ensures field == BirthYearField ==> b == (1900, currentYear)
    ensures field != BirthYearField ==> b == (0, 50)
  {
    if field == BirthYearField then (1900, currentYear) else (0, 50)
  }

  /** The customer with one text field replaced. */
  function WithText(c: Customer, field: TextField, value: string): (r: Customer) {
    match field
    case NameField => c.(name := value)
    case SurnameField => c.(surname := value)
    case AddressField => c.(address := value)
    case PhoneField => c.(phone := value)
    case EmailField => c.(email := value)
  }

  /** The customer with one numeric field replaced. */
  function WithNumber(c: Customer, field: NumberField, value: int): (r: Customer) {
    match field
    case BirthYearField => c.(birthYear := Some(value))
    case DrivingExperienceField => c.(drivingExperience := Some(value))
    case AccidentsCountField => c.(accidentsCount := Some(value))
  }

  /** The form: the wizard's customer record and the error messages on display. */
  class Form {
    var customerInfo: Customer
    var errors: map<TextField, string>

    constructor (initial: Customer)
      ensures customerInfo == initial && errors == map[]
    {
      customerInfo := initial;
      errors := map[];
    }

    /** handleChange: store the typed value; when the field shows an error, blank that
        error, and leave every other error as it was. */
    method HandleChange(name: TextField, value: string)
      modifies this
      ensures customerInfo == WithText(old(customerInfo), name, value)
      ensures name in old(errors) && old(errors)[name] != "" ==> errors == old(errors)[name := ""]
      ensures !(name in old(errors) && old(errors)[name] != "") ==> errors == old(errors)
    {
      customerInfo := WithText(customerInfo, name, value);
      if name in errors && errors[name] != "" {
        errors := errors[name := ""];
      }
    }

    /** handleCustomerTypeChange: store the chosen customer type. */
    method HandleCustomerTypeChange(customerType: string)
      modifies this
      ensures customerInfo == old(customerInfo).(customerType := customerType)
      ensures errors == old(errors)
    {
      customerInfo := customerInfo.(customerType := customerType);
    }

    /** handleNumberChange: store the value clamped to the field's range. */
    method HandleNumberChange(field: NumberField, value: int, currentYear: int)
      modifies this
      ensures customerInfo == WithNumber(old(customerInfo), field,
                                         Clamp(value, Bounds(field, currentYear).0, Bounds(field, currentYear).1))
      ensures errors == old(errors)
    {
      var min := if field == BirthYearField then 1900 else 0;
      var max := if field == BirthYearField then currentYear else 50;
      var newValue := Min(Max(value, min), max);
      customerInfo := WithNumber(customerInfo, field, newValue);
    }

    /** validateForm: collect the errors field by field, show them, and report whether
        there were none. */
    method ValidateForm() returns (ok: bool)
      modifies this
      ensures customerInfo == old(customerInfo)
      ensures errors == FormErrors(customerInfo)
      ensures ok <==> errors == map[]
    {
      var c := customerInfo;
      var nameBlank, surnameBlank, addressBlank := Trim(c.name) == "", Trim(c.surname) == "", Trim(c.address) == "";
      var phone := Trim(c.phone);
      var phoneBad := !PhoneMatches(phone);
      var email := Trim(c.email);
      var emailBad := email != "" && !EmailMatches(email);
      var newErrors: map<TextField, string> := map[];
      newErrors := if nameBlank then newErrors[NameField := NameRequired] else newErrors;
      newErrors := if surnameBlank then newErrors[SurnameField := SurnameRequired] else newErrors;
      newErrors := if addressBlank then newErrors[AddressField := AddressRequired] else newErrors;
      newErrors := if phone == "" then newErrors[PhoneField := PhoneRequired]
                   else if phoneBad then newErrors[PhoneField := PhoneInvalid]
                   else newErrors;
      newErrors := if emailBad then newErrors[EmailField := EmailInvalid] else newErrors;
      ErrorMapBySteps(nameBlank, surnameBlank, addressBlank, phone == "", phoneBad, emailBad);
      FormErrorsByChecks(c);
      errors := newErrors;
      ok := |newErrors| == 0;
    }
  }
}
