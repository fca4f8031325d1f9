/**
 * The checkout page's field rules and input formatters (`src/pages/Payment.tsx`):
 * the three zod schemas as ordered lists of failed checks, the error maps
 * built from them, the per-method payment check, and the card-number,
 * expiry and CVV formatters applied as the user types.
 */
module Validation {
  import opened Options
  import opened Seqs
  import opened Text
  import opened Types

  datatype CustomerField = Name | Phone | Email | Address | City | Pincode | CookingNote
  datatype PaymentField = UpiId | CardNumber | CardExpiry | CardCvv | CardName | SelectedBank

  /** One failed check of a schema: the field and the check's message. */
  datatype Issue<F> = Issue(field: F, message: string)

  /** The issue a check reports when it fails. */
  function Check<F>(failed: bool, field: F, message: string): seq<Issue<F>>
  {
    if failed then [Issue(field, message)] else []
  }

  /** The two checks zod runs, in order, on one field (a `min` and a `max`, say). */
  function TwoChecks<F>(field: F, failed1: bool, message1: string, failed2: bool, message2: string): seq<Issue<F>>
  {
    Check(failed1, field, message1) + Check(failed2, field, message2)
  }

  // ---------------------------------------------------------------------------
  // Error maps

  /** The map the `forEach` over the issues builds: later issues overwrite earlier ones. */
  function IssueMap<F>(issues: seq<Issue<F>>): map<F, string>
  {
    if |issues| == 0 then map[]
    else IssueMap(issues[..|issues| - 1])[issues[|issues| - 1].field := issues[|issues| - 1].message]
  }

  /** The error map of two lists of issues in a row: the second list's entries win. */
  lemma {:induction false} IssueMapAppend<F>(a: seq<Issue<F>>, b: seq<Issue<F>>)
    ensures IssueMap(a + b) == IssueMap(a) + IssueMap(b)
  {
    if |b| > 0 {
      var last := b[|b| - 1];
      assert (a + b)[..|a + b| - 1] == a + b[..|b| - 1];
      IssueMapAppend(a, b[..|b| - 1]);
      assert IssueMap(a + b) == (IssueMap(a) + IssueMap(b[..|b| - 1]))[last.field := last.message];
    } else {
      assert a + b == a;
    }
  }

  lemma IssueMapAppend4<F>(a: seq<Issue<F>>, b: seq<Issue<F>>, c: seq<Issue<F>>, e: seq<Issue<F>>)
    ensures IssueMap(a + b + c + e) == IssueMap(a) + IssueMap(b) + IssueMap(c) + IssueMap(e)
  {
    IssueMapAppend(a, b);
    IssueMapAppend(a + b, c);
    IssueMapAppend(a + b + c, e);
  }

  /** The error map is empty exactly when there is no issue. */
  lemma IssueMapEmpty<F>(issues: seq<Issue<F>>)
    ensures IssueMap(issues) == map[] <==> issues == []
  {
    if issues != [] {
      assert issues[|issues| - 1].field in IssueMap(issues);
    }
  }

  /** One check leaves an entry with its message exactly when it fails. */
  lemma CheckMap<F>(failed: bool, field: F, message: string)
    ensures IssueMap(Check(failed, field, message)) == if failed then map[field := message] else map[]
  {
    if failed {
      assert [Issue(field, message)][..0] == [];
    }
  }

  /** Of two checks on one field, the entry holds the message of the later one that fails. */
  lemma TwoChecksMap<F>(field: F, failed1: bool, message1: string, failed2: bool, message2: string)
    ensures IssueMap(TwoChecks(field, failed1, message1, failed2, message2))
      == if failed2 then map[field := message2] else if failed1 then map[field := message1] else map[]
  {
    var a, b := Check(failed1, field, message1), Check(failed2, field, message2);
    IssueMapAppend(a, b);
    CheckMap(failed1, field, message1);
    CheckMap(failed2, field, message2);
  }

  /** The keys of a union of maps are the union of their keys. */
  lemma UnionKeys<F>(m0: map<F, string>, m1: map<F, string>, m2: map<F, string>,
                     m3: map<F, string>, m4: map<F, string>, m5: map<F, string>)
    ensures (m0 + m1 + m2 + m3 + m4 + m5).Keys == m0.Keys + m1.Keys + m2.Keys + m3.Keys + m4.Keys + m5.Keys
  {
  }

  /** The `forEach` loop of `validateForm` and of the card branch: one entry per issue, in order. */
  method CollectIssues<F>(issues: seq<Issue<F>>) returns (errors: map<F, string>)
    ensures errors == IssueMap(issues)
  {
    errors := map[];
    var i := 0;
    while i < |issues|
      invariant 0 <= i <= |issues|
      invariant errors == IssueMap(issues[..i])
    {
      errors := errors[issues[i].field := issues[i].message];
      i := i + 1;
      assert issues[..i][..i - 1] == issues[..i - 1];
    }
    assert issues[..|issues|] == issues;
  }

  // ---------------------------------------------------------------------------
  // customerSchema

  /** `/^[6-9]\d{9}$/`. */
  predicate PhonePattern(t: string)
  {
    |t| == 10 && '6' <= t[0] <= '9' && AllDigits(t)
  }

  /** `/^\d{6}$/`. */
  predicate PincodePattern(t: string)
  {
    |t| == 6 && AllDigits(t)
  }

  /** The schema's `.trim()` on every field it checks; the cooking note is not part of the schema. */
  function TrimFields(d: CustomerDetails): (t: CustomerDetails)
    ensures t.name == Trim(d.name) && t.phone == Trim(d.phone) && t.email == Trim(d.email)
    ensures t.address == Trim(d.address) && t.city == Trim(d.city) && t.pincode == Trim(d.pincode)
    ensures t.cookingNote == d.cookingNote
  {
    d.(name := Trim(d.name), phone := Trim(d.phone), email := Trim(d.email),
       address := Trim(d.address), city := Trim(d.city), pincode := Trim(d.pincode))
  }

  /** The schema's trimming is stable: a parsed form parses to itself. */
  lemma TrimFieldsIdempotent(d: CustomerDetails)
    ensures TrimFields(TrimFields(d)) == TrimFields(d)
  {
    TrimIdempotent(d.name);
    TrimIdempotent(d.phone);
    TrimIdempotent(d.email);
    TrimIdempotent(d.address);
    TrimIdempotent(d.city);
    TrimIdempotent(d.pincode);
  }

  /**
   * The rule each customer field must pass, on trimmed values; `isEmail` is
   * zod's e-mail syntax check.
   */
  predicate CustomerFieldValid(t: CustomerDetails, isEmail: string -> bool, f: CustomerField)
  {
    match f
    case Name => 2 <= |t.name| <= 100
    case Phone => PhonePattern(t.phone)
    case Email => isEmail(t.email) && |t.email| <= 255
    case Address => 10 <= |t.address| <= 500
    case City => 2 <= |t.city| <= 100
    case Pincode => PincodePattern(t.pincode)
    case CookingNote => true
  }

  const CustomerFields: set<CustomerField> := {Name, Phone, Email, Address, City, Pincode, CookingNote}

  /** The fields of a trimmed form whose rule fails. */
  function FailingFields(t: CustomerDetails, isEmail: string -> bool): set<CustomerField>
  {
    set f | f in CustomerFields && !CustomerFieldValid(t, isEmail, f)
  }

  /** The fields whose rule fails once the form is trimmed. */
  function FailingCustomerFields(d: CustomerDetails, isEmail: string -> bool): set<CustomerField>
  {
    FailingFields(TrimFields(d), isEmail)
  }

  function NameIssues(name: string): seq<Issue<CustomerField>>
  {
    TwoChecks(Name, |name| < 2, "Name must be at least 2 characters", |name| > 100, "Name is too long")
  }

  function PhoneIssues(phone: string): seq<Issue<CustomerField>>
  {
    Check(!PhonePattern(phone), Phone, "Enter a valid 10-digit mobile number")
  }

  function EmailIssues(email: string, isEmail: string -> bool): seq<Issue<CustomerField>>
  {
    TwoChecks(Email, !isEmail(email), "Enter a valid email address", |email| > 255, "Email is too long")
  }

  function AddressIssues(address: string): seq<Issue<CustomerField>>
  {
    TwoChecks(Address, |address| < 10, "Address must be at least 10 characters", |address| > 500, "Address is too long")
  }

  function CityIssues(city: string): seq<Issue<CustomerField>>
  {
    TwoChecks(City, |city| < 2, "City is required", |city| > 100, "City name is too long")
  }

  function PincodeIssues(pincode: string): seq<Issue<CustomerField>>
  {
    Check(!PincodePattern(pincode), Pincode, "Enter a valid 6-digit pincode")
  }

  /** The issues of an already trimmed form, field by field in schema order. */
  function TrimmedIssues(t: CustomerDetails, isEmail: string -> bool): seq<Issue<CustomerField>>
  {
    NameIssues(t.name) + PhoneIssues(t.phone) + EmailIssues(t.email, isEmail)
    + AddressIssues(t.address) + CityIssues(t.city) + PincodeIssues(t.pincode)
  }

  /** `customerSchema.parse(formData)`'s issues. */
  function CustomerIssues(d: CustomerDetails, isEmail: string -> bool): seq<Issue<CustomerField>>
  {
    TrimmedIssues(TrimFields(d), isEmail)
  }

  /** One check leaves an entry exactly when it fails. */
  lemma CheckKeys<F>(failed: bool, field: F, message: string)
    ensures IssueMap(Check(failed, field, message)).Keys == if failed then {field} else {}
  {
    CheckMap(failed, field, message);
  }

  /** Two checks on one field leave an entry exactly when one of them fails. */
  lemma TwoChecksKeys<F>(field: F, failed1: bool, message1: string, failed2: bool, message2: string)
    ensures IssueMap(TwoChecks(field, failed1, message1, failed2, message2)).Keys
      == if failed1 || failed2 then {field} else {}
  {
    TwoChecksMap(field, failed1, message1, failed2, message2);
  }

  /** The error map of the whole form is the union of the per-field maps, in schema order. */
  lemma TrimmedIssueMapSplit(t: CustomerDetails, isEmail: string -> bool)
    ensures IssueMap(TrimmedIssues(t, isEmail))
      == IssueMap(NameIssues(t.name)) + IssueMap(PhoneIssues(t.phone)) + IssueMap(EmailIssues(t.email, isEmail))
       + IssueMap(AddressIssues(t.address)) + IssueMap(CityIssues(t.city)) + IssueMap(PincodeIssues(t.pincode))
  {
    var g0, g1, g2 := NameIssues(t.name), PhoneIssues(t.phone), EmailIssues(t.email, isEmail);
    var g3, g4, g5 := AddressIssues(t.address), CityIssues(t.city), PincodeIssues(t.pincode);
    IssueMapAppend(g0, g1);
    IssueMapAppend(g0 + g1, g2);
    IssueMapAppend(g0 + g1 + g2, g3);
    IssueMapAppend(g0 + g1 + g2 + g3, g4);
    IssueMapAppend(g0 + g1 + g2 + g3 + g4, g5);
  }

  /** Each per-field map has an entry for its own field exactly when that field's rule fails. */
  lemma FieldMapKeys(t: CustomerDetails, isEmail: string -> bool)
    ensures IssueMap(NameIssues(t.name)).Keys == if CustomerFieldValid(t, isEmail, Name) then {} else {Name}
    ensures IssueMap(PhoneIssues(t.phone)).Keys == if CustomerFieldValid(t, isEmail, Phone) then {} else {Phone}
    ensures IssueMap(AddressIssues(t.address)).Keys == if CustomerFieldValid(t, isEmail, Address) then {} else {Address}
    ensures IssueMap(CityIssues(t.city)).Keys == if CustomerFieldValid(t, isEmail, City) then {} else {City}
    ensures IssueMap(PincodeIssues(t.pincode)).Keys == if CustomerFieldValid(t, isEmail, Pincode) then {} else {Pincode}
  {
    TwoChecksKeys(Name, |t.name| < 2, "Name must be at least 2 characters", |t.name| > 100, "Name is too long");
    CheckKeys(!PhonePattern(t.phone), Phone, "Enter a valid 10-digit mobile number");
    TwoChecksKeys(Address, |t.address| < 10, "Address must be at least 10 characters", |t.address| > 500, "Address is too long");
    TwoChecksKeys(City, |t.city| < 2, "City is required", |t.city| > 100, "City name is too long");
    CheckKeys(!PincodePattern(t.pincode), Pincode, "Enter a valid 6-digit pincode");
  }

  /** The e-mail's entry: present when either check fails, holding the later failure's message. */
  lemma EmailMap(email: string, isEmail: string -> bool)
    ensures var m := IssueMap(EmailIssues(email, isEmail));
      && m.Keys == (if isEmail(email) && |email| <= 255 then {} else {Email})
      && (Email in m ==> m[Email] == if |email| > 255 then "Email is too long" else "Enter a valid email address")
  {
    TwoChecksMap(Email, !isEmail(email), "Enter a valid email address", |email| > 255, "Email is too long");
  }

  /** The trimmed form's error map, named by its per-field parts. */
  lemma TrimmedFieldMaps(t: CustomerDetails, isEmail: string -> bool)
    returns (m0: map<CustomerField, string>, m1: map<CustomerField, string>, m2: map<CustomerField, string>,
             m3: map<CustomerField, string>, m4: map<CustomerField, string>, m5: map<CustomerField, string>)
    ensures IssueMap(TrimmedIssues(t, isEmail)) == m0 + m1 + m2 + m3 + m4 + m5
    ensures m0.Keys == if CustomerFieldValid(t, isEmail, Name) then {} else {Name}
    ensures m1.Keys == if CustomerFieldValid(t, isEmail, Phone) then {} else {Phone}
    ensures m2.Keys == if CustomerFieldValid(t, isEmail, Email) then {} else {Email}
    ensures m3.Keys == if CustomerFieldValid(t, isEmail, Address) then {} else {Address}
    ensures m4.Keys == if CustomerFieldValid(t, isEmail, City) then {} else {City}
    ensures m5.Keys == if CustomerFieldValid(t, isEmail, Pincode) then {} else {Pincode}
    ensures Email in m2 ==> m2[Email] == if |t.email| > 255 then "Email is too long" else "Enter a valid email address"
  {
    TrimmedIssueMapSplit(t, isEmail);
    FieldMapKeys(t, isEmail);
    EmailMap(t.email, isEmail);
    m0, m1, m2 := IssueMap(NameIssues(t.name)), IssueMap(PhoneIssues(t.phone)), IssueMap(EmailIssues(t.email, isEmail));
    m3, m4, m5 := IssueMap(AddressIssues(t.address)), IssueMap(CityIssues(t.city)), IssueMap(PincodeIssues(t.pincode));
  }

  /** The failing fields, listed field by field. */
  lemma FailingFieldsByField(t: CustomerDetails, isEmail: string -> bool)
    ensures FailingFields(t, isEmail)
      == (if CustomerFieldValid(t, isEmail, Name) then {} else {Name})
       + (if CustomerFieldValid(t, isEmail, Phone) then {} else {Phone})
       + (if CustomerFieldValid(t, isEmail, Email) then {} else {Email})
       + (if CustomerFieldValid(t, isEmail, Address) then {} else {Address})
       + (if CustomerFieldValid(t, isEmail, City) then {} else {City})
       + (if CustomerFieldValid(t, isEmail, Pincode) then {} else {Pincode})
  {
    var byField := (if CustomerFieldValid(t, isEmail, Name) then {} else {Name})
       + (if CustomerFieldValid(t, isEmail, Phone) then {} else {Phone})
       + (if CustomerFieldValid(t, isEmail, Email) then {} else {Email})
       + (if CustomerFieldValid(t, isEmail, Address) then {} else {Address})
       + (if CustomerFieldValid(t, isEmail, City) then {} else {City})
       + (if CustomerFieldValid(t, isEmail, Pincode) then {} else {Pincode});
    forall f ensures f in FailingFields(t, isEmail) <==> f in byField {
      match f
      case Name => case Phone => case Email => case Address => case City => case Pincode => case CookingNote =>
    }
  }

  /** The trimmed form's error map has an entry for exactly the fields whose rule fails. */
  lemma TrimmedErrorsAreFailingFields(t: CustomerDetails, isEmail: string -> bool)
    ensures var errors := IssueMap(TrimmedIssues(t, isEmail));
      && errors.Keys == FailingFields(t, isEmail)
      && (Email in errors ==> errors[Email] == if |t.email| > 255 then "Email is too long" else "Enter a valid email address")
  {
    var m0, m1, m2, m3, m4, m5 := TrimmedFieldMaps(t, isEmail);
    UnionKeys(m0, m1, m2, m3, m4, m5);
    FailingFieldsByField(t, isEmail);
  }

  /**
   * `validateForm`'s error map has an entry for exactly the fields whose rule
   * fails, and the form passes exactly when no rule fails. When the e-mail
   * fails both of its checks, the later check's message is the one shown.
   */
  lemma CustomerErrorsAreFailingFields(d: CustomerDetails, isEmail: string -> bool)
    ensures var errors := IssueMap(CustomerIssues(d, isEmail));
      && errors.Keys == FailingCustomerFields(d, isEmail)
      && (CustomerIssues(d, isEmail) == [] <==> FailingCustomerFields(d, isEmail) == {})
      && CookingNote !in errors
      && (Email in errors ==>
            errors[Email] == if |Trim(d.email)| > 255 then "Email is too long" else "Enter a valid email address")
  {
    TrimmedErrorsAreFailingFields(TrimFields(d), isEmail);
    IssueMapEmpty(CustomerIssues(d, isEmail));
  }

  /**
   * Each delivery field's rule on the value as typed: the phone is ten digits
   * starting with 6 to 9 and the pincode six digits once trimmed, name and city
   * take 2 to 100 trimmed characters, the address 10 to 500, and the e-mail at
   * most 255 and must pass the e-mail check; the cooking note never fails.
   */
  lemma CustomerFieldRules(d: CustomerDetails, isEmail: string -> bool)
    ensures var failing := FailingCustomerFields(d, isEmail);
      && (Name !in failing <==> 2 <= |Trim(d.name)| <= 100)
      && (Phone !in failing <==>
            |Trim(d.phone)| == 10 && '6' <= Trim(d.phone)[0] <= '9' && AllDigits(Trim(d.phone)))
      && (Email !in failing <==> isEmail(Trim(d.email)) && |Trim(d.email)| <= 255)
      && (Address !in failing <==> 10 <= |Trim(d.address)| <= 500)
      && (City !in failing <==> 2 <= |Trim(d.city)| <= 100)
      && (Pincode !in failing <==> |Trim(d.pincode)| == 6 && AllDigits(Trim(d.pincode)))
      && CookingNote !in failing
  {
  }

  // ---------------------------------------------------------------------------
  // upiSchema

  /** `[\w.-]`. */
  predicate UpiChar(c: char)
  {
    IsWordChar(c) || c == '.' || c == '-'
  }

  predicate AllUpiChars(s: string)
  {
    forall i :: 0 <= i < |s| ==> UpiChar(s[i])
  }

  /** `/^[\w.-]+@[\w.-]+$/`, read declaratively: a non-empty handle, `@`, a non-empty provider. */
  ghost predicate UpiShape(t: string)
  {
    exists k :: 0 < k < |t| - 1 && t[k] == '@' && AllUpiChars(t[..k]) && AllUpiChars(t[k + 1..])
  }

  /** The first index of `c` in `s`, or -1. */
  function IndexOf(s: string, c: char): (r: int)
    ensures -1 <= r < |s|
    ensures r >= 0 ==> s[r] == c
    ensures forall j :: 0 <= j < |s| && (r < 0 || j < r) ==> s[j] != c
  {
    if |s| == 0 then -1
    else if s[0] == c then 0
    else
      var k := IndexOf(s[1..], c);
      if k < 0 then -1 else k + 1
  }

  /** The UPI regular expression, matched by splitting at the first `@`. */
  predicate UpiPattern(t: string)
  {
    var k := IndexOf(t, '@');
    0 < k < |t| - 1 && AllUpiChars(t[..k]) && AllUpiChars(t[k + 1..])
  }

  /** Splitting at the first `@` matches exactly the strings of the declarative shape. */
  lemma UpiPatternIsShape(t: string)
    ensures UpiPattern(t) <==> UpiShape(t)
  {
    if UpiShape(t) {
      var k :| 0 < k < |t| - 1 && t[k] == '@' && AllUpiChars(t[..k]) && AllUpiChars(t[k + 1..]);
      forall j | 0 <= j < k ensures t[j] != '@' {
        assert t[..k][j] == t[j];
        assert UpiChar(t[..k][j]);
      }
      assert IndexOf(t, '@') == k;
    }
  }

  /** `upiSchema.parse({upiId})`'s issues, on the trimmed id. */
  function UpiIssues(upiId: string): seq<Issue<PaymentField>>
  {
    var t := Trim(upiId);
    TwoChecks(UpiId, |t| < 1, "Enter your UPI ID", !UpiPattern(t), "Invalid UPI ID (e.g. name@bank)")
  }

  // ---------------------------------------------------------------------------
  // cardSchema

  /** `/^\d{13,19}$/`, on the card number once its whitespace is removed. */
  predicate CardDigitsRule(c: string)
  {
    13 <= |c| <= 19 && AllDigits(c)
  }

  /** The card-number check of the schema on the raw input. */
  predicate CardNumberPattern(s: string)
  {
    CardDigitsRule(RemoveWhitespace(s))
  }

  /** `(0[1-9]|1[0-2])`. */
  predicate MonthDigits(a: char, b: char)
  {
    (a == '0' && '1' <= b <= '9') || (a == '1' && '0' <= b <= '2')
  }

  /** `/^(0[1-9]|1[0-2])\/\d{2}$/`, on the untrimmed value. */
  predicate ExpiryPattern(s: string)
  {
    |s| == 5 && MonthDigits(s[0], s[1]) && s[2] == '/' && IsDigit(s[3]) && IsDigit(s[4])
  }

  /** `/^\d{3,4}$/`, on the trimmed CVV. */
  predicate CvvDigitsRule(c: string)
  {
    3 <= |c| <= 4 && AllDigits(c)
  }

  /** The CVV check of the schema on the raw input. */
  predicate CvvPattern(s: string)
  {
    CvvDigitsRule(Trim(s))
  }

  /**
   * The values the card schema checks: the number with its whitespace removed,
   * the CVV and the name trimmed, the expiry as typed.
   */
  function ParseCard(d: PaymentDetails): (t: PaymentDetails)
    ensures t.cardExpiry == d.cardExpiry
  {
    d.(cardNumber := RemoveWhitespace(d.cardNumber), cardCvv := Trim(d.cardCvv), cardName := Trim(d.cardName))
  }

  /** The rule each card field must pass, on parsed values. */
  predicate CardFieldValid(t: PaymentDetails, f: PaymentField)
  {
    match f
    case CardNumber => CardDigitsRule(t.cardNumber)
    case CardExpiry => ExpiryPattern(t.cardExpiry)
    case CardCvv => CvvDigitsRule(t.cardCvv)
    case CardName => 2 <= |t.cardName| <= 100
    case _ => true
  }

  const PaymentFields: set<PaymentField> := {UpiId, CardNumber, CardExpiry, CardCvv, CardName, SelectedBank}

  /** The card fields of parsed values whose rule fails. */
  function FailingParsedCardFields(t: PaymentDetails): set<PaymentField>
  {
    set f | f in PaymentFields && !CardFieldValid(t, f)
  }

  /** The card fields whose rule fails. */
  function FailingCardFields(d: PaymentDetails): set<PaymentField>
  {
    FailingParsedCardFields(ParseCard(d))
  }

  function CardNumberIssues(c: string): seq<Issue<PaymentField>>
  {
    Check(!CardDigitsRule(c), CardNumber, "Enter a valid 13\U{2013}19 digit card number")
  }

  function ExpiryIssues(e: string): seq<Issue<PaymentField>>
  {
    Check(!ExpiryPattern(e), CardExpiry, "Enter expiry as MM/YY")
  }

  function CvvIssues(c: string): seq<Issue<PaymentField>>
  {
    Check(!CvvDigitsRule(c), CardCvv, "Enter a valid 3 or 4 digit CVV")
  }

  function CardNameIssues(n: string): seq<Issue<PaymentField>>
  {
    TwoChecks(CardName, |n| < 2, "Cardholder name required", |n| > 100, "Name too long")
  }

  /** The card schema's issues on parsed values, in schema order. */
  function ParsedCardIssues(t: PaymentDetails): seq<Issue<PaymentField>>
  {
    CardNumberIssues(t.cardNumber) + ExpiryIssues(t.cardExpiry) + CvvIssues(t.cardCvv) + CardNameIssues(t.cardName)
  }

  /** `cardSchema.parse(...)`'s issues. */
  function CardIssues(d: PaymentDetails): seq<Issue<PaymentField>>
  {
    ParsedCardIssues(ParseCard(d))
  }

  /** Each per-field card map has an entry for its own field exactly when that field's rule fails. */
  lemma CardMapKeys(t: PaymentDetails)
    ensures IssueMap(CardNumberIssues(t.cardNumber)).Keys == if CardFieldValid(t, CardNumber) then {} else {CardNumber}
    ensures IssueMap(ExpiryIssues(t.cardExpiry)).Keys == if CardFieldValid(t, CardExpiry) then {} else {CardExpiry}
    ensures IssueMap(CvvIssues(t.cardCvv)).Keys == if CardFieldValid(t, CardCvv) then {} else {CardCvv}
    ensures IssueMap(CardNameIssues(t.cardName)).Keys == if CardFieldValid(t, CardName) then {} else {CardName}
  {
    CheckKeys(!CardDigitsRule(t.cardNumber), CardNumber, "Enter a valid 13\U{2013}19 digit card number");
    CheckKeys(!ExpiryPattern(t.cardExpiry), CardExpiry, "Enter expiry as MM/YY");
    CheckKeys(!CvvDigitsRule(t.cardCvv), CardCvv, "Enter a valid 3 or 4 digit CVV");
    TwoChecksKeys(CardName, |t.cardName| < 2, "Cardholder name required", |t.cardName| > 100, "Name too long");
  }

  /** The card error map, named by its per-field parts. */
  lemma CardFieldMaps(t: PaymentDetails)
    returns (m0: map<PaymentField, string>, m1: map<PaymentField, string>,
             m2: map<PaymentField, string>, m3: map<PaymentField, string>)
    ensures IssueMap(ParsedCardIssues(t)) == m0 + m1 + m2 + m3
    ensures m0.Keys == if CardFieldValid(t, CardNumber) then {} else {CardNumber}
    ensures m1.Keys == if CardFieldValid(t, CardExpiry) then {} else {CardExpiry}
    ensures m2.Keys == if CardFieldValid(t, CardCvv) then {} else {CardCvv}
    ensures m3.Keys == if CardFieldValid(t, CardName) then {} else {CardName}
  {
    m0, m1 := IssueMap(CardNumberIssues(t.cardNumber)), IssueMap(ExpiryIssues(t.cardExpiry));
    m2, m3 := IssueMap(CvvIssues(t.cardCvv)), IssueMap(CardNameIssues(t.cardName));
    IssueMapAppend4(CardNumberIssues(t.cardNumber), ExpiryIssues(t.cardExpiry), CvvIssues(t.cardCvv), CardNameIssues(t.cardName));
    CardMapKeys(t);
  }

  /** The failing card fields, listed field by field. */
  lemma FailingCardFieldsByField(t: PaymentDetails)
    ensures FailingParsedCardFields(t)
      == (if CardFieldValid(t, CardNumber) then {} else {CardNumber})
       + (if CardFieldValid(t, CardExpiry) then {} else {CardExpiry})
       + (if CardFieldValid(t, CardCvv) then {} else {CardCvv})
       + (if CardFieldValid(t, CardName) then {} else {CardName})
  {
    var byField := (if CardFieldValid(t, CardNumber) then {} else {CardNumber})
       + (if CardFieldValid(t, CardExpiry) then {} else {CardExpiry})
       + (if CardFieldValid(t, CardCvv) then {} else {CardCvv})
       + (if CardFieldValid(t, CardName) then {} else {CardName});
    forall f ensures f in FailingParsedCardFields(t) <==> f in byField {
      match f
      case UpiId => case CardNumber => case CardExpiry => case CardCvv => case CardName => case SelectedBank =>
    }
  }

  /** The card branch's error map has an entry for exactly the card fields whose rule fails. */
  lemma CardErrorsAreFailingFields(d: PaymentDetails)
    ensures IssueMap(CardIssues(d)).Keys == FailingCardFields(d)
    ensures CardIssues(d) == [] <==> FailingCardFields(d) == {}
  {
    var m0, m1, m2, m3 := CardFieldMaps(ParseCard(d));
    UnionKeys(m0, m1, m2, m3, map[], map[]);
    FailingCardFieldsByField(ParseCard(d));
    IssueMapEmpty(CardIssues(d));
  }

  /**
   * Each card field's rule on the value as typed: 13 to 19 digits once every
   * whitespace character is removed, an `MM/YY` expiry with month 01 to 12 and
   * no trimming, a CVV of 3 or 4 digits and a name of 2 to 100 characters once
   * trimmed; the UPI and bank fields are not the card schema's.
   */
  lemma CardFieldRules(d: PaymentDetails)
    ensures var failing := FailingCardFields(d);
      && (CardNumber !in failing <==>
            13 <= |RemoveWhitespace(d.cardNumber)| <= 19 && AllDigits(RemoveWhitespace(d.cardNumber)))
      && (CardExpiry !in failing <==>
            |d.cardExpiry| == 5 && MonthDigits(d.cardExpiry[0], d.cardExpiry[1]) && d.cardExpiry[2] == '/'
            && IsDigit(d.cardExpiry[3]) && IsDigit(d.cardExpiry[4]))
      && (CardCvv !in failing <==> 3 <= |Trim(d.cardCvv)| <= 4 && AllDigits(Trim(d.cardCvv)))
      && (CardName !in failing <==> 2 <= |Trim(d.cardName)| <= 100)
      && UpiId !in failing && SelectedBank !in failing
  {
  }

  // ---------------------------------------------------------------------------
  // validatePaymentDetails

  /**
   * What `validatePaymentDetails` decides: whether the order may proceed, and
   * the payment error map it sets (`None`: the map is left as it was).
   */
  datatype PaymentOutcome = PaymentOutcome(ok: bool, errors: Option<map<PaymentField, string>>)

  const BankRequired: string := "Please select your bank"

  function CheckPayment(paymentMethod: string, d: PaymentDetails): PaymentOutcome
  {
    if paymentMethod == "cod" then PaymentOutcome(true, Some(map[]))
    else if paymentMethod == "upi" then
      var issues := UpiIssues(d.upiId);
      if issues == [] then PaymentOutcome(true, Some(map[]))
      else PaymentOutcome(false, Some(map[UpiId := issues[0].message]))
    else if paymentMethod == "card" then
      var issues := CardIssues(d);
      if issues == [] then PaymentOutcome(true, Some(map[]))
      else PaymentOutcome(false, Some(IssueMap(issues)))
    else if paymentMethod == "netbanking" then
      if d.selectedBank == "" then PaymentOutcome(false, Some(map[SelectedBank := BankRequired]))
      else PaymentOutcome(true, Some(map[]))
    else PaymentOutcome(true, None)
  }

  /**
   * Cash on delivery always passes; net banking passes exactly when a bank is
   * selected (any non-empty value); an unknown method passes and leaves the
   * error map alone.
   */
  lemma CodNetbankingAndUnknownMethods(paymentMethod: string, d: PaymentDetails)
    ensures paymentMethod == "cod" ==> CheckPayment(paymentMethod, d) == PaymentOutcome(true, Some(map[]))
    ensures paymentMethod == "netbanking" ==>
      && CheckPayment(paymentMethod, d).ok == (d.selectedBank != "")
      && CheckPayment(paymentMethod, d).errors.Some?
      && CheckPayment(paymentMethod, d).errors.value.Keys == if d.selectedBank == "" then {SelectedBank} else {}
    ensures paymentMethod !in {"cod", "upi", "card", "netbanking"} ==>
      CheckPayment(paymentMethod, d) == PaymentOutcome(true, None)
  {
  }

  /**
   * UPI passes exactly when the trimmed id has the `handle@provider` shape; a
   * failure reports one message on `upiId`, that of the first failed check.
   */
  lemma UpiRule(d: PaymentDetails)
    ensures var r, t := CheckPayment("upi", d), Trim(d.upiId);
      && (r.ok <==> UpiShape(t))
      && r.errors == Some(if r.ok then map[] else
           map[UpiId := if |t| == 0 then "Enter your UPI ID" else "Invalid UPI ID (e.g. name@bank)"])
  {
    var t := Trim(d.upiId);
    UpiPatternIsShape(t);
  }

  /** The card branch passes exactly when all four card rules pass, with errors for exactly the failing ones. */
  lemma CardRule(d: PaymentDetails)
    ensures var r := CheckPayment("card", d);
      && (r.ok <==> FailingCardFields(d) == {})
      && r.errors.Some?
      && r.errors.value.Keys == FailingCardFields(d)
  {
    CardErrorsAreFailingFields(d);
  }

  // ---------------------------------------------------------------------------
  // Formatters

  /** `digits.replace(/(\d{4})(?=\d)/g, '$1 ')` on a string of digits. */
  function GroupDigits(d: string): string
    decreases |d|
  {
    if |d| <= 4 then d else d[..4] + " " + GroupDigits(d[4..])
  }

  /** `formatCardNumber`. */
  function FormatCardNumber(value: string): string
  {
    var digits := Digits(value);
    Trim(GroupDigits(digits[..Min(19, |digits|)]))
  }

  /** Deleting the spaces of a grouped string of digits gives the digits back. */
  lemma {:induction false} GroupDigitsRemoveWhitespace(d: string)
    requires AllDigits(d)
    ensures RemoveWhitespace(GroupDigits(d)) == d
    decreases |d|
  {
    if |d| <= 4 {
      RemoveWhitespaceDigits(d);
    } else {
      var rest := GroupDigits(d[4..]);
      GroupDigitsRemoveWhitespace(d[4..]);
      FilterAppend(d[..4] + " ", rest, NotWhitespace);
      FilterAppend(d[..4], " ", NotWhitespace);
      RemoveWhitespaceDigits(d[..4]);
      assert RemoveWhitespace(" ") == [];
      assert d == d[..4] + d[4..];
    }
  }

  /** Grouping puts a space at every fifth position, a digit everywhere else, and ends with a digit. */
  lemma {:induction false} GroupDigitsLayout(d: string)
    requires AllDigits(d)
    ensures var r := GroupDigits(d);
      && (forall i :: 0 <= i < |r| ==> if i % 5 == 4 then r[i] == ' ' else IsDigit(r[i]))
      && (r == [] <==> d == [])
      && (r != [] ==> IsDigit(r[|r| - 1]))
    decreases |d|
  {
    if |d| > 4 {
      var r, rest := GroupDigits(d), GroupDigits(d[4..]);
      GroupDigitsLayout(d[4..]);
      forall i | 0 <= i < |r| ensures if i % 5 == 4 then r[i] == ' ' else IsDigit(r[i]) {
        if i >= 5 {
          assert r[i] == rest[i - 5];
          assert (i - 5) % 5 == i % 5;
        }
      }
    }
  }

  /**
   * The formatted card number holds the first 19 digits of the input with a
   * space after each full group of four that another digit follows, and no
   * other character; the
   * card rule accepts it exactly when the input has at least 13 digits.
   */
  lemma FormatCardNumberProperties(value: string)
    ensures var r, d := FormatCardNumber(value), Digits(value);
      && RemoveWhitespace(r) == d[..Min(19, |d|)]
      && (forall i :: 0 <= i < |r| ==> if i % 5 == 4 then r[i] == ' ' else IsDigit(r[i]))
      && (r == [] || r[|r| - 1] != ' ')
      && (CardNumberPattern(r) <==> |d| >= 13)
  {
    var d := Digits(value);
    var kept := d[..Min(19, |d|)];
    var g := GroupDigits(kept);
    GroupDigitsRemoveWhitespace(kept);
    GroupDigitsLayout(kept);
    if g != [] {
      assert IsDigit(g[0]);
    }
    TrimUnchanged(g);
  }

  /** `formatExpiry`. */
  function FormatExpiry(value: string): string
  {
    var v := Digits(value);
    if |v| >= 2 then v[..2] + "/" + v[2..Min(4, |v|)] else v
  }

  /**
   * The formatted expiry holds the first four digits of the input, with a `/`
   * after the first two exactly when there are at least two, and nothing
   * else: every other character is a digit, so it is at most five long.
   */
  lemma FormatExpiryLayout(value: string)
    ensures var r, d := FormatExpiry(value), Digits(value);
      && |r| == Min(4, |d|) + (if |d| >= 2 then 1 else 0)
      && Digits(r) == d[..Min(4, |d|)]
      && ((|r| >= 3 && r[2] == '/') <==> |d| >= 2)
      && (forall i :: 0 <= i < |r| && i != 2 ==> IsDigit(r[i]))
  {
    var d := Digits(value);
    ExpiryLayoutShape(d);
    ExpiryLayoutDigits(d);
  }

  /** The shape of the expiry layout built from a digit string. */
  lemma ExpiryLayoutShape(d: string)
    requires AllDigits(d)
    ensures var r := if |d| >= 2 then d[..2] + "/" + d[2..Min(4, |d|)] else d;
      && |r| == Min(4, |d|) + (if |d| >= 2 then 1 else 0)
      && ((|r| >= 3 && r[2] == '/') <==> |d| >= 2)
      && (forall i :: 0 <= i < |r| && i != 2 ==> IsDigit(r[i]))
  {
    if |d| >= 2 {
      var r := d[..2] + "/" + d[2..Min(4, |d|)];
      forall i | 0 <= i < |r| && i != 2
        ensures IsDigit(r[i])
      {
        if i < 2 {
          assert r[i] == d[i];
        } else {
          assert r[i] == d[i - 1];
        }
      }
    }
  }

  /** The digits of the expiry layout built from a digit string are its first four. */
  lemma ExpiryLayoutDigits(d: string)
    requires AllDigits(d)
    ensures Digits(if |d| >= 2 then d[..2] + "/" + d[2..Min(4, |d|)] else d) == d[..Min(4, |d|)]
  {
    if |d| >= 2 {
      var head, slash, tail := d[..2], "/", d[2..Min(4, |d|)];
      FilterAppend(head + slash, tail, IsDigit);
      FilterAppend(head, slash, IsDigit);
      FilterAll(head, IsDigit);
      FilterAll(tail, IsDigit);
      assert Filter(slash, IsDigit) == Filter(slash[1..], IsDigit) == [];
      calc {
        Digits(head + slash + tail);
        Filter(head, IsDigit) + Filter(slash, IsDigit) + Filter(tail, IsDigit);
        head + tail;
        { assert d[..Min(4, |d|)] == head + tail; }
        d[..Min(4, |d|)];
      }
    } else {
      FilterAll(d, IsDigit);
      assert d[..Min(4, |d|)] == d;
    }
  }

  /** The expiry rule accepts the formatted expiry exactly when the input has four digits whose first two are a month. */
  lemma FormatExpiryAccepted(value: string)
    ensures var d := Digits(value);
      ExpiryPattern(FormatExpiry(value)) <==> |d| >= 4 && MonthDigits(d[0], d[1])
  {
    var d := Digits(value);
    var r := FormatExpiry(value);
    if |d| >= 4 {
      assert r == d[..2] + "/" + d[2..4];
      assert r[0] == d[0] && r[1] == d[1] && r[3] == d[2] && r[4] == d[3];
    }
  }

  /** The CVV input handler: `value.replace(/\D/g, '').slice(0, 4)`. */
  function FormatCvv(value: string): string
  {
    var d := Digits(value);
    d[..Min(4, |d|)]
  }

  /** The formatted CVV passes the CVV rule exactly when the input has at least three digits. */
  lemma FormatCvvProperties(value: string)
    ensures |FormatCvv(value)| <= 4
    ensures CvvPattern(FormatCvv(value)) <==> |Digits(value)| >= 3
  {
    TrimDigits(FormatCvv(value));
  }
}
