/** The booking dialog: the form's field rules and the booking it posts. */
module BookingModal {
  import opened Wrappers
  import opened Schema

  /** The form's six fields, all text as the inputs hold them. */
  datatype BookingForm = BookingForm(
    guestName: string,
    guestEmail: string,
    guestPhone: string,
    checkIn: string,
    checkOut: string,
    guests: string)

  const DefaultForm: BookingForm := BookingForm("", "", "", "", "", "1")

  /** One failed field rule, with the message shown under the field. */
  datatype FieldIssue = FieldIssue(field: string, message: string)

  /** One rule: its issue when it fails, nothing when it holds. */
  function Rule(fails: bool, field: string, message: string): (r: seq<FieldIssue>)
    ensures |r| <= 1 && (r == [] <==> !fails)
    ensures forall i :: 0 <= i < |r| ==> r[i].field == field
  {
    if fails then [FieldIssue(field, message)] else []
  }

  /** `bookingFormSchema`: a minimum length per field, and an e-mail check
      (`isEmail`, the validator's own address rule) on `guestEmail`. The issues
      come in field order. */
  function FormIssues(form: BookingForm, isEmail: string -> bool): seq<FieldIssue> {
    Rule(|form.guestName| < 2, "guestName", "Name must be at least 2 characters")
    + Rule(!isEmail(form.guestEmail), "guestEmail", "Please enter a valid email")
    + Rule(|form.guestPhone| < 10, "guestPhone", "Please enter a valid phone number")
    + Rule(|form.checkIn| < 1, "checkIn", "Check-in date is required")
    + Rule(|form.checkOut| < 1, "checkOut", "Check-out date is required")
    + Rule(|form.guests| < 1, "guests", "Number of guests is required")
  }

  /** Some issue of the list is reported under `field`. */
  predicate Reports(issues: seq<FieldIssue>, field: string) {
    exists i :: 0 <= i < |issues| && issues[i].field == field
  }

  predicate FieldFails(form: BookingForm, isEmail: string -> bool, field: string) {
    Reports(FormIssues(form, isEmail), field)
  }

  lemma ReportsConcat(a: seq<FieldIssue>, b: seq<FieldIssue>, field: string)
    ensures Reports(a + b, field) <==> Reports(a, field) || Reports(b, field)
  {
    if Reports(a + b, field) {
      var i :| 0 <= i < |a + b| && (a + b)[i].field == field;
      if i < |a| {
        assert a[i].field == field;
      } else {
        assert b[i - |a|].field == field;
      }
    }
    if Reports(a, field) {
      var i :| 0 <= i < |a| && a[i].field == field;
      assert (a + b)[i].field == field;
    }
    if Reports(b, field) {
      var i :| 0 <= i < |b| && b[i].field == field;
      assert (a + b)[|a| + i].field == field;
    }
  }

  lemma ReportsRule(fails: bool, field: string, message: string, f: string)
    ensures Reports(Rule(fails, field, message), f) <==> fails && field == f
  {
    if fails && field == f {
      assert Rule(fails, field, message)[0].field == f;
    }
  }

  /** A field is reported exactly when one of the rules on it fails. */
  lemma FieldFailsIff(form: BookingForm, isEmail: string -> bool, field: string)
    ensures FieldFails(form, isEmail, field) <==>
      || (field == "guestName" && |form.guestName| < 2)
      || (field == "guestEmail" && !isEmail(form.guestEmail))
      || (field == "guestPhone" && |form.guestPhone| < 10)
      || (field == "checkIn" && form.checkIn == [])
      || (field == "checkOut" && form.checkOut == [])
      || (field == "guests" && form.guests == [])
  {
    var r1 := Rule(|form.guestName| < 2, "guestName", "Name must be at least 2 characters");
    var r2 := Rule(!isEmail(form.guestEmail), "guestEmail", "Please enter a valid email");
    var r3 := Rule(|form.guestPhone| < 10, "guestPhone", "Please enter a valid phone number");
    var r4 := Rule(|form.checkIn| < 1, "checkIn", "Check-in date is required");
    var r5 := Rule(|form.checkOut| < 1, "checkOut", "Check-out date is required");
    var r6 := Rule(|form.guests| < 1, "guests", "Number of guests is required");
    ReportsConcat(r1 + r2 + r3 + r4 + r5, r6, field);
    ReportsConcat(r1 + r2 + r3 + r4, r5, field);
    ReportsConcat(r1 + r2 + r3, r4, field);
    ReportsConcat(r1 + r2, r3, field);
    ReportsConcat(r1, r2, field);
    ReportsRule(|form.guestName| < 2, "guestName", "Name must be at least 2 characters", field);
    ReportsRule(!isEmail(form.guestEmail), "guestEmail", "Please enter a valid email", field);
    ReportsRule(|form.guestPhone| < 10, "guestPhone", "Please enter a valid phone number", field);
    ReportsRule(|form.checkIn| < 1, "checkIn", "Check-in date is required", field);
    ReportsRule(|form.checkOut| < 1, "checkOut", "Check-out date is required", field);
    ReportsRule(|form.guests| < 1, "guests", "Number of guests is required", field);
  }

  /** The form submits exactly when every rule holds, and each rule that fails
      is reported under its own field. */
  lemma FormRules(form: BookingForm, isEmail: string -> bool)
    ensures FormIssues(form, isEmail) == [] <==>
      && |form.guestName| >= 2
      && isEmail(form.guestEmail)
      && |form.guestPhone| >= 10
      && form.checkIn != [] && form.checkOut != [] && form.guests != []
    ensures FieldFails(form, isEmail, "guestName") <==> |form.guestName| < 2
    ensures FieldFails(form, isEmail, "guestPhone") <==> |form.guestPhone| < 10
    ensures FieldFails(form, isEmail, "guestEmail") <==> !isEmail(form.guestEmail)
    ensures FieldFails(form, isEmail, "checkIn") <==> form.checkIn == []
    ensures FieldFails(form, isEmail, "checkOut") <==> form.checkOut == []
    ensures FieldFails(form, isEmail, "guests") <==> form.guests == []
  {
    FieldFailsIff(form, isEmail, "guestName");
    FieldFailsIff(form, isEmail, "guestPhone");
    FieldFailsIff(form, isEmail, "guestEmail");
    FieldFailsIff(form, isEmail, "checkIn");
    FieldFailsIff(form, isEmail, "checkOut");
    FieldFailsIff(form, isEmail, "guests");
  }

  /** The untouched form cannot be submitted: the name is empty. */
  lemma DefaultFormRejected(isEmail: string -> bool)
    ensures FieldFails(DefaultForm, isEmail, "guestName")
  {
    FormRules(DefaultForm, isEmail);
  }

  predicate IsDigit(c: char) {
    '0' <= c <= '9'
  }

  predicate IsSpace(c: char) {
    c == ' ' || c == '\t' || c == '\n' || c == '\r' || c == '\U{000B}' || c == '\U{000C}'
  }

  /** `s` without its leading blanks. */
  function TrimStart(s: string): (r: string)
    ensures |r| <= |s|
    ensures r == [] || !IsSpace(r[0])
  {
    if s != [] && IsSpace(s[0]) then TrimStart(s[1..]) else s
  }

  /** What `TrimStart` drops is a run of blanks, and what it keeps is the rest of `s`. */
  lemma {:induction false} TrimStartDropsBlanks(s: string)
    ensures TrimStart(s) == s[|s| - |TrimStart(s)|..]
    ensures forall i :: 0 <= i < |s| - |TrimStart(s)| ==> IsSpace(s[i])
  {
    if s != [] && IsSpace(s[0]) {
      TrimStartDropsBlanks(s[1..]);
      forall i | 0 <= i < |s| - |TrimStart(s)|
        ensures IsSpace(s[i])
      {
        if i > 0 {
          assert s[i] == s[1..][i - 1];
        }
      }
    }
  }

  /** The longest prefix of `s` made of decimal digits. */
  function DigitPrefix(s: string): (ds: string)
    ensures ds <= s
    ensures forall i :: 0 <= i < |ds| ==> IsDigit(ds[i])
    ensures |ds| == |s| || !IsDigit(s[|ds|])
  {
    if s != [] && IsDigit(s[0]) then [s[0]] + DigitPrefix(s[1..]) else []
  }

  function DigitsValue(ds: string): nat
    requires forall i :: 0 <= i < |ds| ==> IsDigit(ds[i])
  {
    if ds == [] then 0
    else
      assert IsDigit(ds[|ds| - 1]);
      DigitsValue(ds[..|ds| - 1]) * 10 + (ds[|ds| - 1] as int - '0' as int)
  }

  /** `parseInt(s)` in base 10: leading blanks, an optional sign, then as many
      digits as follow; `None` stands for `NaN` when there is no digit. */
  function ParseInt(s: string): Option<int> {
    var t := TrimStart(s);
    var negative := t != [] && t[0] == '-';
    var u := if t != [] && (t[0] == '-' || t[0] == '+') then t[1..] else t;
    var ds := DigitPrefix(u);
    if ds == [] then None
    else
      var v: int := DigitsValue(ds);
      Some(if negative then -v else v)
  }

  /** The decimal spelling of a natural number, as the guest selector's values are written. */
  function Decimal(n: nat): (s: string)
    ensures s != [] && forall i :: 0 <= i < |s| ==> IsDigit(s[i])
  {
    if n < 10 then [('0' as int + n) as char]
    else Decimal(n / 10) + [('0' as int + n % 10) as char]
  }

  lemma {:induction false} DecimalValue(n: nat)
    ensures DigitsValue(Decimal(n)) == n
  {
    if n >= 10 {
      DecimalValue(n / 10);
      var s := Decimal(n);
      assert s[..|s| - 1] == Decimal(n / 10);
    }
  }

  lemma {:induction false} DigitPrefixOfDigits(s: string)
    requires forall i :: 0 <= i < |s| ==> IsDigit(s[i])
    ensures DigitPrefix(s) == s
  {
    if s != [] {
      DigitPrefixOfDigits(s[1..]);
    }
  }

  /** A non-empty string of digits, with no blank or sign, reads as its digits' value. */
  lemma ParseIntDigits(s: string)
    requires s != [] && forall i :: 0 <= i < |s| ==> IsDigit(s[i])
    ensures ParseInt(s) == Some(DigitsValue(s))
  {
    assert IsDigit(s[0]);
    DigitPrefixOfDigits(s);
    ParseIntUnsigned(s);
  }

  lemma ParseIntUnsigned(s: string)
    requires s != [] && IsDigit(s[0]) && DigitPrefix(s) == s
    ensures ParseInt(s) == Some(DigitsValue(s))
  {
    assert TrimStart(s) == s;
  }

  /** `parseInt` reads back any natural number written in decimal. */
  lemma ParseIntDecimal(n: nat)
    ensures ParseInt(Decimal(n)) == Some(n)
  {
    ParseIntDigits(Decimal(n));
    DecimalValue(n);
  }

  /** The guest selector's values "1" to "4" give 1 to 4 guests. */
  lemma GuestOptionsParse()
    ensures ParseInt("1") == Some(1) && ParseInt("2") == Some(2)
    ensures ParseInt("3") == Some(3) && ParseInt("4") == Some(4)
  {
    assert Decimal(1) == "1";
    ParseIntDecimal(1);
    assert Decimal(2) == "2";
    ParseIntDecimal(2);
    assert Decimal(3) == "3";
    ParseIntDecimal(3);
    assert Decimal(4) == "4";
    ParseIntDecimal(4);
  }

  /** Why a valid form can still post nothing. */
  datatype SubmitError =
    | RoomNotFound         // `throw new Error("Room not found")`: the room never loaded
    | GuestsNotANumber     // `parseInt` gave NaN; the server rejects that body with 400

  /** `bookingData`: one night at the room's price, confirmed on creation. */
  function BookingPayload(room: Option<Room>, data: BookingForm): (r: Result<InsertRoomBooking, SubmitError>)
    ensures room.None? ==> r == Failure(RoomNotFound)
    ensures room.Some? && ParseInt(data.guests).None? ==> r == Failure(GuestsNotANumber)
    ensures room.Some? && ParseInt(data.guests).Some? ==>
      && r.Success?
      && r.value.roomId == room.value.id
      && r.value.totalAmount == room.value.price
      && r.value.status == Some("confirmed")
      && r.value.guests == ParseInt(data.guests).value
      && r.value.guestName == data.guestName && r.value.guestEmail == data.guestEmail
      && r.value.guestPhone == data.guestPhone
      && r.value.checkIn == data.checkIn && r.value.checkOut == data.checkOut
  {
    match room
    case None => Failure(RoomNotFound)
    case Some(rm) =>
      match ParseInt(data.guests)
      case None => Failure(GuestsNotANumber)
      case Some(g) =>
        Success(InsertRoomBooking(rm.id, data.guestName, data.guestEmail, data.guestPhone,
                                  data.checkIn, data.checkOut, g, rm.price, Some("confirmed")))
  }
}
