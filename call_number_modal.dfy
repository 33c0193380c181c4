/** The add/edit call-number modal: its form state and the number it submits,
    whose `clientId` string becomes an integer or null. */
module CallNumberModal {
  import opened Js
  import opened Records

  /** The modal's `form` state. */
  datatype NumberForm = NumberForm(number: string, clientId: JsValue)

  const EmptyForm := NumberForm("", Str(""))

  /** The form the effect installs for the modal's `numberData`. */
  function FormFor(numberData: Option<CallNumber>): (f: NumberForm)
    ensures numberData.None? ==> f == EmptyForm
    ensures numberData.Some? ==> f.number == numberData.value.number
    ensures Truthy(f.clientId) <==> numberData.Some? && Truthy(numberData.value.clientId)
    ensures Truthy(f.clientId) ==> f.clientId == numberData.value.clientId
    ensures !Truthy(f.clientId) ==> f.clientId == Str("")
  {
    match numberData
    case None => EmptyForm
    case Some(n) => NumberForm(n.number, Or(n.clientId, Str("")))
  }

  /** `form.clientId ? parseInt(form.clientId, 10) : null` */
  function SubmittedClientId(formClientId: JsValue): (r: JsValue)
    ensures r.Null? <==> !Truthy(formClientId)
    ensures r.Null? || r.Num? || r.NaN?
  {
    if Truthy(formClientId) then ParseInt(ToString(formClientId)) else Null
  }

  /** The client select yields a non-empty string of digits when the chosen
      client's id is numeric: that string becomes its base-10 value. */
  lemma DigitClientIdParses(s: string)
    requires s != [] && AllDigits(s)
    ensures SubmittedClientId(Str(s)) == Num(DigitsValue(s))
  {
    ParseDigitString(s);
  }

  /** A non-zero integer client id survives the form unchanged. */
  lemma NumericClientIdKept(n: int)
    requires n != 0
    ensures SubmittedClientId(Num(n)) == Num(n)
  {
    ParseIntOfIntToString(n);
  }

  /** A non-zero integer id chosen in the select, which hands it over as its
      string form, comes back as the same number. */
  lemma SelectedNumericClientIdKept(n: int)
    requires n != 0
    ensures SubmittedClientId(Str(ToString(Num(n)))) == Num(n)
  {
    ParseIntOfIntToString(n);
  }

  /** A client id that starts with digits and goes on with other text becomes
      the value of its leading digits: `parseInt("12abc", 10)` is 12. */
  lemma DigitPrefixClientIdParses(d: string, rest: string)
    requires d != [] && AllDigits(d)
    requires rest == [] || !IsDigit(rest[0])
    ensures SubmittedClientId(Str(d + rest)) == Num(DigitsValue(d))
  {
    ParseDigitPrefix(d, rest);
  }

  /** A client id that does not start with a sign, digit or whitespace becomes NaN. */
  lemma NonNumericClientIdIsNaN(s: string)
    requires s != [] && !IsWhitespace(s[0]) && !IsDigit(s[0]) && s[0] != '-' && s[0] != '+'
    ensures SubmittedClientId(Str(s)) == NaN
  {
    ParseIntNonNumeric(s);
  }

  /** The number `handleSubmit` passes to `onSave`. */
  function Payload(numberData: Option<CallNumber>, form: NumberForm, now: int): (r: CallNumber)
    ensures r.number == form.number
    ensures r.clientId == SubmittedClientId(form.clientId)
    ensures numberData.Some? && Truthy(numberData.value.id) ==> r.id == numberData.value.id
    ensures numberData.None? || !Truthy(numberData.value.id) ==> r.id == Num(now)
  {
    var existing := if numberData.Some? then numberData.value.id else Undefined;
    CallNumber(Or(existing, Num(now)), form.number, SubmittedClientId(form.clientId))
  }

  /** Submitting an untouched edit form gives back the edited number exactly
      when its id is kept and its client id is null or a non-zero integer. */
  lemma UntouchedEditRoundTrip(n: CallNumber, now: int)
    ensures Payload(Some(n), FormFor(Some(n)), now) == n
            <==> (Truthy(n.id) || n.id == Num(now)) && (n.clientId == Null || (n.clientId.Num? && n.clientId.n != 0))
  {
    if n.clientId.Num? && n.clientId.n != 0 {
      NumericClientIdKept(n.clientId.n);
    }
  }

  /** The modal component: its props `isOpen` and `numberData`, and `form`. */
  class Modal {
    var isOpen: bool
    var numberData: Option<CallNumber>
    var form: NumberForm

    /** Mounting: the effect installs the form for the props. */
    constructor(isOpen: bool, numberData: Option<CallNumber>)
      ensures this.isOpen == isOpen && this.numberData == numberData
      ensures form == FormFor(numberData)
    {
      this.isOpen := isOpen;
      this.numberData := numberData;
      form := FormFor(numberData);
    }

    /** New props from the parent; the effect re-runs when either changed. */
    method Receive(isOpen: bool, numberData: Option<CallNumber>)
      modifies this
      ensures this.isOpen == isOpen && this.numberData == numberData
      ensures old(this.isOpen) != isOpen || old(this.numberData) != numberData
              ==> form == FormFor(numberData)
      ensures old(this.isOpen) == isOpen && old(this.numberData) == numberData
              ==> form == old(form)
    {
      if isOpen != this.isOpen || numberData != this.numberData {
        form := FormFor(numberData);
      }
      this.isOpen := isOpen;
      this.numberData := numberData;
    }

    method ChangeNumber(value: string)
      modifies this
      ensures form == old(form).(number := value)
      ensures isOpen == old(isOpen) && numberData == old(numberData)
    {
      form := form.(number := value);
    }

    /** The client select: "" or the chosen client's `id`, as a string. */
    method ChangeClient(value: string)
      modifies this
      ensures form == old(form).(clientId := Str(value))
      ensures isOpen == old(isOpen) && numberData == old(numberData)
    {
      form := form.(clientId := Str(value));
    }

    /** Submitting: a closed modal renders nothing and cannot submit. */
    method Submit(now: int) returns (saved: Option<CallNumber>)
      ensures isOpen ==> saved == Some(Payload(numberData, form, now))
      ensures !isOpen ==> saved.None?
    {
      if isOpen {
        saved := Some(Payload(numberData, form, now));
      } else {
        saved := None;
      }
    }
  }
}
