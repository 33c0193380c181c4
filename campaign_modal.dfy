/** The add/edit campaign modal: its form state, the numbers it offers and
    the campaign it submits. */
module CampaignModal {
  import opened Js
  import opened Records
  import opened Collections

  /** The modal's `form` state. `clientId` is whatever the select or the
      edited campaign supplied, so it need not be a string. */
  datatype CampaignForm = CampaignForm(name: string, clientId: JsValue, callNumber: string)

  const EmptyForm := CampaignForm("", Str(""), "")

  /** The form the effect installs for the modal's `campaignData`. */
  function FormFor(campaignData: Option<Campaign>): (f: CampaignForm)
    ensures campaignData.None? ==> f == EmptyForm
    ensures campaignData.Some? ==> (f.name == campaignData.value.name
                                    && f.callNumber == campaignData.value.callNumber)
    ensures Truthy(f.clientId) <==> campaignData.Some? && Truthy(campaignData.value.clientId)
    ensures Truthy(f.clientId) ==> f.clientId == campaignData.value.clientId
    ensures !Truthy(f.clientId) ==> f.clientId == Str("")
  {
    match campaignData
    case None => EmptyForm
    case Some(c) => CampaignForm(c.name, Or(c.clientId, Str("")), c.callNumber)
  }

  /** The campaign `handleSubmit` passes to `onSave`. */
  function Payload(campaignData: Option<Campaign>, form: CampaignForm, now: int): (r: Campaign)
    ensures r.name == form.name && r.clientId == form.clientId && r.callNumber == form.callNumber
    ensures campaignData.Some? && Truthy(campaignData.value.id) ==> r.id == campaignData.value.id
    ensures campaignData.None? || !Truthy(campaignData.value.id) ==> r.id == Num(now)
  {
    var existing := if campaignData.Some? then campaignData.value.id else Undefined;
    Campaign(Or(existing, Num(now)), form.name, form.clientId, form.callNumber)
  }

  /** Submitting an untouched edit form gives back the edited campaign exactly
      when its id is kept and its `clientId` survives the `|| ''` default. */
  lemma UntouchedEditRoundTrip(c: Campaign, now: int)
    ensures Payload(Some(c), FormFor(Some(c)), now) == c
            <==> (Truthy(c.id) || c.id == Num(now)) && (Truthy(c.clientId) || c.clientId == Str(""))
  {
  }

  /** Whether a number may be picked for a campaign of client `formClientId`:
      unassigned, or assigned to a client whose id has the same string form. */
  predicate Offered(n: CallNumber, formClientId: JsValue)
    ensures !Truthy(n.clientId) ==> Offered(n, formClientId)
    ensures n.clientId == formClientId ==> Offered(n, formClientId)
    ensures Truthy(n.clientId) && formClientId == Str("") ==> !Offered(n, formClientId)
  {
    !Truthy(n.clientId) || ToString(n.clientId) == ToString(formClientId)
  }

  /** `availableNumbers` */
  function AvailableNumbers(numbers: seq<CallNumber>, formClientId: JsValue): (r: seq<CallNumber>)
    ensures IsSubsequence(r, numbers)
    ensures forall n :: n in r <==> n in numbers && Offered(n, formClientId)
    ensures forall n :: n in numbers && !Truthy(n.clientId) ==> n in r
    ensures forall n :: multiset(r)[n] == if Offered(n, formClientId) then multiset(numbers)[n] else 0
  {
    Filter(numbers, n => Offered(n, formClientId))
  }

  /** No truthy value has the empty string as its string form. */
  lemma TruthyToStringNonEmpty(v: JsValue)
    requires Truthy(v)
    ensures ToString(v) != ""
  {
  }

  /** With the "Unassigned" option selected, exactly the unassigned numbers are offered. */
  lemma UnassignedOffersFreeNumbers(numbers: seq<CallNumber>)
    ensures forall n :: n in AvailableNumbers(numbers, Str("")) <==> n in numbers && !Truthy(n.clientId)
  {
    forall n | n in numbers && Truthy(n.clientId)
      ensures n !in AvailableNumbers(numbers, Str(""))
    {
      TruthyToStringNonEmpty(n.clientId);
    }
  }

  /** The value of a client's option in the client select. */
  function ClientOptionValue(c: Client): (v: JsValue)
    ensures Truthy(c.clientId) ==> v == c.clientId
    ensures !Truthy(c.clientId) ==> v == c.id
  {
    Or(c.clientId, c.id)
  }

  /** Choosing client `c` in the select (which stores the option's value as a
      string) offers every number assigned to `c` under either id spelling. */
  lemma ChosenClientNumbersOffered(numbers: seq<CallNumber>, c: Client)
    ensures forall n :: n in numbers && ToString(n.clientId) == ToString(ClientOptionValue(c))
                        ==> n in AvailableNumbers(numbers, Str(ToString(ClientOptionValue(c))))
  {
  }

  /** The modal component: its props `isOpen` and `campaignData`, and `form`. */
  class Modal {
    var isOpen: bool
    var campaignData: Option<Campaign>
    var form: CampaignForm

    /** Mounting: `form` starts empty and the effect installs the form for the props. */
    constructor(isOpen: bool, campaignData: Option<Campaign>)
      ensures this.isOpen == isOpen && this.campaignData == campaignData
      ensures form == FormFor(campaignData)
    {
      this.isOpen := isOpen;
      this.campaignData := campaignData;
      form := FormFor(campaignData);
    }

    /** New props from the parent; the effect re-runs when either changed. */
    method Receive(isOpen: bool, campaignData: Option<Campaign>)
      modifies this
      ensures this.isOpen == isOpen && this.campaignData == campaignData
      ensures old(this.isOpen) != isOpen || old(this.campaignData) != campaignData
              ==> form == FormFor(campaignData)
      ensures old(this.isOpen) == isOpen && old(this.campaignData) == campaignData
              ==> form == old(form)
    {
      if isOpen != this.isOpen || campaignData != this.campaignData {
        form := FormFor(campaignData);
      }
      this.isOpen := isOpen;
      this.campaignData := campaignData;
    }

    method ChangeName(value: string)
      modifies this
      ensures form == old(form).(name := value)
      ensures isOpen == old(isOpen) && campaignData == old(campaignData)
    {
      form := form.(name := value);
    }

    /** The client select: its value is "" or an option value, as a string. */
    method ChangeClient(value: string)
      modifies this
      ensures form == old(form).(clientId := Str(value))
      ensures isOpen == old(isOpen) && campaignData == old(campaignData)
    {
      form := form.(clientId := Str(value));
    }

    method ChangeCallNumber(value: string)
      modifies this
      ensures form == old(form).(callNumber := value)
      ensures isOpen == old(isOpen) && campaignData == old(campaignData)
    {
      form := form.(callNumber := value);
    }

    /** Submitting: a closed modal renders nothing and cannot submit. */
    method Submit(now: int) returns (saved: Option<Campaign>)
      ensures isOpen ==> saved == Some(Payload(campaignData, form, now))
      ensures !isOpen ==> saved.None?
    {
      if isOpen {
        saved := Some(Payload(campaignData, form, now));
      } else {
        saved := None;
      }
    }
  }
}
