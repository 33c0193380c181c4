/** The create/edit client page of the master dashboard: the form values,
    how an edited client is loaded into them, which number and campaign
    checkboxes are locked, and the payload handed to `onSave`. */
module ClientFormPage {
  import opened Js
  import opened Records

  /** The values of the form: its text inputs, the checked number and
      campaign ids, and the member rows. */
  datatype FormValues = FormValues(
    clientName: string,
    companyName: string,
    contactEmail: string,
    contactPhone: string,
    contactPerson: string,
    numbers: seq<JsValue>,
    campaigns: seq<JsValue>,
    members: seq<PageMember>)

  /** The form's `defaultValues`. */
  const DefaultValues := FormValues("", "", "", "", "", [], [], [])

  /** The row "Add Member" appends. */
  const EmptyMember := PageMember("", "", "", "")

  /** `{ id, status, leads, ...data }`. The form has no field named `id`,
      `status` or `leads`, so the spread adds the form values beside them. */
  datatype ClientPayload = ClientPayload(id: JsValue, status: string, leads: int, data: FormValues)

  /** `client.contactFullName || client.clientName || ''` */
  function ContactName(c: Client): (r: string)
    ensures c.contactFullName != "" ==> r == c.contactFullName
    ensures c.contactFullName == "" ==> r == c.clientName
    ensures r == "" <==> c.contactFullName == "" && c.clientName == ""
  {
    if c.contactFullName != "" then c.contactFullName else c.clientName
  }

  /** `client?.id`: undefined when the page creates a client. */
  function EditedId(client: Option<Client>): (r: JsValue)
    ensures client.None? ==> !Truthy(r)
    ensures client.Some? ==> r == client.value.id
  {
    if client.Some? then client.value.id else Undefined
  }

  /** The payload `onSubmit` hands to `onSave`. */
  function SubmitPayload(client: Option<Client>, data: FormValues, now: int): (p: ClientPayload)
    ensures p.data == data
    ensures client.Some? && Truthy(client.value.id) ==> p.id == client.value.id
    ensures client.None? || !Truthy(client.value.id) ==> p.id == Num(now)
    ensures client.Some? && client.value.status != "" ==> p.status == client.value.status
    ensures client.None? || client.value.status == "" ==> p.status == "Active"
    ensures client.Some? && client.value.leads != 0 ==> p.leads == client.value.leads
    ensures client.None? || client.value.leads == 0 ==> p.leads == 0
  {
    var status := if client.Some? && client.value.status != "" then client.value.status else "Active";
    var leads := if client.Some? then client.value.leads else 0;
    ClientPayload(Or(EditedId(client), Num(now)), status, leads, data)
  }

  /** A new client's payload gets the fresh id, status "Active" and no leads;
      an edited client keeps its id, status and leads whenever they are set. */
  lemma PayloadDefaults(client: Option<Client>, data: FormValues, now: int)
    ensures client.None? ==> SubmitPayload(client, data, now) == ClientPayload(Num(now), "Active", 0, data)
    ensures client.Some? && Truthy(client.value.id) && client.value.status != ""
            ==> SubmitPayload(client, data, now)
                == ClientPayload(client.value.id, client.value.status, client.value.leads, data)
  {
  }

  /** `x.clientId && x.clientId !== client?.id`: the number or campaign
      belongs to some client other than the one being edited. */
  predicate AssignedElsewhere(itemClientId: JsValue, client: Option<Client>)
    ensures AssignedElsewhere(itemClientId, client) ==> Truthy(itemClientId)
    ensures client.None? ==> (AssignedElsewhere(itemClientId, client) <==> Truthy(itemClientId))
    ensures client.Some? && itemClientId == client.value.id ==> !AssignedElsewhere(itemClientId, client)
  {
    Truthy(itemClientId) && !StrictEquals(itemClientId, EditedId(client))
  }

  /** A rendered checkbox: its value, whether it is disabled, and its text. */
  datatype Checkbox = Checkbox(value: JsValue, disabled: bool, text: string)

  /** The checkbox of a call number. */
  function NumberCheckbox(num: CallNumber, client: Option<Client>): (b: Checkbox)
    ensures b.value == num.id
    ensures b.disabled <==> AssignedElsewhere(num.clientId, client)
    ensures b.disabled <==> b.text == num.number + " (assigned)"
    ensures !b.disabled <==> b.text == num.number
  {
    var disabled := Truthy(num.clientId) && !StrictEquals(num.clientId, EditedId(client));
    var suffix := if Truthy(num.clientId) && !StrictEquals(num.clientId, EditedId(client)) then " (assigned)" else "";
    assert |num.number + " (assigned)"| != |num.number|;
    Checkbox(num.id, disabled, num.number + suffix)
  }

  /** The checkbox of a campaign. */
  function CampaignCheckbox(c: Campaign, client: Option<Client>): (b: Checkbox)
    ensures b.value == c.id
    ensures b.disabled <==> AssignedElsewhere(c.clientId, client)
    ensures b.disabled <==> b.text == c.name + " (assigned)"
    ensures !b.disabled <==> b.text == c.name
  {
    var disabled := Truthy(c.clientId) && !StrictEquals(c.clientId, EditedId(client));
    var suffix := if Truthy(c.clientId) && !StrictEquals(c.clientId, EditedId(client)) then " (assigned)" else "";
    assert |c.name + " (assigned)"| != |c.name|;
    Checkbox(c.id, disabled, c.name + suffix)
  }

  /** When creating a client, every assigned number is locked; when editing,
      the client's own numbers and unassigned ones stay selectable. */
  lemma LockedNumbers(num: CallNumber, client: Option<Client>)
    ensures client.None? ==> (NumberCheckbox(num, client).disabled <==> Truthy(num.clientId))
    ensures !Truthy(num.clientId) ==> !NumberCheckbox(num, client).disabled
    ensures client.Some? && StrictEquals(num.clientId, client.value.id) ==> !NumberCheckbox(num, client).disabled
  {
  }

  /** The comparison is strict: a number whose client id is the integer form
      of the edited client's string id is locked as "(assigned)". */
  lemma StrictComparisonLocksOtherSpelling(num: CallNumber, c: Client)
    requires num.clientId == Num(12) && c.id == Str("12")
    ensures NumberCheckbox(num, Some(c)).disabled
  {
  }

  /** The page component: its `client` prop and the form values react-hook-form keeps. */
  class Page {
    const client: Option<Client>
    var values: FormValues

    constructor(client: Option<Client>)
      ensures this.client == client && values == DefaultValues
    {
      this.client := client;
      values := DefaultValues;
    }

    /** The loading effect: with a client, set the four text fields, then each
        of contact person, numbers, campaigns and members only when present. */
    method LoadClient()
      modifies this
      ensures client.None? ==> values == old(values)
      ensures client.Some? ==> values.clientName == ContactName(client.value)
      ensures client.Some? ==> values.companyName == client.value.companyName
      ensures client.Some? ==> values.contactEmail == client.value.contactEmail
      ensures client.Some? ==> values.contactPhone == client.value.contactPhone
      ensures client.Some? ==> values.contactPerson
                               == if client.value.contactPerson != "" then client.value.contactPerson
                                  else old(values).contactPerson
      ensures client.Some? ==> values.numbers
                               == if client.value.numbers.Some? then client.value.numbers.value
                                  else old(values).numbers
      ensures client.Some? ==> values.campaigns
                               == if client.value.campaigns.Some? then client.value.campaigns.value
                                  else old(values).campaigns
      ensures client.Some? ==> values.members
                               == if client.value.members.Some? then client.value.members.value
                                  else old(values).members
    {
      if client.Some? {
        var c := client.value;
        values := values.(clientName := ContactName(c));
        values := values.(companyName := c.companyName);
        values := values.(contactEmail := c.contactEmail);
        values := values.(contactPhone := c.contactPhone);
        if c.contactPerson != "" { values := values.(contactPerson := c.contactPerson); }
        if c.numbers.Some? { values := values.(numbers := c.numbers.value); }
        if c.campaigns.Some? { values := values.(campaigns := c.campaigns.value); }
        if c.members.Some? { values := values.(members := c.members.value); }
      }
    }

    /** "Add Member": append a row whose four fields are empty. */
    method AddMember()
      modifies this
      ensures values == old(values).(members := old(values).members + [EmptyMember])
    {
      values := values.(members := values.members + [EmptyMember]);
    }

    /** "Remove" on row `index`. */
    method RemoveMember(index: nat)
      requires index < |values.members|
      modifies this
      ensures values == old(values).(members := old(values).members[..index] + old(values).members[index + 1..])
    {
      values := values.(members := values.members[..index] + values.members[index + 1..]);
    }

    /** Submitting the form. */
    method Submit(now: int) returns (payload: ClientPayload)
      ensures payload == SubmitPayload(client, values, now)
    {
      payload := SubmitPayload(client, values, now);
    }
  }
}
