/** The records the dashboard components pass between each other. Text
    fields are plain strings (and counts integers). Where the code reads a
    field through `|| ''` (or `|| 0`), "" (0) stands for an absent property.
    Some fields are read without a default, such as a lead's `phoneNumber`
    in the lead search. For those the model assumes the property is present
    and is a string. Ids and client ids stay JavaScript values, because they
    are compared with `===`, turned into strings and parsed. */
module Records {
  import opened Js

  /** A member row of the client form page: `{firstName, lastName, phone, email}`. */
  datatype PageMember = PageMember(firstName: string, lastName: string, phone: string, email: string)

  /** A client as the master data lists it and as the edit form receives it. */
  datatype Client = Client(
    id: JsValue,
    clientId: JsValue,
    companyName: string,
    contactFullName: string,
    clientName: string,
    contactEmail: string,
    contactPhone: string,
    contactPerson: string,
    status: string,
    leads: int,
    numbers: Option<seq<JsValue>>,
    campaigns: Option<seq<JsValue>>,
    members: Option<seq<PageMember>>)

  /** A call-tracking number `{id, number, clientId}`. */
  datatype CallNumber = CallNumber(id: JsValue, number: string, clientId: JsValue)

  /** A campaign `{id, name, clientId, callNumber}`. */
  datatype Campaign = Campaign(id: JsValue, name: string, clientId: JsValue, callNumber: string)

  /** A lead. `clientName` and `campaign` are the fields enrichment adds; a
      lead saved from the edit modal carries them back into the lead list. */
  datatype Lead = Lead(
    id: JsValue,
    phoneNumber: string,
    clientId: JsValue,
    campaignId: JsValue,
    disposition: string,
    clientName: string,
    campaign: string)

  function NumberId(n: CallNumber): JsValue { n.id }
  function CampaignId(c: Campaign): JsValue { c.id }
  function LeadId(l: Lead): JsValue { l.id }
}
