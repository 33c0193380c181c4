/** The master dashboard: the collections it holds, the handlers that update
    them after remote calls, the view it shows, the client names its tables
    look up, and the lead tab's enrichment and filtering. */
module MasterDashboard {
  import opened Js
  import opened Collections
  import opened Records
  import ClientFormPage
  import CampaignModal
  import CallNumberModal

  // ---------------------------------------------------------------------
  // Values the dashboard exchanges with the backend

  /** `res.data` of `getMasterData`; each list may be missing. */
  datatype MasterData = MasterData(
    clients: Option<seq<Client>>,
    callNumbers: Option<seq<CallNumber>>,
    campaigns: Option<seq<Campaign>>,
    leads: Option<seq<Lead>>)

  /** `res.data` of `getGlobalKpis`. */
  datatype Kpis = Kpis(totalCalls: JsValue, totalLeads: JsValue, activeClients: JsValue, systemHealth: JsValue)

  /** The arguments of `createCallNumber`. */
  datatype NumberRequest = NumberRequest(number: string, clientId: JsValue)

  /** The arguments of `createCampaign`. */
  datatype CampaignRequest = CampaignRequest(clientId: JsValue, name: string, callNumber: string)

  /** The JSON body posted to `createClient`. */
  datatype ClientRequest = ClientRequest(companyName: string, contactFullName: string, contactEmail: string)

  /** What `fetch` resolved with: `resp.ok`, `resp.status` and `await resp.text()`. */
  datatype HttpResponse = HttpResponse(ok: bool, status: int, text: string)

  datatype NoticeKind = Success | Error

  /** The banner `{ type, text }`. */
  datatype Notification = Notification(kind: NoticeKind, text: string)

  /** `x || []` */
  function OrEmpty<T>(xs: Option<seq<T>>): (r: seq<T>)
    ensures xs.Some? ==> r == xs.value
    ensures xs.None? ==> r == []
  {
    if xs.Some? then xs.value else []
  }

  /** The error banner of a failed handler: its prefix and the error's message. */
  function Failure(prefix: string, e: Thrown): (n: Notification)
    ensures n.kind == Error
    ensures e.message != "" ==> n.text == prefix + e.message
    ensures e.message == "" ==> n.text == prefix + e.asString
  {
    Notification(Error, prefix + ErrorMessage(e))
  }

  /** The message of the error thrown for a response that is not ok: the
      body text, or the status when the body is empty. */
  function RejectionMessage(resp: HttpResponse): (m: string)
    ensures m != ""
    ensures resp.text != "" ==> m == resp.text
    ensures resp.text == "" ==> m == "Request failed with status " + IntToString(resp.status)
  {
    if resp.text != "" then resp.text else "Request failed with status " + IntToString(resp.status)
  }

  /** The `Error` thrown for a rejected response, as the handler catches it. */
  function Rejection(resp: HttpResponse): (e: Thrown)
    ensures e.message != ""
    ensures ErrorMessage(e) == RejectionMessage(resp)
  {
    Thrown(RejectionMessage(resp), "Error: " + RejectionMessage(resp))
  }

  /** The banner of a rejected `createClient` carries the rejection message itself. */
  lemma RejectionBanner(resp: HttpResponse)
    ensures Failure("Failed to create client: ", Rejection(resp)).text
            == "Failed to create client: " + RejectionMessage(resp)
  {
  }

  // ---------------------------------------------------------------------
  // The view state machine

  /** The names `activeView` takes. */
  const Views: set<string> := {"overview", "clientForm", "clients", "numbers", "leads", "campaigns"}

  /** What `renderView` shows. */
  datatype Tab = OverviewTab | ClientFormTab | ClientManagementTab | CallNumberManagementTab
               | LeadManagementTab | CampaignManagementTab

  /** The view name whose case renders `t`. */
  function ViewName(t: Tab): string
  {
    match t
    case OverviewTab => "overview"
    case ClientFormTab => "clientForm"
    case ClientManagementTab => "clients"
    case CallNumberManagementTab => "numbers"
    case LeadManagementTab => "leads"
    case CampaignManagementTab => "campaigns"
  }

  /** `renderView`: each known view shows its own tab, and every other value
      falls back to client management. */
  function RenderView(view: string): (t: Tab)
    ensures view in Views ==> ViewName(t) == view
    ensures view !in Views ==> t == ClientManagementTab
    ensures t == ClientManagementTab <==> view == "clients" || view !in Views
  {
    match view
    case "overview" => OverviewTab
    case "clientForm" => ClientFormTab
    case "clients" => ClientManagementTab
    case "numbers" => CallNumberManagementTab
    case "leads" => LeadManagementTab
    case "campaigns" => CampaignManagementTab
    case _ => ClientManagementTab
  }

  /** Distinct known views show distinct tabs, and every tab is shown by its own view. */
  lemma RenderViewBijective(v: string, w: string, t: Tab)
    ensures v in Views && w in Views && RenderView(v) == RenderView(w) ==> v == w
    ensures ViewName(t) in Views && RenderView(ViewName(t)) == t
  {
  }

  // ---------------------------------------------------------------------
  // The campaign appended after `createCampaign`

  /** `{ id, ...campaign }` as written: the spread comes last, so the
      campaign's own `id` replaces the server's. */
  function AppendedCampaignAsWritten(serverId: JsValue, campaign: Campaign): (r: Campaign)
    ensures r.id == campaign.id
  {
    campaign
  }

  /** Every campaign the modal submits has an id of its own, so the record
      appended as written never carries the id the server returned. */
  lemma AppendedCampaignDropsServerId(form: CampaignModal.CampaignForm, now: int, serverId: JsValue)
    requires serverId != Num(now)
    ensures var submitted := CampaignModal.Payload(None, form, now);
            AppendedCampaignAsWritten(serverId, submitted).id != serverId
  {
  }

  /** `{ ...campaign, id }`: the submitted fields with the server's id. */
  function AppendedCampaign(serverId: JsValue, campaign: Campaign): (r: Campaign)
    ensures r.id == serverId
    ensures r.name == campaign.name && r.clientId == campaign.clientId && r.callNumber == campaign.callNumber
  {
    campaign.(id := serverId)
  }

  /** The corrected record keeps the server id whatever id the modal chose. */
  lemma AppendedCampaignKeepsServerId(form: CampaignModal.CampaignForm, now: int, serverId: JsValue)
    ensures var submitted := CampaignModal.Payload(None, form, now);
            AppendedCampaign(serverId, submitted) == Campaign(serverId, form.name, form.clientId, form.callNumber)
  {
  }

  // ---------------------------------------------------------------------
  // Client names in the campaign and number tables

  /** `String(cl.clientId || cl.id) === String(c.clientId)` */
  predicate CampaignOwnedBy(cl: Client, c: Campaign)
  {
    ToString(CampaignModal.ClientOptionValue(cl)) == ToString(c.clientId)
  }

  /** A campaign belongs to a client whose option value is its client id,
      either as stored or as the select's string. */
  lemma OptionValueOwnsCampaign(cl: Client, c: Campaign)
    ensures c.clientId == CampaignModal.ClientOptionValue(cl) ==> CampaignOwnedBy(cl, c)
    ensures c.clientId == Str(ToString(CampaignModal.ClientOptionValue(cl))) ==> CampaignOwnedBy(cl, c)
  {
  }

  /** The client column of the campaign table: the first owning client's
      company name, or "Unassigned" when there is none or it is blank. */
  function CampaignClientLabel(clients: seq<Client>, c: Campaign): (r: string)
    ensures (forall j :: 0 <= j < |clients| ==> !CampaignOwnedBy(clients[j], c)) ==> r == "Unassigned"
    ensures forall i :: 0 <= i < |clients| && CampaignOwnedBy(clients[i], c)
                        && (forall j :: 0 <= j < i ==> !CampaignOwnedBy(clients[j], c))
                        ==> r == (if clients[i].companyName != "" then clients[i].companyName else "Unassigned")
  {
    var owned := cl => CampaignOwnedBy(cl, c);
    match FindIndex(clients, owned)
    case None => "Unassigned"
    case Some(i) => if clients[i].companyName != "" then clients[i].companyName else "Unassigned"
  }

  /** A campaign whose client was chosen in the modal's select (which stores
      the option value as a string) is listed under that client, provided no
      earlier client has an option value with the same string form. */
  lemma ChosenClientLabelled(clients: seq<Client>, k: nat, c: Campaign)
    requires k < |clients| && clients[k].companyName != ""
    requires c.clientId == Str(ToString(CampaignModal.ClientOptionValue(clients[k])))
    requires forall j :: 0 <= j < k ==> ToString(CampaignModal.ClientOptionValue(clients[j]))
                                        != ToString(CampaignModal.ClientOptionValue(clients[k]))
    ensures CampaignClientLabel(clients, c) == clients[k].companyName
  {
    assert CampaignOwnedBy(clients[k], c);
  }

  /** When every client has a truthy option value, a campaign saved with the
      "Unassigned" option is labelled "Unassigned". */
  lemma UnassignedCampaignLabel(clients: seq<Client>, c: Campaign)
    requires c.clientId == Str("")
    requires forall j :: 0 <= j < |clients| ==> Truthy(CampaignModal.ClientOptionValue(clients[j]))
    ensures CampaignClientLabel(clients, c) == "Unassigned"
  {
    forall j | 0 <= j < |clients| ensures !CampaignOwnedBy(clients[j], c) {
      CampaignModal.TruthyToStringNonEmpty(CampaignModal.ClientOptionValue(clients[j]));
    }
  }

  /** `c.id === num.clientId` */
  predicate NumberOwnedBy(cl: Client, num: CallNumber)
    ensures NumberOwnedBy(cl, num) ==> cl.id == num.clientId && !num.clientId.NaN?
    ensures cl.id == num.clientId && !num.clientId.NaN? ==> NumberOwnedBy(cl, num)
  {
    StrictEquals(cl.id, num.clientId)
  }

  /** The client column of the number table: "Unassigned" for a falsy client
      id, otherwise the first owning client's company name, and nothing when
      no client owns it. */
  function NumberClientLabel(clients: seq<Client>, num: CallNumber): (r: string)
    ensures !Truthy(num.clientId) ==> r == "Unassigned"
    ensures Truthy(num.clientId) && (forall j :: 0 <= j < |clients| ==> !NumberOwnedBy(clients[j], num)) ==> r == ""
    ensures forall i :: Truthy(num.clientId) && 0 <= i < |clients| && NumberOwnedBy(clients[i], num)
                        && (forall j :: 0 <= j < i ==> !NumberOwnedBy(clients[j], num))
                        ==> r == clients[i].companyName
  {
    if !Truthy(num.clientId) then "Unassigned"
    else match FindIndex(clients, cl => NumberOwnedBy(cl, num))
      case None => ""
      case Some(i) => clients[i].companyName
  }

  /** A number assigned in the modal to a client with a non-zero integer id
      comes back under that client's name. */
  lemma NumericClientNumberLabelled(clients: seq<Client>, k: nat, id: JsValue, number: string)
    requires k < |clients| && clients[k].id.Num? && clients[k].id.n != 0
    requires forall j :: 0 <= j < k ==> clients[j].id != clients[k].id
    ensures var num := CallNumber(id, number, CallNumberModal.SubmittedClientId(Str(ToString(clients[k].id))));
            NumberClientLabel(clients, num) == clients[k].companyName
  {
    var n := clients[k].id.n;
    CallNumberModal.SelectedNumericClientIdKept(n);
    var num := CallNumber(id, number, Num(n));
    assert forall j :: 0 <= j < k ==> !NumberOwnedBy(clients[j], num);
    OwnerLabelsNumber(clients, k, num);
  }

  /** The first client owning a number with a truthy client id labels it. */
  lemma OwnerLabelsNumber(clients: seq<Client>, k: nat, num: CallNumber)
    requires k < |clients| && Truthy(num.clientId) && NumberOwnedBy(clients[k], num)
    requires forall j :: 0 <= j < k ==> !NumberOwnedBy(clients[j], num)
    ensures NumberClientLabel(clients, num) == clients[k].companyName
  {
  }

  /** A number assigned in the modal to a client whose id is a string not
      starting like a number is stored with a NaN client id. NaN is falsy, so
      the number is listed as "Unassigned" and stays on offer to campaigns of
      every client. */
  lemma StringClientNumberShownUnassigned(clients: seq<Client>, s: string, id: JsValue, number: string)
    requires s != [] && !IsWhitespace(s[0]) && !IsDigit(s[0]) && s[0] != '-' && s[0] != '+'
    ensures var num := CallNumber(id, number, CallNumberModal.SubmittedClientId(Str(s)));
            num.clientId == NaN && NumberClientLabel(clients, num) == "Unassigned"
            && forall f :: CampaignModal.Offered(num, f)
  {
    CallNumberModal.NonNumericClientIdIsNaN(s);
  }

  // ---------------------------------------------------------------------
  // The dashboard component

  /** A snapshot of every state variable of the dashboard. */
  datatype State = State(
    activeView: string,
    editingClient: Option<Client>,
    clients: seq<Client>,
    callNumbers: seq<CallNumber>,
    campaigns: seq<Campaign>,
    globalKpis: Option<Kpis>,
    dataLoading: bool,
    notification: Option<Notification>)

  class Dashboard {
    var activeView: string
    var editingClient: Option<Client>
    var clients: seq<Client>
    var callNumbers: seq<CallNumber>
    var campaigns: seq<Campaign>
    var globalKpis: Option<Kpis>
    var dataLoading: bool
    var notification: Option<Notification>

    function Snapshot(): State
      reads this
    {
      State(activeView, editingClient, clients, callNumbers, campaigns, globalKpis, dataLoading, notification)
    }

    /** The tab on screen once loading has finished. */
    function Shown(): (t: Tab)
      reads this
      ensures activeView in Views ==> ViewName(t) == activeView
    {
      RenderView(activeView)
    }

    /** The initial state: the client list, nothing loaded yet. */
    constructor()
      ensures Snapshot() == State("clients", None, [], [], [], None, true, None)
    {
      activeView := "clients";
      editingClient := None;
      clients, callNumbers, campaigns := [], [], [];
      globalKpis := None;
      dataLoading := true;
      notification := None;
    }

    /** The mount effect: the master data, then the KPIs (fetched only when
        the master data arrived); loading ends either way. */
    method LoadData(master: Result<MasterData>, kpis: Result<Kpis>)
      modifies this
      ensures master.Err? ==> Snapshot() == old(Snapshot()).(dataLoading := false)
      ensures master.Ok? && kpis.Err? ==>
                Snapshot() == old(Snapshot()).(clients := OrEmpty(master.value.clients),
                                               callNumbers := OrEmpty(master.value.callNumbers),
                                               campaigns := OrEmpty(master.value.campaigns),
                                               dataLoading := false)
      ensures master.Ok? && kpis.Ok? ==>
                Snapshot() == old(Snapshot()).(clients := OrEmpty(master.value.clients),
                                               callNumbers := OrEmpty(master.value.callNumbers),
                                               campaigns := OrEmpty(master.value.campaigns),
                                               globalKpis := Some(kpis.value),
                                               dataLoading := false)
    {
      if master.Ok? {
        clients := OrEmpty(master.value.clients);
        callNumbers := OrEmpty(master.value.callNumbers);
        campaigns := OrEmpty(master.value.campaigns);
        if kpis.Ok? {
          globalKpis := Some(kpis.value);
        }
      }
      dataLoading := false;
    }

    /** `addNumber`: on success append `{id, number, clientId}` with the id
        the server returned; on failure only the banner changes. */
    method AddNumber(number: string, clientId: JsValue, response: Result<JsValue>) returns (request: NumberRequest)
      modifies this
      ensures request == NumberRequest(number, clientId)
      ensures response.Ok? ==>
                Snapshot() == old(Snapshot()).(callNumbers := old(callNumbers) + [CallNumber(response.value, number, clientId)],
                                               notification := Some(Notification(Success, "Number created successfully.")))
      ensures response.Err? ==>
                Snapshot() == old(Snapshot()).(notification := Some(Failure("Failed to create number: ", response.error)))
    {
      request := NumberRequest(number, clientId);
      match response
      case Ok(id) =>
        callNumbers := callNumbers + [CallNumber(id, number, clientId)];
        notification := Some(Notification(Success, "Number created successfully."));
      case Err(e) =>
        notification := Some(Failure("Failed to create number: ", e));
    }

    /** `addCampaign`: on success append the submitted campaign under the id
        the server returned (see `AppendedCampaign`); on failure only the
        banner changes. */
    method AddCampaign(campaign: Campaign, response: Result<JsValue>) returns (request: CampaignRequest)
      modifies this
      ensures request == CampaignRequest(campaign.clientId, campaign.name, campaign.callNumber)
      ensures response.Ok? ==>
                Snapshot() == old(Snapshot()).(campaigns := old(campaigns) + [AppendedCampaign(response.value, campaign)],
                                               notification := Some(Notification(Success, "Campaign created successfully.")))
      ensures response.Err? ==>
                Snapshot() == old(Snapshot()).(notification := Some(Failure("Failed to create campaign: ", response.error)))
    {
      request := CampaignRequest(campaign.clientId, campaign.name, campaign.callNumber);
      match response
      case Ok(id) =>
        campaigns := campaigns + [AppendedCampaign(id, campaign)];
        notification := Some(Notification(Success, "Campaign created successfully."));
      case Err(e) =>
        notification := Some(Failure("Failed to create campaign: ", e));
    }

    /** `updateNumber`: every number with the updated one's id becomes it. */
    method UpdateNumber(updated: CallNumber)
      modifies this
      ensures Snapshot() == old(Snapshot()).(callNumbers := ReplaceById(old(callNumbers), NumberId, updated))
      ensures |callNumbers| == |old(callNumbers)|
      ensures forall i :: 0 <= i < |callNumbers| ==>
                callNumbers[i] == if StrictEquals(old(callNumbers)[i].id, updated.id) then updated else old(callNumbers)[i]
    {
      callNumbers := ReplaceById(callNumbers, NumberId, updated);
    }

    /** `deleteNumber`: keep, in order, the numbers whose id differs. */
    method DeleteNumber(id: JsValue)
      modifies this
      ensures Snapshot() == old(Snapshot()).(callNumbers := RemoveById(old(callNumbers), NumberId, id))
      ensures IsSubsequence(callNumbers, old(callNumbers))
      ensures forall n :: n in callNumbers <==> n in old(callNumbers) && !StrictEquals(n.id, id)
      ensures forall n: CallNumber :: !StrictEquals(n.id, id) ==> multiset(callNumbers)[n] == multiset(old(callNumbers))[n]
    {
      callNumbers := RemoveById(callNumbers, NumberId, id);
    }

    method OpenCreateForm()
      modifies this
      ensures Snapshot() == old(Snapshot()).(editingClient := None, activeView := "clientForm")
    {
      editingClient := None;
      activeView := "clientForm";
    }

    method OpenEditForm(client: Client)
      modifies this
      ensures Snapshot() == old(Snapshot()).(editingClient := Some(client), activeView := "clientForm")
    {
      editingClient := Some(client);
      activeView := "clientForm";
    }

    /** A navigation link or the form's cancel button. */
    method ShowView(view: string)
      modifies this
      ensures Snapshot() == old(Snapshot()).(activeView := view)
    {
      activeView := view;
    }

    /** `handleTestBigQuery`: only the banner changes. */
    method TestBigQuery(outcome: Result<JsValue>)
      modifies this
      ensures outcome.Ok? ==>
                Snapshot() == old(Snapshot()).(notification := Some(Notification(Success, "BigQuery connection successful.")))
      ensures outcome.Err? ==>
                Snapshot() == old(Snapshot()).(notification := Some(Failure("BigQuery test failed: ", outcome.error)))
    {
      if outcome.Ok? {
        notification := Some(Notification(Success, "BigQuery connection successful."));
      } else {
        notification := Some(Failure("BigQuery test failed: ", outcome.error));
      }
    }

    /** `handleSaveClient`. Saving an edit changes nothing but the view. A
        new client is posted (`request`); a response that is not ok is an
        error, otherwise the master data is fetched again (`reloaded`).
        Either way the view returns to the client list. */
    method SaveClient(data: ClientFormPage.ClientPayload, created: Result<HttpResponse>, reloaded: Result<MasterData>)
      returns (request: Option<ClientRequest>)
      modifies this
      ensures old(editingClient).Some? ==> request.None? && Snapshot() == old(Snapshot()).(activeView := "clients")
      ensures old(editingClient).None? ==>
                request == Some(ClientRequest(data.data.companyName, data.data.clientName, data.data.contactEmail))
      ensures old(editingClient).None? && created.Err? ==>
                Snapshot() == old(Snapshot()).(activeView := "clients",
                                               notification := Some(Failure("Failed to create client: ", created.error)))
      ensures old(editingClient).None? && created.Ok? && !created.value.ok ==>
                Snapshot() == old(Snapshot()).(activeView := "clients",
                                               notification := Some(Failure("Failed to create client: ", Rejection(created.value))))
      ensures old(editingClient).None? && created.Ok? && created.value.ok && reloaded.Err? ==>
                Snapshot() == old(Snapshot()).(activeView := "clients",
                                               notification := Some(Failure("Failed to create client: ", reloaded.error)))
      ensures old(editingClient).None? && created.Ok? && created.value.ok && reloaded.Ok? ==>
                Snapshot() == old(Snapshot()).(activeView := "clients",
                                               clients := OrEmpty(reloaded.value.clients),
                                               callNumbers := OrEmpty(reloaded.value.callNumbers),
                                               campaigns := OrEmpty(reloaded.value.campaigns),
                                               notification := Some(Notification(Success, "Client created successfully.")))
    {
      if editingClient.None? {
        request := Some(ClientRequest(data.data.companyName, data.data.clientName, data.data.contactEmail));
        if created.Err? {
          notification := Some(Failure("Failed to create client: ", created.error));
        } else if !created.value.ok {
          notification := Some(Failure("Failed to create client: ", Rejection(created.value)));
        } else if reloaded.Err? {
          notification := Some(Failure("Failed to create client: ", reloaded.error));
        } else {
          clients := OrEmpty(reloaded.value.clients);
          callNumbers := OrEmpty(reloaded.value.callNumbers);
          campaigns := OrEmpty(reloaded.value.campaigns);
          notification := Some(Notification(Success, "Client created successfully."));
        }
      } else {
        request := None;
      }
      activeView := "clients";
    }

    /** The banner's close button. */
    method DismissNotification()
      modifies this
      ensures Snapshot() == old(Snapshot()).(notification := None)
    {
      notification := None;
    }
  }

  // ---------------------------------------------------------------------
  // The call-number and campaign tabs

  /** `CallNumberManagementTab`: whether its modal is open and the number it edits. */
  class CallNumberTab {
    var isModalOpen: bool
    var editingNumber: Option<CallNumber>

    constructor()
      ensures !isModalOpen && editingNumber.None?
    {
      isModalOpen := false;
      editingNumber := None;
    }

    /** "Add Number". */
    method OpenAdd()
      modifies this
      ensures isModalOpen && editingNumber.None?
    {
      editingNumber := None;
      isModalOpen := true;
    }

    /** "Edit" on a row. */
    method OpenEdit(num: CallNumber)
      modifies this
      ensures isModalOpen && editingNumber == Some(num)
    {
      editingNumber := Some(num);
      isModalOpen := true;
    }

    /** The modal's cancel button. */
    method Close()
      modifies this
      ensures !isModalOpen && editingNumber.None?
    {
      isModalOpen := false;
      editingNumber := None;
    }

    /** `handleSave`: an edit replaces the number by id, otherwise the number
        is created; then the modal closes. `response` is the outcome of the
        create call, unused for an edit. */
    method HandleSave(num: CallNumber, dashboard: Dashboard, response: Result<JsValue>)
      modifies this, dashboard
      ensures !isModalOpen && editingNumber.None?
      ensures old(editingNumber).Some? ==>
                dashboard.Snapshot() == old(dashboard.Snapshot()).(callNumbers := ReplaceById(old(dashboard.callNumbers), NumberId, num))
      ensures old(editingNumber).None? && response.Ok? ==>
                dashboard.Snapshot() == old(dashboard.Snapshot()).(
                  callNumbers := old(dashboard.callNumbers) + [CallNumber(response.value, num.number, num.clientId)],
                  notification := Some(Notification(Success, "Number created successfully.")))
      ensures old(editingNumber).None? && response.Err? ==>
                dashboard.Snapshot() == old(dashboard.Snapshot()).(
                  notification := Some(Failure("Failed to create number: ", response.error)))
    {
      if editingNumber.Some? {
        dashboard.UpdateNumber(num);
      } else {
        var _ := dashboard.AddNumber(num.number, num.clientId, response);
      }
      isModalOpen := false;
      editingNumber := None;
    }
  }

  /** `CampaignManagementTab`: whether its modal is open. */
  class CampaignTab {
    var isModalOpen: bool

    constructor()
      ensures !isModalOpen
    {
      isModalOpen := false;
    }

    /** "Add Campaign". */
    method Open()
      modifies this
      ensures isModalOpen
    {
      isModalOpen := true;
    }

    method Close()
      modifies this
      ensures !isModalOpen
    {
      isModalOpen := false;
    }

    /** `handleSave`: create the campaign, then close the modal. */
    method HandleSave(campaign: Campaign, dashboard: Dashboard, response: Result<JsValue>)
      modifies this, dashboard
      ensures !isModalOpen
      ensures response.Ok? ==>
                dashboard.Snapshot() == old(dashboard.Snapshot()).(
                  campaigns := old(dashboard.campaigns) + [AppendedCampaign(response.value, campaign)],
                  notification := Some(Notification(Success, "Campaign created successfully.")))
      ensures response.Err? ==>
                dashboard.Snapshot() == old(dashboard.Snapshot()).(
                  notification := Some(Failure("Failed to create campaign: ", response.error)))
    {
      var _ := dashboard.AddCampaign(campaign, response);
      isModalOpen := false;
    }
  }

  // ---------------------------------------------------------------------
  // Lead enrichment and filtering

  /** `c.clientId === String(l.clientId)`: the lookup uses the client's
      `clientId` property, not its `id`. */
  predicate LeadOfClient(c: Client, l: Lead)
    ensures LeadOfClient(c, l) ==> c.clientId.Str?
    ensures LeadOfClient(c, l) <==> c.clientId == Str(ToString(l.clientId))
  {
    StrictEquals(c.clientId, Str(ToString(l.clientId)))
  }

  /** `c.id === l.campaignId` */
  predicate LeadOfCampaign(c: Campaign, l: Lead)
    ensures LeadOfCampaign(c, l) ==> c.id == l.campaignId && !c.id.NaN?
    ensures c.id == l.campaignId && !c.id.NaN? ==> LeadOfCampaign(c, l)
  {
    StrictEquals(c.id, l.campaignId)
  }

  /** The lead's client name: the first matching client's company name, or ''. */
  function LeadClientName(clients: seq<Client>, l: Lead): (r: string)
    ensures (forall j :: 0 <= j < |clients| ==> !LeadOfClient(clients[j], l)) ==> r == ""
    ensures forall i :: 0 <= i < |clients| && LeadOfClient(clients[i], l)
                        && (forall j :: 0 <= j < i ==> !LeadOfClient(clients[j], l))
                        ==> r == clients[i].companyName
  {
    match FindIndex(clients, c => LeadOfClient(c, l))
    case None => ""
    case Some(i) => clients[i].companyName
  }

  /** The lead's campaign name: the first matching campaign's name, or ''. */
  function LeadCampaignName(campaigns: seq<Campaign>, l: Lead): (r: string)
    ensures (forall j :: 0 <= j < |campaigns| ==> !LeadOfCampaign(campaigns[j], l)) ==> r == ""
    ensures forall i :: 0 <= i < |campaigns| && LeadOfCampaign(campaigns[i], l)
                        && (forall j :: 0 <= j < i ==> !LeadOfCampaign(campaigns[j], l))
                        ==> r == campaigns[i].name
  {
    match FindIndex(campaigns, c => LeadOfCampaign(c, l))
    case None => ""
    case Some(i) => campaigns[i].name
  }

  /** A client whose `clientId` is not a string never names a lead. */
  lemma NonStringClientIdNeverMatches(clients: seq<Client>, l: Lead)
    requires forall j :: 0 <= j < |clients| ==> !clients[j].clientId.Str?
    ensures LeadClientName(clients, l) == ""
  {
  }

  /** `{ ...l, clientName, campaign }` */
  function Enrich(l: Lead, clients: seq<Client>, campaigns: seq<Campaign>): (r: Lead)
    ensures r.(clientName := l.clientName, campaign := l.campaign) == l
    ensures r.clientName == LeadClientName(clients, l)
    ensures r.campaign == LeadCampaignName(campaigns, l)
  {
    l.(clientName := LeadClientName(clients, l), campaign := LeadCampaignName(campaigns, l))
  }

  /** `enrichedLeads`: one enriched lead per lead, in order. */
  function EnrichLeads(leads: seq<Lead>, clients: seq<Client>, campaigns: seq<Campaign>): (r: seq<Lead>)
    ensures |r| == |leads|
    ensures forall i :: 0 <= i < |leads| ==> r[i].(clientName := leads[i].clientName, campaign := leads[i].campaign) == leads[i]
    ensures forall i :: 0 <= i < |leads| ==> r[i] == Enrich(leads[i], clients, campaigns)
  {
    if leads == [] then [] else [Enrich(leads[0], clients, campaigns)] + EnrichLeads(leads[1..], clients, campaigns)
  }

  /** `lead.phoneNumber.toLowerCase().includes(search.toLowerCase())` */
  predicate MatchesSearch(l: Lead, search: string)
    ensures search == "" ==> MatchesSearch(l, search)
    ensures MatchesSearch(l, search) ==> |search| <= |l.phoneNumber|
  {
    Contains(ToLower(l.phoneNumber), ToLower(search))
  }

  /** The filter's predicate: the search, and each filter that is set. */
  predicate LeadMatches(l: Lead, search: string, clientFilter: string, campaignFilter: string)
    ensures LeadMatches(l, search, clientFilter, campaignFilter) ==> MatchesSearch(l, search)
    ensures clientFilter == "" && campaignFilter == "" ==>
              (LeadMatches(l, search, clientFilter, campaignFilter) <==> MatchesSearch(l, search))
    ensures clientFilter != "" && l.clientName != clientFilter ==> !LeadMatches(l, search, clientFilter, campaignFilter)
    ensures campaignFilter != "" && l.campaign != campaignFilter ==> !LeadMatches(l, search, clientFilter, campaignFilter)
  {
    MatchesSearch(l, search)
    && (clientFilter != "" ==> l.clientName == clientFilter)
    && (campaignFilter != "" ==> l.campaign == campaignFilter)
  }

  /** `filteredLeads`: the matching leads, in their original order. */
  function FilterLeads(leads: seq<Lead>, search: string, clientFilter: string, campaignFilter: string): (r: seq<Lead>)
    ensures IsSubsequence(r, leads)
    ensures forall l :: l in r ==> l in leads && MatchesSearch(l, search)
    ensures forall l :: l in r && clientFilter != "" ==> l.clientName == clientFilter
    ensures forall l :: l in r && campaignFilter != "" ==> l.campaign == campaignFilter
    ensures forall l :: l in leads && LeadMatches(l, search, clientFilter, campaignFilter) ==> l in r
    ensures forall l :: multiset(r)[l] == if LeadMatches(l, search, clientFilter, campaignFilter) then multiset(leads)[l] else 0
  {
    Filter(leads, l => LeadMatches(l, search, clientFilter, campaignFilter))
  }

  /** With an empty search and no filter every lead is shown. */
  lemma EmptyFiltersShowAll(leads: seq<Lead>)
    ensures FilterLeads(leads, "", "", "") == leads
  {
    forall i | 0 <= i < |leads| ensures LeadMatches(leads[i], "", "", "") {
      ContainsEmpty(ToLower(leads[i].phoneNumber));
    }
  }

  /** A phone number containing the search text literally matches the search. */
  lemma LiteralOccurrenceMatches(l: Lead, search: string, i: int)
    requires OccursAt(l.phoneNumber, search, i)
    ensures MatchesSearch(l, search)
  {
    ToLowerOfSlice(l.phoneNumber, i, i + |search|);
    OccursContains(ToLower(l.phoneNumber), ToLower(search), i);
  }

  /** The case of the search text does not matter. */
  lemma SearchIgnoresCase(l: Lead, search: string)
    ensures MatchesSearch(l, search) <==> MatchesSearch(l, ToLower(search))
  {
    ToLowerIdempotent(search);
  }

  /** `LeadManagementTab`: its search box, its two filters, the leads it
      fetched and the lead being edited. */
  class LeadTab {
    var search: string
    var clientFilter: string
    var campaignFilter: string
    var leads: seq<Lead>
    var editingLead: Option<Lead>

    constructor()
      ensures search == "" && clientFilter == "" && campaignFilter == ""
      ensures leads == [] && editingLead.None?
    {
      search, clientFilter, campaignFilter := "", "", "";
      leads := [];
      editingLead := None;
    }

    /** The leads listed for the dashboard's clients and campaigns. */
    function Listed(clients: seq<Client>, campaigns: seq<Campaign>): (r: seq<Lead>)
      reads this
      ensures IsSubsequence(r, EnrichLeads(leads, clients, campaigns))
      ensures search == "" && clientFilter == "" && campaignFilter == "" ==> r == EnrichLeads(leads, clients, campaigns)
    {
      EmptyFiltersShowAll(EnrichLeads(leads, clients, campaigns));
      FilterLeads(EnrichLeads(leads, clients, campaigns), search, clientFilter, campaignFilter)
    }

    /** The mount effect: the fetched leads, or none on failure. */
    method LoadLeads(master: Result<MasterData>)
      modifies this
      ensures master.Ok? ==> leads == OrEmpty(master.value.leads)
      ensures master.Err? ==> leads == old(leads)
      ensures search == old(search) && clientFilter == old(clientFilter) && campaignFilter == old(campaignFilter)
      ensures editingLead == old(editingLead)
    {
      if master.Ok? {
        leads := OrEmpty(master.value.leads);
      }
    }

    method SetSearch(value: string)
      modifies this
      ensures search == value
      ensures clientFilter == old(clientFilter) && campaignFilter == old(campaignFilter)
      ensures leads == old(leads) && editingLead == old(editingLead)
    {
      search := value;
    }

    /** The client select: "" or a client's company name. */
    method SetClientFilter(value: string)
      modifies this
      ensures clientFilter == value
      ensures search == old(search) && campaignFilter == old(campaignFilter)
      ensures leads == old(leads) && editingLead == old(editingLead)
    {
      clientFilter := value;
    }

    /** The campaign select: "" or a campaign's name. */
    method SetCampaignFilter(value: string)
      modifies this
      ensures campaignFilter == value
      ensures search == old(search) && clientFilter == old(clientFilter)
      ensures leads == old(leads) && editingLead == old(editingLead)
    {
      campaignFilter := value;
    }

    /** "Edit" on a listed (enriched) lead. */
    method EditLead(lead: Lead)
      modifies this
      ensures editingLead == Some(lead)
      ensures search == old(search) && clientFilter == old(clientFilter) && campaignFilter == old(campaignFilter)
      ensures leads == old(leads)
    {
      editingLead := Some(lead);
    }

    /** The modal's cancel button. */
    method CloseModal()
      modifies this
      ensures editingLead.None?
      ensures search == old(search) && clientFilter == old(clientFilter) && campaignFilter == old(campaignFilter)
      ensures leads == old(leads)
    {
      editingLead := None;
    }

    /** `handleSave`: every lead with the saved lead's id becomes it, and the
        modal closes. */
    method HandleSave(updated: Lead)
      modifies this
      ensures leads == ReplaceById(old(leads), LeadId, updated)
      ensures |leads| == |old(leads)|
      ensures forall i :: 0 <= i < |leads| ==>
                leads[i] == if StrictEquals(old(leads)[i].id, updated.id) then updated else old(leads)[i]
      ensures editingLead.None?
      ensures search == old(search) && clientFilter == old(clientFilter) && campaignFilter == old(campaignFilter)
    {
      leads := ReplaceById(leads, LeadId, updated);
      editingLead := None;
    }
  }
}
