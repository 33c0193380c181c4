# GetConnects master dashboard: a Dafny model

This project models the client-side logic of the GetConnects admin dashboard, a
React application for an agency that manages clients, their call-tracking
numbers, their campaigns and the leads those campaigns produce. It covers these parts:

- The **master dashboard** (`MasterDashboard`). This covers:
  - the collections the dashboard keeps and the handlers that update them once a remote call has answered: add a number or campaign, replace or delete a number, create a client;
  - the small view state machine of `activeView` and `editingClient`;
  - the call-number and campaign tabs;
  - the client names shown in the campaign and number tables;
  - the lead tab's enrichment (client and campaign names looked up per lead), its case-insensitive phone search with optional client and campaign filters, and how it saves an edited lead.
- The **stand-alone client editor** (`ClientForm`). This covers:
  - members added, edited and removed, with the contact cleared when the contact member is removed;
  - campaigns and numbers removed by id;
  - the document that "Save" writes;
  - the add-item form, which rejects blank input and trims the rest.
- The **modals and the client form page** (`CampaignModal`, `CallNumberModal`, `LeadModal`, `ClientFormPage`). This covers:
  - how each form is initialised from the record it edits;
  - the payload each one submits, with its default `id`, `status`, `leads` and `clientId` conversion;
  - which numbers a campaign may use;
  - when a number or campaign checkbox is locked as "(assigned)".

Two support modules hold the JavaScript semantics the code depends on:

- `Js` covers truthiness, `||`, `===`, `String(v)`, `parseInt(s, 10)`, `trim`, `toLowerCase` and `includes`.
- `Collections` covers `filter`, `find` and `map` with an id test, and `splice`.

Every React component whose state changes is a `class`. Each handler is one method that runs as a single atomic step, and its contract states the whole new state. The Firebase and HTTP calls are not part of the model. What they returned (`Result.Ok`) or threw (`Result.Err`) is an argument of the handler, and so is `Date.now()` (`now`).

Where the code and its evident intent differ, the model says so:

- `addCampaign` appends the campaign under the modal's own id rather than the server's. This is the finding below. The as-written record is modelled and its defect proved; the dashboard's handler appends the corrected record.
- In the client form page, the `...data` spread cannot override `id`, `status` or `leads`, because the form has no fields with those names. The payload is modelled as the three defaults beside the form values.
- `editing` in the client editor is `Boolean(id)`. A present but empty route parameter therefore counts as creating a client. The model follows the code here.

## Model

| member | source | states |
|---|---|---|
| Js.Truthy | src/ClientForm.jsx:18 | `Boolean(v)` is false for exactly `undefined`, `null`, `false`, `0`, `NaN` and `""` |
| Js.StrictEquals | src/components/ClientFormPage.js:79 | `===` holds only between equal values |
| Js.StrictEqualsLaws | src/components/ClientFormPage.js:79 | `===` is symmetric, and a value fails it against itself exactly when it is NaN |
| Js.ToString | src/components/CallNumberModal.js:18 | `String` leaves a string as it is, and gives "" only for the empty string |
| Js.ErrorMessage | src/components/MasterDashboard.js:52 | the banner text is either the error's `message` or `String(err)`; it is the message whenever that is non-empty, and it is "" only when both are |
| Js.Or | src/components/CampaignModal.js:57 | `a \|\| b` is one of its operands; it is truthy exactly when either operand is, and it is `a` whenever `a` is truthy |
| Js.NatToString | src/ClientForm.jsx:62 | the decimal form of a number is a non-empty string of digits with no leading zero (only 0 itself starts with "0") |
| Js.IntToString | src/ClientForm.jsx:62 | `String(i)` is a non-empty digit string for `i >= 0`, and "-" followed by a digit string without leading zero for `i < 0` |
| Js.DigitsValueOfNatToString | src/components/CallNumberModal.js:18 | reading the decimal form of `n` back as digits gives `n` |
| Js.Trim | src/ClientForm.jsx:189 | `trim` removes a whitespace-only prefix and suffix, and the result neither starts nor ends with whitespace |
| Js.TrimEmptyIff | src/ClientForm.jsx:189 | a string trims to "" exactly when all its characters are whitespace |
| Js.TrimIdempotent | src/ClientForm.jsx:190 | trimming the trimmed value changes nothing |
| Js.ParseInt | src/components/CallNumberModal.js:18 | `parseInt(s, 10)` yields a number or NaN |
| Js.ParseDigitString | src/components/CallNumberModal.js:18 | a non-empty decimal-digit string parses to its exact base-10 value (see `Js.ParseInt` under "Left out" for values above 2^53) |
| Js.ParseIntOfIntToString | src/components/CallNumberModal.js:18 | `parseInt(String(n), 10)` is `n` for every integer |
| Js.ParseIntNonNumeric | src/components/CallNumberModal.js:18 | a string starting with something other than whitespace, a sign or a digit parses to NaN |
| Js.DigitPrefixOfDigitsThen | src/components/CallNumberModal.js:18 | the leading digit run of a digit string followed by a non-digit is exactly that digit string |
| Js.ParseDigitPrefix | src/components/CallNumberModal.js:18 | `parseInt` reads a leading run of digits and ignores whatever follows it, so "12abc" parses to 12 (as an exact integer) |
| Js.ToLower | src/components/MasterDashboard.js:385 | `toLowerCase` keeps the length, lowers each ASCII capital and leaves no capital behind |
| Js.Contains | src/components/MasterDashboard.js:385 | `includes` holds for every prefix, and only for texts no longer than the string |
| Js.ToLowerIdempotent | src/components/MasterDashboard.js:385 | lowering an already lowered text changes nothing |
| Js.ContainsWitness | src/components/MasterDashboard.js:385 | when `includes` holds, the text occurs at some position |
| Js.OccursContains | src/components/MasterDashboard.js:385 | an occurrence at any position makes `includes` hold |
| Js.ContainsIff | src/components/MasterDashboard.js:385 | `includes` holds exactly when the text occurs at some position |
| Js.ContainsEmpty | src/components/MasterDashboard.js:385 | every string includes the empty search |
| Collections.Filter | src/components/MasterDashboard.js:384-389 | `filter` keeps, in order, exactly the elements that pass, each as often as it occurs in the input, and drops every occurrence of the rest; when all pass it changes nothing |
| Collections.FindIndex | src/components/MasterDashboard.js:380 | `find` lands on the first element that passes, and on none exactly when no element passes |
| Collections.ReplaceById | src/components/MasterDashboard.js:75 | mapping by id keeps the length, puts the update at every position with its id and leaves every other position as it was |
| Collections.RemoveById | src/components/MasterDashboard.js:79 | keeps, in order, exactly the elements whose id is not `===` to the given id, each with its multiplicity, and drops every occurrence of the others |
| Collections.RemoveAt | src/ClientForm.jsx:72-73 | `splice(idx, 1)` keeps the elements before and after `idx` in order and drops exactly one occurrence of the element at `idx` |
| CampaignModal.FormFor | src/components/CampaignModal.js:6-16 | no campaign gives the empty form; a campaign gives its name and call number, and its client id when truthy, otherwise "" |
| CampaignModal.Payload | src/components/CampaignModal.js:20-29 | the submitted campaign copies the three form fields and keeps the edited id when truthy, otherwise the fresh id |
| CampaignModal.UntouchedEditRoundTrip | src/components/CampaignModal.js:6-29 | submitting an untouched edit returns the campaign exactly when its id is kept and its client id survives the `\|\| ''` default |
| CampaignModal.Offered | src/components/CampaignModal.js:31 | an unassigned number is always offered, a number assigned to the form's own client id is offered, and with "Unassigned" selected no assigned number is |
| CampaignModal.AvailableNumbers | src/components/CampaignModal.js:31 | the offered numbers are an order-preserving subsequence of the numbers, holding exactly those unassigned or assigned to a client id with the form's string form, each as often as in the input |
| CampaignModal.TruthyToStringNonEmpty | src/components/CampaignModal.js:31 | no truthy value has "" as its string form |
| CampaignModal.UnassignedOffersFreeNumbers | src/components/CampaignModal.js:31 | with "Unassigned" selected, exactly the unassigned numbers are offered |
| CampaignModal.ClientOptionValue | src/components/CampaignModal.js:57 | a client's option value is its `clientId` when truthy, otherwise its `id` |
| CampaignModal.ChosenClientNumbersOffered | src/components/CampaignModal.js:52-57 | choosing a client offers every number assigned to it under either spelling of the id |
| CampaignModal.Modal.constructor | src/components/CampaignModal.js:3-16 | mounting installs the form for the props |
| CampaignModal.Modal.Receive | src/components/CampaignModal.js:6-16 | the form is reset for the new campaign exactly when a prop changed |
| CampaignModal.Modal.ChangeName | src/components/CampaignModal.js:43 | only the name changes |
| CampaignModal.Modal.ChangeClient | src/components/CampaignModal.js:52 | only the client id changes, to the selected string |
| CampaignModal.Modal.ChangeCallNumber | src/components/CampaignModal.js:65 | only the call number changes |
| CampaignModal.Modal.Submit | src/components/CampaignModal.js:18-29 | an open modal submits the payload of its form; a closed one submits nothing |
| CallNumberModal.FormFor | src/components/CallNumberModal.js:6-12 | no number gives `{number: '', clientId: ''}`; a number gives its number, and its client id when truthy, otherwise "" |
| CallNumberModal.SubmittedClientId | src/components/CallNumberModal.js:18 | the submitted client id is null exactly when the form's is falsy, and otherwise a parsed number or NaN |
| CallNumberModal.DigitClientIdParses | src/components/CallNumberModal.js:18 | a non-empty digit string becomes its exact base-10 value (exact only up to 2^53 in JavaScript) |
| CallNumberModal.NumericClientIdKept | src/components/CallNumberModal.js:18 | a non-zero integer client id survives the conversion |
| CallNumberModal.SelectedNumericClientIdKept | src/components/CallNumberModal.js:18 | a non-zero integer client id handed over by the select as its string form comes back as the same number |
| CallNumberModal.NonNumericClientIdIsNaN | src/components/CallNumberModal.js:18 | a client id that does not start with whitespace, a sign or a digit becomes NaN |
| CallNumberModal.DigitPrefixClientIdParses | src/components/CallNumberModal.js:18 | a client id such as "12abc" (digits, then a non-digit) becomes the exact value of its leading digits |
| CallNumberModal.Payload | src/components/CallNumberModal.js:19 | the payload keeps the edited id when truthy, otherwise the fresh id, copies the number and converts the client id |
| CallNumberModal.UntouchedEditRoundTrip | src/components/CallNumberModal.js:6-19 | submitting an untouched edit returns the number exactly when its id is kept and its client id is null or a non-zero integer |
| CallNumberModal.Modal.constructor | src/components/CallNumberModal.js:3-12 | mounting installs the form for the props |
| CallNumberModal.Modal.Receive | src/components/CallNumberModal.js:6-12 | the form is reset for the new number exactly when a prop changed |
| CallNumberModal.Modal.ChangeNumber | src/components/CallNumberModal.js:35 | only the number changes |
| CallNumberModal.Modal.ChangeClient | src/components/CallNumberModal.js:43 | only the client id changes, to the selected string |
| CallNumberModal.Modal.Submit | src/components/CallNumberModal.js:14-21 | an open modal submits the payload of its form; a closed one submits nothing |
| LeadModal.Saved | src/components/LeadModal.js:16 | the saved lead has the new disposition and every other field of the lead |
| LeadModal.SavedLaws | src/components/LeadModal.js:16 | saving the lead's own disposition gives the lead back, and a second save overrides the first |
| LeadModal.Modal.constructor | src/components/LeadModal.js:4-10 | with a lead the disposition starts as the lead's own, without one as "" |
| LeadModal.Modal.Receive | src/components/LeadModal.js:6-10 | a changed, non-null lead installs its disposition; otherwise the disposition stays |
| LeadModal.Modal.Select | src/components/LeadModal.js:30-37 | only Hot, Warm or Cold can be picked, and the disposition stays either the lead's own or one of those three |
| LeadModal.Modal.Submit | src/components/LeadModal.js:12-17 | without a lead nothing is saved; with one the saved lead is the lead with the chosen disposition |
| ClientFormPage.ContactName | src/components/ClientFormPage.js:22 | the client name field is `contactFullName`, else `clientName`, else "" |
| ClientFormPage.SubmitPayload | src/components/ClientFormPage.js:35-38 | the payload carries the form values, the client's id when truthy (else the fresh id), its status when set (else "Active") and its leads when non-zero (else 0) |
| ClientFormPage.PayloadDefaults | src/components/ClientFormPage.js:36 | a new client gets the fresh id, "Active" and 0; an edited client with id and status set keeps all three |
| ClientFormPage.EditedId | src/components/ClientFormPage.js:36 | the id of the edited client, and a falsy value when a client is being created |
| ClientFormPage.AssignedElsewhere | src/components/ClientFormPage.js:79 | only a truthy client id can be assigned elsewhere; when creating, every truthy one is; the edited client's own id never is |
| ClientFormPage.NumberCheckbox | src/components/ClientFormPage.js:77-82 | a number's checkbox is disabled exactly when its client id is truthy and not `===` to the edited client's id, and exactly then labelled "(assigned)" |
| ClientFormPage.CampaignCheckbox | src/components/ClientFormPage.js:95-100 | a campaign's checkbox is disabled exactly when its client id is truthy and not `===` to the edited client's id, and exactly then labelled "(assigned)" |
| ClientFormPage.LockedNumbers | src/components/ClientFormPage.js:79 | when creating, every assigned number is locked; unassigned numbers and the edited client's own are never locked |
| ClientFormPage.StrictComparisonLocksOtherSpelling | src/components/ClientFormPage.js:79 | a number whose client id is 12 is locked while editing the client whose id is "12" |
| ClientFormPage.Page.constructor | src/components/ClientFormPage.js:5-16 | the form starts with its default values |
| ClientFormPage.Page.LoadClient | src/components/ClientFormPage.js:20-31 | loading sets the four text fields, and contact person, numbers, campaigns and members only when the client has them |
| ClientFormPage.Page.AddMember | src/components/ClientFormPage.js:134 | "Add Member" appends a row whose four fields are empty and changes nothing else |
| ClientFormPage.Page.RemoveMember | src/components/ClientFormPage.js:131 | "Remove" drops exactly the row at its index |
| ClientFormPage.Page.Submit | src/components/ClientFormPage.js:35-38 | submitting hands over the payload of the current values |
| ClientForm.WithField | src/ClientForm.jsx:67 | an edited member keeps its id and all fields but the edited one, which gets the new value |
| ClientForm.NewMember | src/ClientForm.jsx:62 | a new member has the timestamp as its id and four empty fields |
| ClientForm.ContactAfterRemove | src/ClientForm.jsx:75 | the contact is cleared exactly when the removed member's id is the contact id |
| ClientForm.RemoveKeepsContactValid | src/ClientForm.jsx:71-76 | with unique ids, removing a member keeps the ids unique and the contact either unset or the id of a remaining member |
| ClientForm.DuplicateIdClearsContact | src/ClientForm.jsx:75 | with duplicate ids, removing one member can clear a contact another member still has |
| ClientForm.Editor.constructor | src/ClientForm.jsx:15-24 | the editor starts empty for its route id |
| ClientForm.Editor.Editing | src/ClientForm.jsx:18 | `Boolean(id)` of the route parameter, as a JavaScript value, holds exactly when the parameter is present and non-empty |
| ClientForm.Editor.Load | src/ClientForm.jsx:26-46 | when editing, the reads happen in order and a rejected read stops the load there: the document's fields are installed when it was read and exists, the campaigns when they were read too, and the numbers only when all three reads succeeded; otherwise the members are emptied |
| ClientForm.Editor.SetCompanyName | src/ClientForm.jsx:114 | only the company name changes |
| ClientForm.Editor.AddMember | src/ClientForm.jsx:61-63 | exactly one new empty member is appended and nothing else changes |
| ClientForm.Editor.UpdateMember | src/ClientForm.jsx:65-69 | only the chosen field of the member at `idx` changes; the length and other members stay |
| ClientForm.Editor.RemoveMember | src/ClientForm.jsx:71-76 | exactly the member at `idx` is removed, the contact is cleared iff it was that member, and a valid contact stays valid |
| ClientForm.Editor.SelectContact | src/ClientForm.jsx:135 | only the contact id changes |
| ClientForm.Editor.RemoveCampaign | src/ClientForm.jsx:85-88 | after a successful delete the campaigns kept are, in order and with their multiplicity, exactly those whose id differs from the deleted one; a failed delete changes nothing |
| ClientForm.Editor.RemoveNumber | src/ClientForm.jsx:97-100 | after a successful delete the numbers kept are, in order and with their multiplicity, exactly those whose id differs from the deleted one; a failed delete changes nothing |
| ClientForm.Editor.SaveClient | src/ClientForm.jsx:48-59 | the write is exactly `{companyName, members, contactId}`, an update of the routed document when editing and a new document otherwise; only a successful write navigates, to "/clients" or to the new document's page |
| ClientForm.AddItemForm.constructor | src/ClientForm.jsx:184 | the input starts empty |
| ClientForm.AddItemForm.SetValue | src/ClientForm.jsx:199 | the input takes the typed value |
| ClientForm.AddItemForm.Submit | src/ClientForm.jsx:187-192 | whitespace-only input adds nothing and stays; otherwise the trimmed value is added and the input is cleared |
| MasterDashboard.Failure | src/components/MasterDashboard.js:52-53 | an error banner's text is its prefix followed by the error's message, or by `String(err)` when the message is empty |
| MasterDashboard.RejectionMessage | src/components/MasterDashboard.js:122-125 | a rejected response's message is its non-empty body, or the status line when the body is empty |
| MasterDashboard.Rejection | src/components/MasterDashboard.js:124 | the thrown error has a non-empty message, and the handler's catch reads exactly the rejection message from it |
| MasterDashboard.RejectionBanner | src/components/MasterDashboard.js:124-136 | a rejected client creation is reported with that message itself |
| MasterDashboard.RenderView | src/components/MasterDashboard.js:142-167 | each of the six views shows its own tab, and any other value shows client management |
| MasterDashboard.RenderViewBijective | src/components/MasterDashboard.js:142-167 | distinct views show distinct tabs, and every tab is reached from its own view |
| MasterDashboard.AppendedCampaignAsWritten | src/components/MasterDashboard.js:66 | as written, the appended campaign keeps the campaign's own id |
| MasterDashboard.AppendedCampaignDropsServerId | src/components/MasterDashboard.js:65-66 | for a campaign from the modal, the record appended as written never carries a server id that differs from the modal's |
| MasterDashboard.AppendedCampaign | src/components/MasterDashboard.js:65-66 | the appended campaign carries the server id and the submitted name, client id and call number |
| MasterDashboard.AppendedCampaignKeepsServerId | src/components/MasterDashboard.js:65-66 | a campaign from the modal is appended with the server id and the form's three fields |
| MasterDashboard.OptionValueOwnsCampaign | src/components/MasterDashboard.js:291 | a campaign belongs to a client whose option value is its client id, or the string form of that value |
| MasterDashboard.CampaignClientLabel | src/components/MasterDashboard.js:291 | the campaign table names the first client whose option value has the campaign's client id as string form, or "Unassigned" when there is none or its name is blank |
| MasterDashboard.ChosenClientLabelled | src/components/MasterDashboard.js:291 | a campaign whose client was chosen in the modal is listed under that client when no earlier client shares the option's string form |
| MasterDashboard.UnassignedCampaignLabel | src/components/MasterDashboard.js:291 | a campaign saved as "Unassigned" is labelled "Unassigned" when every client has a truthy option value |
| MasterDashboard.NumberOwnedBy | src/components/MasterDashboard.js:343 | a number belongs to a client exactly when the client's id equals its client id and that id is not NaN |
| MasterDashboard.NumberClientLabel | src/components/MasterDashboard.js:343 | the number table shows "Unassigned" for a falsy client id, the first client whose id is `===` to it otherwise, and nothing when no client matches |
| MasterDashboard.OwnerLabelsNumber | src/components/MasterDashboard.js:343 | a number with a truthy client id is listed under the first client that owns it |
| MasterDashboard.NumericClientNumberLabelled | src/components/MasterDashboard.js:343 | a number assigned in the modal to a client with a non-zero integer id is listed under that client |
| MasterDashboard.StringClientNumberShownUnassigned | src/components/MasterDashboard.js:343 | a number assigned in the modal to a client whose string id does not start with whitespace, a sign or a digit is stored with NaN, listed as "Unassigned" and offered to every campaign |
| MasterDashboard.Dashboard.Shown | src/components/MasterDashboard.js:196 | the screen shows the tab of the active view |
| MasterDashboard.Dashboard.constructor | src/components/MasterDashboard.js:15-22 | the dashboard starts on the client list, loading, with empty collections and no banner |
| MasterDashboard.Dashboard.LoadData | src/components/MasterDashboard.js:24-42 | loaded master data replaces the three lists, loaded KPIs are stored, and loading ends even on failure |
| MasterDashboard.Dashboard.AddNumber | src/components/MasterDashboard.js:44-55 | success appends exactly `{id, number, clientId}` with the server id and shows success; failure only shows the error |
| MasterDashboard.Dashboard.AddCampaign | src/components/MasterDashboard.js:57-72 | success appends exactly the submitted campaign under the server id (the corrected record of the finding) and shows success; failure only shows the error |
| MasterDashboard.Dashboard.UpdateNumber | src/components/MasterDashboard.js:74-76 | the numbers keep their length and order, those with the updated id become the update, and nothing else changes |
| MasterDashboard.Dashboard.DeleteNumber | src/components/MasterDashboard.js:78-80 | the numbers kept are, in order and with their multiplicity, exactly those whose id differs, and nothing else changes |
| MasterDashboard.Dashboard.OpenCreateForm | src/components/MasterDashboard.js:86-89 | no client is being edited and the view is the client form |
| MasterDashboard.Dashboard.OpenEditForm | src/components/MasterDashboard.js:91-94 | the chosen client is being edited and the view is the client form |
| MasterDashboard.Dashboard.ShowView | src/components/MasterDashboard.js:181-185 | a navigation link changes only the view |
| MasterDashboard.Dashboard.TestBigQuery | src/components/MasterDashboard.js:96-105 | only the banner changes, to success or to the error |
| MasterDashboard.Dashboard.SaveClient | src/components/MasterDashboard.js:107-140 | saving an edit changes only the view; a create posts the three fields and either reloads the lists with a success banner or reports the failure; the view always returns to "clients" |
| MasterDashboard.Dashboard.DismissNotification | src/components/MasterDashboard.js:195 | closing the banner removes it and changes nothing else |
| MasterDashboard.CallNumberTab.constructor | src/components/MasterDashboard.js:311-312 | the tab starts with its modal closed and no number being edited |
| MasterDashboard.CallNumberTab.OpenAdd | src/components/MasterDashboard.js:328 | "Add Number" opens the modal with no number being edited |
| MasterDashboard.CallNumberTab.OpenEdit | src/components/MasterDashboard.js:345 | "Edit" opens the modal on that number |
| MasterDashboard.CallNumberTab.Close | src/components/MasterDashboard.js:353 | cancelling closes the modal and clears the edited number |
| MasterDashboard.CallNumberTab.HandleSave | src/components/MasterDashboard.js:314-322 | save routes to the update when a number was being edited and to the create otherwise, then closes the modal |
| MasterDashboard.CampaignTab.constructor | src/components/MasterDashboard.js:266 | the modal starts closed |
| MasterDashboard.CampaignTab.Open | src/components/MasterDashboard.js:276 | "Add Campaign" opens the modal |
| MasterDashboard.CampaignTab.Close | src/components/MasterDashboard.js:300 | cancelling closes the modal |
| MasterDashboard.CampaignTab.HandleSave | src/components/MasterDashboard.js:267-270 | save creates the campaign (through the corrected `AddCampaign`) and closes the modal |
| MasterDashboard.LeadOfClient | src/components/MasterDashboard.js:380 | a client names a lead exactly when its `clientId` is the string form of the lead's client id, so only string `clientId`s match |
| MasterDashboard.LeadOfCampaign | src/components/MasterDashboard.js:381 | a campaign names a lead exactly when its id equals the lead's campaign id and is not NaN |
| MasterDashboard.LeadClientName | src/components/MasterDashboard.js:380 | a lead's client name is that of the first client whose `clientId` is `===` to the lead's client id as a string, or "" when there is none |
| MasterDashboard.LeadCampaignName | src/components/MasterDashboard.js:381 | a lead's campaign is the name of the first campaign whose id is `===` to the lead's campaign id, or "" when there is none |
| MasterDashboard.NonStringClientIdNeverMatches | src/components/MasterDashboard.js:380 | clients whose `clientId` is not a string never name a lead |
| MasterDashboard.Enrich | src/components/MasterDashboard.js:378-382 | enrichment sets only the client and campaign names and leaves every other field |
| MasterDashboard.EnrichLeads | src/components/MasterDashboard.js:378-382 | enrichment keeps the number and order of the leads and changes only the two name fields of each |
| MasterDashboard.MatchesSearch | src/components/MasterDashboard.js:385 | the empty search matches every lead, and only a phone number at least as long as the search can match |
| MasterDashboard.LeadMatches | src/components/MasterDashboard.js:385-388 | a lead passes only when it matches the search and each set filter; with no filter set, the search alone decides |
| MasterDashboard.FilterLeads | src/components/MasterDashboard.js:384-389 | the shown leads are a subsequence of the leads; each contains the search ignoring case and equals each set filter; every matching lead is shown, as often as it occurs, and no other |
| MasterDashboard.EmptyFiltersShowAll | src/components/MasterDashboard.js:384-389 | with empty search and filters every lead is shown |
| MasterDashboard.LiteralOccurrenceMatches | src/components/MasterDashboard.js:385 | a phone number that contains the search text matches it |
| MasterDashboard.SearchIgnoresCase | src/components/MasterDashboard.js:385 | lowering the search text does not change which leads match |
| MasterDashboard.LeadTab.constructor | src/components/MasterDashboard.js:359-363 | the tab starts with empty search, filters and leads, and nothing being edited |
| MasterDashboard.LeadTab.Listed | src/components/MasterDashboard.js:378-389 | the listed leads are a subsequence of the enriched leads, and all of them while nothing filters |
| MasterDashboard.LeadTab.LoadLeads | src/components/MasterDashboard.js:365-376 | fetched leads replace the list; a failed fetch leaves it |
| MasterDashboard.LeadTab.SetSearch | src/components/MasterDashboard.js:404 | only the search text changes |
| MasterDashboard.LeadTab.SetClientFilter | src/components/MasterDashboard.js:408 | only the client filter changes |
| MasterDashboard.LeadTab.SetCampaignFilter | src/components/MasterDashboard.js:414 | only the campaign filter changes |
| MasterDashboard.LeadTab.EditLead | src/components/MasterDashboard.js:441 | "Edit" opens the modal on that lead |
| MasterDashboard.LeadTab.CloseModal | src/components/MasterDashboard.js:448 | cancelling closes the modal |
| MasterDashboard.LeadTab.HandleSave | src/components/MasterDashboard.js:391-394 | the leads keep their length and order, those with the saved id become the saved lead, and the modal closes |

## Left out

- Firebase and HTTP calls are not modelled: `httpsCallable`, `fetch`, Firestore reads and writes, sign-in and sign-out. Their outcome is passed into the handler as a `Result`. The dashboard handlers and the editor's save also return the request or write they send. The editor's loads and deletes return no request: the route id and the `cid`/`nid` argument identify what they read or delete.
- Async interleaving and React effect scheduling are not modelled, including overlapping handlers and stale closures. Each handler is one atomic step.
- `Date.now()` is not modelled; the timestamp is the `now` parameter.
- `console.error` logging is left out, because it has no effect on state.
- `handleLogout` (src/components/MasterDashboard.js:82-84) is left out: it only calls `signOut`.
- The "Add Campaign" `onOpen` callback (src/components/MasterDashboard.js:161) is left out. It refers to setters that do not exist, and `CampaignManagementTab` never calls it.
- `addCampaign` and `addNumber` in the client editor (src/ClientForm.jsx:78-83, 90-95) are left out. They write to the store and then replace the list with whatever it returns. Only the trimmed value `AddItemForm.Submit` hands to them is modelled.
- The overview's KPI formatting (`toLocaleString`, src/components/MasterDashboard.js:207-210) is left out: it depends on the locale. The KPIs are only stored.
- All JSX rendering is left out, as are the "Loading data..." screen and the presentational components.
- Typing into the client form page's registered text inputs and ticking its checkboxes are left out. These updates happen inside react-hook-form. Only loading, adding and removing member rows, and submitting are modelled.
- Server functions, `src/api.js`, `src/mockApi.js` and `src/firebase.js` are not part of this model.
- Js.ToLower: folds only ASCII capitals, not the rest of Unicode.
- Js.ParseInt: returns the exact unbounded integer value of the digit run. JavaScript rounds it to the nearest double, so digit runs above 2^53 lose precision and runs beyond about 309 digits give `Infinity`; neither is modelled. This also applies to Js.ParseDigitString, Js.ParseDigitPrefix, CallNumberModal.DigitClientIdParses and CallNumberModal.DigitPrefixClientIdParses.
- Js.IntToString: numbers are modelled as integers. Fractions, and the exponent form `String` uses from 1e21 upward, are not modelled.
- CampaignModal.Modal.Receive: compares props by value, where React compares object props by reference, so a new but equal object does not reset the form here.
- CallNumberModal.Modal.Receive: compares props by value, where React compares object props by reference.
- LeadModal.Modal.Receive: compares the lead by value, where React compares it by reference.
- MasterDashboard.Dashboard.SaveClient: assumes `resp.text()` does not throw, so its failure path is not modelled.
- MasterDashboard.Dashboard.AddCampaign: appends the corrected record `{ ...campaign, id }` of the finding below, not the record as written, which `AppendedCampaignAsWritten` models.
- MasterDashboard.CampaignTab.HandleSave: creates the campaign through `AddCampaign`, so it too appends the corrected record rather than the one the code builds.
- MasterDashboard.FilterLeads: treats every lead's `phoneNumber` as a string. A lead without one makes `toLowerCase` throw during rendering in the code; the model cannot express that.
- ClientForm.Editor.SaveClient: when the write rejects, the error escapes the submit handler; the model only states that no navigation happens.
- Records.Lead: holds only the lead fields the code reads. Any other properties a lead carries are not modelled, although the spreads would copy them. Its `phoneNumber` is assumed present and a string, because the search reads it without a default.

## Findings

| source | as written | input that shows it | evidently intended | confidence | as-written member | corrected member |
|---|---|---|---|---|---|---|
| src/components/MasterDashboard.js:66 | `{ id, ...campaign }` puts the server's `campaignId` first, so the spread campaign's own `id` (always set by the modal, src/components/CampaignModal.js:23) replaces it | a campaign submitted from the modal at time 1000 while the server answers `campaignId` "c-7": the appended campaign has id 1000, not "c-7" | `{ ...campaign, id }`: the appended campaign carries the id the server assigned | not executed | MasterDashboard.AppendedCampaignDropsServerId | MasterDashboard.AppendedCampaignKeepsServerId |
