/** The stand-alone client editor: company name, a list of members with one
    of them marked as the contact, and, when editing, the client's campaigns
    and phone numbers. */
module ClientForm {
  import opened Js
  import opened Collections

  /** A member `{id, firstName, lastName, email, phone}`. */
  datatype Member = Member(id: string, firstName: string, lastName: string, email: string, phone: string)

  /** The member fields an input can edit. */
  datatype MemberField = FirstName | LastName | Email | Phone

  function FieldOf(m: Member, f: MemberField): string
  {
    match f
    case FirstName => m.firstName
    case LastName => m.lastName
    case Email => m.email
    case Phone => m.phone
  }

  /** `{ ...m, [field]: value }` */
  function WithField(m: Member, f: MemberField, value: string): (r: Member)
    ensures r.id == m.id
    ensures FieldOf(r, f) == value
    ensures forall g :: g != f ==> FieldOf(r, g) == FieldOf(m, g)
  {
    match f
    case FirstName => m.(firstName := value)
    case LastName => m.(lastName := value)
    case Email => m.(email := value)
    case Phone => m.(phone := value)
  }

  /** The member "Add" creates, with `Date.now().toString()` as its id. */
  function NewMember(now: int): (m: Member)
    ensures m.id == IntToString(now)
    ensures forall f :: FieldOf(m, f) == ""
  {
    Member(IntToString(now), "", "", "", "")
  }

  /** A campaign `{id, name}` or a phone number `{id, number}` of the client. */
  datatype Item = Item(id: string, text: string)

  function ItemId(i: Item): JsValue { Str(i.id) }

  /** The stored client document. */
  datatype ClientDoc = ClientDoc(companyName: string, members: Option<seq<Member>>, contactId: string)

  /** What `saveClient` writes: `{ companyName, members, contactId }`. */
  datatype SavedData = SavedData(companyName: string, members: seq<Member>, contactId: string)

  /** The store write `saveClient` issues. */
  datatype Write = UpdateDoc(docId: string, data: SavedData) | AddDoc(data: SavedData)

  /** The contact after removing the member at `idx`: cleared exactly when it
      was that member's id. */
  function ContactAfterRemove(members: seq<Member>, contactId: string, idx: nat): (r: string)
    requires idx < |members|
    ensures members[idx].id == contactId ==> r == ""
    ensures members[idx].id != contactId ==> r == contactId
  {
    if members[idx].id == contactId then "" else contactId
  }

  /** No two members share an id. */
  predicate UniqueIds(members: seq<Member>)
  {
    forall i, j :: 0 <= i < j < |members| ==> members[i].id != members[j].id
  }

  /** The contact is unset or is the id of some member. */
  predicate ContactRefersToMember(members: seq<Member>, contactId: string)
  {
    contactId == "" || exists i :: 0 <= i < |members| && members[i].id == contactId
  }

  /** Removing a member keeps ids unique, and the contact still refers to a
      member of the list or is unset. */
  lemma RemoveKeepsContactValid(members: seq<Member>, contactId: string, idx: nat)
    requires idx < |members|
    requires UniqueIds(members) && ContactRefersToMember(members, contactId)
    ensures UniqueIds(RemoveAt(members, idx))
    ensures ContactRefersToMember(RemoveAt(members, idx), ContactAfterRemove(members, contactId, idx))
  {
    var rest := RemoveAt(members, idx);
    forall i, j | 0 <= i < j < |rest| ensures rest[i].id != rest[j].id {
      var i' := if i < idx then i else i + 1;
      var j' := if j < idx then j else j + 1;
      assert rest[i] == members[i'] && rest[j] == members[j'];
    }
    var c := ContactAfterRemove(members, contactId, idx);
    if c != "" {
      var k :| 0 <= k < |members| && members[k].id == contactId;
      assert k != idx;
      var k' := if k < idx then k else k - 1;
      assert rest[k'] == members[k];
    }
  }

  /** Without unique ids, removing one member can clear the contact although
      another member still has that id. */
  lemma DuplicateIdClearsContact()
    ensures var ms := [Member("1", "", "", "", ""), Member("1", "", "", "", "")];
            ContactAfterRemove(ms, "1", 0) == "" && RemoveAt(ms, 0)[0].id == "1"
  {
  }

  /** The editor component's state; `routeId` is the `id` route parameter. */
  class Editor {
    const routeId: Option<string>
    var companyName: string
    var members: seq<Member>
    var contactId: string
    var campaigns: seq<Item>
    var numbers: seq<Item>

    constructor(routeId: Option<string>)
      ensures this.routeId == routeId
      ensures companyName == "" && members == [] && contactId == ""
      ensures campaigns == [] && numbers == []
    {
      this.routeId := routeId;
      companyName, members, contactId := "", [], "";
      campaigns, numbers := [], [];
    }

    /** The `id` route parameter as a JavaScript value. */
    function RouteParam(): JsValue
    {
      if routeId.Some? then Str(routeId.value) else Undefined
    }

    /** `Boolean(id)`: an id route parameter is present and non-empty. */
    predicate Editing()
      ensures Editing() <==> routeId.Some? && routeId.value != ""
    {
      Truthy(RouteParam())
    }

    /** The loading effect. Its inputs are the outcomes of the three reads in
        order: the client document (`None` when it does not exist), then the
        campaign and the phone number collections. A rejected read ends the
        effect there, so what was installed before it stays and nothing after
        it happens. */
    method Load(doc: Result<Option<ClientDoc>>, campaignDocs: Result<seq<Item>>, numberDocs: Result<seq<Item>>)
      modifies this
      ensures Editing() && doc.Ok? && doc.value.Some? ==>
                companyName == doc.value.value.companyName
                && members == (if doc.value.value.members.Some? then doc.value.value.members.value else [])
                && contactId == doc.value.value.contactId
      ensures !(Editing() && doc.Ok? && doc.value.Some?) && Editing() ==>
                companyName == old(companyName) && members == old(members) && contactId == old(contactId)
      ensures Editing() && doc.Ok? && campaignDocs.Ok? ==> campaigns == campaignDocs.value
      ensures !(Editing() && doc.Ok? && campaignDocs.Ok?) ==> campaigns == old(campaigns)
      ensures Editing() && doc.Ok? && campaignDocs.Ok? && numberDocs.Ok? ==> numbers == numberDocs.value
      ensures !(Editing() && doc.Ok? && campaignDocs.Ok? && numberDocs.Ok?) ==> numbers == old(numbers)
      ensures !Editing() ==>
                members == [] && companyName == old(companyName) && contactId == old(contactId)
    {
      if Editing() {
        if doc.Err? {
          return;
        }
        if doc.value.Some? {
          var d := doc.value.value;
          companyName := d.companyName;
          members := if d.members.Some? then d.members.value else [];
          contactId := d.contactId;
        }
        if campaignDocs.Err? {
          return;
        }
        campaigns := campaignDocs.value;
        if numberDocs.Err? {
          return;
        }
        numbers := numberDocs.value;
      } else {
        members := [];
      }
    }

    method SetCompanyName(value: string)
      modifies this
      ensures companyName == value
      ensures members == old(members) && contactId == old(contactId)
      ensures campaigns == old(campaigns) && numbers == old(numbers)
    {
      companyName := value;
    }

    /** "Add": append one member with a fresh id and empty fields. */
    method AddMember(now: int)
      modifies this
      ensures members == old(members) + [NewMember(now)]
      ensures companyName == old(companyName) && contactId == old(contactId)
      ensures campaigns == old(campaigns) && numbers == old(numbers)
    {
      members := members + [NewMember(now)];
    }

    /** Typing into one input of member `idx`. */
    method UpdateMember(idx: nat, field: MemberField, value: string)
      requires idx < |members|
      modifies this
      ensures |members| == |old(members)|
      ensures members[idx] == WithField(old(members)[idx], field, value)
      ensures forall k :: 0 <= k < |members| && k != idx ==> members[k] == old(members)[k]
      ensures companyName == old(companyName) && contactId == old(contactId)
      ensures campaigns == old(campaigns) && numbers == old(numbers)
    {
      var next := members;
      next := next[idx := WithField(next[idx], field, value)];
      members := next;
    }

    /** "Remove" on member `idx`: the contact is cleared when it was that member. */
    method RemoveMember(idx: nat)
      requires idx < |members|
      modifies this
      ensures members == RemoveAt(old(members), idx)
      ensures contactId == ContactAfterRemove(old(members), old(contactId), idx)
      ensures UniqueIds(old(members)) && ContactRefersToMember(old(members), old(contactId))
              ==> UniqueIds(members) && ContactRefersToMember(members, contactId)
      ensures companyName == old(companyName)
      ensures campaigns == old(campaigns) && numbers == old(numbers)
    {
      var removed := members[idx];
      if UniqueIds(members) && ContactRefersToMember(members, contactId) {
        RemoveKeepsContactValid(members, contactId, idx);
      }
      members := RemoveAt(members, idx);
      if removed.id == contactId {
        contactId := "";
      }
    }

    /** The "Contact" radio of a member. */
    method SelectContact(id: string)
      modifies this
      ensures contactId == id
      ensures companyName == old(companyName) && members == old(members)
      ensures campaigns == old(campaigns) && numbers == old(numbers)
    {
      contactId := id;
    }

    /** "Delete" on a campaign, with the outcome of the store's delete: the
        list changes only once the delete has succeeded. */
    method RemoveCampaign(cid: string, deleted: Result<()>)
      modifies this
      ensures deleted.Ok? ==> campaigns == RemoveById(old(campaigns), ItemId, Str(cid))
      ensures deleted.Ok? ==> forall c :: c in campaigns <==> c in old(campaigns) && c.id != cid
      ensures deleted.Ok? ==> forall c: Item :: c.id != cid ==> multiset(campaigns)[c] == multiset(old(campaigns))[c]
      ensures deleted.Err? ==> campaigns == old(campaigns)
      ensures companyName == old(companyName) && members == old(members) && contactId == old(contactId)
      ensures numbers == old(numbers)
    {
      if deleted.Ok? {
        campaigns := RemoveById(campaigns, ItemId, Str(cid));
      }
    }

    /** "Delete" on a phone number, with the outcome of the store's delete:
        the list changes only once the delete has succeeded. */
    method RemoveNumber(nid: string, deleted: Result<()>)
      modifies this
      ensures deleted.Ok? ==> numbers == RemoveById(old(numbers), ItemId, Str(nid))
      ensures deleted.Ok? ==> forall n :: n in numbers <==> n in old(numbers) && n.id != nid
      ensures deleted.Ok? ==> forall n: Item :: n.id != nid ==> multiset(numbers)[n] == multiset(old(numbers))[n]
      ensures deleted.Err? ==> numbers == old(numbers)
      ensures companyName == old(companyName) && members == old(members) && contactId == old(contactId)
      ensures campaigns == old(campaigns)
    {
      if deleted.Ok? {
        numbers := RemoveById(numbers, ItemId, Str(nid));
      }
    }

    /** "Save": the write is issued in either case; `outcome` is what it
        returned (the new document's id for an add) or threw. The editor
        navigates afterwards only when the write succeeded. */
    method SaveClient(outcome: Result<string>) returns (write: Write, route: Option<string>)
      ensures write.data == SavedData(companyName, members, contactId)
      ensures Editing() ==> write == UpdateDoc(routeId.value, write.data)
      ensures !Editing() ==> write.AddDoc?
      ensures outcome.Err? ==> route.None?
      ensures outcome.Ok? && Editing() ==> route == Some("/clients")
      ensures outcome.Ok? && !Editing() ==> route == Some("/clients/" + outcome.value)
    {
      var data := SavedData(companyName, members, contactId);
      if Editing() {
        write := UpdateDoc(routeId.value, data);
        route := if outcome.Ok? then Some("/clients") else None;
      } else {
        write := AddDoc(data);
        route := if outcome.Ok? then Some("/clients/" + outcome.value) else None;
      }
    }
  }

  /** The one-line add form used for campaigns and phone numbers. */
  class AddItemForm {
    var value: string

    constructor()
      ensures value == ""
    {
      value := "";
    }

    method SetValue(v: string)
      modifies this
      ensures value == v
    {
      value := v;
    }

    /** Submitting: blank input does nothing; otherwise the trimmed text is
        passed to `onAdd` and the input is cleared. */
    method Submit() returns (added: Option<string>)
      modifies this
      ensures (forall k :: 0 <= k < |old(value)| ==> IsWhitespace(old(value)[k]))
              ==> added.None? && value == old(value)
      ensures (exists k :: 0 <= k < |old(value)| && !IsWhitespace(old(value)[k]))
              ==> added == Some(Trim(old(value))) && value == ""
      ensures added.Some? ==> added.value != "" && Trim(added.value) == added.value
    {
      TrimEmptyIff(value);
      var t := Trim(value);
      if t == "" {
        added := None;
      } else {
        TrimIdempotent(value);
        added := Some(t);
        value := "";
      }
    }
  }
}
