/** The lead edit modal: it edits one lead's disposition. */
module LeadModal {
  import opened Js
  import opened Records

  /** The options of the disposition select, in order. */
  const Dispositions: seq<string> := ["Hot", "Warm", "Cold"]

  /** `{ ...lead, disposition }`: the lead with only its disposition replaced. */
  function Saved(lead: Lead, disposition: string): (r: Lead)
    ensures r.disposition == disposition
    ensures r.(disposition := lead.disposition) == lead
    ensures r.id == lead.id && r.phoneNumber == lead.phoneNumber
  {
    lead.(disposition := disposition)
  }

  /** Saving with the lead's own disposition gives the lead back, and a later
      save overrides an earlier one. */
  lemma SavedLaws(lead: Lead, d1: string, d2: string)
    ensures Saved(lead, lead.disposition) == lead
    ensures Saved(Saved(lead, d1), d2) == Saved(lead, d2)
  {
  }

  /** The modal component: its prop `lead` and its `disposition` state. */
  class Modal {
    var lead: Option<Lead>
    var disposition: string

    /** The editable disposition is the lead's own or one picked from the select. */
    ghost predicate Valid()
      reads this
    {
      lead.Some? ==> disposition == lead.value.disposition || disposition in Dispositions
    }

    /** Mounting: `disposition` starts as '' and the effect copies the lead's. */
    constructor(lead: Option<Lead>)
      ensures Valid()
      ensures this.lead == lead
      ensures lead.Some? ==> disposition == lead.value.disposition
      ensures lead.None? ==> disposition == ""
    {
      this.lead := lead;
      disposition := if lead.Some? then lead.value.disposition else "";
    }

    /** A new `lead` prop: the effect runs when it changed and copies the new
        lead's disposition; a null lead leaves `disposition` as it was. */
    method Receive(lead: Option<Lead>)
      requires Valid()
      modifies this
      ensures Valid()
      ensures this.lead == lead
      ensures old(this.lead) != lead && lead.Some? ==> disposition == lead.value.disposition
      ensures old(this.lead) == lead || lead.None? ==> disposition == old(disposition)
    {
      if lead != this.lead && lead.Some? {
        disposition := lead.value.disposition;
      }
      this.lead := lead;
    }

    /** The select's `onChange`: only the listed options can be chosen. */
    method Select(value: string)
      requires Valid()
      requires value in Dispositions
      modifies this
      ensures Valid()
      ensures disposition == value && lead == old(lead)
    {
      disposition := value;
    }

    /** Submitting: with no lead nothing is rendered and nothing is saved. */
    method Submit() returns (saved: Option<Lead>)
      requires Valid()
      ensures lead.None? ==> saved.None?
      ensures lead.Some? ==> saved == Some(Saved(lead.value, disposition))
      ensures saved.Some? ==> saved.value.disposition == lead.value.disposition
                              || saved.value.disposition in Dispositions
    {
      if lead.Some? {
        saved := Some(Saved(lead.value, disposition));
      } else {
        saved := None;
      }
    }
  }
}
