/** The "Request Review" page: choosing one of the proposals made on a service request. */
module RequestReview {
  import opened Common

  /** Proposal ids are pairwise different. */
  predicate Distinct(ids: seq<int>) {
    forall i, j :: 0 <= i < j < |ids| ==> ids[i] != ids[j]
  }

  /** How a proposal card renders for a given selection. */
  datatype CardView = CardView(
    highlighted: bool,      // the `ring-2 ring-primary` frame
    acceptedBadge: bool,    // the "Accepted" badge and "Call Now" button instead of "Accept Proposal"
    acceptEnabled: bool)    // the "Accept Proposal" button is shown and not disabled

  /** The card of proposal `id` when `selected` is the current selection. */
  function Card(selected: Option<int>, id: int): (c: CardView)
    ensures c.acceptedBadge <==> selected == Some(id)
    ensures c.highlighted <==> c.acceptedBadge
    ensures c.acceptEnabled <==> selected.None?
  {
    var accepted := selected == Some(id);
    CardView(accepted, accepted, !accepted && selected == None)
  }

  /** With distinct ids, at most one card shows the badge (and so at most one is highlighted). */
  lemma AtMostOneAcceptedCard(selected: Option<int>, ids: seq<int>)
    requires Distinct(ids)
    ensures forall i, j | 0 <= i < |ids| && 0 <= j < |ids| ::
              Card(selected, ids[i]).acceptedBadge && Card(selected, ids[j]).acceptedBadge ==> i == j
  {
  }

  /** The page's `selectedProposal` state cell. */
  class ProposalReview {
    const proposalIds: seq<int>
    var selectedProposal: Option<int>
    /** Every proposal accepted so far, oldest first. */
    ghost var acceptances: seq<int>

    /** At most one acceptance, and the selection is the proposal accepted. */
    ghost predicate Valid()
      reads this
    {
      |acceptances| <= 1 &&
      (selectedProposal.None? <==> acceptances == []) &&
      (selectedProposal.Some? ==> selectedProposal.value == acceptances[0] && acceptances[0] in proposalIds)
    }

    /** `useState<number | null>(null)`. */
    constructor (ids: seq<int>)
      ensures proposalIds == ids
      ensures selectedProposal == None && acceptances == []
      ensures Valid()
    {
      proposalIds := ids;
      selectedProposal := None;
      acceptances := [];
    }

    function AcceptEnabled(): bool
      reads this
    {
      selectedProposal.None?
    }

    /** `handleAcceptProposal(id)`: the handler itself sets the selection unconditionally. */
    method HandleAcceptProposal(id: int) returns (t: Toast)
      modifies this
      ensures selectedProposal == Some(id)
      ensures acceptances == old(acceptances) + [id]
      ensures t.title == "Proposal Accepted!"
    {
      selectedProposal := Some(id);
      acceptances := acceptances + [id];
      t := Toast("Proposal Accepted!", "The professional has been notified and will contact you shortly.", false);
    }

    /**
     * A click on a proposal card's "Accept Proposal" button. The button is
     * disabled once a proposal is selected, so the handler runs only for the
     * first acceptance and the selection never changes or resets afterwards.
     */
    method PressAccept(id: int) returns (accepted: bool)
      requires Valid() && id in proposalIds
      modifies this
      ensures Valid()
      ensures accepted <==> old(selectedProposal).None?
      ensures accepted ==> selectedProposal == Some(id)
      ensures !accepted ==> selectedProposal == old(selectedProposal) && acceptances == old(acceptances)
    {
      accepted := AcceptEnabled();
      if accepted {
        var _ := HandleAcceptProposal(id);
      }
    }

    /** `handleContactWorker(workerName, method)`: a toast, and the selection is not touched. */
    method HandleContactWorker(workerName: string, via: string) returns (t: Toast)
      ensures t.title == "Contacting " + workerName
      ensures t.description == "Opening " + via + " to reach out to the professional."
    {
      t := Toast("Contacting " + workerName, "Opening " + via + " to reach out to the professional.", false);
    }
  }

  /** However many clicks follow, the first accepted proposal stays the only one. */
  method AcceptTwice(ids: seq<int>, first: int, second: int) returns (selection: Option<int>, secondAccepted: bool)
    requires first in ids && second in ids
    ensures selection == Some(first) && !secondAccepted
  {
    var page := new ProposalReview(ids);
    var ok := page.PressAccept(first);
    secondAccepted := page.PressAccept(second);
    var _ := page.HandleContactWorker("John Smith", "phone");
    selection := page.selectedProposal;
  }
}
