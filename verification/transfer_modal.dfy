/** The lead-transfer dialog of src/components/TransferLeadsModal.tsx: the
    selection handlers, the name search, the destination mapping, the guards
    of the two transfer buttons and the reset on close. Loading an SDR's
    leads is the `loaded` argument (None when the query failed); the
    transfers themselves are the `TransferCall` returned. */
module TransferModal {

  import opened Optional
  import opened Strings
  import opened Seqs
  import opened Leads
  import LeadFilters

  datatype State = State(
    fromSdrId: string,
    toSdrId: string,
    leads: seq<Lead>,
    selected: set<int>,
    searchTerm: string,
    failed: bool)

  const Closed: State := State("", "", [], {}, "", false)

  /** `handleClose`: every field back to its initial value. */
  function Close(st: State): (r: State)
    ensures r.fromSdrId == "" && r.toSdrId == "" && r.leads == [] && r.selected == {}
    ensures r.searchTerm == "" && !r.failed
  {
    Closed
  }

  /** The effect run when the source SDR changes: a chosen SDR's leads are
      loaded with an empty selection; a failed load empties the list and
      flags the error but leaves the selection as it was; no SDR empties
      both. */
  function ChooseSource(st: State, sdrId: string, loaded: Option<seq<Lead>>): (r: State)
    ensures r.fromSdrId == sdrId && r.toSdrId == st.toSdrId && r.searchTerm == st.searchTerm
    ensures sdrId == "" ==> r.leads == [] && r.selected == {}
    ensures sdrId != "" && loaded.Some? ==> r.leads == loaded.value && r.selected == {} && !r.failed
    ensures sdrId != "" && loaded.None? ==> r.leads == [] && r.selected == st.selected && r.failed
  {
    var st := st.(fromSdrId := sdrId);
    if sdrId == "" then st.(leads := [], selected := {})
    else if loaded.Some? then st.(leads := loaded.value, selected := {}, failed := false)
    else st.(leads := [], failed := true)
  }

  /** `toggleLeadSelection`: flips whether one id is selected. */
  function ToggleSelection(selected: set<int>, leadId: int): (r: set<int>)
    ensures leadId in r <==> leadId !in selected
    ensures forall x :: x != leadId ==> (x in r <==> x in selected)
  {
    if leadId in selected then selected - {leadId} else selected + {leadId}
  }

  lemma ToggleSelectionTwice(selected: set<int>, leadId: int)
    ensures ToggleSelection(ToggleSelection(selected, leadId), leadId) == selected
  {
  }

  predicate NameContains(l: Lead, term: string) {
    Contains(ToLower(l.nome), ToLower(term))
  }

  function SearchFor(term: string): Lead -> bool {
    (l: Lead) => NameContains(l, term)
  }

  /** `filteredLeads`: the leads whose name contains the search term,
      ignoring case, in list order. */
  function FilteredLeads(leads: seq<Lead>, term: string): (r: seq<Lead>)
    ensures IsSubseq(r, leads)
    ensures forall l :: l in r <==> l in leads && NameContains(l, term)
  {
    FilterIsSubseq(leads, SearchFor(term));
    forall l ensures l in Filter(leads, SearchFor(term)) <==> l in leads && NameContains(l, term) {
      FilterMembership(leads, SearchFor(term), l);
    }
    Filter(leads, SearchFor(term))
  }

  /** The search is the same test as the boards' name search. */
  lemma SearchAgreesWithBoards(leads: seq<Lead>, term: string)
    ensures FilteredLeads(leads, term) == LeadFilters.FilterLeads(leads, LeadFilters.NoFilters.(searchTerm := term))
  {
    var f := LeadFilters.NoFilters.(searchTerm := term);
    forall i | 0 <= i < |leads|
      ensures SearchFor(term)(leads[i]) == LeadFilters.KeepsFor(f)(leads[i])
    {
      if term == "" {
        ContainsEmpty(ToLower(leads[i].nome));
      }
    }
    FilterCongruent(leads, SearchFor(term), LeadFilters.KeepsFor(f));
  }

  /** `selectAll`: exactly the ids of the leads the search shows. */
  function SelectAll(leads: seq<Lead>, term: string): (r: set<int>)
    ensures forall id :: id in r <==> exists l :: l in leads && NameContains(l, term) && l.id == id
  {
    set l | l in FilteredLeads(leads, term) :: l.id
  }

  /** `deselectAll`. */
  function DeselectAll(): (r: set<int>)
    ensures |r| == 0
  {
    {}
  }

  /** With an empty search every loaded lead is selected. */
  lemma SelectAllWithoutSearch(leads: seq<Lead>)
    ensures forall id :: id in SelectAll(leads, "") <==> exists l :: l in leads && l.id == id
  {
    forall l | l in leads ensures NameContains(l, "") {
      ContainsEmpty(ToLower(l.nome));
    }
  }

  /** The destination value naming no SDR. */
  const UnassignedOption: string := "unassigned"

  /** `toSdrId === 'unassigned' ? null : toSdrId`. */
  function Destination(toSdrId: string): (r: Option<string>)
    ensures r.None? <==> toSdrId == UnassignedOption
    ensures r.Some? ==> r.value == toSdrId
  {
    if toSdrId == UnassignedOption then None else Some(toSdrId)
  }

  /** The two transfer requests: all of a source SDR's leads, or the
      selected ids; the destination None releases the leads. */
  datatype TransferCall =
    | TransferAll(fromSdrId: string, destination: Option<string>)
    | TransferSelected(leadIds: set<int>, destination: Option<string>)

  /** `handleTransferAll`: needs a source SDR and a chosen destination. */
  function TransferAllCall(st: State): (r: Option<TransferCall>)
    ensures r.Some? <==> st.fromSdrId != "" && st.toSdrId != ""
    ensures r.Some? ==> r.value.TransferAll? && r.value.fromSdrId == st.fromSdrId
    ensures r.Some? ==> (r.value.destination.None? <==> st.toSdrId == UnassignedOption)
  {
    if st.fromSdrId == "" || st.toSdrId == "" then None
    else Some(TransferAll(st.fromSdrId, Destination(st.toSdrId)))
  }

  /** `handleTransferSelected`: needs a non-empty selection and a chosen
      destination; the source SDR is not checked. */
  function TransferSelectedCall(st: State): (r: Option<TransferCall>)
    ensures r.Some? <==> |st.selected| > 0 && st.toSdrId != ""
    ensures r.Some? ==> r.value.TransferSelected? && r.value.leadIds == st.selected
    ensures r.Some? ==> (r.value.destination.None? <==> st.toSdrId == UnassignedOption)
  {
    if |st.selected| == 0 || st.toSdrId == "" then None
    else Some(TransferSelected(st.selected, Destination(st.toSdrId)))
  }

  /** The selection is not narrowed by the search: leads hidden by a later
      search are still transferred. */
  lemma SearchDoesNotNarrowTransfer(st: State, term: string)
    ensures TransferSelectedCall(st.(searchTerm := term)) == TransferSelectedCall(st)
  {
  }

  /** A failed load keeps the earlier SDR's selection, which the selected
      transfer then still sends. */
  lemma FailedLoadKeepsSelection(st: State, sdrId: string)
    requires sdrId != "" && |st.selected| > 0 && st.toSdrId != ""
    ensures TransferSelectedCall(ChooseSource(st, sdrId, None)) == TransferSelectedCall(st)
  {
  }

  function IsSdrProfile(): Profile -> bool {
    (p: Profile) => p.role == Sdr
  }

  function NotId(id: string): Profile -> bool {
    (p: Profile) => p.id != id
  }

  function ProfileId(p: Profile): string {
    p.id
  }

  /** The source options: every SDR profile, in list order. */
  function SourceOptions(sdrs: seq<Profile>): (r: seq<string>)
    ensures forall id :: id in r <==> exists p :: p in sdrs && p.role == Sdr && p.id == id
  {
    var kept := Filter(sdrs, IsSdrProfile());
    forall p ensures p in kept <==> p in sdrs && p.role == Sdr {
      FilterMembership(sdrs, IsSdrProfile(), p);
    }
    Map(kept, ProfileId)
  }

  /** The destination options: "unassigned" first, then every SDR profile
      other than the source SDR. */
  function DestinationOptions(sdrs: seq<Profile>, fromSdrId: string): (r: seq<string>)
    ensures |r| > 0 && r[0] == UnassignedOption
    ensures forall id :: id in r[1..] <==> exists p :: p in sdrs && p.role == Sdr && p.id != fromSdrId && p.id == id
  {
    var available := Filter(sdrs, NotId(fromSdrId));
    var kept := Filter(available, IsSdrProfile());
    forall p ensures p in kept <==> p in sdrs && p.role == Sdr && p.id != fromSdrId {
      FilterMembership(sdrs, NotId(fromSdrId), p);
      FilterMembership(available, IsSdrProfile(), p);
    }
    var ids := Map(kept, ProfileId);
    assert ([UnassignedOption] + ids)[1..] == ids;
    [UnassignedOption] + ids
  }

  /** The source SDR is never offered as its own destination. */
  lemma SourceNotADestination(sdrs: seq<Profile>, fromSdrId: string)
    ensures fromSdrId !in DestinationOptions(sdrs, fromSdrId)[1..]
  {
  }
}
