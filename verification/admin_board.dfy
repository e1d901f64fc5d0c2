/** The administrator's global board, src/app/admin/kanban/page.tsx: the
    view selector, column visibility, and the list updates applied after the
    assignment and deletion calls succeed or fail. */
module AdminBoard {

  import opened Optional
  import opened Seqs
  import opened Kanban
  import opened Leads
  import opened LeadFilters

  // ---------------------------------------------------------------------
  // Views
  // ---------------------------------------------------------------------

  /** The view selector's two fixed values; any other value is an SDR id. */
  const AllView: string := "todos"
  const UnassignedView: string := "nao_atribuidos"

  function OwnedBy(sdrId: string): Lead -> bool {
    (l: Lead) => l.ownerSdrId == Some(sdrId)
  }

  /** The view part of `getFilteredLeads`. */
  function ViewFilter(leads: seq<Lead>, view: string): seq<Lead> {
    if view == UnassignedView then Filter(leads, Unassigned())
    else if view != AllView then Filter(leads, OwnedBy(view))
    else leads
  }

  /** The view chosen, then the filter bar. */
  function VisibleLeads(leads: seq<Lead>, view: string, f: FilterState): seq<Lead> {
    FilterLeads(ViewFilter(leads, view), f)
  }

  /** A lead shows exactly when it belongs to the view and passes the
      filters; the board keeps the list's order. */
  lemma VisibleLeadsSpec(leads: seq<Lead>, view: string, f: FilterState, l: Lead)
    ensures l in VisibleLeads(leads, view, f) <==>
      l in leads && Keeps(f, l) &&
      (if view == UnassignedView then !IsAssigned(l)
       else view == AllView || l.ownerSdrId == Some(view))
    ensures IsSubseq(VisibleLeads(leads, view, f), ViewFilter(leads, view))
  {
    FilterLeadsSpec(ViewFilter(leads, view), f);
    if view == UnassignedView {
      FilterMembership(leads, Unassigned(), l);
    } else if view != AllView {
      FilterMembership(leads, OwnedBy(view), l);
    }
  }

  /** `hasActiveFilters`. */
  predicate HasActiveFilters(f: FilterState) {
    f.searchTerm != "" || f.dateFrom != "" || f.dateTo != "" || f.tipoHospedagem != ""
    || f.origem != "" || f.fonte != "" || f.classificacao != ""
  }

  /** Without an active filter the board shows the whole view. */
  lemma InactiveFiltersShowView(leads: seq<Lead>, view: string, f: FilterState)
    requires !HasActiveFilters(f)
    ensures VisibleLeads(leads, view, f) == ViewFilter(leads, view)
  {
    assert f == NoFilters;
    NoFiltersKeepAll(ViewFilter(leads, view));
  }

  /** `totalLeads`. */
  function TotalLeads(leads: seq<Lead>): nat {
    |leads|
  }

  /** `naoAtribuidos`. */
  function UnassignedCount(leads: seq<Lead>): nat {
    Count(leads, Unassigned())
  }

  /** `sdrLeadsCount` on each SDR's view button. */
  function SdrLeadsCount(leads: seq<Lead>, sdrId: string): nat {
    Count(leads, OwnedBy(sdrId))
  }

  /** The counts on the view buttons are the sizes of the unfiltered
      views. */
  lemma ButtonCountsMatchViews(leads: seq<Lead>, sdrId: string)
    requires sdrId != AllView && sdrId != UnassignedView
    ensures |ViewFilter(leads, AllView)| == TotalLeads(leads)
    ensures |ViewFilter(leads, UnassignedView)| == UnassignedCount(leads)
    ensures |ViewFilter(leads, sdrId)| == SdrLeadsCount(leads, sdrId)
  {
  }

  /** A lead owned by an SDR (SDR ids are never empty) is not counted as
      unassigned: the two counts never exceed the total. */
  lemma SdrAndUnassignedDisjoint(leads: seq<Lead>, sdrId: string)
    requires sdrId != ""
    ensures SdrLeadsCount(leads, sdrId) + UnassignedCount(leads) <= TotalLeads(leads)
  {
    CountDisjoint(leads, OwnedBy(sdrId), Unassigned(), (l: Lead) => OwnedBy(sdrId)(l) || Unassigned()(l));
  }

  // ---------------------------------------------------------------------
  // Column visibility
  // ---------------------------------------------------------------------

  function EntryFor(c: Coluna): ((Qualificacao, Coluna)) -> bool {
    (e: (Qualificacao, Coluna)) => e.1 == c
  }

  /** The reverse lookup in the tier-to-column entries finds the column's
      tier. */
  lemma EntryLookup(c: Coluna)
    ensures Find(QualificationEntries, EntryFor(c)) == Some((ColumnToQualification(c), c))
  {
    QualificationEntriesAgree();
    QualificationToColumnBijective();
    var q := ColumnToQualification(c);
    assert (q, QualificationToColumn(q)) in QualificationEntries;
    var r := Find(QualificationEntries, EntryFor(c));
    var i :| 0 <= i < |QualificationEntries| && QualificationEntries[i] == (q, c);
    assert EntryFor(c)(QualificationEntries[i]);
    var j :| FirstAt(QualificationEntries, EntryFor(c), j) && QualificationEntries[j] == r.value;
    assert QualificationToColumn(QualificationEntries[j].0) == c;
  }

  /** `podeVerCardsColuna`: administrators see every column; anyone else
      sees a column when its tier is among the profile's visible tiers; with
      no profile, or no stored tiers, nothing is visible. */
  function CanSeeColumn(profile: Option<Profile>, c: Coluna): (r: bool)
    ensures r <==> (profile.Some? &&
      (profile.value.role == Admin ||
       (profile.value.visibleQualifications.Some? &&
        CanSeeQualification(profile.value.visibleQualifications.value, ColumnToQualification(c)))))
  {
    if profile.Some? && profile.value.role == Admin then true
    else
      var entry := Find(QualificationEntries, EntryFor(c));
      EntryLookup(c);
      profile.Some? && profile.value.visibleQualifications.Some? && entry.Some?
      && entry.value.0 in profile.value.visibleQualifications.value
  }

  // ---------------------------------------------------------------------
  // Assignment
  // ---------------------------------------------------------------------

  /** `{...l, owner_sdr_id: sdrId, status_sdr: 'MEUS_LEADS'}`. */
  function AssignTo(sdrId: string): Lead -> Lead {
    (l: Lead) => l.(ownerSdrId := Some(sdrId), statusSdr := Some(MeusLeads))
  }

  /** `{...l, owner_sdr_id: null, status_sdr: null}`. */
  function Release(): Lead -> Lead {
    (l: Lead) => l.(ownerSdrId := None, statusSdr := None)
  }

  /** `handleConfirmAtribuir` and `handleReassign` (the same update): the
      lead goes to the SDR's first column; every other lead is untouched. */
  function Assign(leads: seq<Lead>, leadId: int, sdrId: string): (r: seq<Lead>)
    ensures |r| == |leads|
    ensures forall i :: 0 <= i < |leads| ==>
      if leads[i].id == leadId then
        r[i].ownerSdrId == Some(sdrId) && r[i].statusSdr == Some(MeusLeads)
        && r[i].(ownerSdrId := leads[i].ownerSdrId, statusSdr := leads[i].statusSdr) == leads[i]
      else r[i] == leads[i]
  {
    UpdateById(leads, leadId, AssignTo(sdrId))
  }

  /** `handleUnassign`: the lead loses its owner and its stage. */
  function Unassign(leads: seq<Lead>, leadId: int): (r: seq<Lead>)
    ensures |r| == |leads|
    ensures forall i :: 0 <= i < |leads| ==>
      if leads[i].id == leadId then
        r[i].ownerSdrId.None? && r[i].statusSdr.None?
        && r[i].(ownerSdrId := leads[i].ownerSdrId, statusSdr := leads[i].statusSdr) == leads[i]
      else r[i] == leads[i]
  {
    UpdateById(leads, leadId, Release())
  }

  /** `handlePuxarParaMim`: without a profile nothing happens; otherwise the
      lead is assigned to the signed-in user. */
  function PullToMe(leads: seq<Lead>, profile: Option<Profile>, leadId: int): (r: seq<Lead>)
    ensures profile.None? ==> r == leads
    ensures profile.Some? ==> r == Assign(leads, leadId, profile.value.id)
  {
    if profile.None? then leads else UpdateById(leads, leadId, AssignTo(profile.value.id))
  }

  /** Assigning twice to the same SDR is assigning once. */
  lemma AssignIdempotent(leads: seq<Lead>, leadId: int, sdrId: string)
    ensures Assign(Assign(leads, leadId, sdrId), leadId, sdrId) == Assign(leads, leadId, sdrId)
  {
    var a := Assign(leads, leadId, sdrId);
    var b := Assign(a, leadId, sdrId);
    assert forall i :: 0 <= i < |b| ==> b[i] == a[i];
  }

  /** Reassigning overrides the previous assignment. */
  lemma ReassignOverrides(leads: seq<Lead>, leadId: int, s1: string, s2: string)
    ensures Assign(Assign(leads, leadId, s1), leadId, s2) == Assign(leads, leadId, s2)
  {
    var a := Assign(Assign(leads, leadId, s1), leadId, s2);
    var b := Assign(leads, leadId, s2);
    assert forall i :: 0 <= i < |a| ==> a[i] == b[i];
  }

  /** Unassigning undoes any assignment: the owner and stage the lead had
      before do not matter. */
  lemma UnassignAfterAssign(leads: seq<Lead>, leadId: int, sdrId: string)
    ensures Unassign(Assign(leads, leadId, sdrId), leadId) == Unassign(leads, leadId)
  {
    var a := Unassign(Assign(leads, leadId, sdrId), leadId);
    var b := Unassign(leads, leadId);
    assert forall i :: 0 <= i < |a| ==> a[i] == b[i];
  }

  /** Unassigning never lowers the unassigned count, and assigning to an
      SDR never raises it. */
  lemma UnassignedCountMoves(leads: seq<Lead>, leadId: int, sdrId: string)
    requires sdrId != ""
    ensures UnassignedCount(Unassign(leads, leadId)) >= UnassignedCount(leads)
    ensures UnassignedCount(Assign(leads, leadId, sdrId)) <= UnassignedCount(leads)
  {
    CountPointwise(leads, Unassign(leads, leadId), Unassigned());
    CountPointwise(Assign(leads, leadId, sdrId), leads, Unassigned());
  }

  // ---------------------------------------------------------------------
  // Deletion
  // ---------------------------------------------------------------------

  /** `handleDeleteLead`, before the call: the lead saved for the rollback
      and the optimistic list without it. */
  function DeleteOptimistic(leads: seq<Lead>, leadId: int): (r: (Option<Lead>, seq<Lead>))
    ensures r.0.None? <==> forall i :: 0 <= i < |leads| ==> leads[i].id != leadId
    ensures r.0.Some? ==> r.0.value in leads && r.0.value.id == leadId
    ensures IsSubseq(r.1, leads)
    ensures forall l :: l in r.1 <==> l in leads && l.id != leadId
  {
    (FindById(leads, leadId), RemoveById(leads, leadId))
  }

  /** The rollback after a failed call: the saved lead is appended to the
      current list. */
  function DeleteRollback(current: seq<Lead>, saved: Option<Lead>): (r: seq<Lead>)
    ensures saved.None? ==> r == current
    ensures saved.Some? ==> |r| == |current| + 1 && r[..|current|] == current && r[|current|] == saved.value
  {
    if saved.Some? then current + [saved.value] else current
  }

  /** With unique ids a failed deletion restores the same leads. */
  lemma DeleteRollbackRestores(leads: seq<Lead>, leadId: int)
    requires UniqueIds(leads)
    ensures var (saved, rest) := DeleteOptimistic(leads, leadId);
      multiset(DeleteRollback(rest, saved)) == multiset(leads)
  {
    var (saved, rest) := DeleteOptimistic(leads, leadId);
    assert rest == Filter(leads, LacksId(leadId));
    FilterSplitMultiset(leads, HasId(leadId), LacksId(leadId));
    if saved.Some? {
      var i :| 0 <= i < |leads| && leads[i] == saved.value;
      UniqueIdFilter(leads, i);
      assert multiset(Filter(leads, HasId(leadId))) == multiset([saved.value]);
      assert DeleteRollback(rest, saved) == rest + [saved.value];
    } else {
      FilterNoneKept(leads, HasId(leadId));
      assert DeleteRollback(rest, saved) == rest;
    }
  }

  /** The rollback does not restore the order: the lead comes back last. */
  lemma DeleteRollbackReorders(a: Lead, b: Lead)
    requires a.id != b.id
    ensures var (saved, rest) := DeleteOptimistic([a, b], a.id);
      DeleteRollback(rest, saved) == [b, a]
  {
    var (saved, rest) := DeleteOptimistic([a, b], a.id);
    assert FindById([a, b], a.id) == Some(a);
    assert RemoveById([a, b], a.id) == [b];
  }
}
