/** The SDR's pipeline board, src/app/sdr/kanban/page.tsx: the stage
    arrows, the drag update, returning a lead, and the column buckets with
    their header totals. */
module SdrBoard {

  import opened Optional
  import opened Seqs
  import opened Leads
  import opened LeadFilters

  /** Whose leads the board loads: an administrator may pick an SDR, an SDR
      always sees their own. */
  function TargetSdrId(profile: Profile, selectedSdrId: string): (r: string)
    ensures profile.role == Sdr ==> r == profile.id
    ensures profile.role == Admin ==> r == (if selectedSdrId != "" then selectedSdrId else profile.id)
  {
    if profile.role == Admin && selectedSdrId != "" then selectedSdrId else profile.id
  }

  // ---------------------------------------------------------------------
  // Stage arrows
  // ---------------------------------------------------------------------

  /** The right arrow's stage: the first three stages move one step on;
      every other stage has no successor. */
  function NextStage(s: Option<Status>): Option<Status> {
    match s
    case Some(MeusLeads) => Some(EmQualificacao)
    case Some(EmQualificacao) => Some(PertoReuniao)
    case Some(PertoReuniao) => Some(EncaminhadoReuniao)
    case _ => None
  }

  /** The left arrow's stage. */
  function PrevStage(s: Option<Status>): Option<Status> {
    match s
    case Some(EncaminhadoReuniao) => Some(PertoReuniao)
    case Some(PertoReuniao) => Some(EmQualificacao)
    case Some(EmQualificacao) => Some(MeusLeads)
    case _ => None
  }

  /** The arrows are inverse on the pipeline: back after forward restores
      the first three stages, forward after back the last three, and only
      those stages move. */
  lemma StagesInverse(s: Option<Status>)
    ensures NextStage(s).Some? <==> s in {Some(MeusLeads), Some(EmQualificacao), Some(PertoReuniao)}
    ensures PrevStage(s).Some? <==> s in {Some(EmQualificacao), Some(PertoReuniao), Some(EncaminhadoReuniao)}
    ensures NextStage(s).Some? ==> PrevStage(NextStage(s)) == s
    ensures PrevStage(s).Some? ==> NextStage(PrevStage(s)) == s
  {
  }

  /** The result of an arrow click: the new list and the stage sent to the
      server, if any. */
  datatype Move = Move(leads: seq<Lead>, update: Option<Status>)

  /** The shared shape of `handleAdvance` and `handleRetreat`: find the lead,
      compute its new stage with `step`, and when there is one set it on
      every lead carrying the id. */
  function StepLead(leads: seq<Lead>, leadId: int, step: Option<Status> -> Option<Status>): (r: Move)
    ensures FindById(leads, leadId).None? ==> r == Move(leads, None)
    ensures FindById(leads, leadId).Some? ==> r.update == step(FindById(leads, leadId).value.statusSdr)
    ensures r.update.None? ==> r.leads == leads
    ensures r.update.Some? ==>
      FindById(leads, leadId).Some? &&
      r.update == step(FindById(leads, leadId).value.statusSdr) &&
      r.leads == SetStatusById(leads, leadId, r.update)
  {
    var lead := FindById(leads, leadId);
    if lead.None? then Move(leads, None)
    else
      var newStatus := step(lead.value.statusSdr);
      if newStatus.None? then Move(leads, None)
      else Move(SetStatusById(leads, leadId, newStatus), newStatus)
  }

  /** `handleAdvance`. */
  function Advance(leads: seq<Lead>, leadId: int): (r: Move)
    ensures FindById(leads, leadId).None? ==> r == Move(leads, None)
    ensures FindById(leads, leadId).Some? ==> r.update == NextStage(FindById(leads, leadId).value.statusSdr)
    ensures r.update.None? ==> r.leads == leads
    ensures r.update.Some? ==>
      FindById(leads, leadId).Some? &&
      r.update == NextStage(FindById(leads, leadId).value.statusSdr) &&
      r.leads == SetStatusById(leads, leadId, r.update)
  {
    StepLead(leads, leadId, NextStage)
  }

  /** `handleRetreat`. */
  function Retreat(leads: seq<Lead>, leadId: int): (r: Move)
    ensures FindById(leads, leadId).None? ==> r == Move(leads, None)
    ensures FindById(leads, leadId).Some? ==> r.update == PrevStage(FindById(leads, leadId).value.statusSdr)
    ensures r.update.None? ==> r.leads == leads
    ensures r.update.Some? ==>
      FindById(leads, leadId).Some? &&
      r.update == PrevStage(FindById(leads, leadId).value.statusSdr) &&
      r.leads == SetStatusById(leads, leadId, r.update)
  {
    StepLead(leads, leadId, PrevStage)
  }

  /** Forward then back returns the list to where it was, for a lead in one
      of the first three stages (ids unique). */
  lemma AdvanceThenRetreat(leads: seq<Lead>, i: int)
    requires UniqueIds(leads) && 0 <= i < |leads|
    requires leads[i].statusSdr in {Some(MeusLeads), Some(EmQualificacao), Some(PertoReuniao)}
    ensures Retreat(Advance(leads, leads[i].id).leads, leads[i].id).leads == leads
  {
    var id := leads[i].id;
    FindUnique(leads, id, i);
    StagesInverse(leads[i].statusSdr);
    var a := Advance(leads, id);
    SetStatusKeepsIds(leads, id, a.update);
    FindUnique(a.leads, id, i);
    SetStatusBack(leads, i, a.update);
  }

  /** Back then forward returns the list to where it was, for a lead in one
      of the last three stages (ids unique). */
  lemma RetreatThenAdvance(leads: seq<Lead>, i: int)
    requires UniqueIds(leads) && 0 <= i < |leads|
    requires leads[i].statusSdr in {Some(EmQualificacao), Some(PertoReuniao), Some(EncaminhadoReuniao)}
    ensures Advance(Retreat(leads, leads[i].id).leads, leads[i].id).leads == leads
  {
    var id := leads[i].id;
    FindUnique(leads, id, i);
    StagesInverse(leads[i].statusSdr);
    var a := Retreat(leads, id);
    SetStatusKeepsIds(leads, id, a.update);
    FindUnique(a.leads, id, i);
    SetStatusBack(leads, i, a.update);
  }

  /** A lead at the end of the pipeline, sold, lost or without a stage is
      not moved by the arrow pointing past the end, and no update is sent. */
  lemma ArrowsStopAtEnds(leads: seq<Lead>, i: int)
    requires UniqueIds(leads) && 0 <= i < |leads|
    ensures leads[i].statusSdr !in {Some(MeusLeads), Some(EmQualificacao), Some(PertoReuniao)} ==>
      Advance(leads, leads[i].id) == Move(leads, None)
    ensures leads[i].statusSdr !in {Some(EmQualificacao), Some(PertoReuniao), Some(EncaminhadoReuniao)} ==>
      Retreat(leads, leads[i].id) == Move(leads, None)
  {
    FindUnique(leads, leads[i].id, i);
    StagesInverse(leads[i].statusSdr);
  }

  // ---------------------------------------------------------------------
  // Buckets and totals
  // ---------------------------------------------------------------------

  /** The board's five columns, in render order (sold leads have none). */
  const BoardStatuses: seq<Status> := [MeusLeads, EmQualificacao, PertoReuniao, EncaminhadoReuniao, LeadPerdido]

  /** A column's cards: the filtered leads in that stage, in list order. */
  function Bucket(leads: seq<Lead>, f: FilterState, s: Status): seq<Lead> {
    Filter(FilterLeads(leads, f), HasStatus(s))
  }

  /** A column's header total, over the unfiltered list. */
  function Total(leads: seq<Lead>, s: Status): nat {
    Count(leads, HasStatus(s))
  }

  /** A card is in a column exactly when it passes the filters and has that
      stage, so no card shows in two columns. */
  lemma BucketSpec(leads: seq<Lead>, f: FilterState, s: Status, l: Lead)
    ensures l in Bucket(leads, f, s) <==> l in leads && Keeps(f, l) && l.statusSdr == Some(s)
    ensures forall t :: t != s && l in Bucket(leads, f, s) ==> l !in Bucket(leads, f, t)
  {
    FilterLeadsSpec(leads, f);
    FilterMembership(FilterLeads(leads, f), HasStatus(s), l);
    forall t | t != s && l in Bucket(leads, f, s)
      ensures l !in Bucket(leads, f, t)
    {
      FilterMembership(FilterLeads(leads, f), HasStatus(t), l);
    }
  }

  function KeepsWithStatus(f: FilterState, s: Status): Lead -> bool {
    (l: Lead) => Keeps(f, l) && l.statusSdr == Some(s)
  }

  /** A column never shows more cards than its header total. */
  lemma BucketWithinTotal(leads: seq<Lead>, f: FilterState, s: Status)
    ensures |Bucket(leads, f, s)| <= Total(leads, s)
  {
    FilterCompose(leads, KeepsFor(f), HasStatus(s), KeepsWithStatus(f, s));
    CountMonotone(leads, KeepsWithStatus(f, s), HasStatus(s));
  }

  /** With no filter active each column shows its header total. */
  lemma UnfilteredBucketIsTotal(leads: seq<Lead>, s: Status)
    ensures |Bucket(leads, NoFilters, s)| == Total(leads, s)
  {
    NoFiltersKeepAll(leads);
  }

  /** The five header totals never exceed the number of leads loaded. */
  lemma HeaderTotalsBounded(leads: seq<Lead>)
    ensures Total(leads, MeusLeads) + Total(leads, EmQualificacao) + Total(leads, PertoReuniao)
      + Total(leads, EncaminhadoReuniao) + Total(leads, LeadPerdido) <= |leads|
  {
    StatusCountsSum(leads);
  }

  // ---------------------------------------------------------------------
  // Drag and return
  // ---------------------------------------------------------------------

  /** After a drag to another place, the dragged lead shows in the
      destination column (ids unique, filters permitting). */
  lemma DragLandsInColumn(leads: seq<Lead>, i: int, source: Location, dest: Location, f: FilterState)
    requires UniqueIds(leads) && 0 <= i < |leads| && dest != source
    requires Keeps(f, leads[i])
    ensures leads[i].(statusSdr := Some(dest.droppableId)) in Bucket(DragEnd(leads, Some(dest), source, leads[i].id), f, dest.droppableId)
  {
    var r := DragEnd(leads, Some(dest), source, leads[i].id);
    var moved := leads[i].(statusSdr := Some(dest.droppableId));
    assert r[i] == moved;
    assert Keeps(f, moved);
    BucketSpec(r, f, dest.droppableId, moved);
  }

  /** `handleDevolver`: the lead leaves the board at once. */
  function ReturnLead(leads: seq<Lead>, leadId: int): (r: seq<Lead>)
    ensures IsSubseq(r, leads)
    ensures forall l :: l in r <==> l in leads && l.id != leadId
    ensures forall i :: 0 <= i < |r| ==> r[i].id != leadId
  {
    RemoveById(leads, leadId)
  }
}
