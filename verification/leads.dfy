/** The records of src/lib/leads.ts, reduced to the fields the pages read,
    and the optimistic list updates the pages apply after a successful call
    (`prev.map(l => l.id === id ? {...l, ...} : l)`, `prev.filter(l => l.id !== id)`,
    `leads.find(l => l.id === id)`). */
module Leads {

  import opened Optional
  import opened Seqs
  import opened Kanban

  /** `status_sdr`: the stage of a lead in its SDR's pipeline
      ('MEUS_LEADS', 'QUALIFICACAO', 'PERTO_REUNIAO', 'ENCAMINHADO_REUNIAO',
      'VENDEU', 'LEAD_PERDIDO'). */
  datatype Status = MeusLeads | EmQualificacao | PertoReuniao | EncaminhadoReuniao | Vendeu | LeadPerdido

  datatype Role = Admin | Sdr

  /** A lead. `createdDay` is the UTC calendar day of `created_at` as the
      pages compute it (`toISOString().split('T')[0]`, "yyyy-MM-dd"). */
  datatype Lead = Lead(
    id: int,
    nome: string,
    tipoHospedagem: Option<string>,
    faturamentoMedio: Option<string>,
    ownerSdrId: Option<string>,
    statusSdr: Option<Status>,
    fonte: Option<string>,
    origem: Option<string>,
    createdDay: string)

  /** A user profile; `visibleQualifications` may be missing in a stored row. */
  datatype Profile = Profile(
    id: string,
    name: string,
    email: Option<string>,
    role: Role,
    visibleQualifications: Option<seq<Qualificacao>>)

  /** `!!l.owner_sdr_id`: a missing or empty owner both mean unassigned. */
  predicate IsAssigned(l: Lead) {
    l.ownerSdrId.Some? && l.ownerSdrId.value != ""
  }

  function Assigned(): Lead -> bool {
    (l: Lead) => IsAssigned(l)
  }

  function Unassigned(): Lead -> bool {
    (l: Lead) => !IsAssigned(l)
  }

  /** The lead's column on the global board. */
  function LeadColumn(l: Lead): Coluna {
    Classify(l.tipoHospedagem, l.faturamentoMedio, l.fonte).coluna
  }

  function HasStatus(s: Status): Lead -> bool {
    (l: Lead) => l.statusSdr == Some(s)
  }

  function HasId(id: int): Lead -> bool {
    (l: Lead) => l.id == id
  }

  function LacksId(id: int): Lead -> bool {
    (l: Lead) => l.id != id
  }

  /** No two leads share an id (ids are the table's primary key). */
  predicate UniqueIds(leads: seq<Lead>) {
    forall i, j :: 0 <= i < j < |leads| ==> leads[i].id != leads[j].id
  }

  function NoStatus(): Lead -> bool {
    (l: Lead) => l.statusSdr.None?
  }

  /** Every lead is in exactly one stage, or has none. */
  lemma {:induction false} StatusCountsSum(leads: seq<Lead>)
    ensures Count(leads, HasStatus(MeusLeads)) + Count(leads, HasStatus(EmQualificacao))
      + Count(leads, HasStatus(PertoReuniao)) + Count(leads, HasStatus(EncaminhadoReuniao))
      + Count(leads, HasStatus(Vendeu)) + Count(leads, HasStatus(LeadPerdido))
      + Count(leads, NoStatus()) == |leads|
  {
    if |leads| > 0 {
      StatusCountsSum(leads[1..]);
      CountCons(leads, HasStatus(MeusLeads));
      CountCons(leads, HasStatus(EmQualificacao));
      CountCons(leads, HasStatus(PertoReuniao));
      CountCons(leads, HasStatus(EncaminhadoReuniao));
      CountCons(leads, HasStatus(Vendeu));
      CountCons(leads, HasStatus(LeadPerdido));
      CountCons(leads, NoStatus());
      match leads[0].statusSdr {
        case None =>
        case Some(MeusLeads) =>
        case Some(EmQualificacao) =>
        case Some(PertoReuniao) =>
        case Some(EncaminhadoReuniao) =>
        case Some(Vendeu) =>
        case Some(LeadPerdido) =>
      }
    }
  }

  /** `prev.map(l => l.id === id ? f(l) : l)`. */
  function UpdateById(leads: seq<Lead>, id: int, f: Lead -> Lead): (r: seq<Lead>)
    ensures |r| == |leads|
    ensures forall i :: 0 <= i < |leads| && leads[i].id != id ==> r[i] == leads[i]
    ensures forall i :: 0 <= i < |leads| && leads[i].id == id ==> r[i] == f(leads[i])
  {
    if |leads| == 0 then []
    else [if leads[0].id == id then f(leads[0]) else leads[0]] + UpdateById(leads[1..], id, f)
  }

  /** With no lead carrying the id, the update changes nothing. */
  lemma UpdateUnknownId(leads: seq<Lead>, id: int, f: Lead -> Lead)
    requires forall i :: 0 <= i < |leads| ==> leads[i].id != id
    ensures UpdateById(leads, id, f) == leads
  {
  }

  /** The status update the boards apply: `{...l, status_sdr: s}`. */
  function WithStatus(s: Option<Status>): Lead -> Lead {
    (l: Lead) => l.(statusSdr := s)
  }

  function SetStatusById(leads: seq<Lead>, id: int, s: Option<Status>): seq<Lead> {
    UpdateById(leads, id, WithStatus(s))
  }

  /** Setting a lead's stage keeps every id, so unique ids stay unique. */
  lemma SetStatusKeepsIds(leads: seq<Lead>, leadId: int, s: Option<Status>)
    ensures var r := SetStatusById(leads, leadId, s);
      |r| == |leads| && forall i :: 0 <= i < |r| ==> r[i].id == leads[i].id
  {
  }

  /** Setting the stage a lead already has, on the only lead with its id,
      changes nothing; a second setting overrides the first. */
  lemma SetStatusBack(leads: seq<Lead>, i: int, s: Option<Status>)
    requires UniqueIds(leads) && 0 <= i < |leads|
    ensures SetStatusById(SetStatusById(leads, leads[i].id, s), leads[i].id, leads[i].statusSdr) == leads
  {
    var id := leads[i].id;
    var r := SetStatusById(SetStatusById(leads, id, s), id, leads[i].statusSdr);
    forall k | 0 <= k < |leads|
      ensures r[k] == leads[k]
    {
      if leads[k].id == id {
        assert k == i;
      }
    }
  }

  /** `prev.filter(l => l.id !== id)`. */
  function RemoveById(leads: seq<Lead>, id: int): (r: seq<Lead>)
    ensures IsSubseq(r, leads)
    ensures forall l :: l in r <==> l in leads && l.id != id
  {
    FilterIsSubseq(leads, LacksId(id));
    forall l ensures l in Filter(leads, LacksId(id)) <==> l in leads && l.id != id {
      FilterMembership(leads, LacksId(id), l);
    }
    Filter(leads, LacksId(id))
  }

  /** `leads.find(l => l.id === id)`. */
  function FindById(leads: seq<Lead>, id: int): (r: Option<Lead>)
    ensures r.None? <==> forall i :: 0 <= i < |leads| ==> leads[i].id != id
    ensures r.Some? ==> r.value in leads && r.value.id == id
  {
    Find(leads, HasId(id))
  }

  /** With unique ids the lead found is the only one carrying the id. */
  lemma FindUnique(leads: seq<Lead>, id: int, i: int)
    requires UniqueIds(leads) && 0 <= i < |leads| && leads[i].id == id
    ensures FindById(leads, id) == Some(leads[i])
  {
    var r := FindById(leads, id);
    var j :| FirstAt(leads, HasId(id), j) && leads[j] == r.value;
    assert j == i;
  }

  /** With unique ids exactly one lead carries the id of `leads[i]`. */
  lemma {:induction false} UniqueIdFilter(leads: seq<Lead>, i: int)
    requires UniqueIds(leads) && 0 <= i < |leads|
    ensures Filter(leads, HasId(leads[i].id)) == [leads[i]]
  {
    var id := leads[i].id;
    if i == 0 {
      FilterNoneKept(leads[1..], HasId(id));
    } else {
      UniqueIdFilter(leads[1..], i - 1);
    }
  }

  /** Where a drag ends: a column (named after a status) and a position. */
  datatype Location = Location(droppableId: Status, index: int)

  /** `handleDragEnd` on the SDR and community boards: a drop outside any
      column, or back where the card started, changes nothing; otherwise the
      dragged lead takes the destination column's status. */
  function DragEnd(leads: seq<Lead>, destination: Option<Location>, source: Location, leadId: int): (r: seq<Lead>)
    ensures destination.None? || destination.value == source ==> r == leads
    ensures destination.Some? && destination.value != source ==>
      |r| == |leads| &&
      forall i :: 0 <= i < |leads| ==>
        r[i] == (if leads[i].id == leadId then leads[i].(statusSdr := Some(destination.value.droppableId)) else leads[i])
  {
    if destination.None? || (destination.value.droppableId == source.droppableId && destination.value.index == source.index) then
      leads
    else
      SetStatusById(leads, leadId, Some(destination.value.droppableId))
  }
}
