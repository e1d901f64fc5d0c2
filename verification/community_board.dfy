/** The community board, src/app/sdr/comunidade/page.tsx: an SDR's leads
    from the community source on a two-column board (open, sold). */
module CommunityBoard {

  import opened Optional
  import opened Strings
  import opened Seqs
  import opened Kanban
  import opened Leads
  import opened LeadFilters
  import opened SdrBoard

  /** The filter applied when the board loads (and after a failed drag or
      return): the source lower-cases to "comunidade". */
  function FromCommunity(): Lead -> bool {
    (l: Lead) => l.fonte.Some? && l.fonte.value != "" && ToLower(l.fonte.value) == "comunidade"
  }

  /** The filter applied after a failed sale or reopen: the source is
      exactly "comunidade". */
  function FromCommunityExact(): Lead -> bool {
    (l: Lead) => l.fonte == Some("comunidade")
  }

  function LoadCommunity(fetched: seq<Lead>): seq<Lead> {
    Filter(fetched, FromCommunity())
  }

  function RefetchExact(fetched: seq<Lead>): seq<Lead> {
    Filter(fetched, FromCommunityExact())
  }

  /** The board loads exactly the leads the classifier sends to the
      community column by its source override. */
  lemma LoadedLeadsAreCommunity(fetched: seq<Lead>)
    ensures forall l :: l in LoadCommunity(fetched) <==> l in fetched && IsCommunitySource(l.fonte)
    ensures forall l :: l in LoadCommunity(fetched) ==> LeadColumn(l) == ColunaComunidade
  {
    forall l
      ensures l in LoadCommunity(fetched) <==> l in fetched && IsCommunitySource(l.fonte)
    {
      FilterMembership(fetched, FromCommunity(), l);
    }
    forall l | l in LoadCommunity(fetched)
      ensures LeadColumn(l) == ColunaComunidade
    {
      CommunityOverride(l.tipoHospedagem, l.faturamentoMedio, l.fonte);
    }
  }

  /** The exact refetch keeps a subset of what the load keeps. */
  lemma RefetchExactWithinLoad(fetched: seq<Lead>)
    ensures forall l :: l in RefetchExact(fetched) ==> l in LoadCommunity(fetched)
    ensures |RefetchExact(fetched)| <= |LoadCommunity(fetched)|
  {
    forall l | l in RefetchExact(fetched)
      ensures l in LoadCommunity(fetched)
    {
      FilterMembership(fetched, FromCommunityExact(), l);
      FilterMembership(fetched, FromCommunity(), l);
      assert ToLower("comunidade") == "comunidade";
    }
    assert ToLower("comunidade") == "comunidade";
    CountMonotone(fetched, FromCommunityExact(), FromCommunity());
  }

  /** A lead whose source is written "Comunidade" is loaded, but drops off
      the board when a failed sale or reopen refetches the list. */
  lemma CapitalisedSourceDropsOnRefetch(l: Lead)
    requires l.fonte == Some("Comunidade")
    ensures LoadCommunity([l]) == [l]
    ensures RefetchExact([l]) == []
  {
    LowerComunidade();
    assert "Comunidade"[0] != "comunidade"[0];
  }

  /** The capitalised source lower-cases to the load filter's value. */
  lemma LowerComunidade()
    ensures ToLower("Comunidade") == "comunidade"
  {
    assert LowerFrom("Comunidade", 5) == "idade";
  }

  // ---------------------------------------------------------------------
  // Status changes
  // ---------------------------------------------------------------------

  /** `handleMarcarVendeu`. */
  function MarkSold(leads: seq<Lead>, leadId: int): (r: seq<Lead>)
    ensures |r| == |leads|
    ensures forall i :: 0 <= i < |leads| ==>
      r[i] == (if leads[i].id == leadId then leads[i].(statusSdr := Some(Vendeu)) else leads[i])
  {
    SetStatusById(leads, leadId, Some(Vendeu))
  }

  /** `handleVoltar`. */
  function Reopen(leads: seq<Lead>, leadId: int): (r: seq<Lead>)
    ensures |r| == |leads|
    ensures forall i :: 0 <= i < |leads| ==>
      r[i] == (if leads[i].id == leadId then leads[i].(statusSdr := Some(MeusLeads)) else leads[i])
  {
    SetStatusById(leads, leadId, Some(MeusLeads))
  }

  /** Reopening an open lead that was marked sold restores the list. */
  lemma ReopenAfterMarkSold(leads: seq<Lead>, i: int)
    requires UniqueIds(leads) && 0 <= i < |leads| && leads[i].statusSdr == Some(MeusLeads)
    ensures Reopen(MarkSold(leads, leads[i].id), leads[i].id) == leads
  {
    SetStatusBack(leads, i, Some(Vendeu));
  }

  /** Moving the only lead with an id from stage `a` to stage `b` moves one
      lead from `a`'s total to `b`'s. */
  lemma MoveShiftsTotals(leads: seq<Lead>, i: int, a: Status, b: Status)
    requires UniqueIds(leads) && 0 <= i < |leads| && leads[i].statusSdr == Some(a) && a != b
    ensures Total(SetStatusById(leads, leads[i].id, Some(b)), b) == Total(leads, b) + 1
    ensures Total(SetStatusById(leads, leads[i].id, Some(b)), a) == Total(leads, a) - 1
  {
    var moved := leads[i].(statusSdr := Some(b));
    var r := SetStatusById(leads, leads[i].id, Some(b));
    assert r == leads[i := moved] by {
      forall k | 0 <= k < |leads| ensures r[k] == leads[i := moved][k] {
        if k != i {
          assert leads[k].id != leads[i].id;
        }
      }
    }
    CountUpdate(leads, i, moved, HasStatus(a));
    CountUpdate(leads, i, moved, HasStatus(b));
  }

  /** Marking an open lead sold moves it from the open total to the sold
      total. */
  lemma MarkSoldShiftsTotals(leads: seq<Lead>, i: int)
    requires UniqueIds(leads) && 0 <= i < |leads| && leads[i].statusSdr == Some(MeusLeads)
    ensures Total(MarkSold(leads, leads[i].id), Vendeu) == Total(leads, Vendeu) + 1
    ensures Total(MarkSold(leads, leads[i].id), MeusLeads) == Total(leads, MeusLeads) - 1
  {
    MoveShiftsTotals(leads, i, MeusLeads, Vendeu);
  }

  /** The board's two columns. */
  const CommunityStatuses: set<Status> := {MeusLeads, Vendeu}

  predicate OnBoard(leads: seq<Lead>) {
    forall i :: 0 <= i < |leads| ==> leads[i].statusSdr.Some? && leads[i].statusSdr.value in CommunityStatuses
  }

  /** Dragging onto one of the two columns keeps every lead in one of
      them; the other updates do too. */
  lemma UpdatesStayOnBoard(leads: seq<Lead>, leadId: int, source: Location, dest: Option<Location>)
    requires OnBoard(leads)
    requires dest.Some? ==> dest.value.droppableId in CommunityStatuses
    ensures OnBoard(DragEnd(leads, dest, source, leadId))
    ensures OnBoard(MarkSold(leads, leadId)) && OnBoard(Reopen(leads, leadId))
    ensures OnBoard(ReturnLead(leads, leadId))
  {
    var r := ReturnLead(leads, leadId);
    forall k | 0 <= k < |r|
      ensures r[k].statusSdr.Some? && r[k].statusSdr.value in CommunityStatuses
    {
      assert r[k] in leads;
    }
  }

  /** The open and sold columns never share a card. */
  lemma ColumnsDisjoint(leads: seq<Lead>, f: FilterState, l: Lead)
    ensures !(l in Bucket(leads, f, MeusLeads) && l in Bucket(leads, f, Vendeu))
  {
    BucketSpec(leads, f, MeusLeads, l);
  }
}
