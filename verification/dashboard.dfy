/** The administrator's dashboard, src/app/admin/dashboard/page.tsx: the
    integer metrics, the per-SDR tallies and the two pie charts' data. */
module Dashboard {

  import opened Optional
  import opened Strings
  import opened Seqs
  import opened Kanban
  import opened Leads

  // ---------------------------------------------------------------------
  // Lead sources
  // ---------------------------------------------------------------------

  /** `isComunidade`: the source lower-cases to "comunidade". */
  predicate IsComunidade(l: Lead) {
    l.fonte.Some? && ToLower(l.fonte.value) == "comunidade"
  }

  /** `isSite`: the source lower-cases to "site". */
  predicate IsSite(l: Lead) {
    l.fonte.Some? && ToLower(l.fonte.value) == "site"
  }

  function Community(): Lead -> bool {
    (l: Lead) => IsComunidade(l)
  }

  function Site(): Lead -> bool {
    (l: Lead) => IsSite(l)
  }

  /** The general leads: neither community nor site. */
  function General(): Lead -> bool {
    (l: Lead) => !IsComunidade(l) && !IsSite(l)
  }

  /** The dashboard's community test is the classifier's community
      override, and no lead is both a community and a site lead. */
  lemma SourcesAgree(l: Lead)
    ensures IsComunidade(l) <==> IsCommunitySource(l.fonte)
    ensures !(IsComunidade(l) && IsSite(l))
  {
  }

  // ---------------------------------------------------------------------
  // Metrics
  // ---------------------------------------------------------------------

  function InProgress(): Lead -> bool {
    (l: Lead) => l.statusSdr == Some(EmQualificacao) || l.statusSdr == Some(PertoReuniao)
  }

  /** The counts for one group of leads; `converted` is meetings booked for
      the general and site groups and sales for the community group. */
  datatype Segment = Segment(total: nat, atribuidos: nat, converted: nat, perdidos: nat)

  datatype Metrics = Metrics(
    total: nat,
    atribuidos: nat,
    naoAtribuidos: nat,
    aguardando: nat,
    emAtendimento: nat,
    leadsPerdidos: nat,
    geral: Segment,
    site: Segment,
    comunidade: Segment)

  function SegmentOf(leads: seq<Lead>, inSegment: Lead -> bool, converted: Status): Segment {
    var group := Filter(leads, inSegment);
    Segment(|group|, Count(group, Assigned()), Count(group, HasStatus(converted)), Count(group, HasStatus(LeadPerdido)))
  }

  function AnyLead(): Lead -> bool {
    (l: Lead) => true
  }

  /** `metrics` (without the conversion rates): every lead is assigned or
      not, and lies in exactly one of the general, site and community
      groups, so the groups' totals, assigned counts and lost counts add up
      to the overall ones. */
  function ComputeMetrics(leads: seq<Lead>): (m: Metrics)
    ensures m.total == |leads|
    ensures m.atribuidos + m.naoAtribuidos == m.total
    ensures m.geral.total + m.site.total + m.comunidade.total == m.total
    ensures m.geral.atribuidos + m.site.atribuidos + m.comunidade.atribuidos == m.atribuidos
    ensures m.geral.perdidos + m.site.perdidos + m.comunidade.perdidos == m.leadsPerdidos
    ensures m.aguardando + m.emAtendimento + m.leadsPerdidos <= m.total
  {
    var m := Metrics(
      |leads|,
      Count(leads, Assigned()),
      Count(leads, Unassigned()),
      Count(leads, HasStatus(MeusLeads)),
      Count(leads, InProgress()),
      Count(leads, HasStatus(LeadPerdido)),
      SegmentOf(leads, General(), EncaminhadoReuniao),
      SegmentOf(leads, Site(), EncaminhadoReuniao),
      SegmentOf(leads, Community(), Vendeu));
    MetricsAddUp(leads);
    m
  }

  lemma MetricsAddUp(leads: seq<Lead>)
    ensures Count(leads, Assigned()) + Count(leads, Unassigned()) == |leads|
    ensures |Filter(leads, General())| + |Filter(leads, Site())| + |Filter(leads, Community())| == |leads|
    ensures Count(Filter(leads, General()), Assigned()) + Count(Filter(leads, Site()), Assigned())
      + Count(Filter(leads, Community()), Assigned()) == Count(leads, Assigned())
    ensures Count(Filter(leads, General()), HasStatus(LeadPerdido)) + Count(Filter(leads, Site()), HasStatus(LeadPerdido))
      + Count(Filter(leads, Community()), HasStatus(LeadPerdido)) == Count(leads, HasStatus(LeadPerdido))
    ensures Count(leads, HasStatus(MeusLeads)) + Count(leads, InProgress()) + Count(leads, HasStatus(LeadPerdido)) <= |leads|
  {
    AssignedSplit(leads);
    GroupsSplit(leads, AnyLead());
    CountAll(leads);
    CountAll(Filter(leads, General()));
    CountAll(Filter(leads, Site()));
    CountAll(Filter(leads, Community()));
    GroupsSplit(leads, Assigned());
    GroupsSplit(leads, HasStatus(LeadPerdido));
    StagesBounded(leads);
  }

  lemma CountAll(g: seq<Lead>)
    ensures Count(g, AnyLead()) == |g|
  {
    FilterAllKept(g, AnyLead());
  }

  lemma AssignedSplit(leads: seq<Lead>)
    ensures Count(leads, Assigned()) + Count(leads, Unassigned()) == |leads|
  {
    CountComplement(leads, Assigned(), Unassigned());
  }

  /** Every lead is in exactly one of the three groups. */
  lemma GroupsExclusive()
    ensures forall x: Lead :: ((General()(x) || Site()(x) || Community()(x)) && !(General()(x) && Site()(x))
      && !(General()(x) && Community()(x)) && !(Site()(x) && Community()(x)))
  {
    forall x: Lead
      ensures !(Site()(x) && Community()(x))
    {
      SourcesAgree(x);
    }
  }

  lemma GroupsSplit(leads: seq<Lead>, q: Lead -> bool)
    ensures Count(Filter(leads, General()), q) + Count(Filter(leads, Site()), q) + Count(Filter(leads, Community()), q)
      == Count(leads, q)
  {
    GroupsExclusive();
    CountThreeWay(leads, General(), Site(), Community(), q);
  }

  lemma InProgressSplit(leads: seq<Lead>)
    ensures Count(leads, InProgress()) == Count(leads, HasStatus(EmQualificacao)) + Count(leads, HasStatus(PertoReuniao))
  {
    CountDisjoint(leads, HasStatus(EmQualificacao), HasStatus(PertoReuniao), InProgress());
  }

  lemma StagesBounded(leads: seq<Lead>)
    ensures Count(leads, HasStatus(MeusLeads)) + Count(leads, InProgress()) + Count(leads, HasStatus(LeadPerdido)) <= |leads|
  {
    InProgressSplit(leads);
    StatusCountsSum(leads);
  }

  // ---------------------------------------------------------------------
  // Per-SDR tallies
  // ---------------------------------------------------------------------

  /** One bar of the per-SDR chart. */
  datatype Tally = Tally(
    name: string,
    total: nat,
    aguardando: nat,
    emAtendimento: nat,
    qualificacao: nat,
    pertoReuniao: nat,
    encaminhados: nat,
    vendidosComunidade: nat,
    leadsPerdidos: nat,
    totalGeral: nat,
    totalComunidade: nat)

  function EmptyTally(name: string): Tally {
    Tally(name, 0, 0, 0, 0, 0, 0, 0, 0, 0, 0)
  }

  /** A lead counts for the SDR `id` when its owner is truthy and is `id`. */
  function CountedFor(id: string): Lead -> bool {
    (l: Lead) => IsAssigned(l) && l.ownerSdrId.value == id
  }

  function NotCommunity(): Lead -> bool {
    (l: Lead) => !IsComunidade(l)
  }

  /** The reference tally: counts over the SDR's own leads, split into
      community and other leads. */
  function TallyOf(leads: seq<Lead>, id: string, name: string): Tally {
    TallyOfOwn(Filter(leads, CountedFor(id)), name)
  }

  function Inc(b: bool): nat {
    if b then 1 else 0
  }

  /** The increments the loop body applies for one counted lead. */
  function CountLead(t: Tally, l: Lead): Tally {
    var s := l.statusSdr;
    var busy := s == Some(EmQualificacao) || s == Some(PertoReuniao);
    if IsComunidade(l) then
      t.(total := t.total + 1,
         leadsPerdidos := t.leadsPerdidos + Inc(s == Some(LeadPerdido)),
         totalComunidade := t.totalComunidade + 1,
         aguardando := t.aguardando + Inc(s == Some(MeusLeads)),
         emAtendimento := t.emAtendimento + Inc(busy),
         vendidosComunidade := t.vendidosComunidade + Inc(s == Some(Vendeu)))
    else
      t.(total := t.total + 1,
         leadsPerdidos := t.leadsPerdidos + Inc(s == Some(LeadPerdido)),
         totalGeral := t.totalGeral + 1,
         aguardando := t.aguardando + Inc(s == Some(MeusLeads)),
         qualificacao := t.qualificacao + Inc(s == Some(EmQualificacao)),
         pertoReuniao := t.pertoReuniao + Inc(s == Some(PertoReuniao)),
         emAtendimento := t.emAtendimento + Inc(busy),
         encaminhados := t.encaminhados + Inc(s == Some(EncaminhadoReuniao)))
  }

  /** Counting one more lead of the SDR's extends the reference tally by
      the loop body's increments; any other lead leaves it alone. */
  lemma TallySnoc(leads: seq<Lead>, l: Lead, id: string, name: string)
    ensures TallyOf(leads + [l], id, name) ==
      if CountedFor(id)(l) then CountLead(TallyOf(leads, id, name), l) else TallyOf(leads, id, name)
  {
    var own := Filter(leads, CountedFor(id));
    FilterConcat(leads, [l], CountedFor(id));
    if CountedFor(id)(l) {
      assert Filter(leads + [l], CountedFor(id)) == own + [l];
      OwnSnoc(own, l, name);
    } else {
      assert Filter(leads + [l], CountedFor(id)) == own;
    }
  }

  /** The tally computed from an SDR's own leads. */
  function TallyOfOwn(own: seq<Lead>, name: string): Tally {
    var com := Filter(own, Community());
    var gen := Filter(own, NotCommunity());
    Tally(name, |own|,
      Count(own, HasStatus(MeusLeads)), Count(own, InProgress()),
      Count(gen, HasStatus(EmQualificacao)), Count(gen, HasStatus(PertoReuniao)),
      Count(gen, HasStatus(EncaminhadoReuniao)), Count(com, HasStatus(Vendeu)),
      Count(own, HasStatus(LeadPerdido)), |gen|, |com|)
  }

  lemma OwnSnoc(own: seq<Lead>, l: Lead, name: string)
    ensures TallyOfOwn(own + [l], name) == CountLead(TallyOfOwn(own, name), l)
  {
    CountSnoc(own, l, HasStatus(MeusLeads));
    CountSnoc(own, l, InProgress());
    CountSnoc(own, l, HasStatus(LeadPerdido));
    if IsComunidade(l) {
      CommunitySnoc(own, l);
    } else {
      GeneralSnoc(own, l);
    }
  }

  lemma CommunitySnoc(own: seq<Lead>, l: Lead)
    requires IsComunidade(l)
    ensures Filter(own + [l], NotCommunity()) == Filter(own, NotCommunity())
    ensures Filter(own + [l], Community()) == Filter(own, Community()) + [l]
    ensures Count(Filter(own + [l], Community()), HasStatus(Vendeu))
      == Count(Filter(own, Community()), HasStatus(Vendeu)) + Inc(l.statusSdr == Some(Vendeu))
  {
    FilterConcat(own, [l], Community());
    FilterConcat(own, [l], NotCommunity());
    CountSnoc(Filter(own, Community()), l, HasStatus(Vendeu));
  }

  lemma GeneralSnoc(own: seq<Lead>, l: Lead)
    requires !IsComunidade(l)
    ensures Filter(own + [l], Community()) == Filter(own, Community())
    ensures Filter(own + [l], NotCommunity()) == Filter(own, NotCommunity()) + [l]
    ensures forall s :: (Count(Filter(own + [l], NotCommunity()), HasStatus(s))
      == Count(Filter(own, NotCommunity()), HasStatus(s)) + Inc(l.statusSdr == Some(s)))
  {
    FilterConcat(own, [l], Community());
    FilterConcat(own, [l], NotCommunity());
    forall s
      ensures Count(Filter(own + [l], NotCommunity()), HasStatus(s))
        == Count(Filter(own, NotCommunity()), HasStatus(s)) + Inc(l.statusSdr == Some(s))
    {
      CountSnoc(Filter(own, NotCommunity()), l, HasStatus(s));
    }
  }

  /** Each SDR's bar: the general and community totals add up to the total,
      and in-progress leads are the general leads in qualification or near
      a meeting plus the community leads in those stages. */
  lemma TallyIdentities(leads: seq<Lead>, id: string, name: string)
    ensures var t := TallyOf(leads, id, name);
      t.totalGeral + t.totalComunidade == t.total &&
      t.emAtendimento == t.qualificacao + t.pertoReuniao + Count(Filter(Filter(leads, CountedFor(id)), Community()), InProgress()) &&
      t.aguardando + t.emAtendimento + t.encaminhados + t.vendidosComunidade + t.leadsPerdidos <= t.total
  {
    var own := Filter(leads, CountedFor(id));
    var com := Filter(own, Community());
    var gen := Filter(own, NotCommunity());
    CountComplement(own, NotCommunity(), Community());
    CountSplit(own, Community(), NotCommunity(), InProgress());
    InProgressSplit(gen);
    CountFilterBound(own, NotCommunity(), HasStatus(EncaminhadoReuniao));
    CountFilterBound(own, Community(), HasStatus(Vendeu));
    InProgressSplit(own);
    StatusCountsSum(own);
  }

  // ---------------------------------------------------------------------
  // The per-SDR chart
  // ---------------------------------------------------------------------

  /** The listed SDRs' ids in first-seen order, each once: the key order of
      the `Map` the chart is built from. */
  function SdrOrder(sdrs: seq<Profile>): (r: seq<string>)
    ensures forall i, j :: 0 <= i < j < |r| ==> r[i] != r[j]
    ensures forall id :: id in r <==> exists p :: p in sdrs && p.id == id
    decreases |sdrs|
  {
    if |sdrs| == 0 then []
    else
      var init := sdrs[..|sdrs| - 1];
      var last := sdrs[|sdrs| - 1];
      assert sdrs == init + [last];
      var d := SdrOrder(init);
      if last.id in d then d else d + [last.id]
  }

  /** The name stored for an id: `Map.set` keeps the last profile's. */
  function LastName(sdrs: seq<Profile>, id: string): string
    decreases |sdrs|
  {
    if |sdrs| == 0 then ""
    else if sdrs[|sdrs| - 1].id == id then sdrs[|sdrs| - 1].name
    else LastName(sdrs[..|sdrs| - 1], id)
  }

  /** `leadsPerSdr` before sorting, as a reference: one bar per listed SDR,
      in first-seen order. */
  function ReferenceRows(leads: seq<Lead>, sdrs: seq<Profile>): (r: seq<Tally>)
    ensures |r| == |SdrOrder(sdrs)|
  {
    var order := SdrOrder(sdrs);
    seq(|order|, k requires 0 <= k < |order| => TallyOf(leads, order[k], LastName(sdrs, order[k])))
  }

  /** The first `forEach`: an empty entry per listed SDR, keys in
      first-seen order. */
  method RegisterSdrs(sdrs: seq<Profile>) returns (order: seq<string>, tallies: map<string, Tally>)
    ensures order == SdrOrder(sdrs)
    ensures forall id :: id in tallies <==> id in order
    ensures forall id :: id in tallies ==> tallies[id] == EmptyTally(LastName(sdrs, id))
  {
    order := [];
    tallies := map[];
    var j := 0;
    while j < |sdrs|
      invariant 0 <= j <= |sdrs|
      invariant order == SdrOrder(sdrs[..j])
      invariant forall id :: id in tallies <==> id in order
      invariant forall id :: id in tallies ==> tallies[id] == EmptyTally(LastName(sdrs[..j], id))
    {
      var sdr := sdrs[j];
      assert sdrs[..j + 1][..j] == sdrs[..j];
      if sdr.id !in tallies {
        order := order + [sdr.id];
      }
      tallies := tallies[sdr.id := EmptyTally(sdr.name)];
      j := j + 1;
    }
    assert sdrs[..j] == sdrs;
  }

  /** Every registered SDR's entry is the reference tally of `leads`. */
  predicate TalliesMatch(tallies: map<string, Tally>, leads: seq<Lead>, sdrs: seq<Profile>) {
    forall id :: id in tallies ==> tallies[id] == TallyOf(leads, id, LastName(sdrs, id))
  }

  /** The loop body for one lead. */
  function CountInto(tallies: map<string, Tally>, lead: Lead): (r: map<string, Tally>)
    ensures r.Keys == tallies.Keys
  {
    if IsAssigned(lead) && lead.ownerSdrId.value in tallies then
      tallies[lead.ownerSdrId.value := CountLead(tallies[lead.ownerSdrId.value], lead)]
    else tallies
  }

  lemma CountIntoStep(tallies: map<string, Tally>, leads: seq<Lead>, lead: Lead, sdrs: seq<Profile>)
    requires TalliesMatch(tallies, leads, sdrs)
    ensures TalliesMatch(CountInto(tallies, lead), leads + [lead], sdrs)
  {
    var r := CountInto(tallies, lead);
    forall id | id in r
      ensures r[id] == TallyOf(leads + [lead], id, LastName(sdrs, id))
    {
      TallySnoc(leads, lead, id, LastName(sdrs, id));
    }
  }

  lemma EmptyTalliesMatch(tallies: map<string, Tally>, sdrs: seq<Profile>)
    requires forall id :: id in tallies ==> tallies[id] == EmptyTally(LastName(sdrs, id))
    ensures TalliesMatch(tallies, [], sdrs)
  {
  }

  /** The second `forEach`: each lead whose owner is truthy and registered
      is counted for that SDR. */
  method CountLeads(leads: seq<Lead>, sdrs: seq<Profile>, start: map<string, Tally>)
    returns (tallies: map<string, Tally>)
    requires forall id :: id in start ==> start[id] == EmptyTally(LastName(sdrs, id))
    ensures tallies.Keys == start.Keys
    ensures forall id :: id in tallies ==> tallies[id] == TallyOf(leads, id, LastName(sdrs, id))
  {
    tallies := start;
    EmptyTalliesMatch(start, sdrs);
    assert leads[..0] == [];
    var i := 0;
    while i < |leads|
      invariant 0 <= i <= |leads|
      invariant tallies.Keys == start.Keys
      invariant TalliesMatch(tallies, leads[..i], sdrs)
    {
      var lead := leads[i];
      assert leads[..i + 1] == leads[..i] + [lead];
      CountIntoStep(tallies, leads[..i], lead, sdrs);
      tallies := CountInto(tallies, lead);
      i := i + 1;
    }
    assert leads[..i] == leads;
  }

  /** Non-increasing by total. */
  predicate SortedByTotal(rows: seq<Tally>) {
    forall i, j :: 0 <= i < j < |rows| ==> rows[i].total >= rows[j].total
  }

  /** Inserts `x` before the first row whose total it reaches, so among
      equal totals earlier rows stay first. */
  function InsertByTotal(x: Tally, rows: seq<Tally>): (r: seq<Tally>)
    ensures multiset(r) == multiset(rows) + multiset{x}
  {
    if |rows| == 0 then [x]
    else if rows[0].total <= x.total then [x] + rows
    else
      assert rows == [rows[0]] + rows[1..];
      [rows[0]] + InsertByTotal(x, rows[1..])
  }

  /** Inserting into a sorted list keeps it sorted. */
  lemma {:induction false} InsertSorted(x: Tally, rows: seq<Tally>)
    requires SortedByTotal(rows)
    ensures SortedByTotal(InsertByTotal(x, rows))
  {
    if |rows| > 0 && rows[0].total > x.total {
      var rest := InsertByTotal(x, rows[1..]);
      InsertSorted(x, rows[1..]);
      forall k | 0 <= k < |rest|
        ensures rows[0].total >= rest[k].total
      {
        assert rest[k] in multiset(rest);
        assert rest[k] == x || rest[k] in multiset(rows[1..]);
      }
    }
  }

  /** `.sort((a, b) => b.total - a.total)`, a stable sort. */
  function SortByTotal(rows: seq<Tally>): (r: seq<Tally>)
    ensures SortedByTotal(r)
    ensures multiset(r) == multiset(rows)
  {
    if |rows| == 0 then []
    else
      assert rows == [rows[0]] + rows[1..];
      InsertSorted(rows[0], SortByTotal(rows[1..]));
      InsertByTotal(rows[0], SortByTotal(rows[1..]))
  }

  /** `leadsPerSdr`: exactly the reference bars, one per listed SDR,
      sorted by total from largest to smallest. */
  method LeadsPerSdr(leads: seq<Lead>, sdrs: seq<Profile>) returns (rows: seq<Tally>)
    ensures SortedByTotal(rows)
    ensures multiset(rows) == multiset(ReferenceRows(leads, sdrs))
    ensures |rows| == |SdrOrder(sdrs)|
  {
    var order, empty := RegisterSdrs(sdrs);
    var tallies := CountLeads(leads, sdrs, empty);
    var unsorted := seq(|order|, k requires 0 <= k < |order| => tallies[order[k]]);
    assert unsorted == ReferenceRows(leads, sdrs);
    rows := SortByTotal(unsorted);
    assert |rows| == |multiset(rows)|;
  }

  // ---------------------------------------------------------------------
  // Pie charts
  // ---------------------------------------------------------------------

  /** One slice of a pie chart. */
  datatype Slice = Slice(name: string, value: nat, color: string)

  function Positive(): Slice -> bool {
    (sl: Slice) => sl.value > 0
  }

  /** The six status slices, before empty ones are dropped. */
  function StatusSlices(m: Metrics): seq<Slice> {
    [Slice("Não Atribuídos", m.naoAtribuidos, "#9ca3af"),
     Slice("Aguardando", m.aguardando, "#64748b"),
     Slice("Em Qualificação", m.emAtendimento, "#3b82f6"),
     Slice("Encam. Reunião", m.geral.converted, "#f59e0b"),
     Slice("Vendidos (Comun.)", m.comunidade.converted, "#10b981"),
     Slice("Lead Perdido", m.leadsPerdidos, "#dc2626")]
  }

  /** `statusData`: the non-empty status slices, in their fixed order. */
  function StatusData(m: Metrics): (r: seq<Slice>)
    ensures IsSubseq(r, StatusSlices(m))
    ensures forall sl :: sl in r <==> sl in StatusSlices(m) && sl.value > 0
  {
    FilterIsSubseq(StatusSlices(m), Positive());
    forall sl ensures sl in Filter(StatusSlices(m), Positive()) <==> sl in StatusSlices(m) && sl.value > 0 {
      FilterMembership(StatusSlices(m), Positive(), sl);
    }
    Filter(StatusSlices(m), Positive())
  }

  /** The sum of the slices' values. */
  function Sum(slices: seq<Slice>): nat {
    if |slices| == 0 then 0 else slices[0].value + Sum(slices[1..])
  }

  /** Dropping empty slices does not change the sum. */
  lemma {:induction false} SumWithoutEmpty(slices: seq<Slice>)
    ensures Sum(Filter(slices, Positive())) == Sum(slices)
  {
    if |slices| > 0 {
      SumWithoutEmpty(slices[1..]);
      var f := Filter(slices, Positive());
      var rest := Filter(slices[1..], Positive());
      if slices[0].value > 0 {
        assert f == [slices[0]] + rest;
        assert f[1..] == rest;
      } else {
        assert f == rest;
      }
    }
  }

  function InLeadColumn(c: Coluna): Lead -> bool {
    InColumn(LeadColumn, c)
  }

  /** A column's slice: its name, its number of leads and its colour. */
  function ColumnSlice(leads: seq<Lead>, c: Coluna): Slice {
    Slice(ColumnName(c), Count(leads, InLeadColumn(c)), ColumnColor(c))
  }

  /** The per-column counts, in the order of the counts record. */
  function ColumnSlices(leads: seq<Lead>): seq<Slice> {
    [ColumnSlice(leads, Nivel1), ColumnSlice(leads, Nivel2), ColumnSlice(leads, Nivel3),
     ColumnSlice(leads, Nivel4), ColumnSlice(leads, ColunaComunidade)]
  }

  lemma ColumnSlicesSum(leads: seq<Lead>)
    ensures Sum(ColumnSlices(leads)) == |leads|
  {
    var all := ColumnSlices(leads);
    ColumnCountsSum(leads, LeadColumn);
    var t1, t2, t3, t4 := all[1..], all[2..], all[3..], all[4..];
    assert t1[1..] == t2 && t2[1..] == t3 && t3[1..] == t4 && t4[1..] == [];
    assert Sum(t4) == t4[0].value;
    assert Sum(t3) == t3[0].value + Sum(t4);
    assert Sum(t2) == t2[0].value + Sum(t3);
    assert Sum(t1) == t1[0].value + Sum(t2);
    assert Sum(all) == all[0].value + Sum(t1);
  }

  lemma ColumnSliceListed(leads: seq<Lead>, c: Coluna)
    ensures ColumnSlice(leads, c) in ColumnSlices(leads)
  {
    var all := ColumnSlices(leads);
    match c
    case Nivel1 => assert all[0] == ColumnSlice(leads, c);
    case Nivel2 => assert all[1] == ColumnSlice(leads, c);
    case Nivel3 => assert all[2] == ColumnSlice(leads, c);
    case Nivel4 => assert all[3] == ColumnSlice(leads, c);
    case ColunaComunidade => assert all[4] == ColumnSlice(leads, c);
  }

  /** `qualificacaoData`: each lead counted in its classified column, empty
      columns dropped. The slices add up to the number of leads, and a
      column has a slice exactly when some lead is classified into it. */
  function QualificacaoData(leads: seq<Lead>): (r: seq<Slice>)
    ensures Sum(r) == |leads|
    ensures IsSubseq(r, ColumnSlices(leads))
    ensures forall sl :: sl in r ==> sl.value > 0 && sl in ColumnSlices(leads)
    ensures forall c :: ColumnSlice(leads, c) in r <==> Count(leads, InLeadColumn(c)) > 0
  {
    var all := ColumnSlices(leads);
    SumWithoutEmpty(all);
    ColumnSlicesSum(leads);
    var r := Filter(all, Positive());
    FilterIsSubseq(all, Positive());
    forall sl ensures sl in r <==> sl in all && sl.value > 0 {
      FilterMembership(all, Positive(), sl);
    }
    forall c ensures ColumnSlice(leads, c) in all {
      ColumnSliceListed(leads, c);
    }
    r
  }
}
