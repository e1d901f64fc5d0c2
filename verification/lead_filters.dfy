/** The lead filter bar of src/components/LeadFilters.tsx: the filter state
    its handlers maintain and `filterLeads`, which every board applies. */
module LeadFilters {

  import opened Optional
  import opened Strings
  import opened Seqs
  import opened Kanban
  import opened Leads

  /** `FilterState`; an empty string means the filter is off. The dates are
      "yyyy-MM-dd" strings. */
  datatype FilterState = FilterState(
    searchTerm: string,
    dateFrom: string,
    dateTo: string,
    tipoHospedagem: string,
    origem: string,
    fonte: string,
    classificacao: string)

  const NoFilters: FilterState := FilterState("", "", "", "", "", "", "")

  // ---------------------------------------------------------------------
  // The per-field tests, in the order `filterLeads` applies them
  // ---------------------------------------------------------------------

  /** Name search: a case-insensitive substring test. */
  predicate NameMatches(nome: string, term: string) {
    term == "" || Contains(ToLower(nome), ToLower(term))
  }

  /** Lodging type: exact, case-sensitive equality. */
  predicate TypeMatches(tipo: Option<string>, wanted: string) {
    wanted == "" || tipo == Some(wanted)
  }

  /** Origin and source: `field?.toLowerCase() !== wanted.toLowerCase()`
      rejects, so a missing field never matches an active filter. */
  predicate CaselessMatches(field: Option<string>, wanted: string) {
    wanted == "" || (field.Some? && ToLower(field.value) == ToLower(wanted))
  }

  /** Classification: the lead's computed column name equals the filter. */
  predicate ColumnMatches(l: Lead, wanted: string) {
    wanted == "" || ColumnName(LeadColumn(l)) == wanted
  }

  /** Date bounds: string comparison of the creation day with each bound. */
  predicate DateMatches(day: string, from: string, to: string) {
    (from == "" || !LexLess(day, from)) && (to == "" || !LexLess(to, day))
  }

  predicate Keeps(f: FilterState, l: Lead) {
    NameMatches(l.nome, f.searchTerm)
    && TypeMatches(l.tipoHospedagem, f.tipoHospedagem)
    && CaselessMatches(l.origem, f.origem)
    && CaselessMatches(l.fonte, f.fonte)
    && ColumnMatches(l, f.classificacao)
    && DateMatches(l.createdDay, f.dateFrom, f.dateTo)
  }

  function KeepsFor(f: FilterState): Lead -> bool {
    (l: Lead) => Keeps(f, l)
  }

  /** `filterLeads`. */
  function FilterLeads(leads: seq<Lead>, f: FilterState): (r: seq<Lead>)
    ensures |r| <= |leads|
  {
    Filter(leads, KeepsFor(f))
  }

  /** The result keeps the input's order and holds exactly the leads passing
      every active test. */
  lemma FilterLeadsSpec(leads: seq<Lead>, f: FilterState)
    ensures IsSubseq(FilterLeads(leads, f), leads)
    ensures forall l :: l in FilterLeads(leads, f) <==> l in leads && Keeps(f, l)
  {
    FilterIsSubseq(leads, KeepsFor(f));
    forall l ensures l in FilterLeads(leads, f) <==> l in leads && Keeps(f, l) {
      FilterMembership(leads, KeepsFor(f), l);
    }
  }

  /** With every field empty nothing is filtered out. */
  lemma NoFiltersKeepAll(leads: seq<Lead>)
    ensures FilterLeads(leads, NoFilters) == leads
  {
    FilterAllKept(leads, KeepsFor(NoFilters));
  }

  // ---------------------------------------------------------------------
  // What each test means
  // ---------------------------------------------------------------------

  /** Search ignores case on both sides, and an exact substring always
      matches. */
  lemma NameSearchIgnoresCase(nome: string, term: string)
    ensures NameMatches(nome, term) <==> NameMatches(ToLower(nome), ToLower(term))
    ensures Contains(nome, term) ==> NameMatches(nome, term)
  {
    ToLowerIdempotent(nome);
    ToLowerIdempotent(term);
    if Contains(nome, term) {
      ContainsLower(nome, term);
    }
  }

  /** The lodging type must be spelled exactly: the lower-cased hotel label
      does not select hotels. */
  lemma TypeIsCaseSensitive()
    ensures !TypeMatches(Some(HotelType), "hotel, pousada ou resort")
  {
    assert HotelType[0] != "hotel, pousada ou resort"[0];
  }

  /** Origin and source compare case-insensitively, and a missing value fails
      an active filter. */
  lemma CaselessFieldSpec(field: Option<string>, wanted: string)
    ensures wanted != "" && field.None? ==> !CaselessMatches(field, wanted)
    ensures field.Some? ==> CaselessMatches(field, wanted) == CaselessMatches(Some(ToLower(field.value)), ToLower(wanted))
    ensures field == Some(wanted) ==> CaselessMatches(field, wanted)
  {
    if field.Some? {
      ToLowerIdempotent(field.value);
      ToLowerIdempotent(wanted);
    }
  }

  /** The ids of the classification buttons. */
  const ClassificationButtons: seq<string> := ["Lead E", "Lead D", "Lead C", "Lead B", "Lead A"]

  /** Column names start with 'N' or 'C', the buttons' ids with 'L'. */
  lemma ColumnNameNotButton(c: Coluna, b: string)
    requires b in ClassificationButtons
    ensures ColumnName(c) != b
  {
    assert b[0] == 'L';
    assert ColumnName(c)[0] == 'N' || ColumnName(c)[0] == 'C';
  }

  /** No column is named like a button, so choosing any button empties every
      board. */
  lemma ButtonsMatchNothing(leads: seq<Lead>, f: FilterState)
    requires f.classificacao in ClassificationButtons
    ensures FilterLeads(leads, f) == []
  {
    forall i | 0 <= i < |leads|
      ensures !KeepsFor(f)(leads[i])
    {
      ColumnNameNotButton(LeadColumn(leads[i]), f.classificacao);
    }
    FilterNoneKept(leads, KeepsFor(f));
  }

  /** Both bounds are inclusive: a lead created on either bound day passes. */
  lemma DateBoundsInclusive(day: string, from: string, to: string)
    ensures DateMatches(day, day, to) <==> DateMatches(day, "", to)
    ensures DateMatches(day, from, day) <==> DateMatches(day, from, "")
    ensures DateMatches(day, day, day)
  {
    LexLessIrreflexive(day);
  }

  /** A lead created before the start day, or after the end day, is
      filtered out. */
  lemma DateBoundsExclude(day: string, from: string, to: string)
    ensures from != "" && LexLess(day, from) ==> !DateMatches(day, from, to)
    ensures to != "" && LexLess(to, day) ==> !DateMatches(day, from, to)
  {
  }

  // ---------------------------------------------------------------------
  // The handlers
  // ---------------------------------------------------------------------

  /** The buttons' toggle: choosing the active value clears the field,
      choosing another value selects it. */
  function Toggle(current: string, value: string): (r: string)
    ensures r == "" <==> current == value || value == ""
    ensures r != "" ==> r == value
  {
    if current == value then "" else value
  }

  /** Two presses of one button return to the starting state exactly when
      the field was off or already on that value. */
  lemma ToggleTwice(current: string, value: string)
    ensures Toggle(Toggle(current, value), value) == current <==> current == "" || current == value
  {
  }

  /** `handleOrigemChange`. */
  function ToggleOrigem(f: FilterState, value: string): (r: FilterState)
    ensures r.origem == Toggle(f.origem, value)
    ensures r.(origem := f.origem) == f
  {
    f.(origem := Toggle(f.origem, value))
  }

  /** `handleFonteChange`. */
  function ToggleFonte(f: FilterState, value: string): (r: FilterState)
    ensures r.fonte == Toggle(f.fonte, value)
    ensures r.(fonte := f.fonte) == f
  {
    f.(fonte := Toggle(f.fonte, value))
  }

  /** `handleClassificacaoChange`. */
  function ToggleClassificacao(f: FilterState, value: string): (r: FilterState)
    ensures r.classificacao == Toggle(f.classificacao, value)
    ensures r.(classificacao := f.classificacao) == f
  {
    f.(classificacao := Toggle(f.classificacao, value))
  }

  /** `handleSearchChange`. */
  function SetSearch(f: FilterState, value: string): (r: FilterState)
    ensures r.searchTerm == value && r.(searchTerm := f.searchTerm) == f
  {
    f.(searchTerm := value)
  }

  /** `handleTipoHospedagemChange`: the select sets the value, no toggle. */
  function SetTipoHospedagem(f: FilterState, value: string): (r: FilterState)
    ensures r.tipoHospedagem == value && r.(tipoHospedagem := f.tipoHospedagem) == f
  {
    f.(tipoHospedagem := value)
  }

  /** `handleDateRangeSelect`: a missing end of the range becomes ''. */
  function SelectDates(f: FilterState, from: Option<string>, to: Option<string>): (r: FilterState)
    ensures r.dateFrom == from.GetOr("") && r.dateTo == to.GetOr("")
    ensures r.(dateFrom := f.dateFrom, dateTo := f.dateTo) == f
  {
    f.(dateFrom := from.GetOr(""), dateTo := to.GetOr(""))
  }

  /** `clearFilters`: all seven fields emptied, so every lead shows again. */
  function ClearFilters(f: FilterState): (r: FilterState)
    ensures r.searchTerm == "" && r.dateFrom == "" && r.dateTo == "" && r.tipoHospedagem == ""
    ensures r.origem == "" && r.fonte == "" && r.classificacao == ""
    ensures forall leads :: FilterLeads(leads, r) == leads
  {
    forall leads ensures FilterLeads(leads, NoFilters) == leads {
      NoFiltersKeepAll(leads);
    }
    NoFilters
  }
}
