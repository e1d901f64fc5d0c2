/** The lead-qualification engine: qualification tiers, the Kanban columns
    they map to, the revenue-label parser, the classifier and the grouping
    and visibility helpers built on it. */
module Kanban {

  import opened Optional
  import opened Strings
  import opened Seqs

  /** A lead's qualification tier. */
  datatype Qualificacao = Ruim | Medio | Qualificado | Ultra | Comunidade

  /** A column of the global Kanban board. */
  datatype Coluna = Nivel1 | Nivel2 | Nivel3 | Nivel4 | ColunaComunidade

  /** The column label shown on the board. */
  function ColumnName(c: Coluna): string {
    match c
    case Nivel1 => "Nível 1"
    case Nivel2 => "Nível 2"
    case Nivel3 => "Nível 3"
    case Nivel4 => "Nível 4"
    case ColunaComunidade => "Comunidade"
  }

  /** The column's display colour. */
  function ColumnColor(c: Coluna): string {
    match c
    case Nivel1 => "#dc2626"
    case Nivel2 => "#f59e0b"
    case Nivel3 => "#10b981"
    case Nivel4 => "#8b5cf6"
    case ColunaComunidade => "#0ea5e9"
  }

  /** The tier's internal name. */
  function QualificationName(q: Qualificacao): string {
    match q
    case Ruim => "RUIM"
    case Medio => "MEDIO"
    case Qualificado => "QUALIFICADO"
    case Ultra => "ULTRA"
    case Comunidade => "COMUNIDADE"
  }

  /** The tier-to-column table. */
  function QualificationToColumn(q: Qualificacao): Coluna {
    match q
    case Ruim => Nivel1
    case Medio => Nivel2
    case Qualificado => Nivel3
    case Ultra => Nivel4
    case Comunidade => ColunaComunidade
  }

  /** The tier-to-column table as its entries, in declaration order. */
  const QualificationEntries: seq<(Qualificacao, Coluna)> :=
    [(Ruim, Nivel1), (Medio, Nivel2), (Qualificado, Nivel3), (Ultra, Nivel4), (Comunidade, ColunaComunidade)]

  /** The order in which the board renders its columns. */
  const ColumnOrder: seq<Coluna> := [Nivel1, Nivel2, Nivel3, Nivel4, ColunaComunidade]

  /** The column-to-tier direction of the table. */
  function ColumnToQualification(c: Coluna): Qualificacao {
    match c
    case Nivel1 => Ruim
    case Nivel2 => Medio
    case Nivel3 => Qualificado
    case Nivel4 => Ultra
    case ColunaComunidade => Comunidade
  }

  /** The tier-to-column table is a bijection: no two tiers share a column
      and every column has the tier `ColumnToQualification` names. */
  lemma QualificationToColumnBijective()
    ensures forall q1, q2 :: QualificationToColumn(q1) == QualificationToColumn(q2) ==> q1 == q2
    ensures forall c :: QualificationToColumn(ColumnToQualification(c)) == c
    ensures forall q :: ColumnToQualification(QualificationToColumn(q)) == q
  {
  }

  /** The entries list states the same table, listing each tier once. */
  lemma QualificationEntriesAgree()
    ensures forall i :: 0 <= i < |QualificationEntries| ==>
      QualificationToColumn(QualificationEntries[i].0) == QualificationEntries[i].1
    ensures forall q :: (q, QualificationToColumn(q)) in QualificationEntries
    ensures forall i, j :: 0 <= i < j < |QualificationEntries| ==> QualificationEntries[i].0 != QualificationEntries[j].0
  {
    forall q
      ensures (q, QualificationToColumn(q)) in QualificationEntries
    {
      match q
      case Ruim => assert QualificationEntries[0] == (q, QualificationToColumn(q));
      case Medio => assert QualificationEntries[1] == (q, QualificationToColumn(q));
      case Qualificado => assert QualificationEntries[2] == (q, QualificationToColumn(q));
      case Ultra => assert QualificationEntries[3] == (q, QualificationToColumn(q));
      case Comunidade => assert QualificationEntries[4] == (q, QualificationToColumn(q));
    }
  }

  lemma ColumnListed(c: Coluna)
    ensures c in ColumnOrder
  {
    match c
    case Nivel1 => assert ColumnOrder[0] == c;
    case Nivel2 => assert ColumnOrder[1] == c;
    case Nivel3 => assert ColumnOrder[2] == c;
    case Nivel4 => assert ColumnOrder[3] == c;
    case ColunaComunidade => assert ColumnOrder[4] == c;
  }

  /** The render order lists each of the five columns exactly once, and the
      labels tell the columns apart. */
  lemma ColumnOrderComplete()
    ensures |ColumnOrder| == 5
    ensures forall c :: c in ColumnOrder
    ensures forall i, j :: 0 <= i < j < |ColumnOrder| ==> ColumnOrder[i] != ColumnOrder[j]
    ensures forall c1, c2 :: ColumnName(c1) == ColumnName(c2) ==> c1 == c2
  {
    forall c
      ensures c in ColumnOrder
    {
      ColumnListed(c);
    }
  }

  // ---------------------------------------------------------------------
  // Revenue-label parser
  // ---------------------------------------------------------------------

  /** Lower-cased, whitespace removed, then "k" and "mil" spelled "000". */
  function NormalizeRevenue(s: string): string {
    ReplaceAll(ReplaceAll(StripSpaces(ToLower(s)), "k", "000"), "mil", "000")
  }

  /** Normalisation works piecewise around a '$', which neither "k" nor
      "mil" uses and which lowercasing and whitespace removal keep. */
  lemma NormalizeAcrossDollar(a: string, b: string)
    ensures NormalizeRevenue(a + "$" + b) == NormalizeRevenue(a) + "$" + NormalizeRevenue(b)
  {
    ToLowerConcat(a + "$", b);
    ToLowerConcat(a, "$");
    var la, lb := ToLower(a), ToLower(b);
    assert ToLower("$") == "$";
    assert ToLower(a + "$" + b) == la + "$" + lb;
    StripConcat(la + "$", lb);
    StripConcat(la, "$");
    var sa, sb := StripSpaces(la), StripSpaces(lb);
    assert StripSpaces("$") == "$" by {
      assert StripFrom("$", 0) == "$";
    }
    assert StripSpaces(la + "$" + lb) == sa + ['$'] + sb;
    ReplaceAllSeparator(sa, '$', sb, "k", "000");
    var ka, kb := ReplaceAll(sa, "k", "000"), ReplaceAll(sb, "k", "000");
    ReplaceAllSeparator(ka, '$', kb, "mil", "000");
  }

  /** The "menos de X" checks, first match wins. */
  function LessThanBlock(n: string): Option<int> {
    if Contains(n, "5000") then Some(2500)
    else if Contains(n, "15000") then Some(10000)
    else if Contains(n, "20000") then Some(10000)
    else if Contains(n, "50000") then Some(25000)
    else None
  }

  /** The "entre X e Y" checks, first match wins. */
  function BetweenBlock(n: string): Option<int> {
    if Contains(n, "5") && Contains(n, "20000") then Some(12500)
    else if Contains(n, "15000") && Contains(n, "30000") then Some(22500)
    else if Contains(n, "20000") && Contains(n, "50000") then Some(35000)
    else if Contains(n, "30000") && Contains(n, "50000") then Some(40000)
    else if Contains(n, "50000") && Contains(n, "100000") then Some(75000)
    else if Contains(n, "100000") && Contains(n, "300000") then Some(200000)
    else if Contains(n, "100000") && Contains(n, "500000") then Some(300000)
    else if Contains(n, "300000") && Contains(n, "800000") then Some(550000)
    else if Contains(n, "800000") && Contains(n, "2mm") then Some(1400000)
    else None
  }

  /** The "mais de X" checks, first match wins. */
  function MoreThanBlock(n: string): Option<int> {
    if Contains(n, "100000") then Some(150000)
    else if Contains(n, "300000") then Some(400000)
    else if Contains(n, "500000") then Some(600000)
    else if Contains(n, "2mm") then Some(3000000)
    else None
  }

  /** Every value the parser can return. */
  const ParsedValues: set<int> :=
    {0, 2500, 10000, 25000, 12500, 22500, 35000, 40000, 75000, 200000, 300000,
     550000, 1400000, 150000, 400000, 600000, 3000000}

  function ParseNormalized(n: string): int {
    if Contains(n, "menosde") && LessThanBlock(n).Some? then LessThanBlock(n).value
    else if Contains(n, "entre") && BetweenBlock(n).Some? then BetweenBlock(n).value
    else if Contains(n, "maisde") && MoreThanBlock(n).Some? then MoreThanBlock(n).value
    else 0
  }

  /** `faturamentoParaValor`: a representative amount for a revenue label,
      0 for the empty label and for anything no check recognises. */
  function ParseRevenue(s: string): (v: int)
    ensures v in ParsedValues && v >= 0
    ensures s == "" ==> v == 0
    ensures var n := NormalizeRevenue(s);
      !Contains(n, "menosde") && !Contains(n, "entre") && !Contains(n, "maisde") ==> v == 0
  {
    if s == "" then 0 else ParseNormalized(NormalizeRevenue(s))
  }

  /** The parser with the checks that can never decide a result removed:
      "15000" and "50000" among the "menos de" checks, and
      "20000"+"50000" among the "entre" checks. */
  function ParseRevenueLive(s: string): int {
    if s == "" then 0
    else
      var n := NormalizeRevenue(s);
      if Contains(n, "menosde") && (Contains(n, "5000") || Contains(n, "20000")) then
        (if Contains(n, "5000") then 2500 else 10000)
      else if Contains(n, "entre") && BetweenLive(n).Some? then BetweenLive(n).value
      else if Contains(n, "maisde") && MoreThanBlock(n).Some? then MoreThanBlock(n).value
      else 0
  }

  function BetweenLive(n: string): Option<int> {
    if Contains(n, "5") && Contains(n, "20000") then Some(12500)
    else if Contains(n, "15000") && Contains(n, "30000") then Some(22500)
    else if Contains(n, "30000") && Contains(n, "50000") then Some(40000)
    else if Contains(n, "50000") && Contains(n, "100000") then Some(75000)
    else if Contains(n, "100000") && Contains(n, "300000") then Some(200000)
    else if Contains(n, "100000") && Contains(n, "500000") then Some(300000)
    else if Contains(n, "300000") && Contains(n, "800000") then Some(550000)
    else if Contains(n, "800000") && Contains(n, "2mm") then Some(1400000)
    else None
  }

  /** Any string containing "15000" or "50000" also contains "5000", so the
      "menos de 15000" and "menos de 50000" checks are never the first to
      match. */
  lemma LessThanShadowed(n: string)
    ensures Contains(n, "15000") ==> Contains(n, "5000")
    ensures Contains(n, "50000") ==> Contains(n, "5000")
  {
    assert MatchAt("15000", "5000", 1);
    assert MatchAt("50000", "5000", 0);
    if Contains(n, "15000") {
      ContainsTransitive(n, "15000", "5000");
    }
    if Contains(n, "50000") {
      ContainsTransitive(n, "50000", "5000");
    }
  }

  /** Any string containing "20000" and "50000" contains "5" and "20000",
      so the "entre 20000 e 50000" check is never the first to match. */
  lemma BetweenShadowed(n: string)
    ensures Contains(n, "20000") && Contains(n, "50000") ==> Contains(n, "5") && Contains(n, "20000")
  {
    assert MatchAt("50000", "5", 0);
    if Contains(n, "50000") {
      ContainsTransitive(n, "50000", "5");
    }
  }

  /** The unreachable checks change nothing: the parser equals the parser
      without them, on every input. */
  lemma ParseRevenueDeadChecks(s: string)
    ensures ParseRevenue(s) == ParseRevenueLive(s)
  {
    if s != "" {
      var n := NormalizeRevenue(s);
      LessThanShadowed(n);
      BetweenShadowed(n);
      assert BetweenBlock(n) == BetweenLive(n);
    }
  }

  // ---------------------------------------------------------------------
  // Classification
  // ---------------------------------------------------------------------

  /** The order of the tiers, the community tier lowest. */
  function Rank(q: Qualificacao): nat {
    match q
    case Comunidade => 0
    case Ruim => 1
    case Medio => 2
    case Qualificado => 3
    case Ultra => 4
  }

  const CabinCutoffs: seq<int> := [15000, 30000, 50000, 100000]
  const HotelCutoffs: seq<int> := [50000, 100000, 300000]

  function AtMost(v: int): int -> bool {
    c => c <= v
  }

  /** How many of the cutoffs `v` has reached. */
  function CutoffsReached(cutoffs: seq<int>, v: int): nat {
    Count(cutoffs, AtMost(v))
  }

  const CabinType: string := "Cabanas e Chalés"
  const OtherType: string := "Outros"
  const HotelType: string := "Hotel, Pousada ou Resort"
  const LowestLabel: string := "Menos de R$ 5 mil"

  /** The ladder for cabins, chalets and other lodgings. */
  function CabinLadder(v: int): (q: Qualificacao)
    ensures Rank(q) == CutoffsReached(CabinCutoffs, v)
  {
    if v < 15000 then Comunidade
    else if v < 30000 then Ruim
    else if v < 50000 then Medio
    else if v < 100000 then Qualificado
    else Ultra
  }

  /** The ladder for hotels, inns and resorts. */
  function HotelLadder(v: int): (q: Qualificacao)
    ensures Rank(q) == 1 + CutoffsReached(HotelCutoffs, v)
  {
    if v < 50000 then Ruim
    else if v < 100000 then Medio
    else if v < 300000 then Qualificado
    else Ultra
  }

  /** The label table consulted for any other lodging type. */
  const RevenueTable: map<string, Qualificacao> := map[
    "Menos de R$ 5 mil" := Comunidade,
    "Entre R$ 5 a R$ 20 mil" := Ruim,
    "Menos de R$ 20 mil" := Ruim,
    "Entre R$ 20 a R$ 50 mil" := Medio,
    "Entre R$ 50 a R$ 100 mil" := Qualificado,
    "Entre R$ 100 a R$ 500 mil" := Ultra,
    "Mais de R$ 500 mil" := Ultra,
    "Mais de R$ 100 mil" := Ultra
  ]

  /** The fallback: the table's tier for the label (RUIM when absent), then
      the lowest label forced to the community tier. */
  function FallbackQualification(lbl: string): (q: Qualificacao)
    ensures q == Comunidade <==> lbl == LowestLabel
    ensures lbl in RevenueTable ==> q == RevenueTable[lbl]
    ensures lbl !in RevenueTable ==> q == Ruim
  {
    var fromTable := if lbl in RevenueTable then RevenueTable[lbl] else Ruim;
    if lbl == LowestLabel then Comunidade else fromTable
  }

  /** `fonte && fonte.toLowerCase() === 'comunidade'`. */
  predicate IsCommunitySource(fonte: Option<string>) {
    fonte.Some? && fonte.value != "" && ToLower(fonte.value) == "comunidade"
  }

  /** `s?.trim() || ''`. */
  function TrimmedOrEmpty(s: Option<string>): string {
    if s.Some? then Trim(s.value) else ""
  }

  predicate IsCabinOrOther(tipo: string) {
    tipo == CabinType || tipo == OtherType
  }

  datatype Classification = Classification(qualificacao: Qualificacao, coluna: Coluna)

  /** `obterQualificacaoEColuna`. */
  function Classify(tipoHospedagem: Option<string>, faturamentoMedio: Option<string>, fonte: Option<string>): (r: Classification)
    ensures r.coluna == QualificationToColumn(r.qualificacao)
    ensures IsCommunitySource(fonte) ==> r.qualificacao == Comunidade
    ensures var tipo, fat := TrimmedOrEmpty(tipoHospedagem), TrimmedOrEmpty(faturamentoMedio);
      !IsCommunitySource(fonte) ==>
        (if IsCabinOrOther(tipo) then Rank(r.qualificacao) == CutoffsReached(CabinCutoffs, ParseRevenue(fat))
         else if tipo == HotelType then Rank(r.qualificacao) == 1 + CutoffsReached(HotelCutoffs, ParseRevenue(fat))
         else r.qualificacao == FallbackQualification(fat))
  {
    if IsCommunitySource(fonte) then
      Classification(Comunidade, ColunaComunidade)
    else
      var fat := TrimmedOrEmpty(faturamentoMedio);
      var tipo := TrimmedOrEmpty(tipoHospedagem);
      var valor := ParseRevenue(fat);
      var q :=
        if IsCabinOrOther(tipo) then CabinLadder(valor)
        else if tipo == HotelType then HotelLadder(valor)
        else FallbackQualification(fat);
      // The source repeats the community check before returning.
      if IsCommunitySource(fonte) then Classification(Comunidade, ColunaComunidade)
      else Classification(q, QualificationToColumn(q))
  }

  /** The attributes of a lead that classification reads. */
  datatype Intake = Intake(tipoHospedagem: Option<string>, faturamentoMedio: Option<string>, fonte: Option<string>)

  function ColumnOf(i: Intake): Coluna {
    Classify(i.tipoHospedagem, i.faturamentoMedio, i.fonte).coluna
  }

  // ---------------------------------------------------------------------
  // Properties of the classifier
  // ---------------------------------------------------------------------

  /** A community source wins whatever the lodging type and revenue. */
  lemma CommunityOverride(tipo: Option<string>, fat: Option<string>, fonte: Option<string>)
    requires fonte.Some? && ToLower(fonte.value) == "comunidade"
    ensures Classify(tipo, fat, fonte) == Classification(Comunidade, ColunaComunidade)
  {
    assert fonte.value != "";
  }

  /** A larger revenue value never gives a lower tier on the cabin ladder. */
  lemma CabinLadderMonotone(v1: int, v2: int)
    requires v1 <= v2
    ensures Rank(CabinLadder(v1)) <= Rank(CabinLadder(v2))
  {
    CountMonotone(CabinCutoffs, AtMost(v1), AtMost(v2));
  }

  /** A larger revenue value never gives a lower tier on the hotel ladder,
      and the hotel ladder never yields the community tier. */
  lemma HotelLadderMonotone(v1: int, v2: int)
    requires v1 <= v2
    ensures Rank(HotelLadder(v1)) <= Rank(HotelLadder(v2))
    ensures HotelLadder(v1) != Comunidade
  {
    CountMonotone(HotelCutoffs, AtMost(v1), AtMost(v2));
  }

  /** A value exactly at a cutoff belongs to the tier the cutoff opens. */
  lemma LadderCutoffsInclusive(k: nat)
    ensures k < |CabinCutoffs| ==>
      Rank(CabinLadder(CabinCutoffs[k])) == k + 1 && Rank(CabinLadder(CabinCutoffs[k] - 1)) == k
    ensures k < |HotelCutoffs| ==>
      Rank(HotelLadder(HotelCutoffs[k])) == k + 2 && Rank(HotelLadder(HotelCutoffs[k] - 1)) == k + 1
  {
  }

  /** On the two numeric ladders the tier is monotone in the parsed revenue;
      a hotel lead never lands in the community tier. */
  lemma ClassifyMonotone(tipo: Option<string>, fat1: Option<string>, fat2: Option<string>, fonte: Option<string>)
    requires !IsCommunitySource(fonte)
    requires IsCabinOrOther(TrimmedOrEmpty(tipo)) || TrimmedOrEmpty(tipo) == HotelType
    requires ParseRevenue(TrimmedOrEmpty(fat1)) <= ParseRevenue(TrimmedOrEmpty(fat2))
    ensures Rank(Classify(tipo, fat1, fonte).qualificacao) <= Rank(Classify(tipo, fat2, fonte).qualificacao)
    ensures TrimmedOrEmpty(tipo) == HotelType ==> Classify(tipo, fat1, fonte).qualificacao != Comunidade
  {
    var v1, v2 := ParseRevenue(TrimmedOrEmpty(fat1)), ParseRevenue(TrimmedOrEmpty(fat2));
    CabinLadderMonotone(v1, v2);
    HotelLadderMonotone(v1, v2);
  }

  // ---------------------------------------------------------------------
  // Visibility and grouping
  // ---------------------------------------------------------------------

  /** `podeVerQualificacao`. */
  function CanSeeQualification(visible: seq<Qualificacao>, q: Qualificacao): (r: bool)
    ensures r <==> exists i :: 0 <= i < |visible| && visible[i] == q
  {
    q in visible
  }

  /** The item's column is `c`; `column` is the classification of an item. */
  function InColumn<T>(column: T -> Coluna, c: Coluna): T -> bool {
    x => column(x) == c
  }

  /** The five columns' sizes. */
  function GroupSizes<T>(groups: map<Coluna, seq<T>>): int
    requires forall c :: c in groups
  {
    |groups[Nivel1]| + |groups[Nivel2]| + |groups[Nivel3]| + |groups[Nivel4]| + |groups[ColunaComunidade]|
  }

  /** Every item lies in exactly one column's list. */
  lemma {:induction false} ColumnCountsSum<T>(items: seq<T>, column: T -> Coluna)
    ensures Count(items, InColumn(column, Nivel1)) + Count(items, InColumn(column, Nivel2))
      + Count(items, InColumn(column, Nivel3)) + Count(items, InColumn(column, Nivel4))
      + Count(items, InColumn(column, ColunaComunidade)) == |items|
  {
    if |items| > 0 {
      ColumnCountsSum(items[1..], column);
    }
  }

  /** `agruparLeadsPorColuna`: every column is a key, each item appended to
      its own column's list in input order. */
  method GroupByColumn<T>(items: seq<T>, column: T -> Coluna) returns (groups: map<Coluna, seq<T>>)
    ensures forall c :: c in groups
    ensures forall c :: groups[c] == Filter(items, InColumn(column, c))
    ensures GroupSizes(groups) == |items|
  {
    groups := map[Nivel1 := [], Nivel2 := [], Nivel3 := [], Nivel4 := [], ColunaComunidade := []];
    forall c
      ensures c in groups
    {
      ColumnListed(c);
    }
    var i := 0;
    while i < |items|
      invariant 0 <= i <= |items|
      invariant forall c :: c in groups
      invariant forall c :: groups[c] == Filter(items[..i], InColumn(column, c))
    {
      var item := items[i];
      var coluna := column(item);
      forall c
        ensures Filter(items[..i + 1], InColumn(column, c)) ==
          Filter(items[..i], InColumn(column, c)) + (if c == coluna then [item] else [])
      {
        assert items[..i + 1] == items[..i] + [item];
        FilterConcat(items[..i], [item], InColumn(column, c));
      }
      groups := groups[coluna := groups[coluna] + [item]];
      i := i + 1;
    }
    assert items[..i] == items;
    ColumnCountsSum(items, column);
  }
}
