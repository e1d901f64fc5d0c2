/** The revenue parser evaluated on the labels the application offers: the
    six revenue choices of the lead intake form
    (src/components/CreateLeadModal.tsx), which are also keys of the fallback
    table in src/lib/kanban.ts.

    Each label is split at its '$' signs; normalisation works piecewise
    around them and no check's pattern uses '$', so every check reduces to
    the short pieces. */
module RevenueLabels {

  import opened Optional
  import opened Strings
  import opened Seqs
  import opened Kanban

  // ---------------------------------------------------------------------
  // The pieces between the '$' signs, normalised
  // ---------------------------------------------------------------------

  /** A label with one '$' normalises piece by piece. */
  lemma NormalizeTwoPieces(s: string, a: string, b: string, na: string, nb: string)
    requires s == a + "$" + b
    requires NormalizeRevenue(a) == na && NormalizeRevenue(b) == nb
    ensures NormalizeRevenue(s) == na + "$" + nb
  {
    NormalizeAcrossDollar(a, b);
  }

  /** A label with two '$' signs normalises piece by piece. */
  lemma NormalizeThreePieces(s: string, a: string, b: string, c: string, na: string, nb: string, nc: string)
    requires s == a + "$" + b + "$" + c
    requires NormalizeRevenue(a) == na && NormalizeRevenue(b) == nb && NormalizeRevenue(c) == nc
    ensures NormalizeRevenue(s) == na + "$" + nb + "$" + nc
  {
    NormalizeAcrossDollar(a + "$" + b, c);
    NormalizeAcrossDollar(a, b);
  }

  lemma LowerMenosDe()
    ensures LowerFrom("Menos de R", 0) == "menos de r"
  {
    assert LowerFrom("Menos de R", 5) == " de r";
  }

  lemma StripMenosDe()
    ensures StripFrom("menos de r", 0) == "menosder"
  {
    assert StripFrom("menos de r", 5) == "der";
  }

  lemma ReplaceMenosDe()
    ensures ReplaceAll("menosder", "k", "000") == "menosder"
    ensures ReplaceAll("menosder", "mil", "000") == "menosder"
  {
    ContainsChar("menosder", "k", 'k');
    assert !ContainsFrom("menosder", "mil", 0);
  }

  lemma NormalizeMenosDe()
    ensures NormalizeRevenue("Menos de R") == "menosder"
  {
    LowerMenosDe();
    StripMenosDe();
    ReplaceMenosDe();
  }

  lemma LowerCincoMil()
    ensures LowerFrom(" 5 mil", 0) == " 5 mil"
  {
  }

  lemma StripCincoMil()
    ensures StripFrom(" 5 mil", 0) == "5mil"
  {
  }

  lemma ReplaceCincoMil()
    ensures ReplaceAll("5mil", "k", "000") == "5mil"
    ensures ReplaceAll("5mil", "mil", "000") == "5000"
  {
    ContainsChar("5mil", "k", 'k');
    assert ReplaceFrom("5mil", "mil", "000", 0) == "5000";
  }

  lemma NormalizeCincoMil()
    ensures NormalizeRevenue(" 5 mil") == "5000"
  {
    LowerCincoMil();
    StripCincoMil();
    ReplaceCincoMil();
  }

  lemma LowerEntre()
    ensures LowerFrom("Entre R", 0) == "entre r"
  {
    assert LowerFrom("Entre R", 5) == " r";
  }

  lemma StripEntre()
    ensures StripFrom("entre r", 0) == "entrer"
  {
    assert StripFrom("entre r", 5) == "r";
  }

  lemma ReplaceEntre()
    ensures ReplaceAll("entrer", "k", "000") == "entrer"
    ensures ReplaceAll("entrer", "mil", "000") == "entrer"
  {
    ContainsChar("entrer", "k", 'k');
    ContainsChar("entrer", "mil", 'm');
  }

  lemma NormalizeEntre()
    ensures NormalizeRevenue("Entre R") == "entrer"
  {
    LowerEntre();
    StripEntre();
    ReplaceEntre();
  }

  lemma LowerCincoA()
    ensures LowerFrom(" 5 a R", 0) == " 5 a r"
  {
  }

  lemma StripCincoA()
    ensures StripFrom(" 5 a r", 0) == "5ar"
  {
  }

  lemma ReplaceCincoA()
    ensures ReplaceAll("5ar", "k", "000") == "5ar"
    ensures ReplaceAll("5ar", "mil", "000") == "5ar"
  {
    ContainsChar("5ar", "k", 'k');
    ContainsChar("5ar", "mil", 'm');
  }

  lemma NormalizeCincoA()
    ensures NormalizeRevenue(" 5 a R") == "5ar"
  {
    LowerCincoA();
    StripCincoA();
    ReplaceCincoA();
  }

  lemma LowerVinteMil()
    ensures LowerFrom(" 20 mil", 0) == " 20 mil"
  {
    assert LowerFrom(" 20 mil", 5) == "il";
  }

  lemma StripVinteMil()
    ensures StripFrom(" 20 mil", 0) == "20mil"
  {
    assert StripFrom(" 20 mil", 5) == "il";
  }

  lemma ReplaceVinteMil()
    ensures ReplaceAll("20mil", "k", "000") == "20mil"
    ensures ReplaceAll("20mil", "mil", "000") == "20000"
  {
    ContainsChar("20mil", "k", 'k');
    assert ReplaceFrom("20mil", "mil", "000", 0) == "20000";
  }

  lemma NormalizeVinteMil()
    ensures NormalizeRevenue(" 20 mil") == "20000"
  {
    LowerVinteMil();
    StripVinteMil();
    ReplaceVinteMil();
  }

  lemma LowerVinteA()
    ensures LowerFrom(" 20 a R", 0) == " 20 a r"
  {
    assert LowerFrom(" 20 a R", 5) == " r";
  }

  lemma StripVinteA()
    ensures StripFrom(" 20 a r", 0) == "20ar"
  {
    assert StripFrom(" 20 a r", 5) == "r";
  }

  lemma ReplaceVinteA()
    ensures ReplaceAll("20ar", "k", "000") == "20ar"
    ensures ReplaceAll("20ar", "mil", "000") == "20ar"
  {
    ContainsChar("20ar", "k", 'k');
    ContainsChar("20ar", "mil", 'm');
  }

  lemma NormalizeVinteA()
    ensures NormalizeRevenue(" 20 a R") == "20ar"
  {
    LowerVinteA();
    StripVinteA();
    ReplaceVinteA();
  }

  lemma LowerCinquentaMil()
    ensures LowerFrom(" 50 mil", 0) == " 50 mil"
  {
    assert LowerFrom(" 50 mil", 5) == "il";
  }

  lemma StripCinquentaMil()
    ensures StripFrom(" 50 mil", 0) == "50mil"
  {
    assert StripFrom(" 50 mil", 5) == "il";
  }

  lemma ReplaceCinquentaMil()
    ensures ReplaceAll("50mil", "k", "000") == "50mil"
    ensures ReplaceAll("50mil", "mil", "000") == "50000"
  {
    ContainsChar("50mil", "k", 'k');
    assert ReplaceFrom("50mil", "mil", "000", 0) == "50000";
  }

  lemma NormalizeCinquentaMil()
    ensures NormalizeRevenue(" 50 mil") == "50000"
  {
    LowerCinquentaMil();
    StripCinquentaMil();
    ReplaceCinquentaMil();
  }

  lemma LowerCinquentaA()
    ensures LowerFrom(" 50 a R", 0) == " 50 a r"
  {
    assert LowerFrom(" 50 a R", 5) == " r";
  }

  lemma StripCinquentaA()
    ensures StripFrom(" 50 a r", 0) == "50ar"
  {
    assert StripFrom(" 50 a r", 5) == "r";
  }

  lemma ReplaceCinquentaA()
    ensures ReplaceAll("50ar", "k", "000") == "50ar"
    ensures ReplaceAll("50ar", "mil", "000") == "50ar"
  {
    ContainsChar("50ar", "k", 'k');
    ContainsChar("50ar", "mil", 'm');
  }

  lemma NormalizeCinquentaA()
    ensures NormalizeRevenue(" 50 a R") == "50ar"
  {
    LowerCinquentaA();
    StripCinquentaA();
    ReplaceCinquentaA();
  }

  lemma LowerCemMil()
    ensures LowerFrom(" 100 mil", 0) == " 100 mil"
  {
    assert LowerFrom(" 100 mil", 5) == "mil";
  }

  lemma StripCemMil()
    ensures StripFrom(" 100 mil", 0) == "100mil"
  {
    assert StripFrom(" 100 mil", 5) == "mil";
  }

  lemma ReplaceCemMil()
    ensures ReplaceAll("100mil", "k", "000") == "100mil"
    ensures ReplaceAll("100mil", "mil", "000") == "100000"
  {
    ContainsChar("100mil", "k", 'k');
    assert ReplaceFrom("100mil", "mil", "000", 0) == "100000";
  }

  lemma NormalizeCemMil()
    ensures NormalizeRevenue(" 100 mil") == "100000"
  {
    LowerCemMil();
    StripCemMil();
    ReplaceCemMil();
  }

  lemma LowerCemA()
    ensures LowerFrom(" 100 a R", 0) == " 100 a r"
  {
    assert LowerFrom(" 100 a R", 5) == "a r";
  }

  lemma StripCemA()
    ensures StripFrom(" 100 a r", 0) == "100ar"
  {
    assert StripFrom(" 100 a r", 5) == "ar";
  }

  lemma ReplaceCemA()
    ensures ReplaceAll("100ar", "k", "000") == "100ar"
    ensures ReplaceAll("100ar", "mil", "000") == "100ar"
  {
    ContainsChar("100ar", "k", 'k');
    ContainsChar("100ar", "mil", 'm');
  }

  lemma NormalizeCemA()
    ensures NormalizeRevenue(" 100 a R") == "100ar"
  {
    LowerCemA();
    StripCemA();
    ReplaceCemA();
  }

  lemma LowerQuinhentosMil()
    ensures LowerFrom(" 500 mil", 0) == " 500 mil"
  {
    assert LowerFrom(" 500 mil", 5) == "mil";
  }

  lemma StripQuinhentosMil()
    ensures StripFrom(" 500 mil", 0) == "500mil"
  {
    assert StripFrom(" 500 mil", 5) == "mil";
  }

  lemma ReplaceQuinhentosMil()
    ensures ReplaceAll("500mil", "k", "000") == "500mil"
    ensures ReplaceAll("500mil", "mil", "000") == "500000"
  {
    ContainsChar("500mil", "k", 'k');
    assert ReplaceFrom("500mil", "mil", "000", 0) == "500000";
  }

  lemma NormalizeQuinhentosMil()
    ensures NormalizeRevenue(" 500 mil") == "500000"
  {
    LowerQuinhentosMil();
    StripQuinhentosMil();
    ReplaceQuinhentosMil();
  }

  lemma LowerMaisDe()
    ensures LowerFrom("Mais de R", 0) == "mais de r"
  {
    assert LowerFrom("Mais de R", 5) == "de r";
  }

  lemma StripMaisDe()
    ensures StripFrom("mais de r", 0) == "maisder"
  {
    assert StripFrom("mais de r", 5) == "der";
  }

  lemma ReplaceMaisDe()
    ensures ReplaceAll("maisder", "k", "000") == "maisder"
    ensures ReplaceAll("maisder", "mil", "000") == "maisder"
  {
    ContainsChar("maisder", "k", 'k');
    assert !ContainsFrom("maisder", "mil", 0);
  }

  lemma NormalizeMaisDe()
    ensures NormalizeRevenue("Mais de R") == "maisder"
  {
    LowerMaisDe();
    StripMaisDe();
    ReplaceMaisDe();
  }

  // ---------------------------------------------------------------------
  // The labels
  // ---------------------------------------------------------------------

  /** A quick reason why `p` does not occur in the piece `s`: `s` is no longer
      than `p` and differs from it, or `s` lacks the character `c` of `p`. */
  predicate Excludes(s: string, p: string, c: char) {
    (|s| <= |p| && s != p) || (c in p && c !in s)
  }

  lemma ExcludesSpec(s: string, p: string, c: char)
    ensures Excludes(s, p, c) ==> !Contains(s, p)
  {
    if Contains(s, p) {
      ContainsOccurs(s, p);
      var k :| OccursAt(s, p, k);
      if |s| <= |p| {
        assert k == 0 && s[0..|p|] == s;
      }
      ContainsChar(s, p, c);
    }
  }

  predicate Begins(s: string, p: string) {
    |p| <= |s| && s[..|p|] == p
  }

  lemma BeginsContains(s: string, p: string)
    requires Begins(s, p)
    ensures Contains(s, p)
  {
    ContainsOccurs(s, p);
    assert OccursAt(s, p, 0);
  }

  /** A pattern without '$' is absent from a two-piece label when each piece
      excludes it. */
  lemma LacksTwo(a: string, b: string, p: string, ca: char, cb: char)
    requires '$' !in p && Excludes(a, p, ca) && Excludes(b, p, cb)
    ensures !Contains(a + "$" + b, p)
  {
    ContainsAcrossSeparator(a, '$', b, p);
    ExcludesSpec(a, p, ca);
    ExcludesSpec(b, p, cb);
  }

  lemma LacksThree(a: string, b: string, d: string, p: string, ca: char, cb: char, cd: char)
    requires '$' !in p && Excludes(a, p, ca) && Excludes(b, p, cb) && Excludes(d, p, cd)
    ensures !Contains(a + "$" + b + "$" + d, p)
  {
    ContainsAcrossSeparator(a + "$" + b, '$', d, p);
    LacksTwo(a, b, p, ca, cb);
    ExcludesSpec(d, p, cd);
  }

  /** A pattern without '$' that begins one of the pieces occurs in the
      label. */
  lemma HasTwo(a: string, b: string, p: string)
    requires '$' !in p && (Begins(a, p) || Begins(b, p))
    ensures Contains(a + "$" + b, p)
  {
    ContainsAcrossSeparator(a, '$', b, p);
    if Begins(a, p) {
      BeginsContains(a, p);
    } else {
      BeginsContains(b, p);
    }
  }

  lemma HasThree(a: string, b: string, d: string, p: string)
    requires '$' !in p && (Begins(a, p) || Begins(b, p) || Begins(d, p))
    ensures Contains(a + "$" + b + "$" + d, p)
  {
    ContainsAcrossSeparator(a + "$" + b, '$', d, p);
    if Begins(d, p) {
      BeginsContains(d, p);
    } else {
      HasTwo(a, b, p);
    }
  }

  lemma NormalizeMenosDeCincoMil()
    ensures NormalizeRevenue("Menos de R$ 5 mil") == "menosder" + "$" + "5000"
  {
    var s := "Menos de R$ 5 mil";
    var a, b := "Menos de R", " 5 mil";
    assert s == a + "$" + b;
    NormalizeMenosDe();
    NormalizeCincoMil();
    NormalizeTwoPieces(s, a, b, "menosder", "5000");
  }

  /** The block words: which of "menos de", "entre" and "mais de" the
      normalised label contains. */
  lemma MenosDeCincoMilWords()
    ensures Contains("menosder" + "$" + "5000", "menosde")
    ensures !Contains("menosder" + "$" + "5000", "entre")
    ensures !Contains("menosder" + "$" + "5000", "maisde")
  {
    var a, b := "menosder", "5000";
    assert Contains(a + "$" + b, "menosde") by { HasTwo(a, b, "menosde"); }
    assert !Contains(a + "$" + b, "entre") by { LacksTwo(a, b, "entre", 't', 'e'); }
    assert !Contains(a + "$" + b, "maisde") by { LacksTwo(a, b, "maisde", 'a', 'm'); }
  }

  /** The amounts up to 30000 the checks look for. */
  lemma MenosDeCincoMilSmallAmounts()
    ensures Contains("menosder" + "$" + "5000", "5000")
    ensures !Contains("menosder" + "$" + "5000", "15000")
    ensures !Contains("menosder" + "$" + "5000", "20000")
    ensures !Contains("menosder" + "$" + "5000", "50000")
    ensures Contains("menosder" + "$" + "5000", "5")
    ensures !Contains("menosder" + "$" + "5000", "30000")
  {
    var a, b := "menosder", "5000";
    assert Contains(a + "$" + b, "5000") by { HasTwo(a, b, "5000"); }
    assert !Contains(a + "$" + b, "15000") by { LacksTwo(a, b, "15000", '1', '1'); }
    assert !Contains(a + "$" + b, "20000") by { LacksTwo(a, b, "20000", '2', '2'); }
    assert !Contains(a + "$" + b, "50000") by { LacksTwo(a, b, "50000", '5', '5'); }
    assert Contains(a + "$" + b, "5") by { HasTwo(a, b, "5"); }
    assert !Contains(a + "$" + b, "30000") by { LacksTwo(a, b, "30000", '3', '3'); }
  }

  /** The amounts from 100000 up the checks look for. */
  lemma MenosDeCincoMilLargeAmounts()
    ensures !Contains("menosder" + "$" + "5000", "100000")
    ensures !Contains("menosder" + "$" + "5000", "300000")
    ensures !Contains("menosder" + "$" + "5000", "500000")
    ensures !Contains("menosder" + "$" + "5000", "800000")
    ensures !Contains("menosder" + "$" + "5000", "2mm")
  {
    var a, b := "menosder", "5000";
    assert !Contains(a + "$" + b, "100000") by { LacksTwo(a, b, "100000", '1', '1'); }
    assert !Contains(a + "$" + b, "300000") by { LacksTwo(a, b, "300000", '3', '3'); }
    assert !Contains(a + "$" + b, "500000") by { LacksTwo(a, b, "500000", '5', '5'); }
    assert !Contains(a + "$" + b, "800000") by { LacksTwo(a, b, "800000", '8', '8'); }
    assert !Contains(a + "$" + b, "2mm") by { LacksTwo(a, b, "2mm", '2', '2'); }
  }

  /** The "menos de" block matches "5000" first. */
  lemma ParseMenosDeCincoMil()
    ensures ParseRevenue("Menos de R$ 5 mil") == 2500
  {
    NormalizeMenosDeCincoMil();
    MenosDeCincoMilWords();
    MenosDeCincoMilSmallAmounts();
    MenosDeCincoMilLargeAmounts();
  }

  lemma NormalizeEntreCincoEVinte()
    ensures NormalizeRevenue("Entre R$ 5 a R$ 20 mil") == "entrer" + "$" + "5ar" + "$" + "20000"
  {
    var s := "Entre R$ 5 a R$ 20 mil";
    var a, b, c := "Entre R", " 5 a R", " 20 mil";
    assert s == a + "$" + b + "$" + c;
    NormalizeEntre();
    NormalizeCincoA();
    NormalizeVinteMil();
    NormalizeThreePieces(s, a, b, c, "entrer", "5ar", "20000");
  }

  /** The block words: which of "menos de", "entre" and "mais de" the
      normalised label contains. */
  lemma EntreCincoEVinteWords()
    ensures !Contains("entrer" + "$" + "5ar" + "$" + "20000", "menosde")
    ensures Contains("entrer" + "$" + "5ar" + "$" + "20000", "entre")
    ensures !Contains("entrer" + "$" + "5ar" + "$" + "20000", "maisde")
  {
    var a, b, c := "entrer", "5ar", "20000";
    assert !Contains(a + "$" + b + "$" + c, "menosde") by { LacksThree(a, b, c, "menosde", 'm', 'm', 'm'); }
    assert Contains(a + "$" + b + "$" + c, "entre") by { HasThree(a, b, c, "entre"); }
    assert !Contains(a + "$" + b + "$" + c, "maisde") by { LacksThree(a, b, c, "maisde", 'm', 'm', 'm'); }
  }

  /** The amounts up to 30000 the checks look for. */
  lemma EntreCincoEVinteSmallAmounts()
    ensures !Contains("entrer" + "$" + "5ar" + "$" + "20000", "5000")
    ensures !Contains("entrer" + "$" + "5ar" + "$" + "20000", "15000")
    ensures Contains("entrer" + "$" + "5ar" + "$" + "20000", "20000")
    ensures !Contains("entrer" + "$" + "5ar" + "$" + "20000", "50000")
    ensures Contains("entrer" + "$" + "5ar" + "$" + "20000", "5")
    ensures !Contains("entrer" + "$" + "5ar" + "$" + "20000", "30000")
  {
    var a, b, c := "entrer", "5ar", "20000";
    assert !Contains(a + "$" + b + "$" + c, "5000") by { LacksThree(a, b, c, "5000", '5', '5', '5'); }
    assert !Contains(a + "$" + b + "$" + c, "15000") by { LacksThree(a, b, c, "15000", '1', '1', '1'); }
    assert Contains(a + "$" + b + "$" + c, "20000") by { HasThree(a, b, c, "20000"); }
    assert !Contains(a + "$" + b + "$" + c, "50000") by { LacksThree(a, b, c, "50000", '5', '5', '5'); }
    assert Contains(a + "$" + b + "$" + c, "5") by { HasThree(a, b, c, "5"); }
    assert !Contains(a + "$" + b + "$" + c, "30000") by { LacksThree(a, b, c, "30000", '3', '3', '3'); }
  }

  /** The amounts from 100000 up the checks look for. */
  lemma EntreCincoEVinteLargeAmounts()
    ensures !Contains("entrer" + "$" + "5ar" + "$" + "20000", "100000")
    ensures !Contains("entrer" + "$" + "5ar" + "$" + "20000", "300000")
    ensures !Contains("entrer" + "$" + "5ar" + "$" + "20000", "500000")
    ensures !Contains("entrer" + "$" + "5ar" + "$" + "20000", "800000")
    ensures !Contains("entrer" + "$" + "5ar" + "$" + "20000", "2mm")
  {
    var a, b, c := "entrer", "5ar", "20000";
    assert !Contains(a + "$" + b + "$" + c, "100000") by { LacksThree(a, b, c, "100000", '1', '1', '1'); }
    assert !Contains(a + "$" + b + "$" + c, "300000") by { LacksThree(a, b, c, "300000", '3', '3', '3'); }
    assert !Contains(a + "$" + b + "$" + c, "500000") by { LacksThree(a, b, c, "500000", '5', '5', '5'); }
    assert !Contains(a + "$" + b + "$" + c, "800000") by { LacksThree(a, b, c, "800000", '8', '8', '8'); }
    assert !Contains(a + "$" + b + "$" + c, "2mm") by { LacksThree(a, b, c, "2mm", '2', '2', 'm'); }
  }

  /** The "entre" block matches "5" and "20000" first. */
  lemma ParseEntreCincoEVinte()
    ensures ParseRevenue("Entre R$ 5 a R$ 20 mil") == 12500
  {
    NormalizeEntreCincoEVinte();
    EntreCincoEVinteWords();
    EntreCincoEVinteSmallAmounts();
    EntreCincoEVinteLargeAmounts();
  }

  lemma NormalizeEntreVinteECinquenta()
    ensures NormalizeRevenue("Entre R$ 20 a R$ 50 mil") == "entrer" + "$" + "20ar" + "$" + "50000"
  {
    var s := "Entre R$ 20 a R$ 50 mil";
    var a, b, c := "Entre R", " 20 a R", " 50 mil";
    assert s == a + "$" + b + "$" + c;
    NormalizeEntre();
    NormalizeVinteA();
    NormalizeCinquentaMil();
    NormalizeThreePieces(s, a, b, c, "entrer", "20ar", "50000");
  }

  /** The block words: which of "menos de", "entre" and "mais de" the
      normalised label contains. */
  lemma EntreVinteECinquentaWords()
    ensures !Contains("entrer" + "$" + "20ar" + "$" + "50000", "menosde")
    ensures Contains("entrer" + "$" + "20ar" + "$" + "50000", "entre")
    ensures !Contains("entrer" + "$" + "20ar" + "$" + "50000", "maisde")
  {
    var a, b, c := "entrer", "20ar", "50000";
    assert !Contains(a + "$" + b + "$" + c, "menosde") by { LacksThree(a, b, c, "menosde", 'm', 'm', 'm'); }
    assert Contains(a + "$" + b + "$" + c, "entre") by { HasThree(a, b, c, "entre"); }
    assert !Contains(a + "$" + b + "$" + c, "maisde") by { LacksThree(a, b, c, "maisde", 'm', 'm', 'm'); }
  }

  /** The amounts up to 30000 the checks look for. */
  lemma EntreVinteECinquentaSmallAmounts()
    ensures Contains("entrer" + "$" + "20ar" + "$" + "50000", "5000")
    ensures !Contains("entrer" + "$" + "20ar" + "$" + "50000", "15000")
    ensures !Contains("entrer" + "$" + "20ar" + "$" + "50000", "20000")
    ensures Contains("entrer" + "$" + "20ar" + "$" + "50000", "50000")
    ensures Contains("entrer" + "$" + "20ar" + "$" + "50000", "5")
    ensures !Contains("entrer" + "$" + "20ar" + "$" + "50000", "30000")
  {
    var a, b, c := "entrer", "20ar", "50000";
    assert Contains(a + "$" + b + "$" + c, "5000") by { HasThree(a, b, c, "5000"); }
    assert !Contains(a + "$" + b + "$" + c, "15000") by { LacksThree(a, b, c, "15000", '1', '1', '1'); }
    assert !Contains(a + "$" + b + "$" + c, "20000") by { LacksThree(a, b, c, "20000", '2', '2', '2'); }
    assert Contains(a + "$" + b + "$" + c, "50000") by { HasThree(a, b, c, "50000"); }
    assert Contains(a + "$" + b + "$" + c, "5") by { HasThree(a, b, c, "5"); }
    assert !Contains(a + "$" + b + "$" + c, "30000") by { LacksThree(a, b, c, "30000", '3', '3', '3'); }
  }

  /** The amounts from 100000 up the checks look for. */
  lemma EntreVinteECinquentaLargeAmounts()
    ensures !Contains("entrer" + "$" + "20ar" + "$" + "50000", "100000")
    ensures !Contains("entrer" + "$" + "20ar" + "$" + "50000", "300000")
    ensures !Contains("entrer" + "$" + "20ar" + "$" + "50000", "500000")
    ensures !Contains("entrer" + "$" + "20ar" + "$" + "50000", "800000")
    ensures !Contains("entrer" + "$" + "20ar" + "$" + "50000", "2mm")
  {
    var a, b, c := "entrer", "20ar", "50000";
    assert !Contains(a + "$" + b + "$" + c, "100000") by { LacksThree(a, b, c, "100000", '1', '1', '1'); }
    assert !Contains(a + "$" + b + "$" + c, "300000") by { LacksThree(a, b, c, "300000", '3', '3', '3'); }
    assert !Contains(a + "$" + b + "$" + c, "500000") by { LacksThree(a, b, c, "500000", '5', '5', '5'); }
    assert !Contains(a + "$" + b + "$" + c, "800000") by { LacksThree(a, b, c, "800000", '8', '8', '8'); }
    assert !Contains(a + "$" + b + "$" + c, "2mm") by { LacksThree(a, b, c, "2mm", '2', 'm', '2'); }
  }

  /** Only the second amount carries "mil", so "20000" never appears and no "entre" check matches. */
  lemma ParseEntreVinteECinquenta()
    ensures ParseRevenue("Entre R$ 20 a R$ 50 mil") == 0
  {
    NormalizeEntreVinteECinquenta();
    EntreVinteECinquentaWords();
    EntreVinteECinquentaSmallAmounts();
    EntreVinteECinquentaLargeAmounts();
  }

  lemma NormalizeEntreCinquentaECem()
    ensures NormalizeRevenue("Entre R$ 50 a R$ 100 mil") == "entrer" + "$" + "50ar" + "$" + "100000"
  {
    var s := "Entre R$ 50 a R$ 100 mil";
    var a, b, c := "Entre R", " 50 a R", " 100 mil";
    assert s == a + "$" + b + "$" + c;
    NormalizeEntre();
    NormalizeCinquentaA();
    NormalizeCemMil();
    NormalizeThreePieces(s, a, b, c, "entrer", "50ar", "100000");
  }

  /** The block words: which of "menos de", "entre" and "mais de" the
      normalised label contains. */
  lemma EntreCinquentaECemWords()
    ensures !Contains("entrer" + "$" + "50ar" + "$" + "100000", "menosde")
    ensures Contains("entrer" + "$" + "50ar" + "$" + "100000", "entre")
    ensures !Contains("entrer" + "$" + "50ar" + "$" + "100000", "maisde")
  {
    var a, b, c := "entrer", "50ar", "100000";
    assert !Contains(a + "$" + b + "$" + c, "menosde") by { LacksThree(a, b, c, "menosde", 'm', 'm', 'm'); }
    assert Contains(a + "$" + b + "$" + c, "entre") by { HasThree(a, b, c, "entre"); }
    assert !Contains(a + "$" + b + "$" + c, "maisde") by { LacksThree(a, b, c, "maisde", 'm', 'm', 'm'); }
  }

  /** The amounts up to 30000 the checks look for. */
  lemma EntreCinquentaECemSmallAmounts()
    ensures !Contains("entrer" + "$" + "50ar" + "$" + "100000", "5000")
    ensures !Contains("entrer" + "$" + "50ar" + "$" + "100000", "15000")
    ensures !Contains("entrer" + "$" + "50ar" + "$" + "100000", "20000")
    ensures !Contains("entrer" + "$" + "50ar" + "$" + "100000", "50000")
    ensures Contains("entrer" + "$" + "50ar" + "$" + "100000", "5")
    ensures !Contains("entrer" + "$" + "50ar" + "$" + "100000", "30000")
  {
    var a, b, c := "entrer", "50ar", "100000";
    assert !Contains(a + "$" + b + "$" + c, "5000") by { LacksThree(a, b, c, "5000", '5', '5', '5'); }
    assert !Contains(a + "$" + b + "$" + c, "15000") by { LacksThree(a, b, c, "15000", '1', '1', '5'); }
    assert !Contains(a + "$" + b + "$" + c, "20000") by { LacksThree(a, b, c, "20000", '2', '2', '2'); }
    assert !Contains(a + "$" + b + "$" + c, "50000") by { LacksThree(a, b, c, "50000", '5', '5', '5'); }
    assert Contains(a + "$" + b + "$" + c, "5") by { HasThree(a, b, c, "5"); }
    assert !Contains(a + "$" + b + "$" + c, "30000") by { LacksThree(a, b, c, "30000", '3', '3', '3'); }
  }

  /** The amounts from 100000 up the checks look for. */
  lemma EntreCinquentaECemLargeAmounts()
    ensures Contains("entrer" + "$" + "50ar" + "$" + "100000", "100000")
    ensures !Contains("entrer" + "$" + "50ar" + "$" + "100000", "300000")
    ensures !Contains("entrer" + "$" + "50ar" + "$" + "100000", "500000")
    ensures !Contains("entrer" + "$" + "50ar" + "$" + "100000", "800000")
    ensures !Contains("entrer" + "$" + "50ar" + "$" + "100000", "2mm")
  {
    var a, b, c := "entrer", "50ar", "100000";
    assert Contains(a + "$" + b + "$" + c, "100000") by { HasThree(a, b, c, "100000"); }
    assert !Contains(a + "$" + b + "$" + c, "300000") by { LacksThree(a, b, c, "300000", '3', '3', '3'); }
    assert !Contains(a + "$" + b + "$" + c, "500000") by { LacksThree(a, b, c, "500000", '5', '5', '5'); }
    assert !Contains(a + "$" + b + "$" + c, "800000") by { LacksThree(a, b, c, "800000", '8', '8', '8'); }
    assert !Contains(a + "$" + b + "$" + c, "2mm") by { LacksThree(a, b, c, "2mm", '2', '2', '2'); }
  }

  /** Only "100000" appears; its partners "300000" and "500000" do not, and "50000" is absent. */
  lemma ParseEntreCinquentaECem()
    ensures ParseRevenue("Entre R$ 50 a R$ 100 mil") == 0
  {
    NormalizeEntreCinquentaECem();
    EntreCinquentaECemWords();
    EntreCinquentaECemSmallAmounts();
    EntreCinquentaECemLargeAmounts();
  }

  lemma NormalizeEntreCemEQuinhentos()
    ensures NormalizeRevenue("Entre R$ 100 a R$ 500 mil") == "entrer" + "$" + "100ar" + "$" + "500000"
  {
    var s := "Entre R$ 100 a R$ 500 mil";
    var a, b, c := "Entre R", " 100 a R", " 500 mil";
    assert s == a + "$" + b + "$" + c;
    NormalizeEntre();
    NormalizeCemA();
    NormalizeQuinhentosMil();
    NormalizeThreePieces(s, a, b, c, "entrer", "100ar", "500000");
  }

  /** The block words: which of "menos de", "entre" and "mais de" the
      normalised label contains. */
  lemma EntreCemEQuinhentosWords()
    ensures !Contains("entrer" + "$" + "100ar" + "$" + "500000", "menosde")
    ensures Contains("entrer" + "$" + "100ar" + "$" + "500000", "entre")
    ensures !Contains("entrer" + "$" + "100ar" + "$" + "500000", "maisde")
  {
    var a, b, c := "entrer", "100ar", "500000";
    assert !Contains(a + "$" + b + "$" + c, "menosde") by { LacksThree(a, b, c, "menosde", 'm', 'm', 'm'); }
    assert Contains(a + "$" + b + "$" + c, "entre") by { HasThree(a, b, c, "entre"); }
    assert !Contains(a + "$" + b + "$" + c, "maisde") by { LacksThree(a, b, c, "maisde", 'm', 'm', 'm'); }
  }

  /** The amounts up to 30000 the checks look for. */
  lemma EntreCemEQuinhentosSmallAmounts()
    ensures Contains("entrer" + "$" + "100ar" + "$" + "500000", "5000")
    ensures !Contains("entrer" + "$" + "100ar" + "$" + "500000", "15000")
    ensures !Contains("entrer" + "$" + "100ar" + "$" + "500000", "20000")
    ensures Contains("entrer" + "$" + "100ar" + "$" + "500000", "50000")
    ensures Contains("entrer" + "$" + "100ar" + "$" + "500000", "5")
    ensures !Contains("entrer" + "$" + "100ar" + "$" + "500000", "30000")
  {
    var a, b, c := "entrer", "100ar", "500000";
    assert Contains(a + "$" + b + "$" + c, "5000") by { HasThree(a, b, c, "5000"); }
    assert !Contains(a + "$" + b + "$" + c, "15000") by { LacksThree(a, b, c, "15000", '1', '1', '1'); }
    assert !Contains(a + "$" + b + "$" + c, "20000") by { LacksThree(a, b, c, "20000", '2', '2', '2'); }
    assert Contains(a + "$" + b + "$" + c, "50000") by { HasThree(a, b, c, "50000"); }
    assert Contains(a + "$" + b + "$" + c, "5") by { HasThree(a, b, c, "5"); }
    assert !Contains(a + "$" + b + "$" + c, "30000") by { LacksThree(a, b, c, "30000", '3', '3', '3'); }
  }

  /** The amounts from 100000 up the checks look for. */
  lemma EntreCemEQuinhentosLargeAmounts()
    ensures !Contains("entrer" + "$" + "100ar" + "$" + "500000", "100000")
    ensures !Contains("entrer" + "$" + "100ar" + "$" + "500000", "300000")
    ensures Contains("entrer" + "$" + "100ar" + "$" + "500000", "500000")
    ensures !Contains("entrer" + "$" + "100ar" + "$" + "500000", "800000")
    ensures !Contains("entrer" + "$" + "100ar" + "$" + "500000", "2mm")
  {
    var a, b, c := "entrer", "100ar", "500000";
    assert !Contains(a + "$" + b + "$" + c, "100000") by { LacksThree(a, b, c, "100000", '1', '1', '1'); }
    assert !Contains(a + "$" + b + "$" + c, "300000") by { LacksThree(a, b, c, "300000", '3', '3', '3'); }
    assert Contains(a + "$" + b + "$" + c, "500000") by { HasThree(a, b, c, "500000"); }
    assert !Contains(a + "$" + b + "$" + c, "800000") by { LacksThree(a, b, c, "800000", '8', '8', '8'); }
    assert !Contains(a + "$" + b + "$" + c, "2mm") by { LacksThree(a, b, c, "2mm", '2', '2', '2'); }
  }

  /** "500000" appears but "100000" does not, so no "entre" check matches. */
  lemma ParseEntreCemEQuinhentos()
    ensures ParseRevenue("Entre R$ 100 a R$ 500 mil") == 0
  {
    NormalizeEntreCemEQuinhentos();
    EntreCemEQuinhentosWords();
    EntreCemEQuinhentosSmallAmounts();
    EntreCemEQuinhentosLargeAmounts();
  }

  lemma NormalizeMaisDeQuinhentosMil()
    ensures NormalizeRevenue("Mais de R$ 500 mil") == "maisder" + "$" + "500000"
  {
    var s := "Mais de R$ 500 mil";
    var a, b := "Mais de R", " 500 mil";
    assert s == a + "$" + b;
    NormalizeMaisDe();
    NormalizeQuinhentosMil();
    NormalizeTwoPieces(s, a, b, "maisder", "500000");
  }

  /** The block words: which of "menos de", "entre" and "mais de" the
      normalised label contains. */
  lemma MaisDeQuinhentosMilWords()
    ensures !Contains("maisder" + "$" + "500000", "menosde")
    ensures !Contains("maisder" + "$" + "500000", "entre")
    ensures Contains("maisder" + "$" + "500000", "maisde")
  {
    var a, b := "maisder", "500000";
    assert !Contains(a + "$" + b, "menosde") by { LacksTwo(a, b, "menosde", 'm', 'm'); }
    assert !Contains(a + "$" + b, "entre") by { LacksTwo(a, b, "entre", 'n', 'e'); }
    assert Contains(a + "$" + b, "maisde") by { HasTwo(a, b, "maisde"); }
  }

  /** The amounts up to 30000 the checks look for. */
  lemma MaisDeQuinhentosMilSmallAmounts()
    ensures Contains("maisder" + "$" + "500000", "5000")
    ensures !Contains("maisder" + "$" + "500000", "15000")
    ensures !Contains("maisder" + "$" + "500000", "20000")
    ensures Contains("maisder" + "$" + "500000", "50000")
    ensures Contains("maisder" + "$" + "500000", "5")
    ensures !Contains("maisder" + "$" + "500000", "30000")
  {
    var a, b := "maisder", "500000";
    assert Contains(a + "$" + b, "5000") by { HasTwo(a, b, "5000"); }
    assert !Contains(a + "$" + b, "15000") by { LacksTwo(a, b, "15000", '1', '1'); }
    assert !Contains(a + "$" + b, "20000") by { LacksTwo(a, b, "20000", '2', '2'); }
    assert Contains(a + "$" + b, "50000") by { HasTwo(a, b, "50000"); }
    assert Contains(a + "$" + b, "5") by { HasTwo(a, b, "5"); }
    assert !Contains(a + "$" + b, "30000") by { LacksTwo(a, b, "30000", '3', '3'); }
  }

  /** The amounts from 100000 up the checks look for. */
  lemma MaisDeQuinhentosMilLargeAmounts()
    ensures !Contains("maisder" + "$" + "500000", "100000")
    ensures !Contains("maisder" + "$" + "500000", "300000")
    ensures Contains("maisder" + "$" + "500000", "500000")
    ensures !Contains("maisder" + "$" + "500000", "800000")
    ensures !Contains("maisder" + "$" + "500000", "2mm")
  {
    var a, b := "maisder", "500000";
    assert !Contains(a + "$" + b, "100000") by { LacksTwo(a, b, "100000", '1', '1'); }
    assert !Contains(a + "$" + b, "300000") by { LacksTwo(a, b, "300000", '3', '3'); }
    assert Contains(a + "$" + b, "500000") by { HasTwo(a, b, "500000"); }
    assert !Contains(a + "$" + b, "800000") by { LacksTwo(a, b, "800000", '8', '8'); }
    assert !Contains(a + "$" + b, "2mm") by { LacksTwo(a, b, "2mm", '2', '2'); }
  }

  /** The "mais de" block matches "500000" after failing on "100000" and "300000". */
  lemma ParseMaisDeQuinhentosMil()
    ensures ParseRevenue("Mais de R$ 500 mil") == 600000
  {
    NormalizeMaisDeQuinhentosMil();
    MaisDeQuinhentosMilWords();
    MaisDeQuinhentosMilSmallAmounts();
    MaisDeQuinhentosMilLargeAmounts();
  }
  // ---------------------------------------------------------------------
  // The intake form's choices and what they lead to
  // ---------------------------------------------------------------------

  /** Three of the six revenue choices of the intake form parse to 0: in each
      of them only the upper amount is followed by "mil". */
  lemma IntakeLabelValues()
    ensures ParseRevenue("Menos de R$ 5 mil") == 2500
    ensures ParseRevenue("Entre R$ 5 a R$ 20 mil") == 12500
    ensures ParseRevenue("Entre R$ 20 a R$ 50 mil") == 0
    ensures ParseRevenue("Entre R$ 50 a R$ 100 mil") == 0
    ensures ParseRevenue("Entre R$ 100 a R$ 500 mil") == 0
    ensures ParseRevenue("Mais de R$ 500 mil") == 600000
  {
    ParseMenosDeCincoMil();
    ParseEntreCincoEVinte();
    ParseEntreVinteECinquenta();
    ParseEntreCinquentaECem();
    ParseEntreCemEQuinhentos();
    ParseMaisDeQuinhentosMil();
  }

  // The lodging types and the intake choices have no whitespace at either
  // end, so trimming keeps each of them.

  lemma TrimmedHotelType()
    ensures TrimmedOrEmpty(Some(HotelType)) == HotelType
  {
    TrimNoEdgeSpace(HotelType);
  }

  lemma TrimmedCabinType()
    ensures TrimmedOrEmpty(Some(CabinType)) == CabinType
  {
    TrimNoEdgeSpace(CabinType);
  }

  lemma TrimmedOtherType()
    ensures TrimmedOrEmpty(Some(OtherType)) == OtherType
  {
    TrimNoEdgeSpace(OtherType);
  }

  lemma TrimmedMenosDeCincoMil()
    ensures TrimmedOrEmpty(Some("Menos de R$ 5 mil")) == "Menos de R$ 5 mil"
  {
    TrimNoEdgeSpace("Menos de R$ 5 mil");
  }

  lemma TrimmedEntreCincoEVinte()
    ensures TrimmedOrEmpty(Some("Entre R$ 5 a R$ 20 mil")) == "Entre R$ 5 a R$ 20 mil"
  {
    TrimNoEdgeSpace("Entre R$ 5 a R$ 20 mil");
  }

  lemma TrimmedEntreVinteECinquenta()
    ensures TrimmedOrEmpty(Some("Entre R$ 20 a R$ 50 mil")) == "Entre R$ 20 a R$ 50 mil"
  {
    TrimNoEdgeSpace("Entre R$ 20 a R$ 50 mil");
  }

  lemma TrimmedEntreCinquentaECem()
    ensures TrimmedOrEmpty(Some("Entre R$ 50 a R$ 100 mil")) == "Entre R$ 50 a R$ 100 mil"
  {
    TrimNoEdgeSpace("Entre R$ 50 a R$ 100 mil");
  }

  lemma TrimmedEntreCemEQuinhentos()
    ensures TrimmedOrEmpty(Some("Entre R$ 100 a R$ 500 mil")) == "Entre R$ 100 a R$ 500 mil"
  {
    TrimNoEdgeSpace("Entre R$ 100 a R$ 500 mil");
  }

  lemma TrimmedMaisDeQuinhentosMil()
    ensures TrimmedOrEmpty(Some("Mais de R$ 500 mil")) == "Mais de R$ 500 mil"
  {
    TrimNoEdgeSpace("Mais de R$ 500 mil");
  }

  /** A hotel, inn or resort lead classified from its parsed revenue. */
  lemma HotelOutcome(tipo: string, fat: string, v: int, fonte: Option<string>)
    requires tipo == HotelType && !IsCabinOrOther(tipo) && TrimmedOrEmpty(Some(tipo)) == tipo
    requires !IsCommunitySource(fonte)
    requires TrimmedOrEmpty(Some(fat)) == fat
    requires ParseRevenue(fat) == v
    ensures Classify(Some(tipo), Some(fat), fonte).qualificacao == HotelLadder(v)
  {
  }

  /** The hotel type is not one of the two types on the cabin ladder. */
  lemma HotelNotCabin()
    ensures !IsCabinOrOther(HotelType)
  {
  }

  /** A cabin, chalet or "other" lead classified from its parsed revenue. */
  lemma CabinOutcome(tipo: string, fat: string, v: int, fonte: Option<string>)
    requires IsCabinOrOther(tipo) && TrimmedOrEmpty(Some(tipo)) == tipo
    requires !IsCommunitySource(fonte)
    requires TrimmedOrEmpty(Some(fat)) == fat
    requires ParseRevenue(fat) == v
    ensures Classify(Some(tipo), Some(fat), fonte).qualificacao == CabinLadder(v)
  {
  }

  lemma HotelMenosDeCincoMil(fonte: Option<string>)
    requires !IsCommunitySource(fonte)
    ensures Classify(Some(HotelType), Some("Menos de R$ 5 mil"), fonte).qualificacao == Ruim
  {
    TrimmedHotelType();
    HotelNotCabin();
    ParseMenosDeCincoMil();
    TrimmedMenosDeCincoMil();
    HotelOutcome(HotelType, "Menos de R$ 5 mil", 2500, fonte);
  }

  lemma HotelEntreCincoEVinte(fonte: Option<string>)
    requires !IsCommunitySource(fonte)
    ensures Classify(Some(HotelType), Some("Entre R$ 5 a R$ 20 mil"), fonte).qualificacao == Ruim
  {
    TrimmedHotelType();
    HotelNotCabin();
    ParseEntreCincoEVinte();
    TrimmedEntreCincoEVinte();
    HotelOutcome(HotelType, "Entre R$ 5 a R$ 20 mil", 12500, fonte);
  }

  lemma HotelEntreVinteECinquenta(fonte: Option<string>)
    requires !IsCommunitySource(fonte)
    ensures Classify(Some(HotelType), Some("Entre R$ 20 a R$ 50 mil"), fonte).qualificacao == Ruim
  {
    TrimmedHotelType();
    HotelNotCabin();
    ParseEntreVinteECinquenta();
    TrimmedEntreVinteECinquenta();
    HotelOutcome(HotelType, "Entre R$ 20 a R$ 50 mil", 0, fonte);
  }

  lemma HotelEntreCinquentaECem(fonte: Option<string>)
    requires !IsCommunitySource(fonte)
    ensures Classify(Some(HotelType), Some("Entre R$ 50 a R$ 100 mil"), fonte).qualificacao == Ruim
  {
    TrimmedHotelType();
    HotelNotCabin();
    ParseEntreCinquentaECem();
    TrimmedEntreCinquentaECem();
    HotelOutcome(HotelType, "Entre R$ 50 a R$ 100 mil", 0, fonte);
  }

  lemma HotelEntreCemEQuinhentos(fonte: Option<string>)
    requires !IsCommunitySource(fonte)
    ensures Classify(Some(HotelType), Some("Entre R$ 100 a R$ 500 mil"), fonte).qualificacao == Ruim
  {
    TrimmedHotelType();
    HotelNotCabin();
    ParseEntreCemEQuinhentos();
    TrimmedEntreCemEQuinhentos();
    HotelOutcome(HotelType, "Entre R$ 100 a R$ 500 mil", 0, fonte);
  }

  lemma HotelMaisDeQuinhentosMil(fonte: Option<string>)
    requires !IsCommunitySource(fonte)
    ensures Classify(Some(HotelType), Some("Mais de R$ 500 mil"), fonte).qualificacao == Ultra
  {
    TrimmedHotelType();
    HotelNotCabin();
    ParseMaisDeQuinhentosMil();
    TrimmedMaisDeQuinhentosMil();
    HotelOutcome(HotelType, "Mais de R$ 500 mil", 600000, fonte);
  }

  /** A hotel, inn or resort lead from the intake form is RUIM ("Nível 1")
      for every revenue choice but the top one, which gives ULTRA
      ("Nível 4"). */
  lemma HotelIntakeOutcomes(fonte: Option<string>)
    requires !IsCommunitySource(fonte)
    ensures Classify(Some(HotelType), Some("Menos de R$ 5 mil"), fonte).qualificacao == Ruim
    ensures Classify(Some(HotelType), Some("Entre R$ 5 a R$ 20 mil"), fonte).qualificacao == Ruim
    ensures Classify(Some(HotelType), Some("Entre R$ 20 a R$ 50 mil"), fonte).qualificacao == Ruim
    ensures Classify(Some(HotelType), Some("Entre R$ 50 a R$ 100 mil"), fonte).qualificacao == Ruim
    ensures Classify(Some(HotelType), Some("Entre R$ 100 a R$ 500 mil"), fonte).qualificacao == Ruim
    ensures Classify(Some(HotelType), Some("Mais de R$ 500 mil"), fonte).qualificacao == Ultra
  {
    HotelMenosDeCincoMil(fonte);
    HotelEntreCincoEVinte(fonte);
    HotelEntreVinteECinquenta(fonte);
    HotelEntreCinquentaECem(fonte);
    HotelEntreCemEQuinhentos(fonte);
    HotelMaisDeQuinhentosMil(fonte);
  }

  /** In particular a hotel earning between R$ 50 and 100 thousand lands in
      "Nível 1", not in "Nível 2". */
  lemma HotelFiftyToHundredIsLevelOne(fonte: Option<string>)
    requires !IsCommunitySource(fonte)
    ensures Classify(Some(HotelType), Some("Entre R$ 50 a R$ 100 mil"), fonte) == Classification(Ruim, Nivel1)
  {
    ParseEntreCinquentaECem();
    TrimmedEntreCinquentaECem();
    TrimmedHotelType();
    HotelNotCabin();
    HotelOutcome(HotelType, "Entre R$ 50 a R$ 100 mil", 0, fonte);
  }

  /** The cabin and "other" types trim to themselves. */
  lemma TrimmedCabinOrOther(tipo: string)
    requires tipo == CabinType || tipo == OtherType
    ensures TrimmedOrEmpty(Some(tipo)) == tipo && IsCabinOrOther(tipo)
  {
    if tipo == CabinType {
      TrimmedCabinType();
    } else {
      TrimmedOtherType();
    }
  }

  lemma CabinMenosDeCincoMil(tipo: string, fonte: Option<string>)
    requires tipo == CabinType || tipo == OtherType
    requires !IsCommunitySource(fonte)
    ensures Classify(Some(tipo), Some("Menos de R$ 5 mil"), fonte).qualificacao == Comunidade
  {
    TrimmedCabinOrOther(tipo);
    ParseMenosDeCincoMil();
    TrimmedMenosDeCincoMil();
    CabinOutcome(tipo, "Menos de R$ 5 mil", 2500, fonte);
  }

  lemma CabinEntreCincoEVinte(tipo: string, fonte: Option<string>)
    requires tipo == CabinType || tipo == OtherType
    requires !IsCommunitySource(fonte)
    ensures Classify(Some(tipo), Some("Entre R$ 5 a R$ 20 mil"), fonte).qualificacao == Comunidade
  {
    TrimmedCabinOrOther(tipo);
    ParseEntreCincoEVinte();
    TrimmedEntreCincoEVinte();
    CabinOutcome(tipo, "Entre R$ 5 a R$ 20 mil", 12500, fonte);
  }

  lemma CabinEntreVinteECinquenta(tipo: string, fonte: Option<string>)
    requires tipo == CabinType || tipo == OtherType
    requires !IsCommunitySource(fonte)
    ensures Classify(Some(tipo), Some("Entre R$ 20 a R$ 50 mil"), fonte).qualificacao == Comunidade
  {
    TrimmedCabinOrOther(tipo);
    ParseEntreVinteECinquenta();
    TrimmedEntreVinteECinquenta();
    CabinOutcome(tipo, "Entre R$ 20 a R$ 50 mil", 0, fonte);
  }

  lemma CabinEntreCinquentaECem(tipo: string, fonte: Option<string>)
    requires tipo == CabinType || tipo == OtherType
    requires !IsCommunitySource(fonte)
    ensures Classify(Some(tipo), Some("Entre R$ 50 a R$ 100 mil"), fonte).qualificacao == Comunidade
  {
    TrimmedCabinOrOther(tipo);
    ParseEntreCinquentaECem();
    TrimmedEntreCinquentaECem();
    CabinOutcome(tipo, "Entre R$ 50 a R$ 100 mil", 0, fonte);
  }

  lemma CabinEntreCemEQuinhentos(tipo: string, fonte: Option<string>)
    requires tipo == CabinType || tipo == OtherType
    requires !IsCommunitySource(fonte)
    ensures Classify(Some(tipo), Some("Entre R$ 100 a R$ 500 mil"), fonte).qualificacao == Comunidade
  {
    TrimmedCabinOrOther(tipo);
    ParseEntreCemEQuinhentos();
    TrimmedEntreCemEQuinhentos();
    CabinOutcome(tipo, "Entre R$ 100 a R$ 500 mil", 0, fonte);
  }

  lemma CabinMaisDeQuinhentosMil(tipo: string, fonte: Option<string>)
    requires tipo == CabinType || tipo == OtherType
    requires !IsCommunitySource(fonte)
    ensures Classify(Some(tipo), Some("Mais de R$ 500 mil"), fonte).qualificacao == Ultra
  {
    TrimmedCabinOrOther(tipo);
    ParseMaisDeQuinhentosMil();
    TrimmedMaisDeQuinhentosMil();
    CabinOutcome(tipo, "Mais de R$ 500 mil", 600000, fonte);
  }

  /** A cabin, chalet or "other" lead from the intake form is COMUNIDADE for
      every revenue choice but the top one, which gives ULTRA. */
  lemma CabinIntakeOutcomes(tipo: string, fonte: Option<string>)
    requires tipo == CabinType || tipo == OtherType
    requires !IsCommunitySource(fonte)
    ensures Classify(Some(tipo), Some("Menos de R$ 5 mil"), fonte).qualificacao == Comunidade
    ensures Classify(Some(tipo), Some("Entre R$ 5 a R$ 20 mil"), fonte).qualificacao == Comunidade
    ensures Classify(Some(tipo), Some("Entre R$ 20 a R$ 50 mil"), fonte).qualificacao == Comunidade
    ensures Classify(Some(tipo), Some("Entre R$ 50 a R$ 100 mil"), fonte).qualificacao == Comunidade
    ensures Classify(Some(tipo), Some("Entre R$ 100 a R$ 500 mil"), fonte).qualificacao == Comunidade
    ensures Classify(Some(tipo), Some("Mais de R$ 500 mil"), fonte).qualificacao == Ultra
  {
    CabinMenosDeCincoMil(tipo, fonte);
    CabinEntreCincoEVinte(tipo, fonte);
    CabinEntreVinteECinquenta(tipo, fonte);
    CabinEntreCinquentaECem(tipo, fonte);
    CabinEntreCemEQuinhentos(tipo, fonte);
    CabinMaisDeQuinhentosMil(tipo, fonte);
  }

  /** A lead of any other lodging type classified by the table. */
  lemma OtherOutcome(tipo: Option<string>, fat: string, fonte: Option<string>)
    requires !IsCabinOrOther(TrimmedOrEmpty(tipo)) && TrimmedOrEmpty(tipo) != HotelType
    requires !IsCommunitySource(fonte)
    requires TrimmedOrEmpty(Some(fat)) == fat
    ensures Classify(tipo, Some(fat), fonte).qualificacao == FallbackQualification(fat)
  {
  }

  /** The table's tier for each intake choice. */
  lemma IntakeTableTiers()
    ensures FallbackQualification("Menos de R$ 5 mil") == Comunidade
    ensures FallbackQualification("Entre R$ 5 a R$ 20 mil") == Ruim
    ensures FallbackQualification("Entre R$ 20 a R$ 50 mil") == Medio
    ensures FallbackQualification("Entre R$ 50 a R$ 100 mil") == Qualificado
    ensures FallbackQualification("Entre R$ 100 a R$ 500 mil") == Ultra
    ensures FallbackQualification("Mais de R$ 500 mil") == Ultra
  {
  }

  lemma OtherMenosDeCincoMil(tipo: Option<string>, fonte: Option<string>)
    requires !IsCabinOrOther(TrimmedOrEmpty(tipo)) && TrimmedOrEmpty(tipo) != HotelType
    requires !IsCommunitySource(fonte)
    ensures Classify(tipo, Some("Menos de R$ 5 mil"), fonte).qualificacao == Comunidade
  {
    IntakeTableTiers();
    TrimmedMenosDeCincoMil();
    OtherOutcome(tipo, "Menos de R$ 5 mil", fonte);
  }

  lemma OtherEntreCincoEVinte(tipo: Option<string>, fonte: Option<string>)
    requires !IsCabinOrOther(TrimmedOrEmpty(tipo)) && TrimmedOrEmpty(tipo) != HotelType
    requires !IsCommunitySource(fonte)
    ensures Classify(tipo, Some("Entre R$ 5 a R$ 20 mil"), fonte).qualificacao == Ruim
  {
    IntakeTableTiers();
    TrimmedEntreCincoEVinte();
    OtherOutcome(tipo, "Entre R$ 5 a R$ 20 mil", fonte);
  }

  lemma OtherEntreVinteECinquenta(tipo: Option<string>, fonte: Option<string>)
    requires !IsCabinOrOther(TrimmedOrEmpty(tipo)) && TrimmedOrEmpty(tipo) != HotelType
    requires !IsCommunitySource(fonte)
    ensures Classify(tipo, Some("Entre R$ 20 a R$ 50 mil"), fonte).qualificacao == Medio
  {
    IntakeTableTiers();
    TrimmedEntreVinteECinquenta();
    OtherOutcome(tipo, "Entre R$ 20 a R$ 50 mil", fonte);
  }

  lemma OtherEntreCinquentaECem(tipo: Option<string>, fonte: Option<string>)
    requires !IsCabinOrOther(TrimmedOrEmpty(tipo)) && TrimmedOrEmpty(tipo) != HotelType
    requires !IsCommunitySource(fonte)
    ensures Classify(tipo, Some("Entre R$ 50 a R$ 100 mil"), fonte).qualificacao == Qualificado
  {
    IntakeTableTiers();
    TrimmedEntreCinquentaECem();
    OtherOutcome(tipo, "Entre R$ 50 a R$ 100 mil", fonte);
  }

  lemma OtherEntreCemEQuinhentos(tipo: Option<string>, fonte: Option<string>)
    requires !IsCabinOrOther(TrimmedOrEmpty(tipo)) && TrimmedOrEmpty(tipo) != HotelType
    requires !IsCommunitySource(fonte)
    ensures Classify(tipo, Some("Entre R$ 100 a R$ 500 mil"), fonte).qualificacao == Ultra
  {
    IntakeTableTiers();
    TrimmedEntreCemEQuinhentos();
    OtherOutcome(tipo, "Entre R$ 100 a R$ 500 mil", fonte);
  }

  lemma OtherMaisDeQuinhentosMil(tipo: Option<string>, fonte: Option<string>)
    requires !IsCabinOrOther(TrimmedOrEmpty(tipo)) && TrimmedOrEmpty(tipo) != HotelType
    requires !IsCommunitySource(fonte)
    ensures Classify(tipo, Some("Mais de R$ 500 mil"), fonte).qualificacao == Ultra
  {
    IntakeTableTiers();
    TrimmedMaisDeQuinhentosMil();
    OtherOutcome(tipo, "Mais de R$ 500 mil", fonte);
  }

  /** Any other lodging type, a missing one included, takes the label's tier
      from the table, whatever the parser makes of the label. */
  lemma OtherTypeIntakeOutcomes(tipo: Option<string>, fonte: Option<string>)
    requires !IsCabinOrOther(TrimmedOrEmpty(tipo)) && TrimmedOrEmpty(tipo) != HotelType
    requires !IsCommunitySource(fonte)
    ensures Classify(tipo, Some("Menos de R$ 5 mil"), fonte).qualificacao == Comunidade
    ensures Classify(tipo, Some("Entre R$ 5 a R$ 20 mil"), fonte).qualificacao == Ruim
    ensures Classify(tipo, Some("Entre R$ 20 a R$ 50 mil"), fonte).qualificacao == Medio
    ensures Classify(tipo, Some("Entre R$ 50 a R$ 100 mil"), fonte).qualificacao == Qualificado
    ensures Classify(tipo, Some("Entre R$ 100 a R$ 500 mil"), fonte).qualificacao == Ultra
    ensures Classify(tipo, Some("Mais de R$ 500 mil"), fonte).qualificacao == Ultra
  {
    OtherMenosDeCincoMil(tipo, fonte);
    OtherEntreCincoEVinte(tipo, fonte);
    OtherEntreVinteECinquenta(tipo, fonte);
    OtherEntreCinquentaECem(tipo, fonte);
    OtherEntreCemEQuinhentos(tipo, fonte);
    OtherMaisDeQuinhentosMil(tipo, fonte);
  }
}
