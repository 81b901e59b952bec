/** The line-by-line contribution evaluator: for a gross salary it walks the
    contribution table, picks each line's base, rounds each employer and
    employee amount to the cent on its own, and totals the rounded amounts. */
module Cotisations {
  import opened Money
  import opened Bareme

  /** One line of the payslip. */
  datatype Ligne = Ligne(nom: Key, base: real, tauxPat: real, montantPat: real, tauxSal: real, montantSal: real)

  /** What the evaluator returns. */
  datatype Resultat = Resultat(
    details: seq<Ligne>,
    totalPat: real,
    totalSal: real,
    trancheA: real,
    trancheB: real,
    baseCsg: real)

  /** The four bases one evaluation can assess a line on. */
  datatype Assiettes = Assiettes(brut: real, trancheA: real, trancheB: real, csg: real)

  /** The bases of a gross salary `brut` under the ceiling `pmss`; `prevPat`
      is the employer's welfare contributions added to the CSG base. */
  function AssiettesDe(brut: real, pmss: real, prevPat: real): (s: Assiettes)
    ensures s.brut == brut
    ensures s.trancheA + s.trancheB == brut
    ensures s.trancheA <= pmss && s.trancheA <= brut && s.trancheB >= 0.0
    ensures s.trancheB == 0.0 <==> brut <= pmss
    ensures brut >= 0.0 && pmss >= 0.0 ==> s.trancheA >= 0.0
    ensures s.csg == brut * CsgAbattement + prevPat
  {
    Assiettes(brut, Min(brut, pmss), Max(0.0, brut - pmss), brut * CsgAbattement + prevPat)
  }

  function BaseSelon(a: Assiette, s: Assiettes): real
  {
    match a
    case Totalite => s.brut
    case TrancheA => s.trancheA
    case TrancheB => s.trancheB
    case Csg => s.csg
  }

  /** A tranche-B line is left out entirely when there is nothing above the ceiling. */
  predicate SauteSelon(c: Cotisation, s: Assiettes)
  {
    c.base == TrancheB && s.trancheB == 0.0
  }

  predicate Saute(k: Key, s: Assiettes)
  {
    SauteSelon(Cotisations2026(k), s)
  }

  /** The employer rate applied to the entry `k` whose table rate is `pat`:
      the configured accident rate for AT/MP, the housing-fund rate for FNAL,
      the table's rate otherwise. */
  function TauxApplique(k: Key, pat: real, atmpRate: real, fnalRate: real): real
  {
    if k == Atmp then atmpRate else if k == Fnal then fnalRate else pat
  }

  function TauxPatronal(k: Key, atmpRate: real, fnalRate: real): (t: real)
    ensures k == Atmp ==> t == atmpRate
    ensures k == Fnal ==> t == fnalRate
    ensures k != Atmp && k != Fnal ==> t == Cotisations2026(k).pat
  {
    TauxApplique(k, Cotisations2026(k).pat, atmpRate, fnalRate)
  }

  /** The exact, unrounded employer amount of the line for `k`. */
  function ExactPat(k: Key, s: Assiettes, atmpRate: real, fnalRate: real): real
  {
    ExactPatSelon(k, Cotisations2026(k), s, atmpRate, fnalRate)
  }

  /** The exact, unrounded employee amount of the line for `k`. */
  function ExactSal(k: Key, s: Assiettes): real
  {
    ExactSalSelon(Cotisations2026(k), s)
  }

  function ExactPatSelon(k: Key, c: Cotisation, s: Assiettes, atmpRate: real, fnalRate: real): real
  {
    BaseSelon(c.base, s) * TauxApplique(k, c.pat, atmpRate, fnalRate)
  }

  function ExactSalSelon(c: Cotisation, s: Assiettes): real
  {
    BaseSelon(c.base, s) * c.sal
  }

  /** One amount: the base times the rate, rounded to the cent. */
  function Montant(base: real, taux: real): real
  {
    RoundCents(base * taux)
  }

  /** The line for key `k` on base `base` at the given rates: each amount is
      rounded to the cent on its own. */
  function LigneAvec(k: Key, base: real, tauxPat: real, tauxSal: real): Ligne
  {
    Ligne(k, RoundCents(base), tauxPat, Montant(base, tauxPat), tauxSal, Montant(base, tauxSal))
  }

  /** The line the table entry `c` of key `k` produces on the bases `s`. */
  function LigneSelon(k: Key, c: Cotisation, s: Assiettes, atmpRate: real, fnalRate: real): Ligne
  {
    LigneAvec(k, BaseSelon(c.base, s), TauxApplique(k, c.pat, atmpRate, fnalRate), c.sal)
  }

  function LigneDe(k: Key, s: Assiettes, atmpRate: real, fnalRate: real): Ligne
  {
    LigneSelon(k, Cotisations2026(k), s, atmpRate, fnalRate)
  }

  /** Each line carries its key and the rates applied, and its amounts are
      whole cents within half a cent of their exact values. */
  lemma LigneDeFacts(k: Key, s: Assiettes, atmpRate: real, fnalRate: real)
    ensures LigneDe(k, s, atmpRate, fnalRate).nom == k
    ensures LigneDe(k, s, atmpRate, fnalRate).tauxPat == TauxPatronal(k, atmpRate, fnalRate)
    ensures LigneDe(k, s, atmpRate, fnalRate).tauxSal == Cotisations2026(k).sal
    ensures IsCents(LigneDe(k, s, atmpRate, fnalRate).montantPat)
    ensures IsCents(LigneDe(k, s, atmpRate, fnalRate).montantSal)
    ensures Proche(LigneDe(k, s, atmpRate, fnalRate).montantPat, ExactPat(k, s, atmpRate, fnalRate), 0.005)
    ensures Proche(LigneDe(k, s, atmpRate, fnalRate).montantSal, ExactSal(k, s), 0.005)
  {
    var c := Cotisations2026(k);
    LigneSelonFacts(k, c, s, atmpRate, fnalRate);
    assert LigneDe(k, s, atmpRate, fnalRate) == LigneSelon(k, c, s, atmpRate, fnalRate);
    assert TauxPatronal(k, atmpRate, fnalRate) == TauxApplique(k, c.pat, atmpRate, fnalRate);
  }

  lemma EcartPat(k: Key, s: Assiettes, atmpRate: real, fnalRate: real)
    ensures Proche(LigneDe(k, s, atmpRate, fnalRate).montantPat, ExactPat(k, s, atmpRate, fnalRate), 0.005)
  {
    LigneDeFacts(k, s, atmpRate, fnalRate);
  }

  lemma EcartSal(k: Key, s: Assiettes, atmpRate: real, fnalRate: real)
    ensures Proche(LigneDe(k, s, atmpRate, fnalRate).montantSal, ExactSal(k, s), 0.005)
  {
    LigneDeFacts(k, s, atmpRate, fnalRate);
  }

  /** The same facts for any table entry `c`. */
  lemma LigneSelonFacts(k: Key, c: Cotisation, s: Assiettes, atmpRate: real, fnalRate: real)
    ensures LigneSelon(k, c, s, atmpRate, fnalRate).nom == k
    ensures LigneSelon(k, c, s, atmpRate, fnalRate).tauxPat == TauxApplique(k, c.pat, atmpRate, fnalRate)
    ensures LigneSelon(k, c, s, atmpRate, fnalRate).tauxSal == c.sal
    ensures IsCents(LigneSelon(k, c, s, atmpRate, fnalRate).montantPat)
    ensures IsCents(LigneSelon(k, c, s, atmpRate, fnalRate).montantSal)
    ensures Proche(LigneSelon(k, c, s, atmpRate, fnalRate).montantPat, ExactPatSelon(k, c, s, atmpRate, fnalRate), 0.005)
    ensures Proche(LigneSelon(k, c, s, atmpRate, fnalRate).montantSal, ExactSalSelon(c, s), 0.005)
  {
    var b := BaseSelon(c.base, s);
    var t := TauxApplique(k, c.pat, atmpRate, fnalRate);
    MontantFacts(b, t);
    MontantFacts(b, c.sal);
  }

  lemma MontantFacts(b: real, t: real)
    ensures IsCents(Montant(b, t)) && Proche(Montant(b, t), b * t, 0.005)
  {
    RoundCentsFacts(b * t);
  }

  /** The lines produced for the keys `keys`, in order, skipping the tranche-B
      lines when there is no tranche B. */
  function Lignes(keys: seq<Key>, s: Assiettes, atmpRate: real, fnalRate: real): seq<Ligne>
  {
    if |keys| == 0 then []
    else (if Saute(keys[0], s) then [] else [LigneDe(keys[0], s, atmpRate, fnalRate)])
         + Lignes(keys[1..], s, atmpRate, fnalRate)
  }

  function SommePat(ls: seq<Ligne>): real
  {
    if |ls| == 0 then 0.0 else ls[0].montantPat + SommePat(ls[1..])
  }

  function SommeSal(ls: seq<Ligne>): real
  {
    if |ls| == 0 then 0.0 else ls[0].montantSal + SommeSal(ls[1..])
  }

  /** The keys of `keys` that produce a line; `avecTrancheB` says whether
      there is a tranche B. */
  function Retenues(keys: seq<Key>, avecTrancheB: bool): seq<Key>
  {
    if |keys| == 0 then []
    else (if IsTrancheBKey(keys[0]) && !avecTrancheB then [] else [keys[0]])
         + Retenues(keys[1..], avecTrancheB)
  }

  function Noms(ls: seq<Ligne>): seq<Key>
  {
    if |ls| == 0 then [] else [ls[0].nom] + Noms(ls[1..])
  }

  lemma {:induction false} SommesCons(l: Ligne, ls: seq<Ligne>)
    ensures SommePat([l] + ls) == l.montantPat + SommePat(ls)
    ensures SommeSal([l] + ls) == l.montantSal + SommeSal(ls)
  {
    assert ([l] + ls)[1..] == ls;
  }

  lemma Associe<T>(a: seq<T>, b: seq<T>, c: seq<T>)
    ensures a + b + c == a + (b + c)
  {}

  /** Appending a line adds its amounts to the totals. */
  lemma {:induction false} SommesSnoc(ls: seq<Ligne>, l: Ligne)
    ensures SommePat(ls + [l]) == SommePat(ls) + l.montantPat
    ensures SommeSal(ls + [l]) == SommeSal(ls) + l.montantSal
    decreases |ls|
  {
    if |ls| == 0 {
      assert ls + [l] == [l];
      SommesCons(l, []);
    } else {
      assert (ls + [l])[1..] == ls[1..] + [l];
      SommesSnoc(ls[1..], l);
    }
  }

  lemma {:induction false} LignesStep(keys: seq<Key>, i: nat, s: Assiettes, atmpRate: real, fnalRate: real)
    requires i < |keys|
    ensures Lignes(keys[i..], s, atmpRate, fnalRate)
         == (if Saute(keys[i], s) then [] else [LigneDe(keys[i], s, atmpRate, fnalRate)])
            + Lignes(keys[i + 1..], s, atmpRate, fnalRate)
  {
    assert keys[i..][0] == keys[i];
    assert keys[i..][1..] == keys[i + 1..];
  }

  /** What one step of the loop does to the lines still to come and to the totals. */
  lemma ParcoursPas(keys: seq<Key>, i: nat, s: Assiettes, atmpRate: real, fnalRate: real,
                    details: seq<Ligne>, saute: bool, ligne: Ligne)
    requires i < |keys|
    requires saute == Saute(keys[i], s)
    requires !saute ==> ligne == LigneDe(keys[i], s, atmpRate, fnalRate)
    ensures saute ==> details + Lignes(keys[i..], s, atmpRate, fnalRate)
                      == details + Lignes(keys[i + 1..], s, atmpRate, fnalRate)
    ensures !saute ==> details + Lignes(keys[i..], s, atmpRate, fnalRate)
                       == (details + [ligne]) + Lignes(keys[i + 1..], s, atmpRate, fnalRate)
  {
    LignesStep(keys, i, s, atmpRate, fnalRate);
    var reste := Lignes(keys[i + 1..], s, atmpRate, fnalRate);
    if saute {
      assert Lignes(keys[i..], s, atmpRate, fnalRate) == [] + reste;
      assert [] + reste == reste;
    } else {
      assert Lignes(keys[i..], s, atmpRate, fnalRate) == [ligne] + reste;
      Associe(details, [ligne], reste);
    }
  }

  /** One pass of the loop for the entry `cotis` of key `nom`: `saute` when
      the line is left out, otherwise the line with both amounts rounded. */
  method CalculerLigne(nom: Key, cotis: Cotisation, brut: real, trancheA: real, trancheB: real, baseCsg: real,
                       atmpRate: real, fnalRate: real)
    returns (saute: bool, ligne: Ligne)
    ensures saute == SauteSelon(cotis, Assiettes(brut, trancheA, trancheB, baseCsg))
    ensures !saute ==> ligne == LigneSelon(nom, cotis, Assiettes(brut, trancheA, trancheB, baseCsg), atmpRate, fnalRate)
  {
    saute, ligne := false, Ligne(nom, 0.0, 0.0, 0.0, 0.0, 0.0);
    ghost var s := Assiettes(brut, trancheA, trancheB, baseCsg);
    var base: real;
    if cotis.base == Totalite {
      base := brut;
    } else if cotis.base == TrancheA {
      base := trancheA;
    } else if cotis.base == TrancheB {
      base := trancheB;
      if trancheB == 0.0 {
        saute := true;
        return;
      }
    } else {
      base := baseCsg;
    }

    var tauxPat := cotis.pat;
    var tauxSal := cotis.sal;
    if nom == Atmp {
      tauxPat := atmpRate;
    }
    if nom == Fnal {
      tauxPat := fnalRate;
    }

    var montantPat := Montant(base, tauxPat);
    var montantSal := Montant(base, tauxSal);
    ligne := Ligne(nom, RoundCents(base), tauxPat, montantPat, tauxSal, montantSal);
  }

  /** The loop of calculer_cotisations over the table entries `keys`, in
      order: each kept line is appended and its amounts added to the totals. */
  method Parcourir(keys: seq<Key>, brut: real, trancheA: real, trancheB: real, baseCsg: real,
                   atmpRate: real, fnalRate: real)
    returns (details: seq<Ligne>, totalPat: real, totalSal: real)
    ensures details == Lignes(keys, Assiettes(brut, trancheA, trancheB, baseCsg), atmpRate, fnalRate)
    ensures totalPat == SommePat(details) && totalSal == SommeSal(details)
  {
    ghost var s := Assiettes(brut, trancheA, trancheB, baseCsg);
    ghost var tout := Lignes(keys, s, atmpRate, fnalRate);
    details, totalPat, totalSal := [], 0.0, 0.0;
    for i := 0 to |keys|
      invariant details + Lignes(keys[i..], s, atmpRate, fnalRate) == tout
      invariant totalPat == SommePat(details) && totalSal == SommeSal(details)
    {
      var nom := keys[i];
      var saute, ligne := CalculerLigne(nom, Cotisations2026(nom), brut, trancheA, trancheB, baseCsg, atmpRate, fnalRate);
      ParcoursPas(keys, i, s, atmpRate, fnalRate, details, saute, ligne);
      if !saute {
        SommesSnoc(details, ligne);
        totalPat := totalPat + ligne.montantPat;
        totalSal := totalSal + ligne.montantSal;
        details := details + [ligne];
      }
    }
    assert keys[|keys|..] == [];
  }

  /** What calculer_cotisations returns: the kept lines of the table, in
      order, their totals, the two tranches and the rounded CSG base. */
  function Cotiser(brut: real, pmss: real, atmpRate: real, fnalRate: real, prevPatContributions: real): Resultat
  {
    var s := AssiettesDe(brut, pmss, prevPatContributions);
    var details := Lignes(Ordre, s, atmpRate, fnalRate);
    Resultat(details, SommePat(details), SommeSal(details), s.trancheA, s.trancheB, RoundCents(s.csg))
  }

  /** calculer_cotisations: splits the gross into tranches, then walks the
      table in order, accumulating the lines and their totals. */
  method CalculerCotisations(brut: real, pmss: real, atmpRate: real, fnalRate: real, prevPatContributions: real)
    returns (r: Resultat)
    ensures r == Cotiser(brut, pmss, atmpRate, fnalRate, prevPatContributions)
  {
    var trancheA := Min(brut, pmss);
    var trancheB := Max(0.0, brut - pmss);
    var baseCsg := brut * CsgAbattement + prevPatContributions;
    assert Assiettes(brut, trancheA, trancheB, baseCsg) == AssiettesDe(brut, pmss, prevPatContributions);
    var details, totalPat, totalSal := Parcourir(Ordre, brut, trancheA, trancheB, baseCsg, atmpRate, fnalRate);
    r := Resultat(details, totalPat, totalSal, trancheA, trancheB, RoundCents(baseCsg));
  }

  // ---------------------------------------------------------------------
  // What the evaluation produces: which lines, in which order, and how the
  // totals relate to the exact amounts.

  /** The lines are exactly those of the kept keys, in table order, each the
      line its key's table entry produces. */
  lemma {:induction false} LignesSuitLaTable(keys: seq<Key>, s: Assiettes, atmpRate: real, fnalRate: real)
    ensures Noms(Lignes(keys, s, atmpRate, fnalRate)) == Retenues(keys, s.trancheB != 0.0)
    ensures forall l | l in Lignes(keys, s, atmpRate, fnalRate) :: l == LigneDe(l.nom, s, atmpRate, fnalRate)
    decreases |keys|
  {
    if |keys| > 0 {
      LignesSuitLaTable(keys[1..], s, atmpRate, fnalRate);
      var tete := if Saute(keys[0], s) then [] else [LigneDe(keys[0], s, atmpRate, fnalRate)];
      NomsConcat(tete, Lignes(keys[1..], s, atmpRate, fnalRate));
      LigneDeFacts(keys[0], s, atmpRate, fnalRate);
      SauteSi(keys[0], s);
    }
  }

  /** A line is left out exactly when it is a tranche-B entry and there is no tranche B. */
  lemma SauteSi(k: Key, s: Assiettes)
    ensures Saute(k, s) <==> IsTrancheBKey(k) && s.trancheB == 0.0
  {
    TableFacts(k);
  }

  lemma {:induction false} NomsConcat(a: seq<Ligne>, b: seq<Ligne>)
    ensures Noms(a + b) == Noms(a) + Noms(b)
    decreases |a|
  {
    if |a| == 0 {
      assert a + b == b;
    } else {
      assert (a + b)[1..] == a[1..] + b;
      NomsConcat(a[1..], b);
    }
  }

  /** A key is kept exactly when it is in the table order and is not a
      tranche-B entry left out for lack of a tranche B. */
  lemma {:induction false} RetenuesMembres(keys: seq<Key>, avecTrancheB: bool, k: Key)
    ensures k in Retenues(keys, avecTrancheB) <==> k in keys && (avecTrancheB || !IsTrancheBKey(k))
    decreases |keys|
  {
    if |keys| > 0 {
      RetenuesMembres(keys[1..], avecTrancheB, k);
      assert keys == [keys[0]] + keys[1..];
    }
  }

  /** The 22 entries that remain when there is no tranche B, in table order. */
  const SansTrancheB: seq<Key> := SurTotalite + SurTrancheA + SurCsg

  lemma {:induction false} RetenuesConcat(a: seq<Key>, b: seq<Key>, avecTrancheB: bool)
    ensures Retenues(a + b, avecTrancheB) == Retenues(a, avecTrancheB) + Retenues(b, avecTrancheB)
    decreases |a|
  {
    if |a| == 0 {
      assert a + b == b;
    } else {
      var h := if IsTrancheBKey(a[0]) && !avecTrancheB then [] else [a[0]];
      assert (a + b)[0] == a[0];
      assert (a + b)[1..] == a[1..] + b;
      RetenuesConcat(a[1..], b, avecTrancheB);
      assert Retenues(a + b, avecTrancheB) == h + Retenues(a[1..] + b, avecTrancheB);
      Associe(h, Retenues(a[1..], avecTrancheB), Retenues(b, avecTrancheB));
    }
  }

  lemma {:induction false} RetenuesToutes(g: seq<Key>, avecTrancheB: bool)
    requires avecTrancheB || forall k | k in g :: !IsTrancheBKey(k)
    ensures Retenues(g, avecTrancheB) == g
    decreases |g|
  {
    if |g| > 0 {
      assert g[0] in g;
      assert forall k | k in g[1..] :: k in g;
      RetenuesToutes(g[1..], avecTrancheB);
    }
  }

  lemma {:induction false} RetenuesAucune(g: seq<Key>)
    requires forall k | k in g :: IsTrancheBKey(k)
    ensures Retenues(g, false) == []
    decreases |g|
  {
    if |g| > 0 {
      assert g[0] in g;
      assert forall k | k in g[1..] :: k in g;
      RetenuesAucune(g[1..]);
    }
  }

  lemma RetenuesGroupes(avant: seq<Key>, b: seq<Key>, apres: seq<Key>)
    requires forall k | k in avant :: !IsTrancheBKey(k)
    requires forall k | k in b :: IsTrancheBKey(k)
    requires forall k | k in apres :: !IsTrancheBKey(k)
    ensures Retenues(avant + b + apres, false) == avant + apres
    ensures Retenues(avant + b + apres, true) == avant + b + apres
  {
    RetenuesToutes(avant + b + apres, true);
    RetenuesToutes(avant, false);
    RetenuesAucune(b);
    RetenuesConcat(avant, b, false);
    assert Retenues(avant + b, false) == avant by {
      assert avant + [] == avant;
    }
    RetenuesToutes(apres, false);
    RetenuesConcat(avant + b, apres, false);
  }

  lemma RetenuesOrdre()
    ensures Retenues(Ordre, false) == SansTrancheB
    ensures Retenues(Ordre, true) == Ordre
  {
    SurTotaliteHorsB();
    SurTrancheAHorsB();
    SurTrancheBToutes();
    SurCsgHorsB();
    ConcatHorsB(SurTotalite, SurTrancheA);
    RetenuesGroupes(SurTotalite + SurTrancheA, SurTrancheB, SurCsg);
  }

  // Only the tranche-B group holds tranche-B entries.
  lemma SurTotaliteHorsB()
    ensures forall k | k in SurTotalite :: !IsTrancheBKey(k)
  {}

  lemma SurTrancheAHorsB()
    ensures forall k | k in SurTrancheA :: !IsTrancheBKey(k)
  {}

  lemma SurTrancheBToutes()
    ensures forall k | k in SurTrancheB :: IsTrancheBKey(k)
  {}

  lemma SurCsgHorsB()
    ensures forall k | k in SurCsg :: !IsTrancheBKey(k)
  {}

  lemma ConcatHorsB(a: seq<Key>, b: seq<Key>)
    requires forall k | k in a :: !IsTrancheBKey(k)
    requires forall k | k in b :: !IsTrancheBKey(k)
    ensures forall k | k in a + b :: !IsTrancheBKey(k)
  {}

  /** When the gross does not exceed the ceiling, the evaluation produces
      exactly the 22 entries that are not assessed on tranche B, once each and
      in table order; above the ceiling it produces all 27 entries in order. */
  lemma LignesCalculees(brut: real, pmss: real, prevPat: real, atmpRate: real, fnalRate: real)
    ensures brut <= pmss ==> Noms(Lignes(Ordre, AssiettesDe(brut, pmss, prevPat), atmpRate, fnalRate)) == SansTrancheB
    ensures brut > pmss ==> Noms(Lignes(Ordre, AssiettesDe(brut, pmss, prevPat), atmpRate, fnalRate)) == Ordre
    ensures brut <= pmss ==> forall l | l in Lignes(Ordre, AssiettesDe(brut, pmss, prevPat), atmpRate, fnalRate) :: !IsTrancheBKey(l.nom)
  {
    var s := AssiettesDe(brut, pmss, prevPat);
    LignesSuitLaTable(Ordre, s, atmpRate, fnalRate);
    RetenuesOrdre();
    if brut <= pmss {
      forall l | l in Lignes(Ordre, s, atmpRate, fnalRate)
        ensures !IsTrancheBKey(l.nom)
      {
        NomDansNoms(Lignes(Ordre, s, atmpRate, fnalRate), l);
        RetenuesMembres(Ordre, false, l.nom);
      }
    }
  }

  lemma {:induction false} NomDansNoms(ls: seq<Ligne>, l: Ligne)
    requires l in ls
    ensures l.nom in Noms(ls)
    decreases |ls|
  {
    if ls[0] != l {
      NomDansNoms(ls[1..], l);
    }
  }

  // ---------------------------------------------------------------------
  // Rounding error of the totals, and monotonicity of the totals in the bases.

  /** The exact, unrounded employer total over the kept lines of `keys`. */
  function SommeExactePat(keys: seq<Key>, s: Assiettes, atmpRate: real, fnalRate: real): real
  {
    if |keys| == 0 then 0.0
    else (if Saute(keys[0], s) then 0.0 else ExactPat(keys[0], s, atmpRate, fnalRate))
         + SommeExactePat(keys[1..], s, atmpRate, fnalRate)
  }

  /** The exact, unrounded employee total over the kept lines of `keys`. */
  function SommeExacteSal(keys: seq<Key>, s: Assiettes): real
  {
    if |keys| == 0 then 0.0
    else (if Saute(keys[0], s) then 0.0 else ExactSal(keys[0], s))
         + SommeExacteSal(keys[1..], s)
  }

  lemma EcartTete(somme: real, sommeReste: real, exact: real, exactReste: real, montant: real, exactTete: real)
    requires somme == montant + sommeReste && exact == exactTete + exactReste
    requires Proche(montant, exactTete, 0.005)
    ensures Proche(somme - exact, sommeReste - exactReste, 0.005)
  {}

  /** Adding one rounded amount to a sum of `n` rounded amounts. */
  lemma BorneErreur(x: real, y: real, n: nat)
    requires Proche(x, y, 0.005)
    requires Proche(y, 0.0, 0.005 * n as real)
    ensures Proche(x, 0.0, 0.005 * (n + 1) as real)
  {}

  /** A first key whose line is left out adds nothing to either total. */
  lemma TeteSautee(keys: seq<Key>, s: Assiettes, atmpRate: real, fnalRate: real)
    requires |keys| > 0 && Saute(keys[0], s)
    ensures Lignes(keys, s, atmpRate, fnalRate) == Lignes(keys[1..], s, atmpRate, fnalRate)
    ensures SommeExactePat(keys, s, atmpRate, fnalRate) == SommeExactePat(keys[1..], s, atmpRate, fnalRate)
    ensures SommeExacteSal(keys, s) == SommeExacteSal(keys[1..], s)
  {
    var reste := Lignes(keys[1..], s, atmpRate, fnalRate);
    assert Lignes(keys, s, atmpRate, fnalRate) == [] + reste;
    assert [] + reste == reste;
  }

  /** A first key whose line is kept adds one line, whose employer amount is
      within half a cent of its exact amount. */
  lemma TetePatGardee(keys: seq<Key>, s: Assiettes, atmpRate: real, fnalRate: real)
    requires |keys| > 0 && !Saute(keys[0], s)
    ensures |Lignes(keys, s, atmpRate, fnalRate)| == |Lignes(keys[1..], s, atmpRate, fnalRate)| + 1
    ensures Proche(SommePat(Lignes(keys, s, atmpRate, fnalRate)) - SommeExactePat(keys, s, atmpRate, fnalRate),
                   SommePat(Lignes(keys[1..], s, atmpRate, fnalRate)) - SommeExactePat(keys[1..], s, atmpRate, fnalRate),
                   0.005)
  {
    var reste := Lignes(keys[1..], s, atmpRate, fnalRate);
    var l := LigneDe(keys[0], s, atmpRate, fnalRate);
    assert Lignes(keys, s, atmpRate, fnalRate) == [l] + reste;
    SommesCons(l, reste);
    EcartPat(keys[0], s, atmpRate, fnalRate);
    EcartTete(SommePat([l] + reste), SommePat(reste), SommeExactePat(keys, s, atmpRate, fnalRate),
              SommeExactePat(keys[1..], s, atmpRate, fnalRate), l.montantPat, ExactPat(keys[0], s, atmpRate, fnalRate));
  }

  /** The same for the employee amount. */
  lemma TeteSalGardee(keys: seq<Key>, s: Assiettes, atmpRate: real, fnalRate: real)
    requires |keys| > 0 && !Saute(keys[0], s)
    ensures |Lignes(keys, s, atmpRate, fnalRate)| == |Lignes(keys[1..], s, atmpRate, fnalRate)| + 1
    ensures Proche(SommeSal(Lignes(keys, s, atmpRate, fnalRate)) - SommeExacteSal(keys, s),
                   SommeSal(Lignes(keys[1..], s, atmpRate, fnalRate)) - SommeExacteSal(keys[1..], s),
                   0.005)
  {
    var reste := Lignes(keys[1..], s, atmpRate, fnalRate);
    var l := LigneDe(keys[0], s, atmpRate, fnalRate);
    assert Lignes(keys, s, atmpRate, fnalRate) == [l] + reste;
    SommesCons(l, reste);
    EcartSal(keys[0], s, atmpRate, fnalRate);
    EcartTete(SommeSal([l] + reste), SommeSal(reste), SommeExacteSal(keys, s),
              SommeExacteSal(keys[1..], s), l.montantSal, ExactSal(keys[0], s));
  }

  /** Rounding each line on its own puts the employer total within half a
      cent per line of the exact total. */
  lemma {:induction false} ArrondiTotalPat(keys: seq<Key>, s: Assiettes, atmpRate: real, fnalRate: real)
    ensures Proche(SommePat(Lignes(keys, s, atmpRate, fnalRate)) - SommeExactePat(keys, s, atmpRate, fnalRate), 0.0,
                   0.005 * |Lignes(keys, s, atmpRate, fnalRate)| as real)
    decreases |keys|
  {
    if |keys| > 0 {
      ArrondiTotalPat(keys[1..], s, atmpRate, fnalRate);
      if Saute(keys[0], s) {
        TeteSautee(keys, s, atmpRate, fnalRate);
      } else {
        TetePatGardee(keys, s, atmpRate, fnalRate);
        BorneErreur(SommePat(Lignes(keys, s, atmpRate, fnalRate)) - SommeExactePat(keys, s, atmpRate, fnalRate),
                    SommePat(Lignes(keys[1..], s, atmpRate, fnalRate)) - SommeExactePat(keys[1..], s, atmpRate, fnalRate),
                    |Lignes(keys[1..], s, atmpRate, fnalRate)|);
      }
    }
  }

  /** The same bound for the employee total. */
  lemma {:induction false} ArrondiTotalSal(keys: seq<Key>, s: Assiettes, atmpRate: real, fnalRate: real)
    ensures Proche(SommeSal(Lignes(keys, s, atmpRate, fnalRate)) - SommeExacteSal(keys, s), 0.0,
                   0.005 * |Lignes(keys, s, atmpRate, fnalRate)| as real)
    decreases |keys|
  {
    if |keys| > 0 {
      ArrondiTotalSal(keys[1..], s, atmpRate, fnalRate);
      if Saute(keys[0], s) {
        TeteSautee(keys, s, atmpRate, fnalRate);
      } else {
        TeteSalGardee(keys, s, atmpRate, fnalRate);
        BorneErreur(SommeSal(Lignes(keys, s, atmpRate, fnalRate)) - SommeExacteSal(keys, s),
                    SommeSal(Lignes(keys[1..], s, atmpRate, fnalRate)) - SommeExacteSal(keys[1..], s),
                    |Lignes(keys[1..], s, atmpRate, fnalRate)|);
      }
    }
  }

  /** Componentwise order on non-negative bases. */
  predicate AssiettesInf(s1: Assiettes, s2: Assiettes)
  {
    0.0 <= s1.brut <= s2.brut && 0.0 <= s1.trancheA <= s2.trancheA
    && 0.0 <= s1.trancheB <= s2.trancheB && 0.0 <= s1.csg <= s2.csg
  }

  /** A larger gross and larger welfare contributions give larger bases. */
  lemma AssiettesMonotones(brut1: real, brut2: real, pmss: real, prev1: real, prev2: real)
    requires 0.0 <= brut1 <= brut2 && pmss >= 0.0 && 0.0 <= prev1 <= prev2
    ensures AssiettesInf(AssiettesDe(brut1, pmss, prev1), AssiettesDe(brut2, pmss, prev2))
  {}

  lemma MontantMonotone(b1: real, b2: real, t: real)
    requires 0.0 <= b1 <= b2 && t >= 0.0
    ensures 0.0 <= Montant(b1, t) <= Montant(b2, t)
  {
    assert b1 * t <= b2 * t;
    RoundCentsMonotone(b1 * t, b2 * t);
  }

  /** With non-negative rates, larger bases never lower either total, and both
      totals are non-negative. */
  lemma {:induction false} SommesMonotones(keys: seq<Key>, s1: Assiettes, s2: Assiettes, atmpRate: real, fnalRate: real)
    requires AssiettesInf(s1, s2) && atmpRate >= 0.0 && fnalRate >= 0.0
    ensures 0.0 <= SommePat(Lignes(keys, s1, atmpRate, fnalRate)) <= SommePat(Lignes(keys, s2, atmpRate, fnalRate))
    ensures 0.0 <= SommeSal(Lignes(keys, s1, atmpRate, fnalRate)) <= SommeSal(Lignes(keys, s2, atmpRate, fnalRate))
    decreases |keys|
  {
    if |keys| > 0 {
      var k := keys[0];
      var reste1 := Lignes(keys[1..], s1, atmpRate, fnalRate);
      var reste2 := Lignes(keys[1..], s2, atmpRate, fnalRate);
      SommesMonotones(keys[1..], s1, s2, atmpRate, fnalRate);
      var c := Cotisations2026(k);
      TableFacts(k);
      var b1 := BaseSelon(c.base, s1);
      var b2 := BaseSelon(c.base, s2);
      var t := TauxApplique(k, c.pat, atmpRate, fnalRate);
      MontantMonotone(b1, b2, t);
      MontantMonotone(b1, b2, c.sal);
      var l2 := LigneDe(k, s2, atmpRate, fnalRate);
      if Saute(k, s1) {
        assert Lignes(keys, s1, atmpRate, fnalRate) == [] + reste1;
        assert [] + reste1 == reste1;
        if Saute(k, s2) {
          assert Lignes(keys, s2, atmpRate, fnalRate) == [] + reste2;
          assert [] + reste2 == reste2;
        } else {
          assert Lignes(keys, s2, atmpRate, fnalRate) == [l2] + reste2;
          SommesCons(l2, reste2);
          MontantMonotone(0.0, b2, t);
          MontantMonotone(0.0, b2, c.sal);
        }
      } else {
        assert !Saute(k, s2);
        var l1 := LigneDe(k, s1, atmpRate, fnalRate);
        assert Lignes(keys, s1, atmpRate, fnalRate) == [l1] + reste1;
        assert Lignes(keys, s2, atmpRate, fnalRate) == [l2] + reste2;
        SommesCons(l1, reste1);
        SommesCons(l2, reste2);
      }
    }
  }

  // ---------------------------------------------------------------------
  // What calculer_cotisations returns, field by field.

  /** The tranches split the gross at the ceiling; there is no tranche B up
      to the ceiling; and the returned CSG base is 98.25% of the gross plus
      the welfare contributions, rounded to the cent. */
  lemma CotiserTranches(brut: real, pmss: real, atmpRate: real, fnalRate: real, prev: real)
    ensures Cotiser(brut, pmss, atmpRate, fnalRate, prev).trancheA == Min(brut, pmss)
    ensures Cotiser(brut, pmss, atmpRate, fnalRate, prev).trancheB == Max(0.0, brut - pmss)
    ensures Cotiser(brut, pmss, atmpRate, fnalRate, prev).trancheA + Cotiser(brut, pmss, atmpRate, fnalRate, prev).trancheB == brut
    ensures Cotiser(brut, pmss, atmpRate, fnalRate, prev).trancheA <= pmss
    ensures Cotiser(brut, pmss, atmpRate, fnalRate, prev).trancheB >= 0.0
    ensures Cotiser(brut, pmss, atmpRate, fnalRate, prev).trancheB == 0.0 <==> brut <= pmss
    ensures Cotiser(brut, pmss, atmpRate, fnalRate, prev).baseCsg == RoundCents(brut * CsgAbattement + prev)
    ensures IsCents(Cotiser(brut, pmss, atmpRate, fnalRate, prev).baseCsg)
    ensures Proche(Cotiser(brut, pmss, atmpRate, fnalRate, prev).baseCsg, brut * CsgAbattement + prev, 0.005)
  {
    var s := AssiettesDe(brut, pmss, prev);
    RoundCentsFacts(s.csg);
  }

  /** The lines are the table's entries in order, without the five tranche-B
      entries up to the ceiling; each is the line its own entry produces; and
      the totals are the sums of the rounded amounts of the lines. */
  lemma CotiserLignes(brut: real, pmss: real, atmpRate: real, fnalRate: real, prev: real)
    ensures brut <= pmss ==> Noms(Cotiser(brut, pmss, atmpRate, fnalRate, prev).details) == SansTrancheB
    ensures brut > pmss ==> Noms(Cotiser(brut, pmss, atmpRate, fnalRate, prev).details) == Ordre
    ensures forall l | l in Cotiser(brut, pmss, atmpRate, fnalRate, prev).details ::
              l == LigneDe(l.nom, AssiettesDe(brut, pmss, prev), atmpRate, fnalRate)
    ensures Cotiser(brut, pmss, atmpRate, fnalRate, prev).totalPat == SommePat(Cotiser(brut, pmss, atmpRate, fnalRate, prev).details)
    ensures Cotiser(brut, pmss, atmpRate, fnalRate, prev).totalSal == SommeSal(Cotiser(brut, pmss, atmpRate, fnalRate, prev).details)
  {
    var s := AssiettesDe(brut, pmss, prev);
    LignesCalculees(brut, pmss, prev, atmpRate, fnalRate);
    LignesSuitLaTable(Ordre, s, atmpRate, fnalRate);
  }

  /** Each total is within half a cent per line of the exact, unrounded total. */
  lemma CotiserArrondi(brut: real, pmss: real, atmpRate: real, fnalRate: real, prev: real)
    ensures Proche(Cotiser(brut, pmss, atmpRate, fnalRate, prev).totalPat
                   - SommeExactePat(Ordre, AssiettesDe(brut, pmss, prev), atmpRate, fnalRate), 0.0,
                   0.005 * |Cotiser(brut, pmss, atmpRate, fnalRate, prev).details| as real)
    ensures Proche(Cotiser(brut, pmss, atmpRate, fnalRate, prev).totalSal
                   - SommeExacteSal(Ordre, AssiettesDe(brut, pmss, prev)), 0.0,
                   0.005 * |Cotiser(brut, pmss, atmpRate, fnalRate, prev).details| as real)
  {
    var s := AssiettesDe(brut, pmss, prev);
    ArrondiTotalPat(Ordre, s, atmpRate, fnalRate);
    ArrondiTotalSal(Ordre, s, atmpRate, fnalRate);
  }

  /** With non-negative rates, a non-negative ceiling and non-negative welfare
      contributions, both totals are non-negative and do not decrease as the
      gross and the welfare contributions rise. */
  lemma CotiserMonotone(brut1: real, brut2: real, pmss: real, atmpRate: real, fnalRate: real, prev1: real, prev2: real)
    requires 0.0 <= brut1 <= brut2 && pmss >= 0.0 && 0.0 <= prev1 <= prev2
    requires atmpRate >= 0.0 && fnalRate >= 0.0
    ensures 0.0 <= Cotiser(brut1, pmss, atmpRate, fnalRate, prev1).totalPat <= Cotiser(brut2, pmss, atmpRate, fnalRate, prev2).totalPat
    ensures 0.0 <= Cotiser(brut1, pmss, atmpRate, fnalRate, prev1).totalSal <= Cotiser(brut2, pmss, atmpRate, fnalRate, prev2).totalSal
  {
    AssiettesMonotones(brut1, brut2, pmss, prev1, prev2);
    SommesMonotones(Ordre, AssiettesDe(brut1, pmss, prev1), AssiettesDe(brut2, pmss, prev2), atmpRate, fnalRate);
  }
}
