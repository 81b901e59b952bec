/** What the payslip promises: the search never fails and never finds a
    negative rate on admissible inputs, and the figures of the payslip are
    tied together by the identities the engine's reconstruction is built on. */
module Proprietes {
  import opened Wrappers
  import opened Money
  import opened Bareme
  import opened Cotisations
  import opened Rgdu
  import opened Solver

  // ---------------------------------------------------------------------
  // The search on admissible inputs.

  /** What the search reads is never negative. */
  predicate ContexteAdmissible(ctx: Contexte)
  {
    ctx.baseSalary >= 0.0 && ctx.primeApport >= 0.0 && ctx.reserveBrute >= 0.0
    && ctx.rateCp >= 0.0 && ctx.pmss >= 0.0 && ctx.atmpRate >= 0.0 && ctx.fnalRate >= 0.0
    && ctx.mutuellePartPat >= 0.0 && ctx.trPartPat >= 0.0
  }

  /** A configuration whose amounts and rates are not negative, with the
      employer's share of the mutual insurance a percentage. */
  predicate ConfigAdmissible(cfg: Config)
  {
    cfg.baseSalary >= 0.0 && cfg.tauxPrime >= 0.0 && cfg.tauxReserve >= 0.0 && cfg.tauxCp >= 0.0
    && cfg.pmss >= 0.0 && cfg.mutuelleTaux >= 0.0 && 0.0 <= cfg.mutuellePartPat <= 100.0
    && cfg.tauxAtmp >= 0.0
  }

  /** Admissible configuration and simulation give an admissible search. */
  lemma PreparationAdmissible(cfg: Config, sim: Simulation)
    requires ConfigAdmissible(cfg)
    requires sim.daysWorkedWeek >= 0.0 && sim.nbTitresRestaurant >= 0
    ensures ContexteAdmissible(Preparer(cfg, sim).ctx)
  {
    var p := Preparer(cfg, sim);
    var b := cfg.baseSalary * (sim.daysWorkedWeek / 5.0);
    ProduitNonNegatif(cfg.baseSalary, sim.daysWorkedWeek / 5.0);
    ProduitNonNegatif(b, cfg.tauxPrime / 100.0);
    ProduitNonNegatif(b, cfg.tauxReserve / 100.0);
    ProduitNonNegatif(cfg.tauxCp, 1.0 / 100.0);
    ProduitNonNegatif(sim.nbTitresRestaurant as real, TrPartPatronaleMax);
    assert p.ctx.baseSalary == b && p.ctx.primeApport == b * (cfg.tauxPrime / 100.0);
    assert p.ctx.reserveBrute == b * (cfg.tauxReserve / 100.0);
    MutuelleNonNegative(cfg, sim.useMutuelle);
    assert p.ctx.mutuellePartPat == MutuelleDe(cfg, sim.useMutuelle).partPat;
  }

  lemma ProduitNonNegatif(x: real, y: real)
    requires x >= 0.0 && y >= 0.0
    ensures x * y >= 0.0
  {}

  /** The employer's share of the mutual insurance is not negative. */
  lemma MutuelleNonNegative(cfg: Config, useMutuelle: bool)
    requires ConfigAdmissible(cfg)
    ensures MutuelleDe(cfg, useMutuelle).partPat >= 0.0
  {
    if useMutuelle {
      var total := cfg.pmss * (cfg.mutuelleTaux / 100.0);
      ProduitNonNegatif(cfg.pmss, cfg.mutuelleTaux / 100.0);
      ProduitNonNegatif(total, cfg.mutuellePartPat / 100.0);
      RoundCentsFacts(total * (cfg.mutuellePartPat / 100.0));
    }
  }

  lemma QuotientNonNegatif(x: real, y: real)
    requires x >= 0.0 && y > 0.0
    ensures x / y >= 0.0
  {}

  lemma ProduitCroissant(b: real, x: real, y: real)
    requires b >= 0.0 && x <= y
    ensures b * x <= b * y
  {
    assert b * y - b * x == b * (y - x);
  }

  /** A rounded non-negative product does not decrease with its factor. */
  lemma MontantCroissant(x: real, y: real, taux: real)
    requires 0.0 <= x <= y && taux >= 0.0
    ensures 0.0 <= RoundCents(x * taux) <= RoundCents(y * taux)
  {
    ProduitCroissant(taux, x, y);
    assert taux * x == x * taux && taux * y == y * taux;
    RoundCentsFacts(x * taux);
    RoundCentsMonotone(x * taux, y * taux);
  }

  /** The welfare contributions entering the CSG base do not decrease with
      the gross and are not negative. */
  lemma PrevPatCroissant(b1: real, b2: real, pmss: real, mutuellePartPat: real)
    requires 0.0 <= b1 <= b2 && pmss >= 0.0 && mutuellePartPat >= 0.0
    ensures 0.0 <= PrevPat(b1, pmss, mutuellePartPat) <= PrevPat(b2, pmss, mutuellePartPat)
  {
    var ta1, ta2 := Min(b1, pmss), Min(b2, pmss);
    var tb1, tb2 := Max(0.0, b1 - pmss), Max(0.0, b2 - pmss);
    MontantCroissant(ta1, ta2, PrevoyanceDecesTaux);
    PrevSuppCroissant(tb1, tb2);
    assert PrevPat(b1, pmss, mutuellePartPat) == RoundCents(ta1 * PrevoyanceDecesTaux) + mutuellePartPat + PrevSupp(tb1);
    assert PrevPat(b2, pmss, mutuellePartPat) == RoundCents(ta2 * PrevoyanceDecesTaux) + mutuellePartPat + PrevSupp(tb2);
  }

  lemma PrevSuppCroissant(tb1: real, tb2: real)
    requires 0.0 <= tb1 <= tb2
    ensures 0.0 <= PrevSupp(tb1) <= PrevSupp(tb2)
    ensures tb1 == 0.0 ==> PrevSupp(tb1) == 0.0
  {
    if tb1 > 0.0 {
      MontantCroissant(tb1, tb2, PrevoyanceSuppTaux);
    } else if tb2 > 0.0 {
      MontantCroissant(0.0, tb2, PrevoyanceSuppTaux);
    }
  }

  /** The employer charges of the table and the flat levy do not decrease
      with the gross and are not negative. */
  lemma ChargesTableCroissant(ctx: Contexte, b1: real, b2: real)
    requires ContexteAdmissible(ctx) && 0.0 <= b1 <= b2
    ensures 0.0 <= ChargesTable(ctx, b1) <= ChargesTable(ctx, b2)
  {
    var p1 := PrevPat(b1, ctx.pmss, ctx.mutuellePartPat);
    var p2 := PrevPat(b2, ctx.pmss, ctx.mutuellePartPat);
    PrevPatCroissant(b1, b2, ctx.pmss, ctx.mutuellePartPat);
    TotalPatCroissant(b1, b2, ctx.pmss, ctx.atmpRate, ctx.fnalRate, p1, p2);
    MontantCroissant(p1, p2, ForfaitSocialTaux);
  }

  /** The employer total of the table does not decrease with the gross and
      the welfare contributions, and is not negative. */
  lemma TotalPatCroissant(b1: real, b2: real, pmss: real, atmpRate: real, fnalRate: real, p1: real, p2: real)
    requires 0.0 <= b1 <= b2 && pmss >= 0.0 && 0.0 <= p1 <= p2 && atmpRate >= 0.0 && fnalRate >= 0.0
    ensures 0.0 <= TotalPat(b1, pmss, atmpRate, fnalRate, p1) <= TotalPat(b2, pmss, atmpRate, fnalRate, p2)
  {
    AssiettesMonotones(b1, b2, pmss, p1, p2);
    SommesMonotones(Ordre, AssiettesDe(b1, pmss, p1), AssiettesDe(b2, pmss, p2), atmpRate, fnalRate);
  }

  /** The charges of a pass are not negative when its paid-leave allowance
      is not and the reserve does not lower the table charges. */
  lemma ChargesNonNegatives(ctx: Contexte, pool: real, icp: real, t1: real, t2: real)
    requires ContexteAdmissible(ctx) && pool > 0.0 && icp >= 0.0 && 0.0 <= t1 <= t2
    ensures Charges(ctx, pool, icp, t1, t2) >= 0.0
  {
    assert ctx.reserveBrute * ctx.rateCp >= 0.0;
    assert ctx.reserveBrute / pool >= 0.0;
    assert ctx.mutuellePartPat * (ctx.reserveBrute / pool) >= 0.0;
  }

  /** The estimated gross of a pass is its socle plus a non-negative
      paid-leave allowance, and the reserve only raises it. */
  lemma BrutEstimeEncadre(ctx: Contexte, pool: real)
    requires ContexteAdmissible(ctx)
    ensures 0.0 <= ctx.baseSalary + ctx.primeApport + ComplementDe(ctx, pool) <= BrutEstime(ctx, pool)
    ensures BrutEstime(ctx, pool) <= BrutAvecReserve(ctx, BrutEstime(ctx, pool))
  {
    var socle := ctx.baseSalary + ctx.primeApport + ComplementDe(ctx, pool);
    assert socle * (1.0 + ctx.rateCp) == socle + socle * ctx.rateCp;
    assert socle * ctx.rateCp >= 0.0;
    assert ctx.reserveBrute * (1.0 + ctx.rateCp) >= 0.0;
  }

  /** On an admissible context, the charges a pass attributes to a positive
      pool are not negative. */
  lemma ChargesPasseNonNegatives(ctx: Contexte, pool: real)
    requires ContexteAdmissible(ctx) && pool > 0.0
    ensures ChargesPasse(ctx, pool) >= 0.0
  {
    var socle := ctx.baseSalary + ctx.primeApport + ComplementDe(ctx, pool);
    var brut := BrutEstime(ctx, pool);
    var brut2 := BrutAvecReserve(ctx, brut);
    BrutEstimeEncadre(ctx, pool);
    ChargesTableCroissant(ctx, brut, brut2);
    ChargesNonNegatives(ctx, pool, brut - socle, ChargesTable(ctx, brut), ChargesTable(ctx, brut2));
  }

  /** On an admissible context, a pass from a non-negative rate never
      divides by zero and never gives a negative rate. */
  lemma ProchainTauxNonNegatif(ctx: Contexte, taux: real)
    requires ContexteAdmissible(ctx) && taux >= 0.0
    ensures ProchainTaux(ctx, taux).Some?
    ensures ProchainTaux(ctx, taux).value >= 0.0
  {
    var pool := ctx.budgetSalaire / (1.0 + taux);
    if pool > 0.0 {
      ChargesPasseNonNegatives(ctx, pool);
      var c := ChargesPasse(ctx, pool);
      QuotientNonNegatif(c, pool);
      ProchainTauxDe(ctx, taux, pool, c);
    }
  }

  /** An iteration whose passes map non-negative rates to non-negative
      rates ends, from a non-negative rate, on a non-negative rate. */
  lemma {:induction false} IterationNonNegative(pas: real -> Option<real>, taux: real, passes: nat)
    requires forall t :: t >= 0.0 ==> pas(t).Some? && pas(t).value >= 0.0
    requires taux >= 0.0
    ensures Iteration(pas, taux, passes).Some?
    ensures Iteration(pas, taux, passes).value >= 0.0
    decreases passes
  {
    if passes > 0 {
      var tn := pas(taux).value;
      if Abs(tn - taux) >= Tolerance {
        IterationNonNegative(pas, tn, passes - 1);
      }
    }
  }

  /** On an admissible context the search from a non-negative rate ends on a
      non-negative rate. */
  lemma ItererNonNegatif(ctx: Contexte, taux: real, passes: nat)
    requires ContexteAdmissible(ctx) && taux >= 0.0
    ensures Iterer(ctx, taux, passes).Some?
    ensures Iterer(ctx, taux, passes).value >= 0.0
  {
    forall t | t >= 0.0
      ensures PasDe(ctx)(t).Some? && PasDe(ctx)(t).value >= 0.0
    {
      ProchainTauxNonNegatif(ctx, t);
    }
    IterationNonNegative(PasDe(ctx), taux, passes);
  }

  /** On admissible inputs the rate used is never negative and the search
      never divides by zero. */
  lemma TauxResoluNonNegatif(ctx: Contexte, override: real)
    requires ContexteAdmissible(ctx)
    ensures TauxResolu(ctx, override).Some?
    ensures TauxResolu(ctx, override).value >= 0.0
  {
    if override <= 0.0 {
      ItererNonNegatif(ctx, TauxInitial, PassesMax);
    }
  }

  // ---------------------------------------------------------------------
  // The straight-line part before the search.

  /** The figures the preparation computes, and the search context it builds
      from them. */
  predicate Coherente(p: Preparation)
  {
    p.ctx.budgetSalaire == p.budgetSalaire && p.ctx.baseSalary == p.baseSalary
    && p.ctx.primeApport == p.primeApport && p.ctx.reserveBrute == p.reserveBrute
    && p.ctx.mutuellePartPat == p.mutuelle.partPat && p.ctx.trPartPat == p.trPartPat
  }

  /** The preparation: the telework days are capped at 22 and paid 2.70 a
      day; both meal-voucher shares are 7.18 a voucher; the mutual insurance
      is a share of the ceiling split into two amounts rounded to the cent,
      nothing without it; the budget is the turnover less both fees and the
      reimbursed expenses. */
  lemma PreparationDe(cfg: Config, sim: Simulation)
    ensures var p := Preparer(cfg, sim);
            && Coherente(p)
            && p.joursTeletravail == MinInt(sim.joursTeletravail, 22) && p.joursTeletravail <= 22
            && p.forfaitTeletravail == p.joursTeletravail as real * 2.70
            && p.trPartSal == p.trPartPat == sim.nbTitresRestaurant as real * 7.18
            && p.turnover == sim.tjm * sim.daysWorkedMonth
            && p.montantDisponible == p.turnover - p.managementFees - p.fraisIntermediation
            && p.totalFraisRembourses == sim.ikAmount + sim.igdAmount + p.forfaitTeletravail + sim.otherExpenses
            && p.budgetSalaire == p.montantDisponible - p.totalFraisRembourses
            && p.baseSalary == cfg.baseSalary * (sim.daysWorkedWeek / 5.0)
            && p.primeApport == p.baseSalary * (cfg.tauxPrime / 100.0)
            && p.reserveBrute == p.baseSalary * (cfg.tauxReserve / 100.0)
            && p.ctx.rateCp == cfg.tauxCp / 100.0
            && p.ctx.fnalRate == (if sim.effectifSup50 then 0.0050 else 0.0010)
  {
    var p := Preparer(cfg, sim);
    assert p.reserveBrute == cfg.baseSalary * (sim.daysWorkedWeek / 5.0) * (cfg.tauxReserve / 100.0);
  }

  /** The split of the mutual insurance: both shares are whole cents, their
      sum is within a cent of the cost, and there is nothing without it. */
  lemma MutuelleSplit(cfg: Config, useMutuelle: bool)
    ensures var m := MutuelleDe(cfg, useMutuelle);
            && IsCents(m.partPat) && IsCents(m.partSal)
            && (useMutuelle ==> m.total == cfg.pmss * (cfg.mutuelleTaux / 100.0)
                                && Proche(m.partPat + m.partSal, m.total, 0.01))
            && (!useMutuelle ==> m == Mutuelle(0.0, 0.0, 0.0))
  {
    if useMutuelle {
      PartageArrondi(cfg.pmss * (cfg.mutuelleTaux / 100.0), cfg.mutuellePartPat / 100.0);
    } else {
      FloorOfInt(0);
    }
  }

  /** Both shares of a split are whole cents, and together within a cent of
      the cost split. */
  lemma PartageArrondi(total: real, split: real)
    ensures IsCents(Partage(total, split).partPat) && IsCents(Partage(total, split).partSal)
    ensures Partage(total, split).total == total
    ensures Proche(Partage(total, split).partPat + Partage(total, split).partSal, total, 0.01)
  {
    RoundCentsFacts(total * split);
    RoundCentsFacts(total * (1.0 - split));
    assert total * split + total * (1.0 - split) == total;
  }

  // ---------------------------------------------------------------------
  // The payslip rebuilt from the rate.

  /** The payslip rebuilds the gross from the rate: the pool is the budget
      over 1 + rate; the complement is what the pool leaves once base, bonus
      and reserve are paid, never negative, and splits into its remuneration
      part and its business-contribution part by 1 + bonus rate; the
      paid-leave allowance is a share of base, bonus and complement; the
      gross is their sum. */
  lemma ReconstitutionDuBrut(cfg: Config, sim: Simulation, p: Preparation, taux: real,
                             pool: real, ct: real, icp: real, gross: real, prev: real, cotis: Resultat, reduction: real)
    requires Coherente(p)
    requires 1.0 + taux != 0.0 && 1.0 + cfg.tauxPrime / 100.0 != 0.0
    requires pool == p.budgetSalaire / (1.0 + taux) && ct == ComplementDe(p.ctx, pool)
    requires icp == IndemniteCp(p, ct) && gross == Brut(p, ct)
    ensures var f := FicheDe(cfg, sim, p, taux, pool, ct, icp, gross, prev, cotis, reduction);
            && f.tauxCharges == taux && f.budgetSalaire == p.budgetSalaire
            && f.poolSilae * (1.0 + taux) == f.budgetSalaire
            && f.baseSalary == p.baseSalary && f.primeApport == p.primeApport
            && f.complementRemuneration + f.complementApportAffaires
               == Max(0.0, f.poolSilae - f.baseSalary - f.primeApport - p.reserveBrute)
            && f.complementRemuneration + f.complementApportAffaires >= 0.0
            && f.complementRemuneration * (1.0 + cfg.tauxPrime / 100.0)
               == f.complementRemuneration + f.complementApportAffaires
            && f.indemniteCp == (f.baseSalary + f.primeApport + f.complementRemuneration + f.complementApportAffaires) * p.ctx.rateCp
            && f.grossSalary == f.baseSalary + f.primeApport + f.complementRemuneration + f.complementApportAffaires + f.indemniteCp
  {
    var rem := ct / (1.0 + cfg.tauxPrime / 100.0);
    assert rem * (1.0 + cfg.tauxPrime / 100.0) == ct;
    assert pool * (1.0 + taux) == p.budgetSalaire;
  }

  /** The charges, the cost and the net pay of the payslip: employer charges
      are the table's employer total, the employer's mutual-insurance and
      meal-voucher shares and the flat levy, less the reduction; employee
      charges are the table's employee total and the employee's shares; the
      net is the gross less the employee charges, plus the reimbursed
      expenses once paid; the provision is what the budget leaves once gross
      and employer charges are paid, never negative; the reserve shown is the
      gross reserve only when it is used. */
  lemma ChargesDeLaFiche(cfg: Config, sim: Simulation, p: Preparation, taux: real,
                         pool: real, ct: real, icp: real, gross: real, prev: real, cotis: Resultat, reduction: real)
    requires 1.0 + cfg.tauxPrime / 100.0 != 0.0
    ensures var f := FicheDe(cfg, sim, p, taux, pool, ct, icp, gross, prev, cotis, reduction);
            && f.grossSalary == gross && f.reductionRgdu == reduction && f.prevPatTotal == prev
            && f.forfaitSocial == RoundCents(prev * 0.08)
            && f.employerChargesAvantRgdu == cotis.totalPat + f.mutuellePartPat + f.trPartPat + f.forfaitSocial
            && f.employerCharges == f.employerChargesAvantRgdu - f.reductionRgdu
            && f.employeeCharges == cotis.totalSal + f.mutuellePartSal + f.trPartSal
            && f.netBeforeTax == f.grossSalary - f.employeeCharges
            && f.netPayable == f.netBeforeTax + f.totalFraisRembourses
            && f.coutGlobalSansReserve == f.grossSalary + f.employerCharges + f.totalFraisRembourses
            && f.provisionReserveFinanciere >= 0.0
            && f.provisionReserveFinanciere >= f.budgetSalaire - f.grossSalary - f.employerCharges
            && (f.provisionReserveFinanciere > 0.0 ==>
                  f.grossSalary + f.employerCharges + f.provisionReserveFinanciere == f.budgetSalaire)
            && f.reserveAmount == (if sim.useReserve then p.reserveBrute else 0.0)
            && f.joursTeletravail == p.joursTeletravail && f.forfaitTeletravail == p.forfaitTeletravail
            && f.mutuellePartPat == p.mutuelle.partPat && f.mutuellePartSal == p.mutuelle.partSal
            && f.trPartPat == p.trPartPat && f.trPartSal == p.trPartSal
            && f.cotisDetails == cotis.details && f.cotisTotalPat == cotis.totalPat && f.cotisTotalSal == cotis.totalSal
            && f.trancheA == cotis.trancheA && f.trancheB == cotis.trancheB && f.baseCsg == cotis.baseCsg
  {}

  /** The payslip a successful Finaliser returns, from its parts. */
  lemma FicheDeFinaliser(cfg: Config, sim: Simulation, p: Preparation, taux: real, pow175: real -> real, f: Fiche)
    requires Finaliser(cfg, sim, p, taux, pow175) == Calcule(f)
    ensures 1.0 + taux != 0.0 && 1.0 + cfg.tauxPrime / 100.0 != 0.0
    ensures var pool := p.budgetSalaire / (1.0 + taux);
            var ct := ComplementDe(p.ctx, pool);
            var gross := Brut(p, ct);
            var prev := PrevPat(gross, cfg.pmss, p.mutuelle.partPat);
            && ReductionDe(cfg, sim, gross, pow175).Some?
            && f == FicheDe(cfg, sim, p, taux, pool, ct, IndemniteCp(p, ct), gross, prev,
                            Cotiser(gross, cfg.pmss, p.ctx.atmpRate, p.ctx.fnalRate, prev),
                            ReductionDe(cfg, sim, gross, pow175).value)
  {}

  /** On admissible inputs calculate_salary always produces a payslip,
      except when the RGDU is asked for and the gross comes out at zero with
      a positive minimum wage: the one division by zero left. */
  lemma BulletinDefini(cfg: Config, sim: Simulation, pow175: real -> real)
    requires ConfigAdmissible(cfg)
    requires sim.daysWorkedWeek >= 0.0 && sim.nbTitresRestaurant >= 0
    ensures Bulletin(cfg, sim, pow175).DivisionParZero? ==> sim.useRgdu && cfg.smicMensuel > 0.0
  {
    var p := Preparer(cfg, sim);
    PreparationAdmissible(cfg, sim);
    TauxResoluNonNegatif(p.ctx, cfg.tauxChargesOverride / 100.0);
    var taux := TauxResolu(p.ctx, cfg.tauxChargesOverride / 100.0).value;
    FinaliserDefini(cfg, sim, p, taux, pow175);
  }

  /** From a rate above -1 and a bonus rate above -100%, the payslip is only
      missing when the RGDU divides by a zero gross. */
  lemma FinaliserDefini(cfg: Config, sim: Simulation, p: Preparation, taux: real, pow175: real -> real)
    requires taux >= 0.0 && cfg.tauxPrime >= 0.0
    ensures Finaliser(cfg, sim, p, taux, pow175).DivisionParZero? ==> sim.useRgdu && cfg.smicMensuel > 0.0
  {
    var pool := p.budgetSalaire / (1.0 + taux);
    var ct := ComplementDe(p.ctx, pool);
    EtabliDefini(cfg, sim, p, taux, pool, ct, IndemniteCp(p, ct), Brut(p, ct), pow175);
  }

  lemma EtabliDefini(cfg: Config, sim: Simulation, p: Preparation, taux: real,
                     pool: real, ct: real, icp: real, gross: real, pow175: real -> real)
    requires 1.0 + cfg.tauxPrime / 100.0 != 0.0
    ensures Etabli(cfg, sim, p, taux, pool, ct, icp, gross, pow175).DivisionParZero?
            ==> sim.useRgdu && gross == 0.0 && cfg.smicMensuel > 0.0
  {}

  // ---------------------------------------------------------------------
  // The rate found, entered back as the override.

  /** Entering the rate the engine used as the override makes it use that
      rate again: a positive rate is taken as it is, and a non-positive one
      leaves the search to run again, to the same rate. */
  lemma TauxResoluFixe(ctx: Contexte, override: real, t: real)
    requires TauxResolu(ctx, override) == Some(t)
    ensures TauxResolu(ctx, t) == Some(t)
  {
    if override <= 0.0 && t > 0.0 {
      assert TauxResolu(ctx, t) == Some(t);
    }
  }

  /** The override is read by the search only, not by the preparation nor
      by the rebuilding of the payslip. */
  lemma PreparerSansOverride(cfg: Config, sim: Simulation, x: real)
    ensures Preparer(cfg.(tauxChargesOverride := x), sim) == Preparer(cfg, sim)
  {
    MutuelleSansOverride(cfg, sim.useMutuelle, x);
  }

  lemma MutuelleSansOverride(cfg: Config, useMutuelle: bool, x: real)
    ensures MutuelleDe(cfg.(tauxChargesOverride := x), useMutuelle) == MutuelleDe(cfg, useMutuelle)
  {
    var cfg2 := cfg.(tauxChargesOverride := x);
    assert cfg2.pmss * (cfg2.mutuelleTaux / 100.0) == cfg.pmss * (cfg.mutuelleTaux / 100.0);
    assert cfg2.mutuellePartPat / 100.0 == cfg.mutuellePartPat / 100.0;
  }

  lemma EtabliSansOverride(cfg: Config, sim: Simulation, x: real, p: Preparation, taux: real,
                           pool: real, ct: real, icp: real, gross: real, pow175: real -> real)
    requires 1.0 + cfg.tauxPrime / 100.0 != 0.0
    ensures Etabli(cfg.(tauxChargesOverride := x), sim, p, taux, pool, ct, icp, gross, pow175)
            == Etabli(cfg, sim, p, taux, pool, ct, icp, gross, pow175)
  {
    var cfg2 := cfg.(tauxChargesOverride := x);
    assert ReductionDe(cfg2, sim, gross, pow175) == ReductionDe(cfg, sim, gross, pow175);
    var prev := PrevPat(gross, cfg.pmss, p.mutuelle.partPat);
    var cotis := Cotiser(gross, cfg.pmss, p.ctx.atmpRate, p.ctx.fnalRate, prev);
    forall reduction: real
      ensures FicheDe(cfg2, sim, p, taux, pool, ct, icp, gross, prev, cotis, reduction)
              == FicheDe(cfg, sim, p, taux, pool, ct, icp, gross, prev, cotis, reduction)
    {
      FicheDeSansOverride(cfg, sim, x, p, taux, pool, ct, icp, gross, prev, cotis, reduction);
    }
  }

  lemma FicheDeSansOverride(cfg: Config, sim: Simulation, x: real, p: Preparation, taux: real,
                            pool: real, ct: real, icp: real, gross: real, prev: real, cotis: Resultat, reduction: real)
    requires 1.0 + cfg.tauxPrime / 100.0 != 0.0
    ensures FicheDe(cfg.(tauxChargesOverride := x), sim, p, taux, pool, ct, icp, gross, prev, cotis, reduction)
            == FicheDe(cfg, sim, p, taux, pool, ct, icp, gross, prev, cotis, reduction)
  {}

  lemma FinaliserSansOverride(cfg: Config, sim: Simulation, x: real, p: Preparation, taux: real, pow175: real -> real)
    ensures Finaliser(cfg.(tauxChargesOverride := x), sim, p, taux, pow175) == Finaliser(cfg, sim, p, taux, pow175)
  {
    if 1.0 + taux != 0.0 && 1.0 + cfg.tauxPrime / 100.0 != 0.0 {
      var pool := p.budgetSalaire / (1.0 + taux);
      var ct := ComplementDe(p.ctx, pool);
      EtabliSansOverride(cfg, sim, x, p, taux, pool, ct, IndemniteCp(p, ct), Brut(p, ct), pow175);
    }
  }

  /** Entering the rate `t` the engine used, in percent, as the configured
      override makes the engine use `t` again and rebuild the same payslip
      from the same preparation. */
  lemma OverrideReproduit(cfg: Config, sim: Simulation, p: Preparation, pow175: real -> real, t: real)
    requires TauxResolu(p.ctx, cfg.tauxChargesOverride / 100.0) == Some(t)
    ensures BulletinDepuis(cfg.(tauxChargesOverride := t * 100.0), sim, p, pow175)
            == BulletinDepuis(cfg, sim, p, pow175)
  {
    TauxResoluFixe(p.ctx, cfg.tauxChargesOverride / 100.0, t);
    assert (t * 100.0) / 100.0 == t;
    FinaliserSansOverride(cfg, sim, t * 100.0, p, t, pow175);
  }

  /** Re-running calculate_salary with the rate `t` it used, in percent, as
      the configured override gives back the same payslip. */
  lemma BulletinReproduit(cfg: Config, sim: Simulation, pow175: real -> real, t: real)
    requires TauxResolu(Preparer(cfg, sim).ctx, cfg.tauxChargesOverride / 100.0) == Some(t)
    ensures Bulletin(cfg.(tauxChargesOverride := t * 100.0), sim, pow175) == Bulletin(cfg, sim, pow175)
  {
    PreparerSansOverride(cfg, sim, t * 100.0);
    OverrideReproduit(cfg, sim, Preparer(cfg, sim), pow175, t);
  }

  // ---------------------------------------------------------------------
  // The gross of the payslip.

  /** The gross the payslip is built on, for the preparation `p` and the
      rate `taux`: the pool, the complement it leaves, then base, bonus,
      complement and paid leave. */
  function BrutPour(p: Preparation, taux: real): real
    requires 1.0 + taux != 0.0
  {
    Brut(p, ComplementDe(p.ctx, p.budgetSalaire / (1.0 + taux)))
  }

  /** A payslip carries the gross of its preparation and rate. */
  lemma BrutDeFinaliser(cfg: Config, sim: Simulation, p: Preparation, taux: real, pow175: real -> real)
    ensures Finaliser(cfg, sim, p, taux, pow175).Calcule? ==>
              1.0 + taux != 0.0 && Finaliser(cfg, sim, p, taux, pow175).fiche.grossSalary == BrutPour(p, taux)
  {
    if Finaliser(cfg, sim, p, taux, pow175).Calcule? {
      FicheDeFinaliser(cfg, sim, p, taux, pow175, Finaliser(cfg, sim, p, taux, pow175).fiche);
    }
  }

  /** The payslip of calculate_salary is the payslip of its rate. */
  lemma BulletinDeTaux(cfg: Config, sim: Simulation, p: Preparation, pow175: real -> real, taux: real)
    requires TauxResolu(p.ctx, cfg.tauxChargesOverride / 100.0) == Some(taux)
    ensures BulletinDepuis(cfg, sim, p, pow175) == Finaliser(cfg, sim, p, taux, pow175)
  {}

  /** With admissible amounts, the gross is never negative, whatever the
      pool: base, bonus and the non-negative complement, plus paid leave at
      a non-negative rate. */
  lemma BrutPourNonNegatif(p: Preparation, taux: real)
    requires Coherente(p) && ContexteAdmissible(p.ctx) && 1.0 + taux != 0.0
    ensures BrutPour(p, taux) >= 0.0
  {
    var ct := ComplementDe(p.ctx, p.budgetSalaire / (1.0 + taux));
    ProduitNonNegatif(p.baseSalary + p.primeApport + ct, p.ctx.rateCp);
  }

  /** On admissible inputs the gross of every payslip calculate_salary
      produces is not negative. */
  lemma BulletinBrutNonNegatif(cfg: Config, sim: Simulation, pow175: real -> real)
    requires ConfigAdmissible(cfg)
    requires sim.daysWorkedWeek >= 0.0 && sim.nbTitresRestaurant >= 0
    ensures Bulletin(cfg, sim, pow175).Calcule? ==> Bulletin(cfg, sim, pow175).fiche.grossSalary >= 0.0
  {
    var p := Preparer(cfg, sim);
    PreparationAdmissible(cfg, sim);
    PreparationDe(cfg, sim);
    TauxResoluNonNegatif(p.ctx, cfg.tauxChargesOverride / 100.0);
    var taux := TauxResolu(p.ctx, cfg.tauxChargesOverride / 100.0).value;
    BulletinDeTaux(cfg, sim, p, pow175, taux);
    BrutDeFinaliser(cfg, sim, p, taux, pow175);
    BrutPourNonNegatif(p, taux);
  }

  /** A higher TJM leaves the base, the bonus, the reserve and the
      paid-leave rate as they are and does not lower the salary budget,
      as long as the days are not negative and the two fees take at most the
      whole turnover. */
  lemma PreparerCroissantTjm(cfg: Config, sim: Simulation, tjm2: real)
    requires sim.tjm <= tjm2 && sim.daysWorkedMonth >= 0.0
    requires cfg.fraisGestion / 100.0 + sim.fraisIntermediationPct / 100.0 <= 1.0
    ensures var p1 := Preparer(cfg, sim);
            var p2 := Preparer(cfg, sim.(tjm := tjm2));
            && p1.baseSalary == p2.baseSalary && p1.primeApport == p2.primeApport
            && p1.reserveBrute == p2.reserveBrute && p1.ctx.rateCp == p2.ctx.rateCp
            && p1.budgetSalaire <= p2.budgetSalaire
  {
    var g := cfg.fraisGestion / 100.0;
    var i := sim.fraisIntermediationPct / 100.0;
    var t1 := sim.tjm * sim.daysWorkedMonth;
    var t2 := tjm2 * sim.daysWorkedMonth;
    ProduitCroissant(sim.daysWorkedMonth, sim.tjm, tjm2);
    assert sim.daysWorkedMonth * sim.tjm == t1 && sim.daysWorkedMonth * tjm2 == t2;
    Disponible(t1, g, i);
    Disponible(t2, g, i);
    ProduitCroissant(1.0 - g - i, t1, t2);
  }

  lemma Disponible(t: real, g: real, i: real)
    ensures t - t * g - t * i == (1.0 - g - i) * t
  {}

  /** With the same base, bonus, reserve and paid-leave rate, a larger
      budget gives a gross at least as large, at a rate above -1: the pool,
      the complement and the gross all follow the budget. */
  lemma BrutPourCroissant(p1: Preparation, p2: Preparation, taux: real)
    requires Coherente(p1) && Coherente(p2) && 1.0 + taux > 0.0
    requires p1.baseSalary == p2.baseSalary && p1.primeApport == p2.primeApport
    requires p1.reserveBrute == p2.reserveBrute && p1.ctx.rateCp == p2.ctx.rateCp >= 0.0
    requires p1.budgetSalaire <= p2.budgetSalaire
    ensures BrutPour(p1, taux) <= BrutPour(p2, taux)
  {
    var pool1 := p1.budgetSalaire / (1.0 + taux);
    var pool2 := p2.budgetSalaire / (1.0 + taux);
    QuotientCroissant(p1.budgetSalaire, p2.budgetSalaire, 1.0 + taux);
    var ct1 := ComplementDe(p1.ctx, pool1);
    var ct2 := ComplementDe(p2.ctx, pool2);
    assert ct1 <= ct2;
    var s1 := p1.baseSalary + p1.primeApport + ct1;
    var s2 := p2.baseSalary + p2.primeApport + ct2;
    ProduitCroissant(p1.ctx.rateCp, s1, s2);
    assert s1 * p1.ctx.rateCp == p1.ctx.rateCp * s1 && s2 * p2.ctx.rateCp == p1.ctx.rateCp * s2;
  }

  lemma QuotientCroissant(x: real, y: real, d: real)
    requires x <= y && d > 0.0
    ensures x / d <= y / d
  {
    assert y / d - x / d == (y - x) / d;
  }

  /** With a positive configured override, the gross of the payslip does
      not decrease when the TJM rises (the days not negative, the two fees
      at most the whole turnover): a higher turnover gives a larger budget,
      pool, complement and gross at the same rate. */
  lemma BulletinBrutCroissantTjm(cfg: Config, sim: Simulation, tjm2: real, pow175: real -> real)
    requires ConfigAdmissible(cfg) && cfg.tauxChargesOverride > 0.0
    requires sim.tjm <= tjm2 && sim.daysWorkedMonth >= 0.0
    requires cfg.fraisGestion / 100.0 + sim.fraisIntermediationPct / 100.0 <= 1.0
    ensures Bulletin(cfg, sim, pow175).Calcule? && Bulletin(cfg, sim.(tjm := tjm2), pow175).Calcule? ==>
              Bulletin(cfg, sim, pow175).fiche.grossSalary <= Bulletin(cfg, sim.(tjm := tjm2), pow175).fiche.grossSalary
  {
    var sim2 := sim.(tjm := tjm2);
    var p1 := Preparer(cfg, sim);
    var p2 := Preparer(cfg, sim2);
    var o := cfg.tauxChargesOverride / 100.0;
    TauxResoluDe(p1.ctx, o);
    TauxResoluDe(p2.ctx, o);
    BulletinDeTaux(cfg, sim, p1, pow175, o);
    BulletinDeTaux(cfg, sim2, p2, pow175, o);
    BrutDeFinaliser(cfg, sim, p1, o, pow175);
    BrutDeFinaliser(cfg, sim2, p2, o, pow175);
    PreparationDe(cfg, sim);
    PreparationDe(cfg, sim2);
    PreparerCroissantTjm(cfg, sim, tjm2);
    ProduitNonNegatif(cfg.tauxCp, 1.0 / 100.0);
    BrutPourCroissant(p1, p2, o);
  }
}
