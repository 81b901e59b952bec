/** calculate_salary: from a daily rate and working days to a payslip.

    The engine first works out the salary budget (turnover less fees and
    reimbursed expenses), then looks for the aggregate employer-charge rate
    `taux` such that budget / (1 + taux) pays the gross salary and its
    charges, by at most 50 fixed-point passes from 0.55, and finally rebuilds
    the gross, the charges, the net pay and the reserve provision from that
    rate. The configuration held in the UI's session state is the immutable
    record `Config`. */
module Solver {
  import opened Wrappers
  import opened Money
  import opened Bareme
  import opened Cotisations
  import opened Rgdu

  /** The engine's configuration; every rate is in percent, as entered. */
  datatype Config = Config(
    baseSalary: real,
    fraisGestion: real,
    tauxPrime: real,
    tauxReserve: real,
    tauxCp: real,
    pmss: real,
    mutuelleTaux: real,
    mutuellePartPat: real,
    smicMensuel: real,
    tauxAtmp: real,
    tauxChargesOverride: real)

  /** The arguments of one simulation. */
  datatype Simulation = Simulation(
    tjm: real,
    daysWorkedMonth: real,
    daysWorkedWeek: real,
    ikAmount: real,
    igdAmount: real,
    otherExpenses: real,
    useReserve: bool,
    useMutuelle: bool,
    nbTitresRestaurant: int,
    fraisIntermediationPct: real,
    joursTeletravail: int,
    useRgdu: bool,
    effectifSup50: bool)

  // The fixed-point search: its seed, its number of passes and its tolerance.
  const TauxInitial: real := 0.55
  const PassesMax: nat := 50
  const Tolerance: real := 0.00001

  function MinInt(a: int, b: int): (r: int)
    ensures r <= a && r <= b && (r == a || r == b)
  {
    if a <= b then a else b
  }

  /** The employer's monthly welfare contributions that enter the CSG base:
      death-and-disability on tranche A, the employer's share of the mutual
      insurance, and the supplementary cover on tranche B when there is one. */
  function PrevPat(brut: real, pmss: real, mutuellePartPat: real): real
  {
    var ta := Min(brut, pmss);
    var tb := Max(0.0, brut - pmss);
    RoundCents(ta * PrevoyanceDecesTaux) + mutuellePartPat + PrevSupp(tb)
  }

  /** The supplementary cover on the tranche B `tb`, nothing when there is no tranche B. */
  function PrevSupp(tb: real): real
  {
    if tb > 0.0 then RoundCents(tb * PrevoyanceSuppTaux) else 0.0
  }

  /** The employer total of the contribution table on `brut`. */
  function TotalPat(brut: real, pmss: real, atmpRate: real, fnalRate: real, prevPat: real): real
  {
    SommePat(Lignes(Ordre, AssiettesDe(brut, pmss, prevPat), atmpRate, fnalRate))
  }

  /** The mutual insurance: its monthly cost on the ceiling and its split. */
  datatype Mutuelle = Mutuelle(total: real, partPat: real, partSal: real)

  function MutuelleDe(cfg: Config, useMutuelle: bool): Mutuelle
  {
    if useMutuelle then Partage(cfg.pmss * (cfg.mutuelleTaux / 100.0), cfg.mutuellePartPat / 100.0)
    else Mutuelle(0.0, 0.0, 0.0)
  }

  /** The cost `total` split into the employer's share `split` and the
      employee's rest, each rounded to the cent. */
  function Partage(total: real, split: real): Mutuelle
  {
    Mutuelle(total, RoundCents(total * split), RoundCents(total * (1.0 - split)))
  }

  /** What the charge-rate passes read. */
  datatype Contexte = Contexte(
    budgetSalaire: real,
    baseSalary: real,
    primeApport: real,
    reserveBrute: real,
    rateCp: real,
    pmss: real,
    atmpRate: real,
    fnalRate: real,
    mutuellePartPat: real,
    trPartPat: real)

  /** The straight-line part before the search. */
  datatype Preparation = Preparation(
    mutuelle: Mutuelle,
    trPartSal: real,
    trPartPat: real,
    joursTeletravail: int,
    forfaitTeletravail: real,
    turnover: real,
    managementFees: real,
    fraisIntermediation: real,
    montantDisponible: real,
    totalFraisRembourses: real,
    baseSalary: real,
    primeApport: real,
    reserveBrute: real,
    budgetSalaire: real,
    ctx: Contexte)

  function Preparer(cfg: Config, sim: Simulation): Preparation
  {
    var ratePrime := cfg.tauxPrime / 100.0;
    var rateCp := cfg.tauxCp / 100.0;
    var atmpRate := cfg.tauxAtmp / 100.0;
    var fnalRate := if sim.effectifSup50 then FnalTauxSup50 else FnalTauxInf50;
    var mutuelle := MutuelleDe(cfg, sim.useMutuelle);
    var trPartSal := sim.nbTitresRestaurant as real * TrPartPatronaleMax;
    var trPartPat := sim.nbTitresRestaurant as real * TrPartPatronaleMax;
    var jours := MinInt(sim.joursTeletravail, TeletravailMaxJours);
    var forfait := jours as real * TeletravailTauxJour;
    var turnover := sim.tjm * sim.daysWorkedMonth;
    var managementFees := turnover * (cfg.fraisGestion / 100.0);
    var fraisIntermediation := turnover * (sim.fraisIntermediationPct / 100.0);
    var montantDisponible := turnover - managementFees - fraisIntermediation;
    var totalFrais := sim.ikAmount + sim.igdAmount + forfait + sim.otherExpenses;
    var baseSalary := cfg.baseSalary * (sim.daysWorkedWeek / 5.0);
    var primeApport := baseSalary * ratePrime;
    var reserveBrute := cfg.baseSalary * (sim.daysWorkedWeek / 5.0) * (cfg.tauxReserve / 100.0);
    var budget := montantDisponible - totalFrais;
    Preparation(mutuelle, trPartSal, trPartPat, jours, forfait, turnover, managementFees,
                fraisIntermediation, montantDisponible, totalFrais, baseSalary, primeApport, reserveBrute, budget,
                Contexte(budget, baseSalary, primeApport, reserveBrute, rateCp, cfg.pmss, atmpRate, fnalRate,
                         mutuelle.partPat, trPartPat))
  }

  // ---------------------------------------------------------------------
  // One pass of the search.

  /** The complement the pool `pool` leaves once base, bonus and reserve are paid. */
  function ComplementDe(ctx: Contexte, pool: real): real
  {
    Max(0.0, pool - ctx.baseSalary - ctx.primeApport - ctx.reserveBrute)
  }

  /** The flat levy (forfait social) on the employer's welfare contributions. */
  function ForfaitSocial(prevPat: real): real
  {
    RoundCents(prevPat * ForfaitSocialTaux)
  }

  /** The employer total of the table on `brut`, plus the flat levy. */
  function ChargesTable(ctx: Contexte, brut: real): real
  {
    var pt := PrevPat(brut, ctx.pmss, ctx.mutuellePartPat);
    TotalPat(brut, ctx.pmss, ctx.atmpRate, ctx.fnalRate, pt) + ForfaitSocial(pt)
  }

  /** The gross a pass estimates from its pool: base, bonus and complement,
      plus the paid-leave allowance on them. */
  function BrutEstime(ctx: Contexte, pool: real): real
  {
    (ctx.baseSalary + ctx.primeApport + ComplementDe(ctx, pool)) * (1.0 + ctx.rateCp)
  }

  /** The estimated gross with the reserve paid out as gross on top. */
  function BrutAvecReserve(ctx: Contexte, brut: real): real
  {
    brut + ctx.reserveBrute * (1.0 + ctx.rateCp)
  }

  /** The charges a pass attributes to the pool `pool`: those on the estimated
      gross, plus the marginal charges on the reserve once it is paid out as
      gross. */
  function ChargesPasse(ctx: Contexte, pool: real): real
    requires pool != 0.0
  {
    var socle := ctx.baseSalary + ctx.primeApport + ComplementDe(ctx, pool);
    var brut := BrutEstime(ctx, pool);
    Charges(ctx, pool, brut - socle, ChargesTable(ctx, brut), ChargesTable(ctx, BrutAvecReserve(ctx, brut)))
  }

  /** The charges of a pass from the paid-leave allowance `icp` and the table
      charges `t1` on the estimated gross and `t2` on the gross with the
      reserve: employer charges on the gross, plus the difference the reserve
      makes, its paid-leave allowance and its share of the employer's health
      cover. */
  function Charges(ctx: Contexte, pool: real, icp: real, t1: real, t2: real): real
    requires pool != 0.0
  {
    (t1 + ctx.mutuellePartPat + ctx.trPartPat + icp)
    + (t2 - t1 + ctx.reserveBrute * ctx.rateCp + ctx.mutuellePartPat * (ctx.reserveBrute / pool))
  }

  /** The rate one pass computes from `taux`: the charges over the pool, or 0
      when the pool is not positive. `None` is the division by 1 + taux = 0.
      This is the corrected pass: the charges are only computed for a
      positive pool, where the source computes them first and raises on a
      pool of exactly zero (`Constats.ProchainTauxTelQuel`). The whole engine
      uses this pass, so at a zero salary budget it gives the rate 0 where
      the source raises. */
  function ProchainTaux(ctx: Contexte, taux: real): Option<real>
  {
    if 1.0 + taux == 0.0 then None
    else
      var pool := ctx.budgetSalaire / (1.0 + taux);
      if pool > 0.0 then Some(ChargesPasse(ctx, pool) / pool) else Some(0.0)
  }

  /** ProchainTaux from the pool and the charges of a pass. */
  lemma ProchainTauxDe(ctx: Contexte, taux: real, pool: real, charges: real)
    requires 1.0 + taux != 0.0 && pool == ctx.budgetSalaire / (1.0 + taux) && pool > 0.0
    requires charges == ChargesPasse(ctx, pool)
    ensures ProchainTaux(ctx, taux) == Some(charges / pool)
  {}

  /** At most `passes` passes of `pas` from `taux`, stopping as soon as two
      successive rates are within the tolerance; the result is the last rate
      computed, `None` when a pass fails. */
  function Iteration(pas: real -> Option<real>, taux: real, passes: nat): Option<real>
    decreases passes
  {
    if passes == 0 then Some(taux)
    else match pas(taux)
      case None => None
      case Some(tn) => if Abs(tn - taux) < Tolerance then Some(tn) else Iteration(pas, tn, passes - 1)
  }

  /** The pass of the search for the context `ctx`. */
  function PasDe(ctx: Contexte): real -> Option<real>
  {
    t => ProchainTaux(ctx, t)
  }

  /** The search of the charge rate: the iteration of `ProchainTaux`. */
  function Iterer(ctx: Contexte, taux: real, passes: nat): Option<real>
  {
    Iteration(PasDe(ctx), taux, passes)
  }

  /** The rate the engine uses: the configured override when it is positive,
      otherwise the result of the search. */
  function TauxResolu(ctx: Contexte, override: real): Option<real>
  {
    if override > 0.0 then Some(override) else Iterer(ctx, TauxInitial, PassesMax)
  }

  /** `k` passes of `pas` from `taux` without the early exit; `None` once a
      pass fails. */
  function Suite(pas: real -> Option<real>, taux: real, k: nat): Option<real>
    decreases k
  {
    if k == 0 then Some(taux)
    else match pas(taux)
      case None => None
      case Some(tn) => Suite(pas, tn, k - 1)
  }

  /** How many passes the iteration makes from `taux` with at most `passes` allowed. */
  function Passes(pas: real -> Option<real>, taux: real, passes: nat): (r: nat)
    ensures r <= passes
    ensures passes > 0 ==> r > 0
    decreases passes
  {
    if passes == 0 then 0
    else match pas(taux)
      case None => 1
      case Some(tn) => if Abs(tn - taux) < Tolerance then 1 else 1 + Passes(pas, tn, passes - 1)
  }

  /** The iteration returns the rate of its last pass. */
  lemma {:induction false} IterationSuite(pas: real -> Option<real>, taux: real, passes: nat)
    ensures Iteration(pas, taux, passes) == Suite(pas, taux, Passes(pas, taux, passes))
    decreases passes
  {
    if passes > 0 {
      match pas(taux)
      case None =>
      case Some(tn) =>
        if Abs(tn - taux) >= Tolerance {
          IterationSuite(pas, tn, passes - 1);
        }
    }
  }

  /** No pass before the last one is within the tolerance of its predecessor. */
  lemma {:induction false} SansConvergenceAvant(pas: real -> Option<real>, taux: real, passes: nat, k: nat)
    requires 0 < k < Passes(pas, taux, passes)
    ensures Suite(pas, taux, k - 1).Some? && Suite(pas, taux, k).Some?
    ensures Abs(Suite(pas, taux, k).value - Suite(pas, taux, k - 1).value) >= Tolerance
    decreases passes
  {
    var tn := pas(taux).value;
    if k > 1 {
      SansConvergenceAvant(pas, tn, passes - 1, k - 1);
    }
  }

  /** When the iteration stops before its last allowed pass, its last pass
      either failed or came within the tolerance of the rate before it. */
  lemma {:induction false} ArretAnticipe(pas: real -> Option<real>, taux: real, passes: nat)
    requires Passes(pas, taux, passes) < passes
    ensures Suite(pas, taux, Passes(pas, taux, passes) - 1).Some?
    ensures Suite(pas, taux, Passes(pas, taux, passes)).None?
            || Abs(Suite(pas, taux, Passes(pas, taux, passes)).value
                   - Suite(pas, taux, Passes(pas, taux, passes) - 1).value) < Tolerance
    decreases passes
  {
    match pas(taux)
    case None =>
    case Some(tn) =>
      if Abs(tn - taux) >= Tolerance {
        ArretAnticipe(pas, tn, passes - 1);
      }
  }

  /** The rate used: the override when it is positive; otherwise the rate of
      the last of at most 50 passes from 0.55. */
  lemma TauxResoluDe(ctx: Contexte, override: real)
    ensures override > 0.0 ==> TauxResolu(ctx, override) == Some(override)
    ensures override <= 0.0 ==>
              TauxResolu(ctx, override) == Suite(PasDe(ctx), TauxInitial, Passes(PasDe(ctx), TauxInitial, PassesMax))
              && 0 < Passes(PasDe(ctx), TauxInitial, PassesMax) <= PassesMax
  {
    IterationSuite(PasDe(ctx), TauxInitial, PassesMax);
  }

  /** The contribution table on the gross `brut`, with the welfare
      contributions that enter its CSG base, and the flat levy on them. */
  method ChargesSurBrut(ctx: Contexte, brut: real) returns (totalPat: real, forfait: real)
    ensures totalPat == TotalPat(brut, ctx.pmss, ctx.atmpRate, ctx.fnalRate, PrevPat(brut, ctx.pmss, ctx.mutuellePartPat))
    ensures forfait == ForfaitSocial(PrevPat(brut, ctx.pmss, ctx.mutuellePartPat))
    ensures totalPat + forfait == ChargesTable(ctx, brut)
  {
    var pt := PrevPat(brut, ctx.pmss, ctx.mutuellePartPat);
    var c := CalculerCotisations(brut, ctx.pmss, ctx.atmpRate, ctx.fnalRate, pt);
    totalPat := c.totalPat;
    forfait := ForfaitSocial(pt);
  }

  /** One pass of the loop, with its two evaluations of the contribution
      table; the corrected pass `ProchainTaux` at a zero pool. */
  method Passe(ctx: Contexte, taux: real) returns (tn: Option<real>)
    ensures tn == ProchainTaux(ctx, taux)
  {
    if 1.0 + taux == 0.0 {
      return None;
    }
    var pool := ctx.budgetSalaire / (1.0 + taux);
    if pool <= 0.0 {
      return Some(0.0);
    }
    var charges := ChargesDuPool(ctx, pool);
    ProchainTauxDe(ctx, taux, pool, charges);
    tn := Some(charges / pool);
  }

  /** The charges of one pass on the pool `pool`: the table on the estimated
      gross, then again with the reserve paid out as gross. */
  method ChargesDuPool(ctx: Contexte, pool: real) returns (charges: real)
    requires pool != 0.0
    ensures charges == ChargesPasse(ctx, pool)
  {
    var ctEst := Max(0.0, pool - ctx.baseSalary - ctx.primeApport - ctx.reserveBrute);
    assert ctEst == ComplementDe(ctx, pool);
    var socle := ctx.baseSalary + ctx.primeApport + ctEst;
    var brutEst := socle * (1.0 + ctx.rateCp);
    assert brutEst == BrutEstime(ctx, pool);
    var totalPat, fs := ChargesSurBrut(ctx, brutEst);
    var icp := brutEst - socle;
    var reserveBrut := ctx.reserveBrute * (1.0 + ctx.rateCp);
    var brutAvecReserve := brutEst + reserveBrut;
    assert brutAvecReserve == BrutAvecReserve(ctx, brutEst);
    var totalPat2, fs2 := ChargesSurBrut(ctx, brutAvecReserve);
    charges := Charges(ctx, pool, icp, totalPat + fs, totalPat2 + fs2);
  }

  /** The search loop: the override when positive, otherwise up to 50 passes
      from 0.55 with an early exit at the tolerance. */
  method ResoudreTaux(ctx: Contexte, override: real) returns (taux: Option<real>)
    ensures taux == TauxResolu(ctx, override)
  {
    if override > 0.0 {
      return Some(override);
    }
    var t := TauxInitial;
    var i := 0;
    while i < PassesMax
      invariant 0 <= i <= PassesMax
      invariant Iterer(ctx, t, PassesMax - i) == Iterer(ctx, TauxInitial, PassesMax)
      decreases PassesMax - i
    {
      var tn := Passe(ctx, t);
      if tn.None? {
        return None;
      }
      if Abs(tn.value - t) < Tolerance {
        return Some(tn.value);
      }
      t := tn.value;
      i := i + 1;
    }
    return Some(t);
  }

  // ---------------------------------------------------------------------
  // The payslip rebuilt from the rate.

  /** The payslip, with the source's result keys. */
  datatype Fiche = Fiche(
    turnover: real,
    managementFees: real,
    fraisIntermediation: real,
    montantDisponible: real,
    ikAmount: real,
    igdAmount: real,
    forfaitTeletravail: real,
    joursTeletravail: int,
    otherExpenses: real,
    totalFraisRembourses: real,
    baseSalary: real,
    primeApport: real,
    complementRemuneration: real,
    complementApportAffaires: real,
    indemniteCp: real,
    grossSalary: real,
    reserveAmount: real,
    employerCharges: real,
    employerChargesAvantRgdu: real,
    cotisTotalPat: real,
    cotisTotalSal: real,
    cotisDetails: seq<Ligne>,
    forfaitSocial: real,
    prevPatTotal: real,
    trancheA: real,
    trancheB: real,
    baseCsg: real,
    reductionRgdu: real,
    employeeCharges: real,
    mutuellePartPat: real,
    mutuellePartSal: real,
    trPartSal: real,
    trPartPat: real,
    nbTitresRestaurant: int,
    coutGlobalSansReserve: real,
    netBeforeTax: real,
    netPayable: real,
    effectifSup50: bool,
    tauxCharges: real,
    poolSilae: real,
    provisionReserveFinanciere: real,
    budgetSalaire: real)

  /** A payslip, or the division by zero the source would raise. */
  datatype Issue = Calcule(fiche: Fiche) | DivisionParZero

  /** The payslip once the pool, the complement, the paid-leave allowance,
      the gross, the welfare contributions and the RGDU reduction are known. */
  function FicheDe(cfg: Config, sim: Simulation, p: Preparation, taux: real,
                   pool: real, ct: real, icp: real, gross: real, prev: real, cotis: Resultat, reduction: real): Fiche
    requires 1.0 + cfg.tauxPrime / 100.0 != 0.0
  {
    var rem := ct / (1.0 + cfg.tauxPrime / 100.0);
    var fs := ForfaitSocial(prev);
    var avant := cotis.totalPat + p.mutuelle.partPat + p.trPartPat + fs;
    var employer := avant - reduction;
    var employee := cotis.totalSal + p.mutuelle.partSal + p.trPartSal;
    Fiche(
      p.turnover, p.managementFees, p.fraisIntermediation, p.montantDisponible,
      sim.ikAmount, sim.igdAmount, p.forfaitTeletravail, p.joursTeletravail, sim.otherExpenses,
      p.totalFraisRembourses, p.baseSalary, p.primeApport,
      rem, ct - rem, icp, gross,
      if sim.useReserve then p.reserveBrute else 0.0,
      employer, avant,
      cotis.totalPat, cotis.totalSal, cotis.details, fs, prev,
      cotis.trancheA, cotis.trancheB, cotis.baseCsg, reduction, employee,
      p.mutuelle.partPat, p.mutuelle.partSal, p.trPartSal, p.trPartPat, sim.nbTitresRestaurant,
      gross + employer + p.totalFraisRembourses,
      gross - employee, gross - employee + p.totalFraisRembourses,
      sim.effectifSup50, taux, pool,
      Max(0.0, p.budgetSalaire - gross - employer),
      p.budgetSalaire)
  }

  /** The paid-leave allowance on base, bonus and complement. */
  function IndemniteCp(p: Preparation, ct: real): real
  {
    (p.baseSalary + p.primeApport + ct) * p.ctx.rateCp
  }

  /** The gross: base, bonus, complement and paid-leave allowance. */
  function Brut(p: Preparation, ct: real): real
  {
    p.baseSalary + p.primeApport + ct + IndemniteCp(p, ct)
  }

  /** The RGDU reduction on the gross, 0 when it is not applied. */
  function ReductionDe(cfg: Config, sim: Simulation, gross: real, pow175: real -> real): Option<real>
  {
    if sim.useRgdu then CalculerRgdu(gross, cfg.smicMensuel, sim.effectifSup50, pow175) else Some(0.0)
  }

  /** The payslip once the gross is known: `DivisionParZero` when the RGDU
      divides by a zero gross. */
  function Etabli(cfg: Config, sim: Simulation, p: Preparation, taux: real,
                  pool: real, ct: real, icp: real, gross: real, pow175: real -> real): Issue
    requires 1.0 + cfg.tauxPrime / 100.0 != 0.0
  {
    match ReductionDe(cfg, sim, gross, pow175)
    case None => DivisionParZero
    case Some(reduction) =>
      var prev := PrevPat(gross, cfg.pmss, p.mutuelle.partPat);
      var cotis := Cotiser(gross, cfg.pmss, p.ctx.atmpRate, p.ctx.fnalRate, prev);
      Calcule(FicheDe(cfg, sim, p, taux, pool, ct, icp, gross, prev, cotis, reduction))
  }

  /** The payslip for the rate `taux`. */
  function Finaliser(cfg: Config, sim: Simulation, p: Preparation, taux: real, pow175: real -> real): Issue
  {
    if 1.0 + taux == 0.0 || 1.0 + cfg.tauxPrime / 100.0 == 0.0 then DivisionParZero
    else
      var pool := p.budgetSalaire / (1.0 + taux);
      var ct := ComplementDe(p.ctx, pool);
      Etabli(cfg, sim, p, taux, pool, ct, IndemniteCp(p, ct), Brut(p, ct), pow175)
  }

  /** What calculate_salary returns for `cfg` and `sim`. */
  function Bulletin(cfg: Config, sim: Simulation, pow175: real -> real): Issue
  {
    BulletinDepuis(cfg, sim, Preparer(cfg, sim), pow175)
  }

  /** The search and the payslip once the preparation `p` is done. */
  function BulletinDepuis(cfg: Config, sim: Simulation, p: Preparation, pow175: real -> real): Issue
  {
    match TauxResolu(p.ctx, cfg.tauxChargesOverride / 100.0)
    case None => DivisionParZero
    case Some(taux) => Finaliser(cfg, sim, p, taux, pow175)
  }

  /** calculate_salary: the preliminaries, the search for the rate, then the
      reconstruction of the payslip. */
  method CalculateSalary(cfg: Config, sim: Simulation, pow175: real -> real) returns (out: Issue)
    ensures out == Bulletin(cfg, sim, pow175)
  {
    var p := Preparer(cfg, sim);
    var solved := ResoudreTaux(p.ctx, cfg.tauxChargesOverride / 100.0);
    if solved.None? {
      return DivisionParZero;
    }
    out := Reconstruire(cfg, sim, p, solved.value, pow175);
  }

  /** The payslip from the rate: pool, complement and gross, then the rest. */
  method Reconstruire(cfg: Config, sim: Simulation, p: Preparation, tauxCharges: real, pow175: real -> real)
    returns (out: Issue)
    ensures out == Finaliser(cfg, sim, p, tauxCharges, pow175)
  {
    var ratePrime := cfg.tauxPrime / 100.0;
    if 1.0 + tauxCharges == 0.0 || 1.0 + ratePrime == 0.0 {
      return DivisionParZero;
    }

    var pool := p.budgetSalaire / (1.0 + tauxCharges);
    var complementTotal := Max(0.0, pool - p.ctx.baseSalary - p.ctx.primeApport - p.ctx.reserveBrute);
    var indemniteCp := (p.baseSalary + p.primeApport + complementTotal) * p.ctx.rateCp;
    var grossSalary := p.baseSalary + p.primeApport + complementTotal + indemniteCp;
    assert complementTotal == ComplementDe(p.ctx, pool);
    assert indemniteCp == IndemniteCp(p, complementTotal) && grossSalary == Brut(p, complementTotal);
    out := Etablir(cfg, sim, p, tauxCharges, pool, complementTotal, indemniteCp, grossSalary, pow175);
  }

  /** The payslip from the gross: the contributions on it, RGDU, employer and
      employee charges, provision, cost and net pay. */
  method Etablir(cfg: Config, sim: Simulation, p: Preparation, tauxCharges: real,
                 pool: real, complementTotal: real, indemniteCp: real, grossSalary: real, pow175: real -> real)
    returns (out: Issue)
    requires 1.0 + cfg.tauxPrime / 100.0 != 0.0
    ensures out == Etabli(cfg, sim, p, tauxCharges, pool, complementTotal, indemniteCp, grossSalary, pow175)
  {
    var prevPatTotal := PrevPat(grossSalary, cfg.pmss, p.mutuelle.partPat);
    var cotis := CalculerCotisations(grossSalary, cfg.pmss, p.ctx.atmpRate, p.ctx.fnalRate, prevPatTotal);
    var r := ReductionDe(cfg, sim, grossSalary, pow175);
    if r.None? {
      EtabliSansRgdu(cfg, sim, p, tauxCharges, pool, complementTotal, indemniteCp, grossSalary, pow175);
      return DivisionParZero;
    }
    var fiche := FicheDe(cfg, sim, p, tauxCharges, pool, complementTotal, indemniteCp, grossSalary,
                         prevPatTotal, cotis, r.value);
    out := Calcule(fiche);
    EtabliDe(cfg, sim, p, tauxCharges, pool, complementTotal, indemniteCp, grossSalary, pow175,
             prevPatTotal, cotis, r.value);
  }

  /** Etabli from the welfare contributions, the table result and the reduction. */
  lemma EtabliDe(cfg: Config, sim: Simulation, p: Preparation, taux: real,
                 pool: real, ct: real, icp: real, gross: real, pow175: real -> real,
                 prev: real, cotis: Resultat, reduction: real)
    requires 1.0 + cfg.tauxPrime / 100.0 != 0.0
    requires prev == PrevPat(gross, cfg.pmss, p.mutuelle.partPat)
    requires cotis == Cotiser(gross, cfg.pmss, p.ctx.atmpRate, p.ctx.fnalRate, prev)
    requires ReductionDe(cfg, sim, gross, pow175) == Some(reduction)
    ensures Etabli(cfg, sim, p, taux, pool, ct, icp, gross, pow175)
            == Calcule(FicheDe(cfg, sim, p, taux, pool, ct, icp, gross, prev, cotis, reduction))
  {}

  /** Etabli fails when the reduction divides by zero. */
  lemma EtabliSansRgdu(cfg: Config, sim: Simulation, p: Preparation, taux: real,
                       pool: real, ct: real, icp: real, gross: real, pow175: real -> real)
    requires 1.0 + cfg.tauxPrime / 100.0 != 0.0
    requires ReductionDe(cfg, sim, gross, pow175).None?
    ensures Etabli(cfg, sim, p, taux, pool, ct, icp, gross, pow175) == DivisionParZero
  {}
}
