/** The 2026 rate tables of the payroll engine: one rule per contribution
    line, listed in the order in which the payslip shows them, and the
    constants of the degressive reduction, the housing fund, telework and
    meal vouchers. */
module Bareme {

  /** Which amount a contribution is assessed on. */
  datatype Assiette =
    | Totalite   // the whole gross salary
    | TrancheA   // the part of the gross salary up to the social-security ceiling
    | TrancheB   // the part above the ceiling
    | Csg        // 98.25% of the gross plus the employer's welfare contributions

  /** The keys of the contribution table. */
  datatype Key =
    | Maladie | MaladieCompl | Csa | VieillesseDep | Af | AfCompl | Atmp
    | Chomage | Ags | Formation | TaxeAppr | TaxeApprLib | DialogueSoc
    | VieillessePl | Fnal | RetraiteT1 | CegT1 | CetT1 | ApecT1 | PrevoyanceDeces
    | RetraiteT2 | CegT2 | CetT2 | ApecT2 | PrevoyanceSupp
    | CsgDeductible | CsgCrds

  /** One entry of the table: employer rate, employee rate, assessment base. */
  datatype Cotisation = Cotisation(pat: real, sal: real, base: Assiette)

  /** The contribution table, key by key. */
  function Cotisations2026(k: Key): Cotisation
  {
    match k
    case Maladie         => Cotisation(0.0700,  0.0,     Totalite)
    case MaladieCompl    => Cotisation(0.0600,  0.0,     Totalite)
    case Csa             => Cotisation(0.0030,  0.0,     Totalite)
    case VieillesseDep   => Cotisation(0.0211,  0.0040,  Totalite)
    case Af              => Cotisation(0.0345,  0.0,     Totalite)
    case AfCompl         => Cotisation(0.0180,  0.0,     Totalite)
    case Atmp            => Cotisation(0.0064,  0.0,     Totalite)
    case Chomage         => Cotisation(0.0400,  0.0,     Totalite)
    case Ags             => Cotisation(0.0025,  0.0,     Totalite)
    case Formation       => Cotisation(0.0100,  0.0,     Totalite)
    case TaxeAppr        => Cotisation(0.0059,  0.0,     Totalite)
    case TaxeApprLib     => Cotisation(0.0009,  0.0,     Totalite)
    case DialogueSoc     => Cotisation(0.0001,  0.0,     Totalite)
    case VieillessePl    => Cotisation(0.0855,  0.0690,  TrancheA)
    case Fnal            => Cotisation(0.0010,  0.0,     TrancheA)
    case RetraiteT1      => Cotisation(0.0472,  0.0315,  TrancheA)
    case CegT1           => Cotisation(0.0129,  0.0086,  TrancheA)
    case CetT1           => Cotisation(0.0021,  0.0014,  TrancheA)
    case ApecT1          => Cotisation(0.00036, 0.00024, TrancheA)
    case PrevoyanceDeces => Cotisation(0.0159,  0.0,     TrancheA)
    case RetraiteT2      => Cotisation(0.1295,  0.0864,  TrancheB)
    case CegT2           => Cotisation(0.0162,  0.0108,  TrancheB)
    case CetT2           => Cotisation(0.0021,  0.0014,  TrancheB)
    case ApecT2          => Cotisation(0.00036, 0.00024, TrancheB)
    case PrevoyanceSupp  => Cotisation(0.0073,  0.0073,  TrancheB)
    case CsgDeductible   => Cotisation(0.0,     0.0680,  Csg)
    case CsgCrds         => Cotisation(0.0,     0.0290,  Csg)
  }

  // The table in its four groups, in the order they are declared.
  const SurTotalite: seq<Key> := [
    Maladie, MaladieCompl, Csa, VieillesseDep, Af, AfCompl, Atmp,
    Chomage, Ags, Formation, TaxeAppr, TaxeApprLib, DialogueSoc]
  const SurTrancheA: seq<Key> := [
    VieillessePl, Fnal, RetraiteT1, CegT1, CetT1, ApecT1, PrevoyanceDeces]
  const SurTrancheB: seq<Key> := [
    RetraiteT2, CegT2, CetT2, ApecT2, PrevoyanceSupp]
  const SurCsg: seq<Key> := [
    CsgDeductible, CsgCrds]

  /** The order in which the table is walked (the insertion order of the source's dictionary). */
  const Ordre: seq<Key> := SurTotalite + SurTrancheA + SurTrancheB + SurCsg

  /** The keys of the lines assessed above the ceiling. */
  predicate IsTrancheBKey(k: Key)
  {
    k == RetraiteT2 || k == CegT2 || k == CetT2 || k == ApecT2 || k == PrevoyanceSupp
  }

  // Degressive reduction (RGDU) parameters.
  const RgduTmin: real := 0.02
  const RgduTdeltaFnal50: real := 0.3821
  const RgduTdeltaFnal10: real := 0.3781
  const RgduSeuilSmic: real := 3.0

  // Housing fund (FNAL) employer rate by workforce size.
  const FnalTauxSup50: real := 0.0050
  const FnalTauxInf50: real := 0.0010

  // Telework allowance: per day, at most 22 days.
  const TeletravailTauxJour: real := 2.70
  const TeletravailMaxJours: int := 22

  // Meal vouchers: the employer's maximal share.
  const TrPartPatronaleMax: real := 7.18

  // Death-and-disability employer rates used for the CSG base, the flat levy
  // (forfait social) on welfare contributions, and the CSG abatement.
  const PrevoyanceDecesTaux: real := 0.0159
  const PrevoyanceSuppTaux: real := 0.0073
  const ForfaitSocialTaux: real := 0.08
  const CsgAbattement: real := 0.9825

  /** Every rate of the table is non-negative, the five tranche-B keys are
      exactly the entries assessed above the ceiling, and the death-and-disability
      rates repeated in the CSG base are those of the table. */
  lemma TableFacts(k: Key)
    ensures Cotisations2026(k).pat >= 0.0 && Cotisations2026(k).sal >= 0.0
    ensures Cotisations2026(k).base == TrancheB <==> IsTrancheBKey(k)
    ensures Cotisations2026(PrevoyanceDeces).pat == PrevoyanceDecesTaux
    ensures Cotisations2026(PrevoyanceSupp).pat == PrevoyanceSuppTaux
  {}

  /** The walk visits 27 keys, each once. */
  lemma OrdreFacts()
    ensures |Ordre| == 27
    ensures forall i, j | 0 <= i < j < |Ordre| :: Ordre[i] != Ordre[j]
  {}
}
