/** The reimbursed travel expenses the sidebar computes before calling the
    engine: the kilometric allowance (IK) from the 2026 scales for cars and
    motorcycles, and the long-distance travel allowance (IGD) from its meal
    and night rates. */
module Frais {
  import opened Wrappers

  datatype Vehicule = Voiture | Moto

  /** The annual-distance band: the first, middle or last column of the scale
      (up to 5 000 km, 5 001 to 20 000 km, beyond 20 000 km for a car; up to
      3 000 km, 3 001 to 6 000 km, beyond 6 000 km for a motorcycle). */
  datatype TrancheKm = Premiere | Intermediaire | Derniere

  /** The rate per km for `cv` fiscal horsepower; `None` when the scale has
      no row for it (cars: 3 to 7, motorcycles: 1 to 5). */
  function TauxIk(v: Vehicule, cv: int, t: TrancheKm): (r: Option<real>)
    ensures r.Some? <==> (v == Voiture && 3 <= cv <= 7) || (v == Moto && 1 <= cv <= 5)
    ensures r.Some? ==> 0.0 < r.value < 1.0
  {
    match v
    case Voiture =>
      if cv == 3 then Some(Colonne(t, 0.529, 0.316, 0.370))
      else if cv == 4 then Some(Colonne(t, 0.606, 0.340, 0.407))
      else if cv == 5 then Some(Colonne(t, 0.636, 0.357, 0.427))
      else if cv == 6 then Some(Colonne(t, 0.665, 0.374, 0.447))
      else if cv == 7 then Some(Colonne(t, 0.697, 0.394, 0.470))
      else None
    case Moto =>
      if cv == 1 then Some(Colonne(t, 0.395, 0.099, 0.248))
      else if cv == 2 then Some(Colonne(t, 0.468, 0.082, 0.275))
      else if cv == 3 then Some(Colonne(t, 0.606, 0.071, 0.308))
      else if cv == 4 then Some(Colonne(t, 0.695, 0.044, 0.352))
      else if cv == 5 then Some(Colonne(t, 0.792, 0.078, 0.455))
      else None
  }

  function Colonne(t: TrancheKm, premiere: real, intermediaire: real, derniere: real): real
  {
    match t
    case Premiere => premiere
    case Intermediaire => intermediaire
    case Derniere => derniere
  }

  /** The monthly IK: the kilometres times the rate of the scale. */
  function IkTotal(v: Vehicule, cv: int, t: TrancheKm, km: real): Option<real>
  {
    match TauxIk(v, cv, t)
    case None => None
    case Some(taux) => Some(km * taux)
  }

  // The IGD rates: one meal, one night in the provinces, one night in Paris.
  const IgdRepas: real := 21.60
  const IgdNuiteeProvince: real := 57.80
  const IgdNuiteeParis: real := 76.70

  function TauxNuitee(paris: bool): real
  {
    if paris then IgdNuiteeParis else IgdNuiteeProvince
  }

  /** The monthly IGD: the meals and the nights at their rates. */
  function IgdTotal(repas: int, nuitees: int, paris: bool): real
  {
    repas as real * IgdRepas + nuitees as real * TauxNuitee(paris)
  }

  /** Within one band and for the same horsepower, the allowance grows with
      the kilometres and is never negative. */
  lemma IkCroissant(v: Vehicule, cv: int, t: TrancheKm, km1: real, km2: real)
    requires 0.0 <= km1 <= km2
    requires TauxIk(v, cv, t).Some?
    ensures 0.0 <= IkTotal(v, cv, t, km1).value <= IkTotal(v, cv, t, km2).value
  {
    var taux := TauxIk(v, cv, t).value;
    assert km2 * taux - km1 * taux == (km2 - km1) * taux;
  }

  /** With non-negative counts the IGD is not negative, and a night in Paris
      costs the difference of the two night rates more. */
  lemma IgdParis(repas: int, nuitees: int)
    requires repas >= 0 && nuitees >= 0
    ensures 0.0 <= IgdTotal(repas, nuitees, false) <= IgdTotal(repas, nuitees, true)
    ensures IgdTotal(repas, nuitees, true) - IgdTotal(repas, nuitees, false)
            == nuitees as real * (IgdNuiteeParis - IgdNuiteeProvince)
  {
    assert nuitees as real * IgdNuiteeParis - nuitees as real * IgdNuiteeProvince
        == nuitees as real * (IgdNuiteeParis - IgdNuiteeProvince);
  }
}
