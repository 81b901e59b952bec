/** One pass of the search as the source writes it. The charges of the
    reserve divide the employer's health-cover share by the pool before the
    guard that sends a non-positive pool to the rate 0 is reached, so a pool
    of exactly zero (a zero salary budget, for instance a zero daily rate
    with no expenses) raises a division by zero instead of giving 0. The
    rest of the model uses the guarded pass `Solver.ProchainTaux`, so there
    the engine gives the rate 0 and a payslip where the source raises. */
module Constats {
  import opened Wrappers
  import opened Solver

  /** The pass as written: `None` is a division by zero, by 1 + taux or by
      a zero pool. */
  function ProchainTauxTelQuel(ctx: Contexte, taux: real): Option<real>
  {
    if 1.0 + taux == 0.0 then None
    else
      var pool := ctx.budgetSalaire / (1.0 + taux);
      if pool == 0.0 then None
      else if pool > 0.0 then Some(ChargesPasse(ctx, pool) / pool)
      else Some(0.0)
  }

  /** Both passes agree on every pool but zero. */
  lemma TelQuelHorsPoolNul(ctx: Contexte, taux: real)
    requires 1.0 + taux != 0.0 && ctx.budgetSalaire / (1.0 + taux) != 0.0
    ensures ProchainTauxTelQuel(ctx, taux) == ProchainTaux(ctx, taux)
  {}

  /** A zero salary budget: the pass as written fails on any rate but -1,
      where the guarded pass gives the rate 0 the source's guard intends. */
  lemma BudgetNul(ctx: Contexte, taux: real)
    requires ctx.budgetSalaire == 0.0 && 1.0 + taux != 0.0
    ensures ProchainTauxTelQuel(ctx, taux) == None
    ensures ProchainTaux(ctx, taux) == Some(0.0)
  {
    QuotientNul(ctx.budgetSalaire, 1.0 + taux);
  }

  lemma QuotientNul(x: real, y: real)
    requires x == 0.0 && y != 0.0
    ensures x / y == 0.0
  {}

  /** A simulation with a zero daily rate and no expenses has a zero budget,
      so without an override its first pass, from 0.55, fails as written. */
  lemma TjmNul(cfg: Config)
    ensures var sim := Simulation(0.0, 20.0, 5.0, 0.0, 0.0, 0.0, false, false, 0, 0.0, 0, false, false);
            && Preparer(cfg, sim).ctx.budgetSalaire == 0.0
            && ProchainTauxTelQuel(Preparer(cfg, sim).ctx, TauxInitial) == None
            && ProchainTaux(Preparer(cfg, sim).ctx, TauxInitial) == Some(0.0)
  {
    var sim := Simulation(0.0, 20.0, 5.0, 0.0, 0.0, 0.0, false, false, 0, 0.0, 0, false, false);
    assert Preparer(cfg, sim).ctx.budgetSalaire == 0.0;
    BudgetNul(Preparer(cfg, sim).ctx, TauxInitial);
  }
}
