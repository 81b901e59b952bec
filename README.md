# Portage salarial 2026 payroll engine, in Dafny

This project models the payroll engine of a French *portage salarial*
simulator, and proves properties of that model. The simulator's input is a
consultant's daily rate (TJM), the days worked and the reimbursed expenses.
From these it derives a monthly payslip under the 2026 rules.

The model covers five parts of the engine:

- **The contribution table** (`Bareme`). These are the 27 contributions of 2026. Each has:
  - an employer rate;
  - an employee rate;
  - the base it is assessed on: the whole gross, tranche A (up to the monthly social-security ceiling, PMSS), tranche B (above it), or the CSG base.

  The module also holds the order of the table and the constants of the degressive reduction (RGDU), the housing fund (FNAL), telework and meal vouchers.
- **The line-by-line evaluator** (`Cotisations`), for `calculer_cotisations`. It:
  - splits the gross into the two tranches;
  - walks the table in order, leaving out the tranche-B lines when there is no tranche B;
  - substitutes the configured AT/MP rate and the FNAL rate;
  - rounds each employer and employee amount to the cent on its own;
  - totals those rounded amounts.
- **The RGDU reduction** (`Rgdu`), for `calculer_rgdu`. It returns 0 at or above three minimum wages. Below that, the coefficient `0.02 + Tdelta × (ratio/2)^1.75` is capped at `0.02 + Tdelta`, rounded to four decimals and applied to the gross.
- **The salary engine** (`Solver`), for `calculate_salary`, in three steps:
  1. From the turnover, the fees and the expenses it works out the salary budget.
  2. It finds the aggregate employer-charge rate by at most 50 fixed-point passes from 0.55, unless a positive override is configured.
  3. It rebuilds the payslip from that rate: the pool, the complement, the paid-leave allowance, the gross, the contributions, the RGDU reduction, the charges, the net pay and the reserve provision.
- **The travel allowances** (`Frais`). These are the kilometric-allowance (IK) scales for cars and motorcycles, and the long-distance allowance (IGD). The sidebar computes them before calling the engine.

`Proprietes` proves what the engine promises as a whole:

- on admissible inputs the search, with the corrected pass of the Findings row, never fails and never yields a negative rate;
- the gross is rebuilt from the rate, is never negative on admissible inputs, and with a fixed positive override does not decrease as the TJM rises;
- the payslip's identities: charges, net pay, cost, and a provision that is never negative;
- re-running with the rate found, as the override, gives the same payslip.

`Constats` holds the one discrepancy found in the source (see Findings).

Design choices:

- **Money** is an exact `real`. Rounding to 2 or 4 decimals is written out as half-up rounding (`Money.RoundCents`, `Money.Round4`), and the lemmas about it give the bound of half a unit.
- **Python's `** 1.75`** is a function parameter `pow175`. The lemmas that need it non-negative or increasing say so in their `requires`.
- **Configuration.** The UI's session state, which the engine reads, is the record `Solver.Config`, with every rate in percent as entered.
- **Errors.** The Python division by zero becomes the value `DivisionParZero` (or `None`), never a precondition.
- **Imperative code.** The two loops of the source are methods with loop invariants, each proved equal to a specification function:
  - the walk over the table in `calculer_cotisations` (`Cotisations.Parcourir`);
  - the search in `calculate_salary` (`Solver.ResoudreTaux`).

  `Solver.CalculateSalary` is the method for `calculate_salary`. The properties are lemmas about those functions.

The source guards neither of these two divisions:

- the RGDU ratio (app.py:162) divides by the annual gross, so a zero gross with a positive minimum wage gives `DivisionParZero`;
- the charges of a pass divide by the pool (app.py:328) before the guard of app.py:329. This is the finding below; the engine of this model uses the corrected pass, which gives the rate 0 for a zero pool, where the source raises.

The override is used only when it is positive (app.py:300). A negative one runs the search.

## Model

| member | source | states |
|---|---|---|
| Bareme.TableFacts | app.py:49-84 | every rate of the table is non-negative; exactly the five entries retraite_t2, ceg_t2, cet_t2, apec_t2 and prevoyance_supp are on tranche B; the death-cover and supplementary-cover rates are 1.59 % and 0.73 % |
| Bareme.OrdreFacts | app.py:49-84 | the table holds 27 entries, each once, in the order the dictionary is written |
| Money.RoundCentsFacts | app.py:220-221 | an amount rounded to 2 decimals is a whole number of cents within half a cent of the amount, and not negative for a non-negative amount |
| Money.Round4Facts | app.py:173 | a coefficient rounded to 4 decimals is a multiple of 0.0001 within half of one of the amount |
| Money.RoundCentsMonotone | app.py:220-221 | rounding to the cent never reverses the order of two amounts |
| Money.Round4Monotone | app.py:173 | rounding to 4 decimals never reverses the order of two amounts |
| Money.RoundCentsOfCents | app.py:227 | a whole number of cents is left unchanged by rounding |
| Money.Round4OfFourDecimals | app.py:173 | a multiple of 0.0001 is left unchanged by rounding to 4 decimals |
| Money.Min | app.py:187 | the minimum is one of the two values and below both |
| Money.Max | app.py:188 | the maximum is one of the two values and above both |
| Money.Abs | app.py:330 | the absolute value is the value or its opposite, never negative |
| Cotisations.AssiettesDe | app.py:187-191 | tranche A and tranche B add up to the gross; tranche A is at most the ceiling; tranche B is never negative, and is zero exactly when the gross is within the ceiling; the CSG base is 98.25 % of the gross plus the employer's welfare contributions |
| Cotisations.TauxPatronal | app.py:213-218 | AT/MP takes the configured rate, FNAL the rate for the company's size, every other entry its table rate |
| Cotisations.SauteSi | app.py:203-206 | a line is left out exactly when it is a tranche-B entry and tranche B is zero |
| Cotisations.LigneDeFacts | app.py:212-230 | each line carries its key, the employer rate applied (with the AT/MP and FNAL overrides) and the table's employee rate; both amounts are whole cents within half a cent of base × rate |
| Cotisations.LigneSelonFacts | app.py:212-230 | the same facts for any table entry |
| Cotisations.MontantFacts | app.py:220-221 | one amount is base × rate rounded to a whole number of cents, within half a cent |
| Cotisations.EcartPat | app.py:220 | the employer amount of a line is within half a cent of its exact value |
| Cotisations.EcartSal | app.py:221 | the employee amount of a line is within half a cent of its exact value |
| Cotisations.CalculerLigne | app.py:198-230 | one pass of the loop: it skips exactly when the entry is on tranche B and tranche B is zero, otherwise it yields the line of that entry with each amount rounded on its own |
| Cotisations.Parcourir | app.py:193-230 | the loop yields exactly the lines of the table's kept entries in order, and its totals are the sums of the lines' rounded amounts |
| Cotisations.CalculerCotisations | app.py:182-239 | calculer_cotisations returns the kept lines in table order, their totals, the two tranches and the CSG base rounded to the cent |
| Cotisations.LignesSuitLaTable | app.py:197-230 | the names of the lines are the kept keys in the order given, and every line is the one its key's entry produces |
| Cotisations.RetenuesMembres | app.py:197-206 | a key is kept exactly when it is in the table and is not a tranche-B entry left out for want of a tranche B |
| Cotisations.RetenuesOrdre | app.py:197-206 | with a tranche B all 27 entries are kept in order; without one, the 22 others are kept in order |
| Cotisations.LignesCalculees | app.py:197-230 | a gross within the ceiling yields the 22 entries that are not on tranche B, in table order; a gross above it yields all 27 |
| Cotisations.TeteSautee | app.py:203-206 | a left-out entry adds no line and nothing to either exact total |
| Cotisations.TetePatGardee | app.py:220-224 | a kept entry adds one line, whose employer amount moves the rounded total at most half a cent away from the exact total |
| Cotisations.TeteSalGardee | app.py:220-224 | the same for the employee amount |
| Cotisations.ArrondiTotalPat | app.py:220-224 | the employer total of rounded lines is within half a cent per line of the exact employer total |
| Cotisations.ArrondiTotalSal | app.py:220-224 | the employee total of rounded lines is within half a cent per line of the exact employee total |
| Cotisations.AssiettesMonotones | app.py:187-191 | a larger gross and larger welfare contributions give bases no smaller, all non-negative |
| Cotisations.MontantMonotone | app.py:220-221 | with a non-negative rate, a rounded amount does not decrease with its base and is never negative |
| Cotisations.SommesMonotones | app.py:220-224 | with non-negative rates, larger bases never lower either total, and both totals are non-negative |
| Cotisations.CotiserTranches | app.py:187-238 | tranche A is min(gross, ceiling) and tranche B is max(0, gross - ceiling); they add up to the gross; tranche B is 0 exactly when the gross is within the ceiling; the CSG base returned is 98.25 % of the gross plus the welfare contributions, rounded to a whole number of cents |
| Cotisations.CotiserLignes | app.py:193-234 | the lines are the 22 non-tranche-B entries in order within the ceiling and all 27 above it; each is the line of its entry; the totals are the sums of the lines' rounded amounts |
| Cotisations.CotiserArrondi | app.py:220-234 | each total is within half a cent per line of the exact total over the table |
| Cotisations.CotiserMonotone | app.py:187-234 | with non-negative rates and ceiling, and for a non-negative gross and welfare contributions, both totals are non-negative and do not decrease when the gross and the welfare contributions rise |
| Rgdu.Tdelta | app.py:159 | Tdelta is 0.3821 for companies of 50 or more and 0.3781 otherwise |
| Rgdu.CalculerRgdu | app.py:146-178 | the reduction divides by zero exactly when the gross is zero and the minimum wage positive; at or above three minimum wages it is 0 |
| Rgdu.CoefficientEncadre | app.py:166-173 | the coefficient never exceeds Tmin + Tdelta and is at least Tmin when the power is not negative |
| Rgdu.RatioPositif | app.py:162-164 | below three minimum wages, a positive gross has a positive ratio, so the ratio guard never returns there |
| Rgdu.ReductionEncadree | app.py:162-178 | below three minimum wages with a positive gross, the reduction is the gross times a coefficient between Tmin and Tmin + Tdelta |
| Rgdu.ReductionBornee | app.py:151-178 | with a non-negative minimum wage, the reduction is never negative when it is defined, and for a non-negative gross it is at most (Tmin + Tdelta) × gross |
| Rgdu.CoefficientDeMonotone | app.py:167-173 | the capped, rounded coefficient does not decrease with the power term |
| Rgdu.CoefficientCroissant | app.py:166-173 | for an increasing power, the coefficient does not decrease with the ratio |
| Rgdu.CoefficientDegressif | app.py:162-173 | the coefficient is degressive: a higher gross below three minimum wages never has a larger coefficient |
| Rgdu.SeuilExact | app.py:154-156 | a gross of exactly three minimum wages gets no reduction |
| Rgdu.BrutNegatif | app.py:154-164 | a negative gross with a non-negative minimum wage is below the threshold, has a ratio of at most -1 and gets the reduction 0 of the non-positive-ratio branch |
| Solver.ChargesSurBrut | app.py:309-317 | the table's employer total on a gross plus the flat levy on its welfare contributions |
| Solver.ChargesDuPool | app.py:306-328 | the charges one pass attributes to its pool: those on the estimated gross plus the marginal charges of the reserve paid out as gross |
| Solver.ProchainTauxDe | app.py:306-329 | for a positive pool the next rate is the pass's charges over the pool |
| Solver.Passe | app.py:306-333 | one pass, with the corrected guard of the Findings row: a division by zero when 1 + rate is 0, the rate 0 when the pool is not positive (the source raises on a zero pool), otherwise charges over pool |
| Solver.ResoudreTaux | app.py:298-333 | the loop returns the positive override, or the fixed-point search from 0.55 with at most 50 passes of the corrected pass (Findings) and the early exit |
| Solver.Passes | app.py:305-333 | the search makes at least one and at most the allowed number of passes |
| Solver.IterationSuite | app.py:304-333 | the rate the search returns is the rate of its last pass |
| Solver.SansConvergenceAvant | app.py:330-333 | every pass before the last changes the rate by at least the tolerance 1e-5 |
| Solver.ArretAnticipe | app.py:330-332 | a search that stops before its last allowed pass stops on a failed pass or on a change below the tolerance |
| Solver.TauxResoluDe | app.py:298-333 | a positive override is used as it is; otherwise the rate is that of the last of between 1 and 50 passes from 0.55 |
| Solver.Etablir | app.py:345-359 | the payslip from the gross, or the division by zero of the RGDU |
| Solver.EtabliDe | app.py:345-363 | once the reduction is defined, the payslip is built from the table's result on the gross |
| Solver.EtabliSansRgdu | app.py:356-359 | a reduction that divides by zero leaves no payslip |
| Solver.Reconstruire | app.py:335-343 | the payslip from the rate: pool, complement, paid-leave allowance and gross, then the rest |
| Solver.CalculateSalary | app.py:243-424 | calculate_salary: the preparation, the search for the rate with the corrected pass of the Findings row, and the payslip rebuilt from it; a zero salary budget gives a payslip where the source raises |
| Proprietes.PreparationAdmissible | app.py:248-297 | a non-negative configuration and working week give the search a context with nothing negative but the budget |
| Proprietes.MutuelleNonNegative | app.py:263-268 | the employer's share of the mutual insurance is not negative |
| Proprietes.MontantCroissant | app.py:311-312 | a rounded non-negative product does not decrease with its factor |
| Proprietes.PrevPatCroissant | app.py:309-313 | the welfare contributions entering the CSG base do not decrease with the gross and are not negative |
| Proprietes.PrevSuppCroissant | app.py:312 | the supplementary cover does not decrease with tranche B and is 0 without one |
| Proprietes.TotalPatCroissant | app.py:314 | the table's employer total does not decrease with the gross and the welfare contributions |
| Proprietes.ChargesTableCroissant | app.py:309-327 | the table's employer total plus the flat levy does not decrease with the gross and is not negative |
| Proprietes.ChargesNonNegatives | app.py:317-328 | the charges of a pass are not negative when the charges with the reserve are no smaller than those without |
| Proprietes.BrutEstimeEncadre | app.py:307-320 | the estimated gross is at least base, bonus and complement, and at most the gross with the reserve |
| Proprietes.ChargesPasseNonNegatives | app.py:306-328 | on an admissible context a pass attributes non-negative charges to a positive pool |
| Proprietes.ProchainTauxNonNegatif | app.py:306-329 | on an admissible context the corrected pass (Findings) from a non-negative rate never fails and gives a non-negative rate |
| Proprietes.IterationNonNegative | app.py:304-333 | passes that keep rates non-negative make a search that never fails and ends on a non-negative rate |
| Proprietes.ItererNonNegatif | app.py:304-333 | on an admissible context the search with the corrected pass (Findings) from a non-negative rate never fails and ends on a non-negative rate |
| Proprietes.TauxResoluNonNegatif | app.py:298-333 | on an admissible context the rate the engine uses, with the corrected pass (Findings), exists and is never negative, whatever the override |
| Proprietes.PreparationDe | app.py:248-297 | telework days are the smaller of the days entered and 22, paid 2.70 a day; both meal-voucher shares are 7.18 a voucher; turnover, available amount, expenses and budget; base salary prorated by days a week over 5; bonus and gross reserve as shares of it; the FNAL rate by company size |
| Proprietes.MutuelleSplit | app.py:259-268 | the mutual insurance costs its rate of the ceiling, split into two whole-cent shares within a cent of the cost together; nothing without it |
| Proprietes.PartageArrondi | app.py:266-268 | both shares of a split are whole cents and add up to within a cent of the cost |
| Proprietes.ReconstitutionDuBrut | app.py:335-343 | the pool times 1 + rate is the budget; the complement is what the pool leaves, never negative; it splits into remuneration and business contribution by 1 + bonus rate; the paid-leave allowance and the gross are rebuilt from base, bonus and complement |
| Proprietes.ChargesDeLaFiche | app.py:349-379 | the employer charges, before and after RGDU; the employee charges; the net, net payable and cost; a provision never negative that closes the budget when positive; the reserve shown only when used; the tranches and lines as the table gives them |
| Proprietes.FicheDeFinaliser | app.py:335-363 | a payslip built from the rate is the one made from its pool, complement, gross, contributions and reduction |
| Proprietes.EtabliDefini | app.py:356-359 | from the gross on, the only failure is the RGDU on a zero gross with a positive minimum wage |
| Proprietes.BrutDeFinaliser | app.py:335-343 | a payslip built from a rate carries the gross rebuilt from its pool and complement |
| Proprietes.BrutPourNonNegatif | app.py:335-343 | with a non-negative base, bonus and paid-leave rate, the gross is never negative, whatever the pool |
| Proprietes.BulletinBrutNonNegatif | app.py:243-343 | on a non-negative configuration, working week and voucher count, every payslip calculate_salary produces has a non-negative gross |
| Proprietes.PreparerCroissantTjm | app.py:276-297 | a higher TJM leaves base, bonus, reserve and paid-leave rate unchanged and does not lower the budget, for non-negative days and fees taking at most the whole turnover |
| Proprietes.BrutPourCroissant | app.py:335-343 | at a rate above -1, a larger budget with the same base, bonus, reserve and non-negative paid-leave rate gives a gross at least as large |
| Proprietes.BulletinBrutCroissantTjm | app.py:243-343 | with a positive override, the gross of the payslip does not decrease when the TJM rises, for non-negative days and fees taking at most the whole turnover |
| Proprietes.FinaliserDefini | app.py:335-363 | from a non-negative rate and bonus rate, the only failure is the RGDU on a zero gross |
| Proprietes.BulletinDefini | app.py:243-424 | on a non-negative configuration and with the corrected pass of the Findings row, calculate_salary fails only when the RGDU is applied with a positive minimum wage (to a zero gross) |
| Proprietes.TauxResoluFixe | app.py:298-333 | entering the rate used as the override makes the engine use it again |
| Proprietes.PreparerSansOverride | app.py:248-297 | the preparation does not read the override |
| Proprietes.MutuelleSansOverride | app.py:259-268 | the mutual insurance split does not read the override |
| Proprietes.FicheDeSansOverride | app.py:361-424 | the payslip record does not read the override |
| Proprietes.EtabliSansOverride | app.py:345-363 | the payslip from a gross does not read the override |
| Proprietes.FinaliserSansOverride | app.py:335-363 | the payslip from a rate does not read the override |
| Proprietes.OverrideReproduit | app.py:298-363 | from the same preparation, the rate found entered as the override gives the same payslip |
| Proprietes.BulletinReproduit | app.py:243-424 | re-running calculate_salary with the rate it used, in percent, as the override gives back the same payslip |
| Constats.TelQuelHorsPoolNul | app.py:328-329 | the pass as written and the guarded pass agree whenever the pool is not zero |
| Constats.BudgetNul | app.py:328-329 | with a zero budget the pass as written divides by zero, where the guarded pass gives the rate 0 |
| Constats.TjmNul | app.py:297-329 | a simulation with a zero daily rate and no expenses reaches the division by zero on its first pass |
| Frais.TauxIk | app.py:8-22 | a rate exists exactly for cars of 3 to 7 CV and motorcycles of 1 to 5 CV, and every rate of the scales is between 0 and 1 per km |
| Frais.IkCroissant | app.py:656 | within one band, the allowance grows with the kilometres and is never negative |
| Frais.IgdParis | app.py:666-667 | with non-negative counts the IGD is not negative, and the Paris rate adds the difference of the two night rates per night |

## Left out

- Floating point: amounts are exact reals, and `round(x, 2)` / `round(x, 4)` are half-up rounding of the exact value, where Python rounds a binary float half to even; results can differ by a cent on ties and near-ties.
- `** 1.75` in the RGDU is the parameter `pow175`; no property of the real power function is assumed beyond what each lemma's `requires` states.
- The Streamlit interface, the session-state defaults, the charts, the PDF payslip (`create_pdf`) and the labels of the contribution lines (display only) are not part of this model; the configuration is an immutable `Config` argument.
- The `else: continue` branch at app.py:209-210 cannot be taken, since every table entry has one of the four bases; `Assiette` has exactly those four.
- Frais.TauxIk: the car and motorcycle bands are chosen by the user in the sidebar, not from a distance, so the model takes the band as an argument; the dictionary lookup's `KeyError` for a horsepower outside the scale is `None`.
- find_complex_formula.py and analyze_formula_context.py are spreadsheet-inspection scripts outside the engine and are not part of this model.
- Proprietes.ReconstitutionDuBrut, Proprietes.ChargesDeLaFiche: stated on the payslip built from its parts (`Solver.FicheDe`); `Proprietes.FicheDeFinaliser` connects them to a payslip returned by the engine.
- Solver.ProchainTaux, Solver.CalculateSalary: the engine uses the corrected pass of the Findings row, so at a zero salary budget the model gives the rate 0 and a payslip where the source raises ZeroDivisionError; `Constats.ProchainTauxTelQuel` is the pass as written.
- Proprietes.BulletinBrutCroissantTjm: claims monotonicity in the TJM only for a fixed positive override; no monotonicity is claimed for the automatic search, because the rate it finds is proved neither monotone in the budget nor convergent.
- Proprietes.BulletinDefini: states only that a failure needs the RGDU and a positive minimum wage; `Proprietes.EtabliDefini` adds the zero gross at the point where the gross is known.

## Findings

| source | as written | input that shows it | evidently intended | confidence | as-written member | corrected member |
|---|---|---|---|---|---|---|
| app.py:328-329 | the marginal charges of the reserve compute `reserve_brute / pool` before the `if pool > 0 else 0` guard of the next line, so a zero pool raises ZeroDivisionError | a zero salary budget, e.g. TJM 0 with no expenses and no override: the first pass from 0.55 has pool 0 (`Constats.TjmNul`) | a non-positive pool gives the rate 0, as the guard on app.py:329 says | not executed | Constats.ProchainTauxTelQuel | Solver.ProchainTaux |
