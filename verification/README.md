# Distributed-generation savings calculator — Dafny model

This project models the savings logic of a calculator that estimates the monthly
savings of a distributed-generation ("GD II") electricity consumer.

- **Tariff savings engine** (module `Calculations`). It starts from the inputs
  and the fixed tariff catalog (`TARIFA`: TUSD, TE and one surcharge per tariff
  flag). It computes:
  - the compensated energy, `min(injetado, consumo)`;
  - the Fio B saving, the remaining TUSD saving, and the TE-plus-flag saving;
  - the ICMS saving (25%) and the PIS/COFINS saving (9.25%), each on the base
    its policy selects;
  - the COSIP public-lighting saving, either from an absolute amount capped at
    0.05 per compensated kWh or from a percentage;
  - the total and six line items in a fixed order.

  Amounts are exact `real`s.
- **Calculator state holder** (module `CalculatorState`, class `Calculator`).
  It holds the current inputs, the result history (most recent first) and the
  result on display. Its operations are:
  - replacing one input field;
  - publishing a result, which prepends it and keeps at most 10;
  - deleting history entries by id;
  - loading a stored result.

  The history updates are pure sequence functions (`PushHistory`, `RemoveId`)
  that the class methods assign to the `history` field.
- **Data model** (module `CalculatorTypes`). The closed enumerations (supply
  type, ICMS policy, PIS/COFINS policy, tariff flag), the input record, the
  tariff-table shape and the result shape. Because each enumeration is a
  datatype, "exactly one of" holds by construction. The flag lookup
  `Surcharge` is total because the table has one field per flag.
- `EngineProperties` holds the lemmas about the engine. The ICMS and
  PIS/COFINS bases get an independent definition there: each policy names an
  inclusion set of savings (`IcmsBase`, `PisBase`), and `BaseOf` sums that set.

The engine does not clamp negative or out-of-range inputs, so non-negativity
is proved only under preconditions (`SavingsNonNegative`). Nothing guards
against a stale result. The percentage-of-total display divides by the total
with no zero check.

## Model

| member | source | states |
|---|---|---|
| `Calculations.Compensated` | src/hooks/useCalculations.tsx:36 | compensated energy is at most both the injected energy and the consumption, and equals one of them |
| `Calculations.Calculate` | src/hooks/useCalculations.tsx:28-120 | the breakdown has exactly six line items in the order Fio B, TUSD, TE, ICMS, PIS/COFINS, COSIP; each carries its component's value; their values sum to the total |
| `Calculations.Compute` | src/hooks/useCalculations.tsx:77-122 | the result carries the given id and timestamp and the inputs unchanged; it has six line items summing to the total |
| `EngineProperties.DistributionSplit` | src/hooks/useCalculations.tsx:39-49 | the Fio B saving plus the remaining TUSD saving equals compensated × tusd × gd2/100 |
| `EngineProperties.DistributionSplitNonNegative` | src/hooks/useCalculations.tsx:39-49 | for 0 ≤ fioB ≤ 100 and non-negative energy, tariff and gd2, both parts of the split lie between 0 and the whole distribution saving |
| `EngineProperties.IcmsOnInclusionSet` | src/hooks/useCalculations.tsx:52-58 | the ICMS saving is 0.25 × the sum of exactly the savings its policy names (FioB / FioB+TUSD / FioB+TUSD+TE); exempt gives 0 |
| `EngineProperties.PisCofinsOnInclusionSet` | src/hooks/useCalculations.tsx:61-66 | the PIS/COFINS saving is 0.0925 × the sum of the savings its policy names (FioB / FioB+TUSD+TE); exempt gives 0 |
| `EngineProperties.IcmsOrderedByPolicy` | src/hooks/useCalculations.tsx:52-58 | with non-negative savings, the ICMS saving does not decrease along isento, fiob, fiob_tusd, fiob_tusd_te |
| `EngineProperties.CosipAbsoluteCapped` | src/hooks/useCalculations.tsx:69-70 | with an absolute COSIP amount, the saving is the smaller of that amount and 0.05 × compensated energy |
| `EngineProperties.CosipBounded` | src/hooks/useCalculations.tsx:69-71 | for in-range inputs the COSIP saving lies between 0 and 0.05 × compensated energy on both branches |
| `EngineProperties.CalculateIcms` | src/hooks/useCalculations.tsx:52-58 | the result's ICMS saving is 0.25 × the result's savings that its policy names; exempt gives 0 |
| `EngineProperties.CalculatePisCofins` | src/hooks/useCalculations.tsx:61-66 | the result's PIS/COFINS saving is 0.0925 × the result's savings that its policy names; exempt gives 0 |
| `EngineProperties.CalculateCosip` | src/hooks/useCalculations.tsx:69-71 | the result's COSIP saving is min(cosip_rs, 0.05 × compensated) when cosip_rs > 0, and lies in [0, 0.05 × compensated] for in-range inputs |
| `EngineProperties.TotalIsSumOfComponents` | src/hooks/useCalculations.tsx:74-75 | the total equals the sum of the six components |
| `EngineProperties.ZeroCompensationZeroSavings` | src/hooks/useCalculations.tsx:36-75 | if injected energy or consumption is 0 (both non-negative), every component and the total are 0 |
| `EngineProperties.TariffSavingsNonNegative` | src/hooks/useCalculations.tsx:39-49 | for non-negative energy, rates and gd2 and 0 ≤ fioB ≤ 100, the Fio B, TUSD and TE savings are non-negative |
| `EngineProperties.TaxSavingsNonNegative` | src/hooks/useCalculations.tsx:52-66 | ICMS and PIS/COFINS savings on non-negative tariff savings are non-negative under every policy |
| `EngineProperties.SavingsNonNegative` | src/hooks/useCalculations.tsx:36-75 | for non-negative energies, 0 ≤ fioB ≤ 100, gd2 ≥ 0, in-range COSIP inputs and non-negative rates, every component and the total are non-negative |
| `EngineProperties.ComputeNonNegative` | src/hooks/useCalculations.tsx:6-16 | with the catalog tariffs, in-range inputs give a non-negative total |
| `EngineProperties.EngineIgnoresUnreadFields` | src/hooks/useCalculations.tsx:28 | inputs differing only in estado, fornecimento, pis and confins give the same breakdown |
| `EngineProperties.ReferenceScenario` | src/components/Calculator.tsx:12-26 | the default inputs with the catalog give FioB 34.695, TUSD 42.405, TE 164.595, ICMS 19.275, PIS/COFINS 22.3567875, COSIP 3.0 and total 286.3267875 exactly, and the result keeps the inputs |
| `CalculatorState.Get` | src/types/calculator.ts:2-16 | every field's value has the type that field declares |
| `CalculatorState.WithFieldChangesOnlyThatField` | src/components/Calculator.tsx:34-36 | replacing a field sets that field to the new value and leaves every other field unchanged |
| `CalculatorState.FieldsDetermineInputs` | src/types/calculator.ts:2-16 | two inputs that agree on all thirteen fields are equal |
| `CalculatorState.WithFieldIsUnique` | src/components/Calculator.tsx:34-36 | the updated inputs are the only inputs that hold the new value in the named field and the old values elsewhere |
| `CalculatorState.PushHistory` | src/components/Calculator.tsx:42 | the new result is first, followed by an order-preserving prefix of the old history; the length is min(old + 1, 10) |
| `CalculatorState.PushIsNewest` | src/components/Calculator.tsx:42 | one publish keeps the first 10 entries of the new result followed by the old history |
| `CalculatorState.PushFullDropsOldest` | src/components/Calculator.tsx:42 | publishing onto a full history of 10 drops exactly its last (oldest) entry |
| `CalculatorState.PushAllKeepsNewest` | src/components/Calculator.tsx:42 | publishing a sequence of results onto a history of at most 10 keeps the newest 10 of all, most recent first |
| `CalculatorState.ElevenPublishesKeepTen` | src/components/Calculator.tsx:42 | eleven publishes onto an empty history keep ten entries, with only the first (oldest) one evicted |
| `CalculatorState.RemoveIdMembers` | src/components/Calculator.tsx:56 | an entry survives deletion exactly when it was in the history with a different id |
| `CalculatorState.RemoveIdAppend` | src/components/Calculator.tsx:56 | deletion distributes over concatenation, so the kept entries stay in their original order |
| `CalculatorState.RemoveIdAbsent` | src/components/Calculator.tsx:55-57 | deleting an id that no entry carries leaves the history unchanged |
| `CalculatorState.RemoveIdIdempotent` | src/components/Calculator.tsx:55-57 | deleting twice is the same as deleting once |
| `CalculatorState.Calculator.constructor` | src/components/Calculator.tsx:29-32 | starts with the default inputs, the stored history and no current result |
| `CalculatorState.Calculator.HandleInputChange` | src/components/Calculator.tsx:34-36 | replaces exactly the named input field; history and current result are unchanged |
| `CalculatorState.Calculator.Publish` | src/components/Calculator.tsx:40-43 | a result becomes current and is pushed onto the history, which is then at most 10 long; no result leaves everything unchanged |
| `CalculatorState.Calculator.HandleCalculate` | src/components/Calculator.tsx:38-44 | the result computed from the current inputs becomes current and is pushed onto the history; inputs are unchanged |
| `CalculatorState.Calculator.HandleDeleteHistory` | src/components/Calculator.tsx:55-57 | history becomes the old history without the entries of that id; inputs and current result are unchanged |
| `CalculatorState.Calculator.HandleLoadHistory` | src/components/Calculator.tsx:59-62 | inputs become the result's inputs and the result becomes current; the history is unchanged |

## Left out

- Debounce: the 500 ms timer that re-runs the calculation after input changes (src/components/Calculator.tsx:47-53) is timing, not sequential logic. `HandleCalculate` models one run. Every change of `inputs` re-arms that timer, including `HandleInputChange` and `HandleLoadHistory`. So about 500 ms after a load, the program recomputes the loaded entry under a new id, makes that copy current and pushes it onto the history. The contracts of `HandleInputChange` and `HandleLoadHistory` describe only the handler's own effect; the later `HandleCalculate` is a separate step.
- The simulated 300 ms delay and the `isCalculating` flag (src/hooks/useCalculations.tsx:22-26,129) are timing and UI feedback.
- The `id` (built from the clock and a random number) and the `timestamp` (src/hooks/useCalculations.tsx:78-79) are parameters of `Compute` and `HandleCalculate`. The timestamp is a count of milliseconds.
- Floating point: amounts are exact reals, so IEEE rounding is not modelled. The `try/catch` that returns `null` cannot fire in exact arithmetic. `Publish` still models what happens when no result arrives.
- The `descricao` strings (src/hooks/useCalculations.tsx:93-118): the model keeps the interpolated numbers and the fixed texts but not the `toFixed` number formatting.
- `HandleInputChange` accepts only a value of the type the field declares. The source's `value: any` would also accept other types at run time, but every caller in the form passes the declared type.
- Persistence of the history (`useLocalStorage`, not part of this model) is I/O. The stored history is a constructor argument, so a history longer than 10 from storage is not shortened until the next publish.
- Rendering components, PDF/CSV export and login gating are presentation or I/O. This includes the percentage-of-total display, which divides by the total with no zero guard.
