# Quantum resource estimator, modelled in Dafny

This project models the resource-estimation engine of the Quantum Algorithm Resource Analyzer, `app.py`. The engine has three parts:

- **The application registry.** A fixed dictionary of four application domains: Fermi-Hubbard, quantum chemistry, optimisation and machine learning. Each entry carries display metadata and a complexity label.
- **`calculate_resources`.** Stage one uses the domain key to choose one closed-form formula for the block-encoding scale alpha, the logical gate count and the logical qubit count. Stage two projects those through the surface code, the same way for every domain:
  - code distance `max(3, ceil(ln(1e-10) / ln p))`;
  - physical qubits `round(4 · q · d²)`;
  - runtime `gates · d · 1 µs`, given in hours;
  - overhead `d²`.
- **`format_number`.** A chain of thresholds picks the suffix B, M, K or none. The value is then printed, scaled, with one decimal (or with none when there is no suffix).

Everything is pure, so it is modelled as Dafny functions over exact `real` and `int`, with lemmas:

- `numerics.dfy` (module `Numerics`): exact versions of `math.ceil` and of Python's `round` (round half to even), each pinned down by its contract.
- `transcendental.dfy` (module `Transcendental`): the `Library` record holding `ln`, `log2` and `sqrt`.
  - The engine takes this record as a parameter.
  - `Lawful(lib)` lists the only facts the proofs assume: both logarithms are strictly increasing and vanish at 1, and `sqrt` is non-negative and squares back.
- `registry.dfy` (module `Registry`): the four entries, their key order, and lookup.
- `estimator.dfy` (module `Estimator`):
  - the domain dispatch (`DomainOf`);
  - stage one (`Scale`) and stage two (`Distance`, `Overhead`, `PhysicalQubits`, `RuntimeHours`, `Project`);
  - the entry point `CalculateResources`;
  - the lemmas about them.
  - The constants 1e-10, 1 µs and 4 are named (`TargetLogicalErrorRate`, `SyndromeCycleSeconds`, `TileFactor`).
- `formatting.dfy` (module `Formatting`):
  - `TierOf`, the guard chain;
  - `FormatNumber`, the code as written;
  - `FormatCompact`, a corrected form (see Findings).

A rendering is modelled as its tier plus the integer it shows, counted in units of the last printed digit. For example, "1.5K" is `Display(Thousands, 15)`.

Where the code and the design description of the system disagree, the model follows the code:

- **Unknown domain key.** The design description says an unknown key fails with a not-found error. The code silently falls through to the generic formula `alpha = N`, `N / ε` gates, `N` qubits (`UnknownApplicationFallsBack`).
- **No parameter validation.** The design description says invalid parameters are rejected. The code checks nothing. The only failures are Python's own exceptions: division by a zero precision, `math.log` of a non-positive error rate, division by `ln(1) = 0`, and `math.log2` of a non-positive system size in the three domains that take it (a negative size also makes `math.sqrt` raise for optimisation, but `math.sqrt(0)` returns 0, and `log2` fails on both). Apart from float overflow (see Left out), the model's `Evaluable` precondition excludes exactly these cases and nothing more. Other inputs outside the intended ranges are accepted:
  - an error rate above 1 gives distance 3 (`DistanceAboveOne`);
  - a system size of 1 gives zero logical qubits for optimisation and machine learning (`UnitSystemSizeDegenerates`).

## Model

| member | source | states |
|---|---|---|
| `Numerics.Ceil` | app.py:67 | the result is the least integer not below its argument |
| `Numerics.Round` | app.py:77-79 | the result is within one half of its argument, and a tie goes to the even neighbour |
| `Numerics.RoundUnique` | app.py:77-79 | no other integer meets `Round`'s contract, so that contract is exactly Python's rounding |
| `Numerics.RoundMonotone` | app.py:77-79 | rounding never reverses the order of two values |
| `Registry.Lookup` | app.py:5-34 | a lookup hits exactly for the four listed keys and returns that key's dictionary entry |
| `Registry.KeysEnumerateApplications` | app.py:5-34 | the ordered key list has four distinct keys, and they are exactly the dictionary's keys |
| `Registry.SelectorLookupsHit` | app.py:151-155 | every key the domain selector offers resolves to an entry with a name and a list of primitives |
| `Estimator.Key` | app.py:44-60 | each dedicated domain stands for the key its `if`/`elif` test compares against, and that key is a registry key; `DomainOfKey` and `DomainOf` make it the inverse of parsing |
| `Estimator.DomainOf` | app.py:44-63 | parsing keeps the key, and a key falls to the generic branch exactly when it is not a registry key |
| `Estimator.DomainOfKey` | app.py:44-60 | parsing a domain's key gives the domain back |
| `Estimator.DispatchCoversRegistry` | app.py:44-60 | the dispatch has a dedicated formula for exactly the keys the selector offers |
| `Estimator.Evaluable` | app.py:44-67 | the inputs on which the code returns over exact reals: a non-zero precision, a positive error rate whose logarithm is not zero, and a positive system size in the domains that take `log2`; `Distance` needs exactly its error-rate part, and `ReportNonNegative` and `UnknownApplicationFallsBack` show it holds on in-range inputs and for every unknown key |
| `Estimator.Scale` | app.py:44-63 | stage one, the formula the domain selects; its values are stated domain by domain by the five scaling lemmas below, its independence from the couplings outside Fermi-Hubbard by `CouplingsIgnoredOutsideFermiHubbard`, and its sign by `ScaleNonNegative` |
| `Estimator.FermiHubbardScaling` | app.py:44-47 | alpha is (2·hopping + interaction/8)·N, gates·ε = alpha·5·N·log2 N, and qubits exceed N by log2 N |
| `Estimator.QuantumChemistryScaling` | app.py:48-51 | alpha is 2N, gates·ε = N³, and qubits are N |
| `Estimator.OptimizationScaling` | app.py:52-55 | alpha is the non-negative square root of N, gates·ε = alpha, and qubits are log2 N |
| `Estimator.MachineLearningScaling` | app.py:56-59 | alpha and the qubit count both equal log2 N, and gates·ε = alpha·N |
| `Estimator.UnknownApplicationFallsBack` | app.py:60-63 | a non-registry key raises nothing and gets alpha = N, gates·ε = N and N qubits, followed by the common projection |
| `Estimator.CouplingsIgnoredOutsideFermiHubbard` | app.py:48-63 | outside Fermi-Hubbard, stage one does not depend on the hopping or interaction inputs |
| `Estimator.FermiHubbardReadsCouplings` | app.py:44-45 | for N ≠ 0, two coupling settings give the same Fermi-Hubbard alpha exactly when 2·hopping + interaction/8 agrees |
| `Estimator.ScaleNonNegative` | app.py:44-63 | if N ≥ 1, ε > 0 and the couplings are non-negative, every stage-one quantity is non-negative in every domain |
| `Estimator.Distance` | app.py:66-67 | the distance is the least integer that is both at least 3 and at least ln(target)/ln(p) |
| `Estimator.DistanceMonotoneInErrorRate` | app.py:66-67 | below 1, a larger physical error rate never gives a smaller distance |
| `Estimator.DistanceMonotoneInTarget` | app.py:66-67 | for a fixed error rate below 1, a tighter target never gives a smaller distance |
| `Estimator.DistanceAboveOne` | app.py:67 | an error rate above 1 is accepted and gives distance 3 |
| `Estimator.Overhead` | app.py:74 | the overhead factor d² is never negative; `PhysicalQubitsMonotoneInDistance` uses it as a non-decreasing function of d |
| `Estimator.PhysicalQubits` | app.py:69 | the count is within one half of 4 · (unrounded qubits) · d² |
| `Estimator.RuntimeHours` | app.py:70-81 | the runtime in hours, times 3600, is the number of gates times d syndrome cycles of 1 µs; `RuntimeHoursMonotoneInDistance` makes it non-decreasing in d |
| `Estimator.Project` | app.py:65-84 | the report's distance is `Distance` at 1e-10, its overhead is d², the gate and qubit counts are rounded, physical qubits and runtime come from the unrounded stage-one values, and alpha is carried through |
| `Estimator.CalculateResources` | app.py:36-84 | every domain's report has distance ≥ 3 (the same one for every domain) and overhead d², and alpha comes from that domain's formula |
| `Estimator.QuantumChemistryWholeSize` | app.py:48-51 | for a whole-number N, quantum chemistry reports N logical qubits and alpha 2N |
| `Estimator.QuantumChemistryScenario` | app.py:48-51 | N = 800 and ε = 0.0001 give 5 120 000 000 000 logical gates and 800 logical qubits |
| `Estimator.OptimizationScenario` | app.py:52-55 | N = 800 for optimisation gives alpha = sqrt(800) and round(log2 800) logical qubits |
| `Estimator.UnitSystemSizeDegenerates` | app.py:52-59 | N = 1 is accepted; optimisation and machine learning then report 0 logical and 0 physical qubits, optimisation has alpha = 1, and machine learning has 0 gates |
| `Estimator.PhysicalQubitsNotFromRoundedCount` | app.py:69-79 | 2.5 unrounded qubits are reported as 2 logical but 10·d² physical qubits, not 8·d² |
| `Estimator.PhysicalQubitsMonotoneInDistance` | app.py:69 | a larger distance never gives fewer physical qubits |
| `Estimator.PhysicalQubitsMonotoneInErrorRate` | app.py:66-69 | below 1, a larger error rate never gives fewer physical qubits |
| `Estimator.RuntimeHoursMonotoneInDistance` | app.py:70-71 | a larger distance never gives a shorter runtime |
| `Estimator.RuntimeMonotoneInErrorRate` | app.py:66-81 | below 1, a larger error rate never gives a shorter runtime |
| `Estimator.ProjectNonNegative` | app.py:65-84 | projecting non-negative stage-one values gives non-negative counts, runtime and alpha |
| `Estimator.ReportNonNegative` | app.py:36-84 | with in-range inputs, every count, the runtime and alpha are non-negative, whatever the key |
| `Formatting.TierOf` | app.py:86-93 | billions exactly from 1e9 up, millions exactly on [1e6, 1e9), thousands exactly on [1e3, 1e6), plain exactly below 1e3 |
| `Formatting.Render` | app.py:87-93 | the shown integer is the number divided by the tier's unit, to within one half |
| `Formatting.FormatNumber` | app.py:86-93 | the tier is the guard chain's, and the shown value is the number rounded to the tier's last digit |
| `Formatting.ScaledValueInRange` | app.py:87-92 | a suffixed tier's scaled value is at least 1, and below 1000 for K and M |
| `Formatting.SuffixAndDecimalsFollowTier` | app.py:86-93 | no suffix and no decimals exactly below 1000; above that, one decimal |
| `Formatting.FormatNumberMantissaOverflows` | app.py:89-93 | as written, 999 990 shows as 1000.0K and 999.5 shows as 1,000 |
| `Formatting.FormatCompact` | app.py:86-93 | the shown value is the number rounded to the last digit of the tier it is shown in; that tier is the guard chain's, or one tier up with the mantissa exactly 1.0; the mantissa stays within [1.0, 999.9] for K and M, is at least 1.0 for B, and is below 1000 when there is no suffix; the result equals `FormatNumber` whenever that one fits |
| `Formatting.PromotionShowsOne` | app.py:87-93 | when the mantissa as written reaches 1000, the number is just below the next threshold and the next tier shows it as exactly 1.0 |
| `Formatting.FormatCompactPromotes` | app.py:86-93 | the corrected rendering shows 999 990 as "1.0M" and 999.5 as "1.0K" |
| `Formatting.FormatCompactAgrees` | app.py:86-93 | 999 → "999", 1500 → "1.5K", 2 300 000 → "2.3M" and 4e9 → "4.0B" are the same in both renderings |

## Left out

- The Streamlit presentation layer (app.py:95-283) is not modelled. It covers page layout, tabs, sliders, markdown and the `st.session_state` handling. It is UI code over a foreign library.
- The display ratios at app.py:214-215 (physical/logical qubits, gates/runtime) are UI-side. They divide by zero whenever the rounded logical-qubit count or the runtime is 0. `UnitSystemSizeDegenerates` gives such cases, and so do Fermi-Hubbard at N = 1 (no gates, zero runtime), quantum chemistry for −0.5 ≤ N ≤ 0.5, and optimisation for 2^−0.5 ≤ N ≤ 2^0.5 (where round(log2 N) is 0).
- Floating point is not modelled. All arithmetic is exact over `real`. The model does not reproduce binary rounding of `1e-10`, `1e-6` or the divisions, or the float results of `math.pow`. `round` and `math.ceil` act on exact reals.
- `math.log`, `math.log2` and `math.sqrt` are not defined. They come in through a `Library` parameter, constrained only by `Lawful` where a proof needs it.
- Digit-level output is not modelled. This covers the characters produced by `:.1f` and `:,.0f`, and the thousands separators. Only the tier, the suffix, the number of decimals and the shown integer are modelled. Ties use exact half-to-even rounding. Ties that only arise from binary representation are not reproduced.
- Python's exceptions are not modelled as results. `Evaluable` is a precondition that excludes the inputs on which the code raises over exact reals.
- Float overflow is not modelled. With exact reals nothing overflows, so `Evaluable` accepts inputs on which the code raises `OverflowError`. Examples are `math.pow(system_size, 3)` for a system size above about 5.6e102 (app.py:50), and `round` of a count that has overflowed to infinity, such as `system_size / precision` (app.py:77-79).
- `Estimator.OptimizationScenario` is weaker than the concrete figure, because `log2` is a parameter. It states `round(log2 800)` logical qubits, not the value 10.
- `Estimator.DistanceMonotoneInErrorRate`, `Estimator.PhysicalQubitsMonotoneInErrorRate` and `Estimator.RuntimeMonotoneInErrorRate` cover error rates below 1 only. Above 1 the distance is constantly 3 (`DistanceAboveOne`).

## Findings

| source | as written | input that shows it | evidently intended | confidence | as-written member | corrected member |
|---|---|---|---|---|---|---|
| app.py:89-93 | the suffix tier is chosen on the unrounded number, and printing then rounds the mantissa | 999 990 shows as "1000.0K"; 999.5 shows as "1,000" | the shown mantissa stays below 1000, so those inputs show as "1.0M" and "1.0K" | medium, not executed | `Formatting.FormatNumberMantissaOverflows` | `Formatting.FormatCompact` |
