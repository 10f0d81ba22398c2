/**
 * The resource estimator (`calculate_resources`): a domain-specific scaling
 * stage that yields the block-encoding scale alpha, the logical gate count and
 * the logical qubit count, followed by a fault-tolerance projection that is
 * the same for every domain (surface-code distance, physical qubits, runtime,
 * overhead).
 */
module Estimator {
  import opened Numerics
  import opened Transcendental
  import Registry

  /** The domain keys the dispatch recognises; any other key is carried in `Other`. */
  datatype Domain = FermiHubbard | QuantumChemistry | Optimization | MachineLearning | Other(key: string)

  /** The application key a domain stands for; a dedicated domain's key is a registry key. */
  function Key(d: Domain): (k: string)
    ensures !d.Other? ==> k in Registry.Applications
  {
    match d
    case FermiHubbard => "fermi-hubbard"
    case QuantumChemistry => "quantum-chemistry"
    case Optimization => "optimization"
    case MachineLearning => "machine-learning"
    case Other(k) => k
  }

  /** The `if`/`elif` chain on the application key. */
  function DomainOf(key: string): (d: Domain)
    ensures Key(d) == key
    ensures d.Other? <==> key !in Registry.Applications
  {
    if key == "fermi-hubbard" then FermiHubbard
    else if key == "quantum-chemistry" then QuantumChemistry
    else if key == "optimization" then Optimization
    else if key == "machine-learning" then MachineLearning
    else Other(key)
  }

  /** Parsing a domain's key gives the domain back (for every domain the parser can produce). */
  lemma DomainOfKey(d: Domain)
    requires d.Other? ==> d.key !in Registry.Applications
    ensures DomainOf(Key(d)) == d
  {
  }

  /** The dispatch recognises exactly the registry's keys, so every key the selector offers gets its own formula. */
  lemma DispatchCoversRegistry(key: string)
    ensures key in Registry.Keys <==> !DomainOf(key).Other?
  {
    Registry.KeysEnumerateApplications();
  }

  datatype Parameters = Parameters(
    systemSize: real,
    precision: real,
    physicalErrorRate: real,
    hoppingParameter: real,
    interactionStrength: real)

  /** The unrounded stage-one quantities. */
  datatype Raw = Raw(alpha: real, gates: real, qubits: real)

  datatype Report = Report(
    logicalGates: int,
    logicalQubits: int,
    physicalQubits: int,
    surfaceCodeDistance: int,
    runtimeHours: real,
    faultTolerantOverhead: real,
    alpha: real)

  const TargetLogicalErrorRate: real := 0.0000000001
  /** One syndrome-extraction cycle, in seconds (superconducting hardware). */
  const SyndromeCycleSeconds: real := 0.000001
  /** Physical qubits per logical qubit per unit of squared code distance. */
  const TileFactor: real := 4.0
  const SecondsPerHour: real := 3600.0

  /** The domains whose formulas take a logarithm or a square root of the system size. */
  predicate UsesLogarithms(d: Domain) {
    d.FermiHubbard? || d.Optimization? || d.MachineLearning?
  }

  /**
   * The inputs on which `calculate_resources` returns instead of raising, over
   * exact reals: no division by a zero precision, a logarithm of a positive
   * error rate that is not zero, and a positive system size wherever `log2` of
   * it is taken. Float overflow is not modelled.
   */
  predicate Evaluable(lib: Library, d: Domain, p: Parameters) {
    && p.precision != 0.0
    && 0.0 < p.physicalErrorRate && lib.ln(p.physicalErrorRate) != 0.0
    && (UsesLogarithms(d) ==> 0.0 < p.systemSize)
  }

  /** Stage one: the closed-form formula that the domain selects. */
  function Scale(lib: Library, d: Domain, p: Parameters): Raw
    requires p.precision != 0.0
  {
    var n, eps := p.systemSize, p.precision;
    match d
    case FermiHubbard =>
      var alpha := (2.0 * p.hoppingParameter + p.interactionStrength / 8.0) * n;
      Raw(alpha, alpha * 5.0 * n * lib.log2(n) / eps, n + lib.log2(n))
    case QuantumChemistry => Raw(n * 2.0, n * n * n / eps, n)
    case Optimization => Raw(lib.sqrt(n), lib.sqrt(n) / eps, lib.log2(n))
    case MachineLearning => Raw(lib.log2(n), lib.log2(n) * n / eps, lib.log2(n))
    case Other(_) => Raw(n, n / eps, n)
  }

  /**
   * The surface-code distance for a target logical error rate and a physical
   * error rate: the least integer that is at least 3 and at least
   * ln(target) / ln(p).
   */
  function Distance(lib: Library, target: real, p: real): (d: int)
    requires 0.0 < p && lib.ln(p) != 0.0
    ensures 3 <= d
    ensures lib.ln(target) / lib.ln(p) <= d as real
    ensures d == 3 || (d - 1) as real < lib.ln(target) / lib.ln(p)
  {
    var c := Ceil(lib.ln(target) / lib.ln(p));
    if c < 3 then 3 else c
  }

  /** The per-logical-qubit overhead factor, the squared code distance (`math.pow(d, 2)`). */
  function Overhead(d: int): (o: real)
    ensures 0.0 <= o
  {
    SquareNonNegative(d);
    (d * d) as real
  }

  /** Physical qubits: four tiles of d^2 qubits per (unrounded) logical qubit, then rounded. */
  function PhysicalQubits(qubits: real, d: int): (n: int)
    ensures TileFactor * qubits * Overhead(d) - 0.5 <= n as real <= TileFactor * qubits * Overhead(d) + 0.5
  {
    Round(TileFactor * qubits * Overhead(d))
  }

  /** Runtime in hours: one syndrome cycle per gate per unit of distance. */
  function RuntimeHours(gates: real, d: int): (h: real)
    ensures h * SecondsPerHour == gates * d as real * SyndromeCycleSeconds
  {
    gates * d as real * SyndromeCycleSeconds / SecondsPerHour
  }

  /** Stage two: the fault-tolerance projection, identical for every domain. */
  function Project(lib: Library, raw: Raw, p: real): (r: Report)
    requires 0.0 < p && lib.ln(p) != 0.0
    ensures r.surfaceCodeDistance == Distance(lib, TargetLogicalErrorRate, p)
    ensures r.faultTolerantOverhead == (r.surfaceCodeDistance * r.surfaceCodeDistance) as real
    ensures r.logicalGates == Round(raw.gates) && r.logicalQubits == Round(raw.qubits)
    ensures r.physicalQubits == PhysicalQubits(raw.qubits, r.surfaceCodeDistance)
    ensures r.runtimeHours * SecondsPerHour == raw.gates * r.surfaceCodeDistance as real * SyndromeCycleSeconds
    ensures r.alpha == raw.alpha
  {
    var d := Distance(lib, TargetLogicalErrorRate, p);
    Report(
      Round(raw.gates),
      Round(raw.qubits),
      PhysicalQubits(raw.qubits, d),
      d,
      RuntimeHours(raw.gates, d),
      Overhead(d),
      raw.alpha)
  }

  /** `calculate_resources(selected_application, parameters)`. */
  function CalculateResources(lib: Library, application: string, p: Parameters): (r: Report)
    requires Evaluable(lib, DomainOf(application), p)
    ensures 3 <= r.surfaceCodeDistance
    ensures r.faultTolerantOverhead == (r.surfaceCodeDistance * r.surfaceCodeDistance) as real
    ensures r.surfaceCodeDistance == Distance(lib, TargetLogicalErrorRate, p.physicalErrorRate)
    ensures r.alpha == Scale(lib, DomainOf(application), p).alpha
  {
    Project(lib, Scale(lib, DomainOf(application), p), p.physicalErrorRate)
  }

  // ---------------------------------------------------------------------------
  // Stage one, domain by domain

  lemma FermiHubbardScaling(lib: Library, p: Parameters)
    requires p.precision != 0.0
    ensures var r := Scale(lib, FermiHubbard, p);
      && r.alpha == (2.0 * p.hoppingParameter + p.interactionStrength / 8.0) * p.systemSize
      && r.gates * p.precision == r.alpha * 5.0 * p.systemSize * lib.log2(p.systemSize)
      && r.qubits - p.systemSize == lib.log2(p.systemSize)
  {
  }

  lemma QuantumChemistryScaling(lib: Library, p: Parameters)
    requires p.precision != 0.0
    ensures var r := Scale(lib, QuantumChemistry, p);
      && r.alpha == 2.0 * p.systemSize
      && r.gates * p.precision == p.systemSize * p.systemSize * p.systemSize
      && r.qubits == p.systemSize
  {
  }

  /** Optimisation: alpha is the square root of N, and the gate count is alpha over the precision. */
  lemma OptimizationScaling(lib: Library, p: Parameters)
    requires Lawful(lib) && p.precision != 0.0 && 0.0 < p.systemSize
    ensures var r := Scale(lib, Optimization, p);
      && 0.0 <= r.alpha && r.alpha * r.alpha == p.systemSize
      && r.gates * p.precision == r.alpha
      && r.qubits == lib.log2(p.systemSize)
  {
  }

  /** Machine learning: alpha and the qubit count are both log2 N; the gate count is alpha times N over the precision. */
  lemma MachineLearningScaling(lib: Library, p: Parameters)
    requires p.precision != 0.0
    ensures var r := Scale(lib, MachineLearning, p);
      && r.alpha == lib.log2(p.systemSize) && r.qubits == r.alpha
      && r.gates * p.precision == r.alpha * p.systemSize
  {
  }

  /**
   * A key that names none of the four domains raises nothing: it gets
   * alpha = N, N / precision gates and N qubits, then the common projection.
   */
  lemma UnknownApplicationFallsBack(lib: Library, application: string, p: Parameters)
    requires application !in Registry.Applications
    requires p.precision != 0.0 && 0.0 < p.physicalErrorRate && lib.ln(p.physicalErrorRate) != 0.0
    ensures Evaluable(lib, DomainOf(application), p)
    ensures var r := Scale(lib, DomainOf(application), p);
      r.alpha == p.systemSize && r.qubits == p.systemSize && r.gates * p.precision == p.systemSize
    ensures CalculateResources(lib, application, p)
         == Project(lib, Raw(p.systemSize, p.systemSize / p.precision, p.systemSize), p.physicalErrorRate)
  {
  }

  /**
   * Only the Fermi-Hubbard formula reads the hopping parameter and the
   * interaction strength: every other domain gives the same stage-one values
   * whatever they are.
   */
  lemma CouplingsIgnoredOutsideFermiHubbard(lib: Library, d: Domain, p: Parameters, hopping: real, interaction: real)
    requires p.precision != 0.0 && !d.FermiHubbard?
    ensures Scale(lib, d, p) == Scale(lib, d, p.(hoppingParameter := hopping, interactionStrength := interaction))
  {
  }

  /** The Fermi-Hubbard alpha changes with the couplings: two settings give the same alpha exactly when 2 t + U / 8 agrees. */
  lemma FermiHubbardReadsCouplings(lib: Library, p: Parameters, hopping: real, interaction: real)
    requires p.precision != 0.0 && p.systemSize != 0.0
    ensures var q := p.(hoppingParameter := hopping, interactionStrength := interaction);
      Scale(lib, FermiHubbard, p).alpha == Scale(lib, FermiHubbard, q).alpha
      <==> 2.0 * p.hoppingParameter + p.interactionStrength / 8.0 == 2.0 * hopping + interaction / 8.0
  {
    ProductCancel(2.0 * p.hoppingParameter + p.interactionStrength / 8.0, 2.0 * hopping + interaction / 8.0, p.systemSize);
  }

  lemma FermiHubbardNonNegative(lib: Library, p: Parameters)
    requires Lawful(lib)
    requires 1.0 <= p.systemSize && 0.0 < p.precision
    requires 0.0 <= p.hoppingParameter && 0.0 <= p.interactionStrength
    ensures var r := Scale(lib, FermiHubbard, p); 0.0 <= r.alpha && 0.0 <= r.gates && 0.0 <= r.qubits
  {
    Log2NonNegative(lib, p.systemSize);
    var r := Scale(lib, FermiHubbard, p);
    ProductNonNegative(2.0 * p.hoppingParameter + p.interactionStrength / 8.0, p.systemSize);
    assert 0.0 <= r.alpha;
    TripleQuotientNonNegative(r.alpha * 5.0, p.systemSize, lib.log2(p.systemSize), p.precision);
  }

  /** With in-range inputs (N at least 1, positive precision, non-negative couplings) every stage-one quantity is non-negative. */
  lemma ScaleNonNegative(lib: Library, d: Domain, p: Parameters)
    requires Lawful(lib)
    requires 1.0 <= p.systemSize && 0.0 < p.precision
    requires 0.0 <= p.hoppingParameter && 0.0 <= p.interactionStrength
    ensures var r := Scale(lib, d, p); 0.0 <= r.alpha && 0.0 <= r.gates && 0.0 <= r.qubits
  {
    Log2NonNegative(lib, p.systemSize);
    match d
    case FermiHubbard =>
      FermiHubbardNonNegative(lib, p);
    case QuantumChemistry =>
      TripleQuotientNonNegative(p.systemSize, p.systemSize, p.systemSize, p.precision);
    case Optimization =>
      QuotientNonNegative(lib.sqrt(p.systemSize), p.precision);
    case MachineLearning =>
      ProductNonNegative(lib.log2(p.systemSize), p.systemSize);
      QuotientNonNegative(lib.log2(p.systemSize) * p.systemSize, p.precision);
    case Other(_) =>
      QuotientNonNegative(p.systemSize, p.precision);
  }

  /** Quantum chemistry on a whole-number system size reports that size and 2N as they are. */
  lemma QuantumChemistryWholeSize(lib: Library, size: nat, p: Parameters)
    requires p.systemSize == size as real
    requires Evaluable(lib, QuantumChemistry, p)
    ensures var r := CalculateResources(lib, "quantum-chemistry", p);
      r.logicalQubits == size && r.alpha == 2.0 * size as real
  {
    RoundOfInteger(size);
  }

  /** N = 800 and precision 0.0001: 800^3 / 0.0001 logical gates and 800 logical qubits. */
  lemma QuantumChemistryScenario(lib: Library, p: Parameters)
    requires p.systemSize == 800.0 && p.precision == 0.0001
    requires 0.0 < p.physicalErrorRate && lib.ln(p.physicalErrorRate) != 0.0
    ensures var r := CalculateResources(lib, "quantum-chemistry", p);
      r.logicalGates == 5_120_000_000_000 && r.logicalQubits == 800
  {
    assert 800.0 * 800.0 * 800.0 / 0.0001 == 5_120_000_000_000 as real;
    RoundOfInteger(5_120_000_000_000);
    RoundOfInteger(800);
  }

  /** N = 800 for optimisation: alpha is the square root of 800 and the qubit count is log2(800) rounded. */
  lemma OptimizationScenario(lib: Library, p: Parameters)
    requires p.systemSize == 800.0 && p.precision != 0.0
    requires 0.0 < p.physicalErrorRate && lib.ln(p.physicalErrorRate) != 0.0
    ensures var r := CalculateResources(lib, "optimization", p);
      r.alpha == lib.sqrt(800.0) && r.logicalQubits == Round(lib.log2(800.0))
  {
  }

  /**
   * A system size of 1 is accepted and makes log2 N vanish: optimisation and
   * machine learning then report no logical and no physical qubits, optimisation
   * an alpha of sqrt(1) = 1, and machine learning no gates either.
   */
  lemma UnitSystemSizeDegenerates(lib: Library, d: Domain, p: Parameters)
    requires Lawful(lib) && (d.Optimization? || d.MachineLearning?)
    requires p.systemSize == 1.0 && p.precision != 0.0
    requires 0.0 < p.physicalErrorRate && lib.ln(p.physicalErrorRate) != 0.0
    ensures Evaluable(lib, d, p)
    ensures var r := Project(lib, Scale(lib, d, p), p.physicalErrorRate);
      && r.logicalQubits == 0 && r.physicalQubits == 0
      && (d.Optimization? ==> r.alpha == 1.0)
      && (d.MachineLearning? ==> r.logicalGates == 0)
  {
    RoundOfInteger(0);
    SqrtOfOne(lib);
  }

  // ---------------------------------------------------------------------------
  // Stage two

  lemma QuotientOfNegatives(a: real, b1: real, b2: real)
    requires a < 0.0 && b1 <= b2 < 0.0
    ensures 0.0 < a / b1 <= a / b2
  {
    var c, x, y := -a, -b1, -b2;
    assert a / b1 == c / x && a / b2 == c / y;
    var q1, q2 := c / x, c / y;
    assert q1 * x == c && q2 * y == c;
    assert 0.0 < q1 && 0.0 < q2;
    ProductMonotone(q2, y, x);
    assert q1 * x <= q2 * x;
    if q2 < q1 {
      ProductMonotone(x, q2, q1);
      assert false;
    }
  }

  lemma QuotientByNegative(a1: real, a2: real, b: real)
    requires a1 <= a2 && b < 0.0
    ensures a2 / b <= a1 / b
  {
    assert a1 / b - a2 / b == (a2 - a1) / (-b);
  }

  /** Below 1, a higher physical error rate never lowers the code distance. */
  lemma DistanceMonotoneInErrorRate(lib: Library, target: real, p1: real, p2: real)
    requires Lawful(lib) && 0.0 < target < 1.0
    requires 0.0 < p1 <= p2 < 1.0
    ensures Distance(lib, target, p1) <= Distance(lib, target, p2)
  {
    LnSign(lib, target);
    LnSign(lib, p1);
    LnSign(lib, p2);
    if p1 < p2 {
      assert lib.ln(p1) < lib.ln(p2);
    }
    QuotientOfNegatives(lib.ln(target), lib.ln(p1), lib.ln(p2));
    CeilMonotone(lib.ln(target) / lib.ln(p1), lib.ln(target) / lib.ln(p2));
  }

  /** For a fixed error rate below 1, a tighter (smaller) target never lowers the code distance. */
  lemma DistanceMonotoneInTarget(lib: Library, t1: real, t2: real, p: real)
    requires Lawful(lib) && 0.0 < t1 <= t2
    requires 0.0 < p < 1.0
    ensures Distance(lib, t2, p) <= Distance(lib, t1, p)
  {
    LnSign(lib, p);
    if t1 < t2 {
      assert lib.ln(t1) < lib.ln(t2);
    }
    QuotientByNegative(lib.ln(t1), lib.ln(t2), lib.ln(p));
    CeilMonotone(lib.ln(t2) / lib.ln(p), lib.ln(t1) / lib.ln(p));
  }

  /** An error rate above 1 is not rejected: the ratio is negative and the distance is the floor value 3. */
  lemma DistanceAboveOne(lib: Library, target: real, p: real)
    requires Lawful(lib) && 0.0 < target < 1.0 && 1.0 < p
    ensures Distance(lib, target, p) == 3
  {
    LnSign(lib, target);
    LnSign(lib, p);
    assert lib.ln(target) / lib.ln(p) < 0.0;
  }

  /** A concrete case where rounding first would give a different answer: 2.5 logical qubits round to 2, but 10 d^2 physical qubits are reported, not 8 d^2. */
  lemma PhysicalQubitsNotFromRoundedCount(d: int)
    requires 3 <= d
    ensures Round(2.5) == 2
    ensures PhysicalQubits(2.5, d) == 10 * (d * d)
    ensures PhysicalQubits(2.5, d) != 4 * Round(2.5) * (d * d)
  {
    RoundUnique(2.5, 2);
    SquareMonotone(3, d);
    assert TileFactor * 2.5 * Overhead(d) == (10 * (d * d)) as real;
    RoundUnique(TileFactor * 2.5 * Overhead(d), 10 * (d * d));
  }

  /** A larger code distance never gives fewer physical qubits (for a non-negative logical count). */
  lemma PhysicalQubitsMonotoneInDistance(qubits: real, d1: int, d2: int)
    requires 0.0 <= qubits && 0 <= d1 <= d2
    ensures PhysicalQubits(qubits, d1) <= PhysicalQubits(qubits, d2)
  {
    SquareMonotone(d1, d2);
    assert Overhead(d1) <= Overhead(d2);
    ProductNonNegative(TileFactor, qubits);
    ProductMonotone(TileFactor * qubits, Overhead(d1), Overhead(d2));
    RoundMonotone(TileFactor * qubits * Overhead(d1), TileFactor * qubits * Overhead(d2));
  }

  /** Below 1, a higher physical error rate never lowers the physical qubit count (for a non-negative logical count). */
  lemma PhysicalQubitsMonotoneInErrorRate(lib: Library, raw: Raw, p1: real, p2: real)
    requires Lawful(lib) && 0.0 <= raw.qubits
    requires 0.0 < p1 <= p2 < 1.0 && lib.ln(p1) != 0.0 && lib.ln(p2) != 0.0
    ensures Project(lib, raw, p1).physicalQubits <= Project(lib, raw, p2).physicalQubits
  {
    DistanceMonotoneInErrorRate(lib, TargetLogicalErrorRate, p1, p2);
    PhysicalQubitsMonotoneInDistance(raw.qubits, Distance(lib, TargetLogicalErrorRate, p1), Distance(lib, TargetLogicalErrorRate, p2));
  }

  /** A larger code distance never gives a shorter runtime (for a non-negative gate count). */
  lemma RuntimeHoursMonotoneInDistance(gates: real, d1: int, d2: int)
    requires 0.0 <= gates && d1 <= d2
    ensures RuntimeHours(gates, d1) <= RuntimeHours(gates, d2)
  {
    ProductMonotone(gates, d1 as real, d2 as real);
  }

  /** Below 1, a higher physical error rate never shortens the runtime (for a non-negative gate count). */
  lemma RuntimeMonotoneInErrorRate(lib: Library, raw: Raw, p1: real, p2: real)
    requires Lawful(lib) && 0.0 <= raw.gates
    requires 0.0 < p1 <= p2 < 1.0 && lib.ln(p1) != 0.0 && lib.ln(p2) != 0.0
    ensures Project(lib, raw, p1).runtimeHours <= Project(lib, raw, p2).runtimeHours
  {
    DistanceMonotoneInErrorRate(lib, TargetLogicalErrorRate, p1, p2);
    RuntimeHoursMonotoneInDistance(raw.gates, Distance(lib, TargetLogicalErrorRate, p1), Distance(lib, TargetLogicalErrorRate, p2));
  }

  /** A projection of non-negative stage-one quantities is non-negative throughout. */
  lemma ProjectNonNegative(lib: Library, raw: Raw, p: real)
    requires 0.0 < p && lib.ln(p) != 0.0
    requires 0.0 <= raw.alpha && 0.0 <= raw.gates && 0.0 <= raw.qubits
    ensures var r := Project(lib, raw, p);
      && 0 <= r.logicalGates && 0 <= r.logicalQubits && 0 <= r.physicalQubits
      && 0.0 <= r.runtimeHours && 0.0 <= r.alpha
  {
    var d := Distance(lib, TargetLogicalErrorRate, p);
    RoundNonNegative(raw.gates);
    RoundNonNegative(raw.qubits);
    SquareNonNegative(d);
    ProductNonNegative(TileFactor * raw.qubits, Overhead(d));
    ProductNonNegative(raw.gates, d as real);
  }

  /** For in-range inputs the whole report is non-negative, whichever key is given. */
  lemma ReportNonNegative(lib: Library, application: string, p: Parameters)
    requires Lawful(lib)
    requires 1.0 <= p.systemSize && 0.0 < p.precision && 0.0 < p.physicalErrorRate < 1.0
    requires 0.0 <= p.hoppingParameter && 0.0 <= p.interactionStrength
    ensures Evaluable(lib, DomainOf(application), p)
    ensures var r := CalculateResources(lib, application, p);
      && 0 <= r.logicalGates && 0 <= r.logicalQubits && 0 <= r.physicalQubits
      && 0.0 <= r.runtimeHours && 0.0 <= r.alpha
  {
    LnSign(lib, p.physicalErrorRate);
    ScaleNonNegative(lib, DomainOf(application), p);
    ProjectNonNegative(lib, Scale(lib, DomainOf(application), p), p.physicalErrorRate);
  }
}
