/**
 * The static catalogue of application domains (the `applications` dictionary).
 * It is fixed data: four entries, listed in the order the dictionary
 * declares them, which is the order the domain selector offers them in.
 */
module Registry {

  datatype Option<T> = None | Some(value: T)

  datatype Application = Application(
    name: string,
    description: string,
    primitives: seq<string>,
    complexity: string,
    classicalChallenge: string)

  /** The dictionary's keys in declaration order (`list(applications.keys())`). */
  const Keys: seq<string> := ["fermi-hubbard", "quantum-chemistry", "optimization", "machine-learning"]

  const Applications: map<string, Application> := map[
    "fermi-hubbard" := Application(
      "Fermi-Hubbard Model",
      "Quantum simulation of electronic materials and superconductors",
      ["Quantum Phase Estimation", "Qubitization", "Block Encoding", "State Preparation"],
      "O(N log N / \U{03B5})",
      "Exponential scaling for 2D systems"),
    "quantum-chemistry" := Application(
      "Quantum Chemistry",
      "Molecular ground state energy calculation",
      ["Hamiltonian Simulation", "Variational Quantum Eigensolver", "Amplitude Amplification"],
      "O(N^3 / \U{03B5})",
      "Exponential scaling with system size"),
    "optimization" := Application(
      "Quantum Optimization",
      "Solving combinatorial optimization problems",
      ["Grover's Algorithm", "Quantum Approximate Optimization", "Amplitude Amplification"],
      "O(\U{221A}N)",
      "NP-hard problems"),
    "machine-learning" := Application(
      "Quantum Machine Learning",
      "Quantum-enhanced learning algorithms",
      ["Quantum Linear Algebra", "Quantum Principal Component Analysis", "Quantum Support Vector Machines"],
      "O(log N)",
      "Feature space dimensionality")
  ]

  /** Dictionary lookup: present exactly for the listed keys. */
  function Lookup(key: string): (r: Option<Application>)
    ensures r.Some? <==> key in Keys
    ensures r.Some? ==> key in Applications && r.value == Applications[key]
  {
    if key in Applications then Some(Applications[key]) else None
  }

  /** The ordered key list and the dictionary describe the same four distinct domains. */
  lemma KeysEnumerateApplications()
    ensures |Keys| == 4
    ensures forall i, j :: 0 <= i < j < |Keys| ==> Keys[i] != Keys[j]
    ensures forall k :: k in Keys <==> k in Applications
  {
  }

  /** Every key the domain selector offers resolves to an entry whose display fields are filled in. */
  lemma SelectorLookupsHit(key: string)
    requires key in Keys
    ensures Lookup(key).Some?
    ensures Lookup(key).value.name != [] && Lookup(key).value.primitives != []
  {
  }
}
