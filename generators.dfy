/**
 * The two pseudo-random generators, as functions of the seed they are reseeded with.
 * The program reseeds a shared generator before every unit of work, so every draw
 * it makes is a function of the last seed and of how many draws came before it.
 */
module Generators {
  import opened Constants

  datatype Generators = Generators(
    /** `random.seed(s); random.shuffle(PHASES.copy())` */
    shuffle: int -> seq<int>,
    /** `random.seed(s); random.random()`: the first Python draw after seeding */
    pyRandom: int -> real,
    /** `np.random.seed(s)` followed by k earlier draws: the next sample in [0, 1) */
    npSample: (int, nat) -> real,
    /** `np.random.seed(s); np.random.choice(['red', 'black'], p=[p, 1 - p]) == 'red'` */
    npRedBlack: (int, real) -> bool,
    /** `np.random.seed(s); np.random.choice(['gold', 'silver']) == 'gold'` */
    npGold: int -> bool)
  {
    /** The range and membership facts the model relies on. */
    ghost predicate Valid()
    {
      && (forall s :: multiset(shuffle(s)) == multiset(PHASES))
      && (forall s :: 0.0 <= pyRandom(s) < 1.0)
      && (forall s, k :: 0.0 <= npSample(s, k) < 1.0)
    }
  }

  /** `np.random.uniform(lo, hi)` as the k-th numpy draw after seeding with `seed`. */
  function Uniform(gen: Generators, seed: int, k: nat, lo: real, hi: real): real
  {
    lo + (hi - lo) * gen.npSample(seed, k)
  }

  lemma UniformInRange(gen: Generators, seed: int, k: nat, lo: real, hi: real)
    requires gen.Valid() && lo <= hi
    ensures lo <= Uniform(gen, seed, k, lo, hi) <= hi
  {
    var u := gen.npSample(seed, k);
    assert 0.0 <= u < 1.0;
    ScaleBounds(lo, hi, u);
  }

  /** Scaling a width by a sample from [0, 1) stays inside the width. */
  lemma ScaleBounds(lo: real, hi: real, u: real)
    requires lo <= hi && 0.0 <= u < 1.0
    ensures lo <= lo + (hi - lo) * u <= hi
  {
    var w := hi - lo;
    ProductNonNegative(w, u);
    ProductNonNegative(w, 1.0 - u);
    assert w * (1.0 - u) == w - w * u;
  }

  lemma ProductNonNegative(a: real, b: real)
    requires 0.0 <= a && 0.0 <= b
    ensures 0.0 <= a * b
  {
  }

  /** A permutation of the canonical phases has three entries, each one of the phases. */
  lemma PhasePermutation(s: seq<int>)
    requires multiset(s) == multiset(PHASES)
    ensures |s| == |PHASES|
    ensures forall i :: 0 <= i < |s| ==> s[i] in PHASES
  {
    assert |s| == |multiset(s)|;
    forall i | 0 <= i < |s| ensures s[i] in PHASES {
      assert s[i] in multiset(s);
    }
  }

  /** Every shuffled order is such a permutation. */
  lemma ShuffleIsPermutation(gen: Generators, seed: int)
    requires gen.Valid()
    ensures |gen.shuffle(seed)| == |PHASES|
    ensures forall i :: 0 <= i < |gen.shuffle(seed)| ==> gen.shuffle(seed)[i] in PHASES
  {
    PhasePermutation(gen.shuffle(seed));
  }
}
