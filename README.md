# Simple Genetic Algorithm — a verified model

This project models the Simple Genetic Algorithm after Goldberg (1989),
*Genetic Algorithms in Search, Optimization and Machine Learning*, as
implemented in `src/ga/simple.py`. It consists of:

- `Chromosome`: a growable bit string whose index 0 is the least-significant
  bit. On every write it adjusts its `uint` field by ±2^key instead of
  recomputing it. It renders itself most-significant bit first.
- `Individual`: a chromosome together with its decoded value `x`, its
  fitness and its lineage (`parent1`, `parent2`, `xsite`).
- `SimpleGeneticAlgorithm`: the configuration, with `coef = 2^lchrom - 1`.
  It has one-point `crossover` into two fresh children, which counts
  crossovers in `ncross`. It has single-bit `mutate`, which counts mutations
  in `nmutation`. It also has `decode` (the chromosome's `uint`) and the
  objective `(x / coef)^10`. The objective raises `ZeroDivisionError` when
  `coef` is 0, and `OverflowError` when `x` or `coef` is too large for a
  double (`lchrom >= 1024`).
- `population`: fills `oldpop[0..popsize)` with random chromosomes of length
  `lchrom`, decodes each one, clears its lineage and evaluates its fitness.

The model has two modules:

- `Bits` (`bits.dfy`) holds the pure meaning of a chromosome. `Value` is
  the sum of `alleles[i]·2^i`. `Render` is the most-significant-bit-first
  string and `Parse` is its inverse. `Cross` is one-point crossover on
  sequences.
- `Simple` (`simple.dfy`) holds the imperative code as Dafny classes. Their
  methods change fields in place. `Chromosome.Valid()` is the invariant
  `uint == Value(alleles)`.

Each random draw the source makes becomes a parameter:

- `crossover` takes `doCross`, the outcome of `flip(pcross)`, and `site`,
  the result of `rnd(0, lchrom - 1)`.
- `mutate` takes `flipped`, the outcome of `flip(pmutation)`.
- `population` takes `draws`, the `popsize × lchrom` outcomes of
  `flip(0.5)`. Row `j` holds the draws for individual `j`, in the order
  they are drawn.

## Model

| member | source | states |
|---|---|---|
| Bits.ValueUpdate | src/ga/simple.py:81-86 | overwriting bit k takes away its old weight and adds its new weight (±2^k or nothing); every other bit keeps its contribution |
| Bits.ValueAppend | src/ga/simple.py:81-86 | appending a bit at position len adds 2^len when the bit is true and nothing when it is false |
| Bits.ValueBound | src/ga/simple.py:110 | a string of n bits denotes at most 2^n - 1, the value of coef when n is lchrom |
| Bits.CoefZero | src/ga/simple.py:110 | coef = 2^lchrom - 1 is zero exactly when lchrom is zero |
| Bits.Render | src/ga/simple.py:88-92 | the rendering has one character per allele |
| Bits.RenderAt | src/ga/simple.py:88-92 | character p of the rendering is '1' exactly when allele len-1-p is true; every character is '0' or '1' |
| Bits.Parse | src/ga/simple.py:88-92 | reading a string back gives one allele per character |
| Bits.ParseRender | src/ga/simple.py:88-92 | parsing the rendering gives back the alleles, so the string loses nothing |
| Bits.RenderParse | src/ga/simple.py:88-92 | every string of '0' and '1' characters is the rendering of the alleles it parses to |
| Bits.ParseExample | src/ga/simple.py:88-92 | "1011" is read most-significant bit first, giving alleles true, true, false, true |
| Bits.ValueExample | src/ga/simple.py:158-162 | alleles true, true, false, true denote 1 + 2 + 8 = 11 |
| Bits.RenderExample | src/ga/simple.py:88-92 | the same alleles render back to "1011" |
| Bits.DecodeExample | src/ga/simple.py:88-92 | "1011" parses to alleles that decode to 11 and render back to "1011" |
| Bits.Cross | src/ga/simple.py:136-144 | the child has lchrom bits; the bits below the site come from the first parent and the bits from the site up come from the second parent |
| Bits.CrossAtEnd | src/ga/simple.py:132-141 | when the site is lchrom there is no second exchange, and the child is a copy of its parent's first lchrom bits |
| Bits.CrossConserves | src/ga/simple.py:136-144 | at every position the two children's bits are, as a multiset, the two parents' bits |
| Simple.Chromosome.constructor | src/ga/simple.py:65-71 | a new chromosome has no alleles, uint == 0 and satisfies the invariant |
| Simple.Chromosome.Set | src/ga/simple.py:74-86 | an in-range key overwrites and key == len appends; uint moves by +2^key (false to true), by -2^key (true to false), by +2^key for an appended true, and not at all when the bit is unchanged; uint - Value(alleles) is kept, so the invariant is preserved |
| Simple.Chromosome.ToString | src/ga/simple.py:88-92 | the string has length len(alleles); character p is '1' exactly when allele len-1-p is true; only '0' and '1' occur; it equals Render(alleles) |
| Simple.Individual.constructor | src/ga/simple.py:57 | every attribute takes the value passed in |
| Simple.Individual.FromChromosome | src/ga/simple.py:121-122 | the chromosome is the one passed in; value, fitness and lineage take their defaults |
| Simple.SimpleGeneticAlgorithm.constructor | src/ga/simple.py:105-115 | popsize, lchrom, maxgen, pcross and pmutation default to 30, 30, 10, 0.6 and 0.033, as in the signature; the configuration is stored, coef = 2^lchrom - 1, both counters start at 0 and oldpop has popsize empty slots |
| Simple.DefaultAlgorithm | src/ga/simple.py:105-115 | with no arguments the algorithm has popsize 30, lchrom 30, maxgen 10, pcross 0.6, pmutation 0.033, coef = 2^30 - 1 and both counters at 0 |
| Simple.SimpleGeneticAlgorithm.Crossover | src/ga/simple.py:118-145 | the returned site is the drawn site when the flip succeeds and lchrom otherwise; ncross rises by exactly 1 on a successful flip and is unchanged otherwise; the two children and their two chromosomes are fresh and distinct; child1 = parent1[0..site) ++ parent2[site..lchrom) and child2 = parent2[0..site) ++ parent1[site..lchrom), each of length lchrom and satisfying the invariant; the parents are outside the frame, so they do not change |
| Simple.Put | src/ga/simple.py:137-138 | one write of a building loop: a chromosome equal to target[0..j) that receives target[j] at key j becomes target[0..j], with the invariant kept |
| Simple.FirstExchange | src/ga/simple.py:135-138 | writing the bits below jcross one by one makes each child equal to its own parent's prefix, with the invariant kept |
| Simple.SecondExchange | src/ga/simple.py:140-144 | writing the bits jcross..lchrom-1 one by one from the other parent completes both crossed children |
| Simple.SimpleGeneticAlgorithm.Mutate | src/ga/simple.py:147-155 | on a successful flip it complements bit i only, uint moves by ∓2^i, nmutation rises by 1 and the invariant is kept; on a failed flip the chromosome and the counter are unchanged |
| Simple.SimpleGeneticAlgorithm.Decode | src/ga/simple.py:158-162 | for a chromosome satisfying the invariant, the decoded value is the value of its alleles and lies in 0..2^len - 1 |
| Simple.ObjectiveBounds | src/ga/simple.py:164-168 | for 0 <= x <= coef, (x / coef)^10 lies in [0, 1]; x = 0 gives 0 and x = coef gives 1 |
| Simple.FitsBelow | src/ga/simple.py:168 | when coef converts to a double, so does every x in 0..coef |
| Simple.CoefOverflow | src/ga/simple.py:168 | coef = 2^lchrom - 1 is too large for a double exactly when lchrom >= 1024 |
| Simple.SimpleGeneticAlgorithm.ObjFunction | src/ga/simple.py:164-168 | OverflowError exactly when float(x) or the conversion of coef overflows; otherwise ZeroDivisionError exactly when coef is 0; for x in 0..coef the error is OverflowError exactly when coef overflows and ZeroDivisionError exactly when coef is 0; when coef > 0 converts, an x in 0..coef gets a fitness in [0, 1], with 0 and coef as the ends |
| Simple.RandomChromosome | src/ga/simple.py:50-52 | a fresh chromosome written allele by allele, each write appending, holds exactly the draws and satisfies the invariant |
| Simple.SeedIndividual | src/ga/simple.py:50-57 | the new individual has the drawn alleles, x == uint within 0..coef, lchrom bits, zero lineage and no fitness yet |
| Simple.Evaluate | src/ga/simple.py:58 | for a seeded individual, OverflowError is raised exactly when lchrom >= 1024 and ZeroDivisionError exactly when lchrom is 0; otherwise the fitness becomes the objective of x, in [0, 1]; after an error the fitness stays unset |
| Simple.Population | src/ga/simple.py:35-58 | no exception exactly when popsize == 0 or 0 < lchrom < 1024; then every slot 0..popsize-1 holds a fresh and distinct individual whose chromosome is that slot's draws, with x == uint in 0..coef, zero lineage and fitness objfunction(x) in [0, 1]. With popsize > 0, ZeroDivisionError is raised exactly when lchrom == 0 and OverflowError exactly when lchrom >= 1024; either stops the run after slot 0 is stored without a fitness, and the other slots are unchanged |

`Pow2` (Python's `pow(2, k)`), `Power` (the real power in the objective)
and `Shr` (a right shift, `v >> k`) are helper functions for the
specification. So is `FloatOverflows` (src/ga/simple.py:168). It holds when
`float(v)` raises `OverflowError` in CPython. Rounding to nearest, ties to
even, overflows when |v| >= 2^1024 - 2^970. `FloatOverflows` decides every
`OverflowError` in `ObjFunction`, `Evaluate` and `Population`. The lemmas `ShrMono`, `ShrPow2`, `ShrOnes` and `OnesShifted`
are the arithmetic behind `FitsBelow` and `CoefOverflow`.

## Left out

- The random number generator (`flip`, `rnd`) is not modelled. Each draw
  is a parameter, and the drawn site is required to lie in `0..lchrom-1`.
- The base classes `ga.common.Chromosome`, `GeneticAlgorithm` and
  `Individual` are not part of this model. The assumptions the model makes
  about them are listed below.
- Simple.Chromosome.constructor: assumes the base constructor leaves
  `alleles` empty. The base class is not shown, and its docstring speaks of
  populating the alleles "to the length". The doctest of `__setitem__` at
  src/ga/simple.py:77-78 writes `chrom[1]=True` on a new chromosome and
  expects no error. That is either a sign that a new chromosome is not
  empty, or a write past the end, which this model cannot express.
- Simple.Chromosome.Set: assumes item assignment in the base class
  overwrites when `key < len` and appends when `key == len`. It requires
  `key <= len`, because what the base class does for `key > len` is not
  shown. This excludes the source's own doctest at src/ga/simple.py:77-78,
  `chrom[1]=True` on a new chromosome, which is key 1 with length 0 under the
  empty-constructor assumption. Line 83 then adds `pow(2, 1) = 2` to `uint`.
  Whether `uint == Value(alleles)` survives that depends on the base class.
  It survives if the base pads position 0 with False (alleles false, true;
  value 2). It breaks if the base appends (alleles true; value 1, uint 2).
- Simple.Chromosome.Set: keys are natural numbers. A negative key would
  index from the end in Python, and `pow(2, key)` would make `uint` a
  float; neither is modelled.
- Simple.SimpleGeneticAlgorithm.Mutate: the bit index is a natural number,
  for the same reason.
- Simple.Individual.constructor: assumes the positional call stores each
  argument in the attribute of the same name (`chrom`, `lchrom`, `x`,
  `fitness`, `parent1`, `parent2`, `xsite`).
- Simple.Individual.FromChromosome: assumes `Individual(chrom=c)` sets
  `lchrom`, `x`, `parent1`, `parent2` and `xsite` to 0 and leaves the fitness
  unset. The real defaults are not shown.
- Simple.SimpleGeneticAlgorithm.constructor: assumes the base constructor
  stores `popsize`, `maxgen`, `pcross` and `pmutation`, sets both counters
  to 0 and gives `oldpop` popsize empty slots. The `random` argument is not
  modelled, since every draw is a parameter. The source suggests the base
  constructor may do more. The docstring at src/ga/simple.py:106-107 says
  the constructor initializes the population with random individuals.
  Also, `initializePop` is bound at src/ga/simple.py:113, before the base
  constructor runs at src/ga/simple.py:115. If the base constructor calls
  `population(self)`, construction would already fill `oldpop`. With
  `popsize > 0` it would then raise ZeroDivisionError for `lchrom == 0` and
  OverflowError for `lchrom >= 1024`. The model, `DefaultAlgorithm`
  included, starts with empty slots, and `Population` is a separate call.
- Simple.SimpleGeneticAlgorithm.constructor: `popsize`, `lchrom` and
  `maxgen` are natural numbers. The source accepts negative values. With
  `lchrom = -1`, `pow(2, -1) - 1` at src/ga/simple.py:110 makes `coef` the
  float -0.5. Negative configurations are not modelled.
- Simple.SimpleGeneticAlgorithm.Mutate: requires `i < len` on a successful
  flip. An out-of-range index would fail in the base class's item access,
  which is not shown.
- Simple.SimpleGeneticAlgorithm.Crossover: requires both parents to have at
  least `lchrom` alleles. With shorter parents the base class's item access
  fails, and that is not shown.
- The generational driver, selection and statistics live in the base class
  and are not modelled.
- The `verbose` flag, the `initializePop` lambda binding and the module
  metadata are plumbing only, and are not modelled.
- Simple.SimpleGeneticAlgorithm.ObjFunction: computed over exact reals.
  Python's floating-point rounding of `float(x) / coef` and of the tenth
  power is not modelled. The `OverflowError` of converting `x` or `coef` to
  a double is modelled. The `OverflowError` that `pow` itself raises when
  `|x / coef|^10` exceeds the largest double is not modelled; that needs
  `|x| > coef`, which `population` never produces.
- `uint` is Python's unbounded integer, so it is modelled as `int` and
  there is no overflow.
- Simple.Population: the inner loop and the two steps of each iteration
  are factored into `RandomChromosome`, `SeedIndividual` and `Evaluate`.
  Likewise, the two exchange loops of crossover are factored into
  `FirstExchange` and `SecondExchange`. Each single write in these loops
  goes through `Put`. The order of every write is the source's order.
- Simple.Population: an exception is returned as `Some(error)`, not raised.
- Simple.SimpleGeneticAlgorithm.Mutate: returns nothing, like the code.
  Whether a flip happened shows only in `nmutation`.
