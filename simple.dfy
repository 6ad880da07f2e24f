/**
 * The Simple Genetic Algorithm after Goldberg (1989): a growable bit-string
 * chromosome that keeps its unsigned value up to date on every write, the
 * individual that carries it, one-point crossover, single-bit mutation,
 * decoding, the x^10 objective and the random initial population.
 *
 * Every random draw is a parameter: the outcome of flip(pcross) and the site
 * from rnd(0, lchrom - 1) for crossover, the outcome of flip(pmutation) for
 * mutation, and the popsize * lchrom outcomes of flip(0.5) for the initial
 * population, row j holding the draws for individual j in draw order.
 */
module Simple {
  import opened Bits

  datatype Option<T> = None | Some(value: T)

  /** The Python exceptions the objective can raise. */
  datatype Error = ZeroDivisionError | OverflowError

  /** The outcome of a computation that can raise one of those exceptions. */
  datatype Result<T> = Ok(value: T) | Err(error: Error)

  /** An artificial chromosome: alleles (index 0 least significant) and their unsigned value. */
  class Chromosome {
    var alleles: seq<bool>
    var uint: int

    /** The representation invariant: uint is the value the alleles denote. */
    ghost predicate Valid()
      reads this
    {
      uint == Value(alleles)
    }

    /** A new chromosome has no alleles and value 0. */
    constructor ()
      ensures Valid()
      ensures alleles == [] && uint == 0
    {
      alleles := [];
      uint := 0;
    }

    /** Reads allele i, as chrom[i]. */
    function Get(i: nat): (b: bool)
      reads this
      requires i < |alleles|
    {
      alleles[i]
    }

    /**
     * chrom[key] = item: adjusts uint by +2^key or -2^key only when the bit
     * actually changes (or is appended as true), then stores the allele.
     */
    method Set(key: nat, item: bool)
      requires key <= |alleles|
      modifies this
      ensures alleles == if key < |old(alleles)| then old(alleles)[key := item] else old(alleles) + [item]
      ensures uint == old(uint) + Weight(item, key) -
        if key < |old(alleles)| then Weight(old(alleles)[key], key) else 0
      ensures key < |old(alleles)| && item == old(alleles)[key] ==>
        alleles == old(alleles) && uint == old(uint)
      ensures key < |old(alleles)| && !old(alleles)[key] && item ==> uint == old(uint) + Pow2(key)
      ensures key < |old(alleles)| && old(alleles)[key] && !item ==> uint == old(uint) - Pow2(key)
      ensures uint - Value(alleles) == old(uint) - Value(old(alleles))
      ensures old(Valid()) ==> Valid()
    {
      if key >= |alleles| || item != alleles[key] {
        if item {
          uint := uint + Pow2(key);
        } else if key < |alleles| {
          uint := uint - Pow2(key);
        }
      }
      if key < |alleles| {
        ValueUpdate(alleles, key, item);
        alleles := alleles[key := item];
      } else {
        ValueAppend(alleles, item);
        alleles := alleles + [item];
      }
    }

    /** str(chrom): one character per allele, most-significant bit first. */
    method ToString() returns (s: string)
      ensures |s| == |alleles|
      ensures forall p :: 0 <= p < |s| ==> (s[p] == '1' <==> alleles[|alleles| - 1 - p])
      ensures IsBinary(s)
      ensures s == Render(alleles)
    {
      s := "";
      var i := |alleles|;
      while i > 0
        invariant 0 <= i <= |alleles|
        invariant |s| == |alleles| - i
        invariant forall p :: 0 <= p < |s| ==> s[p] == BitChar(alleles[|alleles| - 1 - p])
      {
        i := i - 1;
        s := s + [BitChar(alleles[i])];
      }
      forall p | 0 <= p < |s| ensures s[p] == Render(alleles)[p] {
        RenderAt(alleles, p);
      }
    }
  }

  /** An individual: a chromosome with its decoded value, fitness and lineage. */
  class Individual {
    var chrom: Chromosome
    var lchrom: nat
    var x: int
    var fitness: Option<real>
    var parent1: nat
    var parent2: nat
    var xsite: nat

    constructor (chrom: Chromosome, lchrom: nat, x: int, fitness: Option<real>,
                 parent1: nat, parent2: nat, xsite: nat)
      ensures this.chrom == chrom && this.lchrom == lchrom && this.x == x
      ensures this.fitness == fitness
      ensures this.parent1 == parent1 && this.parent2 == parent2 && this.xsite == xsite
    {
      this.chrom := chrom;
      this.lchrom := lchrom;
      this.x := x;
      this.fitness := fitness;
      this.parent1 := parent1;
      this.parent2 := parent2;
      this.xsite := xsite;
    }

    /** Individual(chrom=c): the other attributes take their defaults. */
    constructor FromChromosome(chrom: Chromosome)
      ensures this.chrom == chrom
      ensures lchrom == 0 && x == 0 && fitness == None
      ensures parent1 == 0 && parent2 == 0 && xsite == 0
    {
      this.chrom := chrom;
      lchrom := 0;
      x := 0;
      fitness := None;
      parent1 := 0;
      parent2 := 0;
      xsite := 0;
    }
  }

  /** 10th (or any natural) power of a real, for the objective x^n. */
  function Power(b: real, n: nat): (p: real)
  {
    if n == 0 then 1.0 else b * Power(b, n - 1)
  }

  lemma MulNonneg(a: real, b: real)
    requires 0.0 <= a && 0.0 <= b
    ensures 0.0 <= a * b
  {
  }

  lemma MulAtMost(a: real, b: real)
    requires 0.0 <= a <= 1.0 && 0.0 <= b
    ensures a * b <= b
  {
    assert b - a * b == (1.0 - a) * b;
    MulNonneg(1.0 - a, b);
  }

  /** The extremes of the unit interval are fixed points of every positive power. */
  lemma {:induction false} PowerEnds(n: nat)
    requires n > 0
    ensures Power(0.0, n) == 0.0 && Power(1.0, n) == 1.0
  {
    if n > 1 {
      PowerEnds(n - 1);
    }
  }

  /** A power of a number in the unit interval stays in the unit interval. */
  lemma {:induction false} PowerUnit(b: real, n: nat)
    requires 0.0 <= b <= 1.0
    ensures 0.0 <= Power(b, n) <= 1.0
  {
    if n > 0 {
      PowerUnit(b, n - 1);
      var p := Power(b, n - 1);
      assert 0.0 <= b * p by { MulNonneg(b, p); }
      assert b * p <= p by { MulAtMost(b, p); }
    }
  }

  /** The objective (x / coef)^10 maps 0..coef into the unit interval, 0 to 0 and coef to 1. */
  lemma ObjectiveBounds(x: int, coef: int)
    requires coef != 0
    ensures coef > 0 && 0 <= x <= coef ==> 0.0 <= Power(x as real / coef as real, 10) <= 1.0
    ensures x == 0 ==> Power(x as real / coef as real, 10) == 0.0
    ensures x == coef ==> Power(x as real / coef as real, 10) == 1.0
  {
    var b := x as real / coef as real;
    PowerEnds(10);
    if coef > 0 && 0 <= x <= coef {
      assert 0.0 <= b <= 1.0;
      PowerUnit(b, 10);
    }
    if x == coef {
      assert b == 1.0;
    }
  }

  /**
   * float(v) on a Python int raises OverflowError when |v|, rounded to the
   * nearest IEEE 754 double (53-bit significand, ties to even), reaches
   * 2^1024: that is, when |v| >= 2^1024 - 2^970 = (2^54 - 1) * 2^970, or
   * equivalently floor(|v| / 2^970) + 1 >= 2^54.
   */
  predicate FloatOverflows(v: int)
  {
    Shr(Shr(if v < 0 then -v else v, 970) + 1, 54) > 0
  }

  /** When b converts to a double, so does every number in 0..b. */
  lemma FitsBelow(a: int, b: int)
    ensures 0 <= a <= b && !FloatOverflows(b) ==> !FloatOverflows(a)
  {
    if 0 <= a <= b {
      ShrMono(a, b, 970);
      ShrMono(Shr(a, 970) + 1, Shr(b, 970) + 1, 54);
    }
  }

  /** coef = 2^lchrom - 1 converts to a double exactly when lchrom is below 1024. */
  lemma CoefOverflow(n: nat)
    ensures FloatOverflows(Pow2(n) - 1) <==> n >= 1024
  {
    OnesShifted(n, 970, 54);
  }

  /** The algorithm's configuration, its event counters and its current population. */
  class SimpleGeneticAlgorithm {
    var popsize: nat
    var lchrom: nat
    var maxgen: nat
    var pcross: real
    var pmutation: real
    var coef: int
    var ncross: nat
    var nmutation: nat
    var oldpop: array<Individual?>

    /** coef normalises decoded values; oldpop has one slot per individual. */
    ghost predicate Valid()
      reads this
    {
      coef == Pow2(lchrom) - 1 && oldpop.Length == popsize
    }

    /** The configuration, with the defaults of Python's keyword arguments
        (popsize=30, lchrom=30, maxgen=10, pcross=0.6, pmutation=0.033). */
    constructor (popsize: nat := 30, lchrom: nat := 30, maxgen: nat := 10,
                 pcross: real := 0.6, pmutation: real := 0.033)
      ensures Valid() && fresh(oldpop)
      ensures this.popsize == popsize && this.lchrom == lchrom && this.maxgen == maxgen
      ensures this.pcross == pcross && this.pmutation == pmutation
      ensures coef == Pow2(lchrom) - 1
      ensures ncross == 0 && nmutation == 0
      ensures forall j :: 0 <= j < oldpop.Length ==> oldpop[j] == null
    {
      this.lchrom := lchrom;
      coef := Pow2(lchrom) - 1;
      this.popsize := popsize;
      this.maxgen := maxgen;
      this.pcross := pcross;
      this.pmutation := pmutation;
      ncross := 0;
      nmutation := 0;
      oldpop := new Individual?[popsize](_ => null);
    }

    /**
     * One-point crossover of two parents into two fresh children. doCross is
     * the outcome of flip(pcross) and site the draw of rnd(0, lchrom - 1).
     * Without a draw the site is lchrom and the children are copies.
     */
    method Crossover(indiv1: Individual, indiv2: Individual, doCross: bool, site: nat)
      returns (jcross: nat, indivc1: Individual, indivc2: Individual)
      requires lchrom <= |indiv1.chrom.alleles| && lchrom <= |indiv2.chrom.alleles|
      requires doCross ==> site < lchrom
      modifies this`ncross
      ensures jcross == if doCross then site else lchrom
      ensures ncross == old(ncross) + if doCross then 1 else 0
      ensures fresh(indivc1) && fresh(indivc2) && fresh(indivc1.chrom) && fresh(indivc2.chrom)
      ensures indivc1 != indivc2 && indivc1.chrom != indivc2.chrom
      ensures indivc1.chrom.alleles == Cross(indiv1.chrom.alleles, indiv2.chrom.alleles, jcross, lchrom)
      ensures indivc2.chrom.alleles == Cross(indiv2.chrom.alleles, indiv1.chrom.alleles, jcross, lchrom)
      ensures indivc1.chrom.Valid() && indivc2.chrom.Valid()
    {
      var child1 := new Chromosome();
      var child2 := new Chromosome();
      indivc1 := new Individual.FromChromosome(child1);
      indivc2 := new Individual.FromChromosome(child2);
      var parent1 := indiv1.chrom;
      var parent2 := indiv2.chrom;

      if doCross {
        jcross := site;
        ncross := ncross + 1;
      } else {
        jcross := lchrom;
      }

      FirstExchange(child1, child2, parent1, parent2, jcross);
      if jcross != lchrom {
        SecondExchange(child1, child2, parent1, parent2, jcross, lchrom);
      } else {
        CrossAtEnd(parent1.alleles, parent2.alleles, lchrom);
        CrossAtEnd(parent2.alleles, parent1.alleles, lchrom);
      }
    }

    /** Mutates allele i of chrom when flipped, the outcome of flip(pmutation). */
    method Mutate(i: nat, chrom: Chromosome, flipped: bool)
      requires flipped ==> i < |chrom.alleles|
      modifies this`nmutation, chrom
      ensures nmutation == old(nmutation) + if flipped then 1 else 0
      ensures flipped ==> chrom.alleles == old(chrom.alleles)[i := !old(chrom.alleles)[i]]
      ensures flipped ==>
        chrom.uint == if old(chrom.alleles)[i] then old(chrom.uint) - Pow2(i) else old(chrom.uint) + Pow2(i)
      ensures !flipped ==> chrom.alleles == old(chrom.alleles) && chrom.uint == old(chrom.uint)
      ensures old(chrom.Valid()) ==> chrom.Valid()
    {
      if flipped {
        nmutation := nmutation + 1;
        chrom.Set(i, if chrom.Get(i) then false else true);
      }
    }

    /** Decodes a chromosome as an unsigned binary integer: its uint. */
    function Decode(chrom: Chromosome): (x: int)
      reads chrom
      ensures chrom.Valid() ==> x == Value(chrom.alleles)
      ensures chrom.Valid() ==> 0 <= x <= Pow2(|chrom.alleles|) - 1
    {
      ValueBound(chrom.alleles);
      chrom.uint
    }

    /**
     * Fitness f(x) = float(x) / coef raised to the 10th power. Converting x,
     * then coef, to a double raises OverflowError when it is too large; a
     * zero coef then raises ZeroDivisionError.
     */
    function ObjFunction(individual: Individual): (r: Result<real>)
      reads this`coef, individual`x
      ensures r == Err(OverflowError) <==> FloatOverflows(individual.x) || FloatOverflows(coef)
      ensures r == Err(ZeroDivisionError) <==> !FloatOverflows(individual.x) && coef == 0
      ensures 0 <= individual.x <= coef ==>
        (r == Err(OverflowError) <==> FloatOverflows(coef)) &&
        (r == Err(ZeroDivisionError) <==> coef == 0)
      ensures coef > 0 && !FloatOverflows(coef) && 0 <= individual.x <= coef ==>
        r.Ok? && 0.0 <= r.value <= 1.0
      ensures coef > 0 && !FloatOverflows(coef) && individual.x == 0 ==> r == Ok(0.0)
      ensures coef > 0 && !FloatOverflows(coef) && individual.x == coef ==> r == Ok(1.0)
    {
      FitsBelow(individual.x, coef);
      if FloatOverflows(individual.x) || FloatOverflows(coef) then Err(OverflowError)
      else if coef == 0 then Err(ZeroDivisionError)
      else
        ObjectiveBounds(individual.x, coef);
        Ok(Power(individual.x as real / coef as real, 10))
    }
  }

  /** SimpleGeneticAlgorithm(random) with every keyword argument left at its default. */
  method DefaultAlgorithm() returns (ga: SimpleGeneticAlgorithm)
    ensures ga.Valid()
    ensures ga.popsize == 30 && ga.lchrom == 30 && ga.maxgen == 10
    ensures ga.pcross == 0.6 && ga.pmutation == 0.033
    ensures ga.coef == Pow2(30) - 1 && ga.ncross == 0 && ga.nmutation == 0
  {
    ga := new SimpleGeneticAlgorithm();
  }

  /** What both exchange loops of crossover need: four chromosomes, the children distinct from all others. */
  predicate Disjoint(child1: Chromosome, child2: Chromosome, parent1: Chromosome, parent2: Chromosome)
  {
    child1 != child2 &&
    child1 != parent1 && child1 != parent2 && child2 != parent1 && child2 != parent2
  }

  /** One write of a loop that builds chromosome child as a copy of target, bit by bit. */
  method Put(child: Chromosome, j: nat, item: bool, ghost target: seq<bool>)
    requires j < |target| && item == target[j]
    requires child.alleles == target[..j] && child.Valid()
    modifies child
    ensures child.alleles == target[..j + 1] && child.Valid()
  {
    child.Set(j, item);
    SliceExtend(target, j);
  }

  /** The first exchange of crossover: child1[j] = parent1[j] and child2[j] = parent2[j] for j below jcross. */
  method FirstExchange(child1: Chromosome, child2: Chromosome, parent1: Chromosome, parent2: Chromosome, jcross: nat)
    requires Disjoint(child1, child2, parent1, parent2)
    requires child1.alleles == [] && child2.alleles == [] && child1.Valid() && child2.Valid()
    requires jcross <= |parent1.alleles| && jcross <= |parent2.alleles|
    modifies child1, child2
    ensures child1.alleles == parent1.alleles[..jcross] && child1.Valid()
    ensures child2.alleles == parent2.alleles[..jcross] && child2.Valid()
  {
    var j := 0;
    while j < jcross
      invariant 0 <= j <= jcross
      invariant child1.alleles == parent1.alleles[..j] && child1.Valid()
      invariant child2.alleles == parent2.alleles[..j] && child2.Valid()
    {
      Put(child1, j, parent1.Get(j), parent1.alleles);
      Put(child2, j, parent2.Get(j), parent2.alleles);
      j := j + 1;
    }
  }

  /**
   * The second exchange of crossover: child1[j] = parent2[j] and
   * child2[j] = parent1[j] for j from jcross up to lchrom.
   */
  method SecondExchange(child1: Chromosome, child2: Chromosome, parent1: Chromosome, parent2: Chromosome,
                        jcross: nat, lchrom: nat)
    requires Disjoint(child1, child2, parent1, parent2)
    requires jcross <= lchrom <= |parent1.alleles| && lchrom <= |parent2.alleles|
    requires child1.alleles == parent1.alleles[..jcross] && child1.Valid()
    requires child2.alleles == parent2.alleles[..jcross] && child2.Valid()
    modifies child1, child2
    ensures child1.alleles == Cross(parent1.alleles, parent2.alleles, jcross, lchrom) && child1.Valid()
    ensures child2.alleles == Cross(parent2.alleles, parent1.alleles, jcross, lchrom) && child2.Valid()
  {
    ghost var x1 := Cross(parent1.alleles, parent2.alleles, jcross, lchrom);
    ghost var x2 := Cross(parent2.alleles, parent1.alleles, jcross, lchrom);
    assert x1[..jcross] == parent1.alleles[..jcross] && x2[..jcross] == parent2.alleles[..jcross];
    var j := jcross;
    while j < lchrom
      invariant jcross <= j <= lchrom
      invariant child1.alleles == x1[..j] && child1.Valid()
      invariant child2.alleles == x2[..j] && child2.Valid()
    {
      Put(child1, j, parent2.Get(j), x1);
      Put(child2, j, parent1.Get(j), x2);
      j := j + 1;
    }
    assert x1[..lchrom] == x1 && x2[..lchrom] == x2;
  }

  /**
   * The inner loop of population(ga): a new chromosome receives the draws
   * of flip(0.5) one allele at a time, each write appending.
   */
  method RandomChromosome(flips: seq<bool>) returns (chrom: Chromosome)
    ensures fresh(chrom)
    ensures chrom.alleles == flips && chrom.Valid()
  {
    chrom := new Chromosome();
    var j1 := 0;
    while j1 < |flips|
      modifies chrom
      invariant 0 <= j1 <= |flips|
      invariant chrom.alleles == flips[..j1] && chrom.Valid()
    {
      Put(chrom, j1, flips[j1], flips);
      j1 := j1 + 1;
    }
    assert flips[..|flips|] == flips;
  }

  /** The state population(ga) leaves in a slot: a random individual without lineage. */
  ghost predicate Seeded(ga: SimpleGeneticAlgorithm, ind: Individual, bits: seq<bool>)
    reads ga`lchrom, ga`coef, ind`chrom, ind`lchrom, ind`x, ind`parent1, ind`parent2, ind`xsite, ind.chrom
  {
    ind.chrom.alleles == bits && ind.chrom.Valid() &&
    ind.lchrom == ga.lchrom &&
    ind.x == ind.chrom.uint && 0 <= ind.x <= ga.coef &&
    ind.parent1 == 0 && ind.parent2 == 0 && ind.xsite == 0
  }

  /** A slot population(ga) has finished: seeded, and its fitness is the objective of its x, in [0, 1]. */
  ghost predicate Evaluated(ga: SimpleGeneticAlgorithm, ind: Individual, bits: seq<bool>)
    reads ga`lchrom, ga`coef, ind`chrom, ind`lchrom, ind`x, ind`parent1, ind`parent2, ind`xsite, ind`fitness, ind.chrom
  {
    Seeded(ga, ind, bits) &&
    ga.ObjFunction(ind).Ok? && ind.fitness == Some(ga.ObjFunction(ind).value) &&
    0.0 <= ind.fitness.value <= 1.0
  }

  /** One iteration of population(ga) up to storing: a random chromosome, decoded, without lineage. */
  method SeedIndividual(ga: SimpleGeneticAlgorithm, bits: seq<bool>) returns (ind: Individual)
    requires ga.Valid() && |bits| == ga.lchrom
    ensures fresh(ind) && fresh(ind.chrom)
    ensures Seeded(ga, ind, bits) && ind.fitness == None
  {
    var chrom := RandomChromosome(bits);
    var x := ga.Decode(chrom);
    var parent1, parent2, xsite := 0, 0, 0;
    ind := new Individual(chrom, ga.lchrom, x, None, parent1, parent2, xsite);
  }

  /**
   * The rest of one iteration: the objective becomes the fitness, unless
   * converting coef to a double overflows or coef is zero.
   */
  method Evaluate(ga: SimpleGeneticAlgorithm, ind: Individual, bits: seq<bool>) returns (raised: Option<Error>)
    requires ga.Valid() && Seeded(ga, ind, bits) && ind.fitness == None
    modifies ind`fitness
    ensures raised == Some(OverflowError) <==> ga.lchrom >= 1024
    ensures raised == Some(ZeroDivisionError) <==> ga.lchrom == 0
    ensures raised == None <==> 0 < ga.lchrom < 1024
    ensures raised == None ==> Evaluated(ga, ind, bits)
    ensures raised != None ==> ind.fitness == None
  {
    CoefZero(ga.lchrom);
    CoefOverflow(ga.lchrom);
    var fit := ga.ObjFunction(ind);
    if fit.Err? {
      return Some(fit.error);
    }
    ind.fitness := Some(fit.value);
    raised := None;
  }

  /**
   * population(ga): fills oldpop[0..popsize) with fresh chromosomes whose
   * alleles are the draws of flip(0.5), decoded, without lineage and with
   * their fitness. With lchrom == 0 the objective divides by zero, and with
   * lchrom >= 1024 coef is too large for a double: the exception stops the
   * run after storing oldpop[0] without a fitness, and is returned.
   */
  method Population(ga: SimpleGeneticAlgorithm, draws: seq<seq<bool>>) returns (raised: Option<Error>)
    requires ga.Valid()
    requires |draws| == ga.popsize
    requires forall j :: 0 <= j < |draws| ==> |draws[j]| == ga.lchrom
    modifies ga.oldpop
    ensures raised == None <==> ga.popsize == 0 || 0 < ga.lchrom < 1024
    ensures raised == Some(ZeroDivisionError) <==> ga.popsize > 0 && ga.lchrom == 0
    ensures raised == Some(OverflowError) <==> ga.popsize > 0 && ga.lchrom >= 1024
    ensures raised == None ==> forall j :: 0 <= j < ga.popsize ==>
      ga.oldpop[j] != null && fresh(ga.oldpop[j]) && fresh(ga.oldpop[j].chrom) &&
      Evaluated(ga, ga.oldpop[j], draws[j])
    ensures raised == None ==> forall j, k :: 0 <= j < k < ga.popsize ==>
      ga.oldpop[j] != ga.oldpop[k] && ga.oldpop[j].chrom != ga.oldpop[k].chrom
    ensures raised != None ==>
      ga.oldpop[0] != null && fresh(ga.oldpop[0]) && fresh(ga.oldpop[0].chrom) &&
      Seeded(ga, ga.oldpop[0], draws[0]) && ga.oldpop[0].fitness == None &&
      forall j :: 1 <= j < ga.popsize ==> ga.oldpop[j] == old(ga.oldpop[j])
  {
    var oldpop := ga.oldpop;
    var j := 0;
    while j < ga.popsize
      invariant 0 <= j <= ga.popsize
      invariant j > 0 ==> 0 < ga.lchrom < 1024
      invariant forall a :: 0 <= a < j ==>
        oldpop[a] != null && fresh(oldpop[a]) && fresh(oldpop[a].chrom) &&
        Evaluated(ga, oldpop[a], draws[a])
      invariant forall a, b :: 0 <= a < b < j ==>
        oldpop[a] != oldpop[b] && oldpop[a].chrom != oldpop[b].chrom
      invariant forall a :: j <= a < ga.popsize ==> oldpop[a] == old(oldpop[a])
    {
      var ind := SeedIndividual(ga, draws[j]);
      oldpop[j] := ind;
      raised := Evaluate(ga, ind, draws[j]);
      if raised != None {
        return;
      }
      j := j + 1;
    }
    raised := None;
  }
}
