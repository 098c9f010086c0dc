/**
 * cmd/predictor/main.go: a network evolved to compute XOR.
 *
 * The genome here is the map-based one that cmd/predictor reads from
 * `net.NetToDna` (a set of synapse genes and a list of neuron genes). The
 * network itself, `net.NetToDna`, `net.DNAToNet` and `Net.Eval` are not part
 * of this model: a network is an opaque handle, and the three callees are
 * function parameters. The random draws of `Mutate` and `Crossover` (rolls,
 * eaopt's Gaussian mutation, permutation and crossover) are parameters too,
 * and so is the order in which Go iterates over a map.
 */
module Predictor {
  import opened Wrappers

  /** net.SynapseGene: a map key, so two genes with equal fields are one gene. */
  datatype SynapseGene = SynapseGene(sourceID: int, destID: int, destBias: real, weight: real)

  datatype NeuronGene = NeuronGene(bias: real)

  /** The genome cmd/predictor works on: `SynapseMap` (a set) and `Neurons`. */
  datatype Genome = Genome(synapseMap: set<SynapseGene>, neurons: seq<NeuronGene>)

  /** An opaque `*net.Net`. */
  datatype NetHandle = NetHandle(id: nat)

  /** math.MaxFloat64, exactly. */
  const MaxFloat64: real := 179769313486231570814527423731704356798070567525844996598917476803157260780028538760589558632766878171540458953514382464234321326889464182768467546703537516986049910576551282076245490090389328944075868508455133942304583236903222948165808559332123348274797826204144723168738177180919299881250404026184124858368.0

  /** The probability threshold of the rare mutations: `rng.Float64() < 0.01`. */
  const Rare: real := 0.01

  /** The four XOR cases, in the order `Evaluate` feeds them. */
  const XorCases: seq<seq<real>> := [[0.0, 0.0], [0.0, 1.0], [1.0, 0.0], [1.0, 1.0]]

  // ---------------------------------------------------------------- fitness

  /** Whether the network's two outputs point the right way on XOR case `k` (first output larger for 0 xor 0 and 1 xor 1). */
  predicate Right(k: nat, out: seq<real>)
    requires k < 4 && |out| >= 2
  {
    if k == 0 || k == 3 then out[0] - out[1] > 0.0 else out[0] - out[1] < 0.0
  }

  /**
   * scoreXOR: for each case the difference of the two outputs, counted
   * against the score when it points the right way (lower is better), with
   * a bonus of 1 for each case that is strictly right.
   */
  function ScoreXOR(scores: seq<seq<real>>): (r: real)
    requires |scores| >= 4 && forall k :: 0 <= k < 4 ==> |scores[k]| >= 2
    ensures r == Drift(scores) - Hits(scores) as real
  {
    var s0 := scores[0][0] - scores[0][1];
    var score0 := (if s0 > 0.0 then -1.0 else 0.0) - s0;
    var s1 := scores[1][0] - scores[1][1];
    var score1 := score0 - (if s1 < 0.0 then 1.0 else 0.0) + s1;
    var s2 := scores[2][0] - scores[2][1];
    var score2 := score1 - (if s2 < 0.0 then 1.0 else 0.0) + s2;
    var s3 := scores[3][0] - scores[3][1];
    score2 - (if s3 > 0.0 then 1.0 else 0.0) - s3
  }

  /** The difference of the two outputs in case `k`. */
  function Gap(scores: seq<seq<real>>, k: nat): real
    requires k < |scores| && |scores[k]| >= 2
  {
    scores[k][0] - scores[k][1]
  }

  /** The differences, each counted against the score when its case wants the first output larger and for it otherwise. */
  function Drift(scores: seq<seq<real>>): real
    requires |scores| >= 4 && forall k :: 0 <= k < 4 ==> |scores[k]| >= 2
  {
    -Gap(scores, 0) + Gap(scores, 1) + Gap(scores, 2) - Gap(scores, 3)
  }

  /** How many of the four cases point the right way strictly. */
  function Hits(scores: seq<seq<real>>): (h: nat)
    requires |scores| >= 4 && forall k :: 0 <= k < 4 ==> |scores[k]| >= 2
    ensures h <= 4
  {
    (if Right(0, scores[0]) then 1 else 0) + (if Right(1, scores[1]) then 1 else 0)
    + (if Right(2, scores[2]) then 1 else 0) + (if Right(3, scores[3]) then 1 else 0)
  }

  /** Four strictly right cases score below -4; four cases none of which is strictly right score at least 0. */
  lemma ScoreBounds(scores: seq<seq<real>>)
    requires |scores| >= 4 && forall k :: 0 <= k < 4 ==> |scores[k]| >= 2
    ensures (forall k :: 0 <= k < 4 ==> Right(k, scores[k])) ==> ScoreXOR(scores) < -4.0
    ensures (forall k :: 0 <= k < 4 ==> !Right(k, scores[k])) ==> ScoreXOR(scores) >= 0.0
  {
    if forall k :: 0 <= k < 4 ==> Right(k, scores[k]) {
      assert Right(0, scores[0]) && Right(1, scores[1]) && Right(2, scores[2]) && Right(3, scores[3]);
    }
    if forall k :: 0 <= k < 4 ==> !Right(k, scores[k]) {
      assert !Right(0, scores[0]) && !Right(1, scores[1]) && !Right(2, scores[2]) && !Right(3, scores[3]);
    }
  }

  /** Predictor.Size: the genome's gene count (synapses plus neurons) over 200, a penalty on large networks. */
  function Size(g: Genome): (r: real)
    ensures r >= 0.0
    ensures r * 200.0 == (|g.synapseMap| + |g.neurons|) as real
  {
    (|g.synapseMap| + |g.neurons|) as real / 200.0
  }

  /** Whether an output of `Net.Eval` is usable: no error and exactly two values. */
  predicate Usable(out: Result<seq<real>>)
  {
    out.Ok? && |out.value| == 2
  }

  /**
   * Evaluate from case `k` on, having collected `scores` for the earlier
   * cases. `eval(k, input)` is the outcome of the `k`-th `Net.Eval` call
   * (the network keeps state between calls). The result is the fitness and
   * the number of `Eval` calls made: the calls go in case order, and the
   * first unusable output stops them with `MaxFloat64`.
   */
  function EvaluateFrom(eval: (nat, seq<real>) -> Result<seq<real>>, size: real, k: nat, scores: seq<seq<real>>)
    : (r: (real, nat))
    requires k <= 4 && |scores| == k && forall i :: 0 <= i < k ==> |scores[i]| == 2
    ensures k <= r.1 <= 4 && (k < 4 ==> k < r.1)
    ensures forall i :: k <= i < r.1 - 1 ==> Usable(eval(i, XorCases[i]))
    ensures r.1 < 4 ==> r.0 == MaxFloat64 && !Usable(eval(r.1 - 1, XorCases[r.1 - 1]))
    decreases 4 - k
  {
    if k == 4 then (ScoreXOR(scores) + size, 4)
    else
      var out := eval(k, XorCases[k]);
      if !Usable(out) then (MaxFloat64, k + 1)
      else EvaluateFrom(eval, size, k + 1, scores + [out.value])
  }

  /**
   * Predictor.Evaluate on a network whose genome is `g`: its error result is
   * always nil, so only the fitness and the calls made are modelled.
   */
  function Evaluate(eval: (nat, seq<real>) -> Result<seq<real>>, g: Genome): (r: (real, nat))
    ensures 1 <= r.1 <= 4
    ensures forall i :: 0 <= i < r.1 - 1 ==> Usable(eval(i, XorCases[i]))
    ensures r.1 < 4 ==> r.0 == MaxFloat64 && !Usable(eval(r.1 - 1, XorCases[r.1 - 1]))
  {
    EvaluateFrom(eval, Size(g), 0, [])
  }

  /** The first unusable output (an error or a length other than 2) ends the evaluation with MaxFloat64 and no further call. */
  lemma {:induction false} EvaluateStops(eval: (nat, seq<real>) -> Result<seq<real>>, g: Genome, j: nat)
    requires j < 4 && !Usable(eval(j, XorCases[j]))
    requires forall i :: 0 <= i < j ==> Usable(eval(i, XorCases[i]))
    ensures Evaluate(eval, g) == (MaxFloat64, j + 1)
  {
    var k := 0;
    var scores: seq<seq<real>> := [];
    while k < j
      invariant k <= j && |scores| == k && forall i :: 0 <= i < k ==> |scores[i]| == 2
      invariant Evaluate(eval, g) == EvaluateFrom(eval, Size(g), k, scores)
    {
      scores := scores + [eval(k, XorCases[k]).value];
      k := k + 1;
    }
  }

  /** With four usable outputs, the fitness is scoreXOR of them, in case order, plus the genome's size penalty. */
  lemma EvaluateScores(eval: (nat, seq<real>) -> Result<seq<real>>, g: Genome)
    requires forall i :: 0 <= i < 4 ==> Usable(eval(i, XorCases[i]))
    ensures Usable(eval(0, XorCases[0])) && Usable(eval(1, XorCases[1]))
    ensures Usable(eval(2, XorCases[2])) && Usable(eval(3, XorCases[3]))
    ensures var outs := [eval(0, XorCases[0]).value, eval(1, XorCases[1]).value,
                         eval(2, XorCases[2]).value, eval(3, XorCases[3]).value];
            Evaluate(eval, g) == (ScoreXOR(outs) + Size(g), 4)
  {
    assert Usable(eval(0, XorCases[0])) && Usable(eval(1, XorCases[1]));
    assert Usable(eval(2, XorCases[2])) && Usable(eval(3, XorCases[3]));
  }

  // --------------------------------------------------------------- mutation

  /** `xs` lists the set `s`, each element once: one possible Go iteration order over a map. */
  predicate Enumerates(xs: seq<SynapseGene>, s: set<SynapseGene>)
  {
    && |xs| == |s|
    && (forall i :: 0 <= i < |xs| ==> xs[i] in s)
    && (forall i, j :: 0 <= i < j < |xs| ==> xs[i] != xs[j])
  }

  /**
   * `order(m)` is the order in which one `range` loop visits map `m`. Go
   * draws a fresh order for every `range`, so each loop gets its own `order`.
   */
  ghost predicate IterationOrder(order: set<SynapseGene> -> seq<SynapseGene>)
  {
    forall s :: Enumerates(order(s), s)
  }

  /**
   * The random draws of one `Mutate`: eaopt's Gaussian mutation of the
   * weights, the roll and the two permutations of "switch connections", the
   * roll and the gene of "add synapse", the roll of "remove synapse".
   */
  datatype Draws = Draws(
    jitter: seq<real> -> seq<real>,
    permuteRoll: real,
    permuteSources: seq<int> -> seq<int>,
    permuteDests: seq<int> -> seq<int>,
    addRoll: real,
    added: SynapseGene,
    removeRoll: real)

  /** What the draws can be: eaopt keeps lengths (and permutes), and the added gene is `rand.Intn(20)`, `rand.Intn(20)`, bias 0, weight `rand.Float64()`. */
  ghost predicate Plausible(d: Draws)
  {
    && (forall xs :: |d.jitter(xs)| == |xs|)
    && (forall xs :: multiset(d.permuteSources(xs)) == multiset(xs))
    && (forall xs :: multiset(d.permuteDests(xs)) == multiset(xs))
    && 0 <= d.added.sourceID < 20 && 0 <= d.added.destID < 20
    && d.added.destBias == 0.0 && 0.0 <= d.added.weight < 1.0
  }

  /** The weights of the genes, in list order. */
  function Weights(gs: seq<SynapseGene>): seq<real>
  {
    seq(|gs|, i requires 0 <= i < |gs| => gs[i].weight)
  }

  /** The source ids of the genes, in list order. */
  function Sources(gs: seq<SynapseGene>): seq<int>
  {
    seq(|gs|, i requires 0 <= i < |gs| => gs[i].sourceID)
  }

  /** The destination ids of the genes, in list order. */
  function Dests(gs: seq<SynapseGene>): seq<int>
  {
    seq(|gs|, i requires 0 <= i < |gs| => gs[i].destID)
  }

  /** The mutated source ids: permuted only on a rare roll. */
  function NewSources(keys: seq<SynapseGene>, d: Draws): seq<int>
  {
    if d.permuteRoll < Rare then d.permuteSources(Sources(keys)) else Sources(keys)
  }

  function NewDests(keys: seq<SynapseGene>, d: Draws): seq<int>
  {
    if d.permuteRoll < Rare then d.permuteDests(Dests(keys)) else Dests(keys)
  }

  /** The copies after the positional write-back: copy `i` takes weight, source and destination number `i`. */
  function Mutated(keys: seq<SynapseGene>, d: Draws): (r: seq<SynapseGene>)
    requires Plausible(d)
    ensures |r| == |keys|
  {
    var ws, ss, ds := d.jitter(Weights(keys)), NewSources(keys, d), NewDests(keys, d);
    assert |ss| == |keys| by {
      assert |multiset(ss)| == |multiset(Sources(keys))|;
    }
    assert |ds| == |keys| by {
      assert |multiset(ds)| == |multiset(Dests(keys))|;
    }
    seq(|keys|, i requires 0 <= i < |keys| => SynapseGene(ss[i], ds[i], keys[i].destBias, ws[i]))
  }

  /** The rare add (a set insert), then the rare removal of the first key iterated, only when more than 2 remain. */
  function Resize(m: set<SynapseGene>, d: Draws, order: set<SynapseGene> -> seq<SynapseGene>): set<SynapseGene>
    requires IterationOrder(order)
  {
    var grown := if d.addRoll < Rare then m + {d.added} else m;
    if d.removeRoll < Rare && |grown| > 2 then
      assert Enumerates(order(grown), grown);
      grown - {order(grown)[0]}
    else grown
  }

  /** The elements of a list of genes, as the map rebuilt from it. */
  function Elements(gs: seq<SynapseGene>): set<SynapseGene>
  {
    set g | g in gs
  }

  /** The genome `Mutate` hands to DNAToNet, as written: the copies' write-back never reaches the map. */
  function SentAsWritten(g: Genome, d: Draws, pick: set<SynapseGene> -> seq<SynapseGene>): Genome
    requires IterationOrder(pick)
  {
    Genome(Resize(g.synapseMap, d, pick), g.neurons)
  }

  /** The genome `Mutate` evidently means to hand on: the map rebuilt from the mutated copies. */
  function SentIntended(g: Genome, d: Draws, order: set<SynapseGene> -> seq<SynapseGene>, pick: set<SynapseGene> -> seq<SynapseGene>): Genome
    requires IterationOrder(order) && IterationOrder(pick) && Plausible(d)
  {
    Genome(Resize(Elements(Mutated(order(g.synapseMap), d)), d, pick), g.neurons)
  }

  /**
   * Removal takes exactly one gene and only when more than 2 are present, so
   * a map of at least 2 genes keeps at least 2; adding is a set insert, so
   * the count grows by at most one; every gene left was there before or is
   * the added one.
   */
  lemma ResizeBounds(m: set<SynapseGene>, d: Draws, order: set<SynapseGene> -> seq<SynapseGene>)
    requires IterationOrder(order)
    ensures var grown := if d.addRoll < Rare then m + {d.added} else m;
            var r := Resize(m, d, order);
            && r <= grown
            && (|grown| <= 2 || d.removeRoll >= Rare ==> r == grown)
            && (|grown| > 2 && d.removeRoll < Rare ==> |r| == |grown| - 1)
            && |grown| <= |m| + 1
    ensures |m| >= 2 ==> |Resize(m, d, order)| >= 2
    ensures forall x :: x in Resize(m, d, order) ==> x in m || x == d.added
  {
    var grown := if d.addRoll < Rare then m + {d.added} else m;
    assert |grown| <= |m| + 1 by {
      if d.addRoll < Rare {
        assert grown == m + {d.added};
        assert |m + {d.added}| <= |m| + |{d.added}|;
      }
    }
    SubsetCard(m, grown);
    if d.removeRoll < Rare && |grown| > 2 {
      assert Enumerates(order(grown), grown);
      var key := order(grown)[0];
      assert key in grown;
      assert |grown - {key}| == |grown| - 1;
    }
  }

  /** Write-back is positional: copy `i` gets the `i`-th weight, source and destination and keeps its bias. */
  lemma WriteBackPositional(keys: seq<SynapseGene>, d: Draws, i: nat)
    requires Plausible(d) && i < |keys|
    ensures var ws, ss, ds := d.jitter(Weights(keys)), NewSources(keys, d), NewDests(keys, d);
            i < |ws| && i < |ss| && i < |ds|
            && Mutated(keys, d)[i] == SynapseGene(ss[i], ds[i], keys[i].destBias, ws[i])
  {
    var ss, ds := NewSources(keys, d), NewDests(keys, d);
    assert |multiset(ss)| == |multiset(Sources(keys))|;
    assert |multiset(ds)| == |multiset(Dests(keys))|;
  }

  /**
   * As written, without the rare add or removal the genome handed on is the
   * genome read, whatever the Gaussian mutation and the permutations did.
   */
  lemma AsWrittenIgnoresMutation(g: Genome, d: Draws, pick: set<SynapseGene> -> seq<SynapseGene>)
    requires IterationOrder(pick) && d.addRoll >= Rare && d.removeRoll >= Rare
    ensures SentAsWritten(g, d, pick) == g
  {
  }

  /**
   * One gene whose weight the Gaussian mutation moves from 0.5 to 1.5: the
   * mutated copy is not in the map, so (by `AsWrittenIgnoresMutation`,
   * without a rare add or removal) the genome handed on keeps weight 0.5.
   */
  lemma MutationLostExample()
    ensures var gene := SynapseGene(0, 1, 0.0, 0.5);
            var d := Draws(xs => if xs == [0.5] then [1.5] else xs, 1.0, xs => xs, xs => xs, 1.0, gene, 1.0);
            && Plausible(d)
            && Mutated([gene], d) == [gene.(weight := 1.5)]
            && gene.(weight := 1.5) !in {gene}
  {
    var gene := SynapseGene(0, 1, 0.0, 0.5);
    var d := Draws(xs => if xs == [0.5] then [1.5] else xs, 1.0, xs => xs, xs => xs, 1.0, gene, 1.0);
    assert Plausible(d) by {
      forall xs: seq<real>
        ensures |d.jitter(xs)| == |xs|
      {
        if xs == [0.5] {
          assert d.jitter(xs) == [1.5];
        }
      }
    }
    assert Weights([gene]) == [0.5];
    assert Sources([gene]) == [0] && Dests([gene]) == [1];
  }

  /**
   * Corrected: every mutated copy reaches the map handed on, except at most
   * the one key the rare removal takes; any other gene there is the added one.
   */
  lemma IntendedKeepsMutation(g: Genome, d: Draws, order: set<SynapseGene> -> seq<SynapseGene>, pick: set<SynapseGene> -> seq<SynapseGene>)
    requires IterationOrder(order) && IterationOrder(pick) && Plausible(d)
    ensures var copies := Mutated(order(g.synapseMap), d);
            var sent := SentIntended(g, d, order, pick).synapseMap;
            && |Elements(copies) - sent| <= 1
            && (d.removeRoll >= Rare ==> Elements(copies) <= sent)
            && forall x :: x in sent ==> x in copies || x == d.added
  {
    var copies := Mutated(order(g.synapseMap), d);
    var m := Elements(copies);
    ResizeBounds(m, d, pick);
    var grown := if d.addRoll < Rare then m + {d.added} else m;
    var sent := Resize(m, d, pick);
    assert m <= grown;
    if d.removeRoll < Rare && |grown| > 2 {
      assert Enumerates(pick(grown), grown);
      var key := pick(grown)[0];
      assert sent == grown - {key};
      assert m - sent <= {key};
      SubsetCard(m - sent, {key});
    } else {
      assert m - sent == {};
    }
  }

  lemma SubsetCard<T>(a: set<T>, b: set<T>)
    requires a <= b
    ensures |a| <= |b|
  {
    assert b == a + (b - a);
  }

  // -------------------------------------------------------------- crossover

  /**
   * eaopt.CrossGNX on two equally long gene lists: at every position in
   * `swapAt` the two lists exchange their genes, elsewhere they keep them.
   */
  function Exchange(a: seq<SynapseGene>, b: seq<SynapseGene>, swapAt: set<nat>): (r: (seq<SynapseGene>, seq<SynapseGene>))
    requires |a| == |b|
    ensures |r.0| == |a| && |r.1| == |b|
  {
    if |a| == 0 then ([], [])
    else
      var n := |a| - 1;
      var front := Exchange(a[..n], b[..n], swapAt);
      if n in swapAt then (front.0 + [b[n]], front.1 + [a[n]])
      else (front.0 + [a[n]], front.1 + [b[n]])
  }

  /** Crossover exchanges genes and loses none: both lists together hold the same genes as before. */
  lemma {:induction false} ExchangeConserves(a: seq<SynapseGene>, b: seq<SynapseGene>, swapAt: set<nat>)
    requires |a| == |b|
    ensures var r := Exchange(a, b, swapAt);
            multiset(r.0) + multiset(r.1) == multiset(a) + multiset(b)
  {
    if |a| > 0 {
      var n := |a| - 1;
      var front := Exchange(a[..n], b[..n], swapAt);
      ExchangeConserves(a[..n], b[..n], swapAt);
      assert a == a[..n] + [a[n]] && b == b[..n] + [b[n]];
      PairAppend(a[..n], b[..n], a[n], b[n]);
      var u, v := if n in swapAt then b[n] else a[n], if n in swapAt then a[n] else b[n];
      assert Exchange(a, b, swapAt) == (front.0 + [u], front.1 + [v]);
      PairAppend(front.0, front.1, u, v);
      assert multiset{u, v} == multiset{a[n], b[n]};
    }
  }

  /** Crossover swaps exactly the positions in `swapAt` and leaves every other position in place. */
  lemma {:induction false} ExchangeAt(a: seq<SynapseGene>, b: seq<SynapseGene>, swapAt: set<nat>)
    requires |a| == |b|
    ensures var r := Exchange(a, b, swapAt);
            forall i :: 0 <= i < |a| ==>
              if i in swapAt then r.0[i] == b[i] && r.1[i] == a[i] else r.0[i] == a[i] && r.1[i] == b[i]
  {
    if |a| > 0 {
      var n := |a| - 1;
      ExchangeAt(a[..n], b[..n], swapAt);
    }
  }

  lemma PairAppend(x: seq<SynapseGene>, y: seq<SynapseGene>, u: SynapseGene, v: SynapseGene)
    ensures multiset(x + [u]) + multiset(y + [v]) == multiset(x) + multiset(y) + multiset{u, v}
  {
  }

  /** The map rebuilt from a gene list has at most as many genes as the list, and exactly as many when the list has no duplicates. */
  lemma {:induction false} ElementsCard(gs: seq<SynapseGene>)
    ensures |Elements(gs)| <= |gs|
    ensures (forall i, j :: 0 <= i < j < |gs| ==> gs[i] != gs[j]) ==> |Elements(gs)| == |gs|
  {
    if gs != [] {
      var n := |gs| - 1;
      ElementsCard(gs[..n]);
      assert Elements(gs) == Elements(gs[..n]) + {gs[n]};
      if forall i, j :: 0 <= i < j < |gs| ==> gs[i] != gs[j] {
        assert gs[n] !in Elements(gs[..n]);
      }
    }
  }

  /** The genomes `Crossover` hands to DNAToNet for two genomes of equal map size. */
  function Crossed(g: Genome, g2: Genome, order: set<SynapseGene> -> seq<SynapseGene>, order2: set<SynapseGene> -> seq<SynapseGene>, swapAt: set<nat>)
    : (r: (Genome, Genome))
    requires IterationOrder(order) && IterationOrder(order2) && |g.synapseMap| == |g2.synapseMap|
  {
    assert Enumerates(order(g.synapseMap), g.synapseMap) && Enumerates(order2(g2.synapseMap), g2.synapseMap);
    var x := Exchange(order(g.synapseMap), order2(g2.synapseMap), swapAt);
    (Genome(Elements(x.0), g.neurons), Genome(Elements(x.1), g2.neurons))
  }

  /** After crossover each map has at most as many genes as before, and the neuron genes are untouched. */
  lemma CrossedSizes(g: Genome, g2: Genome, order: set<SynapseGene> -> seq<SynapseGene>, order2: set<SynapseGene> -> seq<SynapseGene>, swapAt: set<nat>)
    requires IterationOrder(order) && IterationOrder(order2) && |g.synapseMap| == |g2.synapseMap|
    ensures var r := Crossed(g, g2, order, order2, swapAt);
            && |r.0.synapseMap| <= |g.synapseMap| && |r.1.synapseMap| <= |g2.synapseMap|
            && r.0.neurons == g.neurons && r.1.neurons == g2.neurons
            && r.0.synapseMap + r.1.synapseMap <= g.synapseMap + g2.synapseMap
  {
    var xs, ys := order(g.synapseMap), order2(g2.synapseMap);
    assert Enumerates(xs, g.synapseMap) && Enumerates(ys, g2.synapseMap);
    var x := Exchange(xs, ys, swapAt);
    ExchangeAt(xs, ys, swapAt);
    ElementsCard(x.0);
    ElementsCard(x.1);
    forall e | e in Elements(x.0) + Elements(x.1)
      ensures e in g.synapseMap + g2.synapseMap
    {
      if e in Elements(x.0) {
        var i :| 0 <= i < |x.0| && x.0[i] == e;
      } else {
        var i :| 0 <= i < |x.1| && x.1[i] == e;
      }
    }
  }

  /**
   * Two clones with map {a, b}, listed by the two `range` loops in opposite
   * orders, crossed at position 1: the lists become [a, a] and [b, b], so
   * each rebuilt map keeps a single gene.
   */
  lemma CloneCrossover()
    ensures var a, b := SynapseGene(0, 1, 0.0, 0.5), SynapseGene(1, 2, 0.0, 0.25);
            var x := Exchange([a, b], [b, a], {1});
            && Enumerates([a, b], {a, b}) && Enumerates([b, a], {a, b})
            && Elements(x.0) == {a} && Elements(x.1) == {b}
  {
    var a, b := SynapseGene(0, 1, 0.0, 0.5), SynapseGene(1, 2, 0.0, 0.25);
    var x := Exchange([a, b], [b, a], {1});
    ExchangeAt([a, b], [b, a], {1});
    assert x.0 == [a, a] && x.1 == [b, b];
  }

  /** A `Predictor`: its embedded `*net.Net`, replaced by `Mutate` and `Crossover`. */
  class Predictor {
    var net: NetHandle

    constructor (n: NetHandle)
      ensures net == n
    {
      net := n;
    }

    /**
     * Predictor.Mutate as written: copy the genes, mutate the copies'
     * weights (and, rarely, permute sources and destinations), write them
     * back into the copies, rarely add or remove a gene in the map, then
     * rebuild the network from the map, keeping the old one if that fails.
     */
    method Mutate(encode: NetHandle -> Genome, decode: Genome -> Result<NetHandle>,
                  order: set<SynapseGene> -> seq<SynapseGene>, pick: set<SynapseGene> -> seq<SynapseGene>, d: Draws)
      requires IterationOrder(order) && IterationOrder(pick) && Plausible(d)
      modifies this
      ensures var sent := decode(SentAsWritten(encode(old(net)), d, pick));
              net == if sent.Ok? then sent.value else old(net)
    {
      var dna := encode(net);
      var synapses := order(dna.synapseMap);
      var copies := WriteBack(synapses, d);
      var m := AddRemove(dna.synapseMap, d, pick);
      var n := decode(Genome(m, dna.neurons));
      if n.Ok? {
        net := n.value;
      }
    }

    /** Predictor.Mutate as evidently intended: the map handed on is rebuilt from the mutated copies. */
    method MutateIntended(encode: NetHandle -> Genome, decode: Genome -> Result<NetHandle>,
                          order: set<SynapseGene> -> seq<SynapseGene>, pick: set<SynapseGene> -> seq<SynapseGene>, d: Draws)
      requires IterationOrder(order) && IterationOrder(pick) && Plausible(d)
      modifies this
      ensures var sent := decode(SentIntended(encode(old(net)), d, order, pick));
              net == if sent.Ok? then sent.value else old(net)
    {
      var dna := encode(net);
      var synapses := order(dna.synapseMap);
      var copies := WriteBack(synapses, d);
      var rebuilt := Rebuild(copies);
      var m := AddRemove(rebuilt, d, pick);
      var n := decode(Genome(m, dna.neurons));
      if n.Ok? {
        net := n.value;
      }
    }

    /**
     * Predictor.Crossover: both maps must have the same size, else nothing
     * happens; the two gene lists exchange genes, each map is rebuilt from
     * its list, and each network is replaced by the one DNAToNet builds,
     * stopping at the first failure.
     */
    method Crossover(other: Predictor, encode: NetHandle -> Genome, decode: Genome -> Result<NetHandle>,
                     order: set<SynapseGene> -> seq<SynapseGene>, order2: set<SynapseGene> -> seq<SynapseGene>, swapAt: set<nat>)
      requires IterationOrder(order) && IterationOrder(order2)
      modifies this, other
      ensures var g, g2 := encode(old(net)), encode(old(other.net));
              |g.synapseMap| != |g2.synapseMap| ==> net == old(net) && other.net == old(other.net)
      ensures var g, g2 := encode(old(net)), encode(old(other.net));
              |g.synapseMap| == |g2.synapseMap| && other != this ==>
                var c := Crossed(g, g2, order, order2, swapAt);
                var r1, r2 := decode(c.0), decode(c.1);
                && (r1.Err? ==> net == old(net) && other.net == old(other.net))
                && (r1.Ok? && r2.Err? ==> net == r1.value && other.net == old(other.net))
                && (r1.Ok? && r2.Ok? ==> net == r1.value && other.net == r2.value)
    {
      var pDNA := encode(net);
      var p2DNA := encode(other.net);
      if |p2DNA.synapseMap| != |pDNA.synapseMap| {
        return;
      }
      var pSynapses := order(pDNA.synapseMap);
      var p2Synapses := order2(p2DNA.synapseMap);
      assert Enumerates(pSynapses, pDNA.synapseMap) && Enumerates(p2Synapses, p2DNA.synapseMap);
      var crossed := Exchange(pSynapses, p2Synapses, swapAt);
      var pMap := Rebuild(crossed.0);
      var p2Map := Rebuild(crossed.1);
      var n := decode(Genome(pMap, pDNA.neurons));
      if n.Err? {
        return;
      }
      net := n.value;
      var n2 := decode(Genome(p2Map, p2DNA.neurons));
      if n2.Err? {
        return;
      }
      other.net := n2.value;
    }
  }

  /** The write-back loop of Mutate over the copies, after extracting and mutating their weights, sources and destinations. */
  method WriteBack(synapses: seq<SynapseGene>, d: Draws) returns (copies: seq<SynapseGene>)
    requires Plausible(d)
    ensures copies == Mutated(synapses, d)
  {
    var weights, sources, destinations := Extract(synapses);
    weights := d.jitter(weights);
    if d.permuteRoll < Rare {
      sources := d.permuteSources(sources);
      destinations := d.permuteDests(destinations);
    }
    assert |multiset(sources)| == |synapses| && |multiset(destinations)| == |synapses|;
    copies := synapses;
    for i := 0 to |copies|
      invariant |copies| == |synapses|
      invariant forall k :: 0 <= k < i ==> copies[k] == Mutated(synapses, d)[k]
      invariant forall k :: i <= k < |copies| ==> copies[k] == synapses[k]
    {
      copies := copies[i := copies[i].(weight := weights[i], sourceID := sources[i], destID := destinations[i])];
    }
  }

  /** The appending loop of Mutate over the copies: their weights, source ids and destination ids, position by position. */
  method Extract(synapses: seq<SynapseGene>) returns (weights: seq<real>, sources: seq<int>, destinations: seq<int>)
    ensures |weights| == |sources| == |destinations| == |synapses|
    ensures forall i :: 0 <= i < |synapses| ==>
              weights[i] == synapses[i].weight && sources[i] == synapses[i].sourceID && destinations[i] == synapses[i].destID
    ensures weights == Weights(synapses) && sources == Sources(synapses) && destinations == Dests(synapses)
  {
    weights, sources, destinations := [], [], [];
    for i := 0 to |synapses|
      invariant |weights| == |sources| == |destinations| == i
      invariant forall k :: 0 <= k < i ==>
                  weights[k] == synapses[k].weight && sources[k] == synapses[k].sourceID && destinations[k] == synapses[k].destID
    {
      weights := weights + [synapses[i].weight];
      sources := sources + [synapses[i].sourceID];
      destinations := destinations + [synapses[i].destID];
    }
  }

  /** The rare add and the rare removal of Mutate, on the map. */
  method AddRemove(m: set<SynapseGene>, d: Draws, order: set<SynapseGene> -> seq<SynapseGene>) returns (r: set<SynapseGene>)
    requires IterationOrder(order)
    ensures r == Resize(m, d, order)
  {
    r := m;
    if d.addRoll < Rare {
      r := r + {d.added};
    }
    if d.removeRoll < Rare && |r| > 2 {
      assert Enumerates(order(r), r);
      var key := order(r)[0];
      r := r - {key};
    }
  }

  /** `make(map...)` then one insert per gene of the list, in list order. */
  method Rebuild(gs: seq<SynapseGene>) returns (m: set<SynapseGene>)
    ensures m == Elements(gs)
  {
    m := {};
    for i := 0 to |gs|
      invariant m == Elements(gs[..i])
    {
      assert gs[..i + 1] == gs[..i] + [gs[i]];
      m := m + {gs[i]};
    }
    assert gs[..|gs|] == gs;
  }
}
