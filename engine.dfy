/**
 * The signal-propagation engine of neuron.go and synapse.go.
 *
 * The Go code walks a graph of heap objects that point at each other. Here the
 * graph is an arena: every neuron is a slot of `neurons`, and a synapse names
 * its source and destination by slot index. A neuron's synapse lists
 * (`incoming`, `outgoing`) hold indices into `synapses`. The mutable per-neuron
 * fields (`visited`, `shouldSaveMemory`, `memory`, `calculated`,
 * `activationFunc`) are updated in place, as the Go code does.
 *
 * `EvalNeuron`, `EvalIncoming` and `EvalSynapse` are the specification: they
 * take the arena's state and give the returned signal and the new state. The
 * methods `Graph.Eval2` and `Graph.SynEval` are proved to compute exactly them.
 */
module Engine {
  import opened Wrappers
  import opened NetPass

  /** The three layer constants of neuron.go (`inputLayer` = 0, ...). */
  datatype Layer = InputLayer | HiddenLayer | OutputLayer

  /** Every field of neuron.go's `neuron` struct; the activation function is an uninterpreted `real -> real`. */
  datatype Neuron = Neuron(
    id: int,
    layer: Layer,
    shouldSaveMemory: bool,
    bias: real,
    visited: bool,
    memory: Option<Signal>,
    calculated: Option<Signal>,
    activationFunc: Option<real -> real>,
    incoming: seq<nat>,
    outgoing: seq<nat>)

  /** synapse.go's `synapse`; `memory` is carried but `eval` never reads or writes it. */
  datatype Synapse = Synapse(source: nat, destination: nat, weight: real, memory: Option<Signal>)

  /** Every index in the arena points at an existing slot (no nil `source`). */
  predicate WellFormed(ns: seq<Neuron>, syns: seq<Synapse>)
  {
    && (forall i :: 0 <= i < |ns| ==> Below(ns[i].incoming, |syns|))
    && (forall s :: 0 <= s < |syns| ==> syns[s].source < |ns|)
  }

  /** Every index in `xs` is below `bound`. */
  predicate Below(xs: seq<nat>, bound: nat)
  {
    forall k :: 0 <= k < |xs| ==> xs[k] < bound
  }

  /** What every evaluation leaves as it found it and the recursion relies on: the `visited` marks and the `in` lists. */
  predicate Preserved(a: seq<Neuron>, b: seq<Neuron>)
  {
    && |a| == |b|
    && forall i :: 0 <= i < |a| ==> a[i].visited == b[i].visited && a[i].incoming == b[i].incoming
  }

  /**
   * What one pass `id` may do to the arena between states `a` and `b`: the
   * static fields (`id`, `layer`, `bias`, `out`) stay; a value already in
   * `calculated` stays; any `calculated` or `memory` that changes becomes a
   * signal tagged with the pass `id`; a set activation function stays.
   */
  ghost predicate Steady(a: seq<Neuron>, b: seq<Neuron>, id: int)
  {
    && |a| == |b|
    && forall i :: 0 <= i < |a| ==>
      && a[i].id == b[i].id && a[i].layer == b[i].layer && a[i].bias == b[i].bias && a[i].outgoing == b[i].outgoing
      && (a[i].calculated.Some? ==> b[i].calculated == a[i].calculated)
      && (b[i].calculated != a[i].calculated ==> b[i].calculated.Some? && b[i].calculated.value.id == id)
      && (b[i].memory != a[i].memory ==> b[i].memory.Some? && b[i].memory.value.id == id)
      && (a[i].activationFunc.Some? ==> b[i].activationFunc == a[i].activationFunc)
  }

  /** Number of neurons not on the active resolution path; it bounds the recursion depth. */
  function Unvisited(ns: seq<Neuron>): (c: nat)
    ensures c <= |ns|
  {
    if ns == [] then 0 else (if ns[0].visited then 0 else 1) + Unvisited(ns[1..])
  }

  lemma {:induction false} UnvisitedMark(ns: seq<Neuron>, i: nat, m: Neuron)
    requires i < |ns| && !ns[i].visited && m.visited
    ensures Unvisited(ns[i := m]) + 1 == Unvisited(ns)
  {
    if i > 0 {
      assert ns[i := m][1..] == ns[1..][i - 1 := m];
      UnvisitedMark(ns[1..], i - 1, m);
    } else {
      assert ns[i := m][1..] == ns[1..];
    }
  }

  lemma {:induction false} UnvisitedKept(a: seq<Neuron>, b: seq<Neuron>)
    requires Preserved(a, b)
    ensures Unvisited(a) == Unvisited(b)
  {
    if a != [] {
      UnvisitedKept(a[1..], b[1..]);
    }
  }

  /** The sum of the signals' values, added left to right as neuron.go's `sum` loop does. */
  function Sum(sigs: seq<Signal>): real
  {
    if sigs == [] then 0.0 else Sum(sigs[..|sigs| - 1]) + sigs[|sigs| - 1].v
  }

  /** The second loop of neuron.eval2: `sum += sig.v` over the collected signals. */
  method SumSignals(sigs: seq<Signal>) returns (sum: real)
    ensures sum == Sum(sigs)
  {
    sum := 0.0;
    var j := 0;
    while j < |sigs|
      invariant 0 <= j <= |sigs|
      invariant sum == Sum(sigs[..j])
    {
      assert sigs[..j + 1][..j] == sigs[..j];
      sum := sum + sigs[j].v;
      j := j + 1;
    }
    assert sigs[..j] == sigs;
  }

  /** `n.activationFunc(x)`: the activation is uninterpreted, so this only applies it. */
  function Activate(f: real -> real, x: real): real
  {
    f(x)
  }

  /**
   * `x * factor`. Kept as a named function so that two products with equal
   * factors are recognised as equal without arithmetic reasoning.
   */
  function Scaled(x: real, factor: real): real
  {
    x * factor
  }

  /** neuron.eval2: value of neuron `n` in pass `id`, and the arena afterwards. */
  ghost function EvalNeuron(ns: seq<Neuron>, syns: seq<Synapse>, def: real -> real, n: nat, id: int)
    : (r: (Signal, seq<Neuron>))
    requires WellFormed(ns, syns) && n < |ns|
    ensures Preserved(ns, r.1)
    decreases Unvisited(ns), 2
  {
    var m := ns[n];
    if m.calculated.Some? then
      (m.calculated.value, ns)
    else if m.layer == InputLayer then
      if m.memory.Some? then (m.memory.value, ns)
      else
        var sig := Signal(0.0, id);
        (sig, ns[n := m.(memory := Some(sig))])
    else
      var r1 := EvalIncoming(ns, syns, def, n, 0, id);
      Settle(r1.1, def, n, Sum(r1.0), id)
  }

  /**
   * The end of neuron.eval2 once the weighted inputs add up to `sum`: apply
   * the activation (the default when nil, which is then stored), tag the
   * result with the pass, save it as memory when asked, memoise it.
   */
  function Settle(ns: seq<Neuron>, def: real -> real, n: nat, sum: real, id: int): (r: (Signal, seq<Neuron>))
    requires n < |ns|
    ensures |r.1| == |ns| && r.0.id == id
    ensures r.1[n].calculated == Some(r.0) && r.1[n].activationFunc.Some? && !r.1[n].shouldSaveMemory
    ensures r.1[n].bias == ns[n].bias && r.1[n].incoming == ns[n].incoming && r.1[n].visited == ns[n].visited
    ensures forall i :: 0 <= i < |ns| && i != n ==> r.1[i] == ns[i]
  {
    var m := ns[n];
    var m1 := if m.activationFunc.None? then m.(activationFunc := Some(def)) else m;
    var sig := Signal(Activate(m1.activationFunc.value, Scaled(sum, m.bias)), id);
    var m2 := if m1.shouldSaveMemory then m1.(memory := Some(sig), shouldSaveMemory := false) else m1;
    (sig, ns[n := m2.(calculated := Some(sig))])
  }

  /** neuron.go's loop over `n.in` from position `k` on: the signals of those synapses, in list order. */
  ghost function EvalIncoming(ns: seq<Neuron>, syns: seq<Synapse>, def: real -> real, n: nat, k: nat, id: int)
    : (r: (seq<Signal>, seq<Neuron>))
    requires WellFormed(ns, syns) && n < |ns| && k <= |ns[n].incoming|
    ensures Preserved(ns, r.1)
    ensures |r.0| == |ns[n].incoming| - k
    decreases Unvisited(ns), 1, |ns[n].incoming| - k
  {
    if k == |ns[n].incoming| then
      ([], ns)
    else
      var r1 := EvalSynapse(ns, syns, def, ns[n].incoming[k], id);
      UnvisitedKept(ns, r1.1);
      var r2 := EvalIncoming(r1.1, syns, def, n, k + 1, id);
      ([r1.0] + r2.0, r2.1)
  }

  /** Loop state of neuron.go's loop over `n.in` after `k` synapses: `sigs` then the rest give `goal`. */
  ghost predicate Pulling(ns: seq<Neuron>, syns: seq<Synapse>, def: real -> real, n: nat, k: nat, id: int,
                          sigs: seq<Signal>, goal: (seq<Signal>, seq<Neuron>))
  {
    && WellFormed(ns, syns) && n < |ns| && k <= |ns[n].incoming|
    && goal.0 == sigs + EvalIncoming(ns, syns, def, n, k, id).0
    && goal.1 == EvalIncoming(ns, syns, def, n, k, id).1
  }

  /** One step of the loop over `n.in`: evaluate synapse `k`, then the rest from the state it leaves. */
  lemma IncomingStep(ns: seq<Neuron>, syns: seq<Synapse>, def: real -> real, n: nat, k: nat, id: int)
    requires WellFormed(ns, syns) && n < |ns| && k < |ns[n].incoming|
    ensures var r1 := EvalSynapse(ns, syns, def, ns[n].incoming[k], id);
            && WellFormed(r1.1, syns) && k + 1 <= |r1.1[n].incoming|
            && EvalIncoming(ns, syns, def, n, k, id).0 == [r1.0] + EvalIncoming(r1.1, syns, def, n, k + 1, id).0
            && EvalIncoming(ns, syns, def, n, k, id).1 == EvalIncoming(r1.1, syns, def, n, k + 1, id).1
  {
  }

  /** synapse.eval: the contribution of synapse `s` in pass `id`, and the arena afterwards. */
  ghost function EvalSynapse(ns: seq<Neuron>, syns: seq<Synapse>, def: real -> real, s: nat, id: int)
    : (r: (Signal, seq<Neuron>))
    requires WellFormed(ns, syns) && s < |syns|
    ensures Preserved(ns, r.1)
    decreases Unvisited(ns), 0
  {
    var syn := syns[s];
    var src := ns[syn.source];
    if src.visited && src.memory.Some? && src.memory.value.id != id then
      (Signal(src.memory.value.v * syn.weight, src.memory.value.id), ns)
    else if src.visited then
      (Signal(0.0, id), ns[syn.source := src.(shouldSaveMemory := true)])
    else
      var ns1 := ns[syn.source := src.(visited := true)];
      UnvisitedMark(ns, syn.source, src.(visited := true));
      var r1 := EvalNeuron(ns1, syns, def, syn.source, id);
      (Signal(r1.0.v * syn.weight, id), r1.1[syn.source := r1.1[syn.source].(visited := false)])
  }

  /** The arena of one network, evaluated in place. */
  class Graph {
    /** Every neuron of the network, by slot; `eval` updates them in place. */
    var neurons: seq<Neuron>
    /** Every synapse, by slot; `eval` never changes them. */
    const synapses: seq<Synapse>
    /** The package default (`sigmoid`) that replaces a nil activation function. */
    const defaultActivation: real -> real

    ghost predicate Valid()
      reads this
    {
      WellFormed(neurons, synapses)
    }

    /** Adopts an arena built elsewhere (`newNet` and `DNAToNet` are not part of this model). */
    constructor (ns: seq<Neuron>, syns: seq<Synapse>, def: real -> real)
      requires WellFormed(ns, syns)
      ensures neurons == ns && synapses == syns && defaultActivation == def
      ensures Valid()
    {
      neurons, synapses, defaultActivation := ns, syns, def;
    }

    /** neuron.eval2 */
    method Eval2(n: nat, id: int) returns (sig: Signal)
      requires Valid() && n < |neurons|
      modifies this
      ensures Valid()
      ensures sig == EvalNeuron(old(neurons), synapses, defaultActivation, n, id).0
      ensures neurons == EvalNeuron(old(neurons), synapses, defaultActivation, n, id).1
      decreases Unvisited(neurons), 3
    {
      var m := neurons[n];
      if m.calculated.Some? {
        return m.calculated.value;
      }
      if m.layer == InputLayer {
        if m.memory.None? {
          neurons := neurons[n := m.(memory := Some(Signal(0.0, id)))];
        }
        return neurons[n].memory.value;
      }

      var sigs := PullIncoming(n, id);
      var sum := SumSignals(sigs);

      var settled := Settle(neurons, defaultActivation, n, sum, id);
      sig := settled.0;
      neurons := settled.1;
    }

    /** The first loop of neuron.eval2: evaluate each synapse of `n.in`, in list order, collecting the signals. */
    method PullIncoming(n: nat, id: int) returns (sigs: seq<Signal>)
      requires Valid() && n < |neurons|
      modifies this
      ensures Valid()
      ensures sigs == EvalIncoming(old(neurons), synapses, defaultActivation, n, 0, id).0
      ensures neurons == EvalIncoming(old(neurons), synapses, defaultActivation, n, 0, id).1
      decreases Unvisited(neurons), 2
    {
      ghost var goal := EvalIncoming(neurons, synapses, defaultActivation, n, 0, id);
      ghost var u := Unvisited(neurons);
      var ins := neurons[n].incoming;
      sigs := [];
      var i := 0;
      assert sigs + goal.0 == goal.0;
      while i < |ins|
        invariant i <= |ins| && n < |neurons| && neurons[n].incoming == ins && Unvisited(neurons) == u
        invariant Pulling(neurons, synapses, defaultActivation, n, i, id, sigs, goal)
      {
        var sig := PullOne(n, i, id);
        sigs := sigs + [sig];
        i := i + 1;
      }
    }

    /** One iteration of that loop: `syn.eval(id)` for the synapse at position `k` of `n.in`. */
    method PullOne(n: nat, k: nat, id: int) returns (sig: Signal)
      requires Valid() && n < |neurons| && k < |neurons[n].incoming|
      modifies this
      ensures Valid() && n < |neurons| && neurons[n].incoming == old(neurons[n].incoming)
      ensures Unvisited(neurons) == Unvisited(old(neurons))
      ensures EvalIncoming(old(neurons), synapses, defaultActivation, n, k, id).0
              == [sig] + EvalIncoming(neurons, synapses, defaultActivation, n, k + 1, id).0
      ensures EvalIncoming(old(neurons), synapses, defaultActivation, n, k, id).1
              == EvalIncoming(neurons, synapses, defaultActivation, n, k + 1, id).1
      decreases Unvisited(neurons), 1
    {
      IncomingStep(neurons, synapses, defaultActivation, n, k, id);
      ghost var before := neurons;
      sig := SynEval(neurons[n].incoming[k], id);
      UnvisitedKept(before, neurons);
    }

    /** synapse.eval */
    method SynEval(s: nat, id: int) returns (sig: Signal)
      requires Valid() && s < |synapses|
      modifies this
      ensures Valid()
      ensures sig == EvalSynapse(old(neurons), synapses, defaultActivation, s, id).0
      ensures neurons == EvalSynapse(old(neurons), synapses, defaultActivation, s, id).1
      decreases Unvisited(neurons), 0
    {
      var syn := synapses[s];
      var src := neurons[syn.source];
      if src.visited && src.memory.Some? && src.memory.value.id != id {
        return Signal(src.memory.value.v * syn.weight, src.memory.value.id);
      }
      if src.visited {
        neurons := neurons[syn.source := src.(shouldSaveMemory := true)];
        return Signal(0.0, id);
      }
      UnvisitedMark(neurons, syn.source, src.(visited := true));
      neurons := neurons[syn.source := src.(visited := true)];
      var v := Eval2(syn.source, id);
      neurons := neurons[syn.source := neurons[syn.source].(visited := false)];
      sig := Signal(v.v * syn.weight, id);
    }
  }
}
