/**
 * Properties of one evaluation of neuron.go's `eval2` and synapse.go's
 * `eval`, stated on the specification functions of module `Engine` (the
 * methods of `Engine.Graph` are proved to compute exactly those).
 */
module EngineFacts {
  import opened Wrappers
  import opened NetPass
  import opened Engine

  /** `Preserved` keeps the arena well formed against the same synapses. */
  lemma PreservedWellFormed(a: seq<Neuron>, b: seq<Neuron>, syns: seq<Synapse>)
    requires WellFormed(a, syns) && Preserved(a, b)
    ensures WellFormed(b, syns)
  {
    forall i | 0 <= i < |b|
      ensures Below(b[i].incoming, |syns|)
    {
      assert a[i].incoming == b[i].incoming;
    }
  }

  lemma SteadyTrans(a: seq<Neuron>, b: seq<Neuron>, c: seq<Neuron>, id: int)
    requires Steady(a, b, id) && Steady(b, c, id)
    ensures Steady(a, c, id)
  {
  }

  /** A memoised neuron answers from `calculated` and leaves the arena as it is. */
  lemma MemoHit(ns: seq<Neuron>, syns: seq<Synapse>, def: real -> real, n: nat, id: int)
    requires WellFormed(ns, syns) && n < |ns| && ns[n].calculated.Some?
    ensures EvalNeuron(ns, syns, def, n, id) == (ns[n].calculated.value, ns)
  {
  }

  /**
   * An input neuron (not memoised) answers with its `memory`; when that is
   * empty it first stores a zero signal tagged with the pass and nothing else
   * changes.
   */
  lemma InputNeuron(ns: seq<Neuron>, syns: seq<Synapse>, def: real -> real, n: nat, id: int)
    requires WellFormed(ns, syns) && n < |ns| && ns[n].calculated.None? && ns[n].layer == InputLayer
    ensures var r := EvalNeuron(ns, syns, def, n, id);
            && r.1[n].memory == Some(r.0)
            && (ns[n].memory.Some? ==> r == (ns[n].memory.value, ns))
            && (ns[n].memory.None? ==> r.0 == Signal(0.0, id))
            && |r.1| == |ns|
            && forall i :: 0 <= i < |ns| && i != n ==> r.1[i] == ns[i]
  {
  }

  /**
   * A hidden or output neuron that is not memoised: its result is the
   * activation of the weighted sum (the signals of all of `in`, in order,
   * added left to right) times the bias, tagged with the pass and memoised;
   * a nil activation function becomes the default and a set one is kept;
   * the result is saved as memory exactly when the save flag is up by then,
   * and the flag is down afterwards.
   */
  lemma ComputedNeuron(ns: seq<Neuron>, syns: seq<Synapse>, def: real -> real, n: nat, id: int)
    requires WellFormed(ns, syns) && n < |ns| && ns[n].calculated.None? && ns[n].layer != InputLayer
    ensures var r := EvalNeuron(ns, syns, def, n, id);
            var pulled := EvalIncoming(ns, syns, def, n, 0, id);
            var before := pulled.1[n];
            && |pulled.0| == |ns[n].incoming|
            && r.0.id == id
            && r.1[n].calculated == Some(r.0)
            && r.1[n].activationFunc == (if before.activationFunc.None? then Some(def) else before.activationFunc)
            && before.bias == ns[n].bias
            && r.0.v == Activate(r.1[n].activationFunc.value, Scaled(Sum(pulled.0), before.bias))
            && r.1[n].memory == (if before.shouldSaveMemory then Some(r.0) else before.memory)
            && !r.1[n].shouldSaveMemory
            && |r.1| == |ns|
            && forall i :: 0 <= i < |ns| && i != n ==> r.1[i] == pulled.1[i]
  {
    var pulled := EvalIncoming(ns, syns, def, n, 0, id);
    NeuronSteady(ns, syns, def, n, id);
    IncomingSteady(ns, syns, def, n, 0, id);
    assert pulled.1[n].bias == ns[n].bias;
    SettleFacts(pulled.1, def, n, Sum(pulled.0), id);
  }

  /** The closing step of neuron.eval2 on its own (see `ComputedNeuron`). */
  lemma SettleFacts(ns: seq<Neuron>, def: real -> real, n: nat, sum: real, id: int)
    requires n < |ns|
    ensures var r := Settle(ns, def, n, sum, id);
            && r.0.id == id
            && r.1[n].calculated == Some(r.0)
            && r.1[n].activationFunc == (if ns[n].activationFunc.None? then Some(def) else ns[n].activationFunc)
            && r.0.v == Activate(r.1[n].activationFunc.value, Scaled(sum, ns[n].bias))
            && r.1[n].memory == (if ns[n].shouldSaveMemory then Some(r.0) else ns[n].memory)
            && !r.1[n].shouldSaveMemory
            && |r.1| == |ns|
            && forall i :: 0 <= i < |ns| && i != n ==> r.1[i] == ns[i]
  {
  }

  /** Evaluating a neuron a second time in the same pass returns the identical signal and changes nothing. */
  lemma Idempotent(ns: seq<Neuron>, syns: seq<Synapse>, def: real -> real, n: nat, id: int)
    requires WellFormed(ns, syns) && n < |ns|
    ensures var r := EvalNeuron(ns, syns, def, n, id);
            && WellFormed(r.1, syns)
            && EvalNeuron(r.1, syns, def, n, id) == r
  {
    var r := EvalNeuron(ns, syns, def, n, id);
    PreservedWellFormed(ns, r.1, syns);
    if ns[n].calculated.Some? {
      MemoHit(ns, syns, def, n, id);
    } else if ns[n].layer == InputLayer {
      InputNeuron(ns, syns, def, n, id);
      InputNeuron(r.1, syns, def, n, id);
    } else {
      ComputedNeuron(ns, syns, def, n, id);
      MemoHit(r.1, syns, def, n, id);
    }
  }

  /**
   * A synapse whose source is on the active path does not descend. With a
   * memory from an earlier pass it replays `memory.v * weight` under the
   * memory's own tag and changes nothing; otherwise (a loop) it asks the
   * source to save its next value and answers zero tagged with the pass.
   */
  lemma SynapseOnPath(ns: seq<Neuron>, syns: seq<Synapse>, def: real -> real, s: nat, id: int)
    requires WellFormed(ns, syns) && s < |syns| && ns[syns[s].source].visited
    ensures var r := EvalSynapse(ns, syns, def, s, id);
            var src := ns[syns[s].source];
            && (src.memory.Some? && src.memory.value.id != id ==>
                  r == (Signal(src.memory.value.v * syns[s].weight, src.memory.value.id), ns))
            && (src.memory.None? || src.memory.value.id == id ==>
                  r.0 == Signal(0.0, id) && r.1 == ns[syns[s].source := src.(shouldSaveMemory := true)])
  {
  }

  /**
   * A synapse whose source is off the active path evaluates the source with
   * its mark up, takes the mark down again, and answers the source's value
   * times the weight, tagged with the pass.
   */
  lemma SynapseDescends(ns: seq<Neuron>, syns: seq<Synapse>, def: real -> real, s: nat, id: int)
    requires WellFormed(ns, syns) && s < |syns| && !ns[syns[s].source].visited
    ensures var src := syns[s].source;
            var marked := ns[src := ns[src].(visited := true)];
            && WellFormed(marked, syns)
            && var inner := EvalNeuron(marked, syns, def, src, id);
            var r := EvalSynapse(ns, syns, def, s, id);
            && r.0 == Signal(inner.0.v * syns[s].weight, id)
            && r.1 == inner.1[src := inner.1[src].(visited := false)]
            && !r.1[src].visited
  {
    var src := syns[s].source;
    var marked := ns[src := ns[src].(visited := true)];
    assert Preserved(ns, marked) ==> WellFormed(marked, syns) by {
      forall i | 0 <= i < |marked|
        ensures Below(marked[i].incoming, |syns|)
      {
        assert marked[i].incoming == ns[i].incoming;
      }
    }
  }

  /** A neuron evaluation only makes the writes `Steady` allows. */
  lemma {:induction false} NeuronSteady(ns: seq<Neuron>, syns: seq<Synapse>, def: real -> real, n: nat, id: int)
    requires WellFormed(ns, syns) && n < |ns|
    ensures Steady(ns, EvalNeuron(ns, syns, def, n, id).1, id)
    decreases Unvisited(ns), 2
  {
    if ns[n].calculated.None? && ns[n].layer != InputLayer {
      var pulled := EvalIncoming(ns, syns, def, n, 0, id);
      IncomingSteady(ns, syns, def, n, 0, id);
      var r := Settle(pulled.1, def, n, Sum(pulled.0), id);
      assert r == EvalNeuron(ns, syns, def, n, id);
      forall i | 0 <= i < |ns|
        ensures r.1[i].calculated != ns[i].calculated ==> r.1[i].calculated.Some? && r.1[i].calculated.value.id == id
        ensures r.1[i].memory != ns[i].memory ==> r.1[i].memory.Some? && r.1[i].memory.value.id == id
        ensures ns[i].activationFunc.Some? ==> r.1[i].activationFunc == ns[i].activationFunc
      {
      }
    }
  }

  lemma {:induction false} IncomingSteady(ns: seq<Neuron>, syns: seq<Synapse>, def: real -> real, n: nat, k: nat, id: int)
    requires WellFormed(ns, syns) && n < |ns| && k <= |ns[n].incoming|
    ensures Steady(ns, EvalIncoming(ns, syns, def, n, k, id).1, id)
    decreases Unvisited(ns), 1, |ns[n].incoming| - k
  {
    if k < |ns[n].incoming| {
      var r1 := EvalSynapse(ns, syns, def, ns[n].incoming[k], id);
      SynapseSteady(ns, syns, def, ns[n].incoming[k], id);
      UnvisitedKept(ns, r1.1);
      PreservedWellFormed(ns, r1.1, syns);
      IncomingSteady(r1.1, syns, def, n, k + 1, id);
      SteadyTrans(ns, r1.1, EvalIncoming(r1.1, syns, def, n, k + 1, id).1, id);
    }
  }

  lemma {:induction false} SynapseSteady(ns: seq<Neuron>, syns: seq<Synapse>, def: real -> real, s: nat, id: int)
    requires WellFormed(ns, syns) && s < |syns|
    ensures Steady(ns, EvalSynapse(ns, syns, def, s, id).1, id)
    decreases Unvisited(ns), 0
  {
    var src := syns[s].source;
    if !ns[src].visited {
      var marked := ns[src := ns[src].(visited := true)];
      UnvisitedMark(ns, src, ns[src].(visited := true));
      SynapseDescends(ns, syns, def, s, id);
      NeuronSteady(marked, syns, def, src, id);
      var inner := EvalNeuron(marked, syns, def, src, id);
      SteadyTrans(ns, marked, inner.1, id);
      SteadyTrans(ns, inner.1, inner.1[src := inner.1[src].(visited := false)], id);
    }
  }

  /**
   * One evaluation of a synapse leaves every `visited` mark and every `in`
   * list as it found it, and otherwise only makes the writes `Steady` allows.
   */
  lemma SynapseFrame(ns: seq<Neuron>, syns: seq<Synapse>, def: real -> real, s: nat, id: int)
    requires WellFormed(ns, syns) && s < |syns|
    ensures var r := EvalSynapse(ns, syns, def, s, id);
            && Preserved(ns, r.1) && Steady(ns, r.1, id)
            && forall i :: 0 <= i < |ns| ==> r.1[i].visited == ns[i].visited
  {
    SynapseSteady(ns, syns, def, s, id);
  }
}
