/**
 * net.go: the `signal` value that flows through the network, and the pass
 * driver `net.eval`.
 *
 * In net.go a neuron's `in` list holds synapse values that share their
 * backing storage with the network, so writing `neuron.in[0].memory` through
 * a range copy of the neuron still lands in the network. That shared storage
 * is the array `memory` here: one slot per synapse, and an input neuron is
 * given by the slots of its `in` list. The output neurons' own evaluation
 * (net.go's `neuron.eval`) is a parameter: it reads the synapse memory and
 * writes only to range copies, so it is a pure function of the memory, the
 * output neuron and the pass id.
 */
module NetPass {
  import opened Wrappers

  /** net.go's `signal`: a value and the pass id it was produced in. */
  datatype Signal = Signal(v: real, id: int)

  /**
   * net.go's `net`, as seen by `eval`: the `in` slots of every input neuron,
   * the output neurons (by index), and the pass counter. It is a value, as
   * `eval` has a value receiver.
   */
  datatype Net = Net(inputs: seq<seq<nat>>, outputs: seq<nat>, signalID: int)

  /** What `eval` needs to run without an index panic: an input per input neuron, and an `in[0]` for each of them. */
  predicate Feedable(n: Net, slots: nat, input: seq<real>)
  {
    && |input| >= |n.inputs|
    && forall i :: 0 <= i < |n.inputs| ==> |n.inputs[i]| > 0 && n.inputs[i][0] < slots
  }

  /** The synapse memory after the first `k` input neurons have been fed in pass `id`. */
  function Fed(mem: seq<Option<Signal>>, inputs: seq<seq<nat>>, input: seq<real>, id: int, k: nat)
    : (r: seq<Option<Signal>>)
    requires k <= |inputs| && k <= |input|
    requires forall i :: 0 <= i < k ==> |inputs[i]| > 0 && inputs[i][0] < |mem|
    ensures |r| == |mem|
  {
    if k == 0 then mem
    else Fed(mem, inputs, input, id, k - 1)[inputs[k - 1][0] := Some(Signal(input[k - 1], id))]
  }

  /** Applies the output-neuron evaluation. */
  function Probe(eval: (seq<Option<Signal>>, nat, int) -> Signal, mem: seq<Option<Signal>>, out: nat, id: int): Signal
  {
    eval(mem, out, id)
  }

  /**
   * net.eval: the pass id is one more than the counter; input neuron `i`'s
   * first incoming synapse gets `{input[i], id}`; then every output neuron is
   * evaluated with that id, in `out` order, and their values returned. The
   * caller's counter is not advanced (the receiver is a copy).
   */
  method Eval(n: Net, memory: array<Option<Signal>>, input: seq<real>, eval: (seq<Option<Signal>>, nat, int) -> Signal)
    returns (output: seq<real>)
    requires Feedable(n, memory.Length, input)
    modifies memory
    ensures memory[..] == Fed(old(memory[..]), n.inputs, input, n.signalID + 1, |n.inputs|)
    ensures |output| == |n.outputs|
    ensures forall k :: 0 <= k < |output| ==> output[k] == Probe(eval, memory[..], n.outputs[k], n.signalID + 1).v
  {
    var id := n.signalID + 1;
    ghost var mem0 := memory[..];
    var i := 0;
    while i < |n.inputs|
      invariant 0 <= i <= |n.inputs|
      invariant memory[..] == Fed(mem0, n.inputs, input, id, i)
    {
      memory[n.inputs[i][0]] := Some(Signal(input[i], id));
      i := i + 1;
    }

    var signals: seq<Signal> := [];
    var j := 0;
    while j < |n.outputs|
      invariant 0 <= j <= |n.outputs|
      invariant |signals| == j
      invariant forall k :: 0 <= k < j ==> signals[k] == Probe(eval, memory[..], n.outputs[k], id)
    {
      signals := signals + [Probe(eval, memory[..], n.outputs[j], id)];
      j := j + 1;
    }

    output := [];
    var k := 0;
    while k < |signals|
      invariant 0 <= k <= |signals|
      invariant |output| == k
      invariant forall q :: 0 <= q < k ==> output[q] == signals[q].v
    {
      output := output + [signals[k].v];
      k := k + 1;
    }
  }

  /**
   * When the input neurons' first slots are distinct, each of them ends up
   * holding its own input tagged with the pass, and every other slot keeps
   * its old memory.
   */
  lemma {:induction false} FedSlots(mem: seq<Option<Signal>>, inputs: seq<seq<nat>>, input: seq<real>, id: int, k: nat)
    requires k <= |inputs| && k <= |input|
    requires forall i :: 0 <= i < k ==> |inputs[i]| > 0 && inputs[i][0] < |mem|
    requires forall i, j :: 0 <= i < j < k ==> inputs[i][0] != inputs[j][0]
    ensures forall i :: 0 <= i < k ==> Fed(mem, inputs, input, id, k)[inputs[i][0]] == Some(Signal(input[i], id))
    ensures forall s :: 0 <= s < |mem| && (forall i :: 0 <= i < k ==> inputs[i][0] != s) ==>
              Fed(mem, inputs, input, id, k)[s] == mem[s]
  {
    if k > 0 {
      FedSlots(mem, inputs, input, id, k - 1);
    }
  }
}
