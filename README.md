# net: a recurrent neural-network package, modelled in Dafny

The Go package `net` (github.com/Wouterbeets/net) builds small recurrent
neural networks and evolves them with a genetic algorithm. This project
models its core and proves properties of the model:

- **The signal-propagation engine** (`neuron.go`, `synapse.go`), in
  `engine.dfy` and `engine_facts.dfy`. `neuron.eval2` and `synapse.eval` call
  each other recursively over a graph that may contain cycles. A synapse
  marks its source `visited` before it descends and clears the mark after.
  When a synapse meets a loop it returns a zero signal and asks the source to
  save its next value as `memory`. On a later pass that memory is replayed.
  A neuron memoises its result in `calculated`. The graph is an arena: the
  neurons are the field `neurons: seq<Neuron>` of the class `Engine.Graph`,
  and a synapse names its source by slot index. The methods `Eval2`,
  `PullIncoming`, `PullOne` and `SynEval` update that field in place. They are
  proved to compute the ghost functions `EvalNeuron`, `EvalIncoming` and
  `EvalSynapse`. Their termination measure is the number of unvisited
  neurons. The lemmas of `EngineFacts` state the behaviour of each branch,
  memoisation, idempotence and the frame.
- **The pass driver** `net.eval` and the `signal` type (`net.go`), in
  `net.dfy`. The memory of the synapses that feed the input neurons is an
  array, because `net.go` writes it through copies that share storage with
  the network.
- **The flat genome** (`dna.go`), in `dna.dfy`: `NetToDna` concatenates the
  genes of every synapse, and `DNA.String` prints one record per four genes.
- **The builder** (`builder.go`), in `builder.dfy`: the class `Builder` with
  its fluent setters, size validation and default substitution.
- **The XOR predictor** (`cmd/predictor/main.go`), in `predictor.dfy`: the
  `scoreXOR` fitness, the guards of `Evaluate`, and the map and list steps of
  `Mutate` and `Crossover`. The class `Predictor` holds the network handle
  that those two operations replace.

Signal values, weights and biases are `real`. Activation functions are
uninterpreted `real -> real` values. Randomness, the `%f` formatter, the
iteration order of Go maps and the callees that are not part of this model
(`newNet`, `DNAToNet`, `Net.Eval`, `net.NetToDna` on maps) are parameters.

`net.go` also contains an older `neuron`, `synapse` and `neuron.eval` that
duplicate `neuron.go` and `synapse.go` and do not compile (net.go:39). Only
`signal` and `net.eval` are taken from it. In `net.eval` the output neurons'
evaluation is a parameter.

## Model

| member | source | states |
|---|---|---|
| Engine.Graph.Eval2 | neuron.go:27-68 | The returned signal and the new arena are exactly those of `EvalNeuron` on the old arena, and the arena stays well formed. |
| Engine.Graph.PullIncoming | neuron.go:41-48 | The collected signals and the new arena are exactly those of `EvalIncoming` from position 0: every incoming synapse is evaluated once, in `in` order. |
| Engine.Graph.PullOne | neuron.go:42-47 | One loop step: the signal of synapse `k` followed by the signals of the rest from the new state make up the signals from `k` on. The `in` list and the number of unvisited neurons are unchanged. |
| Engine.Graph.SynEval | synapse.go:12-30 | The returned signal and the new arena are exactly those of `EvalSynapse` on the old arena, and the arena stays well formed. |
| Engine.SumSignals | neuron.go:50-53 | The loop's sum is `Sum` of the signals, added left to right. |
| Engine.Settle | neuron.go:56-67 | The closing step of a computed neuron tags its result with the pass and memoises it. It leaves an activation function set and the save flag down. The bias, `in` list and mark are kept, and no other neuron changes. |
| Engine.EvalNeuron | neuron.go:27-68 | A neuron evaluation leaves every `visited` mark and every `in` list as it found it. |
| Engine.EvalIncoming | neuron.go:41-48 | The loop over `in` from position `k` gives one signal per remaining synapse and leaves the marks and `in` lists as they were. |
| Engine.EvalSynapse | synapse.go:12-30 | A synapse evaluation leaves every `visited` mark and every `in` list as it found it. |
| Engine.IncomingStep | neuron.go:42-47 | The signals from position `k` on are the signal of synapse `k`, then the signals from `k + 1` on evaluated in the state that synapse left. |
| Engine.Unvisited | synapse.go:25-28 | The number of unvisited neurons, the termination measure, is at most the number of neurons. |
| Engine.UnvisitedMark | synapse.go:25-27 | Marking an unvisited source lowers the number of unvisited neurons by exactly one, so every descent is into a smaller problem, even through self-loops. |
| Engine.UnvisitedKept | synapse.go:25-28 | Two arenas with the same marks have the same number of unvisited neurons. |
| EngineFacts.MemoHit | neuron.go:29-32 | A neuron whose `calculated` is set returns that signal and leaves the arena unchanged. |
| EngineFacts.InputNeuron | neuron.go:33-39 | An input neuron returns its memory and changes nothing. When the memory is nil it first stores a zero signal tagged with the pass, and no other neuron changes. |
| EngineFacts.ComputedNeuron | neuron.go:41-67 | A hidden or output neuron pulls one signal per incoming synapse and returns the activation of their left-to-right sum times its bias. The result is tagged with the pass and stored in `calculated`. A nil activation becomes the default and a set one is kept. The result is saved as memory exactly when the save flag is up, and the flag is cleared. Other neurons are as the synapses left them. |
| EngineFacts.SettleFacts | neuron.go:56-67 | The closing step on its own: default activation, result tagged with the pass, memory saved only when asked, save flag down, result memoised, no other neuron touched. |
| EngineFacts.Idempotent | neuron.go:29-32 | Evaluating a neuron again in the same pass returns the identical signal and leaves the arena unchanged. |
| EngineFacts.SynapseOnPath | synapse.go:13-24 | With the source on the active path: a memory from an earlier pass is replayed as `memory.v * weight` under its own tag, with no change. Otherwise the synapse sets the source's save flag and returns zero tagged with the pass, without descending. |
| EngineFacts.SynapseDescends | synapse.go:25-29 | With the source off the path: the source is evaluated with its mark up, the mark is taken down again, and the result is `v * weight` tagged with the pass. |
| EngineFacts.NeuronSteady | neuron.go:27-68 | A neuron evaluation keeps the static fields and set `calculated` values and set activation functions. Every `calculated` or `memory` it changes carries the pass id. |
| EngineFacts.IncomingSteady | neuron.go:41-48 | The same for the loop over `in`. |
| EngineFacts.SynapseSteady | synapse.go:12-30 | The same for a synapse evaluation. |
| EngineFacts.SynapseFrame | synapse.go:25-29 | A synapse evaluation leaves every `visited` mark and `in` list as it found it, and otherwise only writes values tagged with the pass. |
| EngineFacts.PreservedWellFormed | synapse.go:12-30 | Keeping the `in` lists keeps every synapse index of the arena in range. |
| NetPass.Eval | net.go:67-83 | Input neuron `i`'s first incoming slot is set to `input[i]` under pass id `signalID + 1`. Exactly one value per output neuron comes back, in `out` order. Every output is evaluated with that same id, on the memory after feeding. The caller's `Net`, a value, keeps its counter. |
| NetPass.Fed | net.go:69-71 | Feeding the inputs changes no slot count. |
| NetPass.FedSlots | net.go:69-71 | When the first slots are distinct, each holds its own input tagged with the pass, and every other slot keeps its old memory. |
| Dna.NetToDna | dna.go:9-14 | The genome is the concatenation of the synapses' gene groups, in synapse order. |
| Dna.ConcatLength | dna.go:9-14 | With four genes per synapse the genome has exactly four reals per synapse, so its length is a multiple of four. |
| Dna.NoSynapses | dna.go:9-14 | A network without synapses has the empty genome. |
| Dna.Record | dna.go:21-28 | Each record is non-empty and ends in a newline. |
| Dna.Render | dna.go:17-32 | Printing succeeds exactly when the genome's length is a multiple of four. |
| Dna.String | dna.go:17-32 | The loop reads four reals per step and returns the text of every group. It fails with the index panic exactly when the length is not a multiple of four. |
| Dna.EmptyText | dna.go:18-31 | The empty genome prints as "". |
| Dna.TextAppend | dna.go:20-31 | The text of `a + b`, with `a` made of whole groups, is the text of `a` followed by the text of `b`. |
| Dna.RenderAppend | dna.go:20-31 | For `a` of length a multiple of four, printing `a + b` gives the text of `a` then the text of `b`, and fails exactly when printing `b` fails. |
| Dna.RenderGenome | dna.go:9-32 | Printing a network's genome succeeds and yields one record per synapse, in synapse order. |
| NetBuilder.SizeError | builder.go:58-66 | Build reports no error exactly when all three sizes are at least 1. Otherwise it reports the input, output or hidden message, for the first failing check in that order. |
| NetBuilder.Builder.Default | builder.go:40-51 | A new builder holds the default settings. |
| NetBuilder.Builder.Size | builder.go:119-124 | Sets input, hidden and output size from the three arguments in that order, changes nothing else, and returns the receiver. |
| NetBuilder.Builder.ActivationFunc | builder.go:100-103 | Sets only the activation function (nil allowed) and returns the receiver. |
| NetBuilder.Builder.WeightFunc | builder.go:106-109 | Sets only the weight generator and returns the receiver. |
| NetBuilder.Builder.BiasFunc | builder.go:112-116 | Sets only the bias generator and returns the receiver. |
| NetBuilder.Builder.Build | builder.go:54-78 | Returns `Configure` of the old settings. On a size error the builder is unchanged. On success its nil functions are replaced by the defaults in place. |
| NetBuilder.Builder.BuildFromDNA | builder.go:81-97 | Stores the genome, fills the nil functions with the defaults, and always returns the "not implemented" error. |
| NetBuilder.Build | builder.go:54-78 | A nil builder builds as the default builder; a non-nil one builds from its own settings. A non-nil builder is unchanged on a size error, and on success its nil functions are filled with the defaults. |
| NetBuilder.BuildFromDNA | builder.go:81-84 | Through a nil or non-nil builder the result is always the "not implemented" error. A non-nil builder stores the genome and its functions are filled. |
| NetBuilder.BuildErrors | builder.go:58-66 | Build fails exactly when some size is below 1, with the message of the first failing check. |
| NetBuilder.BuildDefaults | builder.go:67-75 | With valid sizes Build succeeds. Each nil function is replaced by its default, each set one is kept, and the sizes are passed on. |
| NetBuilder.NilBuilder | builder.go:55-57 | A nil builder builds the default 2/2/2 network with the default functions. |
| Predictor.ScoreXOR | cmd/predictor/main.go:23-48 | The score is the drift minus the number of strictly right cases. The drift subtracts the output difference of the cases 0 xor 0 and 1 xor 1 and adds that of the other two. |
| Predictor.ScoreBounds | cmd/predictor/main.go:23-48 | When all four cases point the right way strictly, the score is below -4. When none does, the score is at least 0. |
| Predictor.Size | cmd/predictor/main.go:16-21 | The size penalty is non-negative, and 200 times it is the number of synapse and neuron genes. |
| Predictor.EvaluateFrom | cmd/predictor/main.go:50-88 | From case `k` on, the `Eval` calls go in case order and each one before the last was usable. Fewer than four calls happen only when the last one was unusable, and then the fitness is MaxFloat64. |
| Predictor.Evaluate | cmd/predictor/main.go:50-88 | Between one and four `Eval` calls are made, in case order, and every call but the last was usable. Stopping before the fourth call means the last output was unusable and the fitness is MaxFloat64. |
| Predictor.EvaluateStops | cmd/predictor/main.go:50-87 | The first `Eval` that errors or does not give exactly two outputs ends the evaluation with MaxFloat64, and no further `Eval` is made. |
| Predictor.EvaluateScores | cmd/predictor/main.go:50-88 | With four usable outputs the fitness is scoreXOR of them, in case order, plus `Size` of the network's genome, after exactly four calls. |
| Predictor.Mutated | cmd/predictor/main.go:118-131 | Write-back produces one copy per extracted gene. |
| Predictor.WriteBackPositional | cmd/predictor/main.go:127-131 | Copy `i` gets the `i`-th mutated weight, source and destination and keeps its own bias. |
| Predictor.Extract | cmd/predictor/main.go:107-111 | The appending loop yields one weight, source id and destination id per copy, position by position, in list order. |
| Predictor.WriteBack | cmd/predictor/main.go:107-131 | Extraction, mutation and the write-back loop yield exactly `Mutated` of the copies. |
| Predictor.AddRemove | cmd/predictor/main.go:137-156 | The rare add and rare removal yield exactly `Resize` of the map. |
| Predictor.ResizeBounds | cmd/predictor/main.go:137-156 | The add is a set insert, so it adds at most one gene. The removal takes exactly one gene and only when more than 2 are present, so a map of at least 2 genes keeps at least 2. Every gene left was there before or is the added one. |
| Predictor.AsWrittenIgnoresMutation | cmd/predictor/main.go:98-158 | As written, without the rare add or removal, the genome handed to DNAToNet is the genome read, whatever the mutation did to the copies. |
| Predictor.MutationLostExample | cmd/predictor/main.go:118-131 | A one-gene genome whose weight is moved from 0.5 to 1.5: the mutated copy is not in the map that is handed on. |
| Predictor.IntendedKeepsMutation | cmd/predictor/main.go:127-158 | With the copies written back into the map, every mutated copy reaches the genome handed on, except at most the one the rare removal takes. Every other gene there is the added one. |
| Predictor.Predictor.Mutate | cmd/predictor/main.go:91-163 | As written: the network becomes DNAToNet of the resized original map, or stays the old one when DNAToNet fails. The listing loop and the removal loop each have their own iteration order. |
| Predictor.Predictor.MutateIntended | cmd/predictor/main.go:91-163 | Corrected: the network becomes DNAToNet of the resized map rebuilt from the mutated copies, or stays the old one when DNAToNet fails. |
| Predictor.Exchange | cmd/predictor/main.go:194 | Crossover keeps both gene lists at their length. |
| Predictor.ExchangeAt | cmd/predictor/main.go:194 | The two lists exchange exactly the genes at the crossover positions and keep every other gene in place. |
| Predictor.ExchangeConserves | cmd/predictor/main.go:194 | No gene is lost or made: both lists together hold the same genes, with multiplicity, as before. |
| Predictor.ElementsCard | cmd/predictor/main.go:196-204 | A map rebuilt from a gene list has at most as many genes as the list, and exactly as many when the list has no duplicates. |
| Predictor.Rebuild | cmd/predictor/main.go:196-204 | The rebuilding loop yields exactly the set of genes in the list. |
| Predictor.CrossedSizes | cmd/predictor/main.go:166-204 | For any two listing orders of the two maps: after crossover neither map has grown, the neuron genes are untouched, and every gene in the two new maps came from the two old ones. |
| Predictor.CloneCrossover | cmd/predictor/main.go:176-199 | Two clones with map {a, b}, listed in opposite orders by the two loops and crossed at position 1, end with maps {a} and {b}: crossover can shrink the maps. |
| Predictor.Predictor.Crossover | cmd/predictor/main.go:166-218 | Unequal map sizes leave both networks untouched. Otherwise, with each map listed in its own loop's order, the first network is replaced by DNAToNet of the first crossed genome, and only if that succeeds the second by that of the second. A failure stops there. |

## Left out

- Floating point: `sigmoid`, `math.Exp` and float64 rounding are not modelled. Values are reals and the activation is uninterpreted, so sums and products are exact.
- The `fmt.Println` tracing in neuron.go and synapse.go is output only and is not modelled.
- Randomness is a parameter: `rand`, `rand.Seed`, eaopt's `MutNormalFloat64`, `MutPermuteInt` and `CrossGNX`. The mutation draws are the datatype `Draws`, and `CrossGNX` is the position set `swapAt` of `Exchange`. The model does not capture that `CrossGNX` picks one contiguous cut.
- The iteration order of Go maps: every `range` loop over a map has its own parameter (`order`, `order2`, `pick`), which lists that map's genes once. Each loop's order can be any listing, independent of the others. Within one loop the order is a function of the map's contents.
- Callees that are not part of this model are parameters or opaque: `newNet`, `Net.synapses`, `synapse.DNA`, `DNAToNet`, `ToDot`, `Net.Eval` and the map form of `net.NetToDna`. `Dna.NetToDna` takes the synapses' gene groups, and a successful `Build` yields the `Config` it would hand to `newNet`.
- `%f` formatting is the parameter `fmt`.
- net.go's `neuron`, `synapse` and `neuron.eval` (net.go:5-58) do not compile. The output evaluation in `NetPass.Eval` is a parameter.
- NetPass.Eval: the index panics of `net.eval` (an input shorter than the input layer, an input neuron without an incoming synapse) are preconditions, not an error path.
- The nil `source` of a synapse: synapse.go:13 tests for nil but synapse.go:20 dereferences it anyway. In the arena every synapse has a source index in range, so that panic cannot be expressed.
- The synapses' own `memory` field is carried but never read or written by `synapse.eval`, so it is not evolved.
- cmd/snake and cmd/checkNet are UI, I/O and concurrency glue and are not modelled.
- Predictor.Predictor.Mutate: the bias mutation of the neuron genes (cmd/predictor/main.go:113-119, 133-135) is not modelled. The element type of `dna.Neurons` is not part of this model, so whether its write-back reaches the genome is unknown. The neuron genes are handed on unchanged.
- Predictor.Predictor.Crossover: when `genome` is the receiver itself, the contract states only the size guard. The two writes then go to the same network, and their outcome is not stated.
- Predictor.Evaluate: the error result of `Evaluate` is always nil and is not modelled.
- NetBuilder.SizeError: the messages say "should be > 1", but a size of exactly 1 passes the check. The model follows the check.
- NetBuilder.Builder.Size: the arguments are taken in the order input, hidden, output, as the code does.

## Findings

| source | as written | input that shows it | evidently intended | confidence | as-written member | corrected member |
|---|---|---|---|---|---|---|
| cmd/predictor/main.go:98-131,158 | The mutated weights, sources and destinations are written into fresh copies of the genes. The map handed to `DNAToNet` is never rebuilt from those copies, so without a rare add or removal the network is rebuilt unchanged. | One gene `{0, 1, 0, 0.5}` whose weight the Gaussian mutation moves to 1.5, with no rare add or removal: the genome handed on still has weight 0.5. | The map handed on is rebuilt from the mutated copies, as `Crossover` does at cmd/predictor/main.go:196-199. | not executed | Predictor.Predictor.Mutate, Predictor.AsWrittenIgnoresMutation, Predictor.MutationLostExample | Predictor.Predictor.MutateIntended, Predictor.IntendedKeepsMutation |
