# Pull evaluation of flow-graph data connections

This project models `FlowGraphDataConnection<T>`, the data port of the
Babylon.js flow graph, and proves properties of its read protocol.

A data connection is either an Input or an Output. It belongs to one block.
It stores one value (`richValue`), which starts as its rich type's default.
It also keeps the list of points it is linked to (`_connectedPoint`).

- `_isSingularConnection()` holds exactly for Inputs. An Input takes one link.
  An Output fans out to any number of Inputs.
- The `value` setter overwrites the connection's own stored value.
- `getValue(context)` on an Output first runs the owner block's
  `_updateOutputs(context)`, then returns the stored value.
- `getValue(context)` on an unconnected Input returns the stored value, which
  acts as a literal.
- `getValue(context)` on a connected Input returns
  `_connectedPoint[0].getValue(context)` and never touches its own cell.

The model keeps all connections of a graph in one arena, indexed by
connection id, with links stored as peer ids.

- `FlowGraphTopology` (topology.dfy) holds the fixed part of each connection:
  name, direction, owner, rich type and links. It also holds the blocks and
  the well-formedness invariant `Wf`. `Wf` covers the fan-in rule, symmetric
  links and acyclicity.
- `PullEvaluation` (evaluation.dfy) gives `getValue` as a function from a state
  to the value read and the new state. The state is every stored value plus a
  log of `_updateOutputs` calls. The lemmas about reads live here.
- `DataConnectionArena` (arena.dfy) is the imperative model: a `Graph` class
  whose `values` field the setter and `getValue` update in place. Each method
  is proved equal to the corresponding function, so the lemmas apply to it.
- `Scenarios` (scenarios.dfy) works an adder block and an output-to-input
  relay through the protocol.

A block's `_updateOutputs(context)` is abstract. It pulls a fixed list of its
own inputs in order, each with the same context. It then writes its own
outputs with a block-supplied function of the context, the pulled values and
the outputs' current values. A block that leaves its outputs alone returns the
current values unchanged. Each block carries a rank. Every link goes from a
lower-ranked block to a higher-ranked one. This rank is the termination
measure of the recursive read.

The model follows the code as written:
- The setter at line 31 assigns without a type check, so no type-mismatch
  error is modelled.
- Line 43 reads the first link, with no check for a second one. The model
  takes `connectedPoints[0]`, and "at most one link" is part of `Wf`, not a
  read-time error.
- The class comment (lines 11-12) says an output has a value only when
  connected. The code reads an output's owner and cell whatever its links, and
  so does the model.

## Model

| member | source | states |
|---|---|---|
| `FlowGraphTopology.FanIn` | packages/dev/core/src/FlowGraph/flowGraphDataConnection.ts:22-28 | A connection is singular exactly when it is an Input. In a well-formed graph an Input has at most one link, and that link leads to an Output that records the Input back. |
| `FlowGraphTopology.IsSingularConnection` | packages/dev/core/src/FlowGraph/flowGraphDataConnection.ts:26-28 | `_isSingularConnection`: holds exactly for Inputs (the equivalence is stated by `FanIn`), so `Wf` limits exactly the Inputs to one link. |
| `FlowGraphTopology.FanOutUnrestricted` | packages/dev/core/src/FlowGraph/flowGraphDataConnection.ts:22-27 | For every n there is a well-formed graph with an Output linked to n Inputs, so fan-out is not limited. |
| `PullEvaluation.Read` | packages/dev/core/src/FlowGraph/flowGraphDataConnection.ts:34-45 | `getValue`: an Output updates its owner and then reads its cell. An unconnected Input reads its own cell. A connected Input reads its first link. The new state has the same number of cells and extends the call log. |
| `PullEvaluation.UpdateOutputs` | packages/dev/core/src/FlowGraph/flowGraphDataConnection.ts:36 | The owner update logs itself, pulls the block's inputs with the same context and rewrites the block's outputs. It keeps every cell slot and only extends the log. |
| `PullEvaluation.ReadAll` | packages/dev/core/src/FlowGraph/flowGraphDataConnection.ts:36 | Pulling a block's inputs yields one value per input, keeps every cell slot and only extends the log. |
| `PullEvaluation.ReadEffect` | packages/dev/core/src/FlowGraph/flowGraphDataConnection.ts:34-45 | A read rewrites only Output cells of blocks ranked no higher than the read connection's block (strictly lower when it is an Input). Every call it logs is for such a block and carries the read's context. |
| `PullEvaluation.ReadThreadsContext` | packages/dev/core/src/FlowGraph/flowGraphDataConnection.ts:34-45 | Every `_updateOutputs` call made during a read receives the context given to the read. |
| `PullEvaluation.ReadKeepsInputCells` | packages/dev/core/src/FlowGraph/flowGraphDataConnection.ts:40-44 | No read changes the stored value of any Input, including the Input being read. |
| `PullEvaluation.ReadUnconnectedInput` | packages/dev/core/src/FlowGraph/flowGraphDataConnection.ts:40-41 | An unconnected Input reads as its own stored value in every context, and the state is unchanged. |
| `PullEvaluation.ReadConnectedInputIsProxy` | packages/dev/core/src/FlowGraph/flowGraphDataConnection.ts:42-43 | A connected Input reads exactly as its linked Output does, with the same context and the same resulting state. Its own cell is left unchanged and cannot affect the result. |
| `PullEvaluation.ReadIgnoresInputCell` | packages/dev/core/src/FlowGraph/flowGraphDataConnection.ts:42-43 | Overwriting a connected Input's cell changes neither the value of any read nor anything else that read does. |
| `PullEvaluation.ReadOutputUpdatesOwnerOnce` | packages/dev/core/src/FlowGraph/flowGraphDataConnection.ts:35-37 | An Output read first calls its owner's update with the same context. That call appears exactly once in the read's log, and every other call it logs is for a block of the graph ranked strictly lower than the owner. The value returned is the cell as the update left it. |
| `PullEvaluation.ReadOutputValue` | packages/dev/core/src/FlowGraph/flowGraphDataConnection.ts:35-37 | An Output read returns what the owner's update computed for that output from the pulled input values. If the update does not write that output, the read returns its stored value. |
| `PullEvaluation.ReadOutputOfPassiveBlock` | packages/dev/core/src/FlowGraph/flowGraphDataConnection.ts:35-37 | If the owner's update leaves its outputs as they are, an Output read returns the output's stored value. |
| `PullEvaluation.SetThenReadUnconnectedInput` | packages/dev/core/src/FlowGraph/flowGraphDataConnection.ts:30-41 | Setting an unconnected Input and then reading it returns the value just set. |
| `PullEvaluation.SetOutputThenReadLinkedInput` | packages/dev/core/src/FlowGraph/flowGraphDataConnection.ts:30-43 | After an Output of a passive block is set, an Input linked to it reads the new value, with no push step. |
| `PullEvaluation.InitialUnconnectedInputIsDefault` | packages/dev/core/src/FlowGraph/flowGraphDataConnection.ts:17-19 | Right after construction, an unconnected Input reads as its rich type's default value. |
| `PullEvaluation.InitialState` | packages/dev/core/src/FlowGraph/flowGraphDataConnection.ts:17-19 | The state after construction: one cell per connection, each holding its rich type's default value, and no update call logged. |
| `PullEvaluation.Write` | packages/dev/core/src/FlowGraph/flowGraphDataConnection.ts:30-32 | A block calling the setter once per output, in order; the number of cells is kept. What ends up in each cell is stated by `WriteAt` and `WriteElsewhere`. |
| `PullEvaluation.WriteAt` | packages/dev/core/src/FlowGraph/flowGraphDataConnection.ts:30-32 | After a block sets its distinct outputs one by one, output k holds value k. |
| `PullEvaluation.WriteElsewhere` | packages/dev/core/src/FlowGraph/flowGraphDataConnection.ts:30-32 | A block setting its outputs leaves every other connection's cell unchanged. |
| `DataConnectionArena.Graph.constructor` | packages/dev/core/src/FlowGraph/flowGraphDataConnection.ts:17-19 | Every connection's cell starts as its rich type's default value. The topology (names, directions, owners, links) is the one given. |
| `DataConnectionArena.Graph.SetValue` | packages/dev/core/src/FlowGraph/flowGraphDataConnection.ts:30-32 | The setter overwrites this connection's cell and nothing else. Other cells, links and the call log are unchanged. |
| `DataConnectionArena.Graph.GetValue` | packages/dev/core/src/FlowGraph/flowGraphDataConnection.ts:34-45 | The imperative `getValue` returns the value and leaves the state that `PullEvaluation.Read` specifies, so every read lemma applies to it. |
| `DataConnectionArena.Graph.UpdateOutputs` | packages/dev/core/src/FlowGraph/flowGraphDataConnection.ts:36 | The imperative owner update leaves the state that `PullEvaluation.UpdateOutputs` specifies. |
| `DataConnectionArena.Graph.PullInputs` | packages/dev/core/src/FlowGraph/flowGraphDataConnection.ts:36 | Reading a block's inputs in a loop yields the values and the state that `PullEvaluation.ReadAll` specifies. |
| `DataConnectionArena.Graph.Publish` | packages/dev/core/src/FlowGraph/flowGraphDataConnection.ts:30-32 | Calling the setter for each output in turn leaves the cells that `PullEvaluation.Write` specifies. |
| `Scenarios.SumOf` | packages/dev/core/src/FlowGraph/flowGraphDataConnection.ts:35-41 | On an adder block with unconnected inputs `a` and `b`, reading `sum` gives the sum of the two stored input values. |
| `Scenarios.AddScenario` | packages/dev/core/src/FlowGraph/flowGraphDataConnection.ts:35-41 | The adder's `sum` reads 0 in the initial state, and 7 after `a` is set to 3 and `b` to 4 starting from the initial state. |
| `Scenarios.RelayScenario` | packages/dev/core/src/FlowGraph/flowGraphDataConnection.ts:35-43 | An Input linked to a passive block's Output reads 5 while the Output holds 5, and 9 once it holds 9. |

## Left out

- Linking and unlinking are left out. They belong to the base class `FlowGraphConnection`, which is not part of this model. The link invariant (fan-in, symmetry, acyclicity) is the precondition `Wf` on the topology.
- The topology is fixed for the life of a `Graph`. `DataConnectionArena.Graph.constructor` creates every connection of an already linked graph at once, where the source constructs them one by one.
- The internals of `FlowGraphValueWithRichType` and `RichType` are not part of this model. The cell is a single slot whose initial value is the rich type's default value.
- Runtime type checks on writes are not modelled, because the setter has none.
- Concrete blocks are not modelled. A block's update always pulls the same inputs in the same order, so reads that depend on pulled values are not captured.
- Block-local per-context state, such as caches or counters keyed by context, is not modelled. An update may depend on the context, but a block keeps no memory between calls.
- `FlowGraphContext` is an opaque type parameter, passed through unchanged and never inspected.
- Cycle detection is not modelled, because the code has none. Acyclicity is assumed through block ranks, and a cyclic graph does not satisfy `Wf`.
- The call log (`calls`) is ghost instrumentation used to state call order and context threading. The source keeps no such log.
- Connections are arena slots, not separate objects, so object identity and aliasing between connection objects are not captured.
