/** The structural side of a flow graph: connection points, their links and
    the blocks that own them.

    Connections live in an arena (a sequence indexed by connection id) and
    refer to each other by id; blocks are indexed the same way. This module
    holds the part of a data connection that the evaluation protocol never
    changes: its name, direction, owner, declared rich type and the list of
    connected points. The stored values are kept apart, in PullEvaluation and
    DataConnectionArena, because reads and writes change them. */
module FlowGraphTopology {

  type ConnId = nat
  type BlockId = nat

  /** Direction of a connection point. */
  datatype ConnectionType = Input | Output

  /** A semantic type descriptor; all the data connection needs of it is the
      default value its cell starts from. */
  datatype RichType<T> = RichType(typeName: string, defaultValue: T)

  /** The fixed part of one data connection: what the base-class constructor
      records (name, direction, owner block), the declared rich type, and the
      ids of the points it is linked to (`_connectedPoint`). */
  datatype Port<T> = Port(
    name: string,
    connectionType: ConnectionType,
    owner: BlockId,
    richType: RichType<T>,
    connectedPoints: seq<ConnId>)

  /** The part of a block that a data read relies on. `_updateOutputs(context)`
      is abstract: it pulls the listed `inputs` in order, each with the same
      context, and then rewrites the block's `outputs` with `update`, applied
      to the context, the pulled values and the outputs' current values (a
      block that leaves its outputs alone returns the current values).
      `rank` is a topological-order witness: every link enters a block from a
      block of strictly lower rank, which is what makes reads terminate. */
  datatype Block<!T, -C> = Block(
    inputs: seq<ConnId>,
    outputs: seq<ConnId>,
    update: (C, seq<T>, seq<T>) -> seq<T>,
    rank: nat)

  datatype Topology<!T, -C> = Topology(ports: seq<Port<T>>, blocks: seq<Block<T, C>>)

  /** `_isSingularConnection`: an input accepts a single link, an output fans
      out to any number of inputs. */
  predicate IsSingularConnection<T>(p: Port<T>) {
    p.connectionType == Input
  }

  /** `isConnected` of the base class: the connection has at least one link. */
  predicate IsConnected<T>(p: Port<T>) {
    |p.connectedPoints| > 0
  }

  function Rank<T, C>(g: Topology<T, C>, b: BlockId): nat
    requires b < |g.blocks|
  {
    g.blocks[b].rank
  }

  /** A link from connection `i` to connection `j` names a connection of the
      other direction and is recorded on both sides. */
  ghost predicate LinkOk<T, C>(g: Topology<T, C>, i: ConnId, j: ConnId)
    requires i < |g.ports|
  {
    j < |g.ports| &&
    g.ports[j].connectionType != g.ports[i].connectionType &&
    i in g.ports[j].connectedPoints
  }

  /** Connection `i` has an owner block and well-formed links; as a singular
      connection it carries at most one link (the fan-in rule); and as a
      linked input it reads from an output of a block of strictly lower rank,
      so the graph is acyclic. */
  ghost predicate PortOk<T, C>(g: Topology<T, C>, i: ConnId)
    requires i < |g.ports|
  {
    var p := g.ports[i];
    p.owner < |g.blocks| &&
    (forall k :: 0 <= k < |p.connectedPoints| ==> LinkOk(g, i, p.connectedPoints[k])) &&
    (IsSingularConnection(p) ==> |p.connectedPoints| <= 1) &&
    (p.connectionType == Input && IsConnected(p) ==>
      var o := p.connectedPoints[0];
      o < |g.ports| && g.ports[o].owner < |g.blocks| && Rank(g, g.ports[o].owner) < Rank(g, p.owner))
  }

  ghost predicate PortsOk<T, C>(g: Topology<T, C>) {
    forall i {:trigger g.ports[i]} :: 0 <= i < |g.ports| ==> PortOk(g, i)
  }

  ghost predicate IsInputOf<T, C>(g: Topology<T, C>, id: ConnId, b: BlockId) {
    id < |g.ports| && g.ports[id].connectionType == Input && g.ports[id].owner == b
  }

  ghost predicate IsOutputOf<T, C>(g: Topology<T, C>, id: ConnId, b: BlockId) {
    id < |g.ports| && g.ports[id].connectionType == Output && g.ports[id].owner == b
  }

  /** A block pulls only its own inputs and writes only its own outputs,
      each output once, and its update yields one value per output. */
  ghost predicate BlocksConsistent<T(!new), C(!new)>(g: Topology<T, C>) {
    forall b :: 0 <= b < |g.blocks| ==>
      (forall k :: 0 <= k < |g.blocks[b].inputs| ==> IsInputOf(g, g.blocks[b].inputs[k], b)) &&
      (forall k :: 0 <= k < |g.blocks[b].outputs| ==> IsOutputOf(g, g.blocks[b].outputs[k], b)) &&
      (forall j, k :: 0 <= j < k < |g.blocks[b].outputs| ==> g.blocks[b].outputs[j] != g.blocks[b].outputs[k]) &&
      (forall c, xs, ys :: |g.blocks[b].update(c, xs, ys)| == |g.blocks[b].outputs|)
  }

  /** The invariant the surrounding linking code maintains. */
  ghost predicate Wf<T(!new), C(!new)>(g: Topology<T, C>) {
    PortsOk(g) && BlocksConsistent(g)
  }

  /** In a well-formed graph exactly the inputs are singular, an input has
      at most one link, and that link, if any, leads to an output that
      records the input among its own links. `_isSingularConnection` is a
      one-line predicate and the link rules are part of `Wf`, so this lemma
      needs no proof steps: it gathers, for one connection, the facts the
      read protocol relies on. */
  lemma FanIn<T(!new), C(!new)>(g: Topology<T, C>, i: ConnId)
    requires Wf(g) && i < |g.ports|
    ensures IsSingularConnection(g.ports[i]) <==> g.ports[i].connectionType == Input
    ensures g.ports[i].connectionType == Input ==> |g.ports[i].connectedPoints| <= 1
    ensures g.ports[i].connectionType == Input && IsConnected(g.ports[i]) ==>
      g.ports[g.ports[i].connectedPoints[0]].connectionType == Output &&
      i in g.ports[g.ports[i].connectedPoints[0]].connectedPoints
  {
  }

  /** One output (connection 0, on block 0) linked to `n` inputs
      (connections 1 .. n, all on block 1). */
  function FanOutGraph<T, C>(n: nat, d: T): (g: Topology<T, C>)
  {
    var rt := RichType("any", d);
    var ins := seq(n, k => Port("in", Input, 1, rt, [0]));
    var source := Block([], [0], (c: C, xs: seq<T>, ys: seq<T>) => [d], 0);
    var sink := Block(seq(n, k => k + 1), [], (c: C, xs: seq<T>, ys: seq<T>) => [], 1);
    Topology([Port("out", Output, 0, rt, seq(n, k => k + 1))] + ins, [source, sink])
  }

  /** Fan-out is unrestricted: for every n there is a well-formed graph in
      which an output is linked to n inputs. */
  lemma FanOutUnrestricted<T(!new), C(!new)>(n: nat, d: T)
    ensures Wf(FanOutGraph<T, C>(n, d))
    ensures FanOutGraph<T, C>(n, d).ports[0].connectionType == Output
    ensures |FanOutGraph<T, C>(n, d).ports[0].connectedPoints| == n
  {
    var g := FanOutGraph<T, C>(n, d);
    forall i | 0 <= i < |g.ports| ensures PortOk(g, i) {
      FanOutPortOk<T, C>(n, d, i);
    }
    FanOutBlocksOk<T, C>(n, d);
  }

  lemma FanOutPortOk<T, C>(n: nat, d: T, i: ConnId)
    requires i <= n
    ensures PortOk(FanOutGraph<T, C>(n, d), i)
  {
    var g := FanOutGraph<T, C>(n, d);
    assert |g.ports| == n + 1;
    if i == 0 {
      forall k | 0 <= k < n ensures LinkOk(g, 0, g.ports[0].connectedPoints[k]) {
        assert g.ports[0].connectedPoints[k] == k + 1;
        assert g.ports[k + 1].connectedPoints == [0];
      }
    } else {
      assert g.ports[i] == Port("in", Input, 1, RichType("any", d), [0]);
      assert g.ports[0].connectedPoints[i - 1] == i;
    }
  }

  lemma FanOutBlocksOk<T(!new), C(!new)>(n: nat, d: T)
    ensures BlocksConsistent(FanOutGraph<T, C>(n, d))
  {
    var g := FanOutGraph<T, C>(n, d);
    forall k | 0 <= k < n ensures IsInputOf(g, g.blocks[1].inputs[k], 1) {
      assert g.blocks[1].inputs[k] == k + 1;
      assert g.ports[k + 1].connectionType == Input;
    }
  }
}
