/** Two small graphs worked through the pull protocol. */
module Scenarios {
  import opened FlowGraphTopology
  import opened PullEvaluation

  /** An adder block (block 0): inputs `a` (connection 0) and `b`
      (connection 1), both defaulting to 0 and unconnected, and output `sum`
      (connection 2). */
  function AddGraph(): (g: Topology<int, nat>)
    ensures Wf(g) && |g.ports| == 3
  {
    AddTopologyWf();
    AddTopology()
  }

  function AddTopology(): Topology<int, nat>
  {
    var num := RichType("number", 0);
    var ports := [Port("a", Input, 0, num, []), Port("b", Input, 0, num, []), Port("sum", Output, 0, num, [])];
    var add := (c: nat, xs: seq<int>, ys: seq<int>) => [if |xs| == 2 then xs[0] + xs[1] else 0];
    Topology(ports, [Block([0, 1], [2], add, 0)])
  }

  lemma AddTopologyWf()
    ensures Wf(AddTopology()) && |AddTopology().ports| == 3
  {
    var g := AddTopology();
    assert PortOk(g, 0) && PortOk(g, 1) && PortOk(g, 2);
    assert BlocksConsistent(g);
  }

  /** Reading `sum` pulls both inputs: with the defaults it is 0, and after
      `a` is set to 3 and `b` to 4 it is 7, in any context. */
  lemma AddScenario(ctx: nat)
    ensures Read(AddGraph(), 2, ctx, InitialState(AddGraph())).0 == 0
    ensures Read(AddGraph(), 2, ctx, State(InitialState(AddGraph()).values[0 := 3][1 := 4], [])).0 == 7
  {
    var g := AddGraph();
    var s := InitialState(g);
    SumOf(ctx, s);
    SumOf(ctx, State(s.values[0 := 3][1 := 4], []));
  }

  /** `sum` reads as the sum of the values stored in `a` and `b`. */
  lemma SumOf(ctx: nat, s: State<int, nat>)
    requires |s.values| == 3
    ensures Read(AddGraph(), 2, ctx, s).0 == s.values[0] + s.values[1]
  {
    var g := AddGraph();
    var blk := g.blocks[0];
    var s0 := State(s.values, s.calls + [Call(0, ctx)]);
    var (ins, s1) := ReadAll(g, 0, blk.inputs, ctx, s0);
    assert blk.inputs[..1] == [0] && [0][..0] == [];
    assert ins == [s.values[0], s.values[1]];
    ReadOutputValue(g, 2, ctx, s);
  }

  /** An output whose block never rewrites it (block 0, connection 0, holding
      5) linked to an input on block 1 (connection 1): the input reads 5, and
      after the output is set to 9 it reads 9, with no push in between. */
  function RelayGraph(): (g: Topology<int, nat>)
    ensures Wf(g) && |g.ports| == 2
  {
    RelayTopologyWf();
    RelayTopology()
  }

  function RelayTopology(): Topology<int, nat>
  {
    var num := RichType("number", 0);
    var ports := [Port("out", Output, 0, num, [1]), Port("in", Input, 1, num, [0])];
    var keep := (c: nat, xs: seq<int>, ys: seq<int>) => if |ys| == 1 then ys else [0];
    Topology(ports, [Block([], [0], keep, 0), Block([1], [], (c: nat, xs: seq<int>, ys: seq<int>) => [], 1)])
  }

  lemma RelayTopologyWf()
    ensures Wf(RelayTopology()) && |RelayTopology().ports| == 2
  {
    var g := RelayTopology();
    assert LinkOk(g, 0, 1) && LinkOk(g, 1, 0);
    assert PortOk(g, 0) && PortOk(g, 1);
    assert BlocksConsistent(g);
  }

  lemma RelayScenario(ctx: nat)
    ensures Read(RelayGraph(), 1, ctx, State([5, 0], [])).0 == 5
    ensures Read(RelayGraph(), 1, ctx, State([5, 0][0 := 9], [])).0 == 9
  {
    var g := RelayGraph();
    forall s: State<int, nat> | |s.values| == 2
      ensures Read(g, 1, ctx, s).0 == s.values[0]
    {
      SetOutputThenReadLinkedInput(g, 0, 1, s.values[0], ctx, s);
      assert s.values[0 := s.values[0]] == s.values;
    }
  }
}
