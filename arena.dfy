/** `FlowGraphDataConnection<T>` as imperative code: the stored values of
    all data connections of a graph live in one arena object, and the value
    setter, `getValue` and the owner block's `_updateOutputs` are methods
    that update it in place. Each method is proved to do exactly what the
    corresponding function of PullEvaluation describes, so the lemmas there
    apply to it. */
module DataConnectionArena {
  import opened FlowGraphTopology
  import opened PullEvaluation

  class Graph<T(!new), C(!new)> {
    /** Names, directions, owners, rich types and links: fixed here, because
        linking is done elsewhere and a read never changes it. */
    const topology: Topology<T, C>
    /** `richValue.value` of every connection, indexed by connection id. */
    var values: seq<T>
    /** Every `_updateOutputs` call made so far, oldest first. */
    ghost var calls: seq<Call<C>>

    ghost predicate Valid()
      reads this
    {
      Wf(topology) && |values| == |topology.ports|
    }

    ghost function Snapshot(): State<T, C>
      reads this
    {
      State(values, calls)
    }

    /** Builds every data connection of a linked graph: each cell starts from
        its rich type's default value. */
    constructor (topology: Topology<T, C>)
      requires Wf(topology)
      ensures Valid() && this.topology == topology
      ensures |values| == |topology.ports|
      ensures forall i :: 0 <= i < |values| ==> values[i] == topology.ports[i].richType.defaultValue
      ensures Snapshot() == InitialState(topology)
    {
      this.topology := topology;
      values := seq(|topology.ports|, i requires 0 <= i < |topology.ports| => topology.ports[i].richType.defaultValue);
      calls := [];
    }

    /** The `value` setter: overwrites this connection's cell and nothing
        else; links and every other cell are left as they were. */
    method SetValue(id: ConnId, v: T)
      requires Valid() && id < |values|
      modifies this`values
      ensures Valid()
      ensures values == old(values)[id := v]
      ensures forall j :: 0 <= j < |values| && j != id ==> values[j] == old(values)[j]
    {
      values := values[id := v];
    }

    /** `getValue(context)`. */
    method GetValue(id: ConnId, ctx: C) returns (v: T)
      requires Valid() && id < |topology.ports|
      modifies this
      ensures Valid()
      ensures (v, Snapshot()) == Read(topology, id, ctx, old(Snapshot()))
      decreases Rank(topology, topology.ports[id].owner), if topology.ports[id].connectionType == Output then 3 else 0, 0
    {
      var p := topology.ports[id];
      if p.connectionType == Output {
        UpdateOutputs(p.owner, ctx);
        return values[id];
      }
      if !IsConnected(p) {
        return values[id];
      } else {
        v := GetValue(p.connectedPoints[0], ctx);
      }
    }

    /** The owner block's `_updateOutputs(context)`: pulls the block's inputs
        in order, then publishes one value per output through the setter. */
    method UpdateOutputs(b: BlockId, ctx: C)
      requires Valid() && b < |topology.blocks|
      modifies this
      ensures Valid()
      ensures Snapshot() == PullEvaluation.UpdateOutputs(topology, b, ctx, old(Snapshot()))
      decreases Rank(topology, b), 2, 0
    {
      calls := calls + [Call(b, ctx)];
      var blk := topology.blocks[b];
      var ins := PullInputs(b, ctx);
      var outs := blk.update(ctx, ins, Gather(values, blk.outputs));
      Publish(blk.outputs, outs);
    }

    /** Block `b` reading each of its inputs with `getValue(context)`, in
        order. */
    method PullInputs(b: BlockId, ctx: C) returns (ins: seq<T>)
      requires Valid() && b < |topology.blocks|
      modifies this
      ensures Valid()
      ensures (ins, Snapshot()) == ReadAll(topology, b, topology.blocks[b].inputs, ctx, old(Snapshot()))
      decreases Rank(topology, b), 1, 0
    {
      var inputs := topology.blocks[b].inputs;
      ghost var s0 := Snapshot();
      ins := [];
      var k := 0;
      while k < |inputs|
        invariant 0 <= k <= |inputs| && Valid()
        invariant (ins, Snapshot()) == ReadAll(topology, b, inputs[..k], ctx, s0)
      {
        assert inputs[..k + 1][..k] == inputs[..k];
        var x := GetValue(inputs[k], ctx);
        ins := ins + [x];
        k := k + 1;
      }
      assert inputs[..k] == inputs;
    }

    /** A block setting its outputs `ids[k].value = outs[k]`, in order. */
    method Publish(ids: seq<ConnId>, outs: seq<T>)
      requires Valid() && |ids| == |outs|
      requires forall k :: 0 <= k < |ids| ==> ids[k] < |values|
      modifies this`values
      ensures Valid()
      ensures values == Write(old(values), ids, outs)
    {
      var k := 0;
      while k < |ids|
        invariant 0 <= k <= |ids| && Valid()
        invariant values == Write(old(values), ids[..k], outs[..k])
      {
        assert ids[..k + 1][..k] == ids[..k];
        assert outs[..k + 1][..k] == outs[..k];
        SetValue(ids[k], outs[k]);
        k := k + 1;
      }
      assert ids[..k] == ids && outs[..k] == outs;
    }
  }
}
