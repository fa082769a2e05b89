/** The pull-evaluation protocol of `FlowGraphDataConnection.getValue`, as
    functions over the values stored in the connection arena.

    A read is a function from a state (every connection's stored value, plus a
    log of the `_updateOutputs` calls made so far) to the value read and the
    new state. The log is instrumentation: it lets the lemmas below say which
    block was asked to recompute, with which context, and in what order.
    DataConnectionArena implements the same protocol with methods and is
    proved against these functions. */
module PullEvaluation {
  import opened FlowGraphTopology

  /** One invocation of a block's `_updateOutputs(context)`. */
  datatype Call<C> = Call(block: BlockId, ctx: C)

  /** The mutable part of the graph: the stored value (`richValue.value`) of
      every connection, indexed by connection id, and the update log. */
  datatype State<T, C> = State(values: seq<T>, calls: seq<Call<C>>)

  ghost predicate StateFits<T(!new), C(!new)>(g: Topology<T, C>, s: State<T, C>) {
    Wf(g) && |s.values| == |g.ports|
  }

  /** The stored values of the connections `ids`, in order. */
  function Gather<T>(vals: seq<T>, ids: seq<ConnId>): (r: seq<T>)
    requires forall k :: 0 <= k < |ids| ==> ids[k] < |vals|
    ensures |r| == |ids| && forall k :: 0 <= k < |ids| ==> r[k] == vals[ids[k]]
  {
    seq(|ids|, k requires 0 <= k < |ids| => vals[ids[k]])
  }

  /** The block publishing its results: `ids[k].value = outs[k]` for each k in
      turn. */
  function Write<T>(vals: seq<T>, ids: seq<ConnId>, outs: seq<T>): (r: seq<T>)
    requires |ids| == |outs|
    requires forall k :: 0 <= k < |ids| ==> ids[k] < |vals|
    ensures |r| == |vals|
  {
    if ids == [] then vals
    else Write(vals, ids[..|ids| - 1], outs[..|outs| - 1])[ids[|ids| - 1] := outs[|outs| - 1]]
  }

  /** Writing leaves every connection outside `ids` as it was. */
  lemma {:induction false} WriteElsewhere<T>(vals: seq<T>, ids: seq<ConnId>, outs: seq<T>, j: nat)
    requires |ids| == |outs|
    requires forall k :: 0 <= k < |ids| ==> ids[k] < |vals|
    requires j < |vals| && j !in ids
    ensures Write(vals, ids, outs)[j] == vals[j]
  {
    if ids != [] {
      var n := |ids| - 1;
      assert ids[n] != j;
      assert ids == ids[..n] + [ids[n]];
      WriteElsewhere(vals, ids[..n], outs[..n], j);
    }
  }

  /** When the written ids are distinct, connection `ids[k]` ends up holding
      `outs[k]`. */
  lemma {:induction false} WriteAt<T>(vals: seq<T>, ids: seq<ConnId>, outs: seq<T>, k: nat)
    requires |ids| == |outs|
    requires forall i :: 0 <= i < |ids| ==> ids[i] < |vals|
    requires forall i, j :: 0 <= i < j < |ids| ==> ids[i] != ids[j]
    requires k < |ids|
    ensures Write(vals, ids, outs)[ids[k]] == outs[k]
  {
    var n := |ids| - 1;
    if k < n {
      WriteAt(vals, ids[..n], outs[..n], k);
    }
  }

  /** Pulls the connections `ids`, all inputs of block `b`, in order, threading
      the state from one read to the next. */
  ghost function ReadAll<T(!new), C(!new)>(g: Topology<T, C>, b: BlockId, ids: seq<ConnId>, ctx: C, s: State<T, C>): (r: (seq<T>, State<T, C>))
    requires StateFits(g, s) && b < |g.blocks|
    requires forall k :: 0 <= k < |ids| ==> IsInputOf(g, ids[k], b)
    ensures |r.0| == |ids| && |r.1.values| == |s.values| && s.calls <= r.1.calls
    decreases Rank(g, b), 1, |ids|
  {
    if ids == [] then ([], s)
    else
      var n := |ids| - 1;
      assert IsInputOf(g, ids[n], b);
      var (vs, s1) := ReadAll(g, b, ids[..n], ctx, s);
      var (v, s2) := Read(g, ids[n], ctx, s1);
      (vs + [v], s2)
  }

  /** `_updateOutputs(context)` of block `b`: the call is logged, the block's
      inputs are pulled with the same context, and its outputs are rewritten. */
  ghost function UpdateOutputs<T(!new), C(!new)>(g: Topology<T, C>, b: BlockId, ctx: C, s: State<T, C>): (r: State<T, C>)
    requires StateFits(g, s) && b < |g.blocks|
    ensures |r.values| == |s.values| && s.calls <= r.calls
    decreases Rank(g, b), 2, 0
  {
    var blk := g.blocks[b];
    var s0 := State(s.values, s.calls + [Call(b, ctx)]);
    var (ins, s1) := ReadAll(g, b, blk.inputs, ctx, s0);
    var outs := blk.update(ctx, ins, Gather(s1.values, blk.outputs));
    State(Write(s1.values, blk.outputs, outs), s1.calls)
  }

  /** `getValue(context)` on connection `id`. */
  ghost function Read<T(!new), C(!new)>(g: Topology<T, C>, id: ConnId, ctx: C, s: State<T, C>): (r: (T, State<T, C>))
    requires StateFits(g, s) && id < |g.ports|
    ensures |r.1.values| == |s.values| && s.calls <= r.1.calls
    decreases Rank(g, g.ports[id].owner), if g.ports[id].connectionType == Output then 3 else 0, 0
  {
    var p := g.ports[id];
    if p.connectionType == Output then
      var s' := UpdateOutputs(g, p.owner, ctx, s);
      (s'.values[id], s')
    else if !IsConnected(p) then
      (s.values[id], s)
    else
      Read(g, p.connectedPoints[0], ctx, s)
  }

  /** The state right after every connection is constructed: each cell holds
      its rich type's default value and no update has run. */
  ghost function InitialState<T, C>(g: Topology<T, C>): (s: State<T, C>)
    ensures |s.values| == |g.ports| && s.calls == []
    ensures forall i :: 0 <= i < |g.ports| ==> s.values[i] == g.ports[i].richType.defaultValue
  {
    State(seq(|g.ports|, i requires 0 <= i < |g.ports| => g.ports[i].richType.defaultValue), [])
  }

  /** Connection `j` is an output of a block ranked below `bound`, that is,
      one that an update of such a block may rewrite. */
  ghost predicate OutputBelow<T(!new), C(!new)>(g: Topology<T, C>, j: ConnId, bound: int)
    requires Wf(g) && j < |g.ports|
  {
    g.ports[j].connectionType == Output && Rank(g, g.ports[j].owner) < bound
  }

  /** What a step from `s` to `s'` may do: rewrite outputs of blocks ranked
      below `bound`, and log calls, each for a block ranked below `bound` and
      each with context `ctx`. */
  ghost predicate EffectBelow<T(!new), C(!new)>(g: Topology<T, C>, s: State<T, C>, s': State<T, C>, ctx: C, bound: int)
    requires StateFits(g, s)
  {
    |s'.values| == |s.values| && s.calls <= s'.calls &&
    (forall j :: 0 <= j < |s.values| && !OutputBelow(g, j, bound) ==> s'.values[j] == s.values[j]) &&
    (forall k :: |s.calls| <= k < |s'.calls| ==>
      s'.calls[k].block < |g.blocks| && Rank(g, s'.calls[k].block) < bound && s'.calls[k].ctx == ctx)
  }

  lemma EffectTrans<T(!new), C(!new)>(g: Topology<T, C>, s: State<T, C>, s1: State<T, C>, s2: State<T, C>, ctx: C, bound: int)
    requires StateFits(g, s) && StateFits(g, s1)
    requires EffectBelow(g, s, s1, ctx, bound) && EffectBelow(g, s1, s2, ctx, bound)
    ensures EffectBelow(g, s, s2, ctx, bound)
  {
    forall k | |s.calls| <= k < |s2.calls|
      ensures s2.calls[k].block < |g.blocks| && Rank(g, s2.calls[k].block) < bound && s2.calls[k].ctx == ctx
    {
      if k < |s1.calls| {
        assert s2.calls[k] == s1.calls[k];
      }
    }
  }

  /** A read of `id` rewrites only outputs and logs only calls that are at
      most as high as `id`'s own block (strictly lower when `id` is an
      input), and every logged call carries the caller's context. */
  lemma {:induction false} ReadEffect<T(!new), C(!new)>(g: Topology<T, C>, id: ConnId, ctx: C, s: State<T, C>)
    requires StateFits(g, s) && id < |g.ports|
    ensures EffectBelow(g, s, Read(g, id, ctx, s).1, ctx,
                        Rank(g, g.ports[id].owner) + if g.ports[id].connectionType == Output then 1 else 0)
    decreases Rank(g, g.ports[id].owner), if g.ports[id].connectionType == Output then 3 else 0, 0
  {
    var p := g.ports[id];
    if p.connectionType == Output {
      UpdateEffect(g, p.owner, ctx, s);
    } else if IsConnected(p) {
      ReadEffect(g, p.connectedPoints[0], ctx, s);
    }
  }

  lemma {:induction false} UpdateEffect<T(!new), C(!new)>(g: Topology<T, C>, b: BlockId, ctx: C, s: State<T, C>)
    requires StateFits(g, s) && b < |g.blocks|
    ensures EffectBelow(g, s, UpdateOutputs(g, b, ctx, s), ctx, Rank(g, b) + 1)
    decreases Rank(g, b), 2, 0
  {
    var blk := g.blocks[b];
    var bound := Rank(g, b) + 1;
    var s0 := State(s.values, s.calls + [Call(b, ctx)]);
    var (ins, s1) := ReadAll(g, b, blk.inputs, ctx, s0);
    ReadAllEffect(g, b, blk.inputs, ctx, s0);
    var outs := blk.update(ctx, ins, Gather(s1.values, blk.outputs));
    var s2 := State(Write(s1.values, blk.outputs, outs), s1.calls);
    assert EffectBelow(g, s, s0, ctx, bound);
    assert EffectBelow(g, s1, s2, ctx, bound) by {
      forall j | 0 <= j < |s1.values| && !OutputBelow(g, j, bound)
        ensures s2.values[j] == s1.values[j]
      {
        assert j !in blk.outputs;
        WriteElsewhere(s1.values, blk.outputs, outs, j);
      }
    }
    EffectTrans(g, s, s0, s1, ctx, bound);
    EffectTrans(g, s, s1, s2, ctx, bound);
  }

  lemma {:induction false} ReadAllEffect<T(!new), C(!new)>(g: Topology<T, C>, b: BlockId, ids: seq<ConnId>, ctx: C, s: State<T, C>)
    requires StateFits(g, s) && b < |g.blocks|
    requires forall k :: 0 <= k < |ids| ==> IsInputOf(g, ids[k], b)
    ensures EffectBelow(g, s, ReadAll(g, b, ids, ctx, s).1, ctx, Rank(g, b))
    decreases Rank(g, b), 1, |ids|
  {
    if ids != [] {
      var n := |ids| - 1;
      var (vs, s1) := ReadAll(g, b, ids[..n], ctx, s);
      ReadAllEffect(g, b, ids[..n], ctx, s);
      ReadEffect(g, ids[n], ctx, s1);
      EffectTrans(g, s, s1, Read(g, ids[n], ctx, s1).1, ctx, Rank(g, b));
    }
  }

  /** Reading a connection never changes the stored value of any input;
      in particular an input read leaves the input's own cell untouched. */
  lemma ReadKeepsInputCells<T(!new), C(!new)>(g: Topology<T, C>, id: ConnId, ctx: C, s: State<T, C>, j: ConnId)
    requires StateFits(g, s) && id < |g.ports| && j < |g.ports|
    requires g.ports[j].connectionType == Input
    ensures Read(g, id, ctx, s).1.values[j] == s.values[j]
  {
    ReadEffect(g, id, ctx, s);
  }

  /** Every `_updateOutputs` call made while reading `id` receives the
      context the read was given. */
  lemma ReadThreadsContext<T(!new), C(!new)>(g: Topology<T, C>, id: ConnId, ctx: C, s: State<T, C>)
    requires StateFits(g, s) && id < |g.ports|
    ensures var s' := Read(g, id, ctx, s).1;
      s.calls <= s'.calls && forall k :: |s.calls| <= k < |s'.calls| ==> s'.calls[k].ctx == ctx
  {
    ReadEffect(g, id, ctx, s);
  }

  /** Reading an unconnected input yields its own stored value and changes
      nothing, whatever the context. */
  lemma ReadUnconnectedInput<T(!new), C(!new)>(g: Topology<T, C>, id: ConnId, ctx: C, s: State<T, C>)
    requires StateFits(g, s) && id < |g.ports|
    requires g.ports[id].connectionType == Input && !IsConnected(g.ports[id])
    ensures Read(g, id, ctx, s) == (s.values[id], s)
  {
  }

  /** A connected input is a transparent proxy: reading it is reading the
      output it is linked to, with the same context, and its own cell is
      neither consulted nor changed: overwriting it with any `v` does not
      change what the read returns. */
  lemma ReadConnectedInputIsProxy<T(!new), C(!new)>(g: Topology<T, C>, id: ConnId, ctx: C, s: State<T, C>, v: T)
    requires StateFits(g, s) && id < |g.ports|
    requires g.ports[id].connectionType == Input && IsConnected(g.ports[id])
    ensures g.ports[g.ports[id].connectedPoints[0]].connectionType == Output
    ensures Read(g, id, ctx, s) == Read(g, g.ports[id].connectedPoints[0], ctx, s)
    ensures Read(g, id, ctx, s).1.values[id] == s.values[id]
    ensures Read(g, id, ctx, s).0 == Read(g, id, ctx, State(s.values[id := v], s.calls)).0
  {
    ReadKeepsInputCells(g, id, ctx, s, id);
    ReadIgnoresInputCell(g, g.ports[id].connectedPoints[0], ctx, s, id, v);
  }

  /** The result and effect of a read do not depend on the stored value of an
      input that is connected: a linked input's cell is never consulted. */
  lemma {:induction false} ReadIgnoresInputCell<T(!new), C(!new)>(g: Topology<T, C>, id: ConnId, ctx: C, s: State<T, C>, j: ConnId, v: T)
    requires StateFits(g, s) && id < |g.ports| && j < |g.ports|
    requires g.ports[j].connectionType == Input && IsConnected(g.ports[j])
    ensures var (x, s1) := Read(g, id, ctx, s);
            var (y, s2) := Read(g, id, ctx, State(s.values[j := v], s.calls));
            x == y && s2 == State(s1.values[j := v], s1.calls)
    decreases Rank(g, g.ports[id].owner), if g.ports[id].connectionType == Output then 3 else 0, 0
  {
    var p := g.ports[id];
    if p.connectionType == Output {
      UpdateIgnoresInputCell(g, p.owner, ctx, s, j, v);
    } else if IsConnected(p) {
      ReadIgnoresInputCell(g, p.connectedPoints[0], ctx, s, j, v);
    }
  }

  lemma {:induction false} UpdateIgnoresInputCell<T(!new), C(!new)>(g: Topology<T, C>, b: BlockId, ctx: C, s: State<T, C>, j: ConnId, v: T)
    requires StateFits(g, s) && b < |g.blocks| && j < |g.ports|
    requires g.ports[j].connectionType == Input && IsConnected(g.ports[j])
    ensures UpdateOutputs(g, b, ctx, State(s.values[j := v], s.calls))
         == State(UpdateOutputs(g, b, ctx, s).values[j := v], UpdateOutputs(g, b, ctx, s).calls)
    decreases Rank(g, b), 2, 0
  {
    var blk := g.blocks[b];
    var s0 := State(s.values, s.calls + [Call(b, ctx)]);
    var t0 := State(s.values[j := v], s.calls + [Call(b, ctx)]);
    assert t0 == State(s0.values[j := v], s0.calls);
    ReadAllIgnoresInputCell(g, b, blk.inputs, ctx, s0, j, v);
    var (ins, s1) := ReadAll(g, b, blk.inputs, ctx, s0);
    var t1 := ReadAll(g, b, blk.inputs, ctx, t0).1;
    assert t1 == State(s1.values[j := v], s1.calls);
    assert Gather(t1.values, blk.outputs) == Gather(s1.values, blk.outputs);
    var outs := blk.update(ctx, ins, Gather(s1.values, blk.outputs));
    WriteCommutes(s1.values, blk.outputs, outs, j, v);
  }

  lemma {:induction false} ReadAllIgnoresInputCell<T(!new), C(!new)>(g: Topology<T, C>, b: BlockId, ids: seq<ConnId>, ctx: C, s: State<T, C>, j: ConnId, v: T)
    requires StateFits(g, s) && b < |g.blocks| && j < |g.ports|
    requires forall k :: 0 <= k < |ids| ==> IsInputOf(g, ids[k], b)
    requires g.ports[j].connectionType == Input && IsConnected(g.ports[j])
    ensures var (xs, s1) := ReadAll(g, b, ids, ctx, s);
            var (ys, s2) := ReadAll(g, b, ids, ctx, State(s.values[j := v], s.calls));
            xs == ys && s2 == State(s1.values[j := v], s1.calls)
    decreases Rank(g, b), 1, |ids|
  {
    if ids != [] {
      var n := |ids| - 1;
      ReadAllIgnoresInputCell(g, b, ids[..n], ctx, s, j, v);
      var s1 := ReadAll(g, b, ids[..n], ctx, s).1;
      ReadIgnoresInputCell(g, ids[n], ctx, s1, j, v);
    }
  }

  /** Writing outputs and setting an input commute (outputs and inputs are
      different connections). */
  lemma {:induction false} WriteCommutes<T>(vals: seq<T>, ids: seq<ConnId>, outs: seq<T>, j: nat, v: T)
    requires |ids| == |outs|
    requires forall k :: 0 <= k < |ids| ==> ids[k] < |vals|
    requires j < |vals| && j !in ids
    ensures Write(vals[j := v], ids, outs) == Write(vals, ids, outs)[j := v]
  {
    if ids != [] {
      var n := |ids| - 1;
      assert ids == ids[..n] + [ids[n]];
      WriteCommutes(vals, ids[..n], outs[..n], j, v);
    }
  }

  /** Reading an output first runs its owner's `_updateOutputs` with the
      same context (logged exactly once: every other call made during the
      read is for a block of lower rank), and then returns the output's
      stored value as that update left it. */
  lemma ReadOutputUpdatesOwnerOnce<T(!new), C(!new)>(g: Topology<T, C>, id: ConnId, ctx: C, s: State<T, C>)
    requires StateFits(g, s) && id < |g.ports| && g.ports[id].connectionType == Output
    ensures var (v, s') := Read(g, id, ctx, s);
      var b := g.ports[id].owner;
      s' == UpdateOutputs(g, b, ctx, s) && v == s'.values[id] &&
      |s.calls| < |s'.calls| && s'.calls[|s.calls|] == Call(b, ctx) &&
      forall k :: |s.calls| < k < |s'.calls| ==>
        s'.calls[k].block < |g.blocks| && Rank(g, s'.calls[k].block) < Rank(g, b)
  {
    var b := g.ports[id].owner;
    var s0 := State(s.values, s.calls + [Call(b, ctx)]);
    ReadAllEffect(g, b, g.blocks[b].inputs, ctx, s0);
  }

  /** The value an output read returns: what the owner's update computed for
      that output from the values pulled from the block's inputs, or, for an
      output the update does not write, the output's stored value. */
  lemma ReadOutputValue<T(!new), C(!new)>(g: Topology<T, C>, id: ConnId, ctx: C, s: State<T, C>)
    requires StateFits(g, s) && id < |g.ports| && g.ports[id].connectionType == Output
    ensures var b := g.ports[id].owner;
      var blk := g.blocks[b];
      var (ins, s1) := ReadAll(g, b, blk.inputs, ctx, State(s.values, s.calls + [Call(b, ctx)]));
      var outs := blk.update(ctx, ins, Gather(s1.values, blk.outputs));
      (forall k :: 0 <= k < |blk.outputs| && blk.outputs[k] == id ==> Read(g, id, ctx, s).0 == outs[k]) &&
      (id !in blk.outputs ==> Read(g, id, ctx, s).0 == s.values[id])
  {
    var b := g.ports[id].owner;
    var blk := g.blocks[b];
    var s0 := State(s.values, s.calls + [Call(b, ctx)]);
    ReadAllEffect(g, b, blk.inputs, ctx, s0);
    var (ins, s1) := ReadAll(g, b, blk.inputs, ctx, s0);
    var outs := blk.update(ctx, ins, Gather(s1.values, blk.outputs));
    forall k | 0 <= k < |blk.outputs| && blk.outputs[k] == id ensures Read(g, id, ctx, s).0 == outs[k] {
      WriteAt(s1.values, blk.outputs, outs, k);
    }
    if id !in blk.outputs {
      WriteElsewhere(s1.values, blk.outputs, outs, id);
    }
  }

  /** A block whose update leaves its outputs as they are (one whose outputs
      are only set from outside) makes an output read return the stored
      value. */
  lemma ReadOutputOfPassiveBlock<T(!new), C(!new)>(g: Topology<T, C>, id: ConnId, ctx: C, s: State<T, C>)
    requires StateFits(g, s) && id < |g.ports| && g.ports[id].connectionType == Output
    requires forall xs, ys :: |ys| == |g.blocks[g.ports[id].owner].outputs| ==> g.blocks[g.ports[id].owner].update(ctx, xs, ys) == ys
    ensures Read(g, id, ctx, s).0 == s.values[id]
  {
    var b := g.ports[id].owner;
    var blk := g.blocks[b];
    var s0 := State(s.values, s.calls + [Call(b, ctx)]);
    ReadOutputValue(g, id, ctx, s);
    ReadAllEffect(g, b, blk.inputs, ctx, s0);
  }

  /** Setting an unconnected input and then reading it gives back the value
      just set. */
  lemma SetThenReadUnconnectedInput<T(!new), C(!new)>(g: Topology<T, C>, id: ConnId, v: T, ctx: C, s: State<T, C>)
    requires StateFits(g, s) && id < |g.ports|
    requires g.ports[id].connectionType == Input && !IsConnected(g.ports[id])
    ensures Read(g, id, ctx, State(s.values[id := v], s.calls)) == (v, State(s.values[id := v], s.calls))
  {
  }

  /** Data flows without a push step: after an output of a passive block is
      set, an input linked to it reads the new value. */
  lemma SetOutputThenReadLinkedInput<T(!new), C(!new)>(g: Topology<T, C>, o: ConnId, i: ConnId, v: T, ctx: C, s: State<T, C>)
    requires StateFits(g, s) && o < |g.ports| && i < |g.ports|
    requires g.ports[i].connectionType == Input && IsConnected(g.ports[i]) && g.ports[i].connectedPoints[0] == o
    requires forall xs, ys :: |ys| == |g.blocks[g.ports[o].owner].outputs| ==> g.blocks[g.ports[o].owner].update(ctx, xs, ys) == ys
    ensures Read(g, i, ctx, State(s.values[o := v], s.calls)).0 == v
  {
    ReadOutputOfPassiveBlock(g, o, ctx, State(s.values[o := v], s.calls));
  }

  /** Right after construction, an unconnected input reads as its rich
      type's default value. */
  lemma InitialUnconnectedInputIsDefault<T(!new), C(!new)>(g: Topology<T, C>, id: ConnId, ctx: C)
    requires Wf(g) && id < |g.ports|
    requires g.ports[id].connectionType == Input && !IsConnected(g.ports[id])
    ensures Read(g, id, ctx, InitialState(g)).0 == g.ports[id].richType.defaultValue
  {
  }
}
