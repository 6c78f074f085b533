/** The bookkeeping both executors share for their wave loops: what a wave
    does to the node list, the frame the loop keeps since the pass began, and
    the pending count that every wave lowers. A node step is what executing a
    ready node does to it; both executors' steps end in a done status and keep
    a node schema-valid. */
module Waves {
  import opened Json
  import opened Workflow
  import GraphSchema

  /** `completed` or `failed`: where an executed node ends. */
  predicate Done(n: Node) { HasStatus(n, "completed") || HasStatus(n, "failed") }

  ghost predicate StepSettles(step: Node -> Node) { forall n :: Done(step(n)) }

  ghost predicate StepKeepsValid(step: Node -> Node)
  {
    forall n {:trigger step(n)} :: GraphSchema.ValidNode(JObj(n)) ==> GraphSchema.ValidNode(JObj(step(n)))
  }

  /** What a wave loop keeps about the nodes since the pass began: nodes of
      the other plane and settled nodes are untouched; every other node
      differs at most in its input or is done; outside the current ready set
      a node is untouched or done. */
  predicate Framed(plane: string, nodes0: seq<Node>, cur: seq<Node>, ready: seq<nat>)
  {
    && |cur| == |nodes0|
    && (forall k :: 0 <= k < |cur| && (!OnPlane(nodes0[k], plane) || Settled(nodes0[k])) ==> cur[k] == nodes0[k])
    && (forall k :: 0 <= k < |cur| ==> cur[k] - {"input"} == nodes0[k] - {"input"} || Done(cur[k]))
    && (forall k :: 0 <= k < |cur| && k !in ready ==> cur[k] == nodes0[k] || Done(cur[k]))
  }

  lemma SameButOne(nodes: seq<Node>, i: nat, n: Node)
    requires i < |nodes| && n - {"input"} == nodes[i] - {"input"}
    ensures SameButInputs(nodes[i := n], nodes)
  {
  }

  /** A merge step keeps the frame. */
  lemma MergeFramed(plane: string, nodes0: seq<Node>, executed: seq<Node>, merged: seq<Node>, edges: seq<Edge>, ready: seq<nat>)
    requires Framed(plane, nodes0, executed, [])
    requires ready == ReadyIndices(executed, edges, plane)
    requires SameButInputs(merged, executed)
    requires forall k :: 0 <= k < |executed| && k !in ready ==> merged[k] == executed[k]
    ensures Framed(plane, nodes0, merged, ready)
  {
    forall k | 0 <= k < |merged| && (!OnPlane(nodes0[k], plane) || Settled(nodes0[k])) ensures merged[k] == nodes0[k] {
      if k in ready {
        assert false;
      }
    }
    forall k | 0 <= k < |merged| ensures merged[k] - {"input"} == nodes0[k] - {"input"} || Done(merged[k]) {
      SameOutside(merged[k], executed[k], "status");
    }
  }

  /** Merging inputs leaves the pending count alone. */
  lemma {:induction false} PendingIgnoresInputs(a: seq<Node>, b: seq<Node>, plane: string)
    requires SameButInputs(a, b)
    ensures Pending(a, plane) == Pending(b, plane)
    decreases |a|
  {
    if a != [] {
      var last := |a| - 1;
      assert SameButInputs(a[..last], b[..last]);
      PendingIgnoresInputs(a[..last], b[..last], plane);
      SameOutside(a[last], b[last], "plane");
      SameOutside(a[last], b[last], "status");
    }
  }

  /** After a wave every ready node is done, so the frame holds with an
      empty ready set. */
  lemma WaveSettles(plane: string, before: seq<Node>, after: seq<Node>, edges: seq<Edge>, ready: seq<nat>, nodes0: seq<Node>)
    requires Framed(plane, nodes0, before, ready) && |after| == |before|
    requires ready == ReadyIndices(before, edges, plane)
    requires forall k :: 0 <= k < |after| && k !in ready ==> after[k] == before[k]
    requires forall k :: k in ready ==> Done(after[k])
    ensures Framed(plane, nodes0, after, [])
  {
    forall k | 0 <= k < |after| && (!OnPlane(nodes0[k], plane) || Settled(nodes0[k])) ensures after[k] == nodes0[k] {
      if k in ready {
        assert false;
      }
    }
  }

  predicate Increasing(ready: seq<nat>, n: nat)
  {
    (forall a :: 0 <= a < |ready| ==> ready[a] < n) && (forall a, b :: 0 <= a < b < |ready| ==> ready[a] < ready[b])
  }

  /** The node list after the first w ready nodes of a wave ran. */
  ghost function WaveState(step: Node -> Node, before: seq<Node>, ready: seq<nat>, w: nat): (r: seq<Node>)
    requires w <= |ready| && forall a :: 0 <= a < |ready| ==> ready[a] < |before|
    ensures |r| == |before|
    decreases w
  {
    if w == 0 then before
    else WaveState(step, before, ready, w - 1)[ready[w - 1] := step(before[ready[w - 1]])]
  }

  lemma {:induction false} WaveStateAt(step: Node -> Node, before: seq<Node>, ready: seq<nat>, w: nat, k: nat)
    requires w <= |ready| && Increasing(ready, |before|) && k < |before|
    ensures WaveState(step, before, ready, w)[k] == if k in ready[..w] then step(before[k]) else before[k]
    decreases w
  {
    if w > 0 {
      WaveStateAt(step, before, ready, w - 1, k);
      assert ready[..w] == ready[..w - 1] + [ready[w - 1]];
    }
  }

  /** One round of the wave loop runs the next ready node, which is still
      as it was before the wave. */
  lemma {:induction false} WaveNext(step: Node -> Node, before: seq<Node>, ready: seq<nat>, w: nat)
    requires w < |ready| && Increasing(ready, |before|)
    ensures var cur := WaveState(step, before, ready, w);
      ready[w] < |cur| && WaveState(step, before, ready, w + 1) == cur[ready[w] := step(cur[ready[w]])]
  {
    WaveStateAt(step, before, ready, w, ready[w]);
    assert ready[w] !in ready[..w];
  }

  /** What a whole wave does to the node list: it settles every ready node,
      touches no other, lowers the pending count by the number of ready nodes
      and keeps the nodes valid. */
  lemma WaveFacts(step: Node -> Node, plane: string, before: seq<Node>, edges: seq<Edge>, ready: seq<nat>)
    requires ready == ReadyIndices(before, edges, plane)
    requires StepSettles(step) && StepKeepsValid(step)
    ensures Pending(WaveState(step, before, ready, |ready|), plane) + |ready| == Pending(before, plane)
    ensures forall k :: 0 <= k < |before| && k !in ready ==> WaveState(step, before, ready, |ready|)[k] == before[k]
    ensures forall k :: k in ready ==> WaveState(step, before, ready, |ready|)[k] == step(before[k])
    ensures ValidNodes(before) ==> ValidNodes(WaveState(step, before, ready, |ready|))
  {
    WaveFrame(step, before, ready);
    ReadyUnsettled(plane, before, edges, ready);
    WaveStatePending(step, plane, before, ready, |ready|);
    WaveStateValid(step, before, ready, |ready|);
  }

  /** A whole wave touches exactly its ready nodes. */
  lemma WaveFrame(step: Node -> Node, before: seq<Node>, ready: seq<nat>)
    requires Increasing(ready, |before|)
    ensures forall k :: 0 <= k < |before| && k !in ready ==> WaveState(step, before, ready, |ready|)[k] == before[k]
    ensures forall k :: k in ready ==> WaveState(step, before, ready, |ready|)[k] == step(before[k])
  {
    var w := |ready|;
    assert ready[..w] == ready;
    forall k | 0 <= k < |before|
      ensures WaveState(step, before, ready, w)[k] == if k in ready then step(before[k]) else before[k]
    {
      WaveStateAt(step, before, ready, w, k);
    }
  }

  /** The ready nodes are unsettled nodes of the plane. */
  lemma ReadyUnsettled(plane: string, before: seq<Node>, edges: seq<Edge>, ready: seq<nat>)
    requires ready == ReadyIndices(before, edges, plane)
    ensures Increasing(ready, |before|)
    ensures forall a :: 0 <= a < |ready| ==> OnPlane(before[ready[a]], plane) && !Settled(before[ready[a]])
  {
    forall a | 0 <= a < |ready| ensures OnPlane(before[ready[a]], plane) && !Settled(before[ready[a]]) {
      assert Ready(before, edges, plane, ready[a]);
    }
  }

  lemma {:induction false} WaveStatePending(step: Node -> Node, plane: string, before: seq<Node>, ready: seq<nat>, w: nat)
    requires w <= |ready| && Increasing(ready, |before|) && StepSettles(step)
    requires forall a :: 0 <= a < |ready| ==> OnPlane(before[ready[a]], plane) && !Settled(before[ready[a]])
    ensures Pending(WaveState(step, before, ready, w), plane) + w == Pending(before, plane)
    decreases w
  {
    if w > 0 {
      var i := ready[w - 1];
      WaveStatePending(step, plane, before, ready, w - 1);
      WaveStateAt(step, before, ready, w - 1, i);
      assert i !in ready[..w - 1];
      assert Done(step(before[i]));
      PendingSettle(WaveState(step, before, ready, w - 1), i, step(before[i]), plane);
    }
  }

  lemma {:induction false} WaveStateValid(step: Node -> Node, before: seq<Node>, ready: seq<nat>, w: nat)
    requires w <= |ready| && (forall a :: 0 <= a < |ready| ==> ready[a] < |before|) && StepKeepsValid(step)
    ensures ValidNodes(before) ==> ValidNodes(WaveState(step, before, ready, w))
    decreases w
  {
    if w > 0 && ValidNodes(before) {
      var i := ready[w - 1];
      WaveStateValid(step, before, ready, w - 1);
      assert GraphSchema.ValidNode(JObj(before[i]));
      UpdateValid(WaveState(step, before, ready, w - 1), i, step(before[i]));
    }
  }

  lemma UpdateValid(s: seq<Node>, i: nat, n: Node)
    requires i < |s| && ValidNodes(s) && GraphSchema.ValidNode(JObj(n))
    ensures ValidNodes(s[i := n])
  {
    var t := s[i := n];
    forall k | 0 <= k < |t| ensures GraphSchema.ValidNode(JObj(t[k])) {
      if k != i {
        assert t[k] == s[k];
      }
    }
  }

  /** Merging at one node that has not been merged yet gives the same node
      whether the outputs are read before or after other inputs changed. */
  lemma MergedSame(a: seq<Node>, b: seq<Node>, edges: seq<Edge>, i: nat)
    requires SameButInputs(a, b) && i < |a| && a[i] == b[i]
    ensures MergedNode(a, edges, i) == MergedNode(b, edges, i)
  {
    OutputsIgnoreInputs(a, b);
    assert Id(a[i]) == Id(b[i]);
    FoldSame(a, b, Spread(InputOf(a[i])), Preds(edges, Id(a[i])));
  }

  lemma {:induction false} FoldSame(a: seq<Node>, b: seq<Node>, acc: map<string, Json>, deps: seq<string>)
    requires forall d :: OutputOf(a, d) == OutputOf(b, d)
    ensures FoldOutputs(a, acc, deps) == FoldOutputs(b, acc, deps)
    decreases |deps|
  {
    if deps != [] {
      FoldSame(a, b, Overlay(acc, OutputOf(a, deps[0])), deps[1..]);
    }
  }

  /** The merged node differs from the node at most in its input. */
  lemma MergedKeeps(nodes: seq<Node>, edges: seq<Edge>, i: nat)
    requires i < |nodes|
    ensures MergedNode(nodes, edges, i) - {"input"} == nodes[i] - {"input"}
  {
    var deps := Preds(edges, Id(nodes[i]));
    if deps != [] {
      InputUpdate(nodes[i], JObj(FoldOutputs(nodes, Spread(InputOf(nodes[i])), deps)));
    }
  }

  /** The merge step changes inputs only, and only of the ready nodes. */
  lemma MergeKeeps(nodes: seq<Node>, edges: seq<Edge>, ready: seq<nat>)
    ensures SameButInputs(MergeInputs(nodes, edges, ready), nodes)
    ensures forall k :: 0 <= k < |nodes| && k !in ready ==> MergeInputs(nodes, edges, ready)[k] == nodes[k]
    ensures ValidNodes(nodes) ==> ValidNodes(MergeInputs(nodes, edges, ready))
  {
    var m := MergeInputs(nodes, edges, ready);
    forall k | 0 <= k < |nodes| ensures m[k] - {"input"} == nodes[k] - {"input"}
      && (ValidNodes(nodes) ==> GraphSchema.ValidNode(JObj(m[k])))
    {
      if k in ready && Preds(edges, Id(nodes[k])) != [] {
        var x := JObj(FoldOutputs(nodes, Spread(InputOf(nodes[k])), Preds(edges, Id(nodes[k]))));
        InputUpdate(nodes[k], x);
        if ValidNodes(nodes) {
          InputUpdateValid(nodes[k], x);
        }
      }
    }
  }

  /** The merge loop over the ready nodes after r of them: those are merged
      (from the node list the loop started with), the others untouched. */
  predicate MergedUpTo(nodes0: seq<Node>, cur: seq<Node>, edges: seq<Edge>, ready: seq<nat>, r: nat)
  {
    && r <= |ready|
    && (forall a :: 0 <= a < |ready| ==> ready[a] < |nodes0|)
    && (forall a, b :: 0 <= a < b < |ready| ==> ready[a] < ready[b])
    && SameButInputs(cur, nodes0)
    && forall k :: 0 <= k < |nodes0| ==> cur[k] == if k in ready[..r] then MergedNode(nodes0, edges, k) else nodes0[k]
  }

  /** The next ready node is still as it was. */
  lemma MergedUpToAt(nodes0: seq<Node>, cur: seq<Node>, edges: seq<Edge>, ready: seq<nat>, r: nat)
    requires MergedUpTo(nodes0, cur, edges, ready, r) && r < |ready|
    ensures ready[r] < |cur| && cur[ready[r]] == nodes0[ready[r]]
    ensures MergedNode(cur, edges, ready[r]) == MergedNode(nodes0, edges, ready[r])
  {
    assert ready[r] !in ready[..r];
    MergedSame(cur, nodes0, edges, ready[r]);
  }

  /** Merging the next ready node advances the loop. */
  lemma MergedUpToStep(nodes0: seq<Node>, cur: seq<Node>, next: seq<Node>, edges: seq<Edge>, ready: seq<nat>, r: nat)
    requires MergedUpTo(nodes0, cur, edges, ready, r) && r < |ready| && ready[r] < |cur|
    requires next == cur[ready[r] := MergedNode(nodes0, edges, ready[r])]
    ensures MergedUpTo(nodes0, next, edges, ready, r + 1)
  {
    var i := ready[r];
    assert ready[..r + 1] == ready[..r] + [i];
    assert i !in ready[..r];
    MergedKeeps(nodes0, edges, i);
  }

  /** After all ready nodes: the merge of every ready node. */
  lemma MergedUpToAll(nodes0: seq<Node>, cur: seq<Node>, edges: seq<Edge>, ready: seq<nat>)
    requires MergedUpTo(nodes0, cur, edges, ready, |ready|)
    ensures cur == MergeInputs(nodes0, edges, ready)
  {
    assert ready[..|ready|] == ready;
  }
}
