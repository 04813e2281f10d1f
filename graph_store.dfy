/** The renderer's graph editor store: the canvas's nodes and edges plus a bounded
    linear undo/redo history of whole-graph snapshots. The pure functions below give
    the effect of each history operation on the store's four fields; the class
    `GraphStore` performs the operations on its fields and is proved against them. */
module GraphStore {
  import opened Wrappers
  import opened Json
  import opened Seqs

  datatype Position = Position(x: int, y: int)

  /** A canvas node. `nodeLabel` and `position` may be missing in data read from disk;
      `data` is the free-form record the node components display (`data.label`). */
  datatype FlowNode = FlowNode(id: string, kind: Option<string>, nodeLabel: Option<Json>,
                               position: Option<Position>, data: Option<map<string, Json>>)

  datatype FlowEdge = FlowEdge(id: string, source: string, target: string)

  /** A `{nodes, edges}` graph value: what `setGraph` takes and what the history holds. */
  datatype Snapshot = Snapshot(nodes: seq<FlowNode>, edges: seq<FlowEdge>)

  /** A change the canvas reports for a node or an edge: its `type` and the `id` it is about. */
  datatype Change = Change(kind: string, id: string)

  /** A new edge the user drew, from one node to another. */
  datatype Connection = Connection(source: string, target: string)

  /** The number of snapshots the history keeps. */
  const MaxHistory: nat := 50

  /** Either no history at all, or a cursor on one of at most `MaxHistory` snapshots. */
  predicate HistoryInv(history: seq<Snapshot>, index: int) {
    (history == [] && index == -1) || (0 <= index < |history| <= MaxHistory)
  }

  /** The store's graph and history fields as one value. */
  datatype Editor = Editor(nodes: seq<FlowNode>, edges: seq<FlowEdge>, history: seq<Snapshot>, index: int) {
    predicate Valid() { HistoryInv(history, index) }

    function Current(): Snapshot { Snapshot(nodes, edges) }

    /** The graph shown is the snapshot under the cursor (no edit since the last
        history operation). */
    predicate AtRest() { 0 <= index < |history| && history[index] == Current() }
  }

  // ---------------------------------------------------------------- history operations

  /** `pushHistory`: drop the redo entries after the cursor, append the current graph,
      evict the oldest snapshot beyond `MaxHistory`, move the cursor to the new end. */
  function Pushed(s: Editor): (r: Editor)
    requires s.Valid()
    ensures r.Valid() && r.AtRest()
    ensures r.nodes == s.nodes && r.edges == s.edges
    ensures |r.history| == if s.index + 2 <= MaxHistory then s.index + 2 else MaxHistory
    ensures r.index == |r.history| - 1
    ensures r.history[..r.index] == s.history[s.index + 2 - |r.history|..s.index + 1]
  {
    var kept := s.history[..s.index + 1] + [s.Current()];
    var h := if |kept| > MaxHistory then kept[1..] else kept;
    s.(history := h, index := |h| - 1)
  }

  /** `undo`: with a snapshot before the cursor, step back and show it; otherwise nothing. */
  function Undone(s: Editor): (r: Editor)
    ensures r.history == s.history
    ensures s.Valid() ==> r.Valid()
    ensures s.index > 0 && s.Valid() ==> r.index == s.index - 1 && r.AtRest()
    ensures s.index <= 0 ==> r == s
  {
    if s.index > 0 && s.index - 1 < |s.history| then
      var g := s.history[s.index - 1];
      s.(nodes := g.nodes, edges := g.edges, index := s.index - 1)
    else s
  }

  /** `redo`: with a snapshot after the cursor, step forward and show it; otherwise nothing. */
  function Redone(s: Editor): (r: Editor)
    requires s.Valid()
    ensures r.history == s.history
    ensures r.Valid()
    ensures s.index < |s.history| - 1 ==> r.index == s.index + 1 && r.AtRest()
    ensures s.index >= |s.history| - 1 ==> r == s
  {
    if s.index < |s.history| - 1 then
      var g := s.history[s.index + 1];
      s.(nodes := g.nodes, edges := g.edges, index := s.index + 1)
    else s
  }

  /** Undo then redo comes back to the same cursor, showing the snapshot stored there
      (edits made since that snapshot are not part of the history and are gone). */
  lemma UndoThenRedo(s: Editor)
    requires s.Valid() && s.index > 0
    ensures Redone(Undone(s)) == s.(nodes := s.history[s.index].nodes, edges := s.history[s.index].edges)
    ensures s.AtRest() ==> Redone(Undone(s)) == s
  {
  }

  /** Redo then undo comes back likewise. */
  lemma RedoThenUndo(s: Editor)
    requires s.Valid() && s.index < |s.history| - 1
    ensures Undone(Redone(s)) == s.(nodes := s.history[s.index].nodes, edges := s.history[s.index].edges)
    ensures s.AtRest() ==> Undone(Redone(s)) == s
  {
  }

  /** After a push there is nothing to redo. */
  lemma PushClearsRedo(s: Editor)
    requires s.Valid()
    ensures Redone(Pushed(s)) == Pushed(s)
  {
  }

  /** Undo right after a push shows the snapshot the cursor was on before the push,
      even when the push evicted the oldest snapshot. */
  lemma {:induction false} UndoAfterPush(s: Editor)
    requires s.Valid() && s.index >= 0
    ensures Undone(Pushed(s)).index == Pushed(s).index - 1
    ensures Undone(Pushed(s)).Current() == s.history[s.index]
  {
    var p := Pushed(s);
    var k := p.index - 1;
    assert p.history[..p.index][k] == s.history[s.index + 2 - |p.history|..s.index + 1][k];
  }

  // ---------------------------------------------------------------- structural edits

  function NodeKept(id: string): FlowNode -> bool {
    (n: FlowNode) => n.id != id
  }

  function EdgeKept(ids: set<string>): FlowEdge -> bool {
    (e: FlowEdge) => e.source !in ids && e.target !in ids
  }

  /** The edges touching none of `ids`, in their original order. */
  function Detached(edges: seq<FlowEdge>, ids: set<string>): seq<FlowEdge> {
    Filter(edges, EdgeKept(ids))
  }

  /** The ids a change list removes (`type === 'remove'`). */
  function RemovedIds(changes: seq<Change>): (r: set<string>)
    ensures forall id :: id in r <==> exists c :: c in changes && c.kind == "remove" && c.id == id
  {
    set c | c in changes && c.kind == "remove" :: c.id
  }

  predicate HasRemoval(changes: seq<Change>) {
    exists c :: c in changes && c.kind == "remove"
  }

  /** `{...node, data: {...node.data, ...d}}`: the keys of `d` override, the others stay. */
  function Merged(n: FlowNode, d: map<string, Json>): (r: FlowNode)
    ensures r.id == n.id && r.kind == n.kind && r.nodeLabel == n.nodeLabel && r.position == n.position
    ensures r.data.Some? && r.data.value.Keys == n.data.GetOr(map[]).Keys + d.Keys
    ensures forall k :: k in d ==> r.data.value[k] == d[k]
    ensures forall k :: k in n.data.GetOr(map[]) && k !in d ==> r.data.value[k] == n.data.value[k]
  {
    n.(data := Some(n.data.GetOr(map[]) + d))
  }

  /** `updateNodeData`: every node with the id gets its data merged with `d`; the
      others are untouched. */
  function WithData(nodes: seq<FlowNode>, id: string, d: map<string, Json>): (r: seq<FlowNode>)
    ensures |r| == |nodes|
    ensures forall i :: 0 <= i < |r| ==> r[i] == if nodes[i].id == id then Merged(nodes[i], d) else nodes[i]
  {
    seq(|nodes|, i requires 0 <= i < |nodes| => if nodes[i].id == id then Merged(nodes[i], d) else nodes[i])
  }

  /** Two data updates of one node amount to one update with both records, the second
      winning on shared keys. */
  lemma UpdatesCompose(nodes: seq<FlowNode>, id: string, d1: map<string, Json>, d2: map<string, Json>)
    ensures WithData(WithData(nodes, id, d1), id, d2) == WithData(nodes, id, d1 + d2)
  {
    var a, b := WithData(WithData(nodes, id, d1), id, d2), WithData(nodes, id, d1 + d2);
    forall i | 0 <= i < |nodes| ensures a[i] == b[i] {
      if nodes[i].id == id {
        assert nodes[i].data.GetOr(map[]) + d1 + d2 == nodes[i].data.GetOr(map[]) + (d1 + d2);
      }
    }
  }

  /** Repeating an update changes nothing more. */
  lemma UpdateIdempotent(nodes: seq<FlowNode>, id: string, d: map<string, Json>)
    ensures WithData(WithData(nodes, id, d), id, d) == WithData(nodes, id, d)
  {
    UpdatesCompose(nodes, id, d, d);
    assert d + d == d;
  }

  function NodeIds(nodes: seq<FlowNode>): set<string> {
    set n | n in nodes :: n.id
  }

  /** Every edge joins two nodes on the canvas. The schema does not demand this; the
      store keeps it when nodes are deleted. */
  ghost predicate Connected(nodes: seq<FlowNode>, edges: seq<FlowEdge>) {
    forall e :: e in edges ==> e.source in NodeIds(nodes) && e.target in NodeIds(nodes)
  }

  /** `deleteNode(id)` on the graph: no node with the id and no edge touching it remain;
      every other node and edge remains. */
  lemma {:induction false} DeleteNodeEffect(nodes: seq<FlowNode>, edges: seq<FlowEdge>, id: string)
    ensures forall n :: n in Filter(nodes, NodeKept(id)) <==> n in nodes && n.id != id
    ensures forall e :: e in Detached(edges, {id}) <==> e in edges && e.source != id && e.target != id
  {
    forall n ensures n in Filter(nodes, NodeKept(id)) <==> n in nodes && n.id != id {
      FilterMembership(nodes, NodeKept(id), n);
    }
    forall e ensures e in Detached(edges, {id}) <==> e in edges && e.source != id && e.target != id {
      FilterMembership(edges, EdgeKept({id}), e);
    }
  }

  /** Deleting a node leaves no dangling edge behind. */
  lemma {:induction false} DeleteKeepsConnected(nodes: seq<FlowNode>, edges: seq<FlowEdge>, id: string)
    requires Connected(nodes, edges)
    ensures Connected(Filter(nodes, NodeKept(id)), Detached(edges, {id}))
  {
    DeleteNodeEffect(nodes, edges, id);
    var kept := Filter(nodes, NodeKept(id));
    forall e | e in Detached(edges, {id})
      ensures e.source in NodeIds(kept) && e.target in NodeIds(kept)
    {
      var s :| s in nodes && s.id == e.source;
      var t :| t in nodes && t.id == e.target;
      assert s in kept && t in kept;
    }
  }

  /** The edge cleanup of `onNodesChange` keeps exactly the edges touching no removed id. */
  lemma {:induction false} DetachedMembership(edges: seq<FlowEdge>, ids: set<string>, e: FlowEdge)
    ensures e in Detached(edges, ids) <==> e in edges && e.source !in ids && e.target !in ids
  {
    FilterMembership(edges, EdgeKept(ids), e);
  }

  /** Data updates keep every node id, so they keep every edge connected. */
  lemma {:induction false} UpdateKeepsConnected(nodes: seq<FlowNode>, edges: seq<FlowEdge>, id: string, d: map<string, Json>)
    requires Connected(nodes, edges)
    ensures Connected(WithData(nodes, id, d), edges)
  {
    var r := WithData(nodes, id, d);
    forall x | x in NodeIds(nodes) ensures x in NodeIds(r) {
      var n :| n in nodes && n.id == x;
      var i :| 0 <= i < |nodes| && nodes[i] == n;
      assert r[i].id == x;
    }
  }

  // ---------------------------------------------------------------- the store object

  class GraphStore {
    var nodes: seq<FlowNode>
    var edges: seq<FlowEdge>
    var history: seq<Snapshot>
    var historyIndex: int
    var isLoaded: bool

    predicate Valid()
      reads this
    {
      HistoryInv(history, historyIndex)
    }

    function State(): (e: Editor)
      reads this
    {
      Editor(nodes, edges, history, historyIndex)
    }

    /** The initial store: empty graph, no history, not loaded. */
    constructor ()
      ensures Valid()
      ensures nodes == [] && edges == [] && history == [] && historyIndex == -1 && !isLoaded
    {
      nodes, edges, history, historyIndex, isLoaded := [], [], [], -1, false;
    }

    method SetIsLoaded(loaded: bool)
      modifies this`isLoaded
      ensures isLoaded == loaded
    {
      isLoaded := loaded;
    }

    /** `setGraph`: show `data` and restart the history with it as the only snapshot. */
    method SetGraph(data: Snapshot)
      modifies this`nodes, this`edges, this`history, this`historyIndex
      ensures Valid() && State().AtRest()
      ensures nodes == data.nodes && edges == data.edges
      ensures history == [data] && historyIndex == 0
    {
      nodes, edges := data.nodes, data.edges;
      history, historyIndex := [data], 0;
    }

    method PushHistory()
      requires Valid()
      modifies this`history, this`historyIndex
      ensures Valid()
      ensures State() == Pushed(old(State()))
    {
      var currentGraph := Snapshot(nodes, edges);
      var newHistory := history[..historyIndex + 1];
      newHistory := newHistory + [currentGraph];
      if |newHistory| > MaxHistory {
        newHistory := newHistory[1..];
      }
      history, historyIndex := newHistory, |newHistory| - 1;
    }

    method Undo()
      requires Valid()
      modifies this`nodes, this`edges, this`historyIndex
      ensures Valid()
      ensures State() == Undone(old(State()))
    {
      if historyIndex > 0 {
        var prevIndex := historyIndex - 1;
        if prevIndex < |history| {
          var prevGraph := history[prevIndex];
          nodes, edges, historyIndex := prevGraph.nodes, prevGraph.edges, prevIndex;
        }
      }
    }

    method Redo()
      requires Valid()
      modifies this`nodes, this`edges, this`historyIndex
      ensures Valid()
      ensures State() == Redone(old(State()))
    {
      if historyIndex < |history| - 1 {
        var nextIndex := historyIndex + 1;
        var nextGraph := history[nextIndex];
        nodes, edges, historyIndex := nextGraph.nodes, nextGraph.edges, nextIndex;
      }
    }

    /** `addNode`: append the node, then push history. */
    method AddNode(node: FlowNode)
      requires Valid()
      modifies this`nodes, this`history, this`historyIndex
      ensures Valid()
      ensures State() == Pushed(old(State()).(nodes := old(nodes) + [node]))
    {
      nodes := nodes + [node];
      PushHistory();
    }

    /** `updateNodeData`: merge `d` into the data of the nodes with the id; edges and
        history are untouched. */
    method UpdateNodeData(id: string, d: map<string, Json>)
      modifies this`nodes
      ensures nodes == WithData(old(nodes), id, d)
    {
      nodes := WithData(nodes, id, d);
    }

    /** `deleteNode`: drop the node and every edge touching it, then push history. */
    method DeleteNode(id: string)
      requires Valid()
      modifies this`nodes, this`edges, this`history, this`historyIndex
      ensures Valid()
      ensures State() == Pushed(old(State()).(nodes := Filter(old(nodes), NodeKept(id)),
                                              edges := Detached(old(edges), {id})))
    {
      var newNodes := Filter(nodes, NodeKept(id));
      var newEdges := Detached(edges, {id});
      nodes, edges := newNodes, newEdges;
      PushHistory();
    }

    /** `onNodesChange`: apply the changes (the canvas library's `applyNodeChanges`,
        passed in); if any node was removed, drop the edges touching a removed id and
        push history. */
    method OnNodesChange(changes: seq<Change>, applyNodeChanges: (seq<Change>, seq<FlowNode>) -> seq<FlowNode>)
      requires Valid()
      modifies this`nodes, this`edges, this`history, this`historyIndex
      ensures Valid()
      ensures var removed := RemovedIds(changes);
              var applied := old(State()).(nodes := applyNodeChanges(changes, old(nodes)),
                                           edges := if removed == {} then old(edges) else Detached(old(edges), removed));
              State() == if removed == {} then applied else Pushed(applied)
    {
      var newNodes := applyNodeChanges(changes, nodes);
      var removedIds := RemovedIds(changes);
      var newEdges := edges;
      if |removedIds| > 0 {
        newEdges := Detached(edges, removedIds);
      }
      nodes, edges := newNodes, newEdges;
      if |removedIds| > 0 {
        PushHistory();
      }
    }

    /** `onEdgesChange`: apply the changes; push history only when one is a removal. */
    method OnEdgesChange(changes: seq<Change>, applyEdgeChanges: (seq<Change>, seq<FlowEdge>) -> seq<FlowEdge>)
      requires Valid()
      modifies this`edges, this`history, this`historyIndex
      ensures Valid()
      ensures var applied := old(State()).(edges := applyEdgeChanges(changes, old(edges)));
              State() == if HasRemoval(changes) then Pushed(applied) else applied
    {
      edges := applyEdgeChanges(changes, edges);
      if HasRemoval(changes) {
        PushHistory();
      }
    }

    /** `onConnect`: add the edge (the canvas library's `addEdge`, passed in), then push history. */
    method OnConnect(connection: Connection, addEdge: (Connection, seq<FlowEdge>) -> seq<FlowEdge>)
      requires Valid()
      modifies this`edges, this`history, this`historyIndex
      ensures Valid()
      ensures State() == Pushed(old(State()).(edges := addEdge(connection, old(edges))))
    {
      edges := addEdge(connection, edges);
      PushHistory();
    }
  }
}
