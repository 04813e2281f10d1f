/** The graph hook of the renderer: the normalisation applied to a graph loaded from
    disk before it enters the store, the projection applied to the store's graph
    before it is saved, and the drag-stop handler. */
module UseGraph {
  import opened Wrappers
  import opened Json
  import opened GraphStore

  /** `n.data?.label`. */
  function DataLabel(n: FlowNode): (r: Option<Json>)
    ensures r.Some? <==> n.data.Some? && "label" in n.data.value
    ensures r.Some? ==> r.value == n.data.value["label"]
  {
    if n.data.Some? then Get(n.data.value, "label") else None
  }

  /** A defined, truthy value: what the left operand of `||` must be to be chosen. */
  predicate Usable(o: Option<Json>) {
    o.Some? && Truthy(o.value)
  }

  /** `n.label || n.data?.label || 'Untitled'`: the first truthy one, so an empty
      string falls through like a missing label. */
  function DisplayLabel(n: FlowNode): (r: Json)
    ensures Truthy(r)
    ensures Usable(n.nodeLabel) ==> r == n.nodeLabel.value
    ensures !Usable(n.nodeLabel) && Usable(DataLabel(n)) ==> r == DataLabel(n).value
    ensures !Usable(n.nodeLabel) && !Usable(DataLabel(n)) ==> r == JStr("Untitled")
  {
    Or(n.nodeLabel, Or(DataLabel(n), Some(JStr("Untitled")))).value
  }

  /** The load normalisation of one node: a missing position becomes (0, 0), and the
      data record gets the display label under `label`. The node keeps its id, type and
      top-level label, and its data keeps every key it had. */
  function Normalized(n: FlowNode): (r: FlowNode)
    ensures r.id == n.id && r.kind == n.kind && r.nodeLabel == n.nodeLabel
    ensures n.position.Some? ==> r.position == n.position
    ensures n.position.None? ==> r.position == Some(Position(0, 0))
    ensures r.data.Some? && DataLabel(r) == Some(DisplayLabel(n))
    ensures r.data.value.Keys == n.data.GetOr(map[]).Keys + {"label"}
    ensures forall k :: k in n.data.GetOr(map[]) && k != "label" ==> r.data.value[k] == n.data.value[k]
  {
    n.(position := Some(n.position.GetOr(Position(0, 0))),
       data := Some(n.data.GetOr(map[])["label" := DisplayLabel(n)]))
  }

  function NormalizeAll(nodes: seq<FlowNode>): (r: seq<FlowNode>)
    ensures |r| == |nodes|
    ensures forall i :: 0 <= i < |r| ==> r[i] == Normalized(nodes[i])
  {
    seq(|nodes|, i requires 0 <= i < |nodes| => Normalized(nodes[i]))
  }

  /** What the loaded graph becomes in the store: nodes normalised, edges as loaded. */
  function Loaded(g: Snapshot): Snapshot {
    Snapshot(NormalizeAll(g.nodes), g.edges)
  }

  /** Normalising a normalised node changes nothing. */
  lemma NormalizeIdempotent(n: FlowNode)
    ensures Normalized(Normalized(n)) == Normalized(n)
  {
    var r := Normalized(n);
    assert DisplayLabel(r) == DisplayLabel(n);
    assert r.data.value["label" := DisplayLabel(n)] == r.data.value;
  }

  /** The save projection `{...n, label: n.data.label}` of every node, edges as they
      are. A node without a data record makes it throw. */
  function ForSave(g: Snapshot): (r: Result<Snapshot, string>)
    ensures r.Ok? <==> forall i :: 0 <= i < |g.nodes| ==> g.nodes[i].data.Some?
    ensures r.Ok? ==> r.value.edges == g.edges && |r.value.nodes| == |g.nodes|
    ensures r.Ok? ==> forall i :: 0 <= i < |g.nodes| ==>
              r.value.nodes[i] == g.nodes[i].(nodeLabel := DataLabel(g.nodes[i]))
  {
    if exists i :: 0 <= i < |g.nodes| && g.nodes[i].data.None? then
      Err("Cannot read properties of undefined (reading 'label')")
    else
      Ok(Snapshot(seq(|g.nodes|, i requires 0 <= i < |g.nodes| => g.nodes[i].(nodeLabel := DataLabel(g.nodes[i]))),
                  g.edges))
  }

  /** The save projection of a loaded graph never throws, puts at each node's top level
      the label the canvas displayed, and normalising it gives it back unchanged. Whether
      the main process accepts it is a separate question (its schema wants `x`/`y`). */
  lemma {:induction false} SaveOfLoadedIsStable(g: Snapshot)
    ensures ForSave(Loaded(g)).Ok?
    ensures forall i :: 0 <= i < |g.nodes| ==>
              ForSave(Loaded(g)).value.nodes[i].nodeLabel == Some(DisplayLabel(g.nodes[i]))
    ensures Loaded(ForSave(Loaded(g)).value) == ForSave(Loaded(g)).value
  {
    var s := ForSave(Loaded(g)).value;
    forall i | 0 <= i < |g.nodes|
      ensures s.nodes[i].nodeLabel == Some(DisplayLabel(g.nodes[i]))
      ensures Normalized(s.nodes[i]) == s.nodes[i]
    {
      var m := s.nodes[i];
      assert DisplayLabel(m) == DisplayLabel(g.nodes[i]);
      assert m.data.value["label" := DisplayLabel(m)] == m.data.value;
    }
    assert NormalizeAll(s.nodes) == s.nodes;
  }

  /** The load effect: on success the store shows the normalised graph, its history
      restarts from it, and it is marked loaded; a failed load changes nothing. */
  method LoadGraph(store: GraphStore, loaded: Result<Snapshot, string>)
    modifies store
    ensures loaded.Ok? ==> && store.Valid() && store.isLoaded
                           && store.nodes == NormalizeAll(loaded.value.nodes)
                           && store.edges == loaded.value.edges
                           && store.history == [Loaded(loaded.value)] && store.historyIndex == 0
    ensures loaded.Err? ==> unchanged(store)
  {
    if loaded.Ok? {
      var data := loaded.value;
      var validNodes := NormalizeAll(data.nodes);
      store.SetGraph(Snapshot(validNodes, data.edges));
      store.SetIsLoaded(true);
    }
  }

  /** `handleNodeDragStop`: exactly one history push. */
  method HandleNodeDragStop(store: GraphStore)
    requires store.Valid()
    modifies store`history, store`historyIndex
    ensures store.Valid()
    ensures store.State() == Pushed(old(store.State()))
  {
    store.PushHistory();
  }
}
