/** The declared lifecycle topology: it is well formed, every run of the slot machine is one
    of its paths, and what validating it does and does not say about reopening admission. */
module LifecycleTopology {
  import opened Common
  import opened Lifecycle
  import opened Evidence
  import opened Topology

  function PhaseId(phase: LifecyclePhase): Byte {
    match phase
    case Inactive => 0
    case Activating => 1
    case Active => 2
    case Draining => 3
    case Retiring => 4
  }

  function TriggerId(trigger: LifecycleTrigger): Byte {
    match trigger
    case ClaimActivation => 0
    case Dispatch => 1
    case CancelWaiter => 2
    case ActivationSucceeded => 3
    case ActivationFailed => 4
    case DeliveryResolved => 5
    case BeginDrain => 6
    case FenceAcknowledged => 7
    case ForceDrain => 8
    case Terminated => 9
  }

  function TriggerLabel(trigger: LifecycleTrigger): string {
    match trigger
    case ClaimActivation => "claim_activation"
    case Dispatch => "dispatch"
    case CancelWaiter => "cancel_waiter"
    case ActivationSucceeded => "activation_succeeded"
    case ActivationFailed => "activation_failed"
    case DeliveryResolved => "delivery_resolved"
    case BeginDrain => "begin_drain"
    case FenceAcknowledged => "fence_acknowledged"
    case ForceDrain => "force_drain"
    case Terminated => "terminated"
  }

  /** The declared transition of a lifecycle edge. */
  function Declaration(edge: LifecycleEdge): Edge {
    var (from, trigger, to) := edge.Endpoints();
    Edge(PhaseId(from), TriggerId(trigger), PhaseId(to), TriggerLabel(trigger))
  }

  const PHASES: seq<Vertex> := [
    Vertex(0, "inactive"), Vertex(1, "activating"), Vertex(2, "active"), Vertex(3, "draining"), Vertex(4, "retiring")]

  function Declarations(edges: seq<LifecycleEdge>): (r: seq<Edge>)
    ensures |r| == |edges| && forall i :: 0 <= i < |edges| ==> r[i] == Declaration(edges[i])
  {
    seq(|edges|, i requires 0 <= i < |edges| => Declaration(edges[i]))
  }

  const LIFECYCLE_TOPOLOGY: Graph := Graph("entity_lifecycle", 0, PHASES, Declarations(ALL_EDGES))

  /** Every phase and every trigger, in the order of their identities. */
  const ALL_PHASES: seq<LifecyclePhase> := [
    LifecyclePhase.Inactive, LifecyclePhase.Activating, LifecyclePhase.Active, LifecyclePhase.Draining, LifecyclePhase.Retiring]

  const ALL_TRIGGERS: seq<LifecycleTrigger> := [
    LifecycleTrigger.ClaimActivation, LifecycleTrigger.Dispatch, LifecycleTrigger.CancelWaiter,
    LifecycleTrigger.ActivationSucceeded, LifecycleTrigger.ActivationFailed, LifecycleTrigger.DeliveryResolved,
    LifecycleTrigger.BeginDrain, LifecycleTrigger.FenceAcknowledged, LifecycleTrigger.ForceDrain, LifecycleTrigger.Terminated]

  /** Identities number the phases and triggers in declaration order, without gaps. */
  lemma IdentitiesFollowDeclarationOrder(phase: LifecyclePhase, trigger: LifecycleTrigger)
    ensures 0 <= PhaseId(phase) < |ALL_PHASES| && ALL_PHASES[PhaseId(phase)] == phase
    ensures 0 <= TriggerId(trigger) < |ALL_TRIGGERS| && ALL_TRIGGERS[TriggerId(trigger)] == trigger
  {}

  /** The declared graph, spelled out. */
  lemma DeclaredTopologyIsThisGraph()
    ensures LIFECYCLE_TOPOLOGY == Graph(
      "entity_lifecycle", 0,
      [Vertex(0, "inactive"), Vertex(1, "activating"), Vertex(2, "active"), Vertex(3, "draining"), Vertex(4, "retiring")],
      [Edge(0, 0, 1, "claim_activation"), Edge(1, 3, 2, "activation_succeeded"), Edge(1, 4, 0, "activation_failed"),
       Edge(2, 6, 3, "begin_drain"), Edge(3, 7, 4, "fence_acknowledged"), Edge(3, 8, 4, "force_drain"),
       Edge(4, 9, 0, "terminated")])
  {
    var transitions := LIFECYCLE_TOPOLOGY.transitions;
    assert |transitions| == 7;
    assert transitions[0] == Edge(0, 0, 1, "claim_activation");
    assert transitions[1] == Edge(1, 3, 2, "activation_succeeded");
    assert transitions[2] == Edge(1, 4, 0, "activation_failed");
    assert transitions[3] == Edge(2, 6, 3, "begin_drain");
    assert transitions[4] == Edge(3, 7, 4, "fence_acknowledged");
    assert transitions[5] == Edge(3, 8, 4, "force_drain");
    assert transitions[6] == Edge(4, 9, 0, "terminated");
  }

  // ----- the validator -----

  datatype LifecycleVerdict =
    | Accepted
    | Structure(error: Verdict)
    | Missing(edge: LifecycleEdge)
    | ReopensAdmission

  predicate Requires(t: Graph, n: nat)
    requires n <= |ALL_EDGES|
  {
    forall i :: 0 <= i < n ==> Declaration(ALL_EDGES[i]) in t.transitions
  }

  predicate Closes(v: Byte) {
    v == PhaseId(LifecyclePhase.Draining) || v == PhaseId(LifecyclePhase.Retiring)
  }

  predicate Admits(v: Byte) {
    v == PhaseId(LifecyclePhase.Activating) || v == PhaseId(LifecyclePhase.Active)
  }

  predicate Reopens(t: Graph) {
    exists i :: 0 <= i < |t.transitions| && Closes(t.transitions[i].from) && Admits(t.transitions[i].to)
  }

  ghost predicate IsAccepted(t: Graph) {
    WellFormed(t) && Requires(t, |ALL_EDGES|) && !Reopens(t)
  }

  /** The verdict names the first defect, structural ones before lifecycle ones. */
  ghost predicate NamesFirstLifecycleDefect(t: Graph, verdict: LifecycleVerdict) {
    match verdict
    case Accepted => IsAccepted(t)
    case Structure(error) => !error.Ok? && NamesFirstDefect(t, error)
    case Missing(edge) =>
      && WellFormed(t)
      && exists i :: 0 <= i < |ALL_EDGES| && Requires(t, i) && ALL_EDGES[i] == edge && Declaration(edge) !in t.transitions
    case ReopensAdmission => WellFormed(t) && Requires(t, |ALL_EDGES|) && Reopens(t)
  }

  method ValidateLifecycle(t: Graph) returns (verdict: LifecycleVerdict)
    ensures NamesFirstLifecycleDefect(t, verdict)
    ensures verdict.Accepted? <==> IsAccepted(t)
  {
    hide WellFormed, NamesFirstDefect;
    var structure := Validate(t);
    if !structure.Ok? {
      return Structure(structure);
    }
    for index := 0 to |ALL_EDGES|
      invariant Requires(t, index)
    {
      var edge := ALL_EDGES[index];
      if Declaration(edge) !in t.transitions {
        return Missing(edge);
      }
    }
    if Reopens(t) {
      return ReopensAdmission;
    }
    return Accepted;
  }

  // ----- the declared topology is accepted -----

  lemma EdgeIsAStep(t: Graph, edge: LifecycleEdge)
    requires Requires(t, |ALL_EDGES|)
    ensures Step(t, PhaseId(edge.Endpoints().0), PhaseId(edge.Endpoints().2))
  {
    assert edge in ALL_EDGES;
    assert Declaration(edge) in t.transitions;
  }

  /** The required edges lead from Inactive to every phase. */
  lemma PhasesAreReachable(t: Graph)
    requires t.initial == 0 && Requires(t, |ALL_EDGES|)
    ensures forall v: Byte :: v < 5 ==> Reachable(t, v)
  {
    assert PathBetween(t, [0], 0, 0);
    EdgeIsAStep(t, LifecycleEdge.ClaimActivation);
    EdgeIsAStep(t, LifecycleEdge.ActivationSucceeded);
    EdgeIsAStep(t, LifecycleEdge.BeginDrain);
    EdgeIsAStep(t, LifecycleEdge.FenceAcknowledged);
    hide Step, PathBetween, Requires;
    ReachableExtends(t, 0, 1);
    ReachableExtends(t, 1, 2);
    ReachableExtends(t, 2, 3);
    ReachableExtends(t, 3, 4);
  }

  lemma DeclaredEdges(t: Graph)
    requires t.transitions == Declarations(ALL_EDGES)
    ensures Requires(t, |ALL_EDGES|)
  {
    forall i | 0 <= i < |ALL_EDGES|
      ensures Declaration(ALL_EDGES[i]) in t.transitions
    {
      assert t.transitions[i] == Declaration(ALL_EDGES[i]);
    }
  }

  predicate SameKey(a: Edge, b: Edge) {
    a.from == b.from && a.trigger == b.trigger
  }

  /** Declared edges have distinct keys, join phases, and leave Retiring and Inactive by one trigger each. */
  lemma DeclarationFacts(e: LifecycleEdge, f: LifecycleEdge)
    ensures SameKey(Declaration(e), Declaration(f)) ==> e == f
    ensures Declaration(e).from < 5 && Declaration(e).to < 5
    ensures Declaration(e).from == 4 ==> Declaration(e).trigger == 9
    ensures Declaration(e).from == 0 ==> Declaration(e).trigger == 0
    ensures !(Closes(Declaration(e).from) && Admits(Declaration(e).to))
  {}

  lemma EdgesAreDistinct(i: nat, j: nat)
    requires i < j < |ALL_EDGES|
    ensures ALL_EDGES[i] != ALL_EDGES[j]
  {}

  predicate PhasesDeclared(t: Graph) {
    forall v: Byte :: v < 5 ==> Declared(t, v)
  }

  /** The declared edges come first, and are in order among themselves. */
  lemma DeclaredEdgeOk(t: Graph, i: nat)
    requires PhasesDeclared(t) && i < |ALL_EDGES| <= |t.transitions|
    requires forall k :: 0 <= k < |ALL_EDGES| ==> t.transitions[k] == Declaration(ALL_EDGES[k])
    ensures !RepeatedEdge(t, i) && Declared(t, t.transitions[i].from) && Declared(t, t.transitions[i].to)
  {
    hide Declared, Declaration;
    DeclarationFacts(ALL_EDGES[i], ALL_EDGES[i]);
    forall j | 0 <= j < i
      ensures !SameKey(t.transitions[j], t.transitions[i])
    {
      EdgesAreDistinct(j, i);
      DeclarationFacts(ALL_EDGES[j], ALL_EDGES[i]);
    }
  }

  /** The static topology passes both validations, so machine construction cannot panic. */
  lemma DeclaredTopologyIsAccepted()
    ensures IsAccepted(LIFECYCLE_TOPOLOGY)
  {
    var t := LIFECYCLE_TOPOLOGY;
    DeclaredEdges(t);
    PhasesAreReachable(t);
    hide Reachable, Requires, Declaration;
    forall v: Byte | v < 5
      ensures Declared(t, v)
    {
      assert t.vertices[v].id == v;
    }
    forall i | 0 <= i < |t.transitions|
      ensures !RepeatedEdge(t, i) && Declared(t, t.transitions[i].from) && Declared(t, t.transitions[i].to)
      ensures !(Closes(t.transitions[i].from) && Admits(t.transitions[i].to))
    {
      DeclaredEdgeOk(t, i);
      DeclarationFacts(ALL_EDGES[i], ALL_EDGES[i]);
    }
    hide RepeatedEdge, Declared;
  }

  // ----- every run is a path of it -----

  /** The phases a run visits, each listed once per stay. */
  function Visited<C, E, L>(state: EntitySlot<C, E, L>, events: seq<SlotEvent<C, E, L>>): seq<Byte> {
    if events == [] then [PhaseId(state.Phase())]
    else
      var n := |events| - 1;
      var before := Visited(state, events[..n]);
      var now := PhaseId(DecideAll(state, events).state.Phase());
      if now == PhaseId(DecideAll(state, events[..n]).state.Phase()) then before else before + [now]
  }

  lemma PathExtends(t: Graph, path: seq<Byte>, u: Byte, v: Byte, w: Byte)
    requires PathBetween(t, path, u, v) && Step(t, v, w)
    ensures PathBetween(t, path + [w], u, w)
  {}

  lemma PhaseStep<C, E, L>(state: EntitySlot<C, E, L>, event: SlotEvent<C, E, L>)
    ensures var next := Reduce(state, event).state;
      PhaseId(state.Phase()) == PhaseId(next.Phase()) || Step(LIFECYCLE_TOPOLOGY, PhaseId(state.Phase()), PhaseId(next.Phase()))
  {
    PhaseChangeIsDeclared(state, event);
    DeclaredEdges(LIFECYCLE_TOPOLOGY);
    hide Reduce, Step, Requires;
    if Reduce(state, event).state.Phase() != state.Phase() {
      EdgeIsAStep(LIFECYCLE_TOPOLOGY, EdgeTaken(state, event).value);
    }
  }

  /** Every run of the slot machine, whatever the facts, walks a path of the declared topology. */
  lemma {:induction false} RunsArePaths<C, E, L>(state: EntitySlot<C, E, L>, events: seq<SlotEvent<C, E, L>>)
    ensures PathBetween(LIFECYCLE_TOPOLOGY, Visited(state, events),
      PhaseId(state.Phase()), PhaseId(DecideAll(state, events).state.Phase()))
  {
    hide Reduce, Step, PathBetween, PhaseId;
    if events == [] {
      assert PathBetween(LIFECYCLE_TOPOLOGY, [PhaseId(state.Phase())], PhaseId(state.Phase()), PhaseId(state.Phase())) by {
        TrivialPath(LIFECYCLE_TOPOLOGY, PhaseId(state.Phase()));
      }
    } else {
      var n := |events| - 1;
      RunsArePaths(state, events[..n]);
      var before := DecideAll(state, events[..n]).state;
      PhaseStep(before, events[n]);
      var now := PhaseId(DecideAll(state, events).state.Phase());
      if now != PhaseId(before.Phase()) {
        PathExtends(LIFECYCLE_TOPOLOGY, Visited(state, events[..n]), PhaseId(state.Phase()), PhaseId(before.Phase()), now);
      }
    }
  }

  lemma TrivialPath(t: Graph, v: Byte)
    ensures PathBetween(t, [v], v, v)
  {}

  // ----- reopening admission -----

  /** On every path a vertex that closed admission reaches one that admits only by way of Inactive. */
  ghost predicate NeverReopens(t: Graph) {
    forall path, i, j :: IsPath(t, path) && 0 <= i < j < |path| && Closes(path[i]) && Admits(path[j]) ==>
      exists k :: i < k < j && path[k] == PhaseId(LifecyclePhase.Inactive)
  }

  predicate OnlyPhases(vertices: seq<Vertex>) {
    forall v <- vertices :: v.id < 5
  }

  lemma {:induction false} ReopeningPassesInactive(t: Graph, path: seq<Byte>, i: nat, j: nat)
    requires IsAccepted(t) && OnlyPhases(t.vertices) && IsPath(t, path)
    requires i < j < |path| && Closes(path[i]) && Admits(path[j])
    ensures exists k :: i < k < j && path[k] == PhaseId(LifecyclePhase.Inactive)
  {
    hide Reachable;
    var u := path[j - 1];
    assert Step(t, u, path[j]);
    assert Declared(t, u) && !Closes(u);
    if Admits(u) {
      ReopeningPassesInactive(t, path, i, j - 1);
    }
  }

  // A vertex beyond the five phases is enough to reopen admission by a detour.

  /** A direct edge from the initial phase to every vertex that is not a phase. */
  function Spokes(vertices: seq<Vertex>): seq<Edge> {
    if vertices == [] then []
    else
      var v := vertices[|vertices| - 1].id;
      Spokes(vertices[..|vertices| - 1]) + if v < 5 then [] else [Edge(0, v, v, "")]
  }

  /** The declared edges, a detour from Retiring to Active through `x`, and the spokes. */
  function Detour(vertices: seq<Vertex>, x: Byte): Graph {
    Graph("detour", 0, vertices, Declarations(ALL_EDGES) + [Edge(4, 0, x, ""), Edge(x, 0, 2, "")] + Spokes(vertices))
  }

  predicate Distinct(vertices: seq<Vertex>) {
    forall i, j :: 0 <= i < j < |vertices| ==> vertices[i].id != vertices[j].id
  }

  lemma {:induction false} SpokesAre(vertices: seq<Vertex>)
    ensures forall e :: e in Spokes(vertices) <==>
      5 <= e.to && e == Edge(0, e.to, e.to, "") && exists i :: 0 <= i < |vertices| && vertices[i].id == e.to
    ensures Distinct(vertices) ==> forall a, b :: 0 <= a < b < |Spokes(vertices)| ==> Spokes(vertices)[a].to != Spokes(vertices)[b].to
  {
    if vertices != [] {
      SpokesAre(vertices[..|vertices| - 1]);
    }
  }

  /** Distinct vertices that name all five phases. */
  predicate CoversPhases(vertices: seq<Vertex>) {
    Distinct(vertices) && forall v: Byte :: v < 5 ==> Declared(Graph("", 0, vertices, []), v)
  }

  lemma CoveredIsDeclared(t: Graph)
    requires CoversPhases(t.vertices)
    ensures VerticesOk(t, |t.vertices|) && PhasesDeclared(t)
  {
    forall v: Byte | v < 5
      ensures Declared(t, v)
    {
      assert Declared(Graph("", 0, t.vertices, []), v);
    }
  }

  lemma DetourEdgeOk(vertices: seq<Vertex>, x: Byte, i: nat)
    requires CoversPhases(vertices) && 5 <= x && Declared(Detour(vertices, x), x) && i < |Detour(vertices, x).transitions|
    ensures
      var t := Detour(vertices, x);
      && !RepeatedEdge(t, i) && Declared(t, t.transitions[i].from) && Declared(t, t.transitions[i].to)
      && !(Closes(t.transitions[i].from) && Admits(t.transitions[i].to))
  {
    var t := Detour(vertices, x);
    CoveredIsDeclared(t);
    SpokesAre(vertices);
    hide Declaration, Declared, CoversPhases, Spokes;
    if i < 7 {
      DeclaredEdgeOk(t, i);
      DeclarationFacts(ALL_EDGES[i], ALL_EDGES[i]);
    } else {
      forall j | 0 <= j < i
        ensures !SameKey(t.transitions[j], t.transitions[i])
      {
        if j < 7 {
          DeclarationFacts(ALL_EDGES[j], ALL_EDGES[j]);
        }
        if i >= 9 {
          assert t.transitions[i] in Spokes(vertices);
        }
      }
      if i >= 9 {
        assert t.transitions[i] in Spokes(vertices);
        var k :| 0 <= k < |vertices| && vertices[k].id == t.transitions[i].to;
        DeclaredAt(t, k);
      }
    }
  }

  lemma DeclaredAt(t: Graph, k: nat)
    requires k < |t.vertices|
    ensures Declared(t, t.vertices[k].id)
  {}

  lemma DetourReaches(vertices: seq<Vertex>, x: Byte, v: Byte)
    requires Declared(Detour(vertices, x), v)
    ensures Reachable(Detour(vertices, x), v)
  {
    var t := Detour(vertices, x);
    forall i | 0 <= i < |ALL_EDGES|
      ensures Declaration(ALL_EDGES[i]) in t.transitions
    {
      assert t.transitions[i] == Declaration(ALL_EDGES[i]);
    }
    PhasesAreReachable(t);
    if v >= 5 {
      SpokesAre(vertices);
      var e := Edge(0, v, v, "");
      var i :| 0 <= i < |Spokes(vertices)| && Spokes(vertices)[i] == e;
      assert t.transitions[i + 9] == e;
      ReachableExtends(t, 0, v);
    }
  }

  /** A vertex beyond the five phases admits an accepted topology that reopens by a detour. */
  lemma DetourReopens(vertices: seq<Vertex>, x: Byte)
    requires CoversPhases(vertices) && 5 <= x && Declared(Detour(vertices, x), x)
    ensures IsAccepted(Detour(vertices, x)) && !NeverReopens(Detour(vertices, x))
  {
    var t := Detour(vertices, x);
    CoveredIsDeclared(t);
    forall i | 0 <= i < |t.transitions|
      ensures !RepeatedEdge(t, i) && Declared(t, t.transitions[i].from) && Declared(t, t.transitions[i].to)
      ensures !(Closes(t.transitions[i].from) && Admits(t.transitions[i].to))
    {
      DetourEdgeOk(vertices, x, i);
    }
    forall i | 0 <= i < |t.vertices|
      ensures Reachable(t, t.vertices[i].id)
    {
      DeclaredAt(t, i);
      DetourReaches(vertices, x, t.vertices[i].id);
    }
    assert Requires(t, |ALL_EDGES|) by {
      forall i | 0 <= i < |ALL_EDGES|
        ensures Declaration(ALL_EDGES[i]) in t.transitions
      {
        assert t.transitions[i] == Declaration(ALL_EDGES[i]);
      }
    }
    assert t.transitions[7] == Edge(4, 0, x, "") && t.transitions[8] == Edge(x, 0, 2, "");
    var path := [4, x, 2];
    assert Step(t, 4, x) && Step(t, x, 2);
    hide Reachable, RepeatedEdge, Declared, Requires, Step, Declaration, Spokes, CoversPhases;
    assert IsPath(t, path) && Closes(path[0]) && Admits(path[2]);
  }

  /** What acceptance says about reopening, exactly: over a set of vertices that includes the five
      phases, every accepted topology keeps admission closed until Inactive if and only if there
      are no other vertices. */
  lemma ReopeningIsExcludedExactlyOverFivePhases(vertices: seq<Vertex>)
    requires CoversPhases(vertices)
    ensures (forall t :: IsAccepted(t) && t.vertices == vertices ==> NeverReopens(t)) <==> OnlyPhases(vertices)
  {
    hide IsAccepted, CoversPhases;
    if OnlyPhases(vertices) {
      forall t | IsAccepted(t) && t.vertices == vertices
        ensures NeverReopens(t)
      {
        forall path, i, j | IsPath(t, path) && 0 <= i < j < |path| && Closes(path[i]) && Admits(path[j])
          ensures exists k :: i < k < j && path[k] == PhaseId(LifecyclePhase.Inactive)
        {
          ReopeningPassesInactive(t, path, i, j);
        }
      }
    } else {
      var k :| 0 <= k < |vertices| && vertices[k].id >= 5;
      var t := Detour(vertices, vertices[k].id);
      DeclaredAt(t, k);
      DetourReopens(vertices, vertices[k].id);
    }
  }
}
