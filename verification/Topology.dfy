/** Structural validation of a machine's declared topology, and what an accepted
    lifecycle topology guarantees about reopening admission. */
module Topology {
  import opened Common

  type Byte = n: int | 0 <= n < 256

  datatype Vertex = Vertex(id: Byte, text: string)

  datatype Edge = Edge(from: Byte, trigger: Byte, to: Byte, text: string)

  datatype Graph = Graph(name: string, initial: Byte, vertices: seq<Vertex>, transitions: seq<Edge>)

  datatype Verdict =
    | Ok
    | DuplicateVertex(id: Byte)
    | DuplicateTransition(edge: Edge)
    | UnknownInitial(id: Byte)
    | UnknownVertex(id: Byte)
    | UnreachableVertex(id: Byte)

  // ----- what the words mean -----

  predicate Declared(t: Graph, v: Byte) {
    exists i :: 0 <= i < |t.vertices| && t.vertices[i].id == v
  }

  predicate RepeatedVertex(t: Graph, i: nat)
    requires i < |t.vertices|
  {
    exists j :: 0 <= j < i && t.vertices[j].id == t.vertices[i].id
  }

  predicate RepeatedEdge(t: Graph, i: nat)
    requires i < |t.transitions|
  {
    exists j :: 0 <= j < i && t.transitions[j].from == t.transitions[i].from
                && t.transitions[j].trigger == t.transitions[i].trigger
  }

  /** The first `n` edges select distinct successors and refer to declared vertices. */
  predicate EdgesOk(t: Graph, n: nat)
    requires n <= |t.transitions|
  {
    forall i :: 0 <= i < n ==>
      !RepeatedEdge(t, i) && Declared(t, t.transitions[i].from) && Declared(t, t.transitions[i].to)
  }

  predicate VerticesOk(t: Graph, n: nat)
    requires n <= |t.vertices|
  {
    forall i :: 0 <= i < n ==> !RepeatedVertex(t, i)
  }

  predicate Step(t: Graph, u: Byte, v: Byte) {
    exists i :: 0 <= i < |t.transitions| && t.transitions[i].from == u && t.transitions[i].to == v
  }

  predicate IsPath(t: Graph, path: seq<Byte>) {
    && path != []
    && forall k :: 0 < k < |path| ==> Step(t, path[k - 1], path[k])
  }

  ghost predicate PathBetween(t: Graph, path: seq<Byte>, u: Byte, v: Byte) {
    IsPath(t, path) && path[0] == u && path[|path| - 1] == v
  }

  ghost predicate Reachable(t: Graph, v: Byte) {
    exists path :: PathBetween(t, path, t.initial, v)
  }

  /** The vertices up to `n` are reachable. */
  ghost predicate ReachableUpTo(t: Graph, n: nat)
    requires n <= |t.vertices|
  {
    forall i :: 0 <= i < n ==> Reachable(t, t.vertices[i].id)
  }

  ghost predicate WellFormed(t: Graph) {
    && VerticesOk(t, |t.vertices|)
    && Declared(t, t.initial)
    && EdgesOk(t, |t.transitions|)
    && ReachableUpTo(t, |t.vertices|)
  }

  /** The verdict names the first defect in checking order. */
  ghost predicate NamesFirstDefect(t: Graph, verdict: Verdict) {
    match verdict
    case Ok => WellFormed(t)
    case DuplicateVertex(v) =>
      exists i :: 0 <= i < |t.vertices| && VerticesOk(t, i) && RepeatedVertex(t, i) && t.vertices[i].id == v
    case UnknownInitial(v) =>
      VerticesOk(t, |t.vertices|) && v == t.initial && !Declared(t, v)
    case DuplicateTransition(edge) =>
      && VerticesOk(t, |t.vertices|) && Declared(t, t.initial)
      && exists i :: 0 <= i < |t.transitions| && EdgesOk(t, i) && RepeatedEdge(t, i) && t.transitions[i] == edge
    case UnknownVertex(v) =>
      && VerticesOk(t, |t.vertices|) && Declared(t, t.initial) && !Declared(t, v)
      && exists i :: 0 <= i < |t.transitions| && EdgesOk(t, i) && !RepeatedEdge(t, i)
                     && v == if Declared(t, t.transitions[i].from) then t.transitions[i].to else t.transitions[i].from
    case UnreachableVertex(v) =>
      && VerticesOk(t, |t.vertices|) && Declared(t, t.initial) && EdgesOk(t, |t.transitions|)
      && exists i :: 0 <= i < |t.vertices| && ReachableUpTo(t, i) && !Reachable(t, v) && v == t.vertices[i].id
  }

  /** A topology has one first defect. */
  lemma FirstDefectIsUnique(t: Graph, a: Verdict, b: Verdict)
    requires NamesFirstDefect(t, a) && NamesFirstDefect(t, b)
    ensures a == b
  {
    hide Reachable;
  }

  // ----- closure of the relaxation -----

  function Marked(reached: seq<bool>): set<int> {
    set v | 0 <= v < |reached| && reached[v]
  }

  ghost predicate Closed(t: Graph, marks: set<int>) {
    forall e <- t.transitions :: e.from in marks ==> e.to in marks
  }

  function DeclaredIds(vs: seq<Vertex>): set<int> {
    set i | 0 <= i < |vs| :: vs[i].id
  }

  lemma {:induction false} DeclaredIdsBound(vs: seq<Vertex>)
    ensures |DeclaredIds(vs)| <= |vs|
  {
    if vs != [] {
      var n := |vs| - 1;
      DeclaredIdsBound(vs[..n]);
      assert DeclaredIds(vs) == DeclaredIds(vs[..n]) + {vs[n].id};
    } else {
      assert DeclaredIds(vs) == {};
    }
  }

  lemma {:induction false} SubsetBound<T>(a: set<T>, b: set<T>)
    requires a <= b
    ensures |a| <= |b|
    ensures a != b ==> |a| < |b|
  {
    if a != {} {
      var x :| x in a;
      SubsetBound(a - {x}, b - {x});
    } else {
      assert b != {} ==> |b| > 0;
    }
  }

  /** Following one more edge keeps a vertex reachable. */
  lemma ReachableExtends(t: Graph, u: Byte, v: Byte)
    requires Reachable(t, u) && Step(t, u, v)
    ensures Reachable(t, v)
  {
    var path :| PathBetween(t, path, t.initial, u);
    assert PathBetween(t, path + [v], t.initial, v);
  }

  /** Marks that are closed under the edges cover every vertex a path leads to. */
  lemma {:induction false} ClosedCovers(t: Graph, marks: set<int>, path: seq<Byte>)
    requires IsPath(t, path) && path[0] in marks && Closed(t, marks)
    ensures path[|path| - 1] in marks
  {
    var n := |path| - 1;
    if n > 0 {
      ClosedCovers(t, marks, path[..n]);
      assert Step(t, path[n - 1], path[n]);
    }
  }

  // ----- the validator -----

  method IsDeclared(t: Graph, v: Byte) returns (found: bool)
    ensures found == Declared(t, v)
  {
    found := exists i :: 0 <= i < |t.vertices| && t.vertices[i].id == v;
  }

  method CheckVertices(t: Graph) returns (verdict: Verdict)
    ensures verdict.Ok? || verdict.DuplicateVertex?
    ensures verdict.Ok? ==> VerticesOk(t, |t.vertices|)
    ensures !verdict.Ok? ==> NamesFirstDefect(t, verdict)
  {
    for index := 0 to |t.vertices|
      invariant VerticesOk(t, index)
    {
      if RepeatedVertex(t, index) {
        return DuplicateVertex(t.vertices[index].id);
      }
    }
    return Ok;
  }

  method CheckEdges(t: Graph) returns (verdict: Verdict)
    requires VerticesOk(t, |t.vertices|) && Declared(t, t.initial)
    ensures verdict.Ok? || verdict.DuplicateTransition? || verdict.UnknownVertex?
    ensures verdict.Ok? ==> EdgesOk(t, |t.transitions|)
    ensures !verdict.Ok? ==> NamesFirstDefect(t, verdict)
  {
    for index := 0 to |t.transitions|
      invariant EdgesOk(t, index)
    {
      var edge := t.transitions[index];
      if RepeatedEdge(t, index) {
        return DuplicateTransition(edge);
      }
      var from := IsDeclared(t, edge.from);
      if !from {
        return UnknownVertex(edge.from);
      }
      var to := IsDeclared(t, edge.to);
      if !to {
        return UnknownVertex(edge.to);
      }
    }
    return Ok;
  }

  /** One relaxation round over the edges in declaration order. */
  method Relax(t: Graph, reachable: array<bool>)
    requires reachable.Length == 256
    requires forall v: Byte :: reachable[v] ==> Reachable(t, v)
    modifies reachable
    ensures forall v: Byte :: reachable[v] ==> Reachable(t, v)
    ensures Marked(old(reachable[..])) <= Marked(reachable[..])
    ensures Closed(t, Marked(old(reachable[..]))) ==> Marked(reachable[..]) == Marked(old(reachable[..]))
    ensures forall e <- t.transitions :: e.from in Marked(old(reachable[..])) ==> e.to in Marked(reachable[..])
  {
    ghost var before := reachable[..];
    for m := 0 to |t.transitions|
      invariant forall v: Byte :: reachable[v] ==> Reachable(t, v)
      invariant forall v: Byte :: before[v] ==> reachable[v]
      invariant Closed(t, Marked(before)) ==> reachable[..] == before
      invariant forall k :: 0 <= k < m && before[t.transitions[k].from] ==> reachable[t.transitions[k].to]
    {
      var edge := t.transitions[m];
      if reachable[edge.from] {
        ReachableExtends(t, edge.from, edge.to);
        if Closed(t, Marked(before)) {
          assert edge in t.transitions && edge.from in Marked(before);
        }
        reachable[edge.to] := true;
      }
    }
  }

  /** As many rounds as there are vertices always reach closure, whatever the edge order. */
  method CheckReachability(t: Graph) returns (verdict: Verdict)
    requires VerticesOk(t, |t.vertices|) && Declared(t, t.initial) && EdgesOk(t, |t.transitions|)
    ensures verdict.Ok? || verdict.UnreachableVertex?
    ensures NamesFirstDefect(t, verdict)
  {
    var reachable := new bool[256](_ => false);
    reachable[t.initial] := true;
    assert PathBetween(t, [t.initial], t.initial, t.initial);
    assert Marked(reachable[..]) == {t.initial};
    ghost var ids := DeclaredIds(t.vertices);
    for k := 0 to |t.vertices|
      invariant forall v: Byte :: reachable[v] ==> Reachable(t, v)
      invariant t.initial in Marked(reachable[..])
      invariant Closed(t, Marked(reachable[..])) || |Marked(reachable[..])| >= k + 1
    {
      ghost var before := Marked(reachable[..]);
      Relax(t, reachable);
      SubsetBound(before, Marked(reachable[..]));
    }
    ghost var marks := Marked(reachable[..]);
    if !Closed(t, marks) {
      MarksAreDeclared(t, reachable[..]);
      SubsetBound(marks, ids);
      DeclaredIdsBound(t.vertices);
    }
    ClosedMarksAreReachability(t, reachable[..]);
    for i := 0 to |t.vertices|
      invariant ReachableUpTo(t, i)
    {
      if !reachable[t.vertices[i].id] {
        return UnreachableVertex(t.vertices[i].id);
      }
    }
    return Ok;
  }

  lemma MarksAreDeclared(t: Graph, reached: seq<bool>)
    requires |reached| == 256
    requires Declared(t, t.initial) && EdgesOk(t, |t.transitions|)
    requires forall v: Byte :: reached[v] ==> Reachable(t, v)
    ensures Marked(reached) <= DeclaredIds(t.vertices)
  {
    forall v | v in Marked(reached)
      ensures v in DeclaredIds(t.vertices)
    {
      var path :| PathBetween(t, path, t.initial, v);
      var n := |path| - 1;
      if n > 0 {
        assert Step(t, path[n - 1], path[n]);
      }
      assert Declared(t, v);
    }
  }

  lemma ClosedMarksAreReachability(t: Graph, reached: seq<bool>)
    requires |reached| == 256 && reached[t.initial]
    requires forall v: Byte :: reached[v] ==> Reachable(t, v)
    requires Closed(t, Marked(reached))
    ensures forall v: Byte :: reached[v] <==> Reachable(t, v)
  {
    forall v: Byte | Reachable(t, v)
      ensures reached[v]
    {
      var path :| PathBetween(t, path, t.initial, v);
      ClosedCovers(t, Marked(reached), path);
    }
  }

  method Validate(t: Graph) returns (verdict: Verdict)
    ensures NamesFirstDefect(t, verdict)
    ensures verdict.Ok? <==> WellFormed(t)
  {
    verdict := CheckVertices(t);
    if verdict.Ok? {
      var known := IsDeclared(t, t.initial);
      if !known {
        verdict := UnknownInitial(t.initial);
      } else {
        verdict := CheckEdges(t);
        if verdict.Ok? {
          verdict := CheckReachability(t);
        }
      }
    }
    if WellFormed(t) {
      FirstDefectIsUnique(t, verdict, Ok);
    }
  }
}
