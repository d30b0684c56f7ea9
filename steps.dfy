/**
 * What one call of `handleEntity` and of `handleVerb` does to the state of
 * a run: which ids it labels and in which order, what it files in the
 * child map, and exactly which vertex and edge lines it adds to which
 * namespace.
 */
module StepProps {
  import opened Options
  import opened Names
  import opened Labels
  import opened DotModel
  import opened LabelProps
  import opened WalkProps

  // Entities

  /** The ids seen after `handleEntity`: the entity, then its parent. */
  function EntitySeen(seen: seq<string>, id: string, parent: Option<string>): seq<string>
  {
    var s1 := Note(seen, Depurl(id));
    if HasParent(parent) then Note(s1, Depurl(parent.value)) else s1
  }

  /** Changing anything but the label table and its counters keeps the labelling. */
  lemma SameLabelsLabelled(st: State, st2: State, seen: seq<string>)
    requires Labelled(st, seen)
    requires st2.idMap == st.idMap && st2.prefix == st.prefix && st2.next == st.next
    ensures Labelled(st2, seen)
  {
  }

  /** The states `handleEntity` passes through: after labelling the entity, and after the parent. */
  function EntityLabels(st: State, id: string, parent: Option<string>): State
  {
    var g := GetId(st, id);
    if HasParent(parent) then GetId(g.st, parent.value).st else g.st
  }

  /**
   * `handleEntity` labels the entity first and its parent second: the ids
   * seen grow by the entity, then by the parent, each when new.
   */
  lemma HandleEntityLabelled(st: State, seen: seq<string>, id: string, parent: Option<string>)
    requires Labelled(st, seen)
    ensures Labelled(HandleEntity(st, id, parent), EntitySeen(seen, id, parent))
    ensures Extends(st.idMap, HandleEntity(st, id, parent).idMap)
  {
    var g := GetId(st, id);
    GetIdLabelled(st, seen, id);
    GetIdFacts(st, id);
    var l := EntityLabels(st, id, parent);
    if HasParent(parent) {
      GetIdLabelled(g.st, Note(seen, Depurl(id)), parent.value);
      GetIdFacts(g.st, parent.value);
    }
    assert Labelled(l, EntitySeen(seen, id, parent));
    assert Extends(st.idMap, l.idMap);
    EntityTailLabels(st, id, parent);
    SameLabelsLabelled(l, HandleEntity(st, id, parent), EntitySeen(seen, id, parent));
  }

  /** After the labels, `handleEntity` touches neither the label table nor the counters. */
  lemma EntityTailLabels(st: State, id: string, parent: Option<string>)
    ensures var l := EntityLabels(st, id, parent);
      var r := HandleEntity(st, id, parent);
      r.idMap == l.idMap && r.prefix == l.prefix && r.next == l.next
  {
    var g := GetId(st, id);
    if HasParent(parent) {
      var p := GetId(g.st, parent.value);
      EntityTail(p.st, g.name, id, Some(p.name));
    } else {
      EntityTail(g.st, g.name, id, None);
    }
  }

  /** `handleEntity` keeps every label given before. */
  lemma HandleEntityExtends(st: State, id: string, parent: Option<string>)
    ensures Extends(st.idMap, HandleEntity(st, id, parent).idMap)
  {
    var g := GetId(st, id);
    GetIdFacts(st, id);
    if HasParent(parent) {
      GetIdFacts(g.st, parent.value);
    }
    EntityTailLabels(st, id, parent);
  }

  /**
   * `handleEntity` files the entity's full id as the last child of its
   * parent's label, pushes exactly one vertex line, naming the entity's
   * label and stripped id, into the entity's own namespace, and touches no
   * edge list.
   */
  lemma HandleEntityLines(st: State, id: string, parent: Option<string>)
    ensures var r := HandleEntity(st, id, parent);
      && Depurl(id) in r.idMap
      && (HasParent(parent) ==> Depurl(parent.value) in r.idMap)
      && r.childMap == (if HasParent(parent) then FiledUnder(st.childMap, r.idMap[Depurl(parent.value)], id) else st.childMap)
      && VerticesOf(r, GetNS(id)) == VerticesOf(st, GetNS(id)) + [VertexLine(r.idMap[Depurl(id)], id)]
      && (forall x :: x != GetNS(id) ==> VerticesOf(r, x) == VerticesOf(st, x))
      && (forall x :: EdgesOf(r, x) == EdgesOf(st, x))
  {
    if HasParent(parent) {
      ChildEntityLines(st, id, parent.value);
    } else {
      RootEntityLines(st, id, parent);
    }
  }

  lemma ChildEntityLines(st: State, id: string, parent: string)
    requires parent != ""
    ensures var r := HandleEntity(st, id, Some(parent));
      && Depurl(id) in r.idMap
      && Depurl(parent) in r.idMap
      && r.childMap == FiledUnder(st.childMap, r.idMap[Depurl(parent)], id)
      && VerticesOf(r, GetNS(id)) == VerticesOf(st, GetNS(id)) + [VertexLine(r.idMap[Depurl(id)], id)]
      && (forall x :: x != GetNS(id) ==> VerticesOf(r, x) == VerticesOf(st, x))
      && (forall x :: EdgesOf(r, x) == EdgesOf(st, x))
  {
    var g := GetId(st, id);
    GetIdFacts(st, id);
    var p := GetId(g.st, parent);
    GetIdFacts(g.st, parent);
    assert p.st.idMap[Depurl(id)] == g.name;
    assert p.st.namespaces == st.namespaces && p.st.childMap == st.childMap;
    SameGroupsLines(st, p.st);
    EntityTail(p.st, g.name, id, Some(p.name));
  }

  /** States with the same groups have the same vertex and edge lists. */
  lemma SameGroupsLines(st: State, st2: State)
    requires st2.namespaces == st.namespaces
    ensures forall x :: VerticesOf(st2, x) == VerticesOf(st, x) && EdgesOf(st2, x) == EdgesOf(st, x)
  {
  }

  lemma RootEntityLines(st: State, id: string, parent: Option<string>)
    requires !HasParent(parent)
    ensures var r := HandleEntity(st, id, parent);
      && Depurl(id) in r.idMap
      && r.childMap == st.childMap
      && VerticesOf(r, GetNS(id)) == VerticesOf(st, GetNS(id)) + [VertexLine(r.idMap[Depurl(id)], id)]
      && (forall x :: x != GetNS(id) ==> VerticesOf(r, x) == VerticesOf(st, x))
      && (forall x :: EdgesOf(r, x) == EdgesOf(st, x))
  {
    var g := GetId(st, id);
    GetIdFacts(st, id);
    SameGroupsLines(st, g.st);
    EntityTail(g.st, g.name, id, None);
  }

  /** `childMap[label].push(child)` on a map value, the list created when missing. */
  function FiledUnder(cm: map<string, seq<string>>, key: string, child: string): map<string, seq<string>>
  {
    cm[key := (if key in cm then cm[key] else []) + [child]]
  }

  /** The end of `handleEntity`, once the labels are known. */
  lemma EntityTail(st: State, name: string, id: string, pid: Option<string>)
    ensures var st2 := if pid.Some? then AddChild(st, pid.value, id) else st;
      var r := AddVertexData(st2, GetNS(id), VertexLine(name, id));
      && r.idMap == st.idMap && r.prefix == st.prefix && r.next == st.next
      && r.childMap == (if pid.Some? then FiledUnder(st.childMap, pid.value, id) else st.childMap)
      && VerticesOf(r, GetNS(id)) == VerticesOf(st, GetNS(id)) + [VertexLine(name, id)]
      && (forall x :: x != GetNS(id) ==> VerticesOf(r, x) == VerticesOf(st, x))
      && (forall x :: EdgesOf(r, x) == EdgesOf(st, x))
  {
    var st2 := if pid.Some? then AddChild(st, pid.value, id) else st;
    AddVertexFacts(st2, GetNS(id), VertexLine(name, id));
  }

  // Verbs

  /**
   * The edges one `{from, to}` pair gives: the direct edge and, when
   * `children` is set, one edge per descendant of `from` towards the fixed
   * `to`, then one edge per descendant of `to` from the fixed `from`.
   */
  function PairEdges(m: map<string, string>, cm: map<string, seq<string>>, verbId: string, p: Pair, children: bool, fuel: nat): seq<string>
  {
    [EdgeLine(LabelIn(m, p.from), LabelIn(m, p.to), Depurl(verbId))]
    + if children then
        ExpandLines(m, verbId, Descendants(m, cm, p.from, fuel), FromSide, p.to)
        + ExpandLines(m, verbId, Descendants(m, cm, p.to, fuel), ToSide, p.from)
      else []
  }

  /** The edges of a verb's `allowed` list, pair by pair. */
  function PairsEdges(m: map<string, string>, cm: map<string, seq<string>>, verbId: string, pairs: seq<Pair>, children: bool, fuel: nat): seq<string>
  {
    if pairs == [] then []
    else PairsEdges(m, cm, verbId, pairs[..|pairs| - 1], children, fuel) + PairEdges(m, cm, verbId, pairs[|pairs| - 1], children, fuel)
  }

  /** Both ends of every pair have a label in `m`. */
  ghost predicate PairsLabelled(m: map<string, string>, pairs: seq<Pair>)
  {
    forall p :: p in pairs ==> Depurl(p.from) in m && Depurl(p.to) in m
  }

  /** The state after `getId(from)` and `getId(to)`. */
  function LabelPair(st: State, p: Pair): State
  {
    GetId(GetId(st, p.from).st, p.to).st
  }

  lemma LabelPairFacts(st: State, p: Pair)
    ensures var l := LabelPair(st, p);
      && Extends(st.idMap, l.idMap)
      && Depurl(p.from) in l.idMap && Depurl(p.to) in l.idMap
      && l.childMap == st.childMap
      && l.namespaces == st.namespaces && l.nsOrder == st.nsOrder
      && l.colorIdx == st.colorIdx && l.warnings == st.warnings
      && GetId(st, p.from).name == l.idMap[Depurl(p.from)]
      && GetId(GetId(st, p.from).st, p.to).name == l.idMap[Depurl(p.to)]
  {
    GetIdFacts(st, p.from);
    GetIdFacts(GetId(st, p.from).st, p.to);
  }

  lemma ExtendsChildrenLabelled(m1: map<string, string>, m2: map<string, string>, cm: map<string, seq<string>>)
    requires ChildrenLabelled(m1, cm) && Extends(m1, m2)
    ensures ChildrenLabelled(m2, cm)
  {
  }

  /** The state after the direct edge of a pair: both ends labelled, then `addEdgeData`. */
  function PairDirect(st: State, verbId: string, p: Pair): State
  {
    var f := GetId(st, p.from);
    var t := GetId(f.st, p.to);
    AddEdgeData(t.st, GetNS(verbId), EdgeLine(f.name, t.name, Depurl(verbId)))
  }

  lemma HandlePairUnfold(st: State, verbId: string, p: Pair, children: bool, fuel: nat)
    ensures var d := PairDirect(st, verbId, p);
      HandlePair(st, verbId, p, children, fuel)
      == if children then DoChildren(DoChildren(d, verbId, p.from, FromSide, p.to, fuel), verbId, p.to, ToSide, p.from, fuel) else d
  {
  }

  /** The direct edge joins the labels of both ends, now both known. */
  lemma PairDirectIsEdge(st: State, verbId: string, p: Pair)
    ensures var l := LabelPair(st, p);
      PairDirect(st, verbId, p)
      == AddEdges(l, GetNS(verbId), [EdgeLine(LabelIn(l.idMap, p.from), LabelIn(l.idMap, p.to), Depurl(verbId))])
  {
    var l := LabelPair(st, p);
    LabelPairFacts(st, p);
    AddEdgesOne(l, GetNS(verbId), EdgeLine(LabelIn(l.idMap, p.from), LabelIn(l.idMap, p.to), Depurl(verbId)));
  }

  /**
   * `handleVerb` for one pair, once both ends are labelled: the pair's
   * edges, all of them added to the verb's own namespace.
   */
  lemma HandlePairIsEdges(st: State, verbId: string, p: Pair, children: bool, fuel: nat)
    requires ChildrenLabelled(st.idMap, st.childMap)
    ensures var l := LabelPair(st, p);
      HandlePair(st, verbId, p, children, fuel) == AddEdges(l, GetNS(verbId), PairEdges(l.idMap, l.childMap, verbId, p, children, fuel))
  {
    if children {
      PairIsEdgesWalked(st, verbId, p, fuel);
    } else {
      PairIsEdgesDirect(st, verbId, p, fuel);
    }
  }

  lemma PairIsEdgesDirect(st: State, verbId: string, p: Pair, fuel: nat)
    ensures var l := LabelPair(st, p);
      HandlePair(st, verbId, p, false, fuel) == AddEdges(l, GetNS(verbId), PairEdges(l.idMap, l.childMap, verbId, p, false, fuel))
  {
    var l := LabelPair(st, p);
    HandlePairUnfold(st, verbId, p, false, fuel);
    PairDirectIsEdge(st, verbId, p);
    assert PairEdges(l.idMap, l.childMap, verbId, p, false, fuel)
        == [EdgeLine(LabelIn(l.idMap, p.from), LabelIn(l.idMap, p.to), Depurl(verbId))];
  }

  lemma PairIsEdgesWalked(st: State, verbId: string, p: Pair, fuel: nat)
    requires ChildrenLabelled(st.idMap, st.childMap)
    ensures var l := LabelPair(st, p);
      HandlePair(st, verbId, p, true, fuel) == AddEdges(l, GetNS(verbId), PairEdges(l.idMap, l.childMap, verbId, p, true, fuel))
  {
    var l := LabelPair(st, p);
    LabelPairReady(st, p);
    var direct := EdgeLine(LabelIn(l.idMap, p.from), LabelIn(l.idMap, p.to), Depurl(verbId));
    HandlePairUnfold(st, verbId, p, true, fuel);
    PairDirectIsEdge(st, verbId, p);
    PairWalks(l, verbId, p, fuel, direct);
    PairEdgesUnfold(l.idMap, l.childMap, verbId, p, fuel);
  }

  /** After labelling both ends of a pair, the walk can start: ends and children have labels. */
  lemma LabelPairReady(st: State, p: Pair)
    requires ChildrenLabelled(st.idMap, st.childMap)
    ensures var l := LabelPair(st, p);
      ChildrenLabelled(l.idMap, l.childMap) && Depurl(p.from) in l.idMap && Depurl(p.to) in l.idMap
  {
    var l := LabelPair(st, p);
    LabelPairFacts(st, p);
    ExtendsChildrenLabelled(st.idMap, l.idMap, st.childMap);
  }

  /** `PairEdges` with `children` set, unfolded, so the walked case needs no unfolding of its own. */
  lemma PairEdgesUnfold(m: map<string, string>, cm: map<string, seq<string>>, verbId: string, p: Pair, fuel: nat)
    ensures PairEdges(m, cm, verbId, p, true, fuel)
         == [EdgeLine(LabelIn(m, p.from), LabelIn(m, p.to), Depurl(verbId))]
            + ExpandLines(m, verbId, Descendants(m, cm, p.from, fuel), FromSide, p.to)
            + ExpandLines(m, verbId, Descendants(m, cm, p.to, fuel), ToSide, p.from)
  {
  }

  /** The two walks after the direct edge. */
  lemma PairWalks(l: State, verbId: string, p: Pair, fuel: nat, direct: string)
    requires ChildrenLabelled(l.idMap, l.childMap)
    requires Depurl(p.from) in l.idMap && Depurl(p.to) in l.idMap
    ensures var ns := GetNS(verbId);
      var st1 := AddEdges(l, ns, [direct]);
      DoChildren(DoChildren(st1, verbId, p.from, FromSide, p.to, fuel), verbId, p.to, ToSide, p.from, fuel)
      == AddEdges(l, ns, [direct]
                         + ExpandLines(l.idMap, verbId, Descendants(l.idMap, l.childMap, p.from, fuel), FromSide, p.to)
                         + ExpandLines(l.idMap, verbId, Descendants(l.idMap, l.childMap, p.to, fuel), ToSide, p.from))
  {
    var ns := GetNS(verbId);
    var m, cm := l.idMap, l.childMap;
    var a := ExpandLines(m, verbId, Descendants(m, cm, p.from, fuel), FromSide, p.to);
    var b := ExpandLines(m, verbId, Descendants(m, cm, p.to, fuel), ToSide, p.from);
    var st1 := AddEdges(l, ns, [direct]);
    AddEdgesFacts(l, ns, [direct]);
    WalkIsExpansion(st1, verbId, p.from, FromSide, p.to, fuel);
    var st2 := AddEdges(st1, ns, a);
    AddEdgesAppend(l, ns, [direct], a);
    AddEdgesFacts(l, ns, [direct] + a);
    WalkIsExpansion(st2, verbId, p.to, ToSide, p.from, fuel);
    AddEdgesAppend(l, ns, [direct] + a, b);
  }

  /** Labelling more ids later does not change the edges of a pair whose ends were labelled. */
  lemma PairEdgesStable(m1: map<string, string>, m2: map<string, string>, cm: map<string, seq<string>>, verbId: string, p: Pair, children: bool, fuel: nat)
    requires Extends(m1, m2) && ChildrenLabelled(m1, cm)
    requires Depurl(p.from) in m1 && Depurl(p.to) in m1
    ensures PairEdges(m1, cm, verbId, p, children, fuel) == PairEdges(m2, cm, verbId, p, children, fuel)
  {
    if children {
      DescendantsStable(m1, m2, cm, p.from, fuel);
      DescendantsStable(m1, m2, cm, p.to, fuel);
      DescendantsLabelled(m1, cm, p.from, fuel);
      DescendantsLabelled(m1, cm, p.to, fuel);
      ExpandLinesStable(m1, m2, verbId, Descendants(m1, cm, p.from, fuel), FromSide, p.to);
      ExpandLinesStable(m1, m2, verbId, Descendants(m1, cm, p.to, fuel), ToSide, p.from);
    }
  }

  lemma {:induction false} PairsEdgesStable(m1: map<string, string>, m2: map<string, string>, cm: map<string, seq<string>>, verbId: string, pairs: seq<Pair>, children: bool, fuel: nat)
    requires Extends(m1, m2) && ChildrenLabelled(m1, cm) && PairsLabelled(m1, pairs)
    ensures PairsEdges(m1, cm, verbId, pairs, children, fuel) == PairsEdges(m2, cm, verbId, pairs, children, fuel)
  {
    if pairs != [] {
      PairsEdgesStable(m1, m2, cm, verbId, pairs[..|pairs| - 1], children, fuel);
      PairEdgesStable(m1, m2, cm, verbId, pairs[|pairs| - 1], children, fuel);
    }
  }

  /**
   * `handleVerb` over an `allowed` list labels both ends of every pair,
   * keeps every label given before, and leaves the child map as it was.
   */
  lemma {:induction false} HandlePairsLabels(st: State, verbId: string, pairs: seq<Pair>, children: bool, fuel: nat)
    requires ChildrenLabelled(st.idMap, st.childMap)
    ensures var r := HandlePairs(st, verbId, pairs, children, fuel);
      && Extends(st.idMap, r.idMap)
      && r.childMap == st.childMap
      && ChildrenLabelled(r.idMap, r.childMap)
      && PairsLabelled(r.idMap, pairs)
  {
    if pairs != [] {
      var init, p := pairs[..|pairs| - 1], pairs[|pairs| - 1];
      HandlePairsLabels(st, verbId, init, children, fuel);
      var st1 := HandlePairs(st, verbId, init, children, fuel);
      PairStepLabels(st1, verbId, p, children, fuel);
      LastSplit(pairs);
      LabelsChain(st.idMap, st1.idMap, HandlePair(st1, verbId, p, children, fuel).idMap, init, p);
    }
  }

  /** Labels kept over two steps are kept over both; the pairs labelled grow by the last one. */
  lemma LabelsChain(m0: map<string, string>, m1: map<string, string>, m2: map<string, string>, init: seq<Pair>, p: Pair)
    requires Extends(m0, m1) && Extends(m1, m2) && PairsLabelled(m1, init)
    requires Depurl(p.from) in m2 && Depurl(p.to) in m2
    ensures Extends(m0, m2) && PairsLabelled(m2, init + [p])
  {
  }

  lemma PairStepLabels(st: State, verbId: string, p: Pair, children: bool, fuel: nat)
    requires ChildrenLabelled(st.idMap, st.childMap)
    ensures var r := HandlePair(st, verbId, p, children, fuel);
      && Extends(st.idMap, r.idMap)
      && r.childMap == st.childMap
      && ChildrenLabelled(r.idMap, r.childMap)
      && Depurl(p.from) in r.idMap && Depurl(p.to) in r.idMap
  {
    var l := LabelPair(st, p);
    LabelPairFacts(st, p);
    HandlePairIsEdges(st, verbId, p, children, fuel);
    AddEdgesFacts(l, GetNS(verbId), PairEdges(l.idMap, l.childMap, verbId, p, children, fuel));
    ExtendsChildrenLabelled(st.idMap, l.idMap, st.childMap);
  }

  /** `handleVerb` touches no vertex list and no edge list but the verb's own namespace's. */
  lemma {:induction false} HandlePairsElsewhere(st: State, verbId: string, pairs: seq<Pair>, children: bool, fuel: nat)
    requires ChildrenLabelled(st.idMap, st.childMap)
    ensures var r := HandlePairs(st, verbId, pairs, children, fuel);
      && (forall x :: x != GetNS(verbId) ==> EdgesOf(r, x) == EdgesOf(st, x))
      && (forall x :: VerticesOf(r, x) == VerticesOf(st, x))
  {
    if pairs != [] {
      var init, p := pairs[..|pairs| - 1], pairs[|pairs| - 1];
      HandlePairsElsewhere(st, verbId, init, children, fuel);
      HandlePairsLabels(st, verbId, init, children, fuel);
      var st1 := HandlePairs(st, verbId, init, children, fuel);
      HandlePairIsEdges(st1, verbId, p, children, fuel);
      var l := LabelPair(st1, p);
      LabelPairFacts(st1, p);
      AddEdgesFacts(l, GetNS(verbId), PairEdges(l.idMap, l.childMap, verbId, p, children, fuel));
      assert forall x :: GroupOf(l, x) == GroupOf(st1, x);
    }
  }

  /**
   * `handleVerb` over an `allowed` list: every pair's edges, in order, go
   * to the end of the verb's namespace's edge list.
   */
  lemma {:induction false} HandlePairsEdges(st: State, verbId: string, pairs: seq<Pair>, children: bool, fuel: nat)
    requires ChildrenLabelled(st.idMap, st.childMap)
    ensures var r := HandlePairs(st, verbId, pairs, children, fuel);
      EdgesOf(r, GetNS(verbId)) == EdgesOf(st, GetNS(verbId)) + PairsEdges(r.idMap, r.childMap, verbId, pairs, children, fuel)
  {
    if pairs == [] {
      assert EdgesOf(st, GetNS(verbId)) + [] == EdgesOf(st, GetNS(verbId));
    } else {
      var init, p := pairs[..|pairs| - 1], pairs[|pairs| - 1];
      assert pairs == init + [p];
      HandlePairsEdges(st, verbId, init, children, fuel);
      HandlePairsLabels(st, verbId, init, children, fuel);
      var st1 := HandlePairs(st, verbId, init, children, fuel);
      HandlePairIsEdges(st1, verbId, p, children, fuel);
      LastPairEdges(st, st1, verbId, init, p, children, fuel);
    }
  }

  /** The edges of a list of pairs, one more pair at the end. */
  lemma PairsEdgesSnoc(m: map<string, string>, cm: map<string, seq<string>>, verbId: string, init: seq<Pair>, p: Pair, children: bool, fuel: nat)
    ensures PairsEdges(m, cm, verbId, init + [p], children, fuel)
         == PairsEdges(m, cm, verbId, init, children, fuel) + PairEdges(m, cm, verbId, p, children, fuel)
  {
    assert (init + [p])[..|init + [p]| - 1] == init;
  }

  lemma LastPairEdges(st: State, st1: State, verbId: string, init: seq<Pair>, p: Pair, children: bool, fuel: nat)
    requires ChildrenLabelled(st1.idMap, st1.childMap) && PairsLabelled(st1.idMap, init)
    requires EdgesOf(st1, GetNS(verbId)) == EdgesOf(st, GetNS(verbId)) + PairsEdges(st1.idMap, st1.childMap, verbId, init, children, fuel)
    ensures var l := LabelPair(st1, p);
      var r := AddEdges(l, GetNS(verbId), PairEdges(l.idMap, l.childMap, verbId, p, children, fuel));
      EdgesOf(r, GetNS(verbId)) == EdgesOf(st, GetNS(verbId)) + PairsEdges(r.idMap, r.childMap, verbId, init + [p], children, fuel)
  {
    var ns := GetNS(verbId);
    var l := LabelPair(st1, p);
    LabelPairFacts(st1, p);
    var m, cm := l.idMap, st1.childMap;
    var last := PairEdges(m, cm, verbId, p, children, fuel);
    var r := AddEdges(l, ns, last);
    AddEdgesFacts(l, ns, last);
    PairsEdgesStable(st1.idMap, m, cm, verbId, init, children, fuel);
    PairsEdgesSnoc(m, cm, verbId, init, p, children, fuel);
    EdgesChain(st, st1, l, ns, PairsEdges(m, cm, verbId, init, children, fuel), last);
  }

  /** Edges appended after a state whose edge list already extends an earlier one's. */
  lemma EdgesChain(st: State, st1: State, l: State, ns: string, prev: seq<string>, last: seq<string>)
    requires l.namespaces == st1.namespaces
    requires EdgesOf(st1, ns) == EdgesOf(st, ns) + prev
    ensures EdgesOf(AddEdges(l, ns, last), ns) == EdgesOf(st, ns) + (prev + last)
  {
    assert GroupOf(l, ns) == GroupOf(st1, ns);
    AddEdgesFacts(l, ns, last);
  }

  /** A verb without an `allowed` list, or with an empty one, changes nothing and creates no group. */
  lemma EmptyVerbAddsNothing(st: State, verbId: string, children: bool, fuel: nat)
    ensures HandleVerb(st, verbId, None, children, fuel) == st
    ensures HandleVerb(st, verbId, Some([]), children, fuel) == st
  {
  }
}
