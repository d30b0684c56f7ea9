/**
 * The descendant walk of `doChildren`, against an independent description:
 * the depth-first list of the descendants of a node in the child map, and
 * one edge per descendant that keeps the other end of the verb's pair
 * fixed.
 */
module WalkProps {
  import opened Names
  import opened DotModel
  import opened LabelProps

  /** The label `m` gives to a reference, and "" to one it has not labelled. */
  function LabelIn(m: map<string, string>, s: string): string
  {
    if Depurl(s) in m then m[Depurl(s)] else ""
  }

  /** The children filed in the child map under the label of `node`. */
  function ChildrenOf(m: map<string, string>, cm: map<string, seq<string>>, node: string): seq<string>
  {
    var x := Depurl(node);
    if x in m && m[x] in cm then cm[m[x]] else []
  }

  /** Every child recorded in the child map has a label. */
  ghost predicate ChildrenLabelled(m: map<string, string>, cm: map<string, seq<string>>)
  {
    forall p, c :: p in cm && c in cm[p] ==> Depurl(c) in m
  }

  /**
   * The descendants of `node`, depth first: each child, followed by the
   * descendants of that child, at most `fuel` levels down.
   */
  function Descendants(m: map<string, string>, cm: map<string, seq<string>>, node: string, fuel: nat): seq<string>
    decreases fuel, 0
  {
    if fuel == 0 then [] else DescList(m, cm, ChildrenOf(m, cm, node), fuel - 1)
  }

  /** Each child of `cs` in order, followed by its descendants. */
  function DescList(m: map<string, string>, cm: map<string, seq<string>>, cs: seq<string>, fuel: nat): seq<string>
    decreases fuel, 1, |cs|
  {
    if cs == [] then []
    else
      var c := cs[|cs| - 1];
      DescList(m, cm, cs[..|cs| - 1], fuel) + [c] + Descendants(m, cm, c, fuel)
  }

  /**
   * The edge the walk gives descendant `d`: from `d` to the fixed `target`
   * below the `from` end, from the fixed `target` to `d` below the `to` end.
   */
  function ExpandLine(m: map<string, string>, verbId: string, d: string, dir: Direction, target: string): string
  {
    if dir == FromSide then EdgeLine(LabelIn(m, d), LabelIn(m, target), Depurl(verbId))
    else EdgeLine(LabelIn(m, target), LabelIn(m, d), Depurl(verbId))
  }

  function ExpandLines(m: map<string, string>, verbId: string, ds: seq<string>, dir: Direction, target: string): seq<string>
  {
    seq(|ds|, i requires 0 <= i < |ds| => ExpandLine(m, verbId, ds[i], dir, target))
  }

  lemma ExpandLinesAppend(m: map<string, string>, verbId: string, a: seq<string>, b: seq<string>, dir: Direction, target: string)
    ensures ExpandLines(m, verbId, a + b, dir, target) == ExpandLines(m, verbId, a, dir, target) + ExpandLines(m, verbId, b, dir, target)
  {
  }

  /** `addEdgeData` for each line in turn. */
  function AddEdges(st: State, ns: string, lines: seq<string>): State
  {
    if lines == [] then st
    else AddEdgeData(AddEdges(st, ns, lines[..|lines| - 1]), ns, lines[|lines| - 1])
  }

  /**
   * Only the edge list of `ns` grows, by exactly the lines given; labels,
   * the child map, the counters and every vertex list stay as they were.
   */
  lemma {:induction false} AddEdgesFacts(st: State, ns: string, lines: seq<string>)
    ensures var r := AddEdges(st, ns, lines);
      && EdgesOf(r, ns) == EdgesOf(st, ns) + lines
      && (forall x :: x != ns ==> EdgesOf(r, x) == EdgesOf(st, x))
      && (forall x :: VerticesOf(r, x) == VerticesOf(st, x))
      && r.idMap == st.idMap && r.childMap == st.childMap
      && r.prefix == st.prefix && r.next == st.next
  {
    if lines != [] {
      var init := lines[..|lines| - 1];
      AddEdgesFacts(st, ns, init);
      var r1 := AddEdges(st, ns, init);
      AddEdgeFacts(r1, ns, lines[|lines| - 1]);
      assert lines == init + [lines[|lines| - 1]];
    }
  }

  lemma {:induction false} AddEdgesAppend(st: State, ns: string, a: seq<string>, b: seq<string>)
    ensures AddEdges(AddEdges(st, ns, a), ns, b) == AddEdges(st, ns, a + b)
  {
    if b == [] {
      assert a + b == a;
    } else {
      AddEdgesAppend(st, ns, a, b[..|b| - 1]);
      assert (a + b)[..|a + b| - 1] == a + b[..|b| - 1];
    }
  }

  lemma AddEdgesOne(st: State, ns: string, line: string)
    ensures AddEdges(st, ns, [line]) == AddEdgeData(st, ns, line)
  {
    assert [line][..0] == [];
  }

  /** One step of the walk, for a child and a target that already have labels. */
  lemma ChildEdgeIsLine(st: State, verbId: string, c: string, dir: Direction, target: string)
    requires Depurl(c) in st.idMap && Depurl(target) in st.idMap
    ensures ChildEdge(st, verbId, c, dir, target) == AddEdgeData(st, GetNS(verbId), ExpandLine(st.idMap, verbId, c, dir, target))
  {
  }

  /** A lookup of an id that already has a label changes nothing. */
  lemma GetIdKnown(st: State, s: string)
    requires Depurl(s) in st.idMap
    ensures GetId(st, s) == Got(st, st.idMap[Depurl(s)])
  {
  }

  /** The walk below a labelled node without children adds nothing. */
  lemma WalkLeaf(st: State, verbId: string, node: string, dir: Direction, target: string, fuel: nat)
    requires Depurl(node) in st.idMap && Depurl(target) in st.idMap
    requires fuel == 0 || ChildrenOf(st.idMap, st.childMap, node) == []
    ensures DoChildren(st, verbId, node, dir, target, fuel) == st
    ensures AddEdges(st, GetNS(verbId), ExpandLines(st.idMap, verbId, Descendants(st.idMap, st.childMap, node, fuel), dir, target)) == st
    ensures DoChildren(st, verbId, node, dir, target, fuel)
         == AddEdges(st, GetNS(verbId), ExpandLines(st.idMap, verbId, Descendants(st.idMap, st.childMap, node, fuel), dir, target))
  {
    assert Descendants(st.idMap, st.childMap, node, fuel) == [];
    assert ExpandLines(st.idMap, verbId, [], dir, target) == [];
  }

  /** Below a labelled node with children, the walk is the walk over its child list, one level less deep. */
  lemma WalkInner(st: State, verbId: string, node: string, dir: Direction, target: string, fuel: nat)
    requires Depurl(node) in st.idMap && Depurl(target) in st.idMap
    requires ChildrenOf(st.idMap, st.childMap, node) != []
    requires ChildrenLabelled(st.idMap, st.childMap)
    ensures DoChildren(st, verbId, node, dir, target, fuel + 1)
         == DoChildList(st, verbId, ChildrenOf(st.idMap, st.childMap, node), dir, target, fuel)
    ensures Descendants(st.idMap, st.childMap, node, fuel + 1)
         == DescList(st.idMap, st.childMap, ChildrenOf(st.idMap, st.childMap, node), fuel)
    ensures forall c :: c in ChildrenOf(st.idMap, st.childMap, node) ==> Depurl(c) in st.idMap
  {
    GetIdKnown(st, node);
    GetIdKnown(st, target);
  }

  /**
   * When every child in the child map is labelled and so are `node` and
   * `target`, `doChildren` labels nothing new and adds exactly one edge per
   * descendant of `node`, in depth-first order, to the verb's namespace.
   */
  lemma {:induction false} WalkIsExpansion(st: State, verbId: string, node: string, dir: Direction, target: string, fuel: nat)
    requires ChildrenLabelled(st.idMap, st.childMap)
    requires Depurl(node) in st.idMap && Depurl(target) in st.idMap
    ensures DoChildren(st, verbId, node, dir, target, fuel)
         == AddEdges(st, GetNS(verbId), ExpandLines(st.idMap, verbId, Descendants(st.idMap, st.childMap, node, fuel), dir, target))
    decreases fuel, 2
  {
    if fuel == 0 {
      WalkLeaf(st, verbId, node, dir, target, fuel);
    } else if ChildrenOf(st.idMap, st.childMap, node) == [] {
      WalkLeaf(st, verbId, node, dir, target, fuel);
    } else {
      WalkStep(st, verbId, node, dir, target, fuel);
    }
  }

  lemma {:induction false} WalkStep(st: State, verbId: string, node: string, dir: Direction, target: string, fuel: nat)
    requires ChildrenLabelled(st.idMap, st.childMap)
    requires Depurl(node) in st.idMap && Depurl(target) in st.idMap
    requires fuel > 0 && ChildrenOf(st.idMap, st.childMap, node) != []
    ensures DoChildren(st, verbId, node, dir, target, fuel)
         == AddEdges(st, GetNS(verbId), ExpandLines(st.idMap, verbId, Descendants(st.idMap, st.childMap, node, fuel), dir, target))
    decreases fuel, 1
  {
    WalkBelow(st, verbId, node, dir, target, fuel - 1);
  }

  lemma {:induction false} WalkBelow(st: State, verbId: string, node: string, dir: Direction, target: string, fuel: nat)
    requires ChildrenLabelled(st.idMap, st.childMap)
    requires Depurl(node) in st.idMap && Depurl(target) in st.idMap
    requires ChildrenOf(st.idMap, st.childMap, node) != []
    ensures DoChildren(st, verbId, node, dir, target, fuel + 1)
         == AddEdges(st, GetNS(verbId), ExpandLines(st.idMap, verbId, Descendants(st.idMap, st.childMap, node, fuel + 1), dir, target))
    decreases fuel, 4
  {
    WalkInner(st, verbId, node, dir, target, fuel);
    ListIsExpansion(st, verbId, ChildrenOf(st.idMap, st.childMap, node), dir, target, fuel);
  }

  /** The lines of a child list: those before the last child, the last child's edge, the walk below it. */
  lemma ListLines(m: map<string, string>, cm: map<string, seq<string>>, verbId: string, cs: seq<string>, dir: Direction, target: string, fuel: nat)
    requires cs != []
    ensures var c := cs[|cs| - 1];
      ExpandLines(m, verbId, DescList(m, cm, cs, fuel), dir, target)
      == ExpandLines(m, verbId, DescList(m, cm, cs[..|cs| - 1], fuel), dir, target)
         + [ExpandLine(m, verbId, c, dir, target)]
         + ExpandLines(m, verbId, Descendants(m, cm, c, fuel), dir, target)
  {
    var c := cs[|cs| - 1];
    var a := DescList(m, cm, cs[..|cs| - 1], fuel);
    ExpandLinesAppend(m, verbId, a + [c], Descendants(m, cm, c, fuel), dir, target);
    ExpandLinesAppend(m, verbId, a, [c], dir, target);
  }

  lemma {:induction false} ListIsExpansion(st: State, verbId: string, cs: seq<string>, dir: Direction, target: string, fuel: nat)
    requires ChildrenLabelled(st.idMap, st.childMap)
    requires Depurl(target) in st.idMap
    requires forall c :: c in cs ==> Depurl(c) in st.idMap
    ensures DoChildList(st, verbId, cs, dir, target, fuel)
         == AddEdges(st, GetNS(verbId), ExpandLines(st.idMap, verbId, DescList(st.idMap, st.childMap, cs, fuel), dir, target))
    decreases fuel, 3, |cs|
  {
    if cs != [] {
      var m, cm, ns := st.idMap, st.childMap, GetNS(verbId);
      var c, init := cs[|cs| - 1], cs[..|cs| - 1];
      var a := ExpandLines(m, verbId, DescList(m, cm, init, fuel), dir, target);
      var line := ExpandLine(m, verbId, c, dir, target);
      var b := ExpandLines(m, verbId, Descendants(m, cm, c, fuel), dir, target);
      ListIsExpansion(st, verbId, init, dir, target, fuel);
      var st1 := AddEdges(st, ns, a);
      AddEdgesFacts(st, ns, a);
      assert DoChildList(st, verbId, init, dir, target, fuel) == st1;
      ChildEdgeIsLine(st1, verbId, c, dir, target);
      var st2 := AddEdgeData(st1, ns, line);
      AddEdgesOne(st1, ns, line);
      AddEdgesAppend(st, ns, a, [line]);
      assert st2 == AddEdges(st, ns, a + [line]);
      AddEdgesFacts(st, ns, a + [line]);
      assert st2.idMap == m && st2.childMap == cm;
      WalkIsExpansion(st2, verbId, c, dir, target, fuel);
      AddEdgesAppend(st, ns, a + [line], b);
      ListLines(m, cm, verbId, cs, dir, target, fuel);
    }
  }

  /**
   * The walk reaches the whole hierarchy below a node: `d` is a descendant
   * of `node` within `fuel + 1` levels exactly when it is a child of `node`
   * or a descendant of such a child within `fuel` levels.
   */
  lemma DescendantsStep(m: map<string, string>, cm: map<string, seq<string>>, node: string, fuel: nat, d: string)
    ensures d in Descendants(m, cm, node, fuel + 1)
        <==> exists c :: c in ChildrenOf(m, cm, node) && (d == c || d in Descendants(m, cm, c, fuel))
  {
    DescListMember(m, cm, ChildrenOf(m, cm, node), fuel, d);
  }

  lemma {:induction false} DescListMember(m: map<string, string>, cm: map<string, seq<string>>, cs: seq<string>, fuel: nat, d: string)
    ensures d in DescList(m, cm, cs, fuel) <==> exists c :: c in cs && (d == c || d in Descendants(m, cm, c, fuel))
  {
    if cs != [] {
      var c, init := cs[|cs| - 1], cs[..|cs| - 1];
      DescListMember(m, cm, init, fuel, d);
      assert cs == init + [c];
      if d in DescList(m, cm, cs, fuel) {
        if d in DescList(m, cm, init, fuel) {
          var c' :| c' in init && (d == c' || d in Descendants(m, cm, c', fuel));
          assert c' in cs;
        } else {
          assert c in cs && (d == c || d in Descendants(m, cm, c, fuel));
        }
      }
      if exists c' :: c' in cs && (d == c' || d in Descendants(m, cm, c', fuel)) {
        var c' :| c' in cs && (d == c' || d in Descendants(m, cm, c', fuel));
        if c' in init {
          assert d in DescList(m, cm, init, fuel);
        } else {
          assert c' == c;
        }
      }
    }
  }

  /** A grandchild is reached too: the walk is transitive, not one level deep. */
  lemma GrandchildReached(m: map<string, string>, cm: map<string, seq<string>>, node: string, c: string, d: string, fuel: nat)
    requires fuel >= 2
    requires c in ChildrenOf(m, cm, node) && d in ChildrenOf(m, cm, c)
    ensures c in Descendants(m, cm, node, fuel) && d in Descendants(m, cm, node, fuel)
  {
    DescendantsStep(m, cm, c, fuel - 2, d);
    DescendantsStep(m, cm, node, fuel - 1, c);
    DescendantsStep(m, cm, node, fuel - 1, d);
  }

  /** Every descendant is a child somewhere in the child map, so it has a label. */
  lemma {:induction false} DescendantsLabelled(m: map<string, string>, cm: map<string, seq<string>>, node: string, fuel: nat)
    requires ChildrenLabelled(m, cm)
    ensures forall d :: d in Descendants(m, cm, node, fuel) ==> Depurl(d) in m
    decreases fuel, 0
  {
    if fuel > 0 {
      DescListLabelled(m, cm, ChildrenOf(m, cm, node), fuel - 1);
    }
  }

  lemma {:induction false} DescListLabelled(m: map<string, string>, cm: map<string, seq<string>>, cs: seq<string>, fuel: nat)
    requires ChildrenLabelled(m, cm)
    requires forall c :: c in cs ==> Depurl(c) in m
    ensures forall d :: d in DescList(m, cm, cs, fuel) ==> Depurl(d) in m
    decreases fuel, 1, |cs|
  {
    if cs != [] {
      var c := cs[|cs| - 1];
      DescListLabelled(m, cm, cs[..|cs| - 1], fuel);
      DescendantsLabelled(m, cm, c, fuel);
    }
  }

  /** Labelling more ids later changes neither the descendants of a labelled node nor their edges. */
  lemma {:induction false} DescendantsStable(m1: map<string, string>, m2: map<string, string>, cm: map<string, seq<string>>, node: string, fuel: nat)
    requires Extends(m1, m2) && ChildrenLabelled(m1, cm) && Depurl(node) in m1
    ensures Descendants(m1, cm, node, fuel) == Descendants(m2, cm, node, fuel)
    decreases fuel, 0
  {
    if fuel > 0 {
      DescListStable(m1, m2, cm, ChildrenOf(m1, cm, node), fuel - 1);
    }
  }

  lemma {:induction false} DescListStable(m1: map<string, string>, m2: map<string, string>, cm: map<string, seq<string>>, cs: seq<string>, fuel: nat)
    requires Extends(m1, m2) && ChildrenLabelled(m1, cm)
    requires forall c :: c in cs ==> Depurl(c) in m1
    ensures DescList(m1, cm, cs, fuel) == DescList(m2, cm, cs, fuel)
    decreases fuel, 1, |cs|
  {
    if cs != [] {
      DescListStable(m1, m2, cm, cs[..|cs| - 1], fuel);
      DescendantsStable(m1, m2, cm, cs[|cs| - 1], fuel);
    }
  }

  lemma ExpandLinesStable(m1: map<string, string>, m2: map<string, string>, verbId: string, ds: seq<string>, dir: Direction, target: string)
    requires Extends(m1, m2) && Depurl(target) in m1
    requires forall d :: d in ds ==> Depurl(d) in m1
    ensures ExpandLines(m1, verbId, ds, dir, target) == ExpandLines(m2, verbId, ds, dir, target)
  {
    forall i | 0 <= i < |ds|
      ensures ExpandLine(m1, verbId, ds[i], dir, target) == ExpandLine(m2, verbId, ds[i], dir, target)
    {
      assert ds[i] in ds;
    }
  }
}
