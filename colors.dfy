/**
 * Namespace groups and their colours: every namespace is created once, in
 * the order it is first used, and the k-th one (0-based) takes fill colour
 * 2k+1 and line colour 2k+2 from the palette; "not enough colors!" is
 * warned once per namespace from the fifth on.
 */
module ColorProps {
  import opened Options
  import opened Names
  import opened Labels
  import opened DotModel

  /** The number of "not enough colors!" warnings after `n` namespaces. */
  function Overflow(n: nat): nat
  {
    if n > 4 then n - 4 else 0
  }

  /** The groups exist exactly for the namespaces of `nsOrder`, each once, and the colour index has moved past all of them. */
  ghost predicate Ordered(st: State)
  {
    && NoDup(st.nsOrder)
    && (forall ns :: ns in st.namespaces <==> ns in st.nsOrder)
    && st.colorIdx == 2 * |st.nsOrder| + 1
    && st.warnings == Overflow(|st.nsOrder|)
  }

  /** The k-th namespace (0-based) has fill colour 2k+1 and line colour 2k+2. */
  ghost predicate Painted(st: State)
    requires forall ns :: ns in st.nsOrder ==> ns in st.namespaces
  {
    forall k :: 0 <= k < |st.nsOrder| ==>
      st.namespaces[st.nsOrder[k]].preamble == Preamble(st.nsOrder[k], 2 * k + 1, 2 * k + 2)
  }

  ghost predicate Colored(st: State)
  {
    Ordered(st) && Painted(st)
  }

  /** `st2` has the same groups as `st`, with the same preambles, and the same colour state. */
  ghost predicate SameGroups(st: State, st2: State)
  {
    && st2.nsOrder == st.nsOrder
    && st2.colorIdx == st.colorIdx
    && st2.warnings == st.warnings
    && (forall ns :: ns in st2.namespaces <==> ns in st.namespaces)
    && forall ns :: ns in st.namespaces ==> st2.namespaces[ns].preamble == st.namespaces[ns].preamble
  }

  lemma SameGroupsColored(st: State, st2: State)
    requires Colored(st) && SameGroups(st, st2)
    ensures Colored(st2)
  {
    forall k | 0 <= k < |st2.nsOrder|
      ensures st2.namespaces[st2.nsOrder[k]].preamble == Preamble(st2.nsOrder[k], 2 * k + 1, 2 * k + 2)
    {
      assert st.nsOrder[k] in st.namespaces;
    }
  }

  lemma InitColored()
    ensures Colored(Init)
  {
  }

  /**
   * Creating a namespace that has no group yet appends it to the order,
   * gives it the next two colour slots, and warns exactly when it is the
   * fifth namespace or a later one.
   */
  lemma CreateNamespaceColored(st: State, ns: string)
    requires Colored(st) && ns !in st.namespaces
    ensures Colored(CreateNamespace(st, ns))
    ensures CreateNamespace(st, ns).warnings == st.warnings + (if |st.nsOrder| >= 4 then 1 else 0)
  {
    CreateNamespaceFacts(st, ns);
    CreateNamespaceOrdered(st, ns);
    CreateNamespacePainted(st, ns);
  }

  lemma CreateNamespaceOrdered(st: State, ns: string)
    requires Ordered(st) && ns !in st.namespaces
    ensures Ordered(CreateNamespace(st, ns))
  {
    var r := CreateNamespace(st, ns);
    CreateNamespaceFacts(st, ns);
    assert ns !in st.nsOrder;
    forall x ensures x in r.namespaces <==> x in r.nsOrder {
      if x != ns {
        assert x in r.namespaces <==> x in st.namespaces;
      }
    }
  }

  lemma CreateNamespacePainted(st: State, ns: string)
    requires Colored(st) && ns !in st.namespaces
    requires Ordered(CreateNamespace(st, ns))
    ensures Painted(CreateNamespace(st, ns))
  {
    CreateNamespaceFacts(st, ns);
    PaintedPush(st, CreateNamespace(st, ns), ns);
  }

  /** Appending a namespace painted with the next two colours keeps every namespace painted. */
  lemma PaintedPush(st: State, r: State, ns: string)
    requires Colored(st) && Ordered(r) && ns !in st.namespaces
    requires r.nsOrder == st.nsOrder + [ns]
    requires ns in r.namespaces && r.namespaces[ns].preamble == Preamble(ns, st.colorIdx, st.colorIdx + 1)
    requires forall x :: x != ns ==> GroupOf(r, x) == GroupOf(st, x)
    ensures Painted(r)
  {
    forall k | 0 <= k < |r.nsOrder|
      ensures r.namespaces[r.nsOrder[k]].preamble == Preamble(r.nsOrder[k], 2 * k + 1, 2 * k + 2)
    {
      PaintedAt(st, r, ns, k);
    }
  }

  lemma PaintedAt(st: State, r: State, ns: string, k: nat)
    requires forall x :: x in st.nsOrder ==> x in st.namespaces
    requires Painted(st) && st.colorIdx == 2 * |st.nsOrder| + 1 && ns !in st.namespaces
    requires forall x :: x in r.nsOrder ==> x in r.namespaces
    requires r.nsOrder == st.nsOrder + [ns]
    requires ns in r.namespaces && r.namespaces[ns].preamble == Preamble(ns, st.colorIdx, st.colorIdx + 1)
    requires forall x :: x != ns ==> GroupOf(r, x) == GroupOf(st, x)
    requires k < |r.nsOrder|
    ensures r.nsOrder[k] in r.namespaces
    ensures r.namespaces[r.nsOrder[k]].preamble == Preamble(r.nsOrder[k], 2 * k + 1, 2 * k + 2)
  {
    if k < |st.nsOrder| {
      var x := st.nsOrder[k];
      assert r.nsOrder[k] == x && x in st.namespaces;
      assert GroupOf(r, x) == GroupOf(st, x);
    }
  }

  /**
   * Two groups of a run: the earlier is painted with fill colour 2i+1 and
   * line colour 2i+2, the later with 2j+1 and 2j+2, and none of the four
   * colour texts of the one equals any of the other.
   */
  lemma ColorsDistinct(st: State, i: nat, j: nat)
    requires Colored(st) && i < j < |st.nsOrder|
    ensures st.nsOrder[i] in st.namespaces && st.nsOrder[j] in st.namespaces
    ensures st.namespaces[st.nsOrder[i]].preamble == Preamble(st.nsOrder[i], 2 * i + 1, 2 * i + 2)
    ensures st.namespaces[st.nsOrder[j]].preamble == Preamble(st.nsOrder[j], 2 * j + 1, 2 * j + 2)
    ensures IntText(2 * i + 1) != IntText(2 * j + 1) && IntText(2 * i + 2) != IntText(2 * j + 2)
    ensures IntText(2 * i + 1) != IntText(2 * j + 2) && IntText(2 * i + 2) != IntText(2 * j + 1)
  {
    if IntText(2 * i + 1) == IntText(2 * j + 1) { DecimalInjective(2 * i + 1, 2 * j + 1); }
    if IntText(2 * i + 2) == IntText(2 * j + 2) { DecimalInjective(2 * i + 2, 2 * j + 2); }
    if IntText(2 * i + 1) == IntText(2 * j + 2) { DecimalInjective(2 * i + 1, 2 * j + 2); }
    if IntText(2 * i + 2) == IntText(2 * j + 1) { DecimalInjective(2 * i + 2, 2 * j + 1); }
  }

  lemma EnsureNamespaceColored(st: State, ns: string)
    requires Colored(st)
    ensures Colored(EnsureNamespace(st, ns))
  {
    if ns !in st.namespaces {
      CreateNamespaceColored(st, ns);
    }
  }

  /** Pushing a vertex or an edge line never changes a preamble or the colours. */
  lemma AddVertexColored(st: State, ns: string, line: string)
    requires Colored(st)
    ensures Colored(AddVertexData(st, ns, line))
  {
    EnsureNamespaceColored(st, ns);
    AddVertexFacts(st, ns, line);
    SameGroupsColored(EnsureNamespace(st, ns), AddVertexData(st, ns, line));
  }

  lemma AddEdgeColored(st: State, ns: string, line: string)
    requires Colored(st)
    ensures Colored(AddEdgeData(st, ns, line))
  {
    EnsureNamespaceColored(st, ns);
    AddEdgeFacts(st, ns, line);
    SameGroupsColored(EnsureNamespace(st, ns), AddEdgeData(st, ns, line));
  }

  /** Labelling and recording children leave the groups alone. */
  lemma GetIdColored(st: State, s: string)
    requires Colored(st)
    ensures Colored(GetId(st, s).st)
  {
    var r := GetId(st, s).st;
    GetIdFacts(st, s);
    assert r.namespaces == st.namespaces && r.nsOrder == st.nsOrder;
  }

  lemma HandleEntityColored(st: State, id: string, parent: Option<string>)
    requires Colored(st)
    ensures Colored(HandleEntity(st, id, parent))
  {
    var g := GetId(st, id);
    GetIdColored(st, id);
    var st2 := g.st;
    if HasParent(parent) {
      var p := GetId(g.st, parent.value);
      GetIdColored(g.st, parent.value);
      st2 := AddChild(p.st, p.name, id);
    }
    AddVertexColored(st2, GetNS(id), VertexLine(g.name, id));
  }

  lemma ChildEdgeColored(st: State, verbId: string, child: string, dir: Direction, target: string)
    requires Colored(st)
    ensures Colored(ChildEdge(st, verbId, child, dir, target))
  {
    if dir == FromSide {
      var f := GetId(st, child);
      GetIdColored(st, child);
      var t := GetId(f.st, target);
      GetIdColored(f.st, target);
      AddEdgeColored(t.st, GetNS(verbId), EdgeLine(f.name, t.name, Depurl(verbId)));
    } else {
      var t := GetId(st, child);
      GetIdColored(st, child);
      var f := GetId(t.st, target);
      GetIdColored(t.st, target);
      AddEdgeColored(f.st, GetNS(verbId), EdgeLine(f.name, t.name, Depurl(verbId)));
    }
  }

  lemma {:induction false} DoChildrenColored(st: State, verbId: string, node: string, dir: Direction, target: string, fuel: nat)
    requires Colored(st)
    ensures Colored(DoChildren(st, verbId, node, dir, target, fuel))
    decreases fuel, 0
  {
    if fuel > 0 {
      WalkColored(st, verbId, node, dir, target, fuel - 1);
    }
  }

  lemma {:induction false} WalkColored(st: State, verbId: string, node: string, dir: Direction, target: string, below: nat)
    requires Colored(st)
    ensures Colored(DoChildren(st, verbId, node, dir, target, below + 1))
    decreases below, 2
  {
    var n := GetId(st, node);
    GetIdColored(st, node);
    var t := GetId(n.st, target);
    GetIdColored(n.st, target);
    if n.name in t.st.childMap {
      DoChildListColored(t.st, verbId, t.st.childMap[n.name], dir, target, below);
    }
  }

  lemma {:induction false} DoChildListColored(st: State, verbId: string, cs: seq<string>, dir: Direction, target: string, fuel: nat)
    requires Colored(st)
    ensures Colored(DoChildList(st, verbId, cs, dir, target, fuel))
    decreases fuel, 1, |cs|
  {
    if cs != [] {
      var c := cs[|cs| - 1];
      DoChildListColored(st, verbId, cs[..|cs| - 1], dir, target, fuel);
      var st1 := DoChildList(st, verbId, cs[..|cs| - 1], dir, target, fuel);
      ChildEdgeColored(st1, verbId, c, dir, target);
      DoChildrenColored(ChildEdge(st1, verbId, c, dir, target), verbId, c, dir, target, fuel);
    }
  }

  lemma HandlePairColored(st: State, verbId: string, p: Pair, children: bool, fuel: nat)
    requires Colored(st)
    ensures Colored(HandlePair(st, verbId, p, children, fuel))
  {
    var f := GetId(st, p.from);
    GetIdColored(st, p.from);
    var t := GetId(f.st, p.to);
    GetIdColored(f.st, p.to);
    var st1 := AddEdgeData(t.st, GetNS(verbId), EdgeLine(f.name, t.name, Depurl(verbId)));
    AddEdgeColored(t.st, GetNS(verbId), EdgeLine(f.name, t.name, Depurl(verbId)));
    if children {
      DoChildrenColored(st1, verbId, p.from, FromSide, p.to, fuel);
      DoChildrenColored(DoChildren(st1, verbId, p.from, FromSide, p.to, fuel), verbId, p.to, ToSide, p.from, fuel);
    }
  }

  lemma {:induction false} HandlePairsColored(st: State, verbId: string, pairs: seq<Pair>, children: bool, fuel: nat)
    requires Colored(st)
    ensures Colored(HandlePairs(st, verbId, pairs, children, fuel))
  {
    if pairs != [] {
      HandlePairsColored(st, verbId, pairs[..|pairs| - 1], children, fuel);
      HandlePairColored(HandlePairs(st, verbId, pairs[..|pairs| - 1], children, fuel), verbId, pairs[|pairs| - 1], children, fuel);
    }
  }

  lemma {:induction false} EntityPassColored(st: State, records: seq<Record>)
    requires Colored(st)
    ensures Colored(EntityPass(st, records))
  {
    if records != [] {
      EntityPassColored(st, records[..|records| - 1]);
      var st1 := EntityPass(st, records[..|records| - 1]);
      match records[|records| - 1]
      case Entity(id, parent) => HandleEntityColored(st1, id, parent);
      case Verb(_, _) =>
    }
  }

  lemma {:induction false} VerbPassColored(st: State, records: seq<Record>, children: bool, fuel: nat)
    requires Colored(st)
    ensures Colored(VerbPass(st, records, children, fuel))
  {
    if records != [] {
      VerbPassColored(st, records[..|records| - 1], children, fuel);
      var st1 := VerbPass(st, records[..|records| - 1], children, fuel);
      match records[|records| - 1]
      case Entity(_, _) =>
      case Verb(id, allowed) =>
        if allowed.Some? {
          HandlePairsColored(st1, id, allowed.value, children, fuel);
        }
    }
  }

  /**
   * After a whole run there is exactly one group per namespace, in creation
   * order, the k-th coloured 2k+1 / 2k+2, `colorIdx` at 2n+1 for n groups,
   * and one warning per group past the fourth.
   */
  lemma LoadColored(records: seq<Record>, children: bool)
    ensures Colored(Load(records, children))
  {
    InitColored();
    EntityPassColored(Init, records);
    VerbPassColored(EntityPass(Init, records), records, children, WalkDepth(records));
  }
}
