/**
 * `createDot` as the source writes it: the local variables of one run
 * become the fields of a `Translator`, the nested helpers its methods, the
 * two passes and the two output loops `for` loops, and `doChildren` a
 * recursive method. Each method is proved to leave the state the matching
 * function of `DotModel` computes, so every property proved about those
 * functions holds of the run.
 */
module DotWriter {
  import opened Options
  import opened Names
  import opened Labels
  import opened DotModel

  /** The stream `createDot` writes to: every `write` appends one chunk. */
  class Sink {
    var chunks: seq<string>

    constructor()
      ensures chunks == []
    {
      chunks := [];
    }

    method Write(data: string)
      modifies this
      ensures chunks == old(chunks) + [data]
    {
      chunks := chunks + [data];
    }
  }

  class Translator {
    var idMap: map<string, string>
    var childMap: map<string, seq<string>>
    var namespaces: map<string, Group>
    var nsOrder: seq<string>
    var prefix: int
    var next: int
    var colorIdx: int
    var warnings: nat
    /** `DO_CHILD_RELATIONSHIPS`, from `options.children`. */
    const children: bool
    /** The depth bound of the descendant walk. */
    const depth: nat

    /** The fields as a value of the model's state. */
    function Snapshot(): State
      reads this
    {
      State(idMap, childMap, namespaces, nsOrder, prefix, next, colorIdx, warnings)
    }

    constructor(children: bool, depth: nat)
      ensures Snapshot() == Init
      ensures this.children == children && this.depth == depth
    {
      idMap, childMap, namespaces, nsOrder := map[], map[], map[], [];
      prefix, next, colorIdx, warnings := -1, 0, 1, 0;
      this.children, this.depth := children, depth;
    }

    method GetId(s: string) returns (name: string)
      modifies this
      ensures Got(Snapshot(), name) == DotModel.GetId(old(Snapshot()), s)
    {
      var str := Depurl(s);
      if str !in idMap {
        var id := "";
        if prefix >= 0 {
          id := id + KeyAt(prefix);
        }
        id := id + KeyAt(next);
        assert id == NextLabel(prefix, next);
        next := next + 1;
        if next == |Keys| {
          prefix := prefix + 1;
          next := 0;
        }
        idMap := idMap[str := id];
      }
      name := idMap[str];
    }

    method CreateNamespace(ns: string)
      modifies this
      ensures Snapshot() == DotModel.CreateNamespace(old(Snapshot()), ns)
    {
      var bg := colorIdx;
      colorIdx := colorIdx + 1;
      var color := colorIdx;
      colorIdx := colorIdx + 1;
      namespaces := namespaces[ns := Group(Preamble(ns, bg, color), [], [])];
      nsOrder := nsOrder + [ns];
      if colorIdx > ColorMax {
        warnings := warnings + 1;
      }
    }

    method AddVertexData(ns: string, line: string)
      modifies this
      ensures Snapshot() == DotModel.AddVertexData(old(Snapshot()), ns, line)
    {
      if ns !in namespaces {
        CreateNamespace(ns);
      }
      var g := namespaces[ns];
      namespaces := namespaces[ns := g.(vertices := g.vertices + [line])];
    }

    method AddEdgeData(ns: string, line: string)
      modifies this
      ensures Snapshot() == DotModel.AddEdgeData(old(Snapshot()), ns, line)
    {
      if ns !in namespaces {
        CreateNamespace(ns);
      }
      var g := namespaces[ns];
      namespaces := namespaces[ns := g.(edges := g.edges + [line])];
    }

    /** `childMap[pid].push(child)`, creating the list on first use. */
    method AddChild(pid: string, child: string)
      modifies this
      ensures Snapshot() == DotModel.AddChild(old(Snapshot()), pid, child)
    {
      if pid !in childMap {
        childMap := childMap[pid := []];
      }
      childMap := childMap[pid := childMap[pid] + [child]];
    }

    method HandleEntity(id: string, parent: Option<string>)
      modifies this
      ensures Snapshot() == DotModel.HandleEntity(old(Snapshot()), id, parent)
    {
      ghost var g := DotModel.GetId(Snapshot(), id);
      var nid := GetId(id);
      if HasParent(parent) {
        ghost var p := DotModel.GetId(Snapshot(), parent.value);
        var pid := GetId(parent.value);
        AddChild(pid, id);
        assert Snapshot() == DotModel.AddChild(p.st, p.name, id);
      }
      AddVertexData(GetNS(id), VertexLine(nid, id));
    }

    /** One iteration of the `forEach` in `doChildren`: the edge between a child and the fixed end. */
    method ChildEdge(verbId: string, child: string, dir: Direction, target: string)
      modifies this
      ensures Snapshot() == DotModel.ChildEdge(old(Snapshot()), verbId, child, dir, target)
    {
      var from, to;
      if dir == FromSide {
        from := GetId(child);
        to := GetId(target);
      } else {
        to := GetId(child);
        from := GetId(target);
      }
      AddEdgeData(GetNS(verbId), EdgeLine(from, to, Depurl(verbId)));
    }

    /** `doChildren`, at most `fuel` levels deep. */
    method DoChildren(verbId: string, node: string, dir: Direction, target: string, fuel: nat)
      modifies this
      ensures Snapshot() == DotModel.DoChildren(old(Snapshot()), verbId, node, dir, target, fuel)
      decreases fuel, 0
    {
      if fuel > 0 {
        ghost var st := Snapshot();
        var nid := GetId(node);
        ghost var st1 := Snapshot();
        var tid := GetId(target);
        ghost var st2 := Snapshot();
        var below: nat := fuel - 1;
        if nid in childMap {
          var cs := childMap[nid];
          DoChildList(verbId, cs, dir, target, below);
          WalkStepAt(st, st1, st2, Snapshot(), nid, cs, verbId, node, dir, target, below);
        } else {
          WalkStepAt(st, st1, st2, st2, nid, [], verbId, node, dir, target, below);
        }
      }
    }

    /** The `forEach` over a child list in `doChildren`: each child's edge, then the walk below it. */
    method DoChildList(verbId: string, cs: seq<string>, dir: Direction, target: string, fuel: nat)
      modifies this
      ensures Snapshot() == DotModel.DoChildList(old(Snapshot()), verbId, cs, dir, target, fuel)
      decreases fuel, 1
    {
      ghost var st := Snapshot();
      for i := 0 to |cs|
        invariant Snapshot() == DotModel.DoChildList(st, verbId, cs[..i], dir, target, fuel)
      {
        assert cs[..i + 1][..i] == cs[..i];
        ChildEdge(verbId, cs[i], dir, target);
        DoChildren(verbId, cs[i], dir, target, fuel);
      }
      assert cs[..|cs|] == cs;
    }

    /** One iteration of the `forEach` in `handleVerb`: the pair's own edge, then the walks below both ends. */
    method HandlePair(id: string, p: Pair)
      modifies this
      ensures Snapshot() == DotModel.HandlePair(old(Snapshot()), id, p, children, depth)
    {
      ghost var st0 := Snapshot();
      var from := GetId(p.from);
      var to := GetId(p.to);
      AddEdgeData(GetNS(id), EdgeLine(from, to, Depurl(id)));
      ghost var st1 := Snapshot();
      if children {
        DoChildren(id, p.from, FromSide, p.to, depth);
        DoChildren(id, p.to, ToSide, p.from, depth);
      }
      PairStepAt(st0, st1, Snapshot(), id, p, children, depth);
    }

    method HandleVerb(id: string, allowed: Option<seq<Pair>>)
      modifies this
      ensures Snapshot() == DotModel.HandleVerb(old(Snapshot()), id, allowed, children, depth)
    {
      if allowed.None? {
        return;
      }
      var pairs := allowed.value;
      ghost var st0 := Snapshot();
      for i := 0 to |pairs|
        invariant Snapshot() == HandlePairs(st0, id, pairs[..i], children, depth)
      {
        PairsPrefixStep(st0, id, pairs, i, children, depth);
        HandlePair(id, pairs[i]);
      }
      assert pairs[..|pairs|] == pairs;
    }

    /** The two passes: every entity record first, then every verb record. */
    method Run(records: seq<Record>)
      modifies this
      ensures Snapshot() == VerbPass(EntityPass(old(Snapshot()), records), records, children, depth)
    {
      ghost var st0 := Snapshot();
      for i := 0 to |records|
        invariant Snapshot() == EntityPass(st0, records[..i])
      {
        assert records[..i + 1][..i] == records[..i];
        match records[i]
        case Entity(id, parent) => HandleEntity(id, parent);
        case Verb(_, _) =>
      }
      assert records[..|records|] == records;
      ghost var st1 := Snapshot();
      for i := 0 to |records|
        invariant Snapshot() == VerbPass(st1, records[..i], children, depth)
      {
        assert records[..i + 1][..i] == records[..i];
        match records[i]
        case Entity(_, _) =>
        case Verb(id, allowed) => HandleVerb(id, allowed);
      }
      assert records[..|records|] == records;
    }

    /** The output loops: preamble and vertices of every group, then preamble and edges of every group. */
    method Serialize(sink: Sink)
      modifies sink
      ensures sink.chunks == old(sink.chunks) + DotModel.Serialize(Snapshot())
    {
      var st := Snapshot();
      ghost var c0 := sink.chunks;
      sink.Write(Header);
      ghost var c1 := sink.chunks;
      WriteVertexBlocks(sink, st, st.nsOrder);
      ghost var c2 := sink.chunks;
      WriteEdgeBlocks(sink, st, st.nsOrder);
      ghost var c3 := sink.chunks;
      sink.Write(Footer);
      SerializeChunks(st, c0, c1, c2, c3, sink.chunks);
    }
  }

  /** The first output loop: each namespace's preamble, then its vertex lines. */
  method WriteVertexBlocks(sink: Sink, st: State, order: seq<string>)
    modifies sink
    ensures sink.chunks == old(sink.chunks) + VertexBlocks(st, order)
  {
    ghost var c0 := sink.chunks;
    for i := 0 to |order|
      invariant sink.chunks == c0 + VertexBlocks(st, order[..i])
    {
      var g := GroupOf(st, order[i]);
      assert order[..i + 1][..i] == order[..i];
      sink.Write(Block(g.preamble));
      sink.Write(Block(g.vertices));
    }
    assert order[..|order|] == order;
  }

  /** The second output loop: each namespace's preamble, then its edge lines. */
  method WriteEdgeBlocks(sink: Sink, st: State, order: seq<string>)
    modifies sink
    ensures sink.chunks == old(sink.chunks) + EdgeBlocks(st, order)
  {
    ghost var c0 := sink.chunks;
    for i := 0 to |order|
      invariant sink.chunks == c0 + EdgeBlocks(st, order[..i])
    {
      var g := GroupOf(st, order[i]);
      assert order[..i + 1][..i] == order[..i];
      sink.Write(Block(g.preamble));
      sink.Write(Block(g.edges));
    }
    assert order[..|order|] == order;
  }

  /**
   * `createDot(ontology, {children, stream})`: loads the records and writes
   * the graph to the sink, one chunk per `write`.
   */
  method CreateDot(records: seq<Record>, children: bool, sink: Sink)
    modifies sink
    ensures sink.chunks == old(sink.chunks) + Output(records, children)
  {
    var t := new Translator(children, WalkDepth(records));
    t.Run(records);
    t.Serialize(sink);
  }

  /** One level of `doChildren`: look up the node and the fixed end, then walk the node's child list one level further down. */
  lemma WalkStepAt(st0: State, st1: State, st2: State, st3: State, nid: string, cs: seq<string>,
                   verbId: string, node: string, dir: Direction, target: string, below: nat)
    requires Got(st1, nid) == DotModel.GetId(st0, node)
    requires st2 == DotModel.GetId(st1, target).st
    requires nid in st2.childMap ==> cs == st2.childMap[nid] && st3 == DoChildList(st2, verbId, cs, dir, target, below)
    requires nid !in st2.childMap ==> st3 == st2
    ensures st3 == DotModel.DoChildren(st0, verbId, node, dir, target, below + 1)
  {
  }

  /** The two look-ups and the edge of an allowed pair, then the walks when `children` is set. */
  lemma PairStepAt(st0: State, st1: State, st2: State, verbId: string, p: Pair, children: bool, fuel: nat)
    requires var f := DotModel.GetId(st0, p.from); var t := DotModel.GetId(f.st, p.to);
      st1 == AddEdgeData(t.st, GetNS(verbId), EdgeLine(f.name, t.name, Depurl(verbId)))
    requires children ==> st2 == DoChildren(DoChildren(st1, verbId, p.from, FromSide, p.to, fuel), verbId, p.to, ToSide, p.from, fuel)
    requires !children ==> st2 == st1
    ensures st2 == DotModel.HandlePair(st0, verbId, p, children, fuel)
  {
  }

  /** One more pair of the `forEach` in `handleVerb`. */
  lemma PairsPrefixStep(st: State, verbId: string, pairs: seq<Pair>, i: nat, children: bool, fuel: nat)
    requires i < |pairs|
    ensures HandlePairs(st, verbId, pairs[..i + 1], children, fuel)
         == DotModel.HandlePair(HandlePairs(st, verbId, pairs[..i], children, fuel), verbId, pairs[i], children, fuel)
  {
    assert pairs[..i + 1][..i] == pairs[..i];
  }

  /** The four writes of `Serialize` in turn give the model's output. */
  lemma SerializeChunks(st: State, c0: seq<string>, c1: seq<string>, c2: seq<string>, c3: seq<string>, c4: seq<string>)
    requires c1 == c0 + [Header] && c2 == c1 + VertexBlocks(st, st.nsOrder)
    requires c3 == c2 + EdgeBlocks(st, st.nsOrder) && c4 == c3 + [Footer]
    ensures c4 == c0 + DotModel.Serialize(st)
  {
  }
}
