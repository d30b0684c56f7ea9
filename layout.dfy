/**
 * The text `createDot` writes: the header, then for every namespace in
 * creation order its preamble and its vertex lines, then for every
 * namespace again its preamble and its edge lines, then the footer.
 */
module Layout {
  import opened Options
  import opened Names
  import opened Labels
  import opened DotModel
  import opened RunProps
  import opened ColorProps
  import opened NamespaceOrder
  import opened LoadProps

  /** The k-th pair of writes of the first loop is namespace k's preamble and vertices. */
  lemma {:induction false} VertexBlockAt(st: State, order: seq<string>, k: nat)
    requires k < |order|
    ensures |VertexBlocks(st, order)| == 2 * |order|
    ensures VertexBlocks(st, order)[2 * k] == Block(GroupOf(st, order[k]).preamble)
    ensures VertexBlocks(st, order)[2 * k + 1] == Block(GroupOf(st, order[k]).vertices)
  {
    var init := order[..|order| - 1];
    if init != [] {
      VertexBlockAt(st, init, if k < |init| then k else 0);
    }
  }

  /** The k-th pair of writes of the second loop is namespace k's preamble and edges. */
  lemma {:induction false} EdgeBlockAt(st: State, order: seq<string>, k: nat)
    requires k < |order|
    ensures |EdgeBlocks(st, order)| == 2 * |order|
    ensures EdgeBlocks(st, order)[2 * k] == Block(GroupOf(st, order[k]).preamble)
    ensures EdgeBlocks(st, order)[2 * k + 1] == Block(GroupOf(st, order[k]).edges)
  {
    var init := order[..|order| - 1];
    if init != [] {
      EdgeBlockAt(st, init, if k < |init| then k else 0);
    }
  }

  /**
   * Four writes per namespace between the header and the footer: all the
   * vertex sections first, then all the edge sections, both in creation
   * order.
   */
  lemma SerializeAt(st: State)
    ensures var out, n := Serialize(st), |st.nsOrder|;
      && |out| == 4 * n + 2
      && out[0] == Header && out[4 * n + 1] == Footer
      && forall k :: 0 <= k < n ==>
           && out[1 + 2 * k] == Block(GroupOf(st, st.nsOrder[k]).preamble)
           && out[2 + 2 * k] == Block(GroupOf(st, st.nsOrder[k]).vertices)
           && out[1 + 2 * n + 2 * k] == Block(GroupOf(st, st.nsOrder[k]).preamble)
           && out[2 + 2 * n + 2 * k] == Block(GroupOf(st, st.nsOrder[k]).edges)
  {
    var n := |st.nsOrder|;
    if n == 0 {
      assert Serialize(st) == [Header] + [] + [] + [Footer];
    } else {
      SerializeEntry(st, 0);
    }
    forall k | 0 <= k < n
      ensures var out := Serialize(st);
           && out[1 + 2 * k] == Block(GroupOf(st, st.nsOrder[k]).preamble)
           && out[2 + 2 * k] == Block(GroupOf(st, st.nsOrder[k]).vertices)
           && out[1 + 2 * n + 2 * k] == Block(GroupOf(st, st.nsOrder[k]).preamble)
           && out[2 + 2 * n + 2 * k] == Block(GroupOf(st, st.nsOrder[k]).edges)
    {
      SerializeEntry(st, k);
    }
  }

  /** Where an entry of each middle part lands between a header and a footer. */
  lemma FramedAt(h: string, a: seq<string>, b: seq<string>, f: string, i: nat, j: nat)
    requires i < |a| && j < |b|
    ensures var s := [h] + a + b + [f];
      && |s| == |a| + |b| + 2 && s[0] == h && s[|a| + |b| + 1] == f
      && s[1 + i] == a[i] && s[1 + |a| + j] == b[j]
  {
  }

  /**
   * `out` is an output of `n` namespaces, and the four writes of the k-th
   * are its preamble `pre` before its vertex lines, and `pre` again before
   * its edge lines.
   */
  ghost predicate Section(out: seq<string>, n: nat, k: nat, pre: seq<string>, vertices: seq<string>, edges: seq<string>)
  {
    && k < n && |out| == 4 * n + 2
    && out[0] == Header && out[4 * n + 1] == Footer
    && out[1 + 2 * k] == Block(pre) && out[2 + 2 * k] == Block(vertices)
    && out[1 + 2 * n + 2 * k] == Block(pre) && out[2 + 2 * n + 2 * k] == Block(edges)
  }

  /**
   * The whole output of a run. With `n` namespaces, in the order of
   * `LoadOrder`, the k-th group's preamble carries fill colour 2k+1 and
   * line colour 2k+2 and is written before its vertex lines and again
   * before its edge lines; its vertex lines are those of its entity
   * records and its edge lines those of its verb records.
   */
  lemma OutputAt(records: seq<Record>, children: bool, k: nat)
    requires k < |Load(records, children).nsOrder|
    ensures var l := Load(records, children);
      var n, ns := |l.nsOrder|, l.nsOrder[k];
      && n == |FirstSeen(EntityNs(records) + VerbNs(records))|
      && GroupOf(l, ns).preamble == Preamble(ns, 2 * k + 1, 2 * k + 2)
      && Section(Output(records, children), n, k, GroupOf(l, ns).preamble, EntityVertices(l.idMap, records, ns),
                 VerbEdges(l.idMap, l.childMap, records, ns, children, WalkDepth(records)))
  {
    var l := Load(records, children);
    var ns := l.nsOrder[k];
    LoadVertices(records, children, ns);
    LoadEdges(records, children, ns);
    EntryFrom(l, k, GroupOf(l, ns).preamble, EntityVertices(l.idMap, records, ns),
              VerbEdges(l.idMap, l.childMap, records, ns, children, WalkDepth(records)));
    PreambleAt(records, children, k);
    LoadNsOrder(records, children);
  }

  /** `SerializeEntry` for a group whose preamble and lines are known. */
  lemma EntryFrom(st: State, k: nat, pre: seq<string>, vertices: seq<string>, edges: seq<string>)
    requires k < |st.nsOrder|
    requires GroupOf(st, st.nsOrder[k]).preamble == pre
    requires VerticesOf(st, st.nsOrder[k]) == vertices && EdgesOf(st, st.nsOrder[k]) == edges
    ensures Section(Serialize(st), |st.nsOrder|, k, pre, vertices, edges)
  {
    SerializeEntry(st, k);
  }

  /** The four writes of `Serialize` for the k-th namespace. */
  lemma SerializeEntry(st: State, k: nat)
    requires k < |st.nsOrder|
    ensures var out, n, g := Serialize(st), |st.nsOrder|, GroupOf(st, st.nsOrder[k]);
      && |out| == 4 * n + 2
      && out[0] == Header && out[4 * n + 1] == Footer
      && out[1 + 2 * k] == Block(g.preamble) && out[2 + 2 * k] == Block(g.vertices)
      && out[1 + 2 * n + 2 * k] == Block(g.preamble) && out[2 + 2 * n + 2 * k] == Block(g.edges)
  {
    var vb, eb := VertexBlocks(st, st.nsOrder), EdgeBlocks(st, st.nsOrder);
    VertexBlockAt(st, st.nsOrder, k);
    EdgeBlockAt(st, st.nsOrder, k);
    FramedAt(Header, vb, eb, Footer, 2 * k, 2 * k);
    FramedAt(Header, vb, eb, Footer, 2 * k + 1, 2 * k + 1);
  }

  /** The k-th group of a run carries the k-th pair of colours. */
  lemma PreambleAt(records: seq<Record>, children: bool, k: nat)
    requires k < |Load(records, children).nsOrder|
    ensures var l := Load(records, children);
      GroupOf(l, l.nsOrder[k]).preamble == Preamble(l.nsOrder[k], 2 * k + 1, 2 * k + 2)
  {
    var l := Load(records, children);
    LoadColored(records, children);
    assert l.nsOrder[k] in l.namespaces;
  }
}
