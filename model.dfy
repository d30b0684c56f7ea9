/**
 * The translation of an ontology into Graphviz DOT text, as values: the
 * state of one run of `createDot` and one function per step of it. Each
 * step takes the state before and gives the state after, in the order the
 * source changes things, so that the methods of `DotWriter.Translator`
 * can be proved to do exactly what these functions describe.
 */
module DotModel {
  import opened Options
  import opened Names
  import opened Labels

  /** One `{from, to}` entry of a verb's `allowed` list. */
  datatype Pair = Pair(from: string, to: string)

  /** A parsed ontology record: `{Entity: {...}}` or `{Verb: {...}}`. */
  datatype Record =
    | Entity(id: string, parent: Option<string>)
    | Verb(id: string, allowed: Option<seq<Pair>>)

  /** The lines gathered for one namespace. */
  datatype Group = Group(preamble: seq<string>, vertices: seq<string>, edges: seq<string>)

  /** Which side of a verb's edge the descendant walk replaces. */
  datatype Direction = FromSide | ToSide

  /**
   * The local variables of `createDot`: `idMap` (stripped id to label),
   * `childMap` (parent label to child full ids), `namespaces` with the order
   * in which they were created, the label counters `prefix` and `next`,
   * `colorIdx`, and how many times "not enough colors!" was warned.
   */
  datatype State = State(
    idMap: map<string, string>,
    childMap: map<string, seq<string>>,
    namespaces: map<string, Group>,
    nsOrder: seq<string>,
    prefix: int,
    next: int,
    colorIdx: int,
    warnings: nat)

  const ColorMax: int := 10
  const ColorScheme: string := "paired10"

  /** The state at the start of every run. */
  const Init: State := State(map[], map[], map[], [], -1, 0, 1, 0)

  /** A new state together with the label a lookup returned. */
  datatype Got = Got(st: State, name: string)

  // Label assignment

  /**
   * `getId`: the label of the stripped id, handing out the next label from
   * the counters when the id is new.
   */
  function GetId(st: State, s: string): Got
  {
    var str := Depurl(s);
    if str in st.idMap then Got(st, st.idMap[str])
    else
      var id := NextLabel(st.prefix, st.next);
      var next := st.next + 1;
      var st1 := if next == |Keys| then st.(prefix := st.prefix + 1, next := 0) else st.(next := next);
      Got(st1.(idMap := st.idMap[str := id]), id)
  }

  /**
   * The stripped id always ends up labelled with the returned label; a
   * known id keeps its label and changes nothing; a new id takes the next
   * label from the counters, and no other label changes.
   */
  lemma GetIdFacts(st: State, s: string)
    ensures var r := GetId(st, s);
      && Depurl(s) in r.st.idMap && r.st.idMap[Depurl(s)] == r.name
      && (Depurl(s) in st.idMap ==> r == Got(st, st.idMap[Depurl(s)]))
      && (Depurl(s) !in st.idMap ==>
            && r.name == NextLabel(st.prefix, st.next)
            && r.st.idMap == st.idMap[Depurl(s) := r.name]
            && r.st.(idMap := st.idMap, prefix := st.prefix, next := st.next) == st)
      && (forall k :: k in st.idMap ==> k in r.st.idMap && r.st.idMap[k] == st.idMap[k])
      && r.st.childMap == st.childMap && r.st.namespaces == st.namespaces && r.st.nsOrder == st.nsOrder
      && r.st.colorIdx == st.colorIdx && r.st.warnings == st.warnings
  {
  }

  // Namespace groups

  /** The four style lines written before a namespace's vertices and again before its edges. */
  function Preamble(ns: string, bg: int, color: int): seq<string>
  {
    var c := IntText(color);
    [ "// Namespace: " + ns,
      "edge [penwidth=2, colorscheme=" + ColorScheme + ", color=" + c + ", fontcolor=" + c + "];",
      "node [penwidth=2, colorscheme=" + ColorScheme + ", color=" + c + ", fontcolor=" + c
        + ", fillcolor=" + IntText(bg) + ", style=filled ];",
      "" ]
  }

  /**
   * `createNamespace`: an empty group whose preamble uses the next two
   * colour slots, fill colour first, and a warning once the index runs
   * past the palette.
   */
  function CreateNamespace(st: State, ns: string): State
  {
    var idx := st.colorIdx + 2;
    st.(namespaces := st.namespaces[ns := Group(Preamble(ns, st.colorIdx, st.colorIdx + 1), [], [])],
        nsOrder := st.nsOrder + [ns],
        colorIdx := idx,
        warnings := if idx > ColorMax then st.warnings + 1 else st.warnings)
  }

  /** The state with a group for `ns`, creating it when there is none yet. */
  function EnsureNamespace(st: State, ns: string): State
  {
    if ns in st.namespaces then st else CreateNamespace(st, ns)
  }

  /** `namespaces[ns]`, an empty group for a namespace not created yet. */
  function GroupOf(st: State, ns: string): Group
  {
    if ns in st.namespaces then st.namespaces[ns] else Group([], [], [])
  }

  function VerticesOf(st: State, ns: string): seq<string>
  {
    GroupOf(st, ns).vertices
  }

  function EdgesOf(st: State, ns: string): seq<string>
  {
    GroupOf(st, ns).edges
  }

  /**
   * `addVertexData`: push a line onto the vertices of the namespace's
   * group, creating the group first when needed. No other list changes and
   * no preamble changes.
   */
  function AddVertexData(st: State, ns: string, line: string): State
  {
    var st1 := EnsureNamespace(st, ns);
    var g := st1.namespaces[ns];
    st1.(namespaces := st1.namespaces[ns := g.(vertices := g.vertices + [line])])
  }

  /**
   * `addEdgeData`: push a line onto the edges of the namespace's group,
   * creating the group first when needed. No other list changes and no
   * preamble changes.
   */
  function AddEdgeData(st: State, ns: string, line: string): State
  {
    var st1 := EnsureNamespace(st, ns);
    var g := st1.namespaces[ns];
    st1.(namespaces := st1.namespaces[ns := g.(edges := g.edges + [line])])
  }

  /**
   * A new group gets the next two colour slots, fill colour first, and is
   * appended to the creation order; a warning is counted once the index
   * runs past the palette. Nothing else changes.
   */
  lemma CreateNamespaceFacts(st: State, ns: string)
    ensures var r := CreateNamespace(st, ns);
      && ns in r.namespaces && r.namespaces[ns] == Group(Preamble(ns, st.colorIdx, st.colorIdx + 1), [], [])
      && r.colorIdx == st.colorIdx + 2
      && r.warnings == st.warnings + (if st.colorIdx + 2 > ColorMax then 1 else 0)
      && r.nsOrder == st.nsOrder + [ns]
      && (forall x :: x != ns ==> GroupOf(r, x) == GroupOf(st, x) && (x in r.namespaces <==> x in st.namespaces))
      && r.(namespaces := st.namespaces, nsOrder := st.nsOrder, colorIdx := st.colorIdx, warnings := st.warnings) == st
  {
  }

  /** After `EnsureNamespace` the group exists, and an existing group is left as it is. */
  lemma EnsureNamespaceFacts(st: State, ns: string)
    ensures ns in EnsureNamespace(st, ns).namespaces
    ensures ns in st.namespaces ==> EnsureNamespace(st, ns) == st
  {
  }

  /**
   * `addVertexData` pushes exactly one line onto the vertices of `ns`,
   * after creating its group when needed; no other list and no preamble
   * changes.
   */
  lemma AddVertexFacts(st: State, ns: string, line: string)
    ensures var e := EnsureNamespace(st, ns);
      var r := AddVertexData(st, ns, line);
      && r.(namespaces := e.namespaces) == e
      && (forall x :: x in r.namespaces <==> x in e.namespaces)
      && (forall x :: x in e.namespaces ==> r.namespaces[x].preamble == e.namespaces[x].preamble)
      && r.(namespaces := st.namespaces, nsOrder := st.nsOrder, colorIdx := st.colorIdx, warnings := st.warnings) == st
      && VerticesOf(r, ns) == VerticesOf(st, ns) + [line]
      && (forall x :: x != ns ==> VerticesOf(r, x) == VerticesOf(st, x))
      && (forall x :: EdgesOf(r, x) == EdgesOf(st, x))
  {
    var e := EnsureNamespace(st, ns);
    CreateNamespaceFacts(st, ns);
  }

  /**
   * `addEdgeData` pushes exactly one line onto the edges of `ns`, after
   * creating its group when needed; no other list and no preamble changes.
   */
  lemma AddEdgeFacts(st: State, ns: string, line: string)
    ensures var e := EnsureNamespace(st, ns);
      var r := AddEdgeData(st, ns, line);
      && r.(namespaces := e.namespaces) == e
      && (forall x :: x in r.namespaces <==> x in e.namespaces)
      && (forall x :: x in e.namespaces ==> r.namespaces[x].preamble == e.namespaces[x].preamble)
      && r.(namespaces := st.namespaces, nsOrder := st.nsOrder, colorIdx := st.colorIdx, warnings := st.warnings) == st
      && EdgesOf(r, ns) == EdgesOf(st, ns) + [line]
      && (forall x :: x != ns ==> EdgesOf(r, x) == EdgesOf(st, x))
      && (forall x :: VerticesOf(r, x) == VerticesOf(st, x))
  {
    var e := EnsureNamespace(st, ns);
    CreateNamespaceFacts(st, ns);
  }

  /** The vertex line of `handleEntity`. */
  function VertexLine(name: string, id: string): string
  {
    name + " [label=\"" + Depurl(id) + "\"];"
  }

  /** `edgeLine` and the direct edge of `handleVerb`. */
  function EdgeLine(from: string, to: string, name: string): string
  {
    from + " -> " + to + " [label=\"" + name + "\"];"
  }

  // Entities

  /** JavaScript's `if (data.parent)`: a parent that is present and not the empty string. */
  predicate HasParent(parent: Option<string>)
  {
    parent.Some? && parent.value != ""
  }

  /** `childMap[pid].push(child)`, creating the list on first use. */
  function AddChild(st: State, pid: string, child: string): State
  {
    var existing := if pid in st.childMap then st.childMap[pid] else [];
    st.(childMap := st.childMap[pid := existing + [child]])
  }

  /**
   * `handleEntity`: label the entity, then its parent and record the entity
   * as the parent's child, then push the entity's vertex line.
   */
  function HandleEntity(st: State, id: string, parent: Option<string>): State
  {
    var g := GetId(st, id);
    var st2 :=
      if HasParent(parent) then
        var p := GetId(g.st, parent.value);
        AddChild(p.st, p.name, id)
      else g.st;
    AddVertexData(st2, GetNS(id), VertexLine(g.name, id))
  }

  // Verbs

  /**
   * One iteration of the `forEach` in `doChildren`: the edge between the
   * child and the fixed end, child on the side `dir` names.
   */
  function ChildEdge(st: State, verbId: string, child: string, dir: Direction, target: string): State
  {
    if dir == FromSide then
      var f := GetId(st, child);
      var t := GetId(f.st, target);
      AddEdgeData(t.st, GetNS(verbId), EdgeLine(f.name, t.name, Depurl(verbId)))
    else
      var t := GetId(st, child);
      var f := GetId(t.st, target);
      AddEdgeData(f.st, GetNS(verbId), EdgeLine(f.name, t.name, Depurl(verbId)))
  }

  /**
   * `doChildren`: an edge for every child of `node`, each followed by the
   * walk below that child. `fuel` bounds the depth of the walk; the source
   * has no bound.
   */
  function DoChildren(st: State, verbId: string, node: string, dir: Direction, target: string, fuel: nat): State
    decreases fuel, 0
  {
    if fuel == 0 then st
    else
      var n := GetId(st, node);
      var t := GetId(n.st, target);
      if n.name in t.st.childMap then DoChildList(t.st, verbId, t.st.childMap[n.name], dir, target, fuel - 1)
      else t.st
  }

  /** The `forEach` over a child list in `doChildren`, up to and including the last child of `cs`. */
  function DoChildList(st: State, verbId: string, cs: seq<string>, dir: Direction, target: string, fuel: nat): State
    decreases fuel, 1, |cs|
  {
    if cs == [] then st
    else
      var c := cs[|cs| - 1];
      var st1 := DoChildList(st, verbId, cs[..|cs| - 1], dir, target, fuel);
      DoChildren(ChildEdge(st1, verbId, c, dir, target), verbId, c, dir, target, fuel)
  }

  /**
   * One iteration of the `forEach` in `handleVerb`: the direct edge into
   * the verb's namespace, then, when `children` is set, the walk below
   * `from` and the walk below `to`.
   */
  function HandlePair(st: State, verbId: string, p: Pair, children: bool, fuel: nat): State
  {
    var f := GetId(st, p.from);
    var t := GetId(f.st, p.to);
    var st1 := AddEdgeData(t.st, GetNS(verbId), EdgeLine(f.name, t.name, Depurl(verbId)));
    if children then
      DoChildren(DoChildren(st1, verbId, p.from, FromSide, p.to, fuel), verbId, p.to, ToSide, p.from, fuel)
    else st1
  }

  /** The `forEach` over `allowed`, up to and including the last pair of `pairs`. */
  function HandlePairs(st: State, verbId: string, pairs: seq<Pair>, children: bool, fuel: nat): State
  {
    if pairs == [] then st
    else HandlePair(HandlePairs(st, verbId, pairs[..|pairs| - 1], children, fuel), verbId, pairs[|pairs| - 1], children, fuel)
  }

  /** `handleVerb`: nothing without an `allowed` list, else each pair in order. */
  function HandleVerb(st: State, verbId: string, allowed: Option<seq<Pair>>, children: bool, fuel: nat): State
  {
    match allowed
    case None => st
    case Some(pairs) => HandlePairs(st, verbId, pairs, children, fuel)
  }

  // The two passes over the records

  /** One step of the first pass: an Entity record is handled, a Verb record skipped. */
  function EntityStep(st: State, rec: Record): State
  {
    match rec
    case Entity(id, parent) => HandleEntity(st, id, parent)
    case Verb(_, _) => st
  }

  /** One step of the second pass: a Verb record is handled, an Entity record skipped. */
  function VerbStep(st: State, rec: Record, children: bool, fuel: nat): State
  {
    match rec
    case Entity(_, _) => st
    case Verb(id, allowed) => HandleVerb(st, id, allowed, children, fuel)
  }

  /** The first pass, `ontology.map(...)`, over the records up to the last of `records`. */
  function EntityPass(st: State, records: seq<Record>): State
  {
    if records == [] then st
    else EntityStep(EntityPass(st, records[..|records| - 1]), records[|records| - 1])
  }

  /** The second pass, `.forEach(...)`, over the records up to the last of `records`. */
  function VerbPass(st: State, records: seq<Record>, children: bool, fuel: nat): State
  {
    if records == [] then st
    else VerbStep(VerbPass(st, records[..|records| - 1], children, fuel), records[|records| - 1], children, fuel)
  }

  /** The depth bound given to the descendant walk: one level per record. */
  function WalkDepth(records: seq<Record>): nat
  {
    |records|
  }

  /** The state after both passes of a run. */
  function Load(records: seq<Record>, children: bool): State
  {
    VerbPass(EntityPass(Init, records), records, children, WalkDepth(records))
  }

  // Serialisation

  /** `"  " + lines.join("\n  ") + "\n"`. */
  function Block(lines: seq<string>): string
  {
    "  " + Join(lines, "\n  ") + "\n"
  }

  /** The two writes per namespace of the first loop: preamble, then vertices. */
  function VertexBlocks(st: State, order: seq<string>): seq<string>
  {
    if order == [] then []
    else
      var ns := order[|order| - 1];
      VertexBlocks(st, order[..|order| - 1]) + [Block(GroupOf(st, ns).preamble), Block(GroupOf(st, ns).vertices)]
  }

  /** The two writes per namespace of the second loop: preamble, then edges. */
  function EdgeBlocks(st: State, order: seq<string>): seq<string>
  {
    if order == [] then []
    else
      var ns := order[|order| - 1];
      EdgeBlocks(st, order[..|order| - 1]) + [Block(GroupOf(st, ns).preamble), Block(GroupOf(st, ns).edges)]
  }

  const Header: string := "digraph Ontology {\n"
  const Footer: string := "}\n"

  /** Everything written to the sink, one string per `write` call. */
  function Serialize(st: State): seq<string>
  {
    [Header] + VertexBlocks(st, st.nsOrder) + EdgeBlocks(st, st.nsOrder) + [Footer]
  }

  /** The writes of a whole run of `createDot`. */
  function Output(records: seq<Record>, children: bool): seq<string>
  {
    Serialize(Load(records, children))
  }
}
