/**
 * The order of the namespaces: a group is created the first time a vertex
 * or an edge is pushed for its namespace, so `nsOrder` lists the
 * namespaces of the entity records, then those of the verbs that have at
 * least one allowed pair, each at its first sighting.
 */
module NamespaceOrder {
  import opened Options
  import opened Names
  import opened Labels
  import opened DotModel
  import opened LabelProps

  /** The groups are exactly the namespaces of `nsOrder`. */
  ghost predicate Tracked(st: State)
  {
    forall x :: x in st.namespaces <==> x in st.nsOrder
  }

  /** `r` has the groups and the order of `st`. */
  ghost predicate Keeps(st: State, r: State)
  {
    r.nsOrder == st.nsOrder && forall x :: x in r.namespaces <==> x in st.namespaces
  }

  /** `r` has the groups of `st` and one for `ns`, which the order gains when it is new. */
  ghost predicate Opens(st: State, r: State, ns: string)
  {
    r.nsOrder == Note(st.nsOrder, ns) && forall x :: x in r.namespaces <==> x in st.namespaces || x == ns
  }

  lemma OpensTracked(st: State, r: State, ns: string)
    requires Tracked(st) && Opens(st, r, ns)
    ensures Tracked(r)
  {
  }

  lemma GetIdKeeps(st: State, s: string)
    ensures Keeps(st, GetId(st, s).st)
  {
    GetIdFacts(st, s);
  }

  /** Pushing a vertex line opens the namespace's group. */
  lemma AddVertexOpens(st: State, ns: string, line: string)
    requires Tracked(st)
    ensures Opens(st, AddVertexData(st, ns, line), ns)
  {
    AddVertexFacts(st, ns, line);
    CreateNamespaceFacts(st, ns);
  }

  /** Pushing an edge line opens the namespace's group. */
  lemma AddEdgeOpens(st: State, ns: string, line: string)
    requires Tracked(st)
    ensures Opens(st, AddEdgeData(st, ns, line), ns)
  {
    AddEdgeFacts(st, ns, line);
    CreateNamespaceFacts(st, ns);
  }

  /** `handleEntity` opens the group of the entity's namespace and no other. */
  lemma HandleEntityOpens(st: State, id: string, parent: Option<string>)
    requires Tracked(st)
    ensures Opens(st, HandleEntity(st, id, parent), GetNS(id))
  {
    var g := GetId(st, id);
    GetIdKeeps(st, id);
    var st2 := g.st;
    if HasParent(parent) {
      var p := GetId(g.st, parent.value);
      GetIdKeeps(g.st, parent.value);
      st2 := AddChild(p.st, p.name, id);
    }
    AddVertexOpens(st2, GetNS(id), VertexLine(g.name, id));
  }

  /** An edge of the walk goes to the verb's namespace, whose group is already open. */
  lemma ChildEdgeKeeps(st: State, verbId: string, child: string, dir: Direction, target: string)
    requires Tracked(st) && GetNS(verbId) in st.namespaces
    ensures Keeps(st, ChildEdge(st, verbId, child, dir, target))
  {
    var a := GetId(st, child);
    GetIdKeeps(st, child);
    var b := GetId(a.st, target);
    GetIdKeeps(a.st, target);
    AddEdgeOpens(b.st, GetNS(verbId), EdgeLine(if dir == FromSide then a.name else b.name, if dir == FromSide then b.name else a.name, Depurl(verbId)));
  }

  lemma {:induction false} DoChildrenKeeps(st: State, verbId: string, node: string, dir: Direction, target: string, fuel: nat)
    requires Tracked(st) && GetNS(verbId) in st.namespaces
    ensures Keeps(st, DoChildren(st, verbId, node, dir, target, fuel))
    decreases fuel, 0
  {
    if fuel > 0 {
      WalkKeeps(st, verbId, node, dir, target, fuel - 1);
    }
  }

  lemma {:induction false} WalkKeeps(st: State, verbId: string, node: string, dir: Direction, target: string, below: nat)
    requires Tracked(st) && GetNS(verbId) in st.namespaces
    ensures Keeps(st, DoChildren(st, verbId, node, dir, target, below + 1))
    decreases below, 2
  {
    var n := GetId(st, node);
    GetIdKeeps(st, node);
    var t := GetId(n.st, target);
    GetIdKeeps(n.st, target);
    if n.name in t.st.childMap {
      DoChildListKeeps(t.st, verbId, t.st.childMap[n.name], dir, target, below);
    }
  }

  lemma {:induction false} DoChildListKeeps(st: State, verbId: string, cs: seq<string>, dir: Direction, target: string, fuel: nat)
    requires Tracked(st) && GetNS(verbId) in st.namespaces
    ensures Keeps(st, DoChildList(st, verbId, cs, dir, target, fuel))
    decreases fuel, 1, |cs|
  {
    if cs != [] {
      var c := cs[|cs| - 1];
      DoChildListKeeps(st, verbId, cs[..|cs| - 1], dir, target, fuel);
      var st1 := DoChildList(st, verbId, cs[..|cs| - 1], dir, target, fuel);
      ChildEdgeKeeps(st1, verbId, c, dir, target);
      var st2 := ChildEdge(st1, verbId, c, dir, target);
      DoChildrenKeeps(st2, verbId, c, dir, target, fuel);
    }
  }

  /** One allowed pair opens the verb's namespace, and the walks open nothing more. */
  lemma HandlePairOpens(st: State, verbId: string, p: Pair, children: bool, fuel: nat)
    requires Tracked(st)
    ensures Opens(st, HandlePair(st, verbId, p, children, fuel), GetNS(verbId))
  {
    var ns := GetNS(verbId);
    var f := GetId(st, p.from);
    GetIdKeeps(st, p.from);
    var t := GetId(f.st, p.to);
    GetIdKeeps(f.st, p.to);
    var st1 := AddEdgeData(t.st, ns, EdgeLine(f.name, t.name, Depurl(verbId)));
    AddEdgeOpens(t.st, ns, EdgeLine(f.name, t.name, Depurl(verbId)));
    if children {
      DoChildrenKeeps(st1, verbId, p.from, FromSide, p.to, fuel);
      var st2 := DoChildren(st1, verbId, p.from, FromSide, p.to, fuel);
      DoChildrenKeeps(st2, verbId, p.to, ToSide, p.from, fuel);
    }
  }

  /** A verb with pairs opens its namespace; an empty `allowed` list opens nothing. */
  lemma {:induction false} HandlePairsOpens(st: State, verbId: string, pairs: seq<Pair>, children: bool, fuel: nat)
    requires Tracked(st)
    ensures var r := HandlePairs(st, verbId, pairs, children, fuel);
      if pairs == [] then r == st else Opens(st, r, GetNS(verbId))
  {
    if pairs != [] {
      var init := pairs[..|pairs| - 1];
      HandlePairsOpens(st, verbId, init, children, fuel);
      var st1 := HandlePairs(st, verbId, init, children, fuel);
      if init != [] {
        OpensTracked(st, st1, GetNS(verbId));
      }
      HandlePairOpens(st1, verbId, pairs[|pairs| - 1], children, fuel);
    }
  }

  /** The namespace an entity record is filed under, if any. */
  function RecordEntityNs(rec: Record): seq<string>
  {
    if rec.Entity? then [GetNS(rec.id)] else []
  }

  /** The namespace a verb record draws edges in, if it has an allowed pair. */
  function RecordVerbNs(rec: Record): seq<string>
  {
    if rec.Verb? && rec.allowed.Some? && rec.allowed.value != [] then [GetNS(rec.id)] else []
  }

  function EntityNs(records: seq<Record>): seq<string>
  {
    if records == [] then [] else EntityNs(records[..|records| - 1]) + RecordEntityNs(records[|records| - 1])
  }

  function VerbNs(records: seq<Record>): seq<string>
  {
    if records == [] then [] else VerbNs(records[..|records| - 1]) + RecordVerbNs(records[|records| - 1])
  }

  /** Opening a group for `ns` is noting one more namespace sighting. */
  lemma OpensFirstSeen(st: State, r: State, refs: seq<string>, more: seq<string>)
    requires Tracked(st) && st.nsOrder == FirstSeen(refs)
    requires if more == [] then r == st else |more| == 1 && Opens(st, r, more[0])
    ensures Tracked(r) && r.nsOrder == FirstSeen(refs + more)
  {
    if more == [] {
      assert refs + more == refs;
    } else {
      assert more == [more[0]];
      FirstSeenPush(refs, more[0]);
    }
  }

  lemma EntityNsSnoc(refs: seq<string>, records: seq<Record>)
    requires records != []
    ensures refs + EntityNs(records) == refs + EntityNs(records[..|records| - 1]) + RecordEntityNs(records[|records| - 1])
  {
    var a, b := EntityNs(records[..|records| - 1]), RecordEntityNs(records[|records| - 1]);
    assert EntityNs(records) == a + b;
    ConcatAssoc(refs, a, b);
  }

  lemma VerbNsSnoc(refs: seq<string>, records: seq<Record>)
    requires records != []
    ensures refs + VerbNs(records) == refs + VerbNs(records[..|records| - 1]) + RecordVerbNs(records[|records| - 1])
  {
    var a, b := VerbNs(records[..|records| - 1]), RecordVerbNs(records[|records| - 1]);
    assert VerbNs(records) == a + b;
    ConcatAssoc(refs, a, b);
  }

  /** One record of the first pass notes its entity's namespace. */
  lemma EntityStepOrder(st: State, refs: seq<string>, rec: Record)
    requires Tracked(st) && st.nsOrder == FirstSeen(refs)
    ensures var r := EntityStep(st, rec);
      Tracked(r) && r.nsOrder == FirstSeen(refs + RecordEntityNs(rec))
  {
    if rec.Entity? {
      HandleEntityOpens(st, rec.id, rec.parent);
    }
    OpensFirstSeen(st, EntityStep(st, rec), refs, RecordEntityNs(rec));
  }

  /** One record of the second pass notes its verb's namespace when it has pairs. */
  lemma VerbStepOrder(st: State, refs: seq<string>, rec: Record, children: bool, fuel: nat)
    requires Tracked(st) && st.nsOrder == FirstSeen(refs)
    ensures var r := VerbStep(st, rec, children, fuel);
      Tracked(r) && r.nsOrder == FirstSeen(refs + RecordVerbNs(rec))
  {
    if rec.Verb? && rec.allowed.Some? {
      HandlePairsOpens(st, rec.id, rec.allowed.value, children, fuel);
    }
    OpensFirstSeen(st, VerbStep(st, rec, children, fuel), refs, RecordVerbNs(rec));
  }

  lemma {:induction false} EntityPassOrder(st: State, refs: seq<string>, records: seq<Record>)
    requires Tracked(st) && st.nsOrder == FirstSeen(refs)
    ensures var r := EntityPass(st, records);
      Tracked(r) && r.nsOrder == FirstSeen(refs + EntityNs(records))
  {
    if records == [] {
      assert refs + EntityNs(records) == refs;
    } else {
      var init, rec := records[..|records| - 1], records[|records| - 1];
      EntityPassOrder(st, refs, init);
      EntityStepOrder(EntityPass(st, init), refs + EntityNs(init), rec);
      EntityNsSnoc(refs, records);
    }
  }

  lemma {:induction false} VerbPassOrder(st: State, refs: seq<string>, records: seq<Record>, children: bool, fuel: nat)
    requires Tracked(st) && st.nsOrder == FirstSeen(refs)
    ensures var r := VerbPass(st, records, children, fuel);
      Tracked(r) && r.nsOrder == FirstSeen(refs + VerbNs(records))
  {
    if records == [] {
      assert refs + VerbNs(records) == refs;
    } else {
      var init, rec := records[..|records| - 1], records[|records| - 1];
      VerbPassOrder(st, refs, init, children, fuel);
      VerbStepOrder(VerbPass(st, init, children, fuel), refs + VerbNs(init), rec, children, fuel);
      VerbNsSnoc(refs, records);
    }
  }

  /**
   * The namespaces of a run, in the order their groups are written: the
   * entities' namespaces in record order, then those of the verbs with
   * allowed pairs, each where it is first seen.
   */
  lemma LoadOrder(records: seq<Record>, children: bool)
    ensures Load(records, children).nsOrder == FirstSeen(EntityNs(records) + VerbNs(records))
    ensures forall ns :: ns in Load(records, children).namespaces <==> ns in EntityNs(records) || ns in VerbNs(records)
  {
    LoadTracked(records, children);
  }

  lemma LoadNsOrder(records: seq<Record>, children: bool)
    ensures Load(records, children).nsOrder == FirstSeen(EntityNs(records) + VerbNs(records))
  {
    LoadTracked(records, children);
  }

  lemma LoadTracked(records: seq<Record>, children: bool)
    ensures Tracked(Load(records, children))
    ensures Load(records, children).nsOrder == FirstSeen(EntityNs(records) + VerbNs(records))
  {
    assert Init.nsOrder == FirstSeen([]);
    EntityPassOrder(Init, [], records);
    assert [] + EntityNs(records) == EntityNs(records);
    var e := EntityPass(Init, records);
    VerbPassOrder(e, EntityNs(records), records, children, WalkDepth(records));
  }
}
