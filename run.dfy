/**
 * A whole run of `createDot`, both passes over the records, against
 * independent descriptions of its result: the ids in the order they are
 * first referenced, the children filed under each parent label, the vertex
 * lines of each namespace and the edge lines of each namespace.
 */
module RunProps {
  import opened Options
  import opened Names
  import opened Labels
  import opened DotModel
  import opened LabelProps
  import opened WalkProps
  import opened StepProps

  // The references each pass labels, in order

  /** The ids `handleEntity` looks up for one record: its own, then its parent's. */
  function RecordEntityRefs(rec: Record): seq<string>
  {
    match rec
    case Entity(id, parent) => [Depurl(id)] + (if HasParent(parent) then [Depurl(parent.value)] else [])
    case Verb(_, _) => []
  }

  function EntityRefs(records: seq<Record>): seq<string>
  {
    if records == [] then []
    else EntityRefs(records[..|records| - 1]) + RecordEntityRefs(records[|records| - 1])
  }

  /** The ids of the pairs of an `allowed` list: `from`, then `to`, pair after pair. */
  function PairRefs(pairs: seq<Pair>): seq<string>
  {
    if pairs == [] then []
    else
      var p := pairs[|pairs| - 1];
      PairRefs(pairs[..|pairs| - 1]) + [Depurl(p.from), Depurl(p.to)]
  }

  function RecordVerbRefs(rec: Record): seq<string>
  {
    match rec
    case Verb(_, Some(pairs)) => PairRefs(pairs)
    case _ => []
  }

  function VerbRefs(records: seq<Record>): seq<string>
  {
    if records == [] then []
    else VerbRefs(records[..|records| - 1]) + RecordVerbRefs(records[|records| - 1])
  }

  /** Every id referenced anywhere in the records, in the order the two passes look them up. */
  function AllRefs(records: seq<Record>): seq<string>
  {
    EntityRefs(records) + VerbRefs(records)
  }

  // Labels

  lemma EntitySeenFirst(refs: seq<string>, id: string, parent: Option<string>)
    ensures EntitySeen(FirstSeen(refs), id, parent) == FirstSeen(refs + RecordEntityRefs(Entity(id, parent)))
  {
    FirstSeenPush(refs, Depurl(id));
    if HasParent(parent) {
      FirstSeenPush(refs + [Depurl(id)], Depurl(parent.value));
      assert RecordEntityRefs(Entity(id, parent)) == [Depurl(id)] + [Depurl(parent.value)];
      ConcatAssoc(refs, [Depurl(id)], [Depurl(parent.value)]);
    } else {
      assert refs + RecordEntityRefs(Entity(id, parent)) == refs + [Depurl(id)];
    }
  }

  /**
   * The first pass labels the ids in the order the entity records mention
   * them, each entity before its parent.
   */
  lemma {:induction false} EntityPassLabelled(records: seq<Record>)
    ensures Labelled(EntityPass(Init, records), FirstSeen(EntityRefs(records)))
  {
    if records == [] {
      InitLabelled();
    } else {
      var init, rec := records[..|records| - 1], records[|records| - 1];
      EntityPassLabelled(init);
      EntityStepLabelled(EntityPass(Init, init), EntityRefs(init), rec);
    }
  }

  lemma EntityStepLabelled(st: State, refs: seq<string>, rec: Record)
    requires Labelled(st, FirstSeen(refs))
    ensures Labelled(EntityStep(st, rec), FirstSeen(refs + RecordEntityRefs(rec)))
  {
    match rec
    case Entity(id, parent) =>
      HandleEntityLabelled(st, FirstSeen(refs), id, parent);
      EntitySeenFirst(refs, id, parent);
    case Verb(_, _) =>
      assert refs + RecordEntityRefs(rec) == refs;
  }

  /** Labelling both ends of a pair notes `from`, then `to`. */
  lemma LabelPairLabelled(st: State, refs: seq<string>, p: Pair)
    requires Labelled(st, FirstSeen(refs))
    ensures Labelled(LabelPair(st, p), FirstSeen(refs + [Depurl(p.from), Depurl(p.to)]))
  {
    FirstSeenLabelled(st, refs, p.from);
    FirstSeenLabelled(GetId(st, p.from).st, refs + [Depurl(p.from)], p.to);
    TwoMore(refs, Depurl(p.from), Depurl(p.to));
  }

  lemma TwoMore(refs: seq<string>, x: string, y: string)
    ensures refs + [x] + [y] == refs + [x, y]
  {
  }

  /** `handleVerb` labels the ends of its pairs in order and nothing else. */
  lemma {:induction false} HandlePairsLabelled(st: State, refs: seq<string>, verbId: string, pairs: seq<Pair>, children: bool, fuel: nat)
    requires Labelled(st, FirstSeen(refs)) && ChildrenLabelled(st.idMap, st.childMap)
    ensures Labelled(HandlePairs(st, verbId, pairs, children, fuel), FirstSeen(refs + PairRefs(pairs)))
  {
    if pairs == [] {
      assert refs + PairRefs(pairs) == refs;
    } else {
      var init, p := pairs[..|pairs| - 1], pairs[|pairs| - 1];
      HandlePairsLabelled(st, refs, verbId, init, children, fuel);
      HandlePairsLabels(st, verbId, init, children, fuel);
      PairLabelled(HandlePairs(st, verbId, init, children, fuel), refs + PairRefs(init), verbId, p, children, fuel);
      PairRefsSnoc(refs, init, p);
    }
  }

  lemma PairRefsSnoc(refs: seq<string>, init: seq<Pair>, p: Pair)
    ensures refs + PairRefs(init + [p]) == refs + PairRefs(init) + [Depurl(p.from), Depurl(p.to)]
  {
    assert (init + [p])[..|init|] == init;
  }

  lemma PairLabelled(st: State, refs: seq<string>, verbId: string, p: Pair, children: bool, fuel: nat)
    requires Labelled(st, FirstSeen(refs)) && ChildrenLabelled(st.idMap, st.childMap)
    ensures Labelled(HandlePair(st, verbId, p, children, fuel), FirstSeen(refs + [Depurl(p.from), Depurl(p.to)]))
  {
    var l := LabelPair(st, p);
    LabelPairLabelled(st, refs, p);
    HandlePairIsEdges(st, verbId, p, children, fuel);
    AddEdgesFacts(l, GetNS(verbId), PairEdges(l.idMap, l.childMap, verbId, p, children, fuel));
    SameLabelsLabelled(l, HandlePair(st, verbId, p, children, fuel), FirstSeen(refs + [Depurl(p.from), Depurl(p.to)]));
  }

  /**
   * The second pass labels the ends of every pair of every verb, in
   * order, and keeps the child map and every earlier label.
   */
  lemma {:induction false} VerbPassLabelled(st: State, refs: seq<string>, records: seq<Record>, children: bool, fuel: nat)
    requires Labelled(st, FirstSeen(refs)) && ChildrenLabelled(st.idMap, st.childMap)
    ensures var r := VerbPass(st, records, children, fuel);
      && Labelled(r, FirstSeen(refs + VerbRefs(records)))
      && Extends(st.idMap, r.idMap)
      && r.childMap == st.childMap
  {
    if records == [] {
      assert refs + VerbRefs(records) == refs;
    } else {
      var init, rec := records[..|records| - 1], records[|records| - 1];
      VerbPassLabelled(st, refs, init, children, fuel);
      var st1 := VerbPass(st, init, children, fuel);
      ExtendsChildrenLabelled(st.idMap, st1.idMap, st.childMap);
      VerbStepLabelled(st1, refs + VerbRefs(init), rec, children, fuel);
      ExtendsTrans(st.idMap, st1.idMap, VerbStep(st1, rec, children, fuel).idMap);
      VerbRefsSnoc(refs, records);
    }
  }

  lemma VerbRefsSnoc(refs: seq<string>, records: seq<Record>)
    requires records != []
    ensures refs + VerbRefs(records) == refs + VerbRefs(records[..|records| - 1]) + RecordVerbRefs(records[|records| - 1])
  {
    var a, b := VerbRefs(records[..|records| - 1]), RecordVerbRefs(records[|records| - 1]);
    assert VerbRefs(records) == a + b;
    ConcatAssoc(refs, a, b);
  }

  lemma VerbStepLabelled(st: State, refs: seq<string>, rec: Record, children: bool, fuel: nat)
    requires Labelled(st, FirstSeen(refs)) && ChildrenLabelled(st.idMap, st.childMap)
    ensures var r := VerbStep(st, rec, children, fuel);
      && Labelled(r, FirstSeen(refs + RecordVerbRefs(rec)))
      && Extends(st.idMap, r.idMap)
      && r.childMap == st.childMap
  {
    match rec
    case Entity(_, _) =>
      assert refs + RecordVerbRefs(rec) == refs;
    case Verb(id, allowed) =>
      if allowed.Some? {
        HandlePairsLabelled(st, refs, id, allowed.value, children, fuel);
        HandlePairsLabels(st, id, allowed.value, children, fuel);
      } else {
        assert refs + RecordVerbRefs(rec) == refs;
      }
  }

  lemma ExtendsTrans(m0: map<string, string>, m1: map<string, string>, m2: map<string, string>)
    requires Extends(m0, m1) && Extends(m1, m2)
    ensures Extends(m0, m2)
  {
  }

  // The first pass: the child map and the vertex lines

  /** Every id of `refs` has a label in `m`. */
  ghost predicate RefsIn(m: map<string, string>, refs: seq<string>)
  {
    forall x :: x in refs ==> x in m
  }

  lemma LabelledRefsIn(st: State, refs: seq<string>)
    requires Labelled(st, FirstSeen(refs))
    ensures RefsIn(st.idMap, refs)
  {
  }

  /** `childMap[key]`, or no children when the key was never used. */
  function ChildrenAt(cm: map<string, seq<string>>, key: string): seq<string>
  {
    if key in cm then cm[key] else []
  }

  /** The full ids of the entity records whose parent has the label `key` in `m`, in record order. */
  function ChildList(m: map<string, string>, records: seq<Record>, key: string): seq<string>
  {
    if records == [] then []
    else
      var rest := ChildList(m, records[..|records| - 1], key);
      match records[|records| - 1]
      case Entity(id, parent) =>
        if HasParent(parent) && LabelIn(m, parent.value) == key then rest + [id] else rest
      case Verb(_, _) => rest
  }

  /** The vertex lines the entity records of namespace `ns` give, in record order. */
  function EntityVertices(m: map<string, string>, records: seq<Record>, ns: string): seq<string>
  {
    if records == [] then []
    else
      var rest := EntityVertices(m, records[..|records| - 1], ns);
      match records[|records| - 1]
      case Entity(id, _) => if GetNS(id) == ns then rest + [VertexLine(LabelIn(m, id), id)] else rest
      case Verb(_, _) => rest
  }

  lemma EntityRefsSnoc(records: seq<Record>)
    requires records != []
    ensures EntityRefs(records) == EntityRefs(records[..|records| - 1]) + RecordEntityRefs(records[|records| - 1])
  {
    assert records != [];
  }

  /** Later labels do not change whose child an entity is. */
  lemma {:induction false} ChildListStable(m1: map<string, string>, m2: map<string, string>, records: seq<Record>, key: string)
    requires Extends(m1, m2) && RefsIn(m1, EntityRefs(records))
    ensures ChildList(m1, records, key) == ChildList(m2, records, key)
  {
    if records != [] {
      EntityRefsSnoc(records);
      ChildListStable(m1, m2, records[..|records| - 1], key);
    }
  }

  /** Later labels do not change the vertex lines. */
  lemma {:induction false} EntityVerticesStable(m1: map<string, string>, m2: map<string, string>, records: seq<Record>, ns: string)
    requires Extends(m1, m2) && RefsIn(m1, EntityRefs(records))
    ensures EntityVertices(m1, records, ns) == EntityVertices(m2, records, ns)
  {
    if records != [] {
      EntityRefsSnoc(records);
      EntityVerticesStable(m1, m2, records[..|records| - 1], ns);
    }
  }

  /**
   * What the first pass has built: every child filed has a label, each
   * parent label holds exactly the children the records give it, in record
   * order, a label is a key only once it has a child, the vertex lines are
   * exactly those of the entity records, and there are no edges yet.
   */
  ghost predicate EntityBuilt(st: State, records: seq<Record>)
  {
    && ChildrenLabelled(st.idMap, st.childMap)
    && (forall key :: ChildrenAt(st.childMap, key) == ChildList(st.idMap, records, key))
    && (forall key :: key in st.childMap ==> st.childMap[key] != [])
    && (forall ns :: VerticesOf(st, ns) == EntityVertices(st.idMap, records, ns))
    && (forall ns :: EdgesOf(st, ns) == [])
  }

  lemma {:induction false} EntityPassBuilt(records: seq<Record>)
    ensures EntityBuilt(EntityPass(Init, records), records)
  {
    if records != [] {
      var init, rec := records[..|records| - 1], records[|records| - 1];
      EntityPassBuilt(init);
      EntityPassLabelled(init);
      var st1 := EntityPass(Init, init);
      LabelledRefsIn(st1, EntityRefs(init));
      EntityStepBuilt(st1, init, rec);
      assert records == init + [rec];
    }
  }

  lemma EntityStepBuilt(st: State, init: seq<Record>, rec: Record)
    requires EntityBuilt(st, init) && RefsIn(st.idMap, EntityRefs(init))
    ensures EntityBuilt(EntityStep(st, rec), init + [rec])
  {
    var records := init + [rec];
    assert records[..|records| - 1] == init && records[|records| - 1] == rec;
    match rec
    case Verb(_, _) =>
      forall key ensures ChildList(st.idMap, records, key) == ChildList(st.idMap, init, key) { }
      forall ns ensures EntityVertices(st.idMap, records, ns) == EntityVertices(st.idMap, init, ns) { }
    case Entity(id, parent) =>
      if HasParent(parent) {
        ChildEntityBuilt(st, init, id, parent.value);
      } else {
        RootEntityBuilt(st, init, id, parent);
      }
  }

  lemma ChildEntityBuilt(st: State, init: seq<Record>, id: string, parent: string)
    requires EntityBuilt(st, init) && RefsIn(st.idMap, EntityRefs(init))
    requires parent != ""
    ensures EntityBuilt(HandleEntity(st, id, Some(parent)), init + [Entity(id, Some(parent))])
  {
    var r := HandleEntity(st, id, Some(parent));
    ChildEntityLines(st, id, parent);
    HandleEntityExtends(st, id, Some(parent));
    FiledChildren(st.idMap, r.idMap, st.childMap, init, id, parent);
    PushedVertices(st, r, init, id, Some(parent));
  }

  lemma RootEntityBuilt(st: State, init: seq<Record>, id: string, parent: Option<string>)
    requires EntityBuilt(st, init) && RefsIn(st.idMap, EntityRefs(init))
    requires !HasParent(parent)
    ensures EntityBuilt(HandleEntity(st, id, parent), init + [Entity(id, parent)])
  {
    var r := HandleEntity(st, id, parent);
    RootEntityLines(st, id, parent);
    HandleEntityExtends(st, id, parent);
    UnfiledChildren(st.idMap, r.idMap, st.childMap, init, id, parent);
    PushedVertices(st, r, init, id, parent);
  }

  /** Filing a child under its parent's label extends exactly that label's child list. */
  lemma FiledChildren(m0: map<string, string>, m1: map<string, string>, cm: map<string, seq<string>>, init: seq<Record>, id: string, parent: string)
    requires Extends(m0, m1) && RefsIn(m0, EntityRefs(init))
    requires parent != "" && Depurl(parent) in m1 && Depurl(id) in m1
    requires ChildrenLabelled(m0, cm)
    requires forall key :: ChildrenAt(cm, key) == ChildList(m0, init, key)
    requires forall key :: key in cm ==> cm[key] != []
    ensures var cm1 := FiledUnder(cm, m1[Depurl(parent)], id);
      && ChildrenLabelled(m1, cm1)
      && (forall key :: ChildrenAt(cm1, key) == ChildList(m1, init + [Entity(id, Some(parent))], key))
      && (forall key :: key in cm1 ==> cm1[key] != [])
  {
    var k := m1[Depurl(parent)];
    FiledLabelled(m0, m1, cm, k, id);
    forall key ensures ChildrenAt(FiledUnder(cm, k, id), key) == ChildList(m1, init + [Entity(id, Some(parent))], key) {
      FiledList(m0, m1, cm, init, id, parent, key);
    }
  }

  lemma FiledLabelled(m0: map<string, string>, m1: map<string, string>, cm: map<string, seq<string>>, k: string, id: string)
    requires Extends(m0, m1) && ChildrenLabelled(m0, cm) && Depurl(id) in m1
    ensures ChildrenLabelled(m1, FiledUnder(cm, k, id))
  {
    var cm1 := FiledUnder(cm, k, id);
    forall p, c | p in cm1 && c in cm1[p] ensures Depurl(c) in m1 {
      if p != k {
        assert cm1[p] == cm[p];
      } else if c != id {
        assert c in ChildrenAt(cm, k);
      }
    }
  }

  lemma FiledList(m0: map<string, string>, m1: map<string, string>, cm: map<string, seq<string>>, init: seq<Record>, id: string, parent: string, key: string)
    requires Extends(m0, m1) && RefsIn(m0, EntityRefs(init))
    requires parent != "" && Depurl(parent) in m1
    requires ChildrenAt(cm, key) == ChildList(m0, init, key)
    ensures ChildrenAt(FiledUnder(cm, m1[Depurl(parent)], id), key) == ChildList(m1, init + [Entity(id, Some(parent))], key)
  {
    var records := init + [Entity(id, Some(parent))];
    assert records[..|records| - 1] == init;
    ChildListStable(m0, m1, init, key);
  }

  /** An entity without a parent files nothing. */
  lemma UnfiledChildren(m0: map<string, string>, m1: map<string, string>, cm: map<string, seq<string>>, init: seq<Record>, id: string, parent: Option<string>)
    requires Extends(m0, m1) && RefsIn(m0, EntityRefs(init)) && !HasParent(parent)
    requires ChildrenLabelled(m0, cm)
    requires forall key :: ChildrenAt(cm, key) == ChildList(m0, init, key)
    ensures ChildrenLabelled(m1, cm)
    ensures forall key :: ChildrenAt(cm, key) == ChildList(m1, init + [Entity(id, parent)], key)
  {
    var records := init + [Entity(id, parent)];
    assert records[..|records| - 1] == init;
    forall key ensures ChildrenAt(cm, key) == ChildList(m1, records, key) {
      ChildListStable(m0, m1, init, key);
    }
  }

  /** One more vertex line, in the entity's namespace, is one more entity record. */
  lemma PushedVertices(st: State, r: State, init: seq<Record>, id: string, parent: Option<string>)
    requires Extends(st.idMap, r.idMap) && RefsIn(st.idMap, EntityRefs(init)) && Depurl(id) in r.idMap
    requires forall ns :: VerticesOf(st, ns) == EntityVertices(st.idMap, init, ns)
    requires VerticesOf(r, GetNS(id)) == VerticesOf(st, GetNS(id)) + [VertexLine(r.idMap[Depurl(id)], id)]
    requires forall x :: x != GetNS(id) ==> VerticesOf(r, x) == VerticesOf(st, x)
    ensures forall ns :: VerticesOf(r, ns) == EntityVertices(r.idMap, init + [Entity(id, parent)], ns)
  {
    var records := init + [Entity(id, parent)];
    assert records[..|records| - 1] == init;
    forall ns ensures VerticesOf(r, ns) == EntityVertices(r.idMap, records, ns) {
      EntityVerticesStable(st.idMap, r.idMap, init, ns);
    }
  }

  // The second pass: the edge lines

  /** The edge lines one record gives in namespace `ns`: those of its pairs, for a verb of `ns` with an `allowed` list. */
  function RecordEdges(m: map<string, string>, cm: map<string, seq<string>>, rec: Record, ns: string, children: bool, fuel: nat): seq<string>
  {
    match rec
    case Verb(id, Some(pairs)) => if GetNS(id) == ns then PairsEdges(m, cm, id, pairs, children, fuel) else []
    case _ => []
  }

  /** The edge lines the verb records of namespace `ns` give, in record order. */
  function VerbEdges(m: map<string, string>, cm: map<string, seq<string>>, records: seq<Record>, ns: string, children: bool, fuel: nat): seq<string>
  {
    if records == [] then []
    else VerbEdges(m, cm, records[..|records| - 1], ns, children, fuel) + RecordEdges(m, cm, records[|records| - 1], ns, children, fuel)
  }

  lemma {:induction false} PairRefsLabelled(m: map<string, string>, pairs: seq<Pair>)
    ensures RefsIn(m, PairRefs(pairs)) <==> PairsLabelled(m, pairs)
  {
    if pairs != [] {
      var init, p := pairs[..|pairs| - 1], pairs[|pairs| - 1];
      PairRefsLabelled(m, init);
      assert pairs == init + [p];
      assert forall q :: q in pairs <==> q in init || q == p;
    }
  }

  /** Later labels do not change the edges of verbs whose pairs were labelled. */
  lemma {:induction false} VerbEdgesStable(m1: map<string, string>, m2: map<string, string>, cm: map<string, seq<string>>, records: seq<Record>, ns: string, children: bool, fuel: nat)
    requires Extends(m1, m2) && ChildrenLabelled(m1, cm) && RefsIn(m1, VerbRefs(records))
    ensures VerbEdges(m1, cm, records, ns, children, fuel) == VerbEdges(m2, cm, records, ns, children, fuel)
  {
    if records != [] {
      var init, rec := records[..|records| - 1], records[|records| - 1];
      VerbRefsSnoc([], records);
      assert VerbRefs(records) == VerbRefs(init) + RecordVerbRefs(rec);
      VerbEdgesStable(m1, m2, cm, init, ns, children, fuel);
      match rec
      case Verb(id, Some(pairs)) =>
        PairRefsLabelled(m1, pairs);
        PairsEdgesStable(m1, m2, cm, id, pairs, children, fuel);
      case _ =>
    }
  }

  /**
   * The second pass keeps every label and the child map, labels every id
   * its pairs reference, and touches no vertex line.
   */
  lemma {:induction false} VerbPassKeeps(st: State, records: seq<Record>, children: bool, fuel: nat)
    requires ChildrenLabelled(st.idMap, st.childMap)
    ensures var r := VerbPass(st, records, children, fuel);
      && Extends(st.idMap, r.idMap)
      && r.childMap == st.childMap
      && RefsIn(r.idMap, VerbRefs(records))
      && (forall ns :: VerticesOf(r, ns) == VerticesOf(st, ns))
  {
    if records != [] {
      var init, rec := records[..|records| - 1], records[|records| - 1];
      VerbPassKeeps(st, init, children, fuel);
      var st1 := VerbPass(st, init, children, fuel);
      ExtendsChildrenLabelled(st.idMap, st1.idMap, st.childMap);
      VerbStepKeeps(st1, rec, children, fuel);
      var r := VerbStep(st1, rec, children, fuel);
      ExtendsTrans(st.idMap, st1.idMap, r.idMap);
      VerbRefsSnoc([], records);
      assert VerbRefs(records) == VerbRefs(init) + RecordVerbRefs(rec);
    }
  }

  lemma VerbStepKeeps(st: State, rec: Record, children: bool, fuel: nat)
    requires ChildrenLabelled(st.idMap, st.childMap)
    ensures var r := VerbStep(st, rec, children, fuel);
      && Extends(st.idMap, r.idMap)
      && r.childMap == st.childMap
      && RefsIn(r.idMap, RecordVerbRefs(rec))
      && (forall ns :: VerticesOf(r, ns) == VerticesOf(st, ns))
  {
    match rec
    case Verb(id, Some(pairs)) =>
      HandlePairsLabels(st, id, pairs, children, fuel);
      HandlePairsElsewhere(st, id, pairs, children, fuel);
      PairRefsLabelled(HandlePairs(st, id, pairs, children, fuel).idMap, pairs);
    case _ =>
  }

  lemma VerbStepEdges(st: State, rec: Record, children: bool, fuel: nat, ns: string)
    requires ChildrenLabelled(st.idMap, st.childMap)
    ensures var r := VerbStep(st, rec, children, fuel);
      EdgesOf(r, ns) == EdgesOf(st, ns) + RecordEdges(r.idMap, r.childMap, rec, ns, children, fuel)
  {
    match rec
    case Verb(id, Some(pairs)) =>
      HandlePairsElsewhere(st, id, pairs, children, fuel);
      HandlePairsEdges(st, id, pairs, children, fuel);
      if ns != GetNS(id) {
        assert EdgesOf(st, ns) + [] == EdgesOf(st, ns);
      }
    case _ =>
      assert EdgesOf(st, ns) + [] == EdgesOf(st, ns);
  }

  /**
   * The second pass appends to each namespace's edge list exactly the
   * edges its verb records give, in record order.
   */
  lemma {:induction false} VerbPassEdges(st: State, records: seq<Record>, children: bool, fuel: nat, ns: string)
    requires ChildrenLabelled(st.idMap, st.childMap)
    ensures var r := VerbPass(st, records, children, fuel);
      EdgesOf(r, ns) == EdgesOf(st, ns) + VerbEdges(r.idMap, r.childMap, records, ns, children, fuel)
  {
    if records == [] {
      assert EdgesOf(st, ns) + [] == EdgesOf(st, ns);
    } else {
      var init, rec := records[..|records| - 1], records[|records| - 1];
      VerbPassEdges(st, init, children, fuel, ns);
      VerbPassKeeps(st, init, children, fuel);
      var st1 := VerbPass(st, init, children, fuel);
      ExtendsChildrenLabelled(st.idMap, st1.idMap, st.childMap);
      VerbStepKeeps(st1, rec, children, fuel);
      VerbStepEdges(st1, rec, children, fuel, ns);
      var r := VerbStep(st1, rec, children, fuel);
      VerbEdgesStable(st1.idMap, r.idMap, st.childMap, init, ns, children, fuel);
      ConcatAssoc(EdgesOf(st, ns), VerbEdges(r.idMap, r.childMap, init, ns, children, fuel), RecordEdges(r.idMap, r.childMap, rec, ns, children, fuel));
    }
  }
}
