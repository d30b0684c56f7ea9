/**
 * What a whole run of `createDot` has gathered once both passes are over:
 * the labels, the child map, and every namespace's vertex and edge lines.
 */
module LoadProps {
  import opened Options
  import opened Names
  import opened Labels
  import opened DotModel
  import opened LabelProps
  import opened WalkProps
  import opened StepProps
  import opened RunProps

  /** The state after the first pass. */
  function AfterEntities(records: seq<Record>): State
  {
    EntityPass(Init, records)
  }

  lemma AfterEntitiesFacts(records: seq<Record>)
    ensures Labelled(AfterEntities(records), FirstSeen(EntityRefs(records)))
    ensures EntityBuilt(AfterEntities(records), records)
    ensures RefsIn(AfterEntities(records).idMap, EntityRefs(records))
  {
    EntityPassLabelled(records);
    EntityPassBuilt(records);
    LabelledRefsIn(AfterEntities(records), EntityRefs(records));
  }

  /**
   * Every id the records reference is labelled, in the order the two
   * passes first look it up: the i-th distinct id takes `LabelOf(i)`.
   */
  lemma LoadLabels(records: seq<Record>, children: bool)
    ensures Labelled(Load(records, children), FirstSeen(AllRefs(records)))
    ensures Extends(AfterEntities(records).idMap, Load(records, children).idMap)
    ensures Load(records, children).childMap == AfterEntities(records).childMap
  {
    AfterEntitiesFacts(records);
    VerbPassLabelled(AfterEntities(records), EntityRefs(records), records, children, WalkDepth(records));
  }

  /**
   * The entities are labelled before any verb: the ids of the entity
   * records, in their first-seen order, take the first labels.
   */
  lemma EntityLabelsFirst(records: seq<Record>, children: bool, i: nat)
    requires i < |FirstSeen(EntityRefs(records))|
    ensures var x := FirstSeen(EntityRefs(records))[i];
      x in Load(records, children).idMap && Load(records, children).idMap[x] == LabelOf(i)
  {
    LoadLabels(records, children);
    FirstSeenPrefix(EntityRefs(records), VerbRefs(records));
    assert FirstSeen(EntityRefs(records))[i] == FirstSeen(AllRefs(records))[i];
  }

  /** With at most 702 distinct ids, no two ids share a label. */
  lemma LoadUnique(records: seq<Record>, children: bool, x: string, y: string)
    requires |FirstSeen(AllRefs(records))| <= MaxLabels
    requires x in Load(records, children).idMap && y in Load(records, children).idMap && x != y
    ensures Load(records, children).idMap[x] != Load(records, children).idMap[y]
  {
    LoadLabels(records, children);
    LabelledUnique(Load(records, children), FirstSeen(AllRefs(records)), x, y);
  }

  /**
   * The child map after a run: each label holds, in record order, the
   * full ids of the entity records whose parent has that label.
   */
  lemma LoadChildren(records: seq<Record>, children: bool, key: string)
    ensures var l := Load(records, children);
      ChildrenAt(l.childMap, key) == ChildList(l.idMap, records, key)
  {
    AfterEntitiesFacts(records);
    LoadLabels(records, children);
    ChildListStable(AfterEntities(records).idMap, Load(records, children).idMap, records, key);
  }

  /** The vertex lines of a namespace: one per entity record of it, in record order. */
  lemma LoadVertices(records: seq<Record>, children: bool, ns: string)
    ensures var l := Load(records, children);
      VerticesOf(l, ns) == EntityVertices(l.idMap, records, ns)
  {
    var e := AfterEntities(records);
    AfterEntitiesFacts(records);
    VerbPassKeeps(e, records, children, WalkDepth(records));
    EntityVerticesStable(e.idMap, Load(records, children).idMap, records, ns);
  }

  /**
   * The edge lines of a namespace: those of its verb records, in record
   * order, each pair giving its direct edge and then its walks.
   */
  lemma LoadEdges(records: seq<Record>, children: bool, ns: string)
    ensures var l := Load(records, children);
      EdgesOf(l, ns) == VerbEdges(l.idMap, l.childMap, records, ns, children, WalkDepth(records))
  {
    var e := AfterEntities(records);
    AfterEntitiesFacts(records);
    VerbPassEdges(e, records, children, WalkDepth(records), ns);
  }

  // Pass order: every entity is handled before any verb

  /** The entity records, in order. */
  function Entities(records: seq<Record>): seq<Record>
  {
    if records == [] then []
    else
      var rest := Entities(records[..|records| - 1]);
      if records[|records| - 1].Entity? then rest + [records[|records| - 1]] else rest
  }

  /** The verb records, in order. */
  function Verbs(records: seq<Record>): seq<Record>
  {
    if records == [] then []
    else
      var rest := Verbs(records[..|records| - 1]);
      if records[|records| - 1].Verb? then rest + [records[|records| - 1]] else rest
  }

  /** Splitting the records into entities and verbs loses none and adds none. */
  lemma {:induction false} SplitCounts(records: seq<Record>)
    ensures |Entities(records)| + |Verbs(records)| == |records|
    ensures forall r :: r in Entities(records) ==> r.Entity? && r in records
    ensures forall r :: r in Verbs(records) ==> r.Verb? && r in records
    ensures multiset(Entities(records)) + multiset(Verbs(records)) == multiset(records)
  {
    if records != [] {
      var init := records[..|records| - 1];
      SplitCounts(init);
      assert records == init + [records[|records| - 1]];
    }
  }

  lemma {:induction false} EntityPassAppend(st: State, a: seq<Record>, b: seq<Record>)
    ensures EntityPass(st, a + b) == EntityPass(EntityPass(st, a), b)
  {
    if b == [] {
      assert a + b == a;
    } else {
      var init := b[..|b| - 1];
      assert (a + b)[..|a + b| - 1] == a + init;
      EntityPassAppend(st, a, init);
    }
  }

  lemma {:induction false} VerbPassAppend(st: State, a: seq<Record>, b: seq<Record>, children: bool, fuel: nat)
    ensures VerbPass(st, a + b, children, fuel) == VerbPass(VerbPass(st, a, children, fuel), b, children, fuel)
  {
    if b == [] {
      assert a + b == a;
    } else {
      var init := b[..|b| - 1];
      assert (a + b)[..|a + b| - 1] == a + init;
      VerbPassAppend(st, a, init, children, fuel);
    }
  }

  /** The first pass sees only the entity records and the second only the verbs. */
  lemma {:induction false} PassesFilter(st: State, records: seq<Record>, children: bool, fuel: nat)
    ensures EntityPass(st, records) == EntityPass(st, Entities(records))
    ensures EntityPass(st, Verbs(records)) == st
    ensures VerbPass(st, records, children, fuel) == VerbPass(st, Verbs(records), children, fuel)
    ensures VerbPass(st, Entities(records), children, fuel) == st
  {
    if records != [] {
      var init, rec := records[..|records| - 1], records[|records| - 1];
      PassesFilter(st, init, children, fuel);
      var es, vs := Entities(init), Verbs(init);
      if rec.Entity? {
        assert (es + [rec])[..|es|] == es;
      } else {
        assert (vs + [rec])[..|vs|] == vs;
      }
    }
  }

  /**
   * The run is the same as if all the entity records came first, then all
   * the verb records: the first pass completes before the second begins.
   */
  lemma PassOrder(records: seq<Record>, children: bool)
    ensures Load(records, children) == Load(Entities(records) + Verbs(records), children)
  {
    var es, vs := Entities(records), Verbs(records);
    var fuel := WalkDepth(records);
    SplitCounts(records);
    assert WalkDepth(es + vs) == fuel;
    EntityPassAppend(Init, es, vs);
    PassesFilter(Init, records, children, fuel);
    PassesFilter(EntityPass(Init, es), records, children, fuel);
    var e := EntityPass(Init, records);
    VerbPassAppend(e, es, vs, children, fuel);
    PassesFilter(e, records, children, fuel);
  }
}
