# ontology-dot: a verified model of `createDot`

`createDot` (lib/ontology-dot.js) turns a parsed ontology into Graphviz DOT
text. The ontology is a list of records. Each record is either an `Entity`
(an id and an optional parent) or a `Verb` (an id and an optional `allowed`
list of `{from, to}` pairs).

**Labels.** Every id is first stripped of the `http://www.purl.org/` prefix
(`depurl`). It is then given a short label: "a" to "z", then "aa", "ab", and
so on (`getId`).

**Grouping.** Each id's namespace is the part of the stripped id before the
first `/` (`getNS`). Lines are grouped by namespace. Each group gets a
four-line preamble with the next two colours of the `paired10` scheme.
"not enough colors!" is warned once for every group created after the
colour index passes 10: the fifth group (colours 9 and 10, still inside
`paired10`) and every later one.

**Two passes.**
- The first pass handles every entity. It writes one vertex line per entity
  and files each entity under its parent's label in a child map.
- The second pass handles every verb. It writes one edge line per allowed
  pair. When the `children` option is set, it also writes one edge for
  every descendant of each end of the pair, found by walking the child map.

**Output.** The text goes to the stream in one `write` call per piece:
1. the header;
2. for each namespace in creation order, its preamble and then its vertex
   lines;
3. for each namespace again, its preamble and then its edge lines;
4. the footer.

The project has three layers:

- `names.dfy`, `labels.dfy` and `model.dfy` (modules `Names`, `Labels`,
  `DotModel`): the helpers and the state of a run as values. This is one
  function per step of the source: `GetId`, `HandleEntity`, `DoChildren`,
  `HandleVerb`, `CreateNamespace`, the two passes (`Load`) and the writes
  (`Serialize`, `Output`).
- `writer.dfy` (module `DotWriter`): the source's imperative form. The local
  variables of `createDot` are fields of a `Translator` class. Its nested
  functions are methods that change those fields. Each method is proved to
  leave the state that the matching `DotModel` function computes. The
  output stream is a `Sink` whose `Write` appends one chunk.
  `DotWriter.CreateDot` is proved to write exactly `Output(records, children)`.
- `labelprops.dfy`, `steps.dfy`, `walk.dfy`, `run.dfy`, `colors.dfy`,
  `nsorder.dfy`, `load.dfy` and `layout.dfy`: what the translation
  guarantees, proved about the `DotModel` functions. Because each method
  refines its function, these hold of the methods too.

## Model

| member | source | states |
|---|---|---|
| Names.FindFromFirst | lib/ontology-dot.js:7-9 | the prefix search returns the first occurrence at or after the start index, and returns none only when there is no occurrence |
| Names.DepurlCutsFirst | lib/ontology-dot.js:7-9 | `depurl` removes the first occurrence of the purl prefix, wherever it stands; a string without the prefix comes back unchanged |
| Names.DepurlStripsPrefix | lib/ontology-dot.js:7-9 | an id that starts with the purl prefix loses exactly that prefix |
| Names.DepurlOnlyFirst | lib/ontology-dot.js:7-9 | a string replace removes one occurrence only: a doubled prefix leaves one copy |
| Names.UpToSlashStops | lib/ontology-dot.js:12 | the first piece of `split("/")` is a prefix of the string, contains no '/', and stops at the first '/' |
| Names.GetNSBeforeSlash | lib/ontology-dot.js:11-13 | the namespace is a '/'-free prefix of the stripped id, cut exactly at its first '/' |
| Names.DecimalDigits | lib/ontology-dot.js:143-144 | the text of a colour number is a non-empty string of digits, without a leading zero unless the number is 0 |
| Names.DecimalRoundTrip | lib/ontology-dot.js:143-144 | reading the decimal text of a number back gives the number |
| Names.DecimalInjective | lib/ontology-dot.js:143-144 | distinct colour numbers have distinct texts |
| Names.JoinPush | lib/ontology-dot.js:193-198 | `join` of a list with one more line is the old join, the separator, and the new line |
| Labels.KeyAt | lib/ontology-dot.js:56 | an index inside the alphabet yields the one-letter string of the letter that many places after 'a' |
| Labels.KeyIsLetter | lib/ontology-dot.js:56 | `keys[i]` is the i-th letter of the alphabet |
| Labels.NextLabelIsLabelOf | lib/ontology-dot.js:61-69 | the label built from the counters is the closed-form label of the number of labels handed out so far |
| Labels.AdvanceCounts | lib/ontology-dot.js:65-69 | advancing the counters (with a carry at 26) counts exactly one more label and keeps the counters in range |
| Labels.LabelShape | lib/ontology-dot.js:61-69 | the first 26 labels are one letter and the next 676 are two letters, all from the alphabet |
| Labels.LabelInjective | lib/ontology-dot.js:61-69 | among the first 702 labels no two are equal |
| Labels.LabelExamples | lib/ontology-dot.js:61-69 | the 1st, 26th, 27th, 28th, 53rd and 702nd labels are "a", "z", "aa", "ab", "ba" and "zz" |
| Labels.LabelOverflowCollides | lib/ontology-dot.js:63 | past 702 ids the prefix index leaves the alphabet; the 703rd and 729th ids both get "undefineda" |
| Labels.FirstSeen | lib/ontology-dot.js:60 | the first-seen order of a list of ids has no duplicates, holds the same ids, and is no longer than the list |
| Labels.FirstSeenPrefix | lib/ontology-dot.js:161-171 | ids seen in an earlier part of the records keep their place when later records are added |
| Labels.FirstSeenPush | lib/ontology-dot.js:60 | seeing one more id adds it at the end exactly when it is new |
| DotModel.GetIdFacts | lib/ontology-dot.js:58-73 | the stripped id always ends up mapped to the returned label; a known id returns its label and changes nothing; a new id takes the next label from the counters; no other label and no other state changes |
| DotModel.CreateNamespaceFacts | lib/ontology-dot.js:142-159 | a new empty group has fill colour `colorIdx` and line colour `colorIdx + 1`; it is appended to the creation order; `colorIdx` grows by 2; a warning is counted exactly when the new index exceeds 10; no other group changes |
| DotModel.EnsureNamespaceFacts | lib/ontology-dot.js:129-131 | afterwards the group exists, and an existing group is left as it is |
| DotModel.AddVertexFacts | lib/ontology-dot.js:128-133 | exactly one line is appended to the namespace's vertices, after creating the group if needed; no other list and no preamble changes |
| DotModel.AddEdgeFacts | lib/ontology-dot.js:135-140 | exactly one line is appended to the namespace's edges, after creating the group if needed; no other list and no preamble changes |
| LabelProps.Note | lib/ontology-dot.js:60 | noting an id yields the old ids plus that one |
| LabelProps.InitLabelled | lib/ontology-dot.js:48-51 | the initial state has labelled nothing and its counters count zero labels |
| LabelProps.IndexOfUnique | lib/ontology-dot.js:58-73 | in a duplicate-free list, the position of the i-th id is i |
| LabelProps.GetIdLabelled | lib/ontology-dot.js:58-73 | `getId` keeps the invariant that the i-th distinct id seen is labelled with the i-th label, and returns the label of the id's first-seen position |
| LabelProps.NewIdLabelled | lib/ontology-dot.js:60-71 | a new id is labelled with the next label and added at the end of the seen order |
| LabelProps.LabelledUnique | lib/ontology-dot.js:58-73 | with at most 702 ids seen, distinct ids have distinct labels |
| LabelProps.FirstSeenLabelled | lib/ontology-dot.js:58-73 | labelling in first-seen order is preserved by one more lookup |
| StepProps.HandleEntityLabelled | lib/ontology-dot.js:75-85 | `handleEntity` labels the entity first and then its parent, each only when new, and keeps every earlier label |
| StepProps.HandleEntityExtends | lib/ontology-dot.js:75-85 | `handleEntity` never changes a label already given |
| StepProps.HandleEntityLines | lib/ontology-dot.js:75-85 | the entity's full id is appended to the child list of its parent's label (only when the parent is non-empty); exactly one vertex line, with the entity's label and stripped id, goes to the entity's own namespace; no edge list changes |
| StepProps.HandlePairIsEdges | lib/ontology-dot.js:89-97 | once children are labelled, handling one pair labels its ends and appends exactly that pair's edges to the verb's namespace: the direct edge from `from`'s label to `to`'s label and, only with the `children` option, then one edge per descendant of `from` towards `to` and one edge per descendant of `to` from `from` |
| StepProps.HandlePairsLabels | lib/ontology-dot.js:87-98 | handling a verb labels both ends of every pair, keeps earlier labels, and leaves the child map as it was |
| StepProps.HandlePairsElsewhere | lib/ontology-dot.js:87-98 | handling a verb touches no vertex list and no other namespace's edges |
| StepProps.HandlePairsEdges | lib/ontology-dot.js:87-98 | a verb's pairs append their edges, pair by pair and in order, to the end of the verb's namespace's edge list |
| StepProps.EmptyVerbAddsNothing | lib/ontology-dot.js:88-89 | a verb without `allowed`, or with an empty list, changes nothing and creates no group |
| WalkProps.AddEdgesFacts | lib/ontology-dot.js:124-126 | appending walk edges grows only the named namespace's edge list, by exactly those lines; labels, child map, counters and vertex lists stay the same |
| WalkProps.GetIdKnown | lib/ontology-dot.js:58-73 | looking up an already labelled id changes nothing |
| WalkProps.WalkIsExpansion | lib/ontology-dot.js:101-122 | when the node, the target and every child are labelled, `doChildren` creates no label and adds one edge per descendant of the node, depth first, to the verb's namespace (descendant on the `from` side or the `to` side as `dir` says) |
| WalkProps.ListIsExpansion | lib/ontology-dot.js:108-120 | the `forEach` over a child list adds each child's edge followed by the edges of the walk below it |
| WalkProps.DescendantsStep | lib/ontology-dot.js:106-120 | `d` is reached from `node` exactly when it is a child of `node` or is reached from such a child one level shallower |
| WalkProps.DescListMember | lib/ontology-dot.js:108-120 | `d` is reached from a child list exactly when it is one of the children or is below one of them |
| WalkProps.GrandchildReached | lib/ontology-dot.js:119 | the recursion makes the walk transitive: a grandchild is reached as well as a child |
| WalkProps.DescendantsLabelled | lib/ontology-dot.js:108-116 | every descendant the walk visits already has a label, so the walk hands out no new label |
| WalkProps.DescendantsStable | lib/ontology-dot.js:101-122 | labels given later do not change the descendants of an already labelled node |
| RunProps.EntityPassLabelled | lib/ontology-dot.js:161-166 | after the first pass the ids are labelled in the order the entity records mention them, each entity before its parent |
| RunProps.HandlePairsLabelled | lib/ontology-dot.js:87-98 | a verb labels the ends of its pairs in order, `from` before `to`, and nothing else |
| RunProps.VerbPassLabelled | lib/ontology-dot.js:167-171 | the second pass continues the same labelling with the ends of every pair of every verb, keeps earlier labels, and keeps the child map |
| RunProps.ChildListStable | lib/ontology-dot.js:77-83 | labels given later do not change whose child an entity is |
| RunProps.EntityPassBuilt | lib/ontology-dot.js:161-166 | after the first pass, every label's child list is its entity records' full ids in record order; every vertex list is the namespace's entity lines in record order; no edge exists yet |
| RunProps.PairRefsLabelled | lib/ontology-dot.js:91 | all ids referenced by a list of pairs are labelled exactly when both ends of every pair are |
| RunProps.VerbEdgesStable | lib/ontology-dot.js:87-98 | labels given later do not change the edges of verbs whose pairs were already labelled |
| RunProps.VerbPassKeeps | lib/ontology-dot.js:167-171 | the second pass keeps every label and the child map, labels every pair end, and leaves every vertex list alone |
| RunProps.VerbPassEdges | lib/ontology-dot.js:167-171 | the second pass appends to each namespace's edge list exactly the edges of that namespace's verb records, in record order |
| ColorProps.InitColored | lib/ontology-dot.js:40-55 | the initial state has no group, colour index 1 and no warning |
| ColorProps.CreateNamespaceColored | lib/ontology-dot.js:142-159 | creating a group appends it to the order and gives it the next colour pair; a warning is added exactly when it is the fifth group or a later one |
| ColorProps.CreateNamespaceOrdered | lib/ontology-dot.js:142-159 | after a new group: one group per creation-order entry, `colorIdx` is 2n+1, and the warning count is the number of groups past the fourth |
| ColorProps.CreateNamespacePainted | lib/ontology-dot.js:143-152 | the k-th group's preamble keeps fill colour 2k+1 and line colour 2k+2 |
| ColorProps.ColorsDistinct | lib/ontology-dot.js:143-152 | of any two groups, the earlier (i) has fill and line colours 2i+1 and 2i+2 in its preamble, the later (j) has 2j+1 and 2j+2, and none of the four colour texts of one equals one of the other |
| ColorProps.HandleEntityColored | lib/ontology-dot.js:75-85 | handling an entity keeps the colouring invariant |
| ColorProps.WalkColored | lib/ontology-dot.js:101-122 | the descendant walk keeps the colouring invariant |
| ColorProps.HandlePairColored | lib/ontology-dot.js:89-97 | handling one pair keeps the colouring invariant |
| ColorProps.EntityPassColored | lib/ontology-dot.js:161-166 | the first pass keeps the colouring invariant |
| ColorProps.VerbPassColored | lib/ontology-dot.js:167-171 | the second pass keeps the colouring invariant |
| ColorProps.LoadColored | lib/ontology-dot.js:142-171 | after a run there is one group per namespace in creation order, the k-th coloured 2k+1 and 2k+2, with one warning per group past the fourth |
| NamespaceOrder.GetIdKeeps | lib/ontology-dot.js:58-73 | a lookup opens no group |
| NamespaceOrder.AddVertexOpens | lib/ontology-dot.js:128-133 | pushing a vertex line opens its namespace's group (if new) and no other |
| NamespaceOrder.AddEdgeOpens | lib/ontology-dot.js:135-140 | pushing an edge line opens its namespace's group (if new) and no other |
| NamespaceOrder.HandleEntityOpens | lib/ontology-dot.js:75-85 | an entity opens the group of its own namespace and no other |
| NamespaceOrder.ChildEdgeKeeps | lib/ontology-dot.js:108-117 | a walk edge goes to the verb's already open group and opens nothing |
| NamespaceOrder.DoChildrenKeeps | lib/ontology-dot.js:101-122 | the whole walk opens no group |
| NamespaceOrder.HandlePairOpens | lib/ontology-dot.js:89-97 | one pair opens the verb's namespace and nothing more |
| NamespaceOrder.HandlePairsOpens | lib/ontology-dot.js:87-98 | a verb with pairs opens the verb's namespace only; an empty list changes nothing |
| NamespaceOrder.OpensFirstSeen | lib/ontology-dot.js:129-131 | opening a group is recording one more namespace sighting in first-seen order |
| NamespaceOrder.EntityPassOrder | lib/ontology-dot.js:161-166 | the first pass opens the entities' namespaces in first-seen record order |
| NamespaceOrder.VerbPassOrder | lib/ontology-dot.js:167-171 | the second pass opens the namespaces of verbs with pairs, in first-seen record order, after the existing groups |
| NamespaceOrder.LoadOrder | lib/ontology-dot.js:161-171 | the groups of a run, in creation order, are the first-seen order of the entities' namespaces followed by those of verbs with pairs; a group exists exactly for those namespaces |
| LoadProps.LoadLabels | lib/ontology-dot.js:161-171 | after a run the i-th distinct id referenced (entities and parents first, then pair ends) is labelled with the i-th label; the child map is the first pass's |
| LoadProps.EntityLabelsFirst | lib/ontology-dot.js:161-171 | the ids of entity records take the first labels, before any id that only a verb mentions |
| LoadProps.LoadUnique | lib/ontology-dot.js:58-73 | with at most 702 distinct ids in a run, no two ids share a label |
| LoadProps.LoadChildren | lib/ontology-dot.js:77-83 | after a run each label's child list holds, in record order, the full ids of the entities whose parent has that label |
| LoadProps.LoadVertices | lib/ontology-dot.js:84 | after a run each namespace's vertex lines are one per entity record of that namespace, in record order |
| LoadProps.LoadEdges | lib/ontology-dot.js:87-98 | after a run each namespace's edge lines are those of its verb records, in record order, each pair giving its direct edge and then its walks |
| LoadProps.SplitCounts | lib/ontology-dot.js:161-171 | the entity records and the verb records together are a permutation of the records (as multisets), each part holding only its own kind |
| LoadProps.PassesFilter | lib/ontology-dot.js:163-168 | the first pass sees only entity records and the second only verb records |
| LoadProps.PassOrder | lib/ontology-dot.js:161-171 | a run gives the same state as if all entity records came first and then all verb records |
| Layout.VertexBlockAt | lib/ontology-dot.js:192-195 | the first loop writes two pieces per namespace: its preamble, then its vertices |
| Layout.EdgeBlockAt | lib/ontology-dot.js:196-199 | the second loop writes two pieces per namespace: its preamble, then its edges |
| Layout.SerializeAt | lib/ontology-dot.js:191-200 | there are 4n+2 writes, header first and footer last; namespace k's preamble and vertices come at 2k+1 and 2k+2, and its preamble and edges at 2n+2k+1 and 2n+2k+2 |
| Layout.OutputAt | lib/ontology-dot.js:37-201 | the k-th namespace of a run, in first-seen order, carries colours 2k+1 and 2k+2; its preamble is written before its entity vertex lines and again before its verb edge lines |
| DotWriter.Sink.Write | lib/ontology-dot.js:175-177 | one write appends one chunk to the stream |
| DotWriter.Translator.constructor | lib/ontology-dot.js:38-56 | a new translator starts with empty maps, counters (-1, 0), colour index 1 and no warning |
| DotWriter.Translator.GetId | lib/ontology-dot.js:58-73 | the method leaves the state and returns the label that `DotModel.GetId` gives |
| DotWriter.Translator.CreateNamespace | lib/ontology-dot.js:142-159 | the method leaves the state `DotModel.CreateNamespace` gives |
| DotWriter.Translator.AddVertexData | lib/ontology-dot.js:128-133 | the method leaves the state `DotModel.AddVertexData` gives |
| DotWriter.Translator.AddEdgeData | lib/ontology-dot.js:135-140 | the method leaves the state `DotModel.AddEdgeData` gives |
| DotWriter.Translator.AddChild | lib/ontology-dot.js:79-82 | the child is appended to the parent label's list, and the list is created when missing |
| DotWriter.Translator.HandleEntity | lib/ontology-dot.js:75-85 | the method leaves the state `DotModel.HandleEntity` gives |
| DotWriter.Translator.ChildEdge | lib/ontology-dot.js:109-117 | one iteration of the walk leaves the state `DotModel.ChildEdge` gives |
| DotWriter.Translator.DoChildren | lib/ontology-dot.js:101-122 | the recursive walk leaves the state `DotModel.DoChildren` gives |
| DotWriter.Translator.DoChildList | lib/ontology-dot.js:108-120 | the loop over a child list leaves the state `DotModel.DoChildList` gives |
| DotWriter.Translator.HandlePair | lib/ontology-dot.js:89-97 | one pair leaves the state `DotModel.HandlePair` gives |
| DotWriter.Translator.HandleVerb | lib/ontology-dot.js:87-98 | the loop over `allowed` leaves the state `DotModel.HandleVerb` gives |
| DotWriter.Translator.Run | lib/ontology-dot.js:161-171 | the two loops over the records leave the state of the entity pass followed by the verb pass |
| DotWriter.Translator.Serialize | lib/ontology-dot.js:191-200 | the writes append exactly `DotModel.Serialize` of the current state to the stream |
| DotWriter.WriteVertexBlocks | lib/ontology-dot.js:192-195 | the first loop appends each namespace's preamble and vertices, in order |
| DotWriter.WriteEdgeBlocks | lib/ontology-dot.js:196-199 | the second loop appends each namespace's preamble and edges, in order |
| DotWriter.CreateDot | lib/ontology-dot.js:37-201 | a whole call appends exactly `Output(records, children)` to the stream, so every property of `Output` and `Load` above holds of what it writes |

## Left out

- YAML parsing is not part of this model: `createDotFromYAMLString`,
  `createDotFromYAMLStream`, js-yaml's warnings and the command line
  (lib/ontology-dot.js:17-35). The model starts from the parsed list of
  records.
- Choice of output sink (lib/ontology-dot.js:173-189): only the stream
  branch is modelled, as `DotWriter.Sink`. In the source:
  - `"write" in opts.stream` throws when no stream is given;
  - when `opts.stream` has no callable `write`, the source writes into a
    local buffer that is thrown away, so the call produces no output at
    all (`returner` is never called); the model always writes to a `Sink`.
- The stream's encoding argument is not modelled: chunks are strings.
- `console.warn("not enough colors!")` is modelled as a count of warnings in
  the state, not as output.
- Namespace order is creation order. JavaScript's `Object.keys` puts
  integer-like keys (a namespace such as "42") first, in numeric order. That
  quirk is not modelled.
- JavaScript's `in` also sees inherited properties. An id such as
  "constructor" counts as already present in `idMap`. A namespace such as
  "constructor", "toString" or "__proto__" is taken as already created by
  `addVertexData`/`addEdgeData`, so the push onto its missing list throws.
  Maps in the model hold only what was put in them.
- A parent that is present but empty is falsy in JavaScript and treated as
  absent (`DotModel.HasParent`). Ids and pair ends are always present
  strings; only `parent` and `allowed` may be absent. In the source a
  missing id or pair end throws in `depurl`'s `replace`, and a non-string
  parent is not modelled.
- A record with both an `Entity` and a `Verb` key is not modelled. Each
  record is one or the other, and a record with neither has no effect in
  the source.
- DotModel.DoChildren: the recursion carries a depth bound, the number of
  records. The source has no bound and does not terminate on a cyclic
  parent chain. An acyclic chain has at most one level per entity record,
  so the bound should only matter on a cycle; this is not proved here.
- LoadProps.LoadUnique: labels are unique only up to 702 distinct ids. Past
  that the source builds labels such as "undefineda", which collide. This is
  modelled as written (`Labels.LabelOverflowCollides`), and the uniqueness
  lemma requires at most 702 ids.
- The constants `DIR_FROM`/`DIR_TO` are the `DotModel.Direction` datatype.
