/**
 * The label table of a run: `idMap` holds the stripped ids in the order
 * they were first seen, the i-th of them labelled `LabelOf(i)`, so a label
 * never changes once given and, below 702 ids, never repeats.
 */
module LabelProps {
  import opened Names
  import opened Labels
  import opened DotModel

  /** `seen` with `x` added at the end when it is not there yet. */
  function Note(seen: seq<string>, x: string): (r: seq<string>)
    ensures x in r && forall y :: y in r <==> y in seen || y == x
  {
    if x in seen then seen else seen + [x]
  }

  /**
   * `idMap` holds exactly the ids of `seen`, the i-th of them labelled
   * `LabelOf(i)`, and the counters have counted them.
   */
  ghost predicate Labelled(st: State, seen: seq<string>)
  {
    && NoDup(seen)
    && (forall x :: x in st.idMap <==> x in seen)
    && (forall i :: 0 <= i < |seen| ==> st.idMap[seen[i]] == LabelOf(i))
    && CountersOk(st.prefix, st.next)
    && Count(st.prefix, st.next) == |seen|
  }

  /** `m2` keeps every entry of `m1`: a label, once given, is never changed. */
  ghost predicate Extends(m1: map<string, string>, m2: map<string, string>)
  {
    forall x :: x in m1 ==> x in m2 && m2[x] == m1[x]
  }

  lemma InitLabelled()
    ensures Labelled(Init, [])
  {
  }

  /** Where `x` stands in a sequence that holds it. */
  function IndexOf(s: seq<string>, x: string): (i: nat)
    requires x in s
    ensures i < |s| && s[i] == x
  {
    if s[|s| - 1] == x then |s| - 1 else IndexOf(s[..|s| - 1], x)
  }

  /** In a sequence without repetitions, `IndexOf` finds the one place of an element. */
  lemma IndexOfUnique(s: seq<string>, i: nat)
    requires NoDup(s) && i < |s|
    ensures IndexOf(s, s[i]) == i
  {
    var j := IndexOf(s, s[i]);
    assert s[j] == s[i];
  }

  /**
   * `getId` keeps the first-seen labelling: a known id keeps its label and
   * a new id is appended to the ids seen and takes the next label.
   */
  lemma GetIdLabelled(st: State, seen: seq<string>, s: string)
    requires Labelled(st, seen)
    ensures Labelled(GetId(st, s).st, Note(seen, Depurl(s)))
    ensures var seen2 := Note(seen, Depurl(s));
      GetId(st, s).name == LabelOf(IndexOf(seen2, Depurl(s)))
  {
    var x := Depurl(s);
    var r := GetId(st, s);
    var seen2 := Note(seen, x);
    GetIdFacts(st, s);
    if x in seen {
      var i := IndexOf(seen, x);
      IndexOfUnique(seen, i);
    } else {
      NextLabelIsLabelOf(st.prefix, st.next);
      AdvanceCounts(st.prefix, st.next);
      NewIdLabelled(st, seen, s);
      IndexOfUnique(seen2, |seen|);
    }
  }

  lemma NewIdLabelled(st: State, seen: seq<string>, s: string)
    requires Labelled(st, seen) && Depurl(s) !in st.idMap
    ensures Labelled(GetId(st, s).st, seen + [Depurl(s)])
  {
    var r := GetId(st, s);
    GetIdFacts(st, s);
    NextLabelIsLabelOf(st.prefix, st.next);
    AdvanceCounts(st.prefix, st.next);
    AppendLabelled(st, r.st, seen, Depurl(s));
  }

  /** Giving a new id the label `LabelOf(|seen|)` and counting it keeps the labelling. */
  lemma AppendLabelled(st: State, st2: State, seen: seq<string>, x: string)
    requires Labelled(st, seen) && x !in st.idMap
    requires st2.idMap == st.idMap[x := LabelOf(|seen|)]
    requires CountersOk(st2.prefix, st2.next) && Count(st2.prefix, st2.next) == |seen| + 1
    ensures Labelled(st2, seen + [x])
  {
    var seen2 := seen + [x];
    assert NoDup(seen2);
    assert forall y :: y in st2.idMap <==> y in seen2;
    forall i | 0 <= i < |seen2|
      ensures st2.idMap[seen2[i]] == LabelOf(i)
    {
      if i < |seen| {
        assert seen2[i] == seen[i] != x;
      }
    }
  }

  /** Below 702 ids, distinct ids have distinct labels. */
  lemma LabelledUnique(st: State, seen: seq<string>, x: string, y: string)
    requires Labelled(st, seen) && |seen| <= MaxLabels
    requires x in st.idMap && y in st.idMap && x != y
    ensures st.idMap[x] != st.idMap[y]
  {
    var i := IndexOf(seen, x);
    var j := IndexOf(seen, y);
    if st.idMap[x] == st.idMap[y] {
      LabelInjective(i, j);
    }
  }

  /** Labelling a whole sequence of references in turn gives their first-seen order. */
  lemma FirstSeenLabelled(st: State, refs: seq<string>, s: string)
    requires Labelled(st, FirstSeen(refs))
    ensures Labelled(GetId(st, s).st, FirstSeen(refs + [Depurl(s)]))
  {
    FirstSeenPush(refs, Depurl(s));
    GetIdLabelled(st, FirstSeen(refs), s);
  }
}
