/**
 * The short labels `getId` hands out: one letter for the first 26 ids,
 * then a letter prefix and a letter, driven by the two counters `prefix`
 * and `next`.
 */
module Labels {

  const Keys: string := "abcdefghijklmnopqrstuvwxyz"

  /** Below this many ids every label is built from the alphabet (26 + 26 * 26). */
  const MaxLabels: nat := 702

  /**
   * `keys[i]` as it ends up in a JavaScript string: the letter when `i` is
   * an index of the alphabet, and the text "undefined" otherwise.
   */
  function KeyAt(i: int): (r: string)
    ensures 0 <= i < 26 ==> |r| == 1 && r[0] as int == 'a' as int + i
  {
    if 0 <= i < 26 then KeyIsLetter(i); [Keys[i]] else "undefined"
  }

  /** The label `getId` builds from the counters before advancing them. */
  function NextLabel(prefix: int, next: int): string
  {
    (if prefix >= 0 then KeyAt(prefix) else "") + KeyAt(next)
  }

  /** How many labels have been handed out when the counters read `prefix`, `next`. */
  function Count(prefix: int, next: int): int
  {
    (prefix + 1) * 26 + next
  }

  /** The counters in the range `getId` keeps them in, starting from (-1, 0). */
  predicate CountersOk(prefix: int, next: int)
  {
    -1 <= prefix && 0 <= next < 26
  }

  /** The label of the k-th new id (0-based), in closed form. */
  function LabelOf(k: nat): string
  {
    if k < 26 then KeyAt(k) else KeyAt(k / 26 - 1) + KeyAt(k % 26)
  }

  lemma KeyIsLetter(i: int)
    requires 0 <= i < 26
    ensures Keys[i] as int == 'a' as int + i
  {
    assert Keys == ['a', 'b', 'c', 'd', 'e', 'f', 'g', 'h', 'i', 'j', 'k', 'l', 'm',
                    'n', 'o', 'p', 'q', 'r', 's', 't', 'u', 'v', 'w', 'x', 'y', 'z'];
  }

  /** The counter scheme of `getId` hands out exactly the closed-form label of the count. */
  lemma NextLabelIsLabelOf(prefix: int, next: int)
    requires CountersOk(prefix, next)
    ensures Count(prefix, next) >= 0
    ensures NextLabel(prefix, next) == LabelOf(Count(prefix, next))
  {
    var k := Count(prefix, next);
    if prefix >= 0 {
      assert k / 26 == prefix + 1 && k % 26 == next;
    }
  }

  /** Advancing the counters after a new label counts exactly one more label. */
  lemma AdvanceCounts(prefix: int, next: int)
    requires CountersOk(prefix, next)
    ensures var (p, n) := if next + 1 == 26 then (prefix + 1, 0) else (prefix, next + 1);
            CountersOk(p, n) && Count(p, n) == Count(prefix, next) + 1
  {
  }

  /** While fewer than 702 ids are labelled, the labels are one or two letters. */
  lemma LabelShape(k: nat)
    requires k < MaxLabels
    ensures |LabelOf(k)| == (if k < 26 then 1 else 2)
    ensures forall c :: c in LabelOf(k) ==> c in Keys
  {
  }

  /** Below 702 ids, distinct ids get distinct labels. */
  lemma LabelInjective(j: nat, k: nat)
    requires j < MaxLabels && k < MaxLabels
    requires LabelOf(j) == LabelOf(k)
    ensures j == k
  {
    LabelShape(j);
    LabelShape(k);
    if j < 26 {
      assert k < 26;
      KeyIsLetter(j);
      KeyIsLetter(k);
      assert LabelOf(j)[0] == Keys[j];
    } else {
      assert k >= 26;
      KeyIsLetter(j / 26 - 1);
      KeyIsLetter(k / 26 - 1);
      KeyIsLetter(j % 26);
      KeyIsLetter(k % 26);
      assert LabelOf(j)[0] == Keys[j / 26 - 1] && LabelOf(j)[1] == Keys[j % 26];
      assert LabelOf(k)[0] == Keys[k / 26 - 1] && LabelOf(k)[1] == Keys[k % 26];
      assert j / 26 == k / 26 && j % 26 == k % 26;
    }
  }

  /** The first id is "a", the 27th "aa", the 53rd "ba", the 702nd "zz". */
  lemma LabelExamples()
    ensures LabelOf(0) == "a" && LabelOf(25) == "z"
    ensures LabelOf(26) == "aa" && LabelOf(27) == "ab"
    ensures LabelOf(52) == "ba" && LabelOf(701) == "zz"
  {
  }

  /**
   * Past 702 ids the prefix counter runs off the alphabet: the 703rd and the
   * 729th id both get "undefineda".
   */
  lemma LabelOverflowCollides()
    ensures LabelOf(702) == LabelOf(728) == "undefineda"
  {
  }

  // Ids in the order they are first seen.

  predicate NoDup<T(==)>(s: seq<T>)
  {
    forall i, j :: 0 <= i < j < |s| ==> s[i] != s[j]
  }

  lemma LastSplit<T>(s: seq<T>)
    requires s != []
    ensures s == s[..|s| - 1] + [s[|s| - 1]]
  {
  }

  lemma ConcatAssoc(x: seq<string>, y: seq<string>, z: seq<string>)
    ensures x + (y + z) == x + y + z
  {
  }

  /** The distinct elements of `refs`, each where it first occurs. */
  function FirstSeen(refs: seq<string>): (r: seq<string>)
    ensures NoDup(r)
    ensures forall x :: x in r <==> x in refs
    ensures |r| <= |refs|
  {
    if refs == [] then []
    else
      var d := FirstSeen(refs[..|refs| - 1]);
      var x := refs[|refs| - 1];
      assert forall y :: y in refs <==> y in refs[..|refs| - 1] || y == x by {
        assert refs == refs[..|refs| - 1] + [x];
      }
      if x in d then d else d + [x]
  }

  /** The ordering of first sightings of a prefix is a prefix of the ordering of the whole. */
  lemma {:induction false} FirstSeenPrefix(a: seq<string>, b: seq<string>)
    ensures FirstSeen(a) <= FirstSeen(a + b)
  {
    if b != [] {
      var ab := a + b;
      assert ab[..|ab| - 1] == a + b[..|b| - 1];
      FirstSeenPrefix(a, b[..|b| - 1]);
    } else {
      assert a + b == a;
    }
  }

  /** Labelling one more reference: the order grows only when the id is new. */
  lemma FirstSeenPush(refs: seq<string>, x: string)
    ensures FirstSeen(refs + [x]) == if x in FirstSeen(refs) then FirstSeen(refs) else FirstSeen(refs) + [x]
  {
    assert (refs + [x])[..|refs + [x]| - 1] == refs;
  }
}
