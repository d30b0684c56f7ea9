/** Optional values, for the fields an ontology record may leave out. */
module Options {
  datatype Option<+T> = None | Some(value: T)
}

/**
 * The string helpers of the translator: stripping the purl prefix from an
 * id, taking its namespace, writing a number in decimal and joining lines.
 */
module Names {
  import opened Options

  /** The prefix that `depurl` removes. */
  const Purl: string := "http://www.purl.org/"

  /** `pat` occurs in `s` starting at index `i`. */
  predicate OccursAt(s: string, pat: string, i: nat) {
    i + |pat| <= |s| && s[i..i + |pat|] == pat
  }

  /** `i` is the first index at which `pat` occurs in `s`. */
  predicate FirstAt(s: string, pat: string, i: nat) {
    OccursAt(s, pat, i) && forall j :: 0 <= j < i ==> !OccursAt(s, pat, j)
  }

  /** `pat` occurs nowhere in `s`. */
  predicate Absent(s: string, pat: string) {
    forall j :: 0 <= j <= |s| ==> !OccursAt(s, pat, j)
  }

  /** The first index at or after `from` where `pat` occurs in `s`, if any. */
  function FindFrom(s: string, pat: string, from: nat): (r: Option<nat>)
    decreases |s| - from
    ensures r.Some? ==> from <= r.value && r.value + |pat| <= |s|
  {
    if from + |pat| > |s| then None
    else if s[from..from + |pat|] == pat then Some(from)
    else FindFrom(s, pat, from + 1)
  }

  /** `FindFrom` finds the first occurrence at or after `from`, and reports none only when there is none. */
  lemma {:induction false} FindFromFirst(s: string, pat: string, from: nat)
    decreases |s| - from
    ensures var r := FindFrom(s, pat, from);
      && (r.Some? ==> from <= r.value && OccursAt(s, pat, r.value))
      && (r.Some? ==> forall j :: from <= j < r.value ==> !OccursAt(s, pat, j))
      && (r.None? ==> forall j: nat :: from <= j ==> !OccursAt(s, pat, j))
  {
    if from + |pat| <= |s| && s[from..from + |pat|] != pat {
      FindFromFirst(s, pat, from + 1);
    }
  }

  /**
   * JavaScript's `s.replace(Purl, "")` with a string pattern: the FIRST
   * occurrence of the prefix is removed, wherever it stands; a string
   * without it is returned unchanged.
   */
  function Depurl(s: string): string
  {
    match FindFrom(s, Purl, 0)
    case Some(i) => s[..i] + s[i + |Purl|..]
    case None => s
  }

  /** `Depurl` cuts out the first occurrence of the prefix and nothing else. */
  lemma DepurlCutsFirst(s: string)
    ensures forall i: nat :: FirstAt(s, Purl, i) ==> Depurl(s) == s[..i] + s[i + |Purl|..]
    ensures Absent(s, Purl) ==> Depurl(s) == s
  {
    FindFromFirst(s, Purl, 0);
  }

  /** Everything before the first '/' of `s`, or all of `s` without one. */
  function UpToSlash(s: string): string
  {
    if s == [] || s[0] == '/' then [] else [s[0]] + UpToSlash(s[1..])
  }

  /** `UpToSlash` keeps a prefix free of '/' and stops exactly at the first '/'. */
  lemma {:induction false} UpToSlashStops(s: string)
    ensures UpToSlash(s) <= s
    ensures '/' !in UpToSlash(s)
    ensures |UpToSlash(s)| < |s| ==> s[|UpToSlash(s)|] == '/'
  {
    if s != [] && s[0] != '/' {
      UpToSlashStops(s[1..]);
    }
  }

  /**
   * The namespace of an id: `depurl(id).split("/")[0]`, the part of the
   * stripped id before its first '/'.
   */
  function GetNS(id: string): string
  {
    UpToSlash(Depurl(id))
  }

  /** The namespace is a prefix of the stripped id, free of '/', cut exactly at its first '/'. */
  lemma GetNSBeforeSlash(id: string)
    ensures GetNS(id) <= Depurl(id) && '/' !in GetNS(id)
    ensures |GetNS(id)| < |Depurl(id)| ==> Depurl(id)[|GetNS(id)|] == '/'
  {
    UpToSlashStops(Depurl(id));
  }

  function DigitChar(d: nat): char
    requires d < 10
  {
    ('0' as int + d) as char
  }

  /** The decimal text of `n`, as JavaScript's `"" + n` writes a non-negative integer. */
  function Decimal(n: nat): string
  {
    if n < 10 then [DigitChar(n)] else Decimal(n / 10) + [DigitChar(n % 10)]
  }

  /** JavaScript's `"" + i` for an integer `i`. */
  function IntText(i: int): string
  {
    if i < 0 then "-" + Decimal(-i) else Decimal(i)
  }

  /** The value of a string of decimal digits. */
  function DecimalValue(s: string): int
  {
    if s == [] then 0
    else DecimalValue(s[..|s| - 1]) * 10 + (s[|s| - 1] as int - '0' as int)
  }

  /** The decimal text of a number is a non-empty string of digits without a leading zero. */
  lemma {:induction false} DecimalDigits(n: nat)
    ensures |Decimal(n)| >= 1
    ensures forall i :: 0 <= i < |Decimal(n)| ==> '0' <= Decimal(n)[i] <= '9'
    ensures Decimal(n)[0] == '0' ==> n == 0
  {
    if n >= 10 {
      DecimalDigits(n / 10);
      assert Decimal(n)[0] == Decimal(n / 10)[0];
    }
  }

  /** Reading back the decimal text of a number gives that number. */
  lemma {:induction false} DecimalRoundTrip(n: nat)
    ensures DecimalValue(Decimal(n)) == n
  {
    var r := Decimal(n);
    if n >= 10 {
      DecimalRoundTrip(n / 10);
      assert r[..|r| - 1] == Decimal(n / 10);
    }
  }

  /** Distinct numbers have distinct decimal texts. */
  lemma DecimalInjective(m: nat, n: nat)
    requires Decimal(m) == Decimal(n)
    ensures m == n
  {
    DecimalRoundTrip(m);
    DecimalRoundTrip(n);
  }

  /** JavaScript's `lines.join(sep)`. */
  function Join(lines: seq<string>, sep: string): string
  {
    if lines == [] then ""
    else if |lines| == 1 then lines[0]
    else lines[0] + sep + Join(lines[1..], sep)
  }

  /** Pushing one more line extends the joined text by the separator and that line. */
  lemma {:induction false} JoinPush(lines: seq<string>, sep: string, line: string)
    ensures Join(lines + [line], sep) == if lines == [] then line else Join(lines, sep) + sep + line
  {
    if |lines| > 1 {
      assert (lines + [line])[1..] == lines[1..] + [line];
      JoinPush(lines[1..], sep, line);
    } else if |lines| == 1 {
      assert (lines + [line])[1..] == [line];
    }
  }

  /** Only the first occurrence of the prefix is removed. */
  lemma DepurlStripsPrefix(x: string)
    ensures Depurl(Purl + x) == x
  {
    assert OccursAt(Purl + x, Purl, 0);
    assert FirstAt(Purl + x, Purl, 0);
    DepurlCutsFirst(Purl + x);
  }

  lemma DepurlOnlyFirst(x: string)
    ensures Depurl(Purl + Purl + x) == Purl + x
  {
    assert Purl + Purl + x == Purl + (Purl + x);
    DepurlStripsPrefix(Purl + x);
  }
}
