/** Searching a sequence for a pattern: Python's `str.find`, `bytes.find` and the
    leftmost-match rule of `re.search`. */
module Seqs {
  import opened Wrappers

  /** `pat` occurs in `s` starting at index `i`. */
  predicate OccursAt<T(==)>(s: seq<T>, pat: seq<T>, i: int) {
    0 <= i && i + |pat| <= |s| && s[i..i + |pat|] == pat
  }

  /** The first index at or after `from` where `pat` occurs, if any. */
  function FirstOccurrenceFrom<T(==)>(s: seq<T>, pat: seq<T>, from: nat): (r: Option<nat>)
    requires from <= |s|
    ensures r.Some? ==> from <= r.value && OccursAt(s, pat, r.value)
    ensures r.Some? ==> forall j :: from <= j < r.value ==> !OccursAt(s, pat, j)
    ensures r.None? ==> forall j :: from <= j ==> !OccursAt(s, pat, j)
    decreases |s| - from
  {
    if OccursAt(s, pat, from) then Some(from)
    else if from == |s| then None
    else FirstOccurrenceFrom(s, pat, from + 1)
  }

  /** The first index where `pat` occurs in `s`, if any. */
  function FirstOccurrence<T(==)>(s: seq<T>, pat: seq<T>): (r: Option<nat>)
    ensures r.Some? ==> OccursAt(s, pat, r.value) && forall j :: 0 <= j < r.value ==> !OccursAt(s, pat, j)
    ensures r.None? ==> forall j :: !OccursAt(s, pat, j)
  {
    FirstOccurrenceFrom(s, pat, 0)
  }

  /** Python's `find`: the first index of `pat`, or -1. */
  function Find<T(==)>(s: seq<T>, pat: seq<T>): (r: int)
    ensures -1 <= r
    ensures r == -1 <==> forall j :: !OccursAt(s, pat, j)
    ensures r >= 0 ==> OccursAt(s, pat, r) && forall j :: 0 <= j < r ==> !OccursAt(s, pat, j)
  {
    match FirstOccurrence(s, pat)
    case Some(i) => i
    case None => -1
  }

  /** An occurrence in `a + pat + b` at |a|, with none earlier, is the first one. */
  lemma FirstOccurrenceAfterPrefix<T>(a: seq<T>, pat: seq<T>, b: seq<T>)
    requires forall j :: 0 <= j < |a| ==> !OccursAt(a + pat + b, pat, j)
    ensures FirstOccurrence(a + pat + b, pat) == Some(|a|)
    ensures Find(a + pat + b, pat) == |a|
  {
    var s := a + pat + b;
    assert s[|a|..|a| + |pat|] == pat;
    assert OccursAt(s, pat, |a|);
    var r := FirstOccurrence(s, pat);
    assert r.Some?;
    assert !(r.value < |a|) && !(|a| < r.value);
  }

  /** The index of the first element satisfying `p`, if any. */
  function FirstIndex<T>(s: seq<T>, p: T -> bool): (r: Option<nat>)
    ensures r.Some? ==> r.value < |s| && p(s[r.value])
    ensures r.Some? ==> forall j :: 0 <= j < r.value ==> !p(s[j])
    ensures r.None? <==> forall j :: 0 <= j < |s| ==> !p(s[j])
  {
    if |s| == 0 then None
    else if p(s[0]) then Some(0)
    else match FirstIndex(s[1..], p)
      case None => None
      case Some(k) => Some(k + 1)
  }

  /** The first index is determined by its characterisation. */
  lemma FirstIndexAt<T>(s: seq<T>, p: T -> bool, k: nat)
    requires k < |s| && p(s[k])
    requires forall j :: 0 <= j < k ==> !p(s[j])
    ensures FirstIndex(s, p) == Some(k)
  {
    var r := FirstIndex(s, p);
    assert r.Some?;
    assert !(r.value < k) && !(k < r.value);
  }

  /** Elements appended after the first index do not move it. */
  lemma FirstIndexAppend<T>(s: seq<T>, t: seq<T>, p: T -> bool)
    requires FirstIndex(s, p).Some?
    ensures FirstIndex(s + t, p) == FirstIndex(s, p)
  {
    var k := FirstIndex(s, p).value;
    var all := s + t;
    forall j | 0 <= j <= k
      ensures all[j] == s[j]
    {
    }
    FirstIndexAt(all, p, k);
  }

  /** No element of a prefix satisfies `p` when the prefix has no first index. */
  lemma FirstIndexNonePrefix<T>(s: seq<T>, p: T -> bool, i: nat)
    requires i <= |s| && FirstIndex(s[..i], p).None?
    ensures forall j :: 0 <= j < i ==> !p(s[j])
  {
    var t := s[..i];
    forall j | 0 <= j < i
      ensures !p(s[j])
    {
      assert t[j] == s[j];
    }
  }

  /** Scanning one more element: it is the first satisfying `p`, or the prefix grows
      without one. */
  lemma FirstIndexExtend<T>(s: seq<T>, p: T -> bool, i: nat)
    requires i < |s| && FirstIndex(s[..i], p).None?
    ensures p(s[i]) ==> FirstIndex(s, p) == Some(i)
    ensures !p(s[i]) ==> FirstIndex(s[..i + 1], p).None?
  {
    FirstIndexNonePrefix(s, p, i);
    if p(s[i]) {
      FirstIndexAt(s, p, i);
    } else {
      FirstIndexNoneGrow(s, p, i);
    }
  }

  lemma FirstIndexNoneGrow<T>(s: seq<T>, p: T -> bool, i: nat)
    requires i < |s| && forall j :: 0 <= j <= i ==> !p(s[j])
    ensures FirstIndex(s[..i + 1], p).None?
  {
    var t := s[..i + 1];
    forall j | 0 <= j < |t|
      ensures !p(t[j])
    {
      assert t[j] == s[j];
    }
  }

  /** `s` without the leading `prefix`, if it starts with it. */
  function StripPrefix<T(==)>(s: seq<T>, prefix: seq<T>): (r: Option<seq<T>>)
    ensures r.Some? <==> prefix <= s
    ensures r.Some? ==> s == prefix + r.value
  {
    if prefix <= s then Some(s[|prefix|..]) else None
  }

  /** `s` without the trailing `suffix`, if it ends with it. */
  function StripSuffix<T(==)>(s: seq<T>, suffix: seq<T>): (r: Option<seq<T>>)
    ensures r.Some? ==> s == r.value + suffix
  {
    if |suffix| <= |s| && s[|s| - |suffix|..] == suffix then Some(s[..|s| - |suffix|]) else None
  }

  lemma StripPrefixOf<T>(prefix: seq<T>, rest: seq<T>)
    ensures StripPrefix(prefix + rest, prefix) == Some(rest)
  {
    assert prefix <= prefix + rest;
  }

  lemma StripSuffixOf<T>(init: seq<T>, suffix: seq<T>)
    ensures StripSuffix(init + suffix, suffix) == Some(init)
  {
    var s := init + suffix;
    assert s[|s| - |suffix|..] == suffix;
    assert s[..|s| - |suffix|] == init;
  }

  /** The concatenation of `f` over `s`, in order. */
  function ConcatMap<T, U>(s: seq<T>, f: T -> seq<U>): seq<U>
    decreases |s|
  {
    if |s| == 0 then [] else ConcatMap(s[..|s| - 1], f) + f(s[|s| - 1])
  }

  lemma ConcatMapSnoc<T, U>(s: seq<T>, f: T -> seq<U>, i: nat)
    requires i < |s|
    ensures ConcatMap(s[..i + 1], f) == ConcatMap(s[..i], f) + f(s[i])
  {
    assert s[..i + 1][..i] == s[..i];
  }

  lemma {:induction false} ConcatMapAppend<T, U>(a: seq<T>, b: seq<T>, f: T -> seq<U>)
    ensures ConcatMap(a + b, f) == ConcatMap(a, f) + ConcatMap(b, f)
    decreases |b|
  {
    if |b| == 0 {
      assert a + b == a;
    } else {
      var b' := b[..|b| - 1];
      assert (a + b)[..|a + b| - 1] == a + b';
      ConcatMapAppend(a, b', f);
    }
  }

  /** Concatenation regrouped to the right, stated generically so that no element is
      inspected. */
  lemma RegroupRight<T>(a: seq<T>, b: seq<T>, c: seq<T>, d: seq<T>)
    ensures a + b + c + d == a + (b + (c + d))
  {
  }

  lemma RegroupMiddle<T>(a: seq<T>, b: seq<T>, c: seq<T>, d: seq<T>, e: seq<T>)
    ensures a + (b + c + d) + e == (a + b) + c + (d + e)
  {
  }
}
