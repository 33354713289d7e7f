/** Sequence vocabulary: mapping, filtering, sums, duplicates. */
module Sequences {
  import opened Wrappers

  function Map<A, B>(f: A -> B, s: seq<A>): (r: seq<B>)
    ensures |r| == |s|
    ensures forall i :: 0 <= i < |s| ==> r[i] == f(s[i])
  {
    seq(|s|, i requires 0 <= i < |s| => f(s[i]))
  }

  lemma MapPrefix<A, B>(f: A -> B, s: seq<A>, i: nat)
    requires i < |s|
    ensures Map(f, s[..i + 1]) == Map(f, s[..i]) + [f(s[i])]
  {
  }

  function SumOf<A>(f: A -> nat, s: seq<A>): nat {
    if s == [] then 0 else f(s[0]) + SumOf(f, s[1..])
  }

  lemma {:induction false} SumOfAppend<A>(f: A -> nat, s: seq<A>, t: seq<A>)
    ensures SumOf(f, s + t) == SumOf(f, s) + SumOf(f, t)
  {
    if s == [] {
      assert s + t == t;
    } else {
      assert (s + t)[1..] == s[1..] + t;
      SumOfAppend(f, s[1..], t);
    }
  }

  lemma SumOfSnoc<A>(f: A -> nat, s: seq<A>, a: A)
    ensures SumOf(f, s + [a]) == SumOf(f, s) + f(a)
  {
    SumOfAppend(f, s, [a]);
    assert [a][1..] == [];
  }

  lemma SumOfPrefix<A>(f: A -> nat, s: seq<A>, k: nat)
    requires k < |s|
    ensures SumOf(f, s[..k + 1]) == SumOf(f, s[..k]) + f(s[k])
  {
    assert s[..k + 1] == s[..k] + [s[k]];
    SumOfSnoc(f, s[..k], s[k]);
  }

  lemma {:induction false} SumOfEqual<A, B>(f: A -> nat, s: seq<A>, g: B -> nat, t: seq<B>)
    requires |s| == |t|
    requires forall i :: 0 <= i < |s| ==> f(s[i]) == g(t[i])
    ensures SumOf(f, s) == SumOf(g, t)
  {
    if s != [] {
      SumOfEqual(f, s[1..], g, t[1..]);
    }
  }

  function Filter<A(!new)>(p: A -> bool, s: seq<A>): (r: seq<A>)
    ensures forall a :: a in r <==> a in s && p(a)
  {
    if s == [] then [] else (if p(s[0]) then [s[0]] else []) + Filter(p, s[1..])
  }

  lemma {:induction false} FilterAppend<A(!new)>(p: A -> bool, s: seq<A>, t: seq<A>)
    ensures Filter(p, s + t) == Filter(p, s) + Filter(p, t)
  {
    if s == [] {
      assert s + t == t;
    } else {
      assert (s + t)[1..] == s[1..] + t;
      FilterAppend(p, s[1..], t);
    }
  }

  lemma FilterPrefix<A(!new)>(p: A -> bool, s: seq<A>, i: nat)
    requires i < |s|
    ensures Filter(p, s[..i + 1]) == Filter(p, s[..i]) + (if p(s[i]) then [s[i]] else [])
  {
    assert s[..i + 1] == s[..i] + [s[i]];
    assert [s[i]][1..] == [];
    assert Filter(p, [s[i]]) == if p(s[i]) then [s[i]] else [];
    FilterAppend(p, s[..i], [s[i]]);
  }

  lemma FilterGrows<A(!new)>(p: A -> bool, s: seq<A>, i: nat)
    requires i <= |s|
    ensures Filter(p, s[..i]) <= Filter(p, s)
  {
    assert s == s[..i] + s[i..];
    FilterAppend(p, s[..i], s[i..]);
  }

  lemma {:induction false} FilterAll<A(!new)>(p: A -> bool, s: seq<A>)
    requires forall a :: a in s ==> p(a)
    ensures Filter(p, s) == s
  {
    if s != [] {
      FilterAll(p, s[1..]);
    }
  }

  lemma {:induction false} FilterSame<A(!new)>(f: A -> bool, g: A -> bool, s: seq<A>)
    requires forall a :: a in s ==> f(a) == g(a)
    ensures Filter(f, s) == Filter(g, s)
  {
    if s != [] {
      FilterSame(f, g, s[1..]);
    }
  }

  ghost predicate NoDup<A>(s: seq<A>) {
    forall i, j :: 0 <= i < j < |s| ==> s[i] != s[j]
  }

  lemma NoDupFew<A>(a: A)
    ensures NoDup<A>([]) && NoDup([a])
  {
  }

  lemma NoDupAppend<A>(s: seq<A>, t: seq<A>)
    ensures NoDup(s + t) <==> NoDup(s) && NoDup(t) && forall a :: a in s ==> a !in t
  {
    if NoDup(s + t) {
      forall i, j | 0 <= i < j < |s| ensures s[i] != s[j] { assert (s + t)[i] != (s + t)[j]; }
      forall i, j | 0 <= i < j < |t| ensures t[i] != t[j] {
        assert (s + t)[|s| + i] != (s + t)[|s| + j];
      }
      forall i, j | 0 <= i < |s| && 0 <= j < |t| ensures s[i] != t[j] {
        assert (s + t)[i] != (s + t)[|s| + j];
      }
    }
    if NoDup(s) && NoDup(t) && forall a :: a in s ==> a !in t {
      forall i, j | 0 <= i < j < |s + t| ensures (s + t)[i] != (s + t)[j] {
        if i < |s| <= j {
          assert s[i] !in t;
          assert t[j - |s|] in t;
        }
      }
    }
  }

  lemma NoDupSlice<A>(s: seq<A>, a: nat, b: nat)
    requires NoDup(s) && a <= b <= |s|
    ensures NoDup(s[a..b])
    ensures forall x :: x in s[a..b] ==> x !in s[..a]
    ensures s[..b] == s[..a] + s[a..b]
  {
    assert s[..b] == s[..a] + s[a..b];
    NoDupAppend(s[..a], s[a..b]);
  }

  /** `t` is `s` with some elements left out, order kept. */
  ghost predicate IsSubsequence<A>(t: seq<A>, s: seq<A>) {
    if t == [] then true
    else if s == [] then false
    else (t[0] == s[0] && IsSubsequence(t[1..], s[1..])) || IsSubsequence(t, s[1..])
  }

  lemma {:induction false} FilterIsSubsequence<A(!new)>(p: A -> bool, s: seq<A>)
    ensures IsSubsequence(Filter(p, s), s)
  {
    if s != [] {
      FilterIsSubsequence(p, s[1..]);
      if p(s[0]) {
        assert Filter(p, s)[1..] == Filter(p, s[1..]);
      } else {
        assert Filter(p, s) == Filter(p, s[1..]);
      }
    }
  }

  lemma {:induction false} PrefixIsSubsequence<A>(t: seq<A>, k: nat, s: seq<A>)
    requires IsSubsequence(t, s) && k <= |t|
    ensures IsSubsequence(t[..k], s)
  {
    if k > 0 && !IsSubsequence(t, s[1..]) {
      PrefixIsSubsequence(t[1..], k - 1, s[1..]);
      assert t[..k][1..] == t[1..][..k - 1];
    } else if k > 0 {
      PrefixIsSubsequence(t, k, s[1..]);
    }
  }

  lemma {:induction false} MapSubsequence<A, B>(f: A -> B, t: seq<A>, s: seq<A>)
    requires IsSubsequence(t, s)
    ensures IsSubsequence(Map(f, t), Map(f, s))
  {
    if t != [] {
      assert Map(f, s)[1..] == Map(f, s[1..]);
      if t[0] == s[0] && IsSubsequence(t[1..], s[1..]) {
        MapSubsequence(f, t[1..], s[1..]);
        assert Map(f, t)[1..] == Map(f, t[1..]);
      } else {
        MapSubsequence(f, t, s[1..]);
      }
    }
  }

  lemma {:induction false} SubsequenceMembers<A>(t: seq<A>, s: seq<A>)
    requires IsSubsequence(t, s)
    ensures forall a :: a in t ==> a in s
  {
    if t != [] {
      assert t == [t[0]] + t[1..];
      if t[0] == s[0] && IsSubsequence(t[1..], s[1..]) {
        SubsequenceMembers(t[1..], s[1..]);
      } else {
        SubsequenceMembers(t, s[1..]);
      }
    }
  }

  lemma {:induction false} SubsequenceNoDup<A>(t: seq<A>, s: seq<A>)
    requires IsSubsequence(t, s) && NoDup(s)
    ensures NoDup(t)
    ensures forall a :: a in t ==> a in s
  {
    if t != [] {
      if t[0] == s[0] && IsSubsequence(t[1..], s[1..]) {
        SubsequenceNoDup(t[1..], s[1..]);
        assert t == [t[0]] + t[1..];
        assert forall a :: a in t[1..] ==> a in s[1..];
        assert s[0] !in s[1..];
        NoDupAppend([t[0]], t[1..]);
      } else {
        SubsequenceNoDup(t, s[1..]);
      }
    }
  }

  /** Keep the first occurrence of each element. */
  function Dedup<A(==,!new)>(s: seq<A>): (r: seq<A>)
    ensures forall a :: a in r <==> a in s
  {
    if s == [] then []
    else
      var r := Dedup(s[..|s| - 1]);
      if s[|s| - 1] in r then r else r + [s[|s| - 1]]
  }

  lemma {:induction false} DedupNoDup<A(!new)>(s: seq<A>)
    ensures NoDup(Dedup(s))
  {
    if s != [] {
      DedupNoDup(s[..|s| - 1]);
    }
  }

  lemma {:induction false} DedupOfNoDup<A(!new)>(s: seq<A>)
    requires NoDup(s)
    ensures Dedup(s) == s
  {
    if s != [] {
      DedupOfNoDup(s[..|s| - 1]);
    }
  }

  /** Where `a` first occurs. */
  ghost function FirstIndex<A>(s: seq<A>, a: A): (i: nat)
    requires a in s
    ensures i < |s| && s[i] == a && a !in s[..i]
  {
    if s[0] == a then 0
    else
      var i := 1 + FirstIndex(s[1..], a);
      assert s[..i] == [s[0]] + s[1..][..i - 1];
      i
  }

  lemma {:induction false} OnlyFirst<A>(s: seq<A>, a: A, i: nat)
    requires i < |s| && s[i] == a && a !in s[..i]
    ensures FirstIndex(s, a) == i
  {
    if i > 0 {
      assert s[..i] == [s[0]] + s[1..][..i - 1];
      OnlyFirst(s[1..], a, i - 1);
    }
  }

  lemma FirstIndexInPrefix<A>(s: seq<A>, k: nat, a: A)
    requires k <= |s| && a in s[..k]
    ensures FirstIndex(s, a) == FirstIndex(s[..k], a)
  {
    hide FirstIndex;
    var j := FirstIndex(s[..k], a);
    assert s[..k][..j] == s[..j];
    OnlyFirst(s, a, j);
  }

  /** What is kept stays in the order of first occurrence. */
  lemma {:induction false} DedupKeepsOrder<A(!new)>(s: seq<A>, i: nat, j: nat)
    requires i < j < |Dedup(s)|
    ensures FirstIndex(s, Dedup(s)[i]) < FirstIndex(s, Dedup(s)[j])
  {
    var n := |s| - 1;
    var before := Dedup(s[..n]);
    FirstIndexInPrefix(s, n, before[i]);
    if j < |before| {
      DedupKeepsOrder(s[..n], i, j);
      FirstIndexInPrefix(s, n, before[j]);
    } else {
      assert s[n] !in s[..n];
      assert FirstIndex(s, s[n]) >= n;
    }
  }

  /** Apply `f` to each element in turn, stopping at the first failure. */
  function Collect<A, B>(f: A -> Result<seq<B>>, s: seq<A>): Result<seq<B>> {
    if s == [] then Ok([])
    else
      var first :- f(s[0]);
      var rest :- Collect(f, s[1..]);
      Ok(first + rest)
  }

  function Prepend<B>(before: seq<B>, r: Result<seq<B>>): Result<seq<B>> {
    match r case Ok(rest) => Ok(before + rest) case Err(e) => Err(e)
  }

  lemma CollectStep<A, B>(f: A -> Result<seq<B>>, s: seq<A>, i: nat, before: seq<B>)
    requires i < |s|
    ensures Prepend(before, Collect(f, s[i..])) ==
      match f(s[i]) { case Err(e) => Err(e) case Ok(first) => Prepend(before + first, Collect(f, s[i + 1..])) }
  {
    assert s[i..][0] == s[i] && s[i..][1..] == s[i + 1..];
    if f(s[i]).Ok? && Collect(f, s[i + 1..]).Ok? {
      assert before + (f(s[i]).value + Collect(f, s[i + 1..]).value)
        == before + f(s[i]).value + Collect(f, s[i + 1..]).value;
    }
  }

  lemma CollectBegins<A, B>(f: A -> Result<seq<B>>, s: seq<A>)
    ensures Prepend([], Collect(f, s[0..])) == Collect(f, s)
  {
    assert s[0..] == s;
    if Collect(f, s).Ok? {
      assert [] + Collect(f, s).value == Collect(f, s).value;
    }
  }

  lemma CollectEnds<A, B>(f: A -> Result<seq<B>>, s: seq<A>, found: seq<B>)
    ensures Prepend(found, Collect(f, s[|s|..])) == Ok(found)
  {
    assert found + [] == found;
  }

  /** What is collected is what each element yields; one that fails fails it all. */
  lemma {:induction false} CollectIff<A, B(!new)>(f: A -> Result<seq<B>>, s: seq<A>)
    ensures Collect(f, s).Ok? <==> forall i :: 0 <= i < |s| ==> f(s[i]).Ok?
    ensures Collect(f, s).Ok? ==> forall b :: b in Collect(f, s).value <==> exists i :: Yields(f, s, i, b)
  {
    if s != [] {
      CollectIff(f, s[1..]);
      assert forall i :: 0 < i < |s| ==> s[i] == s[1..][i - 1];
      if Collect(f, s).Ok? {
        forall b ensures b in Collect(f, s).value <==> exists i :: Yields(f, s, i, b) {
          if b in f(s[0]).value {
            assert Yields(f, s, 0, b);
          }
          if i :| Yields(f, s[1..], i, b) {
            assert Yields(f, s, i + 1, b);
          }
          if i :| Yields(f, s, i, b) {
            assert i > 0 ==> Yields(f, s[1..], i - 1, b);
          }
        }
      }
    }
  }

  ghost predicate Yields<A, B>(f: A -> Result<seq<B>>, s: seq<A>, i: int, b: B) {
    0 <= i < |s| && f(s[i]).Ok? && b in f(s[i]).value
  }

  /** Map a fallible function, stopping at the first failure. */
  function TryMap<A, B>(f: A -> Result<B>, s: seq<A>): (r: Result<seq<B>>)
    ensures r.Ok? <==> forall i :: 0 <= i < |s| ==> f(s[i]).Ok?
    ensures r.Ok? ==> |r.value| == |s| && forall i :: 0 <= i < |s| ==> f(s[i]) == Ok(r.value[i])
  {
    if s == [] then Ok([])
    else
      var first :- f(s[0]);
      var rest :- TryMap(f, s[1..]);
      assert forall i :: 0 < i < |s| ==> s[i] == s[1..][i - 1];
      Ok([first] + rest)
  }

  /** What decodes element by element decodes as a list. */
  lemma TryMapInverts<A, B>(decode: A -> Result<B>, s: seq<A>, t: seq<B>)
    requires |s| == |t| && forall i :: 0 <= i < |s| ==> decode(s[i]) == Ok(t[i])
    ensures TryMap(decode, s) == Ok(t)
  {
    assert TryMap(decode, s).value == t;
  }

  /* ----- counting ----- */

  function Count<A(!new)>(p: A -> bool, s: seq<A>): nat {
    |Filter(p, s)|
  }

  function Without<A>(s: seq<A>, i: nat): seq<A>
    requires i < |s|
  {
    s[..i] + s[i + 1..]
  }

  lemma {:induction false} CountWithin<A(!new)>(p: A -> bool, s: seq<A>)
    ensures Count(p, s) <= |s|
  {
    if s != [] {
      CountWithin(p, s[1..]);
    }
  }

  lemma CountAppend<A(!new)>(p: A -> bool, s: seq<A>, a: A)
    ensures Count(p, s + [a]) == Count(p, s) + if p(a) then 1 else 0
  {
    FilterAppend(p, s, [a]);
    assert [a][1..] == [];
    assert Filter(p, [a]) == if p(a) then [a] else [];
  }

  lemma CountAround<A(!new)>(p: A -> bool, s: seq<A>, i: nat, a: A)
    requires i < |s|
    ensures Count(p, s[i := a]) == Count(p, Without(s, i)) + if p(a) then 1 else 0
    ensures Count(p, s) == Count(p, Without(s, i)) + if p(s[i]) then 1 else 0
  {
    CountBetween(p, s[..i], a, s[i + 1..]);
    CountBetween(p, s[..i], s[i], s[i + 1..]);
    assert s[i := a] == s[..i] + [a] + s[i + 1..];
    assert s == s[..i] + [s[i]] + s[i + 1..];
  }

  lemma CountBetween<A(!new)>(p: A -> bool, before: seq<A>, a: A, rest: seq<A>)
    ensures Count(p, before + [a] + rest) == Count(p, before + rest) + if p(a) then 1 else 0
  {
    CountAppend(p, before, a);
    FilterAppend(p, before + [a], rest);
    FilterAppend(p, before, rest);
  }
}
