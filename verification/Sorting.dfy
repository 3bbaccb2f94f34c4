/** Sorting by a total preorder: the stable sort of JavaScript and Kotlin as a function,
    and what decides a sorted arrangement uniquely. */
module Sorting {

  ghost predicate TotalPreorder<T(!new)>(leq: (T, T) -> bool) {
    && (forall a, b :: leq(a, b) || leq(b, a))
    && (forall a, b, c :: leq(a, b) && leq(b, c) ==> leq(a, c))
  }

  ghost predicate SortedBy<T>(leq: (T, T) -> bool, s: seq<T>) {
    forall i, j | 0 <= i < j < |s| :: leq(s[i], s[j])
  }

  /** Places `x` behind every element it does not precede. */
  function Insert<T>(leq: (T, T) -> bool, s: seq<T>, x: T): seq<T> {
    if s == [] || leq(s[|s| - 1], x) then s + [x]
    else Insert(leq, s[..|s| - 1], x) + [s[|s| - 1]]
  }

  function SortBy<T>(leq: (T, T) -> bool, s: seq<T>): seq<T> {
    if s == [] then [] else Insert(leq, SortBy(leq, s[..|s| - 1]), s[|s| - 1])
  }

  lemma {:induction false} InsertPermutes<T>(leq: (T, T) -> bool, s: seq<T>, x: T)
    ensures multiset(Insert(leq, s, x)) == multiset(s) + multiset{x}
  {
    if s != [] && !leq(s[|s| - 1], x) {
      InsertPermutes(leq, s[..|s| - 1], x);
      assert s == s[..|s| - 1] + [s[|s| - 1]];
    }
  }

  lemma {:induction false} InsertSorts<T(!new)>(leq: (T, T) -> bool, s: seq<T>, x: T)
    requires TotalPreorder(leq) && SortedBy(leq, s)
    ensures SortedBy(leq, Insert(leq, s, x))
    ensures forall y | leq(x, y) && (forall i | 0 <= i < |s| :: leq(s[i], y)) ::
              forall i | 0 <= i < |Insert(leq, s, x)| :: leq(Insert(leq, s, x)[i], y)
  {
    if s != [] && !leq(s[|s| - 1], x) {
      InsertSorts(leq, s[..|s| - 1], x);
      assert leq(x, s[|s| - 1]);
    }
  }

  lemma {:induction false} SortByPermutes<T>(leq: (T, T) -> bool, s: seq<T>)
    ensures multiset(SortBy(leq, s)) == multiset(s)
  {
    if s != [] {
      SortByPermutes(leq, s[..|s| - 1]);
      InsertPermutes(leq, SortBy(leq, s[..|s| - 1]), s[|s| - 1]);
      assert s == s[..|s| - 1] + [s[|s| - 1]];
    }
  }

  lemma {:induction false} SortBySorts<T(!new)>(leq: (T, T) -> bool, s: seq<T>)
    requires TotalPreorder(leq)
    ensures SortedBy(leq, SortBy(leq, s))
  {
    if s != [] {
      SortBySorts(leq, s[..|s| - 1]);
      InsertSorts(leq, SortBy(leq, s[..|s| - 1]), s[|s| - 1]);
    }
  }

  lemma {:induction false} SortedSortsToItself<T(!new)>(leq: (T, T) -> bool, s: seq<T>)
    requires SortedBy(leq, s)
    ensures SortBy(leq, s) == s
  {
    if s != [] {
      var t, x := s[..|s| - 1], s[|s| - 1];
      SortedSortsToItself(leq, t);
      assert t != [] ==> leq(t[|t| - 1], x);
      assert Insert(leq, t, x) == t + [x];
    }
  }

  lemma SameMembers<T>(s: seq<T>, t: seq<T>, x: T)
    requires multiset(s) == multiset(t)
    ensures x in s <==> x in t
  {
    assert x in s <==> x in multiset(s);
    assert x in t <==> x in multiset(t);
  }

  /** A sorted arrangement headed by a given least element. */
  lemma SortWithHead<T(!new)>(leq: (T, T) -> bool, s: seq<T>, i: nat) returns (t: seq<T>)
    requires TotalPreorder(leq) && i < |s| && forall j :: 0 <= j < |s| ==> leq(s[i], s[j])
    ensures SortedBy(leq, t) && multiset(t) == multiset(s) && t != [] && t[0] == s[i]
  {
    var rest := s[..i] + s[i + 1..];
    var sorted := SortBy(leq, rest);
    SortBySorts(leq, rest);
    SortByPermutes(leq, rest);
    BagFromRest(s, i);
    t := [s[i]] + sorted;
    forall k | 0 <= k < |sorted| ensures leq(s[i], sorted[k]) { SameMembers(sorted, rest, sorted[k]); }
  }

  /** Sorting leaves a sequence alone exactly when it is sorted already. */
  lemma SortByIsIdentityIffSorted<T(!new)>(leq: (T, T) -> bool, s: seq<T>)
    requires TotalPreorder(leq)
    ensures SortBy(leq, s) == s <==> SortedBy(leq, s)
  {
    SortBySorts(leq, s);
    if SortedBy(leq, s) { SortedSortsToItself(leq, s); }
  }

  /** The elements equivalent to `x`, in order. */
  ghost function Class<T>(leq: (T, T) -> bool, s: seq<T>, x: T): seq<T> {
    if s == [] then []
    else
      var y := s[|s| - 1];
      Class(leq, s[..|s| - 1], x) + if leq(x, y) && leq(y, x) then [y] else []
  }

  lemma {:induction false} InsertKeepsClasses<T(!new)>(leq: (T, T) -> bool, s: seq<T>, y: T, x: T)
    requires TotalPreorder(leq)
    ensures Class(leq, Insert(leq, s, y), x) == Class(leq, s + [y], x)
  {
    assert (s + [y])[..|s|] == s;
    if s != [] && !leq(s[|s| - 1], y) {
      var t, z := s[..|s| - 1], s[|s| - 1];
      InsertKeepsClasses(leq, t, y, x);
      assert (t + [y])[..|t|] == t;
      assert (Insert(leq, t, y) + [z])[..|Insert(leq, t, y)|] == Insert(leq, t, y);
    }
  }

  /** Stability: equivalent elements stay in their original order. */
  lemma {:induction false} SortByIsStable<T(!new)>(leq: (T, T) -> bool, s: seq<T>, x: T)
    requires TotalPreorder(leq)
    ensures Class(leq, SortBy(leq, s), x) == Class(leq, s, x)
  {
    if s != [] {
      var t, y := s[..|s| - 1], s[|s| - 1];
      SortByIsStable(leq, t, x);
      InsertKeepsClasses(leq, SortBy(leq, t), y, x);
      assert (SortBy(leq, t) + [y])[..|SortBy(leq, t)|] == SortBy(leq, t);
    }
  }

  lemma HeadsAgree<T>(leq: (T, T) -> bool, s: seq<T>, t: seq<T>)
    requires s != [] && t != [] && s[0] in t && t[0] in s && SortedBy(leq, t)
    requires forall j | 0 < j < |s| :: !leq(s[j], s[0])
    ensures s[0] == t[0]
  {
    var i :| 0 <= i < |t| && t[i] == s[0];
    var j :| 0 <= j < |s| && s[j] == t[0];
    if i != 0 && j != 0 {
      assert leq(t[0], t[i]);
    }
  }

  lemma TailBag<T>(s: seq<T>)
    requires s != []
    ensures multiset(s[1..]) == multiset(s) - multiset{s[0]}
  {
    assert s == [s[0]] + s[1..];
  }

  /** Without two equivalent elements there is only one sorted arrangement. */
  lemma {:induction false} SortedArrangementIsUnique<T>(leq: (T, T) -> bool, s: seq<T>, t: seq<T>)
    requires SortedBy(leq, t) && multiset(s) == multiset(t)
    requires forall i, j | 0 <= i < j < |s| :: !leq(s[j], s[i])
    ensures s == t
  {
    assert |multiset(s)| == |s| && |multiset(t)| == |t|;
    if s != [] {
      assert s[0] in multiset(s) && t[0] in multiset(t);
      HeadsAgree(leq, s, t);
      TailBag(s);
      TailBag(t);
      SortedArrangementIsUnique(leq, s[1..], t[1..]);
      assert s == [s[0]] + s[1..] && t == [t[0]] + t[1..];
    }
  }

  // ----- bags -----

  function Map<A, B>(f: A -> B, s: seq<A>): seq<B> {
    seq(|s|, i requires 0 <= i < |s| => f(s[i]))
  }

  lemma RemoveFromBag<T>(t: seq<T>, i: nat)
    requires i < |t|
    ensures multiset(t[..i] + t[i + 1..]) == multiset(t) - multiset{t[i]}
  {
    assert t == t[..i] + [t[i]] + t[i + 1..];
  }

  lemma BagFromRest<T>(t: seq<T>, i: nat)
    requires i < |t|
    ensures multiset(t) == multiset(t[..i] + t[i + 1..]) + multiset{t[i]}
  {
    assert t == t[..i] + [t[i]] + t[i + 1..];
  }

  lemma MapFromRest<A, B>(f: A -> B, t: seq<A>, i: nat)
    requires i < |t|
    ensures multiset(Map(f, t)) == multiset(Map(f, t[..i] + t[i + 1..])) + multiset{f(t[i])}
  {
    BagFromRest(Map(f, t), i);
    assert Map(f, t)[..i] + Map(f, t)[i + 1..] == Map(f, t[..i] + t[i + 1..]);
  }

  /** The head of one sequence somewhere in the other, and what is left of both. */
  lemma MatchHead<T>(s: seq<T>, t: seq<T>) returns (i: nat)
    requires s != [] && multiset(s) == multiset(t)
    ensures i < |t| && t[i] == s[0]
    ensures multiset(s[1..]) == multiset(t[..i] + t[i + 1..])
  {
    assert s[0] in multiset(t);
    i :| 0 <= i < |t| && t[i] == s[0];
    TailBag(s);
    RemoveFromBag(t, i);
  }

  /** Equal bags have equal images. */
  lemma {:induction false} MapOfBag<A, B>(f: A -> B, s: seq<A>, t: seq<A>)
    requires multiset(s) == multiset(t)
    ensures multiset(Map(f, s)) == multiset(Map(f, t))
  {
    if s == [] {
      assert |multiset(t)| == |t|;
    } else {
      var i := MatchHead(s, t);
      MapOfBag(f, s[1..], t[..i] + t[i + 1..]);
      MapFromRest(f, t, i);
      MapFromRest(f, s, 0);
      assert s[..0] + s[1..] == s[1..];
    }
  }

  ghost predicate NoRepeats<T>(s: seq<T>) {
    forall i, j :: 0 <= i < j < |s| ==> s[i] != s[j]
  }

  lemma TwiceInBag<T>(t: seq<T>, i: nat, j: nat)
    requires i < j < |t| && t[i] == t[j]
    ensures multiset(t)[t[i]] >= 2
  {
    assert t == t[..i] + [t[i]] + t[i + 1..j] + [t[j]] + t[j + 1..];
  }

  lemma {:induction false} OnceInBag<T>(s: seq<T>, x: T)
    requires NoRepeats(s)
    ensures multiset(s)[x] <= 1
  {
    if s != [] {
      TailBag(s);
      BagFromRest(s, 0);
      assert s[..0] + s[1..] == s[1..];
      OnceInBag(s[1..], x);
      if x == s[0] {
        assert x !in s[1..];
        assert x !in multiset(s[1..]);
      }
    }
  }

  /** Having no repeats is a property of the bag. */
  lemma NoRepeatsOfBag<T>(s: seq<T>, t: seq<T>)
    requires multiset(s) == multiset(t) && NoRepeats(s)
    ensures NoRepeats(t)
  {
    forall i, j | 0 <= i < j < |t| ensures t[i] != t[j] {
      OnceInBag(s, t[i]);
      if t[i] == t[j] { TwiceInBag(t, i, j); }
    }
  }

  function CountIf<T>(p: T -> bool, s: seq<T>): nat {
    if s == [] then 0 else (if p(s[0]) then 1 else 0) + CountIf(p, s[1..])
  }

  lemma {:induction false} CountIfConcat<T>(p: T -> bool, s: seq<T>, t: seq<T>)
    ensures CountIf(p, s + t) == CountIf(p, s) + CountIf(p, t)
  {
    if s == [] {
      assert s + t == t;
    } else {
      assert (s + t)[1..] == s[1..] + t;
      CountIfConcat(p, s[1..], t);
    }
  }

  /** Counting depends on the bag only. */
  lemma {:induction false} CountIfOfBag<T>(p: T -> bool, s: seq<T>, t: seq<T>)
    requires multiset(s) == multiset(t)
    ensures CountIf(p, s) == CountIf(p, t)
  {
    if s == [] {
      assert |multiset(t)| == |t|;
    } else {
      var i := MatchHead(s, t);
      CountIfOfBag(p, s[1..], t[..i] + t[i + 1..]);
      CountIfConcat(p, t[..i], t[i + 1..]);
      assert t == t[..i] + ([t[i]] + t[i + 1..]);
      CountIfConcat(p, t[..i], [t[i]] + t[i + 1..]);
      assert ([t[i]] + t[i + 1..])[1..] == t[i + 1..];
    }
  }

  lemma {:induction false} CountIfBounds<T>(p: T -> bool, s: seq<T>)
    ensures CountIf(p, s) <= |s|
    ensures (forall x :: x in s ==> p(x)) ==> CountIf(p, s) == |s|
    ensures (forall x :: x in s ==> !p(x)) ==> CountIf(p, s) == 0
  {
    if s != [] { CountIfBounds(p, s[1..]); }
  }

  /** If a prefix satisfies `p`, so many elements do. */
  lemma CountOfPrefix<T>(p: T -> bool, s: seq<T>, n: nat)
    requires n <= |s| && forall i :: 0 <= i < n ==> p(s[i])
    ensures CountIf(p, s) >= n
  {
    assert s == s[..n] + s[n..];
    CountIfConcat(p, s[..n], s[n..]);
    CountIfBounds(p, s[..n]);
  }

  /** If nothing behind a prefix satisfies `p`, no more elements than that prefix has do. */
  lemma CountWithinPrefix<T>(p: T -> bool, s: seq<T>, n: nat)
    requires n <= |s| && forall i :: n <= i < |s| ==> !p(s[i])
    ensures CountIf(p, s) <= n
  {
    assert s == s[..n] + s[n..];
    CountIfConcat(p, s[..n], s[n..]);
    CountIfBounds(p, s[..n]);
    CountIfBounds(p, s[n..]);
  }
}
