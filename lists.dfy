/** List operations the scene editor performs on `std::vector`: erasing by
    index, and a pass that visits every element once in order and leaves
    zero or one element in its place. */
module Lists {

  /** `erase(begin() + i)`. */
  function Erase<T>(s: seq<T>, i: nat): (r: seq<T>)
    requires i < |s|
    ensures |r| == |s| - 1
    ensures forall j :: 0 <= j < i ==> r[j] == s[j]
    ensures forall j :: i <= j < |r| ==> r[j] == s[j + 1]
  {
    s[..i] + s[i + 1..]
  }

  /** Erasing takes out exactly the one element. */
  lemma EraseMultiset<T>(s: seq<T>, i: nat)
    requires i < |s|
    ensures multiset(Erase(s, i)) + multiset{s[i]} == multiset(s)
  {
    assert s == s[..i] + [s[i]] + s[i + 1..];
  }

  /** What a pass leaves when element k, under input e[k], is replaced by
      visit(s[k], e[k]): the replacements concatenated in visiting order. */
  function Visited<A, E>(visit: (A, E) -> seq<A>, s: seq<A>, e: seq<E>): seq<A>
    requires |e| == |s|
    decreases |s|
  {
    if s == [] then []
    else Visited(visit, s[..|s| - 1], e[..|s| - 1]) + visit(s[|s| - 1], e[|s| - 1])
  }

  /** Visiting one more element appends its replacement. */
  lemma VisitedPrefixSnoc<A, E>(visit: (A, E) -> seq<A>, s: seq<A>, e: seq<E>, j: nat)
    requires |e| == |s| && j < |s|
    ensures Visited(visit, s[..j + 1], e[..j + 1]) == Visited(visit, s[..j], e[..j]) + visit(s[j], e[j])
  {
    assert s[..j + 1][..j] == s[..j];
    assert e[..j + 1][..j] == e[..j];
  }

  /** A pass that has visited j elements stands at position |done| of the
      current list, where element j of the original list waits; visiting it
      extends the visited part by its replacement. */
  lemma VisitedCursor<A, E>(visit: (A, E) -> seq<A>, s: seq<A>, e: seq<E>, j: nat, done: seq<A>, cur: seq<A>)
    requires |e| == |s| && j < |s|
    requires done == Visited(visit, s[..j], e[..j]) && cur == done + s[j..]
    ensures |done| < |cur| && cur[|done|] == s[j]
    ensures cur[..|done|] == done && cur[|done| + 1..] == s[j + 1..]
    ensures done + visit(s[j], e[j]) == Visited(visit, s[..j + 1], e[..j + 1])
  {
    assert cur[..|done|] == done;
    assert cur[|done| + 1..] == s[j + 1..];
    VisitedPrefixSnoc(visit, s, e, j);
  }

  /** The number of inputs that satisfy p. */
  function Count<E>(p: E -> bool, e: seq<E>): (r: nat)
    ensures r <= |e|
    decreases |e|
  {
    if e == [] then 0
    else Count(p, e[..|e| - 1]) + (if p(e[|e| - 1]) then 1 else 0)
  }

  /** When the inputs satisfying drop are exactly the ones whose element
      disappears and every other element is replaced by one, the pass
      shortens the list by the number of dropping inputs. */
  lemma {:induction false} VisitedLength<A, E>(visit: (A, E) -> seq<A>, drop: E -> bool, s: seq<A>, e: seq<E>)
    requires |e| == |s|
    requires forall k :: 0 <= k < |s| ==> |visit(s[k], e[k])| == (if drop(e[k]) then 0 else 1)
    ensures |Visited(visit, s, e)| == |s| - Count(drop, e)
    decreases |s|
  {
    if s != [] {
      var n := |s| - 1;
      VisitedLength(visit, drop, s[..n], e[..n]);
      assert e[..n] == e[..|e| - 1];
    }
  }

  /** When every element is replaced by exactly one, the k-th result is the
      replacement of the k-th element. */
  lemma {:induction false} VisitedSingletons<A, E>(visit: (A, E) -> seq<A>, s: seq<A>, e: seq<E>)
    requires |e| == |s|
    requires forall k :: 0 <= k < |s| ==> |visit(s[k], e[k])| == 1
    ensures |Visited(visit, s, e)| == |s|
    ensures forall k :: 0 <= k < |s| ==> Visited(visit, s, e)[k] == visit(s[k], e[k])[0]
    decreases |s|
  {
    if s != [] {
      var n := |s| - 1;
      VisitedSingletons(visit, s[..n], e[..n]);
    }
  }

  /** When every element is kept as it is, the pass leaves the list as it
      was. */
  lemma {:induction false} VisitedKeepsAll<A, E>(visit: (A, E) -> seq<A>, s: seq<A>, e: seq<E>)
    requires |e| == |s|
    requires forall k :: 0 <= k < |s| ==> visit(s[k], e[k]) == [s[k]]
    ensures Visited(visit, s, e) == s
    decreases |s|
  {
    if s != [] {
      var n := |s| - 1;
      VisitedKeepsAll(visit, s[..n], e[..n]);
      assert s == s[..n] + [s[n]];
    }
  }

  /** When only element i disappears and all others are kept as they are,
      the pass is `erase(begin() + i)`. */
  lemma {:induction false} VisitedEraseOne<A, E>(visit: (A, E) -> seq<A>, s: seq<A>, e: seq<E>, i: nat)
    requires |e| == |s| && i < |s|
    requires visit(s[i], e[i]) == []
    requires forall k :: 0 <= k < |s| && k != i ==> visit(s[k], e[k]) == [s[k]]
    ensures Visited(visit, s, e) == Erase(s, i)
    decreases |s|
  {
    var n := |s| - 1;
    if i == n {
      VisitedKeepsAll(visit, s[..n], e[..n]);
      assert s[..n] + s[n + 1..] == s[..n];
    } else {
      VisitedEraseOne(visit, s[..n], e[..n], i);
      assert s[..n][..i] == s[..i];
      assert s[..n][i + 1..] + [s[n]] == s[i + 1..];
    }
  }

  /** Overwriting element i in place. */
  lemma ReplaceSplit<T>(s: seq<T>, i: nat, y: T)
    requires i < |s|
    ensures s[i := y] == s[..i] + [y] + s[i + 1..]
  {
  }

  /** Erasing element i after overwriting it. */
  lemma EraseSplit<T>(s: seq<T>, i: nat, y: T)
    requires i < |s|
    ensures Erase(s[i := y], i) == s[..i] + [] + s[i + 1..]
  {
    assert s[i := y][..i] == s[..i];
    assert s[i := y][i + 1..] == s[i + 1..];
  }

  /** The state after handling each input in order, one call per input. */
  function Fold<S, E>(f: (S, E) -> S, s: S, e: seq<E>): S
    decreases |e|
  {
    if e == [] then s else f(Fold(f, s, e[..|e| - 1]), e[|e| - 1])
  }

  lemma FoldSnoc<S, E>(f: (S, E) -> S, s: S, e: seq<E>, x: E)
    ensures Fold(f, s, e + [x]) == f(Fold(f, s, e), x)
  {
    assert (e + [x])[..|e|] == e;
  }

  /** Handling a + b is handling a, then b from where a left off. */
  lemma {:induction false} FoldAppend<S, E>(f: (S, E) -> S, s: S, a: seq<E>, b: seq<E>)
    ensures Fold(f, s, a + b) == Fold(f, Fold(f, s, a), b)
    decreases |b|
  {
    if b == [] {
      assert a + b == a;
    } else {
      var n := |b| - 1;
      FoldAppend(f, s, a, b[..n]);
      assert a + b == (a + b[..n]) + [b[n]];
      FoldSnoc(f, s, a + b[..n], b[n]);
      assert b == b[..n] + [b[n]];
      FoldSnoc(f, Fold(f, s, a), b[..n], b[n]);
    }
  }
}
