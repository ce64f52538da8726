/** The `java.util.ArrayList` operations the drawing model relies on, as sequence
    functions: `add` appends, `remove(Object)` deletes the first occurrence only,
    and elements are compared by identity (no class here overrides `equals`). */
module Lists {

  /** Number of occurrences of `x` in `s`. */
  function Count<T(==)>(s: seq<T>, x: T): nat {
    if s == [] then 0
    else Count(s[..|s| - 1], x) + (if s[|s| - 1] == x then 1 else 0)
  }

  /** An element occurs at least once exactly when it is in the sequence. */
  lemma {:induction false} CountPositive<T>(s: seq<T>, x: T)
    ensures Count(s, x) > 0 <==> x in s
  {
    if s != [] {
      assert s == s[..|s| - 1] + [s[|s| - 1]];
      CountPositive(s[..|s| - 1], x);
    }
  }

  /** Elements at different positions are different. */
  predicate Distinct<T(==)>(s: seq<T>) {
    forall i, j :: 0 <= i < j < |s| ==> s[i] != s[j]
  }

  /** In a list without duplicates every member occurs exactly once. */
  lemma {:induction false} CountDistinct<T>(s: seq<T>, x: T)
    requires Distinct(s)
    ensures Count(s, x) == if x in s then 1 else 0
  {
    if s != [] {
      var t := s[..|s| - 1];
      assert s == t + [s[|s| - 1]];
      assert Distinct(t);
      CountDistinct(t, x);
      if x == s[|s| - 1] {
        assert x !in t;
      }
    }
  }

  /** `n` copies of `x`. */
  function Repeat<T>(x: T, n: nat): seq<T> {
    if n == 0 then [] else Repeat(x, n - 1) + [x]
  }

  /** `Repeat` yields exactly `n` elements, all of them `x`. */
  lemma {:induction false} RepeatAll<T>(x: T, n: nat)
    ensures |Repeat(x, n)| == n
    ensures forall i :: 0 <= i < n ==> Repeat(x, n)[i] == x
  {
    if n > 0 {
      RepeatAll(x, n - 1);
    }
  }

  /** Position of the first occurrence of `x` in `s`. */
  function IndexOf<T(==)>(s: seq<T>, x: T): (i: nat)
    requires x in s
    ensures i < |s| && s[i] == x
  {
    if s[0] == x then 0
    else
      assert s == [s[0]] + s[1..];
      1 + IndexOf(s[1..], x)
  }

  /** No occurrence of `x` comes before `IndexOf(s, x)`. */
  lemma {:induction false} IndexOfFirst<T>(s: seq<T>, x: T)
    requires x in s
    ensures x !in s[..IndexOf(s, x)]
  {
    if s[0] != x {
      var t := s[1..];
      assert s == [s[0]] + t;
      IndexOfFirst(t, x);
      assert s[..IndexOf(s, x)] == [s[0]] + t[..IndexOf(t, x)];
    }
  }

  /** `ArrayList.remove(Object)`: `s` without its first occurrence of `x`;
      `s` itself when `x` does not occur. */
  function RemoveFirst<T(==)>(s: seq<T>, x: T): (r: seq<T>)
    ensures |r| == if x in s then |s| - 1 else |s|
  {
    if s == [] then []
    else
      assert s == [s[0]] + s[1..];
      if s[0] == x then s[1..] else [s[0]] + RemoveFirst(s[1..], x)
  }

  /** Removal deletes exactly the element at the first occurrence and keeps the
      order of everything else. */
  lemma {:induction false} RemoveFirstDeletesFirstOccurrence<T>(s: seq<T>, x: T)
    requires x in s
    ensures RemoveFirst(s, x) == s[..IndexOf(s, x)] + s[IndexOf(s, x) + 1..]
  {
    if s[0] != x {
      var t := s[1..];
      assert s == [s[0]] + t;
      assert x in t;
      RemoveFirstDeletesFirstOccurrence(t, x);
      var j := IndexOf(t, x);
      assert IndexOf(s, x) == j + 1;
      calc {
        RemoveFirst(s, x);
        [s[0]] + RemoveFirst(t, x);
        [s[0]] + (t[..j] + t[j + 1..]);
        { assert s[..j + 1] == [s[0]] + t[..j]; assert s[j + 2..] == t[j + 1..]; }
        s[..j + 1] + s[j + 2..];
      }
    }
  }

  /** Removal takes away one occurrence of `x`, if there is one, and nothing else. */
  lemma {:induction false} RemoveFirstMultiset<T>(s: seq<T>, x: T)
    ensures multiset(RemoveFirst(s, x)) == multiset(s) - multiset{x}
  {
    if s != [] {
      var t := s[1..];
      assert s == [s[0]] + t;
      assert multiset(s) == multiset{s[0]} + multiset(t);
      if s[0] != x {
        RemoveFirstMultiset(t, x);
        assert RemoveFirst(s, x) == [s[0]] + RemoveFirst(t, x);
        assert multiset(RemoveFirst(s, x)) == multiset{s[0]} + multiset(RemoveFirst(t, x));
      }
    }
  }

  /** Removing an element that does not occur leaves the sequence as it was. */
  lemma {:induction false} RemoveFirstAbsent<T>(s: seq<T>, x: T)
    requires x !in s
    ensures RemoveFirst(s, x) == s
  {
    if s != [] {
      assert s == [s[0]] + s[1..];
      RemoveFirstAbsent(s[1..], x);
    }
  }

  /** Appending `x` and removing it again: the removal takes the earlier copy when
      there is one, so a fresh element's add is undone exactly. */
  lemma {:induction false} AppendThenRemove<T>(s: seq<T>, x: T)
    ensures RemoveFirst(s + [x], x) == if x in s then RemoveFirst(s, x) + [x] else s
  {
    if s == [] {
    } else {
      assert (s + [x])[0] == s[0];
      assert (s + [x])[1..] == s[1..] + [x];
      assert s == [s[0]] + s[1..];
      AppendThenRemove(s[1..], x);
    }
  }

  /** One more copy at the end of a repeated block. */
  lemma AppendRepeat<T>(a: seq<T>, x: T, n: nat)
    ensures a + Repeat(x, n) + [x] == a + Repeat(x, n + 1)
  {
  }

  /** Appending one element adds one occurrence of it and none of anything else. */
  lemma CountSnoc<T>(s: seq<T>, x: T, y: T)
    ensures Count(s + [x], y) == Count(s, y) + (if x == y then 1 else 0)
  {
  }
}
