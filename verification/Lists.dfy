/** Sequence helpers shared by the models: values without repeats, order-keeping
    filters, and first-occurrence order. */
module Lists {

  ghost predicate NoDup<T>(s: seq<T>) {
    forall i, j :: 0 <= i < j < |s| ==> s[i] != s[j]
  }

  ghost function Elems<T>(s: seq<T>): set<T> {
    set x | x in s
  }

  /** `s` without the members of `ban`, in the same order. */
  function Outside<T(==,!new)>(s: seq<T>, ban: set<T>): (r: seq<T>)
    ensures forall x :: x in r <==> x in s && x !in ban
  {
    if s == [] then []
    else
      var front := Outside(s[..|s| - 1], ban);
      if s[|s| - 1] in ban then front else front + [s[|s| - 1]]
  }

  /** The distinct members of `s`, each at its first occurrence. */
  function FirstSeen<T(==,!new)>(s: seq<T>): (r: seq<T>)
    ensures forall x :: x in r <==> x in s
  {
    if s == [] then []
    else
      var front := FirstSeen(s[..|s| - 1]);
      if s[|s| - 1] in front then front else front + [s[|s| - 1]]
  }

  lemma {:induction false} OutsideNoDup<T(!new)>(s: seq<T>, ban: set<T>)
    requires NoDup(s)
    ensures NoDup(Outside(s, ban))
  {
    if s != [] {
      OutsideNoDup(s[..|s| - 1], ban);
    }
  }

  lemma {:induction false} FirstSeenNoDup<T(!new)>(s: seq<T>)
    ensures NoDup(FirstSeen(s))
  {
    if s != [] {
      FirstSeenNoDup(s[..|s| - 1]);
    }
  }

  lemma {:induction false} OutsideNone<T(!new)>(s: seq<T>, ban: set<T>)
    requires forall x :: x in s ==> x !in ban
    ensures Outside(s, ban) == s
  {
    if s != [] {
      OutsideNone(s[..|s| - 1], ban);
    }
  }

  lemma {:induction false} OutsideAll<T(!new)>(s: seq<T>, ban: set<T>)
    requires forall x :: x in s ==> x in ban
    ensures Outside(s, ban) == []
  {
    if s != [] {
      OutsideAll(s[..|s| - 1], ban);
    }
  }

  lemma {:induction false} OutsideConcat<T(!new)>(a: seq<T>, b: seq<T>, ban: set<T>)
    ensures Outside(a + b, ban) == Outside(a, ban) + Outside(b, ban)
  {
    if b == [] {
      assert a + b == a;
    } else {
      assert (a + b)[..|a + b| - 1] == a + b[..|b| - 1];
      OutsideConcat(a, b[..|b| - 1], ban);
    }
  }

  /** Two repeat-free lists with the same members have the same length and are
      permutations of each other. */
  lemma SameMembers<T(!new)>(a: seq<T>, b: seq<T>)
    requires NoDup(a) && NoDup(b) && Elems(a) == Elems(b)
    ensures |a| == |b| && multiset(a) == multiset(b)
  {
    NoDupCount(a);
    NoDupCount(b);
    forall x ensures multiset(a)[x] == multiset(b)[x] {
      assert x in a <==> x in Elems(a);
      assert x in b <==> x in Elems(b);
    }
    assert multiset(a) == multiset(b);
    assert |multiset(a)| == |a| && |multiset(b)| == |b|;
  }

  /** What a column uses, in its order, and then the rest: each value once. */
  lemma UsedThenRest<T(!new)>(column: seq<T>, values: seq<T>)
    requires NoDup(values) && forall v :: v in column ==> v in values
    ensures var used := FirstSeen(column);
      NoDup(used + Outside(values, Elems(used))) && Elems(used + Outside(values, Elems(used))) == Elems(values)
  {
    var used := FirstSeen(column);
    var rest := Outside(values, Elems(used));
    FirstSeenNoDup(column);
    OutsideNoDup(values, Elems(used));
    forall k, l | 0 <= k < l < |used + rest| ensures (used + rest)[k] != (used + rest)[l] {
      if k < |used| <= l {
        assert rest[l - |used|] in rest && used[k] in Elems(used);
      }
    }
    forall v ensures v in Elems(used + rest) <==> v in Elems(values) {
      assert v in used + rest <==> v in used || v in rest;
    }
  }

  lemma {:induction false} NoDupCount<T(!new)>(s: seq<T>)
    requires NoDup(s)
    ensures forall x :: multiset(s)[x] == (if x in s then 1 else 0)
  {
    if s != [] {
      NoDupCount(s[..|s| - 1]);
      assert s == s[..|s| - 1] + [s[|s| - 1]];
    }
  }

  /** A permutation of a repeat-free list is repeat-free, with the same members. */
  lemma PermutationMembers<T(!new)>(a: seq<T>, b: seq<T>)
    requires multiset(a) == multiset(b)
    ensures Elems(a) == Elems(b) && |a| == |b|
    ensures NoDup(a) ==> NoDup(b)
  {
    forall x ensures x in a <==> x in b {
      assert x in a <==> x in multiset(a);
      assert x in b <==> x in multiset(b);
    }
    assert |multiset(a)| == |a| && |multiset(b)| == |b|;
    if NoDup(a) {
      NoDupCount(a);
      forall i, j | 0 <= i < j < |b| ensures b[i] != b[j] {
        assert b == b[..j] + [b[j]] + b[j + 1..];
        assert multiset(b)[b[j]] == multiset(b[..j])[b[j]] + 1 + multiset(b[j + 1..])[b[j]];
        assert b[j] !in b[..j] && b[..j][i] == b[i];
      }
    }
  }

  /** A listing of a set, each member once. */
  lemma ListingOf<T(!new)>(order: seq<T>, keys: set<T>)
    requires multiset(order) == multiset(keys)
    ensures NoDup(order) && forall x :: x in order <==> x in keys
  {
    forall x ensures x in order <==> x in keys {
      assert x in order <==> x in multiset(order);
      assert x in keys <==> x in multiset(keys);
    }
    forall i, j | 0 <= i < j < |order| ensures order[i] != order[j] {
      assert order == order[..j] + [order[j]] + order[j + 1..];
      assert multiset(order)[order[j]] == multiset(order[..j])[order[j]] + 1 + multiset(order[j + 1..])[order[j]];
      assert order[j] !in order[..j] && order[..j][i] == order[i];
    }
  }

  /** Conversely, a repeat-free list of all members is a permutation of the set. */
  lemma ListsAll<T(!new)>(order: seq<T>, keys: set<T>)
    requires NoDup(order) && forall x :: x in order <==> x in keys
    ensures multiset(order) == multiset(keys)
  {
    NoDupCount(order);
    assert forall x :: multiset(keys)[x] == (if x in keys then 1 else 0);
  }

  lemma DifferAt<K(!new), V>(a: map<K, V>, b: map<K, V>) returns (k: K)
    requires a.Keys == b.Keys && a != b
    ensures k in a && a[k] != b[k]
  {
    k :| k in a && a[k] != b[k];
  }

  lemma EmptyOrSome<T>(s: seq<T>)
    ensures s == [] || exists x :: x in s
  {
    if s != [] {
      assert s[0] in s;
    }
  }

  function Flatten<T>(parts: seq<seq<T>>): seq<T> {
    if parts == [] then [] else Flatten(parts[..|parts| - 1]) + parts[|parts| - 1]
  }

  lemma {:induction false} FlattenOnlyAt<T>(parts: seq<seq<T>>, at: int)
    requires forall i :: 0 <= i < |parts| && i != at ==> parts[i] == []
    ensures Flatten(parts) == if 0 <= at < |parts| then parts[at] else []
  {
    if parts != [] {
      FlattenOnlyAt(parts[..|parts| - 1], at);
    }
  }

  lemma MapsEqual<K(!new), V>(a: map<K, V>, b: map<K, V>)
    requires forall k :: k in a ==> k in b && b[k] == a[k]
    requires forall k :: k in b ==> k in a
    ensures a == b
  {
    assert a.Keys == b.Keys;
  }

  /** `t` carries on where `s` ends. */
  function Join<T>(s: seq<T>, t: seq<T>): (r: seq<T>)
    requires s != [] && t != [] && s[|s| - 1] == t[0]
    ensures |r| == |s| + |t| - 1
    ensures forall k :: 0 <= k < |s| ==> r[k] == s[k]
    ensures forall k :: 0 <= k < |t| ==> r[|s| - 1 + k] == t[k]
  {
    s + t[1..]
  }

  /** `states` is a walk: each operation leads from one state to the next. */
  ghost predicate Walk<S(!new), O(!new)>(step: (S, O, S) -> bool, states: seq<S>, ops: seq<O>) {
    |states| == |ops| + 1 && forall k :: 0 <= k < |ops| ==> step(states[k], ops[k], states[k + 1])
  }

  lemma WalkJoin<S(!new), O(!new)>(step: (S, O, S) -> bool, s: seq<S>, a: seq<O>, t: seq<S>, b: seq<O>)
    requires Walk(step, s, a) && Walk(step, t, b) && s[|a|] == t[0]
    ensures Walk(step, Join(s, t), a + b)
    ensures Join(s, t)[0] == s[0] && Join(s, t)[|a + b|] == t[|b|]
  {
    var states := Join(s, t);
    forall k | 0 <= k < |a + b| ensures step(states[k], (a + b)[k], states[k + 1]) {
      if k < |a| {
        assert step(s[k], a[k], s[k + 1]);
      } else {
        var j := k - |a|;
        assert step(t[j], b[j], t[j + 1]);
        assert states[|s| - 1 + j] == t[j] && states[|s| - 1 + (j + 1)] == t[j + 1];
      }
    }
  }

  lemma WalkOne<S(!new), O(!new)>(step: (S, O, S) -> bool, a: S, op: O, b: S)
    requires step(a, op, b)
    ensures Walk(step, [a, b], [op])
  {
  }

  /** Some walk leads from `p` over all of `ops` to `q`. */
  ghost predicate Gets<S(!new), O(!new)>(step: (S, O, S) -> bool, p: S, ops: seq<O>, q: S) {
    exists states :: Ends(step, states, ops, p, q)
  }

  ghost predicate Ends<S(!new), O(!new)>(step: (S, O, S) -> bool, states: seq<S>, ops: seq<O>, p: S, q: S) {
    Walk(step, states, ops) && states[0] == p && states[|ops|] == q
  }

  lemma GetsNowhere<S(!new), O(!new)>(step: (S, O, S) -> bool, p: S)
    ensures Gets(step, p, [], p)
  {
    assert Ends(step, [p], [], p, p);
  }

  lemma GetsOne<S(!new), O(!new)>(step: (S, O, S) -> bool, p: S, op: O, q: S)
    requires step(p, op, q)
    ensures Gets(step, p, [op], q)
  {
    WalkOne(step, p, op, q);
    assert Ends(step, [p, q], [op], p, q);
  }

  lemma GetsOn<S(!new), O(!new)>(step: (S, O, S) -> bool, p: S, a: seq<O>, q: S, b: seq<O>, r: S)
    requires Gets(step, p, a, q) && Gets(step, q, b, r)
    ensures Gets(step, p, a + b, r)
  {
    var s :| Ends(step, s, a, p, q);
    var t :| Ends(step, t, b, q, r);
    WalkJoin(step, s, a, t, b);
    assert Ends(step, Join(s, t), a + b, p, r);
  }
}
