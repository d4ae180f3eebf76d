/** The value order a variant move leaves: used values at their first variant, then the
    unused ones as they stood. */
module ReflowOrder {
  import opened Lists
  import opened Catalogue
  import opened KeepsForm

  /** Where `x` first stands in `s`. */
  function First<T(==)>(s: seq<T>, x: T): (i: nat)
    requires x in s
    ensures i < |s| && s[i] == x && x !in s[..i]
  {
    if s[0] == x then 0
    else
      assert x in s[1..];
      1 + First(s[1..], x)
  }

  predicate Before<T(==)>(s: seq<T>, a: T, b: T)
    requires a in s && b in s
  {
    First(s, a) < First(s, b)
  }

  lemma FirstIs<T>(s: seq<T>, x: T, i: nat)
    requires i < |s| && s[i] == x && x !in s[..i]
    ensures First(s, x) == i
  {
  }

  lemma FirstInFront<T>(a: seq<T>, b: seq<T>, x: T)
    requires x in a + b
    ensures First(a + b, x) == if x in a then First(a, x) else |a| + First(b, x)
  {
    if x in a {
      var i := First(a, x);
      assert (a + b)[..i] == a[..i];
      FirstIs(a + b, x, i);
    } else {
      var i := First(b, x);
      assert (a + b)[..|a| + i] == a + b[..i];
      FirstIs(a + b, x, |a| + i);
    }
  }

  /** First occurrences keep their order. */
  lemma {:induction false} FirstSeenOrder<T(!new)>(s: seq<T>, a: T, b: T)
    requires a in s && b in s
    ensures Before(FirstSeen(s), a, b) <==> Before(s, a, b)
  {
    var n := |s| - 1;
    var front, last := s[..n], s[n];
    assert s == front + [last];
    assert FirstSeen(s) == if last in FirstSeen(front) then FirstSeen(front) else FirstSeen(front) + [last];
    FirstInFront(front, [last], a);
    FirstInFront(front, [last], b);
    if last !in front {
      FirstInFront(FirstSeen(front), [last], a);
      FirstInFront(FirstSeen(front), [last], b);
    }
    if a in front && b in front {
      FirstSeenOrder(front, a, b);
    }
  }

  /** Filtering keeps the order. */
  lemma {:induction false} OutsideOrder<T(!new)>(s: seq<T>, ban: set<T>, a: T, b: T)
    requires a in s && b in s && a !in ban && b !in ban
    ensures Before(Outside(s, ban), a, b) <==> Before(s, a, b)
  {
    var n := |s| - 1;
    var front, last := s[..n], s[n];
    assert s == front + [last];
    FirstInFront(front, [last], a);
    FirstInFront(front, [last], b);
    if last !in ban {
      FirstInFront(Outside(front, ban), [last], a);
      FirstInFront(Outside(front, ban), [last], b);
    }
    if a in front && b in front {
      OutsideOrder(front, ban, a, b);
    }
  }

  // ---- What the re-flow does to one option -------------------------------------------------------

  ghost function ColumnOf(p: Product, i: nat): seq<Name>
    requires Readable(p) && i < |p.options|
  {
    Column(p.variants, VariantOrder(p.variants), Names(p.options)[i])
  }

  /** `a` goes before `b`: used before unused, used ones by their first variant,
      unused ones as they stood. */
  ghost predicate GoesBefore(p: Product, i: nat, a: Name, b: Name)
    requires Readable(p) && i < |p.options|
    requires a in p.options[i].values && b in p.options[i].values
  {
    if a in ColumnOf(p, i) then b in ColumnOf(p, i) ==> Before(ColumnOf(p, i), a, b)
    else b !in ColumnOf(p, i) && Before(p.options[i].values, a, b)
  }

  /** The re-flowed values are the same values, in exactly that order. */
  lemma ReflowOrders(p: Product, i: nat, a: Name, b: Name)
    requires FormOk(p) && i < |p.options| && a in p.options[i].values && b in p.options[i].values
    ensures Readable(p) && a in ReflowedValues(p, i) && b in ReflowedValues(p, i)
    ensures Before(ReflowedValues(p, i), a, b) <==> GoesBefore(p, i, a, b)
  {
    var column, values := ColumnOf(p, i), p.options[i].values;
    var used := FirstSeen(column);
    var rest := Outside(values, Elems(used));
    FirstInFront(used, rest, a);
    FirstInFront(used, rest, b);
    if a in column && b in column {
      FirstSeenOrder(column, a, b);
    }
    if a !in column && b !in column {
      OutsideOrder(values, Elems(used), a, b);
    }
  }

  /** The values reported free are exactly those no variant uses. */
  lemma UnusedExactly(p: Product, i: nat, v: Name)
    requires FormOk(p) && i < |p.options|
    ensures Readable(p)
    ensures v in UnusedValues(p, i) <==>
      v in p.options[i].values && forall id :: id in p.variants ==> p.variants[id].choice[Names(p.options)[i]] != v
  {
    FormReadable(p);
    var column, order := ColumnOf(p, i), VariantOrder(p.variants);
    assert v in Elems(FirstSeen(column)) <==> v in column;
    if id :| id in p.variants && p.variants[id].choice[Names(p.options)[i]] == v {
      var k :| 0 <= k < |order| && order[k] == id;
      assert column[k] == v;
    }
    if v in column {
      var k :| 0 <= k < |column| && column[k] == v;
      assert order[k] in p.variants;
    }
  }

  /** Re-flowing again changes nothing. */
  lemma ReflowTwice(p: Product)
    requires FormOk(p)
    ensures Readable(p) && Readable(Reflow(p)) && Reflow(Reflow(p)) == Reflow(p)
  {
    ReflowKeepsForm(p);
    FormReadable(Reflow(p));
    var q := Reflow(p);
    forall i | 0 <= i < |p.options| ensures ReflowedValues(q, i) == ReflowedValues(p, i) {
      assert ColumnOf(q, i) == ColumnOf(p, i);
      ReflowListTwice(ColumnOf(p, i), p.options[i].values);
    }
    assert Reflow(q).options == q.options;
  }

  lemma ReflowListTwice(column: seq<Name>, values: seq<Name>)
    ensures var used := FirstSeen(column); var rest := Outside(values, Elems(used));
      used + Outside(used + rest, Elems(used)) == used + rest
  {
    var used := FirstSeen(column);
    OutsideTwice(used, Outside(values, Elems(used)), Elems(used));
  }

  lemma OutsideTwice(used: seq<Name>, rest: seq<Name>, ban: set<Name>)
    requires (forall v :: v in used ==> v in ban) && forall v :: v in rest ==> v !in ban
    ensures Outside(used + rest, ban) == rest
  {
    OutsideConcat(used, rest, ban);
    OutsideAll(used, ban);
    OutsideNone(rest, ban);
  }
}
