/** Where the planned moves leave the values of an option, read off the positions the
    variants have before them; and exactly when planning again plans nothing. */
module PlannerPositions {
  import opened Lists
  import opened Catalogue
  import opened Edits
  import opened KeepsForm
  import opened Executor
  import opened ReflowOrder
  import opened Planner
  import opened PlannerFixpoint

  // ---- The moves fit ------------------------------------------------------------------------------

  lemma MoveFitsPlanned(z: Sizes, p: Product, a: Product, m: Move)
    requires SizesOk(z) && WellFormed(p) && WellFormed(a) && Family(z, p)
    requires Done(z, p) == {} && SameFrame(p, a) && SameChoices(p, a) && z.to in a.options[At(z, p)].values
    requires m.variantId in ToMove(z, p) && m.from == z.from && m.to == z.to
    ensures MoveFits(a, a.options[At(z, p)], m)
  {
    var v := m.variantId;
    assert Stands(z, p.variants[v], z.from, z.moved.Keys);
    forall u | u in a.variants ensures a.variants[u].choice != a.variants[v].choice[z.diameter := z.to] {
      assert u !in Done(z, p);
      assert !Stands(z, p.variants[u], z.to, z.moved.Keys);
      assert a.variants[u].choice == p.variants[u].choice && a.variants[v].choice == p.variants[v].choice;
    }
  }

  lemma MoveFitsAll(z: Sizes, p: Product, a: Product)
    requires SizesOk(z) && WellFormed(p) && WellFormed(a) && Family(z, p)
    requires Done(z, p) == {} && SameFrame(p, a) && SameChoices(p, a) && z.to in a.options[At(z, p)].values
    ensures Fits(a, MoveOp(z, p)) && Guarded(MoveOp(z, p))
  {
    var op := MoveOp(z, p);
    OrderNoDup(p.variants);
    MovesInDistinct(z, VariantOrder(p.variants), ToMove(z, p));
    forall m | m in op.moves ensures MoveFits(a, a.options[At(z, p)], m) {
      MoveFitsPlanned(z, p, a, m);
    }
  }

  // ---- Values by the positions of the variants that will hold them -----------------------------

  /** The value a variant holds under option `i` once the planned moves are made. */
  ghost function HoldsAfter(z: Sizes, p: Product, i: nat, id: Id): Name
    requires Family(z, p) && Readable(p) && i < 2 && id in p.variants
  {
    if i == At(z, p) && id in ToMove(z, p) then z.to else p.variants[id].choice[Names(p.options)[i]]
  }

  ghost predicate Held(z: Sizes, p: Product, i: nat, a: Name)
    requires Family(z, p) && Readable(p) && i < 2
  {
    exists u :: u in p.variants && HoldsAfter(z, p, i, u) == a
  }

  /** Some variant that will hold `a` stands before every one that will hold `b`. */
  ghost predicate ComesFirst(z: Sizes, p: Product, i: nat, a: Name, b: Name)
    requires Family(z, p) && Readable(p) && i < 2
  {
    exists u :: u in p.variants && HoldsAfter(z, p, i, u) == a && IsBeforeAll(z, p, i, u, b)
  }

  ghost predicate IsBeforeAll(z: Sizes, p: Product, i: nat, u: Id, b: Name)
    requires Family(z, p) && Readable(p) && i < 2 && u in p.variants
  {
    forall v :: v in p.variants && HoldsAfter(z, p, i, v) == b ==> p.variants[u].position < p.variants[v].position
  }

  /** `a` comes before `b` after the moves: by its first variant, or, when no variant
      will hold either, as the values stand now. */
  ghost predicate Comes(z: Sizes, p: Product, i: nat, a: Name, b: Name)
    requires Family(z, p) && Readable(p) && i < 2
  {
    || ComesFirst(z, p, i, a, b)
    || (!Held(z, p, i, a) && !Held(z, p, i, b)
        && a in p.options[i].values && b in p.options[i].values && Before(p.options[i].values, a, b))
  }

  ghost function AfterColumn(z: Sizes, p: Product, i: nat): (r: seq<Name>)
    requires Family(z, p) && Readable(p) && i < 2
    ensures |r| == |VariantOrder(p.variants)|
    ensures forall k :: 0 <= k < |r| ==>
      VariantOrder(p.variants)[k] in p.variants && r[k] == HoldsAfter(z, p, i, VariantOrder(p.variants)[k])
  {
    var order := VariantOrder(p.variants);
    assert IsOrder(p.variants, order);
    seq(|order|, k requires 0 <= k < |order| => HoldsAfter(z, p, i, order[k]))
  }

  /** `a` is `p` with values added or moved about, if anything. */
  ghost predicate ReadyToMove(z: Sizes, p: Product, a: Product) {
    && SizesOk(z) && WellFormed(p) && WellFormed(a) && Family(z, p) && Done(z, p) == {}
    && SameFrame(p, a) && SameChoices(p, a) && SamePositions(p, a) && z.to in a.options[At(z, p)].values
  }

  ghost predicate SamePositions(p: Product, a: Product) {
    a.variants.Keys == p.variants.Keys && forall id :: id in p.variants ==> a.variants[id].position == p.variants[id].position
  }

  lemma MovedWrite(z: Sizes, p: Product, a: Product)
    requires ReadyToMove(z, p, a)
    ensures Runs(a, MoveOp(z, p)) && FormOk(Write(a, MoveOp(z, p)))
    ensures Write(a, MoveOp(z, p)).options == a.options && MovedOver(z, p, Write(a, MoveOp(z, p)))
    ensures SamePositions(p, Write(a, MoveOp(z, p)))
  {
    var op := MoveOp(z, p);
    MoveFitsAll(z, p, a);
    WriteKeepsForm(a, op);
    MovesMove(z, p, a.variants);
    MoveAllShape(a.variants, z.diameter, op.moves);
  }

  lemma ColumnAfter(z: Sizes, p: Product, w: Product, i: nat)
    requires SizesOk(z) && WellFormed(p) && Family(z, p) && Readable(p) && i < 2 && Readable(w)
    requires SameFrame(p, w) && MovedOver(z, p, w) && SamePositions(p, w)
    ensures ColumnOf(w, i) == AfterColumn(z, p, i)
  {
    SamePlaces(p.variants, w.variants);
    assert Names(w.options) == Names(p.options);
    forall k | 0 <= k < |VariantOrder(p.variants)| ensures ColumnOf(w, i)[k] == AfterColumn(z, p, i)[k] {
      ColumnAfterAt(z, p, w, i, VariantOrder(p.variants)[k]);
    }
  }

  lemma ColumnAfterAt(z: Sizes, p: Product, w: Product, i: nat, id: Id)
    requires SizesOk(z) && Family(z, p) && Readable(p) && OptionsOk(p.options) && i < 2 && id in p.variants && MovedOver(z, p, w)
    ensures Names(p.options)[i] in w.variants[id].choice && w.variants[id].choice[Names(p.options)[i]] == HoldsAfter(z, p, i, id)
  {
    assert Names(p.options)[i] in p.variants[id].choice;
  }

  /** First variants and first places of the column agree. */
  lemma ComesByColumn(z: Sizes, p: Product, i: nat, a: Name, b: Name)
    requires Family(z, p) && Readable(p) && i < 2
    ensures Held(z, p, i, a) <==> a in AfterColumn(z, p, i)
    ensures ComesFirst(z, p, i, a, b) <==>
      a in AfterColumn(z, p, i) && (b in AfterColumn(z, p, i) ==> Before(AfterColumn(z, p, i), a, b))
  {
    var order, col := VariantOrder(p.variants), AfterColumn(z, p, i);
    HeldByColumn(z, p, i, a);
    HeldByColumn(z, p, i, b);
    if u :| u in p.variants && HoldsAfter(z, p, i, u) == a && IsBeforeAll(z, p, i, u, b) {
      var k :| 0 <= k < |order| && order[k] == u;
      FirstAtMost(col, a, k);
      if b in col {
        var l := First(col, b);
        assert p.variants[order[k]].position == k + 1 && p.variants[order[l]].position == l + 1;
      }
    }
    if a in col && (b in col ==> Before(col, a, b)) {
      var k := First(col, a);
      forall v | v in p.variants && HoldsAfter(z, p, i, v) == b ensures p.variants[order[k]].position < p.variants[v].position {
        var l :| 0 <= l < |order| && order[l] == v;
        assert col[l] == b && p.variants[order[k]].position == k + 1 && p.variants[order[l]].position == l + 1;
        FirstAtMost(col, b, l);
      }
      assert IsBeforeAll(z, p, i, order[k], b);
    }
  }

  lemma HeldByColumn(z: Sizes, p: Product, i: nat, a: Name)
    requires Family(z, p) && Readable(p) && i < 2
    ensures Held(z, p, i, a) <==> a in AfterColumn(z, p, i)
  {
    var order, col := VariantOrder(p.variants), AfterColumn(z, p, i);
    if u :| u in p.variants && HoldsAfter(z, p, i, u) == a {
      var k :| 0 <= k < |order| && order[k] == u;
      assert col[k] == a;
    }
    if a in col {
      var k := First(col, a);
      assert HoldsAfter(z, p, i, order[k]) == a;
    }
  }

  lemma {:induction false} FirstAtMost<T>(s: seq<T>, x: T, k: nat)
    requires k < |s| && s[k] == x
    ensures x in s && First(s, x) <= k
  {
    if s[0] != x {
      FirstAtMost(s[1..], x, k - 1);
    }
  }

  /** The values after the moves stand exactly in the order the positions of `p` give. */
  lemma MovedByPositions(z: Sizes, p: Product, a: Product, i: nat, x: Name, y: Name)
    requires ReadyToMove(z, p, a) && Readable(p) && i < 2 && x in a.options[i].values && y in a.options[i].values
    requires !Held(z, p, i, x) && !Held(z, p, i, y) ==>
      x in p.options[i].values && y in p.options[i].values
      && (Before(a.options[i].values, x, y) <==> Before(p.options[i].values, x, y))
    ensures Runs(a, MoveOp(z, p)) && |Simulate(a, MoveOp(z, p)).options| == 2
    ensures var values := Simulate(a, MoveOp(z, p)).options[i].values;
      x in values && y in values && (Before(values, x, y) <==> Comes(z, p, i, x, y))
  {
    MovedWrite(z, p, a);
    var w := Write(a, MoveOp(z, p));
    FormReadable(w);
    ColumnAfter(z, p, w, i);
    ReflowOrders(w, i, x, y);
    ComesByColumn(z, p, i, x, y);
    ComesByColumn(z, p, i, y, x);
  }

  // ---- One value right after another ---------------------------------------------------------------

  /** `b` stands right after `a`. */
  predicate RightAfter(s: seq<Name>, a: Name, b: Name) {
    a in s && b in s && First(s, b) == First(s, a) + 1
  }

  /** The planner's target is reached exactly when `to` stands right after `from`. */
  lemma InPlaceExactly(z: Sizes, values: seq<Name>)
    requires SizesOk(z) && NoDup(values) && z.from in values && z.to in values
    ensures InPlace(z, values) <==> RightAfter(values, z.from, z.to)
  {
    var t := First(values, z.to);
    assert values == values[..t] + [z.to] + values[t + 1..];
    var back := values[t + 1..];
    assert forall k :: 0 <= k < |back| ==> back[k] == values[t + 1 + k];
    OutsideOne(values[..t], z.to, values[t + 1..]);
    var current := Outside(values, {z.to});
    FirstWithout(values, t, z.from);
    PutBack(values, t, First(current, z.from) + 1);
  }

  /** A value taken out of a list and put back stands where it stood, or the list changed. */
  lemma PutBack(s: seq<Name>, t: nat, i: nat)
    requires t < |s| && i < |s| && s[t] !in s[..t] && s[t] !in s[t + 1..]
    ensures var rest := s[..t] + s[t + 1..];
      rest[..i] + [s[t]] + rest[i..] == s <==> i == t
  {
    var rest := s[..t] + s[t + 1..];
    var back := rest[..i] + [s[t]] + rest[i..];
    assert back[i] == s[t];
    if i == t {
      assert back == s;
    } else {
      assert s[i] in s[..t] || s[i] in s[t + 1..];
    }
  }

  /** Where a value first stands when another one is left out. */
  lemma FirstWithout(s: seq<Name>, t: nat, x: Name)
    requires t < |s| && x in s && x != s[t]
    ensures x in s[..t] + s[t + 1..]
    ensures First(s[..t] + s[t + 1..], x) == if First(s, x) < t then First(s, x) else First(s, x) - 1
  {
    var front, gone, back := s[..t], s[t], s[t + 1..];
    assert s == front + ([gone] + back);
    FirstAround(front, gone, back, x);
  }

  lemma FirstAround(front: seq<Name>, gone: Name, back: seq<Name>, x: Name)
    requires x in front + ([gone] + back) && x != gone
    ensures x in front + back
    ensures var i := First(front + ([gone] + back), x);
      First(front + back, x) == if i < |front| then i else i - 1
  {
    assert x in front || x in back;
    FirstInFront(front, [gone] + back, x);
    FirstInFront(front, back, x);
    if x !in front {
      FirstInFront([gone], back, x);
    }
  }

  lemma OutsideOne(front: seq<Name>, x: Name, back: seq<Name>)
    requires x !in front && x !in back
    ensures Outside(front + [x] + back, {x}) == front + back
  {
    OutsideConcat(front + [x], back, {x});
    OutsideConcat(front, [x], {x});
    OutsideNone(front, {x});
    OutsideNone(back, {x});
    OutsideAll([x], {x});
  }

  ghost predicate Between(s: seq<Name>, a: Name, b: Name, x: Name)
    requires a in s && b in s
  {
    x in s && Before(s, a, x) && Before(s, x, b)
  }

  lemma RightAfterMeans(s: seq<Name>, a: Name, b: Name)
    requires NoDup(s) && a in s && b in s
    ensures RightAfter(s, a, b) <==> Before(s, a, b) && forall x :: !Between(s, a, b, x)
  {
    if Before(s, a, b) && First(s, b) != First(s, a) + 1 {
      var x := s[First(s, a) + 1];
      assert First(s, x) == First(s, a) + 1;
      assert Between(s, a, b, x);
    }
  }

  /** `a` comes before `b` with no third value between. */
  ghost predicate Neighbours(s: seq<Name>, a: Name, b: Name) {
    a in s && b in s && Before(s, a, b) && forall x :: x != a && x != b ==> !Between(s, a, b, x)
  }

  lemma SameNeighbours(values: seq<Name>, col: seq<Name>, a: Name, b: Name)
    requires NoDup(values) && a in values && b in values && b in col
    requires Before(values, a, b) <==> a in col && Before(col, a, b)
    requires a in col && Before(col, a, b) ==>
      forall x :: Between(values, a, b, x) <==> x != a && x != b && Between(col, a, b, x)
    ensures RightAfter(values, a, b) <==> Neighbours(col, a, b)
  {
    RightAfterMeans(values, a, b);
  }

  // ---- When planning again plans nothing ------------------------------------------------------------

  /** After the moves, the first variant left at `from` stands before every one at `to`,
      and no third value has its first variant between the two. */
  ghost predicate KeepsPlace(z: Sizes, p: Product)
    requires Family(z, p) && Readable(p)
  {
    exists f :: f in p.variants && IsFirstLeft(z, p, f) && IsBeforeAll(z, p, At(z, p), f, z.to) && NoneBetween(z, p, f)
  }

  ghost predicate IsFirstLeft(z: Sizes, p: Product, f: Id)
    requires Family(z, p) && Readable(p) && f in p.variants
  {
    && HoldsAfter(z, p, At(z, p), f) == z.from
    && forall v :: v in p.variants && HoldsAfter(z, p, At(z, p), v) == z.from ==> p.variants[f].position <= p.variants[v].position
  }

  /** Whoever holds a third value and stands after `f` stands after a variant at `to`, or
      after one before `f` that holds the same value. */
  ghost predicate NoneBetween(z: Sizes, p: Product, f: Id)
    requires Family(z, p) && Readable(p) && f in p.variants
  {
    forall u :: u in p.variants && HoldsThird(z, p, u) && p.variants[f].position < p.variants[u].position ==> Preceded(z, p, f, u)
  }

  ghost predicate HoldsThird(z: Sizes, p: Product, u: Id)
    requires Family(z, p) && Readable(p) && u in p.variants
  {
    HoldsAfter(z, p, At(z, p), u) != z.from && HoldsAfter(z, p, At(z, p), u) != z.to
  }

  ghost predicate Preceded(z: Sizes, p: Product, f: Id, u: Id)
    requires Family(z, p) && Readable(p) && f in p.variants && u in p.variants
  {
    exists g :: g in p.variants && GoesAhead(z, p, f, u, g)
  }

  ghost predicate GoesAhead(z: Sizes, p: Product, f: Id, u: Id, g: Id)
    requires Family(z, p) && Readable(p) && f in p.variants && u in p.variants && g in p.variants
  {
    || (HoldsAfter(z, p, At(z, p), g) == z.to && p.variants[g].position < p.variants[u].position)
    || (HoldsAfter(z, p, At(z, p), g) == HoldsAfter(z, p, At(z, p), u) && p.variants[g].position < p.variants[f].position)
  }

  /** The variants of a value, by the column: the first of them at its first place. */
  lemma PlaceInColumn(z: Sizes, p: Product, u: Id) returns (k: nat)
    requires Family(z, p) && Readable(p) && u in p.variants
    ensures k < |AfterColumn(z, p, At(z, p))| && VariantOrder(p.variants)[k] == u
    ensures p.variants[u].position == k + 1 && AfterColumn(z, p, At(z, p))[k] == HoldsAfter(z, p, At(z, p), u)
    ensures First(AfterColumn(z, p, At(z, p)), HoldsAfter(z, p, At(z, p), u)) <= k
  {
    var order := VariantOrder(p.variants);
    k :| 0 <= k < |order| && order[k] == u;
    FirstAtMost(AfterColumn(z, p, At(z, p)), HoldsAfter(z, p, At(z, p), u), k);
  }

  lemma FirstVariant(z: Sizes, p: Product, x: Name) returns (u: Id)
    requires Family(z, p) && Readable(p) && x in AfterColumn(z, p, At(z, p))
    ensures u in p.variants && HoldsAfter(z, p, At(z, p), u) == x
    ensures p.variants[u].position == First(AfterColumn(z, p, At(z, p)), x) + 1
  {
    u := VariantOrder(p.variants)[First(AfterColumn(z, p, At(z, p)), x)];
  }

  lemma KeepsPlaceInColumn(z: Sizes, p: Product, f: Id)
    requires Family(z, p) && Readable(p) && Held(z, p, At(z, p), z.to)
    requires f in p.variants && IsFirstLeft(z, p, f) && IsBeforeAll(z, p, At(z, p), f, z.to) && NoneBetween(z, p, f)
    ensures Neighbours(AfterColumn(z, p, At(z, p)), z.from, z.to)
  {
    var col := AfterColumn(z, p, At(z, p));
    HeldByColumn(z, p, At(z, p), z.to);
    var kf := PlaceInColumn(z, p, f);
    var f0 := FirstVariant(z, p, z.from);
    assert First(col, z.from) == kf;
    var g0 := FirstVariant(z, p, z.to);
    forall x | x != z.from && x != z.to ensures !Between(col, z.from, z.to, x) {
      if x in col && First(col, z.from) < First(col, x) {
        NotBetween(z, p, f, x);
      }
    }
  }

  lemma NotBetween(z: Sizes, p: Product, f: Id, x: Name)
    requires Family(z, p) && Readable(p) && f in p.variants && NoneBetween(z, p, f) && x != z.from && x != z.to
    requires z.from in AfterColumn(z, p, At(z, p)) && z.to in AfterColumn(z, p, At(z, p)) && x in AfterColumn(z, p, At(z, p))
    requires p.variants[f].position == First(AfterColumn(z, p, At(z, p)), z.from) + 1
    requires First(AfterColumn(z, p, At(z, p)), z.from) < First(AfterColumn(z, p, At(z, p)), x)
    ensures !Between(AfterColumn(z, p, At(z, p)), z.from, z.to, x)
  {
    var u := FirstVariant(z, p, x);
    assert HoldsThird(z, p, u) && Preceded(z, p, f, u);
    var g :| g in p.variants && GoesAhead(z, p, f, u, g);
    var k := PlaceInColumn(z, p, g);
  }

  lemma ColumnKeepsPlace(z: Sizes, p: Product)
    requires Family(z, p) && Readable(p)
    requires Neighbours(AfterColumn(z, p, At(z, p)), z.from, z.to)
    ensures KeepsPlace(z, p)
  {
    var col := AfterColumn(z, p, At(z, p));
    var f := FirstVariant(z, p, z.from);
    var g := FirstVariant(z, p, z.to);
    forall v | v in p.variants && HoldsAfter(z, p, At(z, p), v) == z.from ensures p.variants[f].position <= p.variants[v].position {
      var k := PlaceInColumn(z, p, v);
    }
    forall v | v in p.variants && HoldsAfter(z, p, At(z, p), v) == z.to ensures p.variants[f].position < p.variants[v].position {
      var k := PlaceInColumn(z, p, v);
    }
    forall u | u in p.variants && HoldsThird(z, p, u) && p.variants[f].position < p.variants[u].position
      ensures Preceded(z, p, f, u)
    {
      ThirdPreceded(z, p, f, g, u);
    }
    assert IsFirstLeft(z, p, f) && IsBeforeAll(z, p, At(z, p), f, z.to) && NoneBetween(z, p, f);
  }

  lemma ThirdPreceded(z: Sizes, p: Product, f: Id, g: Id, u: Id)
    requires Family(z, p) && Readable(p) && f in p.variants && g in p.variants && u in p.variants && HoldsThird(z, p, u)
    requires z.from in AfterColumn(z, p, At(z, p)) && z.to in AfterColumn(z, p, At(z, p))
    requires p.variants[f].position == First(AfterColumn(z, p, At(z, p)), z.from) + 1
    requires p.variants[g].position == First(AfterColumn(z, p, At(z, p)), z.to) + 1 && HoldsAfter(z, p, At(z, p), g) == z.to
    requires !Between(AfterColumn(z, p, At(z, p)), z.from, z.to, HoldsAfter(z, p, At(z, p), u))
    ensures Preceded(z, p, f, u)
  {
    var col, x := AfterColumn(z, p, At(z, p)), HoldsAfter(z, p, At(z, p), u);
    var k := PlaceInColumn(z, p, u);
    assert x in col;
    var w := FirstVariant(z, p, x);
    assert First(col, x) != First(col, z.to) && First(col, x) != First(col, z.from);
    if First(col, x) > First(col, z.from) {
      assert GoesAhead(z, p, f, u, g);
    } else {
      assert GoesAhead(z, p, f, u, w);
    }
  }

  /** The same in the column: after `f`, no value's first place before the first `to`. */
  lemma KeepsPlaceByColumn(z: Sizes, p: Product)
    requires Family(z, p) && Readable(p) && Held(z, p, At(z, p), z.to)
    ensures KeepsPlace(z, p) <==> Neighbours(AfterColumn(z, p, At(z, p)), z.from, z.to)
  {
    if f :| f in p.variants && IsFirstLeft(z, p, f) && IsBeforeAll(z, p, At(z, p), f, z.to) && NoneBetween(z, p, f) {
      KeepsPlaceInColumn(z, p, f);
    }
    if Neighbours(AfterColumn(z, p, At(z, p)), z.from, z.to) {
      ColumnKeepsPlace(z, p);
    }
  }

  lemma ReflowedList(z: Sizes, p: Product)
    requires ReadyToMove(z, p, p) && Readable(p) && z.from in p.options[At(z, p)].values
    ensures Runs(p, MoveOp(z, p)) && |Simulate(p, MoveOp(z, p)).options| == 2
    ensures var values := Simulate(p, MoveOp(z, p)).options[At(z, p)].values; NoDup(values) && z.from in values && z.to in values
  {
    MoveFitsAll(z, p, p);
    EditKeepsForm(p, MoveOp(z, p));
    MovedByPositions(z, p, p, At(z, p), z.from, z.to);
    assert OptionOk(Simulate(p, MoveOp(z, p)).options[At(z, p)]);
    NormDistinctNoDup(Simulate(p, MoveOp(z, p)).options[At(z, p)].values);
  }

  lemma BeforeInMoved(z: Sizes, p: Product)
    requires ReadyToMove(z, p, p) && Readable(p) && z.from in p.options[At(z, p)].values && Held(z, p, At(z, p), z.to)
    ensures Runs(p, MoveOp(z, p)) && |Simulate(p, MoveOp(z, p)).options| == 2
    ensures var values := Simulate(p, MoveOp(z, p)).options[At(z, p)].values;
      z.from in values && z.to in values && z.to in AfterColumn(z, p, At(z, p))
      && (Before(values, z.from, z.to) <==>
            z.from in AfterColumn(z, p, At(z, p)) && Before(AfterColumn(z, p, At(z, p)), z.from, z.to))
  {
    HeldByColumn(z, p, At(z, p), z.to);
    MovedByPositions(z, p, p, At(z, p), z.from, z.to);
    ComesByColumn(z, p, At(z, p), z.from, z.to);
  }

  lemma RightAfterByColumn(z: Sizes, p: Product)
    requires ReadyToMove(z, p, p) && Readable(p) && z.from in p.options[At(z, p)].values && Held(z, p, At(z, p), z.to)
    requires Runs(p, MoveOp(z, p)) && |Simulate(p, MoveOp(z, p)).options| == 2
    requires NoDup(Simulate(p, MoveOp(z, p)).options[At(z, p)].values)
    ensures RightAfter(Simulate(p, MoveOp(z, p)).options[At(z, p)].values, z.from, z.to)
      <==> Neighbours(AfterColumn(z, p, At(z, p)), z.from, z.to)
  {
    var values, col := Simulate(p, MoveOp(z, p)).options[At(z, p)].values, AfterColumn(z, p, At(z, p));
    BeforeInMoved(z, p);
    if z.from in col {
      forall x ensures Between(values, z.from, z.to, x) <==> x != z.from && x != z.to && Between(col, z.from, z.to, x) {
        BetweenByColumn(z, p, x);
      }
    }
    SameNeighbours(values, col, z.from, z.to);
  }

  /** The re-flow leaves `to` right after `from` exactly when the positions say so. */
  lemma ReflowKeepsPlaceExactly(z: Sizes, p: Product)
    requires SizesOk(z) && WellFormed(p) && Family(z, p) && Readable(p) && ToMove(z, p) != {} && Done(z, p) == {}
    requires z.from in p.options[At(z, p)].values && z.to in p.options[At(z, p)].values
    ensures Runs(p, MoveOp(z, p)) && (ReflowKeepsPlace(z, p) <==> KeepsPlace(z, p))
  {
    assert ReadyToMove(z, p, p);
    ToIsHeld(z, p);
    ReflowedList(z, p);
    InPlaceExactly(z, Simulate(p, MoveOp(z, p)).options[At(z, p)].values);
    RightAfterByColumn(z, p);
    KeepsPlaceByColumn(z, p);
  }

  lemma ToIsHeld(z: Sizes, p: Product)
    requires Family(z, p) && Readable(p) && ToMove(z, p) != {}
    ensures Held(z, p, At(z, p), z.to)
  {
    var u :| u in ToMove(z, p);
    assert HoldsAfter(z, p, At(z, p), u) == z.to;
  }

  lemma BetweenByColumn(z: Sizes, p: Product, x: Name)
    requires ReadyToMove(z, p, p) && Readable(p) && z.from in p.options[At(z, p)].values
    requires Runs(p, MoveOp(z, p)) && |Simulate(p, MoveOp(z, p)).options| == 2
    requires z.from in Simulate(p, MoveOp(z, p)).options[At(z, p)].values && z.to in Simulate(p, MoveOp(z, p)).options[At(z, p)].values
    requires z.from in AfterColumn(z, p, At(z, p)) && z.to in AfterColumn(z, p, At(z, p))
    ensures Between(Simulate(p, MoveOp(z, p)).options[At(z, p)].values, z.from, z.to, x)
      <==> x != z.from && x != z.to && Between(AfterColumn(z, p, At(z, p)), z.from, z.to, x)
  {
    var i := At(z, p);
    var values, col := Simulate(p, MoveOp(z, p)).options[i].values, AfterColumn(z, p, i);
    ColumnInMoved(z, p, x);
    if x in p.options[i].values && x != z.from && x != z.to {
      MovedByPositions(z, p, p, i, z.from, x);
      MovedByPositions(z, p, p, i, x, z.to);
      ComesByColumn(z, p, i, z.from, x);
      ComesByColumn(z, p, i, x, z.to);
      ComesByColumn(z, p, i, z.to, x);
    }
  }

  /** The moved option has the values it had, and its variants hold some of them. */
  lemma ColumnInMoved(z: Sizes, p: Product, x: Name)
    requires ReadyToMove(z, p, p) && Readable(p) && Runs(p, MoveOp(z, p)) && |Simulate(p, MoveOp(z, p)).options| == 2
    ensures x in AfterColumn(z, p, At(z, p)) ==> x in p.options[At(z, p)].values
    ensures x in Simulate(p, MoveOp(z, p)).options[At(z, p)].values <==> x in p.options[At(z, p)].values
  {
    var i := At(z, p);
    MovedWrite(z, p, p);
    var w := Write(p, MoveOp(z, p));
    ReflowPermutes(w, i);
    assert x in Elems(ReflowedValues(w, i)) <==> x in Elems(p.options[i].values);
    HeldByColumn(z, p, i, x);
    if u :| u in p.variants && HoldsAfter(z, p, i, u) == x {
      assert ChoiceOk(p.options, p.variants[u].choice);
    }
  }

  /** The planner reaches a fixpoint. Planned again on the state its own edits promise,
      with the same SKUs, a product raises no anomaly; and nothing more is planned unless
      `to` was in place before the moves, so that no order was planned with them, and the
      positions of the variants displace it. */
  lemma ReplanExactly(z: Sizes, p: Product, refs: map<Id, Maybe<Ref>>, reorder: bool) returns (q: Product)
    requires SizesOk(z) && WellFormed(p) && PlanDiameter(z, p, refs, reorder).Planned?
    ensures Readable(p)
    ensures var ops := PlanDiameter(z, p, refs, reorder).ops; RunsAll(p, ops) && q == Expected(p, ops)
    ensures Positioned(q.variants) && PlanDiameter(z, q, refs, reorder).Planned?
    ensures PlanDiameter(z, q, refs, reorder).ops == [] <==>
      (Orders(z, p, reorder) && ToMove(z, p) != {} && InPlace(z, p.options[At(z, p)].values) ==> KeepsPlace(z, p))
  {
    FormReadable(p);
    q := ReplanAfter(z, p, refs, reorder);
    InPlaceHasTo(z, p.options[At(z, p)].values);
    if Orders(z, p, reorder) && ToMove(z, p) != {} && PlannedOrders(z, p) == [] {
      ReflowKeepsPlaceExactly(z, p);
    }
  }

  lemma InPlaceHasTo(z: Sizes, values: seq<Name>)
    ensures InPlace(z, values) ==> z.to in values
  {
    if InPlace(z, values) {
      var i := First(Outside(values, {z.to}), z.from) + 1;
      assert Target(z, values)[i] == z.to;
    }
  }

  /** In particular: with reordering on and `to` absent, planning again plans nothing. */
  lemma ReplanIsNothing(z: Sizes, p: Product, refs: map<Id, Maybe<Ref>>)
    requires SizesOk(z) && WellFormed(p) && PlanDiameter(z, p, refs, true).Planned?
    requires z.to !in p.options[At(z, p)].values
    ensures var ops := PlanDiameter(z, p, refs, true).ops;
      RunsAll(p, ops) && Positioned(Expected(p, ops).variants)
      && PlanDiameter(z, Expected(p, ops), refs, true) == Planned([])
  {
    var q := ReplanExactly(z, p, refs, true);
    InPlaceHasTo(z, p.options[At(z, p)].values);
  }
}
