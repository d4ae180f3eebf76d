/** Every edit whose guard passes keeps a product well formed. */
module KeepsForm {
  import opened Lists
  import opened Catalogue
  import opened Edits

  ghost predicate FormOk(p: Product) {
    OptionsOk(p.options) && VariantsOk(p.options, p.variants) && Positioned(p.variants)
  }

  lemma NormDistinctNoDup(values: seq<Name>)
    requires NormDistinct(values)
    ensures NoDup(values)
    ensures forall a, b :: a in values && b in values && a != b ==> norm(a) != norm(b)
  {
    forall a, b | a in values && b in values && a != b ensures norm(a) != norm(b) {
      var i :| 0 <= i < |values| && values[i] == a;
      var j :| 0 <= j < |values| && values[j] == b;
      assert i < j || j < i;
    }
  }

  lemma NormDistinctOver(values: seq<Name>, other: seq<Name>)
    requires NormDistinct(values) && NoDup(other)
    requires forall v :: v in other ==> v in values
    ensures NormDistinct(other)
  {
    NormDistinctNoDup(values);
    forall i, j | 0 <= i < j < |other| ensures norm(other[i]) != norm(other[j]) {
      assert other[i] in values && other[j] in values;
    }
  }

  lemma RetitleKeepsForm(p: Product)
    requires FormOk(p)
    ensures forall id :: id in p.variants ==> Covers(Names(p.options), p.variants[id].choice)
    ensures WellFormed(Retitle(p))
  {
    forall id | id in p.variants ensures Covers(Names(p.options), p.variants[id].choice) {
      assert ChoiceOk(p.options, p.variants[id].choice);
    }
    var q := Retitle(p);
    assert Names(q.options) == Names(p.options);
    SamePlaces(p.variants, q.variants);
    forall id | id in q.variants ensures ChoiceOk(q.options, q.variants[id].choice) {
      assert ChoiceOk(p.options, p.variants[id].choice);
    }
  }

  // ---- Reflow -------------------------------------------------------------------------

  lemma FormReadable(p: Product)
    requires FormOk(p)
    ensures Readable(p)
  {
    forall id | id in p.variants ensures Covers(Names(p.options), p.variants[id].choice) {
      assert ChoiceOk(p.options, p.variants[id].choice);
    }
  }

  /** Re-flowing an option permutes its values. */
  lemma ReflowPermutes(p: Product, i: nat)
    requires FormOk(p) && i < |p.options|
    ensures Readable(p)
    ensures NoDup(ReflowedValues(p, i)) && Elems(ReflowedValues(p, i)) == Elems(p.options[i].values)
    ensures multiset(ReflowedValues(p, i)) == multiset(p.options[i].values)
  {
    FormReadable(p);
    var column := Column(p.variants, VariantOrder(p.variants), Names(p.options)[i]);
    var values := p.options[i].values;
    NormDistinctNoDup(values);
    forall v | v in column ensures v in values {
      var k :| 0 <= k < |column| && column[k] == v;
      assert ChoiceOk(p.options, p.variants[VariantOrder(p.variants)[k]].choice);
    }
    UsedThenRest(column, values);
    SameMembers(ReflowedValues(p, i), values);
  }

  lemma ReflowKeepsForm(p: Product)
    requires FormOk(p)
    ensures Readable(p) && FormOk(Reflow(p)) && Names(Reflow(p).options) == Names(p.options)
  {
    FormReadable(p);
    var q := Reflow(p);
    forall i | 0 <= i < |p.options| ensures OptionOk(q.options[i]) {
      ReflowPermutes(p, i);
      assert OptionOk(p.options[i]);
      NormDistinctOver(p.options[i].values, q.options[i].values) by {
        assert forall v :: v in q.options[i].values ==> v in Elems(p.options[i].values);
      }
    }
    assert Names(q.options) == Names(p.options);
    forall id | id in q.variants ensures ChoiceOk(q.options, q.variants[id].choice) {
      assert ChoiceOk(p.options, p.variants[id].choice);
      forall i | 0 <= i < |q.options|
        ensures q.variants[id].choice[q.options[i].name] in q.options[i].values
      {
        ReflowPermutes(p, i);
        assert q.variants[id].choice[q.options[i].name] in Elems(p.options[i].values);
      }
    }
  }

  // ---- Renames ---------------------------------------------------------------------------

  lemma RenameKeepsOption(o: ProductOption, renames: seq<Rename>, q: ProductOption)
    requires Renamable(o, renames)
    requires ValuesSubbed(o, SubOf(renames), q) && IdsSubbed(o, SubOf(renames), q)
    ensures OptionOk(q)
  {
    var sub := SubOf(renames);
    NormDistinctNoDup(o.values);
    forall i, j | 0 <= i < j < |q.values| ensures norm(q.values[i]) != norm(q.values[j]) {
      SubSeparates(o, renames, o.values[i], o.values[j]);
    }
    forall m ensures m in q.ids <==> m in q.values {
      if m in q.ids {
        var n :| n in o.ids && m == Sub(sub, n);
        var k :| 0 <= k < |o.values| && o.values[k] == n;
        assert q.values[k] == m;
      }
      if m in q.values {
        var k :| 0 <= k < |q.values| && q.values[k] == m;
        assert o.values[k] in o.ids;
      }
    }
    forall a, b | a in q.ids && b in q.ids && a != b && q.ids[a].Some? ensures q.ids[a] != q.ids[b] {
      var n :| n in o.ids && a == Sub(sub, n);
      var m :| m in o.ids && b == Sub(sub, m);
      assert q.ids[a] == o.ids[n] && q.ids[b] == o.ids[m];
    }
  }

  lemma RenameKeepsForm(p: Product, i: nat, renames: seq<Rename>)
    requires FormOk(p) && i < |p.options| && Renamable(p.options[i], renames)
    ensures RenamesRun(p.options[i].ids.Keys, renames)
    ensures FormOk(RenameAll(p, i, renames))
  {
    RenamesActTogether(p, i, renames);
    RenameAllShape(p, i, renames);
    var q := RenameAll(p, i, renames);
    RenameKeepsOptions(p, i, renames, q);
    RenameKeepsChoices(p, i, renames, q);
    OnlyOptionPlaces(p, i, q);
  }

  lemma OnlyOptionPlaces(p: Product, i: nat, q: Product)
    requires OnlyOption(p, i, q) && Positioned(p.variants)
    ensures Positioned(q.variants) && VariantOrder(q.variants) == VariantOrder(p.variants)
  {
    forall id | id in p.variants ensures p.variants[id].position == q.variants[id].position {
      assert SameBut(p.variants[id], q.variants[id], p.options[i].name);
    }
    SamePlaces(p.variants, q.variants);
  }

  lemma RenameKeepsOptions(p: Product, i: nat, renames: seq<Rename>, q: Product)
    requires OptionsOk(p.options) && i < |p.options| && Renamable(p.options[i], renames)
    requires OnlyOption(p, i, q) && Substituted(p, i, SubOf(renames), q)
    ensures OptionsOk(q.options)
  {
    RenameKeepsOption(p.options[i], renames, q.options[i]);
  }

  lemma RenameKeepsChoices(p: Product, i: nat, renames: seq<Rename>, q: Product)
    requires FormOk(p) && i < |p.options| && Renamable(p.options[i], renames)
    requires OnlyOption(p, i, q) && Substituted(p, i, SubOf(renames), q) && Names(q.options) == Names(p.options)
    ensures VariantsOk(q.options, q.variants)
  {
    var name, sub := p.options[i].name, SubOf(renames);
    forall id | id in q.variants ensures ChoiceOk(q.options, q.variants[id].choice) {
      assert ChoiceOk(p.options, p.variants[id].choice);
      assert SameBut(p.variants[id], q.variants[id], name);
      assert ChoiceSubbed(p.variants[id], p.options[i], sub, q.variants[id]);
      var v := p.variants[id].choice[name];
      var k :| 0 <= k < |p.options[i].values| && p.options[i].values[k] == v;
      assert q.options[i].values[k] == Sub(sub, v);
    }
    forall a, b | a in q.variants && b in q.variants && a != b
      ensures q.variants[a].choice != q.variants[b].choice
    {
      assert ChoiceOk(p.options, p.variants[a].choice) && ChoiceOk(p.options, p.variants[b].choice);
      assert SameBut(p.variants[a], q.variants[a], name) && SameBut(p.variants[b], q.variants[b], name);
      assert ChoiceSubbed(p.variants[a], p.options[i], sub, q.variants[a]);
      assert ChoiceSubbed(p.variants[b], p.options[i], sub, q.variants[b]);
      var n := DifferAt(p.variants[a].choice, p.variants[b].choice);
      if n == name {
        SubSeparates(p.options[i], renames, p.variants[a].choice[n], p.variants[b].choice[n]);
      }
      assert q.variants[a].choice[n] != q.variants[b].choice[n];
    }
  }

  // ---- Moves -------------------------------------------------------------------------------

  ghost predicate DistinctMoves(moves: seq<Move>) {
    forall i, j :: 0 <= i < j < |moves| ==> moves[i].variantId != moves[j].variantId
  }

  ghost predicate MovedTo(vs: map<Id, Variant>, name: Name, m: Move, r: map<Id, Variant>) {
    && m.variantId in vs && m.variantId in r
    && r[m.variantId] == vs[m.variantId].(choice := vs[m.variantId].choice[name := m.to])
  }

  /** Each variant named by a move, and no other, chooses the move's target. */
  ghost predicate Moved(vs: map<Id, Variant>, name: Name, moves: seq<Move>, r: map<Id, Variant>) {
    && r.Keys == vs.Keys
    && (forall m :: m in moves ==> MovedTo(vs, name, m, r))
    && (forall id :: id in vs && (forall m :: m in moves ==> m.variantId != id) ==> r[id] == vs[id])
  }

  lemma {:induction false} MoveAllActs(vs: map<Id, Variant>, name: Name, moves: seq<Move>)
    requires DistinctMoves(moves) && forall m :: m in moves ==> m.variantId in vs
    ensures Moved(vs, name, moves, MoveAll(vs, name, moves))
  {
    if moves != [] {
      var front := moves[..|moves| - 1];
      MoveAllActs(vs, name, front);
      forall m | m in moves
        ensures MovedTo(vs, name, m, MoveAll(vs, name, moves))
      {
        if m != moves[|moves| - 1] {
          assert m in front && MovedTo(vs, name, m, MoveAll(vs, name, front));
        } else {
          assert forall k :: k in front ==> k.variantId != m.variantId;
        }
      }
    }
  }

  ghost predicate MovesFit(p: Product, o: ProductOption, moves: seq<Move>) {
    && DistinctMoves(moves)
    && (forall m :: m in moves ==> MoveFits(p, o, m))
    && (forall m, k :: m in moves && k in moves ==> m.from == k.from)
  }

  lemma MoveKeepsForm(p: Product, i: nat, moves: seq<Move>)
    requires FormOk(p) && i < |p.options| && MovesFit(p, p.options[i], moves)
    ensures forall m :: m in moves ==> m.variantId in p.variants
    ensures FormOk(p.(variants := MoveAll(p.variants, p.options[i].name, moves)))
  {
    forall m | m in moves ensures m.variantId in p.variants {
      assert MoveFits(p, p.options[i], m);
    }
    var name := p.options[i].name;
    var r := MoveAll(p.variants, name, moves);
    MoveAllActs(p.variants, name, moves);
    MovedPlaces(p.variants, name, moves, r);
    MovesKeepChoices(p, i, moves, r);
  }

  lemma MovedPlaces(vs: map<Id, Variant>, name: Name, moves: seq<Move>, r: map<Id, Variant>)
    requires Moved(vs, name, moves, r) && Positioned(vs)
    ensures Positioned(r) && VariantOrder(r) == VariantOrder(vs)
  {
    forall id | id in vs ensures vs[id].position == r[id].position {
      if m :| m in moves && m.variantId == id {
        assert MovedTo(vs, name, m, r);
      }
    }
    SamePlaces(vs, r);
  }

  lemma MovesKeepChoices(p: Product, i: nat, moves: seq<Move>, r: map<Id, Variant>)
    requires FormOk(p) && i < |p.options| && MovesFit(p, p.options[i], moves)
    requires Moved(p.variants, p.options[i].name, moves, r)
    ensures VariantsOk(p.options, r)
  {
    var q := p.(variants := r);
    assert Names(q.options) == Names(p.options);
    forall id | id in r ensures ChoiceOk(q.options, r[id].choice) {
      assert ChoiceOk(p.options, p.variants[id].choice);
      if m :| m in moves && m.variantId == id {
        assert MoveFits(p, p.options[i], m) && MovedTo(p.variants, p.options[i].name, m, r);
        ChoiceUpdateOk(p, p.variants[id].choice, i, m.to);
      } else {
        assert r[id] == p.variants[id];
      }
      assert ChoiceOk(p.options, r[id].choice);
    }
    forall a, b | a in r && b in r && a != b ensures r[a].choice != r[b].choice {
      MovesSeparate(p, i, moves, r, a, b);
    }
  }

  lemma ChoiceUpdateOk(p: Product, choice: map<Name, Name>, i: nat, to: Name)
    requires ChoiceOk(p.options, choice) && i < |p.options| && to in p.options[i].values
    requires forall j, k :: 0 <= j < k < |p.options| ==> p.options[j].name != p.options[k].name
    ensures ChoiceOk(p.options, choice[p.options[i].name := to])
  {
    assert Names(p.options)[i] in Names(p.options);
    assert choice[p.options[i].name := to].Keys == choice.Keys;
  }

  lemma MovesSeparate(p: Product, i: nat, moves: seq<Move>, r: map<Id, Variant>, a: Id, b: Id)
    requires FormOk(p) && i < |p.options| && MovesFit(p, p.options[i], moves)
    requires Moved(p.variants, p.options[i].name, moves, r)
    requires a in p.variants && b in p.variants && a != b
    ensures r[a].choice != r[b].choice
  {
    var name := p.options[i].name;
    if m :| m in moves && m.variantId == a {
      assert MoveFits(p, p.options[i], m) && MovedTo(p.variants, name, m, r);
      if k :| k in moves && k.variantId == b {
        assert MoveFits(p, p.options[i], k) && MovedTo(p.variants, name, k, r);
        assert ChoiceOk(p.options, p.variants[a].choice) && ChoiceOk(p.options, p.variants[b].choice);
        var n := DifferAt(p.variants[a].choice, p.variants[b].choice);
        assert r[a].choice[n] != r[b].choice[n];
      } else {
        assert r[b] == p.variants[b];
      }
    } else {
      assert r[a] == p.variants[a];
      if k :| k in moves && k.variantId == b {
        assert MoveFits(p, p.options[i], k) && MovedTo(p.variants, name, k, r);
      } else {
        assert r[b] == p.variants[b];
      }
    }
  }

  // ---- Orders -------------------------------------------------------------------------------

  ghost predicate Listed(options: seq<ProductOption>, orders: seq<ValueOrder>) {
    |orders| <= |options| && forall i :: 0 <= i < |orders| ==> orders[i].id == options[i].id
  }

  lemma ListedHaveIds(options: seq<ProductOption>, orders: seq<ValueOrder>)
    requires Listed(options, orders)
    ensures forall w :: w in orders ==> HasId(options, w.id)
  {
    forall w | w in orders ensures HasId(options, w.id) {
      var i :| 0 <= i < |orders| && orders[i] == w;
      assert options[i].id == w.id;
    }
  }

  lemma IndexOfDistinct(options: seq<ProductOption>, i: nat)
    requires forall j, k :: 0 <= j < k < |options| ==> options[j].id != options[k].id
    requires i < |options|
    ensures HasId(options, options[i].id) && IndexOf(options, options[i].id) == i
  {
    assert HasId(options, options[i].id);
  }

  lemma {:induction false} ReorderAllActs(options: seq<ProductOption>, orders: seq<ValueOrder>)
    requires forall i, j :: 0 <= i < j < |options| ==> options[i].id != options[j].id
    requires Listed(options, orders)
    ensures forall w :: w in orders ==> HasId(options, w.id)
    ensures forall i :: 0 <= i < |options| ==>
      ReorderAll(options, orders)[i].values == if i < |orders| then orders[i].values else options[i].values
  {
    ListedHaveIds(options, orders);
    if orders != [] {
      var front := orders[..|orders| - 1];
      ReorderAllActs(options, front);
      IndexOfDistinct(ReorderAll(options, front), |front|);
    }
  }

  lemma PermutedOptionOk(o: ProductOption, values: seq<Name>)
    requires OptionOk(o) && multiset(values) == multiset(o.values)
    ensures OptionOk(o.(values := values)) && forall v :: v in values <==> v in o.values
  {
    NormDistinctNoDup(o.values);
    PermutationMembers(o.values, values);
    assert forall v :: v in values <==> v in Elems(values);
    NormDistinctOver(o.values, values);
  }

  ghost predicate Permuted(options: seq<ProductOption>, r: seq<ProductOption>) {
    |r| == |options| && forall i :: 0 <= i < |r| ==>
      r[i] == options[i].(values := r[i].values) && multiset(r[i].values) == multiset(options[i].values)
  }

  lemma PermutedOptionsOk(options: seq<ProductOption>, r: seq<ProductOption>)
    requires OptionsOk(options) && Permuted(options, r)
    ensures OptionsOk(r)
    ensures forall i :: 0 <= i < |r| ==> forall v :: v in r[i].values <==> v in options[i].values
  {
    forall i | 0 <= i < |r| ensures OptionOk(r[i]) && forall v :: v in r[i].values <==> v in options[i].values {
      PermutedOptionOk(options[i], r[i].values);
    }
  }

  lemma ReorderKeepsForm(p: Product, orders: seq<ValueOrder>)
    requires FormOk(p) && Fits(p, ReorderValues(orders))
    ensures forall w :: w in orders ==> HasId(p.options, w.id)
    ensures FormOk(p.(options := ReorderAll(p.options, orders)))
  {
    ReorderAllActs(p.options, orders);
    var r := ReorderAll(p.options, orders);
    assert Permuted(p.options, r);
    PermutedOptionsOk(p.options, r);
    SameValuesKeepChoices(p.options, r, p.variants);
  }

  lemma SameValuesKeepChoices(options: seq<ProductOption>, r: seq<ProductOption>, vs: map<Id, Variant>)
    requires |r| == |options| && VariantsOk(options, vs)
    requires forall i :: 0 <= i < |r| ==>
      r[i].name == options[i].name && forall v :: v in options[i].values ==> v in r[i].values
    ensures VariantsOk(r, vs)
  {
    assert Names(r) == Names(options);
    forall id | id in vs ensures ChoiceOk(r, vs[id].choice) {
      assert ChoiceOk(options, vs[id].choice);
    }
  }

  lemma {:induction false} PlaceAllActs(vs: map<Id, Variant>, order: seq<Id>)
    requires NoDup(order) && forall id :: id in order ==> id in vs
    ensures forall k :: 0 <= k < |order| ==> PlaceAll(vs, order)[order[k]].position == k + 1
  {
    if order != [] {
      PlaceAllActs(vs, order[..|order| - 1]);
    }
  }

  lemma RestoreKeepsForm(p: Product, order: seq<Id>)
    requires FormOk(p) && Fits(p, RestorePositions(order))
    ensures forall id :: id in order ==> id in p.variants
    ensures FormOk(p.(variants := PlaceAll(p.variants, order)))
    ensures VariantOrder(PlaceAll(p.variants, order)) == order
  {
    ListingOf(order, p.variants.Keys);
    PlaceAllActs(p.variants, order);
    PlaceAllShape(p.variants, order);
    var r := PlaceAll(p.variants, order);
    assert IsOrder(r, order);
    OrderIsUnique(r, order, VariantOrder(r));
    forall id | id in r ensures ChoiceOk(p.options, r[id].choice) {
      assert ChoiceOk(p.options, p.variants[id].choice);
    }
  }

  // ---- One value added or removed -------------------------------------------------------------

  lemma OneOptionKeepsForm(p: Product, i: nat, o: ProductOption)
    requires FormOk(p) && i < |p.options| && OptionOk(o)
    requires o.id == p.options[i].id && o.name == p.options[i].name
    requires forall id :: id in p.variants && o.name in p.variants[id].choice ==>
      (p.variants[id].choice[o.name] in p.options[i].values ==> p.variants[id].choice[o.name] in o.values)
    ensures FormOk(p.(options := p.options[i := o]))
  {
    var r := p.options[i := o];
    assert Names(r) == Names(p.options);
    forall id | id in p.variants ensures ChoiceOk(r, p.variants[id].choice) {
      assert ChoiceOk(p.options, p.variants[id].choice);
    }
  }

  lemma AddKeepsForm(p: Product, i: nat, name: Name)
    requires FormOk(p) && i < |p.options|
    requires forall v :: v in p.options[i].values ==> norm(v) != norm(name)
    ensures var o := p.options[i];
      FormOk(p.(options := p.options[i := o.(values := o.values + [name], ids := o.ids[name := None])]))
  {
    var o := p.options[i];
    var q := o.(values := o.values + [name], ids := o.ids[name := None]);
    assert OptionOk(o);
    forall v ensures v in q.ids <==> v in q.values {
      assert v in o.ids <==> v in Elems(o.values);
    }
    assert OptionOk(q);
    OneOptionKeepsForm(p, i, q);
  }

  lemma DeleteKeepsForm(p: Product, i: nat, name: Name)
    requires FormOk(p) && i < |p.options|
    requires forall u :: u in p.variants && p.options[i].name in p.variants[u].choice ==>
      p.variants[u].choice[p.options[i].name] != name
    ensures var o := p.options[i];
      FormOk(p.(options := p.options[i := o.(values := Outside(o.values, {name}), ids := o.ids - {name})]))
  {
    var o := p.options[i];
    var q := o.(values := Outside(o.values, {name}), ids := o.ids - {name});
    assert OptionOk(o);
    NormDistinctNoDup(o.values);
    OutsideNoDup(o.values, {name});
    NormDistinctOver(o.values, q.values);
    forall v ensures v in q.ids <==> v in q.values {
      assert v in o.ids <==> v in Elems(o.values);
    }
    assert OptionOk(q);
    OneOptionKeepsForm(p, i, q);
  }

  // ---- Every edit ------------------------------------------------------------------------------

  lemma WriteKeepsForm(p: Product, op: Op)
    requires FormOk(p) && Fits(p, op) && Guarded(op)
    ensures Runs(p, op) && FormOk(Write(p, op))
  {
    FormReadable(p);
    match op
    case Title(_, _, _) =>
    case RenameValues(id, renames) =>
      assert OptionOk(p.options[IndexOf(p.options, id)]);
      RenameKeepsForm(p, IndexOf(p.options, id), renames);
    case AddValue(id, name) => AddKeepsForm(p, IndexOf(p.options, id), name);
    case MoveVariants(id, moves) =>
      var i := IndexOf(p.options, id);
      assert MovesFit(p, p.options[i], moves);
      MoveKeepsForm(p, i, moves);
    case DeleteValue(id, _, name) => DeleteKeepsForm(p, IndexOf(p.options, id), name);
    case ReorderValues(orders) => ReorderKeepsForm(p, orders);
    case RestorePositions(order) => RestoreKeepsForm(p, order);
  }

  /** Every edit whose guard passes runs, and leaves a well-formed product; so does
      the state without the re-flow that a move is also allowed to leave. */
  lemma EditKeepsForm(p: Product, op: Op)
    requires WellFormed(p) && Fits(p, op) && Guarded(op)
    ensures Runs(p, op) && WellFormed(Simulate(p, op))
    ensures FlagsOf(p, op).alternative.Some? ==> WellFormed(FlagsOf(p, op).alternative.value)
  {
    WriteKeepsForm(p, op);
    WriteShape(p, op);
    RetitleKeepsForm(Write(p, op));
    if op.MoveVariants? {
      ReflowKeepsForm(Write(p, op));
      RetitleKeepsForm(Reflow(Write(p, op)));
    }
  }
}
