/** The simulator and the guard as the scripts run them: loops over a copied state,
    proved against `Simulate`, `FlagsOf` and `Passes`. */
module Simulation {
  import opened Lists
  import opened Catalogue
  import opened Edits

  // ---- Variants by position ---------------------------------------------------------------

  /** The keys of a dictionary, in whatever order it iterates. */
  method KeysOf(vs: map<Id, Variant>) returns (listing: seq<Id>)
    ensures NoDup(listing) && forall id :: id in listing <==> id in vs
  {
    listing := [];
    var todo := vs.Keys;
    while todo != {}
      invariant todo <= vs.Keys && NoDup(listing)
      invariant forall id :: id in listing <==> id in vs && id !in todo
    {
      var id :| id in todo;
      listing := listing + [id];
      todo := todo - {id};
    }
  }

  ghost predicate ListedBefore(listing: seq<Id>, a: Id, b: Id) {
    exists i, j :: 0 <= i < j < |listing| && listing[i] == a && listing[j] == b
  }

  /** A lower position, or the same one and listed first. */
  ghost predicate Precedes(vs: map<Id, Variant>, listing: seq<Id>, a: Id, b: Id) {
    && a in vs && b in vs
    && (vs[a].position < vs[b].position || (vs[a].position == vs[b].position && ListedBefore(listing, a, b)))
  }

  /** The listed ids, each once, by position; those that tie stay as they are listed. */
  ghost predicate StablySorted(vs: map<Id, Variant>, listing: seq<Id>, order: seq<Id>) {
    && NoDup(order) && (forall id :: id in order <==> id in listing)
    && forall i, j :: 0 <= i < j < |order| ==> Precedes(vs, listing, order[i], order[j])
  }

  ghost predicate AllKeys(vs: map<Id, Variant>, order: seq<Id>) {
    forall i :: 0 <= i < |order| ==> order[i] in vs
  }

  lemma ListedMore(listing: seq<Id>, id: Id, a: Id, b: Id)
    requires ListedBefore(listing, a, b)
    ensures ListedBefore(listing + [id], a, b)
  {
    var i, j :| 0 <= i < j < |listing| && listing[i] == a && listing[j] == b;
    assert (listing + [id])[i] == a && (listing + [id])[j] == b;
  }

  lemma ListedLast(listing: seq<Id>, id: Id, a: Id)
    requires a in listing
    ensures ListedBefore(listing + [id], a, id)
  {
    var i :| 0 <= i < |listing| && listing[i] == a;
    assert (listing + [id])[i] == a && (listing + [id])[|listing|] == id;
  }

  /** A new id goes after everything not above it and before everything above it. */
  lemma InsertSorted(vs: map<Id, Variant>, listing: seq<Id>, order: seq<Id>, id: Id, m: nat)
    requires StablySorted(vs, listing, order) && id in vs && id !in listing && m <= |order|
    requires AllKeys(vs, order)
    requires forall i :: 0 <= i < m ==> vs[order[i]].position <= vs[id].position
    requires forall i :: m <= i < |order| ==> vs[id].position < vs[order[i]].position
    ensures StablySorted(vs, listing + [id], order[..m] + [id] + order[m..])
  {
    var more := order[..m] + [id] + order[m..];
    assert forall i :: 0 <= i < |more| ==> more[i] == if i < m then order[i] else if i == m then id else order[i - 1];
    forall i, j | 0 <= i < j < |more| ensures Precedes(vs, listing + [id], more[i], more[j]) {
      if j == m {
        ListedLast(listing, id, order[i]);
      } else if i != m {
        var a, b := if i < m then i else i - 1, if j < m then j else j - 1;
        assert Precedes(vs, listing, order[a], order[b]);
        if vs[order[a]].position == vs[order[b]].position {
          ListedMore(listing, id, order[a], order[b]);
        }
      }
    }
    assert more[m] == id;
    forall x | x in listing ensures x in more {
      var i :| 0 <= i < |order| && order[i] == x;
      assert more[if i < m then i else i + 1] == x;
    }
  }

  /** `variant_order`: the variant ids sorted by position, stably. */
  method InPositionOrder(vs: map<Id, Variant>, listing: seq<Id>) returns (order: seq<Id>)
    requires NoDup(listing) && forall id :: id in listing <==> id in vs
    ensures StablySorted(vs, listing, order)
    ensures Positioned(vs) ==> order == VariantOrder(vs)
  {
    order := [];
    for k := 0 to |listing|
      invariant StablySorted(vs, listing[..k], order) && AllKeys(vs, order)
    {
      var id := listing[k];
      assert id in listing && id !in listing[..k];
      var m := |order|;
      while m > 0 && vs[order[m - 1]].position > vs[id].position
        invariant 0 <= m <= |order|
        invariant forall i :: m <= i < |order| ==> vs[id].position < vs[order[i]].position
      {
        m := m - 1;
      }
      BelowInsertion(vs, listing[..k], order, m);
      InsertSorted(vs, listing[..k], order, id, m);
      assert listing[..k + 1] == listing[..k] + [id];
      order := order[..m] + [id] + order[m..];
    }
    assert listing[..|listing|] == listing;
    if Positioned(vs) {
      SortedIsOrder(vs, listing, order, VariantOrder(vs));
    }
  }

  /** `variant_order` on the store's positions: however the dictionary iterates, one result. */
  method OwnOrder(vs: map<Id, Variant>) returns (order: seq<Id>)
    requires Positioned(vs)
    ensures order == VariantOrder(vs)
  {
    var listing := KeysOf(vs);
    order := InPositionOrder(vs, listing);
  }

  lemma BelowInsertion(vs: map<Id, Variant>, listing: seq<Id>, order: seq<Id>, m: nat)
    requires StablySorted(vs, listing, order) && m <= |order| && AllKeys(vs, order)
    ensures forall i :: 0 <= i < m ==> vs[order[i]].position <= vs[order[m - 1]].position
  {
    forall i | 0 <= i < m ensures vs[order[i]].position <= vs[order[m - 1]].position {
      if i < m - 1 {
        assert Precedes(vs, listing, order[i], order[m - 1]);
      }
    }
  }

  lemma {:induction false} SortedUpTo(vs: map<Id, Variant>, listing: seq<Id>, order: seq<Id>, sorted: seq<Id>, n: nat)
    requires IsOrder(vs, sorted) && StablySorted(vs, listing, order) && n <= |order|
    requires forall id :: id in listing <==> id in vs
    ensures n <= |sorted| && order[..n] == sorted[..n]
  {
    if n > 0 {
      SortedUpTo(vs, listing, order, sorted, n - 1);
      SameRest(vs, listing, order, sorted, n - 1);
      assert order[n - 1..][0] == order[n - 1];
      assert order[n - 1] in order[n - 1..];
      NextIsLowest(vs, sorted, n - 1, order[n - 1]);
    }
  }

  /** With the positions 1 to n nothing ties, and the order is the product's own. */
  lemma SortedIsOrder(vs: map<Id, Variant>, listing: seq<Id>, order: seq<Id>, sorted: seq<Id>)
    requires IsOrder(vs, sorted) && StablySorted(vs, listing, order)
    requires forall id :: id in listing <==> id in vs
    ensures order == sorted
  {
    SortedUpTo(vs, listing, order, sorted, |order|);
    SameRest(vs, listing, order, sorted, |order|);
    EmptyOrSome(sorted[|order|..]);
    assert order[..|order|] == order;
    assert sorted == sorted[..|order|] + sorted[|order|..];
  }

  /** Beyond a common part both orders hold the same ids, none below the next one. */
  lemma SameRest(vs: map<Id, Variant>, listing: seq<Id>, order: seq<Id>, sorted: seq<Id>, n: nat)
    requires IsOrder(vs, sorted) && StablySorted(vs, listing, order) && n <= |order| && n <= |sorted|
    requires (forall id :: id in listing <==> id in vs) && order[..n] == sorted[..n]
    ensures forall id :: id in sorted[n..] <==> id in order[n..]
    ensures forall id :: id in order[n..] ==> id in vs && vs[order[n]].position <= vs[id].position
  {
    assert forall i, j :: 0 <= i < j < |sorted| ==> vs[sorted[i]].position == i + 1 && vs[sorted[j]].position == j + 1;
    BeyondPrefix(order, n);
    BeyondPrefix(sorted, n);
    forall id | id in order[n..] ensures id in vs && vs[order[n]].position <= vs[id].position {
      var i :| 0 <= i < |order[n..]| && order[n..][i] == id;
      assert order[n + i] == id && id in order;
      if i > 0 {
        assert Precedes(vs, listing, order[n], order[n + i]);
      }
    }
  }

  lemma BeyondPrefix<T>(s: seq<T>, n: nat)
    requires NoDup(s) && n <= |s|
    ensures forall x :: x in s[n..] <==> x in s && x !in s[..n]
  {
    assert s == s[..n] + s[n..];
  }

  lemma NextIsLowest(vs: map<Id, Variant>, sorted: seq<Id>, n: nat, first: Id)
    requires IsOrder(vs, sorted) && n <= |sorted| && first in sorted[n..]
    requires forall id :: id in sorted[n..] ==> vs[first].position <= vs[id].position
    ensures n < |sorted| && sorted[n] == first
    ensures forall id :: id in sorted[n + 1..] <==> id in sorted[n..] && id != first
  {
    var j :| 0 <= j < |sorted[n..]| && sorted[n..][j] == first;
    assert sorted[n..][0] == sorted[n];
    assert sorted[n..] == [sorted[n]] + sorted[n + 1..];
    forall k | n < k < |sorted| ensures sorted[k] != first {
      assert vs[sorted[k]].position == k + 1;
    }
  }

  // ---- Re-flow --------------------------------------------------------------------------------

  function Paired(id: Id, names: seq<Name>): (r: seq<(Id, Name)>)
    ensures forall f :: f in r <==> f.0 == id && f.1 in names
  {
    if names == [] then [] else Paired(id, names[..|names| - 1]) + [(id, names[|names| - 1])]
  }

  ghost predicate ReportsUnused(p: Product, n: nat, unused: seq<(Id, Name)>)
    requires Readable(p) && n <= |p.options|
  {
    forall f :: f in unused <==> exists i :: 0 <= i < n && f.0 == p.options[i].id && f.1 in UnusedValues(p, i)
  }

  /** `reflow_values`: one pass over the options, one inner pass over the variants. */
  method ReflowValues(p: Product) returns (q: Product, unused: seq<(Id, Name)>)
    requires Readable(p)
    ensures q == Reflow(p) && ReportsUnused(p, |p.options|, unused)
  {
    var byPosition := OwnOrder(p.variants);
    q, unused := p, [];
    for i := 0 to |p.options|
      invariant q == p.(options := q.options) && |q.options| == |p.options|
      invariant forall j :: 0 <= j < i ==> q.options[j] == p.options[j].(values := ReflowedValues(p, j))
      invariant forall j :: i <= j < |p.options| ==> q.options[j] == p.options[j]
      invariant ReportsUnused(p, i, unused)
    {
      var o := p.options[i];
      ghost var column := Column(p.variants, byPosition, Names(p.options)[i]);
      var used: seq<Name> := [];
      for k := 0 to |byPosition|
        invariant used == FirstSeen(column[..k])
      {
        var value := p.variants[byPosition[k]].choice[o.name];
        assert column[..k + 1][..k] == column[..k];
        if value !in used {
          used := used + [value];
        }
      }
      assert column[..|byPosition|] == column;
      var rest := Outside(o.values, set v | v in used);
      assert (set v | v in used) == Elems(used);
      q := q.(options := q.options[i := o.(values := used + rest)]);
      unused := unused + Paired(o.id, rest);
    }
    assert q.options == Reflow(p).options;
  }

  // ---- The other writes -------------------------------------------------------------------------

  method RenameChoices(vs: map<Id, Variant>, name: Name, r: Rename) returns (out: map<Id, Variant>)
    ensures out == map id | id in vs :: RenamedChoice(vs[id], name, r)
  {
    out := vs;
    var todo := vs.Keys;
    while todo != {}
      invariant out.Keys == vs.Keys && todo <= vs.Keys
      invariant forall id :: id in vs ==> out[id] == if id in todo then vs[id] else RenamedChoice(vs[id], name, r)
    {
      var id :| id in todo;
      out := out[id := RenamedChoice(out[id], name, r)];
      todo := todo - {id};
    }
  }

  lemma {:induction false} RenamesRunPrefix(keys: set<Name>, renames: seq<Rename>, k: nat)
    requires RenamesRun(keys, renames) && k <= |renames|
    ensures RenamesRun(keys, renames[..k])
    decreases |renames|
  {
    if k == |renames| {
      assert renames[..k] == renames;
    } else {
      RenamesRunPrefix(keys, renames[..|renames| - 1], k);
      assert renames[..|renames| - 1][..k] == renames[..k];
    }
  }

  /** The renames one by one; a source that is not there ends it. */
  method RenameLoop(p: Product, i: nat, renames: seq<Rename>) returns (r: Maybe<Product>)
    requires i < |p.options|
    ensures r.Some? <==> RenamesRun(p.options[i].ids.Keys, renames)
    ensures r.Some? ==> r.value == RenameAll(p, i, renames)
  {
    var out := p;
    for k := 0 to |renames|
      invariant RenamesRun(p.options[i].ids.Keys, renames[..k])
      invariant out == RenameAll(p, i, renames[..k])
    {
      var m := renames[k];
      assert renames[..k + 1][..k] == renames[..k];
      if m.from !in out.options[i].ids {
        if RenamesRun(p.options[i].ids.Keys, renames) {
          RenamesRunPrefix(p.options[i].ids.Keys, renames, k + 1);
        }
        return None;
      }
      var o := out.options[i];
      var renamed := RenameChoices(out.variants, o.name, m);
      out := out.(options := out.options[i := o.(
                    values := Replaced(o.values, m.from, m.to),
                    ids := (o.ids - {m.from})[m.to := o.ids[m.from]])],
                  variants := renamed);
    }
    assert renames[..|renames|] == renames;
    return Some(out);
  }

  method MoveLoop(vs: map<Id, Variant>, name: Name, moves: seq<Move>) returns (r: Maybe<map<Id, Variant>>)
    ensures r.Some? <==> forall m :: m in moves ==> m.variantId in vs
    ensures r.Some? ==> r.value == MoveAll(vs, name, moves)
  {
    var out := vs;
    for k := 0 to |moves|
      invariant forall m :: m in moves[..k] ==> m.variantId in vs
      invariant out == MoveAll(vs, name, moves[..k])
    {
      var m := moves[k];
      assert moves[..k + 1][..k] == moves[..k];
      if m.variantId !in vs {
        assert m in moves;
        return None;
      }
      out := out[m.variantId := out[m.variantId].(choice := out[m.variantId].choice[name := m.to])];
    }
    assert moves[..|moves|] == moves;
    return Some(out);
  }

  method ReorderLoop(options: seq<ProductOption>, orders: seq<ValueOrder>) returns (r: Maybe<seq<ProductOption>>)
    ensures r.Some? <==> forall w :: w in orders ==> HasId(options, w.id)
    ensures r.Some? ==> r.value == ReorderAll(options, orders)
  {
    var out := options;
    for k := 0 to |orders|
      invariant forall w :: w in orders[..k] ==> HasId(options, w.id)
      invariant out == ReorderAll(options, orders[..k])
    {
      var w := orders[k];
      assert orders[..k + 1][..k] == orders[..k];
      var known := HasId(out, w.id);
      assert known == HasId(options, w.id) by {
        if j :| 0 <= j < |options| && options[j].id == w.id {
          assert out[j].id == w.id;
        }
        if j :| 0 <= j < |out| && out[j].id == w.id {
          assert options[j].id == w.id;
        }
      }
      if !known {
        assert w in orders;
        return None;
      }
      var i := IndexOf(out, w.id);
      out := out[i := out[i].(values := w.values)];
    }
    assert orders[..|orders|] == orders;
    return Some(out);
  }

  method PlaceLoop(vs: map<Id, Variant>, order: seq<Id>) returns (r: Maybe<map<Id, Variant>>)
    ensures r.Some? <==> forall id :: id in order ==> id in vs
    ensures r.Some? ==> r.value == PlaceAll(vs, order)
  {
    var out := vs;
    for k := 0 to |order|
      invariant forall id :: id in order[..k] ==> id in vs
      invariant out == PlaceAll(vs, order[..k])
    {
      var id := order[k];
      assert order[..k + 1][..k] == order[..k];
      if id !in vs {
        assert id in order;
        return None;
      }
      out := out[id := out[id].(position := k + 1)];
    }
    assert order[..|order|] == order;
    return Some(out);
  }

  method TitleLoop(p: Product) returns (q: Product)
    requires forall id :: id in p.variants ==> Covers(Names(p.options), p.variants[id].choice)
    ensures q == Retitle(p)
  {
    var out, todo := p.variants, p.variants.Keys;
    while todo != {}
      invariant out.Keys == p.variants.Keys && todo <= p.variants.Keys
      invariant forall id :: id in p.variants ==>
        out[id] == if id in todo then p.variants[id]
                   else p.variants[id].(title := TitleOf(Names(p.options), p.variants[id].choice))
    {
      var id :| id in todo;
      out := out[id := out[id].(title := TitleOf(Names(p.options), out[id].choice))];
      todo := todo - {id};
    }
    q := p.(variants := out);
    assert q.variants == Retitle(p).variants;
  }

  // ---- simulate ------------------------------------------------------------------------------------

  /** What the edit itself writes; None where the script stops with an error. */
  method WriteEdit(p: Product, op: Op) returns (r: Maybe<Product>)
    requires Readable(p)
    ensures r.Some? <==> Runs(p, op)
    ensures r.Some? ==> r.value == Write(p, op)
  {
    match op
    case Title(_, to, _) => return Some(p.(title := to));
    case RenameValues(id, renames) =>
      if !HasOption(p, id) { return None; }
      r := RenameLoop(p, IndexOf(p.options, id), renames);
    case AddValue(id, name) =>
      if !HasOption(p, id) { return None; }
      var i := IndexOf(p.options, id);
      var o := p.options[i];
      return Some(p.(options := p.options[i := o.(values := o.values + [name], ids := o.ids[name := None])]));
    case MoveVariants(id, moves) =>
      if !HasOption(p, id) { return None; }
      var moved := MoveLoop(p.variants, p.options[IndexOf(p.options, id)].name, moves);
      if moved.None? { return None; }
      return Some(p.(variants := moved.value));
    case DeleteValue(id, _, name) =>
      if !HasOption(p, id) { return None; }
      var i := IndexOf(p.options, id);
      var o := p.options[i];
      return Some(p.(options := p.options[i := o.(values := Outside(o.values, {name}), ids := o.ids - {name})]));
    case ReorderValues(orders) =>
      var ordered := ReorderLoop(p.options, orders);
      if ordered.None? { return None; }
      return Some(p.(options := ordered.value));
    case RestorePositions(order) =>
      var placed := PlaceLoop(p.variants, order);
      if placed.None? { return None; }
      return Some(p.(variants := placed.value));
  }

  /** After a move: the re-flowed state, the state without the re-flow as the accepted
      alternative, and the unused values left free. */
  method FollowMove(w: Product) returns (out: Product, flags: Flags)
    requires Readable(w)
    ensures out == Reflow(w)
    ensures flags.alternative == Some(Retitle(w)) && !flags.positionsFree
    ensures flags.freeValues == set i, n | 0 <= i < |w.options| && n in UnusedValues(w, i) :: (w.options[i].id, n)
  {
    var flowed, unused := ReflowValues(w);
    var alternative := TitleLoop(w);
    out := flowed;
    flags := NoFlags.(freeValues := (set f | f in unused), alternative := Some(alternative));
    forall f ensures f in flags.freeValues <==>
      f in set i, n | 0 <= i < |w.options| && n in UnusedValues(w, i) :: (w.options[i].id, n)
    {
      assert f in unused <==> exists i :: 0 <= i < |w.options| && f.0 == w.options[i].id && f.1 in UnusedValues(w, i);
    }
  }

  /** `simulate`: write, follow with the re-flow after a move, rebuild the titles of
      the state and of the accepted alternative, and say what the store decides. */
  method SimulateEdit(p: Product, op: Op) returns (r: Maybe<(Product, Flags)>)
    requires Readable(p)
    ensures r.Some? <==> Runs(p, op)
    ensures r.Some? ==> r.value.0 == Simulate(p, op) && r.value.1 == FlagsOf(p, op)
  {
    var written := WriteEdit(p, op);
    if written.None? { return None; }
    WriteShape(p, op);
    var out, flags := written.value, NoFlags;
    if op.AddValue? {
      flags := flags.(freeValues := {(op.optionId, op.name)});
    } else if op.MoveVariants? {
      out, flags := FollowMove(out);
    } else if op.ReorderValues? {
      flags := flags.(positionsFree := true);
    }
    out := TitleLoop(out);
    return Some((out, flags));
  }
}
