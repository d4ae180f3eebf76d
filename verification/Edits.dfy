/** The guards of the apply script, and what they buy: an edit whose guard passes
    keeps a product well formed. */
module Edits {
  import opened Lists
  import opened Catalogue

  // ---- Guards ------------------------------------------------------------------------

  /** No value reads like the target of a rename, except the value renamed. */
  ghost predicate NoClash(values: seq<Name>, renames: seq<Rename>) {
    forall r, v :: r in renames && v in values && norm(v) == norm(r.to) ==> v == r.from
  }

  ghost predicate MoveFits(p: Product, o: ProductOption, m: Move) {
    && m.variantId in p.variants
    && o.name in p.variants[m.variantId].choice
    && p.variants[m.variantId].choice[o.name] == m.from
    && m.to in o.values
    && forall u :: u in p.variants ==> p.variants[u].choice != p.variants[m.variantId].choice[o.name := m.to]
  }

  /** The part of an edit's guard that reads names, titles and variants. */
  ghost predicate Fits(p: Product, op: Op) {
    match op
    case Title(from, _, handle) => p.title == from && p.handle == handle
    case RenameValues(id, renames) =>
      && HasOption(p, id)
      && var o := p.options[IndexOf(p.options, id)];
      (forall r :: r in renames ==> r.from in o.values) && NoClash(o.values, renames)
    case AddValue(id, name) =>
      HasOption(p, id) && forall v :: v in p.options[IndexOf(p.options, id)].values ==> norm(v) != norm(name)
    case MoveVariants(id, moves) =>
      HasOption(p, id) && forall m :: m in moves ==> MoveFits(p, p.options[IndexOf(p.options, id)], m)
    case DeleteValue(id, _, name) =>
      && HasOption(p, id)
      && var o := p.options[IndexOf(p.options, id)];
      && name in o.values
      && (forall u :: u in p.variants && o.name in p.variants[u].choice ==> p.variants[u].choice[o.name] != name)
    case ReorderValues(orders) =>
      && |orders| == |p.options|
      && forall i :: 0 <= i < |orders| ==>
           orders[i].id == p.options[i].id && multiset(orders[i].values) == multiset(p.options[i].values)
    case RestorePositions(order) => multiset(order) == multiset(p.variants.Keys)
  }

  /** The part that reads value ids: an edit names values of the store by id. */
  ghost predicate NamesIds(p: Product, op: Op) {
    match op
    case RenameValues(id, renames) =>
      HasOption(p, id) && forall r :: r in renames ==>
        r.from in p.options[IndexOf(p.options, id)].ids
        && p.options[IndexOf(p.options, id)].ids[r.from] == Some(r.valueId)
    case MoveVariants(id, moves) =>
      HasOption(p, id) && forall m :: m in moves ==>
        m.to in p.options[IndexOf(p.options, id)].ids && p.options[IndexOf(p.options, id)].ids[m.to].Some?
    case DeleteValue(id, valueId, name) =>
      HasOption(p, id) && name in p.options[IndexOf(p.options, id)].ids
      && p.options[IndexOf(p.options, id)].ids[name] == Some(valueId)
    case _ => true
  }

  /** The apply script's check before a write neither raises nor reports a problem. */
  ghost predicate Passes(p: Product, op: Op) {
    Fits(p, op) && NamesIds(p, op)
  }

  ghost predicate DistinctRenames(renames: seq<Rename>) {
    forall i, j :: 0 <= i < j < |renames| ==>
      renames[i].from != renames[j].from && norm(renames[i].to) != norm(renames[j].to)
  }

  /** What the planners promise about the shape of an edit: renames with distinct
      sources and targets, moves that name each variant once from one value. */
  ghost predicate Guarded(op: Op) {
    match op
    case RenameValues(_, renames) => DistinctRenames(renames)
    case MoveVariants(_, moves) =>
      && (forall i, j :: 0 <= i < j < |moves| ==> moves[i].variantId != moves[j].variantId)
      && (forall i, j :: 0 <= i < |moves| && 0 <= j < |moves| ==> moves[i].from == moves[j].from)
    case _ => true
  }

  // ---- Renames, one by one and all at once ------------------------------------------------

  function SubOf(renames: seq<Rename>): map<Name, Name> {
    if renames == [] then map[]
    else SubOf(renames[..|renames| - 1])[renames[|renames| - 1].from := renames[|renames| - 1].to]
  }

  function Sub(sub: map<Name, Name>, n: Name): Name {
    if n in sub then sub[n] else n
  }

  lemma {:induction false} SubOfMeans(renames: seq<Rename>)
    ensures forall n :: n in SubOf(renames) ==>
      exists i :: 0 <= i < |renames| && renames[i].from == n && renames[i].to == SubOf(renames)[n]
    ensures forall i :: 0 <= i < |renames| ==> renames[i].from in SubOf(renames)
    ensures DistinctRenames(renames) ==>
      forall i :: 0 <= i < |renames| ==> SubOf(renames)[renames[i].from] == renames[i].to
  {
    if renames != [] {
      var front := renames[..|renames| - 1];
      SubOfMeans(front);
      assert DistinctRenames(renames) ==> DistinctRenames(front);
      forall n | n in SubOf(renames)
        ensures exists i :: 0 <= i < |renames| && renames[i].from == n && renames[i].to == SubOf(renames)[n]
      {
        if n != renames[|renames| - 1].from {
          var i :| 0 <= i < |front| && front[i].from == n && front[i].to == SubOf(front)[n];
          assert renames[i].from == n;
        } else {
          assert renames[|renames| - 1].from == n;
        }
      }
      forall i | 0 <= i < |renames| ensures renames[i].from in SubOf(renames) {
        if i < |front| { assert front[i].from in SubOf(front); }
      }
    }
  }

  ghost predicate Renamable(o: ProductOption, renames: seq<Rename>) {
    && OptionOk(o)
    && DistinctRenames(renames)
    && (forall r :: r in renames ==> r.from in o.values)
    && NoClash(o.values, renames)
  }

  /** Distinct values stay distinct under the guards, even up to `norm`. */
  lemma SubSeparates(o: ProductOption, renames: seq<Rename>, a: Name, b: Name)
    requires Renamable(o, renames)
    requires a in o.values && b in o.values && a != b
    ensures norm(Sub(SubOf(renames), a)) != norm(Sub(SubOf(renames), b))
  {
    var sub := SubOf(renames);
    SubOfMeans(renames);
    if a in sub {
      var i :| 0 <= i < |renames| && renames[i].from == a && renames[i].to == sub[a];
      if b in sub {
        var j :| 0 <= j < |renames| && renames[j].from == b && renames[j].to == sub[b];
        assert i != j;
      } else {
        assert renames[i] in renames;
      }
    } else if b in sub {
      var j :| 0 <= j < |renames| && renames[j].from == b && renames[j].to == sub[b];
      assert renames[j] in renames;
    }
  }

  ghost predicate ValuesSubbed(o: ProductOption, sub: map<Name, Name>, q: ProductOption) {
    && |q.values| == |o.values|
    && (forall k :: 0 <= k < |o.values| ==> q.values[k] == Sub(sub, o.values[k]))
  }

  ghost predicate IdsSubbed(o: ProductOption, sub: map<Name, Name>, q: ProductOption) {
    && (forall n :: n in o.ids ==> Sub(sub, n) in q.ids && q.ids[Sub(sub, n)] == o.ids[n])
    && (forall m :: m in q.ids ==> exists n :: n in o.ids && m == Sub(sub, n))
  }

  ghost predicate ChoicesSubbed(p: Product, o: ProductOption, sub: map<Name, Name>, q: Product) {
    && q.variants.Keys == p.variants.Keys
    && forall id :: id in p.variants ==> ChoiceSubbed(p.variants[id], o, sub, q.variants[id])
  }

  ghost predicate ChoiceSubbed(v: Variant, o: ProductOption, sub: map<Name, Name>, w: Variant) {
    o.name in v.choice && v.choice[o.name] in o.values ==>
      o.name in w.choice && w.choice[o.name] == Sub(sub, v.choice[o.name])
  }

  /** The last rename touches only its own source: no earlier target is that source
      and no other value is renamed onto its target. */
  ghost predicate LastIsFresh(o: ProductOption, f: map<Name, Name>, r: Rename, sub: map<Name, Name>) {
    && r.from in o.values
    && Sub(f, r.from) == r.from
    && Sub(sub, r.from) == r.to
    && forall n :: n in o.values && n != r.from ==>
         Sub(f, n) != r.from && Sub(f, n) != r.to && Sub(sub, n) == Sub(f, n)
  }

  lemma LastRenameIsFresh(o: ProductOption, renames: seq<Rename>)
    requires renames != [] && Renamable(o, renames)
    ensures LastIsFresh(o, SubOf(renames[..|renames| - 1]), renames[|renames| - 1], SubOf(renames))
  {
    var front, r := renames[..|renames| - 1], renames[|renames| - 1];
    var f := SubOf(front);
    SubOfMeans(front);
    assert r in renames;
    forall n | n in o.values && n != r.from
      ensures Sub(f, n) != r.from && Sub(f, n) != r.to
    {
      if n in f {
        var j :| 0 <= j < |front| && front[j].from == n && front[j].to == f[n];
        assert renames[j] == front[j] && renames[j] in renames;
      }
    }
  }

  lemma RenameStepValues(o: ProductOption, f: map<Name, Name>, r: Rename, sub: map<Name, Name>,
                         h: ProductOption, q: ProductOption)
    requires LastIsFresh(o, f, r, sub) && o.ids.Keys == Elems(o.values)
    requires ValuesSubbed(o, f, h) && IdsSubbed(o, f, h)
    ensures r.from in h.ids
    ensures q.values == Replaced(h.values, r.from, r.to) && q.ids == (h.ids - {r.from})[r.to := h.ids[r.from]] ==>
      ValuesSubbed(o, sub, q) && IdsSubbed(o, sub, q)
  {
    assert r.from in o.ids && Sub(f, r.from) in h.ids;
    if q.values == Replaced(h.values, r.from, r.to) && q.ids == (h.ids - {r.from})[r.to := h.ids[r.from]] {
      forall k | 0 <= k < |o.values| ensures q.values[k] == Sub(sub, o.values[k]) {
        assert o.values[k] in o.values;
      }
    }
  }

  lemma RenameStepChoices(p: Product, i: nat, o: ProductOption, f: map<Name, Name>, r: Rename,
                          sub: map<Name, Name>, h: Product)
    requires i < |h.options| && h.options[i].name == o.name && r.from in h.options[i].ids
    requires LastIsFresh(o, f, r, sub) && ChoicesSubbed(p, o, f, h)
    ensures ChoicesSubbed(p, o, sub, RenameOne(h, i, r))
  {
    forall id | id in p.variants
      ensures ChoiceSubbed(p.variants[id], o, sub, RenameOne(h, i, r).variants[id])
    {
    }
  }

  ghost predicate Substituted(p: Product, i: nat, sub: map<Name, Name>, q: Product)
    requires i < |p.options| == |q.options|
  {
    && ValuesSubbed(p.options[i], sub, q.options[i])
    && IdsSubbed(p.options[i], sub, q.options[i])
    && ChoicesSubbed(p, p.options[i], sub, q)
  }

  lemma RenameStep(p: Product, i: nat, renames: seq<Rename>, h: Product)
    requires i < |p.options| && renames != [] && Renamable(p.options[i], renames)
    requires OnlyOption(p, i, h) && Substituted(p, i, SubOf(renames[..|renames| - 1]), h)
    ensures renames[|renames| - 1].from in h.options[i].ids
    ensures Substituted(p, i, SubOf(renames), RenameOne(h, i, renames[|renames| - 1]))
  {
    var o, r := p.options[i], renames[|renames| - 1];
    var f, sub := SubOf(renames[..|renames| - 1]), SubOf(renames);
    LastRenameIsFresh(o, renames);
    RenameStepValues(o, f, r, sub, h.options[i], RenameOne(h, i, r).options[i]);
    RenameStepChoices(p, i, o, f, r, sub, h);
  }

  /** The loop over the renames is one simultaneous substitution: of the ordered
      values, of the names the ids carry, and of what the variants choose. */
  lemma {:induction false} RenamesActTogether(p: Product, i: nat, renames: seq<Rename>)
    requires i < |p.options| && Renamable(p.options[i], renames)
    ensures RenamesRun(p.options[i].ids.Keys, renames)
    ensures Substituted(p, i, SubOf(renames), RenameAll(p, i, renames))
  {
    if renames == [] {
      assert forall n :: n in p.options[i].ids ==> Sub(map[], n) == n;
    } else {
      var front := renames[..|renames| - 1];
      assert Renamable(p.options[i], front);
      RenamesActTogether(p, i, front);
      RenameAllShape(p, i, front);
      RenameStep(p, i, renames, RenameAll(p, i, front));
    }
  }
}
