/** `plan_entorchada`: fixed renames of one option's values, planned again on the state
    they promise. */
module PlannerRenames {
  import opened Lists
  import opened Catalogue
  import opened Edits
  import opened KeepsForm
  import opened Compare
  import opened Planner
  import opened PlannerFixpoint
  import opened RollbackReaches
  import opened RollbackInverts

  /** The table of old and new names, in order. */
  type Table = seq<(Name, Name)>

  /** Old names are distinct, new ones read apart, and no name is both. */
  ghost predicate TableOk(t: Table) {
    && (forall i, j :: 0 <= i < j < |t| ==> t[i].0 != t[j].0 && norm(t[i].1) != norm(t[j].1))
    && (forall i, j :: 0 <= i < |t| && 0 <= j < |t| ==> t[i].0 != t[j].1)
  }

  /** A name other than the old one reads like the new one. */
  predicate Clashes(values: seq<Name>, pair: (Name, Name)) {
    exists v :: v in values && v != pair.0 && norm(v) == norm(pair.1)
  }

  /** The old name can be renamed, or the rename is there already. */
  predicate Clean(values: seq<Name>, pair: (Name, Name)) {
    if pair.0 in values then !Clashes(values, pair) else pair.1 in values
  }

  function RenamesFor(o: ProductOption, t: Table): (r: seq<Rename>)
    requires forall pair :: pair in t && pair.0 in o.values ==> pair.0 in o.ids && o.ids[pair.0].Some?
    ensures forall m :: m in r ==> (m.from, m.to) in t && m.from in o.values && o.ids[m.from] == Some(m.valueId)
    ensures forall pair :: pair in t && pair.0 in o.values ==> Rename(o.ids[pair.0].value, pair.0, pair.1) in r
  {
    if t == [] then []
    else
      var pair := t[|t| - 1];
      var front := RenamesFor(o, t[..|t| - 1]);
      if pair.0 in o.values then front + [Rename(o.ids[pair.0].value, pair.0, pair.1)] else front
  }

  ghost predicate HasNamed(p: Product, name: Name) {
    exists i :: 0 <= i < |p.options| && Called(p.options[i], name)
  }

  ghost function Place(p: Product, name: Name): (i: nat)
    requires HasNamed(p, name)
    ensures i < |p.options| && p.options[i].name == name && forall j :: 0 <= j < i ==> p.options[j].name != name
  {
    PlaceIn(p.options, name)
  }

  ghost function PlaceIn(options: seq<ProductOption>, name: Name): (i: nat)
    requires exists i :: 0 <= i < |options| && Called(options[i], name)
    ensures i < |options| && options[i].name == name && forall j :: 0 <= j < i ==> options[j].name != name
  {
    if Called(options[0], name) then 0
    else
      var k :| 0 <= k < |options| && Called(options[k], name);
      assert Called(options[1..][k - 1], name);
      1 + PlaceIn(options[1..], name)
  }

  ghost function RenamedValues(o: ProductOption, t: Table): seq<Name>
    requires forall pair :: pair in t && pair.0 in o.values ==> pair.0 in o.ids && o.ids[pair.0].Some?
  {
    var sub := SubOf(RenamesFor(o, t));
    seq(|o.values|, k requires 0 <= k < |o.values| => Sub(sub, o.values[k]))
  }

  ghost predicate KnownValues(o: ProductOption) {
    forall n :: n in o.values ==> n in o.ids && o.ids[n].Some?
  }

  /** `plan_entorchada`. */
  ghost function PlanRenames(p: Product, name: Name, t: Table): Outcome
    requires HasNamed(p, name) ==> KnownValues(p.options[Place(p, name)])
  {
    if !HasNamed(p, name) then Anomaly
    else
      var o := p.options[Place(p, name)];
      if (exists pair :: pair in t && !Clean(o.values, pair)) || !NormDistinct(RenamedValues(o, t)) then Anomaly
      else if RenamesFor(o, t) == [] then Planned([])
      else Planned([RenameValues(o.id, RenamesFor(o, t))])
  }

  /** The product has the option, and each old name stands there with nothing else that
      reads like the new one, or is gone with the new one there. */
  ghost predicate RenamesExpected(p: Product, name: Name, t: Table) {
    exists i :: 0 <= i < |p.options| && p.options[i].name == name && AllExpected(p.options[i].values, t)
  }

  ghost predicate AllExpected(values: seq<Name>, t: Table) {
    forall k :: 0 <= k < |t| ==> Expects(values, t[k].0, t[k].1)
  }

  ghost predicate Expects(values: seq<Name>, was: Name, will: Name) {
    if was in values then forall v :: v in values && norm(v) == norm(will) ==> v == was else will in values
  }

  /** The table is turned down for exactly the products that are not as it expects; for the
      others each old name still there is renamed, by the id it has. */
  lemma RenamesExactly(p: Product, name: Name, t: Table)
    requires WellFormed(p) && AllKnown(p) && TableOk(t)
    ensures HasNamed(p, name) ==> KnownValues(p.options[Place(p, name)])
    ensures PlanRenames(p, name, t) == Anomaly <==> !RenamesExpected(p, name, t)
  {
    if HasNamed(p, name) {
      var i := Place(p, name);
      var o := p.options[i];
      assert OptionOk(o);
      ListedValues(o);
      forall k | 0 <= k < |t| ensures Clean(o.values, t[k]) <==> Expects(o.values, t[k].0, t[k].1) {
      }
      assert (forall pair: (Name, Name) :: pair in t ==> Clean(o.values, pair)) <==> AllExpected(o.values, t);
      if AllExpected(o.values, t) {
        CleanStaysDistinct(o, t);
      }
      assert forall k :: 0 <= k < |p.options| && p.options[k].name == name ==> k == i;
    } else {
      assert forall k :: 0 <= k < |p.options| ==> !Called(p.options[k], name);
    }
  }

  lemma ListedValues(o: ProductOption)
    requires OptionOk(o) && forall n :: n in o.ids ==> o.ids[n].Some?
    ensures KnownValues(o)
  {
    forall n | n in o.values ensures n in o.ids {
      assert n in Elems(o.values);
    }
  }

  /** The renames are those of the old names still there, by the ids they have. */
  ghost predicate RenamesRight(o: ProductOption, t: Table, renames: seq<Rename>) {
    forall r: Rename :: r in renames <==>
      (r.from, r.to) in t && r.from in o.values && r.from in o.ids && o.ids[r.from] == Some(r.valueId)
  }

  lemma RenamesForRight(o: ProductOption, t: Table)
    requires KnownValues(o)
    ensures RenamesRight(o, t, RenamesFor(o, t))
    ensures RenamesFor(o, t) == [] <==> forall k :: 0 <= k < |t| ==> t[k].0 !in o.values
  {
    forall r: Rename | (r.from, r.to) in t && r.from in o.values && o.ids[r.from] == Some(r.valueId)
      ensures r in RenamesFor(o, t)
    {
      var pair := (r.from, r.to);
      assert Rename(o.ids[pair.0].value, pair.0, pair.1) == r;
    }
    forall k | 0 <= k < |t| && t[k].0 in o.values ensures RenamesFor(o, t) != [] {
      assert t[k] in t;
      assert Rename(o.ids[t[k].0].value, t[k].0, t[k].1) in RenamesFor(o, t);
    }
    EmptyOrSome(RenamesFor(o, t));
  }

  /** One edit for all of them, none when there is nothing to rename. */
  lemma PlannedRenamesAre(p: Product, name: Name, t: Table) returns (o: ProductOption, ops: seq<Op>)
    requires WellFormed(p) && AllKnown(p) && TableOk(t) && RenamesExpected(p, name, t)
    ensures HasNamed(p, name) ==> KnownValues(p.options[Place(p, name)])
    ensures o in p.options && o.name == name && PlanRenames(p, name, t) == Planned(ops)
    ensures if forall k :: 0 <= k < |t| ==> t[k].0 !in o.values then ops == []
            else |ops| == 1 && ops[0].RenameValues? && ops[0].optionId == o.id && RenamesRight(o, t, ops[0].renames)
  {
    RenamesExactly(p, name, t);
    var i :| 0 <= i < |p.options| && p.options[i].name == name;
    assert Called(p.options[i], name);
    o := p.options[Place(p, name)];
    RenamesForRight(o, t);
    ops := PlanRenames(p, name, t).ops;
  }

  lemma {:induction false} RenamesForDistinct(o: ProductOption, t: Table)
    requires KnownValues(o) && TableOk(t)
    ensures DistinctRenames(RenamesFor(o, t))
  {
    if t != [] {
      var front := t[..|t| - 1];
      assert TableOk(front);
      RenamesForDistinct(o, front);
      forall m | m in RenamesFor(o, front)
        ensures m.from != t[|t| - 1].0 && norm(m.to) != norm(t[|t| - 1].1)
      {
        var i :| 0 <= i < |front| && front[i] == (m.from, m.to);
        assert t[i] == front[i];
      }
    }
  }

  lemma CleanIsRenamable(o: ProductOption, t: Table)
    requires OptionOk(o) && KnownValues(o) && TableOk(t) && forall pair :: pair in t ==> Clean(o.values, pair)
    ensures Renamable(o, RenamesFor(o, t))
  {
    RenamesForDistinct(o, t);
    forall m, v | m in RenamesFor(o, t) && v in o.values && norm(v) == norm(m.to) ensures v == m.from {
      assert (m.from, m.to) in t && Clean(o.values, (m.from, m.to));
    }
  }

  /** The check on the renamed set never finds what the check per name let through. */
  lemma CleanStaysDistinct(o: ProductOption, t: Table)
    requires OptionOk(o) && KnownValues(o) && TableOk(t) && forall pair :: pair in t ==> Clean(o.values, pair)
    ensures NormDistinct(RenamedValues(o, t))
  {
    CleanIsRenamable(o, t);
    NormDistinctNoDup(o.values);
    forall i, j | 0 <= i < j < |o.values|
      ensures norm(RenamedValues(o, t)[i]) != norm(RenamedValues(o, t)[j])
    {
      SubSeparates(o, RenamesFor(o, t), o.values[i], o.values[j]);
    }
  }

  lemma SubMeans(o: ProductOption, t: Table, n: Name)
    requires KnownValues(o) && TableOk(t) && n in o.values
    ensures (exists i :: 0 <= i < |t| && t[i].0 == n && Sub(SubOf(RenamesFor(o, t)), n) == t[i].1)
      || ((forall i :: 0 <= i < |t| ==> t[i].0 != n) && Sub(SubOf(RenamesFor(o, t)), n) == n)
  {
    var renames := RenamesFor(o, t);
    SubOfMeans(renames);
    if n in SubOf(renames) {
      var k :| 0 <= k < |renames| && renames[k].from == n && renames[k].to == SubOf(renames)[n];
      assert renames[k] in renames;
      var i :| 0 <= i < |t| && t[i] == (n, renames[k].to);
    }
  }

  /** After the renames no old name is left and every new one is there. */
  lemma RenamedIsClean(o: ProductOption, t: Table, q: ProductOption, pair: (Name, Name))
    requires OptionOk(o) && KnownValues(o) && TableOk(t) && pair in t && Clean(o.values, pair)
    requires ValuesSubbed(o, SubOf(RenamesFor(o, t)), q)
    ensures pair.0 !in q.values && pair.1 in q.values
  {
    var sub := SubOf(RenamesFor(o, t));
    var i :| 0 <= i < |t| && t[i] == pair;
    forall k | 0 <= k < |q.values| ensures q.values[k] != pair.0 {
      SubMeans(o, t, o.values[k]);
    }
    var n := if pair.0 in o.values then pair.0 else pair.1;
    var k :| 0 <= k < |o.values| && o.values[k] == n;
    SubMeans(o, t, n);
    assert q.values[k] == pair.1;
  }

  lemma PlannedRenamesFit(p: Product, name: Name, t: Table)
    requires WellFormed(p) && AllKnown(p) && TableOk(t) && HasNamed(p, name)
    requires forall pair :: pair in t ==> Clean(p.options[Place(p, name)].values, pair)
    ensures KnownValues(p.options[Place(p, name)])
    ensures var op := RenameValues(p.options[Place(p, name)].id, RenamesFor(p.options[Place(p, name)], t));
      Passes(p, op) && Guarded(op) && Renamable(p.options[Place(p, name)], op.renames)
      && HasOption(p, op.optionId) && IndexOf(p.options, op.optionId) == Place(p, name)
  {
    var i := Place(p, name);
    assert OptionOk(p.options[i]);
    CleanIsRenamable(p.options[i], t);
    IndexOfDistinct(p.options, i);
  }

  /** The planned renames pass their guard, and planned again on the renamed state the
      table asks for nothing and raises nothing. */
  lemma RenamesPlanOnce(p: Product, name: Name, t: Table) returns (q: Product)
    requires WellFormed(p) && AllKnown(p) && TableOk(t)
    requires HasNamed(p, name) ==> KnownValues(p.options[Place(p, name)])
    requires PlanRenames(p, name, t).Planned?
    ensures Goes(p, PlanRenames(p, name, t).ops, q) && ForwardJob(PlanRenames(p, name, t).ops)
    ensures HasNamed(q, name) && KnownValues(q.options[Place(q, name)]) && PlanRenames(q, name, t) == Planned([])
  {
    var i := Place(p, name);
    var renames := RenamesFor(p.options[i], t);
    if renames == [] {
      q := p;
      GoesNowhere(p);
    } else {
      var op := RenameValues(p.options[i].id, renames);
      PlannedRenamesFit(p, name, t);
      q := RenamedOnce(p, i, renames, name, t);
      GoesOne(p, op);
    }
  }

  lemma RenamedOnce(p: Product, i: nat, renames: seq<Rename>, name: Name, t: Table) returns (q: Product)
    requires WellFormed(p) && AllKnown(p) && TableOk(t) && i < |p.options| && HasNamed(p, name) && Place(p, name) == i
    requires KnownValues(p.options[i]) && renames == RenamesFor(p.options[i], t)
    requires forall pair :: pair in t ==> Clean(p.options[i].values, pair)
    requires Renamable(p.options[i], renames) && Fits(p, RenameValues(p.options[i].id, renames))
    requires HasOption(p, p.options[i].id) && IndexOf(p.options, p.options[i].id) == i
    ensures Runs(p, RenameValues(p.options[i].id, renames)) && q == Simulate(p, RenameValues(p.options[i].id, renames))
    ensures HasNamed(q, name) && KnownValues(q.options[Place(q, name)]) && PlanRenames(q, name, t) == Planned([])
  {
    var op := RenameValues(p.options[i].id, renames);
    RenamesActTogether(p, i, renames);
    RenameAllShape(p, i, renames);
    assert Runs(p, op) && WellFormed(Simulate(p, op)) by { EditKeepsForm(p, op); }
    q := Simulate(p, op);
    assert q.options[i] == RenameAll(p, i, renames).options[i];
    FrameKept(p, op);
    assert Called(q.options[i], name);
    assert Place(q, name) == i;
    forall pair | pair in t ensures Clean(q.options[i].values, pair) && pair.0 !in q.options[i].values {
      RenamedIsClean(p.options[i], t, q.options[i], pair);
    }
    NothingToPlan(q, name, t);
  }

  lemma NothingToPlan(q: Product, name: Name, t: Table)
    requires WellFormed(q) && TableOk(t) && HasNamed(q, name) && KnownValues(q.options[Place(q, name)])
    requires var values := q.options[Place(q, name)].values;
      forall pair :: pair in t ==> Clean(values, pair) && pair.0 !in values
    ensures PlanRenames(q, name, t) == Planned([])
  {
    var o := q.options[Place(q, name)];
    assert OptionOk(o);
    CleanStaysDistinct(o, t);
    EmptyOrSome(RenamesFor(o, t));
  }
}
