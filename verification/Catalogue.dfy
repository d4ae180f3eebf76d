/** Products as the catalogue loads fingerprint them, the small language of
    product edits, and `Simulate`: the state an edit must leave behind. */
module Catalogue {
  import opened Lists

  /** Ids, and the names of options and values, are opaque tokens here. */
  type Id(==, !new, 0)
  type Name(==, !new, 0)

  datatype Maybe<+T> = None | Some(value: T)

  /** Accent-, case- and spacing-insensitive form of a value. It is left
      arbitrary: every result holds whatever function it is. */
  const norm: Name -> Name

  /** One option with its ordered values. `ids` says which id carries which
      name; None stands for a value whose id is not minted yet. */
  datatype ProductOption = ProductOption(id: Id, name: Name, values: seq<Name>, ids: map<Name, Maybe<Id>>)

  datatype Variant = Variant(
    title: seq<Name>, position: int, choice: map<Name, Name>,
    price: Maybe<string>, compareAtPrice: Maybe<string>)

  datatype Product = Product(
    title: string, handle: string, options: seq<ProductOption>, variants: map<Id, Variant>)

  datatype Rename = Rename(valueId: Id, from: Name, to: Name)
  datatype Move = Move(variantId: Id, from: Name, to: Name)
  datatype ValueOrder = ValueOrder(id: Id, name: Name, values: seq<Name>)

  datatype Op =
    | Title(from: string, to: string, handle: string)
    | RenameValues(optionId: Id, renames: seq<Rename>)
    | AddValue(optionId: Id, name: Name)
    | MoveVariants(optionId: Id, moves: seq<Move>)
    | DeleteValue(optionId: Id, valueId: Id, name: Name)
    | ReorderValues(orders: seq<ValueOrder>)
    | RestorePositions(order: seq<Id>)

  // ---- Looking things up -------------------------------------------------------

  predicate HasId(options: seq<ProductOption>, id: Id) {
    exists i :: 0 <= i < |options| && options[i].id == id
  }

  predicate HasOption(p: Product, id: Id) {
    HasId(p.options, id)
  }

  /** Where the first option with this id stands. */
  function IndexOf(options: seq<ProductOption>, id: Id): (i: nat)
    requires HasId(options, id)
    ensures i < |options| && options[i].id == id
    ensures forall j :: 0 <= j < i ==> options[j].id != id
  {
    if options[0].id == id then 0
    else
      assert HasId(options[1..], id) by {
        var i :| 0 <= i < |options| && options[i].id == id;
        assert options[1..][i - 1].id == id;
      }
      1 + IndexOf(options[1..], id)
  }

  function Names(options: seq<ProductOption>): (names: seq<Name>)
    ensures |names| == |options|
    ensures forall i :: 0 <= i < |names| ==> names[i] == options[i].name
  {
    seq(|options|, i requires 0 <= i < |options| => options[i].name)
  }

  /** `order` lists every variant once and the k-th one sits at position k + 1. */
  ghost predicate IsOrder(vs: map<Id, Variant>, order: seq<Id>) {
    && (forall k :: 0 <= k < |order| ==> order[k] in vs && vs[order[k]].position == k + 1)
    && (forall id :: id in vs ==> id in order)
  }

  /** Positions are exactly 1..n, as the store numbers them. */
  ghost predicate Positioned(vs: map<Id, Variant>) {
    exists order :: IsOrder(vs, order)
  }

  ghost function VariantOrder(vs: map<Id, Variant>): (order: seq<Id>)
    requires Positioned(vs)
    ensures IsOrder(vs, order)
  {
    var order :| IsOrder(vs, order);
    order
  }

  lemma OrderIsUnique(vs: map<Id, Variant>, a: seq<Id>, b: seq<Id>)
    requires IsOrder(vs, a) && IsOrder(vs, b)
    ensures a == b
  {
    OrderPrefix(vs, a, b);
    OrderPrefix(vs, b, a);
  }

  lemma OrderPrefix(vs: map<Id, Variant>, a: seq<Id>, b: seq<Id>)
    requires IsOrder(vs, a) && IsOrder(vs, b)
    ensures |a| <= |b| && forall k :: 0 <= k < |a| ==> a[k] == b[k]
  {
    forall k | 0 <= k < |a| ensures k < |b| && a[k] == b[k] {
      assert a[k] in b;
      var j :| 0 <= j < |b| && b[j] == a[k];
      assert vs[b[j]].position == j + 1 && vs[a[k]].position == k + 1;
    }
    if |a| > 0 {
      assert |a| - 1 < |b| && a[|a| - 1] == b[|a| - 1];
    }
  }

  /** The value is listed, under this id. */
  predicate Carries(o: ProductOption, name: Name, id: Maybe<Id>) {
    name in o.values && name in o.ids && o.ids[name] == id
  }

  // ---- Well-formed products ------------------------------------------------------

  predicate Covers(names: seq<Name>, choice: map<Name, Name>) {
    forall k :: 0 <= k < |names| ==> names[k] in choice
  }

  /** A variant's title: its option values in option order (shown joined by " / "). */
  function TitleOf(names: seq<Name>, choice: map<Name, Name>): seq<Name>
    requires Covers(names, choice)
  {
    seq(|names|, k requires 0 <= k < |names| => choice[names[k]])
  }

  ghost predicate NormDistinct(values: seq<Name>) {
    forall i, j :: 0 <= i < j < |values| ==> norm(values[i]) != norm(values[j])
  }

  ghost predicate OptionOk(o: ProductOption) {
    && NormDistinct(o.values)
    && o.ids.Keys == Elems(o.values)
    && (forall a, b :: a in o.ids && b in o.ids && a != b && o.ids[a].Some? ==> o.ids[a] != o.ids[b])
  }

  ghost predicate OptionsOk(options: seq<ProductOption>) {
    && (forall i, j :: 0 <= i < j < |options| ==>
          options[i].id != options[j].id && options[i].name != options[j].name)
    && (forall i :: 0 <= i < |options| ==> OptionOk(options[i]))
  }

  /** A variant chooses one existing value for every option, and nothing else. */
  ghost predicate ChoiceOk(options: seq<ProductOption>, choice: map<Name, Name>) {
    && choice.Keys == Elems(Names(options))
    && (forall i :: 0 <= i < |options| ==>
          options[i].name in choice && choice[options[i].name] in options[i].values)
  }

  ghost predicate VariantsOk(options: seq<ProductOption>, variants: map<Id, Variant>) {
    && (forall id :: id in variants ==> ChoiceOk(options, variants[id].choice))
    && (forall a, b :: a in variants && b in variants && a != b ==> variants[a].choice != variants[b].choice)
  }

  ghost predicate TitlesOk(p: Product) {
    forall id :: id in p.variants ==>
      Covers(Names(p.options), p.variants[id].choice)
      && p.variants[id].title == TitleOf(Names(p.options), p.variants[id].choice)
  }

  ghost predicate WellFormed(p: Product) {
    OptionsOk(p.options) && VariantsOk(p.options, p.variants) && Positioned(p.variants) && TitlesOk(p)
  }

  /** Every value id is known, as it always is in a product read from the store. */
  ghost predicate AllKnown(p: Product) {
    forall i :: 0 <= i < |p.options| ==> forall n :: n in p.options[i].ids ==> p.options[i].ids[n].Some?
  }

  // ---- What an edit writes ---------------------------------------------------------

  function Replaced(values: seq<Name>, from: Name, to: Name): (r: seq<Name>)
    ensures |r| == |values|
    ensures forall i :: 0 <= i < |r| ==> r[i] == if values[i] == from then to else values[i]
  {
    seq(|values|, i requires 0 <= i < |values| => if values[i] == from then to else values[i])
  }

  function RenamedChoice(v: Variant, name: Name, r: Rename): Variant {
    if name in v.choice && v.choice[name] == r.from then v.(choice := v.choice[name := r.to]) else v
  }

  function RenameOne(p: Product, i: nat, r: Rename): Product
    requires i < |p.options| && r.from in p.options[i].ids
  {
    var o := p.options[i];
    p.(options := p.options[i := o.(
         values := Replaced(o.values, r.from, r.to),
         ids := (o.ids - {r.from})[r.to := o.ids[r.from]])],
       variants := map id | id in p.variants :: RenamedChoice(p.variants[id], o.name, r))
  }

  function KeysAfter(keys: set<Name>, renames: seq<Rename>): set<Name> {
    if renames == [] then keys
    else
      var r := renames[|renames| - 1];
      KeysAfter(keys, renames[..|renames| - 1]) - {r.from} + {r.to}
  }

  /** Each rename finds its source among the names the earlier ones left. */
  predicate RenamesRun(keys: set<Name>, renames: seq<Rename>) {
    renames == [] ||
    (RenamesRun(keys, renames[..|renames| - 1])
     && renames[|renames| - 1].from in KeysAfter(keys, renames[..|renames| - 1]))
  }

  /** The renames applied one after the other. */
  function RenameAll(p: Product, i: nat, renames: seq<Rename>): (q: Product)
    requires i < |p.options| && RenamesRun(p.options[i].ids.Keys, renames)
    ensures |q.options| == |p.options| && q.options[i].ids.Keys == KeysAfter(p.options[i].ids.Keys, renames)
    decreases |renames|
  {
    if renames == [] then p
    else RenameOne(RenameAll(p, i, renames[..|renames| - 1]), i, renames[|renames| - 1])
  }

  function MoveAll(vs: map<Id, Variant>, name: Name, moves: seq<Move>): (r: map<Id, Variant>)
    requires forall m :: m in moves ==> m.variantId in vs
    ensures r.Keys == vs.Keys
  {
    if moves == [] then vs
    else
      var m := moves[|moves| - 1];
      var front := MoveAll(vs, name, moves[..|moves| - 1]);
      front[m.variantId := front[m.variantId].(choice := front[m.variantId].choice[name := m.to])]
  }

  function ReorderAll(options: seq<ProductOption>, orders: seq<ValueOrder>): (r: seq<ProductOption>)
    requires forall w :: w in orders ==> HasId(options, w.id)
    ensures |r| == |options|
    ensures forall i :: 0 <= i < |r| ==> r[i] == options[i].(values := r[i].values)
  {
    if orders == [] then options
    else
      var w := orders[|orders| - 1];
      var front := ReorderAll(options, orders[..|orders| - 1]);
      assert HasId(front, w.id) by {
        assert w in orders && HasId(options, w.id);
        var i :| 0 <= i < |options| && options[i].id == w.id;
        assert front[i].id == w.id;
      }
      var i := IndexOf(front, w.id);
      front[i := front[i].(values := w.values)]
  }

  function PlaceAll(vs: map<Id, Variant>, order: seq<Id>): (r: map<Id, Variant>)
    requires forall id :: id in order ==> id in vs
    ensures r.Keys == vs.Keys
  {
    if order == [] then vs
    else
      var id := order[|order| - 1];
      var front := PlaceAll(vs, order[..|order| - 1]);
      front[id := front[id].(position := |order|)]
  }

  /** The edit goes through without a missing option, value or variant, and every
      variant names a value for every option (titles are rebuilt from them). */
  ghost predicate Runs(p: Product, op: Op) {
    && (forall id :: id in p.variants ==> Covers(Names(p.options), p.variants[id].choice))
    && Positioned(p.variants)
    && match op
       case Title(_, _, _) => true
       case RenameValues(o, renames) =>
         HasOption(p, o) && RenamesRun(p.options[IndexOf(p.options, o)].ids.Keys, renames)
       case AddValue(o, _) => HasOption(p, o)
       case MoveVariants(o, moves) => HasOption(p, o) && (forall m :: m in moves ==> m.variantId in p.variants)
       case DeleteValue(o, _, _) => HasOption(p, o)
       case ReorderValues(orders) => forall w :: w in orders ==> HasOption(p, w.id)
       case RestorePositions(order) => forall id :: id in order ==> id in p.variants
  }

  /** What the edit itself writes, before value orders and titles follow. */
  ghost function Write(p: Product, op: Op): Product
    requires Runs(p, op)
  {
    match op
    case Title(_, to, _) => p.(title := to)
    case RenameValues(id, renames) => RenameAll(p, IndexOf(p.options, id), renames)
    case AddValue(id, name) =>
      var i := IndexOf(p.options, id);
      var o := p.options[i];
      p.(options := p.options[i := o.(values := o.values + [name], ids := o.ids[name := None])])
    case MoveVariants(id, moves) =>
      p.(variants := MoveAll(p.variants, p.options[IndexOf(p.options, id)].name, moves))
    case DeleteValue(id, _, name) =>
      var i := IndexOf(p.options, id);
      var o := p.options[i];
      p.(options := p.options[i := o.(values := Outside(o.values, {name}), ids := o.ids - {name})])
    case ReorderValues(orders) => p.(options := ReorderAll(p.options, orders))
    case RestorePositions(order) => p.(variants := PlaceAll(p.variants, order))
  }

  // ---- Value orders that follow variant positions ------------------------------------

  /** The values the variants hold under one option, in variant order. */
  ghost function Column(vs: map<Id, Variant>, order: seq<Id>, name: Name): (r: seq<Name>)
    requires forall k :: 0 <= k < |order| ==> order[k] in vs && name in vs[order[k]].choice
    ensures |r| == |order| && forall k :: 0 <= k < |r| ==> r[k] == vs[order[k]].choice[name]
  {
    seq(|order|, k requires 0 <= k < |order| => vs[order[k]].choice[name])
  }

  ghost predicate Readable(p: Product) {
    Positioned(p.variants) && forall id :: id in p.variants ==> Covers(Names(p.options), p.variants[id].choice)
  }

  /** Used values at their first variant, then the unused ones as they were. */
  ghost function ReflowedValues(p: Product, i: nat): seq<Name>
    requires Readable(p) && i < |p.options|
  {
    var used := FirstSeen(Column(p.variants, VariantOrder(p.variants), Names(p.options)[i]));
    used + Outside(p.options[i].values, Elems(used))
  }

  ghost function UnusedValues(p: Product, i: nat): seq<Name>
    requires Readable(p) && i < |p.options|
  {
    Outside(p.options[i].values, Elems(FirstSeen(Column(p.variants, VariantOrder(p.variants), Names(p.options)[i]))))
  }

  ghost function Reflow(p: Product): (q: Product)
    requires Readable(p)
    ensures |q.options| == |p.options|
    ensures forall i :: 0 <= i < |q.options| ==> q.options[i] == p.options[i].(values := ReflowedValues(p, i))
  {
    p.(options := seq(|p.options|, i requires 0 <= i < |p.options| => p.options[i].(values := ReflowedValues(p, i))))
  }

  ghost function Retitle(p: Product): Product
    requires forall id :: id in p.variants ==> Covers(Names(p.options), p.variants[id].choice)
  {
    p.(variants := map id | id in p.variants ::
         p.variants[id].(title := TitleOf(Names(p.options), p.variants[id].choice)))
  }

  // ---- Simulate -------------------------------------------------------------------

  /** What the store decides on its own after an edit. */
  datatype Flags = Flags(freeValues: set<(Id, Name)>, alternative: Maybe<Product>, positionsFree: bool)

  const NoFlags: Flags := Flags({}, None, false)

  ghost function Simulate(p: Product, op: Op): Product
    requires Runs(p, op)
  {
    WriteShape(p, op);
    if op.MoveVariants? then Retitle(Reflow(Write(p, op))) else Retitle(Write(p, op))
  }

  /** The flags that come with the simulated state: where an added value lands,
      where unused values land after a move (or that the move re-flowed nothing),
      and variant positions after a value reorder. */
  ghost function FlagsOf(p: Product, op: Op): Flags
    requires Runs(p, op)
  {
    WriteShape(p, op);
    match op
    case AddValue(id, name) => NoFlags.(freeValues := {(id, name)})
    case MoveVariants(_, _) =>
      var w := Write(p, op);
      NoFlags.(freeValues := set i, n | 0 <= i < |w.options| && n in UnusedValues(w, i) :: (w.options[i].id, n),
               alternative := Some(Retitle(w)))
    case ReorderValues(_) => NoFlags.(positionsFree := true)
    case _ => NoFlags
  }

  /** No edit adds or removes a variant or an option, or renames an option. */
  lemma WriteShape(p: Product, op: Op)
    requires Runs(p, op)
    ensures Names(Write(p, op).options) == Names(p.options) && Write(p, op).variants.Keys == p.variants.Keys
    ensures forall id :: id in p.variants ==> Covers(Names(p.options), Write(p, op).variants[id].choice)
    ensures op.MoveVariants? ==> Positioned(Write(p, op).variants)
  {
    var w := Write(p, op);
    match op
    case RenameValues(id, renames) => RenameAllShape(p, IndexOf(p.options, id), renames);
    case MoveVariants(id, moves) =>
      MoveAllShape(p.variants, p.options[IndexOf(p.options, id)].name, moves);
      SamePlaces(p.variants, w.variants);
    case RestorePositions(order) => PlaceAllShape(p.variants, order);
    case _ =>
  }

  /** `q` is `p` but for the values of option `i` and what variants choose there. */
  ghost predicate OnlyOption(p: Product, i: nat, q: Product) {
    && i < |p.options| == |q.options|
    && q.title == p.title && q.handle == p.handle
    && (forall j :: 0 <= j < |p.options| && j != i ==> q.options[j] == p.options[j])
    && q.options[i].id == p.options[i].id && q.options[i].name == p.options[i].name
    && q.variants.Keys == p.variants.Keys
    && (forall id :: id in p.variants ==> SameBut(p.variants[id], q.variants[id], p.options[i].name))
  }

  ghost predicate SameBut(v: Variant, w: Variant, name: Name) {
    && w == v.(choice := w.choice)
    && w.choice.Keys == v.choice.Keys
    && (forall n :: n in v.choice && n != name ==> w.choice[n] == v.choice[n])
  }

  lemma RenameOneShape(p: Product, i: nat, r: Rename)
    requires i < |p.options| && r.from in p.options[i].ids
    ensures OnlyOption(p, i, RenameOne(p, i, r))
  {
  }

  lemma {:induction false} RenameAllShape(p: Product, i: nat, renames: seq<Rename>)
    requires i < |p.options| && RenamesRun(p.options[i].ids.Keys, renames)
    ensures OnlyOption(p, i, RenameAll(p, i, renames)) && Names(RenameAll(p, i, renames).options) == Names(p.options)
    decreases |renames|
  {
    if renames != [] {
      var front := RenameAll(p, i, renames[..|renames| - 1]);
      RenameAllShape(p, i, renames[..|renames| - 1]);
      RenameOneShape(front, i, renames[|renames| - 1]);
      var q := RenameAll(p, i, renames);
      forall id | id in p.variants ensures SameBut(p.variants[id], q.variants[id], p.options[i].name) {
        assert SameBut(p.variants[id], front.variants[id], p.options[i].name);
        assert SameBut(front.variants[id], q.variants[id], p.options[i].name);
      }
    }
  }

  lemma {:induction false} MoveAllShape(vs: map<Id, Variant>, name: Name, moves: seq<Move>)
    requires forall m :: m in moves ==> m.variantId in vs
    ensures forall id :: id in vs ==>
      var r := MoveAll(vs, name, moves);
      && r[id] == vs[id].(choice := r[id].choice)
      && (r[id].choice == vs[id].choice ||
          (name in r[id].choice && r[id].choice == vs[id].choice[name := r[id].choice[name]]))
  {
    if moves != [] {
      MoveAllShape(vs, name, moves[..|moves| - 1]);
    }
  }

  lemma {:induction false} PlaceAllShape(vs: map<Id, Variant>, order: seq<Id>)
    requires forall id :: id in order ==> id in vs
    ensures forall id :: id in vs ==>
      PlaceAll(vs, order)[id] == vs[id].(position := PlaceAll(vs, order)[id].position)
  {
    if order != [] {
      PlaceAllShape(vs, order[..|order| - 1]);
    }
  }

  lemma SamePlaces(vs: map<Id, Variant>, ws: map<Id, Variant>)
    requires vs.Keys == ws.Keys
    requires forall id :: id in vs ==> vs[id].position == ws[id].position
    requires Positioned(vs)
    ensures Positioned(ws) && VariantOrder(ws) == VariantOrder(vs)
  {
    var order := VariantOrder(vs);
    assert IsOrder(ws, order);
    OrderIsUnique(ws, order, VariantOrder(ws));
  }
}
