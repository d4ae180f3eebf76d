/** The planners of the catalogue load: the diameter moves of a "Vela Color" product and
    the renames of the entorchada product. */
module Planner {
  import opened Lists
  import opened Catalogue
  import opened ReflowOrder

  /** A SKU reference, such as 062. */
  type Ref(==, !new)

  /** The load's constants: heights that move from `from` to `to`, with their SKU
      references, and heights that stay at `from`. */
  datatype Sizes = Sizes(diameter: Name, height: Name, from: Name, to: Name, moved: map<Name, Ref>, kept: map<Name, Ref>)

  predicate SizesOk(z: Sizes) {
    z.diameter != z.height && z.from != z.to
  }

  datatype Outcome = Anomaly | Planned(ops: seq<Op>)

  // ---- Reading a product --------------------------------------------------------------------

  predicate Called(o: ProductOption, name: Name) {
    o.name == name
  }

  /** The two options of the family, in either order. */
  ghost predicate Family(z: Sizes, p: Product) {
    |p.options| == 2
    && (exists i :: 0 <= i < 2 && Called(p.options[i], z.diameter))
    && (exists i :: 0 <= i < 2 && Called(p.options[i], z.height))
  }

  ghost function At(z: Sizes, p: Product): (d: nat)
    requires Family(z, p)
    ensures d < 2 && p.options[d].name == z.diameter
    ensures SizesOk(z) ==> p.options[1 - d].name == z.height
  {
    if Called(p.options[0], z.diameter) then 0 else 1
  }

  predicate Stands(z: Sizes, v: Variant, diameter: Name, heights: set<Name>) {
    z.diameter in v.choice && z.height in v.choice
    && v.choice[z.diameter] == diameter && v.choice[z.height] in heights
  }

  /** The variants still to move, and the ones already there. */
  ghost function ToMove(z: Sizes, p: Product): set<Id> {
    set id | id in p.variants && Stands(z, p.variants[id], z.from, z.moved.Keys)
  }

  ghost function Done(z: Sizes, p: Product): set<Id> {
    set id | id in p.variants && Stands(z, p.variants[id], z.to, z.moved.Keys)
  }

  ghost predicate SharedCombination(z: Sizes, p: Product) {
    exists u, v :: u in p.variants && v in p.variants && u != v && SamePlace(z, p.variants[u], p.variants[v])
  }

  predicate SamePlace(z: Sizes, v: Variant, w: Variant) {
    && z.diameter in v.choice && z.height in v.choice && z.diameter in w.choice && z.height in w.choice
    && v.choice[z.diameter] == w.choice[z.diameter] && v.choice[z.height] == w.choice[z.height]
  }

  /** The SKU reference of a variant contradicts where its option values put it. */
  predicate Disagrees(z: Sizes, v: Variant, ref: Maybe<Ref>) {
    var moves := Stands(z, v, z.from, z.moved.Keys) || Stands(z, v, z.to, z.moved.Keys);
    || (moves && ref != Some(z.moved[v.choice[z.height]]))
    || (!moves && ref.Some? && ref.value in z.moved.Values)
    || (Stands(z, v, z.from, z.kept.Keys) && ref != Some(z.kept[v.choice[z.height]]))
  }

  ghost predicate RefsAgree(z: Sizes, p: Product, refs: map<Id, Maybe<Ref>>) {
    forall id :: id in p.variants ==> id in refs && !Disagrees(z, p.variants[id], refs[id])
  }

  // ---- plan_diameter ---------------------------------------------------------------------------

  function MovesIn(z: Sizes, order: seq<Id>, ids: set<Id>): (r: seq<Move>)
    ensures forall m :: m in r ==> m.variantId in ids && m.variantId in order && m.from == z.from && m.to == z.to
    ensures forall id :: id in order && id in ids ==> Move(id, z.from, z.to) in r
  {
    if order == [] then []
    else
      var front := MovesIn(z, order[..|order| - 1], ids);
      var id := order[|order| - 1];
      if id in ids then front + [Move(id, z.from, z.to)] else front
  }

  /** `to` right after `from`, every other value in its place. */
  function Target(z: Sizes, values: seq<Name>): seq<Name>
    requires z.from in values && z.from != z.to
  {
    var current := Outside(values, {z.to});
    var i := First(current, z.from) + 1;
    current[..i] + [z.to] + current[i..]
  }

  ghost function PlannedMoves(z: Sizes, p: Product): seq<Op>
    requires Family(z, p) && Positioned(p.variants)
  {
    var o := p.options[At(z, p)];
    if ToMove(z, p) == {} then []
    else (if z.to in o.values then [] else [AddValue(o.id, z.to)])
         + [MoveVariants(o.id, MovesIn(z, VariantOrder(p.variants), ToMove(z, p)))]
  }

  ghost function PlannedOrders(z: Sizes, p: Product): seq<Op>
    requires SizesOk(z) && Family(z, p) && Positioned(p.variants) && z.from in p.options[At(z, p)].values
  {
    var o, h := p.options[At(z, p)], p.options[1 - At(z, p)];
    if o.values == Target(z, o.values) then []
    else [ReorderValues([ValueOrder(o.id, z.diameter, Target(z, o.values)), ValueOrder(h.id, z.height, h.values)]),
          RestorePositions(VariantOrder(p.variants))]
  }

  ghost predicate Orders(z: Sizes, p: Product, reorder: bool) {
    reorder && (ToMove(z, p) != {} || Done(z, p) != {})
  }

  ghost predicate Refuses(z: Sizes, p: Product, refs: map<Id, Maybe<Ref>>, reorder: bool) {
    || !Family(z, p)
    || SharedCombination(z, p)
    || !RefsAgree(z, p, refs)
    || (ToMove(z, p) != {} && Done(z, p) != {})
    || (ToMove(z, p) != {} && |ToMove(z, p)| != |z.moved|)
    || (Orders(z, p, reorder) && z.from !in p.options[At(z, p)].values)
  }

  /** The edits, moves first. */
  ghost function PlannedEdits(z: Sizes, p: Product, reorder: bool): seq<Op>
    requires SizesOk(z) && Clear(z, p, reorder) && Positioned(p.variants)
  {
    PlannedMoves(z, p) + if Orders(z, p, reorder) then PlannedOrders(z, p) else []
  }

  /** The parts of a clean product that the edits depend on. */
  ghost predicate Clear(z: Sizes, p: Product, reorder: bool) {
    && Family(z, p)
    && (ToMove(z, p) == {} || Done(z, p) == {})
    && (Orders(z, p, reorder) ==> z.from in p.options[At(z, p)].values)
  }

  /** `plan_diameter` for one product. */
  ghost function PlanDiameter(z: Sizes, p: Product, refs: map<Id, Maybe<Ref>>, reorder: bool): Outcome
    requires SizesOk(z) && Positioned(p.variants)
  {
    if Refuses(z, p, refs, reorder) then Anomaly else Planned(PlannedEdits(z, p, reorder))
  }
}
