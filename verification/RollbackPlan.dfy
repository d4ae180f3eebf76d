/** The rollback planner: from whatever live state a stopped run left, the edits that
    take a product back to where the run started. */
module RollbackPlan {
  import opened Lists
  import opened Catalogue
  import opened Compare
  import opened Executor

  // ---- Reading an option by value id -----------------------------------------------------

  /** The name that carries an id, in the listed order of the values; the last one wins. */
  function NameOf(ids: map<Name, Maybe<Id>>, values: seq<Name>, id: Maybe<Id>): (n: Maybe<Name>)
    ensures n.Some? ==> n.value in values && n.value in ids && ids[n.value] == id
    ensures n.None? ==> forall v :: v in values && v in ids ==> ids[v] != id
  {
    if values == [] then None
    else
      var last := values[|values| - 1];
      if last in ids && ids[last] == id then Some(last)
      else NameOf(ids, values[..|values| - 1], id)
  }

  function Named(o: ProductOption, id: Maybe<Id>): Maybe<Name> {
    NameOf(o.ids, o.values, id)
  }

  // ---- One option ----------------------------------------------------------------------------

  /** What to do about one start value. */
  predicate NeedsRename(so: ProductOption, lo: ProductOption, name: Name) {
    name in so.ids && so.ids[name].Some?
    && Named(lo, so.ids[name]).Some? && Named(lo, so.ids[name]).value != name
  }

  /** The value is gone, or carries a name that is neither the start nor the promised one. */
  predicate RenameProblem(so: ProductOption, po: ProductOption, lo: ProductOption, name: Name) {
    name in so.ids && so.ids[name].Some? &&
    (Named(lo, so.ids[name]).None?
     || (Named(lo, so.ids[name]).value != name && Named(po, so.ids[name]) != Named(lo, so.ids[name])))
  }

  function RenamesBack(so: ProductOption, lo: ProductOption, values: seq<Name>): (r: seq<Rename>)
    ensures forall m :: m in r ==>
      NeedsRename(so, lo, m.to) && m.to in values && m.from == Named(lo, so.ids[m.to]).value
      && so.ids[m.to] == Some(m.valueId)
    ensures forall n :: n in values && NeedsRename(so, lo, n) ==>
      Rename(so.ids[n].value, Named(lo, so.ids[n]).value, n) in r
  {
    if values == [] then []
    else
      var name := values[|values| - 1];
      var front := RenamesBack(so, lo, values[..|values| - 1]);
      if NeedsRename(so, lo, name)
      then front + [Rename(so.ids[name].value, Named(lo, so.ids[name]).value, name)]
      else front
  }

  /** A live value whose id the product did not have at the start. */
  predicate Extra(so: ProductOption, lo: ProductOption, name: Name) {
    name in lo.ids && Named(so, lo.ids[name]).None?
  }

  function DeletesBack(so: ProductOption, lo: ProductOption, values: seq<Name>): (r: seq<Op>)
    requires forall n :: n in values ==> n in lo.ids && lo.ids[n].Some?
    ensures forall op :: op in r ==>
      op.DeleteValue? && op.optionId == so.id && op.name in values && Extra(so, lo, op.name)
      && lo.ids[op.name] == Some(op.valueId)
    ensures forall n :: n in values && Extra(so, lo, n) ==> DeleteValue(so.id, lo.ids[n].value, n) in r
  {
    if values == [] then []
    else
      var name := values[|values| - 1];
      var front := DeletesBack(so, lo, values[..|values| - 1]);
      if Extra(so, lo, name) then front + [DeleteValue(so.id, lo.ids[name].value, name)] else front
  }

  /** The variant holds another value (by id) than at the start. */
  predicate Elsewhere(so: ProductOption, lo: ProductOption, s: Variant, l: Variant) {
    so.name in s.choice && s.choice[so.name] in so.ids && lo.name in l.choice &&
    (l.choice[lo.name] !in lo.ids || lo.ids[l.choice[lo.name]] != so.ids[s.choice[so.name]])
  }

  predicate Complete(so: ProductOption, lo: ProductOption, s: map<Id, Variant>, l: map<Id, Variant>, listing: seq<Id>) {
    forall id | id in listing ::
      id in s && id in l && so.name in s[id].choice && s[id].choice[so.name] in so.ids && lo.name in l[id].choice
  }

  function MovesBack(so: ProductOption, lo: ProductOption, s: map<Id, Variant>, l: map<Id, Variant>,
                     listing: seq<Id>): (r: seq<Move>)
    requires Complete(so, lo, s, l, listing)
    ensures forall m :: m in r ==>
      m.variantId in listing && Elsewhere(so, lo, s[m.variantId], l[m.variantId])
      && m.from == l[m.variantId].choice[lo.name] && m.to == s[m.variantId].choice[so.name]
    ensures forall id :: id in listing && Elsewhere(so, lo, s[id], l[id]) ==>
      Move(id, l[id].choice[lo.name], s[id].choice[so.name]) in r
  {
    if listing == [] then []
    else
      var id := listing[|listing| - 1];
      var front := MovesBack(so, lo, s, l, listing[..|listing| - 1]);
      if Elsewhere(so, lo, s[id], l[id])
      then front + [Move(id, l[id].choice[lo.name], s[id].choice[so.name])]
      else front
  }

  /** The variant is neither where it started nor where the run promised to put it. */
  predicate MoveProblem(so: ProductOption, po: ProductOption, lo: ProductOption, s: Variant, p: Variant, l: Variant) {
    Elsewhere(so, lo, s, l)
    && (po.name !in p.choice || l.choice[lo.name] != p.choice[po.name])
  }

  // ---- One product ------------------------------------------------------------------------------

  /** The products line up: same options in order, same variants, known ids. */
  ghost predicate Aligned(start: Product, promised: Product, live: Product, listing: seq<Id>) {
    && WellFormed(start) && AllKnown(start) && WellFormed(live) && AllKnown(live)
    && |promised.options| == |start.options| == |live.options|
    && (forall i :: 0 <= i < |start.options| ==>
          live.options[i].id == start.options[i].id && live.options[i].name == start.options[i].name
          && promised.options[i].name == start.options[i].name)
    && live.variants.Keys == start.variants.Keys && promised.variants.Keys == start.variants.Keys
    && NoDup(listing) && (forall id :: id in listing <==> id in start.variants)
  }

  lemma AlignedIsComplete(start: Product, promised: Product, live: Product, listing: seq<Id>, i: nat)
    requires Aligned(start, promised, live, listing) && i < |start.options|
    ensures Complete(start.options[i], live.options[i], start.variants, live.variants, listing)
    ensures forall n :: n in live.options[i].values ==> n in live.options[i].ids && live.options[i].ids[n].Some?
  {
    assert OptionOk(start.options[i]) && OptionOk(live.options[i]);
    forall id | id in listing
      ensures start.options[i].name in start.variants[id].choice
        && start.variants[id].choice[start.options[i].name] in start.options[i].ids
        && live.options[i].name in live.variants[id].choice
    {
      assert ChoiceOk(start.options, start.variants[id].choice);
      assert ChoiceOk(live.options, live.variants[id].choice);
    }
    forall n | n in live.options[i].values ensures n in live.options[i].ids {
      assert n in Elems(live.options[i].values);
    }
  }

  function TitleBack(start: Product, live: Product): seq<Op> {
    if live.title != start.title then [Title(live.title, start.title, live.handle)] else []
  }

  ghost function RenamesAt(start: Product, live: Product, i: nat): seq<Op>
    requires i < |start.options| == |live.options|
  {
    var so, lo := start.options[i], live.options[i];
    var renames := RenamesBack(so, lo, so.values);
    if renames == [] then [] else [RenameValues(so.id, renames)]
  }

  ghost function MovesAt(start: Product, promised: Product, live: Product, listing: seq<Id>, i: nat): (r: seq<Op>)
    requires Aligned(start, promised, live, listing) && i < |start.options|
    ensures r == [] || (|r| == 1 && r[0].MoveVariants?)
  {
    AlignedIsComplete(start, promised, live, listing, i);
    var so, lo := start.options[i], live.options[i];
    var moves := MovesBack(so, lo, start.variants, live.variants, listing);
    if moves == [] then [] else [MoveVariants(so.id, moves)]
  }

  ghost function DeletesAt(start: Product, promised: Product, live: Product, listing: seq<Id>, i: nat): seq<Op>
    requires Aligned(start, promised, live, listing) && i < |start.options|
  {
    AlignedIsComplete(start, promised, live, listing, i);
    DeletesBack(start.options[i], live.options[i], live.options[i].values)
  }

  ghost function RenameParts(start: Product, live: Product): (parts: seq<seq<Op>>)
    requires |start.options| == |live.options|
    ensures |parts| == |start.options|
  {
    seq(|start.options|, i requires 0 <= i < |start.options| => RenamesAt(start, live, i))
  }

  ghost function MoveParts(start: Product, promised: Product, live: Product, listing: seq<Id>): (parts: seq<seq<Op>>)
    requires Aligned(start, promised, live, listing)
    ensures |parts| == |start.options|
  {
    seq(|start.options|, i requires 0 <= i < |start.options| => MovesAt(start, promised, live, listing, i))
  }

  ghost function DeleteParts(start: Product, promised: Product, live: Product, listing: seq<Id>): (parts: seq<seq<Op>>)
    requires Aligned(start, promised, live, listing)
    ensures |parts| == |start.options|
  {
    seq(|start.options|, i requires 0 <= i < |start.options| => DeletesAt(start, promised, live, listing, i))
  }

  lemma PartsAt(start: Product, promised: Product, live: Product, listing: seq<Id>, i: nat)
    requires Aligned(start, promised, live, listing) && i < |start.options|
    ensures RenameParts(start, live)[i] == RenamesAt(start, live, i)
    ensures MoveParts(start, promised, live, listing)[i] == MovesAt(start, promised, live, listing, i)
    ensures DeleteParts(start, promised, live, listing)[i] == DeletesAt(start, promised, live, listing, i)
  {
  }

  ghost function RenameOps(start: Product, live: Product): seq<Op>
    requires |start.options| == |live.options|
  {
    Flatten(RenameParts(start, live))
  }

  ghost function MoveOps(start: Product, promised: Product, live: Product, listing: seq<Id>): seq<Op>
    requires Aligned(start, promised, live, listing)
  {
    Flatten(MoveParts(start, promised, live, listing))
  }

  ghost function DeleteOps(start: Product, promised: Product, live: Product, listing: seq<Id>): seq<Op>
    requires Aligned(start, promised, live, listing)
  {
    Flatten(DeleteParts(start, promised, live, listing))
  }

  function OrdersOf(p: Product): (r: seq<ValueOrder>)
    ensures |r| == |p.options|
    ensures forall i :: 0 <= i < |r| ==> r[i] == ValueOrder(p.options[i].id, p.options[i].name, p.options[i].values)
  {
    seq(|p.options|, i requires 0 <= i < |p.options| =>
      ValueOrder(p.options[i].id, p.options[i].name, p.options[i].values))
  }

  /** Title, renames, moves, deletes, then the ordering edits. */
  ghost function RollbackOps(start: Product, promised: Product, live: Product, listing: seq<Id>): seq<Op>
    requires Aligned(start, promised, live, listing)
  {
    TitleBack(start, live) + RenameOps(start, live) + MoveOps(start, promised, live, listing)
    + DeleteOps(start, promised, live, listing)
    + [ReorderValues(OrdersOf(start)), RestorePositions(VariantOrder(start.variants))]
  }

  /** The start state with the prices the product has now. */
  function WithPrices(start: Product, live: Product): Product
    requires live.variants.Keys == start.variants.Keys
  {
    start.(variants := map id | id in start.variants ::
             start.variants[id].(price := live.variants[id].price,
                                 compareAtPrice := live.variants[id].compareAtPrice))
  }

  ghost predicate RenamesOurs(so: ProductOption, po: ProductOption, lo: ProductOption) {
    forall n :: n in so.values ==> !RenameProblem(so, po, lo, n)
  }

  ghost predicate ValuesOurs(so: ProductOption, po: ProductOption, lo: ProductOption) {
    forall n :: n in lo.values && Extra(so, lo, n) ==> n in po.values
  }

  /** No name, value or place under this option is foreign to the run. */
  ghost predicate OptionOurs(start: Product, promised: Product, live: Product, listing: seq<Id>, i: nat)
    requires Aligned(start, promised, live, listing) && i < |start.options|
  {
    var so, po, lo := start.options[i], promised.options[i], live.options[i];
    && RenamesOurs(so, po, lo) && ValuesOurs(so, po, lo)
    && (forall id :: id in listing ==>
          !MoveProblem(so, po, lo, start.variants[id], promised.variants[id], live.variants[id]))
  }

  /** No field is found at a value that is neither the start nor the promised one. */
  ghost predicate NothingForeign(start: Product, promised: Product, live: Product, listing: seq<Id>)
    requires Aligned(start, promised, live, listing)
  {
    && live.handle == start.handle
    && (live.title == start.title || live.title == promised.title)
    && forall i :: 0 <= i < |start.options| ==> OptionOurs(start, promised, live, listing, i)
  }

  /** The planner reports no problem: nothing foreign, and simulating the planned
      edits from the live state reaches the start state. */
  ghost predicate NoProblem(start: Product, promised: Product, live: Product, listing: seq<Id>) {
    && Aligned(start, promised, live, listing)
    && NothingForeign(start, promised, live, listing)
    && RunsAll(live, RollbackOps(start, promised, live, listing))
    && Matches(WithPrices(start, live), Expected(live, RollbackOps(start, promised, live, listing)), {}, false)
  }

  /** A conditional edit that would find itself satisfied after the ones before it. */
  ghost predicate Noop(live: Product, ops: seq<Op>, k: nat)
    requires k < |ops| && RunsAll(live, ops[..k])
  {
    Conditional(ops[k]) && Positioned(Expected(live, ops[..k]).variants) && Satisfied(Expected(live, ops[..k]), ops[k])
  }

  ghost predicate NoopAt(live: Product, ops: seq<Op>, k: nat)
    requires k < |ops|
  {
    RunsAll(live, ops[..k]) && Noop(live, ops, k)
  }

  /** The plan would write nothing, so the product is skipped. */
  ghost predicate WritesNothing(live: Product, ops: seq<Op>) {
    RunsAll(live, ops) && forall k :: 0 <= k < |ops| ==> NoopAt(live, ops, k)
  }
}
