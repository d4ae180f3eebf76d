/** What an edit that passes its guard does, told from the product before and after: it
    changes what it names and nothing else, and only where it finds what it expects. */
module EditMeaning {
  import opened Lists
  import opened Catalogue
  import opened Edits
  import opened KeepsForm
  import opened Compare

  // ---- Before and after ------------------------------------------------------------------------

  predicate OnOption(op: Op, o: ProductOption) {
    (op.RenameValues? || op.AddValue? || op.MoveVariants? || op.DeleteValue?) && op.optionId == o.id
  }

  /** The title and the handle: a title edit finds the title and the handle it expects. */
  ghost predicate TitleMeant(p: Product, op: Op, q: Product) {
    && q.handle == p.handle
    && (if op.Title? then p.title == op.from && p.handle == op.handle && q.title == op.to else q.title == p.title)
  }

  /** A value that is gone was renamed from the name it had, or deleted with no variant
      left on it; both under the id it had. */
  ghost predicate LossMeant(p: Product, op: Op, q: Product, i: nat, n: Name, id: Maybe<Id>)
    requires i < |p.options| == |q.options|
  {
    Carries(p.options[i], n, id) && !Carries(q.options[i], n, id) ==>
      OnOption(op, p.options[i]) && match op
        case RenameValues(_, renames) =>
          exists r :: r in renames && r.from == n && Some(r.valueId) == id && Carries(q.options[i], r.to, id)
        case DeleteValue(_, valueId, name) =>
          name == n && id == Some(valueId) && forall v :: v in p.variants && p.options[i].name in p.variants[v].choice ==>
            p.variants[v].choice[p.options[i].name] != n
        case _ => false
  }

  /** A value that is new was renamed to its name, or added where nothing reads like it. */
  ghost predicate GainMeant(p: Product, op: Op, q: Product, i: nat, n: Name, id: Maybe<Id>)
    requires i < |p.options| == |q.options|
  {
    Carries(q.options[i], n, id) && !Carries(p.options[i], n, id) ==>
      OnOption(op, p.options[i]) && match op
        case RenameValues(_, renames) =>
          exists r :: r in renames && r.to == n && Some(r.valueId) == id && Carries(p.options[i], r.from, id)
        case AddValue(_, name) =>
          name == n && id == None && forall v :: v in p.options[i].values ==> norm(v) != norm(n)
        case _ => false
  }

  ghost predicate ValuesMeant(p: Product, op: Op, q: Product, i: nat)
    requires i < |p.options| == |q.options|
  {
    forall n, id :: LossMeant(p, op, q, i, n, id) && GainMeant(p, op, q, i, n, id)
  }

  /** The variant holds the same value, by id, before and after. */
  ghost predicate HoldsOn(p: Product, q: Product, i: nat, v: Id)
    requires i < |p.options| == |q.options| && v in p.variants && v in q.variants
  {
    && p.options[i].name in p.variants[v].choice && p.options[i].name in q.variants[v].choice
    && exists id ::
         && Carries(p.options[i], p.variants[v].choice[p.options[i].name], id)
         && Carries(q.options[i], q.variants[v].choice[p.options[i].name], id)
  }

  /** A variant that holds another value was moved there from the value it held. */
  ghost predicate PlaceMeant(p: Product, op: Op, q: Product, i: nat, v: Id)
    requires i < |p.options| == |q.options| && v in p.variants && v in q.variants
  {
    HoldsOn(p, q, i, v) ||
    (op.MoveVariants? && op.optionId == p.options[i].id
     && exists m :: m in op.moves && MadeBy(p.options[i].name, p.variants[v], m, v, q.variants[v]))
  }

  predicate MadeBy(name: Name, before: Variant, m: Move, v: Id, later: Variant) {
    && m.variantId == v && name in before.choice && name in later.choice
    && before.choice[name] == m.from && later.choice[name] == m.to
  }

  /** Everything the edit names has come about. */
  ghost predicate Done(p: Product, op: Op, q: Product)
    requires |p.options| == |q.options| && p.variants.Keys == q.variants.Keys
  {
    match op
    case Title(_, to, _) => q.title == to
    case RenameValues(id, renames) =>
      forall i, r :: 0 <= i < |p.options| && p.options[i].id == id && r in renames ==>
        Carries(p.options[i], r.from, Some(r.valueId)) && Carries(q.options[i], r.to, Some(r.valueId))
    case AddValue(id, name) =>
      forall i :: 0 <= i < |p.options| && p.options[i].id == id ==>
        q.options[i].values == p.options[i].values + [name] && Carries(q.options[i], name, None)
    case MoveVariants(id, moves) =>
      forall i, m :: 0 <= i < |p.options| && p.options[i].id == id && m in moves ==>
        m.variantId in p.variants
        && MadeBy(p.options[i].name, p.variants[m.variantId], m, m.variantId, q.variants[m.variantId])
    case DeleteValue(id, _, name) =>
      forall i :: 0 <= i < |p.options| && p.options[i].id == id ==>
        name in p.options[i].values && q.options[i].values == Outside(p.options[i].values, {name})
    case ReorderValues(orders) =>
      |orders| == |p.options| && forall i :: 0 <= i < |p.options| ==>
        q.options[i].values == orders[i].values && multiset(orders[i].values) == multiset(p.options[i].values)
    case RestorePositions(order) =>
      IsOrder(q.variants, order)
  }

  /** Ids and names of options, prices, and without a restore the positions stay. */
  ghost predicate RestStays(p: Product, op: Op, q: Product) {
    && |p.options| == |q.options| && p.variants.Keys == q.variants.Keys
    && (forall i :: 0 <= i < |p.options| ==> q.options[i].id == p.options[i].id && q.options[i].name == p.options[i].name)
    && (forall v :: v in p.variants ==>
          && q.variants[v].price == p.variants[v].price && q.variants[v].compareAtPrice == p.variants[v].compareAtPrice
          && (op.RestorePositions? || q.variants[v].position == p.variants[v].position))
  }

  ghost predicate OnlyMeant(p: Product, op: Op, q: Product) {
    && RestStays(p, op, q) && TitleMeant(p, op, q) && Done(p, op, q)
    && (forall i :: 0 <= i < |p.options| ==> ValuesMeant(p, op, q, i))
    && (forall i, v :: 0 <= i < |p.options| && v in p.variants ==> PlaceMeant(p, op, q, i, v))
  }

  // ---- What stays put ----------------------------------------------------------------------------

  /** An option whose values and ids stay loses and gains nothing. */
  lemma SameValuesMeant(p: Product, op: Op, q: Product, i: nat)
    requires i < |p.options| == |q.options| && OptionOk(p.options[i]) && OptionOk(q.options[i])
    requires q.options[i].ids == p.options[i].ids
    ensures ValuesMeant(p, op, q, i)
  {
    forall n ensures n in p.options[i].values <==> n in q.options[i].values {
      assert n in p.options[i].values <==> n in Elems(p.options[i].values);
      assert n in q.options[i].values <==> n in Elems(q.options[i].values);
    }
  }

  lemma SamePlaceMeant(p: Product, op: Op, q: Product, i: nat, v: Id)
    requires i < |p.options| == |q.options| && v in p.variants && v in q.variants
    requires OptionOk(p.options[i]) && OptionOk(q.options[i]) && ChoiceOk(p.options, p.variants[v].choice)
    requires q.variants[v].choice == p.variants[v].choice
    requires var n := p.variants[v].choice[p.options[i].name];
      n in q.options[i].ids && q.options[i].ids[n] == p.options[i].ids[n]
    ensures PlaceMeant(p, op, q, i, v)
  {
    var n := p.variants[v].choice[p.options[i].name];
    assert n in Elems(p.options[i].values) && n in Elems(q.options[i].values);
    assert Carries(p.options[i], n, p.options[i].ids[n]) && Carries(q.options[i], n, p.options[i].ids[n]);
  }

  /** `q` is `w` but for titles and the order of values. */
  ghost predicate ButForTitles(w: Product, q: Product) {
    && q.title == w.title && q.handle == w.handle && |q.options| == |w.options|
    && (forall i :: 0 <= i < |q.options| ==> q.options[i] == w.options[i].(values := q.options[i].values))
    && q.variants.Keys == w.variants.Keys
    && (forall v :: v in w.variants ==> q.variants[v] == w.variants[v].(title := q.variants[v].title))
  }

  lemma RetitledButForTitles(w: Product)
    requires forall id :: id in w.variants ==> Covers(Names(w.options), w.variants[id].choice)
    ensures ButForTitles(w, Retitle(w)) && Retitle(w).options == w.options
  {
  }

  lemma ReflowedButForTitles(w: Product)
    requires FormOk(w)
    ensures Readable(w) && Readable(Reflow(w)) && ButForTitles(w, Retitle(Reflow(w)))
  {
    FormReadable(w);
    ReflowKeepsForm(w);
    FormReadable(Reflow(w));
  }

  /** The simulated state but for titles and re-flowed orders is what the edit writes. */
  lemma WrittenStays(p: Product, op: Op)
    requires WellFormed(p) && Fits(p, op) && Guarded(op)
    ensures Runs(p, op) && FormOk(Write(p, op)) && WellFormed(Simulate(p, op))
    ensures ButForTitles(Write(p, op), Simulate(p, op)) && |Write(p, op).options| == |p.options|
    ensures !op.MoveVariants? ==> Simulate(p, op).options == Write(p, op).options
    ensures Write(p, op).variants.Keys == p.variants.Keys
  {
    EditKeepsForm(p, op);
    WriteKeepsForm(p, op);
    WriteShape(p, op);
    var w := Write(p, op);
    assert |Names(w.options)| == |p.options|;
    if op.MoveVariants? {
      ReflowedButForTitles(w);
    } else {
      RetitledButForTitles(w);
    }
  }

  // ---- One edit after the other ---------------------------------------------------------------------

  ghost predicate SameIdsAndPlaces(p: Product, q: Product) {
    && |q.options| == |p.options| && q.variants.Keys == p.variants.Keys
    && (forall i :: 0 <= i < |p.options| ==> q.options[i].ids == p.options[i].ids)
    && (forall v :: v in p.variants ==> q.variants[v].choice == p.variants[v].choice)
  }

  lemma PlainMeant(p: Product, op: Op)
    requires WellFormed(p) && Passes(p, op) && Guarded(op) && Runs(p, op)
    requires op.Title? || op.ReorderValues? || op.RestorePositions?
    requires RestStays(p, op, Simulate(p, op)) && TitleMeant(p, op, Simulate(p, op)) && Done(p, op, Simulate(p, op))
    requires WellFormed(Simulate(p, op))
    requires SameIdsAndPlaces(p, Simulate(p, op))
    ensures OnlyMeant(p, op, Simulate(p, op))
  {
    var q := Simulate(p, op);
    forall i | 0 <= i < |p.options| ensures ValuesMeant(p, op, q, i) {
      SameValuesMeant(p, op, q, i);
    }
    forall i, v | 0 <= i < |p.options| && v in p.variants ensures PlaceMeant(p, op, q, i, v) {
      assert ChoiceOk(p.options, p.variants[v].choice);
      assert p.variants[v].choice[p.options[i].name] in Elems(p.options[i].values);
      SamePlaceMeant(p, op, q, i, v);
    }
  }

  /** What every edit's write leaves alone. */
  lemma WriteRest(p: Product, op: Op)
    requires Runs(p, op) && Passes(p, op) && |Write(p, op).options| == |p.options|
    ensures RestStays(p, op, Write(p, op)) && TitleMeant(p, op, Write(p, op))
  {
    var w := Write(p, op);
    WriteShape(p, op);
    assert forall i :: 0 <= i < |p.options| ==> Names(w.options)[i] == w.options[i].name && Names(p.options)[i] == p.options[i].name;
    match op
    case RenameValues(id, renames) => RenameAllShape(p, IndexOf(p.options, id), renames);
      assert forall v :: v in p.variants ==> SameBut(p.variants[v], w.variants[v], p.options[IndexOf(p.options, id)].name);
    case MoveVariants(id, moves) => MoveAllShape(p.variants, p.options[IndexOf(p.options, id)].name, moves);
    case RestorePositions(order) => PlaceAllShape(p.variants, order);
    case _ =>
  }

  lemma RestIsMeant(p: Product, op: Op)
    requires WellFormed(p) && Passes(p, op) && Guarded(op)
    ensures Runs(p, op) && RestStays(p, op, Simulate(p, op)) && TitleMeant(p, op, Simulate(p, op))
    ensures WellFormed(Simulate(p, op))
  {
    WrittenStays(p, op);
    WriteRest(p, op);
  }

  lemma TitleIsMeant(p: Product, op: Op)
    requires WellFormed(p) && Passes(p, op) && Guarded(op) && op.Title?
    ensures Runs(p, op) && OnlyMeant(p, op, Simulate(p, op))
  {
    RestIsMeant(p, op);
    WrittenStays(p, op);
    PlainMeant(p, op);
  }

  lemma {:induction false} ReorderAllAt(options: seq<ProductOption>, orders: seq<ValueOrder>)
    requires forall i, j :: 0 <= i < j < |options| ==> options[i].id != options[j].id
    requires |orders| <= |options| && forall i :: 0 <= i < |orders| ==> orders[i].id == options[i].id
    ensures forall w :: w in orders ==> HasId(options, w.id)
    ensures forall i :: 0 <= i < |orders| ==> ReorderAll(options, orders)[i].values == orders[i].values
  {
    forall w | w in orders ensures HasId(options, w.id) {
      var i :| 0 <= i < |orders| && orders[i] == w;
      assert options[i].id == w.id;
    }
    if orders != [] {
      var k := |orders| - 1;
      ReorderAllAt(options, orders[..k]);
      var front := ReorderAll(options, orders[..k]);
      assert front[k].id == orders[k].id;
      assert IndexOf(front, orders[k].id) == k;
    }
  }

  lemma ReorderDone(p: Product, op: Op)
    requires WellFormed(p) && Fits(p, op) && op.ReorderValues? && Runs(p, op)
    ensures |Write(p, op).options| == |p.options| && Write(p, op).variants == p.variants
    ensures forall i :: 0 <= i < |p.options| ==> Write(p, op).options[i].values == op.orders[i].values
  {
    ReorderAllAt(p.options, op.orders);
  }

  lemma ReorderIsMeant(p: Product, op: Op)
    requires WellFormed(p) && Passes(p, op) && Guarded(op) && op.ReorderValues?
    ensures Runs(p, op) && OnlyMeant(p, op, Simulate(p, op))
  {
    RestIsMeant(p, op);
    WrittenStays(p, op);
    ReorderDone(p, op);
    PlainMeant(p, op);
  }

  lemma RestoreDone(p: Product, op: Op)
    requires Fits(p, op) && op.RestorePositions? && Runs(p, op)
    ensures IsOrder(Write(p, op).variants, op.order) && Write(p, op).options == p.options
    ensures forall v :: v in p.variants ==> v in Write(p, op).variants && Write(p, op).variants[v].choice == p.variants[v].choice
  {
    ListingOf(op.order, p.variants.Keys);
    PlaceAllActs(p.variants, op.order);
    PlaceAllShape(p.variants, op.order);
  }

  lemma SamePositionsOrder(w: Product, q: Product, order: seq<Id>)
    requires IsOrder(w.variants, order) && ButForTitles(w, q)
    ensures IsOrder(q.variants, order)
  {
  }

  lemma RestoreIsMeant(p: Product, op: Op)
    requires WellFormed(p) && Passes(p, op) && Guarded(op) && op.RestorePositions?
    ensures Runs(p, op) && OnlyMeant(p, op, Simulate(p, op))
  {
    RestIsMeant(p, op);
    WrittenStays(p, op);
    RestoreDone(p, op);
    SamePositionsOrder(Write(p, op), Simulate(p, op), op.order);
    PlainMeant(p, op);
  }

  /** In a well-formed product an id of an option's map is on a listed name, and back. */
  lemma ListedIds(o: ProductOption)
    requires OptionOk(o)
    ensures forall n, id :: Carries(o, n, id) <==> n in o.ids && o.ids[n] == id
  {
    forall n ensures n in o.values <==> n in o.ids {
      assert n in o.values <==> n in Elems(o.values);
    }
  }

  /** Values outside option `k` and all places stay. */
  lemma OthersMeant(p: Product, op: Op, q: Product, k: nat, i: nat)
    requires WellFormed(p) && WellFormed(q) && i < |p.options| == |q.options| && i != k && q.options[i] == p.options[i]
    ensures ValuesMeant(p, op, q, i)
  {
    SameValuesMeant(p, op, q, i);
  }

  /** No variant was moved, and what the variants hold kept its id. */
  lemma PlacesStay(p: Product, op: Op, q: Product, i: nat, v: Id)
    requires WellFormed(p) && WellFormed(q) && i < |p.options| == |q.options| && v in p.variants && v in q.variants
    requires q.variants[v].choice == p.variants[v].choice
    requires forall n :: n in p.options[i].ids && n in q.options[i].ids ==> q.options[i].ids[n] == p.options[i].ids[n]
    requires q.options[i].name == p.options[i].name
    ensures PlaceMeant(p, op, q, i, v)
  {
    assert ChoiceOk(p.options, p.variants[v].choice) && ChoiceOk(q.options, q.variants[v].choice);
    assert p.variants[v].choice[p.options[i].name] in Elems(p.options[i].values);
    assert p.variants[v].choice[p.options[i].name] in Elems(q.options[i].values);
    SamePlaceMeant(p, op, q, i, v);
  }

  lemma AddIsMeant(p: Product, op: Op)
    requires WellFormed(p) && Passes(p, op) && Guarded(op) && op.AddValue?
    ensures Runs(p, op) && OnlyMeant(p, op, Simulate(p, op))
  {
    RestIsMeant(p, op);
    WrittenStays(p, op);
    var q, k := Simulate(p, op), IndexOf(p.options, op.optionId);
    AddedOption(p, op, q, k);
    AddedAssembles(p, op, q, k);
  }

  lemma AddedAssembles(p: Product, op: Op, q: Product, k: nat)
    requires WellFormed(p) && WellFormed(q) && op.AddValue? && RestStays(p, op, q) && TitleMeant(p, op, q)
    requires k < |p.options| && p.options[k].id == op.optionId && IsAdded(p.options[k], op.name, q.options[k])
    requires forall i :: 0 <= i < |p.options| && i != k ==> q.options[i] == p.options[i]
    requires forall v :: v in p.variants ==> q.variants[v].choice == p.variants[v].choice
    ensures OnlyMeant(p, op, q)
  {
    AddedMeant(p, op, q, k);
    forall i | 0 <= i < |p.options| ensures ValuesMeant(p, op, q, i) {
      if i != k {
        OthersMeant(p, op, q, k, i);
      }
    }
    AddedKeepsIds(p.options[k], op.name, q.options[k]);
    forall i, v | 0 <= i < |p.options| && v in p.variants ensures PlaceMeant(p, op, q, i, v) {
      PlacesStay(p, op, q, i, v);
    }
  }

  lemma AddedKeepsIds(o: ProductOption, name: Name, u: ProductOption)
    requires OptionOk(o) && IsAdded(o, name, u)
    ensures forall n :: n in o.ids && n in u.ids ==> u.ids[n] == o.ids[n]
  {
    assert name !in Elems(o.values);
  }

  ghost predicate IsAdded(o: ProductOption, name: Name, q: ProductOption) {
    q == o.(values := o.values + [name], ids := o.ids[name := None]) && forall v :: v in o.values ==> norm(v) != norm(name)
  }

  lemma AddedOption(p: Product, op: Op, q: Product, k: nat)
    requires op.AddValue? && Fits(p, op) && Runs(p, op) && k == IndexOf(p.options, op.optionId)
    requires |q.options| == |p.options| && q.options == Write(p, op).options && q.variants.Keys == p.variants.Keys
    requires ButForTitles(Write(p, op), q)
    ensures IsAdded(p.options[k], op.name, q.options[k])
    ensures forall i :: 0 <= i < |p.options| && i != k ==> q.options[i] == p.options[i]
    ensures forall v :: v in p.variants ==> q.variants[v].choice == p.variants[v].choice
  {
  }

  lemma AddedMeant(p: Product, op: Op, q: Product, k: nat)
    requires op.AddValue? && k < |p.options| == |q.options| && p.options[k].id == op.optionId
    requires OptionOk(p.options[k]) && IsAdded(p.options[k], op.name, q.options[k])
    ensures ValuesMeant(p, op, q, k)
    ensures Carries(q.options[k], op.name, None)
  {
    ListedIds(p.options[k]);
  }

  lemma DeletedOption(p: Product, op: Op, q: Product, k: nat)
    requires op.DeleteValue? && Fits(p, op) && Runs(p, op) && k == IndexOf(p.options, op.optionId)
    requires |q.options| == |p.options| && q.options == Write(p, op).options && q.variants.Keys == p.variants.Keys
    requires ButForTitles(Write(p, op), q)
    ensures IsDeleted(p.options[k], op.name, q.options[k])
    ensures forall i :: 0 <= i < |p.options| && i != k ==> q.options[i] == p.options[i]
    ensures forall v :: v in p.variants ==> q.variants[v].choice == p.variants[v].choice
  {
  }

  predicate IsDeleted(o: ProductOption, name: Name, u: ProductOption) {
    name in o.values && u == o.(values := Outside(o.values, {name}), ids := o.ids - {name})
  }

  lemma DeleteIsMeant(p: Product, op: Op)
    requires WellFormed(p) && Passes(p, op) && Guarded(op) && op.DeleteValue?
    ensures Runs(p, op) && OnlyMeant(p, op, Simulate(p, op))
  {
    RestIsMeant(p, op);
    WrittenStays(p, op);
    var q, k := Simulate(p, op), IndexOf(p.options, op.optionId);
    DeletedOption(p, op, q, k);
    DeletedMeant(p, op, q, k);
    DeletedAssembles(p, op, q, k);
  }

  lemma DeletedAssembles(p: Product, op: Op, q: Product, k: nat)
    requires WellFormed(p) && WellFormed(q) && op.DeleteValue? && RestStays(p, op, q) && TitleMeant(p, op, q)
    requires k < |p.options| && p.options[k].id == op.optionId && IsDeleted(p.options[k], op.name, q.options[k])
    requires ValuesMeant(p, op, q, k)
    requires forall i :: 0 <= i < |p.options| && i != k ==> q.options[i] == p.options[i]
    requires forall v :: v in p.variants ==> q.variants[v].choice == p.variants[v].choice
    ensures OnlyMeant(p, op, q)
  {
    forall i | 0 <= i < |p.options| ensures ValuesMeant(p, op, q, i) {
      if i != k {
        OthersMeant(p, op, q, k, i);
      }
    }
    forall i, v | 0 <= i < |p.options| && v in p.variants ensures PlaceMeant(p, op, q, i, v) {
      PlacesStay(p, op, q, i, v);
    }
  }

  lemma DeletedMeant(p: Product, op: Op, q: Product, k: nat)
    requires op.DeleteValue? && Passes(p, op) && k < |p.options| == |q.options| && k == IndexOf(p.options, op.optionId)
    requires OptionOk(p.options[k]) && OptionOk(q.options[k]) && q.options[k].ids == p.options[k].ids - {op.name}
    ensures ValuesMeant(p, op, q, k)
  {
    ListedIds(p.options[k]);
    ListedIds(q.options[k]);
  }

  lemma MoveIsMeant(p: Product, op: Op)
    requires WellFormed(p) && Passes(p, op) && Guarded(op) && op.MoveVariants?
    ensures Runs(p, op) && OnlyMeant(p, op, Simulate(p, op))
  {
    RestIsMeant(p, op);
    WrittenStays(p, op);
    var w, q, k := Write(p, op), Simulate(p, op), IndexOf(p.options, op.optionId);
    MoveAllActs(p.variants, p.options[k].name, op.moves);
    forall v | v in p.variants ensures MovedMeant(p, op, q, k, v) {
      VariantMoved(p, op, q, k, v);
    }
    MovesDone(p, op, w, q, k);
    MovesAssemble(p, op, q, k);
  }

  lemma MovesDone(p: Product, op: Op, w: Product, q: Product, k: nat)
    requires op.MoveVariants? && Fits(p, op) && k == IndexOf(p.options, op.optionId) && |p.options| == |q.options|
    requires forall i, j :: 0 <= i < j < |p.options| ==> p.options[i].id != p.options[j].id
    requires p.variants.Keys == q.variants.Keys == w.variants.Keys
    requires Moved(p.variants, p.options[k].name, op.moves, w.variants)
    requires forall v :: v in w.variants ==> q.variants[v].choice == w.variants[v].choice
    ensures Done(p, op, q)
  {
    forall i, m | 0 <= i < |p.options| && p.options[i].id == op.optionId && m in op.moves
      ensures m.variantId in p.variants
        && MadeBy(p.options[i].name, p.variants[m.variantId], m, m.variantId, q.variants[m.variantId])
    {
      assert i == k && MoveFits(p, p.options[k], m);
      assert MovedTo(p.variants, p.options[k].name, m, w.variants);
    }
  }

  lemma MovesAssemble(p: Product, op: Op, q: Product, k: nat)
    requires WellFormed(p) && WellFormed(q) && op.MoveVariants? && RestStays(p, op, q) && TitleMeant(p, op, q) && Done(p, op, q)
    requires k < |p.options| && p.options[k].id == op.optionId
    requires forall i :: 0 <= i < |p.options| ==> q.options[i].ids == p.options[i].ids
    requires forall v :: v in p.variants ==> MovedMeant(p, op, q, k, v)
    ensures OnlyMeant(p, op, q)
  {
    forall i | 0 <= i < |p.options| ensures ValuesMeant(p, op, q, i) {
      SameValuesMeant(p, op, q, i);
    }
    forall i, v | 0 <= i < |p.options| && v in p.variants ensures PlaceMeant(p, op, q, i, v) {
      assert MovedMeant(p, op, q, k, v);
      MovedPlaceMeant(p, op, q, k, i, v);
    }
  }

  /** The variant is where it was, or at the target of its move. */
  ghost predicate MovedMeant(p: Product, op: Op, q: Product, k: nat, v: Id)
    requires k < |p.options| && v in p.variants && v in q.variants && op.MoveVariants?
  {
    || q.variants[v].choice == p.variants[v].choice
    || (exists m :: m in op.moves && MadeBy(p.options[k].name, p.variants[v], m, v, q.variants[v])
          && q.variants[v].choice == p.variants[v].choice[p.options[k].name := m.to])
  }

  lemma VariantMoved(p: Product, op: Op, q: Product, k: nat, v: Id)
    requires op.MoveVariants? && Passes(p, op) && k == IndexOf(p.options, op.optionId) && Runs(p, op)
    requires v in p.variants && v in q.variants && v in Write(p, op).variants
    requires q.variants[v].choice == Write(p, op).variants[v].choice
    requires Moved(p.variants, p.options[k].name, op.moves, Write(p, op).variants)
    ensures MovedMeant(p, op, q, k, v)
  {
    var w := Write(p, op);
    if m :| m in op.moves && m.variantId == v {
      assert MoveFits(p, p.options[k], m);
      assert MovedTo(p.variants, p.options[k].name, m, w.variants);
      assert MadeBy(p.options[k].name, p.variants[v], m, v, q.variants[v]);
    }
  }

  lemma MovedPlaceMeant(p: Product, op: Op, q: Product, k: nat, i: nat, v: Id)
    requires WellFormed(p) && op.MoveVariants? && k < |p.options| == |q.options| && i < |p.options| && v in p.variants && v in q.variants
    requires op.optionId == p.options[k].id && MovedMeant(p, op, q, k, v)
    requires OptionOk(q.options[i]) && q.options[i].ids == p.options[i].ids
    ensures PlaceMeant(p, op, q, i, v)
  {
    assert ChoiceOk(p.options, p.variants[v].choice);
    assert p.variants[v].choice[p.options[i].name] in Elems(p.options[i].values);
    ListedIds(p.options[i]);
    ListedIds(q.options[i]);
    if i != k || q.variants[v].choice == p.variants[v].choice {
      assert Carries(p.options[i], p.variants[v].choice[p.options[i].name], p.options[i].ids[p.variants[v].choice[p.options[i].name]]);
    }
  }

  lemma RenameIsMeant(p: Product, op: Op)
    requires WellFormed(p) && Passes(p, op) && Guarded(op) && op.RenameValues?
    ensures Runs(p, op) && OnlyMeant(p, op, Simulate(p, op))
  {
    RestIsMeant(p, op);
    WrittenStays(p, op);
    var w, q, k := Write(p, op), Simulate(p, op), IndexOf(p.options, op.optionId);
    RenamesActTogether(p, k, op.renames);
    RenameAllShape(p, k, op.renames);
    RenamedMeant(p, op, q, k);
    RenamedDone(p, op, q, k);
    forall i, v | 0 <= i < |p.options| && v in p.variants ensures Renamed(p, SubOf(op.renames), q, k, i, v) {
      RenamedAt(p, op, w, q, k, i, v);
    }
    RenamesAssemble(p, op, q, k);
  }

  /** What the variant holds under option `i` is what it held, by its new name. */
  ghost predicate Renamed(p: Product, sub: map<Name, Name>, q: Product, k: nat, i: nat, v: Id)
    requires i < |p.options| && v in p.variants && v in q.variants
  {
    var name := p.options[i].name;
    && name in q.variants[v].choice && name in p.variants[v].choice
    && q.variants[v].choice[name] == if i == k then Sub(sub, p.variants[v].choice[name]) else p.variants[v].choice[name]
  }

  lemma RenamedAt(p: Product, op: Op, w: Product, q: Product, k: nat, i: nat, v: Id)
    requires WellFormed(p) && op.RenameValues? && k < |p.options| && i < |p.options| && v in p.variants && v in q.variants
    requires OnlyOption(p, k, w) && ChoicesSubbed(p, p.options[k], SubOf(op.renames), w)
    requires q.variants[v].choice == w.variants[v].choice
    ensures Renamed(p, SubOf(op.renames), q, k, i, v)
  {
    assert ChoiceOk(p.options, p.variants[v].choice);
    assert SameBut(p.variants[v], w.variants[v], p.options[k].name);
    assert ChoiceSubbed(p.variants[v], p.options[k], SubOf(op.renames), w.variants[v]);
  }

  lemma RenamesAssemble(p: Product, op: Op, q: Product, k: nat)
    requires WellFormed(p) && WellFormed(q) && op.RenameValues? && RestStays(p, op, q) && TitleMeant(p, op, q) && Done(p, op, q)
    requires k < |p.options| && ValuesMeant(p, op, q, k) && IdsSubbed(p.options[k], SubOf(op.renames), q.options[k])
    requires forall i :: 0 <= i < |p.options| && i != k ==> q.options[i] == p.options[i]
    requires forall i, v :: 0 <= i < |p.options| && v in p.variants ==> Renamed(p, SubOf(op.renames), q, k, i, v)
    ensures OnlyMeant(p, op, q)
  {
    forall i | 0 <= i < |p.options| ensures ValuesMeant(p, op, q, i) {
      if i != k {
        OthersMeant(p, op, q, k, i);
      }
    }
    forall i, v | 0 <= i < |p.options| && v in p.variants ensures PlaceMeant(p, op, q, i, v) {
      assert Renamed(p, SubOf(op.renames), q, k, i, v);
      RenamedPlaceMeant(p, op, q, k, i, v);
    }
  }

  lemma RenamedMeant(p: Product, op: Op, q: Product, k: nat)
    requires op.RenameValues? && Passes(p, op) && Guarded(op) && k < |p.options| == |q.options| && k == IndexOf(p.options, op.optionId)
    requires OptionOk(p.options[k]) && OptionOk(q.options[k]) && IdsSubbed(p.options[k], SubOf(op.renames), q.options[k])
    ensures ValuesMeant(p, op, q, k)
  {
    var o, u, sub := p.options[k], q.options[k], SubOf(op.renames);
    SubOfMeans(op.renames);
    ListedIds(o);
    ListedIds(u);
    forall n, id | Carries(o, n, id) && !Carries(u, n, id) ensures LossMeant(p, op, q, k, n, id) {
      assert Sub(sub, n) in u.ids && u.ids[Sub(sub, n)] == id;
      var j :| 0 <= j < |op.renames| && op.renames[j].from == n && op.renames[j].to == sub[n];
      assert op.renames[j] in op.renames;
    }
    forall n, id | Carries(u, n, id) && !Carries(o, n, id) ensures GainMeant(p, op, q, k, n, id) {
      var m :| m in o.ids && n == Sub(sub, m);
      var j :| 0 <= j < |op.renames| && op.renames[j].from == m && op.renames[j].to == sub[m];
      assert op.renames[j] in op.renames;
    }
  }

  lemma RenamedPlaceMeant(p: Product, op: Op, q: Product, k: nat, i: nat, v: Id)
    requires WellFormed(p) && op.RenameValues? && k < |p.options| == |q.options| && i < |p.options| && v in p.variants && v in q.variants
    requires OptionOk(q.options[i]) && (i != k ==> q.options[i].ids == p.options[i].ids)
    requires i == k ==> IdsSubbed(p.options[k], SubOf(op.renames), q.options[k])
    requires p.options[i].name in q.variants[v].choice && p.options[i].name in p.variants[v].choice
    requires q.variants[v].choice[p.options[i].name] ==
      if i == k then Sub(SubOf(op.renames), p.variants[v].choice[p.options[i].name]) else p.variants[v].choice[p.options[i].name]
    ensures PlaceMeant(p, op, q, i, v)
  {
    assert ChoiceOk(p.options, p.variants[v].choice);
    var n := p.variants[v].choice[p.options[i].name];
    assert n in Elems(p.options[i].values);
    ListedIds(p.options[i]);
    ListedIds(q.options[i]);
    assert Carries(p.options[i], n, p.options[i].ids[n]);
    assert Carries(q.options[i], q.variants[v].choice[p.options[i].name], p.options[i].ids[n]);
  }

  lemma OneRenamed(o: ProductOption, u: ProductOption, renames: seq<Rename>, r: Rename)
    requires OptionOk(o) && OptionOk(u) && DistinctRenames(renames) && IdsSubbed(o, SubOf(renames), u)
    requires r in renames && r.from in o.ids && o.ids[r.from] == Some(r.valueId)
    ensures Carries(o, r.from, Some(r.valueId)) && Carries(u, r.to, Some(r.valueId))
  {
    SubOfMeans(renames);
    ListedIds(o);
    ListedIds(u);
    var j :| 0 <= j < |renames| && renames[j] == r;
    assert Sub(SubOf(renames), r.from) == r.to;
  }

  lemma RenamedDone(p: Product, op: Op, q: Product, k: nat)
    requires op.RenameValues? && NamesIds(p, op) && Guarded(op) && k < |p.options| == |q.options|
    requires forall i, j :: 0 <= i < j < |p.options| ==> p.options[i].id != p.options[j].id
    requires k == IndexOf(p.options, op.optionId) && p.variants.Keys == q.variants.Keys
    requires OptionOk(p.options[k]) && OptionOk(q.options[k]) && IdsSubbed(p.options[k], SubOf(op.renames), q.options[k])
    ensures Done(p, op, q)
  {
    forall i, r | 0 <= i < |p.options| && p.options[i].id == op.optionId && r in op.renames
      ensures Carries(p.options[i], r.from, Some(r.valueId)) && Carries(q.options[i], r.to, Some(r.valueId))
    {
      assert i == k;
      OneRenamed(p.options[k], q.options[k], op.renames, r);
    }
  }

  /** Whatever edit passes its guard, what it changes is what it names, where it finds what
      it expects, and all of it comes about. */
  lemma OnlyWhatItNames(p: Product, op: Op)
    requires WellFormed(p) && Passes(p, op) && Guarded(op)
    ensures Runs(p, op) && OnlyMeant(p, op, Simulate(p, op))
  {
    match op
    case Title(_, _, _) => TitleIsMeant(p, op);
    case RenameValues(_, _) => RenameIsMeant(p, op);
    case AddValue(_, _) => AddIsMeant(p, op);
    case MoveVariants(_, _) => MoveIsMeant(p, op);
    case DeleteValue(_, _, _) => DeleteIsMeant(p, op);
    case ReorderValues(_) => ReorderIsMeant(p, op);
    case RestorePositions(_) => RestoreIsMeant(p, op);
  }
}
