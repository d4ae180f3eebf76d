/** The rollback planner inverts every prefix of a forward run. What a run has done so
    far is summed up by a drift from the start state; every drift is recoverable. */
module RollbackInverts {
  import opened Lists
  import opened Catalogue
  import opened Edits
  import opened KeepsForm
  import opened Compare
  import opened Congruence
  import opened Executor
  import opened RollbackPlan
  import opened RollbackReaches
  import opened RollbackRestores

  // ---- Forward jobs ------------------------------------------------------------------------

  predicate TouchesMoved(op: Op, option: Id) {
    (op.AddValue? || op.MoveVariants?) && op.optionId == option
  }

  ghost predicate OneTarget(moves: seq<Move>) {
    forall m, k :: m in moves && k in moves ==> m.to == k.to
  }

  /** At most one title, rename, add and move edit, in any order. */
  ghost predicate OnceEach(ops: seq<Op>) {
    forall i, j :: 0 <= i < j < |ops| ==>
      && !(ops[i].Title? && ops[j].Title?)
      && !(ops[i].RenameValues? && ops[j].RenameValues?)
      && !(ops[i].AddValue? && ops[j].AddValue?)
      && !(ops[i].MoveVariants? && ops[j].MoveVariants?)
  }

  /** A job as the planners build it: nothing is deleted, at most one edit of each
      kind, moves with one target, and no option both renamed and moved. */
  ghost predicate ForwardJob(ops: seq<Op>) {
    && SoundJob(ops) && OnceEach(ops)
    && (forall i :: 0 <= i < |ops| ==> !ops[i].DeleteValue? && (ops[i].MoveVariants? ==> OneTarget(ops[i].moves)))
    && (forall i, j :: 0 <= i < |ops| && 0 <= j < |ops| && ops[i].RenameValues? ==>
          !TouchesMoved(ops[j], ops[i].optionId))
    && (forall i, j :: 0 <= i < |ops| && 0 <= j < |ops| && ops[i].AddValue? && ops[j].MoveVariants? ==>
          ops[i].optionId == ops[j].optionId)
  }

  /** A reorder leaves out no value of an option it lists. */
  ghost predicate KeepsValues(p: Product, op: Op) {
    op.ReorderValues? ==> forall w :: w in op.orders && HasOption(p, w.id) ==>
      forall v :: v in p.options[IndexOf(p.options, w.id)].values ==> v in w.values
  }

  /** The edits can be simulated, as they were to give the promise in the plan, and no
      reorder among them leaves out a value. Nothing is said of guards. */
  ghost predicate Promised(start: Product, ops: seq<Op>) {
    && RunsAll(start, ops)
    && forall k :: 0 <= k < |ops| ==> RunsAll(start, ops[..k]) && KeepsValues(Expected(start, ops[..k]), ops[k])
  }

  // ---- Drift ----------------------------------------------------------------------------------

  /** What the edits so far changed: the title, the renames, the value added, the moves. */
  datatype Drift = Drift(title: string, renames: seq<Rename>, added: Maybe<Name>, moves: seq<Move>)

  function Drifted(dr: Drift, op: Op): Drift {
    match op
    case Title(_, to, _) => dr.(title := to)
    case RenameValues(_, renames) => dr.(renames := renames)
    case AddValue(_, name) => dr.(added := Some(name))
    case MoveVariants(_, moves) => dr.(moves := moves)
    case _ => dr
  }

  function DriftOf(title: string, ops: seq<Op>): Drift {
    if ops == [] then Drift(title, [], None, [])
    else Drifted(DriftOf(title, ops[..|ops| - 1]), ops[|ops| - 1])
  }

  lemma {:induction false} DriftUntouched(title: string, ops: seq<Op>)
    ensures (forall i :: 0 <= i < |ops| ==> !ops[i].Title?) ==> DriftOf(title, ops).title == title
    ensures (forall i :: 0 <= i < |ops| ==> !ops[i].RenameValues?) ==> DriftOf(title, ops).renames == []
    ensures (forall i :: 0 <= i < |ops| ==> !ops[i].AddValue?) ==> DriftOf(title, ops).added == None
    ensures (forall i :: 0 <= i < |ops| ==> !ops[i].MoveVariants?) ==> DriftOf(title, ops).moves == []
  {
    if ops != [] {
      DriftUntouched(title, ops[..|ops| - 1]);
    }
  }

  /** An edit changes a part of the drift that no earlier edit changed. */
  lemma DriftFresh(title: string, ops: seq<Op>, k: nat, j: nat)
    requires OnceEach(ops) && k <= j < |ops|
    ensures ops[j].Title? ==> DriftOf(title, ops[..k]).title == title
    ensures ops[j].RenameValues? ==> DriftOf(title, ops[..k]).renames == []
    ensures ops[j].AddValue? ==> DriftOf(title, ops[..k]).added == None
    ensures ops[j].MoveVariants? ==> DriftOf(title, ops[..k]).moves == []
  {
    DriftUntouched(title, ops[..k]);
    forall i | 0 <= i < k
      ensures !(ops[..k][i].Title? && ops[j].Title?) && !(ops[..k][i].RenameValues? && ops[j].RenameValues?)
        && !(ops[..k][i].AddValue? && ops[j].AddValue?) && !(ops[..k][i].MoveVariants? && ops[j].MoveVariants?)
    {
      assert ops[..k][i] == ops[i];
    }
  }

  // ---- A product that drifted ----------------------------------------------------------------------

  ghost predicate RenamedSince(so: ProductOption, ao: ProductOption, renames: seq<Rename>) {
    IdsSubbed(so, SubOf(renames), ao) && Renamable(so, renames)
  }

  ghost predicate AddedSince(so: ProductOption, ao: ProductOption, added: Maybe<Name>) {
    match added
    case None => ao.ids == so.ids
    case Some(x) => x !in so.ids && ao.ids == so.ids[x := None]
  }

  ghost predicate OptionSince(so: ProductOption, ao: ProductOption, i: int, r: int, d: int, dr: Drift) {
    && ao.id == so.id && ao.name == so.name
    && (i == r ==> RenamedSince(so, ao, dr.renames))
    && (i == d ==> AddedSince(so, ao, dr.added))
    && (i != r && i != d ==> ao.ids == so.ids)
  }

  ghost predicate MovedSince(id: Id, sv: Name, av: Name, moves: seq<Move>) {
    && (forall m :: m in moves && m.variantId == id ==> sv == m.from && av == m.to && m.from != m.to)
    && ((forall m :: m in moves ==> m.variantId != id) ==> av == sv)
  }

  ghost predicate ValueSince(id: Id, sv: Name, av: Name, i: int, r: int, d: int, dr: Drift) {
    && (i == r ==> av == Sub(SubOf(dr.renames), sv))
    && (i == d ==> MovedSince(id, sv, av, dr.moves))
    && (i != r && i != d ==> av == sv)
  }

  ghost predicate ChoiceSince(s: Product, id: Id, sc: map<Name, Name>, ac: map<Name, Name>, r: int, d: int, dr: Drift) {
    forall i :: 0 <= i < |s.options| ==>
      && s.options[i].name in sc && s.options[i].name in ac
      && ValueSince(id, sc[s.options[i].name], ac[s.options[i].name], i, r, d, dr)
  }

  ghost predicate Since(s: Product, a: Product, r: int, d: int, dr: Drift) {
    && a.title == dr.title && a.handle == s.handle
    && |a.options| == |s.options| && a.variants.Keys == s.variants.Keys
    && (forall i :: 0 <= i < |s.options| ==> OptionSince(s.options[i], a.options[i], i, r, d, dr))
    && (forall id :: id in s.variants ==>
          ChoiceSince(s, id, s.variants[id].choice, a.variants[id].choice, r, d, dr))
    && OneTarget(dr.moves)
  }

  lemma SinceStart(s: Product, r: int, d: int)
    requires WellFormed(s)
    ensures Since(s, s, r, d, Drift(s.title, [], None, []))
  {
    forall i | 0 <= i < |s.options|
      ensures OptionSince(s.options[i], s.options[i], i, r, d, Drift(s.title, [], None, []))
    {
      assert OptionOk(s.options[i]);
      assert forall n :: Sub(map[], n) == n;
    }
    forall id | id in s.variants
      ensures ChoiceSince(s, id, s.variants[id].choice, s.variants[id].choice, r, d, Drift(s.title, [], None, []))
    {
      assert ChoiceOk(s.options, s.variants[id].choice);
    }
  }

  lemma SinceAlike(s: Product, a: Product, b: Product, r: int, d: int, dr: Drift)
    requires Since(s, a, r, d, dr) && Alike(a, b) && Alike(b, a)
    ensures Since(s, b, r, d, dr)
  {
    forall i | 0 <= i < |s.options| ensures OptionSince(s.options[i], b.options[i], i, r, d, dr) {
      assert OptionSince(s.options[i], a.options[i], i, r, d, dr);
      assert OptionAlike(a.options[i], b.options[i]) && OptionAlike(b.options[i], a.options[i]);
      SameIdsBothWays(a.options[i], b.options[i]);
    }
    forall id | id in s.variants
      ensures ChoiceSince(s, id, s.variants[id].choice, b.variants[id].choice, r, d, dr)
    {
      assert VariantAlike(a.variants[id], b.variants[id]);
      assert ChoiceSince(s, id, s.variants[id].choice, a.variants[id].choice, r, d, dr);
    }
  }

  lemma SameIdsBothWays(a: ProductOption, b: ProductOption)
    requires OptionAlike(a, b) && OptionAlike(b, a)
    ensures a.ids == b.ids
  {
    forall n | n in a.ids ensures n in b.ids && b.ids[n] == a.ids[n] {
      assert n in b.ids.Keys;
    }
  }

  // ---- One edit more ---------------------------------------------------------------------------------

  /** The edit touches the option the job lets it touch, and its part of the drift is fresh. */
  ghost predicate Allowed(s: Product, op: Op, r: int, d: int, dr: Drift) {
    match op
    case RenameValues(id, _) => HasOption(s, id) && IndexOf(s.options, id) == r && dr.renames == []
    case AddValue(id, _) => HasOption(s, id) && IndexOf(s.options, id) == d && dr.added == None
    case MoveVariants(id, moves) => HasOption(s, id) && IndexOf(s.options, id) == d && dr.moves == [] && OneTarget(moves)
    case DeleteValue(_, _, _) => false
    case _ => true
  }

  lemma SameOptionIdsIndex(s: Product, a: Product, id: Id)
    requires SameOptionIds(s, a)
    ensures HasOption(s, id) == HasOption(a, id)
    ensures HasOption(s, id) ==> IndexOf(s.options, id) == IndexOf(a.options, id)
  {
    SameIndex(s.options, a.options, id);
  }

  lemma RenameDriftsOption(so: ProductOption, ao: ProductOption, renames: seq<Rename>, qo: ProductOption)
    requires OptionOk(so) && OptionOk(ao) && RenamedSince(so, ao, [])
    requires Renamable(ao, renames) && IdsSubbed(ao, SubOf(renames), qo)
    ensures RenamedSince(so, qo, renames)
  {
    SubNothing(so, ao);
    RenamableToo(so, ao, renames);
    SubbedToo(so, ao, SubOf(renames), qo);
  }

  lemma SubbedToo(so: ProductOption, ao: ProductOption, sub: map<Name, Name>, qo: ProductOption)
    requires ao.ids == so.ids && IdsSubbed(ao, sub, qo)
    ensures IdsSubbed(so, sub, qo)
  {
  }

  lemma RenameDrifts(s: Product, a: Product, r: nat, d: int, dr: Drift, renames: seq<Rename>, q: Product)
    requires WellFormed(s) && WellFormed(a) && Since(s, a, r, d, dr) && r < |s.options| && r != d
    requires dr.renames == [] && Renamable(a.options[r], renames)
    requires OnlyOption(a, r, q) && Substituted(a, r, SubOf(renames), q)
    ensures Since(s, q, r, d, dr.(renames := renames))
  {
    var after := dr.(renames := renames);
    assert OptionSince(s.options[r], a.options[r], r, r, d, dr);
    RenameDriftsOption(s.options[r], a.options[r], renames, q.options[r]);
    forall i | 0 <= i < |s.options| ensures OptionSince(s.options[i], q.options[i], i, r, d, after) {
      assert OptionSince(s.options[i], a.options[i], i, r, d, dr);
    }
    forall id | id in s.variants
      ensures ChoiceSince(s, id, s.variants[id].choice, q.variants[id].choice, r, d, after)
    {
      assert ChoiceSince(s, id, s.variants[id].choice, a.variants[id].choice, r, d, dr);
      RenamedVariantSince(s, a, r, d, dr, renames, q, id);
    }
  }

  lemma RenamedVariantSince(s: Product, a: Product, r: nat, d: int, dr: Drift, renames: seq<Rename>, q: Product, id: Id)
    requires OptionsOk(s.options) && VariantsOk(a.options, a.variants) && r < |s.options| && r != d && dr.renames == []
    requires id in s.variants && id in a.variants
    requires ChoiceSince(s, id, s.variants[id].choice, a.variants[id].choice, r, d, dr)
    requires OnlyOption(a, r, q) && ChoicesSubbed(a, a.options[r], SubOf(renames), q)
    requires a.options[r].name == s.options[r].name
    ensures ChoiceSince(s, id, s.variants[id].choice, q.variants[id].choice, r, d, dr.(renames := renames))
  {
    assert ChoiceOk(a.options, a.variants[id].choice);
    assert SameBut(a.variants[id], q.variants[id], a.options[r].name);
    assert ChoiceSubbed(a.variants[id], a.options[r], SubOf(renames), q.variants[id]);
  }

  lemma SubNothing(so: ProductOption, ao: ProductOption)
    requires IdsSubbed(so, SubOf([]), ao)
    ensures ao.ids == so.ids
  {
    assert forall n :: Sub(map[], n) == n;
    MapsEqual(so.ids, ao.ids);
  }

  lemma RenamableToo(so: ProductOption, ao: ProductOption, renames: seq<Rename>)
    requires OptionOk(so) && OptionOk(ao) && ao.ids == so.ids && Renamable(ao, renames)
    ensures Renamable(so, renames)
  {
    forall v ensures v in so.values <==> v in ao.values {
      assert v in Elems(so.values) <==> v in Elems(ao.values);
    }
  }

  lemma AddDrifts(s: Product, a: Product, r: int, d: nat, dr: Drift, name: Name, q: Product)
    requires WellFormed(a) && Since(s, a, r, d, dr) && d < |s.options| && r != d && dr.added == None
    requires forall v :: v in a.options[d].values ==> norm(v) != norm(name)
    requires q == a.(options := q.options) && |q.options| == |a.options|
    requires forall i :: 0 <= i < |q.options| && i != d ==> q.options[i] == a.options[i]
    requires q.options[d] == a.options[d].(values := a.options[d].values + [name], ids := a.options[d].ids[name := None])
    ensures Since(s, q, r, d, dr.(added := Some(name)))
  {
    var after := dr.(added := Some(name));
    assert OptionOk(a.options[d]);
    assert name !in Elems(a.options[d].values);
    forall i | 0 <= i < |s.options| ensures OptionSince(s.options[i], q.options[i], i, r, d, after) {
      assert OptionSince(s.options[i], a.options[i], i, r, d, dr);
    }
    forall id | id in s.variants
      ensures ChoiceSince(s, id, s.variants[id].choice, q.variants[id].choice, r, d, after)
    {
      assert ChoiceSince(s, id, s.variants[id].choice, a.variants[id].choice, r, d, dr);
    }
  }

  lemma MoveDrifts(s: Product, a: Product, r: int, d: nat, dr: Drift, moves: seq<Move>, q: Product)
    requires WellFormed(s) && Since(s, a, r, d, dr) && d < |s.options| && r != d && dr.moves == [] && OneTarget(moves)
    requires forall m :: m in moves ==> MoveFits(a, a.options[d], m)
    requires q == a.(variants := q.variants) && Moved(a.variants, a.options[d].name, moves, q.variants)
    ensures Since(s, q, r, d, dr.(moves := moves))
  {
    var after := dr.(moves := moves);
    forall i | 0 <= i < |s.options| ensures OptionSince(s.options[i], q.options[i], i, r, d, after) {
      assert OptionSince(s.options[i], a.options[i], i, r, d, dr);
    }
    assert OptionSince(s.options[d], a.options[d], d, r, d, dr);
    forall id | id in s.variants
      ensures ChoiceSince(s, id, s.variants[id].choice, q.variants[id].choice, r, d, after)
    {
      assert ChoiceSince(s, id, s.variants[id].choice, a.variants[id].choice, r, d, dr);
      forall m | m in moves && m.variantId == id ensures MoveLands(a.variants[id], q.variants[id], s.options[d].name, m) {
        assert MoveFits(a, a.options[d], m) && MovedTo(a.variants, a.options[d].name, m, q.variants);
        assert a.variants[id].choice[s.options[d].name := m.from] == a.variants[id].choice;
      }
      MovedChoiceSince(s, id, s.variants[id].choice, a.variants[id], q.variants[id], r, d, dr, moves);
    }
  }

  ghost predicate MoveLands(av: Variant, qv: Variant, name: Name, m: Move) {
    && name in av.choice && av.choice[name] == m.from && m.from != m.to
    && qv.choice == av.choice[name := m.to]
  }

  lemma MovedChoiceSince(s: Product, id: Id, sc: map<Name, Name>, av: Variant, qv: Variant, r: int, d: nat,
                         dr: Drift, moves: seq<Move>)
    requires d < |s.options| && r != d && dr.moves == []
    requires forall i, j :: 0 <= i < j < |s.options| ==> s.options[i].name != s.options[j].name
    requires ChoiceSince(s, id, sc, av.choice, r, d, dr)
    requires forall m :: m in moves && m.variantId == id ==> MoveLands(av, qv, s.options[d].name, m)
    requires (forall m :: m in moves ==> m.variantId != id) ==> qv.choice == av.choice
    ensures ChoiceSince(s, id, sc, qv.choice, r, d, dr.(moves := moves))
  {
    if m :| m in moves && m.variantId == id {
      assert MoveLands(av, qv, s.options[d].name, m);
    }
  }

  /** The same ids and choices keep the same drift. */
  lemma SameDrift(s: Product, a: Product, r: int, d: int, dr: Drift, q: Product)
    requires Since(s, a, r, d, dr) && q.title == a.title && q.handle == a.handle
    requires |q.options| == |a.options| && q.variants.Keys == a.variants.Keys
    requires forall i :: 0 <= i < |q.options| ==> q.options[i] == a.options[i].(values := q.options[i].values)
    requires forall id :: id in a.variants ==> q.variants[id].choice == a.variants[id].choice
    ensures Since(s, q, r, d, dr)
  {
    forall i | 0 <= i < |s.options| ensures OptionSince(s.options[i], q.options[i], i, r, d, dr) {
      assert OptionSince(s.options[i], a.options[i], i, r, d, dr);
    }
    forall id | id in s.variants
      ensures ChoiceSince(s, id, s.variants[id].choice, q.variants[id].choice, r, d, dr)
    {
      assert ChoiceSince(s, id, s.variants[id].choice, a.variants[id].choice, r, d, dr);
    }
  }

  lemma TitleDrifts(s: Product, a: Product, r: int, d: int, dr: Drift, title: string)
    requires Since(s, a, r, d, dr)
    ensures Since(s, a.(title := title), r, d, dr.(title := title))
  {
    forall i | 0 <= i < |s.options| ensures OptionSince(s.options[i], a.options[i], i, r, d, dr.(title := title)) {
      assert OptionSince(s.options[i], a.options[i], i, r, d, dr);
    }
    forall id | id in s.variants
      ensures ChoiceSince(s, id, s.variants[id].choice, a.variants[id].choice, r, d, dr.(title := title))
    {
      assert ChoiceSince(s, id, s.variants[id].choice, a.variants[id].choice, r, d, dr);
    }
  }

  lemma WriteDrifts(s: Product, a: Product, op: Op, r: int, d: int, dr: Drift)
    requires WellFormed(s) && WellFormed(a) && Since(s, a, r, d, dr) && r != d
    requires Fits(a, op) && Guarded(op) && Allowed(s, op, r, d, dr)
    ensures Runs(a, op) && Since(s, Write(a, op), r, d, Drifted(dr, op))
  {
    WriteKeepsForm(a, op);
    match op
    case Title(_, to, _) => TitleDrifts(s, a, r, d, dr, to);
    case RenameValues(id, renames) =>
      SameOptionIdsIndex(s, a, id);
      assert OptionOk(a.options[r]);
      RenamesActTogether(a, r, renames);
      RenameAllShape(a, r, renames);
      RenameDrifts(s, a, r, d, dr, renames, Write(a, op));
    case AddValue(id, name) =>
      SameOptionIdsIndex(s, a, id);
      AddDrifts(s, a, r, d, dr, name, Write(a, op));
    case MoveVariants(id, moves) =>
      SameOptionIdsIndex(s, a, id);
      MoveAllActs(a.variants, a.options[d].name, moves);
      MoveDrifts(s, a, r, d, dr, moves, Write(a, op));
    case ReorderValues(orders) => SameDrift(s, a, r, d, dr, Write(a, op));
    case RestorePositions(order) =>
      PlaceAllShape(a.variants, order);
      SameDrift(s, a, r, d, dr, Write(a, op));
  }

  lemma StepDrifts(s: Product, a: Product, op: Op, r: int, d: int, dr: Drift)
    requires WellFormed(s) && WellFormed(a) && Since(s, a, r, d, dr) && r != d
    requires Fits(a, op) && Guarded(op) && Allowed(s, op, r, d, dr)
    ensures Runs(a, op) && WellFormed(Simulate(a, op)) && Since(s, Simulate(a, op), r, d, Drifted(dr, op))
  {
    WriteDrifts(s, a, op, r, d, dr);
    EditKeepsForm(a, op);
    SimulateAlikeWrite(a, op);
    SinceAlike(s, Write(a, op), Simulate(a, op), r, d, Drifted(dr, op));
  }

  /** The options a job renames and moves. */
  ghost predicate Indexed(s: Product, ops: seq<Op>, r: int, d: int) {
    r != d && forall i :: 0 <= i < |ops| ==>
      && (ops[i].RenameValues? ==> HasOption(s, ops[i].optionId) && IndexOf(s.options, ops[i].optionId) == r)
      && (ops[i].AddValue? || ops[i].MoveVariants? ==> HasOption(s, ops[i].optionId) && IndexOf(s.options, ops[i].optionId) == d)
  }

  /** A reorder that is skipped or written changes no id and no choice. */
  lemma ReorderDrifts(s: Product, a: Product, op: Op, r: int, d: int, dr: Drift)
    requires Since(s, a, r, d, dr) && op.ReorderValues? && Runs(a, op)
    ensures Since(s, Simulate(a, op), r, d, dr)
  {
    WriteShape(a, op);
    SameDrift(s, a, r, d, dr, Simulate(a, op));
  }

  lemma AllowedNext(s: Product, ops: seq<Op>, r: int, d: int, k: nat, j: nat)
    requires ForwardJob(ops) && Indexed(s, ops, r, d) && k <= j < |ops|
    ensures Allowed(s, ops[j], r, d, DriftOf(s.title, ops[..k]))
    ensures ops[j].Title? ==> DriftOf(s.title, ops[..k]).title == s.title
  {
    DriftFresh(s.title, ops, k, j);
  }

  lemma StoreStepDrifts(s: Product, a: Product, p: Product, op: Op, follows: bool, next: Product, r: int, d: int, dr: Drift)
    requires WellFormed(s) && WellFormed(a) && Since(s, a, r, d, dr) && r != d
    requires Alike(a, p) && AllKnown(p) && StoreStep(p, op, follows, next)
    requires Guarded(op) && Allowed(s, op, r, d, dr)
    ensures Runs(a, op) && Since(s, Simulate(a, op), r, d, Drifted(dr, op))
  {
    StepKeepsAlike(a, p, op, follows, next);
    if Fits(a, op) {
      StepDrifts(s, a, op, r, d, dr);
    } else {
      ReorderDrifts(s, a, op, r, d, dr);
    }
  }

  lemma RunStep(s: Product, ops: seq<Op>, trace: seq<Product>, k: nat)
    requires WellFormed(s) && AllKnown(s) && ForwardJob(ops) && IsRun(s, ops, trace) && k + 1 < |trace|
    ensures StoreStep(trace[k], ops[k], RestoreFollows(ops, k), trace[k + 1]) && Guarded(ops[k])
    ensures RunsAll(s, ops[..k]) && WellFormed(Expected(s, ops[..k])) && Alike(Expected(s, ops[..k]), trace[k])
    ensures AllKnown(trace[k])
  {
    EveryPrefixIsAlike(s, ops, trace, k);
  }

  lemma RunRuns(s: Product, ops: seq<Op>, trace: seq<Product>, k: nat)
    requires WellFormed(s) && AllKnown(s) && ForwardJob(ops) && IsRun(s, ops, trace) && k < |trace|
    ensures RunsAll(s, ops[..k])
  {
    EveryPrefixIsAlike(s, ops, trace, k);
  }

  /** One step more of a promise. */
  lemma PromiseStep(s: Product, ops: seq<Op>, k: nat)
    requires k < |ops| && RunsAll(s, ops[..k]) && RunsAll(s, ops[..k + 1])
    ensures Runs(Expected(s, ops[..k]), ops[k])
    ensures Expected(s, ops[..k + 1]) == Simulate(Expected(s, ops[..k]), ops[k])
  {
    ExpectedStep(s, ops, k);
  }

  lemma DriftNext(title: string, ops: seq<Op>, k: nat)
    requires k < |ops|
    ensures DriftOf(title, ops[..k + 1]) == Drifted(DriftOf(title, ops[..k]), ops[k])
  {
    assert ops[..k + 1][..k] == ops[..k];
  }

  /** What the steps of a run did, guards and all, has drifted as its edits say. */
  lemma {:induction false} PrefixDrifts(s: Product, ops: seq<Op>, trace: seq<Product>, r: int, d: int, k: nat)
    requires WellFormed(s) && AllKnown(s) && ForwardJob(ops) && Indexed(s, ops, r, d)
    requires IsRun(s, ops, trace) && k < |trace|
    ensures RunsAll(s, ops[..k])
    ensures Since(s, Expected(s, ops[..k]), r, d, DriftOf(s.title, ops[..k]))
  {
    if k == 0 {
      SinceStart(s, r, d);
      assert ops[..0] == [];
    } else {
      var i := k - 1;
      PrefixDrifts(s, ops, trace, r, d, i);
      AllowedNext(s, ops, r, d, i, i);
      RunStep(s, ops, trace, i);
      RunRuns(s, ops, trace, k);
      PromiseStep(s, ops, i);
      DriftNext(s.title, ops, i);
      StoreStepDrifts(s, Expected(s, ops[..i]), trace[i], ops[i], RestoreFollows(ops, i), trace[i + 1],
                      r, d, DriftOf(s.title, ops[..i]));
    }
  }

  // ---- What the rest of the job still promises ---------------------------------------------------

  /** The names the drift gave are the ones the promised option has, each for its id. */
  ghost predicate RenamedTo(so: ProductOption, qo: ProductOption, renames: seq<Rename>) {
    && (forall n :: n in so.ids && so.ids[n].Some? ==>
          Sub(SubOf(renames), n) in qo.values && Sub(SubOf(renames), n) in qo.ids
          && qo.ids[Sub(SubOf(renames), n)] == so.ids[n])
    && (forall a, b :: a in qo.ids && b in qo.ids && a != b && qo.ids[a].Some? ==> qo.ids[a] != qo.ids[b])
  }

  ghost predicate PlacedTo(s: Product, q: Product, d: int, dr: Drift) {
    0 <= d < |s.options| ==> forall m :: m in dr.moves && m.variantId in s.variants && m.variantId in q.variants ==>
      s.options[d].name in q.variants[m.variantId].choice && q.variants[m.variantId].choice[s.options[d].name] == m.to
  }

  /** `q` promises what the drift did: its title, names, value and places. */
  ghost predicate Promises(s: Product, q: Product, r: int, d: int, dr: Drift) {
    && |q.options| == |s.options| && q.variants.Keys == s.variants.Keys
    && (forall i :: 0 <= i < |s.options| ==> q.options[i].id == s.options[i].id && q.options[i].name == s.options[i].name)
    && (dr.title == s.title || q.title == dr.title)
    && (0 <= r < |s.options| && dr.renames != [] ==> RenamedTo(s.options[r], q.options[r], dr.renames))
    && (0 <= d < |s.options| && dr.added.Some? ==> dr.added.value in q.options[d].values)
    && PlacedTo(s, q, d, dr)
  }

  lemma PromisesSoFar(s: Product, a: Product, r: int, d: int, dr: Drift)
    requires WellFormed(a) && Since(s, a, r, d, dr) && r != d
    ensures Promises(s, a, r, d, dr)
  {
    forall i | 0 <= i < |s.options|
      ensures a.options[i].id == s.options[i].id && a.options[i].name == s.options[i].name
      ensures i == r ==> RenamedTo(s.options[r], a.options[r], dr.renames)
      ensures i == d && dr.added.Some? ==> dr.added.value in a.options[d].values
    {
      assert OptionSince(s.options[i], a.options[i], i, r, d, dr) && OptionOk(a.options[i]);
      assert forall n :: n in a.options[i].ids <==> n in Elems(a.options[i].values);
      if i == d && dr.added.Some? {
        assert dr.added.value in a.options[i].ids;
        assert dr.added.value in Elems(a.options[i].values);
      }
    }
    if 0 <= d < |s.options| {
      forall m | m in dr.moves && m.variantId in s.variants
        ensures s.options[d].name in a.variants[m.variantId].choice && a.variants[m.variantId].choice[s.options[d].name] == m.to
      {
        assert ChoiceSince(s, m.variantId, s.variants[m.variantId].choice, a.variants[m.variantId].choice, r, d, dr);
      }
    }
  }

  /** Same ids and choices, no value gone. */
  ghost predicate KeepsPromises(q: Product, w: Product) {
    && |w.options| == |q.options| && w.variants.Keys == q.variants.Keys && w.title == q.title
    && (forall i :: 0 <= i < |q.options| ==> KeepsOption(q.options[i], w.options[i]))
    && (forall id :: id in q.variants ==> w.variants[id].choice == q.variants[id].choice)
  }

  ghost predicate KeepsOption(qo: ProductOption, wo: ProductOption) {
    wo.id == qo.id && wo.name == qo.name && wo.ids == qo.ids && forall v :: v in qo.values ==> v in wo.values
  }

  lemma PromisesKept(s: Product, q: Product, w: Product, r: int, d: int, dr: Drift)
    requires Promises(s, q, r, d, dr) && KeepsPromises(q, w)
    ensures Promises(s, w, r, d, dr)
  {
    forall i | 0 <= i < |s.options| ensures w.options[i].id == s.options[i].id && w.options[i].name == s.options[i].name {
      assert KeepsOption(q.options[i], w.options[i]);
    }
    if 0 <= r < |s.options| && dr.renames != [] {
      assert KeepsOption(q.options[r], w.options[r]);
    }
    if 0 <= d < |s.options| {
      assert KeepsOption(q.options[d], w.options[d]);
    }
  }

  lemma ReorderKeepsPromises(q: Product, orders: seq<ValueOrder>)
    requires Runs(q, ReorderValues(orders)) && KeepsValues(q, ReorderValues(orders))
    ensures KeepsPromises(q, Write(q, ReorderValues(orders)))
  {
    ReorderKeepsOptions(q.options, orders);
  }

  lemma {:induction false} ReorderKeepsOptions(options: seq<ProductOption>, orders: seq<ValueOrder>)
    requires forall w :: w in orders ==> HasId(options, w.id)
    requires forall w :: w in orders ==> forall v :: v in options[IndexOf(options, w.id)].values ==> v in w.values
    ensures forall i :: 0 <= i < |options| ==> KeepsOption(options[i], ReorderAll(options, orders)[i])
  {
    if orders != [] {
      var front, last := orders[..|orders| - 1], orders[|orders| - 1];
      ReorderKeepsOptions(options, front);
      assert last in orders;
      SameIndex(options, ReorderAll(options, front), last.id);
    }
  }

  /** The re-flow after a move, and the titles after any edit, keep every promise. */
  lemma FollowKeepsPromises(p: Product, op: Op)
    requires Runs(p, op)
    ensures KeepsPromises(Write(p, op), Simulate(p, op))
  {
    WriteShape(p, op);
    var w, q := Write(p, op), Simulate(p, op);
    forall i | 0 <= i < |w.options| ensures KeepsOption(w.options[i], q.options[i]) {
    }
  }

  lemma WriteKeepsPromises(s: Product, q: Product, op: Op, r: int, d: int, dr: Drift)
    requires OptionsOk(s.options) && Promises(s, q, r, d, dr) && r != d
    requires Runs(q, op) && KeepsValues(q, op) && Allowed(s, op, r, d, dr) && (op.Title? ==> dr.title == s.title)
    ensures Promises(s, Write(q, op), r, d, dr)
  {
    match op
    case Title(_, _, _) =>
    case RenameValues(id, renames) =>
      SameOptionIdsIndex(s, q, id);
      RenameAllShape(q, r, renames);
      OnlyOptionKeepsPromises(s, q, Write(q, op), r, d, dr);
    case AddValue(id, _) => SameOptionIdsIndex(s, q, id);
    case MoveVariants(id, moves) =>
      SameOptionIdsIndex(s, q, id);
      assert Write(q, op).options == q.options;
    case ReorderValues(orders) =>
      ReorderKeepsPromises(q, orders);
      PromisesKept(s, q, Write(q, op), r, d, dr);
    case RestorePositions(order) =>
      PlaceAllShape(q.variants, order);
      PromisesKept(s, q, Write(q, op), r, d, dr);
  }

  lemma SimulateKeepsPromises(s: Product, q: Product, op: Op, r: int, d: int, dr: Drift)
    requires OptionsOk(s.options) && Promises(s, q, r, d, dr) && r != d
    requires Runs(q, op) && KeepsValues(q, op) && Allowed(s, op, r, d, dr) && (op.Title? ==> dr.title == s.title)
    ensures Promises(s, Simulate(q, op), r, d, dr)
  {
    WriteKeepsPromises(s, q, op, r, d, dr);
    FollowKeepsPromises(q, op);
    PromisesKept(s, Write(q, op), Simulate(q, op), r, d, dr);
  }

  lemma OnlyOptionKeepsPromises(s: Product, q: Product, w: Product, r: nat, d: int, dr: Drift)
    requires OptionsOk(s.options) && Promises(s, q, r, d, dr) && r != d && dr.renames == [] && OnlyOption(q, r, w)
    ensures Promises(s, w, r, d, dr)
  {
    if 0 <= d < |s.options| {
      forall m | m in dr.moves && m.variantId in s.variants
        ensures s.options[d].name in w.variants[m.variantId].choice && w.variants[m.variantId].choice[s.options[d].name] == m.to
      {
        assert SameBut(q.variants[m.variantId], w.variants[m.variantId], q.options[r].name);
        assert s.options[d].name != s.options[r].name;
      }
    }
  }

  /** The first `j` edits promise what the drift says. */
  ghost predicate PromisesAt(s: Product, ops: seq<Op>, r: int, d: int, dr: Drift, j: nat)
    requires j <= |ops|
  {
    RunsAll(s, ops[..j]) && Promises(s, Expected(s, ops[..j]), r, d, dr)
  }

  /** Edit `j` undoes nothing of the drift. */
  ghost predicate SparesAt(s: Product, ops: seq<Op>, r: int, d: int, dr: Drift, j: nat)
    requires j < |ops|
  {
    && RunsAll(s, ops[..j]) && RunsAll(s, ops[..j + 1]) && KeepsValues(Expected(s, ops[..j]), ops[j])
    && Allowed(s, ops[j], r, d, dr) && (ops[j].Title? ==> dr.title == s.title)
  }

  lemma PromisesNext(s: Product, ops: seq<Op>, r: int, d: int, dr: Drift, j: nat)
    requires OptionsOk(s.options) && r != d && j < |ops| && PromisesAt(s, ops, r, d, dr, j) && SparesAt(s, ops, r, d, dr, j)
    ensures PromisesAt(s, ops, r, d, dr, j + 1)
  {
    PromiseStep(s, ops, j);
    SimulateKeepsPromises(s, Expected(s, ops[..j]), ops[j], r, d, dr);
  }

  lemma LaterSpares(s: Product, ops: seq<Op>, r: int, d: int, k: nat, j: nat)
    requires ForwardJob(ops) && Promised(s, ops) && Indexed(s, ops, r, d) && k <= j < |ops|
    ensures SparesAt(s, ops, r, d, DriftOf(s.title, ops[..k]), j)
  {
    RunsAllPrefix(s, ops, j + 1);
    AllowedNext(s, ops, r, d, k, j);
  }

  /** Whatever edits follow, guarded or not, the end of the job still promises what was
      done before them. */
  lemma {:induction false} PromisesLast(s: Product, ops: seq<Op>, r: int, d: int, dr: Drift, k: nat, j: nat)
    requires OptionsOk(s.options) && r != d && k <= j <= |ops| && PromisesAt(s, ops, r, d, dr, k)
    requires forall i :: k <= i < |ops| ==> SparesAt(s, ops, r, d, dr, i)
    ensures PromisesAt(s, ops, r, d, dr, j)
    decreases j
  {
    if k < j {
      PromisesLast(s, ops, r, d, dr, k, j - 1);
      PromisesNext(s, ops, r, d, dr, j - 1);
    }
  }

  lemma EndPromises(s: Product, ops: seq<Op>, r: int, d: int, k: nat)
    requires OptionsOk(s.options) && ForwardJob(ops) && Promised(s, ops) && Indexed(s, ops, r, d) && k <= |ops|
    requires PromisesAt(s, ops, r, d, DriftOf(s.title, ops[..k]), k)
    ensures Promises(s, Expected(s, ops), r, d, DriftOf(s.title, ops[..k]))
  {
    forall i | k <= i < |ops| ensures SparesAt(s, ops, r, d, DriftOf(s.title, ops[..k]), i) {
      LaterSpares(s, ops, r, d, k, i);
    }
    PromisesLast(s, ops, r, d, DriftOf(s.title, ops[..k]), k, |ops|);
    assert ops[..|ops|] == ops;
  }

  // ---- From drift to recoverable -------------------------------------------------------------------------

  /** The live product holds what the drift says, with every id known. */
  lemma LiveSince(s: Product, a: Product, l: Product, r: int, d: int, dr: Drift)
    requires Since(s, a, r, d, dr) && Alike(a, l)
    ensures |l.options| == |s.options| && l.variants.Keys == s.variants.Keys
    ensures l.title == dr.title && l.handle == s.handle
    ensures forall i :: 0 <= i < |s.options| ==> LiveOption(s.options[i], l.options[i], i, r, d, dr)
    ensures forall id :: id in s.variants ==>
      ChoiceSince(s, id, s.variants[id].choice, l.variants[id].choice, r, d, dr)
  {
    forall i | 0 <= i < |s.options| ensures LiveOption(s.options[i], l.options[i], i, r, d, dr) {
      assert OptionSince(s.options[i], a.options[i], i, r, d, dr);
      assert OptionAlike(a.options[i], l.options[i]);
    }
    forall id | id in s.variants
      ensures ChoiceSince(s, id, s.variants[id].choice, l.variants[id].choice, r, d, dr)
    {
      assert ChoiceSince(s, id, s.variants[id].choice, a.variants[id].choice, r, d, dr);
      assert VariantAlike(a.variants[id], l.variants[id]);
    }
  }

  /** Start ids under their current names; nothing else but the value added. */
  ghost predicate LiveOption(so: ProductOption, lo: ProductOption, i: int, r: int, d: int, dr: Drift) {
    var sub := if i == r then SubOf(dr.renames) else map[];
    && lo.id == so.id && lo.name == so.name
    && (i == r ==> Renamable(so, dr.renames))
    && (forall n :: n in so.ids && so.ids[n].Some? ==> Sub(sub, n) in lo.ids && lo.ids[Sub(sub, n)] == so.ids[n])
    && (forall m :: m in lo.ids ==> (exists n :: n in so.ids && m == Sub(sub, n)) || (i == d && dr.added == Some(m)))
  }

  lemma StillNamedSince(so: ProductOption, lo: ProductOption, i: int, r: int, d: int, dr: Drift)
    requires KnownOption(so) && LiveOption(so, lo, i, r, d, dr) && i != r
    ensures StillNamed(so, lo)
  {
    assert forall n :: Sub(map[], n) == n;
  }

  lemma UnmovedSince(s: Product, l: Product, i: nat, r: int, d: int, dr: Drift)
    requires WellFormed(s) && AllKnown(s) && i < |s.options| == |l.options| && i != d && r != d
    requires l.variants.Keys == s.variants.Keys && LiveOption(s.options[i], l.options[i], i, r, d, dr)
    requires forall id :: id in s.variants ==>
      ChoiceSince(s, id, s.variants[id].choice, l.variants[id].choice, r, d, dr)
    ensures Unmoved(s.options[i], l.options[i], s.variants, l.variants)
  {
    var so, lo := s.options[i], l.options[i];
    var sub := if i == r then SubOf(dr.renames) else map[];
    assert forall n :: Sub(map[], n) == n;
    assert OptionOk(so);
    forall m | m in lo.ids ensures exists n :: n in so.ids && so.ids[n] == lo.ids[m] {
      var n :| n in so.ids && m == Sub(sub, n);
      assert so.ids[n] == lo.ids[m];
    }
    forall id | id in s.variants ensures SameValue(so, lo, s.variants[id], l.variants[id]) {
      assert ChoiceSince(s, id, s.variants[id].choice, l.variants[id].choice, r, d, dr);
      assert ChoiceOk(s.options, s.variants[id].choice);
      assert s.variants[id].choice[so.name] in Elems(so.values);
      assert l.variants[id].choice[so.name] == Sub(sub, s.variants[id].choice[so.name]);
    }
  }

  lemma ReadsApartSince(so: ProductOption, lo: ProductOption, r: int, d: int, dr: Drift)
    requires KnownOption(so) && KnownOption(lo) && LiveOption(so, lo, r, r, d, dr) && r != d
    ensures ReadsApart(so, lo)
  {
    var sub := SubOf(dr.renames);
    SubOfMeans(dr.renames);
    NormDistinctNoDup(so.values);
    forall n, m | n in so.values && m in lo.values && norm(n) == norm(m)
      ensures n in so.ids && m in lo.ids && lo.ids[m] == so.ids[n]
    {
      assert n in Elems(so.values) && m in Elems(lo.values);
      var k :| k in so.ids && m == Sub(sub, k);
      assert k in Elems(so.values);
      if k in sub {
        var j :| 0 <= j < |dr.renames| && dr.renames[j].from == k && dr.renames[j].to == sub[k];
        assert dr.renames[j] in dr.renames;
      }
      assert k == n;
    }
  }

  /** The name a value has now is its start name or the promised one. */
  lemma RenamesOursSince(so: ProductOption, po: ProductOption, lo: ProductOption, r: int, d: int, dr: Drift)
    requires KnownOption(so) && KnownOption(lo) && r != d
    requires LiveOption(so, lo, r, r, d, dr) && (dr.renames != [] ==> RenamedTo(so, po, dr.renames))
    ensures RenamesOurs(so, po, lo)
  {
    var sub := SubOf(dr.renames);
    forall n | n in so.values ensures !RenameProblem(so, po, lo, n) {
      assert n in Elems(so.values);
      NamedMeans(lo, Sub(sub, n));
      if Sub(sub, n) != n {
        assert dr.renames != [];
        NamedByPromise(po, Sub(sub, n));
      }
    }
  }

  lemma NamedByPromise(po: ProductOption, n: Name)
    requires n in po.values && n in po.ids && po.ids[n].Some?
    requires forall a, b :: a in po.ids && b in po.ids && a != b && po.ids[a].Some? ==> po.ids[a] != po.ids[b]
    ensures Named(po, po.ids[n]) == Some(n)
  {
  }

  lemma AddedOurs(so: ProductOption, po: ProductOption, lo: ProductOption, r: int, d: int, dr: Drift)
    requires LiveOption(so, lo, d, r, d, dr) && r != d
    requires dr.added.Some? ==> dr.added.value in po.values
    ensures forall m :: m in lo.ids && m !in so.ids ==> dr.added == Some(m) && m in po.values
  {
    assert forall n :: Sub(map[], n) == n;
  }

  /** A variant stands where it started, or at the one target of the moves. */
  ghost predicate StandsAt(name: Name, s: map<Name, Name>, p: map<Name, Name>, l: map<Name, Name>, to: Name) {
    && name in s && name in l
    && (l[name] == s[name] || (l[name] == to && s[name] != to && name in p && p[name] == to))
  }

  lemma DriftIsRecoverable(s: Product, a: Product, p: Product, l: Product, listing: seq<Id>, r: int, d: int,
                           dr: Drift, to: Name)
    requires WellFormed(s) && AllKnown(s) && WellFormed(l) && AllKnown(l) && r != d
    requires Since(s, a, r, d, dr) && Alike(a, l) && Promises(s, p, r, d, dr)
    requires NoDup(listing) && forall id :: id in listing <==> id in s.variants
    requires forall m :: m in dr.moves ==> m.to == to
    ensures Recoverable(s, p, l, listing, r, d, dr.added, to)
  {
    LiveSince(s, a, l, r, d, dr);
    forall i | 0 <= i < |s.options| ensures OptionRecoverable(s, p, l, i, r, d, dr.added, to) {
      KnownOptions(s, p, l, listing, i);
      if i != r {
        StillNamedSince(s.options[i], l.options[i], i, r, d, dr);
      } else {
        ReadsApartSince(s.options[i], l.options[i], r, d, dr);
        RenamesOursSince(s.options[i], p.options[i], l.options[i], r, d, dr);
      }
      if i != d {
        UnmovedSince(s, l, i, r, d, dr);
      } else {
        StandsOrMovedSince(s, p, l, i, r, dr, to);
      }
    }
  }

  lemma StandsOrMovedSince(s: Product, p: Product, l: Product, d: nat, r: int, dr: Drift, to: Name)
    requires r != d && d < |s.options| == |l.options| && l.variants.Keys == s.variants.Keys
    requires LiveOption(s.options[d], l.options[d], d, r, d, dr) && Promises(s, p, r, d, dr)
    requires forall id :: id in s.variants ==>
      ChoiceSince(s, id, s.variants[id].choice, l.variants[id].choice, r, d, dr)
    requires forall m :: m in dr.moves ==> m.to == to
    ensures StandsOrMoved(s.options[d], p.options[d], l.options[d], dr.added, to, s.variants, p.variants, l.variants)
  {
    AddedOurs(s.options[d], p.options[d], l.options[d], r, d, dr);
    forall id | id in s.variants
      ensures StandsAt(s.options[d].name, s.variants[id].choice, p.variants[id].choice, l.variants[id].choice, to)
    {
      assert ChoiceSince(s, id, s.variants[id].choice, l.variants[id].choice, r, d, dr);
    }
  }

  // ---- The theorem --------------------------------------------------------------------------------------

  lemma JobIndexes(s: Product, ops: seq<Op>) returns (r: int, d: int)
    requires WellFormed(s) && ForwardJob(ops)
    requires forall i :: 0 <= i < |ops| && (ops[i].RenameValues? || ops[i].AddValue? || ops[i].MoveVariants?) ==>
      HasOption(s, ops[i].optionId)
    ensures Indexed(s, ops, r, d)
  {
    if i :| 0 <= i < |ops| && ops[i].RenameValues? {
      r := IndexOf(s.options, ops[i].optionId);
    } else {
      r := -1;
    }
    if i :| 0 <= i < |ops| && ops[i].AddValue? {
      d := IndexOf(s.options, ops[i].optionId);
    } else if i :| 0 <= i < |ops| && ops[i].MoveVariants? {
      d := IndexOf(s.options, ops[i].optionId);
    } else {
      d := -2;
    }
  }

  lemma JobHasOptions(s: Product, ops: seq<Op>)
    requires RunsAll(s, ops)
    ensures forall i :: 0 <= i < |ops| && (ops[i].RenameValues? || ops[i].AddValue? || ops[i].MoveVariants?) ==>
      HasOption(s, ops[i].optionId)
  {
    forall i | 0 <= i < |ops| && (ops[i].RenameValues? || ops[i].AddValue? || ops[i].MoveVariants?)
      ensures HasOption(s, ops[i].optionId)
    {
      RunsAllPrefix(s, ops, i);
      RunsAllPrefix(s, ops, i + 1);
      ExpectedStep(s, ops, i);
      PromisedOptionIds(s, ops[..i]);
      SameOptionIdsIndex(s, Expected(s, ops[..i]), ops[i].optionId);
    }
  }

  /** The live product after a stopped run, its prices perhaps changed since. */
  ghost predicate Repriced(a: Product, b: Product) {
    b == a.(variants := b.variants) && b.variants.Keys == a.variants.Keys
    && forall id :: id in a.variants ==>
      b.variants[id] == a.variants[id].(price := b.variants[id].price, compareAtPrice := b.variants[id].compareAtPrice)
  }

  lemma RepricedForm(a: Product, b: Product)
    requires WellFormed(a) && AllKnown(a) && Repriced(a, b)
    ensures WellFormed(b) && AllKnown(b)
  {
    SamePlaces(a.variants, b.variants);
    forall id | id in b.variants ensures ChoiceOk(b.options, b.variants[id].choice) {
      assert ChoiceOk(a.options, a.variants[id].choice);
    }
  }

  lemma RepricedOption(s: Product, p: Product, l: Product, m: Product, i: nat, r: int, d: int, added: Maybe<Name>, to: Name)
    requires i < |s.options| == |p.options| == |l.options| && Repriced(l, m) && l.variants.Keys == s.variants.Keys
    requires OptionRecoverable(s, p, l, i, r, d, added, to)
    ensures OptionRecoverable(s, p, m, i, r, d, added, to)
  {
    if i != d {
      forall id | id in s.variants ensures SameValue(s.options[i], m.options[i], s.variants[id], m.variants[id]) {
        assert SameValue(s.options[i], l.options[i], s.variants[id], l.variants[id]);
        assert m.variants[id].choice == l.variants[id].choice;
      }
    } else {
      forall id | id in s.variants
        ensures StandsAt(s.options[i].name, s.variants[id].choice, p.variants[id].choice, m.variants[id].choice, to)
      {
        assert m.variants[id].choice == l.variants[id].choice;
      }
    }
  }

  lemma RepricedIsRecoverable(s: Product, p: Product, l: Product, m: Product, listing: seq<Id>,
                              r: int, d: int, added: Maybe<Name>, to: Name)
    requires Recoverable(s, p, l, listing, r, d, added, to) && Repriced(l, m)
    ensures Recoverable(s, p, m, listing, r, d, added, to)
  {
    RepricedForm(l, m);
    forall i | 0 <= i < |s.options| ensures OptionRecoverable(s, p, m, i, r, d, added, to) {
      assert OptionRecoverable(s, p, l, i, r, d, added, to);
      RepricedOption(s, p, l, m, i, r, d, added, to);
    }
  }

  /** Wherever a run stops, and whatever stops it, the state it leaves is recoverable. */
  lemma PrefixIsRecoverable(start: Product, ops: seq<Op>, trace: seq<Product>, k: nat, listing: seq<Id>)
    returns (r: int, d: int, added: Maybe<Name>, to: Name)
    requires WellFormed(start) && AllKnown(start) && ForwardJob(ops) && Promised(start, ops)
    requires IsRun(start, ops, trace) && k < |trace|
    requires NoDup(listing) && forall id :: id in listing <==> id in start.variants
    ensures Recoverable(start, Expected(start, ops), trace[k], listing, r, d, added, to)
  {
    JobHasOptions(start, ops);
    r, d := JobIndexes(start, ops);
    EveryPrefixIsAlike(start, ops, trace, k);
    PrefixDrifts(start, ops, trace, r, d, k);
    var dr := DriftOf(start.title, ops[..k]);
    PromisesSoFar(start, Expected(start, ops[..k]), r, d, dr);
    EndPromises(start, ops, r, d, k);
    added := dr.added;
    if dr.moves != [] {
      to := dr.moves[0].to;
      assert dr.moves[0] in dr.moves;
    } else {
      to := *;
    }
    DriftIsRecoverable(start, Expected(start, ops[..k]), Expected(start, ops), trace[k], listing, r, d, dr, to);
  }

  /** Rollback inverts every prefix. Wherever a forward run stopped, at a failed guard or
      anywhere else, whatever the store answered on the way and whatever prices changed
      since, the planner reports no problem, every planned edit passes its guard at its
      turn, and the edits lead back exactly to the start state with the live prices. */
  lemma RollbackInvertsEveryPrefix(start: Product, ops: seq<Op>, trace: seq<Product>, k: nat, live: Product, listing: seq<Id>)
    requires WellFormed(start) && AllKnown(start) && ForwardJob(ops) && Promised(start, ops)
    requires IsRun(start, ops, trace) && k < |trace| && Repriced(trace[k], live)
    requires NoDup(listing) && forall id :: id in listing <==> id in start.variants
    ensures NoProblem(start, Expected(start, ops), live, listing)
    ensures live.variants.Keys == start.variants.Keys
    ensures Goes(live, RollbackOps(start, Expected(start, ops), live, listing), WithPrices(start, live))
  {
    var r, d, added, to := PrefixIsRecoverable(start, ops, trace, k, listing);
    RepricedIsRecoverable(start, Expected(start, ops), trace[k], live, listing, r, d, added, to);
    RecoverableRollsBack(start, Expected(start, ops), live, listing, r, d, added, to);
    RollbackIsPlanned(start, Expected(start, ops), live, listing, r, d, added, to);
  }

  lemma GoesIsSound(live: Product, ops: seq<Op>, q: Product)
    requires Goes(live, ops, q) && |ops| >= 2 && ops[|ops| - 2].ReorderValues? && ops[|ops| - 1].RestorePositions?
    ensures SoundJob(ops) && EndsOrdered(live, ops)
  {
    GoesInTurn(live, ops, q);
    var k, orders := |ops| - 2, ops[|ops| - 2].orders;
    PromisedOptionIds(live, ops[..k]);
    assert Fits(Expected(live, ops[..k]), ops[k]);
    forall i | 0 <= i < |live.options| ensures OrderedIn(orders, live.options[i].id) {
      assert orders[i].id == live.options[i].id;
    }
  }

  lemma CompletedJobEnds(live: Product, ops: seq<Op>, target: Product, trace: seq<Product>)
    requires WellFormed(live) && AllKnown(live) && WellFormed(target) && AllKnown(target)
    requires Goes(live, ops, target) && IsRun(live, ops, trace) && |trace| == |ops| + 1
    requires |ops| >= 2 && ops[|ops| - 2].ReorderValues? && ops[|ops| - 1].RestorePositions?
    ensures trace[|ops|] == target
  {
    GoesIsSound(live, ops, target);
    assert RunsAll(live, ops) && Expected(live, ops) == target by { GoesInTurn(live, ops, target); }
    CompletedRunsAgree(live, ops, trace);
    KnownSameUpToMint(target, trace[|ops|]);
  }

  /** The rollback is itself a run against the store: whatever the store answers, a
      completed one ends exactly at the start state with the live prices. */
  lemma CompletedRollbackRestores(start: Product, promised: Product, live: Product, listing: seq<Id>, trace: seq<Product>)
    requires Aligned(start, promised, live, listing)
    requires var ops := RollbackOps(start, promised, live, listing);
      Goes(live, ops, WithPrices(start, live)) && IsRun(live, ops, trace) && |trace| == |ops| + 1
    ensures trace[|trace| - 1] == WithPrices(start, live)
  {
    WithPricesForm(start, live);
    CompletedJobEnds(live, RollbackOps(start, promised, live, listing), WithPrices(start, live), trace);
  }
}
