/** `plan_rollback` for one product as the script runs it: edits gathered option by
    option, deletes last, sorted by kind, then checked by simulating them. */
module RollbackPlanner {
  import opened Lists
  import opened Catalogue
  import opened KeepsForm
  import opened Compare
  import opened Executor
  import opened Simulation
  import opened Apply
  import opened RollbackPlan
  import opened RollbackOwners

  // ---- Sorting by kind ------------------------------------------------------------------------

  function Rank(op: Op): (k: nat)
    ensures k <= 6
  {
    match op
    case Title(_, _, _) => 0
    case RenameValues(_, _) => 1
    case MoveVariants(_, _) => 2
    case DeleteValue(_, _, _) => 3
    case ReorderValues(_) => 4
    case RestorePositions(_) => 5
    case AddValue(_, _) => 6
  }

  function OfRank(ops: seq<Op>, k: nat): seq<Op> {
    if ops == [] then []
    else
      var front := OfRank(ops[..|ops| - 1], k);
      if Rank(ops[|ops| - 1]) == k then front + [ops[|ops| - 1]] else front
  }

  /** The stable sort: kind after kind, each in the order it was appended. */
  function ByRank(ops: seq<Op>, n: nat): seq<Op> {
    if n == 0 then [] else ByRank(ops, n - 1) + OfRank(ops, n - 1)
  }

  lemma {:induction false} OfRankConcat(a: seq<Op>, b: seq<Op>, k: nat)
    ensures OfRank(a + b, k) == OfRank(a, k) + OfRank(b, k)
  {
    if b == [] {
      assert a + b == a;
    } else {
      assert (a + b)[..|a + b| - 1] == a + b[..|b| - 1];
      OfRankConcat(a, b[..|b| - 1], k);
    }
  }

  ghost predicate AllOfRank(ops: seq<Op>, k: nat) {
    forall op :: op in ops ==> Rank(op) == k
  }

  lemma {:induction false} OfRankAll(ops: seq<Op>, k: nat, j: nat)
    requires AllOfRank(ops, k)
    ensures OfRank(ops, j) == if j == k then ops else []
  {
    if ops != [] {
      OfRankAll(ops[..|ops| - 1], k, j);
    }
  }

  method SortByKind(ops: seq<Op>) returns (sorted: seq<Op>)
    ensures sorted == ByRank(ops, 7)
  {
    sorted := [];
    for k := 0 to 7
      invariant sorted == ByRank(ops, k)
    {
      var kind: seq<Op> := [];
      for i := 0 to |ops|
        invariant kind == OfRank(ops[..i], k)
      {
        assert ops[..i + 1][..i] == ops[..i];
        if Rank(ops[i]) == k { kind := kind + [ops[i]]; }
      }
      assert ops[..|ops|] == ops;
      sorted := sorted + kind;
    }
  }

  // ---- One option ---------------------------------------------------------------------------------

  datatype Finding =
    | Gone(name: Name) | NamedElsehow(name: Name) | NotCreatedHere(name: Name) | MovedElsewhere(variant: Id)
    | HandleChanged | TitleChanged | OptionsChanged | VariantsChanged | Unreachable(Difference) | Failed

  method GatherRenames(so: ProductOption, po: ProductOption, lo: ProductOption)
    returns (renames: seq<Rename>, out: seq<Finding>)
    requires forall n :: n in so.values ==> n in so.ids && so.ids[n].Some?
    ensures out == [] <==> RenamesOurs(so, po, lo)
    ensures out == [] ==> renames == RenamesBack(so, lo, so.values)
  {
    renames, out := [], [];
    for k := 0 to |so.values|
      invariant out == [] <==> forall n :: n in so.values[..k] ==> !RenameProblem(so, po, lo, n)
      invariant out == [] ==> renames == RenamesBack(so, lo, so.values[..k])
    {
      var name := so.values[k];
      assert so.values[..k + 1] == so.values[..k] + [name];
      assert name in so.values[..k + 1] && name in so.values;
      var id := so.ids[name];
      var now := Named(lo, id);
      if now.None? {
        out := out + [Gone(name)];
      } else if now.value != name {
        if now == Named(po, id) {
          renames := renames + [Rename(id.value, now.value, name)];
        } else {
          out := out + [NamedElsehow(name)];
        }
      }
    }
    assert so.values[..|so.values|] == so.values;
  }

  method GatherDeletes(so: ProductOption, po: ProductOption, lo: ProductOption)
    returns (deletes: seq<Op>, out: seq<Finding>)
    requires forall n :: n in lo.values ==> n in lo.ids && lo.ids[n].Some?
    ensures out == [] <==> ValuesOurs(so, po, lo)
    ensures out == [] ==> deletes == DeletesBack(so, lo, lo.values)
  {
    deletes, out := [], [];
    for k := 0 to |lo.values|
      invariant out == [] <==> forall n :: n in lo.values[..k] && Extra(so, lo, n) ==> n in po.values
      invariant out == [] ==> deletes == DeletesBack(so, lo, lo.values[..k])
    {
      var name := lo.values[k];
      assert lo.values[..k + 1] == lo.values[..k] + [name];
      if Named(so, lo.ids[name]).None? {
        if name in po.values {
          deletes := deletes + [DeleteValue(so.id, lo.ids[name].value, name)];
        } else {
          out := out + [NotCreatedHere(name)];
        }
      }
    }
    assert lo.values[..|lo.values|] == lo.values;
  }

  ghost predicate MovesOurs(so: ProductOption, po: ProductOption, lo: ProductOption,
                            s: map<Id, Variant>, p: map<Id, Variant>, l: map<Id, Variant>, listing: seq<Id>)
    requires Complete(so, lo, s, l, listing) && forall id :: id in listing ==> id in p
  {
    forall id :: id in listing ==> !MoveProblem(so, po, lo, s[id], p[id], l[id])
  }

  method GatherMoves(so: ProductOption, po: ProductOption, lo: ProductOption,
                     s: map<Id, Variant>, p: map<Id, Variant>, l: map<Id, Variant>, listing: seq<Id>)
    returns (moves: seq<Move>, out: seq<Finding>)
    requires Complete(so, lo, s, l, listing) && forall id :: id in listing ==> id in p
    ensures out == [] <==> MovesOurs(so, po, lo, s, p, l, listing)
    ensures out == [] ==> moves == MovesBack(so, lo, s, l, listing)
  {
    moves, out := [], [];
    for k := 0 to |listing|
      invariant Complete(so, lo, s, l, listing[..k])
      invariant out == [] <==> MovesOurs(so, po, lo, s, p, l, listing[..k])
      invariant out == [] ==> moves == MovesBack(so, lo, s, l, listing[..k])
    {
      var id := listing[k];
      assert listing[..k + 1] == listing[..k] + [id];
      assert id in listing;
      assert Complete(so, lo, s, l, listing[..k + 1]);
      var from, to := l[id].choice[lo.name], s[id].choice[so.name];
      if !(from in lo.ids && lo.ids[from] == so.ids[to]) {
        if po.name in p[id].choice && from == p[id].choice[po.name] {
          moves := moves + [Move(id, from, to)];
        } else {
          out := out + [MovedElsewhere(id)];
        }
      }
    }
    assert listing[..|listing|] == listing;
  }

  // ---- All options ----------------------------------------------------------------------------------

  /** What the pass over the options appends, in its own order. */
  ghost function Interleaved(title: seq<Op>, renames: seq<seq<Op>>, moves: seq<seq<Op>>, n: nat): seq<Op>
    requires n <= |renames| == |moves|
  {
    if n == 0 then title else Interleaved(title, renames, moves, n - 1) + renames[n - 1] + moves[n - 1]
  }

  ghost predicate PartsOfRank(parts: seq<seq<Op>>, k: nat) {
    forall i :: 0 <= i < |parts| ==> AllOfRank(parts[i], k)
  }

  lemma OneMoreOfRank(front: seq<Op>, renames: seq<Op>, moves: seq<Op>, k: nat)
    requires AllOfRank(renames, 1) && AllOfRank(moves, 2)
    ensures OfRank(front + renames + moves, k) ==
      OfRank(front, k) + (if k == 1 then renames else if k == 2 then moves else [])
  {
    OfRankConcat(front, renames, k);
    OfRankConcat(front + renames, moves, k);
    OfRankAll(renames, 1, k);
    OfRankAll(moves, 2, k);
  }

  lemma FlattenOneMore(parts: seq<seq<Op>>, n: nat)
    requires n < |parts|
    ensures Flatten(parts[..n + 1]) == Flatten(parts[..n]) + parts[n]
  {
    assert parts[..n + 1][..n] == parts[..n];
  }

  lemma {:induction false} InterleavedOfRank(title: seq<Op>, renames: seq<seq<Op>>, moves: seq<seq<Op>>, n: nat, k: nat)
    requires n <= |renames| == |moves|
    requires AllOfRank(title, 0) && PartsOfRank(renames, 1) && PartsOfRank(moves, 2)
    ensures OfRank(Interleaved(title, renames, moves, n), k) ==
      if k == 0 then title else if k == 1 then Flatten(renames[..n]) else if k == 2 then Flatten(moves[..n]) else []
  {
    if n == 0 {
      OfRankAll(title, 0, k);
    } else {
      InterleavedOfRank(title, renames, moves, n - 1, k);
      OneMoreOfRank(Interleaved(title, renames, moves, n - 1), renames[n - 1], moves[n - 1], k);
      FlattenOneMore(renames, n - 1);
      FlattenOneMore(moves, n - 1);
    }
  }

  lemma {:induction false} FlattenOfRank(parts: seq<seq<Op>>, k: nat)
    requires PartsOfRank(parts, k)
    ensures AllOfRank(Flatten(parts), k)
  {
    if parts != [] {
      assert AllOfRank(parts[|parts| - 1], k);
      FlattenOfRank(parts[..|parts| - 1], k);
    }
  }

  ghost predicate Staging(title: seq<Op>, renames: seq<seq<Op>>, moves: seq<seq<Op>>, deletes: seq<Op>) {
    && |renames| == |moves|
    && AllOfRank(title, 0) && PartsOfRank(renames, 1) && PartsOfRank(moves, 2) && AllOfRank(deletes, 3)
  }

  /** Sorting by kind what the pass appended gives the rollback in its stages. */
  lemma SortedIsStaged(title: seq<Op>, renames: seq<seq<Op>>, moves: seq<seq<Op>>, deletes: seq<Op>, reorder: Op, restore: Op)
    requires Staging(title, renames, moves, deletes)
    requires Rank(reorder) == 4 && Rank(restore) == 5
    ensures ByRank(Interleaved(title, renames, moves, |renames|) + deletes + [reorder, restore], 7)
      == title + Flatten(renames) + Flatten(moves) + deletes + [reorder, restore]
  {
    var all := Interleaved(title, renames, moves, |renames|) + deletes + [reorder, restore];
    forall k: nat | k < 7 ensures OfRank(all, k) == Staged(title, renames, moves, deletes, reorder, restore, k) {
      AllOfOneRank(title, renames, moves, deletes, reorder, restore, k);
    }
    StagesTogether(all, title, Flatten(renames), Flatten(moves), deletes, [reorder], [restore]);
    assert title + Flatten(renames) + Flatten(moves) + deletes + [reorder] + [restore]
        == title + Flatten(renames) + Flatten(moves) + deletes + [reorder, restore];
  }

  ghost function Staged(title: seq<Op>, renames: seq<seq<Op>>, moves: seq<seq<Op>>, deletes: seq<Op>, reorder: Op,
                        restore: Op, k: nat): seq<Op> {
    if k == 0 then title else if k == 1 then Flatten(renames) else if k == 2 then Flatten(moves)
    else if k == 3 then deletes else if k == 4 then [reorder] else if k == 5 then [restore] else []
  }

  lemma AllOfOneRank(title: seq<Op>, renames: seq<seq<Op>>, moves: seq<seq<Op>>, deletes: seq<Op>, reorder: Op, restore: Op, k: nat)
    requires Staging(title, renames, moves, deletes)
    requires Rank(reorder) == 4 && Rank(restore) == 5
    ensures OfRank(Interleaved(title, renames, moves, |renames|) + deletes + [reorder, restore], k)
      == Staged(title, renames, moves, deletes, reorder, restore, k)
  {
    var g := Interleaved(title, renames, moves, |renames|);
    ThreeOfRank(g, deletes, [reorder, restore], k);
    InterleavedOfRank(title, renames, moves, |renames|, k);
    assert renames[..|renames|] == renames && moves[..|moves|] == moves;
    OfRankAll(deletes, 3, k);
    LastTwoOfRank(reorder, restore, k);
    assert Staged(title, renames, moves, deletes, reorder, restore, k) == OfRank(g, k)
        + OfRank(deletes, k) + OfRank([reorder, restore], k);
  }

  lemma ThreeOfRank(a: seq<Op>, b: seq<Op>, c: seq<Op>, k: nat)
    ensures OfRank(a + b + c, k) == OfRank(a, k) + OfRank(b, k) + OfRank(c, k)
  {
    OfRankConcat(a + b, c, k);
    OfRankConcat(a, b, k);
  }

  lemma LastTwoOfRank(reorder: Op, restore: Op, k: nat)
    requires Rank(reorder) == 4 && Rank(restore) == 5
    ensures OfRank([reorder, restore], k) == if k == 4 then [reorder] else if k == 5 then [restore] else []
  {
    OfRankConcat([reorder], [restore], k);
    OfRankAll([reorder], 4, k);
    OfRankAll([restore], 5, k);
    assert [reorder] + [restore] == [reorder, restore];
  }

  lemma StagesTogether(ops: seq<Op>, a: seq<Op>, b: seq<Op>, c: seq<Op>, d: seq<Op>, e: seq<Op>, f: seq<Op>)
    requires OfRank(ops, 0) == a && OfRank(ops, 1) == b && OfRank(ops, 2) == c && OfRank(ops, 3) == d
    requires OfRank(ops, 4) == e && OfRank(ops, 5) == f && OfRank(ops, 6) == []
    ensures ByRank(ops, 7) == a + b + c + d + e + f
  {
    assert ByRank(ops, 1) == [] + a == a;
    assert ByRank(ops, 2) == ByRank(ops, 1) + b;
    assert ByRank(ops, 3) == ByRank(ops, 2) + c;
    assert ByRank(ops, 4) == ByRank(ops, 3) + d;
    assert ByRank(ops, 5) == ByRank(ops, 4) + e;
    assert ByRank(ops, 6) == ByRank(ops, 5) + f;
    assert ByRank(ops, 7) == ByRank(ops, 6) + [];
  }

  lemma DeletesRank(so: ProductOption, lo: ProductOption)
    requires forall n :: n in lo.values ==> n in lo.ids && lo.ids[n].Some?
    ensures AllOfRank(DeletesBack(so, lo, lo.values), 3)
  {
  }

  lemma RenamesRank(start: Product, live: Product, i: nat)
    requires i < |start.options| == |live.options|
    ensures AllOfRank(RenamesAt(start, live, i), 1)
  {
  }

  lemma MovesRank(start: Product, promised: Product, live: Product, listing: seq<Id>, i: nat)
    requires Aligned(start, promised, live, listing) && i < |start.options|
    ensures AllOfRank(MovesAt(start, promised, live, listing, i), 2)
  {
    SingleMove(MovesAt(start, promised, live, listing, i));
  }

  lemma SingleMove(ops: seq<Op>)
    requires ops == [] || (|ops| == 1 && ops[0].MoveVariants?)
    ensures AllOfRank(ops, 2)
  {
  }

  lemma DeletesRanks(start: Product, promised: Product, live: Product, listing: seq<Id>, i: nat)
    requires Aligned(start, promised, live, listing) && i < |start.options|
    ensures AllOfRank(DeletesAt(start, promised, live, listing, i), 3)
  {
    AlignedIsComplete(start, promised, live, listing, i);
    DeletesRank(start.options[i], live.options[i]);
  }

  lemma PartsRank(start: Product, promised: Product, live: Product, listing: seq<Id>, i: nat)
    requires Aligned(start, promised, live, listing) && i < |start.options|
    ensures AllOfRank(RenameParts(start, live)[i], 1) && AllOfRank(MoveParts(start, promised, live, listing)[i], 2)
    ensures AllOfRank(DeleteParts(start, promised, live, listing)[i], 3)
  {
    PartsAt(start, promised, live, listing, i);
    RenamesRank(start, live, i);
    MovesRank(start, promised, live, listing, i);
    DeletesRanks(start, promised, live, listing, i);
  }

  /** One pass of the loop: what option `i` appends. */
  method GatherOption(start: Product, promised: Product, live: Product, listing: seq<Id>, i: nat)
    returns (renamed: seq<Op>, moved: seq<Op>, deletes: seq<Op>, out: seq<Finding>)
    requires Aligned(start, promised, live, listing) && i < |start.options|
    ensures out == [] <==> OptionOurs(start, promised, live, listing, i)
    ensures out == [] ==> renamed == RenamesAt(start, live, i)
    ensures out == [] ==> moved == MovesAt(start, promised, live, listing, i)
    ensures out == [] ==> deletes == DeletesAt(start, promised, live, listing, i)
  {
    AlignedIsComplete(start, promised, live, listing, i);
    var so, po, lo := start.options[i], promised.options[i], live.options[i];
    var renames, out1 := GatherRenames(so, po, lo);
    renamed := if renames == [] then [] else [RenameValues(so.id, renames)];
    var gone, out2 := GatherDeletes(so, po, lo);
    var moves, out3 := GatherMoves(so, po, lo, start.variants, promised.variants, live.variants, listing);
    moved := if moves == [] then [] else [MoveVariants(so.id, moves)];
    deletes, out := gone, out1 + out2 + out3;
  }

  ghost predicate OursUpTo(start: Product, promised: Product, live: Product, listing: seq<Id>, n: nat)
    requires Aligned(start, promised, live, listing) && n <= |start.options|
  {
    forall j :: 0 <= j < n ==> OptionOurs(start, promised, live, listing, j)
  }

  lemma OursOneMore(start: Product, promised: Product, live: Product, listing: seq<Id>, n: nat)
    requires Aligned(start, promised, live, listing) && n < |start.options|
    ensures OursUpTo(start, promised, live, listing, n + 1) <==>
      OursUpTo(start, promised, live, listing, n) && OptionOurs(start, promised, live, listing, n)
  {
  }

  ghost function Unsorted(start: Product, promised: Product, live: Product, listing: seq<Id>): seq<Op>
    requires Aligned(start, promised, live, listing)
  {
    Interleaved(TitleBack(start, live), RenameParts(start, live), MoveParts(start, promised, live, listing), |start.options|)
    + DeleteOps(start, promised, live, listing)
    + [ReorderValues(OrdersOf(start)), RestorePositions(VariantOrder(start.variants))]
  }

  lemma StagesRank(start: Product, promised: Product, live: Product, listing: seq<Id>)
    requires Aligned(start, promised, live, listing)
    ensures Staging(TitleBack(start, live), RenameParts(start, live), MoveParts(start, promised, live, listing),
                    DeleteOps(start, promised, live, listing))
    ensures AllOfRank(RenameOps(start, live), 1) && AllOfRank(MoveOps(start, promised, live, listing), 2)
  {
    var rs, ms := RenameParts(start, live), MoveParts(start, promised, live, listing);
    var ds := DeleteParts(start, promised, live, listing);
    forall i | 0 <= i < |start.options| ensures AllOfRank(rs[i], 1) && AllOfRank(ms[i], 2) && AllOfRank(ds[i], 3) {
      PartsRank(start, promised, live, listing, i);
    }
    FlattenOfRank(rs, 1);
    FlattenOfRank(ms, 2);
    FlattenOfRank(ds, 3);
  }

  lemma GatheredSorts(start: Product, promised: Product, live: Product, listing: seq<Id>)
    requires Aligned(start, promised, live, listing)
    ensures ByRank(Unsorted(start, promised, live, listing), 7) == RollbackOps(start, promised, live, listing)
  {
    StagesRank(start, promised, live, listing);
    SortedIsStaged(TitleBack(start, live), RenameParts(start, live), MoveParts(start, promised, live, listing),
                   DeleteOps(start, promised, live, listing), ReorderValues(OrdersOf(start)),
                   RestorePositions(VariantOrder(start.variants)));
  }

  method GatherTitle(start: Product, promised: Product, live: Product) returns (ops: seq<Op>, out: seq<Finding>)
    ensures out == [] <==> live.handle == start.handle && (live.title == start.title || live.title == promised.title)
    ensures out == [] ==> ops == TitleBack(start, live)
  {
    ops, out := [], [];
    if live.handle != start.handle { out := out + [HandleChanged]; }
    if live.title != start.title {
      if live.title == promised.title {
        ops := [Title(live.title, start.title, live.handle)];
      } else {
        out := out + [TitleChanged];
      }
    }
  }

  method GatherOptions(start: Product, promised: Product, live: Product, listing: seq<Id>, title: seq<Op>)
    returns (ops: seq<Op>, deletes: seq<Op>, out: seq<Finding>)
    requires Aligned(start, promised, live, listing)
    ensures out == [] <==> OursUpTo(start, promised, live, listing, |start.options|)
    ensures out == [] ==>
      ops == Interleaved(title, RenameParts(start, live), MoveParts(start, promised, live, listing), |start.options|)
    ensures out == [] ==> deletes == DeleteOps(start, promised, live, listing)
  {
    ops, deletes, out := title, [], [];
    ghost var rs, ms := RenameParts(start, live), MoveParts(start, promised, live, listing);
    ghost var ds := DeleteParts(start, promised, live, listing);
    for i := 0 to |start.options|
      invariant out == [] <==> OursUpTo(start, promised, live, listing, i)
      invariant out == [] ==> ops == Interleaved(title, rs, ms, i)
      invariant out == [] ==> deletes == Flatten(ds[..i])
    {
      FlattenOneMore(ds, i);
      PartsAt(start, promised, live, listing, i);
      var renamed, moved, gone, more := GatherOption(start, promised, live, listing, i);
      OursOneMore(start, promised, live, listing, i);
      ops := ops + renamed + moved;
      deletes := deletes + gone;
      out := out + more;
    }
    assert ds[..|ds|] == ds;
  }

  /** The edits, sorted by kind, and whatever speaks against them. */
  method Gather(start: Product, promised: Product, live: Product, listing: seq<Id>)
    returns (ops: seq<Op>, out: seq<Finding>)
    requires Aligned(start, promised, live, listing)
    ensures out == [] <==> NothingForeign(start, promised, live, listing)
    ensures out == [] <==> OwnState(start, promised, live)
    ensures out == [] ==> ops == RollbackOps(start, promised, live, listing)
  {
    OwnStateExactly(start, promised, live, listing);
    var title, out1 := GatherTitle(start, promised, live);
    var appended, deletes, out2 := GatherOptions(start, promised, live, listing, title);
    var order := OwnOrder(start.variants);
    GatheredSorts(start, promised, live, listing);
    ops := SortByKind(appended + deletes + [ReorderValues(OrdersOf(start)), RestorePositions(order)]);
    out := out1 + out2;
  }

  // ---- The plan --------------------------------------------------------------------------------------

  datatype Plan = Refused(findings: seq<Finding>) | NothingToDo | Edits(ops: seq<Op>, target: Product)

  ghost predicate Places(ops: seq<Op>, keys: set<Id>) {
    forall op :: op in ops && op.RestorePositions? ==> multiset(op.order) == multiset(keys)
  }

  lemma WritePositioned(p: Product, op: Op)
    requires Runs(p, op) && (op.RestorePositions? ==> multiset(op.order) == multiset(p.variants.Keys))
    ensures Positioned(Write(p, op).variants)
  {
    match op
    case RenameValues(id, renames) =>
      RenameAllShape(p, IndexOf(p.options, id), renames);
      OnlyOptionPlaces(p, IndexOf(p.options, id), RenameAll(p, IndexOf(p.options, id), renames));
    case MoveVariants(_, _) => WriteShape(p, op);
    case RestorePositions(order) => PlacedPositions(p.variants, order);
    case _ =>
  }

  lemma PlacedPositions(vs: map<Id, Variant>, order: seq<Id>)
    requires multiset(order) == multiset(vs.Keys)
    ensures forall id :: id in order ==> id in vs
    ensures Positioned(PlaceAll(vs, order))
  {
    ListingOf(order, vs.Keys);
    PlaceAllActs(vs, order);
    assert IsOrder(PlaceAll(vs, order), order);
  }

  /** Whatever else the edits do, the states they simulate can be read on. */
  lemma SimulateReadable(p: Product, op: Op)
    requires Runs(p, op) && (op.RestorePositions? ==> multiset(op.order) == multiset(p.variants.Keys))
    ensures Readable(Simulate(p, op)) && Simulate(p, op).variants.Keys == p.variants.Keys
  {
    WriteShape(p, op);
    WritePositioned(p, op);
    var w := Write(p, op);
    SamePlaces(w.variants, Simulate(p, op).variants);
    assert Names(Simulate(p, op).options) == Names(w.options) by {
      if op.MoveVariants? {
        assert Names(Reflow(w).options) == Names(w.options);
      }
    }
  }

  /** `expected_after`; None where the script would stop with an error. */
  method ExpectedAfter(p: Product, ops: seq<Op>) returns (r: Maybe<Product>)
    requires Readable(p) && Places(ops, p.variants.Keys)
    ensures r.Some? <==> RunsAll(p, ops)
    ensures r.Some? ==> r.value == Expected(p, ops)
  {
    var state := p;
    for k := 0 to |ops|
      invariant RunsAll(p, ops[..k]) && state == Expected(p, ops[..k])
      invariant Readable(state) && state.variants.Keys == p.variants.Keys
    {
      ExpectedStep(p, ops, k);
      assert ops[k] in ops;
      var next := SimulateEdit(state, ops[k]);
      if next.None? {
        if RunsAll(p, ops) {
          RunsAllPrefix(p, ops, k + 1);
        }
        return None;
      }
      SimulateReadable(state, ops[k]);
      state := next.value.0;
    }
    assert ops[..|ops|] == ops;
    return Some(state);
  }

  /** `conditional_noop`, for one edit of the list. */
  method ConditionalNoop(live: Product, ops: seq<Op>, k: nat) returns (b: bool)
    requires Readable(live) && Places(ops, live.variants.Keys) && k < |ops| && RunsAll(live, ops)
    ensures b == NoopAt(live, ops, k)
  {
    RunsAllPrefix(live, ops, k);
    if !Conditional(ops[k]) {
      return false;
    }
    var state := ExpectedAfter(live, ops[..k]);
    ExpectedReadable(live, ops[..k]);
    b := IsSatisfied(state.value, ops[k]);
  }

  lemma {:induction false} ExpectedReadable(p: Product, ops: seq<Op>)
    requires Readable(p) && Places(ops, p.variants.Keys) && RunsAll(p, ops)
    ensures Readable(Expected(p, ops)) && Expected(p, ops).variants.Keys == p.variants.Keys
    decreases |ops|
  {
    if ops != [] {
      var front := ops[..|ops| - 1];
      assert Places(front, p.variants.Keys);
      ExpectedReadable(p, front);
      assert ops[|ops| - 1] in ops;
      SimulateReadable(Expected(p, front), ops[|ops| - 1]);
    }
  }

  method WritesSomething(live: Product, ops: seq<Op>) returns (b: bool)
    requires Readable(live) && Places(ops, live.variants.Keys) && RunsAll(live, ops)
    ensures b <==> !WritesNothing(live, ops)
  {
    b := false;
    for k := 0 to |ops|
      invariant b <==> exists i :: 0 <= i < k && !NoopAt(live, ops, i)
    {
      var noop := ConditionalNoop(live, ops, k);
      if !noop {
        b := true;
      }
    }
  }

  /** The options and variants of the product are the ones the run started from. */
  predicate LinesUp(start: Product, live: Product) {
    && |live.options| == |start.options|
    && (forall i | 0 <= i < |start.options| ::
          live.options[i].id == start.options[i].id && live.options[i].name == start.options[i].name)
    && live.variants.Keys == start.variants.Keys
  }

  /** `plan_rollback` for one product: refused, nothing to do, or edits to its target. */
  method PlanRollback(start: Product, promised: Product, live: Product, listing: seq<Id>) returns (plan: Plan)
    requires WellFormed(start) && AllKnown(start) && WellFormed(live) && AllKnown(live)
    requires NoDup(listing) && forall id :: id in listing <==> id in start.variants
    requires LinesUp(start, promised)
    ensures plan.Refused? <==> !NoProblem(start, promised, live, listing)
    ensures plan.Refused? <==>
      !(LinesUp(start, live) && OwnState(start, promised, live) && ReachesStart(start, promised, live, listing))
    ensures plan.NothingToDo? <==>
      NoProblem(start, promised, live, listing) && WritesNothing(live, RollbackOps(start, promised, live, listing))
    ensures plan.Edits? ==>
      plan.ops == RollbackOps(start, promised, live, listing) && plan.target == WithPrices(start, live)
  {
    if !LinesUp(start, live) {
      return Refused([OptionsChanged]);
    }
    assert Aligned(start, promised, live, listing);
    OwnStateExactly(start, promised, live, listing);
    var ops, out := Gather(start, promised, live, listing);
    if out != [] {
      return Refused(out);
    }
    PlanPlaces(start, promised, live, listing);
    FormReadable(live);
    var target := WithPrices(start, live);
    var reached := ExpectedAfter(live, ops);
    if reached.None? {
      return Refused([Failed]);
    }
    var gap := FindDifferences(target, reached.value, {}, false);
    if gap != [] {
      return Refused([Unreachable(gap[0])]);
    }
    var writes := WritesSomething(live, ops);
    plan := if writes then Edits(ops, target) else NothingToDo;
  }

  lemma OwnOrderListsAll(vs: map<Id, Variant>)
    requires Positioned(vs)
    ensures multiset(VariantOrder(vs)) == multiset(vs.Keys)
  {
    var order := VariantOrder(vs);
    ListsAll(order, vs.Keys) by {
      assert forall i, j :: 0 <= i < j < |order| ==> vs[order[i]].position == i + 1 && vs[order[j]].position == j + 1;
    }
  }

  lemma PlanPlaces(start: Product, promised: Product, live: Product, listing: seq<Id>)
    requires Aligned(start, promised, live, listing)
    ensures Places(RollbackOps(start, promised, live, listing), live.variants.Keys)
  {
    StagesRank(start, promised, live, listing);
    OwnOrderListsAll(start.variants);
    PlacesOf(TitleBack(start, live), RenameOps(start, live), MoveOps(start, promised, live, listing),
             DeleteOps(start, promised, live, listing), ReorderValues(OrdersOf(start)),
             RestorePositions(VariantOrder(start.variants)), live.variants.Keys);
  }

  lemma PlacesOf(a: seq<Op>, b: seq<Op>, c: seq<Op>, d: seq<Op>, reorder: Op, restore: Op, keys: set<Id>)
    requires AllOfRank(a, 0) && AllOfRank(b, 1) && AllOfRank(c, 2) && AllOfRank(d, 3) && reorder.ReorderValues?
    requires restore.RestorePositions? && multiset(restore.order) == multiset(keys)
    ensures Places(a + b + c + d + [reorder, restore], keys)
  {
    forall op | op in a + b + c + d + [reorder, restore] && op.RestorePositions? ensures op == restore {
      assert op in a || op in b || op in c || op in d || op in [reorder, restore];
    }
  }
}
