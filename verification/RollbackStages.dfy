/** The stages of a rollback: title, renames, moves, deletes, and the two orders. */
module RollbackStages {
  import opened Lists
  import opened Catalogue
  import opened Edits
  import opened KeepsForm
  import opened Compare
  import opened Congruence
  import opened RollbackPlan
  import opened RollbackReaches

  /** How far the rollback got, for options `r` (renamed) and `d` (moved). */
  datatype Phase = Phase(r: int, d: int, renamed: bool, moved: bool, deleted: bool)

  predicate LiveIds(ph: Phase, i: int) {
    (i == ph.r && !ph.renamed) || (i == ph.d && !ph.deleted)
  }

  predicate LiveChoice(ph: Phase, i: int) {
    (i == ph.r && !ph.renamed) || (i == ph.d && !ph.moved)
  }

  ghost predicate OptionBack(so: ProductOption, lo: ProductOption, xo: ProductOption, live: bool) {
    xo.id == so.id && xo.name == so.name && xo.ids == if live then lo.ids else so.ids
  }

  ghost predicate ChoiceBack(s: Product, l: map<Name, Name>, c: map<Name, Name>, x: map<Name, Name>, ph: Phase) {
    && x.Keys == c.Keys == l.Keys
    && forall i :: 0 <= i < |s.options| ==>
         var n := s.options[i].name;
         n in c && x[n] == if LiveChoice(ph, i) then l[n] else c[n]
  }

  ghost predicate VariantBack(s: Product, sv: Variant, lv: Variant, xv: Variant, ph: Phase) {
    xv.price == lv.price && xv.compareAtPrice == lv.compareAtPrice && ChoiceBack(s, lv.choice, sv.choice, xv.choice, ph)
  }

  /** `x` holds start values where the rollback has been, live ones elsewhere. */
  ghost predicate Content(s: Product, l: Product, x: Product, ph: Phase) {
    && x.title == s.title && x.handle == s.handle
    && |x.options| == |s.options| == |l.options|
    && (forall i :: 0 <= i < |s.options| ==> OptionBack(s.options[i], l.options[i], x.options[i], LiveIds(ph, i)))
    && x.variants.Keys == s.variants.Keys == l.variants.Keys
    && (forall id :: id in s.variants ==> VariantBack(s, s.variants[id], l.variants[id], x.variants[id], ph))
  }

  ghost predicate Back(s: Product, l: Product, x: Product, ph: Phase) {
    WellFormed(x) && AllKnown(x) && Content(s, l, x, ph)
  }

  lemma ContentAlike(s: Product, l: Product, x: Product, y: Product, ph: Phase)
    requires AllKnown(s) && AllKnown(l) && Content(s, l, x, ph) && Alike(x, y)
    ensures Content(s, l, y, ph)
  {
    forall i | 0 <= i < |s.options| ensures OptionBack(s.options[i], l.options[i], y.options[i], LiveIds(ph, i)) {
      assert OptionBack(s.options[i], l.options[i], x.options[i], LiveIds(ph, i));
      assert OptionAlike(x.options[i], y.options[i]);
      assert y.options[i].ids == x.options[i].ids;
    }
    forall id | id in s.variants ensures VariantBack(s, s.variants[id], l.variants[id], y.variants[id], ph) {
      assert VariantBack(s, s.variants[id], l.variants[id], x.variants[id], ph);
      assert VariantAlike(x.variants[id], y.variants[id]);
    }
  }

  /** An edit that passes and writes the next phase's content reaches that phase. */
  lemma NextPhase(s: Product, l: Product, q: Product, op: Op, ph: Phase)
    requires AllKnown(s) && AllKnown(l) && WellFormed(q) && Passes(q, op) && Guarded(op) && Runs(q, op)
    requires Content(s, l, Write(q, op), ph)
    ensures Goes(q, [op], Simulate(q, op)) && Back(s, l, Simulate(q, op), ph)
  {
    EditKeepsForm(q, op);
    SimulateAlikeWrite(q, op);
    ContentAlike(s, l, Write(q, op), Simulate(q, op), ph);
    GoesOne(q, op);
  }

  // ---- Title ---------------------------------------------------------------------------------

  lemma LiveContent(s: Product, p: Product, l: Product, listing: seq<Id>, r: int, d: int, added: Maybe<Name>, to: Name)
    requires Recoverable(s, p, l, listing, r, d, added, to)
    ensures Content(s, l, l.(title := s.title), Phase(r, d, false, false, false))
  {
    var ph := Phase(r, d, false, false, false);
    OthersStand(s, p, l, listing, r, d, added, to);
    forall i | 0 <= i < |s.options| ensures OptionBack(s.options[i], l.options[i], l.options[i], LiveIds(ph, i)) {
      KnownOptions(s, p, l, listing, i);
      if i != r && i != d {
        UntouchedOption(s.options[i], l.options[i], s.variants, l.variants);
      }
    }
    forall id | id in s.variants ensures VariantBack(s, s.variants[id], l.variants[id], l.variants[id], ph) {
      LiveVariant(s, p, l, listing, r, d, id);
    }
  }

  lemma LiveVariant(s: Product, p: Product, l: Product, listing: seq<Id>, r: int, d: int, id: Id)
    requires Aligned(s, p, l, listing) && id in s.variants
    requires forall i :: 0 <= i < |s.options| && i != r ==> StillNamed(s.options[i], l.options[i])
    requires forall i :: 0 <= i < |s.options| && i != d ==>
      Unmoved(s.options[i], l.options[i], s.variants, l.variants)
    ensures VariantBack(s, s.variants[id], l.variants[id], l.variants[id], Phase(r, d, false, false, false))
  {
    var ph := Phase(r, d, false, false, false);
    assert Names(s.options) == Names(l.options);
    assert ChoiceOk(s.options, s.variants[id].choice) && ChoiceOk(l.options, l.variants[id].choice);
    forall i | 0 <= i < |s.options| && !LiveChoice(ph, i)
      ensures l.variants[id].choice[s.options[i].name] == s.variants[id].choice[s.options[i].name]
    {
      KnownOptions(s, p, l, listing, i);
      UntouchedOption(s.options[i], l.options[i], s.variants, l.variants);
    }
  }

  lemma TitleStage(s: Product, p: Product, l: Product, listing: seq<Id>, r: int, d: int, added: Maybe<Name>, to: Name)
    returns (x: Product)
    requires Recoverable(s, p, l, listing, r, d, added, to)
    ensures Goes(l, TitleBack(s, l), x) && Back(s, l, x, Phase(r, d, false, false, false))
  {
    LiveContent(s, p, l, listing, r, d, added, to);
    if l.title == s.title {
      x := l;
      GoesNowhere(l);
      assert l.(title := s.title) == l;
    } else {
      var op := Title(l.title, s.title, l.handle);
      EditKeepsForm(l, op);
      NextPhase(s, l, l, op, Phase(r, d, false, false, false));
      x := Simulate(l, op);
    }
  }

  // ---- Renames -----------------------------------------------------------------------------------

  lemma {:induction false} RenamesBackDistinct(so: ProductOption, lo: ProductOption, values: seq<Name>)
    requires KnownOption(so) && NoDup(values)
    ensures forall i, j :: 0 <= i < j < |RenamesBack(so, lo, values)| ==>
      RenamesBack(so, lo, values)[i].to != RenamesBack(so, lo, values)[j].to
  {
    if values != [] {
      var front := RenamesBack(so, lo, values[..|values| - 1]);
      RenamesBackDistinct(so, lo, values[..|values| - 1]);
      forall i | 0 <= i < |front| ensures front[i].to != values[|values| - 1] {
        assert front[i] in front;
      }
    }
  }

  /** The option `r` of a recoverable state: every start value is there by id, under
      its start or its promised name, no value was added, and names read apart. */
  ghost predicate RenamedOnly(so: ProductOption, po: ProductOption, lo: ProductOption) {
    && KnownOption(so) && KnownOption(lo) && ReadsApart(so, lo)
    && RenamesOurs(so, po, lo)
    && (forall m :: m in lo.ids ==> exists n :: n in so.ids && so.ids[n] == lo.ids[m])
  }

  lemma LiveNameOf(so: ProductOption, po: ProductOption, lo: ProductOption, n: Name) returns (m: Name)
    requires RenamedOnly(so, po, lo) && n in so.ids
    ensures m in lo.ids && lo.ids[m] == so.ids[n] && Named(lo, so.ids[n]) == Some(m)
    ensures NeedsRename(so, lo, n) <==> m != n
  {
    assert n in Elems(so.values);
    m := Named(lo, so.ids[n]).value;
  }

  lemma RenamesBackGuarded(so: ProductOption, po: ProductOption, lo: ProductOption)
    requires RenamedOnly(so, po, lo)
    ensures var renames := RenamesBack(so, lo, so.values);
      DistinctRenames(renames) && NoClash(lo.values, renames)
      && (forall m :: m in renames ==> m.from in lo.values && m.from in lo.ids && lo.ids[m.from] == Some(m.valueId))
  {
    var renames := RenamesBack(so, lo, so.values);
    NormDistinctNoDup(so.values);
    RenamesBackDistinct(so, lo, so.values);
    forall i, j | 0 <= i < j < |renames|
      ensures renames[i].from != renames[j].from && norm(renames[i].to) != norm(renames[j].to)
    {
      assert renames[i] in renames && renames[j] in renames;
      assert so.ids[renames[i].to] != so.ids[renames[j].to];
    }
    forall m, v | m in renames && v in lo.values && norm(v) == norm(m.to) ensures v == m.from {
      assert lo.ids[v] == so.ids[m.to] && lo.ids[m.from] == so.ids[m.to];
    }
  }

  /** Undoing the renames maps every live name to the start name with its id. */
  lemma SubBack(so: ProductOption, po: ProductOption, lo: ProductOption, n: Name, m: Name)
    requires RenamedOnly(so, po, lo) && n in so.ids && m in lo.ids && lo.ids[m] == so.ids[n]
    ensures Sub(SubOf(RenamesBack(so, lo, so.values)), m) == n
  {
    var renames := RenamesBack(so, lo, so.values);
    var sub := SubOf(renames);
    SubOfMeans(renames);
    RenamesBackGuarded(so, po, lo);
    NamedMeans(lo, m);
    assert n in Elems(so.values);
    if m != n {
      var back := Rename(so.ids[n].value, m, n);
      assert back in renames;
      var i :| 0 <= i < |renames| && renames[i] == back;
      assert sub[renames[i].from] == renames[i].to;
    } else {
      forall i | 0 <= i < |renames| ensures renames[i].from != m {
        assert renames[i] in renames;
      }
    }
  }

  lemma RenamedIdIsBack(so: ProductOption, po: ProductOption, lo: ProductOption, xo: ProductOption, q: ProductOption, n: Name)
    requires RenamedOnly(so, po, lo) && xo.ids == lo.ids && n in so.ids
    requires IdsSubbed(xo, SubOf(RenamesBack(so, lo, so.values)), q)
    ensures n in q.ids && q.ids[n] == so.ids[n]
  {
    var m := LiveNameOf(so, po, lo, n);
    SubBack(so, po, lo, n, m);
    assert m in xo.ids;
  }

  lemma RenamedKeyIsBack(so: ProductOption, po: ProductOption, lo: ProductOption, xo: ProductOption, q: ProductOption, k: Name)
    requires RenamedOnly(so, po, lo) && xo.ids == lo.ids && k in q.ids
    requires IdsSubbed(xo, SubOf(RenamesBack(so, lo, so.values)), q)
    ensures k in so.ids
  {
    var m :| m in xo.ids && k == Sub(SubOf(RenamesBack(so, lo, so.values)), m);
    var n :| n in so.ids && so.ids[n] == lo.ids[m];
    SubBack(so, po, lo, n, m);
  }

  ghost predicate AllIn(a: map<Name, Maybe<Id>>, b: map<Name, Maybe<Id>>) {
    forall n :: n in a ==> n in b && b[n] == a[n]
  }

  lemma RenamedIdsAreBack(so: ProductOption, po: ProductOption, lo: ProductOption, xo: ProductOption, q: ProductOption)
    requires RenamedOnly(so, po, lo) && xo.ids == lo.ids
    requires IdsSubbed(xo, SubOf(RenamesBack(so, lo, so.values)), q)
    ensures AllIn(so.ids, q.ids)
  {
    forall n | n in so.ids ensures n in q.ids && q.ids[n] == so.ids[n] {
      RenamedIdIsBack(so, po, lo, xo, q, n);
    }
  }

  lemma RenamedOptionIsBack(so: ProductOption, po: ProductOption, lo: ProductOption, xo: ProductOption, q: ProductOption)
    requires RenamedOnly(so, po, lo) && xo.ids == lo.ids
    requires IdsSubbed(xo, SubOf(RenamesBack(so, lo, so.values)), q)
    ensures q.ids == so.ids
  {
    RenamedIdsAreBack(so, po, lo, xo, q);
    forall k | k in q.ids ensures k in so.ids {
      RenamedKeyIsBack(so, po, lo, xo, q, k);
    }
    assert q.ids.Keys == so.ids.Keys;
  }

  lemma RecoverableRenamedOnly(s: Product, p: Product, l: Product, listing: seq<Id>, r: int, d: int, added: Maybe<Name>, to: Name)
    requires Recoverable(s, p, l, listing, r, d, added, to) && 0 <= r < |s.options|
    ensures RenamedOnly(s.options[r], p.options[r], l.options[r])
    ensures Unmoved(s.options[r], l.options[r], s.variants, l.variants)
  {
    assert OptionRecoverable(s, p, l, r, r, d, added, to);
    KnownOptions(s, p, l, listing, r);
  }

  /** With nothing to rename, option `r` already carries its start names. */
  lemma NothingToRename(s: Product, p: Product, l: Product, listing: seq<Id>, r: int, d: int, added: Maybe<Name>, to: Name)
    requires Recoverable(s, p, l, listing, r, d, added, to) && 0 <= r < |s.options|
    requires RenamesBack(s.options[r], l.options[r], s.options[r].values) == []
    ensures StillNamed(s.options[r], l.options[r])
  {
    var so, po, lo := s.options[r], p.options[r], l.options[r];
    RecoverableRenamedOnly(s, p, l, listing, r, d, added, to);
    forall n | n in so.ids ensures n in lo.ids && lo.ids[n] == so.ids[n] {
      var m := LiveNameOf(so, po, lo, n);
      assert n in Elems(so.values);
    }
  }

  ghost predicate SameChoice(name: Name, v: Variant, w: Variant) {
    name in v.choice && name in w.choice && w.choice[name] == v.choice[name]
  }

  /** Where the live and the start state agree, a later phase holds already. */
  lemma LaterPhase(s: Product, l: Product, x: Product, ph: Phase, later: Phase)
    requires Back(s, l, x, ph)
    requires forall i :: 0 <= i < |s.options| ==>
      && (LiveIds(ph, i) == LiveIds(later, i) || l.options[i].ids == s.options[i].ids)
      && (LiveChoice(ph, i) == LiveChoice(later, i) || ChoicesAgreeAt(s, l, i))
    ensures Back(s, l, x, later)
  {
    forall i | 0 <= i < |s.options| ensures OptionBack(s.options[i], l.options[i], x.options[i], LiveIds(later, i)) {
      assert OptionBack(s.options[i], l.options[i], x.options[i], LiveIds(ph, i));
    }
    forall id | id in s.variants ensures VariantBack(s, s.variants[id], l.variants[id], x.variants[id], later) {
      assert VariantBack(s, s.variants[id], l.variants[id], x.variants[id], ph);
    }
  }

  ghost predicate ChoicesAgreeAt(s: Product, l: Product, i: nat)
    requires i < |s.options|
  {
    forall id :: id in s.variants ==>
      id in l.variants && SameChoice(s.options[i].name, s.variants[id], l.variants[id])
  }

  lemma RenamedContent(s: Product, p: Product, l: Product, listing: seq<Id>, r: int, d: int, added: Maybe<Name>, to: Name,
                       x: Product, q: Product)
    requires Recoverable(s, p, l, listing, r, d, added, to) && 0 <= r < |s.options|
    requires Content(s, l, x, Phase(r, d, false, false, false))
    requires OnlyOption(x, r, q)
    requires VariantsOk(x.options, x.variants)
    requires Substituted(x, r, SubOf(RenamesBack(s.options[r], l.options[r], s.options[r].values)), q)
    ensures Content(s, l, q, Phase(r, d, true, false, false))
  {
    var before, after := Phase(r, d, false, false, false), Phase(r, d, true, false, false);
    var so, po, lo := s.options[r], p.options[r], l.options[r];
    RecoverableRenamedOnly(s, p, l, listing, r, d, added, to);
    forall i | 0 <= i < |s.options| ensures OptionBack(s.options[i], l.options[i], q.options[i], LiveIds(after, i)) {
      assert OptionBack(s.options[i], l.options[i], x.options[i], LiveIds(before, i));
      if i == r {
        RenamedOptionIsBack(so, po, lo, x.options[r], q.options[r]);
      }
    }
    forall id | id in s.variants ensures VariantBack(s, s.variants[id], l.variants[id], q.variants[id], after) {
      assert OptionBack(so, lo, x.options[r], true);
      assert SameValue(so, lo, s.variants[id], l.variants[id]);
      assert VariantBack(s, s.variants[id], l.variants[id], x.variants[id], before);
      RenamedVariantBack(s, p, l, r, d, x, q, id);
    }
  }

  lemma RenamedVariantBack(s: Product, p: Product, l: Product, r: nat, d: int, x: Product, q: Product, id: Id)
    requires r < |s.options| == |l.options| == |p.options| && r != d && id in s.variants && id in l.variants && id in x.variants
    requires RenamedOnly(s.options[r], p.options[r], l.options[r])
    requires SameValue(s.options[r], l.options[r], s.variants[id], l.variants[id])
    requires l.options[r].name == s.options[r].name
    requires forall i, j :: 0 <= i < j < |s.options| ==> s.options[i].name != s.options[j].name
    requires VariantBack(s, s.variants[id], l.variants[id], x.variants[id], Phase(r, d, false, false, false))
    requires OnlyOption(x, r, q) && x.options[r].name == s.options[r].name
    requires VariantsOk(x.options, x.variants)
    requires Substituted(x, r, SubOf(RenamesBack(s.options[r], l.options[r], s.options[r].values)), q)
    ensures VariantBack(s, s.variants[id], l.variants[id], q.variants[id], Phase(r, d, true, false, false))
  {
    var so, lo, name := s.options[r], l.options[r], s.options[r].name;
    assert SameBut(x.variants[id], q.variants[id], name);
    assert ChoiceOk(x.options, x.variants[id].choice);
    assert ChoiceSubbed(x.variants[id], x.options[r], SubOf(RenamesBack(so, lo, so.values)), q.variants[id]);
    SubBack(so, p.options[r], lo, s.variants[id].choice[name], l.variants[id].choice[name]);
  }

  lemma NothingToRenameAgrees(s: Product, p: Product, l: Product, listing: seq<Id>, r: int, d: int, added: Maybe<Name>, to: Name)
    requires Recoverable(s, p, l, listing, r, d, added, to) && 0 <= r < |s.options|
    requires RenamesBack(s.options[r], l.options[r], s.options[r].values) == []
    ensures l.options[r].ids == s.options[r].ids && ChoicesAgreeAt(s, l, r)
  {
    NothingToRename(s, p, l, listing, r, d, added, to);
    KnownOptions(s, p, l, listing, r);
    RecoverableRenamedOnly(s, p, l, listing, r, d, added, to);
    UntouchedOption(s.options[r], l.options[r], s.variants, l.variants);
    forall id | id in s.variants ensures SameChoice(s.options[r].name, s.variants[id], l.variants[id]) {
      assert SameValue(s.options[r], l.options[r], s.variants[id], l.variants[id]);
    }
  }

  lemma RenameStage(s: Product, p: Product, l: Product, listing: seq<Id>, r: int, d: int, added: Maybe<Name>, to: Name,
                    x: Product) returns (q: Product)
    requires Recoverable(s, p, l, listing, r, d, added, to)
    requires Back(s, l, x, Phase(r, d, false, false, false))
    ensures Goes(x, RenameOps(s, l), q) && Back(s, l, q, Phase(r, d, true, false, false))
  {
    OthersStand(s, p, l, listing, r, d, added, to);
    RenameOpsOnlyAt(s, p, l, listing, r);
    GoesNowhere(x);
    if !(0 <= r < |s.options|) {
      q := x;
      LaterPhase(s, l, x, Phase(r, d, false, false, false), Phase(r, d, true, false, false));
    } else if RenamesBack(s.options[r], l.options[r], s.options[r].values) == [] {
      q := x;
      NothingToRenameAgrees(s, p, l, listing, r, d, added, to);
      LaterPhase(s, l, x, Phase(r, d, false, false, false), Phase(r, d, true, false, false));
    } else {
      q := RenameStageWrites(s, p, l, listing, r, d, added, to, x);
    }
  }

  lemma RenameStageWrites(s: Product, p: Product, l: Product, listing: seq<Id>, r: int, d: int, added: Maybe<Name>, to: Name,
                          x: Product) returns (q: Product)
    requires Recoverable(s, p, l, listing, r, d, added, to) && 0 <= r < |s.options|
    requires Back(s, l, x, Phase(r, d, false, false, false))
    ensures Goes(x, [RenameValues(s.options[r].id, RenamesBack(s.options[r], l.options[r], s.options[r].values))], q)
    ensures Back(s, l, q, Phase(r, d, true, false, false))
  {
    var renames := RenamesBack(s.options[r], l.options[r], s.options[r].values);
    var op := RenameValues(s.options[r].id, renames);
    RecoverableRenamedOnly(s, p, l, listing, r, d, added, to);
    RenamePasses(s, p.options[r], l, x, r, d);
    RenamesActTogether(x, r, renames);
    RenameAllShape(x, r, renames);
    EditKeepsForm(x, op);
    assert Write(x, op) == RenameAll(x, r, renames);
    RenamedContent(s, p, l, listing, r, d, added, to, x, Write(x, op));
    NextPhase(s, l, x, op, Phase(r, d, true, false, false));
    q := Simulate(x, op);
  }

  lemma RenamePasses(s: Product, po: ProductOption, l: Product, x: Product, r: nat, d: int)
    requires r < |s.options| == |l.options| && r != d && RenamedOnly(s.options[r], po, l.options[r])
    requires Back(s, l, x, Phase(r, d, false, false, false))
    ensures var renames := RenamesBack(s.options[r], l.options[r], s.options[r].values);
      && IndexOfIs(x, s.options[r].id, r)
      && Passes(x, RenameValues(s.options[r].id, renames)) && Guarded(RenameValues(s.options[r].id, renames))
      && Renamable(x.options[r], renames)
  {
    var so, lo := s.options[r], l.options[r];
    RenamesBackGuarded(so, po, lo);
    assert OptionOk(x.options[r]);
    forall v ensures v in x.options[r].values <==> v in lo.values {
      assert v in Elems(x.options[r].values) <==> v in Elems(lo.values);
    }
  }

  ghost predicate IndexOfIs(x: Product, id: Id, i: nat) {
    HasOption(x, id) && IndexOf(x.options, id) == i
  }

  // ---- Moves ---------------------------------------------------------------------------------

  /** The option `d` of a recoverable state. */
  ghost predicate MovedOnly(s: Product, p: Product, l: Product, listing: seq<Id>, d: nat, added: Maybe<Name>, to: Name) {
    && Aligned(s, p, l, listing) && d < |s.options|
    && StillNamed(s.options[d], l.options[d])
    && StandsOrMoved(s.options[d], p.options[d], l.options[d], added, to, s.variants, p.variants, l.variants)
  }

  /** A variant stands elsewhere exactly when it holds another name. */
  lemma ElsewhereMeans(s: Product, p: Product, l: Product, listing: seq<Id>, d: nat, added: Maybe<Name>, to: Name, id: Id)
    requires MovedOnly(s, p, l, listing, d, added, to) && id in s.variants
    ensures var n := s.options[d].name;
      && n in s.variants[id].choice && n in l.variants[id].choice
      && (Elsewhere(s.options[d], l.options[d], s.variants[id], l.variants[id]) <==>
            l.variants[id].choice[n] != s.variants[id].choice[n])
      && (l.variants[id].choice[n] != s.variants[id].choice[n] ==> l.variants[id].choice[n] == to)
      && s.variants[id].choice[n] in s.options[d].ids
  {
    var so, lo := s.options[d], l.options[d];
    KnownOptions(s, p, l, listing, d);
    assert ChoiceOk(s.options, s.variants[id].choice) && ChoiceOk(l.options, l.variants[id].choice);
    assert s.variants[id].choice[so.name] in Elems(so.values);
    assert l.variants[id].choice[so.name] in Elems(lo.values);
  }

  lemma {:induction false} MovesBackDistinct(so: ProductOption, lo: ProductOption, s: map<Id, Variant>, l: map<Id, Variant>,
                                             listing: seq<Id>)
    requires Complete(so, lo, s, l, listing) && NoDup(listing)
    ensures DistinctMoves(MovesBack(so, lo, s, l, listing))
  {
    if listing != [] {
      var front := MovesBack(so, lo, s, l, listing[..|listing| - 1]);
      MovesBackDistinct(so, lo, s, l, listing[..|listing| - 1]);
      forall i | 0 <= i < |front| ensures front[i].variantId != listing[|listing| - 1] {
        assert front[i] in front;
      }
    }
  }

  /** Before the moves, a variant differs from its start choice at option `d` only. */
  lemma ChoiceBeforeMoves(s: Product, l: Product, x: Product, r: int, d: nat, id: Id)
    requires Content(s, l, x, Phase(r, d, true, false, false)) && id in s.variants && d < |s.options|
    requires ChoiceOk(s.options, s.variants[id].choice)
    ensures var n := s.options[d].name;
      n in l.variants[id].choice && x.variants[id].choice == s.variants[id].choice[n := l.variants[id].choice[n]]
  {
    var ph := Phase(r, d, true, false, false);
    assert VariantBack(s, s.variants[id], l.variants[id], x.variants[id], ph);
  }

  /** Between start and live a variant differs at option `d` only, and then holds `to`. */
  ghost predicate DisplacedAt(so: ProductOption, lo: ProductOption, sv: Variant, lv: Variant, xv: Variant, to: Name) {
    var n := so.name;
    && n in sv.choice && n in lv.choice
    && xv.choice == sv.choice[n := lv.choice[n]]
    && (Elsewhere(so, lo, sv, lv) <==> lv.choice[n] != sv.choice[n])
    && (lv.choice[n] != sv.choice[n] ==> lv.choice[n] == to)
    && sv.choice[n] in so.ids
  }

  ghost predicate Displaced(s: Product, l: Product, x: Product, d: nat, to: Name) {
    && d < |s.options| == |l.options| && l.options[d].name == s.options[d].name
    && x.variants.Keys == s.variants.Keys == l.variants.Keys
    && (forall id :: id in s.variants ==>
          DisplacedAt(s.options[d], l.options[d], s.variants[id], l.variants[id], x.variants[id], to))
  }

  lemma DisplacedBeforeMoves(s: Product, p: Product, l: Product, listing: seq<Id>, r: int, d: nat, added: Maybe<Name>, to: Name,
                             x: Product)
    requires MovedOnly(s, p, l, listing, d, added, to) && Content(s, l, x, Phase(r, d, true, false, false))
    ensures Displaced(s, l, x, d, to)
  {
    forall id | id in s.variants
      ensures DisplacedAt(s.options[d], l.options[d], s.variants[id], l.variants[id], x.variants[id], to)
    {
      ElsewhereMeans(s, p, l, listing, d, added, to, id);
      ChoiceBeforeMoves(s, l, x, r, d, id);
    }
  }

  lemma MoveBackFits(s: Product, l: Product, x: Product, d: nat, to: Name, listing: seq<Id>, m: Move)
    requires Displaced(s, l, x, d, to) && VariantsOk(s.options, s.variants)
    requires Complete(s.options[d], l.options[d], s.variants, l.variants, listing)
    requires m in MovesBack(s.options[d], l.options[d], s.variants, l.variants, listing)
    requires d < |x.options| && x.options[d].name == s.options[d].name
    requires forall k :: k in s.options[d].ids ==> k in x.options[d].values
    ensures MoveFits(x, x.options[d], m) && m.from == to && m.to in s.options[d].ids
  {
    var n, v := s.options[d].name, m.variantId;
    assert v in listing && v in s.variants;
    assert Elsewhere(s.options[d], l.options[d], s.variants[v], l.variants[v]);
    assert m.from == l.variants[v].choice[n] && m.to == s.variants[v].choice[n];
    MoveBackLands(s, l, x, d, to, m, v);
  }

  lemma MoveBackLands(s: Product, l: Product, x: Product, d: nat, to: Name, m: Move, v: Id)
    requires Displaced(s, l, x, d, to) && v in s.variants
    requires forall u :: u in s.variants && u != v ==> s.variants[u].choice != s.variants[v].choice
    requires Elsewhere(s.options[d], l.options[d], s.variants[v], l.variants[v])
    requires var n := s.options[d].name;
      m.variantId == v && m.from == l.variants[v].choice[n] && m.to == s.variants[v].choice[n]
    requires d < |x.options| && x.options[d].name == s.options[d].name
    requires forall k :: k in s.options[d].ids ==> k in x.options[d].values
    ensures MoveFits(x, x.options[d], m) && m.from == to && m.to in s.options[d].ids
  {
    assert DisplacedAt(s.options[d], l.options[d], s.variants[v], l.variants[v], x.variants[v], to);
    forall u | u in x.variants ensures x.variants[u].choice != s.variants[v].choice {
    }
  }

  lemma MovedContent(s: Product, l: Product, listing: seq<Id>, r: int, d: nat, to: Name, x: Product, q: Product)
    requires Displaced(s, l, x, d, to) && Content(s, l, x, Phase(r, d, true, false, false))
    requires (forall id :: id in s.variants ==> id in listing) && VariantsOk(s.options, s.variants)
    requires Complete(s.options[d], l.options[d], s.variants, l.variants, listing)
    requires q == x.(variants := q.variants)
    requires Moved(x.variants, s.options[d].name,
                   MovesBack(s.options[d], l.options[d], s.variants, l.variants, listing), q.variants)
    ensures Content(s, l, q, Phase(r, d, true, true, false))
  {
    var before, after := Phase(r, d, true, false, false), Phase(r, d, true, true, false);
    forall i | 0 <= i < |s.options| ensures OptionBack(s.options[i], l.options[i], q.options[i], LiveIds(after, i)) {
      assert OptionBack(s.options[i], l.options[i], x.options[i], LiveIds(before, i));
    }
    forall id | id in s.variants ensures VariantBack(s, s.variants[id], l.variants[id], q.variants[id], after) {
      assert VariantBack(s, s.variants[id], l.variants[id], x.variants[id], before);
      MovedChoiceBack(s, l, listing, d, to, x, q.variants, id);
      assert ChoiceOk(s.options, s.variants[id].choice);
    }
  }

  lemma MovedChoiceBack(s: Product, l: Product, listing: seq<Id>, d: nat, to: Name, x: Product, q: map<Id, Variant>, id: Id)
    requires Displaced(s, l, x, d, to) && id in s.variants && id in listing
    requires Complete(s.options[d], l.options[d], s.variants, l.variants, listing)
    requires Moved(x.variants, s.options[d].name,
                   MovesBack(s.options[d], l.options[d], s.variants, l.variants, listing), q)
    ensures q[id] == x.variants[id].(choice := s.variants[id].choice)
  {
    var n := s.options[d].name;
    var moves := MovesBack(s.options[d], l.options[d], s.variants, l.variants, listing);
    assert DisplacedAt(s.options[d], l.options[d], s.variants[id], l.variants[id], x.variants[id], to);
    if Elsewhere(s.options[d], l.options[d], s.variants[id], l.variants[id]) {
      var m := Move(id, l.variants[id].choice[n], s.variants[id].choice[n]);
      assert m in moves && MovedTo(x.variants, n, m, q);
      assert x.variants[id].choice[n := m.to] == s.variants[id].choice;
    } else {
      assert forall m :: m in moves ==> m.variantId != id;
      assert x.variants[id].choice == s.variants[id].choice;
    }
  }

  lemma MoveStage(s: Product, p: Product, l: Product, listing: seq<Id>, r: int, d: int, added: Maybe<Name>, to: Name,
                  x: Product) returns (q: Product)
    requires Recoverable(s, p, l, listing, r, d, added, to)
    requires Back(s, l, x, Phase(r, d, true, false, false))
    ensures Goes(x, MoveOps(s, p, l, listing), q) && Back(s, l, q, Phase(r, d, true, true, false))
  {
    assert MoveOps(s, p, l, listing) == if 0 <= d < |s.options| then MovesAt(s, p, l, listing, d) else [] by {
      OthersStand(s, p, l, listing, r, d, added, to);
      MoveOpsOnlyAt(s, p, l, listing, d);
    }
    GoesNowhere(x);
    if 0 <= d < |s.options| {
      assert OptionRecoverable(s, p, l, d, r, d, added, to);
      q := MoveStageAt(s, p, l, listing, r, d, added, to, x);
    } else {
      q := x;
      LaterPhase(s, l, x, Phase(r, d, true, false, false), Phase(r, d, true, true, false));
    }
  }

  lemma MoveStageAt(s: Product, p: Product, l: Product, listing: seq<Id>, r: int, d: nat, added: Maybe<Name>, to: Name,
                    x: Product) returns (q: Product)
    requires MovedOnly(s, p, l, listing, d, added, to) && Back(s, l, x, Phase(r, d, true, false, false))
    ensures Goes(x, MovesAt(s, p, l, listing, d), q) && Back(s, l, q, Phase(r, d, true, true, false))
  {
    AlignedIsComplete(s, p, l, listing, d);
    GoesNowhere(x);
    if MovesBack(s.options[d], l.options[d], s.variants, l.variants, listing) == [] {
      q := x;
      LaterPhase(s, l, x, Phase(r, d, true, false, false), Phase(r, d, true, true, false));
    } else {
      q := MoveStageWrites(s, p, l, listing, r, d, added, to, x);
    }
  }

  lemma MovesBackPass(s: Product, l: Product, listing: seq<Id>, d: nat, to: Name, x: Product)
    requires Displaced(s, l, x, d, to) && VariantsOk(s.options, s.variants) && NoDup(listing)
    requires Complete(s.options[d], l.options[d], s.variants, l.variants, listing)
    requires d < |x.options| && IndexOfIs(x, s.options[d].id, d) && x.options[d].name == s.options[d].name
    requires forall k :: k in s.options[d].ids ==>
      k in x.options[d].values && k in x.options[d].ids && x.options[d].ids[k].Some?
    ensures var op := MoveVariants(s.options[d].id, MovesBack(s.options[d], l.options[d], s.variants, l.variants, listing));
      Passes(x, op) && Guarded(op)
  {
    var moves := MovesBack(s.options[d], l.options[d], s.variants, l.variants, listing);
    MovesBackDistinct(s.options[d], l.options[d], s.variants, l.variants, listing);
    forall m | m in moves
      ensures MoveFits(x, x.options[d], m) && m.to in x.options[d].ids && x.options[d].ids[m.to].Some? && m.from == to
    {
      MoveBackFits(s, l, x, d, to, listing, m);
    }
  }

  lemma StartValuesAreLive(s: Product, p: Product, l: Product, listing: seq<Id>, r: int, d: nat, added: Maybe<Name>, to: Name,
                           x: Product)
    requires MovedOnly(s, p, l, listing, d, added, to) && Back(s, l, x, Phase(r, d, true, false, false))
    ensures IndexOfIs(x, s.options[d].id, d) && x.options[d].name == s.options[d].name
    ensures forall k :: k in s.options[d].ids ==>
      k in x.options[d].values && k in x.options[d].ids && x.options[d].ids[k].Some?
  {
    assert OptionOk(x.options[d]);
    forall k | k in s.options[d].ids ensures k in x.options[d].values {
      assert k in Elems(x.options[d].values);
    }
  }

  lemma MoveStageWrites(s: Product, p: Product, l: Product, listing: seq<Id>, r: int, d: nat, added: Maybe<Name>, to: Name,
                        x: Product) returns (q: Product)
    requires MovedOnly(s, p, l, listing, d, added, to) && Back(s, l, x, Phase(r, d, true, false, false))
    requires Complete(s.options[d], l.options[d], s.variants, l.variants, listing)
    ensures Goes(x, [MoveVariants(s.options[d].id, MovesBack(s.options[d], l.options[d], s.variants, l.variants, listing))], q)
    ensures Back(s, l, q, Phase(r, d, true, true, false))
  {
    var moves := MovesBack(s.options[d], l.options[d], s.variants, l.variants, listing);
    var op := MoveVariants(s.options[d].id, moves);
    DisplacedBeforeMoves(s, p, l, listing, r, d, added, to, x);
    StartValuesAreLive(s, p, l, listing, r, d, added, to, x);
    MovesBackPass(s, l, listing, d, to, x);
    EditKeepsForm(x, op);
    MoveAllActs(x.variants, s.options[d].name, moves);
    MovedContent(s, l, listing, r, d, to, x, Write(x, op));
    NextPhase(s, l, x, op, Phase(r, d, true, true, false));
    q := Simulate(x, op);
  }
}
