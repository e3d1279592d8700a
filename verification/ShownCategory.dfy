/** The category and subcategory the read query shows for a row, and what becomes of the choices users made. */
module ShownCategory {
  import opened Prelude
  import opened Store
  import opened PointerForest
  import opened StoreRuns
  import opened StoreWrites
  import opened DuplicateLinks
  import opened DuplicateChains

  // ----- the query

  datatype Label = Label(category: Option<string>, subcategory: Option<string>)

  const NO_LABEL := Label(None, None)

  function Coalesce<T>(a: Option<T>, b: Option<T>): Option<T> {
    if a.Some? then a else b
  }

  /** The two columns are filled in separately. */
  function Over(a: Label, b: Label): Label {
    Label(Coalesce(a.category, b.category), Coalesce(a.subcategory, b.subcategory))
  }

  /** What `user` chose on row `x` itself. */
  function Chosen(db: Db, user: Id, x: Id): Label {
    if (x, user) in db.overrides
    then Label(Some(db.overrides[(x, user)].category), db.overrides[(x, user)].subcategory)
    else NO_LABEL
  }

  ghost predicate Newest(db: Db, user: Id, r: Id, p: Id) {
    && ChosenBehind(db, user, r, p)
    && forall o :: ChosenBehind(db, user, r, o) ==> db.txns[o].createdAt <= db.txns[p].createdAt
  }

  /** The row DISTINCT ON keeps of those hidden behind `r`: one created last, ties are free. */
  ghost predicate Fallback(db: Db, user: Id, r: Id, f: Option<Id>) {
    match f
    case Some(p) => Newest(db, user, r, p)
    case None => forall p :: !ChosenBehind(db, user, r, p)
  }

  function ShownWith(db: Db, user: Id, r: Id, f: Option<Id>): Label {
    Over(Chosen(db, user, r), if f.Some? then Chosen(db, user, f.value) else NO_LABEL)
  }

  /** The query may show `l` for row `r`. */
  ghost predicate Displays(db: Db, user: Id, r: Id, l: Label) {
    exists f :: Fallback(db, user, r, f) && l == ShownWith(db, user, r, f)
  }

  /** The rows the query returns. */
  predicate Listed(db: Db, user: Id, r: Id) {
    r in VisibleIds(db.txns) && db.txns[r].user == Some(user)
  }

  lemma {:induction false} NewestOf(db: Db, rows: set<Id>) returns (p: Id)
    requires rows != {} && rows <= db.txns.Keys
    ensures p in rows && forall o :: o in rows ==> db.txns[o].createdAt <= db.txns[p].createdAt
    decreases rows
  {
    p :| p in rows;
    if rows != {p} {
      var q := NewestOf(db, rows - {p});
      if db.txns[p].createdAt < db.txns[q].createdAt {
        p := q;
      }
    }
  }

  /** The query always shows something for a row, if only nothing. */
  lemma {:induction false} SomeLabelDisplayed(db: Db, user: Id, r: Id) returns (f: Option<Id>, l: Label)
    ensures Fallback(db, user, r, f) && l == ShownWith(db, user, r, f) && Displays(db, user, r, l)
  {
    var rows := set p | p in db.txns && ChosenBehind(db, user, r, p);
    if rows == {} {
      f := None;
      assert forall p :: ChosenBehind(db, user, r, p) ==> p in rows;
    } else {
      var p := NewestOf(db, rows);
      assert forall o :: ChosenBehind(db, user, r, o) ==> o in rows;
      f := Some(p);
    }
    l := ShownWith(db, user, r, f);
  }

  /** What is shown depends on the rows and on this user's own choices alone, and a row is listed for one user. */
  lemma {:induction false} OnlyOwnChoicesShown(db: Db, db': Db, user: Id, other: Id, r: Id, l: Label)
    requires db'.txns == db.txns
    requires forall x :: (x, user) in db.overrides <==> (x, user) in db'.overrides
    requires forall x :: (x, user) in db.overrides ==> db'.overrides[(x, user)] == db.overrides[(x, user)]
    ensures Displays(db, user, r, l) <==> Displays(db', user, r, l)
    ensures Listed(db, user, r) && Listed(db, other, r) ==> other == user
  {
    assert forall p :: ChosenBehind(db, user, r, p) <==> ChosenBehind(db', user, r, p);
    assert forall f :: Fallback(db, user, r, f) <==> Fallback(db', user, r, f);
    assert forall f :: Fallback(db, user, r, f) ==> ShownWith(db, user, r, f) == ShownWith(db', user, r, f);
  }

  // ----- whose choice is shown

  /** The category shown for `r` may be the one chosen on `x`. */
  ghost predicate MayComeFrom(db: Db, user: Id, r: Id, x: Id) {
    exists f :: Fallback(db, user, r, f) && Some(x) == if (r, user) in db.overrides then Some(r) else f
  }

  /** It is the one chosen on `x`, whichever way ties of `created_at` fall. */
  ghost predicate ComesFrom(db: Db, user: Id, r: Id, x: Id) {
    forall f :: Fallback(db, user, r, f) ==> Some(x) == if (r, user) in db.overrides then Some(r) else f
  }

  /** Of the choices a row represents, its own is shown; without one, that of a row one step behind it
      which no overridden row behind it is newer than. All the others show nowhere. */
  lemma {:induction false} CategoryComesFromIff(db: Db, user: Id, r: Id, x: Id)
    requires (x, user) in db.overrides && Represents(db.txns, r, x)
    ensures MayComeFrom(db, user, r, x) <==>
            x == r || (ChosenBehind(db, user, r, x) && (r, user) !in db.overrides &&
                       forall o :: ChosenBehind(db, user, r, o) ==> db.txns[o].createdAt <= db.txns[x].createdAt)
    ensures ComesFrom(db, user, r, x) <==>
            x == r || (ChosenBehind(db, user, r, x) && (r, user) !in db.overrides &&
                       forall o :: ChosenBehind(db, user, r, o) && o != x ==> db.txns[o].createdAt < db.txns[x].createdAt)
  {
    var f, l := SomeLabelDisplayed(db, user, r);
    if ChosenBehind(db, user, r, x) && x != r {
      if Newest(db, user, r, x) {
        assert Fallback(db, user, r, Some(x));
      }
      forall o | ComesFrom(db, user, r, x) && ChosenBehind(db, user, r, o) && o != x
        ensures db.txns[o].createdAt < db.txns[x].createdAt
      {
        if db.txns[o].createdAt == db.txns[x].createdAt {
          assert Fallback(db, user, r, Some(o));
        }
      }
    }
  }

  /** The row's own choice has no subcategory and lends its category to the one found behind the row. */
  predicate Mixed(own: Label, behind: Label) {
    own.category.Some? && own.subcategory.None? && behind.subcategory.Some? && own.category != behind.category
  }

  /** The pair shown is the one chosen on the row or the one chosen on the row found behind it, unless the
      two are mixed. */
  lemma {:induction false} ShownPairIsOneChoiceIff(db: Db, user: Id, r: Id, p: Id)
    requires Newest(db, user, r, p)
    ensures ShownWith(db, user, r, Some(p)) in {Chosen(db, user, r), Chosen(db, user, p)}
       <==> !Mixed(Chosen(db, user, r), Chosen(db, user, p))
  {
  }

  // ----- all the choices a row stands for

  /** `user` made a choice on row `x`, which `r` represents. */
  ghost predicate StandsForChoice(db: Db, user: Id, r: Id, x: Id) {
    (x, user) in db.overrides && Represents(db.txns, r, x)
  }

  /** Whatever `user` chose on a row that `r` represents is exactly what is shown for `r`. */
  ghost predicate RowShown(db: Db, user: Id, r: Id) {
    forall x, l :: StandsForChoice(db, user, r, x) && Displays(db, user, r, l) ==> l == Chosen(db, user, x)
  }

  /** Every choice `user` made shows, category and subcategory, on the listed row that represents it. */
  ghost predicate ChoicesShown(db: Db, user: Id) {
    forall r :: Listed(db, user, r) ==> RowShown(db, user, r)
  }

  ghost predicate ChoicesAgree(db: Db, user: Id, r: Id) {
    forall x, y :: StandsForChoice(db, user, r, x) && StandsForChoice(db, user, r, y) ==>
      Chosen(db, user, x) == Chosen(db, user, y)
  }

  ghost predicate SomeChoice(db: Db, user: Id, r: Id) {
    exists x :: StandsForChoice(db, user, r, x)
  }

  lemma {:induction false} OwnOrBehindIsRepresented(db: Db, user: Id, r: Id, x: Id)
    requires r in VisibleIds(db.txns) && (x, user) in db.overrides && (x == r || ChosenBehind(db, user, r, x))
    ensures StandsForChoice(db, user, r, x)
  {
    assert Follow(db.txns, r, 0) == Some(r);
    if x != r {
      assert Follow(db.txns, x, 1) == Some(r);
    }
  }

  lemma {:induction false} ShownChoiceIsStoodFor(db: Db, user: Id, r: Id) returns (x: Id)
    requires r in VisibleIds(db.txns) && ShowsChoice(db, user, r)
    ensures StandsForChoice(db, user, r, x)
  {
    if (r, user) in db.overrides {
      x := r;
    } else {
      x :| ChosenBehind(db, user, r, x);
    }
    OwnOrBehindIsRepresented(db, user, r, x);
  }

  lemma {:induction false} DisplayedMeansShown(db: Db, user: Id, r: Id, l: Label)
    requires Displays(db, user, r, l)
    ensures l.category.Some? <==> ShowsChoice(db, user, r)
  {
    var f :| Fallback(db, user, r, f) && l == ShownWith(db, user, r, f);
  }

  /** When all choices agree and one is in reach, that is what the query shows. */
  lemma {:induction false} AgreedIsDisplayed(db: Db, user: Id, r: Id, x: Id, l: Label)
    requires r in VisibleIds(db.txns) && ChoicesAgree(db, user, r) && ShowsChoice(db, user, r)
    requires StandsForChoice(db, user, r, x) && Displays(db, user, r, l)
    ensures l == Chosen(db, user, x)
  {
    var f :| Fallback(db, user, r, f) && l == ShownWith(db, user, r, f);
    if (r, user) in db.overrides {
      OwnOrBehindIsRepresented(db, user, r, r);
    }
    if f.Some? {
      OwnOrBehindIsRepresented(db, user, r, f.value);
    }
  }

  /** A row shows every choice it stands for if and only if these agree and, if there are any, one of them
      is on the row or one step behind it. */
  lemma {:induction false} RowShownIff(db: Db, user: Id, r: Id)
    requires r in VisibleIds(db.txns)
    ensures RowShown(db, user, r)
       <==> ChoicesAgree(db, user, r) && (SomeChoice(db, user, r) ==> ShowsChoice(db, user, r))
  {
    if RowShown(db, user, r) {
      var f, l := SomeLabelDisplayed(db, user, r);
      DisplayedMeansShown(db, user, r, l);
    } else {
      var x, l :| StandsForChoice(db, user, r, x) && Displays(db, user, r, l) && l != Chosen(db, user, x);
      if ChoicesAgree(db, user, r) && ShowsChoice(db, user, r) {
        AgreedIsDisplayed(db, user, r, x, l);
      }
    }
  }

  ghost predicate AllChoicesAgree(db: Db, user: Id) {
    forall r :: Listed(db, user, r) ==> ChoicesAgree(db, user, r)
  }

  /** While pointers are one step long no choice is out of reach, so all are shown if and only if those
      represented by the same row agree. */
  lemma {:induction false} FlatShowsChoicesIff(db: Db, user: Id)
    requires Flat(db.txns)
    ensures ChoicesShown(db, user) <==> AllChoicesAgree(db, user)
  {
    forall r | Listed(db, user, r)
      ensures RowShown(db, user, r) <==> ChoicesAgree(db, user, r)
    {
      RowShownIff(db, user, r);
      if x :| StandsForChoice(db, user, r, x) {
        RepresentedDirectly(db.txns, r, x);
        assert x == r || ChosenBehind(db, user, r, x);
      }
    }
  }

  /** Along a run that never hides a row hiding another, all choices of a user are shown at a point exactly
      when those represented by the same row agree there. */
  lemma {:induction false} FlatRunShowsChoicesIff(dbs: seq<Db>, statements: seq<Statement>, i: nat, user: Id)
    requires Run(dbs, statements) && Flat(dbs[0].txns) && i < |dbs|
    requires forall j :: 0 <= j < |statements| ==> HidesNoTarget(dbs[j], statements[j])
    ensures ChoicesShown(dbs[i], user) <==> AllChoicesAgree(dbs[i], user)
  {
    FlatSoFar(dbs, statements, i);
    FlatShowsChoicesIff(dbs[i], user);
  }

  // ----- hiding rows

  /** The query may show `l`, which is not nothing, for row `r`. */
  ghost predicate Shows(db: Db, user: Id, r: Id, l: Label) {
    ShowsChoice(db, user, r) && Displays(db, user, r, l)
  }

  /** The rows that `r` takes over when `links` are set, and `r` itself. */
  predicate InGroup(links: map<Id, Id>, r: Id, g: Id) {
    g == r || (g in links && links[g] == r)
  }

  /** Some row on its way behind `q` has an override of its own, which is offered to `q`. */
  ghost predicate Offered(db: Db, user: Id, links: map<Id, Id>, q: Id) {
    exists p :: p in links && links[p] == q && (p, user) in db.overrides
  }

  /** Whatever rows of one group show, they show the same. */
  ghost predicate GroupShowsOne(db: Db, user: Id, links: map<Id, Id>, r: Id) {
    forall g, h, l, m ::
      InGroup(links, r, g) && InGroup(links, r, h) && Shows(db, user, g, l) && Shows(db, user, h, m) ==> l == m
  }

  /** If a row on its way behind `r` shows something, `r` shows something or is offered it. */
  ghost predicate GroupIsHeard(db: Db, user: Id, links: map<Id, Id>, r: Id) {
    forall p :: p in links && links[p] == r && ShowsChoice(db, user, p) ==>
      ShowsChoice(db, user, r) || Offered(db, user, links, r)
  }

  lemma {:induction false} ShownAfterLink(db: Db, user: Id, links: map<Id, Id>, db': Db, r: Id)
    requires Linked(db, user, links, db') && WellLinked(db, links) && r !in links
    ensures ShowsChoice(db', user, r) <==> ShowsChoice(db, user, r) || Offered(db, user, links, r)
  {
    if ShowsChoice(db', user, r) && (r, user) !in db'.overrides {
      var p :| ChosenBehind(db', user, r, p);
      OverrideOfHiddenRow(db, user, links, db', p);
      assert p in links || ChosenBehind(db, user, r, p);
    }
    if ShowsChoice(db, user, r) && (r, user) !in db.overrides {
      var p :| ChosenBehind(db, user, r, p);
      assert p !in links;
      assert db'.txns[p] == db.txns[p];
      assert ChosenBehind(db', user, r, p);
    }
  }

  lemma {:induction false} OverrideOfHiddenRow(db: Db, user: Id, links: map<Id, Id>, db': Db, p: Id)
    requires Linked(db, user, links, db') && WellLinked(db, links)
    requires p in db'.txns && !db'.txns[p].Visible() && (p, user) in db'.overrides
    ensures (p, user) in db.overrides
  {
  }

  lemma {:induction false} NewRoot(db: Db, user: Id, links: map<Id, Id>, db': Db, x: Id) returns (r: Id)
    requires Linked(db, user, links, db') && WellLinked(db, links) && Forest(db.txns) && SameOwner(db.txns) && x in db.txns
    ensures Represents(db.txns, r, x) && Represents(db'.txns, if r in links then links[r] else r, x)
    ensures forall other :: Represents(db.txns, other, x) ==> other == r
    ensures forall other :: Represents(db'.txns, other, x) ==> other == if r in links then links[r] else r
  {
    r := OneVisibleRepresentative(db.txns, x);
    var n: nat :| Follow(db.txns, x, n) == Some(r);
    LinkMovesRepresentative(db.txns, links, r, x, n);
    LinkKeepsForest(db.txns, links);
    forall p | p in links
      ensures links[p] in db.txns && Owner(db.txns[p]) == Owner(db.txns[links[p]])
    {
      assert Linkable(db.txns, p, links[p]);
    }
    LinkKeepsOwner(db.txns, links);
    var root := OneVisibleRepresentative(db'.txns, x);
  }

  lemma {:induction false} OldChoiceAfterLink(db: Db, user: Id, links: map<Id, Id>, db': Db, r: Id, x: Id)
    requires Linked(db, user, links, db') && WellLinked(db, links) && Forest(db.txns) && SameOwner(db.txns)
    requires OverridesExist(db.overrides, db.txns) && r !in links && (x, user) in db.overrides
    ensures StandsForChoice(db', user, r, x) <==> exists g :: InGroup(links, r, g) && StandsForChoice(db, user, g, x)
    ensures Chosen(db', user, x) == Chosen(db, user, x)
  {
    assert (x, user).0 in db.txns;
    var g := NewRoot(db, user, links, db', x);
    assert StandsForChoice(db, user, g, x);
    assert g in links ==> links[g] in links.Values;
  }

  lemma {:induction false} NewChoiceAfterLink(db: Db, user: Id, links: map<Id, Id>, db': Db, r: Id, x: Id)
    requires Linked(db, user, links, db') && WellLinked(db, links)
    requires r in VisibleIds(db.txns) && r !in links && (x, user) !in db.overrides
    ensures StandsForChoice(db', user, r, x) <==> x == r && Offered(db, user, links, r)
  {
    if (x, user) in db'.overrides {
      var p :| p in links && links[p] == x && (p, user) in db.overrides;
      assert links[p] in links.Values;
      assert db'.txns[x] == db.txns[x];
      if Represents(db'.txns, r, x) {
        OnlyRepresentsItself(db'.txns, r, x);
      }
    }
    assert db'.txns[r] == db.txns[r];
    assert Follow(db'.txns, r, 0) == Some(r);
  }

  lemma {:induction false} OnlyRepresentsItself(txns: map<Id, Txn>, r: Id, x: Id)
    requires x in VisibleIds(txns) && Represents(txns, r, x)
    ensures r == x
  {
    var n: nat :| Follow(txns, x, n) == Some(r);
  }

  /** An offered choice is that of a row on its way behind the one it is offered to. */
  lemma {:induction false} NewChoiceIsOffered(db: Db, user: Id, links: map<Id, Id>, db': Db, r: Id) returns (p: Id)
    requires Linked(db, user, links, db') && WellLinked(db, links)
    requires (r, user) !in db.overrides && (r, user) in db'.overrides
    ensures p in links && links[p] == r && StandsForChoice(db, user, p, p)
    ensures Chosen(db', user, r) == Chosen(db, user, p)
  {
    p :| p in links && links[p] == r && (p, user) in db.overrides && db'.overrides[(r, user)] == db.overrides[(p, user)];
    assert Follow(db.txns, p, 0) == Some(p);
  }

  /** A choice a row stands for afterwards is one its group stood for before, or a copy of one. */
  lemma {:induction false} ChoiceFromGroup(
    db: Db, user: Id, links: map<Id, Id>, db': Db, r: Id, x: Id)
    returns (g: Id, y: Id)
    requires Linked(db, user, links, db') && WellLinked(db, links) && Forest(db.txns) && SameOwner(db.txns)
    requires OverridesExist(db.overrides, db.txns) && r in VisibleIds(db.txns) && r !in links
    requires StandsForChoice(db', user, r, x)
    ensures InGroup(links, r, g) && StandsForChoice(db, user, g, y) && Chosen(db', user, x) == Chosen(db, user, y)
  {
    if (x, user) in db.overrides {
      OldChoiceAfterLink(db, user, links, db', r, x);
      g :| InGroup(links, r, g) && StandsForChoice(db, user, g, x);
      y := x;
    } else {
      NewChoiceAfterLink(db, user, links, db', r, x);
      g := NewChoiceIsOffered(db, user, links, db', r);
      y := g;
    }
  }

  /** All rows of the group of `r` show the choices they stand for. */
  ghost predicate GroupShown(db: Db, user: Id, links: map<Id, Id>, r: Id) {
    forall g :: InGroup(links, r, g) ==> g in VisibleIds(db.txns) && RowShown(db, user, g)
  }

  lemma {:induction false} ShownIsChosen(db: Db, user: Id, g: Id, l: Label) returns (x: Id)
    requires g in VisibleIds(db.txns) && RowShown(db, user, g) && Shows(db, user, g, l)
    ensures StandsForChoice(db, user, g, x) && l == Chosen(db, user, x)
  {
    x := ShownChoiceIsStoodFor(db, user, g);
  }

  lemma {:induction false} ChosenIsShown(db: Db, user: Id, g: Id, x: Id)
    requires g in VisibleIds(db.txns) && RowShown(db, user, g) && StandsForChoice(db, user, g, x)
    ensures Shows(db, user, g, Chosen(db, user, x))
  {
    var f, l := SomeLabelDisplayed(db, user, g);
    DisplayedMeansShown(db, user, g, l);
  }

  lemma {:induction false} AgreeAfterLinkIff(db: Db, user: Id, links: map<Id, Id>, db': Db, r: Id)
    requires Linked(db, user, links, db') && WellLinked(db, links) && Forest(db.txns) && SameOwner(db.txns)
    requires OverridesExist(db.overrides, db.txns) && r !in links && GroupShown(db, user, links, r)
    ensures ChoicesAgree(db', user, r) <==> GroupShowsOne(db, user, links, r)
  {
    assert InGroup(links, r, r);
    if GroupShowsOne(db, user, links, r) {
      forall x, y | StandsForChoice(db', user, r, x) && StandsForChoice(db', user, r, y)
        ensures Chosen(db', user, x) == Chosen(db', user, y)
      {
        var g, u := ChoiceFromGroup(db, user, links, db', r, x);
        var h, v := ChoiceFromGroup(db, user, links, db', r, y);
        ChosenIsShown(db, user, g, u);
        ChosenIsShown(db, user, h, v);
      }
    } else {
      var g, h, l, m :|
        InGroup(links, r, g) && InGroup(links, r, h) && Shows(db, user, g, l) && Shows(db, user, h, m) && l != m;
      var x := ShownIsChosen(db, user, g, l);
      var y := ShownIsChosen(db, user, h, m);
      OldChoiceAfterLink(db, user, links, db', r, x);
      OldChoiceAfterLink(db, user, links, db', r, y);
    }
  }

  lemma {:induction false} HeardAfterLinkIff(db: Db, user: Id, links: map<Id, Id>, db': Db, r: Id)
    requires Linked(db, user, links, db') && WellLinked(db, links) && Forest(db.txns) && SameOwner(db.txns)
    requires OverridesExist(db.overrides, db.txns) && r !in links && GroupShown(db, user, links, r)
    ensures (SomeChoice(db', user, r) ==> ShowsChoice(db', user, r)) <==> GroupIsHeard(db, user, links, r)
  {
    assert InGroup(links, r, r);
    ShownAfterLink(db, user, links, db', r);
    if x :| StandsForChoice(db', user, r, x) {
      var g, y := ChoiceFromGroup(db, user, links, db', r, x);
      ChosenIsShown(db, user, g, y);
    }
    if p :| p in links && links[p] == r && ShowsChoice(db, user, p) {
      assert InGroup(links, r, p);
      var x := ShownChoiceIsStoodFor(db, user, p);
      OldChoiceAfterLink(db, user, links, db', r, x);
    }
  }

  /** What a link statement must not do to the row `r`: bring together rows that show different pairs, or
      hide behind `r` a row that shows something while `r` neither shows anything nor is offered anything. */
  ghost predicate KeepsShown(db: Db, user: Id, links: map<Id, Id>, r: Id) {
    GroupShowsOne(db, user, links, r) && GroupIsHeard(db, user, links, r)
  }

  lemma {:induction false} RowAfterLinkIff(db: Db, user: Id, links: map<Id, Id>, db': Db, r: Id)
    requires Linked(db, user, links, db') && WellLinked(db, links) && Forest(db.txns) && SameOwner(db.txns)
    requires OverridesExist(db.overrides, db.txns) && r !in links && GroupShown(db, user, links, r)
    ensures RowShown(db', user, r) <==> KeepsShown(db, user, links, r)
  {
    assert InGroup(links, r, r);
    assert db'.txns[r] == db.txns[r];
    RowShownIff(db', user, r);
    AgreeAfterLinkIff(db, user, links, db', r);
    HeardAfterLinkIff(db, user, links, db', r);
  }

  lemma {:induction false} UntouchedGroup(db: Db, user: Id, links: map<Id, Id>, r: Id)
    requires r in VisibleIds(db.txns) && RowShown(db, user, r) && r !in links.Values
    ensures KeepsShown(db, user, links, r)
  {
    forall g | InGroup(links, r, g)
      ensures g == r
    {
      assert g in links ==> links[g] in links.Values;
    }
    forall l, m | Shows(db, user, r, l) && Shows(db, user, r, m)
      ensures l == m
    {
      var x := ShownIsChosen(db, user, r, l);
    }
  }

  ghost predicate LinksOf(db: Db, user: Id, links: map<Id, Id>) {
    forall p :: p in links ==> Listed(db, user, p)
  }

  lemma {:induction false} GroupsAreShown(db: Db, user: Id, links: map<Id, Id>, r: Id)
    requires WellLinked(db, links) && LinksOf(db, user, links) && ChoicesShown(db, user) && Listed(db, user, r)
    ensures GroupShown(db, user, links, r)
  {
  }

  lemma {:induction false} TargetsAreListed(db: Db, user: Id, links: map<Id, Id>, q: Id)
    requires WellLinked(db, links) && LinksOf(db, user, links) && q in links.Values
    ensures Listed(db, user, q) && q !in links
  {
    var p :| p in links && links[p] == q;
    assert Linkable(db.txns, p, q);
  }

  /** From a store that shows every choice, hiding rows keeps it so if and only if, for each row others are
      hidden behind, the group shows one pair and is heard. */
  lemma {:induction false} LinkKeepsChoicesIff(db: Db, user: Id, links: map<Id, Id>, db': Db)
    requires Linked(db, user, links, db') && WellLinked(db, links) && LinksOf(db, user, links)
    requires Forest(db.txns) && SameOwner(db.txns) && OverridesExist(db.overrides, db.txns) && ChoicesShown(db, user)
    ensures ChoicesShown(db', user) <==> forall q :: q in links.Values ==> KeepsShown(db, user, links, q)
  {
    forall q | Listed(db, user, q) && q !in links
      ensures RowShown(db', user, q) <==> KeepsShown(db, user, links, q)
      ensures q !in links.Values ==> KeepsShown(db, user, links, q)
      ensures Listed(db', user, q)
    {
      GroupsAreShown(db, user, links, q);
      RowAfterLinkIff(db, user, links, db', q);
      if q !in links.Values {
        UntouchedGroup(db, user, links, q);
      }
    }
    forall q | q in links.Values
      ensures Listed(db, user, q) && q !in links
    {
      TargetsAreListed(db, user, links, q);
    }
    forall q | Listed(db', user, q)
      ensures Listed(db, user, q) && q !in links
    {
    }
  }

  // ----- the manual statement

  /** A manual mark keeps every choice shown if and only if the marked row shows nothing, or the same as the
      canonical row, or what it shows is its own choice and the canonical row shows nothing. */
  lemma {:induction false} MarkKeepsChoicesIff(db: Db, user: Id, id: Id, db': Db, c: Id)
    requires Marked(db, user, id, db', Success(c)) && Forest(db.txns) && SameOwner(db.txns)
    requires OverridesExist(db.overrides, db.txns) && ChoicesShown(db, user)
    ensures ChoicesShown(db', user) <==>
            (ShowsChoice(db, user, id) ==>
               if ShowsChoice(db, user, c) then exists l :: Shows(db, user, id, l) && Shows(db, user, c, l)
               else (id, user) in db.overrides)
  {
    var links: map<Id, Id> := map[id := c];
    MarkWellLinked(db, user, id, c);
    LinkKeepsChoicesIff(db, user, links, db');
    assert links.Values == {c};
    OneLinkShowsOneIff(db, user, id, c);
    OneLinkIsHeardIff(db, user, id, c);
  }

  lemma {:induction false} OneLinkShowsOneIff(db: Db, user: Id, id: Id, c: Id)
    requires Listed(db, user, id) && Listed(db, user, c) && ChoicesShown(db, user)
    ensures GroupShowsOne(db, user, map[id := c], c) <==>
            (ShowsChoice(db, user, id) && ShowsChoice(db, user, c) ==>
               exists l :: Shows(db, user, id, l) && Shows(db, user, c, l))
  {
    var links: map<Id, Id> := map[id := c];
    assert InGroup(links, c, id) && InGroup(links, c, c);
    var f, l := SomeLabelDisplayed(db, user, id);
    var f', m := SomeLabelDisplayed(db, user, c);
    OneShown(db, user, id);
    OneShown(db, user, c);
    if ShowsChoice(db, user, id) && ShowsChoice(db, user, c) {
      assert Shows(db, user, id, l) && Shows(db, user, c, m);
    }
  }

  lemma {:induction false} OneLinkIsHeardIff(db: Db, user: Id, id: Id, c: Id)
    ensures GroupIsHeard(db, user, map[id := c], c) <==>
            (ShowsChoice(db, user, id) ==> ShowsChoice(db, user, c) || (id, user) in db.overrides)
  {
    var links: map<Id, Id> := map[id := c];
    assert id in links && links[id] == c;
  }

  lemma {:induction false} OneShown(db: Db, user: Id, r: Id)
    requires Listed(db, user, r) && ChoicesShown(db, user)
    ensures forall l, m :: Shows(db, user, r, l) && Shows(db, user, r, m) ==> l == m
  {
    forall l, m | Shows(db, user, r, l) && Shows(db, user, r, m)
      ensures l == m
    {
      var x := ShownIsChosen(db, user, r, l);
    }
  }

  // ----- the automatic statement, over everything it may do

  lemma {:induction false} NearestOf(txns: map<Id, Txn>, p: Id, rows: set<Id>) returns (q: Id)
    requires p in txns && rows != {} && rows <= txns.Keys
    ensures q in rows && forall r :: r in rows ==> NoFarther(txns[p], txns[q], txns[r])
    decreases rows
  {
    q :| q in rows;
    if rows != {q} {
      var r := NearestOf(txns, p, rows - {q});
      if !NoFarther(txns[p], txns[q], txns[r]) {
        q := r;
      }
    }
  }

  lemma {:induction false} BestMatchExists(db: Db, user: Id, scope: Option<Id>, p: Id) returns (q: Id)
    requires HasMatch(db, user, scope, p)
    ensures BestMatch(db, user, scope, p, q)
  {
    var rows := set r | r in PostedRows(db, user, scope) && AutoMatch(db.txns[p], db.txns[r]);
    var r :| r in PostedRows(db, user, scope) && AutoMatch(db.txns[p], db.txns[r]);
    assert r in rows;
    q := NearestOf(db.txns, p, rows);
  }

  /** An outcome that sends the rows of `prefer` to `q` where it can, and all others elsewhere where it can. */
  ghost function Target(db: Db, user: Id, scope: Option<Id>, q: Id, prefer: set<Id>, p: Id): Id {
    if p in prefer && BestMatch(db, user, scope, p, q) then q
    else if exists r: Id :: r != q && BestMatch(db, user, scope, p, r) then
      var r: Id :| r != q && BestMatch(db, user, scope, p, r); r
    else q
  }

  ghost function Outcome(db: Db, user: Id, scope: Option<Id>, q: Id, prefer: set<Id>): map<Id, Id> {
    map p | p in PendingRows(db, user, scope) && HasMatch(db, user, scope, p) :: Target(db, user, scope, q, prefer, p)
  }

  lemma {:induction false} OutcomeIsPossible(db: Db, user: Id, scope: Option<Id>, q: Id, prefer: set<Id>)
    ensures MatchedPairs(db, user, scope, Outcome(db, user, scope, q, prefer))
  {
    forall p | HasMatch(db, user, scope, p)
      ensures BestMatch(db, user, scope, p, Target(db, user, scope, q, prefer, p))
    {
      var r := BestMatchExists(db, user, scope, p);
    }
  }

  ghost predicate Gives(before: OverrideTable, user: Id, links: map<Id, Id>, q: Id, p: Id) {
    p in links && links[p] == q && (p, user) in before
  }

  /** An override for `k` where there is none, taken from some row linked to its row. */
  ghost function Received(before: OverrideTable, user: Id, links: map<Id, Id>, k: (Id, Id)): (o: Override)
    requires exists p: Id :: Gives(before, user, links, k.0, p)
    ensures exists p: Id :: Gives(before, user, links, k.0, p) && o == before[(p, user)]
  {
    var p: Id :| Gives(before, user, links, k.0, p);
    before[(p, user)]
  }

  ghost function Receivers(before: OverrideTable, user: Id, links: map<Id, Id>): (keys: set<(Id, Id)>)
    ensures forall k :: k in keys <==>
              k !in before && k.1 == user && exists p: Id :: Gives(before, user, links, k.0, p)
  {
    set p | p in links && Gives(before, user, links, links[p], p) && (links[p], user) !in before :: (links[p], user)
  }

  lemma {:induction false} OffersSomehow(
    before: OverrideTable, user: Id, links: map<Id, Id>)
    returns (after: OverrideTable)
    ensures OverridesOffered(before, user, links, after)
  {
    var added: OverrideTable := map k | k in Receivers(before, user, links) :: Received(before, user, links, k);
    after := before + added;
    forall p | p in links && (p, user) in before
      ensures (links[p], user) in after
    {
      assert Gives(before, user, links, links[p], p);
    }
  }

  /** Some outcome of the inserts exists for any links. */
  lemma {:induction false} LinkedSomehow(db: Db, user: Id, links: map<Id, Id>) returns (db': Db)
    ensures Linked(db, user, links, db')
  {
    var overrides := OffersSomehow(db.overrides, user, links);
    db' := Db(Link(db.txns, links), db.accounts, overrides);
  }

  /** `g` is `q` or may be hidden behind it. */
  ghost predicate MayJoin(db: Db, user: Id, scope: Option<Id>, q: Id, g: Id) {
    g == q || BestMatch(db, user, scope, g, q)
  }

  ghost predicate OnlyMatch(db: Db, user: Id, scope: Option<Id>, p: Id, q: Id) {
    BestMatch(db, user, scope, p, q) && forall r: Id :: BestMatch(db, user, scope, p, r) ==> r == q
  }

  /** Rows that may end behind `q` show what `q` shows and each other. */
  ghost predicate MatchesShowOneAt(db: Db, user: Id, scope: Option<Id>, q: Id) {
    forall g: Id, h: Id, l, m | MayJoin(db, user, scope, q, g) && MayJoin(db, user, scope, q, h) ::
      Shows(db, user, g, l) && Shows(db, user, h, m) ==> l == m
  }

  ghost predicate MatchesShowOne(db: Db, user: Id, scope: Option<Id>) {
    forall q :: q in PostedRows(db, user, scope) ==> MatchesShowOneAt(db, user, scope, q)
  }

  ghost predicate MatchesAreHeard(db: Db, user: Id, scope: Option<Id>) {
    forall p, q :: BestMatch(db, user, scope, p, q) && ShowsChoice(db, user, p) ==> IsHeard(db, user, scope, p, q)
  }

  /** Hidden behind `q`, what `p` shows is not lost, whatever happens to the other rows. */
  ghost predicate IsHeard(db: Db, user: Id, scope: Option<Id>, p: Id, q: Id) {
    || ShowsChoice(db, user, q) || (p, user) in db.overrides
    || exists o: Id :: OnlyMatch(db, user, scope, o, q) && (o, user) in db.overrides
  }

  lemma {:induction false} OutcomeKeepsChoicesIff(db: Db, user: Id, scope: Option<Id>, links: map<Id, Id>, db': Db)
    requires MatchedPairs(db, user, scope, links) && Linked(db, user, links, db')
    requires Forest(db.txns) && SameOwner(db.txns) && OverridesExist(db.overrides, db.txns) && ChoicesShown(db, user)
    ensures ChoicesShown(db', user) <==> forall q :: q in links.Values ==> KeepsShown(db, user, links, q)
  {
    MatchedPairsWellLinked(db, user, scope, links);
    LinkKeepsChoicesIff(db, user, links, db');
  }

  lemma {:induction false} SafeOutcome(db: Db, user: Id, scope: Option<Id>, links: map<Id, Id>, q: Id)
    requires MatchedPairs(db, user, scope, links) && q in links.Values
    requires MatchesShowOne(db, user, scope) && MatchesAreHeard(db, user, scope)
    ensures KeepsShown(db, user, links, q)
  {
    var p0 :| p0 in links && links[p0] == q;
    assert BestMatch(db, user, scope, p0, q) && MatchesShowOneAt(db, user, scope, q);
    forall g | InGroup(links, q, g)
      ensures MayJoin(db, user, scope, q, g)
    {
    }
    forall p | p in links && links[p] == q && ShowsChoice(db, user, p)
      ensures ShowsChoice(db, user, q) || Offered(db, user, links, q)
    {
      assert BestMatch(db, user, scope, p, q) && IsHeard(db, user, scope, p, q);
      if o :| OnlyMatch(db, user, scope, o, q) && (o, user) in db.overrides {
        assert HasMatch(db, user, scope, o);
        assert BestMatch(db, user, scope, o, links[o]);
      }
    }
  }

  /** Rows that show different pairs can end up behind one row. */
  lemma {:induction false} UnsafePair(
    db: Db, user: Id, scope: Option<Id>, q: Id, g: Id, h: Id, l: Label, m: Label)
    returns (links: map<Id, Id>)
    requires q in PostedRows(db, user, scope) && MayJoin(db, user, scope, q, g) && MayJoin(db, user, scope, q, h)
    requires Shows(db, user, g, l) && Shows(db, user, h, m) && l != m && g != h
    ensures MatchedPairs(db, user, scope, links) && q in links.Values && !KeepsShown(db, user, links, q)
  {
    links := Outcome(db, user, scope, q, {g, h});
    OutcomeIsPossible(db, user, scope, q, {g, h});
    assert InGroup(links, q, g) && InGroup(links, q, h);
    assert q in links.Values by {
      var p := if g == q then h else g;
      assert p in links && links[p] == q;
    }
  }

  lemma {:induction false} SentOnlyWithoutChoice(db: Db, user: Id, scope: Option<Id>, q: Id, prefer: set<Id>, o: Id)
    requires HasMatch(db, user, scope, o) && o !in prefer && Target(db, user, scope, q, prefer, o) == q
    ensures OnlyMatch(db, user, scope, o, q)
  {
    var r := BestMatchExists(db, user, scope, o);
  }

  lemma {:induction false} OfferedIsHeard(db: Db, user: Id, scope: Option<Id>, p: Id, q: Id)
    ensures Offered(db, user, Outcome(db, user, scope, q, {p}), q) ==> IsHeard(db, user, scope, p, q)
  {
    var links := Outcome(db, user, scope, q, {p});
    if o :| o in links && links[o] == q && (o, user) in db.overrides {
      if o != p {
        SentOnlyWithoutChoice(db, user, scope, q, {p}, o);
      }
    }
  }

  /** In some outcome nothing is offered where `p` shows something. */
  lemma {:induction false} UnheardRow(db: Db, user: Id, scope: Option<Id>, p: Id, q: Id) returns (links: map<Id, Id>)
    requires BestMatch(db, user, scope, p, q) && ShowsChoice(db, user, p) && !IsHeard(db, user, scope, p, q)
    ensures MatchedPairs(db, user, scope, links) && q in links.Values && !KeepsShown(db, user, links, q)
  {
    links := Outcome(db, user, scope, q, {p});
    OutcomeIsPossible(db, user, scope, q, {p});
    OfferedIsHeard(db, user, scope, p, q);
    assert p in links && links[p] == q;
  }

  lemma {:induction false} UnsafeOutcome(db: Db, user: Id, scope: Option<Id>) returns (links: map<Id, Id>, q: Id)
    requires ChoicesShown(db, user) && !(MatchesShowOne(db, user, scope) && MatchesAreHeard(db, user, scope))
    ensures MatchedPairs(db, user, scope, links) && q in links.Values && !KeepsShown(db, user, links, q)
  {
    if !MatchesShowOne(db, user, scope) {
      var g: Id, h: Id, l, m;
      q :| q in PostedRows(db, user, scope) && !MatchesShowOneAt(db, user, scope, q);
      g, h, l, m :|
        MayJoin(db, user, scope, q, g) && MayJoin(db, user, scope, q, h) &&
        Shows(db, user, g, l) && Shows(db, user, h, m) && l != m;
      OneShown(db, user, g);
      links := UnsafePair(db, user, scope, q, g, h, l, m);
    } else {
      var p;
      p, q :| BestMatch(db, user, scope, p, q) && ShowsChoice(db, user, p) && !IsHeard(db, user, scope, p, q);
      links := UnheardRow(db, user, scope, p, q);
    }
  }

  /** Whatever order ties and inserts take, auto-resolve keeps every choice shown, if and only if rows that
      may end behind one posted row show what that row shows and each other, and none of them is hidden that
      shows something where nothing shows and nothing is sure to be offered. */
  lemma {:induction false} AutoResolveKeepsChoicesIff(db: Db, user: Id, scope: Option<Id>)
    requires Forest(db.txns) && SameOwner(db.txns) && OverridesExist(db.overrides, db.txns) && ChoicesShown(db, user)
    ensures (forall db', n :: AutoResolved(db, user, scope, db', n) ==> ChoicesShown(db', user))
       <==> MatchesShowOne(db, user, scope) && MatchesAreHeard(db, user, scope)
  {
    if MatchesShowOne(db, user, scope) && MatchesAreHeard(db, user, scope) {
      forall db', n | AutoResolved(db, user, scope, db', n)
        ensures ChoicesShown(db', user)
      {
        var links: map<Id, Id> :| MatchedPairs(db, user, scope, links) && Linked(db, user, links, db') && n == |links|;
        forall q | q in links.Values
          ensures KeepsShown(db, user, links, q)
        {
          SafeOutcome(db, user, scope, links, q);
        }
        OutcomeKeepsChoicesIff(db, user, scope, links, db');
      }
    } else {
      var links, q := UnsafeOutcome(db, user, scope);
      var db' := LinkedSomehow(db, user, links);
      OutcomeKeepsChoicesIff(db, user, scope, links, db');
      assert AutoResolved(db, user, scope, db', |links|);
    }
  }

  // ----- removing a choice

  /** Removing the choice of a listed row clears what is shown for it if and only if none is left on a row
      hidden directly behind it. */
  lemma {:induction false} RemovalClearsIff(db: Db, user: Id, r: Id, db': Db, l: Label)
    requires OverrideRemoved(db, r, user, db') && r in VisibleIds(db.txns) && Displays(db', user, r, l)
    ensures l == NO_LABEL <==> forall p :: !ChosenBehind(db, user, r, p)
  {
    assert forall p :: ChosenBehind(db', user, r, p) <==> ChosenBehind(db, user, r, p);
    DisplayedMeansShown(db', user, r, l);
  }

  /** So what auto-resolve carried over to a posted row cannot be removed from it: the hidden row keeps its
      choice, and the query falls back to one there. */
  lemma {:induction false} CarriedChoiceStays(
    db: Db, user: Id, scope: Option<Id>, db': Db, n: nat, p: Id, q: Id, db'': Db, l: Label)
    requires AutoResolved(db, user, scope, db', n) && HasMatch(db, user, scope, p) && (p, user) in db.overrides
    requires p in db'.txns && db'.txns[p].duplicateOf == Some(q)
    requires OverrideRemoved(db', q, user, db'') && Displays(db'', user, q, l)
    ensures q in VisibleIds(db'.txns) && l != NO_LABEL
  {
    HiddenRowPointsAtNearest(db, user, scope, db', n, p);
    OverridesSurviveAutoResolve(db, user, scope, db', n, p);
    assert ChosenBehind(db', user, q, p);
    RemovalClearsIff(db', user, q, db'', l);
  }

  // ----- a choice replaced, and a pair nobody chose

  /** Row 1 is pending, row 2 posted a day later; the user put the first under Travel, Hotels and the
      second under Groceries. */
  function TwoChoices(first: Option<Id>): Db {
    Db(map[1 := Copy(true, 0, None, first), 2 := Copy(false, 1, None, None)], OneAccount(),
       map[(1, 1) := Override("Travel", Some("Hotels"), 0), (2, 1) := Override("Groceries", None, 0)])
  }

  lemma {:induction false} FirstIsHidden()
    ensures AutoResolved(TwoChoices(None), 1, None, TwoChoices(Some(2)), 1)
  {
    var db, db' := TwoChoices(None), TwoChoices(Some(2));
    var links: map<Id, Id> := map[1 := 2];
    NoMerchantNoKey(db.txns[1]);
    NoMerchantNoKey(db.txns[2]);
    assert PendingRows(db, 1, None) == {1} && PostedRows(db, 1, None) == {2};
    assert BestMatch(db, 1, None, 1, 2);
    assert MatchedPairs(db, 1, None, links);
    assert Link(db.txns, links) == db'.txns;
    assert |links| == 1;
  }

  lemma {:induction false} AloneIsShown(db: Db, user: Id)
    requires VisibleIds(db.txns) == db.txns.Keys && OverridesExist(db.overrides, db.txns)
    ensures ChoicesShown(db, user)
  {
    FlatShowsChoicesIff(db, user);
    forall r: Id, x: Id | Listed(db, user, r) && StandsForChoice(db, user, r, x)
      ensures x == r
    {
      assert (x, user).0 in db.txns;
      OnlyRepresentsItself(db.txns, r, x);
    }
  }

  lemma {:induction false} BothShownBefore()
    ensures Flat(TwoChoices(None).txns) && ChoicesShown(TwoChoices(None), 1)
  {
    AloneIsShown(TwoChoices(None), 1);
  }

  lemma {:induction false} MixedAfterwards(l: Label)
    requires Displays(TwoChoices(Some(2)), 1, 2, l)
    ensures l == Label(Some("Groceries"), Some("Hotels"))
  {
    var db := TwoChoices(Some(2));
    assert ChosenBehind(db, 1, 2, 1);
    assert forall p :: ChosenBehind(db, 1, 2, p) ==> p == 1;
  }

  lemma {:induction false} OtherPairShown(db: Db, user: Id, r: Id, l: Label)
    requires Listed(db, user, r) && (r, user) in db.overrides && Displays(db, user, r, l) && l != Chosen(db, user, r)
    ensures !ChoicesShown(db, user)
  {
    OwnOrBehindIsRepresented(db, user, r, r);
  }

  lemma {:induction false} NotShownAfterwards()
    ensures !ChoicesShown(TwoChoices(Some(2)), 1)
  {
    var f, l := SomeLabelDisplayed(TwoChoices(Some(2)), 1, 2);
    MixedAfterwards(l);
    OtherPairShown(TwoChoices(Some(2)), 1, 2, l);
  }

  lemma {:induction false} OneRowLeft()
    ensures VisibleIds(TwoChoices(Some(2)).txns) == {2} && Flat(TwoChoices(Some(2)).txns)
  {
  }

  lemma {:induction false} ResolveIsAStep(a: Db, b: Db)
    requires AutoResolved(a, 1, None, b, 1)
    ensures Step(a, AutoResolve(1, None), b)
  {
  }

  /** Auto-resolve hides row 1 behind row 2. Pointers stay one step long, and yet Travel shows nowhere: the
      row left shows Groceries, Hotels, a pair nobody chose. */
  lemma {:induction false} GroceriesAtHotels(l: Label)
    requires Displays(TwoChoices(Some(2)), 1, 2, l)
    ensures Step(TwoChoices(None), AutoResolve(1, None), TwoChoices(Some(2)))
    ensures Flat(TwoChoices(None).txns) && ChoicesShown(TwoChoices(None), 1)
    ensures Flat(TwoChoices(Some(2)).txns) && VisibleIds(TwoChoices(Some(2)).txns) == {2}
    ensures l == Label(Some("Groceries"), Some("Hotels")) && !ChoicesShown(TwoChoices(Some(2)), 1)
  {
    FirstIsHidden();
    ResolveIsAStep(TwoChoices(None), TwoChoices(Some(2)));
    BothShownBefore();
    OneRowLeft();
    MixedAfterwards(l);
    NotShownAfterwards();
  }

  /** Removing Groceries from the row left brings back Travel, Hotels, and removing once more changes nothing. */
  lemma {:induction false} TravelComesBack(after: Db, again: Db, l: Label)
    requires OverrideRemoved(TwoChoices(Some(2)), 2, 1, after) && OverrideRemoved(after, 2, 1, again)
    requires Displays(again, 1, 2, l)
    ensures again == after && l == Label(Some("Travel"), Some("Hotels"))
  {
    assert again.overrides == after.overrides;
    assert ChosenBehind(after, 1, 2, 1);
    assert forall p :: ChosenBehind(after, 1, 2, p) ==> p == 1;
  }
}
