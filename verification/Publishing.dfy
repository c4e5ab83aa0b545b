/**
 * Published templates: while a template is public every board made from it shows the same, whatever
 * is called in between. Only the files of its cards may differ, as their writers are not guarded.
 */
module Publishing {
  import opened Types
  import opened Views
  import opened Store
  import Lists
  import Cards
  import Labels
  import Boards
  import Members
  import Invites
  import opened Outline
  import opened Cloning
  import opened Isolation
  import opened Ownership
  import opened Service
  import TemplateCache

  // ---- Portraits without files ----------------------------------------------------------

  function UnfiledCards(p: seq<CardPortrait>): (r: seq<CardPortrait>)
    ensures |r| == |p|
  {
    seq(|p|, i requires 0 <= i < |p| => p[i].(files := map[]))
  }

  function UnfiledList(p: ListPortrait): ListPortrait {
    p.(cards := UnfiledCards(p.cards))
  }

  /** The portrait with the files of every card left out. */
  function Unfiled(p: seq<ListPortrait>): (r: seq<ListPortrait>)
    ensures |r| == |p|
  {
    seq(|p|, i requires 0 <= i < |p| => UnfiledList(p[i]))
  }

  lemma UnfiledBlankCards(p: seq<CardPortrait>)
    ensures UnfiledCards(BlankCards(p)) == BlankCards(UnfiledCards(p))
  {
    hide AllUndone;
  }

  lemma UnfiledBlank(p: seq<ListPortrait>)
    ensures Unfiled(Blank(p)) == Blank(Unfiled(p))
  {
    hide UnfiledCards;
    hide BlankCards;
    forall i | 0 <= i < |p|
      ensures UnfiledList(BlankList(p[i])) == BlankList(UnfiledList(p[i]))
    {
      UnfiledBlankCards(p[i].cards);
    }
  }

  /** The tables with files and assignees left out. */
  function Stripped(s: Tables): Tables {
    s.(cards := map c | c in s.cards :: Shown(s.cards[c]))
  }

  lemma StrippedOrders(s: Tables)
    ensures forall b :: ListOrders(Stripped(s), b) == ListOrders(s, b)
    ensures forall l :: CardOrders(Stripped(s), l) == CardOrders(s, l)
  {
  }

  lemma StrippedListing(s: Tables, board: Id, v: Listing)
    ensures IsListing(Stripped(s), board, v) <==> IsListing(s, board, v)
  {
    hide IsView;
    hide ListOrders;
    hide CardOrders;
    StrippedOrders(s);
  }

  lemma StrippedIsLocal(s: Tables)
    requires CardsLocal(s)
    ensures CardsLocal(Stripped(s))
  {
    forall c | c in s.cards
      ensures CardLocal(Shown(s.cards[c]), s.lists, s.labels, s.members)
    {
      assert CardLocal(s.cards[c], s.lists, s.labels, s.members);
    }
  }

  lemma StrippedCards(s: Tables, v: seq<Id>)
    requires forall c | c in v :: c in s.cards
    ensures CardsOf(Stripped(s), v) == UnfiledCards(CardsOf(s, v))
  {
    forall i | 0 <= i < |v|
      ensures CardsOf(Stripped(s), v)[i] == UnfiledCards(CardsOf(s, v))[i]
    {
      assert v[i] in s.cards;
      StrippedCard(s, s.cards[v[i]]);
    }
  }

  lemma StrippedCard(s: Tables, card: Card)
    ensures CardOf(Stripped(s), Shown(card)) == CardOf(s, card).(files := map[])
  {
    assert FilesOf(map[]) == map[];
  }

  lemma StrippedPortrait(s: Tables, v: Listing)
    requires RowsOf(s, v)
    ensures RowsOf(Stripped(s), v) && Portrait(Stripped(s), v) == Unfiled(Portrait(s, v))
  {
    hide CardsOf;
    hide UnfiledCards;
    forall i | 0 <= i < |v.lists|
      ensures Portrait(Stripped(s), v)[i] == Unfiled(Portrait(s, v))[i]
    {
      StrippedCards(s, v.cards[v.lists[i]]);
    }
  }

  lemma StrippedRows(s: Tables, board: Id)
    ensures forall l :: ListInBoard(Stripped(s), l, board) <==> ListInBoard(s, l, board)
    ensures forall x :: LabelInBoard(Stripped(s), x, board) <==> LabelInBoard(s, x, board)
    ensures forall c :: CardInBoard(Stripped(s), c, board) <==> CardInBoard(s, c, board)
    ensures Stripped(s).lists == s.lists && Stripped(s).labels == s.labels
  {
    forall c
      ensures CardInBoard(Stripped(s), c, board) <==> CardInBoard(s, c, board)
    {
      if c in s.cards {
        assert Stripped(s).cards[c] == Shown(s.cards[c]);
      }
    }
  }

  lemma ShownCard(s: Tables, t: Tables, c: Id, board: Id)
    requires CardInBoard(s, c, board) && CardInBoard(t, c, board) && Shown(t.cards[c]) == Shown(s.cards[c])
    ensures c in Stripped(s).cards && c in Stripped(t).cards && Stripped(t).cards[c] == Stripped(s).cards[c]
  {
  }

  lemma SameShownStripped(s: Tables, t: Tables, board: Id)
    requires SameShown(s, t, board)
    ensures SameContent(Stripped(s), Stripped(t), board)
  {
    hide Stripped;
    hide Shown;
    StrippedRows(s, board);
    StrippedRows(t, board);
    assert SameLists(Stripped(s), Stripped(t), board) by { hide SameLabels; hide SameShownCards; }
    assert SameLabels(Stripped(s), Stripped(t), board) by { hide SameLists; hide SameShownCards; }
    assert SameCards(Stripped(s), Stripped(t), board) by {
      hide SameLists;
      hide SameLabels;
      forall c | CardInBoard(Stripped(s), c, board)
        ensures c in Stripped(s).cards && c in Stripped(t).cards && Stripped(t).cards[c] == Stripped(s).cards[c]
      {
        ShownCard(s, t, c, board);
      }
    }
  }

  /** What is shown the same has the same portrait, files left out. */
  lemma SameShownSamePortrait(s: Tables, t: Tables, board: Id, v: Listing)
    requires CardsLocal(s) && SameShown(s, t, board) && IsListing(t, board, v)
    ensures RowsOf(s, v) && RowsOf(t, v) && Unfiled(Portrait(s, v)) == Unfiled(Portrait(t, v))
  {
    hide IsListing;
    hide CardsLocal;
    hide SameContent;
    hide SameShown;
    hide Portrait;
    hide RowsOf;
    hide Unfiled;
    hide Stripped;
    StrippedIsLocal(s);
    SameShownStripped(s, t, board);
    StrippedListing(s, board, v);
    StrippedListing(t, board, v);
    SameContentSamePortrait(Stripped(s), Stripped(t), board, v);
    ListingHasRows(s, board, v);
    ListingHasRows(t, board, v);
    StrippedPortrait(s, v);
    StrippedPortrait(t, v);
  }

  // ---- While the template is public -----------------------------------------------------

  /** The calls that end it: deleting the template and changing its visibility. */
  predicate Unpublishes(op: Op, board: Id) {
    op.BoardCall? && (op.board.RemoveBoard? || op.board.SetVisibility?) && op.board.board == board
  }

  lemma StepKeepsPublic(s: Tables, op: Op, board: Id)
    requires WellFormed(s) && IsPublicTemplate(s, board) && !Unpublishes(op, board)
    ensures IsPublicTemplate(Step(s, op), board)
  {
    hide WellFormed;
    hide BoardsExist;
    hide IdsUsed;
    Parts(s);
    if Apply(s, op).Ok? {
      match op
      case ListCall(o) => hide Lists.Apply; ListCallKeepsBoards(s, o);
      case CardCall(o) => hide Cards.Apply; CardCallKeepsBoards(s, o);
      case LabelCall(o) => hide Labels.Apply; LabelCallKeepsBoards(s, o);
      case BoardCall(o) => hide Boards.Apply; TemplateCache.BoardCallKeepsPublic(s, o, board);
      case MemberCall(o) => hide Members.Apply; TemplateCache.MemberCallKeepsVisibility(s, o);
      case InviteCall(o) => hide Invites.Apply; hide Invites.Added; Invites.ApplyAddsAtMost(s, o);
    }
  }

  /** Whoever calls, with whatever, a public template stays what it is. */
  lemma {:induction false} RunFreezes(s: Tables, ops: seq<Op>, board: Id)
    requires WellFormed(s) && IsPublicTemplate(s, board)
    requires forall op | op in ops :: !Unpublishes(op, board)
    ensures SameShown(s, Run(s, ops), board)
    decreases |ops|
  {
    hide WellFormed;
    hide IsPublicTemplate;
    hide SameShown;
    hide SameContent;
    hide Step;
    if ops == [] {
      SameRowsSameContent(s, s, board);
      SameContentShows(s, s, board);
    } else {
      var t := Step(s, ops[0]);
      assert !Unpublishes(ops[0], board);
      PublicTemplateIsFrozen(s, ops[0], board);
      StepKeepsPublic(s, ops[0], board);
      StepKeepsWellFormed(s, ops[0]);
      RunFreezes(t, ops[1..], board);
      SameShownTransitive(s, t, Run(t, ops[1..]), board);
    }
  }

  /**
   * A public template, any run that neither deletes it nor changes its visibility, and a board made
   * from it: the board shows what the template showed at first, undone, apart from files.
   */
  lemma InstanceOfPublished(s: Tables, board: Id, between: seq<Op>, create: Boards.BoardOp, v: Listing)
    requires WellFormed(s) && IsPublicTemplate(s, board)
    requires forall op | op in between :: !Unpublishes(op, board)
    requires create.CreateFromTemplate? && create.board == board
    requires var m := Run(s, between);
             Boards.Apply(m, create).Ok? && IsListing(Boards.Apply(m, create).value, create.ids.board, v)
    ensures var r := Boards.Apply(Run(s, between), create).value;
            && RowsOf(r, v) && RowsOf(s, SourceListing(create.ids))
            && IsListing(Run(s, between), board, SourceListing(create.ids))
            && Unfiled(Portrait(r, v)) == Blank(Unfiled(Portrait(s, SourceListing(create.ids))))
  {
    hide WellFormed;
    hide CardsLocal;
    hide SameShown;
    hide IsListing;
    hide IsPublicTemplate;
    hide RowsOf;
    hide Portrait;
    hide Blank;
    hide Unfiled;
    hide Run;
    hide Boards.Apply;
    var m := Run(s, between);
    RunFreezes(s, between, board);
    RunKeepsWellFormed(s, between);
    CardsAreLocal(s);
    CloneKeepsPortrait(m, create, v);
    SameShownSamePortrait(s, m, board, SourceListing(create.ids));
    UnfiledBlank(Portrait(m, SourceListing(create.ids)));
  }

  // ---- Publish and instantiate ----------------------------------------------------------

  function Publish(board: Id): Op {
    BoardCall(Boards.SetVisibility(board, PUBLIC))
  }

  lemma PublishShows(s: Tables, board: Id)
    requires WellFormed(s) && board in s.boards && s.boards[board].isTemplate
    ensures IsPublicTemplate(Step(s, Publish(board)), board) && SameContent(s, Step(s, Publish(board)), board)
  {
    hide WellFormed;
    hide SameContent;
    SameRowsSameContent(s, Step(s, Publish(board)), board);
  }

  lemma NewTemplate(s: Tables, make: Boards.BoardOp)
    requires WellFormed(s) && make.MakeTemplate? && Boards.Apply(s, make).Ok?
    ensures var t := Boards.Apply(s, make).value; make.ids.board in t.boards && t.boards[make.ids.board].isTemplate
  {
    hide WellFormed;
    hide BoardsExist;
    hide IdsUsed;
    hide Boards.Apply;
    Parts(s);
    CloneCallRows(s, make);
  }

  /**
   * A board made into a template and published, any run of calls on any boards by anybody that
   * neither deletes the template nor changes its visibility, and a board made from the template: it
   * shows what the first board showed, undone, apart from files.
   */
  lemma PublishedRoundTrip(s: Tables, make: Boards.BoardOp, between: seq<Op>, create: Boards.BoardOp, v: Listing)
    requires WellFormed(s) && make.MakeTemplate? && Boards.Apply(s, make).Ok?
    requires forall op | op in between :: !Unpublishes(op, make.ids.board)
    requires create.CreateFromTemplate? && create.board == make.ids.board
    requires var m := Run(Step(Boards.Apply(s, make).value, Publish(make.ids.board)), between);
             Boards.Apply(m, create).Ok? && IsListing(Boards.Apply(m, create).value, create.ids.board, v)
    ensures var r := Boards.Apply(Run(Step(Boards.Apply(s, make).value, Publish(make.ids.board)), between),
              create).value;
            && RowsOf(r, v) && RowsOf(s, SourceListing(make.ids))
            && Unfiled(Portrait(r, v)) == Blank(Unfiled(Portrait(s, SourceListing(make.ids))))
  {
    hide WellFormed;
    hide CardsLocal;
    hide SameContent;
    hide SameShown;
    hide IsListing;
    hide IsPublicTemplate;
    hide RowsOf;
    hide Portrait;
    hide Blank;
    hide Unfiled;
    hide Unpublishes;
    hide Run;
    hide Step;
    hide Boards.Apply;
    var template := make.ids.board;
    var t := Boards.Apply(s, make).value;
    var p := Step(t, Publish(template));
    Boards.ApplyKeepsWellFormed(s, make);
    NewTemplate(s, make);
    PublishShows(t, template);
    StepKeepsWellFormed(t, Publish(template));
    InstanceOfPublished(p, template, between, create, v);
    FirstPortrait(s, make, t, p, between, SourceListing(create.ids));
    UnfiledBlank(Portrait(s, SourceListing(make.ids)));
    BlankTwice(Unfiled(Portrait(s, SourceListing(make.ids))));
  }

  /** What the published template shows is what its source showed, undone. */
  lemma FirstPortrait(s: Tables, make: Boards.BoardOp, t: Tables, p: Tables, between: seq<Op>, w: Listing)
    requires WellFormed(s) && make.MakeTemplate? && Boards.Apply(s, make) == Ok(t) && WellFormed(t) && WellFormed(p)
    requires SameContent(t, p, make.ids.board) && IsPublicTemplate(p, make.ids.board)
    requires forall op | op in between :: !Unpublishes(op, make.ids.board)
    requires IsListing(Run(p, between), make.ids.board, w)
    ensures RowsOf(p, w) && RowsOf(s, SourceListing(make.ids))
    ensures Portrait(p, w) == Blank(Portrait(s, SourceListing(make.ids)))
  {
    hide WellFormed;
    hide CardsLocal;
    hide SameContent;
    hide SameShown;
    hide IsListing;
    hide IsPublicTemplate;
    hide RowsOf;
    hide Portrait;
    hide Blank;
    hide Unpublishes;
    hide Run;
    hide Boards.Apply;
    var template := make.ids.board;
    RunFreezes(p, between, template);
    ListingOfFrozen(p, Run(p, between), template, w);
    CardsAreLocal(t);
    SameContentSamePortrait(t, p, template, w);
    CloneKeepsPortrait(s, make, w);
  }

  lemma ListingOfFrozen(s: Tables, t: Tables, board: Id, v: Listing)
    requires SameShown(s, t, board) && IsListing(t, board, v)
    ensures IsListing(s, board, v)
  {
    hide IsListing;
    hide SameContent;
    hide SameShown;
    hide Stripped;
    SameShownStripped(s, t, board);
    StrippedListing(s, board, v);
    StrippedListing(t, board, v);
    ListingOfSame(Stripped(s), Stripped(t), board, v);
  }

  lemma ListingOfSame(s: Tables, t: Tables, board: Id, v: Listing)
    requires SameContent(s, t, board) && IsListing(t, board, v)
    ensures IsListing(s, board, v)
  {
    hide IsView;
    hide SameContent;
    SameContentSameOrders(s, t, board);
    hide ListOrders;
    ListedInBoard(t, board, v);
    hide CardOrders;
  }
}
