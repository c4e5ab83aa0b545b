/**
 * What cloning a board means. A portrait shows a board's content without any ids: the lists and
 * their cards in sequence, label names and colors, checklists and attachments. A clone has its
 * source's portrait with every checklist item undone, and nothing else.
 */
module Cloning {
  import opened Types
  import opened Views
  import opened Store
  import Boards
  import opened Outline
  import opened OutlineBoards
  import opened CrossBoard
  import opened Isolation
  import opened Service

  datatype File = File(filename: string, mimeType: Option<string>, size: Option<int>)

  datatype CardPortrait = CardPortrait(
    title: string,
    description: Option<string>,
    priority: Priority,
    cover: Option<string>,
    labels: set<Pair>,
    checklists: seq<Checklist>,
    files: map<string, File>)

  datatype ListPortrait = ListPortrait(title: string, cards: seq<CardPortrait>)

  function FilesOf(attachments: map<string, Attachment>): map<string, File> {
    map key | key in attachments :: File(attachments[key].filename, attachments[key].mimeType, attachments[key].size)
  }

  function CardOf(s: Tables, card: Card): CardPortrait {
    CardPortrait(card.content.title, card.content.description, card.content.priority, card.content.cover,
                 PairsOf(s, card), card.checklists, FilesOf(card.attachments))
  }

  function CardsOf(s: Tables, v: seq<Id>): seq<CardPortrait>
    requires forall c | c in v :: c in s.cards
  {
    seq(|v|, i requires 0 <= i < |v| => CardOf(s, s.cards[v[i]]))
  }

  /** The sorted answers to "all lists of the board" and "all cards of the list". */
  datatype Listing = Listing(lists: seq<Id>, cards: map<Id, seq<Id>>)

  predicate RowsOf(s: Tables, v: Listing) {
    forall l | l in v.lists :: l in s.lists && l in v.cards && forall c | c in v.cards[l] :: c in s.cards
  }

  ghost predicate IsListing(s: Tables, board: Id, v: Listing) {
    && IsView(v.lists, ListOrders(s, board))
    && (forall l | l in v.lists :: l in v.cards && IsView(v.cards[l], CardOrders(s, l)))
  }

  function Portrait(s: Tables, v: Listing): (r: seq<ListPortrait>)
    requires RowsOf(s, v)
    ensures |r| == |v.lists|
  {
    seq(|v.lists|, i requires 0 <= i < |v.lists| => ListPortrait(s.lists[v.lists[i]].title, CardsOf(s,
          v.cards[v.lists[i]])))
  }

  function BlankCard(p: CardPortrait): CardPortrait {
    p.(checklists := AllUndone(p.checklists))
  }

  function BlankCards(p: seq<CardPortrait>): seq<CardPortrait> {
    seq(|p|, i requires 0 <= i < |p| => BlankCard(p[i]))
  }

  function BlankList(p: ListPortrait): ListPortrait {
    p.(cards := BlankCards(p.cards))
  }

  /** The portrait with every checklist item undone. */
  function Blank(p: seq<ListPortrait>): seq<ListPortrait> {
    seq(|p|, i requires 0 <= i < |p| => BlankList(p[i]))
  }

  lemma ListingHasRows(s: Tables, board: Id, v: Listing)
    requires IsListing(s, board, v)
    ensures RowsOf(s, v)
  {
    forall l | l in v.lists
      ensures l in s.lists && forall c | c in v.cards[l] :: c in s.cards
    {
      assert l in ListOrders(s, board);
      assert forall c | c in v.cards[l] :: c in CardOrders(s, l);
    }
  }

  lemma UndoneTwice(checklists: seq<Checklist>)
    ensures AllUndone(AllUndone(checklists)) == AllUndone(checklists)
  {
    var once, twice := AllUndone(checklists), AllUndone(AllUndone(checklists));
    forall i | 0 <= i < |checklists|
      ensures twice[i] == once[i]
    {
      assert Undone(Undone(checklists[i])).items == Undone(checklists[i]).items;
    }
  }

  /** Cloning a clone undoes nothing more. */
  lemma BlankTwice(p: seq<ListPortrait>)
    ensures Blank(Blank(p)) == Blank(p)
  {
    forall i | 0 <= i < |p|
      ensures Blank(Blank(p))[i] == Blank(p)[i]
    {
      BlankListTwice(p[i]);
    }
  }

  lemma BlankListTwice(p: ListPortrait)
    ensures BlankList(BlankList(p)) == BlankList(p)
  {
    var once, twice := BlankCards(p.cards), BlankCards(BlankCards(p.cards));
    forall i | 0 <= i < |p.cards|
      ensures twice[i] == once[i]
    {
      UndoneTwice(p.cards[i].checklists);
    }
    assert twice == once;
  }

  // ---- One card -------------------------------------------------------------------------

  /** Each cloned label has its copy in `t`, with the same name and color. */
  predicate LabelsCarried(s: Tables, t: Tables, ids: Boards.CloneIds) {
    forall x | x in ids.labels :: x in s.labels && ids.labels[x] in t.labels
        && PairOf(t.labels[ids.labels[x]]) == PairOf(s.labels[x])
  }

  /** The copy's labels are copies of its labels, none of which is dropped. */
  lemma ClonedCardKeepsPairs(s: Tables, t: Tables, ids: Boards.CloneIds, card: Card, copy: Card)
    requires forall x | x in card.labels :: x in s.labels && x in ids.labels
    requires LabelsCarried(s, t, ids)
    requires copy.labels == Image(ids.labels, card.labels)
    ensures PairsOf(t, copy) == PairsOf(s, card)
  {
    forall x | x in card.labels
      ensures PairOf(s.labels[x]) in PairsOf(t, copy)
    {
      assert ids.labels[x] in copy.labels;
      assert PairOf(t.labels[ids.labels[x]]) == PairOf(s.labels[x]);
    }
    forall y | y in copy.labels && y in t.labels
      ensures PairOf(t.labels[y]) in PairsOf(s, card)
    {
      var x :| x in card.labels && x in ids.labels && ids.labels[x] == y;
    }
  }

  lemma SameFiles(attachments: map<string, Attachment>, uploader: Id)
    ensures FilesOf(Reattached(attachments, uploader)) == FilesOf(attachments)
  {
  }

  lemma CopyPortrait(s: Tables, t: Tables, card: Card, order: real, list: Id, labels: set<Id>, uploader: Id)
    requires PairsOf(t, CopiedCard(card, order, list, labels, {}, uploader)) == PairsOf(s, card)
    ensures CardOf(t, CopiedCard(card, order, list, labels, {}, uploader)) == BlankCard(CardOf(s, card))
  {
    hide PairsOf;
    hide AllUndone;
    SameFiles(card.attachments, uploader);
  }

  lemma CoveredIds(s: Tables, board: Id, ids: Boards.CloneIds)
    requires Covers(s, board, ids)
    ensures forall x :: x in ids.labels <==> LabelInBoard(s, x, board)
    ensures forall l :: l in ids.lists <==> ListInBoard(s, l, board)
    ensures forall c :: c in ids.cards <==> CardInBoard(s, c, board)
    ensures ids.viewCards.Keys == ids.lists.Keys
    ensures forall l | l in ids.lists :: IsView(ids.viewCards[l], CardOrders(s, l))
  {
    hide IsView;
    hide Injective;
    hide CardOrders;
    hide ListOrders;
    hide Boards.RowsExist;
  }

  /** The three tables after cloning, row by row. */
  lemma ClonedRows(s: Tables, board: Id, ids: Boards.CloneIds, user: Id)
    requires Covers(s, board, ids)
    requires Injective(ids.labels) && Injective(ids.lists) && Injective(ids.cards) && Boards.RowsExist(s, ids)
    ensures var t := Boards.CloneInto(s, ids, user);
            && t.labels.Keys == s.labels.Keys + ids.labels.Values
            && t.lists.Keys == s.lists.Keys + ids.lists.Values
            && t.cards.Keys == s.cards.Keys + ids.cards.Values
            && (forall x | x in ids.labels :: t.labels[ids.labels[x]] == s.labels[x].(boardId := ids.board))
            && (forall l | l in ids.lists ::
                t.lists[ids.lists[l]] == List(s.lists[l].title, Rank(ids.viewLists, l), ids.board))
            && (forall c | c in ids.cards :: t.cards[ids.cards[c]] == Boards.ClonedCard(s, ids, c, user))
  {
    hide Covers;
    hide Rank;
    hide Boards.ClonedCard;
  }

  lemma OldRows(s: Tables, board: Id, ids: Boards.CloneIds, user: Id)
    requires Covers(s, board, ids)
    requires Injective(ids.labels) && Injective(ids.lists) && Injective(ids.cards) && Boards.RowsExist(s, ids)
    ensures var t := Boards.CloneInto(s, ids, user);
            && (forall x | x in s.labels :: x in t.labels && t.labels[x] == s.labels[x])
            && (forall l | l in s.lists :: l in t.lists && t.lists[l] == s.lists[l])
            && (forall c | c in s.cards :: c in t.cards && t.cards[c] == s.cards[c])
  {
    hide Covers;
    hide Boards.RowsExist;
    hide Injective;
    CoveredRows(s, board, ids);
    ClonedRows(s, board, ids, user);
  }

  lemma CardLabelsAreCloned(s: Tables, board: Id, ids: Boards.CloneIds, c: Id)
    requires CardsLocal(s) && Covers(s, board, ids) && c in ids.cards
    ensures c in s.cards && forall x | x in s.cards[c].labels :: x in s.labels && x in ids.labels
  {
    hide Covers;
    CoveredIds(s, board, ids);
    assert CardInBoard(s, c, board);
    assert CardLocal(s.cards[c], s.lists, s.labels, s.members);
  }

  lemma ClonesCarryLabels(s: Tables, board: Id, ids: Boards.CloneIds, user: Id)
    requires Covers(s, board, ids)
    requires Injective(ids.labels) && Injective(ids.lists) && Injective(ids.cards) && Boards.RowsExist(s, ids)
    ensures LabelsCarried(s, Boards.CloneInto(s, ids, user), ids)
  {
    hide Covers;
    hide Injective;
    hide Boards.RowsExist;
    hide Boards.CloneInto;
    hide Boards.ClonedCard;
    hide Rank;
    ClonedRows(s, board, ids, user);
    CoveredIds(s, board, ids);
  }

  /** The row of a clone is a copy of its card without assignees. */
  lemma ClonedRow(s: Tables, board: Id, ids: Boards.CloneIds, user: Id, c: Id)
    requires Covers(s, board, ids) && c in ids.cards && c in s.cards
    requires Injective(ids.labels) && Injective(ids.lists) && Injective(ids.cards) && Boards.RowsExist(s, ids)
    ensures var t := Boards.CloneInto(s, ids, user);
            ids.cards[c] in t.cards && exists order, list ::
              t.cards[ids.cards[c]] == CopiedCard(s.cards[c], order, list, Image(ids.labels, s.cards[c].labels), {},
                  user)
  {
    hide Covers;
    hide Injective;
    hide Boards.CloneInto;
    hide CopiedCard;
    hide Rank;
    hide Image;
    ClonedRows(s, board, ids, user);
    assert Boards.ClonedCard(s, ids, c, user) ==
           CopiedCard(s.cards[c], Rank(ids.viewCards[s.cards[c].listId], c), ids.lists[s.cards[c].listId],
                      Image(ids.labels, s.cards[c].labels), {}, user);
  }

  lemma ClonedCardPortrait(s: Tables, board: Id, ids: Boards.CloneIds, user: Id, c: Id)
    requires CardsLocal(s) && Covers(s, board, ids) && c in ids.cards && c in s.cards
    requires Injective(ids.labels) && Injective(ids.lists) && Injective(ids.cards) && Boards.RowsExist(s, ids)
    ensures var t := Boards.CloneInto(s, ids, user);
            ids.cards[c] in t.cards && CardOf(t, t.cards[ids.cards[c]]) == BlankCard(CardOf(s, s.cards[c]))
  {
    hide CardsLocal;
    hide Covers;
    hide Injective;
    hide PairsOf;
    hide CopiedCard;
    hide CardOf;
    hide BlankCard;
    hide Boards.RowsExist;
    hide Boards.CloneInto;
    var t := Boards.CloneInto(s, ids, user);
    CardLabelsAreCloned(s, board, ids, c);
    ClonesCarryLabels(s, board, ids, user);
    ClonedRow(s, board, ids, user, c);
    var row, labels := s.cards[c], Image(ids.labels, s.cards[c].labels);
    var order, list :| t.cards[ids.cards[c]] == CopiedCard(row, order, list, labels, {}, user);
    hide Image;
    CopiedLabels(row, order, list, labels, user);
    ClonedCardKeepsPairs(s, t, ids, row, t.cards[ids.cards[c]]);
    CopyPortrait(s, t, row, order, list, labels, user);
  }

  lemma CopiedLabels(card: Card, order: real, list: Id, labels: set<Id>, uploader: Id)
    ensures CopiedCard(card, order, list, labels, {}, uploader).labels == labels
  {
  }

  // ---- The whole board ------------------------------------------------------------------

  lemma CloneListOrders(s: Tables, board: Id, ids: Boards.CloneIds, user: Id)
    requires Covers(s, board, ids) && ListOrders(s, ids.board) == map[]
    requires Injective(ids.labels) && Injective(ids.lists) && Injective(ids.cards) && Boards.RowsExist(s, ids)
    ensures ListOrders(Boards.CloneInto(s, ids, user), ids.board) == RankOrders(Boards.ClonedLists(s, ids))
  {
    hide Covers;
    hide Injective;
    hide ListOrders;
    hide RankOrders;
    hide Boards.RowsExist;
    hide Boards.ClonedLists;
    hide Boards.ClonedCards;
    CoveredRows(s, board, ids);
    ClonedRankOrders(s, ids);
    var rows := Boards.ClonedLists(s, ids);
    var u := AddLabels(Issue(s, Boards.NewIds(ids)), Boards.ClonedLabels(s, ids));
    SameListsSameOrders(s, u, ids.board);
    AddedListOrders(u, rows, ids.board, ids.board);
    MergeNothing(RankOrders(rows));
    SameListsSameOrders(AddLists(u, rows), Boards.CloneInto(s, ids, user), ids.board);
  }

  lemma CloneOrders(s: Tables, board: Id, ids: Boards.CloneIds, user: Id, list: Id)
    requires Covers(s, board, ids) && list in ids.lists
    requires Injective(ids.labels) && Injective(ids.lists) && Injective(ids.cards) && Boards.RowsExist(s, ids)
    ensures CardOrders(Boards.CloneInto(s, ids, user), ids.lists[list]) == RowOrders(Boards.ClonedCards(s, ids, user),
          ids.lists[list])
  {
    hide Covers;
    hide Injective;
    hide CardOrders;
    hide RowOrders;
    hide Boards.RowsExist;
    hide Boards.ClonedLists;
    hide Boards.ClonedCards;
    CoveredRows(s, board, ids);
    ClonedCardKeys(s, ids, user);
    var w, cards := Boards.WithClonedLists(s, ids), Boards.ClonedCards(s, ids, user);
    SameCardsSameOrders(s, w, ids.lists[list]);
    AddedOrders(w, cards, ids.lists[list]);
    MergeNothing(RowOrders(cards, ids.lists[list]));
  }

  /** The clone can be listed in one way only: as its source was. */
  lemma CloneListing(s: Tables, board: Id, ids: Boards.CloneIds, user: Id, v: Listing)
    requires Covers(s, board, ids) && ListOrders(s, ids.board) == map[]
    requires Injective(ids.labels) && Injective(ids.lists) && Injective(ids.cards) && Boards.RowsExist(s, ids)
    requires IsListing(Boards.CloneInto(s, ids, user), ids.board, v)
    ensures v.lists == Renamed(ids.lists, ids.viewLists)
    ensures forall l | l in ids.lists :: ids.lists[l] in v.cards && l in ids.viewCards
              && v.cards[ids.lists[l]] == Renamed(ids.cards, ids.viewCards[l])
  {
    hide Covers;
    hide Shows;
    hide IsView;
    hide Injective;
    hide CardOrders;
    hide ListOrders;
    hide RowOrders;
    hide RankOrders;
    hide Renamed;
    hide Boards.RowsExist;
    hide Boards.CloneInto;
    hide Boards.ClonedLists;
    hide Boards.ClonedCards;
    var t := Boards.CloneInto(s, ids, user);
    CoveredIds(s, board, ids);
    CloneListOrders(s, board, ids, user);
    ClonedBoardShows(s, board, ids);
    ShowsOnly(Renamed(ids.lists, ids.viewLists), ListOrders(t, ids.board), v.lists);
    forall l | l in ids.lists
      ensures ids.lists[l] in v.cards && v.cards[ids.lists[l]] == Renamed(ids.cards, ids.viewCards[l])
    {
      RenamedHas(s, board, ids, l);
      CloneOrders(s, board, ids, user, l);
      ClonedListShows(s, board, ids, user, l);
      ShowsOnly(Renamed(ids.cards, ids.viewCards[l]), CardOrders(t, ids.lists[l]), v.cards[ids.lists[l]]);
    }
  }

  lemma RenamedHas(s: Tables, board: Id, ids: Boards.CloneIds, list: Id)
    requires Covers(s, board, ids) && list in ids.lists
    ensures ids.lists[list] in Renamed(ids.lists, ids.viewLists)
  {
    hide Covers;
    CoveredRows(s, board, ids);
    hide ListOrders;
    ViewMembers(ids.viewLists, ListOrders(s, board));
    assert Renamed(ids.lists, ids.viewLists)[IndexOf(ids.viewLists, list)] == ids.lists[list];
  }

  lemma ClonedCardsPortrait(s: Tables, board: Id, ids: Boards.CloneIds, user: Id, list: Id)
    requires CardsLocal(s) && Covers(s, board, ids) && list in ids.lists && list in ids.viewCards
    requires Injective(ids.labels) && Injective(ids.lists) && Injective(ids.cards) && Boards.RowsExist(s, ids)
    ensures var t, v := Boards.CloneInto(s, ids, user), ids.viewCards[list];
            && (forall c | c in v :: c in s.cards)
            && (forall c | c in Renamed(ids.cards, v) :: c in t.cards)
            && CardsOf(t, Renamed(ids.cards, v)) == BlankCards(CardsOf(s, v))
  {
    hide CardsLocal;
    hide Covers;
    hide Injective;
    hide IsView;
    hide CardOf;
    hide Boards.RowsExist;
    hide Boards.CloneInto;
    var t, v := Boards.CloneInto(s, ids, user), ids.viewCards[list];
    var w := Renamed(ids.cards, v);
    ListedCards(s, board, ids, list);
    forall i | 0 <= i < |v|
      ensures v[i] in s.cards && w[i] in t.cards && CardOf(t, t.cards[w[i]]) == BlankCard(CardOf(s, s.cards[v[i]]))
    {
      ClonedCardPortrait(s, board, ids, user, v[i]);
    }
    hide BlankCard;
    assert CardsOf(t, w) == BlankCards(CardsOf(s, v));
  }

  lemma ListedCards(s: Tables, board: Id, ids: Boards.CloneIds, list: Id)
    requires Covers(s, board, ids) && list in ids.lists && list in ids.viewCards
    ensures forall c | c in ids.viewCards[list] :: c in s.cards && c in ids.cards
  {
    hide Covers;
    CoveredIds(s, board, ids);
    CoveredList(s, board, ids, list);
    ViewMembers(ids.viewCards[list], CardOrders(s, list));
  }

  function SourceListing(ids: Boards.CloneIds): Listing {
    Listing(ids.viewLists, ids.viewCards)
  }

  lemma SourceIsListed(s: Tables, board: Id, ids: Boards.CloneIds)
    requires Covers(s, board, ids)
    ensures IsListing(s, board, SourceListing(ids)) && RowsOf(s, SourceListing(ids))
    ensures forall l | l in ids.viewLists :: l in ids.lists
  {
    hide Covers;
    CoveredRows(s, board, ids);
    CoveredIds(s, board, ids);
    hide CardOrders;
    ViewMembers(ids.viewLists, ListOrders(s, board));
    hide IsView;
    hide ListOrders;
    hide RowsOf;
    ListingHasRows(s, board, SourceListing(ids));
  }

  lemma ClonePortrait(s: Tables, board: Id, ids: Boards.CloneIds, user: Id, v: Listing)
    requires CardsLocal(s) && Covers(s, board, ids) && ListOrders(s, ids.board) == map[]
    requires Injective(ids.labels) && Injective(ids.lists) && Injective(ids.cards) && Boards.RowsExist(s, ids)
    requires IsListing(Boards.CloneInto(s, ids, user), ids.board, v)
    ensures RowsOf(Boards.CloneInto(s, ids, user), v) && RowsOf(s, SourceListing(ids))
    ensures Portrait(Boards.CloneInto(s, ids, user), v) == Blank(Portrait(s, SourceListing(ids)))
  {
    hide CardsLocal;
    hide Covers;
    hide Injective;
    hide IsView;
    hide CardOrders;
    hide ListOrders;
    hide CardsOf;
    hide BlankCards;
    hide RowsOf;
    hide Boards.RowsExist;
    hide Boards.CloneInto;
    var t := Boards.CloneInto(s, ids, user);
    SourceIsListed(s, board, ids);
    ListingHasRows(t, ids.board, v);
    CloneListing(s, board, ids, user, v);
    ClonedRows(s, board, ids, user);
    CoveredIds(s, board, ids);
    forall i | 0 <= i < |v.lists|
      ensures Portrait(t, v)[i] == BlankList(Portrait(s, SourceListing(ids))[i])
    {
      ClonedCardsPortrait(s, board, ids, user, ids.viewLists[i]);
      ListPortraits(t, v, i);
      ListPortraits(s, SourceListing(ids), i);
    }
  }

  lemma ListPortraits(s: Tables, v: Listing, i: nat)
    requires RowsOf(s, v) && i < |v.lists|
    ensures var l := v.lists[i];
            && l in s.lists && l in v.cards && (forall c | c in v.cards[l] :: c in s.cards)
            && Portrait(s, v)[i] == ListPortrait(s.lists[l].title, CardsOf(s, v.cards[l]))
  {
    hide CardsOf;
  }

  // ---- The two calls that clone ---------------------------------------------------------

  predicate Clones(o: Boards.BoardOp) {
    o.MakeTemplate? || o.CreateFromTemplate?
  }

  /** The tables between writing the new board's row and cloning the content. */
  lemma CloneCall(s: Tables, o: Boards.BoardOp) returns (t: Tables)
    requires WellFormed(s) && Clones(o) && Boards.Apply(s, o).Ok?
    ensures t.lists == s.lists && t.cards == s.cards && t.labels == s.labels
    ensures WellFormed(t) && Covers(t, o.board, o.ids) && ListOrders(t, o.ids.board) == map[]
    ensures Injective(o.ids.labels) && Injective(o.ids.lists) && Injective(o.ids.cards) && Boards.RowsExist(t, o.ids)
    ensures Boards.Apply(s, o).value == Boards.CloneInto(t, o.ids, o.user)
  {
    hide WellFormed;
    hide BoardsExist;
    hide IdsUsed;
    hide Covers;
    hide Injective;
    hide ListOrders;
    hide Boards.IsClone;
    hide Boards.RowsExist;
    hide Boards.CloneInto;
    hide Boards.WithTemplate;
    hide Boards.WithBoard;
    Parts(s);
    CloneUsesFreshBoard(s, o.board, o.ids);
    Boards.WithBoardKeepsWellFormed(s, o.board, o.user, o.newName, o.ids.board);
    Boards.NewBoardRows(s, o.board, o.user, o.newName, o.ids);
    t := if o.MakeTemplate? then Boards.WithTemplate(s, o.board, o.user, o.newName, o.ids.board)
         else Boards.WithBoard(s, o.board, o.user, o.newName, o.ids.board);
    NewBoardRow(s, t, o.board, o.user, o.newName, o.ids.board);
    NewBoardIsEmpty(s, t, o.ids.board);
    ClonesCover(s, t, o.board, o.ids);
    CoveredRows(t, o.board, o.ids);
  }

  lemma SameRowsSamePortrait(s: Tables, t: Tables, board: Id, v: Listing)
    requires t.lists == s.lists && t.cards == s.cards && t.labels == s.labels
    requires IsListing(t, board, v) && RowsOf(t, v)
    ensures IsListing(s, board, v) && RowsOf(s, v) && Portrait(s, v) == Portrait(t, v)
  {
    SameListsSameOrders(s, t, board);
    forall l | l in v.lists
      ensures CardOrders(s, l) == CardOrders(t, l)
    {
      SameCardsSameOrders(s, t, l);
    }
    hide IsView;
    hide CardOrders;
    hide ListOrders;
    forall card
      ensures PairsOf(s, card) == PairsOf(t, card)
    {
    }
    hide PairsOf;
    assert RowsOf(s, v);
    forall i | 0 <= i < |v.lists|
      ensures Portrait(s, v)[i] == Portrait(t, v)[i]
    {
      assert CardsOf(s, v.cards[v.lists[i]]) == CardsOf(t, v.cards[v.lists[i]]);
    }
  }

  /**
   * Both calls reproduce the source: however the database sorts the new board, its portrait is
   * the source's with every item undone. The listing of the source is the one the call read.
   */
  lemma CloneKeepsPortrait(s: Tables, o: Boards.BoardOp, v: Listing)
    requires WellFormed(s) && Clones(o) && Boards.Apply(s, o).Ok?
    requires IsListing(Boards.Apply(s, o).value, o.ids.board, v)
    ensures IsListing(s, o.board, SourceListing(o.ids))
    ensures RowsOf(s, SourceListing(o.ids)) && RowsOf(Boards.Apply(s, o).value, v)
    ensures Portrait(Boards.Apply(s, o).value, v) == Blank(Portrait(s, SourceListing(o.ids)))
  {
    hide Covers;
    hide IsListing;
    hide RowsOf;
    hide Injective;
    hide Portrait;
    hide Blank;
    hide Boards.Apply;
    hide Boards.RowsExist;
    hide Boards.CloneInto;
    hide ListOrders;
    hide WellFormed;
    var t := CloneCall(s, o);
    CardsAreLocal(t);
    hide CardsLocal;
    ClonePortrait(t, o.board, o.ids, o.user, v);
    SourceIsListed(t, o.board, o.ids);
    SameRowsSamePortrait(s, t, o.board, SourceListing(o.ids));
  }

  lemma CardsAreLocal(s: Tables)
    requires WellFormed(s)
    ensures CardsLocal(s)
  {
    hide CardsLocal;
  }

  lemma NothingThereYet(s: Tables, board: Id)
    requires WellFormed(s) && board !in s.boards
    ensures forall x | x in s.labels :: s.labels[x].boardId != board
    ensures forall l | l in s.lists :: s.lists[l].boardId != board
    ensures forall c | c in s.cards :: s.cards[c].listId in s.lists
  {
    hide IdsUsed;
    assert forall c | c in s.cards :: CardLocal(s.cards[c], s.lists, s.labels, s.members);
  }

  lemma CloneTargetIsNew(s: Tables, o: Boards.BoardOp)
    requires WellFormed(s) && Clones(o) && Boards.Apply(s, o).Ok?
    ensures o.ids.board !in s.boards
  {
    hide WellFormed;
    hide IdsUsed;
    hide BoardsExist;
    hide Boards.IsClone;
    hide Boards.RowsExist;
    hide Boards.CloneInto;
    Parts(s);
    CloneUsesFreshBoard(s, o.board, o.ids);
  }

  /**
   * The rows of the new board are the clones and nothing else: each label, list and card of the
   * source once.
   */
  lemma CloneIsExact(s: Tables, o: Boards.BoardOp)
    requires WellFormed(s) && Clones(o) && Boards.Apply(s, o).Ok?
    ensures var r, ids := Boards.Apply(s, o).value, o.ids;
      && (forall n :: LabelInBoard(r, n, ids.board) <==> n in ids.labels.Values)
      && (forall n :: ListInBoard(r, n, ids.board) <==> n in ids.lists.Values)
      && (forall n :: CardInBoard(r, n, ids.board) <==> n in ids.cards.Values)
    ensures Injective(o.ids.labels) && Injective(o.ids.lists) && Injective(o.ids.cards)
    ensures forall x :: x in o.ids.labels <==> LabelInBoard(s, x, o.board)
    ensures forall l :: l in o.ids.lists <==> ListInBoard(s, l, o.board)
    ensures forall c :: c in o.ids.cards <==> CardInBoard(s, c, o.board)
  {
    hide WellFormed;
    hide Covers;
    hide Injective;
    hide Boards.Apply;
    hide Boards.RowsExist;
    hide Boards.CloneInto;
    hide ListOrders;
    var t := CloneCall(s, o);
    CoveredIds(t, o.board, o.ids);
    CloneTargetIsNew(s, o);
    NothingThereYet(s, o.ids.board);
    ExactRows(s, t, o.board, o.ids, o.user);
  }

  lemma ExactRows(s: Tables, t: Tables, board: Id, ids: Boards.CloneIds, user: Id)
    requires t.lists == s.lists && t.cards == s.cards && t.labels == s.labels
    requires forall x | x in s.labels :: s.labels[x].boardId != ids.board
    requires forall l | l in s.lists :: s.lists[l].boardId != ids.board
    requires forall c | c in s.cards :: s.cards[c].listId in s.lists
    requires Covers(t, board, ids)
    requires Injective(ids.labels) && Injective(ids.lists) && Injective(ids.cards) && Boards.RowsExist(t, ids)
    ensures var r := Boards.CloneInto(t, ids, user);
      && (forall n :: LabelInBoard(r, n, ids.board) <==> n in ids.labels.Values)
      && (forall n :: ListInBoard(r, n, ids.board) <==> n in ids.lists.Values)
      && (forall n :: CardInBoard(r, n, ids.board) <==> n in ids.cards.Values)
  {
    hide Covers;
    hide Injective;
    hide Boards.RowsExist;
    hide Boards.CloneInto;
    hide Boards.ClonedCard;
    hide Rank;
    var r := Boards.CloneInto(t, ids, user);
    ClonedRows(t, board, ids, user);
    OldRows(t, board, ids, user);
    forall n
      ensures ListInBoard(r, n, ids.board) <==> n in ids.lists.Values
      ensures LabelInBoard(r, n, ids.board) <==> n in ids.labels.Values
    {
      if n in ids.lists.Values {
        var l :| l in ids.lists && ids.lists[l] == n;
      }
      if n in ids.labels.Values {
        var x :| x in ids.labels && ids.labels[x] == n;
      }
    }
    CoveredRows(t, board, ids);
    forall n
      ensures CardInBoard(r, n, ids.board) <==> n in ids.cards.Values
    {
      if n in ids.cards.Values {
        var c :| c in ids.cards && ids.cards[c] == n;
        ClonedCardRow(t, board, ids, user, c);
        assert ids.lists[t.cards[c].listId] in ids.lists.Values;
      }
    }
  }

  /** A cloned card is in the clone of its list, bare of dates, assignees and progress. */
  lemma ClonedCardRow(s: Tables, board: Id, ids: Boards.CloneIds, user: Id, c: Id)
    requires Covers(s, board, ids) && Boards.RowsExist(s, ids) && c in ids.cards
    ensures c in s.cards && s.cards[c].listId in ids.lists && s.cards[c].listId in ids.viewCards
    ensures c in ids.viewCards[s.cards[c].listId]
    ensures var row := Boards.ClonedCard(s, ids, c, user);
            && row.listId == ids.lists[s.cards[c].listId]
            && row.order == Rank(ids.viewCards[s.cards[c].listId], c)
            && row.version == 0 && row.assignees == {} && row.labels == Image(ids.labels, s.cards[c].labels)
            && row.content.dueDate.None? && row.content.reminderOffset.None? && !row.content.isDone
            && forall key | key in row.attachments :: row.attachments[key].uploadedById == user
  {
    hide Covers;
    hide Rank;
    hide AllUndone;
  }

  /** Lists and cards of the new board are numbered 1000, 2000, 3000, ... in the source's sequence. */
  lemma CloneNumbering(s: Tables, o: Boards.BoardOp, i: nat, j: nat)
    requires WellFormed(s) && Clones(o) && Boards.Apply(s, o).Ok? && i < |o.ids.viewLists|
    requires o.ids.viewLists[i] in o.ids.viewCards && j < |o.ids.viewCards[o.ids.viewLists[i]]|
    ensures var r, ids := Boards.Apply(s, o).value, o.ids;
            var l := ids.viewLists[i];
            var c := ids.viewCards[l][j];
      && l in ids.lists && ids.lists[l] in r.lists && r.lists[ids.lists[l]].order == (i + 1) as real * ORDER_STEP
      && c in ids.cards && ids.cards[c] in r.cards && r.cards[ids.cards[c]].order == (j + 1) as real * ORDER_STEP
      && r.cards[ids.cards[c]].listId == ids.lists[l]
  {
    hide WellFormed;
    hide Covers;
    hide IsView;
    hide Injective;
    hide Boards.Apply;
    hide Boards.RowsExist;
    hide Boards.CloneInto;
    hide Boards.ClonedCard;
    hide ListOrders;
    var t := CloneCall(s, o);
    var l := o.ids.viewLists[i];
    var c := o.ids.viewCards[l][j];
    CoveredRows(t, o.board, o.ids);
    SourceIsListed(t, o.board, o.ids);
    hide IsListing;
    hide RowsOf;
    ListedCards(t, o.board, o.ids, l);
    CoveredList(t, o.board, o.ids, l);
    ClonedRows(t, o.board, o.ids, o.user);
    ClonedCardRow(t, o.board, o.ids, o.user, c);
    ViewMembers(o.ids.viewLists, ListOrders(t, o.board));
    ViewMembers(o.ids.viewCards[l], CardOrders(t, l));
    assert c in CardOrders(t, l);
    IndexOfAt(o.ids.viewLists, i);
    IndexOfAt(o.ids.viewCards[l], j);
  }

  // ---- Round trip -----------------------------------------------------------------------

  lemma SameContentSamePortrait(s: Tables, t: Tables, board: Id, v: Listing)
    requires CardsLocal(s) && SameContent(s, t, board) && IsListing(t, board, v)
    ensures IsListing(s, board, v) && RowsOf(s, v) && RowsOf(t, v) && Portrait(s, v) == Portrait(t, v)
  {
    hide IsView;
    hide CardsLocal;
    hide SameContent;
    hide Portrait;
    hide RowsOf;
    SameContentSameOrders(s, t, board);
    SameContentParts(s, t, board);
    hide ListOrders;
    ListedInBoard(t, board, v);
    hide CardOrders;
    ListingHasRows(t, board, v);
    ListingHasRows(s, board, v);
    forall i | 0 <= i < |v.lists|
      ensures Portrait(s, v)[i] == Portrait(t, v)[i]
    {
      ListPortraits(s, v, i);
      ListPortraits(t, v, i);
      SameCardPortraits(s, t, board, v.cards[v.lists[i]]);
    }
    SamePortrait(s, t, v);
  }

  lemma SamePortrait(s: Tables, t: Tables, v: Listing)
    requires RowsOf(s, v) && RowsOf(t, v) && forall i | 0 <= i < |v.lists| :: Portrait(s, v)[i] == Portrait(t, v)[i]
    ensures Portrait(s, v) == Portrait(t, v)
  {
    hide RowsOf;
    hide CardsOf;
  }

  lemma SameContentParts(s: Tables, t: Tables, board: Id)
    requires SameContent(s, t, board)
    ensures SameLists(s, t, board) && SameLabels(s, t, board) && SameCards(s, t, board)
  {
    hide SameLists;
    hide SameLabels;
    hide SameCards;
  }

  lemma SameContentSameOrders(s: Tables, t: Tables, board: Id)
    requires SameContent(s, t, board)
    ensures ListOrders(s, board) == ListOrders(t, board)
    ensures forall l | ListInBoard(t, l, board) :: CardOrders(s, l) == CardOrders(t, l)
  {
    hide SameLabels;
    forall l
      ensures l in ListOrders(s, board) <==> l in ListOrders(t, board)
      ensures l in ListOrders(s, board) ==> ListOrders(s, board)[l] == ListOrders(t, board)[l]
    {
      assert ListInBoard(s, l, board) <==> ListInBoard(t, l, board);
    }
    forall l | ListInBoard(t, l, board)
      ensures CardOrders(s, l) == CardOrders(t, l)
    {
      SameCardOrders(s, t, board, l);
    }
  }

  lemma SameCardOrders(s: Tables, t: Tables, board: Id, l: Id)
    requires SameLists(s, t, board) && SameCards(s, t, board) && ListInBoard(t, l, board)
    ensures CardOrders(s, l) == CardOrders(t, l)
  {
    assert ListInBoard(s, l, board);
    forall c
      ensures c in s.cards && s.cards[c].listId == l <==> c in t.cards && t.cards[c].listId == l
      ensures c in s.cards && s.cards[c].listId == l ==> t.cards[c] == s.cards[c]
    {
      assert CardInBoard(s, c, board) <==> CardInBoard(t, c, board);
    }
  }

  lemma ListedInBoard(s: Tables, board: Id, v: Listing)
    requires IsListing(s, board, v)
    ensures forall l | l in v.lists :: ListInBoard(s, l, board)
    ensures forall l | l in v.lists :: l in v.cards && forall c | c in v.cards[l] :: CardInBoard(s, c, board)
  {
    ViewMembers(v.lists, ListOrders(s, board));
    forall l | l in v.lists
      ensures ListInBoard(s, l, board) && forall c | c in v.cards[l] :: CardInBoard(s, c, board)
    {
      assert l in ListOrders(s, board);
      ViewMembers(v.cards[l], CardOrders(s, l));
    }
  }

  lemma SameCardPortraits(s: Tables, t: Tables, board: Id, v: seq<Id>)
    requires CardsLocal(s) && SameLists(s, t, board) && SameLabels(s, t, board) && SameCards(s, t, board)
    requires forall c | c in v :: c in s.cards && c in t.cards && CardInBoard(t, c, board)
    ensures CardsOf(s, v) == CardsOf(t, v)
  {
    forall i | 0 <= i < |v|
      ensures CardOf(s, s.cards[v[i]]) == CardOf(t, t.cards[v[i]])
    {
      assert CardInBoard(s, v[i], board);
      SameLabelsSamePairs(s, t, board, v[i]);
    }
  }

  lemma SameLabelsSamePairs(s: Tables, t: Tables, board: Id, c: Id)
    requires CardsLocal(s) && SameLabels(s, t, board) && CardInBoard(s, c, board)
    ensures PairsOf(s, s.cards[c]) == PairsOf(t, s.cards[c])
  {
    assert CardLocal(s.cards[c], s.lists, s.labels, s.members);
    forall x | x in s.cards[c].labels
      ensures x in s.labels && x in t.labels && t.labels[x] == s.labels[x]
    {
      assert LabelInBoard(s, x, board);
    }
  }

  /**
   * Publish and instantiate: a board made into a template, any run of calls on other boards, and
   * a board made from that template. The new board shows what the first one showed, undone.
   */
  lemma TemplateRoundTrip(s: Tables, make: Boards.BoardOp, between: seq<Op>, create: Boards.BoardOp, v: Listing)
    requires WellFormed(s) && make.MakeTemplate? && Boards.Apply(s, make).Ok?
    requires forall op | op in between :: make.ids.board !in Touched(op)
    requires create.CreateFromTemplate? && create.board == make.ids.board
    requires var m := Run(Boards.Apply(s, make).value, between);
             Boards.Apply(m, create).Ok? && IsListing(Boards.Apply(m, create).value, create.ids.board, v)
    ensures var r := Boards.Apply(Run(Boards.Apply(s, make).value, between), create).value;
            RowsOf(r, v) && RowsOf(s, SourceListing(make.ids))
                && Portrait(r, v) == Blank(Portrait(s, SourceListing(make.ids)))
  {
    hide WellFormed;
    hide CardsLocal;
    hide SameContent;
    hide IsListing;
    hide RowsOf;
    hide Portrait;
    hide Blank;
    hide Touched;
    hide Run;
    hide Boards.Apply;
    var template := make.ids.board;
    var t := Boards.Apply(s, make).value;
    var m := Run(t, between);
    Boards.ApplyKeepsWellFormed(s, make);
    TemplateExists(s, make);
    RunIsolates(t, between, template);
    RunKeepsWellFormed(t, between);
    CloneKeepsPortrait(m, create, v);
    CardsAreLocal(t);
    SameContentSamePortrait(t, m, template, SourceListing(create.ids));
    CloneKeepsPortrait(s, make, SourceListing(create.ids));
    BlankTwice(Portrait(s, SourceListing(make.ids)));
  }

  lemma TemplateExists(s: Tables, make: Boards.BoardOp)
    requires WellFormed(s) && make.MakeTemplate? && Boards.Apply(s, make).Ok?
    ensures make.ids.board in Boards.Apply(s, make).value.boards
  {
    hide WellFormed;
    hide Boards.IsClone;
    hide Boards.RowsExist;
    hide Injective;
    Boards.NewBoardRows(s, make.board, make.user, make.newName, make.ids);
    CloneKeepsBoards(Boards.WithTemplate(s, make.board, make.user, make.newName, make.ids.board), make.ids, make.user);
  }

  lemma CloneKeepsBoards(s: Tables, ids: Boards.CloneIds, user: Id)
    requires Injective(ids.labels) && Injective(ids.lists) && Injective(ids.cards) && Boards.RowsExist(s, ids)
    ensures Boards.CloneInto(s, ids, user).boards == s.boards
  {
  }
}
