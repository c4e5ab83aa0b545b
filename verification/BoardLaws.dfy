/**
 * What the calls on boards write, column by column: the rows of a new board, what a copied card
 * keeps of its source, and what goes with a deleted board.
 */
module BoardLaws {
  import opened Types
  import opened Views
  import opened Store
  import Boards
  import opened CardLaws
  import OutlineBoards
  import Cloning
  import Ownership

  // ---- Rows of boards -------------------------------------------------------------------

  /** Only the one row of the boards differs. */
  predicate OnlyBoard(s: Tables, t: Tables, board: Id) {
    && t == s.(boards := t.boards) && t.boards.Keys == s.boards.Keys && board in s.boards
    && forall b | b in s.boards && b != board :: t.boards[b] == s.boards[b]
  }

  lemma CreateWritesBoard(s: Tables, o: Boards.BoardOp)
    requires o.CreateBoard?
    ensures Boards.Apply(s, o).Ok? <==> o.id !in s.used
    ensures Boards.Apply(s, o).Ok? ==>
              var t := Boards.Apply(s, o).value;
              && t == s.(used := s.used + {o.id}, boards := t.boards, members := t.members)
              && o.id in t.boards && t.boards - {o.id} == s.boards - {o.id}
              && (o.id, o.user) in t.members && t.members[(o.id, o.user)] == OWNER
              && t.members - {(o.id, o.user)} == s.members - {(o.id, o.user)}
              && var b := t.boards[o.id];
                b.name == o.name && b.ownerId == o.user && !b.isTemplate && b.visibility.None?
  {
  }

  /** Asking for PUBLIC publishes a template, and asking for PRIVATE withdraws it. */
  lemma SetVisibilityPublishes(s: Tables, o: Boards.BoardOp)
    requires o.SetVisibility?
    ensures var r := Boards.Apply(s, o);
            && (r.Ok? <==> o.board in s.boards && s.boards[o.board].isTemplate)
            && (r.Err? ==> r == Err(NotFound))
    ensures Boards.Apply(s, o).Ok? ==>
              var t := Boards.Apply(s, o).value;
              && OnlyBoard(s, t, o.board)
              && var a, b := s.boards[o.board], t.boards[o.board];
                && b.visibility == Some(o.visibility) && b == a.(visibility := b.visibility)
                && (Open(t, o.board) <==> o.visibility == PRIVATE)
  {
  }

  lemma RenameWritesName(s: Tables, o: Boards.BoardOp)
    requires o.RenameBoard?
    ensures var r := Boards.Apply(s, o); (r.Ok? <==> o.board in s.boards) && (r.Err? ==> r == Err(NotFound))
    ensures Boards.Apply(s, o).Ok? ==>
              var t := Boards.Apply(s, o).value;
              && OnlyBoard(s, t, o.board) && t.boards[o.board].name == o.name
              && t.boards[o.board] == s.boards[o.board].(name := o.name)
  {
  }

  /** What hangs on a deleted board goes with it, and every other row stays as it is. */
  predicate Kept<K(==), V(==)>(before: map<K, V>, after: map<K, V>, k: K, goes: bool) {
    if goes then k !in after else k in after && k in before && after[k] == before[k]
  }

  lemma RemoveTakesBoard(s: Tables, o: Boards.BoardOp)
    requires o.RemoveBoard?
    ensures var r := Boards.Apply(s, o); (r.Ok? <==> o.board in s.boards) && (r.Err? ==> r == Err(NotFound))
    ensures Boards.Apply(s, o).Ok? ==>
              var t := Boards.Apply(s, o).value;
              && t.used == s.used
              && t.boards.Keys <= s.boards.Keys && t.members.Keys <= s.members.Keys && t.lists.Keys <= s.lists.Keys
              && t.cards.Keys <= s.cards.Keys && t.labels.Keys <= s.labels.Keys && t.invites.Keys <= s.invites.Keys
              && t.links.Keys <= s.links.Keys && t.requests.Keys <= s.requests.Keys
              && (forall b | b in s.boards :: Kept(s.boards, t.boards, b, b == o.board))
              && (forall k | k in s.members :: Kept(s.members, t.members, k, k.0 == o.board))
              && (forall l | l in s.lists :: Kept(s.lists, t.lists, l, s.lists[l].boardId == o.board))
              && (forall c | c in s.cards :: Kept(s.cards, t.cards, c, CardInBoard(s, c, o.board)))
              && (forall x | x in s.labels :: Kept(s.labels, t.labels, x, s.labels[x].boardId == o.board))
              && (forall i | i in s.invites :: Kept(s.invites, t.invites, i, s.invites[i].boardId == o.board))
              && (forall b | b in s.links :: Kept(s.links, t.links, b, b == o.board))
              && (forall k | k in s.requests ::
                    Kept(s.requests, t.requests, k, o.board in s.links && s.links[o.board].token == k.0))
  {
  }

  // ---- The new board of a clone ---------------------------------------------------------

  /** Any board can be made a template; a template is used if it is public, and by its owner. */
  predicate MayClone(s: Tables, o: Boards.BoardOp)
    requires Cloning.Clones(o)
  {
    && o.board in s.boards
    && (o.CreateFromTemplate? ==>
          && s.boards[o.board].isTemplate
          && (s.boards[o.board].visibility == Some(PUBLIC) || s.boards[o.board].ownerId == o.user))
  }

  lemma CloneGetsThrough(s: Tables, o: Boards.BoardOp)
    requires Cloning.Clones(o)
    ensures !MayClone(s, o) ==> Boards.Apply(s, o) == Err(NotFound)
    ensures MayClone(s, o) && Boards.IsClone(s, o.board, o.ids) ==> Boards.Apply(s, o).Ok?
  {
    hide Boards.IsClone;
    hide Boards.CloneInto;
  }

  /** A template is private and has no member; a board made from one is its maker's. */
  lemma CloneWritesBoard(s: Tables, o: Boards.BoardOp)
    requires WellFormed(s) && Cloning.Clones(o) && Boards.Apply(s, o).Ok?
    ensures var t, id := Boards.Apply(s, o).value, o.ids.board;
            && id !in s.boards && id in t.boards && t.boards - {id} == s.boards
            && var a, b := s.boards[o.board], t.boards[id];
              && Named(o.newName, a.name, b.name) && b.ownerId == o.user
              && (if o.MakeTemplate? then b.isTemplate && b.visibility == Some(PRIVATE)
                  else !b.isTemplate && b.visibility.None?)
    ensures var t, own := Boards.Apply(s, o).value, (o.ids.board, o.user);
            if o.MakeTemplate? then t.members == s.members
            else own in t.members && t.members[own] == OWNER && t.members - {own} == s.members - {own}
    ensures var t := Boards.Apply(s, o).value;
            t.invites == s.invites && t.links == s.links && t.requests == s.requests
  {
    hide WellFormed;
    hide BoardsExist;
    hide Boards.IsClone;
    hide Boards.ClonedCards;
    hide Boards.ClonedLists;
    hide Boards.ClonedLabels;
    Parts(s);
    Ownership.CloneCallRows(s, o);
    Boards.NewBoardRows(s, o.board, o.user, o.newName, o.ids);
  }

  // ---- Copies of cards ------------------------------------------------------------------

  /** The same checklists with the same items, none of them done. */
  predicate UndoneCopy(a: seq<Checklist>, b: seq<Checklist>) {
    && |b| == |a|
    && forall i | 0 <= i < |a| ::
      && b[i].title == a[i].title && b[i].order == a[i].order && |b[i].items| == |a[i].items|
      && forall j | 0 <= j < |a[i].items| ::
        && b[i].items[j].content == a[i].items[j].content && b[i].items[j].order == a[i].items[j].order
        && !b[i].items[j].isDone
  }

  /** The same files under the same keys, uploaded by whoever copies. */
  predicate FilesCopied(a: map<string, Attachment>, b: map<string, Attachment>, uploader: Id) {
    && b.Keys == a.Keys
    && forall key | key in a ::
      && b[key].filename == a[key].filename && b[key].mimeType == a[key].mimeType && b[key].size == a[key].size
      && b[key].uploadedById == uploader
  }

  /** What a copy takes over from a card and what it leaves behind. */
  predicate ContentCopied(a: Card, b: Card, uploader: Id) {
    && b.content.title == a.content.title && b.content.description == a.content.description
    && b.content.priority == a.content.priority && b.content.cover == a.content.cover
    && b.content.dueDate.None? && b.content.reminderOffset.None? && !b.content.isDone && b.version == 0
    && UndoneCopy(a.checklists, b.checklists) && FilesCopied(a.attachments, b.attachments, uploader)
  }

  lemma CopyTakesContent(card: Card, order: real, listId: Id, labels: set<Id>, assignees: set<Id>, uploader: Id)
    ensures var copy := CopiedCard(card, order, listId, labels, assignees, uploader);
            && ContentCopied(card, copy, uploader)
            && copy.order == order && copy.listId == listId && copy.labels == labels && copy.assignees == assignees
  {
  }

  /** A blank portrait differs from the portrait in that no item is done. */
  lemma BlankUndoes(p: seq<Cloning.ListPortrait>, i: nat, j: nat)
    requires i < |p| && j < |p[i].cards|
    ensures var b := Cloning.Blank(p);
            && |b| == |p| && b[i].title == p[i].title && |b[i].cards| == |p[i].cards|
            && UndoneCopy(p[i].cards[j].checklists, b[i].cards[j].checklists)
            && b[i].cards[j] == p[i].cards[j].(checklists := b[i].cards[j].checklists)
  {
  }

  lemma CopyOfRow(s: Tables, ids: Boards.CloneIds, c: Id, uploader: Id)
    requires Boards.RowsExist(s, ids) && c in ids.cards
    ensures var a, b := s.cards[c], Boards.ClonedCard(s, ids, c, uploader);
            && ContentCopied(a, b, uploader) && b.listId == ids.lists[a.listId] && b.assignees == {}
            && b.labels == Image(ids.labels, a.labels)
  {
    hide ContentCopied;
    hide CopiedCard;
    var row := s.cards[c];
    CopyTakesContent(row, Rank(ids.viewCards[row.listId], c), ids.lists[row.listId], Image(ids.labels, row.labels), {},
                     uploader);
  }

  /** Every card of the source has its copy, in the copy of its list, with the copies of its labels. */
  lemma CloneWritesCard(s: Tables, o: Boards.BoardOp, c: Id)
    requires WellFormed(s) && Cloning.Clones(o) && Boards.Apply(s, o).Ok? && CardInBoard(s, c, o.board)
    ensures var r, ids := Boards.Apply(s, o).value, o.ids;
            && c in ids.cards && ids.cards[c] in r.cards && s.cards[c].listId in ids.lists
            && var a, b := s.cards[c], r.cards[ids.cards[c]];
              && ContentCopied(a, b, o.user) && b.listId == ids.lists[a.listId] && b.assignees == {}
              && (forall x | x in a.labels :: x in ids.labels && ids.labels[x] in b.labels)
              && forall y | y in b.labels :: exists x :: x in a.labels && x in ids.labels && ids.labels[x] == y
  {
    hide WellFormed;
    hide BoardsExist;
    hide IdsUsed;
    hide Injective;
    hide ContentCopied;
    hide OutlineBoards.Covers;
    hide Boards.Apply;
    hide Boards.CloneInto;
    hide Boards.RowsExist;
    hide Boards.ClonedCard;
    var ids := o.ids;
    var t := Cloning.CloneCall(s, o);
    Cloning.CoveredIds(t, o.board, ids);
    Cloning.ClonedRows(t, o.board, ids, o.user);
    Cloning.ClonedCardRow(t, o.board, ids, o.user, c);
    CopyOfRow(t, ids, c, o.user);
    Cloning.CardsAreLocal(t);
    Cloning.CardLabelsAreCloned(t, o.board, ids, c);
  }

  /** Lists keep their titles, labels their names and colors, and all belong to the new board. */
  lemma CloneWritesLists(s: Tables, o: Boards.BoardOp)
    requires WellFormed(s) && Cloning.Clones(o) && Boards.Apply(s, o).Ok?
    ensures var r, ids := Boards.Apply(s, o).value, o.ids;
            && (forall l | ListInBoard(s, l, o.board) ::
                  && l in ids.lists && ids.lists[l] in r.lists
                  && r.lists[ids.lists[l]].title == s.lists[l].title && r.lists[ids.lists[l]].boardId == ids.board)
            && (forall x | LabelInBoard(s, x, o.board) ::
                  && x in ids.labels && ids.labels[x] in r.labels
                  && r.labels[ids.labels[x]].name == s.labels[x].name
                  && r.labels[ids.labels[x]].color == s.labels[x].color
                  && r.labels[ids.labels[x]].boardId == ids.board)
  {
    hide WellFormed;
    hide BoardsExist;
    hide IdsUsed;
    hide Injective;
    hide OutlineBoards.Covers;
    hide Boards.Apply;
    hide Boards.CloneInto;
    hide Boards.RowsExist;
    hide Boards.ClonedCard;
    var t := Cloning.CloneCall(s, o);
    Cloning.CoveredIds(t, o.board, o.ids);
    Cloning.ClonedRows(t, o.board, o.ids, o.user);
  }

  /** No row that was there before changes. */
  lemma CloneLeavesRows(s: Tables, o: Boards.BoardOp)
    requires WellFormed(s) && Cloning.Clones(o) && Boards.Apply(s, o).Ok?
    ensures var r := Boards.Apply(s, o).value;
            && (forall x | x in s.labels :: x in r.labels && r.labels[x] == s.labels[x])
            && (forall l | l in s.lists :: l in r.lists && r.lists[l] == s.lists[l])
            && (forall c | c in s.cards :: c in r.cards && r.cards[c] == s.cards[c])
  {
    hide WellFormed;
    hide OutlineBoards.Covers;
    hide Boards.Apply;
    hide Boards.CloneInto;
    hide Boards.RowsExist;
    hide Injective;
    var t := Cloning.CloneCall(s, o);
    Cloning.OldRows(t, o.board, o.ids, o.user);
  }
}
