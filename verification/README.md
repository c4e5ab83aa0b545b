# Verified model of the board service

The repository is a board application: boards with members, lists, ordered cards, labels,
checklists and attachments in a relational database, Redis keys that speed up decisions about
it, and sessions over access and refresh tokens. This project models its services and caches in
Dafny and proves what they keep over whole runs.

## How it is built

The model has two layers.

*Specification.* `Store` holds the tables as one value and the referential invariant. `Lists`,
`Cards`, `Labels`, `Boards`, `Members` and `Invites` say for each service call what the tables
are afterwards, or which error it throws; `Service` puts the calls together into steps and runs.
`Sessions` does the same for tokens, blacklist, resets and sockets. What the database or an id
generator is free to choose is an argument of the call: fresh ids, and the answers to ORDER BY
queries, where rows with equal orders may come in any relative position. An answer that cannot
be given ends the call with the error `Impossible` and no change; a call that throws changes
nothing.

*Services.* `ListsService`, `CardsService`, `BoardsService` with `BoardCloner`, `InviteServices`,
`AuthService` and `RedisService` are classes whose methods follow the source statement by
statement, loops included. Each method's postcondition equates the new tables, cached entries,
jobs and emitted events with the specification of the call, for every error as well, and never
with an impossible answer. `RedisService` keeps string keys with expiry; its invariant ties them to
the versions, blacklist, resets, roles and details that the specification speaks of, and the session
and board services go through it.

The theorems are about the specification:

- `Views`, `Positions`, `CrowdedMoves`, `Bisection`: sorted answers and the order formulas.
- `Outline`, `OutlineLists`, `OutlineCards`, `OutlineBoards`, `OutlineRuns`: the sparse orders
  refine editing plain sequences, over whole runs.
- `CrossBoard`, `Emptying`, `Cloning`, `Publishing`: what moving a list to another board, moving all
  cards, cloning a board and publishing a template mean.
- `Isolation`, `History`: what calls leave alone, and optimistic locking.
- `Ownership`, `OwnershipRuns`, `InviteRuns`: one owner per board, single-use invites, join requests.
- `RoleCache`, `GuardedRuns`, `TemplateCache`, `Reminders`: cached entries and pending jobs against the database.
- `SessionRuns`, `VersionRace`: rotation, logout, resets, and the version cache step by step.
- `MarkdownImages`: the scanner and rewriter of image links.
- `CardLaws`, `ListLaws`, `PlaceLaws`, `BoardLaws`, `MemberLaws`, `SessionLaws`, `CacheLaws`,
  `MarkdownLaws`: when each call gets through, what it writes, column by column, and what it leaves
  alone, told without the functions that the specification is made of.

## What turned out differently from the documentation

- Moves that name neighbours are documented as placing a row between them. The code keeps that
  exactly when the other rows leave room (`Positions.NeighbourMoveExact`, for any orders): two
  neighbours need not be adjacent, and a single neighbour fixes one side only. At the spacing that
  the services give, a move next to an inner row ties with the row after it
  (`CrowdedMoves.InnerNeighbourTies`). What is kept always is the side (`Positions.SideIsKept`).
- The role of an e-mail invite is not checked. An invite as OWNER gives a board a second owner
  (`Ownership.OwnerInviteBreaks`), and the guards let it through (`GuardedRuns.OwnerInviteGetsThrough`);
  `Ownership.AcceptKeepsSoleOwnerExactly` says when accepting is safe.
- A transfer by somebody other than the owner would in general break the single owner
  (`Members.TransferNeedsOwner` says exactly when). The guard of the route rules it out as long as there
  is a single owner, and there is one exactly as long as nobody accepts an e-mail invite as OWNER
  (`GuardedRuns.GuardedSoleOwnerExactly`). After that a second OWNER can give the board away.
- A transfer evicts the entries of two users only. If the old owner is neither of them, and the old owner
  has no member role OWNER, which only a template's owner may lack, the old owner keeps passing OWNER
  routes until the entry expires (`GuardedRuns.OustedOwnerPasses`). This is the only way in which the role
  cache over-grants (`RoleCache.NeverOverGrantsExactly`), and it cannot happen on other boards
  (`RoleCache.CacheNeverOverGrants`).
- Joining by invite evicts no cached role, so a new member may be turned away until the entry expires
  (`GuardedRuns.JoiningMayBeMissed`). These two are the only ways in which the guard decides differently
  from the database (`RoleCache.DecisionsAgreeExactly`).
- If the token version's read and cache write are separate steps, logging out everywhere may be undone
  for a while: a guard that read the version before may cache it after, however much later
  (`VersionRace.InterleavingLosesEquality`). Cache and database agree after every eviction exactly if
  no version is raised while a read of that user is outstanding (`VersionRace.LogoutsHoldExactly`); and
  an outdated token is refused from thirty seconds on, whatever happens, exactly if no guard has its
  version still to write (`VersionRace.StaleEntryLapses`).
- Rewriting image links twice equals rewriting once exactly if no URL is a storage key with another
  URL of its own (`MarkdownImages.ResolveTwiceExactly`).

## Model

| member | source | states |
|---|---|---|
| Service.RunKeepsWellFormed | src/cards/cards.service.ts:382-394 | In every state reachable by any calls, each label on a card belongs to the board that owns the card's list and each assignee is a member of that board |
| Service.RunFromEmptyIsWellFormed | src/boards/boards.service.ts:857-892 | The same from the empty database on, with nothing assumed about the first state |
| Service.StepKeepsWellFormed | src/boards/boards.service.ts:837-918 | One call of any service keeps that invariant, whether it gets through or throws |
| Lists.MoveToOtherBoardKeepsWellFormed | src/lists/lists.service.ts:129-212 | A list and its cards change boards without a label or an assignee that is foreign there |
| Lists.ApplyKeepsWellFormed | src/lists/lists.service.ts:35-490 | Creating, renaming, moving, copying, emptying and removing lists keep it |
| Cards.ApplyKeepsWellFormed | src/cards/cards.service.ts:199-444 | Every call on cards keeps it, assignment because of the membership check and moves because they stay in the board |
| Labels.ApplyKeepsWellFormed | src/labels/labels.service.ts:65-101 | Labels are only put on cards of their own board, and a deleted label leaves every card |
| Members.WithoutMemberKeepsWellFormed | src/boards/boards.service.ts:855-863 | Removing a member keeps it only because the same transaction unassigns the user from the board's cards |
| Boards.CloneKeepsWellFormed | src/boards/boards.service.ts:522-586 | A cloned card refers to cloned labels of the new board only |
| Invites.ApplyAddsAtMost | src/invites/invites.service.ts:138-163 | A call on invites or links adds at most one member, to an existing board, and touches no board, list, card or label |
| Views.ViewUnique | src/lists/lists.service.ts:266-273 | With pairwise distinct orders an ORDER BY query has exactly one answer |
| Positions.PositionInserts | src/lists/lists.service.ts:261-282 | Moving to position p yields the other lists with this one inserted at clamp(p-1, 0, n), whatever the orders; distinct orders stay distinct, and then no other answer is possible |
| Positions.BottomAppends | src/cards/cards.service.ts:105-112 | A new bottom order puts the row last and shares no order |
| Positions.TopPrepends | src/cards/cards.service.ts:114-121 | A new top order puts the row first and shares no order |
| Positions.MoveToBottomAppends | src/cards/cards.service.ts:354-359 | A move without neighbours ends last although the maximum is taken over the moved card too |
| Positions.NeighbourMoveInserts | src/cards/cards.service.ts:332-352 | With room around the named place the move removes the row and inserts it there, whatever the orders; distinct orders stay distinct |
| Positions.NeighbourMoveExact | src/cards/cards.service.ts:332-360 | For any orders, ties included: the row stands next to the named neighbours in every answer the database can give if and only if each other row lies below the one neighbour or above the other, and beyond a single neighbour by more than a step |
| Positions.SideIsKept | src/cards/cards.service.ts:344-352 | Without room too, the row stands after the one named neighbour and before the other |
| CrowdedMoves.InnerNeighbourTies | src/cards/cards.service.ts:351-352 | From the empty database: of four cards added one after the other, the last, asked to follow the first, ties with the second, and an answer puts the second between them |
| CrowdedMoves.DistantNeighboursTie | src/cards/cards.service.ts:344-350 | So does a move between two cards that are not adjacent |
| Positions.CopyLandsAfterSource | src/lists/lists.service.ts:336-343 | With distinct orders a copied list stands directly after its source |
| Positions.RunAppends | src/lists/lists.service.ts:428-447 | Rows numbered a step apart above all others follow them in the order they are numbered |
| Bisection.MidpointsExactUntilBound | src/cards/cards.service.ts:344-350 | From a gap of 1000 on a grid of 2^-k, after j choices of a half the gap is 1000/2^j, the midpoint is strictly inside, and it is exact on the grid exactly while j < k + 3 |
| Bisection.GapWidth | src/lists/lists.service.ts:250-256 | Each midpoint insertion halves the gap it falls into, whichever side is taken next |
| OutlineLists.ListCallRefines | src/lists/lists.service.ts:35-490 | Every call on lists is an edit of plain sequences: append, remove, insert at an index, insert next to the source, concatenate |
| OutlineCards.CardCallRefines | src/cards/cards.service.ts:60-330 | Every call on cards is such an edit of the sequences of its lists |
| OutlineBoards.BoardCallRefines | src/boards/boards.service.ts:450-586 | A cloned board repeats the sequences of its source under new names |
| OutlineRuns.RunRefines | src/cards/cards.service.ts:301-360 | Over every run whose neighbour moves have room, orders are distinct in every board and list, and the sorted views are the edited sequences |
| OutlineRuns.RunFromEmptyRefines | src/lists/lists.service.ts:87-127 | The same from the empty database on, with nothing assumed about the first state |
| PlaceLaws.MovesToPosition | src/lists/lists.service.ts:261-282 | Moving to position p, counted from one: a sorted answer has the row first for p <= 1, at p where there is one, and last beyond or without a position, the others as before, and its order half way between its neighbours or a step from the only one; with distinct orders every answer is so |
| PlaceLaws.EndsAreSteps | src/cards/cards.service.ts:105-121 | The bottom order is a step above the greatest and the top order a step below the least, and a step where there is none |
| PlaceLaws.CopyIsHalfWay | src/lists/lists.service.ts:336-343 | A copy goes half way to the next greater order, and a step past its source if there is none |
| ListLaws.CreateWritesList | src/lists/lists.service.ts:35-56 | A new list has its title and board and stands a step above all lists of the board; nothing else changes |
| ListLaws.RenameWritesTitle | src/lists/lists.service.ts:65-85 | Only the title of one list changes |
| ListLaws.RemoveTakesList | src/lists/lists.service.ts:478-490 | A deleted list takes exactly its cards with it |
| ListLaws.MoveWritesOrder | src/lists/lists.service.ts:87-127 | On its board a moved list changes its order and nothing else |
| ListLaws.MoveTakesPosition | src/lists/lists.service.ts:261-282 | It stands where the position says in the board's sequence |
| ListLaws.MoveTakesNeighbours | src/lists/lists.service.ts:232-259 | Or half way between the neighbours, a step past a single one; the errors are exactly those of naming the list itself, a list of another board, a wrong sequence or nothing |
| ListLaws.MoveToOtherBoardTakesPosition | src/lists/lists.service.ts:129-212 | A move to another board gets through exactly if the board exists, the actor is more than a VIEWER there and it is no public template; the list keeps its title and takes the position asked for |
| ListLaws.CopyWritesList | src/lists/lists.service.ts:299-352 | The copy has the title given, or the source's with " (Copy)" behind it, and no list changes |
| ListLaws.CopyTakesPlace | src/lists/lists.service.ts:336-343 | It stands half way to the next list or a step past the source |
| ListLaws.CopyWritesCards | src/lists/lists.service.ts:353-406 | Each card of the list has one copy, numbered 1000, 2000, ... in sequence, with its content, cover, labels, assignees, checklists with every item undone, and files now uploaded by the actor, but no dates; there are no other copies and no card changes |
| ListLaws.MoveAllWritesPlaces | src/lists/lists.service.ts:408-447 | A moved card changes its list and its order and nothing on it, and no other card changes; exactly the named errors stop it |
| Emptying.TargetThenSource | src/lists/lists.service.ts:421-447 | After moving all cards every answer for the target is an answer it had before followed by the source's sequence, ties or not, and the source is empty |
| Emptying.EventsCarryFinalOrders | src/lists/lists.service.ts:430-474 | No card is lost, added or otherwise changed; there is one event per moved card, orders increase strictly, and each event carries the order its card ends up with |
| CrossBoard.MovedCardKeepsPairs | src/lists/lists.service.ts:164-197 | Each moved card keeps its set of (name, color) pairs, and all its labels are labels of the target board |
| CrossBoard.CreatesMissingPairs | src/lists/lists.service.ts:164-178 | Exactly one label is created for each distinct pair that the target board lacked, and none for any other |
| CrossBoard.OldLabelsStay | src/lists/lists.service.ts:166-178 | No existing label of any board is changed or removed |
| CrossBoard.AssigneesSplit | src/lists/lists.service.ts:183-201 | The old assignees are the disjoint union of those kept, who are members of the target board, and those removed and reported |
| CrossBoard.OnlyLabelsAndAssignees | src/lists/lists.service.ts:179-212 | Nothing else changes: the list's title, other lists, other cards, members and every other column stay |
| ListLaws.MoveToOtherBoardWritesCards | src/lists/lists.service.ts:164-212 | After the call a moved card has exactly those of its assignees who are members of the other board, labels of that board with the same names and colors, and every other column as before; all other cards and all labels that were there stay |
| Cloning.CloneKeepsPortrait | src/boards/boards.service.ts:450-586 | However the database sorts the new board, it shows the source's lists and cards in sequence with the same label pairs, checklists and files, every item undone (each item: `BoardLaws.CloneWritesCard`) |
| Cloning.CloneIsExact | src/boards/boards.service.ts:528-586 | The new board's labels, lists and cards are one-to-one with the source's, and there are no others |
| Cloning.CloneNumbering | src/boards/boards.service.ts:537-553 | The i-th list and the j-th card of a list get the orders 1000(i+1) and 1000(j+1) |
| Cloning.ClonedCardRow | src/boards/boards.service.ts:546-582 | A cloned card has no dates, no assignees, is not done, has version 0, and its files belong to the caller |
| Cloning.BlankTwice | src/boards/boards.service.ts:563-571 | Cloning a clone changes nothing more |
| BoardLaws.CloneWritesCard | src/boards/boards.service.ts:545-583 | After making a template or a board from one, every card of the source has its copy: title, description, priority, cover, the checklists with their titles and orders, each item with its content and order and not done, the same files uploaded by the caller, no dates, version 0, in the copy of its list, with exactly the copies of its labels and no assignees |
| BoardLaws.CloneWritesLists | src/boards/boards.service.ts:528-543 | Lists keep their titles and labels their names and colors, on the new board |
| BoardLaws.CloneWritesBoard | src/boards/boards.service.ts:450-520 | The new row: the name given or the source's, owned by the caller, a private template without members, or a board with its maker as OWNER |
| BoardLaws.CloneGetsThrough | src/boards/boards.service.ts:450-475 | Any board can be made a template; a template is used if it is public or the caller's own, and is otherwise not found |
| BoardLaws.CloneLeavesRows | src/boards/boards.service.ts:522-586 | No list, card or label that was there before changes |
| BoardLaws.BlankUndoes | src/boards/boards.service.ts:563-571 | What an undone portrait is: the same titles, orders, contents, labels and files, and no item done |
| BoardLaws.CreateWritesBoard | src/boards/boards.service.ts:171-183 | A new board is no template, and its maker is its one member and OWNER; nothing else changes |
| BoardLaws.SetVisibilityPublishes | src/boards/boards.service.ts:588-607 | Afterwards the template is closed to edits exactly if PUBLIC was asked for; only templates have a visibility, and nothing else changes |
| BoardLaws.RenameWritesName | src/boards/boards.service.ts:961-967 | Only the name of one board changes |
| BoardLaws.RemoveTakesBoard | src/boards/boards.service.ts:969-985 | Members, lists, cards, labels, invites, the link and its requests go with a deleted board, and no other row of any table goes or changes |
| Cloning.TemplateRoundTrip | src/boards/boards.service.ts:450-520 | A board made into a template, any run of calls addressed to other boards, and a board made from the template: the last shows what the first showed, undone |
| Publishing.InstanceOfPublished | src/boards/boards.service.ts:450-487 | A board made from a public template, after any run that neither deletes the template nor changes its visibility, shows what the template showed at first, undone, apart from the files of its cards |
| Publishing.PublishedRoundTrip | src/boards/boards.service.ts:450-607 | A board made into a template and published, any such run by anybody on any board, and a board made from the template: it shows what the first board showed, undone, apart from files |
| Isolation.StepIsolates | src/lists/lists.service.ts:512-519 | No call changes the content of a board it is not addressed to |
| Isolation.RunIsolates | src/cards/cards.service.ts:471-487 | Nor does any run of such calls |
| Isolation.PublicTemplateIsFrozen | src/boards/template-guard.util.ts:5-20 | While a template is public no call but its deletion changes its lists, labels or anything its cards show: every writer of those passes the edit guard |
| Publishing.RunFreezes | src/boards/template-guard.util.ts:5-20 | The same over every run that neither deletes the template nor changes its visibility |
| History.StepKeepsContents | src/cards/cards.service.ts:199-249 | Only creating and updating a card write its protected columns; copies are new, undated and at version 0 |
| History.VersionCountsSuccesses | src/cards/cards.service.ts:229-249 | After any run the version is the old one plus the number of updates that got through; with none the protected columns are unchanged |
| History.NoLostUpdate | src/cards/cards.service.ts:229-249 | An update sent with a version read earlier gets through if and only if nobody's update did in between, and then it overwrites exactly the values that were read (which columns: `CardLaws.UpdateWritesNamedColumns`) |
| History.OneSuccessPerVersion | src/cards/cards.service.ts:229-249 | Of all updates sent with one version at most one gets through |
| CardLaws.UpdateWritesNamedColumns | src/cards/cards.service.ts:199-249 | An update gets through exactly for a card of the board, outside public templates, at the version sent; then each of the seven columns separately has the value asked for if the request names it and its old value otherwise, and nothing else on this or any card changes but the version |
| CardLaws.CreateWritesCard | src/cards/cards.service.ts:60-103 | A new card has what the request says but is not done, with no labels, assignees, checklists or files, a step above the last card of its list or below the first; nothing else changes |
| CardLaws.RemoveTakesOneCard | src/cards/cards.service.ts:251-269 | Deleting takes one card, and exactly the two errors stop it |
| CardLaws.MoveWritesPlace | src/cards/cards.service.ts:301-330 | A move changes the list, if one is named, and the order of one card, and no other column or row; the list has to be of the same board |
| CardLaws.MoveWritesOrder | src/cards/cards.service.ts:332-352 | The order is half way between two neighbours and a step past a single one; two neighbours in the wrong sequence are refused |
| CardLaws.MoveWithoutNeighbours | src/cards/cards.service.ts:354-359 | Without neighbours the card stands a step above every card of the list |
| CardLaws.MoveRefusesNeighbours | src/cards/cards.service.ts:362-380 | Naming the moved card itself is a bad request, naming a card outside the list is not found |
| CardLaws.AssignAddsOne | src/cards/cards.service.ts:382-421 | Afterwards the user is on the card and the other assignees stay; it gets through exactly for a member of the board |
| CardLaws.UnassignTakesOne | src/cards/cards.service.ts:423-444 | Afterwards the user is off the card and the other assignees stay |
| CardLaws.CreateWritesLabel | src/labels/labels.service.ts:21-34 | A new label has the name, color and board asked for; no other label changes |
| CardLaws.UpdateWritesLabel | src/labels/labels.service.ts:43-63 | Name and color separately are written if named and kept otherwise |
| CardLaws.RemoveTakesOneLabel | src/labels/labels.service.ts:65-77 | A deleted label leaves every card, and no other label leaves any |
| CardLaws.AssignPutsLabel | src/labels/labels.service.ts:79-101 | Afterwards the label is on the card, or off it, the other labels stay, and both have to be of the board |
| CardLaws.ChildRowsAreWritten | src/checklists/checklists.service.ts:21-35 | Writing checklists or attachments changes that column of one card; checklists of a public template are refused |
| Ownership.RunKeepsSoleOwner | src/boards/boards.service.ts:920-959 | Over every run in which the owner transfers and no e-mail invite offers OWNER, each board that is not a template has one OWNER, the user its row names |
| Ownership.RunFromEmptyKeepsSoleOwner | src/boards/boards.service.ts:171-183 | The same from the empty database on |
| OwnershipRuns.StepSoleOwnerExactly | src/boards/boards.service.ts:748-959 | Of all calls two break the single owner, and they always do: accepting an e-mail invite as OWNER by somebody who is neither the owner nor a member, and a transfer that gets through by somebody other than the owner to somebody other than the owner while the owner has the role OWNER |
| OwnershipRuns.SoleOwnerThroughout | src/boards/boards.service.ts:920-959 | All along a run every board has its one owner if and only if no call of the run is one of those, whatever else is called by whomever |
| OwnershipRuns.SoleOwnerFromEmptyExactly | src/boards/boards.service.ts:171-183 | The same from the empty database on, with nothing assumed |
| OwnershipRuns.StepKeepsLinksLess | src/invites/invite-links.service.ts:35-80 | No call makes a link offer ownership |
| OwnershipRuns.RunKeepsOwners | src/boards/boards.service.ts:786-959 | Over every run, whoever calls with whatever, the owner of a board that is no template has the role OWNER |
| MemberLaws.UpdateWritesRole | src/boards/boards.service.ts:786-835 | A role is changed if and only if the target is a member other than an OWNER, the role is below OWNER, and the caller is an OWNER wherever ADMIN is taken or given; then the target has the role asked for and every other membership is as before |
| MemberLaws.UpdateOpensRoutes | src/boards/boards.service.ts:786-835 | After it a route is open to the target exactly when the new role is one of those required or greater, or the target owns the board |
| MemberLaws.AddMakesMember | src/boards/boards.service.ts:748-784 | A member is added with the role asked for, MEMBER without one, never OWNER, and only once |
| MemberLaws.RemoveTakesMember | src/boards/boards.service.ts:837-872 | The membership goes with the user's assignments on the board's cards and nothing else |
| MemberLaws.LeavingTakesMember | src/boards/boards.service.ts:874-902 | So it does for whoever leaves, which an OWNER cannot |
| MemberLaws.TransferSwapsRoles | src/boards/boards.service.ts:920-959 | The new owner is OWNER and named by the board's row, the caller is ADMIN, and no other membership changes |
| MemberLaws.InviteReplacesOpenOnes | src/invites/invites.service.ts:32-93 | Exactly the open invites of the address to the board give way to one with the role asked for, for seven days |
| MemberLaws.RevokeTakesInvite | src/invites/invites.service.ts:109-118 | Only an invite of the board is deleted, and only that one |
| MemberLaws.AcceptGetsThrough | src/invites/invites.service.ts:138-175 | Accepting needs an invite that is open and in time, and then the invited address |
| MemberLaws.AcceptMakesMember | src/invites/invites.service.ts:138-163 | Who accepts is a member with the invite's role, or keeps the role held already, and the invite is used up |
| MemberLaws.AddressesFoldCase | src/invites/invites.service.ts:141-142 | Addresses are compared without regard to the case of ASCII letters, and to nothing else |
| MemberLaws.LinkReplacesOldOne | src/invites/invite-links.service.ts:35-61 | A new link has the role and permission asked for, never OWNER, and takes the requests of the old one away |
| MemberLaws.UpdateWritesLink | src/invites/invite-links.service.ts:68-80 | Role and permission separately are written if named and kept otherwise |
| MemberLaws.RevokeTakesLink | src/invites/invite-links.service.ts:82-86 | The link goes with its requests and nothing else |
| MemberLaws.JoinByPermission | src/invites/invite-links.service.ts:97-129 | An open link makes a member with its role, one that asks for approval makes a pending request, and a member already is a conflict |
| MemberLaws.JoinNeedsLink | src/invites/invite-links.service.ts:217-223 | A token of no link is not found |
| MemberLaws.DecisionIsKept | src/invites/invite-links.service.ts:148-178 | A pending request is approved, which makes a member with the link's role, or rejected, which does not; a decided one is a conflict |
| Ownership.StepKeepsSoleOwner | src/boards/boards.service.ts:748-959 | Adding, changing, removing and leaving members, transfers, clones, link joins and approvals keep that, and no link or open invite offers ownership |
| Ownership.SoleOwnerMeans | src/boards/boards.service.ts:171-183 | A member has the role OWNER exactly if the board's row names the user |
| Members.TransferNeedsOwner | src/boards/boards.service.ts:920-959 | A transfer that gets through keeps one owner if and only if the owner calls it, or it goes to the owner, or the owner is not a member with the role OWNER; templates included |
| Ownership.AcceptKeepsSoleOwnerExactly | src/invites/invites.service.ts:138-163 | Accepting an e-mail invite keeps one owner if and only if the user is a member already, the invite's role is not OWNER, or the user is the owner |
| Ownership.OwnerInviteBreaks | src/invites/invites.service.ts:64-73 | Creating a board, inviting to it as OWNER and accepting give two members the role OWNER, because an invite's role is not checked |
| GuardedRuns.OwnerInviteGetsThrough | src/invites/board-invites.controller.ts:23-31 | The guards of the routes let those three requests through, and leave the same tables |
| InviteRuns.AcceptedAtMostOnce | src/invites/invites.service.ts:165-175 | Once an invite has been accepted, nobody can accept it after any further calls |
| InviteRuns.AcceptedInTime | src/invites/invites.service.ts:64-73 | An accepted invite is accepted within seven days, under the invited address, and makes the user a member of its board with its role unless a member already |
| InviteRuns.RunKeepsOnePending | src/invites/invites.service.ts:57-59 | There is never more than one open invite for an address to a board |
| InviteRuns.DecidedAtMostOnce | src/invites/invite-links.service.ts:148-178 | A join request is not decided a second time unless the user asks again |
| InviteRuns.RunKeepsTokens | src/invites/invite-links.service.ts:217-223 | A link token leads to one board at most, in every reachable state |
| InviteRuns.RunFromEmptyKeepsBoth | src/invites/invites.service.ts:57-59 | From the empty database on there is at most one open invite for an address to a board, and one board for a link token |
| RoleCache.DecidesIfBounded | src/common/guard/board-roles.guard.ts:37-99 | The guard lets nobody through whom the database would not if and only if no entry reaches further than the database does now, and decides the same if and only if every entry reaches exactly as far |
| RoleCache.PerformKeepsBounds | src/boards/boards.service.ts:932-958 | A call breaks this if and only if it is a transfer, by somebody other than the owner to somebody other than the owner, while the owner's entry is cached and reaches further than the role the owner is left with; or, for equal decisions, makes somebody other than the owner a member while an entry from before is cached |
| RoleCache.NeverOverGrantsExactly | src/common/guard/board-roles.guard.ts:75-99 | All along a run of guarded requests, checks and expiries, whatever is offered to whomever, the cache never over-grants if and only if no owner is ousted in that way |
| RoleCache.DecisionsAgreeExactly | src/common/guard/board-roles.guard.ts:75-99 | All along such a run every decision equals the database's if and only if, besides, nobody other than the owner becomes a member by invite or link while an entry from before is cached |
| RoleCache.DecisionsFromStart | src/common/guard/board-roles.guard.ts:37-99 | Both results for every run from the empty database and empty cache, with nothing assumed |
| RoleCache.CacheNeverOverGrants | src/common/guard/board-roles.guard.ts:37-99 | On a board that is not a template the cache never over-grants, in every state that any requests lead to from the start |
| CacheLaws.GuardAdmitsEntitled | src/common/guard/board-roles.guard.ts:37-73 | Without an entry to go by, a request is carried out if and only if its sender has the role that it needs: MEMBER for lists, cards, labels and the name, ADMIN for deleting those and for members and invites, OWNER for templates, visibility, deletion and ownership |
| CacheLaws.GuardStopsOthers | src/common/guard/board-roles.guard.ts:37-73 | While no entry reaches further than the database, a request of anybody not entitled changes nothing |
| MemberLaws.AllowsMeans | src/common/guard/board-roles.guard.ts:58-69 | A route is open to everybody if it asks for no role, to the owner, and to members whose role is one of those asked for or greater |
| MemberLaws.MinLevelReached | src/common/guard/board-roles.guard.ts:64 | Reaching the lowest of the levels named is having one of the roles named or a greater one |
| CacheLaws.AccessIsCached | src/common/guard/board-roles.guard.ts:75-99 | A cached access is the answer, otherwise the database's is; an existing board's is kept, and no other entry changes |
| GuardedRuns.OnlyTemplatesAreUpset | src/boards/boards.service.ts:489-520 | Only the owner of a template can be ousted over an entry: a template's owner need not be a member |
| GuardedRuns.OustedOwnerPasses | src/boards/boards.service.ts:932-958 | The input on which it does over-grant, six requests from the start through the guard: the ousted owner of a template passes OWNER routes by an old entry, while the database would let the user pass none |
| GuardedRuns.OwnersPass | src/common/guard/board-roles.guard.ts:58-69 | While there is a single owner, who passes the guard of an OWNER route owns the board |
| GuardedRuns.AfterKeepsInv | src/common/guard/board-roles.guard.ts:75-99 | Over every run of guarded requests in which nobody accepts an e-mail invite as OWNER, the bounds of the cache and the single owner keep each other true, though a transfer evicts two users only |
| GuardedRuns.GuardedSoleOwnerExactly | src/common/guard/board-roles.guard.ts:37-73 | Behind the guard every board has its one owner all along a run if and only if nobody who is neither the owner nor a member accepts an e-mail invite as OWNER |
| GuardedRuns.SoleOwnerFromStartExactly | src/common/guard/board-roles.guard.ts:37-73 | The same for every run from the start, with nothing assumed |
| GuardedRuns.JoiningMayBeMissed | src/invites/invite-links.service.ts:107-111 | A run from the start through the guard: a board, a link, a user turned away by a check, the user joining by the link; after it the guard turns away the new member, whom the database would let through |
| TemplateCache.AfterKeepsCoherent | src/boards/boards.service.ts:588-607 | A cached detail exists for a public template only and agrees with the database on everything the edit guard protects |
| TemplateCache.TemplateDetailIsCurrent | src/boards/boards.service.ts:370-424 | In every reachable state a user who opens a template gets the permission and the lists, labels, cards, versions and checklists that the database holds now |
| TemplateCache.DetailFromStartIsCurrent | src/boards/boards.service.ts:403-424 | The same from the empty database and cache on, with nothing assumed |
| CacheLaws.TemplateShowsContent | src/boards/boards.service.ts:370-401 | Everybody sees a public template, its owner also a private one: exactly its lists, labels and cards |
| CacheLaws.DetailIsCached | src/boards/boards.service.ts:403-424 | A cached detail is the answer, otherwise the database's is; a public template's is kept, a private one's is not |
| Reminders.ScheduleIsOnTime | src/cards/cards.service.ts:271-299 | After scheduling, the card's job is the one its values ask for, or none, and no other card's job changed |
| Reminders.RemindersAreCurrent | src/cards/cards.service.ts:271-299 | In every reachable state a card's pending job fires at its current due date minus its offset, a reminder still ahead is pending, and a job whose card is gone notifies nobody |
| Reminders.RemindersFromStartAreCurrent | src/cards/cards.service.ts:271-299 | The same from the empty database and queue on, with nothing assumed |
| Reminders.RemindedAreMembers | src/notifications/due-reminder.processor.ts:20-40 | Whoever a fired job notifies is assigned to the card now and a member of its board |
| Reminders.RemindedFromStartAreMembers | src/notifications/due-reminder.processor.ts:20-40 | The same in every state reachable from the start |
| CacheLaws.CallsSetReminders | src/cards/cards.service.ts:271-299 | Creating and updating a card set its one job to the due date minus as many minutes as asked for, if that is still to come, and otherwise leave none; removing takes it away; no other call and no other job changes |
| CacheLaws.FiringTakesJob | src/notifications/due-reminder.processor.ts:20-40 | A job fires once and not before its time, and tells exactly the assignees of a card that still has a due date |
| Sessions.RunKeepsSound | src/auth/auth.service.ts:51-275 | Over every run tokens are never ahead of their user's version, a cached version is absent or the database's, and a session has at most one live refresh token and one user and choice of rememberMe |
| Sessions.RotateKeepsSound | src/auth/auth.service.ts:132-151 | Rotation keeps that: the last live token of the session is revoked before the next is stored |
| SessionRuns.ExchangedAtMostOnce | src/auth/auth.service.ts:113-152 | Each refresh token is exchanged at most once, whatever happens in between |
| SessionRuns.RotationReplaces | src/auth/auth.service.ts:132-151 | The exchange revokes the old token, stores a live one of the same session, user and rememberMe, issues an access token at the current version, and touches no other row |
| SessionRuns.OneLiveTokenPerSession | src/auth/auth.service.ts:113-152 | In every reachable state two live refresh tokens of one session are the same token |
| SessionRuns.RevokedIsRefused | src/auth/auth.service.ts:125-130 | A revoked token is refused in all later states |
| SessionRuns.VersionNeverDecreases | src/auth/auth.service.ts:177-180 | A user's token version never goes down |
| SessionRuns.OldAccessIsRefused | src/auth/auth.service.ts:171-187 | Every access token issued to a user before logging out everywhere is refused by the guard in all later states |
| SessionRuns.OldRefreshIsRefused | src/auth/auth.service.ts:171-187 | After it the user has no live refresh token, and none issued before is ever exchanged |
| SessionRuns.CacheIsTransparent | src/common/guard/jwt-auth.guard.ts:46-88 | The guard decides as if it read the version from the database each time |
| SessionRuns.EntryOutlivesToken | src/redis/redis.service.ts:13-18 | The blacklist entry lives at every later moment at which the token has not expired, whatever the fraction of a second |
| SessionRuns.LoggedOutForGood | src/auth/auth.service.ts:154-169 | In every run from the start: after logout the access token is accepted neither by the guard nor by a connecting socket at any later time, and no socket it opened is open |
| SessionRuns.RunFromStart | src/auth/auth.service.ts:51-275 | Every run from the start keeps the invariant of the sessions, and each open socket belongs to the user its token was issued to |
| SessionLaws.LoginIsAcceptedAtOnce | src/auth/auth.service.ts:70-91 | In every state reachable from the start: a login of an existing account is refused with a wrong password and changes nothing; with the right one it succeeds, its access token is accepted by the guard and the gateway at once, and its refresh token can be exchanged |
| SessionLaws.LoginNeedsPassword | src/auth/auth.service.ts:70-78 | Without an account or with a wrong password a login is unauthorized and changes nothing |
| SessionLaws.LoginLetsIn | src/auth/auth.service.ts:70-91 | With the right one it writes one pair of tokens for the account and changes no other token |
| SessionLaws.TokensAreProven | src/auth/auth.service.ts:51-152 | Over every run from the start, each access token was given out in its user's name by a registration, a login with the right password or an exchange, and each refresh token continues a session that its user opened by one of the first two |
| SessionLaws.IssueWrites | src/auth/auth.service.ts:235-275 | The access token lives for the access lifetime, the refresh token and its row for the longer one if the user is remembered and the shorter one if not, both at the user's current version |
| SessionLaws.RegisterLetsIn | src/auth/auth.service.ts:51-68 | An e-mail that is not taken gives a user at version 0 with one pair of tokens, not remembered |
| SessionLaws.RefreshWrites | src/auth/auth.service.ts:113-152 | A token is exchanged if and only if it is signed, unexpired, stored, not revoked and of an existing user; the new pair keeps the user, e-mail, choice and session, the old token is revoked, and no other changes |
| SessionLaws.LogoutWrites | src/auth/auth.service.ts:154-169 | Exactly the refresh token sent along is revoked, exactly the sockets of the access token are closed, and it is listed for the seconds it has left |
| SessionLaws.LogoutAllWrites | src/auth/auth.service.ts:171-187 | Exactly the user's refresh tokens are revoked, sockets closed and cached version evicted, and only the user's version goes up, by one |
| SessionLaws.ForgotPasswordWrites | src/auth/auth.service.ts:189-214 | A reset token for an existing account, for half an hour; without an account nothing changes |
| SessionLaws.ResetPasswordWrites | src/auth/auth.service.ts:216-233 | A live reset token is used up and ends everything of its account, and a lapsed one is refused |
| SessionLaws.ChangePasswordWrites | src/users/users.service.ts:63-98 | Exactly the user's refresh tokens are revoked, after the three checks in turn |
| SessionLaws.RequestCaches | src/common/guard/jwt-auth.guard.ts:72-88 | A request writes nothing but a cached version, the database's, for thirty seconds |
| SessionLaws.GoodTokenIsCached | src/common/guard/jwt-auth.guard.ts:72-88 | After a request with a signed, unexpired token its user's version is cached, and no other entry changes |
| SessionLaws.AcceptsMeans | src/common/guard/jwt-auth.guard.ts:31-70 | The guard accepts exactly a signed, unexpired, unlisted token at its user's current version |
| SessionLaws.ConnectWrites | src/events/events.gateway.ts:57-77 | A socket opens in the name of the token's user exactly for a signed, unexpired, unlisted token |
| SessionRuns.ResetsOnce | src/auth/auth.service.ts:216-222 | A reset token works once |
| SessionRuns.ResetsInTime | src/auth/auth.service.ts:189-233 | It works within thirty minutes, for the account it was made for, and ends all its sessions |
| VersionRace.CachedNeverExceeds | src/common/guard/jwt-auth.guard.ts:72-88 | When the guard's read and its cache write interleave with logging out everywhere, a cached version still never exceeds the database's |
| VersionRace.ExactThroughout | src/common/guard/jwt-auth.guard.ts:72-88 | Cached and stored versions agree at every point of an interleaved run if and only if each write caches a version that is still current and none is raised under a live entry |
| VersionRace.ExactRejectsOutdated | src/common/guard/jwt-auth.guard.ts:59-65 | They agree for a user if and only if no outdated token of the user would be accepted |
| VersionRace.LogoutHoldsExactly | src/auth/auth.service.ts:171-182 | Once the entry is evicted, the cache stays right until the user logs out everywhere again, whatever is interleaved, if and only if no outdated read of the user is outstanding |
| VersionRace.LogoutsHoldExactly | src/auth/auth.service.ts:171-182 | That holds for every user at every point of a run if and only if the run raises no version while a read of that user is outstanding |
| VersionRace.LogoutsFromStartHoldExactly | src/auth/auth.service.ts:171-182 | The same for every run from an empty cache without outstanding reads |
| VersionRace.InterleavingLosesEquality | src/common/guard/jwt-auth.guard.ts:76-87 | The shortest run that breaks it, from a state with an empty cache: a read before and a write after leave an entry that accepts an outdated token |
| VersionRace.StaleEntryLapses | src/common/guard/jwt-auth.guard.ts:82-86 | Thirty seconds from any state on an outdated token is refused, whatever events follow, if and only if no guard has read its version without having written it yet |
| MarkdownImages.MatchIsRegex | src/storage/markdown-images.util.ts:4 | The scanner finds a match exactly when the text begins with an image of the pattern, and then that image |
| MarkdownLaws.FirstImageIsResolved | src/storage/markdown-images.util.ts:12-31 | For any text whose first image of the pattern stands after `pre`: the answer is `pre`, that image with its source resolved, and the answer for what follows |
| MarkdownLaws.NoImageNoChange | src/storage/markdown-images.util.ts:6-18 | A text in which no position begins an image is returned unchanged, and so is no text |
| MarkdownLaws.FirstImageOrNone | src/storage/markdown-images.util.ts:12-15 | One of the two applies to every text |
| MarkdownLaws.CleanMeans | src/storage/markdown-images.util.ts:4 | An alternative text holds no closing bracket; a source is not empty and holds no closing parenthesis or white space |
| MarkdownLaws.StorageKeysBegin | src/storage/storage-keys.util.ts:4-39 | A storage key begins with one of the five prefixes |
| MarkdownImages.RenderScan | src/storage/markdown-images.util.ts:12-15 | The matches found and the text between them make up the whole input; that every match is found is `MarkdownLaws.FirstImageIsResolved` |
| MarkdownImages.BatchedIsPerMatch | src/storage/markdown-images.util.ts:12-31 | Rewriting through the map of distinct keys equals resolving each match on its own |
| MarkdownImages.RescanExact | src/storage/markdown-images.util.ts:24-31 | Scanning the output gives the input's matches with only storage-key sources replaced and all other text unchanged, if and only if every URL obtained is free of white space and closing parentheses |
| MarkdownImages.ResolveTwiceExactly | src/storage/markdown-images.util.ts:6-32 | With usable URLs rewriting twice equals rewriting once if and only if no URL is itself a storage key that has another URL |
| MarkdownImages.ResolveTwice | src/storage/markdown-images.util.ts:6-32 | Rewriting twice equals rewriting once when the URLs obtained are usable as image sources and none is itself a storage key |
| ListsService.Service.ComputeOrderByPosition | src/lists/lists.service.ts:261-282 | The order computed is the one of the specification for some sorted answer of the database |
| ListsService.Service.ComputeOrderByNeighbors | src/lists/lists.service.ts:232-259 | Result and errors of neighbour moves are the specification's |
| ListsService.Service.CollectLabels | src/lists/lists.service.ts:141-151 | Both loops together collect exactly the labels that occur on the list's cards |
| ListsService.Service.RemapLabels | src/lists/lists.service.ts:164-178 | The loop finds or creates one label of the target board per label, one per distinct pair |
| ListsService.Service.RewriteCards | src/lists/lists.service.ts:180-202 | The loop rewrites exactly the list's cards and reports each removed assignment once |
| ListsService.Service.MoveToOtherBoard | src/lists/lists.service.ts:129-230 | The rows afterwards are the specification's, and the events are one removal per dropped assignment |
| ListsService.Service.Move | src/lists/lists.service.ts:87-127 | Every branch and error of moving a list ends as specified, with one event within the board, and to another board the list's events and one removal per dropped assignment |
| ListsService.Service.CopyList | src/lists/lists.service.ts:299-406 | The copy's row, place and cards, and the errors, are as specified |
| ListsService.Service.RenumberCards | src/lists/lists.service.ts:431-447 | The loop gives the i-th card the i-th order and records each once |
| ListsService.Service.MoveAllCards | src/lists/lists.service.ts:408-476 | Rows, errors and the sequence of events are as specified; none is emitted on failure |
| ListsService.Service.Create | src/lists/lists.service.ts:35-56 | A new list goes to the end of the board |
| ListsService.Service.Update | src/lists/lists.service.ts:65-85 | Only the list's title changes |
| ListsService.Service.Remove | src/lists/lists.service.ts:478-490 | The list goes with its cards |
| CardsService.CardService.ComputeBottomOrder | src/cards/cards.service.ts:105-112 | The order past the last card of some sorted answer |
| CardsService.CardService.ComputeTopOrder | src/cards/cards.service.ts:114-121 | The order before the first card of some sorted answer |
| CardsService.CardService.ComputeOrder | src/cards/cards.service.ts:332-360 | Result and errors of the neighbour formula are the specification's |
| CardsService.CardService.ScheduleDueReminder | src/cards/cards.service.ts:271-299 | Remove, then add if the delay is positive: the queue ends as specified |
| CardsService.CardService.Create | src/cards/cards.service.ts:60-103 | Row, place, reminder and event of a new card |
| CardsService.CardService.Update | src/cards/cards.service.ts:199-249 | The conditional update, its conflict, the rescheduled reminder and the event |
| CardsService.CardService.Write | src/cards/cards.service.ts:232-247 | Of a card's columns exactly those that the request names are written |
| CardsService.CardService.Move | src/cards/cards.service.ts:301-330 | Row, errors and event of a moved card |
| CardsService.CardService.Remove | src/cards/cards.service.ts:251-269 | The card, its reminder and the event |
| CardsService.CardService.Assign | src/cards/cards.service.ts:382-421 | Only a member of the board is assigned |
| CardsService.CardService.Unassign | src/cards/cards.service.ts:423-444 | Only the one assignment is removed |
| BoardCloner.Cloner.CloneLabels | src/boards/boards.service.ts:528-534 | The loop gives each label one copy and records where it went |
| BoardCloner.Cloner.CloneCards | src/boards/boards.service.ts:545-583 | The inner loop copies the cards of one list, numbered from 1000 |
| BoardCloner.Cloner.CloneLists | src/boards/boards.service.ts:536-585 | The nested loops copy each list with its cards |
| BoardCloner.Cloner.CloneBoardContent | src/boards/boards.service.ts:522-586 | After all loops the tables are those of the specified clone |
| BoardsService.BoardService.Create | src/boards/boards.service.ts:171-183 | The new board's row and its owner's |
| BoardsService.BoardService.MakeTemplate | src/boards/boards.service.ts:489-520 | A private template owned by the caller, with the board's content |
| BoardsService.BoardService.CreateFromTemplate | src/boards/boards.service.ts:450-487 | Who may use a template, and the board it gives |
| BoardsService.BoardService.AddMember | src/boards/boards.service.ts:748-784 | Row, errors and the evicted entry |
| BoardsService.BoardService.UpdateMemberRole | src/boards/boards.service.ts:786-835 | Who may change which role, the role written, and the evicted entry (`MemberLaws.UpdateWritesRole`) |
| BoardsService.BoardService.Unassign | src/boards/boards.service.ts:904-918 | The loop takes the user off exactly the board's cards |
| BoardsService.BoardService.RemoveMember | src/boards/boards.service.ts:837-872 | Row, cards, errors, evicted entry and event |
| BoardsService.BoardService.LeaveBoard | src/boards/boards.service.ts:874-902 | The same for leaving, which an owner cannot |
| BoardsService.BoardService.TransferOwnership | src/boards/boards.service.ts:920-959 | Both roles and the board's row change together or not at all, and two entries are evicted |
| BoardsService.BoardService.UpdateTemplateVisibility | src/boards/boards.service.ts:588-607 | The visibility changes and the cached detail goes |
| BoardsService.BoardService.Remove | src/boards/boards.service.ts:969-985 | Everything on the board goes, and all its entries |
| BoardsService.BoardService.FetchTemplateDetail | src/boards/boards.service.ts:403-424 | What is answered and what is cached |
| BoardsService.BoardRolesGuard.ResolveBoardAccess | src/common/guard/board-roles.guard.ts:75-99 | A cached entry wins, a missing board is not cached, anything else is |
| BoardsService.BoardRolesGuard.MinRequired | src/common/guard/board-roles.guard.ts:64 | The loop finds the lowest required level |
| BoardsService.BoardRolesGuard.CanActivate | src/common/guard/board-roles.guard.ts:37-73 | Every branch of the decision |
| RedisService.Redis.Blacklist | src/redis/redis.service.ts:13-18 | The key lives at every later moment at which the token has not expired, without a positive ttl nothing is stored, and the keys still stand for the entries of the session model |
| RedisService.Redis.SetTokenVersion | src/redis/redis.service.ts:29-40 | From now on the version is found for the user exactly until the time given has passed, and for every other user, at any time, what was found before |
| RedisService.Redis.ConsumeResetToken | src/redis/redis.service.ts:54-56 | The user is returned if the token is still live, and the key is gone at once |
| RedisService.Redis.DelByPattern | src/redis/redis.service.ts:75-90 | After the cursor loop no key with the prefix is left and every other key is untouched |
| RedisKeys.RolePatternIsExact | src/boards/boards.service.ts:994-1003 | The pattern of a board matches the entries of that board and of no other |
| RedisKeys.KeysDoNotCollide | src/redis/redis.service.ts:92-102 | Keys of different kinds are never equal |
| RedisKeys.KeysAreInjective | src/redis/redis.service.ts:92-102 | Keys of one kind are equal only for the same id |
| RedisService.RolesGone | src/boards/boards.service.ts:1001-1003 | Deleting every key under a board's pattern evicts exactly the board's entries, and leaves versions, blacklist, resets and details alone |
| BoardsService.Caches.InvalidateAllBoardRoles | src/boards/boards.service.ts:1001-1003 | The cursor loop over the pattern leaves the entries of all other boards and none of this one |
| AuthService.Auth.IssueTokens | src/auth/auth.service.ts:235-275 | Two fresh tokens with the right lifetimes, and the refresh token's row |
| AuthService.Auth.Register | src/auth/auth.service.ts:51-68 | A new user's first session and the memberships that the tokens sent along give, or a conflict |
| AuthService.Auth.Login | src/auth/auth.service.ts:70-91 | A new session for the right password only (`SessionLaws.LoginIsAcceptedAtOnce`), and the memberships that the tokens sent along give |
| AuthService.Auth.Refresh | src/auth/auth.service.ts:113-152 | Every reason to refuse, and the exchange |
| AuthService.Auth.Logout | src/auth/auth.service.ts:154-169 | Revocation, blacklisting and the closed sockets |
| AuthService.Auth.LogoutAll | src/auth/auth.service.ts:171-187 | All rows revoked, the version raised, the cached one evicted, all sockets closed |
| AuthService.Auth.RevokeTokens | src/auth/auth.service.ts:172-176 | The update revokes the user's rows and no others |
| AuthService.Auth.ForgotPassword | src/auth/auth.service.ts:189-214 | A reset token for an existing account only |
| AuthService.Auth.ResetPassword | src/auth/auth.service.ts:216-233 | The token is consumed and all sessions end |
| AuthService.JwtAuthGuard.ResolveTokenVersion | src/common/guard/jwt-auth.guard.ts:72-88 | A live cached version wins, otherwise the database's is cached |
| AuthService.JwtAuthGuard.CanActivate | src/common/guard/jwt-auth.guard.ts:31-70 | Accepts exactly an unexpired, unlisted token at the current version |
| AuthService.EventsGateway.HandleConnection | src/events/events.gateway.ts:57-77 | A socket opens for an unexpired, unlisted token only |
| AuthService.EventsGateway.HandleUserLoggedOut | src/events/events.gateway.ts:203-214 | The loop closes exactly the user's sockets with that token, or all of them |
| InviteServices.InvitesService.Create | src/invites/invites.service.ts:32-93 | Open invites for the address give way to the new one |
| InviteServices.InvitesService.Accept | src/invites/invites.service.ts:138-163 | Errors, the member row unless there is one, and the mark |
| InviteServices.InvitesService.Revoke | src/invites/invites.service.ts:109-118 | Only an invite of the board is deleted |
| InviteServices.InvitesService.GetValidInvite | src/invites/invites.service.ts:165-175 | Valid means there, not accepted and not past its time |
| InviteServices.InviteLinksService.Create | src/invites/invite-links.service.ts:35-61 | A link never offers ownership and replaces the old one with its requests |
| InviteServices.InviteLinksService.Update | src/invites/invite-links.service.ts:68-80 | Role and permission change where given, never to OWNER |
| InviteServices.InviteLinksService.Revoke | src/invites/invite-links.service.ts:82-86 | The link goes with its requests |
| InviteServices.InviteLinksService.Join | src/invites/invite-links.service.ts:97-129 | A member at once or a pending request, by the link's permission |
| InviteServices.InviteLinksService.DecideJoinRequest | src/invites/invite-links.service.ts:148-178 | A pending request is approved, with the member row if missing, or rejected |
| InviteServices.Newcomers.Admit | src/auth/auth.service.ts:61-63 | First the e-mail invite, then the link; a token that does not work changes nothing and is not reported |

## Left out

- Controllers, request validation, filters, interceptors, module wiring and configuration: plumbing
  without a stateful property. The roles that the routes require are in `RoleCache.Route`.
- S3 signing, bcrypt, the signing of tokens, mail, Socket.IO transport and the queue's internals:
  a token verifies if it was issued and has not expired, a password is right or not, the queue is a
  map of pending jobs whose connection does not fail.
- Concurrent calls: each call is one step, except in `VersionRace`. A refresh token that two requests
  exchange at once is therefore not covered, since the check at src/auth/auth.service.ts:125-130 runs
  outside the transaction.
- Floating point: orders are real numbers, and `Bisection` bounds how long midpoints stay exact on a
  binary grid. Nothing is claimed about unbounded insertion, as there is no rebalancing.
- Clocks: server and Redis share one clock, and Redis drops a key only when its time has come.
- The token version is not read when a socket connects, so the claims about logging out everywhere
  are about the HTTP guard and the sockets open at that moment.
- Board rooms of sockets, broadcasts and notification texts and preferences.
- The cached lists of templates (tpl:browse and tpl:filtered), and of a cached detail the board's
  name, background, description, owner, assignees, counts and timestamps: their writers are not guarded.
- Checklist and attachment edits appear as one write of a card's checklists or attachments each;
  comments, stars, recently viewed boards, profiles and name search do not appear.
- Accounts are found by e-mail outside the model and passed to the calls; a new user's id is the one the
  database gives.
- Board background and description, and the category of a template.
- Ids are natural numbers that are never used twice, and stand for the tokens and hashes made from
  them; hashing is taken to be injective. `RedisKeys` and `RedisService` work on key strings, in which
  ids are written as decimal numbers; JSON is read back as it was written.
- Which field of a request names the board (extractBoardId): the board is an argument of the guard.
- InviteServices.InvitesService.Accept: does not model toLowerCase beyond ASCII letters, because
  Dafny's characters come without case folding.
- InviteServices.InviteLinksService.Join: asks that link tokens are distinct, which is the database's
  unique constraint and what `InviteRuns.RunKeepsTokens` proves of every run.
- RedisService.Redis.DelByPattern: no other client writes between two scans; SCAN is taken to return
  every key that is there throughout an iteration.
- MarkdownImages.ResolveTwiceExactly: does not speak of URLs with white space or a closing parenthesis,
  which the source's storage never signs, because the output then reads as other links.
