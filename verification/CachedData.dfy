/** What the services keep in Redis as JSON. */
module CachedData {
  import opened Types
  import opened Store

  /** CachedBoardAccess */
  datatype Access = Access(ownerId: Id, role: Option<Role>)

  /** The guarded part of a template detail: its lists, its labels and what its cards show. */
  datatype Guarded = Guarded(lists: map<Id, List>, cards: map<Id, Card>, labels: map<Id, Label>)

  datatype Detail = Detail(board: Board, content: Guarded)
}
