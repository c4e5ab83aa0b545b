/** The in-process event bus: what the services emit, in order. */
module EventBus {
  import opened Types

  datatype Event =
    | ListCreated(board: Id, list: Id)
    | ListUpdated(board: Id, list: Id)
    | ListMoved(board: Id, list: Id, order: real)
    | ListDeleted(board: Id, list: Id)
    | CardCreated(board: Id, card: Id)
    | CardUpdated(board: Id, card: Id)
    | CardMoved(board: Id, card: Id, list: Id, order: real)
    | CardDeleted(board: Id, card: Id, list: Id)
    | AssigneeChanged(board: Id, card: Id, user: Id, joined: bool)
    | MemberRemoved(board: Id, user: Id)

  class Bus {
    var log: seq<Event>

    constructor ()
      ensures log == []
    {
      log := [];
    }

    method Emit(e: Event)
      modifies this
      ensures log == old(log) + [e]
    {
      log := log + [e];
    }
  }
}
