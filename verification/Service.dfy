/** All calls that write the store, one step at a time, and whole runs of them. */
module Service {
  import opened Types
  import opened Store
  import Lists
  import Cards
  import Labels
  import Boards
  import Members
  import Invites

  datatype Op =
    | ListCall(list: Lists.ListOp)
    | CardCall(card: Cards.CardOp)
    | LabelCall(tag: Labels.LabelOp)
    | BoardCall(board: Boards.BoardOp)
    | MemberCall(member: Members.MemberOp)
    | InviteCall(invite: Invites.InviteOp)

  ghost function Apply(s: Tables, op: Op): Result<Tables> {
    match op
    case ListCall(o) => Lists.Apply(s, o)
    case CardCall(o) => Cards.Apply(s, o)
    case LabelCall(o) => Labels.Apply(s, o)
    case BoardCall(o) => Boards.Apply(s, o)
    case MemberCall(o) => Members.Apply(s, o)
    case InviteCall(o) => Invites.Apply(s, o)
  }

  /** The boards a call is addressed to: no other board's content may change. */
  function Touched(op: Op): set<Id> {
    match op
    case ListCall(o) => if o.MoveList? then {o.board, Lists.TargetBoard(o.board, o.request)} else {o.board}
    case CardCall(o) => {o.board}
    case LabelCall(o) => {o.board}
    case BoardCall(o) => if o.RemoveBoard? then {o.board} else {}
    case MemberCall(o) => {o.board}
    case InviteCall(_) => {}
  }

  /** A call that throws changes nothing. */
  ghost function Step(s: Tables, op: Op): Tables {
    var r := Apply(s, op);
    if r.Ok? then r.value else s
  }

  ghost function Run(s: Tables, ops: seq<Op>): Tables
    decreases |ops|
  {
    if ops == [] then s else Run(Step(s, ops[0]), ops[1..])
  }

  lemma StepKeepsWellFormed(s: Tables, op: Op)
    requires WellFormed(s)
    ensures WellFormed(Step(s, op))
  {
    hide WellFormed;
    if Apply(s, op).Ok? {
      match op
      case ListCall(o) => hide Lists.Apply; Lists.ApplyKeepsWellFormed(s, o);
      case CardCall(o) => hide Cards.Apply; Cards.ApplyKeepsWellFormed(s, o);
      case LabelCall(o) => hide Labels.Apply; Labels.ApplyKeepsWellFormed(s, o);
      case BoardCall(o) => hide Boards.Apply; Boards.ApplyKeepsWellFormed(s, o);
      case MemberCall(o) => hide Members.Apply; Members.ApplyKeepsWellFormed(s, o);
      case InviteCall(o) => hide Invites.Apply; Invites.ApplyKeepsWellFormed(s, o);
    }
  }

  /**
   * In every reachable state each label on a card belongs to the board owning the card's list
   * and each assignee is a member of that board, whatever calls were made in whatever order.
   */
  lemma {:induction false} RunKeepsWellFormed(s: Tables, ops: seq<Op>)
    requires WellFormed(s)
    ensures WellFormed(Run(s, ops))
    decreases |ops|
  {
    hide WellFormed;
    hide Step;
    if ops != [] {
      StepKeepsWellFormed(s, ops[0]);
      RunKeepsWellFormed(Step(s, ops[0]), ops[1..]);
    }
  }

  lemma EmptyIsWellFormed()
    ensures WellFormed(EMPTY)
  {
  }

  lemma RunFromEmptyIsWellFormed(ops: seq<Op>)
    ensures WellFormed(Run(EMPTY, ops))
  {
    hide WellFormed;
    hide Run;
    EmptyIsWellFormed();
    RunKeepsWellFormed(EMPTY, ops);
  }
}
