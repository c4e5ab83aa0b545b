/** Every run of calls edits the outline. */
module OutlineRuns {
  import opened Store
  import Lists
  import Cards
  import Labels
  import Boards
  import Members
  import Invites
  import opened Service
  import opened Outline
  import opened OutlineLists
  import opened OutlineCards
  import opened OutlineBoards

  lemma CallRefines(p: Plain, s: Tables, op: Op)
    requires Refines(p, s) && WellFormed(s) && Apply(s, op).Ok? && WellPlaced(s, op)
    ensures Refines(Edit(p, op), Apply(s, op).value)
  {
    hide Refines;
    hide WellFormed;
    hide WellPlaced;
    hide EditLists;
    hide EditCards;
    hide EditBoards;
    match op
    case ListCall(o) => hide Lists.Apply; ListCallRefines(p, s, o);
    case CardCall(o) => hide Cards.Apply; CardCallRefines(p, s, o);
    case LabelCall(o) => hide Labels.Apply; LabelCallRefines(p, s, o);
    case BoardCall(o) => hide Boards.Apply; BoardCallRefines(p, s, o);
    case MemberCall(o) => hide Members.Apply; MemberCallRefines(p, s, o);
    case InviteCall(o) => hide Invites.Apply; InviteCallRefines(p, s, o);
  }

  /** The edits of the calls that get through. */
  ghost function EditAll(p: Plain, s: Tables, ops: seq<Op>): Plain
    decreases |ops|
  {
    if ops == [] then p
    else EditAll(if Apply(s, ops[0]).Ok? then Edit(p, ops[0]) else p, Step(s, ops[0]), ops[1..])
  }

  ghost predicate AllWellPlaced(s: Tables, ops: seq<Op>)
    decreases |ops|
  {
    ops == [] || (WellPlaced(s, ops[0]) && AllWellPlaced(Step(s, ops[0]), ops[1..]))
  }

  /**
   * Over every run whose neighbour moves have room, orders stay distinct in every board and
   * every list, and what the database sorts is what editing plain sequences gives.
   */
  lemma {:induction false} RunRefines(p: Plain, s: Tables, ops: seq<Op>)
    requires Refines(p, s) && WellFormed(s) && AllWellPlaced(s, ops)
    ensures Refines(EditAll(p, s, ops), Run(s, ops))
    decreases |ops|
  {
    hide Refines;
    hide WellFormed;
    hide WellPlaced;
    hide Apply;
    hide Edit;
    if ops != [] {
      if Apply(s, ops[0]).Ok? {
        CallRefines(p, s, ops[0]);
      }
      StepKeepsWellFormed(s, ops[0]);
      RunRefines(if Apply(s, ops[0]).Ok? then Edit(p, ops[0]) else p, Step(s, ops[0]), ops[1..]);
    }
  }

  /** From the empty store on, with nothing assumed about the sequences. */
  lemma RunFromEmptyRefines(ops: seq<Op>)
    requires AllWellPlaced(EMPTY, ops)
    ensures Refines(EditAll(Plain(map[], map[]), EMPTY, ops), Run(EMPTY, ops))
  {
    hide AllWellPlaced;
    hide EditAll;
    hide Run;
    EmptyIsWellFormed();
    RunRefines(Plain(map[], map[]), EMPTY, ops);
  }
}
