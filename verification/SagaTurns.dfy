/** Runs on which nothing is known of the inventory: before each step its table may have become anything. They cover a
    Return that never reaches the database, a retry loop that loses its row to others, several inventory messages at a
    time, database errors in a Deduct, administrators who set the stock, and synchronous orders on the same rows. */
module SagaTurns {
  import opened Events
  import opened SagaProtocol
  import opened SagaRepeats
  import InventoryStore

  /** A step, and the inventory it finds. */
  datatype Turn = Turn(stock: InventoryStore.Stock, step: Step)

  function Found(s: State, stock: InventoryStore.Stock): State {
    s.(inventory := stock)
  }

  predicate Taken(s: State, turns: seq<Turn>)
    decreases |turns|, 0
  {
    turns == [] ||
    var n := |turns| - 1;
    Taken(s, turns[..n]) && Enabled(Found(AfterTurns(s, turns[..n]), turns[n].stock), turns[n].step)
  }

  function AfterTurns(s: State, turns: seq<Turn>): State
    requires Taken(s, turns)
    decreases |turns|, 1
  {
    if turns == [] then s
    else
      var n := |turns| - 1;
      Apply(Found(AfterTurns(s, turns[..n]), turns[n].stock), turns[n].step)
  }

  /** The state in which the last of some turns happened. */
  function BeforeLast(s: State, turns: seq<Turn>): State
    requires Taken(s, turns) && turns != []
  {
    Found(AfterTurns(s, turns[..|turns| - 1]), turns[|turns| - 1].stock)
  }

  /** Rows of these kinds may be delivered any number of times, all others at most once. */
  predicate TurnsRepeatOnly(s: State, turns: seq<Turn>, kinds: set<MessageKind>)
    requires Taken(s, turns)
    decreases |turns|
  {
    turns == [] ||
    (TurnsRepeatOnly(s, turns[..|turns| - 1], kinds)
     && RepeatsKind(BeforeLast(s, turns), turns[|turns| - 1].step, kinds))
  }

  lemma TurnsGrow(s: State, turns: seq<Turn>, turn: Turn, kinds: set<MessageKind>)
    requires Taken(s, turns) && Enabled(Found(AfterTurns(s, turns), turn.stock), turn.step)
    ensures Taken(s, turns + [turn])
    ensures AfterTurns(s, turns + [turn]) == Apply(Found(AfterTurns(s, turns), turn.stock), turn.step)
    ensures TurnsRepeatOnly(s, turns, kinds) && RepeatsKind(Found(AfterTurns(s, turns), turn.stock), turn.step, kinds)
            ==> TurnsRepeatOnly(s, turns + [turn], kinds)
  {
    assert (turns + [turn])[..|turns|] == turns;
  }

  /** A run of the protocol that finds any inventory at all, after some turns, is taken in turns. */
  lemma {:induction false} RunsAreTurns(s: State, before: seq<Turn>, stock: InventoryStore.Stock, steps: seq<Step>,
                                        kinds: set<MessageKind>)
    returns (turns: seq<Turn>)
    requires Taken(s, before) && TurnsRepeatOnly(s, before, kinds)
    requires var s1 := Found(AfterTurns(s, before), stock); Runs(s1, steps) && RepeatsOnly(s1, steps, kinds)
    ensures Taken(s, turns) && TurnsRepeatOnly(s, turns, kinds)
    ensures AfterTurns(s, turns) == if steps == [] then AfterTurns(s, before)
                                    else After(Found(AfterTurns(s, before), stock), steps)
    decreases |steps|
  {
    if steps == [] {
      turns := before;
    } else {
      var s1 := Found(AfterTurns(s, before), stock);
      LastStep(s1, steps);
      turns := RunsAreTurns(s, before, stock, Front(steps), kinds);
      var now := After(s1, Front(steps));
      assert Found(AfterTurns(s, turns), now.inventory) == now;
      TurnsGrow(s, turns, Turn(now.inventory, Last(steps)), kinds);
      turns := turns + [Turn(now.inventory, Last(steps))];
    }
  }

  /** In particular a run that finds the inventory as it left it. */
  lemma PlainTurns(s: State, steps: seq<Step>, kinds: set<MessageKind>) returns (turns: seq<Turn>)
    requires Runs(s, steps) && RepeatsOnly(s, steps, kinds)
    ensures Taken(s, turns) && TurnsRepeatOnly(s, turns, kinds) && AfterTurns(s, turns) == After(s, steps)
  {
    assert Found(s, s.inventory) == s;
    turns := RunsAreTurns(s, [], s.inventory, steps, kinds);
  }
}
