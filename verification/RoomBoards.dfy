/** The room's view of a player is a faithful shadow of the real board: whatever the engine does to a board is one of
    the moves the server's step system allows, and whatever the room does to a player is what it does to the board. */
module RoomBoards {
  import opened Hub
  import opened Rooms
  import Boards
  import Engine
  import EngineInvariant
  import EngineRuns
  import Garbage
  import Rotations
  import Targeting

  /** The slot with the parts it shows of the board filled in from the board. */
  function Shadow(s: Slot, g: Engine.Game): Slot {
    s.(over := g.gameOver, outgoing := g.outgoingGarbage, pending := g.pendingGarbage,
       targetMode := g.targetMode, targetId := g.targetPlayerId, lastAttacker := g.lastAttackerId)
  }

  ghost predicate Shows(s: Slot, g: Engine.Game) {
    EngineInvariant.Inv(g) && s == Shadow(s, g) && s.id == g.playerId
  }

  lemma ActionKeepsIdentity(g: Engine.Game, a: Engine.Action, roster: Targeting.Roster, d: Engine.Dice)
    requires Engine.Sized(g)
    ensures var r := Engine.ApplyAction(g, a, roster, d);
      r.playerId == g.playerId && r.lastAttackerId == g.lastAttackerId
  {
    hide Engine.CanShift, Engine.DropPiece, Rotations.CanRotate, Rotations.Rotated, Engine.Refill,
         Targeting.CycleTarget, Engine.Settle;
    SettleKeepsIdentity(Engine.HardDropped(g), d);
  }

  lemma SettleKeepsIdentity(g: Engine.Game, d: Engine.Dice)
    requires Engine.Sized(g)
    ensures var r := Engine.Settle(g, d); r.playerId == g.playerId && r.lastAttackerId == g.lastAttackerId
  {
    hide Engine.Baked, Engine.LinesMade, Engine.TSpin, Garbage.AddGarbage, Garbage.Calculate, Boards.ValidPiece,
         Engine.Refill;
  }

  lemma TimersKeepIdentity(g: Engine.Game, d: Engine.Dice)
    requires Engine.Sized(g)
    ensures var r := Engine.UpdateTimers(g, d); r.playerId == g.playerId && r.lastAttackerId == g.lastAttackerId
  {
    hide Engine.CanShift, Engine.Settle;
    SettleKeepsIdentity(g.(lockTimer := g.lockTimer + 1), d);
    SettleKeepsIdentity(g.(lockTimer := 0, gravityTimer := g.gravityTimer + 1), d);
  }

  /** A lock only uses the meter up: what is cancelled comes off it, and what is let in empties it. */
  lemma SettleLowersMeter(g: Engine.Game, d: Engine.Dice)
    requires Engine.Sized(g)
    ensures Engine.Settle(g, d).pendingGarbage <= g.pendingGarbage
  {
    hide Engine.LockExchange, Engine.RowsLetIn, Engine.Settle;
    EngineRuns.SettleMeters(g, d);
    assert Engine.LockExchange(g).pending <= g.pendingGarbage by { ExchangeLowers(g); }
  }

  lemma ExchangeLowers(g: Engine.Game)
    requires Boards.Shaped(g.board)
    ensures Engine.LockExchange(g).pending <= g.pendingGarbage
  {
    hide Engine.LockDamage;
    Garbage.CancelConserves(Engine.LockDamage(g).lines, g.pendingGarbage);
  }

  lemma ActionLowersMeter(g: Engine.Game, a: Engine.Action, roster: Targeting.Roster, d: Engine.Dice)
    requires Engine.Sized(g)
    ensures Engine.ApplyAction(g, a, roster, d).pendingGarbage <= g.pendingGarbage
  {
    hide Engine.CanShift, Engine.DropPiece, Rotations.CanRotate, Rotations.Rotated, Engine.Refill,
         Targeting.CycleTarget, Engine.Settle;
    SettleLowersMeter(Engine.HardDropped(g), d);
  }

  lemma TimersLowerMeter(g: Engine.Game, d: Engine.Dice)
    requires Engine.Sized(g)
    ensures Engine.UpdateTimers(g, d).pendingGarbage <= g.pendingGarbage
  {
    hide Engine.CanShift, Engine.Settle;
    SettleLowersMeter(g.(lockTimer := g.lockTimer + 1), d);
    SettleLowersMeter(g.(lockTimer := 0, gravityTimer := g.gravityTimer + 1), d);
  }

  lemma Bounded(g: Engine.Game)
    requires EngineInvariant.Inv(g)
    ensures Engine.Sized(g) && g.outgoingGarbage <= MAX_OUTGOING && g.pendingGarbage <= MAX_PENDING
  {
  }

  lemma ShownSized(s: Slot, g: Engine.Game)
    requires Shows(s, g)
    ensures Engine.Sized(g)
  {
  }

  /** A fresh game shows as a fresh slot. */
  lemma StartShows(s: Slot, id: nat, first: Engine.Picks, second: Engine.Picks)
    requires s == Slot(id, true, false, false, false, 0, 0, Targeting.TARGET_MANUAL, s.targetId, 0)
    ensures var g := Engine.StartGame(first, second).(playerId := id, targetPlayerId := s.targetId);
      Shows(s, g) && FreshSlot(s)
  {
    EngineInvariant.StartInv(first, second);
    hide EngineInvariant.BoardOk, EngineInvariant.PoseOk, EngineInvariant.BagOk;
  }

  /** Any request of a live player, whatever it does to the board, is a board step of the room. */
  lemma RequestRefines(s: Slot, g: Engine.Game, a: Engine.Action, roster: Targeting.Roster, d: Engine.Dice)
    requires Shows(s, g)
    ensures Engine.Sized(g)
    ensures var g' := Engine.ApplyAction(g, a, roster, d); BoardStep(s, Shadow(s, g')) && Shows(Shadow(s, g'), g')
  {
    hide EngineInvariant.Inv, Engine.ApplyAction;
    Bounded(g);
    var g' := Engine.ApplyAction(g, a, roster, d);
    EngineInvariant.ActionKeeps(g, a, roster, d);
    Bounded(g');
    ActionKeepsIdentity(g, a, roster, d);
    ActionLowersMeter(g, a, roster, d);
    if g.gameOver {
      OverIsOver(g, a, roster, d);
    }
  }

  lemma OverIsOver(g: Engine.Game, a: Engine.Action, roster: Targeting.Roster, d: Engine.Dice)
    requires Engine.Sized(g) && g.gameOver
    ensures Engine.ApplyAction(g, a, roster, d) == g
  {
  }

  /** One tick of a board is one tick of its slot. */
  lemma TickRefines(s: Slot, g: Engine.Game, d: Engine.Dice)
    requires Shows(s, g) && s.active
    ensures Engine.Sized(g)
    ensures var g' := Engine.Step(g, Engine.Tick(d));
            var t := Shadow(s, g').(eliminated := s.eliminated || (!g.gameOver && g'.gameOver));
            TickedSlot(s, t) && Shows(t, g')
  {
    hide EngineInvariant.Inv, Engine.UpdateTimers;
    Bounded(g);
    EngineInvariant.StepKeeps(g, Engine.Tick(d));
    var g' := Engine.Step(g, Engine.Tick(d));
    Bounded(g');
    TimersKeepIdentity(g, d);
    TimersLowerMeter(g, d);
  }

  /** Garbage that lands on a live slot is garbage queued on its board. */
  lemma HitRefines(s: Slot, g: Engine.Game, attack: HubAttack)
    requires Shows(s, g) && !s.over
    ensures Engine.Sized(g)
    ensures var g' := Engine.Step(g, Engine.Receive(attack.attacker, attack.lines)); Shows(Hit(s, attack), g')
  {
    hide EngineInvariant.Inv;
    Bounded(g);
    EngineInvariant.StepKeeps(g, Engine.Receive(attack.attacker, attack.lines));
  }

  /** Taking a board's garbage to route it. */
  lemma ConsumeRefines(s: Slot, g: Engine.Game)
    requires Shows(s, g)
    ensures Engine.Sized(g) && Shows(s.(outgoing := 0), Engine.Step(g, Engine.Consume))
  {
    hide EngineInvariant.Inv;
    Bounded(g);
    EngineInvariant.StepKeeps(g, Engine.Consume);
  }

  lemma QuitEnds(g: Engine.Game, roster: Targeting.Roster, d: Engine.Dice)
    requires Engine.Sized(g)
    ensures Engine.ApplyAction(g, Engine.Quit, roster, d).gameOver
    ensures Engine.ApplyAction(g, Engine.Quit, roster, d) == g.(gameOver := true)
  {
  }

  /** A player who quits. */
  lemma QuitRefines(s: Slot, g: Engine.Game, roster: Targeting.Roster, d: Engine.Dice)
    requires Shows(s, g) && s.active
    ensures Engine.Sized(g) && Shows(QuitSlot(s), Engine.ApplyAction(g, Engine.Quit, roster, d))
  {
    hide EngineInvariant.Inv, Engine.ApplyAction;
    Bounded(g);
    RequestRefines(s, g, Engine.Quit, roster, d);
    QuitEnds(g, roster, d);
  }
}
