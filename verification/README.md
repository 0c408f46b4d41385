# tetriSH in Dafny

A model of tetriSH, a battle-royale Tetris server written in C, and proofs about it. The project stands beside the program: it
restates what the code does, branch by branch, and proves what the code is meant to guarantee. It covers four parts.

**The match across processes** (`Hub`, `Masters`, `Rooms`, `Systems` and what builds on them). A master process accepts clients,
forks room workers, and keeps the record of who is alive. Each room runs its boards, reports deaths and routes garbage over a
first-in-first-out channel. `Systems` is the whole server as a step system: any interleaving of connections, deliveries, closures,
player requests, ticks, reports and routing. `SystemInvariant`, `WorkerInvariant` and `MasterInvariant` carry the joint invariant;
`Agreement`, `PastViews`, `Tidings`, `MatchEnd`, `Dealing`, `StartRules`, `Victims`, `Accounting`, `OutPlayers`, `Strays` and
`UniqueIds` state what follows for every run. `MasterServers` and `RoomWorkers` are the same handlers as classes with loops, each
proved equal to the step it implements. `RoomBoards` shows that a real board does only what the protocol lets a player do,
`LiveRuns` that every run of the server with real boards is a run of the step system, and `Scenes`, `Bounce` and `StartRuns` build
such runs.

**The game engine** (`Pieces`, `Boards`, `Locking`, `Garbage`, `Rotations`, `Shuffling`, `Targeting`, `Engine` and what builds on
them). One player's game as a value, with every action, tick and incoming attack as an input; `EngineInvariant`, `EngineRuns`,
`LockRuns`, `ClearRuns`, `HoldRuns`, `PlayRuns`, `DamageRuns`, `BagFairness` and `Timers` prove what holds over whole games, and
`FirstShots` plays one. `BoardArrays` and `GameStates` are the in-place forms: a two-dimensional array, a bag array and a class
with the fields of the game state, each method proved equal to the value form.

**Messages** (`HyperText`, `HyperTextBuffers`, `Formats`, `Payloads`, `StatePayloads`, `Htttp`, `StateSync`, `StateDelivery`). The
text protocol as a printer and a parser, the in-place parser that writes terminators into its buffer, formatted input and output,
the payloads, and the way of a board from server to client and of an action from client to server.

**Queues and logging** (`Queues`, `QueueThreads`, `LogRecords`, `LogClients`, `LogDaemons`, `LogLoss`). The fixed-size queue, the
two threads that share one, and the log from a process's push to the daemon's count of missing records.

Random draws, fork results, send results, timeouts and dates are parameters, so every theorem holds for all of them. Sizes of the
match (rooms, players per room, lobby size, record size) are a `Config`, so those theorems hold for all sizes. `Wrappers` and
`Basics` hold what several parts share.

## Where the code differs from what one would expect

- An attack can go back to the slot it came from, once the match is over and the slot has been reused (`Bounce.BouncesAfterTheEnd`);
  `Agreement.BouncesExactlyWhen` gives the exact condition, and `Strays.HomecomingLandsNowhere` shows that it hits nobody.
- A turn and its counter-turn need not restore the pose (`Rotations.RotationNotAlwaysRestored`); `Rotations.RotationRecoverable`
  gives the exact condition.
- A message without headers is not always read back: the parser takes a blank line in its body for the end of headers
  (`HyperText.BareBodyLost`; `HyperText.ParserUndoesPrinter` has the exact condition).
- Nothing bounds the number of headers: on a seventeenth the parser and the builder leave their array (`HyperText.SeventeenHeaders`).
  `HyperText.OverrunsIff`, the result of `HyperTextBuffers.ParseHypertext` and `HyperText.BuilderOverruns` say exactly when.
- A text of exactly the buffer size is reported as sent whole but loses its last character (`HyperTextBuffers.LosesLastCharacter`;
  the contract of `HyperTextBuffers.ConvertToHypertext` has the exact condition), and a head that passes the end of the buffer
  without any part of it ending there makes the printer write outside it (`HyperTextBuffers.WritesOutside`).
- The greeting on the master's terminal says that full rooms start by themselves. They do not: `StartRuns.FullRoomWaits` is a run
  that leaves a full room waiting. `StartRules.StartsExactlyWhen` says exactly when a step starts a room: it is used, somebody has
  joined it, and the step is the operator's or brings a join after which there are as many records as the server has places. The
  record is never shortened (`StartRules.RecordCountsJoins`), so players who left long ago count, and a half-full room can start by
  itself on a nearly empty server (`StartRuns.DepartedPlayersStartARoom`).
- Garbage that waits to be sent is overwritten by the next lock (`DamageRuns.OverwritingHappens`); `DamageRuns.DamageConserved` has
  the balance and says exactly when nothing is lost.
- A player whose own request ends their game stays on their room's targeting roster (`OutPlayers.OutButNotShown`);
  `OutPlayers.ShownOutExactlyWhen` gives the exact condition. Garbage aimed at such a player is dropped.
- The three-corner test for T-spins looks around the middle of the T only in one rotation (`ClearRuns.CornersAreAroundTheMiddle`,
  with the middle of each rotation), and an upright T never counts as one (`ClearRuns.UprightNeverSpins`).
- The queue is described as a ring buffer, but its places are reused only once it has run empty: it can refuse items while it holds
  one (`Queues.CanRefuseWithRoom`, with the exact rule in `Queues.RefusesWhenWornOut`).
- One field of the board snapshot, the next piece, is never filled in; it is an arbitrary number in `StateSync`.

## Model

| member | source | states |
|---|---|---|
| `Agreement.RecordedDeathsAreReal` | tetris/src/tetrisd/main.c:312-378 | in every reachable state of the whole server, a player the master records as dead has a finished board, or the room it joined is no longer running |
| `Agreement.ReportedDeathsAreNotLost` | tetris/src/tetrisd/room.c:296-305 | in every reachable state, a death that a room has marked as reported is a real one and is on the master's record or still in that room's channel, and no join of that player can follow it |
| `PastViews.ViewsArePast` | tetris/src/tetrisd/main.c:228-258 | in every run, the roster a running room holds is exactly the one the master held after some number n of steps, and the rosters on their way to it are ones the master held at n or later, in the order in which they will be read |
| `Agreement.ViewsInOrder` | tetris/src/tetrisd/main.c:228-258 | in every reachable state, a room's roster, those on their way and the master's record come in order: ids only appended, nobody revived |
| `Agreement.ViewNeverWrong` | tetris/src/tetrisd/room.c:271-273 | whoever any room believes dead is dead on the master's record and dead for real |
| `Agreement.ViewsMoveForward` | tetris/src/tetrisd/room.c:168-176 | over any step of any process, a room that keeps running never goes back to an earlier roster |
| `Agreement.NoBounce` | tetris/src/tetrisd/main.c:380-396 | until the match is over the master never forwards an attack to the room that sent it, in every run |
| `Agreement.BouncesExactlyWhen` | tetris/src/tetrisd/main.c:380-396 | over every run, an attack goes back to the slot it came from if and only if the match is over, the slot is started, and its victim was left alive on record by an earlier room of that slot |
| `Agreement.HomeMeansStale` | tetris/src/tetrisd/main.c:380-396 | an attack that would go home is for a player outside the ids of the slot's present room, after the match |
| `Strays.HomecomingLandsNowhere` | tetris/src/tetrisd/room.c:54-71 | in every run, garbage that a room reads and that one of its own players sent lands on nobody |
| `Agreement.StrayLandsNowhere` | tetris/src/tetrisd/room.c:54-71 | forwarded garbage for an id outside the room's own range hits no board |
| `Bounce.BouncesAfterTheEnd` | tetris/src/tetrisd/main.c:312-338 | a complete run of the server with its real boards and sizes, and so of the step system, in which the master is about to send an attack back to its own slot: a second room stays open, the match ends, the slot is closed and used again, and its new player clears a line with a T-spin |
| `FirstShots.FirstShot` | tetris/src/lib/libtetrisbrain/garbage.c:65-119 | a complete game on an empty board, played by requests only, that sends two lines |
| `LiveRuns.LiveRunIsRun` | tetris/src/tetrisd/room.c:209-350 | every run of the server in which each player of each room has a real board is a run of the step system, in which every room knows of its players exactly what their boards show |
| `LiveRuns.MoveIsStep` | tetris/src/tetrisd/room.c:226-350 | whatever boards do in such a run, the step system allows |
| `MatchEnd.MatchEndSound` | tetris/src/tetrisd/main.c:273-307 | in every run: until the match is over nobody has died or two players are alive, and no channel carries a game-over message; afterwards each channel carries at most one, none behind a room already told; every room told, and every message still telling one, names the one winner announced |
| `MatchEnd.AnnouncedOnce` | tetris/src/tetrisd/main.c:273-307 | in every run a step taken after the end puts no game-over message on any channel |
| `MatchEnd.EndingStep` | tetris/src/tetrisd/main.c:273-338 | the one step that ends a match: a named winner is the sole survivor on record; no survivor needs a single joined player or one room closing on at least two living players |
| `Victims.AttacksGoByMode` | tetris/src/tetrisd/room.c:308-350 | in every run garbage leaves a board only when its room routes it; it is then for whom the player's mode says, and lands on a living player of the room, goes to the master if the room has no such player, or is dropped; the sender's meter is empty afterwards |
| `Victims.ResolvedIsMeant` | tetris/src/tetrisd/room.c:75-107 | whom an attack is for, for every roster, mode and draw: at random one of the living rivals, in revenge the last attacker exactly if it is a living rival, else the locked target |
| `Victims.EveryRivalCanBeHit` | tetris/src/tetrisd/room.c:80-95 | at random each living rival in the match is picked by some draw |
| `Victims.EveryoneIsRouted` | tetris/src/tetrisd/room.c:307-350 | in every run, when a room has finished routing, nobody in it has garbage left to send |
| `Victims.AttacksAreForwarded` | tetris/src/tetrisd/main.c:380-396 | in every run an attack the master reads goes to the one started room in which its victim is alive on record and to no other, and is dropped if there is none |
| `Victims.GarbageArrives` | tetris/src/tetrisd/room.c:54-71 | in every run garbage a running room reads lands exactly if its victim is a living player of the room, and is dropped otherwise |
| `Victims.OpeningAims` | tetris/src/tetrisd/game.c:10-45 | at the start everybody aims by hand at the first other player of the room, at nobody when alone, and nobody has been attacked |
| `Tidings.RoomsCatchUp` | tetris/src/tetrisd/main.c:228-258 | in every reachable state a room is started on the master's side if and only if its worker plays, has the order, or has it in its channel; and a started room that has read its channel to the end holds exactly the master's record |
| `Tidings.VerdictArrives` | tetris/src/tetrisd/main.c:273-307 | in every run a room that plays when the match ends and is not closed since is gone, has been told of the end, or has the message in its channel |
| `Tidings.PassedOn` | tetris/src/tetrisd/main.c:345-415 | a feed entry the master reads goes to every other started room and nowhere else; a worker that reports ready is marked so and nobody waits for it any more |
| `Dealing.DealsFirstFit` | tetris/src/tetrisd/main.c:180-224 | in every run a new client goes to the first room with places; only if there is none is a room opened, in the first free slot and with the next block of ids; if that fails too nothing changes |
| `Dealing.NeverOverfull` | tetris/src/tetrisd/main.c:180-224 | in every run no room is dealt more clients than it has places |
| `OutPlayers.ShownOutExactlyWhen` | tetris/src/tetrisd/game.c:143-168 | in every run whoever a room shows as out is out; whoever goes out is shown so if and only if it was not in a request of their own; whoever quits is out and leaves, and nobody else leaves |
| `OutPlayers.OutButNotShown` | tetris/src/tetrisd/game.c:59-140 | a run of the server with its real boards and sizes after which a room shows someone as still in the game who is out |
| `OutPlayers.SlammingEnds` | tetris/src/lib/libtetrisbrain/engine.c:52-59 | whoever only slams pieces down is out after at most fifty-one, whatever they are |
| `Accounting.AttacksConserved` | tetris/src/tetrisd/room.c:308-350 | in every reachable state, attack by attack: those taken off boards are those landed plus those dropped plus those in flight, so none lands twice and none lands unsent |
| `Accounting.LandingsAreProper` | tetris/src/tetrisd/room.c:54-107 | over every run and every next step: whatever lands is one to twelve lines, added up to the board height to the meter of one living player other than its sender, whose last attacker is now the sender; a step that lands nothing raises no meter anywhere, lowers one only as its own board moves, and leaves every last attacker alone |
| `Accounting.MetersRiseOnlyByLanding` | tetris/src/tetrisd/room.c:308-350 | in every run, a player's meter rises only in a step in which an attack lands on that very player |
| `StartRules.StartsExactlyWhen` | tetris/src/tetrisd/main.c:244-268 | in every run, a slot that has not started is started by a step if and only if it is used, somebody has joined it counting the join this step brings, and the step is the operator's or brings a join after which there are as many records as the server has places |
| `StartRules.RecordCountsJoins` | tetris/src/tetrisd/main.c:355-369 | in every run the record holds one entry for each join ever heard of, up to its size, whoever has left or died since |
| `StartRules.CapacityCountsTheDeparted` | tetris/src/tetrisd/main.c:355-369 | so, where the record has a place for everyone, a waiting room that somebody has joined starts at a join if and only if that join is at least the capacity-th since the server began |
| `StartRules.StartsExactly` | tetris/src/tetrisd/main.c:263-268 | starting all rooms starts exactly the slots that are used, have not started and that somebody joined, and changes nothing else of any slot but its channel |
| `StartRuns.FullRoomWaits` | tetris/src/tetrisd/main.c:459 | against the greeting: a run of the server with its real sizes after which a full room, whose joins the master has all heard, has not started |
| `StartRuns.DepartedPlayersStartARoom` | tetris/src/tetrisd/main.c:355-369 | a run with the real sizes in which no room has started, two players wait and sixty-one have come and gone; the next step brings the join of one who is alone in a room for two, and starts it |
| `UniqueIds.ReachableUnique` | tetris/src/tetrisd/main.c:341-369 | in every run the master's record lists each player id once, and a join on its way is for an id not yet recorded |
| `MasterInvariant.ReachableInv` | tetris/src/tetrisd/main.c:341-415 | the joint invariant of master, channels and rooms holds in every reachable state |
| `MasterInvariant.StepInv` | tetris/src/tetrisd/main.c:198-415 | every step of any process keeps that invariant |
| `WorkerInvariant.WorkerStepKeeps` | tetris/src/tetrisd/room.c:158-350 | every step of a room keeps its part of the invariant: reports only of real deaths, reports before attacks, garbage meters in range |
| `MasterInvariant.MasterCloseInv` | tetris/src/tetrisd/main.c:312-338 | closing a slot keeps the invariant: its players are dead on record, or the match is over |
| `RoomBoards.RequestRefines` | tetris/src/tetrisd/game.c:59-140 | whatever action a player takes on the real board is one of the moves the room protocol allows, never raises the garbage meter, and leaves the protocol's picture of the board exact |
| `RoomBoards.TickRefines` | tetris/src/tetrisd/game.c:143-168 | one tick of a real board is one tick of the player as the protocol sees it |
| `RoomBoards.HitRefines` | tetris/src/tetrisd/room.c:54-71 | garbage landing on a player is garbage queued on the real board, with the attacker remembered |
| `RoomBoards.ConsumeRefines` | tetris/src/tetrisd/room.c:308-350 | taking outgoing garbage to route it empties exactly that meter of the board |
| `RoomBoards.QuitRefines` | tetris/src/tetrisd/game.c:59-140 | quitting ends the board and deactivates the player together |
| `RoomBoards.StartShows` | tetris/src/tetrisd/game.c:10-45 | a freshly started board is what the protocol takes a fresh player to be |
| `MasterServers.MasterServer.constructor` | tetris/src/tetrisd/main.c:46-54 | an empty record, unused slots, and a match neither started nor over |
| `MasterServers.MasterServer.Send` | tetris/src/tetrisd/main.c:228-242 | loops over the slots and appends the message to exactly the channels of the audience |
| `MasterServers.MasterServer.BroadcastRoster` | tetris/src/tetrisd/main.c:228-242 | every used and started slot gets the current record, in record order, and nothing else changes |
| `MasterServers.MasterServer.StartRoom` | tetris/src/tetrisd/main.c:244-258 | a used slot that has not started and that somebody joined is told to start, then every started slot gets the record; any other is left alone |
| `MasterServers.MasterServer.StartAllRooms` | tetris/src/tetrisd/main.c:263-268 | the loop over all slots equals the fold used in the run theorems |
| `MasterServers.MasterServer.CountAlive` | tetris/src/tetrisd/main.c:273-307 | the counting loop returns the number of living players on record |
| `MasterServers.MasterServer.CheckGlobalEnd` | tetris/src/tetrisd/main.c:273-307 | announces the end to every used slot exactly when the match is not over and is decided, naming the last survivor or nobody |
| `MasterServers.MasterServer.KillById` | tetris/src/tetrisd/main.c:370-378 | marks the recorded player of that id dead and nobody else |
| `MasterServers.MasterServer.KillBySlot` | tetris/src/tetrisd/main.c:312-338 | marks exactly the recorded players of that slot dead |
| `MasterServers.MasterServer.CloseRoom` | tetris/src/tetrisd/main.c:312-338 | frees the slot, kills its players unless the match is over, tells the others, and checks for the end |
| `MasterServers.MasterServer.HandleJoined` | tetris/src/tetrisd/main.c:355-369 | records the player while there is room, tells every room, and starts all rooms at capacity |
| `MasterServers.MasterServer.HandleAttack` | tetris/src/tetrisd/main.c:380-396 | forwards to the room of the first living player of that id if it is used and started, drops the attack otherwise |
| `MasterServers.MasterServer.HandleHubMsg` | tetris/src/tetrisd/main.c:341-415 | the whole dispatch equals the message step used in the run theorems |
| `MasterServers.MasterServer.FillingRoom` | tetris/src/tetrisd/main.c:180-188 | finds the first slot that still takes players, or none |
| `MasterServers.MasterServer.AcceptClient` | tetris/src/tetrisd/main.c:198-224 | deals a client into a filling room, or into a new one if a slot is free and forking succeeds |
| `MasterServers.MasterServer.SpawnRoom` | tetris/src/tetrisd/main.c:124-177 | takes the slot with the next block of player ids |
| `RoomWorkers.RoomWorker.constructor` | tetris/src/tetrisd/game.c:10-45 | fresh boards for everyone who joined, each aimed at the first other player |
| `RoomWorkers.RoomWorker.Find` | tetris/src/tetrisd/game.c:47-55 | finds the first active player of an id, or none |
| `RoomWorkers.RoomWorker.CountAlivePlayers` | tetris/src/tetrisd/game.c:172-181 | counts the active players whose board is not over |
| `RoomWorkers.RoomWorker.ApplyRemoteGarbage` | tetris/src/tetrisd/room.c:54-71 | queues the lines on the victim if it is here and alive, and changes nothing otherwise |
| `RoomWorkers.RoomWorker.HandleHubMsg` | tetris/src/tetrisd/room.c:257-281 | takes over rosters, applies garbage, notes the end, and ignores feed messages |
| `RoomWorkers.RoomWorker.ReportEliminations` | tetris/src/tetrisd/room.c:296-305 | reports each unreported death once, in player order |
| `RoomWorkers.RoomWorker.ChooseVictim` | tetris/src/tetrisd/room.c:75-107 | at random any living rival in the match, in revenge a last attacker who is a living rival, the same among the room's own players if the match's roster offers none, else the locked target |
| `RoomWorkers.RoomWorker.RouteOne` | tetris/src/tetrisd/room.c:308-350 | takes one player's outgoing garbage and hits locally, forwards or drops it as the run theorems say |
| `RoomWorkers.RoomWorker.RouteGarbage` | tetris/src/tetrisd/room.c:308-350 | does so for every player in order |
| `RoomWorkers.RoomWorker.AfterTick` | tetris/src/tetrisd/room.c:296-350 | the two loops after a tick are the report steps of all players and then their routing steps, so reports precede attacks on the channel |
| `EngineInvariant.ReachableInv` | tetris/src/tetrisd/game.c:59-140 | from a started game, every sequence of actions, ticks and incoming garbage keeps the invariant: valid or freshly spawned piece, no full row, cells in range, whole bags, pending at most the board height, outgoing at most 12 |
| `EngineInvariant.StepKeeps` | tetris/src/lib/libtetrisbrain/engine.c:44-142 | every single input keeps that invariant |
| `EngineInvariant.ActionKeeps` | tetris/src/tetrisd/game.c:59-140 | every player action keeps it, holding included although it moves the piece unchecked |
| `EngineInvariant.LinesMadeBound` | tetris/src/lib/libtetrisbrain/engine.c:68-96 | a lock on a board without full rows clears at most four lines, and at most three unless the piece is an I |
| `EngineInvariant.LockDamageBound` | tetris/src/lib/libtetrisbrain/garbage.c:65-119 | damage per lock is at most twelve lines |
| `EngineRuns.LockingNeverOverwrites` | tetris/src/lib/libtetrisbrain/engine.c:44-108 | over every run, whenever a piece locks it is collision-free and all its cells are on the board and empty |
| `EngineRuns.CellConservation` | tetris/src/lib/libtetrisbrain/engine.c:68-96 | in every reachable state: occupied cells are 4 per placed piece, less 10 per cleared line, plus 9 per garbage row inserted, less cells pushed off the top |
| `EngineRuns.LockDamageConserved` | tetris/src/lib/libtetrisbrain/engine.c:68-96 | per lock in any run: damage equals what is sent plus what came off the pending meter, lines and damage are within bounds, pending at most the board height |
| `LockRuns.BoardAfterLock` | tetris/src/lib/libtetrisbrain/engine.c:68-96 | in every run, when a piece locks: its kind is written under its four cells; then, if some row is full, every other row comes down by the number of full rows below it and empty rows come in on top; if none is, the stack is lifted by the whole pending meter and garbage with one hole a row comes in below |
| `LockRuns.GarbageConserved` | tetris/src/lib/libtetrisbrain/garbage.c:46-62 | over every run of a game: every line that reached it is on the meter, was lost to a full meter, was cancelled by own damage, or came in as a row |
| `ClearRuns.LockDealsOwed` | tetris/src/lib/libtetrisbrain/garbage.c:65-119 | in every run, from the record of all locks before: a plain clear of one to four lines is worth 0, 1, 3 or 4 and a T-spin twice its lines, one more if it and the last clear before it were difficult, and one for every second clear in a row, up to four, and a fifth from the twelfth; that cancels pending garbage and the rest is sent |
| `ClearRuns.CountersTell` | tetris/src/lib/libtetrisbrain/board_control.c:241-247 | in every state of every run the counters are those of the record of locks: pieces, lines, a hundred points a line, a level every ten lines, fours and T-spins |
| `ClearRuns.SpinIsSpun` | tetris/src/lib/libtetrisbrain/engine.c:7-41 | a lock is a T-spin exactly for a T whose last move was a turn and of whose four tested corners at least three are off the board or taken |
| `ClearRuns.RunTurns` | tetris/src/lib/libtetrisbrain/engine.c:9-12 | in every run the rotation flag says whether, of the requests that moved a piece, the last was a turn |
| `ClearRuns.CornersAreAroundTheMiddle` | tetris/src/lib/libtetrisbrain/engine.c:14-41 | the four corners tested lie around the middle of the T in one rotation only |
| `ClearRuns.UprightNeverSpins` | tetris/src/lib/libtetrisbrain/engine.c:14-41 | in every run an upright T never locks as a T-spin |
| `HoldRuns.HoldsExactlyWhen` | tetris/src/lib/libtetrisbrain/hold.c:5-30 | in every state of every run a hold exchanges the piece if and only if the game is not over and there has been no exchange since the last lock; otherwise it changes nothing |
| `HoldRuns.OneExchangeAPiece` | tetris/src/tetrisd/game.c:105-111 | in every run some piece has locked between any two exchanges |
| `PlayRuns.RequestsMove` | tetris/src/tetrisd/game.c:68-103 | left, right and soft drop move by one cell if it is free; a turn takes the first free of its five tries; a drop goes down as far as every row on the way is free and locks, or ends the game above the board; a successful move restarts the lock delay; nothing else changes |
| `PlayRuns.RequestsAim` | tetris/src/tetrisd/game.c:113-120 | the aiming requests change the mode round its cycle, or the target to the next living opponent, and nothing else |
| `PlayRuns.EndsExactlyWhen` | tetris/src/lib/libtetrisbrain/engine.c:44-108 | in every run a step ends a game if and only if the player quits, the piece comes to rest above the board, or a piece locks and the next one finds a cell it needs in the top row taken |
| `PlayRuns.OverIsFinal` | tetris/src/tetrisd/game.c:59-64 | a game that is over stays as it is, whatever follows; only waiting garbage is taken away |
| `DamageRuns.DamageConserved` | tetris/src/lib/libtetrisbrain/engine.c:75-96 | over every run of a game: all damage computed at locks cancelled pending garbage, was taken to be sent, still waits, or was overwritten; and nothing was overwritten if and only if no piece locked while garbage was waiting |
| `DamageRuns.OverwritingHappens` | tetris/src/lib/libtetrisbrain/engine.c:89-90 | a game in which a second lock overwrites garbage that waits to be sent |
| `BagFairness.BagFair` | tetris/src/lib/libtetrisbrain/bag.c:16-51 | over every run, any 13 consecutive draws contain all seven pieces |
| `BagFairness.PreviewTruth` | tetris/src/lib/libtetrisprotocol/protocol.c:15-18 | the three previewed pieces are the next three drawn, whatever the player does and whatever is rolled, across refills |
| `BagFairness.PieceConservation` | tetris/src/lib/libtetrisbrain/hold.c:5-30 | over every run the pieces drawn are the pieces locked plus the current plus the held one |
| `Timers.PieceCannotHang` | tetris/src/lib/libtetrisbrain/engine.c:110-142 | from any reachable state, in every future without player actions that has 50*(20-y) ticks, at most 1250, a tick locks the piece or ends the game, however much garbage arrives or leaves between ticks; y is never below -5 |
| `Engine.TickShows` | tetris/src/lib/libtetrisbrain/engine.c:110-142 | a tick changes more than the timers exactly when one of them runs out, and then the piece falls a row, the game ends or the piece locks |
| `Timers.FallsAndLocksOnTime` | tetris/src/lib/libtetrisbrain/engine.c:110-142 | from every reachable state, while the player does nothing: a piece that can fall stays until the tick its pace says, 50 ticks less 5 for every ten lines and at least 5, and falls one row in it; a piece that cannot stays until the fiftieth tick of the lock delay and locks or ends the game in it; no sooner and no later |
| `Timers.TickProgress` | tetris/src/lib/libtetrisbrain/engine.c:110-142 | each tick that does not resolve the piece strictly lowers a bounded measure |
| `Rotations.RotationRecoverable` | tetris/src/lib/libtetrisbrain/board_control.c:65-137 | on every board, after a successful quarter turn of a collision-free piece the opposite turn succeeds; it restores the pose when no kick was used, and in general if and only if no earlier kick of the way back lands elsewhere |
| `Rotations.RotationNotAlwaysRestored` | tetris/src/lib/libtetrisbrain/board_control.c:65-121 | a concrete T on an empty board whose turn and counter-turn end elsewhere |
| `Rotations.KicksAreDifferences` | tetris/src/lib/libtetrisbrain/board_control.c:35-121 | every kick is the difference of one shift for the rotation left and one for the rotation reached |
| `Rotations.TurnsOffTheWall` | tetris/src/lib/libtetrisbrain/board_control.c:65-121 | an I against either wall of an empty board turns by being pushed two columns off it |
| `Rotations.OppositeKick` | tetris/src/lib/libtetrisbrain/board_control.c:35-121 | for every piece and quarter turn the kick list of the way back is the pointwise negation |
| `Rotations.ClimbingKick` | tetris/src/lib/libtetrisbrain/board_control.c:65-121 | every kick that changes the row shares its column shift with an earlier kick that does not |
| `Rotations.RotationFloor` | tetris/src/lib/libtetrisbrain/board_control.c:65-121 | no rotation takes a piece above row -5 |
| `Rotations.KicksDistinct` | tetris/src/lib/libtetrisbrain/board_control.c:65-121 | the five kicks of a turn are pairwise different for every piece but the O |
| `Pieces.SevenPieces` | tetris/src/lib/libtetrisbrain/board_control.c:4-14 | the seven upright pieces cell by cell, as pictures |
| `Pieces.QuarterTurn` | tetris/src/lib/libtetrisbrain/board_control.c:17-32 | one more clockwise turn is the box turned by a quarter, for every piece |
| `Pieces.FourCells` | tetris/src/lib/libtetrisbrain/board_control.c:4-32 | every piece covers four cells in every rotation |
| `Pieces.OnlyIFillsFourRows` | tetris/src/lib/libtetrisbrain/board_control.c:4-32 | no piece but the I touches both the first and the last row of its box |
| `Boards.LockAt` | tetris/src/lib/libtetrisbrain/board_control.c:172-197 | locking writes the kind exactly into the covered cells on the board, and leaves all others |
| `Boards.ClearedBoard` | tetris/src/lib/libtetrisbrain/board_control.c:200-250 | clearing leaves a board of the same shape with no full row |
| `Boards.SurvivorsKeep` | tetris/src/lib/libtetrisbrain/board_control.c:200-250 | the rows kept are rows of the board, none full |
| `Boards.ClearedAt` | tetris/src/lib/libtetrisbrain/board_control.c:200-250 | row by row: a row that is not full comes down by as many rows as were full below it, and as many as were full come in empty on top |
| `Boards.OccupiedCleared` | tetris/src/lib/libtetrisbrain/board_control.c:200-250 | clearing removes exactly a row's width of cells per full row |
| `Locking.LockAddsFour` | tetris/src/lib/libtetrisbrain/board_control.c:172-197 | locking a collision-free piece adds exactly four cells |
| `Locking.LockCompletes` | tetris/src/lib/libtetrisbrain/board_control.c:172-250 | a lock completes at most four rows, at most three unless an I |
| `Locking.CompletedRowIsTouched` | tetris/src/lib/libtetrisbrain/board_control.c:172-197 | a row that becomes full is one the piece touches |
| `Garbage.AddGarbageKeeps` | tetris/src/lib/libtetrisbrain/garbage.c:5-43 | garbage keeps cells in range and never makes a full row |
| `Garbage.OccupiedAddGarbage` | tetris/src/lib/libtetrisbrain/garbage.c:5-43 | garbage adds nine cells per row and removes exactly those pushed off the top |
| `Garbage.DamageBound` | tetris/src/lib/libtetrisbrain/garbage.c:65-119 | damage is at most 12 for every combo and streak |
| `Garbage.DamageBoundReached` | tetris/src/lib/libtetrisbrain/garbage.c:65-119 | and 12 is reached |
| `Garbage.AddGarbageAt` | tetris/src/lib/libtetrisbrain/garbage.c:5-43 | cell by cell: the stack is lifted by as many rows as come in, and each of those is garbage with one hole |
| `Garbage.QueuedRises` | tetris/src/lib/libtetrisbrain/garbage.c:46-62 | the meter and what is lost to it together rise by what arrives |
| `Garbage.CancelConserves` | tetris/src/lib/libtetrisbrain/engine.c:68-96 | cancelling damage against pending garbage conserves their difference and leaves at most one of them |
| `Shuffling.ShufflePermutes` | tetris/src/lib/libtetrisbrain/bag.c:5-13 | for every length and all draws the shuffle yields a permutation |
| `Shuffling.ShuffleExactlyOnce` | tetris/src/lib/libtetrisbrain/bag.c:5-13 | on distinct elements each permutation is produced by exactly one sequence of draws |
| `Shuffling.ShuffleArray` | tetris/src/lib/libtetrisbrain/bag.c:5-13 | the in-place swaps compute that shuffle |
| `Targeting.CycleTargetSound` | tetris/src/lib/libtetrisbrain/targeting.c:13-39 | cycling moves to the nearest living opponent after the current target if a roster of two or more holds one, and otherwise leaves the target alone |
| `Targeting.CycleManualTarget` | tetris/src/lib/libtetrisbrain/targeting.c:13-39 | the two loops compute that target |
| `Targeting.ResolveTargetSound` | tetris/src/lib/libtetrisbrain/targeting.c:42-77 | a random attack goes to a living opponent if there is one and can go to each; a vengeful one to a last attacker who is a living opponent; every other to the locked target |
| `Targeting.ResolveTargetId` | tetris/src/lib/libtetrisbrain/targeting.c:42-77 | the collecting and searching loops compute that choice |
| `BoardArrays.IsValidPos` | tetris/src/lib/libtetrisbrain/board_control.c:142-169 | the scan accepts exactly the poses whose every solid cell is inside and, on the board, empty |
| `BoardArrays.LockPiece` | tetris/src/lib/libtetrisbrain/board_control.c:172-197 | the in-place write is the lock of the run theorems |
| `BoardArrays.ClearRows` | tetris/src/lib/libtetrisbrain/board_control.c:200-250 | for every board size: the rows end up as empty rows on top of the non-full rows in order, the result is the number of full rows, and the loop that re-checks a row terminates |
| `BoardArrays.AddGarbage` | tetris/src/lib/libtetrisbrain/garbage.c:5-43 | the in-place shift lifts every cell by as many rows as come in, up to the board height, and fills the bottom with garbage that has one hole a row |
| `GameStates.GameState.constructor` | tetris/src/lib/libtetrisbrain/state.c:12-50 | a started game with two shuffled bags |
| `GameStates.GameState.RefillBag` | tetris/src/lib/libtetrisbrain/bag.c:16-29 | shifts the second bag down and appends a fresh shuffled one |
| `GameStates.GameState.SpawnNewPiece` | tetris/src/lib/libtetrisbrain/bag.c:32-51 | takes the next piece of the bag to the spawn pose, refilling at the seventh |
| `GameStates.GameState.HoldPiece` | tetris/src/lib/libtetrisbrain/hold.c:5-30 | refused after a hold; otherwise the held piece, or the next one, appears at the top, the piece in play is held, and no further hold is accepted |
| `GameStates.GameState.Shift` | tetris/src/lib/libtetrisbrain/movement.c:4-32 | moves if the new place is free and only then |
| `GameStates.GameState.HardDrop` | tetris/src/lib/libtetrisbrain/movement.c:34-42 | the loop ends on the lowest free place below, and returns the rows fallen |
| `GameStates.GameState.TestRotate` | tetris/src/lib/libtetrisbrain/board_control.c:65-121 | the kick loop takes the first free kick, or changes nothing |
| `GameStates.GameState.CheckTSpin` | tetris/src/lib/libtetrisbrain/engine.c:7-41 | three of the four corners of a T that last rotated |
| `GameStates.GameState.ClearLines` | tetris/src/lib/libtetrisbrain/board_control.c:200-250 | board, line count, score and level after a clear |
| `GameStates.GameState.CalculateGarbage` | tetris/src/lib/libtetrisbrain/garbage.c:65-119 | the damage and the streaks of a lock, whatever locks came before, are those the record of locks owes |
| `GameStates.GameState.QueueGarbage` | tetris/src/lib/libtetrisbrain/garbage.c:46-62 | the meter rises by the lines that arrive, up to the board height |
| `GameStates.GameState.LockAndClear` | tetris/src/lib/libtetrisbrain/engine.c:68-73 | locks, counts and clears |
| `GameStates.GameState.TradeGarbage` | tetris/src/lib/libtetrisbrain/engine.c:75-96 | cancels damage against pending, lets garbage in after a lock without lines |
| `GameStates.GameState.Settle` | tetris/src/lib/libtetrisbrain/engine.c:61-108 | everything that follows a landing, in its order: T-spin count, lock, clear, damage, cancellation, garbage, next piece, block out |
| `GameStates.GameState.TickGame` | tetris/src/lib/libtetrisbrain/engine.c:44-108 | falls one row, or locks, or ends the game |
| `GameStates.GameState.UpdateTimers` | tetris/src/lib/libtetrisbrain/engine.c:110-142 | gravity and lock timers and the ticks they trigger; the result says whether a timer ran out |
| `GameStates.GameState.ApplyAction` | tetris/src/tetrisd/game.c:59-140 | each action on the live board is the action of the run theorems |
| `HyperText.ParserUndoesPrinter` | corestack/src/lib/libhypertext.c:73-123 | for every message whose headers passed the header check: parsing the printed text gives the message back if and only if the first two tokens have no space, the third no line end, there are at most 16 headers, and a message without headers has a body that shows no blank line past its start |
| `HyperText.OverrunsIff` | corestack/src/lib/libhypertext.c:95-113 | a text that spells a message makes the parser store a header outside its array if and only if the message has more than 16 |
| `HyperText.BuilderOverruns` | corestack/src/lib/libhypertext.c:158-175 | whatever headers are added one after another: the header array is overrun if and only if more of them pass the check than there are places left, and otherwise the message has exactly those that pass |
| `HyperText.ManyHeadersOverrun` | corestack/src/lib/libhypertext.c:95-113 | the text of every printable message with more than 16 headers overruns the parser's array |
| `HyperText.SeventeenHeaders` | corestack/src/lib/libhypertext.c:158-175 | seventeen accepted headers on which the builder leaves its array, and the parser on their printed text |
| `HyperText.CountAloneDoesNotOverrun` | corestack/src/lib/libhypertext.c:95-108 | a text with 17 counted header lines on which the parser returns before it stores any |
| `HyperText.BareBodyLost` | corestack/src/lib/libhypertext.c:45-67 | a message without headers that is not read back |
| `HyperText.CountsHeaders` | corestack/src/lib/libhypertext.c:45-67 | the header count stops at the first blank line, so blank lines in the body do not matter |
| `HyperTextBuffers.NextToken` | corestack/src/lib/libhypertext.c:16-39 | cuts the buffer in place at the first separator, or reports there is none |
| `HyperTextBuffers.CountHeaderLines` | corestack/src/lib/libhypertext.c:45-67 | the counting loop over the buffer |
| `HyperTextBuffers.ParseHypertext` | corestack/src/lib/libhypertext.c:73-123 | the in-place parser succeeds exactly when the text parses, every part then readable at its pointer, and leaves its header array on exactly the texts that overrun it |
| `HyperTextBuffers.ConvertToHypertext` | corestack/src/lib/libhypertext.c:194-219 | for every message: writes outside the buffer if and only if its head passes the end of the buffer without some part of it ending exactly there; otherwise reports success exactly when the text is at most the buffer size, while the whole text is in the buffer exactly when it is strictly shorter |
| `HyperTextBuffers.LosesLastCharacter` | corestack/src/lib/libhypertext.c:194-219 | a message of exactly the buffer size whose printing is reported as a success and loses its last character |
| `HyperTextBuffers.WritesOutside` | corestack/src/lib/libhypertext.c:194-219 | a message with one overlong header whose printing writes outside the buffer |
| `HyperTextBuffers.PrintThenParse` | corestack/src/lib/libhypertext.c:73-219 | print into a buffer, parse that buffer in place: every part of a printable message of at most 16 headers that is shorter than the buffer is there |
| `Formats.ScanfUndoesPrintf` | corestack/src/lib/libhtttp/payload.c:5-76 | reading by a format undoes printing by it, for every format whose numbers are separated and all values |
| `Formats.ScanBack` | corestack/src/lib/libhtttp/payload.c:5-76 | a printed number is read back whatever follows, unless it is a digit |
| `Payloads.AttackText` | corestack/src/lib/libhtttp/payload.c:5-8 | the text of every attack, character by character |
| `Payloads.InputText` | corestack/src/lib/libhtttp/payload.c:34-37 | the text of every input |
| `Payloads.AttackRoundTrip` | corestack/src/lib/libhtttp/payload.c:5-13 | every attack payload is read back |
| `Payloads.InputRoundTrip` | corestack/src/lib/libhtttp/payload.c:34-42 | every input payload is read back |
| `Payloads.RosterRoundTrip` | corestack/src/lib/libhtttp/payload.c:15-32 | every roster is read back, whatever its length |
| `Payloads.EncodeRosterText` | corestack/src/lib/libhtttp/payload.c:15-22 | the building loop produces that text |
| `StatePayloads.StateRoundTrip` | corestack/src/lib/libhtttp/payload.c:44-76 | every snapshot its field types can hold is read back: two hundred byte-sized cells and twenty-three numbers |
| `StatePayloads.StateLength` | corestack/src/lib/libhtttp/payload.c:44-59 | a snapshot's text has at most 706 characters |
| `StatePayloads.EncodeStateText` | corestack/src/lib/libhtttp/payload.c:44-59 | the cell loops and the formatted numbers |
| `StatePayloads.DecodeStateText` | corestack/src/lib/libhtttp/payload.c:61-76 | the cell loops back; the numbers read before a mismatch replace what their fields held, the others stay |
| `Htttp.NamesAndMethods` | corestack/src/lib/libhtttp.c:13-20 | a name stands for a method exactly when the method has that name |
| `Htttp.StringToMethod` | corestack/src/lib/libhtttp.c:46-66 | the table search finds the method of a name, or the unknown one |
| `Htttp.MethodToString` | corestack/src/lib/libhtttp.c:79-97 | the table search finds the name, and none for the unknown method |
| `Htttp.CreateRequest` | corestack/src/lib/libhtttp.c:149-174 | builds the request line, the four headers that pass the check and the body, in this order |
| `Htttp.ExtractInfo` | corestack/src/lib/libhtttp.c:230-243 | method, first player-id header and body |
| `Htttp.RequestSays` | corestack/src/lib/libhtttp.c:122-180 | every request states its path, version and body length, and its type and date unless they hold a line break |
| `Htttp.RequestRoundTrip` | corestack/src/lib/libhtttp.c:122-243 | whatever is put in a request, and whatever headers were refused on the way, the reader of the printed text gets method, player id and body |
| `StateSync.StateArrives` | tetris/src/lib/libtetrisprotocol/protocol.c:6-74 | for every board satisfying the engine invariant: built, encoded, printed, parsed, extracted, decoded and applied, the owning client draws exactly the server's cells, piece, previews, hold, counters, targeting and outcome, and every other client's picture is unchanged |
| `StateSync.ReachableStateArrives` | tetris/src/tetrisd/room.c:355-382 | the same for every state a whole game can reach |
| `StateDelivery.DeliverState` | tetris/src/tetrisd/room.c:366-376 | the same through the real buffer: printed into it, cut up in place with terminators, read back part by part, decoded and applied, whatever the payload sent and the one read into held before |
| `StateDelivery.SendState` | tetris/src/tetrisd/room.c:366-376 | the server's half: the buffer holds the whole printed message |
| `StateDelivery.ReceiveState` | tetris/src/tetrisu/main.c:137-157 | the client's half: what it draws from the buffer is what the text says |
| `StateDelivery.StateMessageNulFree` | corestack/src/lib/libhtttp.c:149-174 | no part of such a message holds a NUL |
| `StateSync.StateFits` | corestack/src/lib/libhypertext.c:194-219 | such a message is always shorter than the message buffer |
| `StateSync.BuildStatePayload` | tetris/src/lib/libtetrisprotocol/protocol.c:6-37 | fills the snapshot from the game and leaves the one unset field as it was |
| `StateSync.ApplyStatePayload` | tetris/src/lib/libtetrisprotocol/protocol.c:41-74 | overwrites the picture, with the preview box reading the three sent pieces |
| `StateSync.ActionArrives` | corestack/src/lib/libhtttp.c:122-147 | every action a client sends is the one the server decodes, under the same player id |
| `Queues.Queue.constructor` | corestack/include/utils/queue.h:29-33 | an empty queue |
| `Queues.Queue.Enqueue` | corestack/include/utils/queue.h:48-54 | appends, or refuses when the buffer is used up |
| `Queues.Queue.Dequeue` | corestack/include/utils/queue.h:57-67 | removes the first item and starts the buffer over when it runs empty |
| `Queues.Queue.Peek` | corestack/include/utils/queue.h:70-75 | the first item, or nothing exactly when empty |
| `Queues.FirstInFirstOut` | corestack/include/utils/queue.h:29-75 | over every history of calls: what waits is what was taken in minus what was taken out, in order |
| `Queues.RefusesWhenWornOut` | corestack/include/utils/queue.h:48-67 | after any history an item is refused if and only if the whole capacity was taken in since the queue last was empty |
| `Queues.CanRefuseWithRoom` | corestack/include/utils/queue.h:42-67 | so a queue of any capacity can refuse while it holds a single item |
| `QueueThreads.QueueIsSafe` | corestack/src/lib/libbattleroyale/server.c:774-792 | for any capacity and every interleaving of single memory accesses: peek never finds the queue empty, nothing is stored outside it, and what was delivered is a prefix of what was accepted |
| `QueueThreads.EmptyMeansEmpty` | corestack/src/lib/libbattleroyale/server.c:774-792 | when the unlocked check sees an empty queue, everything accepted so far has been delivered |
| `QueueThreads.MoveRefinesQueue` | corestack/src/lib/libbattleroyale/server.c:400-402 | each memory access leaves the shared queue alone, enqueues the listener's message or dequeues the first; the listener finds room exactly when the queue accepts |
| `QueueThreads.RunKeeps` | corestack/src/lib/libbattleroyale/server.c:442-444 | mutual exclusion and the content of the buffer are kept by every interleaving |
| `LogRecords.FixedText` | tetris/src/lib/libtetrislog/logrecord.c:14-23 | a text that fits a field is kept whole, a longer one loses exactly what does not fit |
| `LogRecords.CopyFixed` | tetris/src/lib/libtetrislog/logrecord.c:14-23 | the bounded copy pads with zeros and always terminates |
| `LogRecords.RecordBuilder.BuildLogRecord` | tetris/src/lib/libtetrislog/logrecord.c:78-96 | stamps the next sequence number and advances the counter |
| `LogRecords.UnpackUndoesPack` | tetris/src/lib/libtetrislog/logrecord.c:27-74 | a record survives packing and unpacking if and only if both its texts are terminated |
| `LogRecords.BuiltSurvives` | tetris/src/lib/libtetrislog/logrecord.c:78-96 | every built record survives, and tells its reader the time to the millisecond, the level, the sender and its number, and the texts as far as they fit |
| `LogRecords.PackLogRecord` | tetris/src/lib/libtetrislog/logrecord.c:27-47 | fills the 292 bytes, numbers most significant byte first |
| `LogRecords.UnpackLogRecord` | tetris/src/lib/libtetrislog/logrecord.c:50-74 | reads them back and terminates both texts, whatever arrived |
| `LogClients.LogClient.LogPush` | tetris/src/lib/libtetrislog/logclient.c:41-53 | queues a built record or counts it as dropped |
| `LogClients.LogClient.LogDrain` | tetris/src/lib/libtetrislog/logclient.c:56-88 | sends the first queued records in order, counts failed sends as dropped, removes both |
| `LogClients.SentAsPushed` | tetris/src/lib/libtetrislog/logclient.c:41-88 | over every run until the numbers wrap, every record sent tells of the push its number stands for: level, time, texts and process |
| `LogClients.EveryPushAccountedFor` | tetris/src/lib/libtetrislog/logclient.c:41-88 | over every run and whatever the sends do: each push was sent, is counted as dropped or is still queued, and until the numbers wrap those sent rise strictly |
| `LogDaemons.LogDaemon.FindTracker` | tetris/src/tetrislogd/main.c:56-73 | the tracker of a sender, a new one while there is room, or none |
| `LogDaemons.LogDaemon.Receive` | tetris/src/tetrislogd/main.c:285-299 | adds the gap to the totals and moves the tracker on; a datagram of the wrong size changes nothing |
| `LogDaemons.LogDaemon.Summarise` | tetris/src/tetrislogd/main.c:311-318 | the periodic summary reports and clears the period's count and leaves the total and the trackers alone |
| `LogDaemons.SummariesAddUp` | tetris/src/tetrislogd/main.c:285-318 | whenever summaries are made: what all of them reported and the running period together are the total, which is that of the datagrams alone |
| `LogDaemons.TotalIsMissing` | tetris/src/tetrislogd/main.c:285-299 | for datagrams of any senders in any order, each sender's numbers rising: the total is the sum over tracked senders of last - first + 1 - received; all senders are tracked up to 32, the first 32 otherwise |
| `LogLoss.ProcessShare` | tetris/src/lib/libtetrislog/logclient.c:41-88 | what the daemon misses from a process is exactly what it did not send, apart from records before its first or after its last delivered one |
| `LogLoss.LossIsVisible` | tetris/src/tetrislogd/main.c:285-299 | for up to 32 processes, any runs of them and any interleaving of their datagrams: the daemon's total is the sum of those losses |
| `LogLoss.DatagramsCarryMarks` | tetris/src/lib/libtetrislog/logrecord.c:50-74 | the daemon unpacks exactly the records the client sent |

## Left out

- Sockets, polling, forking and the encryption handshake: replaced by reliable first-in-first-out channels with a close event.
- Shutdown on a signal, which closes the hubs of rooms that are still running: a run of the model has no such step. The normal end
  of the daemon, once a match ran and no slot is used, is `Systems.Finished`.
- Fairness and liveness: every run theorem is a safety statement, and nothing is said about how soon a message is read.
- The redirect of a parked client and the ports of the rooms: dealing a client into a slot changes the slot's counters only.
- More connections to one worker than its lobby holds: a join is for one of the ids of the room's own block.
- Wrap-around of counters in the engine and of the room sequence number; the 32-bit ranges of a snapshot are a stated condition.
- What happens after the program has written outside an array: the model only says exactly when it does (`Wrappers.Outcome`). A
  client that receives such a text keeps its picture in `StateSync.Receive`; no message the server builds is one.
- StatePayloads.DecodeStateText: a snapshot with fewer than two hundred cells is modelled as unreadable; the program would read on
  past the end of the text.
- Rosters that cannot be read, where the program would follow a null pointer: modelled as unreadable.
- Numbers beyond 64 bits in formatted input, whose conversion C leaves undefined.
- QueueThreads.QueueIsSafe: memory accesses of the two threads take effect one at a time; weaker memory orders are not modelled.
- LogDaemons.TotalIsMissing: senders whose numbers do not rise, which happens only after 2^32 records or when a pid is reused.
- The kill feed, the event bus, the client list, the terminal client, log formatting and configuration files: these would only add
  easy members.
