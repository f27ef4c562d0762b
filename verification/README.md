# Verified models of the DiamondCore game server

DiamondCore is a game server of the MaNGOS family. Beneath its packets and queries it keeps several
stateful subsystems whose correctness depends on invariants over whole runs. This project models five
of them in Dafny and proves those invariants.

| subsystem | files | source |
|---|---|---|
| achievements | `Achievement*.dfy` | `src/game/AchievementMgr.cpp`, `.h` |
| auction house | `Auction*.dfy` | `src/game/AuctionHouseHandler.cpp`, `AuctionHouseMgr.cpp`, `.h` |
| battleground base class: event layer, participants, start and end | `BattleGroundEvents.dfy`, `BattleGroundRoster*.dfy`, `WorldStates.dfy` | `src/game/BattleGround.cpp`, `.h` |
| the four battlegrounds: Alterac Valley, Eye of the Storm, Arathi Basin, Warsong Gulch | `BattleGroundAV*.dfy`, `BattleGroundEY*.dfy`, `BattleGroundAB*.dfy`, `BattleGroundWS*.dfy` | `src/game/BattleGroundAV.cpp`, `EY`, `AB`, `WS` and headers |
| map files | `MapFile.dfy`, `MapPacker.dfy`, `MapExtractor.dfy`, `MapTile.dfy` | `contrib/extractor/System.cpp`, `src/game/GridMap.cpp` |

## How the files fit together

Each subsystem comes in the same shape. A module of values holds the state and one function per
operation, with the branches, constants and statement order of the source. A second module proves what
every operation keeps and lifts it to all runs by induction. A class holds the fields the source
updates in place; its methods follow the source statement by statement, loops included, and each one
ensures that its new state is the function of its old state. What is proved about the functions
therefore holds of the methods.

A function and the method that computes it could still be wrong in the same way. What each operation is
for is therefore written down once more apart from both: exact answers and whole worlds of the auction
house (`AuctionDealings`), what an award must have earned (`AchievementAwards`), and the rules of the
four battlegrounds and of taking part in numbers (`BattleGroundAVRules`, `BattleGroundEYRules`,
`BattleGroundABRules`, `BattleGroundWSRules`, `BattleGroundRosterRules`), each with laws over whole runs.

- **Achievements.** The update scan, the completion check and the award are mutually recursive; the
  measure is the set of achievements still open. The about one hundred kinds of criteria are an oracle
  that says, for one criterion, to leave it, to keep it, to advance it (set, accumulate, highest) or to
  reset it; linked criteria are modelled as they are. Above the engine stand closure, a ledger of
  announcements and rewards, the write-back cache with the database, and runs of a realm of many
  characters.
- **Auction house.** One transition system over purses, bags, mails, the three houses, the item map, the
  destroyed items and a sink of lost gold. `Measure` counts gold and the places of one item with the
  same definitions, so one proof gives conservation of both.
- **Battlegrounds.** The event layer decides what is spawned. The objectives on top keep only the map of
  active events, which `SpawnSwitches` connects to the layer, and `BannersTrue` reads off what stands in
  the world. Clients hold world states by number (`WorldStates`). A number is sent only if it is in the tables, which are
  proved injective, and a client that was right once and then receives only the incremental updates
  holds under every number what a late joiner would get (`RunScreen`). The objects of Eye of the Storm,
  Arathi Basin and Warsong Gulch keep the run invariant and an orderly event layer in `Valid`; that of
  Alterac Valley has the layer in `Valid` and keeps the run invariant in its handlers.
  `BattleGroundRoster` is independent of the four: it says who takes part, and when a battle opens and
  closes.
- **Maps.** `MapFile` is about bytes, `MapPacker` about heights as real numbers, `MapExtractor` about the
  grids and their loops, and `MapTile` joins them: what is packed, written and read again.

## What the code does not do

The code was followed where it falls short of what one would expect. In each case the model has the
exact condition under which the expected property holds, or a counterexample next to it.

- Switching an event on a channel that was never announced can leave objects of event 0 hidden
  (`SpawnExclusiveIff`).
- A visitor who is no participant becomes an uncounted one by logging out; when it is removed a counter
  is one too low (`LogOutCountsIff`, `VisitorCounted`).
- An offline player who comes back after the end stays in the queue of offline players and blocks it
  (`LogInQueueIff`, `StaleHeadStuck`).
- Resetting a criterion that a summing achievement adds up can undo a 32-bit wrap unnoticed
  (`ResetBreaksSumm`); while the totals are within 32 bits nothing of the kind can happen (`ResetNoWrap`).
- Taking money out of a mail cuts off what does not fit into the purse, and that gold is gone
  (`TakeMoneyIff`, `TakeMoneyLoses`, `RunConservesIff`). One amount, the limit of a purse plus one, slips
  through instead: the subtraction in the comparison wraps, and the purse ends up over its limit
  (`OverflowIff`, `OverflowHappens`; `InOrderIff` over runs).
- A sale whose cut exceeds bid and deposit pays a wrapped profit (`SaleIff`); the configured rates are
  assumed to keep the cut within 100 percent.
- Alterac Valley's final tally indexes a counter out of range while Snowfall is neutral (`TallyIff`).
- Alterac Valley sends the defenders of an assaulted graveyard away only if both teams have turned in
  scraps for the same tier; otherwise they stay (`DefendersLeaveIff`).
- Eye of the Storm limits what a lead moves a bar to five in the direction of the Alliance only; a lead of
  the Horde counts in full (`CheckTowersBars`, `LeadersOwn`).
- A bid above the purse is not answered even when the buyout, which is all it would cost, is within it
  (`BidAnswered`).
- Eye of the Storm passes over the player listed after one that is not found (`SettlesIff`).
- Warsong Gulch tells late joiners the wrong carrier whenever one flag is carried, and those who saw a flag
  dropped not that it was returned (`CarrierDiffers`, `ReturnUntold`).
- Warsong Gulch keeps its flags in order for any click only because a flag that is out of play is not
  spawned (`HiddenFlagIff`).
- A tile with a liquid type but no shown cell has a window outside the grid; its rows are read from beyond
  the grid, though never with the default configuration (`LevelsInsideIff`).
- The comment above Alterac Valley's icon table names its columns in another order than the code uses
  them; the code was followed.

## Model

| member | source | states |
|---|---|---|
| BattleGroundEvents.SpawnActive | src/game/BattleGround.cpp:1528-1551 | after a switch the event asked for is the active one of its channel (or nothing is, when it is switched off), and every other channel keeps its event |
| BattleGroundEvents.SpawnSwitches | src/game/BattleGround.cpp:1528-1551 | the self-call included, a switch amounts to one update of the active-event map |
| BattleGroundEvents.SpawnExclusive | src/game/BattleGround.cpp:1528-1551 | a switch on an announced channel keeps: an object is spawned exactly while its own event is active |
| BattleGroundEvents.SpawnExclusiveIff | src/game/BattleGround.cpp:1528-1551 | exact condition, announced channel or not: indexing the event map with an unknown channel reads event 0 into it, and that breaks exclusivity exactly when the call returns early on that 0 while objects of event 0 had been sent away |
| BattleGroundEvents.LoadExclusive | src/game/BattleGround.cpp:1461-1495 | loading keeps: every registered object is spawned if and only if its event is active; that loading registers is LoadRegisters |
| BattleGroundEvents.LoadRegisters | src/game/BattleGround.cpp:1461-1495 | a loaded object with a home goes to the end of the one list its home names, whether its event is active or not, and no other list changes |
| BattleGroundEvents.SpawnRegisters | src/game/BattleGround.cpp:1528-1551 | switches keep all lists |
| BattleGroundEvents.RunExclusive | src/game/BattleGround.cpp:1461-1551 | and so do grid loads and switches in any order; for the objects loaded in the run see RunSpawned |
| BattleGroundEvents.RunSpawned | src/game/BattleGround.cpp:1461-1551 | the law of the layer: every object that a run loads and that has a home is registered at its end, and is in the world if and only if its event is the active one of its channel |
| BattleGroundEvents.RunUnhomed | src/game/BattleGround.cpp:1461-1495 | an object without a home is in the world from its loading on |
| BattleGroundEvents.SpawnForeign | src/game/BattleGround.cpp:1528-1551 | a switch moves no object of another channel |
| BattleGroundEvents.OneEventPerChannel | src/game/BattleGround.cpp:1528-1551 | objects of two events of one channel are never in the world together |
| BattleGroundEvents.EventLayer.OnObjectDBLoad | src/game/BattleGround.cpp:1461-1495 | the loading in place: appears spawned, is registered under its pair, goes away unless that pair is active; the function it computes is the one LoadRegisters and RunSpawned are about |
| BattleGroundEvents.EventLayer.SpawnEvent | src/game/BattleGround.cpp:1528-1551 | the switch in place with its terminating self-call that first takes down the event that holds the channel |
| BattleGroundEvents.EventLayer.SetSpawned | src/game/BattleGround.cpp:1541-1550 | the loops over creatures and game objects toggle exactly the objects of the list |
| BattleGroundRoster.AddCountsIff | src/game/BattleGround.cpp:1164-1182 | adding a player keeps the player count of both teams exact if and only if the player was no member yet |
| BattleGroundRoster.RemoveCounts | src/game/BattleGround.cpp:990-1001 | removing keeps the 32-bit counts equal to the numbers of members of each side |
| BattleGroundRoster.LogOutCountsIff | src/game/BattleGround.cpp:1283-1287 | exact condition for a logout: a visitor who is no member becomes an uncounted member through map indexing, and the counts go wrong exactly then |
| BattleGroundRoster.VisitorCounted | src/game/BattleGround.cpp:990-1001 | removing such a visitor leaves the Horde counter one below the truth (wrapping at 0) |
| BattleGroundRoster.LeaveQueueIff | src/game/BattleGround.cpp:990-1001 | leaving keeps the offline queue equal to the offline members if and only if the player is not in the queue |
| BattleGroundRoster.LogInQueueIff | src/game/Player.cpp:15161-15185 | a login keeps the queue exact except when an offline player comes back after the end: it is removed from the members and stays queued |
| BattleGroundRoster.StaleHeadStuck | src/game/BattleGround.cpp:335-347 | over whole runs, whoever else comes, goes or comes back late: once the head of the queue is no member, it stays the head and every later update removes nobody - a member goes only by an act of its own - until everybody is sent out or the player in front enters again (or is logged out without being there) |
| BattleGroundRoster.PrematureOk | src/game/BattleGround.cpp:349-392 | a battle is broken off only from a running count-down while one side is short, and the winner is the side that still has enough players, or nobody |
| BattleGroundRoster.RunOk | src/game/BattleGround.cpp:313-508 | in every state of every run: exact counts, announcements in order, running only after all four, and (until everybody is sent out) the queue is exactly the offline members, each once, ordered by removal time |
| BattleGroundRoster.GoneInTime | src/game/BattleGround.cpp:335-347 | liveness: an offline player whose time has come is gone after as many updates as there are players in front of it, and one, whatever else happens, unless it comes back |
| BattleGroundRoster.NotBefore | src/game/BattleGround.cpp:411-454 | the doors never open before the first delay has passed |
| BattleGroundRoster.OverdueOpens | src/game/BattleGround.cpp:411-454 | once the delay is over every update makes one of the missing announcements |
| BattleGroundRoster.OpensInTime | src/game/BattleGround.cpp:411-454 | with somebody present all the time the doors have opened three updates after the first delay is over |
| BattleGroundRoster.FreshOk | src/game/BattleGround.cpp:1118-1148 | a new battleground satisfies the invariant |
| BattleGroundRosterRules.ChangedRule | src/game/BattleGround.cpp:990-1001 | where everybody is after a player came, left, logged out (to be removed 300 seconds later) or came back: team, counters of 32 bits, queue; in numbers, for every roster |
| BattleGroundRosterRules.DropRule | src/game/BattleGround.cpp:333-346 | an update removes the player in front of the queue if its time has come, and nobody else |
| BattleGroundRosterRules.RunOnTime | src/game/BattleGround.cpp:411-454 | over every run no announcement is made before its delay is due |
| BattleGroundRosterRules.Punctual | src/game/BattleGround.cpp:432-454 | and the update that finds one due makes it |
| BattleGroundRosterRules.SetupRule | src/game/BattleGround.cpp:411-431 | the first update sets the battle up, and closes it at once if that fails |
| BattleGroundRosterRules.CountDownRule | src/game/BattleGround.cpp:352-392 | the count-down of a one-sided battle starts with the first update that finds too few players and stops with the first that finds enough |
| BattleGroundRosterRules.LonelyEnds | src/game/BattleGround.cpp:352-392 | exact over runs: a battle that stays one-sided is broken off when more time than its count-down had left has passed, and otherwise the count-down has that much less left |
| BattleGroundRosterRules.AllSentOut | src/game/BattleGround.cpp:487-503 | liveness: after the end, when nobody enters any more, everybody is out once the time left has passed |
| BattleGroundRosterRules.EndRule | src/game/BattleGround.cpp:708-710 | that time is two minutes, whoever wins |
| BattleGroundRosterObject.BattleGround.AddPlayer | src/game/BattleGround.cpp:1164-1182 | the member map and the counter of its team, in place |
| BattleGroundRosterObject.BattleGround.RemovePlayerAtLeave | src/game/BattleGround.cpp:990-1001 | members only: the counter goes down and the record goes |
| BattleGroundRosterObject.BattleGround.EraseOffline | src/game/BattleGround.cpp:1268-1275 | the loop over the queue erases the first entry of the player and nothing else |
| BattleGroundRosterObject.BattleGround.EventPlayerLoggedIn | src/game/BattleGround.cpp:1265-1280 | out of the queue and online again |
| BattleGroundRosterObject.BattleGround.EventPlayerLoggedOut | src/game/BattleGround.cpp:1283-1287 | queued, to be removed five minutes later |
| BattleGroundRosterObject.BattleGround.PlayerLogsIn | src/game/Player.cpp:15161-15185 | continues the battle, or leaves it when it is over |
| BattleGroundRosterObject.BattleGround.UpdateOffline | src/game/BattleGround.cpp:335-347 | one removal per update, of the head |
| BattleGroundRosterObject.BattleGround.UpdatePremature | src/game/BattleGround.cpp:349-392 | the premature-finish count-down |
| BattleGroundRosterObject.BattleGround.UpdateStart | src/game/BattleGround.cpp:411-454 | the start sequence, one announcement per update |
| BattleGroundRosterObject.BattleGround.RemoveAllPlayers | src/game/BattleGround.cpp:490-503 | the final loop, in any order, leaves no member and takes every member off the counters, whether these were right or not |
| BattleGroundRosterObject.BattleGround.Update | src/game/BattleGround.cpp:313-508 | the whole periodic update in place refines the transition function the run theorems are about |
| AchievementStore.OfKindMembers | src/game/AchievementMgr.cpp:1885-1905 | the index by kind holds exactly the table rows of that kind |
| AchievementStore.OfAchievementMembers | src/game/AchievementMgr.cpp:1885-1905 | the index by achievement holds exactly the rows that refer to it |
| AchievementStore.ReferencingMembers | src/game/AchievementMgr.cpp:1907-1927 | the reference index holds exactly the achievements that borrow from the given one |
| AchievementStore.AchievementGlobalMgr.LoadAchievementCriteriaList | src/game/AchievementMgr.cpp:1885-1905 | row by row both indices become the searches of the table |
| AchievementStore.AchievementGlobalMgr.LoadAchievementReferenceList | src/game/AchievementMgr.cpp:1907-1927 | row by row the reference index becomes the search of the table |
| AchievementEngine.CountReachedMeaning | src/game/AchievementMgr.cpp:1683-1704 | the counting loop with its early exit accepts exactly when the required number of criteria is completed, or all when none is required |
| AchievementEngine.SummReachedMeaning | src/game/AchievementMgr.cpp:1660-1681 | as long as the 32-bit sum does not wrap, the summing loop accepts exactly when some prefix total reaches the count its last criterion names |
| AchievementEngine.CombineBounds | src/game/AchievementMgr.cpp:1733-1748 | accumulation saturates instead of wrapping, and no mode leaves 32 bits |
| AchievementEngine.OpenShrinks | src/game/AchievementMgr.cpp:1768-1784 | the termination measure of the mutual recursion: the open achievements never grow, and each award takes one away |
| AchievementClosure.UpdateClosed | src/game/AchievementMgr.cpp:696-1468 | completion is closed: from a closed state an update of any kind leaves no achievement that the completion check would accept outside the completed set - own, summing and borrowing ones alike, whatever the recursion completes in mid-loop - as long as the update resets nothing that is summed, or the totals keep within 32 bits |
| AchievementClosure.ScanRoomClosed | src/game/AchievementMgr.cpp:696-1468 | the second half of that: a scan that may reset summed criteria in any order keeps the set closed as long as no total can leave 32 bits, linked criteria counted in |
| AchievementClosure.CheckClosed | src/game/AchievementMgr.cpp:1644-1705 | one check settles one pending achievement |
| AchievementClosure.AwardClosed | src/game/AchievementMgr.cpp:1768-1784 | an award re-enters the scan over all linked criteria and still leaves the set closed |
| AchievementClosure.ResetScanClosed | src/game/AchievementMgr.cpp:407-444 | the reset operation over all criteria it hits keeps the set closed when the totals are within 32 bits, or nothing it resets is summed |
| AchievementClosure.ResetBreaksSumm | src/game/AchievementMgr.cpp:407-444 | counterexample for summed criteria: undoing a 32-bit wrap makes the check accept while the reset completes nothing |
| AchievementClosure.ResetNoWrap | src/game/AchievementMgr.cpp:407-444 | nothing but the wrap does it: with all totals within 32 bits the whole reset operation, whatever it hits, keeps the set closed and the totals within 32 bits |
| AchievementClosure.FallClosed | src/game/AchievementMgr.cpp:1644-1705 | the reason: where no counter grows and no total wraps, no check accepts anything new |
| AchievementClosure.UpdateLinks | src/game/AchievementMgr.cpp:1768-1784 | after an update every linked criterion whose achievement is completed is met: completing in mid-scan is never lost on its links |
| AchievementClosure.FreshClosed | src/game/AchievementMgr.cpp:374-381 | a new character is closed |
| AchievementLedger.UpdateEvolves | src/game/AchievementMgr.cpp:696-1468 | what every update keeps: records only grow, each new award was announced once and rewarded once and is no counter, the realm learns of exactly the new awards but kills, every progress record that differs is marked changed |
| AchievementLedger.RealmBlocks | src/game/AchievementMgr.cpp:1479-1484 | once the realm knows a realm-first achievement its check accepts nobody else |
| AchievementLedger.ResetScanEvolves | src/game/AchievementMgr.cpp:407-444 | the same of the reset operation |
| AchievementAwards.UpdateEarned | src/game/AchievementMgr.cpp:696-1468 | soundness of awards: every achievement that an update newly completes was accepted by its check (with the counters and realm knowledge of that moment) in a state the update passed through, on a path of writes of due counters and awards of accepted achievements that is defined apart from the scan; and it bears the date of the update |
| AchievementAwards.RunEarned | src/game/AchievementMgr.cpp:696-1468 | over any interleaving of many characters' updates, resets, saves and logins nobody comes to hold an achievement that no update of its own had accepted |
| AchievementAwards.AcceptsIff | src/game/AchievementMgr.cpp:1644-1705 | exact condition of acceptance without sums, in terms of counters: no statistic, still free in the realm, has criteria, and all of them - or the required number - have their count |
| AchievementAwards.Unearned | src/game/AchievementMgr.cpp:1630-1642 | for callers: an achievement is not newly completed while a criterion it tests lacks its count and is neither of the updated kind nor linked |
| AchievementAwards.Completes | src/game/AchievementMgr.cpp:1630-1642 | and the other way round: when all its criteria have their counts after an update, it is completed |
| AchievementAwards.SetProgressMoves | src/game/AchievementMgr.cpp:1707-1766 | what one write does to a counter: set, added up to 32 bits, or raised; the date starts anew only when it should, and nothing else changes |
| AchievementAwards.UpdateCounts | src/game/AchievementMgr.cpp:696-1468 | every criterion of the updated kind that is due has its counter moved by the rule exactly once, whatever is completed in between |
| AchievementAwards.UpdateApart | src/game/AchievementMgr.cpp:696-1468 | no counter of another kind moves, but for linked criteria |
| AchievementAwards.UpdateSkips | src/game/AchievementMgr.cpp:700-750 | criteria that are not due - excluded, or met already - keep their counters |
| AchievementAwards.ResetCounts | src/game/AchievementMgr.cpp:407-444 | a reset puts exactly the counters it hits back to zero and completes nothing |
| AchievementSave.EvolvesCache | src/game/AchievementMgr.cpp:1707-1776 | no update makes a record differ from its row without the changed flag |
| AchievementSave.SaveExact | src/game/AchievementMgr.cpp:454-558 | after a save the rows of all ids in memory are exactly the records, less the zero counters, and rows of other ids stay |
| AchievementSave.SaveCleans | src/game/AchievementMgr.cpp:454-558 | a save keeps the flags truthful |
| AchievementSave.SaveIdempotent | src/game/AchievementMgr.cpp:454-558 | a second save writes nothing |
| AchievementSave.RoundTripCompleted | src/game/AchievementMgr.cpp:454-611 | save and load is the identity on the completed set |
| AchievementSave.RoundTripProgress | src/game/AchievementMgr.cpp:454-611 | save and load restores exactly the non-zero progress whose time window is not over |
| AchievementSave.RoundTripCache | src/game/AchievementMgr.cpp:454-611 | and the cache is in order again afterwards |
| AchievementRealm.RunOk | src/game/AchievementMgr.cpp:1768-1784 | over any interleaving of updates, resets, saves and re-logins of many characters: every award announced and rewarded exactly once over all sessions, truthful flags, at most one holder of a realm-first achievement - and closed completed sets as long as no step takes summed progress away while a total is beyond 32 bits |
| AchievementRealm.RoomySafe | src/game/AchievementMgr.cpp:1660-1681 | a caller's condition for that, over any table: totals within 32 bits whenever progress may be taken away |
| AchievementRealm.SteadySumsSafe | src/game/AchievementMgr.cpp:1660-1681 | the other one, over any run: a table in which no summed criterion can lose progress |
| AchievementRealm.FirstBlocked | src/game/AchievementMgr.cpp:1479-1484 | a holder elsewhere rules out a new realm-first award here |
| AchievementRealm.LoadedClosed | src/game/AchievementMgr.cpp:560-611 | loading back what was saved makes no achievement acceptable, with totals within 32 bits or no time limit on what is summed |
| AchievementRealm.ResetsClosed | src/game/AchievementMgr.cpp:407-444 | a reset of a kind of criteria, under the same condition |
| AchievementRealm.FirstKillShared | src/game/AchievementMgr.cpp:1777-1782 | the exemption of realm-first kills is real: two characters obtain the same one |
| AchievementRealm.FreshOk | src/game/AchievementMgr.cpp:374-381 | a realm of fresh characters is orderly |
| AchievementManager.AchievementMgr.SetCriteriaProgress | src/game/AchievementMgr.cpp:1707-1766 | the write of one counter in place, its three modes, its time window and its changed flag |
| AchievementManager.AchievementMgr.IsCompletedAchievement | src/game/AchievementMgr.cpp:1644-1705 | both loops compute the completion check |
| AchievementManager.AchievementMgr.UpdateAchievementCriteria | src/game/AchievementMgr.cpp:696-1468 | the scan in place, re-entered by awards, computes the update function, about which UpdateEarned says what it awards and UpdateCounts and UpdateApart what it counts |
| AchievementManager.AchievementMgr.UpdateOne | src/game/AchievementMgr.cpp:704-1468 | one turn of the scan |
| AchievementManager.AchievementMgr.CheckCompletion | src/game/AchievementMgr.cpp:1447-1466 | the three completion checks that end a turn, with the loop over borrowing achievements |
| AchievementManager.AchievementMgr.CompletedCriteriaFor | src/game/AchievementMgr.cpp:1630-1642 | a check for achievements neither counting nor completed; what it accepts is AcceptsIff |
| AchievementManager.AchievementMgr.CompletedAchievement | src/game/AchievementMgr.cpp:1768-1784 | announce, record, tell the realm, re-enter the scan, reward |
| AchievementManager.AchievementMgr.ResetAchievementCriteria | src/game/AchievementMgr.cpp:407-444 | the reset loop |
| AchievementManager.AchievementMgr.SaveToDB | src/game/AchievementMgr.cpp:454-558 | both save loops write exactly the changed records and clear their flags |
| AchievementManager.AchievementMgr.LoadFromDB | src/game/AchievementMgr.cpp:560-611 | both load loops fill the records from the rows |
| AuctionLedger.RunConserves | src/game/AuctionHouseHandler.cpp:163-499 | conservation over every run of sell, bid, buyout, cancel, expiry and mail, with only each purse limited: purses + mails + bids and deposits of live auctions + lost gold change by exactly the gold that full purses cut off; every item stays in as many places as before (bag, auction, mail or destroyed), at most one; the item map names exactly the items of the live auctions |
| AuctionLedger.RunConservesIff | src/game/Mail.cpp:514-540 | gold is conserved over a run if and only if all mail money that is taken fits into its purse |
| AuctionLedger.InOrderIff | src/game/Player.h:1470-1480 | exact condition over whole runs: every state is in order if and only if nobody takes a mail of exactly the purse limit plus one |
| AuctionLedger.SellOk | src/game/AuctionHouseHandler.cpp:163-298 | a sale keeps the invariant and the totals, whatever the purses of the others hold |
| AuctionLedger.BidOk | src/game/AuctionHouseHandler.cpp:362-389 | a leading bid keeps them |
| AuctionLedger.BuyoutOk | src/game/AuctionHouseHandler.cpp:390-420 | a buyout keeps them |
| AuctionLedger.PlaceBidOk | src/game/AuctionHouseHandler.cpp:300-425 | every branch of the bid handler keeps the invariant and the totals; which bids are carried out, and how, is BidAnswered, BidWorld and BuyoutWorld |
| AuctionLedger.CancelOk | src/game/AuctionHouseHandler.cpp:427-500 | a cancellation keeps them |
| AuctionLedger.SweepOk | src/game/AuctionHouseMgr.cpp:440-521 | the sweep over all three houses keeps them |
| AuctionLedger.SweepExact | src/game/AuctionHouseMgr.cpp:488-521 | the sweep removes exactly the overdue auctions of its house and leaves the rest, in order, and the other houses |
| AuctionLedger.SellEffect | src/game/AuctionHouseHandler.cpp:163-298 | who pays what: refused sales change nothing; an accepted one costs exactly the deposit, takes the item out of the seller's bag and puts it up in its name under a fresh id, without a bid |
| AuctionLedger.WithdrawEffect | src/game/AuctionHouseHandler.cpp:427-500 | the bidder gets back exactly its bid, the seller its item, and pays the cut of a standing bid and nothing else |
| AuctionLedger.ExpireEffect | src/game/AuctionHouseMgr.cpp:488-521 | without a bid the item goes back to the seller; else the seller is sent bid plus deposit less the cut, and the winner the item |
| AuctionLedger.CutBound | src/game/AuctionHouseMgr.cpp:647-651 | with the cut rate within 100 percent the cut of a sale is between 0 and the bid |
| AuctionLedger.SaleIff | src/game/AuctionHouseMgr.cpp:202-242 | exact condition: one sale conserves gold if and only if the cut is covered by bid and deposit; else the profit wraps |
| AuctionLedger.MoneyExact | src/game/Player.h:1470-1480 | no saturation: a debit within the purse and a credit within the limit are exact |
| AuctionLedger.BidEffect | src/game/AuctionHouseHandler.cpp:362-389 | who pays what: the price less the own standing bid; the bidder before is mailed exactly its bid; each bid is a true raise of about five percent |
| AuctionLedger.BuyoutEffect | src/game/AuctionHouseHandler.cpp:390-420 | the buyer pays the buyout less its own bid, the bidder before is refunded, the seller is mailed buyout plus deposit less the cut, the buyer the item |
| AuctionLedger.TakeMoneyOk | src/game/Mail.cpp:514-540 | taking money out of a mail keeps the invariant, and exactly what the full purse cuts off is missing |
| AuctionLedger.TakeMoneyIff | src/game/Player.h:1470-1480 | exact condition: taking conserves gold and the limit of the purse if and only if purse and mail together are within the limit |
| AuctionLedger.TakeMoneyLoses | src/game/Player.h:1470-1480 | three inputs on which it fails: a full purse loses a coin; a mail of two coins more than a purse may hold empties a purse of five; a mail of one coin more is put into an empty purse whole, over its limit |
| AuctionLedger.OverflowIff | src/game/Player.h:1470-1480 | exact condition for the limit: taking keeps the world in order if and only if the amount is not the limit plus one |
| AuctionLedger.OverflowHappens | src/game/Player.h:1470-1480 | that amount at work: a world in order before and not after |
| AuctionLedger.TakeItemOk | src/game/AuctionHouseMgr.cpp:422-438 | taking an item out of a mail keeps the invariant |
| AuctionLedger.FreshOk | src/game/AuctionHouseMgr.cpp:41-49 | an empty auction house is in order exactly when every purse is within its limit |
| AuctionDealings.BidAnswered | src/game/AuctionHouseHandler.cpp:300-425 | exact answers, in numbers, in every world in order: a bid is Done if and only if the auction is listed, is neither the player's nor its account's, and the price beats the bid, reaches the start, is in the purse and - short of the buyout - raises the bid by five per full hundred and at least one; it is refused for ownership exactly when no listed auction of that id is somebody else's; and whatever is not Done changes nothing |
| AuctionDealings.BidWorld | src/game/AuctionHouseHandler.cpp:366-395 | the whole world after a bid short of the buyout: the auction stands in the bidder's name at the price, the purse is down by the price less the own standing bid, and an existing bidder before is mailed its bid |
| AuctionDealings.BuyoutWorld | src/game/AuctionHouseHandler.cpp:396-420 | the whole world after a bid that reaches the buyout: the auction and only it is gone from its house, the purse pays the buyout less the own bid, an existing seller is mailed buyout and deposit less the cut, an existing bidder before its bid, the buyer the item, and the rest leaves the economy |
| AuctionDealings.CutIs | src/game/AuctionHouseMgr.cpp:647-651 | the cut is the share of the bid taken in 32 bits, rounded down |
| AuctionDealings.SellAnswered | src/game/AuctionHouseHandler.cpp:163-297 | a sale is Done if and only if item, bid and time are given, the time is 12, 24 or 48 hours in 32 bits, the item is not up already, in the seller's bags and tradable, and the deposit is in the purse; and the whole world after it |
| AuctionDealings.SellRefused | src/game/AuctionHouseHandler.cpp:210-247 | which reason a seller is given, and exactly when |
| AuctionDealings.CancelAnswered | src/game/AuctionHouseHandler.cpp:427-499 | a cancellation is Done if and only if the auction is the player's own and the purse can bear the cut of a standing bid |
| AuctionDealings.CancelWorld | src/game/AuctionHouseHandler.cpp:427-499 | the whole world after a cancellation |
| AuctionDealings.SweepTells | src/game/AuctionHouseMgr.cpp:488-521 | a sweep sends exactly the mails of the overdue auctions, in the order of their ids: the item back without a bid, else bid and deposit less the cut to the seller and the item to the winner; items of nobody are destroyed |
| AuctionDealings.SweepWorld | src/game/AuctionHouseMgr.cpp:440-445 | and over all three houses; purses and bags are left alone |
| AuctionDealings.RunningMembers | src/game/AuctionHouseMgr.cpp:488-521 | the auctions that a sweep leaves are exactly those whose time is not over, in their order |
| AuctionDealings.RunFate | src/game/AuctionHouseHandler.cpp:300-499 | over every run in order: an auction is listed until it is bought out, cancelled by its seller or overdue at a tick, and no longer; its id never comes again; and while it is listed its terms stay and its bid only rises |
| AuctionDealings.TakeMoneyWorld | src/game/Player.h:1470-1480 | the purse after taking money out of a mail, for every amount, and nothing else moved |
| AuctionDealings.TakeItemWorld | src/game/Mail.cpp:417-512 | the item of a mail comes into the bags of the one who takes it, and nothing else moves |
| AuctionDealings.MatchingMembers | src/game/AuctionHouseMgr.cpp:551-611 | a search finds exactly the auctions of its house that have their item and are wanted |
| AuctionDealings.MatchingAscends | src/game/AuctionHouseMgr.cpp:551-611 | in the order of their ids |
| AuctionDealings.PageIs | src/game/AuctionHouseMgr.cpp:551-611 | a page is the fifty matches from the offset on |
| AuctionHouseService.AuctionHouseMgr.HandleAuctionSellItem | src/game/AuctionHouseHandler.cpp:163-298 | the handler step by step, with its refusals |
| AuctionHouseService.AuctionHouseMgr.HandleAuctionPlaceBid | src/game/AuctionHouseHandler.cpp:300-425 | the handler step by step computes the bid transition, whose answers and worlds BidAnswered, BidWorld and BuyoutWorld state |
| AuctionHouseService.AuctionHouseMgr.LeadingBid | src/game/AuctionHouseHandler.cpp:362-389 | the refund mail reads the old bid before it is replaced |
| AuctionHouseService.AuctionHouseMgr.BuyOut | src/game/AuctionHouseHandler.cpp:390-420 | charge, mails, clearing |
| AuctionHouseService.AuctionHouseMgr.HandleAuctionRemoveItem | src/game/AuctionHouseHandler.cpp:427-500 | the handler step by step, with its refusals |
| AuctionHouseService.AuctionHouseMgr.SendAuctionSuccessfulMail | src/game/AuctionHouseMgr.cpp:202-242 | the profit mail, and where the gold goes without a seller |
| AuctionHouseService.AuctionHouseMgr.SendAuctionItemMail | src/game/AuctionHouseMgr.cpp:245-284 | the item mail to a seller or a winner (83-170), and the destruction without one |
| AuctionHouseService.AuctionHouseMgr.UpdateHouse | src/game/AuctionHouseMgr.cpp:488-521 | the sweep in place |
| AuctionHouseService.AuctionHouseMgr.Update | src/game/AuctionHouseMgr.cpp:440-445 | the sweep over the three houses |
| AuctionHouseService.AuctionHouseMgr.GetAuction | src/game/AuctionHouseMgr.h:96-100 | the lookup finds the first auction with the id, or none |
| AuctionHouseService.AuctionHouseMgr.BuildListAuctionItems | src/game/AuctionHouseMgr.cpp:551-611 | paging: one pass lists exactly the page of at most fifty matching auctions from the offset on, in id order, and counts all matches |
| WorldStates.StoreShows | src/game/BattleGround.cpp:662-667 | clients store by number: a value sent under the number of one icon is shown there and nowhere else, and no number outside the table is written |
| WorldStates.SameScreen | src/game/BattleGround.cpp:662-667 | clients that show every icon alike hold the same under every number there is |
| BattleGroundAV.IdInjective | src/game/BattleGroundAV.h:195-242 | the world-state tables read backwards: no two icons share a number |
| BattleGroundAVInvariants.RunOk | src/game/BattleGroundAV.cpp:235-271 | in every state of every run: node records sound (no assertion of the source can fail), active events of nodes, graveyard defenders and mines follow the records, clients agree with a fresh snapshot, the match ends when reinforcements do |
| BattleGroundAVInvariants.RunScreen | src/game/BattleGroundAV.cpp:611-669 | after every run a client that was told piece by piece holds under every number what a client filled at that moment holds; every number sent on the way is one of the tables, as each send requires |
| BattleGroundAVInvariants.NodeStepOk | src/game/BattleGroundAV.cpp:488-509 | a node transition with its spawns and icons keeps all that |
| BattleGroundAVInvariants.AssaultsPointOk | src/game/BattleGroundAV.cpp:580-609 | an assault keeps the whole invariant, from any node state |
| BattleGroundAVInvariants.DefendsPointOk | src/game/BattleGroundAV.cpp:534-578 | a defence keeps it, and so does the assault it turns into at neutral Snowfall |
| BattleGroundAVInvariants.DestroyedPointOk | src/game/BattleGroundAV.cpp:418-444 | a capture keeps it, and so does the burning of a tower with its loss of reinforcements |
| BattleGroundAVInvariants.DefenderOwned | src/game/BattleGroundAV.cpp:534-560 | the branch for points that do not belong to the defender is dead |
| BattleGroundAVInvariants.NodeDelta | src/game/BattleGroundAV.cpp:651-658 | one icon on and one icon off tell a node change completely: the client again shows what a fresh fill would give |
| BattleGroundAVInvariants.MineDelta | src/game/BattleGroundAV.cpp:660-669 | the same of a mine: old icon off, new one on, nothing else to tell |
| BattleGroundAVInvariants.ScoreDelta | src/game/BattleGroundAV.cpp:210-233 | the same of the reinforcements, clamped at 0 |
| BattleGroundAVInvariants.NodeFollows | src/game/BattleGroundAV.cpp:488-509 | after a node was populated its banner event is owner and state, and a controlled graveyard has the defenders its team paid for |
| BattleGroundAVInvariants.ChangeMineOwnerOk | src/game/BattleGroundAV.cpp:446-475 | a mine changes hands with its events, timers and icons |
| BattleGroundAVInvariants.UpdateMineOk | src/game/BattleGroundAV.cpp:242-261 | a mine that pays and falls back to neutral keeps the invariant |
| BattleGroundAVInvariants.UpdateNodesOk | src/game/BattleGroundAV.cpp:262-270 | the timer loop over all nodes keeps the invariant, captures in mid-loop included |
| BattleGroundAVInvariants.AddScrapsOk | src/game/BattleGroundAV.cpp:100-125 | a scrap turn-in upgrades the defenders of all controlled graveyards when it has to |
| BattleGroundAVInvariants.TierSteps | src/game/BattleGroundAV.cpp:108-123 | scraps come in twenties, so no upgrade threshold is stepped over |
| BattleGroundAVInvariants.UpgradeOk | src/game/BattleGroundAV.cpp:115-121 | the loop over graveyards upgrades each one the team controls and leaves the others |
| BattleGroundAVInvariants.KillUnitOk | src/game/BattleGroundAV.cpp:49-98 | the deaths of bosses, captains and mine leaders keep it |
| BattleGroundAVInvariants.BannersTrue | src/game/BattleGround.cpp:1461-1551 | over an event layer in order, the objects of a node that are in the world are those of its owner and state |
| BattleGroundAVInvariants.StartOk | src/game/BattleGroundAV.cpp:781-834 | a new battle starts in order |
| BattleGroundAVInvariants.TallyIff | src/game/BattleGroundAV.cpp:294-330 | exact condition for the final tally: its per-team counters are indexed in range if and only if Snowfall has been taken |
| BattleGroundAVRules.ApplyRules | src/game/BattleGroundAV.cpp:40-271 | every event of a running battle keeps to rules written in numbers: what a banner, a tick or a death does to each node, each mine, the reinforcements of both teams, the scraps, marshals and captains, and who is announced |
| BattleGroundAVRules.RunWinners | src/game/BattleGroundAV.cpp:210-233 | over every run the teams announced are exactly those whose enemy's general fell, or whose enemy's reinforcements came down to nothing, at an event of the running battle |
| BattleGroundAVRules.RunBeaten | src/game/BattleGroundAV.cpp:210-233 | a team without reinforcements has lost |
| BattleGroundAVRules.RunBalance | src/game/BattleGroundAV.cpp:40-271 | conservation while the battle lasts: the reinforcements of a team are those it began with and one for every payment of its mines, less one for every dead player, a hundred for its captain and 75 for every tower that burnt while it was the team's |
| BattleGroundAVRules.ScoreEffect | src/game/BattleGroundAV.cpp:210-233 | a loss that leaves less than one reinforcement sets the team to 0 and announces the other one; anything else is added, and nobody is announced |
| BattleGroundAVRules.BurnEffect | src/game/BattleGroundAV.cpp:418-444 | a burning tower costs the team that had it 75, and its marshal |
| BattleGroundAVRules.NodeFate | src/game/BattleGroundAV.cpp:726-779 | over runs: an assaulted node that is left alone is its attacker's as soon as its time is up and not before, and a controlled one stays |
| BattleGroundAVRules.CaptainStaysDead | src/game/BattleGroundAV.cpp:75-94 | a captain is paid for once |
| BattleGroundAVRules.OverIsOver | src/game/BattleGroundAV.cpp:235-240 | after the end nothing moves |
| BattleGroundAVRules.DefendersLeaveIff | src/game/BattleGroundAV.cpp:488-509 | exact condition: at an assault the defenders of a graveyard leave if and only if both teams' scraps are of the same tier, because their event is looked up with the attacker's |
| BattleGroundAVRules.ChannelsAre | src/game/BattleGroundAV.cpp:488-509 | in every battle in order, in numbers: which event of each node, of the defenders of each controlled graveyard and of each mine is active |
| BattleGroundAVRules.TierIs | src/game/BattleGroundAV.cpp:493-501 | a tier for every five hundred scraps, up to three |
| BattleGroundAVRules.StartRules | src/game/BattleGroundAV.cpp:781-834 | six hundred reinforcements each, snowfall neutral, seven nodes of the Alliance and seven of the Horde, marshals and captains alive |
| BattleGroundAVObject.BattleGroundAV.PopulateNode | src/game/BattleGroundAV.cpp:488-509 | the spawns of one node in place |
| BattleGroundAVObject.BattleGroundAV.UpdateNodeWorldState | src/game/BattleGroundAV.cpp:651-658 | the icons of one node; owner, previous owner and both states index the tables in range |
| BattleGroundAVObject.BattleGroundAV.EventPlayerAssaultsPoint | src/game/BattleGroundAV.cpp:580-609 | the handler in place; no assertion of AssaultNode (726-739) can fail |
| BattleGroundAVObject.BattleGroundAV.EventPlayerDefendsPoint | src/game/BattleGroundAV.cpp:534-578 | the handler in place; no assertion of DefendNode (768-779) can fail |
| BattleGroundAVObject.BattleGroundAV.EventPlayerDestroyedPoint | src/game/BattleGroundAV.cpp:418-444 | the capture in place; the assertion of DestroyNode (741-750) cannot fail |
| BattleGroundAVObject.BattleGroundAV.UpdateScore | src/game/BattleGroundAV.cpp:210-233 | the in-place steps compute the score transition, about which ScoreEffect and RunWinners say who wins |
| BattleGroundAVObject.BattleGroundAV.ChangeMineOwner | src/game/BattleGroundAV.cpp:446-475 | the steps on fields, arrays and the event layer leave the battle in exactly the state the transition `ChangeMineOwner` gives, so what RunOk keeps they keep |
| BattleGroundAVObject.BattleGroundAV.HandleQuestComplete | src/game/BattleGroundAV.cpp:100-125 | the scraps case in place |
| BattleGroundAVObject.BattleGroundAV.UpdateNodes | src/game/BattleGroundAV.cpp:262-270 | the timer loop |
| BattleGroundAVObject.BattleGroundAV.Update | src/game/BattleGroundAV.cpp:235-271 | the steps on fields, arrays and the event layer leave the battle in exactly the state the transition `Update` gives, so what RunOk keeps they keep |
| BattleGroundAVObject.BattleGroundAV.FillInitialWorldStates | src/game/BattleGroundAV.cpp:611-649 | the loops over nodes, teams and states fill a client, by number, that agrees with the battle |
| BattleGroundEYInvariants.RunOk | src/game/BattleGroundEY.cpp:51-95 | in every state of every run: each base is owned exactly as its bar says while the battle runs, bars stay in 0 to 100, point counts are the numbers of owned bases, events and icons agree, nobody is listed twice, the flag has a carrier exactly when its state says so |
| BattleGroundEYInvariants.RunScreen | src/game/BattleGroundEY.cpp:664-699 | after every run, while the match is on, a client told piece by piece holds under every number what a client filled at that moment holds |
| BattleGroundEYInvariants.BannersTrue | src/game/BattleGround.cpp:1461-1551 | over an event layer in order, the objects of a base in the world are those of its owner, or the neutral ones |
| BattleGroundEYInvariants.FlagTrue | src/game/BattleGround.cpp:1461-1551 | and the flag in the centre is in the world exactly while it is there to be taken |
| BattleGroundEYInvariants.CheckTowersOk | src/game/BattleGroundEY.cpp:83-93 | the tower check (join, leave, bars) keeps all that |
| BattleGroundEYInvariants.PushEnough | src/game/BattleGroundEY.cpp:205-227 | a bar moves only by players who are present, so there are always enough of them to carry its change of owner out |
| BattleGroundEYInvariants.GreetOk | src/game/BattleGroundEY.cpp:229-242 | one player takes a base from its enemy to nobody or from nobody to its own team: no base ever passes directly from one team to the other |
| BattleGroundEYInvariants.GreetFromOk | src/game/BattleGroundEY.cpp:229-242 | the loop over the players brings the base to the owner its bar asks for |
| BattleGroundEYInvariants.LostPointOk | src/game/BattleGroundEY.cpp:551-583 | a base is lost to nobody: owner, state, count, event and icons together |
| BattleGroundEYInvariants.CapturedPointOk | src/game/BattleGroundEY.cpp:585-607 | a free base is captured: owner, state, count, event and icons together |
| BattleGroundEYInvariants.OwnerDelta | src/game/BattleGroundEY.cpp:275-300 | three updates tell a change of ownership completely |
| BattleGroundEYInvariants.JoinedKeeps | src/game/BattleGroundEY.cpp:127-158 | the joining pass keeps every player listed as often as before |
| BattleGroundEYInvariants.JoinFromIs | src/game/BattleGroundEY.cpp:127-158 | the walk that erases players from the list it walks, and stays where it erased, is the joining pass |
| BattleGroundEYInvariants.JoinedComplete | src/game/BattleGroundEY.cpp:127-158 | after it nobody who could join a base is listed elsewhere |
| BattleGroundEYInvariants.LeavePointsKeep | src/game/BattleGroundEY.cpp:160-196 | the leaving pass keeps every player listed as often as before |
| BattleGroundEYInvariants.CountedPresent | src/game/BattleGroundEY.cpp:160-196 | whoever was counted at a base is still there |
| BattleGroundEYInvariants.SettlesIff | src/game/BattleGroundEY.cpp:160-196 | exact condition: erasing a player who is not found passes over the next one; the pass settles a base if and only if every listed player but the last is found |
| BattleGroundEYInvariants.PassedOver | src/game/BattleGroundEY.cpp:160-196 | the player after one that is not found stays listed and uncounted |
| BattleGroundEYInvariants.RosterKept | src/game/BattleGroundEY.cpp:127-196 | both passes keep the five lists free of doubles |
| BattleGroundEYInvariants.RemoveGone | src/game/BattleGroundEY.cpp:315-337 | after RemovePlayer the player is in none of the five lists and everybody else where it was |
| BattleGroundEYInvariants.AddPlayerIff | src/game/BattleGroundEY.cpp:304-313 | adding keeps the lists free of doubles exactly for a player in none of them |
| BattleGroundEYInvariants.CapturePays | src/game/BattleGroundEY.cpp:609-645 | a flag brought to a base of one's own pays from a table that has the entry |
| BattleGroundEYInvariants.AddTickOk | src/game/BattleGroundEY.cpp:57-69 | ticks index their table in range |
| BattleGroundEYInvariants.ClickedOnFlagOk | src/game/BattleGroundEY.cpp:517-549 | picking up keeps keeper, state, event and icon in step |
| BattleGroundEYInvariants.DroppedFlagOk | src/game/BattleGroundEY.cpp:481-515 | dropping keeps them in step |
| BattleGroundEYInvariants.AreaTriggerOk | src/game/BattleGroundEY.cpp:339-386 | capturing at an own base keeps them in step, points included |
| BattleGroundEYInvariants.CapturedFlagOk | src/game/BattleGroundEY.cpp:609-645 | the capture itself, with its points, keeps the whole invariant |
| BattleGroundEY.IdInjective | src/game/BattleGroundEY.h:29-54 | no two icons share a world state |
| BattleGroundEYInvariants.SnapshotIff | src/game/BattleGroundEY.cpp:664-699 | a late joiner is told what everybody else was, except for a score beyond the limit after the end |
| BattleGroundEYInvariants.StartOk | src/game/BattleGroundEY.cpp:409-442 | a new battle starts in order |
| BattleGroundEYRules.CheckTowersBars | src/game/BattleGroundEY.cpp:198-218 | on the result of a check, in numbers: with somebody listed at a base its bar is the old one plus the counted Alliance players less the counted Horde players, at most five up, the sum kept between 0 and 100; with nobody listed it stands |
| BattleGroundEYRules.CheckTowersLists | src/game/BattleGroundEY.cpp:127-196 | when all listed players are found, a check lists at each base exactly those of its list who are there and those from outside who are there first of all, moves out exactly those who are not there any more, and counts both teams exactly |
| BattleGroundEYRules.ApplyRules | src/game/BattleGroundEY.cpp:51-95 | every event of a running battle keeps to rules written in numbers: pay of 1, 2, 5 or 10 every two seconds and of 75, 85, 100 or 500 for a flag, honor, who is announced, the flag, bars, owners and clocks |
| BattleGroundEYRules.RunDecided | src/game/BattleGroundEY.cpp:245-259 | over every run a team is announced if and only if it has sixteen hundred points |
| BattleGroundEYRules.RunTotal | src/game/BattleGroundEY.cpp:114-125 | a team's score is what its bases and flags have paid, neither more nor less |
| BattleGroundEYRules.CapturedFlagEffect | src/game/BattleGroundEY.cpp:609-645 | a flag brought home pays by the bases held and waits ten seconds, shown at the base |
| BattleGroundEYRules.FlagFate | src/game/BattleGroundEY.cpp:66-81 | over runs: a dropped or captured flag that nobody picks up is back in the centre when its ten seconds are over, and not before |
| BattleGroundEYRules.BarFollows | src/game/BattleGroundEY.cpp:198-218 | over runs: a lead kept at a base through so many checks has moved its bar by as many strides, or all the way |
| BattleGroundEYRules.LeadersOwn | src/game/BattleGroundEY.cpp:198-243 | progress: with all listed players found, an Alliance lead of at least d through n checks owns the base once n times the lesser of d and 5 covers the way from the bar to 70, and a Horde lead once n times d covers the way to 30 |
| BattleGroundEYRules.StartRules | src/game/BattleGroundEY.cpp:409-442 | bars in the middle, no owners, the flag in the centre |
| BattleGroundEYObject.BattleGroundEY.CheckSomeoneJoinedPoint | src/game/BattleGroundEY.cpp:127-158 | the while loops that erase and push compute the joining pass |
| BattleGroundEYObject.BattleGroundEY.CheckSomeoneLeftPoint | src/game/BattleGroundEY.cpp:160-196 | the while loops that erase and push compute the leaving pass and its counts |
| BattleGroundEYObject.BattleGroundEY.UpdatePointStatuses | src/game/BattleGroundEY.cpp:198-243 | the nested loops over bases and players compute the status transition, whose bars CheckTowersBars gives in numbers and whose owners follow the bars by RunOk |
| BattleGroundEYObject.BattleGroundEY.PushBar | src/game/BattleGroundEY.cpp:205-217 | the new bar status in place; CheckTowersBars says what it is in numbers |
| BattleGroundEYObject.BattleGroundEY.EventTeamLostPoint | src/game/BattleGroundEY.cpp:551-583 | the steps on fields, arrays and the event layer leave the battle in exactly the state the transition `LostPoint` gives, so what RunOk keeps they keep |
| BattleGroundEYObject.BattleGroundEY.EventTeamCapturedPoint | src/game/BattleGroundEY.cpp:585-607 | the steps on fields, arrays and the event layer leave the battle in exactly the state the transition `CapturedPoint` gives, so what RunOk keeps they keep |
| BattleGroundEYObject.BattleGroundEY.AddPoints | src/game/BattleGroundEY.cpp:114-125 | score and honor ticks |
| BattleGroundEYObject.BattleGroundEY.EventPlayerClickedOnFlag | src/game/BattleGroundEY.cpp:517-549 | the steps on fields, arrays and the event layer leave the battle in exactly the state the transition `ClickedOnFlag` gives, so what RunOk keeps they keep |
| BattleGroundEYObject.BattleGroundEY.EventPlayerDroppedFlag | src/game/BattleGroundEY.cpp:481-515 | the steps on fields, arrays and the event layer leave the battle in exactly the state the transition `DroppedFlag` gives, so what RunOk keeps they keep |
| BattleGroundEYObject.BattleGroundEY.EventPlayerCapturedFlag | src/game/BattleGroundEY.cpp:609-645 | the steps on fields, arrays and the event layer leave the battle in exactly the state the transition `CapturedFlag` gives, so what RunOk keeps they keep |
| BattleGroundEYObject.BattleGroundEY.HandleAreaTrigger | src/game/BattleGroundEY.cpp:339-386 | the trigger of one base. Valid (the run invariant, and objects in the world exactly while their event is active) is kept |
| BattleGroundEYObject.BattleGroundEY.Update | src/game/BattleGroundEY.cpp:51-95 | the steps on fields, arrays and the event layer leave the battle in exactly the state the transition `Update` gives, so what RunOk keeps they keep |
| BattleGroundEYObject.BattleGroundEY.RemovePlayer | src/game/BattleGroundEY.cpp:315-337 | erasing from all lists while walking them, and the flag of a carrier who leaves: exactly the removal RemoveGone is about. Valid (the run invariant, and objects in the world exactly while their event is active) is kept |
| BattleGroundEYObject.BattleGroundEY.EraseWalking | src/game/BattleGroundEY.cpp:330-336 | the loop that erases while it walks |
| BattleGroundEYObject.BattleGroundEY.FillInitialWorldStates | src/game/BattleGroundEY.cpp:664-699 | a client filled by number with every icon of the snapshot, and no other number |
| BattleGroundEYObject.BattleGroundEY.BannersTrue | src/game/BattleGround.cpp:1461-1551 | the same in place: Valid carries the run invariant and an orderly layer, so at every moment the objects in the world are those of the owner |
| BattleGroundABInvariants.RunOk | src/game/BattleGroundAB.cpp:46-159 | in every state of every run: a node has a timer exactly while it is contested, its active event is its status or a pending banner is, icons and counts agree with a fresh snapshot, and both resource ledgers balance |
| BattleGroundABInvariants.RunScreen | src/game/BattleGroundAB.cpp:260-316 | after every run a client told piece by piece holds under every number what a client filled at that moment holds |
| BattleGroundABInvariants.NodeDelta | src/game/BattleGroundAB.cpp:294-316 | the old icon off, the new one on and both base counts tell a node change completely |
| BattleGroundABInvariants.ClickedAgrees | src/game/BattleGroundAB.cpp:333-438 | every click on a banner keeps nodes, timers, banners and clients in step |
| BattleGroundABInvariants.DefenceRestores | src/game/BattleGroundAB.cpp:381-424 | a defence gives the node back to the team that occupied it before, and only that team can |
| BattleGroundABInvariants.UpdateNodeAgrees | src/game/BattleGroundAB.cpp:54-97 | the banner and capture timers of one node keep nodes, banners and clients in step |
| BattleGroundABInvariants.AddResourcesOk | src/game/BattleGroundAB.cpp:104-130 | the ledger: score is the capped sum of all ticks, and rewards times tics plus the remainder is the uncapped sum, for honor and for reputation |
| BattleGroundABInvariants.MarksOk | src/game/BattleGroundAB.cpp:131-151 | the 500-disadvantage mark of a team is set if and only if the other one led by more than 500 after some past tick |
| BattleGroundABInvariants.MarkStep | src/game/BattleGroundAB.cpp:131-151 | a tick can leave only the other team newly behind |
| BattleGroundABInvariants.UpdateTeamOk | src/game/BattleGroundAB.cpp:99-151 | one team's tick keeps ledger, marks and icons |
| BattleGroundAB.IdInjective | src/game/BattleGroundAB.h:28-58 | no two icons share a world state |
| BattleGroundABInvariants.BannersTrue | src/game/BattleGround.cpp:1461-1551 | once no banner is waiting the objects of a node in the world are those of its status |
| BattleGroundABInvariants.StartOk | src/game/BattleGroundAB.cpp:455-485 | a new battle starts in order |
| BattleGroundABRules.ApplyRules | src/game/BattleGroundAB.cpp:46-159 | every event of a running battle keeps to rules written in numbers: what a click or a tick does to each node, its timer and banner, what so many nodes pay and after how long, the log, and who is announced |
| BattleGroundABRules.MayClickIff | src/game/BattleGroundAB.cpp:346-347 | a banner can be used by exactly the team that does not have the node |
| BattleGroundABRules.NodeFate | src/game/BattleGroundAB.cpp:71-86 | over runs: a contested node that is left alone is occupied by the team that contested it when its minute is up, and not before |
| BattleGroundABRules.RunDecided | src/game/BattleGroundAB.cpp:153-157 | over every run a team is announced if and only if it has sixteen hundred resources |
| BattleGroundABRules.RunTotal | src/game/BattleGroundAB.cpp:107-140 | a team's resources are the sum of what its nodes paid, cut at the limit once |
| BattleGroundABRules.StartRules | src/game/BattleGroundAB.cpp:455-485 | all nodes neutral, nothing gathered |
| BattleGroundABObject.BattleGroundAB.CreateBanner | src/game/BattleGroundAB.cpp:226-243 | at once, or into the queue |
| BattleGroundABObject.BattleGroundAB.SendNodeUpdate | src/game/BattleGroundAB.cpp:294-316 | the steps on fields, arrays and the event layer leave the battle in exactly the state the transition `SendNodeUpdate` gives, so what RunOk keeps they keep |
| BattleGroundABObject.BattleGroundAB.CountBases | src/game/BattleGroundAB.cpp:303-311 | the counting loop counts the nodes of a team |
| BattleGroundABObject.BattleGroundAB.EventPlayerClickedOnFlag | src/game/BattleGroundAB.cpp:333-438 | the steps on fields, arrays and the event layer leave the battle in exactly the state the transition `ClickedOnFlag` gives, so what RunOk keeps they keep |
| BattleGroundABObject.BattleGroundAB.UpdateNodes | src/game/BattleGroundAB.cpp:54-97 | the loop over all nodes |
| BattleGroundABObject.BattleGroundAB.UpdateTeam | src/game/BattleGroundAB.cpp:99-151 | one team's resources |
| BattleGroundABObject.BattleGroundAB.Update | src/game/BattleGroundAB.cpp:46-159 | the steps on fields, arrays and the event layer leave the battle in exactly the state the transition `Update` gives, so what RunOk keeps they keep |
| BattleGroundABObject.BattleGroundAB.FillInitialWorldStates | src/game/BattleGroundAB.cpp:260-292 | the loops over nodes and states fill a client, by number, that agrees with the battle |
| BattleGroundABObject.BattleGroundAB.BannersTrue | src/game/BattleGround.cpp:1461-1551 | the same in place: Valid carries the run invariant and an orderly layer, so unless a banner waits the objects in the world are those of the status |
| BattleGroundWS.RunOk | src/game/BattleGroundWS.cpp:43-115 | in every state of every run while the match is on: a flag has a keeper exactly while it is carried, the keeper is of the other team, a flag is seen at its base exactly while it is there and the other one does not wait, scores are the captures and below three |
| BattleGroundWS.RunScreen | src/game/BattleGroundWS.cpp:628-661 | after every run a client told piece by piece holds, under the numbers of captures and clock and of a flag that is away, what a client filled at that moment holds |
| BattleGroundWS.RunClean | src/game/BattleGroundWS.cpp:628-661 | and no number outside the table is ever told |
| BattleGroundWS.CarrierDiffers | src/game/BattleGroundWS.cpp:649-657 | the carrier icons differ: in every running state with one flag carried the fill lights the team whose flag it is, the incremental updates the team that has it |
| BattleGroundWS.ReturnUntold | src/game/BattleGroundWS.cpp:385-396 | a dropped flag that is returned stays marked as dropped for those who saw it, and a late joiner sees it at home |
| BattleGroundWS.TableInjective | src/game/BattleGroundWS.h:48-60 | no two icons share a world state |
| BattleGroundWS.CapturedFlagOk | src/game/BattleGroundWS.cpp:188-262 | only the captured flag waits, the score grows by one, and exactly the third capture ends the match |
| BattleGroundWS.ScoreOk | src/game/BattleGroundWS.cpp:197-235 | the score of a capture by itself: both flags in order, the new score told |
| BattleGroundWS.ClickedOnFlagOk | src/game/BattleGroundWS.cpp:342-445 | the four click rules one after the other keep both flags in order |
| BattleGroundWS.HiddenFlagIff | src/game/BattleGroundWS.cpp:342-370 | exact condition without the assumption that clicked objects are spawned: order is lost if and only if the other flag is waiting to respawn |
| BattleGroundWS.AreaTriggerOk | src/game/BattleGroundWS.cpp:490-527 | a capture needs the own flag at its base |
| BattleGroundWS.DroppedFlagOk | src/game/BattleGroundWS.cpp:264-340 | a drop keeps flag, keeper and event in step, in and out of a running match |
| BattleGroundWS.UpdateOk | src/game/BattleGroundWS.cpp:43-115 | respawn timers, drop timers and the clock keep the invariant |
| BattleGroundWS.LeaveOneOk | src/game/BattleGroundWS.cpp:447-472 | a keeper who leaves, online or not, takes no flag along |
| BattleGroundWS.RemovePlayerOk | src/game/BattleGroundWS.cpp:447-472 | the same of both flags |
| BattleGroundWS.StartOk | src/game/BattleGroundWS.cpp:121-130 | the opened match starts in order |
| BattleGroundWSRules.ApplyRules | src/game/BattleGroundWS.cpp:43-115 | every event of a running match keeps to rules written in numbers: what becomes of each flag, what a capture counts, the clock, and the verdict |
| BattleGroundWSRules.RunDecided | src/game/BattleGroundWS.cpp:88-102 | over every run the one verdict is: the team with more captures, at a draw the one that captured last, and nobody without a capture |
| BattleGroundWSRules.RunCount | src/game/BattleGroundWS.cpp:188-225 | a score counts the flags brought home while the own flag was there |
| BattleGroundWSRules.FlagFate | src/game/BattleGroundWS.cpp:49-86 | over runs: a captured flag is back when its 23 seconds are over, a dropped one that nobody uses when its ten are, and not before |
| BattleGroundWSRules.MinutesAre | src/game/BattleGroundWS.cpp:104-113 | the clock shows every minute that has begun |
| BattleGroundWSRules.StartRules | src/game/BattleGroundWS.cpp:534-558 | both flags at home, 25 minutes |
| BattleGroundWSObject.BattleGroundWS.RespawnFlag | src/game/BattleGroundWS.cpp:141-164 | the steps on fields, arrays and the event layer leave the battle in exactly the state the transition `RespawnFlag` gives, so what RunOk keeps they keep |
| BattleGroundWSObject.BattleGroundWS.EventPlayerClickedOnFlag | src/game/BattleGroundWS.cpp:342-445 | the steps on fields, arrays and the event layer leave the battle in exactly the state the transition `ClickedOnFlag` gives, so what RunOk keeps they keep |
| BattleGroundWSObject.BattleGroundWS.EventPlayerDroppedFlag | src/game/BattleGroundWS.cpp:264-340 | the steps on fields, arrays and the event layer leave the battle in exactly the state the transition `DroppedFlag` gives, so what RunOk keeps they keep |
| BattleGroundWSObject.BattleGroundWS.EventPlayerCapturedFlag | src/game/BattleGroundWS.cpp:188-262 | the steps on fields, arrays and the event layer leave the battle in exactly the state the transition `CapturedFlag` gives, so what RunOk keeps they keep |
| BattleGroundWSObject.BattleGroundWS.HandleAreaTrigger | src/game/BattleGroundWS.cpp:490-527 | the steps on fields, arrays and the event layer leave the battle in exactly the state the transition `AreaTrigger` gives, so what RunOk keeps they keep |
| BattleGroundWSObject.BattleGroundWS.RemovePlayer | src/game/BattleGroundWS.cpp:447-472 | the steps on fields, arrays and the event layer leave the battle in exactly the state the transition `RemovePlayer` gives, so what RunOk keeps they keep |
| BattleGroundWSObject.BattleGroundWS.Update | src/game/BattleGroundWS.cpp:43-115 | the steps on fields, arrays and the event layer leave the battle in exactly the state the transition `Update` gives, so what RunOk keeps they keep |
| BattleGroundWSObject.BattleGroundWS.FillInitialWorldStates | src/game/BattleGroundWS.cpp:628-661 | a client filled by number with every icon, and no other number |
| BattleGroundWSObject.BattleGroundWS.FlagTrue | src/game/BattleGround.cpp:1461-1551 | Valid carries the run invariant and an orderly layer: in a running match a flag is in the world exactly while it is at its base and the other one does not wait |
| MapFile.Layout | contrib/extractor/System.cpp:745-895 | for every combination of flags the offsets and sizes in the header are exactly the contiguous byte ranges written |
| MapFile.RoundTrip | src/game/GridMap.cpp:66-113 | the server reads back every tile as it was written, and rejects it exactly when it does not accept the build |
| MapFile.LoadAreaBack | src/game/GridMap.cpp:140-156 | the area part is read back where it was written, uniform or cell by cell |
| MapFile.LoadHeightsBack | src/game/GridMap.cpp:158-200 | the height part is read back where it was written, in one, two, four bytes or none a height |
| MapFile.LoadLiquidBack | src/game/GridMap.cpp:202-230 | the liquid part is read back where it was written, for all flags |
| MapFile.Sizes | contrib/extractor/System.cpp:427-442 | each announced size is the length of what is written |
| MapPacker.QuantiseError | contrib/extractor/System.cpp:588-612 | a height between the bounds is stored without overflow and unpacks to within half a step |
| MapPacker.ServedError | src/game/GridMap.cpp:244-465 | for every way to store: at every point of every cell the height the server computes is off by no more than half a step (by the spread of a flat tile, by nothing for floats) |
| MapPacker.StoredError | src/game/GridMap.cpp:339-465 | the reason: planes average, unpacking commutes with averaging, and storing a single height is nearly exact |
| MapPacker.PlaneAverages | src/game/GridMap.cpp:249-337 | the four triangle formulas average the corners and the middle of a cell |
| MapPacker.PlaneCommutes | src/game/GridMap.cpp:339-465 | computing on stored numbers and unpacking once is computing on unpacked heights |
| MapPacker.DefaultError | contrib/extractor/System.cpp:61-71 | with the default limits the server is off by less than 0.016 |
| MapPacker.WindowInsideIff | contrib/extractor/System.cpp:781-810 | the liquid window lies inside the grid if and only if some cell shows liquid |
| MapPacker.WindowExact | contrib/extractor/System.cpp:801-804 | then nothing is cut off when it is put in bytes |
| MapPacker.LevelsKept | src/game/GridMap.cpp:467-485 | every cell that shows liquid has its level back |
| MapExtractor.Widen | contrib/extractor/System.cpp:514-537 | the bound loops find bounds of all heights that are attained or initial |
| MapExtractor.LimitHeights | contrib/extractor/System.cpp:514-553 | bounds and deep-sea limit together: every height lifted, the bounds those of the lifted heights |
| MapExtractor.Pack | contrib/extractor/System.cpp:588-612 | the quantising loops cut nothing off |
| MapExtractor.PackHeights | contrib/extractor/System.cpp:514-616 | limit, choice of representation and packing in place; the bounds are attained |
| MapExtractor.GetHeight | src/game/GridMap.cpp:244-465 | the server's height at any point of what was packed is within the bound of the planes through the limited heights (MapTile carries it through the file) |
| MapExtractor.PackAreas | contrib/extractor/System.cpp:410-442 | the area loop packs a uniform tile into one number, and the server gets every cell's area back |
| MapExtractor.TypesDiffer | contrib/extractor/System.cpp:745-760 | the loop with its early exit tells whether the liquid types differ |
| MapExtractor.GrowSmallest | contrib/extractor/System.cpp:781-786 | a shown cell grows the smallest box |
| MapExtractor.BoundLiquid | contrib/extractor/System.cpp:771-797 | the liquid loop finds the smallest box around the shown cells and bounds of their levels, the lower one attained, and lowers the rest |
| MapExtractor.PackLiquid | contrib/extractor/System.cpp:745-832 | the liquid header, or none; types of all cells come back |
| MapExtractor.LevelsInsideIff | contrib/extractor/System.cpp:883-889 | exact condition: the rows written lie inside the grid if and only if a cell shows liquid or the empty surface counts as flat |
| MapExtractor.StoreLevels | contrib/extractor/System.cpp:883-889 | the writing loop writes the rows of the window, inside the grid or not |
| MapExtractor.LiquidServed | src/game/GridMap.cpp:467-485 | a shown cell keeps its level, up to the limit under which a surface is flat |
| MapTile.ConvertADT | contrib/extractor/System.cpp:371-895 | end to end, for every tile: from the file the extractor packs and writes, a server that accepts the build answers for every area, every liquid type, every level of a shown cell (within the flatness limit) and, at every point of every cell, a height within the bound that the header in the file names |
| MapTile.HeightsThrough | src/game/GridMap.cpp:244-465 | heights packed, written as bytes, read back and computed with stay within the bound, for all four representations |
| MapTile.AreasThrough | src/game/GridMap.cpp:232-242 | the area of every cell comes back through the bytes |
| MapTile.LiquidThrough | src/game/GridMap.cpp:467-500 | type and level of every cell come back through the bytes |
| MapTile.ServerHeightBack | src/game/GridMap.cpp:244-465 | what the server computes from the bytes is what it would compute from the grids |
| MapTile.NumberBack | src/game/GridMap.cpp:158-200 | each stored number is read back from its place |
| MapTile.NumbersAt | contrib/extractor/System.cpp:858-873 | numbers written one after the other lie at multiples of their width |
| MapTile.LineAt | contrib/extractor/System.cpp:858-873 | a grid is written row by row |
| MapTile.PackTileHeights | contrib/extractor/System.cpp:514-616 | the packed height part: the header names attained bounds, and the server's heights are within them |
| MapTile.PackTileAreas | contrib/extractor/System.cpp:410-442 | the packed area part |
| MapTile.PackTileLiquid | contrib/extractor/System.cpp:745-832 | the packed liquid part, none without a liquid type; without any shown cell its rows come from beyond the grid, and nothing asks for them |

## Left out

- Packets, sessions, SQL text, chat, sound, logging, localisation, spells, auras and teleports: they appear only as the facts a step depends on (who is found, what is near, what the database rows are).
- Each kind of achievement criterion by itself: a criterion's requirement checks and the value it reads are the oracle; the threshold each kind is compared with is one number of the criterion.
- Achievement rewards: the mail and title after an award is one log entry.
- Loading the realm-wide completed set at start-up: a run starts from any orderly realm.
- `AuctionHouseBot`: it bids without paying.
- The deposit formula and the duration of an auction: parameters of a sale.
- Loading of auctions at start-up, expiry and deletion of mails, mails to deleted characters beyond the refund rules, and the deletion of characters.
- AuctionLedger.RunConserves: auction ids are unbounded; and a run in which somebody takes a mail of exactly one coin more than a purse may hold is left out, because that purse is over its limit afterwards. InOrderIff says that nothing else brings a world out of order.
- BattleGroundEYInvariants.RunOk: this and the runs of the other objective machines of the four battlegrounds assume fewer than 256 players, so that 8-bit loop and player counters do not wrap, and scrap counts below 32 bits, because these counters are unbounded in the model.
- BattleGroundRoster.LogOutCountsIff: the uninitialised team of an indexed record is 0, as value-initialisation gives it.
- Arena rules of the base class: alive counts, arena teams, buffs.
- The subclass hook called when a participant leaves: modelled in Eye of the Storm and Warsong Gulch, not in the base class.
- Queue matching, invitations, free-slot queues, raid groups, the deletion of an empty battleground and doors.
- Missing game objects: every registered object is assumed to be found when it is spawned or despawned.
- Keeper and state of flags outside of a running match, and the icons of the flag states in Eye of the Storm.
- The reward of Arathi Basin for four and five bases, and the states that show scores after the match in Alterac Valley.
- Honor, reputation, marks and quest credit, except for the tick ledger of Arathi Basin.
- Graveyards, buffs, mine quests and player statistics.
- MapPacker.ServedError: floats are real numbers; rounding of single precision is not modelled.
- MapExtractor.GetHeight: from map coordinates to cell and position inside it is not modelled.
- MapTile.ConvertADT: a float in a file is four bytes that give back the numbers which occur (heights, levels and limits), since these come from floats; what lies in memory beyond the grid, where the rows of a tile with a liquid type but no shown cell are read (LevelsInsideIff says exactly when), is a parameter.
- Reading of the client's files: the extractor's grids are inputs, areas and liquid types within their widths.
- AchievementRealm.RunOk: closure of the completed set is claimed for runs in which no step takes summed progress away while a total is beyond 32 bits; which further runs keep it depends on how each wrapped sum happens to compare with the count it is checked against.
