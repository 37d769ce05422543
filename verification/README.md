# BattleSpades rule engines, modelled and proved in Dafny

BattleSpades is an authoritative game server. Its rules live in long-lived mode objects that are driven by server ticks,
deaths, joins, leaves and terrain edits. This project models the hardest of those engines and one wire decoder, and
proves what they keep over whole matches.

Every mode follows the same plan. A value module states the mode as a state, the events of its hooks and a step
function, and proves invariants over every run. A class module has the mode's own fields and methods, in the form the
server gives them, and proves each method against the step functions: its new state is the step applied to its old
state, or a run of such steps. The run theorems therefore speak about every sequence of hooks. What a single
step means is stated by lemmas of its own: who is paid, what goes off, what stays where it was.

| file | what it models |
|---|---|
| `Wrappers.dfy` | options and results, the two teams, players with reusable slot ids, facts about sizes and division |
| `ObjectiveGuard.dfy` | voxel columns and dry land; when a ground objective counts as trapped, how it is resettled, and the trap timer |
| `IntelStack.dfy` | raising the capture-the-flag intel out of a stack of blocks |
| `MapCreator.dfy` | the Map Creator's checkpoint and save tasks under one lock, cut at every suspension point |
| `TutorialLanes.dfy` | training lanes: the undo log, the target discs, sessions and the deferred edit queue |
| `DiamondMine.dfy` | where every diamond is, the drop-offs, and the hooks that move diamonds |
| `Occupation.dfy` | bombs, fuses, respawns and carriers |
| `VipMatch.dfy` | VIP sub-rounds, scoring, sudden death and the way the match ends |
| `ZombieRounds.dfy` | outbreaks, departures, and the sequence of rounds |
| `TerritoryControl.dfy` | the capture rate, territory ownership, the wire amount, scores and end |
| `Demolition.dfy` | the incremental base-damage index and the repair book |
| `MultiHill.dfy` | payouts on a time grid, hill control, rotation and settlement |
| `LoadoutPacket.dfy` | the class-loadout packet against a printer, and the orientation field |
| `ModeClock.dfy` | the once-only end of a match and the timeout snapshot of queued events |

Times, positions and progress are real numbers on one clock, passed to the methods. Random draws, line of sight, zone
membership, and whether the pick-up tool accepts are parameters of the methods that need them, so each theorem holds
for every value they can take. The entity registry is a source of ids no live entity has. Hooks run to completion;
the save tasks alone are interleaved. Ledgers such as the diamond account are ghost state beside the server's fields.
Diamond Mine's drop-offs are kept by a board object that the mode owns.

## Where code and documentation disagree

- `protocol/runtime_packets.py:29-34` documents a two-scale encoder that never emits the gap between its scales. By that
  formula the gap is not quite empty: magnitudes within half a step below one give 8192. The writer this repository has,
  `shared/packet.pyx:135-168`, follows another formula: one scale, saturating, in two's complement. It emits every
  value of the gap but the last, and the decoder reads its negative numbers wrong but for those next to zero and to minus three halves
  (`OrientationField.WrittenRoundTripsExactlyWhen`).
- `modes/tutorial.py:148-149` says an overflowing lane is logged; nothing is logged, and `LaneLog.HandOverRestores` says
  exactly what is then restored.
- The comment at `server/simulation_runtime.py:300-302` says newer arrivals cannot prolong the end. That holds while the
  snapshot's events stay queued. Settling a leaver's events (`server/main.py:453-465`) removes them without taking them
  off the count, and the clock then waits for new ones: `TimeoutSnapshot.EndsExactlyWhenServed` gives the exact condition.
- The comment at `modes/demolition.py:93-94` says refilling one's own holes is no repair. The book of such holes is emptied
  by the first refill, and a second one is paid: when two teammates' lines cover the same hole, both are checked at
  receipt and written later without another look (`server/combat_runtime.py:1550-1616`). `BlockCredit.OwnHolesUnpaidExactlyWhen`
  says when the rule holds. The second team's damage index is exact only for disjoint snapshots.
- While a mode is being replaced its end by score does nothing. Diamond Mine can then keep an empty drop-off open, and
  VIP stays in its intermission.
- `modes/vip.py:111` reads the minimum team size without a floor; below one, the selection raises when a team has nobody
  to draw from (`VipMatch.VIPMode.SelectVips`).

## Model

| member | source | states |
|---|---|---|
| `Voxels.FirstSolid` | aoslib/vxl.pyx:1698-1729 | The column query finds the topmost solid voxel at or below the given level, with only air above it |
| `Voxels.ScanPassesNoDry` | server/world_manager.py:943-992 | The square spiral reports a dry column no further out than any other dry column not yet passed, or proves there is none |
| `Voxels.ScanFindsNearestDry` | server/world_manager.py:969-992 | The whole search finds a dry column on the smallest ring that has one |
| `ObjectiveGuard.FloodIsSealed` | modes/objective_guard.py:131-161 | The bounded depth-first flood terminates and answers "sealed" exactly when the air component has at most the budget of cells and no air path leads to a cell that sees the sky, sky being the real column tops of the same voxels |
| `ObjectiveGuard.PushAirNeighbours` | modes/objective_guard.py:155-160 | One expansion records exactly the unseen air neighbours and queues each once |
| `ObjectiveGuard.SeesSkyMeetsOpenSky` | modes/objective_guard.py:149-154 | The early-out test misses at most a cell whose neighbour passes it, so it decides reachability of the sky |
| `ObjectiveGuard.Trapped` | modes/objective_guard.py:106-161 | The verdict is Buried, Floating, Sealed or none, in that order of precedence, with the supporting cell computed as the server computes it |
| `ObjectiveGuard.FloatsOverTwoEmptyVoxels` | modes/objective_guard.py:131-147 | An objective in open air floats if and only if the voxel under it and the next one are both empty, above the waterbed |
| `ObjectiveGuard.FreeOnColumnTop` | modes/objective_guard.py:131-161 | An objective on a real column top is never trapped |
| `ObjectiveGuard.OneResettleFromSolidSupport` | modes/objective_guard.py:164-198 | With a solid supporting voxel one resettle frees the objective |
| `ObjectiveGuard.DropLandsOnSupport` | modes/objective_guard.py:164-198 | A dropped objective comes down on a solid voxel; the worst it can still be is sealed |
| `ObjectiveGuard.TwoResettlesSuffice` | modes/objective_guard.py:164-198 | On unchanged terrain two resettles free the objective if and only if its column is on the map or dry land lies in search range |
| `ObjectiveGuard.OffMapStaysBuried` | modes/objective_guard.py:164-198 | In the one failing family, off the map with no dry land in range, every resettle leaves the objective buried in place |
| `ObjectiveGuard.RestsInItsOwnColumn` | modes/objective_guard.py:164-198 | When its own column has dry land the objective rests on the first solid voxel below an empty support, and on the column top when the support is solid or nothing lies below |
| `ObjectiveGuard.FloatingDrops` | modes/objective_guard.py:178-189 | An objective with nothing under it drops, straight down, to the first solid voxel below, whatever lies above it |
| `ObjectiveGuard.BuriedRises` | modes/objective_guard.py:178-191 | An objective whose support is solid, or with nothing below it at all, rises to the top of its own column |
| `ObjectiveGuard.WetMovesToDryLand` | modes/objective_guard.py:192-198 | Over the waterbed alone it moves to the top of a dry column on the smallest ring that has one, and stays over its own column when none is in range |
| `ObjectiveGuard.TrapTimer.Due` | modes/objective_guard.py:207-215 | One observation advances the clock of its own key only and fires as the reference watch does |
| `ObjectiveGuard.TrapTimer.Clear` | modes/objective_guard.py:217-218 | All clocks are forgotten |
| `ObjectiveGuard.DueExactlyAfterGrace` | modes/objective_guard.py:201-215 | Over any history of observations the timer fires exactly when the objective has been trapped, unmoved, for the whole grace period |
| `IntelStack.UnburiedIntelAnchor` | modes/ctf.py:166-202 | A raise happens exactly when the intel stands in something solid, crosses only a contiguous solid stack, and lands with air above or at the map top |
| `IntelStack.RaiseIsIdempotent` | modes/ctf.py:166-202 | A raised intel is never raised again on the same terrain |
| `IntelStack.RaiseSatisfiesGuard` | modes/ctf.py:642-653 | After a raise the guard no longer finds the intel buried or floating |
| `IntelStack.FieldIntel.MoveGroundIntel` | modes/ctf.py:578-591 | Moving a dropped intel keeps its home; moving one at home takes its home along; its trap clock restarts |
| `IntelStack.FieldIntel.RaiseBuriedIntel` | modes/ctf.py:642-653 | Reports a move exactly when a ground intel was obstructed, leaves it unobstructed and the other team untouched |
| `SaveProtocol.EveryRunKeepsInv` | modes/ugc.py:178-206 | In every interleaving of edits, checkpoints, save requests and failed writes the accounts of requests, acknowledgements, lock and files stay consistent |
| `SaveProtocol.AcknowledgedEditsStayOnDisk` | modes/ugc.py:856-887 | A success acknowledgement means the files held, and from then on hold, every edit made before that request |
| `SaveProtocol.FilesNeverRegress` | modes/ugc.py:889-891 | Neither file ever goes back to an older version |
| `SaveProtocol.CleanMeansSaved` | modes/ugc.py:193-206 | Not dirty and no write in flight implies the files equal the project |
| `SaveProtocol.AcknowledgedAtMostOnce` | modes/ugc.py:856-887 | Acknowledgements come in request order, none twice |
| `SaveProtocol.AnsweredByOutcome` | modes/ugc.py:856-887 | A finished save answers its whole batch, in order, with success exactly when both files were written; a failed serialization answers with failure; nothing else answers |
| `SaveProtocol.NoFailureMeansSuccess` | modes/ugc.py:856-887 | In a run where no serialization and no write of a save fails every acknowledgement is a success |
| `SaveProtocol.SavedAsSerialized` | modes/ugc.py:861-891 | Whatever is edited while a save writes, the files get the terrain and the project as serialized under the lock |
| `SaveProtocol.CheckpointedAsSerialized` | modes/ugc.py:193-206 | The same of a checkpoint and the sidecar |
| `SaveProtocol.WorkCanAlwaysProceed` | modes/ugc.py:856-887 | While work remains, some task can take a step: the lock is never stuck |
| `SaveProtocol.TasksStop` | modes/ugc.py:856-887 | However the two tasks interleave and whichever writes fail, they stop within a bound computed from the state |
| `SaveProtocol.SettledMeansAnswered` | modes/ugc.py:836-887 | When the tasks can move no further every request has been answered exactly once |
| `SaveProtocol.RequestedSaveIsMade` | modes/ugc.py:836-887 | A save that is asked for is made: when the tasks have run out without a failure both files hold the project and terrain as they are, nothing is dirty, and every waiting request was told of a success |
| `SaveProtocol.TickStartsCheckpoint` | modes/ugc.py:178-191 | A tick starts a checkpoint if and only if the project is dirty, none is under way, and a second has gone by since the last |
| `SaveProtocol.RequestedCheckpointStarts` | modes/ugc.py:178-191 | A requested checkpoint is under way at the first tick a second after the last one |
| `SaveProtocol.DirtyProjectReachesItsFile` | modes/ugc.py:178-206 | The checkpoint of that tick, if nothing fails, leaves the sidecar equal to the project and nothing of it dirty |
| `MapCreator.UGCMode.constructor` | modes/ugc.py:88-136 | A fresh project is clean, with nothing pending |
| `MapCreator.UGCMode.CommitProjectEdit` | modes/ugc.py:628-781 | An edit of the host marks the sidecar dirty |
| `MapCreator.UGCMode.RequestCheckpoint` | modes/ugc.py:831-834 | An explicit checkpoint request marks the project dirty for the next tick |
| `MapCreator.UGCMode.OnWorldMutation` | modes/ugc.py:893-907 | A terrain edit marks the terrain dirty |
| `MapCreator.UGCMode.OnTick` | modes/ugc.py:178-191 | The tick starts a checkpoint only when one is due and none runs |
| `MapCreator.UGCMode.RequestSave` | modes/ugc.py:836-854 | Only a connected host's request is queued, and a saver is started if none runs |
| `MapCreator.UGCMode.CheckpointAcquiresLock` | modes/ugc.py:193-200 | Under the lock the project is serialized first and the dirty flag cleared after it; a failed serialization leaves the flag alone |
| `MapCreator.UGCMode.CheckpointWriteReturns` | modes/ugc.py:200-206 | A failed checkpoint write leaves the project dirty |
| `MapCreator.UGCMode.RunSavesLoopTest` | modes/ugc.py:856-861 | The saver takes the whole waiter list as one batch, or stops |
| `MapCreator.UGCMode.SaveAcquiresLock` | modes/ugc.py:861-868 | The batch is bound to the project as serialized under the lock |
| `MapCreator.UGCMode.SaveWriteReturns` | modes/ugc.py:868-887 | Success is acknowledged to the batch exactly when both files were written; any other outcome is acknowledged as a failure and raises the dirty flags again |
| `LaneLog.LaneOfIsTheLane` | modes/tutorial.py:815-824 | The lanes do not overlap: the first rectangle found is the only one |
| `LaneLog.EveryRunIsComplete` | modes/tutorial.py:712-784 | Over any run of edits and hand-overs every cell of a lane that differs from the training map is in the undo log or was lost past its limit |
| `LaneLog.HandOverRestores` | modes/tutorial.py:712-760 | A hand-over gives back the training map's lane if and only if the log holds every difference outside the target discs and the pristine copy was loaded |
| `LaneLog.HandOverStaysInItsLane` | modes/tutorial.py:712-760 | Restoring a lane changes no cell outside it |
| `LaneLog.TenancyIsRemembered` | modes/tutorial.py:762-775 | Up to the touch limit the log is exactly the set of cells edited since the last hand-over |
| `LaneLog.NextLearnerFindsTheAuthoredLane` | modes/tutorial.py:334-357 | Whatever edits came before, on at most the limit of distinct cells, the next learner finds every voxel of the lane as authored |
| `LaneLog.HooksAreARun` | modes/tutorial.py:712-813 | Any sequence of hooks (edits, groups of removals, learners being seated) is one run of single edits and hand-overs |
| `LaneLog.NextLearnerAfterHooks` | modes/tutorial.py:334-357 | Over any sequence of edits, drains, polls and arrivals in other lanes, on at most the limit of distinct cells of the lane, the next learner finds every voxel of it as authored, and the log is complete and empty for it |
| `LaneLog.RemovalsAreEdits` | server/world_manager.py:1894-1924 | Destroying a group of cells is a run of single edits |
| `LaneLog.WithoutMore` | server/world_manager.py:1894-1924 | Two groups destroyed one after the other are one group |
| `LaneLog.RestoreOneMore` | modes/tutorial.py:740-752 | Restoring cell by cell, in any order, is the restore of the whole wish list |
| `Bullseyes.TargetsAreApart` | modes/tutorial.py:658-710 | No cell belongs to two targets, and each target lies in its own lane |
| `Bullseyes.DiscIsASquareLessItsCorners` | modes/tutorial.py:134-137 | A bullseye is the five by five square of its plane less the corners: twenty-one voxels |
| `Bullseyes.TargetAtIsTheTarget` | modes/tutorial.py:658-710 | A cell is indexed under a target exactly when it is authored red within that target's scan box |
| `TutorialLanes.Session.EnterStage` | modes/tutorial.py:826-852 | Stages only advance, each from its own moment; a gallery already cleared is skipped; the climb is never reached with a target standing |
| `TutorialLanes.Session.Advance` | modes/tutorial.py:514-559 | One tick passes exactly the gate of the present stage, when its time, ground, target or tower condition holds, and the next stage counts from then |
| `TutorialLanes.EarnedOnlyByOwnEdits` | modes/tutorial.py:786-807 | A batch earns a session a target exactly when it holds a removal of one of that target's cells published for that session |
| `TutorialLanes.EachPlaysAlone` | modes/tutorial.py:786-813 | A batch moves each session as if it were the only one, and no other |
| `TutorialLanes.PlayedEarns` | modes/tutorial.py:786-813 | A batch adds to the targets of a session exactly those it earns |
| `TutorialLanes.PlayedOpens` | modes/tutorial.py:594-622 | A batch opens the climb exactly when it brings the last target down for a revealed learner who is shooting, at that tick |
| `TutorialLanes.PlayedBuilds` | modes/tutorial.py:786-813 | Every block a climber places is counted, nothing else is, and nothing before the climb |
| `TutorialLanes.FelledExactly` | modes/tutorial.py:594-622 | With a batch fall exactly the discs of the targets that come down with it |
| `TutorialLanes.BatchEarns` | modes/tutorial.py:786-790 | Whatever was queued in front of its end, one more batch earns a session the next 512 of the first edits, or all that were left |
| `TutorialLanes.StaysSpent` | modes/tutorial.py:786-813 | Removals that could earn nothing when they were queued cannot earn anything after any batch |
| `TutorialLanes.TutorialMode.constructor` | modes/tutorial.py:205-244 | An empty mode over the training map |
| `TutorialLanes.TutorialMode.OnWorldMutation` | modes/tutorial.py:762-784 | A published edit is remembered in its lane's bounded log and queued for the lane's occupant at publication |
| `TutorialLanes.TutorialMode.AnnouncedInOrder` | modes/tutorial.py:777-784 | Short of the queue's limit every removal is queued, once and in order, for the learner whose lane it is in |
| `TutorialLanes.TutorialMode.SetBlock` | server/world_manager.py:499-555 | A block write is one edit of the log and one queued event |
| `TutorialLanes.TutorialMode.DestroyBlocks` | server/world_manager.py:1894-1924 | Removes exactly the solid cells named, each once, and publishes each |
| `TutorialLanes.TutorialMode.DesiredCells` | modes/tutorial.py:724-739 | The wish list is the training map on the touched cells, overridden by the lane's discs |
| `TutorialLanes.TutorialMode.RestoreCell` | modes/tutorial.py:740-752 | One wanted cell is written and no other cell changes |
| `TutorialLanes.TutorialMode.WriteCells` | modes/tutorial.py:740-752 | The loop over the wish list writes exactly the wish list |
| `TutorialLanes.TutorialMode.RestoreLaneTargets` | modes/tutorial.py:712-760 | The whole restore is one hand-over of the log; it queues no removal of an authored cell |
| `TutorialLanes.TutorialMode.GetSpawnPoint` | modes/tutorial.py:334-357 | A new learner gets the lowest free lane, handed over, with nothing queued that could credit them; all twelve taken is the error; a known learner keeps lane and terrain |
| `TutorialLanes.TutorialMode.NothingEarnedYet` | modes/tutorial.py:334-357 | No batch of edits queued up to a hand-over earns the new learner a target |
| `TutorialLanes.TutorialMode.LiveSessionsHoldDistinctLanes` | modes/tutorial.py:334-357 | Live sessions hold distinct lanes |
| `TutorialLanes.TutorialMode.OnPlayerLeave` | modes/tutorial.py:457-465 | Exactly the departing object's session and lane are released |
| `TutorialLanes.TutorialMode.DropTarget` | modes/tutorial.py:594-622 | The whole disc falls, the target counts once, and clearing the last one opens the climb |
| `TutorialLanes.TutorialMode.ScoreTarget` | modes/tutorial.py:594-622 | The whole disc falls with the target, unless it has fallen before, and each fallen cell is in the undo log |
| `TutorialLanes.TutorialMode.Interpret` | modes/tutorial.py:786-813 | A queued edit changes nothing but the session it was published for, and that one, while it is live, exactly as the reference step says; exactly the disc it newly earns falls |
| `TutorialLanes.TutorialMode.DrainWorldMutations` | modes/tutorial.py:786-813 | A tick takes the first 512 queued edits, or all: every live session stands as the batch played for it says, exactly the discs of the targets that come down fall, and what stays queued is the rest of the queue, in order, followed by the removals of this tick, which can earn nobody anything |
| `TutorialLanes.TutorialMode.DrainOverTicks` | modes/tutorial.py:786-813 | Over as many ticks as the queue needs each live session gains exactly what was queued for it: nothing past the budget is lost |
| `TutorialLanes.TutorialMode.PollTargetHits` | modes/tutorial.py:575-592 | Exactly the damaged targets of the learner's own lane are added, the last one opens the climb once, and terrain and undo log change by removals of authored disc cells |
| `DiamondLedger.EveryMatchConserves` | modes/diamond_mine.py:199-304 | Over any match every diamond uncovered is in exactly one place or met exactly one fate, the dictionaries agree with that entry for entry, at most the limit are in play, the history holds exactly the serials in play, and each team has as many points as diamonds were cashed in for it |
| `DiamondLedger.SerialsAreUnique` | modes/diamond_mine.py:517-560 | No serial number is on the ground or in hands twice, through pick-up and drop |
| `DiamondLedger.FateIsFinal` | modes/diamond_mine.py:602-752 | A diamond once cashed in, expired or discarded never comes back into play |
| `DiamondLedger.StolenWhenTheEnemyCarriedIt` | modes/diamond_mine.py:676-691 | The history names an enemy team exactly when one has carried the diamond at some time |
| `DiamondLedger.UncoverKeepsInv` | modes/diamond_mine.py:253-304 | An uncovered diamond enters the account |
| `DiamondLedger.PickUpKeepsInv` | modes/diamond_mine.py:567-600 | A pick-up moves one diamond from ground to hands |
| `DiamondLedger.DropKeepsInv` | modes/diamond_mine.py:754-790 | A drop uses up one serial number and puts the old one back on the ground |
| `DiamondLedger.LeavingCarrierKeepsInv` | modes/diamond_mine.py:602-650 | A cash-in or discard closes a carried diamond's account |
| `DiamondLedger.LeavingGroundKeepsInv` | modes/diamond_mine.py:706-752 | A loose cash-in or expiry closes a ground diamond's account |
| `DiamondMine.DroppedDiamond` | modes/diamond_mine.py:754-790 | A dropped diamond keeps its serial and is paid, if it is scored where it rests, to the team it was dropped for, one point |
| `DiamondMine.DroppedDiamondInTime` | modes/diamond_mine.py:754-790 | It can be taken again exactly when its delay is over, and expires exactly a lifetime after the drop |
| `DiamondMine.UncoveredDiamond` | modes/diamond_mine.py:253-304 | An uncovered diamond can be taken at once, expires a lifetime later, and is never scored where it lies |
| `DiamondDropoffs.DropoffBoard.constructor` | modes/diamond_mine.py:160-185 | A new match opens the right number of drop-offs, all full |
| `DiamondDropoffs.DropoffBoard.SelectNext` | modes/diamond_mine.py:480-490 | Modular selection from the cursor gives min(limit, n) different drop-offs |
| `DiamondDropoffs.DropoffBoard.ActivateNextDropoffs` | modes/diamond_mine.py:480-496 | Exactly the selected drop-offs are open, flags and list agree, each at its capacity |
| `DiamondDropoffs.DropoffBoard.Replacement` | modes/diamond_mine.py:800-806 | The first drop-off in order that is closed and not the exhausted one |
| `DiamondDropoffs.FirstClosedIsFirst` | modes/diamond_mine.py:800-806 | It is closed and every one before it is open; the exhausted one itself only when all the others are open |
| `DiamondDropoffs.DropoffBoard.RotateDropoff` | modes/diamond_mine.py:792-813 | The exhausted drop-off closes and its replacement opens, full, at the end of the list |
| `DiamondDropoffs.DropoffBoard.Take` | modes/diamond_mine.py:629-650 | One diamond goes into the drop-off, and a full one is replaced unless the match is over |
| `DiamondDropoffs.TookOnePlace` | modes/diamond_mine.py:629-650 | A diamond uses up one place of its drop-off and nothing of the others; the last place opens a closed drop-off, full, or the same again exactly when all were open |
| `DiamondDropoffs.TookKeepsSound` | modes/diamond_mine.py:629-650 | The right number of distinct drop-offs stays open, and a stocked board stays stocked exactly when the match is not over or more than one place was left |
| `DiamondMine.DiamondMineMode.OnBlocksDestroyed` | modes/diamond_mine.py:253-304 | A diamond is uncovered exactly when allowed and either drawn or overdue; then the cooldown and count restart, and otherwise exactly the mined blocks are added to the count |
| `DiamondMine.DiamondMineMode.SpawnDiamond` | modes/diamond_mine.py:517-565 | A fresh entity with the next serial number; a history entry only for a find |
| `DiamondMine.DiamondMineMode.PickupDiamond` | modes/diamond_mine.py:567-600 | An accepted pick-up is the ledger's step, a refused one changes nothing |
| `DiamondMine.DiamondMineMode.RemoveGroundDiamond` | modes/diamond_mine.py:822-827 | A diamond leaves the ground for the given fate, with its point if cashed |
| `DiamondMine.DiamondMineMode.RemoveCarriedDiamond` | modes/diamond_mine.py:610-622 | A diamond leaves its carrier for the given fate, with its point if cashed |
| `DiamondMine.DiamondMineMode.LayDown` | modes/diamond_mine.py:776-789 | The dropped diamond lies on the ground under its old serial number for the team that carried it |
| `DiamondMine.DiamondMineMode.SettleDropoff` | modes/diamond_mine.py:629-650 | The drop-off takes the diamond, and the match ends, once, at the limit unless the mode is being replaced |
| `DiamondMine.EndsAtTheLimit` | modes/diamond_mine.py:629-650 | A score ends the match exactly when it reaches the limit and the mode is not being replaced, with the scoring team as winner |
| `DiamondMine.DiamondMineMode.CashIn` | modes/diamond_mine.py:602-650 | An accepted cash-in scores one point, closes the diamond and settles the drop-off |
| `DiamondMine.DiamondMineMode.OpenDropoff` | modes/diamond_mine.py:693-704 | The first open drop-off, in order, with room for the team, or none exists |
| `DiamondMine.FirstTakingIsFirst` | modes/diamond_mine.py:693-704 | It takes a diamond of the team where it is, every one before it does not, and none does when none is found |
| `DiamondMine.LooseScoresWhere` | modes/diamond_mine.py:706-752 | A resting diamond scores if and only if the rules let it, a team dropped it, and an open drop-off with room, its own or neutral, is where it rests |
| `DiamondMine.CashesInWhere` | modes/diamond_mine.py:238-243 | A carrier cashes in if and only if an open drop-off with room, its own or neutral, is where they stand and the tool accepts; the team gets one point |
| `DiamondMine.DiamondMineMode.CashInLoose` | modes/diamond_mine.py:706-752 | A resting diamond is scored exactly when allowed, unended, last carried by a team, and inside a drop-off that takes it |
| `DiamondMine.DiamondMineMode.DropCarriedDiamond` | modes/diamond_mine.py:754-790 | A drop re-places the diamond and may score it at once; after the end it is discarded; refused, it changes nothing; no other diamond is touched |
| `DiamondMine.DropIsSound` | modes/diamond_mine.py:754-790 | A drop, and the score it may bring, are a run of the ledger that keeps the board right |
| `DiamondMine.DiamondMineMode.SweepGround` | modes/diamond_mine.py:206-230 | The pass takes every ground diamond in turn, once, in some order: it expires if its time is over, is scored where it rests if a drop-off takes it then, and otherwise stays as it is, until the match ends |
| `DiamondMine.OnlyTheOverdueExpire` | modes/diamond_mine.py:206-230 | A diamond expires in a pass only if its time is over, and is scored in one only before that |
| `DiamondMine.LeavesByItsEvent` | modes/diamond_mine.py:206-230 | It leaves the ground in a pass exactly by one of these two events of its own |
| `DiamondMine.ScoredAtItsTurn` | modes/diamond_mine.py:225-230 | It is scored at its turn if and only if the match still runs, its time is not over, and a drop-off takes it then |
| `DiamondMine.NothingOverdueStays` | modes/diamond_mine.py:206-230 | Nothing past its time is left of what has had its turn, unless the match has ended |
| `DiamondMine.DiamondMineMode.NearestGroundDiamond` | modes/diamond_mine.py:856-871 | The lowest entity id in reach |
| `DiamondMine.DiamondMineMode.TryPickUp` | modes/diamond_mine.py:232-237 | The nearest diamond is picked up exactly when its delay is over and the tool accepts |
| `DiamondMine.PickIsTheLowest` | modes/diamond_mine.py:232-237 | A player without a diamond takes one if and only if it is the lowest in reach, its delay is over and the tool accepts |
| `DiamondMine.DiamondMineMode.TryCashIn` | modes/diamond_mine.py:238-243 | A carrier cashes in exactly where an open drop-off takes their diamond and the tool accepts |
| `DiamondMine.DiamondMineMode.VisitPlayer` | modes/diamond_mine.py:232-243 | One player's turn: a pick-up, then a cash-in, perhaps both at once; nothing for an inactive player |
| `DiamondMine.DiamondMineMode.OnTick` | modes/diamond_mine.py:199-243 | A tick is the pass over the ground and then every turn, exactly; it is a run of the ledger that keeps the board right, expires nothing before its time, and leaves nothing overdue unless it ends the match |
| `DiamondMine.TickIsSound` | modes/diamond_mine.py:199-243 | Whatever the order of the pass a tick is a run of the ledger, keeps the board right, expires only what is overdue and leaves nothing overdue |
| `BombLedger.EveryMatchKeepsItsBombs` | modes/occupation.py:124-144 | Over any match bombs and coming respawns add up to the maximum, each bomb is on the ground or with exactly one carrier as both dictionaries say, and after the end in at most one place |
| `BombLedger.FuseNeverChanges` | modes/occupation.py:522-629 | A lit bomb keeps its explosion time through every pick-up, drop and resurfacing, and no other bomb gets its number |
| `BombLedger.SpawnKeepsInv` | modes/occupation.py:457-480 | A respawn places one owed bomb |
| `BombLedger.PickUpKeepsInv` | modes/occupation.py:522-562 | A pick-up moves a bomb from ground to hands |
| `BombLedger.DropKeepsInv` | modes/occupation.py:564-629 | A drop moves it back under a new entity |
| `BombLedger.LetGoKeepsInv` | modes/occupation.py:570-584 | After the end a drop only clears the carrier |
| `BombLedger.DetonateKeepsInv` | modes/occupation.py:631-759 | A blast trades one bomb for one coming respawn |
| `BombLedger.ResurfaceKeepsInv` | modes/occupation.py:780-832 | A resurfaced bomb only changes its entity |
| `BombLedger.LaterKeepsTheRest` | modes/occupation.py:165-167 | The list of respawns loses exactly those that are due, and keeps every other as often as it is on it |
| `Occupation.SpawnedLiesReady` | modes/occupation.py:457-480 | A new bomb is nobody's, can be taken at once, and does not go off until somebody has lit it |
| `Occupation.DropLightsTheFuse` | modes/occupation.py:564-629 | A drop lights an unlit bomb for exactly the fuse time and leaves a lit one alone; it can be taken again exactly when the delay is over |
| `Occupation.PickUpKeepsTheFuse` | modes/occupation.py:522-562 | A pick-up gives the bomb to the player for their team, leaves its fuse alone, and marks an intercepted one exactly when a defender takes it lit |
| `Occupation.BlastIsReplaced` | modes/occupation.py:631-759 | A blast takes away its own bomb only and puts one respawn on the list, due exactly one respawn time later |
| `Occupation.Bomb.TakenBy` | modes/occupation.py:546-552 | A pick-up records carrier and team, and an interception only of a lit bomb by the defenders |
| `Occupation.Bomb.PutDown` | modes/occupation.py:600-628 | A drop lights the fuse once and keeps the team recorded at pick-up |
| `Occupation.OccupationMode.SpawnBomb` | modes/occupation.py:457-480 | One owed respawn becomes one bomb on the ground |
| `Occupation.OccupationMode.PickupBomb` | modes/occupation.py:522-562 | An accepted pick-up is the ledger's step, a refused one changes nothing |
| `Occupation.OccupationMode.DropBomb` | modes/occupation.py:564-629 | Running, an accepted drop places the bomb; after the end only the carrier is cleared |
| `Occupation.OccupationMode.DetonateBomb` | modes/occupation.py:631-759 | The bomb is gone from every dictionary, a respawn is pending, and a blast inside pays three |
| `Occupation.OccupationMode.ResurfaceBomb` | modes/occupation.py:812-832 | A new entity, the same bomb |
| `Occupation.OccupationMode.Scorer` | modes/occupation.py:662-675 | The blast pays the last carrier only if the same object holds the slot on the team it carried for |
| `Occupation.OccupationMode.SpawnWave` | modes/occupation.py:161-175 | Every respawn that is due is placed, none dropped |
| `Occupation.OccupationMode.OnModeStart` | modes/occupation.py:124-143 | A match, or a round after another, starts from the empty ledger and places all its bombs: afterwards the maximum is out and no respawn is owed or coming |
| `Occupation.OccupationMode.GuardGroundBombs` | modes/occupation.py:780-832 | Exactly the trapped bombs that are idle and unlit resurface, each once, and nothing else happens to the ledger |
| `Occupation.OccupationMode.NearestGroundBomb` | modes/occupation.py:761-775 | The lowest serial in reach that may be picked up |
| `Occupation.OccupationMode.PickupOne` | modes/occupation.py:179-184 | A player without a bomb takes the lowest one in reach, if the tool accepts; anybody else takes nothing |
| `Occupation.PickIsTheLowest` | modes/occupation.py:179-184 | A bomb is picked up if and only if it is the lowest in reach that may be taken, the player is active and carries none, and the tool accepts |
| `Occupation.OccupationMode.BotDrop` | modes/occupation.py:193-208 | A player drops, under a fresh entity, exactly when they are a bot that attacks inside the target with an unlit bomb or defends well clear of it and the tool accepts; otherwise nothing happens |
| `Occupation.OccupationMode.BotDrops` | modes/occupation.py:192-208 | Taken in turn, exactly the bots that are to drop at their own turn do so, and the ledger afterwards is the one those drops make; everybody else is passed over |
| `Occupation.WhoDrops` | modes/occupation.py:188-208 | A bot attacker drops exactly an unlit bomb inside the target, a bot defender exactly clear of it, and nobody else does |
| `Occupation.OccupationMode.DetonateOne` | modes/occupation.py:752-759 | A bomb goes off at its turn exactly when its time has come; a blast inside pays three points and ends the match at a set limit |
| `Occupation.OccupationMode.DetonateDue` | modes/occupation.py:210-214 | The bombs have their turns one after the other, all of them unless one ends the match |
| `Occupation.OnlyTheOverdueGoOff` | modes/occupation.py:210-214 | A bomb goes off only if its time has come, and is gone exactly if it has gone off |
| `Occupation.EachGoesOffOnce` | modes/occupation.py:210-214 | No bomb goes off twice |
| `Occupation.NothingOverdueStays` | modes/occupation.py:210-214 | Nothing overdue is left of what has had its turn, unless the match has ended |
| `Occupation.BlastsInsidePay` | modes/occupation.py:631-759 | The attackers gain exactly three points for each blast inside the target |
| `Occupation.BlastEndsTheMatch` | modes/occupation.py:752-759 | A blast ends the match if and only if it is inside and reaches a set limit, and the mode is not being replaced |
| `Occupation.OccupationMode.OnTick` | modes/occupation.py:161-214 | A tick is, in order, exactly the due respawns, the moves of the trapped idle bombs, the pick-ups, the drops of the bots and the blasts: a run of the ledger, in which only bombs overdue at its start go off, and nothing overdue is left unless it ends the match |
| `Occupation.CourseIsSound` | modes/occupation.py:161-208 | The stages before the blasts are a run of the ledger, hold no blast, and light no fuse that has burnt down |
| `Occupation.LitBefore` | modes/occupation.py:161-214 | What is overdue after them was overdue before the tick |
| `Occupation.OccupationMode.OnPlayerDeath` | modes/occupation.py:222-257 | Killing an enemy carrier pays one point to the killer's own side, judged by the team the bomb was carried for, and ends the match exactly when that side reaches a set limit and the mode is not being replaced; then the carrier is cleared, else the bomb is dropped if the tool accepts |
| `Occupation.OccupationMode.Intercept` | modes/occupation.py:236-256 | The point goes to the killer's side only, and the match ends exactly when that side reaches a set limit and the mode is not being replaced |
| `VipScore.EveryMatchIsSound` | modes/vip.py:962-1049 | Over any match no score passes a positive limit and every point is one logged VIP loss of one sub-round |
| `VipScore.PaidOnceASubRound` | modes/vip.py:962-1000 | Within a sub-round a second report of the same loss, by any hook, pays nothing |
| `VipScore.ResultIsByScore` | modes/vip.py:1358-1407 | The match ends with the team that has more points as winner, and in a draw exactly at limit to limit |
| `VipScore.NoRoundPastTheLimit` | modes/vip.py:1409-1416 | No sub-round begins once a score has reached the limit |
| `VipScore.LossKeepsInv` | modes/vip.py:962-1049 | One VIP loss keeps the scoring account |
| `VipScore.FinishKeepsInv` | modes/vip.py:1358-1407 | Finishing a sub-round keeps it, with or without ending the match |
| `VipScore.LossPaysTheOtherSide` | modes/vip.py:962-1049 | A loss not yet paid gives the other side one point and its own nothing, and ends the sub-round exactly without sudden death or at limit to limit |
| `VipScore.NothingElsePays` | modes/vip.py:1358-1422 | Nothing but a loss pays, and another sub-round is to come exactly when one ends short of the limit |
| `VipScore.OnlyASelectionStarts` | modes/vip.py:684-827 | A sub-round starts only by a selection that succeeds, from a countdown that readiness has started; a new one resets the players first |
| `VipClock.EndNeverMovesLater` | modes/vip.py:1190-1213 | Within a sub-round the end never moves later, whatever is lost and however the ticks fall |
| `VipClock.GraceThenOneMinute` | modes/vip.py:1231-1263 | However ticks and losses of the other VIP fall during the grace, from the first tick after it at most one minute remains, for good, and the team bleeds unless the sub-round has run out |
| `VipClock.GraceIsKept` | modes/vip.py:1231-1263 | Over any run of ticks and other losses within the grace, the sub-round goes exactly as if the VIP had not been lost, but for the pending grace itself: no time and no health |
| `VipClock.CapIsTheLesser` | modes/vip.py:1190-1213 | The cap leaves exactly the lesser of a minute and what was left |
| `VipClock.GraceEnds` | modes/vip.py:1231-1263 | The cap and the bleeding come at the first tick after the grace, and not before |
| `VipClock.BleedsEverySecond` | modes/vip.py:1231-1263 | A bleeding team is struck at most once a second, and the next step counts from the tick |
| `VipMatch.VIPMode.constructor` | modes/vip.py:171-186 | A new match waits, with no points and no VIPs |
| `VipMatch.VIPMode.FinishRound` | modes/vip.py:1358-1407 | A sub-round ends once, with its clock; the match with it at the limit, else the intermission task is pending |
| `VipMatch.VIPMode.KillVip` | modes/vip.py:962-1049 | An unpaid loss pays the other side, locks respawns in sudden death, starts the grace, and ends the sub-round on a tie at the limit or without sudden death; a second report changes nothing |
| `VipMatch.VIPMode.ReassignVip` | modes/vip.py:892-926 | The crown passes exactly when a candidate exists and the promotion succeeds, to a living teammate if there is one; a failed promotion puts the departed player back and leaves the team without a live VIP |
| `VipMatch.VIPMode.ResolveVipDeparture` | modes/vip.py:928-932 | A departure is a hand-over or a loss, never neither |
| `VipMatch.VIPMode.CheckTeamElimination` | modes/vip.py:1309-1348 | The sub-round ends exactly when a team without respawns has nobody standing |
| `VipMatch.NobodyStandingEndsIt` | modes/vip.py:1309-1348 | In sudden death a sub-round ends exactly when a bereaved team has nobody standing, and pays nothing for it |
| `VipMatch.VIPMode.ArmSelectionIfReady` | modes/vip.py:783-795 | Selection follows readiness, and a countdown in progress is neither restarted nor kept when readiness is lost |
| `VipMatch.SelectionFollowsReadiness` | modes/vip.py:783-795 | Readiness starts the countdown to a selection and its loss stops it |
| `VipMatch.VIPMode.OnPlayerDeath` | modes/vip.py:344-389 | A loss is recorded exactly for the live VIP of a running sub-round, then the sub-round ends exactly when a bereaved team has nobody standing |
| `VipMatch.VIPMode.OnPlayerLeave` | modes/vip.py:452-475 | A departing live VIP's crown goes to a candidate exactly when the policy hands it over, one exists and the promotion succeeds, and is a loss otherwise; then elimination and selection follow, and nothing else; the respawn queue forgets the object |
| `VipMatch.VIPMode.AuditVips` | modes/vip.py:934-960 | Exactly the live VIPs who vanished without a hook and whose crown is not handed over are lost, the second team's only while the sub-round still runs; then elimination, and nothing else |
| `VipMatch.AuditCountsTheLosses` | modes/vip.py:934-960 | When both VIPs are gone both losses count, unless the first one ends the sub-round |
| `VipMatch.VIPMode.BeginRound` | modes/vip.py:684-714 | A new sub-round starts with no crowns, no awards and respawns on |
| `VipMatch.VIPMode.IntermissionElapsed` | modes/vip.py:1409-1416 | The elapsed intermission begins the next sub-round unless the match has ended |
| `VipMatch.VIPMode.DrainRoundReset` | modes/vip.py:716-752 | A bounded slice a tick, in order; the last one reopens the selection |
| `VipMatch.VIPMode.SelectVips` | modes/vip.py:797-827 | Both teams get a live VIP of their own or nobody does; with a configured minimum below one and a team with no candidate the draw raises and nothing has changed |
| `VipMatch.VIPMode.EndByTime` | modes/vip.py:239-247 | The clock ends a running sub-round and pays nothing |
| `VipMatch.VIPMode.AdvanceSuddenDeath` | modes/vip.py:1231-1263 | When the cap and each bleeding step fall, and that nothing falls past the buzzer |
| `VipMatch.VIPMode.CapRoundTime` | modes/vip.py:1190-1213 | The cap only ever shortens |
| `OutbreakRules.BothSidesAreManned` | modes/zombie.py:269-296 | Under any order of deaths, departures, arrivals and outbreaks an active, unended round has a zombie and a survivor |
| `OutbreakRules.RoundsAreCounted` | modes/zombie.py:1048-1099 | Team scores add up to the rounds played, the last round ends the match for the side that has won more, or in a draw, and no round follows it |
| `OutbreakRules.RoundGoesToTheStanding` | modes/zombie.py:1037-1090 | A running round is over exactly when nobody has survived or its time is up; it pays one point, to the survivors if there are any and else to the zombies |
| `OutbreakRules.NothingIsPaidBetweenRounds` | modes/zombie.py:1048-1090 | Outside a running round nothing is paid |
| `OutbreakRules.CalledOffWhenTooFew` | modes/zombie.py:860-886 | A departure calls a round off exactly when too few are left, and then nobody is a zombie |
| `OutbreakRules.AuditCallsOffToo` | modes/zombie.py:201-212 | So does the audit of the tick |
| `OutbreakRules.CountdownNeedsEnough` | modes/zombie.py:630-648 | A countdown starts exactly when enough are in the game, by an arrival or a switch to the survivors too |
| `OutbreakRules.DepartureBetweenRounds` | modes/zombie.py:269-296 | A departure stops it exactly when too few are left, and between rounds changes nothing else |
| `OutbreakRules.NextRoundInOrder` | modes/zombie.py:1137-1183 | After the intermission everybody is reset first and then the countdown starts, if enough are there |
| `OutbreakRules.TheEndIsFinal` | modes/zombie.py:1048-1054 | After the end no event scores again or changes the winner |
| `OutbreakRules.EveryRunIsSound` | modes/zombie.py:173-212 | Both facts hold after every event of every run |
| `OutbreakRules.LeaveKeepsInv` | modes/zombie.py:269-296 | A departure aborts, passes the infection on, or ends the round, and both sides stay manned otherwise |
| `OutbreakRules.HeirLeavesASurvivor` | modes/zombie.py:285-295 | With two players left and no zombie, infecting one leaves a survivor |
| `OutbreakRules.DeathKeepsInv` | modes/zombie.py:317-337 | A killed survivor turns; the last one ends the round |
| `OutbreakRules.ArrivalKeepsInv` | modes/zombie.py:235-267 | An arrival takes nobody's place |
| `OutbreakRules.OutbreakKeepsInv` | modes/zombie.py:664-700 | An outbreak turns some of the living survivors and spares at least one |
| `OutbreakRules.OutbreakTurnsTheChosen` | modes/zombie.py:664-708 | An outbreak turns exactly the chosen |
| `OutbreakRules.OnlyTheDeadTurns` | modes/zombie.py:317-337 | A killed survivor of a running round is a zombie from then on, and nobody else is touched |
| `OutbreakRules.OnlyTheHeirTurns` | modes/zombie.py:269-296 | The departure of the last zombie turns the heir, and no departure turns anybody else |
| `OutbreakRules.NothingElseTurns` | modes/zombie.py:173-337 | Nothing else turns a survivor |
| `OutbreakRules.ZombiesAreCuredOnlySo` | modes/zombie.py:763-792 | A zombie is cured only between rounds, or with everybody else when a round is called off |
| `OutbreakRules.ArrivalsAreSurvivors` | modes/zombie.py:235-267 | An arrival joins the zombies exactly in a running round and from their side |
| `OutbreakRules.NobodyElseMoves` | modes/zombie.py:201-337 | No event but an arrival or a departure changes who is in the game |
| `OutbreakRules.DepartureTakesOne` | modes/zombie.py:269-296 | A departure takes exactly the departing player out |
| `ZombieRounds.ZombieMode.constructor` | modes/zombie.py:137-153 | A match starts with everybody in the game a survivor |
| `ZombieRounds.ZombieMode.FinishRound` | modes/zombie.py:1048-1090 | A round pays one point and ends the match when it was the last |
| `ZombieRounds.ZombieMode.CheckPopulation` | modes/zombie.py:853-858 | Without a survivor the zombies win |
| `ZombieRounds.ZombieMode.AbortIfUnderpopulated` | modes/zombie.py:860-886 | Below the minimum the round is called off and everybody left is a survivor |
| `ZombieRounds.ZombieMode.ArmCountdownIfReady` | modes/zombie.py:630-636 | The countdown starts from waiting with enough players |
| `ZombieRounds.ZombieMode.OnPlayerJoin` | modes/zombie.py:235-251 | A joiner of an active round who is on the zombie side stays a zombie, and any other joiner becomes a survivor |
| `ZombieRounds.ZombieMode.OnPlayerTeamChange` | modes/zombie.py:253-267 | A spectator's accepted switch puts them on that side |
| `ZombieRounds.ZombieMode.OnPlayerLeave` | modes/zombie.py:269-296 | The hook, which leaves the departing player out of every count, and the removal after it |
| `ZombieRounds.ZombieMode.OnPlayerDeath` | modes/zombie.py:317-337 | A survivor's death in an active round infects; every other death changes nothing |
| `ZombieRounds.ZombieMode.StartOutbreak` | modes/zombie.py:664-700 | The outbreak turns the chosen survivors, or waits with fewer than two living |
| `ZombieRounds.ZombieMode.EndByTime` | modes/zombie.py:1037-1043 | The clock gives the round to the survivors if one is left |
| `ZombieRounds.ZombieMode.AuditPopulation` | modes/zombie.py:201-212 | The tick's population checks |
| `ZombieRounds.ZombieMode.BeginNextRound` | modes/zombie.py:1137-1151 | Everybody in the game is queued, or the countdown is armed at once |
| `ZombieRounds.ZombieMode.ResetOne` | modes/zombie.py:1166-1180 | A queued player is reset only if the same object still holds the slot |
| `ZombieRounds.ZombieMode.DrainRoundReset` | modes/zombie.py:1153-1183 | A bounded slice a tick, in order; the last one opens the next countdown |
| `CaptureRate.RateIsMonotoneAndBounded` | modes/territory_control.py:31-47 | For every increasing table more capturers are never slower and the rate stays within the table |
| `CaptureRate.RateMeetsTable` | modes/territory_control.py:31-47 | The table's own points are met exactly |
| `TerritoryBase.EveryRunIsConsistent` | modes/territory_control.py:407-458 | At any time of any run progress is in [0,1] and lies on its owner's side, a neutral territory strictly inside, and the last playable owner is the one in the history |
| `TerritoryBase.WireIsBelowFull` | modes/territory_control.py:155-171 | The wire amount is in [0,100), zero exactly at the owner's anchor, and on an owned base credited to the other team |
| `TerritoryBase.WireIsTheShare` | modes/territory_control.py:155-171 | The wire amount is the share of the way from the owner's anchor to the next change, and names the team whose way it is |
| `TerritoryBase.ControlIsTakenFromTheEnemy` | modes/territory_control.py:444-494 | A capture pays control exactly when the last team that ever owned the territory is the enemy, and pays the new owner only |
| `TerritoryBase.ContestedStandsStill` | modes/territory_control.py:407-494 | With both teams inside, or neither, a base keeps its owner and its progress, and nobody attacks it |
| `TerritoryBase.LoneTeamDrives` | modes/territory_control.py:407-494 | A lone team moves the progress towards its own end by the step of its numbers, but for the ends and the snaps |
| `TerritoryBase.StepScales` | modes/territory_control.py:407-494 | The step is proportional to the time it stands for and to the multiplier |
| `TerritoryBase.ResidueIsDropped` | modes/territory_control.py:440-452 | Progress within the residue of an end or of the middle is put there, progress past an end at the end, and any other stays |
| `TerritoryBase.OwnershipFollowsProgress` | modes/territory_control.py:407-494 | A base is taken at its end, lost at the middle, and otherwise stays with its owner |
| `TerritoryBase.AdvanceMirrors` | modes/territory_control.py:407-458 | The capture rule treats the two teams alike |
| `TerritoryBase.GreenAloneCaptures` | modes/territory_control.py:426-458 | Green alone owns the territory once ticks times the minimum step cover the way left from its present progress and one snap |
| `TerritoryBase.BlueAloneCaptures` | modes/territory_control.py:426-458 | The same for Blue, whose way left is the progress itself |
| `TerritoryControl.Territory.SettleOwner` | modes/territory_control.py:444-470 | The new owner follows the progress reached, and the payment follows the owners |
| `TerritoryControl.Territory.CaptureTick` | modes/territory_control.py:407-494 | One territory's capture tick is the reference advance |
| `TerritoryControl.InitialiseTerritories` | modes/territory_control.py:387-405 | The line is split evenly, the middle one neutral when odd |
| `TerritoryControl.StartIsEven` | modes/territory_control.py:387-405 | Both teams start with half the line, below the limit |
| `TerritoryControl.LimitMeansAll` | modes/territory_control.py:660-671 | A team reaches the limit exactly by owning everything; owned and neutral add up |
| `TerritoryControl.EveryMatchIsSound` | modes/territory_control.py:245-254 | The match invariant holds after every capture tick and every clock end of every match, also while the mode is being replaced |
| `TerritoryControl.ScoreBoardIsTrue` | modes/territory_control.py:245-254 | In a match that is not being replaced scores equal owned counts and share out the line; it has ended by score exactly when one team, the winner, owns all of it; and it has ended at all exactly then or when the clock has, with the team ahead as winner or a draw |
| `TerritoryControl.EndedByScoreOrClock` | modes/territory_control.py:245-254 | A match has ended exactly when it has by score or its time has been up |
| `TerritoryControl.TimeUpSharesTheLine` | modes/base_mode.py:962-988 | A new match whose time is up ends as a draw with the line shared |
| `TerritoryControl.EveryTerritoryIsConsistent` | modes/territory_control.py:407-494 | Every territory of every match keeps the territory invariant |
| `TerritoryControl.EachOnItsOwn` | modes/territory_control.py:407-494 | Each territory takes its own step of a tick and pays for its own capture, whatever the others do |
| `TerritoryControl.TerritoryControlMode.RefreshTeamScores` | modes/territory_control.py:660-671 | Scores become the owned counts |
| `TerritoryControl.TerritoryControlMode.AdvanceTerritories` | modes/territory_control.py:407-494 | All territories advance, and a change is reported exactly when an owner changed |
| `TerritoryControl.TerritoryControlMode.CaptureTick` | modes/territory_control.py:407-494 | The whole capture tick, scores and end included |
| `TerritoryControl.TerritoryControlMode.EndByTime` | modes/base_mode.py:962-988 | The clock ends an open match by score and changes nothing else |
| `TerritoryControl.TerritoryControlMode.OnTick` | modes/territory_control.py:245-254 | A tick is the clock's end, if it comes, and then at most one capture tick, exactly when one is due and the match still runs |
| `TerritoryControl.TerritoryControlMode.CaptureClock` | modes/territory_control.py:245-254 | Elapsed time per capture tick is in [1,3] rates and the next tick is one rate ahead |
| `ObjectiveIndex.BlueIndexIsRecomputation` | modes/demolition.py:601-626 | After any terrain edits the first team's damage index is exactly its frozen cells that are now air |
| `ObjectiveIndex.GreenIndexIsRecomputation` | modes/demolition.py:601-626 | The same for the second team when the two snapshots share no cell |
| `ObjectiveIndex.GreenIndexNeedsDisjointBases` | modes/demolition.py:601-626 | The second team's index is right after every edit history if and only if the snapshots are disjoint |
| `ObjectiveIndex.SharedCellIsMissed` | modes/demolition.py:601-626 | Digging out one shared cell is enough for the second index to be wrong |
| `ObjectiveIndex.DestroyedMeansNothingStands` | modes/demolition.py:196-210 | The base counts as destroyed exactly when it had cells and none is solid |
| `ObjectiveIndex.BasesFallWhenLevelled` | modes/demolition.py:196-210 | Index and test together decide destruction exactly, for disjoint bases and any history |
| `BlockCredit.CreditedExactlyWhen` | modes/demolition.py:441-483 | A cell is credited exactly when it is an objective cell not in the book of self-dug cells, or was already refilled in the same batch |
| `BlockCredit.CreditIsTheNumberOfPositions` | modes/demolition.py:441-483 | The credit of a batch is the number of its credited positions |
| `BlockCredit.CountInIsTheNumberOfPositions` | modes/demolition.py:392-422 | Destroyed blocks are counted by position |
| `BlockCredit.SelfDugIsPaidExactlyWhen` | modes/demolition.py:392-483 | After any event sequence, building an objective cell whose latest removal was the team's own is credited exactly when the team's build of it has been announced since that removal, or it came earlier in the same batch; such a cell is solid, but a solid one need not be such |
| `BlockCredit.RepairIsNotSelfDug` | modes/demolition.py:392-483 | After any event sequence a credited repair that fills a hole, named once in its batch, fills one whose latest removal was not the repairer's own team's |
| `BlockCredit.OverlappingLineIsPaid` | server/combat_runtime.py:1550-1616 | The failing input: a line committed over a cell that is already solid, or was named before, repays the team's own hole, because the commit writes and announces every cell without testing it again |
| `BlockCredit.OwnHolesUnpaidExactlyWhen` | modes/demolition.py:441-483 | A position of a batch repays the team's own hole after no history that leaves this terrain if and only if it names an unbuilt cell for the first time, or no objective cell |
| `BlockCredit.DuplicateRefillIsPaid` | modes/demolition.py:441-483 | A batch naming a self-dug cell twice is paid for the second position, though no caller sends such a batch |
| `BlockCredit.UnheardRefillIsUnpaid` | server/main.py:409-416 | A refill whose event a full queue dropped leaves the cell solid and in the book, so building it again is not paid |
| `BlockCredit.PointsIgnoreBatching` | modes/demolition.py:485-505 | Total points are the whole intervals of the total count times the award, however the blocks are batched |
| `Demolition.AuthoredCells` | modes/demolition.py:545-556 | An authored base is every solid voxel of its zone |
| `Demolition.CoreCells` | modes/demolition.py:556-570 | An unauthored base is exactly the surface core of its columns |
| `Demolition.FirstSolidInZone` | modes/demolition.py:566-569 | The topmost solid voxel of a column within the zone |
| `Demolition.DemolitionMode.FreezeObjectiveCells` | modes/demolition.py:542-583 | The snapshot holds solid cells only and nothing is destroyed |
| `Demolition.DemolitionMode.OnWorldMutation` | modes/demolition.py:601-626 | Each edit updates the index as the listener does, in the two phases that listen |
| `Demolition.DemolitionMode.TickActive` | modes/demolition.py:196-210 | The strike begins exactly when a base has fallen, naming exactly the fallen ones |
| `Demolition.DemolitionMode.CreditBlocks` | modes/demolition.py:485-505 | Progress and score of the slot's owner follow the reference tally, nobody else's change |
| `Demolition.DemolitionMode.OnBlocksDestroyed` | modes/demolition.py:392-422 | Self-dug objective cells are booked and enemy ones credited |
| `Demolition.DemolitionMode.OnBlocksBuilt` | modes/demolition.py:441-483 | Refilled self-dug cells leave the book unpaid, the rest are credited |
| `Demolition.DemolitionMode.OnPlayerLeave` | modes/demolition.py:383-387 | Partial progress is forgotten with the slot |
| `ScoreGrid.BatchIsUnitByUnit` | modes/multi_hill.py:669-683 | A batched payout equals paying one interval after another; the same lines settle four other modes |
| `ScoreGrid.NextIsAhead` | modes/diamond_mine.py:245-251 | The next payout is due in (now, now + interval] |
| `ScoreGrid.TwoBatchesAreOne` | modes/occupation.py:216-220 | Splitting one look at the clock in two changes nothing |
| `ScoreGrid.TotalIgnoresTicks` | modes/territory_control.py:255-263 | The total paid depends on the last look only, not on how the ticks fall |
| `HillRules.OnlyTheLoneTeamHolds` | modes/multi_hill.py:560-667 | A hill pays the one team standing on it, and only while the other is not |
| `HillRules.DesertedOrContested` | modes/multi_hill.py:560-667 | A deserted hill is nobody's, and a contested one stays whose it is |
| `HillRules.ControlPassIsPerHill` | modes/multi_hill.py:560-667 | A pass decides each active hill by who stands on it and touches no other |
| `HillRules.SettledByTheClock` | modes/multi_hill.py:210-257 | However the ticks fall, what a hill has settled is the floor of its active time, cut at rotation and deadline |
| `HillRules.ExpiredHillPaidInFull` | modes/multi_hill.py:210-257 | A hill that rotates out in time has paid its whole active time |
| `HillRules.SettlementIsBounded` | modes/multi_hill.py:669-695 | A settlement pays at most one point per active hill and tick |
| `HillRules.SettlementPaysTheHolders` | modes/multi_hill.py:669-695 | A settlement pays each team one point a whole tick for every active hill it holds alone |
| `HillRules.HillsComeAndGo` | modes/multi_hill.py:210-257 | Hills go at their time, none is up during the intermission, and the next ones come up neutral |
| `HillRules.NothingMovesAfterTheDeadline` | modes/multi_hill.py:210-257 | After the deadline nothing moves but the last settlement |
| `HillRules.PersonalScoresKeepPace` | modes/multi_hill.py:210-257 | Personal scores are settled up to the same moment as the team ticks |
| `HillRotation.RotationIsFair` | modes/multi_hill.py:513-532 | Over any number of places dealt around the circle two hills come up equally often, give or take one |
| `HillRotation.RunDealsInTurn` | modes/multi_hill.py:210-257 | Over any run of ticks, rotations and intermissions the hills put up continue the circle where the cursor stood |
| `HillRotation.DealsInTurn` | modes/multi_hill.py:193-257 | However the ticks fall and whoever stands where, the hills a match puts up, from its start on, follow the circle without a gap, and the cursor is at the next place |
| `HillRotation.HillsShareTheMatch` | modes/multi_hill.py:193-257 | At any time of any match two hills have been up equally often, give or take one |
| `MultiHill.MultiHillMode.ActivateNext` | modes/multi_hill.py:513-532 | The next hills from the cursor are active and neutral |
| `MultiHill.MultiHillMode.SelectZones` | modes/multi_hill.py:513-522 | The selected hills are all different |
| `MultiHill.MultiHillMode.UpdateControl` | modes/multi_hill.py:560-667 | Control of every active hill follows its occupants |
| `MultiHill.MultiHillMode.AwardTeamTicks` | modes/multi_hill.py:669-695 | Whole intervals since the last settlement pay the uncontested holders |
| `MultiHill.MultiHillMode.OnTick` | modes/multi_hill.py:210-257 | Hill points are settled before the clock may rotate or end |
| `LoadoutPacket.DecodeSetClassLoadout` | protocol/runtime_packets.py:278-325 | The decoder accepts exactly the payloads that mean something and returns what they mean; anything below four bytes is too short |
| `LoadoutPacket.ReadPrefabs` | protocol/runtime_packets.py:302-312 | The name loop reads NUL-terminated names, or proves the payload meaningless |
| `LoadoutPacket.FirstNul` | protocol/runtime_packets.py:304-309 | The first NUL at or after a position |
| `LoadoutPacket.PrintThenDecode` | protocol/runtime_packets.py:278-325 | Printing then decoding gives the selection back, with or without the optional empty UGC byte |
| `LoadoutPacket.DecodeThenPrint` | protocol/runtime_packets.py:278-325 | Every accepted payload is the print of its result, or that minus one trailing zero |
| `LoadoutPacket.LayoutIsInjective` | protocol/runtime_packets.py:278-325 | No payload means two selections |
| `LoadoutPacket.NoTrailingBytes` | protocol/runtime_packets.py:313-325 | One extra byte makes any complete payload meaningless |
| `LoadoutPacket.TailDecides` | protocol/runtime_packets.py:313-325 | The unread tail settles whether the payload means anything |
| `OrientationField.DecodeIsWithinHalfAStep` | protocol/runtime_packets.py:27-40 | Decoding what the documented formula gives for a component is off by at most half a step |
| `OrientationField.GapIsEmittedOnlyNextToOne` | protocol/runtime_packets.py:27-40 | The documented formula gives a value in the gap between its scales exactly for magnitudes within half a step below one, and it is then 8192 |
| `OrientationField.GapIsEmitted` | protocol/runtime_packets.py:27-40 | It does give that value, so even by the formula the gap is not empty |
| `OrientationField.Round` | shared/packet.pyx:155-168 | Rounding is to a nearest integer, halves away from zero |
| `OrientationField.WordDecodes` | shared/packet.pyx:135-147 | What the decoder reads from each number the repository's writer can form: itself when it is non-negative and below saturation, 24576 plus it, negated, when it is negative |
| `OrientationField.WrittenRoundTripsExactlyWhen` | shared/packet.pyx:135-168 | A component the repository's writer encodes comes back from the runtime decoder within half a step if and only if it is non-negative and below saturation, or within half a step of zero or of minus three halves |
| `OrientationField.WriterEmitsTheGap` | shared/packet.pyx:135-168 | The writer emits every value of the gap but the last, each for exactly the components that round to it |
| `OrientationField.WriterIsNotTheFormula` | protocol/runtime_packets.py:27-40 | Two inputs on which formula and writer part: three halves is written inside the gap, and minus one half is read back as minus five halves |
| `TimeoutSnapshot.SnapshotDecidesTheEnd` | server/simulation_runtime.py:286-322 | After the snapshot exactly its events are handled, in order, in ceil(n / budget) ticks whatever arrives meanwhile, and then the match ends |
| `TimeoutSnapshot.NotBeforeTheSnapshotIsDrained` | modes/base_mode.py:217-231 | The match does not end before that |
| `TimeoutSnapshot.TicksForIsCeiling` | server/simulation_runtime.py:295-310 | The number of ticks is n / budget rounded up |
| `TimeoutSnapshot.FirstExpiredTick` | modes/base_mode.py:222-229 | The snapshot is taken on the first expired tick and ends the match at once when empty |
| `TimeoutSnapshot.SnapshotIsTakenAnew` | modes/base_mode.py:217-231 | A clock that has been put back drops the snapshot, and takes a new one when it runs out again |
| `TimeoutSnapshot.QuietEndNeedsCover` | server/simulation_runtime.py:295-315 | With no new events the match ends if and only if the queue still covers the snapshot |
| `TimeoutSnapshot.EndsExactlyWhenServed` | server/simulation_runtime.py:286-322 | Whatever comes in and whatever was settled out of the queue, the match has ended exactly when a server without a clock would have delivered as many events as the snapshot counted |
| `TimeoutSnapshot.EndsOnceMadeUp` | server/simulation_runtime.py:286-322 | While queue and arrivals together fall short of the snapshot the match goes on; once they do not, it ends within the snapshot's own number of ticks |
| `TimeoutSnapshot.AStalledClock` | server/main.py:453-465 | Settling a leaver's event out of the queue leaves the count behind, and the clock waits for a new event |
| `TimeoutSnapshot.NothingIsLost` | server/simulation_runtime.py:286-322 | A tick loses no event and changes no order |
| `TimeoutSnapshot.AFullSlice` | server/simulation_runtime.py:286-322 | With no snapshot pending a tick delivers as much as the budget allows |
| `ModeClock.LeaderOf` | modes/base_mode.py:974-986 | The winner is the side strictly ahead of every other; otherwise a draw; for any number of sides |
| `ModeClock.BaseMode.OnModeEnd` | modes/base_mode.py:118-140 | Ending sets the result and starts the end sequence, unless the mode is being replaced |
| `ModeClock.BaseMode.EndByScore` | modes/base_mode.py:952-960 | The first end stands; later ones change nothing |
| `ModeClock.BaseMode.EndByTime` | modes/base_mode.py:962-988 | The clock's verdict is by score, once |
| `ModeClock.BaseMode.OnTick` | modes/base_mode.py:217-231 | The snapshot is taken once per expiry, dropped when the clock is extended, and its end is the match's, with the side strictly ahead as winner or a draw |
| `ModeClock.SimulationRuntime.TickMode` | server/simulation_runtime.py:286-322 | One tick delivers the bounded slice and looks at the clock, as the reference tick does |
| `ModeClock.SimulationRuntime.QueueModeEvent` | server/main.py:409-416 | A full queue drops the event |

## Left out

- Packets, broadcasts, audio, announcements, achievements, logging, profile totals and scoreboards: output only.
- Floating-point rounding: times, positions and progress are exact reals, and floor stands for truncation of non-negative values.
- Real clocks and task scheduling: `now` is a parameter; wall clock and monotonic clock are one.
- File contents of the Map Creator: a write is atomic, succeeds or fails; previews, streaming, capacity, and the full save on deactivation outside the lock are not part of the model.
- The world manager, pick-ups, combat, zones and line of sight beyond what each file states; single-cell edits do not collapse neighbours.
- The shared dry-land search is modelled with the native column query; other column heuristics of the world manager are not.
- Training map contents: the lane discs and red cells are whatever the training map has there; the startup check that all targets exist is not modelled.
- Tutorial completion countdown, music, help panels and loadouts.
- TutorialLanes.TutorialMode.SetBlock: block health and the colour materialised on newly exposed faces are not part of the terrain here.
- Diamond discovery chances: the draw is a parameter; the guarantee that overrides it is modelled.
- DiamondMine.DiamondMineMode.OnTick: carry and escort payouts are covered by the time-grid lemmas, not repeated here.
- Ground diamonds are values in their dictionary, not shared objects, so aliasing between two references to one diamond is not captured; bombs, drop-offs, sessions, territories and players are objects.
- Locked scores, forced ends, forced team changes and other administrator commands.
- Occupation.OccupationMode.OnTick: the shared clock that runs before it is in `ModeClock.dfy`; base-occupied cues and periodic payouts are not repeated here.
- MapCreator.UGCMode.CommitProjectEdit: one abstract edit stands for the host's mutators, whose own guards and effects on the project are not modelled.
- Occupation.OccupationMode.DetonateBomb: personal awards of the blast other than who it pays, and its damage, are not modelled.
- VipMatch.VIPMode.KillVip: the personal bonuses of the kill are not modelled.
- Occupation personal awards other than who the blast pays, and the blast's damage, which reaches the mode through the event queue.
- VIP class changes, health, markers, periodic and bonus personal scores, and the recovery path after an exception in the intermission task.
- VipMatch.VIPMode.AdvanceSuddenDeath: the health each bleeding step takes is not modelled, only when the steps fall.
- Zombie classes, corpses, markers, survival payouts (covered by the time-grid lemmas), and players lost without a leave hook.
- Multi-Hill airstrikes, zone geometry and personal presence scores beyond the time grid.
- Demolition's airstrike, repair warning and phase timers.
- ModeClock.BaseMode.OnTick: the map vote, countdown cues, music and escape watch of the shared tick are left out, as are handlers that end the match by score while the slice is delivered.
- Text decoding of prefab names: names are NUL-free byte strings.
- Arena, team deathmatch, the classic and hardcore variants and the tutorial's commands: easier members of the same families.
