# Verification of the Eperica game engine

This Dafny project models the parts of the game server where state is read, computed on and written
back under a guard, the alliance protocol, and a few self-contained algorithms, and proves what they
keep over every run. `dafny verify dfyconfig.toml` checks all of it.

## The model

**Resources, goods and clocks** (`Economy`, `Ledger`, `LedgerLaws`, `GoodsLaws`, `MerchantLaws`,
`ClockLaws`, `TradeEngine`). Village rows, trade legs and homeward loot form one world. A read of a row, a read of
the committed merchants and the guarded write (an order, a shipment, a delivery, loot, a training
settle) are separate steps, so players and workers interleave in every way. The guard is a parameter:
`ByVersion` is the contract the ports state, "still at that snapshot"; `ByStamp` is what the storage
compares, the settle instant. `ClockLaws` proves when the two agree and what goes wrong when they do
not; `GoodsLaws` says what each step does to the store it writes, and follows goods from door to door. `TradeEngine` is the delivery worker with its retry loop.

**Troops** (`Armies`, `Battles`, `Loot`, `Troops`, `TroopLaws`, `TroopJourneys`,
`AllegianceLaws`, `PlaceLaws`, `RegrowLaws`, `TroopEngine`). Compositions are lists that may repeat a unit and are counted per unit. Garrisons,
groups stationed abroad, oasis garrisons and movements form a world; battles, culls and regrows apply
what earlier queries (`LookGarrison`, `LookGuests`, `LookRow`, `LookOasis`) read, each a step of its
own. Battle outcomes are arbitrary losses within the forces read. The server code's claim that every
garrison change settles the resource row is the flag `settling`; the code itself is the model without
it.

**Training, culture, starvation** (`Training`, `Culture`, `Starvation`, `StarvationChecks`). The lazy
accumulators, with 64-bit saturation and truncating division written out where a result depends on
it. In `Training` the settle is an arbitrary function.

**Alliances** (`Alliances`, `AllianceLaws`, `AllianceRegistry`). A command queries its actor's
membership, then whatever else its checks need, and then writes; each is a step, so any commands run in
between, and the write re-checks only what its statement and the tables' keys do. `Whole` is a command
with nobody in between, and `Registry` runs those on stored maps. History properties speak of the
tables after each prefix of a run.

**Buildings, oases, periods, map, keys, budget** (`Builds`, `BuildLaws`, `BuildYard`, `Oases`,
`Watermark`, `Viewport`, `DmKeys`, `Limiter`).

## Where the code is other than its documentation says

- The ports promise a guard on the snapshot; the storage compares the settle instant. A write that does
  not move the instant (an order stamped with it, a credit, loot or training settle clamped to it, or a
  reward) is taken back by the next stale one (`ClockLaws.SecondWriteUndoesTheFirstIffNoTimePassed`,
  `ClockLaws.ARewardIsLostToTheNextWrite`).
- The starvation handler's comment says every garrison mutation settles the resources row, so that no
  delivered unit can be annihilated. Dispatches, plain returns and battles without loot do not settle it
  (`TroopLaws.ACullRevivesTheSent`); and since the garrison is read before the row, a delivery between
  the two reads is annihilated even though it settles (`TroopLaws.ACullAnnihilatesADeliveryBetweenItsReads`).
- The cull is said to leave a sustainable garrison; with an upkeep factor above one it may not
  (`StarvationChecks.CullsSustainIffTheFactorIsAtMostOne`).
- "At most one order per lane" holds of pending orders only (`BuildLaws.ResidenceAndPalace`).
- A conquest says the defenders fell; a won raid may have spared some, who are deleted unrecorded
  (`TroopLaws.UndisturbedStepsAreFresh`).
- A regrow keeps only the seeded animals: troops left in an oasis nobody owns are deleted unrecorded
  (`RegrowLaws.RegrowIsExactIffTheOasisIsWild`).
- The hourly call budget holds for a clock that never steps back; one that does can make it grant too
  much or too little (`Limiter.SteppedBackClockGrantsTooMuch`, `Limiter.SteppedBackClockRefusesTooMuch`).
- The medal watermark does not advance over periods settled in a world with nobody to snapshot
  (`Watermark.AnUnrecordedSettlementRepeats`).
- The role rules promise exactly one founder, and confederations take both sides' consent; the commands
  check and write in separate statements, and a late write breaks either
  (`AllianceLaws.OneFounderIffWritesFit`, `AllianceLaws.ConsentIffOffersStillStand`).

## Model

| member | source | states |
|---|---|---|
| LedgerLaws.EveryRunKeepsTheBooks | crates/application/src/trade.rs:182-306 | under the guard the ports promise, over every interleaving of orders, trades, loot, training settles, rewards, retries, releases, conquests, crashes and startup requeues, per resource: stores + goods and loot on the road = opening + produced + granted - spent - lost to full storage - forfeited; each bundle or loot is credited once if its cargo is done, and never otherwise; what is produced is bounded by GoodsLaws.ProductionIsWithinItsRate |
| LedgerLaws.BooksBalanceIffWritesAreFresh | crates/infrastructure/src/repo.rs:2892-2924 | whichever guard lets writes through, the port's or the storage's comparison of settle instants: the books balance all along a run exactly if every write that went through found the amounts its session had read |
| LedgerLaws.StepMovesTheSurplus | crates/infrastructure/src/repo.rs:2892-2924 | under either guard a step moves the books by exactly the amounts a write had read minus those it overwrote, and by nothing otherwise |
| LedgerLaws.ForfeitedLootIsNeverCredited | crates/infrastructure/src/repo.rs:3598-3607 | a conquest closes the lost village's loot on its way home uncredited, and nothing in any later run credits it |
| LedgerLaws.DeliveryReachesItsTarget | crates/application/src/trade.rs:268-295 | a delivery that applies changes the target's row only: each resource accrued at its own rate up to its own storage, to the later of arrival and last settle, then filled up from the bundle; the merchants return to the sender's village |
| LedgerLaws.LootGoesHome | crates/application/src/movement.rs:261-308 | a returning army's loot is credited to its own home only, each resource accrued at its own rate and filled up to its own storage; its movement is done and credited once |
| LedgerLaws.CreditIsFair | crates/application/src/trade.rs:289-295 | a capped credit moves one cargo off the road: what the store does not gain is recorded as overflow |
| LedgerLaws.PlansAreFair | crates/application/src/trade.rs:105-166 | every writing step (order, shipment, delivery, loot taken or brought home, training settle) moves goods between store, road, payments and overflow and loses none, whatever it read |
| LedgerLaws.WriteBumpsVersion | crates/application/src/ports.rs:684-742 | a write that applies raises the version of exactly the village it writes, and leaves sessions and merchant totals alone; one that does not changes nothing |
| Economy.DepositNeverTakesNorInvents | crates/domain/src/trade.rs:103-121 | a capped deposit never takes from a store, over-full ones included, and adds at most the bundle |
| Economy.SettleAccruesEachAtItsRate | crates/domain/src/economy.rs:223-253 | per resource, whatever the rates and the time: away from zero and its own storage it grows by its own hourly rate times the seconds, to within one unit; and it is clamped to that range only when it would leave it |
| Economy.DepositFillsEachToItsCap | crates/domain/src/trade.rs:103-121 | each resource of a bundle goes to its own stack; it falls short only at that stack's own storage, and fills it no further |
| GoodsLaws.AnOrderPaysItsPrice | crates/infrastructure/src/repo.rs:1333-1390 | an order takes its price, resource by resource, from the village's own store settled to now, and changes nothing else |
| GoodsLaws.AnOrderIsCarriedOutIffAfforded | crates/application/src/build.rs:200-262 | an order read and written with nobody in between is carried out exactly if the store settled to now covers it, under either guard |
| GoodsLaws.AShipmentSetsOut | crates/application/src/trade.rs:105-169 | a shipment takes exactly its goods from the sender's store settled to now and sets out to the village named, with the merchants it needs |
| GoodsLaws.AShipmentSetsOutIff | crates/application/src/trade.rs:100-147 | read and written with nobody in between, a shipment sets out exactly if it carries something, the store holds it, enough merchants are at home, and the target is another village that exists |
| GoodsLaws.AShipmentArrives | crates/application/src/trade.rs:182-306 | from door to door: ordered, picked up and delivered, the goods are in the store of the village they were ordered for, as far as its storage, the sender keeps what the order left, and the merchants are on their way back to it |
| GoodsLaws.LootLeavesTheStore | crates/application/src/combat.rs:111-168 | loot leaves the village attacked, settled to the battle or the later last settle, and travels to the attacker's home |
| GoodsLaws.LootArrives | crates/application/src/movement.rs:261-308 | from door to door: loot taken, carried home and credited is in the store of the attacker's home, as far as its storage |
| GoodsLaws.OnlyWhatHasArrivedIsPickedUp | crates/infrastructure/src/repo.rs:2841-2861 | a leg is claimed exactly if it is in transit and its arrival has passed |
| GoodsLaws.LegsTurnOnlyByTheirSteps | crates/infrastructure/src/repo.rs:2841-2967 | nothing happens to a leg but: picked up when it has arrived, put back by the worker that has it or at startup, a return completed and goods credited once more by the worker that has it, loot in transit forfeited with its village |
| GoodsLaws.ARewardFillsTheStore | crates/infrastructure/src/repo.rs:6364-6376 | a reward fills the store as it stands, each resource up to its own storage, and leaves the settle instant |
| GoodsLaws.ProductionIsWithinItsRate | crates/domain/src/economy.rs:223-253 | over every run, under either guard: what the books say was produced of a resource is at most that resource's own hourly rate times the seconds credited |
| TradeEngine.Engine.CommittedMerchants | crates/application/src/ports.rs:676-683 | the sum of merchants over the village's legs in transit or processing |
| TradeEngine.Engine.TryDeliver | crates/application/src/trade.rs:268-299 | one optimistic attempt amid any steps of others: credited, with a return leg, exactly if no storage call failed and nobody wrote the target's row since it was read; otherwise nothing of the leg changed |
| TradeEngine.Engine.DeliverShipment | crates/application/src/trade.rs:237-306 | up to five attempts, then release: the leg ends done (credited once, merchants on a return leg), or back in transit uncredited, and then the target was written at least five times, or, only if a storage call failed, in processing and in nobody's hands |
| TradeEngine.Engine.CompleteReturn | crates/application/src/trade.rs:225-230 | a return that is back is done and frees its merchants, unless the storage call fails and it stays in processing |
| TradeEngine.Engine.ProcessDueTrades | crates/application/src/trade.rs:182-236 | over a batch of shipments and returns: which legs end done, which back in transit, and which stay in processing (only those with a failed storage call); the books stay exact, and a village is reported exactly if a shipment was credited to it |
| TradeEngine.RunElsewhere | crates/application/src/trade.rs:182-306 | whatever other sessions do leaves the worker's claimed legs, claims and snapshot alone |
| MerchantLaws.MerchantsAreNeverOvercommitted | crates/application/src/trade.rs:105-169 | under the port's guard, in every run with Marketplace totals not falling, merchants on the road never exceed the village's total and each shipment fits its merchants, although the count is read outside the guarded write |
| MerchantLaws.MerchantsSufficeIffOrdersLeaveEnough | crates/application/src/trade.rs:105-169 | under either guard the merchants on the road stay within every total all along a run exactly if each order that went through found no more of them taken since its count than it leaves idle |
| MerchantLaws.StepMovesCommitted | crates/infrastructure/src/repo.rs:2892-2967 | only an order commits merchants and only a completed return frees them |
| MerchantLaws.RequiredMerchantsCarryTheLoad | crates/domain/src/trade.rs:92-102 | the count asked for carries the load, one fewer would not, exactly unless the quotient exceeds 32 bits |
| MerchantLaws.DeliveryKeepsMerchantsCommitted | crates/application/src/ports.rs:723-742 | delivering and scheduling the return leaves every village's committed count as it was |
| ClockLaws.NoInstantIsAccruedTwice | crates/application/src/units.rs:540-570 | under either guard, over every run of orders, credits, loot and piecewise training settles: no settle clock steps back exactly if no order that went through was backdated; and then credited seconds never exceed elapsed time and fall short by less than a second per write |
| Training.CompletionsLoseUnderASecond | crates/application/src/units.rs:545-570 | a settle through any number of completions credits the elapsed time but for less than a second in all, and exactly if it starts at a completion |
| ClockLaws.BackdatedOrderCreditsTimeTwice | crates/application/src/trade.rs:150-166 | orders, paid or free, stamp the caller's clock unclamped: a village's clock steps back exactly if an order's clock is behind the row, and an order settling forward again credits the stretch twice |
| ClockLaws.StampGuardRefinesTheContract | crates/application/src/ports.rs:2215-2235 | comparing settle instants behaves as "row unchanged since read" on every run whose writes all move the instant forward |
| ClockLaws.SecondWriteUndoesTheFirstIffNoTimePassed | crates/application/src/trade.rs:271-293 | of any two writes from one snapshot, the second passes the storage's guard exactly if the first was stamped with the instant both had read (an order in that instant; a credit, loot or training settle clamped to it), and then takes back exactly what the first changed |
| ClockLaws.ARewardIsLostToTheNextWrite | crates/infrastructure/src/repo.rs:6364-6376 | a reward changes a store without moving its settle instant: a session that had read the row before writes all the same, and the reward is gone |
| ClockLaws.TwoOrdersInOneInstantPayOnce | crates/infrastructure/src/repo.rs:1325-1350 | two orders of the row's own instant: the first one's price comes back |
| ClockLaws.OrdersInOneInstantBothCommitMerchants | crates/application/src/trade.rs:130-166 | a second shipment from the same reads passes the storage's guard exactly if the first was stamped with the instant both had read |
| ClockLaws.RequeueBesideALiveWorkerCreditsTwice | crates/infrastructure/src/repo.rs:394-412 | why the orphan requeue belongs to startup: a run in which a second worker claims and delivers a leg requeued beside its live worker, who then delivers it again, credits the bundle twice |
| Training.LatencyDoesNotMatter | crates/application/src/units.rs:497-584 | after any ticks, late, early, repeated, or whose apply was lost, store, clock, garrison and progress equal one delivery of as many units as were finished at the latest applied tick |
| Training.DeliverySplits | crates/application/src/units.rs:547-570 | delivering j and later k more units gives the same amounts, clock, garrison and progress as delivering j + k at once, for any settle function |
| Training.NeverDeliversEarly | crates/application/src/units.rs:511-522 | what is delivered never exceeds what elapsed time has finished at the latest tick, and equals it after an applied one |
| Training.AnyTwoSchedulesAgree | crates/application/src/units.rs:459-494 | two schedulers with the same last applied tick agree, whatever they did before |
| Training.DueIffFinished | crates/infrastructure/src/repo.rs:1964-1975 | whatever is finished is due; the stored schedule, without the delivery's minimum of a second a unit, is due exactly when something is finished if and only if a unit takes at least a second |
| Training.OnlyWhatIsCompleteIsDelivered | crates/infrastructure/src/repo.rs:1862-1880 | a tick changes nothing unless the batch is active, its next unit is complete and the write goes through |
| Training.Barracks.DeliverBatch | crates/application/src/units.rs:497-584 | delivers exactly if something is finished and the row is still at the settle instant read; from a village still as read that is one tick of the scheduler, and refused the tick that puts the batch back; Training.AUnitEatsFromItsOwnCompletionOn says what a delivery settles |
| Training.Barracks.SettlePiecewise | crates/application/src/units.rs:543-570 | one settle segment up to each delivered unit's completion; Training.EveryoneEatsFromTheirOwnCompletionOn says what that charges to whom |
| Training.AUnitEatsFromItsOwnCompletionOn | crates/application/src/units.rs:541-569 | for any settle function: delivering a unit settles the store up to its completion at the upkeep of the garrison without it, and only then it joins |
| Training.EveryoneEatsFromTheirOwnCompletionOn | crates/application/src/units.rs:541-569 | in closed form: any number of units and the garrison eat what the garrison eats over the whole time plus, for each unit, what it eats from its own completion on |
| Training.UnitSecsFromACompletion | crates/application/src/units.rs:541-569 | n units one after the other eat, until the last is done, n (n - 1) / 2 times the time of one unit |
| Armies.MergeConserves | crates/application/src/combat.rs:335-347 | merging loses and invents nobody per unit and leaves one entry per unit, whatever repeats in the groups |
| Armies.MergeCounts | crates/application/src/combat.rs:335-347 | the loop with first-entry lookup computes the in-order per-unit sum |
| Armies.LossesConserve | crates/domain/src/combat.rs:300-320 | survivors and losses add up to the army per unit, with no empty entries |
| Armies.ApplyLosses | crates/domain/src/combat.rs:300-320 | the casualty loop: survivors and losses entry by entry, rounded half to even and clamped |
| Armies.TheFractionFalls | crates/domain/src/combat.rs:303-318 | of each unit the fraction that falls is lost, to the nearest unit, the even one between two as near |
| Battles.EveryoneSentIsAccountedFor | crates/application/src/combat.rs:515-570 | for every composition, repeats included: survivors + losses = sent, and scouts lost are exactly the scouts among the losses; the keys come out unique with scouts on a mission, or from a list without repeats |
| Battles.IntelIffAScoutSurvives | crates/application/src/combat.rs:678-697 | intelligence exists exactly if scouts were sent to spy and one survives both stages |
| Battles.UnopposedSpyingChangesNothing | crates/application/src/combat.rs:515-570 | if no scout is caught, the two-stage bookkeeping gives the losses of the plain battle |
| Battles.ScoutsPassTwoStages | crates/application/src/combat.rs:515-570 | a unit loses its share of the battle; a scout on a mission first the share caught spying, and of those who slip through the share of the battle |
| Battles.ScoutsAreWhoTheRosterSays | crates/application/src/combat.rs:518-522 | a unit is a scout exactly if some spec of its id in the roster says so |
| Battles.Resolve | crates/application/src/combat.rs:515-570 | the split into scouts and others, espionage then battle, and the merges |
| Loot.Split | crates/domain/src/combat.rs:386-440 | total loot = min(open resources, capacity); of each resource at least min(stored, protection) stays, and exactly that if the army can carry the rest; otherwise proportional to within two units and a rounding, the remainder from the largest |
| Loot.Repair | crates/domain/src/combat.rs:422-438 | the unit-by-unit repair of the rounding reaches the exact total within its 256 tries, changing no share by more than two: the largest first, a share touched only once every larger one is tended to |
| Loot.RoundingMissesByAtMostTwo | crates/domain/src/combat.rs:416-422 | four half-even roundings of the shares miss the total by at most two and stay within bounds |
| TroopLaws.NobodyAppearsOrVanishesIffReadsAreFresh | crates/application/src/combat.rs:473-616 | world troop conservation: over any run of sends, claims, separate reads, battles, conquests, oasis fights, arrivals, recalls, settlings, culls, regrows, rewards, crashes and startup requeues the census is exact throughout exactly if every step computed from earlier reads finds them fresh |
| TroopLaws.StepMovesTheCensusByItsDrift | crates/infrastructure/src/repo.rs:3286-3640 | each step moves the census by a stated drift: deaths recorded beyond those present, or troops a replaced garrison conjures up or drops |
| TroopLaws.NothingDriftsIffFresh | crates/infrastructure/src/repo.rs:2056-2114 | no unit drifts exactly if the recorded dead still stand there (battle), dead and spared make up everybody (conquest), or the troops are those read (cull, oasis, regrow) |
| TroopLaws.UndisturbedStepsAreFresh | crates/application/src/combat.rs:756-790 | read and apply with nobody in between is exact, but for two cases: a conquest, exactly if it killed the whole garrison (what it spared is deleted unrecorded), and a regrow, exactly if it keeps everybody it read |
| RegrowLaws.RegrowIsExactIffTheOasisIsWild | crates/domain/src/oasis.rs:35-48 | undisturbed, a regrow tick keeps the census exactly if the oasis holds none but its seeded animals and no more of them than seeded: troops stranded in an unowned oasis vanish |
| TroopLaws.ACullIsExactIffNothingChangedBetweenItsReads | crates/application/src/starvation.rs:133-203 | even if every garrison change settled the resource row, as the code's comment says: a cull that reads the garrison first and the row second, as the code does, and whose guard passes is exact exactly if the garrison did not change between the two reads |
| TroopLaws.ARowReadFirstMakesEveryCullExact | crates/application/src/starvation.rs:133-203 | with the row read first, the same guard would make every cull exact |
| TroopLaws.ACullAnnihilatesADeliveryBetweenItsReads | crates/application/src/starvation.rs:133-203 | the failing run: n units delivered between the two reads settle the row, and yet the guard passes and they are gone |
| TroopLaws.SettlingRunsTrackGarrisons | crates/application/src/starvation.rs:199-203 | in such a store no run moves a stamp back, and one that stands still means the garrison is the same |
| TroopLaws.ACullRevivesTheSent | crates/infrastructure/src/repo.rs:2222-2297 | as stored, dispatches do not settle the row: a cull read before and applied after one brings everyone it sent back |
| TroopLaws.ThirdLegionnaire | crates/infrastructure/src/repo.rs:2056-2114 | a concrete village of two where that makes three |
| TroopLaws.CasualtiesSplitTheForce | crates/domain/src/combat.rs:300-320 | losses and survivors of a list split its force; a fraction of one takes all of it |
| Troops.UnitTable.GuardedDebit | crates/infrastructure/src/repo.rs:2222-2262 | all or nothing: succeeds exactly if the garrison covers the composition summed over repeated ids, and takes exactly that |
| Troops.UnitTable.SubtractUnits | crates/infrastructure/src/repo.rs:3014-3046 | casualties come off each stack down to zero at most |
| Troops.ForceCounts | crates/application/src/movement.rs:79-98 | a composition's force counts each unit over all its entries |
| TroopJourneys.MarchingKeepsAllegiance | crates/application/src/movement.rs:220-257 | sending, arriving, recalling and requeueing never change whose troops they are: per village, garrison + stationed abroad + on the road stay the same |
| TroopJourneys.ThereAndBackChangesNothing | crates/application/src/movement.rs:153-213 | a reinforcement that arrives and is recalled home leaves all garrisons and groups as they were |
| TroopJourneys.AReinforcementIsStationed | crates/infrastructure/src/repo.rs:2515-2550 | on arrival exactly the force sent stands at the target under its home village, and left its garrison |
| TroopJourneys.ARecallComesHome | crates/infrastructure/src/repo.rs:2299-2360 | a stationed group called back leaves no one there and rejoins its own garrison whole |
| TroopJourneys.RecallKeepsAllegiance | crates/infrastructure/src/repo.rs:2299-2360 | a recall changes no village's troops |
| TroopJourneys.AnOasisRecallComesHome | crates/infrastructure/src/repo.rs:4291-4350 | an oasis garrison called back leaves the oasis empty and joins the village whole |
| TroopEngine.Engine.Dispatch | crates/infrastructure/src/repo.rs:2267-2297 | sent exactly if the garrison covers the list and no unit id repeats; else nothing changes |
| TroopEngine.Engine.ProcessDueMovements | crates/application/src/movement.rs:220-257 | every claimed arrival is applied in turn, with the stamp its loot's credit had read: nobody is added or lost, no other movement is touched, and the homes of the returns that landed are reported in order |
| TroopEngine.AnArrivalClosesIffItsLootMayLand | crates/application/src/movement.rs:238-254 | every arrival of a batch closes, but the returns whose loot finds its home's row settled since it was read, be it by an earlier return of the batch; those stay in processing |
| TroopEngine.Engine.ApplyMovement | crates/infrastructure/src/repo.rs:2515-2604 | a reinforcement joins its group, a return its garrison and, with loot, settles the row; a return whose loot is refused changes nothing at all |
| TroopEngine.Engine.ApplyBattle | crates/infrastructure/src/repo.rs:3286-3640 | applies exactly if there is no loot or the row is as read: casualties off what stands there now, survivors to the village they came from (AllegianceLaws.SurvivorsRejoinTheirOwnGarrison), and at a conquest the hand-over; refused, it is all taken back |
| TroopEngine.Engine.HandOver | crates/infrastructure/src/repo.rs:3506-3610 | garrison emptied, spared groups sent home, stationed groups cleared, outgoing movements forfeited |
| AllegianceLaws.ABattleTakesEachSidesOwnDead | crates/infrastructure/src/repo.rs:3286-3475 | a battle that finds its dead still standing: the attacker's village loses exactly the attackers' dead, the village attacked its garrison's, each guest village its own group's, and nobody else anybody |
| AllegianceLaws.AHandOverGivesTheSparedBack | crates/infrastructure/src/repo.rs:3533-3610 | a hand-over gives each guest village exactly the spared of its own group, and takes garrison and armies in transit from the village lost alone |
| AllegianceLaws.AConquestTakesEachSidesOwnDead | crates/infrastructure/src/repo.rs:3286-3610 | so a conquest costs every other village exactly its own dead |
| AllegianceLaws.TheySetOutForHome | crates/infrastructure/src/repo.rs:3453-3470 | survivors of a battle, of espionage and of an oasis attack, and whoever is turned away at an oasis or a settlement, set out for the village they came from, all of them |
| AllegianceLaws.SparedGuestsSetOutForHome | crates/infrastructure/src/repo.rs:3540-3558 | at a hand-over the spared group of each other village sets out for that village |
| AllegianceLaws.SurvivorsRejoinTheirOwnGarrison | crates/infrastructure/src/repo.rs:2515-2604 | and when their return lands they are in the garrison of that village, and no other garrison changed |
| AllegianceLaws.EveryReturnGoesHome | crates/infrastructure/src/repo.rs:3453-3470 | in every run whoever returns, returns to their own village |
| AllegianceLaws.ScoutsAreTheirVillages | crates/application/src/scouting.rs:285-382 | scouts lost are lost to their own village alone |
| AllegianceLaws.OasisAttackersAreTheirVillages | crates/infrastructure/src/repo.rs:4031-4149 | attackers lost at an oasis are lost to their own village alone |
| AllegianceLaws.ArrivalsAfieldAreTheirVillages | crates/application/src/oasis.rs:408-444 | a reinforcement turned away at an oasis, and settlers refused, stay their village's, whole |
| AllegianceLaws.OasisBattlesFollowTheRules | crates/application/src/oasis.rs:554-575 | an oasis battle applied as it was read hands the oasis over just as the rules of occupation say, and no other step changes an owner |
| PlaceLaws.AnUndisturbedBattleIsFought | crates/application/src/combat.rs:473-616 | an attack picked up and resolved with nobody in between takes place, looted or not, whatever losses within the forces it finds, and is exact |
| PlaceLaws.AnUndisturbedCullIsCarriedOut | crates/application/src/starvation.rs:181-190 | a cull with nobody in between leaves exactly the survivors and buries the rest |
| PlaceLaws.OasesAfterABattle | crates/infrastructure/src/repo.rs:4031-4149 | an oasis holds its defenders less the dead, whoever won; a lost battle changes no owner; no other oasis is touched |
| PlaceLaws.NewTroopsJoinTheirGarrison | crates/infrastructure/src/repo.rs:1939-1951 | trained or given, new troops join the garrison of their own village, and nobody else moves |
| PlaceLaws.StampsMoveOnlyWithTheRow | crates/infrastructure/src/repo.rs:2222-2297 | as stored, a village's stamp moves exactly at a delivery of trained troops, a looted battle there, a return that lands there with loot, and a cull |
| PlaceLaws.MovementsTurnOnlyByTheirSteps | crates/infrastructure/src/repo.rs:2515-2604 | nothing happens to a movement but: picked up, put back at startup, ended by the apply of its own kind, or cancelled by a conquest of its village |
| TroopLaws.SettlersMove | crates/application/src/settling.rs:237-307 | settlers become a village, recorded as settled, or go home; the census stays exact |
| TroopLaws.ScoutsMove | crates/application/src/scouting.rs:285-382 | scouts lost are recorded dead and the rest go home; the census stays exact |
| TroopLaws.OasisArrivalMoves | crates/application/src/oasis.rs:408-444 | a reinforcement joins the oasis if still owned, else turns home; the census stays exact |
| TroopLaws.OasisFightMoves | crates/infrastructure/src/repo.rs:4031-4149 | an oasis battle moves the census by exactly the defenders read minus those there, and by nothing at the first fight, which brings the seeded ones into the world |
| TroopLaws.ConquestMoves | crates/infrastructure/src/repo.rs:3506-3610 | a hand-over changes the census by exactly the spared guests sent home, minus the garrison and guests deleted; what was in transit is recorded as forfeited |
| Culture.LateTownHallsAreCreditedExactly | crates/application/src/build.rs:398-424 | Town Halls processed late, in any batches, in completion order: the points lie between the exact integral of the rates in force and that minus the floors |
| Culture.NeverAheadOfTheIntegral | crates/application/src/culture.rs:96-111 | after any re-anchors at non-decreasing instants the value never exceeds the exact integral of the rate |
| Culture.ShortfallIsLinearInReanchors | crates/application/src/culture.rs:96-111 | below 64-bit saturation it falls short by less than one point and one second's worth per re-anchor |
| Culture.ReadingIsOneMorePiece | crates/application/src/culture.rs:58-86 | a read at the live rate is the value re-anchored then, so both bounds hold of it |
| Culture.BatchingDoesNotMatter | crates/application/src/build.rs:398-424 | value, anchor and levels depend on the stream of Town Halls only |
| Culture.ABackdatedAnchorPaysTwice | crates/application/src/culture.rs:105-110 | an anchor set back pays again for the same time, exactly if that time is worth a point |
| Culture.Desk.ProcessDue | crates/application/src/build.rs:398-424 | re-anchor at each completion, then raise the level |
| Culture.ARaiseAddsTheDifference | crates/domain/src/culture.rs:28-65 | raising a Town Hall changes the hourly rate by the difference of the two levels' entries in the table, the last entry standing for all levels beyond it |
| Culture.AVillageAddsTheBase | crates/domain/src/culture.rs:59-65 | one village more adds the base and its Town Hall's points |
| Culture.EachTownHallPaysFromItsCompletion | crates/application/src/build.rs:398-424 | the integral of the rates in force is what stood before over the whole time, plus for each Town Hall the difference it made from its own completion on |
| Culture.PlayersReadWhatEachTownHallPaid | crates/application/src/culture.rs:58-86 | so whoever reads, after Town Halls processed however late and in whatever batches, reads that sum up to the floors |
| Limiter.FreshBudgetRefinesHistory | crates/bots/src/strategist.rs:182-222 | a new budget answers every run of non-decreasing clocks, limits changing or not, as counting all past grants of the last hour would |
| Limiter.DequeRefinesHistory | crates/bots/src/strategist.rs:202-222 | the same from any reachable deque |
| Limiter.NoWindowExceedsTheLimit | crates/bots/src/strategist.rs:193-222 | as long as the clock never steps back, no hour-long window holds more than the limit of the calls the budget granted |
| Limiter.ACallAgreesWithCountingIff | crates/bots/src/strategist.rs:202-222 | at any call of any run, whatever the clocks: the answer is that of counting the budget's own grants of the last hour, for every limit, exactly if hidden stale grants and grants of a later clock make up for forgotten grants of that hour |
| Limiter.TheDequeIsTheLastHourIff | crates/bots/src/strategist.rs:205-214 | the deque is exactly the grants of the last hour if and only if none of them is forgotten, none of a later clock is remembered and no stale one is hidden |
| Limiter.TheDequeIsTheRestOfItsGrants | crates/bots/src/strategist.rs:202-222 | whatever the clocks do, the deque is all the budget ever granted but for a forgotten prefix |
| Limiter.SteppedBackClockGrantsTooMuch | crates/bots/src/strategist.rs:205-221 | a clock that steps back makes a limit of two grant three calls within an hour |
| Limiter.RefusedIffWindowIsFull | crates/bots/src/strategist.rs:215-221 | a call is refused exactly if the last hour holds the limit of grants |
| Limiter.PruneForgetsExactlyTheStale | crates/bots/src/strategist.rs:205-214 | dropping the stale prefix forgets exactly the stale grants if and only if the fresh ones are a suffix |
| Limiter.ClosedHourMayHoldTwo | crates/bots/src/strategist.rs:204-210 | the window is half-open: a closed hour may hold one grant more |
| Limiter.SteppedBackClockRefusesTooMuch | crates/bots/src/strategist.rs:205-214 | a clock that steps back makes the deque refuse where counting would grant |
| Limiter.LlmBudget.TryTake | crates/bots/src/strategist.rs:202-222 | prune the stale front, then grant and remember, or refuse |
| AllianceLaws.EveryRunKeepsTheTables | crates/application/src/alliance.rs:90-412 | whatever commands run between each other's queries, checks and writes: no alliance over its cap, names and tags unique, plain members without rights and founders with all, pacts well-formed and only between different live alliances |
| AllianceLaws.OneFounderIffWritesFit | crates/infrastructure/src/repo.rs:4819-4884 | over every interleaving: each alliance has exactly one founder all along exactly if every write still finds what its checks had: who is removed or gets a role is not the founder, and a hand-over is from the founder to a comrade |
| AllianceLaws.WriteKeepsOneFounderIffItFits | crates/infrastructure/src/repo.rs:4819-4884 | the same for each write by itself |
| AllianceLaws.ExactlyOneFounder | crates/application/src/alliance.rs:309-330 | in a run whose writes fit, each live alliance has a Founder with every right and no second |
| AllianceLaws.RunsOfWholeCommandsAreSafe | crates/application/src/alliance.rs:90-412 | commands that do not overlap always keep the tables and the one founder |
| AllianceLaws.RightsTraceToAFounder | crates/application/src/alliance.rs:269-305 | over every interleaving, every right of a non-founder traces to a role change of exactly these rights begun by the Founder of that alliance, which passed its checks, was written, and has stood unchanged since |
| AllianceLaws.ConfederationsAreByConsent | crates/application/src/alliance.rs:371-412 | in a run whose acceptances still find their offer: behind every confederation an offer by one side and a later acceptance by the other, each begun by a then-holder of the Diplomacy right and written, with the offer and then the pact standing without interruption |
| AllianceLaws.ConsentIffOffersStillStand | crates/application/src/alliance.rs:379-412 | over every interleaving: alliances come to be allied only by the write of one while the other's offer is pending exactly if every write that puts a confederation in force still finds that offer or the confederation |
| AllianceLaws.AcceptingAWithdrawnOffer | crates/application/src/alliance.rs:379-412 | an acceptance checked before and written after the offer is withdrawn allies the two all the same |
| AllianceLaws.WholeCommandsConsent | crates/application/src/alliance.rs:371-412 | a command nobody interrupts allies only while the other side's offer, or the confederation, is there |
| AllianceLaws.OffersAreMade | crates/application/src/alliance.rs:371-412 | over every interleaving, a pending offer was begun by a then-holder of the right on the offering side, written, and has stood since |
| AllianceLaws.ConfederatesAreMutual | crates/application/src/alliance.rs:439-460 | the confederate relation is symmetric, irreflexive, and exactly the active pacts |
| AllianceLaws.LeavingAfterTheHandOverLeavesNoFounder | crates/application/src/alliance.rs:214-227 | a member who checks out to leave, is handed the alliance and then leaves, leaves it without a founder |
| AllianceLaws.RoleWriteAfterTheHandOverLeavesNoFounder | crates/application/src/alliance.rs:269-330 | a hand-over between a role change's check and its write leaves the alliance without a founder |
| AllianceLaws.TwoHandOversMakeTwoFounders | crates/application/src/alliance.rs:309-330 | two hand-overs checked by one founder and then both written make two |
| AllianceRegistry.MembershipsChangeOnlyByRight | crates/application/src/alliance.rs:90-349 | a whole command changes nobody's membership without the right to: who may be founded, joined, left, expelled, given a role, handed over or disbanded, and by whom; nobody moves from one alliance to another |
| AllianceRegistry.FoundersMoveThemselves | crates/application/src/alliance.rs:214-349 | nobody but a founder himself changes his membership |
| AllianceRegistry.PactsChangeOnlyByRight | crates/application/src/alliance.rs:336-412 | no pact changes but by the Diplomacy right of one of the two, or the disbanding of one |
| AllianceRegistry.InvitationsChangeOnlyByRight | crates/application/src/alliance.rs:133-210 | invitations are given and taken back by the Invite right and used up by the invited alone |
| AllianceRegistry.AlliancesChangeOnlyByRight | crates/application/src/alliance.rs:90-349 | an alliance comes by founding and goes by its founder's disbanding; it keeps its name and tag, and only its founder makes another its founder |
| AllianceRegistry.RefusedIffNotAllowed | crates/application/src/alliance.rs:90-412 | each command is refused exactly if it is not allowed; refused, it changes nothing, and its error says what is so |
| AllianceRegistry.AllowedCommandsTakeEffect | crates/application/src/alliance.rs:90-412 | each allowed command has its effect: declaring war ends in war, cancelling in no pact, proposing in one's own pending offer (an active confederation stays), accepting in a confederation; an accepted invitation makes a plain member, a role change gives that role and those rights, an expulsion removes, a hand-over swaps, a disbanding leaves nothing |
| AllianceRegistry.AnOfferIsTheOthersToAccept | crates/application/src/alliance.rs:371-412 | an offer is the other side's to accept, never its own; offering back takes the offer over |
| AllianceRegistry.AnUndisturbedCommandIsWhole | crates/application/src/alliance.rs:90-412 | query, check and write with nobody in between do what the whole command does |
| AllianceRegistry.Registry.Handle | crates/application/src/alliance.rs:90-412 | any command on the stored tables: if they were in order, with one founder to each alliance, so they still are; it is carried out exactly if it is allowed, and then has its effect; refused, it changes nothing and what its error says is so |
| Starvation.BulkIsOneAtATime | crates/domain/src/units.rs:474-520 | culling type by type is exactly killing one unit at a time, highest upkeep first, ties in roster order |
| Starvation.TheFirstAliveIsTheVictim | crates/domain/src/units.rs:488-497 | in kill order the first type alive eats the most, and among those who eat as much stands first in the roster |
| Starvation.TheFirstAliveDies | crates/domain/src/units.rs:474-481 | each death of the one-at-a-time rule is that unit's |
| Starvation.UpkeepIsThatOfTheFirstSpec | crates/domain/src/units.rs:456-461 | a unit eats what its first spec in the roster says, and nothing if the roster does not know it |
| Starvation.TheCullIsSufficient | crates/domain/src/units.rs:474-520 | survivors are a sub-army per unit, survivors + casualties = garrison, and they eat within the budget or nothing at all |
| Starvation.Starve | crates/domain/src/units.rs:483-520 | the sort, the culling loop and the removal of empty entries |
| StarvationChecks.CulledVillagesAreSustainable | crates/application/src/starvation.rs:176-181 | with an artifact factor of at most one, a culled village feeds its troops or has none that eat |
| StarvationChecks.CullsSustainIffTheFactorIsAtMostOne | crates/application/src/starvation.rs:176-181 | every culled village is sustained, whatever its crop, roster and garrison, exactly if the artifact factor is at most one |
| StarvationChecks.AFactorAboveOneUndercuts | crates/application/src/starvation.rs:176-181 | a factor that adds half a crop to one unit's upkeep leaves the survivor of two starving, because raw upkeep is culled against a scaled budget |
| StarvationChecks.TheCheckReachesTheDryState | crates/application/src/starvation.rs:167-175 | undisturbed, re-fires find the store dry after at most stored / cap of them, rounded up |
| StarvationChecks.DryAtTheFirstRefireWithinCap | crates/application/src/starvation.rs:167-175 | and at the first one if the store was within its cap |
| StarvationChecks.TheCheckComesBackWhenTheCropIsGone | crates/domain/src/units.rs:524-532 | a check comes back after the least number of whole seconds that eats all the crop it saw |
| StarvationChecks.Handler.StarveVillage | crates/application/src/starvation.rs:114-215 | from what was read: a cull applies exactly to troops at a negative net with an empty store and a row not settled since; the cull leaves wood, clay and iron accrued each at its own rate to now; a check that finds crop returns when that crop is gone, at least a second later; a refused cull is retried at once |
| StarvationChecks.Handler.Sync | crates/application/src/starvation.rs:18-68 | a check exists exactly with troops and a negative net, for when the crop seen is eaten, rounded up to a second |
| StarvationChecks.NotDryBeforeTheLastOfTheCrop | crates/application/src/starvation.rs:54-68 | how early the store can be dry: not while the time passed, and a second, could not eat the crop seen but for its last unit |
| Viewport.HowManyCellsAreShown | crates/application/src/map.rs:30-47 | for every centre, extent and radius: min(columns, width) * min(rows, width) coordinates, spans cut only at the ends of the 32-bit range |
| Viewport.InsideTheRangeTheExtentIsTheSpan | crates/application/src/map.rs:37-40 | the cut spans are 2 * half + 1 exactly away from those ends |
| Viewport.CellsKeepTheirPlace | crates/domain/src/world.rs:82-89 | a cell that does not cross the edge of the map is shown dx east and dy north of the centre |
| Viewport.WrappingIsByWholeTurns | crates/domain/src/world.rs:82-89 | wrapping moves a value by whole turns of the axis and leaves one on the axis alone |
| Viewport.CoordsAreTheShownCellsOnce | crates/application/src/map.rs:30-47 | the fetched coordinates are exactly those shown, each once, all in bounds |
| Viewport.TheViewShowsWhatWasFetched | crates/application/src/map.rs:55-85 | the rendered grid shows exactly the coordinates fetched, each with its first marker |
| Viewport.ViewportCoords | crates/application/src/map.rs:30-47 | the nested loops with their test for repeats keep first occurrences in row order |
| Viewport.MapViewport | crates/application/src/map.rs:55-85 | 2 * half + 1 rows and columns, north first, west to east, each cell with its marker |
| Viewport.WindowSize | crates/domain/src/world.rs:82-89 | n consecutive values wrap to min(n, width) different ones |
| BuildLaws.EveryRunIsSafe | crates/application/src/build.rs:140-266 | if no order is accepted beside one in processing that it conflicts with: never Residence and Palace, a unique kind twice, a kind in another's slot, or a level over its cap, nor will the queued orders make it so in whatever order they complete |
| BuildLaws.AcceptedOrderBreaksARuleIffItConflicts | crates/application/src/ports.rs:2215-2235 | an order accepted beside one in processing: completing both, in one order or the other, overwrites another kind or breaks a rule of the centre exactly if they name two kinds for one slot, one unique kind for two slots, or a Residence and a Palace |
| BuildLaws.PlaceIsSafe | crates/application/src/build.rs:140-266 | an accepted order keeps the whole queue safe exactly if it conflicts with no order in processing; pending ones never matter |
| BuildLaws.DemolitionsNeverConflict | crates/application/src/build.rs:289-360 | a demolition conflicts with nothing and always keeps the site safe |
| BuildLaws.CompleteIsSafe | crates/infrastructure/src/repo.rs:1464-1543 | completing an order of a safe queue keeps the site and the rest of the queue safe |
| BuildLaws.AcceptedIffAllowed | crates/application/src/build.rs:140-360 | an order is accepted exactly if its prerequisites are met, its lane is free, its level is below the cap of the site, and there is room: the slot free or the same kind's, the kind in its own place, not there twice, no working rival; a demolition exactly if the Main Building is high enough and the kind can go |
| BuildLaws.RefusalsSayWhatIsSo | crates/application/src/build.rs:140-266 | a refused order's error says what is so |
| BuildLaws.ABuildRaisesItsTargetByOne | crates/infrastructure/src/repo.rs:1464-1543 | ordered, claimed and completed, a build raises its target by one level and changes nothing else but that a Palace makes the capital |
| BuildLaws.ADemolitionTakesOneLevel | crates/infrastructure/src/repo.rs:1482-1491 | ordered, claimed and completed, a demolition takes one level away, and a building left without one is gone |
| BuildLaws.BuildingsChangeOnlyByTheirOrders | crates/infrastructure/src/repo.rs:1464-1543 | a slot changes only when an order for it completes, as ordered, by catapults, or with a Palace replaced elsewhere |
| BuildLaws.OnlyRomansBuildTwoAtOnce | migrations/0007_build_lanes.sql:5-10 | over every run at most one order is pending, or for Romans one for the fields and one for the buildings |
| BuildYard.Yard.PlaceOrder | crates/application/src/build.rs:140-266 | accepted exactly if it may be: one pending order of one level more, safe by itself, and the queue safe exactly if it conflicts with none in processing; refused, nothing changes |
| BuildYard.Yard.DemolishOrder | crates/application/src/build.rs:289-360 | accepted exactly if it may be: one pending order of one level less, and the queue safe |
| BuildYard.Yard.ApplyBuild | crates/infrastructure/src/repo.rs:1464-1543 | the target stands at the ordered level, or is gone at level zero, and nothing else changes; the site stays safe |
| BuildLaws.ResidenceAndPalace | migrations/0007_build_lanes.sql:5-10 | the one-order index covers pending orders only: a Palace ordered while a Residence is being completed ends with both |
| BuildLaws.AnOrderBesideAnOrphanStrandsIt | crates/infrastructure/src/repo.rs:323-333 | an orphaned order is recovered at startup, but an order placed beside it in its lane makes the whole requeue fail and leaves it stranded |
| BuildLaws.RazingRaisesNoneIffAllStoodHigher | crates/infrastructure/src/repo.rs:3319-3331 | catapults set every building of a kind to one level: none is raised exactly if all stood that high |
| BuildYard.Yard.EnqueueOrder | crates/infrastructure/src/repo.rs:1369-1390 | refused exactly if the lane holds a pending order |
| DmKeys.ParsingInvertsPrinting | crates/application/src/comms.rs:41-50 | parse(print(id)) = id for every 128-bit id, and a key parses to an id exactly if it spells it: the digits alone, hyphenated, hyphenated in braces, or as a URN, with letters in either case |
| DmKeys.PairKeysNameUnorderedPairs | crates/application/src/comms.rs:57-62 | the pair key is symmetric, tells different unordered pairs apart, and lists the numeric minimum first |
| DmKeys.TextOrderIsNumericOrder | crates/application/src/comms.rs:57-62 | the lexicographic order of hyphenated lowercase hexadecimal text (section 4 of RFC 9562) is the numeric order |
| DmKeys.ParsedKeysAreIds | crates/application/src/comms.rs:46-50 | whatever parses is a 128-bit id |
| Oases.OasesNeverExceedCapacity | crates/application/src/oasis.rs:554-575 | battles resolved one after the other and Outposts not falling: no village ever holds more oases than it may; Oases.ABattleDecidesItsOasis says who gets which |
| Oases.ABattleDecidesItsOasis | crates/application/src/oasis.rs:554-575 | a lost battle changes nothing; a won one gives the oasis to the attacker exactly if it holds fewer than it may, and otherwise leaves it nobody's; no other oasis changes hands |
| Oases.HeldCountsItsOases | crates/application/src/oasis.rs:560-562 | the count a battle goes by is the number of oases the village owns |
| Oases.AppliedLateIsWithinCapacityIffThereIsRoom | crates/application/src/oasis.rs:554-575 | a battle applied on an earlier count stays within capacity exactly if there still is room, or the oasis is already the village's |
| Oases.TwoSchedulersExceedCapacity | crates/application/src/oasis.rs:554-562 | two counts before either apply exceed it by one |
| Oases.RegrowKeepsItsBeat | crates/application/src/oasis.rs:453-486 | undisturbed steps happen for exactly battle + n periods, each once and in order, whatever the tick latency |
| Oases.EachStepShrinksTheDeficit | crates/domain/src/oasis.rs:35-48 | each step lowers the deficit by the step until none is left, and the schedule stops exactly then |
| Oases.RegrowReachesFullStrength | crates/domain/src/oasis.rs:35-48 | after n steps the deficit is the initial one minus n steps, never below none |
| Watermark.TicksSettleAGaplessPrefix | crates/application/src/lifecycle.rs:43-71 | after any ticks with failures anywhere, the settled periods are 0, 1, ... without gap, each once and ascending, and the world is that of an uninterrupted run |
| Watermark.InterruptionsDoNotMatter | crates/application/src/medals.rs:17-40 | whatever came before, a tick that does not fail ends where a single tick from the start would |
| Watermark.OnlyCompletePeriodsAreSettled | crates/application/src/lifecycle.rs:56-58 | nothing is settled before its period is over |
| Watermark.WhoIsSwept | crates/domain/src/lifecycle.rs:51-63 | an account is gone exactly if idle since before the last settled cutoff, and went in the first period whose cutoff it missed |
| Watermark.SweptInTheFirstPeriodIdleTooLong | crates/domain/src/lifecycle.rs:51-63 | an account is abandoned in a period exactly if that is the first at whose end it has been idle for longer than allowed, and nobody exempt ever is |
| Watermark.SettledPeriodsAreOver | crates/domain/src/medals.rs:78-95 | a period is settled only once its end has passed |
| Watermark.AnUnrecordedSettlementRepeats | crates/infrastructure/src/repo.rs:6420-6426 | the medal watermark is its snapshots: it advances exactly if a settled period recorded somebody, and a second tick attempts the periods again exactly if the first had some to settle and recorded nobody |
| Watermark.Sweeper.ProcessDue | crates/application/src/lifecycle.rs:43-71 | period after period up to the current one, or up to the first failure; it returns what it settled |

## Left out

- Exact battle formulas, luck, morale and walls: a battle's outcome is any loss within the forces read.
- Floating point: shares, loss fractions and artifact factors are real numbers, without the rounding of 64-bit floats.
- Village deletion by the abandonment sweep and its cascades to rows, troops and legs.
- Villages founded during a run: a settling party is recorded as settled, and its village is one that was empty before.
- Players' identity at arrival: ownership is not part of the troop census, and a raid by the owner on its own village is not excluded.
- Loyalty, artifacts, plans and reports of a battle, except the losses a report records.
- The order in which Town Halls, foundings and conquests re-anchor culture against each other: one ordered stream is assumed.
- Palace relocation from the view of the village that gains it; the village that loses it is modelled.
- How production rates and storage arise from fields, buildings and bonuses: a settle takes the rates and capacities as read.
- Prerequisites, costs and times of build orders, which decide only whether an order is accepted.
- Mail, chat and forum beyond the conversation keys.
- Rewards of quests and achievements (crates/infrastructure/src/repo.rs:6289-6388): their read of the store and the unguarded write back are one step here, and their culture points are not modelled.
- Terrain and marker details of map cells beyond the coordinate.
- Single-branch gates and queries: registration, admin, profiles, search, ranking, notifications.
- Ledger: crop and resource totals are unbounded integers outside the settle itself, and troop counts are not cut at 32 bits.
- Oases.RegrowKeepsItsBeat: covers one oasis; the loop over all due ones repeats it.
- TradeEngine.Engine.DeliverShipment: does not model a deleted target, whose trade legs are deleted with it, or a storage error reported after the transaction committed.
- TroopEngine.Engine.ProcessDueMovements: the stamps the loot credits read are inputs, so a credit whose computation fails is one whose stamp does not match.
- AllianceLaws.EveryRunKeepsTheTables: a check reads everything but its actor's membership in one step, and storage errors other than the tables' keys are not modelled.
- StarvationChecks.TheCheckReachesTheDryState: assumes a crop store below a 3600th of the 64-bit range, because beyond it the source's own arithmetic saturates.
