# Verification of the copy-trading engine

The engine polls a trader's open positions, turns the difference between two polls into OPEN, CHANGE and CLOSE updates, and has every follower bot repeat them with its own balance and settings. This project models that pipeline, the arithmetic of its orders, its two concurrent protocols and its accounting in Dafny, and proves what they keep.

| file | component | main results |
|---|---|---|
| `Types.dfy` | positions, updates, sides, map keys | a key determines symbol and side |
| `TraderDiff.dfy` | the swap-removal diff of two polls | the diff is the set difference; replayed, it is a patch |
| `MonitorRun.dfy` | the polling loop | over any run of polls the updates replay to the latest snapshot |
| `Decimals.dfy` | the decimal library's rounded division | exactly when the floor of a rounded quotient is integer division |
| `Orders.dfy` | splitting quantities, rounding prices, TP and SL | legality, shortfall and exactly when a split overshoots; exactly when a price gets its nearest tick; limits straddle the entry, each as far from it as its percent says |
| `Decisions.dfy` | what a bot orders for an OPEN or a CHANGE | exactly when an order goes out; sizing of opens on both sides, the target and bounds of every CHANGE step, the two caps |
| `Tracking.dfy` | a run of CHANGE updates | proportional drift bound |
| `BotRuntime.dfy` | the bot object and its delayed effects | its methods against a state specification, and what that says of orders, positions and the ignore list |
| `BotStartup.dfy` | joining a trader in progress | start-up partition of all open symbols |
| `Coverage.dfy`, `CoverageGap.dfy` | a bot over a whole run | every position of the trader is tracked or ignored; the exact step that can break this, and a run in which it does |
| `CoverageStart.dfy` | a bot added to a monitor that is running | exactly when the start misses no position, and a run in which it misses one |
| `Orphans.dfy` | the other direction | exactly when a tracked position is one the trader no longer holds and nothing will remove |
| `LaunchCache.dfy`, `LaunchProgress.dfy` | `LaunchingMonitorsCache` | one launcher per trader, hand-over, and what an unpaired or unwaited `Finished` does; no send of a launcher's `Finished` lacks its receiver |
| `Payments.dfy` | claim, verification, status | no double credit, and for transactions exactly when; whatever is credited reached our wallet and was worth the price; one verifier per pending entry; success reported once |
| `Ledger.dfy`, `LedgerOrder.dfy`, `BalanceRepair.dfy` | the copy-trading balance | never over-allocated, never negative, and conserved, over runs; exactly the steps that can break conservation; the error of an interrupted plan change; the repair |
| `Instances.dfy` | the table of bot instances | ids stay 1..k wherever a write fails, settings survive |
| `Proxies.dfy` | the proxy pool over a shared backing array | no proxy lost or doubled, no group that is out overwritten |

Code that changes objects in place is a class whose methods are proved against specification functions; the theorems are about those functions and about runs of them. What several goroutines do at once is a state machine whose steps are the code's critical sections, single SQL statements and channel operations, with runs as sequences of steps. Answers of exchanges, the chain, databases and clocks are parameters of a step. Prices, quantities and balances are exact reals, and `Div` rounds as the decimal library does.

Some expectations one would have of the code do not hold. The code is modelled as it is, and each time the project proves when the expectation holds and shows that it can fail:

- A position of the trader can end up neither tracked nor ignored, because the goroutine that removes a closed position can run after a later open of the same position (`Coverage.StepKeepsIffClean`, `Coverage.UncleanOpenUncovers`, `CoverageGap.CoverageCanFail`).
- It can also end up so because `startBot` reads the trader's positions before it waits for the exchange and adds the bot after, so the bot never hears of a position opened in between (`CoverageStart.AddKeepsIffSeen`, `CoverageStart.StartCanMiss`).
- The profit a CHANGE names, which the comment at `trader.go:205-206` calls accurate for decreases, has the wrong sign when a short is reduced (`TraderDiff.ChangePnlIff`).
- Rounded division can make a split exceed the wanted quantity, which happens for some quantity exactly when maxQty has 2*10^16 units or more (`Orders.NeverExceedsIffCoarse`, `Orders.SplitCanExceed`), and an open exceed its share of the balance by a last place (`Decisions.SizingCanExceed`).
- A price a hair below the half between two ticks is rounded up (`Orders.ValidPriceNearestIff`, `Orders.ValidPriceCanMiss`).
- Payments are kept by the text of a transaction id, so two texts that are read as one hash are credited separately (`Payments.TransactionCreditedOnce`, `Payments.TwoTextsTwoCredits`).
- A panicking OPEN leaves its position as it was (`Coverage.PanicUncovers`), and a CLOSE of an ignored symbol, or one that is refused or fails, leaves the bot with a position the trader has closed (`Orphans.StepTidyIff`).
- Where the price request of an increase failed the price reads as zero and the cap on one coin refuses nothing (`Decisions.CapRefusesIffPriced`, `Decisions.UnpricedIncreasePlaced`, `Decisions.UnpricedCanPass`).
- With a max add multiplier below 1 the capped order still adds (`Decisions.MaxAddMultiplierHolds`).
- The limits straddle an entry for all percents exactly when the entry is on the price grid (`Orders.StraddledIffOnGrid`).
- `startBot` reports `Finished` twice after a success; the second report can create a second launcher (`LaunchCache.FinishStartStep`, `LaunchCache.TwoReportsTwoLaunchers`). The comment at `classes/launchingMonitorsCache.go:72` says such calls pass silently, which holds only while nobody has begun to launch the trader again.
- A failed launch that nobody waited for leaves an entry that no thread ever launches again (`LaunchCache.UnwaitedFailureStrands`).
- `SetUserPlan` reads, deletes and inserts in separate statements, so a start in between is forgotten, and a change to a missing plan deletes the user's row (`LedgerOrder.OrderlyIffSafe`, `Ledger.PlanChangeOffBy`, `Ledger.ReserveDuringChange`, `Ledger.MissingPlanThenChange`).
- A change to a plan that allows less than the user's bots hold leaves less than nothing, which no other step does in guarded runs (`Ledger.StaysCoveredIff`).
- Two requests to stop one bot can both look it up before either removes it, and then both credit it (`LedgerOrder.SecondLookBreaks`).
- Two monitors can pass the check for proxies that are enough for one; the second is made without any (`Proxies.Proxies.CreateNewMonitor`).
- The balance repair divides by the remaining balance, so it panics when that is zero (`BalanceRepair.FixCopyTradingBalance`).

## Model

| member | source | states |
|---|---|---|
| Types.PosHashInjective | classes/funcs.go:11-13 | two keys of the positions map are equal iff symbol and side are, for every reported side |
| Types.EffectiveSideInjective | classes/update.go:97-103 | mirroring or inverting keeps trade sides apart |
| TraderDiff.Scan | trader.go:215-249 | the inner loop's last match lies in the live prefix, or is the one it started with |
| TraderDiff.Trader.FindMatch | trader.go:215-249 | the inner loop, including its `break` only on an unchanged quantity, is the specification's scan |
| TraderDiff.Trader.Settle | trader.go:212-280 | one turn of the outer loop emits the CLOSE or CHANGE of its position and swap-removes the match from the array |
| TraderDiff.Trader.OpenRest | trader.go:282-303 | what is still live is opened, in order |
| TraderDiff.Trader.ComparePositions | trader.go:207-306 | the in-place diff emits exactly the specified updates and leaves the live prefix at the front of the array it destroys; at each turn of its loop the prefix is that of the positions looked up so far |
| TraderDiff.LiveAppend | trader.go:212-280 | looking up one more old position changes the live prefix as one turn of the loop does |
| TraderDiff.Trader.GetUpdates | trader.go:308-328 | a failed request yields nothing; otherwise the diff runs on a copy, and the new snapshot is returned undamaged |
| TraderDiff.ScanUnique | trader.go:215-249 | with unique keys the loop finds the one match and reports it iff its quantity moved |
| TraderDiff.NoMatchNoChange | trader.go:213-249 | a scan that matches nothing emits nothing |
| TraderDiff.SwapRemoveDrops | trader.go:276-279 | swap-removal drops exactly one element from the live multiset |
| TraderDiff.LiveIsUnmatched | trader.go:212-280 | the live prefix, after any number of turns, is as a multiset the new positions no old one looked up so far has matched |
| TraderDiff.CompareMembers | trader.go:207-306 | an update is emitted iff some closed, changed or opened key calls for it |
| TraderDiff.CompareShape | trader.go:207-306 | at most one update per key, and every OPEN after every CLOSE and CHANGE |
| TraderDiff.DiffIsSetDifference | trader.go:207-306 | the diff is the set difference of the snapshots: one update per closed, changed or opened key, none for an unchanged one, OPENs last |
| TraderDiff.UpdateTells | trader.go:207-306 | a CLOSE tells entry, time and price last seen, a CHANGE and an OPEN those just polled; quantities lose their sign; the profit is that at the price last seen of what was closed or taken off |
| TraderDiff.ChangePnlIff | trader.go:205-229 | the profit a CHANGE names is that of closing the quantity taken off iff the position is long, or nothing was taken off or gained; for a short it has the other sign |
| TraderDiff.DiffIsPatch | trader.go:207-306 | the updates turn the old book into the new one, every OPEN hitting an absent key and every CHANGE and CLOSE a key holding the old quantity it names |
| TraderDiff.ReportedIffBooksDiffer | trader.go:207-306 | a key is reported iff the two books disagree on it, when the side is the sign of the quantity |
| TraderDiff.FetchedSideIsSign | classes/traderPosition.go:14-37 | a fetched position is a Buy iff its quantity is not negative, and takes over every figure |
| TraderDiff.ReplayAppend | monitor.go:387-412 | replay composes over consecutive polls |
| MonitorRun.Monitor.RunPass | monitor.go:387-412 | a pass over the clients ends in the latest good snapshot and sends the diffs of the good polls, in order; failed polls change nothing |
| MonitorRun.LatestIsLastGood | monitor.go:387-412 | the snapshot after any polls is the last good answer, or the first snapshot if all failed |
| MonitorRun.RunIsPatch | monitor.go:387-412 | over any sequence of polls all updates, replayed in order on the first snapshot, apply where they must and give the latest one |
| Decimals.DivNear | go.mod:15 | a rounded quotient is within half a last place of the true one |
| Decimals.DivMonotone | go.mod:15 | rounded division, and its floor, are monotone in the dividend |
| Decimals.FloorDivExact | botRuntime.go:258 | the floor of a rounded quotient is integer division while the divisor is below 2*10^16 common units |
| Decimals.FloorDivTooFine | botRuntime.go:258 | at or above that bound the quotient of n - 1 by n units floors to 1 |
| Decimals.FloorDivExactIff | botRuntime.go:258 | it is integer division for every dividend iff the divisor is below that bound |
| Decimals.FloorDivTrueIff | botRuntime.go:258 | for one dividend it is, iff the quotient is not so close below a whole number that half a last place reaches it |
| Decimals.StepsTaken | botRuntime.go:273-274 | rounding down to steps falls short by less than a step and overshoots only by the quotient's rounding |
| Orders.GetBulkQtyList | botRuntime.go:252-277 | the loop that fills the slice, and the remainder, give the specified split |
| Orders.OrdersLegal | botRuntime.go:252-277 | every order is a multiple of the step between the exchange's minimum and maximum |
| Orders.SplitShortfall | botRuntime.go:252-277 | for any quantity the shortfall is below minQty if the remainder was dropped and below one step otherwise; the overshoot is at most half a last place of maxQty |
| Orders.NeverExceedsIffExact | botRuntime.go:258-274 | one split stays within its quantity iff neither the quantity in maxQtys, nor what is left of it in steps unless dropped, is so close below a whole number that half a last place reaches it |
| Orders.NeverExceedsIffCoarse | botRuntime.go:258-274 | on a common grid no quantity is ever exceeded iff maxQty has fewer than 2*10^16 units |
| Orders.SplitCanExceed | botRuntime.go:258 | with more, a quantity one unit below maxQty is ordered as maxQty |
| Orders.ExactOnGrid | botRuntime.go:258-274 | neither is when everything is on a common grid with maxQty below 2*10^16 units |
| Orders.SplitGuarantees | botRuntime.go:252-277 | on such a grid: legal orders, total between quantity minus shortfall bound and quantity, and their exact number |
| Orders.WholeStepsSplit | botRuntime.go:252-277 | a quantity in whole steps is split without loss iff its remainder is ordered or nothing |
| Orders.MinimumYieldsOrder | botRuntime.go:268-277 | a quantity that reaches the minimum is never split into nothing |
| Orders.ValidPriceMonotone | botRuntime.go:210-218 | rounding to ticks is monotone |
| Orders.ValidPriceFixesGrid | botRuntime.go:210-218 | the result is on the price grid, and exactly the prices on the grid are left alone |
| Orders.ValidPriceNearestIff | botRuntime.go:210-218 | for every price no tick is nearer than the result, iff the price is not so far below a half tick only that the quotient's rounding reaches it; and the result is always within half a tick and a last place |
| Orders.ValidPriceCanMiss | botRuntime.go:214 | a price for which a tick is nearer |
| Orders.ValidPriceNearest | botRuntime.go:210-218 | the exception needs 10^16 units to a tick or more |
| Orders.LimitsStraddle | botRuntime.go:222-248 | for a Buy SL <= rounded entry <= TP, for a Sell the reverse, for all non-negative percents; how far apart is `Orders.LimitDistance` |
| Orders.LimitDistance | botRuntime.go:222-248 | for any entry and percent a limit is percent / 100 of the entry away from it, up to half a tick and the last places of two quotients: above it for the TP of a Buy and the SL of a Sell, below it for the others |
| Orders.LimitsMirror | botRuntime.go:222-248 | taking profit on one side is stopping out on the other |
| Orders.StraddledIffOnGrid | botRuntime.go:73-87 | the limits straddle the entry itself for all percents iff the entry is on the grid |
| Decisions.OpenSendsOrders | botRuntime.go:430-480 | an OPEN that passes every check sends at least one order, all legal, and both leverage computations agree |
| Decisions.OpenPassesIff | botRuntime.go:309-446 | an OPEN passes iff the symbol is supported, not open, not blacklisted and whitelisted where a list is kept, and no close-only mode, trader size, number of positions, delay, spread, balance or minimum quantity forbids it, each only where its setting is on; the balance it needs is the percent of the initial one |
| Decisions.SizedAt | botRuntime.go:432-435 | the quantity of an OPEN is worth, at the mark price, the opened percentage of the balance times the smaller of the wanted and the allowed leverage, no less and no more than the last places of two quotients |
| Decisions.OpenSizing | botRuntime.go:430-480 | for every input the orders' value at the mark price is at most the opened percentage of the balance times the leverage set on the exchange, up to the last places of the quotients |
| Decisions.OpenSizingBelow | botRuntime.go:430-480 | and at least that, less those last places and what the split drops |
| Decisions.OpenSizingOnGrid | botRuntime.go:430-480 | and without that allowance where amounts are on a grid of money whose unit exceeds those last places |
| Decisions.PercentExact | botRuntime.go:435 | a percent of at most 14 fractional digits is taken of the balance without rounding |
| Decisions.SizingCanExceed | botRuntime.go:435 | without that proviso the bound can be exceeded |
| Decisions.TargetExact | botRuntime.go:713-730 | what a CHANGE aims at is to what is held as the trader's new quantity to his old one, for increases and decreases alike, except that an increase is cut to the max add multiplier times what is held iff that is on and the trader exceeds it |
| Decisions.ChangeTooSmallIff | botRuntime.go:729-741 | a CHANGE is refused as too small iff its distance to that target is below the minimum; a decrease is refused for nothing else |
| Decisions.AddPlacedIff | botRuntime.go:744-825 | an increase of the minimum or more goes out iff it is not too soon, the price is known and far enough from the entry where add prevention is on, not beyond the entry where that is blocked, and within the cap on one coin; it crashes only on an unknown price |
| Decisions.PreventionMeans | botRuntime.go:756-772 | far enough is: by the setting's percentage of the market price, up to a last place |
| Decisions.TooLargeMeans | botRuntime.go:806-811 | within the cap is: what would be held, at this price, is at most the percentage of the balance times the leverage, up to last places |
| Decisions.AddLimits | botRuntime.go:826-828 | the limits of an increase are those set that are on, from the entry averaged by quantity, up to a last place |
| Decisions.PlacedQty | botRuntime.go:713-741 | a placed CHANGE orders the distance to the target of `Decisions.TargetExact`, reduce-only and without limits iff the trader's quantity did not grow, so the clamp to what is held never binds; also where the price was not answered |
| Decisions.ChangeStepBounds | botRuntime.go:713-856 | for every placed CHANGE the filled orders move the position towards its proportional, or cut, target, to within max(minQty, qtyStep) of it and past it by at most a last place of maxQty; with an exact split not past it, iff the max add multiplier, where enabled, is at least 1; reductions total at most what is held |
| Decisions.MaxAddMultiplierHolds | botRuntime.go:718-726 | after the split every placed increase respects the max add multiplier, up to a last place of maxQty and exactly for an exact split, if it is at least 1, and breaks it if it is below |
| Decisions.MaxAddMultiplierOnGrid | botRuntime.go:718-726 | on a grid of quantities wider than that place it respects it iff it is at least 1 |
| Decisions.ReductionFits | botRuntime.go:836-841 | a reduction of a position in whole steps orders at most what is held |
| Decisions.OneCoinMaxPercentHolds | botRuntime.go:804-825 | after the split every placed increase respects the cap on one coin, as the code computes it, up to the worth of a last place of maxQty and the rounding of two quotients, and exactly for an exact split |
| Decisions.CapRefusesIffPriced | botRuntime.go:804-810 | the cap can refuse an increase iff the price was answered |
| Decisions.UnpricedIncreasePlaced | botRuntime.go:746-829 | a Buy increase whose price was not answered is placed whatever the cap, iff add prevention is off |
| Decisions.UnpricedCanPass | botRuntime.go:804-829 | an increase that passes a cap of zero |
| Decisions.ChangeCanPlace | botRuntime.go:713-829 | the premises of the three statements above can hold together |
| Tracking.StepDeviation | botRuntime.go:713-741 | a followed CHANGE, increase or decrease, ends within one minimum or one step, or a last place of maxQty if that is more, of the quantity that keeps the proportion |
| Tracking.ProportionalDrift | botRuntime.go:713-856 | over any run of CHANGE updates that no guard cuts, filled or too small, the bot's proportion of the trader drifts by at most that bound times the sum of 1/trader_i |
| BotRuntime.DropIgnoredRemoves | botRuntime.go:155-172 | un-ignoring a list without duplicates removes the symbol and makes no duplicates |
| BotRuntime.DropIgnoredMembers | botRuntime.go:155-172 | un-ignoring leaves every other symbol ignored |
| BotRuntime.IgnoreRoundTrip | botRuntime.go:143-172 | ignoring and then un-ignoring a symbol restores the list |
| BotRuntime.Bot.IsIgnored | botRuntime.go:175-182 | finds a symbol iff it is on the list |
| BotRuntime.Bot.Ignore | botRuntime.go:143-152 | appends the symbol unless it is there |
| BotRuntime.Bot.UnIgnore | botRuntime.go:155-172 | removes the first occurrence and keeps the order |
| BotRuntime.Bot.Open | botRuntime.go:292-525 | the orders and new state of an open, over all refusals and failures |
| BotRuntime.Bot.OnOpen | botManagement.go:283-295 | a bot that did not open ignores the symbol, at once or, when preparing the trade failed, later |
| BotRuntime.OpenSubmits | botRuntime.go:430-525 | an open sends the split of its sized quantity iff no check refuses it and the leverage is accepted, counts as submitted iff an order got status 200 and the position is reported, and then tracks that position under its key and changes nothing else |
| BotRuntime.OpenIgnoresIff | botManagement.go:34-295 | an OPEN adds its symbol to the ignored ones iff it was not submitted, or leaves that to a goroutine iff preparing it failed |
| BotRuntime.Bot.CountFilled | botRuntime.go:482-492 | an open counts iff some order got status 200 |
| BotRuntime.OpenOrdersStraddled | botRuntime.go:451-480 | the orders of an open are on the bot's effective side, do not reduce, and carry exactly the limits whose setting is not -1, each its percent of the market price away from it on its own side and, for non-negative percents, straddling the rounded price |
| BotRuntime.Bot.OnClose | botRuntime.go:534-618 | the orders of a close and the new state: an ignored symbol is only taken off the list, a failure ignores it, a submitted close leaves the removal to a goroutine |
| BotRuntime.CloseToggles | botManagement.go:301-330 | over a CLOSE a symbol goes off the ignore list if it was on it, and on it iff it was not and the settings could not be read; no other symbol moves; one removal is to come iff orders went out |
| BotRuntime.CloseEmptiesPosition | botRuntime.go:575-586 | a close orders the opposite side, only reducing and without limits, and leaves less than one minimum or one step of the position |
| BotRuntime.CloseIsExact | botRuntime.go:575-586 | a position in whole steps is never oversold, and sold completely iff its remainder is not dropped or nothing |
| BotRuntime.Bot.OnChange | botRuntime.go:659-856 | the orders of a change and the new state: the re-read position is written back, or a zero position if it was removed meanwhile |
| BotRuntime.ChangeOrdersMoveToTarget | botRuntime.go:713-841 | an increase orders the bot's side, a decrease the other, only reducing and without limits, both the distance to the proportional, or cut, target up to one minimum or one step |
| BotRuntime.ChangeSendsIff | botRuntime.go:659-841 | a CHANGE sends orders iff the symbol is not ignored, the position is tracked, the target is a minimum quantity away, and a decrease is not switched off or an increase passes its guards |
| BotRuntime.ChangeWrites | botRuntime.go:844-853 | it then writes the reported quantity and entry over the position, keeping symbol, side, leverage and limits, or over a zero position if that was removed meanwhile; without orders or report nothing changes, and no other position ever does |
| BotRuntime.Bot.CheckManualChanges | botRuntime.go:976-1020 | positions the exchange lacks are dropped, each leaving an ignore to be done; the others take over what it reports |
| BotRuntime.ManualCheckKeeps | botRuntime.go:976-1020 | a manual check keeps exactly the tracked positions still reported, with the quantity, entry and limits reported and their own symbol, side and leverage, and leaves one ignore to be done for each position dropped |
| BotStartup.HandleTraderBotDifferences | botStartup.go:87-138 | positions both have are joined; a symbol is ignored iff it was, or exactly one party has it open; no duplicates arise |
| BotStartup.JoinTraders | botStartup.go:101-120 | the first loop joins exactly the effective-side intersection, with the user's values |
| BotStartup.IgnoreUserOnly | botStartup.go:122-135 | the second loop, in any map order, ignores exactly the symbols only the user has |
| BotStartup.StartBot | botStartup.go:21-49 | an empty bot ends in the state the partition is about |
| BotStartup.StartupPartition | botStartup.go:101-137 | every symbol open at either party is tracked or ignored, never both, and no other symbol is either |
| BotStartup.JoinedExactly | botStartup.go:101-120 | the user's positions tracked at the start are those on the bot's side of a position of the trader in the same symbol, unchanged |
| Coverage.StepKeepsIffClean | botManagement.go:283-340 | any step of poll, dispatch, panicking handler, late removal, late ignore or manual check keeps the coverage invariant iff it is neither an open of a key whose removal is outstanding nor a panicking OPEN of one not securely covered |
| Coverage.RunCovered | botRuntime.go:534-636 | once a bot was added without missing anything, over every run without such steps, whatever the answers, unanswered prices included, and the delays, each position of the trader is tracked, ignored or about to be ignored |
| Coverage.FreeRunCovered | botRuntime.go:292-525 | the same under a guard checked before each open: no removal of its key is outstanding, or its symbol is ignored, the latter where it panics |
| Coverage.UncleanOpenUncovers | botRuntime.go:621-636 | after such an open the outstanding removal, when it runs, leaves the position uncovered |
| Coverage.PanicUncovers | botManagement.go:34-42 | a panicking OPEN of an uncovered key leaves it uncovered |
| Coverage.RunKeepsInv | botManagement.go:254-340 | the invariant over whole runs |
| Coverage.ManualKeeps | botRuntime.go:976-1020 | a manual check never uncovers a position |
| CoverageGap.CoverageCanFail | botRuntime.go:621-636 | a run from a regular start after which a held position is neither tracked nor ignored |
| CoverageStart.CoveredAtStart | botStartup.go:317-328 | a bot just started covers a position iff it was in the snapshot read, or exactly one party had its symbol open then |
| CoverageStart.AddKeepsIffSeen | botStartup.go:317-328 | adding the bot begins the coverage invariant iff every position the trader holds and is not about to close was so seen |
| CoverageStart.NoOpenAllSeen | monitor.go:294-345 | it was, if no OPEN was dispatched between the read and the add, whatever was polled, changed and closed |
| CoverageStart.RunCoveredFromRead | monitor.go:384-412 | coverage over whole runs that begin before the read, with polls and dispatches before it, between it and the add, and after |
| CoverageStart.StartCanMiss | botStartup.go:318-328 | a position opened between the read and the add is neither tracked nor ignored |
| Orphans.StepTidyIff | botManagement.go:301-330 | a step leaves no tracked position that the trader does not hold and nothing will remove, iff it is no CLOSE of a tracked position that fails to go out while none is outstanding |
| Orphans.CloseRemoves | botRuntime.go:540-618 | a CLOSE leads to the removal of the position it found iff the symbol is not ignored, closing is enabled, settings and symbol data are there, it can be split, and it is tracked under its own key |
| Orphans.RunTracksOnlyHeld | botRuntime.go:534-636 | over every run without such steps the bot tracks only what the trader holds or what is about to be removed |
| LaunchCache.LaunchingMonitorsCache.Lookup | classes/launchingMonitorsCache.go:30-44 | makes an entry iff the trader has none |
| LaunchCache.LaunchingMonitorsCache.Append | classes/launchingMonitorsCache.go:46-53 | queues a new channel and returns its position |
| LaunchCache.LaunchingMonitorsCache.Clear | classes/launchingMonitorsCache.go:61-66 | the elected waiter empties the list and nothing else; `LaunchProgress.StepKeepsWaiting` needs it to |
| LaunchCache.LaunchingMonitorsCache.Finish | classes/launchingMonitorsCache.go:89-91 | only a success removes the entry |
| LaunchCache.FinishStartStep | classes/launchingMonitorsCache.go:72-83 | a call of Finished keeps the invariant iff its caller is launching, or nobody holds the launch, or it fails and nobody waits |
| LaunchCache.StepKeepsIffSafe | classes/launchingMonitorsCache.go:30-92 | any step of lookup, append, send, clear and finish keeps the one-launcher invariant iff it is no harmful call of Finished out of place |
| LaunchCache.MutualExclusion | classes/launchingMonitorsCache.go:30-92 | in every interleaving no two threads launch the same trader |
| LaunchCache.PairedExclusion | classes/launchingMonitorsCache.go:30-92 | in particular where each Finished is called by a thread whose Wait returned false |
| LaunchCache.WaiterKnowsItsPosition | classes/launchingMonitorsCache.go:49-51 | the receiver of channel i of an entry recorded position i in that entry |
| LaunchCache.WaitTrueMeansLaunched | classes/launchingMonitorsCache.go:56-59 | Wait returns true only on a success sent for the same trader |
| LaunchCache.HeadIsElected | classes/launchingMonitorsCache.go:85-87 | whoever a failing send loop elects was waiting at the head of the list when the loop began |
| LaunchCache.FinishedHandsOver | classes/launchingMonitorsCache.go:73-92 | however interleaved, a failed launch passes to the waiter that headed the queue when Finished began, who is then its only holder, if there was one, else to nobody; a successful one leaves nobody launching |
| LaunchProgress.StepKeepsWaiting | classes/launchingMonitorsCache.go:30-92 | every step keeps that, while a thread launches, each channel queued on its entry has a thread waiting on it; for the elected waiter, because it emptied the list |
| LaunchProgress.LaunchersAreWaitedFor | classes/launchingMonitorsCache.go:46-66 | so in every interleaving of safe calls, by position: the i-th channel of a launching trader's entry has a thread waiting on it that recorded position i |
| LaunchProgress.FinishedNeverStuck | classes/launchingMonitorsCache.go:85-92 | at any point of a launcher's Finished, whatever interleaves, either the next send has its receiver or all are sent and the call can end |
| LaunchProgress.FinishedCanEnd | classes/launchingMonitorsCache.go:85-92 | left alone from there it ends, after one send for each channel left |
| LaunchProgress.ReceiverGoesOn | classes/launchingMonitorsCache.go:55-69 | what is received by position: a success returns true, the failure sent first elects, any other sends back to look again |
| LaunchProgress.WaitEnds | classes/launchingMonitorsCache.go:30-69 | Wait ends only with false, for the elected or whoever finds no entry, or with true on a success |
| LaunchCache.UnwaitedFailureStrands | classes/launchingMonitorsCache.go:85-91 | after a failed launch nobody waited for, no later run launches that trader |
| LaunchCache.StrandedForever | classes/launchingMonitorsCache.go:30-44 | an entry without a launcher stays so under paired calls |
| LaunchCache.TwoReportsTwoLaunchers | botStartup.go:296-332 | a run in which the second report of a successful launch makes two threads launch |
| Payments.FirstAnswer | payments.go:284-304 | the retry loop's answer is one it got, and none only if all failed |
| Payments.FirstAnswerIsFirst | payments.go:284-304 | it is the first that is not an error |
| Payments.PaymentsHdlr.TryClaimTx | payments.go:265-336 | claims iff the id is unclaimed and the first answer of three tries is pending; otherwise nothing changes |
| Payments.PaymentsHdlr.CheckPaymentSuccess | payments.go:107-162 | the polling loop ends as the specification does, of which `Payments.ConfirmationExact` says what that is |
| Payments.ConfirmationExact | payments.go:107-162 | the wait times out iff no tick finds the transaction mined; else the first that does decides: received iff its recipient is our wallet, and then eth * 10^18 is its wei |
| Payments.PaymentsHdlr.VerifyPayment | payments.go:194-260 | the entry ends as a success or with the error of the verdict |
| Payments.PaymentsHdlr.Judge | payments.go:213-256 | the early returns, in order, give the verdict |
| Payments.PaymentsHdlr.OnCheckPaymentStatus | handlersPayments.go:155-193 | the status served, and removal iff it was terminal and the user's own |
| Payments.VerdictExact | payments.go:213-256 | a payment is good iff it was received, price and plan could be read, and its ether times the price is at least 95% of the expected amount |
| Payments.VerifiedShape | payments.go:194-260 | VerifyPayment leaves a terminal entry for the id with the ether received, a success or the error of the verdict, and no other entry changed |
| Payments.StatusExact | handlersPayments.go:155-193 | the status is untracked, another user's, pending, success or the stored error by the entry alone, and a terminal one of one's own is gone afterwards |
| Payments.StatusShape | handlersPayments.go:155-193 | a status request removes at most the user's own terminal entry and changes no other |
| Payments.StepKeeps | handlersPayments.go:55-86 | every step of mining, claiming, confirming, verifying, storing, polling and restarting keeps the invariant |
| Payments.CreditedOnce | handlersPayments.go:55-86 | over every run by any users a transaction id is credited at most once, and only when its transaction is mined, went to our wallet, and was worth at least 95% of what the plan cost at the price read |
| Payments.ConfirmedOnChain | payments.go:113-142 | what a truthful chain lets the wait receive is what reached our wallet |
| Payments.SuccessOnChain | payments.go:194-260 | over every run an entry that is a success names the ether its transaction brought to our wallet |
| Payments.TransactionCreditedOnce | payments.go:28-30 | over all runs no transaction is credited twice iff each is written in one way only |
| Payments.TwoTextsTwoCredits | payments.go:113 | for any two texts read as one hash, a run that credits both |
| Payments.VerifiersAndEntries | payments.go:194-336 | a running verifier has the one pending entry of its id, its user's, and is its only verifier; every pending entry has one |
| Payments.SuccessReportedOnce | handlersPayments.go:170-193 | once a success was reported the id is untracked for everyone in every later run |
| Ledger.UserBalance.CheckAndReduceCpytBalance | db/access.go:216-252 | reduces iff the database answers, a row exists and has at least the balance, and then leaves no less than nothing; else reports what remains or what failed |
| Ledger.UserBalance.AddBackToCpytBal | db/access.go:256-271 | adds to the row, if there is one |
| Ledger.AttemptExact | botStartup.go:212-288 | a start runs iff the balance could be read, the database answered, the row had it to the full, the monitor is ready and the positions are good; and exactly when it ends in each other way |
| Ledger.UserBalance.StartBot | botStartup.go:212-337 | the balance stays reduced, by what was read last, iff the bot runs or a refund fails; every other exit, database errors included, restores it, also when a repair made it try again with a balance read anew |
| Ledger.StepConserves | botStartup.go:222-288 | every step that writes no new row and credits nothing twice keeps remaining + handed out = the plan's maximum |
| Ledger.SoleLookKeeps | botStartup.go:439-474 | no balance is credited twice as long as no stop looks a bot up that another has looked up and not yet removed |
| Ledger.OrderlyConserves | handlersAdmin.go:88-180 | so does a step that writes one, if nothing was reserved, refunded or credited during a plan change and no row is made from nothing while a bot has balance out |
| LedgerOrder.OrderlyIffSafe | handlersAdmin.go:101-180 | a step keeps to that, and looks no bot up twice, iff every orderly run after it is conserved |
| LedgerOrder.SecondLookBreaks | botStartup.go:439-474 | two look-ups of one running bot can always go on, in order, to a balance that is wrong |
| Ledger.NoOverAllocation | botStartup.go:395-509 | over every run in which nothing is reserved during a plan change, no row is made from nothing while a bot holds balance, and no bot is looked up twice to be stopped, the user never holds more than the plan allows, whatever refunds, credits, losses and key removals come when |
| Ledger.ReserveWithinPlan | db/access.go:222-238 | in such runs a reservation takes effect only if the row has the balance, and leaves what is left not negative and what bots hold within the plan |
| Ledger.StaysCoveredIff | handlersAdmin.go:88-180 | a step of such a run leaves what is left not negative iff it is not the insert of a plan that allows less than was in bots when the change read it |
| Ledger.BotsWithinPlan | botStartup.go:395-509 | so over every such run without such an insert nothing goes below zero and what bots hold, reserved and returning included, is within the plan |
| Ledger.ShortByLost | botStartup.go:395-509 | over every orderly run the user is short of the plan's maximum by exactly what was lost |
| Ledger.RunConserves | botRuntime.go:945-956 | conservation over whole orderly runs, key removals included |
| Ledger.PlanChangeOffBy | handlersAdmin.go:88-180 | whatever interleaves, a plan change is off by what the handed-out amount grew by since its read |
| Ledger.ReserveDuringChange | handlersAdmin.go:101-174 | a start between the read and the delete leaves the user with that much too much |
| Ledger.MissingPlanThenChange | handlersAdmin.go:133-157 | a change to a missing plan, then one to a real plan, hands out the whole plan again |
| Ledger.RepairRestores | botStartup.go:578-605 | a repair that writes restores conservation from any state with nothing under way |
| BalanceRepair.Locate | botStartup.go:532-546 | the bots that are active, by trader |
| BalanceRepair.Gather | botStartup.go:549-576 | in any map order, the balances of exactly the active bots, or nothing iff one is unknown |
| BalanceRepair.AddUp | botStartup.go:578-582 | their sum in any map order |
| BalanceRepair.FixCopyTradingBalance | botStartup.go:512-637 | writes the plan's maximum less what active bots hold iff the difference is over 0.1%; not found, division by zero and failed write otherwise |
| BalanceRepair.CollectedSum | botStartup.go:549-582 | the sum over the map is the sum over the active rows |
| BalanceRepair.SumPermuted | botStartup.go:578-582 | the order of summation does not matter |
| BalanceRepair.RepairIsLedgerStep | botStartup.go:584-605 | what the repair writes is what the ledger's repair step writes |
| BalanceRepair.UnrepairedIsClose | botStartup.go:591-593 | what is left alone is within 0.1% up to the quotient's rounding, and what is within 0.1% is left alone |
| Instances.InstanceTable.WriteRecord | db/access.go:152-175 | an insert fails iff the database does or the id exists |
| Instances.InstanceTable.CreateInstances | payments.go:65-74 | the insert loop of a first payment, up to the first failure |
| Instances.InstanceTable.SetNumInstances | handlersAdmin.go:196-236 | the resulting table and status for any table, number, failing read and failing write |
| Instances.InstanceTable.DeleteInstances | handlersAdmin.go:240-268 | the descending delete loop, up to the first failure |
| Instances.NumSetResizes | handlersAdmin.go:196-268 | 1..k becomes 1..max(n, 0), or stops at the id reached when a write fails; surviving ids keep their settings and the status says which |
| Instances.CreatedAtFirst | payments.go:65-74 | a user without rows gets 1..allowed, or as many as were written |
| Instances.CreatedAgain | payments.go:65-74 | a user with rows keeps them unchanged |
| Instances.RunContiguous | handlersAdmin.go:196-268 | over any run of payments, resizes, edits and wipes the ids have no gap |
| Proxies.Proxies.Length | classes/proxies.go:13-18 | counts what is available |
| Proxies.Proxies.NextGroup | classes/proxies.go:20-33 | hands out the front of what is available iff there is enough, as a slice of the pool's own array |
| Proxies.Proxies.Append | classes/proxies.go:35-40 | Go's append: what was available, then the group; in place while the capacity lasts, and cells before the end untouched |
| Proxies.Proxies.AppendBehind | classes/proxies.go:35-40 | it overwrites no cell of a group that is out |
| Proxies.Proxies.ReturnGroup | classes/proxies.go:35-40 | the group's proxies come back, the other groups stay as they are, apart and intact |
| Proxies.Proxies.CreateNewMonitor | monitor.go:197-229 | whatever is served between the length check and the hand-out, no proxy is lost; a monitor gets a group iff there were enough at both moments and it starts, and one that fails to start leaves the pool with the same proxies, rotated |
| Proxies.Proxies.HandOutOrReturn | monitor.go:211-222 | the hand-out, whose failure is not looked at, and the return of the group of a monitor that fails to start |
| Proxies.Proxies.Serve | classes/proxies.go:20-40 | over any run of requests what is available and what each group holds are as the queue of `Proxies.Served` has it; available plus outstanding is a constant multiset and groups that are out are apart and intact |
| Proxies.TakenAndReturned | classes/proxies.go:20-40 | a group taken and given back has gone from the front of the queue to its end, and nothing else moved |
| Proxies.ServedConserves | classes/proxies.go:20-40 | that queue loses and doubles no proxy |
| Proxies.NextConserves | classes/proxies.go:20-33 | handing out a group conserves the proxies |
| Proxies.ReturnConserves | classes/proxies.go:35-40 | so does taking it back |

## Left out

- Decisions.OpenSizing: carries the rounding slack of three quotients, because without it the bound is false (`Decisions.SizingCanExceed`); `Decisions.OpenSizingOnGrid` gives the exact bound from a condition on the amounts.
- Coverage.RunCovered: asks for one trader position per symbol and a fixed inverse mode; the ignore list is per symbol, so traders hedged in one symbol are outside it. `CoverageStart.RunCoveredFromRead` asks for the same. Symbol data are consistent where a handler uses them; one that has none panics, which is a step of its own.
- Ledger.NoOverAllocation: the plan table is taken as fixed; plans edited while users are on them are not modelled.
- Ledger.UserBalance.StartBot: the activity statuses it sets are not modelled.
- LedgerOrder.OrderlyIffSafe: stated for positive balances, since a balance of zero moves nothing, and, for a second look-up of a bot, for users who have a row or are being given one.
- Liveness of waiters in the launch cache: those dropped when the elected one clears the list, or queued on an entry that is gone, may block for ever. What is proved is that a launcher's `Finished` always has its receivers (`LaunchProgress.FinishedNeverStuck`), not that the scheduler runs them.
- The path of `startBot` on which `Wait` returns true: the monitor is not read again there (botStartup.go:290-319).
- The launch cache and payments as whole calls: the classes hold the critical sections and the state machines interleave them; goroutines, mutexes and channels are not objects of the model.
- Proxies at the level of monitors: `addClients` and `recoverClients` do not update a monitor's own list, so conservation is stated for the pool.
- Restarts through `launchMultipleBots`, renewal-driven `WipeUser`, and a repair interleaved with pending credits or status writes.
- Data races on the ignore list, which the source changes from several goroutines without a lock: each change is one step.
- A crash of the process when a transaction has no recipient (payments.go:136).
- HTTP, Discord, JWT, Ethereum, exchange clients, Postgres, encryption and JSON: their answers are parameters.
- Floating point: quantities that the source holds in float64 (trader quantities, prices, amounts received) are reals, so the rounding of the quotient of new and old quantity is not modelled; `IntPart`'s truncation to 64 bits is not either.
- Logs, notifications, PnL and message formatting, bot logs, the round-robin of clients, settings queries and renewal scheduling.
