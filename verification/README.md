# Verified model of the multi-agent factory

A Dafny model of the four parts of the factory simulator whose behaviour is hard to see from any one
function, and of its MQTT topic matching, with proofs of what holds over all inputs and all runs.

* **Line and runtime** (`Numbers`, `Options`, `Machines`, `Environment`, `FactoryRuntime`, `RuntimeEffects`,
  and `Scenario`, `ManufacturingEnv` for the scenario side). A run is any sequence of environment turns, random events and applied plans, on a line
  of any length. Flow and finished goods are conserved, shifts follow a calendar, and the reported OEE is
  the reported quality in every reachable state.
* **Message broker** (`Messages`, `BrokerSpec`, `BrokerTheorems`, `BrokerRefinement`, `Broker`). `BrokerSpec` is the
  abstract state and its operations; `BrokerTheorems` proves what every run keeps; `BrokerRefinement` relates it to a
  publish/subscribe service with its own routing rules; `Broker` is the object with its queues, log and
  envelopes, each method proved to be one of the abstract operations.
* **Contract-net decisions** (`CnpSession`, `Comparison`, `Evaluation`, `Ranking`, `ScoreLaws`, `Strategy`,
  `Planning`, `NegotiationLaws`): normalise, score, rank, build a plan by rules or by solver and language model,
  clamp, and run rounds.
* **Sliding windows** (`Statistics`, `Sensors`, `SensorLaws`, `Quality`, `SpcLaws`): least squares, run rules, and
  trimmed histories.
* **Topic filters** (`MqttTopics`), against sections 4.7.1 and 4.7.2 of MQTT Version 3.1.1.

Conventions: floats are exact reals and `round(x, 4)` rounds half to even on the exact value; random draws,
clocks, the language model's reply and other agents' answers are inputs quantified over; a missing or raising
call is an `Option` or a case of a datatype. Objects the program updates in place are classes; each method's
postcondition ties the new state to a function of the old one, and the lemmas are about that function.

Where the documentation and the code disagree, the code is modelled:

* `ARCHITECTURE.md` line 664 defines OEE as availability times performance times quality. The code clips
  and reports each factor separately, and its unclipped availability times performance is always 1; downtime
  is in neither (`OeeFormulaOnEveryRun`, `HalfSpeedReportsFullOee`, `DowntimeDoesNotReachOee`).
* The broker's header (`mas/messaging/broker.py` line 20) says at-least-once. A unicast to a full queue is
  lost without a dead letter, a retried delivery never reaches the inbox, and a failed acknowledgement is still
  counted (`SecondMessageIsLost`, `FullUnicastVanishes`, `FullQueueBreaksRefinement`, `AckWindow`).
* `fulfilled` on a demand order tracks what was requested from the warehouse, not what was shipped
  (`FulfilmentClosedForm`, `FulfilledIsShippedWhenCovered`, `EmptyWarehouseFulfils`).
* A negotiation that raises leaves the in-progress flag set, and no round ever starts again
  (`FlagMeansARoundRaised`, `OneRaiseLocksOut`).
* A proposal is evaluated when it is collected and again when it is ranked, and the two scores can differ: a 0
  that hid an alias gives way to it the second time (`ScoredAxesSurvive`, `CollectedScoreMoves`).
* The solver path knows two inspection modes; full inspection becomes `standard` there
  (`FullInspectionBecomesStandard`, `ApprovalAgreement`).

## Model

| member | source | states |
|---|---|---|
| Machines.PassKeepsCounts | mas/domain/environment.py:307-360 | one pass keeps good + defect = total_cycles if and only if the station was not in SETUP, which run_cycle does not skip |
| Machines.VisitKeepsOk | mas/domain/machines.py:254-292 | a processed product adds exactly one cycle and one verdict and keeps the station invariant (speed range, planned and run time, recorded history) |
| Machines.EventsKeepOk | mas/domain/machines.py:294-314 | breakdowns, repairs and speeds up to 100 keep the station invariant and touch no counter |
| Machines.CycleTimeAtSpeed | mas/domain/machines.py:277-278 | cycle time times speed is 100 times the nominal cycle time at every speed from 40, and 2.5 times the nominal one below |
| Machines.SpeedIsHeldToLimits | mas/domain/machines.py:313-314 | a speed from 40 to 110 is set as asked, any other becomes the limit it passed, and nothing else moves |
| Machines.AvailabilityTimesPerformance | mas/domain/machines.py:323-343 | the two unclipped factors of OEE multiply to exactly 1, at every speed history |
| Machines.OeeIsQuality | mas/domain/machines.py:323-343 | in every state meeting the invariant the rounded OEE is the rounded quality, availability reads 1, and all ratios are in 0..1 |
| Machines.OeeFormulaAgreement | ARCHITECTURE.md:664-664 | on the factors clipped at 1, before rounding, the product of the three is the clipped product if and only if run time equals planned time, or the station has worked and produced nothing good |
| Machines.DowntimeDoesNotReachOee | mas/domain/machines.py:294-343 | a breakdown of any length and its repair leave the whole OEE report unchanged |
| Machines.WorkCenter.constructor | mas/domain/machines.py:213-250 | a new work center is the initial abstract station |
| Machines.WorkCenter.ExecuteCycle | mas/domain/machines.py:254-286 | the object's whole new state is one executed cycle of the abstract station, nothing in a blocked state |
| Machines.WorkCenter.RecordQuality | mas/domain/machines.py:288-292 | exactly one of the two verdict counters moves, nothing else |
| Machines.WorkCenter.TriggerBreakdown | mas/domain/machines.py:294-300 | state, downtime and failure count of a breakdown, nothing else |
| Machines.WorkCenter.CompleteRepair | mas/domain/machines.py:302-303 | a repair changes the state only |
| Machines.WorkCenter.SetSpeed | mas/domain/machines.py:313-314 | the speed is set with its floor of 40 and no ceiling |
| Numbers.Round4Bounds | mas/domain/machines.py:338-343 | rounding to four places keeps a ratio in 0..1 |
| Numbers.Round4Monotone | mas/agents/planning_sub/proposal_evaluator.py:48-56 | rounding to four places never reverses an order, which carries score order through rounding |
| Numbers.Round4IsNearest | mas/agents/planning_sub/proposal_evaluator.py:52-56 | rounding moves a score by at most half a unit of the fourth place, and twice is once |
| Numbers.RoundHalfEvenIsNearest | mas/domain/machines.py:338-343 | the rounded value is a nearest one, and the even one of two |
| Numbers.TruncateTowardZero | mas/agents/planning_agent.py:234-234 | truncation goes toward zero by less than one |
| Environment.AdvanceFollowsClosedForm | mas/domain/environment.py:84-91 | the counters kept by repeated advance are the closed form n div 320, its residue mod 3 and (n mod 320) div 40 |
| Environment.ShiftManager.Advance | mas/domain/environment.py:84-91 | the nested in-place counters are one step of the abstract calendar |
| Environment.ShippedConserves | mas/domain/environment.py:410-417 | shipping moves units from stock to orders without loss, below no zero, beyond no ordered quantity, for every draw |
| Environment.ServedInListOrder | mas/domain/environment.py:410-417 | order k gets its draw cut to its need and to what is left after the orders before it, and nothing before the start moves |
| Environment.ShippedGreedily | mas/domain/environment.py:410-417 | at its turn an order gets its whole draw, unless that completes it or empties the stock first; a complete order gets nothing |
| Environment.RoundEmptiesOrServes | mas/domain/environment.py:410-417 | a shipping round leaves stock only if every order is complete or got its whole draw |
| Environment.FinishedProductIsShipped | mas/domain/environment.py:362-375 | after a finished product either the stock is empty or every order is complete or got its whole draw |
| Environment.Factory.ProcessShipments | mas/domain/environment.py:410-417 | the loop over order objects is that shipping function |
| Environment.Factory.VisitStation | mas/domain/environment.py:313-327 | one station works and has its verdict recorded, every other station is untouched |
| Environment.Factory.PassDownLine | mas/domain/environment.py:307-360 | the loop with its two early breaks ends in the station states, counters and product status of the recursive line pass |
| Environment.Factory.StoreFinished | mas/domain/environment.py:362-375 | a product that passed is counted, stocked, and shipping runs |
| Environment.Factory.StartCycle | mas/domain/environment.py:274-306 | cycle number and shift advance, nothing else |
| Environment.Factory.RunCycle | mas/domain/environment.py:274-387 | the whole object after a cycle is the abstract cycle, and the returned status is how the product left the line |
| FactoryRuntime.LinePassBalances | mas/domain/environment.py:307-360 | a product entering a line in balance leaves it in balance, as one more hold, one more defect or one more finished unit |
| FactoryRuntime.RunKeepsInvariant | mas/runtime/factory_runtime.py:131-274 | station, flow, stock and shift invariants hold after every run of turns, events and plans |
| FactoryRuntime.FlowConservation | mas/domain/environment.py:307-375 | after every run: started = produced + scrapped + reworked + held; each station received its predecessor's good output less its holds; the last station's good output is production; defects are scrap + rework |
| FactoryRuntime.CountersCountOutcomes | mas/domain/environment.py:307-375 | after every run each counter is the number of cycles whose product left with that status, and the four add up to the cycles |
| FactoryRuntime.FinishedGoodsConservation | mas/domain/environment.py:362-417 | after every run: produced = in stock + delivered, stock not negative, no order overdelivered |
| FactoryRuntime.OeeOnEveryRun | mas/runtime/factory_runtime.py:131-347 | after every run every station reports OEE = quality, availability 1, speed in 40..100, planned <= run time <= 2.5 planned, and is never in SETUP |
| FactoryRuntime.OnTimeAtFullSpeed | mas/domain/machines.py:277-280 | after every run a station's run time equals its planned time if and only if no cycle of the run was worked at a speed below 100 |
| FactoryRuntime.OeeFormulaOnEveryRun | ARCHITECTURE.md:664-664 | after every run the documented OEE formula holds of a station, on clipped factors, if and only if it never worked below full speed or has worked and produced nothing good |
| FactoryRuntime.HalfSpeedReportsFullOee | mas/domain/machines.py:323-343 | a run of two steps on a new factory after which the reported factors multiply to 0.5 and the reported OEE is 1 |
| FactoryRuntime.ShiftCalendar | mas/domain/environment.py:84-91 | after every run shift changes, shift and hour are functions of the cycle number alone |
| RuntimeEffects.NothingIsProducedWhileDown | mas/domain/environment.py:308-311 | until a repair draw succeeds at a station that is down, no run of turns, events and plans produces anything or works that station |
| RuntimeEffects.BreakdownTakesEffect | mas/runtime/factory_runtime.py:215-222 | a breakdown event is recorded on a running station, stops the line until repaired, and changes nothing on a station that is not running |
| RuntimeEffects.HealthyLineProduces | mas/domain/environment.py:307-375 | with nothing down and good verdicts a turn works every station once, leaves it running, and finishes one unit |
| RuntimeEffects.RepairTakesEffect | mas/runtime/factory_runtime.py:187-189 | a repair draw that succeeds turns a broken-down station to warm-up and changes nothing else of it |
| RuntimeEffects.RejectionIsDrawn | mas/domain/environment.py:339-350 | a product is rejected at a station whose verdict is bad, is a defect there, and goes to rework or scrap as drawn |
| RuntimeEffects.NewLineIsUp | mas/domain/machines.py:213-250 | a new line is up, at full speed, and reports ones |
| RuntimeEffects.RecoveryTakesEffect | mas/runtime/factory_runtime.py:261-268 | a speed recovery adds the whole draw or reaches 100, and slows nothing |
| RuntimeEffects.PlanTakesEffect | mas/runtime/factory_runtime.py:341-346 | a plan puts the whole line on the speed asked for, held to 40..100 |
| RuntimeEffects.OrdersArePlaced | mas/runtime/factory_runtime.py:224-235 | after every run the order list is the initial one followed by the orders placed, in order, with their quantities |
| RuntimeEffects.RunTimeIsWorkTime | mas/domain/machines.py:277-281 | after every run a station's run time is the sum over its cycles of design time times 100 over the speed of that cycle |
| RuntimeEffects.FailuresAreCounted | mas/domain/machines.py:294-300 | after every run the failure count is the number of breakdown events that found the station running |
| FactoryRuntime.Runtime.EnvTurn | mas/runtime/factory_runtime.py:131-177 | one turn of the environment loop on the objects is one tick of the state machine |
| FactoryRuntime.Runtime.ApplyDynamics | mas/runtime/factory_runtime.py:187-189 | exactly the broken-down stations with a successful draw are repaired |
| FactoryRuntime.Runtime.OnBreakdown | mas/runtime/factory_runtime.py:215-222 | only a running station breaks down, every other station and all orders are untouched |
| FactoryRuntime.Runtime.OnNewOrder | mas/runtime/factory_runtime.py:224-235 | one undelivered order is appended, stations and other orders are untouched |
| FactoryRuntime.Runtime.OnSpeedRecovery | mas/runtime/factory_runtime.py:261-268 | a speed below 100 rises by the draw, capped at 100 |
| FactoryRuntime.Runtime.ApplyPlan | mas/runtime/factory_runtime.py:341-346 | every station, and nothing else, gets the clamped target speed |
| CnpSession.ClampSpeed | mas/protocol/cnp_session.py:78-93 | a speed within the session's limits 40..100 is kept, and any other becomes the limit it passed |
| BrokerRefinement.BrokerRefinesPubSub | mas/messaging/broker.py:209-330 | each agent's taken and queued messages, and its inbox history, are exactly the messages addressed to it, in publication order, its consumer having taken the first so many and its inbox holding what came since it was last emptied, after every prefix of a run, if and only if in the run no put meets a full queue and no agent registers with an unread inbox or after it was sent anything; the service's routing is stated on its own |
| BrokerRefinement.RegisteringSubscribes | mas/messaging/broker.py:217-225 | registering adds the agent to a topic exactly when the topic is BROADCAST, ALERTS or CNP, is asked for, or is the agent's own, and changes no other subscription |
| BrokerRefinement.TravelsOnOneTopic | mas/messaging/broker.py:53-82 | a message travels on the topic its publisher names, or else on the one that carries its intent |
| BrokerRefinement.EveryCallArrives | mas/agents/planning_agent.py:190-211 | on every run without full queues an agent that registered and has not unsubscribed from CNP gets, in queue and inbox, every call for proposals that somebody else sends to ALL |
| BrokerRefinement.ConsumptionRefines | mas/messaging/broker.py:311-330 | taking from the queue is reading on in the mail, oldest first |
| BrokerRefinement.StepRefines | mas/messaging/broker.py:209-341 | each broker operation is simulated by its step of the unbounded service if and only if it is undisturbed in that sense |
| BrokerTheorems.DeliverAllIsFanout | mas/messaging/broker.py:252-255 | without a concurrent consumer a broadcast's result is a function of the set of targets, not of the order they are walked in |
| BrokerTheorems.RefusalsCounted | mas/messaging/broker.py:293-307 | retry counts and dead letters after a walk depend on the set of full targets only, not on the order of the walk or on what is consumed meanwhile |
| BrokerTheorems.FullQueueAccounting | mas/messaging/broker.py:277-307 | a publication meeting f full queues ends with retry_count f, adds exactly max(0, f - 2) copies to the dead-letter queue and its total, reaches each other target once and no inbox of a full one, in every order and whatever is consumed meanwhile |
| BrokerTheorems.FullQueuesStayFull | mas/messaging/broker.py:277-307 | if no agent with a full queue consumes meanwhile, total_delivered grows by the number of the other targets and the full queues stay as they were |
| BrokerTheorems.FullUnicastVanishes | mas/messaging/broker.py:256-307 | a unicast to a full queue reaches no inbox and no dead-letter queue, whatever is consumed during the retry; it enters the queue if and only if the consumer made room |
| BrokerRefinement.FullQueueBreaksRefinement | mas/messaging/broker.py:20-20 | a publication that meets a full queue breaks the refinement for every consumer, because the retry tells no inbox |
| BrokerRefinement.SecondMessageIsLost | mas/messaging/broker.py:20-20 | a run of three operations from a new broker after which a message is in no queue, no inbox and no dead-letter queue, and was taken by nobody |
| BrokerTheorems.DeliveryAccounting | mas/messaging/broker.py:277-330 | on every run total_delivered = taken + queued + lost to a second registration, and inbox deliveries are total_delivered less the retried ones |
| BrokerTheorems.QueuesAreBounded | mas/messaging/broker.py:209-213 | on every run a positive bound is kept and a queue is full exactly when it holds that many; with a bound of 0 or less no queue is ever full |
| BrokerTheorems.LogLengthBounds | mas/messaging/broker.py:244-248 | the halving log holds between min(published, 1000) and 2000 envelopes, as an explicit function of the number published |
| BrokerTheorems.LoggedStaysSuffix | mas/messaging/broker.py:244-248 | logging keeps the log the exact suffix of all publications, halving included |
| BrokerTheorems.AckWindow | mas/messaging/broker.py:332-341 | an acknowledgement succeeds if and only if an unacknowledged envelope of that id is among the last 200 publications; it marks the latest one only; total_acked grows in either case |
| Broker.MessageBroker.constructor | mas/messaging/broker.py:193-205 | a new object is the empty abstract broker |
| Broker.MessageBroker.Register | mas/messaging/broker.py:209-225 | registration replaces the queue and subscribes to the default topics |
| Broker.MessageBroker.Subscribe | mas/messaging/broker.py:227-229 | one subscriber more on one topic, nothing else |
| Broker.MessageBroker.Unsubscribe | mas/messaging/broker.py:231-233 | one subscriber fewer on one topic, nothing else |
| Broker.MessageBroker.Publish | mas/messaging/broker.py:237-271 | the whole object after a publication is the abstract publication for some order of the targets |
| Broker.MessageBroker.Broadcast | mas/messaging/broker.py:252-255 | the loop over the subscriber set delivers to each target once, in the order it reports |
| Broker.MessageBroker.Enqueue | mas/messaging/broker.py:277-307 | put, refusal, retry and dead letter on the objects are the abstract delivery |
| Broker.MessageBroker.Refuse | mas/messaging/broker.py:293-307 | a refused put is counted on the envelope and then retried or dead-lettered by that count |
| Broker.MessageBroker.Retry | mas/messaging/broker.py:295-303 | the second put, after any number of concurrent gets, counts a delivery but reaches no inbox |
| Broker.MessageBroker.LogEnvelope | mas/messaging/broker.py:244-248 | append, halve when over 2000, count |
| Broker.MessageBroker.DeadLetterTrimming | mas/messaging/broker.py:259-263 | the dead-letter append of publish trims, unlike the one of the retry path |
| Broker.MessageBroker.Consume | mas/messaging/broker.py:311-318 | takes the oldest envelope of a known agent's queue, else nothing |
| Broker.MessageBroker.ConsumeAll | mas/messaging/broker.py:320-330 | takes the whole queue, oldest first |
| Broker.MessageBroker.FindUnacked | mas/messaging/broker.py:335-338 | the reverse scan finds the latest unacknowledged match in the window, if any |
| Broker.MessageBroker.Acknowledge | mas/messaging/broker.py:332-341 | the object after an acknowledgement is the abstract one; the answer says whether there was a match |
| Broker.MessageBroker.PopInboxOf | mas/agents/base_agent.py:119-123 | a registered agent's inbox is handed out and emptied, and only that one |
| Broker.Agent.ReceiveMessage | mas/agents/base_agent.py:115-117 | the inbox keeps arrival order |
| Broker.Agent.PopInbox | mas/agents/base_agent.py:119-123 | the whole inbox is returned and emptied |
| Statistics.LeastSquares | mas/domain/machines.py:175-185 | no line has a smaller squared error on the window than the one through the mean point with the computed slope |
| Statistics.DenominatorClosedForm | mas/domain/machines.py:181-185 | the slope's denominator is n (n^2 - 1) / 12, positive from two readings on |
| Statistics.AffineSlope | mas/domain/machines.py:175-185 | a window on a line has exactly the line's coefficient as slope |
| Statistics.IncreasingSlope | mas/domain/machines.py:175-185 | a strictly increasing window has a positive slope |
| Sensors.HistoryIsSuffix | mas/domain/machines.py:151-153 | after any stream of readings, shocks and recoveries the kept history is the exact suffix of everything read |
| Sensors.SensorMemoryUnobservable | mas/domain/machines.py:168-193 | moving average, slope and deviation on the kept history are those on everything ever read |
| Sensors.ReadingsStayInBand | mas/domain/machines.py:118-150 | a reading never leaves a band that holds the baseline and all targets, and the warm-up factor stays in 0.7..1 |
| Sensors.RealisticSensor.Read | mas/domain/machines.py:118-166 | drift, warm-up, value and history after a reading, the value reported to three places, and the status the two thresholds give |
| Sensors.RealisticSensor.InjectShock | mas/domain/machines.py:195-196 | a shock moves the drift only |
| Sensors.RealisticSensor.Recover | mas/domain/machines.py:198-199 | recovery lowers the drift, not below zero |
| Sensors.RealisticSensor.ResetDrift | mas/domain/machines.py:201-202 | a reset clears the drift only |
| SensorLaws.TargetMoves | mas/domain/machines.py:132-143 | what each condition adds to the target: 0.01 per degree, 0.3 per unit of wear, half the noise per unit of shift factor, drift and innovation in full |
| SensorLaws.TargetIsApproached | mas/domain/machines.py:145-148 | under a constant target the distance to it is multiplied by the autocorrelation at every reading |
| SensorLaws.DriftIsLinear | mas/domain/machines.py:125-125 | after n readings the drift has grown n times |
| SensorLaws.WarmupIsLinear | mas/domain/machines.py:127-130 | after n readings the warm-up factor is down 0.05 n, to no less than 0.7, or up 0.02 n, to no more than 1 |
| SensorLaws.QuietSensorReadsBaseline | mas/domain/machines.py:92-150 | a new sensor without drift under neutral conditions reads its baseline for ever |
| SensorLaws.RecoveryUndoesShock | mas/domain/machines.py:195-202 | recovering by the size of a shock undoes it, and a reset is a recovery by the whole drift |
| SensorLaws.StatusFollowsThresholds | mas/domain/machines.py:155-159 | a reading is CRITICAL if and only if it reaches the critical threshold, and WARNING if and only if it reaches the warning one only |
| SensorLaws.StatisticsReadTheirWindows | mas/domain/machines.py:168-193 | the moving average reads ten values, the slope ten and at least five, the deviation twenty and at least three |
| Quality.RunRulesShiftInvariant | mas/agents/quality_agent.py:302-326 | adding a constant to all data changes no run rule |
| Quality.RunRulesNegationInvariant | mas/agents/quality_agent.py:302-326 | negating all data changes no run rule |
| Quality.ChebyshevBound | mas/agents/quality_agent.py:308-324 | with nonzero variance, four times the count of recent points beyond two sigma is below the window's length |
| Quality.TrimmedIsSuffix | mas/agents/quality_agent.py:82-92 | after any stream the kept measurements are the last 200 and the kept Cpk values the last 50 of the untrimmed ones |
| Quality.QualityMemoryUnobservable | mas/agents/quality_agent.py:270-326 | the report from trimmed histories names the Cpk and the run rules of the whole stream and the trend of all its Cpk values |
| Quality.CpksOfPrefixes | mas/agents/quality_agent.py:86-92 | the Cpk history is the Cpk of every prefix of the stream |
| SpcLaws.RunRulesAreThoseThatHold | mas/agents/quality_agent.py:302-326 | each run rule is reported if and only if it holds of the last seven, last seven and last nine readings, given nine readings and a deviation of at least 0.0001; each once, in order |
| SpcLaws.NineRisingReadings | mas/agents/quality_agent.py:314-320 | the readings 1 to 9 are reported as six in one direction and as nothing else |
| SpcLaws.CpkLevel | mas/agents/quality_agent.py:270-284 | a Cpk of at least L means, and is meant by, limits clear of the mean by 3 L deviations, and no level above 2 with a limit missing |
| SpcLaws.CpkOfTooLittle | mas/agents/quality_agent.py:270-280 | too few readings or too little deviation report 2 |
| SpcLaws.TrendComparesHalves | mas/agents/quality_agent.py:286-300 | of the last ten values the newer half's mean is below, or above, the older's by more than 0.1 if and only if the trend is falling, or rising |
| SpcLaws.ShortTrendsAreStable | mas/agents/quality_agent.py:286-289 | fewer than five values are stable |
| Quality.QualityAgent.Observe | mas/agents/quality_agent.py:82-98 | one value appended and trimmed on its own channel, other channels untouched, and the report computed from it |
| Quality.KeptIsSuffix | mas/agents/equipment_sub/anomaly.py:8-13 | after any stream of trim_history calls the trend is the exact suffix of the stream, or all of it for a bound of 0 |
| Quality.AnomalyMemoryUnobservable | mas/agents/equipment_sub/anomaly.py:8-40 | after any stream the anomaly score on the kept trend is the score on everything recorded, for every bound that keeps ten values, and it lies in 0..1 |
| Quality.ShorterTrendsScoreLower | mas/agents/equipment_sub/anomaly.py:16-40 | a stream on which every smaller bound changes the score |
| SpcLaws.AnomalyIsDeviationPlusRises | mas/agents/equipment_sub/anomaly.py:16-40 | below 1 the score is 0.2 per deviation from the average plus 0.2 for six or 0.4 for eight rises among the last ten values, and it is 1 if and only if that sum reaches 1 |
| Quality.TrendStore.TrimHistory | mas/agents/equipment_sub/anomaly.py:8-13 | one key's history appended and cut to its last maxlen values, all of them when maxlen is 0 |
| Comparison.NormalizeTwice | mas/protocol/cnp_comparison.py:26-71 | normalising is idempotent if and only if each aliased axis that came out 0 also reads 0 from the metrics' aliases alone |
| Comparison.NumericProposalsNormalizeOnce | mas/protocol/cnp_comparison.py:26-71 | numbers everywhere and only standard keys in the incoming comparison are enough for that |
| Comparison.AliasInComparisonIsLost | mas/protocol/cnp_comparison.py:65-71 | a proposal with an alias of 0 inside its comparison block normalises differently the second time |
| Comparison.TextZeroTurnsIntoDefault | mas/protocol/cnp_comparison.py:34-62 | a proposal with the text "0" as metric normalises differently the second time |
| ScoreLaws.AxesOfSoleMetric | mas/protocol/cnp_comparison.py:34-62 | a dictionary with one number sets the axis that number is for, under its standard name or an alias, and leaves the others at their defaults |
| ScoreLaws.StandardKeyWins | mas/protocol/cnp_comparison.py:47-60 | a number other than 0 under the standard key hides the aliases |
| ScoreLaws.ZeroGivesWayTextDoesNot | mas/protocol/cnp_comparison.py:34-62 | a 0 gives way to an alias, and text that is no number becomes the default |
| ScoreLaws.ComparisonOverrides | mas/protocol/cnp_comparison.py:28-32 | the comparison block overrides the metrics key by key |
| ScoreLaws.FirstNamedCandidate | mas/protocol/cnp_comparison.py:41-46 | the candidate is the first non-empty of candidate action, text and action |
| Evaluation.ScoreAgainstConstraints | mas/agents/planning_sub/constraint_evaluator.py:6-27 | the accumulated penalty is a function of the notes and the violation, and the notes name the limits the speed crosses |
| Evaluation.EvaluateTwice | mas/agents/planning_sub/proposal_evaluator.py:16-57 | the whole record of a second evaluation is that of the first if and only if normalising is idempotent on the proposal |
| Evaluation.ScoredAxesSurvive | mas/agents/planning_sub/proposal_evaluator.py:29-45 | a second evaluation scores the same axes if and only if each aliased axis that came out 0 reads 0 or its default off the aliases of the metrics alone |
| Evaluation.ScoresSurvive | mas/agents/planning_sub/proposal_evaluator.py:16-57 | then total, comparison, business score, penalty and notes are the same as well |
| Evaluation.ShadowedBenefitResurfaces | mas/agents/planning_sub/proposal_evaluator.py:29-56 | a proposal with the effect as the text "0" over a benefit of 0.9 scores 0.1 at first, 0.38 the second time, and a higher total |
| Evaluation.ZerosKeepTheirScores | mas/agents/planning_sub/proposal_evaluator.py:29-56 | two proposals whose records change on a second evaluation while every score stays |
| Evaluation.NoWorseScoresNoWorse | mas/agents/planning_sub/proposal_evaluator.py:29-56 | componentwise no-worse effective axes give no worse rounded scores |
| Evaluation.PositiveAxesAreEffective | mas/agents/planning_sub/proposal_evaluator.py:29-45 | strictly positive metrics are scored at face value |
| Evaluation.CheaperIsNoWorse | mas/agents/planning_sub/proposal_evaluator.py:29-45 | a lower cost lowers the score if and only if it is 0 and replaces a cost below the default 0.5 |
| Evaluation.StrongerIsNoWorse | mas/agents/planning_sub/proposal_evaluator.py:29-45 | a higher effect lowers the score if and only if it is below 0.5 and replaces a 0 |
| ScoreLaws.KpiWeighs | mas/agents/planning_sub/proposal_evaluator.py:8-29 | raising one KPI by d raises the business score by 0.30 d, 0.25 d, 0.25 d or 0.20 d; a missing KPI counts 0 and any other score nothing |
| ScoreLaws.EqualKpisScoreThemselves | mas/agents/planning_sub/proposal_evaluator.py:8-29 | four equal KPIs are their own business score |
| ScoreLaws.QualityBidScores | mas/agents/quality_agent.py:247-250 | the quality agent's own bid has a business score of 0.655 |
| ScoreLaws.AxesWeigh | mas/agents/planning_sub/proposal_evaluator.py:31-39 | what a unit of effect, confidence, cost and risk adds to the comparison score |
| ScoreLaws.ZeroIsScoredAsDefault | mas/agents/planning_sub/proposal_evaluator.py:31-34 | a 0 axis scores as its default |
| ScoreLaws.PenaltyGrows | mas/agents/planning_sub/constraint_evaluator.py:17-27 | each note adds 0.4 and each unit of violation 0.2 to the penalty, up to 1 |
| ScoreLaws.NotesNameBrokenLimits | mas/agents/planning_sub/constraint_evaluator.py:14-24 | a note is made if and only if the judged speed breaks that limit |
| ScoreLaws.SpeedThatIsJudged | mas/agents/planning_sub/constraint_evaluator.py:14-14 | the recommended speed is judged, else the target, else 100 |
| ScoreLaws.TotalWeighs | mas/agents/planning_sub/proposal_evaluator.py:46-50 | the unrounded total counts 0.40, 0.60 and -0.20 per unit of business score, comparison score and penalty |
| Ranking.RankProposals | mas/agents/planning_sub/proposal_ranker.py:8-27 | the loop and the in-place sort give the stable descending sort of the evaluations |
| Ranking.SortOrder | mas/agents/planning_sub/proposal_ranker.py:19-26 | the order lists each position once, each before those it beats by key or, on equal keys, by arrival |
| Ranking.SortedIsPermutation | mas/agents/planning_sub/proposal_ranker.py:19-26 | ranking loses, adds and changes no proposal |
| Ranking.SortedIsStable | mas/agents/planning_sub/proposal_ranker.py:19-26 | the ranking is descending by the three keys and equal keys keep arrival order |
| ScoreLaws.RankingIsLexicographic | mas/agents/planning_sub/proposal_ranker.py:19-26 | later in the ranking means a lower total, on equal totals a lower comparison score, then a lower business score, then a later arrival |
| Ranking.RankIsRivalCount | mas/agents/planning_sub/proposal_ranker.py:19-26 | a proposal's rank is the number of proposals that beat it |
| Ranking.RaisedKeyMovesUp | mas/agents/planning_sub/proposal_ranker.py:19-26 | raising one sort key never moves its proposal later, ties included |
| Ranking.NoWorseRanksNoLater | mas/agents/planning_sub/proposal_ranker.py:8-27 | a proposal replaced by one no worse on every effective axis is never ranked later, through rounding, ties and stability |
| ScoreLaws.BetterKpiRanksNoLater | mas/agents/planning_sub/proposal_ranker.py:8-27 | raising any KPI of a proposal never moves it later in the ranking |
| Strategy.MergeNumericAndRationale | mas/intelligence/optimization_engine.py:94-117 | the merge loop, whatever order it walks the reply in, is the map-level merge |
| Strategy.RepliesCannotTouchNumbers | mas/intelligence/optimization_engine.py:94-117 | no reply of the language model adds, removes or changes a numeric field |
| Strategy.BestOfRanked | mas/intelligence/optimization_engine.py:23-50 | the solver's re-sort by total score leaves the head of a ranked list where it is |
| Strategy.PathsAgree | mas/agents/planning_agent.py:250-280 | for any proposals and any reply, solver path and rule path choose the same agent, score and clamped speed in 40..100 |
| Strategy.ApprovalAgreement | mas/intelligence/optimization_engine.py:23-50 | the paths agree on whether approval is required if and only if the speed is below 70 or full inspection is not asked for |
| Strategy.ModesAgree | mas/intelligence/optimization_engine.py:23-50 | the solver keeps an inspection mode if and only if it is "standard" or "enhanced" |
| NegotiationLaws.SolverReadsMode | mas/intelligence/optimization_engine.py:37-48 | the solver answers "enhanced" if and only if the mode contains "강화", or "enhanced" in any case, and "standard" otherwise |
| NegotiationLaws.RoundAnswersMode | mas/agents/planning_agent.py:250-280 | a completed round answers "강화" by "enhanced" on the solver path and "강화" on the rule path, "전수" by "standard" and "전수", and asks for approval accordingly |
| NegotiationLaws.FullInspectionIsAskedFor | mas/protocol/cnp_session.py:90-92 | the texts that ask for full inspection |
| NegotiationLaws.WordsArrive | mas/intelligence/optimization_engine.py:94-117 | every entry of a reply but the five decided ones arrives, and what an empty reply or a missing rationale is replaced by |
| NegotiationLaws.DecisionNamesPath | mas/intelligence/llm.py:378-391 | the decision field names the path that was taken |
| NegotiationLaws.RulesReportBestBid | mas/agents/planning_agent.py:255-269 | the rule plan reports the best bid's scores and penalty and the number of bids |
| Strategy.FullInspectionBecomesStandard | mas/agents/planning_agent.py:255-280 | the quality agent's full inspection request asks for approval on the rule path and becomes "standard" on the solver path |
| Planning.CollectProposals | mas/agents/planning_agent.py:213-248 | the loop with its early exit collects the evaluated, speed-limited bids up to the deadline, skipping replies that raise |
| Planning.CollectedSpeeds | mas/agents/planning_agent.py:228-245 | every collected proposal has an integer speed in 40..100, whatever the agents sent |
| NegotiationLaws.SpeedOfBid | mas/agents/planning_agent.py:232-238 | a bid's speed is its recommended one, else its target, cut to an integer and held to the limits, and 100 if there is none or it is no number |
| NegotiationLaws.CollectedBidsDrawNoNote | mas/agents/planning_agent.py:232-246 | no collected bid breaks a speed limit |
| NegotiationLaws.CollectionFollowsReplies | mas/agents/planning_agent.py:219-248 | what one more agent's turn adds to the collection, and that an expired one empties it |
| Planning.RecordsSurviveRanking | mas/agents/planning_agent.py:159-159 | the evaluated records of collection are those of ranking if and only if every collected proposal normalises once |
| Planning.ScoresSurviveRanking | mas/agents/planning_agent.py:159-159 | ranking scores the axes that collection scored if and only if in every collected proposal each aliased axis that came out 0 reads 0 or its default off the metrics' aliases; then all scores and the sort order are those of collection |
| Planning.CollectedScoreMoves | mas/agents/planning_agent.py:239-245 | a collected bid that ranking gives a higher total score than collection did |
| Planning.StrategySpeedInLimits | mas/agents/planning_agent.py:162-185 | the strategy of a completed round carries an integer speed in 40..100 |
| NegotiationLaws.RoundTakesBestBid | mas/agents/planning_agent.py:159-163 | a completed round takes the agent, score and speed of a collected bid that no other beats in total score |
| NegotiationLaws.RoundStartsExactlyWhen | mas/agents/planning_agent.py:78-87 | a round starts if and only if the last one is over 10 cycles back and there is one critical alert, or two high ones, or an OEE below 0.65 with the last round over 30 cycles back |
| NegotiationLaws.CriticalAlertIsAnswered | mas/runtime/factory_runtime.py:320-347 | after any run in which no round raised, a critical alert past the cooldown starts a round |
| Planning.RunsEndCleanly | mas/agents/planning_agent.py:122-188 | after every run of passes the last session is left EVALUATING exactly when a call raised, COMPLETED or TIMEOUT otherwise, and every logged strategy has its speed in 40..100 |
| Planning.RoundSpeedIgnoresTheModel | mas/agents/planning_agent.py:250-280 | a completed round gives the line the same speed with any language model or none |
| Planning.RoundRate | mas/agents/planning_agent.py:81-96 | on every run rounds start at least 11 cycles apart, so 11 times their number is at most the last one's cycle |
| Planning.FlagMeansARoundRaised | mas/runtime/factory_runtime.py:334-347 | between passes the in-progress flag is set if and only if some round of the run raised |
| Planning.RaisingLocksOut | mas/runtime/factory_runtime.py:334-347 | after a round that raised no pass ever changes the planning state again |
| Planning.OneRaiseLocksOut | mas/runtime/factory_runtime.py:334-347 | from a new agent, one critical alert and one raise leave it at one round with no strategy for every continuation of the run |
| Planning.PlanningAgent.Reason | mas/agents/planning_agent.py:64-113 | the counting loop decides the trigger: alerts or a low OEE, and the cooldown |
| Planning.PlanningAgent.InitiateCnp | mas/agents/planning_agent.py:122-188 | counter, last cycle, session state, strategy log and result of a round; unless a call raises, COMPLETED exactly with a strategy and TIMEOUT exactly without |
| Planning.PaRunner.RunPa | mas/runtime/factory_runtime.py:320-352 | one pass on the objects is one pass of the state machine; the speed handed to the line is the strategy's, in 40..100 |
| Scenario.FulfilmentClosedForm | mas/domain/manufacturing_env.py:68-80 | after any run an order's fulfilled amount is min(quantity, batch times shipping cycles since it arrived), whatever the stock, and its status says whether that is nothing, some or all of it |
| Scenario.WarehouseConservation | mas/domain/inventory.py:44-65 | after any run: stock = initial + produced - shipped >= 0, fulfilled = requested = shipped + shortfalls, service level in 0..1 |
| Scenario.ServiceLevelIsShare | mas/domain/inventory.py:61-65 | the service level is the shipped share of what was requested, to four places, and 1 before any request |
| Scenario.BreachesAreCounted | mas/runtime/scenario_runtime.py:121-123 | the breach count is the number of turns that left the warehouse below its safety stock |
| Scenario.RoundWritesRecords | mas/domain/inventory.py:48-60 | a shipping round writes one record for each order that asks for something, in order, splitting its request into shipped and short |
| Scenario.RoundShips | mas/domain/manufacturing_env.py:72-80 | a shipping round requests the sum of the orders' requests and ships exactly that sum or the whole stock, whichever is less |
| Scenario.FulfilledIsShippedWhenCovered | mas/domain/manufacturing_env.py:72-80 | after any run orders' fulfilled amounts are what was shipped if and only if before every shipping round the stock covered the sum of the requests |
| Scenario.EmptyWarehouseFulfils | mas/domain/manufacturing_env.py:72-80 | a run of two steps after which an order of ten counts five as fulfilled and nothing was shipped |
| Scenario.LineOnEveryScenarioRun | mas/runtime/scenario_runtime.py:112-164 | after every scenario run the line's flow is conserved and every station reports OEE = quality, availability 1 and a speed in 40..100 |
| Scenario.UnitsAreCountedTwice | mas/domain/manufacturing_env.py:62-66 | every good unit enters the warehouse and is also delivered to a factory order or taken off factory stock, which is empty between turns |
| Scenario.ServingBalances | mas/domain/manufacturing_env.py:72-80 | a shipping round serves each open order at its turn once and moves requests, shipments and fulfilled amounts in step |
| Scenario.OrderAfterCycle | mas/domain/manufacturing_env.py:68-80 | one more cycle keeps an order on its closed form, on shipping cycles and others |
| Scenario.ScenarioRunOk | mas/runtime/scenario_runtime.py:112-127 | all scenario invariants hold after every run of turns, demand orders and factory events |
| ManufacturingEnv.FinishedGoodsWarehouse.Receive | mas/domain/inventory.py:44-46 | stock rises by the quantity, nothing else |
| ManufacturingEnv.FinishedGoodsWarehouse.Ship | mas/domain/inventory.py:48-60 | ships at most the stock and records the shortfall |
| ManufacturingEnv.DemandOrder.Ship | mas/domain/demand.py:42-49 | fulfilment capped by what is open, and the status it brings |
| ManufacturingEnv.ManufacturingEnvironment.OnGoodFinishedUnit | mas/domain/manufacturing_env.py:62-66 | one unit into the warehouse, one off the factory's stock if there is any |
| ManufacturingEnv.ManufacturingEnvironment.ServeOrder | mas/domain/manufacturing_env.py:72-80 | one order is served and recorded, every other order untouched |
| ManufacturingEnv.ManufacturingEnvironment.ProcessShipments | mas/domain/manufacturing_env.py:68-80 | the loop over a snapshot of open orders is the abstract shipping round, on shipping cycles only |
| ManufacturingEnv.ManufacturingEnvironment.AddDemand | mas/domain/demand.py:85-86 | one open order is appended, the rest untouched |
| ManufacturingEnv.AgentRuntime.EnvTurn | mas/runtime/scenario_runtime.py:112-121 | one turn on factory, warehouse and orders is one turn of the scenario state machine |
| MqttTopics.TopicMatches | mas/messaging/mqtt_bridge.py:206-220 | the index loop with its early returns answers what section 4.7.1 of MQTT 3.1.1 says, for every valid filter and every topic name |
| MqttTopics.BridgeMeetsStandard | mas/messaging/mqtt_bridge.py:206-220 | the same for the function the loop computes, both directions |
| MqttTopics.ScanMeetsStandard | mas/messaging/mqtt_bridge.py:210-220 | from any position reached, the scan decides what is left of the standard's condition |
| MqttTopics.DollarTopics | mas/messaging/mqtt_bridge.py:206-220 | with section 4.7.2 added the bridge differs from the standard if and only if the topic starts with $, the filter with a wildcard, and the levels match |
| MqttTopics.JoinSplit | mas/messaging/mqtt_bridge.py:208-209 | joining the levels of a string restores it |
| MqttTopics.SplitJoin | mas/messaging/mqtt_bridge.py:208-209 | splitting joined levels restores them |

## Left out

- Floating-point rounding: arithmetic is over exact reals, and values are rounded as exact decimals.
- Threads: each turn, event, pass, publication, get and acknowledgement is one atomic step; the unlocked races between the event thread and the cycle are not modelled. Only the gets of a consumer during a retry's sleep are (`drained`).
- Random draws, clocks, identifiers, sleeps and latency values: inputs or absent. Quality verdicts are inputs, so the link from sensors, wear and speed to a verdict is not modelled.
- Environment.Factory.RunCycle: does not model materials, ambient temperature, power, hourly records, the event store, product measurements and defect codes; the WIP buffers are never pushed to.
- Machines.WorkCenter.ExecuteCycle: does not model tool wear, sensors and power, which no counter or OEE figure reads.
- Environment.Factory.VisitStation: does not model sensor readings, the judgement that gives the verdict and the emitted event.
- FactoryRuntime.Runtime.ApplyDynamics: does not model sensor recovery and material replenishment.
- `start_setup` and `complete_setup`: nothing calls them, which is why SETUP is unreachable; `PassKeepsCounts` says what would happen otherwise.
- FactoryRuntime.RunKeepsInvariant: of the event thread, only breakdown, new order and speed recovery touch the modelled state; wear, quality, material and ambient events are absent.
- Broker.MessageBroker.Publish: does not model callbacks, latency metrics and message bodies; an exception inside an agent's `receive_message` is not modelled.
- Broker.MessageBroker.Register: does not model the back references `message_bus` and `broker` it sets on the agent.
- Sensors.RealisticSensor.Read: the distribution of the noise is absent; an infinite threshold is a case of its own.
- Quality.QualityMemoryUnobservable: the square root is an arbitrary function of the variance; the run rules compare squares instead.
- Evaluation.ScoreAgainstConstraints: does not model the wording of the notes.
- Strategy.PathsAgree: does not model a proposal whose speed entry is not an integer, which collection never yields.
- Strategy.ModesAgree: lower-cases ASCII letters only.
- Planning.CollectProposals: entries that are not dictionaries are not modelled; `validate_proposal` has no effect on what is collected.
- Planning.PlanningAgent.InitiateCnp: does not model the call for proposals, the execution of accepted proposals, the decision card and the report, beyond whether one of them raises.
- Planning.PaRunner.RunPa: does not model the decision router and the logging.
- Safety-stock calculation, demand forecasts and scheduled demand events: the safety stock is an input of a scenario turn.
- Agents' reasoning texts, `mas/protocol/contract_net.py`, `AgentExecutor`, the language model client, the HTTP interface and the dashboards.
- MQTT connection, subscription table, quality of service and local delivery.
