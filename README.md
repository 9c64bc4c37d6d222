# Smart traffic intersection: a verified model of the simulation core

`smart_traffic_ai.py` simulates one four-way intersection whose green phases are picked
by a tabular Q-learning controller. This project models the simulation engine of that
file in Dafny:

- the FIFO lanes;
- the intersection with its longest-queue-first service of the two green lanes;
- the sensor that turns queue lengths into a discrete state;
- the greedy choice and the temporal-difference update of the controller;
- the decision loop of `Simulation.run`: observe, choose, arrivals, serve, reward,
  learn, advance the clock.

The random inputs become parameters:

- the arrival counts of each micro-step;
- the uniform draw and the `randrange` index of each decision.

Module layout, one module per class of the source:

- `Vehicles` holds the vehicle record.
- `Lanes` holds class `Lane`, and `FifoReplay` proves FIFO order over any sequence of
  calls.
- `Intersections` holds class `Intersection` and the pure `ServeLanes`/`ServePhase`
  specification of `serve`. It includes a closed form, `GreedySplit`, saying how many
  vehicles each lane gives up.
- `Sensors` holds `Sensor.Disc` and `Sensor.Read`.
- `Learning` holds the table, `Greedy`, `Policy`, `TdUpdate` and class `QLearning`.
- `Simulations` holds class `Simulation` and the ghost specification of a run:
  - `Step` is one decision step and `Episode` is the whole loop, over a `World` made of
    lanes, table, clock, departed vehicles, reward, and the counters into the random
    inputs;
  - `Simulation.Run` is proved equal to `Outcome(Episode(...))`;
  - lemmas about `Episode` cover the clock overshoot, the untouched table when not
    training, and an average wait that is never negative;
  - a lemma about `Step` shows that one decision step conserves vehicles.

Classes are used where the source mutates state in place. Lanes, intersection, table and
the simulation's current intersection are fields, and the methods are specified against
the pure functions.

A note on the default sensor bins `(0,3,6,10,20)`. The comparison in `disc` is `v <= b`,
so a sum of 3 falls in bin 1 and a sum of 4 in bin 2. `DefaultDisc` proves 0, 1, 2, 4
and 5 for the sums 0, 3, 4, 20 and 21.

## Model

| member | source | states |
|---|---|---|
| Lanes.Dequeued | smart_traffic_ai.py:30-33 | An empty lane yields None and is left as it was. A nonempty lane yields its head and keeps the rest in order; the head's departure time becomes t and nothing else about it changes. |
| Lanes.Lane.constructor | smart_traffic_ai.py:27-28 | A new lane has an empty queue. |
| Lanes.Lane.AddVehicle | smart_traffic_ai.py:29 | The queue becomes the old queue with v appended at the tail. |
| Lanes.Lane.RemoveVehicle | smart_traffic_ai.py:30-33 | The returned value and the new queue are exactly `Dequeued` of the old queue at time t. |
| Lanes.FifoReplay | smart_traffic_ai.py:26-34 | For any interleaving of add and remove calls, the lane hands vehicles out in arrival order. None is skipped. Each returned vehicle carries a departure time and is otherwise the vehicle that went in. The lane keeps exactly the ones not yet returned. |
| Intersections.Active | smart_traffic_ai.py:44 | Phase NS serves N and S, and the other phase serves E and W. The two directions differ. |
| Intersections.Capacity | smart_traffic_ai.py:46-47 | The number of rounds `range(int(service_rate*dt))` runs: 0 when the product is negative, otherwise the floor of the product. |
| Intersections.ServeLanes | smart_traffic_ai.py:47-50 | The number of released vehicles is min(cap, sum of the two queue lengths). No vehicle is lost: released plus those left equal those before. Every released vehicle is stamped with t. |
| Intersections.ServeRound | smart_traffic_ai.py:48-50 | One loop round releases the head of the longer active lane, the first-listed one on a tie, and adds it after the vehicles already released. |
| Intersections.ServeSplit | smart_traffic_ai.py:44-50 | Service takes a prefix of each active lane and leaves the rest in place. The prefix sizes follow the closed form: the longer lane is drained to the other's length, then the lanes alternate, first-listed first. The released sequence is an order-preserving merge of the two stamped prefixes. |
| Intersections.ServeSplitCounts | smart_traffic_ai.py:47-50 | The lengths the two lanes keep are their old lengths less the closed-form split. |
| Intersections.ServePhase | smart_traffic_ai.py:43-51 | On four lanes: min(cap, active lengths) vehicles released, all stamped with t. The two inactive lanes are unchanged, and the vehicle total is conserved. |
| Intersections.Arrive | smart_traffic_ai.py:121-122 | Each lane d gains, at its tail, as many vehicles arriving at tt as the counts give for d. The total grows by the counts' total. |
| Intersections.ServePhaseOnTime | smart_traffic_ai.py:43-51 | If every waiting vehicle arrived by t, no released vehicle departs before it arrived, and the lanes left still hold only vehicles arrived by t. |
| Intersections.ServeTwo | smart_traffic_ai.py:47-50 | The `for` loop of `serve` over the two active lanes. The released list and the two new queues are exactly `ServeLanes` of the old queues, with capacity cap and stamp t. |
| Intersections.Intersection.constructor | smart_traffic_ai.py:38-40 | Four distinct fresh lanes, all empty, and the given service rate. |
| Intersections.Intersection.AddVehicle | smart_traffic_ai.py:41 | Lane d gains v at its tail, and the other three lanes are unchanged. |
| Intersections.Intersection.QueueLengths | smart_traffic_ai.py:42 | The entry for each direction is that lane's `QLen`, i.e. the lengths of the current lanes. |
| Intersections.Intersection.Serve | smart_traffic_ai.py:43-51 | The returned list and the new lanes are `ServePhase` of the old lanes, with capacity `Capacity(serviceRate, duration)` and stamp t. Only the two active lanes are in the modifies clause. |
| Sensors.Sensor.Disc | smart_traffic_ai.py:75-78 | The bin lies in [0, len(bins)]. |
| Sensors.DiscScan | smart_traffic_ai.py:75-78 | The bin of v is the least index whose edge is at least v, or len(bins) when v exceeds every edge. |
| Sensors.DiscUnique | smart_traffic_ai.py:75-78 | Those two properties determine the bin: any index having them is it. |
| Sensors.DiscMonotone | smart_traffic_ai.py:75-78 | A larger value never lands in a lower bin. This holds for any edges, and so for ascending ones. |
| Sensors.DefaultDisc | smart_traffic_ai.py:73-78 | With the default edges, the sums 0, 3, 4, 20 and 21 fall in bins 0, 1, 2, 4 and 5. |
| Sensors.Sensor.Read | smart_traffic_ai.py:79-84 | The state holds the bin of N+S and the bin of E+W. The flag is 1 exactly when ns-ew > 3, -1 exactly when ew-ns > 3, and 0 exactly when the difference is within 3 either way. |
| Sensors.ReadSwap | smart_traffic_ai.py:79-84 | Exchanging the N/S and E/W pairs exchanges the two bins and negates the flag. |
| Learning.ArgMax | smart_traffic_ai.py:94 | Python's `max` with a key: an index holding the largest value, with every earlier index strictly smaller. |
| Learning.Greedy | smart_traffic_ai.py:94 | The greedy action is a valid index whose value is the largest, and every lower index has a strictly smaller value. |
| Learning.GreedyUnique | smart_traffic_ai.py:94 | Any index with those properties is the greedy action. |
| Learning.BestValue | smart_traffic_ai.py:97 | The largest value over all actions in a state: an upper bound that some action attains. |
| Learning.Policy | smart_traffic_ai.py:92-94 | A valid action index. A draw below epsilon returns the explored index. Otherwise it returns the lowest action of largest value. |
| Learning.TdUpdate | smart_traffic_ai.py:95-98 | The entry (s, a) becomes cur + alpha*(r + gamma*best - cur), where unseen entries read as 0. Every other entry keeps its value, and only (s, a) may join the keys. |
| Learning.QLearning.constructor | smart_traffic_ai.py:88-91 | The actions and hyperparameters as given, and an empty table. |
| Learning.QLearning.Update | smart_traffic_ai.py:95-98 | The table becomes `TdUpdate` of the old table. Only the table field changes. |
| Simulations.Reward | smart_traffic_ai.py:128 | The step reward is at most 10 per released vehicle, and even. It reaches that bound exactly when no vehicle is left waiting. |
| Simulations.StepReward | smart_traffic_ai.py:126-128 | The step reward, 10 per released vehicle less 2 per vehicle still waiting, equals 12 per released vehicle less 2 per vehicle waiting before service. |
| Simulations.AvgWait | smart_traffic_ai.py:140 | 0 when nothing departed; otherwise the mean times the count is the total wait. |
| Simulations.AvgWaitNonNegative | smart_traffic_ai.py:140 | The mean wait is at least 0 when no vehicle departed before it arrived. |
| Simulations.Decided | smart_traffic_ai.py:113-115 | The decision is a valid action index, and its phase ends at t plus that action's duration. |
| Simulations.ArriveDuring | smart_traffic_ai.py:118-123 | The arrival loop only moves the micro-step counter forward. A phase that is already over adds nothing and leaves the counter as it was. |
| Simulations.Settle | smart_traffic_ai.py:126-130 | After serving the lanes the arrivals left: the clock moves to the end of the phase, the step count grows by one and the micro-step counter is the arrival loop's. The table is unchanged when not training, and departed vehicles stay departed. |
| Simulations.Learn | smart_traffic_ai.py:126-130 | After service: the lanes are what service left and the departed list gains the released vehicles. The clock moves to the end of the phase and the step count grows by one. The total grows by `Reward` of the released count and the lengths left. When training, the table is `TdUpdate` at the observed state, the chosen action, that reward and the state read after service. Otherwise the table is unchanged. |
| Simulations.Step | smart_traffic_ai.py:112-139 | One iteration advances the clock by the chosen duration, between the shortest and the longest action. The table is unchanged when not training, and departed vehicles stay departed. |
| Simulations.ArriveDuringCount | smart_traffic_ai.py:118-123 | The arrival loop adds exactly the vehicles its micro-steps draw, no more and no fewer. |
| Simulations.ArriveDuringOnTime | smart_traffic_ai.py:118-123 | Every vehicle the arrival loop adds arrived by the end of the phase. |
| Simulations.StepConserves | smart_traffic_ai.py:118-127 | Over one decision step, released plus waiting vehicles equal waiting before plus those that arrived during the phase. |
| Simulations.StepOnTime | smart_traffic_ai.py:113-139 | A step keeps a world "on time": no departed vehicle left before it arrived, and every waiting vehicle arrived by the clock. |
| Simulations.Episode | smart_traffic_ai.py:112-139 | The loop ends with the clock at or past maxT. A world already at or past maxT is returned unchanged, and departed vehicles stay departed. |
| Simulations.Overshoot | smart_traffic_ai.py:112-139 | A run started before maxT stops at or after maxT, overshooting by less than the longest action. A run started at or after maxT does nothing. |
| Simulations.EvaluationKeepsTable | smart_traffic_ai.py:130 | With training off, a whole run leaves the controller's table as it was. |
| Simulations.EpisodeOnTime | smart_traffic_ai.py:110-139 | A whole run keeps a world on time. |
| Simulations.Start | smart_traffic_ai.py:111 | A run starts from the given lanes and table, with the clock, step, micro-step and reward at 0 and nothing departed. Its outcome is 0 departed, mean wait 0 and reward 0. It is on time exactly when every waiting vehicle arrived by time 0. |
| Simulations.Outcome | smart_traffic_ai.py:140-141 | The result record holds the number of departed vehicles and the total reward. Its mean wait is 0 when nothing departed. |
| Simulations.RunWaitNonNegative | smart_traffic_ai.py:110-141 | A run from lanes whose vehicles all arrived at time 0 or earlier reports a mean wait of at least 0. |
| Simulations.Simulation.constructor | smart_traffic_ai.py:104-108 | A fresh empty intersection with the given service rate, the default sensor and the given micro-step. |
| Simulations.Simulation.Reset | smart_traffic_ai.py:109 | A fresh, empty, valid intersection with the old service rate. |
| Simulations.Simulation.AdmitLane | smart_traffic_ai.py:122 | Lane d gains m copies of the vehicle at its tail, and the other lanes are unchanged. |
| Simulations.Simulation.Admit | smart_traffic_ai.py:120-122 | The lanes become `Arrive` of the old lanes with the micro-step's counts at time tt. |
| Simulations.Simulation.ArrivePhase | smart_traffic_ai.py:118-123 | The lanes and the micro-step counter become what `ArriveDuring` gives from the old lanes. |
| Simulations.Simulation.Observe | smart_traffic_ai.py:113-115 | The observed state is the sensor's reading of the current lanes, and the decision is `Decided` of the current world. |
| Simulations.Simulation.ServeAndLearn | smart_traffic_ai.py:126-130 | The new lanes, table, departed list and reward are those `Settle` gives for the decision. |
| Simulations.Simulation.Advance | smart_traffic_ai.py:117-130 | After decision d, with the current lanes and table those of world w: the lanes, table, departed list, reward and counters become what `Settle` gives for d once the arrival loop up to d.end has run. |
| Simulations.Simulation.Decide | smart_traffic_ai.py:113-139 | Lanes, table, clock, departed list, reward and counters after one iteration are `Step` of the world before it. |
| Simulations.Simulation.Run | smart_traffic_ai.py:110-141 | The returned record is `Outcome(Episode(...))` from the current lanes and table at clock 0. The lanes and table left behind are the episode's. |

## Left out

- `TrafficGenerator.generate` (smart_traffic_ai.py:53-66) is not part of this model. It samples a Poisson variate with `random.random()` and `math.exp`. The arrival counts of the k-th micro-step are instead the input `arrivals(k)`, and the `gen` field of `Simulation` is absent.
- The random branch of `choose` (smart_traffic_ai.py:93) takes the uniform draw and the `randrange` index of decision j as the inputs `draws(j)` and `picks(j)`. `Fits` states that every index is a valid action.
- The `explain` printing (smart_traffic_ai.py:132-137) and the demo script `main` (smart_traffic_ai.py:146-193) are console output and are not modelled.
- Floating point: times, rates, durations, rewards and Q-values are mathematical reals. Rounding in `avg_wait` and in the Q-value arithmetic is not modelled. When nothing departed, `avg_wait` is the real 0.0 rather than the integer 0.
- Intersections.Capacity and Simulations.ArriveDuring: take the floor and the micro-step sums on exact reals, so they can differ from the source under double rounding. A service rate of 0.29 over a duration of 100 gives `int(0.29*100)` = 28 in Python, where `Capacity` gives 29. With dt = 0.1 over a phase of length 1, the accumulated `tt += dt` falls just below 1.0 after ten steps, so Python runs 11 micro-steps where `ArriveDuring` runs 10. For the values the demo script `main` uses (service rate 0.8, durations 5 and 10, dt 1), every product and sum is exact and the two agree.
- Vehicles are values. The source stamps `depart_time` on a shared object in place. A lane here returns the stamped copy, so aliasing of vehicle objects is not captured.
- Learning.TdUpdate: states the key set of a plain map. Python's `defaultdict` also inserts a 0.0 entry for every key that `choose` and `max` read. That changes no value any read returns, so only the set of stored keys differs.
- The order in which `generate`'s dictionary lists the directions is taken as N, S, E, W. Appends to different lanes commute, so only the order within a lane matters, and the model keeps that order.
- `Phase` has two values. The source treats any phase string other than `"NS"` as E/W.
- `WellFormed` is the configuration callers must supply: a nonempty action list, actions of positive duration and a positive micro-step. With no actions, Python's `max` over an empty range raises an error. With a duration or micro-step that is not positive, `run`'s loops may never end. The model requires `WellFormed` even where the source would return, for instance when `max_t` is at most 0 and the loop body never runs.
- `QLearning.epsilon` is a mutable field, as in the source, where `main` reassigns ε between runs (smart_traffic_ai.py:164, 173, 181). `alpha`, `gamma` and the action list are constants, since the source never reassigns them. `Run` reads ε once through `Configure`, and it changes only the table, so one run sees one ε.
- `Sensor.Read` takes the queue-length counts rather than the intersection. Every caller passes `QueueLengths()`, which is a reads-only function and so cannot change the intersection.
- `Lane.QLen`, `Learning.QValue` and `QLearning.Choose` carry no contract of their own. They are the lane length, the get-or-default read and `Policy` on the current table, and the members above state their properties.
- Default argument values of the constructors and of `run` (service rate 1.0, α 0.1, γ 0.9, ε 0.2, dt 1.0, max_t 120, train on) become ordinary parameters. Only the sensor's default bins are a constant.
- `run` returns a dictionary in the source. Here it returns the record `RunResult(departed, avgWait, reward)`.
