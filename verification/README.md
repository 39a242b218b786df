# Warehouse digital twin — a Dafny model of its core

This project models the decision logic of a warehouse digital twin. In that
system, operators on foot and forklifts pick work orders on a tiled layout.
Everything that happens is written to an event log. The log is replayed in
desktop dashboards and in browser dashboards, and the runs are configured
through a desktop configurator and a web configurator.

The model covers these parts:

- **Grid navigation.** Covers the walkability matrix and its neighbours, and
  A* search, which returns valid paths. It also covers the TMX grid/pixel
  conversions, clamping, bounds checking and nearest-walkable search of the
  coordinate helpers, calibrators and adapters.
- **Simulation.** Covers work orders and their quantity capping, operator
  predicates and id generation, and the dispatcher's lifecycle queues
  (pending, assigned, completed). It also covers the tour builder's
  strategies, route ordering, the assignment cost function and the
  pathfinding fallback/rollback decisions.
- **Replay and synchronisation.** Covers the replay engine's speed ladder,
  its frame tick and its seek-to-time fold over the event log, and the
  replay servers' state and metrics folds. It also covers the dashboard
  communicator's delta detection and batching, and the IPC message tags.
- **Dashboards.** Covers the work-order table models and their
  event-sourcing handlers, the visual state toggles, the replay scrubber,
  and the time, number and progress formatters. It also covers the browser
  controls (play, stop, seek, debounce, stale answers) and table sorting.
- **Configuration.** Covers key sanitisation and validation in both
  configuration managers, and web presets (save, load, default, delete,
  list). It also covers the configurator's validators, name and search
  rules, and the agent-fleet expand/group round trip shared with the
  browser fleet manager.
- **Tooling.** Covers layout generation and loading, texture keyword
  mapping, the optimiser's score and trial parameters, and the analytics
  export bookkeeping.

Each source module is a Dafny module: a datatype per record or class, pure
functions for operations, and methods where the source loops. Each
operation's contract is paired with lemmas that relate it to a reference
definition, an inverse or an invariant. Some things are parameters of the
functions that need them: Python dictionaries and JavaScript objects are
insertion-ordered association lists (`Dicts`), and JSON values are a
datatype with Python's and JavaScript's truthiness (`Json`).

Other things are parameters as well:

- file and workbook contents;
- clocks and time stamps;
- random choices and uuids;
- square roots;
- JavaScript's number formatting;
- the answers of network fetches.

Floating-point numbers are modelled as `real`.

## Model

| member | source | states |
|---|---|---|
| Pathfinder.New | src/subsystems/simulation/pathfinder.py:22-37 | Construction fails exactly for an empty matrix or an empty first row; otherwise width and height are the matrix's. |
| Pathfinder.IsWalkable | src/subsystems/simulation/pathfinder.py:45-63 | A cell is walkable only inside the grid, and there exactly when the matrix marks it walkable. |
| Pathfinder.DirectionMove | src/subsystems/simulation/pathfinder.py:80-91 | Each of the eight directions leads to an adjacent cell at straight cost 1 or diagonal cost sqrt(2). |
| Pathfinder.NeighborsFrom | src/subsystems/simulation/pathfinder.py:93-98 | The remaining directions yield only walkable adjacent cells with their move costs, and every walkable target among them. |
| Pathfinder.Neighbors | src/subsystems/simulation/pathfinder.py:65-100 | At most eight neighbours, each walkable, adjacent and paired with its move cost. |
| Pathfinder.NeighborsComplete | src/subsystems/simulation/pathfinder.py:93-98 | Every walkable cell adjacent to the position is among its neighbours. |
| Pathfinder.Heuristic | src/subsystems/simulation/pathfinder.py:102-120 | The octile distance is non-negative, zero at the goal, and at most the Manhattan distance. |
| Pathfinder.HeuristicSymmetric | src/subsystems/simulation/pathfinder.py:113-120 | The octile distance is symmetric. |
| Pathfinder.ReconstructPath | src/subsystems/simulation/pathfinder.py:122-143 | The reconstructed path ends at the given cell, starts at a cell without parent, and each cell's parent precedes it. |
| Pathfinder.MinIndex | src/subsystems/simulation/pathfinder.py:198 | The popped entry has the least `(f, counter)` in the open list. |
| Pathfinder.Expand | src/subsystems/simulation/pathfinder.py:214-231 | Relaxing the neighbours of the current cell only appends to the open list, sets new parents to the current cell, and keeps the search invariants. |
| Pathfinder.FindPath | src/subsystems/simulation/pathfinder.py:145-235 | `[start]` when start equals goal; None when either end is blocked; any path returned runs from start to goal through adjacent walkable cells. |
| Pathfinder.PopKeepsOpen | src/subsystems/simulation/pathfinder.py:196-202 | Popping an entry keeps every queued cell walkable, scored and reachable from the start. |
| Pathfinder.CloseKeepsParents | src/subsystems/simulation/pathfinder.py:211 | Closing a scored walkable cell keeps every parent link between adjacent walkable cells with a closed parent. |
| Pathfinder.CloseKeepsRank | src/subsystems/simulation/pathfinder.py:211 | Closing a cell keeps every cell closed after its parent, so parent chains end. |
| Pathfinder.ChainIsPath | src/subsystems/simulation/pathfinder.py:205-208 | The parent chain of the goal is a valid path from the start. |
| Warehouse.NewWorkOrder | src/subsystems/simulation/warehouse.py:27-42 | A new work order is pending, with the remaining quantity equal to the initial one, no agent and no times. |
| Warehouse.SkuId | src/subsystems/simulation/warehouse.py:45-47 | The SKU's id, or `N/A` when the work order has no SKU. |
| Warehouse.VolumenRestante | src/subsystems/simulation/warehouse.py:60-62 | The remaining volume is 0 without a SKU or with nothing left, and non-negative for non-negative quantities and volumes. |
| Warehouse.CalcularVolumenRestante | src/subsystems/simulation/warehouse.py:81-83 | Succeeds exactly when the work order has a SKU, with the same remaining volume. |
| Warehouse.WorkGroup | src/subsystems/simulation/warehouse.py:70-79 | Areas containing Ground map to WG_A, else Piso to WG_B, else Rack to WG_C, else WG_A. |
| Warehouse.TotalOrdenes | src/subsystems/simulation/warehouse.py:157 | The configured order total, 300 when absent. |
| Warehouse.DistribucionTipos | src/subsystems/simulation/warehouse.py:158-162 | The configured type distribution, or the default pequeno 60/5, mediano 30/25, grande 10/80 in that order. |
| Warehouse.AddAgentCapacity | src/subsystems/simulation/warehouse.py:194-201 | One agent's pass raises each listed area to at least its capacity, keeping the larger of the two, and leaves other areas alone. |
| Warehouse.CapacitiesUpTo | src/subsystems/simulation/warehouse.py:190-201 | The capacity table never holds a negative value. |
| Warehouse.CapacitiesBound | src/subsystems/simulation/warehouse.py:193-201 | Every area an agent lists is in the table, at no less than that agent's capacity. |
| Warehouse.CapacitiesAttained | src/subsystems/simulation/warehouse.py:193-201 | An area is in the table only if some agent lists it, and its value is 0 or some listing agent's capacity. |
| Warehouse.OperatorCapacitiesIsMax | src/subsystems/simulation/warehouse.py:189-201 | `operator_capacities[area]` is exactly the largest capacity among the agents listing that area (floored at 0), and no other areas appear. |
| Warehouse.MaxOf | src/subsystems/simulation/warehouse.py:204-207 | The maximum of a non-empty list bounds every element and is one of them. |
| Warehouse.MaxOperatorCapacity | src/subsystems/simulation/warehouse.py:203-207 | The largest agent capacity (missing capacities read 0), or 150 when there are no agents. |
| Warehouse.AjustarCantidad | src/subsystems/simulation/warehouse.py:236-276 | The quantity is kept when its volume fits the area's capacity; otherwise it becomes `max(1, capacity // volume)`, which fits when one unit fits and never exceeds the request; a zero volume that does not fit is an error. |
| Warehouse.AjustarAtLeastOne | src/subsystems/simulation/warehouse.py:253-276 | When at least one unit was requested, an adjusted quantity is at least one. |
| Warehouse.DashDigitsInjective | src/subsystems/simulation/warehouse.py:227 | Two ids ending in a dash and different digit strings differ. |
| Warehouse.CatalogSkuIdInjective | src/subsystems/simulation/warehouse.py:227 | SKU ids with different counters differ, whatever the type prefixes. |
| Warehouse.CatalogSkus | src/subsystems/simulation/warehouse.py:223-231 | Five SKUs per remaining type, each numbered from the running counter with its type's unit volume. |
| Warehouse.SkuIds | src/subsystems/simulation/warehouse.py:229 | The catalogue keys are the SKUs' ids, in order. |
| Warehouse.CatalogIdsDistinct | src/subsystems/simulation/warehouse.py:222-231 | Catalogue SKUs numbered 1, 2, … have pairwise distinct ids, so no entry is overwritten. |
| Warehouse.CrearCatalogo | src/subsystems/simulation/warehouse.py:217-231 | Five SKUs per type, numbered from 1 in type order with the type's volume, with distinct ids, each stocked with 1000 units. |
| Warehouse.Stamped | src/subsystems/simulation/warehouse.py:421-425 | `{k1: v1, k2: v2, **datos}`: the data's keys override the two stamped ones. |
| Warehouse.RegistrarEvento | src/subsystems/simulation/warehouse.py:410-436 | Appends exactly one log entry stamped with time and `tipo`, and one replay entry keyed `type` exactly when a replay buffer exists; counters are untouched. |
| Warehouse.IncrementarWorkorders | src/subsystems/simulation/warehouse.py:402-404 | Increments the work-order counter by one and nothing else. |
| Warehouse.IncrementarTareas | src/subsystems/simulation/warehouse.py:406-408 | Increments the task counter by one and nothing else. |
| Operators.NewOperator | src/subsystems/simulation/operators.py:19-65 | A new operator has the given id, kind, capacity, discharge time and priorities, no position or task, status `idle`, empty cargo and no completed tasks. |
| Operators.PriorityFor | src/subsystems/simulation/operators.py:67-77 | The configured priority of the area, or 999 when the area is not listed. |
| Operators.CanHandleIffPriority | src/subsystems/simulation/operators.py:79-89 | When no configured priority is 999, an operator handles an area exactly when its priority for it is not 999. |
| Operators.AddCargo | src/subsystems/simulation/operators.py:103-105 | Adding cargo increases the cargo volume by the amount and changes nothing else. |
| Operators.ClearCargo | src/subsystems/simulation/operators.py:107-109 | Clearing sets the cargo volume to 0 and changes nothing else. |
| Operators.AddCargoWithinCapacity | src/subsystems/simulation/operators.py:91-105 | Loading a volume admitted by `has_capacity_for` never exceeds the capacity, and clearing afterwards undoes it. |
| Operators.AgentIdInjective | src/subsystems/simulation/operators.py:745-769 | Ids `GroundOp-kk` and `Forklift-kk` differ whenever the kind or the number differs. |
| Operators.WellNumberedSnoc | src/subsystems/simulation/operators.py:745-769 | Appending an operator numbered one past the same-kind operators before it keeps the list well numbered. |
| Operators.FromAgentTypes | src/subsystems/simulation/operators.py:738-788 | One idle, empty operator per entry of a known kind, unknown kinds skipped; the k-th operator of a kind is numbered k. The i-th operator takes its kind, capacity, discharge time and priorities from the i-th known entry, with defaults 150, 5 and no priorities. |
| Operators.CountPrefixGrows | src/subsystems/simulation/operators.py:747 | The same-kind count before a later position exceeds the count before an earlier operator of that kind. |
| Operators.WellNumberedUnique | src/subsystems/simulation/operators.py:744-769 | Well-numbered operators never share an id. |
| Operators.LegacyFleet | src/subsystems/simulation/operators.py:693-732 | The legacy fleet is the requested number of ground operators (capacity 150) followed by the requested number of forklifts (capacity 1000), numbered from 1 per kind. |
| Operators.LegacyGroundAreas | src/subsystems/simulation/operators.py:706 | Legacy ground operators handle Area_Ground at priority 1 and Area_Piso_L1 at priority 2. |
| Operators.LegacyForkliftAreas | src/subsystems/simulation/operators.py:725 | Legacy forklifts handle Area_Rack at priority 1. |
| Operators.CrearOperarios | src/subsystems/simulation/operators.py:661-794 | One process per operator, in the same order, with unique ids; an empty `agent_types` builds the legacy fleet (defaults 2 and 1), otherwise one operator per known entry, built from it with defaults 150, 5 and no priorities. |
| Operators.LegacyUnique | src/subsystems/simulation/operators.py:697-717 | The legacy fleet's ids are pairwise distinct. |
| Assignment.PriorityPenalty | src/subsystems/simulation/assignment_calculator.py:127-135 | Priority 999 costs 98,000,000, any other priority above 10 costs 50,000, and priority 10 or below costs nothing. |
| Assignment.Distance | src/subsystems/simulation/assignment_calculator.py:261-294 | The length of a non-empty routed path when the route search finds one, else the Manhattan distance; never negative. |
| Assignment.StartPosition | src/subsystems/simulation/assignment_calculator.py:139-145 | The given position, else the agent's grid position, else (0, 0). |
| Assignment.CalculateCost | src/subsystems/simulation/assignment_calculator.py:96-178 | The score is the agent's priority for the area, the penalty follows it, the distance cost is 100 × distance, and the total is penalty plus distance cost. |
| Assignment.CalculateCostAsWritten | src/subsystems/simulation/assignment_calculator.py:167-169 | As written, every cost calculation raises: its log line reads `operator.tipo`, an attribute no operator has. |
| Assignment.UnroutedCost | src/subsystems/simulation/assignment_calculator.py:147-151 | Without a route the total is the penalty plus 100 × Manhattan distance. |
| Assignment.CompatibleBeatsIncompatible | src/subsystems/simulation/assignment_calculator.py:127-151 | At equal distance below 980,000 cells, an agent with priority at most 10 always costs less than one that cannot handle the area. |
| Assignment.CostLeqIsPreorder | src/subsystems/simulation/assignment_calculator.py:180-209 | Ordering by total cost is a total preorder. |
| Assignment.CostsForCandidates | src/subsystems/simulation/assignment_calculator.py:180-209 | There is one cost per candidate work order. |
| Assignment.CostsForCandidatesSpec | src/subsystems/simulation/assignment_calculator.py:180-209 | The batch result is ascending by total cost and is a permutation of the per-order costs. |
| Assignment.PairsFor | src/subsystems/simulation/assignment_calculator.py:248-253 | An agent is paired with exactly the pending work orders, in order. |
| Assignment.Pairs | src/subsystems/simulation/assignment_calculator.py:243-253 | The pairs visited are exactly the available agents with the pending work orders. |
| Assignment.PairCosts | src/subsystems/simulation/assignment_calculator.py:253 | The cost of each visited pair. |
| Assignment.FirstMin | src/subsystems/simulation/assignment_calculator.py:240-257 | The first position of the least cost: no earlier cost is as small. |
| Assignment.FindBestAssignment | src/subsystems/simulation/assignment_calculator.py:211-259 | None exactly when no available agent and pending work order exist; otherwise the first pair, operator-major, whose cost is minimal over all such pairs, with its cost. |
| Routing.NewRouteCalculator | src/subsystems/simulation/route_calculator.py:21-34 | Construction fails exactly when the pathfinder is missing, and otherwise keeps it. |
| Routing.BySequenceIsPreorder | src/subsystems/simulation/route_calculator.py:207-208 | Ordering by pick sequence is a total preorder. |
| Routing.OrderBySequence | src/subsystems/simulation/route_calculator.py:182-211 | With `preserve_first` the work orders are kept as given; either way their number is unchanged. |
| Routing.ProbeClass | src/subsystems/simulation/route_calculator.py:207-208 | Two work orders tie in the sort exactly when they share a pick sequence. |
| Routing.OrderBySequenceSpec | src/subsystems/simulation/route_calculator.py:182-211 | Otherwise the result is a permutation ascending by pick sequence, and orders sharing a sequence keep their input order, as Python's stable sort does. |
| Routing.StepLengths | src/subsystems/simulation/route_calculator.py:230-241 | One Euclidean step length per consecutive pair of path points. |
| Routing.PathDistance | src/subsystems/simulation/route_calculator.py:213-243 | A path of fewer than two points has length 0. |
| Routing.MoveLengths | src/subsystems/simulation/pathfinder.py:80-91 | The pathfinder's move cost for each step of a path. |
| Routing.PathDistanceIsMoveCost | src/subsystems/simulation/route_calculator.py:213-243 | Along a path of adjacent cells, with an exact square root on 1 and 2, the Euclidean length equals the pathfinder's summed move costs. |
| Routing.AdjacentDist2 | src/subsystems/simulation/pathfinder.py:80-91 | An adjacent step has squared length 2 when diagonal and 1 otherwise. |
| Routing.PathDistanceNonNeg | src/subsystems/simulation/route_calculator.py:213-243 | A path length is never negative when the square root is not. |
| Routing.Volumes | src/subsystems/simulation/route_calculator.py:273-288 | The remaining volume of each work order, in order. |
| Routing.TotalVolume | src/subsystems/simulation/route_calculator.py:273-288 | Fails exactly when some work order has no SKU; otherwise it is the sum of the remaining volumes. |
| Routing.Nearest | src/subsystems/simulation/route_calculator.py:316-320 | The first of the work orders nearest to the current position. |
| Routing.GreedyBy | src/subsystems/simulation/route_calculator.py:290-331 | The greedy order is a permutation of its input. |
| Routing.GreedyNearest | src/subsystems/simulation/route_calculator.py:290-331 | An empty list stays empty. |
| Routing.NearestOfPermutation | src/subsystems/simulation/route_calculator.py:316-320 | A point nearest among some work orders is nearest among any permutation of them. |
| Routing.GreedyClosestFirst | src/subsystems/simulation/route_calculator.py:290-331 | Each stop of the greedy order is a nearest one, from the previous stop, among those not yet visited. |
| Routing.GreedyNearestSpec | src/subsystems/simulation/route_calculator.py:290-331 | `calculate_greedy_nearest_neighbor` returns a permutation of its input in closest-first order by Euclidean distance. |
| Routing.LegsOkSnoc | src/subsystems/simulation/route_calculator.py:111-145 | Appending a valid A* leg to the next stop extends the routed legs by one stop. |
| Routing.LegsOkExtra | src/subsystems/simulation/route_calculator.py:148-156 | Appending the return leg keeps the stops' legs valid. |
| Routing.RouteLegs | src/subsystems/simulation/route_calculator.py:102-145 | One valid A* leg per stop, in order, each with its path distance; it stops at the first stop without a path and reports that stop. |
| Routing.ReturnLeg | src/subsystems/simulation/route_calculator.py:148-160 | The return leg only appends a path and its distance, or only records a missing-return-path error. |
| Routing.RouteOrdered | src/subsystems/simulation/route_calculator.py:99-180 | Success iff every stop was reached; on failure the legs so far, distance 0 and a final no-path error; on success the total is the sum of the leg distances. |
| Routing.CalculateRoute | src/subsystems/simulation/route_calculator.py:37-180 | An empty tour succeeds at the start; a blocked start fails at once; otherwise the tour is routed in pick-sequence order, and a success reports invalid positions exactly when some work order is not walkable. |
| DispatchStrategies.SumVolSnoc | src/subsystems/simulation/dispatcher.py:297 | The running volume of a batch grows by each added order's remaining volume. |
| DispatchStrategies.CompatibleMembers | src/subsystems/simulation/dispatcher.py:286-287 | The compatible candidates are pending orders whose area the agent can handle. |
| DispatchStrategies.Fifo | src/subsystems/simulation/dispatcher.py:275-301 | Of the first `max_wos_por_tour` compatible orders, the longest prefix whose running volume fits the capacity: the next one, if any, would overflow it. |
| DispatchStrategies.MinPriority | src/subsystems/simulation/dispatcher.py:402 | The best priority is one of the candidates' and no candidate has a better one. |
| DispatchStrategies.FiltrarPorAreaPrioridad | src/subsystems/simulation/dispatcher.py:379-411 | No candidates give nothing; otherwise, in order, exactly the candidates whose area has the best priority, and at least one. |
| DispatchStrategies.MinBySequence | src/subsystems/simulation/dispatcher.py:364 | The first candidate of smallest pick sequence. |
| DispatchStrategies.StartCell | src/subsystems/simulation/dispatcher.py:473-477 | The agent's position, else staging location 1, else the default depot (3, 29). |
| DispatchStrategies.SortedByCostSpec | src/subsystems/simulation/dispatcher.py:485 | Sorting by cost is a permutation in ascending cost order. |
| DispatchStrategies.FirstFitting | src/subsystems/simulation/dispatcher.py:488-493 | The first order that fits the capacity, or none when none fits. |
| DispatchStrategies.FirstFittingCheapest | src/subsystems/simulation/dispatcher.py:485-500 | In a cost-ascending list the first fitting order is the cheapest fitting one, and the head is the cheapest overall. |
| DispatchStrategies.EncontrarMejorPrimeraWo | src/subsystems/simulation/dispatcher.py:457-502 | None exactly without candidates; otherwise a candidate that is cheapest among those that fit, or cheapest of all when none fits. |
| DispatchStrategies.EncontrarMejorPrimeraWoAsWritten | src/subsystems/simulation/dispatcher.py:457-502 | As written, it answers (with None) exactly when there are no candidates, and otherwise raises from the cost calculation. |
| DispatchStrategies.Sweep1 | src/subsystems/simulation/dispatcher.py:623-644 | The first sweep adds only orders at or after the start sequence, never exceeds the capacity or the tour size, and adds no duplicates. |
| DispatchStrategies.Sweep2 | src/subsystems/simulation/dispatcher.py:662-693 | The second sweep adds only orders before the start sequence, with the same bounds, and leaves the last first-sweep sequence alone. |
| DispatchStrategies.PresentAreas | src/subsystems/simulation/dispatcher.py:557-561 | Each compatible area present among the candidates, once. |
| DispatchStrategies.OtherAreasSpec | src/subsystems/simulation/dispatcher.py:564-565 | The other areas are the present compatible areas except the first order's, each once, by ascending priority. |
| DispatchStrategies.OrderedAreasSpec | src/subsystems/simulation/dispatcher.py:566 | The area order starts with the first order's area and then lists the other areas once each by priority. |
| DispatchStrategies.AreaWosSorted | src/subsystems/simulation/dispatcher.py:591-604 | An area's sorted orders are unused candidates of that area (of the first order's staging in "Tour Simple"), and adding them creates no duplicates. |
| DispatchStrategies.TourInvKept | src/subsystems/simulation/dispatcher.py:580-712 | Extending the tour with such orders keeps the tour invariant. |
| DispatchStrategies.Sweeps | src/subsystems/simulation/dispatcher.py:610-703 | Both sweeps over an area keep the tour within capacity and size, and add only orders of that area. |
| DispatchStrategies.ProcessArea | src/subsystems/simulation/dispatcher.py:591-712 | Processing one area keeps the tour invariant and adds only that area's orders. |
| DispatchStrategies.ProcessAreas | src/subsystems/simulation/dispatcher.py:580-588 | The loop over areas keeps the invariant, adds only orders of listed areas, and stays within the tour size. |
| DispatchStrategies.ConstruirTourPorSecuencia | src/subsystems/simulation/dispatcher.py:504-727 | Empty without candidates or when the first order alone is too large; otherwise it starts with the first order, stays within capacity and size, adds only compatible candidates, has no duplicates, and keeps one staging in "Tour Simple". |
| DispatchStrategies.GroupMembers | src/subsystems/simulation/dispatcher.py:428-433 | A staging group holds exactly the orders of that staging, without duplicates. |
| DispatchStrategies.StagingIds | src/subsystems/simulation/dispatcher.py:428-433 | Every staging id present, in first-occurrence order. |
| DispatchStrategies.BestGroup | src/subsystems/simulation/dispatcher.py:436-445 | The scan keeps the initial best, or a scanned group that fits with strictly more volume, and no fitting group has more. |
| DispatchStrategies.ChooseStagingGroup | src/subsystems/simulation/dispatcher.py:424-445 | The chosen group is empty or a whole staging group of positive volume within capacity, as large as any group that fits. |
| DispatchStrategies.GroupFacts | src/subsystems/simulation/dispatcher.py:428-433 | The chosen group's orders share its staging and have no duplicates. |
| DispatchStrategies.FiltrarPorStagingUnico | src/subsystems/simulation/dispatcher.py:413-455 | The chosen group cut to `max_wos_por_tour`: orders of the input, all of one staging. |
| DispatchStrategies.ValidarTourSimple | src/subsystems/simulation/dispatcher.py:875-898 | A non-empty tour with one staging passes unchanged; anything else becomes empty. |
| DispatchStrategies.Cercania | src/subsystems/simulation/dispatcher.py:729-758 | FIFO without a position; otherwise a prefix of the compatible orders within the radius, of length `min(2 * max_wos_por_tour, count)`. |
| DispatchStrategies.BatchScan | src/subsystems/simulation/dispatcher.py:797-812 | The selection stays within capacity and size, in cost order, draws only from the candidates, and sets aside only orders too large alone. |
| DispatchStrategies.BatchSetAside | src/subsystems/simulation/dispatcher.py:807-809 | Setting aside an oversized order while nothing is selected keeps those bounds. |
| DispatchStrategies.BatchSkip | src/subsystems/simulation/dispatcher.py:801-812 | Passing over an order that does not fit keeps a non-empty selection and those bounds. |
| DispatchStrategies.BatchAdd | src/subsystems/simulation/dispatcher.py:801-806 | Adding the next fitting order keeps the selection in capacity and cost order. |
| DispatchStrategies.BatchOrderStep | src/subsystems/simulation/dispatcher.py:790-803 | Moving the cheapest remaining order to the end of the batch keeps both lists in cost order. |
| DispatchStrategies.SeleccionarMejorBatch | src/subsystems/simulation/dispatcher.py:760-825 | Nothing without candidates; otherwise a cost-ordered batch within capacity and size, and when nothing fits, every candidate set aside as too large. |
| DispatchStrategies.SeleccionarMejorBatchAsWritten | src/subsystems/simulation/dispatcher.py:760-825 | As written, it answers (with nothing) exactly when there are no candidates, and otherwise raises from the cost calculation. |
| DispatchStrategies.TourFrom | src/subsystems/simulation/dispatcher.py:333-337 | The tour, cut to one staging in "Tour Simple", stays within size and without duplicates, and otherwise starts with the first order within capacity. |
| DispatchStrategies.TourFromPlan | src/subsystems/simulation/dispatcher.py:333-337 | A tour built from a compatible first order holds only compatible pending orders, without repeats, within size. |
| DispatchStrategies.OptimizacionGlobal | src/subsystems/simulation/dispatcher.py:303-339 | Only compatible pending orders, without repeats, within size and capacity; nothing when no pending order is compatible. |
| DispatchStrategies.OptimizacionGlobalAsWritten | src/subsystems/simulation/dispatcher.py:303-339 | As written, it raises exactly when some pending order is compatible with the operator; otherwise it returns the empty plan, as the corrected strategy does. |
| DispatchStrategies.EjecucionPlan | src/subsystems/simulation/dispatcher.py:341-377 | The same guarantees, with the tour starting from the best-priority order of smallest pick sequence. |
| Dispatcher.SettingsFrom | src/subsystems/simulation/dispatcher.py:79-95 | Each of the four settings is the configured value when present and its default otherwise ("Optimizacion Global", "Tour Mixto (Multi-Destino)", 20, 100). |
| Dispatcher.Init | src/subsystems/simulation/dispatcher.py:40-99 | A new dispatcher is well formed, with every queue empty and both counters and the initial total at zero. |
| Dispatcher.PendingWos | src/subsystems/simulation/dispatcher.py:67 | The pending queue's records, in order, each under its own id. |
| Dispatcher.Restamp | src/subsystems/simulation/dispatcher.py:111-114 | After rewriting a batch in place, an id of the batch holds the rewrite of its last listed order and every other id keeps its record. |
| Dispatcher.RestampListed | src/subsystems/simulation/dispatcher.py:111-114 | Each rewritten order is filed under its id; without repeated ids it holds exactly that order's rewrite. |
| Dispatcher.RestampOthers | src/subsystems/simulation/dispatcher.py:111-114 | Ids outside the batch keep their records. |
| Dispatcher.RestampIds | src/subsystems/simulation/dispatcher.py:111-114 | Rewriting keeps every record under its own id. |
| Dispatcher.AgregarWorkOrders | src/subsystems/simulation/dispatcher.py:101-118 | An empty batch changes nothing; otherwise the orders join the master list and the pending queue, and the initial total is fixed by the first non-empty batch. |
| Dispatcher.AgregarStore | src/subsystems/simulation/dispatcher.py:111-114 | Every added order is marked "released" and other records are untouched. |
| Dispatcher.AgregarWf | src/subsystems/simulation/dispatcher.py:101-118 | Adding work orders keeps the dispatcher well formed. |
| Dispatcher.RegistrarOperadorDisponible | src/subsystems/simulation/dispatcher.py:124-132 | The agent is available afterwards; it is appended only when it was not already listed, and the state stays well formed. |
| Dispatcher.RegistrarIdempotent | src/subsystems/simulation/dispatcher.py:124-132 | Registering the same agent twice is the same as once. |
| Dispatcher.Progress | src/subsystems/simulation/dispatcher.py:925 | Progress is 0 without an initial quantity, and between 0 and 100 when the remaining quantity is within the initial one. |
| Dispatcher.LogAssigned | src/subsystems/simulation/dispatcher.py:926-947 | One event per assigned order is appended to the event log, and the counters are untouched. |
| Dispatcher.AppendAssigned | src/subsystems/simulation/dispatcher.py:916-918 | The agent's assigned list grows by the batch; other agents' lists are unchanged. |
| Dispatcher.MarcarAsignados | src/subsystems/simulation/dispatcher.py:900-957 | The queue changes of an assignment, plus one logged event per order. |
| Dispatcher.AsignarQueues | src/subsystems/simulation/dispatcher.py:910-957 | The batch leaves the pending queue and joins the agent's assigned list, the agent becomes active with the batch, and other agents' lists are unchanged. |
| Dispatcher.AsignarStore | src/subsystems/simulation/dispatcher.py:921-923 | Each order of the batch is "assigned" to the agent from now on; other records are untouched. |
| Dispatcher.AsignarAgents | src/subsystems/simulation/dispatcher.py:950-951 | The agent leaves the available list, which stays without duplicates and keeps every other agent. |
| Dispatcher.AsignarWf | src/subsystems/simulation/dispatcher.py:900-957 | An assignment keeps the dispatcher well formed. |
| Dispatcher.IniciarEnColas | src/subsystems/simulation/dispatcher.py:967-971 | The order becomes "in_progress" and is the agent's current order; the queues are unchanged. |
| Dispatcher.NotificarInicioTrabajo | src/subsystems/simulation/dispatcher.py:959-997 | Starting work makes those changes and logs one event. |
| Dispatcher.IniciarWf | src/subsystems/simulation/dispatcher.py:959-997 | Starting a known work order keeps the dispatcher well formed. |
| Dispatcher.Duration | src/subsystems/simulation/dispatcher.py:1058 | The duration is 0 without a start time, and the elapsed time since a non-zero start otherwise. |
| Dispatcher.LogCompleted | src/subsystems/simulation/dispatcher.py:1030-1061 | Two events per completed order are logged and the completed-work-order counter grows by one per order. |
| Dispatcher.RemoveAssigned | src/subsystems/simulation/dispatcher.py:1012-1014 | Only the agent's assigned list shrinks, by the completed orders. |
| Dispatcher.ClearInProgress | src/subsystems/simulation/dispatcher.py:1017-1019 | The agent's current order is cleared exactly when it is among the completed ones. |
| Dispatcher.NotificarCompletado | src/subsystems/simulation/dispatcher.py:999-1074 | Completion makes the queue changes and logs two events per order, counting each as completed. |
| Dispatcher.CompletarSpec | src/subsystems/simulation/dispatcher.py:1007-1068 | The orders join the completed list, leave the agent's assigned list, become "staged" with the end time; the agent stops being active and is available again; pending and master lists are unchanged. |
| Dispatcher.CompletarWf | src/subsystems/simulation/dispatcher.py:999-1074 | Completion keeps the dispatcher well formed. |
| Dispatcher.SimulacionHaTerminado | src/subsystems/simulation/dispatcher.py:1135-1145 | Never finished without work orders; otherwise finished exactly when the completed list is at least as long as the master list. |
| Dispatcher.TerminadoStable | src/subsystems/simulation/dispatcher.py:1135-1145 | Once finished, completing more work keeps the simulation finished. |
| Dispatcher.TerminadoUnderAssignment | src/subsystems/simulation/dispatcher.py:1135-1145 | Assigning work does not change whether the simulation has finished. |
| Dispatcher.ObtenerEstadisticas | src/subsystems/simulation/dispatcher.py:1076-1111 | Each count is the size of its queue; the completion percentage is 0 without work orders, within 0-100 while the completed list fits the master list, and reaches 100 exactly when the simulation has finished. |
| Dispatcher.StrategyFor | src/subsystems/simulation/dispatcher.py:262-273 | Each strategy name selects its strategy, both spellings of the plan strategy select the plan, and any other name selects the global strategy. |
| Dispatcher.NamesRoutedThroughBatch | src/subsystems/simulation/dispatcher.py:209-217 | The accented plan name and unknown names build a plan or global tour but are then re-selected by cost. |
| Dispatcher.DefaultRequestRaisesAsWritten | src/subsystems/simulation/dispatcher.py:252-273 | As written, under the default strategy, or any name that falls back to it, a request raises whenever one pending order is compatible with the operator. |
| Dispatcher.SeleccionarCandidatos | src/subsystems/simulation/dispatcher.py:252-273 | The candidates are compatible pending orders; for the global and plan strategies they are within the tour size, without repeats, and within capacity for a mixed tour. |
| Dispatcher.DescartarSpec | src/subsystems/simulation/dispatcher.py:814-823 | The oversized orders are staged with nothing remaining, move to the completed list and leave the pending queue. |
| Dispatcher.DescartarWf | src/subsystems/simulation/dispatcher.py:814-823 | Discarding oversized orders keeps the dispatcher well formed. |
| Dispatcher.TourStart | src/subsystems/simulation/dispatcher.py:848-852 | The route starts at the agent's position, else staging location 1, else (0, 0). |
| Dispatcher.ConstruirTour | src/subsystems/simulation/dispatcher.py:827-873 | No tour for an empty batch or a mixed-staging "Tour Simple"; a tour is a successful route from a walkable start through the batch in sequence order (as given for the global strategy). |
| Dispatcher.ElegirLote | src/subsystems/simulation/dispatcher.py:190-221 | The batch is compatible pending orders within the tour size, within capacity unless it is a "Tour Simple" plan tour; only the oversized discard changes the state. |
| Dispatcher.SolicitarAsignacion | src/subsystems/simulation/dispatcher.py:136-250 | Nothing happens without pending work; a tour assigns a non-empty routed batch of compatible pending orders to the agent, removes it from pending, and counts one assignment and one tour. |
| LayoutManager.GridToPixel | src/subsystems/simulation/layout_manager.py:162-177 | The pixel lies inside the tile of the given cell (at its centre). |
| LayoutManager.ClampIndex | src/subsystems/simulation/layout_manager.py:194-195 | An index is kept when in range and clamped to the nearest edge otherwise. |
| LayoutManager.PixelToGrid | src/subsystems/simulation/layout_manager.py:179-197 | The cell is always on the grid, and for a pixel on the map it is the tile containing that pixel. |
| LayoutManager.FloorDivUnique | src/subsystems/simulation/layout_manager.py:190-191 | Floor division names the unique tile whose span contains the pixel. |
| LayoutManager.PixelToGridOfGridToPixel | src/subsystems/simulation/layout_manager.py:162-197 | Converting a grid cell to its pixel and back returns the cell. |
| LayoutManager.GridToPixelOfPixelToGrid | src/subsystems/simulation/layout_manager.py:162-197 | Converting a pixel to its cell is stable under a further round trip. |
| LayoutManager.CellAfter | src/subsystems/simulation/layout_manager.py:83-109 | After merging the first n layers a cell is blocked exactly when one of them has a tile there marked not walkable. |
| LayoutManager.BuildCollisionMatrix | src/subsystems/simulation/layout_manager.py:68-120 | The matrix has one row per grid row and one entry per column. |
| LayoutManager.BlockedIffMarked | src/subsystems/simulation/layout_manager.py:97-109 | A cell is blocked in the matrix exactly when some layer marks it not walkable. |
| LayoutManager.IsWalkable | src/subsystems/simulation/layout_manager.py:199-217 | Walkable exactly when the cell is on the grid and no layer blocks it. |
| LayoutManager.Offsets | src/subsystems/simulation/layout_manager.py:257-273 | Four cardinal offsets, plus four diagonals when asked. |
| LayoutManager.WalkableShifts | src/subsystems/simulation/layout_manager.py:276-282 | Exactly the walkable cells among the remaining offsets. |
| LayoutManager.OffsetsExact | src/subsystems/simulation/layout_manager.py:257-273 | The offsets are exactly the unit steps: Manhattan distance one, or also the diagonals. |
| LayoutManager.GetNeighbors | src/subsystems/simulation/layout_manager.py:240-284 | Exactly the walkable cells adjacent to the cell (only cardinal ones without diagonals), at most eight or four. |
| LayoutManager.WalkableCells | src/subsystems/simulation/layout_manager.py:227-232 | Exactly the walkable cells. |
| LayoutManager.RowsFrom | src/subsystems/simulation/layout_manager.py:229-232 | Exactly the walkable cells from a row on. |
| LayoutManager.RowCells | src/subsystems/simulation/layout_manager.py:230-232 | Exactly the walkable cells of one row from a column on. |
| LayoutManager.GetRandomWalkablePoint | src/subsystems/simulation/layout_manager.py:219-238 | None exactly when no cell is walkable; otherwise a walkable cell. |
| LayoutManager.PickRow | src/subsystems/simulation/layout_manager.py:139-158 | The points found in one row are picking tiles of that row, at their tile's pixel. |
| LayoutManager.PickLayer | src/subsystems/simulation/layout_manager.py:138-158 | The points found in a layer are picking tiles on the grid, at their tile's pixel. |
| LayoutManager.PickLayers | src/subsystems/simulation/layout_manager.py:133-158 | The points found in the remaining layers are picking tiles of one of them, on the grid, at their tile's pixel. |
| LayoutManager.ExtractPickingPoints | src/subsystems/simulation/layout_manager.py:122-160 | Every picking point lies on the grid over a "picking_location" tile of some layer, at that tile's pixel. |
| TmxCoords.BoundsOf | tmx_coordinate_system.py:213-231 | The world rectangle starts at the origin and ends one pixel before width × tile width and height × tile height, with 32-pixel tiles by default. |
| TmxCoords.Deactivate | tmx_coordinate_system.py:247-253 | After deactivation TMX mode is off, the legacy bounds apply, and the visual settings are kept. |
| TmxCoords.GetBounds | tmx_coordinate_system.py:259-264 | The layout's bounds while TMX is active, the legacy 1900 × 900 rectangle otherwise. |
| TmxCoords.IsPointValid | tmx_coordinate_system.py:266-271 | A point is valid exactly when it lies in the current bounds, edges included. |
| TmxCoords.ClampTo | tmx_coordinate_system.py:277-278 | The clamped value lies in the range and is unchanged when already inside. |
| TmxCoords.ClampPoint | tmx_coordinate_system.py:273-283 | The clamped point is valid (for ordered bounds), and a valid point is unchanged. |
| TmxCoords.ClampIdempotent | tmx_coordinate_system.py:273-283 | Clamping twice is the same as clamping once. |
| TmxCoords.BoundsOrdered | tmx_coordinate_system.py:213-231 | The current bounds are ordered for a layout of at least one tile. |
| TmxCoords.PixelToGrid | tmx_coordinate_system.py:285-298 | None exactly while TMX is inactive; otherwise a cell on the grid. |
| TmxCoords.PixelToGridInside | tmx_coordinate_system.py:285-298 | Inside the world rectangle the cell is the tile that holds the pixel. |
| TmxCoords.GridToPixel | tmx_coordinate_system.py:300-309 | None exactly while TMX is inactive; otherwise a pixel inside the cell's tile. |
| TmxCoords.GridPixelRoundTrip | tmx_coordinate_system.py:285-309 | A grid cell survives the trip to its centre pixel and back. |
| TmxCoords.CentreTile | tmx_coordinate_system.py:291-296 | A pixel inside tile g converts back to g. |
| TmxCoords.GetNavigationMatrix | tmx_coordinate_system.py:339-343 | The active layout's navigation matrix, and nothing while TMX is inactive. |
| TmxCoords.IsGridCellWalkable | tmx_coordinate_system.py:345-357 | Walkable without a matrix; outside the first row's width or the row count not walkable; otherwise the entry is 1; an index error exactly when the row is shorter than the first. |
| TmxCoords.WalkableRectangular | tmx_coordinate_system.py:345-357 | On a rectangular matrix the lookup never fails. |
| TmxCoords.IsPixelWalkable | tmx_coordinate_system.py:359-368 | An invalid pixel is not walkable, a valid one is walkable without a layout, and otherwise its cell decides. |
| TmxCoords.GetSafeStartingPosition | tmx_coordinate_system.py:311-337 | A valid point: a clamped parking point when the layout has one, else (100, 100) in from the corner. |
| TmxCoords.ActivateInv | tmx_coordinate_system.py:197-245 | Activating a layout whose tile sizes are positive keeps the coordinate state invariant: a loaded layout has bounds, and the bounds have positive tile sizes. |
| TmxCoords.Activate | tmx_coordinate_system.py:197-245 | The scale and offsets are taken from the visual configuration, with defaults 1.0, 0 and 0, exactly when activation succeeds with a layout and a non-empty configuration. Otherwise they are kept. |
| TmxCoords.ActivateSpec | tmx_coordinate_system.py:197-245 | Activation fails, changing nothing, exactly for a WH1 layout whose manual parse failed. Otherwise TMX is on with the layout (the parsed one for WH1) and bounds derived from its size. The scale and offsets change only with a layout and a non-empty visual configuration, to its entries or the defaults 1.0, 0 and 0. |
| TmxCoords.EmptyVisualKeepsSettings | tmx_coordinate_system.py:233-237 | An empty visual configuration activates TMX mode and keeps the previous scale and offsets. |
| TmxCoords.LastWithId | tmx_coordinate_system.py:104-106 | The last tileset entry whose 1-based id is k, or -1. |
| TmxCoords.TileMap | tmx_coordinate_system.py:104-106 | The map holds each 1-based id of the tileset, bound to its last entry. |
| TmxCoords.TileMapCovers | tmx_coordinate_system.py:104-106 | Every tileset entry's 1-based id is in the map. |
| TmxCoords.NavValue | tmx_coordinate_system.py:117-121 | 1 exactly for a mapped walkable tile, 0 otherwise. |
| TmxCoords.NavMatrix | tmx_coordinate_system.py:109-124 | The navigation matrix has the shape of the CSV rows and holds each tile's navigation value. |
| TmxCoords.NavMatrixSpec | tmx_coordinate_system.py:109-124 | A cell is navigable exactly when the last tileset entry with its id is walkable. |
| TmxCoords.KindRow | tmx_coordinate_system.py:142-170 | The placements of a tile kind in one row are exactly the cells of that kind, at 32-pixel multiples. |
| TmxCoords.KindRows | tmx_coordinate_system.py:142-170 | The placements of a tile kind are exactly the cells of that kind in the remaining rows. |
| TmxCoords.ParkingIff | tmx_coordinate_system.py:166-170 | A cell is a parking point exactly when its tile is of the parking type. |
| TmxCoords.NonEmptyRows | tmx_coordinate_system.py:80-88 | Only non-empty rows are kept. |
| TmxCoords.ManualParseSpec | tmx_coordinate_system.py:47-195 | The parse succeeds exactly when both size attributes are present and the CSV has a non-empty row; the size then comes from the CSV, tiles are 32 pixels, and the navigation matrix maps every cell through the tileset. |
| BoundsChecker.ValidatePosition | universal_bounds_checker.py:24-56 | Valid exactly when the point is in bounds; an invalid point counts one violation and records it with its context and the bounds. |
| BoundsChecker.ValidateAndClamp | universal_bounds_checker.py:58-73 | The clamped point, valid for ordered bounds, counting one violation exactly when clamping moved it; a valid point is returned unchanged. |
| BoundsChecker.InvalidCount | universal_bounds_checker.py:83-85 | The number of invalid points of a route, at most its length. |
| BoundsChecker.InvalidCountZero | universal_bounds_checker.py:83-87 | No invalid points exactly when every point is valid. |
| BoundsChecker.ValidateRoute | universal_bounds_checker.py:75-100 | An empty route is valid without counting; otherwise every invalid point counts one violation. |
| BoundsChecker.ValidateRouteIff | universal_bounds_checker.py:75-100 | A route is valid exactly when every point is. |
| BoundsChecker.FixCount | universal_bounds_checker.py:111-116 | The number of points clamping moves; zero when every point is valid. |
| BoundsChecker.ClampAll | universal_bounds_checker.py:111-120 | Each point clamped, in order. |
| BoundsChecker.ValidateAndFixRoute | universal_bounds_checker.py:102-127 | Each point clamped into bounds, counting one violation per moved point. |
| BoundsChecker.FixRouteIdempotent | universal_bounds_checker.py:102-127 | Fixing a fixed route changes nothing and counts nothing. |
| BoundsChecker.FixCountZero | universal_bounds_checker.py:111-116 | A route clamping does not move counts no fixes. |
| BoundsChecker.CheckOperatorMovement | universal_bounds_checker.py:129-150 | A move is accepted only when both ends are valid and, with TMX active, walkable; each invalid end counts one violation; a failing lookup only happens with TMX active. |
| BoundsChecker.GetSafeAlternativePosition | universal_bounds_checker.py:152-168 | The clamped point when valid and walkable (always without TMX), else the safe starting position; the result is valid for ordered bounds. |
| BoundsChecker.ResetStats | universal_bounds_checker.py:236-239 | The counters are cleared and the debug flag kept. |
| BoundsChecker.GetStats | universal_bounds_checker.py:227-234 | The statistics report the counters, whether TMX is active and the current bounds. |
| ScreenConverter.AreaFor | tmx_screen_converter.py:24-45 | The tile size is at most 25; the area is 30 tiles square, fits the window less 100 by 150 pixels, and is centred horizontally and, 20 pixels lower, vertically. |
| ScreenConverter.AreaMargins | tmx_screen_converter.py:34-45 | The drawn area keeps at least 50 pixels free left and right and starts at least 35 pixels down. |
| ScreenConverter.InitializeForScreen | tmx_screen_converter.py:17-62 | The screen and area are always recorded; the converter becomes initialised with the authority's bounds exactly when a TMX layout is active, otherwise keeps its previous state. |
| ScreenConverter.InitializeWf | tmx_screen_converter.py:17-62 | Initialisation keeps the converter well formed: an initialised converter has bounds and an area. |
| ScreenConverter.ConvertTmxToScreen | tmx_screen_converter.py:64-86 | The identity when uninitialised; a division-by-zero error exactly when a world extent is 0; otherwise the per-axis linear map onto the area, truncated. |
| ScreenConverter.MapAxisInside | tmx_screen_converter.py:76-86 | A position inside the world lands inside the drawn area on that axis. |
| ScreenConverter.MapAxisEnds | tmx_screen_converter.py:76-86 | The world's origin maps to the area's edge and the world's extent to the far edge. |
| ScreenConverter.MapAxisMonotone | tmx_screen_converter.py:76-86 | The conversion preserves order along each axis. |
| ScreenConverter.GetLayoutBoundsOnScreen | tmx_screen_converter.py:92-102 | None exactly when uninitialised; otherwise the rectangle of the drawn area. |
| ScreenConverter.ConvertRecordSpec | tmx_screen_converter.py:116-129 | A converted record keeps its other fields, holds the screen position under x/y and the original position, 0 when absent, under tmx_x/tmx_y. |
| ScreenConverter.ConvertAll | tmx_screen_converter.py:114-131 | The converted table has the same operators in the same order, each record converted from its original. |
| ScreenConverter.ConvertOperatorCoordinates | tmx_screen_converter.py:107-133 | Initialises first when needed, then converts every operator, keeping the operators and their order; an initialised converter is left as it was. |
| AlignTmx.WorldWidth | align_tmx_coordinates.py:98-102 | The world is the grid width in TMX tiles. |
| AlignTmx.WorldHeight | align_tmx_coordinates.py:98-102 | The world is the grid height in TMX tiles. |
| AlignTmx.ExactInverse | align_tmx_coordinates.py:109-133 | Before truncation the two conversions are exact inverses in both directions. |
| AlignTmx.TmxPixelToScreen | align_tmx_coordinates.py:109-120 | Each screen coordinate is the truncated scaled TMX pixel plus the offset. |
| AlignTmx.ScreenToTmxPixel | align_tmx_coordinates.py:122-133 | Each TMX pixel is the truncated rescaled screen coordinate less the offset. |
| AlignTmx.GetVisualGridRect | align_tmx_coordinates.py:135-144 | A tile's rectangle is one visual tile square, placed at its index times the tile size from the offset. |
| AlignTmx.GetLayoutBoundsOnScreen | align_tmx_coordinates.py:146-154 | The layout's rectangle starts at the offset and spans the grid in visual tiles. |
| AlignTmx.TileInsideBounds | align_tmx_coordinates.py:135-154 | Every tile of the grid is drawn inside the layout's rectangle. |
| AlignTmx.ForwardInt | align_tmx_coordinates.py:85-120 | With the constructed converter a whole pixel x goes to 9x div 16 + 50. |
| AlignTmx.BackwardInt | align_tmx_coordinates.py:85-133 | With the constructed converter a whole screen coordinate s goes to 16(s-50) div 9. |
| AlignTmx.RoundTripWithinTwo | align_tmx_coordinates.py:372-376 | Going to the screen and back loses at most two pixels. |
| AlignTmx.RoundTripMissesByTwo | align_tmx_coordinates.py:372-389 | Pixel 10 comes back as 8, outside the tolerance of one the alignment test allows. |
| AlignTmx.ForwardRoundedInt | align_tmx_coordinates.py:109-120 | A forward map that rounds instead of truncating sends x to (9x+8) div 16 + 50. |
| AlignTmx.RoundTripRoundedWithinOne | align_tmx_coordinates.py:372-389 | With rounding on the way out, the round trip is within one pixel, as the test expects. |
| AlignTmx.DefaultFitsScreen | align_tmx_coordinates.py:392-401 | The constructed converter's 960-pixel world is drawn inside its 1200x700 screen. |
| NearestSearch.OffsetAt | dynamic_pathfinding_integration.py:248-251 | Each offset of the square of radius r lies within r on both axes. |
| NearestSearch.Square | dynamic_pathfinding_integration.py:249-250 | The square of radius r lists all 2r+1 by 2r+1 offsets, dx outer and dy inner. |
| NearestSearch.SquareComplete | dynamic_pathfinding_integration.py:249-250 | Every offset within r on both axes is in the square. |
| NearestSearch.Squares | dynamic_pathfinding_integration.py:248-251 | The rings searched for radius 1 up to the limit lie within the limit. |
| NearestSearch.SquaresComplete | dynamic_pathfinding_integration.py:248-251 | Every offset within the limit is searched. |
| NearestSearch.FirstFrom | dynamic_pathfinding_integration.py:249-255 | The first acceptable offset from a position on, or none; every offset before it is rejected. |
| NearestSearch.Search | dynamic_pathfinding_integration.py:248-255 | A found cell is acceptable and within the limit of the start on both axes. |
| NearestSearch.SearchNoneComplete | tiled_adapter.py:254-266 | When nothing is found, no cell within the limit is acceptable. |
| DynamicPathfinding.NewCalibrator | dynamic_pathfinding_integration.py:107-153 | Constructs exactly when the grid is between 1 and 1800 by 750 cells (an empty grid or a zero tile size divides by zero); the visual tile size, at most 25, fits the grid into the drawable area, centred horizontally. |
| DynamicPathfinding.WorldToGrid | dynamic_pathfinding_integration.py:179-189 | The truncated scaled pixel position, clamped into the grid. |
| DynamicPathfinding.GridToWorld | dynamic_pathfinding_integration.py:191-197 | A cell's pixel position lies inside that cell's visual tile. |
| DynamicPathfinding.GridWorldRoundTrip | dynamic_pathfinding_integration.py:179-197 | A cell of the grid converted to pixels and back is the same cell. |
| DynamicPathfinding.FindNearestWalkable | dynamic_pathfinding_integration.py:239-260 | A walkable cell is kept; otherwise a walkable cell within three rings or the grid centre, always inside the grid. |
| DynamicPathfinding.NearestFindsNearby | dynamic_pathfinding_integration.py:239-260 | When a walkable cell lies within three rings, the result is walkable and within three rings. |
| DynamicPathfinding.RouteEnds | dynamic_pathfinding_integration.py:208-213 | Both route ends are inside the grid and walkable, or the centre. |
| DynamicPathfinding.CalculateRouteEnhanced | dynamic_pathfinding_integration.py:199-237 | Without the library the straight route; otherwise None exactly when the search finds no path, else the path's cells converted to pixels, one point per cell. |
| DynamicPathfinding.IntegrationRoute | dynamic_pathfinding_integration.py:70-85 | None without a calibrator; a route it returns is never empty. |
| DynamicPathfinding.WrapperRoute | dynamic_pathfinding_integration.py:281-296 | Never empty: the straight route when uninitialised or when the layout route fails, otherwise the layout route. |
| DynamicPathfinding.FirstOr | dynamic_pathfinding_integration.py:298-309 | The first point of a non-empty list, the fallback otherwise. |
| DynamicPathfinding.GetDepotPosition | dynamic_pathfinding_integration.py:298-309 | The layout's first depot point, or the configured depot when there is none. |
| DynamicPathfinding.GetInboundPosition | dynamic_pathfinding_integration.py:311-322 | The layout's first inbound point, or the configured inbound position when there is none. |
| DynamicPathfinding.GetPickingLocations | dynamic_pathfinding_integration.py:324-330 | The layout's picking points in order, none without a layout. |
| TiledAdapter.LoadDefault | tiled_adapter.py:160-178 | The built-in 15 by 7 matrix with unit scale and no offset: a walkable border cell and an obstacle at (1,1). |
| TiledAdapter.RackCell | tiled_adapter.py:130-142 | A cell is an obstacle exactly when it lies between the three top and three bottom rows in the middle two columns of a group of four. |
| TiledAdapter.RackMatrix | tiled_adapter.py:128-144 | The generated matrix has the requested shape and every cell is the rack rule's value. |
| TiledAdapter.LoadFromCurrentSystem | tiled_adapter.py:115-158 | Four cells per rack column by 30 rows, scaled to the screen width; with no rack columns (a division by zero) the default matrix. |
| TiledAdapter.TmxCell | tiled_adapter.py:86-100 | An empty gid is an obstacle; a tile with properties is walkable exactly when its walkable property reads true ignoring case; a tile without them is walkable exactly when its gid is 1. |
| TiledAdapter.LoadFromTmx | tiled_adapter.py:62-113 | The map's size with every cell read from the layer by the tile rule; without the library, a data layer or a full layer, the default matrix. |
| TiledAdapter.Load | tiled_adapter.py:49-60 | The loader chosen by the source name, the default matrix for an unknown name; the result always has a grid. |
| TiledAdapter.WorldToGrid | tiled_adapter.py:180-189 | The truncated scaled position when it is inside the grid, and always a cell of a non-empty grid. |
| TiledAdapter.GridToWorld | tiled_adapter.py:191-196 | The world position scales back to the cell's indices. |
| TiledAdapter.GridWorldRoundTrip | tiled_adapter.py:180-196 | A cell converted to the world and back is the same cell. |
| TiledAdapter.FindNearestWalkable | tiled_adapter.py:254-266 | The cell unchanged, or a walkable cell within three rings of it. |
| TiledAdapter.NearestUnchanged | tiled_adapter.py:254-266 | When a walkable cell lies within three rings, the result is walkable. |
| TiledAdapter.RouteEnds | tiled_adapter.py:209-232 | Both ends are inside the grid; an end on a walkable cell is kept. |
| TiledAdapter.CalcularRutaRealista | tiled_adapter.py:198-252 | Never empty: the straight route without a grid, on an empty grid or when no path is found; otherwise the path's cells in world coordinates. |
| TiledAdapter.RowSums | tiled_adapter.py:274 | One sum per row. |
| TiledAdapter.ObtenerEstadisticas | tiled_adapter.py:268-284 | Nothing without a matrix; a division error for a zero-width matrix; otherwise walkable plus obstacle cells make up the total. |
| TiledAdapter.WalkablesBounded | tiled_adapter.py:274 | A 0/1 matrix has between zero and all of its cells walkable. |
| TiledAdapter.StatsPercentage | tiled_adapter.py:281 | The walkable percentage lies between 0 and 100. |
| TiledAdapter.LoadBinary | tiled_adapter.py:49-178 | Every loader produces a 0/1 matrix. |
| CustomLayout.PropsById | custom_layout_integration.py:43-53 | An entry with the requested id from the loaded mapping; None exactly when no mapping is loaded or no entry has that id. |
| CustomLayout.FirstWithId | custom_layout_integration.py:43-53 | The first entry with the id, None exactly when no entry has it. |
| CustomLayout.IdsWhere | custom_layout_integration.py:55-79 | Exactly the ids of the entries that satisfy the filter; empty exactly when none does. |
| CustomLayout.WalkableIds | custom_layout_integration.py:55-66 | The ids of the entries marked walkable (an absent flag means not walkable); [0] without a mapping or without such entries. |
| CustomLayout.ObstacleIds | custom_layout_integration.py:68-79 | The ids of the entries marked not walkable (an absent flag means walkable); [1] without a mapping or without such entries. |
| CustomLayout.TileId | custom_layout_integration.py:84-85 | The 28-bit tile id of a gid; a gid without flags is its own id. |
| CustomLayout.InterpretTmxTile | custom_layout_integration.py:81-111 | Id 0 is an empty walkable tile; a mapped tile (entry id minus one) takes the entry's properties with their defaults; an unmapped tile is walkable; the navigation value is 1 exactly when walkable. |
| CustomLayout.FlagsIgnored | custom_layout_integration.py:84-85 | Flip and rotation flags never change how a tile is read. |
| CustomLayout.BlockedIffMappedObstacle | custom_layout_integration.py:81-111 | A tile blocks exactly when its entry is present and not marked walkable. |
| CustomLayout.NavigationMatrix | custom_layout_integration.py:113-150 | A height by width 0/1 matrix, all walkable without a layer; otherwise a cell blocks exactly when the layer covers it and its tile is not walkable. |
| PathfindingManager.ParseMode | pathfinding_manager.py:65-69 | Exactly the three mode names are accepted. |
| PathfindingManager.InicializarMejorado | pathfinding_manager.py:57-63 | Ready exactly when the wrapper already existed or the improved planner can be imported; only the ready flag changes. |
| PathfindingManager.EstablecerModo | pathfinding_manager.py:65-81 | Raises exactly for an unknown name; an improved mode without the improved planner falls back to ACTUAL and answers False; the counters never change. |
| PathfindingManager.UsarMejorado | pathfinding_manager.py:83-93 | Never in ACTUAL, always in MEJORADO, and in AB_TEST exactly when the call count modulo 100 is below the percentage. |
| PathfindingManager.AbSplitShare | pathfinding_manager.py:89-91 | Over any aligned block of 100 calls, the first p go to the improved planner and the other 100 - p do not. |
| PathfindingManager.NecesitaRollback | pathfinding_manager.py:177-188 | Exactly when auto-rollback is on, the mode is not ACTUAL, the improved planner has at least 10 calls and its error percentage exceeds the threshold. |
| PathfindingManager.CallActual | pathfinding_manager.py:95-113 | Exactly one of the current planner's calls or errors grows, the error count exactly when it raised; its time grows by the elapsed time; nothing else changes. |
| PathfindingManager.CallMejorado | pathfinding_manager.py:115-134 | Exactly one of the improved planner's calls or errors grows, the error count exactly when it raised; its time grows by the elapsed time; nothing else changes. |
| PathfindingManager.TryActual | pathfinding_manager.py:158-169 | Without the current planner nothing happens; otherwise its call is counted and its route returned. |
| PathfindingManager.CalcularRutaConFallback | pathfinding_manager.py:136-180 | Counts one call, and the mode stays or becomes ACTUAL. It raises exactly when the improved planner is asked for (improved mode, no rollback) but is neither built nor creatable. Otherwise the route is tried in order: the improved planner's route when asked for and found, then the current planner's when it is available and finds one, then the straight line from start to end. |
| PathfindingManager.ActualNeverAsksImproved | pathfinding_manager.py:83-86 | In ACTUAL mode a route is always returned and the improved planner's counters do not move. |
| PathfindingManager.RollbackSwitchesToActual | pathfinding_manager.py:142-146 | When rollback is due the call switches to ACTUAL and does not ask the improved planner. |
| PathfindingManager.ObtenerEstadisticas | pathfinding_manager.py:190-212 | Averages and error percentages times the call count give back the totals; zero without calls. |
| SafeReplacement.LogEvento | safe_pathfinding_replacement.py:70-82 | The event is appended last and the log is cut to its last 100 entries; nothing else changes. |
| SafeReplacement.LogBounded | safe_pathfinding_replacement.py:80-82 | A log of at most 100 events stays at most 100 events long. |
| SafeReplacement.LogAllKeeps | safe_pathfinding_replacement.py:70-82 | Logging events one by one keeps exactly the last 100 of everything logged. |
| SafeReplacement.LogKeepsRecent | safe_pathfinding_replacement.py:70-82 | The most recent events, up to 100 of them, are always the tail of the log. |
| SafeReplacement.Activar | safe_pathfinding_replacement.py:31-51 | Raises exactly for an unknown mode; on success the replacement is active in that mode and logs ACTIVACION; on failure the mode is ACTUAL and it logs ERROR_ACTIVACION. |
| SafeReplacement.Desactivar | safe_pathfinding_replacement.py:53-68 | Inactive, the manager in ACTUAL mode with nothing else changed, and a ROLLBACK event logged last. |
| SafeReplacement.MonitorearSalud | safe_pathfinding_replacement.py:84-109 | Rolls back exactly when active and one health rule fires (more than 20 improved calls above 15% errors, or both planners over 10 calls with the improved one over twice as slow); otherwise nothing changes. |
| SafeReplacement.FewCallsNoRollback | safe_pathfinding_replacement.py:93-101 | With at most 10 improved calls no health rule fires. |
| SafeReplacement.CalcularRutaSafe | safe_pathfinding_replacement.py:111-131 | A health check every 50 calls, then the manager's route; when the manager raises, the straight route, a critical error logged and the improved planner deactivated. |
| LayoutCreator.BasicTile | create_custom_layout.py:123-140 | Border cells are floor; a cell is a rack exactly when it is inside the border on a row with y mod 4 = 2, two cells in from each side. |
| LayoutCreator.WarehouseTile | create_custom_layout.py:142-161 | The two-cell outer aisles are floor; an inner cell is a rack exactly when (x-2) mod 4 is 1 or 2 and it lies between row 3 and four rows from the bottom. |
| LayoutCreator.CorridorsTile | create_custom_layout.py:163-191 | The middle row and column are corridor; a cell is a rack exactly when it is off both corridors and the border with x mod 3 and y mod 3 both 1 or 2. |
| LayoutCreator.PatternOf | create_custom_layout.py:18-25 | Any name other than basic, warehouse and corridors selects the empty pattern. |
| LayoutCreator.CreatePattern | create_custom_layout.py:17-25 | A height by width matrix (empty for a negative size) whose every cell follows the selected pattern's rule. |
| LayoutCreator.EmptyAllFloor | create_custom_layout.py:193-195 | The empty pattern, and an unknown name, give floor everywhere. |
| LayoutCreator.PatternWalkability | create_custom_layout.py:40-81 | Read through the generator's own tileset, a generated cell blocks navigation exactly when it is a rack. |
| LayoutCreator.CsvRowOneLine | create_custom_layout.py:28 | One CSV row contains no line break. |
| LayoutCreator.CsvLines | create_custom_layout.py:28 | The CSV layer has exactly one line per matrix row. |
| LayoutCreator.MapLocations | create_custom_layout.py:90-109 | The depot is written at ((width-2)*32, (height-2)*32) and there are two picking zones. |
| LayoutCreator.DepotInsideBorder | create_custom_layout.py:90 | On a map at least 3 by 3 the depot lies on the tile diagonally inside the bottom-right corner, off the border. |
| TextureConfig.FindFile | auto_configure_textures.py:84-98 | The first unused file in listing order whose lower-cased name contains a keyword of the category; None exactly when no unused file matches. |
| TextureConfig.DetectFrom | auto_configure_textures.py:79-113 | At most one tile per category, ids consecutive, each file a matching unused file used once; empty exactly when no unused file matches any category. |
| TextureConfig.AutoDetect | auto_configure_textures.py:11-113 | None exactly when the folder is missing or holds no image file; otherwise tiles numbered from 0, each an image of the folder matching its category, no file or category twice. |
| TextureConfig.RowsNeeded | auto_configure_textures.py:121-126 | The fewest rows of four that hold every tile. |
| TextureConfig.TileInsideImage | auto_configure_textures.py:125-152 | Every tile is pasted inside the tileset image. |
| TextureConfig.TileOriginInverse | auto_configure_textures.py:146-149 | A tile's paste position determines its index, so no two tiles overlap. |
| TextureConfig.SavedMapping | auto_configure_textures.py:202-220 | The saved mapping has one entry per detected tile. |
| TextureConfig.SavedLookup | auto_configure_textures.py:202-220 | In the saved mapping, id i finds detected tile i. |
| TextureConfig.SavedWalkability | auto_configure_textures.py:212-220 | A map drawn with the saved tileset is walkable on tile gid i+1 exactly when the i-th detected category is walkable. |
| LayoutLoader.LastIndexOf | dynamic_layout_loader.py:80-81 | The last position of the character, -1 when absent. |
| LayoutLoader.Basename | dynamic_layout_loader.py:80 | The part of a path after its last slash, which contains no slash. |
| LayoutLoader.Stem | dynamic_layout_loader.py:81 | The name without its last extension: a prefix of the name, cut only at a dot that is neither first nor last. |
| LayoutLoader.StemOfTmx | dynamic_layout_loader.py:81 | The stem of layouts/NAME.tmx is NAME. |
| LayoutLoader.AnalyzeTmxFile | dynamic_layout_loader.py:75-122 | Without the TMX library an invalid entry with its error; otherwise it raises exactly when the parser fails, and a valid entry carries the map's size, file name, stem and path. |
| LayoutLoader.EntryFor | dynamic_layout_loader.py:50-67 | A valid entry names its own file; a failed analysis still lists the file, marked invalid. |
| LayoutLoader.Collect | dynamic_layout_loader.py:48-67 | One entry per file whose lower-cased name ends in .tmx. |
| LayoutLoader.ByNameIsPreorder | dynamic_layout_loader.py:70 | Comparing entries by name is a total preorder, so the sort is well defined. |
| LayoutLoader.ScanAvailableLayouts | dynamic_layout_loader.py:39-73 | Nothing for a missing folder; otherwise a permutation of the TMX entries in non-decreasing name order. |
| LayoutLoader.ScanCount | dynamic_layout_loader.py:48-70 | The scan lists each TMX file of the folder exactly once. |
| LayoutLoader.Dim | dynamic_layout_loader.py:371 | A dimension prints as ? exactly when it is unknown. |
| LayoutLoader.LayoutsListForUi | dynamic_layout_loader.py:361-379 | One UI item per scanned entry, in the same order, with its display name and the entry's file name, path, validity and description. |
| LayoutLoader.DisplayNameShape | dynamic_layout_loader.py:371 | The display name is the layout's name followed by its size in parentheses, (?×?) when unknown. |
| LayoutLoader.Fallback | dynamic_layout_loader.py:327-348 | A fully walkable 50 by 30 map named after the file with " (fallback)", with one depot, one inbound point and no picking points. |
| LayoutLoader.FallbackPointsInside | dynamic_layout_loader.py:341-342 | The fallback's depot and inbound points lie inside the map, their pixels on their tiles. |
| LayoutLoader.NavLayer | dynamic_layout_loader.py:244-255 | A navigation layer is found exactly when the map has a tile layer. |
| LayoutLoader.FirstNamedNavigation | dynamic_layout_loader.py:245-248 | A found layer is a tile layer whose lower-cased name contains navigation. |
| LayoutLoader.FirstTileLayer | dynamic_layout_loader.py:252-255 | Found exactly when some layer is a tile layer. |
| LayoutLoader.NavValue | dynamic_layout_loader.py:264-273 | A gid blocks exactly when it is not 0 and has a walkable property that is not true in any case. |
| LayoutLoader.ExtractNavigation | dynamic_layout_loader.py:238-282 | Fails exactly when the chosen layer does not cover the map; otherwise a height by width matrix read cell by cell from the layer, all walkable without one. |
| LayoutLoader.LocationOf | dynamic_layout_loader.py:303-310 | An object's tile is the one its pixel position falls in. |
| LayoutLoader.OfType | dynamic_layout_loader.py:298-323 | One location per object of the type, in order. |
| LayoutLoader.ExtractSpecial | dynamic_layout_loader.py:284-325 | Fails exactly when there are objects and a tile dimension is zero. |
| LayoutLoader.LoadTmxLayout | dynamic_layout_loader.py:201-236 | The map's own matrix, size and stem exactly when the library is there and parsing and extraction succeed; the fallback otherwise; always well shaped. |
| LayoutLoader.LoadLayout | dynamic_layout_loader.py:170-199 | None for a missing file; a cached path is served from the cache; otherwise loaded and cached; the result becomes current. |
| LayoutLoader.ReloadIsCached | dynamic_layout_loader.py:181-183 | Loading a path a second time returns the first result, whatever the file now holds. |
| LayoutLoader.LayoutForPathfinding | dynamic_layout_loader.py:350-359 | None before any load; otherwise the current matrix and special locations. |
| LayoutLoader.LoadKeepsValid | dynamic_layout_loader.py:170-199 | Every layout the loader serves stays well shaped. |
| LayoutLoader.SampleIsWarehousePattern | dynamic_layout_loader.py:449-470 | The warehouse sample map uses the generator's warehouse pattern at 30 by 20. |
| DataManager.PyInt | src/subsystems/simulation/data_manager.py:253-258 | An integer cell converts to itself and an empty cell fails, as int() raises on None. |
| DataManager.PyIntRoundTrip | src/subsystems/simulation/data_manager.py:253-258 | Any integer written as text converts back to the same integer, sign included. |
| DataManager.LastMatch | src/subsystems/simulation/data_manager.py:239-242 | The row dictionary's value for a key comes from the last column with that header. It is absent exactly when no column has the header. |
| DataManager.HeaderRow | src/subsystems/simulation/data_manager.py:219-223 | The header row is the first of the first ten rows with a matching cell. No earlier row has one, and None means none of the ten has one. |
| DataManager.ToPoint | src/subsystems/simulation/data_manager.py:250-270 | A converted row's grid location is its (x, y) pair, and its pick sequence is the row's converted pick_sequence. |
| DataManager.Converted | src/subsystems/simulation/data_manager.py:234-270 | Each usable row gives at most one point, and every point's location is its own (x, y). |
| DataManager.BySequenceIsPreorder | src/subsystems/simulation/data_manager.py:273 | Ordering by pick sequence is a total preorder. |
| DataManager.ProcessPicking | src/subsystems/simulation/data_manager.py:198-276 | Fails exactly when none of the first ten rows has an 'x' header. Otherwise the points are ordered by pick sequence and are a permutation of the converted rows below the header. |
| DataManager.FirstKey | src/subsystems/simulation/data_manager.py:316-323 | The staging-id key is a header naming both 'staging' and 'id', or 'staging_id' when no header does. |
| DataManager.Fold | src/subsystems/simulation/data_manager.py:304-330 | Only positive ids are keys, and every entry with a positive id has its id in the dictionary. |
| DataManager.FoldLastWins | src/subsystems/simulation/data_manager.py:329-330 | Each staging id maps to the position of the last entry that sets that id. |
| DataManager.ProcessStaging | src/subsystems/simulation/data_manager.py:278-336 | The staging dictionary built from the sheet holds only positive ids. |
| DataManager.Spacing | src/subsystems/simulation/data_manager.py:353 | The spacing is at least 1, and on a grid at least eight wide eight spacings fit in the width. |
| DataManager.DefaultStaging | src/subsystems/simulation/data_manager.py:342-361 | The ids are exactly 1 to 7, and area i sits at i spacings along the bottom row. |
| DataManager.DefaultStagingOrdered | src/subsystems/simulation/data_manager.py:356-359 | A larger default id lies strictly further right. |
| DataManager.DefaultStagingInside | src/subsystems/simulation/data_manager.py:342-361 | On a grid at least eight wide and one high, every default area lies inside the grid. |
| DataManager.DefaultStagingNarrow | src/subsystems/simulation/data_manager.py:352-359 | On a grid narrower than eight, the seventh default area falls outside the grid. |
| DataManager.Validate | src/subsystems/simulation/data_manager.py:365-406 | Fails exactly when a staging area lies off the grid. Otherwise the result is the number of picking points off the grid, which only warn. |
| DataManager.Load | src/subsystems/simulation/data_manager.py:38-80 | A layout failure gives the wrapped error. A loaded manager has in-grid staging with positive ids and points sorted by pick sequence, taken from a present picking sheet, with the default areas when the staging sheet is missing. |
| DataManager.NarrowGridNeedsStagingSheet | src/subsystems/simulation/data_manager.py:188-194 | Without a staging sheet, a grid narrower than eight fails to load. |
| ReplayEngine.Timestamp | src/engines/replay_engine.py:443 | An event's time is its numeric timestamp. A missing or null one reads as zero. |
| ReplayEngine.IdOf | src/engines/replay_engine.py:744-745 | An identifier is present exactly when it is a non-empty string, and then it is that string. |
| ReplayEngine.LadderIndex | src/engines/replay_engine.py:367-403 | A speed on the ladder is found at its own position. Any other speed counts as position 2, which is 1x. |
| ReplayEngine.Faster | src/engines/replay_engine.py:399-401 | The + key always lands on the ladder and never slows a listed speed. It leaves the speed unchanged only at 64x. |
| ReplayEngine.Slower | src/engines/replay_engine.py:402-404 | The - key always lands on the ladder and never speeds up a listed speed. It leaves the speed unchanged only at 0.25x. |
| ReplayEngine.FasterSlowerInverse | src/engines/replay_engine.py:399-404 | Below the top, - undoes +. Above the bottom, + undoes -. |
| ReplayEngine.UnlistedSpeed | src/engines/replay_engine.py:400-404 | A speed off the ladder jumps to 2x with + and to 0.5x with -. |
| ReplayEngine.ProcessedBy | src/engines/replay_engine.py:702 | After a seek, an index is processed exactly when its event is at or before the target. |
| ReplayEngine.EventsUpTo | src/engines/replay_engine.py:686 | The events replayed by a seek are as many as the processed indices, all from the log and all at or before the target. |
| ReplayEngine.LastAtOrBefore | src/engines/replay_engine.py:711-714 | The enqueue cursor's event is at or before the target, and every later event is after it. |
| ReplayEngine.LastIsMaxProcessed | src/engines/replay_engine.py:711-714 | The cursor is the largest processed index, and -1 exactly when nothing was processed. |
| ReplayEngine.Reassign | src/engines/replay_engine.py:758-770 | On a change of agent, the known new agent takes the work order as its current task. The old agent drops it only if it was its current task. No other operator changes and no operator is added. |
| ReplayEngine.FirstMatch | src/engines/replay_engine.py:779-782 | The first known operator id that contains, or is contained in, the agent id. None exactly when no id matches either way. |
| ReplayEngine.ShortId | src/engines/replay_engine.py:778-788 | A short id is never empty. A non-empty match wins. None only when nothing matches and the agent id has neither the ground-operator nor the forklift marker. |
| ReplayEngine.NonEmptyAfterReplace | src/engines/replay_engine.py:785-788 | Removing the type prefix from an id holding a marker leaves a non-empty id. |
| ReplayEngine.ReplaceKeepsChar | src/engines/replay_engine.py:786-788 | Removing a pattern keeps every character the pattern does not contain. |
| ReplayEngine.AddAssigned | src/engines/replay_engine.py:790-798 | The work order is listed once against its operator: appended only when absent, which keeps a duplicate-free list duplicate-free. Other operators are untouched. |
| ReplayEngine.ApplyWorkOrderUpdate | src/engines/replay_engine.py:743-753 | The work order, created if new, takes every field of the event over its previous fields. Other work orders are unchanged, and the insertion order keeps the old ids first. |
| ReplayEngine.TourIds | src/engines/replay_engine.py:812-813 | Each tour item gives its id, or the item itself when it has no id or is not a dictionary. |
| ReplayEngine.ApplyAgentState | src/engines/replay_engine.py:800-814 | The operator takes every field of the event's data. A truthy tour with a work-order list replaces the assigned list with the tour's ids. Work orders and other operators are unchanged. |
| ReplayEngine.AgentFields | src/engines/replay_engine.py:805-814 | The operator's fields after the update hold every data field except the assigned list, which a tour replaces. |
| ReplayEngine.Apply | src/engines/replay_engine.py:741-814 | Only a work-order update with an id changes the work orders, exactly as ApplyWorkOrderUpdate does. |
| ReplayEngine.ReplayKeepsWorkOrders | src/engines/replay_engine.py:741-817 | Replaying never forgets a work order, keeps the initial ones first, and holds every work order that an update targeted. |
| ReplayEngine.ReplayLastWriteWins | src/engines/replay_engine.py:743-753 | A work order's field holds the value from the last update for that work order carrying the field. |
| ReplayEngine.ComputeSnapshot | src/engines/replay_engine.py:728-833 | The snapshot counts its work orders and stamps the target time. Completed is zero exactly when none is staged, no initial work order is lost, and every operator carries its id. |
| ReplayEngine.SeekToTime | src/engines/replay_engine.py:674-726 | After a seek, the time and snapshot are at the target and the queue is empty. The processed set is the events at or before the target, and the cursor is its maximum, or -1 when it is empty. |
| ReplayEngine.DueEnd | src/engines/replay_engine.py:441-447 | The due run from the cursor holds events at or before the clock and stops at the first later event. |
| ReplayEngine.Advance | src/engines/replay_engine.py:433-461 | The clock advances by delta times speed. The due events are appended to the queue in order, and at most 100 of them are taken as the chunk. The replay finishes exactly when the chunk's last event is SIMULATION_END. The queue stays increasing. |
| ReplayEngine.QueueExtends | src/engines/replay_engine.py:441-445 | Appending the newly due indices keeps the queue increasing and below the new cursor. |
| ReplayEngine.ClampToEnd | src/engines/replay_engine.py:463-465 | A clock past the end is clamped to the end and finishes the replay. Nothing else changes. |
| ReplayEngine.Tick | src/engines/replay_engine.py:433-465 | A frame keeps the queue valid and the clock within the end, and processes at most 100 events. A paused or finished replay only re-clamps. |
| ReplayEngine.FinishedIsStable | src/engines/replay_engine.py:433-465 | Once finished, a frame changes nothing, so the replay never runs past the end. |
| ReplayEngine.ModernMetrics | src/engines/replay_engine.py:859-886 | Completed counts the work orders whose status is staged, Completada or COMPLETED, and tasks are three times that. |
| ReplayEngine.StagedCountsAsCompleted | src/engines/replay_engine.py:875-879 | The dashboard metric counts at least every work order that the snapshot counts as staged. |
| ReplayEngine.ThroughputPerMinute | src/engines/replay_engine.py:891-904 | Throughput is non-negative and zero before time starts. Afterwards, throughput times elapsed seconds equals completed times 60. |
| Optimization.ExportMetrics | src/engines/event_generator.py:287-318 | Completed and total come from the dispatcher, and failed makes up the rest. The mean completion time times max(completed, 1) is the simulation time. Missing fleet sizes read as 0 and a missing strategy as 'unknown'. |
| Optimization.CalculateScore | src/tools/optimizer.py:200-240 | Zero for a run of no time or a non-positive cost. Otherwise score × cost × time equals completed × 3600, that is, throughput per hour over the hourly cost plus the failure penalty. |
| Optimization.ScoreMonotone | src/tools/optimizer.py:219-238 | With the same fleet, time and failures, completing more orders never lowers the score. |
| Optimization.ExportedScore | src/tools/optimizer.py:215-238 | An exported run of positive time and positive cost scores the dispatcher's completed count per hour over that cost. |
| Optimization.TrialConfig | src/tools/optimizer.py:123-129 | The trial configuration is the base with the two fleet sizes, the strategy and the fleet total overwritten. The base's keys keep their order. |
| Optimization.TrialFleetBounds | src/tools/optimizer.py:109-129 | For sizes in the suggested ranges, the fleet total is the sum of the two sizes and lies between 2 and 30. |
| ReplayServer.Time | web_prototype/server.py:77 | The sort and filter key is the numeric timestamp, and 0 when it is missing. |
| ReplayServer.Synthetic | web_prototype/server.py:59-64 | A replayed initial work order is a work_order_update at the start event's time. It keeps its own status, or 'released' when it has none, and every other field of the work order. |
| ReplayServer.DictItems | web_prototype/server.py:52-57 | One entry for each dictionary among the initial work orders. |
| ReplayServer.Expand | web_prototype/server.py:49-71 | An ordinary line is kept as is. A start event becomes one synthetic update per initial work order, followed by the start event itself. |
| ReplayServer.ExpandAll | web_prototype/server.py:42-71 | Expanding never drops a line. |
| ReplayServer.ByTimeIsPreorder | web_prototype/server.py:77 | Ordering by timestamp is a total preorder. |
| ReplayServer.LoadData | web_prototype/server.py:37-85 | The loaded events are a permutation of the expanded log, ordered by time. The end time is the last event's timestamp, and 0 for an empty log. |
| ReplayServer.LoadKeepsTies | web_prototype/server.py:77 | The sort is stable: events at the same time keep their log order, so a start's updates precede the start itself. |
| ReplayServer.MaxTimeBoundsEvents | web_prototype/server.py:79-80 | With a numeric last timestamp, no event lies after the end of the replay. |
| ReplayServer.IdOf | web_prototype/server.py:174-175 | An id is present exactly when it is a non-empty string, and then it is that string. |
| ReplayServer.MovedAgent | web_prototype/server.py:150-159 | An old-format move takes its type and status from the nested data, with defaults 'Unknown' and 'idle'. |
| ReplayServer.ReportedAgent | web_prototype/server.py:161-171 | A new-format report prefers the top-level fields, then the nested data, then the defaults [0, 0], 'Unknown' and 'idle'. |
| ReplayServer.Step | web_prototype/server.py:143-176 | Only a work-order update with an id changes the work orders: it stores its nested data, or the whole event when the data is empty. No agent is forgotten. |
| ReplayServer.Relevant | web_prototype/server.py:141 | The events a query at t considers all come from the log and lie at or before t. |
| ReplayServer.LaterEventsIgnored | web_prototype/server.py:141 | Events after t do not change the state at t. |
| ReplayServer.FoldLastWriteWins | web_prototype/server.py:173-176 | A work order's entry is the payload of the last update for it. |
| ReplayServer.FoldOnlyUpdated | web_dashboard/server.py:104-112 | A work order that no update mentions is absent from the state. |
| ReplayServer.ReleasedAssignedDisjoint | web_dashboard/server.py:127-130 | No work order counts as both released and assigned, and one without a status counts as released. |
| ReplayServer.WorkOrderCounts | web_dashboard/server.py:132-154 | Total is the number of work orders and staged is at most that. Assigned plus released never exceeds the total. The rate is the staged percentage. |
| ReplayServer.CompletionRate | web_dashboard/server.py:154 | The completion rate is 0 with no work orders. Otherwise it lies between 0 and 100, and rate × total = staged × 100. |
| ReplayServer.Throughput | web_dashboard/server.py:140-143 | Throughput is 0 at or before time zero. Afterwards it is non-negative, and throughput × t = staged × 60. |
| ReplayServer.AvgTimePerWorkOrder | web_dashboard/server.py:158 | The mean time is 0 with nothing staged. Otherwise mean × staged = t. |
| ReplayServer.AgentCounts | web_prototype/server.py:206-218 | Every agent count is at most the total. Active counts the moving, picking and unloading agents, and idle counts the idle ones. |
| ReplayServer.GetMetrics | web_prototype/server.py:186-249 | The metrics at t are the status counts, agent counts, throughput and mean time of the state at t. |
| IpcProtocols.FromTag | src/communication/ipc_protocols.py:17-57 | A wire value that is recognised names the type whose tag it is. |
| IpcProtocols.TagRoundTrip | src/communication/ipc_protocols.py:17-57 | Every event type is recovered from its wire value. |
| IpcProtocols.TagInjective | src/communication/ipc_protocols.py:17-57 | No two event types share a wire value. |
| IpcProtocols.TypeOf | src/communication/ipc_protocols.py:77-166 | Each kind of event reports exactly its own type, which no other kind reports. |
| IpcProtocols.NewStateReset | src/communication/ipc_protocols.py:77-88 | A reset event reports 'state_reset' and version v1, and carries the given time and target time. |
| IpcProtocols.NewStateSnapshot | src/communication/ipc_protocols.py:92-103 | A snapshot event reports 'state_snapshot' and version v1, and carries the given work orders and operators. |
| IpcProtocols.NewTimeTick | src/communication/ipc_protocols.py:156-166 | A tick event reports 'time_tick' and version v1, and carries the elapsed and total durations. |
| IpcProtocols.NewStatusChanged | src/communication/ipc_protocols.py:109-121 | A status event reports 'wo_status_changed' and version v1, and carries the work order and its new status. |
| IpcProtocols.NewAssigned | src/communication/ipc_protocols.py:125-136 | An assignment event reports 'wo_assigned' and version v1, and carries the work order and the agent. |
| IpcProtocols.NewProgressUpdated | src/communication/ipc_protocols.py:140-152 | A progress event reports 'wo_progress_updated' and version v1, and carries the work order and its remaining quantity. |
| DashboardCommunicator.CacheOf | src/communication/dashboard_communicator.py:674-676 | The cache holds every current work order's id, and each entry is a current snapshot carrying its own id. |
| DashboardCommunicator.CacheKeepsLast | src/communication/dashboard_communicator.py:676 | Of several snapshots with one id, the cache keeps the last. |
| DashboardCommunicator.ChangedIds | src/communication/dashboard_communicator.py:658-670 | The changed ids are distinct current ids. A current id is among them exactly when its snapshot is new or differs in status, remaining quantity, agent or remaining volume. |
| DashboardCommunicator.CalculateDelta | src/communication/dashboard_communicator.py:645-672 | The delta holds one current snapshot per changed id, in first-seen order, each the last given for its id. Every new or changed work order is in it, and nothing else is. |
| DashboardCommunicator.DeltaIdsDistinct | src/communication/dashboard_communicator.py:658-670 | No work order appears twice in one delta. |
| DashboardCommunicator.NoChangeNoDelta | src/communication/dashboard_communicator.py:664-670 | Against a cache of the same work orders, the delta is empty. |
| DashboardCommunicator.ApplyDelta | src/communication/dashboard_communicator.py:587-621 | The receiver holds the ids it held before plus every delivered id. |
| DashboardCommunicator.ApplyDeltaKeeps | src/communication/dashboard_communicator.py:587-621 | A held snapshot that no delivered snapshot replaces stays as it was. |
| DashboardCommunicator.ApplyDeltaLastWins | src/communication/dashboard_communicator.py:587-621 | An id delivered once is held afterwards as the delivered snapshot. |
| DashboardCommunicator.DeltaReconstructs | src/communication/dashboard_communicator.py:645-676 | A receiver holding the previous cache that applies the delta ends with every current work order in the new cache's tracked state. |
| DashboardCommunicator.BatchesFrom | src/communication/dashboard_communicator.py:587-589 | The batches are non-empty, at most the batch size, and concatenate back to the changes. Their number is the least count whose capacity covers the changes. |
| DashboardCommunicator.CeilDiv | src/communication/dashboard_communicator.py:617 | (n + size - 1) // size is the least b with b × size ≥ n. |
| DashboardCommunicator.FirstFailure | src/communication/dashboard_communicator.py:623-627 | The first undelivered batch: every earlier one was delivered. |
| DashboardCommunicator.BatchMessage | src/communication/dashboard_communicator.py:611-620 | Batch i carries its work orders, is numbered i + 1 of the total, and reports its own size. |
| DashboardCommunicator.BatchMessages | src/communication/dashboard_communicator.py:587-627 | The first n delta messages carry the first n batches in order. |
| DashboardCommunicator.SendDeltaUpdates | src/communication/dashboard_communicator.py:560-643 | Succeeds exactly when every batch is delivered, and then the cache is refreshed and the sent payloads concatenate to the delta. A failure stops at the first undelivered batch and leaves the state untouched. With no changes, nothing is sent and the call succeeds. Every message is a numbered delta of at most the batch size. |
| DashboardCommunicator.SendBatches | src/communication/dashboard_communicator.py:582-637 | The delivery loop: all batches delivered gives success and the refreshed cache. The first failure stops with the state unchanged. Messages are numbered from one. |
| DashboardCommunicator.BatchCount | src/communication/dashboard_communicator.py:617 | The total batch count in every message is ceil(changes / batch size). |
| DashboardCommunicator.SendFullStateSync | src/communication/dashboard_communicator.py:496-558 | Sends the full state once. On delivery the cache is refreshed and the initial sync is done; otherwise nothing changes. |
| DashboardCommunicator.UpdateDashboardState | src/communication/dashboard_communicator.py:208-243 | Nothing happens when the dashboard is inactive or there are no work orders. The full state is sent before the first sync or when forced, and deltas otherwise. Success leaves the cache equal to the current work orders, and failure leaves the state untouched. |
| DashboardCommunicator.SendSimulationEnded | src/communication/dashboard_communicator.py:254-282 | Refused when inactive, and answered without sending once delivered. Otherwise sent, and remembered only on delivery. |
| DashboardCommunicator.SimulationEndedIdempotent | src/communication/dashboard_communicator.py:266-276 | After a delivered end command, a second call succeeds without sending anything. |
| DashboardCommunicator.Reset | src/communication/dashboard_communicator.py:704-708 | A reset empties the cache and clears both flags. |
| DashboardCommunicator.ResetForcesFullSync | src/communication/dashboard_communicator.py:233-235 | After a reset, the next update of a running dashboard sends the full state. |
| DashboardCommunicator.SyncThenSameIsQuiet | src/communication/dashboard_communicator.py:577-580 | A delivered full sync followed by an update with the same work orders sends nothing and succeeds. |
| WorkOrderTable.RowIndex | src/visualization/work_order_dashboard.py:100 | The id map sends an id to the last row carrying it, and is absent exactly when no row carries it. |
| WorkOrderTable.LastTargeting | src/visualization/work_order_dashboard.py:105-113 | The last update of the batch that replaces row i, and no later update replaces it. |
| WorkOrderTable.Merge | src/visualization/work_order_dashboard.py:105-115 | Each existing row ends as the last update replacing it, or stays as it was. The new rows are exactly the updates with a truthy, unknown id, in batch order. |
| WorkOrderTable.MergeStep | src/visualization/work_order_dashboard.py:106-115 | One update is skipped without an id, replaces the row its id maps to, or is queued as new. |
| WorkOrderTable.UpdateData | src/visualization/work_order_dashboard.py:95-124 | Fails exactly when a row lacks an id key, where building the map raises. Otherwise the table grows by the new updates, which follow the existing rows in batch order, and every existing row keeps its id. |
| WorkOrderTable.ReplacesKnownRow | src/visualization/work_order_dashboard.py:110-112 | An update for a known id that no later update repeats lands on that id's row. |
| WorkOrderTable.MergeSkipsMissingIds | src/visualization/work_order_dashboard.py:106-108 | Updates without a truthy id change nothing: merging only the others gives the same table. |
| WorkOrderTable.UpdateSkipsMissingIds | src/subsystems/visualization/work_order_dashboard.py:131-162 | Updates without a truthy id do not affect the updated table. |
| WorkOrderTable.EmptyBatch | src/visualization/work_order_dashboard.py:95-124 | An empty batch leaves a well-formed table unchanged. |
| DashboardEvents.Initial | src/subsystems/visualization/work_order_dashboard.py:195-264 | The dashboard starts with no work orders, operators or metrics, and does not block updates. |
| DashboardEvents.Table | src/subsystems/visualization/work_order_dashboard.py:409 | The table shows one row per local work order. |
| DashboardEvents.DataOf | src/subsystems/visualization/work_order_dashboard.py:382 | A message's data is its dictionary under 'data', and empty otherwise. |
| DashboardEvents.Objects | src/subsystems/visualization/work_order_dashboard.py:384-385 | The dictionaries of a list value, never more than the list holds. A non-list gives none. |
| DashboardEvents.ObjectItems | src/subsystems/visualization/work_order_dashboard.py:394-402 | The kept items are dictionaries taken from the list. |
| DashboardEvents.AddById | src/subsystems/visualization/work_order_dashboard.py:394-402 | Storing by truthy id adds exactly the truthy ids, appends new ids after the existing ones, and keeps entries no item names. |
| DashboardEvents.AddOne | src/subsystems/visualization/work_order_dashboard.py:395-397 | An item with a truthy id is stored under that id, and an item without one changes nothing. |
| DashboardEvents.AddByIdLastWins | src/subsystems/visualization/work_order_dashboard.py:394-397 | Of several items with one id, the last is stored. |
| DashboardEvents.Reset | src/subsystems/visualization/work_order_dashboard.py:344-372 | A reset clears the work orders, operators, metrics and table, and blocks granular updates. |
| DashboardEvents.Snapshot | src/subsystems/visualization/work_order_dashboard.py:374-433 | The corrected snapshot handler rebuilds once: the work orders and operators with truthy ids are added, the block is lifted, the time is taken over, and at most one confirmation is sent. |
| DashboardEvents.SnapshotAsWritten | src/subsystems/visualization/work_order_dashboard.py:374-453 | The handler as written raises exactly when the header is malformed, a first rebuild loop meets an item it cannot read or store, or a work order has no id key or an unhashable id. A malformed header changes nothing. A first loop that raises keeps the items it stored, sends nothing and leaves the block in place. Otherwise the handler is RebuildTwice. |
| DashboardEvents.LoopPrefix | src/subsystems/visualization/work_order_dashboard.py:394-402 | The first rebuild loop gets through the items before the first one that is not a dictionary or has an unhashable truthy id, and raises there. |
| DashboardEvents.VisitedAllWhenNoRaise | src/subsystems/visualization/work_order_dashboard.py:384-402 | When the header and the first loops pass, those loops visit exactly the snapshot's work orders and operators, so the first rebuild is the corrected one. |
| DashboardEvents.RebuildTwice | src/subsystems/visualization/work_order_dashboard.py:394-453 | Past the first loops, the handler raises exactly when a work order has no id key or an unhashable id. With a command queue it has then confirmed once, and otherwise twice. The block is lifted, the operators are rebuilt, and every work order before the first unstorable one is stored. |
| DashboardEvents.KeyedPrefix | src/subsystems/visualization/work_order_dashboard.py:438-439 | The repeated rebuild stores the work orders up to the first one without an id key or with an unhashable id, and raises there. That prefix is the whole list exactly when every work order can be stored. |
| DashboardEvents.AddAllById | src/subsystems/visualization/work_order_dashboard.py:438-439 | The repeated rebuild stores every work order under its id, truthy or not. |
| DashboardEvents.DoubleConfirmation | src/subsystems/visualization/work_order_dashboard.py:429-452 | With a command queue, the handler as written confirms a snapshot it does not raise on twice, and the corrected one confirms it once. |
| DashboardEvents.EmptyIdShownAsWritten | src/subsystems/visualization/work_order_dashboard.py:394-439 | A work order with an empty id is kept out by the first rebuild but let in by the repeated one. |
| DashboardEvents.Granular | src/subsystems/visualization/work_order_dashboard.py:455-561 | A granular event is ignored while rebuilding or for an unknown id. Otherwise only that work order is patched, and the table keeps its rows and order. |
| DashboardEvents.CompletedPatchFacts | src/subsystems/visualization/work_order_dashboard.py:549-552 | A completed work order reads completed with nothing remaining, and keeps its other fields. |
| DashboardEvents.MetricsUpdated | src/subsystems/visualization/work_order_dashboard.py:607-613 | Metrics are merged in unless rebuilding, and nothing else changes. |
| DashboardEvents.Handle | src/subsystems/visualization/work_order_dashboard.py:281-342 | An empty message or legacy mode changes nothing. A snapshot goes to the handler as written: it raises exactly when SnapshotAsWritten does, and it confirms at most twice. Confirmations come only from snapshots with a command queue. Every other event type is handled as in the corrected dashboard, which assumes well-formed payloads. |
| DashboardEvents.HandleCorrected | src/subsystems/visualization/work_order_dashboard.py:281-342 | With the corrected snapshot handler, an empty message or legacy mode changes nothing. A confirmation is sent only for a snapshot with a command queue, and at most once. |
| DashboardEvents.GranularBlockedAfterReset | src/subsystems/visualization/work_order_dashboard.py:460-461 | Between a reset and its snapshot, granular events are ignored. |
| DashboardEvents.SeekRebuildsFromSnapshot | src/subsystems/visualization/work_order_dashboard.py:344-417 | A reset followed by a snapshot gives the same work orders, operators and metrics whatever the dashboard held before. |
| DashboardEvents.SnapshotTableAfterReset | src/subsystems/visualization/work_order_dashboard.py:394-409 | After a reset and a snapshot, each truthy work-order id holds the snapshot's last entry for it, and that entry is shown in the table. |
| DashboardEvents.FindRow | src/subsystems/visualization/work_order_dashboard.py:571-579 | The first row with the id, or -1 exactly when no row has it. |
| BufferedDashboard.HandleMessage | src/visualization/work_order_dashboard.py:232-248 | A full state replaces the table and empties the buffer. A delta only appends its updates to the buffer. Anything else changes nothing. |
| BufferedDashboard.ProcessBufferedUpdates | src/visualization/work_order_dashboard.py:250-262 | An empty buffer changes nothing. Otherwise the buffer is merged into the table and emptied, and a merge that raises leaves both as they were. |
| BufferedDashboard.DeltasThenFlush | src/visualization/work_order_dashboard.py:244-262 | Two deltas and a flush merge their concatenated updates in one go. |
| BufferedDashboard.FullStateDiscardsDeltas | src/visualization/work_order_dashboard.py:239-242 | A full state discards the buffered deltas, so the next flush changes nothing. |
| ClockFormat.Pad2 | src/subsystems/visualization/dashboard_world_class.py:648 | A field prints with at least two characters, exactly two below 100, and starts with a digit exactly when it is non-negative. |
| ClockFormat.Pad2RoundTrip | src/subsystems/visualization/dashboard_world_class.py:648 | A printed field reads back as the same integer, sign included. |
| ClockFormat.Clock3RoundTrip | src/subsystems/visualization/dashboard_world_class.py:645-648 | HH:MM:SS with minutes and seconds below 60 reads back as 3600h + 60m + s. |
| ClockFormat.Clock2RoundTrip | src/subsystems/visualization/replay_scrubber.py:131-133 | MM:SS with seconds below 60 reads back as 60m + s. |
| ClockFormat.PyHhMmSs | src/subsystems/visualization/dashboard_world_class.py:635-648 | The clock is HH:MM:SS of fields with minutes and seconds in 0..59 that add up to the whole seconds, floored. Only the hours can be negative. |
| ClockFormat.PyHhMmSsFields | src/subsystems/visualization/dashboard_modern.py:524-529 | The three floor divisions on the float equal integer floor division and modulo of the whole seconds. |
| ClockFormat.PyHhMmSsRoundTrip | src/subsystems/visualization/dashboard_modern.py:524-529 | The printed HH:MM:SS reads back as the floor of the time. |
| ClockFormat.HmsDecomposition | src/subsystems/visualization/dashboard_world_class.py:645-647 | Hours, minutes of the hour and seconds of the minute add back up to the seconds. |
| ClockFormat.JsHhMmSs | web_prototype/static/right-dashboard.js:204-209 | For a non-negative time, the agent panel's clock prints the same text as the Python one. |
| ClockFormat.JsAgreesOnNonNegative | web_prototype/static/right-dashboard.js:205-207 | On a non-negative time, JavaScript's truncating % agrees with Python's flooring %. |
| ClockFormat.ScrubberTime | src/subsystems/visualization/replay_scrubber.py:131-133 | MM:SS of the truncated seconds, with seconds in 0..59 and minutes unbounded. |
| ClockFormat.ScrubberTimeRoundTrip | src/subsystems/visualization/replay_scrubber.py:131-133 | The printed MM:SS reads back as the truncated seconds. |
| ClockFormat.JsMmSs | web_prototype/static/app.js:915-919 | For a non-negative time, the controls' MM:SS is the same text as the scrubber's. |
| ClockFormat.ShortTime | src/subsystems/visualization/dashboard_world_class.py:616-633 | Under an hour, MM:SS as the scrubber prints it. From an hour on, HH:MMh, whose fields make up the whole minutes, with the seconds dropped. |
| ClockFormat.ShortHoursFields | src/subsystems/visualization/dashboard_world_class.py:630-632 | Hours and minutes of the hour make up the whole minutes. |
| ClockFormat.ScaledNumber | src/subsystems/visualization/dashboard_world_class.py:650-666 | The suffix is M from a million, K from a thousand, and none below. The scaled value times the suffix's factor is the number, and a suffixed value lies in [1, 1000) for K and at least 1 for M. |
| VisualState.Cleared | src/subsystems/visualization/state.py:76-89 | The reset state has no operators, work orders or metrics. It is running, shows the dashboard, and runs at 1x, which is an allowed speed. |
| VisualState.Speed | src/subsystems/visualization/state.py:201-212 | The stored speed, or 1.0 when none is stored. |
| VisualState.TogglePausa | src/subsystems/visualization/state.py:115-128 | The returned flag is the new pause flag and differs from the old one. Nothing else changes. |
| VisualState.ToggleDashboard | src/subsystems/visualization/state.py:131-144 | The returned flag is the new visibility and differs from the old one. Nothing else changes. |
| VisualState.ToggleTwiceIsIdentity | src/subsystems/visualization/state.py:115-144 | Toggling pause twice, or visibility twice, gives back the original state. |
| VisualState.NextAbove | src/subsystems/visualization/state.py:165-169 | When found, the value is on the ladder, above the speed, and no higher than any ladder value above the speed. Nothing is found exactly when no ladder value is above the speed. |
| VisualState.NextBelow | src/subsystems/visualization/state.py:190-194 | When found, the value is on the ladder, below the speed, and no lower than any ladder value below the speed. Nothing is found exactly when no ladder value is below the speed. |
| VisualState.Aumentar | src/subsystems/visualization/state.py:151-173 | Only the speed changes, and it lands on the ladder. It is the smallest allowed speed above the old one, or the top speed 10x when the old speed was already at the top or above it. |
| VisualState.Disminuir | src/subsystems/visualization/state.py:176-198 | Only the speed changes, and it lands on the ladder. It is the largest allowed speed below the old one, or the bottom speed 0.5x when the old speed was already at the bottom or below it. |
| VisualState.UpThenDown | src/subsystems/visualization/state.py:151-198 | From an allowed speed below the top, one step up and one step down return to the same speed. |
| VisualState.DownThenUp | src/subsystems/visualization/state.py:151-198 | From an allowed speed above the bottom, one step down and one step up return to the same speed. |
| ReplayScrubber.Init | src/subsystems/visualization/replay_scrubber.py:27-50 | A new bar is in a valid state: the range is 0 to 1 second, the time is at the start, and it is not dragging. |
| ReplayScrubber.Clamp01 | src/subsystems/visualization/replay_scrubber.py:84 | The result lies in [0, 1]. It is the input itself when that already lies there, and the nearer bound otherwise. |
| ReplayScrubber.TimeAt | src/subsystems/visualization/replay_scrubber.py:75-85 | The time lies within the range. Pointing at or left of the bar's left edge gives the start, and at or right of its right edge gives the end. |
| ReplayScrubber.Ratio | src/subsystems/visualization/replay_scrubber.py:83-84 | The quotient times the width gives back the offset. It is at most 0 left of the bar and at least 1 past its width. |
| ReplayScrubber.TimeAtMonotone | src/subsystems/visualization/replay_scrubber.py:75-85 | A mouse position further right never maps to an earlier time. |
| ReplayScrubber.HandleEvent | src/subsystems/visualization/replay_scrubber.py:52-73 | The state stays valid, and the bar and end time are unchanged. A seek is posted exactly on a left press inside the bar or a motion while dragging, and its target is the new time within the range. Otherwise the time is unchanged. Dragging starts on a left press inside the bar, ends on a left release, and is otherwise kept. |
| ReplayScrubber.Update | src/subsystems/visualization/replay_scrubber.py:94-104 | The end time is the total, raised to at least one second. While dragging the time stays put. Otherwise it follows the engine's time clamped into the range, and equals that time when it already lies in the range. |
| ReplayScrubber.PressRelease | src/subsystems/visualization/replay_scrubber.py:52-73 | A left press inside the bar then a left release seeks once to the pressed time and leaves the bar there, not dragging. |
| ReplayScrubber.DragOutlivesShorterTotal | src/subsystems/visualization/replay_scrubber.py:102-104 | A drag at 40 s survives an update whose total shrinks to 10 s, so the bar can show a time past its end. |
| DashboardPanels.Wip | src/subsystems/visualization/dashboard_world_class.py:333-335 | Work in progress is never negative and never below total minus completed. It is either zero or exactly that difference. |
| DashboardPanels.WipCompletesTotal | src/subsystems/visualization/dashboard_modern.py:417-418 | While no more orders are completed than exist, completed and in-progress orders add up to the total. |
| DashboardPanels.Progress | src/subsystems/visualization/dashboard_world_class.py:487-492 | With no orders the percentage is 0. Otherwise the percentage times the total is 100 times the completed count. |
| DashboardPanels.ProgressBounds | src/subsystems/visualization/dashboard_modern.py:492-507 | With no more completed than exist, the percentage lies in [0, 100]. It reaches 100 exactly when every order is completed. |
| DashboardPanels.ShownWip | web_prototype/static/right-dashboard.js:63-68 | A non-zero figure reported by the server is shown as is. A zero or missing one is replaced by the computed work in progress. |
| DashboardPanels.CardOperators | src/subsystems/visualization/dashboard_modern.py:447-449 | The cards go to a prefix of the operators in dictionary order. There are at most six, and all operators get one when there are six or fewer. |
| DashboardPanels.StateIconOf | src/subsystems/visualization/dashboard_modern.py:509-522 | The unknown-state icon is used exactly for a state outside the seven known ones. |
| DashboardPanels.StateIconsDistinct | src/subsystems/visualization/dashboard_modern.py:511-519 | Two states with the same known icon are the same state. |
| DashboardPanels.StatusText | web_prototype/static/right-dashboard.js:191-202 | A status whose lower-cased form is in the label table gets that label. Desconocido is shown exactly when it is not in the table. |
| DashboardPanels.StatusTextCaseInsensitive | web_prototype/static/right-dashboard.js:201 | The label does not depend on letter case. |
| DashboardPanels.LoadPercent | web_prototype/static/right-dashboard.js:167-169 | With a positive capacity the percentage times the capacity is 100 times the cargo. A zero capacity counts as 100 litres, so the percentage equals the cargo. A negative capacity gives 0. |
| DashboardPanels.LoadLevelOf | web_prototype/static/right-dashboard.js:170 | The level is low exactly below 30 %, medium exactly from 30 % up to 70 %, and high exactly from 70 % on. |
| DashboardPanels.LoadLevelMonotone | web_prototype/static/right-dashboard.js:170 | A larger load is never at a lower level. |
| DashboardPanels.NumOr | web_prototype/static/right-dashboard.js:167-168 | A non-zero number is read as is. Zero, missing or non-numeric values give the fallback. |
| DashboardPanels.StatusOf | web_prototype/static/right-dashboard.js:163 | A non-empty text status is used as is. Anything else reads as idle. |
| DashboardPanels.ItemOf | web_prototype/static/right-dashboard.js:147-170 | The line carries the agent's id, the label of its status, and the level of its cargo over its capacity. When it has assigned orders, its current order is the first one's id. |
| DashboardPanels.ItemsOf | web_prototype/static/right-dashboard.js:141-144 | One line per agent, in dictionary order, the line at each position built from the agent stored under that position's key. |
| DashboardPanels.Render | web_prototype/static/right-dashboard.js:128-144 | The no-operators notice appears exactly when the agents are missing or empty. Otherwise there is one line per agent, with ids in dictionary order. |
| DashboardPanels.UpdateOperators | web_prototype/static/right-dashboard.js:117-145 | Agents equal to the last ones rendered change nothing. Any others are rendered and remembered. |
| DashboardPanels.UpdateOperatorsIdempotent | web_prototype/static/right-dashboard.js:121-126 | Receiving the same agents a second time changes nothing. |
| DashboardPanels.UpdateShowsLast | web_prototype/static/right-dashboard.js:117-145 | After an update the panel remembers the agents just received and shows exactly their rendering. |
| CoreConfig.IntOf | src/core/config_manager.py:111 | A rule key converts exactly when it is decimal digits with an optional sign. Any other key is where Python raises. |
| CoreConfig.IntOfRoundTrip | src/core/config_manager.py:111 | A key written from an integer converts back to that integer, negative ones included. |
| CoreConfig.Renumber | src/core/config_manager.py:111 | The conversion succeeds exactly when every key converts. The new table then has each converted key and no more entries than the original. |
| CoreConfig.RenumberLastWins | src/core/config_manager.py:111 | When two keys convert to the same integer, the later key's value is the one kept. |
| CoreConfig.RenumberSource | src/core/config_manager.py:111 | Every integer key comes from some original key. |
| CoreConfig.RenumberCanonical | src/core/config_manager.py:111 | When the keys convert to distinct integers, nothing is lost. The table keeps its size, and each rule keeps its value under its integer key. |
| CoreConfig.SanitizeTable | src/core/config_manager.py:110-114 | A non-empty object is renumbered, and this succeeds exactly when every key converts to an integer. Anything else is kept as it is. |
| CoreConfig.SanitizeTables | src/core/config_manager.py:107-114 | The tables are sanitised exactly when every agent type's entry has only integer keys or is not a non-empty object. The agent types stay in their original order. Each one gets the sanitised form of its own entry. |
| CoreConfig.AsRead | src/core/config_manager.py:71-72 | The keys in file order, each with its value as read. |
| CoreConfig.Sanitize | src/core/config_manager.py:96-118 | A falsy assignment_rules leaves the configuration as read. A truthy non-object fails. A truthy object succeeds exactly when every table sanitises. On success the keys keep their order and every other key keeps its value. |
| CoreConfig.Load | src/core/config_manager.py:57-94 | The sanitised file when it parses and sanitises. The default when it is missing, does not parse or fails to sanitise. |
| CoreConfig.MissingKeys | src/core/config_manager.py:154-157 | A key is reported exactly when it is one of the required keys scanned and is absent from the configuration. |
| CoreConfig.Validate | src/core/config_manager.py:144-165 | Validation passes exactly when all three required keys are present. Otherwise the error lists exactly the absent ones, and at least one. |
| CoreConfig.GetValue | src/core/config_manager.py:176-187 | The stored value when the key is present, the given default otherwise. |
| CoreConfig.ValidIsLoaded | src/core/config_manager.py:189-196 | A configuration that validates counts as loaded. |
| CoreConfig.LoadKeepsPlainValues | src/core/config_manager.py:57-118 | After a successful load, any key other than assignment_rules reads back exactly as it was in the file. |
| WebConfig.NumOf | web_prototype/config_manager.py:109 | A value comparable with 0 is a number, or a boolean counting as 0 or 1. Anything else gives nothing, and a comparison on it raises. |
| WebConfig.PositiveCheck | web_prototype/config_manager.py:109 | A missing key reports the issue. A present key whose value is not comparable raises. The check passes exactly when the value is a positive number, and otherwise reports the one issue. |
| WebConfig.TypeCheck | web_prototype/config_manager.py:117-128 | A missing order type reports only that it is missing. The type raises no issue exactly when it has a numeric percentage and a volume, and it then adds its percentage to the total. |
| WebConfig.DistributionCheck | web_prototype/config_manager.py:112-133 | A missing distribution reports so. The check passes exactly when all three order types are complete and their percentages sum to 100. |
| WebConfig.NumericValues | web_prototype/config_manager.py:142 | The values in key order, one per key, present exactly when every value is numeric. |
| WebConfig.StagingCheck | web_prototype/config_manager.py:139-145 | Without a staging distribution there is nothing to report. The check passes exactly when the given distribution's numeric values sum to 100. |
| WebConfig.AgentCheck | web_prototype/config_manager.py:152-158 | An agent type raises no issue exactly when it has a type and a positive capacity and discharge time. |
| WebConfig.AgentsCheck | web_prototype/config_manager.py:152-158 | The agent types from a position on raise no issue exactly when each one passes. |
| WebConfig.AgentTypesCheck | web_prototype/config_manager.py:147-158 | Absent agent types pass. A non-list reports exactly that it is not a list. Otherwise the check passes exactly when every agent type does. |
| WebConfig.Validate | web_prototype/config_manager.py:95-174 | A configuration raises no issue exactly when it is acceptable: positive order count and cart capacity, a full distribution summing to 100, a staging distribution summing to 100 if given, and well-formed agent types if given. A missing order count or distribution is always reported. |
| WebConfig.AcceptedEssentials | web_prototype/config_manager.py:108-137 | An accepted configuration has a positive order count and cart capacity, and all three order types. |
| WebConfig.SaveConfig | web_prototype/config_manager.py:58-93 | The save succeeds exactly when the configuration validates and the writes go through. It then stores the configuration and moves any previous file to the backup. On failure both files are untouched and an error is reported, namely the validation issues when there are any. |
| WebConfig.SaveThenLoad | web_prototype/config_manager.py:36-93 | After a successful save, loading gives back the configuration saved. |
| WebConfig.LoadConfig | web_prototype/config_manager.py:36-56 | The stored configuration when there is one, the built-in default otherwise. |
| WebConfig.WorkAreaColumn | web_prototype/config_manager.py:216-221 | The column found is the first header at or after the start position mentioning WorkArea. Nothing is found exactly when no such header exists. |
| WebConfig.AreasIn | web_prototype/config_manager.py:225-229 | The areas have no repeats, and are exactly the non-empty cells of the column over the rows. |
| WebConfig.ExtractWorkAreas | web_prototype/config_manager.py:176-239 | The areas have no repeats and are in text order. They are empty without a sheet or a WorkArea column, and otherwise are exactly the column's non-empty cells. |
| WebConfig.SetDefaults | web_prototype/config_manager.py:458-487 | Only the default flags change. The kept id, if any, is the only preset left marked default. |
| WebConfig.SavePreset | web_prototype/config_manager.py:291-343 | The preset is stored exactly when the configuration validates. It is added last under its fresh id, with the data given. Existing presets keep their configurations, and stay default only if the new one is not. At most one default remains. |
| WebConfig.AddKeepsOneDefault | web_prototype/config_manager.py:327-335 | Adding a new default to a store that has none, or adding a non-default, keeps at most one default. |
| WebConfig.SetDefault | web_prototype/config_manager.py:400-435 | An unknown id fails. Otherwise the chosen preset becomes the only default, and the ids and configurations are unchanged. |
| WebConfig.DeletePreset | web_prototype/config_manager.py:374-398 | An unknown id fails. Otherwise exactly that preset is removed, and every other one is kept unchanged. |
| WebConfig.LoadPreset | web_prototype/config_manager.py:345-372 | A configuration is returned exactly for a stored id, and it is that preset's configuration. |
| WebConfig.SaveThenLoadPreset | web_prototype/config_manager.py:291-372 | A saved preset loads back as the configuration given to the save. |
| WebConfig.EntriesFrom | web_prototype/config_manager.py:254-275 | One entry per preset from a position on, in directory order, each with its id and stored data. |
| WebConfig.ListPresets | web_prototype/config_manager.py:241-289 | Every preset is listed once, newest first by creation time. |
| WebConfig.ListPresetsComplete | web_prototype/config_manager.py:254-282 | Every listed entry is a stored preset under its own id, and every stored preset is listed. |
| WebConfig.FirstDefault | web_prototype/config_manager.py:447-449 | When found, the entry is in the listing and marked default. Nothing is found exactly when no entry is marked default. |
| WebConfig.DefaultConfiguration | web_prototype/config_manager.py:437-456 | A configuration is returned exactly when some preset is the default, and it is that preset's configuration. |
| WebConfig.SetDefaultThenGet | web_prototype/config_manager.py:400-456 | After choosing a default, the default configuration is the chosen preset's. |
| Fleet.PrioritiesOf | web_prototype/static/web_configurator/fleet-manager.js:286-295 | A work area has a priority exactly when some row names it, leaving out rows without a work area when those are dropped. |
| Fleet.PrioritiesLastWins | configurator.py:1980-1984 | A work area's priority is the one on the last row naming it. |
| Fleet.Copies | configurator.py:1986-1993 | Exactly the count's worth of copies of the agent, and none for a count that is not positive. |
| Fleet.Expand | configurator.py:1969-1995 | The agents number exactly the slots' positive counts added up. |
| Fleet.ExpandMembers | configurator.py:1973-1993 | Every expanded agent is the agent of one of the slots. |
| Fleet.OfKind | web_prototype/static/web_configurator/fleet-manager.js:298-304 | Each slot, in order, is given the agent type of the container it sits in. |
| Fleet.SerializeFleet | web_prototype/static/web_configurator/fleet-manager.js:273-342 | The ground-operator groups expanded, then the forklift groups expanded, with rows without a work area left out. Every agent is a ground operator or a forklift and has no empty work area. The agents number the two totals added up. |
| Fleet.SlotTotalKind | web_prototype/static/web_configurator/fleet-manager.js:280-338 | Giving the slots a container's type does not change how many agents they stand for. |
| Fleet.Find | configurator.py:2011 | When found, the group is the first whose key matches. Nothing is found exactly when no group's key matches. |
| Fleet.GroupFromCounts | configurator.py:2001-2020 | Grouping loses no agent: the counts grow by exactly the number of agents added. |
| Fleet.GroupFromDistinct | configurator.py:2007-2018 | Grouping keeps the groups' keys distinct. |
| Fleet.GroupFromCovers | configurator.py:2001-2022 | Every agent's key has a group, and the groups already present keep their positions and keys. |
| Fleet.GroupFromAppend | configurator.py:2001-2020 | Grouping two runs of agents at once is the same as grouping the first run, then the second. |
| Fleet.CopiesJoinLast | configurator.py:2011-2020 | More copies of the agent of a group not shared with an earlier one only raise that group's count. |
| Fleet.SlotGroup | configurator.py:2011-2018 | The group a slot becomes stands for the slot's agent. |
| Fleet.SlotCopiesGroup | configurator.py:2001-2020 | A slot's copies, added to groups that do not hold its agent, become one group of the slot's count. |
| Fleet.ExpandThenGroupFrom | configurator.py:1969-2022 | Expanding slots with distinct agents and positive counts, then grouping after groups that hold none of them, appends exactly one group per slot. |
| Fleet.WithDefaults | configurator.py:2002-2005 | A missing type reads as GroundOperator, a missing capacity as 150, a missing discharge time as 5, and missing priorities as none. |
| Fleet.GroupForUi | configurator.py:1997-2022 | The groups' counts add up to the number of stored agents, and no two groups share a key. |
| Fleet.LoadFleetGroups | web_prototype/static/web_configurator/fleet-manager.js:344-367 | The groups' counts add up to the number of agents, and no two groups share a key. |
| Fleet.ConvertThenGroup | configurator.py:1969-2022 | Slots with distinct agents and positive counts, converted to agents and grouped again, give back one group per slot with its count. |
| Fleet.SerializeThenLoad | web_prototype/static/web_configurator/fleet-manager.js:273-367 | The browser editor's serialise then load gives back one group per slot with its count, for slots with distinct agents and positive counts. |
| Fleet.EntryOrderSplitsBrowserGroups | web_prototype/static/web_configurator/fleet-manager.js:355 | Two agents with the same priorities entered in a different order form one group on the desktop and two in the browser. |
| Fleet.Renumber | web_prototype/static/web_configurator/fleet-manager.js:165-180 | Each group keeps its place and is numbered by its position. |
| Fleet.RemoveGroup | web_prototype/static/web_configurator/fleet-manager.js:147-163 | The remaining groups are those with a different number, numbered by position. |
| Fleet.RemoveGroupShifts | web_prototype/static/web_configurator/fleet-manager.js:147-180 | In a list numbered by position, removing a group drops exactly that group. The earlier ones stay as they were, and the later ones move down one place. |
| Fleet.RefreshSelection | web_prototype/static/web_configurator/fleet-manager.js:40-66 | The selection is empty or one of the work areas. The previous choice survives exactly when it is empty or still a work area. |
| Configurator.DesktopPercentages | configurator.py:1203-1215 | The check fails whenever a field does not hold an integer. When all three do, it passes exactly when they sum to 100. |
| Configurator.OrZero | web_prototype/static/web_configurator/app.js:193-195 | A parsed value is kept as is, and text that does not parse counts as 0. |
| Configurator.BrowserPercentages | web_prototype/static/web_configurator/app.js:192-208 | The check passes exactly when the three fields sum to 100, with unparsable ones read as 0. |
| Configurator.PercentagesAgree | web_prototype/static/web_configurator/app.js:192-208 | On fields that all parse, the two editors agree. Whatever the desktop accepts the browser accepts. The browser alone accepts an empty field when the other two make 100. |
| Configurator.SumParsed | configurator.py:1225 | A sum is found exactly when every share parses. |
| Configurator.SumParsedIsSumOrZero | configurator.py:1225 | When every share parses, the desktop's sum equals the browser's. |
| Configurator.DesktopStaging | configurator.py:1222-1235 | The shares are accepted only when every one parses and they sum to 100. |
| Configurator.BrowserStaging | web_prototype/static/web_configurator/app.js:210-227 | The seven shares are accepted exactly when they sum to 100, with unparsable ones read as 0. Whatever the desktop accepts the browser accepts. |
| Configurator.PickingCheck | configurator.py:1237-1258 | The check passes exactly when orders, cart capacity and resources are positive and the percentages sum to 100. The order count is reported exactly when it is not positive. The resources are reported only when everything checked before them passed. |
| Configurator.CountsOf | web_prototype/static/web_configurator/app.js:368-383 | The ground-operator count and the forklift count are the numbers of agents of each type. The total is their sum and never exceeds the number of agents. |
| Configurator.CountCopies | web_prototype/static/web_configurator/app.js:372-378 | Copies of one agent are counted all or none, depending on its type. |
| Configurator.CountExpandOfKind | web_prototype/static/web_configurator/app.js:372-378 | The expanded agents of one container are counted as the container's total when their type is counted, and as none otherwise. |
| Configurator.SerializedCounts | web_prototype/static/web_configurator/app.js:368-383 | On a serialised fleet, the legacy counts are the slot totals of each container, and the total is the number of agents. |
| Configurator.FirstNormalized | web_prototype/static/web_configurator/app.js:479-485 | When found, the option is one of the options and normalises like the value. Nothing is found exactly when no option does. |
| Configurator.SetSelectValue | web_prototype/static/web_configurator/app.js:467-489 | An exact option is chosen first. Failing that, an option that normalises like the value is chosen. Failing both, the selection is unchanged. |
| Configurator.NameExists | configurator.py:2642-2645 | True exactly when some entry's name equals the given name, ignoring letter case. |
| Configurator.SetAsDefault | configurator.py:2669-2676 | Only the default flags change, and exactly the entries with the chosen id are flagged. |
| Configurator.SetAsDefaultOneDefault | configurator.py:2669-2676 | With distinct ids, at most one entry is the default afterwards, and the chosen one is when present. |
| Configurator.FindId | configurator.py:2571-2574 | When found, the position is the first entry with the id. Nothing is found exactly when no entry has it. |
| Configurator.DeleteEntry | configurator.py:2555-2601 | An unknown id is an error. Otherwise exactly one entry is removed. With distinct ids the remaining entries are exactly those with another id. |
| Configurator.FindName | configurator.py:2418-2423 | When found, the entry's name matches the given name, ignoring letter case. Nothing is found exactly when no name matches. |
| Configurator.RemoveAt | configurator.py:2590 | The entries before the position stay, and the ones after it move down one place. |
| Configurator.Prepare | configurator.py:2410-2430 | The index is either unchanged or has exactly one entry removed. Without overwriting, the index is unchanged and the id is built from the name and time stamp. It fails only when overwriting a given target id. |
| Configurator.Commit | configurator.py:2432-2460 | The new entry is appended under the id with the requested data. Existing entries keep their ids and names. A default entry becomes the only default among the other ids. A non-default entry is simply appended. |
| Configurator.SaveEntry | configurator.py:2389-2470 | An existing name is refused unless overwriting, and a new name without overwriting is accepted. The saved entry is last, under the returned id, with the requested name and flag. A default save leaves flagged exactly the entries with that id. Without overwriting, the id comes from the name and time stamp and the index grows by one. |
| Configurator.SaveEntryUniqueId | configurator.py:2424-2430 | The save succeeds only as the original would. It refuses only when the original would have reused an id already in the index. Distinct ids stay distinct. |
| Configurator.RemoveAtKeepsIdsDistinct | configurator.py:2413-2421 | Removing at most one entry keeps the ids distinct. |
| Configurator.SaveEntryDuplicatesId | configurator.py:2424-2430 | Saving "a b" and then "a_b" in the same second passes the name check twice, yet leaves two entries with the same id. |
| Configurator.UniqueIdRefusesCollision | configurator.py:2424-2430 | The corrected save refuses the second of those names. |
| Configurator.SaveKeepsNamesDistinct | configurator.py:2406-2408 | A save without overwriting keeps the names distinct, ignoring letter case. |
| Configurator.SpaceAndUnderscoreShareId | configurator.py:2426-2430 | "a_b" does not clash by name with "a b", but both map to the same id for the same time stamp. |
| Configurator.AnyTag | configurator.py:2630-2631 | True exactly when some tag contains the query, ignoring letter case. |
| Configurator.Search | configurator.py:2603-2640 | The result is the listing's entries whose name, description or a tag contains the lower-cased query, in listing order. |
| Configurator.SearchSound | configurator.py:2614-2636 | Every result is a matching entry of the listing, and no matching entry is missed or repeated. |
| Configurator.ListEntries | configurator.py:2525-2553 | The listing holds the index's entries, most recently modified first. |
| Configurator.DefaultId | configurator.py:2678-2702 | An id is found exactly when some entry is a default, and it is the id of the first such entry in index order. |
| Configurator.SetAsDefaultThenDefaultId | configurator.py:2669-2702 | After marking an id present in the index as the default, the default found is that id. |
| Configurator.PyIn | configurator.py:2792 | Python's membership test on the metadata: a key of an object, an element of a list, or a substring of text. Any other value raises. |
| Configurator.MissingFrom | configurator.py:2791-2793 | Nothing is missing exactly when every remaining required field is in the metadata. Otherwise the report names a required field, or says the test raised. |
| Configurator.ValidateStructure | configurator.py:2775-2798 | A stored file is valid exactly when it is an object with metadata and a configuration, and the metadata holds every required field. A non-object is reported as such. |
| ExportContext.Fresh | legacy/analytics_OLD/context.py:115-139 | A new export result is successful, with no files, errors or warnings and zero duration. |
| ExportContext.AddFile | legacy/analytics_OLD/context.py:141-143 | `add_file` appends the path to the files and changes nothing else. |
| ExportContext.AddError | legacy/analytics_OLD/context.py:145-148 | `add_error` appends the message and marks the export failed, changing nothing else. |
| ExportContext.AddWarning | legacy/analytics_OLD/context.py:150-152 | `add_warning` appends the message and never changes the outcome. |
| ExportContext.SetExecutionTime | legacy/analytics_OLD/context.py:154-156 | The execution time is the end reading minus the start reading. |
| ExportContext.ApplyStep | legacy/analytics_OLD/context.py:141-156 | Each bookkeeping call keeps "successful iff no errors" and records its path or error. |
| ExportContext.BookkeepingConsistent | legacy/analytics_OLD/context.py:141-156 | After any sequence of bookkeeping calls the export is successful exactly when no error was recorded, and it lists every file and error in call order. |
| ExportContext.WarningsOnly | legacy/analytics_OLD/context.py:150-152 | An export that records only files, warnings and timings stays successful. |
| ExportContext.NoMessages | legacy/analytics_OLD/context.py:145-148 | Without error calls no error message is recorded. |
| ExportContext.RemoveFiles | legacy/analytics_OLD/context.py:168-178 | The files removed are exactly the recorded ones still present whose removal succeeds; the pass succeeds iff no present file fails to be removed. |
| ExportContext.RollbackOnFailure | legacy/analytics_OLD/context.py:158-191 | After a success nothing is removed and the rollback succeeds; after a failure every present file is tried, a failure makes the rollback fail without stopping it, and the directory goes only when it is empty. |
| ExportContext.PostInit | legacy/analytics_OLD/context.py:43-52 | A missing event log is taken from the warehouse and a missing output directory becomes `output/simulation_<time stamp>`; nothing else changes. |
| ExportContext.Validate | legacy/analytics_OLD/context.py:73-97 | Validation succeeds iff a warehouse and a non-empty time stamp are present; an empty configuration becomes `{}`; only configuration and event log change. |
| ExportContext.ValidateIdempotent | legacy/analytics_OLD/context.py:73-97 | Validating an already validated context changes nothing. |
| ExportContext.Metadata | legacy/analytics_OLD/context.py:99-112 | The metadata carries the context's time stamp and directory, the number of logged events (0 without a log) and the configuration keys. |
| TableSort.Initial | web_prototype/static/app.js:92-93 | Both tables start sorted by the `id` column, ascending. |
| TableSort.Click | web_prototype/static/app.js:198-205 | A click on the current column flips the direction; a click on another column selects it ascending. |
| TableSort.ClickTwice | web_dashboard/app.js:197-203 | Two clicks on the current column restore the sort; two clicks on a new column leave it descending. |
| TableSort.CellOf | web_prototype/static/app.js:245-246 | A missing or null cell compares as the empty string; any other cell is compared as it is. |
| TableSort.JsText | web_prototype/static/app.js:254-255 | A string cell is its own text and a number's text is `String(n)`. |
| TableSort.SortRows | web_prototype/static/app.js:243-263 | Sorting rows for display only reorders them: the result is a permutation of the rows. |
| TableSort.NumericOrderIsPreorder | web_prototype/static/app.js:249-251 | On numeric cells the comparator is a total preorder in either direction. |
| TableSort.TextOrderIsPreorder | web_prototype/static/app.js:253-261 | On lower-cased text the comparator is a total preorder in either direction. |
| TableSort.SortedFrom | web_prototype/static/app.js:243-263 | Every displayed row is one of the input rows. |
| TableSort.NumericColumnOrdered | web_prototype/static/app.js:249-251 | A column holding only numbers is shown in numeric order, ascending or descending as chosen. |
| TableSort.NumericAgree | web_dashboard/app.js:131-135 | On an all-numeric column the mixed comparator sorts exactly as plain numeric order. |
| TableSort.TextAgree | web_dashboard/app.js:137-143 | On a column without numbers the mixed comparator sorts exactly as lower-cased text order. |
| TableSort.TextColumnOrdered | web_dashboard/app.js:126-144 | A column without numbers is shown in lower-cased text order in the chosen direction. |
| TableSort.MixedColumnNotTransitive | web_prototype/static/app.js:244-262 | With numbers and numeric text mixed the comparator is not transitive: 10 before "5", "5" before 9, yet 10 not before 9. |
| WebControls.Initial | web_prototype/static/app.js:77-93 | The page starts at time 0 with end time 0, paused, at speed 1, with no request in flight. |
| WebControls.WorkOrdersOf | web_prototype/static/app.js:121-124 | The work-order map is the answer's object entries, or empty for a falsy or non-object value. |
| WebControls.AgentsOf | web_prototype/static/app.js:126-129 | The agents are the answer's value when truthy, otherwise an empty object. |
| WebControls.SeekTo | web_prototype/static/app.js:811-829 | A seek aborts the request holding the controller, starts a new one for the time, and records the fetch. |
| WebControls.TickTarget | web_prototype/static/app.js:761-767 | A tick moves by elapsed ms / 1000 × speed, clamped to the end time when one is known. |
| WebControls.TickClampsAndStops | web_prototype/static/app.js:756-770 | A tick while playing fetches the clamped time and stops exactly when the end is reached; a tick after stopping does nothing. |
| WebControls.Inputs | web_prototype/static/app.js:788-809 | A run of slider inputs is one input event per value, in order. |
| WebControls.InputsDoNotFetch | web_prototype/static/app.js:788-809 | Slider inputs stop playback and show the last value at once, and start no fetch before the debounce fires. |
| WebControls.OnlyLastInputFetches | web_prototype/static/app.js:799-808 | Any number of inputs followed by the debounce timer fetch only the last value. |
| WebControls.RunAppend | web_prototype/static/app.js:738-859 | Running two event sequences in turn equals running their concatenation. |
| WebControls.AbortedAnswerIgnored | web_prototype/static/app.js:847-856 | The answer or failure of a request aborted by a newer seek changes nothing. |
| WebControls.FailureKeepsDisplay | web_prototype/static/app.js:847-858 | A failed fetch leaves the displayed time, end time, work orders and agents as they were. |
| WebControls.AnswerShown | web_prototype/static/app.js:837-840 | The answer of a live request sets the time it asked for, the answer's end time and its work orders. |
| WebControls.InitialOneLive | web_prototype/static/app.js:811-819 | At load no request is in flight, so at most one is. |
| WebControls.Arrive | web_prototype/static/app.js:836-840 | An answer changes the page only while its request is still fetching. It then shows the time that request asked for and moves the request to its metrics fetch. It never touches the controller, playback or the fetch log. |
| WebControls.FinishMetrics | web_prototype/static/app.js:843-846 | Corrected hand-off: the controller changes only when the request that holds it finishes, and it is then cleared. Nothing else but the finishing set changes. |
| WebControls.Step | web_prototype/static/app.js:738-859 | On the corrected page, each event appends at most one fetch to the log, with one new request id per fetch. The controller either passes to the new request or is given up by its own request. |
| WebControls.Run | web_prototype/static/app.js:738-859 | On the corrected page, any run of events extends the fetch log, with one new request id per new fetch. |
| WebControls.StepKeepsOneLive | web_prototype/static/app.js:811-859 | On the corrected page, every event keeps the invariant that only the latest request, the one holding the controller, can still be fetching. |
| WebControls.SeekToOneLive | web_prototype/static/app.js:813-819 | Starting a seek keeps at most one request in flight, since the previous holder is aborted. |
| WebControls.RunKeepsOneLive | web_prototype/static/app.js:811-859 | On the corrected page, any sequence of events keeps at most one request in flight. |
| WebControls.OnlyLatestShown | web_prototype/static/app.js:836-846 | On the corrected page, an answer that changes the display belongs to the most recently started request. |
| WebControls.StaleAnswerShownAsWritten | web_prototype/static/app.js:843-846 | As written, clearing the controller after the metrics fetch lets an older request's late answer replace the newest time (20 shown after seeking to 30). |
| WebControls.StaleAnswerIgnored | web_prototype/static/app.js:811-859 | With the controller cleared only by its own request, the same events leave the display on the newest time, 30. |
| WebCanvas.Wrap32 | web_prototype/static/app.js:692-693 | JavaScript's 32-bit wrap-around: the result is a signed 32-bit integer. |
| WebCanvas.ModUnique | web_prototype/static/app.js:693 | A remainder modulo 2^32 is fixed by any quotient-remainder split. |
| WebCanvas.Wrap32Congruent | web_prototype/static/app.js:693 | Values differing by a multiple of 2^32 wrap to the same 32-bit integer. |
| WebCanvas.Wrap32Shift | web_prototype/static/app.js:693 | Wrapping changes a value by a multiple of 2^32. |
| WebCanvas.Hash | web_prototype/static/app.js:690-694 | The colour hash of an agent id is a signed 32-bit integer. |
| WebCanvas.HashIsPolynomial | web_prototype/static/app.js:690-694 | The shift-subtract-and-wrap loop equals the base-31 polynomial of the character codes reduced to 32 bits. |
| WebCanvas.ColorIndex | web_prototype/static/app.js:695 | The palette index `abs(hash) % 12` is always in [0, 12). |
| WebCanvas.ColorFromPolynomial | web_prototype/static/app.js:688-697 | Ids whose polynomials agree modulo 2^32 get the same colour. |
| WebCanvas.OperatorColor | web_prototype/static/app.js:688-698 | Every operator colour is one of the twelve palette entries. |
| WebCanvas.FindPos | web_prototype/static/app.js:575 | Finds the index of the location already recorded at a position, or -1 when there is none. |
| WebCanvas.CountSnoc | web_prototype/static/app.js:566-584 | Counting over a prefix grows by one exactly when the next work order matches. |
| WebCanvas.StopsCount | web_prototype/static/app.js:564-584 | The location map has one entry per position, counting exactly the work orders at it, and covers every placed work order. |
| WebCanvas.CountsOf | web_prototype/static/app.js:583 | The counts column has one entry per location, equal to its work-order count. |
| WebCanvas.SumUpdate | web_prototype/static/app.js:583 | Incrementing one count changes the total by the same amount. |
| WebCanvas.StopsTotal | web_prototype/static/app.js:564-584 | The locations' counts add up to the number of work orders with a two-element location. |
| WebCanvas.BySeqIsPreorder | web_prototype/static/app.js:586-587 | Ordering locations by `minSequence` is a total preorder. |
| WebCanvas.Accumulated | web_prototype/static/app.js:589-597 | There is one running total per location. |
| WebCanvas.AccumulatedSteps | web_prototype/static/app.js:590-596 | The labels are prefix sums: the first is its count, each next adds its count, and the last is the total. |
| WebCanvas.PickingNodes | web_prototype/static/app.js:556-562 | An agent that is idle, completed or has no work orders gets no picking nodes. |
| WebCanvas.PickingOrder | web_prototype/static/app.js:586-587 | The drawn locations are sorted by pick sequence. |
| WebCanvas.NodesOf | web_prototype/static/app.js:589-603 | Each node keeps its location's position and is labelled with the running total up to it. |
| WebCanvas.SortKeepsSum | web_prototype/static/app.js:586-587 | Sorting the locations keeps the same locations and the same total count. |
| WebCanvas.SumCons | web_prototype/static/app.js:591-592 | The sum of a sequence with a first element added grows by that element. |
| WebCanvas.CountsCons | web_prototype/static/app.js:591-592 | Adding a location in front adds its count to the total. |
| WebCanvas.SumCountsInsert | web_prototype/static/app.js:586-587 | Inserting a location into sorted order adds its count to the total. |
| WebCanvas.SumCountsSort | web_prototype/static/app.js:586-587 | The total count does not depend on the order of the locations. |
| WebCanvas.SortedStopsFacts | web_prototype/static/app.js:564-587 | The sorted locations are distinct, each holds a work order, and together they hold every placed one. |
| WebCanvas.SortedStopsCover | web_prototype/static/app.js:564-587 | A position is drawn exactly when some work order is placed there. |
| WebCanvas.NodesOfMeaning | web_prototype/static/app.js:589-603 | Over distinct non-empty locations the node labels are distinct, strictly increasing and end at the total. |
| WebCanvas.PickingNodesMeaning | web_prototype/static/app.js:552-603 | An active agent gets one node per distinct location in route order, numbered with strictly increasing running totals ending at its placed work-order count. |
| WebCanvas.CountPositiveFromStop | web_prototype/static/app.js:575-583 | A location is recorded only once a work order is placed there, so its count is at least one. |
| WebCanvas.StrictlyIncreasing | web_prototype/static/app.js:590-596 | Prefix sums of positive counts strictly increase. |
| WebCanvas.StrictlyIncreasingFrom | web_prototype/static/app.js:590-596 | Any later prefix sum of positive counts exceeds an earlier one. |
| WebCanvas.DistinctAfterSort | web_prototype/static/app.js:586-587 | A permutation of locations with distinct positions still has distinct positions. |
| WebCanvas.FitScale | web_prototype/static/app.js:359-365 | The canvas scale never exceeds 1, fits the layout in both directions, and is as large as allowed. |
| WebCanvas.ClampPercent | web_prototype/static/app.js:969-970 | The dragged panel height is clamped to [30, 85] %, and a value already in range is kept. |
| WebCanvas.ResizeStaysInRange | web_prototype/static/app.js:942-984 | From an in-range state, any sequence of drags, drag ends and reloads keeps the panel height and the stored value in [30, 85] %. |
| WebDashboard.Initial | web_dashboard/app.js:7-17 | The dashboard starts with no work orders at time 0, end time 0, sorted by id ascending, paused at speed 1. |
| WebDashboard.MaxTimeOf | web_dashboard/app.js:81-83 | The end time is replaced by a non-zero `max_time` from the answer and kept otherwise. |
| WebDashboard.EntriesOf | web_dashboard/app.js:84-90 | The work orders are the answer's `work_orders` object, or none when it is not an object. |
| WebDashboard.UpdateAt | web_dashboard/app.js:71-103 | A failed or empty fetch changes nothing; a successful one sets the time, the end time and the work orders and nothing else. |
| WebDashboard.NoStaleWorkOrders | web_dashboard/app.js:84-90 | After an update a work order is present exactly when the new answer lists it: the map is cleared and rebuilt. |
| WebDashboard.Start | web_dashboard/app.js:271-303 | Starting playback sets it playing and changes nothing else; it is a no-op when already playing. |
| WebDashboard.Stop | web_dashboard/app.js:305-322 | Stopping playback clears the flag and changes nothing else; it is a no-op when not playing. |
| WebDashboard.StartStopIdempotent | web_dashboard/app.js:271-308 | Starting or stopping twice is the same as once. |
| WebDashboard.Tick | web_dashboard/app.js:284-300 | A tick after playback stopped leaves the dashboard unchanged. |
| WebDashboard.TickClampsAndStops | web_dashboard/app.js:286-297 | A tick asks for at most the end time, stops exactly when the end is reached, and shows the tick's time when the fetch succeeds. |
| WebDashboard.NoLoopAtEnd | web_dashboard/app.js:290-297 | Once the end is reached, later ticks change nothing: playback does not loop back. |
| WebDashboard.Seek | web_dashboard/app.js:221-230 | Moving the slider stops playback and then shows the chosen time when the fetch succeeds. |
| WebDashboard.Reset | web_dashboard/app.js:324-327 | Reset stops playback and then shows time 0 when the fetch succeeds. |
| WebDashboard.ClickHeader | web_dashboard/app.js:194-211 | A header click updates only the sort state, by the shared click rule. |
| WebDashboard.Rows | web_dashboard/app.js:126-144 | The table shows a permutation of the current work orders. |
| WebDashboard.StatusClass | web_dashboard/app.js:158-159 | The row class is `status-` followed by the status, or `status-released` when the status is missing. |
| WebDashboard.CellText | web_dashboard/app.js:161-179 | A null or missing cell is rendered as the empty string. |
| WebDashboard.ItemTexts | web_dashboard/app.js:165-167 | Each element of a location array is rendered with `String`. |
| WebDashboard.CellFormats | web_dashboard/app.js:161-179 | A location pair renders as `(x, y)` and a progress fraction as `fixed(100·p, 1)%`. |

## Left out

- Rendering and user interfaces are not modelled: pygame, Tk and Qt widgets, DOM manipulation, drawing, icons and colours have no logic to prove.
- SimPy processes, main loops and the operators' movement over time are not modelled, because their timing comes from the simulation kernel. Only the decisions those loops make are modelled.
- Multiprocessing, threads, asyncio, queues between processes and transport retries are not modelled, because concurrency is outside a sequential model.
- Loading files through openpyxl, pytmx and PIL, JSON file persistence, the FastAPI wiring and pandas analytics are not modelled. Their results enter as parameters.
- Random choices, uuids and clocks are parameters, because they are nondeterministic.
- Floating-point numbers are modelled as `real`, so rounding error and IEEE special values are not modelled.
- Square roots are not available on `real`. Euclidean distances are therefore handled in one of two ways: compared through squared lengths, or summed from per-step lengths given as a parameter.
- A* optimality is not proved. Only path validity, the failure cases and the start/goal conventions are proved.
- The repository's patch, debug, demo and test scripts are not modelled, because they are not part of the system's behaviour.
- LayoutManager.ExtractPickingPoints: states that each extracted point is a picking tile, but not that every picking tile is extracted.
- Dispatcher: agents are keyed by type and id, and queues hold work-order ids rather than shared objects. Logging and prints are omitted.
- Dispatcher.ConstruirTour: an exception raised while building a tour is modelled as None, which is what the caller does with it.
- BoundsChecker: the debug lookup and the global installation hooks are omitted, because they only print or patch modules.
- TmxCoords: reading the WH1 layout file is a parameter, and so is `random.choice` (a `pick` parameter). `debug_info` is omitted.
- TmxCoords.ActivateInv: stated only for layouts with positive tile sizes. `activate_tmx_mode` also accepts a zero tile size from the TMX file (Activate, ActivateSpec and EmptyVisualKeepsSettings cover that case), but the bounds it then stores have a zero tile size, which later pixel-to-grid conversions divide by.
- Routing: the square root of the Euclidean step length is a parameter.
- ExportContext: the warehouse is reduced to whether it is present and its optional event log. File-system probes are parameters. The generation time stamp, prints and `get_summary` are omitted.
- Assignment: a `posicion_grilla` of None is treated as absent.
- Assignment.CalculateCost: as written, `calculate_cost` raises AttributeError for every operator, because its log line reads `operator.tipo` and operators only have `type`. The model returns the cost the function computes before that line, and the strategies and the dispatcher use this corrected cost. The raising version is CalculateCostAsWritten (see Findings).
- TableSort: `String(n)` for a number is a parameter `show`. Lower-casing covers ASCII letters only, and strings compare by code point rather than by UTF-16 code unit. A column that mixes numbers and text has no consistent order (see TableSort.MixedColumnNotTransitive), so no order is stated for one.
- WebControls: timers are modelled as explicit events. The loading overlay and the DOM updates are omitted.
- WebControls.Step: models the corrected hand-off of web_prototype/static/app.js:845-846, where only the request that holds the controller clears it. The page as written is StepAsWritten and RunAsWritten (see Findings).
- WebControls.Run: the corrected page, as for WebControls.Step.
- WebControls.FinishMetrics: the corrected hand-off; FinishMetricsAsWritten clears the controller whoever holds it.
- WebControls.StepKeepsOneLive: holds for the corrected page only. As written, a stale completion clears a newer request's controller, so two requests can be fetching (StaleAnswerShownAsWritten).
- WebControls.RunKeepsOneLive: holds for the corrected page only, as for WebControls.StepKeepsOneLive.
- WebControls.OnlyLatestShown: holds for the corrected page only. As written, an older request's late answer can be shown (StaleAnswerShownAsWritten).
- WebCanvas: character codes are Unicode scalar values. The drag percentage is a parameter, and drawing is omitted.
- WebDashboard: `toFixed` and `String(n)` are parameters. Interleavings of concurrent fetches and the metrics panel are omitted.
- IpcProtocols and DashboardCommunicator: `ProtocolConstants.MAX_DELTA_BATCH_SIZE` is not part of this model, so it is a parameter greater than zero. Transport retries are omitted.
- SafeReplacement: time stamps and statistics snapshots are not modelled, and neither is the formatted percentage. The ERROR_ROLLBACK state is never entered by the code, so it has no transition.
- PathfindingManager, DynamicPathfinding and TiledAdapter: the A* library is a parameter `finder`, and a walkable cell is one whose value is 1.
- TextureConfig: image loading through PIL is omitted, and the folder listing is a parameter.
- LayoutLoader: pytmx parsing is a parameter. `tiles_analysis`, the author and version fields, and location properties are omitted.
- LayoutCreator: the TMX/XML text is omitted, except for the CSV layer and object positions.
- DynamicPathfinding: `load_layout_for_pathfinding` is a parameter. `get_layout_info` and the demo entry point are omitted.
- Optimization: the simulation subprocess, its temporary files, the Optuna search, and the 0.0 score given to failed trials are not modelled. `objective` is reduced to its trial configuration (TrialConfig) and its score (CalculateScore).
- ReplayServer.GetMetrics: the two-decimal rounding of throughput and mean time is not modelled. A null time stamp reads as 0.
- DataManager: path resolution, `get_pathfinder` and `__repr__` are omitted. The Excel workbook is a parameter, and the validation messages are abbreviated.
- ReplayEngine: pygame, the GUI and the calls into the dashboard communicator are omitted. A frame returns the chunk of at most 100 event indices that `_process_event_batch` would process. Their effect on the visual state is not modelled.
- DashboardEvents: the `time_tick` and `time_seek` handlers only move the slider and the status bar, which are not modelled.
- DashboardEvents.SnapshotAsWritten: the slider update `setValue(int(timestamp))` (work_order_dashboard.py:413-414) is not modelled, so a time too large for the slider does not raise here. Ids are compared as JSON values, while Python treats 1, 1.0 and True as one dictionary key.
- DashboardEvents.Handle: only the snapshot handler raises in this model. The other handlers are modelled for well-formed payloads. In the source they also raise on a `data` that is not a dictionary (`data.get`), on an unhashable `wo_id`, and, in a reset, on a `target_time` that cannot be formatted `.2f`. Here such payloads read as empty or unknown, and the event changes nothing.
- ClockFormat.ScaledNumber: the fixed-decimal rendering of the scaled number is not modelled. Only the scale and the suffix are modelled.
- VisualState: `actualizar_metricas_tiempo` is an empty stub and is omitted. `inicializar_estado_con_cola` only delegates to initialisation, so it is omitted too, and its warehouse, environment, configuration and layout arguments are unused.
- VisualState.Aumentar: a missing speed key reads as 1.0 where Python would raise KeyError. Initialisation always sets the key.
- VisualState.Disminuir: a missing speed key reads as 1.0 where Python would raise KeyError. Initialisation always sets the key.
- ReplayScrubber: drawing and the thumb are omitted, and so is posting the pygame seek event. A seek is returned as its target time.
- DashboardPanels: icon colours and text rendering are omitted. `_render_operators_list` is a placeholder and is omitted. `toFixed` formatting is also omitted.
- CoreConfig: resolving the file path, importing the default configuration and the logging summary are omitted. A configuration file whose JSON is not an object is not modelled.
- CoreConfig.IntOf: accepts only ASCII digits with an optional sign. Python's `int()` also accepts surrounding whitespace, underscores and non-ASCII digits.
- WebConfig.Validate: a non-object where an object is expected is read as a failure, whereas Python would test substring membership on a string. The error message texts are reduced to issue values.
- WebConfig: the choice of workbook sheet (PickingLocations or Warehouse_Logic) and the conversion of cells to text are a parameter. The uuid and the time stamp are parameters. The filename and metadata fallbacks for presets are omitted.
- Configurator: the backup on delete, the cache, index-file I/O and the Tk dialogs are omitted. Accent normalisation is a parameter `normalize`.
- Strs.Lower and Strs.Upper fold ASCII letters only. Python's `str.lower`/`str.upper` and JavaScript's `toLowerCase` also fold non-ASCII letters, so "CONFIGURACIÓN" and "configuración" are not equal here after folding. The members below inherit this.
- Configurator.NameExists: letter case is ignored for ASCII letters only (see Strs.Lower).
- Configurator.FindName: letter case is ignored for ASCII letters only (see Strs.Lower).
- Configurator.AnyTag: letter case is ignored for ASCII letters only (see Strs.Lower).
- Configurator.Search: letter case is ignored for ASCII letters only (see Strs.Lower). The same holds for ConfigId, whose id lower-cases the name.
- DashboardPanels.StatusText: the status is lower-cased for ASCII letters only (see Strs.Lower). The same holds for StatusTextCaseInsensitive.
- DataManager: the header tests (IsXHeader, IsStagingHeader, IsStagingIdKey) lower-case ASCII letters only (see Strs.Lower).
- DataManager.PyInt: text is read as ASCII digits with an optional sign. Python's `int()` also strips surrounding whitespace and accepts underscores and non-ASCII digits. A float cell, which `int()` truncates, is not a cell value in this model.
- LayoutLoader.FirstNamedNavigation: the layer name is lower-cased for ASCII letters only (see Strs.Lower). The same holds for IsTmx.
- LayoutLoader.NavValue: the walkable property is compared with "true" after ASCII-only lower-casing (see Strs.Lower).
- LayoutLoader.OfType: the object type is lower-cased for ASCII letters only (see Strs.Lower).
- TextureConfig: the file-name keyword and extension tests lower-case ASCII letters only (see Strs.Lower).
- TiledAdapter.TmxCell: the walkable property is compared with "true" after ASCII-only lower-casing (see Strs.Lower).
- Warehouse.CatalogSkuIdInjective: the SKU prefix is upper-cased for ASCII letters only (see Strs.Upper). The same holds for CatalogSkuId.
- Pathfinder.New: requires a rectangular matrix. Its only caller builds one row per grid line, each of the grid's width (src/subsystems/simulation/layout_manager.py:79-80), so the ragged case never arises.
- Dispatcher: the TypeError that reading `tiempo_inicio` could raise at src/subsystems/simulation/dispatcher.py:1070 is not modelled. Every completed work order was assigned first, and assignment sets that field (src/subsystems/simulation/dispatcher.py:923).
- Fleet: `parseInt` of the form inputs is a parameter, so slots hold integers. `JSON.stringify` of the priorities is modelled as their insertion-ordered list of pairs.

## Findings

| source | as written | input that shows it | evidently intended | confidence | as-written member | corrected member |
|---|---|---|---|---|---|---|
| align_tmx_coordinates.py:372-389 | The forward map truncates and so does the inverse map, so a round trip can lose up to two pixels. | Pixel x = 10 maps to screen 55 and back to 8, which is outside the ±1 tolerance the self-check asserts. | The round trip lands within one pixel of its start. | not executed | AlignTmx.RoundTripMissesByTwo | AlignTmx.RoundTripRoundedWithinOne |
| src/subsystems/visualization/work_order_dashboard.py:374-453 | The state-snapshot handler rebuilds the table twice and sends SEEK_COMPLETE twice. The second rebuild skips the empty-id filter. | A snapshot with one work order whose id is empty. | The table is rebuilt once, without the empty id, and the seek is confirmed once. | not executed | DashboardEvents.SnapshotAsWritten | DashboardEvents.Snapshot |
| configurator.py:2424-2430 | A configuration id is built from the name, with spaces replaced by underscores, and the time stamp to the second. | The names "a b" and "a_b" saved within the same second get the same id, so one entry overwrites the other. | Every saved entry gets an id no other entry has. | not executed | Configurator.SaveEntryDuplicatesId | Configurator.SaveEntryUniqueId |
| web_prototype/static/app.js:845-846 | A fetch that completes clears the shared abort controller even when a newer request owns it. | Seek to 10 and let its state arrive. Seek to 20 before 10's metrics fetch finishes; that completion clears 20's controller. Seeking to 30 then does not abort 20, and 20's late answer is shown. | Only the request that owns the controller clears it, and stale answers are ignored. | not executed | WebControls.StaleAnswerShownAsWritten | WebControls.StaleAnswerIgnored |
| src/subsystems/simulation/assignment_calculator.py:168 | The cost log line formats `operator.tipo`, but operators store their kind as `type` (operators.py:41-42) and nothing defines `tipo`. Every call to `calculate_cost` raises AttributeError. Nothing between it and `solicitar_asignacion` catches the error. | Under the default strategy 'Optimizacion Global', an operator asks for work while one pending order is in an area it can handle. `_encontrar_mejor_primera_wo` costs that order (dispatcher.py:324, 481) and raises. FIFO, Cercania and the accented plan name raise the same way in `_seleccionar_mejor_batch` (dispatcher.py:784). | The log line names the operator by its `type`, and the cost is returned. | not executed | Dispatcher.DefaultRequestRaisesAsWritten | Assignment.CalculateCost |
