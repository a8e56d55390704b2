# A model of the function runtime, with proofs

This project models the parts of the function runtime in which the difficult behaviour
lives, and proves what they keep.

* **Pipelines.** A controller pipeline is a DAG of function vertices. A vertex gathers its
  references from a shared output store, runs its function under the generic range /
  condition / local variables / single run loop, merges its outputs into the store and
  appends one record to the result log. Block vertices run a nested DAG on the same store
  and log. `nets.dfy` models a run as a step system in which every goroutine is cut at
  every access to the shared state (reading one reference, writing the output, appending
  the record), so all interleavings of the executor are runs of it. `engine.dfy` is the
  imperative engine on mutable objects; a ghost trace shows that what it does is one of
  those runs, so each theorem about runs is a theorem about the engine.
* **Function types.** `functions.dfy` and `loop.dfy` give the pure semantics of one vertex;
  `objects.dfy` has the function objects with their result fields, the loops over maps and
  the Input that is mutated from the first item to the last, each method proved equal to
  that semantics. `rangeloop.dfy`, `meaning.dfy`, `images.dfy`, `sending.dfy`, `requests.dfy`
  and `imageruns.dfy` say what the semantics amounts to, for any local variables; `plans.dfy`
  and `programs.dfy` say it on the streams, texts and calls that the configuration names,
  without the functions of the semantics; `isolation.dfy` and `itemmeaning.dfy` say more when
  no local variable reads another one, `nesting.dfy` what happens when one reads itself, and
  `varorders.dfy` when the order of their evaluation shows. `gathering.dfy`, `entering.dfy` and
  `marks.dfy` carry this to whole runs of a pipeline, on the fields of the store entries.
* **Controllers.** `controllers.dfy` runs a pipeline for a custom resource and applies its
  final output. `lifecycle.dfy` and `reconciler.dfy` are the generations of image manager,
  exec controller and last known good config map; `pods.dfy` is the client of an image
  following the readiness of its pod. `printer.dfy` is the message of a failed function.

## Conventions

* Go's map iteration order is an explicit value (`Orders`); results hold for every valid one.
* Errors keep the one distinction the handler asks about: false condition or failure.
* The jq evaluator, the template engine, the list call, the object decoder and the function
  executor are the fields of `Lib`: arbitrary deterministic functions. Hypotheses about them
  appear by name where they are needed: a jq program depends only on the variables it reads
  (`ReadsOnly`), `$x` yields the value of x (`IsVariable`), and an image does not care in which
  order a request lists the objects of one kind (`OrderBlind`). The executor sees which vertex
  calls, for the how-manieth time, with which image and request, and may answer a repeated
  request differently.
* The kv store is a map with overwrite, the result log a sequence. The executor of a DAG runs
  a vertex at most once, after its up-vertices, and calls the post-run hook once, last. Both
  failure policies are covered: `stop` set skips every vertex whose up-vertices did not all
  run successfully, `stop` clear only respects the order.
* A well-formed pipeline (`Pipelines.WellFormed`) has acyclic DAGs and finite nesting; declared
  outputs are pairwise disjoint; readers of a declared variable come after the vertex that
  declares it; no local variable reads another one (it may read itself, as `topoDef` of
  `examples/topo4.yaml` does); declared entries have the proper type; and the images used have
  at most one resource kind per variable and are `OrderBlind` or always get the same request
  (`FixedRequests`). A vertex may overwrite the root entry, which then counts as declared.
  `SampleIsWellFormed` exhibits such a pipeline with a block, `FabricIsSteady` and `UpfIsSteady`
  cover container functions of `examples/topo4.yaml` and `examples/upf.yaml`;
  `VariableOrderShows`, `RequestOrderShows` and `PartialPublication` show what the less obvious
  conditions are for.
* The theorems about a single vertex hold for any local variables. Only those of
  `isolation.dfy` and `itemmeaning.dfy`, which say in closed form what each item sees, suppose
  that no local variable reads a local variable (`Independent`).

## Where the code departs from its apparent intent

The model follows the code.

* There is no `else` between the range loop and the single run, so a template or image over n
  items runs n + 1 times and only the last run is published (`TemplateMeaning`, `ImageMeaning`).
* A local variable that reads its own name gains one list per resolution, so the container
  function of `examples/topo4.yaml` cannot run over a range of two or more items, whatever its
  other variables are (`NestingDooms`, `FabricFails`).
* No function copies the Conditioned mark, so the conditioned output of a run is empty
  (`NothingIsConditioned`).
* Without local variables an image receives an empty request (`ImageRequest`).
* A vertex of the outermost DAG called "total" hides its failure (`TotalHidesFailure`).
* The status object of a reconciliation may depend on map order (`StatusIsChance`,
  `StatusByChance`), and so may the order of the objects in a request (`RequestOrderExact`)
  and the values of local variables that read each other (`VariableOrderExact`).
* An output entry of a foreign type makes publication fail, but what was published before it
  reaches the store (`PartialPublication`, `AtomicExact`).
* A crashed exec controller still counts as running (`NeverReplaced`, `DeadRuns`); a failure
  after the exec controller was created may lose it (`ControllerLeak`, `LostAfterFailedUpdate`)
  or leave a configuration running that is not the recorded one (`OffRecordRuns`,
  `RevertIsIgnored`).
* A failing SetClient is ignored, which makes the order of pod conditions observable
  (`ConditionOrder`).

## Model

| member | source | states |
|---|---|---|
| Dataflow.FinalStateSolves | pkg/exec/exechandler/handler.go:61-127 | a complete run, whatever its interleaving, ends in a store and vertex fates that solve the pipeline's data-flow equations |
| Dataflow.CompleteRunIsTheSolution | pkg/exec/exechandler/handler.go:84-126 | every complete run ends in the one solution there is |
| Dataflow.Confluence | pkg/exec/exechandler/handler.go:84-126 | any two complete runs end with the same store and the same status per vertex |
| Pipelines.WellFormedIsSound | pkg/exec/fnmap/functions/fn.go:54-147 | the functions of the repository satisfy what the schedule theorems ask of a vertex |
| Pipelines.PipelineConfluence | pkg/exec/exechandler/handler.go:61-127 | for a well-formed pipeline, store, fates, log length and verdict do not depend on schedule, interleaving or map orders |
| Pipelines.FinishIsAtomic | pkg/exec/exechandler/handler.go:103-126 | writing a vertex's output touches declared variables only, and nothing on an error, a false condition or an empty range |
| Gathering.InputInRun | pkg/exec/exechandler/handler.go:84-100 | in every run, whatever the interleaving, the input of a vertex holds under exactly its names (none for a root vertex, else the references, for images also the root variable of their DAG) the data of the store entries, internal or not, and null where there is no proper entry |
| Gathering.ReadersGetTheResource | pkg/exec/builder/builder.go:61-65 | in a run whose root variable nobody declares, every vertex that reads it receives the custom resource |
| Gathering.OutcomeOnFinalInput | pkg/exec/exechandler/handler.go:84-126 | in every complete run an executed vertex ends as its function does on the fields of the final store: its success, and its published entries in the store |
| Marks.VertexPublishesAsDeclared | pkg/exec/fnmap/functions/run_map.go:138-154 | whatever its type, a vertex publishes each variable as internal or not and with the kind it declares for it, and never as conditioned |
| Marks.DeclaredMarks | pkg/exec/output/output.go:36-41 | at every point of every run the entry of a declared variable has the declared internal mark and kind |
| Marks.InternalAddsNothing | pkg/exec/output/output.go:106-122 | over any run the final output is that of the variables declared as not internal |
| Marks.PublishedIsFinal | pkg/exec/output/output.go:106-122 | a list that an executed vertex publishes for a variable not declared internal is in the final output in full |
| Vertices.VertexOrderFree | pkg/exec/fnmap/functions/fn.go:233-258 | Go's map orders do not show in the outcome of a steady vertex; an image has to be indifferent to the order of the objects in a request or always get the same request |
| Vertices.VertexFrame | pkg/exec/fnmap/functions/run_map.go:138-154 | a vertex publishes declared variables only; a block publishes none |
| Vertices.AllOrNothing | pkg/exec/fnmap/functions/fn.go:76-98 | on the streams of the programs: an error comes with no output; nil output without error iff range and condition are admitted and the range in force delivers nothing but nulls; the condition error iff the outer range evaluates and the first result of the condition is false |
| Vertices.PartialPublication | pkg/exec/fnmap/functions/run_slice.go:118-134 | with an entry of a foreign type publication fails, yet part of it reaches the store unless that entry is visited first |
| Vertices.AtomicExact | pkg/exec/fnmap/functions/run_slice.go:118-134 | publication is all or nothing in every map order iff all declared entries have the proper type or none has |
| Inlining.InliningPreservesMeaning | pkg/exec/fnmap/functions/run_block.go:134-169 | a block that is entered, and under the failure policy all of whose vertices succeed, leaves the store and the fates its vertices would leave in the surrounding DAG, under whatever rank the net is sound; in that DAG they may read other entries if it makes no difference to them |
| Inlining.RefusedBlockIsNoBlock | pkg/exec/fnmap/functions/run_block.go:134-169 | a block that is not entered leaves what the DAG without it and its vertices leaves |
| Ranks.DeepRankExists | pkg/exec/fnmap/functions/run_block.go:159-165 | every acyclic, finitely nested net can be ordered so that a vertex also comes after everything nested in its up-vertices |
| Ranks.SoundAnyway | pkg/exec/fnmap/functions/run_block.go:159-165 | the conditions on a net do not depend on the order that witnesses them |
| Pipelines.BlockIsItsVertices | pkg/exec/fnmap/functions/run_block.go:134-169 | inlining for pipelines; a nested container or wasm function reads the root variable of the surrounding DAG instead of the block's, so it must refer to these two or be unable to notice them |
| Portable.ImageNotices | pkg/exec/fnmap/functions/run_image.go:285-298 | a container or wasm function behaves alike on inputs that agree on what its programs read and, if it has local variables, on the root variable of the pipeline |
| Pipelines.BlockTurnedDownIsNoBlock | pkg/exec/fnmap/functions/fn.go:71-98 | a block with a false condition or an empty range is as good as absent, nested vertices included |
| Entering.NestedRunsExactly | pkg/exec/fnmap/functions/run_block.go:134-169 | in every complete run a nested vertex is reached iff its block was executed, its range and condition admit it on the streams of their programs, and its variables resolve |
| Entering.ConditionDecides | examples/upf.yaml:30-34 | a block with a condition only, as conditionalBlockImplA: its vertices are reached iff the first thing the expression says is true |
| History.VerdictMeaning | pkg/exec/result/result.go:75-110 | Print says OK iff every vertex executed at any level succeeded, apart from outermost ones named "total" |
| History.CompleteLog | pkg/exec/exechandler/handler.go:103-138 | the log has one record per executed vertex and one total per DAG execution; with a vertex every block around it is recorded, and the vertex, the total of the block and the block itself come in this order |
| History.RecordsSay | pkg/exec/exechandler/handler.go:115-126 | in any run the record of a vertex has its name, type and name of the DAG it lies in, and success unless it failed |
| History.TotalsSay | pkg/exec/exechandler/handler.go:129-138 | in any run a total record has the root type, nested or not, and the name of its DAG |
| History.SameStory | pkg/exec/result/result.go:75-110 | log length and verdict are the same for all complete runs |
| Liveness.NoDeadlock | pkg/exec/fnmap/functions/run_block.go:147-167 | a run that is not over can go on, at whatever nesting level |
| Liveness.RunsAreBounded | pkg/exec/fnmap/functions/run_block.go:147-167 | no run is longer than the work of its vertices: blocks terminate |
| Liveness.RunsComplete | pkg/exec/fnmap/functions/run_block.go:147-167 | every run extends to a complete one |
| Witnesses.TotalHidesFailure | pkg/exec/result/result.go:83-94 | a complete run of a pipeline whose only vertex has an unregistered type prints OK iff that vertex is called "total" |
| Witnesses.SampleIsWellFormed | pkg/exec/rtdag/rtdag.go:54-67 | a pipeline with a block whose vertex reads an outer variable meets the hypotheses of the pipeline theorems |
| Witnesses.UpfIsSteady | examples/upf.yaml:19-29 | the container function upfFn sends the resource twice under one kind, so map orders do not show whatever its image does |
| Witnesses.UpfMayMove | examples/upf.yaml:41-51 | the block around the container function implFnA may be inlined |
| Witnesses.VariableOrderShows | pkg/exec/fnmap/functions/fn.go:235-255 | variables that read each other make the map order observable |
| VarOrders.VariableOrderExact | pkg/exec/fnmap/functions/fn.go:233-258 | on an input all orders of the local variables give one and the same environment iff each variable is defined on it and yields the same once any set of the others have been given their values |
| Witnesses.FabricFails | examples/topo4.yaml:88-96 | the container function with its three variables fails over two or more master templates |
| Witnesses.FabricIsSteady | examples/topo4.yaml:88-96 | its variables read at most themselves, so map orders do not show, although it is not isolated |
| Witnesses.RequestOrderShows | pkg/exec/fnmap/functions/run_image.go:318-328 | two variables with different objects of one kind: the request lists them in map order |
| Witnesses.StatusByChance | pkg/ctrlr/controllers/reconciler/reconciler.go:207-208 | a pipeline of two jq vertices, one complete run, two map orders, two status objects |
| Engines.Engine.constructor | pkg/exec/builder/builder.go:45-83 | the store is seeded with the internal root entry and nothing has run |
| Engines.Engine.FunctionRun | pkg/exec/exechandler/handler.go:61-127 | one vertex extends the trace from its first to its last step; its record carries the error of its function on what the store offered; unless it is a block, it adds that record and the published variables, none on an error, and nothing else |
| Engines.Engine.GatherInput | pkg/exec/exechandler/handler.go:84-100 | the input holds the store's data, internal or not, under the references of the vertex, for images also under the root variable of their DAG, and null where there is no proper entry |
| Engines.Engine.Merge | pkg/exec/exechandler/handler.go:113-113 | the outcome of the function is merged into the store |
| Engines.Engine.AddRecord | pkg/exec/exechandler/handler.go:115-126 | one record per vertex, with type and name of its DAG and its success |
| Engines.Engine.RecordFinalResult | pkg/exec/exechandler/handler.go:129-138 | the total record, of root type also for nested DAGs |
| Engines.Engine.Run | pkg/exec/fnmap/fnmap.go:70-98 | the outcome is that of the vertex semantics; an unregistered type fails |
| Engines.Engine.Exec | pkg/exec/fnmap/functions/fn.go:54-147 | the imperative loop returns what the pure semantics of the vertex says and runs a nested DAG iff that semantics enters it |
| Engines.Engine.RunNested | pkg/exec/fnmap/functions/run_block.go:134-169 | a block runs its whole DAG on the shared store and log |
| Engines.Engine.RunDag | pkg/exec/fnmap/functions/run_block.go:159-165 | the executor takes a DAG to its post-run hook; for the outermost DAG the run is complete |
| Engines.ResultLog.Print | pkg/exec/result/result.go:75-110 | the loop computes the verdict of the log |
| FunctionObjects.Fn.RangeLoop | pkg/exec/fnmap/functions/fn.go:99-128 | the loop that mutates one Input item by item computes the pure range semantics |
| FunctionObjects.Fn.MakePlan | pkg/exec/fnmap/functions/fn.go:59-98 | range, condition and the range in the condition, which replaces the outer one; `Plans.PlanExact` says what that is on the programs |
| Plans.PlanExact | pkg/exec/fnmap/functions/fn.go:59-98 | the condition refuses iff its first result is the boolean false, admits iff it is true, and anything else breaks the execution, as does a range that runs into an error; a range that delivers only nulls is empty; otherwise its non-null values are the items |
| FunctionObjects.Fn.ResolveLocalVars | pkg/exec/fnmap/functions/fn.go:233-258 | in the given map order, later expressions see earlier results |
| FunctionObjects.Fn.FilterInput | pkg/exec/fnmap/functions/run_image.go:285-298 | the nested loops keep exactly local and root variables, none if there are no local variables |
| FunctionObjects.BuildRequest | pkg/exec/fnmap/functions/run_image.go:313-369 | the nested loops build the request of the specification, per kind and in order, or fail with it |
| FunctionObjects.Fn.RunMap | pkg/exec/fnmap/functions/run_map.go:158-226 | the key/value pair of one item, or an error of either program or a key that is no text; `Programs.MapByPrograms` says which program gives which |
| FunctionObjects.Fn.RecordOutput | pkg/exec/fnmap/functions/run_image.go:185-265 | recording of all types; for images the loops with their early exits equal the specification, and the entries keep the declared marks (`Marks.VertexPublishesAsDeclared`) |
| FunctionObjects.Fn.GetFinalResult | pkg/exec/fnmap/functions/run_map.go:138-154 | the published output with the declared marks, or the error and what was published before it |
| FunctionObjects.Fn.Run | pkg/exec/fnmap/functions/run_slice.go:138-180 | one run of each function type |
| Jq.RunRange | pkg/exec/fnmap/functions/fn.go:154-197 | the non-null values before the first error; success iff that error is absent or the tolerated one |
| Jq.CollectJq | pkg/exec/fnmap/functions/jq.go:28-72 | all values before the first error, under the same condition |
| Jq.StreamIsCutAtFirstFault | pkg/exec/fnmap/functions/jq.go:54-71 | what is delivered is the longest error-free prefix |
| Jq.NonNullIsFiltering | pkg/exec/fnmap/functions/fn.go:189-193 | dropping nulls commutes with concatenation of streams |
| Jq.RangeItemsAreNotNull | pkg/exec/fnmap/functions/fn.go:104-127 | range items are never null, so the nil guard of the loop never skips an item |
| Jq.NonNullKeeps | pkg/exec/fnmap/functions/fn.go:189-193 | null is dropped from a range, every other value is kept as often as it occurs |
| Jq.RangeExact | pkg/exec/fnmap/functions/fn.go:154-197 | a range succeeds iff its stream is values up to the end or up to the one tolerated error; its items are these values without nulls |
| Jq.VariableExact | pkg/exec/fnmap/functions/jq.go:28-72 | a local variable is the list of all values before the end or the one tolerated error; the empty expression and any other error fail |
| Jq.ConditionExact | pkg/exec/fnmap/functions/fn.go:199-231 | a condition is the boolean that its program says first |
| Loop.NestedRangeReplaces | pkg/exec/fnmap/functions/fn.go:60-92 | a range inside a condition that holds replaces the outer one; a false condition overrides both |
| Isolation.SeenNames | pkg/exec/fnmap/functions/fn.go:105-112 | item k sees VALUE, KEY and INDEX of its own, the variables on these, and the rest of the input |
| Isolation.ResolveAny | pkg/exec/fnmap/functions/fn.go:233-258 | independent variables resolve to the same values in every order, whatever stale values the input holds |
| Isolation.ResolveOrderFree | pkg/exec/fnmap/functions/fn.go:233-258 | variables that read at most themselves resolve to the same values in every map order |
| Isolation.TurnIsolated | pkg/exec/fnmap/functions/fn.go:101-127 | a turn sees the input, its own item and the variables on these, and nothing of earlier items |
| RangeLoop.RunningLoop | pkg/exec/fnmap/functions/fn.go:99-128 | with any local variables, the loop of types that run per item succeeds iff every run on its own input does; it records the answers in order |
| RangeLoop.BindingLoop | pkg/exec/fnmap/functions/fn.go:99-128 | for types that do not run per item the loop only resolves the variables, item by item, and leaves those of the last one |
| Isolation.LoopIsolated | pkg/exec/fnmap/functions/fn.go:101-127 | with independent variables the environment after n > 0 items is the input with item n - 1 and the variables on it; it exists iff they are defined on each of the n items |
| Isolation.AnswersIsolated | pkg/exec/fnmap/functions/fn.go:99-128 | with independent variables the inputs and answers of the loop are those of the items, each on its own |
| Isolation.LastIsolated | pkg/exec/fnmap/functions/fn.go:130-140 | with independent variables the single run after the loop sees what the last item saw |
| Meaning.SliceMeaning | pkg/exec/fnmap/functions/run_slice.go:108-134 | with and without a range and with any local variables: the n runs, one without a range, publish exactly their n results in order, or one fails and nothing is published |
| Meaning.MapMeaning | pkg/exec/fnmap/functions/run_map.go:122-154 | with any local variables: each key has the value of the last run that produced it, no other key exists; if a run fails nothing is published |
| Meaning.TemplateMeaning | pkg/exec/fnmap/functions/run_gotemplate.go:115-141 | with and without a range and with any local variables: a run per item and one more; the published list holds exactly the result of the last run |
| Meaning.BindingMeaning | pkg/exec/fnmap/functions/run_jq.go:104-134 | jq, query and block run once, in the environment that the last item leaves, or on the input if there is no range |
| Programs.SliceByProgram | pkg/exec/fnmap/functions/run_slice.go:108-180 | the published list is what the value program says first on each input of the loop, in order; if it says nothing on one of them the slice fails |
| Programs.MapByPrograms | pkg/exec/fnmap/functions/run_map.go:122-226 | each key that the key program yields has what the value program says first on the last such input, and no other key exists; a program that says nothing, or a key that is no text, fails the map |
| Programs.TemplateByText | pkg/exec/fnmap/functions/run_gotemplate.go:115-167 | the resource, or else the template text, is instantiated on each input and once more; the published list is that last instance |
| Programs.ComputedOnce | pkg/exec/fnmap/functions/run_jq.go:104-134 | jq publishes the list that its expression delivers, query what its resource lists, in the environment that the last item left |
| Programs.BlockGoesAhead | pkg/exec/fnmap/functions/run_block.go:105-145 | a block publishes nothing and succeeds iff its variables resolve and it has a DAG |
| Programs.RootDoesNothing | pkg/exec/fnmap/functions/run_root.go:84-94 | a root vertex runs nothing and publishes nothing |
| Programs.ImageByCalls | pkg/exec/fnmap/functions/run_image.go:136-298 | the executor is called once per input and once more, with vertex, call number, image and the objects of local variables and root variable; the last response is published as it decodes iff all are answered and clean |
| ItemMeaning.SliceOfItems | pkg/exec/fnmap/functions/run_slice.go:108-134 | with independent variables: the same, where the input of each run is the base input with its item and the variables on it |
| ItemMeaning.MapOfItems | pkg/exec/fnmap/functions/run_map.go:122-226 | with independent variables the dictionary is given by the two programs on each item on its own |
| ItemMeaning.TemplateOfItems | pkg/exec/fnmap/functions/run_gotemplate.go:115-141 | with independent variables what is published is the instance for the last item |
| ItemMeaning.BindingOfItems | pkg/exec/fnmap/functions/run_jq.go:104-134 | with independent variables jq and query publish what their expression or resource gives on the last item; a block succeeds iff it has a DAG |
| ItemMeaning.ImageOfItems | pkg/exec/fnmap/functions/run_image.go:185-280 | with independent variables the calls are those of the items, each on its own, and once more that of the last item |
| Meaning.PublishTyped | pkg/exec/fnmap/functions/run_gotemplate.go:125-141 | every declared variable gets the data, internal or not and with its kind as declared, in any map order |
| ImageRuns.ErrorsAccumulate | pkg/exec/fnmap/functions/run_image.go:116-119 | errors of all runs stick across output resets |
| ImageRuns.ImageMeaning | pkg/exec/fnmap/functions/run_image.go:185-280 | with and without a range and with any local variables: a request per item and one more; success iff all are answered and all responses are clean; then the output is exactly the last response |
| Images.RequestConservation | pkg/exec/fnmap/functions/run_image.go:313-369 | a request is built iff each variable holds objects at most two lists deep; it holds the object leaves, each under its kind, none lost or doubled |
| Images.ImageRequest | pkg/exec/fnmap/functions/run_image.go:285-369 | the same after filtering to local and root variables |
| Sending.RequestExact | pkg/exec/fnmap/functions/run_image.go:313-369 | the request lists, for each kind that occurs, the objects of that kind in the input from left to right, in the order in which the variables are visited |
| Requests.RequestOrderExact | pkg/exec/fnmap/functions/run_image.go:318-363 | an input yields the same request in every map order iff, kind by kind, what any two variables contribute commutes |
| Requests.KindsApartSuffice | pkg/exec/fnmap/functions/run_image.go:318-363 | in particular if no two variables contribute objects of one kind |
| Images.HoldsOnlyOne | pkg/exec/fnmap/functions/run_image.go:259-263 | a good response determines the published output |
| Images.ErrorsAreSticky | pkg/exec/fnmap/functions/run_image.go:185-265 | recording adds an error iff a visited kind is bad and never removes one |
| Images.ResponseOrderFree | pkg/exec/fnmap/functions/run_image.go:195-264 | the verdict on a response is the same in every order despite early breaks; a good one is held in full |
| Nesting.TurnsWrap | pkg/exec/fnmap/functions/fn.go:101-127 | a variable that reads itself carries k lists after k resolutions, whatever the other variables are |
| Nesting.RequestNeedsShallow | pkg/exec/fnmap/functions/run_image.go:328-363 | with everything else sendable its request is built iff k is at most 2 and its base value leaves room for k lists |
| Nesting.NestingDooms | examples/topo4.yaml:93-94 | an image with such a variable fails over every range of two or more items |
| Marks.NothingIsConditioned | pkg/exec/fnmap/functions/run_image.go:259-263 | at no point of any run is an entry of the store conditioned |
| Stores.Output.Add | pkg/exec/output/output.go:62-67 | overwriting union; a nil output adds nothing |
| Stores.Output.GetFinalOutput | pkg/exec/output/output.go:106-122 | as a multiset, the objects of all lists that are not internal |
| Stores.ListIsFinal | pkg/exec/output/output.go:113-118 | each such list counts with all its objects, as often as they occur in it |
| Stores.OnlyList | pkg/exec/output/output.go:106-122 | a store with one such list has exactly that list as its final output |
| Stores.OnlyListsCount | pkg/exec/output/output.go:106-122 | nothing else counts |
| Stores.Output.GetConditionedOutput | pkg/exec/output/output.go:124-137 | exactly the conditioned entries |
| Controllers.RootIsLeftOut | pkg/exec/builder/builder.go:61-65 | the root entry is always there; unless a vertex that declares it published it, it is the seeded one and adds nothing to the final output |
| Controllers.ApplyOutputs | pkg/ctrlr/controllers/reconciler/reconciler.go:191-218 | up to the first failure every output of another kind is applied once, in order; the last one of the own kind is the status object; the kind of the resource at hand never changes |
| Controllers.NothingLost | pkg/ctrlr/controllers/reconciler/reconciler.go:191-215 | the outputs are partitioned into applied objects and objects of the own kind |
| Controllers.Sorted | pkg/ctrlr/controllers/reconciler/reconciler.go:207-214 | no object of the own kind is applied, no other one becomes the status object |
| Controllers.StatusIsChance | pkg/ctrlr/controllers/reconciler/reconciler.go:207-208 | the status object is independent of map order iff all entries with own objects end with the same one |
| Controllers.ReconcileApply | pkg/ctrlr/controllers/reconciler/reconciler.go:166-219 | for a well-formed pipeline the verdict and the final output are those of every complete run; then the apply loop; if it succeeds, what was applied and the objects of the own kind are together the final output |
| Controllers.HandledInFull | pkg/ctrlr/controllers/reconciler/reconciler.go:191-215 | then every object of a list that is not internal was applied or is of the own kind, as often as it occurs in the list |
| Lifecycle.ControllersGetLost | pkg/fnmanager/fnctrlrmanager/fnctrlrreconciler/reconciler.go:127-186 | exactly when an attempt loses the pointer to an exec controller that was not stopped |
| Lifecycle.ControllerLeak | pkg/fnmanager/fnctrlrmanager/fnctrlrreconciler/reconciler.go:83-186 | over any run a controller is lost iff some attempt without recorded config met one that was not stopped and created the next |
| Lifecycle.ManagersGetLost | pkg/fnmanager/fnctrlrmanager/fnctrlrreconciler/reconciler.go:127-163 | the same for one image manager in one step |
| Lifecycle.ManagerLeak | pkg/fnmanager/fnctrlrmanager/fnctrlrreconciler/reconciler.go:83-186 | the same for image managers over any run |
| Lifecycle.RecordedConfigIsGood | pkg/fnmanager/fnctrlrmanager/fnctrlrreconciler/reconciler.go:180-185 | on every run the recorded config parsed and a controller was fully started for it |
| Lifecycle.BadConfigIsHarmless | pkg/fnmanager/fnctrlrmanager/fnctrlrreconciler/reconciler.go:127-134 | an attempt that fails to parse changes nothing |
| Lifecycle.UndisturbedStaysInStep | pkg/fnmanager/fnctrlrmanager/fnctrlrreconciler/reconciler.go:83-186 | if attempts that create a controller complete, at most one controller is not stopped, it is the known one and runs the recorded config |
| Lifecycle.OffRecordStep | pkg/fnmanager/fnctrlrmanager/fnctrlrreconciler/reconciler.go:83-186 | after a step the running controller has another configuration than the recorded one iff an attempt just created one and failed before recording it, or that was so before and the step neither stopped nor replaced nor recorded |
| Lifecycle.OffRecordRuns | pkg/fnmanager/fnctrlrmanager/fnctrlrreconciler/reconciler.go:83-186 | over any run: iff some attempt strayed like this and no later one settled it |
| Lifecycle.DeadRuns | pkg/ctrlr/fnexeccontroller/controller.go:76-89 | over any run the known controller is dead but counts as running iff it ended on its own at some point and nothing after that stopped or replaced it |
| Lifecycle.DeadManagerRuns | pkg/imgmanager/imgmanager/manager.go:132-137 | the same for the known image manager, which every attempt past the parser gives up |
| Lifecycle.StoppedHaveEnded | pkg/fnmanager/fnctrlrmanager/fnctrlrreconciler/reconciler.go:97-112 | over any run every manager and controller that was stopped has ended |
| Lifecycle.CreatedForTheConfig | pkg/fnmanager/fnctrlrmanager/fnctrlrreconciler/reconciler.go:137-183 | an attempt past the parser makes a manager, and if that comes up a controller, for the config at hand, and knows them from then on |
| Lifecycle.NeverReplaced | pkg/ctrlr/fnexeccontroller/controller.go:76-89 | a crashed or wrongly configured controller that was not stopped is never replaced while the config is unchanged |
| Lifecycle.RestartCondition | pkg/fnmanager/fnctrlrmanager/fnctrlrreconciler/reconciler.go:115-126 | an attempt with the recorded config creates a controller iff the known one was stopped and the image manager comes up |
| Lifecycle.DeletionStops | pkg/fnmanager/fnctrlrmanager/fnctrlrreconciler/reconciler.go:97-112 | deletion stops everything but what was lost before, and keeps the recorded config |
| Lifecycle.LostAfterFailedUpdate | pkg/fnmanager/fnctrlrmanager/fnctrlrreconciler/reconciler.go:180-183 | a failed write-back followed by a good attempt loses the first generation |
| Lifecycle.RevertIsIgnored | pkg/fnmanager/fnctrlrmanager/fnctrlrreconciler/reconciler.go:116-125 | returning to the recorded config after a failed write-back keeps the other one running |
| Reconcilers.Rec.Reconcile | pkg/fnmanager/fnctrlrmanager/fnctrlrreconciler/reconciler.go:83-186 | the method on real fields takes exactly the step of the step system, and fails exactly when stated |
| Reconcilers.ErrorsMean | pkg/fnmanager/fnctrlrmanager/fnctrlrreconciler/reconciler.go:83-186 | an ignored config fails iff the write-back does; any other is done iff the write-back succeeded and a new controller for it is known, fully started and recorded |
| Reconcilers.Process.Start | pkg/ctrlr/fnexeccontroller/controller.go:91-128 | the handle is set even when starting fails |
| Reconcilers.Process.Stop | pkg/imgmanager/imgmanager/manager.go:132-137 | a held handle is called and cleared, once |
| Reconcilers.Process.End | pkg/ctrlr/fnexeccontroller/controller.go:169-191 | a goroutine that ends cancels the context and keeps the handle |
| Pods.ImageStore.Create | pkg/store/imagestore/imagestore.go:82-90 | registering again keeps the clients |
| Pods.ImageStore.SetClient | pkg/store/imagestore/imagestore.go:98-129 | the client of the image's kind is set; all failing cases leave the store alone |
| Pods.ImageStore.DeleteClient | pkg/store/imagestore/imagestore.go:131-139 | both clients go, the image stays |
| Pods.RegisterAll | pkg/imgmanager/imgmanager/manager.go:53-55 | all images are registered, known ones keep their clients |
| Pods.ApplyPod | pkg/imgmanager/imgcontroller/pod.go:17-51 | the condition loop with its callbacks computes the specified store, error and nil dereference |
| Pods.ReadyMeaning | pkg/imgmanager/imgcontroller/pod.go:41-50 | what the loop leaves, failing client creation included |
| Pods.ClientAgreement | pkg/imgmanager/imgcontroller/pod.go:30-50 | no client if the pod cannot be read or does not run; with conditions a client iff one is Ready=True |
| Pods.ConditionOrder | pkg/imgmanager/imgcontroller/pod.go:41-49 | the order of conditions matters exactly when a ready pod's client cannot be created |
| Pods.OnlyKnownKinds | pkg/store/imagestore/imagestore.go:98-129 | an image of another kind is left alone and given no client; for the known kinds setting a client is refused, stored or dereferences nil as creation and registration say |
| Pods.KindsStayApart | pkg/store/imagestore/imagestore.go:98-129 | over all runs a function image never holds a service client, nor the converse |
| Pods.OthersUntouched | pkg/imgmanager/imgcontroller/pod.go:30-50 | an event of one image leaves the others alone |
| Pods.ClientPersists | pkg/imgmanager/imgcontroller/pod.go:41-50 | a client stays until a later event of its own image says otherwise |
| Printer.MultiLineFormatter.String | pkg/exec/fnruntime/multilineformatter.go:44-81 | the text is that of the specified lines; a zero limit becomes 4 for good |
| Printer.ErrorString | pkg/exec/fnruntime/fnerrors.go:47-59 | title, lines, notice and exit code |
| Printer.ErrorText | pkg/exec/fnruntime/fnerrors.go:23-59 | letter by letter: the title, at most the first four lines indented and quoted, the notice with the number of the others, the exit code |
| Printer.MessageRoundTrip | pkg/exec/fnruntime/multilineformatter.go:57-80 | reading the message back gives the first lines, how many are missing, and the exit code |
| Printer.StderrRoundTrip | pkg/exec/fnruntime/fnerrors.go:47-59 | without truncation stderr and exit code are recovered |

## Left out

- The executor, dag, kv and slice packages are not in the repository; only the contracts named under Conventions enter. `Engine.RunDag` is a sequential executor that meets them; concurrent ones are covered by the step system, not by the classes.
- Error texts, inputs and outputs inside records, log levels and wall-clock times; record reasons keep only condition-false or failed.
- A vertex context of the wrong Go type and a range on a root function dereference nil in the original; here the first cannot be expressed and the second ends with an empty output.
- The original configures no range or condition when a function has no block section; the model takes a function to have a block section iff it has a range or a condition.
- Adding a resource to a request is a call into the function SDK, which is not in the repository; it is taken to append the object under its kind or to fail.
- Values share structure in Go and could be mutated through the store; nothing in the modelled code does so, and the model copies.
- Pipelines.PipelineConfluence: a function executor whose answers depend on the calls of other vertices is outside the model; its answer is a function of the vertex, the number of the call, the image and the request.
- FunctionObjects.Fn.GetFinalResult: the image returns its own output object, the model a fresh one with the same entries.
- FunctionObjects.Fn.Run: for a query the list call, selector and yaml round trip are one library function of the resource text.
- Reconcilers.Process.Stop: an image controller that ends after Stop calls a nil handle in the original; that panic is not modelled.
- The vertex `GetRootVertex`, `AddReference` and `getDependencyMap` of the runtime DAG, which only search, append and print.
- Kubernetes, gRPC and registry calls beyond success or failure; finalizers, labels, events, pod and service construction; watches and retry loops.
- The delete branch of the custom-resource reconciler, which runs a pipeline the same way and ignores its output.
- pkg/exec/fnruntime/container.go, exec.go and runner.go start function processes and assemble their command lines; pkg/fnproxy forwards gRPC calls to pods; main.go and the manager packages read flags and start the controllers.
