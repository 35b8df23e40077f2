# Tr1ppy.Packages core, modelled in Dafny

This project models the parts of the Tr1ppy.Packages libraries that hold logic rather than framework glue, and proves properties of them.

- **Queries.** These are the processable queue engine (`ProccesableQueue`) and its configuration (`QueryConfiguration`). They also include the fluent builders (`QueueConfigurationBuilder`, `InheritedTypesConfgurationBuilder`, `TypedQueryConfigurationBuilder`), the routing layer (`QueryAccessor`), the shared `QueueCounter` and the counting `BaseItemsProvider`.
- **System.** This covers the permission flags and their `chmod` and Windows-rights conversions, and the `AppVersion` parser. It also covers the `Error` builder, the two `Result` types and the short-circuiting `ExecuteForEach`.
- **Assemblies and services.**
  - The assembly name filters and their option builders. The Autofac and Autoregistration copies are the same code, so one definition models both.
  - The `[OnPlatform]` platform check.
  - The interface exclusion rules and the base-type walk of `ServiceTypeFilter`.
  - The attribute readers.
  - The auto-registration loop and the lifetime mapping.

How the model is built:

- One Dafny module models one source file.
- State the code changes in place is a `class` with `modifies` clauses: the engine, the builders, the counter, the configuration, `Error`, the option lists and the registration state. Pure code is functions over datatypes.
- Loops are `while`/`for` loops. Each one is proved against a recursive specification function, and the properties the code promises are lemmas about those functions.
- .NET reflection is an abstract, acyclic type universe (`TypeUniverse`). Each type has a record of its flags, base type, interfaces and attributes, plus an `assignable` relation.
- A pipeline stage, a processor or a provider is an opaque `Handle`. How stages behave is a parameter: a `World` of functions that return normally or throw.
- An exception is the `Throw` case of an `Outcome`, and a nullable reference is an `Option`.
- The engine records a ghost trace of stage events. The lemmas about the order of stages, the stop on the first exception and the counter bookkeeping are stated over that trace.

The model follows the code as written, including the three defects listed under "## Findings". Each defect has a corrected definition beside the as-written one, with the intended property proved about it, but the operations use the as-written behaviour. Among the behaviours the model follows:

- The engine's inclusion filter is the configuration's excluded-types set object itself, and its exclusion filter stays empty (Queries/Tr1ppy.Queries/ProccesableQueue.cs:56-57).
- The Windows bit of `[OnPlatform]` yields macOS, so a Windows-only service is skipped on Windows (Services/Tr1ppy.Services.Attributes/OnPlatformAttribute.cs:49-50).
- The non-generic interfaces in the generic-definition exclusion list are not excluded (Services/Tr1ppy.Services.Integration/ServiceTypeFilter.cs:128-154).
- `EnqueueAsync` makes no null check and no type check (Queries/Tr1ppy.Queries/ProccesableQueue.cs:92-98). Filtering happens only in the consumer loop.
- The consumer reads a `null` item by calling `GetType()` outside the `try` block. That throws and ends the loop (Queries/Tr1ppy.Queries/ProccesableQueue.cs:148-150).
- Only the four pre/post collections are deduplicated by runtime type. The providers are not (Queries/Tr1ppy.Queries.Abstractions/QueryConfiguration.cs:104-107). Deduplication keeps the first element of each type.
- `ProcessItemAsync` throws when neither processing mechanism is set, although validation makes that unreachable for an engine built from a validated configuration.
- By-type routing goes to the first queue registered for the exact runtime type (Queries/Tr1ppy.Queries/QueryAccessor.cs:26-29). It does not require a single owner.
- `QueryAccessor` reads `IncludedTypes`, `ExcludedTypes` and `Name` properties that the engine class does not declare (Queries/Tr1ppy.Queries/QueryAccessor.cs:47-58). Queues are therefore modelled as descriptors carrying a name, an included set and an excluded set.

## Model

| member | source | states |
|---|---|---|
| QueueCounters.QueueCounter.constructor | Queries/Tr1ppy.Queries.Abstractions/QueueCounter.cs:5 | a new counter reads 0, with no increments or decrements |
| QueueCounters.QueueCounter.Value | Queries/Tr1ppy.Queries.Abstractions/QueueCounter.cs:7 | the value is the number of increments minus the number of decrements |
| QueueCounters.QueueCounter.Increment | Queries/Tr1ppy.Queries.Abstractions/QueueCounter.cs:9-10 | the value goes up by one and the net-count invariant is kept |
| QueueCounters.QueueCounter.Decrement | Queries/Tr1ppy.Queries.Abstractions/QueueCounter.cs:12-13 | the value goes down by one, with no lower bound, and the invariant is kept |
| QueueCounters.DecrementBelowZero | Queries/Tr1ppy.Queries.Abstractions/QueueCounter.cs:12-13 | a fresh counter decremented once reads -1: nothing keeps it non-negative |
| ItemsProviders.GetAsync | Queries/Tr1ppy.Queries.Abstractions/BaseItemsProvider.cs:11-28 | the items come out unchanged and in order; the counter rises by their number; the event log is one increment before each item |
| ItemsProviders.IncrementPrecedesYield | Queries/Tr1ppy.Queries.Abstractions/BaseItemsProvider.cs:18-22 | the k-th item is handed over right after the k-th increment |
| ItemsProviders.OneIncrementPerItem | Queries/Tr1ppy.Queries.Abstractions/BaseItemsProvider.cs:18-22 | a pass holds exactly one increment per item |
| ItemsProviders.CountIncrementsAppend | Queries/Tr1ppy.Queries.Abstractions/BaseItemsProvider.cs:18-22 | increments in a concatenation of logs add up |
| InheritedTypes.TypeSet.Add | Queries/Tr1ppy.Querries.Integration/InheritedTypesConfgurationBuilder.cs:18 | adding a type makes it a member and keeps every other member |
| InheritedTypes.InheritedTypesConfiguration.constructor | Queries/Tr1ppy.Querries.Integration/InheritedTypesConfgurationBuilder.cs:35-39 | the configuration holds the two set objects it is given |
| InheritedTypes.InheritedTypesConfgurationBuilder.constructor | Queries/Tr1ppy.Querries.Integration/InheritedTypesConfgurationBuilder.cs:9-10 | a new builder holds two distinct, empty sets |
| InheritedTypes.InheritedTypesConfgurationBuilder.IncludeSubtype | Queries/Tr1ppy.Querries.Integration/InheritedTypesConfgurationBuilder.cs:16-20 | the type joins the included set; the excluded set is unchanged; the builder returns itself |
| InheritedTypes.InheritedTypesConfgurationBuilder.ExcludeSubtype | Queries/Tr1ppy.Querries.Integration/InheritedTypesConfgurationBuilder.cs:26-27 | the type joins the excluded set; the included set is unchanged |
| InheritedTypes.InheritedTypesConfgurationBuilder.Build | Queries/Tr1ppy.Querries.Integration/InheritedTypesConfgurationBuilder.cs:33-40 | the new configuration shares the builder's own set objects, not copies |
| InheritedTypes.IncludeTwice | Queries/Tr1ppy.Querries.Integration/InheritedTypesConfgurationBuilder.cs:16-20 | including a type twice has the effect of including it once |
| InheritedTypes.IncludeAndExcludeAfterBuild | Queries/Tr1ppy.Querries.Integration/InheritedTypesConfgurationBuilder.cs:16-40 | a type may be both included and excluded, and a call after `Build` shows in the configuration already built |
| QueryConfigurations.EnsureOnlyOneTypeInCollection | Queries/Tr1ppy.Queries.Abstractions/QueryConfiguration.cs:110-115 | the result draws only on the input, covers exactly the input's runtime types, and holds one element per type |
| QueryConfigurations.DedupKeepsFirst | Queries/Tr1ppy.Queries.Abstractions/QueryConfiguration.cs:112-114 | each kept element is the first of its type in the input |
| QueryConfigurations.DedupOfOnePerType | Queries/Tr1ppy.Queries.Abstractions/QueryConfiguration.cs:112-114 | a collection with one element per type is returned unchanged |
| QueryConfigurations.DedupIdempotent | Queries/Tr1ppy.Queries.Abstractions/QueryConfiguration.cs:112-114 | deduplicating twice gives the same as once |
| QueryConfigurations.SingleTypeCollapses | Queries/Tr1ppy.Queries.Abstractions/QueryConfiguration.cs:104-107 | elements all of one runtime type, like the delegate actions, collapse to at most one |
| QueryConfigurations.QueryConfiguration.constructor | Queries/Tr1ppy.Queries.Abstractions/QueryConfiguration.cs:12-83 | a new configuration has the given name, no capacity, no type filter, no processing mechanism and empty collections |
| QueryConfigurations.QueryConfiguration.SetItemsProcessingFunction | Queries/Tr1ppy.Queries.Abstractions/QueryConfiguration.cs:36-42 | throws `InvalidOperationException` exactly when a processor is set and the new value is not null; a throw changes nothing, otherwise the value is stored |
| QueryConfigurations.QueryConfiguration.SetItemsProcessor | Queries/Tr1ppy.Queries.Abstractions/QueryConfiguration.cs:52-58 | the mirror image: throws exactly when a function is set and the new value is not null |
| QueryConfigurations.QueryConfiguration.Validate | Queries/Tr1ppy.Queries.Abstractions/QueryConfiguration.cs:93-108 | succeeds exactly when one of function and processor is set; a throw changes nothing; success leaves each pre/post collection deduplicated, one element per type |
| QueryConfigurations.QueryConfiguration.DeduplicateStages | Queries/Tr1ppy.Queries.Abstractions/QueryConfiguration.cs:104-107 | each of the four pre/post collections becomes its deduplication |
| QueryConfigurations.ResetThenSwitch | Queries/Tr1ppy.Queries.Abstractions/QueryConfiguration.cs:36-58 | after resetting the processor to null, a processing function can be installed |
| QueueConfigurationBuilders.IncludedBy | Queries/Tr1ppy.Querries.Integration/QueueConfigurationBuilder.cs:126-134 | the included types are exactly those of the `Include` calls |
| QueueConfigurationBuilders.ExcludedBy | Queries/Tr1ppy.Querries.Integration/QueueConfigurationBuilder.cs:126-134 | the excluded types are exactly those of the `Exclude` calls |
| QueueConfigurationBuilders.QueueConfigurationBuilder.constructor | Queries/Tr1ppy.Querries.Integration/QueueConfigurationBuilder.cs:31-34 | the builder owns a fresh, empty configuration with the given name |
| QueueConfigurationBuilders.QueueConfigurationBuilder.WithCapacity | Queries/Tr1ppy.Querries.Integration/QueueConfigurationBuilder.cs:50-54 | the capacity is set; the last call wins |
| QueueConfigurationBuilders.QueueConfigurationBuilder.AddProvider | Queries/Tr1ppy.Querries.Integration/QueueConfigurationBuilder.cs:56-61 | the provider is added to the providers set |
| QueueConfigurationBuilders.QueueConfigurationBuilder.SetProcessingFunction | Queries/Tr1ppy.Querries.Integration/QueueConfigurationBuilder.cs:68-73 | throws exactly when a processor object is already set, changing nothing; otherwise stores the function |
| QueueConfigurationBuilders.QueueConfigurationBuilder.SetProcessor | Queries/Tr1ppy.Querries.Integration/QueueConfigurationBuilder.cs:75-80 | throws exactly when a function is already set, changing nothing; otherwise stores the processor |
| QueueConfigurationBuilders.QueueConfigurationBuilder.AddPreProcessingAction | Queries/Tr1ppy.Querries.Integration/QueueConfigurationBuilder.cs:87-92 | the action is added to its set |
| QueueConfigurationBuilders.QueueConfigurationBuilder.AddPreProcessor | Queries/Tr1ppy.Querries.Integration/QueueConfigurationBuilder.cs:94-99 | the pre-processor is added to its set |
| QueueConfigurationBuilders.QueueConfigurationBuilder.AddPostProcessingAction | Queries/Tr1ppy.Querries.Integration/QueueConfigurationBuilder.cs:106-111 | the action is added to its set |
| QueueConfigurationBuilders.QueueConfigurationBuilder.AddPostProcessor | Queries/Tr1ppy.Querries.Integration/QueueConfigurationBuilder.cs:113-118 | the post-processor is added to its set |
| QueueConfigurationBuilders.QueueConfigurationBuilder.ConfigureTypes | Queries/Tr1ppy.Querries.Integration/QueueConfigurationBuilder.cs:126-134 | replaces the type filter with a fresh one whose two distinct sets hold exactly the included and the excluded types of the delegate's calls |
| QueueConfigurationBuilders.QueueConfigurationBuilder.Build | Queries/Tr1ppy.Querries.Integration/QueueConfigurationBuilder.cs:140-141 | returns the builder's own configuration, not validated |
| HashSets.Add | Queries/Tr1ppy.Querries.Integration/QueueConfigurationBuilder.cs:59 | `HashSet.Add`: the element is present afterwards; nothing else is added or lost; no duplicates arise |
| HashSets.AddIdempotent | Queries/Tr1ppy.Querries.Integration/QueueConfigurationBuilder.cs:59 | adding an element twice equals adding it once |
| ProccesableQueues.RunStagesStopsAtThrow | Queries/Tr1ppy.Queries/ProccesableQueue.cs:204-209 | once a stage throws, the stages after it in the `foreach` are not invoked |
| ProccesableQueues.RunStagesShape | Queries/Tr1ppy.Queries/ProccesableQueue.cs:204-209 | a stage loop invokes the stages in order; it finishes exactly when all of them return, and otherwise ends at the first one that throws |
| ProccesableQueues.StagesOkIff | Queries/Tr1ppy.Queries/ProccesableQueue.cs:204-209 | a stage loop returns normally exactly when every stage in it returns |
| ProccesableQueues.ItemPhasesOrdered | Queries/Tr1ppy.Queries/ProccesableQueue.cs:154-166 | an item's events follow the pipeline order: pre-actions, pre-processors, processor, decrement, post-actions, post-processors, catch |
| ProccesableQueues.ItemDecrementedIff | Queries/Tr1ppy.Queries/ProccesableQueue.cs:156-159 | the counter is decremented for an item exactly when every pre-stage and the processor returned, and the trace shows the decrement exactly then |
| ProccesableQueues.ItemCompletedIff | Queries/Tr1ppy.Queries/ProccesableQueue.cs:154-166 | an item completes without a caught exception exactly when every stage returned |
| ProccesableQueues.ItemEventsSplit | Queries/Tr1ppy.Queries/ProccesableQueue.cs:154-166 | an item's events are stage events and the decrement, then `Caught` exactly when it did not complete |
| ProccesableQueues.ItemEndsWithCatch | Queries/Tr1ppy.Queries/ProccesableQueue.cs:163-166 | a caught exception is the item's last event and appears only once |
| ProccesableQueues.ItemAroundProcessing | Queries/Tr1ppy.Queries/ProccesableQueue.cs:156-161 | an item's events split into the pre-stages, at most one processor call, and what follows |
| ProccesableQueues.ItemAroundDecrement | Queries/Tr1ppy.Queries/ProccesableQueue.cs:158-161 | an item's events split into what precedes the decrement, at most one decrement, and the post-stages and catch |
| ProccesableQueues.ItemProcessedAtMostOnce | Queries/Tr1ppy.Queries/ProccesableQueue.cs:156-161 | the processor runs, and the counter is decremented, at most once per item |
| ProccesableQueues.ItemRunsChosenProcessor | Queries/Tr1ppy.Queries/ProccesableQueue.cs:184-195 | when the pre-stages return, the processor object runs if set, otherwise the processing function |
| ProccesableQueues.ShouldProcessPayloadRules | Queries/Tr1ppy.Queries/ProccesableQueue.cs:170-182 | the payload type always passes; a subtype is dropped when excluded, or when outside a non-empty included set; with both sets empty everything passes |
| ProccesableQueues.SubTypeFiltersAsWritten | Queries/Tr1ppy.Queries/ProccesableQueue.cs:56-57 | as written, the included filter receives the excluded types and the excluded filter stays empty |
| ProccesableQueues.AsWrittenExclusionAdmitsOnlyExcluded | Queries/Tr1ppy.Queries/ProccesableQueue.cs:56-57 | as written, excluding one subtype lets that subtype through and drops every other subtype |
| ProccesableQueues.SubTypeFiltersHonourConfiguration | Queries/Tr1ppy.Queries/ProccesableQueue.cs:56-57 | with the intended assignment, excluded subtypes are dropped, subtypes outside a non-empty inclusion are dropped, and included, non-excluded subtypes pass |
| ProccesableQueues.SubTypeFilters | Queries/Tr1ppy.Queries/ProccesableQueue.cs:56-57 | the corrected assignment, included types to the inclusion filter and excluded types to the exclusion filter; its property is `SubTypeFiltersHonourConfiguration` |
| ProccesableQueues.ShouldProcessPayload | Queries/Tr1ppy.Queries/ProccesableQueue.cs:170-182 | the filter predicate; its rules are proved in `ShouldProcessPayloadRules` |
| ProccesableQueues.RunStages | Queries/Tr1ppy.Queries/ProccesableQueue.cs:204-209 | the events and outcome of one stage loop; characterised by `RunStagesShape`, `RunStagesStopsAtThrow` and `StagesOkIff` |
| ProccesableQueues.PreStages | Queries/Tr1ppy.Queries/ProccesableQueue.cs:198-210 | the pre-actions then the pre-processors; their order and stop are proved in `ItemPhasesOrdered` and `ItemDecrementedIff` |
| ProccesableQueues.Process | Queries/Tr1ppy.Queries/ProccesableQueue.cs:184-195 | the processor, else the function, else a throw; proved in `ItemRunsChosenProcessor` |
| ProccesableQueues.PostStages | Queries/Tr1ppy.Queries/ProccesableQueue.cs:212-224 | the post-actions then the post-processors; proved in `ItemCompletedIff` and `ItemAroundDecrement` |
| ProccesableQueues.RunItem | Queries/Tr1ppy.Queries/ProccesableQueue.cs:152-166 | the `try` block for one item with its `catch`; its properties are the `Item...` lemmas above |
| ProccesableQueues.ProccesableQueue.constructor | Queries/Tr1ppy.Queries/ProccesableQueue.cs:15-36 | a new engine holds the given name, capacity, filters, providers and stages, with a zero counter and an empty channel |
| ProccesableQueues.ProccesableQueue.Create | Queries/Tr1ppy.Queries/ProccesableQueue.cs:49-74 | validation runs first and its exception is passed on; a null types configuration throws `NullReferenceException`, a capacity below 1 `ArgumentOutOfRangeException`; otherwise a fresh engine with a zero counter and empty channel, the configuration's name, capacity and stages, the configuration's own excluded-types set object as its inclusion filter and a fresh empty exclusion filter, as the swapped assignment leaves them |
| ProccesableQueues.ProccesableQueue.ItemsCount | Queries/Tr1ppy.Queries/ProccesableQueue.cs:42-43 | the count is the number of increments minus the number of decrements |
| ProccesableQueues.ProccesableQueue.Enqueue | Queries/Tr1ppy.Queries/ProccesableQueue.cs:92-98 | the item is appended exactly when a bounded channel is not full; otherwise nothing changes |
| ProccesableQueues.ProccesableQueue.RunProvider | Queries/Tr1ppy.Queries/ProccesableQueue.cs:136-142 | each item is counted and then written, in order; the pass stops at a full channel with that item counted but not written |
| ProccesableQueues.ProccesableQueue.InvokeStages | Queries/Tr1ppy.Queries/ProccesableQueue.cs:204-209 | the loop's trace and outcome are those of the stage-loop specification |
| ProccesableQueues.ProccesableQueue.PreProcessItem | Queries/Tr1ppy.Queries/ProccesableQueue.cs:198-210 | the pre-actions, then the pre-processors, as the pre-stage specification says |
| ProccesableQueues.ProccesableQueue.ProcessItem | Queries/Tr1ppy.Queries/ProccesableQueue.cs:184-195 | the processor object, else the processing function, else an `ArgumentNullException` |
| ProccesableQueues.ProccesableQueue.PostProcessItem | Queries/Tr1ppy.Queries/ProccesableQueue.cs:212-224 | the post-actions, then the post-processors, as the post-stage specification says |
| ProccesableQueues.ProccesableQueue.Step | Queries/Tr1ppy.Queries/ProccesableQueue.cs:146-167 | reads the oldest item: a null ends the loop, a filtered item is skipped, an accepted one runs through the stages with the counter read into its context |
| ProccesableQueues.ProccesableQueue.HandleItem | Queries/Tr1ppy.Queries/ProccesableQueue.cs:152-166 | the `try` body and its `catch` for one item: trace, counter and completion are those of the item specification |
| ProccesableQueues.ProccesableQueue.FinishItem | Queries/Tr1ppy.Queries/ProccesableQueue.cs:159-161 | after processing returns: one decrement, then the post-stages, with a catch if one throws |
| ProccesableQueues.ProccesableQueue.DrainSnoc | Queries/Tr1ppy.Queries/ProccesableQueue.cs:146-167 | the consumer loop over one more item is the loop so far and one more iteration, unless it had stopped |
| ProccesableQueues.ProccesableQueue.Drain | Queries/Tr1ppy.Queries/ProccesableQueue.cs:146-167 | the consumer loop over the items read so far; its properties are `DrainSnoc`, `DrainStopsAtNull`, `DrainStopsOnlyAtNull` and `DrainCountBounds` |
| ProccesableQueues.ProccesableQueue.DrainStopsAtNull | Queries/Tr1ppy.Queries/ProccesableQueue.cs:146-148 | once the loop has stopped, later items are never read |
| ProccesableQueues.ProccesableQueue.DrainStopsOnlyAtNull | Queries/Tr1ppy.Queries/ProccesableQueue.cs:146-167 | a stage exception does not end the loop; it ends exactly when a null item is read |
| ProccesableQueues.ProccesableQueue.DrainCountBounds | Queries/Tr1ppy.Queries/ProccesableQueue.cs:159 | the counter drops by at most one per item read |
| ProccesableQueues.ProccesableQueue.RunProcessor | Queries/Tr1ppy.Queries/ProccesableQueue.cs:144-168 | runs the loop until the channel is empty or a null item stops it; trace, counter and stop flag are those of the loop specification, and what remains is an unread suffix |
| QueryAccessors.QueuesFor | Queries/Tr1ppy.Queries/QueryAccessor.cs:49-79 | a per-type list holds only queues registered under that type, in the order given |
| QueryAccessors.QueuesForComplete | Queries/Tr1ppy.Queries/QueryAccessor.cs:49-79 | every queue registered under a type is in that type's list |
| QueryAccessors.ExcludedOnlyQueueNotRoutedByType | Queries/Tr1ppy.Queries/QueryAccessor.cs:58-64 | a queue with only excluded subtypes is in no per-type list |
| QueryAccessors.NameMapDomain | Queries/Tr1ppy.Queries/QueryAccessor.cs:45-47 | a name is mapped exactly when some queue has it |
| QueryAccessors.NameMapLastWins | Queries/Tr1ppy.Queries/QueryAccessor.cs:47 | a name maps to the last queue that has it |
| QueryAccessors.NameMapValues | Queries/Tr1ppy.Queries/QueryAccessor.cs:47 | every entry of the name map is one of the queues, under its own name |
| QueryAccessors.QueryAccessor.constructor | Queries/Tr1ppy.Queries/QueryAccessor.cs:16-19 | after `InitializeDictionaries` the name map and every per-type list match their reference definitions, and no per-type list is empty |
| QueryAccessors.QueryAccessor.RegisterUnderEach | Queries/Tr1ppy.Queries/QueryAccessor.cs:51-54 | the queue is appended to the list of each given type, and to no other list |
| QueryAccessors.QueryAccessor.RegisterType | Queries/Tr1ppy.Queries/QueryAccessor.cs:73-79 | the queue is appended to the type's list, which is created on first use |
| QueryAccessors.QueryAccessor.RouteByType | Queries/Tr1ppy.Queries/QueryAccessor.cs:21-30 | a null payload goes nowhere; otherwise it goes to the first queue registered under its exact runtime type, if any |
| QueryAccessors.QueryAccessor.RouteByName | Queries/Tr1ppy.Queries/QueryAccessor.cs:32-41 | a non-null payload goes to a queue exactly when one has the name, and then to the last one registered with it |
| TypedConfigurationBuilders.IndexOf | Queries/Tr1ppy.Querries.Integration/TypedConfigurationBuilder.cs:169 | `IndexOf` gives -1 exactly when the character is absent, and otherwise the position of its first occurrence |
| TypedConfigurationBuilders.Join | Queries/Tr1ppy.Querries.Integration/TypedConfigurationBuilder.cs:175 | `string.Join(", ", ...)`; proved to keep names well formed in `JoinWellFormed` |
| TypedConfigurationBuilders.FormatType | Queries/Tr1ppy.Querries.Integration/TypedConfigurationBuilder.cs:163-176 | the type formatter; its failures are characterised by `FormatTypeSucceedsIff` and its output by `FormatTypeWellFormed` |
| TypedConfigurationBuilders.FormatArguments | Queries/Tr1ppy.Querries.Integration/TypedConfigurationBuilder.cs:171-173 | the argument formatter; characterised by `FormatArgumentsSucceedIff` and `FormatArgumentsWellFormed` |
| TypedConfigurationBuilders.FormatTypeSucceedsIff | Queries/Tr1ppy.Querries.Integration/TypedConfigurationBuilder.cs:163-176 | formatting fails exactly when some generic definition in the nesting has no full name or no backtick in it, and then with a null-reference or out-of-range error |
| TypedConfigurationBuilders.FormatArgumentsSucceedIff | Queries/Tr1ppy.Querries.Integration/TypedConfigurationBuilder.cs:171-173 | the generic arguments format exactly when each of them does, giving one name per argument |
| TypedConfigurationBuilders.FormatTypeWellFormed | Queries/Tr1ppy.Querries.Integration/TypedConfigurationBuilder.cs:163-176 | over plain reflection names, a formatted name has balanced angle brackets and no backtick |
| TypedConfigurationBuilders.FormatArgumentsWellFormed | Queries/Tr1ppy.Querries.Integration/TypedConfigurationBuilder.cs:171-173 | each formatted argument name is well formed |
| TypedConfigurationBuilders.JoinWellFormed | Queries/Tr1ppy.Querries.Integration/TypedConfigurationBuilder.cs:175 | joining well-formed names with ", " gives a well-formed name |
| TypedConfigurationBuilders.WrapWellFormed | Queries/Tr1ppy.Querries.Integration/TypedConfigurationBuilder.cs:175 | a bracket-free prefix followed by a well-formed name in angle brackets is well formed |
| TypedConfigurationBuilders.EnsureImplement | Queries/Tr1ppy.Querries.Integration/TypedConfigurationBuilder.cs:157-161 | succeeds exactly when the target is assignable to the parent; otherwise an `ArgumentException` with the message "Type X must implement Y", unless formatting a name throws first |
| TypedConfigurationBuilders.TypedQueryConfigurationBuilder.constructor | Queries/Tr1ppy.Querries.Integration/TypedConfigurationBuilder.cs:19-34 | a new builder has a fresh named base builder, no processor type and empty type lists |
| TypedConfigurationBuilders.TypedQueryConfigurationBuilder.AddProvider | Queries/Tr1ppy.Querries.Integration/TypedConfigurationBuilder.cs:46-52 | the check's outcome is returned; the type is appended exactly when the check passes |
| TypedConfigurationBuilders.TypedQueryConfigurationBuilder.AddProviderOf | Queries/Tr1ppy.Querries.Integration/TypedConfigurationBuilder.cs:59-64 | the type is appended with no check |
| TypedConfigurationBuilders.TypedQueryConfigurationBuilder.AddPreProcessor | Queries/Tr1ppy.Querries.Integration/TypedConfigurationBuilder.cs:72-78 | the check's outcome is returned; the type is appended exactly when the check passes |
| TypedConfigurationBuilders.TypedQueryConfigurationBuilder.AddPreProcessorOf | Queries/Tr1ppy.Querries.Integration/TypedConfigurationBuilder.cs:85-90 | the type is appended with no check |
| TypedConfigurationBuilders.TypedQueryConfigurationBuilder.SetProcessor | Queries/Tr1ppy.Querries.Integration/TypedConfigurationBuilder.cs:104-110 | the check's outcome is returned; the processor type is replaced exactly when the check passes |
| TypedConfigurationBuilders.TypedQueryConfigurationBuilder.SetProcessorOf | Queries/Tr1ppy.Querries.Integration/TypedConfigurationBuilder.cs:120-125 | the processor type is replaced with no check |
| TypedConfigurationBuilders.TypedQueryConfigurationBuilder.AddPostProcessor | Queries/Tr1ppy.Querries.Integration/TypedConfigurationBuilder.cs:133-139 | the check's outcome is returned; the type is appended exactly when the check passes |
| TypedConfigurationBuilders.TypedQueryConfigurationBuilder.AddPostProcessorOf | Queries/Tr1ppy.Querries.Integration/TypedConfigurationBuilder.cs:146-151 | the type is appended with no check |
| FileSystemPermissionFlags.Digit | Tr1ppy.System/Tr1ppy.System.Abstractions/Models/FileSystemPermissions.cs:49-62 | a class digit, 4·read + 2·write + 1·execute, lies in 0..7 |
| FileSystemPermissionFlags.ToChmodString | Tr1ppy.System/Tr1ppy.System.Abstractions/Models/FileSystemPermissions.cs:47-65 | the result is exactly three characters, each in '0'..'7' |
| FileSystemPermissionFlags.DigitOfBits | Tr1ppy.System/Tr1ppy.System.Abstractions/Models/FileSystemPermissions.cs:49-62 | the digit built from the read, write and execute tests of a class is the octal digit of that class's three bits |
| FileSystemPermissionFlags.ChmodIsOctal | Tr1ppy.System/Tr1ppy.System.Abstractions/Models/FileSystemPermissions.cs:47-65 | the string is the zero-padded three-digit octal of the nine permission bits: user, then group, then others |
| FileSystemPermissionFlags.ChmodIgnoresOtherBits | Tr1ppy.System/Tr1ppy.System.Abstractions/Models/FileSystemPermissions.cs:47-65 | two flag values that agree on the nine permission bits give the same string |
| FileSystemPermissionFlags.ChmodOfNoneAndAll | Tr1ppy.System/Tr1ppy.System.Abstractions/Models/FileSystemPermissions.cs:47-65 | `None` gives "000" and `All` gives "777" |
| FileSystemPermissionFlags.ToWindowsRights | Tr1ppy.System/Tr1ppy.System.Abstractions/Models/FileSystemPermissions.cs:67-120 | the rights always include `Synchronize` and never leave `FullControl` |
| FileSystemPermissionFlags.FullControlIffAll | Tr1ppy.System/Tr1ppy.System.Abstractions/Models/FileSystemPermissions.cs:109-112 | the result is exactly `FullControl` if and only if all nine permission bits are set |
| FileSystemPermissionFlags.PartialRightsCannotDelete | Tr1ppy.System/Tr1ppy.System.Abstractions/Models/FileSystemPermissions.cs:87-107 | without the three "all" groups the delete-child right is never granted |
| FileSystemPermissionFlags.RightsFollowBits | Tr1ppy.System/Tr1ppy.System.Abstractions/Models/FileSystemPermissions.cs:87-107 | read data is granted iff some read bit is set, execute iff some execute bit, and write and append data iff some write bit |
| FileSystemPermissionFlags.NoBitsOnlySynchronize | Tr1ppy.System/Tr1ppy.System.Abstractions/Models/FileSystemPermissions.cs:69-107 | with no permission bit the result is exactly `Synchronize` |
| AppVersions.Split | Tr1ppy.Configuration/AppVersion.cs:23 | `Split` on '-' and '.' with empty entries removed: every piece is non-empty and free of both separators |
| AppVersions.SplitFrom | Tr1ppy.Configuration/AppVersion.cs:23 | the split of the rest of the string, with a piece under way, yields only non-empty, separator-free pieces |
| AppVersions.SplitFromWord | Tr1ppy.Configuration/AppVersion.cs:23 | a separator-free run of characters is absorbed into the piece under way |
| AppVersions.SplitFromPiece | Tr1ppy.Configuration/AppVersion.cs:23 | a non-empty word followed by a separator becomes one whole piece at the front of the split |
| AppVersions.RoundTrip | Tr1ppy.Configuration/AppVersion.cs:16-50 | for `a.b.c-d` with non-empty, separator-free parts, parsing and printing the fields gives the string back |
| AppVersions.ExtraPiecesIgnored | Tr1ppy.Configuration/AppVersion.cs:25-35 | pieces after the fourth do not change major, minor, patch or tag |
| AppVersions.AppVersion.constructor | Tr1ppy.Configuration/AppVersion.cs:5-13 | every field of a new version is the empty string |
| AppVersions.AppVersion.FromString | Tr1ppy.Configuration/AppVersion.cs:16-38 | the raw text is kept; major, minor, patch and tag are the first four pieces of the split, a missing piece leaving its field empty |
| AppVersions.AppVersion.CopyTo | Tr1ppy.Configuration/AppVersion.cs:40-46 | the other version receives raw, major, minor and patch; its tag and this version are unchanged |
| AppVersions.AppVersion.ToString | Tr1ppy.Configuration/AppVersion.cs:49-50 | the text is the four fields joined by '.', '.' and '-', as long as the fields plus three separators; `RoundTrip` shows parsing it gives the fields back |
| AssemblyLoaders.Where | Tr1ppy.Autofac/AssemblyLoader.cs:33 | LINQ `Where` keeps exactly the input elements that satisfy the predicate, and no more than the input holds |
| AssemblyLoaders.Filter | Tr1ppy.Autofac/AssemblyLoader.cs:33-41 | an assembly is in the result iff it is in the input, (no included domain is given or its name contains one) and its name contains no excluded domain; a null name counts as "" |
| AssemblyLoaders.FilterAssemblies | Tr1ppy.Autofac/AssemblyLoader.cs:23-42 | null options return the list unchanged; otherwise the include/exclude filter over the options' two lists (the twin in Autoregistration/Tr1ppy.Autoregistration/Helpers/AssemblyLoader.cs:25-44 is the same code) |
| AssemblyLoaders.WhereIsSubsequence | Autoregistration/Tr1ppy.Autoregistration/Helpers/AssemblyLoader.cs:34-43 | the kept assemblies sit at strictly increasing positions of the input: an order-preserving subsequence |
| AssemblyLoaders.EmptyDomainMatchesAll | Autoregistration/Tr1ppy.Autoregistration/Helpers/AssemblyLoader.cs:39-42 | an excluded "" rejects every assembly; an included "" admits every assembly that is not excluded |
| AssemblyLoaders.TrimStart | Tr1ppy.Autofac/AssemblyLoader.cs:81 | the scan stops at the first non-white-space character, having passed only white space |
| AssemblyLoaders.TrimEnd | Tr1ppy.Autofac/AssemblyLoader.cs:81 | the backward scan stops after the last non-white-space character, having passed only white space |
| AssemblyLoaders.Trim | Tr1ppy.Autofac/AssemblyLoader.cs:81 | `Trim` returns a slice of the input that neither starts nor ends with white space, and is empty only for an all-white-space input |
| AssemblyLoaders.SplitOn | Tr1ppy.Autofac/AssemblyLoader.cs:81 | `Split` gives at least one piece and no piece contains the separator |
| AssemblyLoaders.JoinSplitOn | Tr1ppy.Autofac/AssemblyLoader.cs:81 | joining the pieces with the separator gives the input back |
| AssemblyLoaders.TrimmedPieces | Tr1ppy.Autofac/AssemblyLoader.cs:81 | with `RemoveEmptyEntries` and `TrimEntries`, every remaining piece is non-empty and already trimmed |
| AssemblyLoaders.TrimOfTrimmed | Tr1ppy.Autofac/AssemblyLoader.cs:81 | trimming is idempotent |
| AssemblyLoaders.IsWhiteSpace | Tr1ppy.Autofac/AssemblyLoader.cs:77 | `char.IsWhiteSpace`, the set `Trim` and `IsNullOrWhiteSpace` skip; used by `Trim` and `IncludeCurrentDomainName` |
| AssemblyLoaders.CurrentDomains | Tr1ppy.Autofac/AssemblyLoader.cs:80-82 | the split-and-trim pieces or the whole name; its pieces are characterised by `TrimmedPieces` |
| AssemblyLoaders.AddMissing | Tr1ppy.Autofac/AssemblyLoader.cs:84-88 | the membership-checked append; characterised by `AddMissingAppendsNew` |
| AssemblyLoaders.AddMissingAppendsNew | Tr1ppy.Autofac/AssemblyLoader.cs:84-88 | the membership-checked loop keeps the old list as a prefix, appends only domains it did not hold, each once, and ends holding every offered domain and nothing else new |
| AssemblyLoaders.AssemblyDomainFilterOptions.constructor | Tr1ppy.Autofac/AssemblyLoader.cs:47-48 | both lists start empty |
| AssemblyLoaders.AssemblyDomainFilterOptions.IncludeDomainName | Tr1ppy.Autofac/AssemblyLoader.cs:50-54 | one domain is appended to the included list (duplicates kept); the excluded list is untouched; the same object is returned |
| AssemblyLoaders.AssemblyDomainFilterOptions.IncludeDomainNames | Autoregistration/Tr1ppy.Autoregistration/Helpers/AssemblySearchFilterOptions.cs:16-20 | all domains are appended in order, duplicates kept; the excluded list is untouched; the same object is returned |
| AssemblyLoaders.AssemblyDomainFilterOptions.ExcludeDomainName | Tr1ppy.Autofac/AssemblyLoader.cs:62-66 | one domain is appended to the excluded list; the included list is untouched; the same object is returned |
| AssemblyLoaders.AssemblyDomainFilterOptions.ExcludeDomainNames | Autoregistration/Tr1ppy.Autoregistration/Helpers/AssemblySearchFilterOptions.cs:28-32 | all domains are appended to the excluded list in order; the included list is untouched; the same object is returned |
| AssemblyLoaders.AssemblyDomainFilterOptions.IncludeCurrentDomainName | Autoregistration/Tr1ppy.Autoregistration/Helpers/AssemblySearchFilterOptions.cs:34-51 | a null or white-space entry name changes nothing; otherwise the split, trimmed, non-empty pieces (or the whole name with no separator) not yet included are appended |
| AssemblyLoaders.AssemblyDomainFilterOptions.IncludeMissing | Tr1ppy.Autofac/AssemblyLoader.cs:84-88 | the loop leaves the included list equal to the membership-checked append of the offered domains |
| Errors.SetDetail | Tr1ppy.System/Tr1ppy.System.Abstractions/Errors/Error.cs:75 | the dictionary indexer: afterwards the key holds the value, every other key is unchanged, keys stay unique, and at most one entry is added |
| Errors.LookupAbsent | Tr1ppy.System/Tr1ppy.System.Abstractions/Errors/Error.cs:11 | a key that no entry carries is not found |
| Errors.LookupPresent | Tr1ppy.System/Tr1ppy.System.Abstractions/Errors/Error.cs:11 | a key that is not found is carried by no entry |
| Errors.SetAll | Tr1ppy.System/Tr1ppy.System.Abstractions/Errors/Error.cs:87-90 | writing several entries in keeps the keys unique |
| Errors.SetAllLookup | Tr1ppy.System/Tr1ppy.System.Abstractions/Errors/Error.cs:82-92 | after copying entries in, a key holds its value from the entries when they carry it, and its old value otherwise: existing keys are overwritten, others kept |
| Errors.Lines | Tr1ppy.System/Tr1ppy.System.Abstractions/Errors/Error.cs:106-133 | the text starts with the code line and the message line; the inner-exception and inner-error lines appear exactly when those are set; a "Details:" header appears exactly when the details are non-empty, followed by one "- key: value" line per entry in order |
| Errors.DetailLines | Tr1ppy.System/Tr1ppy.System.Abstractions/Errors/Error.cs:126-129 | one "- key: value" line per entry, in enumeration order |
| Errors.Error.constructor | Tr1ppy.System/Tr1ppy.System.Abstractions/Errors/Error.cs:16-20 | stores code and message; no inner exception, inner error or details |
| Errors.Error.From | Tr1ppy.System/Tr1ppy.System.Abstractions/Errors/Error.cs:25-28 | a null message throws `ArgumentNullException`; otherwise a fresh error with that code and message and nothing else set |
| Errors.Error.FromException | Tr1ppy.System/Tr1ppy.System.Abstractions/Errors/Error.cs:33-37 | the message is the given one, else the exception's own; the inner exception is set; with neither a message nor an exception, reading the message throws `NullReferenceException` |
| Errors.Error.FromInnerError | Tr1ppy.System/Tr1ppy.System.Abstractions/Errors/Error.cs:42-46 | the inner error is set; the message is the given one, else "An internal error occurred: " followed by the inner error's text |
| Errors.Error.WithMessage | Tr1ppy.System/Tr1ppy.System.Abstractions/Errors/Error.cs:48-52 | only the message changes, to the new one; the same error is returned |
| Errors.Error.WithCode | Tr1ppy.System/Tr1ppy.System.Abstractions/Errors/Error.cs:54-58 | only the code changes; the same error is returned |
| Errors.Error.WithInnerException | Tr1ppy.System/Tr1ppy.System.Abstractions/Errors/Error.cs:63-67 | only the inner exception changes, null included; the same error is returned |
| Errors.Error.WithInnerError | Tr1ppy.System/Tr1ppy.System.Abstractions/Errors/Error.cs:97-101 | only the inner error changes, null included; the same error is returned |
| Errors.Error.WithDetail | Tr1ppy.System/Tr1ppy.System.Abstractions/Errors/Error.cs:72-77 | the details are created if absent and the entry is written; unique keys are kept; the same error is returned |
| Errors.Error.WithDetails | Tr1ppy.System/Tr1ppy.System.Abstractions/Errors/Error.cs:82-92 | null changes nothing; otherwise the details are created if absent and every entry is written in, in order |
| Errors.Error.ToString | Tr1ppy.System/Tr1ppy.System.Abstractions/Errors/Error.cs:106-133 | the text is every line of `Lines`, each followed by the line terminator |
| OnPlatform.HasAllIff | Services/Tr1ppy.Services.Attributes/OnPlatformAttribute.cs:40 | `HasFlag(All)` holds for the all-ones value and for no other |
| OnPlatform.ToOSPlatformsAsWritten | Services/Tr1ppy.Services.Attributes/OnPlatformAttribute.cs:36-57 | as written: at most three platforms, and Windows is yielded only for `All`, since the Windows bit yields OSX |
| OnPlatform.ToOSPlatforms | Services/Tr1ppy.Services.Attributes/OnPlatformAttribute.cs:36-57 | corrected: `All` yields Windows, Linux, OSX in that order; otherwise exactly the platforms whose bit is set, each once |
| OnPlatform.AsWrittenDiffersOnlyOnWindows | Services/Tr1ppy.Services.Attributes/OnPlatformAttribute.cs:49-56 | outside `All`, the code as written yields the corrected sequence with each Windows replaced by OSX |
| OnPlatform.ThreeFlagsAreNotAll | Services/Tr1ppy.Services.Attributes/OnPlatformAttribute.cs:40-56 | `Windows \| Linux \| MacOS` is not `All`; it goes through the per-bit branch, giving OSX, Linux, OSX as written |
| OnPlatform.OnPlatformAttribute.IsSupportByCurrentPlatform | Services/Tr1ppy.Services.Attributes/OnPlatformAttribute.cs:104-126 | as written: an unknown running platform is never supported; with `All` every known one is; otherwise Linux needs the Linux bit, macOS the macOS or the Windows bit, and Windows is never supported |
| OnPlatform.OnPlatformAttribute.IsSupportByCurrentPlatformCorrected | Services/Tr1ppy.Services.Attributes/OnPlatformAttribute.cs:104-126 | corrected: an unknown running platform is never supported, a known one exactly when its own bit is set or the flags are `All` |
| OnPlatform.WindowsOnlyServiceAsWritten | Services/Tr1ppy.Services.Attributes/OnPlatformAttribute.cs:49-50 | as written, `[OnPlatform(Windows)]` is unsupported on Windows and supported on macOS, and `Windows \| MacOS` yields OSX twice |
| OnPlatform.WindowsOnlyServiceCorrected | Services/Tr1ppy.Services.Attributes/OnPlatformAttribute.cs:104-126 | corrected, `[OnPlatform(Windows)]` is supported on Windows and nowhere else |
| Results.Success | Result/Tr1ppy.Result/Types/Result.TFault.cs:56-59 | the parameterless constructor and `Success()` give a success, not a failure, whose fault field keeps the type's default |
| Results.Fail | Result/Tr1ppy.Result/Types/Result.TFault.cs:51-54 | the fault constructor and `Fail(f)` give a failure whose `GetFaultOrDefault` is `f` |
| Results.GetFaultOrThrow | Result/Tr1ppy.Result/Types/Result.TFault.cs:64-70 | throws `ArgumentNullException` exactly when the stored fault is null or the type's default; otherwise returns the stored fault |
| Results.ResultConstructions | Result/Tr1ppy.Result/Types/Result.TFault.cs:31-70 | every success, including the success-marker conversion, throws on `GetFaultOrThrow`; the fault and failure-marker conversions give the same failure, whose fault comes back unless it is the default |
| Results.EmptySuccess | Result/Tr1ppy.Result/Types/Result.TFault.TValue.cs:11-14 | the parameterless constructor gives a success holding the default value |
| Results.FailOf | Result/Tr1ppy.Result/Types/Result.TFault.TValue.cs:32-35 | `Fail(f)` gives a failure holding `f`, with the value at its default |
| Results.SuccessOf | Result/Tr1ppy.Result/Types/Result.TFault.TValue.cs:37-40 | `Success(v)` gives a success whose `GetValueOrDefault` is `v` |
| Results.GetValueOrThrow | Result/Tr1ppy.Result/Types/Result.TFault.TValue.cs:69-75 | throws `ArgumentNullException` exactly when the stored value is null or the type's default, even for a success; otherwise returns the value |
| Results.ResultOfConstructions | Result/Tr1ppy.Result/Types/Result.TFault.TValue.cs:46-75 | a value conversion is a success whose value comes back unless it is the default; a failure or the parameterless success never yields a value; the marker conversions agree with the plain ones |
| ResultCollections.FirstFailure | Tr1ppy.System/Tr1ppy.System/Extensions/ResultCollectionsExtensions.cs:14-20 | the position where the loop stops: every earlier action succeeds and, if it is inside the sequence, the action there fails |
| ResultCollections.ForEachResultIff | Tr1ppy.System/Tr1ppy.System/Extensions/ResultCollectionsExtensions.cs:8-23 | success exactly when every action succeeds (an empty sequence included), and then every item was invoked in order; otherwise the fault is that of the first failing item, the last one invoked |
| ResultCollections.ExecuteForEach | Tr1ppy.System/Tr1ppy.System/Extensions/ResultCollectionsExtensions.cs:8-23 | the loop returns the first fault or success, and invokes the action on exactly the items up to the first failure |
| ResultCollections.FirstFailureIs | Tr1ppy.System/Tr1ppy.System/Extensions/ResultCollectionsExtensions.cs:14-20 | a position before which every action succeeds and at which one fails (or the end) is where the loop stops |
| ResultCollections.ExecuteForEachAsync | Tr1ppy.System/Tr1ppy.System/Extensions/ResultCollectionsExtensions.cs:25-40 | awaiting each action in turn gives the same result and the same invocations as the synchronous loop |
| ServiceTypeFilter.IsExcluded | Services/Tr1ppy.Services.Integration/ServiceTypeFilter.cs:135-154 | a null type throws `ArgumentNullException`; only an interface is excluded; a type is excluded exactly when the intended rule excludes it and it is not a non-generic interface listed only among the generic definitions |
| ServiceTypeFilter.ExcludedAsWritten | Services/Tr1ppy.Services.Integration/ServiceTypeFilter.cs:135-154 | the exclusion rule as written, which the walk uses; related to the intended rule by `ExclusionRules` and `IsExcluded` |
| ServiceTypeFilter.ExcludedCorrected | Services/Tr1ppy.Services.Integration/ServiceTypeFilter.cs:128-154 | the intended rule, which also excludes the non-generic interfaces of the generic list; its difference from the written rule is `ExclusionRules` |
| ServiceTypeFilter.ExclusionRules | Services/Tr1ppy.Services.Integration/ServiceTypeFilter.cs:135-154 | a class such as `TaskFactory` is never excluded, so its entry has no effect; the corrected check differs from the written one exactly on a non-generic interface listed only among the generic definitions |
| ServiceTypeFilter.ListedNonGenericInterfaceAsWritten | Services/Tr1ppy.Services.Integration/ServiceTypeFilter.cs:128-154 | as written, a non-generic interface such as `IAsyncStateMachine` in the generic-definition list is not excluded; corrected, it is |
| ServiceTypeFilter.Chain | Services/Tr1ppy.Services.Integration/ServiceTypeFilter.cs:167-187 | the visited types are all known types of the universe |
| ServiceTypeFilter.ChainShape | Services/Tr1ppy.Services.Integration/ServiceTypeFilter.cs:167-187 | the walk starts at the service type unless it is `object`, follows `BaseType` one step at a time, never visits `object`, and ends where the base type is null or `object` |
| ServiceTypeFilter.AddAllMembers | Services/Tr1ppy.Services.Integration/ServiceTypeFilter.cs:159-184 | adding to the `HashSet` one item at a time yields the union, with no duplicates |
| ServiceTypeFilter.NotExcluded | Services/Tr1ppy.Services.Integration/ServiceTypeFilter.cs:180-184 | the interfaces the inner loop keeps, under the rule as written; characterised by `NotExcludedMembers` |
| ServiceTypeFilter.Contribution | Services/Tr1ppy.Services.Integration/ServiceTypeFilter.cs:170-184 | what one visited type adds; characterised by `ChainAddsMembers` |
| ServiceTypeFilter.Abstractions | Services/Tr1ppy.Services.Integration/ServiceTypeFilter.cs:156-190 | the set `GetAbstractionsToRegister` returns; characterised by `AbstractionsMembers` |
| ServiceTypeFilter.NotExcludedMembers | Services/Tr1ppy.Services.Integration/ServiceTypeFilter.cs:180-184 | the interfaces kept are exactly those the rule as written does not exclude |
| ServiceTypeFilter.ChainAddsMembers | Services/Tr1ppy.Services.Integration/ServiceTypeFilter.cs:167-187 | a type is added by the walk exactly when some visited abstract type is it or implements it, and the rule as written does not exclude it |
| ServiceTypeFilter.AddAllAppend | Services/Tr1ppy.Services.Integration/ServiceTypeFilter.cs:159-184 | adding two runs of items one after the other equals adding their concatenation |
| ServiceTypeFilter.AbstractionsMembers | Services/Tr1ppy.Services.Integration/ServiceTypeFilter.cs:156-190 | the result has no duplicates; it holds every declared abstraction, even an excluded one, and otherwise exactly the non-excluded abstract chain types and their non-excluded interfaces; an interface reached only through a non-abstract type is absent |
| ServiceTypeFilter.AddEach | Services/Tr1ppy.Services.Integration/ServiceTypeFilter.cs:163-164 | the loop adds every declared abstraction to the set |
| ServiceTypeFilter.AddNotExcluded | Services/Tr1ppy.Services.Integration/ServiceTypeFilter.cs:180-184 | the loop adds exactly the non-excluded interfaces, in order |
| ServiceTypeFilter.Visit | Services/Tr1ppy.Services.Integration/ServiceTypeFilter.cs:170-184 | a non-abstract type adds nothing; an abstract one adds itself unless excluded, then its non-excluded interfaces |
| ServiceTypeFilter.Walk | Services/Tr1ppy.Services.Integration/ServiceTypeFilter.cs:167-187 | the `while` loop adds what every type on the base chain contributes, in chain order |
| ServiceTypeFilter.WalkStep | Services/Tr1ppy.Services.Integration/ServiceTypeFilter.cs:170-186 | visiting one type moves it from the rest of the chain to the visited part, and adds its contribution |
| ServiceTypeFilter.GetAbstractionsToRegister | Services/Tr1ppy.Services.Integration/ServiceTypeFilter.cs:156-190 | a null type throws `ArgumentNullException`; a declared abstraction that is not implemented throws `ArgumentException`; otherwise the result is the declared abstractions followed by what the walk adds |
| ServiceAttributeResolver.HavePlatfromAttributeAndNotSupportedOnCurrent | Services/Tr1ppy.Services.Integration/ServiceAttributeResolver.cs:9-13 | true exactly when the `[OnPlatform]` attribute is present and, unless its flags are `All`, the running platform is unknown, Windows, Linux without the Linux bit, or macOS with neither the macOS nor the Windows bit |
| ServiceAttributeResolver.TryGetAbstractionFromAttribute | Services/Tr1ppy.Services.Integration/ServiceAttributeResolver.cs:15-39 | throws `ArgumentException` exactly when some declared abstraction is not assignable from the service type; otherwise returns every declared abstraction in order, and true exactly when there is one |
| ServiceLifetimeMapper.Map | Services/Tr1ppy.Services.Integration.DependencyInjection/ServiceLifetimeMapper.cs:5-13 | succeeds exactly for the three members of the enum; any other value throws `SwitchExpressionException` |
| ServiceLifetimeMapper.MapRoundTrip | Services/Tr1ppy.Services.Integration.DependencyInjection/ServiceLifetimeMapper.cs:9-11 | Singleton, Scoped and Transient map to the container lifetimes of the same name, and the mapping is injective |
| ServiceCollectionExtensions.AssemblyTypesKnown | Services/Tr1ppy.Services.Integration.DependencyInjection/ServiceCollectionExtensions.cs:19 | every type `SelectMany(a => a.GetTypes())` yields is a known type |
| ServiceCollectionExtensions.Select | Services/Tr1ppy.Services.Integration.DependencyInjection/ServiceCollectionExtensions.cs:19-22 | the LINQ `Where` over types keeps exactly the types that satisfy the filter |
| ServiceCollectionExtensions.Candidates | Services/Tr1ppy.Services.Integration.DependencyInjection/ServiceCollectionExtensions.cs:19-22 | only non-abstract classes carrying `[AutoregisteredService]` are candidates |
| ServiceCollectionExtensions.Unsupported | Services/Tr1ppy.Services.Integration.DependencyInjection/ServiceCollectionExtensions.cs:26-28 | only a type with `[OnPlatform]` is skipped, and on Windows every such type is skipped unless its flags are `All` |
| ServiceCollectionExtensions.DescriptorWithoutInterfaces | Services/Tr1ppy.Services.Integration.DependencyInjection/ServiceCollectionExtensions.cs:74-88 | the type is its own service and implementation, keyed by its `Keyed` attribute, with the mapped lifetime; an unmappable lifetime throws |
| ServiceCollectionExtensions.DescriptorWithOneInterface | Services/Tr1ppy.Services.Integration.DependencyInjection/ServiceCollectionExtensions.cs:90-105 | the interface is the service and the type the implementation, keyed by the type's `Keyed` attribute, with the mapped lifetime; an unmappable lifetime throws |
| ServiceCollectionExtensions.RegisterOneEffect | Services/Tr1ppy.Services.Integration.DependencyInjection/ServiceCollectionExtensions.cs:24-51 | an unsupported or already registered type changes nothing; no interface adds the type as its own service, one interface adds it under that interface, more add no descriptor; all three record the type unless the lifetime throws |
| ServiceCollectionExtensions.RegisterOneGrows | Services/Tr1ppy.Services.Integration.DependencyInjection/ServiceCollectionExtensions.cs:24-51 | one iteration keeps the old descriptors in front, newly records at most the visited type, and only a supported one |
| ServiceCollectionExtensions.RegisterAllGrows | Services/Tr1ppy.Services.Integration.DependencyInjection/ServiceCollectionExtensions.cs:24-51 | the loop keeps the old descriptors in front and newly records only supported candidates |
| ServiceCollectionExtensions.RegisterAllCovers | Services/Tr1ppy.Services.Integration.DependencyInjection/ServiceCollectionExtensions.cs:24-51 | after a loop without an exception every candidate is recorded, or unsupported and skipped |
| ServiceCollectionExtensions.RegisterAllSettled | Services/Tr1ppy.Services.Integration.DependencyInjection/ServiceCollectionExtensions.cs:27-31 | when every candidate is recorded or unsupported, the loop changes nothing |
| ServiceCollectionExtensions.RepeatedRegistrationAddsNothing | Services/Tr1ppy.Services.Integration.DependencyInjection/ServiceCollectionExtensions.cs:11-31 | a second call with the same assemblies on the same platform adds no descriptor and records nothing new |
| ServiceCollectionExtensions.RegisterAllSnoc | Services/Tr1ppy.Services.Integration.DependencyInjection/ServiceCollectionExtensions.cs:24-51 | the loop over one more candidate is the loop so far followed by one iteration, unless it already threw |
| ServiceCollectionExtensions.RegisterAllStops | Services/Tr1ppy.Services.Integration.DependencyInjection/ServiceCollectionExtensions.cs:24-51 | once an iteration has thrown, the remaining candidates change nothing |
| ServiceCollectionExtensions.ServiceCollection.constructor | Services/Tr1ppy.Services.Integration.DependencyInjection/ServiceCollectionExtensions.cs:14 | a new service collection holds no descriptor |
| ServiceCollectionExtensions.AttributedServices.constructor | Services/Tr1ppy.Services.Integration.DependencyInjection/ServiceCollectionExtensions.cs:11 | the process starts with no type registered |
| ServiceCollectionExtensions.AttributedServices.AddAttributedServices | Services/Tr1ppy.Services.Integration.DependencyInjection/ServiceCollectionExtensions.cs:13-53 | the collection and `RegisteredServices` end as the registration loop over the candidates leaves them; the collection is returned, or the exception that ended the loop is thrown |
| ServiceCollectionExtensions.AttributedServices.RegisterType | Services/Tr1ppy.Services.Integration.DependencyInjection/ServiceCollectionExtensions.cs:26-50 | one loop body changes the collection and the registered set as one iteration of the specification says |
| ServiceCollectionExtensions.CheckoutMannualyRegisterServies | Services/Tr1ppy.Services.Integration.DependencyInjection/ServiceCollectionExtensions.cs:55-72 | the collection comes back unchanged exactly when every manually registered class passes the `Any` scan; otherwise the first class that fails throws `InvalidOperationException`, with the keyed-descriptor message when the scan hit a keyed descriptor; without keyed descriptors it throws exactly when some such class has no descriptor implemented by it |
| ServiceCollectionExtensions.AnyImplementedBy | Services/Tr1ppy.Services.Integration.DependencyInjection/ServiceCollectionExtensions.cs:67 | true exactly when a descriptor implemented by the type comes before any keyed descriptor, false exactly when no descriptor is keyed or implemented by it, otherwise the keyed descriptor's `InvalidOperationException` |
| ServiceCollectionExtensions.ManualTypes | Services/Tr1ppy.Services.Integration.DependencyInjection/ServiceCollectionExtensions.cs:60-63 | exactly the non-abstract classes of the assemblies carrying `[MustManuallyRegisterService]` |
| InheritedTypes.TypeSet.constructor | Queries/Tr1ppy.Querries.Integration/InheritedTypesConfgurationBuilder.cs:9-10 | a new `HashSet<Type>` is empty |

## Left out

- `ProccesableQueues.ProccesableQueue.Create`: the provider and stage collections are copied into the engine as values. In the code the engine keeps the configuration's own `HashSet` objects, so a later change to those collections through the configuration would reach the engine. The type filter sets are shared as in the code.
- `ServiceCollectionExtensions.CheckoutMannualyRegisterServies`: the throw on reading `ImplementationType` of a keyed descriptor is the behaviour of Microsoft.Extensions.DependencyInjection 8 and later, whose `ServiceDescriptor` constructor with a service key this file uses. The exact message text is that library's, not part of this repository.
- Concurrency. The model does not cover `Task`s, `Channel<T>` internals, cancellation tokens, `Interlocked` atomicity or the interleaving of several producers. The engine is sequential: `Enqueue`, `RunProvider`, `Step` and `RunProcessor` run one after another.
- `StartAsync` and `StopAsync` (Queries/Tr1ppy.Queries/ProccesableQueue.cs:100-130) only start and join tasks and swallow their exceptions. Their effect is that of running `RunProvider` per provider and `RunProcessor`.
- The channel's write cannot wait. `Enqueue` on a full bounded channel reports that the write did not complete and leaves the channel as it was.
- Persistence. The engine's state storage is always `null` (Queries/Tr1ppy.Queries/ProccesableQueue.cs:59), so the model drops `InitializeAsync` and the persist branch of `EnqueueAsync`, which are never reached.
- `QueueCounters.QueueCounter.Increment`: the counter is an unbounded integer. The 32-bit wrap-around of `Interlocked.Increment` and `Interlocked.Decrement` is not modelled.
- Logging, `Console.WriteLine` and `ILogger` calls. This includes the warning for a type with several interfaces (Services/Tr1ppy.Services.Integration.DependencyInjection/ServiceCollectionExtensions.cs:46). They have no effect on state.
- The `QueueConfigurationBuilder(Enum)` constructor (Queries/Tr1ppy.Querries.Integration/QueueConfigurationBuilder.cs:40-43). It differs from the string one only in how .NET formats an enum name.
- The `QueryAccessor(IServiceProvider)` constructor. It asks a DI container for the queues; the model takes the queue list directly.
- `QueryAccessor.UnregisterType`, because its body is empty.
- Reflection itself: `GetType`, `GetInterfaces`, `BaseType`, `GetCustomAttribute`, `IsAssignableFrom` and `RuntimeInformation`.
  - These are fields and relations of the abstract type universe.
  - The running operating system is a parameter.
  - The entry assembly's name, read by `IncludeCurrentDomainName`, is a parameter.
  - Loading DLLs from the base directory (`ProjectAssembliesFromApp`) is left out as file I/O.
- The contents of the two exclusion lists of `ServiceTypeFilter` are a parameter. They are sets of framework types that the universe does not name.
- Null domain strings inside the option lists, and the `NullReferenceException` that `name.Contains(null)` would throw, are not modelled. Domains are plain strings.
- `Errors.Error.ToString`: the code name of the enum, the exception's runtime type name and the text of an inner error or detail value are given as strings. .NET's own formatting of them is not modelled.
- Values stored in `object` positions (detail values, inner errors) are the text they print as.
- `ServiceTypeFilter.GetAbstractionsToRegister` returns `HashSet` contents in insertion order. That order is what a `HashSet` with no removals enumerates in practice, but .NET does not promise it.
- `AssemblyLoaders.Trim`: white space is the fixed set of Unicode white-space characters of `char.IsWhiteSpace`. Other Unicode categories are not modelled.

## Findings

| source | as written | input that shows it | evidently intended | confidence | as-written member | corrected member |
|---|---|---|---|---|---|---|
| Queries/Tr1ppy.Queries/ProccesableQueue.cs:56-57 | the constructor assigns the configured excluded types to the included-types field, overwriting the included types; the excluded-types field is never set | a queue over `TPayload` with subtypes `A` and `B` and `ExcludeSubtype(A)`: `A` is processed and `B` is dropped | line 57 assigns `_excludedSubTypes`, so `A` is dropped and `B` processed | high; not executed | ProccesableQueues.SubTypeFiltersAsWritten, ProccesableQueues.AsWrittenExclusionAdmitsOnlyExcluded | ProccesableQueues.SubTypeFilters, ProccesableQueues.SubTypeFiltersHonourConfiguration |
| Services/Tr1ppy.Services.Attributes/OnPlatformAttribute.cs:49-50 | the Windows bit yields `OSPlatform.OSX` | `[OnPlatform(SupportedOSPlatform.Windows)]` running on Windows: reported unsupported, and supported on macOS | the Windows bit yields `OSPlatform.Windows`, as the enum's documentation at lines 15-18 says | high; not executed | OnPlatform.ToOSPlatformsAsWritten, OnPlatform.WindowsOnlyServiceAsWritten, OnPlatform.OnPlatformAttribute.IsSupportByCurrentPlatform | OnPlatform.ToOSPlatforms, OnPlatform.WindowsOnlyServiceCorrected, OnPlatform.OnPlatformAttribute.IsSupportByCurrentPlatformCorrected |
| Services/Tr1ppy.Services.Integration/ServiceTypeFilter.cs:128-132 | `IAsyncStateMachine`, `ICriticalNotifyCompletion` and `INotifyCompletion` are non-generic interfaces placed in the generic-definition list, which `IsExcluded` consults only for generic types (lines 145-151) | a service implementing `INotifyCompletion` through an abstract base: `IsExcluded(typeof(INotifyCompletion))` is false and the interface is registered | these interfaces are excluded like the other listed framework interfaces | medium; not executed | ServiceTypeFilter.ExcludedAsWritten, ServiceTypeFilter.ListedNonGenericInterfaceAsWritten | ServiceTypeFilter.ExcludedCorrected, ServiceTypeFilter.ExclusionRules |
