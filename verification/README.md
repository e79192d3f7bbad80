# Cache refresher dispatcher — a Dafny model

This project models `CacheRefresherComponent`. The component subscribes to the domain
services' events (content, media, members, users, dictionary items, templates, macros,
content types, domains, languages, relations, permissions, application trees and sections).
For each event it issues the calls on the distributed cache facility that keep the cache
regions fresh.

The model has three parts, matching the component:

- **Handler discovery and lookup** (`Names`, `Registry`, `Dispatch`). The static methods
  are plain records: name, parameter types, and body. The candidate filter keeps the
  methods whose name splits on `'_'` into exactly two non-empty pieces and whose second of
  two parameters is an event-args type. `FindHandler` looks up
  `senderTypeName + "_" + eventName` among the candidates, first match wins, and memoises
  the answer per event definition, a "none" answer included. `HandleEvents` resolves each
  definition in order, skips those without a handler, and invokes the rest. An invocation
  whose arguments do not fit the handler's second parameter throws, as `MethodInfo.Invoke`
  does, and the exception ends the loop.
- **Bind/unbind lifecycle** (`Binder`). Component instances and the services' static
  invocation lists are immutable values. The model covers the two constructors,
  `Initialize`'s 37 `Bind` calls, `Bind` itself, the test-only `Unbind`, and what each
  service event calls.
- **Routing table** (`Routing`, `Events`, `CacheActions`). Each of the 37 routing routines
  is a pure function from event arguments to the sequence of calls it makes on the cache
  facility. The calls are values: the facility is a sink.

`RoutineNames` holds the type names and event names that routine names are built from. Each
is a non-empty, underscore-free `Piece`.
`Wrappers` holds `Option`, `Result` and the exceptions the code raises. `Sequences` holds
LINQ's `Distinct` over ids.

Two properties of the lifecycle are worth stating up front:

- Nothing guards against a second `Initialize`: every handler is attached again
  (`Binder.InitializeTwiceDoublesHandlers`).
- Unbinders run in recording order, and `-=` removes the last occurrence of a handler
  (`Binder.DetachOrderIsIrrelevant`: the order does not change the multiset of what stays
  attached).

## Model

| member | source | states |
|---|---|---|
| Names.Split | src/Umbraco.Web/Cache/CacheRefresherComponent.cs:198 | `Split` with `RemoveEmptyEntries` yields only non-empty pieces free of the separator, never more pieces than characters; what the pieces are is fixed by `SplitWordThen` and `SplitSkipsSeparator` |
| Names.SplitWordThen | src/Umbraco.Web/Cache/CacheRefresherComponent.cs:198 | a non-empty, separator-free word followed by a separator or by nothing splits into that word, then the pieces of the rest |
| Names.SplitSkipsSeparator | src/Umbraco.Web/Cache/CacheRefresherComponent.cs:198 | a leading separator yields no piece: splitting skips it |
| Names.FirstSeparatorDecides | src/Umbraco.Web/Cache/CacheRefresherComponent.cs:183 | when the right-hand halves are free of the separator, `t + sep + n` equals `a + sep + b` exactly when `t == a` and `n == b`, whatever `t` and `n` are |
| Names.SplitJoin | src/Umbraco.Web/Cache/CacheRefresherComponent.cs:198 | splitting the join of non-empty, separator-free pieces gives the pieces back |
| Names.SplitKeepsEverythingElse | src/Umbraco.Web/Cache/CacheRefresherComponent.cs:198 | the pieces, concatenated, are the input with every separator removed: splitting loses nothing else |
| Names.SplitTwoPieces | src/Umbraco.Web/Cache/CacheRefresherComponent.cs:198 | `a_b` with `a`, `b` separator-free and non-empty splits into exactly `[a, b]` |
| Names.SplitDropsEmptyPieces | src/Umbraco.Web/Cache/CacheRefresherComponent.cs:198 | leading, doubled and trailing underscores produce no empty piece: `_a__b_` still splits into `[a, b]` |
| Names.NoSeparatorOnePiece | src/Umbraco.Web/Cache/CacheRefresherComponent.cs:196-199 | a non-empty name without `'_'` splits into one piece, so the `Contains("_")` test only excludes what the two-part test would |
| Names.TwoPiecesNeedSeparator | src/Umbraco.Web/Cache/CacheRefresherComponent.cs:196-199 | a name that splits into two pieces contains `'_'` |
| Registry.MethodOf | src/Umbraco.Web/Cache/CacheRefresherComponent.cs:225-562 | the reflected method of a routine is named after the routine and runs it |
| Registry.StaticMethods | src/Umbraco.Web/Cache/CacheRefresherComponent.cs:192 | the scanned static methods are the 37 routines in declaration order plus the one-parameter helpers `FindHandler` and `HandleEvents`; the helpers are listed last, and their position is immaterial because the filter drops them |
| Registry.IsCandidate | src/Umbraco.Web/Cache/CacheRefresherComponent.cs:196-203 | a method passes exactly when its name splits into two pieces and its second of two parameters is an event-args type; the `Contains("_")` test adds nothing |
| Registry.CandidateHandlers | src/Umbraco.Web/Cache/CacheRefresherComponent.cs:188-208 | a method is a candidate exactly when it is among the scanned methods and passes all four tests of the filter |
| Registry.CandidateHandlersAppend | src/Umbraco.Web/Cache/CacheRefresherComponent.cs:190-207 | the scan keeps the scanned methods' order: scanning a concatenation concatenates the scans |
| Registry.AllCandidatesKept | src/Umbraco.Web/Cache/CacheRefresherComponent.cs:190-207 | a list of methods that all pass the filter comes through unchanged |
| Registry.RoutinesAreCandidates | src/Umbraco.Web/Cache/CacheRefresherComponent.cs:196-203 | every routing routine passes the filter |
| Registry.HelpersAreNotCandidates | src/Umbraco.Web/Cache/CacheRefresherComponent.cs:181-219 | `FindHandler` and `HandleEvents`, with one parameter each, are filtered out |
| Registry.RoutinesThenHelpers | src/Umbraco.Web/Cache/CacheRefresherComponent.cs:188-208 | behind any list of routines the two helpers are dropped and the routines kept in order |
| Registry.CandidatesAreTheRoutines | src/Umbraco.Web/Cache/CacheRefresherComponent.cs:188-208 | the candidates of the component are exactly its 37 routing routines, in declaration order |
| Registry.FirstNamed | src/Umbraco.Web/Cache/CacheRefresherComponent.cs:185 | `FirstOrDefault` by name: none exactly when no candidate has the name, otherwise the candidate at the first index holding it |
| Registry.FindHandler | src/Umbraco.Web/Cache/CacheRefresherComponent.cs:181-186 | `GetOrAdd`: a memoised answer is returned and the memo kept; otherwise the first-match lookup is stored and returned; a sound memo stays sound and answers like a fresh lookup |
| Registry.FindHandlerIsStable | src/Umbraco.Web/Cache/CacheRefresherComponent.cs:181-186 | asking again with the same definition gives the same answer and leaves the memo unchanged, a memoised "none" included |
| Registry.SameShapeSameHandler | src/Umbraco.Web/Cache/CacheRefresherComponent.cs:183-185 | two definitions with the same sender type and event name resolve to the same handler whatever their arguments and memo histories |
| Registry.KeyMatchesName | src/Umbraco.Web/Cache/CacheRefresherComponent.cs:183 | for every sender type name and event name, underscores and empty names included, the lookup key equals a routine's name exactly when sender type and event name are the routine's two name parts |
| Registry.ResolvesAmong | src/Umbraco.Web/Cache/CacheRefresherComponent.cs:183-185 | among the methods of any routines, a definition resolves exactly when some routine carries its sender type and event name as name parts, and then to such a routine |
| Registry.ResolvesByNameParts | src/Umbraco.Web/Cache/CacheRefresherComponent.cs:181-208 | the same for the component's own candidates |
| Registry.UnnamedEventsAreUnresolved | src/Umbraco.Web/Cache/CacheRefresherComponent.cs:181-208 | definitions named `*_TreeChanged`, `MediaTypeService_*` or `MemberTypeService_*` find no handler, because no routine is named so |
| Dispatch.Invoke | src/Umbraco.Web/Cache/CacheRefresherComponent.cs:217 | invoking a routine with arguments its parameter accepts makes that routine's calls; other arguments, or a method that is not a routine, throw |
| Dispatch.Run | src/Umbraco.Web/Cache/CacheRefresherComponent.cs:210-219 | resolving each event afresh invokes handlers only for the given events, and no more invocations than there are events; order and multiplicity are stated by `RunInvokesInOrder` |
| Dispatch.RunInvokesInOrder | src/Umbraco.Web/Cache/CacheRefresherComponent.cs:212-218 | the invoked events form a subsequence of the events: in their order, each occurrence invoked at most once |
| Dispatch.InOrderIndices | src/Umbraco.Web/Cache/CacheRefresherComponent.cs:212-218 | invocations in order means invocation k is for the event at an index of the events that strictly increases with k |
| Dispatch.HandleEvents | src/Umbraco.Web/Cache/CacheRefresherComponent.cs:210-219 | the memoised loop does what resolving every event afresh does (`Run`), keeps the memo sound, only adds to it, and memoises every event when nothing throws |
| Dispatch.FailureIsFinal | src/Umbraco.Web/Cache/CacheRefresherComponent.cs:212-218 | once an invocation threw, later events are neither resolved nor invoked |
| Dispatch.RunExtends | src/Umbraco.Web/Cache/CacheRefresherComponent.cs:212-218 | events are handled in order: what a prefix of the events does is a prefix of what all of them do |
| Dispatch.EachHandledEventInvokedOnce | src/Umbraco.Web/Cache/CacheRefresherComponent.cs:212-218 | when nothing throws, the invocations are exactly one per event with a handler, in event order |
| Dispatch.UnknownEventsAreIgnored | src/Umbraco.Web/Cache/CacheRefresherComponent.cs:214-215 | removing the events without a handler changes neither the invocations, the calls nor the outcome |
| Dispatch.UnknownEventDoesNothing | src/Umbraco.Web/Cache/CacheRefresherComponent.cs:214-215 | an event without a handler makes no call and raises nothing |
| Dispatch.ResolvedEventRunsItsRoutine | src/Umbraco.Web/Cache/CacheRefresherComponent.cs:214-217 | a resolved event invokes its handler once: with fitting arguments it makes the routine's calls, otherwise it raises an argument mismatch |
| Dispatch.UnnamedEventsAreSkipped | src/Umbraco.Web/Cache/CacheRefresherComponent.cs:181-219 | dispatch over the component's candidates makes no call for `TreeChanged` events or the media and member type services' events |
| Binder.BindingOf | src/Umbraco.Web/Cache/CacheRefresherComponent.cs:46-157 | the `Bind` call attaching a routine attaches that routine; which service event it listens to is cross-checked against the lookup by `BoundToFindsEachBinding` |
| Binder.Create | src/Umbraco.Web/Cache/CacheRefresherComponent.cs:31-39 | the unbinder list exists exactly when the instance is built to support unbinding, and starts empty |
| Binder.Bind | src/Umbraco.Web/Cache/CacheRefresherComponent.cs:162-169 | the handler is attached at once; the unbinder is recorded only when the list exists |
| Binder.BindAll | src/Umbraco.Web/Cache/CacheRefresherComponent.cs:162-169 | a run of `Bind` calls attaches its subscriptions in order after the existing ones, and records them only when the list exists |
| Binder.Initialize | src/Umbraco.Web/Cache/CacheRefresherComponent.cs:41-157 | `Initialize` attaches the 37 bindings after whatever was attached, and records them only on an instance that keeps unbinders |
| Binder.Detach | src/Umbraco.Web/Cache/CacheRefresherComponent.cs:175-176 | an unbinder removes one occurrence of its subscription, or nothing when it is not attached |
| Binder.Unbind | src/Umbraco.Web/Cache/CacheRefresherComponent.cs:172-179 | throws `NotSupportedException` exactly when no list exists; otherwise it drops the list and removes the recorded subscriptions |
| Binder.DetachAll | src/Umbraco.Web/Cache/CacheRefresherComponent.cs:176-177 | the unbinders in recording order never add a subscription: what remains is a sub-multiset of what was attached; what they remove is stated by `DetachAllRemoves` |
| Binder.DetachAllRemoves | src/Umbraco.Web/Cache/CacheRefresherComponent.cs:175-176 | running attached unbinders removes exactly those subscriptions, each once |
| Binder.DetachOrderIsIrrelevant | src/Umbraco.Web/Cache/CacheRefresherComponent.cs:175-176 | running the same unbinders in another order leaves the same multiset of subscriptions attached |
| Binder.DetachAllAppended | src/Umbraco.Web/Cache/CacheRefresherComponent.cs:162-179 | running the unbinders of distinct subscriptions attached last restores the list exactly |
| Binder.CallOrderIsABijection | src/Umbraco.Web/Cache/CacheRefresherComponent.cs:46-157 | `Initialize` makes exactly one `Bind` call per routine |
| Binder.BindingsAreDistinct | src/Umbraco.Web/Cache/CacheRefresherComponent.cs:46-157 | the 37 bindings are pairwise distinct, and each routine's binding is at its position |
| Binder.BindingEventsAreDistinct | src/Umbraco.Web/Cache/CacheRefresherComponent.cs:46-157 | no two bindings listen to the same event of the same service |
| Binder.EventsDistinctByLookup | src/Umbraco.Web/Cache/CacheRefresherComponent.cs:46-157 | distinct subscriptions that are each their handler's binding listen to distinct events |
| Binder.BoundToFindsEachBinding | src/Umbraco.Web/Cache/CacheRefresherComponent.cs:46-157 | looking up the event a routine is bound to finds that routine |
| Binder.BoundToFindsOnlyBindings | src/Umbraco.Web/Cache/CacheRefresherComponent.cs:46-157 | whatever the lookup finds is bound to the event looked up |
| Binder.InitializeRecordsEveryBinding | src/Umbraco.Web/Cache/CacheRefresherComponent.cs:35-169 | on a test instance, `Initialize` records one unbinder per `Bind` call, 37 in all |
| Binder.ProductionCannotUnbind | src/Umbraco.Web/Cache/CacheRefresherComponent.cs:31-179 | the production instance records nothing, so `Unbind` throws even after `Initialize` |
| Binder.UnbindUndoesInitialize | src/Umbraco.Web/Cache/CacheRefresherComponent.cs:35-179 | on a test instance, `Unbind` after `Initialize` restores the subscriptions exactly as they were |
| Binder.SecondUnbindFails | src/Umbraco.Web/Cache/CacheRefresherComponent.cs:172-179 | a successful `Unbind` drops the list, so a second `Unbind` throws |
| Binder.Fire | src/Umbraco.Web/Cache/CacheRefresherComponent.cs:46-157 | an event calls exactly the handlers attached to it; their order is the invocation-list order, by `FireAppend` |
| Binder.FireAppend | src/Umbraco.Web/Cache/CacheRefresherComponent.cs:162-166 | firing over two attachment lists calls the first list's handlers, then the second's |
| Binder.FireNothing | src/Umbraco.Web/Cache/CacheRefresherComponent.cs:46-157 | an event no subscription listens to calls nothing |
| Binder.AtMostOneHandler | src/Umbraco.Web/Cache/CacheRefresherComponent.cs:46-157 | where no two subscriptions share an event, an event calls at most one handler |
| Binder.FiresTheOne | src/Umbraco.Web/Cache/CacheRefresherComponent.cs:46-157 | where no two subscriptions share an event, each subscription's event calls exactly its handler |
| Binder.BindingFires | src/Umbraco.Web/Cache/CacheRefresherComponent.cs:46-157 | among the bindings, the event a routine is bound to calls that routine, once |
| Binder.UnboundEventFiresNothing | src/Umbraco.Web/Cache/CacheRefresherComponent.cs:46-157 | among the bindings, an event bound to nothing calls nothing |
| Binder.InitializeAddsHandlers | src/Umbraco.Web/Cache/CacheRefresherComponent.cs:41-169 | after `Initialize`, each event calls what it called before, then what `Initialize` bound to it |
| Binder.EachEventCallsItsHandler | src/Umbraco.Web/Cache/CacheRefresherComponent.cs:41-169 | after `Initialize`, each event additionally calls the one routine bound to it, if any |
| Binder.InitializeTwiceDoublesHandlers | src/Umbraco.Web/Cache/CacheRefresherComponent.cs:41-169 | a second `Initialize` makes every bound event call its handler twice |
| Binder.TreeChangedIsBoundToChanged | src/Umbraco.Web/Cache/CacheRefresherComponent.cs:134-142 | the content and media services' `TreeChanged` events call `ContentService_Changed` and `MediaService_Changed` |
| Binder.StylesheetsAreNotBound | src/Umbraco.Web/Cache/CacheRefresherComponent.cs:81-86 | `Initialize` adds nothing to what the stylesheet save and delete events call |
| Routing.PatternsPartitionRoutines | src/Umbraco.Web/Cache/CacheRefresherComponent.cs:225-562 | every routine follows exactly one pattern: wholesale, pass-through, per entity, or one of the three permission routines |
| Routing.ParameterType | src/Umbraco.Web/Cache/CacheRefresherComponent.cs:225-562 | per-entity routines take save or delete arguments; every per-entity routine taking delete arguments removes, and every per-entity routine taking save arguments refreshes except member group saves; the member batch verb follows the argument type |
| Routing.WholesaleCall | src/Umbraco.Web/Cache/CacheRefresherComponent.cs:225-328 | the public access, application tree and section routines refresh their whole region |
| Routing.BatchCall | src/Umbraco.Web/Cache/CacheRefresherComponent.cs:293-525 | a pass-through routine's single call targets its region and carries the event's whole payload, in order; only the member routines make a batch call, and its verb is `BatchVerb`'s: member deletes remove, member saves refresh |
| Routing.PerEntity | src/Umbraco.Web/Cache/CacheRefresherComponent.cs:334-502 | a `foreach` over the entities makes one call per entity, in order, keyed by the entity or its id |
| Routing.PerEntityRoute | src/Umbraco.Web/Cache/CacheRefresherComponent.cs:334-562 | per-entity routines make one call per saved or deleted entity, in order, with the routine's verb and region, keyed by that entity itself or by its id as the routine passes it; member group saves remove |
| Routing.PermissionsFlag | src/Umbraco.Web/Cache/CacheRefresherComponent.cs:272-284 | the loop's flag is set exactly when some saved entity is new and had its permissions changed |
| Routing.ContentSaved | src/Umbraco.Web/Cache/CacheRefresherComponent.cs:270-291 | one refresh of all user permissions when some saved entity is new with changed permissions, no call otherwise |
| Routing.ContentSavedJoinsBatches | src/Umbraco.Web/Cache/CacheRefresherComponent.cs:270-291 | two batches saved together trigger the refresh exactly when one of them alone would |
| Routing.ContentCopied | src/Umbraco.Web/Cache/CacheRefresherComponent.cs:248-256 | one refresh of all user permissions exactly when the copy's permissions changed, no call otherwise |
| Routing.UserIds | src/Umbraco.Web/Cache/CacheRefresherComponent.cs:445 | the selected user ids are the rows' ids, row by row |
| Routing.UserIdsCoverRows | src/Umbraco.Web/Cache/CacheRefresherComponent.cs:445 | the selected ids are exactly the users the rows name |
| Routing.PerUser | src/Umbraco.Web/Cache/CacheRefresherComponent.cs:446-447 | one user-permissions refresh per id, in order |
| Routing.PerUserCoversIds | src/Umbraco.Web/Cache/CacheRefresherComponent.cs:446-447 | every id gets its refresh |
| Routing.AssignedPermissions | src/Umbraco.Web/Cache/CacheRefresherComponent.cs:443-448 | user-permissions refreshes only, every row's user covered, no call twice, as many calls as distinct users, in the order the users first appear in the rows |
| Routing.RepeatedUsersAddNoCall | src/Umbraco.Web/Cache/CacheRefresherComponent.cs:443-448 | rows naming only users already named add no call |
| Routing.Route | src/Umbraco.Web/Cache/CacheRefresherComponent.cs:223-564 | every call targets the routine's region; the call count is the pattern's (one, one per entity, at most one, one per distinct user); wholesale routines refresh all; pass-through routines carry the whole payload, member batches with `BatchVerb`'s verb |
| Sequences.FirstIndex | src/Umbraco.Web/Cache/CacheRefresherComponent.cs:445 | the index of the first occurrence of an element |
| Sequences.FirstIndexOfPrefix | src/Umbraco.Web/Cache/CacheRefresherComponent.cs:445 | a first occurrence inside a prefix is the first occurrence in the whole sequence |
| Sequences.Distinct | src/Umbraco.Web/Cache/CacheRefresherComponent.cs:445 | LINQ `Distinct`: the same elements, no duplicates, ordered by first occurrence |
| Sequences.DistinctCardinality | src/Umbraco.Web/Cache/CacheRefresherComponent.cs:445 | `Distinct` has as many elements as the input has distinct values |
| Sequences.NoDuplicatesCardinality | src/Umbraco.Web/Cache/CacheRefresherComponent.cs:445 | a duplicate-free sequence is as long as its set of elements is large |
| Sequences.DistinctIsUnique | src/Umbraco.Web/Cache/CacheRefresherComponent.cs:445 | any duplicate-free sequence of the same elements ordered by first occurrence is `Distinct`'s result |
| Sequences.DistinctIgnoresRepeats | src/Umbraco.Web/Cache/CacheRefresherComponent.cs:445 | appending elements that already occur leaves `Distinct` unchanged |

## Left out

- `src/umbraco.datalayer/SqlHelpers/SqlServer/SqlServerHelper.cs` is not part of this
  model. It is a database wrapper with no logic of the dispatcher's.
- The distributed cache facility and its propagation to other servers are left out. Its
  operations are `CacheAction` values, and the facility is a sink that receives them in order.
- Reflection is left out. `GetMethods` is an explicit list of method records: the 37
  routines in declaration order, then `FindHandler` and `HandleEvents` (declared before the
  routines in the source; the filter drops them, so their place is immaterial). The order .NET
  returns methods in is not specified; the model fixes declaration order, which decides
  which `ContentTypeService_Changed` overload a name lookup finds first.
- Dispatch.Invoke: checks only the second (event-args) parameter against the arguments. The
  sender parameter's interface types are not modelled, so a sender of the wrong type is not
  an error here.
- Generic event-args type parameters (`SaveEventArgs<IUser>` against
  `SaveEventArgs<IMacro>`) are collapsed into one type per event-args shape. The exception
  is permission rows, which keep their own type.
- Runtime type names of senders are not modelled. Which `Sender.typeName` an event
  definition carries depends on code outside the component. The lookup lemmas are stated
  for whatever names are given.
- Thread safety is left out: the `ConcurrentDictionary` memo and the `Lazy` candidate list.
  The memo is a sequential map threaded through calls. The candidate list is a function
  of the method table, built the same every time.
- How the memo compares its keys is left out. The source's dictionary compares definition
  objects by their own equality. The model keys the memo by value, and a definition keeps
  only its sender's type name. So two definitions the source would store apart can share one
  memo entry here. The answer is the same either way, because the lookup depends only on the
  sender type name and the event name (`Registry.SameShapeSameHandler`).
- The services' `+=`/`-=` subscriptions are left out. They are values in an attachment
  list. An unbinder is the subscription it detaches.
- Routing.ContentSaved: the cast of each new saved entity to the concrete content class is not
  modelled. Every entity is read as able to report whether `PermissionsChanged` was dirty, so
  the `InvalidCastException` the cast raises for other `IContent` implementations is not.
- Routing.ContentCopied: the same cast of the copy is not modelled, for the same reason.
- Logging and the runtime-level and component attributes are left out. So are exceptions
  raised inside the routines by the cache facility.
