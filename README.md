# Astergazer dialplan translator, modelled in Dafny

Astergazer lets users draw call-handling scripts as graphs of blocks joined
by connections. Its `TranslatorService` compiles those graphs into Asterisk
dialplan text. This project models that compiler and proves what it
guarantees about the text it produces.

- **Lookups** (`graph.dfy`, `lookup.dfy`). A script is an ordered list of
  blocks and an ordered list of connections. `findStartBlock`,
  `findBlockByLocalId`, `findNextBlock`, `findTrueCaseBlocks` and
  `findFalseCaseBlock` are first-match or filter searches over those lists.
  Each is specified by a recursive function and implemented by a loop
  method proved equal to it. A missing block or missing default case is an
  `Err` of the matching `BlockNotFoundException` message.
- **Branch compiler** (`branch.dfy`). `handleBranch`, `handleSwitcher` and
  `buildScript` form a worklist walk. It uses a string builder, a set of
  handled local ids and a deque of branch starts. The walk is specified by
  functions over an abstract `State`: the pieces appended so far, the
  handled ids and the deque. The class `BranchState` holds the mutable
  builder, set and deque, and its methods are proved to follow those
  functions. The pop at the head of `handleBranch` takes the deque's last
  block and then removes the FIRST element equal to it, as
  `Deque.remove(Object)` does. The model keeps exactly that behaviour
  (`RemoveFirst`), two blocks being equal only when they are the same block (see "## Left out"). Termination is proved with the measure (ids not yet
  handled, deque length).
- **Properties** (`properties.dfy`):
  - every block id is translated at most once per script;
  - every Goto names a block translated earlier;
  - each branch is a run of plain translations closed by one Goto, switch or
    Hangup, and the Hangup comes exactly where the last block has no
    outgoing connection;
  - a switch without a default fails before anything is appended;
  - a switch queues its Case targets in connection order and its default
    last;
  - for a script with unique local ids, every block reachable from the
    start block is translated.
- **Dialplan assembler and cache** (`dialplan.dfy`). `translateContexts`
  writes a `[name]` header per context and an `exten = name,1,NoOp()` line
  per extension, followed by the compiled script when one is attached.
  `cacheContexts` loads the full scripts and overwrites `cachedContexts`
  only after a complete translation. `getTranslatedDialplan` falls back to
  the warning line plus the old cache when loading fails.
- **Scenarios** (`scenarios.dfy`) compile small scripts end to end for every
  rendering of the blocks: a linear chain, a cycle, a switch without a
  default, and a switch with two Case targets and a default.

Blocks are denoted by their index in the script's block list, and the
deque holds such indices, so two entries of the deque are equal exactly
when they denote the same block of the list. The block classes are not part of this model. Their
`getType`, `getLabel`, `isSwitcher`, `isCaseBlock` and `isAgiComplexBlock`
are fields of the `Block` datatype. Their three `translate` overloads are
the functions of a `Renderer` value that every operation takes as a
parameter, so every result holds for any rendering. The FastAGI host is an
explicit parameter instead of the `ThreadLocal`. The persistence layer is a
`Loader` function (`None` where it throws `ServiceException`) and an
`Option` context list.

## Model

| member | source | states |
|---|---|---|
| Lookup.StartIndex | astergazer/src/main/java/ua/dborisenko/astergazer/service/impl/TranslatorService.java:52-59 | the result is the first block, in list order, whose type is "Start"; the error comes exactly when no block has that type |
| Lookup.IndexOfId | astergazer/src/main/java/ua/dborisenko/astergazer/service/impl/TranslatorService.java:61-68 | the result is the first block with the given local id; the error names that id and comes exactly when no block has it |
| Lookup.FirstLeaving | astergazer/src/main/java/ua/dborisenko/astergazer/service/impl/TranslatorService.java:71-72 | the result is the first connection, in list order, whose source is the given id; `None` exactly when no connection leaves it |
| Lookup.Successor | astergazer/src/main/java/ua/dborisenko/astergazer/service/impl/TranslatorService.java:70-77 | the successor is the target of the first connection leaving the block; `null` (Ok(None)) exactly when no connection leaves it; a missing target is that lookup's error |
| Lookup.CaseIndices | astergazer/src/main/java/ua/dborisenko/astergazer/service/impl/TranslatorService.java:81-86 | the positions of the connections that leave the switch and reach an existing Case block, strictly increasing, each such position listed |
| Lookup.CaseTargets | astergazer/src/main/java/ua/dborisenko/astergazer/service/impl/TranslatorService.java:79-90 | on success the list has one entry per connection that leaves the switch and reaches a Case block, in connection order (the target of the i-th such connection is entry i), and every leaving connection's target exists; on failure the error is that of a leaving connection whose target is missing |
| Lookup.CaseTargetsMembers | astergazer/src/main/java/ua/dborisenko/astergazer/service/impl/TranslatorService.java:79-90 | a list built in that order holds only Case blocks reached from the switch and every Case block the switch reaches |
| Lookup.CaseTargetsFirstMissing | astergazer/src/main/java/ua/dborisenko/astergazer/service/impl/TranslatorService.java:79-90 | a failed Case search reports the first leaving connection whose target is missing: every leaving connection before it resolves |
| Lookup.DefaultTarget | astergazer/src/main/java/ua/dborisenko/astergazer/service/impl/TranslatorService.java:92-102 | the result is the first target of the switch whose type is "FalseCase", all earlier targets existing and not FalseCase; "default case not found" exactly when all targets exist and none is FalseCase (other errors: see `DefaultTargetFirstMissing`) |
| Lookup.DefaultTargetFirstMissing | astergazer/src/main/java/ua/dborisenko/astergazer/service/impl/TranslatorService.java:92-102 | an error other than "default case not found" is that of the first leaving connection whose target is missing, every earlier target existing and not FalseCase |
| Lookup.FindStartBlock | astergazer/src/main/java/ua/dborisenko/astergazer/service/impl/TranslatorService.java:52-59 | the loop returns what `StartIndex` specifies |
| Lookup.FindBlockByLocalId | astergazer/src/main/java/ua/dborisenko/astergazer/service/impl/TranslatorService.java:61-68 | the loop returns what `IndexOfId` specifies |
| Lookup.FindNextBlock | astergazer/src/main/java/ua/dborisenko/astergazer/service/impl/TranslatorService.java:70-77 | the loop returns what `Successor` specifies |
| Lookup.FindTrueCaseBlocks | astergazer/src/main/java/ua/dborisenko/astergazer/service/impl/TranslatorService.java:79-90 | the loop that fills the list returns what `CaseTargets` specifies |
| Lookup.FindFalseCaseBlock | astergazer/src/main/java/ua/dborisenko/astergazer/service/impl/TranslatorService.java:92-102 | the loop returns what `DefaultTarget` specifies |
| BranchCompiler.RemoveFirst | astergazer/src/main/java/ua/dborisenko/astergazer/service/impl/TranslatorService.java:107 | `Deque.remove(Object)` shortens the deque by one when the block is in it and leaves it alone otherwise; it keeps every other element and adds none |
| BranchCompiler.FewerUnvisited | astergazer/src/main/java/ua/dborisenko/astergazer/service/impl/TranslatorService.java:118 | adding a new id of the script to the handled set leaves strictly fewer ids to handle, the first part of the termination measure |
| BranchCompiler.Switch | astergazer/src/main/java/ua/dborisenko/astergazer/service/impl/TranslatorService.java:124-136 | a translated switch adds exactly its own id to the handled set and queues only blocks of the script |
| BranchCompiler.Walk | astergazer/src/main/java/ua/dborisenko/astergazer/service/impl/TranslatorService.java:108-121 | the walk only adds ids of the script to the handled set; when it adds none (a Goto exit), it leaves the deque unchanged |
| BranchCompiler.Branch | astergazer/src/main/java/ua/dborisenko/astergazer/service/impl/TranslatorService.java:104-122 | one branch either grows the handled set or, growing nothing, leaves the deque one shorter |
| BranchCompiler.Run | astergazer/src/main/java/ua/dborisenko/astergazer/service/impl/TranslatorService.java:151-153 | the loop ends only with an empty deque and adds only ids of the script; it terminates on the measure (ids not yet handled, deque length) |
| BranchCompiler.Compile | astergazer/src/main/java/ua/dborisenko/astergazer/service/impl/TranslatorService.java:146-155 | compilation starts from the start block with a fresh handled set, fails with "start block not found" when there is none, and on success leaves an empty deque and only script ids handled |
| BranchCompiler.BranchState.constructor | astergazer/src/main/java/ua/dborisenko/astergazer/service/impl/TranslatorService.java:147-150 | an empty builder, an empty id set and a deque holding only the start block |
| BranchCompiler.BranchState.AppendGoto | astergazer/src/main/java/ua/dborisenko/astergazer/service/impl/TranslatorService.java:109-111 | appends the Goto line of the block's label and changes neither the handled set nor the deque |
| BranchCompiler.BranchState.AppendBlock | astergazer/src/main/java/ua/dborisenko/astergazer/service/impl/TranslatorService.java:117-118 | appends the block's translation, then adds its id to the handled set |
| BranchCompiler.BranchState.AppendHangup | astergazer/src/main/java/ua/dborisenko/astergazer/service/impl/TranslatorService.java:121 | appends the Hangup line and changes nothing else |
| BranchCompiler.BranchState.HandleSwitcher | astergazer/src/main/java/ua/dborisenko/astergazer/service/impl/TranslatorService.java:124-136 | the new builder, handled set and deque are those `Switch` specifies; on a lookup failure nothing at all changes |
| BranchCompiler.BranchState.HandleBranch | astergazer/src/main/java/ua/dborisenko/astergazer/service/impl/TranslatorService.java:104-122 | the take-last, remove-first pop followed by the walk loop yields the state `Branch` specifies, or its error |
| BranchCompiler.BuildScript | astergazer/src/main/java/ua/dborisenko/astergazer/service/impl/TranslatorService.java:146-155 | the method returns the text of the trace that `Compile` specifies, or its error |
| BranchProperties.WalkConsistent | astergazer/src/main/java/ua/dborisenko/astergazer/service/impl/TranslatorService.java:108-136 | one walk keeps three facts: the handled set is exactly the set of translated ids, no id is translated twice, and every Goto follows its block's translation |
| BranchProperties.RunConsistent | astergazer/src/main/java/ua/dborisenko/astergazer/service/impl/TranslatorService.java:151-153 | the `buildScript` loop keeps the same three facts over all its branches |
| BranchProperties.CompiledRendersOnce | astergazer/src/main/java/ua/dborisenko/astergazer/service/impl/TranslatorService.java:146-155 | in one compiled script each block id contributes its translation at most once, the handled set is exactly the translated ids, and every Goto jumps back to a block translated earlier |
| BranchProperties.WalkShape | astergazer/src/main/java/ua/dborisenko/astergazer/service/impl/TranslatorService.java:108-121 | a walk appends plain translations closed by exactly one Goto, switch or Hangup; a translated block is followed by Hangup exactly when no connection leaves it |
| BranchProperties.BranchShape | astergazer/src/main/java/ua/dborisenko/astergazer/service/impl/TranslatorService.java:104-122 | one `handleBranch` keeps what was appended before and adds one such well-shaped branch |
| BranchProperties.RevisitAppendsGoto | astergazer/src/main/java/ua/dborisenko/astergazer/service/impl/TranslatorService.java:109-111 | reaching a handled block appends exactly `\tsame = n,Goto(label)\n` and ends the branch with the handled set and deque unchanged |
| BranchProperties.SwitchWithoutDefaultFails | astergazer/src/main/java/ua/dborisenko/astergazer/service/impl/TranslatorService.java:124-127 | a new switch whose targets all exist and none is FalseCase fails with "default case not found" |
| BranchProperties.SwitchQueuesDefaultLast | astergazer/src/main/java/ua/dborisenko/astergazer/service/impl/TranslatorService.java:133-135 | a translated switch appends its Case targets in connection order and then its FalseCase target, which is then the deque's last element |
| BranchProperties.RemoveFirstAt | astergazer/src/main/java/ua/dborisenko/astergazer/service/impl/TranslatorService.java:107 | `remove(Object)` drops exactly the first occurrence of the block |
| BranchProperties.PopOfDistinctIsLast | astergazer/src/main/java/ua/dborisenko/astergazer/service/impl/TranslatorService.java:106-107 | when no block is queued twice, the pop is a plain pop of the last element |
| BranchProperties.PopOfRepeatedKeepsItLast | astergazer/src/main/java/ua/dborisenko/astergazer/service/impl/TranslatorService.java:106-107 | when the last block is also queued earlier, the pop removes the earlier copy, so the same block stays last |
| BranchProperties.WalkHandlesStart | astergazer/src/main/java/ua/dborisenko/astergazer/service/impl/TranslatorService.java:108-119 | a successful walk leaves its first block handled |
| BranchProperties.CompileHandlesStart | astergazer/src/main/java/ua/dborisenko/astergazer/service/impl/TranslatorService.java:146-153 | a successful compilation handles the start block |
| BranchProperties.WalkClosed | astergazer/src/main/java/ua/dborisenko/astergazer/service/impl/TranslatorService.java:108-136 | with unique local ids, every successor of a handled block stays handled or queued across one walk |
| BranchProperties.RunClosed | astergazer/src/main/java/ua/dborisenko/astergazer/service/impl/TranslatorService.java:151-153 | the same closure holds across the whole `buildScript` loop |
| BranchProperties.CompileCoversReachable | astergazer/src/main/java/ua/dborisenko/astergazer/service/impl/TranslatorService.java:146-155 | with unique local ids, every block on a path of successors, Case targets and defaults from the start block is translated |
| Dialplan.ExtensionsTextFails | astergazer/src/main/java/ua/dborisenko/astergazer/service/impl/TranslatorService.java:184-189 | the extensions of a context translate exactly when no attached script fails to compile; otherwise the error is the first failing script's |
| Dialplan.ContextsTextFails | astergazer/src/main/java/ua/dborisenko/astergazer/service/impl/TranslatorService.java:180-191 | the context list translates exactly when every context's extensions do; otherwise the error is the first failing context's |
| Dialplan.ContextsConcat | astergazer/src/main/java/ua/dborisenko/astergazer/service/impl/TranslatorService.java:182-190 | the text of two context lists in a row is the text of their concatenation |
| Dialplan.ScriptlessContext | astergazer/src/main/java/ua/dborisenko/astergazer/service/impl/TranslatorService.java:183-186 | a context without attached scripts becomes `[name]\n` followed by one `exten = name,1,NoOp()\n` line per extension |
| Dialplan.TranslateContexts | astergazer/src/main/java/ua/dborisenko/astergazer/service/impl/TranslatorService.java:180-192 | the nested loops return the text `ContextsText` specifies, or the first compile error |
| Dialplan.Reload | astergazer/src/main/java/ua/dborisenko/astergazer/service/impl/TranslatorService.java:168-170 | an extension with a script gets the loaded script under the same name and id; one without keeps no script; the reload fails exactly when the load does |
| Dialplan.ReloadAllSpec | astergazer/src/main/java/ua/dborisenko/astergazer/service/impl/TranslatorService.java:167-171 | the extensions keep their order, each reloaded; the step fails exactly when one attached script fails to load |
| Dialplan.LoadContextsSpec | astergazer/src/main/java/ua/dborisenko/astergazer/service/impl/TranslatorService.java:166-172 | the contexts keep their order and names, each with its extensions reloaded; loading fails exactly when one context's reload fails |
| Dialplan.LoadContextsFails | astergazer/src/main/java/ua/dborisenko/astergazer/service/impl/TranslatorService.java:166-172 | loading fails exactly when some attached script of some context fails to load |
| Dialplan.LoadExtensions | astergazer/src/main/java/ua/dborisenko/astergazer/service/impl/TranslatorService.java:167-171 | the inner loading loop returns what `ReloadAll` specifies |
| Dialplan.LoadScripts | astergazer/src/main/java/ua/dborisenko/astergazer/service/impl/TranslatorService.java:166-172 | the loading loops return what `LoadContexts` specifies |
| Dialplan.RefreshCases | astergazer/src/main/java/ua/dborisenko/astergazer/service/impl/TranslatorService.java:163-177 | a refresh is a load failure exactly when the list or some attached script cannot be loaded; a compile failure carries the error of one loaded script |
| Dialplan.ResponseShowsCache | astergazer/src/main/java/ua/dborisenko/astergazer/service/impl/TranslatorService.java:200-206 | a failed refresh leaves the cache as it was; a served dialplan is the cache after the refresh, behind the warning line exactly when the refresh failed |
| Dialplan.CacheIsLastSuccess | astergazer/src/main/java/ua/dborisenko/astergazer/service/impl/TranslatorService.java:173 | after any series of refreshes the cache holds the text of the latest one that succeeded, or its initial value |
| Dialplan.TranslatorService.constructor | astergazer/src/main/java/ua/dborisenko/astergazer/service/impl/TranslatorService.java:40 | the cache starts empty |
| Dialplan.TranslatorService.CacheContexts | astergazer/src/main/java/ua/dborisenko/astergazer/service/impl/TranslatorService.java:163-178 | the outcome is the one `RefreshOf` specifies, and the cache field changes only when the translation completed |
| Dialplan.TranslatorService.GetTranslatedDialplan | astergazer/src/main/java/ua/dborisenko/astergazer/service/impl/TranslatorService.java:195-206 | the result is the warning line plus the old cache after a failed load, the new text after a success; the cache is updated as `CacheContexts` says |
| Dialplan.TranslatorService.GetTranslatedScript | astergazer/src/main/java/ua/dborisenko/astergazer/service/impl/TranslatorService.java:158-161 | a script that cannot be loaded is a load error; otherwise the result is its compiled text |
| Scenarios.LinearChainText | astergazer/src/main/java/ua/dborisenko/astergazer/service/impl/TranslatorService.java:146-155 | Start then B with no successor compiles to their translations followed by one Hangup line |
| Scenarios.CycleText | astergazer/src/main/java/ua/dborisenko/astergazer/service/impl/TranslatorService.java:108-121 | Start, B, C with an edge back to B translate B and C once each and end with `Goto(b)` |
| Scenarios.NoDefaultFails | astergazer/src/main/java/ua/dborisenko/astergazer/service/impl/TranslatorService.java:92-102 | a script reaching a switch without a FalseCase target fails as a whole with "default case not found" |
| Scenarios.SwitcherText | astergazer/src/main/java/ua/dborisenko/astergazer/service/impl/TranslatorService.java:124-136 | a switch with Case targets T1, T2 and default F is followed by F's branch, then T2's, then T1's |

## Left out

- The persistence layer is not part of this model. `scriptDao.getFull` and `contextDao.getAll` become a `Loader` function and an `Option` context list. The transaction exception mapping is one `LoadFailed` error or `LoadFailure` outcome. The in-place `setScript` on the loaded extensions becomes a new list of contexts.
- The summary footer is left out: `buildSummaryInfo` and the `StopWatch` depend on the clock and the current date. `GetTranslatedDialplan` returns the text before the footer.
- Spring wiring, transactions and logging are framework plumbing and are left out.
- The `ThreadLocal` host and concurrent access to `cachedContexts` are not modelled. The host is a parameter and the cache is one field of a single-threaded object.
- `Block.equals` is not part of this model. `Deque.remove(Object)` removes the first element that `equals` the popped block, and the model takes `equals` to be reference identity (the same position in the block list). If `Block` compares by local id instead, the two agree only when local ids are unique within the script.
- The block classes are not part of this model. Their `translate` overloads are an arbitrary `Renderer`, applied to a block's modelled fields. Two blocks with equal fields therefore render alike.
- Dialplan.TranslatorService.GetTranslatedDialplan: whether a `BlockNotFoundException` escaping `cacheContexts` is caught by the `ServiceException` handler depends on that exception's class hierarchy, which is not part of this model. The `fallbackOnCompileError` flag covers both cases; no property depends on its value.
