# Verified models of the Luna compiler

Luna's compiler is written in Rust. This project models its most intricate parts in Dafny and
proves what they are for. Methods follow the compiler's own loops and mutations and are proved
against specification functions; lemmas state what holds of every run, path, table or text.

| modules | what they model |
|---|---|
| `Mvir`, `Shapes`, `ForwardDataflow`, `BackwardDataflow` | the mid-level IR and the two sweep-to-fixpoint engines |
| `Dominators`, `NaturalLoops` | control-flow edges, dominators, loops and the values that end with them |
| `Places`, `MoveState`, `MoveTransfer`, `MoveChecker`, `MoveSoundness`, `MoveReports`, `MoveRoles`, `MoveMeaning`, `MoveTermination`, `BorrowCheckMoves`, `HandOvers`, `ReturnUses`, `DropSoundness`, `DropExact` | the move analysis, what it does by the roles of operands, its reporting pass, the uses by terminators and the drops it removes |
| `Suspension` | the places alive where an async function suspends |
| `Liveness`, `BorrowLoans` | liveness of values, alias chains and active loans |
| `Effects`, `EffectTaints`, `EffectMeaning`, `EffectTransfer`, `EffectSoundness`, `EffectSummaries`, `EffectRun`, `EffectLeast`, `EffectInfer`, `EffectUnique` | call effect summaries and their inference for one function |
| `Interprocedural`, `ModuleEffects`, `EffectMixing`, `EffectSwitching` | the worklist that computes the summaries of all functions, when it ends, and a function on which it does not |
| `AsyncMachine`, `AsyncLowering`, `AsyncResume`, `AsyncSimulation`, `AsyncDispatch`, `AsyncCorrectness`, `AsyncKickoff` | the lowering of an async function to kickoff and resume functions |
| `AsyncDrop`, `AsyncDropCorrectness`, `AsyncOwnership` | the generated drop function, and what it destroys |
| `Names`, `Sets`, `SysrootBuilder`, `SysrootCycles` | the build order of the sysroot and the cycles it reports |
| `ImportLoader` | loading of imported components, with loading stack and registry |
| `TypeMetadata`, `MetadataBuilding`, `MetadataDecoding`, `MetadataRoundTrip` | the type tables of library metadata, written and read back |
| `Tokens`, `LexicalGrammar`, `LexicalFacts`, `Numbers`, `Lexing`, `Lexer`, `TokenReader` | the lexer and the parser's reading of its tokens |
| `Ast`, `Relocation`, `Arena` | the syntax arena, relocated and appended to another |

Hash tables are met in an arbitrary order throughout: where the compiler walks one, the order is
a parameter or a choice the proof knows nothing about.

## What the code does and does not promise

Some promises hold only in part. For each, the project has the exact condition or a concrete case.

- The reporting pass of the move checker runs over instructions only.  A use after a move by a
  terminator is in the report exactly when some instruction's check raises the same place
  (`EndUseReportedIff`).  The generator loads a local before it returns it, and that load's check
  reports (`LoadedEndUseReported`); a field returned from a local that is dropped as it goes out of
  scope is loaded before the drop, and is not reported (`ReturnedPartNotReported`).
- A drop of what some walk still owns is never removed (`NeededDropKept`).  A drop that can be reached
  is removed exactly when no walk to it leaves anything in its place, if no step meets the local in a
  conditional state (`DeadIffNothingLeft`), and that condition is needed (`CertaintyNeeded`).  A value
  stored to a field of a local that has been moved is not owned in this sense: its drop is removed
  with the local's, without a report (`RefilledPartForgotten`).
- The sort of the sysroot succeeds exactly when the graph is acyclic and no key repeats a
  dependency on another key; with a repeat it reports a cycle that is none (`TopologicalSort`,
  `RepeatedDependency`).
- The merge of return effects is an upper bound exactly when it does not mix a borrow of an
  argument with a borrow of what an argument carries, and it is not monotone
  (`ReturnMergeIsJoinUnlessMixed`, `ReturnMergeNotMonotone`).  So effect inference is monotone exactly
  when no function's result switches from carried to direct borrows as the table grows
  (`MonotoneIff`).  Then the worklist ends in the least consistent table (`ComputeSummaries`), and this
  holds of every module whose functions do not mix the two in their returns, which each body shows
  by itself (`SummarizeUnmixed`).  A function that mixes them can keep the worklist busy for ever
  (`SwitchingNeverExits`).
- Effect inference is a function (`InfersOne`) and finds exactly the effects there are by the taints it
  tracks (`NoEffectMissed`, `EntryIsJoin`).  It forgets
  aliases at the end of a block, and carried borrows as soon as any return gives back an argument
  itself (`AliasesEndWithBlock`, `ReturnIsExact`).
- Liveness is exact for the uses the transfer looks at; it does not look at the operands of
  `!=`, the bit operators and shifts, intrinsic calls, variants, heap frees and initialization marks
  (`UsesAreOperandsUnlessOverlooked`).
- The result of a move merge depends on hash order below whole locals, and does not at them
  (`MergeDependsOnOrder`, `MergeAtLocalIsJoin`), nor where the tables differ only at places of which
  none lies within another (`MergeIndependentOfOrder`). The soundness results hold for every order.
- The live set of a suspension also holds conditionally moved places (`GoneKeptIffConditional`), and a
  place that is gone is dropped with it if an entry above is kept: `take(s.part); foo().await` drops
  the part again (`MovedPlaceAtAwait`, `TakenPartDestroyed`).  The drop code follows fields and
  pointers and emits nothing for a place behind an index.
- A task that is dropped while it waits destroys the awaited future once exactly when it drops no
  place at or above the one the future was read from, and twice otherwise, as after
  `let f = foo(); f.await` (`ChildDestroyedOnceIff`, `AwaitLocalDestroyedTwice`).
- A completed task that is polled again traps if its function has awaits, and otherwise runs the
  function anew (`PollCompleted`).
- Library metadata names a symbol by its path and its provider; the providers that are not registered are
  not told apart, and with that exception names are (`NamesApart`, `UnknownProvidersMix`).
- Components are loaded once by name.  That is once by file exactly when names are unique
  (`FindsOwnIffUnique`); otherwise the second of two local modules of one name is taken to be the
  first (`ResolveBoth`).
- The parser reads a text in UTF-8 only if every token starts with an ASCII byte, and panics otherwise
  (`ReadIffAscii`).
- A provider's top-level statements are not renumbered with its declarations, and so are mistaken for
  others as soon as there are global statements (`ItemsFollowIff`, `ItemStandsFor`, `StatementMistaken`).
- Relocation leaves the file of some spans as it was (`WhollyMovedIff`).

## Model

| member | source | states |
|---|---|---|
| Shapes.Determined | luna-rs/crates/luna-mvir/src/mvir.rs:49-220 | The operands of an instruction, in order, and everything else about it determine it, for every kind; uses, hand-overs, effects and rewritings below are stated by these operands |
| Shapes.TermDetermined | luna-rs/crates/luna-mvir/src/mvir.rs:260-274 | The same for terminators |
| Mvir.SuccessorsAre | luna-rs/crates/luna-borrowck/src/cfg.rs:159-192 | Control goes on to the targets of the terminator and to nothing else |
| ForwardDataflow.RunForward | luna-rs/crates/luna-borrowck/src/dataflow.rs:20-117 | For any transfer that keeps an invariant and any merge that ascends within height h, from states for any of the blocks: the sweeps stop after at most blocks * (h + 1) rounds, exactly the blocks reachable from the entry are processed, every state keeps the invariant, and at the end no edge out of a processed block can change any state |
| ForwardDataflow.RunIncremental | luna-rs/crates/luna-borrowck/src/dataflow.rs:42-117 | The same from any starting map; states under names of no block are carried along untouched |
| ForwardDataflow.FixpointReaches | luna-rs/crates/luna-borrowck/src/dataflow.rs:65-113 | A state that no edge can change has processed the end of every walk from the entry |
| ForwardDataflow.FixpointCoversPaths | luna-rs/crates/luna-borrowck/src/dataflow.rs:65-113 | With monotone transfers and a covering merge, the state found for a block lies above what the transfers compute along every walk to it |
| BackwardDataflow.RunBackward | luna-rs/crates/luna-borrowck/src/dataflow.rs:118-186 | For any merge that ascends within height h the backward sweeps stop after at most blocks * h + 1 rounds, in states that no edge can change |
| Dominators.ComputeCfgEdges | luna-rs/crates/luna-borrowck/src/cfg.rs:159-192 | Predecessor and successor lists hold exactly the edges of the terminators, for known blocks only |
| Dominators.ComputeDominators | luna-rs/crates/luna-borrowck/src/cfg.rs:194-242 | The loop ends, and for every block the set found is exactly the set of blocks on every walk from the entry to it |
| Dominators.SettledIsExact | luna-rs/crates/luna-borrowck/src/cfg.rs:215-239 | Once no set shrinks any more, a member of a block's set lies on every walk from the entry to that block |
| Dominators.UnreachableDominatedByAll | luna-rs/crates/luna-borrowck/src/cfg.rs:203-213 | A block that no walk reaches is dominated by all blocks |
| NaturalLoops.LoopBlocks | luna-rs/crates/luna-borrowck/src/cfg.rs:70-91 | The backward search finds the header and exactly the blocks from which a latch is reached without passing the header |
| NaturalLoops.AnalyzeLoops | luna-rs/crates/luna-borrowck/src/cfg.rs:54-115 | Exactly one loop is reported for every target of a back edge, with its exact blocks and the values its body defines |
| NaturalLoops.HeaderDominates | luna-rs/crates/luna-borrowck/src/cfg.rs:54-115 | The header of a loop dominates each of its blocks |
| NaturalLoops.SingleEntry | luna-rs/crates/luna-borrowck/src/cfg.rs:54-115 | An edge from outside a loop enters it only at the header |
| NaturalLoops.EndingLifetimeLocals | luna-rs/crates/luna-borrowck/src/cfg.rs:25-35 | The values reported for an edge are those of every loop that the edge leaves or restarts |
| NaturalLoops.EndingOnlyFrom | luna-rs/crates/luna-borrowck/src/cfg.rs:25-35 | A value ends on an edge if and only if it belongs to a loop that the edge leaves or restarts |
| NaturalLoops.LeavingEndsLocals | luna-rs/crates/luna-borrowck/src/cfg.rs:25-35 | Every walk that leaves a loop, or comes back to its header, crosses an edge on which all values of the loop body end |
| Places.IsAncestorOf | luna-rs/crates/luna-borrowck/src/place.rs:33-40 | True exactly for a place and what its projections extend |
| Places.AncestorsAreChain | luna-rs/crates/luna-borrowck/src/place.rs:33-45 | Two ancestors of one place are ancestor and descendant of each other |
| MoveState.GetPlaceState | luna-rs/crates/luna-borrowck/src/move_analysis.rs:60-85 | In whatever order the table is scanned, the answer is the nearest explicit ancestor's state, lowered by bad descendants |
| MoveState.StateMeans | luna-rs/crates/luna-borrowck/src/move_analysis.rs:60-85 | That state is live exactly when the nearest entry at or above, if any, is live and all entries at or below are live or moved in part; a nearest entry that is not live is the answer itself |
| MoveState.JoinIsLeastUpperBound | luna-rs/crates/luna-borrowck/src/move_analysis.rs:594-644 | The join of two states in a merge is their least upper bound |
| MoveState.MergeIsUpperBound | luna-rs/crates/luna-borrowck/src/move_analysis.rs:594-644 | For every place, explicit or not, and every key order, the effective state after the merge is at or above both inputs' effective states, and the merged table has the keys of both |
| MoveState.MergeAscends | luna-rs/crates/luna-borrowck/src/move_analysis.rs:594-644 | An explicit entry never falls in a merge |
| MoveState.MergeWithSelf | luna-rs/crates/luna-borrowck/src/move_analysis.rs:594-644 | Merging a table with itself changes nothing, so the fixpoint is stable |
| MoveState.MergeAtLocalIsJoin | luna-rs/crates/luna-borrowck/src/move_analysis.rs:594-644 | At a whole local the merged entry is the exact join of the two effective states, whatever the key order |
| MoveState.MergeDependsOnOrder | luna-rs/crates/luna-borrowck/src/move_analysis.rs:594-644 | Below locals the key order matters: two tables and two orders with different outcomes |
| MoveState.MergeIndependentOfOrder | luna-rs/crates/luna-borrowck/src/move_analysis.rs:594-644 | Tables that differ only at places of which none lies within another are merged alike in every order, key by key the join of the two effective states |
| MoveTransfer.PlaceIffWalk | luna-rs/crates/luna-borrowck/src/move_analysis.rs:327-490 | A value stands for a place exactly when field, extract and load steps lead to it from a local, the fields adding up to the place |
| MoveChecker.MoveAnalyzer.MarkMovedOperand | luna-rs/crates/luna-borrowck/src/move_analysis.rs:156-219 | A move overwrites the place, drops the entries below it and collapses ancestors, as the action it is specified by |
| MoveChecker.MoveAnalyzer.CollapseFullyMovedAncestors | luna-rs/crates/luna-borrowck/src/move_analysis.rs:221-249 | Walking up, an ancestor becomes moved exactly while all its droppable fields are gone |
| MoveChecker.MoveAnalyzer.MarkDroppedOperand | luna-rs/crates/luna-borrowck/src/move_analysis.rs:294-304 | A drop overwrites the place and the entries below it |
| MoveChecker.MoveAnalyzer.MarkLiveOperand | luna-rs/crates/luna-borrowck/src/move_analysis.rs:306-323 | A store makes the place live, and with it an uninitialized immediate parent |
| MoveChecker.MoveAnalyzer.TransferInstruction | luna-rs/crates/luna-borrowck/src/move_analysis.rs:327-576 | In place, on the table: whatever is handed over and not copied is gone, unless the same instruction fills it; what is filled is live; what is dropped is dropped if it had a value; all else is as it was. It raises the report of `ReportMeant` |
| MoveRoles.ActionsFollowRoles | luna-rs/crates/luna-borrowck/src/move_analysis.rs:327-576 | Which operands are read and which handed over, instruction by instruction: assigned, stored and awaited ones, arguments of every kind of call and of a variant, and captures by move are handed over, and checked before; what is stored to and initialized is filled |
| MoveMeaning.TableMeant | luna-rs/crates/luna-borrowck/src/move_analysis.rs:156-576 | The effect on the table that these roles mean, from any table and for every instruction |
| MoveReports.FlagSetHas | luna-rs/crates/luna-borrowck/src/move_analysis.rs:87-143 | A report is raised exactly where some action's check fails |
| MoveMeaning.ReportMeant | luna-rs/crates/luna-borrowck/src/move_analysis.rs:87-154 | Every place read that is not live before the instruction is reported at it, as is a field taken out that has no value and a conditional drop; every other report is about a place read of a local of which the same instruction hands a part over |
| MoveMeaning.HandedOverTwice | luna-rs/crates/luna-borrowck/src/move_analysis.rs:367-379 | An argument that lies in one handed over before it in the same call is reported |
| MoveMeaning.DropsMeant | luna-rs/crates/luna-borrowck/src/move_analysis.rs:537-573 | A drop is found dead exactly when it drops a place that is moved, dropped or uninitialized |
| MoveMeaning.TermFollowsRoles | luna-rs/crates/luna-borrowck/src/move_analysis.rs:578-592 | A terminator reads its operand, and a return then hands it over |
| MoveChecker.MoveAnalyzer.Merge | luna-rs/crates/luna-borrowck/src/move_analysis.rs:594-644 | The in-place merge is the fold over the keys of both tables in some order, and reports a change exactly when there is one |
| MoveSoundness.GoneAfterMeans | luna-rs/crates/luna-borrowck/src/move_analysis.rs:156-323 | Replaying a walk says "gone" exactly when some move of the place or an ancestor is followed by no store, initialization or re-allocation of the place or an ancestor |
| MoveSoundness.WalkKeepsGone | luna-rs/crates/luna-borrowck/src/move_analysis.rs:156-323 | A place gone at the end of a walk is moved, dropped or conditionally moved in the fixpoint there, through merges, loops, drops and collapsing, for every key order |
| MoveSoundness.NoUseAfterMoveMissed | luna-rs/crates/luna-borrowck/src/move_analysis.rs:60-323 | At every action of every instruction that a walk reaches, a place moved on the walk and not revived since is not live in the fixpoint, and both kinds of check of it fail |
| MoveTermination.MergeClimbs | luna-rs/crates/luna-borrowck/src/move_analysis.rs:594-644 | A merge that changes a table strictly raises its bounded rank |
| MoveTermination.MoveInvariant | luna-rs/crates/luna-borrowck/src/move_analysis.rs:327-663 | Transfers and merges never leave the finite set of places of the function, put nothing below a local on record as uninitialized, and keep the first block at or above the entry table, and at it when nothing leads back |
| MoveTermination.MoveAscends | luna-rs/crates/luna-borrowck/src/move_analysis.rs:594-644 | The move merge is of bounded height, so the engine's sweep bound applies to it |
| BorrowCheckMoves.SolveMoves | luna-rs/crates/luna-borrowck/src/lib.rs:47-48 | The move fixpoint is reached within a bounded number of sweeps, whatever the hash order, with the first block at or above the entry table |
| BorrowCheckMoves.UseAfterMoveReported | luna-rs/crates/luna-borrowck/src/lib.rs:46-58 | Every use of a place by an instruction, after a move on some walk and no revival since, is in the report |
| HandOvers.UseAfterHandOverReported | luna-rs/crates/luna-borrowck/src/lib.rs:46-58 | On every walk, by instructions and roles alone: a place read after an instruction that hands it or an ancestor over, with nothing in between that fills or allocates it or an ancestor, is reported at the instruction that reads it |
| BorrowCheckMoves.CheckMoves | luna-rs/crates/luna-borrowck/src/lib.rs:46-58 | The reporting pass over the solved states raises exactly the report, misses no use after a move by an instruction, and lists exactly the drops that find nothing to drop in the solved states |
| ReturnUses.EndUseReportedIff | luna-rs/crates/luna-borrowck/src/lib.rs:46-58 | For every use after a move by a terminator: its check fails, and the place is in the report if and only if some listed instruction checks it and fails |
| ReturnUses.LoadedEndUseReported | luna-rs/crates/luna-borrowck/src/lib.rs:46-58 | If the block loads the operand, and does not move it after that, the use is in the report, at the load |
| ReturnUses.ReturnedMoveNotReported | luna-rs/crates/luna-borrowck/src/lib.rs:49-56 | Interface level, a function the generator does not build: an argument moved by an assignment and returned without a load is not reported, although the check of the terminator fails |
| ReturnUses.ReturnedPartNotReported | luna-rs/crates/luna-mvir/src/generator.rs:1445-1463 | Generated code for `return s.f` where `s` is dropped at the end of its scope: the returned field has been dropped, the check of the terminator fails, and nothing is reported |
| DropSoundness.NeededDropKept | luna-rs/crates/luna-borrowck/src/move_analysis.rs:537-573 | A drop of any place that some walk to it still owns is not removed: live arguments and stores into what is owned own, moves, drops and allocations at or above take away, and so does the move of the last field that owns something |
| DropSoundness.RefilledPartForgotten | luna-rs/crates/luna-borrowck/src/move_analysis.rs:306-323 | Generated code for `take(s); s.f = make();`: nothing is reported, the stored field is live, and the drop of the whole at the end is removed |
| DropExact.DeadIffNothingLeft | luna-rs/crates/luna-borrowck/src/move_analysis.rs:537-573 | A drop that can be reached is removed if and only if no walk to it, followed by itself without merging, leaves anything in the place, provided that no action on the local meets a conditional state it depends on; loops, branches, partial moves and collapsing included |
| DropExact.CertaintyNeeded | luna-rs/crates/luna-borrowck/src/move_analysis.rs:537-573 | Without that proviso it fails: a drop after a reported conditional drop is removed though a walk leaves a stored field in the local |
| DropExact.OwnedIsLeft | luna-rs/crates/luna-borrowck/src/move_analysis.rs:156-323 | What a walk owns is left in its place when the walk is followed without merging |
| Suspension.ExtractLivePlaces | luna-rs/crates/luna-borrowck/src/suspension.rs:21-56 | The sets found for a table are its description, and the only one: topmost kept places, moved places, conditionally moved places |
| Suspension.LiveIsAntichain | luna-rs/crates/luna-borrowck/src/suspension.rs:21-56 | No place is recorded as live together with an ancestor |
| Suspension.LiveCovers | luna-rs/crates/luna-borrowck/src/suspension.rs:21-56 | Every kept entry lies at or below a recorded place |
| Suspension.GoneKeptIffConditional | luna-rs/crates/luna-borrowck/src/suspension.rs:21-56 | A topmost place that is gone is recorded as live if and only if it is conditionally moved |
| Suspension.CoveredIffKept | luna-rs/crates/luna-borrowck/src/suspension.rs:21-56 | Any place, gone or not, lies at or below a recorded one if and only if an entry at or above it is live or conditionally moved |
| Suspension.UsableIsCovered | luna-rs/crates/luna-borrowck/src/suspension.rs:21-56 | A place on record that passes its check lies at or below a recorded one |
| Suspension.MovedPlaceAtAwait | luna-rs/crates/luna-borrowck/src/suspension.rs:58-121 | A place that some walk to an await has moved and not revived is gone there, is recorded as live only as a conditionally moved one, and lies below a recorded one if and only if an entry at or above it is kept |
| Suspension.ComputeSuspensionStates | luna-rs/crates/luna-borrowck/src/suspension.rs:58-121 | State 0 is recorded with the description of the solved table behind the slots the first block begins with, and every await of every block with that of the solved table just before it |
| Suspension.InitialIsArguments | luna-rs/crates/luna-borrowck/src/suspension.rs:68-84 | If no branch leads back to the first block, state 0 records exactly the arguments as live |
| Liveness.UsesAreOperandsUnlessOverlooked | luna-rs/crates/luna-borrowck/src/borrow_analysis.rs:32-104 | A value is used by an instruction if and only if it is among its operands and the instruction is of none of the kinds that the transfer does not look at |
| Liveness.TermUsesAreOperands | luna-rs/crates/luna-borrowck/src/borrow_analysis.rs:106-116 | A terminator uses exactly the values among its operands |
| Liveness.LivenessIsExact | luna-rs/crates/luna-borrowck/src/borrow_analysis.rs:31-157 | Before every position the set holds a value if and only if on some finite walk from there it is an operand, of an instruction of no overlooked kind or of a terminator, with no definition in between |
| Liveness.ComputeLiveness | luna-rs/crates/luna-borrowck/src/borrow_analysis.rs:131-157 | All four tables, before and after every instruction and at block entries and exits, are exact in this sense |
| BorrowLoans.ResolveAlias | luna-rs/crates/luna-borrowck/src/borrow_analysis.rs:824-834 | On descending aliases the chain ends, at a value without an alias |
| BorrowLoans.ChainEndsIff | luna-rs/crates/luna-borrowck/src/borrow_analysis.rs:824-834 | For any aliases at all the chain ends if and only if it comes back to no value that it goes on from |
| BorrowLoans.SelfAliasNeverEnds | luna-rs/crates/luna-borrowck/src/borrow_analysis.rs:824-834 | A value that is its own alias is followed for ever |
| BorrowLoans.TransferAliases | luna-rs/crates/luna-borrowck/src/borrow_analysis.rs:1257-2273 | The alias inserts of all instruction kinds, on whichever carriers the state has |
| BorrowLoans.AliasNamesBase | luna-rs/crates/luna-borrowck/src/borrow_analysis.rs:1257-2273 | Borrows, fields, offsets, trait objects, slices, casts, assignments and loads of references: the result then resolves as its base did |
| BorrowLoans.AliasNamesSummand | luna-rs/crates/luna-borrowck/src/borrow_analysis.rs:1257-2273 | A sum resolves as the last of its operands does that carries loans |
| BorrowLoans.AliasOnlyBase | luna-rs/crates/luna-borrowck/src/borrow_analysis.rs:1257-2273 | Nothing else becomes an alias, and smaller values resolve as before |
| BorrowLoans.TransferKeepsDescending | luna-rs/crates/luna-borrowck/src/borrow_analysis.rs:1257-2273 | If operands have smaller ids than their instruction, aliases stay strictly descending |
| BorrowLoans.AliasesAfter | luna-rs/crates/luna-borrowck/src/borrow_analysis.rs:1257-2376 | Aliases descend after every history of transfers, edges and merges |
| BorrowLoans.MergeAliases | luna-rs/crates/luna-borrowck/src/borrow_analysis.rs:2372-2376 | In place, the last writer wins, and a change is reported exactly when there is one |
| BorrowLoans.ClosedHasCarriers | luna-rs/crates/luna-borrowck/src/borrow_analysis.rs:836-871 | A set with the live values and all that its members' loans lead to contains every value reached through loan places |
| BorrowLoans.ActiveLoans | luna-rs/crates/luna-borrowck/src/borrow_analysis.rs:836-871 | The search ends with exactly the escaped loans and the loans of values reachable from live ones through loan places |
| Effects.ArgOrderIs | luna-rs/crates/luna-borrowck/src/effect.rs:3-67 | The order itself: reads and writes below both together, borrows below giving away, calls below escapes, and the unknown above everything |
| Effects.ReturnOrderIs | luna-rs/crates/luna-borrowck/src/effect.rs:84-113 | Independent below and unknown above everything, and borrows of the same sort by the arguments they name |
| Effects.ArgOrder | luna-rs/crates/luna-borrowck/src/effect.rs:175-205 | The comparison of argument effects is a partial order |
| Effects.ReturnOrder | luna-rs/crates/luna-borrowck/src/effect.rs:84-113 | The comparison of return effects is reflexive, transitive and answers alike in both directions |
| Effects.SummaryCmp | luna-rs/crates/luna-borrowck/src/effect.rs:240-275 | The comparison loop decides the pointwise order, both ways; no answer means incomparable |
| Effects.ArgMergeIsJoin | luna-rs/crates/luna-borrowck/src/effect.rs:223-237 | The merge of argument effects is their least upper bound |
| Effects.MergeIndicesUnites | luna-rs/crates/luna-borrowck/src/effect.rs:115-165 | Merged index lists hold the indices of both, sorted and without repeats |
| Effects.ReturnMergeIsJoinUnlessMixed | luna-rs/crates/luna-borrowck/src/effect.rs:115-165 | The merge of return effects is an upper bound, and then the least, if and only if it does not mix a borrow of an argument with a borrow of what one carries |
| Effects.ReturnMergeNotMonotone | luna-rs/crates/luna-borrowck/src/effect.rs:115-165 | The merge is not monotone: raising one operand can lose a borrow |
| Effects.HeightRises | luna-rs/crates/luna-borrowck/src/effect.rs:240-302 | Going up among summaries for n arguments raises a height of at most 11 n + 2 |
| Interprocedural.BuildMaps | luna-rs/crates/luna-borrowck/src/interprocedural.rs:31-60 | The caller map lists, for each function, exactly the functions that call it directly |
| Interprocedural.StepKeepsTracked | luna-rs/crates/luna-borrowck/src/interprocedural.rs:61-96 | In any order of the worklist, every function whose summary may be stale is still pending |
| Interprocedural.ExitIsConsistent | luna-rs/crates/luna-borrowck/src/interprocedural.rs:61-96 | For any inference that looks at no table entries but those of the functions called, and any order: when the worklist is empty, the stored summary of every function that is not extern equals inference against the final table, and other entries are as they were |
| ModuleEffects.InterproceduralContext.ComputeSummaries | luna-rs/crates/luna-borrowck/src/interprocedural.rs:31-96 | With the effect inference of each function, where that is monotone, the loop ends in the least consistent table: every other one that agrees on the other names is at or above it |
| ModuleEffects.MonotoneIff | luna-rs/crates/luna-borrowck/src/interprocedural.rs:61-96 | Effect inference is monotone on the functions of a module if and only if for none of them the result carries borrows by one table and borrows directly by a greater one |
| ModuleEffects.SummarizeUnmixed | luna-rs/crates/luna-borrowck/src/interprocedural.rs:31-96 | If no function that can return a reference mixes direct and carried borrows in its returns, with nothing assumed of its callees, the loop ends in the least consistent table |
| EffectMixing.UnmixedNeverSwitches | luna-rs/crates/luna-borrowck/src/effect_inference.rs:407-463 | A body that does not mix never switches from carried to direct borrows, whatever the two tables |
| EffectSwitching.SwitchingNeverExits | luna-rs/crates/luna-borrowck/src/interprocedural.rs:61-96 | For one function that returns a carried borrow on one branch and passes a borrow to itself on the other, no table is consistent, and no run of the worklist ends, from any table and in any order |
| EffectTransfer.EffectInference.ResolveAlias | luna-rs/crates/luna-borrowck/src/effect_inference.rs:101-111 | On descending aliases the chain ends, at its root |
| EffectTransfer.EffectInference.TransferInstruction | luna-rs/crates/luna-borrowck/src/effect_inference.rs:127-405 | In place: every entry of the summary becomes the least above itself and what the instruction does to the operands that stem from that argument, and taints and aliases become what the two rows below say |
| EffectMeaning.NotedInflicts | luna-rs/crates/luna-borrowck/src/effect_inference.rs:127-405 | Operand by operand: a load reads its pointer, a store writes through its pointer and gives its value away, to a global for good, a borrow borrows, a call does to the value at a position what the callee's summary says of that position, and anything where there is no summary; the new entries are the joins of exactly these |
| EffectMeaning.TransferMeant | luna-rs/crates/luna-borrowck/src/effect_inference.rs:127-405 | A value has a taint afterwards if and only if it had it, or is the result and an operand that passes its taints on had it, or a load finds it carried, or the callee gives it back, in place of what there was, or a store puts it behind the end of an alias chain; aliases are set for exactly the results that name their base |
| EffectTransfer.EffectInference.TransferTerminator | luna-rs/crates/luna-borrowck/src/effect_inference.rs:407-463 | A return of what may hold a reference gives away the arguments that the value stems from, each entry becoming the least above itself and that, and merges what it borrows |
| EffectSoundness.TransferRises | luna-rs/crates/luna-borrowck/src/effect_inference.rs:127-405 | More taints before an instruction, and callees that return no less, give no fewer taints after it, though a call replaces the taints of its result: what it replaces came from arguments that have taints still |
| EffectSoundness.EffectRises | luna-rs/crates/luna-borrowck/src/effect_inference.rs:127-405 | With more taints, and where callees do no less, an instruction does no less to any argument |
| EffectSummaries.WalkCovered | luna-rs/crates/luna-borrowck/src/effect_inference.rs:464-488 | The fixpoint has all taints of every walk from the first block |
| EffectLeast.SolveTaints | luna-rs/crates/luna-borrowck/src/effect_inference.rs:54-63 | The least fixpoint of the taints is reached within a bounded number of sweeps |
| EffectLeast.LeastIsBelow | luna-rs/crates/luna-borrowck/src/effect_inference.rs:464-488 | The least fixpoint is below every fixpoint, also of a table in which callees do more and return more |
| EffectRun.ReturnIsExact | luna-rs/crates/luna-borrowck/src/effect_inference.rs:407-463 | The return effect names exactly the arguments that returned values stem from; carried borrows exactly when there are none, and are forgotten otherwise |
| EffectInfer.Infer | luna-rs/crates/luna-borrowck/src/effect_inference.rs:54-63 | The summary is what is noted over visits that meet every position of every block reached with its state in the least fixpoint, and that go nowhere else and with no other states than ones below |
| EffectUnique.InfersOne | luna-rs/crates/luna-borrowck/src/effect_inference.rs:54-63 | There is only one such summary: what earlier sweeps note, in whatever order, adds nothing |
| EffectUnique.InferenceRises | luna-rs/crates/luna-borrowck/src/effect_inference.rs:54-63 | With a table in which callees do no less the summary is no less, unless the result switches from carried to direct borrows |
| EffectInfer.NoEffectMissed | luna-rs/crates/luna-borrowck/src/effect_inference.rs:54-463 | For every walk to an instruction, every argument and every effect that the instruction has on an operand stemming from it by the taints of the walk: the entry of the summary is at or above that effect |
| EffectInfer.EntryIsJoin | luna-rs/crates/luna-borrowck/src/effect_inference.rs:54-463 | Nothing is made up either: an entry of the summary is the least effect above the default and above all that instructions and returns of reached blocks do to operands stemming from the argument, by the least taints |
| EffectInfer.NoReturnMissed | luna-rs/crates/luna-borrowck/src/effect_inference.rs:407-463 | A value returned on some walk that stems from an argument makes the summary say that the result borrows from it; one that stems from what an argument carries makes it say so, or that the result borrows from some argument itself |
| EffectInfer.AliasesEndWithBlock | luna-rs/crates/luna-borrowck/src/effect_inference.rs:464-488 | No alias survives the end of its block: a store through a pointer made in another block is put down to the pointer, not to its base |
| EffectUnique.InferDependsOnCallees | luna-rs/crates/luna-borrowck/src/effect_inference.rs:210-301 | Tables that agree on the functions that listed instructions call give the same summary |
| SysrootBuilder.CountOff | luna-rs/crates/luna-driver/src/sysroot_builder.rs:228-241 | Counting an emitted name off keeps all counters right and queues exactly the names that have become ready |
| SysrootBuilder.EmitReady | luna-rs/crates/luna-driver/src/sysroot_builder.rs:222-242 | Names come out one at a time, each the least that is ready, until none is |
| SysrootBuilder.GreedyIsLeast | luna-rs/crates/luna-driver/src/sysroot_builder.rs:200-256 | Such an order is lexicographically at most any other topological order |
| SysrootBuilder.OrderedIsAcyclic | luna-rs/crates/luna-driver/src/sysroot_builder.rs:200-256 | A graph with a topological order has no cycle |
| SysrootBuilder.StuckHasReason | luna-rs/crates/luna-driver/src/sysroot_builder.rs:244-252 | When names are left over, either some key repeats a dependency or the rest contains a cycle |
| SysrootCycles.CycleSearch.Dfs | luna-rs/crates/luna-driver/src/sysroot_builder.rs:269-300 | The search returns a simple cycle of blocked names, or finishes the node, which then is on no cycle, with the stack as before |
| SysrootCycles.ReconstructCycle | luna-rs/crates/luna-driver/src/sysroot_builder.rs:261-317 | The result is a closed walk of blocked names that repeats only its endpoint; all blocked names are listed only when there is no cycle among them |
| SysrootCycles.TopologicalSort | luna-rs/crates/luna-driver/src/sysroot_builder.rs:200-317 | It succeeds if and only if the graph is acyclic and no key repeats a dependency on a key, with the least order; on repeat-free lists a failure shows a real simple cycle |
| SysrootCycles.RepeatedDependency | luna-rs/crates/luna-driver/src/sysroot_builder.rs:200-256 | An acyclic graph with a repeated dependency is refused, and what is shown is no cycle |
| ImportLoader.ModuleRegistry.StartLoading | luna-rs/crates/luna-driver/src/registry.rs:191-197 | A name enters the loading stack once, on top, as something the component below it imports |
| ImportLoader.ModuleRegistry.FinishLoading | luna-rs/crates/luna-driver/src/registry.rs:199-201 | The top of the stack leaves it; everything else is as it was |
| ImportLoader.ModuleRegistry.AllocateId | luna-rs/crates/luna-driver/src/registry.rs:220-224 | The id is fresh and larger than that of every provider |
| ImportLoader.ModuleRegistry.Register | luna-rs/crates/luna-driver/src/registry.rs:203-208 | A new name gets the id allocated last, once; all imports of every provider keep smaller ids |
| ImportLoader.DriverSession.ResolveCollectedImports | luna-rs/crates/luna-driver/src/importer.rs:32-128 | Ends on every finite import graph, cyclic or not, restores the loading stack, and without a problem has registered every import; a reported cycle is one of the import graph |
| ImportLoader.DriverSession.ResolveImport | luna-rs/crates/luna-driver/src/importer.rs:38-124 | One import: registered, or reported; a name registered only now is made from the file the import means, and a local name registered before is taken as it is; the stack is as before on every exit |
| ImportLoader.DriverSession.LoadPackage | luna-rs/crates/luna-driver/src/session.rs:74-125 | Load once: a registered name answers its id, an internal name only to those who may use it; failures name a problem |
| ImportLoader.DriverSession.LoadComponent | luna-rs/crates/luna-driver/src/external.rs:321-485 | Every exit restores the loading stack and keeps all earlier registrations; success registers the name |
| ImportLoader.DriverSession.LoadBinaryComponent | luna-rs/crates/luna-driver/src/external.rs:13-318 | The same for libraries, with an interface, legacy, corrupt or stale |
| ImportLoader.CycleFromStack | luna-rs/crates/luna-driver/src/external.rs:95-103 | A name on the stack that the component on top imports closes a cycle of the import graph |
| ImportLoader.WalkDescends | luna-rs/crates/luna-driver/src/registry.rs:203-224 | Along imports of registered providers everything is registered and ids fall, so walks of imports are short |
| ImportLoader.LoadedIsAcyclic | luna-rs/crates/luna-driver/src/importer.rs:32-128 | What resolved imports reach is all loaded, and none of it imports itself, directly or through others |
| ImportLoader.FindsOwnIffUnique | luna-rs/crates/luna-driver/src/importer.rs:38-124 | Whatever has been loaded, every import finds what was made from the file it means if and only if no name has two files that an import of it may mean |
| ImportLoader.ResolveBoth | luna-rs/crates/luna-driver/src/importer.rs:84-124 | Of two local modules of one name, imported from two directories, the second import is resolved without a problem to the first one's file |
| MetadataBuilding.EncodeKeeps | luna-rs/crates/luna-driver/src/metadata_builder.rs:325-379 | An entry keeps the kind, the parts and, by stable name, the symbols of its type |
| MetadataBuilding.EncodeSpells | luna-rs/crates/luna-driver/src/metadata_builder.rs:325-379 | With each part standing for itself, an entry spells the type out, kind by kind |
| MetadataBuilding.MetadataBuilder.ConvertTypeId | luna-rs/crates/luna-driver/src/metadata_builder.rs:307-323 | Reserve, recurse and patch: the slot of the type is found or filled, earlier slots keep their place and every slot but those still open holds its entry |
| MetadataBuilding.NoPlaceholderLeft | luna-rs/crates/luna-driver/src/metadata_builder.rs:307-323 | When nothing is open, an error entry stands for an error type or an inference variable only |
| MetadataBuilding.SymbolsNamed | luna-rs/crates/luna-driver/src/metadata_builder.rs:204-215 | Every symbol of every entry is written under its own path and its home's name: that of the provider being written for its own symbols and the compiler's, the registered one for others, or `unknown` |
| MetadataBuilding.NamesApart | luna-rs/crates/luna-driver/src/metadata_builder.rs:204-215 | Where the homes of symbols are registered, under names of their own, and no home has two symbols of one path, written names are injective |
| MetadataBuilding.UnknownProvidersMix | luna-rs/crates/luna-driver/src/metadata_builder.rs:204-215 | Symbols of one path from two providers that are not registered are written as one |
| MetadataDecoding.DecodeKeeps | luna-rs/crates/luna-driver/src/metadata_decoder.rs:360-423 | A decoded type keeps the kind, the parts and the renumbered symbols of its entry |
| MetadataDecoding.DecodeSpells | luna-rs/crates/luna-driver/src/metadata_decoder.rs:360-423 | With each part standing for itself, an entry is read as it is spelt, kind by kind |
| MetadataDecoding.PlainDetermined | luna-rs/crates/luna-driver/src/metadata_decoder.rs:360-423 | A type as the decoder makes it is determined by kind, symbols and parts |
| MetadataDecoding.InterfaceDecoder.Intern | luna-rs/crates/luna-semantic/src/ty.rs:126-134 | Equal types get one id, different ones different ids, and earlier ids stay |
| MetadataDecoding.InterfaceDecoder.AllocateSym | luna-rs/crates/luna-driver/src/metadata_decoder.rs:331-358 | One number for each stable name, different for different names |
| MetadataDecoding.InterfaceDecoder.DecodeTypeIndex | luna-rs/crates/luna-driver/src/metadata_decoder.rs:360-423 | The recursion ends on acyclic tables and leaves every entry met with the type it stands for |
| MetadataDecoding.InterfaceDecoder.DecodeTypes | luna-rs/crates/luna-driver/src/metadata_decoder.rs:72-76 | Every entry of the table has been read |
| TypeMetadata.RenamingApart | luna-rs/crates/luna-driver/src/metadata_builder.rs:204-215 | Renaming symbols injectively neither merges nor separates types |
| MetadataRoundTrip.WrittenIsAcyclic | luna-rs/crates/luna-driver/src/metadata_builder.rs:307-379 | The table written for acyclic types is acyclic, so that reading it ends |
| MetadataRoundTrip.RoundTrip | luna-rs/crates/luna-driver/src/metadata_decoder.rs:360-423 | What is read at the index of a type unfolds as the type did, its symbols renumbered, field lists and lifetimes forgotten, inference variables turned into errors |
| MetadataRoundTrip.AlikeReadAsOne | luna-rs/crates/luna-driver/src/metadata_decoder.rs:360-423 | Types that unfold alike are read back as one id |
| MetadataRoundTrip.SharedIffAlike | luna-rs/crates/luna-driver/src/metadata_decoder.rs:331-423 | With injective stable names two types share an id after the trip if and only if they unfold alike |
| MetadataRoundTrip.WriteAndRead | luna-rs/crates/luna-driver/src/metadata_builder.rs:307-379 | The two programs run one after the other complete the round trip for any list of types; where names are apart two types come back as one if and only if they unfold alike |
| AsyncLowering.BuildEnv | luna-rs/crates/luna-driver/src/async_lowering.rs:181-193 | One field for each local and none for anything else, in order, behind the three header fields |
| AsyncKickoff.BuildKickoff | luna-rs/crates/luna-driver/src/async_lowering.rs:195-341 | The kickoff function is the code it is specified by |
| AsyncKickoff.KickoffStarts | luna-rs/crates/luna-driver/src/async_lowering.rs:195-341 | Run with any arguments over uninitialized memory, it returns a task in state 0, pending, awaiting nothing, whose locals hold the arguments |
| AsyncLowering.PreCreate | luna-rs/crates/luna-driver/src/async_lowering.rs:359-388 | Each local gets the address of its own field |
| AsyncLowering.TranslateInst | luna-rs/crates/luna-driver/src/async_lowering.rs:408-685 | After each instruction the code laid down so far is that of all instructions so far, each at the place computed for it |
| AsyncLowering.EmitAwait | luna-rs/crates/luna-driver/src/async_lowering.rs:414-590 | An await becomes the stores of future, state and status, a pending return, and a resume block |
| AsyncLowering.EmitTerm | luna-rs/crates/luna-driver/src/async_lowering.rs:687-800 | A return first completes the polled task; other terminators are mapped |
| AsyncLowering.TranslateBlocks | luna-rs/crates/luna-driver/src/async_lowering.rs:402-802 | All blocks are laid down, split at their awaits, with distinct labels and numbered states |
| AsyncResume.BuildDispatch | luna-rs/crates/luna-driver/src/async_lowering.rs:804-932 | The dispatch chain compares the state with 0, 1 and so on, in that order |
| AsyncResume.LowerResume | luna-rs/crates/luna-driver/src/async_lowering.rs:343-932 | The resume function is the dispatch chain in front of the translated blocks |
| AsyncResume.ResumeDistinct | luna-rs/crates/luna-driver/src/async_lowering.rs:804-932 | No two blocks of the resume function share a label |
| AsyncMachine.ArgsAreOperands | luna-rs/crates/luna-mvir/src/mvir.rs:49-220 | What an instruction is applied to is the values among its operands, in order |
| AsyncMachine.OpcodeDetermines | luna-rs/crates/luna-mvir/src/mvir.rs:49-220 | What an instruction does, being its kind, other fields and literals, and what it is applied to determine it: the meaning that is preserved below forgets nothing |
| AsyncMachine.InstMapped | luna-rs/crates/luna-driver/src/async_lowering.rs:592-685 | Replacing operands replaces the values that an instruction is applied to, in place, and leaves its kind, all its other fields and its literal operands as they are |
| AsyncMachine.SameMapped | luna-rs/crates/luna-driver/src/async_lowering.rs:592-685 | Replacing every value by itself gives back the instruction |
| AsyncDispatch.PollEnters | luna-rs/crates/luna-driver/src/async_lowering.rs:804-932 | Polling a task, whatever number is stored as its state, enters the code for that state with all locals' addresses, or the block that traps |
| AsyncDispatch.PollCompleted | luna-rs/crates/luna-driver/src/async_lowering.rs:804-932 | Polling a completed task does not give its value again: with awaits it traps, and without awaits it runs the function anew from its first block |
| AsyncCorrectness.AwaitStep | luna-rs/crates/luna-driver/src/async_lowering.rs:414-590 | Suspending, and being polled again, does what the await did |
| AsyncCorrectness.OneStep | luna-rs/crates/luna-driver/src/async_lowering.rs:402-802 | Each step of the function is matched by steps of the polled task |
| AsyncCorrectness.Simulates | luna-rs/crates/luna-driver/src/async_lowering.rs:167-932 | However far the function runs, over any number of awaits and loops, the polled task comes to the matching state with the same effects on the world |
| AsyncCorrectness.LoweringPreservesMeaning | luna-rs/crates/luna-driver/src/async_lowering.rs:167-932 | A finished function's task becomes ready with the same value and the same world, and is marked completed |
| AsyncKickoff.CallPreserved | luna-rs/crates/luna-driver/src/async_lowering.rs:167-932 | Kickoff followed by polling until ready does what a call of the function does |
| AsyncDrop.PlaceTypeIff | luna-rs/crates/luna-driver/src/async_lowering.rs:1190-1224 | A place has a type if and only if its projections lead to it from part to part: fields of structs and tuples, what pointers and references point to, elements of arrays and slices |
| AsyncDrop.EmitDropForPlace | luna-rs/crates/luna-driver/src/async_lowering.rs:1226-1350 | The code for a place: its field, its projections, a load and a drop, or nothing |
| AsyncDrop.PlaceRuns | luna-rs/crates/luna-driver/src/async_lowering.rs:1226-1350 | Run, this code drops exactly the place it is for, or does nothing |
| AsyncDrop.BuildDrop | luna-rs/crates/luna-driver/src/async_lowering.rs:934-1187 | The drop function has the entry, dispatch, cleanup and free blocks of every state |
| AsyncDropCorrectness.DispatchRuns | luna-rs/crates/luna-driver/src/async_lowering.rs:1008-1039 | The chain enters the cleanup of the stored state only, and goes straight to freeing for any other number |
| AsyncDropCorrectness.CleanupRuns | luna-rs/crates/luna-driver/src/async_lowering.rs:1041-1168 | The cleanup of a state drops the child exactly when it is not null and the state is an await, then the places of that state |
| AsyncDropCorrectness.DropRuns | luna-rs/crates/luna-driver/src/async_lowering.rs:934-1187 | For every stored state and child, and any number of awaits, the run ends, having dropped what that state calls for and nothing else, and freed the environment once, last |
| AsyncDropCorrectness.NeverTwice | luna-rs/crates/luna-driver/src/async_lowering.rs:1041-1168 | No run drops a place together with one it lies within, nor a place, the child or the environment twice; the child may be what one of the places holds, as the next rows say |
| AsyncOwnership.ChildDestroyedOnceIff | luna-rs/crates/luna-driver/src/async_lowering.rs:1041-1168 | While a future is awaited the run destroys it once if and only if it drops no place at or above the one the future was read from, and twice otherwise |
| AsyncOwnership.UsableAwaitedOnceIff | luna-rs/crates/luna-driver/src/async_lowering.rs:1041-1168 | A future awaited from a place on record that passes its check always lies in a recorded place, so it is destroyed once if and only if that one is not dropped |
| AsyncOwnership.AwaitLocalDestroyedTwice | luna-rs/crates/luna-driver/src/async_lowering.rs:1041-1168 | `let f = foo(); f.await` is such a case: the future is dropped as the child and as what `f` holds |
| AsyncOwnership.PartDestroyedIff | luna-rs/crates/luna-driver/src/async_lowering.rs:1141-1168 | The cleanup destroys what lies in a place if and only if it drops a recorded place at or above it, whatever the place's own state |
| AsyncOwnership.TakenPartDestroyed | luna-rs/crates/luna-driver/src/async_lowering.rs:1141-1168 | After `take(s.part); foo().await` the part that was taken is dropped with `s` |
| AsyncDropCorrectness.SuspendedPlacesApart | luna-rs/crates/luna-driver/src/async_lowering.rs:1004-1006 | The places recorded at a suspension meet what that needs |
| AsyncDropCorrectness.LivePlaceDropped | luna-rs/crates/luna-driver/src/async_lowering.rs:1141-1168 | A place explicitly live at a suspension lies within one that the cleanup drops, if that one can be reached and needs dropping |
| Lexer.Cursor.SkipWhitespaceAndComments | luna-rs/crates/luna-lexer/src/lexer.rs:69-99 | Skipping ends, behind exactly the blanks and comments that follow |
| LexicalFacts.TriviaIsBlank | luna-rs/crates/luna-lexer/src/lexer.rs:69-99 | What is skipped is a sequence of white space, whole line comments and whole block comments, and none of these begins behind it |
| LexicalFacts.BodyEndsUnescaped | luna-rs/crates/luna-lexer/src/lexer.rs:287-334 | A quoted body ends at the first quote with an even number of backslashes before it |
| Numbers.NumberReadsBack | luna-rs/crates/luna-lexer/src/lexer.rs:205-259 | Digits, a fraction of a point and at least a digit, an exponent with or without sign and digits, and a suffix, none of which can go on, are scanned as one number, whole, and as a float exactly when there is a fraction or an exponent |
| Numbers.NumberSplits | luna-rs/crates/luna-lexer/src/lexer.rs:205-259 | Whatever is scanned as a decimal number consists of such parts |
| Lexer.Cursor.IdentifierOrKeyword | luna-rs/crates/luna-lexer/src/lexer.rs:123-203 | The longest run of word bytes, as a keyword when it is one |
| Lexer.Cursor.NumberLiteral | luna-rs/crates/luna-lexer/src/lexer.rs:205-259 | The number lexeme at the cursor, with radix, fraction, exponent and suffix |
| Lexer.Cursor.CharLiteral | luna-rs/crates/luna-lexer/src/lexer.rs:261-285 | The quoted lexeme, or an error up to the end of the text |
| Lexer.Cursor.StringLiteral | luna-rs/crates/luna-lexer/src/lexer.rs:287-350 | The same for strings and byte strings |
| Lexer.Cursor.RawStringLiteral | luna-rs/crates/luna-lexer/src/lexer.rs:287-350 | A raw string ends at the first quote followed by as many pound signs as it began with |
| Lexer.Cursor.MatchOperator | luna-rs/crates/luna-lexer/src/lexer.rs:390-540 | Whatever the first byte, the branches find the longest operator in the table |
| Lexer.Cursor.LifetimeOrChar | luna-rs/crates/luna-lexer/src/lexer.rs:541-555 | A lifetime, unless a quote right behind the word makes it a character |
| Lexer.Cursor.Next | luna-rs/crates/luna-lexer/src/lexer.rs:355-566 | The token behind the trivia, with its span in 32 bits; none exactly at the end |
| TokenReader.ReadTokens | luna-rs/crates/luna-parser/src/lib.rs:20-53 | All tokens in order, invalid ones set aside, and an end mark at the end of the last one; no reading exactly when the text of an invalid token cannot be cut out of the source |
| TokenReader.ReadIffAscii | luna-rs/crates/luna-parser/src/lib.rs:30-41 | A text in UTF-8 below four gigabytes, without an offset, is read if and only if every token starts with an ASCII byte |
| Lexer.SpansArePlaces | luna-rs/crates/luna-lexer/src/lexer.rs:101-121 | Below four gigabytes spans are the tokens' places, shifted by the offset |
| Lexing.LexTiles | luna-rs/crates/luna-lexer/src/lexer.rs:355-566 | Tokens are non-empty, ordered and in bounds, and only whole white space and comments lie before, between and behind them |
| Lexing.LongestOperator | luna-rs/crates/luna-lexer/src/lexer.rs:390-540 | An operator token is the longest operator the text starts with; a byte that starts none is an error token of its own |
| Lexing.OperatorReadsBack | luna-rs/crates/luna-lexer/src/lexer.rs:390-540 | Every operator alone is that one token |
| Lexing.WordReadsBack | luna-rs/crates/luna-lexer/src/lexer.rs:123-203 | Every word alone is that one token |
| Lexing.RelexOne | luna-rs/crates/luna-lexer/src/lexer.rs:355-566 | The bytes of any token alone are exactly that token again, of the same kind |
| Lexing.SpacingIsFree | luna-rs/crates/luna-lexer/src/lexer.rs:355-566 | Removing all trivia and putting any white space behind the tokens gives the same tokens |
| Relocation.NodeSame | luna-rs/crates/luna-ast/src/relocator.rs:78-473 | Rewriting every reference and span by itself gives back the node, for every node kind: no child, span or flag is dropped, repeated or moved |
| Relocation.NodeCompose | luna-rs/crates/luna-ast/src/relocator.rs:78-473 | Rewriting a node twice is rewriting it once by the composed maps, for every node kind |
| Arena.AstArena.Relocate | luna-rs/crates/luna-ast/src/relocator.rs:36-52 | Every node of every kind is rewritten, in place |
| Arena.AstArena.Append | luna-rs/crates/luna-driver/src/external.rs:169-173 | The nodes of the other arena come behind the arena's own, which stay |
| Arena.MoveInto | luna-rs/crates/luna-driver/src/external.rs:91-173 | The provider's nodes get its file and then places behind the global ones; of its items the declarations are shifted with them, and the statements keep their ids |
| Arena.ItemsFollowIff | luna-rs/crates/luna-driver/src/external.rs:162-167 | The items all go where their nodes go if and only if no item is a statement or there were no global statements |
| Arena.ItemStandsFor | luna-rs/crates/luna-driver/src/external.rs:162-173 | To every depth, a moved declaration stands for what it stood for, and a moved statement for the global statement of the same number or, past the last, for the provider's that many places earlier |
| Arena.StatementMistaken | luna-rs/crates/luna-driver/src/external.rs:162-173 | With a global `break` the provider's top-level `continue` is taken for it |
| Arena.UnfoldMoved | luna-rs/crates/luna-ast/src/relocator.rs:36-473 | To every depth, a node at its shifted id in the combined arena unfolds as the original did, apart from file ids |
| Arena.UnfoldKept | luna-rs/crates/luna-driver/src/external.rs:169-173 | The global arena's own nodes unfold as before |
| Arena.ClosedCombined | luna-rs/crates/luna-ast/src/relocator.rs:54-72 | All references of the combined arena stay in bounds |
| Arena.RelocatedTwice | luna-rs/crates/luna-ast/src/relocator.rs:36-473 | Relocating twice is relocating once by the summed offsets, to the last file |
| Arena.WhollyMovedIff | luna-rs/crates/luna-ast/src/relocator.rs:78-473 | Relocation moves a node wholly to the new file if and only if the spans it does not visit lie there already: those of literals, of `?`, of macro arguments and of a macro type's name |

## Left out

- Region graph, region solver and return analysis: other analyses over code not modelled here. Removing the drops found dead is replacing each by a no-op.
- Diagnostics: a diagnostic is "this check flags"; texts, spans and suppression of repeats are not modelled.
- NaturalLoops.AnalyzeLoops: the loops added for label prefixes (`while_cond`, `for_cond`) are a naming heuristic and are not modelled.
- MoveChecker.MoveAnalyzer.MarkMovedOperand: the diagnostic for a move out of a type that implements Drop is not modelled; it changes no state.
- Provenance, field provenance, overlap and conflict reports of the borrow analysis: its merge is last-writer-wins, and termination of that fixpoint is not claimed.
- MoveChecker.MoveAnalyzer.TransferInstruction: places of values and droppable fields of a place are fixed maps; the diagnostic for drops of partly moved values is not modelled.
- MoveSoundness.NoUseAfterMoveMissed: speaks of moved places; a store to a field makes an uninitialized parent live, so no claim is made for initialization field by field.
- DropSoundness.NeededDropKept: asks that the way to the dropped place goes through fields that own something; a first store to a part of an uninitialized local, which makes the whole live, is not counted as owning the whole.
- DropExact.DeadIffNothingLeft: where an action depends on a conditional state, only the one direction of `NeededDropKept` is proved; a conditional drop is reported, a conditional heap free is not.
- Liveness.ComputeLiveness: takes each value to be listed at one position, as generated functions do.
- BorrowLoans.TransferAliases: which values carry loans is given with each step, as the provenance tables are not modelled.
- ModuleEffects.InterproceduralContext.ComputeSummaries: asks for monotone inference; whether a module whose functions mix direct and carried returns still ends, as many do, is decided for single cases only.
- EffectInfer.NoEffectMissed: taints follow the compiler's rules, by which assignments, awaits, closures, `!=`, bit operators and shifts pass none on; takes arguments to be slots of their own and pointers to be numbered after what they are made from.
- EffectInfer.Infer: notes effects in one pass over the solved states, which are those of the last sweep; what earlier sweeps note besides is allowed for in `Infers` and, by `InfersOne`, changes nothing.
- AsyncCorrectness.Simulates: takes labels to be fresh, definitions to precede uses in block order, and no temporary to live across an await, as temporaries are not kept in the environment; what instructions do to memory and the outside is a parameter.
- AsyncKickoff.BuildKickoff: types of values and fields are not modelled.
- AsyncDrop.BuildDrop: the drop function of the awaited future, the types of fields and which types need dropping are given; `wire_caller_future_drops` and the search for callee names are not modelled.
- AsyncDrop.EmitDropForPlace: for a place behind an index projection the compiler emits no drop, and neither does the model; the assertion that the dropped type is sized is not modelled.
- AsyncOwnership.ChildDestroyedOnceIff: the place the awaited future was read from is given with the state; futures that are computed on the spot lie in none.
- ImportLoader.DriverSession.LoadComponent: files, parsing, name resolution and type checking are given outcomes; failed attribute processing is taken to report a problem, and merging of the arenas is modelled in Arena.
- ImportLoader.DriverSession.LoadBinaryComponent: manifests and fingerprints are given verdicts; legacy libraries do not look at the loading stack, so callers must have.
- MetadataRoundTrip.RoundTrip: takes types to be acyclic, and constant expressions to fit the 32 bits they are written in; generic parameter tables, traits and symbol exports are not modelled.
- MetadataDecoding.InterfaceDecoder.AllocateSym: symbols of other libraries that are known already (`canonical_syms`) are not looked up.
- MetadataDecoding.InterfaceDecoder.DecodeTypes: the semantic context and the decoder are one object.
- Lexer.Cursor.StringLiteral: raw strings have a method of their own where the compiler has a flag; a raw byte string has no prefix branch in either.
- Lexer.Cursor.Next: works on bytes, one to a character; decoding of UTF-8 is not modelled, so every byte of a character outside ASCII is an error token, as in the compiler.
- TokenReader.ReadTokens: that a span wraps at 32 bits may hide a bad slice is covered; `ReadIffAscii` is stated for texts in which nothing wraps.
- Arena.MoveInto: ids are unbounded, where the compiler's wrap at 32 bits; imports are loaded between its two relocations, which the composition law allows to be taken together.
- Arena.AstArena.Relocate: operators, flags and visibilities are kept as text; macro rules and lifetime clauses, which hold spans only, as lists of spans; fields that hold neither ids nor spans may be folded into one.
- Type checking, parsing, monomorphisation, optimisation, code generation, linking, the command line, the editor extension and the C runtime.
