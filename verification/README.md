# b6b: a verified model

b6b is a small scripting language written in C. This project models the parts of
it that carry promises across functions and across time, and proves those
promises for every input, every run and every interleaving.

| file | what it models |
|---|---|
| `Fibers.dfy` | the fiber list: flag bits, the cyclic choice of a yield, reaping, insertion |
| `Offload.dfy` | the offload protocol between the interpreter thread and its worker threads |
| `Drain.dfy` | why no reachable state of that protocol is doomed, and why no call is lost |
| `Turns.dfy` | what the steps of that protocol do to who runs: when a call goes to a worker, what a yield does, when a fiber polls and when the thread waits |
| `Eval.dfy` | the statement evaluator under fibers: frames, results, the quantum counter, the exit flag |
| `ListText.dfy` | the text form of lists: scanner, printer and the grammar both answer to |
| `Objects.dfy` | objects with lazily filled views, dictionaries, name lookup, procedure arguments |
| `Hash.dfy` | the 32-bit mixing hash |
| `Ffi.dfy` | packing values into a C structure image and unpacking it |
| `StrOps.dfy` | split and join |
| `Strm.dfy` | stream reads into a growing buffer, and writes |
| `Basics.dfy` | the option type and the octet |

`dafny verify dfyconfig.toml` checks the whole project.

## How to read it

**Fibers.** A fiber is named by an id and the linked list is a sequence of ids. An
operation list (`Run`) is any sequence of yields, reapings, spawns, endings and
flag changes. A context switch is split in two: the yield up to the switch, and
the reaping that the incoming fiber does when its own call of yield returns.
The class `Interp` holds the fields of the interpreter record and each of its
methods is proved equal to the corresponding function.

**Offload.** A transition system in which the interpreter thread and any number of
workers interleave at the grain of one atomic action: one load or store of a
shared field, one signal sent, one signal consumed. The pool has one worker or
more (the source has up to 16). Realtime signals queue, so a pending signal is
a count, in each direction. A call of `b6b_offload` is named by its index, and
the `fn` and `arg` fields of a worker are tagged with the call they belong to,
so a worker that mixed two calls, or read a field before it was set, would show
up as `torn`. The `owner` list is history: it records which fiber stored
RUNNING and has not yet stored IDLE, and no step of the protocol reads it.
Start-up of the pool is part of the runs.

**Evaluator.** A step is what the running fiber does up to the next point where it
can be swapped out or a nested statement begins. Procedures are arbitrary: they
may run nested statements, yield, block, spawn, enter and leave finally blocks,
and end with any result. A frame pop drops whatever frame is current in the
running fiber, as the source does; that this is always the statement's own
frame is what the invariant shows.

**Lists.** `Parse` is a recursive reading of the scanner and `DoAsList` is the
index-based scanner itself, with its counters wrapping at the width of
`size_t`; `Derives` is a grammar that mentions neither.

**Numbers.** Words of the hash are numbers below 2^32 with every wrap written out.
The step counter wraps at 256. Bytes of packed values follow the byte order and
the type sizes of an `Abi` record.

Allocation, signal sending and signal waiting are taken to succeed, functions
run by workers to terminate, and there is one interpreter.

## Main results

The table under "## Model" lists everything that is stated; these carry the rest.

- Scheduler: `Fibers.RunSafe`, `Fibers.BoundedWaiting`, `Fibers.YieldIs`.
- Offload protocol, for every interleaving: `Offload.StepKeeps`,
  `Offload.ExactlyOnce`, `Offload.WorkerStates`, `Offload.NoSeriousBug`,
  `Offload.AwaitEnds`, `Offload.PollCollects`, `Offload.PickClaims`,
  `Drain.NoCallLost`, `Drain.Drains`, `Offload.JoinQuiesces`, `Turns.PoolRuns`,
  `Turns.YieldSwitches`, `Turns.WaitsOnlyForced`.
- Evaluator, for every run: `Eval.StatementRestores`, `Eval.DepthCounts`,
  `Eval.StatementSteps`, `Eval.ResultsTravel`, `Eval.FinallyRestores`,
  `Eval.AttemptYields`, `Eval.ExitDrains`, `Eval.JoinBound`, `Eval.QuantumExact`, `Eval.QuantumOverrun`.
- List text: `ListText.ParseIffDerives`, `ListText.Compose`,
  `ListText.RoundTripIff`, `ListText.NestedRoundTrip`, `ListText.SeparatorIff`,
  `ListText.PrintIsJoin`, `ListText.DoAsList`.
- Objects: `Objects.ProcPopCoherentIff`, `Objects.DictRefinesMap`,
  `Objects.SetAndUnset`, `Objects.Get`, `Objects.ArgumentUnder`, `Objects.SetArgs`, and the methods of `Objects.Obj`.
- Hash: `Hash.HashBijective`, `Hash.OneByteApart`, `Hash.MixIs`, `Hash.FinishIs`.
- Structure images: `Ffi.Pack`, `Ffi.Unpack`, `Ffi.PackThenUnpack`,
  `Ffi.RepackIff`, `Ffi.ImageUnique`, `Ffi.LettersAre`, `Ffi.ImageIs`, `Ffi.UnpackedIs`.
- Split and join: `StrOps.JoinSplit`, `StrOps.SplitIff`, `StrOps.PiecesJoinIff`, `StrOps.JoinIs`.
- Streams: `Strm.ReadRounds`, `Strm.RoundIs`, `Strm.WriteRounds`, `Strm.ReadLoop`, `Strm.Stream.Write`.

## Where the code differs from what one would expect

- The quantum. A statement that ends with EXIT returns before the counter is
  compared with the quantum (src/b6b_interp.c:589-597), so an exit that is the
  sixteenth statement skips the yield attempt, and with a finally block 271
  statements can pass between two attempts (`Eval.QuantumOverrun`).
  `Eval.QuantumExact` gives the exact relation.
- A list of no items prints as `{}`, which reads back as one empty item, and an
  item such as `{a}` loses a level of braces (`ListText.EmptyListFails`,
  `ListText.WrappedItemFails`). `ListText.RoundTripIff` says exactly which lists
  survive.
- The script's `list.pop` does not flush the other views
  (src/b6b_list.c:600-602). `Objects.ProcPopCoherentIff` says exactly when they
  still agree, for every list whether its text was printed from the items or
  parsed into them: only when the one item goes and the text is `{}`.
  `Objects.ProcPopOutOfStep` is a list on which they do not.
- Where pointers have 32 bits, `ffi.pack` cuts a `p` value to the pointer width
  without a range check (src/b6b_ffi.c:426-433), and `ffi.unpack` returns a `Q`
  value of 2^63 or more as a negative number. `Ffi.PackThenUnpack` and
  `Ffi.RepackIff` say exactly when the round trips hold; `Ffi.PointerCut` and
  `Ffi.LongWraps` are values for which they do not.
- A failed stream read drops the bytes that earlier rounds delivered, whether
  the read itself fails or the estimate before it (src/b6b_strm.c:99-102,
  src/b6b_strm.c:117-120); `Strm.DeliveredAndLost` is such a read.

## Model

| member | source | states |
|---|---|---|
| Fibers.TargetIff | src/b6b_interp.c:433-457 | a yield finds a fiber to swap to exactly when some other fiber is in the background and not DONE, and picks such a one |
| Fibers.SwapSafe | src/b6b_thread.c:157-166 | a swap keeps exactly one FG fiber, the one fg points at, and the incoming fiber is never DONE |
| Fibers.ReapSafe | src/b6b_interp.c:423-431 | reaping frees all DONE fibers and no other, never the running one |
| Fibers.ReapRing | src/b6b_interp.c:423-431 | reaping leaves the cyclic order of the remaining fibers as it was |
| Fibers.SpawnRing | include/b6b/thread.h:61-70 | a new fiber is the first one the next cyclic walk meets |
| Fibers.RunSafe | src/b6b_interp.c:423-466 | over every run exactly one fiber is FG, the main fiber stays first and is never DONE |
| Fibers.SwapDist | src/b6b_interp.c:437-465 | a swap brings every waiting fiber one place nearer, and reaches the one at distance one |
| Fibers.ReapDist | src/b6b_interp.c:423-431 | reaping moves no waiting fiber |
| Fibers.SpawnDist | src/b6b_interp.c:706-723 | a spawn puts every waiting fiber exactly one place further |
| Fibers.BoundedWaiting | src/b6b_interp.c:433-466 | a waiting fiber becomes foreground with exactly the swap numbered its distance plus the fibers spawned meanwhile, whatever finishes or is reaped in between |
| Fibers.TargetIsTurn | src/b6b_interp.c:437-457 | the fiber a yield picks is the first one, walking from the running fiber to the end of the list and on from its head, that is in the background and not DONE |
| Fibers.YieldIs | src/b6b_interp.c:423-466 | while another fiber is in the background and not DONE, the first such one takes over with a fresh counter and only the FG and BG bits change; with none, exactly the DONE fibers go and the others keep flags and order |
| Fibers.ReapFrees | src/b6b_interp.c:423-431 | reaping takes away exactly the DONE fibers; all others keep their flags and their order |
| Fibers.SpawnIs | include/b6b/thread.h:61-70 | a new fiber is put right behind the running one, in the background, neither DONE nor BLOCKED, and nothing else changes |
| Fibers.Interp.constructor | src/b6b_thread.c:170-193 | the list starts with the main fiber alone, in the foreground |
| Fibers.Interp.PickNext | src/b6b_interp.c:440-457 | the two list walks find the first pending fiber of the cyclic order |
| Fibers.Interp.Wait | src/b6b_interp.c:423-431 | the unlinking walk leaves exactly the live fibers, in order |
| Fibers.Interp.Yield | src/b6b_interp.c:433-466 | the in-place yield is the specified swap with qstep reset, or the reaping, and reports which |
| Fibers.Interp.Start | src/b6b_interp.c:706-723 | starting links the new fiber right after the running one |
| Fibers.Interp.ScanOthers | src/b6b_interp.c:522-538 | the early-ending walk answers whether some other fiber is blocked and whether some other is free |
| Offload.StepKeeps | src/b6b_interp.c:484-568 | every atomic action of either side keeps the protocol invariant |
| Offload.WorkerStates | src/b6b_offload.c:42-63 | after start-up a worker is IDLE, ownerless and without signals, or RUNNING or DONE with exactly one owner; it never leaves its loop, and executes one unfinished call with both fields set |
| Offload.OwnersUnique | src/b6b_interp.c:472-513 | a fiber is inside a worker's ownership exactly when it is recorded as its owner, so no two fibers own one worker |
| Offload.IdleIffUnowned | include/b6b/offload.h:66-68 | in a steady state the IDLE test answers whether the worker is unowned |
| Offload.NoSeriousBug | src/b6b_interp.c:501-508 | the branch for a busy pool with nobody to yield to is unreachable, no fiber runs past its end, no call fails |
| Offload.OwnerPending | src/b6b_interp.c:472-508 | whenever a fiber other than the running one owns a worker, a yield finds somebody to swap to |
| Offload.BlockedExactly | src/b6b_interp.c:495-555 | BLOCKED is set exactly between entering the pick loop and leaving the poll loop, and clear on every return |
| Offload.ExactlyOnce | src/b6b_interp.c:484-568 | a call that has returned returned 1 and its function ran once to completion, in all later states too, and no worker has its function or argument in hand |
| Offload.HoldsInFlight | src/b6b_offload.c:42-50 | what a worker has in hand or is woken for belongs to a call that has not returned |
| Offload.AwaitedWorker | src/b6b_offload.c:130-141 | the finish signal is there exactly when the worker is in state DONE with the function completed; otherwise the worker has an enabled step that brings it nearer |
| Offload.AwaitEnds | src/b6b_offload.c:130-141 | while the interpreter thread waits for a worker, that worker alone delivers the signal in at most seven steps |
| Offload.AlwaysEnabled | src/b6b_interp.c:484-568 | no reachable state is stuck, and only start-up and finish ever wait for a signal |
| Offload.PolledUntil | src/b6b_interp.c:515-551 | while a fiber is parked in the poll loop, each step of its worker and nothing else brings the worker nearer to its signal, and the fiber goes on at the test of the worker's state |
| Offload.PollCollects | src/b6b_interp.c:515-565 | once a polled worker has taken its remaining steps and the fiber is swapped in again, the call is collected with the fiber's own next four steps, each enabled whatever the workers do: the worker is idle and unowned and the call is about to return success, after one more yield if somebody waited |
| Offload.PickClaims | src/b6b_interp.c:472-513 | a fiber at the head of the pick loop while worker i is the first idle one is at worker i after i steps of its own, has claimed it after one more and owns it after two, each step enabled whatever the workers do |
| Offload.JoinQuiesces | src/b6b_interp.c:246-260 | when the yields of a join run out only the main fiber is left and every worker is idle with nothing in flight |
| Drain.NoCallLost | src/b6b_interp.c:484-568 | in every reachable state each call that was made has returned success with its function run once to completion, or is held by exactly one live fiber |
| Drain.Drains | src/b6b_interp.c:246-260 | from every state reached after start-up some run without new fibers and calls ends with every call returned, the main fiber alone and every worker idle, however many fibers were polling, waiting or looking for a worker |
| Turns.EntersPool | src/b6b_interp.c:492-495 | a call goes to the pool, with BLOCKED set, exactly when another fiber is in the list; alone, the interpreter thread begins the function itself |
| Turns.PoolRuns | src/b6b_interp.c:484-568 | over every run, the function of a call entered while another fiber was in the list is begun by a worker's step only |
| Turns.YieldSwitches | src/b6b_interp.c:433-466 | at every yield of every run: the fiber whose turn it is goes on, a new one with its script, one in the pick loop with the first worker, one in the poll loop with the test of its worker; all but a new one first free the DONE fibers; with nobody to go on the running fiber frees them and goes on |
| Turns.PollDecides | src/b6b_interp.c:515-548 | the poll loop yields exactly while some other fiber is not BLOCKED, noting whether some other is; otherwise it is left at once |
| Turns.WaitsOnlyForced | src/b6b_interp.c:515-557 | over every run the interpreter thread waits for a worker only when the worker is in state DONE already or every other suspended fiber is inside b6b_offload |
| Turns.LetsOthersRun | src/b6b_interp.c:553-565 | when the signal is collected the worker is idle and unowned, and the fiber yields once more exactly if it had seen another fiber wait |
| Turns.CallOrder | src/b6b_interp.c:484-568 | a call with a worker sets the function, then the argument, then wakes the worker, then polls; it stops polling at the test that finds DONE, is unblocked before it collects the signal, and reports success when it returns |
| Turns.ScriptActs | src/b6b_interp.c:45-52 | a script that makes a call enters it as a new one, one that ends marks its fiber DONE and yields, and a fiber it starts is the next to run |
| Eval.StatementRestores | src/b6b_interp.c:603-664 | a statement leaves its own fiber's frame chain and depth as found, whatever its result, nested statements and fiber switches |
| Eval.StepFrames | src/b6b_frame.c:54-110 | one step changes at most the running fiber's frames, by one frame, with a statement that begins or ends |
| Eval.DepthCounts | src/b6b_frame.c:54-72 | over every run the depth counter is the fiber's chain length and between 1 and 64 |
| Eval.StepInv | src/b6b_interp.c:572-664 | every step keeps one frame per statement in progress, in every fiber |
| Eval.StatementSteps | src/b6b_interp.c:603-664 | a statement that ends drops its frame and hands its result on; one begun while exiting is refused with EXIT and at 64 frames with ERR, handed on alike; else it gets a new frame. A result other than OK and YIELD stops the outer statement that was evaluating its words, or halts the script; OK and YIELD change neither; EXIT alone sets the exit flag |
| Eval.ResultsTravel | src/b6b_interp.c:629-664 | over every run, a statement one of whose words ended with a result other than OK and YIELD does nothing more but end, with that same result |
| Eval.Enabled | src/b6b_interp.c:603-688 | what a fiber may do while it evaluates words, runs a procedure, is in a finally block, was stopped by a bad result, or is between the statements of its script |
| Eval.WordsThenProc | src/b6b_interp.c:623-657 | a statement whose words are evaluated goes on in its procedure and changes nothing else |
| Eval.HaltedStays | src/b6b_interp.c:666-688 | over every run, a fiber whose script had a statement end with a result other than OK and YIELD begins no statement again |
| Eval.StepMarks | src/b6b_interp.c:47-52 | a fiber is marked DONE by its own end only, stays in the list until then, and is BLOCKED and unblocked by itself only |
| Eval.WakesUp | src/b6b_interp.c:459-465 | a fiber that was swapped out in a yield first frees the DONE fibers and goes on where it was, and does nothing else before |
| Eval.ForkStarts | src/b6b_interp.c:706-723 | a started fiber has a frame of its own above the global one and is the next one to run |
| Eval.FinallyRestores | src/b6b_exc.c:56-69 | entering a finally block clears the exit flag, and leaving it puts it back as it was, whatever the block, nested blocks and other fibers did meanwhile |
| Eval.ExitDrains | src/b6b_interp.c:610-616 | once exit is set and no finally block runs, it stays set and no fiber's depth grows |
| Eval.UnwoundBound | src/b6b_interp.c:572-664 | once exit is set, with no finally block and no new fiber, what is left to unwind bounds how often statements end, scripts halt and fibers end, on every run |
| Eval.JoinBegins | src/b6b_interp.c:246-248 | the first yield of a join, from any reached state with the main script over and no finally block running, starts a join in the sense of the next four rows |
| Eval.JoinBound | src/b6b_interp.c:246-248 | a join, whatever the fibers were doing and offloaded calls in flight included, is no longer than what is left to unwind, the statements its procedures are refused, and the yields, flag changes and forks inside procedures, each at a fixed cost; no finally block may be entered or left |
| Eval.JoinEnds | src/b6b_interp.c:246-248 | where procedures end once a statement is refused, refusals need not be counted: the length is at most twice the rest. A poll loop's yields are counted; `Offload.PolledUntil` and `Offload.PollCollects` say when polling stops |
| Eval.JoinGoesOn | src/b6b_interp.c:246-248 | in the evaluator, where a procedure is free to end, a join is never stuck before its yield finds nobody; for a procedure that waits in an offloaded call see `Offload.AlwaysEnabled`, `Offload.AwaitEnds` and `Drain.Drains` |
| Eval.JoinCompletes | src/b6b_interp.c:246-248 | in the evaluator, where a procedure is free to end, every join can run to the point at which the main fiber finds nobody to yield to; with offloaded calls in flight that is `Drain.Drains` |
| Eval.QuantumExact | src/b6b_interp.c:572-601 | between attempts the completions, the counter and the attempts skipped by EXIT are tied by an exact equation, and the running fiber stays the same |
| Eval.QuantumBound | src/b6b_interp.c:595-597 | from a fresh quantum fewer than 16 statements complete before an attempt exactly when no EXIT skipped one; on any quiet run with none skipped fewer than 256 |
| Eval.QuantumOverrun | src/b6b_interp.c:589-597 | a run with a finally block that completes 271 statements without an attempt |
| Eval.SwapResets | src/b6b_interp.c:459-462 | the running fiber changes only in a yield attempt, and then the counter is zero |
| Eval.AttemptYields | src/b6b_interp.c:572-601 | an attempt is a yield: while another fiber is suspended the one whose turn it is takes over with a fresh quantum and the old one sleeps; with none the DONE fibers are freed |
| Eval.Machine.PushFrame | src/b6b_frame.c:54-72 | pushing is refused exactly at depth 64 and then changes nothing |
| Eval.Machine.PopFrame | src/b6b_frame.c:102-110 | popping drops the current frame and lowers the depth |
| Eval.Machine.HandleResult | src/b6b_interp.c:572-601 | the in-place result handling with the wrapping counter is the specified one; YIELD becomes OK |
| Eval.Machine.BeginStatement | src/b6b_interp.c:603-620 | the first half of a statement is the specified step: EXIT at once while exiting, an error at the nesting limit, a pushed frame otherwise |
| Eval.Machine.FinishStatement | src/b6b_interp.c:659-664 | the second half of a statement, popping and then handling the result, is the specified step |
| ListText.BraceLenIff | src/b6b_list.c:155-280 | a brace token ends at the first closing brace at which the text before is balanced |
| ListText.BrackTokenIff | src/b6b_list.c:155-280 | a bracket token is the shortest prefix in which brackets and braces both balance at a closing bracket |
| ListText.BracketedIs | src/b6b_list.c:196-229 | a bracket token ends at the first closing bracket up to which brackets and braces each open as often as they close |
| ListText.BareLenIff | src/b6b_list.c:155-280 | a bare token is the longest run without white space |
| ListText.GrammarComplete | src/b6b_list.c:155-280 | every document of the grammar parses, to exactly its contents |
| ListText.GrammarSound | src/b6b_list.c:155-280 | every text that parses is a document with those contents |
| ListText.ParseIffDerives | src/b6b_list.c:155-280 | the scanner accepts exactly the grammar, with its contents |
| ListText.Compose | src/b6b_list.c:155-280 | a parsed text, white space and any text parse to both item lists in order, and fail exactly when the second text fails |
| ListText.SeparatorIff | src/b6b_list.c:237-254 | two texts without white space, neither starting with brace or bracket, and a character between them are two items exactly if the character is a blank, tab, newline or carriage return, and one item else |
| ListText.BalancedIs | src/b6b_list.c:170-190 | balanced at every prefix means that no prefix has more closing than opening braces and the whole has as many of both |
| ListText.NetIs | src/b6b_list.c:196-229 | the counts of the bracket scan are differences of occurrences |
| ListText.RoundTripIff | src/b6b_str.c:153-224 | the scanner gives back a printed list exactly when it is non-empty and every item is empty, or has white space and is balanced, or is bare, or is one whole bracket token |
| ListText.NestedRoundTrip | src/b6b_str.c:104-224 | printing a nested list and scanning it level by level gives the whole tree back, whenever no list in it is empty and the text of every item is printable |
| ListText.NestableReads | src/b6b_str.c:104-224 | printable, balanced leaves in lists of two or more items are enough for that |
| ListText.NothingLost | src/b6b_list.c:155-280 | no printed list reads back as itself with one item missing |
| ListText.NothingGained | src/b6b_list.c:155-280 | no printed list reads back as itself with one item more, but for the empty one |
| ListText.EmptyListFails | src/b6b_str.c:210-220 | the empty list prints as a pair of braces, which is one empty item |
| ListText.WrappedItemFails | src/b6b_str.c:153-224 | a brace-wrapped item without white space loses a level of braces |
| ListText.PrintSnoc | src/b6b_str.c:153-224 | appending an item to a non-empty list appends a space and the quoted item to its text |
| ListText.PrintIsJoin | src/b6b_str.c:104-224 | the text of a list is its items with a blank between them, an item in braces exactly if it is empty or has a blank, tab, newline or carriage return, and a pair of braces if there is none |
| ListText.DoAsList | src/b6b_list.c:155-280 | the index scanner stays in bounds, ends, and computes the recursive parse, although its counters wrap |
| ListText.ScanBracket | src/b6b_list.c:155-280 | the bracket loop with unsigned counters finds the same end as counters that go negative |
| ListText.ScanBrace | src/b6b_list.c:155-280 | the brace loop finds the closing brace or fails |
| ListText.IsSpaced | src/b6b_str.c:92-102 | the loop answers whether the text has white space |
| ListText.AsStr | src/b6b_str.c:104-224 | the growing printer computes the specified text |
| Objects.ObjEqIsTextEq | include/b6b/obj.h:102-107 | with both hashes cached, the hash check never changes the answer of string equality |
| Objects.TextHashApart | src/b6b_obj.c:86-97 | texts that differ in one octet have different hashes |
| Objects.Obj.FillStr | src/b6b_str.c:104-224 | filling the text keeps the views coherent and is the print of the items |
| Objects.Obj.FillList | src/b6b_list.c:282-296 | filling the items succeeds exactly when the text parses, and keeps the views coherent |
| Objects.Obj.FillHash | src/b6b_obj.c:86-97 | a cached hash is the hash of the filled text |
| Objects.Obj.ListAdd | src/b6b_list.c:96-103 | appending flushes text and hash |
| Objects.Obj.ListExtend | src/b6b_list.c:124-135 | extending by a different list appends its items in order and flushes |
| Objects.Obj.ListPop | src/b6b_list.c:137-153 | popping removes the given or the last item and flushes; an empty list is left alone |
| Objects.Obj.ProcPop | src/b6b_list.c:577-604 | the script's pop removes the item at an index in range and leaves text and hash as they are; the views still agree exactly when no text was filled, nothing was removed, or the one item went and the text is a pair of braces |
| Objects.ProcPopCoherentIff | src/b6b_list.c:600-602 | with the text filled, by printing or before parsing, the views agree after the script's pop exactly when the list had one item and the text is a pair of braces |
| Objects.ProcPopOutOfStep | src/b6b_list.c:600-602 | the one-item list `a` is out of step with its text after the pop |
| Objects.FindIsLookup | src/b6b_dict.c:59-82 | searching the flat list is looking the key up in the map it stands for |
| Objects.SetIsUpdate | src/b6b_dict.c:22-57 | setting keeps even length and distinct keys and updates the map |
| Objects.UnsetIsRemoval | src/b6b_dict.c:84-109 | unsetting keeps even length and distinct keys and removes the key |
| Objects.DictRefinesMap | src/b6b_dict.c:22-109 | over every sequence of sets and unsets the flat list stands for the map those build |
| Objects.FindIs | src/b6b_dict.c:59-82 | on any flat list, a search answers the first equal key that has a value, and without one it fails exactly on a list of odd length |
| Objects.DictIs | src/b6b_dict.c:59-82 | the map of a flat list has exactly its keys, each with the value after its first occurrence |
| Objects.WellKeyedIs | src/b6b_dict.c:22-57 | well keyed means even length and no key twice |
| Objects.SetAndUnset | src/b6b_dict.c:22-109 | an equal key keeps its place and gets the value, a new one goes to the end, a removed one leaves the others in order |
| Objects.Obj.FindKey | src/b6b_dict.c:26-47 | the hash-checked walk finds the first equal key, caching hashes on the way |
| Objects.Obj.DictSet | src/b6b_dict.c:22-57 | a set replaces or appends in place and flushes, and fails exactly on a list with a key and no value |
| Objects.Obj.DictGet | src/b6b_dict.c:59-82 | a get returns the value of the first equal key and changes nothing but cached hashes |
| Objects.Obj.DictUnset | src/b6b_dict.c:84-109 | an unset removes key and value and flushes, or changes nothing |
| Objects.OverlayFirst | src/b6b_interp.c:356-376 | the overlay of a chain of maps gives the value of the first that has the key |
| Objects.Get | src/b6b_interp.c:356-376 | the walk over the frame chain is lookup in the innermost-wins overlay of the locals |
| Objects.NumberedLookup | src/b6b_frame.c:84-97 | every argument is found under its number and no other key changes |
| Objects.AllLookup | src/b6b_frame.c:74-82 | the list of all arguments stays under `@`, which is no argument's number |
| Objects.DecInjective | src/b6b_frame.c:85-88 | two argument numbers never share a key |
| Objects.DecIs | src/b6b_frame.c:84-97 | the key of argument n is the decimal numeral of n, without leading zeros |
| Objects.NumeralIs | src/b6b_frame.c:84-97 | a string of digits without leading zeros is the key of the argument whose number it reads as |
| Objects.ArgumentUnder | src/b6b_frame.c:84-97 | a key that is a numeral below the number of arguments gives that argument, every other key what it gave before |
| Objects.SetArgs | src/b6b_frame.c:74-100 | the locals become the old ones with the argument list and the numbered arguments on top, and every numeral below the number of arguments gives the argument it reads as |
| Hash.MixInverse | include/b6b/hash.h:33-34 | mixing in a fixed byte can be undone, on both sides |
| Hash.FinishInverse | include/b6b/hash.h:38-43 | finishing can be undone, on both sides |
| Hash.UpdateBijective | include/b6b/hash.h:26-36 | update by a fixed string is a bijection on the 32-bit state |
| Hash.HashBijective | include/b6b/hash.h:26-43 | update and finish together are a bijection on the 32-bit state |
| Hash.OneByteApart | include/b6b/hash.h:26-43 | strings of one length that differ in exactly one byte never have equal hashes |
| Hash.UpdateConcat | include/b6b/hash.h:26-36 | hashing in two parts is hashing the whole |
| Hash.MixIs | include/b6b/hash.h:32-35 | mixing in a byte adds it and the state shifted left by 10, modulo 2^32, and then adds bit i + 6 to bit i without carry |
| Hash.FinishIs | include/b6b/hash.h:38-43 | finishing adds the state shifted left by 3, adds bit i + 11 to bit i without carry, and adds the state shifted left by 15 |
| Hash.HashIs | include/b6b/hash.h:21-36 | hashing starts from zero and mixes in each byte once, in order |
| Hash.HashUpdate | include/b6b/hash.h:26-36 | the byte loop with wrapping shifts and sums is the specified update |
| Hash.HashFinish | include/b6b/hash.h:38-43 | the three shift steps are the specified finish |
| Ffi.FieldRoundTripIff | src/b6b_ffi.c:388-504 | one field survives encoding and decoding unless it is a pointer field narrower than its value |
| Ffi.FieldRepackIff | src/b6b_ffi.c:155-222 | the bytes of one field survive decoding and encoding unless an unsigned 64-bit word came out negative, and then encoding is refused |
| Ffi.LettersAre | src/b6b_ffi.c:55-73 | each type letter stands for its size, its alignment and exactly its range of integers, and no other character is a type |
| Ffi.EncodeIs | src/b6b_ffi.c:388-504 | byte j of an integer field, from the low end, is v / 256^j modulo 256, counted from the start on a little-endian platform and from the end on a big-endian one |
| Ffi.EncodeBits | src/b6b_ffi.c:388-504 | a floating-point field holds its bit pattern in the same byte order |
| Ffi.DecodeIs | src/b6b_ffi.c:155-222 | an integer field is read as the one number in the range of its type, signed or unsigned, that has these bytes |
| Ffi.SignOf | src/b6b_ffi.c:55-73 | which letters are unsigned |
| Ffi.FormatIs | src/b6b_ffi.c:521-527 | a leading dot asks for a packed image and is no field; otherwise every character is one |
| Ffi.ImageIs | src/b6b_ffi.c:506-582 | the bytes of every integer field of an image, one by one |
| Ffi.UnpackedIs | src/b6b_ffi.c:584-649 | the number every integer field is unpacked to, by the bytes in its place |
| Ffi.FieldsInOrder | src/b6b_ffi.c:546-572 | fields keep their order and never overlap |
| Ffi.FieldPlaced | src/b6b_ffi.c:546-572 | an aligned field starts at the first multiple of its alignment its predecessor leaves free, a packed one right after it |
| Ffi.EndStep | src/b6b_ffi.c:546-572 | the image ends with its last field |
| Ffi.ImageUnique | src/b6b_ffi.c:506-582 | a format and its values determine every byte of the image, gaps included |
| Ffi.RoundTripIff | src/b6b_ffi.c:584-649 | what an image unpacks to is the packed values exactly when every pointer value fits its field |
| Ffi.RepackIff | src/b6b_ffi.c:506-649 | packing what an image unpacked to restores the image exactly when no unsigned 64-bit field came out negative |
| Ffi.PackThenUnpack | src/b6b_ffi.c:506-649 | unpack accepts whatever pack returned for the same format, and gives back all values exactly when each `p` value fits a pointer, always so with 64-bit pointers |
| Ffi.PointerCut | src/b6b_ffi.c:426-433 | with 32-bit pointers 2^32 is packed under `p` and unpacked as 0 |
| Ffi.LongWraps | src/b6b_ffi.c:207-210 | eight bytes of ones under `Q` are unpacked as -1, which cannot be packed under `Q` |
| Ffi.Append | src/b6b_ffi.c:546-572 | one field is appended after zeroed padding, inside the buffer, or the limit is exceeded |
| Ffi.Pack | src/b6b_ffi.c:506-582 | pack succeeds exactly for a known non-empty format with enough encodable values and at most 4096 bytes, and returns the image |
| Ffi.Unpack | src/b6b_ffi.c:584-649 | unpack succeeds exactly for a known non-empty format whose last field ends inside the text, and lists the fields in order |
| StrOps.JoinSplit | src/b6b_str.c:356-472 | joining the split of a text gives the text back, for every text and delimiter |
| StrOps.SplitIff | src/b6b_str.c:412-472 | the split is the one list that joins to the text and in which no piece meets the delimiter early, even in part |
| StrOps.PiecesJoinIff | src/b6b_str.c:356-472 | splitting a join gives the list back exactly when it is non-empty and no piece meets the delimiter early |
| StrOps.NoPieceContains | src/b6b_str.c:412-472 | no piece of a split contains the delimiter |
| StrOps.OneCharIff | src/b6b_str.c:356-472 | for a one-character delimiter the list comes back exactly when it is non-empty and its pieces are free of it |
| StrOps.NoDelimiterIff | src/b6b_str.c:426-468 | with an empty delimiter the list comes back exactly when its pieces are single characters |
| StrOps.JoinIs | src/b6b_str.c:356-410 | a join is the pieces in order with a delimiter after each but the last and nothing else, and empty for no pieces |
| StrOps.MemEq | src/b6b_str.c:446-446 | comparing a delimiter without NUL near the end of the text never passes the terminator |
| StrOps.SplitText | src/b6b_str.c:412-472 | the pointer loop computes the split |
| StrOps.JoinList | src/b6b_str.c:356-410 | the reallocating loop builds the joined text and leaves room for the terminator |
| Strm.ReadRounds | src/b6b_strm.c:57-137 | the reading loop ends, at the first round that no other follows; unless that round fails the result is every chunk delivered, in order, and at most what was wanted |
| Strm.RoundIs | src/b6b_strm.c:81-131 | one round of a read: it asks for the estimate, or for 65536 bytes of a stream that gives none, but for no more than is wanted, and every reply leads to failure, to the end or to the next round as in the source |
| Strm.DeliveredAndLost | src/b6b_strm.c:99-102 | a read that was handed a byte and then failed returns nothing of it |
| Strm.ReadLoop | src/b6b_strm.c:81-131 | the loop over the growing buffer never writes past it, the terminator included, and computes that result |
| Strm.Stream.ReadUpTo | src/b6b_strm.c:57-137 | a read at the end of the stream returns nothing, on an unreadable stream fails, and otherwise returns the chunks and records the end |
| Strm.WriteLoop | src/b6b_strm.c:149-158 | each chunk is offered from where the last one ended, so what was accepted is a prefix of the buffer |
| Strm.WriteRounds | src/b6b_strm.c:139-161 | a write goes on exactly until all is written or a round accepts nothing, fails exactly if that round failed, and else returns the sum of what was accepted |
| Strm.Stream.Write | src/b6b_strm.c:139-161 | a write hands over a prefix of the buffer, returns its length, and stops short only when nothing is accepted |
| Strm.Stream.Close | src/b6b_strm.c:25-32 | closing also ends the stream |

## Left out

- Sockets, files, stdio, epoll, signals, timers, subprocesses, line editing, compression, dynamic loading and foreign calls: wrappers around the system or libraries.
- Scripts embedded as C strings, the arithmetic, logic and loop procedures: they add members, not invariants.
- Floating point: the `%.12f` printer and `strtod` are not modelled, and a float field of a structure carries a bit pattern, so the conversion between `float` and `double` is outside the model.
- Integer and float views of objects: an object has its list, text and hash views only.
- Reference counts and clean-up after failed allocation: no ownership claim is made about objects, in particular not about the items of a text that fails to parse.
- Items of a list have a fixed text: changing a nested list does not flush the list that holds it in the source, and no claim is made there.
- Extending a list by itself: the source's loop does not end there (src/b6b_list.c:128), so `Objects.Obj.ListExtend` asks for a different list.
- Several interpreters in one process: worker signals are numbered per interpreter.
- The atomics are sequentially consistent in the model, as `atomic_load` and `atomic_store` are; the plain `fn` and `arg` fields are read and written in one action each.
- Stopping the pool with `pthread_cancel`, context and stack set-up, and signal masks: `Offload.JoinQuiesces` ends where stopping begins.
- Linked lists and the frame chain are sequences: `prev` and `next` pointers, and aliasing through them, are not modelled.
- Strm.ReadLoop: the size of the buffer is an unbounded number, because the sum of all estimates reaches the width of `ssize_t` only after allocation has failed.
- Strm.Fetch: stands for the driver behind a stream; that it fills only the part of the buffer it is given, and delivers no more than it is asked for, is assumed of every driver (`Strm.Bounded`), not proved of any.
- Eval.JoinBound: says nothing of a join during which a finally block is entered or left: it clears the exit flag, so statements begin again without bound; a procedure that ignores its refused statements is counted statement by statement and may never end.
- Drain.Drains: is about the possibility of an end, not about every run; which runs get there depends on the scripts, which may yield, start fibers and make calls without end.
- StrOps.SplitText: a delimiter with a NUL byte is excluded, because the comparison in the source then reads past the text.
- StrOps.MemEq: compares byte by byte and stops at the first difference; a `memcmp` that reads ahead is not modelled.
- Eval.ExitDrains: says nothing while a finally block runs, because leaving one restores an exit flag that another fiber may have changed meanwhile.
- Eval.StepInv: which procedure a statement calls, and what `_` holds, is not modelled; a procedure may do any sequence of the modelled steps.
- The trace option, and the words of a statement as text: evaluating a word is a nested statement or nothing.
