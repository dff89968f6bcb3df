# A verified model of the Voila runtime

Voila's runtime library (`runtime/src/`, C) holds a handful of small algorithms whose comments
promise a great deal: a regular-expression machine that is linear and still obeys priority order,
a reference-counted heap that frees iteratively, copy-on-write that gives value semantics, a
lock-free collector of frame cycles, exact decimals, unwinding that runs every defer once,
structured concurrency, channels, JSON, and hash tables.  This project models those algorithms in
Dafny and proves what they promise, on all inputs and over all runs.

## What is modelled

| area | modules | model |
|---|---|---|
| Regular expressions | `RegexTree`, `RegexProgram`, `RegexCompiler`, `RegexLayout`, `RegexEmitter`, `RegexBacktrack`, `RegexSearch`, `RegexPriority`, `RegexOrder`, `RegexLoops`, `RegexPreference`, `RegexTheorem`, `RegexApi`, `RegexCharacters`, `RegexCaptures` | Trees denote relations on positions and captures.  The emitter is a class that appends and patches instructions; the searcher is the two-list machine over arrays.  The reference executor is a backtracker without memory, and apart from programs the ways to match a tree have an order of preference.  Find-all, replace and split are loops over the search.  What the leaves and repeats of a tree match, and what a group's text is, is said apart from the tables and functions that the compiler shares. |
| Frame cycles | `FrameProtocol`, `FrameSafety`, `FrameSteps`, `FrameRuns`, `FrameHeap`, `FrameTheorem`, `FrameParked`, `FrameVerdict`, `FrameProgress`, `FrameLeaks`, `FrameReleases`, `FrameUnjudged` | One captured frame, its closures, the worklists on which threads inside `obj_free` park dead objects, and any number of agents that call, release and judge; every atomic operation of the source is one step, and steps interleave freely. |
| Objects and counts | `HeapModel`, `ObjectHeap` | Cells with counts and references; `Heap` is the class with the dead list, whose methods park and free. |
| Copy-on-write | `ValueMeaning`, `CopyOnWrite`, `CowPath`, `CowCondition`, `CowCycles`, `CowWrite`, `CowExact`, `CowAssign`, `CowWitness` | A value stands for a tree.  An assignment walks its path, copies what is shared, writes the copies back and stores. |
| Decimals | `DecimalDigits`, `DecimalKernels`, `DecimalValue`, `DecimalOps`, `DecimalArith` | Digit strings and an exponent, against real numbers. |
| Unwinding | `UnwindMeaning`, `UnwindMachine`, `UnwindTheorem`, `UnwindOrder`, `UnwindDelivery`, `UnwindLaws` | A context with handlers, frames, cleanups and the exception in flight, updated step by step, against an evaluator where an exception is a result. |
| Tasks and groups | `TaskGroups`, `TaskWalks`, `TaskEscapes`, `TaskProgress` | Tasks and groups as a state machine under the global monitor, with exceptions that leave a group's block. |
| Channels | `ChannelRing`, `ChannelProtocol`, `ChannelProgress` | The ring and the passes of each loop as a class; runs of any number of tasks over any number of channels. |
| JSON | `JsonSyntax`, `JsonGrammar`, `JsonParse`, `JsonReader`, `JsonWriter`, `JsonEscapes`, `JsonTables`, `Utf8Bytes` | Trees of the grammar of RFC 8259 with every space and escape in them; the parser as a class with a position, a depth and a first error; the encoder as a class that appends to a text. |
| Maps and sets | `AssocList`, `Probing`, `HashMap` | The entry list and the open-addressed index over it, as a class; against association lists. |
| Live allocations | `AllocRegistry` | The address table with tombstones, as a class; against sets. |
| Digests | `DigestMeaning`, `DigestDriver`, `DigestTables` | The streaming context as a class with its block buffer, for any block function; against padding and folding the whole message. |
| Decimals as text | `Bytes`, `DecimalText`, `DecimalGrammar` | Parsing and the two ways to print, as loops over bytes. |

Counts, positions and lengths are unbounded integers: the bit fields of the count word, `int64`
lengths and the 2^31 bound on regex subjects are assumed not to overflow.

## Findings

Where a property that the code or its comments suggest turns out to be false, the model keeps the
code as it is, a member below exhibits a run, and another says exactly when the property does hold.

| property | what happens | shown by | exact condition |
|---|---|---|---|
| A write through one name is not seen through another (`runtime/src/types.c:245-254`, `runtime/src/types.c:361-366`) | A Box or a newtype looked through on the way may hold a struct that another name holds too.  UNIQ copies the level that was read, and `own_inner` works only at the store, so the copy of a deeper level is written back into the shared struct. | `CowWitness.ReadThroughBoxIsShared`, `CowWitness.BoxInBoxIsShared`, `CowWitness.NewtypeIsShared` | `CowAssign.Names.Assign`: exactly when `CowCondition.GoodFrom` holds of the counts before the write.  A count above one is sometimes harmless (`CowWitness.SharedInsideMends`). |
| An assignment closes no cycle of references (`runtime/src/types.c:189-192`, `programming_manual.md:1139-1147`) | `struct Q { back ?S }` and `struct S { f Q }` are legal (`voilac/chk/acyclic.voi:5-6`).  After `var p = S{..}; var b = Box(p)`, the assignment `b.f.back = p` copies neither the Box nor the Q it reads through the Box, so S leads to Q and Q to S. | `CowWitness.WriteClosesCycle` | `CowAssign.Names.Assign`: exactly when the value written leads, before, to no object of the path that stays in place (`CowCycles.Staying`, a test on kinds and counts along the path). |
| Clearing the registers of a frame found garbage gives up their references (`runtime/src/value.c:992-995`) | A judgement made inside `obj_free`, as after the last outside closure died, only parks what it takes out of the registers; the references go when the outermost release drains its worklist, after the flag is down. | `FrameParked.ReferenceOutlives` | `FrameTheorem.ReapedWhole`: exactly when no worklist has a closure over the frame and nobody is giving one up; `FrameTheorem.CollectedWhole` says that it comes to that. |
| A finished frame that only its own closures refer to is collected (`runtime/src/value.c:307-312`) | `vl_release` reads `done` before it lowers the count.  A release that reads it while the function still runs, and lowers the count after the judgement that the return makes, leaves the closure with one holder and judges nothing; nobody else will. | `FrameUnjudged.NeverJudged` | `FrameReleases.ReleaseJudges`: a release that leaves a closure with one holder judges the finished frame exactly when the function had returned before the release began.  `FrameLeaks.NothingLeaks`: in a run without a release that breaks this, the frame is collected; `FrameLeaks.ForgottenForEver`: left with nobody at work and nothing deferred, it never is. |
| The exception delivered is the latest one thrown (`runtime/src/err.c:398-403`) | A defer that throws and catches `b` leaves `b` in the context, and the handler that unwinds for `a` is given `b`. | `UnwindDelivery.DeferOvertakes` | `UnwindDelivery.CloseHonest` for a frame, `UnwindDelivery.EvalHonest` for a program. |
| A fault is not caught by a handler (`runtime/src/err.c:416-420`) | When the exception in flight is a fault and a defer catches another exception, the handler is given that one and keeps it: the fault is gone. | `UnwindDelivery.DeferOvertakes` with a fault for `a` | as above; `UnwindTheorem.FaultsUncaught` says that a handler is never given a fault. |
| A live task's chain of groups is live (`runtime/src/task.c:35-45`) | An exception that leaves a `group` block does not end the group.  When the task then ends, its parent's join no longer waits for the tasks of the group left open, and frees a group above them. | `TaskEscapes.WalkIntoFreed` | `TaskWalks.WalksAreSafe`: exactly when no join frees a group above one with unfinished tasks. |
| A `group` block joins its own tasks (`runtime/src/task.c:108-112`) | After an exception that left an inner block was caught, the next `group` block's end joins the group left open instead of its own. | `TaskEscapes.BlockEndsEarly` | `TaskEscapes.JoinsItsOwn`: exactly when no exception left an inner block meanwhile. |
| A UTF-16 surrogate pair spells one code point (`runtime/src/json.c:462-481`) | A high surrogate takes the next escape with it even when that one is high as well, so the pair that the second one begins is torn apart: `"\uD800\uD801\uDC00"` decodes to three replacement characters. | `JsonEscapes.PairTornApart` | `JsonEscapes.StandardExact`: exactly when, going through the string as the decoder does, no high surrogate is taken together with one that a low one follows. |
| `reg_remove` reports whether the address was there (`runtime/src/ffi.c:84-85`) | The address 1 reads as a tombstone: with one on its way, `reg_remove(1)` reports success and puts the two counts one off. | `AllocRegistry.OneIsTaken` | `AllocRegistry.Registry.Remove`: right for every address but 1, and for 1 exactly when no tombstone comes before an empty slot. |
| The length written is the message's (`runtime/src/crypto.c:595-599`) | The bit count has 64 bits; for SHA-512, whose field has 128, a message of 2^61 bytes or more is padded with the low half alone, as the comment says. | `DigestDriver.LengthExact` | `DigestDriver.LengthExact`: exactly when the algorithm is not SHA-512 or the bit count is below 2^64. |
| What is printed reads back (`runtime/src/dec.c:621-668`) | Printing moves the point behind the first digit, and so the exponent up, past what a text may have: 12e999999999 prints as 1.2E+1000000000, which parsing refuses. | `DecimalText.PrintsUnreadable` | `DecimalText.Str`: exactly when, its trailing zeros behind the point stripped (`DecimalOps.Normalized`), the decimal's exponents are in range (`DecimalText.InRange`). |

## Model

| member | source | states |
|---|---|---|
| RegexTheorem.Find | runtime/src/regex.c:986-1069 | Compiling a tree and searching from a position: refused exactly when the program would pass 20000 instructions; a match reported lies in the tree's language, no match starts earlier at or after the position, and of those that start there it is the first of the tree's tries, and where no loop's body matches the empty text the first match in the tree's own order; none reported means no substring from there on is in the language; the calls to `addthread` stay under the linear bound. |
| RegexSearch.RxSearch | runtime/src/regex.c:986-1069 | For every well-formed program the two-list machine returns what the memoryless prioritised backtracker returns at the least start, in at most (len - from + 2)(3n + 1) calls to `addthread`, and never leaves its arrays. |
| RegexSearch.StepAll | runtime/src/regex.c:1029-1055 | One sweep over the current list: what the threads would have found one by one, in order, is what the next list finds later, or the match that cut the sweep short. |
| RegexSearch.Machine.AddThread | runtime/src/regex.c:945-980 | Adding a thread does what the memoised closure does: the threads it stops at go on the list in priority order, each instruction at most once, and the capture vector is as it was. |
| RegexSearch.ThreadList.Clear | runtime/src/regex.c:982-985 | Clearing by a new generation leaves no thread and no mark. |
| RegexBacktrack.VisitMemoises | runtime/src/regex.c:945-980 | Skipping marked instructions drops from the full closure exactly the threads that an earlier one of the same instruction precedes, for any marks already closed under the steps that consume nothing. |
| RegexBacktrack.FreshRun | runtime/src/regex.c:945-980 | A thread whose instruction an earlier thread at the same position already has can be dropped without changing what the run finds. |
| RegexTheorem.SearchIsLeftmost | runtime/src/regex.c:986-1069 | The backtracker's answer is a match of the tree at the least possible start, or nothing when the language has nothing there. |
| RegexTheorem.RunFromIsMatch | runtime/src/regex.c:986-1069 | From one start, the backtracker finds a match exactly when the language has one there. |
| RegexTheorem.CapsFree | runtime/src/regex.c:705-777 | Captures record and never restrict: a match exists from any capture vector, and group 0's slots stay as they were. |
| RegexCharacters.DotExact | runtime/src/regex.c:717-726 | What `.` matches, from any start and to any end: one character, as RFC 3629 (section 4) has its first byte and its length, unless it is the newline. |
| RegexCharacters.NegatedExact | runtime/src/regex.c:727-749 | What a negated class matches: one such character, unless it is a single byte among its members. |
| RegexCharacters.NegationApart | runtime/src/regex.c:727-749 | A class and its negation have no match in common, in any text. |
| RegexCharacters.NegationCovers | runtime/src/regex.c:727-749 | At an ASCII byte exactly one of the two matches it: the class if the byte is a member, else the negation. |
| RegexCharacters.DotIsNoNewline | runtime/src/regex.c:717-726 | `.` and the negation of the newline alone have the same matches. |
| RegexCharacters.WellFormedIsOne | runtime/src/regex.c:588-649 | Every well-formed multi-byte UTF-8 sequence is one match of `.` and of every negated class. |
| RegexCharacters.RepeatUnrolls | runtime/src/regex.c:651-703 | A repeat that requires one more matches what the body and then the repeat match, with the same captures. |
| RegexCharacters.RepeatOptional | runtime/src/regex.c:651-703 | A repeat that requires none matches the empty text or the body and then one repeat fewer, and where none is allowed the empty text alone. |
| RegexPriority.SearchIsPreferred | runtime/src/regex.c:24-29 | The match found is the first one tried at the leftmost start that has any, where the tries are listed by the tree alone: a left branch before the right one, another round of a greedy loop before its end and of a lazy one after it, and no point of the tree passed twice without taking a byte in between. |
| RegexPriority.TriesRun | runtime/src/regex.c:945-980 | Wherever a piece of code is laid out, and whatever comes after it, the backtracker goes through its tries in that order and takes the first from which the rest accepts. |
| RegexPriority.TryIsMatch | runtime/src/regex.c:651-777 | Every try is a match of the tree, with its captures. |
| RegexOrder.PreferredInOrder | runtime/src/regex.c:24-29 | Where every round of every loop takes a byte, no point comes up twice: the match found is the first in plain order. |
| RegexOrder.WaysAreMatches | runtime/src/regex.c:651-777 | And then the plain order lists exactly the matches of the tree, captures included. |
| RegexOrder.EmptyRoundsDiffer | runtime/src/regex.c:936-980 | Where a round may be empty the two orders differ: of two bytes `(a*?)*` finds one, because the outer loop comes by the start of the inner one a second time. |
| RegexLoops.LoopsTakeExact | runtime/src/regex.c:651-703 | The test for the plain order is exact: it holds of a tree exactly when no loop in it that can run at all has a body that matches the empty text. |
| RegexPreference.TreeOrder | runtime/src/regex.c:651-777 | Lowering keeps the order of preference as it stands on the tree: a left branch before the right one, of a greedy repeat the runs with another round before the end and of a lazy one after it, counted or not, and each of them in the order of its parts; rounds of an unbounded loop that take no byte left out on both sides. |
| RegexPreference.PreferredIsFirst | runtime/src/regex.c:24-29 | So where no loop's body matches the empty text the match found is the first in the tree's own order, captures included. |
| RegexLayout.AcceptIsMatch | runtime/src/regex.c:544-777 | A path of the compiled program from its start to its match instruction exists exactly when the tree matches that span with those captures. |
| RegexLayout.RunIsPath | runtime/src/regex.c:651-777 | Wherever a piece of code is laid out, each of its runs is a path through the program. |
| RegexLayout.PathIsRun | runtime/src/regex.c:651-777 | And each path that enters it and leaves at its end is made of its runs. |
| RegexLayout.CompiledIsWellFormed | runtime/src/regex.c:544-777 | Every jump, class and save index of a compiled tree is in bounds, and only the last instruction is a match. |
| RegexCompiler.LowerMeaning | runtime/src/regex.c:651-777 | Lowering a tree - counted repeats as copies, optional copies or a loop, dot and negated classes as UTF-8 byte shapes - keeps its meaning. |
| RegexCompiler.CharCoreRuns | runtime/src/regex.c:596-649 | The machine of `emit_utf8_class` matches one ASCII byte of the class, or one lead byte and its continuation bytes. |
| RegexEmitter.Compile | runtime/src/regex.c:526-777 | The patching emitter yields exactly the laid-out program, and gives up exactly when that passes the limit. |
| RegexEmitter.Emitter.EmitNode | runtime/src/regex.c:705-777 | Whatever was emitted before, a tree's code is appended as its layout says, with all jumps patched, or the overflow is set because it does not fit. |
| RegexEmitter.Emitter.EmitRep | runtime/src/regex.c:651-703 | The same for repeats: required copies, then a loop or optional copies that all skip to the one end. |
| RegexEmitter.Emitter.EmitUtf8Class | runtime/src/regex.c:596-649 | The same for one whole character: four branches, whose three jumps meet at the end. |
| RegexApi.FindAll | runtime/src/regex.c:1176-1195 | Every match, in the order in which searching on from each finds them, as one text a group, stated on the capture vector: what lies between the group's two positions, and nothing where it took no part. |
| RegexApi.MatchesScan | runtime/src/regex.c:1176-1195 | In terms of the language alone: each match is leftmost from where the one before it left off, and after the last there is none. |
| RegexApi.MatchesApart | runtime/src/regex.c:1176-1195 | Matches do not overlap, each is in the language, and no match starts in what lies between two of them. |
| RegexApi.CapturesPaired | runtime/src/regex.c:1091-1102 | Every capture lies in the subject, and none ends before it starts. |
| RegexCaptures.GroupIsItsBody | runtime/src/regex.c:1091-1102 | Against the tree: in the match found at a start, each group either took no part, or what lies between its two positions is inside the match and is matched by the group's own body there. |
| RegexCaptures.PassesCharacter | runtime/src/regex.c:1186-1190 | The search after an empty match goes on behind the character that the match stands before, however many bytes it has. |
| RegexApi.Replace | runtime/src/regex.c:1263-1305 | The subject with each match, and nothing else, replaced by the expansion of the replacement; the character an empty match stands before is not lost. |
| RegexApi.ReplaceByWhole | runtime/src/regex.c:1263-1305 | Replacing each match by `$0` gives the subject back. |
| RegexApi.ExpandRepl | runtime/src/regex.c:1196-1261 | `$$`, `$0` to `$9` and `${...}` by number or by the last group of that name; any other byte stands for itself. |
| RegexCaptures.ExpandParts | runtime/src/regex.c:1196-1261 | A replacement spelt from plain bytes, `$$`, `$0` to `$9`, `${n}` and `${name}`, in any order, expands to the texts of these in turn, a group's text being what lies between its two positions in the capture vector. |
| RegexApi.Split | runtime/src/regex.c:1307-1331 | The pieces between the matches that are not empty. |
| RegexApi.SplitWeaves | runtime/src/regex.c:1307-1331 | Splitting loses nothing: the pieces and the matches between them, put together, are the subject. |
| FrameTheorem.RunKeeps | runtime/src/value.c:846-1077 | Every state of every run, with any number of calls, releases and judges interleaved, satisfies the invariant. |
| FrameTheorem.WordIsTally | runtime/src/value.c:9-27 | In every run the count word is the tally: references (of closures held in registers or outside, of dead ones on a worklist, of those in dead containers there, and of who is at work), calls in progress, holds, and a flag that at most one judge has up; and only a thread inside `obj_free` has a worklist. |
| FrameTheorem.ReadsAlone | runtime/src/value.c:886-922 | While a judge reads the registers no call is past `frame_enter`, the owner has returned, and no other judge reads. |
| FrameTheorem.CondemnedRightly | runtime/src/value.c:956-1012 | A garbage verdict that survives the second compare-and-swap is right: every counted reference is a closure's, and each such closure is held by the frame's own registers alone. |
| FrameVerdict.VerdictExact | runtime/src/value.c:976-990 | When garbage must be found: in any run, where the word is as the judge set it, its step from the verdict condemns only if there is a reference and every one is of a closure that a single register holds and nothing outside; and if that is so and the judge passed over no such register, it must condemn. |
| FrameVerdict.AcquitsRightly | runtime/src/value.c:976-990 | So an acquittal means that such a register was passed over, that there is no reference, or that one is not such a closure's. |
| FrameProgress.JudgesRightly | runtime/src/value.c:956-1012 | A judgement that nobody disturbs comes to no end but a verdict, and that is garbage exactly when every reference to the frame is of its own registers' closures. |
| FrameProgress.NeverStuck | runtime/src/value.c:886-1012 | In every state of every run whoever is in the middle of something can go on; only a call that finds the flag up waits, and then the judge who has it up can go on. |
| FrameProgress.IdleCan | runtime/src/value.c:886-955 | Whoever is idle can take up a deferred judgement, call or let go of a closure that somebody outside holds, drain its thread's worklist, and leave `obj_free` once that is empty. |
| FrameProgress.DropsAreJudged | runtime/src/value.c:1014-1077 | Whoever gives up a reference while others remain goes on to judge the frame, unless it is a call that ends or the reaper. |
| FrameProgress.LastHolderJudged | runtime/src/value.c:307-328 | So does whoever, holding the finished frame, leaves a closure with one holder. |
| FrameTheorem.NeverReachedAgain | runtime/src/value.c:956-1012 | A frame found garbage is never called again, and no closure over it is held from outside, ever after. |
| FrameTheorem.ReapedWhole | runtime/src/value.c:991-1007 | From when the judge has been through the registers, no register and nobody outside holds a closure over the frame and nobody uses it; what references are left are exactly those of closures on the worklists of threads inside `obj_free`, dead or in a dead container, and those being given up. |
| FrameTheorem.CollectedWhole | runtime/src/value.c:329-346 | A frame found garbage is collected: once every thread has left `obj_free` and nobody is at work on it, it has been freed, or waits on the deferred list. |
| FrameParked.ReferenceOutlives | runtime/src/value.c:331-334 | Finding: in a run in which the judge is inside `obj_free`, the flag of a condemned frame is down and one reference is left, a parked closure's. |
| FrameTheorem.FreedOnce | runtime/src/value.c:1026-1077 | The frame is freed at most once, exactly when its word is zero, and then nobody holds anything of it and no worklist has anything over it. |
| FrameTheorem.UntouchedOnceFreed | runtime/src/value.c:1026-1077 | No step touches a freed frame. |
| FrameTheorem.NoLostJudgement | runtime/src/value.c:307-328 | For a frame whose function has returned, a drop that leaves because another judge's flag is up is not lost: when the run falls quiet, someone has read the registers after it, or the frame was found garbage, freed, or deferred with its hold. |
| FrameLeaks.NothingLeaks | runtime/src/value.c:307-328 | The collector is complete: when everybody has come to rest and nothing is deferred, a finished frame has been freed, or a closure over it is held from outside or by more than one of its places; in every run in which judges count what they can, callers hold a closure until the call ends, no container loses its last outside holder after the return, and no release drops its count after the return that had read `done` before it. |
| FrameLeaks.JudgementComes | runtime/src/value.c:956-1012 | What that rests on: in every state of every such run in which the frame has no reference but its own and has not been condemned, a judgement that will count all of them is on its way: deferred, about to begin, in progress with nothing missed, or promised by `pending` or by the flag being down. |
| FrameLeaks.ForgottenForEver | runtime/src/value.c:956-1012 | And where such a frame is left with nobody at work and nothing deferred, it is never collected, in any run. |
| FrameReleases.ReleaseJudges | runtime/src/value.c:307-328 | In any run, a release that leaves a closure of a finished frame with one holder goes on to judge the frame exactly when the function had returned before the release began. |
| FrameUnjudged.NeverJudged | runtime/src/value.c:316-327 | Finding: a whole run, with a release that reads `done` before the function returns and drops its count after the judgement of the return, that leaves a frame so. |
| FrameRuns.VerdictIsSound | runtime/src/value.c:776-844 | The step behind CondemnedRightly, in any state that satisfies the invariant. |
| ObjectHeap.Heap.Release | runtime/src/value.c:307-347 | On counts that equal references plus roots, the outermost release terminates, frees exactly the objects no remaining root reaches, each once, and restores the counts; an inner release only parks. |
| ObjectHeap.Heap.ObjFree | runtime/src/value.c:355-535 | Freeing one object releases what it holds without recursion into it: it alone is freed, each newly dead object is parked once. |
| HeapModel.FreedExactly | runtime/src/value.c:266-347 | On an acyclic graph whose counts are right and positive, what is left after pruning is what the roots reach. |
| CopyOnWrite.CowUnique | runtime/src/types.c:216-274 | What is held no more often than the location knows of comes back as it is; else a fresh copy with the same parts, and a Box's struct copied with it.  Every name keeps its value. |
| CopyOnWrite.ShallowCopy | runtime/src/types.c:201-244 | A new object with the original's parts, counted, nothing else changed. |
| CopyOnWrite.SetSlot | runtime/src/value.c:349-354 | Storing over a slot releases what was there, keeps the counts right, and keeps every value that does not go through that slot. |
| CowWrite.OwnInner | runtime/src/types.c:361-383 | Replacing a shared struct inside a Box or newtype by its copy keeps every value, and makes the writer's path one object longer; nothing is shared below it that was not before. |
| CowWrite.OwnDown | runtime/src/types.c:385-400 | Down through Boxes and newtypes to the object written, the same at each. |
| CowWrite.Level | voilac/low/boxcow.voi:290-323 | One level of a write path: it is read, made unique, and the copy written back into what it was read from, with the exact condition carried to the next level. |
| CowWrite.Final | runtime/src/types.c:385-427 | The store: it goes to the object the path's end looks through to, and leaves the graph as that one store says. |
| CowAssign.Names.UniqRoot | voilac/cg/instr.voi:359-400 | Making a name's own value unique leaves every name's value, and the condition, as they were. |
| CowAssign.Names.Walk | voilac/low/boxcow.voi:290-323 | The levels in turn: every value is kept, the path leads to the last level, and it is the writer's alone exactly when the condition held at the start. |
| CowAssign.Names.Assign | voilac/low/boxcow.voi:290-340 | A whole assignment through a name.  It goes through exactly when the path exists.  If the condition on the counts before it holds, the name stands for its old value with that one part replaced, every other name for what it did, and the graph stays acyclic; when the value differs from the one that was there, it acts so only if the condition held.  In every case the graph is acyclic afterwards exactly when the value written did not lead, before, to an object of the path that the assignment leaves in place.  Whether a name or a part holds an object alone is the test that its count is one. |
| CowExact.StoreSeen | runtime/src/types.c:385-427 | A store into an object that something else leads to as well is seen there, if it changes anything. |
| CowCycles.StoreExact | runtime/src/types.c:385-427 | A store at the end of a path leaves the graph acyclic exactly when what is stored led to no object of the path. |
| CowWitness.ReadThroughBoxIsShared | runtime/src/types.c:361-427 | Finding: an assignment through a name holding a Box changes the value of the name that holds the boxed struct. |
| CowWitness.BoxInBoxIsShared | runtime/src/types.c:216-224 | Finding: the same through a Box in a Box. |
| CowWitness.NewtypeIsShared | runtime/src/types.c:201-214 | Finding: the same through a newtype that two names hold, though what it holds has count one. |
| CowWitness.WriteClosesCycle | runtime/src/types.c:311-330 | Finding: `var p = S{..}; var b = Box(p); b.f.back = p`, with an optional edge back, leaves S and what its field holds leading to each other. |
| CowWitness.SharedInsideMends | runtime/src/types.c:361-427 | An object inside a Box with count above one does no harm when the next level is shared too: writing its copy back copies it. |
| DecimalKernels.DivModMag | runtime/src/dec.c:220-254 | Long division of digit strings: a = qb + r and 0 <= r < b. |
| DecimalKernels.MulMag | runtime/src/dec.c:199-217 | The columns and their carries add up to the product. |
| DecimalKernels.AddMag | runtime/src/dec.c:172-184 | The digit string of the sum. |
| DecimalKernels.SubMag | runtime/src/dec.c:186-197 | The digit string of the difference. |
| DecimalKernels.CmpMag | runtime/src/dec.c:162-170 | The sign of the difference, whatever zeros lead. |
| DecimalOps.ReduceExp | runtime/src/dec.c:259-307 | The coefficient at a higher exponent is the nearest, ties to even. |
| DecimalOps.RoundTo | runtime/src/dec.c:312-318 | At most the digits asked for are kept, rounded half-even at the last of them. |
| DecimalOps.Normalize | runtime/src/dec.c:320-333 | The loop computes `Normalized`: the value is kept and, behind the point, trailing zeros are gone. |
| DecimalArith.AddSigned | runtime/src/dec.c:348-383 | The exact sum or difference, rounded half-even at the digit position `round_to` selects, and exact when the digits kept can express it. |
| DecimalArith.Mul | runtime/src/dec.c:388-397 | The same for the product. |
| DecimalArith.Div | runtime/src/dec.c:399-445 | Refused exactly for a zero divisor; the quotient is rounded twice half-even, exact when the digits kept can express it, and within 11/20 of a unit of the last digit kept, which is the place down to which the quotient, rounded half-even to more digits than are kept, has as many digits as are kept. |
| DecimalArith.Idiv | runtime/src/dec.c:447-476 | The floor of the quotient; where it is negative and not whole, that floor limited to the digits kept. |
| DecimalArith.Cmp | runtime/src/dec.c:516-532 | The sign of the exact difference, for any pair of exponents. |
| DecimalArith.Round | runtime/src/dec.c:548-552 | The one multiple of the place that half-even rounding allows, or the number itself when it has no digits below it. |
| DecimalArith.OnlyHalfEven | runtime/src/dec.c:256-307 | Half-even rounding at a place has one result. |
| DecimalValue.HalfEvenOnes | runtime/src/dec.c:281-292 | Half-even at the ones: the nearest integer, and halfway between two the even one. |
| UnwindMachine.Context.Exec | runtime/src/err.c:325-478 | Whatever runs - throws, defers, cleanups, nested calls and handlers - the context with its handler stack ends as the evaluator says: the log, the frames, the cleanups, the exception in flight, and where control goes. |
| UnwindMachine.Context.UnwindTo | runtime/src/value.c:1124-1137 | Unwinding to a handler's depth delivers through each frame above it, whatever their defers throw. |
| UnwindMachine.Context.RunDefers | runtime/src/value.c:1100-1116 | A frame's defers run newest first, each taken off before it runs, and go on after one throws. |
| UnwindMachine.Context.Throw | runtime/src/err.c:462-473 | A throw is delivered to the innermost handler, through every frame above it. |
| UnwindTheorem.CallRunsAll | runtime/src/value.c:1100-1137 | In a call that returns or throws, each deferred closure has run exactly once, each frame entered has been popped once, and each cleanup has run, been finished, or is still owed to the handler, once. |
| UnwindOrder.CallOrderly | runtime/src/value.c:1100-1137 | The events of a call follow the discipline of a stack of open frames: what runs is always the newest closure still waiting in the innermost open frame, and a frame is popped only with none waiting; a call leaves the frames open before it as they were. |
| UnwindTheorem.FaultsUncaught | runtime/src/err.c:416-440 | No handler is ever given a fault. |
| UnwindDelivery.CloseHonest | runtime/src/err.c:398-409 | At a frame's end, what is on its way out is what a handler would be given exactly when, of the closures that run, the last to throw anything leaves with its exception. |
| UnwindDelivery.EvalHonest | runtime/src/err.c:398-409 | The same for whole programs: exactly when every frame the exception passes sends it on unchanged. |
| UnwindDelivery.HandlerGets | runtime/src/err.c:404-440 | A handler is given the exception on its way exactly under that condition. |
| UnwindDelivery.LatestWins | runtime/src/err.c:398-403 | In particular when no defer catches. |
| UnwindDelivery.CatchingDefer | runtime/src/err.c:398-409 | A defer that catches and throws nothing is in nobody's way: the condition holds of it though it catches. |
| UnwindDelivery.DefersFreeDirect | runtime/src/err.c:398-409 | Where no defer catches, every frame sends on what is on its way. |
| UnwindLaws.ContainExact | runtime/src/err.c:592-612 | A recovery point, whatever it is around: a fault that leaves the body it keeps, and goes on; any other exception leaves it as it came if a handler is installed, and else ends the process; without an exception it makes no difference. |
| UnwindLaws.FaultlessRuns | runtime/src/err.c:577-612 | A program in which nothing faults logs no recovery, and does the same under any number of recovery points. |
| UnwindLaws.ContainTransparent | runtime/src/err.c:592-595 | Under a handler, a recovery point around a body in which nothing faults is as good as not there: same log, same exceptions, same end. |
| UnwindLaws.FaultExact | runtime/src/err.c:577-612 | A fault outside every recovery point ends the process; inside one it passes every handler and is kept there. |
| UnwindLaws.HandlerExact | runtime/src/err.c:404-440 | A handler runs only where its body leaves by an exception, is given the one in flight, and sends it on unchanged if it throws it again; past a fault it does not run. |
| UnwindLaws.CleanupsNewestFirst | runtime/src/err.c:404-409 | An exception through any number of natives runs their cleanups, the newest first, before it is caught. |
| UnwindDelivery.DeferOvertakes | runtime/src/err.c:398-440 | Finding: a catch is given the exception that a defer had thrown and caught itself, not the one on its way, even when that one is a fault. |
| TaskGroups.RunKeeps | runtime/src/task.c:35-276 | Every state of every run satisfies the invariant: a group's live count is its unfinished tasks, groups open on a task are linked to their parents, and live groups are rooted. |
| TaskGroups.JoinWaitsForAll | runtime/src/task.c:108-171 | A join ends only when every task ever spawned into the group it joins, by whomever, has finished. |
| TaskGroups.NeverSpawnedAgain | runtime/src/task.c:108-276 | No task is ever spawned into a group that has been joined. |
| TaskGroups.DeliveredError | runtime/src/task.c:108-171 | A join delivers the first failure recorded, or a timeout that carries the failures, and the others once each, in order, as suppressed. |
| TaskWalks.WalksAreSafe | runtime/src/task.c:35-45 | In a run no live task's chain of groups meets a freed one, exactly when no join frees a group above one that has unfinished tasks. |
| TaskEscapes.TidyRunsAreSafe | runtime/src/task.c:35-45 | In particular when a task ends leaving open only groups whose tasks have finished. |
| TaskEscapes.JoinsItsOwn | voilac/low/stmt.voi:1347-1369 | A block's end joins the group that its beginning opened exactly when no exception left an inner block of that task meanwhile. |
| TaskEscapes.BlockWaits | runtime/src/task.c:108-112 | And then every task spawned into the block's group has finished. |
| TaskEscapes.WalkIntoFreed | runtime/src/task.c:175-232 | Finding: a run, with an exception out of an inner block, whose live task has a freed group above it. |
| TaskEscapes.BlockEndsEarly | voilac/low/stmt.voi:1347-1369 | Finding: a run whose block ends while a task it spawned still runs. |
| TaskProgress.NoDeadlock | runtime/src/task.c:118-132 | In every state of every run in which a task is not done, some task that waits for nobody can take a step: no set of joins waits for itself. |
| TaskProgress.JoiningMay | runtime/src/task.c:118-132 | A join can end exactly when the group has no unfinished task, and can time out exactly when it has one and a deadline and is not cancelled. |
| TaskProgress.RunningMay | runtime/src/task.c:96-112 | What a running task can do: begin a group always, spawn exactly inside one, come to a block's end or leave blocks exactly when it is in some, end normally exactly outside all. |
| TaskProgress.CancelledExactly | runtime/src/task.c:78-91 | In every run a group is cancelled exactly when one of its tasks has failed or its join has found the deadline passed. |
| ChannelRing.AcceptsAppends | runtime/src/task.c:328-350 | What the ring accepts is the last of its contents, wherever the head is. |
| ChannelRing.TakesFirst | runtime/src/task.c:376-384 | What it gives up is the first. |
| ChannelRing.Chan.SendPass | runtime/src/task.c:328-350 | A pass of the send loop: refused once closed, cancelled, done, or waiting for room, and what each leaves. |
| ChannelRing.Chan.HandPass | runtime/src/task.c:350-358 | A pass of the loop after it, on an unbuffered channel: done exactly when the value is taken, and waiting exactly when it is not and the channel is neither closed nor its task cancelled. |
| ChannelRing.Chan.TrySend | runtime/src/task.c:360-377 | A send that does not wait: refused, and nothing changed, exactly when the channel is closed, unbuffered or full. |
| ChannelRing.Chan.RecvPass | runtime/src/task.c:386-407 | A pass of the receive loop: a value if there is one, even closed or cancelled; closed only when drained. |
| ChannelRing.SelectPass | runtime/src/task.c:432-477 | A pass of select: the first case that is ready, and only that one, is carried out; the default only when none is; nothing else changes. |
| ChannelRing.WentExact | runtime/src/task.c:432-477 | A receive chosen has the oldest value, or sees the channel closed and empty; a send chosen has put its own value last. |
| ChannelProtocol.Conserved | runtime/src/task.c:313-430 | In every run, what was accepted is what was taken followed by what the ring holds, in order. |
| ChannelProtocol.NeverOverfull | runtime/src/task.c:328-350 | In every run, what was accepted and not yet taken is never more than the capacity: one value when the channel is unbuffered. |
| ChannelProtocol.ClosedAcceptsNothing | runtime/src/task.c:418-428 | Nothing is accepted after close. |
| ChannelProtocol.DrainedBeforeClosed | runtime/src/task.c:386-407 | Who sees a channel closed sees it after everything ever accepted was taken. |
| ChannelProtocol.HandedOver | runtime/src/task.c:350-358 | A send on an unbuffered channel that comes back neither closed nor cancelled has had its own value taken. |
| ChannelProtocol.SenderWaits | runtime/src/task.c:350-358 | Until then its sender waits. |
| ChannelProgress.IdleMay | runtime/src/task.c:328-428 | In every run, what a channel lets a task do, by what it holds: it takes a value exactly when open with room and gives one exactly when it has one, the oldest; closed is seen exactly on a closed and empty channel. |
| ChannelProgress.HandingMay | runtime/src/task.c:350-358 | A sender's wait on an unbuffered channel can end exactly when its value is gone, the channel is closed, or its task is cancelled. |
| JsonParse.DocumentExact | runtime/src/json.c:500-653 | A text is accepted, as a certain tree, exactly when it is that tree written out with space around it and nested at most 512 levels: both directions, for every text and every tree of the grammar. |
| JsonParse.OneTree | runtime/src/json.c:500-653 | So no text has two trees. |
| JsonParse.ValueSound | runtime/src/json.c:637-653 | What the descent finds at a position stands there: space, and the tree as written. |
| JsonParse.ValueComplete | runtime/src/json.c:637-653 | What stands at a position is found there, and no more of the text is taken. |
| JsonGrammar.NumComplete | runtime/src/json.c:500-545 | Every number of the grammar of RFC 8259 is found, to its last digit. |
| JsonGrammar.NumSound | runtime/src/json.c:500-545 | And only those: no leading zero, no bare point or exponent. |
| JsonGrammar.StringComplete | runtime/src/json.c:406-498 | Every string of the grammar is found, to its closing quote. |
| JsonTables.EscapeTable | runtime/src/json.c:444-456 | RFC 8259, section 7: the escapes of two bytes are those of a quotation mark, a backslash, a slash and b f n r t, and no other; the first three decode to themselves, the others to 8, 12, 10, 13 and 9. |
| JsonTables.HexTable | runtime/src/json.c:361-380 | The hexadecimal digits are 0 to 9 and a to f in either case, with their values, and no other byte is one. |
| JsonTables.NumberTable | runtime/src/json.c:500-545 | Section 6: which texts are numbers, byte by byte. |
| JsonTables.DocumentTable | runtime/src/json.c:637-653 | Section 2: a document is one value with white space around it, nested at most 512 levels. |
| JsonTables.ReadsSample | runtime/src/json.c:1183-1222 | The text `{"a\/b": [-12, true]}` is read as the map from `a/b` to the slice of -12 and true. |
| JsonReader.DecodeText | runtime/src/json.c:1183-1222 | Decoding step by step, with a position, a depth and the first error, gives the meaning of the text's tree, or else that error where it was found; accepted exactly when the text is JSON. |
| JsonReader.Parser.JValue | runtime/src/json.c:637-653 | A value, as the grammar has it, with the depth as it was. |
| JsonReader.Parser.JObject | runtime/src/json.c:549-594 | An object's members set in order, the last value of a key counting; or the first error and where. |
| JsonReader.Parser.JArray | runtime/src/json.c:596-626 | An array's elements in order; or the first error and where. |
| JsonReader.Parser.JNumber | runtime/src/json.c:500-545 | An integer that fits 64 bits is an int, any other number the decimal it reads as, refused when its exponent is out of range. |
| JsonReader.Parser.JString | runtime/src/json.c:406-498 | Both ways through a string, the straight copy and the decoding loop, give what its escapes decode to. |
| JsonReader.Parser.JEscaped | runtime/src/json.c:431-498 | The decoding loop stays inside a buffer the size of the string's own span, and the text is no longer than that span. |
| JsonWriter.RoundTrip | runtime/src/json.c:80-336 | Decoding what encoding wrote gives the value back: nil, bools, 64-bit integers, any bytes as strings, slices, and maps with their order, nested at most 512 levels, compact or pretty. |
| JsonWriter.EncodeText | runtime/src/json.c:319-335 | Encoding is refused exactly when the value nests deeper than 512 levels, and what it writes decodes to the value. |
| JsonWriter.Encoder.JsonEnc | runtime/src/json.c:166-175 | At any depth, the text written is the value's spelling, and the flag is up exactly when something below was too deep; the indent never outgrows its buffer. |
| JsonWriter.Encoder.JsonStr | runtime/src/json.c:76-107 | Copying plain runs in one piece writes what escaping byte by byte would. |
| JsonTables.EncodableTable | runtime/src/json.c:176-260 | What the theorems about encoding are for: integers of 64 bits, nil, bools, strings, and slices and maps of such, no key twice. |
| JsonTables.LevelsTable | runtime/src/json.c:166-175 | Levels are counted as nesting: a slice or a map is within one level more than a bound exactly when all it holds is within the bound. |
| JsonTables.WriterTable | runtime/src/json.c:76-107 | What the writer makes of each byte: quotation marks, backslashes and controls escaped, in the short form where there is one, and every other byte as it is. |
| JsonTables.CompactIsTight | runtime/src/json.c:176-182 | Compact output has no white space outside strings, at any depth. |
| JsonTables.PrettyIsLaid | runtime/src/json.c:176-182 | Pretty output has each element and each member on a line of its own, two spaces further in than what holds it, the closing bracket on a line of its own too, a space after each colon, and no other white space. |
| JsonEscapes.DecodeShort | runtime/src/json.c:406-498 | Decoded text is never longer than its source. |
| JsonEscapes.Utf8Exact | runtime/src/json.c:382-404 | The bytes written for a code point are its one well-formed UTF-8 sequence. |
| JsonEscapes.StandardExact | runtime/src/json.c:462-481 | Finding: surrogates pair as they should exactly when the decoder does not come to two high ones and a low one. |
| JsonEscapes.PairTornApart | runtime/src/json.c:462-481 | Finding: a string where it does. |
| HashMap.Map.Set | runtime/src/coll.c:56-83 | Setting a key is setting it in the association list: overwriting keeps place and key, a new key goes last; a set leaves a member alone. |
| HashMap.Map.Get | runtime/src/coll.c:85-92 | A key is found exactly when the list has an equal one, with its value. |
| HashMap.Map.Delete | runtime/src/coll.c:101-122 | Deleting a key deletes it from the list, and the index is rebuilt. |
| HashMap.Map.FindSlot | runtime/src/coll.c:42-54 | A probe ends, at the entry of an equal key if there is one, and else at the empty slot where one would be found. |
| HashMap.Map.Reindex | runtime/src/coll.c:28-40 | Rebuilding puts every entry in use where a probe for it comes, and no other. |
| HashMap.Map.Keys | runtime/src/coll.c:125-131 | The keys, in insertion order. |
| HashMap.Map.Values | runtime/src/coll.c:133-139 | The values, in insertion order. |
| HashMap.Map.Next | runtime/src/coll.c:358-377 | Iteration yields, from any cursor, the first entry not passed yet. |
| AssocList.SetThenFind | runtime/src/coll.c:56-83 | What is set is found, and no other key's entry changes. |
| AssocList.OverwriteKeepsPlace | runtime/src/coll.c:56-83 | Setting a key that is there moves no entry and changes no other one. |
| AssocList.SetAfterDelete | runtime/src/coll.c:56-122 | A key set again after it was deleted goes last. |
| AssocList.DeleteThenFind | runtime/src/coll.c:101-122 | What is deleted is not found, and nothing else changes. |
| AllocRegistry.Registry.Insert | runtime/src/ffi.c:65-82 | The set with the new address; room is made so that half the table stays free, tombstones counted. |
| AllocRegistry.Registry.Remove | runtime/src/ffi.c:84-99 | Whether the address was in the set, and the set without it, for every address but 1; for 1, exactly what happens. |
| AllocRegistry.Registry.Rehash | runtime/src/ffi.c:47-63 | The same set, and no tombstone. |
| AllocRegistry.OneIsTaken | runtime/src/ffi.c:84-99 | Finding: after an address with the same home came and went, 1 is reported as removed. |
| DigestDriver.HashParts | runtime/src/crypto.c:564-646 | A message cut into any parts of any lengths has the digest of the whole: the block function folded over the padded message (FIPS 180-4, sections 5.1 and 5.2; RFC 1321, sections 3.1 and 3.2). |
| DigestDriver.Ctx.Update | runtime/src/crypto.c:564-587 | A part of any length is absorbed: whole blocks are folded in and the buffer holds the rest. |
| DigestDriver.Ctx.Final | runtime/src/crypto.c:604-638 | The padding is the shortest that fits, stays in its array, and leaves the buffer empty. |
| DigestDriver.Hmac | runtime/src/crypto.c:650-690 | HMAC as in section 2 of RFC 2104, for keys shorter than a block, equal to one, or longer. |
| DigestDriver.LengthExact | runtime/src/crypto.c:589-622 | The length field is right exactly when the algorithm is not SHA-512 or the bit count fits 64 bits. |
| DigestMeaning.OneDigest | runtime/src/crypto.c:604-638 | A message has one digest. |
| DigestTables.PaddedExact | runtime/src/crypto.c:604-628 | The padded message in bytes: the message, 0x80, the fewest zeros that make whole blocks with the length, and the length in bits, most significant byte first and in MD5 last; blocks of 64 bytes, and of 128 in SHA-512. |
| DecimalText.Parse | runtime/src/dec.c:73-131 | The decimal of the digits, point and exponent read, or nothing. |
| DecimalText.Str | runtime/src/dec.c:621-668 | In all three notations, what is printed reads back as the number it was printed from, exactly when the exponents of the decimal, its trailing zeros behind the point stripped, are those a text may have. |
| DecimalText.PrintsUnreadable | runtime/src/dec.c:655-667 | Finding: 12e999999999 is accepted, its number prints as 1.2E+1000000000, and that is refused. |
| DecimalText.Fixed | runtime/src/dec.c:670-708 | Exactly so many digits after the point, and it reads back as the number rounded half-even there. |
| DecimalGrammar.ReadsComposed | runtime/src/dec.c:73-131 | The grammar of decimals: blanks, a sign, figures with underscores anywhere before and behind a point, and an exponent with its space and sign; every such text is read, if it has a figure and its exponents are in range, as its figures with the point moved behind the last. |
| DecimalGrammar.ReadIsComposed | runtime/src/dec.c:73-131 | And every text that is read is such a text. |
| DecimalGrammar.NotationExact | runtime/src/dec.c:621-668 | When an exponent is printed, when a point and where, and when a minus, in terms of the number's digits and exponent. |

## Left out

- Regex parsing (the part of `runtime/src/regex.c` before `emit`): trees are given, with capture numbers within the vector.
- Named captures returned as a map, and the list of a pattern's names: each group's text is what `RegexApi` gives by number.
- The growth of arrays in the emitter and the parser's memory: lists grow without failing.
- Weak memory orderings: every atomic operation takes effect at once, in one order.
- FrameTheorem.NoLostJudgement: for frames whose function has returned, because `vl_release` reads `done` before it lowers the count (`runtime/src/value.c:319`), so a release that read too early does not judge.
- Writes to a frame's registers after its function has returned, by frames entered over a captured inner frame that reach it two levels up: only calls over the frame itself write then.
- The nesting of one thread's activities: they interleave freely, and a thread may leave `obj_free` whenever its worklist is empty, so there are more runs here than the C stack allows.
- Reading a register together with the count of the closure in it is one step, and containers of closures count as one extra holder each.
- Budgets of the walk in `self_cycle_only`, and completeness of collecting cycles through shared containers, which the code does not promise: `FrameLeaks.NothingLeaks` is for judges that count what they can and for containers that do not lose their last outside holder after the return.
- FrameLeaks.NothingLeaks: that a call's caller holds the closure until the call ends is assumed of the run, since the model does not say which closure a call is of.
- Which memory an object's storage takes, the per-kind parts freed by `obj_free`, and locks: an object is its kind, count and references.
- Objects with reference semantics (error values, shared boxes, cells) looked through by a write: `CowAssign.Names.Assign` is for paths through structs, containers, Boxes and newtypes.
- Map keys: a container's elements are numbered slots, and adding elements in place is not a write to an existing part.
- Captured variables written under their lock, and the `mut` parameters whose copies the caller makes.
- Decimal powers, remainder, truncation, ceiling, and conversions to and from machine integers and floating point.
- The lowering of `try`/`finally`, control flow that depends on data (programs are unrolled), and what is printed for an exception nobody catches.
- The exit of the process when the main task fails, and a thrown nil, which the runtime does not record as a failure.
- Fairness and time: a deadline may pass at any step, a waiting task may be polled at any step.
- JSON that is converted to a declared type, floats and decimals as input to the encoder, and values of other kinds (structs, enums, tuples, ranges, and what they print as).
- The line and column of a JSON error: the position is kept.
- JsonReader.DecodeText: a decimal is kept as its sign, digits and exponent, before leading zeros are stripped.
- Keys of a map are compared and hashed by functions of which equality of hashes is assumed where keys are equal; `vl_equal` and `vl_hash` do not promise that across kinds.
- AllocRegistry.Registry.Insert: for addresses above 1 that are not in the registry, as an allocator returns them.
- The block functions of the digests, their initial states, and the wiping of keys.
- DecimalText.Fixed: for a number of places that is not negative, as its callers make sure.
- A text is taken up to its first NUL, as a C string.
