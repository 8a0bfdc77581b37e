# Models and proofs for the ADC/DMA capture tools

The repository's host tools decide whether a capture board works: they read
binary frames from a serial console, look for a lost sample in a triangle,
compare two firmware builds, keep a stream running behind a page, rebuild only
what changed, and drive a board through eight blocks. This project models that
logic in Dafny and proves what it is for.

| module | models |
|---|---|
| `TurningPoints`, `LineFit`, `TriEval`, `TriangleFaults`, `TriangleSteps`, `TriangleLengths`, `TriangleCorners`, `TriangleWaves`, `StuckSample` | the triangle evaluator: zigzag, line fits, vertices, the slip test, the step check; whole windows |
| `Crc`, `CrcRemainder`, `GrabFrame`, `FrameRoundTrip`, `WireFormat`, `SerialTarget` | the CRC, the "stream grab" frame, and the console read in arbitrary chunks |
| `FunctionExtents`, `FnCmp`, `Relocation`, `NormalForms` | function bodies from a symbol table, the normal form, one program linked in two places, what equal normal forms tell |
| `StreamBelief`, `BeliefSound`, `StopsFirst` | the page's asynchronous tasks, the port lock, the belief about the stream, what a board is sent |
| `FakeTarget` | the stand-in board: two DACs, a generator, a stream |
| `TraceBuild`, `CleanBuild`, `TracePlan` | the incremental build and its plans |
| `RunLog`, `BoardRun`, `Session`, `StreamBlocks`, `RateBlocks`, `FullSession`, `SessionBoard`, `SessionCommands`, `SessionStream` | the session runner, its log, the board as a script of answers, what it is sent, and the evaluator that reads the log |
| `Trigger`, `ImpactCounter`, `WaveGen`, `Butterworth` (with `ComplexNumbers`) | the trigger, the impact detector, the timer, the bilinear filter design |
| `Common`, `Reals`, `Text` | shared pieces: results, real arithmetic and medians, printed and parsed text |

Floating-point numbers are reals; numpy arrays and byte strings are sequences;
a register of 16 bits is a `bv16`. Where the source loops or changes state there
is a method, tied by its `ensures` to a function, and the properties are lemmas
about that function.

## What turned out false, and when it holds

- A fault on the first two or last two slopes of a triangle can go unseen
  (`TriangleFaults.OuterFaultHides`; whole windows that pass in
  `TriangleWaves.OuterLossPasses`); on slopes 3 to ntp-3, and only there, it is
  certain to be seen (`FaultCertainIff`).
- A header whose application fields repeat an optional name that is absent is
  read back as another header (`FrameRoundTrip.AmbiguousMisread`); all others
  round-trip (`HeaderRoundTrip`).
- A last function without a size inside another one loses the rest of the outer
  function's code (`FunctionExtents.TrailingLosesCode`); otherwise nothing is lost
  (`CoveredCodeIsKept`, both directions).
- Names that contain `+0x..` make two targets look alike
  (`FnCmp.PlusInNameConfuses`); exactly when, replaced or kept, says
  `FnCmp.ReplacedSameIff`.
- The page's belief about the stream goes wrong when a "stream on" to an old
  board comes back after another board was connected
  (`BeliefSound.StaleTaskBreaksBelief`, a run in the lock's own order); exactly
  otherwise it is true (`BeliefSoundIff`), so it is if boards are connected only
  while no "stream on" is queued or sent (`ApartIsSound`).
- A stream the page has forgotten is not stopped before the buffer's size is
  set: the board refuses and keeps its size (`StopsFirst.ForgottenStreamKeepsSize`).
  Exactly then it does (`SizeSetIff`); the same holds of the port's end
  (`ClosedStreamingIff`).
- A deleted header and a write that is not newer than the object are missed by
  the incremental build (`CleanBuild.DeletionMissed`, `SameTimeMissesEdit`);
  exactly which deletions and writes are, whatever the compiler, say
  `CleanBuild.DeletionSafeIff` and `RewriteSafeIff`.
- Two flag lists with the same joined text share a directory of objects, and one
  scenario links the other's (`TracePlan.FlagsCollide`); exactly which scenarios
  collide say `TracePlan.NoCollisionIff` and `CompatibleIff`.
- A reply of the board that looks like a grab line is counted as a grab
  (`SessionBoard.ReplyMiscounted`, a whole session); the counters of a completed
  block agree exactly if there is none (`FullSession.RateCountersIff`,
  `R5CountersIff`).
- For an empty list of samples the trigger's window has one sample and does not
  lie inside it (`Trigger.TriggerWindow`).

The header comment of tools/fncmp.py says a function without a size "runs to the
next FUNC symbol"; the code gives the last one no extent at all, and an alias
without a size is dropped with its extent. The models follow the code.

## Model

| member | source | states |
|---|---|---|
| TriangleFaults.FaultCertainIff | tools/eval_chain.py:231-249 | for 13 or more vertices of equal period: every vertex list with slope s off by a sample (its two vertices arbitrary or missing) reaches the slip limit if and only if 3 <= s <= ntp-3 |
| TriangleFaults.FaultShows | tools/eval_chain.py:231-244 | the median period is still exact and the slip is at least the whole fault |
| TriangleFaults.OuterFaultHides | tools/eval_chain.py:231-244 | on the outer slopes there is a vertex list with that fault and slip 0 |
| TriangleFaults.CleanShowsNothing | tools/eval_chain.py:231-244 | without a fault the slip is exactly 0 |
| TriangleFaults.FaultyWindowFails | tools/eval_chain.py:145-249 | a whole window of samples with one inner slope half a sample off or more is refused by `grid_ok` |
| TriangleSteps.StepCheck | tools/eval_chain.py:201-212 | if the fitted inner slopes are 40 steep on the mean, missing steps are counted exactly if some checked step along a slope is below half its steepness, double ones exactly if one is above one and a half times it; below 40 neither is |
| TriangleSteps.StepFaultRefused | tools/eval_chain.py:201-249 | a window with such a step is refused |
| StuckSample.StuckRefused | tools/eval_chain.py:145-249 | a whole window of steps of 50 in which one sample repeats the one before: a missing and a double step, a slip below 0.5, refused |
| TriangleLengths.CleanWindowLengths | tools/eval_chain.py:220-230 | on a clean window the rising length is that of every rising slope, the falling one that of every falling slope, both together a period, and nothing deviates |
| TriangleCorners.CornersAreTurns | tools/eval_chain.py:153-182 | of a window that rises and falls between known corners by more than the hysteresis, the turning points are exactly the corners |
| LineFit.FitOfBump | tools/eval_chain.py:128-142 | how far one sample off the line moves the fit |
| TriangleFaults.CleanWindowPasses | tools/eval_chain.py:145-249 | a window of straight, evenly spaced slopes is accepted |
| TriangleFaults.OuterFaultPasses | tools/eval_chain.py:145-249 | a window with samples lost on an outer slope that is too short for a fit then is accepted with slip 0 |
| TriangleWaves.InnerLossFails | tools/eval_chain.py:145-249 | whole windows: a triangle of slopes of ten with one sample lost on any of slopes 3 to 10 of 14 is refused |
| TriangleWaves.OuterLossPasses | tools/eval_chain.py:145-249 | the same with the sample lost on slope 1, 2, 11 or 12 is accepted |
| TriangleWaves.WholeWindowPasses | tools/eval_chain.py:145-249 | the same without a loss is accepted |
| TriangleWaves.WindowTurns | tools/eval_chain.py:153-182 | the zigzag of these windows: 13 turning points, at the triangle's corners |
| TriangleFaults.StraightSlopesMeet | tools/eval_chain.py:187-219 | fits of straight slopes intersect at the true vertices, also with samples left out at the corners |
| TriEval.TriEval | tools/eval_chain.py:145-244 | the loops compute the evaluation, for every window, the empty one included |
| TriEval.Judge | tools/eval_chain.py:185-244 | fits, step check, vertices, lengths and slip of one window, in the source's order |
| TriEval.FitSegments | tools/eval_chain.py:187-200 | one fit per slope, trimmed at both ends; the outermost slopes cut to the median length |
| TriEval.CountStepFaults | tools/eval_chain.py:201-212 | the numbers of missing and double steps along the fitted slopes |
| TriEval.Intersections | tools/eval_chain.py:213-219 | a vertex where two neighbouring fits of different slope meet, none elsewhere |
| TurningPoints.FindTurningPoints | tools/eval_chain.py:153-182 | the loop's list is the scan's extrema without a start-up one, capped at 160, overflow exactly beyond |
| TurningPoints.TurningPointsAlternate | tools/eval_chain.py:153-178 | indices increase, peaks and troughs alternate, neighbours differ by more than the hysteresis |
| TurningPoints.AlternationMakesExtrema | tools/eval_chain.py:153-178 | every interior turning point is the extremum of all samples between its neighbours |
| TurningPoints.ScanKeeps | tools/eval_chain.py:153-178 | after every sample the recorded extrema are a zigzag with no reversal over the hysteresis in between |
| TurningPoints.NegatedTurningPoints | tools/eval_chain.py:151-178 | the negated window has the same turning points |
| LineFit.FitLine | tools/eval_chain.py:128-142 | the accumulating loop computes the fit |
| LineFit.FitIsOptimal | tools/eval_chain.py:128-142 | no line has a smaller squared error over the samples than the fit |
| LineFit.FitIsExact | tools/eval_chain.py:128-142 | on collinear samples the fit is that line |
| Reals.MajorityIsMedian | tools/eval_chain.py:236-240 | a value held by more than half of a list is its middle element after sorting |
| SerialTarget.GrabReadsFrame | tools/protocol.py:278-307 | for every chunking, an echo and a frame, any ACK and NAK bytes in the payload included, are consumed exactly and give what was sent |
| SerialTarget.Port.Grab | tools/protocol.py:278-307 | what a grab reads of any answer, what it returns, and that a whole answer times out only with fewer productive reads than bytes |
| SerialTarget.Port.ReadLine | tools/protocol.py:256-265 | one byte at a time to the first line feed and not beyond |
| SerialTarget.Port.ReadExact | tools/protocol.py:267-276 | exactly n bytes, or less only when the deadline has passed |
| SerialTarget.Port.ReadUntilReady | tools/protocol.py:186-196 | returns only when what was read ends in ACK or NAK, and never reads past an answer that does |
| FrameRoundTrip.FrameComesBack | tools/board_run.py:1548-1577 | header, samples and CRC line of a built frame are parsed back as they were; the error names the missing stream or the NAK |
| FrameRoundTrip.HeaderRoundTrip | tools/protocol.py:91-109 | a header without ambiguous fields is read back as it was printed |
| FrameRoundTrip.AmbiguousMisread | tools/protocol.py:91-109 | every other one is read back differently |
| FrameRoundTrip.OkHasNoError | tools/protocol.py:133-146 | success and an error never come together; a good frame has the announced samples and the right CRC |
| FrameRoundTrip.BurstRejected | tools/protocol.py:112-146 | a payload damaged within 16 bits under the good frame's CRC line is refused as a CRC mismatch |
| FrameRoundTrip.SamplesRoundTrip | tools/protocol.py:135-136 | the samples of a payload are the 12 low bits of those packed into it |
| CrcRemainder.CrcIsRemainder | tools/protocol.py:68-75 | the CRC is the remainder of data * x^16 + 0xFFFF * x^(8 n) by x^16 + x^12 + x^5 + 1, as polynomials over GF(2), and no other word is |
| CrcRemainder.CheckValue | tools/protocol.py:78-78 | the CRC of "123456789" is 0x29B1 |
| CrcRemainder.OneZero | tools/protocol.py:68-75 | the CRC of one zero byte is 0xE1F0 |
| WireFormat.HeaderLine | tools/protocol.py:91-94 | a header's text, key by key |
| WireFormat.SampleAt | tools/protocol.py:135-136 | a sample is the low byte and 256 times the high byte, modulo 4096 |
| WireFormat.TailBytes | tools/adc_gui.py:1597-1597 | the end of a frame with the check value's CRC, byte by byte |
| WireFormat.LogLine | tools/board_run.py:288-291 | a line of the log: milliseconds, direction, block, text |
| WireFormat.SummaryLine | tools/board_run.py:468-471 | the line logged for a good grab, key by key |
| Crc.Crc16CcittFalse | tools/protocol.py:68-75 | the byte and bit loops compute the register function |
| Crc.BurstDetected | tools/protocol.py:68-75 | payloads of equal length that differ only within 16 bits never have the same CRC |
| Crc.CrcIsBits | tools/protocol.py:68-75 | the byte-wise CRC is the message's bits shifted in one by one |
| Crc.DifferenceRuns | tools/protocol.py:68-75 | linearity: the difference of two registers is the register of the differing bits |
| Crc.BackToZero | tools/protocol.py:68-75 | a register that k more bits bring to zero has its low 16-k bits clear |
| NormalForms.SameCodeIff | tools/fncmp.py:393-431 | two programs, linked anywhere, compare equal exactly if they have the same functions by name, each with the same instructions: mnemonics, texts, constants, and targets of the same names with the same offsets |
| NormalForms.ReadBackPieces | tools/fncmp.py:417-431 | an operand text of lexed pieces is that of no others |
| FnCmp.ReplacedIffAddress | tools/fncmp.py:393-400 | a covered address is replaced exactly if it is in program memory, or in RAM and no immediate of another mnemonic than "mov.sl" and "mov.l" |
| Relocation.RelocationInvariance | tools/fncmp.py:393-431 | two placements of one program, functions and objects anywhere in their regions, compare equal |
| Relocation.NormalFormOfPlaced | tools/fncmp.py:417-431 | every function's normal form depends on the program alone |
| Relocation.RefResolves | tools/fncmp.py:393-415 | a reference is replaced by its target's name and offset, wherever the target is |
| Relocation.ConstantResolves | tools/fncmp.py:393-415 | a constant outside every symbol, or of a mnemonic that loads no address, is kept |
| Relocation.FunctionFound | tools/fncmp.py:381-385 | an address inside a kept function is found to be that function's, aliases or not |
| Relocation.PairComparesEqual | tools/fncmp.py:449-481 | an instance: a caller and its callee linked in either order compare equal |
| FnCmp.Compare | tools/fncmp.py:449-481 | exit code 0 exactly if both have the same functions with the same normal forms; the differing ones are listed |
| FnCmp.TargetsDistinguished | tools/fncmp.py:393-415 | inside one function two different symbol-covered addresses never become the same text, replaced or kept, if the names of their two symbols are clear |
| FnCmp.ReplacedSameIff | tools/fncmp.py:393-415 | when two operands with symbol-covered addresses become the same text: both kept with the same digits, one address of the function, or names and offsets that look the same |
| FnCmp.SameTextIff | tools/fncmp.py:402-409 | when two names with offsets print the same |
| FnCmp.PlusInNameConfuses | tools/fncmp.py:402-405 | a name with an offset in it does make two addresses the same text |
| FunctionExtents.CoveredCodeIsKept | tools/fncmp.py:351-365 | every instruction inside a kept function reaches a body if and only if no sizeless last function lies inside another |
| FunctionExtents.BodiesPartition | tools/fncmp.py:351-365 | the bodies together hold every covered instruction exactly once |
| FunctionExtents.TrailingLosesCode | tools/fncmp.py:241-247 | the instance that loses code |
| FunctionExtents.Split | tools/fncmp.py:351-365 | the loop cuts the listing into the bodies, in order |
| FunctionExtents.ExtendZeroSize | tools/fncmp.py:241-247 | symbols without a size end at the first start above theirs |
| FunctionExtents.DedupeAliases | tools/fncmp.py:251-260 | the first symbol of every address is kept |
| FunctionExtents.FunctionsEndRight | tools/fncmp.py:241-260 | a kept function ends after its size or, without one, at the next kept function |
| BeliefSound.BeliefSoundIff | tools/adc_gui.py:3934-3976 | over every interleaving from the start: whenever the port is free and a board connected, the belief is the board's stream, if and only if no stale "stream on" returns to another board |
| BeliefSound.OneCycleAtATime | tools/adc_gui.py:3962-3966 | over every interleaving at most one cycle is under way, and the busy flag says exactly whether |
| BeliefSound.StepKeepsBelief | tools/adc_gui.py:3829-3976 | every step of every task keeps the belief's invariant |
| BeliefSound.HarmBreaksBelief | tools/adc_gui.py:3946-3952 | a stale return leaves a wrong belief at once |
| BeliefSound.StaleTaskBreaksBelief | tools/adc_gui.py:3465-3498 | such a run exists, the lock handed over in order: while a command runs, a disconnect and then a DAC button queue; the new board is connected before the old one's "stream on" returns |
| BeliefSound.ApartIsSound | tools/adc_gui.py:3934-3976 | if boards are connected only while no "stream on" is queued or sent, the belief is true throughout |
| StopsFirst.StreamOffFirst | tools/adc_gui.py:3842-3846 | over every run: a task that is to set the buffer or close the port, and takes the lock while a stream is believed in, has its board execute "stream off" before anything else is executed |
| StopsFirst.BufMeetsStreamIff | tools/adc_gui.py:3839-3846 | over every run: when "buf" is executed no stream is believed in, and the board streams exactly if it did unknown to the client when the lock was taken |
| StopsFirst.SizeSetIff | tools/adc_gui.py:3829-3850 | over every run: the size asked for is set exactly if not |
| StopsFirst.ClosedStreamingIff | tools/adc_gui.py:3476-3489 | over every run: the same of a port that is closed |
| StopsFirst.StopStops | tools/adc_gui.py:4183-4188 | over every run: when a stop returns its board streams no more and no stream is believed in |
| StopsFirst.StreamOnFirst | tools/adc_gui.py:3934-3972 | over every run: the first thing a cycle's board executes for it is "stream on" with its input, unless the client believed in exactly that input; then it is the grab |
| StopsFirst.BufferWaits | tools/adc_gui.py:3840-3842 | over every run: a buffer task goes for the lock only while no cycle is under way |
| StopsFirst.ForgottenStreamKeepsSize | tools/adc_gui.py:3647-3649 | a run in which the page forgets a stream and the buffer's size is refused |
| FakeTarget.BufSizesGrabs | tools/adc_gui.py:1444-1460 | when a size is accepted, and that the grabs of the next stream are of two halves and begin at the first |
| FakeTarget.DacOnIff | tools/adc_gui.py:1406-1443 | when a triangle is accepted, what it leaves on its DAC and on the other one, and that it ends the generator on its own |
| FakeTarget.RateIsNearest | tools/adc_gui.py:1174-1182 | the rate is 160 MHz over the nearest whole number, 4 at least, rounded to the nearest |
| FakeTarget.UsualRates | tools/adc_gui.py:1174-1181 | the rates played for 1000, 3000, 4000, 8000 and 50000 ksps |
| FakeTarget.DacHasOneOwner | tools/adc_gui.py:1406-1443 | in every reachable state no DAC has two owners, DAC2's user flag implies a running test stream |
| FakeTarget.GrabsAlternate | tools/adc_gui.py:1537-1543 | whatever else is sent, the grabs of one stream take its two halves in turn, of constant size |
| FakeTarget.GrabReturnsWindow | tools/adc_gui.py:1514-1597 | a grab of a running stream gives the window's samples; a corrupted one is always a CRC mismatch |
| FakeTarget.StreamUntouched | tools/adc_gui.py:1365-1465 | no other command changes what is streamed |
| FakeTarget.FakeTarget.Cmd | tools/adc_gui.py:1365-1512 | every command's acceptance and whole new state |
| FakeTarget.FakeTarget.Grab | tools/adc_gui.py:1514-1597 | the frame of a grab and the new state |
| CleanBuild.RunIsClean | tools/trace_build.py:336-346 | after any history of edits, additions, deletions of sources and objects, and runs, every linked object of a run equals a compilation from scratch; failures are real |
| CleanBuild.ThirdRunCompilesNothing | tools/trace_build.py:169-181 | a good run repeated twice without edits: the third compiles nothing |
| CleanBuild.SecondRunCompiles | tools/trace_build.py:155-181 | the second compiles exactly what is older than its directory's table object |
| CleanBuild.SafeIff | tools/trace_build.py:169-181 | a change is safe for an object with every compiler if and only if it makes the object stale or leaves all its compilation reads as it was |
| CleanBuild.DeletionSafeIff | tools/trace_build.py:162-181 | a deletion is missed exactly if the file is a header, or a generated file that is no object, and not the source itself |
| CleanBuild.RewriteSafeIff | tools/trace_build.py:169-181 | a changed file is missed exactly if the compilation reads it and its time is not above the object's |
| CleanBuild.SameTimeMissesEdit | tools/trace_build.py:169-181 | the instance of `RewriteSafeIff` with equal timestamps |
| CleanBuild.DeletionMissed | tools/trace_build.py:162-181 | the instance of `DeletionSafeIff` with a header |
| TraceBuild.Tree.Compile | tools/trace_build.py:336-346 | in whatever order, exactly the stale jobs are compiled, failures leave the old object |
| TraceBuild.Tree.Merge | tools/trace_build.py:336-340 | of two jobs for one object the first stays |
| TraceBuild.EditKeepsInv | tools/trace_build.py:169-181 | an edit makes everything stale that was made from the file |
| TraceBuild.DeletionKeepsInv | tools/trace_build.py:169-181 | deleting a source or an object, the table object included, keeps every object that is older than none of its inputs right |
| TracePlan.PlanScenario | tools/trace_build.py:206-251 | the plan of one scenario |
| TracePlan.PlanLinksItsJobs | tools/trace_build.py:206-251 | everything a scenario links is in its plan |
| TracePlan.PlanLinksAll | tools/trace_build.py:206-251 | a scenario links exactly what its plan makes |
| TracePlan.SharedFlagsIff | tools/trace_build.py:217-217 | the shared tier's flags are those that name no scenario feature |
| TracePlan.PlansMakeRecipes | tools/trace_build.py:336-340 | plans without collisions give the fixed recipes the clean build needs |
| TracePlan.NoCollisionIff | tools/trace_build.py:206-251 | no two plans disagree about an object exactly if any two scenarios make each object they share, by tier and name, from one file with the same flags and header directory |
| TracePlan.CompatibleIff | tools/trace_build.py:215-251 | for scenarios whose firmware files are not named like the harness's: exactly if a common shared tier means common flags, header directory and files by stem, and a common own tier common flags and header directory |
| TracePlan.FirstObjectLinked | tools/trace_build.py:336-340 | of two scenarios that share an object a clean run links the first one's; it is right for the second exactly if both jobs give the same |
| TracePlan.SameObjectIff | tools/trace_build.py:196-203 | two jobs give the same with every compiler exactly if source, flags, headers and generated headers are the same |
| TracePlan.FlagsCollide | tools/trace_build.py:215-220 | an instance: flags that join to the same text, and the second scenario links a recorder compiled with the first one's flags |
| FullSession.VerdictsAgree | tools/eval_board.py:156-162 | the log of a completed session shows each block's end once, in order, and the evaluator reads the runner's verdicts |
| FullSession.RunSession | tools/board_run.py:725-755 | for every board: outcome, log and stored frames as the script of its answers and grabs determines them; the evaluator reads from the printed log the runner's verdicts, and the sums over the board's grabs of every completed block exactly if no reply in it looks like a grab line |
| SessionCommands.BlockSends | tools/board_run.py:492-722 | for every block and board: what is sent, as literal commands and grabs in order, up to and including the first that is not answered; a verdict other than "timeout" exactly if all are answered |
| SessionStream.LogIsHeard | tools/board_run.py:345-354 | in every session, stopped or not, the log's TX lines are what the board heard, in order |
| SessionStream.SentInSession | tools/board_run.py:725-755 | the TX lines of a block or sub-block in a completed session's log are what that block sent |
| SessionStream.SentInR5 | tools/board_run.py:696-722 | R5's TX lines: "stream on" with the input asked for, ten grabs if accepted, "stream off" |
| SessionStream.SentInR4 | tools/board_run.py:602-693 | R4's: for each rate its own "stream on", 50 grabs if accepted, "stream off"; for the GUI its eight commands and ten grabs |
| SessionStream.SentInOthers | tools/board_run.py:492-567 | the other blocks': three commands in R0, one in each other block the board has |
| SessionStream.StreamLeftOff | tools/board_run.py:663-722 | after any number of blocks of which R4 and R5 did not time out, a stand-in board that heard the session streams no more |
| FullSession.RateCountersIff | tools/eval_board.py:252-276 | for every sub-block R4 completed, also if a later one timed out: the evaluator's counters equal the sums over the board's grabs if and only if no reply of the board in it looks like a grab line |
| FullSession.R5CountersIff | tools/eval_board.py:252-276 | the same for a completed R5 |
| FullSession.SessionStored | tools/board_run.py:570-596 | one stored frame for each bad grab of the session, R4 and R5 together, and no two names alike |
| SessionBoard.RatesAreTheBoards | tools/board_run.py:663-682 | which grabs and replies of the board a completed sub-block counts, by their places in its script |
| SessionBoard.SessionCompletes | tools/board_run.py:725-755 | a session completes whatever is accepted, refused or left unanswered, given three replies to R0 and no broken answer among 24 answers and 170 grabs |
| SessionBoard.SessionStops | tools/board_run.py:492-520 | it stops if R0 is not replied to three times |
| SessionBoard.ReplyMiscounted | tools/eval_board.py:252-276 | a board whose session completes with no grab in R5 and is counted some |
| RateBlocks.RunR4 | tools/board_run.py:651-693 | verdict, log, completed rates and stored frames; ok if and only if `R4Good` holds of the board's answers and grabs |
| RateBlocks.R4OkIff | tools/board_run.py:651-693 | R4 is ok exactly if there is a stream, the six commands are accepted, 150 grabs are good with their triangle, and the GUI's sub-block is good if there is one |
| RateBlocks.R4Proper | tools/board_run.py:651-693 | one block end; every completed sub-block's counters in the log are those of its grabs and its replies, whatever comes later |
| RateBlocks.RatesFromBoard | tools/board_run.py:663-682 | the grabs of a completed sub-block are the board's next ones, its replies the board's answers to its commands |
| RateBlocks.RunGui | tools/board_run.py:602-648 | the GUI's commands, as the script of answers determines; good if and only if `GuiGood` holds |
| RateBlocks.GuiOkIff | tools/board_run.py:602-648 | good exactly if every command but the second "buf" is accepted and that one answered, the first size read, ten grabs good and of the size set, and that size reported while streaming |
| StreamBlocks.RunR5 | tools/board_run.py:696-722 | verdict, log, grabs and stored frames as the board's script determines; ok exactly if both commands are accepted and the next ten grabs are good |
| StreamBlocks.R5Proper | tools/board_run.py:696-722 | the verdict, one block end, and the counters of a completed R5: the board's next ten grabs and its replies to both commands |
| StreamBlocks.StreamEnds | tools/board_run.py:663-674 | when a stream from "on" to "off" ends, when it is good, and which grabs and replies of the board it holds |
| StreamBlocks.StreamFits | tools/board_run.py:663-674 | cut short or not, it adds to its own block's counters its grabs and the replies that look like grab lines, and nothing elsewhere |
| StreamBlocks.StreamGrabs | tools/board_run.py:570-596 | the grabs returned are the board's next n, or how the first missing one failed; each is logged and, if bad, stored under the next name |
| StreamBlocks.StoredNamesUnique | tools/board_run.py:592-595 | no two stored frames have the same name |
| StreamBlocks.StoredForBad | tools/board_run.py:592-595 | one stored frame for each bad grab |
| Session.RunR0 | tools/board_run.py:492-520 | the lines logged, and a verdict exactly if all three commands are replied to: ok if all are accepted |
| Session.RunSimpleBlock | tools/board_run.py:523-546 | the lines logged, and the verdict for every answer |
| Session.RunR2 | tools/board_run.py:549-567 | the same with the end marker: accepted and ended, or fail, timeout, not available |
| Session.R0Proper | tools/board_run.py:492-520 | exactly one block end with that verdict, no count elsewhere, three answers used |
| Session.SimpleProper | tools/board_run.py:523-546 | the same, with the one answer used only if the command was sent |
| Session.HandleTimeout | tools/board_run.py:420-465 | every line logged, in order, for each way a reset can go |
| Session.ResetQuiet | tools/board_run.py:420-465 | none of them ends a block or counts in another one |
| Session.Send | tools/board_run.py:345-354 | the command, the reply line by line and ACK or NAK are logged; without a reply only the command |
| Session.SentEffect | tools/board_run.py:345-354 | a command adds to its block's counters exactly its reply's lines that look like grab lines |
| BoardRun.ReadBack | tools/eval_board.py:132-144 | block ends and counters read from the printed log are those of the entries logged |
| RunLog.ParsePrint | tools/eval_board.py:127-144 | a printed entry is parsed back as itself, for texts of one line; what happens to others |
| RunLog.VerdictIsFirstEnd | tools/eval_board.py:156-162 | the search finds a block's first end |
| RunLog.SummaryCounted | tools/board_run.py:468-472 | a logged grab is counted for what it was |
| RunLog.ParseLogLines | tools/eval_board.py:132-144 | the loop keeps the lines that parse, in order |
| RunLog.FindBlockVerdict | tools/eval_board.py:156-162 | the loop finds the block's verdict or "missing" |
| RunLog.GrabFamilyCounters | tools/eval_board.py:252-276 | the table has exactly the family's blocks with a grab line, each with its sums |
| Butterworth.MatchesAnalog | tools/sigproc_design.py:106-120 | the cascade's squared response on the unit circle is the analog prototype's, low-pass and high-pass, every W > 0 and t > 0 |
| Butterworth.CascadeMagnitude | tools/sigproc_design.py:57-72 | the same without division, at t = 0 too |
| Butterworth.PowerComplementary | tools/sigproc_design.py:57-72 | low-pass and high-pass of one cut-off share the power |
| Butterworth.SectionStable | tools/sigproc_design.py:57-72 | every section's poles lie inside the unit circle |
| Butterworth.LpHp | tools/sigproc_design.py:57-72 | the loop gives one section per coefficient |
| Butterworth.Response | tools/sigproc_design.py:106-112 | the loop multiplies the sections' responses |
| Trigger.FindTriggers | tools/trigger.py:40-69 | the loop reports all crossings up to the search end |
| Trigger.FiresIff | tools/trigger.py:40-69 | a sample is a crossing exactly if it is at the level, an earlier one is below the hysteresis and none between has reached the level |
| Trigger.FirstCrossing | tools/trigger.py:72-74 | the first hit is the least sample at the level after one below the hysteresis; none is reported exactly if there is none |
| Trigger.CrossingsSeparated | tools/trigger.py:40-69 | between two crossings there is a re-arming sample |
| Trigger.FractionInRange | tools/trigger.py:64-68 | the fraction is in (0, 1] without the clamp |
| Trigger.HitAtLevel | tools/trigger.py:63-69 | at every crossing, rising or falling, the straight line between the two samples is at the level where the fraction says |
| Trigger.FallingIsMirrored | tools/trigger.py:51-69 | falling crossings are the rising ones of the negated signal |
| Trigger.NoisySlopeFiresOnce | tools/trigger.py:46-48 | a rising slope with noise of half the hysteresis fires once at most |
| Trigger.TriggerWindow | tools/trigger.py:77-90 | the width is the length asked for, kept within 1 and the samples; the window lies inside the samples exactly if there are any |
| ImpactCounter.FakeCounter.Block | tools/gui_app.py:106-134 | one block runs the detector over every fourth magnitude of the resonator and keeps the largest; an empty one is an error |
| ImpactCounter.ResonatorTurns | tools/gui_app.py:107-119 | the resonator's two values hold a complex amplitude that each sample turns, damps and adds the signal's step to |
| ImpactCounter.RingsDown | tools/gui_app.py:107-119 | while the signal stands still the square of that amplitude falls by d squared a sample |
| ImpactCounter.PeakIsLargest | tools/gui_app.py:123-123 | the peak kept is the largest of the one before and the scaled magnitudes |
| ImpactCounter.RearmBetweenCounts | tools/gui_app.py:124-133 | between two counts the magnitude falls below 0.49 of the peak since, or the re-arm level, and rises past the trough over 0.49 |
| ImpactCounter.CountsAtMostHalf | tools/gui_app.py:124-133 | m evaluations count (m + 1)/2 times at most |
| ImpactCounter.ConstantCountsOnce | tools/gui_app.py:124-133 | a constant magnitude counts once at most, from any state |
| ImpactCounter.SplittingDoesNotMatter | tools/gui_app.py:106-134 | cutting the magnitudes into blocks changes nothing |
| WaveGen.Sccp2Rate | tools/wavegen_model.py:75-85 | the prescaler loop, its divisions by zero included |
| WaveGen.RateBounds | tools/wavegen_model.py:75-85 | for clk >= play >= 1: a positive period, and each of three roundings off by half its divisor at most |
| WaveGen.SmallestPrescaler | tools/wavegen_model.py:80-83 | no smaller prescaler fits |
| WaveGen.PrescalerFits | tools/wavegen_model.py:80-83 | the chosen one fits, or is the last |
| WaveGen.TooFastFails | tools/wavegen_model.py:79-85 | no tick is left, so the division by the period fails, exactly when half the play rate, rounded up, is above the clock |

## Left out

- TriEval.TriEval: samples are integers and sums exact reals; IEEE rounding is not modelled.
- SerialTarget.Port.Grab: a deadline is any point of a script of reads, not a clock; the console transcript is left out.
- SerialTarget.Port.ReadUntilReady: the other commands that use it (`cmd`, `sync`, `ping`) are left out; they add only text filtering.
- Relocation.RelocationInvariance: a placement keeps every function's extent, so a function without a size must keep its distance to the next one.
- FunctionExtents.CoveredCodeIsKept: "inside" means inside a kept function; the extent of an alias without a size beside a sized function is dropped with the alias, as in the code.
- FunctionExtents.DedupeAliases: the sort by address and size that precedes it is the library's; its result is required as input.
- NormalForms.SameCodeIff: names and literal labels hold no ">" and do not end like an offset, and no text between hex tokens ends in "+" or "#"; where they do, two different lines can print the same.
- SessionCommands.BlockSends: the bytes a reset sends (`cli_reset`) are no commands of the log.
- SessionStream.StreamLeftOff: a timed-out block sends no "stream off"; it resets the board, and what the board does then is left out.
- FnCmp.Compare: the order of the report, unified diffs, `--func` and `--indirect` are left out; literal labels (a CRC-32 of the bytes) are a parameter.
- BeliefSound.BeliefSoundIff: no transport failures and no cancelled commands; a newly connected board does not stream yet.
- FakeTarget.FakeTarget.Cmd: commands are structured values; their text form and the reply lines are left out (a sampling time that is no numeral is the value 0 the code takes it for). Whether the generator's table can be made is a parameter of the command.
- FakeTarget.FakeTarget.Grab: the synthetic samples, the overrun counters, the slope and the signal-processing fields of the header are parameters.
- CleanBuild.RunIsClean: deletions of headers and generated files and writes with old times are outside the histories, as `DeletionSafeIff` and `RewriteSafeIff` say; the generated headers count as files that are edited (`ensure_header` is left out).
- TracePlan.PlanScenario: include directories follow from the header directory; linking, running and comparing traces are left out.
- Session.RunR0: the capabilities a board's help text advertises are a parameter instead of being parsed from the reply.
- StreamBlocks.StreamGrabs: the triangle evaluator's verdict on a grab and the figures logged with it are part of the board's script; the stored content is the frame.
- FullSession.RunSession: flashing, prompts, zip files and the second board's run are left out; so are the A/B differences and the expectations of the evaluator. Times in the log are arbitrary.
- RateBlocks.RunGui: the list of lengths after "buf 512 not in effect" is left out.
- SessionBoard.SessionCompletes: 24 answers and 170 grabs are enough; a session in which blocks are skipped or refused needs fewer, and `OutcomeOf` in `RunSession` says exactly when it completes.
- RunLog.ParseLogLines: white space is ASCII's.
- Butterworth.Response: the complex product is returned; its absolute value (a square root) is left out, and `MatchesAnalog` is about its square.
- Butterworth.MatchesAnalog: magnitudes are squared, W = tan(pi fc) and the analog coefficients are parameters; the band-pass (numerical roots) is left out.
- ImpactCounter.FakeCounter.Block: the displayed peak is kept squared (no square root); coefficients, scale and squared thresholds are parameters.
- WaveGen.Sccp2Rate: clock and play rate are natural numbers; waveform tables and their alignment are left out.
- Trigger.TriggerWindow: the length is an integer already.
- User interface, charts, pin and board tables, project generators and FFT are left out: they hold no hard claim.
- The firmware itself (`cli.c`, `capture.c`, `pingpong.c`, `chaintest.c`) is not part of this model; the stand-in boards take its place.
