# A verified model of the application library

The project models five parts of the library and proves what each of them keeps.

**The windowed text editor** (`ListIdx*`, `FlatEditor`, `TextBox*`). A `ListIdx` is a scrolling
cursor: seven unsigned words whose window moves over a list. `ListIdxState` holds its operations as
functions on those words, wrap-around included; `ListIdxClass.ListIdx` is the class with the same
fields, each method proved equal to its function; `ListIdxLaws` shows that the position behind the
seven words behaves as one clamped integer. A `TextBox` keeps two such cursors and a text in step.
`FlatEditor` is the independent description: a text and two plain integers. The main theorem,
`TextBoxRuns.RunRefines`, says for every run of keys, pastes and selections when the box shows what
the flat editor shows: after every prefix of the run, if and only if no step removes a selection
in a way that lets a scrolled window outgrow the text. The text may be longer than the length limit
as long as no replacement leaves it so; from a text within the limit every run qualifies. `TextBoxView` and `TextBoxClass.TextBox.Print`
do the same for the cells on the screen.

**The thread pool** (`ThreadPool`, `ThreadPoolLaws`, `ThreadPoolRounds`, `ThreadPoolShutdown`,
`ThreadPoolBroker`, `ThreadPooling`). A machine whose steps are the
locked sections of the broker, of the workers and of those who commit processes; the answers of
`progress()` are part of a step and may be anything. The invariant holds in every reachable state and
gives conservation, the quality of dispatching, round robin and the drained shutdown;
`ThreadPoolShutdown` shows that a shutdown can be completed from every such state.
`ThreadPoolBrokerClass.Broker` and `ThreadPoolingClass.Internal` are the broker's and the worker's loops
with their lists changed in place, interrupted by the other threads at every lock; each keeps that
everything done so far, by whomever, is a run of the machine.

**The resource locks between processes** (`ResourceLocks`, `ResourceLockCalls`, `LockDir`). A machine
of try-flock, check, create, un-flock and release steps of any number of processes, proved to refine an
atomic table of locks; `LockDirClass.LockDir` has the two functions with their loops.

**The byte pumps of a child process** (`Sinks`, `SinkNodes`, `FileExecuting`). The kernel's `read` and
`write` answer anything; their number and the latest answer are on record, so the
contracts say what a tick must ask for. What was sent is at all times a prefix of the source; what the sinks hold is
a function of what was read, and that function tiles the stream.

**Parsers and printers** (`Hex`, `Url`, `UrlLaws`, `HttpRequesting`). Hexadecimal text and URLs, each
with its inverse. URL components carry the names of section 3 of RFC 3986.

`Words` (machine words), `Decimals`, `Keys` (user keys) and `Results` are shared by these parts.

Where the code does not do what one would expect, the model follows the code:

- Deleting a selection can move the cursor when the low end is in a scrolled window and the text
  becomes shorter than the window (`TextBoxScenarios.DeleteCanShift` gives one, `TextBoxLaws.ReplaceRefines`
  says exactly when).
- A text beyond the length limit gets into the focus; the first replacement on it that leaves more than the
  limit wraps the free space around, and sizes and text disagree (`TextBoxLaws.ReplaceNeedsRoom` says exactly
  when, `TextBoxUnfocused.OverlongPaste` gives the texts).
- A resize in focus can put the cursor under a scroll marker (`TextBoxHighlights.ResizeHidesCursor`;
  `ListIdxLaws.WinSetMargins` says exactly when the margins survive).
- While the scroll margins hold, and with bounds as `winSet` sets them, exactly the selected characters
  are highlighted; otherwise the highlight can run on (`TextBoxView.HighlightExact` says exactly when,
  `TextBoxHighlights.HighlightRunsOn` gives keys that lead there).
- Ctrl-X without focus clears the text and leaves the cursors alone; sizes and text then disagree exactly
  if there was a text, and the old text is still handed out (`TextBoxUnfocused.CutUnfocused`,
  `TextBoxUnfocused.UnfocusedStep`).
- One call of `sysFlagsIntUnlock` releases every second entry of a list of even length and steps past the
  end of a list of odd length, which is undefined (`LockDirClass.LockDir.SysFlagsIntUnlock`); a call that names a flag twice breaks the
  exclusion (`ResourceLockCalls.RepeatBreaks`).
- A URL re-assembled without path is parsed wrongly exactly when its queries hold a '/'
  (`UrlLaws.ParseReassembled`).
- A sink behind a buffer sink starts with the whole chunk that filled it, so whenever it gets anything
  their contents overlap (`Sinks.BuffersOverlap`).
- A write that would block counts as failed and ends the input of the child with some of it unsent
  (`FileExecutingClass.FileExecuting.IntSend`, `FileExecutingClass.FileExecuting.Run`).

## Model

| member | source | states |
|---|---|---|
| ListIdxLaws.AbsInRange | ListIdx.cpp:212-220 | the absolute position is offset plus cursor without wrap and inside the list; the end is reached exactly when the window covers it |
| ListIdxLaws.IncLaw | ListIdx.cpp:350-366 | one step down is +1 clamped to the last entry; true exactly if the position changed; validity and scroll margins stay |
| ListIdxLaws.DecLaw | ListIdx.cpp:368-379 | one step up is -1 clamped to 0, with the same reply and invariants |
| ListIdxLaws.IncNLaw | ListIdx.cpp:381-389 | a jump of n is +n clamped, true exactly if the position changed |
| ListIdxLaws.DecNLaw | ListIdx.cpp:391-399 | a jump back of n is -n clamped, true exactly if the position changed |
| ListIdxLaws.ResetLaw | ListIdx.cpp:276-286 | position 0, true exactly if it was another one |
| ListIdxLaws.CursorEndLaw | ListIdx.cpp:288-303 | the last entry, and the margins hold afterwards whatever they were |
| ListIdxLaws.ListKeyLaw | ListIdx.cpp:160-200 | for every key: one or a page down or up, front or end, clamped, anything else nothing; which listed characters switch a key off; true exactly if the position changed |
| ListIdxLaws.SizeJumpLaw | ListIdx.cpp:105-108 | a page is at least one entry, and that is how far the page keys go |
| ListIdxLaws.ResizeLaw | ListIdx.cpp:75-103 | a new size clamps the position, plus the exact drag of a scrolled window that outgrows its list, and the window only moves as far as the list got shorter |
| ListIdxLaws.ResizeKeeps | ListIdx.cpp:88-103 | a position that still exists is kept if and only if the offset was 0, the list still fills the window, or it is the last one |
| ListIdxLaws.InsertLaw | ListIdx.cpp:401-405 | size and position grow by one; the window moves along exactly from the upper bound on |
| ListIdxLaws.InsertNLaw | widgets-term/TextBox.cpp:497-498 | n insertions move size and position by n and keep the margins |
| ListIdxLaws.PrevEraseLaw | ListIdx.cpp:435-448 | erasing before the cursor takes one off size and position, and nothing at the front; says where the window goes |
| ListIdxLaws.CurrEraseLaw | ListIdx.cpp:419-433 | erasing at the cursor takes one off the size and keeps the position unless it was the last one; says where the window goes |
| ListIdxLaws.ByHand | ListIdx.cpp:305-348 | scrolling moves the window by one within the list with the cursor in its cell; moving the cursor leaves the window |
| ListIdxLaws.WinSetLaw | ListIdx.cpp:61-73 | a new window keeps the state usable and sets bounds that spare the edge cells from three cells on; says where the cursor goes |
| ListIdxLaws.WinSetMargins | ListIdx.cpp:61-73 | exactly when a new window starts with the scroll margins kept |
| ListIdxLaws.NoWindow | ListIdx.cpp:276-379 | without a window nothing moves down, while steps up and the reset still do |
| ListIdxLaws.CursorVisible | ListIdx.cpp:61-103 | with those bounds the cursor cell is never the one of a scroll marker |
| ListIdxClass.ListIdx.constructor | ListIdx.cpp:44-53 | the initial words |
| ListIdxClass.ListIdx.SetWin | ListIdx.cpp:61-73 | the whole new state is the one of `WinSet` |
| ListIdxClass.ListIdx.SetSize | ListIdx.cpp:75-79 | the whole new state is the one of `SizeSet` |
| ListIdxClass.ListIdx.CheckSanity | ListIdx.cpp:88-103 | the whole new state is the one of `SanityCheck` |
| ListIdxLaws.LboundLaw | ListIdx.cpp:110-119 | a lower bound only decides from which cell, clamped to the window, a step up scrolls instead of moving the cursor; says exactly when the margins survive |
| ListIdxLaws.UboundLaw | ListIdx.cpp:121-130 | an upper bound only decides from which cell a step down scrolls; says exactly when the margins survive |
| ListIdxLaws.CursorBoundLaw | ListIdx.cpp:132-142 | the same distance from both ends; exactly when the bounds are ordered and when they spare the edge cells, wrap of the greatest bound included |
| ListIdxLaws.TextModeLaw | ListIdx.cpp:144-148 | a step scrolls with the cursor in its cell exactly as long as something is hidden on that side |
| ListIdxClass.ListIdx.Reset | ListIdx.cpp:276-286 | new state and reply |
| ListIdxClass.ListIdx.SetCursorEnd | ListIdx.cpp:288-303 | new state and reply |
| ListIdxClass.ListIdx.Inc | ListIdx.cpp:350-366 | new state and reply; true exactly if something changed |
| ListIdxClass.ListIdx.Dec | ListIdx.cpp:368-379 | new state and reply; true exactly if something changed |
| ListIdxClass.ListIdx.IncJump | ListIdx.cpp:381-389 | the loop of mutating steps is `IncN` |
| ListIdxClass.ListIdx.DecJump | ListIdx.cpp:391-399 | the loop of mutating steps is `DecN` |
| ListIdxClass.ListIdx.Insert | ListIdx.cpp:401-405 | the whole new state |
| ListIdxClass.ListIdx.CurrErase | ListIdx.cpp:419-433 | new state; true exactly for a non-empty list |
| ListIdxClass.ListIdx.PrevErase | ListIdx.cpp:435-448 | new state; true exactly behind the first place |
| ListIdxClass.ListIdx.KeyProcess | ListIdx.cpp:160-200 | new state and reply for every key, disabled keys included |
| FlatEditor.Fitting | widgets-term/TextBox.cpp:472-500 | the longest prefix of an insertion that the length limit allows |
| FlatEditor.WordRight | widgets-term/TextBox.cpp:534-577 | the least place behind the cursor that is the end or starts a boundary after a word, none before it |
| FlatEditor.WordLeft | widgets-term/TextBox.cpp:534-577 | the greatest place in front of the cursor that is the start or starts a word after a boundary, none behind it |
| FlatEditor.ReplaceSplices | widgets-term/TextBox.cpp:472-500 | the text around the selection stays, the insertion stands between it as far as the limit allows, both ends behind it |
| TextBoxState.CursorJumpMoves | widgets-term/TextBox.cpp:534-577 | the character-wise loop ends on the word boundary, and the front cursor made exactly that many steps |
| TextBoxState.CollapsedInRange | widgets-term/TextBox.cpp:472-487 | after the selection is gone the cursor is inside the remaining text |
| TextBoxLaws.CollapsedPlace | widgets-term/TextBox.cpp:472-487 | where the two ends meet: at the low end if and only if it keeps its place, else dragged by a stated distance |
| TextBoxLaws.ReplaceNeedsRoom | widgets-term/TextBox.cpp:472-500 | a replacement leaves sizes and text in agreement, and the box in order, if and only if what the selection leaves is within the limit |
| TextBoxLaws.ReplaceOverruns | widgets-term/TextBox.cpp:489-499 | otherwise the free space wraps around: everything is inserted, the loop runs 2^64 less the excess times, and both lists end up with limit + 1 entries |
| TextBoxLaws.ReplaceKeepsOrder | widgets-term/TextBox.cpp:472-500 | with room the text is the shortened one with the fitting prefix at one place and both cursors right behind it |
| TextBoxLaws.ReplaceRefines | widgets-term/TextBox.cpp:472-500 | with room the replacement is a splice of the flat editor if and only if the low end keeps its place |
| TextBoxLaws.JumpRefines | widgets-term/TextBox.cpp:534-577 | the front cursor lands on the word boundary of the flat editor; changed exactly if that is another place |
| TextBoxLaws.MoveRefines | widgets-term/TextBox.cpp:502-525 | every navigation key sends the front cursor where the flat editor goes, every other key nowhere |
| TextBoxLaws.NavigateRefines | widgets-term/TextBox.cpp:502-532 | with shift only the front moves, without both; the reply is exact |
| TextBoxLaws.BackspaceRefines | widgets-term/TextBox.cpp:231-246 | without selection the character before the cursor goes and both cursors step back; nothing happens at the front; says where the window goes |
| TextBoxLaws.DeleteRefines | widgets-term/TextBox.cpp:248-272 | without selection the character at the cursor goes and the cursors stay; nothing happens at the end; says where the window goes |
| TextBoxLaws.TypeRefines | widgets-term/TextBox.cpp:274-299 | a character is inserted at the cursor if and only if the mode and the limit allow it; says where the window goes |
| TextBoxLaws.KeyRefines | widgets-term/TextBox.cpp:187-300 | any key on any focused box: same reply as the flat editor; the invariants are kept if and only if a replacing key has room, and then the result is the same if and only if the removed selection keeps its place |
| TextBoxRuns.SelectRefines | widgets-term/TextBox.cpp:105-125 | `selectionSet` selects the flat range if and only if 16 bits reach it, for every start and length |
| TextBoxRuns.StepRefines | widgets-term/TextBox.cpp:177-300 | one key, paste or selection keeps the invariants if and only if it fits, and then refines the flat step if and only if it is aligned |
| TextBoxRuns.RunKeeps | widgets-term/TextBox.cpp:78-300 | every run whose steps fit keeps sizes equal to text length + 1, cursors in range and the scroll margins, and the text does not grow beyond the limit |
| TextBoxRuns.LimitFits | widgets-term/TextBox.cpp:78-300 | from a text within the limit every run fits and stays within the limit |
| TextBoxRuns.RunRefines | widgets-term/TextBox.cpp:78-300 | box and flat editor show the same after every prefix of a fitting run if and only if every step is aligned |
| TextBoxRuns.WideBoxTracks | widgets-term/TextBox.cpp:78-300 | a box wider than its length limit tracks the flat editor over every run |
| TextBoxScenarios.CutPaste | widgets-term/TextBox.cpp:177-202 | cut and paste back within the limit: cursors at the old high end if and only if the cut kept its place, and then the old text; of a longer text only the limit comes back |
| TextBoxScenarios.NumbersStayNumbers | widgets-term/TextBox.cpp:274-299 | runs of keys in numbers-only mode keep an all-digit text |
| TextBoxScenarios.FocusIn | widgets-term/TextBox.cpp:78-103 | taking the focus starts the flat editor behind the accepted text, however long, margins established |
| TextBoxScenarios.FocusOut | widgets-term/TextBox.cpp:78-103 | leaving publishes the edited text, inside and as handed out, or drops it and leaves both as they were; both cursors are reset and nothing else changes |
| TextBoxScenarios.WidthKeeps | widgets-term/TextBox.cpp:55-70 | a resize changes width and windows only, below 4 nothing; it keeps the box valid and sets bounds that spare the edge cells; says exactly when the margins hold after a resize in focus |
| TextBoxScenarios.DeleteCanShift | widgets-term/TextBox.cpp:248-254 | from the focus on ten characters in eight cells, Left and five times Shift-Left: Delete then moves the cursor away from where the selection began |
| TextBoxUnfocused.NarrowReached | widgets-term/TextBox.cpp:55-70 | a width of 12 and a text of ten characters make the box of `DeleteCanShift` |
| TextBoxView.CharPens | widgets-term/TextBox.cpp:369-403 | the pen switched at the ends of the selection is the one the character needs |
| TextBoxView.MarkerPens | widgets-term/TextBox.cpp:355-367 | a scroll marker leaves the pen alone |
| TextBoxView.FramedShow | widgets-term/TextBox.cpp:321-424 | with margins held the cursor is on a character, underlined alone, and a character is highlighted if and only if it is selected |
| TextBoxView.HighlightExact | widgets-term/TextBox.cpp:321-424 | in any focused box, highlights are exact if and only if no marker hides the high end before a visible character |
| TextBoxView.UnfocusedShow | widgets-term/TextBox.cpp:321-424 | without focus the cells are the accepted text, or one star for each character, with blanks behind it, markers at hidden ends, and neither cursor nor highlight |
| TextBoxView.Frames | widgets-term/TextBox.cpp:326-424 | which characters frame and padding show with and without focus |
| TextBoxHighlights.HighlightRunsOn | widgets-term/TextBox.cpp:321-424 | with a cursor bound of 0, keys from the focus on lead to a box in which every visible character behind the selection is highlighted |
| TextBoxHighlights.RunShows | widgets-term/TextBox.cpp:321-424 | after any fitting run since the focus, with the bounds of `winSet`: each cell shows its marker or character, exactly the selected characters are highlighted, the cursor alone is underlined and never under a marker |
| TextBoxHighlights.ResizeHidesCursor | widgets-term/TextBox.cpp:55-70 | seven characters in eight cells, resized to four in focus: the cursor is under the right marker |
| TextBoxClass.TextBox.constructor | widgets-term/TextBox.cpp:32-51 | an empty unfocused box with two separate cursors of window 10 |
| TextBoxClass.TextBox.SetWidth | widgets-term/TextBox.cpp:55-70 | the whole new state |
| TextBoxClass.TextBox.SetFocus | widgets-term/TextBox.cpp:78-103 | the whole new state |
| TextBoxClass.TextBox.SetSelection | widgets-term/TextBox.cpp:105-125 | the two loops over mutating steps give the state of `SelectionSet` |
| TextBoxUnfocused.CurrentSetLaw | widgets-term/TextBox.cpp:146-156 | without focus both cursors are fitted to the new text, in focus the editing goes on untouched; the next focus starts behind the new text |
| TextBoxUnfocused.WorkSetLaw | widgets-term/TextBox.cpp:158-169 | in focus the flat editor stands behind the new text with margins held; without focus the text is lost on the next focus or accepted on demand |
| TextBoxUnfocused.UnfocusedStep | widgets-term/TextBox.cpp:105-229 | exactly which steps without focus leave sizes and text in agreement, and the text with what is handed out |
| TextBoxUnfocused.UnfocusedKey | widgets-term/TextBox.cpp:187-229 | without focus only Ctrl-X and Ctrl-C are taken; both copy the text that is handed out |
| TextBoxUnfocused.UnfocusedSelect | widgets-term/TextBox.cpp:105-125 | where a selection without focus puts both ends, the 16-bit wrap included |
| TextBoxUnfocused.CursorBoundsLaw | widgets-term/TextBox.cpp:72-76 | a cursor bound is set at both cursors and moves neither |
| TextBoxUnfocused.CutUnfocused | widgets-term/TextBox.cpp:192-202 | Ctrl-X without focus empties the text and leaves the cursors and what is handed out; sizes and text then disagree exactly if there was a text |
| TextBoxUnfocused.OverlongPaste | widgets-term/TextBox.cpp:146-183 | any text beyond the limit (65 characters with the limit of the constructor) gets into the focus, and the first paste makes sizes and text disagree |
| TextBoxClass.TextBox.Paste | widgets-term/TextBox.cpp:177-183 | the whole new state, focused or not; in focus the box stays valid if and only if there was room |
| TextBoxClass.TextBox.KeyProcess | widgets-term/TextBox.cpp:187-300 | the whole new state and the reply for every key, focused or not; the box stays valid if and only if a replacing key has room |
| TextBoxClass.TextBox.Print | widgets-term/TextBox.cpp:321-424 | exactly one cell per window column between frame and padding, each with its character, marker, highlight and cursor |
| TextBoxClass.TextBox.PrintCell | widgets-term/TextBox.cpp:355-404 | one cell and the pen it leaves behind |
| TextBoxClass.TextBox.SetClipboard | widgets-term/TextBox.cpp:457-470 | in focus the clipboard becomes the selected text, empty without a selection; without focus it becomes the accepted text as handed out |
| TextBoxClass.TextBox.SelectionReplace | widgets-term/TextBox.cpp:472-500 | erase, resize through the aliased cursor and the 64-bit insert loop give the state of `SelectionReplace`; the box stays valid if and only if there was room |
| TextBoxClass.TextBox.Navigate | widgets-term/TextBox.cpp:502-532 | the whole new state and the reply |
| TextBoxClass.TextBox.CursorJump | widgets-term/TextBox.cpp:534-577 | terminates with the front cursor on the word boundary; true exactly if it moved |
| TextBoxClass.TextBox.ListIdxLow | widgets-term/TextBox.cpp:579-583 | the returned object is the cursor in front, the front one if both are equal |
| TextBoxClass.TextBox.ListIdxHigh | widgets-term/TextBox.cpp:585-589 | the returned object is the other cursor, the back one if both are equal |
| ThreadPool.InitInv | ThreadPooling.cpp:102-131 | a pool with its workers started satisfies the invariant |
| ThreadPool.StepInv | ThreadPooling.cpp:132-319 | every step of broker, workers and committers keeps the invariant |
| ThreadPool.AddInv | ThreadPooling.cpp:302-308 | a hand-over keeps every worker's queue in dispatch order and its counters right |
| ThreadPool.WorkerStepOk | ThreadPooling.cpp:238-271 | a worker's own step loses no process, invents none and never raises its load |
| ThreadPoolLaws.RunInv | ThreadPooling.cpp:132-319 | the invariant holds after every interleaving |
| ThreadPoolLaws.ExactlyOnePlace | ThreadPooling.cpp:217-271 | every committed process is in exactly one of pipe, broker, one request list, one drive list, finished |
| ThreadPoolLaws.OnlyItsWorker | ThreadPooling.cpp:217-236 | a dispatched process is with the worker it was dispatched to |
| ThreadPoolLaws.NothingElse | ThreadPooling.cpp:217-271 | only committed processes are anywhere |
| ThreadPoolLaws.CountersAgree | ThreadPooling.cpp:238-308 | outside a retirement the load is the length of both lists, and load + finished are the processes dispatched to the worker |
| ThreadPoolLaws.DispatchQuality | ThreadPooling.cpp:217-294 | over every interleaving the chosen worker's load before the hand-over is at most every worker's load at scan start |
| ThreadPoolLaws.DesiredKept | ThreadPooling.cpp:226-234 | a valid desired worker gets the process whatever happens meanwhile |
| ThreadPoolLaws.DesiredAlways | ThreadPooling.cpp:217-319 | in every run a process committed for a worker goes to that worker if it goes anywhere |
| ThreadPoolRounds.CalmStep | ThreadPooling.cpp:132-319 | without retirements and desired workers only a hand-over changes the loads, and it goes to the first of the least loaded workers, whatever happened since the scan began |
| ThreadPoolRounds.BalancedStays | ThreadPooling.cpp:217-294 | in every run without retirements and desired workers, loads that differ by at most one stay so |
| ThreadPoolRounds.RoundRobin | ThreadPooling.cpp:217-294 | in every such run from equal loads, request t goes to worker t mod w, however broker, workers and committers are interleaved |
| ThreadPoolRounds.RoundsExist | ThreadPooling.cpp:217-236 | such runs exist for any number of requests in the pipe |
| ThreadPoolLaws.ShutdownDrains | ThreadPooling.cpp:154-215 | a shutdown that succeeded left every dispatched process finished and all lists empty |
| ThreadPoolLaws.PipeStays | ThreadPooling.cpp:154-215 | from the shutdown on nothing leaves the pipe and nothing is dispatched |
| ThreadPoolShutdown.ShutdownCompletes | ThreadPooling.cpp:154-271 | from every state that keeps the invariant the steps of broker and workers lead to Positive, without any commit; from a pool at work with every process finished that was ever committed |
| ThreadPoolShutdown.FinishProgress | ThreadPooling.cpp:186-271 | a cancelled worker that is not done can always make a step, and if the processes have nothing left to do each round of its list leaves it less |
| ThreadPoolShutdown.DrainProgress | ThreadPooling.cpp:217-294 | a broker that is not told to shut down can always make a step towards an empty pipe |
| ThreadPoolLaws.ScanAlone | ThreadPooling.cpp:273-294 | an undisturbed scan reads every load and changes nothing else |
| ThreadPoolLaws.DispatchAlone | ThreadPooling.cpp:217-236 | an undisturbed request goes to the first least loaded worker and to no other |
| ThreadPoolLaws.RunOn | ThreadPooling.cpp:132-319 | a run of the machine goes on by any possible step and keeps the invariant |
| ThreadPoolBrokerClass.Broker.IdDriverNextGet | ThreadPooling.cpp:273-294 | the scan loop, with the others at work between any two reads, is the machine's scan and selects its worker |
| ThreadPoolBrokerClass.Broker.ProcInternalAdd | ThreadPooling.cpp:302-308 | the chosen worker gets the ticket at the end of its list and one more in its counter, no other worker changes, and this is a step of the machine |
| ThreadPoolBrokerClass.Broker.ProcAdd | ThreadPooling.cpp:310-319 | a commit with its desired worker goes to the end of the pipe |
| ThreadPoolBrokerClass.Broker.Dispatch | ThreadPooling.cpp:222-235 | one request leaves the pipe and reaches one worker, the desired one if it exists |
| ThreadPoolBrokerClass.Broker.PoolRequestsProcess | ThreadPooling.cpp:217-236 | everything that was in the pipe is handed over in order whatever the others do, and the loop is a run of the machine that ends on an empty pipe |
| ThreadPoolingClass.OthersLeave | ThreadPooling.cpp:132-319 | no step of another thread touches what a worker drives; its requests only grow, and its load with them |
| ThreadPoolingClass.Internal.ProcInternalAdd | ThreadPooling.cpp:302-308 | the request in the broker's hand goes to the end of the list, as a step of the pool |
| ThreadPoolingClass.Internal.DriveOne | ThreadPooling.cpp:248-270 | one process is driven or retired, the others keep their order, and the pool makes a run whatever the other threads do |
| ThreadPoolingClass.Internal.ProcsDrive | ThreadPooling.cpp:238-271 | a pass keeps exactly the processes that made progress, in order, finishes exactly the others, ends a shutdown exactly when nothing is left, and with everything the others do is a run of the pool |
| ResourceLocks.StepInv | LibFilesys.cpp:405-526 | every step of any process keeps flags, lists and the flock consistent |
| ResourceLocks.StepRefines | LibFilesys.cpp:405-526 | every step is one acquisition of free names, one give-up, or no change of an atomic lock table |
| ResourceLocks.RunInv | LibFilesys.cpp:405-526 | the invariant holds after every interleaving |
| ResourceLocks.MutualExclusion | LibFilesys.cpp:405-526 | no flag is held by two processes; one process at most is in the critical section; a Positive call created all its flags after seeing them absent, a Pending one none |
| ResourceLockCalls.LockAlone | LibFilesys.cpp:405-486 | an undisturbed call on absent flags takes them all and answers Positive |
| ResourceLockCalls.RefusedAlone | LibFilesys.cpp:428-447 | an undisturbed call that finds a flag takes none, answers Pending and leaves the flock |
| ResourceLockCalls.AnsweredAtOnce | LibFilesys.cpp:405-426 | a call that finds the flock held answers Pending, one that cannot take it fails, and neither changes anything else |
| ResourceLockCalls.OthersHeldOff | LibFilesys.cpp:405-486 | in every run during which one process stays inside, no call of another is granted, no flag appears and nobody gets more flags |
| ResourceLockCalls.RepeatBreaks | LibFilesys.cpp:405-526 | a name requested twice lets two processes hold the same flag |
| LockDirClass.OddsStay | LibFilesys.cpp:515-525 | half of a list stays; a list that the iterator does not leave keeps nothing only if it was empty |
| LockDirClass.HalvesAt | LibFilesys.cpp:515-525 | the first entry is released, the second one stays, and so on |
| LockDirClass.Halves | LibFilesys.cpp:515-525 | what is released and what stays is together the whole list |
| LockDirClass.LockDir.SysFlagsIntLock | LibFilesys.cpp:405-486 | Positive and Pending exactly when they should; flags, list and map change for Positive only; the flock is left as it was |
| LockDirClass.LockDir.SysFlagsIntUnlock | LibFilesys.cpp:488-526 | the iterator leaves the list exactly for odd lengths; otherwise the map forgets all entries, flags and list every second one; everything is released inside the list if and only if it was empty |
| Sinks.AllTiled | FileExecuting.cpp:616-717 | over every run of reads the sinks hold windows of the stream, each starting with the chunk that filled the sink before it |
| Sinks.ChunkTiled | FileExecuting.cpp:673-716 | one more chunk keeps the tiling, early return included |
| Sinks.NothingLost | FileExecuting.cpp:673-716 | a string sink holds the stream from some byte on, and the buffers have room for no more than what is in front of it |
| Sinks.StringsWhole | FileExecuting.cpp:702-705 | without buffer sinks every string sink grew by exactly what was read |
| Sinks.FirstBuffer | FileExecuting.cpp:673-699 | the first buffer sink with room holds the first min(len, n) bytes |
| Sinks.BuffersOverlap | FileExecuting.cpp:616-717 | of any two neighbouring sinks with room the second gets something if and only if the first is full, and then it starts with the chunk that filled the first, so they overlap |
| Sinks.OverlapOfOneRead | FileExecuting.cpp:673-699 | one read of two bytes is enough for that |
| SinkNodes.BufferSink.Append | FileExecuting.cpp:681-693 | copies as much as fits behind the bytes already there |
| SinkNodes.OutputNode.Deliver | FileExecuting.cpp:671-704 | one chunk to all sinks is `Received`; tells whether the pass went through |
| FileExecutingClass.FileExecuting.IntSend | FileExecuting.cpp:1298-1342 | writes until all is through, the kernel takes nothing more or a write fails; a prefix went through and is counted unless a write failed, and then the write end is closed and some of the data unsent; without data, readiness or descriptor nothing happens |
| FileExecutingClass.FileExecuting.AutoSource | FileExecuting.cpp:465-503 | a tick writes the next 512 bytes, or what is left, as far as the pipe takes them; the source is done exactly when a write failed or everything went through; what was sent stays a prefix |
| FileExecutingClass.FileExecuting.AutoSourceDone | FileExecuting.cpp:601-614 | closes once and only once |
| FileExecutingClass.FileExecuting.Send | FileExecuting.cpp:1284-1296 | a manual input gets what `IntSend` does; with a source, or without manual input, nothing happens |
| FileExecutingClass.FileExecuting.IntSinkRead | FileExecuting.cpp:1365-1413 | nothing is asked of a node that cannot be read; otherwise one read, whose answer decides reply, bytes and counter: bytes, nothing now, or the end; the descriptor is closed if and only if the kernel answered end of file, an error, or nothing to read from a child that is gone |
| FileExecutingClass.FileExecuting.SinkRead | FileExecuting.cpp:1349-1363 | a manual output gets what `IntSinkRead` does; with sinks, or without manual output, nothing happens; the other output is left alone |
| FileExecutingClass.FileExecuting.AutoSink | FileExecuting.cpp:616-717 | an output with sinks that is not done is read 22 bytes at a time until nothing comes, a buffer has room left or 23 reads are made, and is done exactly when the last answer ends it; the sinks are `ReceivedAll` of everything read |
| FileExecutingClass.FileExecuting.ChildStateRecord | FileExecuting.cpp:405-463 | every event of the child is recorded and nothing else changes; terminated exactly after an exit or a signal, failed exactly for a wait that broke or an unknown status |
| FileExecutingClass.FileExecuting.CreatePipes | FileExecuting.cpp:165-195 | fails exactly if the system refuses a descriptor; otherwise every output has its own write end, and a read end exactly if somebody reads it |
| FileExecutingClass.FileExecuting.StartParent | FileExecuting.cpp:271-318 | closes the write ends of the outputs, and the input unless a source or the caller feeds it; fails exactly if a descriptor that is kept stays blocking; both pumps are ready in the next state and, by the invariant `Control`, in no earlier one |
| FileExecutingClass.FileExecuting.Supervise | FileExecuting.cpp:328-355 | a tick pumps all three nodes, the end of the input first, and records the child; finished if and only if the child is gone and both outputs are closed |
| FileExecutingClass.FileExecuting.Process | FileExecuting.cpp:100-355 | the state machine: exactly when a tick fails, which state follows, Positive exactly for a child that is gone with both outputs closed, and in that state every tick pumps all three nodes |
| FileExecutingClass.FileExecuting.Run | FileExecuting.cpp:328-355 | any run with any number of calls between its ticks: sent is a prefix of the source; when the input is done and the caller did not end it, all was sent if and only if no write failed; an output is done only after an answer that ends it; sinks as `ReceivedAll` says |
| Hex.DecodeEncoded | LibDspc.cpp:244-299 | decoding the encoding of bytes gives the bytes |
| Hex.EncodedByte | LibDspc.cpp:244-260 | a byte has two digits, the high one first |
| Hex.EncodedJoined | LibDspc.cpp:244-260 | the bytes keep their order |
| Hex.EncodeDecoded | LibDspc.cpp:244-299 | encoding the decoding of any string gives it in lower case, with a leading '0' for an odd length |
| Hex.LowerFacts | LibDspc.cpp:276-286 | of a hexadecimal digit only the case changes |
| Hex.DigitMeaning | LibDspc.cpp:244-299 | the ten digits and the six letters, in both cases, stand for 0 to 15 |
| Hex.NoDigit | LibDspc.cpp:276-286 | whatever is no digit counts as 0 |
| Hex.ToHexStr | LibDspc.cpp:244-260 | the loop gives the encoding |
| Hex.ToHex | LibDspc.cpp:262-299 | the loop with its half bytes gives the decoding |
| Url.UrlToParts | LibDspc.cpp:601-675 | the two moving indices give the parts of `Parsed` |
| Url.PortAndHost | LibDspc.cpp:648-675 | the backward scan finds the last ':' |
| UrlLaws.AtoiDecimal | LibDspc.cpp:660-665 | the number read back from its decimal digits |
| UrlLaws.AtoiOf | LibDspc.cpp:660-665 | leading spaces, one sign and decimal digits are read as their number, whatever follows the digits |
| UrlLaws.AtoiNone | LibDspc.cpp:660-665 | a text without leading number reads as 0 |
| UrlLaws.ParseAssembled | LibDspc.cpp:601-675 | parsing protocol://host[:port]/path[?queries] returns these parts if and only if the last '?' starts the queries |
| UrlLaws.ParseBare | LibDspc.cpp:601-675 | a URL without protocol, host[:port][/path][?queries], parses to its parts with an empty protocol if and only if nothing in it looks like the end of a protocol, the last '?' starts the queries and they cannot pass for a path: they hold no '/', or behind a port just one at their end and no ':' |
| UrlLaws.SlashBehindPort | LibDspc.cpp:601-675 | without a path, a '/' in the queries does no harm behind a port exactly if it is their last character and no ':' is among them |
| UrlLaws.ParseReassembled | HttpRequesting.cpp:343-360 | parsing the re-assembled URL returns the four parts and port 0 if and only if the path is not empty or the queries hold no '/' |
| UrlLaws.ParseMisled | HttpRequesting.cpp:343-360 | otherwise, and for any URL without path, with or without a protocol, the host comes out too long |
| UrlLaws.ParseMismarked | LibDspc.cpp:628-636 | any other '?' moves the queries or the path |
| HttpRequestingClass.ForwardedAssembled | HttpRequesting.cpp:267-360 | a full URL is handed on with its four parts and without its port; that URL parses to the same parts if and only if the path is not empty or the queries hold no '/', and then handing it on again changes nothing |
| HttpRequestingClass.DefaultsLaw | HttpRequesting.cpp:277-285 | the port given counts; else https and a URL without protocol have 443, anything else 80; without protocol it is https |
| HttpRequestingClass.HttpRequesting.Process | HttpRequesting.cpp:264-366 | every tick keeps the fields equal to the parts with their defaults; which state follows, resolved or not; fails exactly without handle or URL; the URL handed on is the re-assembled one |
| HttpRequestingClass.HttpRequesting.UrlReAsm | HttpRequesting.cpp:343-360 | the string built up piece by piece |

## Left out

- UTF-8: a character stands for one code point, and the conversions of `KeyUser.cpp` for the identity on valid text.
- A window of 0 cells (a width of 4 with frame and padding): the laws of movement are for a window of at least 1; `ListIdxLaws.NoWindow` says what is left of movement without one.
- The state of a box after a replacement without room, beyond its text and sizes (`TextBoxLaws.ReplaceOverruns`): the runs are followed up to there, because the loop of almost 2^64 insertions does not end in practice.
- Texts of 2^31 - 1 characters and more: the 32-bit sizes of the lists cannot hold them.
- TextBoxClass.TextBox.CursorJump: for texts below 65536 characters, because the code counts in 16 bits; `Countable` asks for that at word jumps only.
- The setters for length limit, numbers-only and password mode, frame and padding of the text box: one assignment each.
- `clipboard`, `dirty`, `sizeDisplayed` and the read accessors of the text box, the printing functions and the operators `++`, `+=`, `--`, `-=` of `ListIdx`: plumbing over what is modelled.
- Escape sequences: output is a list of tokens (glyph, reset, selection, underline, content), not their bytes.
- LockDirClass.LockDir.SysFlagsIntUnlock: promises nothing about flags, list and map once the iterator has left a list of odd length, because the language leaves that undefined.
- ThreadPoolLaws.ShutdownDrains: starts from a complete set of workers; the creation of the set and a shutdown in the middle of it are not part of this model.
- ThreadPoolBrokerClass.Broker.PoolRequestsProcess: the other threads commit any given number of processes during one call, but not without end; the loop of the code would then not return.
- `Processing`, `Transfering` and `Pipe` are not part of this model; the pipe is a FIFO list, the tree tick and `progress()` an arbitrary answer.
- ResourceLocks.MutualExclusion: calls with distinct names, one calling thread and one open file description per process; flag files appear and vanish as asked. `RepeatBreaks` shows what repeated names do.
- Flag files left behind by a process that ended without releasing them: they stay taken forever, as in the code.
- The parts of `LibFilesys.cpp` outside the two lock functions.
- Sources and sinks that are descriptors or other processes (`Transfering`), and with them the readiness wait, which is an arbitrary answer here.
- The container states, the building functions (`sourceSet`, `sinkAdd`, `cmdAdd`) and the child's side of the fork; a command starts configured.
- FileExecutingClass.FileExecuting.AutoSink: says nothing about the total of bytes read, because it is only printed.
- Sink objects given twice: two sinks of a command never share memory here, while the code would write both into one object.
- Url.Atoi: unbounded before the cut to 16 bits, where the C function leaves an overflow undefined.
- Requests after the re-assembled URL was handed on, name resolution and the curl handles.
- Strings of more than 2^63 - 1 characters, which no string object can hold.
- Sockets, mail, DNS, animations, LED pulsing, JSON, time and padding helpers: wrappers or easy plumbing.
